/**
 * The authentication gate run on every accepted connection before a session exists.
 * The inbound messages are a finite sequence; reading past its end is a read error.
 */
module Handshake {
  import opened Wrappers
  import opened Irc

  /** What the backend client calls answer: whether the app could be restored, and the current account. */
  datatype Backend = Backend(restoreOk: bool, account: Option<Account>)

  datatype Outcome =
    | Dropped                                       // read error before a non-CAP message: closed, nothing written
    | Rejected(reply: Reply)                        // one ERROR line written, then closed
    | Accepted(account: Account, rest: seq<Message>) // session starts on the messages after PASS

  /** The index of the first message that is not `CAP`, or `|msgs|` if there is none. */
  function FirstNonCap(msgs: seq<Message>): (k: nat)
    ensures k <= |msgs|
    ensures forall j :: 0 <= j < k ==> msgs[j].command == "CAP"
    ensures k < |msgs| ==> msgs[k].command != "CAP"
    decreases |msgs|
  {
    if msgs == [] || msgs[0].command != "CAP" then 0 else 1 + FirstNonCap(msgs[1..])
  }

  /** The gate reads `PASS`'s first parameter without checking that it has one. */
  predicate PassHasParam(msgs: seq<Message>)
  {
    var k := FirstNonCap(msgs);
    k < |msgs| && msgs[k].command == "PASS" ==> |msgs[k].params| >= 1
  }

  /** The first message that is not `CAP` is `PASS` with the configured password. */
  predicate PasswordOk(cfg: Config, msgs: seq<Message>)
    requires PassHasParam(msgs)
  {
    var k := FirstNonCap(msgs);
    k < |msgs| && msgs[k].command == "PASS" && msgs[k].params[0] == cfg.userPassword
  }

  function Authentication(cfg: Config, msgs: seq<Message>, backend: Backend): (h: Outcome)
    requires PassHasParam(msgs)
    ensures h.Dropped? <==> forall j :: 0 <= j < |msgs| ==> msgs[j].command == "CAP"
    ensures h.Accepted? <==> PasswordOk(cfg, msgs) && backend.restoreOk && backend.account.Some?
    ensures h.Accepted? ==> h.account == backend.account.value && h.rest == msgs[FirstNonCap(msgs) + 1..]
    ensures h.Rejected? ==>
              h.reply == ServerError(cfg.serverName, if PasswordOk(cfg, msgs) && backend.restoreOk then NoAccount else AuthFailed)
  {
    var k := FirstNonCap(msgs);
    if k == |msgs| then Dropped
    else if msgs[k].command != "PASS" then Rejected(ServerError(cfg.serverName, AuthFailed))
    else if msgs[k].params[0] != cfg.userPassword then Rejected(ServerError(cfg.serverName, AuthFailed))
    else if !backend.restoreOk then Rejected(ServerError(cfg.serverName, AuthFailed))
    else if backend.account.None? then Rejected(ServerError(cfg.serverName, NoAccount))
    else Accepted(backend.account.value, msgs[k + 1..])
  }

  /** The gate as the accept loop runs it: re-read while nothing was read or a `CAP` was read. */
  method Authenticate(cfg: Config, msgs: seq<Message>, backend: Backend) returns (h: Outcome)
    requires PassHasParam(msgs)
    ensures h == Authentication(cfg, msgs, backend)
  {
    var i := 0;
    var msg: Option<Message> := None;
    while msg.None? || msg.value.command == "CAP"
      invariant 0 <= i <= |msgs|
      invariant msg.None? <==> i == 0
      invariant msg.Some? ==> msg.value == msgs[i - 1]
      invariant forall j :: 0 <= j < i - 1 ==> msgs[j].command == "CAP"
      decreases |msgs| - i
    {
      if i == |msgs| {
        return Dropped;
      }
      msg := Some(msgs[i]);
      i := i + 1;
    }
    var m := msg.value;
    if m.command != "PASS" {
      return Rejected(ServerError(cfg.serverName, AuthFailed));
    }
    if m.params[0] != cfg.userPassword {
      return Rejected(ServerError(cfg.serverName, AuthFailed));
    }
    if !backend.restoreOk {
      return Rejected(ServerError(cfg.serverName, AuthFailed));
    }
    if backend.account.None? {
      return Rejected(ServerError(cfg.serverName, NoAccount));
    }
    return Accepted(backend.account.value, msgs[i..]);
  }
}
