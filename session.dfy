/**
 * The session object of one authenticated connection (`Server`), whose methods
 * update its fields in place as the dispatcher does; each is proved to do what the
 * matching function of `SessionModel` says.
 */
module Session {
  import opened GoStrings
  import opened Irc
  import opened SessionModel

  class Server {
    const cfg: Config
    const account: Account
    var channels: set<string>
    var subscriptions: seq<Subscription>
    var out: seq<Reply>
    var nickname: string
    var nick: bool
    var user: bool
    var registered: bool

    function Snapshot(): (st: State)
      reads this
    {
      State(nickname, nick, user, registered, channels, subscriptions, out)
    }

    constructor (cfg: Config, account: Account)
      ensures this.cfg == cfg && this.account == account
      ensures Snapshot() == State("", false, false, false, {}, [], [])
    {
      this.cfg := cfg;
      this.account := account;
      channels := {};
      subscriptions := [];
      out := [];
      nickname := "";
      nick, user, registered := false, false, false;
    }

    /** `stream`: registry insert, backend subscription and JOIN line; false for a duplicate name. */
    method Stream(chName: string, streamName: string, hashtag: string) returns (ok: bool)
      modifies this
      ensures (Snapshot(), ok) == SessionModel.Stream(old(Snapshot()), chName, streamName, hashtag)
    {
      if chName in channels {
        return false;
      }
      channels := channels + {chName};
      // The listener's own failure is only logged; the join goes ahead regardless.
      subscriptions := subscriptions + [Subscription(chName, streamName, hashtag)];
      out := out + [Joined(nickname, chName)];
      return true;
    }

    method Register() returns (ok: bool)
      requires nick && user && !registered
      modifies this
      ensures (Snapshot(), ok) == SessionModel.Register(cfg, account, old(Snapshot()))
    {
      out := out + [Welcome(cfg.serverName, nickname, account.acct)];
      registered := true;
      ok := Stream("&user", "user", "");
      if !ok {
        return;
      }
      ok := Stream("&public", "public", "");
    }

    /** The check at the top of the session loop: register once both `NICK` and `USER` were seen. */
    method CheckRegistration() returns (ok: bool)
      modifies this
      ensures (Snapshot(), ok) == SessionModel.CheckRegistration(cfg, account, old(Snapshot()))
    {
      ok := true;
      if nick && user && !registered {
        ok := Register();
      }
    }

    /** JOIN: every comma-separated target on its own; a failed stream is only logged. */
    method Join(param: string)
      requires [] !in Split(param, ',')
      modifies this
      ensures Snapshot() == JoinAll(cfg, old(Snapshot()), Split(param, ','))
    {
      var targets := Split(param, ',');
      var rest := targets;
      while rest != []
        invariant [] !in rest
        invariant JoinAll(cfg, Snapshot(), rest) == JoinAll(cfg, old(Snapshot()), targets)
        decreases |rest|
      {
        var target := rest[0];
        ghost var before := Snapshot();
        if target[0] == '&' {
          if target == "&user" || target == "&local" || target == "&public" {
            var joined := Stream(target, target[1..], "");
          }
        } else if target[0] == '#' {
          var joined := Stream(target, "hashtag", target[1..]);
        } else {
          out := out + [UnknownHashtag(cfg.serverName, nickname, target)];
        }
        assert Snapshot() == JoinOne(cfg, before, target);
        rest := rest[1..];
      }
    }

    method Dispatch(msg: Message)
      requires WellFormed(msg)
      modifies this
      ensures Snapshot() == SessionModel.Dispatch(cfg, old(Snapshot()), msg)
    {
      match msg.command
      case "NICK" =>
        nick := true;
        nickname := msg.params[0];
      case "USER" =>
        user := true;
      case "MODE" =>
        out := out + [ModeEcho(cfg.serverName, nickname, msg.params[1])];
      case "PING" =>
        var pong := msg.(prefix := msg.prefix.(host := cfg.serverName), command := "PONG");
        out := out + [Pong(pong)];
      case "JOIN" =>
        Join(msg.params[0]);
      case _ =>
        out := out + [UnknownCommand(cfg.serverName, nickname, msg.command)];
    }

    /** `HandleConn`: the session loop over the inbound messages; their end is the read error that ends it. */
    method HandleConn(msgs: seq<Message>) returns (ending: Ending)
      requires ReadsWellFormed(cfg, account, Snapshot().(nickname := "*"), msgs)
      modifies this
      ensures (Snapshot(), ending) == Run(cfg, account, old(Snapshot()).(nickname := "*"), msgs)
    {
      nickname := "*";
      ghost var start := Snapshot();
      assert start == old(Snapshot()).(nickname := "*");
      var rest := msgs;
      while true
        invariant ReadsWellFormed(cfg, account, Snapshot(), rest)
        invariant Run(cfg, account, Snapshot(), rest) == Run(cfg, account, start, msgs)
        decreases |rest|
      {
        ghost var current := Snapshot();
        RunStops(cfg, account, current, rest);
        var ok := CheckRegistration();
        if !ok {
          return DefaultStreamFailed;
        }
        if rest == [] {
          return Disconnected;
        }
        RunStep(cfg, account, current, rest);
        Dispatch(rest[0]);
        rest := rest[1..];
      }
    }
  }
}
