/**
 * One accepted connection from start to close: the authentication gate, then the
 * session loop on the messages that follow `PASS`.
 */
module Gateway {
  import opened Wrappers
  import opened GoStrings
  import opened Irc
  import opened Handshake
  import opened SessionModel
  import opened SessionProperties
  import Session

  /** What a connection leaves behind when it closes: the lines written and the backend subscriptions made. */
  datatype Closing = Closing(written: seq<Reply>, subscriptions: seq<Subscription>)

  /**
   * The messages the connection reads never make the source index past a parameter list:
   * the gate reads `PASS`'s first parameter, and only an accepted connection reads on.
   */
  predicate Admissible(cfg: Config, msgs: seq<Message>, backend: Backend)
  {
    && PassHasParam(msgs)
    && (Authentication(cfg, msgs, backend).Accepted? ==>
          ReadsWellFormed(cfg, backend.account.value, Initial, Authentication(cfg, msgs, backend).rest))
  }

  function Connection(cfg: Config, msgs: seq<Message>, backend: Backend): (c: Closing)
    requires Admissible(cfg, msgs, backend)
    ensures !(PasswordOk(cfg, msgs) && backend.restoreOk) ==>
              && c.subscriptions == []
              && c.written == if FirstNonCap(msgs) == |msgs| then [] else [ServerError(cfg.serverName, AuthFailed)]
    ensures PasswordOk(cfg, msgs) && backend.restoreOk && backend.account.None? ==>
              c == Closing([ServerError(cfg.serverName, NoAccount)], [])
    ensures Authentication(cfg, msgs, backend).Accepted? ==>
              var (st, _) := Run(cfg, backend.account.value, Initial, msgs[FirstNonCap(msgs) + 1..]);
              c == Closing(st.out, st.subscriptions)
  {
    match Authentication(cfg, msgs, backend)
    case Dropped => Closing([], [])
    case Rejected(reply) => Closing([reply], [])
    case Accepted(account, rest) =>
      var (st, _) := Run(cfg, account, Initial, rest);
      Closing(st.out, st.subscriptions)
  }

  /** One turn of the accept loop, for the connection it accepted. */
  method Serve(cfg: Config, msgs: seq<Message>, backend: Backend) returns (c: Closing)
    requires Admissible(cfg, msgs, backend)
    ensures c == Connection(cfg, msgs, backend)
  {
    var h := Authenticate(cfg, msgs, backend);
    match h
    case Dropped =>
      c := Closing([], []);
    case Rejected(reply) =>
      c := Closing([reply], []);
    case Accepted(account, rest) =>
      var s := new Session.Server(cfg, account);
      var ending := s.HandleConn(rest);
      c := Closing(s.out, s.subscriptions);
  }

  /** Whatever a connection does, it gets at most one welcome and one JOIN line per channel. */
  lemma ConnectionWritesOnce(cfg: Config, msgs: seq<Message>, backend: Backend)
    requires Admissible(cfg, msgs, backend)
    ensures var c := Connection(cfg, msgs, backend);
      && Welcomes(c.written) <= 1
      && forall ch :: Joins(c.written, ch) <= 1 && Subscribed(c.subscriptions, ch) == Joins(c.written, ch)
  {
    match Authentication(cfg, msgs, backend)
    case Dropped =>
    case Rejected(reply) =>
      assert [reply][..0] == [];
    case Accepted(account, rest) =>
      SessionWritesOnce(cfg, account, rest);
  }

  /**
   * A wrong password is refused with one ERROR line, and what the client sent after it is
   * never read: here a `NICK` without its parameter, which the session would trip over.
   */
  lemma WrongPasswordExample(cfg: Config, backend: Backend)
    requires cfg.userPassword != "wrong"
    ensures Admissible(cfg, [Msg("PASS", ["wrong"]), Msg("NICK", [])], backend)
    ensures Connection(cfg, [Msg("PASS", ["wrong"]), Msg("NICK", [])], backend) == Closing([ServerError(cfg.serverName, AuthFailed)], [])
    ensures !AllWellFormed([Msg("PASS", ["wrong"]), Msg("NICK", [])][1..])
  {
    var msgs := [Msg("PASS", ["wrong"]), Msg("NICK", [])];
    assert FirstNonCap(msgs) == 0;
    assert !WellFormed(msgs[1..][0]);
  }

  function Msg(command: string, params: seq<string>): (msg: Message)
  {
    Message(Prefix("", "", ""), command, params)
  }

  /** The client's side of the example conversation. */
  const ExampleMessages := [Msg("CAP", ["LS"]), Msg("PASS", ["hunter2"]), Msg("NICK", ["alice"]),
                            Msg("USER", ["a", "a", "a", "A"]), Msg("JOIN", ["#golang"])]

  lemma ExampleTargets()
    ensures Split("#golang", ',') == ["#golang"]
  {
    SplitJoin(["#golang"], ',');
  }

  lemma ExampleHandshake(cfg: Config, account: Account)
    requires cfg.userPassword == "hunter2"
    ensures Authentication(cfg, ExampleMessages, Backend(true, Some(account))) == Accepted(account, ExampleMessages[2..])
    ensures Admissible(cfg, ExampleMessages, Backend(true, Some(account)))
  {
    var msgs := ExampleMessages;
    assert msgs[0].command == "CAP" && msgs[1].command == "PASS";
    assert FirstNonCap(msgs[1..]) == 0;
    assert FirstNonCap(msgs) == 1;
    assert PassHasParam(msgs);
    ExampleWellFormed();
    AllWellFormedReads(cfg, account, Initial, msgs[2..]);
  }

  /** The messages after `PASS` in the example. */
  const ExampleSessionMessages := [Msg("NICK", ["alice"]), Msg("USER", ["a", "a", "a", "A"]), Msg("JOIN", ["#golang"])]

  lemma ExampleWellFormed()
    ensures ExampleMessages[2..] == ExampleSessionMessages
    ensures AllWellFormed(ExampleSessionMessages)
  {
    ExampleSuffix();
    ExampleMessagesWellFormed();
    ThreeWellFormed(ExampleSessionMessages[0], ExampleSessionMessages[1], ExampleSessionMessages[2]);
  }

  lemma ThreeWellFormed(a: Message, b: Message, c: Message)
    requires WellFormed(a) && WellFormed(b) && WellFormed(c)
    ensures AllWellFormed([a, b, c])
  {
  }

  lemma ExampleSuffix()
    ensures ExampleMessages[2..] == ExampleSessionMessages
  {
    assert ExampleMessages[2..] == [ExampleMessages[2], ExampleMessages[3], ExampleMessages[4]];
  }

  lemma ExampleMessagesWellFormed()
    ensures WellFormed(Msg("NICK", ["alice"])) && WellFormed(Msg("USER", ["a", "a", "a", "A"]))
    ensures WellFormed(Msg("JOIN", ["#golang"]))
  {
    assert "NICK"[0] != "MODE"[0] && "NICK"[0] != "JOIN"[0];
    assert "USER"[0] != "NICK"[0] && "USER"[0] != "MODE"[0] && "USER"[0] != "JOIN"[0];
    ExampleTargets();
    assert "JOIN"[0] != "NICK"[0] && "JOIN"[0] != "MODE"[0];
  }

  /** The session state of the example right after registration. */
  function ExampleRegistered(account: Account): (st: State)
  {
    State("alice", true, true, true, {"&user", "&public"},
          [Subscription("&user", "user", ""), Subscription("&public", "public", "")],
          [Welcome("to.ot", "alice", account.acct), Joined("alice", "&user"), Joined("alice", "&public")])
  }

  /** The session state of the example after `JOIN #golang`. */
  function ExampleJoined(account: Account): (st: State)
  {
    State("alice", true, true, true, {"&user", "&public", "#golang"},
          [Subscription("&user", "user", ""), Subscription("&public", "public", ""),
           Subscription("#golang", "hashtag", "golang")],
          [Welcome("to.ot", "alice", account.acct), Joined("alice", "&user"), Joined("alice", "&public"),
           Joined("alice", "#golang")])
  }

  /** Registration in the example: welcome, `&user`, `&public`. */
  lemma ExampleRegister(cfg: Config, account: Account)
    requires cfg.serverName == "to.ot"
    ensures Register(cfg, account, Initial.(nick := true, nickname := "alice", user := true)) ==
            (ExampleRegistered(account), true)
  {
    var st := Initial.(nick := true, nickname := "alice", user := true);
    var welcome := Welcome("to.ot", "alice", account.acct);
    assert st.out + [welcome] == [welcome];
    var st1 := st.(out := st.out + [welcome], registered := true);
    var r := Stream(st1, "&user", "user", "");
    assert r.1 && r.0.nickname == "alice" && r.0.channels == {"&user"};
    assert r.0.subscriptions == [Subscription("&user", "user", "")];
    assert r.0.out == [welcome, Joined("alice", "&user")];
    assert "&public" != "&user" by {
      assert "&public"[1] != "&user"[1];
    }
    var r2 := Stream(r.0, "&public", "public", "");
    assert r2.1 && r2.0.nickname == "alice" && r2.0.nick && r2.0.user && r2.0.registered;
    assert r2.0.channels == {"&user", "&public"};
    assert r2.0.subscriptions == [Subscription("&user", "user", ""), Subscription("&public", "public", "")];
    assert r2.0.out == [welcome, Joined("alice", "&user"), Joined("alice", "&public")];
    assert Register(cfg, account, st) == r2;
  }

  /** `NICK alice` and `USER a a a :A` in the example set the two flags and the nickname. */
  lemma ExampleNickUser(cfg: Config)
    ensures AllWellFormed(ExampleSessionMessages)
    ensures Dispatch(cfg, Initial, ExampleSessionMessages[0]) == Initial.(nick := true, nickname := "alice")
    ensures Dispatch(cfg, Initial.(nick := true, nickname := "alice"), ExampleSessionMessages[1])
         == Initial.(nick := true, nickname := "alice", user := true)
  {
    ExampleWellFormed();
  }

  /** `JOIN #golang` in the example subscribes to the hashtag feed. */
  lemma ExampleJoin(cfg: Config, account: Account)
    ensures AllWellFormed(ExampleSessionMessages)
    ensures Dispatch(cfg, ExampleRegistered(account), ExampleSessionMessages[2]) ==
            Stream(ExampleRegistered(account), "#golang", "hashtag", "golang").0
  {
    ExampleWellFormed();
    ExampleTargets();
    var s3 := ExampleRegistered(account);
    assert Classify("#golang") == Feed("hashtag", "golang");
    assert JoinAll(cfg, s3, ["#golang"]) == Stream(s3, "#golang", "hashtag", "golang").0 by {
      assert ["#golang"][1..] == [];
    }
  }

  lemma ExampleJoinedState(account: Account)
    ensures Stream(ExampleRegistered(account), "#golang", "hashtag", "golang").0 == ExampleJoined(account)
  {
    var s3 := ExampleRegistered(account);
    assert "#golang" !in s3.channels by {
      assert "#golang"[0] != "&user"[0] && "#golang"[0] != "&public"[0];
    }
    var s4 := Stream(s3, "#golang", "hashtag", "golang").0;
    assert s4.channels == {"&user", "&public", "#golang"};
    assert s4.subscriptions == ExampleJoined(account).subscriptions;
    assert s4.out == ExampleJoined(account).out;
  }

  lemma ExampleRun(cfg: Config, account: Account)
    requires cfg.serverName == "to.ot"
    ensures ReadsWellFormed(cfg, account, Initial, ExampleSessionMessages)
    ensures Run(cfg, account, Initial, ExampleSessionMessages) == (ExampleJoined(account), Disconnected)
  {
    ExampleNickUser(cfg);
    var rest := ExampleSessionMessages;
    AllWellFormedReads(cfg, account, Initial, rest);
    RunStep(cfg, account, Initial, rest);
    ExampleRunAfterNick(cfg, account);
  }

  /** The example session from `USER a a a :A` on, with the nickname set. */
  lemma ExampleRunAfterNick(cfg: Config, account: Account)
    requires cfg.serverName == "to.ot"
    requires ReadsWellFormed(cfg, account, Initial.(nick := true, nickname := "alice"), ExampleSessionMessages[1..])
    ensures Run(cfg, account, Initial.(nick := true, nickname := "alice"), ExampleSessionMessages[1..])
            == (ExampleJoined(account), Disconnected)
  {
    ExampleNickUser(cfg);
    var rest := ExampleSessionMessages;
    var s1 := Initial.(nick := true, nickname := "alice");
    RunStep(cfg, account, s1, rest[1..]);
    assert rest[1..][0] == rest[1] && rest[1..][1..] == rest[2..];
    ExampleRunAfterUser(cfg, account);
  }

  /** The example session from `JOIN #golang` on, with the nickname and user set. */
  lemma ExampleRunAfterUser(cfg: Config, account: Account)
    requires cfg.serverName == "to.ot"
    requires ReadsWellFormed(cfg, account, Initial.(nick := true, nickname := "alice", user := true), ExampleSessionMessages[2..])
    ensures Run(cfg, account, Initial.(nick := true, nickname := "alice", user := true), ExampleSessionMessages[2..])
            == (ExampleJoined(account), Disconnected)
  {
    ExampleRegister(cfg, account);
    ExampleJoin(cfg, account);
    ExampleJoinedState(account);
    var rest := ExampleSessionMessages;
    var s2 := Initial.(nick := true, nickname := "alice", user := true);
    var s4 := ExampleJoined(account);
    RunStep(cfg, account, s2, rest[2..]);
    assert rest[2..][0] == rest[2] && rest[2..][1..] == [];
    assert Run(cfg, account, s4, []) == (s4, Disconnected);
  }

  /**
   * `CAP LS`, `PASS hunter2`, `NICK alice`, `USER a a a :A`, `JOIN #golang` under the
   * default settings: the welcome, `&user`, `&public`, then `#golang` on the hashtag feed.
   */
  lemma ExampleSession(instance: string, token: string, clientID: string, clientSecret: string, account: Account)
    ensures Admissible(DefaultConfig(instance, token, clientID, clientSecret), ExampleMessages, Backend(true, Some(account)))
    ensures Connection(DefaultConfig(instance, token, clientID, clientSecret), ExampleMessages, Backend(true, Some(account))) ==
            Closing([Welcome("to.ot", "alice", account.acct), Joined("alice", "&user"), Joined("alice", "&public"),
                     Joined("alice", "#golang")],
                    [Subscription("&user", "user", ""), Subscription("&public", "public", ""),
                     Subscription("#golang", "hashtag", "golang")])
  {
    var cfg := DefaultConfig(instance, token, clientID, clientSecret);
    ExampleHandshake(cfg, account);
    ExampleWellFormed();
    ExampleRun(cfg, account);
  }
}
