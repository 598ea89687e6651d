/**
 * What a whole session guarantees: one welcome at most, one JOIN line and one
 * backend subscription per joined channel, registration never missed and never
 * undone, and the fatal registration failure when a default channel was joined first.
 */
module SessionProperties {
  import opened GoStrings
  import opened Irc
  import opened SessionModel

  /** The number of JOIN confirmations for channel `ch` among the lines written. */
  function Joins(out: seq<Reply>, ch: string): (n: nat)
    decreases |out|
  {
    if out == [] then 0
    else Joins(out[..|out| - 1], ch) + (if out[|out| - 1].Joined? && out[|out| - 1].channel == ch then 1 else 0)
  }

  /** The number of welcome lines written. */
  function Welcomes(out: seq<Reply>): (n: nat)
    decreases |out|
  {
    if out == [] then 0 else Welcomes(out[..|out| - 1]) + (if out[|out| - 1].Welcome? then 1 else 0)
  }

  /** The number of backend subscriptions made for channel `ch`. */
  function Subscribed(subs: seq<Subscription>, ch: string): (n: nat)
    decreases |subs|
  {
    if subs == [] then 0 else Subscribed(subs[..|subs| - 1], ch) + (if subs[|subs| - 1].channel == ch then 1 else 0)
  }

  lemma OutSnoc(out: seq<Reply>, x: Reply)
    ensures Welcomes(out + [x]) == Welcomes(out) + (if x.Welcome? then 1 else 0)
    ensures forall ch :: Joins(out + [x], ch) == Joins(out, ch) + (if x.Joined? && x.channel == ch then 1 else 0)
  {
    assert (out + [x])[..|out|] == out;
  }

  lemma SubscriptionsSnoc(subs: seq<Subscription>, x: Subscription)
    ensures forall ch :: Subscribed(subs + [x], ch) == Subscribed(subs, ch) + (if x.channel == ch then 1 else 0)
  {
    assert (subs + [x])[..|subs|] == subs;
  }

  /** The session invariant. */
  ghost predicate Inv(st: State)
  {
    && (st.registered ==> st.nick && st.user)
    && Welcomes(st.out) == (if st.registered then 1 else 0)
    && (forall ch :: Joins(st.out, ch) == (if ch in st.channels then 1 else 0))
    && (forall ch :: Subscribed(st.subscriptions, ch) == (if ch in st.channels then 1 else 0))
  }

  lemma InitialInv()
    ensures Inv(Initial)
  {
  }

  lemma StreamInv(st: State, chName: string, streamName: string, hashtag: string)
    requires Inv(st)
    ensures Inv(Stream(st, chName, streamName, hashtag).0)
  {
    if chName !in st.channels {
      OutSnoc(st.out, Joined(st.nickname, chName));
      SubscriptionsSnoc(st.subscriptions, Subscription(chName, streamName, hashtag));
    }
  }

  lemma RegisterInv(cfg: Config, acct: Account, st: State)
    requires Inv(st) && st.nick && st.user && !st.registered
    ensures Inv(Register(cfg, acct, st).0)
  {
    var st1 := st.(out := st.out + [Welcome(cfg.serverName, st.nickname, acct.acct)], registered := true);
    OutSnoc(st.out, Welcome(cfg.serverName, st.nickname, acct.acct));
    assert Inv(st1);
    StreamInv(st1, "&user", "user", "");
    var (st2, ok) := Stream(st1, "&user", "user", "");
    if ok {
      StreamInv(st2, "&public", "public", "");
    }
  }

  lemma JoinOneInv(cfg: Config, st: State, target: string)
    requires Inv(st) && target != []
    ensures Inv(JoinOne(cfg, st, target))
  {
    match Classify(target)
    case Feed(streamName, hashtag) => StreamInv(st, target, streamName, hashtag);
    case Ignored =>
    case Unknown => OutSnoc(st.out, UnknownHashtag(cfg.serverName, st.nickname, target));
  }

  lemma {:induction false} JoinAllInv(cfg: Config, st: State, targets: seq<string>)
    requires Inv(st) && [] !in targets
    ensures Inv(JoinAll(cfg, st, targets))
    decreases |targets|
  {
    if targets != [] {
      JoinOneInv(cfg, st, targets[0]);
      JoinAllInv(cfg, JoinOne(cfg, st, targets[0]), targets[1..]);
    }
  }

  lemma DispatchInv(cfg: Config, st: State, msg: Message)
    requires Inv(st) && WellFormed(msg)
    ensures Inv(Dispatch(cfg, st, msg))
  {
    var r := Dispatch(cfg, st, msg);
    if msg.command == "JOIN" {
      JoinAllInv(cfg, st, Split(msg.params[0], ','));
    } else if msg.command !in {"NICK", "USER"} {
      OutSnoc(st.out, r.out[|st.out|]);
      assert r.out == st.out + [r.out[|st.out|]];
    }
  }

  lemma {:induction false} RunInv(cfg: Config, acct: Account, st: State, msgs: seq<Message>)
    requires Inv(st) && ReadsWellFormed(cfg, acct, st, msgs)
    ensures Inv(Run(cfg, acct, st, msgs).0)
    decreases |msgs|
  {
    if st.nick && st.user && !st.registered {
      RegisterInv(cfg, acct, st);
    }
    var (st1, ok) := CheckRegistration(cfg, acct, st);
    if ok && msgs != [] {
      DispatchInv(cfg, st1, msgs[0]);
      RunInv(cfg, acct, Dispatch(cfg, st1, msgs[0]), msgs[1..]);
    }
  }

  /**
   * Over a whole session: the welcome is written once if the session registered and
   * never otherwise; each channel gets one JOIN line and one backend subscription if
   * it was joined and none otherwise, so a repeated JOIN never yields a second line.
   */
  lemma SessionWritesOnce(cfg: Config, acct: Account, msgs: seq<Message>)
    requires ReadsWellFormed(cfg, acct, Initial, msgs)
    ensures var st := Run(cfg, acct, Initial, msgs).0;
      && (st.registered ==> st.nick && st.user)
      && Welcomes(st.out) == (if st.registered then 1 else 0)
      && (forall ch :: Joins(st.out, ch) <= 1 && (Joins(st.out, ch) == 1 <==> ch in st.channels))
      && (forall ch :: Subscribed(st.subscriptions, ch) == Joins(st.out, ch))
  {
    InitialInv();
    RunInv(cfg, acct, Initial, msgs);
  }

  /** Once registered, no further message can bring a second welcome. */
  lemma RegisteredForever(cfg: Config, acct: Account, st: State, msgs: seq<Message>)
    requires ReadsWellFormed(cfg, acct, st, msgs) && Inv(st) && st.registered
    ensures Run(cfg, acct, st, msgs).0.registered
    ensures Welcomes(Run(cfg, acct, st, msgs).0.out) == Welcomes(st.out) == 1
  {
    RunInv(cfg, acct, st, msgs);
  }

  /**
   * A default channel joined before registration makes registration fail: the session
   * ends in the registration step, with one welcome more (and, when only `&public` was
   * joined, the `&user` JOIN line), whatever the client sends next, since none of it is read.
   */
  lemma EarlyDefaultJoinIsFatal(cfg: Config, acct: Account, st: State, msgs: seq<Message>)
    requires st.nick && st.user && !st.registered
    requires "&user" in st.channels || "&public" in st.channels
    ensures ReadsWellFormed(cfg, acct, st, msgs)
    ensures Run(cfg, acct, st, msgs) == (Register(cfg, acct, st).0, DefaultStreamFailed)
    ensures Welcomes(Run(cfg, acct, st, msgs).0.out) == Welcomes(st.out) + 1
  {
    var welcome := Welcome(cfg.serverName, st.nickname, acct.acct);
    OutSnoc(st.out, welcome);
    if "&user" !in st.channels {
      OutSnoc(st.out + [welcome], Joined(st.nickname, "&user"));
      assert st.out + [welcome, Joined(st.nickname, "&user")] == st.out + [welcome] + [Joined(st.nickname, "&user")];
    }
  }

  /** The registry after a JOIN: the channels before, plus exactly the recognised targets. */
  lemma {:induction false} JoinAllChannels(cfg: Config, st: State, targets: seq<string>)
    requires [] !in targets
    ensures JoinAll(cfg, st, targets).channels == st.channels + (set t | t in targets && t != [] && Classify(t).Feed?)
    decreases |targets|
  {
    if targets != [] {
      var target, rest := targets[0], targets[1..];
      var st1 := JoinOne(cfg, st, target);
      JoinAllChannels(cfg, st1, rest);
      var first := if Classify(target).Feed? then {target} else {};
      assert st1.channels == st.channels + first;
      assert forall t :: t in targets <==> t == target || t in rest;
      assert (set t | t in targets && t != [] && Classify(t).Feed?)
          == first + (set t | t in rest && t != [] && Classify(t).Feed?);
    }
  }

  /**
   * What a JOIN appends: subscriptions only for its targets, and lines that are each the
   * JOIN line of a target or the 404 line of an unrecognised target, with the current nickname.
   */
  lemma {:induction false} JoinAllWrites(cfg: Config, st: State, targets: seq<string>)
    requires [] !in targets
    ensures forall i :: |st.subscriptions| <= i < |JoinAll(cfg, st, targets).subscriptions| ==>
              JoinAll(cfg, st, targets).subscriptions[i].channel in targets
    ensures forall i :: |st.out| <= i < |JoinAll(cfg, st, targets).out| ==>
              JoinReply(cfg, st.nickname, targets, JoinAll(cfg, st, targets).out[i])
    decreases |targets|
  {
    if targets != [] {
      var target, rest := targets[0], targets[1..];
      var st1 := JoinOne(cfg, st, target);
      var r := JoinAll(cfg, st1, rest);
      JoinAllWrites(cfg, st1, rest);
      assert forall t :: t in targets <==> t == target || t in rest;
      forall i | |st.out| <= i < |r.out|
        ensures JoinReply(cfg, st.nickname, targets, r.out[i])
      {
        if i < |st1.out| {
          assert r.out[i] == st1.out[i];
          assert JoinReply(cfg, st.nickname, [target], r.out[i]);
        } else {
          assert JoinReply(cfg, st1.nickname, rest, r.out[i]);
        }
      }
      forall i | |st.subscriptions| <= i < |r.subscriptions|
        ensures r.subscriptions[i].channel in targets
      {
        if i < |st1.subscriptions| {
          assert r.subscriptions[i] == st1.subscriptions[i];
        }
      }
    }
  }

  /** JOIN handles its targets independently: a list is its parts one after the other. */
  lemma {:induction false} JoinAllAppend(cfg: Config, st: State, a: seq<string>, b: seq<string>)
    requires [] !in a && [] !in b
    ensures [] !in a + b
    ensures JoinAll(cfg, st, a + b) == JoinAll(cfg, JoinAll(cfg, st, a), b)
    decreases |a|
  {
    if a != [] {
      assert (a + b)[0] == a[0] && (a + b)[1..] == a[1..] + b;
      JoinAllAppend(cfg, JoinOne(cfg, st, a[0]), a[1..], b);
    } else {
      assert a + b == b;
    }
  }

  /**
   * A JOIN of one target: a recognised one goes to `stream`, an ignored `&` name changes
   * nothing, and anything else gets exactly one 404 line.
   */
  lemma JoinSingle(cfg: Config, st: State, target: string)
    requires target != []
    ensures Classify(target).Feed? ==>
              JoinAll(cfg, st, [target]) == Stream(st, target, Classify(target).streamName, Classify(target).hashtag).0
    ensures Classify(target).Ignored? ==> JoinAll(cfg, st, [target]) == st
    ensures Classify(target).Unknown? ==>
              JoinAll(cfg, st, [target]) == st.(out := st.out + [UnknownHashtag(cfg.serverName, st.nickname, target)])
  {
    assert [target][1..] == [];
  }

  /** A JOIN whose targets are all ignored `&` names changes nothing and writes nothing. */
  lemma {:induction false} IgnoredTargetsChangeNothing(cfg: Config, st: State, targets: seq<string>)
    requires forall i :: 0 <= i < |targets| ==> targets[i] != [] && Classify(targets[i]).Ignored?
    ensures [] !in targets
    ensures JoinAll(cfg, st, targets) == st
    decreases |targets|
  {
    if targets != [] {
      IgnoredTargetsChangeNothing(cfg, st, targets[1..]);
    }
  }

  /** Joining a recognised target a second time changes nothing; an unknown one is answered each time. */
  lemma JoinTwice(cfg: Config, st: State, target: string)
    requires target != []
    ensures Classify(target).Feed? ==> JoinAll(cfg, st, [target, target]) == JoinAll(cfg, st, [target])
    ensures Classify(target).Unknown? ==>
              JoinAll(cfg, st, [target, target]).out == st.out + [UnknownHashtag(cfg.serverName, st.nickname, target), UnknownHashtag(cfg.serverName, st.nickname, target)]
  {
    assert [target, target][1..] == [target];
    assert [target][1..] == [];
    if Classify(target).Unknown? {
      var line := UnknownHashtag(cfg.serverName, st.nickname, target);
      var once := JoinOne(cfg, st, target);
      assert once == st.(out := st.out + [line]);
      assert JoinOne(cfg, once, target) == st.(out := st.out + [line] + [line]);
      assert st.out + [line] + [line] == st.out + [line, line];
      assert JoinAll(cfg, st, [target, target]) == JoinAll(cfg, once, [target]);
      assert JoinAll(cfg, once, [target]) == JoinAll(cfg, JoinOne(cfg, once, target), []);
    }
  }
}
