/**
 * The per-connection session as a state machine over values: the registration
 * state, the channel registry, the backend subscriptions made and the lines
 * written. The class `Session.Server` runs it in place and is proved to agree.
 */
module SessionModel {
  import opened GoStrings
  import opened Irc

  /** One call of the backend's stream listener: for which channel, which feed, which hashtag. */
  datatype Subscription = Subscription(channel: string, feed: string, hashtag: string)

  datatype State = State(
    nickname: string,
    nick: bool,
    user: bool,
    registered: bool,
    channels: set<string>,
    subscriptions: seq<Subscription>,
    out: seq<Reply>)

  /** How the session loop ends: a read failed (the client left), or a default channel could not be opened. */
  datatype Ending = Disconnected | DefaultStreamFailed

  /** The state in which the session loop starts. */
  const Initial := State("*", false, false, false, {}, [], [])

  /**
   * `stream`: a channel name already in the registry is refused and nothing happens;
   * otherwise the name is recorded, the backend is asked for the feed (its answer does
   * not matter) and the client is told it joined.
   */
  function Stream(st: State, chName: string, streamName: string, hashtag: string): (r: (State, bool))
    ensures r.1 <==> chName !in st.channels
    ensures !r.1 ==> r.0 == st
    ensures r.1 ==> && r.0.channels == st.channels + {chName}
                    && r.0.subscriptions == st.subscriptions + [Subscription(chName, streamName, hashtag)]
                    && r.0.out == st.out + [Joined(st.nickname, chName)]
    ensures r.0.(channels := st.channels, subscriptions := st.subscriptions, out := st.out) == st
  {
    if chName in st.channels then (st, false)
    else (st.(channels := st.channels + {chName},
              subscriptions := st.subscriptions + [Subscription(chName, streamName, hashtag)],
              out := st.out + [Joined(st.nickname, chName)]), true)
  }

  /**
   * Registration: the welcome line, then `&user` and then `&public`; the session
   * survives only if neither name was joined before.
   */
  function Register(cfg: Config, acct: Account, st: State): (r: (State, bool))
    requires st.nick && st.user && !st.registered
    ensures r.0.registered && r.0.nick && r.0.user && r.0.nickname == st.nickname
    ensures r.1 <==> "&user" !in st.channels && "&public" !in st.channels
    ensures var welcome := Welcome(cfg.serverName, st.nickname, acct.acct);
      && ("&user" in st.channels ==>
            r.0.out == st.out + [welcome] && r.0.channels == st.channels && r.0.subscriptions == st.subscriptions)
      && ("&user" !in st.channels && "&public" in st.channels ==>
            && r.0.out == st.out + [welcome, Joined(st.nickname, "&user")] && r.0.channels == st.channels + {"&user"}
            && r.0.subscriptions == st.subscriptions + [Subscription("&user", "user", "")])
      && (r.1 ==>
            && r.0.out == st.out + [welcome, Joined(st.nickname, "&user"), Joined(st.nickname, "&public")]
            && r.0.channels == st.channels + {"&user", "&public"}
            && r.0.subscriptions == st.subscriptions + [Subscription("&user", "user", ""), Subscription("&public", "public", "")])
  {
    var st1 := st.(out := st.out + [Welcome(cfg.serverName, st.nickname, acct.acct)], registered := true);
    var (st2, ok) := Stream(st1, "&user", "user", "");
    if !ok then (st2, false) else Stream(st2, "&public", "public", "")
  }

  /** How a JOIN target is handled. */
  datatype Target = Feed(streamName: string, hashtag: string) | Ignored | Unknown

  const DefaultChannels := {"&user", "&local", "&public"}

  function Classify(target: string): (c: Target)
    requires target != []
    ensures c.Feed? <==> target[0] == '#' || target in DefaultChannels
    ensures c.Ignored? <==> target[0] == '&' && target !in DefaultChannels
    ensures c.Unknown? <==> target[0] != '&' && target[0] != '#'
    ensures c.Feed? && target[0] == '&' ==> c == Feed(target[1..], "")
    ensures target[0] == '#' ==> c == Feed("hashtag", target[1..])
  {
    if target[0] == '&' then
      if target == "&user" || target == "&local" || target == "&public" then Feed(target[1..], "") else Ignored
    else if target[0] == '#' then Feed("hashtag", target[1..])
    else Unknown
  }

  /**
   * One JOIN target: `&user`, `&local`, `&public` and `#tag` go to `stream`; any other
   * `&` name changes nothing and writes nothing; any other first character writes one 404.
   */
  function JoinOne(cfg: Config, st: State, target: string): (r: State)
    requires target != []
    ensures target in DefaultChannels ==> r == Stream(st, target, target[1..], "").0
    ensures target[0] == '#' ==> r == Stream(st, target, "hashtag", target[1..]).0
    ensures target[0] == '&' && target !in DefaultChannels ==> r == st
    ensures target[0] != '&' && target[0] != '#' ==>
              r == st.(out := st.out + [UnknownHashtag(cfg.serverName, st.nickname, target)])
    ensures r.nickname == st.nickname && st.subscriptions <= r.subscriptions && st.out <= r.out
    ensures forall i :: |st.subscriptions| <= i < |r.subscriptions| ==> r.subscriptions[i].channel == target
    ensures forall i :: |st.out| <= i < |r.out| ==> JoinReply(cfg, st.nickname, [target], r.out[i])
  {
    match Classify(target)
    case Feed(streamName, hashtag) => Stream(st, target, streamName, hashtag).0
    case Ignored => st
    case Unknown => st.(out := st.out + [UnknownHashtag(cfg.serverName, st.nickname, target)])
  }

  /** A JOIN line or a 404 line for one of the targets, as JOIN writes them. */
  predicate JoinReply(cfg: Config, nickname: string, targets: seq<string>, line: Reply)
  {
    || (line.Joined? && line.nick == nickname && line.channel in targets)
    || (line.UnknownHashtag? && line.server == cfg.serverName && line.nick == nickname && line.target in targets
        && line.target != [] && line.target[0] != '&' && line.target[0] != '#')
  }

  /**
   * JOIN's targets, one after the other, each on the state the previous one left; what it
   * adds is stated by `SessionProperties.JoinAllChannels` and `SessionProperties.JoinAllWrites`.
   */
  function JoinAll(cfg: Config, st: State, targets: seq<string>): (r: State)
    requires [] !in targets
    ensures r.nickname == st.nickname && r.nick == st.nick && r.user == st.user && r.registered == st.registered
    ensures st.channels <= r.channels
    ensures st.subscriptions <= r.subscriptions
    ensures st.out <= r.out
    decreases |targets|
  {
    if targets == [] then st
    else
      JoinAll(cfg, JoinOne(cfg, st, targets[0]), targets[1..])
  }

  /** The calls the dispatcher makes without checking the parameter count, and JOIN's empty targets. */
  predicate WellFormed(msg: Message)
  {
    && (msg.command == "NICK" ==> |msg.params| >= 1)
    && (msg.command == "MODE" ==> |msg.params| >= 2)
    && (msg.command == "JOIN" ==> |msg.params| >= 1 && [] !in Split(msg.params[0], ','))
  }

  predicate AllWellFormed(msgs: seq<Message>)
  {
    forall i :: 0 <= i < |msgs| ==> WellFormed(msgs[i])
  }

  const Commands := {"NICK", "USER", "MODE", "PING", "JOIN"}

  /** One inbound command. */
  function Dispatch(cfg: Config, st: State, msg: Message): (r: State)
    requires WellFormed(msg)
    ensures r.nick == (st.nick || msg.command == "NICK")
    ensures r.user == (st.user || msg.command == "USER")
    ensures r.registered == st.registered
    ensures r.nickname == if msg.command == "NICK" then msg.params[0] else st.nickname
    ensures st.channels <= r.channels && st.subscriptions <= r.subscriptions && st.out <= r.out
    ensures msg.command != "JOIN" ==> r.channels == st.channels && r.subscriptions == st.subscriptions
    ensures msg.command in {"NICK", "USER"} ==> r.out == st.out
    ensures msg.command == "MODE" ==> r.out == st.out + [ModeEcho(cfg.serverName, st.nickname, msg.params[1])]
    ensures msg.command == "PING" ==>
              r.out == st.out + [Pong(Message(msg.prefix.(host := cfg.serverName), "PONG", msg.params))]
    ensures msg.command == "JOIN" ==> r == JoinAll(cfg, st, Split(msg.params[0], ','))
    ensures msg.command !in Commands ==> r.out == st.out + [UnknownCommand(cfg.serverName, st.nickname, msg.command)]
  {
    if msg.command == "NICK" then st.(nick := true, nickname := msg.params[0])
    else if msg.command == "USER" then st.(user := true)
    else if msg.command == "MODE" then st.(out := st.out + [ModeEcho(cfg.serverName, st.nickname, msg.params[1])])
    else if msg.command == "PING" then st.(out := st.out + [Pong(msg.(prefix := msg.prefix.(host := cfg.serverName), command := "PONG"))])
    else if msg.command == "JOIN" then JoinAll(cfg, st, Split(msg.params[0], ','))
    else st.(out := st.out + [UnknownCommand(cfg.serverName, st.nickname, msg.command)])
  }

  /** The check at the top of every loop iteration. */
  function CheckRegistration(cfg: Config, acct: Account, st: State): (r: (State, bool))
    ensures !(st.nick && st.user && !st.registered) ==> r == (st, true)
    ensures st.nick && st.user && !st.registered ==> r == Register(cfg, acct, st)
    ensures st.nick && st.user ==> r.0.registered
    ensures r.1 <==> !(st.nick && st.user && !st.registered) || ("&user" !in st.channels && "&public" !in st.channels)
  {
    if st.nick && st.user && !st.registered then Register(cfg, acct, st) else (st, true)
  }

  /**
   * Every message the session loop reads from state `st` on is well-formed. The loop stops
   * reading once registration fails, so what follows that is never looked at.
   */
  predicate ReadsWellFormed(cfg: Config, acct: Account, st: State, msgs: seq<Message>)
    decreases |msgs|
  {
    var (st1, ok) := CheckRegistration(cfg, acct, st);
    ok && msgs != [] ==> WellFormed(msgs[0]) && ReadsWellFormed(cfg, acct, Dispatch(cfg, st1, msgs[0]), msgs[1..])
  }

  lemma {:induction false} AllWellFormedReads(cfg: Config, acct: Account, st: State, msgs: seq<Message>)
    requires AllWellFormed(msgs)
    ensures ReadsWellFormed(cfg, acct, st, msgs)
    decreases |msgs|
  {
    var (st1, ok) := CheckRegistration(cfg, acct, st);
    if ok && msgs != [] {
      assert AllWellFormed(msgs[1..]) by {
        assert forall i :: 0 <= i < |msgs[1..]| ==> msgs[1..][i] == msgs[i + 1];
      }
      AllWellFormedReads(cfg, acct, Dispatch(cfg, st1, msgs[0]), msgs[1..]);
    }
  }

  /** The session loop: check registration, read a message (the end of `msgs` is a read error), dispatch it. */
  function Run(cfg: Config, acct: Account, st: State, msgs: seq<Message>): (r: (State, Ending))
    requires ReadsWellFormed(cfg, acct, st, msgs)
    ensures st.registered ==> r.0.registered
    ensures st.out <= r.0.out && st.channels <= r.0.channels
    ensures r.1 == Disconnected ==> (r.0.nick && r.0.user ==> r.0.registered)
    decreases |msgs|
  {
    var (st1, ok) := CheckRegistration(cfg, acct, st);
    if !ok then (st1, DefaultStreamFailed)
    else if msgs == [] then (st1, Disconnected)
    else Run(cfg, acct, Dispatch(cfg, st1, msgs[0]), msgs[1..])
  }

  /** The two ways a turn of the session loop ends it: registration fails, or the read fails. */
  lemma RunStops(cfg: Config, acct: Account, st: State, msgs: seq<Message>)
    requires ReadsWellFormed(cfg, acct, st, msgs)
    ensures !CheckRegistration(cfg, acct, st).1 ==>
              Run(cfg, acct, st, msgs) == (CheckRegistration(cfg, acct, st).0, DefaultStreamFailed)
    ensures CheckRegistration(cfg, acct, st).1 && msgs == [] ==>
              Run(cfg, acct, st, msgs) == (CheckRegistration(cfg, acct, st).0, Disconnected)
  {
  }

  /** One turn of the session loop that neither ends it nor fails registration. */
  lemma RunStep(cfg: Config, acct: Account, st: State, msgs: seq<Message>)
    requires ReadsWellFormed(cfg, acct, st, msgs) && msgs != []
    requires CheckRegistration(cfg, acct, st).1
    ensures WellFormed(msgs[0])
    ensures ReadsWellFormed(cfg, acct, Dispatch(cfg, CheckRegistration(cfg, acct, st).0, msgs[0]), msgs[1..])
    ensures Run(cfg, acct, st, msgs) == Run(cfg, acct, Dispatch(cfg, CheckRegistration(cfg, acct, st).0, msgs[0]), msgs[1..])
  {
  }
}
