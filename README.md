# mastodon-ircsuite gateway, modelled in Dafny

The gateway is a small IRC server that puts one Mastodon account behind an IRC client.
Each accepted TCP connection goes through three stages:

1. **Authentication.** It skips `CAP` negotiation. The first other message must be `PASS`
   with the configured password. Then the Mastodon app is restored and the current
   account fetched. A read error before any other message closes the connection without
   a word; every other failure writes one `ERROR` line and closes it.
2. **The session** (`Server.HandleConn`). Every message is dispatched from the start:
   `NICK`, `USER`, `MODE`, `PING` and `JOIN` are handled, and any other command is answered
   with `421`. Before each read, once both `NICK` and `USER` have been seen, the session
   registers a single time: it writes the `001` welcome and opens the default channels
   `&user` and `&public`. A `JOIN` of one of those before registration makes registration
   fail and ends the session.
3. **The channel registry** (`Server.stream`). It refuses a channel name that was already
   joined. Otherwise it records the name, subscribes to the matching Mastodon stream and
   confirms the `JOIN` to the client. A *pump* then turns every `update` event on that
   stream whose content converts to plain text into `PRIVMSG` lines. Those lines are a
   `CW:` line when the post has a content warning, then the post's plain-text lines up to
   the first blank one.

Modules:

- `Irc` holds the configuration, the inbound message, and every outbound line as a `Reply`
  value. `Irc.Render` gives the exact text the gateway's format strings produce.
- `GoStrings` holds Go's `strings.Split` with a one-character separator, `strings.Join`
  and `strings.TrimRight(s, " ")`.
- `GoQuote` holds the `%q` verb (`strconv.Quote`) used by the `421` reply.
- `Handshake` is the authentication gate, both as a function and as the source's re-read
  loop.
- `SessionModel` is the session as a state machine over values: registration, registry,
  dispatcher and session loop. `SessionProperties` holds the session invariant and what
  follows from it.
- `Session.Server` is the session object. Its methods update its fields in place, and each
  is proved equal to the matching `SessionModel` function.
- `Translator` is the event translator and the pump's loop.
- `Gateway` is one connection from accept to close, with a worked example conversation.

The network is replaced by values:

- The inbound messages are a finite sequence. Reading past its end is the read error that
  ends the handshake or the session.
- What the Mastodon client answers is a `Backend` value: whether `RestoreApp` succeeded,
  and the account `GetCurrentAccount` returned, if any.
- The lines written are a sequence of `Reply`.
- Each stream subscription is recorded as a `Subscription` value.

A Go panic the source does not guard against becomes a precondition:

- `PASS` without parameters;
- `NICK` without parameters, or `MODE` with fewer than two;
- `JOIN` without parameters, or with an empty comma-separated target.

Only messages that are actually read must meet these: nothing after a rejected `PASS`, and
nothing after a failed registration (`SessionModel.ReadsWellFormed`).

The `ERROR` lines carry the `:<server-name>` prefix, because the format strings at
main.go:65, 72, 80 and 88 write it.

## Model

| member | source | states |
|---|---|---|
| GoStrings.Split | main.go:185 | `strings.Split` with a one-character separator: at least one piece, and no piece contains the separator |
| GoStrings.JoinSplit | main.go:185 | joining the pieces of a split with the separator gives back the original string |
| GoStrings.SplitJoin | main.go:254 | splitting a join of separator-free pieces gives back exactly those pieces |
| GoStrings.TrimRight | main.go:255 | the result is a prefix of the input that does not end in a space, and everything cut off is spaces |
| Irc.DefaultConfig | main.go:18-28 | the defaults `to.ot`, `127.0.0.1:42069` and `hunter2` for server name, address and password, with the required backend settings passed through |
| Irc.Render | main.go:65-231 | the `Writef` text of every line but `PONG`: it starts with the `:` of its prefix |
| Irc.RenderOneLine | main.go:65-231 | a rendered line holds no `'\n'` whenever the fields it shows verbatim hold none; the 421 command is quoted, so it may hold anything (a `'\r'` in a verbatim field is written through) |
| GoQuote.Quote | main.go:205 | the `%q` rendering of the command starts and ends with `"` and contains no ASCII control character, so the quoted command adds neither `'\n'` nor `'\r'` to the 421 line |
| GoQuote.QuoteRoundTrip | main.go:205 | unquoting the `%q` rendering gives back the command exactly |
| Translator.TakeNonEmpty | main.go:254-258 | the lines up to the first empty one: a prefix of the input, all non-empty, followed by an empty line or by the end |
| Translator.BodyLines | main.go:254-258 | line `i` of the body is piece `i` of the newline split with trailing spaces trimmed; no body line is empty or has a newline; the body stops only at the end of the text or at a blank piece |
| Translator.Translate | main.go:243-260 | events other than `update`, and updates whose HTML conversion failed, write nothing; otherwise one `PRIVMSG` from the stream to the channel in the author's name per line, with the `CW:` line first when there is a spoiler text, then the body lines in order |
| Translator.BlankLineCutsOff | main.go:254-258 | for a text of non-blank lines, then a blank line, then anything, the body is exactly the trimmed lines before the blank one |
| Translator.HiddenLineExample | main.go:254-258 | the body of `line one\nline two\n\n(hidden line)` is `line one`, `line two` |
| Translator.ContentWarningFirst | main.go:251-253 | a post with a spoiler text writes the `CW: <spoiler>` line before every body line, and one line more than its body |
| Translator.BlankFirstLineWritesNothing | main.go:251-258 | a post without spoiler text whose first line is empty or only spaces writes nothing |
| Translator.TranslatedLinesStayLines | main.go:252-259 | every `PRIVMSG` the translator produces renders without a `'\n'`, given names and spoiler text without one; a `'\r'` in the post's text is not cut and passes through |
| Translator.PumpLines | main.go:233-264 | everything a pump writes is a `PRIVMSG` from its stream to its own channel |
| Translator.Pump | main.go:234-262 | the pump's loop writes exactly the translations of the events it received, in order |
| Translator.PumpInOrder | main.go:234-262 | the lines for earlier events precede those for later events, and events are translated independently |
| Handshake.FirstNonCap | main.go:53-61 | the index of the first non-`CAP` message: every message before it is `CAP`, and the one at it is not |
| Handshake.Authentication | main.go:53-91 | the connection is dropped silently iff every message is `CAP`. It is accepted iff the first non-`CAP` message is `PASS` with the configured password, the app is restored and the account is fetched; the session then gets the messages after `PASS`. Every other case writes `ERROR :authentication failed`, except a failed account fetch, which writes `ERROR :could not get current Mastodon account` |
| Handshake.Authenticate | main.go:53-91 | the gate's loop, which re-reads while nothing was read or a `CAP` was read, gives the outcome `Authentication` states |
| SessionModel.Stream | main.go:211-231 | a channel name already in the registry is refused and nothing changes; otherwise the name is added, one subscription (channel, feed, hashtag) is recorded and one `JOIN` line is written with the current nickname; nothing else changes |
| SessionModel.Register | main.go:145-159 | the welcome line, then `&user`, then `&public`; registration is set either way; the session survives iff neither default channel was joined before; the lines, the registry and the subscriptions of each case are stated: none added after a `&user` already joined, only the `&user` one when only `&public` was |
| SessionModel.Classify | main.go:186-202 | a target starting with `#` is the hashtag feed for the rest of the name; `&user`, `&local` and `&public` are the feed named after the `&`; any other `&` target is silently ignored; any other first character is an unknown hashtag |
| SessionModel.JoinOne | main.go:186-202 | one target: `&user`, `&local`, `&public` go to `stream` on the feed named after the `&`; `#tag` goes to `stream` on the hashtag feed; any other `&` name changes nothing; any other first character appends exactly one `404 ... :Unknown hashtag (<target>)` line; new subscriptions are for the target and new lines are its JOIN or 404 line |
| SessionModel.JoinAll | main.go:183-203 | JOIN keeps the nickname, the two flags and registration; the registry only grows, and subscriptions and lines are only appended to |
| SessionProperties.JoinAllChannels | main.go:183-203 | JOIN grows the registry by exactly its recognised targets (`#tag`, `&user`, `&local`, `&public`) |
| SessionProperties.JoinAllWrites | main.go:183-203 | every subscription JOIN adds is for one of its targets, and every line it writes is a `JOIN` line for a target or a 404 line for a target that is neither `#` nor `&`, with the current nickname |
| SessionModel.CheckRegistration | main.go:145-160 | nothing happens unless both `NICK` and `USER` were seen and the session is not registered; then it is exactly the registration step `Register` (welcome, `&user`, `&public`), taken before the next message is dispatched; after it a session with both is registered; it lets the loop go on iff it did nothing or neither default channel was joined before |
| SessionModel.Dispatch | main.go:170-207 | `NICK` sets the flag and the nickname; `USER` sets its flag; `MODE` echoes the second parameter; `PING` is answered with `PONG` with the server name as host; `JOIN` is `JoinAll` over its first parameter split on `,`, and only it touches the registry; every other command gets `421` with the current nickname; registration is never changed here |
| SessionModel.Run | main.go:144-208 | the session loop never unregisters and only appends to the lines and the registry; when it ends because the client left, a client that sent both `NICK` and `USER` has been registered |
| SessionProperties.RunInv | main.go:144-208 | the session loop keeps the invariant: registered implies `NICK` and `USER`; one welcome iff registered; one `JOIN` line and one subscription per registered channel and none for any other |
| SessionProperties.SessionWritesOnce | main.go:144-231 | over any whole session: at most one welcome, at most one `JOIN` line per channel, and exactly as many stream subscriptions per channel as `JOIN` lines |
| SessionProperties.RegisteredForever | main.go:145-147 | once registered, the session stays registered and no second welcome is ever written |
| SessionProperties.EarlyDefaultJoinIsFatal | main.go:149-159 | a client that joins `&user` or `&public` before registering ends the session in the registration step, after the welcome (and the `&user` JOIN line when only `&public` was joined), with nothing further read, whatever it sends next |
| SessionProperties.JoinAllAppend | main.go:185 | a JOIN of a target list acts as its parts joined one after the other |
| SessionProperties.JoinSingle | main.go:186-202 | a JOIN of one target: a recognised target is the `stream` call, an ignored `&` name leaves the state unchanged, an unknown target adds exactly one 404 line |
| SessionProperties.IgnoredTargetsChangeNothing | main.go:187-193 | a JOIN whose targets are all unrecognised `&` names changes nothing and writes nothing |
| SessionProperties.JoinTwice | main.go:186-202 | joining a recognised target twice in one list is the same as joining it once; an unknown target is answered twice |
| Session.Server.constructor | main.go:95-105 | the session object starts with an empty registry, no lines, and neither flag set |
| Session.Server.Stream | main.go:211-231 | updates the object's registry, subscriptions and lines exactly as `SessionModel.Stream` says, and returns whether the channel was new |
| Session.Server.Register | main.go:145-159 | the registration step in place, equal to `SessionModel.Register` |
| Session.Server.CheckRegistration | main.go:145-160 | the check before each read, in place, equal to `SessionModel.CheckRegistration` |
| Session.Server.Join | main.go:183-203 | the JOIN loop over the split targets, in place, equal to `SessionModel.JoinAll` |
| Session.Server.Dispatch | main.go:170-207 | the dispatcher's switch, in place, equal to `SessionModel.Dispatch` |
| Session.Server.HandleConn | main.go:138-209 | the session loop in place, from the nickname `*`: its final state and how it ends are those of `SessionModel.Run` |
| Gateway.Connection | main.go:53-107 | a connection with a wrong or missing password, or a failed app restore, makes no subscription and writes only `ERROR :authentication failed` (or nothing if it only sent `CAP`); a failed account fetch writes only the account error; an accepted connection leaves exactly the lines and subscriptions of the session loop `SessionModel.Run` from the initial state on the messages after `PASS` |
| Gateway.Serve | main.go:43-107 | one turn of the accept loop (gate, then a new session object running the loop) leaves exactly what `Connection` states |
| Gateway.ConnectionWritesOnce | main.go:53-231 | any connection writes at most one welcome and at most one `JOIN` line per channel, with one subscription per `JOIN` line |
| Gateway.WrongPasswordExample | main.go:70-75 | `PASS wrong` followed by a `NICK` without its parameter is refused with one `ERROR :authentication failed` line and no subscription; the malformed message is never read |
| Gateway.ExampleSession | main.go:53-231 | under the defaults, `CAP LS`, `PASS hunter2`, `NICK alice`, `USER`, `JOIN #golang` gives the welcome and the `JOIN` lines for `&user`, `&public` and `#golang`, with subscriptions to the user, public and `golang` hashtag feeds |

## Left out

- Sockets, the accept loop's `Accept` error and closing connections are not modelled. A connection is the sequence of messages it reads; a read error is the end of that sequence.
- IRC wire parsing and serialisation are not modelled: messages arrive parsed, and the writer's line terminator is not shown. The `PONG` reply is kept as the message handed to `WriteMessage` and is not rendered.
- Mastodon client calls (`RestoreApp`, `GetCurrentAccount`, `StreamListener`) are inputs (`Backend`) or recorded calls (`Subscription`). A `StreamListener` error is only logged in the source, so its result does not matter.
- `html2text.Textify` is not modelled: its output, or its failure, is part of the `Status` value.
- Concurrency is not modelled: the pump goroutines, context cancellation, the `stop`/`done` channels, the unused `sync.Mutex`, and the interleaving of pump lines with session lines. `Translator.Pump` is one pump's output on its own.
- Logging (`ln.Log`, `ln.Error`, `Server.F`) and reading the configuration from the environment are left out; `Irc.DefaultConfig` gives the defaults.
- Strings are sequences of characters rather than Go byte strings. `GoQuote.Quote` escapes ASCII exactly as `strconv.Quote` does, but keeps every non-ASCII character as it is; `strconv.Quote` escapes non-printable runes and invalid UTF-8.
- Session.Server.HandleConn: requires the messages it reads to be well-formed (`SessionModel.ReadsWellFormed`), as do `SessionModel.Run`, `SessionModel.Dispatch` and `Session.Server.Dispatch` (for the message they handle), `SessionProperties.RunInv`, `SessionProperties.SessionWritesOnce` and `SessionProperties.RegisteredForever`; the source panics on a malformed message, and the panic is not modelled.
- Gateway.Connection: requires `Gateway.Admissible` (a `PASS` with a parameter, and well-formed messages among those the session reads), as do `Gateway.Serve` and `Gateway.ConnectionWritesOnce`; the panics are not modelled.
- SessionModel.JoinAll: requires no empty target, as do `SessionModel.Classify`, `SessionModel.JoinOne`, `Session.Server.Join` and the JOIN lemmas; the source panics on one.
- Handshake.Authentication: requires `PASS`, if it is the first non-`CAP` message, to have a parameter; the source panics otherwise.
