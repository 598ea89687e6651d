/**
 * The gateway's configuration, the backend account, inbound IRC messages as the
 * IRC library hands them over, and every line the gateway writes to the client.
 */
module Irc {
  import GoQuote

  /** The settings read at start-up (`Config`); never changed afterwards. */
  datatype Config = Config(
    serverName: string,
    serverAddr: string,
    userPassword: string,
    mastodonInstance: string,
    mastodonToken: string,
    mastodonClientID: string,
    mastodonClientSecret: string)

  /** The settings with the defaults of the optional variables and the given backend credentials. */
  function DefaultConfig(instance: string, token: string, clientID: string, clientSecret: string): (cfg: Config)
    ensures cfg.serverName == "to.ot" && cfg.serverAddr == "127.0.0.1:42069" && cfg.userPassword == "hunter2"
    ensures cfg.mastodonInstance == instance && cfg.mastodonToken == token
    ensures cfg.mastodonClientID == clientID && cfg.mastodonClientSecret == clientSecret
  {
    Config("to.ot", "127.0.0.1:42069", "hunter2", instance, token, clientID, clientSecret)
  }

  /** The backend account the session acts for; only its `Acct` handle is shown to the client. */
  datatype Account = Account(acct: string)

  datatype Prefix = Prefix(name: string, user: string, host: string)

  /** An already parsed inbound message. */
  datatype Message = Message(prefix: Prefix, command: string, params: seq<string>)

  /** One outbound line. All but `Pong` are written with `Writef` and rendered by `Render`. */
  datatype Reply =
    | ServerError(server: string, reason: string)
    | Welcome(server: string, nick: string, acct: string)
    | ModeEcho(server: string, nick: string, modes: string)
    | Pong(msg: Message)
    | Joined(nick: string, channel: string)
    | UnknownHashtag(server: string, nick: string, target: string)
    | UnknownCommand(server: string, nick: string, command: string)
    | Privmsg(source: string, channel: string, author: string, text: string)

  const AuthFailed := "authentication failed"
  const NoAccount := "could not get current Mastodon account"

  /**
   * The fields a line shows as they are hold no `'\n'`. The command of a 421 line is
   * exempt: it is shown quoted.
   */
  predicate LineBreakFree(r: Reply)
  {
    match r
    case ServerError(server, reason) => '\n' !in server && '\n' !in reason
    case Welcome(server, nick, acct) => '\n' !in server && '\n' !in nick && '\n' !in acct
    case ModeEcho(server, nick, modes) => '\n' !in server && '\n' !in nick && '\n' !in modes
    case Pong(_) => true
    case Joined(nick, channel) => '\n' !in nick && '\n' !in channel
    case UnknownHashtag(server, nick, target) => '\n' !in server && '\n' !in nick && '\n' !in target
    case UnknownCommand(server, nick, _) => '\n' !in server && '\n' !in nick
    case Privmsg(source, channel, author, text) => '\n' !in source && '\n' !in channel && '\n' !in author && '\n' !in text
  }

  /**
   * The text of a line written with `Writef` (without the line terminator the writer adds);
   * it starts with the `:` of its prefix.
   */
  function Render(r: Reply): (line: string)
    requires !r.Pong?
    ensures |line| >= 1 && line[0] == ':'
  {
    match r
    case ServerError(server, reason) => ":" + server + " ERROR :" + reason
    case Welcome(server, nick, acct) => ":" + server + " 001 " + nick + " :Welcome to an IRC relay, " + acct + "!"
    case ModeEcho(server, nick, modes) => ":" + server + " MODE " + nick + " " + modes
    case Joined(nick, channel) => ":" + nick + " JOIN " + channel
    case UnknownHashtag(server, nick, target) => ":" + server + " 404 " + nick + " :Unknown hashtag (" + target + ")"
    case UnknownCommand(server, nick, command) => ":" + server + " 421 " + nick + " :Unknown command " + GoQuote.Quote(command)
    case Privmsg(source, channel, author, text) => ":" + source + " PRIVMSG " + channel + " :" + author + ": " + text
  }

  /**
   * None of the fixed texts `Render` places between the fields holds a `'\n'`; stated
   * once here so that `RenderOneLine` need not take the literals apart itself.
   */
  lemma FixedTextsHoldNoBreak()
    ensures '\n' !in ":" && '\n' !in " ERROR :" && '\n' !in " 001 " && '\n' !in "!"
    ensures '\n' !in " :Welcome to an IRC relay, " && '\n' !in " MODE " && '\n' !in " "
    ensures '\n' !in " JOIN " && '\n' !in " 404 " && '\n' !in " :Unknown hashtag (" && '\n' !in ")"
    ensures '\n' !in " 421 " && '\n' !in " :Unknown command " && '\n' !in " PRIVMSG "
    ensures '\n' !in " :" && '\n' !in ": "
  {
    var greeting := " :Welcome to an IRC relay, ";
    assert forall i :: 0 <= i < |greeting| ==> greeting[i] != '\n';
  }

  /**
   * A rendered line holds no `'\n'` whenever the fields it shows as they are hold none. A
   * carriage return in such a field is written through as it is.
   */
  lemma RenderOneLine(r: Reply)
    requires !r.Pong? && LineBreakFree(r)
    ensures '\n' !in Render(r)
  {
    FixedTextsHoldNoBreak();
    if r.UnknownCommand? {
      var quoted := GoQuote.Quote(r.command);
      assert '\n' !in quoted by {
        assert forall i :: 0 <= i < |quoted| ==> quoted[i] != '\n';
      }
    }
  }
}
