/**
  * Control messages from the command bus: `[user, network-or-"global",
  * command, args...]` (zmq-irc/client.py:162-174, client.py:106-118), and the
  * routing decisions a controller takes on them.
  */
module Control {
  import opened Wrappers

  /** The network field that addresses a user's whole session map. */
  const Global: string := "global"

  datatype Command = Command(user: string, server: string, kind: string, args: seq<string>)

  /** The frames of a command as it travels on the bus. */
  function Unparse(c: Command): seq<string>
  {
    [c.user, c.server, c.kind] + c.args
  }

  /**
    * `user, server = message[:2]; command = message[2]; command_args =
    * message[3:]`: fails on fewer than three frames, and otherwise loses
    * nothing.
    */
  function Parse(message: seq<string>): (r: Option<Command>)
    ensures r.Some? <==> |message| >= 3
    ensures r.Some? ==> Unparse(r.value) == message
  {
    if |message| < 3 then None
    else
      assert message == [message[0], message[1], message[2]] + message[3..];
      Some(Command(message[0], message[1], message[2], message[3..]))
  }

  /** Every command survives a trip over the bus. */
  lemma ParseUnparse(c: Command)
    ensures Parse(Unparse(c)) == Some(c)
  {
    assert Unparse(c)[3..] == c.args;
  }

  /** Why a control message came to nothing (the exception its handler raises). */
  datatype Failure =
    | Malformed                                      // too few frames or arguments
    | UnknownNetwork(user: string, server: string)   // KeyError on the inner dict
    | NotASession(operation: string)                 // attribute looked up on the inner dict itself
    | NotSignedOn                                    // the session has no publisher yet
    | UndefinedName(name: string)                    // a name the handler never assigns

  /** What routing one control message comes to. */
  datatype Decision<S> =
    | Connect(user: string, hostname: string, port: string, ssl: bool, nick: string)
    | Join(session: S, channel: string, key: Option<string>)
    | Msg(session: S, target: string, text: string, length: int)
    | Action(session: S, target: string, text: string)
    | Names(session: S, channel: string)
    | Ignore
    | Fail(failure: Failure)
  {
    predicate HasSession() { Join? || Msg? || Action? || Names? }
  }

  /** Python truthiness of a string, as `if ssl:` tests a value read from the bus. */
  function Truthy(s: string): bool { s != "" }

  /** Message length budget for `target`: `500 - len(target)`. */
  function Budget(target: string): int { 500 - |target| }
}
