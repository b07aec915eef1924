/**
  * The controller and the top-level object of the zmq-irc bridge
  * (zmq-irc/client.py:151-240): routing of control messages, the session
  * registry and the connection requests.
  */
module ZmqIrcController {
  import opened Wrappers
  import opened Utf8
  import opened Values
  import opened Irc
  import opened Control
  import opened Registry
  import opened Dialing
  import opened Bus
  import opened NamesTable
  import opened ZmqIrcPublisher
  import opened ZmqIrcSession

  /**
    * `messageReceived` as a decision. The subject is the session at
    * (user, server) when server is not "global" and the command is not
    * `connect`, and the user's whole map otherwise; a missing network is a
    * KeyError before any command is looked at. Attributes of a session looked
    * up on the whole map fail, so nothing is broadcast. Arguments are read in
    * the order the source reads them.
    */
  function Route<S>(clients: Clients<S>, message: seq<string>): (d: Decision<S>)
    ensures d.HasSession() ==>
              |message| >= 4 && message[1] != Global && Has(clients, message[0], message[1])
              && d.session == clients[message[0]][message[1]]
    ensures d.Connect? ==>
              |message| == 7 && message[2] == "connect"
              && d == Connect(message[0], message[3], message[5], Truthy(message[6]), message[4])
    ensures d.Join? ==>
              message[2] == "join" && d.channel == message[3]
              && d.key == (if |message| >= 5 then Some(message[4]) else None)
    ensures d.Msg? ==>
              |message| >= 5 && message[2] == "msg"
              && d.target == message[3] && d.text == message[4] && d.length == 500 - |message[3]|
    ensures d.Action? ==>
              |message| >= 5 && message[2] == "action" && d.target == message[3] && d.text == message[4]
    ensures d.Names? ==> message[2] == "names" && d.channel == message[3]
    ensures d.Ignore? ==> |message| >= 3 && message[2] !in {"connect", "join", "msg", "action", "names"}
  {
    match Parse(message)
    case None => Fail(Malformed)
    case Some(cmd) =>
      var subject := if cmd.user in clients then clients[cmd.user] else map[];
      var single := cmd.server != Global && cmd.kind != "connect";
      var args := cmd.args;
      if single && cmd.server !in subject then Fail(UnknownNetwork(cmd.user, cmd.server))
      else if cmd.kind == "connect" then
        if |args| != 4 then Fail(Malformed)
        else Connect(cmd.user, args[0], args[2], Truthy(args[3]), args[1])
      else if cmd.kind == "join" then
        if !single then Fail(NotASession("join"))
        else if |args| == 0 then Fail(Malformed)
        else Join(subject[cmd.server], args[0], if |args| >= 2 then Some(args[1]) else None)
      else if cmd.kind == "msg" then
        if |args| < 2 then Fail(Malformed)
        else if !single then Fail(NotASession("msg"))
        else Msg(subject[cmd.server], args[0], args[1], Budget(args[0]))
      else if cmd.kind == "action" then
        if |args| < 2 then Fail(Malformed)
        else if !single then Fail(NotASession("ctcpMakeQuery"))
        else Action(subject[cmd.server], args[0], args[1])
      else if cmd.kind == "names" then
        if |args| < 1 then Fail(Malformed)
        else if !single then Fail(NotASession("names"))
        else Names(subject[cmd.server], args[0])
      else Ignore
  }

  /** A message naming a network the user has no session on fails, unless it is `connect`. */
  lemma RouteUnknownNetwork<S>(clients: Clients<S>, message: seq<string>)
    requires |message| >= 3 && message[1] != Global && message[2] != "connect"
    ensures (Route(clients, message).Fail? && Route(clients, message).failure.UnknownNetwork?)
            <==> !Has(clients, message[0], message[1])
  {
  }

  /** `connect` with its four arguments dials, whatever the network field and the registry say. */
  lemma RouteConnect<S>(clients: Clients<S>, user: string, server: string,
                        hostname: string, nick: string, port: string, ssl: string)
    ensures Route(clients, [user, server, "connect", hostname, nick, port, ssl])
         == Connect(user, hostname, port, Truthy(ssl), nick)
  {
  }

  /** A message addressed to "global" reaches no session, whatever its command. */
  lemma RouteGlobalReachesNoSession<S>(clients: Clients<S>, message: seq<string>)
    requires |message| >= 2 && message[1] == Global
    ensures !Route(clients, message).HasSession()
  {
  }

  /** A session command to "global" with its arguments fails on the user's map: nothing is broadcast. */
  lemma RouteGlobalSessionCommandFails<S>(clients: Clients<S>, message: seq<string>)
    requires |message| >= 5 && message[1] == Global && message[2] in {"join", "msg", "action", "names"}
    ensures Route(clients, message).Fail? && Route(clients, message).failure.NotASession?
  {
  }

  /**
    * The converse of Route's contract: a session command with its arguments,
    * addressed to a network the user has, reaches that session with the
    * arguments in place.
    */
  lemma RouteReachesSession<S>(clients: Clients<S>, message: seq<string>)
    requires |message| >= 4 && message[1] != Global && Has(clients, message[0], message[1])
    ensures var s, kind, d := clients[message[0]][message[1]], message[2], Route(clients, message);
            && (kind == "join" ==> d == Join(s, message[3], if |message| >= 5 then Some(message[4]) else None))
            && (kind == "msg" && |message| >= 5 ==> d == Msg(s, message[3], message[4], 500 - |message[3]|))
            && (kind == "action" && |message| >= 5 ==> d == Action(s, message[3], message[4]))
            && (kind == "names" ==> d == Names(s, message[3]))
  {
  }

  /**
    * Exactly the commands the controller does not know are ignored, and only
    * when their network lookup succeeds.
    */
  lemma RouteIgnores<S>(clients: Clients<S>, message: seq<string>)
    ensures Route(clients, message).Ignore?
            <==> |message| >= 3 && message[2] !in {"connect", "join", "msg", "action", "names"}
                 && (message[1] == Global || Has(clients, message[0], message[1]))
  {
  }

  class IRC {
    /** The module-level `event_publisher` socket every session publishes on. */
    const bus: Outbox
    var clients: Clients<Client>
    var dials: seq<ConnectRequest>

    function Sessions(): set<Client>
      reads this
    {
      set u, n | u in clients && n in clients[u] :: clients[u][n]
    }

    /** Every registered session is consistent and publishes on the one shared bus. */
    ghost predicate Valid()
      reads this, Sessions()
    {
      forall c :: c in Sessions() ==> c.Valid() && c.bus == bus
    }

    constructor (bus: Outbox)
      ensures Valid() && this.bus == bus && clients == map[] && dials == []
    {
      this.bus := bus;
      clients := map[];
      dials := [];
    }

    /** `start`: connects the one built-in configuration row. */
    method Start()
      modifies this`dials
      ensures dials == old(dials) + [Dial("default@default", "irc.freenode.org", PortNumber(6697), true, "zmq_irc_bridge")]
    {
      ServerInit([ServerRow("default@default", "irc.freenode.org", PortNumber(6697), true, "zmq_irc_bridge")]);
    }

    /** `server_init`: one connection attempt per configuration row, in order. */
    method ServerInit(config: seq<ServerRow>)
      modifies this`dials
      ensures dials == old(dials) + Dials(config)
    {
      var i := 0;
      while i < |config|
        invariant 0 <= i <= |config|
        invariant dials == old(dials) + Dials(config[..i])
      {
        var row := config[i];
        ServerConnect(row.email, row.hostname, row.port, row.ssl, row.nick);
        assert Dials(config[..i + 1]) == Dials(config[..i]) + [Dial(row.email, row.hostname, row.port, row.ssl, row.nick)];
        i := i + 1;
      }
      assert config[..i] == config;
    }

    /** `server_connect`: one connection attempt; registration follows when it succeeds. */
    method ServerConnect(email: string, hostname: string, port: Port, ssl: bool, nick: string)
      modifies this`dials
      ensures dials == old(dials) + [Dial(email, hostname, port, ssl, nick)]
    {
      dials := dials + [Dial(email, hostname, port, ssl, nick)];
    }

    /** `register_client`: the session now sits at (email, its network), replacing any earlier one. */
    method RegisterClient(client: Client, email: string)
      requires Valid() && client.Valid() && client.bus == bus
      modifies this`clients
      ensures Valid()
      ensures clients == Put(old(clients), email, client.network, client)
    {
      clients := Put(clients, email, client.network, client);
    }

    /**
      * `messageReceived`: routes the message, touches the user's entry of the
      * defaultdict, and carries out the decision. The touch changes only the
      * registry and the command only its session and the bus, so the body
      * applies the touch last and reaches the state the source reaches.
      */
    method MessageReceived(message: seq<string>, now: seq<byte>) returns (d: Decision<Client>, failure: Option<Failure>)
      requires Valid()
      modifies this`clients, this`dials, Touched(Route(clients, message))
      ensures Valid()
      ensures d == Route(old(clients), message)
      ensures clients == if |message| >= 3 then Touch(old(clients), message[0]) else old(clients)
      ensures dials == old(dials) + (if d.Connect? then [Dial(d.user, d.hostname, PortText(d.port), d.ssl, d.nick)] else [])
      ensures d.Fail? ==> failure == Some(d.failure)
      ensures d.Connect? || d.Ignore? ==> failure == None
      ensures d.HasSession() ==> Carried(d, old(Snap(d.session)), Snap(d.session), now, failure)
    {
      d := Route(clients, message);
      failure := Dispatch(d, now);
      if |message| >= 3 {
        TouchUser(message[0]);
      }
    }

    /** Carries out a routed decision: dials, acts on its session, or reports its failure. */
    method Dispatch(d: Decision<Client>, now: seq<byte>) returns (failure: Option<Failure>)
      requires Valid() && (d.HasSession() ==> d.session in Sessions())
      modifies this`dials, Touched(d)
      ensures Valid()
      ensures dials == old(dials) + (if d.Connect? then [Dial(d.user, d.hostname, PortText(d.port), d.ssl, d.nick)] else [])
      ensures d.Fail? ==> failure == Some(d.failure)
      ensures d.Connect? || d.Ignore? ==> failure == None
      ensures d.HasSession() ==> Carried(d, old(Snap(d.session)), Snap(d.session), now, failure)
    {
      failure := None;
      if d.Connect? {
        ServerConnect(d.user, d.hostname, PortText(d.port), d.ssl, d.nick);
      } else if d.HasSession() {
        failure := Perform(d, now);
      } else if d.Fail? {
        failure := Some(d.failure);
      }
    }

    /** `self.irc.clients[user]` on the defaultdict. */
    method TouchUser(user: string)
      requires Valid()
      modifies this`clients
      ensures Valid()
      ensures clients == Touch(old(clients), user)
      ensures Sessions() == old(Sessions())
    {
      clients := Touch(clients, user);
      assert Sessions() <= old(Sessions());
    }

    /** Carries out a decision on one registered session. */
    method Perform(d: Decision<Client>, now: seq<byte>) returns (failure: Option<Failure>)
      requires Valid() && d.HasSession() && d.session in Sessions()
      modifies Touched(d)
      ensures Valid()
      ensures Carried(d, old(Snap(d.session)), Snap(d.session), now, failure)
    {
      failure := Apply(d, now);
    }
  }

  /** The objects carrying out a decision may change: its session, the session's publisher and the socket. */
  function Touched(d: Decision<Client>): set<object>
    reads if d.HasSession() then {d.session} else {}
  {
    if d.HasSession() then
      {d.session, d.session.bus} + (if d.session.publish != null then {d.session.publish} else {})
    else {}
  }

  /** The parts of a session a command can change. */
  datatype Snapshot = Snapshot(
    channels: seq<string>,
    wire: seq<Request>,
    namesCallback: Table,
    nextWaiter: nat,
    gotNames: map<nat, string>,
    fired: seq<Resolution>,
    publish: RemoteEventPublisher?,
    currentId: nat,
    sent: seq<seq<Value>>)

  ghost function Snap(s: Client): Snapshot
    reads s, s.bus, s.publish
  {
    Snapshot(s.channels, s.wire, s.namesCallback, s.nextWaiter, s.gotNames, s.fired, s.publish,
             if s.publish != null then s.publish.currentId else 0, s.bus.sent)
  }

  /**
    * What carrying out a session decision did to its session, from `before`
    * to `after` (zmq-irc/client.py:184-201): one library request or NAMES
    * line per command, and for `msg` and `action` a record (see Said);
    * nothing else changes.
    */
  predicate Carried(d: Decision<Client>, before: Snapshot, after: Snapshot, now: seq<byte>, failure: Option<Failure>)
    requires d.HasSession()
  {
    match d
    case Join(_, channel, key) =>
      && failure == None
      && after == before.(wire := before.wire + [JoinChannel(channel, key)])
    case Names(_, channel) =>
      && failure == None
      && after == before.(namesCallback := Register(before.namesCallback, channel, before.nextWaiter),
                          nextWaiter := before.nextWaiter + 1,
                          gotNames := before.gotNames[before.nextWaiter := channel],
                          wire := before.wire + [RawLine("NAMES " + Lower(channel))])
    case Msg(s, target, text, length) =>
      Said(s, "privmsg", now, target, text, before.(wire := before.wire + [PrivMsg(target, text, length)]), after, failure)
    case Action(s, target, text) =>
      Said(s, "action", now, target, text, before.(wire := before.wire + [CtcpQuery(target, "ACTION", text)]), after, failure)
  }

  /**
    * The record `msg` and `action` publish: the bridge's own nickname, the
    * target and the text, numbered by the session's publisher. The library
    * call comes before the publisher is looked up, so before sign-on the
    * request still goes out, no record does and the command fails.
    */
  predicate Said(s: Client, kind: string, now: seq<byte>, target: string, text: string,
                 before: Snapshot, after: Snapshot, failure: Option<Failure>)
  {
    if before.publish == null then
      failure == Some(NotSignedOn) && after == before
    else
      && failure == None
      && after == before.(currentId := before.currentId + 1,
                          sent := before.sent
                            + Emitted(s.Source(), before.currentId, [Call(Literal(kind), now, Texts([s.nickname, target, text]))]))
  }

  /** Carries out a decision that names a session. */
  method Apply(d: Decision<Client>, now: seq<byte>) returns (failure: Option<Failure>)
    requires d.HasSession() && d.session.Valid()
    modifies Touched(d)
    ensures d.session.Valid()
    ensures Carried(d, old(Snap(d.session)), Snap(d.session), now, failure)
  {
    failure := None;
    match d
    case Join(s, channel, key) =>
      s.Join(channel, key);
    case Msg(s, target, text, length) =>
      failure := Speak(s, target, text, length, now);
    case Action(s, target, text) =>
      failure := Act(s, target, text, now);
    case Names(s, channel) =>
      AskNames(s, channel);
  }

  /** `msg`: the library request, then the `privmsg` record. */
  method Speak(s: Client, target: string, text: string, length: int, now: seq<byte>) returns (failure: Option<Failure>)
    requires s.Valid()
    modifies s`wire, s.publish, s.bus
    ensures s.Valid()
    ensures Said(s, "privmsg", now, target, text, old(Snap(s)).(wire := old(s.wire) + [PrivMsg(target, text, length)]), Snap(s), failure)
  {
    s.Msg(target, text, length);
    failure := Say(s, "privmsg", now, target, text);
  }

  /** `action`: the CTCP ACTION query, then the `action` record. */
  method Act(s: Client, target: string, text: string, now: seq<byte>) returns (failure: Option<Failure>)
    requires s.Valid()
    modifies s`wire, s.publish, s.bus
    ensures s.Valid()
    ensures Said(s, "action", now, target, text, old(Snap(s)).(wire := old(s.wire) + [CtcpQuery(target, "ACTION", text)]), Snap(s), failure)
  {
    s.CtcpMakeQuery(target, "ACTION", text);
    failure := Say(s, "action", now, target, text);
  }

  /** `names`: a NAMES request whose answer runs `got_names` for the channel. */
  method AskNames(s: Client, channel: string)
    requires s.Valid()
    modifies s`namesCallback, s`nextWaiter, s`wire, s`gotNames
    ensures s.Valid()
    ensures s.namesCallback == Register(old(s.namesCallback), channel, old(s.nextWaiter))
    ensures s.nextWaiter == old(s.nextWaiter) + 1
    ensures s.gotNames == old(s.gotNames)[old(s.nextWaiter) := channel]
    ensures s.wire == old(s.wire) + [RawLine("NAMES " + Lower(channel))]
  {
    var w := s.Names(channel);
    s.AttachGotNames(w, channel);
  }

  /** Publishes the record of a `msg` or `action` command, or fails before sign-on. */
  method Say(s: Client, kind: string, now: seq<byte>, target: string, text: string) returns (failure: Option<Failure>)
    requires s.Valid()
    modifies s.publish, s.bus
    ensures s.Valid()
    ensures Said(s, kind, now, target, text, old(Snap(s)), Snap(s), failure)
  {
    if s.publish == null {
      failure := Some(NotSignedOn);
    } else {
      failure := None;
      s.publish.Event(Literal(kind), now, Texts([s.nickname, target, text]));
    }
  }
}
