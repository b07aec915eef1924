/**
  * The controller and the top-level object of the older bridge
  * (client.py:94-177): routing of control messages, the session registry
  * and the connection requests.
  */
module HashiController {
  import opened Wrappers
  import opened Values
  import opened Irc
  import opened Control
  import opened Registry
  import opened Dialing
  import opened HashiPublisher
  import opened HashiSession
  import Later = ZmqIrcController

  /**
    * `messageReceived` as a decision. Any network other than "global" is
    * looked up first, whatever the command, so a missing one is a KeyError.
    * `connect` reads a name it never assigns and always fails; `join` passes
    * at most two arguments; `msg` reads the target, then looks up the
    * session method, then reads the text. Other commands do nothing.
    */
  function Route<S>(clients: Clients<S>, message: seq<string>): (d: Decision<S>)
    ensures d.HasSession() ==>
              |message| >= 4 && message[1] != Global && Has(clients, message[0], message[1])
              && d.session == clients[message[0]][message[1]]
    ensures !d.Connect? && !d.Action? && !d.Names?
    ensures d.Join? ==>
              message[2] == "join" && d.channel == message[3]
              && d.key == (if |message| >= 5 then Some(message[4]) else None)
    ensures d.Msg? ==>
              |message| >= 5 && message[2] == "msg"
              && d.target == message[3] && d.text == message[4] && d.length == 500 - |message[3]|
    ensures d.Ignore? ==> |message| >= 3 && message[2] !in {"connect", "join", "msg"}
  {
    match Parse(message)
    case None => Fail(Malformed)
    case Some(cmd) =>
      var subject := if cmd.user in clients then clients[cmd.user] else map[];
      var single := cmd.server != Global;
      var args := cmd.args;
      if single && cmd.server !in subject then Fail(UnknownNetwork(cmd.user, cmd.server))
      else if cmd.kind == "connect" then Fail(UndefinedName("hostname"))
      else if cmd.kind == "join" then
        if !single then Fail(NotASession("join"))
        else if |args| == 0 then Fail(Malformed)
        else Join(subject[cmd.server], args[0], if |args| >= 2 then Some(args[1]) else None)
      else if cmd.kind == "msg" then
        if |args| == 0 then Fail(Malformed)
        else if !single then Fail(NotASession("msg"))
        else if |args| < 2 then Fail(Malformed)
        else Msg(subject[cmd.server], args[0], args[1], Budget(args[0]))
      else Ignore
  }

  /** `connect` never dials: it fails on the network lookup or on the unassigned hostname. */
  lemma RouteConnectFails<S>(clients: Clients<S>, message: seq<string>)
    requires |message| >= 3 && message[2] == "connect"
    ensures Route(clients, message).Fail?
    ensures Route(clients, message).failure.UndefinedName?
            <==> message[1] == Global || Has(clients, message[0], message[1])
  {
  }

  /** Any command on a network the user has no session on fails with a KeyError. */
  lemma RouteUnknownNetwork<S>(clients: Clients<S>, message: seq<string>)
    requires |message| >= 3 && message[1] != Global
    ensures (Route(clients, message).Fail? && Route(clients, message).failure.UnknownNetwork?)
            <==> !Has(clients, message[0], message[1])
  {
  }

  /**
    * The converse of Route's contract: `join`, and `msg` with its text, on a
    * network the user has reach that session with the arguments in place.
    */
  lemma RouteReachesSession<S>(clients: Clients<S>, message: seq<string>)
    requires |message| >= 4 && message[1] != Global && Has(clients, message[0], message[1])
    ensures var s, kind, d := clients[message[0]][message[1]], message[2], Route(clients, message);
            && (kind == "join" ==> d == Join(s, message[3], if |message| >= 5 then Some(message[4]) else None))
            && (kind == "msg" && |message| >= 5 ==> d == Msg(s, message[3], message[4], 500 - |message[3]|))
  {
  }

  /**
    * Every command other than `connect`, `join` and `msg` is ignored, once
    * its network lookup succeeds; nothing else is.
    */
  lemma RouteIgnores<S>(clients: Clients<S>, message: seq<string>)
    ensures Route(clients, message).Ignore?
            <==> |message| >= 3 && message[2] !in {"connect", "join", "msg"}
                 && (message[1] == Global || Has(clients, message[0], message[1]))
  {
  }

  /**
    * On a named network the two bridges route `join` and `msg` alike; they
    * differ on "global" (a `msg` with only a target fails on its missing
    * text in the later bridge and on the missing session method here) and
    * on every other command.
    */
  lemma RouteAgreesWithLater<S>(clients: Clients<S>, message: seq<string>)
    requires |message| >= 3 && message[1] != Global && message[2] in {"join", "msg"}
    ensures Route(clients, message) == Later.Route(clients, message)
  {
  }

  /** Where the two bridges part on `msg` to "global": the failure each reports for a bare target. */
  lemma RouteGlobalMsgDiffers<S>(clients: Clients<S>, user: string, target: string)
    ensures Route(clients, [user, Global, "msg", target]) == Fail(NotASession("msg"))
    ensures Later.Route(clients, [user, Global, "msg", target]) == Fail(Malformed)
  {
  }

  /** The objects carrying out a decision may change: its session and the session's socket. */
  function Touched(d: Decision<Client>): set<object>
    reads if d.HasSession() then {d.session} else {}
  {
    if d.HasSession() then
      {d.session} + (if d.session.publish != null then {d.session.publish.socket} else {})
    else {}
  }

  /**
    * What carrying out a session decision did (client.py:130-136): `join`
    * hands the library one join; `msg` runs the session's own `msg`, which
    * sends the message and publishes it (see Client.Msg).
    */
  twostate predicate Carried(d: Decision<Client>, new failure: Option<Failure>)
    requires d.HasSession()
    reads d.session, if d.session.publish != null then {d.session.publish.socket} else {}
  {
    var s := d.session;
    && s.publish == old(s.publish)
    && s.channels == old(s.channels)
    && match d
       case Join(_, channel, key) =>
         && failure == None
         && s.wire == old(s.wire) + [JoinChannel(channel, key)]
         && (s.publish != null ==> s.publish.socket.sent == old(s.publish.socket.sent))
       case Msg(_, target, text, length) =>
         && s.wire == old(s.wire) + [PrivMsg(target, text, length)]
         && (s.publish == null ==> failure == Some(NotSignedOn))
         && (s.publish != null ==>
               && failure == None
               && s.publish.socket.sent == old(s.publish.socket.sent)
                  + [Wire(Text(s.network), Text(s.nickname), Literal("privmsg"), Texts([s.nickname, target, text]))])
       case _ => true
  }

  /** Carries out a decision that names a session. */
  method Apply(d: Decision<Client>) returns (failure: Option<Failure>)
    requires d.HasSession() && (d.Join? || d.Msg?) && d.session.Valid()
    modifies Touched(d)
    ensures d.session.Valid()
    ensures Carried(d, failure)
  {
    failure := None;
    match d
    case Join(s, channel, key) =>
      s.Join(channel, key);
    case Msg(s, target, text, length) =>
      failure := s.Msg(target, text, length);
  }

  class Hashi {
    var clients: Clients<Client>
    var dials: seq<ConnectRequest>

    function Sessions(): set<Client>
      reads this
    {
      set u, n | u in clients && n in clients[u] :: clients[u][n]
    }

    /** Every registered session is consistent. */
    ghost predicate Valid()
      reads this, Sessions()
    {
      forall c :: c in Sessions() ==> c.Valid()
    }

    constructor ()
      ensures Valid() && clients == map[] && dials == []
    {
      clients := map[];
      dials := [];
    }

    /** `server_init`: one connection attempt per configuration row, in order. */
    method ServerInit(config: seq<ServerRow>)
      modifies this`dials
      ensures dials == old(dials) + Dials(config)
    {
      var i := 0;
      while i < |config|
        invariant 0 <= i <= |config|
        invariant dials == old(dials) + Dials(config[..i])
      {
        var row := config[i];
        ServerConnect(row.email, row.hostname, row.port, row.ssl, row.nick);
        assert Dials(config[..i + 1]) == Dials(config[..i]) + [Dial(row.email, row.hostname, row.port, row.ssl, row.nick)];
        i := i + 1;
      }
      assert config[..i] == config;
    }

    /** `server_connect`: one connection attempt; registration follows when it succeeds. */
    method ServerConnect(email: string, hostname: string, port: Port, ssl: bool, nick: string)
      modifies this`dials
      ensures dials == old(dials) + [Dial(email, hostname, port, ssl, nick)]
    {
      dials := dials + [Dial(email, hostname, port, ssl, nick)];
    }

    /** `register_client`: the session now sits at (email, its network), replacing any earlier one. */
    method RegisterClient(client: Client, email: string)
      requires Valid() && client.Valid()
      modifies this`clients
      ensures Valid()
      ensures clients == Put(old(clients), email, client.network, client)
    {
      clients := Put(clients, email, client.network, client);
    }

    /**
      * `messageReceived`: routes the message, touches the user's entry of the
      * defaultdict, and carries out the decision; nothing here dials.
      */
    method MessageReceived(message: seq<string>) returns (d: Decision<Client>, failure: Option<Failure>)
      requires Valid()
      modifies this`clients, Touched(Route(clients, message))
      ensures Valid()
      ensures d == Route(old(clients), message)
      ensures clients == if |message| >= 3 then Touch(old(clients), message[0]) else old(clients)
      ensures d.Fail? ==> failure == Some(d.failure)
      ensures d.Ignore? ==> failure == None
      ensures d.HasSession() ==> Carried(d, failure)
    {
      d := Route(clients, message);
      if |message| >= 3 {
        TouchUser(message[0]);
      }
      failure := Dispatch(d);
    }

    /** Carries out a routed decision on its session, or reports its failure. */
    method Dispatch(d: Decision<Client>) returns (failure: Option<Failure>)
      requires Valid() && !d.Connect? && !d.Action? && !d.Names?
      requires d.HasSession() ==> d.session in Sessions()
      modifies Touched(d)
      ensures Valid()
      ensures d.Fail? ==> failure == Some(d.failure)
      ensures d.Ignore? ==> failure == None
      ensures d.HasSession() ==> Carried(d, failure)
    {
      failure := None;
      if d.HasSession() {
        failure := Apply(d);
      } else if d.Fail? {
        failure := Some(d.failure);
      }
    }

    /** `self.hashi[user]` on the defaultdict. */
    method TouchUser(user: string)
      requires Valid()
      modifies this`clients
      ensures Valid()
      ensures clients == Touch(old(clients), user)
      ensures Sessions() == old(Sessions())
    {
      clients := Touch(clients, user);
      assert Sessions() <= old(Sessions());
    }
  }
}
