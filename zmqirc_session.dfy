/**
  * One IRC connection of the zmq-irc bridge: `Client`, with the NAMES
  * bookkeeping of its base class `NamesIRCClient` folded in
  * (zmq-irc/client.py:38-132). Deferreds are waiter numbers; firing one is
  * logged in `fired` and runs the `got_names` callback attached to it.
  */
module ZmqIrcSession {
  import opened Wrappers
  import opened Utf8
  import opened Values
  import opened Bus
  import opened Irc
  import opened NamesTable
  import opened ZmqIrcPublisher
  import opened Channels


  /** The `names` event `got_names` publishes for `channel`. */
  function NamesCall(channel: string, nicklist: seq<string>, now: seq<byte>): Call
  {
    Call(Literal("names"), now, [Text(channel)] + Texts(nicklist))
  }

  /** The events the `got_names` callbacks publish as `resolutions` fire, in order. */
  function GotNamesCalls(resolutions: seq<Resolution>, callbacks: map<nat, string>, now: seq<byte>): seq<Call>
    decreases |resolutions|
  {
    if resolutions == [] then []
    else
      var r := resolutions[|resolutions| - 1];
      GotNamesCalls(resolutions[..|resolutions| - 1], callbacks, now)
        + (if r.waiter in callbacks then [NamesCall(callbacks[r.waiter], r.names, now)] else [])
  }

  /** Protocol callbacks that only publish (zmq-irc/client.py:97-98, 106-132). */
  datatype Callback =
    | TopicUpdated(user: string, channel: string, newTopic: string)
    | UserJoined(user: string, channel: string)
    | UserLeft(user: string, channel: string)
    | UserQuit(user: string, msg: string)
    | UserKicked(user: string, channel: string, kicker: string, msg: string)
    | UserRenamed(oldname: string, newname: string)
    | Privmsg(user: string, channel: string, msg: string)
    | Noticed(user: string, channel: string, msg: string)
    | ActionSeen(user: string, channel: string, msg: string)

  /** The event kind and arguments each callback publishes. */
  function Forwarded(cb: Callback): (string, seq<string>)
  {
    match cb
    case TopicUpdated(_, channel, newTopic) => ("topic", [channel, newTopic])
    case UserJoined(user, channel) => ("userJoined", [user, channel])
    case UserLeft(user, channel) => ("userLeft", [user, channel])
    case UserQuit(user, msg) => ("userQuit", [user, msg])
    case UserKicked(user, channel, kicker, msg) => ("userKicked", [user, channel, kicker, msg])
    case UserRenamed(oldname, newname) => ("userRenamed", [oldname, newname])
    case Privmsg(user, channel, msg) => ("privmsg", [user, channel, msg])
    case Noticed(user, channel, msg) => ("notice", [user, channel, msg])
    case ActionSeen(user, channel, msg) => ("action", [user, channel, msg])
  }

  lemma GotNamesCallsSnoc(rs: seq<Resolution>, r: Resolution, callbacks: map<nat, string>, now: seq<byte>)
    ensures GotNamesCalls(rs + [r], callbacks, now) == GotNamesCalls(rs, callbacks, now) + GotNamesCalls([r], callbacks, now)
  {
    assert (rs + [r])[..|rs + [r]| - 1] == rs;
    assert [r][..0] == [];
  }

  /** Records published by one more turn of the callback loop extend those of the earlier turns. */
  lemma PublishedInTurn(o: Origin, start: nat, done: seq<Resolution>, r: Resolution, callbacks: map<nat, string>,
                        now: seq<byte>, sent0: seq<seq<Value>>, sent1: seq<seq<Value>>, sent2: seq<seq<Value>>)
    requires sent1 == sent0 + Emitted(o, start, GotNamesCalls(done, callbacks, now))
    requires sent2 == sent1 + Emitted(o, start + |GotNamesCalls(done, callbacks, now)|, GotNamesCalls([r], callbacks, now))
    ensures sent2 == sent0 + Emitted(o, start, GotNamesCalls(done + [r], callbacks, now))
  {
    var before, turn := GotNamesCalls(done, callbacks, now), GotNamesCalls([r], callbacks, now);
    GotNamesCallsSnoc(done, r, callbacks, now);
    EmittedAppend(o, start, before, turn);
    assert sent2 == sent0 + (Emitted(o, start, before) + Emitted(o, start + |before|, turn));
  }

  class Client {
    // the factory's fields, read through properties (zmq-irc/client.py:76-86)
    const email: string
    const network: string
    const nickname: string
    /** The module-wide `event_publisher` socket. */
    const bus: Outbox

    var channels: seq<string>
    var publish: RemoteEventPublisher?
    var namesCallback: Table
    var fired: seq<Resolution>
    var nextWaiter: nat
    var gotNames: map<nat, string>
    var wire: seq<Request>

    /**
      * The publisher stamps this session's origin and writes to the shared
      * socket; every pending waiter was issued by `names`.
      */
    ghost predicate Valid()
      reads this
    {
      && Publishes()
      && IssuedBelow(namesCallback, nextWaiter)
    }

    /** The publisher, once there is one, stamps this session's origin and writes to the shared socket. */
    ghost predicate Publishes()
      reads this
    {
      publish != null ==> publish.bus == bus && publish.Source() == Source()
    }

    constructor (email: string, network: string, nickname: string, bus: Outbox)
      ensures Valid()
      ensures this.email == email && this.network == network && this.nickname == nickname && this.bus == bus
      ensures publish == null && channels == [] && namesCallback == map[] && fired == []
      ensures gotNames == map[] && wire == []
    {
      this.email := email;
      this.network := network;
      this.nickname := nickname;
      this.bus := bus;
      channels := [];
      publish := null;
      namesCallback := map[];
      fired := [];
      nextWaiter := 0;
      gotNames := map[];
      wire := [];
    }

    /** The origin every record of this session carries. */
    function Source(): Origin
    {
      Origin(Text(email), Text(network), Text(nickname))
    }

    /**
      * `signedOn`: empties the channel list and starts a fresh publisher at 0,
      * so the first record after every sign-on is `signedOn` with number 1.
      */
    method SignedOn(now: seq<byte>)
      requires Valid()
      modifies this`channels, this`publish, bus
      ensures Valid()
      ensures channels == []
      ensures publish != null && fresh(publish) && publish.Source() == Source() && publish.currentId == 1
      ensures bus.sent == old(bus.sent) + Emitted(Source(), 0, [Call(Literal("signedOn"), now, [Text(nickname)])])
      ensures SequenceNumber(bus.sent[|bus.sent| - 1]) == Some(1)
    {
      channels := [];
      publish := new RemoteEventPublisher(Text(network), Text(nickname), Text(email), bus, 0);
      publish.Event(Literal("signedOn"), now, [Text(nickname)]);
      Gapless(Source(), 0, [Call(Literal("signedOn"), now, [Text(nickname)])]);
    }

    /**
      * `names(channel)`: a new waiter joins the lower-cased channel's entry
      * (made empty if missing), and one NAMES line goes out on every call.
      */
    method Names(channel: string) returns (w: nat)
      requires Valid()
      modifies this`namesCallback, this`nextWaiter, this`wire
      ensures Valid()
      ensures w == old(nextWaiter) && nextWaiter == w + 1
      ensures forall c :: c in old(namesCallback) ==> w !in old(namesCallback)[c].waiters
      ensures namesCallback == Register(old(namesCallback), channel, w)
      ensures wire == old(wire) + [RawLine("NAMES " + Lower(channel))]
    {
      IssuedBelowKept(namesCallback, nextWaiter, channel, "");
      w := nextWaiter;
      nextWaiter := nextWaiter + 1;
      namesCallback := Register(namesCallback, channel, w);
      wire := wire + [RawLine("NAMES " + Lower(channel))];
    }

    /** `.addCallback(self.got_names, channel)` on the waiter `w`. */
    method AttachGotNames(w: nat, channel: string)
      modifies this`gotNames
      ensures gotNames == old(gotNames)[w := channel]
    {
      gotNames := gotNames[w := channel];
    }

    /**
      * `irc_RPL_NAMREPLY`: the nicknames of params[3] join the pending entry
      * of params[2]; a reply with fewer than four params raises.
      */
    method RplNamReply(params: seq<string>) returns (ok: bool)
      requires Valid()
      modifies this`namesCallback
      ensures Valid()
      ensures ok == (|params| >= 4)
      ensures namesCallback == if ok then Accumulate(old(namesCallback), params[2], params[3]) else old(namesCallback)
    {
      if |params| < 4 {
        return false;
      }
      IssuedBelowKept(namesCallback, nextWaiter, params[2], params[3]);
      namesCallback := Accumulate(namesCallback, params[2], params[3]);
      ok := true;
    }

    /** `got_names`: publishes `names` with the channel and the list; raises before sign-on. */
    method GotNames(nicklist: seq<string>, channel: string, now: seq<byte>) returns (ok: bool)
      requires Publishes()
      modifies publish, bus
      ensures ok == (publish != null)
      ensures ok ==> publish.currentId == old(publish.currentId) + 1
      ensures ok ==> bus.sent == old(bus.sent) + Emitted(Source(), old(publish.currentId), [NamesCall(channel, nicklist, now)])
      ensures !ok ==> bus.sent == old(bus.sent)
    {
      if publish == null {
        return false;
      }
      publish.Event(Literal("names"), now, [Text(channel)] + Texts(nicklist));
      ok := true;
    }

    /**
      * `irc_RPL_ENDOFNAMES`: every waiter of the channel, in registration
      * order, fires with the same accumulated list (running its `got_names`
      * callback), then only that channel's entry is dropped.
      */
    method RplEndOfNames(params: seq<string>, now: seq<byte>) returns (ok: bool)
      requires Valid()
      modifies this`namesCallback, this`fired, publish, bus
      ensures Valid()
      ensures ok == (|params| >= 2)
      ensures !ok ==> namesCallback == old(namesCallback) && fired == old(fired) && bus.sent == old(bus.sent)
                      && (publish != null ==> publish.currentId == old(publish.currentId))
      ensures ok ==> namesCallback == Resolve(old(namesCallback), params[1]).0
      ensures ok ==> fired == old(fired) + Resolve(old(namesCallback), params[1]).1
      ensures ok && publish != null ==>
        var calls := GotNamesCalls(Resolve(old(namesCallback), params[1]).1, gotNames, now);
        && publish.currentId == old(publish.currentId) + |calls|
        && bus.sent == old(bus.sent) + Emitted(Source(), old(publish.currentId), calls)
      ensures publish == null ==> bus.sent == old(bus.sent)
    {
      if |params| < 2 {
        return false;
      }
      ok := true;
      var channel := Lower(params[1]);
      if channel !in namesCallback {
        assert GotNamesCalls([], gotNames, now) == [];
        return;
      }
      IssuedBelowKept(namesCallback, nextWaiter, params[1], "");
      FireAll(namesCallback[channel].waiters, namesCallback[channel].nicks, now);
      namesCallback := namesCallback - {channel};
    }

    /** `for cb in callbacks: cb.callback(namelist)`: the waiters fire in order with one list. */
    method FireAll(callbacks: seq<nat>, namelist: seq<string>, now: seq<byte>)
      requires Valid()
      modifies this`fired, publish, bus
      ensures Valid()
      ensures fired == old(fired) + ResolveAll(callbacks, namelist)
      ensures publish != null ==>
        var calls := GotNamesCalls(ResolveAll(callbacks, namelist), gotNames, now);
        && publish.currentId == old(publish.currentId) + |calls|
        && bus.sent == old(bus.sent) + Emitted(Source(), old(publish.currentId), calls)
      ensures publish == null ==> bus.sent == old(bus.sent)
    {
      var i := 0;
      while i < |callbacks|
        invariant 0 <= i <= |callbacks|
        invariant Publishes()
        invariant fired == old(fired) + ResolveAll(callbacks[..i], namelist)
        invariant publish != null ==>
          var calls := GotNamesCalls(ResolveAll(callbacks[..i], namelist), gotNames, now);
          && publish.currentId == old(publish.currentId) + |calls|
          && bus.sent == old(bus.sent) + Emitted(Source(), old(publish.currentId), calls)
        invariant publish == null ==> bus.sent == old(bus.sent)
      {
        ghost var done := ResolveAll(callbacks[..i], namelist);
        ghost var sentBefore := bus.sent;
        var r := Resolution(callbacks[i], namelist);
        assert ResolveAll(callbacks[..i + 1], namelist) == done + [r];
        Fire(r, now);
        if publish != null {
          PublishedInTurn(Source(), old(publish.currentId), done, r, gotNames, now, old(bus.sent), sentBefore, bus.sent);
        }
        i := i + 1;
      }
      assert callbacks[..i] == callbacks;
    }

    /** One turn of the callback loop: `r` is logged as fired and the waiter's `got_names` runs. */
    method Fire(r: Resolution, now: seq<byte>)
      requires Publishes()
      modifies this`fired, publish, bus
      ensures fired == old(fired) + [r]
      ensures publish != null ==>
        var calls := GotNamesCalls([r], gotNames, now);
        && publish.currentId == old(publish.currentId) + |calls|
        && bus.sent == old(bus.sent) + Emitted(Source(), old(publish.currentId), calls)
      ensures publish == null ==> bus.sent == old(bus.sent)
    {
      fired := fired + [r];
      assert [] + [r] == [r];
      if r.waiter in gotNames {
        var _ := GotNames(r.names, gotNames[r.waiter], now);
      }
    }

    /**
      * `joined`: appends the channel (duplicates allowed), asks for its names
      * with `got_names` attached and for its topic, then publishes `joined`.
      */
    method Joined(channel: string, now: seq<byte>)
      requires Valid() && publish != null
      modifies this`channels, this`namesCallback, this`nextWaiter, this`gotNames, this`wire, publish, bus
      ensures Valid()
      ensures channels == old(channels) + [channel]
      ensures namesCallback == Register(old(namesCallback), channel, old(nextWaiter))
      ensures gotNames == old(gotNames)[old(nextWaiter) := channel]
      ensures nextWaiter == old(nextWaiter) + 1
      ensures wire == old(wire) + [RawLine("NAMES " + Lower(channel)), Topic(channel)]
      ensures publish.currentId == old(publish.currentId) + 1
      ensures bus.sent == old(bus.sent) + Emitted(Source(), old(publish.currentId), [Call(Literal("joined"), now, [Text(channel)])])
    {
      channels := channels + [channel];
      var w := Names(channel);
      AttachGotNames(w, channel);
      TopicQuery(channel);
      publish.Event(Literal("joined"), now, [Text(channel)]);
    }

    /**
      * `left` as written: `self.channels.pop(channel)` passes a string where
      * `list.pop` takes an index, so it raises on every call, before the
      * list changes or anything is published.
      */
    method Left(channel: string) returns (ok: bool)
      ensures !ok
    {
      ok := false;
    }

    /**
      * `left` as evidently intended (and as the older bridge has it): the
      * first copy of the channel leaves the list and `left` is published;
      * a channel not in the list raises before anything is published.
      */
    method LeftAsIntended(channel: string, now: seq<byte>) returns (ok: bool)
      requires Valid() && publish != null
      modifies this`channels, publish, bus
      ensures Valid()
      ensures ok <==> channel in old(channels)
      ensures ok ==> channels == RemoveFirst(old(channels), channel).value
      ensures ok ==> && publish.currentId == old(publish.currentId) + 1
                     && bus.sent == old(bus.sent) + Emitted(Source(), old(publish.currentId), [Call(Literal("left"), now, [Text(channel)])])
      ensures !ok ==> channels == old(channels) && publish.currentId == old(publish.currentId) && bus.sent == old(bus.sent)
    {
      match RemoveFirst(channels, channel)
      case None =>
        ok := false;
      case Some(rest) =>
        channels := rest;
        publish.Event(Literal("left"), now, [Text(channel)]);
        ok := true;
    }

    /**
      * A passive callback publishes its kind and arguments, in order, and
      * changes nothing else. Before sign-on there is no publisher (a server
      * NOTICE can arrive before the welcome), so the callback raises and
      * nothing is published.
      */
    method Forward(cb: Callback, now: seq<byte>) returns (ok: bool)
      requires Publishes()
      modifies publish, bus
      ensures ok == (publish != null)
      ensures ok ==> publish.currentId == old(publish.currentId) + 1
      ensures ok ==> (bus.sent == old(bus.sent)
                      + Emitted(Source(), old(publish.currentId), [Call(Literal(Forwarded(cb).0), now, Texts(Forwarded(cb).1))]))
      ensures !ok ==> bus.sent == old(bus.sent)
    {
      if publish == null {
        return false;
      }
      var (kind, args) := Forwarded(cb);
      publish.Event(Literal(kind), now, Texts(args));
      ok := true;
    }

    /** IRCClient.join. */
    method Join(channel: string, key: Option<string>)
      modifies this`wire
      ensures wire == old(wire) + [JoinChannel(channel, key)]
    {
      wire := wire + [JoinChannel(channel, key)];
    }

    /** IRCClient.msg, with the length budget it is given. */
    method Msg(target: string, text: string, length: int)
      modifies this`wire
      ensures wire == old(wire) + [PrivMsg(target, text, length)]
    {
      wire := wire + [PrivMsg(target, text, length)];
    }

    /** IRCClient.ctcpMakeQuery with a single (tag, data) pair. */
    method CtcpMakeQuery(target: string, tag: string, data: string)
      modifies this`wire
      ensures wire == old(wire) + [CtcpQuery(target, tag, data)]
    {
      wire := wire + [CtcpQuery(target, tag, data)];
    }

    /** IRCClient.topic with no new topic: a query. */
    method TopicQuery(channel: string)
      modifies this`wire
      ensures wire == old(wire) + [Topic(channel)]
    {
      wire := wire + [Topic(channel)];
    }
  }
}
