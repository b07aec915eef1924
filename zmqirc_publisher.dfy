/**
  * The event publisher of zmq-irc/client.py:19-35. Each publisher keeps a
  * counter that it bumps on every event and writes into the record, so that a
  * consumer of the shared bus can spot missing or repeated records.
  */
module ZmqIrcPublisher {
  import opened Wrappers
  import opened Utf8
  import opened Decimal
  import opened Values
  import opened Bus

  /** Who a record is about: the owning user, the network and the actor nickname. */
  datatype Origin = Origin(email: Value, network: Value, identity: Value)

  /** The arguments of one `event` call; `timestamp` stands for `str(time.time())`. */
  datatype Call = Call(kind: Value, timestamp: seq<byte>, args: seq<Value>)

  /** The record `event` assembles before the UTF-8 pass. */
  function Layout(o: Origin, id: nat, c: Call): seq<Value>
  {
    [o.email, Bytes(Render(id)), o.network, o.identity, c.kind, Bytes(c.timestamp)] + c.args
  }

  /** The record as it goes on the bus. */
  function Wire(o: Origin, id: nat, c: Call): seq<Value>
  {
    EncodeAll(Layout(o, id, c))
  }

  /** The sequence number a consumer reads from a record: its second field, in decimal. */
  function SequenceNumber(record: seq<Value>): Option<nat>
  {
    if |record| >= 2 && record[1].Bytes? then Parse(record[1].octets) else None
  }

  /** What a publisher whose counter stands at `start` puts on the bus for `calls`. */
  function Emitted(o: Origin, start: nat, calls: seq<Call>): (r: seq<seq<Value>>)
    ensures |r| == |calls|
    decreases |calls|
  {
    if calls == [] then []
    else [Wire(o, start + 1, calls[0])] + Emitted(o, start + 1, calls[1..])
  }

  /**
    * A record on the bus has six header fields followed by the call's
    * arguments in their original order; the header carries the user, the
    * counter (readable back as a number), the network, the actor, the kind
    * and the timestamp.
    */
  lemma WireLayout(o: Origin, id: nat, c: Call)
    ensures var r := Wire(o, id, c);
      && |r| == 6 + |c.args|
      && r[0] == EncodeValue(o.email)
      && SequenceNumber(r) == Some(id)
      && r[2] == EncodeValue(o.network)
      && r[3] == EncodeValue(o.identity)
      && r[4] == EncodeValue(c.kind)
      && r[5] == Bytes(c.timestamp)
      && r[6..] == EncodeAll(c.args)
  {
    var head := [o.email, Bytes(Render(id)), o.network, o.identity, c.kind, Bytes(c.timestamp)];
    EncodeAllAppend(head, c.args);
    ParseRender(id);
  }

  /**
    * No gaps: the k-th record emitted from a counter at `start` carries
    * `start + k + 1`, so n calls carry start+1 ... start+n in order.
    */
  lemma {:induction false} Gapless(o: Origin, start: nat, calls: seq<Call>)
    ensures forall k :: 0 <= k < |calls| ==>
              SequenceNumber(Emitted(o, start, calls)[k]) == Some(start + k + 1)
    decreases |calls|
  {
    if calls != [] {
      Gapless(o, start + 1, calls[1..]);
      WireLayout(o, start + 1, calls[0]);
      forall k | 1 <= k < |calls|
        ensures SequenceNumber(Emitted(o, start, calls)[k]) == Some(start + k + 1)
      {
        assert Emitted(o, start, calls)[k] == Emitted(o, start + 1, calls[1..])[k - 1];
      }
    }
  }

  /** Calls made one after another emit what the calls made together would. */
  lemma {:induction false} EmittedAppend(o: Origin, start: nat, a: seq<Call>, b: seq<Call>)
    ensures Emitted(o, start, a + b) == Emitted(o, start, a) + Emitted(o, start + |a|, b)
    decreases |a|
  {
    if a != [] {
      assert (a + b)[1..] == a[1..] + b;
      EmittedAppend(o, start + 1, a[1..], b);
    } else {
      assert a + b == b;
    }
  }

  /** Two records from one publisher never carry the same sequence number. */
  lemma NoDuplicates(o: Origin, start: nat, calls: seq<Call>, j: nat, k: nat)
    requires j < k < |calls|
    ensures SequenceNumber(Emitted(o, start, calls)[j]) != SequenceNumber(Emitted(o, start, calls)[k])
  {
    Gapless(o, start, calls);
  }

  class RemoteEventPublisher {
    const network: Value
    const identity: Value
    const email: Value
    /** `event_publisher`, the module-wide push socket shared by every session. */
    const bus: Outbox
    var currentId: nat

    function Source(): Origin { Origin(email, network, identity) }

    constructor (network: Value, identity: Value, email: Value, bus: Outbox, initialEvent: nat)
      ensures this.network == network && this.identity == identity && this.email == email
      ensures this.bus == bus && currentId == initialEvent
    {
      this.network := network;
      this.identity := identity;
      this.email := email;
      this.bus := bus;
      currentId := initialEvent;
    }

    /** Bumps the counter by one and sends one record stamped with the new value. */
    method Event(kind: Value, timestamp: seq<byte>, args: seq<Value>)
      modifies this, bus
      ensures currentId == old(currentId) + 1
      ensures bus.sent == old(bus.sent) + Emitted(Source(), old(currentId), [Call(kind, timestamp, args)])
    {
      currentId := currentId + 1;
      var record := Layout(Source(), currentId, Call(kind, timestamp, args));
      var send := new Value[|record|](i requires 0 <= i < |record| => record[i]);
      assert send[..] == record;
      EncodeInPlace(send);
      bus.Send(send[..]);
      assert Emitted(Source(), old(currentId), [Call(kind, timestamp, args)])
          == [Wire(Source(), currentId, Call(kind, timestamp, args))];
    }
  }
}
