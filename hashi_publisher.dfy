/**
  * The event publisher of the older bridge (client.py:16-29). It opens its
  * own push socket and sends `[network, identity, kind, args...]`, with no
  * sequence number and no timestamp.
  */
module HashiPublisher {
  import opened Values
  import opened Bus

  /** The record `event` assembles before the UTF-8 pass. */
  function Layout(network: Value, identity: Value, kind: Value, args: seq<Value>): seq<Value>
  {
    [network, identity, kind] + args
  }

  /** The record as it goes on the socket. */
  function Wire(network: Value, identity: Value, kind: Value, args: seq<Value>): seq<Value>
  {
    EncodeAll(Layout(network, identity, kind, args))
  }

  /**
    * A record on the socket has three header fields followed by the call's
    * arguments in their original order; every field is bytes, and each text
    * field decodes back to the text the caller passed.
    */
  lemma WireLayout(network: Value, identity: Value, kind: Value, args: seq<Value>)
    ensures var r := Wire(network, identity, kind, args);
      && |r| == 3 + |args|
      && r[0] == EncodeValue(network) && r[1] == EncodeValue(identity) && r[2] == EncodeValue(kind)
      && r[3..] == EncodeAll(args)
      && (forall i :: 0 <= i < |r| ==> r[i].Bytes?)
  {
    EncodeAllAppend([network, identity, kind], args);
  }

  class RemoteEventPublisher {
    const network: Value
    const identity: Value
    /** The push socket this publisher opened for itself. */
    const socket: Outbox

    constructor (network: Value, identity: Value)
      ensures this.network == network && this.identity == identity
      ensures fresh(socket) && socket.sent == []
    {
      this.network := network;
      this.identity := identity;
      socket := new Outbox();
    }

    /** Sends one record for the event. */
    method Event(kind: Value, args: seq<Value>)
      modifies socket
      ensures socket.sent == old(socket.sent) + [Wire(network, identity, kind, args)]
    {
      var record := Layout(network, identity, kind, args);
      var send := new Value[|record|](i requires 0 <= i < |record| => record[i]);
      assert send[..] == record;
      EncodeInPlace(send);
      socket.Send(send[..]);
    }
  }
}
