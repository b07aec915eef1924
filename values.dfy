/**
  * Elements of an outbound event record and the UTF-8 pass the publishers
  * run over a record before sending it (zmq-irc/client.py:32-34,
  * client.py:26-28): every text element is replaced by its UTF-8 bytes,
  * every other element stays as it is.
  */
module Values {
  import opened Wrappers
  import opened Utf8

  /** A record element: character text (Python 2 `unicode`) or a byte string (`str`). */
  datatype Value = Text(chars: string) | Bytes(octets: seq<byte>)

  /** A string literal of the bridge's own code, which is a byte string. */
  function Literal(s: string): Value { Bytes(Encode(s)) }

  /** Strings passed as event arguments, each a text value. */
  function Texts(ss: seq<string>): (r: seq<Value>)
    ensures |r| == |ss| && forall i :: 0 <= i < |ss| ==> r[i] == Text(ss[i])
  {
    seq(|ss|, i requires 0 <= i < |ss| => Text(ss[i]))
  }

  /** One element after the UTF-8 pass: always bytes, and text can be read back. */
  function EncodeValue(v: Value): (r: Value)
    ensures r.Bytes?
    ensures v.Bytes? ==> r == v
    ensures v.Text? ==> Decode(r.octets) == Some(v.chars)
  {
    match v
    case Bytes(_) => v
    case Text(s) => DecodeEncode(s); Bytes(Encode(s))
  }

  /** A record after the UTF-8 pass, element by element. */
  function EncodeAll(vs: seq<Value>): seq<Value>
  {
    seq(|vs|, i requires 0 <= i < |vs| => EncodeValue(vs[i]))
  }

  /**
    * The pass keeps length and positions, leaves byte strings untouched, turns
    * every text element into bytes that decode to the same text, and is
    * idempotent, so a record already sent would be sent unchanged.
    */
  lemma EncodeAllFacts(vs: seq<Value>)
    ensures |EncodeAll(vs)| == |vs|
    ensures forall i :: 0 <= i < |vs| && vs[i].Bytes? ==> EncodeAll(vs)[i] == vs[i]
    ensures forall i :: 0 <= i < |vs| && vs[i].Text? ==>
              EncodeAll(vs)[i].Bytes? && Decode(EncodeAll(vs)[i].octets) == Some(vs[i].chars)
    ensures EncodeAll(EncodeAll(vs)) == EncodeAll(vs)
  {
  }

  /** The pass works element-wise, so it distributes over concatenation. */
  lemma EncodeAllAppend(a: seq<Value>, b: seq<Value>)
    ensures EncodeAll(a + b) == EncodeAll(a) + EncodeAll(b)
  {
  }

  /**
    * Incoming arguments (IRC lines, bus frames) are byte strings, which the
    * pass leaves alone. One that is well-formed UTF-8 may be held as the text
    * it decodes to instead: the pass turns that text back into the very same
    * bytes, so the record on the wire is the same either way.
    */
  lemma IncomingAsText(b: seq<byte>)
    requires Decode(b).Some?
    ensures EncodeValue(Text(Decode(b).value)) == EncodeValue(Bytes(b)) == Bytes(b)
  {
    EncodeDecode(b);
  }

  /**
    * The `enumerate` loop of the publishers: rewrites each text element of
    * `send` in place with its UTF-8 bytes.
    */
  method EncodeInPlace(send: array<Value>)
    modifies send
    ensures send[..] == EncodeAll(old(send[..]))
  {
    var i := 0;
    while i < send.Length
      invariant 0 <= i <= send.Length
      invariant forall k :: 0 <= k < i ==> send[k] == EncodeValue(old(send[k]))
      invariant forall k :: i <= k < send.Length ==> send[k] == old(send[k])
    {
      if send[i].Text? {
        send[i] := Bytes(Encode(send[i].chars));
      }
      i := i + 1;
    }
  }
}
