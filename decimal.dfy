/**
  * Decimal rendering of a non-negative integer, as Python's `str` writes the
  * sequence counter into the second field of an event record, and the parse a
  * downstream consumer applies to read it back.
  */
module Decimal {
  import opened Wrappers
  import opened Utf8

  predicate IsDigit(b: byte) { 48 <= b <= 57 }

  /** ASCII decimal digits of `n`, most significant first, without leading zeros. */
  function Render(n: nat): (r: seq<byte>)
    ensures |r| >= 1
    ensures forall i :: 0 <= i < |r| ==> IsDigit(r[i])
    ensures |r| > 1 ==> r[0] != 48
  {
    if n < 10 then [(48 + n) as byte] else Render(n / 10) + [(48 + n % 10) as byte]
  }

  /** The number an all-digit byte string denotes. */
  function Value(bs: seq<byte>): nat
    requires forall i :: 0 <= i < |bs| ==> IsDigit(bs[i])
  {
    if bs == [] then 0
    else
      assert IsDigit(bs[|bs| - 1]);
      Value(bs[..|bs| - 1]) * 10 + (bs[|bs| - 1] as int - 48)
  }

  /** Reads a decimal field: None unless it is a non-empty run of digits. */
  function Parse(bs: seq<byte>): Option<nat>
  {
    if bs != [] && forall i :: 0 <= i < |bs| ==> IsDigit(bs[i]) then Some(Value(bs)) else None
  }

  /** Parsing a rendered counter gives the counter back. */
  lemma {:induction false} ParseRender(n: nat)
    ensures Parse(Render(n)) == Some(n)
  {
    if n >= 10 {
      var r := Render(n);
      ParseRender(n / 10);
      assert r[..|r| - 1] == Render(n / 10);
      assert Value(r) == Value(Render(n / 10)) * 10 + n % 10;
    }
  }

  /** Two different counters never render to the same field. */
  lemma RenderInjective(m: nat, n: nat)
    ensures Render(m) == Render(n) ==> m == n
  {
    ParseRender(m);
    ParseRender(n);
  }
}
