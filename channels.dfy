/**
  * The joined-channel list of a session and `list.remove` on it
  * (client.py:61-67): the removal the older bridge performs when a channel
  * is left.
  */
module Channels {
  import opened Wrappers

  /** The position of the first `x` in `s`. */
  function FirstIndex(s: seq<string>, x: string): (i: nat)
    requires x in s
    ensures i < |s| && s[i] == x && x !in s[..i]
  {
    if s[0] == x then 0
    else
      assert s == [s[0]] + s[1..];
      var j := FirstIndex(s[1..], x);
      assert s[..j + 1] == [s[0]] + s[1..][..j];
      j + 1
  }

  /**
    * `list.remove(x)`: drops the first `x` and keeps everything else in
    * order; raises (None here) when `x` is absent.
    */
  function RemoveFirst(s: seq<string>, x: string): (r: Option<seq<string>>)
    ensures r.None? <==> x !in s
    ensures r.Some? ==> |r.value| == |s| - 1
  {
    if s == [] then None
    else if s[0] == x then Some(s[1..])
    else
      match RemoveFirst(s[1..], x)
      case None => None
      case Some(t) => Some([s[0]] + t)
  }

  /** What `remove` leaves: the list around the first copy of `x`. */
  lemma {:induction false} RemoveFirstAt(s: seq<string>, x: string, i: nat)
    requires i < |s| && s[i] == x && x !in s[..i]
    ensures RemoveFirst(s, x) == Some(s[..i] + s[i + 1..])
  {
    if i == 0 {
      assert s[..0] + s[1..] == s[1..];
    } else {
      assert s[0] == s[..i][0];
      assert s[1..][..i - 1] == s[1..i];
      RemoveFirstAt(s[1..], x, i - 1);
      assert s[1..][i..] == s[i + 1..];
      assert [s[0]] + (s[1..i] + s[i + 1..]) == s[..i] + s[i + 1..];
    }
  }

  /** Removing a channel leaves one copy fewer of it and the same copies of every other channel. */
  lemma RemoveFirstCounts(s: seq<string>, x: string)
    requires x in s
    ensures multiset(RemoveFirst(s, x).value) == multiset(s) - multiset{x}
  {
    var i := FirstIndex(s, x);
    RemoveFirstAt(s, x, i);
    assert s == s[..i] + [x] + s[i + 1..];
  }

  /** Leaving a channel undoes joining it when it was not already in the list. */
  lemma LeaveUndoesJoin(s: seq<string>, x: string)
    requires x !in s
    ensures RemoveFirst(s + [x], x) == Some(s)
  {
    var t := s + [x];
    assert x in t by { assert t[|s|] == x; }
    assert t[..|s|] == s;
    RemoveFirstAt(t, x, |s|);
    assert t[|s| + 1..] == [];
    assert s + [] == s;
  }
}
