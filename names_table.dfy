/**
  * The table behind NAMES requests (zmq-irc/client.py:38-72): for each
  * lower-cased channel, the waiters registered so far and the nicknames
  * gathered from the replies so far. These functions say what each handler
  * does to the table; the session class applies them.
  */
module NamesTable {
  /** A pending request: waiters in registration order and the nicknames gathered. */
  datatype Pending = Pending(waiters: seq<nat>, nicks: seq<string>)

  /** A waiter that has been handed its nickname list. */
  datatype Resolution = Resolution(waiter: nat, names: seq<string>)

  type Table = map<string, Pending>

  /** Lower-casing of a byte string, as Python 2's `str.lower`: ASCII letters only. */
  function LowerChar(c: char): char
  {
    if 'A' <= c <= 'Z' then (c as int + 32) as char else c
  }

  /**
    * Same length; no ASCII capital is left; every character is either kept
    * or is an ASCII capital moved to its small letter.
    */
  function Lower(s: string): (r: string)
    ensures |r| == |s|
    ensures forall i :: 0 <= i < |r| ==> !('A' <= r[i] <= 'Z')
    ensures forall i :: 0 <= i < |s| ==>
              r[i] == s[i] || ('A' <= s[i] <= 'Z' && r[i] as int == s[i] as int + 32)
  {
    seq(|s|, i requires 0 <= i < |s| => LowerChar(s[i]))
  }

  /** Lower-casing twice is lower-casing once, so a key is its own lookup form. */
  lemma LowerIdempotent(s: string)
    ensures Lower(Lower(s)) == Lower(s)
  {
  }

  /**
    * Python's `s.split(sep)` with an explicit separator: every separator
    * ends a piece, so empty pieces are kept and there is always one piece
    * more than there are separators.
    */
  function Split(s: string, sep: char): (r: seq<string>)
    ensures |r| >= 1
    ensures forall k :: 0 <= k < |r| ==> sep !in r[k]
    decreases |s|
  {
    if s == [] then [[]]
    else
      var rest := Split(s[1..], sep);
      if s[0] == sep then [[]] + rest else [[s[0]] + rest[0]] + rest[1..]
  }

  /** Python's `sep.join(pieces)`. */
  function Join(pieces: seq<string>, sep: char): string
    decreases |pieces|
  {
    if |pieces| == 0 then []
    else if |pieces| == 1 then pieces[0]
    else pieces[0] + [sep] + Join(pieces[1..], sep)
  }

  /** Splitting loses nothing: joining the pieces rebuilds the reply field. */
  lemma {:induction false} JoinSplit(s: string, sep: char)
    ensures Join(Split(s, sep), sep) == s
    decreases |s|
  {
    if s != [] {
      var rest := Split(s[1..], sep);
      JoinSplit(s[1..], sep);
      if s[0] != sep && |rest| > 1 {
        assert rest == [rest[0]] + rest[1..];
      }
    }
  }

  /** Conversely, separator-free pieces come back out of a split of their join. */
  lemma {:induction false} SplitJoin(pieces: seq<string>, sep: char)
    requires |pieces| >= 1
    requires forall k :: 0 <= k < |pieces| ==> sep !in pieces[k]
    ensures Split(Join(pieces, sep), sep) == pieces
    decreases |pieces|
  {
    if |pieces| == 1 {
      SplitNoSep(pieces[0], sep);
    } else {
      var tail := [sep] + Join(pieces[1..], sep);
      SplitJoin(pieces[1..], sep);
      SplitPrefix(pieces[0], tail, sep);
      assert pieces[0] + [sep] + Join(pieces[1..], sep) == pieces[0] + tail;
      assert Split(tail, sep) == [[]] + pieces[1..] by {
        assert tail[1..] == Join(pieces[1..], sep);
      }
      assert pieces[0] + [] == pieces[0];
      assert [pieces[0]] + pieces[1..] == pieces;
    }
  }

  /** A string without the separator splits into itself. */
  lemma {:induction false} SplitNoSep(s: string, sep: char)
    requires sep !in s
    ensures Split(s, sep) == [s]
    decreases |s|
  {
    if s != [] {
      SplitNoSep(s[1..], sep);
      assert [s[0]] + s[1..] == s;
    }
  }

  /** A separator-free prefix is glued onto the first piece of what follows it. */
  lemma {:induction false} SplitPrefix(p: string, t: string, sep: char)
    requires sep !in p
    ensures Split(p + t, sep) == [p + Split(t, sep)[0]] + Split(t, sep)[1..]
    decreases |p|
  {
    if p != [] {
      SplitPrefix(p[1..], t, sep);
      assert (p + t)[1..] == p[1..] + t;
      assert [p[0]] + (p[1..] + Split(t, sep)[0]) == p + Split(t, sep)[0];
    } else {
      assert p + t == t;
      assert p + Split(t, sep)[0] == Split(t, sep)[0];
      assert Split(t, sep) == [Split(t, sep)[0]] + Split(t, sep)[1..];
    }
  }

  /**
    * `names(channel)`: creates an empty entry for the lower-cased channel
    * only when there is none, and appends the new waiter to its waiters.
    */
  function Register(t: Table, channel: string, w: nat): (r: Table)
    ensures var k := Lower(channel);
      && r.Keys == t.Keys + {k}
      && r[k].waiters == (if k in t then t[k].waiters else []) + [w]
      && r[k].nicks == (if k in t then t[k].nicks else [])
      && forall c :: c in t && c != k ==> r[c] == t[c]
  {
    var k := Lower(channel);
    var p := if k in t then t[k] else Pending([], []);
    t[k := Pending(p.waiters + [w], p.nicks)]
  }

  /**
    * `irc_RPL_NAMREPLY`: appends the space-separated nicknames of the reply
    * to the pending entry of the lower-cased channel; with no pending entry
    * the table is unchanged.
    */
  function Accumulate(t: Table, channel: string, nickField: string): (r: Table)
    ensures Lower(channel) !in t ==> r == t
    ensures var k := Lower(channel);
      k in t ==> && r.Keys == t.Keys
                 && r[k] == Pending(t[k].waiters, t[k].nicks + Split(nickField, ' '))
                 && forall c :: c in t && c != k ==> r[c] == t[c]
  {
    var k := Lower(channel);
    if k !in t then t else t[k := Pending(t[k].waiters, t[k].nicks + Split(nickField, ' '))]
  }

  /** Every waiter of `ws`, in order, handed the same list. */
  function ResolveAll(ws: seq<nat>, names: seq<string>): (r: seq<Resolution>)
    ensures |r| == |ws|
    ensures forall i :: 0 <= i < |ws| ==> r[i] == Resolution(ws[i], names)
  {
    seq(|ws|, i requires 0 <= i < |ws| => Resolution(ws[i], names))
  }

  /**
    * `irc_RPL_ENDOFNAMES`: hands every waiter of the lower-cased channel, in
    * registration order, the same accumulated list and drops only that
    * channel's entry; with no pending entry nothing happens.
    */
  function Resolve(t: Table, channel: string): (r: (Table, seq<Resolution>))
    ensures Lower(channel) !in t ==> r == (t, [])
    ensures var k := Lower(channel);
      k in t ==> && r.0 == t - {k}
                 && r.1 == ResolveAll(t[k].waiters, t[k].nicks)
  {
    var k := Lower(channel);
    if k !in t then (t, []) else (t - {k}, ResolveAll(t[k].waiters, t[k].nicks))
  }

  /**
    * Two requests for one channel (in any letter case) made before the
    * replies arrive share one entry: both waiters, in the order they asked,
    * receive the identical list split from the reply, and the table returns
    * to what it was.
    */
  lemma Coalesce(t: Table, ch1: string, ch2: string, w1: nat, w2: nat, replyChannel: string,
                 nickField: string, endChannel: string)
    requires Lower(ch1) == Lower(ch2) == Lower(replyChannel) == Lower(endChannel)
    requires Lower(ch1) !in t
    ensures var t1 := Accumulate(Register(Register(t, ch1, w1), ch2, w2), replyChannel, nickField);
      Resolve(t1, endChannel) ==
        (t, [Resolution(w1, Split(nickField, ' ')), Resolution(w2, Split(nickField, ' '))])
  {
    var k := Lower(ch1);
    var t1 := Accumulate(Register(Register(t, ch1, w1), ch2, w2), replyChannel, nickField);
    assert t1[k] == Pending([w1, w2], Split(nickField, ' '));
    assert t1 - {k} == t;
    assert ResolveAll([w1, w2], Split(nickField, ' '))
        == [Resolution(w1, Split(nickField, ' ')), Resolution(w2, Split(nickField, ' '))];
  }

  /** Every waiter pending in `t` was issued before `next`. */
  predicate IssuedBelow(t: Table, next: nat)
  {
    forall c :: c in t ==> forall i :: 0 <= i < |t[c].waiters| ==> t[c].waiters[i] < next
  }

  /**
    * Issuing waiters in increasing order keeps every pending waiter below the
    * next one to be issued, whatever replies and ends arrive in between.
    */
  lemma IssuedBelowKept(t: Table, next: nat, channel: string, nickField: string)
    requires IssuedBelow(t, next)
    ensures IssuedBelow(Register(t, channel, next), next + 1)
    ensures IssuedBelow(Accumulate(t, channel, nickField), next)
    ensures IssuedBelow(Resolve(t, channel).0, next)
    ensures forall c :: c in t ==> next !in t[c].waiters
  {
    var r := Register(t, channel, next);
    var k := Lower(channel);
    forall c | c in r
      ensures forall i :: 0 <= i < |r[c].waiters| ==> r[c].waiters[i] < next + 1
    {
      if c == k {
        var old_ := if k in t then t[k].waiters else [];
        assert r[c].waiters == old_ + [next];
      }
    }
  }
}
