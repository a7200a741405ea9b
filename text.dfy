/** Python's `str.join` and `str.split` on a one-character separator, and the facts
    that make a joined list of pieces recoverable from the text. */
module Text {
  import opened Wrappers

  /** `sep.join(parts)`. */
  function Join(sep: string, parts: seq<string>): string
    decreases |parts|
  {
    if |parts| == 0 then ""
    else if |parts| == 1 then parts[0]
    else parts[0] + sep + Join(sep, parts[1..])
  }

  /** `s.split(c)`: the pieces of `s` between occurrences of the character `c`. */
  function Split(c: char, s: string): (r: seq<string>)
    ensures |r| >= 1
    decreases |s|
  {
    if s == [] then [""]
    else
      var rest := Split(c, s[1..]);
      if s[0] == c then [""] + rest else [[s[0]] + rest[0]] + rest[1..]
  }

  /** Every piece with `tail` in front of it. */
  function Prefixed(tail: string, pieces: seq<string>): (r: seq<string>)
  {
    seq(|pieces|, i requires 0 <= i < |pieces| => tail + pieces[i])
  }

  /** Removes `tail` from the front of every piece; None when a piece does not start with it. */
  function StripEach(tail: string, pieces: seq<string>): Option<seq<string>>
    decreases |pieces|
  {
    if pieces == [] then Some([])
    else if tail <= pieces[0] then
      match StripEach(tail, pieces[1..])
      case Some(rest) => Some([pieces[0][|tail|..]] + rest)
      case None => None
    else None
  }

  /** The first piece as it is, then every other piece with `tail` removed from its front. */
  function StripAfterFirst(tail: string, pieces: seq<string>): Option<seq<string>>
    requires |pieces| >= 1
  {
    match StripEach(tail, pieces[1..])
    case Some(rest) => Some([pieces[0]] + rest)
    case None => None
  }

  /** Inverse of `Join([c] + tail, _)` on pieces free of `c`: split at `c`, then
      remove `tail` from the front of every piece after the first. */
  function Unjoin(c: char, tail: string, s: string): Option<seq<string>>
  {
    StripAfterFirst(tail, Split(c, s))
  }

  /** Splitting at a separator occurrence splits the two sides independently. */
  lemma {:induction false} SplitAppend(c: char, a: string, b: string)
    ensures Split(c, a + [c] + b) == Split(c, a) + Split(c, b)
    decreases |a|
  {
    if a == [] {
      assert a + [c] + b == [c] + b;
      assert ([c] + b)[1..] == b;
    } else {
      assert (a + [c] + b)[1..] == a[1..] + [c] + b;
      SplitAppend(c, a[1..], b);
    }
  }

  /** A text without the separator is one piece. */
  lemma {:induction false} SplitNoSeparator(c: char, a: string)
    requires c !in a
    ensures Split(c, a) == [a]
    decreases |a|
  {
    if a != [] {
      SplitNoSeparator(c, a[1..]);
      assert a == [a[0]] + a[1..];
    }
  }

  /** A separator-free text in front sticks to the first piece. */
  lemma {:induction false} SplitPrepend(c: char, a: string, x: string)
    requires c !in a
    ensures Split(c, a + x) == [a + Split(c, x)[0]] + Split(c, x)[1..]
    decreases |a|
  {
    if a != [] {
      assert (a + x)[1..] == a[1..] + x;
      SplitPrepend(c, a[1..], x);
      assert [a[0]] + (a[1..] + Split(c, x)[0]) == a + Split(c, x)[0];
    } else {
      assert a + x == x && a + Split(c, x)[0] == Split(c, x)[0];
      assert Split(c, x) == [Split(c, x)[0]] + Split(c, x)[1..];
    }
  }

  /** Joining pieces free of `c` with the separator `[c] + tail` and splitting at `c`
      gives the first piece and then every other piece behind `tail`. */
  lemma {:induction false} SplitJoin(c: char, tail: string, parts: seq<string>)
    requires |parts| >= 1 && c !in tail
    requires forall i :: 0 <= i < |parts| ==> c !in parts[i]
    ensures Split(c, Join([c] + tail, parts)) == [parts[0]] + Prefixed(tail, parts[1..])
    decreases |parts|
  {
    if |parts| == 1 {
      SplitNoSeparator(c, parts[0]);
    } else {
      var rest := Join([c] + tail, parts[1..]);
      assert Join([c] + tail, parts) == parts[0] + [c] + (tail + rest);
      SplitAppend(c, parts[0], tail + rest);
      SplitNoSeparator(c, parts[0]);
      SplitPrepend(c, tail, rest);
      SplitJoin(c, tail, parts[1..]);
      assert parts[1..][1..] == parts[2..];
    }
  }

  /** Stripping the prefix that `Prefixed` added gives the pieces back. */
  lemma {:induction false} StripEachPrefixed(tail: string, pieces: seq<string>)
    ensures StripEach(tail, Prefixed(tail, pieces)) == Some(pieces)
    decreases |pieces|
  {
    if pieces != [] {
      StripEachPrefixed(tail, pieces[1..]);
      assert Prefixed(tail, pieces)[1..] == Prefixed(tail, pieces[1..]);
      assert (tail + pieces[0])[|tail|..] == pieces[0];
      assert pieces == [pieces[0]] + pieces[1..];
    }
  }

  /** Stripping the tails that a join added gives the parts back. */
  lemma StripAfterFirstPrefixed(tail: string, parts: seq<string>)
    requires |parts| >= 1
    ensures StripAfterFirst(tail, [parts[0]] + Prefixed(tail, parts[1..])) == Some(parts)
  {
    var pieces := [parts[0]] + Prefixed(tail, parts[1..]);
    assert pieces[1..] == Prefixed(tail, parts[1..]);
    StripEachPrefixed(tail, parts[1..]);
    assert parts == [parts[0]] + parts[1..];
  }

  /** Round trip: a list of pieces free of `c`, joined with `[c] + tail`, is recovered
      exactly by `Unjoin`. */
  lemma UnjoinJoin(c: char, tail: string, parts: seq<string>)
    requires |parts| >= 1 && c !in tail
    requires forall i :: 0 <= i < |parts| ==> c !in parts[i]
    ensures Unjoin(c, tail, Join([c] + tail, parts)) == Some(parts)
  {
    SplitJoin(c, tail, parts);
    StripAfterFirstPrefixed(tail, parts);
  }

  /** A character in neither the separator nor any piece is not in the join. */
  lemma {:induction false} JoinAvoids(c: char, sep: string, parts: seq<string>)
    requires c !in sep
    requires forall i :: 0 <= i < |parts| ==> c !in parts[i]
    ensures c !in Join(sep, parts)
    decreases |parts|
  {
    if |parts| > 1 {
      JoinAvoids(c, sep, parts[1..]);
    }
  }
}
