/**
  `sep.join(parts)`: the texts laid end to end with the separator between
  each neighbouring pair and nowhere else.
 */
module Joining {

  /** The separator the transformation joins capitals and time zones with. */
  const Sep: string := ", "

  /** The joined text. JoinLength, JoinPartAt and JoinSepAfter pin it
      down completely. */
  function Join(parts: seq<string>, sep: string): string
    decreases |parts|
  {
    if |parts| == 0 then ""
    else if |parts| == 1 then parts[0]
    else parts[0] + sep + Join(parts[1..], sep)
  }

  /** Where part `i` starts in the joined text: the lengths of the parts
      before it, each followed by one separator. */
  function Offset(parts: seq<string>, sep: string, i: nat): nat
    requires i <= |parts|
  {
    if i == 0 then 0 else Offset(parts, sep, i - 1) + |parts[i - 1]| + |sep|
  }

  /** Dropping the first part moves every later offset back by that part
      and one separator. */
  lemma {:induction false} OffsetTail(parts: seq<string>, sep: string, i: nat)
    requires i < |parts|
    ensures Offset(parts, sep, i + 1) == |parts[0]| + |sep| + Offset(parts[1..], sep, i)
  {
    if i > 0 {
      OffsetTail(parts, sep, i - 1);
    }
  }

  /** The joined text is as long as all parts plus one separator fewer
      than there are parts; joining nothing gives the empty text. */
  lemma {:induction false} JoinLength(parts: seq<string>, sep: string)
    ensures parts == [] ==> Join(parts, sep) == ""
    ensures parts != [] ==> |Join(parts, sep)| + |sep| == Offset(parts, sep, |parts|)
    decreases |parts|
  {
    if |parts| > 1 {
      JoinLength(parts[1..], sep);
      OffsetTail(parts, sep, |parts| - 1);
    }
  }

  /** A slice of the right operand of a concatenation, read through the
      concatenation. */
  lemma SliceOfRight(a: string, b: string, lo: nat, hi: nat)
    requires lo <= hi <= |b|
    ensures (a + b)[|a| + lo..|a| + hi] == b[lo..hi]
  {
    assert forall k | 0 <= k < hi - lo :: (a + b)[|a| + lo..|a| + hi][k] == b[lo..hi][k];
  }

  /** The left operand of a concatenation is its prefix. */
  lemma SliceOfLeft(a: string, b: string)
    ensures (a + b)[0..|a|] == a
  {
  }

  /** Part `i` stands in the joined text at its offset. */
  lemma {:induction false} JoinPartAt(parts: seq<string>, sep: string, i: nat)
    requires i < |parts|
    ensures Offset(parts, sep, i) + |parts[i]| <= |Join(parts, sep)|
    ensures Join(parts, sep)[Offset(parts, sep, i)..Offset(parts, sep, i) + |parts[i]|] == parts[i]
    decreases |parts|
  {
    if |parts| > 1 {
      var tail := parts[1..];
      var head, rest := parts[0] + sep, Join(tail, sep);
      assert Join(parts, sep) == head + rest;
      if i == 0 {
        assert Offset(parts, sep, 0) == 0;
        SliceOfLeft(parts[0], sep + rest);
        assert head + rest == parts[0] + (sep + rest);
        assert Join(parts, sep)[0..|parts[0]|] == parts[0];
      } else {
        assert tail[i - 1] == parts[i];
        JoinPartAt(tail, sep, i - 1);
        OffsetTail(parts, sep, i - 1);
        var lo := Offset(tail, sep, i - 1);
        assert Offset(parts, sep, i) == |head| + lo;
        SliceOfRight(head, rest, lo, lo + |parts[i]|);
        assert Join(parts, sep)[|head| + lo..|head| + lo + |parts[i]|] == parts[i];
      }
    } else {
      assert Join(parts, sep) == parts[0] && Offset(parts, sep, i) == 0;
      SliceOfLeft(parts[0], "");
      assert parts[0] + "" == parts[0];
    }
  }

  /** A separator follows part `i` exactly when another part comes after
      it: between the end of part `i` and the start of part `i + 1` stands
      the separator. With JoinPartAt and JoinLength this determines the
      joined text completely. */
  lemma {:induction false} JoinSepAfter(parts: seq<string>, sep: string, i: nat)
    requires i + 1 < |parts|
    ensures Offset(parts, sep, i + 1) <= |Join(parts, sep)|
    ensures Join(parts, sep)[Offset(parts, sep, i) + |parts[i]|..Offset(parts, sep, i + 1)] == sep
    decreases |parts|
  {
    var head, rest := parts[0] + sep, Join(parts[1..], sep);
    assert Join(parts, sep) == head + rest;
    if i == 0 {
      assert (parts[0] + sep + rest)[|parts[0]|..|parts[0]| + |sep|] == sep;
    } else {
      JoinSepAfter(parts[1..], sep, i - 1);
      OffsetTail(parts, sep, i - 1);
      OffsetTail(parts, sep, i);
      var lo := Offset(parts[1..], sep, i - 1) + |parts[i]|;
      SliceOfRight(head, rest, lo, Offset(parts[1..], sep, i));
    }
  }
}
