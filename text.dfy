/**
 * The pieces of Python's `str` that the forecaster uses: `str.lower`
 * (restricted to ASCII), `sep.join(parts)` and, as the inverse that a
 * query-string reader applies, `s.split(c)` on a single character.
 */
module Text {

  predicate IsAsciiUpper(c: char) { 'A' <= c <= 'Z' }

  /** `str.lower` on one character, for the ASCII range only. */
  function LowerChar(c: char): char
  {
    if IsAsciiUpper(c) then (c as int + 32) as char else c
  }

  /** `s.lower()`: every ASCII capital becomes its small letter, nothing else moves. */
  function Lower(s: string): (r: string)
    ensures |r| == |s|
    ensures forall i :: 0 <= i < |s| ==> !IsAsciiUpper(r[i])
    ensures forall i :: 0 <= i < |s| && !IsAsciiUpper(s[i]) ==> r[i] == s[i]
    ensures forall i :: 0 <= i < |s| && IsAsciiUpper(s[i]) ==> r[i] as int == s[i] as int + 32
  {
    seq(|s|, i requires 0 <= i < |s| => LowerChar(s[i]))
  }

  /** Lower-casing twice is lower-casing once. */
  lemma LowerIdempotent(s: string)
    ensures Lower(Lower(s)) == Lower(s)
  {
    var once := Lower(s);
    var twice := Lower(once);
    forall i | 0 <= i < |s| ensures twice[i] == once[i] {
      assert !IsAsciiUpper(once[i]);
    }
  }

  /** `sep.join(parts)`: the parts in order with `sep` between consecutive ones. */
  function Join(parts: seq<string>, sep: string): string
    decreases |parts|
  {
    if |parts| == 0 then ""
    else if |parts| == 1 then parts[0]
    else Join(parts[..|parts| - 1], sep) + sep + parts[|parts| - 1]
  }

  /** Where part `i` starts in `Join(parts, sep)`: the earlier parts, each followed by a separator. */
  function Offset(parts: seq<string>, sep: string, i: nat): nat
    requires i <= |parts|
  {
    if i == 0 then 0 else Offset(parts, sep, i - 1) + |parts[i - 1]| + |sep|
  }

  lemma {:induction false} OffsetPrefix(parts: seq<string>, sep: string, n: nat, i: nat)
    requires i <= n <= |parts|
    ensures Offset(parts[..n], sep, i) == Offset(parts, sep, i)
  {
    if i > 0 {
      OffsetPrefix(parts, sep, n, i - 1);
    }
  }

  /** The length of a join: every part plus one separator fewer than there are parts. */
  lemma {:induction false} JoinLength(parts: seq<string>, sep: string)
    requires |parts| >= 1
    ensures |Join(parts, sep)| == Offset(parts, sep, |parts| - 1) + |parts[|parts| - 1]|
  {
    var n := |parts|;
    if n > 1 {
      var init := parts[..n - 1];
      JoinLength(init, sep);
      OffsetPrefix(parts, sep, n - 1, n - 2);
    }
  }

  /**
   * The layout of `sep.join(parts)`: part `i` sits at `Offset(parts, sep, i)`,
   * and exactly one separator follows every part but the last.
   */
  lemma {:induction false} JoinAt(parts: seq<string>, sep: string, i: nat)
    requires i < |parts|
    ensures Offset(parts, sep, i) + |parts[i]| <= |Join(parts, sep)|
    ensures Join(parts, sep)[Offset(parts, sep, i)..Offset(parts, sep, i) + |parts[i]|] == parts[i]
    ensures i + 1 < |parts| ==>
      && Offset(parts, sep, i + 1) <= |Join(parts, sep)|
      && Join(parts, sep)[Offset(parts, sep, i) + |parts[i]|..Offset(parts, sep, i + 1)] == sep
    decreases |parts|, 1
  {
    if |parts| == 1 {
    } else if i < |parts| - 1 {
      JoinAtEarlier(parts, sep, i);
      JoinSepAfter(parts, sep, i);
    } else {
      JoinAtLast(parts, sep);
    }
  }

  /** The last part follows the join of the others and one separator. */
  lemma JoinAtLast(parts: seq<string>, sep: string)
    requires |parts| > 1
    ensures var n := |parts|;
      && |Join(parts[..n - 1], sep)| + |sep| == Offset(parts, sep, n - 1)
      && Join(parts, sep) == Join(parts[..n - 1], sep) + sep + parts[n - 1]
      && Offset(parts, sep, n - 1) + |parts[n - 1]| == |Join(parts, sep)|
      && Join(parts, sep)[Offset(parts, sep, n - 1)..] == parts[n - 1]
  {
    var n := |parts|;
    var init := parts[..n - 1];
    JoinLength(init, sep);
    OffsetPrefix(parts, sep, n - 1, n - 2);
  }

  /** An earlier part sits where it sits in the join of all parts but the last. */
  lemma {:induction false} JoinAtEarlier(parts: seq<string>, sep: string, i: nat)
    requires i < |parts| - 1
    ensures Offset(parts, sep, i) + |parts[i]| <= |Join(parts, sep)|
    ensures Join(parts, sep)[Offset(parts, sep, i)..Offset(parts, sep, i) + |parts[i]|] == parts[i]
    decreases |parts|, 0
  {
    var n := |parts|;
    var init := parts[..n - 1];
    var head := Join(init, sep);
    JoinAtLast(parts, sep);
    JoinAt(init, sep, i);
    OffsetPrefix(parts, sep, n - 1, i);
    assert init[i] == parts[i];
    var o := Offset(parts, sep, i);
    var rest := sep + parts[n - 1];
    assert Join(parts, sep) == head + rest;
    SliceLeft(head, rest, o, o + |parts[i]|);
  }

  /** The separator after an earlier part. */
  lemma {:induction false} JoinSepAfter(parts: seq<string>, sep: string, i: nat)
    requires i < |parts| - 1
    ensures Offset(parts, sep, i + 1) <= |Join(parts, sep)|
    ensures Join(parts, sep)[Offset(parts, sep, i) + |parts[i]|..Offset(parts, sep, i + 1)] == sep
    decreases |parts|, 0
  {
    var n := |parts|;
    var init := parts[..n - 1];
    var head := Join(init, sep);
    JoinAtLast(parts, sep);
    JoinAt(init, sep, i);
    OffsetPrefix(parts, sep, n - 1, i);
    assert init[i] == parts[i];
    var o := Offset(parts, sep, i);
    var rest := sep + parts[n - 1];
    assert Join(parts, sep) == head + rest;
    if i + 1 < n - 1 {
      OffsetPrefix(parts, sep, n - 1, i + 1);
      SliceLeft(head, rest, o + |parts[i]|, Offset(parts, sep, i + 1));
    } else {
      JoinLength(init, sep);
      assert o + |parts[i]| == |head|;
      SliceRight(head, rest, |head|, |head| + |sep|);
    }
  }

  lemma SliceLeft(a: string, b: string, lo: nat, hi: nat)
    requires lo <= hi <= |a|
    ensures (a + b)[lo..hi] == a[lo..hi]
  {
  }

  lemma SliceRight(a: string, b: string, lo: nat, hi: nat)
    requires |a| <= lo <= hi <= |a| + |b|
    ensures (a + b)[lo..hi] == b[lo - |a|..hi - |a|]
  {
  }

  /** A join starts with its first part and ends with its last: no separator at either end. */
  lemma JoinEnds(parts: seq<string>, sep: string)
    requires |parts| >= 1
    ensures |parts[0]| <= |Join(parts, sep)|
    ensures Join(parts, sep)[..|parts[0]|] == parts[0]
    ensures |parts[|parts| - 1]| <= |Join(parts, sep)|
    ensures Join(parts, sep)[|Join(parts, sep)| - |parts[|parts| - 1]|..] == parts[|parts| - 1]
  {
    JoinAt(parts, sep, 0);
    JoinAt(parts, sep, |parts| - 1);
    JoinLength(parts, sep);
  }

  /** `s.split(c)`: the maximal runs between occurrences of `c`; never empty. */
  function Split(s: string, c: char): (r: seq<string>)
    ensures |r| >= 1
  {
    if |s| == 0 then [""]
    else if s[0] == c then [""] + Split(s[1..], c)
    else
      var rest := Split(s[1..], c);
      [[s[0]] + rest[0]] + rest[1..]
  }

  /** A string without `c` splits into itself. */
  lemma {:induction false} SplitNone(s: string, c: char)
    requires c !in s
    ensures Split(s, c) == [s]
  {
    if |s| > 0 {
      SplitNone(s[1..], c);
      assert [s[0]] + s[1..] == s;
    }
  }

  /** Splitting distributes over one occurrence of the delimiter. */
  lemma {:induction false} SplitAround(a: string, c: char, b: string)
    ensures Split(a + [c] + b, c) == Split(a, c) + Split(b, c)
  {
    var s := a + [c] + b;
    if |a| == 0 {
      assert s[0] == c && s[1..] == b;
    } else {
      assert s[0] == a[0];
      assert s[1..] == a[1..] + [c] + b;
      SplitAround(a[1..], c, b);
    }
  }

  /** A string with one occurrence of the delimiter splits into the two sides. */
  lemma SplitPair(a: string, c: char, b: string)
    requires c !in a && c !in b
    ensures Split(a + [c] + b, c) == [a, b]
  {
    SplitAround(a, c, b);
    SplitNone(a, c);
    SplitNone(b, c);
  }

  /** Split undoes Join when no part holds the one-character separator. */
  lemma {:induction false} SplitJoin(parts: seq<string>, c: char)
    requires |parts| >= 1
    requires forall i :: 0 <= i < |parts| ==> c !in parts[i]
    ensures Split(Join(parts, [c]), c) == parts
  {
    var n := |parts|;
    if n == 1 {
      SplitNone(parts[0], c);
    } else {
      var init := parts[..n - 1];
      SplitJoin(init, c);
      SplitAround(Join(init, [c]), c, parts[n - 1]);
      SplitNone(parts[n - 1], c);
      assert init + [parts[n - 1]] == parts;
    }
  }
}
