/**
 * The JavaScript string primitives the task loop relies on, over `string`
 * (a sequence of UTF-16 code units is modelled as a sequence of `char`).
 */
module Strings {

  /** `sub` occurs in `s` starting at position `k`. */
  predicate OccursAt(sub: string, s: string, k: nat) {
    k + |sub| <= |s| && s[k..k + |sub|] == sub
  }

  /** `sub` occurs somewhere inside `s`. */
  ghost predicate Infix(sub: string, s: string) {
    exists k: nat :: OccursAt(sub, s, k)
  }

  /** Occurring inside an occurrence is occurring. */
  lemma InfixTransitive(a: string, b: string, c: string)
    requires Infix(a, b) && Infix(b, c)
    ensures Infix(a, c)
  {
    var i: nat :| OccursAt(a, b, i);
    var j: nat :| OccursAt(b, c, j);
    forall k | 0 <= k < |a|
      ensures c[j + i + k] == a[k]
    {
      assert a[k] == b[i..i + |a|][k] == b[i + k];
      assert b[i + k] == c[j..j + |b|][i + k];
    }
    assert c[j + i..j + i + |a|] == a;
    assert OccursAt(a, c, j + i);
  }

  /** Text around an occurrence does not remove it. */
  lemma InfixSurrounded(sub: string, s: string, before: string, after: string)
    requires Infix(sub, s)
    ensures Infix(sub, before + s + after)
  {
    var i: nat :| OccursAt(sub, s, i);
    var t := before + s + after;
    assert t[|before| + i..|before| + i + |sub|] == s[i..i + |sub|];
    assert OccursAt(sub, t, |before| + i);
  }

  // ---------------------------------------------------------------------------
  // Array.prototype.join

  /** `parts.join(sep)`: the parts in order, with `sep` between neighbours. */
  function Join(parts: seq<string>, sep: string): string {
    if |parts| == 0 then ""
    else if |parts| == 1 then parts[0]
    else parts[0] + sep + Join(parts[1..], sep)
  }

  /** Every part of a join stands, unchanged, inside the joined text. */
  lemma {:induction false} JoinHasPart(parts: seq<string>, sep: string, i: nat)
    requires i < |parts|
    ensures Infix(parts[i], Join(parts, sep))
  {
    var k := JoinOffset(parts, sep, i);
    assert OccursAt(parts[i], Join(parts, sep), k);
  }

  /**
   * The position at which part `i` starts inside `Join(parts, sep)`: right
   * after the join of the parts before it and the separator that follows them.
   */
  lemma {:induction false} JoinOffset(parts: seq<string>, sep: string, i: nat) returns (k: nat)
    requires i < |parts|
    ensures k == |Join(parts[..i], sep)| + (if i == 0 then 0 else |sep|)
    ensures k + |parts[i]| <= |Join(parts, sep)|
    ensures Join(parts, sep)[k..k + |parts[i]|] == parts[i]
  {
    if |parts| == 1 {
      k := 0;
    } else if i == 0 {
      k := 0;
      assert Join(parts, sep) == parts[0] + (sep + Join(parts[1..], sep));
    } else {
      var k' := JoinOffset(parts[1..], sep, i - 1);
      var head := parts[0] + sep;
      var tail := Join(parts[1..], sep);
      assert Join(parts, sep) == head + tail;
      k := |head| + k';
      SliceBehind(head, tail, k', |parts[i]|);
      JoinPrefixLength(parts, sep, i);
    }
  }

  /** A slice of `b` is the same slice of `a + b`, shifted by `|a|`. */
  lemma SliceBehind(a: string, b: string, j: nat, n: nat)
    requires j + n <= |b|
    ensures (a + b)[|a| + j..|a| + j + n] == b[j..j + n]
  {
  }

  /** The join of the first `i` parts: the first part, then the join of the rest behind a separator. */
  lemma JoinPrefixLength(parts: seq<string>, sep: string, i: nat)
    requires 1 <= i <= |parts|
    ensures |Join(parts[..i], sep)| == |parts[0]| + (if i == 1 then 0 else |sep| + |Join(parts[1..][..i - 1], sep)|)
  {
    var prefix := parts[..i];
    if i > 1 {
      assert prefix[1..] == parts[1..][..i - 1];
    }
  }

  // ---------------------------------------------------------------------------
  // Counting a character, and String.prototype.split on one character

  /** How many times `c` occurs in `s`. */
  function Count(s: string, c: char): nat {
    if s == [] then 0 else (if s[0] == c then 1 else 0) + Count(s[1..], c)
  }

  /** A character that does not occur is counted zero times. */
  lemma {:induction false} CountAbsent(s: string, c: char)
    requires c !in s
    ensures Count(s, c) == 0
  {
    if s != [] {
      assert s[0] in s;
      assert forall x :: x in s[1..] ==> x in s;
      CountAbsent(s[1..], c);
    }
  }

  lemma {:induction false} CountAppend(a: string, b: string, c: char)
    ensures Count(a + b, c) == Count(a, c) + Count(b, c)
  {
    if a == [] {
      assert a + b == b;
    } else {
      assert (a + b)[1..] == a[1..] + b;
      CountAppend(a[1..], b, c);
    }
  }

  /** A marker followed by text free of it holds the marker once. */
  lemma CountMarkerThenText(s: string, c: char, text: string)
    requires s == [c] + text
    requires c !in text
    ensures Count(s, c) == 1
  {
    assert s[1..] == text;
    CountAbsent(text, c);
  }

  /**
   * `s.split(c)` for a one-character separator: the maximal pieces of `s`
   * between occurrences of `c`. The empty string splits into one empty piece.
   */
  function Split(s: string, c: char): (pieces: seq<string>)
    ensures |pieces| >= 1
    ensures forall i :: 0 <= i < |pieces| ==> c !in pieces[i]
  {
    if s == [] then [[]]
    else if s[0] == c then [[]] + Split(s[1..], c)
    else
      var rest := Split(s[1..], c);
      [[s[0]] + rest[0]] + rest[1..]
  }

  /** `s.split(c).length - 1` counts the occurrences of `c` in `s`. */
  lemma {:induction false} SplitLength(s: string, c: char)
    ensures |Split(s, c)| == Count(s, c) + 1
  {
    if s != [] {
      SplitLength(s[1..], c);
    }
  }

  /** Splitting loses nothing: joining the pieces with `c` gives `s` back. */
  lemma {:induction false} SplitJoin(s: string, c: char)
    ensures Join(Split(s, c), [c]) == s
  {
    if s != [] {
      var rest := Split(s[1..], c);
      SplitJoin(s[1..], c);
      if s[0] == c {
        assert Split(s, c) == [[]] + rest;
        assert ([[]] + rest)[1..] == rest;
      } else {
        var pieces := Split(s, c);
        assert pieces == [[s[0]] + rest[0]] + rest[1..];
        if |rest| == 1 {
          assert Join(rest, [c]) == rest[0];
        } else {
          assert pieces[1..] == rest[1..];
          assert Join(rest, [c]) == rest[0] + [c] + Join(rest[1..], [c]);
          assert Join(pieces, [c]) == [s[0]] + rest[0] + [c] + Join(rest[1..], [c]);
        }
        assert [s[0]] + s[1..] == s;
      }
    }
  }

  // ---------------------------------------------------------------------------
  // text.replace(/[\r\n]+/g, '')

  predicate IsLineBreak(ch: char) {
    ch == '\r' || ch == '\n'
  }

  /** The reference meaning: `s` with every CR and LF character left out, the rest kept in order. */
  function DropLineBreaks(s: string): (r: string)
    ensures |r| <= |s|
    ensures forall i :: 0 <= i < |r| ==> !IsLineBreak(r[i])
  {
    if s == [] then []
    else if IsLineBreak(s[0]) then DropLineBreaks(s[1..])
    else [s[0]] + DropLineBreaks(s[1..])
  }

  /** Length of the run of line breaks that `s` starts with. */
  function LineBreakRun(s: string): (n: nat)
    ensures n <= |s|
    ensures forall i :: 0 <= i < n ==> IsLineBreak(s[i])
    ensures n < |s| ==> !IsLineBreak(s[n])
  {
    if s != [] && IsLineBreak(s[0]) then 1 + LineBreakRun(s[1..]) else 0
  }

  /**
   * The global regular-expression replacement of the source: scanning left
   * to right, each maximal run of CR/LF characters is replaced by nothing.
   */
  function StripLineBreaks(s: string): (r: string)
    ensures |r| <= |s|
    ensures forall i :: 0 <= i < |r| ==> !IsLineBreak(r[i])
    decreases |s|
  {
    if s == [] then []
    else if IsLineBreak(s[0]) then StripLineBreaks(s[LineBreakRun(s)..])
    else [s[0]] + StripLineBreaks(s[1..])
  }

  lemma {:induction false} DropLeadingLineBreaks(s: string, n: nat)
    requires n <= |s|
    requires forall i :: 0 <= i < n ==> IsLineBreak(s[i])
    ensures DropLineBreaks(s) == DropLineBreaks(s[n..])
  {
    if n > 0 {
      assert s[1..][n - 1..] == s[n..];
      DropLeadingLineBreaks(s[1..], n - 1);
    }
  }

  /**
   * Removing runs is removing characters: the text handed to the parser has
   * no CR or LF left, and every other character of the reply, in order.
   */
  lemma {:induction false} StripLineBreaksDrops(s: string)
    ensures StripLineBreaks(s) == DropLineBreaks(s)
    ensures forall i :: 0 <= i < |StripLineBreaks(s)| ==> !IsLineBreak(StripLineBreaks(s)[i])
    decreases |s|
  {
    if s != [] {
      if IsLineBreak(s[0]) {
        var n := LineBreakRun(s);
        StripLineBreaksDrops(s[n..]);
        DropLeadingLineBreaks(s, n);
      } else {
        StripLineBreaksDrops(s[1..]);
      }
    }
  }

  /** A reply without line breaks reaches the parser unchanged. */
  lemma {:induction false} StripLineBreaksKeeps(s: string)
    requires forall i :: 0 <= i < |s| ==> !IsLineBreak(s[i])
    ensures StripLineBreaks(s) == s
  {
    if s != [] {
      StripLineBreaksKeeps(s[1..]);
    }
  }
}
