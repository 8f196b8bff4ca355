/**
 * The string operations of Python that the service relies on: the substring
 * test `t in s`, `"".join(parts)` and `str.splitlines(True)`.
 */
module Text {

  /** `t` is a prefix of `s`. */
  predicate IsPrefix(t: string, s: string)
  {
    |t| <= |s| && s[..|t|] == t
  }

  /** `t` occurs in `s` starting at index `i`. */
  predicate OccursAt(s: string, t: string, i: int)
  {
    0 <= i && i + |t| <= |s| && s[i..i + |t|] == t
  }

  /** Python's `t in s` on strings: `t` is a contiguous substring of `s`, tried at every start index. */
  predicate Contains(s: string, t: string)
    decreases |s|
  {
    IsPrefix(t, s) || (s != [] && Contains(s[1..], t))
  }

  /** `Contains` agrees with the declarative reading "some index of `s` starts an occurrence of `t`". */
  lemma {:induction false} ContainsIff(s: string, t: string)
    ensures Contains(s, t) <==> exists i :: OccursAt(s, t, i)
    decreases |s|
  {
    if s == [] {
      if t == [] {
        assert OccursAt(s, t, 0);
      }
    } else {
      ContainsIff(s[1..], t);
      if IsPrefix(t, s) {
        assert OccursAt(s, t, 0);
      }
      if Contains(s[1..], t) {
        var i :| OccursAt(s[1..], t, i);
        assert s[1..][i..i + |t|] == s[i + 1..i + 1 + |t|];
        assert OccursAt(s, t, i + 1);
      }
      if i :| OccursAt(s, t, i) && i > 0 {
        assert s[1..][i - 1..i - 1 + |t|] == s[i..i + |t|];
        assert OccursAt(s[1..], t, i - 1);
      }
    }
  }

  /** Text printed later cannot remove an occurrence: `t in a` implies `t in a + b` and `t in b + a`. */
  lemma ContainsExtends(a: string, b: string, t: string)
    ensures Contains(a, t) ==> Contains(a + b, t) && Contains(b + a, t)
  {
    ContainsIff(a, t);
    ContainsIff(a + b, t);
    ContainsIff(b + a, t);
    if Contains(a, t) {
      var i :| OccursAt(a, t, i);
      assert (a + b)[i..i + |t|] == a[i..i + |t|];
      assert OccursAt(a + b, t, i);
      assert (b + a)[|b| + i..|b| + i + |t|] == a[i..i + |t|];
      assert OccursAt(b + a, t, |b| + i);
    }
  }

  /** A string shorter than `t` cannot contain it. */
  lemma ContainsNeedsLength(s: string, t: string)
    ensures |s| < |t| ==> !Contains(s, t)
  {
    ContainsIff(s, t);
  }

  /** Python's `"".join(parts)`. */
  function Concat(parts: seq<string>): string
  {
    if parts == [] then [] else parts[0] + Concat(parts[1..])
  }

  /** Joining two lists of parts is joining each and concatenating the results. */
  lemma {:induction false} ConcatAppend(a: seq<string>, b: seq<string>)
    ensures Concat(a + b) == Concat(a) + Concat(b)
  {
    if a == [] {
      assert a + b == b;
    } else {
      assert (a + b)[0] == a[0];
      assert (a + b)[1..] == a[1..] + b;
      ConcatAppend(a[1..], b);
    }
  }

  /** Extending a list with the lines of `text` extends its joined text by `text`. */
  lemma ExtendWithLines(lines: seq<string>, text: string)
    ensures Concat(lines + SplitLinesKeepEnds(text)) == Concat(lines) + text
  {
    ConcatAppend(lines, SplitLinesKeepEnds(text));
    SplitLinesLossless(text);
  }

  /** Appending one part appends its text. */
  lemma AppendPart(parts: seq<string>, part: string)
    ensures Concat(parts + [part]) == Concat(parts) + part
  {
    ConcatAppend(parts, [part]);
    assert [part][1..] == [];
  }

  /** The characters at which `str.splitlines` ends a line. */
  predicate IsLineBoundary(c: char)
  {
    c == '\n' || c == '\r' || c == '\U{0B}' || c == '\U{0C}' || c == '\U{1C}' || c == '\U{1D}'
    || c == '\U{1E}' || c == '\U{85}' || c == '\U{2028}' || c == '\U{2029}'
  }

  /**
   * The length of the first line of a non-empty `s`, its terminator included;
   * a carriage return followed by a line feed is one terminator.
   */
  function FirstLineLength(s: string): (n: nat)
    requires s != []
    ensures 0 < n <= |s|
    ensures n < |s| ==> IsLineBoundary(s[n - 1])
    ensures n < |s| && s[n - 1] == '\r' ==> s[n] != '\n'
    ensures forall j :: 0 <= j < n - 1 ==> !IsLineBoundary(s[j]) || (j == n - 2 && s[j] == '\r' && s[n - 1] == '\n')
    decreases |s|
  {
    if IsLineBoundary(s[0]) then
      if s[0] == '\r' && |s| > 1 && s[1] == '\n' then 2 else 1
    else if |s| == 1 then 1
    else
      var m := FirstLineLength(s[1..]);
      assert forall j :: 1 <= j < m ==> s[1..][j - 1] == s[j];
      assert s[1..][m - 1] == s[m];
      1 + m
  }

  /** Python's `s.splitlines(True)`: the lines of `s`, each keeping its terminator. */
  function SplitLinesKeepEnds(s: string): (lines: seq<string>)
    ensures lines == [] <==> s == []
    ensures forall i :: 0 <= i < |lines| ==> lines[i] != []
    decreases |s|
  {
    if s == [] then []
    else
      var n := FirstLineLength(s);
      [s[..n]] + SplitLinesKeepEnds(s[n..])
  }

  /** Splitting into lines with their terminators and joining again gives back the text. */
  lemma {:induction false} SplitLinesLossless(s: string)
    ensures Concat(SplitLinesKeepEnds(s)) == s
    decreases |s|
  {
    if s != [] {
      var n := FirstLineLength(s);
      var first, rest := s[..n], SplitLinesKeepEnds(s[n..]);
      assert SplitLinesKeepEnds(s) == [first] + rest;
      ConcatCons(first, rest);
      SplitLinesLossless(s[n..]);
      assert first + s[n..] == s;
    }
  }

  /** Joining a part in front of a list puts its text in front. */
  lemma ConcatCons(part: string, parts: seq<string>)
    ensures Concat([part] + parts) == part + Concat(parts)
  {
    assert ([part] + parts)[0] == part && ([part] + parts)[1..] == parts;
  }
}
