/**
 * The .NET string operations the cleaner's parsing code relies on:
 * `char.IsWhiteSpace`, `string.IsNullOrWhiteSpace`, `Trim`, ordinal
 * case-insensitive comparison, `IndexOf` and `Split(..., RemoveEmptyEntries)`.
 */
module Text {

  /** `char.IsWhiteSpace`: the Unicode space separators plus the control
      characters 0x09-0x0D, 0x85, and the line and paragraph separators. */
  predicate IsWhiteSpace(c: char)
  {
    ('\t' <= c <= '\r') || c == ' ' || c == '\U{85}' || c == '\U{A0}' || c == '\U{1680}'
    || ('\U{2000}' <= c <= '\U{200A}') || c == '\U{2028}' || c == '\U{2029}'
    || c == '\U{202F}' || c == '\U{205F}' || c == '\U{3000}'
  }

  /** `string.IsNullOrWhiteSpace` on a non-null string. */
  predicate IsBlank(s: string)
  {
    forall i :: 0 <= i < |s| ==> IsWhiteSpace(s[i])
  }

  /** The first position at or after `i` that is not white space, or |s|. */
  function SkipWhiteSpace(s: string, i: nat): (a: nat)
    requires i <= |s|
    decreases |s| - i
    ensures i <= a <= |s|
    ensures forall k :: i <= k < a ==> IsWhiteSpace(s[k])
    ensures a < |s| ==> !IsWhiteSpace(s[a])
  {
    if i == |s| || !IsWhiteSpace(s[i]) then i else SkipWhiteSpace(s, i + 1)
  }

  /** Scanning down from `j` to `a`, the end of the last character that is not white space. */
  function SkipWhiteSpaceBack(s: string, a: nat, j: nat): (b: nat)
    requires a <= j <= |s|
    decreases j
    ensures a <= b <= j
    ensures forall k :: b <= k < j ==> IsWhiteSpace(s[k])
    ensures b > a ==> !IsWhiteSpace(s[b - 1])
  {
    if j == a || !IsWhiteSpace(s[j - 1]) then j else SkipWhiteSpaceBack(s, a, j - 1)
  }

  /** Where the text that `Trim` keeps starts in its input. */
  function TrimStartIndex(s: string): nat
  {
    SkipWhiteSpace(s, 0)
  }

  /** Where the text that `Trim` keeps ends in its input. */
  function TrimEndIndex(s: string): nat
  {
    SkipWhiteSpaceBack(s, TrimStartIndex(s), |s|)
  }

  /** `Trim()`: drops white space at both ends. */
  function Trim(s: string): (r: string)
  {
    s[TrimStartIndex(s)..TrimEndIndex(s)]
  }

  /** What `Trim` returns is bounded by characters that are not white space, and
      everything it removed is white space. */
  lemma TrimIsSlice(s: string)
    ensures TrimStartIndex(s) <= TrimEndIndex(s) <= |s|
    ensures forall i :: 0 <= i < TrimStartIndex(s) ==> IsWhiteSpace(s[i])
    ensures forall i :: TrimEndIndex(s) <= i < |s| ==> IsWhiteSpace(s[i])
    ensures Trim(s) != [] ==> !IsWhiteSpace(Trim(s)[0]) && !IsWhiteSpace(Trim(s)[|Trim(s)| - 1])
  {
  }

  /** A string is blank exactly when trimming leaves nothing. */
  lemma BlankIffTrimEmpty(s: string)
    ensures IsBlank(s) <==> Trim(s) == []
  {
    if Trim(s) != [] {
      assert s[TrimStartIndex(s)] == Trim(s)[0];
    }
  }

  /** Invariant-culture upper casing of ASCII letters; other characters are left alone. */
  function ToUpper(c: char): (r: char)
  {
    if 'a' <= c <= 'z' then (c as int - 32) as char else c
  }

  /** `string.Equals(a, b, StringComparison.OrdinalIgnoreCase)` (ASCII case folding). */
  predicate EqualsIgnoreCase(a: string, b: string)
  {
    |a| == |b| && forall i :: 0 <= i < |a| ==> ToUpper(a[i]) == ToUpper(b[i])
  }

  /** `s.StartsWith(p, StringComparison.OrdinalIgnoreCase)`. */
  predicate StartsWithIgnoreCase(s: string, p: string)
  {
    |p| <= |s| && EqualsIgnoreCase(s[..|p|], p)
  }

  /** `s.IndexOf(c, from)`: the first position at or after `from` holding `c`, or -1. */
  function IndexOfChar(s: string, c: char, from: nat): (r: int)
    decreases |s| - from
    ensures -1 <= r < |s|
    ensures r >= 0 ==> from <= r && s[r] == c
    ensures forall i :: from <= i < |s| && (r < 0 || i < r) ==> s[i] != c
  {
    if from >= |s| then -1
    else if s[from] == c then from
    else IndexOfChar(s, c, from + 1)
  }

  /** `s.IndexOf(p, from, StringComparison.OrdinalIgnoreCase)`: the first position at or
      after `from` where `p` starts, up to case, or -1. */
  function IndexOfIgnoreCase(s: string, p: string, from: nat): (r: int)
    decreases |s| - from
    ensures -1 <= r && (r >= 0 ==> r + |p| <= |s|)
    ensures r >= 0 ==> from <= r && StartsWithIgnoreCase(s[r..], p)
    ensures forall i :: from <= i <= |s| - |p| && (r < 0 || i < r) ==> !StartsWithIgnoreCase(s[i..], p)
  {
    if from + |p| > |s| then -1
    else if StartsWithIgnoreCase(s[from..], p) then from
    else IndexOfIgnoreCase(s, p, from + 1)
  }

  /** Whether some element of `xs` equals `x` up to case (membership in a .NET
      `HashSet` built with `StringComparer.OrdinalIgnoreCase`). */
  predicate ContainsIgnoreCase(xs: seq<string>, x: string)
  {
    exists i :: 0 <= i < |xs| && EqualsIgnoreCase(xs[i], x)
  }

  /** No two elements of `xs` are equal up to case. */
  predicate DistinctIgnoreCase(xs: seq<string>)
  {
    forall i, j :: 0 <= i < j < |xs| ==> !EqualsIgnoreCase(xs[i], xs[j])
  }

  /** Equality up to case is symmetric and transitive. */
  lemma EqualsIgnoreCaseIsEquivalence(a: string, b: string, c: string)
    ensures EqualsIgnoreCase(a, a)
    ensures EqualsIgnoreCase(a, b) ==> EqualsIgnoreCase(b, a)
    ensures EqualsIgnoreCase(a, b) && EqualsIgnoreCase(b, c) ==> EqualsIgnoreCase(a, c)
  {
  }

  /** `HashSet<string>.Add` on a set built with `StringComparer.OrdinalIgnoreCase`:
      `x` joins unless an element equal to it up to case is already there. */
  function AddIgnoreCase(xs: seq<string>, x: string): (r: seq<string>)
  {
    if ContainsIgnoreCase(xs, x) then xs else xs + [x]
  }

  /** After the addition the set holds `x` up to case, holds what it held before and
      nothing else, and still has no two elements equal up to case. */
  lemma AddIgnoreCaseShape(xs: seq<string>, x: string)
    ensures ContainsIgnoreCase(AddIgnoreCase(xs, x), x)
    ensures forall y :: y in AddIgnoreCase(xs, x) <==> y in xs || (y == x && !ContainsIgnoreCase(xs, x))
    ensures DistinctIgnoreCase(xs) ==> DistinctIgnoreCase(AddIgnoreCase(xs, x))
  {
    var r := AddIgnoreCase(xs, x);
    if !ContainsIgnoreCase(xs, x) {
      assert r[|xs|] == x;
      EqualsIgnoreCaseIsEquivalence(x, x, x);
      if DistinctIgnoreCase(xs) {
        forall i, j | 0 <= i < j < |r|
          ensures !EqualsIgnoreCase(r[i], r[j])
        {
          if j == |xs| {
            assert r[i] == xs[i];
          } else {
            assert r[i] == xs[i] && r[j] == xs[j];
          }
        }
      }
    } else {
      var i :| 0 <= i < |xs| && EqualsIgnoreCase(xs[i], x);
    }
  }

  /** What the set held up to case, it still holds after an addition. */
  lemma AddIgnoreCaseKeeps(xs: seq<string>, x: string, y: string)
    requires ContainsIgnoreCase(xs, y)
    ensures ContainsIgnoreCase(AddIgnoreCase(xs, x), y)
  {
    var j :| 0 <= j < |xs| && EqualsIgnoreCase(xs[j], y);
    assert AddIgnoreCase(xs, x)[j] == xs[j];
  }

  predicate IsLineBreak(c: char)
  {
    c == '\r' || c == '\n'
  }

  /** Position of the first line break in `s`, or |s|. */
  function LineEnd(s: string): (n: nat)
    ensures n <= |s| && (n < |s| ==> IsLineBreak(s[n]))
    ensures forall i :: 0 <= i < n ==> !IsLineBreak(s[i])
  {
    if s == [] || IsLineBreak(s[0]) then 0 else 1 + LineEnd(s[1..])
  }

  /** `s.Split(new[] { '\r', '\n' }, StringSplitOptions.RemoveEmptyEntries)`: the maximal
      runs of characters that are not line breaks, in order. */
  function Lines(s: string): (r: seq<string>)
    decreases |s|
  {
    if s == [] then []
    else if IsLineBreak(s[0]) then Lines(s[1..])
    else
      var n := LineEnd(s);
      [s[..n]] + Lines(s[n..])
  }

  /** No line is empty and no line holds a break. */
  lemma {:induction false} LinesShape(s: string)
    decreases |s|
    ensures forall k :: 0 <= k < |Lines(s)| ==> Lines(s)[k] != [] && NoLineBreak(Lines(s)[k])
  {
    if s == [] {
    } else if IsLineBreak(s[0]) {
      LinesShape(s[1..]);
    } else {
      var n := LineEnd(s);
      LinesShape(s[n..]);
      assert NoLineBreak(s[..n]);
    }
  }

  predicate NoLineBreak(line: string)
  {
    forall i :: 0 <= i < |line| ==> !IsLineBreak(line[i])
  }

  /** Every maximal run of non-break characters is one of the lines. */
  lemma {:induction false} LineIsPiece(s: string, a: nat, b: nat)
    requires a < b <= |s|
    requires a == 0 || IsLineBreak(s[a - 1])
    requires b == |s| || IsLineBreak(s[b])
    requires NoLineBreak(s[a..b])
    ensures s[a..b] in Lines(s)
    decreases |s|
  {
    if IsLineBreak(s[0]) {
      var rest := s[1..];
      assert a > 0 && 0 < b;
      assert a - 1 == 0 || rest[a - 2] == s[a - 1];
      assert b - 1 == |rest| || rest[b - 1] == s[b];
      assert rest[a - 1..b - 1] == s[a..b];
      LineIsPiece(rest, a - 1, b - 1);
      assert Lines(s) == Lines(rest);
    } else {
      var n := LineEnd(s);
      if a == 0 {
        forall k | 0 <= k < b
          ensures !IsLineBreak(s[k])
        {
          assert s[a..b][k] == s[k];
        }
        assert n == b;
        assert Lines(s) == [s[..n]] + Lines(s[n..]);
      } else {
        assert n < a;
        var rest := s[n..];
        assert |rest| == |s| - n;
        assert rest[a - n - 1] == s[a - 1];
        assert b - n == |rest| || rest[b - n] == s[b];
        assert rest[a - n..b - n] == s[a..b];
        LineIsPiece(rest, a - n, b - n);
        assert Lines(s) == [s[..n]] + Lines(rest);
      }
    }
  }
}
