/**
 * The few JavaScript string and value semantics that the relay relies on:
 * `trim`, `includes`, `startsWith`, `toLowerCase` on Latin-1, `split(c)[0]`,
 * `replace` with a string pattern, `String(n)`, `'x'.repeat(n)` and the
 * UTF-16 `length` of a string whose characters are Unicode scalar values.
 */
module Js {

  datatype Option<+T> = None | Some(value: T)

  /**
   * Characters removed by `String.prototype.trim`: every ECMAScript
   * WhiteSpace (tab, vertical tab, form feed, the byte order mark and the
   * space separators U+0020, U+00A0, U+1680, U+2000 to U+200A, U+202F,
   * U+205F, U+3000) and LineTerminator (LF, CR, U+2028, U+2029).
   */
  predicate IsSpace(c: char) {
    c == ' ' || c == '\t' || c == '\n' || c == '\r' || c == '\U{0B}' || c == '\U{0C}'
    || c == '\U{A0}' || c == '\U{1680}' || '\U{2000}' <= c <= '\U{200A}'
    || c == '\U{2028}' || c == '\U{2029}' || c == '\U{202F}' || c == '\U{205F}'
    || c == '\U{3000}' || c == '\U{FEFF}'
  }

  function TrimStart(s: string): (r: string)
    ensures |r| <= |s| && r == s[|s| - |r|..]
    ensures r == [] || !IsSpace(r[0])
    ensures forall i :: 0 <= i < |s| - |r| ==> IsSpace(s[i])
  {
    if s != [] && IsSpace(s[0]) then TrimStart(s[1..]) else s
  }

  function TrimEnd(s: string): (r: string)
    ensures |r| <= |s| && r == s[..|r|]
    ensures r == [] || !IsSpace(r[|r| - 1])
    ensures forall i :: |r| <= i < |s| ==> IsSpace(s[i])
  {
    if s != [] && IsSpace(s[|s| - 1]) then TrimEnd(s[..|s| - 1]) else s
  }

  /** `r` is the slice of `s` at index `i`, with only white space before and after it. */
  predicate TrimmedAt(s: string, r: string, i: int) {
    0 <= i <= |s| - |r| && r == s[i..i + |r|]
    && (forall k :: 0 <= k < i ==> IsSpace(s[k]))
    && (forall k :: i + |r| <= k < |s| ==> IsSpace(s[k]))
  }

  /** `s.trim()`: the longest slice of `s` that neither starts nor ends with white space. */
  function Trim(s: string): (r: string)
    ensures |r| <= |s|
    ensures exists i :: TrimmedAt(s, r, i)
    ensures r == [] || (!IsSpace(r[0]) && !IsSpace(r[|r| - 1]))
    ensures (forall i :: 0 <= i < |s| ==> !IsSpace(s[i])) ==> r == s
    ensures r == [] <==> forall i :: 0 <= i < |s| ==> IsSpace(s[i])
  {
    var t := TrimStart(s);
    var r := TrimEnd(t);
    assert t != [] ==> t[0] == s[|s| - |t|];
    TrimBothEnds(s, t, r);
    r
  }

  /**
   * Cutting white space off the front of `s` (leaving `t`) and then off the
   * back of `t` (leaving `r`) leaves a slice of `s` with only white space around it.
   */
  lemma TrimBothEnds(s: string, t: string, r: string)
    requires |t| <= |s| && t == s[|s| - |t|..] && forall k :: 0 <= k < |s| - |t| ==> IsSpace(s[k])
    requires |r| <= |t| && r == t[..|r|] && forall k :: |r| <= k < |t| ==> IsSpace(t[k])
    ensures TrimmedAt(s, r, |s| - |t|)
  {
    var i := |s| - |t|;
    forall k | i + |r| <= k < |s| ensures IsSpace(s[k]) {
      assert s[k] == t[k - i];
    }
  }

  /** A text that neither starts nor ends with white space is its own trim. */
  lemma TrimmedIsFixed(s: string)
    requires s == [] || (!IsSpace(s[0]) && !IsSpace(s[|s| - 1]))
    ensures Trim(s) == s
  {
    assert TrimStart(s) == s;
    assert TrimEnd(s) == s;
  }

  /** `sub` occurs in `s` starting at index `i`. */
  predicate OccursAt(s: string, sub: string, i: int) {
    0 <= i && i + |sub| <= |s| && s[i..i + |sub|] == sub
  }

  /** `s.includes(sub)`. */
  predicate Contains(s: string, sub: string) {
    exists i | 0 <= i <= |s| :: OccursAt(s, sub, i)
  }

  /** `s.startsWith(p)`. */
  predicate StartsWith(s: string, p: string) {
    |p| <= |s| && s[..|p|] == p
  }

  /**
   * The capitals whose lower case lies 32 code points further: the ASCII
   * letters and the Latin-1 letters U+00C0 to U+00DE except the
   * multiplication sign U+00D7.
   */
  predicate IsBasicUpper(c: char) {
    'A' <= c <= 'Z' || ('\U{C0}' <= c <= '\U{DE}' && c != '\U{D7}')
  }

  /** `toLowerCase` on one character of the Basic Latin and Latin-1 blocks. */
  function LowerChar(c: char): (r: char)
    ensures IsBasicUpper(c) ==> r as int == c as int + 32 && !IsBasicUpper(r)
    ensures 'A' <= c <= 'Z' ==> 'a' <= r <= 'z'
    ensures !IsBasicUpper(c) ==> r == c
  {
    if IsBasicUpper(c) then (c as int + 32) as char else c
  }

  /** `s.toLowerCase()` on the Basic Latin and Latin-1 letters. */
  function Lower(s: string): (r: string)
    ensures |r| == |s| && forall i :: 0 <= i < |s| ==> r[i] == LowerChar(s[i])
  {
    seq(|s|, i requires 0 <= i < |s| => LowerChar(s[i]))
  }

  /** Latin-1 capitals lower as `toLowerCase` lowers them: "\u00C9lodie" and "\u00E9lodie" read the same once lowered. */
  lemma AccentedCapitalLowers()
    ensures Lower("\U{C9}lodie") == Lower("\U{E9}lodie") == "\U{E9}lodie"
  {
    assert LowerChar('\U{C9}') == '\U{E9}';
  }

  /** `s.length`: characters above U+FFFF count twice, being surrogate pairs in UTF-16. */
  function Utf16Length(s: string): (n: nat)
    ensures |s| <= n <= 2 * |s|
  {
    if s == [] then 0 else (if s[0] as int > 0xFFFF then 2 else 1) + Utf16Length(s[1..])
  }

  predicate IsDigit(c: char) {
    '0' <= c <= '9'
  }

  predicate AllDigits(s: string) {
    forall i :: 0 <= i < |s| ==> IsDigit(s[i])
  }

  function DigitChar(d: nat): (c: char)
    requires d < 10
    ensures IsDigit(c)
  {
    ('0' as int + d) as char
  }

  /** `String(n)` for a natural number. */
  function Decimal(n: nat): (r: string)
    ensures r != [] && AllDigits(r)
  {
    if n < 10 then [DigitChar(n)] else Decimal(n / 10) + [DigitChar(n % 10)]
  }

  /** `String(i)` (template interpolation) for any integer. */
  function IntToString(i: int): (r: string)
    ensures r != []
    ensures i >= 0 ==> AllDigits(r)
    ensures i < 0 ==> r[0] == '-'
  {
    if i < 0 then "-" + Decimal(-i) else Decimal(i)
  }

  /** `s.split(c)[0]`: everything before the first `c`, or all of `s`. */
  function BeforeFirst(s: string, c: char): (r: string)
    ensures |r| <= |s| && r == s[..|r|]
    ensures c !in r
    ensures |r| == |s| || s[|r|] == c
  {
    if s == [] || s[0] == c then [] else [s[0]] + BeforeFirst(s[1..], c)
  }

  /** The prefix before a separator that the prefix does not contain is that prefix. */
  lemma {:induction false} BeforeFirstConcat(a: string, c: char, b: string)
    requires c !in a
    ensures BeforeFirst(a + [c] + b, c) == a
    decreases |a|
  {
    if a == [] {
      assert (a + [c] + b)[0] == c;
    } else {
      assert (a + [c] + b)[0] == a[0];
      assert (a + [c] + b)[1..] == a[1..] + [c] + b;
      BeforeFirstConcat(a[1..], c, b);
    }
  }

  /** Without the separator, the prefix before it is the whole text. */
  lemma BeforeFirstAbsent(s: string, c: char)
    requires c !in s
    ensures BeforeFirst(s, c) == s
  {
  }

  /** Index of the first occurrence of `pat` in `s`, as `s.indexOf(pat)`. */
  function IndexOf(s: string, pat: string): Option<nat>
    decreases |s|
  {
    if |s| < |pat| then None
    else if s[..|pat|] == pat then Some(0)
    else
      match IndexOf(s[1..], pat)
      case None => None
      case Some(k) => Some(k + 1)
  }

  /** `IndexOf` finds the first occurrence, and finds none exactly when there is none. */
  lemma {:induction false} IndexOfSpec(s: string, pat: string)
    ensures var r := IndexOf(s, pat);
            && (r.Some? ==> OccursAt(s, pat, r.value))
            && (r.Some? ==> forall j :: 0 <= j < r.value ==> !OccursAt(s, pat, j))
            && (r.None? <==> !Contains(s, pat))
    decreases |s|
  {
    if |s| >= |pat| && s[..|pat|] != pat {
      IndexOfSpec(s[1..], pat);
      forall j | 1 <= j ensures OccursAt(s, pat, j) <==> OccursAt(s[1..], pat, j - 1) {
        OccursAtShift(s, pat, j);
      }
      assert !OccursAt(s, pat, 0);
      if IndexOf(s[1..], pat).None? {
        assert forall j | 0 <= j <= |s| :: !OccursAt(s, pat, j) by {
          forall j | 0 <= j <= |s| ensures !OccursAt(s, pat, j) {
            if j >= 1 {
              assert !OccursAt(s[1..], pat, j - 1);
            }
          }
        }
      } else {
        var k := IndexOf(s[1..], pat).value;
        assert OccursAt(s[1..], pat, k);
        assert OccursAt(s, pat, k + 1);
      }
    } else if |s| >= |pat| {
      assert OccursAt(s, pat, 0);
    } else {
      assert forall j | 0 <= j <= |s| :: !OccursAt(s, pat, j);
    }
  }

  /** An occurrence past the first character is an occurrence in the rest, one place earlier. */
  lemma OccursAtShift(s: string, pat: string, j: int)
    requires 1 <= j && s != []
    ensures OccursAt(s, pat, j) <==> OccursAt(s[1..], pat, j - 1)
  {
    if j + |pat| <= |s| {
      var t := s[1..];
      assert forall k | j <= k < j + |pat| :: s[k] == t[k - 1];
      assert s[j..j + |pat|] == t[j - 1..j - 1 + |pat|];
    }
  }

  /** `s.replace(pat, rep)` with a string pattern: only the first occurrence is replaced. */
  function ReplaceFirst(s: string, pat: string, rep: string): string {
    match IndexOf(s, pat)
    case None => s
    case Some(i) => if i + |pat| <= |s| then s[..i] + rep + s[i + |pat|..] else s
  }

  /** Without an occurrence of the pattern, `replace` returns the string unchanged. */
  lemma ReplaceFirstAbsent(s: string, pat: string, rep: string)
    requires !Contains(s, pat)
    ensures ReplaceFirst(s, pat, rep) == s
  {
    IndexOfSpec(s, pat);
  }

  /**
   * When the pattern starts with a character that `head` lacks, replacing it
   * in `head + pat + tail` replaces exactly the occurrence after `head`.
   */
  lemma ReplaceFirstAfter(head: string, pat: string, tail: string, rep: string)
    requires pat != [] && pat[0] !in head
    ensures ReplaceFirst(head + pat + tail, pat, rep) == head + rep + tail
  {
    var s := head + pat + tail;
    IndexOfSpec(s, pat);
    assert s[|head|..|head| + |pat|] == pat;
    assert OccursAt(s, pat, |head|);
    var i := IndexOf(s, pat).value;
    assert i == |head|;
    assert s[..|head|] == head;
    assert s[|head| + |pat|..] == tail;
  }

  /** `c.repeat(n)` for a one-character string. */
  function Repeat(c: char, n: nat): (r: string)
    ensures |r| == n && forall i :: 0 <= i < n ==> r[i] == c
  {
    if n == 0 then [] else [c] + Repeat(c, n - 1)
  }

  /** Regrouping a concatenation, stated once for any element type. */
  lemma ConcatAssoc<T>(a: seq<T>, b: seq<T>, c: seq<T>)
    ensures a + b + c == a + (b + c)
  {
  }

  /** `a || b` on strings: `a` unless it is empty. */
  function OrElse(a: string, b: string): (r: string)
    ensures a != [] ==> r == a
    ensures a == [] ==> r == b
  {
    if a != [] then a else b
  }
}
