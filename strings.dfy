/**
 * The Python string operations the viewer relies on, over `seq<char>`:
 * `sep.join`, ASCII `lower`/`upper`/`title`, `str(int)`, `in`/`index`
 * (first occurrence), `str.replace` of one character, `*` repetition and
 * the code-point order that `<` uses on `str`.
 */
module Strings {
  import opened Wrappers

  /** `sep.join(parts)`. */
  function Join(parts: seq<string>, sep: string): string
  {
    if |parts| == 0 then ""
    else if |parts| == 1 then parts[0]
    else parts[0] + sep + Join(parts[1..], sep)
  }

  /** A joined string begins with its first part, followed by a separator when more parts follow. */
  lemma JoinStartsWithFirst(parts: seq<string>, sep: string)
    requires |parts| > 0
    ensures parts[0] <= Join(parts, sep)
    ensures |parts| > 1 ==> parts[0] + sep <= Join(parts, sep)
  {
    if |parts| > 1 {
      assert Join(parts, sep) == parts[0] + (sep + Join(parts[1..], sep));
    }
  }

  /** `needle` occurs in `hay` starting at index `p`. */
  predicate OccursAt(hay: string, needle: string, p: nat)
  {
    p + |needle| <= |hay| && hay[p..p + |needle|] == needle
  }

  lemma OccursAfterPrefix(a: string, b: string, needle: string, p: nat)
    requires OccursAt(b, needle, p)
    ensures OccursAt(a + b, needle, |a| + p)
  {
    assert (a + b)[|a| + p..|a| + p + |needle|] == b[p..p + |needle|];
  }

  /** A part between the first and the last occurs as a whole line: with a separator on each side. */
  lemma {:induction false} JoinContainsLine(parts: seq<string>, sep: string, i: nat)
    requires 0 < i < |parts| - 1
    ensures exists p: nat :: OccursAt(Join(parts, sep), sep + parts[i] + sep, p)
  {
    var rest := parts[1..];
    assert Join(parts, sep) == (parts[0]) + (sep + Join(rest, sep));
    if i == 1 {
      JoinStartsWithFirst(rest, sep);
      var line := sep + parts[1] + sep;
      assert line <= sep + Join(rest, sep);
      OccursAfterPrefix(parts[0], sep + Join(rest, sep), line, 0);
    } else {
      JoinContainsLine(rest, sep, i - 1);
      var p: nat :| OccursAt(Join(rest, sep), sep + rest[i - 1] + sep, p);
      assert rest[i - 1] == parts[i];
      OccursAfterPrefix(parts[0] + sep, Join(rest, sep), sep + parts[i] + sep, p);
      assert Join(parts, sep) == (parts[0] + sep) + Join(rest, sep);
    }
  }

  /** A middle part made of a name and a value occurs as a whole line. */
  lemma JoinContainsLabelledLine(parts: seq<string>, sep: string, i: nat, name: string, value: string)
    requires 0 < i < |parts| - 1 && parts[i] == name + value
    ensures exists p: nat :: OccursAt(Join(parts, sep), sep + name + value + sep, p)
  {
    JoinContainsLine(parts, sep, i);
    assert sep + parts[i] + sep == sep + name + value + sep;
  }

  /** `c * n` for a one-character string `c`. */
  function Repeat(c: char, n: nat): (r: string)
    ensures |r| == n && forall i :: 0 <= i < n ==> r[i] == c
  {
    seq(n, _ => c)
  }

  predicate IsAsciiUpper(c: char) { 'A' <= c <= 'Z' }
  predicate IsAsciiLower(c: char) { 'a' <= c <= 'z' }
  predicate IsAsciiLetter(c: char) { IsAsciiUpper(c) || IsAsciiLower(c) }

  function LowerChar(c: char): char
  {
    if IsAsciiUpper(c) then (c as int + 32) as char else c
  }

  function UpperChar(c: char): char
  {
    if IsAsciiLower(c) then (c as int - 32) as char else c
  }

  /** `s.lower()`, restricted to ASCII letters. */
  function Lower(s: string): (r: string)
    ensures |r| == |s| && forall i :: 0 <= i < |s| ==> r[i] == LowerChar(s[i])
  {
    seq(|s|, i requires 0 <= i < |s| => LowerChar(s[i]))
  }

  /** `s.upper()`, restricted to ASCII letters. */
  function Upper(s: string): (r: string)
    ensures |r| == |s| && forall i :: 0 <= i < |s| ==> r[i] == UpperChar(s[i])
  {
    seq(|s|, i requires 0 <= i < |s| => UpperChar(s[i]))
  }

  /** Lower-casing ignores the case a string was written in. */
  lemma LowerOfUpper(s: string)
    ensures Lower(Upper(s)) == Lower(s)
  {
    assert forall i :: 0 <= i < |s| ==> Lower(Upper(s))[i] == Lower(s)[i];
  }

  /** `s.title()` for ASCII: a letter is upper-cased when it follows a non-letter and lower-cased otherwise. */
  function TitleFrom(s: string, afterLetter: bool): (r: string)
    decreases |s|
  {
    if |s| == 0 then ""
    else
      var c := s[0];
      [if !IsAsciiLetter(c) then c else if afterLetter then LowerChar(c) else UpperChar(c)]
      + TitleFrom(s[1..], IsAsciiLetter(c))
  }

  function Title(s: string): string
  {
    TitleFrom(s, false)
  }

  function DigitChar(d: nat): char
    requires d < 10
  {
    "0123456789"[d]
  }

  /** `str(n)` for a natural number: decimal digits, no leading zeros. */
  function NatToString(n: nat): (r: string)
    ensures |r| > 0 && forall i :: 0 <= i < |r| ==> '0' <= r[i] <= '9'
    decreases n
  {
    if n < 10 then [DigitChar(n)] else NatToString(n / 10) + [DigitChar(n % 10)]
  }

  /** `str(i)` for an integer: a sign for negatives, then digits. */
  function IntToString(i: int): (r: string)
    ensures |r| > 0 && (r[0] == '-' || '0' <= r[0] <= '9')
  {
    if i < 0 then "-" + NatToString(-i) else NatToString(i)
  }

  /** The first index at or after `from` where `needle` occurs in `hay`. */
  function FindFrom(hay: string, needle: string, from: nat): (r: Option<nat>)
    ensures r.Some? ==> from <= r.value && OccursAt(hay, needle, r.value)
    ensures r.Some? ==> forall q: nat :: from <= q < r.value ==> !OccursAt(hay, needle, q)
    ensures r.None? ==> forall q: nat :: from <= q ==> !OccursAt(hay, needle, q)
    decreases |hay| - from
  {
    if from + |needle| > |hay| then None
    else if hay[from..from + |needle|] == needle then Some(from)
    else FindFrom(hay, needle, from + 1)
  }

  /** `hay.index(needle)` when `needle in hay`, and None otherwise. */
  function FindFirst(hay: string, needle: string): (r: Option<nat>)
    ensures r.Some? ==> OccursAt(hay, needle, r.value)
    ensures r.Some? ==> forall q: nat :: q < r.value ==> !OccursAt(hay, needle, q)
    ensures r.None? <==> forall q: nat :: !OccursAt(hay, needle, q)
  {
    FindFrom(hay, needle, 0)
  }

  /** `s.replace(c, replacement)` for a one-character pattern `c`. */
  function ReplaceChar(s: string, c: char, replacement: string): string
  {
    if |s| == 0 then "" else (if s[0] == c then replacement else [s[0]]) + ReplaceChar(s[1..], c, replacement)
  }

  /** A string without the character is left as it is. */
  lemma {:induction false} ReplaceAbsentChar(s: string, c: char, replacement: string)
    requires forall i :: 0 <= i < |s| ==> s[i] != c
    ensures ReplaceChar(s, c, replacement) == s
  {
    if |s| > 0 {
      ReplaceAbsentChar(s[1..], c, replacement);
      assert s == [s[0]] + s[1..];
    }
  }

  /** Python's `a < b` on `str`: lexicographic by code point; a proper prefix is smaller. */
  predicate StrLess(a: string, b: string)
  {
    if |a| == 0 then |b| > 0
    else if |b| == 0 then false
    else if a[0] != b[0] then a[0] < b[0]
    else StrLess(a[1..], b[1..])
  }

  lemma {:induction false} StrLessIrreflexive(a: string)
    ensures !StrLess(a, a)
  {
    if |a| > 0 {
      StrLessIrreflexive(a[1..]);
    }
  }

  lemma {:induction false} StrLessTransitive(a: string, b: string, c: string)
    requires StrLess(a, b) && StrLess(b, c)
    ensures StrLess(a, c)
  {
    if |a| > 0 && a[0] == b[0] && b[0] == c[0] {
      StrLessTransitive(a[1..], b[1..], c[1..]);
    }
  }

  lemma {:induction false} StrLessTotal(a: string, b: string)
    requires a != b
    ensures StrLess(a, b) || StrLess(b, a)
  {
    if |a| > 0 && |b| > 0 && a[0] == b[0] {
      assert a == [a[0]] + a[1..] && b == [b[0]] + b[1..];
      StrLessTotal(a[1..], b[1..]);
    }
  }
}
