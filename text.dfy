/** The handful of Python `str` operations the conversation workflow relies on:
    `lower`, `upper`, `strip`, the substring test `in`, `sep.join` and `str(int)`. */
module Text {

  /** Python's `str.isspace` for one character: the ASCII control whitespace,
      the information separators, and the Unicode space characters. */
  predicate IsSpace(c: char)
  {
    c == ' ' || ('\t' <= c <= '\r') || ('\U{1C}' <= c <= '\U{1F}')
    || c == '\U{85}' || c == '\U{A0}' || c == '\U{1680}'
    || ('\U{2000}' <= c <= '\U{200A}') || c == '\U{2028}' || c == '\U{2029}'
    || c == '\U{202F}' || c == '\U{205F}' || c == '\U{3000}'
  }

  predicate IsAsciiUpper(c: char) { 'A' <= c <= 'Z' }

  predicate IsAsciiLower(c: char) { 'a' <= c <= 'z' }

  function LowerChar(c: char): char
  {
    if IsAsciiUpper(c) then (c as int + 32) as char else c
  }

  function UpperChar(c: char): char
  {
    if IsAsciiLower(c) then (c as int - 32) as char else c
  }

  /** `s.lower()`, restricted to the ASCII letters. */
  function Lower(s: string): string
  {
    seq(|s|, i requires 0 <= i < |s| => LowerChar(s[i]))
  }

  /** `s.upper()`, restricted to the ASCII letters. */
  function Upper(s: string): string
  {
    seq(|s|, i requires 0 <= i < |s| => UpperChar(s[i]))
  }

  /** Lower-casing keeps the length, leaves no capital letter, changes only
      the capitals, and a second pass changes nothing. */
  lemma LowerSpec(s: string)
    ensures |Lower(s)| == |s|
    ensures forall i :: 0 <= i < |s| ==> !IsAsciiUpper(Lower(s)[i])
    ensures forall i :: 0 <= i < |s| && !IsAsciiUpper(s[i]) ==> Lower(s)[i] == s[i]
    ensures Lower(Lower(s)) == Lower(s)
  {
  }

  /** Upper-casing keeps the length, leaves no small letter, changes only
      the small letters, and a second pass changes nothing. */
  lemma UpperSpec(s: string)
    ensures |Upper(s)| == |s|
    ensures forall i :: 0 <= i < |s| ==> !IsAsciiLower(Upper(s)[i])
    ensures forall i :: 0 <= i < |s| && !IsAsciiLower(s[i]) ==> Upper(s)[i] == s[i]
    ensures Upper(Upper(s)) == Upper(s)
  {
  }

  /** The first index at or after `i` that does not hold whitespace, or `|s|`. */
  function Start(s: string, i: nat): (a: nat)
    requires i <= |s|
    ensures i <= a <= |s|
    decreases |s| - i
  {
    if i < |s| && IsSpace(s[i]) then Start(s, i + 1) else i
  }

  /** The index just past the last non-space at or after `lo` and before
      `j`, or `lo` when there is none. */
  function End(s: string, lo: nat, j: nat): (e: nat)
    requires lo <= j <= |s|
    ensures lo <= e <= j
    decreases j - lo
  {
    if lo < j && IsSpace(s[j - 1]) then End(s, lo, j - 1) else j
  }

  /** `s.strip()`: `s` without its leading and its trailing whitespace. */
  function Strip(s: string): string
  {
    var a := Start(s, 0);
    s[a..End(s, a, |s|)]
  }

  /** What `Start` skips is whitespace, and it stops at a non-space. */
  lemma {:induction false} StartSpec(s: string, i: nat)
    requires i <= |s|
    ensures forall k :: i <= k < Start(s, i) ==> IsSpace(s[k])
    ensures Start(s, i) < |s| ==> !IsSpace(s[Start(s, i)])
    decreases |s| - i
  {
    if i < |s| && IsSpace(s[i]) {
      StartSpec(s, i + 1);
    }
  }

  /** What `End` cuts off is whitespace, and it stops after a non-space. */
  lemma {:induction false} EndSpec(s: string, lo: nat, j: nat)
    requires lo <= j <= |s|
    ensures forall k :: End(s, lo, j) <= k < j ==> IsSpace(s[k])
    ensures lo < End(s, lo, j) ==> !IsSpace(s[End(s, lo, j) - 1])
    decreases j - lo
  {
    if lo < j && IsSpace(s[j - 1]) {
      EndSpec(s, lo, j - 1);
    }
  }

  /** Stripping leaves a slice `s[a..j]` of `s`: what comes before `a` and
      from `j` on is whitespace, and the slice, when not empty, neither
      starts nor ends with whitespace. */
  lemma StripSpec(s: string)
    ensures exists a, j ::
      && 0 <= a <= j <= |s| && Strip(s) == s[a..j]
      && (forall k :: 0 <= k < a ==> IsSpace(s[k]))
      && (forall k :: j <= k < |s| ==> IsSpace(s[k]))
      && (a < j ==> !IsSpace(s[a]) && !IsSpace(s[j - 1]))
  {
    var a := Start(s, 0);
    StartSpec(s, 0);
    EndSpec(s, a, |s|);
    assert Strip(s) == s[a..End(s, a, |s|)];
  }

  /** `sub` occurs in `s` starting at index `i`. */
  predicate MatchAt(s: string, sub: string, i: nat)
  {
    i + |sub| <= |s| && s[i..i + |sub|] == sub
  }

  /** Python's `sub in s`: some window of `s` spells `sub`. */
  predicate Contains(s: string, sub: string)
  {
    exists i :: 0 <= i <= |s| - |sub| && MatchAt(s, sub, i)
  }

  /** `sep.join(parts)`. */
  function Join(parts: seq<string>, sep: string): string
    decreases |parts|
  {
    if |parts| == 0 then ""
    else if |parts| == 1 then parts[0]
    else parts[0] + sep + Join(parts[1..], sep)
  }

  function SumLengths(parts: seq<string>): nat
  {
    if parts == [] then 0 else |parts[0]| + SumLengths(parts[1..])
  }

  /** The joined text holds every part once and one separator between each
      pair of neighbours. */
  lemma {:induction false} JoinLength(parts: seq<string>, sep: string)
    requires parts != []
    ensures |Join(parts, sep)| == SumLengths(parts) + (|parts| - 1) * |sep|
    decreases |parts|
  {
    if |parts| > 1 {
      JoinLength(parts[1..], sep);
    }
  }

  /** The joined text starts with the first part. */
  lemma JoinStartsWithFirst(parts: seq<string>, sep: string)
    requires parts != []
    ensures |parts[0]| <= |Join(parts, sep)| && Join(parts, sep)[..|parts[0]|] == parts[0]
  {
  }

  function DigitChar(d: nat): char
    requires d < 10
  {
    ('0' as int + d) as char
  }

  /** Decimal digits of a natural number without leading zeros (`str(n)` for n >= 0). */
  function NatToString(n: nat): (r: string)
    ensures r != []
    ensures forall i :: 0 <= i < |r| ==> '0' <= r[i] <= '9'
    ensures |r| > 1 ==> r[0] != '0'
    decreases n
  {
    if n < 10 then [DigitChar(n)] else NatToString(n / 10) + [DigitChar(n % 10)]
  }

  /** `str(n)` for any integer. */
  function IntToString(n: int): (r: string)
    ensures r != []
    ensures (n < 0) == (r[0] == '-')
  {
    if n < 0 then "-" + NatToString(-n) else NatToString(n)
  }
}
