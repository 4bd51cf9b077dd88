/**
 * The string operations the lookup service relies on, with Python's semantics:
 * `str.lower()`/`str.upper()` (character by character), `str.strip()`,
 * slicing `s[:n]`, the substring test `sub in s`, string ordering `a <= b`,
 * and `is_china_vin`.
 */
module Text {

  // ---------------------------------------------------------------------------
  // Case mapping (Basic Latin, Latin-1 and Cyrillic letters)
  // ---------------------------------------------------------------------------

  predicate IsUpperLetter(c: char) {
    ('A' <= c <= 'Z') || ('\U{00C0}' <= c <= '\U{00DE}' && c != '\U{00D7}')
    || ('\U{0400}' <= c <= '\U{042F}')
  }

  predicate IsLowerLetter(c: char) {
    ('a' <= c <= 'z') || ('\U{00E0}' <= c <= '\U{00FE}' && c != '\U{00F7}')
    || ('\U{0430}' <= c <= '\U{045F}')
  }

  function LowerChar(c: char): (r: char)
    ensures IsUpperLetter(c) ==> IsLowerLetter(r)
    ensures !IsUpperLetter(c) ==> r == c
  {
    if 'A' <= c <= 'Z' then (c as int + 32) as char
    else if '\U{00C0}' <= c <= '\U{00DE}' && c != '\U{00D7}' then (c as int + 32) as char
    else if '\U{0410}' <= c <= '\U{042F}' then (c as int + 32) as char
    else if '\U{0400}' <= c <= '\U{040F}' then (c as int + 80) as char
    else c
  }

  function UpperChar(c: char): (r: char)
    ensures IsLowerLetter(c) ==> IsUpperLetter(r)
    ensures !IsLowerLetter(c) ==> r == c
  {
    if 'a' <= c <= 'z' then (c as int - 32) as char
    else if '\U{00E0}' <= c <= '\U{00FE}' && c != '\U{00F7}' then (c as int - 32) as char
    else if '\U{0430}' <= c <= '\U{044F}' then (c as int - 32) as char
    else if '\U{0450}' <= c <= '\U{045F}' then (c as int - 80) as char
    else c
  }

  /** Python's `s.lower()`, one character at a time. */
  function Lower(s: string): (r: string)
    ensures |r| == |s|
    ensures forall i :: 0 <= i < |s| ==> r[i] == LowerChar(s[i])
    ensures forall i :: 0 <= i < |r| ==> !IsUpperLetter(r[i])
  {
    seq(|s|, i requires 0 <= i < |s| => LowerChar(s[i]))
  }

  /** Python's `s.upper()`, one character at a time. */
  function Upper(s: string): (r: string)
    ensures |r| == |s|
    ensures forall i :: 0 <= i < |s| ==> r[i] == UpperChar(s[i])
    ensures forall i :: 0 <= i < |r| ==> !IsLowerLetter(r[i])
  {
    seq(|s|, i requires 0 <= i < |s| => UpperChar(s[i]))
  }

  /** Lower-casing twice is lower-casing once. */
  lemma LowerIdempotent(s: string)
    ensures Lower(Lower(s)) == Lower(s)
  {
    forall i | 0 <= i < |s|
      ensures Lower(Lower(s))[i] == Lower(s)[i]
    {
      var c := s[i];
      if IsUpperLetter(c) {
        assert !IsUpperLetter(LowerChar(c));
      }
    }
  }

  // ---------------------------------------------------------------------------
  // str.strip()
  // ---------------------------------------------------------------------------

  /**
   * The characters for which Python's `str.isspace()` holds: tab to carriage
   * return, the four information separators U+001C-U+001F, space, U+0085,
   * U+00A0, U+1680, U+2000-U+200A, U+2028, U+2029, U+202F, U+205F and U+3000.
   */
  predicate IsSpace(c: char) {
    ('\t' <= c <= '\r') || ('\U{001C}' <= c <= ' ') || c == '\U{0085}' || c == '\U{00A0}'
    || c == '\U{1680}' || ('\U{2000}' <= c <= '\U{200A}') || c == '\U{2028}' || c == '\U{2029}'
    || c == '\U{202F}' || c == '\U{205F}' || c == '\U{3000}'
  }

  /** `s.lstrip()`. */
  function TrimLeft(s: string): (r: string)
    ensures |r| <= |s|
  {
    if |s| > 0 && IsSpace(s[0]) then TrimLeft(s[1..]) else s
  }

  /** `s.rstrip()`. */
  function TrimRight(s: string): (r: string)
    ensures |r| <= |s|
  {
    if |s| > 0 && IsSpace(s[|s| - 1]) then TrimRight(s[..|s| - 1]) else s
  }

  /** `s.lstrip()` drops the leading whitespace, and only that. */
  lemma {:induction false} TrimLeftDropsSpaces(s: string)
    ensures TrimLeft(s) == s[|s| - |TrimLeft(s)|..]
    ensures forall j :: 0 <= j < |s| - |TrimLeft(s)| ==> IsSpace(s[j])
    ensures TrimLeft(s) != [] ==> !IsSpace(TrimLeft(s)[0])
  {
    if |s| > 0 && IsSpace(s[0]) {
      TrimLeftDropsSpaces(s[1..]);
    }
  }

  /** `s.rstrip()` drops the trailing whitespace, and only that. */
  lemma {:induction false} TrimRightDropsSpaces(s: string)
    ensures TrimRight(s) == s[..|TrimRight(s)|]
    ensures forall j :: |TrimRight(s)| <= j < |s| ==> IsSpace(s[j])
    ensures TrimRight(s) != [] ==> !IsSpace(TrimRight(s)[|TrimRight(s)| - 1])
  {
    if |s| > 0 && IsSpace(s[|s| - 1]) {
      TrimRightDropsSpaces(s[..|s| - 1]);
    }
  }

  /** Python's `s.strip()`. */
  function Trim(s: string): string {
    TrimRight(TrimLeft(s))
  }

  /** Index of the first character `s.strip()` keeps. */
  function TrimStart(s: string): nat {
    |s| - |TrimLeft(s)|
  }

  /** `s.strip()` keeps a contiguous middle part of `s`. */
  lemma TrimIsMiddle(s: string)
    ensures TrimStart(s) + |Trim(s)| <= |s|
    ensures Trim(s) == s[TrimStart(s)..TrimStart(s) + |Trim(s)|]
  {
    var l := TrimLeft(s);
    var r := TrimRight(l);
    TrimLeftDropsSpaces(s);
    TrimRightDropsSpaces(l);
    var i := |s| - |l|;
    assert l == s[i..];
    assert r == l[..|r|];
  }

  /**
   * What `s.strip()` removes on either side is whitespace, and what it keeps
   * neither starts nor ends with whitespace.
   */
  lemma TrimRemovesSpaces(s: string)
    ensures forall j :: 0 <= j < TrimStart(s) ==> IsSpace(s[j])
    ensures forall j :: TrimStart(s) + |Trim(s)| <= j < |s| ==> IsSpace(s[j])
    ensures Trim(s) != [] ==> !IsSpace(Trim(s)[0]) && !IsSpace(Trim(s)[|Trim(s)| - 1])
  {
    var l := TrimLeft(s);
    var r := TrimRight(l);
    TrimLeftDropsSpaces(s);
    TrimRightDropsSpaces(l);
    var i := |s| - |l|;
    assert l == s[i..];
    if r != [] {
      assert r[0] == l[0];
    }
    forall j | i + |r| <= j < |s| ensures IsSpace(s[j]) {
      assert s[j] == l[j - i];
    }
  }

  /** The first character `s.strip()` keeps is the first non-blank character of `s`. */
  lemma TrimFirst(s: string)
    requires TrimStart(s) < |s|
    ensures Trim(s) != [] && Trim(s)[0] == s[TrimStart(s)] && !IsSpace(s[TrimStart(s)])
  {
    var l := TrimLeft(s);
    TrimLeftDropsSpaces(s);
    TrimRightDropsSpaces(l);
    assert l[0] == s[TrimStart(s)];
  }

  /** Stripping a stripped string changes nothing. */
  lemma TrimIdempotent(s: string)
    ensures Trim(Trim(s)) == Trim(s)
  {
    var l := TrimLeft(s);
    var r := TrimRight(l);
    TrimLeftDropsSpaces(s);
    TrimRightDropsSpaces(l);
    if r != [] {
      assert r[0] == l[0];
      assert TrimLeft(r) == r;
      assert TrimRight(r) == r;
    }
  }

  /** Python's `s[:n]`. */
  function Take(s: string, n: nat): (r: string)
    ensures |r| <= n && |r| <= |s|
  {
    if |s| <= n then s else s[..n]
  }

  // ---------------------------------------------------------------------------
  // Substring tests: `sub in s` and `any(t in s for t in terms)`
  // ---------------------------------------------------------------------------

  predicate IsPrefix(p: string, s: string) {
    |p| <= |s| && s[..|p|] == p
  }

  /** Python's `sub in s`. */
  predicate Contains(s: string, sub: string) {
    exists k :: 0 <= k <= |s| && IsPrefix(sub, s[k..])
  }

  /** Python's `any(t in s for t in terms)`. */
  predicate ContainsAny(s: string, terms: seq<string>) {
    terms != [] && (Contains(s, terms[0]) || ContainsAny(s, terms[1..]))
  }

  /** No non-empty term occurs in the empty string. */
  lemma {:induction false} NothingInEmpty(terms: seq<string>)
    requires forall i :: 0 <= i < |terms| ==> terms[i] != []
    ensures !ContainsAny([], terms)
  {
    if terms != [] {
      NothingInEmpty(terms[1..]);
      assert |terms[0]| > 0;
    }
  }

  // ---------------------------------------------------------------------------
  // String ordering (Python compares strings code point by code point)
  // ---------------------------------------------------------------------------

  predicate StrLe(a: string, b: string)
    decreases |a|
  {
    if a == [] then true
    else if b == [] then false
    else if a[0] != b[0] then a[0] < b[0]
    else StrLe(a[1..], b[1..])
  }

  lemma {:induction false} StrLeTotal(a: string, b: string)
    ensures StrLe(a, b) || StrLe(b, a)
    decreases |a|
  {
    if a != [] && b != [] && a[0] == b[0] {
      StrLeTotal(a[1..], b[1..]);
    }
  }

  lemma {:induction false} StrLeAntisymmetric(a: string, b: string)
    requires StrLe(a, b) && StrLe(b, a)
    ensures a == b
    decreases |a|
  {
    if a != [] && b != [] {
      StrLeAntisymmetric(a[1..], b[1..]);
      assert a == [a[0]] + a[1..] && b == [b[0]] + b[1..];
    }
  }

  lemma {:induction false} StrLeTransitive(a: string, b: string, c: string)
    requires StrLe(a, b) && StrLe(b, c)
    ensures StrLe(a, c)
    decreases |a|
  {
    if a != [] && b != [] && c != [] && a[0] == b[0] && b[0] == c[0] {
      StrLeTransitive(a[1..], b[1..], c[1..]);
    }
  }

  // ---------------------------------------------------------------------------
  // VIN classification
  // ---------------------------------------------------------------------------

  /**
   * `is_china_vin` (podzamenu_lookup_service.py:36-38): a non-empty VIN whose
   * upper-cased, stripped form starts with "L".
   */
  predicate IsChinaVin(vin: string) {
    vin != [] && IsPrefix("L", Trim(Upper(vin)))
  }

  lemma LetterIsNotSpace(c: char)
    requires IsUpperLetter(c) || IsLowerLetter(c)
    ensures !IsSpace(c)
  {
  }

  /** Upper-casing neither creates nor removes whitespace. */
  lemma UpperKeepsSpaces(s: string)
    ensures forall j :: 0 <= j < |s| ==> (IsSpace(Upper(s)[j]) <==> IsSpace(s[j]))
  {
    forall j | 0 <= j < |s| ensures IsSpace(Upper(s)[j]) <==> IsSpace(s[j]) {
      if IsLowerLetter(s[j]) {
        LetterIsNotSpace(s[j]);
        LetterIsNotSpace(UpperChar(s[j]));
      }
    }
  }

  lemma UpperIsL(c: char)
    ensures UpperChar(c) == 'L' <==> c == 'L' || c == 'l'
  {
  }

  /** `is_china_vin` looks at the first non-blank character of the VIN. */
  lemma ChinaVinAtTrimStart(vin: string)
    ensures IsChinaVin(vin) <==> TrimStart(Upper(vin)) < |vin| && UpperChar(vin[TrimStart(Upper(vin))]) == 'L'
  {
    var u := Upper(vin);
    var t := Trim(u);
    assert IsPrefix("L", t) <==> t != [] && t[0] == 'L' by {
      if t != [] { assert t[..1] == [t[0]]; }
    }
    if TrimStart(u) < |u| {
      TrimFirst(u);
    } else {
      TrimIsMiddle(u);
    }
  }

  /** A VIN is classified Chinese exactly when its first non-blank character is `L` or `l`. */
  lemma ChinaVinFirstLetter(vin: string)
    ensures IsChinaVin(vin) <==>
      exists k :: 0 <= k < |vin| && (vin[k] == 'L' || vin[k] == 'l') && forall j :: 0 <= j < k ==> IsSpace(vin[j])
  {
    var u := Upper(vin);
    var i := TrimStart(u);
    ChinaVinAtTrimStart(vin);
    TrimRemovesSpaces(u);
    UpperKeepsSpaces(vin);
    if i < |u| {
      TrimFirst(u);
      UpperIsL(vin[i]);
    }
    if k :| 0 <= k < |vin| && (vin[k] == 'L' || vin[k] == 'l') && forall j :: 0 <= j < k ==> IsSpace(vin[j]) {
      assert !IsSpace(u[k]) by { LetterIsNotSpace(vin[k]); }
      assert i == k;
    }
  }
}
