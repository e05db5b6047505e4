/** Byte strings as the collector's parsers see them: leftmost search, trimming, numbers. */
module Text {

  datatype Option<+T> = None | Some(value: T)

  function Max(a: int, b: int): int { if a > b then a else b }

  function Min(a: int, b: int): int { if a < b then a else b }

  /** `pat` occurs in `s` at position `p`. */
  predicate At(s: string, pat: string, p: int) {
    0 <= p <= |s| - |pat| && forall k :: 0 <= k < |pat| ==> pat[k] == s[p + k]
  }

  /** `std::string::find`: the leftmost occurrence at or after `from`, or -1. */
  function Find(s: string, pat: string, from: nat): (r: int)
    ensures r == -1 || from <= r <= |s| - |pat|
    decreases |s| - from
  {
    if from + |pat| > |s| then -1
    else if At(s, pat, from) then from
    else Find(s, pat, from + 1)
  }

  lemma {:induction false} FindLeftmost(s: string, pat: string, from: nat)
    ensures Find(s, pat, from) != -1 ==> At(s, pat, Find(s, pat, from))
    ensures forall p :: from <= p && (Find(s, pat, from) == -1 || p < Find(s, pat, from)) ==> !At(s, pat, p)
    decreases |s| - from
  {
    if from + |pat| <= |s| && !At(s, pat, from) { FindLeftmost(s, pat, from + 1); }
  }

  /** `std::string::rfind` of one character: the rightmost position at or before `from`, or -1. */
  function RFind(s: string, c: char, from: int): (r: int)
    requires from < |s|
    ensures -1 <= r <= Max(from, -1)
    ensures r >= 0 ==> s[r] == c
    ensures forall p :: 0 <= p && r < p <= from ==> s[p] != c
    decreases from + 1
  {
    if from < 0 then -1 else if s[from] == c then from else RFind(s, c, from - 1)
  }

  lemma AtPrefix(a: string, b: string, pat: string, p: int)
    requires p + |pat| <= |a|
    ensures At(a, pat, p) <==> At(a + b, pat, p)
  {
  }

  lemma AtSuffix(s: string, c: nat, pat: string, p: nat)
    requires c <= |s|
    ensures At(s[c..], pat, p) <==> At(s, pat, c + p)
  {
    if p + |pat| <= |s| - c {
      forall k | 0 <= k < |pat| ensures pat[k] == s[c..][p + k] <==> pat[k] == s[c + p + k] {
        assert s[c..][p + k] == s[c + p + k];
      }
    }
  }

  lemma Associate<T>(a: seq<T>, b: seq<T>, c: seq<T>)
    ensures a + (b + c) == (a + b) + c
  {
  }

  lemma SplitAt<T>(s: seq<T>, e: nat)
    requires e <= |s|
    ensures s == s[..e] + s[e..]
  {
  }

  /** Equality of two values as they are; for sequences, without looking at their elements. */
  predicate Same<T(==)>(a: T, b: T) { a == b }

  lemma CutSuffix(s: string, c: nat, i: nat, j: nat)
    requires c <= i <= j <= |s|
    ensures s[c..][i - c..j - c] == s[i..j]
  {
  }

  lemma TailSuffix(s: string, c: nat, i: nat)
    requires c <= i <= |s|
    ensures s[c..][i - c..] == s[i..]
  {
  }

  /** A leftmost hit is not disturbed by text that arrives later. */
  lemma FindPrefix(a: string, b: string, pat: string, from: nat)
    requires Find(a, pat, from) != -1
    ensures Find(a + b, pat, from) == Find(a, pat, from)
  {
    FindLeftmost(a, pat, from);
    FindLeftmost(a + b, pat, from);
    var r := Find(a, pat, from);
    forall p | from <= p <= r ensures At(a + b, pat, p) <==> At(a, pat, p) {
      AtPrefix(a, b, pat, p);
    }
  }

  /** Searching a suffix is searching the whole text from a later start. */
  lemma FindSuffix(s: string, c: nat, pat: string, from: nat)
    requires c <= |s| && c <= from
    ensures Find(s, pat, from) ==
            (if Find(s[c..], pat, from - c) == -1 then -1 else c + Find(s[c..], pat, from - c))
  {
    FindLeftmost(s[c..], pat, from - c);
    FindLeftmost(s, pat, from);
    forall p: nat ensures At(s[c..], pat, p) <==> At(s, pat, c + p) {
      AtSuffix(s, c, pat, p);
    }
    var t := Find(s[c..], pat, from - c);
    var r := Find(s, pat, from);
    if r != -1 { assert At(s[c..], pat, r - c); }
    if t != -1 { assert At(s, pat, c + t); }
  }

  /** A search started anywhere before its hit gives the same hit. */
  lemma FindSkip(s: string, pat: string, from: nat, later: nat)
    requires from <= later
    requires Find(s, pat, from) == -1 || later <= Find(s, pat, from)
    ensures Find(s, pat, later) == Find(s, pat, from)
  {
    FindLeftmost(s, pat, from);
    FindLeftmost(s, pat, later);
    var r := Find(s, pat, from);
    var t := Find(s, pat, later);
    if t != -1 { assert At(s, pat, t); }
    if r != -1 { assert At(s, pat, r); }
  }

  /** If no occurrence of `pat` starts before `p` then the search stops exactly at `p`. */
  lemma FindIs(s: string, pat: string, from: nat, p: nat)
    requires from <= p && At(s, pat, p)
    requires forall q :: from <= q < p ==> !At(s, pat, q)
    ensures Find(s, pat, from) == p
  {
    FindLeftmost(s, pat, from);
  }

  predicate IsBlank(c: char) { c == ' ' || c == '\t' || c == '\r' || c == '\n' }

  function TrimLeft(s: string): string {
    if s != [] && IsBlank(s[0]) then TrimLeft(s[1..]) else s
  }

  function TrimRight(s: string): string {
    if s != [] && IsBlank(s[|s| - 1]) then TrimRight(s[..|s| - 1]) else s
  }

  function Trimmed(s: string): string { TrimRight(TrimLeft(s)) }

  method Trim(s: string) returns (r: string)
    ensures r == Trimmed(s)
  {
    var a := FrontBlanks(s);
    var b := BackBlanks(s, a);
    r := s[a..b];
  }

  method FrontBlanks(s: string) returns (a: nat)
    ensures a <= |s| && TrimLeft(s) == s[a..]
  {
    a := 0;
    while a < |s| && IsBlank(s[a])
      invariant a <= |s| && TrimLeft(s) == TrimLeft(s[a..])
    {
      assert s[a..][1..] == s[a + 1..];
      a := a + 1;
    }
  }

  method BackBlanks(s: string, a: nat) returns (b: nat)
    requires a <= |s|
    ensures a <= b <= |s| && TrimRight(s[a..]) == s[a..b]
  {
    b := |s|;
    assert s[a..b] == s[a..];
    while b > a && IsBlank(s[b - 1])
      invariant a <= b <= |s| && TrimRight(s[a..]) == TrimRight(s[a..b])
    {
      assert s[a..b][..b - a - 1] == s[a..b - 1];
      b := b - 1;
    }
  }

  predicate AllBlank(s: string) { forall i :: 0 <= i < |s| ==> IsBlank(s[i]) }

  lemma {:induction false} TrimLeftShape(s: string) returns (k: nat)
    ensures k <= |s| && TrimLeft(s) == s[k..] && AllBlank(s[..k]) && (k < |s| ==> !IsBlank(s[k]))
  {
    k := 0;
    if s != [] && IsBlank(s[0]) {
      var j := TrimLeftShape(s[1..]);
      k := j + 1;
      assert s[1..][j..] == s[k..] && s[..k] == [s[0]] + s[1..][..j];
    }
  }

  lemma {:induction false} TrimRightShape(s: string) returns (k: nat)
    ensures k <= |s| && TrimRight(s) == s[..k] && AllBlank(s[k..]) && (k > 0 ==> !IsBlank(s[k - 1]))
  {
    k := |s|;
    if s != [] && IsBlank(s[|s| - 1]) {
      var init := s[..|s| - 1];
      k := TrimRightShape(init);
      assert init[..k] == s[..k] && s[k..] == init[k..] + [s[|s| - 1]];
    }
  }

  /** Trimming removes nothing but blanks at the two ends, and all of them. */
  lemma TrimmedShape(s: string) returns (a: string, b: string)
    ensures s == a + Trimmed(s) + b && AllBlank(a) && AllBlank(b)
    ensures Trimmed(s) != [] ==> !IsBlank(Trimmed(s)[0]) && !IsBlank(Trimmed(s)[|Trimmed(s)| - 1])
  {
    var i := TrimLeftShape(s);
    var k := TrimRightShape(s[i..]);
    a, b := s[..i], s[i..][k..];
    assert s == s[..i] + s[i..];
  }

  // ---- numbers -------------------------------------------------------------

  const INT64_MAX := 0x7fff_ffff_ffff_ffff
  const INT64_MIN := -0x8000_0000_0000_0000

  predicate IsSpace(c: char) { IsBlank(c) || c == '\U{0B}' || c == '\U{0C}' }

  predicate IsDigit(c: char) { '0' <= c <= '9' }

  function DigitsEnd(s: string, from: nat): (r: nat)
    requires from <= |s|
    ensures from <= r <= |s|
    ensures forall i :: from <= i < r ==> IsDigit(s[i])
    decreases |s| - from
  {
    if from < |s| && IsDigit(s[from]) then DigitsEnd(s, from + 1) else from
  }

  function DigitOf(c: char): nat
    requires IsDigit(c)
  {
    c as int - '0' as int
  }

  function Decimal(s: string): nat
    requires forall i :: 0 <= i < |s| ==> IsDigit(s[i])
  {
    if s == [] then 0 else 10 * Decimal(s[..|s| - 1]) + DigitOf(s[|s| - 1])
  }

  function SkipSpace(s: string, from: nat): (r: nat)
    requires from <= |s|
    ensures from <= r <= |s|
    decreases |s| - from
  {
    if from < |s| && IsSpace(s[from]) then SkipSpace(s, from + 1) else from
  }

  /** `parse_ll`: -1 for an empty or non-numeric text, otherwise the saturating base-10 value. */
  function ParseLL(s: string): int {
    var a := SkipSpace(s, 0);
    var signed := a < |s| && (s[a] == '-' || s[a] == '+');
    var d := if signed then a + 1 else a;
    var e := DigitsEnd(s, d);
    if e == d then -1
    else
      var v: int := Decimal(s[d..e]);
      if signed && s[a] == '-' then Max(INT64_MIN, -v) else Min(INT64_MAX, v)
  }
}
