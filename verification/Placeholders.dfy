/**
 Building a statement text: 63 in-place passes replace ?63 ... ?1 by parameter texts.  The passes over
 the text are followed on tokens, with everything they replace by mistake.
 */
module Placeholders {
  import opened Text

  const LAST := 63

  function Digit(d: nat): char
    requires d < 10
  {
    (d + '0' as int) as char
  }

  function Digits(n: nat): (r: string)
    requires n < 100
    ensures 1 <= |r| <= 2 && forall i :: 0 <= i < |r| ==> IsDigit(r[i])
  {
    if n < 10 then [Digit(n)] else [Digit(n / 10), Digit(n % 10)]
  }

  function Mark(n: nat): string
    requires n < 100
  {
    "?" + Digits(n)
  }

  type Params = map<int, string>

  function Repl(ps: Params, n: int): string { if n in ps then ps[n] else "NULL" }

  // ---- one pass over a text ------------------------------------------------

  predicate StartsWith(s: string, pat: string) { |pat| <= |s| && s[..|pat|] == pat }

  /** Replaces every occurrence of `pat`, from the left, without looking at replaced text again. */
  function Sub(s: string, pat: string, repl: string): string
    requires |pat| > 0
    decreases |s|
  {
    if s == [] then []
    else if StartsWith(s, pat) then repl + Sub(s[|pat|..], pat, repl)
    else [s[0]] + Sub(s[1..], pat, repl)
  }

  lemma {:induction false} SubUntil(s: string, pat: string, repl: string, k: nat)
    requires |pat| > 0 && k <= |s|
    requires forall j :: 0 <= j < k ==> !At(s, pat, j)
    ensures Sub(s, pat, repl) == s[..k] + Sub(s[k..], pat, repl)
  {
    if k > 0 {
      NotAtStart(s, pat);
      forall j | 0 <= j < k - 1 ensures !At(s[1..], pat, j) { AtSuffix(s, 1, pat, j); }
      SubUntil(s[1..], pat, repl, k - 1);
      assert s[1..][k - 1..] == s[k..] && s[..k] == [s[0]] + s[1..][..k - 1];
    } else {
      assert s[0..] == s;
    }
  }

  lemma NotAtStart(s: string, pat: string)
    ensures At(s, pat, 0) <==> StartsWith(s, pat)
  {
    if At(s, pat, 0) {
      assert forall k :: 0 <= k < |pat| ==> pat[k] == s[0 + k];
      assert s[..|pat|] == pat;
    }
    if StartsWith(s, pat) {
      forall k | 0 <= k < |pat| ensures pat[k] == s[0 + k] { assert s[..|pat|][k] == s[k]; }
    }
  }

  lemma FoundStep(q: string, pat: string, repl: string, pos: nat)
    requires |pat| > 0 && pos <= |q| && Find(q, pat, pos) != -1
    ensures var p := Find(q, pat, pos);
      && pos <= p && p + |pat| <= |q|
      && Same(Sub(q[pos..], pat, repl), q[pos..p] + repl + Sub(q[p + |pat|..], pat, repl))
  {
    var p, s := Find(q, pat, pos), q[pos..];
    FindLeftmost(q, pat, pos);
    NoneBefore(q, pat, pos, p);
    AtSuffix(q, pos, pat, p - pos);
    SubUntilMatch(s, pat, repl, p - pos);
    CutSuffix(q, pos, pos, p);
    TailSuffix(q, pos, p + |pat|);
    assert s[..p - pos] == s[0..p - pos];
    assert s[p - pos + |pat|..] == q[p + |pat|..];
  }

  lemma NoneBefore(q: string, pat: string, pos: nat, p: int)
    requires pos <= |q| && pos <= p && forall j :: pos <= j < p ==> !At(q, pat, j)
    ensures forall j :: 0 <= j < p - pos ==> !At(q[pos..], pat, j)
  {
    forall j | 0 <= j < p - pos ensures !At(q[pos..], pat, j) { AtSuffix(q, pos, pat, j); }
  }

  lemma SubUntilMatch(s: string, pat: string, repl: string, k: nat)
    requires |pat| > 0 && At(s, pat, k) && k + |pat| <= |s|
    requires forall j :: 0 <= j < k ==> !At(s, pat, j)
    ensures Same(Sub(s, pat, repl), s[..k] + repl + Sub(s[k + |pat|..], pat, repl))
  {
    SubUntil(s, pat, repl, k);
    AtSuffix(s, k, pat, 0);
    NotAtStart(s[k..], pat);
    SubAtStart(s[k..], pat, repl);
    TailSuffix(s, k, k + |pat|);
    Associate(s[..k], repl, Sub(s[k + |pat|..], pat, repl));
  }

  lemma SubAtStart(s: string, pat: string, repl: string)
    requires |pat| > 0 && StartsWith(s, pat)
    ensures Sub(s, pat, repl) == repl + Sub(s[|pat|..], pat, repl)
  {
  }

  lemma NothingLeft(q: string, pat: string, repl: string, pos: nat)
    requires |pat| > 0 && pos <= |q| && Find(q, pat, pos) == -1
    ensures Sub(q[pos..], pat, repl) == q[pos..]
  {
    var s := q[pos..];
    FindLeftmost(q, pat, pos);
    forall j | 0 <= j < |s| ensures !At(s, pat, j) { AtSuffix(q, pos, pat, j); }
    SubUntil(s, pat, repl, |s|);
    assert s[|s|..] == [];
  }

  /** The text with the `n` characters at `p` replaced. */
  function Replaced(q: string, p: nat, n: nat, repl: string): string
    requires p + n <= |q|
  {
    q[..p] + repl + q[p + n..]
  }

  lemma ReplaceStep(q: string, pat: string, repl: string, pos: nat)
    requires |pat| > 0 && pos <= |q| && Find(q, pat, pos) != -1
    ensures var p := Find(q, pat, pos); pos <= p && p + |pat| <= |q|
    ensures var p := Find(q, pat, pos); var r := Replaced(q, p, |pat|, repl); var next := p + |repl|;
      && next <= |r| && |r| - next < |q| - pos
      && r[..next] + Sub(r[next..], pat, repl) == q[..pos] + Sub(q[pos..], pat, repl)
  {
    FoundStep(q, pat, repl, pos);
    var p := Find(q, pat, pos);
    var r, next := Replaced(q, p, |pat|, repl), p + |repl|;
    assert r[next..] == q[p + |pat|..];
    assert r[..next] == q[..p] + repl;
    Glue(q, pos, p, repl, Sub(q[p + |pat|..], pat, repl));
  }

  lemma Glue(q: string, pos: nat, p: nat, repl: string, sub: string)
    requires pos <= p <= |q|
    ensures q[..pos] + (q[pos..p] + repl + sub) == q[..p] + repl + sub
  {
  }

  /** The source's loop: find, replace, go on behind the replacement. */
  method ReplaceAll(text: string, pat: string, repl: string) returns (q: string)
    requires |pat| > 0
    ensures q == Sub(text, pat, repl)
  {
    q := text;
    var pos := 0;
    assert q[..0] == [] && q[0..] == text;
    var p := Find(q, pat, pos);
    while p != -1
      invariant 0 <= pos <= |q| && p == Find(q, pat, pos)
      invariant q[..pos] + Sub(q[pos..], pat, repl) == Sub(text, pat, repl)
      decreases |q| - pos
    {
      ReplaceStep(q, pat, repl, pos);
      q := Replaced(q, p, |pat|, repl);
      pos := p + |repl|;
      p := Find(q, pat, pos);
    }
    NothingLeft(q, pat, repl, pos);
    assert q[..pos] + q[pos..] == q;
  }

  function BuildText(q: string, i: nat, ps: Params): string
    requires i <= LAST
    decreases i
  {
    if i == 0 then q else BuildText(Sub(q, Mark(i), Repl(ps, i)), i - 1, ps)
  }

  /** The passes from ?63 down to ?1. */
  method Build(sql: string, ps: Params) returns (q: string)
    ensures q == BuildText(sql, LAST, ps)
  {
    q := sql;
    for i := LAST + 1 downto 1
      invariant BuildText(sql, LAST, ps) == BuildText(q, i - 1, ps)
    {
      q := ReplaceAll(q, Mark(i), Repl(ps, i));
    }
  }

  // ---- texts as tokens -----------------------------------------------------

  datatype Token = Lit(c: char) | Ph(n: int)

  /** Behind a question mark this character reads as a placeholder between 1 and `i`. */
  predicate Reading(c: char, i: int) { '1' <= c <= '9' && c as int - '0' as int <= i }

  predicate TokenOk(t: Token, i: int) { t.Ph? ==> 1 <= t.n <= i }

  /** A literal question mark is followed by something that no pass from `i` down takes for its digit. */
  predicate MarkFree(ts: seq<Token>, k: nat, i: int)
    requires k < |ts|
  {
    ts[k] == Lit('?') ==> k + 1 < |ts| && (ts[k + 1].Lit? ==> !Reading(ts[k + 1].c, i))
  }

  /** Placeholders between 1 and `i`, and no literal question mark that reads as one. */
  predicate UpTo(ts: seq<Token>, i: int) {
    forall k :: 0 <= k < |ts| ==> TokenOk(ts[k], i) && MarkFree(ts, k, i)
  }

  lemma UpToTail(ts: seq<Token>, i: int)
    requires UpTo(ts, i) && ts != []
    ensures UpTo(ts[1..], i) && TokenOk(ts[0], i)
  {
    forall k | 0 <= k < |ts[1..]| ensures TokenOk(ts[1..][k], i) && MarkFree(ts[1..], k, i) {
      assert TokenOk(ts[k + 1], i) && MarkFree(ts, k + 1, i);
    }
  }

  predicate StartOk(t: Token, rest: seq<Token>, i: int) {
    TokenOk(t, i) && (t == Lit('?') ==> rest != [] && (rest[0].Lit? ==> !Reading(rest[0].c, i)))
  }

  lemma UpToFront(t: Token, rest: seq<Token>, i: int)
    requires UpTo(rest, i) && StartOk(t, rest, i)
    ensures UpTo([t] + rest, i)
  {
    var ts := [t] + rest;
    forall k | 0 <= k < |ts| ensures TokenOk(ts[k], i) && MarkFree(ts, k, i) {
      if k > 0 { assert TokenOk(rest[k - 1], i) && MarkFree(rest, k - 1, i); }
    }
  }

  lemma UpToConcat(a: seq<Token>, b: seq<Token>, i: int)
    requires UpTo(a, i) && UpTo(b, i)
    ensures UpTo(a + b, i)
  {
    var ts := a + b;
    forall k | 0 <= k < |ts| ensures TokenOk(ts[k], i) && MarkFree(ts, k, i) {
      if k < |a| { assert TokenOk(a[k], i) && MarkFree(a, k, i); }
      if k >= |a| { assert TokenOk(b[k - |a|], i) && MarkFree(b, k - |a|, i); }
    }
  }

  function PrintOne(t: Token): string
    requires TokenOk(t, LAST)
  {
    match t
    case Lit(c) => [c]
    case Ph(n) => Mark(n)
  }

  function SimulOne(t: Token, ps: Params): string {
    match t
    case Lit(c) => [c]
    case Ph(n) => Repl(ps, n)
  }

  predicate Printable(ts: seq<Token>) { forall k :: 0 <= k < |ts| ==> TokenOk(ts[k], LAST) }

  function Print(ts: seq<Token>): string
    requires Printable(ts)
  {
    if ts == [] then [] else PrintOne(ts[0]) + Print(ts[1..])
  }

  function Lits(s: string): seq<Token> { if s == [] then [] else [Lit(s[0])] + Lits(s[1..]) }

  /** All placeholders replaced at once. */
  function Simul(ts: seq<Token>, ps: Params): string {
    if ts == [] then []
    else SimulOne(ts[0], ps) + Simul(ts[1..], ps)
  }

  // ---- parameter texts ------------------------------------------------------

  function DigitValue(c: char): nat
    requires IsDigit(c)
    ensures DigitValue(c) < 10 && Digit(DigitValue(c)) == c
  {
    c as int - '0' as int
  }

  /** Whether a text starts with the mark of a placeholder of one or two digits, up to `i`. */
  predicate OneDigit(s: string, i: int) { |s| >= 2 && s[0] == '?' && Reading(s[1], i) }

  predicate TwoDigits(s: string, i: int) {
    OneDigit(s, i) && |s| >= 3 && IsDigit(s[2]) && 10 * DigitValue(s[1]) + DigitValue(s[2]) <= i
  }

  function FirstToken(s: string, i: int): Token
    requires s != []
  {
    if TwoDigits(s, i) then Ph(10 * DigitValue(s[1]) + DigitValue(s[2]))
    else if OneDigit(s, i) then Ph(DigitValue(s[1]))
    else Lit(s[0])
  }

  function FirstLength(s: string, i: int): (r: nat)
    requires s != []
    ensures 1 <= r <= |s| && (FirstToken(s, i).Lit? ==> r == 1)
  {
    if TwoDigits(s, i) then 3 else if OneDigit(s, i) then 2 else 1
  }

  /** A parameter text as the passes from `i` down will read it: ?n with n up to `i` is a placeholder again. */
  function Lex(s: string, i: int): seq<Token>
    decreases |s|
  {
    if s == [] then [] else [FirstToken(s, i)] + Lex(s[FirstLength(s, i)..], i)
  }

  /** The first token prints as the characters it was read from. */
  lemma FirstPrints(s: string, i: int)
    requires s != [] && 0 <= i <= LAST
    ensures TokenOk(FirstToken(s, i), i) && PrintOne(FirstToken(s, i)) == s[..FirstLength(s, i)]
  {
    if TwoDigits(s, i) {
      var n := 10 * DigitValue(s[1]) + DigitValue(s[2]);
      assert n / 10 == DigitValue(s[1]) && n % 10 == DigitValue(s[2]);
      assert Mark(n) == [s[0], s[1], s[2]] == s[..3];
    } else if OneDigit(s, i) {
      assert Mark(DigitValue(s[1])) == [s[0], s[1]] == s[..2];
    } else {
      assert s[..1] == [s[0]];
    }
  }

  /** Not empty, and not ending in a question mark. */
  predicate Sealed(s: string) { s != [] && s[|s| - 1] != '?' }

  /** Not empty, and not starting with a digit. */
  predicate Firm(s: string) { s != [] && !IsDigit(s[0]) }

  /** No question mark reads as a placeholder up to `i`. */
  predicate QuietText(s: string, i: int) { forall k :: 0 <= k < |s| - 1 && s[k] == '?' ==> !Reading(s[k + 1], i) }

  lemma QuietTail(s: string, k: nat, i: int)
    requires QuietText(s, i) && k <= |s|
    ensures QuietText(s[k..], i)
  {
    forall j | 0 <= j < |s[k..]| - 1 && s[k..][j] == '?' ensures !Reading(s[k..][j + 1], i) {
      assert s[k + j] == '?' && !Reading(s[k + j + 1], i);
    }
  }

  lemma {:induction false} QuietLex(s: string, i: int)
    requires QuietText(s, i)
    ensures Lex(s, i) == Lits(s)
    decreases |s|
  {
    if s != [] {
      assert |s| >= 2 && s[0] == '?' ==> !Reading(s[0 + 1], i);
      QuietTail(s, 1, i);
      QuietLex(s[1..], i);
    }
  }

  /** The first token of a parameter text. */
  lemma LexHead(s: string, i: int)
    requires s != []
    ensures Lex(s, i) != [] && Lex(s, i)[0] == FirstToken(s, i)
    ensures s[0] != '?' ==> Lex(s, i)[0] == Lit(s[0])
  {
  }

  /** A literal question mark of a sealed text is followed by more text that it does not read. */
  lemma FirstStart(s: string, i: int)
    requires Sealed(s) && 0 <= i <= LAST
    ensures var rest := s[FirstLength(s, i)..];
      (rest == [] || Sealed(rest)) && StartOk(FirstToken(s, i), Lex(rest, i), i)
  {
    FirstPrints(s, i);
    var rest := s[FirstLength(s, i)..];
    if rest != [] {
      assert rest[|rest| - 1] == s[|s| - 1];
      LexHead(rest, i);
    }
  }

  lemma {:induction false} LexUpTo(s: string, i: int)
    requires (s == [] || Sealed(s)) && 0 <= i <= LAST
    ensures UpTo(Lex(s, i), i)
    decreases |s|
  {
    if s != [] {
      FirstStart(s, i);
      LexUpTo(s[FirstLength(s, i)..], i);
      UpToFront(FirstToken(s, i), Lex(s[FirstLength(s, i)..], i), i);
    }
  }

  lemma UpToPrintable(ts: seq<Token>, i: int)
    requires UpTo(ts, i) && i <= LAST
    ensures Printable(ts)
  {
    forall k | 0 <= k < |ts| ensures TokenOk(ts[k], LAST) { assert TokenOk(ts[k], i); }
  }

  lemma PrintFront(t: Token, rest: seq<Token>)
    requires TokenOk(t, LAST) && Printable(rest)
    ensures Printable([t] + rest) && Print([t] + rest) == PrintOne(t) + Print(rest)
  {
    assert ([t] + rest)[1..] == rest;
  }

  lemma {:induction false} PrintConcat(a: seq<Token>, b: seq<Token>)
    requires Printable(a) && Printable(b)
    ensures Printable(a + b) && Print(a + b) == Print(a) + Print(b)
  {
    if a == [] {
      assert a + b == b;
    } else {
      PrintConcat(a[1..], b);
      assert a + b == [a[0]] + (a[1..] + b);
      PrintFront(a[0], a[1..] + b);
      Associate(PrintOne(a[0]), Print(a[1..]), Print(b));
    }
  }

  /** Reading a parameter text as tokens does not change how it prints. */
  lemma {:induction false} PrintLex(s: string, i: int)
    requires 0 <= i <= LAST
    ensures Printable(Lex(s, i)) && Print(Lex(s, i)) == s
    decreases |s|
  {
    if s != [] {
      FirstPrints(s, i);
      PrintLex(s[FirstLength(s, i)..], i);
      PrintFront(FirstToken(s, i), Lex(s[FirstLength(s, i)..], i));
      SplitAt(s, FirstLength(s, i));
    }
  }

  // ---- one pass over tokens -------------------------------------------------

  /** Placeholder `n` followed by a digit reads as placeholder `i`. */
  predicate Misread(ts: seq<Token>, n: int, i: int) {
    n < 10 && |ts| > 0 && ts[0].Lit? && IsDigit(ts[0].c) && 10 * n + DigitValue(ts[0].c) == i
  }

  /** One pass on tokens, including what it replaces by mistake. */
  function Pass(ts: seq<Token>, i: int, repl: string): seq<Token> {
    if ts == [] then []
    else
      match ts[0]
      case Lit(_) => [ts[0]] + Pass(ts[1..], i, repl)
      case Ph(n) =>
        if n == i then Lex(repl, i - 1) + Pass(ts[1..], i, repl)
        else if Misread(ts[1..], n, i) then Lex(repl, i - 1) + Pass(ts[2..], i, repl)
        else [ts[0]] + Pass(ts[1..], i, repl)
  }

  /** No literal question mark stands directly before a placeholder. */
  predicate Tight(ts: seq<Token>) {
    forall k :: 0 <= k < |ts| - 1 && ts[k] == Lit('?') ==> ts[k + 1].Lit?
  }

  /** Replacing cannot put a digit directly behind a literal question mark. */
  predicate Fits(ts: seq<Token>, repl: string) { Sealed(repl) && (Firm(repl) || Tight(ts)) }

  lemma FitsTail(ts: seq<Token>, repl: string)
    requires Fits(ts, repl) && ts != []
    ensures Fits(ts[1..], repl)
  {
    if Tight(ts) {
      forall k | 0 <= k < |ts[1..]| - 1 && ts[1..][k] == Lit('?') ensures ts[1..][k + 1].Lit? {
        assert ts[k + 1] == Lit('?') && ts[k + 1 + 1].Lit?;
      }
    }
  }

  /** The first token after a pass. */
  lemma PassHead(ts: seq<Token>, i: int, repl: string)
    requires ts != [] && repl != []
    ensures Pass(ts, i, repl) != []
    ensures ts[0].Lit? ==> Pass(ts, i, repl)[0] == ts[0]
    ensures ts[0].Ph? ==> Pass(ts, i, repl)[0] == ts[0] || Pass(ts, i, repl)[0] == Lex(repl, i - 1)[0]
  {
    LexHead(repl, i - 1);
  }

  /** A pass leaves no placeholder of its own number, and nothing that reads as one. */
  lemma {:induction false} PassUpTo(ts: seq<Token>, i: int, repl: string)
    requires 1 <= i <= LAST && UpTo(ts, i) && Fits(ts, repl)
    ensures UpTo(Pass(ts, i, repl), i - 1)
    decreases |ts|
  {
    if ts != [] {
      UpToTail(ts, i);
      FitsTail(ts, repl);
      PassUpTo(ts[1..], i, repl);
      LexUpTo(repl, i - 1);
      match ts[0] {
        case Lit(c) => LitKept(ts, i, repl);
        case Ph(n) =>
          if n == i {
            UpToConcat(Lex(repl, i - 1), Pass(ts[1..], i, repl), i - 1);
          } else if Misread(ts[1..], n, i) {
            UpToTail(ts[1..], i);
            FitsTail(ts[1..], repl);
            assert ts[1..][1..] == ts[2..];
            PassUpTo(ts[2..], i, repl);
            UpToConcat(Lex(repl, i - 1), Pass(ts[2..], i, repl), i - 1);
          } else {
            UpToFront(ts[0], Pass(ts[1..], i, repl), i - 1);
          }
      }
    }
  }

  lemma LitKept(ts: seq<Token>, i: int, repl: string)
    requires 1 <= i <= LAST && UpTo(ts, i) && Fits(ts, repl) && ts != [] && ts[0].Lit?
    requires UpTo(Pass(ts[1..], i, repl), i - 1)
    ensures UpTo(Pass(ts, i, repl), i - 1)
  {
    if ts[0] == Lit('?') {
      assert MarkFree(ts, 0, i);
      PassHead(ts[1..], i, repl);
      LexHead(repl, i - 1);
      assert Tight(ts) ==> ts[0 + 1].Lit?;
    }
    UpToFront(ts[0], Pass(ts[1..], i, repl), i - 1);
  }

  lemma WrongFirst(s: string, pat: string)
    requires s != [] && pat != [] && s[0] != pat[0]
    ensures !StartsWith(s, pat)
  {
    if |pat| <= |s| { assert s[..|pat|][0] == s[0]; }
  }

  lemma WrongSecond(s: string, pat: string)
    requires |pat| >= 2 && (|s| >= 2 ==> s[1] != pat[1])
    ensures !StartsWith(s, pat)
  {
    if |pat| <= |s| { assert s[..|pat|][1] == s[1]; }
  }

  lemma SubOne(c: char, rest: string, pat: string, repl: string)
    requires |pat| > 0 && !StartsWith([c] + rest, pat)
    ensures Sub([c] + rest, pat, repl) == [c] + Sub(rest, pat, repl)
  {
    assert ([c] + rest)[1..] == rest;
  }

  /** Digits pass unchanged. */
  lemma {:induction false} SubSkips(d: string, rest: string, pat: string, repl: string)
    requires (forall k :: 0 <= k < |d| ==> IsDigit(d[k])) && |pat| > 0 && pat[0] == '?'
    ensures Sub(d + rest, pat, repl) == d + Sub(rest, pat, repl)
  {
    if d == [] {
      assert d + rest == rest;
    } else {
      SubSkips(d[1..], rest, pat, repl);
      assert d == [d[0]] + d[1..];
      Associate([d[0]], d[1..], rest);
      WrongFirst([d[0]] + (d[1..] + rest), pat);
      SubOne(d[0], d[1..] + rest, pat, repl);
      Associate([d[0]], d[1..], Sub(rest, pat, repl));
    }
  }

  lemma StartsThree(s: string, a: char, pat: string)
    requires |s| >= 2 && s[0] == '?' && s[1] == a
    ensures |pat| == 2 && pat[0] == '?' ==> (StartsWith(s, pat) <==> pat[1] == a)
    ensures |pat| == 3 && pat[0] == '?' ==> (StartsWith(s, pat) <==> pat[1] == a && |s| >= 3 && s[2] == pat[2])
  {
    if |pat| == 2 { assert pat == [pat[0], pat[1]]; assert s[..2] == [s[0], s[1]]; }
    if |pat| == 3 && |s| >= 3 { assert pat == [pat[0], pat[1], pat[2]]; assert s[..3] == [s[0], s[1], s[2]]; }
  }

  lemma DigitOne(a: nat, b: nat)
    requires a < 10 && b < 10
    ensures Digit(a) == Digit(b) <==> a == b
  {
  }

  lemma FirstChar(ts: seq<Token>)
    requires Printable(ts)
    ensures ts == [] <==> Print(ts) == []
    ensures ts != [] ==> Print(ts) != [] && Print(ts)[0] == if ts[0].Lit? then ts[0].c else '?'
  {
  }

  /** When the printed text of a placeholder starts with the mark of pass `i`. */
  lemma MarkMatches(n: int, ts: seq<Token>, i: int)
    requires 1 <= n <= i <= LAST && Printable(ts)
    ensures StartsWith(Mark(n) + Print(ts), Mark(i)) <==> n == i || Misread(ts, n, i)
  {
    var s, pat := Mark(n) + Print(ts), Mark(i);
    FirstChar(ts);
    if n < 10 {
      assert s == "?" + [Digit(n)] + Print(ts);
      StartsThree(s, Digit(n), pat);
      DigitOne(n, if i < 10 then i else i / 10);
      if i >= 10 && ts != [] { assert s[2] == Print(ts)[0]; }
    } else {
      assert s == "?" + [Digit(n / 10), Digit(n % 10)] + Print(ts);
      StartsThree(s, Digit(n / 10), pat);
      DigitOne(n / 10, i / 10);
      DigitOne(n % 10, i % 10);
    }
  }

  /** A literal question mark does not start the mark of pass `i`. */
  lemma MarkFreeStart(ts: seq<Token>, i: int)
    requires 1 <= i <= LAST && Printable(ts) && ts != [] && ts[0] == Lit('?') && MarkFree(ts, 0, i)
    ensures !StartsWith(Print(ts), Mark(i))
  {
    FirstChar(ts[1..]);
    assert Print(ts) == ['?'] + Print(ts[1..]);
    var d := if i < 10 then i else i / 10;
    assert Mark(i)[1] == Digit(d) && 1 <= d <= i && Reading(Digit(d), i);
    WrongSecond(Print(ts), Mark(i));
  }

  /** The pass over the text is the pass over the tokens. */
  lemma {:induction false} PassIsSub(ts: seq<Token>, i: int, repl: string)
    requires 1 <= i <= LAST && UpTo(ts, i) && Fits(ts, repl)
    ensures Printable(ts) && Printable(Pass(ts, i, repl))
    ensures Sub(Print(ts), Mark(i), repl) == Print(Pass(ts, i, repl))
    decreases |ts|, 1
  {
    PassUpTo(ts, i, repl);
    UpToPrintable(ts, i);
    UpToPrintable(Pass(ts, i, repl), i - 1);
    if ts != [] {
      UpToTail(ts, i);
      FitsTail(ts, repl);
      PassIsSub(ts[1..], i, repl);
      match ts[0] {
        case Lit(c) => PassOnLit(ts, i, repl);
        case Ph(n) => PassOnMark(ts, n, i, repl);
      }
    }
  }

  lemma PassOnLit(ts: seq<Token>, i: int, repl: string)
    requires 1 <= i <= LAST && UpTo(ts, i) && ts != [] && ts[0].Lit?
    requires Printable(ts) && Printable(ts[1..]) && Printable(Pass(ts[1..], i, repl))
    requires Sub(Print(ts[1..]), Mark(i), repl) == Print(Pass(ts[1..], i, repl))
    ensures Printable(Pass(ts, i, repl)) && Sub(Print(ts), Mark(i), repl) == Print(Pass(ts, i, repl))
  {
    var c := ts[0].c;
    assert Print(ts) == [c] + Print(ts[1..]);
    if c == '?' {
      assert MarkFree(ts, 0, i);
      MarkFreeStart(ts, i);
    } else {
      WrongFirst(Print(ts), Mark(i));
    }
    SubOne(c, Print(ts[1..]), Mark(i), repl);
    PrintFront(ts[0], Pass(ts[1..], i, repl));
  }

  lemma PassOnMark(ts: seq<Token>, n: int, i: int, repl: string)
    requires 1 <= n <= i <= LAST && UpTo(ts, i) && Fits(ts, repl) && ts != [] && ts[0] == Ph(n)
    requires Printable(ts) && Printable(ts[1..]) && Printable(Pass(ts[1..], i, repl))
    requires Sub(Print(ts[1..]), Mark(i), repl) == Print(Pass(ts[1..], i, repl))
    ensures Printable(Pass(ts, i, repl)) && Sub(Print(ts), Mark(i), repl) == Print(Pass(ts, i, repl))
    decreases |ts|, 0
  {
    var rest := ts[1..];
    MarkMatches(n, rest, i);
    if n == i {
      ReplacedText(Print(rest), Pass(rest, i, repl), i, repl);
    } else if Misread(rest, n, i) {
      UpToTail(ts, i);
      UpToTail(rest, i);
      FitsTail(ts, repl);
      FitsTail(rest, repl);
      assert rest[1..] == ts[2..];
      PassIsSub(ts[2..], i, repl);
      MisreadText(n, rest, i);
      ReplacedText(Print(ts[2..]), Pass(ts[2..], i, repl), i, repl);
    } else {
      PrintFront(ts[0], Pass(rest, i, repl));
      KeptOnMark(n, Print(rest), i, repl);
    }
  }

  /** The mark of the pass in front of a text gives way to the parameter's tokens. */
  lemma ReplacedText(text: string, tail: seq<Token>, i: int, repl: string)
    requires 1 <= i <= LAST && Sealed(repl) && Printable(tail) && Sub(text, Mark(i), repl) == Print(tail)
    ensures Printable(Lex(repl, i - 1) + tail)
    ensures Sub(Mark(i) + text, Mark(i), repl) == Print(Lex(repl, i - 1) + tail)
  {
    PrintLex(repl, i - 1);
    PrintConcat(Lex(repl, i - 1), tail);
    SubAtFront(Mark(i), text, repl);
  }

  lemma SubAtFront(pat: string, text: string, repl: string)
    requires |pat| > 0
    ensures Sub(pat + text, pat, repl) == repl + Sub(text, pat, repl)
  {
    var s := pat + text;
    assert s[..|pat|] == pat && s[|pat|..] == text;
    SubAtStart(s, pat, repl);
  }

  lemma MisreadText(n: int, rest: seq<Token>, i: int)
    requires 1 <= n <= i <= LAST && Printable(rest) && Misread(rest, n, i)
    ensures Printable(rest[1..]) && Mark(n) + Print(rest) == Mark(i) + Print(rest[1..])
  {
    assert Print(rest) == [rest[0].c] + Print(rest[1..]);
    assert i / 10 == n && i % 10 == DigitValue(rest[0].c);
    assert Mark(n) + [rest[0].c] == Mark(i);
    Associate(Mark(n), [rest[0].c], Print(rest[1..]));
  }

  lemma KeptOnMark(n: int, text: string, i: int, repl: string)
    requires 1 <= n <= i <= LAST && !StartsWith(Mark(n) + text, Mark(i))
    ensures Sub(Mark(n) + text, Mark(i), repl) == Mark(n) + Sub(text, Mark(i), repl)
  {
    Associate(['?'], Digits(n), text);
    SubOne('?', Digits(n) + text, Mark(i), repl);
    SubSkips(Digits(n), text, Mark(i), repl);
    Associate(['?'], Digits(n), Sub(text, Mark(i), repl));
  }

  function Passes(ts: seq<Token>, i: nat, ps: Params): seq<Token>
    decreases i
  {
    if i == 0 then ts else Passes(Pass(ts, i, Repl(ps, i)), i - 1, ps)
  }

  /** Every parameter text is sealed and starts with no digit: numbers are out. */
  ghost predicate FirmParams(ps: Params) { forall k :: k in ps ==> Sealed(ps[k]) && Firm(ps[k]) }

  /** No parameter text contains ?n with n below its own number. */
  ghost predicate QuietParams(ps: Params) { forall k :: k in ps ==> Sealed(ps[k]) && QuietText(ps[k], k - 1) }

  /** The two kinds of parameters the passes can be followed for on tokens. */
  ghost predicate Followed(ts: seq<Token>, ps: Params) { FirmParams(ps) || (QuietParams(ps) && Tight(ts)) }

  lemma FollowedFits(ts: seq<Token>, ps: Params, i: int)
    requires Followed(ts, ps)
    ensures Fits(ts, Repl(ps, i)) && (FirmParams(ps) || QuietText(Repl(ps, i), i - 1))
  {
  }

  /** Quiet texts keep a text without open question marks that way. */
  lemma {:induction false} TightPass(ts: seq<Token>, i: int, repl: string)
    requires Tight(ts) && UpTo(ts, i) && QuietText(repl, i - 1) && Sealed(repl)
    ensures Tight(Pass(ts, i, repl))
    decreases |ts|
  {
    if ts != [] {
      UpToTail(ts, i);
      TightTail(ts);
      TightPass(ts[1..], i, repl);
      QuietLex(repl, i - 1);
      match ts[0] {
        case Lit(c) =>
          assert MarkFree(ts, 0, i);
          if |ts| > 1 { PassHead(ts[1..], i, repl); }
          TightFront(ts[0], Pass(ts[1..], i, repl));
        case Ph(n) =>
          if n == i {
            TightLits(repl, Pass(ts[1..], i, repl));
          } else if Misread(ts[1..], n, i) {
            UpToTail(ts[1..], i);
            TightTail(ts[1..]);
            assert ts[1..][1..] == ts[2..];
            TightPass(ts[2..], i, repl);
            TightLits(repl, Pass(ts[2..], i, repl));
          } else {
            TightFront(ts[0], Pass(ts[1..], i, repl));
          }
      }
    }
  }

  lemma TightTail(ts: seq<Token>)
    requires Tight(ts) && ts != []
    ensures Tight(ts[1..])
  {
    forall k | 0 <= k < |ts[1..]| - 1 && ts[1..][k] == Lit('?') ensures ts[1..][k + 1].Lit? {
      assert ts[k + 1] == Lit('?') && ts[k + 1 + 1].Lit?;
    }
  }

  lemma TightFront(t: Token, rest: seq<Token>)
    requires Tight(rest) && (t == Lit('?') && rest != [] ==> rest[0].Lit?)
    ensures Tight([t] + rest)
  {
    var ts := [t] + rest;
    forall k | 0 <= k < |ts| - 1 && ts[k] == Lit('?') ensures ts[k + 1].Lit? {
      if k > 0 { assert rest[k - 1] == Lit('?') && rest[k - 1 + 1].Lit?; }
    }
  }

  lemma LitsFront(s: string, ts: seq<Token>)
    requires s != []
    ensures Lits(s) + ts == [Lit(s[0])] + (Lits(s[1..]) + ts)
  {
  }

  lemma {:induction false} TightLits(s: string, ts: seq<Token>)
    requires Tight(ts) && (s == [] || Sealed(s))
    ensures Tight(Lits(s) + ts)
  {
    if s == [] {
      assert Lits(s) + ts == ts;
    } else {
      TightLits(s[1..], ts);
      LitsFront(s, ts);
      if |s| > 1 { LitsFront(s[1..], ts); }
      TightFront(Lit(s[0]), Lits(s[1..]) + ts);
    }
  }

  lemma FollowedOn(ts: seq<Token>, i: int, ps: Params)
    requires Followed(ts, ps) && UpTo(ts, i)
    ensures Followed(Pass(ts, i, Repl(ps, i)), ps)
  {
    FollowedFits(ts, ps, i);
    if !FirmParams(ps) { TightPass(ts, i, Repl(ps, i)); }
  }

  lemma {:induction false} BuildIsPasses(ts: seq<Token>, i: nat, ps: Params)
    requires i <= LAST && UpTo(ts, i) && Followed(ts, ps)
    ensures Printable(ts) && UpTo(Passes(ts, i, ps), 0) && Printable(Passes(ts, i, ps))
    ensures BuildText(Print(ts), i, ps) == Print(Passes(ts, i, ps))
    decreases i
  {
    UpToPrintable(ts, i);
    if i > 0 {
      FollowedFits(ts, ps, i);
      FollowedOn(ts, i, ps);
      PassIsSub(ts, i, Repl(ps, i));
      PassUpTo(ts, i, Repl(ps, i));
      BuildIsPasses(Pass(ts, i, Repl(ps, i)), i - 1, ps);
    }
  }

  lemma {:induction false} AllLiteral(ts: seq<Token>, ps: Params)
    requires UpTo(ts, 0)
    ensures Printable(ts) && Print(ts) == Simul(ts, ps)
  {
    UpToPrintable(ts, 0);
    if ts != [] {
      UpToTail(ts, 0);
      AllLiteral(ts[1..], ps);
    }
  }
}
