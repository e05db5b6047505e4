/**
 When building a statement pass by pass is the same as replacing all placeholders at once: the exact
 condition on the template, and the exact condition on a parameter text.
 */
module PlaceholderConditions {
  import opened Text
  import opened Placeholders

  // ---- when the passes equal the simultaneous replacement ------------------

  /**
   Two neighbours that no later pass, from `i` down, can misread.  Firm replacements put no digit
   behind a placeholder.
   */
  predicate PairOk(a: Token, b: Token, i: int, firm: bool) {
    a.Ph? ==>
      match b
      case Lit(c) => IsDigit(c) ==> 10 * a.n + DigitValue(c) > i
      case Ph(m) => firm || m <= 10 * a.n
  }

  predicate Settled(ts: seq<Token>, i: int, firm: bool) {
    |ts| >= 2 ==> PairOk(ts[0], ts[1], i, firm) && Settled(ts[1..], i, firm)
  }

  lemma SimulFront(t: Token, rest: seq<Token>, ps: Params)
    ensures Simul([t] + rest, ps) == SimulOne(t, ps) + Simul(rest, ps)
  {
    assert ([t] + rest)[1..] == rest;
  }

  lemma {:induction false} SimulConcat(a: seq<Token>, b: seq<Token>, ps: Params)
    ensures Simul(a + b, ps) == Simul(a, ps) + Simul(b, ps)
  {
    if a == [] {
      assert a + b == b;
    } else {
      SimulConcat(a[1..], b, ps);
      assert a + b == [a[0]] + (a[1..] + b);
      SimulFront(a[0], a[1..] + b, ps);
      Associate(SimulOne(a[0], ps), Simul(a[1..], ps), Simul(b, ps));
    }
  }

  lemma {:induction false} SimulLits(s: string, ps: Params)
    ensures Simul(Lits(s), ps) == s
  {
    if s != [] {
      SimulLits(s[1..], ps);
      SimulFront(Lit(s[0]), Lits(s[1..]), ps);
      assert s == [s[0]] + s[1..];
    }
  }

  lemma SettledFront(t: Token, rest: seq<Token>, i: int, firm: bool)
    requires Settled(rest, i, firm) && (rest != [] ==> PairOk(t, rest[0], i, firm))
    ensures Settled([t] + rest, i, firm)
  {
    assert ([t] + rest)[1..] == rest;
  }

  lemma {:induction false} SettledConcat(a: seq<Token>, b: seq<Token>, i: int, firm: bool)
    requires Settled(a, i, firm) && Settled(b, i, firm) && (a != [] ==> a[|a| - 1].Lit?)
    ensures Settled(a + b, i, firm)
  {
    if a == [] {
      assert a + b == b;
    } else {
      SettledConcat(a[1..], b, i, firm);
      assert a + b == [a[0]] + (a[1..] + b);
      SettledFront(a[0], a[1..] + b, i, firm);
    }
  }

  /** A parameter text read as tokens contains nothing that a later pass could misread. */
  lemma {:induction false} LexSettled(s: string, i: int)
    requires 0 <= i <= LAST
    ensures Settled(Lex(s, i), i, true)
    decreases |s|
  {
    if s != [] {
      var rest := s[FirstLength(s, i)..];
      LexSettled(rest, i);
      if rest != [] { FirstPair(s, i); }
      SettledFront(FirstToken(s, i), Lex(rest, i), i, true);
    }
  }

  lemma FirstPair(s: string, i: int)
    requires s != [] && 0 <= i <= LAST && FirstLength(s, i) < |s|
    ensures PairOk(FirstToken(s, i), Lex(s[FirstLength(s, i)..], i)[0], i, true)
  {
    LexHead(s[FirstLength(s, i)..], i);
  }

  /** Texts that end in something other than a digit end in a literal. */
  lemma {:induction false} LexEnds(s: string, i: int)
    requires s != [] && !IsDigit(s[|s| - 1])
    ensures Lex(s, i) != [] && Lex(s, i)[|Lex(s, i)| - 1].Lit?
    decreases |s|
  {
    var rest := s[FirstLength(s, i)..];
    if rest != [] { LexEnds(rest, i); }
  }

  lemma {:induction false} LitsSettled(s: string, i: int, firm: bool)
    ensures Settled(Lits(s), i, firm) && (s != [] ==> Lits(s) != [] && Lits(s)[|Lits(s)| - 1].Lit?)
  {
    if s != [] {
      LitsSettled(s[1..], i, firm);
      SettledFront(Lit(s[0]), Lits(s[1..]), i, firm);
    }
  }

  /** What may be put in place of placeholder `i` without disturbing a settled text. */
  predicate Smooth(repl: string, i: int, firm: bool) {
    && repl != [] && Settled(Lex(repl, i - 1), i - 1, firm)
    && Lex(repl, i - 1)[|Lex(repl, i - 1)| - 1].Lit?
    && (firm ==> Firm(repl)) && (!firm ==> QuietText(repl, i - 1))
  }

  lemma {:induction false} SettledPass(ts: seq<Token>, i: int, repl: string, firm: bool)
    requires 1 <= i && UpTo(ts, i) && Settled(ts, i, firm) && Smooth(repl, i, firm)
    ensures Settled(Pass(ts, i, repl), i - 1, firm)
    decreases |ts|
  {
    if ts != [] {
      UpToTail(ts, i);
      SettledPass(ts[1..], i, repl, firm);
      if ts[0] == Ph(i) {
        SettledConcat(Lex(repl, i - 1), Pass(ts[1..], i, repl), i - 1, firm);
      } else {
        NoMisread(ts, i, firm);
        if |ts| > 1 { KeptNeighbour(ts, i, repl, firm); }
        SettledFront(ts[0], Pass(ts[1..], i, repl), i - 1, firm);
      }
    }
  }

  lemma NoMisread(ts: seq<Token>, i: int, firm: bool)
    requires Settled(ts, i, firm) && ts != []
    ensures ts[0].Ph? ==> !Misread(ts[1..], ts[0].n, i)
  {
    if |ts| > 1 { assert PairOk(ts[0], ts[1], i, firm); }
  }

  lemma KeptNeighbour(ts: seq<Token>, i: int, repl: string, firm: bool)
    requires 1 <= i && UpTo(ts, i) && Settled(ts, i, firm) && Smooth(repl, i, firm) && |ts| > 1
    ensures Pass(ts[1..], i, repl) != [] && PairOk(ts[0], Pass(ts[1..], i, repl)[0], i - 1, firm)
  {
    var rest := ts[1..];
    PassHead(rest, i, repl);
    assert PairOk(ts[0], ts[1], i, firm) && rest[0] == ts[1];
    NoMisread(rest, i, firm);
    if rest[0] == Ph(i) {
      assert Pass(rest, i, repl)[0] == Lex(repl, i - 1)[0];
      LexHead(repl, i - 1);
      if !firm { QuietLex(repl, i - 1); }
    } else {
      assert Pass(rest, i, repl)[0] == rest[0];
    }
  }

  /** On a settled text a pass puts the parameter's tokens exactly where its own placeholder stood. */
  lemma {:induction false} SimulPass(ts: seq<Token>, i: int, ps: Params, firm: bool)
    requires Settled(ts, i, firm)
    ensures |Simul(Pass(ts, i, Repl(ps, i)), ps)| - |Simul(ts, ps)|
         == Occurrences(ts, i) * (|Simul(Lex(Repl(ps, i), i - 1), ps)| - |Repl(ps, i)|)
    ensures Lex(Repl(ps, i), i - 1) == Lits(Repl(ps, i)) ==> Simul(Pass(ts, i, Repl(ps, i)), ps) == Simul(ts, ps)
    decreases |ts|
  {
    var repl := Repl(ps, i);
    if ts != [] {
      var tail := Pass(ts[1..], i, repl);
      SimulPass(ts[1..], i, ps, firm);
      if ts[0] == Ph(i) {
        SimulConcat(Lex(repl, i - 1), tail, ps);
        SimulLits(repl, ps);
        OneMore(Occurrences(ts[1..], i), |Simul(Lex(repl, i - 1), ps)| - |repl|);
      } else {
        NoMisread(ts, i, firm);
        SimulFront(ts[0], tail, ps);
      }
    }
  }

  lemma OneMore(n: int, d: int)
    ensures (n + 1) * d == n * d + d
  {
  }

  function Occurrences(ts: seq<Token>, i: int): nat {
    if ts == [] then 0 else Occurrences(ts[1..], i) + if ts[0] == Ph(i) then 1 else 0
  }

  lemma QuietSmooth(repl: string, i: int)
    requires Sealed(repl) && QuietText(repl, i - 1)
    ensures Smooth(repl, i, false)
  {
    QuietLex(repl, i - 1);
    LitsSettled(repl, i - 1, false);
  }

  /** One pass with a quiet parameter. */
  lemma QuietPass(ts: seq<Token>, i: int, repl: string)
    requires 1 <= i <= LAST && UpTo(ts, i) && Settled(ts, i, false) && Tight(ts)
    requires Sealed(repl) && QuietText(repl, i - 1)
    ensures var us := Pass(ts, i, repl); UpTo(us, i - 1) && Settled(us, i - 1, false) && Tight(us)
  {
    QuietSmooth(repl, i);
    SettledPass(ts, i, repl, false);
    PassUpTo(ts, i, repl);
    TightPass(ts, i, repl);
  }

  lemma QuietRepl(ps: Params, i: int)
    requires QuietParams(ps)
    ensures Sealed(Repl(ps, i)) && QuietText(Repl(ps, i), i - 1)
  {
    QuietNull(i - 1);
  }

  lemma SettledStep(ts: seq<Token>, i: int, ps: Params)
    requires 1 <= i <= LAST && UpTo(ts, i) && Settled(ts, i, false) && QuietParams(ps) && Tight(ts)
    ensures var us := Pass(ts, i, Repl(ps, i));
      UpTo(us, i - 1) && Settled(us, i - 1, false) && Tight(us) && Simul(us, ps) == Simul(ts, ps)
  {
    QuietRepl(ps, i);
    QuietPass(ts, i, Repl(ps, i));
    QuietLex(Repl(ps, i), i - 1);
    SimulPass(ts, i, ps, false);
  }

  lemma {:induction false} SettledPasses(ts: seq<Token>, i: nat, ps: Params)
    requires i <= LAST && UpTo(ts, i) && Settled(ts, i, false) && QuietParams(ps) && Tight(ts)
    ensures Simul(Passes(ts, i, ps), ps) == Simul(ts, ps)
    decreases i
  {
    if i > 0 {
      SettledStep(ts, i, ps);
      SettledPasses(Pass(ts, i, Repl(ps, i)), i - 1, ps);
    }
  }

  lemma QuietNull(i: int)
    ensures QuietText("NULL", i)
  {
  }

  /**
   A template: placeholders 1 to 63, none directly followed by a digit; a literal question mark is
   followed by a character that is no digit from 1 to 9.
   */
  predicate Template(ts: seq<Token>) {
    && UpTo(ts, LAST) && Tight(ts)
    && forall k :: 0 <= k < |ts| - 1 && ts[k].Ph? ==> !(ts[k + 1].Lit? && IsDigit(ts[k + 1].c))
  }

  /** The pair ?n?m is harmless unless m exceeds 10 n. */
  predicate Harmless(ts: seq<Token>) {
    forall k :: 0 <= k < |ts| - 1 && ts[k].Ph? && ts[k + 1].Ph? ==> ts[k + 1].n <= 10 * ts[k].n
  }

  predicate NoDigitBehind(ts: seq<Token>) {
    forall k :: 0 <= k < |ts| - 1 && ts[k].Ph? ==> !(ts[k + 1].Lit? && IsDigit(ts[k + 1].c))
  }

  lemma {:induction false} TemplateSettled(ts: seq<Token>, firm: bool)
    requires NoDigitBehind(ts) && (firm || Harmless(ts))
    ensures Settled(ts, LAST, firm)
  {
    if |ts| >= 2 {
      assert ts[0].Ph? ==> !(ts[0 + 1].Lit? && IsDigit(ts[0 + 1].c));
      assert Harmless(ts) && ts[0].Ph? && ts[0 + 1].Ph? ==> ts[0 + 1].n <= 10 * ts[0].n;
      var rest := ts[1..];
      forall k | 0 <= k < |rest| - 1
        ensures rest[k].Ph? ==> !(rest[k + 1].Lit? && IsDigit(rest[k + 1].c))
        ensures Harmless(ts) && rest[k].Ph? && rest[k + 1].Ph? ==> rest[k + 1].n <= 10 * rest[k].n
      {
        assert rest[k] == ts[k + 1] && rest[k + 1] == ts[k + 1 + 1];
      }
      TemplateSettled(rest, firm);
    }
  }

  // ---- what can be bound ----------------------------------------------------

  /** A decimal number, as bound integers are written. */
  predicate Number(s: string) {
    s != [] && forall k :: 0 <= k < |s| ==> IsDigit(s[k]) || (k == 0 && s[k] == '-' && |s| > 1)
  }

  /** A text between single quotes, as bound texts are escaped. */
  predicate QuotedText(s: string) { |s| >= 2 && s[0] == '\'' && s[|s| - 1] == '\'' }

  ghost predicate BindableParams(ps: Params) { forall k :: k in ps ==> Number(ps[k]) || QuotedText(ps[k]) }

  /** The pass-by-pass result is the simultaneous one, for all parameters that can be bound and read back nothing. */
  ghost predicate AlwaysSimultaneous(ts: seq<Token>)
    requires Printable(ts)
  {
    forall ps: Params :: BindableParams(ps) && QuietParams(ps) ==> BuildText(Print(ts), LAST, ps) == Simul(ts, ps)
  }

  lemma HarmlessBuild(ts: seq<Token>, ps: Params)
    requires Template(ts) && Harmless(ts) && QuietParams(ps)
    ensures Printable(ts) && BuildText(Print(ts), LAST, ps) == Simul(ts, ps)
  {
    TemplateSettled(ts, false);
    SettledBuild(ts, ps);
  }

  lemma SettledBuild(ts: seq<Token>, ps: Params)
    requires UpTo(ts, LAST) && Tight(ts) && Settled(ts, LAST, false) && QuietParams(ps)
    ensures Printable(ts) && BuildText(Print(ts), LAST, ps) == Simul(ts, ps)
  {
    forall k | 0 <= k < |ts| ensures TokenOk(ts[k], LAST) { }
    BuildIsPasses(ts, LAST, ps);
    SettledPasses(ts, LAST, ps);
    AllLiteral(Passes(ts, LAST, ps), ps);
  }

  lemma OneToken(t: Token, ps: Params)
    requires TokenOk(t, LAST)
    ensures Printable([t]) && Print([t]) == PrintOne(t) && Simul([t], ps) == SimulOne(t, ps)
  {
    assert [t][1..] == [];
    assert PrintOne(t) + [] == PrintOne(t) && SimulOne(t, ps) + [] == SimulOne(t, ps);
  }

  /** Each placeholder from ?1 to ?63 is replaced by what is bound to it. */
  lemma EveryNumber(n: nat, ps: Params)
    requires 1 <= n <= 63 && QuietParams(ps)
    ensures BuildText(Mark(n), LAST, ps) == if n in ps then ps[n] else "NULL"
  {
    SettledBuild([Ph(n)], ps);
    OneToken(Ph(n), ps);
  }

  lemma SixAndDigit(ps: Params)
    ensures Printable([Ph(6), Lit('4')]) && Print([Ph(6), Lit('4')]) == "?64"
    ensures Simul([Ph(6), Lit('4')], ps) == Repl(ps, 6) + "4"
  {
    OneToken(Lit('4'), ps);
    assert [Ph(6), Lit('4')] == [Ph(6)] + [Lit('4')];
    PrintFront(Ph(6), [Lit('4')]);
    SimulFront(Ph(6), [Lit('4')], ps);
  }

  lemma SixSettled()
    ensures UpTo([Ph(6), Lit('4')], LAST) && Tight([Ph(6), Lit('4')]) && Settled([Ph(6), Lit('4')], LAST, false)
  {
    assert [Ph(6), Lit('4')][1..] == [Lit('4')];
    assert Settled([Lit('4')], LAST, false);
  }

  /** There is no placeholder ?64: it is ?6 and a digit. */
  lemma NoHigherNumber(ps: Params)
    requires QuietParams(ps)
    ensures BuildText("?64", LAST, ps) == (if 6 in ps then ps[6] else "NULL") + "4"
  {
    SixSettled();
    SettledBuild([Ph(6), Lit('4')], ps);
    SixAndDigit(ps);
  }

  // ---- why the condition on the template is needed --------------------------

  /** Nothing bound except ?m, which is the number 0. */
  function Witness(m: int): Params { map[m := "0"] }

  lemma WitnessQuiet(m: int)
    ensures QuietParams(Witness(m)) && BindableParams(Witness(m))
    ensures forall i :: Sealed(Repl(Witness(m), i)) && QuietText(Repl(Witness(m), i), i - 1)
    ensures forall i :: Repl(Witness(m), i) == if i == m then "0" else "NULL"
  {
  }

  predicate HasPair(ts: seq<Token>, a: Token, b: Token) {
    |ts| >= 2 && ((ts[0] == a && ts[1] == b) || HasPair(ts[1..], a, b))
  }

  lemma {:induction false} PairAt(ts: seq<Token>, k: nat)
    requires k + 1 < |ts|
    ensures HasPair(ts, ts[k], ts[k + 1])
  {
    if k > 0 { PairAt(ts[1..], k - 1); }
  }

  lemma {:induction false} PairBehind(s: string, ts: seq<Token>, a: Token, b: Token)
    requires HasPair(ts, a, b)
    ensures HasPair(Lits(s) + ts, a, b)
  {
    if s == [] {
      assert Lits(s) + ts == ts;
    } else {
      PairBehind(s[1..], ts, a, b);
      LitsFront(s, ts);
      PairAfter(Lit(s[0]), Lits(s[1..]) + ts, a, b);
    }
  }

  lemma PairAfter(t: Token, ts: seq<Token>, a: Token, b: Token)
    requires HasPair(ts, a, b)
    ensures HasPair([t] + ts, a, b)
  {
    assert ([t] + ts)[1..] == ts;
  }

  /** A pair that the pass neither replaces nor misreads is still there afterwards. */
  lemma {:induction false} PairStays(ts: seq<Token>, n: int, b: Token, b': Token, i: int, repl: string)
    requires HasPair(ts, Ph(n), b) && n != i && QuietText(repl, i - 1)
    requires b == Ph(i) ==> repl != []
    requires b.Lit? ==> !Misread([b], n, i) && b' == b
    requires b.Ph? ==> b.n >= 10 && b' == if b.n == i then Lit(repl[0]) else b
    ensures HasPair(Pass(ts, i, repl), Ph(n), b')
    decreases |ts|
  {
    var rest := ts[1..];
    QuietLex(repl, i - 1);
    if ts[0] == Ph(n) && rest[0] == b {
      assert !Misread(rest, n, i);
      assert Pass(rest, i, repl)[0] == b';
      assert Pass(ts, i, repl)[0] == Ph(n) && Pass(ts, i, repl)[1] == b';
    } else {
      PairStays(rest, n, b, b', i, repl);
      PairStaysBehind(ts, n, b, b', i, repl);
    }
  }

  lemma PairStaysBehind(ts: seq<Token>, n: int, b: Token, b': Token, i: int, repl: string)
    requires |ts| >= 2 && HasPair(ts[1..], Ph(n), b) && HasPair(Pass(ts[1..], i, repl), Ph(n), b')
    requires Lex(repl, i - 1) == Lits(repl)
    ensures HasPair(Pass(ts, i, repl), Ph(n), b')
  {
    var rest := ts[1..];
    if ts[0] == Ph(i) {
      PairBehind(repl, Pass(rest, i, repl), Ph(n), b');
    } else if ts[0].Ph? && Misread(rest, ts[0].n, i) {
      assert ts[2..] == rest[1..];
      assert Pass(rest, i, repl)[1..] == Pass(ts[2..], i, repl);
      PairBehind(repl, Pass(ts[2..], i, repl), Ph(n), b');
    } else {
      PairAfter(ts[0], Pass(rest, i, repl), Ph(n), b');
    }
  }

  lemma PrintableTail(ts: seq<Token>)
    requires Printable(ts) && ts != []
    ensures Printable(ts[1..]) && TokenOk(ts[0], LAST)
  {
    forall k | 0 <= k < |ts[1..]| ensures TokenOk(ts[1..][k], LAST) { assert TokenOk(ts[k + 1], LAST); }
  }

  /** What a quiet text in front contributes. */
  lemma SimulQuiet(repl: string, i: int, tail: seq<Token>, ps: Params)
    requires QuietText(repl, i)
    ensures Simul(Lex(repl, i) + tail, ps) == repl + Simul(tail, ps)
  {
    QuietLex(repl, i);
    SimulConcat(Lits(repl), tail, ps);
    SimulLits(repl, ps);
  }

  /** What a misread placeholder and its digit contribute before and after the pass. */
  lemma MisreadFront(ts: seq<Token>, i: int, ps: Params, repl: string)
    requires ts != [] && ts[0].Ph? && ts[0].n != i && Misread(ts[1..], ts[0].n, i) && QuietText(repl, i - 1)
    ensures |Simul(ts, ps)| == |Repl(ps, ts[0].n)| + 1 + |Simul(ts[2..], ps)|
    ensures Simul(Pass(ts, i, repl), ps) == repl + Simul(Pass(ts[2..], i, repl), ps)
  {
    assert ts[1..][1..] == ts[2..];
    SimulQuiet(repl, i - 1, Pass(ts[2..], i, repl), ps);
  }

  lemma MisreadShrinks(ts: seq<Token>, i: int, m: int)
    requires 1 <= i <= LAST && m >= 10 && ts != [] && ts[0].Ph? && ts[0].n != i && Misread(ts[1..], ts[0].n, i)
    ensures var ps, repl := Witness(m), Repl(Witness(m), i);
      && |Simul(ts, ps)| == 5 + |Simul(ts[2..], ps)|
      && |Simul(Pass(ts, i, repl), ps)| <= 4 + |Simul(Pass(ts[2..], i, repl), ps)|
  {
    WitnessQuiet(m);
    MisreadFront(ts, i, Witness(m), Repl(Witness(m), i));
  }

  /** With the witness no pass makes the result longer. */
  lemma {:induction false} NeverLonger(ts: seq<Token>, i: int, m: int)
    requires Printable(ts) && 1 <= i <= LAST && m >= 10
    ensures |Simul(Pass(ts, i, Repl(Witness(m), i)), Witness(m))| <= |Simul(ts, Witness(m))|
    decreases |ts|
  {
    if ts != [] {
      var ps, repl := Witness(m), Repl(Witness(m), i);
      PrintableTail(ts);
      if ts[0].Ph? && ts[0].n != i && Misread(ts[1..], ts[0].n, i) {
        PrintableTail(ts[1..]);
        assert ts[1..][1..] == ts[2..];
        NeverLonger(ts[2..], i, m);
        MisreadShrinks(ts, i, m);
      } else {
        NeverLonger(ts[1..], i, m);
        WitnessQuiet(m);
        SimulQuiet(repl, i - 1, Pass(ts[1..], i, repl), ps);
        SimulFront(ts[0], Pass(ts[1..], i, repl), ps);
      }
    }
  }

  lemma OnlyMisread(rest: seq<Token>, k: int, n: int)
    ensures Misread(rest, k, 10 * n) ==> k == n && rest[0] == Lit('0')
  {
  }

  /** Misreading ?n followed by the digit loses the digit. */
  lemma {:induction false} MisreadLoses(ts: seq<Token>, n: int, m: int)
    requires Printable(ts) && 1 <= n && 10 * n < m <= LAST && HasPair(ts, Ph(n), Lit('0'))
    ensures |Simul(Pass(ts, 10 * n, Repl(Witness(m), 10 * n)), Witness(m))| < |Simul(ts, Witness(m))|
    decreases |ts|
  {
    var i, rest := 10 * n, ts[1..];
    PrintableTail(ts);
    if ts[0] == Ph(n) && rest[0] == Lit('0') {
      PrintableTail(rest);
      assert rest[1..] == ts[2..] && Misread(rest, n, i);
      MisreadShrinks(ts, i, m);
      NeverLonger(ts[2..], i, m);
    } else {
      var ps, repl := Witness(m), Repl(Witness(m), i);
      if ts[0].Ph? { OnlyMisread(rest, ts[0].n, n); }
      MisreadLoses(rest, n, m);
      WitnessQuiet(m);
      SimulQuiet(repl, i - 1, Pass(rest, i, repl), ps);
      SimulFront(ts[0], Pass(rest, i, repl), ps);
    }
  }

  /** One pass with the witness. */
  lemma WitnessStep(ts: seq<Token>, i: int, m: int)
    requires 1 <= i <= LAST && m >= 10 && UpTo(ts, i) && Tight(ts)
    ensures Printable(ts) && UpTo(Pass(ts, i, Repl(Witness(m), i)), i - 1) && Tight(Pass(ts, i, Repl(Witness(m), i)))
    ensures |Simul(Pass(ts, i, Repl(Witness(m), i)), Witness(m))| <= |Simul(ts, Witness(m))|
  {
    WitnessQuiet(m);
    UpToPrintable(ts, i);
    PassUpTo(ts, i, Repl(Witness(m), i));
    TightPass(ts, i, Repl(Witness(m), i));
    NeverLonger(ts, i, m);
  }

  lemma {:induction false} NeverLongerPasses(ts: seq<Token>, i: nat, m: int)
    requires i <= LAST && m >= 10 && UpTo(ts, i) && Tight(ts)
    ensures |Simul(Passes(ts, i, Witness(m)), Witness(m))| <= |Simul(ts, Witness(m))|
    decreases i
  {
    if i > 0 {
      WitnessStep(ts, i, m);
      NeverLongerPasses(Pass(ts, i, Repl(Witness(m), i)), i - 1, m);
    }
  }

  /** With the witness a pair ?n?m turns into ?n0 in pass `m` and is kept in the passes before and after. */
  lemma WitnessPair(ts: seq<Token>, i: int, n: int, m: int)
    requires 1 <= n && 10 * n < m <= LAST && 10 * n < i
    requires HasPair(ts, Ph(n), if i < m then Lit('0') else Ph(m))
    ensures HasPair(Pass(ts, i, Repl(Witness(m), i)), Ph(n), if i <= m then Lit('0') else Ph(m))
  {
    WitnessQuiet(m);
    if i < m {
      PairStays(ts, n, Lit('0'), Lit('0'), i, Repl(Witness(m), i));
    } else if i == m {
      PairStays(ts, n, Ph(m), Lit('0'), i, "0");
    } else {
      PairStays(ts, n, Ph(m), Ph(m), i, "NULL");
    }
  }

  /** Passes from `i` down with the witness; below `m` the pair ?n?m has become ?n0, and pass 10 n loses the digit. */
  lemma {:induction false} PairLoses(ts: seq<Token>, i: nat, n: int, m: int)
    requires 1 <= n && 10 * n < m <= LAST && 10 * n <= i <= LAST && UpTo(ts, i) && Tight(ts)
    requires HasPair(ts, Ph(n), if i < m then Lit('0') else Ph(m))
    ensures |Simul(Passes(ts, i, Witness(m)), Witness(m))| < |Simul(ts, Witness(m))|
    decreases i
  {
    WitnessStep(ts, i, m);
    if i == 10 * n {
      MisreadLoses(ts, n, m);
      NeverLongerPasses(Pass(ts, i, Repl(Witness(m), i)), i - 1, m);
    } else {
      WitnessPair(ts, i, n, m);
      PairLoses(Pass(ts, i, Repl(Witness(m), i)), i - 1, n, m);
    }
  }

  /**
   For every choice of parameters that can be bound and read back no placeholder, building equals
   replacing all placeholders at once, exactly when no ?n is directly followed by a ?m with m > 10 n.
   */
  lemma BuildIsSimultaneousIff(ts: seq<Token>)
    requires Template(ts)
    ensures Printable(ts) && (AlwaysSimultaneous(ts) <==> Harmless(ts))
  {
    UpToPrintable(ts, LAST);
    if Harmless(ts) {
      forall ps: Params | BindableParams(ps) && QuietParams(ps)
        ensures BuildText(Print(ts), LAST, ps) == Simul(ts, ps)
      {
        HarmlessBuild(ts, ps);
      }
    } else {
      HarmfulBuild(ts);
    }
  }

  lemma HarmfulBuild(ts: seq<Token>)
    requires Template(ts) && Printable(ts) && !Harmless(ts)
    ensures !AlwaysSimultaneous(ts)
  {
    var k :| 0 <= k < |ts| - 1 && ts[k].Ph? && ts[k + 1].Ph? && ts[k + 1].n > 10 * ts[k].n;
    var n, m := ts[k].n, ts[k + 1].n;
    assert TokenOk(ts[k], LAST) && TokenOk(ts[k + 1], LAST);
    PairAt(ts, k);
    PairLoses(ts, LAST, n, m);
    WitnessDiffers(ts, m);
  }

  lemma WitnessDiffers(ts: seq<Token>, m: int)
    requires UpTo(ts, LAST) && Tight(ts) && Printable(ts)
    requires |Simul(Passes(ts, LAST, Witness(m)), Witness(m))| < |Simul(ts, Witness(m))|
    ensures !AlwaysSimultaneous(ts)
  {
    var ps := Witness(m);
    WitnessQuiet(m);
    BuildIsPasses(ts, LAST, ps);
    AllLiteral(Passes(ts, LAST, ps), ps);
    assert BuildText(Print(ts), LAST, ps) != Simul(ts, ps);
  }

  // ---- what a parameter may contain -----------------------------------------

  /** Read as tokens with nothing else bound, a text gets longer exactly if it contains a placeholder. */
  lemma {:induction false} LexLonger(s: string, i: int, ps: Params)
    requires 0 <= i <= LAST && forall j :: j <= i ==> j !in ps
    ensures |Simul(Lex(s, i), ps)| >= |s|
    ensures !QuietText(s, i) ==> |Simul(Lex(s, i), ps)| > |s|
    decreases |s|
  {
    if s != [] {
      var rest := s[FirstLength(s, i)..];
      LexLonger(rest, i, ps);
      FirstPrints(s, i);
      SimulFront(FirstToken(s, i), Lex(rest, i), ps);
      if FirstToken(s, i).Lit? && !QuietText(s, i) {
        var k :| 0 <= k < |s| - 1 && s[k] == '?' && Reading(s[k + 1], i);
        assert k > 0 && rest[k - 1] == '?' && Reading(rest[k - 1 + 1], i);
      }
    }
  }

  /** Only ?i is bound, to the given text. */
  function Single(i: int, t: string): Params { map[i := t] }

  /** A text that starts and ends in something other than a digit may be put anywhere. */
  lemma FirmSmooth(repl: string, k: int)
    requires 1 <= k <= LAST && Firm(repl) && !IsDigit(repl[|repl| - 1])
    ensures Smooth(repl, k, true)
  {
    LexSettled(repl, k - 1);
    LexEnds(repl, k - 1);
  }

  lemma SmoothSingle(i: int, t: string, k: int)
    requires 1 <= k <= LAST && QuotedText(t)
    ensures Smooth(Repl(Single(i, t), k), k, true) && Sealed(Repl(Single(i, t), k))
    ensures k != i ==> Lex(Repl(Single(i, t), k), k - 1) == Lits("NULL")
  {
    FirmSmooth(t, k);
    FirmSmooth("NULL", k);
    QuietNull(k - 1);
    QuietLex("NULL", k - 1);
  }

  lemma {:induction false} OccurrencesKept(ts: seq<Token>, k: int, i: int)
    requires Settled(ts, k, true) && k != i && Lex("NULL", k - 1) == Lits("NULL")
    ensures Occurrences(Pass(ts, k, "NULL"), i) == Occurrences(ts, i)
    decreases |ts|
  {
    if ts != [] {
      OccurrencesKept(ts[1..], k, i);
      NoMisread(ts, k, true);
      var tail := Pass(ts[1..], k, "NULL");
      if ts[0] == Ph(k) {
        NoneInLits("NULL", tail, i);
      } else {
        assert ([ts[0]] + tail)[1..] == tail;
      }
    }
  }

  lemma {:induction false} NoneInLits(s: string, tail: seq<Token>, i: int)
    ensures Occurrences(Lits(s) + tail, i) == Occurrences(tail, i)
  {
    if s == [] {
      assert Lits(s) + tail == tail;
    } else {
      NoneInLits(s[1..], tail, i);
      LitsFront(s, tail);
      assert ([Lit(s[0])] + (Lits(s[1..]) + tail))[1..] == Lits(s[1..]) + tail;
    }
  }

  /** One pass with only ?i bound. */
  lemma SingleStep(ts: seq<Token>, k: int, i: int, t: string)
    requires 1 <= k <= LAST && 1 <= i <= LAST && QuotedText(t) && UpTo(ts, k) && Settled(ts, k, true)
    ensures var us := Pass(ts, k, Repl(Single(i, t), k));
      UpTo(us, k - 1) && Settled(us, k - 1, true) && (k != i ==> Occurrences(us, i) == Occurrences(ts, i))
  {
    SmoothSingle(i, t, k);
    PassUpTo(ts, k, Repl(Single(i, t), k));
    SettledPass(ts, k, Repl(Single(i, t), k), true);
    if k != i { OccurrencesKept(ts, k, i); }
  }

  /** With only ?i bound no pass makes the result shorter, and pass `i` makes it longer if its text reads back. */
  lemma {:induction false} PassesGrow(ts: seq<Token>, k: nat, i: int, t: string)
    requires k <= LAST && 1 <= i <= LAST && QuotedText(t) && UpTo(ts, k) && Settled(ts, k, true)
    ensures |Simul(Passes(ts, k, Single(i, t)), Single(i, t))| >= |Simul(ts, Single(i, t))|
    ensures k >= i && Occurrences(ts, i) > 0 && !QuietText(t, i - 1) ==>
      |Simul(Passes(ts, k, Single(i, t)), Single(i, t))| > |Simul(ts, Single(i, t))|
    decreases k
  {
    if k > 0 {
      SingleStep(ts, k, i, t);
      PassGrows(ts, k, i, t);
      PassesGrow(Pass(ts, k, Repl(Single(i, t), k)), k - 1, i, t);
    }
  }

  lemma PassGrows(ts: seq<Token>, k: nat, i: int, t: string)
    requires 1 <= k <= LAST && QuotedText(t) && Settled(ts, k, true)
    ensures |Simul(Pass(ts, k, Repl(Single(i, t), k)), Single(i, t))| >= |Simul(ts, Single(i, t))|
    ensures k == i && Occurrences(ts, i) > 0 && !QuietText(t, i - 1) ==>
      |Simul(Pass(ts, k, Repl(Single(i, t), k)), Single(i, t))| > |Simul(ts, Single(i, t))|
  {
    if k == i { OwnPassGrows(ts, i, t); } else { OtherPassKeeps(ts, k, i, t); }
  }

  lemma OtherPassKeeps(ts: seq<Token>, k: nat, i: int, t: string)
    requires 1 <= k <= LAST && k != i && QuotedText(t) && Settled(ts, k, true)
    ensures Simul(Pass(ts, k, Repl(Single(i, t), k)), Single(i, t)) == Simul(ts, Single(i, t))
  {
    SmoothSingle(i, t, k);
    SimulPass(ts, k, Single(i, t), true);
  }

  lemma OwnPassGrows(ts: seq<Token>, i: int, t: string)
    requires 1 <= i <= LAST && QuotedText(t) && Settled(ts, i, true)
    ensures |Simul(Pass(ts, i, t), Single(i, t))| >= |Simul(ts, Single(i, t))|
    ensures Occurrences(ts, i) > 0 && !QuietText(t, i - 1) ==>
      |Simul(Pass(ts, i, t), Single(i, t))| > |Simul(ts, Single(i, t))|
  {
    LexLonger(t, i - 1, Single(i, t));
    SimulPass(ts, i, Single(i, t), true);
    Product(Occurrences(ts, i), |Simul(Lex(t, i - 1), Single(i, t))| - |t|);
  }

  lemma Product(n: nat, d: nat)
    ensures n * d >= 0 && (n > 0 && d > 0 ==> n * d > 0)
  {
  }

  /** Building with the text `t` bound to ?i is simultaneous whatever else is bound that reads nothing back. */
  ghost predicate AlwaysWith(ts: seq<Token>, i: int, t: string)
    requires Printable(ts)
  {
    forall ps: Params :: BindableParams(ps) && i in ps && ps[i] == t && QuietParams(ps - {i}) ==>
      BuildText(Print(ts), LAST, ps) == Simul(ts, ps)
  }

  /**
   A quoted text bound to a placeholder of a harmless template is safe, whatever else is bound, exactly
   when it contains no question mark directly followed by a digit from 1 to 9 below its own number.
   */
  lemma ParameterIff(ts: seq<Token>, i: int, t: string)
    requires Template(ts) && Harmless(ts) && 1 <= i <= LAST && Occurrences(ts, i) > 0 && QuotedText(t)
    ensures Printable(ts) && (AlwaysWith(ts, i, t) <==> QuietText(t, i - 1))
  {
    UpToPrintable(ts, LAST);
    if QuietText(t, i - 1) {
      forall ps: Params | BindableParams(ps) && i in ps && ps[i] == t && QuietParams(ps - {i})
        ensures BuildText(Print(ts), LAST, ps) == Simul(ts, ps)
      {
        forall k | k in ps ensures Sealed(ps[k]) && QuietText(ps[k], k - 1) {
          if k != i { assert k in ps - {i}; }
        }
        HarmlessBuild(ts, ps);
      }
    } else {
      LoudBuild(ts, i, t);
    }
  }

  lemma LoudBuild(ts: seq<Token>, i: int, t: string)
    requires Template(ts) && Printable(ts) && 1 <= i <= LAST && Occurrences(ts, i) > 0
    requires QuotedText(t) && !QuietText(t, i - 1)
    ensures !AlwaysWith(ts, i, t)
  {
    var ps := Single(i, t);
    LoudLonger(ts, i, t);
    assert ps - {i} == map[];
    assert BuildText(Print(ts), LAST, ps) != Simul(ts, ps);
  }

  lemma LoudLonger(ts: seq<Token>, i: int, t: string)
    requires Template(ts) && Printable(ts) && 1 <= i <= LAST && Occurrences(ts, i) > 0
    requires QuotedText(t) && !QuietText(t, i - 1)
    ensures |BuildText(Print(ts), LAST, Single(i, t))| > |Simul(ts, Single(i, t))|
  {
    TemplateSettled(ts, true);
    PassesGrow(ts, LAST, i, t);
    SingleFollowed(ts, i, t);
    BuildIsPasses(ts, LAST, Single(i, t));
    AllLiteral(Passes(ts, LAST, Single(i, t)), Single(i, t));
  }

  lemma SingleFollowed(ts: seq<Token>, i: int, t: string)
    requires QuotedText(t)
    ensures Followed(ts, Single(i, t))
  {
    assert Sealed(t) && Firm(t);
  }

  // ---- two statements that go wrong -----------------------------------------

  lemma {:induction false} PassesSkip(ts: seq<Token>, i: nat, j: nat, ps: Params)
    requires j <= i && forall k :: j < k <= i ==> Pass(ts, k, Repl(ps, k)) == ts
    ensures Passes(ts, i, ps) == Passes(ts, j, ps)
    decreases i
  {
    if j < i { PassesSkip(ts, i - 1, j, ps); }
  }

  lemma {:induction false} LitsPass(s: string, k: int, repl: string)
    ensures Pass(Lits(s), k, repl) == Lits(s)
  {
    if s != [] {
      LitsPass(s[1..], k, repl);
      assert Lits(s)[1..] == Lits(s[1..]);
    }
  }

  lemma PairSkips(a: Token, b: Token, k: int, repl: string)
    requires (a.Ph? ==> a.n != k && !Misread([b], a.n, k)) && (b.Ph? ==> b.n != k)
    ensures Pass([a, b], k, repl) == [a, b]
  {
    assert [a, b][1..] == [b] && [b][1..] == [];
    assert Pass([b], k, repl) == [b];
  }

  /** Nothing changes a two-token text while no pass of the range has to do with it. */
  lemma PairPasses(a: Token, b: Token, i: nat, j: nat, ps: Params)
    requires j <= i && forall k :: j < k <= i ==> (a.Ph? ==> a.n != k && !Misread([b], a.n, k)) && b != Ph(k)
    ensures Passes([a, b], i, ps) == Passes([a, b], j, ps)
  {
    forall k | j < k <= i ensures Pass([a, b], k, Repl(ps, k)) == [a, b] { PairSkips(a, b, k, Repl(ps, k)); }
    PassesSkip([a, b], i, j, ps);
  }

  lemma PassReplaces(n: int, k: int, repl: string)
    requires n != k && QuietText(repl, k - 1)
    ensures Pass([Ph(n), Ph(k)], k, repl) == [Ph(n)] + Lits(repl)
  {
    QuietLex(repl, k - 1);
    assert [Ph(k)][1..] == [] && Pass([Ph(k)], k, repl) == Lits(repl) + [];
    assert [Ph(n), Ph(k)][1..] == [Ph(k)];
  }

  lemma PassMisreads(n: int, c: char, k: int, repl: string)
    requires n != k && QuietText(repl, k - 1) && Misread([Lit(c)], n, k)
    ensures Pass([Ph(n), Lit(c)], k, repl) == Lits(repl)
  {
    QuietLex(repl, k - 1);
    assert [Ph(n), Lit(c)][1..] == [Lit(c)] && [Ph(n), Lit(c)][2..] == [];
    assert Lits(repl) + [] == Lits(repl);
  }

  lemma AdjacentPasses()
    ensures Passes([Ph(1), Ph(20)], LAST, Witness(20)) == Lits("NULL")
  {
    var ps := Witness(20);
    PairPasses(Ph(1), Ph(20), LAST, 20, ps);
    AdjacentDigit();
    PairPasses(Ph(1), Lit('0'), 19, 10, ps);
    QuietNull(9);
    PassMisreads(1, '0', 10, "NULL");
    LitsPasses("NULL", 9, ps);
  }

  lemma AdjacentDigit()
    ensures Pass([Ph(1), Ph(20)], 20, "0") == [Ph(1), Lit('0')]
  {
    PassReplaces(1, 20, "0");
    assert Lits("0") == [Lit('0')];
  }

  lemma LitsPasses(s: string, i: nat, ps: Params)
    ensures Passes(Lits(s), i, ps) == Lits(s)
  {
    forall k | 0 < k <= i ensures Pass(Lits(s), k, Repl(ps, k)) == Lits(s) { LitsPass(s, k, Repl(ps, k)); }
    PassesSkip(Lits(s), i, 0, ps);
  }

  lemma AdjacentTexts()
    ensures Printable([Ph(1), Ph(20)]) && Print([Ph(1), Ph(20)]) == "?1?20"
    ensures Simul([Ph(1), Ph(20)], Witness(20)) == "NULL0"
  {
    var b := [Ph(20)];
    assert b == [Ph(20)] + [] && [Ph(1), Ph(20)] == [Ph(1)] + b;
    PrintFront(Ph(20), []);
    PrintFront(Ph(1), b);
    SimulFront(Ph(20), [], Witness(20));
    SimulFront(Ph(1), b, Witness(20));
  }

  /** In ?1?20 with ?20 bound to 0 the digit makes ?1 read as ?10: the digit is lost. */
  lemma AdjacentPlaceholders()
    ensures Template([Ph(1), Ph(20)]) && Printable([Ph(1), Ph(20)]) && Print([Ph(1), Ph(20)]) == "?1?20"
    ensures BuildText("?1?20", LAST, Witness(20)) == "NULL"
    ensures Simul([Ph(1), Ph(20)], Witness(20)) == "NULL0"
  {
    AdjacentTexts();
    AdjacentTemplate();
    WitnessQuiet(20);
    BuildIsPasses([Ph(1), Ph(20)], LAST, Witness(20));
    AdjacentPasses();
    PrintNull();
  }

  lemma AdjacentTemplate()
    ensures Template([Ph(1), Ph(20)])
  {
  }

  lemma PrintNull()
    ensures Printable(Lits("NULL")) && Print(Lits("NULL")) == "NULL"
  {
    QuietNull(0);
    QuietLex("NULL", 0);
    PrintLex("NULL", 0);
  }

  /** A text '?1' bound to ?2 does not arrive: pass 1 replaces inside it, whatever ?1 is. */
  lemma ReadBack(ts: seq<Token>)
    requires Template(ts) && Harmless(ts) && Occurrences(ts, 2) > 0
    ensures Printable(ts) && !AlwaysWith(ts, 2, "'?1'")
  {
    assert "'?1'"[1] == '?' && Reading("'?1'"[1 + 1], 1);
    ParameterIff(ts, 2, "'?1'");
  }

  /** ?1 is bound to the text A, ?2 to the text ?1. */
  function BackParams(): Params { map[1 := "'A'", 2 := "'?1'"] }

  function BackTemplate(): seq<Token> { [Ph(1), Lit(','), Ph(2)] }

  /** In ?1,?2 with ?1 bound to 'A' and ?2 to '?1' the text sent is 'A',''A'' instead of 'A','?1'. */
  lemma ReadBackText()
    ensures Template(BackTemplate()) && Harmless(BackTemplate()) && BindableParams(BackParams())
    ensures Printable(BackTemplate()) && Print(BackTemplate()) == "?1,?2"
    ensures BuildText(Print(BackTemplate()), LAST, BackParams()) == "'A',''A''"
    ensures Simul(BackTemplate(), BackParams()) == "'A','?1'"
  {
    BackTexts();
    BackOk();
    BuildIsPasses(BackTemplate(), LAST, BackParams());
    BackPasses();
    BackSent();
  }

  lemma BackOk()
    ensures Template(BackTemplate()) && Harmless(BackTemplate())
    ensures BindableParams(BackParams()) && FirmParams(BackParams())
  {
    assert QuotedText("'A'") && QuotedText("'?1'");
  }

  lemma BackSent()
    ensures Printable(Lits("'A',''A''")) && Print(Lits("'A',''A''")) == "'A',''A''"
  {
    var t := "'A',''A''";
    assert QuietText(t, 0);
    QuietLex(t, 0);
    PrintLex(t, 0);
  }

  lemma BackTexts()
    ensures Printable(BackTemplate()) && Print(BackTemplate()) == "?1,?2"
    ensures Simul(BackTemplate(), BackParams()) == "'A','?1'"
  {
    var c, b := [Ph(2)], [Lit(','), Ph(2)];
    assert c == [Ph(2)] + [] && b == [Lit(',')] + c && BackTemplate() == [Ph(1)] + b;
    PrintFront(Ph(2), []);
    PrintFront(Lit(','), c);
    PrintFront(Ph(1), b);
    SimulFront(Ph(2), [], BackParams());
    SimulFront(Lit(','), c, BackParams());
    SimulFront(Ph(1), b, BackParams());
  }

  lemma BackPasses()
    ensures Passes(BackTemplate(), LAST, BackParams()) == Lits("'A',''A''")
  {
    var ps := BackParams();
    forall k | 2 < k <= LAST ensures Pass(BackTemplate(), k, Repl(ps, k)) == BackTemplate() {
      BackSkips(k, Repl(ps, k));
    }
    PassesSkip(BackTemplate(), LAST, 2, ps);
    BackSecond();
    BackFirst();
  }

  lemma BackSkips(k: int, repl: string)
    requires k > 2
    ensures Pass(BackTemplate(), k, repl) == BackTemplate()
  {
    var c, b := [Ph(2)], [Lit(','), Ph(2)];
    assert b[1..] == c && BackTemplate()[1..] == b && c[1..] == [];
    assert Pass(c, k, repl) == c && Pass(b, k, repl) == b;
  }

  lemma BackSecond()
    ensures Pass(BackTemplate(), 2, "'?1'") == [Ph(1), Lit(','), Lit('\''), Ph(1), Lit('\'')]
  {
    BackLex();
    var c, b := [Ph(2)], [Lit(','), Ph(2)];
    assert b[1..] == c && BackTemplate()[1..] == b && c[1..] == [];
    assert Pass(c, 2, "'?1'") == [Lit('\''), Ph(1), Lit('\'')];
    assert Pass(b, 2, "'?1'") == [Lit(','), Lit('\''), Ph(1), Lit('\'')];
  }

  lemma BackLex()
    ensures Lex("'?1'", 1) == [Lit('\''), Ph(1), Lit('\'')]
  {
    assert "'?1'"[1..] == "?1'" && "?1'"[2..] == "'" && "'"[1..] == "";
    assert Lex("'", 1) == [Lit('\'')];
    assert Lex("?1'", 1) == [Ph(1), Lit('\'')];
  }

  lemma BackFirst()
    ensures Pass([Ph(1), Lit(','), Lit('\''), Ph(1), Lit('\'')], 1, "'A'") == Lits("'A',''A''")
  {
    TwicePass(',', '\'', "'A'");
    LitsAre();
  }

  lemma TwicePass(c: char, q: char, t: string)
    requires QuietText(t, 0)
    ensures Pass([Ph(1), Lit(c), Lit(q), Ph(1), Lit(q)], 1, t) == Lits(t) + ([Lit(c), Lit(q)] + (Lits(t) + [Lit(q)]))
  {
    var u := [Lit(q)];
    var v := [Ph(1)] + u;
    var w := [Lit(q)] + v;
    var x := [Lit(c)] + w;
    assert [Ph(1)] + x == [Ph(1), Lit(c), Lit(q), Ph(1), Lit(q)];
    QuietLex(t, 0);
    assert u == [Lit(q)] + [];
    PassLit(q, [], 1, t);
    PassOwn(u, 1, t);
    PassLit(q, v, 1, t);
    PassLit(c, w, 1, t);
    PassOwn(x, 1, t);
    assert Pass(x, 1, t) == [Lit(c)] + ([Lit(q)] + (Lits(t) + [Lit(q)]));
  }

  lemma PassLit(c: char, rest: seq<Token>, k: int, repl: string)
    ensures Pass([Lit(c)] + rest, k, repl) == [Lit(c)] + Pass(rest, k, repl)
  {
    assert ([Lit(c)] + rest)[1..] == rest;
  }

  lemma PassOwn(rest: seq<Token>, k: int, repl: string)
    ensures Pass([Ph(k)] + rest, k, repl) == Lex(repl, k - 1) + Pass(rest, k, repl)
  {
    assert ([Ph(k)] + rest)[1..] == rest;
  }

  lemma LitsAre()
    ensures Lits("'A'") == [Lit('\''), Lit('A'), Lit('\'')]
    ensures Lits("'A',''A''") == Lits("'A'") + ([Lit(','), Lit('\'')] + (Lits("'A'") + [Lit('\'')]))
  {
  }
}
