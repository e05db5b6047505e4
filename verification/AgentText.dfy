/**
 What the tag scanner reads back from elements printed the way an agent prints them.
 */
module AgentText {
  import opened Text
  import opened StreamParsing

  /** One observation element, `<tag attrs>value</tag>`. */
  datatype Element = Element(tag: string, attrs: string, value: string) {
    predicate Plain() {
      && |tag| > 0
      && (forall i :: 0 <= i < |tag| ==>
            tag[i] != '<' && tag[i] != '>' && tag[i] != ' ' && tag[i] != '/' && tag[i] != '\0')
      && (attrs == "" || attrs[0] == ' ')
      && (forall i :: 0 <= i < |attrs| ==> attrs[i] != '<' && attrs[i] != '>')
      && (forall i :: 0 <= i < |value| ==> value[i] != '<')
    }

    function Head(): string { "<" + tag + attrs }

    function Print(): string { Head() + ">" + value + "</" + tag + ">" }
  }

  function PrintAll(es: seq<Element>): string {
    if es == [] then "" else es[0].Print() + PrintAll(es[1..])
  }

  /** The elements called `tag`, as the scanner reports them. */
  function Named(es: seq<Element>, tag: string): seq<Hit> {
    if es == [] then []
    else (if es[0].tag == tag then [Hit(es[0].value, es[0].Head())] else []) + Named(es[1..], tag)
  }

  // ---- scanning a suffix ---------------------------------------------------

  function Moved<T>(step: Scan<T>, c: nat): Scan<T>
    requires step.Skip? ==> step.from >= c
    requires step.Step? ==> step.next >= c
  {
    match step
    case Stop => Stop
    case Skip(from) => Skip(from - c)
    case Step(x, next) => Step(x, next - c)
  }

  lemma ElementAtShift(s: string, c: nat, p: nat, tag: string)
    requires c <= |s| && c <= p
    ensures Same(ElementAt(s[c..], p - c, tag), Moved(ElementAt(s, p, tag), c))
  {
    FindSuffix(s, c, ">", p);
    var gt := Find(s, ">", p);
    if gt != -1 { CloseShift(s, c, p, gt, tag); }
  }

  lemma CloseShift(s: string, c: nat, p: nat, gt: nat, tag: string)
    requires c <= |s| && c <= p && gt == Find(s, ">", p) && gt - c == Find(s[c..], ">", p - c)
    ensures Same(ElementAt(s[c..], p - c, tag), Moved(ElementAt(s, p, tag), c))
  {
    var close := "</" + tag + ">";
    FindSuffix(s, c, close, gt);
    var ce := Find(s, close, gt);
    if ce != -1 {
      TagGap(s, tag, p, gt, ce);
      FindLeftmost(s, close, gt);
      ValueShift(s, c, p, gt, ce);
    }
    SameElement(s, s[c..], c, p, gt, ce, tag);
  }

  lemma SameElement(s: string, t: string, c: nat, p: nat, gt: nat, ce: int, tag: string)
    requires c <= p && gt == Find(s, ">", p) && gt - c == Find(t, ">", p - c)
    requires ce == Find(s, "</" + tag + ">", gt)
    requires Find(t, "</" + tag + ">", gt - c) == if ce == -1 then -1 else ce - c
    requires ce != -1 ==> p <= gt < ce <= |s| && ce - c <= |t|
    requires ce != -1 ==> Same(Hit(t[gt - c + 1..ce - c], t[p - c..gt - c]), Hit(s[gt + 1..ce], s[p..gt]))
    ensures Same(ElementAt(t, p - c, tag), Moved(ElementAt(s, p, tag), c))
  {
  }

  lemma ValueShift(s: string, c: nat, p: nat, gt: nat, ce: nat)
    requires c <= p <= gt < ce <= |s|
    ensures Same(Hit(s[c..][gt - c + 1..ce - c], s[c..][p - c..gt - c]), Hit(s[gt + 1..ce], s[p..gt]))
  {
    CutSuffix(s, c, gt + 1, ce);
    CutSuffix(s, c, p, gt);
  }

  lemma TagStepShift(s: string, c: nat, pos: nat, tag: string)
    requires c <= |s| && c <= pos
    ensures Same(TagStep(s[c..], pos - c, tag), Moved(TagStep(s, pos, tag), c))
  {
    FindSuffix(s, c, "<" + tag, pos);
    var p := Find(s, "<" + tag, pos);
    if p != -1 { TagAtShift(s, c, p, tag); }
  }

  lemma TagAtShift(s: string, c: nat, p: nat, tag: string)
    requires c <= |s| && c <= p
    ensures Same(TagAt(s[c..], p - c, tag), Moved(TagAt(s, p, tag), c))
  {
    ElementAtShift(s, c, p, tag);
    CharAtSuffix(s, c, p + |tag| + 1);
  }

  lemma CharAtSuffix(s: string, c: nat, i: nat)
    requires c <= |s| && c <= i
    ensures CharAt(s[c..], i - c) == CharAt(s, i)
  {
  }

  lemma {:induction false} NextTagShift(s: string, c: nat, pos: nat, tag: string)
    requires c <= |s| && c <= pos
    ensures Same(NextTag(s[c..], pos - c, tag), Moved(NextTag(s, pos, tag), c))
    decreases |s| - pos
  {
    TagStepShift(s, c, pos, tag);
    var step := TagStep(s, pos, tag);
    if step.Skip? { NextTagShift(s, c, step.from, tag); }
  }

  lemma HitsShift(s: string, c: nat, pos: nat, tag: string)
    requires c <= |s| && c <= pos
    ensures Hits(s[c..], pos - c, tag) == Hits(s, pos, tag)
  {
    forall from: nat | c <= from ensures NextTag(s[c..], from - c, tag) == Moved(NextTag(s, from, tag), c) {
      NextTagShift(s, c, from, tag);
    }
    SameHits(s, s[c..], c, pos, tag);
  }

  /** Texts that show the same next element from everywhere, `c` places apart, show the same elements. */
  lemma {:induction false} SameHits(s: string, t: string, c: nat, pos: nat, tag: string)
    requires c <= pos
    requires forall from: nat :: c <= from ==> NextTag(t, from - c, tag) == Moved(NextTag(s, from, tag), c)
    ensures Same(Hits(t, pos - c, tag), Hits(s, pos, tag))
    decreases |s| - pos
  {
    var step := NextTag(s, pos, tag);
    if step.Step? { SameHits(s, t, c, step.next, tag); }
  }

  // ---- one printed element at the front ------------------------------------

  /** Where the characters of an element are in a text that starts with it. */
  predicate LaidOut(s: string, e: Element, h: nat) {
    && |s| >= h + 4 + |e.value| + |e.tag| && h == 1 + |e.tag| + |e.attrs|
    && s[0] == '<' && s[..h] == e.Head() && s[h] == '>'
    && (forall i :: 0 <= i < |e.tag| ==> s[1 + i] == e.tag[i])
    && (forall i :: 0 <= i < |e.attrs| ==> s[1 + |e.tag| + i] == e.attrs[i])
    && s[h + 1..h + 1 + |e.value|] == e.value
    && s[h + 1 + |e.value|] == '<' && s[h + 2 + |e.value|] == '/'
    && (forall i :: 0 <= i < |e.tag| ==> s[h + 3 + |e.value| + i] == e.tag[i])
    && s[h + 3 + |e.value| + |e.tag|] == '>'
  }

  lemma Layout(e: Element, rest: string)
    ensures |e.Print()| == |e.Head()| + 1 + |e.value| + |e.tag| + 3 && LaidOut(e.Print() + rest, e, |e.Head()|)
  {
  }

  lemma FirstGt(e: Element, rest: string)
    requires e.Plain()
    ensures Find(e.Print() + rest, ">", 0) == |e.Head()|
  {
    var s, h := e.Print() + rest, |e.Head()|;
    Layout(e, rest);
    forall q: nat | q < h ensures !At(s, ">", q) {
      assert s[q] == e.Head()[q];
      assert ">"[0] != s[q + 0];
    }
    assert At(s, ">", h);
    FindIs(s, ">", 0, h);
  }

  lemma FirstClose(e: Element, rest: string)
    requires e.Plain()
    ensures Find(e.Print() + rest, "</" + e.tag + ">", |e.Head()|) == |e.Head()| + 1 + |e.value|
  {
    var s, h := e.Print() + rest, |e.Head()|;
    var close := "</" + e.tag + ">";
    Layout(e, rest);
    forall q: nat | h <= q < h + 1 + |e.value| ensures !At(s, close, q) {
      if q > h { assert s[q] == e.value[q - h - 1]; }
      assert close[0] != s[q + 0];
    }
    FindIs(s, close, h, h + 1 + |e.value|);
  }

  lemma ElementAtFront(e: Element, rest: string)
    requires e.Plain()
    ensures ElementAt(e.Print() + rest, 0, e.tag) == Step(Hit(e.value, e.Head()), |e.Print()|)
  {
    FirstGt(e, rest);
    FirstClose(e, rest);
    Slices(e, rest);
  }

  lemma Slices(e: Element, rest: string)
    ensures var s := e.Print() + rest; var h := |e.Head()|;
      && s[0..h] == e.Head() && s[h + 1..h + 1 + |e.value|] == e.value
      && h + 1 + |e.value| + |"</" + e.tag + ">"| == |e.Print()|
  {
    Layout(e, rest);
  }

  lemma ReadsFront(e: Element, rest: string)
    requires e.Plain()
    ensures NextTag(e.Print() + rest, 0, e.tag) == Step(Hit(e.value, e.Head()), |e.Print()|)
  {
    var s := e.Print() + rest;
    OpensFront(e, rest);
    ElementAtFront(e, rest);
    EndsName(e, rest);
    assert TagStep(s, 0, e.tag) == TagAt(s, 0, e.tag);
  }

  lemma OpensFront(e: Element, rest: string)
    ensures Find(e.Print() + rest, "<" + e.tag, 0) == 0
  {
    Layout(e, rest);
    assert At(e.Print() + rest, "<" + e.tag, 0);
  }

  /** No `<tag` starts strictly inside a printed element. */
  lemma NoInnerOpen(e: Element, rest: string, tag: string, q: nat)
    requires e.Plain() && |tag| > 0 && tag[0] != '/' && 0 < q < |e.Print()|
    ensures !At(e.Print() + rest, "<" + tag, q)
  {
    var s, h := e.Print() + rest, |e.Head()|;
    Layout(e, rest);
    var open := "<" + tag;
    if q == h + 1 + |e.value| {
      assert open[1] != s[q + 1];
    } else {
      InnerChar(e, rest, q);
      assert open[0] != s[q + 0];
    }
  }

  lemma InnerChar(e: Element, rest: string, q: nat)
    requires e.Plain() && 0 < q < |e.Print()| && q != |e.Head()| + 1 + |e.value|
    ensures (e.Print() + rest)[q] != '<'
  {
    Layout(e, rest);
    LaidOutInner(e.Print() + rest, e, |e.Head()|, q);
  }

  lemma LaidOutInner(s: string, e: Element, h: nat, q: nat)
    requires LaidOut(s, e, h) && e.Plain() && 0 < q < h + 4 + |e.value| + |e.tag| && q != h + 1 + |e.value|
    ensures s[q] != '<'
  {
    if q < 1 + |e.tag| {
      assert s[1 + (q - 1)] == e.tag[q - 1];
    } else if q < h {
      assert s[1 + |e.tag| + (q - 1 - |e.tag|)] == e.attrs[q - 1 - |e.tag|];
    } else if h < q < h + 1 + |e.value| {
      assert s[q] == s[h + 1..h + 1 + |e.value|][q - h - 1];
    } else if h + 3 + |e.value| <= q < h + 3 + |e.value| + |e.tag| {
      assert s[h + 3 + |e.value| + (q - (h + 3 + |e.value|))] == e.tag[q - (h + 3 + |e.value|)];
    }
  }

  /** A `<tag` that matches the front of a differently named element is a proper prefix of its name. */
  lemma LongerName(e: Element, rest: string, tag: string)
    requires e.Plain() && Element(tag, "", "").Plain() && tag != e.tag
    requires At(e.Print() + rest, "<" + tag, 0)
    ensures CharAt(e.Print() + rest, 1 + |tag|) != ' ' && CharAt(e.Print() + rest, 1 + |tag|) != '>'
  {
    var s := e.Print() + rest;
    NameAtFront(s, tag);
    OpensFront(e, rest);
    FindLeftmost(s, "<" + e.tag, 0);
    NameAtFront(s, e.tag);
    EndsName(e, rest);
    NamesDiffer(s, tag, e.tag);
  }

  lemma NameAtFront(s: string, tag: string)
    requires At(s, "<" + tag, 0)
    ensures |s| >= 1 + |tag| && s[1..1 + |tag|] == tag
  {
    var open := "<" + tag;
    forall j | 1 <= j < 1 + |tag| ensures s[j] == tag[j - 1] {
      assert open[j] == s[0 + j];
    }
  }

  lemma NamesDiffer(s: string, a: string, b: string)
    requires |s| >= 1 + |a| && |s| > 1 + |b| && a != b
    requires s[1..1 + |a|] == a && s[1..1 + |b|] == b
    requires s[1 + |b|] == ' ' || s[1 + |b|] == '>'
    requires forall i :: 0 <= i < |a| ==> a[i] != ' ' && a[i] != '>'
    requires forall i :: 0 <= i < |b| ==> b[i] != ' ' && b[i] != '>'
    ensures |s| > 1 + |a| && s[1 + |a|] != ' ' && s[1 + |a|] != '>'
  {
    forall j | 1 <= j < 1 + |a| ensures s[j] != ' ' && s[j] != '>' {
      assert s[j] == a[j - 1];
    }
    assert |a| < |b|;
    assert s[1 + |a|] == b[|a|];
  }

  lemma EndsName(e: Element, rest: string)
    requires e.Plain()
    ensures |e.Print() + rest| > 1 + |e.tag|
    ensures var c := (e.Print() + rest)[1 + |e.tag|]; c == ' ' || c == '>'
  {
    Layout(e, rest);
  }

  lemma SkipsFront(e: Element, rest: string, tag: string)
    requires e.Plain() && Element(tag, "", "").Plain() && tag != e.tag
    ensures NextTag(e.Print() + rest, 0, tag) == NextTag(e.Print() + rest, |e.Print()|, tag)
  {
    var s, open, n := e.Print() + rest, "<" + tag, |e.Print()|;
    FindLeftmost(s, open, 0);
    FindLeftmost(s, open, 1);
    forall q: nat | 0 < q < n ensures !At(s, open, q) {
      NoInnerOpen(e, rest, tag, q);
    }
    assert Find(s, open, 1) == -1 || Find(s, open, 1) >= n;
    FindSkip(s, open, 1, n);
    assert TagStep(s, 1, tag) == TagStep(s, n, tag);
    assert NextTag(s, 1, tag) == NextTag(s, n, tag);
    if At(s, open, 0) {
      LongerName(e, rest, tag);
      assert Find(s, open, 0) == 0;
      assert TagStep(s, 0, tag) == Skip(1);
    } else {
      FindSkip(s, open, 0, 1);
      assert TagStep(s, 0, tag) == TagStep(s, 1, tag);
    }
  }

  /**
   Round trip: scanning a printed list of elements for one tag gives back exactly the elements of
   that name, in order, with their values and opening tags; names that extend the tag are not confused.
   */
  lemma {:induction false} ScanReadsPrint(es: seq<Element>, tag: string)
    requires forall e :: e in es ==> e.Plain()
    requires Element(tag, "", "").Plain()
    ensures Hits(PrintAll(es), 0, tag) == Named(es, tag)
  {
    if es == [] {
      assert Find("", "<" + tag, 0) == -1;
    } else {
      ScanReadsPrint(es[1..], tag);
      ScanFront(es[0], PrintAll(es[1..]), tag);
    }
  }

  lemma ScanFront(e: Element, rest: string, tag: string)
    requires e.Plain() && Element(tag, "", "").Plain()
    ensures Hits(e.Print() + rest, 0, tag) ==
            (if e.tag == tag then [Hit(e.value, e.Head())] else []) + Hits(rest, 0, tag)
  {
    var s, n := e.Print() + rest, |e.Print()|;
    HitsShift(s, n, n, tag);
    assert s[n..] == rest;
    if e.tag == tag { ReadsFront(e, rest); } else { SkipsFront(e, rest, tag); }
  }

  /** After a printed list, a field holds the trimmed value of the last element of its tag. */
  lemma LastPrintedWins(before: seq<Element>, e: Element, after: seq<Element>, current: string)
    requires forall x :: x in before + [e] + after ==> x.Plain()
    requires forall x :: x in after ==> x.tag != e.tag
    ensures LastValue(Hits(PrintAll(before + [e] + after), 0, e.tag), current) == Trimmed(e.value)
  {
    var es := before + [e] + after;
    assert e in es;
    ScanReadsPrint(es, e.tag);
    NamedConcat(before + [e], after, e.tag);
    NamedConcat(before, [e], e.tag);
    NamedNone(after, e.tag);
    assert Named([e], e.tag) == [Hit(e.value, e.Head())] + Named([e][1..], e.tag);
  }

  lemma NamedFront(a: seq<Element>, b: seq<Element>)
    requires a != []
    ensures (a + b)[0] == a[0] && (a + b)[1..] == a[1..] + b
  {
  }

  lemma {:induction false} NamedConcat(a: seq<Element>, b: seq<Element>, tag: string)
    ensures Named(a + b, tag) == Named(a, tag) + Named(b, tag)
  {
    if a == [] {
      assert a + b == b;
    } else {
      NamedConcat(a[1..], b, tag);
      NamedFront(a, b);
      Associate(if a[0].tag == tag then [Hit(a[0].value, a[0].Head())] else [], Named(a[1..], tag), Named(b, tag));
    }
  }

  lemma {:induction false} NamedNone(es: seq<Element>, tag: string)
    requires forall x :: x in es ==> x.tag != tag
    ensures Named(es, tag) == []
  {
    if es != [] { NamedNone(es[1..], tag); }
  }
}
