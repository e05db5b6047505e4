/**
 What one printed <DeviceStream> block does to its machine: the fields, the two named samples, the
 conditions and the emergency stop, read back from the texts an agent prints.
 */
module AgentBlocks {
  import opened Text
  import opened StreamParsing
  import opened AgentText
  import Alarms

  // ---- texts without a certain tag -----------------------------------------

  /** What follows the `<` at `q` differs from `tag` inside `s`. */
  predicate Differs(s: string, q: nat, tag: string) {
    exists j :: 0 <= j < |tag| && q + 1 + j < |s| && s[q + 1 + j] != tag[j]
  }

  /** No `<tag` starts in `s`, whatever follows `s`. */
  predicate Quiet(s: string, tag: string) {
    forall q :: 0 <= q < |s| && s[q] == '<' ==> Differs(s, q, tag)
  }

  lemma QuietConcat(a: string, b: string, tag: string)
    requires Quiet(a, tag) && Quiet(b, tag)
    ensures Quiet(a + b, tag)
  {
    var s := a + b;
    forall q | 0 <= q < |s| && s[q] == '<' ensures Differs(s, q, tag) {
      if q < |a| {
        assert Differs(a, q, tag);
        var j :| 0 <= j < |tag| && q + 1 + j < |a| && a[q + 1 + j] != tag[j];
        assert s[q + 1 + j] != tag[j];
      } else {
        assert Differs(b, q - |a|, tag);
        var j :| 0 <= j < |tag| && q - |a| + 1 + j < |b| && b[q - |a| + 1 + j] != tag[j];
        assert s[q + 1 + j] != tag[j];
      }
    }
  }

  lemma NotOpen(a: string, b: string, tag: string, q: nat)
    requires Quiet(a, tag) && q < |a|
    ensures !At(a + b, "<" + tag, q)
  {
    var open := "<" + tag;
    if a[q] == '<' {
      assert Differs(a, q, tag);
      var j :| 0 <= j < |tag| && q + 1 + j < |a| && a[q + 1 + j] != tag[j];
      assert open[j + 1] != (a + b)[q + (j + 1)];
    } else {
      assert open[0] != (a + b)[q + 0];
    }
  }

  /** A search passes over a quiet text. */
  lemma FindBehind(a: string, b: string, tag: string, from: nat)
    requires Quiet(a, tag) && from <= |a|
    ensures Find(a + b, "<" + tag, from) == if Find(b, "<" + tag, 0) == -1 then -1 else |a| + Find(b, "<" + tag, 0)
  {
    var s, open := a + b, "<" + tag;
    FindLeftmost(s, open, from);
    forall q: nat | q < |a| ensures !At(s, open, q) { NotOpen(a, b, tag, q); }
    FindSkip(s, open, from, |a|);
    FindSuffix(s, |a|, open, |a|);
    assert s[|a|..] == b;
  }

  /** A text that starts with its only tag, which differs from `tag` at place `j`. */
  lemma OneTag(s: string, tag: string, j: nat)
    requires 1 + j < |s| && j < |tag| && s[0] == '<' && s[1 + j] != tag[j]
    requires forall q :: 0 < q < |s| ==> s[q] != '<'
    ensures Quiet(s, tag)
  {
    assert s[0 + 1 + j] != tag[j];
    assert Differs(s, 0, tag);
  }

  /** The tag behind a quiet text is found there, from the start of that text on. */
  lemma Placed(p: string, a: string, open: string, tag: string, c: string)
    requires Quiet(a, tag) && open == "<" + tag
    ensures Find(p + (a + (open + c)), open, |p|) == |p| + |a|
  {
    var s, rest := p + (a + (open + c)), open + c;
    FindSuffix(s, |p|, open, |p|);
    assert s[|p|..] == a + rest;
    FindBehind(a, rest, tag, 0);
    assert At(rest, open, 0);
  }

  lemma ScanBehind(a: string, b: string, tag: string)
    requires Quiet(a, tag)
    ensures Same(Hits(a + b, 0, tag), Hits(b, 0, tag))
  {
    var s := a + b;
    FindBehind(a, b, tag, 0);
    FindBehind(a, b, tag, |a|);
    assert TagStep(s, 0, tag) == TagStep(s, |a|, tag);
    assert NextTag(s, 0, tag) == NextTag(s, |a|, tag);
    assert Hits(s, 0, tag) == Hits(s, |a|, tag);
    HitsShift(s, |a|, |a|, tag);
    assert s[|a|..] == b;
  }

  // ---- the pieces of a block -----------------------------------------------

  /** An element, or any other text, such as the tags of the components around the elements. */
  datatype Piece = Item(e: Element) | Other(text: string) {
    function Print(): string { match this case Item(e) => e.Print() case Other(text) => text }
  }

  function PrintPieces(ps: seq<Piece>): string {
    if ps == [] then "" else ps[0].Print() + PrintPieces(ps[1..])
  }

  /** The elements called `tag`, as the scanner reports them. */
  function NamedIn(ps: seq<Piece>, tag: string): seq<Hit> {
    if ps == [] then [] else NamedOne(ps[0], tag) + NamedIn(ps[1..], tag)
  }

  function NamedOne(p: Piece, tag: string): seq<Hit> {
    if p.Item? && p.e.tag == tag then [Hit(p.e.value, p.e.Head())] else []
  }

  predicate PieceOk(p: Piece, tag: string) {
    match p case Item(e) => e.Plain() case Other(text) => Quiet(text, tag)
  }

  predicate PiecesOk(ps: seq<Piece>, tag: string) { forall i :: 0 <= i < |ps| ==> PieceOk(ps[i], tag) }

  lemma PieceRead(p: Piece, rest: string, tag: string)
    requires PieceOk(p, tag) && Element(tag, "", "").Plain()
    ensures Same(Hits(p.Print() + rest, 0, tag), NamedOne(p, tag) + Hits(rest, 0, tag))
  {
    match p {
      case Item(e) => ScanFront(e, rest, tag);
      case Other(text) =>
        ScanBehind(text, rest, tag);
        assert [] + Hits(rest, 0, tag) == Hits(rest, 0, tag);
    }
  }

  lemma {:induction false} PiecesRead(ps: seq<Piece>, rest: string, tag: string)
    requires PiecesOk(ps, tag) && Element(tag, "", "").Plain()
    ensures Same(Hits(PrintPieces(ps) + rest, 0, tag), NamedIn(ps, tag) + Hits(rest, 0, tag))
  {
    if ps == [] {
      assert PrintPieces(ps) + rest == rest;
      assert [] + Hits(rest, 0, tag) == Hits(rest, 0, tag);
    } else {
      PiecesRead(ps[1..], rest, tag);
      PieceRead(ps[0], PrintPieces(ps[1..]) + rest, tag);
      Associate(ps[0].Print(), PrintPieces(ps[1..]), rest);
      Associate(NamedOne(ps[0], tag), NamedIn(ps[1..], tag), Hits(rest, 0, tag));
    }
  }

  lemma {:induction false} PrintConcat(a: seq<Piece>, b: seq<Piece>)
    ensures PrintPieces(a + b) == PrintPieces(a) + PrintPieces(b)
  {
    if a == [] {
      assert a + b == b;
    } else {
      PrintConcat(a[1..], b);
      assert (a + b)[0] == a[0] && (a + b)[1..] == a[1..] + b;
      Associate(a[0].Print(), PrintPieces(a[1..]), PrintPieces(b));
    }
  }

  // ---- attributes ----------------------------------------------------------

  /** Neither `name` nor an earlier `=` can be taken for the start of the attribute that follows `a`. */
  predicate Before(a: string, name: string) {
    && name != "" && (forall j :: 0 <= j < |name| ==> name[j] != '=')
    && forall q :: |name| <= q < |a| && a[q] == '=' ==> a[q - |name|..q] != name
  }

  predicate Without(s: string, c: char) { forall j :: 0 <= j < |s| ==> s[j] != c }

  /** An attribute as it is printed. */
  function Attr(name: string, v: string): string { name + "=\"" + v + "\"" }

  /** The attribute printed behind `a` is the one that is found. */
  lemma AttrRead(a: string, name: string, v: string, b: string)
    requires Before(a, name) && Without(v, '"')
    ensures Same(AttrOf(a + (Attr(name, v) + b), name), v)
  {
    AttrParts(a, name, v, b);
    AttrFound(a, name, v, "\"" + b);
  }

  lemma AttrFound(a: string, name: string, v: string, tail: string)
    requires Before(a, name) && Without(v, '"') && tail != "" && tail[0] == '"'
    ensures Same(AttrOf(a + (name + "=\"") + v + tail, name), v)
  {
    var p := a + (name + "=\"");
    FindOwn(a, name, v + tail);
    Associate(p, v, tail);
    QuoteEnds(p, v, tail);
    AttrIs(p + v + tail, name, |a|, |a| + |name| + 2 + |v|);
  }

  lemma AttrParts(a: string, name: string, v: string, b: string)
    ensures Same(a + (Attr(name, v) + b), a + (name + "=\"") + v + ("\"" + b))
  {
    assert a + (Attr(name, v) + b) == a + (name + "=\"") + v + ("\"" + b);
  }

  lemma AttrIs(s: string, name: string, p: nat, e: nat)
    requires p == Find(s, name + "=\"", 0) && e == Find(s, "\"", p + |name| + 2) && p + |name| + 2 <= e <= |s|
    ensures Same(AttrOf(s, name), s[p + |name| + 2..e])
  {
  }

  lemma FindOwn(a: string, name: string, rest: string)
    requires Before(a, name)
    ensures Find(a + (name + "=\"") + rest, name + "=\"", 0) == |a|
  {
    var pat := name + "=\"";
    var s := a + pat + rest;
    assert At(s, pat, |a|);
    forall q: nat | q < |a| ensures !At(s, pat, q) { NoEarlierAttr(a, name, rest, q); }
    FindIs(s, pat, 0, |a|);
  }

  /** A text without quotes ends at the next one. */
  lemma QuoteEnds(p: string, v: string, tail: string)
    requires Without(v, '"') && tail != "" && tail[0] == '"'
    ensures Find(p + v + tail, "\"", |p|) == |p| + |v| && (p + v + tail)[|p|..|p| + |v|] == v
  {
    var s := p + v + tail;
    forall q: nat | |p| <= q < |p| + |v| ensures !At(s, "\"", q) {
      assert s[q] == v[q - |p|];
      assert "\""[0] != s[q + 0];
    }
    assert At(s, "\"", |p| + |v|);
    FindIs(s, "\"", |p|, |p| + |v|);
  }

  lemma NoEarlierAttr(a: string, name: string, rest: string, q: nat)
    requires Before(a, name) && q < |a|
    ensures !At(a + (name + "=\"") + rest, name + "=\"", q)
  {
    var pat := name + "=\"";
    var s := a + pat + rest;
    var e := q + |name|;
    assert pat[|name|] == '=' && s[e] == s[q + |name|];
    if e < |a| {
      if a[e] == '=' {
        var j := FirstDifference(a[e - |name|..e], name);
        assert pat[j] != s[q + j];
      } else {
        assert pat[|name|] != s[q + |name|];
      }
    } else {
      assert s[e] == name[e - |a|];
      assert pat[|name|] != s[q + |name|];
    }
  }

  lemma {:induction false} FirstDifference(a: string, b: string) returns (j: nat)
    requires |a| == |b| && a != b
    ensures j < |a| && a[j] != b[j]
  {
    j := 0;
    while j < |a| && a[j] == b[j]
      invariant j <= |a| && forall i :: 0 <= i < j ==> a[i] == b[i]
    {
      j := j + 1;
    }
  }

  /** The attribute stands in the text, and nothing in front of it can be taken for it. */
  predicate PrintedAt(s: string, name: string, v: string, k: nat)
    requires k <= |s|
  {
    var n := |Attr(name, v)|;
    k + n <= |s| && s[k..k + n] == Attr(name, v) && Before(s[..k], name) && Without(v, '"')
  }

  /** The attribute is printed with this value; an empty value may also stand for no attribute. */
  predicate Printed(s: string, name: string, v: string) {
    || (v == "" && Find(s, name + "=\"", 0) == -1)
    || exists k :: 0 <= k <= |s| && PrintedAt(s, name, v, k)
  }

  lemma PrintedRead(s: string, name: string, v: string)
    requires Printed(s, name, v)
    ensures Same(AttrOf(s, name), v)
  {
    if !(v == "" && Find(s, name + "=\"", 0) == -1) {
      var k :| 0 <= k <= |s| && PrintedAt(s, name, v, k);
      PrintedBefore(s, "", name, v, k);
      NothingBehind(s);
    }
  }

  lemma NothingBehind(s: string)
    ensures Same(s + "", s)
  {
    assert s + "" == s;
  }

  /** It is found there, whatever follows the text. */
  lemma PrintedBefore(s: string, rest: string, name: string, v: string, k: nat)
    requires k <= |s| && PrintedAt(s, name, v, k)
    ensures Same(AttrOf(s + rest, name), v)
  {
    var m := k + |Attr(name, v)|;
    Around(s, s[..k], Attr(name, v), k, m, rest);
    AttrRead(s[..k], name, v, s[m..] + rest);
  }

  lemma Around(s: string, a: string, pat: string, k: nat, m: nat, rest: string)
    requires k <= m <= |s| && Same(a, s[..k]) && Same(pat, s[k..m])
    ensures Same(s + rest, a + (pat + (s[m..] + rest)))
  {
    assert s == s[..k] + (s[k..m] + s[m..]);
    Associate(pat, s[m..], rest);
    Associate(a, pat + s[m..], rest);
  }

  // ---- condition elements --------------------------------------------------

  datatype Level = Normal | Warning | Fault | Failed | Unavailable

  function TagName(l: Level): string {
    match l
    case Normal => "Normal"
    case Warning => "Warning"
    case Fault => "Fault"
    case Failed => "Failed"
    case Unavailable => "Unavailable"
  }

  /** A condition element with its attributes, closed at once or around a text. */
  datatype Mark = Mark(level: Level, attrs: string, id: string, kind: string, text: Option<string>) {
    function Start(): string { "<" + TagName(level) + " " }

    function Attrs(): string { if text.None? then attrs + "/" else attrs }

    /** The opening tag without its `>`. */
    function Head(): string { Start() + Attrs() }

    function Body(): string { if text.None? then "" else text.value + ("</" + TagName(level) + ">") }

    function Print(): string { Head() + (">" + Body()) }

    /** The attributes hold the data item and the type, in any order and between any others. */
    predicate Plain() {
      && Without(attrs, '<') && Without(attrs, '>')
      && Printed(Head(), "dataItemId", id) && Printed(Head(), "type", kind)
      && (text.Some? ==> Without(text.value, '<'))
    }
  }

  function PrintMarks(ms: seq<Mark>): string { if ms == [] then "" else ms[0].Print() + PrintMarks(ms[1..]) }

  lemma MarkAttributes(m: Mark)
    requires m.Plain()
    ensures AttrOf(m.Head(), "dataItemId") == m.id && AttrOf(m.Head(), "type") == m.kind
  {
    PrintedRead(m.Head(), "dataItemId", m.id);
    PrintedRead(m.Head(), "type", m.kind);
  }

  // ---- scanning condition elements -----------------------------------------

  lemma AfterMarkShift(s: string, c: nat, gt: nat, name: string)
    requires c <= gt < |s|
    ensures AfterMark(s[c..], gt - c, name) == AfterMark(s, gt, name) - c
  {
    AtSuffix(s, c, "</" + name + ">", gt + 1 - c);
  }

  lemma MarkAtShift(s: string, c: nat, p: nat, name: string)
    requires c <= |s| && c <= p
    ensures Same(MarkAt(s[c..], p - c, name), Moved(MarkAt(s, p, name), c))
  {
    CharAtSuffix(s, c, p + |name| + 1);
    FindSuffix(s, c, ">", p);
    var gt := Find(s, ">", p);
    if gt != -1 { GtShift(s, c, p, gt, name); }
    SameMark(s, s[c..], c, p, gt, name);
  }

  lemma GtShift(s: string, c: nat, p: nat, gt: nat, name: string)
    requires c <= p <= gt < |s|
    ensures Same(s[c..][p - c..gt - c], s[p..gt]) && AfterMark(s[c..], gt - c, name) == AfterMark(s, gt, name) - c
  {
    CutSuffix(s, c, p, gt);
    AfterMarkShift(s, c, gt, name);
  }

  lemma SameMark(s: string, t: string, c: nat, p: nat, gt: int, name: string)
    requires c <= p && gt == Find(s, ">", p) && CharAt(t, p - c + |name| + 1) == CharAt(s, p + |name| + 1)
    requires Find(t, ">", p - c) == if gt == -1 then -1 else gt - c
    requires gt != -1 ==> gt - c < |t| && Same(t[p - c..gt - c], s[p..gt])
    requires gt != -1 ==> AfterMark(t, gt - c, name) == AfterMark(s, gt, name) - c
    ensures Same(MarkAt(t, p - c, name), Moved(MarkAt(s, p, name), c))
  {
  }

  lemma MarkStepShift(s: string, c: nat, pos: nat, name: string)
    requires c <= |s| && c <= pos
    ensures Same(MarkStep(s[c..], pos - c, name), Moved(MarkStep(s, pos, name), c))
  {
    FindSuffix(s, c, "<" + name, pos);
    var p := Find(s, "<" + name, pos);
    if p != -1 { MarkAtShift(s, c, p, name); }
  }

  lemma MarksShift(s: string, c: nat, pos: nat, name: string)
    requires c <= |s| && c <= pos
    ensures Same(Marks(s[c..], pos - c, name), Marks(s, pos, name))
  {
    SameMarks(s, s[c..], c, pos, name);
  }

  lemma SameStep(s: string, t: string, c: nat, pos: nat, name: string)
    requires c <= |s| && c <= pos && Same(t, s[c..])
    ensures Same(MarkStep(t, pos - c, name), Moved(MarkStep(s, pos, name), c))
  {
    MarkStepShift(s, c, pos, name);
  }

  /** Scanning a text from a place on, and scanning what is left of it behind an earlier place. */
  lemma {:induction false} SameMarks(s: string, t: string, c: nat, pos: nat, name: string)
    requires c <= |s| && c <= pos && Same(t, s[c..])
    ensures Same(Marks(t, pos - c, name), Marks(s, pos, name))
    decreases |s| - pos
  {
    SameStep(s, t, c, pos, name);
    match MarkStep(s, pos, name)
    case Stop =>
    case Skip(from) =>
      SameMarks(s, t, c, from, name);
    case Step(tag, next) =>
      SameMarks(s, t, c, next, name);
      FirstMark(s, pos, name, tag, next);
      FirstMark(t, pos - c, name, tag, next - c);
  }

  lemma FirstMark(s: string, pos: nat, name: string, tag: string, next: nat)
    requires MarkStep(s, pos, name) == Step(tag, next)
    ensures Same(Marks(s, pos, name), [tag] + Marks(s, next, name))
  {
  }

  /** Scanning passes over a quiet text. */
  lemma MarksBehind(a: string, b: string, name: string)
    requires Quiet(a, name)
    ensures Same(Marks(a + b, 0, name), Marks(b, 0, name))
  {
    var s := a + b;
    FindBehind(a, b, name, 0);
    FindBehind(a, b, name, |a|);
    SameStart(s, 0, |a|, name);
    MarksShift(s, |a|, |a|, name);
    assert s[|a|..] == b;
  }

  lemma SameStart(s: string, p: nat, q: nat, name: string)
    requires Find(s, "<" + name, p) == Find(s, "<" + name, q)
    ensures Same(Marks(s, p, name), Marks(s, q, name))
  {
    assert MarkStep(s, p, name) == MarkStep(s, q, name);
  }

  /** What a condition element consists of decides whether it is quiet. */
  lemma QuietAround(start: string, attrs: string, body: string, tag: string, all: string)
    requires Quiet(start, tag) && Without(attrs, '<') && Quiet(body, tag) && Same(all, start + attrs + (">" + body))
    ensures Quiet(all, tag)
  {
    NoTags(attrs, tag);
    QuietConcat(start, attrs, tag);
    NoTags(">", tag);
    QuietConcat(">", body, tag);
    QuietConcat(start + attrs, ">" + body, tag);
  }

  lemma QuietMark(m: Mark, tag: string)
    requires m.Plain() && Quiet(m.Start(), tag) && Quiet("</" + TagName(m.level) + ">", tag)
    ensures Quiet(m.Print(), tag)
  {
    BodyQuiet(m, tag);
    QuietAround(m.Start(), m.Attrs(), m.Body(), tag, m.Print());
  }

  lemma BodyQuiet(m: Mark, tag: string)
    requires m.Plain() && Quiet("</" + TagName(m.level) + ">", tag)
    ensures Quiet(m.Body(), tag)
  {
    if m.text.Some? {
      NoTags(m.text.value, tag);
      QuietConcat(m.text.value, "</" + TagName(m.level) + ">", tag);
    }
  }

  /** No other state's name starts a condition element. */
  lemma OtherMark(m: Mark, l: Level)
    requires m.Plain() && m.level != l
    ensures Quiet(m.Print(), TagName(l))
  {
    OtherStart(m, l);
    CloseQuiet(m.level, l);
    QuietMark(m, TagName(l));
  }

  lemma NoTags(s: string, tag: string)
    requires Without(s, '<')
    ensures Quiet(s, tag)
  {
  }

  lemma OtherStart(m: Mark, l: Level)
    requires m.level != l
    ensures Quiet(m.Start(), TagName(l))
  {
    var s, t := m.Start(), TagName(l);
    var j := FirstLetter(m.level, l);
    assert Differs(s, 0, t) by { assert s[0 + 1 + j] == TagName(m.level)[j] != t[j]; }
    assert forall q :: 0 < q < |s| ==> s[q] != '<';
  }

  /** The state names differ in their first or second letter. */
  lemma FirstLetter(a: Level, b: Level) returns (j: nat)
    requires a != b
    ensures j < |TagName(a)| && j < |TagName(b)| && TagName(a)[j] != TagName(b)[j]
  {
    j := if TagName(a)[0] == TagName(b)[0] then 2 else 0;
  }

  lemma CloseQuiet(a: Level, l: Level)
    ensures Quiet("</" + TagName(a) + ">", TagName(l))
  {
    OneTag("</" + TagName(a) + ">", TagName(l), 0);
  }

  // ---- one printed condition element at the front --------------------------

  predicate ClosesNothing(rest: string) { |rest| >= 2 ==> rest[0] != '<' || rest[1] != '/' }

  lemma HeadPlain(m: Mark)
    requires m.Plain()
    ensures Without(m.Head(), '>')
  {
    assert Without(m.Start(), '>') && Without(m.Attrs(), '>');
  }

  lemma OwnStep(m: Mark, rest: string)
    requires m.Plain()
    ensures var s := m.Head() + (">" + rest);
      MarkStep(s, 0, TagName(m.level)) == Step(m.Head(), AfterMark(s, |m.Head()|, TagName(m.level)))
  {
    var s, name, h := m.Head() + (">" + rest), TagName(m.level), |m.Head()|;
    OwnOpen(m, ">" + rest);
    HeadPlain(m);
    forall q: nat | q < h ensures !At(s, ">", q) { assert s[q] == m.Head()[q]; assert ">"[0] != s[q + 0]; }
    assert At(s, ">", h);
    FindIs(s, ">", 0, h);
    assert s[0..h] == m.Head();
  }

  lemma OwnOpen(m: Mark, rest: string)
    ensures Find(m.Head() + rest, "<" + TagName(m.level), 0) == 0
    ensures CharAt(m.Head() + rest, |TagName(m.level)| + 1) == ' '
  {
    var s, open := m.Head() + rest, "<" + TagName(m.level);
    assert m.Start() == open + " ";
    assert forall k :: 0 <= k < |m.Start()| ==> s[k] == m.Start()[k];
    assert At(s, open, 0);
  }

  /** What is left to scan behind an own condition element are the marks of the rest. */
  lemma OwnRest(m: Mark, rest: string)
    requires m.Plain() && ClosesNothing(rest)
    ensures var s, name := m.Head() + (">" + (m.Body() + rest)), TagName(m.level);
      Same(Marks(s, AfterMark(s, |m.Head()|, name), name), Marks(rest, 0, name))
  {
    var name := TagName(m.level);
    if m.text.Some? && m.text.value == "" {
      assert m.Body() == "</" + name + ">";
      RestClosed(m.Head(), rest, name);
    } else {
      NotClosed(m, rest, "</" + name + ">");
      CloseQuiet(m.level, m.level);
      BodyQuiet(m, name);
      RestOpen(m.Head(), m.Body(), rest, name);
    }
  }

  lemma AfterGt(p: string, t: string, name: string)
    ensures var s, close := p + (">" + t), "</" + name + ">";
      AfterMark(s, |p|, name) == |p| + 1 + if At(t, close, 0) then |close| else 0
  {
    var s := p + (">" + t);
    assert s[|p| + 1..] == t;
    AtSuffix(s, |p| + 1, "</" + name + ">", 0);
  }

  lemma RestClosed(p: string, rest: string, name: string)
    ensures var s := p + (">" + ("</" + name + ">" + rest));
      Same(Marks(s, AfterMark(s, |p|, name), name), Marks(rest, 0, name))
  {
    var close := "</" + name + ">";
    var s, n := p + (">" + (close + rest)), |p| + 1 + |close|;
    assert At(close + rest, close, 0);
    AfterGt(p, close + rest, name);
    assert s[n..] == rest;
    MarksShift(s, n, n, name);
  }

  lemma RestOpen(p: string, body: string, rest: string, name: string)
    requires !At(body + rest, "</" + name + ">", 0) && Quiet(body, name)
    ensures var s := p + (">" + (body + rest));
      Same(Marks(s, AfterMark(s, |p|, name), name), Marks(rest, 0, name))
  {
    var s, n := p + (">" + (body + rest)), |p| + 1;
    AfterGt(p, body + rest, name);
    assert s[n..] == body + rest;
    MarksShift(s, n, n, name);
    MarksBehind(body, rest, name);
  }

  lemma NotClosed(m: Mark, rest: string, close: string)
    requires m.Plain() && ClosesNothing(rest) && close == "</" + TagName(m.level) + ">"
    requires m.text.Some? ==> m.text.value != ""
    ensures !At(m.Body() + rest, close, 0)
  {
    var s := m.Body() + rest;
    if m.text.Some? {
      assert s[0 + 0] == m.text.value[0] && close[0] == '<';
    } else {
      assert s == rest;
      if |rest| >= 2 { assert close[0] != s[0 + 0] || close[1] != s[0 + 1]; }
    }
  }

  lemma MarkRead(m: Mark, rest: string, l: Level)
    requires m.Plain() && ClosesNothing(rest)
    ensures Same(Marks(m.Print() + rest, 0, TagName(l)),
                 HeadOne(m, l) + Marks(rest, 0, TagName(l)))
  {
    if m.level == l {
      var s := m.Head() + (">" + (m.Body() + rest));
      assert m.Print() + rest == s;
      OwnStep(m, m.Body() + rest);
      OwnRest(m, rest);
    } else {
      OtherMark(m, l);
      MarksBehind(m.Print(), rest, TagName(l));
      assert [] + Marks(rest, 0, TagName(l)) == Marks(rest, 0, TagName(l));
    }
  }

  predicate MarksOk(ms: seq<Mark>) { forall i :: 0 <= i < |ms| ==> ms[i].Plain() }

  /** The opening tags of one state, in order. */
  function HeadsOf(ms: seq<Mark>, l: Level): seq<string> {
    if ms == [] then [] else HeadOne(ms[0], l) + HeadsOf(ms[1..], l)
  }

  lemma MarksClose(ms: seq<Mark>)
    ensures ClosesNothing(PrintMarks(ms))
  {
    if ms != [] {
      var m := ms[0];
      assert PrintMarks(ms)[1] == m.Start()[1] == TagName(m.level)[0] != '/';
    }
  }

  /** Scanning printed condition elements for one state gives its elements in order. */
  lemma {:induction false} PrintedMarksRead(ms: seq<Mark>, l: Level)
    requires MarksOk(ms)
    ensures Same(Marks(PrintMarks(ms), 0, TagName(l)), HeadsOf(ms, l))
  {
    if ms == [] {
      assert Find("", "<" + TagName(l), 0) == -1;
    } else {
      PrintedMarksRead(ms[1..], l);
      MarksClose(ms[1..]);
      MarkRead(ms[0], PrintMarks(ms[1..]), l);
    }
  }

  // ---- the conditions after a section --------------------------------------

  /** The state a condition element sets. */
  function Label(l: Level): string {
    match l
    case Normal => "NORMAL"
    case Warning => "WARNING"
    case Fault => "FAULT"
    case Failed => "FAILED"
    case Unavailable => "UNAVAILABLE"
  }

  /** Later states overwrite earlier ones. */
  function Rank(l: Level): nat {
    match l
    case Normal => 0
    case Warning => 1
    case Fault => 2
    case Failed => 3
    case Unavailable => 4
  }

  /** The condition an element stands for; without a type it is a fault. */
  function Says(m: Mark): Cond { Cond(if m.kind == "" then "FAULT" else m.kind, Label(m.level)) }

  function Entry(conds: map<string, Cond>, x: string): Option<Cond> { if x in conds then Some(conds[x]) else None }

  lemma UpperLabel(l: Level)
    ensures Upper(TagName(l)) == Label(l)
  {
    match l
    case Normal => UpperIs("Normal", "NORMAL");
    case Warning => UpperIs("Warning", "WARNING");
    case Fault => UpperIs("Fault", "FAULT");
    case Failed => UpperIs("Failed", "FAILED");
    case Unavailable => UpperIs("Unavailable", "UNAVAILABLE");
  }

  lemma {:induction false} UpperIs(s: string, t: string)
    requires |s| == |t|
    requires forall i :: 0 <= i < |s| ==> t[i] == if 'a' <= s[i] <= 'z' then (s[i] as int - 32) as char else s[i]
    ensures Upper(s) == t
  {
    if s != [] {
      UpperIs(s[1..], t[1..]);
      assert t == [t[0]] + t[1..];
    }
  }

  lemma PutOne(conds: map<string, Cond>, m: Mark)
    requires m.Plain()
    ensures PutMark(conds, m.Head(), TagName(m.level)) == if m.id == "" then conds else conds[m.id := Says(m)]
  {
    MarkAttributes(m);
    UpperLabel(m.level);
  }

  function HeadOne(m: Mark, l: Level): seq<string> { if m.level == l then [m.Head()] else [] }

  lemma {:induction false} HeadsSnoc(ms: seq<Mark>, m: Mark, l: Level)
    ensures Same(HeadsOf(ms + [m], l), HeadsOf(ms, l) + HeadOne(m, l))
  {
    if ms == [] {
      assert [m][1..] == [] && ms + [m] == [m];
      assert HeadOne(m, l) + [] == HeadOne(m, l) == [] + HeadOne(m, l);
    } else {
      HeadsSnoc(ms[1..], m, l);
      assert (ms + [m])[0] == ms[0] && (ms + [m])[1..] == ms[1..] + [m];
      Associate(HeadOne(ms[0], l), HeadsOf(ms[1..], l), HeadOne(m, l));
    }
  }

  /** The conditions after the elements of one state. */
  function LevelSet(conds: map<string, Cond>, ms: seq<Mark>, l: Level): map<string, Cond> {
    PutMarks(conds, HeadsOf(ms, l), TagName(l))
  }

  lemma LevelSnoc(conds: map<string, Cond>, ms: seq<Mark>, m: Mark, l: Level)
    requires m.Plain()
    ensures Same(LevelSet(conds, ms + [m], l),
                 if m.level == l && m.id != "" then LevelSet(conds, ms, l)[m.id := Says(m)] else LevelSet(conds, ms, l))
  {
    HeadsSnoc(ms, m, l);
    if m.level == l {
      SnocMark(conds, HeadsOf(ms, l), m.Head(), TagName(l));
      PutOne(LevelSet(conds, ms, l), m);
    } else {
      assert HeadsOf(ms, l) + [] == HeadsOf(ms, l);
    }
  }

  /** No element of the state has the item. */
  predicate Absent(ms: seq<Mark>, l: Level, x: string) {
    x == "" || forall j :: 0 <= j < |ms| && ms[j].level == l ==> ms[j].id != x
  }

  /** Element `k` is the last of the state that has the item. */
  predicate LastIs(ms: seq<Mark>, l: Level, x: string, k: nat) {
    && x != "" && k < |ms| && ms[k].level == l && ms[k].id == x
    && forall j :: k < j < |ms| && ms[j].level == l ==> ms[j].id != x
  }

  /** What the elements of one state leave for an item: its last element wins. */
  ghost predicate LevelSets(r: map<string, Cond>, conds: map<string, Cond>, ms: seq<Mark>, l: Level, x: string) {
    && (Absent(ms, l, x) ==> Entry(r, x) == Entry(conds, x))
    && (forall k: nat :: LastIs(ms, l, x, k) ==> Entry(r, x) == Some(Says(ms[k])))
  }

  lemma LevelSetsMore(r: map<string, Cond>, r': map<string, Cond>, conds: map<string, Cond>, ms: seq<Mark>, m: Mark,
                      l: Level, x: string)
    requires LevelSets(r, conds, ms, l, x)
    requires Same(r', if m.level == l && m.id != "" then r[m.id := Says(m)] else r)
    ensures LevelSets(r', conds, ms + [m], l, x)
  {
    var more := ms + [m];
    forall k: nat | LastIs(more, l, x, k) ensures Entry(r', x) == Some(Says(more[k])) {
      if k < |ms| {
        assert more[|ms|] == m && ms[k] == more[k];
        forall j | k < j < |ms| && ms[j].level == l ensures ms[j].id != x { assert more[j] == ms[j]; }
        assert LastIs(ms, l, x, k);
      }
    }
    if Absent(more, l, x) {
      assert more[|ms|] == m;
      forall j | 0 <= j < |ms| && ms[j].level == l ensures x == "" || ms[j].id != x { assert more[j] == ms[j]; }
    }
  }

  lemma {:induction false} PutLevel(conds: map<string, Cond>, ms: seq<Mark>, l: Level, x: string)
    requires MarksOk(ms)
    ensures LevelSets(LevelSet(conds, ms, l), conds, ms, l, x)
    decreases |ms|
  {
    if ms == [] {
      assert LevelSet(conds, ms, l) == conds;
    } else {
      var init, m := Front(ms);
      PutLevel(conds, init, l, x);
      LevelSnoc(conds, init, m, l);
      LevelSetsMore(LevelSet(conds, init, l), LevelSet(conds, init + [m], l), conds, init, m, l, x);
    }
  }

  lemma Front(ms: seq<Mark>) returns (init: seq<Mark>, m: Mark)
    requires MarksOk(ms) && ms != []
    ensures Same(ms, init + [m]) && MarksOk(init) && m.Plain() && |init| < |ms|
  {
    init, m := ms[..|ms| - 1], ms[|ms| - 1];
    assert ms == init + [m];
  }

  lemma LevelKeeps(conds: map<string, Cond>, ms: seq<Mark>, l: Level, x: string)
    requires MarksOk(ms) && Absent(ms, l, x)
    ensures Entry(LevelSet(conds, ms, l), x) == Entry(conds, x)
  {
    PutLevel(conds, ms, l, x);
  }

  const LEVELS := [Normal, Warning, Fault, Failed, Unavailable]

  /** The conditions after the first `n` states. */
  function PutFirst(conds: map<string, Cond>, ms: seq<Mark>, n: nat): map<string, Cond>
    requires n <= 5
  {
    if n == 0 then conds else LevelSet(PutFirst(conds, ms, n - 1), ms, LEVELS[n - 1])
  }

  /** The section as it is cut out of its block: up to its closing tag. */
  function Section(ms: seq<Mark>): string { "<Condition>" + PrintMarks(ms) }

  lemma {:induction false} StatesAreFirst(conds: map<string, Cond>, ms: seq<Mark>, n: nat)
    requires n <= 5 && MarksOk(ms)
    ensures Same(PutStates(conds, Section(ms), CONDITION_NAMES[..n]), PutFirst(conds, ms, n))
  {
    if n > 0 {
      StatesAreFirst(conds, ms, n - 1);
      NameOf(n - 1);
      SectionRead(ms, LEVELS[n - 1]);
      LastName(conds, Section(ms), n);
    }
  }

  lemma LastName(conds: map<string, Cond>, sec: string, n: nat)
    requires 0 < n <= 5
    ensures Same(PutStates(conds, sec, CONDITION_NAMES[..n]),
                 PutMarks(PutStates(conds, sec, CONDITION_NAMES[..n - 1]), Marks(sec, 0, CONDITION_NAMES[n - 1]),
                          CONDITION_NAMES[n - 1]))
  {
    assert CONDITION_NAMES[..n][..n - 1] == CONDITION_NAMES[..n - 1];
  }

  lemma NameOf(i: nat)
    requires i < 5
    ensures CONDITION_NAMES[i] == TagName(LEVELS[i]) && Rank(LEVELS[i]) == i
    ensures |CONDITION_NAMES| == 5
  {
  }

  lemma SectionRead(ms: seq<Mark>, l: Level)
    requires MarksOk(ms)
    ensures Same(Marks(Section(ms), 0, TagName(l)), HeadsOf(ms, l))
  {
    SectionQuiet(l);
    MarksBehind("<Condition>", PrintMarks(ms), TagName(l));
    PrintedMarksRead(ms, l);
  }

  lemma SectionQuiet(l: Level)
    ensures Quiet("<Condition>", TagName(l))
  {
    OneTag("<Condition>", TagName(l), 0);
  }

  /** Element `k` decides its item: no other element of the item has a later state, nor the same state further on. */
  predicate Decides(ms: seq<Mark>, k: nat) {
    && k < |ms| && ms[k].id != ""
    && forall j :: 0 <= j < |ms| && j != k && ms[j].id == ms[k].id ==>
         Rank(ms[j].level) < Rank(ms[k].level) || (ms[j].level == ms[k].level && j < k)
  }

  predicate Unnamed(ms: seq<Mark>, x: string) { x == "" || forall j :: 0 <= j < |ms| ==> ms[j].id != x }

  lemma {:induction false} Untouched(conds: map<string, Cond>, ms: seq<Mark>, n: nat, m: nat, x: string)
    requires m <= n <= 5 && MarksOk(ms)
    requires forall l: Level :: m <= Rank(l) < n ==> Absent(ms, l, x)
    ensures Entry(PutFirst(conds, ms, n), x) == Entry(PutFirst(conds, ms, m), x)
    decreases n
  {
    if m < n {
      Untouched(conds, ms, n - 1, m, x);
      NameOf(n - 1);
      assert Absent(ms, LEVELS[n - 1], x);
      LevelKeeps(PutFirst(conds, ms, n - 1), ms, LEVELS[n - 1], x);
    }
  }

  /** Each item has the condition of the element that decides it, or the one it had. */
  ghost predicate SectionResult(r: map<string, Cond>, conds: map<string, Cond>, ms: seq<Mark>) {
    && (forall k: nat :: Decides(ms, k) ==> Entry(r, ms[k].id) == Some(Says(ms[k])))
    && (forall x :: Unnamed(ms, x) ==> Entry(r, x) == Entry(conds, x))
  }

  lemma SectionSets(conds: map<string, Cond>, ms: seq<Mark>)
    requires MarksOk(ms)
    ensures SectionResult(PutStates(conds, Section(ms), CONDITION_NAMES), conds, ms)
  {
    var r := PutFirst(conds, ms, 5);
    NameOf(0);
    StatesAreFirst(conds, ms, 5);
    assert CONDITION_NAMES[..5] == CONDITION_NAMES;
    forall k: nat | Decides(ms, k) ensures Entry(r, ms[k].id) == Some(Says(ms[k])) { Decided(conds, ms, k); }
    forall x | Unnamed(ms, x) ensures Entry(r, x) == Entry(conds, x) { Untouched(conds, ms, 5, 0, x); }
  }

  lemma Decided(conds: map<string, Cond>, ms: seq<Mark>, k: nat)
    requires MarksOk(ms) && Decides(ms, k)
    ensures Entry(PutFirst(conds, ms, 5), ms[k].id) == Some(Says(ms[k]))
  {
    var x, n := ms[k].id, Rank(ms[k].level);
    NameOf(n);
    LevelAt(ms[k].level);
    assert LastIs(ms, LEVELS[n], x, k);
    PutLevel(PutFirst(conds, ms, n), ms, LEVELS[n], x);
    forall l: Level | n + 1 <= Rank(l) < 5 ensures Absent(ms, l, x) { }
    Untouched(conds, ms, 5, n + 1, x);
  }

  lemma LevelAt(l: Level)
    ensures Rank(l) < 5 && LEVELS[Rank(l)] == l
  {
  }

  // ---- a printed block -----------------------------------------------------

  /** One device: elements and other tags around the condition section that is read. */
  datatype Device = Device(name: string, attrs: string, before: seq<Piece>, marks: seq<Mark>, after: seq<Piece>) {
    function Tag(): string { "<DeviceStream " + attrs }

    function Open(): string { Tag() + ">" }

    function Tail(): string { "</Condition>" + (PrintPieces(after) + "</DeviceStream>") }

    function Print(): string { Open() + (PrintPieces(before) + (Section(marks) + Tail())) }

    /** The block as a list of pieces. */
    function Pieces(): seq<Piece> {
      [Other(Open())] + (before + ([Other(Section(marks) + "</Condition>")] + (after + [Other("</DeviceStream>")])))
    }

    /** The names of the two samples are carried in front of elements only. */
    ghost predicate NamesOk() { SamplesOk(Pieces(), "partTotal") && SamplesOk(Pieces(), "tmMode") }

    /** Nothing in the pieces is taken for a tag the parser looks for, and no earlier text for the condition section. */
    predicate Plain() {
      && name != "" && name != "Agent" && Printed(Tag(), "name", name) && Without(attrs, '<') && Without(attrs, '>')
      && MarksOk(marks) && Quiet(PrintPieces(before), "Condition>")
      && forall tag <- READ_TAGS :: PiecesOk(before, tag) && PiecesOk(after, tag)
    }

    /** The elements in order. */
    function Elements(): seq<Element> { Items(before) + Items(after) }
  }

  const READ_TAGS := ["Execution", "ControllerMode", "ProgramComment", "Program", "Availability", "EmergencyStop"]

  function Items(ps: seq<Piece>): seq<Element> {
    if ps == [] then [] else (if ps[0].Item? then [ps[0].e] else []) + Items(ps[1..])
  }

  lemma {:induction false} NamedItems(ps: seq<Piece>, tag: string)
    ensures Same(NamedIn(ps, tag), Named(Items(ps), tag))
  {
    if ps != [] {
      NamedItems(ps[1..], tag);
      if ps[0].Item? {
        assert ([ps[0].e] + Items(ps[1..]))[1..] == Items(ps[1..]);
      } else {
        assert [] + Items(ps[1..]) == Items(ps[1..]) && [] + NamedIn(ps[1..], tag) == NamedIn(ps[1..], tag);
      }
    }
  }

  lemma NameFound(d: Device)
    requires d.Plain()
    ensures Same(AttrOf(d.Print(), "name"), d.name)
  {
    var k :| 0 <= k <= |d.Tag()| && PrintedAt(d.Tag(), "name", d.name, k);
    var rest := PrintPieces(d.before) + (Section(d.marks) + d.Tail());
    Associate(d.Tag(), ">", rest);
    PrintedBefore(d.Tag(), ">" + rest, "name", d.name, k);
  }

  lemma {:induction false} MarksTextQuiet(ms: seq<Mark>, tag: string)
    requires MarksOk(ms) && tag != "" && tag[0] !in "NWFU/"
    ensures Quiet(PrintMarks(ms), tag)
  {
    if ms != [] {
      MarksTextQuiet(ms[1..], tag);
      MarkTextQuiet(ms[0], tag);
      QuietConcat(ms[0].Print(), PrintMarks(ms[1..]), tag);
    }
  }

  lemma MarkTextQuiet(m: Mark, tag: string)
    requires m.Plain() && tag != "" && tag[0] !in "NWFU/"
    ensures Quiet(m.Print(), tag)
  {
    StartQuiet(m, tag);
    LevelCloseQuiet(m.level, tag);
    QuietMark(m, tag);
  }

  lemma LevelCloseQuiet(l: Level, tag: string)
    requires tag != "" && tag[0] !in "NWFU/"
    ensures Quiet("</" + TagName(l) + ">", tag)
  {
    CloseTagQuiet(TagName(l), tag);
  }

  lemma StartQuiet(m: Mark, tag: string)
    requires tag != "" && tag[0] !in "NWFU/"
    ensures Quiet(m.Start(), tag)
  {
    OneTag(m.Start(), tag, 0);
  }

  lemma CloseTagQuiet(name: string, tag: string)
    requires tag != "" && tag[0] != '/' && Without(name, '<')
    ensures Quiet("</" + name + ">", tag)
  {
    OneTag("</" + name + ">", tag, 0);
  }

  // ---- the elements of a block ---------------------------------------------

  lemma TagFacts(tag: string)
    requires tag in READ_TAGS
    ensures Element(tag, "", "").Plain() && |tag| > 3 && tag[0] !in "NWFUD/" && Quiet("<Condition>", tag)
  {
    TagIsPlain(tag);
    TagLetters(tag);
    OneTag("<Condition>", tag, 3);
  }

  lemma TagLetters(tag: string)
    requires tag in READ_TAGS
    ensures |tag| > 3 && tag[0] !in "NWFUD/" && tag[3] != 'd'
  {
  }

  predicate Letters(s: string) { forall i :: 0 <= i < |s| ==> 'A' <= s[i] <= 'Z' || 'a' <= s[i] <= 'z' }

  lemma TagIsPlain(tag: string)
    requires tag in READ_TAGS
    ensures Element(tag, "", "").Plain()
  {
    assert Letters(tag) && tag != "";
  }

  lemma OpenQuiet(d: Device, tag: string)
    requires d.Plain() && tag != "" && tag[0] != 'D'
    ensures Quiet(d.Open(), tag)
  {
    var a := "<DeviceStream ";
    assert a[0 + 1 + 0] == 'D';
    assert Differs(a, 0, tag);
    assert Quiet(a, tag);
    NoTags(d.attrs + ">", tag);
    QuietConcat(a, d.attrs + ">", tag);
    Associate(a, d.attrs, ">");
  }

  lemma SectionTextQuiet(d: Device, tag: string)
    requires d.Plain() && tag in READ_TAGS
    ensures Quiet(Section(d.marks) + "</Condition>", tag)
  {
    TagFacts(tag);
    ClosedSectionQuiet(d.marks, tag);
  }

  lemma ClosedSectionQuiet(ms: seq<Mark>, tag: string)
    requires MarksOk(ms) && Quiet("<Condition>", tag) && tag != "" && tag[0] !in "NWFU/"
    ensures Quiet(Section(ms) + "</Condition>", tag)
  {
    MarksTextQuiet(ms, tag);
    QuietConcat("<Condition>", PrintMarks(ms), tag);
    CloseTagQuiet("Condition", tag);
    QuietConcat(Section(ms), "</Condition>", tag);
  }

  lemma NoHits(tag: string)
    requires tag in READ_TAGS
    ensures Hits("</DeviceStream>", 0, tag) == []
  {
    var s := "</DeviceStream>";
    TagFacts(tag);
    CloseTagQuiet("DeviceStream", tag);
    assert "</" + "DeviceStream" + ">" == s;
    FindBehind(s, "", tag, 0);
    assert s + "" == s;
  }

  /** Scanning a block for a tag gives its elements of that name in order. */
  lemma BlockHits(d: Device, tag: string)
    requires d.Plain() && tag in READ_TAGS
    ensures Same(Hits(d.Print(), 0, tag), Named(d.Elements(), tag))
  {
    TagFacts(tag);
    OpenQuiet(d, tag);
    SectionTextQuiet(d, tag);
    var rest := PrintPieces(d.after) + "</DeviceStream>";
    var mid := Section(d.marks) + "</Condition>";
    Associate(Section(d.marks), "</Condition>", rest);
    ScanBehind(d.Open(), PrintPieces(d.before) + (mid + rest), tag);
    PiecesRead(d.before, mid + rest, tag);
    ScanBehind(mid, rest, tag);
    PiecesRead(d.after, "</DeviceStream>", tag);
    NoHits(tag);
    NamedItems(d.before, tag);
    NamedItems(d.after, tag);
    NamedConcat(Items(d.before), Items(d.after), tag);
    assert NamedIn(d.after, tag) + [] == NamedIn(d.after, tag);
  }

  /** The trimmed value of the last element called `tag`, or what there was before. */
  function FieldOr(es: seq<Element>, tag: string, current: string): string {
    if es == [] then current
    else if es[|es| - 1].tag == tag then Trimmed(es[|es| - 1].value)
    else FieldOr(es[..|es| - 1], tag, current)
  }

  lemma {:induction false} FieldRead(es: seq<Element>, tag: string, current: string)
    ensures LastValue(Named(es, tag), current) == FieldOr(es, tag, current)
    decreases |es|
  {
    if es != [] {
      var init, e := es[..|es| - 1], es[|es| - 1];
      FieldRead(init, tag, current);
      assert es == init + [e];
      NamedConcat(init, [e], tag);
      assert [e][1..] == [];
      assert Named([e], tag) == if e.tag == tag then [Hit(e.value, e.Head())] else [];
    }
  }

  lemma FieldNext(block: string, st: MachineState, n: nat)
    requires n < 5
    ensures var r := FieldsAfter(block, st, FIELDS[..n]);
      FieldsAfter(block, st, FIELDS[..n + 1])
      == Set(r, FIELDS[n], LastValue(Hits(block, 0, TagOf(FIELDS[n])), Get(r, FIELDS[n])))
  {
    assert FIELDS[..n + 1][..n] == FIELDS[..n];
  }

  /** The machine after the first `n` fields. */
  predicate FieldsOk(block: string, st: MachineState, r: MachineState, n: nat) {
    && r.execution == (if n >= 1 then LastValue(Hits(block, 0, "Execution"), st.execution) else st.execution)
    && r.mode == (if n >= 2 then LastValue(Hits(block, 0, "ControllerMode"), st.mode) else st.mode)
    && r.comment == (if n >= 3 then LastValue(Hits(block, 0, "ProgramComment"), st.comment) else st.comment)
    && r.program == (if n >= 4 then LastValue(Hits(block, 0, "Program"), st.program) else st.program)
    && r.avail == (if n >= 5 then LastValue(Hits(block, 0, "Availability"), st.avail) else st.avail)
    && r.tmmode == st.tmmode && r.partTotal == st.partTotal && r.conds == st.conds
    && r.name == st.name && r.seen == st.seen
  }

  lemma FieldOfIndex(n: nat)
    requires n < 5
    ensures FIELDS[n] == (if n == 0 then Execution else if n == 1 then Mode else if n == 2 then Comment
                          else if n == 3 then Program else Avail)
    ensures TagOf(FIELDS[n]) == (if n == 0 then "Execution" else if n == 1 then "ControllerMode"
                                 else if n == 2 then "ProgramComment" else if n == 3 then "Program" else "Availability")
  {
  }

  lemma {:induction false} FieldsAre(block: string, st: MachineState, n: nat, r: MachineState)
    requires n <= 5 && Same(r, FieldsAfter(block, st, FIELDS[..n]))
    ensures FieldsOk(block, st, r, n)
    decreases n
  {
    if n == 0 {
      NoFields(block, st, r);
    } else {
      var before := FieldsAfter(block, st, FIELDS[..n - 1]);
      FieldsAre(block, st, n - 1, before);
      FieldNext(block, st, n - 1);
      FieldsStep(block, st, before, n - 1);
    }
  }

  lemma NoFields(block: string, st: MachineState, r: MachineState)
    requires Same(r, FieldsAfter(block, st, FIELDS[..0]))
    ensures FieldsOk(block, st, r, 0)
  {
    assert FIELDS[..0] == [];
  }

  lemma FieldsStep(block: string, st: MachineState, r: MachineState, n: nat)
    requires n < 5 && FieldsOk(block, st, r, n)
    ensures FieldsOk(block, st, Set(r, FIELDS[n], LastValue(Hits(block, 0, TagOf(FIELDS[n])), Get(r, FIELDS[n]))),
                     n + 1)
  {
    FieldOfIndex(n);
  }

  // ---- the condition section of a block ------------------------------------

  lemma SectionFound(d: Device)
    requires d.Plain()
    ensures ConditionSection(d.Print()) == Some(Section(d.marks))
  {
    OpenQuiet(d, "Condition>");
    QuietConcat(d.Open(), PrintPieces(d.before), "Condition>");
    SectionParts(d);
    SectionIn(d.Open() + PrintPieces(d.before), d.marks, PrintPieces(d.after) + "</DeviceStream>");
  }

  lemma SectionIn(a: string, ms: seq<Mark>, rest: string)
    requires Quiet(a, "Condition>") && MarksOk(ms)
    ensures Same(ConditionSection(a + (Section(ms) + ("</Condition>" + rest))), Some(Section(ms)))
  {
    var sec, tail := Section(ms), "</Condition>" + rest;
    SectionStarts(a, ms, tail);
    SectionCloses(ms);
    SectionEnds(a + (sec + tail), a, sec, rest);
  }

  lemma SectionEnds(s: string, a: string, sec: string, rest: string)
    requires Same(s, a + (sec + ("</Condition>" + rest))) && Quiet(sec, "/Condition>")
    requires Find(s, "<Condition>", 0) == |a|
    ensures Same(ConditionSection(s), Some(sec))
  {
    Placed(a, sec, "</Condition>", "/Condition>", rest);
    SectionCut(a, sec, "</Condition>" + rest);
    SectionIs(s, |a|, |a| + |sec|);
  }

  lemma SectionStarts(a: string, ms: seq<Mark>, tail: string)
    requires Quiet(a, "Condition>")
    ensures Find(a + (Section(ms) + tail), "<Condition>", 0) == |a|
  {
    StartsAt(a, "<Condition>", "Condition>", PrintMarks(ms), Section(ms), tail);
  }

  lemma StartsAt(a: string, open: string, tag: string, text: string, sec: string, tail: string)
    requires Quiet(a, tag) && open == "<" + tag && Same(sec, open + text)
    ensures Find(a + (sec + tail), open, 0) == |a|
  {
    Associate(open, text, tail);
    PlacedFirst(a, open, tag, text + tail);
  }

  lemma PlacedFirst(a: string, open: string, tag: string, c: string)
    requires Quiet(a, tag) && open == "<" + tag
    ensures Find(a + (open + c), open, 0) == |a|
  {
    FindBehind(a, open + c, tag, 0);
    assert At(open + c, open, 0);
  }

  lemma NothingInFront(s: string)
    ensures Same("" + s, s)
  {
    assert "" + s == s;
  }

  lemma SectionIs(block: string, cs: nat, ce: nat)
    requires Find(block, "<Condition>", 0) == cs && Find(block, "</Condition>", cs) == ce && cs <= ce <= |block|
    ensures Same(ConditionSection(block), Some(block[cs..ce]))
  {
  }

  lemma SectionParts(d: Device)
    ensures var a, rest := d.Open() + PrintPieces(d.before), PrintPieces(d.after) + "</DeviceStream>";
      && Same(d.Print(), a + (Section(d.marks) + ("</Condition>" + rest)))
      && Same(d.Print(), a + ("<Condition>" + (PrintMarks(d.marks) + ("</Condition>" + rest))))
  {
    var a, rest := d.Open() + PrintPieces(d.before), PrintPieces(d.after) + "</DeviceStream>";
    Associate(d.Open(), PrintPieces(d.before), Section(d.marks) + ("</Condition>" + rest));
    Associate("<Condition>", PrintMarks(d.marks), "</Condition>" + rest);
  }

  lemma SectionCut(a: string, sec: string, tail: string)
    ensures Same((a + (sec + tail))[|a|..|a| + |sec|], sec)
  {
    assert (a + (sec + tail))[|a|..|a| + |sec|] == sec;
  }

  /** No condition element closes the section. */
  lemma SectionCloses(ms: seq<Mark>)
    requires MarksOk(ms)
    ensures Quiet(Section(ms), "/Condition>")
  {
    OneTag("<Condition>", "/Condition>", 0);
    MarksDoNotClose(ms);
    QuietConcat("<Condition>", PrintMarks(ms), "/Condition>");
  }

  lemma {:induction false} MarksDoNotClose(ms: seq<Mark>)
    requires MarksOk(ms)
    ensures Quiet(PrintMarks(ms), "/Condition>")
  {
    if ms != [] {
      MarksDoNotClose(ms[1..]);
      MarkDoesNotClose(ms[0]);
      QuietConcat(ms[0].Print(), PrintMarks(ms[1..]), "/Condition>");
    }
  }

  lemma MarkDoesNotClose(m: Mark)
    requires m.Plain()
    ensures Quiet(m.Print(), "/Condition>")
  {
    StartOpens(m);
    OtherClose(m.level);
    QuietMark(m, "/Condition>");
  }

  lemma StartOpens(m: Mark)
    ensures Quiet(m.Start(), "/Condition>")
  {
    OneTag(m.Start(), "/Condition>", 0);
  }

  lemma OtherClose(l: Level)
    ensures Quiet("</" + TagName(l) + ">", "/Condition>")
  {
    OneTag("</" + TagName(l) + ">", "/Condition>", 1);
  }

  /** The trimmed value of the first element called `tag`. */
  function FirstValue(es: seq<Element>, tag: string): Option<string> {
    if es == [] then None
    else if es[0].tag == tag then Some(Trimmed(es[0].value))
    else FirstValue(es[1..], tag)
  }

  lemma {:induction false} FirstNamed(es: seq<Element>, tag: string)
    ensures FirstValue(es, tag) == if Named(es, tag) == [] then None else Some(Trimmed(Named(es, tag)[0].value))
  {
    if es != [] { FirstNamed(es[1..], tag); }
  }

  lemma FirstHit(s: string, tag: string)
    ensures Hits(s, 0, tag) == [] <==> !NextTag(s, 0, tag).Step?
    ensures Hits(s, 0, tag) != [] ==> NextTag(s, 0, tag).item == Hits(s, 0, tag)[0]
  {
  }

  /** The emergency stop sets its own condition: triggered is an alarm, armed is none, anything else changes nothing. */
  predicate EstopResult(r: map<string, Cond>, conds: map<string, Cond>, stop: Option<string>) {
    && (stop == Some("TRIGGERED") ==> Entry(r, "estop") == Some(Cond("ESTOP", "ESTOP")))
    && (stop == Some("ARMED") ==> Entry(r, "estop") == Some(Cond("ESTOP", "NORMAL")))
    && (stop != Some("TRIGGERED") && stop != Some("ARMED") ==> Entry(r, "estop") == Entry(conds, "estop"))
  }

  lemma EstopRead(d: Device, conds: map<string, Cond>)
    requires d.Plain()
    ensures var r := WithEstop(d.Print(), conds);
      && EstopResult(r, conds, FirstValue(d.Elements(), "EmergencyStop"))
      && forall x :: x != "estop" ==> Entry(r, x) == Entry(conds, x)
  {
    var tag := "EmergencyStop";
    assert READ_TAGS[5] == tag;
    BlockHits(d, tag);
    FirstNamed(d.Elements(), tag);
    FirstHit(d.Print(), tag);
  }

  // ---- named samples -------------------------------------------------------

  ghost predicate Lacks(s: string, pat: string) { forall q: nat :: !At(s, pat, q) }

  predicate Ends(s: string) { s == "" || s[|s| - 1] == '>' }

  /** A text that ends in `>` does not start an occurrence that ends behind it. */
  lemma NoneIn(a: string, c: string, pat: string, q: nat)
    requires Lacks(a, pat) && Ends(a) && Without(pat, '>') && q < |a|
    ensures !At(a + c, pat, q)
  {
    if q + |pat| <= |a| {
      AtPrefix(a, c, pat, q);
    } else if q + |pat| <= |a + c| {
      var k := |a| - 1 - q;
      assert pat[k] != (a + c)[q + k];
    }
  }

  lemma LacksConcat(a: string, b: string, pat: string)
    requires Lacks(a, pat) && Lacks(b, pat) && Ends(a) && Without(pat, '>')
    ensures Lacks(a + b, pat)
  {
    forall q: nat ensures !At(a + b, pat, q) {
      if q < |a| {
        NoneIn(a, b, pat, q);
      } else {
        AtSuffix(a + b, |a|, pat, q - |a|);
        assert (a + b)[|a|..] == b;
      }
    }
  }

  /** The element carries the name of a sample as an attribute. */
  predicate Carries(e: Element, item: string) { exists k :: 0 < k <= |e.Head()| && CarriesAt(e, item, k) }

  predicate CarriesAt(e: Element, item: string, k: nat)
    requires 0 < k <= |e.Head()|
  {
    var head, pat := e.Head(), Attr("name", item);
    k + |pat| <= |head| && head[k..k + |pat|] == pat && head[k - 1] == ' ' && Find(head[..k], pat, 0) == -1
  }

  predicate ItemName(item: string) {
    item != "" && Without(item, '<') && Without(item, '>') && Without(item, '"') && Without(item, ' ')
  }

  /** What stands behind the head of an element. */
  function Behind(e: Element, v: string): string { ">" + (e.value + ("<" + ("/" + (e.tag + (">" + v))))) }

  /** An element that carries a name, with what follows it, around that name. */
  lemma PrintParts(e: Element, item: string, v: string) returns (a: string, post: string)
    requires Carries(e, item) && e.Plain() && ItemName(item)
    ensures Same(e.Head(), a + (Attr("name", item) + post)) && Same(e.Print() + v, e.Head() + Behind(e, v))
    ensures a != "" && a[0] == '<' && Without(a[1..], '<') && Without(a, '>') && a[|a| - 1] == ' '
    ensures Lacks(a, Attr("name", item)) && Without(post, '<') && Without(post, '>')
  {
    var k :| 0 < k <= |e.Head()| && CarriesAt(e, item, k);
    var head, m := e.Head(), k + |Attr("name", item)|;
    a, post := head[..k], head[m..];
    ElementHead(e);
    NotFound(a, Attr("name", item));
    HeadCut(head, Attr("name", item), k, m);
    PrintedElement(e, v);
  }

  lemma NotFound(s: string, pat: string)
    requires Find(s, pat, 0) == -1
    ensures Lacks(s, pat)
  {
    FindLeftmost(s, pat, 0);
  }

  lemma HeadCut(head: string, pat: string, k: nat, m: nat)
    requires 0 < k <= m <= |head| && Same(head[k..m], pat) && head[k - 1] == ' '
    requires head[0] == '<' && Without(head[1..], '<') && Without(head, '>')
    ensures var a, post := head[..k], head[m..];
      && Same(head, a + (pat + post)) && a[0] == '<' && Without(a[1..], '<') && Without(a, '>') && a[|a| - 1] == ' '
      && Without(post, '<') && Without(post, '>')
  {
    assert head == head[..k] + (head[k..m] + head[m..]);
    assert forall j :: 0 < j < |head| ==> head[j] == head[1..][j - 1];
  }

  lemma ElementHead(e: Element)
    requires e.Plain()
    ensures e.Head() != "" && e.Head()[0] == '<' && Without(e.Head()[1..], '<') && Without(e.Head(), '>')
  {
  }

  lemma PrintedElement(e: Element, v: string)
    ensures Same(e.Print() + v, e.Head() + Behind(e, v))
  {
    assert e.Print() + v == e.Head() + Behind(e, v);
  }

  lemma NamePlain(item: string)
    requires ItemName(item)
    ensures var pat := Attr("name", item);
      pat != "" && Without(pat, '<') && Without(pat, '>') && Without(pat, ' ')
  {
  }

  lemma FindName(u: string, a: string, pat: string, rest: string)
    requires Lacks(u, pat) && Ends(u) && Without(pat, '>') && Without(pat, ' ') && pat != ""
    requires a != "" && Lacks(a, pat) && a[|a| - 1] == ' '
    ensures Find(u + (a + (pat + rest)), pat, 0) == |u| + |a|
  {
    var s := u + (a + (pat + rest));
    forall q: nat | q < |u| + |a| ensures !At(s, pat, q) {
      if q < |u| { NoneIn(u, a + (pat + rest), pat, q); } else { TagLacks(u, a, pat, rest, q); }
    }
    FoundBehind(u, a, pat, rest);
    FindIs(s, pat, 0, |u| + |a|);
  }

  lemma FoundBehind(u: string, a: string, pat: string, rest: string)
    ensures At(u + (a + (pat + rest)), pat, |u| + |a|)
  {
    var s := u + (a + (pat + rest));
    assert s[|u| + |a|..] == pat + rest;
    AtSuffix(s, |u| + |a|, pat, 0);
    assert At(pat + rest, pat, 0);
  }

  /** A name with quotes and without blanks cannot start inside a tag name. */
  lemma TagLacks(u: string, a: string, pat: string, rest: string, q: nat)
    requires |u| <= q < |u| + |a| && Lacks(a, pat) && a[|a| - 1] == ' ' && Without(pat, ' ') && pat != ""
    ensures !At(u + (a + (pat + rest)), pat, q)
  {
    var s, n := u + (a + (pat + rest)), |u| + |a|;
    if q + |pat| <= n {
      assert s[|u|..] == a + (pat + rest);
      AtSuffix(s, |u|, pat, q - |u|);
      AtPrefix(a, pat + rest, pat, q - |u|);
    } else if q + |pat| <= |s| {
      var j := n - 1 - q;
      assert s[q + j] == a[|a| - 1];
      assert pat[j] != s[q + j];
    }
  }

  /** A tag that opens in `head`, around the place `p`, and closes at the first `>`. */
  lemma HeadAround(s: string, u: string, head: string, value: string, close: string, p: nat)
    requires Same(s, u + (head + (">" + (value + ("<" + close)))))
    requires head != "" && head[0] == '<' && Without(head[1..], '<') && Without(head, '>') && Without(value, '<')
    requires |u| <= p < |u| + |head|
    ensures var gt := |u| + |head|;
      && p < |s| && gt + 1 + |value| < |s| && RFind(s, '<', p) == |u|
      && Find(s, ">", p) == gt && Find(s, "<", gt + 1) == gt + 1 + |value|
  {
    var gt := |u| + |head|;
    AroundChars(s, u, head, value, close);
    assert forall q :: 0 < q < |head| ==> head[q] == head[1..][q - 1];
    CharFound(s, ">", p, gt);
    CharFound(s, "<", gt + 1, gt + 1 + |value|);
  }

  lemma AroundChars(s: string, u: string, head: string, value: string, close: string)
    requires Same(s, u + (head + (">" + (value + ("<" + close)))))
    ensures var gt := |u| + |head|;
      && gt + 1 + |value| < |s| && s[gt] == '>' && s[gt + 1 + |value|] == '<'
      && (forall q :: |u| <= q < gt ==> s[q] == head[q - |u|])
      && (forall q :: gt + 1 <= q < gt + 1 + |value| ==> s[q] == value[q - gt - 1])
  {
  }

  lemma AroundSlices(s: string, u: string, head: string, value: string, close: string)
    requires Same(s, u + (head + (">" + (value + ("<" + close)))))
    ensures var gt := |u| + |head|;
      && gt + 1 + |value| < |s| && Same(s[|u|..gt], head) && Same(s[gt + 1..gt + 1 + |value|], value)
  {
    var gt := |u| + |head|;
    AroundChars(s, u, head, value, close);
    assert s[|u|..gt] == head;
    assert s[gt + 1..gt + 1 + |value|] == value;
  }

  lemma CharFound(s: string, pat: string, from: nat, p: nat)
    requires |pat| == 1 && from <= p < |s| && s[p] == pat[0] && forall q :: from <= q < p ==> s[q] != pat[0]
    ensures Find(s, pat, from) == p
  {
    assert At(s, pat, p);
    forall q: nat | from <= q < p ensures !At(s, pat, q) { assert pat[0] != s[q + 0]; }
    FindIs(s, pat, from, p);
  }

  /** What the scan for a named sample finds, from the places of the name and of the tag around it. */
  lemma SampleIs(s: string, item: string, p: nat, open: nat, gt: nat, lt: nat, value: string, head: string)
    requires Find(s, Attr("name", item), 0) == p < |s| && RFind(s, '<', p) == open
    requires Find(s, ">", p) == gt && Find(s, "<", gt + 1) == lt && open <= gt < lt <= |s|
    requires Same(s[gt + 1..lt], value) && Same(s[open..gt], head)
    ensures Same(NamedSample(s, item), Some(Hit(value, head)))
  {
    assert Attr("name", item) == "name=\"" + item + "\"";
  }

  lemma SampleAround(u: string, a: string, item: string, post: string, value: string, close: string)
    requires Lacks(u, Attr("name", item)) && Ends(u) && ItemName(item)
    requires a != "" && a[0] == '<' && Without(a[1..], '<') && Without(a, '>') && a[|a| - 1] == ' '
    requires Lacks(a, Attr("name", item)) && Without(post, '<') && Without(post, '>') && Without(value, '<')
    ensures var head := a + (Attr("name", item) + post);
      Same(NamedSample(u + (head + (">" + (value + ("<" + close)))), item), Some(Hit(value, head)))
  {
    var pat := Attr("name", item);
    var head, rest := a + (pat + post), ">" + (value + ("<" + close));
    var s := u + (head + rest);
    NamePlain(item);
    HeadSplit(u, a, pat, post, rest);
    NameIn(s, u, a, pat, post + rest);
    HeadIsPlain(a, pat, post);
    SampleFrom(s, u, head, value, close, item, |u| + |a|);
  }

  lemma NameIn(s: string, u: string, a: string, pat: string, rest: string)
    requires Same(s, u + (a + (pat + rest)))
    requires Lacks(u, pat) && Ends(u) && Without(pat, '>') && Without(pat, ' ') && pat != ""
    requires a != "" && Lacks(a, pat) && a[|a| - 1] == ' '
    ensures Find(s, pat, 0) == |u| + |a|
  {
    FindName(u, a, pat, rest);
  }

  lemma SampleFrom(s: string, u: string, head: string, value: string, close: string, item: string, p: nat)
    requires Same(s, u + (head + (">" + (value + ("<" + close)))))
    requires head != "" && head[0] == '<' && Without(head[1..], '<') && Without(head, '>') && Without(value, '<')
    requires Find(s, Attr("name", item), 0) == p && |u| <= p < |u| + |head|
    ensures Same(NamedSample(s, item), Some(Hit(value, head)))
  {
    var open, gt, lt := HeadPlaces(s, u, head, value, close, p);
    SampleIs(s, item, p, open, gt, lt, value, head);
  }

  lemma HeadPlaces(s: string, u: string, head: string, value: string, close: string, p: nat)
    returns (open: nat, gt: nat, lt: nat)
    requires Same(s, u + (head + (">" + (value + ("<" + close)))))
    requires head != "" && head[0] == '<' && Without(head[1..], '<') && Without(head, '>') && Without(value, '<')
    requires |u| <= p < |u| + |head|
    ensures p < |s| && open <= gt < lt <= |s| && RFind(s, '<', p) == open
    ensures Find(s, ">", p) == gt && Find(s, "<", gt + 1) == lt && Same(s[gt + 1..lt], value) && Same(s[open..gt], head)
  {
    open, gt, lt := |u|, |u| + |head|, |u| + |head| + 1 + |value|;
    HeadAround(s, u, head, value, close, p);
    AroundSlices(s, u, head, value, close);
  }

  lemma HeadSplit(u: string, a: string, pat: string, post: string, rest: string)
    ensures Same(u + (a + (pat + post) + rest), u + (a + (pat + (post + rest))))
  {
    assert a + (pat + post) + rest == a + (pat + (post + rest));
  }

  lemma HeadIsPlain(a: string, pat: string, post: string)
    requires a != "" && a[0] == '<' && Without(a[1..], '<') && Without(a, '>')
    requires Without(pat, '<') && Without(pat, '>') && Without(post, '<') && Without(post, '>')
    ensures var head := a + (pat + post); head[0] == '<' && Without(head[1..], '<') && Without(head, '>')
  {
    var head := a + (pat + post);
    assert forall q :: 1 <= q < |a| ==> a[q] == a[1..][q - 1];
    assert forall q :: 1 <= q < |head| ==> head[q] != '<';
  }

  /** The sample's value and head, wherever its element stands behind a text without its name. */
  lemma SampleRead(u: string, e: Element, v: string, item: string)
    requires Lacks(u, Attr("name", item)) && Ends(u) && ItemName(item)
    requires e.Plain() && Carries(e, item)
    ensures Same(NamedSample(u + (e.Print() + v), item), Some(Hit(e.value, e.Head())))
  {
    var a, post := PrintParts(e, item, v);
    SampleAround(u, a, item, post, e.value, "/" + (e.tag + (">" + v)));
  }

  /** The first element of the pieces that carries the name. */
  function Sampled(ps: seq<Piece>, item: string): Option<Element> {
    if ps == [] then None
    else if ps[0].Item? && Carries(ps[0].e, item) then Some(ps[0].e)
    else Sampled(ps[1..], item)
  }

  /** The piece carries the name in front of its element, or nowhere. */
  ghost predicate SampleOk(p: Piece, item: string) {
    match p
    case Item(e) => e.Plain() && (Carries(e, item) || Lacks(e.Print(), Attr("name", item)))
    case Other(text) => Lacks(text, Attr("name", item)) && Ends(text)
  }

  ghost predicate SamplesOk(ps: seq<Piece>, item: string) { forall i :: 0 <= i < |ps| ==> SampleOk(ps[i], item) }

  /** Scanning pieces behind a text without the name finds the first element that carries it. */
  lemma {:induction false} SampleScan(u: string, ps: seq<Piece>, item: string)
    requires Lacks(u, Attr("name", item)) && Ends(u) && ItemName(item) && SamplesOk(ps, item)
    ensures match Sampled(ps, item)
      case Some(e) => Same(NamedSample(u + PrintPieces(ps), item), Some(Hit(e.value, e.Head())))
      case None => Lacks(u + PrintPieces(ps), Attr("name", item))
    decreases |ps|
  {
    if ps == [] {
      assert u + "" == u;
    } else if ps[0].Item? && Carries(ps[0].e, item) {
      assert SampleOk(ps[0], item);
      SampleRead(u, ps[0].e, PrintPieces(ps[1..]), item);
    } else {
      PieceBehind(u, ps[0], item);
      SampleScan(u + ps[0].Print(), ps[1..], item);
      Associate(u, ps[0].Print(), PrintPieces(ps[1..]));
    }
  }

  lemma PieceBehind(u: string, p: Piece, item: string)
    requires Lacks(u, Attr("name", item)) && Ends(u) && ItemName(item) && SampleOk(p, item)
    requires p.Item? ==> !Carries(p.e, item)
    ensures Lacks(u + p.Print(), Attr("name", item)) && Ends(u + p.Print())
  {
    NamePlain(item);
    LacksConcat(u, p.Print(), Attr("name", item));
    if p.Item? { assert p.e.Print()[|p.e.Print()| - 1] == '>'; }
  }

  lemma NoSample(s: string, item: string)
    requires Lacks(s, Attr("name", item))
    ensures NamedSample(s, item) == None
  {
    FindLeftmost(s, Attr("name", item), 0);
    assert Attr("name", item) == "name=\"" + item + "\"";
  }

  lemma SampleFound(ps: seq<Piece>, item: string)
    requires ItemName(item) && SamplesOk(ps, item)
    ensures match Sampled(ps, item)
      case Some(e) => Same(NamedSample(PrintPieces(ps), item), Some(Hit(e.value, e.Head())))
      case None => NamedSample(PrintPieces(ps), item) == None
  {
    NamePlain(item);
    SampleScan("", ps, item);
    NothingInFront(PrintPieces(ps));
    if Sampled(ps, item).None? { NoSample(PrintPieces(ps), item); }
  }

  // ---- the machine after a block -------------------------------------------

  /** The first element that carries the name. */
  function FirstCarrying(es: seq<Element>, item: string): Option<Element> {
    if es == [] then None else if Carries(es[0], item) then Some(es[0]) else FirstCarrying(es[1..], item)
  }

  lemma {:induction false} SampledItems(ps: seq<Piece>, item: string)
    ensures Sampled(ps, item) == FirstCarrying(Items(ps), item)
  {
    if ps != [] {
      SampledItems(ps[1..], item);
      if ps[0].Item? {
        assert ([ps[0].e] + Items(ps[1..]))[1..] == Items(ps[1..]);
      } else {
        assert [] + Items(ps[1..]) == Items(ps[1..]);
      }
    }
  }

  lemma {:induction false} ItemsConcat(a: seq<Piece>, b: seq<Piece>)
    ensures Same(Items(a + b), Items(a) + Items(b))
  {
    if a == [] {
      assert a + b == b;
      assert [] + Items(b) == Items(b);
    } else {
      ItemsConcat(a[1..], b);
      assert (a + b)[0] == a[0] && (a + b)[1..] == a[1..] + b;
      Associate(if a[0].Item? then [a[0].e] else [], Items(a[1..]), Items(b));
    }
  }

  lemma OtherItems(text: string, ps: seq<Piece>)
    ensures Same(Items([Other(text)] + ps), Items(ps)) && Same(PrintPieces([Other(text)] + ps), text + PrintPieces(ps))
  {
    assert ([Other(text)] + ps)[1..] == ps;
    assert [] + Items(ps) == Items(ps);
  }

  lemma PiecesOfDevice(d: Device)
    ensures Same(Items(d.Pieces()), d.Elements()) && Same(PrintPieces(d.Pieces()), d.Print())
  {
    var last, mid := [Other("</DeviceStream>")], Section(d.marks) + "</Condition>";
    LastPiece("</DeviceStream>");
    ItemsConcat(d.after, last);
    PrintConcat(d.after, last);
    assert Items(d.after) + [] == Items(d.after);
    OtherItems(mid, d.after + last);
    ItemsConcat(d.before, [Other(mid)] + (d.after + last));
    PrintConcat(d.before, [Other(mid)] + (d.after + last));
    OtherItems(d.Open(), d.before + ([Other(mid)] + (d.after + last)));
    Associate(Section(d.marks), "</Condition>", PrintPieces(d.after) + "</DeviceStream>");
  }

  lemma LastPiece(text: string)
    ensures Same(Items([Other(text)]), []) && Same(PrintPieces([Other(text)]), text)
  {
    assert [Other(text)][1..] == [] && [] + Items([]) == [];
    assert text + "" == text;
  }

  lemma SampleOfDevice(d: Device, item: string)
    requires ItemName(item) && SamplesOk(d.Pieces(), item)
    ensures match FirstCarrying(d.Elements(), item)
      case Some(e) => Same(NamedSample(d.Print(), item), Some(Hit(e.value, e.Head())))
      case None => NamedSample(d.Print(), item) == None
  {
    PiecesOfDevice(d);
    SampledItems(d.Pieces(), item);
    SampleFound(d.Pieces(), item);
  }

  /** The conditions after a block: those of its section, and the emergency stop's. */
  ghost predicate ConditionsRead(r: map<string, Cond>, conds: map<string, Cond>, d: Device) {
    var stop := FirstValue(d.Elements(), "EmergencyStop");
    && (stop == Some("TRIGGERED") ==> Entry(r, "estop") == Some(Cond("ESTOP", "ESTOP")))
    && (stop == Some("ARMED") ==> Entry(r, "estop") == Some(Cond("ESTOP", "NORMAL")))
    && var estop := stop == Some("TRIGGERED") || stop == Some("ARMED");
    && (forall k: nat :: Decides(d.marks, k) && !(estop && d.marks[k].id == "estop") ==>
          Entry(r, d.marks[k].id) == Some(Says(d.marks[k])))
    && (forall x :: Unnamed(d.marks, x) && !(estop && x == "estop") ==> Entry(r, x) == Entry(conds, x))
  }

  lemma ConditionsOfDevice(d: Device, conds: map<string, Cond>)
    requires d.Plain()
    ensures ConditionsRead(CondsAfter(d.Print(), conds), conds, d)
  {
    var mid := PutStates(conds, Section(d.marks), CONDITION_NAMES);
    SectionFound(d);
    SectionSets(conds, d.marks);
    EstopRead(d, mid);
  }

  function WithStop(conds: map<string, Cond>, stop: Option<string>): map<string, Cond> {
    if stop == Some("TRIGGERED") then conds["estop" := Cond("ESTOP", "ESTOP")]
    else if stop == Some("ARMED") then conds["estop" := Cond("ESTOP", "NORMAL")]
    else conds
  }

  lemma StopOfDevice(d: Device, conds: map<string, Cond>)
    requires d.Plain()
    ensures Same(CondsAfter(d.Print(), conds),
                 WithStop(PutStates(conds, Section(d.marks), CONDITION_NAMES),
                          FirstValue(d.Elements(), "EmergencyStop")))
  {
    var tag := "EmergencyStop";
    SectionFound(d);
    assert READ_TAGS[5] == tag;
    BlockHits(d, tag);
    FirstNamed(d.Elements(), tag);
    FirstHit(d.Print(), tag);
  }

  lemma ItemsAround(a: seq<Piece>, text: string, b: seq<Piece>)
    ensures Same(Items(a + ([Other(text)] + b)), Items(a + b))
  {
    ItemsConcat(a, [Other(text)] + b);
    OtherItems(text, b);
    ItemsConcat(a, b);
  }

  lemma LessIsPlain(d: Device, a: seq<Piece>, text: string, b: seq<Piece>)
    requires d.Plain() && d.after == a + ([Other(text)] + b)
    ensures d.(after := a + b).Plain()
  {
    forall tag | tag in READ_TAGS ensures PiecesOk(a + b, tag) {
      assert PiecesOk(d.after, tag);
      forall i | 0 <= i < |a + b| ensures PieceOk((a + b)[i], tag) {
        assert (a + b)[i] == d.after[if i < |a| then i else i + 1];
      }
    }
  }

  /** A second condition section of a block is not read. */
  lemma LaterSectionIgnored(d: Device, a: seq<Piece>, ms: seq<Mark>, b: seq<Piece>, conds: map<string, Cond>)
    requires d.Plain() && d.after == a + ([Other(Section(ms) + "</Condition>")] + b)
    ensures Same(CondsAfter(d.Print(), conds), CondsAfter(d.(after := a + b).Print(), conds))
  {
    LessIsPlain(d, a, Section(ms) + "</Condition>", b);
    ItemsAround(a, Section(ms) + "</Condition>", b);
    StopOfDevice(d, conds);
    StopOfDevice(d.(after := a + b), conds);
  }

  /** A machine after a printed block, field by field. */
  ghost predicate MachineRead(r: MachineState, st: MachineState, d: Device) {
    var es := d.Elements();
    && FieldsRead(r, st, es)
    && r.partTotal == (match FirstCarrying(es, "partTotal") case Some(e) => ParseLL(e.value) case None => st.partTotal)
    && r.tmmode == (match FirstCarrying(es, "tmMode") case Some(e) => Trimmed(e.value) case None => st.tmmode)
    && ConditionsRead(r.conds, st.conds, d)
  }

  predicate FieldsRead(r: MachineState, st: MachineState, es: seq<Element>) {
    && r.name == st.name && r.seen == st.seen
    && r.execution == FieldOr(es, "Execution", st.execution)
    && r.mode == FieldOr(es, "ControllerMode", st.mode)
    && r.comment == FieldOr(es, "ProgramComment", st.comment)
    && r.program == FieldOr(es, "Program", st.program)
    && r.avail == FieldOr(es, "Availability", st.avail)
  }

  lemma FieldsOfDevice(d: Device, st: MachineState)
    requires d.Plain()
    ensures var r := FieldsAfter(d.Print(), st, FIELDS);
      FieldsRead(r, st, d.Elements()) && r.tmmode == st.tmmode && r.partTotal == st.partTotal && r.conds == st.conds
  {
    assert FIELDS[..5] == FIELDS;
    FieldsAre(d.Print(), st, 5, FieldsAfter(d.Print(), st, FIELDS));
    FieldOfDevice(d, "Execution", st.execution);
    FieldOfDevice(d, "ControllerMode", st.mode);
    FieldOfDevice(d, "ProgramComment", st.comment);
    FieldOfDevice(d, "Program", st.program);
    FieldOfDevice(d, "Availability", st.avail);
  }

  lemma FieldOfDevice(d: Device, tag: string, current: string)
    requires d.Plain() && tag in READ_TAGS
    ensures LastValue(Hits(d.Print(), 0, tag), current) == FieldOr(d.Elements(), tag, current)
  {
    BlockHits(d, tag);
    FieldRead(d.Elements(), tag, current);
  }

  lemma SamplesOfDevice(d: Device, st: MachineState)
    requires d.NamesOk()
    ensures var r, es := SamplesAfter(d.Print(), st), d.Elements();
      && r.partTotal
           == (match FirstCarrying(es, "partTotal") case Some(e) => ParseLL(e.value) case None => st.partTotal)
      && r.tmmode == (match FirstCarrying(es, "tmMode") case Some(e) => Trimmed(e.value) case None => st.tmmode)
  {
    assert ItemName("partTotal") && ItemName("tmMode");
    SampleOfDevice(d, "partTotal");
    SampleOfDevice(d, "tmMode");
  }

  lemma OtherFields(block: string, st: MachineState)
    ensures var r := MachineAfter(block, st); var f := FieldsAfter(block, st, FIELDS); var a := SamplesAfter(block, f);
      && r.name == f.name && r.seen == f.seen && r.execution == f.execution && r.mode == f.mode
      && r.comment == f.comment && r.program == f.program && r.avail == f.avail
      && r.partTotal == a.partTotal && r.tmmode == a.tmmode && r.conds == CondsAfter(block, f.conds)
  {
  }

  /** Reading a printed block sets every field of its machine as printed. */
  lemma BlockRead(d: Device, st: MachineState)
    requires d.Plain() && d.NamesOk()
    ensures MachineRead(MachineAfter(d.Print(), st), st, d)
  {
    OtherFields(d.Print(), st);
    FieldsOfDevice(d, st);
    SamplesOfDevice(d, FieldsAfter(d.Print(), st, FIELDS));
    ConditionsOfDevice(d, st.conds);
  }

  /** The block changes its own machine and no other; a machine not seen before gets its name. */
  lemma StatesRead(states: StateMap, d: Device)
    requires d.Plain() && d.NamesOk()
    ensures var after := BlockStates(states, d.Print());
      && after.Keys == states.Keys + {d.name} && (forall m :: m in states && m != d.name ==> after[m] == states[m])
      && MachineRead(after[d.name], Touch(states, d.name), d)
  {
    NameFound(d);
    BlockRead(d, Touch(states, d.name));
  }

  /** A machine seen for the first time starts without texts, counter and conditions; any other one is as it was. */
  lemma FirstSeen(states: StateMap, name: string)
    ensures name !in states ==> Touch(states, name) == MachineState(name, "", "", "", "", "", "", -1, true, map[])
    ensures name in states && states[name].seen ==> Touch(states, name) == states[name]
    ensures name in states && !states[name].seen ==> Touch(states, name) == states[name].(name := name, seen := true)
  {
  }

  /** Which alarms are on after a printed block. */
  lemma AlarmsRead(states: StateMap, d: Device)
    requires d.Plain() && d.NamesOk()
    ensures var after, stop := BlockStates(states, d.Print()), FirstValue(d.Elements(), "EmergencyStop");
      && (stop == Some("TRIGGERED") ==> Alarms.Wanted(after, d.name, "estop"))
      && (stop == Some("ARMED") ==> !Alarms.Wanted(after, d.name, "estop"))
      && forall k: nat :: Decides(d.marks, k) && d.marks[k].id != "estop" ==>
           (Alarms.Wanted(after, d.name, d.marks[k].id) <==> d.marks[k].level in {Warning, Fault, Failed})
  {
    StatesRead(states, d);
    WantedRead(BlockStates(states, d.Print()), Touch(states, d.name), d);
  }

  lemma WantedRead(after: StateMap, st: MachineState, d: Device)
    requires d.name in after && MachineRead(after[d.name], st, d)
    ensures var stop := FirstValue(d.Elements(), "EmergencyStop");
      && (stop == Some("TRIGGERED") ==> Alarms.Wanted(after, d.name, "estop"))
      && (stop == Some("ARMED") ==> !Alarms.Wanted(after, d.name, "estop"))
      && forall k: nat :: Decides(d.marks, k) && d.marks[k].id != "estop" ==>
           (Alarms.Wanted(after, d.name, d.marks[k].id) <==> d.marks[k].level in {Warning, Fault, Failed})
  {
  }
}
