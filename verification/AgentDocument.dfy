/**
 A whole printed response: its numbers, the sequence number a reader goes on from, and the machines after
 its blocks.
 */
module AgentDocument {
  import opened Text
  import opened StreamParsing
  import opened AgentText
  import opened AgentBlocks

  // ---- numbers as they are printed -------------------------------------------

  const DIGITS := "0123456789"

  function Numeral(n: nat): string {
    if n < 10 then [DIGITS[n]] else Numeral(n / 10) + [DIGITS[n % 10]]
  }

  predicate Digits(s: string) { forall i :: 0 <= i < |s| ==> IsDigit(s[i]) }

  lemma DigitChar(k: nat)
    requires k < 10
    ensures IsDigit(DIGITS[k]) && DigitOf(DIGITS[k]) == k
  {
  }

  lemma DecimalSnoc(a: string, c: char, all: string)
    requires Digits(a) && IsDigit(c) && Same(all, a + [c])
    ensures Digits(all) && Decimal(all) == 10 * Decimal(a) + DigitOf(c)
  {
    assert all[..|all| - 1] == a;
  }

  lemma {:induction false} NumeralReads(n: nat)
    ensures Numeral(n) != "" && Digits(Numeral(n)) && Decimal(Numeral(n)) == n
  {
    DigitChar(n % 10);
    if n < 10 {
      assert [] + [DIGITS[n]] == [DIGITS[n]];
      DecimalSnoc([], DIGITS[n], Numeral(n));
    } else {
      NumeralReads(n / 10);
      DecimalSnoc(Numeral(n / 10), DIGITS[n % 10], Numeral(n));
    }
  }

  predicate Spaces(s: string) {
    forall i :: 0 <= i < |s| ==> s[i] == ' ' || s[i] == '\t' || s[i] == '\n' || s[i] == '\r'
  }

  lemma {:induction false} SpacesSkipped(s: string, n: nat, k: nat)
    requires k <= n <= |s| && (forall i :: k <= i < n ==> IsSpace(s[i])) && (n < |s| ==> !IsSpace(s[n]))
    ensures SkipSpace(s, k) == n
    decreases n - k
  {
    if k < n { SpacesSkipped(s, n, k + 1); }
  }

  lemma {:induction false} DigitsStop(s: string, n: nat, k: nat)
    requires k <= n <= |s| && (forall i :: k <= i < n ==> IsDigit(s[i])) && (n < |s| ==> !IsDigit(s[n]))
    ensures DigitsEnd(s, k) == n
    decreases n - k
  {
    if k < n { DigitsStop(s, n, k + 1); }
  }

  /** What a number is read from: blanks, a sign or none, the digits, and a text that goes on otherwise. */
  predicate NumberText(s: string, blanks: string, sign: string, digits: string, rest: string) {
    && s == blanks + (sign + (digits + rest)) && Spaces(blanks) && sign in ["", "+", "-"]
    && digits != "" && Digits(digits) && (rest != "" ==> !IsDigit(rest[0]))
  }

  lemma NumberPlaces(s: string, blanks: string, sign: string, digits: string, rest: string)
    requires NumberText(s, blanks, sign, digits, rest)
    ensures var a := |blanks|; var d := a + |sign|; var e := d + |digits|;
      && a < |s| && e <= |s| && (forall i :: 0 <= i < a ==> s[i] == blanks[i]) && Same(s[d..e], digits)
      && (forall i :: d <= i < e ==> s[i] == digits[i - d]) && (e < |s| ==> s[e] == rest[0] && rest != "")
      && s[a] == (if sign == "" then digits[0] else sign[0]) && |sign| <= 1
  {
    var a := |blanks|;
    var d := a + |sign|;
    assert s[d..d + |digits|] == digits;
  }

  /** Reading a number gives its value, held at the ends of 64 bits. */
  lemma NumberRead(s: string, blanks: string, sign: string, digits: string, rest: string)
    requires NumberText(s, blanks, sign, digits, rest)
    ensures sign == "-" ==> ParseLL(s) == Max(-9223372036854775808, 0 - Decimal(digits))
    ensures sign != "-" ==> ParseLL(s) == Min(9223372036854775807, Decimal(digits))
  {
    var a := |blanks|;
    var d := a + |sign|;
    NumberPlaces(s, blanks, sign, digits, rest);
    SpacesSkipped(s, a, 0);
    DigitsStop(s, d + |digits|, d);
  }

  /** A printed number is read back, with blanks in front of it and anything but a digit behind it. */
  lemma NumeralRoundTrip(n: nat, blanks: string, rest: string)
    requires Spaces(blanks) && (rest != "" ==> !('0' <= rest[0] <= '9'))
    ensures ParseLL(blanks + (Numeral(n) + rest)) == Min(9223372036854775807, n)
    ensures ParseLL(blanks + ("-" + (Numeral(n) + rest))) == Max(-9223372036854775808, 0 - n)
  {
    NumeralReads(n);
    Unsigned(blanks + (Numeral(n) + rest), blanks, Numeral(n), rest);
    NumberRead(blanks + ("-" + (Numeral(n) + rest)), blanks, "-", Numeral(n), rest);
  }

  lemma Unsigned(s: string, blanks: string, digits: string, rest: string)
    requires Same(s, blanks + (digits + rest)) && Spaces(blanks) && digits != "" && Digits(digits)
    requires rest != "" ==> !IsDigit(rest[0])
    ensures ParseLL(s) == Min(9223372036854775807, Decimal(digits))
  {
    NothingInFront(digits + rest);
    NumberRead(s, blanks, "", digits, rest);
  }

  /** A text that does not begin with a number, such as UNAVAILABLE or nothing at all, is read as -1. */
  lemma NoNumber(s: string)
    requires s != "" ==> 'A' <= s[0] <= 'Z' || 'a' <= s[0] <= 'z'
    ensures ParseLL(s) == -1
  {
  }

  lemma NumeralPlain(n: nat)
    ensures Without(Numeral(n), '"') && Without(Numeral(n), '>') && Without(Numeral(n), '<') && Without(Numeral(n), '=')
    ensures ParseLL(Numeral(n)) == Min(9223372036854775807, n)
  {
    NumeralReads(n);
    NumeralRoundTrip(n, "", "");
    assert "" + (Numeral(n) + "") == Numeral(n);
  }

  // ---- sequence numbers -------------------------------------------------------

  /** The sequence number an element is printed with. */
  predicate Numbered(e: Element, n: nat) { Printed(e.Head(), "sequence", Numeral(n)) }

  lemma SequenceRead(e: Element, n: nat)
    requires Numbered(e, n)
    ensures SequenceOf(Hit(e.value, e.Head())) == Min(9223372036854775807, n)
  {
    NumeralPlain(n);
    PrintedRead(e.Head(), "sequence", Numeral(n));
  }

  const FIELD_TAGS := ["Execution", "ControllerMode", "ProgramComment", "Program", "Availability"]

  function NumberOf(e: Element): int { SequenceOf(Hit(e.value, e.Head())) }

  /** The largest number of the elements called `tag`, or zero. */
  ghost predicate TopOf(es: seq<Element>, tag: string, n: int) {
    && (forall e :: e in es && e.tag == tag ==> NumberOf(e) <= n)
    && (n == 0 || exists e :: e in es && e.tag == tag && NumberOf(e) == n)
  }

  lemma TopMore(init: seq<Element>, e: Element, tag: string, all: seq<Element>, a: nat, b: int)
    requires Same(all, init + [e]) && TopOf(init, tag, a) && b == if e.tag == tag then Max(a, NumberOf(e)) else a
    ensures TopOf(all, tag, b)
  {
  }

  lemma {:induction false} NamedMax(es: seq<Element>, tag: string)
    ensures TopOf(es, tag, MaxSeq(Named(es, tag)))
    decreases |es|
  {
    if es != [] {
      var init, e := es[..|es| - 1], es[|es| - 1];
      NamedMax(init, tag);
      assert es == init + [e];
      NamedLast(init, e, tag, es);
      TopMore(init, e, tag, es, MaxSeq(Named(init, tag)), MaxSeq(Named(es, tag)));
    }
  }

  lemma NamedLast(init: seq<Element>, e: Element, tag: string, all: seq<Element>)
    requires Same(all, init + [e])
    ensures MaxSeq(Named(all, tag))
         == if e.tag == tag then Max(MaxSeq(Named(init, tag)), NumberOf(e)) else MaxSeq(Named(init, tag))
  {
    NamedConcat(init, [e], tag);
    NamedSingle(e, tag);
    if e.tag == tag {
      SnocSeq(Named(init, tag), Hit(e.value, e.Head()));
    } else {
      assert Named(init, tag) + [] == Named(init, tag);
    }
  }

  lemma NamedSingle(e: Element, tag: string)
    ensures Same(Named([e], tag), if e.tag == tag then [Hit(e.value, e.Head())] else [])
  {
    assert [e][1..] == [];
    assert Named([], tag) == [];
    if e.tag == tag {
      assert [Hit(e.value, e.Head())] + [] == [Hit(e.value, e.Head())];
    } else {
      var none: seq<Hit> := [];
      assert none + none == none;
    }
  }

  ghost predicate IsBound(es: seq<Element>, n: int, fs: seq<Field>) {
    forall e, f :: e in es && f in fs && e.tag == TagOf(f) ==> NumberOf(e) <= n
  }

  predicate Reaches(es: seq<Element>, n: int, e: Element, f: Field) {
    e in es && e.tag == TagOf(f) && NumberOf(e) == n
  }

  ghost predicate IsReached(es: seq<Element>, n: int, fs: seq<Field>) {
    n == 0 || exists e, f :: f in fs && Reaches(es, n, e, f)
  }

  /** Scanning the block for a field gives these elements. */
  ghost predicate Reads(block: string, es: seq<Element>) {
    forall f: Field :: Same(Hits(block, 0, TagOf(f)), Named(es, TagOf(f)))
  }

  lemma BlockReads(d: Device, block: string, es: seq<Element>)
    requires d.Plain() && Same(block, d.Print()) && Same(es, d.Elements())
    ensures Reads(block, es)
  {
    forall f: Field ensures Same(Hits(block, 0, TagOf(f)), Named(es, TagOf(f))) {
      TagIsRead(f);
      BlockHits(d, TagOf(f));
    }
  }

  lemma FieldsSeqSnoc(block: string, fs: seq<Field>, f: Field)
    ensures FieldsSeq(block, fs + [f]) == Max(FieldsSeq(block, fs), MaxSeq(Hits(block, 0, TagOf(f))))
  {
    assert (fs + [f])[..|fs|] == fs;
  }

  lemma TagIsRead(f: Field)
    ensures TagOf(f) in READ_TAGS && TagOf(f) in FIELD_TAGS && f in FIELDS
  {
    var i := match f case Execution => 0 case Mode => 1 case Comment => 2 case Program => 3 case Avail => 4;
    assert FIELDS[i] == f && READ_TAGS[i] == TagOf(f) && FIELD_TAGS[i] == TagOf(f);
  }

  lemma OneFieldMax(es: seq<Element>, f: Field)
    ensures IsBound(es, MaxSeq(Named(es, TagOf(f))), [f]) && IsReached(es, MaxSeq(Named(es, TagOf(f))), [f])
  {
    NamedMax(es, TagOf(f));
    var n := MaxSeq(Named(es, TagOf(f)));
    if n != 0 {
      var e :| e in es && e.tag == TagOf(f) && NumberOf(e) == n;
      assert Reaches(es, n, e, f) && f in [f];
    }
  }

  lemma {:induction false} FieldsMax(block: string, es: seq<Element>, fs: seq<Field>)
    requires Reads(block, es)
    ensures IsBound(es, FieldsSeq(block, fs), fs) && IsReached(es, FieldsSeq(block, fs), fs)
    decreases |fs|
  {
    if fs != [] {
      var init, f := fs[..|fs| - 1], fs[|fs| - 1];
      FieldsMax(block, es, init);
      OneFieldMax(es, f);
      assert fs == init + [f];
      FieldsSeqSnoc(block, init, f);
      MaxStep(es, init, f, fs, FieldsSeq(block, init), MaxSeq(Named(es, TagOf(f))));
    }
  }

  lemma MaxStep(es: seq<Element>, fs: seq<Field>, f: Field, all: seq<Field>, a: int, b: int)
    requires Same(all, fs + [f]) && IsBound(es, a, fs) && IsReached(es, a, fs)
    requires IsBound(es, b, [f]) && IsReached(es, b, [f]) && a >= 0 && b >= 0
    ensures IsBound(es, Max(a, b), all) && IsReached(es, Max(a, b), all)
  {
    if a >= b && a != 0 {
      var e, g :| g in fs && Reaches(es, a, e, g);
      assert g in all;
    } else if b != 0 {
      var e, g :| g in [f] && Reaches(es, b, e, g);
      assert g in all;
    }
  }

  function NumberOr(e: Option<Element>): int { if e.None? then 0 else NumberOf(e.value) }

  lemma SamplesMax(d: Device, block: string, es: seq<Element>)
    requires d.NamesOk() && Same(block, d.Print()) && Same(es, d.Elements())
    ensures SamplesSeq(block)
         == Max(NumberOr(FirstCarrying(es, "partTotal")), NumberOr(FirstCarrying(es, "tmMode")))
  {
    SampleNumber(d, block, es, "partTotal");
    SampleNumber(d, block, es, "tmMode");
  }

  lemma SampleNumber(d: Device, block: string, es: seq<Element>, item: string)
    requires ItemName(item) && SamplesOk(d.Pieces(), item) && Same(block, d.Print()) && Same(es, d.Elements())
    ensures SampleSeq(NamedSample(block, item)) == NumberOr(FirstCarrying(es, item))
  {
    SampleOfDevice(d, item);
  }

  /** The elements whose sequence numbers count: those of the five fields, and the two samples. */
  predicate Counts(es: seq<Element>, e: Element) {
    || (e in es && e.tag in FIELD_TAGS)
    || FirstCarrying(es, "partTotal") == Some(e) || FirstCarrying(es, "tmMode") == Some(e)
  }

  /** The largest number of the counting elements, or zero. */
  ghost predicate IsLargest(es: seq<Element>, n: int) {
    && (forall e :: Counts(es, e) ==> NumberOf(e) <= n)
    && (n == 0 || exists e :: Counts(es, e) && NumberOf(e) == n)
  }

  lemma BoundOf(es: seq<Element>, a: int, fs: seq<Field>, e: Element)
    requires IsBound(es, a, fs) && Same(fs, FIELDS) && e in es && e.tag in FIELD_TAGS
    ensures NumberOf(e) <= a
  {
    var f := FieldOfTag(e.tag);
  }

  lemma ReachedBy(es: seq<Element>, a: int, fs: seq<Field>) returns (e: Element)
    requires IsReached(es, a, fs) && a != 0
    ensures e in es && e.tag in FIELD_TAGS && NumberOf(e) == a
  {
    var x, f :| f in fs && Reaches(es, a, x, f);
    TagIsRead(f);
    e := x;
  }

  lemma LargestOf(es: seq<Element>, a: int, n: int, part: Option<Element>, tm: Option<Element>)
    requires IsBound(es, a, FIELDS) && IsReached(es, a, FIELDS) && a >= 0
    requires part == FirstCarrying(es, "partTotal") && tm == FirstCarrying(es, "tmMode")
    requires n == Max(a, Max(NumberOr(part), NumberOr(tm)))
    ensures IsLargest(es, n)
  {
    forall e | Counts(es, e) ensures NumberOf(e) <= n {
      if Some(e) != part && Some(e) != tm { BoundOf(es, a, FIELDS, e); }
    }
    if n == a && a != 0 {
      var e := ReachedBy(es, a, FIELDS);
      assert Counts(es, e);
    } else if n != 0 {
      var e := if n == NumberOr(part) then part.value else tm.value;
      assert Counts(es, e);
    }
  }

  lemma FieldOfTag(tag: string) returns (f: Field)
    requires tag in FIELD_TAGS
    ensures TagOf(f) == tag && f in FIELDS
  {
    var i :| 0 <= i < |FIELD_TAGS| && FIELD_TAGS[i] == tag;
    f := FIELDS[i];
    TagIsRead(f);
  }

  lemma BlockIsRead(d: Device)
    requires d.Plain()
    ensures BlockSeq(d.Print()) == Max(FieldsSeq(d.Print(), FIELDS), SamplesSeq(d.Print()))
  {
    NameFound(d);
  }

  /** The number a block is read to is the largest its counting elements are printed with. */
  lemma BlockNumber(d: Device)
    requires d.Plain() && d.NamesOk()
    ensures IsLargest(d.Elements(), BlockSeq(d.Print()))
  {
    var block, es := d.Print(), d.Elements();
    BlockIsRead(d);
    BlockReads(d, block, es);
    FieldsMax(block, es, FIELDS);
    SamplesMax(d, block, es);
    LargestOf(es, FieldsSeq(block, FIELDS), BlockSeq(block), FirstCarrying(es, "partTotal"),
              FirstCarrying(es, "tmMode"));
  }

  // ---- a printed document -----------------------------------------------------

  /** The tag that tells where the next request goes on. */
  datatype Header = Header(attrs: string, next: nat) {
    function Tag(): string { "<Header " + attrs }

    predicate Plain() { Without(attrs, '>') && Printed(Tag(), "nextSequence", Numeral(next)) }
  }

  /** A block of a machine, or of the agent itself. */
  datatype Block = Machine(d: Device) | Agent(attrs: string, body: string) {
    function Print(): string {
      match this
      case Machine(d) => d.Print()
      case Agent(attrs, body) => ("<DeviceStream " + attrs) + (">" + body + "</DeviceStream>")
    }

    ghost predicate Plain() {
      match this
      case Machine(d) => d.Plain() && d.NamesOk()
      case Agent(attrs, _) => Printed("<DeviceStream " + attrs, "name", "Agent")
    }
  }

  /** The text starts a block and ends it, once. */
  predicate Whole(text: string, mid: string) {
    Same(text, "<DeviceStream " + (mid + "</DeviceStream>")) && Quiet(mid, "/DeviceStream>")
  }

  /** A block and the text in front of it. */
  datatype Part = Part(gap: string, block: Block, mid: string) {
    ghost predicate Plain() {
      && Quiet(gap, "DeviceStream ") && Quiet(gap, "Header ") && Quiet(block.Print(), "Header ")
      && Whole(block.Print(), mid) && block.Plain()
    }
  }

  function PrintBlocks(ps: seq<Part>, tail: string): string {
    if ps == [] then tail else ps[0].gap + (ps[0].block.Print() + PrintBlocks(ps[1..], tail))
  }

  datatype Document = Document(prolog: string, header: Header, parts: seq<Part>, tail: string) {
    function Print(): string { prolog + (header.Tag() + (">" + PrintBlocks(parts, tail))) }

    /** One header, and no start of a block outside its blocks. */
    ghost predicate Plain() {
      && header.Plain() && Quiet(prolog, "Header ") && Quiet(tail, "Header ") && Quiet(tail, "DeviceStream ")
      && Quiet(prolog + (header.Tag() + ">"), "DeviceStream ") && forall i :: 0 <= i < |parts| ==> parts[i].Plain()
    }
  }

  function BlockTexts(ps: seq<Part>): (r: seq<string>)
    ensures |r| == |ps| && forall i :: 0 <= i < |ps| ==> r[i] == ps[i].block.Print()
  {
    if ps == [] then [] else [ps[0].block.Print()] + BlockTexts(ps[1..])
  }

  // ---- its blocks ---------------------------------------------------------------

  lemma FrontBlock(s: string, gap: string, block: string, mid: string, rest: string)
    requires Quiet(gap, "DeviceStream ") && Whole(block, mid) && Same(s, gap + (block + rest))
    ensures Same(Blocks(s), [block] + Blocks(rest))
  {
    StartOfBlock(s, gap, mid, rest, block);
    EndOfBlock(s, gap, mid, rest, block);
    BlockCut(s, gap, block, rest);
    FirstIs(s, |gap|, |gap| + |block|, block, rest);
  }

  lemma StartOfBlock(s: string, gap: string, mid: string, rest: string, block: string)
    requires Quiet(gap, "DeviceStream ") && Whole(block, mid) && Same(s, gap + (block + rest))
    ensures Find(s, "<DeviceStream ", 0) == |gap|
  {
    var c := mid + "</DeviceStream>" + rest;
    assert s == gap + ("<DeviceStream " + c);
    PlacedFirst(gap, "<DeviceStream ", "DeviceStream ", c);
  }

  lemma EndOfBlock(s: string, gap: string, mid: string, rest: string, block: string)
    requires Whole(block, mid) && Same(s, gap + (block + rest))
    ensures Find(s, "</DeviceStream>", |gap|) + 15 == |gap| + |block|
  {
    var a := "<DeviceStream " + mid;
    assert s == gap + (a + ("</DeviceStream>" + rest));
    OneTag("<DeviceStream ", "/DeviceStream>", 0);
    QuietConcat("<DeviceStream ", mid, "/DeviceStream>");
    Placed(gap, a, "</DeviceStream>", "/DeviceStream>", rest);
  }

  lemma BlockCut(s: string, gap: string, block: string, rest: string)
    requires Same(s, gap + (block + rest))
    ensures |gap| + |block| <= |s| && Same(s[|gap|..|gap| + |block|], block) && Same(s[|gap| + |block|..], rest)
  {
    assert s[|gap|..|gap| + |block|] == block && s[|gap| + |block|..] == rest;
  }

  lemma FirstIs(s: string, p: nat, e: nat, block: string, rest: string)
    requires Find(s, "<DeviceStream ", 0) == p && Find(s, "</DeviceStream>", p) + 15 == e && p <= e <= |s| && e > 14
    requires Same(s[p..e], block) && Same(s[e..], rest)
    ensures Same(Blocks(s), [block] + Blocks(rest))
  {
    assert BlockEnd(s) == e;
    assert FirstBlock(s) == block;
  }

  lemma NoBlocks(tail: string)
    requires Quiet(tail, "DeviceStream ")
    ensures Same(Blocks(tail), [])
  {
    FindBehind(tail, "", "DeviceStream ", 0);
    assert tail + "" == tail;
    assert Find("", "<DeviceStream ", 0) == -1;
    assert "<" + "DeviceStream " == OPEN;
  }

  lemma {:induction false} PartsRead(gap: string, ps: seq<Part>, tail: string)
    requires Quiet(gap, "DeviceStream ") && Quiet(tail, "DeviceStream ")
    requires forall i :: 0 <= i < |ps| ==> ps[i].Plain()
    ensures Same(Blocks(gap + PrintBlocks(ps, tail)), BlockTexts(ps))
    decreases |ps|
  {
    if ps == [] {
      QuietConcat(gap, tail, "DeviceStream ");
      NoBlocks(gap + tail);
    } else {
      var p, rest := ps[0], PrintBlocks(ps[1..], tail);
      QuietConcat(gap, p.gap, "DeviceStream ");
      Associate(gap, p.gap, p.block.Print() + rest);
      FrontBlock(gap + PrintBlocks(ps, tail), gap + p.gap, p.block.Print(), p.mid, rest);
      PartsRead("", ps[1..], tail);
      NothingInFront(rest);
    }
  }

  // ---- its header ----------------------------------------------------------------

  lemma {:induction false} PartsQuiet(ps: seq<Part>, tail: string)
    requires Quiet(tail, "Header ") && forall i :: 0 <= i < |ps| ==> ps[i].Plain()
    ensures Quiet(PrintBlocks(ps, tail), "Header ")
  {
    if ps != [] {
      var p, rest := ps[0], PrintBlocks(ps[1..], tail);
      PartsQuiet(ps[1..], tail);
      QuietConcat(p.block.Print(), rest, "Header ");
      QuietConcat(p.gap, p.block.Print() + rest, "Header ");
    }
  }

  lemma NoHeaders(s: string)
    requires Quiet(s, "Header ")
    ensures Same(Headers(s, 0), [])
  {
    FindBehind(s, "", "Header ", 0);
    assert s + "" == s;
    assert Find("", "<Header ", 0) == -1;
    assert "<" + "Header " == "<Header ";
  }

  lemma HeaderFound(s: string, prolog: string, tag: string, rest: string)
    requires Same(s, prolog + (tag + (">" + rest))) && Quiet(prolog, "Header ") && Quiet(rest, "Header ")
    requires |tag| >= 8 && tag[..8] == "<Header " && Without(tag, '>')
    ensures Same(Headers(s, 0), [tag])
  {
    var e := |prolog| + |tag|;
    HeaderStarts(s, prolog, tag, rest);
    HeaderEnds(s, prolog, tag, rest);
    assert s[|prolog|..e] == tag && s[e + 1..] == rest;
    NoHeaders(rest);
    HeaderIs(s, |prolog|, e, tag, rest);
  }

  lemma HeaderIs(s: string, p: nat, e: nat, tag: string, rest: string)
    requires Find(s, "<Header ", 0) == p && Find(s, ">", p) == e && p <= e < |s|
    requires Same(s[p..e], tag) && Same(s[e + 1..], rest) && Same(Headers(rest, 0), [])
    ensures Same(Headers(s, 0), [tag])
  {
    NoneBehind(s, e + 1, rest);
    assert NextHeader(s, 0) == Step(tag, e + 1);
    assert [tag] + [] == [tag];
  }

  lemma NoneBehind(s: string, n: nat, rest: string)
    requires n <= |s| && Same(s[n..], rest) && Same(Headers(rest, 0), [])
    ensures Same(Headers(s, n), [])
  {
    HeadersShift(s, n, n);
  }

  lemma HeaderStarts(s: string, prolog: string, tag: string, rest: string)
    requires Same(s, prolog + (tag + (">" + rest))) && Quiet(prolog, "Header ") && |tag| >= 8 && tag[..8] == "<Header "
    ensures Find(s, "<Header ", 0) == |prolog|
  {
    var c := tag[8..] + (">" + rest);
    assert tag == "<Header " + tag[8..];
    assert s == prolog + ("<Header " + c);
    PlacedFirst(prolog, "<Header ", "Header ", c);
  }

  lemma HeaderEnds(s: string, prolog: string, tag: string, rest: string)
    requires Same(s, prolog + (tag + (">" + rest))) && Without(tag, '>')
    ensures Find(s, ">", |prolog|) == |prolog| + |tag|
  {
    var e := |prolog| + |tag|;
    forall q | |prolog| <= q < e ensures s[q] != '>' { assert s[q] == tag[q - |prolog|]; }
    CharFound(s, ">", |prolog|, e);
  }

  lemma HeaderNumber(h: Header)
    requires h.Plain()
    ensures NextSequence(h.Tag()) == Min(9223372036854775807, h.next)
    ensures |h.Tag()| >= 8 && h.Tag()[..8] == "<Header " && Without(h.Tag(), '>')
  {
    NumeralPlain(h.next);
    PrintedRead(h.Tag(), "nextSequence", Numeral(h.next));
  }

  lemma HeaderRead(doc: Document)
    requires doc.Plain()
    ensures MaxNext(Headers(doc.Print(), 0)) == Min(9223372036854775807, doc.header.next)
  {
    HeaderNumber(doc.header);
    PartsQuiet(doc.parts, doc.tail);
    HeaderFound(doc.Print(), doc.prolog, doc.header.Tag(), PrintBlocks(doc.parts, doc.tail));
    SnocNext([], doc.header.Tag());
    assert [] + [doc.header.Tag()] == [doc.header.Tag()];
  }

  lemma BlocksOfDocument(doc: Document)
    requires doc.Plain()
    ensures Same(Blocks(doc.Print()), BlockTexts(doc.parts))
  {
    var front, parts := doc.prolog + (doc.header.Tag() + ">"), PrintBlocks(doc.parts, doc.tail);
    Associate(doc.header.Tag(), ">", parts);
    Associate(doc.prolog, doc.header.Tag() + ">", parts);
    PartsRead(front, doc.parts, doc.tail);
  }

  // ---- what reading it does -------------------------------------------------------

  /** What one block does: a machine's block is read into its own machine, the agent's changes nothing. */
  ghost predicate Effect(before: StateMap, after: StateMap, b: Block) {
    match b
    case Agent(_, _) => after == before
    case Machine(d) =>
      && after.Keys == before.Keys + {d.name} && (forall m :: m in before && m != d.name ==> after[m] == before[m])
      && MachineRead(after[d.name], Touch(before, d.name), d)
  }

  lemma AgentSkipped(attrs: string, body: string)
    requires Printed("<DeviceStream " + attrs, "name", "Agent")
    ensures Skipped(Agent(attrs, body).Print())
  {
    var tag := "<DeviceStream " + attrs;
    var k :| 0 <= k <= |tag| && PrintedAt(tag, "name", "Agent", k);
    PrintedBefore(tag, ">" + body + "</DeviceStream>", "name", "Agent", k);
  }

  lemma BlockEffect(states: StateMap, b: Block)
    requires b.Plain()
    ensures Effect(states, BlockStates(states, b.Print()), b)
    ensures b.Agent? ==> BlockSeq(b.Print()) == 0
    ensures b.Machine? ==> IsLargest(b.d.Elements(), BlockSeq(b.Print()))
  {
    match b {
      case Agent(attrs, body) => AgentSkipped(attrs, body);
      case Machine(d) =>
        StatesRead(states, d);
        BlockNumber(d);
    }
  }

  /** The states after the first `n` blocks. */
  function Reached(states: StateMap, ps: seq<Part>, n: nat): StateMap
    requires n <= |ps|
  {
    StatesAfter(states, BlockTexts(ps)[..n])
  }

  ghost predicate InTurn(states: StateMap, ps: seq<Part>) {
    forall i :: 0 <= i < |ps| ==> Effect(Reached(states, ps, i), Reached(states, ps, i + 1), ps[i].block)
  }

  lemma PartsInTurn(states: StateMap, ps: seq<Part>)
    requires forall i :: 0 <= i < |ps| ==> ps[i].Plain()
    ensures InTurn(states, ps)
  {
    forall i | 0 <= i < |ps| ensures Effect(Reached(states, ps, i), Reached(states, ps, i + 1), ps[i].block) {
      NextReached(states, ps, i, ps[i].block.Print());
      BlockEffect(Reached(states, ps, i), ps[i].block);
    }
  }

  lemma NextStates(states: StateMap, a: seq<string>, block: string, b: seq<string>)
    requires Same(b, a + [block])
    ensures Same(StatesAfter(states, b), BlockStates(StatesAfter(states, a), block))
  {
    SnocBlock(states, a, block);
  }

  lemma PrefixNext(all: seq<string>, i: nat)
    requires i < |all|
    ensures Same(all[..i + 1], all[..i] + [all[i]])
  {
    assert all[..i + 1] == all[..i] + [all[i]];
  }

  lemma NextReached(states: StateMap, ps: seq<Part>, i: nat, block: string)
    requires i < |ps| && Same(block, BlockTexts(ps)[i])
    ensures Same(Reached(states, ps, i + 1), BlockStates(Reached(states, ps, i), block))
  {
    PrefixNext(BlockTexts(ps), i);
    NextStates(states, BlockTexts(ps)[..i], block, BlockTexts(ps)[..i + 1]);
  }

  lemma {:induction false} LargestBlock(bs: seq<string>)
    ensures forall i :: 0 <= i < |bs| ==> BlockSeq(bs[i]) <= SeqAfter(bs)
    ensures SeqAfter(bs) == 0 || exists i :: 0 <= i < |bs| && BlockSeq(bs[i]) == SeqAfter(bs)
    decreases |bs|
  {
    if bs != [] {
      var init := bs[..|bs| - 1];
      LargestBlock(init);
      assert bs == init + [bs[|bs| - 1]];
      if SeqAfter(bs) == SeqAfter(init) && SeqAfter(bs) != 0 {
        var i :| 0 <= i < |init| && BlockSeq(init[i]) == SeqAfter(init);
        assert bs[i] == init[i];
      }
    }
  }

  /** The largest number of the blocks; each block's own is given by its elements. */
  ghost predicate LargestNumber(ps: seq<Part>, n: nat) {
    && (forall i :: 0 <= i < |ps| ==> BlockSeq(ps[i].block.Print()) <= n)
    && (n == 0 || exists i :: 0 <= i < |ps| && BlockSeq(ps[i].block.Print()) == n)
  }

  /**
   A response in any chunks: the machines are those of its blocks in turn, and the next request goes on at the
   header's number or at a higher one of the blocks.
   */
  method ReadDocument(doc: Document, chunks: seq<string>, states: StateTable) returns (last: nat)
    requires doc.Plain() && Same(Concat(chunks), doc.Print())
    modifies states
    ensures InTurn(old(states.m), doc.parts)
    ensures Same(states.m, Reached(old(states.m), doc.parts, |doc.parts|))
    ensures var n := SeqAfter(BlockTexts(doc.parts));
      LargestNumber(doc.parts, n) && last == Max(Min(9223372036854775807, doc.header.next), n)
  {
    DocumentStates(doc, states.m, Concat(chunks));
    DocumentNumber(doc, Concat(chunks));
    last := StreamResponse(chunks, states);
  }

  lemma DocumentStates(doc: Document, states: StateMap, text: string)
    requires doc.Plain() && Same(text, doc.Print())
    ensures InTurn(states, doc.parts)
    ensures Same(StatesAfter(states, Blocks(text)), Reached(states, doc.parts, |doc.parts|))
  {
    BlocksOfDocument(doc);
    PartsInTurn(states, doc.parts);
    assert BlockTexts(doc.parts)[..|doc.parts|] == BlockTexts(doc.parts);
  }

  lemma DocumentNumber(doc: Document, text: string)
    requires doc.Plain() && Same(text, doc.Print())
    ensures TextSeq(text) == Max(Min(9223372036854775807, doc.header.next), SeqAfter(BlockTexts(doc.parts)))
    ensures LargestNumber(doc.parts, SeqAfter(BlockTexts(doc.parts)))
  {
    HeaderRead(doc);
    BlocksOfDocument(doc);
    LargestBlock(BlockTexts(doc.parts));
  }
}
