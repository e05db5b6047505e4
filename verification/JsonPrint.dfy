/**
 The escaping writer and the configuration reader together: what the writer quotes, the reader reads
 back, and a printed tree of objects is read as the map of its dotted paths.
 */
module JsonPrint {
  import opened Text
  import opened ConfigJson

  // ---- escaping ------------------------------------------------------------

  predicate HasLetter(c: char) { c == '"' || c == '\\' || c == '\n' || c == '\r' || c == '\t' }

  function LetterOf(c: char): char {
    if c == '\n' then 'n' else if c == '\r' then 'r' else if c == '\t' then 't' else c
  }

  function EscapeChar(c: char): string {
    if HasLetter(c) then ['\\', LetterOf(c)] else if c < ' ' then " " else [c]
  }

  function Escape(s: string): string { if s == [] then [] else EscapeChar(s[0]) + Escape(s[1..]) }

  lemma {:induction false} EscapePrefix(s: string, n: nat)
    requires n < |s|
    ensures Escape(s[..n + 1]) == Escape(s[..n]) + EscapeChar(s[n])
  {
    if n == 0 {
      assert s[..1] == [s[0]] && s[..0] == [];
      assert [s[0]][1..] == [];
    } else {
      EscapePrefix(s[1..], n - 1);
      assert s[..n + 1][1..] == s[1..][..n] && s[..n][1..] == s[1..][..n - 1];
    }
  }

  method JsonEscape(s: string) returns (out: string)
    ensures out == Escape(s)
  {
    out := "";
    for n := 0 to |s|
      invariant out == Escape(s[..n])
    {
      EscapePrefix(s, n);
      var c := s[n];
      if c == '"' { out := out + "\\\""; }
      else if c == '\\' { out := out + "\\\\"; }
      else if c == '\n' { out := out + "\\n"; }
      else if c == '\r' { out := out + "\\r"; }
      else if c == '\t' { out := out + "\\t"; }
      else if c < ' ' { out := out + " "; }
      else { out := out + [c]; }
    }
    assert s[..|s|] == s;
  }

  /** The control characters other than newline, return and tab have no escape. */
  function CleanChar(c: char): char { if c < ' ' && c != '\n' && c != '\r' && c != '\t' then ' ' else c }

  /** What is written for each character. */
  lemma WrittenAs(c: char)
    ensures Escape("\"") == "\\\"" && Escape("\\") == "\\\\"
    ensures Escape("\n") == "\\n" && Escape("\r") == "\\r" && Escape("\t") == "\\t"
    ensures c >= ' ' && c != '"' && c != '\\' ==> Escape([c]) == [c]
    ensures c < ' ' && c != '\n' && c != '\r' && c != '\t' ==> Escape([c]) == " "
  {
    EscapeOne('"');
    EscapeOne('\\');
    EscapeOne('\n');
    EscapeOne('\r');
    EscapeOne('\t');
    EscapeOne(c);
  }

  lemma EscapeOne(c: char)
    ensures Escape([c]) == EscapeChar(c)
  {
    assert [c][1..] == [];
  }

  /** The text with every control character that has no escape turned into a space. */
  function Clean(s: string): (r: string)
    ensures |r| == |s| && forall k :: 0 <= k < |s| ==> r[k] == CleanChar(s[k])
  {
    seq(|s|, k requires 0 <= k < |s| => CleanChar(s[k]))
  }

  lemma CleanFirst(s: string)
    requires s != []
    ensures Clean(s) == [CleanChar(s[0])] + Clean(s[1..])
  {
  }

  lemma ReadsLetter(c: char, s: string)
    requires Terminated(s) && c != '\0' && c != 'u'
    ensures Terminated(['\\', c] + s)
    ensures Chars(['\\', c] + s) == (Unescaped(c) + Chars(s).0, Chars(s).1)
  {
    var t := ['\\', c] + s;
    assert t[1..] == [c] + s && t[1] == c;
    assert Terminated(t[1..]);
    assert t[1..][1..] == s;
    assert BehindEscape(t[1..]) == s;
  }

  lemma ReadsPlain(c: char, s: string)
    requires Terminated(s) && c != '\0' && c != '"' && c != '\\'
    ensures Terminated([c] + s)
    ensures Chars([c] + s) == ([c] + Chars(s).0, Chars(s).1)
  {
    var t := [c] + s;
    assert t[1..] == s;
  }

  /** A unicode escape with its four digits stands for nothing; any other letter for itself, but for n, t and r. */
  lemma EscapesRead(c: char, hex: string, s: string)
    requires Terminated(s) && c != '\0' && |hex| == 4 && forall k :: 0 <= k < 4 ==> hex[k] != '\0'
    ensures Terminated(['\\', c] + s) && Terminated("\\u" + (hex + s))
    ensures Chars("\\u" + (hex + s)) == Chars(s)
    ensures c != 'u' ==>
      var r := if c == 'n' then '\n' else if c == 't' then '\t' else if c == 'r' then '\r' else c;
      Chars(['\\', c] + s) == ([r] + Chars(s).0, Chars(s).1)
  {
    if c != 'u' { ReadsLetter(c, s); }
    HexDropped(hex, s);
  }

  lemma {:induction false} DigitsDropped(c: char, hex: string, s: string)
    requires Terminated(s) && c != '\0' && forall k :: 0 <= k < |hex| ==> hex[k] != '\0'
    ensures Terminated([c] + (hex + s)) && |DropSome([c] + (hex + s), |hex|)| > 0
    ensures DropSome([c] + (hex + s), |hex|)[1..] == s
    decreases |hex|
  {
    var t := [c] + (hex + s);
    assert t[1..] == hex + s;
    if hex == [] {
      assert hex + s == s;
    } else {
      assert hex + s == [hex[0]] + (hex[1..] + s);
      assert t[1] == hex[0];
      DigitsDropped(hex[0], hex[1..], s);
    }
  }

  lemma HexDropped(hex: string, s: string)
    requires Terminated(s) && |hex| == 4 && forall k :: 0 <= k < 4 ==> hex[k] != '\0'
    ensures Terminated("\\u" + (hex + s)) && Chars("\\u" + (hex + s)) == Chars(s)
  {
    var t := "\\u" + (hex + s);
    var u := ['u'] + (hex + s);
    DigitsDropped('u', hex, s);
    assert t[1..] == u;
    EscapeSkipped(t, u, s);
  }

  lemma EscapeSkipped(t: string, u: string, s: string)
    requires Terminated(t) && Terminated(u) && t[0] == '\\' && u[0] == 'u' && t[1..] == u && BehindEscape(u) == s
    ensures Chars(t) == Chars(s)
  {
    assert t[1] == 'u';
    assert "" + Chars(s).0 == Chars(s).0;
  }

  /** Reading a written character gives it back, or a space for a control character. */
  lemma ReadsChar(c: char, s: string)
    requires Terminated(s)
    ensures Terminated(EscapeChar(c) + s)
    ensures Chars(EscapeChar(c) + s) == ([CleanChar(c)] + Chars(s).0, Chars(s).1)
  {
    if HasLetter(c) { ReadsLetter(LetterOf(c), s); } else { ReadsPlain(CleanChar(c), s); }
  }

  /** An escaped text up to the closing quote is read back character by character. */
  lemma {:induction false} EscapeReadsBack(s: string, rest: string)
    requires Terminated(rest) && rest[0] == '"'
    ensures Terminated(Escape(s) + rest) && Chars(Escape(s) + rest) == (Clean(s), rest)
  {
    if s == [] {
      assert Escape(s) + rest == rest;
    } else {
      EscapeReadsBack(s[1..], rest);
      ReadsChar(s[0], Escape(s[1..]) + rest);
      CleanFirst(s);
      Associate(EscapeChar(s[0]), Escape(s[1..]), rest);
    }
  }

  lemma RegroupNode(a: string, b: string, c: string, d: string)
    ensures a + b + c + d == a + (b + (c + d))
  {
    Associate(a, b, c);
    Associate(a, b + c, d);
    Associate(b, c, d);
  }

  function Quote(s: string): string { "\"" + Escape(s) + "\"" }

  lemma Then(a: string, b: string)
    requires Terminated(b)
    ensures Terminated(a + b)
  {
  }

  /** The quoted form of any text reads as the cleaned text, whatever follows it. */
  lemma QuoteReadsBack(s: string, rest: string)
    requires Terminated(rest)
    ensures Terminated(Quote(s) + rest) && (Quote(s) + rest)[0] == '"'
    ensures Quoted(Quote(s) + rest) == (Clean(s), rest)
  {
    var t := Quote(s) + rest;
    Then("\"", rest);
    EscapeReadsBack(s, "\"" + rest);
    assert t[1..] == Escape(s) + ("\"" + rest);
    assert ("\"" + rest)[1..] == rest;
  }

  /** Nothing is lost exactly for texts without unescapable control characters. */
  lemma RoundTripIff(s: string, rest: string)
    requires Terminated(rest)
    ensures Terminated(Quote(s) + rest) && (Quote(s) + rest)[0] == '"'
    ensures Quoted(Quote(s) + rest).0 == s <==> forall k :: 0 <= k < |s| ==> s[k] >= ' ' || s[k] in "\n\r\t"
  {
    QuoteReadsBack(s, rest);
  }

  /** The control character 1 comes back as a space. */
  lemma ControlCharacterLost(rest: string)
    requires Terminated(rest)
    ensures Terminated(Quote("\U{01}") + rest) && (Quote("\U{01}") + rest)[0] == '"'
    ensures Quoted(Quote("\U{01}") + rest) == (" ", rest)
  {
    QuoteReadsBack("\U{01}", rest);
    assert Clean("\U{01}") == " ";
  }

  // ---- texts without quotes -------------------------------------------------

  predicate Delimits(c: char) { c == ',' || c == '}' || c == ']' || c == '\n' || c == '\r' || c == '\0' }

  predicate Pads(c: char) { c == ' ' || c == '\t' }

  /**
   A text that can stand without quotes, such as a number, true, false or null: no delimiter in it, no blank
   or tab around it, and nothing in front that begins another kind of value.
   */
  predicate WordOk(s: string) {
    && (forall k :: 0 <= k < |s| ==> !Delimits(s[k]))
    && (s != [] ==> !Pads(s[0]) && s[0] != '"' && s[0] != '{' && s[0] != '[' && !Pads(s[|s| - 1]))
  }

  /** Behind the blanks the member or the object ends. */
  predicate EndsField(s: string)
    requires Terminated(s)
  {
    var t := SkipBlank(s);
    t[0] == ',' || t[0] == '}'
  }

  /** Blanks and tabs up to a delimiter are read with the text in front of them. */
  lemma {:induction false} PadsRead(s: string)
    requires Terminated(s) && EndsField(s)
    ensures SkipBlank(Bare(s).1) == SkipBlank(s)
    ensures forall k :: 0 <= k < |Bare(s).0| ==> Pads(Bare(s).0[k])
    decreases |s|
  {
    if Pads(s[0]) {
      assert Terminated(s[1..]);
      PadsRead(s[1..]);
    }
  }

  lemma {:induction false} WordThenPads(text: string, rest: string)
    requires Terminated(rest) && EndsField(rest) && forall k :: 0 <= k < |text| ==> !Delimits(text[k])
    ensures Terminated(text + rest)
    ensures Bare(text + rest) == (text + Bare(rest).0, Bare(rest).1)
  {
    if text == [] {
      assert text + rest == rest;
      assert text + Bare(rest).0 == Bare(rest).0;
    } else {
      WordThenPads(text[1..], rest);
      assert (text + rest)[1..] == text[1..] + rest;
      assert [text[0]] + (text[1..] + Bare(rest).0) == text + Bare(rest).0;
    }
  }

  lemma {:induction false} PadsDropped(text: string, pads: string)
    requires WordOk(text) && forall k :: 0 <= k < |pads| ==> Pads(pads[k])
    ensures PadRight(text + pads) == text
    decreases |pads|
  {
    if pads == [] {
      assert text + pads == text;
    } else {
      var s := text + pads;
      assert s[..|s| - 1] == text + pads[..|pads| - 1];
      PadsDropped(text, pads[..|pads| - 1]);
    }
  }

  /** What becomes of a value whose text ends in front of `rest`: at most blanks of it are read as well. */
  predicate ReadAs(r: Parse, rest: string, out: Entries, bad: bool)
    requires Terminated(rest)
  {
    Terminated(r.rest) && SkipBlank(r.rest) == SkipBlank(rest) && r.out == out && r.bad == bad
  }

  /** A word is stored without what pads it, whichever delimiter ends it. */
  lemma WordReads(text: string, rest: string, prefix: string, out: Entries, bad: bool)
    requires WordOk(text) && Terminated(rest) && EndsField(rest)
    ensures Terminated(text + rest)
    ensures ReadAs(Value(text + rest, prefix, out, bad), rest, out[prefix := text], bad)
  {
    if text == [] {
      assert text + rest == rest;
      SkipTwice(rest);
    } else {
      var s := text + rest;
      assert s[0] == text[0];
      assert !IsBlank(s[0]) by { assert !Delimits(text[0]); }
      WordThenPads(text, rest);
      PadsRead(rest);
      PadsDropped(text, Bare(rest).0);
      assert PadLeft(text + Bare(rest).0) == text + Bare(rest).0;
      assert SkipBlank(s) == s;
    }
  }

  // ---- arrays ----------------------------------------------------------------

  /** Opening brackets less closing ones. */
  function Depth(s: string): int {
    if s == [] then 0 else (if s[0] == '[' then 1 else if s[0] == ']' then -1 else 0) + Depth(s[1..])
  }

  predicate NoNul(s: string) { forall k :: 0 <= k < |s| ==> s[k] != '\0' }

  /** From depth `d` on the brackets never close the array. */
  predicate Inside(s: string, d: int) { forall n :: 0 <= n <= |s| ==> d + Depth(s[..n]) >= 1 }

  /** Every closing bracket has its opening one in front of it, and the other way round. */
  predicate Balanced(s: string) { Inside(s, 1) && Depth(s) == 0 }

  lemma DepthFirst(s: string, n: nat)
    requires 0 < n <= |s|
    ensures Depth(s[..n]) == Depth([s[0]]) + Depth(s[1..][..n - 1])
  {
    assert s[..n][1..] == s[1..][..n - 1];
    assert [s[0]][1..] == [];
  }

  lemma InsideNext(s: string, d: int)
    requires s != [] && Inside(s, d)
    ensures Inside(s[1..], d + Depth([s[0]]))
  {
    forall n | 0 <= n <= |s| - 1 ensures d + Depth([s[0]]) + Depth(s[1..][..n]) >= 1 {
      DepthFirst(s, n + 1);
    }
  }

  lemma {:induction false} SkipsInside(s: string, t: string, d: nat)
    requires Terminated(t) && NoNul(s) && d >= 1 && Inside(s, d)
    ensures Terminated(s + t) && d + Depth(s) >= 1
    ensures SkipArray(s + t, d) == SkipArray(t, d + Depth(s))
    decreases |s|
  {
    assert s[..|s|] == s;
    if s == [] {
      assert s + t == t;
    } else {
      InsideNext(s, d);
      assert s[..0] == [] && s[..1] == [s[0]];
      assert d + Depth(s[..1]) >= 1;
      assert (s + t)[1..] == s[1..] + t;
      DepthFirst(s, |s|);
      assert s[1..][..|s| - 1] == s[1..];
      assert [s[0]][1..] == [];
      SkipsInside(s[1..], t, d + Depth([s[0]]));
    }
  }

  /** An array without unbalanced brackets is skipped up to its end. */
  lemma ArraySkipped(s: string, rest: string)
    requires Terminated(rest) && NoNul(s) && Balanced(s)
    ensures Terminated(s + ("]" + rest)) && SkipArray(s + ("]" + rest), 1) == rest
  {
    SkipsInside(s, "]" + rest, 1);
    assert ("]" + rest)[1..] == rest;
    assert SkipArray(rest, 0) == rest;
  }

  lemma {:induction false} StopsInside(s: string, t: string, d: nat, n: nat)
    requires Terminated(t) && NoNul(s) && n <= |s| && d + Depth(s[..n]) <= 0
    ensures Terminated(s + t) && |SkipArray(s + t, d)| >= |t|
    decreases |s|
  {
    if d > 0 {
      assert n > 0 by { assert s[..0] == []; }
      DepthFirst(s, n);
      assert [s[0]][1..] == [];
      assert (s + t)[1..] == s[1..] + t;
      StopsInside(s[1..], t, d + Depth([s[0]]), n - 1);
    }
  }

  /** An array is skipped up to its end, whatever follows, exactly when its brackets are balanced. */
  lemma ArraySkippedIff(s: string)
    requires NoNul(s)
    ensures (forall rest :: Terminated(rest) ==> EndsBehind(s, rest)) <==> Balanced(s)
  {
    if Balanced(s) {
      forall rest | Terminated(rest) ensures EndsBehind(s, rest) { ArraySkipped(s, rest); }
    } else {
      NotSkipped(s, ",\0");
      assert Terminated(",\0") && !EndsBehind(s, ",\0");
    }
  }

  predicate EndsBehind(s: string, rest: string)
    requires Terminated(rest)
  {
    Then(s, "]" + rest);
    SkipArray(s + ("]" + rest), 1) == rest
  }

  lemma NotSkipped(s: string, rest: string)
    requires NoNul(s) && !Balanced(s) && rest == ",\0"
    ensures !EndsBehind(s, rest)
  {
    var t := "]" + rest;
    if Inside(s, 1) {
      SkipsInside(s, t, 1);
      assert t[1..] == rest && rest[1..] == "\0";
      assert SkipArray(t, 1 + Depth(s)) == SkipArray(rest, Depth(s));
      assert SkipArray(rest, Depth(s)) == SkipArray("\0", Depth(s)) == "\0";
    } else {
      var n :| 0 <= n <= |s| && 1 + Depth(s[..n]) < 1;
      StopsInside(s, t, 1, n);
    }
  }

  /** The brackets of texts count: an array of the text `]` is left behind that bracket. */
  lemma BracketInText(rest: string)
    requires Terminated(rest)
    ensures var s := "\"]\"";
      Terminated(s + ("]" + rest)) && SkipArray(s + ("]" + rest), 1) == "\"" + ("]" + rest)
  {
    var tail := "\"" + ("]" + rest);
    var t := "\"]\"" + ("]" + rest);
    assert t[1..][1..] == tail;
    assert SkipArray(tail, 0) == tail;
    assert t[1..][0] == ']';
  }

  // ---- printed trees -------------------------------------------------------

  /** The blanks a printer may put around the parts of one field. */
  datatype Layout = Layout(beforeKey: string, beforeColon: string, beforeValue: string, afterValue: string)

  /** A tree of objects with quoted texts, words and arrays as leaves, together with its blanks. */
  datatype Tree = Leaf(text: string) | Word(text: string) | List(inner: string) | Node(gap: string, fields: Fields)
  datatype Fields = End | Field(layout: Layout, key: string, value: Tree, others: Fields)

  predicate Blank(s: string) {
    forall k :: 0 <= k < |s| ==> s[k] == ' ' || s[k] == '\t' || s[k] == '\n' || s[k] == '\r'
  }

  predicate LayoutOk(l: Layout) {
    Blank(l.beforeKey) && Blank(l.beforeColon) && Blank(l.beforeValue) && Blank(l.afterValue)
  }

  predicate TreeOk(v: Tree) {
    match v
    case Leaf(text) => true
    case Word(text) => WordOk(text)
    case List(inner) => NoNul(inner) && Balanced(inner)
    case Node(gap, fields) => Blank(gap) && FieldsOk(fields)
  }

  predicate FieldsOk(f: Fields) { f.End? || (LayoutOk(f.layout) && TreeOk(f.value) && FieldsOk(f.others)) }

  function Print(v: Tree): string {
    match v
    case Leaf(text) => Quote(text)
    case Word(text) => text
    case List(inner) => "[" + inner + "]"
    case Node(gap, fields) => "{" + gap + PrintFields(fields)
  }

  function PrintFields(f: Fields): string {
    match f
    case End => "}"
    case Field(l, key, value, others) =>
      l.beforeKey + Quote(key) + l.beforeColon + ":" + l.beforeValue + Print(value) + l.afterValue +
      (if others.End? then "}" else "," + PrintFields(others))
  }

  /** The leaves of a tree in printed order, each with the keys that lead to it; arrays have none. */
  datatype Entry = Entry(keys: seq<string>, text: string)

  function Leaves(v: Tree): seq<Entry> {
    match v
    case Leaf(text) => [Entry([], Clean(text))]
    case Word(text) => [Entry([], text)]
    case List(_) => []
    case Node(_, fields) => FieldLeaves(fields)
  }

  function FieldLeaves(f: Fields): seq<Entry> {
    match f
    case End => []
    case Field(_, key, value, others) => Under(Clean(key), Leaves(value)) + FieldLeaves(others)
  }

  function UnderOne(key: string, e: Entry): Entry { Entry([key] + e.keys, e.text) }

  function Under(key: string, es: seq<Entry>): (r: seq<Entry>)
    ensures |r| == |es| && forall k :: 0 <= k < |es| ==> r[k] == UnderOne(key, es[k])
  {
    seq(|es|, k requires 0 <= k < |es| => UnderOne(key, es[k]))
  }

  /** The keys behind a prefix, with dots between. */
  function Dotted(prefix: string, keys: seq<string>): string
    decreases |keys|
  {
    if keys == [] then prefix else Dotted(Join(prefix, keys[0]), keys[1..])
  }

  function PathOf(keys: seq<string>): string
    requires keys != []
  {
    if |keys| == 1 then keys[0] else keys[0] + "." + PathOf(keys[1..])
  }

  /** The path of a leaf is its keys with dots between them; empty keys in front vanish with their dots. */
  lemma {:induction false} DottedIsPath(keys: seq<string>)
    requires keys != []
    ensures keys[0] != "" ==> Dotted("", keys) == PathOf(keys)
    ensures keys[0] == "" ==> Dotted("", keys) == Dotted("", keys[1..])
  {
    if keys[0] != "" && |keys| > 1 { DottedBehind(keys[0], keys[1..]); }
  }

  lemma {:induction false} DottedBehind(prefix: string, keys: seq<string>)
    requires prefix != "" && keys != []
    ensures Dotted(prefix, keys) == prefix + "." + PathOf(keys)
    decreases |keys|
  {
    var p := prefix + "." + keys[0];
    assert Join(prefix, keys[0]) == p;
    if |keys| > 1 {
      DottedBehind(p, keys[1..]);
      assert p + "." + PathOf(keys[1..]) == prefix + "." + PathOf(keys);
    } else {
      assert Dotted(p, keys[1..]) == p;
    }
  }

  /** The first `n` leaves entered one after the other. */
  function Put(prefix: string, es: seq<Entry>, n: nat, out: Entries): Entries
    requires n <= |es|
  {
    if n == 0 then out else Put(prefix, es, n - 1, out)[Dotted(prefix, es[n - 1].keys) := es[n - 1].text]
  }

  lemma {:induction false} PutConcat(prefix: string, a: seq<Entry>, b: seq<Entry>, n: nat, out: Entries)
    requires n <= |b|
    ensures Put(prefix, a + b, |a| + n, out) == Put(prefix, b, n, Put(prefix, a, |a|, out))
  {
    if n > 0 {
      PutConcat(prefix, a, b, n - 1, out);
      assert (a + b)[|a| + n - 1] == b[n - 1];
    } else {
      PutSame(prefix, a, a + b, |a|, out);
    }
  }

  lemma {:induction false} PutSame(prefix: string, a: seq<Entry>, b: seq<Entry>, n: nat, out: Entries)
    requires n <= |a| && n <= |b| && forall k :: 0 <= k < n ==> a[k] == b[k]
    ensures Put(prefix, a, n, out) == Put(prefix, b, n, out)
  {
    if n > 0 { PutSame(prefix, a, b, n - 1, out); }
  }

  lemma {:induction false} PutUnder(prefix: string, key: string, es: seq<Entry>, n: nat, out: Entries)
    requires n <= |es|
    ensures Put(prefix, Under(key, es), n, out) == Put(Join(prefix, key), es, n, out)
  {
    if n > 0 {
      PutUnder(prefix, key, es, n - 1, out);
      DottedUnder(prefix, key, es[n - 1]);
    }
  }

  lemma DottedUnder(prefix: string, key: string, e: Entry)
    ensures Dotted(prefix, UnderOne(key, e).keys) == Dotted(Join(prefix, key), e.keys)
  {
    assert ([key] + e.keys)[1..] == e.keys;
  }

  lemma {:induction false} SkipsBlank(a: string, s: string)
    requires Blank(a) && Terminated(s)
    ensures Terminated(a + s) && SkipBlank(a + s) == SkipBlank(s)
  {
    if a == [] {
      assert a + s == s;
    } else {
      SkipsBlank(a[1..], s);
      assert (a + s)[1..] == a[1..] + s;
    }
  }

  /** What follows the value of a field. */
  function Behind(f: Fields, rest: string): string
    requires f.Field?
  {
    f.layout.afterValue + ((if f.others.End? then "}" else "," + PrintFields(f.others)) + rest)
  }

  /** The text of a field grouped the way it is read. */
  lemma FieldText(f: Fields, rest: string)
    requires f.Field?
    ensures PrintFields(f) + rest
         == f.layout.beforeKey + (Quote(f.key) + (f.layout.beforeColon +
              (":" + (f.layout.beforeValue + (Print(f.value) + Behind(f, rest))))))
  {
    var l := f.layout;
    var tail := if f.others.End? then "}" else "," + PrintFields(f.others);
    var a := l.beforeKey + Quote(f.key) + l.beforeColon + ":" + l.beforeValue + Print(f.value);
    assert PrintFields(f) == a + l.afterValue + tail;
    Associate(a + l.afterValue, tail, rest);
    Associate(a, l.afterValue, tail + rest);
    var behind := l.afterValue + (tail + rest);
    assert behind == Behind(f, rest);
    Associate(l.beforeKey + Quote(f.key) + l.beforeColon + ":" + l.beforeValue, Print(f.value), behind);
    Associate(l.beforeKey + Quote(f.key) + l.beforeColon + ":", l.beforeValue, Print(f.value) + behind);
    Associate(l.beforeKey + Quote(f.key) + l.beforeColon, ":", l.beforeValue + (Print(f.value) + behind));
    var after := ":" + (l.beforeValue + (Print(f.value) + behind));
    Associate(l.beforeKey + Quote(f.key), l.beforeColon, after);
    Associate(l.beforeKey, Quote(f.key), l.beforeColon + after);
  }

  lemma HeadReads(f: Fields, rest: string)
    requires f.Field? && LayoutOk(f.layout) && Terminated(rest)
    ensures Terminated(PrintFields(f) + rest) && Terminated(Behind(f, rest))
    ensures Terminated(f.layout.beforeValue + (Print(f.value) + Behind(f, rest)))
    ensures HeadOf(PrintFields(f) + rest)
         == Keyed(Clean(f.key), f.layout.beforeValue + (Print(f.value) + Behind(f, rest)))
  {
    var l := f.layout;
    var after := l.beforeValue + (Print(f.value) + Behind(f, rest));
    var colon := l.beforeColon + (":" + after);
    FieldText(f, rest);
    QuoteReadsBack(f.key, colon);
    SkipsBlank(l.beforeKey, Quote(f.key) + colon);
    SkipsBlank(l.beforeColon, ":" + after);
    assert (":" + after)[1..] == after;
  }

  lemma SeparatorReads(f: Fields, rest: string)
    requires f.Field? && LayoutOk(f.layout) && Terminated(rest)
    ensures Terminated(Behind(f, rest)) && EndsField(Behind(f, rest))
    ensures SeparatorOf(Behind(f, rest))
         == if f.others.End? then Close(rest) else More(PrintFields(f.others) + rest)
  {
    if f.others.End? {
      var t := "}" + rest;
      SkipsBlank(f.layout.afterValue, t);
      assert t[1..] == rest;
    } else {
      var t := "," + (PrintFields(f.others) + rest);
      assert ("," + PrintFields(f.others)) + rest == t;
      SkipsBlank(f.layout.afterValue, t);
      assert t[1..] == PrintFields(f.others) + rest;
    }
  }

  lemma LeafReads(text: string, rest: string, prefix: string, out: Entries, bad: bool)
    requires Terminated(rest)
    ensures Terminated(Quote(text) + rest)
    ensures Value(Quote(text) + rest, prefix, out, bad) == Parse(rest, out[prefix := Clean(text)], bad)
  {
    QuoteReadsBack(text, rest);
  }

  lemma ListReads(inner: string, rest: string, prefix: string, out: Entries, bad: bool)
    requires Terminated(rest) && NoNul(inner) && Balanced(inner)
    ensures Terminated(("[" + inner + "]") + rest)
    ensures Value(("[" + inner + "]") + rest, prefix, out, bad) == Parse(rest, out, bad)
  {
    var s := ("[" + inner + "]") + rest;
    RegroupNode("[", inner, "]", rest);
    ArraySkipped(inner, rest);
    assert s[1..] == inner + ("]" + rest);
  }

  lemma PutsOne(prefix: string, text: string, out: Entries)
    ensures Put(prefix, [Entry([], text)], 1, out) == out[prefix := text]
  {
    assert Put(prefix, [Entry([], text)], 0, out) == out;
  }

  /** Behind an opening brace a value is an object. */
  lemma BraceReads(s: string, prefix: string, out: Entries, bad: bool)
    requires Terminated(s)
    ensures Terminated("{" + s) && Value("{" + s, prefix, out, bad) == Object(s, prefix, out, bad)
  {
    assert ("{" + s)[1..] == s;
  }

  lemma EntryReads(s: string, next: string, mid: Entries, prefix: string, key: string, out: Entries, bad: bool)
    requires Terminated(s) && Terminated(next) && ReadAs(Value(s, Join(prefix, key), out, bad), next, mid, bad)
    ensures SeparatorOf(next).Close? ==>
        ConfigJson.Entry(s, prefix, key, out, bad) == Parse(SeparatorOf(next).rest, mid, bad)
    ensures SeparatorOf(next).More? ==>
        ConfigJson.Entry(s, prefix, key, out, bad) == Members(SeparatorOf(next).rest, prefix, mid, bad)
  {
  }

  lemma MembersReads(s: string, prefix: string, out: Entries, bad: bool)
    requires Terminated(s) && HeadOf(s).Keyed?
    ensures Members(s, prefix, out, bad) == ConfigJson.Entry(HeadOf(s).rest, prefix, HeadOf(s).key, out, bad)
  {
  }

  /** A printed tree is read as its leaves, entered in order under the prefix; behind a word blanks go with it. */
  lemma {:induction false} TreeReadsBack(v: Tree, rest: string, prefix: string, out: Entries, bad: bool)
    requires TreeOk(v) && Terminated(rest) && (v.Word? ==> EndsField(rest))
    ensures Terminated(Print(v) + rest)
    ensures ReadAs(Value(Print(v) + rest, prefix, out, bad), rest, Put(prefix, Leaves(v), |Leaves(v)|, out), bad)
    ensures !v.Word? ==> Value(Print(v) + rest, prefix, out, bad).rest == rest
    decreases v, 1
  {
    match v {
      case Leaf(text) =>
        LeafReads(text, rest, prefix, out, bad);
        PutsOne(prefix, Clean(text), out);
      case Word(text) =>
        WordReads(text, rest, prefix, out, bad);
        PutsOne(prefix, text, out);
      case List(inner) =>
        ListReads(inner, rest, prefix, out, bad);
      case Node(gap, fields) =>
        ObjectReadsBack(v, rest, prefix, out, bad);
        var inner := gap + (PrintFields(fields) + rest);
        RegroupNode("{", gap, PrintFields(fields), rest);
        BraceReads(inner, prefix, out, bad);
    }
  }

  lemma {:induction false} ObjectReadsBack(v: Tree, rest: string, prefix: string, out: Entries, bad: bool)
    requires v.Node? && TreeOk(v) && Terminated(rest)
    ensures Terminated(v.gap + (PrintFields(v.fields) + rest))
    ensures Object(v.gap + (PrintFields(v.fields) + rest), prefix, out, bad)
         == Parse(rest, Put(prefix, Leaves(v), |Leaves(v)|, out), bad)
    decreases v, 0
  {
    var s := PrintFields(v.fields) + rest;
    SkipsBlank(v.gap, s);
    if v.fields.End? {
      assert s[1..] == rest;
    } else {
      FieldsReadBack(v.fields, rest, prefix, out, bad);
      HeadReads(v.fields, rest);
      MembersSkip(s, prefix, out, bad);
    }
  }

  /** Blanks in front of the first key are skipped twice; the second time there are none. */
  lemma MembersSkip(s: string, prefix: string, out: Entries, bad: bool)
    requires Terminated(s)
    ensures Members(SkipBlank(s), prefix, out, bad) == Members(s, prefix, out, bad)
  {
    SkipTwice(s);
  }

  lemma {:induction false} SkipTwice(s: string)
    requires Terminated(s)
    ensures SkipBlank(SkipBlank(s)) == SkipBlank(s)
    decreases |s|
  {
    if IsBlank(s[0]) {
      assert Terminated(s[1..]);
      SkipTwice(s[1..]);
    }
  }

  lemma {:induction false} FieldsReadBack(f: Fields, rest: string, prefix: string, out: Entries, bad: bool)
    requires f.Field? && FieldsOk(f) && Terminated(rest)
    ensures Terminated(PrintFields(f) + rest)
    ensures Members(PrintFields(f) + rest, prefix, out, bad)
         == Parse(rest, Put(prefix, FieldLeaves(f), |FieldLeaves(f)|, out), bad)
    decreases f
  {
    var next := Behind(f, rest);
    var at := Join(prefix, Clean(f.key));
    HeadReads(f, rest);
    SeparatorReads(f, rest);
    TreeReadsBack(f.value, next, at, out, bad);
    SkipsBlank(f.layout.beforeValue, Print(f.value) + next);
    ValueSkip(f.layout.beforeValue + (Print(f.value) + next), Print(f.value) + next, at, out, bad);
    var mid := Put(at, Leaves(f.value), |Leaves(f.value)|, out);
    MembersReads(PrintFields(f) + rest, prefix, out, bad);
    EntryReads(f.layout.beforeValue + (Print(f.value) + next), next, mid, prefix, Clean(f.key), out, bad);
    PutField(f, prefix, out);
    if f.others.Field? { FieldsReadBack(f.others, rest, prefix, mid, bad); }
  }

  lemma PutField(f: Fields, prefix: string, out: Entries)
    requires f.Field?
    ensures Put(prefix, FieldLeaves(f), |FieldLeaves(f)|, out)
         == Put(prefix, FieldLeaves(f.others), |FieldLeaves(f.others)|,
                Put(Join(prefix, Clean(f.key)), Leaves(f.value), |Leaves(f.value)|, out))
  {
    var under := Under(Clean(f.key), Leaves(f.value));
    PutUnder(prefix, Clean(f.key), Leaves(f.value), |Leaves(f.value)|, out);
    PutBoth(prefix, FieldLeaves(f), under, FieldLeaves(f.others), out);
  }

  lemma PutBoth(prefix: string, es: seq<Entry>, a: seq<Entry>, b: seq<Entry>, out: Entries)
    requires Same(es, a + b)
    ensures Put(prefix, es, |es|, out) == Put(prefix, b, |b|, Put(prefix, a, |a|, out))
  {
    PutConcat(prefix, a, b, |b|, out);
  }

  lemma ValueSkip(s: string, t: string, prefix: string, out: Entries, bad: bool)
    requires Terminated(s) && Terminated(t) && SkipBlank(s) == SkipBlank(t)
    ensures Value(s, prefix, out, bad) == Value(t, prefix, out, bad)
  {
  }

  // ---- the map of a configuration text -------------------------------------

  predicate LastWith(prefix: string, es: seq<Entry>, n: nat, k: int)
    requires n <= |es|
  {
    0 <= k < n && forall j :: k < j < n ==> Dotted(prefix, es[j].keys) != Dotted(prefix, es[k].keys)
  }

  lemma {:induction false} PutKnows(prefix: string, es: seq<Entry>, n: nat, k: nat)
    requires k < n <= |es|
    ensures Dotted(prefix, es[k].keys) in Put(prefix, es, n, map[])
  {
    if k < n - 1 { PutKnows(prefix, es, n - 1, k); }
  }

  lemma {:induction false} PutOrigin(prefix: string, es: seq<Entry>, n: nat, path: string) returns (k: nat)
    requires n <= |es| && path in Put(prefix, es, n, map[])
    ensures k < n && Dotted(prefix, es[k].keys) == path
  {
    k := n - 1;
    if Dotted(prefix, es[n - 1].keys) != path { k := PutOrigin(prefix, es, n - 1, path); }
  }

  lemma {:induction false} PutKeepsLast(prefix: string, es: seq<Entry>, n: nat, k: nat)
    requires n <= |es| && LastWith(prefix, es, n, k)
    ensures var path := Dotted(prefix, es[k].keys);
      path in Put(prefix, es, n, map[]) && Put(prefix, es, n, map[])[path] == es[k].text
  {
    if k < n - 1 { PutKeepsLast(prefix, es, n - 1, k); }
  }

  /** The map a list of leaves with distinct paths stands for. */
  predicate IsDottedMap(out: Entries, es: seq<Entry>) {
    && (forall k :: 0 <= k < |es| ==> Dotted("", es[k].keys) in out && out[Dotted("", es[k].keys)] == es[k].text)
    && (forall path <- out :: exists k :: 0 <= k < |es| && Dotted("", es[k].keys) == path)
  }

  predicate UniquePaths(es: seq<Entry>) {
    forall j, k :: 0 <= j < k < |es| ==> Dotted("", es[j].keys) != Dotted("", es[k].keys)
  }

  /**
   Any printed object, with any blanks before and inside it and any text behind it, is accepted; the
   map holds exactly its dotted paths, and a path that occurs more than once keeps its last text.
   */
  lemma ConfigReadsBack(blank: string, v: Tree, rest: string)
    requires Blank(blank) && v.Node? && TreeOk(v) && Terminated(rest)
    ensures Terminated(blank + (Print(v) + rest))
    ensures Run(blank + (Print(v) + rest)).1
    ensures forall path :: path in Run(blank + (Print(v) + rest)).0 <==>
        exists k :: 0 <= k < |Leaves(v)| && Dotted("", Leaves(v)[k].keys) == path
    ensures forall k :: LastWith("", Leaves(v), |Leaves(v)|, k) ==>
        Dotted("", Leaves(v)[k].keys) in Run(blank + (Print(v) + rest)).0 &&
        Run(blank + (Print(v) + rest)).0[Dotted("", Leaves(v)[k].keys)] == Leaves(v)[k].text
  {
    RunReadsBack(blank, v, rest);
    forall path
      ensures path in Put("", Leaves(v), |Leaves(v)|, map[]) <==>
          exists k :: 0 <= k < |Leaves(v)| && Dotted("", Leaves(v)[k].keys) == path
    {
      if path in Put("", Leaves(v), |Leaves(v)|, map[]) { var _ := PutOrigin("", Leaves(v), |Leaves(v)|, path); }
      forall k | 0 <= k < |Leaves(v)| ensures Dotted("", Leaves(v)[k].keys) in Put("", Leaves(v), |Leaves(v)|, map[]) {
        PutKnows("", Leaves(v), |Leaves(v)|, k);
      }
    }
    forall k | LastWith("", Leaves(v), |Leaves(v)|, k)
      ensures Dotted("", Leaves(v)[k].keys) in Put("", Leaves(v), |Leaves(v)|, map[])
      ensures Put("", Leaves(v), |Leaves(v)|, map[])[Dotted("", Leaves(v)[k].keys)] == Leaves(v)[k].text
    {
      PutKeepsLast("", Leaves(v), |Leaves(v)|, k);
    }
  }

  lemma TopReads(blank: string, s: string)
    requires Blank(blank) && Terminated(s)
    ensures Terminated(blank + ("{" + s))
    ensures Run(blank + ("{" + s)) == (Object(s, "", map[], false).out, !Object(s, "", map[], false).bad)
  {
    assert ("{" + s)[1..] == s;
    SkipsBlank(blank, "{" + s);
  }

  lemma RunReadsBack(blank: string, v: Tree, rest: string)
    requires Blank(blank) && v.Node? && TreeOk(v) && Terminated(rest)
    ensures Terminated(blank + (Print(v) + rest))
    ensures Run(blank + (Print(v) + rest)) == (Put("", Leaves(v), |Leaves(v)|, map[]), true)
  {
    var inner := v.gap + (PrintFields(v.fields) + rest);
    var t := Print(v) + rest;
    ObjectReadsBack(v, rest, "", map[], false);
    RegroupNode("{", v.gap, PrintFields(v.fields), rest);
    TopReads(blank, inner);
  }

  /** With unique paths the map is the tree's dotted-path map. */
  lemma UniqueConfigReadsBack(blank: string, v: Tree, rest: string)
    requires Blank(blank) && v.Node? && TreeOk(v) && Terminated(rest) && UniquePaths(Leaves(v))
    ensures Terminated(blank + (Print(v) + rest))
    ensures Run(blank + (Print(v) + rest)).1 && IsDottedMap(Run(blank + (Print(v) + rest)).0, Leaves(v))
  {
    ConfigReadsBack(blank, v, rest);
    var es := Leaves(v);
    forall k | 0 <= k < |es|
      ensures LastWith("", es, |es|, k)
    {
    }
  }

  /** The parser object on a printed configuration: the stored map is the tree's, the text well formed. */
  method ReadConfig(blank: string, v: Tree, rest: string) returns (out: Entries, ok: bool)
    requires Blank(blank) && v.Node? && TreeOk(v) && Terminated(rest) && UniquePaths(Leaves(v))
    ensures ok && IsDottedMap(out, Leaves(v))
  {
    UniqueConfigReadsBack(blank, v, rest);
    var parser := new JsonParser(blank + (Print(v) + rest));
    ok := parser.ParseAll();
    out := parser.out;
  }
}
