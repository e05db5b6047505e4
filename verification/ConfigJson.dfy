/**
 The configuration reader: a cursor over NUL-terminated text that fills a map from dotted paths to
 leaf texts, and the escaping writer it is compared with.
 */
module ConfigJson {
  import opened Text

  type Entries = map<string, string>

  // ---- the terminator ------------------------------------------------------

  /** Text as the parser sees it: it ends in its only guaranteed NUL. */
  predicate Terminated(s: string) { |s| > 0 && s[|s| - 1] == '\0' }

  /** Position of the first NUL. */
  function Nul(s: string): (r: nat)
    requires Terminated(s)
    ensures r < |s| && s[r] == '\0' && forall k :: 0 <= k < r ==> s[k] != '\0'
  {
    if s[0] == '\0' then 0
    else
      assert Terminated(s[1..]);
      var r := Nul(s[1..]);
      assert forall k :: 0 < k < 1 + r ==> s[k] == s[1..][k - 1];
      1 + r
  }

  // ---- what the parser reads, as functions of the remaining text ------------

  function SkipBlank(s: string): (r: string)
    requires Terminated(s)
    ensures Terminated(r) && |r| <= |s|
  {
    if IsBlank(s[0]) then
      assert Terminated(s[1..]);
      SkipBlank(s[1..])
    else s
  }

  /** Drops at most `n` characters, stopping in front of the NUL. */
  function DropSome(s: string, n: nat): (r: string)
    requires Terminated(s)
    ensures Terminated(r) && |r| <= |s|
    decreases n
  {
    if n == 0 || s[0] == '\0' || s[1] == '\0' then s
    else
      assert Terminated(s[1..]);
      DropSome(s[1..], n - 1)
  }

  /** The character an escape letter stands for; `u` stands for none. */
  function Unescaped(c: char): string {
    if c == 'n' then "\n" else if c == 't' then "\t" else if c == 'r' then "\r" else if c == 'u' then "" else [c]
  }

  /** What is left behind an escape letter at the front. */
  function BehindEscape(s: string): (r: string)
    requires Terminated(s) && s[0] != '\0'
    ensures Terminated(r) && |r| < |s|
  {
    var t := if s[0] == 'u' then DropSome(s, 4) else s;
    DropKeeps(s, 4);
    assert Terminated(t[1..]);
    t[1..]
  }

  lemma {:induction false} DropKeeps(s: string, n: nat)
    requires Terminated(s) && s[0] != '\0'
    ensures DropSome(s, n)[0] != '\0' && |DropSome(s, n)| > 1
    decreases n
  {
    if n > 0 && s[1] != '\0' { DropKeeps(s[1..], n - 1); }
  }

  /** The characters up to the closing quote or the NUL. */
  function Chars(s: string): (r: (string, string))
    requires Terminated(s)
    ensures Terminated(r.1) && |r.1| <= |s| && (r.1[0] == '\0' || r.1[0] == '"')
    decreases |s|
  {
    if s[0] == '\0' || s[0] == '"' then ("", s)
    else
      assert Terminated(s[1..]);
      if s[0] == '\\' && s[1] != '\0' then
        var r := Chars(BehindEscape(s[1..]));
        (Unescaped(s[1]) + r.0, r.1)
      else
        var r := Chars(s[1..]);
        ([s[0]] + r.0, r.1)
  }

  /** A quoted string at the front; an unterminated one ends at the NUL. */
  function Quoted(s: string): (r: (string, string))
    requires Terminated(s) && s[0] == '"'
    ensures Terminated(r.1) && |r.1| < |s|
  {
    assert Terminated(s[1..]);
    var r := Chars(s[1..]);
    if r.1[0] == '"' then
      assert Terminated(r.1[1..]);
      (r.0, r.1[1..])
    else r
  }

  /** Skips an array up to its closing bracket; the depth counts open brackets. */
  function SkipArray(s: string, depth: nat): (r: string)
    requires Terminated(s)
    ensures Terminated(r) && |r| <= |s|
    decreases |s|
  {
    if s[0] == '\0' || depth == 0 then s
    else
      assert Terminated(s[1..]);
      SkipArray(s[1..], if s[0] == '[' then depth + 1 else if s[0] == ']' then depth - 1 else depth)
  }

  predicate EndsBare(c: char) { c == '\0' || c == ',' || c == '}' || c == ']' || c == '\n' || c == '\r' }

  /** An unquoted value: everything up to a delimiter. */
  function Bare(s: string): (r: (string, string))
    requires Terminated(s)
    ensures Terminated(r.1) && |r.1| <= |s|
    decreases |s|
  {
    if EndsBare(s[0]) then ("", s)
    else
      assert Terminated(s[1..]);
      var r := Bare(s[1..]);
      ([s[0]] + r.0, r.1)
  }

  predicate IsPad(c: char) { c == ' ' || c == '\t' }

  function PadLeft(s: string): string { if s != [] && IsPad(s[0]) then PadLeft(s[1..]) else s }

  function PadRight(s: string): string { if s != [] && IsPad(s[|s| - 1]) then PadRight(s[..|s| - 1]) else s }

  datatype Parse = Parse(rest: string, out: Entries, bad: bool)

  function Join(prefix: string, key: string): string { if prefix == "" then key else prefix + "." + key }

  /** What stands before a value in an object: nothing usable, or a key and its colon. */
  datatype Head = NoKey(rest: string) | Keyed(key: string, rest: string)

  function HeadOf(s: string): (r: Head)
    requires Terminated(s)
    ensures Terminated(r.rest) && |r.rest| <= |s| && (r.Keyed? ==> |r.rest| < |s|)
  {
    var t := SkipBlank(s);
    if t[0] != '"' then NoKey(t)
    else
      var key := Quoted(t);
      var u := SkipBlank(key.1);
      if u[0] != ':' then NoKey(u)
      else
        assert Terminated(u[1..]);
        Keyed(key.0, u[1..])
  }

  /** What stands behind a value in an object. */
  datatype Separator = More(rest: string) | Close(rest: string) | Neither(rest: string)

  function SeparatorOf(s: string): (r: Separator)
    requires Terminated(s)
    ensures Terminated(r.rest) && |r.rest| <= |s| && (!r.Neither? ==> |r.rest| < |s|)
  {
    var w := SkipBlank(s);
    if w[0] == ',' || w[0] == '}' then
      assert Terminated(w[1..]);
      if w[0] == ',' then More(w[1..]) else Close(w[1..])
    else Neither(w)
  }

  /** A value that is not an object: arrays are skipped, strings and bare texts are stored. */
  function Leaf(t: string, prefix: string, out: Entries, bad: bool): (r: Parse)
    requires Terminated(t)
    ensures Terminated(r.rest) && |r.rest| <= |t|
  {
    if t[0] == '[' then
      assert Terminated(t[1..]);
      Parse(SkipArray(t[1..], 1), out, bad)
    else if t[0] == '"' then Parse(Quoted(t).1, out[prefix := Quoted(t).0], bad)
    else Parse(Bare(t).1, out[prefix := PadRight(PadLeft(Bare(t).0))], bad)
  }

  function Value(s: string, prefix: string, out: Entries, bad: bool): (r: Parse)
    requires Terminated(s)
    ensures Terminated(r.rest) && |r.rest| <= |s|
    decreases |s|, 3
  {
    Plain(SkipBlank(s), prefix, out, bad)
  }

  /** A value without blanks in front. */
  function Plain(t: string, prefix: string, out: Entries, bad: bool): (r: Parse)
    requires Terminated(t)
    ensures Terminated(r.rest) && |r.rest| <= |t|
    decreases |t|, 2
  {
    if t[0] == '{' then
      assert Terminated(t[1..]);
      Object(t[1..], prefix, out, bad)
    else Leaf(t, prefix, out, bad)
  }

  /** An object behind its opening brace. */
  function Object(s: string, prefix: string, out: Entries, bad: bool): (r: Parse)
    requires Terminated(s)
    ensures Terminated(r.rest) && |r.rest| <= |s|
    decreases |s|, 1
  {
    var t := SkipBlank(s);
    if t[0] == '}' then
      assert Terminated(t[1..]);
      Parse(t[1..], out, bad)
    else Members(t, prefix, out, bad)
  }

  function Members(s: string, prefix: string, out: Entries, bad: bool): (r: Parse)
    requires Terminated(s)
    ensures Terminated(r.rest) && |r.rest| <= |s|
    decreases |s|, 0
  {
    match HeadOf(s)
    case NoKey(rest) => Parse(rest, out, true)
    case Keyed(key, rest) =>
      Entry(rest, prefix, key, out, bad)
  }

  /** The value behind a key, its separator and, behind a comma, the members that follow. */
  function Entry(s: string, prefix: string, key: string, out: Entries, bad: bool): (r: Parse)
    requires Terminated(s)
    ensures Terminated(r.rest) && |r.rest| <= |s|
    decreases |s|, 4
  {
    var v := Value(s, Join(prefix, key), out, bad);
    match SeparatorOf(v.rest)
    case More(next) => Members(next, prefix, v.out, v.bad)
    case Close(next) => Parse(next, v.out, v.bad)
    case Neither(next) => Parse(next, v.out, true)
  }

  function Top(t: string): (Entries, bool)
    requires Terminated(t)
  {
    if t[0] == '{' then
      assert Terminated(t[1..]);
      var r := Object(t[1..], "", map[], false);
      (r.out, !r.bad)
    else (map[], false)
  }

  /** The whole text: a map and whether it was well formed. */
  function Run(s: string): (Entries, bool)
    requires Terminated(s)
  {
    Top(SkipBlank(s))
  }

  // ---- the parser object ---------------------------------------------------

  lemma Behind(s: string, p: nat)
    requires Terminated(s) && p <= Nul(s)
    ensures Terminated(s[p..]) && s[p..][0] == s[p]
    ensures s[p] != '\0' ==> p < Nul(s) && s[p..][1..] == s[p + 1..] && s[p..][1] == s[p + 1]
  {
  }

  class JsonParser {
    const text: string
    var p: nat
    var out: Entries
    var bad: bool

    constructor (text: string)
      requires Terminated(text)
      ensures Valid() && this.text == text && p == 0 && out == map[] && !bad
    { this.text, p, out, bad := text, 0, map[], false; }

    /** The cursor has not passed the first NUL. */
    ghost predicate Valid()
      reads this
    {
      Terminated(text) && p <= Nul(text)
    }

    ghost function Left(): (r: string)
      requires Valid()
      reads this
      ensures Terminated(r) && r[0] == text[p]
    {
      Behind(text, p);
      text[p..]
    }

    /** One step of the cursor over a character that is not the NUL. */
    method Next()
      requires Valid() && text[p] != '\0'
      modifies this`p
      ensures Valid() && p == old(p) + 1 && Left() == old(Left())[1..]
    {
      Behind(text, p);
      p := p + 1;
    }

    method SkipWs()
      requires Valid()
      modifies this`p
      ensures Valid() && Left() == SkipBlank(old(Left())) && p >= old(p)
    {
      while text[p] == ' ' || text[p] == '\t' || text[p] == '\r' || text[p] == '\n'
        invariant Valid() && p >= old(p)
        invariant SkipBlank(Left()) == SkipBlank(old(Left()))
        decreases |text| - p
      {
        Next();
      }
    }

    /** Behind the backslash: reads the escape letter and what belongs to it. */
    method ReadEscape() returns (s: string)
      requires Valid() && text[p] != '\0'
      modifies this`p
      ensures Valid() && s == Unescaped(old(text[p])) && Left() == BehindEscape(old(Left())) && p > old(p)
    {
      s := Unescaped(text[p]);
      if text[p] == 'u' { SkipHex(); }
      Behind(text, p);
      Next();
    }

    method SkipHex()
      requires Valid() && text[p] != '\0'
      modifies this`p
      ensures Valid() && Left() == DropSome(old(Left()), 4) && p >= old(p) && text[p] != '\0'
    {
      var i := 0;
      while i < 4 && text[p + 1] != '\0'
        invariant 0 <= i <= 4 && Valid() && p >= old(p) && text[p] != '\0'
        invariant DropSome(Left(), 4 - i) == DropSome(old(Left()), 4)
      {
        Behind(text, p);
        Next();
        i := i + 1;
      }
      Behind(text, p);
    }

    method ParseString() returns (s: string)
      requires Valid()
      modifies this`p, this`bad
      ensures Valid() && p >= old(p)
      ensures old(text[p]) != '"' ==> s == "" && bad && p == old(p)
      ensures old(text[p]) == '"' ==> bad == old(bad) && p > old(p) && (s, Left()) == Quoted(old(Left()))
    {
      if text[p] != '"' {
        bad := true;
        return "";
      }
      Next();
      s := ReadChars();
      CloseQuote();
    }

    method CloseQuote()
      requires Valid()
      modifies this`p
      ensures Valid() && p >= old(p)
      ensures Left() == if old(text[p]) == '"' then old(Left())[1..] else old(Left())
    {
      if text[p] == '"' { Next(); }
    }

    /** Up to the closing quote or the NUL. */
    method ReadChars() returns (s: string)
      requires Valid()
      modifies this`p
      ensures Valid() && p >= old(p)
      ensures (s, Left()) == Chars(old(Left()))
    {
      s := "";
      ghost var goal := Chars(Left());
      EmptyFront(goal.0);
      while text[p] != '\0' && text[p] != '"'
        invariant Valid() && p >= old(p)
        invariant goal == (s + Chars(Left()).0, Chars(Left()).1)
        decreases |text| - p
      {
        var add := ReadChar();
        Associate(s, add, Chars(Left()).0);
        s := s + add;
      }
      assert s + "" == s;
    }

    /** One character of a string, or one escape sequence. */
    method ReadChar() returns (add: string)
      requires Valid() && text[p] != '\0' && text[p] != '"'
      modifies this`p
      ensures Valid() && p > old(p)
      ensures Chars(old(Left())) == (add + Chars(Left()).0, Chars(Left()).1)
    {
      Behind(text, p);
      if text[p] == '\\' && text[p + 1] != '\0' {
        Next();
        add := ReadEscape();
      } else {
        add := [text[p]];
        Next();
      }
    }

    lemma EmptyFront(a: string)
      ensures "" + a == a
    {
    }

    method SkipBrackets()
      requires Valid()
      modifies this`p
      ensures Valid() && Left() == SkipArray(old(Left()), 1) && p >= old(p)
    {
      var depth := 1;
      while text[p] != '\0' && depth > 0
        invariant Valid() && depth >= 0 && p >= old(p)
        invariant SkipArray(Left(), depth) == SkipArray(old(Left()), 1)
        decreases |text| - p
      {
        if text[p] == '[' { depth := depth + 1; } else if text[p] == ']' { depth := depth - 1; }
        Next();
      }
    }

    method ParseBare() returns (v: string)
      requires Valid()
      modifies this`p
      ensures Valid() && (v, Left()) == (PadRight(PadLeft(Bare(old(Left())).0)), Bare(old(Left())).1) && p >= old(p)
    {
      v := "";
      EmptyFront(Bare(Left()).0);
      while !EndsBare(text[p])
        invariant Valid() && p >= old(p)
        invariant Bare(old(Left())) == (v + Bare(Left()).0, Bare(Left()).1)
        decreases |text| - p
      {
        var c := [text[p]];
        Next();
        Associate(v, c, Bare(Left()).0);
        v := v + c;
      }
      assert v + "" == v;
      v := Unpad(v);
    }

    method Unpad(v: string) returns (r: string)
      ensures r == PadRight(PadLeft(v))
    {
      r := v;
      while r != [] && IsPad(r[0])
        invariant PadLeft(r) == PadLeft(v)
      {
        r := r[1..];
      }
      while r != [] && IsPad(r[|r| - 1])
        invariant PadRight(r) == PadRight(PadLeft(v))
      {
        r := r[..|r| - 1];
      }
    }

    method ParseLeaf(prefix: string)
      requires Valid() && text[p] != '{'
      modifies this
      ensures Valid() && p >= old(p)
      ensures Same(Parse(Left(), out, bad), Leaf(old(Left()), prefix, old(out), old(bad)))
    {
      if text[p] == '[' {
        Next();
        SkipBrackets();
      } else if text[p] == '"' {
        var s := ParseString();
        Store(prefix, s);
      } else {
        var v := ParseBare();
        Store(prefix, v);
      }
    }

    method Store(key: string, value: string)
      requires Valid()
      modifies this`out
      ensures Valid() && out == old(out)[key := value] && Left() == old(Left())
    {
      out := out[key := value];
    }

    method ParseValue(prefix: string)
      requires Valid()
      modifies this
      ensures Valid() && p >= old(p)
      ensures Parse(Left(), out, bad) == Value(old(Left()), prefix, old(out), old(bad))
      decreases |text| - p, 4
    {
      SkipWs();
      ParsePlain(prefix);
    }

    method ParsePlain(prefix: string)
      requires Valid()
      modifies this
      ensures Valid() && p >= old(p)
      ensures Parse(Left(), out, bad) == Plain(old(Left()), prefix, old(out), old(bad))
      decreases |text| - p, 3
    {
      if text[p] == '{' {
        Next();
        ParseObject(prefix);
      } else {
        ParseLeaf(prefix);
      }
    }

    method ParseObject(prefix: string)
      requires Valid()
      modifies this
      ensures Valid() && p >= old(p)
      ensures Parse(Left(), out, bad) == Object(old(Left()), prefix, old(out), old(bad))
      decreases |text| - p, 7
    {
      SkipWs();
      if text[p] == '}' {
        Next();
        return;
      }
      ghost var goal := Members(Left(), prefix, out, bad);
      while true
        invariant Valid() && p >= old(p)
        invariant Members(Left(), prefix, out, bad) == goal
        decreases |text| - p
      {
        var done := ParseMember(prefix, goal);
        if done { return; }
      }
    }

    /** One key and its value; whether the object is over. */
    method ParseMember(prefix: string, ghost goal: Parse) returns (done: bool)
      requires Valid() && Members(Left(), prefix, out, bad) == goal
      modifies this
      ensures Valid() && p >= old(p)
      ensures done ==> Parse(Left(), out, bad) == goal
      ensures !done ==> p > old(p) && Members(Left(), prefix, out, bad) == goal
      decreases |text| - p, 6
    {
      var key := ParseKey();
      if key.None? { return true; }
      done := ParseKeyed(prefix, key.value);
    }

    /** What stands behind a key and its colon: a value and a separator. */
    method ParseKeyed(prefix: string, key: string) returns (done: bool)
      requires Valid()
      modifies this
      ensures Valid() && p >= old(p)
      ensures done ==> Parse(Left(), out, bad) == Entry(old(Left()), prefix, key, old(out), old(bad))
      ensures !done ==>
        p > old(p) && Members(Left(), prefix, out, bad) == Entry(old(Left()), prefix, key, old(out), old(bad))
      decreases |text| - p, 5
    {
      ParseValue(Join(prefix, key));
      done := ParseSeparator();
    }

    /** A key with its colon. */
    method ParseKey() returns (key: Option<string>)
      requires Valid()
      modifies this`p, this`bad
      ensures Valid() && p >= old(p)
      ensures match HeadOf(old(Left()))
        case NoKey(rest) => key.None? && Left() == rest && bad
        case Keyed(k, rest) => key == Some(k) && Left() == rest && bad == old(bad) && p > old(p)
    {
      SkipWs();
      if text[p] != '"' {
        bad := true;
        return None;
      }
      var s := ParseString();
      SkipWs();
      if text[p] != ':' {
        bad := true;
        return None;
      }
      Next();
      return Some(s);
    }

    /** A comma goes on, a brace ends the object, anything else is an error. */
    method ParseSeparator() returns (done: bool)
      requires Valid()
      modifies this`p, this`bad
      ensures Valid() && p >= old(p)
      ensures match SeparatorOf(old(Left()))
        case More(rest) => !done && Left() == rest && bad == old(bad) && p > old(p)
        case Close(rest) => done && Left() == rest && bad == old(bad)
        case Neither(rest) => done && Left() == rest && bad
    {
      SkipWs();
      done := text[p] != ',';
      if text[p] == ',' || text[p] == '}' {
        Next();
      } else {
        bad := true;
      }
    }

    method ParseAll() returns (ok: bool)
      requires Valid() && out == map[] && !bad
      modifies this
      ensures Valid() && p >= old(p) && (out, ok) == Run(old(Left()))
    {
      SkipWs();
      ok := ParseTop();
    }

    method ParseTop() returns (ok: bool)
      requires Valid() && out == map[] && !bad
      modifies this
      ensures Valid() && p >= old(p) && (out, ok) == Top(old(Left()))
    {
      if text[p] == '{' {
        Next();
        ParseObject("");
      } else {
        bad := true;
      }
      ok := !bad;
    }
  }
}
