/** The TOML-subset reader of the board files (tools/board_config.py:57-257; TOML v1.0.0):
    a cursor over the text, nested tables filled as headers and keys come. What each reading
    method leaves is a function of the text still unread, so that a document can be followed
    through it without the cursor; every loop moves the cursor forward or ends, which is
    what makes it stop on any text at all. Errors are values here, and say which rule the
    text broke. */
module Toml {
  import opened Options

  datatype Val =
    | Str(text: string)
    | Int(n: int)
    | Float(raw: string)
    | Bool(b: bool)
    | List(items: seq<Val>)
    | Table(entries: map<string, Val>)

  /** TomlError, or an error of Python's own that escapes the reader. */
  datatype Fault = Refused | Crashed

  /** What is read off the front of a text, and what is left of it. */
  datatype Res<+T> = Ok(value: T, rest: string) | Err(fault: Fault)

  /** Python's own readers: str.isalnum, the characters str.strip strips, int(_, 0) and
      whether float takes it. Neither reads an empty text. */
  datatype Readers = Readers(alnum: char -> bool, space: char -> bool, ints: string -> Option<int>, floats: string -> bool)

  // ---- lexing ----

  predicate Blank(c: char) { c == ' ' || c == '\t' || c == '\r' }

  function DropLine(t: string): (r: string)
    ensures |r| <= |t| && (t != "" && t[0] != '\n' ==> |r| < |t|)
  {
    if t == "" || t[0] == '\n' then t else DropLine(t[1..])
  }

  function Skip(t: string, newlines: bool): (r: string)
    ensures |r| <= |t|
    decreases |t|
  {
    if t == "" then t
    else if Blank(t[0]) then Skip(t[1..], newlines)
    else if t[0] == '\n' then if newlines then Skip(t[1..], newlines) else t
    else if t[0] == '#' then Skip(DropLine(t), newlines)
    else t
  }

  lemma {:induction false} DropLineIs(c: string, t: string)
    requires '\n' !in c
    ensures DropLine(c + ("\n" + t)) == "\n" + t && DropLine(c) == ""
  {
    if c == "" {
      assert "" + ("\n" + t) == "\n" + t;
    } else {
      assert (c + ("\n" + t))[1..] == c[1..] + ("\n" + t);
      DropLineIs(c[1..], t);
    }
  }

  /** A comment is skipped, whatever is in it, to the end of its line or of the text. */
  lemma CommentSkipped(c: string, t: string, newlines: bool)
    requires '\n' !in c
    ensures Skip("#" + (c + ("\n" + t)), newlines) == Skip("\n" + t, newlines)
    ensures Skip("#" + c, newlines) == ""
  {
    var a, b := "#" + (c + ("\n" + t)), "#" + c;
    assert a[1..] == c + ("\n" + t) && b[1..] == c;
    DropLineIs(c, t);
    hide DropLine;
    assert DropLine(a) == "\n" + t && DropLine(b) == "" by { DropLineStep(a); DropLineStep(b); }
  }

  lemma DropLineStep(t: string)
    requires t != "" && t[0] != '\n'
    ensures DropLine(t) == DropLine(t[1..])
  {
  }

  /** Spaces, tabs and carriage returns are skipped; newlines where they may be; a comment starts
      at a hash; anything else is where the text goes on. */
  lemma SkipIs(c: char, t: string, newlines: bool)
    ensures Skip("", newlines) == ""
    ensures Skip([c] + t, newlines) ==
            if c == ' ' || c == '\t' || c == '\r' then Skip(t, newlines)
            else if c == '\n' then if newlines then Skip(t, true) else [c] + t
            else if c == '#' then Skip(DropLine([c] + t), newlines)
            else [c] + t
  {
    assert ([c] + t)[1..] == t;
  }

  predicate KeyChar(c: char, p: Readers) { p.alnum(c) || c == '_' || c == '-' }

  function KeySpan(t: string, p: Readers): (n: nat)
    ensures n <= |t|
  {
    if t != "" && KeyChar(t[0], p) then 1 + KeySpan(t[1..], p) else 0
  }

  function BareKey(t: string, p: Readers): (r: Res<string>)
    ensures r.Ok? ==> |r.rest| < |t|
  {
    var n := KeySpan(t, p);
    if n == 0 then Err(Refused) else Ok(t[..n], t[n..])
  }

  function KeyPath(t: string, p: Readers): (r: Res<seq<string>>)
    ensures r.Ok? ==> |r.rest| < |t| && |r.value| >= 1
    decreases |t|
  {
    match BareKey(t, p)
    case Err(e) => Err(e)
    case Ok(k, rest) =>
      if rest == "" || rest[0] != '.' then Ok([k], rest)
      else
        match KeyPath(rest[1..], p)
        case Err(e) => Err(e)
        case Ok(ks, after) => Ok([k] + ks, after)
  }

  // ---- strings ----

  function Escape(c: char): (r: Option<char>) {
    if c == 'n' then Some('\n') else if c == 't' then Some('\t') else if c == 'r' then Some('\r')
    else if c == '"' then Some('"') else if c == '\\' then Some('\\') else None
  }

  function DropSpace(t: string): (r: string)
    ensures |r| <= |t|
  {
    if t != "" && (Blank(t[0]) || t[0] == '\n') then DropSpace(t[1..]) else t
  }

  function Unescape(s: string): string
    decreases |s|
  {
    if s == "" then ""
    else if s[0] == '\\' && |s| > 1 && Escape(s[1]).Some? then [Escape(s[1]).value] + Unescape(s[2..])
    else if s[0] == '\\' && |s| > 1 && s[1] == '\n' then Unescape(DropSpace(s[2..]))
    else [s[0]] + Unescape(s[1..])
  }

  /** The escapes there are, and that any other backslash stands for itself. */
  lemma EscapesMean(t: string)
    ensures Unescape("\\n" + t) == "\n" + Unescape(t) && Unescape("\\t" + t) == "\t" + Unescape(t)
    ensures Unescape("\\r" + t) == "\r" + Unescape(t) && Unescape("\\\"" + t) == "\"" + Unescape(t)
    ensures Unescape("\\\\" + t) == "\\" + Unescape(t)
    ensures forall c :: c !in "ntr\"\\\n" ==> Unescape("\\" + ([c] + t)) == "\\" + Unescape([c] + t)
    ensures Unescape("\\") == "\\"
  {
    EscapeOf('n', t);
    EscapeOf('t', t);
    EscapeOf('r', t);
    EscapeOf('"', t);
    EscapeOf('\\', t);
    assert "\\n" + t == ['\\', 'n'] + t && "\\t" + t == ['\\', 't'] + t && "\\r" + t == ['\\', 'r'] + t;
    assert "\\\"" + t == ['\\', '"'] + t && "\\\\" + t == ['\\', '\\'] + t;
    forall c | c !in "ntr\"\\\n" ensures Unescape("\\" + ([c] + t)) == "\\" + Unescape([c] + t) {
      EscapeNone(c, t);
    }
    hide Unescape, Escape;
  }

  lemma EscapeNone(c: char, t: string)
    requires c !in "ntr\"\\\n"
    ensures Unescape("\\" + ([c] + t)) == "\\" + Unescape([c] + t)
  {
    var e := "ntr\"\\\n";
    assert e[0] != c && e[1] != c && e[2] != c && e[3] != c && e[4] != c && e[5] != c;
    var s := "\\" + ([c] + t);
    assert s[1..] == [c] + t && s[1] == c;
  }

  lemma EscapeOf(c: char, t: string)
    requires Escape(c).Some?
    ensures Unescape(['\\', c] + t) == [Escape(c).value] + Unescape(t)
  {
    assert (['\\', c] + t)[2..] == t;
  }

  /** A backslash at the end of a line takes the newline and the space after it away. */
  lemma ContinuationMeans(b: string, t: string)
    requires forall k :: 0 <= k < |b| ==> b[k] == ' ' || b[k] == '\t' || b[k] == '\r' || b[k] == '\n'
    requires t == "" || !(t[0] == ' ' || t[0] == '\t' || t[0] == '\r' || t[0] == '\n')
    ensures Unescape("\\\n" + (b + t)) == Unescape(t)
  {
    assert ("\\\n" + (b + t))[2..] == b + t;
    SpaceDropped(b, t);
  }

  lemma {:induction false} SpaceDropped(b: string, t: string)
    requires forall k :: 0 <= k < |b| ==> b[k] == ' ' || b[k] == '\t' || b[k] == '\r' || b[k] == '\n'
    requires t == "" || !(t[0] == ' ' || t[0] == '\t' || t[0] == '\r' || t[0] == '\n')
    ensures DropSpace(b + t) == t
  {
    if b == "" {
      assert "" + t == t;
    } else {
      assert (b + t)[1..] == b[1..] + t;
      SpaceDropped(b[1..], t);
    }
  }

  /** Where `lit` first comes in `t`. */
  function Find(t: string, lit: string): (i: Option<nat>)
    ensures i.Some? ==> i.value <= |t| && lit <= t[i.value..]
  {
    if lit <= t then Some(0)
    else if t == "" then None
    else
      match Find(t[1..], lit)
      case None => None
      case Some(i) => Some(i + 1)
  }

  /** Past three quotes: everything up to the next three, one leading newline trimmed. */
  function Multi(t: string, quotes: string): (r: Res<string>)
    requires |quotes| == 3
    ensures r.Ok? ==> |r.rest| < |t|
  {
    var body := if "\n" <= t then t[1..] else t;
    match Find(body, quotes)
    case None => Err(Refused)
    case Some(i) => Ok(body[..i], body[i..][3..])
  }

  lemma MultiIs(t: string, quotes: string)
    requires |quotes| == 3
    ensures var body := if "\n" <= t then t[1..] else t;
            var i := Find(body, quotes);
            && (i.None? ==> Multi(t, quotes) == Err(Refused))
            && (i.Some? ==> i.value + 3 <= |body| && Multi(t, quotes) == Ok(body[..i.value], body[i.value..][3..]))
  {
    hide Find;
  }

  /** Past one quote: the raw text up to the next, a backslash taking its next character
      with it between double quotes. */
  function Scan(t: string, quote: char): (r: Res<string>)
    ensures r.Ok? ==> |r.rest| < |t|
    decreases |t|
  {
    if t == "" then Err(Refused)
    else if t[0] == '\\' && quote == '"' then
      if |t| < 2 then Err(Refused)
      else
        match Scan(t[2..], quote)
        case Err(e) => Err(e)
        case Ok(raw, rest) => Ok(t[..2] + raw, rest)
    else if t[0] == quote then Ok("", t[1..])
    else if t[0] == '\n' then Err(Refused)
    else
      match Scan(t[1..], quote)
      case Err(e) => Err(e)
      case Ok(raw, rest) => Ok([t[0]] + raw, rest)
  }

  function Triple(quote: char): (q: string)
    ensures |q| == 3
  {
    [quote, quote, quote]
  }

  function Text(t: string): (r: Res<string>)
    requires t != "" && (t[0] == '"' || t[0] == '\'')
    ensures r.Ok? ==> |r.rest| < |t|
  {
    var read :=
      if Triple('"') <= t then Multi(t[3..], Triple('"'))
      else if Triple('\'') <= t then Multi(t[3..], Triple('\''))
      else Scan(t[1..], t[0]);
    match read
    case Err(e) => Err(e)
    case Ok(raw, rest) => Ok(if t[0] == '"' then Unescape(raw) else raw, rest)
  }

  // ---- values ----

  predicate EndsNumber(c: char) { c == ',' || c == ']' || c == '\n' || c == '#' }

  function NumberSpan(t: string): (n: nat)
    ensures n <= |t|
  {
    if t != "" && !EndsNumber(t[0]) then 1 + NumberSpan(t[1..]) else 0
  }

  function StripLeft(t: string, p: Readers): string {
    if t != "" && p.space(t[0]) then StripLeft(t[1..], p) else t
  }

  function StripRight(t: string, p: Readers): string {
    if t != "" && p.space(t[|t| - 1]) then StripRight(t[..|t| - 1], p) else t
  }

  function Strip(t: string, p: Readers): string { StripRight(StripLeft(t, p), p) }

  lemma NothingStripped(p: Readers)
    ensures Strip("", p) == ""
  {
  }

  function Number(t: string, p: Readers): (r: Res<Val>)
    ensures r.Ok? ==> |r.rest| < |t|
  {
    NothingStripped(p);
    var n := NumberSpan(t);
    var raw := Strip(t[..n], p);
    if raw == "" then Err(Refused)
    else if p.ints(raw).Some? then Ok(Int(p.ints(raw).value), t[n..])
    else if p.floats(raw) then Ok(Float(raw), t[n..])
    else Err(Refused)
  }

  /** Past an array's bracket. A comma is taken where there is one. */
  function Items(t: string, p: Readers): (r: Res<seq<Val>>)
    ensures r.Ok? ==> |r.rest| < |t|
    decreases |t|, 1
  {
    var at := Skip(t, true);
    if at == "" then Err(Refused)
    else if at[0] == ']' then Ok([], at[1..])
    else
      match Value(at, p)
      case Err(e) => Err(e)
      case Ok(v, rest) =>
        match Items(PastComma(Skip(rest, true)), p)
        case Err(e) => Err(e)
        case Ok(vs, after) => Ok([v] + vs, after)
  }

  function PastComma(t: string): (r: string)
    ensures |r| <= |t|
  {
    if t != "" && t[0] == ',' then t[1..] else t
  }

  function Value(t: string, p: Readers): (r: Res<Val>)
    ensures r.Ok? ==> |r.rest| < |t|
    decreases |t|, 0
  {
    var at := Skip(t, false);
    if at == "" then Err(Crashed)
    else if at[0] == '"' || at[0] == '\'' then
      match Text(at)
      case Err(e) => Err(e)
      case Ok(s, rest) => Ok(Str(s), rest)
    else if at[0] == '[' then
      match Items(at[1..], p)
      case Err(e) => Err(e)
      case Ok(vs, rest) => Ok(List(vs), rest)
    else if "true" <= at then Ok(Bool(true), at[4..])
    else if "false" <= at then Ok(Bool(false), at[5..])
    else Number(at, p)
  }

  // ---- nested tables ----

  /** The table a path leads to, through the last table of any list on the way. */
  function NodeAt(root: Val, path: seq<string>): Option<Val>
    decreases |path|
  {
    if path == [] then Some(root)
    else if !root.Table? || path[0] !in root.entries then None
    else
      var next := root.entries[path[0]];
      if !next.List? then NodeAt(next, path[1..])
      else if next.items == [] then None
      else NodeAt(next.items[|next.items| - 1], path[1..])
  }

  /** The same root with `v` where the path leads. */
  function WithNode(root: Val, path: seq<string>, v: Val): Val
    requires NodeAt(root, path).Some?
    decreases |path|
  {
    if path == [] then v
    else
      var next := root.entries[path[0]];
      if next.List? then
        var k := |next.items| - 1;
        Table(root.entries[path[0] := List(next.items[k := WithNode(next.items[k], path[1..], v)])])
      else Table(root.entries[path[0] := WithNode(next, path[1..], v)])
  }

  /** `_descend`: the root with every table on the path made; None where something on it is
      not a table. */
  function Descended(root: Val, path: seq<string>): (r: Option<Val>)
    ensures r.Some? ==> NodeAt(r.value, path).Some? && (r.value.List? ==> root.List?)
    decreases |path|
  {
    if path == [] then Some(root)
    else if !root.Table? then None
    else
      var next := if path[0] in root.entries then root.entries[path[0]] else Table(map[]);
      if !next.List? then
        match Descended(next, path[1..])
        case None => None
        case Some(n) => Some(Table(root.entries[path[0] := n]))
      else if next.items == [] then None
      else
        var k := |next.items| - 1;
        match Descended(next.items[k], path[1..])
        case None => None
        case Some(n) => Some(Table(root.entries[path[0] := List(next.items[k := n])]))
  }

  /** `cur[key] = v`; None where the path leads to no table. */
  function Assigned(root: Val, cur: seq<string>, key: string, v: Val): Option<Val>
    requires NodeAt(root, cur).Some?
  {
    var node := NodeAt(root, cur).value;
    if node.Table? then Some(WithNode(root, cur, Table(node.entries[key := v]))) else None
  }

  /** `[[path]]`: a new table at the end of the list there. */
  function Appended(root: Val, path: seq<string>): Option<Val>
    requires |path| >= 1
  {
    var k := path[|path| - 1];
    match Descended(root, path[..|path| - 1])
    case None => None
    case Some(r) =>
      var node := NodeAt(r, path[..|path| - 1]).value;
      if !node.Table? then None
      else
        var list := if k in node.entries then node.entries[k] else List([]);
        if !list.List? then None
        else Some(WithNode(r, path[..|path| - 1], Table(node.entries[k := List(list.items + [Table(map[])])])))
  }

  // ---- statements ----

  datatype Stmt = Header(path: seq<string>) | Element(path: seq<string>) | Pair(key: string, value: Val)

  /** One statement off the front of a text that starts with one. */
  function Statement(t: string, p: Readers): (r: Res<Stmt>)
    requires t != ""
    ensures r.Ok? ==> |r.rest| < |t|
    ensures r.Ok? && r.value.Element? ==> |r.value.path| >= 1
  {
    if "[[" <= t then
      match KeyPath(t[2..], p)
      case Err(e) => Err(e)
      case Ok(path, rest) => if "]]" <= rest then Ok(Element(path), rest[2..]) else Err(Refused)
    else if t[0] == '[' then
      match KeyPath(t[1..], p)
      case Err(e) => Err(e)
      case Ok(path, rest) => if "]" <= rest then Ok(Header(path), rest[1..]) else Err(Refused)
    else
      match BareKey(t, p)
      case Err(e) => Err(e)
      case Ok(key, rest) =>
        var eq := Skip(rest, false);
        if !("=" <= eq) then Err(Refused)
        else
          match Value(eq[1..], p)
          case Err(e) => Err(e)
          case Ok(v, after) => Ok(Pair(key, v), after)
  }

  /** The document so far, and the path of the table keys go into. */
  datatype Doc = Doc(root: Val, cur: seq<string>)

  /** What a statement does; None where it crashes. */
  function Apply(d: Doc, st: Stmt): Option<Doc>
    requires st.Element? ==> |st.path| >= 1
  {
    match st
    case Header(path) =>
      (match Descended(d.root, path)
       case None => None
       case Some(r) => Some(Doc(r, path)))
    case Element(path) =>
      (match Appended(d.root, path)
       case None => None
       case Some(r) => Some(Doc(r, path)))
    case Pair(key, v) =>
      if NodeAt(d.root, d.cur).None? then None
      else
        match Assigned(d.root, d.cur, key, v)
        case None => None
        case Some(r) => Some(Doc(r, d.cur))
  }

  function Parse(t: string, d: Doc, p: Readers): Res<Val>
    decreases |t|
  {
    var at := Skip(t, true);
    if at == "" then Ok(d.root, "")
    else
      match Statement(at, p)
      case Err(e) => Err(e)
      case Ok(st, rest) =>
        match Apply(d, st)
        case None => Err(Crashed)
        case Some(next) => Parse(rest, next, p)
  }

  /** `loads`. */
  function Loads(t: string, p: Readers): Res<Val> { Parse(t, Doc(Table(map[]), []), p) }

  // ---- the parser as it is: a cursor ----

  datatype Out<+T> = Good(value: T) | Bad(fault: Fault)

  lemma From(s: string, i: nat)
    requires i <= |s|
    ensures s[i..] == "" <==> i == |s|
    ensures i < |s| ==> s[i..][0] == s[i] && s[i..][1..] == s[i + 1..]
  {
  }

  lemma FromFrom(s: string, i: nat, j: nat)
    requires i + j <= |s|
    ensures s[i..][j..] == s[i + j..] && |s[i..]| == |s| - i
  {
  }

  /** Past the blanks and newlines a line continuation swallows. */
  method PastSpace(s: string, at: nat) returns (i: nat)
    requires at <= |s|
    ensures at <= i <= |s| && s[i..] == DropSpace(s[at..])
  {
    i := at;
    while i < |s| && (Blank(s[i]) || s[i] == '\n')
      invariant at <= i <= |s| && DropSpace(s[at..]) == DropSpace(s[i..])
    {
      From(s, i);
      i := i + 1;
    }
    From(s, i);
  }

  /** `_unescape`. */
  method UnescapeText(s: string) returns (out: string)
    ensures out == Unescape(s)
  {
    hide *;
    if '\\' !in s {
      PlainUnescaped(s);
      return s;
    }
    out := "";
    var i := 0;
    UnescapeEnds(s);
    while i < |s|
      invariant 0 <= i <= |s| && Unescape(s) == out + Unescape(s[i..])
    {
      UnescapeStep(s, i);
      if s[i] == '\\' && i + 1 < |s| {
        if Escape(s[i + 1]).Some? {
          out := out + [Escape(s[i + 1]).value];
          i := i + 2;
          continue;
        }
        if s[i + 1] == '\n' {
          i := PastSpace(s, i + 2);
          continue;
        }
      }
      out := out + [s[i]];
      i := i + 1;
    }
  }

  lemma UnescapeEnds(s: string)
    ensures Unescape(s) == "" + Unescape(s[0..]) && Unescape(s[|s|..]) == ""
  {
    assert s[0..] == s;
  }

  lemma {:induction false} PlainUnescaped(s: string)
    requires '\\' !in s
    ensures Unescape(s) == s
  {
    if s != "" {
      PlainUnescaped(s[1..]);
    }
  }

  lemma UnescapeStep(s: string, i: nat)
    requires i < |s|
    ensures var t := Unescape(s[i..]);
            if s[i] == '\\' && i + 1 < |s| && Escape(s[i + 1]).Some? then t == [Escape(s[i + 1]).value] + Unescape(s[i + 2..])
            else if s[i] == '\\' && i + 1 < |s| && s[i + 1] == '\n' then t == Unescape(DropSpace(s[i + 2..]))
            else t == [s[i]] + Unescape(s[i + 1..])
  {
    From(s, i);
    if i + 1 < |s| {
      FromFrom(s, i, 2);
      assert s[i..][1] == s[i + 1];
    }
  }

  /** A reader's answer is what its specification reads off the text from `i0`, with the
      cursor past it. */
  ghost predicate Answers<T>(s: string, i: nat, r: Res<T>, o: Out<T>) {
    match r
    case Err(e) => o == Bad(e)
    case Ok(v, rest) => o == Good(v) && i <= |s| && s[i..] == rest
  }

  lemma SkipStep(s: string, i: nat, newlines: bool)
    requires i < |s|
    ensures Skip(s[i..], newlines) ==
            if Blank(s[i]) then Skip(s[i + 1..], newlines)
            else if s[i] == '\n' then if newlines then Skip(s[i + 1..], newlines) else s[i..]
            else if s[i] == '#' then Skip(DropLine(s[i..]), newlines)
            else s[i..]
    ensures s[i] == '#' ==> |DropLine(s[i..])| < |s[i..]|
  {
    From(s, i);
  }

  class Parser {
    const s: string
    const p: Readers
    var i: nat

    constructor (text: string, p: Readers)
      ensures s == text && this.p == p && i == 0
    {
      this.s, this.p, i := text, p, 0;
    }

    /** `self.s.startswith(lit, self.i)`. */
    predicate Starts(lit: string)
      reads `i
    {
      i <= |s| && lit <= s[i..]
    }

    /** To the end of a comment's line. */
    method SkipLine()
      requires i <= |s|
      modifies `i
      ensures old(i) <= i <= |s| && s[i..] == DropLine(old(s[i..]))
    {
      while i < |s| && s[i] != '\n'
        invariant old(i) <= i <= |s| && DropLine(s[i..]) == DropLine(old(s[i..]))
      {
        From(s, i);
        i := i + 1;
      }
      From(s, i);
    }

    /** `_skip`. */
    method SkipBlank(newlines: bool)
      requires i <= |s|
      modifies `i
      ensures i <= |s| && s[i..] == Skip(old(s[i..]), newlines)
    {
      while i < |s|
        invariant i <= |s| && Skip(s[i..], newlines) == Skip(old(s[i..]), newlines)
        decreases |s| - i
      {
        SkipStep(s, i, newlines);
        hide Skip;
        var c := s[i];
        if Blank(c) {
          i := i + 1;
        } else if c == '\n' {
          if !newlines {
            return;
          }
          i := i + 1;
        } else if c == '#' {
          SkipLine();
        } else {
          return;
        }
      }
    }

    method Expect(lit: string) returns (o: Out<()>)
      requires i <= |s|
      modifies `i
      ensures if lit <= old(s[i..]) then o == Good(()) && i == old(i) + |lit| && i <= |s| && s[i..] == old(s[i..])[|lit|..]
              else o == Bad(Refused)
    {
      if !Starts(lit) {
        return Bad(Refused);
      }
      FromFrom(s, i, |lit|);
      i := i + |lit|;
      return Good(());
    }

    method ReadBareKey() returns (o: Out<string>)
      requires i <= |s|
      modifies `i
      ensures Answers(s, i, BareKey(old(s[i..]), p), o)
    {
      var start := i;
      ghost var t := s[start..];
      while i < |s| && KeyChar(s[i], p)
        invariant start <= i <= |s| && KeySpan(t, p) == i - start + KeySpan(s[i..], p)
      {
        From(s, i);
        i := i + 1;
      }
      From(s, i);
      if i == start {
        return Bad(Refused);
      }
      FromFrom(s, start, i - start);
      assert t[..i - start] == s[start..i];
      return Good(s[start..i]);
    }

    method ReadKeyPath() returns (o: Out<seq<string>>)
      requires i <= |s|
      modifies `i
      ensures Answers(s, i, KeyPath(old(s[i..]), p), o)
    {
      hide KeyPath, PathOn, BareKey;
      ghost var t := s[i..];
      PathStarts(t, p);
      var first := ReadBareKey();
      if first.Bad? {
        return Bad(first.fault);
      }
      var path := [first.value];
      while i < |s| && s[i] == '.'
        invariant i <= |s|
        invariant KeyPath(t, p) == PathOn(path, s[i..], p)
        decreases |s| - i
      {
        PathOnStep(path, s[i..], p);
        From(s, i);
        i := i + 1;
        var key := ReadBareKey();
        if key.Bad? {
          return Bad(key.fault);
        }
        path := path + [key.value];
      }
      From(s, i);
      PathEnds(path, s[i..], p);
      return Good(path);
    }

    /** A multi-line string, past its opening quotes. */
    method ReadMulti(quotes: string) returns (o: Out<string>)
      requires i <= |s| && |quotes| == 3
      modifies `i
      ensures Answers(s, i, Multi(old(s[i..]), quotes), o)
    {
      hide Multi, Find;
      From(s, i);
      MultiIs(s[i..], quotes);
      if Starts("\n") {
        i := i + 1;
      }
      var end := Find(s[i..], quotes);
      if end.None? {
        return Bad(Refused);
      }
      FromFrom(s, i, end.value);
      FromFrom(s, i + end.value, 3);
      o := Good(s[i..][..end.value]);
      i := i + end.value + 3;
    }

    /** A single-line string, past its opening quote. */
    method ReadScan(quote: char) returns (o: Out<string>)
      requires i <= |s|
      modifies `i
      ensures Answers(s, i, Scan(old(s[i..]), quote), o)
    {
      ghost var t := s[i..];
      var buf := "";
      NothingScanned(Scan(t, quote));
      while i < |s|
        invariant i <= |s| + 1
        invariant Scan(t, quote) == if i > |s| then Err(Refused) else ScanOn(buf, Scan(s[i..], quote))
      {
        ScanStep(s, i, quote, buf);
        hide Scan, ScanOn;
        var c := s[i];
        if c == '\\' && quote == '"' {
          buf := buf + s[i..if i + 2 <= |s| then i + 2 else |s|];
          i := i + 2;
          continue;
        }
        if c == quote {
          i := i + 1;
          return Good(buf);
        }
        if c == '\n' {
          return Bad(Refused);
        }
        buf := buf + [c];
        i := i + 1;
      }
      return Bad(Refused);
    }

    /** `_string`. */
    method ReadString() returns (o: Out<string>)
      requires i < |s| && (s[i] == '"' || s[i] == '\'')
      modifies `i
      ensures Answers(s, i, Text(old(s[i..])), o)
    {
      From(s, i);
      hide Multi, Scan, Unescape;
      var quote := s[i];
      var raw: Out<string>;
      if Starts(Triple('"')) {
        FromFrom(s, i, 3);
        i := i + 3;
        raw := ReadMulti(Triple('"'));
      } else if Starts(Triple('\'')) {
        FromFrom(s, i, 3);
        i := i + 3;
        raw := ReadMulti(Triple('\''));
      } else {
        i := i + 1;
        raw := ReadScan(quote);
      }
      if raw.Bad? || quote != '"' {
        return raw;
      }
      var out := UnescapeText(raw.value);
      return Good(out);
    }

    /** The text up to what ends a number. */
    method ReadRaw() returns (raw: string)
      requires i <= |s|
      modifies `i
      ensures i <= |s| && var t := old(s[i..]); raw == t[..NumberSpan(t)] && s[i..] == t[NumberSpan(t)..]
    {
      var start := i;
      ghost var t := s[start..];
      while i < |s| && !EndsNumber(s[i])
        invariant start <= i <= |s| && NumberSpan(t) == i - start + NumberSpan(s[i..])
      {
        From(s, i);
        i := i + 1;
      }
      From(s, i);
      FromFrom(s, start, i - start);
      assert t[..i - start] == s[start..i];
      raw := s[start..i];
    }

    /** A number, or the error any other text is. */
    method ReadNumber() returns (o: Out<Val>)
      requires i <= |s|
      modifies `i
      ensures Answers(s, i, Number(old(s[i..]), p), o)
    {
      hide Strip, NumberSpan;
      var raw := ReadRaw();
      raw := Strip(raw, p);
      if raw == "" {
        return Bad(Refused);
      }
      if p.ints(raw).Some? {
        return Good(Int(p.ints(raw).value));
      }
      if p.floats(raw) {
        return Good(Float(raw));
      }
      return Bad(Refused);
    }

    method PastSeparator()
      requires i <= |s|
      modifies `i
      ensures i <= |s| && s[i..] == PastComma(Skip(old(s[i..]), true))
    {
      SkipBlank(true);
      From(s, i);
      if i < |s| && s[i] == ',' {
        i := i + 1;
      }
    }

    /** `_array`, past its bracket. Every turn of the loop moves the cursor on. */
    method ReadItems() returns (o: Out<seq<Val>>)
      requires i <= |s|
      modifies `i
      ensures Answers(s, i, Items(old(s[i..]), p), o)
      decreases |s| - i, 1
    {
      ghost var t := s[i..];
      var out: seq<Val> := [];
      NothingRead(Items(t, p));
      while true
        invariant old(i) <= i <= |s| && Items(t, p) == ItemsOn(out, Items(s[i..], p))
        decreases |s| - i
      {
        ItemsStep(s[i..], out, p);
        hide Items, ItemsOn, Value, Skip;
        ghost var at := i;
        SkipBlank(true);
        From(s, i);
        if i >= |s| {
          return Bad(Refused);
        }
        if s[i] == ']' {
          i := i + 1;
          return Good(out);
        }
        var v := ReadValue();
        if v.Bad? {
          return Bad(v.fault);
        }
        out := out + [v.value];
        PastSeparator();
      }
    }

    /** `_value`. */
    method ReadValue() returns (o: Out<Val>)
      requires i <= |s|
      modifies `i
      ensures Answers(s, i, Value(old(s[i..]), p), o)
      decreases |s| - i, 0
    {
      hide Value, Items, Text, Number, Skip;
      ghost var t := s[i..];
      ValueStep(t, p);
      SkipBlank(false);
      From(s, i);
      if i >= |s| {
        return Bad(Crashed);
      }
      var c := s[i];
      if c == '"' || c == '\'' {
        var text := ReadString();
        return if text.Bad? then Bad(text.fault) else Good(Str(text.value));
      }
      if c == '[' {
        i := i + 1;
        var vs := ReadItems();
        return if vs.Bad? then Bad(vs.fault) else Good(List(vs.value));
      }
      if Starts("true") {
        FromFrom(s, i, 4);
        i := i + 4;
        return Good(Bool(true));
      }
      if Starts("false") {
        FromFrom(s, i, 5);
        i := i + 5;
        return Good(Bool(false));
      }
      o := ReadNumber();
    }

    /** One statement: a header, an element's header, or a key and its value. */
    method ReadStatement() returns (o: Out<Stmt>)
      requires i < |s|
      modifies `i
      ensures Answers(s, i, Statement(old(s[i..]), p), o)
    {
      ghost var t := s[i..];
      From(s, i);
      hide KeyPath, BareKey, Value, Skip;
      if Starts("[[") {
        FromFrom(s, i, 2);
        i := i + 2;
        var path := ReadKeyPath();
        if path.Bad? {
          return Bad(path.fault);
        }
        var close := Expect("]]");
        return if close.Bad? then Bad(close.fault) else Good(Element(path.value));
      } else if s[i] == '[' {
        i := i + 1;
        var path := ReadKeyPath();
        if path.Bad? {
          return Bad(path.fault);
        }
        var close := Expect("]");
        return if close.Bad? then Bad(close.fault) else Good(Header(path.value));
      } else {
        var key := ReadBareKey();
        if key.Bad? {
          return Bad(key.fault);
        }
        SkipBlank(false);
        var eq := Expect("=");
        if eq.Bad? {
          return Bad(eq.fault);
        }
        var v := ReadValue();
        return if v.Bad? then Bad(v.fault) else Good(Pair(key.value, v.value));
      }
    }

    /** `parse`: terminates on every text, each turn of the loop past one statement. */
    method ReadDocument() returns (o: Out<Val>)
      requires i == 0
      modifies `i
      ensures Answers(s, i, Loads(s, p), o)
    {
      var doc := Doc(Table(map[]), []);
      assert s[0..] == s;
      while true
        invariant i <= |s| && Loads(s, p) == Parse(s[i..], doc, p)
        decreases |s| - i
      {
        ghost var t := s[i..];
        ParseStep(t, doc, p);
        hide Parse, Statement, Apply, Skip, Loads;
        SkipBlank(true);
        From(s, i);
        if i >= |s| {
          return Good(doc.root);
        }
        var st := ReadStatement();
        if st.Bad? {
          return Bad(st.fault);
        }
        var next := Apply(doc, st.value);
        if next.None? {
          return Bad(Crashed);
        }
        doc := next.value;
      }
    }
  }

  /** A path read so far, and the rest of it. */
  function PathOn(path: seq<string>, t: string, p: Readers): Res<seq<string>> {
    if t == "" || t[0] != '.' then Ok(path, t)
    else
      match KeyPath(t[1..], p)
      case Err(e) => Err(e)
      case Ok(ks, after) => Ok(path + ks, after)
  }

  lemma PathStarts(t: string, p: Readers)
    ensures KeyPath(t, p) == match BareKey(t, p)
                             case Err(e) => Err(e)
                             case Ok(k, rest) => PathOn([k], rest, p)
  {
    hide BareKey;
  }

  lemma PathEnds(path: seq<string>, t: string, p: Readers)
    requires t == "" || t[0] != '.'
    ensures PathOn(path, t, p) == Ok(path, t)
  {
  }

  lemma PathOnStep(path: seq<string>, t: string, p: Readers)
    requires t != "" && t[0] == '.'
    ensures PathOn(path, t, p) == match BareKey(t[1..], p)
                                  case Err(e) => Err(e)
                                  case Ok(k, rest) => PathOn(path + [k], rest, p)
  {
    hide BareKey;
    match BareKey(t[1..], p)
    case Err(_) =>
    case Ok(k, rest) =>
      if rest != "" && rest[0] == '.' && KeyPath(rest[1..], p).Ok? {
        assert path + ([k] + KeyPath(rest[1..], p).value) == path + [k] + KeyPath(rest[1..], p).value;
      }
  }

  /** Raw text read so far, and the rest of it. */
  function ScanOn(raw: string, r: Res<string>): Res<string> {
    match r
    case Err(e) => Err(e)
    case Ok(more, rest) => Ok(raw + more, rest)
  }

  lemma NothingScanned(r: Res<string>)
    ensures ScanOn("", r) == r
  {
    assert r.Ok? ==> "" + r.value == r.value;
  }

  lemma NothingRead(r: Res<seq<Val>>)
    ensures ItemsOn([], r) == r
  {
    assert r.Ok? ==> [] + r.value == r.value;
  }

  lemma ScanStep(s: string, i: nat, quote: char, raw: string)
    requires i < |s|
    ensures ScanOn(raw, Scan(s[i..], quote)) ==
            if s[i] == '\\' && quote == '"' then
              if i + 2 > |s| then Err(Refused) else ScanOn(raw + s[i..i + 2], Scan(s[i + 2..], quote))
            else if s[i] == quote then Ok(raw, s[i + 1..])
            else if s[i] == '\n' then Err(Refused)
            else ScanOn(raw + [s[i]], Scan(s[i + 1..], quote))
  {
    From(s, i);
    assert raw + "" == raw;
    if i + 2 <= |s| {
      FromFrom(s, i, 2);
      assert s[i..][..2] == s[i..i + 2];
      if Scan(s[i + 2..], quote).Ok? {
        assert raw + (s[i..i + 2] + Scan(s[i + 2..], quote).value) == raw + s[i..i + 2] + Scan(s[i + 2..], quote).value;
      }
    }
    if Scan(s[i + 1..], quote).Ok? {
      assert raw + ([s[i]] + Scan(s[i + 1..], quote).value) == raw + [s[i]] + Scan(s[i + 1..], quote).value;
    }
  }

  /** Values read so far, and the rest of them. */
  function ItemsOn(out: seq<Val>, r: Res<seq<Val>>): Res<seq<Val>> {
    match r
    case Err(e) => Err(e)
    case Ok(more, rest) => Ok(out + more, rest)
  }

  lemma ItemsStep(t: string, out: seq<Val>, p: Readers)
    ensures var at := Skip(t, true);
            ItemsOn(out, Items(t, p)) ==
            if at == "" then Err(Refused)
            else if at[0] == ']' then Ok(out, at[1..])
            else
              var v := Value(at, p);
              if v.Err? then Err(v.fault)
              else ItemsOn(out + [v.value], Items(PastComma(Skip(v.rest, true)), p))
  {
    hide Skip, Value;
    var at := Skip(t, true);
    if at != "" && at[0] != ']' && Value(at, p).Ok? {
      var more := Items(PastComma(Skip(Value(at, p).rest, true)), p);
      if more.Ok? {
        assert out + ([Value(at, p).value] + more.value) == out + [Value(at, p).value] + more.value;
      }
    }
    assert out + [] == out;
  }

  lemma ValueStep(t: string, p: Readers)
    ensures var at := Skip(t, false);
            Value(t, p) ==
            if at == "" then Err(Crashed)
            else if at[0] == '"' || at[0] == '\'' then
              var text := Text(at);
              if text.Err? then Err(text.fault) else Ok(Str(text.value), text.rest)
            else if at[0] == '[' then
              var vs := Items(at[1..], p);
              if vs.Err? then Err(vs.fault) else Ok(List(vs.value), vs.rest)
            else if "true" <= at then Ok(Bool(true), at[4..])
            else if "false" <= at then Ok(Bool(false), at[5..])
            else Number(at, p)
  {
    hide Skip, Text, Number;
  }

  lemma ParseStep(t: string, d: Doc, p: Readers)
    ensures var at := Skip(t, true);
            Parse(t, d, p) ==
            if at == "" then Ok(d.root, "")
            else
              var st := Statement(at, p);
              if st.Err? then Err(st.fault)
              else
                var next := Apply(d, st.value);
                if next.None? then Err(Crashed) else Parse(st.rest, next.value, p)
  {
    hide Skip, Statement, Apply;
  }
}
