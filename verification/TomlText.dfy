/** A document written out, with any comments and whitespace, and read back
    (tools/board_config.py:71-257): the renderer the repository has no use for. Strings come
    in all four forms, with their line breaks raw or escaped where a form allows either;
    numbers, booleans and nested arrays as the reader takes them; headers, keys and values with
    blanks and comments wherever they may stand. Each part reads back and leaves the rest. */
module TomlText {
  import opened Options
  import opened Decimals
  import opened Sequences
  import opened Toml

  // ---- strings ----

  /** One character as an escape, where it needs one; a newline may be left raw. */
  function Esc(c: char, raw: bool): string {
    if c == '\n' then if raw then "\n" else "\\n"
    else if c == '\t' then "\\t"
    else if c == '\r' then "\\r"
    else if c == '"' then "\\\""
    else if c == '\\' then "\\\\"
    else [c]
  }

  lemma EscShape(c: char, raw: bool)
    ensures var e := Esc(c, raw);
            || (|e| == 1 && e == [c] && c != '"' && c != '\\' && (c == '\n' ==> raw))
            || (|e| == 2 && e == ['\\', e[1]] && Escape(e[1]) == Some(c) && (e[1] == '"' <==> c == '"'))
  {
  }

  function EscAll(x: string, raw: bool): string {
    if x == "" then "" else Esc(x[0], raw) + EscAll(x[1..], raw)
  }

  lemma UnescapeOne(c: char, raw: bool, t: string)
    ensures Unescape(Esc(c, raw) + t) == [c] + Unescape(t)
  {
    EscShape(c, raw);
    hide Esc;
    var s := Esc(c, raw) + t;
    if |Esc(c, raw)| == 2 {
      assert s[2..] == t && s[0] == '\\' && s[1] == Esc(c, raw)[1];
    } else {
      assert s[1..] == t && s[0] == c;
    }
  }

  /** Unescaping undoes escaping. */
  lemma {:induction false} UnescapeUndoes(x: string, raw: bool)
    ensures Unescape(EscAll(x, raw)) == x
  {
    if x != "" {
      UnescapeOne(x[0], raw, EscAll(x[1..], raw));
      UnescapeUndoes(x[1..], raw);
    }
  }

  /** A single-line scan takes an escaped text whole. */
  lemma {:induction false} ScanEscaped(x: string, rest: string)
    ensures Scan(EscAll(x, false) + ("\"" + rest), '"') == Ok(EscAll(x, false), rest)
  {
    if x == "" {
      assert "" + ("\"" + rest) == "\"" + rest;
      assert ("\"" + rest)[1..] == rest;
    } else {
      var e, more := Esc(x[0], false), EscAll(x[1..], false) + ("\"" + rest);
      ScanEscaped(x[1..], rest);
      assert EscAll(x, false) + ("\"" + rest) == e + more;
      ScanPiece(e, more, x[0]);
    }
  }

  lemma ScanPiece(e: string, more: string, c: char)
    requires e == Esc(c, false) && Scan(more, '"').Ok?
    ensures Scan(e + more, '"') == Ok(e + Scan(more, '"').value, Scan(more, '"').rest)
  {
    EscShape(c, false);
    hide Esc;
    if |e| == 2 {
      assert (e + more)[2..] == more && (e + more)[..2] == e;
    } else {
      assert (e + more)[1..] == more;
    }
  }

  lemma {:induction false} ScanLiteral(x: string, rest: string)
    requires '\'' !in x && '\n' !in x
    ensures Scan(x + ("'" + rest), '\'') == Ok(x, rest)
  {
    if x == "" {
      assert "" + ("'" + rest) == "'" + rest;
      assert ("'" + rest)[1..] == rest;
    } else {
      ScanLiteral(x[1..], rest);
      assert (x + ("'" + rest))[1..] == x[1..] + ("'" + rest);
      assert [x[0]] + x[1..] == x;
    }
  }

  predicate EndsWith(x: string, c: char) { x != "" && x[|x| - 1] == c }

  /** A character that does not begin what is sought is passed over. */
  lemma FindOne(c: char, t: string)
    requires c == '"' ==> !(Triple('"') <= [c] + t)
    requires Find(t, Triple('"')).Some?
    ensures Find([c] + t, Triple('"')) == Some(1 + Find(t, Triple('"')).value)
  {
    assert ([c] + t)[1..] == t && ([c] + t)[0] == c;
    if c != '"' {
      NotPrefix(Triple('"'), [c] + t, 0);
    }
  }

  lemma NotPrefix(a: string, t: string, k: nat)
    requires k < |a| && k < |t| && a[k] != t[k]
    ensures !(a <= t)
  {
  }

  /** An escape is passed over whole, unless its second character begins what is sought. */
  lemma FindPast(e: string, more: string, c: char, raw: bool)
    requires e == Esc(c, raw) && Find(more, Triple('"')).Some?
    requires c == '"' ==> !(Triple('"') <= ['"'] + more)
    ensures Find(e + more, Triple('"')) == Some(|e| + Find(more, Triple('"')).value)
  {
    hide Find, Esc, Escape;
    EscShape(c, raw);
    if |e| == 2 {
      TwoThen(e, more);
      FindOne(e[1], more);
      FindOne(e[0], [e[1]] + more);
    } else {
      FindOne(e[0], more);
      assert e == [e[0]];
    }
  }

  lemma TwoThen(e: string, more: string)
    requires |e| == 2
    ensures e + more == [e[0]] + ([e[1]] + more)
  {
  }

  lemma FindHere(t: string)
    requires Triple('"') <= t
    ensures Find(t, Triple('"')) == Some(0)
  {
  }

  /** A last quote, escaped, is taken for the first of three. */
  lemma FindEarly(e: string, rest: string)
    requires e == "\\\""
    ensures Find(e + (Triple('"') + rest), Triple('"')) == Some(1)
  {
    hide Find;
    FindHere(Triple('"') + (['"'] + rest));
    FindOne('\\', Triple('"') + (['"'] + rest));
    assert e + (Triple('"') + rest) == ['\\'] + (Triple('"') + (['"'] + rest));
  }

  /** Three quotes come first at an escaped text's own end, but for one that ends in an
      escaped quote: there they come one character early. */
  lemma {:induction false} FindClosing(x: string, raw: bool, rest: string)
    ensures Find(EscAll(x, raw) + (Triple('"') + rest), Triple('"'))
            == Some(|EscAll(x, raw)| - if EndsWith(x, '"') then 1 else 0)
  {
    hide *;
    var close := Triple('"') + rest;
    EscUnfold(x, raw, close);
    if x == "" {
      FindHere(close);
    } else {
      var y, e := x[1..], Esc(x[0], raw);
      FindClosing(y, raw, rest);
      EscUnfold(y, raw, close);
      if y == "" && x[0] == '"' {
        FindEarly(e, rest);
      } else {
        if y != "" {
          NotQuote(y, raw, close);
          SecondOff(EscAll(y, raw) + close);
        }
        FindPast(e, EscAll(y, raw) + close, x[0], raw);
      }
    }
  }

  lemma EscUnfold(x: string, raw: bool, t: string)
    ensures x == "" ==> EscAll(x, raw) == "" && EscAll(x, raw) + t == t && !EndsWith(x, '"')
    ensures x != "" ==> EscAll(x, raw) == Esc(x[0], raw) + EscAll(x[1..], raw)
                        && EscAll(x, raw) + t == Esc(x[0], raw) + (EscAll(x[1..], raw) + t)
                        && (x[0] == '"' ==> Esc(x[0], raw) == "\\\"")
    ensures x != "" ==> EndsWith(x, '"') == if x[1..] == "" then x[0] == '"' else EndsWith(x[1..], '"')
  {
    if x == "" {
      assert "" + t == t;
    } else {
      Regroup(Esc(x[0], raw), EscAll(x[1..], raw), t);
      hide EscAll;
    }
  }

  lemma SecondOff(more: string)
    requires more != "" && more[0] != '"'
    ensures !(Triple('"') <= ['"'] + more)
  {
    NotPrefix(Triple('"'), ['"'] + more, 1);
  }

  lemma NotQuote(x: string, raw: bool, t: string)
    requires x != ""
    ensures EscAll(x, raw) + t != "" && (EscAll(x, raw) + t)[0] != '"'
  {
  }

  datatype Form = Basic | Literal | MultiBasic(raw: bool) | MultiLiteral

  /** A string written in one of the four forms. The multi-line ones start on a new line. */
  function Quoted(form: Form, x: string): string {
    match form
    case Basic => "\"" + (EscAll(x, false) + "\"")
    case Literal => "'" + (x + "'")
    case MultiBasic(raw) => "\"\"\"" + ("\n" + (EscAll(x, raw) + "\"\"\""))
    case MultiLiteral => "'''" + ("\n" + (x + "'''"))
  }

  /** Which strings a form can hold. */
  predicate Holds(form: Form, x: string) {
    match form
    case Basic => true
    case Literal => '\'' !in x && '\n' !in x
    case MultiBasic(_) => !EndsWith(x, '"')
    case MultiLiteral => !EndsWith(x, '\'') && forall k :: 0 <= k < |x| ==> !ThreeAt(x, k)
  }

  predicate ThreeAt(x: string, k: int) { 0 <= k < |x| - 2 && x[k] == x[k + 1] == x[k + 2] == '\'' }

  /** Then the closing three are the first. */
  lemma {:induction false} ClosesFirst(x: string)
    requires Holds(MultiLiteral, x)
    ensures Find(x + "'''", "'''") == Some(|x|)
  {
    hide Find;
    FindUnfold(x + "'''", "'''");
    if x != "" {
      NoneHere(x);
      TailOf(x, "'''");
      forall k | 0 <= k < |x[1..]| ensures !ThreeAt(x[1..], k) {
        assert !ThreeAt(x, k + 1);
      }
      ClosesFirst(x[1..]);
    }
  }

  lemma NoneHere(x: string)
    requires x != "" && !EndsWith(x, '\'') && !ThreeAt(x, 0)
    ensures !("'''" <= x + "'''")
  {
    var k := if |x| < 3 then |x| - 1 else if x[0] != '\'' then 0 else if x[1] != '\'' then 1 else 2;
    NotPrefix("'''", x + "'''", k);
  }

  lemma {:induction false} FindMore(t: string, lit: string, rest: string)
    requires lit != "" && Find(t, lit).Some?
    ensures Find(t + rest, lit) == Find(t, lit)
  {
    hide Find;
    FitsIn(t, lit);
    PrefixMore(t, lit, rest);
    FindUnfold(t, lit);
    FindUnfold(t + rest, lit);
    if !(lit <= t) {
      TailOf(t, rest);
      FindMore(t[1..], lit, rest);
    }
  }

  lemma TailOf(t: string, rest: string)
    requires t != ""
    ensures (t + rest)[1..] == t[1..] + rest
  {
  }

  lemma FindUnfold(t: string, lit: string)
    requires lit != ""
    ensures lit <= t ==> Find(t, lit) == Some(0)
    ensures !(lit <= t) && t != "" && Find(t[1..], lit).Some? ==> Find(t, lit) == Some(1 + Find(t[1..], lit).value)
    ensures !(lit <= t) && (t == "" || Find(t[1..], lit).None?) ==> Find(t, lit) == None
  {
  }

  lemma PrefixMore(t: string, lit: string, rest: string)
    requires |lit| <= |t|
    ensures lit <= t + rest <==> lit <= t
  {
    assert (t + rest)[..|lit|] == t[..|lit|];
  }

  lemma {:induction false} FitsIn(t: string, lit: string)
    requires Find(t, lit).Some?
    ensures |lit| <= |t|
  {
    if !(lit <= t) {
      FitsIn(t[1..], lit);
    }
  }

  /** What may follow a value. */
  predicate Delim(rest: string) {
    rest == "" || (rest[0] != '"' && rest[0] != '\'')
  }

  lemma BasicReads(x: string, rest: string)
    requires Delim(rest)
    ensures Text(Quoted(Basic, x) + rest) == Ok(x, rest)
  {
    var e := EscAll(x, false);
    var t := Quoted(Basic, x) + rest;
    assert t == "\"" + (e + ("\"" + rest));
    assert t[1..] == e + ("\"" + rest);
    if x == "" {
      assert t == "\"\"" + rest;
    } else {
      NotQuote(x, false, "\"" + rest);
      assert t[1] == (e + ("\"" + rest))[0];
    }
    ScanEscaped(x, rest);
    UnescapeUndoes(x, false);
    hide Scan, Unescape, EscAll;
  }

  lemma LiteralReads(x: string, rest: string)
    requires Delim(rest) && Holds(Literal, x)
    ensures Text(Quoted(Literal, x) + rest) == Ok(x, rest)
  {
    var t := Quoted(Literal, x) + rest;
    assert t == "'" + (x + ("'" + rest));
    assert t[1..] == x + ("'" + rest);
    if x == "" {
      assert t == "''" + rest;
    } else {
      assert t[1] == x[0];
    }
    ScanLiteral(x, rest);
    hide Scan;
  }

  lemma MultiBody(q: char, body: string, rest: string)
    requires q == '"' || q == '\''
    ensures var t := (Triple(q) + ("\n" + (body + Triple(q)))) + rest;
            && t[0] == q && Triple(q) <= t && t[3..] == "\n" + (body + (Triple(q) + rest))
            && t[3..][1..] == body + (Triple(q) + rest)
  {
    var t := (Triple(q) + ("\n" + (body + Triple(q)))) + rest;
    assert t == Triple(q) + ("\n" + (body + (Triple(q) + rest)));
    assert t[3..] == "\n" + (body + (Triple(q) + rest));
  }

  lemma Quotes()
    ensures Triple('"') == "\"\"\"" && Triple('\'') == "'''"
  {
  }

  lemma Unwrapped(body: string, q: string, rest: string)
    requires |q| == 3
    ensures var t := body + (q + rest); t[..|body|] == body && t[|body|..][3..] == rest
  {
    var t := body + (q + rest);
    assert t[|body|..] == q + rest;
  }

  /** A multi-line string reads back if and only if it does not end in a quote: the scan for
      the closing three does not see that a quote before them is escaped. */
  lemma MultiBasicReadsExactly(x: string, raw: bool, rest: string)
    ensures Text(Quoted(MultiBasic(raw), x) + rest) == Ok(x, rest) <==> !EndsWith(x, '"')
  {
    var e := EscAll(x, raw);
    var t := Quoted(MultiBasic(raw), x) + rest;
    Quotes();
    MultiBody('"', e, rest);
    FindClosing(x, raw, rest);
    UnescapeUndoes(x, raw);
    Unwrapped(e, Triple('"'), rest);
    hide Unescape, EscAll, Find;
    if EndsWith(x, '"') {
      assert Text(t).Ok? ==> |Text(t).rest| == |rest| + 1;
    }
  }

  /** A lone quote, escaped on a line of its own, is one that does not. */
  lemma QuoteAtTheEnd()
    ensures Text(Quoted(MultiBasic(false), "\"")) != Ok("\"", "")
  {
    MultiBasicReadsExactly("\"", false, "");
    assert Quoted(MultiBasic(false), "\"") + "" == Quoted(MultiBasic(false), "\"");
    hide *;
  }

  lemma MultiLiteralReads(x: string, rest: string)
    requires Holds(MultiLiteral, x)
    ensures Text(Quoted(MultiLiteral, x) + rest) == Ok(x, rest)
  {
    hide Find, Unescape;
    ClosesFirst(x);
    Quotes();
    MultiBody('\'', x, rest);
    FindMore(x + Triple('\''), Triple('\''), rest);
    Regroup(x, Triple('\''), rest);
    Unwrapped(x, Triple('\''), rest);
  }

  lemma Regroup(a: string, b: string, c: string)
    ensures (a + b) + c == a + (b + c)
  {
  }

  /** Scanning a string and unescaping it together undo quoting and escaping it. */
  lemma StringReads(form: Form, x: string, rest: string)
    requires Holds(form, x) && Delim(rest)
    ensures Text(Quoted(form, x) + rest) == Ok(x, rest)
  {
    hide Text, Quoted;
    match form
    case Basic => BasicReads(x, rest);
    case Literal => LiteralReads(x, rest);
    case MultiBasic(raw) => MultiBasicReadsExactly(x, raw, rest);
    case MultiLiteral => MultiLiteralReads(x, rest);
  }

  // ---- whitespace and comments ----

  /** Spaces, tabs, carriage returns and newlines, and comments: a hash, anything on its line, and
      the newline. */
  predicate Gap(g: string)
    decreases |g|
  {
    if g == "" then true
    else if g[0] == ' ' || g[0] == '\t' || g[0] == '\r' || g[0] == '\n' then Gap(g[1..])
    else g[0] == '#' && '\n' in g && Gap(g[First(g, '\n') + 1..])
  }

  predicate Blanks(g: string) {
    forall k :: 0 <= k < |g| ==> g[k] == ' ' || g[k] == '\t' || g[k] == '\r'
  }

  /** A text that starts with none of what is skipped. */
  predicate Solid(t: string) {
    t == "" || !(t[0] == ' ' || t[0] == '\t' || t[0] == '\r' || t[0] == '\n' || t[0] == '#')
  }

  lemma {:induction false} SkipGap(g: string, t: string)
    requires Gap(g)
    ensures Skip(g + t, true) == Skip(t, true)
    decreases |g|
  {
    if g == "" {
      assert "" + t == t;
    } else if g[0] == '#' {
      var k := First(g, '\n');
      CommentThen(g, t, k);
      CommentSkipped(g[1..k], g[k + 1..] + t, true);
      SkipIs('\n', g[k + 1..] + t, true);
      SkipGap(g[k + 1..], t);
    } else {
      assert g + t == [g[0]] + (g[1..] + t);
      SkipIs(g[0], g[1..] + t, true);
      SkipGap(g[1..], t);
    }
  }

  lemma CommentThen(g: string, t: string, k: nat)
    requires 0 < k < |g| && g[0] == '#' && g[k] == '\n' && '\n' !in g[..k]
    ensures g + t == "#" + (g[1..k] + ("\n" + (g[k + 1..] + t))) && '\n' !in g[1..k]
    ensures ['\n'] + (g[k + 1..] + t) == "\n" + (g[k + 1..] + t)
  {
    assert g == "#" + (g[1..k] + ("\n" + g[k + 1..]));
    assert g[1..k] == g[..k][1..];
  }

  lemma {:induction false} SkipBlanks(g: string, t: string)
    requires Blanks(g)
    ensures Skip(g + t, false) == Skip(t, false)
  {
    if g == "" {
      assert "" + t == t;
    } else {
      assert (g + t)[1..] == g[1..] + t;
      SkipBlanks(g[1..], t);
    }
  }

  lemma SkipSolid(t: string, newlines: bool)
    requires Solid(t)
    ensures Skip(t, newlines) == t
  {
  }

  // ---- numbers ----

  /** What may follow a number: blanks, then the end or what ends one. */
  predicate NumEnd(t: string) {
    t == "" || t[0] == ',' || t[0] == ']' || t[0] == '\n' || t[0] == '#'
    || ((t[0] == ' ' || t[0] == '\t' || t[0] == '\r') && NumEnd(t[1..]))
  }

  lemma {:induction false} GapEnds(g: string, t: string)
    requires Gap(g) && NumEnd(t)
    ensures NumEnd(g + t)
  {
    if g == "" {
      assert "" + t == t;
    } else if Blank(g[0]) {
      assert (g + t)[1..] == g[1..] + t;
      GapEnds(g[1..], t);
    }
  }

  /** What Python's readers do with what a rendering holds: keys are of letters and digits
      and stop at punctuation, strip takes blanks and leaves numerals. */
  ghost predicate Sane(p: Readers) {
    && (forall c :: c in " \t\r\n#=.[]\"'," ==> !p.alnum(c))
    && p.space(' ') && p.space('\t') && p.space('\r')
    && (forall c :: Numeral(c) ==> !p.space(c))
  }

  /** How many blanks lead. */
  function Lead(t: string): (n: nat)
    ensures n <= |t| && Blanks(t[..n])
  {
    if t != "" && Blank(t[0]) then
      var n := 1 + Lead(t[1..]);
      assert t[..n] == [t[0]] + t[1..][..n - 1];
      n
    else 0
  }

  lemma {:induction false} SpanEnds(t: string)
    requires NumEnd(t)
    ensures NumberSpan(t) == Lead(t)
  {
    if t != "" && Blank(t[0]) {
      SpanEnds(t[1..]);
    }
  }

  lemma {:induction false} SpanNumerals(d: string, t: string)
    requires forall k :: 0 <= k < |d| ==> Numeral(d[k])
    ensures NumberSpan(d + t) == |d| + NumberSpan(t)
  {
    if d == "" {
      assert "" + t == t;
    } else {
      assert (d + t)[1..] == d[1..] + t;
      SpanNumerals(d[1..], t);
    }
  }

  lemma {:induction false} StripBlanks(d: string, b: string, p: Readers)
    requires Sane(p) && d != "" && Blanks(b) && forall k :: 0 <= k < |d| ==> Numeral(d[k])
    ensures StripRight(d + b, p) == d
    decreases |b|
  {
    if b == "" {
      assert d + "" == d;
      assert Numeral(d[|d| - 1]);
    } else {
      assert Blank(b[|b| - 1]);
      assert (d + b)[..|d + b| - 1] == d + b[..|b| - 1];
      StripBlanks(d, b[..|b| - 1], p);
    }
  }

  lemma NumberReads(n: int, rest: string, p: Readers)
    requires Sane(p) && NumEnd(rest) && p.ints(Decimal(n)) == Some(n)
    ensures Number(Decimal(n) + rest, p) == Ok(Int(n), rest[Lead(rest)..])
  {
    hide *;
    var d, k := Decimal(n), Lead(rest);
    SpanNumerals(d, rest);
    SpanEnds(rest);
    Cut(d, rest, k);
    NoLeadingSpace(n, rest[..k], p);
    StripBlanks(d, rest[..k], p);
    NumberIs(d + rest, n, p);
  }

  lemma Cut(d: string, t: string, k: nat)
    requires k <= |t|
    ensures (d + t)[..|d| + k] == d + t[..k] && (d + t)[|d| + k..] == t[k..]
  {
  }

  lemma NoLeadingSpace(n: int, b: string, p: Readers)
    requires Sane(p)
    ensures StripLeft(Decimal(n) + b, p) == Decimal(n) + b
  {
    assert Numeral(Decimal(n)[0]);
    hide Decimal;
  }

  lemma NumberIs(t: string, n: int, p: Readers)
    requires StripRight(StripLeft(t[..NumberSpan(t)], p), p) == Decimal(n) && p.ints(Decimal(n)) == Some(n)
    ensures Number(t, p) == Ok(Int(n), t[NumberSpan(t)..])
  {
    hide StripLeft, StripRight, NumberSpan, Decimal;
  }

  // ---- values ----

  /** A value as it is written: strings in a form, arrays with the whitespace and comments
      between their parts. */
  datatype Lit =
    | LStr(form: Form, x: string)
    | LInt(n: int)
    | LBool(b: bool)
    | LList(open: string, elems: seq<Elem>)

  /** An array's element, what stands before its comma and after it; the last may go without. */
  datatype Elem = Elem(lit: Lit, before: string, comma: bool, after: string)

  function ValOf(l: Lit): Val {
    match l
    case LStr(_, x) => Str(x)
    case LInt(n) => Int(n)
    case LBool(b) => Bool(b)
    case LList(_, es) => List(ValsOf(es))
  }

  function ValsOf(es: seq<Elem>): seq<Val> {
    if es == [] then [] else [ValOf(es[0].lit)] + ValsOf(es[1..])
  }

  /** A value whose text holds it: an integer must be one that int reads (CPython refuses those
      of more than 4300 digits). */
  predicate LitOk(l: Lit, p: Readers) {
    match l
    case LStr(form, x) => Holds(form, x)
    case LInt(n) => p.ints(Decimal(n)) == Some(n)
    case LBool(_) => true
    case LList(open, es) => Gap(open) && ElemsOk(es, p)
  }

  predicate ElemsOk(es: seq<Elem>, p: Readers) {
    es == [] || (LitOk(es[0].lit, p) && Gap(es[0].before) && Gap(es[0].after) && (es[1..] == [] || es[0].comma)
                 && ElemsOk(es[1..], p))
  }

  function TextOf(l: Lit): string {
    match l
    case LStr(form, x) => Quoted(form, x)
    case LInt(n) => Decimal(n)
    case LBool(b) => if b then "true" else "false"
    case LList(open, es) => "[" + (open + TextsOf(es))
  }

  /** The elements, and the bracket that closes them. */
  function TextsOf(es: seq<Elem>): string {
    if es == [] then "]"
    else TextOf(es[0].lit) + (es[0].before + ((if es[0].comma then "," else "") + (es[0].after + TextsOf(es[1..]))))
  }

  /** What reading a value leaves of what follows it: a number takes the blanks with it. */
  function After(l: Lit, rest: string): string {
    if l.LInt? then rest[Lead(rest)..] else rest
  }

  lemma {:induction false} SkipLead(t: string, newlines: bool)
    ensures Skip(t[Lead(t)..], newlines) == Skip(t, newlines)
  {
    if t != "" && Blank(t[0]) {
      SkipLead(t[1..], newlines);
      assert t[Lead(t)..] == t[1..][Lead(t[1..])..];
    } else {
      assert t[0..] == t;
    }
  }

  lemma EndIsDelim(rest: string)
    requires NumEnd(rest)
    ensures Delim(rest)
  {
  }

  /** A value does not start with what is skipped, nor with a bracket that closes. */
  lemma LitStarts(l: Lit, rest: string, p: Readers)
    requires LitOk(l, p)
    ensures var t := TextOf(l) + rest;
            t != "" && Solid(t) && t[0] != ']'
            && (l.LInt? ==> Numeral(t[0])) && (l.LBool? ==> t[0] == if l.b then 't' else 'f')
            && (l.LList? ==> t[0] == '[') && (l.LStr? ==> t[0] == '"' || t[0] == '\'')
  {
    hide TextsOf, EscAll, LitOk;
    if l.LInt? {
      assert Numeral(Decimal(l.n)[0]);
    }
  }

  lemma BoolReads(b: bool, rest: string, p: Readers)
    ensures Value(TextOf(LBool(b)) + rest, p) == Ok(Bool(b), rest)
  {
    var t := TextOf(LBool(b)) + rest;
    SkipSolid(t, false);
    ValueStep(t, p);
    if b {
      assert t[4..] == rest && t[0] == 't';
    } else {
      assert t[5..] == rest && t[0] == 'f';
    }
    hide Value, Skip;
  }

  lemma IntReads(n: int, rest: string, p: Readers)
    requires Sane(p) && NumEnd(rest) && p.ints(Decimal(n)) == Some(n)
    ensures Value(TextOf(LInt(n)) + rest, p) == Ok(Int(n), rest[Lead(rest)..])
  {
    var t := TextOf(LInt(n)) + rest;
    LitStarts(LInt(n), rest, p);
    SkipSolid(t, false);
    ValueStep(t, p);
    NumberReads(n, rest, p);
    hide Value, Skip, Number, Decimal, Lead, Sane;
  }

  lemma StrReads(form: Form, x: string, rest: string, p: Readers)
    requires Holds(form, x) && NumEnd(rest)
    ensures Value(TextOf(LStr(form, x)) + rest, p) == Ok(Str(x), rest)
  {
    var t := TextOf(LStr(form, x)) + rest;
    LitStarts(LStr(form, x), rest, p);
    SkipSolid(t, false);
    ValueStep(t, p);
    EndIsDelim(rest);
    hide Value, Skip, Text, Quoted, NumEnd;
    StringReads(form, x, rest);
  }

  lemma ListStarts(open: string, es: seq<Elem>, rest: string, p: Readers)
    requires Items(open + (TextsOf(es) + rest), p).Ok?
    ensures var r := Items(open + (TextsOf(es) + rest), p);
            Value(TextOf(LList(open, es)) + rest, p) == Ok(List(r.value), r.rest)
  {
    var t := TextOf(LList(open, es)) + rest;
    assert t == "[" + (open + (TextsOf(es) + rest));
    assert t[1..] == open + (TextsOf(es) + rest);
    SkipSolid(t, false);
    ValueStep(t, p);
    hide Value, Skip, Items, TextsOf;
  }

  /** A value reads back. */
  lemma {:induction false} ValueReads(l: Lit, rest: string, p: Readers)
    requires Sane(p) && LitOk(l, p) && NumEnd(rest)
    ensures Value(TextOf(l) + rest, p) == Ok(ValOf(l), After(l, rest))
    decreases l, 0
  {
    match l
    case LStr(form, x) => StrReads(form, x, rest, p);
    case LInt(n) => IntReads(n, rest, p);
    case LBool(b) => BoolReads(b, rest, p);
    case LList(open, es) =>
      hide *;
      ListOk(open, es, p);
      ItemsRead(open, es, rest, p);
      ListStarts(open, es, rest, p);
      ListValue(open, es, rest);
  }

  lemma ListOk(open: string, es: seq<Elem>, p: Readers)
    ensures LitOk(LList(open, es), p) == (Gap(open) && ElemsOk(es, p))
  {
  }

  lemma ListValue(open: string, es: seq<Elem>, rest: string)
    ensures ValOf(LList(open, es)) == List(ValsOf(es)) && After(LList(open, es), rest) == rest
  {
  }

  /** An array's elements read back, whatever stands between them. */
  lemma {:induction false} ItemsRead(gap: string, es: seq<Elem>, rest: string, p: Readers)
    requires Sane(p) && Gap(gap) && ElemsOk(es, p)
    ensures Items(gap + (TextsOf(es) + rest), p) == Ok(ValsOf(es), rest)
    decreases es, 1
  {
    var t := gap + (TextsOf(es) + rest);
    hide *;
    SkipGap(gap, TextsOf(es) + rest);
    if es == [] {
      NoElems(gap, rest, p);
    } else {
      var e := es[0];
      var tail := TextsOf(es[1..]) + rest;
      ElemParts(es, rest, p);
      var sep := e.before + ((if e.comma then "," else "") + (e.after + tail));
      LitStarts(e.lit, sep, p);
      SkipSolid(TextOf(e.lit) + sep, true);
      SepEnds(e, es[1..], rest);
      ValueReads(e.lit, sep, p);
      PastSep(e, es[1..], rest);
      ItemsUnfold(t, p);
      ItemsRead(e.after, es[1..], rest, p);
    }
  }

  lemma ItemsUnfold(t: string, p: Readers)
    ensures var at := Skip(t, true);
            at != "" && at[0] != ']' && Value(at, p).Ok? ==>
              var v := Value(at, p);
              var more := Items(PastComma(Skip(v.rest, true)), p);
              Items(t, p) == if more.Err? then Err(more.fault) else Ok([v.value] + more.value, more.rest)
  {
    hide Skip, Value;
  }

  lemma NoElems(gap: string, rest: string, p: Readers)
    requires Skip(gap + (TextsOf([]) + rest), true) == Skip(TextsOf([]) + rest, true)
    ensures Items(gap + (TextsOf([]) + rest), p) == Ok(ValsOf([]), rest)
  {
    assert ("]" + rest)[1..] == rest;
    SkipSolid("]" + rest, true);
    hide Skip;
  }

  lemma ElemParts(es: seq<Elem>, rest: string, p: Readers)
    requires ElemsOk(es, p) && es != []
    ensures var e := es[0];
            && LitOk(e.lit, p) && Gap(e.before) && Gap(e.after) && (es[1..] == [] || e.comma) && ElemsOk(es[1..], p)
            && TextsOf(es) + rest == TextOf(e.lit) + (e.before + ((if e.comma then "," else "") + (e.after + (TextsOf(es[1..]) + rest))))
            && ValsOf(es) == [ValOf(e.lit)] + ValsOf(es[1..])
  {
    var e := es[0];
    var c := if e.comma then "," else "";
    Regroup(TextOf(e.lit), e.before + (c + (e.after + TextsOf(es[1..]))), rest);
    Regroup(e.before, c + (e.after + TextsOf(es[1..])), rest);
    Regroup(c, e.after + TextsOf(es[1..]), rest);
    Regroup(e.after, TextsOf(es[1..]), rest);
  }

  /** What follows an element ends a number. */
  lemma SepEnds(e: Elem, es: seq<Elem>, rest: string)
    requires Gap(e.before) && Gap(e.after) && (es == [] || e.comma)
    ensures NumEnd(e.before + ((if e.comma then "," else "") + (e.after + (TextsOf(es) + rest))))
  {
    var tail := e.after + (TextsOf(es) + rest);
    if e.comma {
      assert ("," + tail)[0] == ',';
    } else {
      assert "" + tail == tail;
      assert (TextsOf(es) + rest)[0] == ']';
      GapEnds(e.after, TextsOf(es) + rest);
    }
    hide TextsOf, Gap;
    GapEnds(e.before, (if e.comma then "," else "") + tail);
  }

  /** Past an element's separator, the rest of the elements are as if just opened. */
  lemma PastSep(e: Elem, es: seq<Elem>, rest: string)
    requires Gap(e.before) && Gap(e.after) && (es == [] || e.comma)
    ensures var tail := e.after + (TextsOf(es) + rest);
            var at := PastComma(Skip(After(e.lit, e.before + ((if e.comma then "," else "") + tail)), true));
            forall p :: Items(at, p) == Items(tail, p)
  {
    var tail := e.after + (TextsOf(es) + rest);
    var sep := e.before + ((if e.comma then "," else "") + tail);
    SkipLead(sep, true);
    SkipGap(e.before, (if e.comma then "," else "") + tail);
    if e.comma {
      SkipSolid("," + tail, true);
      assert ("," + tail)[1..] == tail;
    } else {
      assert "" + tail == tail;
      SkipGap(e.after, TextsOf(es) + rest);
      assert TextsOf(es) + rest == "]" + rest;
      SkipSolid("]" + rest, true);
      forall p ensures Items("]" + rest, p) == Items(tail, p) {
        SkipSolid("]" + rest, true);
      }
    }
    hide Skip, Gap, Lead, TextsOf;
  }

  // ---- keys and statements ----

  predicate KeyOk(k: string, p: Readers) {
    k != "" && forall i :: 0 <= i < |k| ==> p.alnum(k[i]) || k[i] == '_' || k[i] == '-'
  }

  predicate PathOk(path: seq<string>, p: Readers) {
    path != [] && forall i :: 0 <= i < |path| ==> KeyOk(path[i], p)
  }

  function PathText(path: seq<string>): string {
    if path == [] then "" else if |path| == 1 then path[0] else path[0] + ("." + PathText(path[1..]))
  }

  /** A text that does not go on with a key. */
  predicate KeyEnd(t: string, p: Readers) { t == "" || !KeyChar(t[0], p) }

  lemma {:induction false} SpanKey(k: string, t: string, p: Readers)
    requires (forall i :: 0 <= i < |k| ==> KeyChar(k[i], p)) && KeyEnd(t, p)
    ensures KeySpan(k + t, p) == |k|
  {
    if k == "" {
      assert "" + t == t;
    } else {
      assert (k + t)[1..] == k[1..] + t;
      SpanKey(k[1..], t, p);
    }
  }

  lemma KeyReads(k: string, t: string, p: Readers)
    requires KeyOk(k, p) && KeyEnd(t, p)
    ensures BareKey(k + t, p) == Ok(k, t)
  {
    SpanKey(k, t, p);
    assert (k + t)[..|k|] == k && (k + t)[|k|..] == t;
  }

  lemma {:induction false} PathReads(path: seq<string>, t: string, p: Readers)
    requires Sane(p) && path != [] && PathOk(path, p) && KeyEnd(t, p) && (t == "" || t[0] != '.')
    decreases |path|
    ensures KeyPath(PathText(path) + t, p) == Ok(path, t)
  {
    hide *;
    var k := path[0];
    PathUnfold(path, t, p);
    if |path| == 1 {
      KeyReads(k, t, p);
      OneKey(path, t, p);
    } else {
      var more := PathText(path[1..]) + t;
      PathReads(path[1..], t, p);
      KeyReads(k, "." + more, p);
      KeyPathStep(k, more, p);
      assert [k] + path[1..] == path;
    }
  }

  lemma PathUnfold(path: seq<string>, t: string, p: Readers)
    requires Sane(p) && path != [] && PathOk(path, p)
    ensures KeyOk(path[0], p)
    ensures |path| == 1 ==> PathText(path) + t == path[0] + t
    ensures |path| > 1 ==>
              var more := PathText(path[1..]) + t;
              PathOk(path[1..], p) && PathText(path) + t == path[0] + ("." + more) && KeyEnd("." + more, p)
  {
    if |path| > 1 {
      PathTail(path, p);
      DotEnds(PathText(path[1..]) + t, p);
      Regroup(path[0], "." + PathText(path[1..]), t);
      Regroup(".", PathText(path[1..]), t);
    }
    hide Sane, KeyEnd, KeyOk;
  }

  lemma PathTail(path: seq<string>, p: Readers)
    requires |path| > 1 && PathOk(path, p)
    ensures PathOk(path[1..], p)
  {
    hide KeyOk;
  }

  lemma DotEnds(t: string, p: Readers)
    requires Sane(p)
    ensures KeyEnd("." + t, p)
  {
    assert '.' in " \t\r\n#=.[]\"',";
  }

  lemma OneKey(path: seq<string>, t: string, p: Readers)
    requires |path| == 1 && BareKey(path[0] + t, p) == Ok(path[0], t) && (t == "" || t[0] != '.')
    ensures KeyPath(path[0] + t, p) == Ok(path, t)
  {
    hide BareKey;
    assert path == [path[0]];
  }

  lemma KeyPathStep(k: string, more: string, p: Readers)
    requires BareKey(k + ("." + more), p) == Ok(k, "." + more) && KeyPath(more, p).Ok?
    ensures KeyPath(k + ("." + more), p) == Ok([k] + KeyPath(more, p).value, KeyPath(more, p).rest)
  {
    hide BareKey;
    assert ("." + more)[1..] == more;
  }

  /** A statement as it is written, and what stands between it and the next. */
  datatype Line =
    | LPair(key: string, pre: string, post: string, lit: Lit, tail: string)
    | LHeader(path: seq<string>, tail: string)
    | LElement(path: seq<string>, tail: string)

  predicate LineOk(l: Line, p: Readers) {
    Gap(l.tail) &&
    match l
    case LPair(key, pre, post, lit, _) => KeyOk(key, p) && Blanks(pre) && Blanks(post) && LitOk(lit, p)
    case LHeader(path, _) => PathOk(path, p)
    case LElement(path, _) => PathOk(path, p)
  }

  /** The statement without what follows it. */
  function LineText(l: Line): string {
    match l
    case LPair(key, pre, post, lit, _) => key + (pre + ("=" + (post + TextOf(lit))))
    case LHeader(path, _) => "[" + (PathText(path) + "]")
    case LElement(path, _) => "[[" + (PathText(path) + "]]")
  }

  function StmtOf(l: Line): Stmt {
    match l
    case LPair(key, _, _, lit, _) => Pair(key, ValOf(lit))
    case LHeader(path, _) => Header(path)
    case LElement(path, _) => Element(path)
  }

  function AfterLine(l: Line, rest: string): string {
    if l.LPair? then After(l.lit, rest) else rest
  }

  lemma HeaderReads(path: seq<string>, rest: string, p: Readers)
    requires Sane(p) && path != [] && PathOk(path, p)
    ensures Statement(("[" + (PathText(path) + "]")) + rest, p) == Ok(Header(path), rest)
  {
    var t := PathText(path);
    BracketEnds("]" + rest, p);
    hide Sane, PathText, KeyPath, PathOk, KeyEnd;
    PathReads(path, "]" + rest, p);
    PathStarts(path, p);
    var all := "[" + (t + ("]" + rest));
    assert ("[" + (t + "]")) + rest == all;
    assert all[1..] == t + ("]" + rest) && all[1] == t[0];
    assert ("]" + rest)[1..] == rest;
  }

  lemma ElementReads(path: seq<string>, rest: string, p: Readers)
    requires Sane(p) && path != [] && PathOk(path, p)
    ensures Statement(("[[" + (PathText(path) + "]]")) + rest, p) == Ok(Element(path), rest)
  {
    var t := PathText(path);
    BracketEnds("]]" + rest, p);
    hide Sane, PathText, KeyPath, PathOk, KeyEnd;
    PathReads(path, "]]" + rest, p);
    var all := "[[" + (t + ("]]" + rest));
    assert ("[[" + (t + "]]")) + rest == all;
    assert all[2..] == t + ("]]" + rest);
    assert ("]]" + rest)[2..] == rest;
  }

  lemma BracketEnds(t: string, p: Readers)
    requires Sane(p) && t != "" && t[0] == ']'
    ensures KeyEnd(t, p)
  {
    assert ']' in " \t\r\n#=.[]\"',";
  }

  lemma PathStarts(path: seq<string>, p: Readers)
    requires Sane(p) && path != [] && PathOk(path, p)
    ensures PathText(path) != "" && PathText(path)[0] != '['
  {
    assert '[' in " \t\r\n#=.[]\"',";
    assert KeyOk(path[0], p) && KeyChar(path[0][0], p);
    assert PathText(path)[0] == path[0][0];
  }

  lemma PairReads(key: string, pre: string, post: string, lit: Lit, rest: string, p: Readers)
    requires Sane(p) && KeyOk(key, p) && Blanks(pre) && Blanks(post) && LitOk(lit, p) && NumEnd(rest)
    ensures Statement((key + (pre + ("=" + (post + TextOf(lit))))) + rest, p) == Ok(Pair(key, ValOf(lit)), After(lit, rest))
  {
    hide Value, Skip, TextOf, Sane, Blanks, NumEnd, BareKey, KeyOk, LitOk, ValOf, After;
    var v := TextOf(lit) + rest;
    var t := key + (pre + ("=" + (post + v)));
    assert (key + (pre + ("=" + (post + TextOf(lit))))) + rest == t;
    KeyThen(key, pre, "=" + (post + v), p);
    SkipBlanks(pre, "=" + (post + v));
    SkipSolid("=" + (post + v), false);
    assert ("=" + (post + v))[1..] == post + v;
    SkipBlanks(post, v);
    SameValue(post + v, v, p);
    ValueReads(lit, rest, p);
  }

  lemma KeyThen(key: string, pre: string, t: string, p: Readers)
    requires Sane(p) && KeyOk(key, p) && Blanks(pre) && t != "" && t[0] == '='
    ensures BareKey(key + (pre + t), p) == Ok(key, pre + t)
    ensures key + (pre + t) != "" && (key + (pre + t))[0] != '['
  {
    assert '=' in " \t\r\n#=.[]\"'," && ' ' in " \t\r\n#=.[]\"'," && '\t' in " \t\r\n#=.[]\"',"
           && '\r' in " \t\r\n#=.[]\"'," && '[' in " \t\r\n#=.[]\"',";
    assert pre != "" ==> Blank(pre[0]);
    assert KeyEnd(pre + t, p);
    KeyReads(key, pre + t, p);
    assert KeyChar(key[0], p);
  }

  lemma SameValue(s: string, t: string, p: Readers)
    requires Skip(s, false) == Skip(t, false)
    ensures Value(s, p) == Value(t, p)
  {
    ValueStep(s, p);
    ValueStep(t, p);
    hide Value, Skip;
  }

  lemma LineReads(l: Line, rest: string, p: Readers)
    requires Sane(p) && LineOk(l, p) && (l.LPair? ==> NumEnd(rest))
    ensures LineText(l) + rest != ""
    ensures Statement(LineText(l) + rest, p) == Ok(StmtOf(l), AfterLine(l, rest))
    ensures Solid(LineText(l) + rest)
  {
    LineStarts(l, rest, p);
    hide Statement, Sane, NumEnd, Blanks, Gap, LitOk, TextOf, ValOf;
    match l
    case LPair(key, pre, post, lit, _) => PairReads(key, pre, post, lit, rest, p);
    case LHeader(path, _) => HeaderReads(path, rest, p);
    case LElement(path, _) => ElementReads(path, rest, p);
  }

  lemma KeyIsSolid(c: char, p: Readers)
    requires Sane(p) && KeyChar(c, p)
    ensures !(c == ' ' || c == '\t' || c == '\r' || c == '\n' || c == '#')
  {
    assert ' ' in " \t\r\n#=.[]\"'," && '\t' in " \t\r\n#=.[]\"'," && '\r' in " \t\r\n#=.[]\"',"
           && '\n' in " \t\r\n#=.[]\"'," && '#' in " \t\r\n#=.[]\"',";
  }

  lemma LineStarts(l: Line, rest: string, p: Readers)
    requires Sane(p) && LineOk(l, p)
    ensures LineText(l) + rest != "" && Solid(LineText(l) + rest)
  {
    hide Sane, TextOf, PathText, LitOk, PathOk, Gap;
    match l
    case LPair(key, pre, post, lit, _) =>
      KeyIsSolid(key[0], p);
      assert (LineText(l) + rest)[0] == key[0];
    case LHeader(_, _) =>
      assert (LineText(l) + rest)[0] == '[';
    case LElement(_, _) =>
      assert (LineText(l) + rest)[0] == '[';
  }

  // ---- documents ----

  /** What a text ends with: blanks, and comments of which the last may go unended. */
  predicate Finish(t: string) { Gap(t) || exists k :: 0 <= k < |t| && Unended(t, k) }

  predicate Unended(t: string, k: int) { 0 <= k < |t| && Gap(t[..k]) && t[k] == '#' && '\n' !in t[k..] }

  lemma FinishSkips(t: string)
    requires Finish(t)
    ensures Skip(t, true) == ""
  {
    hide Skip, Gap;
    SkipIs('#', "", true);
    if Gap(t) {
      SkipGap(t, "");
      assert t + "" == t;
    } else {
      var k: nat :| k < |t| && Unended(t, k);
      SkipGap(t[..k], t[k..]);
      CommentSkipped(t[k + 1..], "", true);
      assert t == t[..k] + t[k..] && t[k..] == "#" + t[k + 1..];
      assert t[k + 1..] == t[k..][1..];
    }
  }

  function LinesText(ls: seq<Line>, finish: string): string
    decreases |ls|
  {
    if ls == [] then finish else LineText(ls[0]) + (ls[0].tail + LinesText(ls[1..], finish))
  }

  /** Each statement followed by what separates it; a pair's value must end where its text
      does. */
  predicate LinesOk(ls: seq<Line>, finish: string, p: Readers)
    decreases |ls|
  {
    if ls == [] then Finish(finish)
    else
      && LineOk(ls[0], p) && LinesOk(ls[1..], finish, p)
      && (ls[0].LPair? ==> NumEnd(ls[0].tail + LinesText(ls[1..], finish)))
  }

  /** Every element's header names a list. */
  predicate Pathed(ls: seq<Line>) {
    forall k :: 0 <= k < |ls| ==> ls[k].LElement? ==> ls[k].path != []
  }

  function ApplyAll(d: Doc, ls: seq<Line>): Option<Doc>
    requires Pathed(ls)
    decreases |ls|
  {
    if ls == [] then Some(d)
    else
      match Apply(d, StmtOf(ls[0]))
      case None => None
      case Some(next) => ApplyAll(next, ls[1..])
  }

  /** Statements with anything after them. */
  predicate LinesLead(ls: seq<Line>, rest: string, p: Readers)
    decreases |ls|
  {
    ls == [] || (LineOk(ls[0], p) && LinesLead(ls[1..], rest, p)
                 && (ls[0].LPair? ==> NumEnd(ls[0].tail + LinesText(ls[1..], rest))))
  }

  /** They are read and done, and reading goes on at what follows, unless one of them fails. */
  lemma {:induction false} LinesLeadTo(gap: string, ls: seq<Line>, rest: string, d: Doc, p: Readers)
    requires Sane(p) && Gap(gap) && LinesLead(ls, rest, p) && Pathed(ls)
    ensures Parse(gap + LinesText(ls, rest), d, p)
            == match ApplyAll(d, ls)
               case None => Err(Crashed)
               case Some(r) => Parse(rest, r, p)
    decreases |ls|
  {
    var t := gap + LinesText(ls, rest);
    SkipGap(gap, LinesText(ls, rest));
    if ls == [] {
      SameParse(t, rest, d, p);
    } else {
      ParseStep(t, d, p);
      var l := ls[0];
      var more := l.tail + LinesText(ls[1..], rest);
      LineReads(l, more, p);
      SkipSolid(LineText(l) + more, true);
      var next := Apply(d, StmtOf(l));
      if next.Some? {
        LinesLeadTo(l.tail, ls[1..], rest, next.value, p);
        SameParse(AfterLine(l, more), more, next.value, p) by { AfterSkips(l, more); }
      }
      hide Parse, Skip, Statement, Apply, Gap, NumEnd, Sane, LineOk, LineText;
    }
  }

  lemma {:induction false} FinishedLead(ls: seq<Line>, finish: string, p: Readers)
    requires LinesOk(ls, finish, p)
    ensures LinesLead(ls, finish, p) && Finish(finish)
    decreases |ls|
  {
    if ls != [] {
      FinishedLead(ls[1..], finish, p);
    }
    hide LineOk, NumEnd, Finish, LinesText;
  }

  /** Reading a text back does what its statements do, one after another, whatever
      whitespace and comments stand between them: it answers their document, or fails where
      one of them does. */
  lemma LinesRead(gap: string, ls: seq<Line>, finish: string, d: Doc, p: Readers)
    requires Sane(p) && Gap(gap) && LinesOk(ls, finish, p)
    requires Pathed(ls)
    ensures Parse(gap + LinesText(ls, finish), d, p)
            == match ApplyAll(d, ls)
               case None => Err(Crashed)
               case Some(r) => Ok(r.root, "")
  {
    FinishedLead(ls, finish, p);
    FinishSkips(finish);
    hide Parse, Skip, Gap, LinesLead, LinesText, Sane, Finish, ApplyAll;
    LinesLeadTo(gap, ls, finish, d, p);
    var r := ApplyAll(d, ls);
    if r.Some? {
      ParseStep(finish, r.value, p);
    }
  }

  lemma AfterSkips(l: Line, rest: string)
    ensures Skip(AfterLine(l, rest), true) == Skip(rest, true)
  {
    SkipLead(rest, true);
  }

  lemma SameParse(s: string, t: string, d: Doc, p: Readers)
    requires Skip(s, true) == Skip(t, true)
    ensures Parse(s, d, p) == Parse(t, d, p)
  {
    ParseStep(s, d, p);
    ParseStep(t, d, p);
    hide Parse, Skip;
  }
}
