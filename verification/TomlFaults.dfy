/** What the reader of board files refuses, where it fails and what it lets pass
    (tools/board_config.py:92-226). */
module TomlFaults {
  import opened Options
  import opened Toml
  import opened TomlText
  import opened TomlDocs

  // ---- documents ----

  /** A document fails as its first bad statement does, whatever stands after that. */
  lemma FaultEnds(gap: string, ls: seq<Line>, bad: string, p: Readers)
    requires Sane(p) && Gap(gap) && LinesLead(ls, bad, p) && Pathed(ls) && ApplyAll(Doc(Table(map[]), []), ls).Some?
    requires bad != "" && Solid(bad) && Statement(bad, p).Err?
    ensures Loads(gap + LinesText(ls, bad), p) == Err(Statement(bad, p).fault)
  {
    var d := Doc(Table(map[]), []);
    hide Parse, Skip, Statement, LinesLead, LinesText, Sane, Gap, ApplyAll;
    LinesLeadTo(gap, ls, bad, d, p);
    SkipSolid(bad, true);
    ParseStep(bad, ApplyAll(d, ls).value, p);
  }

  // ---- statements ----

  /** A statement starts with a bracket or with a character of a key. */
  lemma KeyRefused(t: string, p: Readers)
    requires t != "" && t[0] != '[' && !(p.alnum(t[0]) || t[0] == '_' || t[0] == '-')
    ensures Statement(t, p) == Err(Refused)
  {
  }

  /** A key with no equals sign on its line. */
  lemma NoEquals(key: string, pre: string, t: string, p: Readers)
    requires Sane(p) && KeyOk(key, p) && Blanks(pre) && (t == "" || (t[0] != '=' && t[0] != '#' && !Blank(t[0])))
    requires pre == "" ==> KeyEnd(t, p)
    ensures Statement(key + (pre + t), p) == Err(Refused)
  {
    hide Skip, BareKey, Value;
    EndsKey(pre, t, p);
    KeyReads(key, pre + t, p);
    NotBracket(key, pre + t, p);
    SkipBlanks(pre, t);
    StopsAt(t);
  }

  lemma StopsAt(t: string)
    requires t == "" || (t[0] != '#' && !Blank(t[0]))
    ensures Skip(t, false) == t
  {
  }

  lemma EndsKey(pre: string, t: string, p: Readers)
    requires Sane(p) && Blanks(pre) && (pre == "" ==> KeyEnd(t, p))
    ensures KeyEnd(pre + t, p)
  {
    assert ' ' in " \t\r\n#=.[]\"'," && '\t' in " \t\r\n#=.[]\"'," && '\r' in " \t\r\n#=.[]\"',";
    if pre == "" {
      assert "" + t == t;
    } else {
      assert (pre + t)[0] == pre[0];
    }
  }

  lemma NotBracket(key: string, t: string, p: Readers)
    requires Sane(p) && KeyOk(key, p)
    ensures key + t != "" && (key + t)[0] != '['
  {
    assert '[' in " \t\r\n#=.[]\"',";
  }

  /** A header with no bracket after its path; blanks around its dots end it too. */
  lemma HeaderUnended(path: seq<string>, t: string, p: Readers)
    requires Sane(p) && path != [] && PathOk(path, p) && KeyEnd(t, p) && (t == "" || (t[0] != '.' && t[0] != ']'))
    ensures Statement("[" + (PathText(path) + t), p) == Err(Refused)
  {
    hide KeyPath, PathText, Sane, PathOk, KeyEnd;
    PathReads(path, t, p);
    TomlText.PathStarts(path, p);
    var all := "[" + (PathText(path) + t);
    assert all[1..] == PathText(path) + t && all[1] == PathText(path)[0];
  }

  /** An element's header with no two. */
  lemma ElementUnended(path: seq<string>, t: string, p: Readers)
    requires Sane(p) && path != [] && PathOk(path, p) && KeyEnd(t, p) && (t == "" || t[0] != '.') && !("]]" <= t)
    ensures Statement("[[" + (PathText(path) + t), p) == Err(Refused)
  {
    hide KeyPath, PathText, Sane, PathOk, KeyEnd;
    PathReads(path, t, p);
    var all := "[[" + (PathText(path) + t);
    assert all[2..] == PathText(path) + t;
  }

  /** A pair fails as its value does. */
  lemma PairFails(key: string, pre: string, v: string, p: Readers)
    requires Sane(p) && KeyOk(key, p) && Blanks(pre) && Value(v, p).Err?
    ensures Statement(key + (pre + ("=" + v)), p) == Err(Value(v, p).fault)
  {
    hide Value, Skip, Sane, Blanks, BareKey, KeyOk;
    KeyThen(key, pre, "=" + v, p);
    SkipBlanks(pre, "=" + v);
    SkipSolid("=" + v, false);
    assert ("=" + v)[1..] == v;
  }

  // ---- values ----

  /** Nothing at all for a value, only blanks or a comment that ends the text, is the one
      fault that is a crash: the character there is read unguarded. */
  lemma NothingCrashes(g: string, c: string, p: Readers)
    requires Blanks(g) && '\n' !in c
    ensures Value(g, p) == Err(Crashed) && Value(g + ("#" + c), p) == Err(Crashed)
  {
    hide Skip;
    assert g + "" == g;
    SkipBlanks(g, "");
    SkipBlanks(g, "#" + c);
    SkipIs('#', "", false);
    CommentSkipped(c, "", false);
    ValueStep(g, p);
    ValueStep(g + ("#" + c), p);
  }

  /** A string between single quotes that its line or the text ends first. */
  lemma LiteralUnended(x: string, rest: string)
    requires '\'' !in x && '\n' !in x
    ensures Text("'" + x) == Err(Refused) && Text("'" + (x + ("\n" + rest))) == Err(Refused)
  {
    var a, b := "'" + x, "'" + (x + ("\n" + rest));
    assert a[1..] == x && b[1..] == x + ("\n" + rest);
    assert x != "" ==> a[1] == x[0] && b[1] == x[0];
    LiteralScan(x, rest);
    hide Scan;
  }

  lemma {:induction false} LiteralScan(x: string, rest: string)
    requires '\'' !in x && '\n' !in x
    ensures Scan(x, '\'') == Err(Refused) && Scan(x + ("\n" + rest), '\'') == Err(Refused)
  {
    if x != "" {
      assert (x + ("\n" + rest))[1..] == x[1..] + ("\n" + rest);
      LiteralScan(x[1..], rest);
    } else {
      assert "" + ("\n" + rest) == "\n" + rest;
    }
  }

  /** One between double quotes likewise; a last backslash takes nothing with it. */
  lemma BasicUnended(x: string, rest: string)
    ensures var e := EscAll(x, false);
            && Text("\"" + e) == Err(Refused) && Text("\"" + (e + "\\")) == Err(Refused)
            && Text("\"" + (e + ("\n" + rest))) == Err(Refused)
  {
    BasicScan(x, "");
    BasicScan(x, "\\");
    BasicScan(x, "\n" + rest);
    var e := EscAll(x, false);
    assert e + "" == e;
    OneQuote(x, "");
    OneQuote(x, "\\");
    OneQuote(x, "\n" + rest);
    hide Scan, EscAll;
  }

  lemma OneQuote(x: string, t: string)
    requires t == "" || t[0] != '"'
    ensures var e := "\"" + (EscAll(x, false) + t);
            e[1..] == EscAll(x, false) + t && e[0] == '"' && !(Triple('"') <= e) && !(Triple('\'') <= e)
  {
    var e := "\"" + (EscAll(x, false) + t);
    if x == "" {
      assert e == "\"" + t;
    } else {
      NotQuote(x, false, t);
      assert e[1] == (EscAll(x, false) + t)[0];
    }
  }

  lemma {:induction false} BasicScan(x: string, t: string)
    requires t == "" || t == "\\" || t[0] == '\n'
    ensures Scan(EscAll(x, false) + t, '"') == Err(Refused)
  {
    if x == "" {
      assert "" + t == t;
    } else {
      var more := EscAll(x[1..], false) + t;
      BasicScan(x[1..], t);
      assert EscAll(x, false) + t == Esc(x[0], false) + more;
      PieceFails(Esc(x[0], false), more, x[0]);
    }
  }

  lemma PieceFails(e: string, more: string, c: char)
    requires e == Esc(c, false) && Scan(more, '"') == Err(Refused)
    ensures Scan(e + more, '"') == Err(Refused)
  {
    EscShape(c, false);
    hide Esc, Escape;
    assert (e + more)[|e|..] == more;
  }

  /** `lit` comes at `k` in `t`. */
  predicate Comes(t: string, lit: string, k: int) { 0 <= k <= |t| - |lit| && t[k..k + |lit|] == lit }

  /** What ends a multi-line string is the first three quotes there are. */
  lemma {:induction false} FindIs(t: string, lit: string)
    requires lit != ""
    ensures match Find(t, lit)
            case None => forall k :: 0 <= k < |t| ==> !Comes(t, lit, k)
            case Some(i) => Comes(t, lit, i) && forall k :: 0 <= k < i ==> !Comes(t, lit, k)
  {
    hide Find;
    FindUnfold(t, lit);
    assert t[0..] == t;
    if lit <= t {
      assert t[0..0 + |lit|] == lit;
    } else if t != "" {
      assert !Comes(t, lit, 0);
      FindIs(t[1..], lit);
      forall k | 1 <= k < |t| ensures Comes(t, lit, k) <==> Comes(t[1..], lit, k - 1) {
        ComesAfter(t, lit, k);
      }
    }
  }

  lemma ComesAfter(t: string, lit: string, k: nat)
    requires 1 <= k < |t|
    ensures Comes(t, lit, k) <==> Comes(t[1..], lit, k - 1)
  {
    if k <= |t| - |lit| {
      assert t[k..k + |lit|] == t[1..][k - 1..k - 1 + |lit|];
    }
  }

  /** A multi-line string with no three quotes to end it. */
  lemma MultiUnended(quote: char, body: string)
    requires quote == '"' || quote == '\''
    requires forall k :: 0 <= k < |body| ==> !Comes(body, [quote, quote, quote], k)
    ensures Text([quote, quote, quote] + body) == Err(Refused)
  {
    var q := [quote, quote, quote];
    var t := q + body;
    assert t[3..] == body && t[0] == quote && q <= t && q == Triple(quote);
    FindIs(body, q);
    if "\n" <= body {
      FindIs(body[1..], q);
      forall j | 0 <= j < |body[1..]| ensures !Comes(body[1..], q, j) {
        ComesAfter(body, q, j + 1);
      }
      FindInside(body[1..], q);
    }
    FindInside(body, q);
    hide Find, Unescape;
    MultiIs(body, q);
  }

  lemma FindInside(t: string, q: string)
    requires q != ""
    ensures Find(t, q).Some? ==> Find(t, q).value < |t|
  {
  }

  /** A number is what is before a comma, a bracket, a newline or a hash, without the spaces
      around it: an integer if int takes it, or else a float if float does, or else refused. */
  lemma NumberAnswers(a: string, raw: string, b: string, t: string, p: Readers)
    requires forall k :: 0 <= k < |a| ==> p.space(a[k])
    requires forall k :: 0 <= k < |b| ==> p.space(b[k])
    requires raw != "" ==> !p.space(raw[0]) && !p.space(raw[|raw| - 1])
    requires forall c :: c in a + raw + b ==> c != ',' && c != ']' && c != '\n' && c != '#'
    requires t == "" || t[0] == ',' || t[0] == ']' || t[0] == '\n' || t[0] == '#'
    ensures Number(a + raw + b + t, p)
            == if raw == "" then Err(Refused)
               else if p.ints(raw).Some? then Ok(Int(p.ints(raw).value), t)
               else if p.floats(raw) then Ok(Float(raw), t) else Err(Refused)
  {
    var s := a + raw + b;
    SpanIs(s, t);
    assert (s + t)[..|s|] == s && (s + t)[|s|..] == t;
    StripIs(a, raw, b, p);
    hide Strip, NumberSpan;
  }

  lemma {:induction false} SpanIs(s: string, t: string)
    requires forall c :: c in s ==> c != ',' && c != ']' && c != '\n' && c != '#'
    requires t == "" || t[0] == ',' || t[0] == ']' || t[0] == '\n' || t[0] == '#'
    ensures NumberSpan(s + t) == |s|
  {
    if s == "" {
      assert "" + t == t;
    } else {
      assert (s + t)[1..] == s[1..] + t && s[0] in s;
      assert forall c :: c in s[1..] ==> c in s;
      SpanIs(s[1..], t);
    }
  }

  lemma StripIs(a: string, raw: string, b: string, p: Readers)
    requires forall k :: 0 <= k < |a| ==> p.space(a[k])
    requires forall k :: 0 <= k < |b| ==> p.space(b[k])
    requires raw != "" ==> !p.space(raw[0]) && !p.space(raw[|raw| - 1])
    ensures Strip(a + raw + b, p) == raw
  {
    Regroup(a, raw, b);
    if raw == "" {
      assert a + (raw + b) == (a + b) + "";
      LeftStripped(a + b, "", p);
    } else {
      LeftStripped(a, raw + b, p);
      RightStripped(raw, b, p);
    }
    hide StripLeft, StripRight;
    RightNothing(p);
  }

  lemma RightNothing(p: Readers)
    ensures StripRight("", p) == ""
  {
  }

  lemma {:induction false} LeftStripped(a: string, t: string, p: Readers)
    requires (forall k :: 0 <= k < |a| ==> p.space(a[k])) && (t == "" || !p.space(t[0]))
    ensures StripLeft(a + t, p) == t
  {
    if a == "" {
      assert "" + t == t;
    } else {
      assert (a + t)[1..] == a[1..] + t;
      LeftStripped(a[1..], t, p);
    }
  }

  lemma {:induction false} RightStripped(t: string, b: string, p: Readers)
    requires (forall k :: 0 <= k < |b| ==> p.space(b[k])) && t != "" && !p.space(t[|t| - 1])
    ensures StripRight(t + b, p) == t
  {
    if b == "" {
      assert t + "" == t;
    } else {
      assert (t + b)[..|t + b| - 1] == t + b[..|b| - 1];
      RightStripped(t, b[..|b| - 1], p);
    }
  }

  // ---- arrays ----

  /** An array the text ends first. */
  lemma ArrayUnended(g: string, p: Readers)
    requires Finish(g)
    ensures Items(g, p) == Err(Refused)
  {
    FinishSkips(g);
    hide Skip, Finish;
  }

  /** It fails as an element does. */
  lemma ElementFails(gap: string, t: string, p: Readers)
    requires Gap(gap) && t != "" && Solid(t) && t[0] != ']' && Value(t, p).Err?
    ensures Items(gap + t, p) == Err(Value(t, p).fault)
  {
    SkipGap(gap, t);
    SkipSolid(t, true);
    hide Skip, Gap, Value;
  }

  /** The comma after an element may be missing, wherever another does not follow. */
  lemma CommaOptional(s: string, t: string, v: Val, gap: string, rest: string, p: Readers)
    requires s != "" && Solid(s) && s[0] != ']' && t != "" && Solid(t) && t[0] != ']'
    requires Gap(gap) && Solid(rest) && (rest == "" || rest[0] != ',')
    requires Value(s, p) == Ok(v, "," + (gap + rest)) && Value(t, p) == Ok(v, gap + rest)
    ensures Items(s, p) == Items(t, p)
  {
    SkipSolid(s, true);
    SkipSolid(t, true);
    var more := gap + rest;
    SkipSolid("," + more, true);
    assert ("," + more)[1..] == more;
    SkipGap(gap, rest);
    SkipSolid(rest, true);
    hide Skip, Gap, Value;
    ItemsAlike(more, rest, p);
    ItemsOne(s, p);
    ItemsOne(t, p);
    hide Items;
  }

  lemma ItemsAlike(s: string, t: string, p: Readers)
    requires Skip(s, true) == Skip(t, true)
    ensures Items(s, p) == Items(t, p)
  {
    hide Skip, Value;
  }

  lemma ItemsOne(s: string, p: Readers)
    requires s != "" && Skip(s, true) == s && s[0] != ']' && Value(s, p).Ok?
    ensures Items(s, p) == match Items(PastComma(Skip(Value(s, p).rest, true)), p)
                           case Err(e) => Err(e)
                           case Ok(vs, after) => Ok([Value(s, p).value] + vs, after)
  {
    hide Skip, Value;
  }

  // ---- what a statement may name ----

  /** Where a path stops short: at what is no table, or at a list with nothing in it. */
  predicate Stopped(root: Val, path: seq<string>, j: int) {
    && 0 <= j < |path| && NodeAt(root, path[..j]).Some?
    && var n := NodeAt(root, path[..j]).value;
       !n.Table? || (path[j] in n.entries && n.entries[path[j]] == List([]))
  }

  /** A header's path is refused if and only if it stops short somewhere; otherwise what was
      there is there yet, or a new table is. */
  lemma {:induction false} DescendsExactly(root: Val, path: seq<string>)
    ensures Descended(root, path).None? <==> exists j :: 0 <= j < |path| && Stopped(root, path, j)
    ensures Descended(root, path).Some? ==>
              NodeAt(Descended(root, path).value, path)
              == Some(if NodeAt(root, path).Some? then NodeAt(root, path).value else Table(map[]))
    decreases |path|
  {
    if path != [] {
      assert path[..0] == [];
      if root.Table? {
        var next := if path[0] in root.entries then root.entries[path[0]] else Table(map[]);
        if next == List([]) {
          assert Stopped(root, path, 0);
        } else {
          var n := if next.List? then next.items[|next.items| - 1] else next;
          DescendsExactly(n, path[1..]);
          StoppedBelow(root, path, n);
        }
      } else {
        assert Stopped(root, path, 0);
      }
    }
  }
  lemma StoppedBelow(root: Val, path: seq<string>, n: Val)
    requires path != [] && root.Table?
    requires var next := if path[0] in root.entries then root.entries[path[0]] else Table(map[]);
             next != List([]) && n == if next.List? then next.items[|next.items| - 1] else next
    ensures !Stopped(root, path, 0)
    ensures forall j :: 1 <= j < |path| ==> (Stopped(root, path, j) <==> Stopped(n, path[1..], j - 1))
    ensures forall i :: 0 <= i < |path[1..]| ==> (Stopped(n, path[1..], i) <==> Stopped(root, path, i + 1))
  {
    assert path[..0] == [];
    forall j | 1 <= j < |path| ensures Stopped(root, path, j) <==> Stopped(n, path[1..], j - 1) {
      assert path[..j][1..] == path[1..][..j - 1] && path[..j][0] == path[0];
      assert path[1..][..0] == [];
    }
  }

  /** A header: refused where its path stops, or else keys go into what it leads to. */
  lemma HeaderApplies(d: Doc, path: seq<string>)
    ensures var r := Apply(d, Header(path));
            && (r.None? <==> exists j :: 0 <= j < |path| && Stopped(d.root, path, j))
            && (r.Some? ==> r.value.cur == path
                            && NodeAt(r.value.root, path)
                               == Some(if NodeAt(d.root, path).Some? then NodeAt(d.root, path).value else Table(map[])))
  {
    DescendsExactly(d.root, path);
    hide Descended, Stopped, NodeAt;
  }

  /** A pair: refused where keys go into what is no table; a key given again takes its last
      value. */
  lemma PairApplies(d: Doc, key: string, v: Val)
    requires NodeAt(d.root, d.cur).Some?
    ensures var r, n := Apply(d, Pair(key, v)), NodeAt(d.root, d.cur).value;
            && (r.Some? <==> n.Table?)
            && (r.Some? ==> r.value.cur == d.cur && NodeAt(r.value.root, d.cur) == Some(Table(n.entries[key := v])))
  {
    var n := NodeAt(d.root, d.cur).value;
    if n.Table? {
      PutGet(d.root, d.cur, Table(n.entries[key := v]));
    }
    hide NodeAt, WithNode;
  }

  /** An element: refused where its path stops or its name is taken by what is no list; else the
      list there has one more table, empty, and keys go into that. */
  lemma ElementApplies(d: Doc, path: seq<string>, k: string)
    ensures var r := Apply(d, Element(path + [k]));
            var n := if NodeAt(d.root, path).Some? then NodeAt(d.root, path).value else Table(map[]);
            && (r.Some? <==> && (forall j :: 0 <= j < |path| ==> !Stopped(d.root, path, j))
                             && n.Table? && (k in n.entries ==> n.entries[k].List?))
            && (r.Some? ==>
                  var was := if k in n.entries then n.entries[k].items else [];
                  && r.value.cur == path + [k] && NodeAt(r.value.root, path + [k]) == Some(Table(map[]))
                  && NodeAt(r.value.root, path) == Some(Table(n.entries[k := List(was + [Table(map[])])])))
  {
    assert (path + [k])[..|path + [k]| - 1] == path && (path + [k])[|path|] == k;
    DescendsExactly(d.root, path);
    var n := if NodeAt(d.root, path).Some? then NodeAt(d.root, path).value else Table(map[]);
    if Descended(d.root, path).Some? && n.Table? && (k in n.entries ==> n.entries[k].List?) {
      var was := if k in n.entries then n.entries[k].items else [];
      var m := n.entries[k := List(was + [Table(map[])])];
      var root := Descended(d.root, path).value;
      PutGet(root, path, Table(m));
      OneDown(WithNode(root, path, Table(m)), path, k, m);
    }
    hide Descended, Stopped, NodeAt, WithNode;
  }
}
