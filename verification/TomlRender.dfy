/** A renderer for documents (tools/board_config.py:71-262 reads what it writes): a statement to
    a line, every string in double quotes, the same comment after each where there is one, and
    that reading it back gives the same document, for every one whose names are distinct keys and
    whose values have a written form. */
module TomlRender {
  import opened Options
  import opened Decimals
  import opened Sequences
  import opened Toml
  import opened TomlText
  import opened TomlDocs

  // ---- what can be written ----

  /** A value a pair can hold: strings, integers that int reads, booleans, and arrays of them. */
  predicate Renderable(v: Val, p: Readers) {
    match v
    case Str(_) => true
    case Int(n) => p.ints(Decimal(n)) == Some(n)
    case Float(_) => false
    case Bool(_) => true
    case List(vs) => AllRenderable(vs, p)
    case Table(_) => false
  }

  predicate AllRenderable(vs: seq<Val>, p: Readers) {
    vs == [] || (Renderable(vs[0], p) && AllRenderable(vs[1..], p))
  }

  /** A document of such values, its keys ones a bare key can be. */
  predicate Writable(t: Tree, p: Readers)
    decreases t, 0
  {
    PairsWritable(t.pairs, p) && SubsWritable(t.subs, p)
  }

  predicate PairsWritable(ps: seq<(string, Val)>, p: Readers) {
    ps == [] || (KeyOk(ps[0].0, p) && Renderable(ps[0].1, p) && PairsWritable(ps[1..], p))
  }

  predicate SubsWritable(ss: seq<Sub>, p: Readers)
    decreases ss
  {
    ss == [] || (KeyOk(ss[0].name, p) && SubsWritable(ss[1..], p)
                 && if ss[0].One? then Writable(ss[0].tree, p) else AllWritable(ss[0].trees, p))
  }

  predicate AllWritable(ts: seq<Tree>, p: Readers)
    decreases ts
  {
    ts == [] || (Writable(ts[0], p) && AllWritable(ts[1..], p))
  }

  // ---- the renderer ----

  /** A renderable value written; a float or a table is none, and what stands for it is never used. */
  function LitFor(v: Val): Lit {
    match v
    case Str(x) => LStr(Basic, x)
    case Int(n) => LInt(n)
    case Float(raw) => LStr(Basic, raw)
    case Bool(b) => LBool(b)
    case List(vs) => LList("", ElemsFor(vs))
    case Table(_) => LList("", [])
  }

  function ElemsFor(vs: seq<Val>): seq<Elem> {
    if vs == [] then [] else [Elem(LitFor(vs[0]), "", |vs| > 1, "")] + ElemsFor(vs[1..])
  }

  function LineFor(st: Stmt, tail: string): Line {
    match st
    case Header(path) => LHeader(path, tail)
    case Element(path) => LElement(path, tail)
    case Pair(key, v) => LPair(key, " ", " ", LitFor(v), tail)
  }

  function LinesFor(ss: seq<Stmt>, tail: string): seq<Line> {
    if ss == [] then [] else [LineFor(ss[0], tail)] + LinesFor(ss[1..], tail)
  }

  /** The document, each of its lines ended by `tail`. */
  function Lines(t: Tree, tail: string): string { LinesText(LinesFor(Stmts(t, []), tail), "") }

  function Render(t: Tree): string { Lines(t, "\n") }

  /** The document with a comment before it, and after each of its lines. */
  function RenderNoted(t: Tree, note: string): string {
    ("#" + note + "\n") + Lines(t, " #" + note + "\n")
  }

  // ---- what it writes is legal, and says what it should ----

  lemma {:induction false} LitForOk(v: Val, p: Readers)
    requires Renderable(v, p)
    ensures LitOk(LitFor(v), p) && ValOf(LitFor(v)) == v
    decreases v, 0
  {
    if v.List? {
      ElemsForOk(v.items, p);
      hide ElemsOk, AllRenderable, ValsOf, ElemsFor;
    }
  }

  lemma {:induction false} ElemsForOk(vs: seq<Val>, p: Readers)
    requires AllRenderable(vs, p)
    ensures ElemsOk(ElemsFor(vs), p) && ValsOf(ElemsFor(vs)) == vs
    ensures ElemsFor(vs) == [] <==> vs == []
    decreases vs
  {
    if vs != [] {
      LitForOk(vs[0], p);
      ElemsForOk(vs[1..], p);
      hide LitOk, ValOf, LitFor, Renderable;
      var es := ElemsFor(vs);
      assert es[0] == Elem(LitFor(vs[0]), "", |vs| > 1, "") && es[1..] == ElemsFor(vs[1..]);
      assert vs == [vs[0]] + vs[1..];
    }
  }

  predicate StmtOk(st: Stmt, p: Readers) {
    match st
    case Header(path) => PathOk(path, p)
    case Element(path) => PathOk(path, p)
    case Pair(key, v) => KeyOk(key, p) && Renderable(v, p)
  }

  predicate StmtsOk(ss: seq<Stmt>, p: Readers) {
    forall k :: 0 <= k < |ss| ==> StmtOk(ss[k], p)
  }

  /** What may end a line: whitespace and comments, and the first of them ends a number. */
  ghost predicate EndsLine(tail: string) {
    Gap(tail) && forall t :: NumEnd(tail + t)
  }

  lemma OneOk(st: Stmt, tail: string, p: Readers)
    requires StmtOk(st, p) && EndsLine(tail)
    ensures LineOk(LineFor(st, tail), p) && StmtOf(LineFor(st, tail)) == st
  {
    hide LitOk, LitFor, Renderable, KeyOk, PathOk, ValOf, Gap, NumEnd;
    if st.Pair? {
      LitForOk(st.value, p);
    }
  }

  lemma NewlineEndsLine()
    ensures EndsLine("\n") && Gap("")
  {
    assert "\n"[1..] == "";
    forall t ensures NumEnd("\n" + t) {
      assert ("\n" + t)[0] == '\n';
    }
  }

  /** So does any comment of one line, a space before it. */
  lemma NoteEndsLine(note: string)
    requires '\n' !in note
    ensures EndsLine(" #" + note + "\n") && Gap("#" + note + "\n")
  {
    hide Gap, NumEnd;
    var g, tail := "#" + note + "\n", " #" + note + "\n";
    NoteIsGap(note);
    assert tail[1..] == g && tail[0] == ' ' && tail[1] == '#';
    SpaceIsGap(tail);
    forall t ensures NumEnd(tail + t) {
      assert (tail + t)[0] == ' ' && (tail + t)[1] == '#';
      HashEndsNumber(tail + t);
    }
  }

  lemma NoteIsGap(note: string)
    requires '\n' !in note
    ensures Gap("#" + note + "\n")
  {
    var g := "#" + note + "\n";
    var k := |g| - 1;
    assert g[k] == '\n' && g[..k] == "#" + note;
    FirstIs(g, '\n', k);
    assert g[k + 1..] == "" && g[0] == '#';
  }

  lemma SpaceIsGap(g: string)
    requires g != "" && g[0] == ' ' && Gap(g[1..])
    ensures Gap(g)
  {
  }

  lemma HashEndsNumber(t: string)
    requires |t| > 1 && t[0] == ' ' && t[1] == '#'
    ensures NumEnd(t)
  {
    assert t[1..][0] == '#';
  }

  lemma {:induction false} LinesForOk(ss: seq<Stmt>, tail: string, p: Readers)
    requires StmtsOk(ss, p) && EndsLine(tail)
    ensures LinesOk(LinesFor(ss, tail), "", p) && StmtsOf(LinesFor(ss, tail)) == ss
  {
    hide LineOk, LineText, StmtOk, NumEnd, Gap, LinesFor, LinesOk, StmtsOf, LineFor, StmtOf, LinesText;
    LinesForStep(ss, tail);
    var ls := LinesFor(ss, tail);
    LinesStep(ls, p);
    if ss != [] {
      OneOk(ss[0], tail, p);
      LinesForOk(ss[1..], tail, p);
      assert ss == [ss[0]] + ss[1..];
    }
  }

  lemma LinesForStep(ss: seq<Stmt>, tail: string)
    ensures var ls := LinesFor(ss, tail);
            && (ss == [] ==> ls == [])
            && (ss != [] ==> ls != [] && ls[0] == LineFor(ss[0], tail) && ls[1..] == LinesFor(ss[1..], tail)
                             && ls[0].tail == tail)
  {
  }

  lemma LinesStep(ls: seq<Line>, p: Readers)
    ensures StmtsOf(ls) == if ls == [] then [] else [StmtOf(ls[0])] + StmtsOf(ls[1..])
    ensures ls == [] ==> LinesOk(ls, "", p)
    ensures ls != [] && LineOk(ls[0], p) && LinesOk(ls[1..], "", p) && (forall t :: NumEnd(ls[0].tail + t)) ==>
              LinesOk(ls, "", p)
  {
    hide LineOk, LineText, StmtOf, NumEnd, LinesText;
  }

  lemma {:induction false} TreeStmtsOk(t: Tree, path: seq<string>, p: Readers)
    requires Writable(t, p) && KeysOk(path, p)
    ensures StmtsOk(Stmts(t, path), p)
    decreases t, 0
  {
    hide StmtOk;
    PairStmtsOk(t.pairs, p);
    SubStmtsOk(t.subs, path, p);
  }

  predicate KeysOk(path: seq<string>, p: Readers) {
    forall k :: 0 <= k < |path| ==> KeyOk(path[k], p)
  }

  lemma {:induction false} PairStmtsOk(ps: seq<(string, Val)>, p: Readers)
    requires PairsWritable(ps, p)
    ensures StmtsOk(PairStmts(ps), p)
  {
    if ps != [] {
      PairStmtsOk(ps[1..], p);
      hide KeyOk, Renderable;
    }
  }

  lemma {:induction false} SubStmtsOk(ss: seq<Sub>, path: seq<string>, p: Readers)
    requires SubsWritable(ss, p) && KeysOk(path, p)
    ensures StmtsOk(SubStmts(ss, path), p)
    decreases ss
  {
    if ss != [] {
      hide KeyOk;
      SubStmtsOk(ss[1..], path, p);
      var sub := path + [ss[0].name];
      assert PathOk(sub, p) && KeysOk(sub, p);
      if ss[0].One? {
        TreeStmtsOk(ss[0].tree, sub, p);
      } else {
        ElementStmtsOk(ss[0].trees, sub, p);
      }
      hide Writable, AllWritable, PathOk;
    }
  }

  lemma {:induction false} ElementStmtsOk(ts: seq<Tree>, path: seq<string>, p: Readers)
    requires AllWritable(ts, p) && PathOk(path, p)
    ensures StmtsOk(ElementStmts(ts, path), p)
    decreases ts
  {
    if ts != [] {
      TreeStmtsOk(ts[0], path, p);
      ElementStmtsOk(ts[1..], path, p);
      hide Writable, PathOk;
    }
  }

  /** Every document of distinct legal keys and such values reads back from its lines, whatever
      whitespace and comments come before and end them. */
  lemma LinesReadBack(t: Tree, gap: string, tail: string, p: Readers)
    requires Sane(p) && Named(t) && Writable(t, p) && Gap(gap) && EndsLine(tail)
    ensures Loads(gap + Lines(t, tail), p) == Ok(TableOf(t), "")
  {
    hide *;
    KeysNone(p);
    TreeStmtsOk(t, [], p);
    LinesForOk(Stmts(t, []), tail, p);
    LoadsUndoes(t, gap, LinesFor(Stmts(t, []), tail), "", p);
    LinesIs(t, tail);
  }

  /** From its plain rendering. */
  lemma RenderReads(t: Tree, p: Readers)
    requires Sane(p) && Named(t) && Writable(t, p)
    ensures Loads(Render(t), p) == Ok(TableOf(t), "")
  {
    hide Loads, Lines, Sane, Named, Writable, EndsLine, Gap;
    NewlineEndsLine();
    LinesReadBack(t, "", "\n", p);
    assert "" + Lines(t, "\n") == Render(t);
  }

  /** And from its rendering with any comment of one line before it and after every line. */
  lemma NotedReads(t: Tree, note: string, p: Readers)
    requires Sane(p) && Named(t) && Writable(t, p) && '\n' !in note
    ensures Loads(RenderNoted(t, note), p) == Ok(TableOf(t), "")
  {
    hide Loads, Lines, Sane, Named, Writable, EndsLine, Gap;
    NoteEndsLine(note);
    LinesReadBack(t, "#" + note + "\n", " #" + note + "\n", p);
  }

  lemma KeysNone(p: Readers)
    ensures KeysOk([], p)
  {
  }

  lemma LinesIs(t: Tree, tail: string)
    ensures Lines(t, tail) == LinesText(LinesFor(Stmts(t, []), tail), "")
  {
  }
}
