/** Nested documents through the reader (tools/board_config.py:184-226): tables, arrays of
    tables and values, written as statements and read back whole. A path leads through the last
    table of a list; a statement changes what is at its path and nothing else; a table's
    statements, in order, build that table there. */
module TomlDocs {
  import opened Options
  import opened Toml
  import opened TomlText

  // ---- paths ----

  lemma {:induction false} PutGet(root: Val, path: seq<string>, v: Val)
    requires NodeAt(root, path).Some? && v.Table?
    ensures NodeAt(WithNode(root, path, v), path) == Some(v)
    decreases |path|
  {
    if path != [] {
      var next := root.entries[path[0]];
      PutGet(if next.List? then next.items[|next.items| - 1] else next, path[1..], v);
      if !next.List? {
        PutIsNoList(next, path[1..], v);
      }
    }
  }

  lemma PutIsNoList(root: Val, path: seq<string>, v: Val)
    requires NodeAt(root, path).Some? && v.Table?
    ensures WithNode(root, path, v).Table?
  {
  }

  lemma {:induction false} PutPut(root: Val, path: seq<string>, v: Val, w: Val)
    requires NodeAt(root, path).Some? && v.Table?
    ensures NodeAt(WithNode(root, path, v), path).Some?
    ensures WithNode(WithNode(root, path, v), path, w) == WithNode(root, path, w)
    decreases |path|
  {
    PutGet(root, path, v);
    if path != [] {
      var next := root.entries[path[0]];
      if next.List? {
        var k := |next.items| - 1;
        PutPut(next.items[k], path[1..], v, w);
        assert next.items[k := WithNode(next.items[k], path[1..], v)][k := WithNode(next.items[k], path[1..], w)]
               == next.items[k := WithNode(next.items[k], path[1..], w)];
      } else {
        PutIsNoList(next, path[1..], v);
        PutPut(next, path[1..], v, w);
      }
    }
  }

  lemma {:induction false} GetPut(root: Val, path: seq<string>)
    requires NodeAt(root, path).Some?
    ensures WithNode(root, path, NodeAt(root, path).value) == root
    decreases |path|
  {
    if path != [] {
      var next := root.entries[path[0]];
      if next.List? {
        var k := |next.items| - 1;
        GetPut(next.items[k], path[1..]);
        assert next.items[k := next.items[k]] == next.items;
      } else {
        GetPut(next, path[1..]);
      }
      assert root.entries[path[0] := next] == root.entries;
    }
  }

  /** What a key of a table leads to: the last of a list. */
  function Below(m: map<string, Val>, k: string): Option<Val>
  {
    if k !in m then None
    else if !m[k].List? then Some(m[k])
    else if m[k].items == [] then None
    else Some(m[k].items[|m[k].items| - 1])
  }

  function PutBelow(m: map<string, Val>, k: string, v: Val): map<string, Val>
    requires Below(m, k).Some?
  {
    if m[k].List? then m[k := List(m[k].items[|m[k].items| - 1 := v])] else m[k := v]
  }

  lemma {:induction false} OneDown(root: Val, path: seq<string>, k: string, m: map<string, Val>)
    requires NodeAt(root, path) == Some(Table(m))
    ensures NodeAt(root, path + [k]) == Below(m, k)
    ensures Below(m, k).Some? ==> forall v :: WithNode(root, path + [k], v) == WithNode(root, path, Table(PutBelow(m, k, v)))
    decreases |path|
  {
    if path == [] {
      assert [] + [k] == [k] && [k][1..] == [];
    } else {
      var next := root.entries[path[0]];
      assert (path + [k])[1..] == path[1..] + [k];
      OneDown(if next.List? then next.items[|next.items| - 1] else next, path[1..], k, m);
      hide Below, PutBelow;
    }
  }

  /** Descending to what is there makes nothing. */
  lemma {:induction false} DescendThere(root: Val, path: seq<string>)
    requires NodeAt(root, path).Some?
    ensures Descended(root, path) == Some(root)
    decreases |path|
  {
    if path != [] {
      var next := root.entries[path[0]];
      if next.List? {
        var k := |next.items| - 1;
        DescendThere(next.items[k], path[1..]);
        assert next.items[k := next.items[k]] == next.items;
      } else {
        DescendThere(next, path[1..]);
      }
      assert root.entries[path[0] := next] == root.entries;
    }
  }

  /** Descending one key further makes an empty table there. */
  lemma {:induction false} DescendNew(root: Val, path: seq<string>, k: string, m: map<string, Val>)
    requires NodeAt(root, path) == Some(Table(m)) && k !in m
    ensures Descended(root, path + [k]) == Some(WithNode(root, path, Table(m[k := Table(map[])])))
    decreases |path|
  {
    if path == [] {
      assert [] + [k] == [k] && [k][1..] == [];
      assert Descended(Table(map[]), []) == Some(Table(map[]));
    } else {
      var next := root.entries[path[0]];
      assert (path + [k])[1..] == path[1..] + [k];
      DescendNew(if next.List? then next.items[|next.items| - 1] else next, path[1..], k, m);
    }
  }

  // ---- documents ----

  /** A document: its own pairs, then its tables and arrays of tables. */
  datatype Tree = Tree(pairs: seq<(string, Val)>, subs: seq<Sub>)

  datatype Sub = One(name: string, tree: Tree) | Many(name: string, trees: seq<Tree>)

  function PairEntries(ps: seq<(string, Val)>, m: map<string, Val>): map<string, Val> {
    if ps == [] then m else PairEntries(ps[1..], m[ps[0].0 := ps[0].1])
  }

  /** The nested tables a document is. */
  function TableOf(t: Tree): Val
    decreases t, 0
  {
    Table(SubEntries(t.subs, PairEntries(t.pairs, map[])))
  }

  function SubEntries(ss: seq<Sub>, m: map<string, Val>): map<string, Val>
    decreases ss
  {
    if ss == [] then m
    else SubEntries(ss[1..], m[ss[0].name := if ss[0].One? then TableOf(ss[0].tree) else List(TablesOf(ss[0].trees))])
  }

  function TablesOf(ts: seq<Tree>): seq<Val>
    decreases ts
  {
    if ts == [] then [] else [TableOf(ts[0])] + TablesOf(ts[1..])
  }

  /** The statements that write it, under the path it sits at. */
  function Stmts(t: Tree, path: seq<string>): seq<Stmt>
    decreases t, 0
  {
    PairStmts(t.pairs) + SubStmts(t.subs, path)
  }

  function PairStmts(ps: seq<(string, Val)>): seq<Stmt> {
    if ps == [] then [] else [Pair(ps[0].0, ps[0].1)] + PairStmts(ps[1..])
  }

  function SubStmts(ss: seq<Sub>, path: seq<string>): seq<Stmt>
    decreases ss
  {
    if ss == [] then []
    else
      (if ss[0].One? then [Header(path + [ss[0].name])] + Stmts(ss[0].tree, path + [ss[0].name])
       else ElementStmts(ss[0].trees, path + [ss[0].name]))
      + SubStmts(ss[1..], path)
  }

  function ElementStmts(ts: seq<Tree>, path: seq<string>): seq<Stmt>
    decreases ts
  {
    if ts == [] then [] else [Element(path)] + Stmts(ts[0], path) + ElementStmts(ts[1..], path)
  }

  /** Every table names each of its keys once, and every array of tables has one. */
  predicate Named(t: Tree)
    decreases t, 0
  {
    Distinct(PairKeys(t.pairs) + SubKeys(t.subs)) && SubsNamed(t.subs)
  }

  predicate SubsNamed(ss: seq<Sub>)
    decreases ss
  {
    ss == [] || (SubsNamed(ss[1..])
                 && if ss[0].One? then Named(ss[0].tree) else ss[0].trees != [] && AllNamed(ss[0].trees))
  }

  predicate AllNamed(ts: seq<Tree>)
    decreases ts
  {
    ts == [] || (Named(ts[0]) && AllNamed(ts[1..]))
  }

  predicate Distinct(s: seq<string>) { forall i, j :: 0 <= i < j < |s| ==> s[i] != s[j] }

  function PairKeys(ps: seq<(string, Val)>): (r: seq<string>)
    ensures |r| == |ps| && forall i :: 0 <= i < |ps| ==> r[i] == ps[i].0
  {
    seq(|ps|, i requires 0 <= i < |ps| => ps[i].0)
  }

  function SubKeys(ss: seq<Sub>): (r: seq<string>)
    ensures |r| == |ss| && forall i :: 0 <= i < |ss| ==> r[i] == ss[i].name
  {
    seq(|ss|, i requires 0 <= i < |ss| => ss[i].name)
  }

  predicate Wellformed(ss: seq<Stmt>) {
    forall k :: 0 <= k < |ss| ==> ss[k].Element? ==> ss[k].path != []
  }

  function ApplySeq(d: Doc, ss: seq<Stmt>): Option<Doc>
    requires Wellformed(ss)
    decreases |ss|
  {
    if ss == [] then Some(d)
    else
      match Apply(d, ss[0])
      case None => None
      case Some(next) => ApplySeq(next, ss[1..])
  }

  lemma {:induction false} ApplyConcat(d: Doc, a: seq<Stmt>, b: seq<Stmt>)
    requires Wellformed(a) && Wellformed(b)
    ensures Wellformed(a + b)
    ensures ApplySeq(d, a + b) == match ApplySeq(d, a) case None => None case Some(e) => ApplySeq(e, b)
    decreases |a|
  {
    if a == [] {
      assert [] + b == b;
    } else {
      assert (a + b)[1..] == a[1..] + b && (a + b)[0] == a[0];
      if Apply(d, a[0]).Some? {
        ApplyConcat(Apply(d, a[0]).value, a[1..], b);
      }
    }
  }

  // ---- what the statements of a document do ----

  lemma {:induction false} StmtsWellformed(t: Tree, path: seq<string>)
    ensures Wellformed(Stmts(t, path))
    decreases t, 0
  {
    PairsWellformed(t.pairs);
    SubsWellformed(t.subs, path);
  }

  lemma {:induction false} PairsWellformed(ps: seq<(string, Val)>)
    ensures Wellformed(PairStmts(ps))
  {
    if ps != [] {
      PairsWellformed(ps[1..]);
    }
  }

  lemma {:induction false} SubsWellformed(ss: seq<Sub>, path: seq<string>)
    ensures Wellformed(SubStmts(ss, path))
    decreases ss
  {
    if ss != [] {
      SubsWellformed(ss[1..], path);
      if ss[0].One? {
        StmtsWellformed(ss[0].tree, path + [ss[0].name]);
      } else {
        ElementsWellformed(ss[0].trees, path + [ss[0].name]);
      }
    }
  }

  lemma {:induction false} ElementsWellformed(ts: seq<Tree>, path: seq<string>)
    requires path != []
    ensures Wellformed(ElementStmts(ts, path))
    decreases ts
  {
    if ts != [] {
      StmtsWellformed(ts[0], path);
      ElementsWellformed(ts[1..], path);
    }
  }

  /** The run of statements leaves `want` where the path leads, the rest as it was. */
  ghost predicate Leaves(d: Doc, ss: seq<Stmt>, path: seq<string>, want: Val) {
    && Wellformed(ss) && NodeAt(d.root, path).Some?
    && ApplySeq(d, ss).Some? && ApplySeq(d, ss).value.root == WithNode(d.root, path, want)
  }

  lemma LeavesNothing(d: Doc, path: seq<string>, v: Val)
    requires NodeAt(d.root, path) == Some(v)
    ensures Leaves(d, [], path, v)
  {
    GetPut(d.root, path);
  }

  /** Two runs, one after the other. */
  lemma LeavesBoth(d: Doc, a: seq<Stmt>, b: seq<Stmt>, path: seq<string>, v: Val, w: Val)
    requires Leaves(d, a, path, v) && v.Table? && Leaves(ApplySeq(d, a).value, b, path, w)
    ensures Leaves(d, a + b, path, w)
  {
    ApplyConcat(d, a, b);
    PutPut(d.root, path, v, w);
    hide ApplySeq, WithNode, NodeAt;
  }

  lemma LeavesThere(d: Doc, a: seq<Stmt>, path: seq<string>, v: Val)
    requires Leaves(d, a, path, v) && v.Table?
    ensures NodeAt(ApplySeq(d, a).value.root, path) == Some(v)
  {
    PutGet(d.root, path, v);
    hide ApplySeq;
  }

  lemma OneStmt(d: Doc, st: Stmt)
    requires st.Element? ==> st.path != []
    ensures Wellformed([st]) && ApplySeq(d, [st]) == Apply(d, st)
  {
    assert [st][1..] == [];
    hide Apply;
    if Apply(d, st).Some? {
      assert ApplySeq(Apply(d, st).value, []) == Some(Apply(d, st).value);
    }
  }

  lemma {:induction false} PairsApply(root: Val, path: seq<string>, ps: seq<(string, Val)>, m: map<string, Val>)
    requires NodeAt(root, path) == Some(Table(m))
    ensures Leaves(Doc(root, path), PairStmts(ps), path, Table(PairEntries(ps, m)))
    ensures ApplySeq(Doc(root, path), PairStmts(ps)).value.cur == path
    decreases |ps|
  {
    PairsWellformed(ps);
    if ps == [] {
      LeavesNothing(Doc(root, path), path, Table(m));
    } else {
      var n := m[ps[0].0 := ps[0].1];
      var st := Pair(ps[0].0, ps[0].1);
      var next := Doc(WithNode(root, path, Table(n)), path);
      assert Apply(Doc(root, path), st) == Some(next);
      PutGet(root, path, Table(n));
      PairsApply(next.root, path, ps[1..], n);
      PutPut(root, path, Table(n), Table(PairEntries(ps[1..], n)));
      hide Apply, NodeAt, WithNode;
      assert PairStmts(ps)[1..] == PairStmts(ps[1..]);
    }
  }

  /** A table's header makes it empty where nothing was. */
  lemma HeaderApplies(d: Doc, path: seq<string>, k: string, m: map<string, Val>)
    requires NodeAt(d.root, path) == Some(Table(m)) && k !in m
    ensures var r := WithNode(d.root, path, Table(m[k := Table(map[])]));
            Apply(d, Header(path + [k])) == Some(Doc(r, path + [k]))
            && NodeAt(r, path) == Some(Table(m[k := Table(map[])])) && NodeAt(r, path + [k]) == Some(Table(map[]))
  {
    DescendNew(d.root, path, k, m);
    PutGet(d.root, path, Table(m[k := Table(map[])]));
    OneDown(WithNode(d.root, path, Table(m[k := Table(map[])])), path, k, m[k := Table(map[])]);
    hide Descended, NodeAt, WithNode;
  }

  function Listed(m: map<string, Val>, k: string): seq<Val> {
    if k in m && m[k].List? then m[k].items else []
  }

  /** An element's header adds an empty table to the list there, or begins one. */
  lemma ElementApplies(d: Doc, path: seq<string>, k: string, m: map<string, Val>)
    requires NodeAt(d.root, path) == Some(Table(m)) && (k in m ==> m[k].List?)
    ensures var n := m[k := List(Listed(m, k) + [Table(map[])])];
            var r := WithNode(d.root, path, Table(n));
            Apply(d, Element(path + [k])) == Some(Doc(r, path + [k]))
            && NodeAt(r, path) == Some(Table(n)) && NodeAt(r, path + [k]) == Some(Table(map[]))
  {
    var n := m[k := List(Listed(m, k) + [Table(map[])])];
    assert (path + [k])[..|path + [k]| - 1] == path && (path + [k])[|path + [k]| - 1] == k;
    DescendThere(d.root, path);
    PutGet(d.root, path, Table(n));
    OneDown(WithNode(d.root, path, Table(n)), path, k, n);
    hide Descended, NodeAt, WithNode;
  }

  /** What a document leaves one key down is left in its parent's entry. */
  lemma LeavesUp(d: Doc, ss: seq<Stmt>, path: seq<string>, k: string, m: map<string, Val>, v: Val)
    requires NodeAt(d.root, path) == Some(Table(m)) && Below(m, k).Some? && Leaves(d, ss, path + [k], v)
    ensures Leaves(d, ss, path, Table(PutBelow(m, k, v)))
  {
    OneDown(d.root, path, k, m);
    hide ApplySeq, NodeAt, WithNode, PutBelow, Below;
  }

  /** The statements of a document leave its nested tables where its path leads. */
  lemma {:induction false} TreeApplies(root: Val, path: seq<string>, t: Tree)
    requires NodeAt(root, path) == Some(Table(map[])) && Named(t)
    ensures Leaves(Doc(root, path), Stmts(t, path), path, TableOf(t))
    decreases t, 1
  {
    var m := PairEntries(t.pairs, map[]);
    var d := Doc(root, path);
    PairsApply(root, path, t.pairs, map[]);
    LeavesThere(d, PairStmts(t.pairs), path, Table(m));
    NamesFree(t);
    hide Leaves, ApplySeq, NodeAt, WithNode, PairEntries, Distinct;
    SubsApply(ApplySeq(d, PairStmts(t.pairs)).value, path, t.subs, m);
    LeavesBoth(d, PairStmts(t.pairs), SubStmts(t.subs, path), path, Table(m), Table(SubEntries(t.subs, m)));
  }

  ghost predicate Free(ss: seq<Sub>, m: map<string, Val>) {
    Distinct(SubKeys(ss)) && forall i :: 0 <= i < |ss| ==> ss[i].name !in m
  }

  lemma {:induction false} OtherKeysOut(ps: seq<(string, Val)>, m: map<string, Val>, k: string)
    requires k !in m && forall i :: 0 <= i < |ps| ==> ps[i].0 != k
    ensures k !in PairEntries(ps, m)
    decreases |ps|
  {
    if ps != [] {
      OtherKeysOut(ps[1..], m[ps[0].0 := ps[0].1], k);
    }
  }

  lemma NamesFree(t: Tree)
    requires Named(t)
    ensures Free(t.subs, PairEntries(t.pairs, map[])) && SubsNamed(t.subs)
  {
    var ks := PairKeys(t.pairs) + SubKeys(t.subs);
    forall i, j | 0 <= i < j < |t.subs| ensures SubKeys(t.subs)[i] != SubKeys(t.subs)[j] {
      assert ks[|t.pairs| + i] != ks[|t.pairs| + j];
    }
    forall i | 0 <= i < |t.subs| ensures t.subs[i].name !in PairEntries(t.pairs, map[]) {
      forall j | 0 <= j < |t.pairs| ensures t.pairs[j].0 != t.subs[i].name {
        assert ks[j] != ks[|t.pairs| + i];
      }
      OtherKeysOut(t.pairs, map[], t.subs[i].name);
    }
  }

  lemma FreeRest(ss: seq<Sub>, m: map<string, Val>, v: Val)
    requires Free(ss, m) && ss != [] && SubsNamed(ss)
    ensures Free(ss[1..], m[ss[0].name := v]) && SubsNamed(ss[1..]) && ss[0].name !in m
  {
    assert SubKeys(ss[1..]) == SubKeys(ss)[1..];
    forall i | 0 <= i < |ss[1..]| ensures ss[1..][i].name !in m[ss[0].name := v] {
      assert SubKeys(ss)[0] != SubKeys(ss)[i + 1];
    }
  }

  lemma {:induction false} SubsApply(d: Doc, path: seq<string>, ss: seq<Sub>, m: map<string, Val>)
    requires NodeAt(d.root, path) == Some(Table(m)) && Free(ss, m) && SubsNamed(ss)
    ensures Leaves(d, SubStmts(ss, path), path, Table(SubEntries(ss, m)))
    decreases ss, 0
  {
    if ss == [] {
      LeavesNothing(d, path, Table(m));
    } else {
      var k := ss[0].name;
      var v := if ss[0].One? then TableOf(ss[0].tree) else List(TablesOf(ss[0].trees));
      var first := if ss[0].One? then [Header(path + [k])] + Stmts(ss[0].tree, path + [k])
                   else ElementStmts(ss[0].trees, path + [k]);
      var n := m[k := v];
      FreeRest(ss, m, v);
      assert SubStmts(ss, path) == first + SubStmts(ss[1..], path) && SubEntries(ss, m) == SubEntries(ss[1..], n);
      if ss[0].One? {
        OneApplies(d, path, k, ss[0].tree, m);
      } else {
        ElementsApply(d, path, k, ss[0].trees, m);
        NoneListed(m, k, TablesOf(ss[0].trees));
      }
      hide Leaves, ApplySeq, NodeAt, WithNode, Stmts, ElementStmts, Free;
      LeavesThere(d, first, path, Table(n));
      SubsApply(ApplySeq(d, first).value, path, ss[1..], n);
      LeavesBoth(d, first, SubStmts(ss[1..], path), path, Table(n), Table(SubEntries(ss[1..], n)));
    }
  }

  lemma NoneListed(m: map<string, Val>, k: string, vs: seq<Val>)
    requires k !in m
    ensures Listed(m, k) + vs == vs
  {
  }

  lemma {:induction false} OneApplies(d: Doc, path: seq<string>, k: string, t: Tree, m: map<string, Val>)
    requires NodeAt(d.root, path) == Some(Table(m)) && k !in m && Named(t)
    ensures Leaves(d, [Header(path + [k])] + Stmts(t, path + [k]), path, Table(m[k := TableOf(t)]))
    decreases t, 2
  {
    var st := Header(path + [k]);
    var n := m[k := Table(map[])];
    HeaderApplies(d, path, k, m);
    OneStmt(d, st);
    var next := Doc(WithNode(d.root, path, Table(n)), path + [k]);
    assert Leaves(d, [st], path, Table(n));
    hide Leaves, ApplySeq, Apply, NodeAt, WithNode, Named, Stmts, PutBelow, TableOf;
    TreeApplies(next.root, path + [k], t);
    LeavesUp(next, Stmts(t, path + [k]), path, k, n, TableOf(t));
    assert PutBelow(n, k, TableOf(t)) == m[k := TableOf(t)];
    LeavesBoth(d, [st], Stmts(t, path + [k]), path, Table(n), Table(m[k := TableOf(t)]));
  }

  lemma {:induction false} ElementsApply(d: Doc, path: seq<string>, k: string, ts: seq<Tree>, m: map<string, Val>)
    requires NodeAt(d.root, path) == Some(Table(m)) && (k in m ==> m[k].List?) && (ts == [] ==> k in m) && AllNamed(ts)
    ensures Leaves(d, ElementStmts(ts, path + [k]), path, Table(m[k := List(Listed(m, k) + TablesOf(ts))]))
    decreases ts, 0
  {
    if ts == [] {
      assert Listed(m, k) + [] == Listed(m, k) && m[k := List(Listed(m, k))] == m;
      LeavesNothing(d, path, Table(m));
    } else {
      hide Leaves, ApplySeq, NodeAt, WithNode, Stmts, ElementStmts, TableOf, TablesOf, Listed;
      var v := TableOf(ts[0]);
      var first := [Element(path + [k])] + Stmts(ts[0], path + [k]);
      var n := m[k := List(Listed(m, k) + [v])];
      ElementApply(d, path, k, ts[0], m);
      ElementsUnfold(ts, path + [k]);
      ListedMore(m, k, v, TablesOf(ts[1..]));
      LeavesThere(d, first, path, Table(n));
      ElementsApply(ApplySeq(d, first).value, path, k, ts[1..], n);
      LeavesBoth(d, first, ElementStmts(ts[1..], path + [k]), path, Table(n),
                 Table(n[k := List(Listed(n, k) + TablesOf(ts[1..]))]));
    }
  }

  lemma ElementsUnfold(ts: seq<Tree>, path: seq<string>)
    requires ts != [] && path != []
    ensures ElementStmts(ts, path) == ([Element(path)] + Stmts(ts[0], path)) + ElementStmts(ts[1..], path)
    ensures TablesOf(ts) == [TableOf(ts[0])] + TablesOf(ts[1..])
  {
    hide Stmts, TableOf;
  }

  lemma ListedMore(m: map<string, Val>, k: string, v: Val, vs: seq<Val>)
    requires k in m ==> m[k].List?
    ensures var n := m[k := List(Listed(m, k) + [v])];
            n[k := List(Listed(n, k) + vs)] == m[k := List(Listed(m, k) + ([v] + vs))]
  {
    assert (Listed(m, k) + [v]) + vs == Listed(m, k) + ([v] + vs);
  }

  /** The list's last table filled in place of the empty one. */
  lemma ListedLast(m: map<string, Val>, k: string, v: Val)
    requires k in m ==> m[k].List?
    ensures var n := m[k := List(Listed(m, k) + [Table(map[])])];
            PutBelow(n, k, v) == m[k := List(Listed(m, k) + [v])]
  {
    assert (Listed(m, k) + [Table(map[])])[|Listed(m, k)| := v] == Listed(m, k) + [v];
  }

  lemma {:induction false} ElementApply(d: Doc, path: seq<string>, k: string, t: Tree, m: map<string, Val>)
    requires NodeAt(d.root, path) == Some(Table(m)) && (k in m ==> m[k].List?) && Named(t)
    ensures Leaves(d, [Element(path + [k])] + Stmts(t, path + [k]), path, Table(m[k := List(Listed(m, k) + [TableOf(t)])]))
    decreases t, 2
  {
    var st := Element(path + [k]);
    var n := m[k := List(Listed(m, k) + [Table(map[])])];
    ElementApplies(d, path, k, m);
    OneStmt(d, st);
    var next := Doc(WithNode(d.root, path, Table(n)), path + [k]);
    assert Leaves(d, [st], path, Table(n));
    hide Leaves, ApplySeq, Apply, NodeAt, WithNode, Named, Stmts;
    TreeApplies(next.root, path + [k], t);
    LeavesUp(next, Stmts(t, path + [k]), path, k, n, TableOf(t));
    ListedLast(m, k, TableOf(t));
    LeavesBoth(d, [st], Stmts(t, path + [k]), path, Table(n), Table(m[k := List(Listed(m, k) + [TableOf(t)])]));
  }

  // ---- the round trip ----

  function StmtsOf(ls: seq<Line>): seq<Stmt> {
    if ls == [] then [] else [StmtOf(ls[0])] + StmtsOf(ls[1..])
  }

  lemma {:induction false} LinesApply(d: Doc, ls: seq<Line>)
    requires Wellformed(StmtsOf(ls))
    ensures Pathed(ls) && ApplyAll(d, ls) == ApplySeq(d, StmtsOf(ls))
    decreases |ls|
  {
    LinesPathed(ls);
    if ls != [] {
      assert StmtsOf(ls)[1..] == StmtsOf(ls[1..]);
      var next := Apply(d, StmtOf(ls[0]));
      if next.Some? {
        LinesApply(next.value, ls[1..]);
      }
      hide Apply;
    }
  }

  lemma {:induction false} LinesPathed(ls: seq<Line>)
    requires Wellformed(StmtsOf(ls))
    ensures Pathed(ls)
  {
    if ls != [] {
      assert StmtsOf(ls)[1..] == StmtsOf(ls[1..]) && StmtsOf(ls)[0] == StmtOf(ls[0]);
      LinesPathed(ls[1..]);
    }
  }

  /** Reading undoes writing: a document of tables, arrays of tables and values, written as
      its statements with any string forms, comments and whitespace, reads back as itself. */
  lemma LoadsUndoes(t: Tree, gap: string, ls: seq<Line>, finish: string, p: Readers)
    requires Named(t) && StmtsOf(ls) == Stmts(t, [])
    requires Sane(p) && Gap(gap) && LinesOk(ls, finish, p)
    ensures Loads(gap + LinesText(ls, finish), p) == Ok(TableOf(t), "")
  {
    var d := Doc(Table(map[]), []);
    StmtsWellformed(t, []);
    LinesApply(d, ls);
    LinesRead(gap, ls, finish, d, p);
    TreeApplies(Table(map[]), [], t);
    hide Parse, ApplySeq, ApplyAll, LinesOk, LinesText, Stmts, Named;
  }
}
