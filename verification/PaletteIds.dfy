/** The ids palette states are filed under (device/device_canvas.py: _pal_state_id,
    _palgen): what equal ids promise over a whole run, and what reads them. */
module PaletteIds {
  import opened Options
  import opened Palette

  /** What an id stands for. */
  datatype Content = Content(pal: seq<nat>, palt: seq<nat>, screen: Option<seq<nat>>)

  function Blank(): Content { Content(Identity(), Opaque(), None) }

  function ContentOf(s: State): Content { Content(s.pal, s.palt, s.spal) }

  predicate WellFormedContent(c: Content) {
    IsRemap(c.pal) && IsMask(c.palt) && (c.screen.Some? ==> IsRemap(c.screen.value))
  }

  /** The content a key stands for: `KeyOf`'s inverse. */
  function Decode(k: Key): Content {
    match k
    case Small(code) =>
      if 0x10000 <= code < 0x11000 then
        var c, v := (code - 0x10000) / 64, (code - 0x10000) % 64;
        Content(Identity()[c := v], Opaque(), None)
      else if 0x20000 <= code < 0x20040 then
        Content(Identity(), Opaque()[code - 0x20000 := 1], None)
      else Blank()
    case Bytes(b) =>
      if |b| == 128 then Content(b[..64], b[64..], None)
      else if |b| == 192 then Content(b[..64], b[64..128], Some(b[128..]))
      else Blank()
  }

  lemma OneChanged(t: seq<nat>, stock: seq<nat>, c: nat)
    requires |t| == |stock| == 64 && c < 64 && Changed(t, stock) == {c as int}
    ensures t == stock[c := t[c]]
  {
    forall i | 0 <= i < 64 && i != c ensures t[i] == stock[i] {
      assert i !in Changed(t, stock);
    }
  }

  /** Keys determine content: no two states share a key, small or long. */
  lemma KeyDecodes(s: State)
    requires Composed(s)
    ensures KeyOf(s).None? <==> ContentOf(s) == Blank()
    ensures KeyOf(s).Some? ==> Decode(KeyOf(s).value) == ContentOf(s)
  {
    UnchangedIsStock(s.pal, Identity());
    UnchangedIsStock(s.palt, Opaque());
    if s.spal.None? {
      if s.paltDelta == 0 && s.palDelta == 1 && s.palSingle >= 0 {
        OneChanged(s.pal, Identity(), s.palSingle);
        SmallKeyParts(s.palSingle, s.pal[s.palSingle]);
      } else if s.palDelta == 0 && s.paltDelta == 1 && s.paltSingle >= 0 {
        OneChanged(s.palt, Opaque(), s.paltSingle);
        assert s.paltSingle in Changed(s.palt, Opaque());
      }
    }
  }

  lemma SmallKeyParts(c: nat, v: nat)
    requires c < 64 && v < 64
    ensures (c * 64 + v) / 64 == c && (c * 64 + v) % 64 == v
  {
  }

  // ---- the history of ids ----

  type History = map<nat, Content>

  ghost predicate KnownIds(s: State, h: History) {
    && (forall k :: k in s.ids ==> s.ids[k] in h && h[s.ids[k]] == Decode(k))
    && (forall id :: id in h ==> id < s.next && WellFormedContent(h[id]))
    && 0 in h && h[0] == Blank()
    && s.epoch in h && h[s.epoch] == Blank()
  }

  /** What is known of every id in use: one content each, and the current one's. */
  ghost predicate Known(s: State, h: History) {
    && KnownIds(s, h)
    && s.palgen in h && h[s.palgen] == ContentOf(s)
    && (ContentOf(s) == Blank() ==> s.palgen == s.epoch || s.palgen == 0)
  }

  /** An epoch's own id stands for the blank state, whether or not a state has held it. */
  function Extend(h: History, s: State): History { h[s.epoch := Blank()][s.palgen := ContentOf(s)] }

  ghost predicate Grows(h: History, h': History) {
    forall id :: id in h ==> id in h' && h'[id] == h[id]
  }

  /** `r` is `t` under the id its content was filed under, or a new one. */
  ghost predicate FiledFrom(t: State, r: State, h: History) {
    && ContentOf(r) == ContentOf(t) && r.epoch == t.epoch
    && (r.palgen in h ==> h[r.palgen] == ContentOf(t))
    && r.palgen < r.next && t.next <= r.next
    && (ContentOf(t) == Blank() ==> r.palgen == t.epoch)
    && forall k :: k in r.ids ==>
         (k in t.ids && r.ids[k] == t.ids[k]) || (r.ids[k] == r.palgen && Decode(k) == ContentOf(t))
  }

  lemma WithIdFiles(t: State, h: History)
    requires Composed(t) && KnownIds(t, h)
    ensures FiledFrom(t, WithId(t), h)
  {
    KeyDecodes(t);
    hide Decode, Compose, Folded, Counted;
  }

  lemma FiledIsKnown(t: State, r: State, h: History)
    requires KnownIds(t, h) && FiledFrom(t, r, h) && WellFormedContent(ContentOf(r))
    ensures Known(r, Extend(h, r)) && Grows(h, Extend(h, r))
  {
    hide Decode, WellFormedContent, Blank;
    var h' := Extend(h, r);
    assert Grows(h, h');
    forall k | k in r.ids ensures r.ids[k] in h' && h'[r.ids[k]] == Decode(k) {
      if !(r.ids[k] == r.palgen && Decode(k) == ContentOf(t)) {
        assert r.ids[k] == t.ids[k];
      }
    }
  }

  lemma ComposedContent(t: State)
    requires Composed(t)
    ensures |t.pal| == 64 && t.palSingle < 64 && WellFormedContent(ContentOf(WithId(t)))
  {
    hide WithId, Compose, Folded, Changed;
  }

  lemma WithIdKnown(t: State, h: History)
    requires Composed(t) && KnownIds(t, h)
    ensures var r := WithId(t); Known(r, Extend(h, r)) && Grows(h, Extend(h, r))
  {
    hide *;
    ComposedContent(t);
    WithIdFiles(t, h);
    FiledIsKnown(t, WithId(t), h);
  }

  /** What `Known` reads. */
  predicate SameFiling(s: State, t: State) {
    && s.ids == t.ids && s.next == t.next && s.epoch == t.epoch
    && s.palgen == t.palgen && ContentOf(s) == ContentOf(t)
  }

  lemma FilingIsEnough(s: State, t: State, h: History)
    requires SameFiling(s, t) && Known(t, Extend(h, t))
    ensures Known(s, Extend(h, s)) && Extend(h, s) == Extend(h, t)
  {
  }

  lemma PalKnown(s: State, c: nat, v: nat, h: History)
    requires Valid(s) && Known(s, h) && c < 64 && v < 64
    ensures Composed(WritePal(s, c, v))
    ensures var r := WithId(WritePal(s, c, v)); Known(r, Extend(h, r)) && Grows(h, Extend(h, r))
  {
    WritePalKeeps(s, c, v);
    WithIdKnown(WritePal(s, c, v), h);
  }

  lemma PaltKnown(s: State, i: nat, v: nat, h: History)
    requires Valid(s) && Known(s, h) && i < 64 && v <= 1
    ensures var r := WithId(WritePalt(s, i, v)); Known(r, Extend(h, r)) && Grows(h, Extend(h, r))
  {
    WritePaltKeeps(s, i, v);
    WithIdKnown(WritePalt(s, i, v), h);
  }

  lemma PaltResetKnown(s: State, h: History)
    requires Valid(s) && Known(s, h)
    ensures var r := DoPaltReset(s); Known(r, Extend(h, r)) && Grows(h, Extend(h, r))
  {
    ClearedPaltKeeps(s);
    ClearedPaltIds(s);
    hide *;
    SameIdsKnown(s, ClearedPalt(s), h);
    WithIdKnown(ClearedPalt(s), h);
    DoneIsFiled(ClearedPalt(s), DoPaltReset(s));
    FilingIsEnough(DoPaltReset(s), WithId(ClearedPalt(s)), h);
  }

  lemma PalResetKnown(s: State, h: History)
    requires Valid(s) && Known(s, h)
    ensures var r := DoPalReset(s); Known(r, Extend(h, r)) && Grows(h, Extend(h, r))
  {
    ClearedPalKeeps(s);
    ClearedPalIds(s);
    hide *;
    SameIdsKnown(s, ClearedPal(s), h);
    WithIdKnown(ClearedPal(s), h);
    DoneIsFiled(ClearedPal(s), DoPalReset(s));
    FilingIsEnough(DoPalReset(s), WithId(ClearedPal(s)), h);
  }

  lemma ClearedPalIds(s: State)
    requires Valid(s)
    ensures var t := ClearedPal(s); SameIds(s, t) && DoPalReset(s) == WithId(t).(dirty := true)
  {
    ClearedPalKeeps(s);
    hide WithId, Compose, Folded, Composed;
  }

  lemma ClearedPaltIds(s: State)
    requires Valid(s)
    ensures var t := ClearedPalt(s); SameIds(s, t) && DoPaltReset(s) == WithId(t).(dirty := true)
  {
    ClearedPaltKeeps(s);
    hide WithId, Compose, Folded, Composed;
  }

  predicate SameIds(s: State, t: State) {
    s.ids == t.ids && s.next == t.next && s.epoch == t.epoch && s.wireBase == t.wireBase
  }

  lemma SameIdsKnown(s: State, t: State, h: History)
    requires SameIds(s, t) && Known(s, h)
    ensures KnownIds(t, h)
  {
  }

  /** What follows the filing does not touch it. */
  lemma DoneIsFiled(t: State, r: State)
    requires |t.pal| == 64 && t.palSingle < 64 && r == WithId(t).(dirty := true)
    ensures SameFiling(r, WithId(t))
  {
    hide WithId;
  }

  /** The id is taken before the gate table is rebuilt, and does not read that table. */
  lemma GateIsNotKeyed(t: State, gate: seq<nat>)
    requires |t.pal| == 64 && t.palSingle < 64
    ensures WithId(t.(gatePal := gate)) == WithId(t).(gatePal := gate)
  {
    assert KeyOf(t) == KeyOf(t.(gatePal := gate));
  }

  lemma ScreenedIds(s: State, c: nat, v: nat)
    requires Valid(s) && c < 64 && v < 64
    ensures var t := Screened(s, c, v);
            var u := t.(gatePal := Compose(t.wire, s.pal));
            && SameIds(s, u) && Composed(u)
            && SameFiling(WithId(t).(wirePalGen := -1, gatePal := u.gatePal, dirty := true), WithId(u))
  {
    ScreenedKeeps(s, c, v);
    var t := Screened(s, c, v);
    GateIsNotKeyed(t, Compose(t.wire, s.pal));
    hide WithId, Compose, Folded, Counted, IsRemap, IsMask;
  }

  lemma ScreenKnown(s: State, c0: int, c1: int, h: History)
    requires Valid(s) && Known(s, h)
    ensures var r := DoScreen(s, c0, c1); Known(r, Extend(h, r)) && Grows(h, Extend(h, r))
  {
    var c, v := c0 % 64, c1 % 64;
    ScreenedIds(s, c, v);
    ScreenedKeeps(s, c, v);
    var t := Screened(s, c, v);
    var u := t.(gatePal := Compose(t.wire, s.pal));
    assert DoScreen(s, c0, c1) == WithId(t).(wirePalGen := -1, gatePal := u.gatePal, dirty := true);
    hide *;
    SameIdsKnown(s, u, h);
    WithIdKnown(u, h);
    FilingIsEnough(DoScreen(s, c0, c1), WithId(u), h);
  }

  lemma ResetKnown(s: State, h: History)
    requires Valid(s) && Known(s, h)
    ensures var r := DoReset(s); Known(r, Extend(h, r)) && Grows(h, Extend(h, r))
  {
    var r := DoReset(s);
    assert Extend(h, r) == h;
  }

  /** The state whose id the setter takes, with its gate table already rebuilt. */
  function Rebased(s: State, words: seq<nat>): State
    requires Valid(s) && |words| == 64
  {
    var wire := Folded(words, s.spal);
    s.(wireBase := words, wire := wire, gatePal := Compose(wire, s.pal),
       ids := map[], epoch := s.next, next := s.next + 1)
  }

  lemma SetPaletteTakesId(s: State, words: seq<nat>)
    requires Valid(s) && |words| == 64
    ensures Composed(Rebased(s, words))
    ensures SameFiling(DoSetPalette(s, words), WithId(Rebased(s, words)))
  {
    hide WithId, KeyOf;
    var wire := Folded(words, s.spal);
    GateIsNotKeyed(s.(wireBase := words, wire := wire, ids := map[], epoch := s.next, next := s.next + 1),
                   Compose(wire, s.pal));
  }

  lemma SetPaletteKnown(s: State, words: seq<nat>, h: History)
    requires Valid(s) && Known(s, h)
    ensures var r := DoSetPalette(s, words); Known(r, Extend(h, r)) && Grows(h, Extend(h, r))
  {
    if |words| != 64 {
      assert Extend(h, s) == h;
    } else {
      var u := Rebased(s, words);
      var h' := h[s.next := Blank()];
      SetPaletteTakesId(s, words);
      NewEpochKnown(s, u, h);
      WithIdKnown(u, h');
      NewEpochFiled(DoSetPalette(s, words), WithId(u), h, h');
    }
  }

  lemma NewEpochFiled(r: State, u: State, h: History, h': History)
    requires SameFiling(r, u) && h' == h[r.epoch := Blank()] && Grows(h, h')
    requires Known(u, Extend(h', u)) && Grows(h', Extend(h', u))
    ensures Known(r, Extend(h, r)) && Grows(h, Extend(h, r))
  {
    assert Extend(h, r) == Extend(h', u);
  }

  lemma NewEpochKnown(s: State, u: State, h: History)
    requires KnownIds(s, h) && u.ids == map[] && u.epoch == s.next && u.next == s.next + 1
    ensures KnownIds(u, h[s.next := Blank()]) && Grows(h, h[s.next := Blank()])
  {
  }

  lemma WirePalKnown(s: State, h: History)
    requires Valid(s) && Known(s, h)
    ensures var r := DoWirePal(s); Known(r, Extend(h, r)) && Grows(h, Extend(h, r))
  {
    assert Extend(h, s) == h;
    FilingIsEnough(DoWirePal(s), s, h);
  }

  lemma DoPalKnown(s: State, c0: int, c1: int, h: History)
    requires Valid(s) && Known(s, h)
    ensures var r := DoPal(s, c0, c1); Known(r, Extend(h, r)) && Grows(h, Extend(h, r))
  {
    WritePalKeeps(s, c0 % 64, c1 % 64);
    hide WithId, KeyOf, Known, Grows, Extend, WritePal;
    PalKnown(s, c0 % 64, c1 % 64, h);
    FilingIsEnough(DoPal(s, c0, c1), WithId(WritePal(s, c0 % 64, c1 % 64)), h);
  }

  lemma DoPaltKnown(s: State, c: int, on: bool, h: History)
    requires Valid(s) && Known(s, h)
    ensures var r := DoPalt(s, c, on); Known(r, Extend(h, r)) && Grows(h, Extend(h, r))
  {
    WritePaltKeeps(s, c % 64, if on then 1 else 0);
    hide WithId, KeyOf, Known, Grows, Extend, WritePalt;
    PaltKnown(s, c % 64, if on then 1 else 0, h);
    FilingIsEnough(DoPalt(s, c, on), WithId(WritePalt(s, c % 64, if on then 1 else 0)), h);
  }

  /** Each verb files its state under an id that stood for that content or for nothing. */
  lemma StepKnown(s: State, op: Op, h: History)
    requires Valid(s) && Known(s, h)
    ensures Known(Step(s, op), Extend(h, Step(s, op)))
    ensures Grows(h, Extend(h, Step(s, op)))
  {
    hide *;
    StepUnfolds(s, op);
    match op
    case Pal(c0, c1) => DoPalKnown(s, c0, c1, h);
    case PalReset => PalResetKnown(s, h);
    case Screen(c0, c1) => ScreenKnown(s, c0, c1, h);
    case Palt(c, on) => DoPaltKnown(s, c, on, h);
    case PaltReset => PaltResetKnown(s, h);
    case Reset => ResetKnown(s, h);
    case SetPalette(words) => SetPaletteKnown(s, words, h);
    case WirePal => WirePalKnown(s, h);
  }

  // ---- whole runs ----

  function Run(s: State, ops: seq<Op>): (r: State)
    requires Valid(s)
    ensures Valid(r)
  {
    if ops == [] then s
    else
      var r := Run(s, ops[..|ops| - 1]);
      StepKeeps(r, ops[|ops| - 1]);
      Step(r, ops[|ops| - 1])
  }

  function Ids(s: State, ops: seq<Op>): History
    requires Valid(s)
  {
    if ops == [] then map[s.palgen := ContentOf(s)]
    else Extend(Ids(s, ops[..|ops| - 1]), Run(s, ops))
  }

  /** A new canvas. */
  function New(stock: seq<nat>): (s: State)
    requires |stock| == 64
    ensures Valid(s)
  {
    InitialValid(stock);
    Initial(stock)
  }

  lemma {:induction false} RunKnown(stock: seq<nat>, ops: seq<Op>)
    requires |stock| == 64
    ensures Known(Run(New(stock), ops), Ids(New(stock), ops))
  {
    if ops != [] {
      RunKnown(stock, ops[..|ops| - 1]);
      StepKnown(Run(New(stock), ops[..|ops| - 1]), ops[|ops| - 1], Ids(New(stock), ops[..|ops| - 1]));
    }
  }

  /** Whatever a session draws with, no more than sixty-five states are ever learned at once. */
  lemma {:induction false} LearnedBounded(stock: seq<nat>, ops: seq<Op>)
    requires |stock| == 64
    ensures |Run(New(stock), ops).ids| <= 65
  {
    if ops != [] {
      LearnedBounded(stock, ops[..|ops| - 1]);
      StepLearns(Run(New(stock), ops[..|ops| - 1]), ops[|ops| - 1]);
      hide Step;
    }
  }

  lemma StepLearns(s: State, op: Op)
    requires Valid(s) && |s.ids| <= 65
    ensures |Step(s, op).ids| <= 65
  {
    hide WithId, Compose, Recount, Valid, Folded;
  }

  lemma {:induction false} MomentsAreFiled(stock: seq<nat>, ops: seq<Op>, i: nat)
    requires |stock| == 64 && i <= |ops|
    ensures var s, h := Run(New(stock), ops[..i]), Ids(New(stock), ops);
            s.palgen in h && h[s.palgen] == ContentOf(s)
  {
    hide Valid, Step;
    if i == |ops| {
      assert ops[..i] == ops;
      RunKnown(stock, ops);
    } else {
      var head := ops[..|ops| - 1];
      MomentsAreFiled(stock, head, i);
      assert head[..i] == ops[..i];
      RunKnown(stock, head);
      StepKnown(Run(New(stock), head), ops[|ops| - 1], Ids(New(stock), head));
    }
  }

  /** Ids never alias: over any run of the verbs, palette swaps included, two moments
      with the same id have the same draw, transparency and screen tables. */
  lemma IdsNeverAlias(stock: seq<nat>, ops: seq<Op>, i: nat, j: nat)
    requires |stock| == 64 && i <= |ops| && j <= |ops|
    ensures Run(New(stock), ops[..i]).palgen == Run(New(stock), ops[..j]).palgen ==>
              ContentOf(Run(New(stock), ops[..i])) == ContentOf(Run(New(stock), ops[..j]))
  {
    MomentsAreFiled(stock, ops, i);
    MomentsAreFiled(stock, ops, j);
  }

  predicate Swaps(op: Op) { op.SetPalette? && |op.words| == 64 }

  lemma {:induction false} EpochIsZero(stock: seq<nat>, ops: seq<Op>)
    requires |stock| == 64 && forall k :: 0 <= k < |ops| ==> !Swaps(ops[k])
    ensures Run(New(stock), ops).epoch == 0 && Run(New(stock), ops).wireBase == stock
  {
    if ops != [] {
      EpochIsZero(stock, ops[..|ops| - 1]);
      OnlySwapsMoveBase(Run(New(stock), ops[..|ops| - 1]), ops[|ops| - 1]);
    }
  }

  /** With no palette swapped in, id 0 is the identity state and nothing else. */
  lemma ZeroIsIdentity(stock: seq<nat>, ops: seq<Op>)
    requires |stock| == 64 && forall k :: 0 <= k < |ops| ==> !Swaps(ops[k])
    ensures Run(New(stock), ops).palgen == 0 <==> ContentOf(Run(New(stock), ops)) == Blank()
  {
    RunKnown(stock, ops);
    EpochIsZero(stock, ops);
  }

  // ---- ids across palette swaps ----

  /** Ids tell palettes apart over a run: equal ids mean equal tables, the base included. */
  ghost predicate IdsTellPalettes(stock: seq<nat>, ops: seq<Op>)
    requires |stock| == 64
  {
    forall i, j :: 0 <= i <= |ops| && 0 <= j <= |ops| ==>
      var s, t := Run(New(stock), ops[..i]), Run(New(stock), ops[..j]);
      s.palgen == t.palgen ==> LookOf(s) == LookOf(t)
  }

  /** The reset that writes id 0 while another palette's table is in place. */
  predicate ForgetsPalette(s: State, op: Op, stock: seq<nat>) {
    op.Reset? && s.dirty && s.wireBase != stock
  }

  type Bases = map<nat, seq<nat>>

  ghost predicate BaseKnown(s: State, b: Bases, stock: seq<nat>) {
    && (forall k :: k in s.ids ==> s.ids[k] in b && b[s.ids[k]] == s.wireBase)
    && (forall id :: id in b ==> id < s.next)
    && 0 in b && b[0] == stock
    && s.epoch in b && b[s.epoch] == s.wireBase
    && s.palgen in b && b[s.palgen] == s.wireBase
  }

  function ExtendBases(b: Bases, s: State): Bases { b[s.epoch := s.wireBase][s.palgen := s.wireBase] }

  ghost predicate BasesGrow(b: Bases, b': Bases) {
    forall id :: id in b ==> id in b' && b'[id] == b[id]
  }

  /** Where an id comes from: it stays, or it is filed, the epoch's, or new. */
  ghost predicate IdMoves(s: State, r: State) {
    && r.epoch == s.epoch && r.wireBase == s.wireBase
    && (r.palgen == s.palgen || r.palgen == s.epoch || (exists k :: k in s.ids && s.ids[k] == r.palgen)
        || r.palgen == s.next < r.next)
    && s.next <= r.next
    && forall k :: k in r.ids ==> (k in s.ids && r.ids[k] == s.ids[k]) || r.ids[k] == r.palgen
  }

  lemma WithIdMoves(s: State, t: State)
    requires |t.pal| == 64 && t.palSingle < 64
    requires SameIds(s, t)
    ensures IdMoves(s, WithId(t))
  {
  }

  lemma PalIdMoves(s: State, c0: int, c1: int)
    requires Valid(s)
    ensures IdMoves(s, DoPal(s, c0, c1))
  {
    WritePalIds(s, c0 % 64, c1 % 64);
    var t := WritePal(s, c0 % 64, c1 % 64);
    assert DoPal(s, c0, c1) == WithId(t).(dirty := true);
    hide *;
    WithIdMoves(s, t);
    MovesDone(s, WithId(t));
  }

  lemma WritePalIds(s: State, c: nat, v: nat)
    requires Valid(s) && c < 64 && v < 64
    ensures var t := WritePal(s, c, v);
            SameIds(s, t) && |t.pal| == 64 && t.palSingle < 64 && t.palgen == s.palgen
  {
  }

  lemma MovesDone(s: State, r: State)
    requires IdMoves(s, r)
    ensures IdMoves(s, r.(dirty := true))
  {
  }

  lemma PalResetIdMoves(s: State)
    requires Valid(s)
    ensures IdMoves(s, DoPalReset(s))
  {
    ClearedPalIds(s);
    ClearedPalKeeps(s);
    hide WithId, KeyOf, ClearedPal, DoPalReset;
    WithIdMoves(s, ClearedPal(s));
  }

  lemma ScreenIdMoves(s: State, c0: int, c1: int)
    requires Valid(s)
    ensures IdMoves(s, DoScreen(s, c0, c1))
  {
    hide WithId, KeyOf, Compose, Folded;
    WithIdMoves(s, Screened(s, c0 % 64, c1 % 64));
  }

  lemma PaltIdMoves(s: State, c: int, on: bool)
    requires Valid(s)
    ensures IdMoves(s, DoPalt(s, c, on))
  {
    WithIdMoves(s, WritePalt(s, c % 64, if on then 1 else 0));
    hide WithId, KeyOf, Compose, Folded;
  }

  lemma PaltResetIdMoves(s: State)
    requires Valid(s)
    ensures IdMoves(s, DoPaltReset(s))
  {
    ClearedPaltIds(s);
    ClearedPaltKeeps(s);
    hide WithId, KeyOf, ClearedPalt, DoPaltReset;
    WithIdMoves(s, ClearedPalt(s));
  }

  lemma OtherIdMoves(s: State, op: Op)
    requires Valid(s) && !Swaps(op) && !(op.Reset? && s.dirty)
    requires op.Reset? || op.SetPalette? || op.WirePal?
    ensures IdMoves(s, Step(s, op))
  {
    hide WithId, KeyOf, Compose, Folded;
  }

  /** Every verb but a palette swap and a dirty reset takes its id that way. */
  lemma StepIdMoves(s: State, op: Op)
    requires Valid(s) && !Swaps(op) && !(op.Reset? && s.dirty)
    ensures IdMoves(s, Step(s, op))
  {
    hide *;
    StepUnfolds(s, op);
    match op
    case Pal(c0, c1) => PalIdMoves(s, c0, c1);
    case PalReset => PalResetIdMoves(s);
    case Screen(c0, c1) => ScreenIdMoves(s, c0, c1);
    case Palt(c, on) => PaltIdMoves(s, c, on);
    case PaltReset => PaltResetIdMoves(s);
    case Reset => OtherIdMoves(s, op);
    case SetPalette(_) => OtherIdMoves(s, op);
    case WirePal => OtherIdMoves(s, op);
  }

  lemma OnlySwapsMoveBase(s: State, op: Op)
    requires Valid(s) && !Swaps(op)
    ensures Step(s, op).epoch == s.epoch && Step(s, op).wireBase == s.wireBase
  {
    if !(op.Reset? && s.dirty) {
      StepIdMoves(s, op);
    }
  }

  lemma MovesKeepBase(s: State, r: State, b: Bases, stock: seq<nat>)
    requires BaseKnown(s, b, stock) && IdMoves(s, r)
    ensures BaseKnown(r, ExtendBases(b, r), stock) && BasesGrow(b, ExtendBases(b, r))
  {
  }

  lemma SwapKeepsBase(s: State, words: seq<nat>, b: Bases, stock: seq<nat>)
    requires Valid(s) && BaseKnown(s, b, stock) && |words| == 64
    ensures var r := DoSetPalette(s, words);
            BaseKnown(r, ExtendBases(b, r), stock) && BasesGrow(b, ExtendBases(b, r))
  {
    SetPaletteTakesId(s, words);
    var u, b' := Rebased(s, words), b[s.next := words];
    assert b'[u.epoch] == u.wireBase;
    assert BaseKnown(u.(palgen := u.epoch), b', stock);
    WithIdMoves(u.(palgen := u.epoch), u);
    MovesKeepBase(u.(palgen := u.epoch), WithId(u), b', stock);
    var r := DoSetPalette(s, words);
    assert ExtendBases(b, r) == ExtendBases(b', WithId(u));
  }

  /** Short of a forgetful reset, a verb's id is one filed under its own base, or new. */
  lemma StepBase(s: State, op: Op, b: Bases, stock: seq<nat>)
    requires Valid(s) && BaseKnown(s, b, stock) && !ForgetsPalette(s, op, stock)
    ensures var r := Step(s, op);
            BaseKnown(r, ExtendBases(b, r), stock) && BasesGrow(b, ExtendBases(b, r))
  {
    if Swaps(op) {
      SwapKeepsBase(s, op.words, b, stock);
    } else if op.Reset? && s.dirty {
      assert ExtendBases(b, Step(s, op)) == b;
    } else {
      StepIdMoves(s, op);
      MovesKeepBase(s, Step(s, op), b, stock);
    }
  }

  function RunBases(s: State, ops: seq<Op>): Bases
    requires Valid(s)
  {
    if ops == [] then map[s.palgen := s.wireBase]
    else ExtendBases(RunBases(s, ops[..|ops| - 1]), Run(s, ops))
  }

  /** No reset in the run forgets a palette. */
  ghost predicate Remembers(stock: seq<nat>, ops: seq<Op>)
    requires |stock| == 64
  {
    forall k :: 0 <= k < |ops| ==> !ForgetsPalette(Run(New(stock), ops[..k]), ops[k], stock)
  }

  lemma RemembersPrefix(stock: seq<nat>, ops: seq<Op>)
    requires |stock| == 64 && ops != [] && Remembers(stock, ops)
    ensures Remembers(stock, ops[..|ops| - 1])
    ensures !ForgetsPalette(Run(New(stock), ops[..|ops| - 1]), ops[|ops| - 1], stock)
  {
    hide Run, ForgetsPalette, New;
    var head := ops[..|ops| - 1];
    forall k | 0 <= k < |head| ensures !ForgetsPalette(Run(New(stock), head[..k]), head[k], stock) {
      assert head[..k] == ops[..k];
    }
  }

  lemma {:induction false} RunBaseKnown(stock: seq<nat>, ops: seq<Op>)
    requires |stock| == 64 && Remembers(stock, ops)
    ensures BaseKnown(Run(New(stock), ops), RunBases(New(stock), ops), stock)
  {
    if ops != [] {
      RemembersPrefix(stock, ops);
      RunBaseKnown(stock, ops[..|ops| - 1]);
      StepBase(Run(New(stock), ops[..|ops| - 1]), ops[|ops| - 1],
               RunBases(New(stock), ops[..|ops| - 1]), stock);
    }
  }

  lemma {:induction false} MomentsKnowBase(stock: seq<nat>, ops: seq<Op>, i: nat)
    requires |stock| == 64 && Remembers(stock, ops) && i <= |ops|
    ensures var s, b := Run(New(stock), ops[..i]), RunBases(New(stock), ops);
            s.palgen in b && b[s.palgen] == s.wireBase
  {
    if i == |ops| {
      assert ops[..i] == ops;
      RunBaseKnown(stock, ops);
    } else {
      var head := ops[..|ops| - 1];
      RemembersPrefix(stock, ops);
      MomentsKnowBase(stock, head, i);
      assert head[..i] == ops[..i];
      RunBaseKnown(stock, head);
      StepBase(Run(New(stock), head), ops[|ops| - 1], RunBases(New(stock), head), stock);
    }
  }

  lemma RunStep(s: State, ops: seq<Op>, k: nat)
    requires Valid(s) && k < |ops|
    ensures Run(s, ops[..k + 1]) == Step(Run(s, ops[..k]), ops[k])
  {
    hide Valid, Step;
    assert ops[..k + 1][..k] == ops[..k];
  }

  lemma RememberedIdsTell(stock: seq<nat>, ops: seq<Op>, i: nat, j: nat)
    requires |stock| == 64 && Remembers(stock, ops) && i <= |ops| && j <= |ops|
    ensures Run(New(stock), ops[..i]).palgen == Run(New(stock), ops[..j]).palgen ==>
              LookOf(Run(New(stock), ops[..i])) == LookOf(Run(New(stock), ops[..j]))
  {
    MomentsKnowBase(stock, ops, i);
    MomentsKnowBase(stock, ops, j);
    IdsNeverAlias(stock, ops, i, j);
  }

  lemma RunNothing(s: State, ops: seq<Op>)
    requires Valid(s)
    ensures Run(s, ops[..0]) == s
  {
  }

  lemma ResetForgets(s: State, op: Op, stock: seq<nat>)
    requires Valid(s) && ForgetsPalette(s, op, stock)
    ensures Step(s, op).palgen == 0 && Step(s, op).wireBase != stock
  {
  }

  lemma ForgottenIdsAlias(stock: seq<nat>, ops: seq<Op>, k: nat)
    requires |stock| == 64 && k < |ops| && ForgetsPalette(Run(New(stock), ops[..k]), ops[k], stock)
    ensures !IdsTellPalettes(stock, ops)
  {
    hide Valid, Step, Redo, Run;
    var s, t := Run(New(stock), ops[..0]), Run(New(stock), ops[..k + 1]);
    RunStep(New(stock), ops, k);
    ResetForgets(Run(New(stock), ops[..k]), ops[k], stock);
    RunNothing(New(stock), ops);
    assert LookOf(s).base == stock && LookOf(t).base == t.wireBase;
  }

  /** Exactly when ids can be trusted across palette swaps: over a run, equal ids mean
      equal tables, base included, if and only if no dirty reset_state came while a base
      other than the stock table was in place. */
  lemma IdsTellPalettesExactly(stock: seq<nat>, ops: seq<Op>)
    requires |stock| == 64
    ensures IdsTellPalettes(stock, ops) <==> Remembers(stock, ops)
  {
    if Remembers(stock, ops) {
      forall i, j | 0 <= i <= |ops| && 0 <= j <= |ops|
                    && Run(New(stock), ops[..i]).palgen == Run(New(stock), ops[..j]).palgen
        ensures LookOf(Run(New(stock), ops[..i])) == LookOf(Run(New(stock), ops[..j]))
      {
        RememberedIdsTell(stock, ops, i, j);
      }
    } else {
      var k :| 0 <= k < |ops| && ForgetsPalette(Run(New(stock), ops[..k]), ops[k], stock);
      ForgottenIdsAlias(stock, ops, k);
    }
  }

  lemma SwapThenPal(s: State, words: seq<nat>)
    requires Valid(s) && |words| == 64
    ensures var t := Step(s, SetPalette(words));
            Valid(t) && Step(t, Pal(1, 2)).wireBase == words && Step(t, Pal(1, 2)).dirty
  {
    StepKeeps(s, SetPalette(words));
    hide Valid, Composed, WithId, WritePal, Compose, Folded;
    OnlySwapsMoveBase(Step(s, SetPalette(words)), Pal(1, 2));
  }

  lemma ForgetfulState(stock: seq<nat>, words: seq<nat>)
    requires |stock| == |words| == 64 && words != stock
    ensures var ops := [SetPalette(words), Pal(1, 2), Reset];
            && Run(New(stock), ops[..2]).wireBase == words && ForgetsPalette(Run(New(stock), ops[..2]), ops[2], stock)
  {
    hide Valid, Step, Run;
    var ops := [SetPalette(words), Pal(1, 2), Reset];
    RunStep(New(stock), ops, 0);
    RunStep(New(stock), ops, 1);
    RunNothing(New(stock), ops);
    SwapThenPal(New(stock), words);
  }

  /** A run that forgets: a cart palette, a remap, a frame's reset. Its id 0 is the
      stock canvas's id 0 too. */
  lemma ForgetfulRun(stock: seq<nat>, words: seq<nat>)
    requires |stock| == |words| == 64 && words != stock
    ensures !IdsTellPalettes(stock, [SetPalette(words), Pal(1, 2), Reset])
  {
    ForgetfulState(stock, words);
    ForgottenIdsAlias(stock, [SetPalette(words), Pal(1, 2), Reset], 2);
    hide ForgetsPalette, Run, IdsTellPalettes;
  }

  // ---- the table the fills read ----

  /** `_wire_pal_arr` is what its id's content resolved to under the base in place. */
  ghost predicate CacheKnown(s: State, h: History) {
    s.wirePalGen >= 0 ==>
      && s.wirePalGen in h && WellFormedContent(h[s.wirePalGen]) && |s.wireBase| == 64
      && s.wirePalArr == Some(Compose(Folded(s.wireBase, h[s.wirePalGen].screen), h[s.wirePalGen].pal))
  }

  lemma StepCache(s: State, op: Op, h: History)
    requires Valid(s) && Known(s, h) && CacheKnown(s, h)
    ensures CacheKnown(Step(s, op), Extend(h, Step(s, op)))
  {
    StepKnown(s, op, h);
    StepKeepsCache(s, op);
    if !Swaps(op) {
      OnlySwapsMoveBase(s, op);
    }
  }

  /** A verb leaves the cached table as it was, discards it, or is the one that fills it. */
  lemma StepKeepsCache(s: State, op: Op)
    requires Valid(s)
    ensures var r := Step(s, op);
            || r.wirePalGen == -1
            || (!Swaps(op) && r.wirePalGen == s.wirePalGen && r.wirePalArr == s.wirePalArr)
            || (op.WirePal? && r.wirePalGen == s.palgen == r.palgen
                && r.wirePalArr == Some(Compose(s.wire, s.pal)))
  {
  }

  lemma {:induction false} RunCacheKnown(stock: seq<nat>, ops: seq<Op>)
    requires |stock| == 64
    ensures CacheKnown(Run(New(stock), ops), Ids(New(stock), ops))
  {
    if ops != [] {
      var head := ops[..|ops| - 1];
      RunCacheKnown(stock, head);
      RunKnown(stock, head);
      StepCache(Run(New(stock), head), ops[|ops| - 1], Ids(New(stock), head));
    }
  }

  /** After any run, palette swaps and resets included, `_wire_pal` returns the current
      composition of base, screen and draw palette. */
  lemma WirePalIsCurrent(stock: seq<nat>, ops: seq<Op>)
    requires |stock| == 64
    ensures var s := Run(New(stock), ops);
            DoWirePal(s).wirePalArr == Some(Lut(LookOf(s)))
  {
    RunKnown(stock, ops);
    RunCacheKnown(stock, ops);
  }
}
