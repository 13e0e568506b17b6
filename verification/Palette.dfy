/** The canvas's colour tables (device/device_canvas.py:822-1221): a draw palette and a
    transparency table over a screen palette over a base table, the mirrors kept of
    their composition, and the content-keyed ids the sprite bakes are filed under. */
module Palette {
  import opened Options

  // ---- the simple form: four tables, composed at each use ----

  /** What a colour resolves through. */
  datatype Look = Look(pal: seq<nat>, palt: seq<nat>, screen: Option<seq<nat>>, base: seq<nat>)

  function Identity(): (r: seq<nat>)
    ensures |r| == 64 && forall i :: 0 <= i < 64 ==> r[i] == i
  {
    seq(64, (i: nat) => i)
  }

  function Opaque(): (r: seq<nat>)
    ensures |r| == 64 && forall i :: 0 <= i < 64 ==> r[i] == 0
  {
    seq(64, _ => 0)
  }

  predicate IsRemap(t: seq<nat>) {
    |t| == 64 && forall i :: 0 <= i < 64 ==> t[i] < 64
  }

  predicate IsMask(t: seq<nat>) {
    |t| == 64 && forall i :: 0 <= i < 64 ==> t[i] <= 1
  }

  predicate WellFormed(l: Look) {
    && IsRemap(l.pal) && IsMask(l.palt) && |l.base| == 64
    && (l.screen.Some? ==> IsRemap(l.screen.value))
  }

  function Compose(words: seq<nat>, t: seq<nat>): (r: seq<nat>)
    requires |words| == 64 && IsRemap(t)
    ensures |r| == 64 && forall i :: 0 <= i < 64 ==> r[i] == words[t[i]]
  {
    seq(64, i requires 0 <= i < 64 => words[t[i]])
  }

  function Folded(base: seq<nat>, screen: Option<seq<nat>>): (r: seq<nat>)
    requires |base| == 64 && (screen.Some? ==> IsRemap(screen.value))
    ensures |r| == 64
  {
    if screen.Some? then Compose(base, screen.value) else base
  }

  /** The 64 words the draw indices resolve to. */
  function Lut(l: Look): (r: seq<nat>)
    requires WellFormed(l)
    ensures |r| == 64
  {
    Compose(Folded(l.base, l.screen), l.pal)
  }

  datatype Op =
    | Pal(c0: int, c1: int)
    | PalReset
    | Screen(c0: int, c1: int)
    | Palt(c: int, on: bool)
    | PaltReset
    | Reset
    | SetPalette(words: seq<nat>)
    | WirePal

  /** What each verb does to the look of what is drawn next. */
  function Redo(l: Look, op: Op): Look
    requires WellFormed(l)
  {
    match op
    case Pal(c0, c1) => l.(pal := l.pal[c0 % 64 := c1 % 64])
    case PalReset => l.(pal := Identity(), screen := None)
    case Screen(c0, c1) =>
      var sp := if l.screen.Some? then l.screen.value else Identity();
      l.(screen := Some(sp[c0 % 64 := c1 % 64]))
    case Palt(c, on) => l.(palt := l.palt[c % 64 := if on then 1 else 0])
    case PaltReset => l.(palt := Opaque())
    case Reset => l.(pal := Identity(), palt := Opaque(), screen := None)
    case SetPalette(words) => if |words| == 64 then l.(base := words) else l
    case WirePal => l
  }

  // ---- the fast form ----

  /** A palette state's key: a small integer for one changed entry, else the bytes. */
  datatype Key = Small(code: nat) | Bytes(content: seq<nat>)

  datatype State = State(
    pal: seq<nat>, palt: seq<nat>, spal: Option<seq<nat>>,
    wireBase: seq<nat>, wire: seq<nat>, gatePal: seq<nat>,
    wirePalArr: Option<seq<nat>>, wirePalGen: int,
    palDelta: int, paltDelta: int, palSingle: int, paltSingle: int,
    ids: map<Key, nat>, next: nat, epoch: nat, palgen: nat, dirty: bool)

  /** A new canvas, its first reset_state done. */
  function Initial(stock: seq<nat>): State {
    State(Identity(), Opaque(), None, stock, stock, stock, None, -1,
          0, 0, -1, -1, map[], 1, 0, 0, false)
  }

  function KeyOf(s: State): Option<Key>
    requires |s.pal| == 64 && s.palSingle < 64
  {
    if s.spal.Some? then Some(Bytes(s.pal + s.palt + s.spal.value))
    else if s.palDelta == 0 && s.paltDelta == 0 then None
    else if s.paltDelta == 0 && s.palDelta == 1 && s.palSingle >= 0 then
      Some(Small(0x10000 + s.palSingle * 64 + s.pal[s.palSingle]))
    else if s.palDelta == 0 && s.paltDelta == 1 && s.paltSingle >= 0 then
      Some(Small(0x20000 + s.paltSingle))
    else Some(Bytes(s.pal + s.palt))
  }

  /** `_pal_state_id`: the id of the content `s` now holds, learned if it is new. */
  function WithId(s: State): (r: State)
    requires |s.pal| == 64 && s.palSingle < 64
    ensures r == s.(palgen := r.palgen, ids := r.ids, next := r.next)
    ensures |r.ids| <= |s.ids| || |r.ids| <= 65
  {
    match KeyOf(s)
    case None => s.(palgen := s.epoch)
    case Some(key) =>
      if key in s.ids then s.(palgen := s.ids[key])
      else
        var ids := if |s.ids| > 64 then map[] else s.ids;
        s.(palgen := s.next, ids := ids[key := s.next], next := s.next + 1)
  }

  function Unfold(s: State): State
    requires IsRemap(s.pal) && |s.wireBase| == 64
  {
    s.(spal := None, wire := s.wireBase, wirePalGen := -1, gatePal := Compose(s.wireBase, s.pal))
  }

  /** The count and the named entry after entry `c`, which differs from `v`, takes it. */
  function Recount(t: seq<nat>, stock: seq<nat>, c: nat, v: nat, delta: int, single: int): (int, int)
    requires |t| == |stock| == 64 && c < 64
  {
    if (t[c] != stock[c]) == (v != stock[c]) then (delta, single)
    else if v != stock[c] then (delta + 1, if delta + 1 == 1 then c else -2)
    else (delta - 1, if delta - 1 != 0 then -2 else -1)
  }

  function WritePal(s: State, c: nat, v: nat): State
    requires Valid(s) && c < 64 && v < 64
  {
    if s.pal[c] == v then s
    else
      var n := Recount(s.pal, Identity(), c, v, s.palDelta, s.palSingle);
      s.(pal := s.pal[c := v], gatePal := s.gatePal[c := s.wire[v]], palDelta := n.0, palSingle := n.1)
  }

  function DoPal(s: State, c0: int, c1: int): State
    requires Valid(s)
  {
    WritePalKeeps(s, c0 % 64, c1 % 64);
    WithId(WritePal(s, c0 % 64, c1 % 64)).(dirty := true)
  }

  function ClearedPal(s: State): State
    requires Valid(s)
  {
    var t := if s.spal.Some? then Unfold(s) else s;
    var u := if s.palDelta != 0 then t.(pal := Identity(), palDelta := 0, gatePal := t.wire) else t;
    u.(palSingle := -1)
  }

  function DoPalReset(s: State): State
    requires Valid(s)
  {
    WithId(ClearedPal(s)).(dirty := true)
  }

  function Screened(s: State, c: nat, v: nat): State
    requires Valid(s) && c < 64 && v < 64
  {
    var sp := if s.spal.Some? then s.spal.value else Identity();
    s.(spal := Some(sp[c := v]), wire := (if s.spal.Some? then s.wire else s.wireBase)[c := s.wireBase[v]])
  }

  function DoScreen(s: State, c0: int, c1: int): State
    requires Valid(s)
  {
    var t := Screened(s, c0 % 64, c1 % 64);
    WithId(t).(wirePalGen := -1, gatePal := Compose(t.wire, s.pal), dirty := true)
  }

  function WritePalt(s: State, i: nat, v: nat): State
    requires Valid(s) && i < 64
  {
    if s.palt[i] == v then s
    else
      var n := Recount(s.palt, Opaque(), i, v, s.paltDelta, s.paltSingle);
      s.(palt := s.palt[i := v], paltDelta := n.0, paltSingle := n.1)
  }

  function DoPalt(s: State, c: int, on: bool): State
    requires Valid(s)
  {
    WithId(WritePalt(s, c % 64, if on then 1 else 0)).(dirty := true)
  }

  function ClearedPalt(s: State): State
    requires Valid(s)
  {
    (if s.paltDelta != 0 then s.(palt := Opaque(), paltDelta := 0) else s).(paltSingle := -1)
  }

  function DoPaltReset(s: State): State
    requires Valid(s)
  {
    WithId(ClearedPalt(s)).(dirty := true)
  }

  /** `reset_state`'s palette half. It writes id 0, not the palette's epoch. */
  function DoReset(s: State): State
    requires Valid(s)
  {
    var t := if s.spal.Some? then Unfold(s) else s;
    if !t.dirty then t
    else t.(dirty := false, pal := Identity(), palt := Opaque(), palgen := 0, palDelta := 0,
            paltDelta := 0, palSingle := -1, paltSingle := -1, gatePal := t.wire)
  }

  /** The `palette` setter, given the table's 64 wire words. */
  function DoSetPalette(s: State, words: seq<nat>): State
    requires Valid(s)
  {
    if |words| != 64 then s
    else
      var wire := Folded(words, s.spal);
      var t := WithId(s.(wireBase := words, wire := wire, ids := map[], epoch := s.next, next := s.next + 1));
      t.(wirePalGen := -1, gatePal := Compose(wire, s.pal))
  }

  /** `_wire_pal`: the resolved table, rebuilt only when the id has moved. */
  function DoWirePal(s: State): State
    requires Valid(s)
  {
    if s.wirePalGen != s.palgen || s.wirePalArr.None?
    then s.(wirePalArr := Some(Compose(s.wire, s.pal)), wirePalGen := s.palgen)
    else s
  }

  function Step(s: State, op: Op): State
    requires Valid(s)
  {
    match op
    case Pal(c0, c1) => DoPal(s, c0, c1)
    case PalReset => DoPalReset(s)
    case Screen(c0, c1) => DoScreen(s, c0, c1)
    case Palt(c, on) => DoPalt(s, c, on)
    case PaltReset => DoPaltReset(s)
    case Reset => DoReset(s)
    case SetPalette(words) => DoSetPalette(s, words)
    case WirePal => DoWirePal(s)
  }

  // ---- what every step keeps ----

  function Changed(a: seq<nat>, b: seq<nat>): set<int>
    requires |a| == |b| == 64
  {
    set i | 0 <= i < 64 && a[i] != b[i]
  }

  /** `delta` counts the changed entries and `single`, when it names one, names the only one. */
  predicate Counted(t: seq<nat>, stock: seq<nat>, delta: int, single: int)
    requires |t| == |stock| == 64
  {
    && delta == |Changed(t, stock)|
    && -2 <= single < 64
    && (single == -1 <==> delta == 0)
    && (single >= 0 ==> Changed(t, stock) == {single})
  }

  function LookOf(s: State): Look {
    Look(s.pal, s.palt, s.spal, s.wireBase)
  }

  predicate Composed(s: State) {
    && WellFormed(LookOf(s))
    && s.wire == Folded(s.wireBase, s.spal)
    && s.gatePal == Compose(s.wire, s.pal)
    && Counted(s.pal, Identity(), s.palDelta, s.palSingle)
    && Counted(s.palt, Opaque(), s.paltDelta, s.paltSingle)
  }

  /** The tables stay composed and counted, and are the identity while nothing is dirty. */
  predicate Valid(s: State) {
    && Composed(s)
    && (!s.dirty ==> s.pal == Identity() && s.palt == Opaque() && s.spal.None?)
  }

  lemma UnchangedIsStock(t: seq<nat>, stock: seq<nat>)
    requires |t| == |stock| == 64
    ensures |Changed(t, stock)| == 0 <==> t == stock
  {
    if |Changed(t, stock)| == 0 {
      forall i | 0 <= i < 64 ensures t[i] == stock[i] {
        assert i !in Changed(t, stock);
      }
    } else {
      var i :| i in Changed(t, stock);
    }
  }

  /** `Recount` keeps the count and the named entry right. */
  lemma RecountCounts(t: seq<nat>, stock: seq<nat>, c: nat, v: nat, delta: int, single: int)
    requires |t| == |stock| == 64 && c < 64 && t[c] != v
    requires Counted(t, stock, delta, single)
    ensures var n := Recount(t, stock, c, v, delta, single);
            Counted(t[c := v], stock, n.0, n.1)
  {
    var was, now := t[c] != stock[c], v != stock[c];
    var s, s' := Changed(t, stock), Changed(t[c := v], stock);
    if was == now {
      assert s' == s;
    } else if now {
      assert s' == s + {c};
      assert |s| == 0 ==> s == {};
    } else {
      assert s' == s - {c};
    }
  }

  lemma ComposeWrite(words: seq<nat>, t: seq<nat>, c: nat, v: nat)
    requires |words| == 64 && IsRemap(t) && c < 64 && v < 64
    ensures IsRemap(t[c := v])
    ensures Compose(words, t[c := v]) == Compose(words, t)[c := words[v]]
  {
  }

  lemma ComposeIdentity(words: seq<nat>)
    requires |words| == 64
    ensures IsRemap(Identity()) && Compose(words, Identity()) == words
  {
  }

  lemma InitialValid(stock: seq<nat>)
    requires |stock| == 64
    ensures Valid(Initial(stock))
  {
    ComposeIdentity(stock);
    UnchangedIsStock(Identity(), Identity());
    UnchangedIsStock(Opaque(), Opaque());
  }

  lemma WritePalKeeps(s: State, c: nat, v: nat)
    requires Valid(s) && c < 64 && v < 64
    ensures Composed(WritePal(s, c, v))
    ensures LookOf(WritePal(s, c, v)) == LookOf(s).(pal := s.pal[c := v])
  {
    if s.pal[c] == v {
      assert s.pal[c := v] == s.pal;
    } else {
      ComposeWrite(s.wire, s.pal, c, v);
      RecountCounts(s.pal, Identity(), c, v, s.palDelta, s.palSingle);
    }
  }

  lemma WritePaltKeeps(s: State, i: nat, v: nat)
    requires Valid(s) && i < 64 && v <= 1
    ensures Composed(WritePalt(s, i, v))
    ensures LookOf(WritePalt(s, i, v)) == LookOf(s).(palt := s.palt[i := v])
  {
    if s.palt[i] == v {
      assert s.palt[i := v] == s.palt;
    } else {
      RecountCounts(s.palt, Opaque(), i, v, s.paltDelta, s.paltSingle);
    }
  }

  /** One poke keeps the wire table folded. */
  lemma ScreenedKeeps(s: State, c: nat, v: nat)
    requires Valid(s) && c < 64 && v < 64
    ensures var t := Screened(s, c, v);
            && t.wire == Folded(s.wireBase, t.spal)
            && Composed(t.(gatePal := Compose(t.wire, s.pal)))
  {
    var sp := if s.spal.Some? then s.spal.value else Identity();
    ComposeIdentity(s.wireBase);
    ComposeWrite(s.wireBase, sp, c, v);
    hide Counted, Changed;
  }

  lemma ScreenKeeps(s: State, c0: int, c1: int)
    requires Valid(s)
    ensures Valid(DoScreen(s, c0, c1))
    ensures LookOf(DoScreen(s, c0, c1)) == Redo(LookOf(s), Screen(c0, c1))
  {
    ScreenedKeeps(s, c0 % 64, c1 % 64);
    hide Compose, Folded, Counted, Changed, WithId, KeyOf, IsRemap, IsMask, Identity;
  }

  lemma PalKeeps(s: State, c0: int, c1: int)
    requires Valid(s)
    ensures Valid(DoPal(s, c0, c1)) && LookOf(DoPal(s, c0, c1)) == Redo(LookOf(s), Pal(c0, c1))
  {
    WritePalKeeps(s, c0 % 64, c1 % 64);
    hide Compose, Folded, Counted, Changed, WithId, KeyOf, IsRemap, IsMask, WritePal;
  }

  lemma PaltKeeps(s: State, c: int, on: bool)
    requires Valid(s)
    ensures Valid(DoPalt(s, c, on)) && LookOf(DoPalt(s, c, on)) == Redo(LookOf(s), Palt(c, on))
  {
    WritePaltKeeps(s, c % 64, if on then 1 else 0);
    hide Compose, Folded, Counted, Changed, WithId, KeyOf, IsRemap, IsMask, WritePalt;
  }

  lemma ClearedIsCounted()
    ensures Counted(Identity(), Identity(), 0, -1) && Counted(Opaque(), Opaque(), 0, -1)
    ensures IsRemap(Identity()) && IsMask(Opaque())
  {
    UnchangedIsStock(Identity(), Identity());
    UnchangedIsStock(Opaque(), Opaque());
  }

  lemma ClearedPalKeeps(s: State)
    requires Valid(s)
    ensures Composed(ClearedPal(s))
    ensures LookOf(ClearedPal(s)) == LookOf(s).(pal := Identity(), screen := None)
  {
    ComposeIdentity(s.wireBase);
    UnchangedIsStock(s.pal, Identity());
    ClearedIsCounted();
    hide Compose, Counted, Changed;
  }

  lemma PalResetKeeps(s: State)
    requires Valid(s)
    ensures Valid(DoPalReset(s)) && LookOf(DoPalReset(s)) == Redo(LookOf(s), PalReset)
  {
    ClearedPalKeeps(s);
    hide ClearedPal, Compose, Folded, Counted, Changed, WithId, KeyOf, IsRemap, IsMask;
  }

  lemma ClearedPaltKeeps(s: State)
    requires Valid(s)
    ensures Composed(ClearedPalt(s))
    ensures LookOf(ClearedPalt(s)) == LookOf(s).(palt := Opaque())
  {
    UnchangedIsStock(s.palt, Opaque());
    ClearedIsCounted();
    hide Compose, Folded, Counted, Changed;
  }

  lemma PaltResetKeeps(s: State)
    requires Valid(s)
    ensures Valid(DoPaltReset(s)) && LookOf(DoPaltReset(s)) == Redo(LookOf(s), PaltReset)
  {
    ClearedPaltKeeps(s);
    hide ClearedPalt, Compose, Folded, Counted, Changed, WithId, KeyOf, IsRemap, IsMask;
  }

  lemma ResetKeeps(s: State)
    requires Valid(s)
    ensures Valid(DoReset(s)) && LookOf(DoReset(s)) == Redo(LookOf(s), Reset)
  {
    ComposeIdentity(s.wireBase);
    ClearedIsCounted();
    hide Compose, Counted, Changed;
  }

  lemma SetPaletteKeeps(s: State, words: seq<nat>)
    requires Valid(s)
    ensures Valid(DoSetPalette(s, words)) && LookOf(DoSetPalette(s, words)) == Redo(LookOf(s), SetPalette(words))
  {
    hide Compose, Counted, Changed, WithId, KeyOf;
  }

  /** Every verb keeps the mirrors composed and the counts right, and changes the
      look as the simple form does. */
  lemma StepKeeps(s: State, op: Op)
    requires Valid(s)
    ensures Valid(Step(s, op))
    ensures LookOf(Step(s, op)) == Redo(LookOf(s), op)
  {
    hide *;
    StepUnfolds(s, op);
    match op
    case Pal(c0, c1) => PalKeeps(s, c0, c1);
    case PalReset => PalResetKeeps(s);
    case Screen(c0, c1) => ScreenKeeps(s, c0, c1);
    case Palt(c, on) => PaltKeeps(s, c, on);
    case PaltReset => PaltResetKeeps(s);
    case Reset => ResetKeeps(s);
    case SetPalette(words) => SetPaletteKeeps(s, words);
    case WirePal => WirePalKeeps(s);
  }

  lemma WirePalKeeps(s: State)
    requires Valid(s)
    ensures Valid(DoWirePal(s)) && LookOf(DoWirePal(s)) == Redo(LookOf(s), WirePal)
  {
    hide Compose, Folded, Counted, Changed;
  }

  /** `Step` by cases. */
  lemma StepUnfolds(s: State, op: Op)
    requires Valid(s)
    ensures match op
            case Pal(c0, c1) => Step(s, op) == DoPal(s, c0, c1)
            case PalReset => Step(s, op) == DoPalReset(s)
            case Screen(c0, c1) => Step(s, op) == DoScreen(s, c0, c1)
            case Palt(c, on) => Step(s, op) == DoPalt(s, c, on)
            case PaltReset => Step(s, op) == DoPaltReset(s)
            case Reset => Step(s, op) == DoReset(s)
            case SetPalette(words) => Step(s, op) == DoSetPalette(s, words)
            case WirePal => Step(s, op) == DoWirePal(s)
  {
    hide Valid, DoPal, DoPalReset, DoScreen, DoPalt, DoPaltReset, DoReset, DoSetPalette, DoWirePal;
  }
}
