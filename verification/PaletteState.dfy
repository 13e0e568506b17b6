/** The colour tables as the canvas keeps them (device/device_canvas.py:660-1221):
    buffers updated in place, the base table shared until a cart brings its own. Each method
    is the source's own sequence of writes, entry by entry and loop by loop, and is proved to
    leave exactly the value the matching function of the Palette module gives; what that
    value means is proved there. The table shared between canvases is in no method's frame,
    so it is never written, and neither is a table a caller hands in. */
module PaletteState {
  import opened Options
  import opened Palette

  lemma ScreenFiles(m: State, c0: int, c1: int)
    requires Palette.Valid(m)
    ensures var t := Screened(m, c0 % 64, c1 % 64).(dirty := true);
            && |t.wire| == 64 && IsRemap(t.pal) && t.palSingle < 64
            && DoScreen(m, c0, c1) == WithId(t).(wirePalGen := -1, gatePal := Compose(t.wire, t.pal))
  {
    hide Compose, Folded;
    assert KeyOf(Screened(m, c0 % 64, c1 % 64)) == KeyOf(Screened(m, c0 % 64, c1 % 64).(dirty := true));
  }

  class Tables {
    // The module's stock wire table, shared by every canvas.
    const stock: array<nat>
    const palMap: array<nat>
    const palt: array<nat>
    const gatePal: array<nat>
    var spal: array?<nat>
    var wireBase: array<nat>
    var wire: array<nat>
    var wirePalArr: array?<nat>
    var wirePalGen: int
    var palDelta: int
    var paltDelta: int
    var palSingle: int
    var paltSingle: int
    var ids: map<Key, nat>
    var next: nat
    var epoch: nat
    var palgen: nat
    var dirty: bool
    ghost var Repr: set<object>

    /** The buffers a verb may write: all of them the canvas's own. */
    ghost predicate Owned()
      reads `Repr, `spal, `wire, `wireBase, `wirePalArr
    {
      && this in Repr && {palMap, palt, gatePal} <= Repr
      && palMap != palt && palMap != gatePal && palt != gatePal
      && stock !in Repr && wireBase !in Repr
      && (spal != null ==> spal in Repr && spal !in {palMap, palt, gatePal}
                           && wire in Repr && wire !in {palMap, palt, gatePal, spal})
      && (spal == null ==> wire == wireBase)
      && (wirePalArr != null ==> wirePalArr in Repr && wirePalArr !in {palMap, palt, gatePal, spal, wire})
    }

    ghost predicate Sized()
      reads `spal, `wire, `wireBase, `wirePalArr, `palSingle
    {
      && palMap.Length == palt.Length == gatePal.Length == 64
      && wire.Length == wireBase.Length == 64
      && (spal != null ==> spal.Length == 64)
      && (wirePalArr != null ==> wirePalArr.Length == 64)
      && palSingle < 64
    }

    /** The buffers are owned and sized; that the model they hold keeps `Palette.Valid`
        from verb to verb is `Palette.StepKeeps`. */
    ghost predicate Valid()
      reads `Repr, `spal, `wire, `wireBase, `wirePalArr, `palSingle
    {
      Owned() && Sized()
    }

    ghost function Model(): State
      reads this, palMap, palt, gatePal, spal, wire, wireBase, wirePalArr
    {
      State(palMap[..], palt[..], if spal == null then None else Some(spal[..]),
            wireBase[..], wire[..], gatePal[..],
            if wirePalArr == null then None else Some(wirePalArr[..]), wirePalGen,
            palDelta, paltDelta, palSingle, paltSingle, ids, next, epoch, palgen, dirty)
    }

    constructor (stock: array<nat>)
      requires stock.Length == 64
      ensures Valid() && fresh(Repr) && this.stock == stock
      ensures Model() == Initial(stock[..])
    {
      this.stock := stock;
      palMap := new nat[64](i => i);
      palt := new nat[64](_ => 0);
      gatePal := new nat[64](i requires 0 <= i < 64 reads stock => stock[i]);
      spal := null;
      wireBase := stock;
      wire := stock;
      wirePalArr := null;
      wirePalGen := -1;
      palDelta, paltDelta, palSingle, paltSingle := 0, 0, -1, -1;
      ids, next, epoch, palgen, dirty := map[], 1, 0, 0, false;
      new;
      Repr := {this, palMap, palt, gatePal};
      InitialValid(stock[..]);
      assert palMap[..] == Identity() && palt[..] == Opaque() && gatePal[..] == stock[..];
    }

    /** `_pal_state_id`. */
    method PalStateId() returns (id: nat)
      requires Valid()
      modifies this`ids, this`next
      ensures Valid()
      ensures Model().(palgen := id) == WithId(old(Model()))
    {
      ghost var m := Model();
      var key: Key;
      if spal != null {
        key := Bytes(palMap[..] + palt[..] + spal[..]);
      } else if palDelta == 0 && paltDelta == 0 {
        assert KeyOf(m) == None;
        hide KeyOf, Valid;
        return epoch;
      } else if paltDelta == 0 && palDelta == 1 && palSingle >= 0 {
        key := Small(0x10000 + palSingle * 64 + palMap[palSingle]);
      } else if palDelta == 0 && paltDelta == 1 && paltSingle >= 0 {
        key := Small(0x20000 + paltSingle);
      } else {
        key := Bytes(palMap[..] + palt[..]);
      }
      assert KeyOf(m) == Some(key);
      hide KeyOf, Valid;
      if key in ids {
        id := ids[key];
      } else {
        if |ids| > 64 {
          ids := map[];
        }
        id := next;
        next := next + 1;
        ids := ids[key := id];
      }
    }

    /** The end of every verb that changes the content: file it, and note it is not stock. */
    method FileState()
      requires Valid()
      modifies this`ids, this`next, this`palgen, this`dirty
      ensures Valid()
      ensures Model() == WithId(old(Model())).(dirty := true)
    {
      palgen := PalStateId();
      dirty := true;
    }

    /** The count of changed entries, and the one named, as entry `c` takes a new value. */
    static method Tally(was: bool, now: bool, c: nat, delta: int, single: int) returns (d: int, n: int)
      ensures (d, n) == if was == now then (delta, single)
                        else if now then (delta + 1, if delta + 1 == 1 then c else -2)
                        else (delta - 1, if delta - 1 != 0 then -2 else -1)
    {
      d, n := delta, single;
      if was != now {
        if now {
          d := d + 1;
          n := if d == 1 then c else -2;
        } else {
          d := d - 1;
          n := if d != 0 then -2 else -1;
        }
      }
    }

    /** One poke of the draw palette and of the gate table. */
    method PutPal(c: nat, v: nat)
      requires Valid() && Palette.Valid(Model()) && c < 64 && v < 64
      modifies this`palDelta, this`palSingle, palMap, gatePal
      ensures Valid()
      ensures Model() == WritePal(old(Model()), c, v)
    {
      ghost var was := Model();
      if palMap[c] != v {
        palDelta, palSingle := Tally(palMap[c] != c, v != c, c, palDelta, palSingle);
        Poke(palMap, c, v);
        Poke(gatePal, c, wire[v]);
        assert Model() == was.(pal := was.pal[c := v], gatePal := was.gatePal[c := was.wire[v]],
                               palDelta := palDelta, palSingle := palSingle);
      }
    }

    static method Poke(a: array<nat>, i: nat, v: nat)
      requires i < a.Length
      modifies a
      ensures a[..] == old(a[..])[i := v]
    {
      a[i] := v;
    }

    /** `pal(c0, c1)`. */
    method Pal(c0: int, c1: int)
      requires Valid() && Palette.Valid(Model())
      modifies `palDelta, `palSingle, `ids, `next, `palgen, `dirty, palMap, gatePal
      ensures Valid()
      ensures Model() == DoPal(old(Model()), c0, c1)
    {
      ghost var was := Model();
      PutPal(c0 % 64, c1 % 64);
      FileState();
    }

    /** `_sync_gate_pal`: the full rebuild. */
    method SyncGatePal()
      requires Valid() && IsRemap(palMap[..])
      modifies gatePal
      ensures Valid()
      ensures Model() == old(Model()).(gatePal := Compose(wire[..], palMap[..]))
    {
      ghost var pm, w := palMap[..], wire[..];
      for i := 0 to 64
        invariant Valid() && palMap[..] == pm && wire[..] == w
        invariant Model() == old(Model()).(gatePal := gatePal[..])
        invariant forall k :: 0 <= k < i ==> gatePal[k] == w[pm[k]]
      {
        gatePal[i] := wire[palMap[i]];
      }
      assert gatePal[..] == Compose(w, pm);
    }

    /** `_unfold_screen`: back to the base table. */
    method UnfoldScreen()
      requires Valid() && IsRemap(palMap[..])
      modifies this`spal, this`wire, this`wirePalGen, gatePal
      ensures Valid()
      ensures Model() == Unfold(old(Model()))
    {
      spal := null;
      wire := wireBase;
      wirePalGen := -1;
      SyncGatePal();
    }

    method ClearPal()
      requires Valid()
      modifies this`palDelta, this`palSingle, palMap, gatePal
      ensures Valid()
      ensures var t := old(Model());
              Model() == (if t.palDelta != 0 then t.(pal := Identity(), palDelta := 0, gatePal := t.wire)
                          else t).(palSingle := -1)
    {
      if palDelta != 0 {
        CopyInto(palMap, Identity());
        palDelta := 0;
        CopyInto(gatePal, wire[..]);
      }
      palSingle := -1;
    }

    /** `pal()`: both palettes back to the identity. */
    method PalReset()
      requires Valid() && Palette.Valid(Model())
      modifies `palDelta, `palSingle, `ids, `next, `palgen, `dirty
      modifies `spal, `wire, `wirePalGen, palMap, gatePal
      ensures Valid()
      ensures Model() == DoPalReset(old(Model()))
    {
      ghost var was := Model();
      if spal != null {
        UnfoldScreen();
      }
      ClearPal();
      assert Model() == ClearedPal(was);
      hide *;
      FileState();
    }

    /** A slice assignment over a whole 64-entry buffer. */
    static method CopyInto(dst: array<nat>, src: seq<nat>)
      requires dst.Length == |src|
      modifies dst
      ensures dst[..] == src
    {
      for i := 0 to |src|
        invariant forall k :: 0 <= k < i ==> dst[k] == src[k]
      {
        dst[i] := src[i];
      }
    }

    /** The end of a verb that moved the wire table: file the content, drop what was
        resolved through the old table, rebuild the gate table. */
    method FileRewired()
      requires Valid() && IsRemap(palMap[..])
      modifies this`ids, this`next, this`palgen, this`wirePalGen, gatePal
      ensures Valid()
      ensures Model() == WithId(old(Model())).(wirePalGen := -1, gatePal := Compose(wire[..], palMap[..]))
    {
      palgen := PalStateId();
      wirePalGen := -1;
      SyncGatePal();
    }

    /** The private tables a screen palette is kept in, made on its first use. */
    method EnsureScreen()
      requires Valid()
      modifies this`spal, this`wire, this`Repr
      ensures Valid() && spal != null && fresh(Repr - old(Repr))
      ensures if old(spal) == null then fresh(spal) && fresh(wire) else spal == old(spal) && wire == old(wire)
      ensures var t := old(Model());
              Model() == if t.spal.Some? then t else t.(spal := Some(Identity()), wire := t.wireBase)
    {
      if spal == null {
        spal := new nat[64](i => i);
        assert spal[..] == Identity();
        wire := Private(wireBase);
        Repr := Repr + {spal, wire};
      }
    }

    /** One poke of the screen palette and of the wire table it is folded into. */
    method PutScreen(c: nat, v: nat)
      requires Valid() && spal != null && c < 64 && v < 64
      modifies spal, wire
      ensures Valid()
      ensures Model() == old(Model()).(spal := Some(old(spal[..])[c := v]),
                                       wire := old(wire[..])[c := wireBase[v]])
    {
      Poke(spal, c, v);
      Poke(wire, c, wireBase[v]);
    }

    /** The screen palette's private tables, made if need be and poked. */
    method Rescreen(c: nat, v: nat)
      requires Valid() && Palette.Valid(Model()) && c < 64 && v < 64
      modifies `spal, `wire, `Repr, `dirty
      modifies if spal != null then {spal, wire} else {}
      ensures Valid() && fresh(Repr - old(Repr))
      ensures Model() == Screened(old(Model()), c, v).(dirty := true)
    {
      ghost var was := Model();
      EnsureScreen();
      PutScreen(c, v);
      assert Model() == Screened(was, c, v);
      hide Screened, Palette.Valid;
      dirty := true;
    }

    /** `pal(c0, c1, 1)`: the screen palette, folded into a private wire table. */
    method Screen(c0: int, c1: int)
      requires Valid() && Palette.Valid(Model())
      modifies `spal, `wire, `Repr, `ids, `next, `palgen, `wirePalGen, `dirty, gatePal
      modifies if spal != null then {spal, wire} else {}
      ensures Valid() && fresh(Repr - old(Repr))
      ensures Model() == DoScreen(old(Model()), c0, c1)
    {
      ScreenFiles(Model(), c0, c1);
      Rescreen(c0 % 64, c1 % 64);
      hide *;
      FileRewired();
    }

    static method Private(src: array<nat>) returns (r: array<nat>)
      ensures fresh(r) && r[..] == src[..]
    {
      r := new nat[src.Length](i requires 0 <= i < src.Length reads src => src[i]);
    }

    method PutPalt(i: nat, v: nat)
      requires Valid() && Palette.Valid(Model()) && i < 64 && v <= 1
      modifies this`paltDelta, this`paltSingle, palt
      ensures Valid()
      ensures Model() == WritePalt(old(Model()), i, v)
    {
      ghost var was := Model();
      if palt[i] != v {
        paltDelta, paltSingle := Tally(palt[i] != 0, v != 0, i, paltDelta, paltSingle);
        Poke(palt, i, v);
        assert Model() == was.(palt := was.palt[i := v], paltDelta := paltDelta, paltSingle := paltSingle);
      }
    }

    /** `palt(c, on)`. */
    method Palt(c: int, on: bool)
      requires Valid() && Palette.Valid(Model())
      modifies `paltDelta, `paltSingle, `ids, `next, `palgen, `dirty, palt
      ensures Valid()
      ensures Model() == DoPalt(old(Model()), c, on)
    {
      ghost var was := Model();
      PutPalt(c % 64, if on then 1 else 0);
      FileState();
    }

    method ClearPalt()
      requires Valid()
      modifies this`paltDelta, this`paltSingle, palt
      ensures Valid()
      ensures var t := old(Model());
              Model() == (if t.paltDelta != 0 then t.(palt := Opaque(), paltDelta := 0) else t).(paltSingle := -1)
    {
      if paltDelta != 0 {
        CopyInto(palt, Opaque());
        paltDelta := 0;
      }
      paltSingle := -1;
    }

    /** `palt()`. */
    method PaltReset()
      requires Valid() && Palette.Valid(Model())
      modifies `paltDelta, `paltSingle, `ids, `next, `palgen, `dirty, palt
      ensures Valid()
      ensures Model() == DoPaltReset(old(Model()))
    {
      ghost var was := Model();
      ClearPalt();
      FileState();
    }

    /** Three whole-buffer copies. */
    method RestoreBuffers()
      requires Valid()
      modifies palMap, palt, gatePal
      ensures Valid()
      ensures Model() == old(Model()).(pal := Identity(), palt := Opaque(), gatePal := old(wire[..]))
    {
      CopyInto(palMap, Identity());
      CopyInto(palt, Opaque());
      CopyInto(gatePal, wire[..]);
    }

    method RestoreCounts()
      requires Valid()
      modifies `palDelta, `palSingle, `paltDelta, `paltSingle
      ensures Valid()
      ensures Model() == old(Model()).(palDelta := 0, paltDelta := 0, palSingle := -1, paltSingle := -1)
    {
      palDelta, paltDelta, palSingle, paltSingle := 0, 0, -1, -1;
    }

    /** Both tables back to their templates, in place. */
    method Restore()
      requires Valid()
      modifies `palDelta, `palSingle, `paltDelta, `paltSingle, `palgen, `dirty, palMap, palt, gatePal
      ensures Valid()
      ensures var t := old(Model());
              Model() == t.(dirty := false, pal := Identity(), palt := Opaque(), palgen := 0, palDelta := 0,
                            paltDelta := 0, palSingle := -1, paltSingle := -1, gatePal := t.wire)
    {
      ghost var t := Model();
      RestoreBuffers();
      dirty := false;
      palgen := 0;
      assert Model() == t.(pal := Identity(), palt := Opaque(), gatePal := t.wire, dirty := false, palgen := 0);
      hide *;
      RestoreCounts();
    }

    /** `reset_state`'s palette half: in place, and only when something is dirty. */
    method Reset()
      requires Valid() && Palette.Valid(Model())
      modifies `palDelta, `palSingle, `paltDelta, `paltSingle, `palgen, `dirty
      modifies `spal, `wire, `wirePalGen, palMap, palt, gatePal
      ensures Valid()
      ensures Model() == DoReset(old(Model()))
    {
      ghost var was := Model();
      if spal != null {
        UnfoldScreen();
      }
      if dirty {
        Restore();
      }
      assert Model() == DoReset(was);
    }

    /** The verbs that allocate nothing, by their arguments. */
    method RunInPlace(op: Op)
      requires Valid() && Palette.Valid(Model()) && !op.Screen? && !op.SetPalette? && !op.WirePal?
      modifies `palDelta, `palSingle, `paltDelta, `paltSingle, `ids, `next, `palgen, `dirty
      modifies `spal, `wire, `wirePalGen, palMap, palt, gatePal
      ensures Valid() && Model() == Step(old(Model()), op)
    {
      hide *;
      StepUnfolds(Model(), op);
      match op
      case Pal(c0, c1) => Pal(c0, c1);
      case PalReset => PalReset();
      case Palt(c, on) => Palt(c, on);
      case PaltReset => PaltReset();
      case Reset => Reset();
    }

    /** Every verb but the palette setter and the table read. */
    method Run(op: Op)
      requires Valid() && Palette.Valid(Model()) && !op.SetPalette? && !op.WirePal?
      modifies `palDelta, `palSingle, `paltDelta, `paltSingle, `ids, `next, `palgen, `dirty
      modifies `spal, `wire, `wirePalGen, `Repr, palMap, palt, gatePal
      modifies if spal != null then {spal, wire} else {}
      ensures Valid() && fresh(Repr - old(Repr))
      ensures Model() == Step(old(Model()), op)
    {
      hide *;
      if op.Screen? {
        StepUnfolds(Model(), op);
        Screen(op.c0, op.c1);
      } else {
        RunInPlace(op);
      }
    }

    /** A new base table: never a write to the one before it, which may be shared. */
    method Rebase(words: seq<nat>)
      requires Valid() && |words| == 64 && (spal != null ==> IsRemap(spal[..]))
      modifies this`wireBase, this`wire, this`Repr
      ensures Valid() && fresh(Repr - old(Repr))
      ensures spal == old(spal) && wirePalArr == old(wirePalArr)
      ensures Model() == old(Model()).(wireBase := words, wire := Folded(words, old(Model()).spal))
    {
      wireBase := FromWords(words);
      if spal == null {
        wire := wireBase;
      } else {
        wire := FromWords(Compose(words, spal[..]));
        Repr := Repr + {wire};
      }
    }

    static method FromWords(words: seq<nat>) returns (r: array<nat>)
      ensures fresh(r) && r[..] == words
    {
      r := new nat[|words|](i requires 0 <= i < |words| => words[i]);
    }

    /** The new base table in place under a new epoch, every id learned under the old one gone. */
    method Adopt(words: seq<nat>)
      requires Valid() && |words| == 64 && (spal != null ==> IsRemap(spal[..]))
      modifies `wireBase, `wire, `Repr, `ids, `epoch, `next
      ensures Valid() && fresh(Repr - old(Repr))
      ensures var t := old(Model());
              Model() == t.(wireBase := words, wire := Folded(words, t.spal), ids := map[],
                            epoch := t.next, next := t.next + 1)
    {
      Rebase(words);
      ids := map[];
      epoch := next;
      next := next + 1;
    }

    /** The `palette` setter, given the table's wire words. */
    method SetPalette(words: seq<nat>)
      requires Valid() && Palette.Valid(Model())
      modifies `wireBase, `wire, `Repr, `ids, `epoch, `next, `palgen, `wirePalGen, gatePal
      ensures Valid() && fresh(Repr - old(Repr))
      ensures Model() == DoSetPalette(old(Model()), words)
    {
      if |words| == 64 {
        ghost var was := Model();
        Adopt(words);
        assert DoSetPalette(was, words) == WithId(Model()).(wirePalGen := -1, gatePal := Compose(wire[..], palMap[..]));
        hide *;
        FileRewired();
      }
    }

    method EnsureWirePal()
      requires Valid()
      modifies `wirePalArr, `Repr
      ensures Valid() && wirePalArr != null && fresh(Repr - old(Repr))
      ensures if old(wirePalArr) == null then fresh(wirePalArr) else wirePalArr == old(wirePalArr)
      ensures Model() == old(Model()).(wirePalArr := Some(wirePalArr[..]))
    {
      if wirePalArr == null {
        wirePalArr := new nat[64];
        Repr := Repr + {wirePalArr};
      }
    }

    /** `_wire_pal`: the resolved table the fills and the batch read. */
    method WirePal() returns (table: array<nat>)
      requires Valid() && Palette.Valid(Model())
      modifies `wirePalArr, `wirePalGen, `Repr, wirePalArr
      ensures Valid() && fresh(Repr - old(Repr)) && wireBase == old(wireBase)
      ensures Model() == DoWirePal(old(Model()))
      ensures table == wirePalArr
    {
      assert IsRemap(palMap[..]);
      hide Palette.Valid;
      if wirePalGen != palgen || wirePalArr == null {
        EnsureWirePal();
        CopyInto(wirePalArr, Compose(wire[..], palMap[..]));
        wirePalGen := palgen;
      }
      table := wirePalArr;
    }
  }
}
