/** The canvas as it is: sprites wait in a flat queue and are drawn in runs, colours are
    read through the tables kept for them, an image is stamped from the bake it keeps
    (device/device_canvas.py:822-1376, 2086-2232). What the caller sees is `Seen`, the frame
    the buffer would hold once the queue is drained, and every method takes it where the
    reference drawing would: a queued sprite changes the queue and not the buffer, a verb
    that draws drains first, and a verb that only moves the pattern drains nothing. `Play`
    puts them together over any run of calls. */
module Canvas {
  import opened Options
  import opened Palette
  import opened PaletteIds
  import opened PaletteState
  import opened Surface
  import opened SpriteCache
  import opened SpriteImages
  import opened Drawing
  import opened Queue
  import opened Verbs

  /** The tables are sound, their ids filed, the resolved table current. */
  ghost predicate Filed(m: State, h: History) {
    Palette.Valid(m) && Known(m, h) && CacheKnown(m, h)
  }

  /** What `_wire_pal` returns on a filed state, and that the state stays filed. */
  lemma WirePalFiled(m: State, h: History)
    requires Filed(m, h)
    ensures Palette.Valid(m) && WellFormed(LookOf(m))
    ensures var r := DoWirePal(m);
            && Filed(r, Extend(h, r)) && Grows(h, Extend(h, r)) && LookOf(r) == LookOf(m)
            && r.wirePalArr == Some(Lut(LookOf(m))) && r.palt == m.palt
  {
    WirePalKeeps(m);
    WirePalKnown(m, h);
    WirePalCached(m, h);
  }

  lemma GrowsSelf(h: History)
    ensures Grows(h, h)
  {
  }

  lemma WirePalCached(m: State, h: History)
    requires Filed(m, h)
    ensures var r := DoWirePal(m);
            CacheKnown(r, Extend(h, r)) && r.wirePalArr == Some(Lut(LookOf(m)))
  {
    assert Extend(h, DoWirePal(m)) == h;
  }

  /** A palette verb keeps the state filed and moves the look as the simple form does. */
  lemma StepFiled(m: State, op: Op, h: History)
    requires Filed(m, h)
    ensures Palette.Valid(m) && WellFormed(LookOf(m))
    ensures var r := Step(m, op); Filed(r, Extend(h, r)) && LookOf(r) == Redo(LookOf(m), op)
    ensures Grows(h, Extend(h, Step(m, op)))
  {
    hide *;
    FiledFacts(m, h);
    StepKeeps(m, op);
    StepKnown(m, op, h);
    StepCache(m, op, h);
    FiledFrom3(Step(m, op), Extend(h, Step(m, op)));
  }

  lemma FiledFacts(m: State, h: History)
    requires Filed(m, h)
    ensures Palette.Valid(m) && WellFormed(LookOf(m)) && Known(m, h) && CacheKnown(m, h)
  {
  }

  lemma FiledFrom3(m: State, h: History)
    requires Palette.Valid(m) && Known(m, h) && CacheKnown(m, h)
    ensures Filed(m, h)
  {
    hide Palette.Valid, Known, CacheKnown;
  }

  /** What the cache makes ready for state `m`. */
  function Readied(c: Cache, spr: Sprite, m: State, scale: int, flip: int, offHeap: bool): Cache
    requires ValidSprite(spr) && |m.wire| == |m.palt| == 64 && IsRemap(m.pal)
  {
    Ready(c, BakeKey(AtLeastOne(scale), flip, m.palgen),
          Bake(spr, Compose(m.wire, m.pal), m.palt, AtLeastOne(scale), flip), offHeap)
  }

  /** A bake stamped onto `s` is the sprite drawn onto it. */
  ghost predicate StampedIsDrawn(pixels: Surf, spr: Sprite, l: Look, scale: int, flip: int,
                                 px: int, py: int, s: Surf, clip: Area) {
    && ValidSprite(spr) && WellFormed(l)
    && Blit(s, clip, pixels, px, py, Some(KEY))
       == DrawSprite(s, clip, spr, Lut(l), l.palt, px, py, Max(1, scale), flip)
  }

  /** What the cache makes ready, stamped, is the sprite drawn directly. */
  lemma StampDraws(c: Cache, spr: Sprite, m: State, h: History, l: Look, scale: int, flip: int, offHeap: bool,
                   s: Surf, clip: Area, px: int, py: int)
    requires ValidSprite(spr) && Palette.Valid(m) && Known(m, h) && l == LookOf(m) && KEY !in l.base
    requires Accounted(c) && Faithful(c, spr, l.base, h)
    ensures var r := Readied(c, spr, m, scale, flip, offHeap);
            && r.hot.Some? && Accounted(r) && Faithful(r, spr, l.base, h)
            && StampedIsDrawn(r.hot.value.1.pixels, spr, l, scale, flip, px, py, s, clip)
  {
    var n := AtLeastOne(scale);
    ReadyIsCurrent(c, spr, m, LooksOver(l.base, h), n, flip, offHeap);
    LutAvoidsKey(l);
    UnseenStamps(s, clip, spr, Lut(l), l.palt, px, py, n, flip);
  }

  lemma NewIsFiled(stock: seq<nat>)
    requires |stock| == 64
    ensures Filed(Initial(stock), map[0 := Blank()])
    ensures LookOf(Initial(stock)) == Look(Identity(), Opaque(), None, stock) && WellFormed(LookOf(Initial(stock)))
  {
    InitialValid(stock);
  }

  class DeviceCanvas {
    const stride: nat
    const bh: nat
    const stock: seq<nat>
    const tables: Tables
    const batchArr: array<int>
    /** The sheets of the native sprite gates, by token. */
    const gates: map<int, Sheet>
    /** Whether the native draw gates are in place of rect, rectb and pix. */
    const gated: bool
    var surf: Surf
    var ox: nat
    var oy: nat
    var w: nat
    var h: nat
    var userCamX: int
    var userCamY: int
    var camX: int
    var camY: int
    var clip: Area
    var fillp: nat
    var fillpCol: int
    var batchSheet: Option<Sheet>
    /** What the tables resolve to, and what every palette id has stood for. */
    ghost var look: Look
    ghost var hist: History

    function ViewNow(): View
      reads `ox, `oy, `w, `h, `camX, `camY, `clip
    {
      View(ox, oy, w, h, camX, camY, clip)
    }

    /** The canvas without its queue. */
    ghost function Now(): Frame
      reads this
    {
      Frame(surf, stride, bh, ViewNow(), look, fillp, fillpCol, stock)
    }

    /** The canvas as its caller sees it: every sprite queued is already drawn. */
    ghost function Seen(): (f: Frame)
      requires WellFormedFrame(Now()) && QueueOk(batchArr[..], batchSheet, gates)
      reads this, batchArr
      ensures WellFormedFrame(f)
    {
      DrainedIsSized(Now(), batchArr[..], batchSheet, gates);
      Now().(surf := Drained(Now(), batchArr[..], batchSheet, gates))
    }

    /** The tables are sound and resolve to `look`. */
    ghost predicate TablesOk()
      reads `look, `hist
      reads tables, tables.palMap, tables.palt, tables.gatePal, tables.spal, tables.wire, tables.wireBase,
            tables.wirePalArr
    {
      tables.Valid() && Filed(tables.Model(), hist) && look == LookOf(tables.Model())
    }

    /** The queue's array is no table, and the canvas none of them. */
    ghost predicate Apart()
      reads tables
    {
      && batchArr !in tables.Repr && this !in tables.Repr && tables in tables.Repr
      && batchArr.Length == CAPACITY && batchArr as object !in {tables.wireBase as object, tables.stock as object}
    }

    ghost predicate GatesOk() {
      forall t :: t in gates ==> ValidSheet(gates[t])
    }

    ghost predicate Valid()
      reads this, batchArr
      reads tables, tables.palMap, tables.palt, tables.gatePal, tables.spal, tables.wire, tables.wireBase,
            tables.wirePalArr
    {
      && TablesOk() && Apart() && GatesOk()
      && QueueOk(batchArr[..], batchSheet, gates)
      && WellFormedFrame(Now())
    }

    /** The camera in force is the caller's, less the surface's origin. */
    predicate Aimed()
      reads `userCamX, `userCamY, `camX, `camY, `ox, `oy
    {
      camX == userCamX - ox && camY == userCamY - oy
    }

    /** A canvas onto a buffer, its first reset_state done. */
    constructor (buf: Surf, stride: nat, bh: nat, stock: array<nat>, gates: map<int, Sheet>, gated: bool)
      requires Sized(buf, stride, bh) && stock.Length == 64 && KEY !in stock[..]
      requires forall t :: t in gates ==> ValidSheet(gates[t])
      ensures Valid() && Aimed() && fresh(batchArr) && fresh(tables.Repr)
      ensures this.gates == gates && batchArr[0] == 4
      ensures Now() == Frame(buf, stride, bh, View(0, 0, stride, bh, 0, 0, Area(0, 0, stride, bh)),
                             Look(Identity(), Opaque(), None, stock[..]), 0, -1, stock[..])
    {
      this.stride, this.bh, this.stock, this.gates, this.gated := stride, bh, stock[..], gates, gated;
      tables := new Tables(stock);
      batchArr := new int[CAPACITY](i => if i == 0 then 4 else 0);
      surf := buf;
      ox, oy, w, h := 0, 0, stride, bh;
      userCamX, userCamY, camX, camY := 0, 0, 0, 0;
      clip := Area(0, 0, stride, bh);
      fillp, fillpCol := 0, -1;
      batchSheet := None;
      look := Look(Identity(), Opaque(), None, stock[..]);
      hist := map[0 := Blank()];
      new;
      NewIsFiled(stock[..]);
      hide Filed;
    }

    /** An image whose bakes can be trusted under this canvas's palette ids. */
    ghost predicate Trusted(img: SpriteImage)
      reads `look, `hist, img
    {
      && ValidSprite(img.sprite) && |look.base| == 64
      && Accounted(img.Model()) && Faithful(img.Model(), img.sprite, look.base, hist)
    }

    /** `_rgb` made ready: the end of `spr`, but for the stamp. */
    method MakeBake(img: SpriteImage, scale: int, flip: int, ghost px: int, ghost py: int, ghost s: Surf, ghost area: Area)
      returns (pixels: Surf)
      requires TablesOk() && KEY !in look.base && Trusted(img)
      modifies img
      ensures Trusted(img) && StampedIsDrawn(pixels, img.sprite, look, scale, flip, px, py, s, area)
    {
      hide StampedIsDrawn, Bake, Accounted, Faithful, Known, CacheKnown, Ready, ValidSprite;
      ghost var m, c := tables.Model(), img.Model();
      FiledFacts(m, hist);
      StampDraws(c, img.sprite, m, hist, look, scale, flip, img.offHeap, s, area, px, py);
      var n := if scale < 1 then 1 else scale;
      pixels := img.MakeReady(tables.wire[..], tables.palMap[..], tables.palt[..], n, flip, tables.palgen);
    }

    /** A run of queued sprites through the batch kernel. */
    method RunBatch(sheet: Sheet, colorkey: int, scale: int, q: seq<Item>)
      requires TablesOk() && ValidSheet(sheet) && this !in tables.Repr && tables in tables.Repr
      modifies `surf, `hist, tables.Repr
      ensures TablesOk() && fresh(tables.Repr - old(tables.Repr)) && tables.wireBase == old(tables.wireBase)
      ensures Grows(old(hist), hist) && WellFormed(look) && tables in tables.Repr
      ensures surf == DrawItems(old(surf), ViewNow(), look, sheet, colorkey, scale, q)
    {
      ghost var m := tables.Model();
      WirePalFiled(m, hist);
      hide Known, CacheKnown, Filed, BlitQuads, Palette.Valid, DoWirePal, Lut, Extend, ValidSheet;
      var table := tables.WirePal();
      hist := Extend(hist, tables.Model());
      surf := BlitQuads(surf, clip, sheet, table[..], tables.palt[..], colorkey, scale, camX, camY, q);
    }

    /** A run of one: the tile as a sprite, stamped. Nothing for an id off the sheet. */
    method RunLone(sheet: Sheet, colorkey: int, scale: int, tile: int, px: int, py: int, flip: int)
      requires TablesOk() && KEY !in look.base && WellFormed(look) && ValidSheet(sheet)
      modifies `surf
      ensures surf == DrawTile(old(surf), clip, sheet, Lut(look), look.palt, colorkey, tile, px, py, scale, flip)
    {
      hide *;
      if 0 <= tile < 512 {
        var img := new SpriteImage(TileSprite(sheet, tile, colorkey), false);
        TrustNew(img);
        var pixels := MakeBake(img, scale, flip, px, py, surf, clip);
        StampIsTile(pixels, surf, clip, look, sheet, colorkey, scale, tile, px, py, flip);
        surf := Blit(surf, clip, pixels, px, py, Some(KEY));
      } else {
        OffSheet(surf, clip, look, sheet, colorkey, scale, tile, px, py, flip);
      }
    }

    /** A new image has no bakes to distrust. */
    lemma TrustNew(img: SpriteImage)
      requires ValidSprite(img.sprite) && WellFormed(look) && img.Model() == Empty()
      ensures Trusted(img)
    {
      EmptyIsTrusted(img.sprite, look.base, hist);
      hide Accounted, Faithful, ValidSprite;
    }

    /** `flush_batch`: the queue drawn in order, then empty. */
    method FlushBatch()
      requires Valid()
      modifies `surf, `batchSheet, `hist, batchArr, tables.Repr
      ensures Valid() && fresh(tables.Repr - old(tables.Repr)) && Grows(old(hist), hist)
      ensures batchArr[0] == 4 && Now() == old(Seen())
    {
      hide Grows, TablesOk, GatesOk, QueueOk, Drained, Items, DrawItems, DrawTile, WellFormed, ValidSheet, Sized, Faithful;
      ghost var f := Now();
      QueueFacts(batchArr[..], batchSheet, gates);
      var k := batchArr[0];
      GrowsSelf(hist);
      if k <= 4 {
        EmptyQueue(batchArr[..], batchSheet, gates, f);
        return;
      }
      var sheet, colorkey, scale := batchSheet.value, batchArr[1], batchArr[2];
      DrainedRun(f, batchArr[..], batchSheet, gates);
      var q := Items(batchArr[..]);
      batchArr[0] := 4;
      batchSheet := None;
      if (k - 4) / 4 == 1 {
        OneItem(f, sheet, colorkey, scale, q);
        RunLone(sheet, colorkey, scale, q[0].tile, q[0].x - camX, q[0].y - camY, q[0].flip);
      } else {
        RunBatch(sheet, colorkey, scale, q);
      }
      EmptyQueue(batchArr[..], batchSheet, gates, Now());
    }

    /** With nothing queued, what is seen is what is there. */
    lemma Drained4()
      requires batchArr.Length == CAPACITY && batchArr[0] == 4 && WellFormedFrame(Now())
      ensures QueueOk(batchArr[..], batchSheet, gates) && Seen() == Now()
    {
      EmptyQueue(batchArr[..], batchSheet, gates, Now());
    }

    /** `begin_batch`: what is pending is drawn, and the queue is a new writer's. */
    method BeginBatch(sheet: Sheet, colorkey: int, scale: int, token: int)
      requires Valid() && ValidSheet(sheet) && (token != 0 ==> token in gates && gates[token] == sheet)
      modifies `surf, `batchSheet, `hist, batchArr, tables.Repr
      ensures Valid() && fresh(tables.Repr - old(tables.Repr)) && Grows(old(hist), hist)
      ensures Seen() == old(Seen()) && Now().view == old(Now().view)
      ensures batchArr[..4] == [4, colorkey, scale, token] && batchSheet == Some(sheet)
      ensures RunOf(batchArr[..], batchSheet, gates)
    {
      hide TablesOk, GatesOk, QueueOk, Drained, WellFormedFrame, WellFormed, ValidSheet, Grows;
      if batchArr[0] > 4 {
        FlushBatch();
      } else {
        QueueFacts(batchArr[..], batchSheet, gates);
        Drained4();
        GrowsSelf(hist);
      }
      batchSheet := Some(sheet);
      batchArr[1], batchArr[2], batchArr[3] := colorkey, scale, token;
      Drained4();
    }

    /** Four words past the queue's end, and the index past them. */
    method Append(it: Item)
      requires batchArr.Length == CAPACITY && 4 <= batchArr[0] && batchArr[0] + 4 <= CAPACITY
      modifies batchArr
      ensures batchArr[..] == Appended(old(batchArr[..]), it)
    {
      var k := batchArr[0];
      batchArr[k] := it.tile;
      batchArr[k + 1] := it.x;
      batchArr[k + 2] := it.y;
      batchArr[k + 3] := it.flip;
      batchArr[0] := k + 4;
    }

    /** One quad onto the queue is one more sprite seen. */
    method Push(it: Item)
      requires Valid() && batchArr[0] + 4 <= CAPACITY && RunOf(batchArr[..], batchSheet, gates)
      modifies batchArr
      ensures Valid() && Now() == old(Now())
      ensures Seen() == old(Seen()).(surf := DrawItem(old(Seen()).surf, ViewNow(), look, batchSheet.value,
                                                      old(batchArr[1]), old(batchArr[2]), it))
    {
      hide TablesOk, GatesOk, QueueOk, Drained, WellFormed, Sized, ValidSheet, Appended, DrawItem, RunOf;
      QueueFacts(batchArr[..], batchSheet, gates);
      OneMoreQuad(Now(), batchArr[..], batchSheet, gates, it);
      Append(it);
    }

    /** The end of both writers: the sprite as int16 words, onto a run that stands. */
    method Enqueue(sheet: Sheet, colorkey: int, scale: int, it: Item)
      requires Valid() && batchArr[0] + 4 <= CAPACITY && RunOf(batchArr[..], batchSheet, gates)
      requires batchSheet == Some(sheet) && batchArr[1] == colorkey && batchArr[2] == scale
      requires Alike(ViewNow(), stride, bh, it.x, it.y, scale)
      modifies batchArr
      ensures Valid() && ValidSheet(sheet)
      ensures Seen() == old(Seen()).(surf := DrawItem(old(Seen()).surf, ViewNow(), look, sheet, colorkey, scale, it))
    {
      hide TablesOk, GatesOk, QueueOk, Drained, WellFormedFrame, WellFormed, ValidSheet, Alike, Apart, DrawItem, RunOf;
      RunFacts(batchArr[..], batchSheet, gates);
      SeenIsSized();
      QueuedAsDrawn(Seen().surf, ViewNow(), look, sheet, colorkey, scale, it, stride, bh);
      Push(Stored(it));
    }

    lemma SeenIsSized()
      requires Valid()
      ensures WellFormed(look) && Sized(Seen().surf, stride, bh)
    {
      hide Drained, QueueOk;
    }

    /** `spr_tile`: the Python writer. */
    method SprTile(sheet: Sheet, tile: int, x: int, y: int, colorkey: int, scale: int, flip: int)
      requires Valid() && ValidSheet(sheet) && Alike(ViewNow(), stride, bh, x, y, scale)
      modifies `surf, `batchSheet, `hist, batchArr, tables.Repr
      ensures Valid() && fresh(tables.Repr - old(tables.Repr)) && Grows(old(hist), hist)
      ensures Seen() == Draw(old(Seen()), Verb.Spr(0, sheet, tile, x, y, colorkey, scale, flip))
    {
      hide TablesOk, GatesOk, QueueOk, Drained, WellFormedFrame, WellFormed, ValidSheet, Grows, Alike, Apart, DrawItem, RunOf;
      SeenIsSized();
      RunStands(batchArr[..], batchSheet, gates);
      GrowsSelf(hist);
      var k := batchArr[0];
      if k == 4 {
        BeginBatch(sheet, colorkey, scale, 0);
      } else if Some(sheet) != batchSheet || batchArr[3] != 0 || colorkey != batchArr[1] || scale != batchArr[2]
                || k + 4 > CAPACITY {
        BeginBatch(sheet, colorkey, scale, 0);
      }
      Enqueue(sheet, colorkey, scale, Item(tile, x, y, flip));
    }

    lemma GateSheet(token: int)
      requires GatesOk() && token in gates
      ensures ValidSheet(gates[token])
    {
    }

    /** A native sprite gate: the C writer of the run `token` names. */
    method SprGate(token: int, tile: int, x: int, y: int, colorkey: int, scale: int, flip: int)
      requires Valid() && token != 0 && token in gates && Alike(ViewNow(), stride, bh, x, y, scale)
      modifies `surf, `batchSheet, `hist, batchArr, tables.Repr
      ensures Valid() && fresh(tables.Repr - old(tables.Repr)) && Grows(old(hist), hist)
      ensures ValidSheet(gates[token])
      ensures Seen() == Draw(old(Seen()), Verb.Spr(token, gates[token], tile, x, y, colorkey, scale, flip))
    {
      GateSheet(token);
      hide TablesOk, GatesOk, QueueOk, Drained, WellFormedFrame, WellFormed, ValidSheet, Grows, Alike, Apart, DrawItem, RunOf;
      SeenIsSized();
      RunStands(batchArr[..], batchSheet, gates);
      GrowsSelf(hist);
      var k := batchArr[0];
      if k == 4 || k + 4 > CAPACITY || batchArr[3] != token || batchArr[1] != colorkey || batchArr[2] != scale {
        BeginBatch(gates[token], colorkey, scale, token);
      }
      Enqueue(gates[token], colorkey, scale, Item(tile, x, y, flip));
    }

    // ---- shapes ----

    /** `_col`. */
    method Col(c: int) returns (word: nat)
      requires TablesOk()
      ensures WellFormed(look) && word == Resolve(look, c)
    {
      FiledFacts(tables.Model(), hist);
      hide Filed;
      word := tables.wire[tables.palMap[c % 64]];
    }

    /** The colour a native draw gate reads from the table kept for it. */
    method GateCol(c: int) returns (word: nat)
      requires TablesOk()
      ensures WellFormed(look) && word == Resolve(look, c)
    {
      FiledFacts(tables.Model(), hist);
      hide Filed;
      word := tables.gatePal[c % 64];
    }

    /** The colour of a gated verb, by the lane it takes. */
    method LaneCol(c: int) returns (word: nat)
      requires TablesOk()
      ensures WellFormed(look) && word == Resolve(look, c)
    {
      hide *;
      if gated {
        word := GateCol(c);
      } else {
        word := Col(c);
      }
    }

    /** The buffer's new words. */
    method Store(s: Surf)
      requires Valid() && batchArr[0] == 4 && Sized(s, stride, bh)
      modifies `surf
      ensures Valid() && Now() == old(Now()).(surf := s)
    {
      hide TablesOk, GatesOk, QueueOk, Drained, WellFormed, Sized;
      surf := s;
      StoredIsWellFormed(old(Now()), s);
      EmptyQueue(batchArr[..], batchSheet, gates, Now());
    }

    /** `_fill`: a filled rectangle, camera and clip applied. */
    method FillRect(x: int, y: int, w: int, h: int, col: nat)
      requires Valid() && batchArr[0] == 4
      modifies `surf
      ensures Valid() && Now() == old(Now()).(surf := Fill(old(surf), Cut(ViewNow(), x, y, w, h), col))
    {
      var px, py := x - camX, y - camY;
      var x0, y0, x1, y1 := clip.x0, clip.y0, px + w, py + h;
      if px > x0 { x0 := px; }
      if py > y0 { y0 := py; }
      if x1 > clip.x1 { x1 := clip.x1; }
      if y1 > clip.y1 { y1 := clip.y1; }
      assert Area(x0, y0, x1, y1) == Cut(ViewNow(), x, y, w, h);
      hide *;
      if x1 <= x0 || y1 <= y0 {
        EmptyFill(surf, Area(x0, y0, x1, y1), col);
      } else {
        Parts();
        FillKeepsShape(Now(), Area(x0, y0, x1, y1), col);
        Store(Fill(surf, Area(x0, y0, x1, y1), col));
      }
    }

    /** One solid rectangle, in the colour `c` has resolved to. */
    method SolidRect(x: int, y: int, w: int, h: int, col: nat, ghost c: int)
      requires Valid() && batchArr[0] == 4 && fillp == 0 && col == Resolve(look, c)
      modifies `surf
      ensures Valid() && Now() == DrawRect(old(Now()), x, y, w, h, c)
    {
      hide Valid, TablesOk, GatesOk, QueueOk, WellFormed, WellFormedFrame, Sized, Apart, DrawRect, Fill, Shade, Cut, Resolve, Hole;
      Parts();
      SolidIsFill(Now(), x, y, w, h, c);
      FillRect(x, y, w, h, col);
    }

    /** One patterned rectangle, through the shape kernel. */
    method PatternRect(x: int, y: int, w: int, h: int, col: nat, hole: int, ghost c: int)
      requires Valid() && batchArr[0] == 4 && col == Resolve(look, c) && hole == Hole(look, fillpCol)
      modifies `surf
      ensures Valid() && Now() == DrawRect(old(Now()), x, y, w, h, c)
    {
      hide Valid, TablesOk, GatesOk, QueueOk, WellFormed, WellFormedFrame, Sized, Apart, DrawRect, Fill, Shade, Cut, Resolve, Hole;
      Parts();
      RectIsShade(Now(), x, y, w, h, c);
      Store(Shade(surf, Cut(ViewNow(), x, y, w, h), col, fillp, hole));
    }

    method HoleCol() returns (hole: int)
      requires Valid()
      ensures hole == Hole(look, fillpCol)
    {
      hide TablesOk, GatesOk, QueueOk, WellFormed, Resolve;
      hole := -1;
      if fillpCol >= 0 {
        hole := Col(fillpCol);
      }
    }

    /** `rect`: solid through the fill, patterned through the shape kernel. */
    method Rect(x: int, y: int, w: int, h: int, c: int)
      requires Valid()
      modifies `surf, `batchSheet, `hist, batchArr, tables.Repr
      ensures Valid() && fresh(tables.Repr - old(tables.Repr)) && Grows(old(hist), hist)
      ensures Seen() == Draw(old(Seen()), Verb.Rect(x, y, w, h, c))
    {
      hide *;
      FlushBatch();
      RectDraws(Now(), x, y, w, h, c);
      Parts();
      if fillp != 0 {
        var col := Col(c);
        var hole := HoleCol();
        PatternRect(x, y, w, h, col, hole, c);
      } else {
        var col := LaneCol(c);
        SolidRect(x, y, w, h, col, c);
      }
      Parts();
      Drained4();
    }


    /** What `Valid` gives a member that needs no more. */
    lemma Parts()
      requires Valid()
      ensures TablesOk() && Apart() && GatesOk() && QueueOk(batchArr[..], batchSheet, gates) && WellFormedFrame(Now())
      ensures batchArr.Length == CAPACITY && {this, batchArr} !! tables.Repr && WellFormed(look) && KEY !in look.base
    {
      hide TablesOk, GatesOk, QueueOk, WellFormed, Sized;
    }

    /** The four sides, solid. */
    method SolidSides(x: int, y: int, w: int, h: int, col: nat, ghost c: int)
      requires Valid() && batchArr[0] == 4 && fillp == 0 && col == Resolve(look, c)
      modifies `surf
      ensures Valid() && Now() == DrawRectb(old(Now()), x, y, w, h, c)
    {
      hide *;
      Parts();
      SidesAreFour(Now(), x, y, w, h, c);
      SolidRect(x, y, w, 1, col, c);
      SolidRect(x, y + h - 1, w, 1, col, c);
      SolidRect(x, y, 1, h, col, c);
      SolidRect(x + w - 1, y, 1, h, col, c);
    }

    /** The four sides, patterned: libmoy's rectb. */
    method PatternSides(x: int, y: int, w: int, h: int, col: nat, hole: int, ghost c: int)
      requires Valid() && batchArr[0] == 4 && col == Resolve(look, c) && hole == Hole(look, fillpCol)
      modifies `surf
      ensures Valid() && Now() == DrawRectb(old(Now()), x, y, w, h, c)
    {
      hide *;
      Parts();
      SidesAreFour(Now(), x, y, w, h, c);
      PatternRect(x, y, w, 1, col, hole, c);
      PatternRect(x, y + h - 1, w, 1, col, hole, c);
      PatternRect(x, y, 1, h, col, hole, c);
      PatternRect(x + w - 1, y, 1, h, col, hole, c);
    }

    /** `rectb`. */
    method Rectb(x: int, y: int, w: int, h: int, c: int)
      requires Valid()
      modifies `surf, `batchSheet, `hist, batchArr, tables.Repr
      ensures Valid() && fresh(tables.Repr - old(tables.Repr)) && Grows(old(hist), hist)
      ensures Seen() == Draw(old(Seen()), Verb.Rectb(x, y, w, h, c))
    {
      hide *;
      FlushBatch();
      RectbDraws(Now(), x, y, w, h, c);
      Parts();
      if fillp != 0 {
        var col := Col(c);
        var hole := HoleCol();
        PatternSides(x, y, w, h, col, hole, c);
      } else {
        var col := LaneCol(c);
        SolidSides(x, y, w, h, col, c);
      }
      Parts();
      Drained4();
    }

    /** One pixel, kept to the clip. */
    method SetPixel(x: int, y: int, col: nat, ghost c: int)
      requires Valid() && batchArr[0] == 4 && col == Resolve(look, c)
      modifies `surf
      ensures Valid() && Now() == Draw(old(Now()), Verb.Pset(x, y, c))
    {
      hide Valid, TablesOk, GatesOk, QueueOk, WellFormed, WellFormedFrame, Sized, Apart, Fill, Cut, Resolve, Draw, Pixel;
      Parts();
      PsetDraws(Now(), x, y, c);
      var px, py := x - camX, y - camY;
      if clip.x0 <= px < clip.x1 && clip.y0 <= py < clip.y1 {
        Store(Fill(surf, Area(px, py, px + 1, py + 1), col));
      }
    }

    /** `pix(x, y, c)`. */
    method Pset(x: int, y: int, c: int)
      requires Valid()
      modifies `surf, `batchSheet, `hist, batchArr, tables.Repr
      ensures Valid() && fresh(tables.Repr - old(tables.Repr)) && Grows(old(hist), hist)
      ensures Seen() == Draw(old(Seen()), Verb.Pset(x, y, c))
    {
      hide *;
      FlushBatch();
      Parts();
      var col := LaneCol(c);
      SetPixel(x, y, col, c);
      Parts();
      Drained4();
    }

    /** `pix(x, y)`: the stock index of the pixel as drawn so far. */
    method Pget(x: int, y: int) returns (c: nat)
      requires Valid()
      modifies `surf, `batchSheet, `hist, batchArr, tables.Repr
      ensures Valid() && fresh(tables.Repr - old(tables.Repr)) && Grows(old(hist), hist)
      ensures Seen() == old(Seen()) && c == Get(old(Seen()), x, y)
    {
      FlushBatch();
      hide Valid, TablesOk, GatesOk, QueueOk, WellFormed, Apart, Draw, Grows;
      Parts();
      Drained4();
      var px, py := x - camX, y - camY;
      if !(0 <= px < stride && 0 <= py < bh) {
        return 0;
      }
      return StockIndex(stock, surf[py][px]);
    }

    /** Every pixel of the surface. */
    method Clear(col: nat, ghost c: int)
      requires Valid() && batchArr[0] == 4 && col == Resolve(look, c)
      modifies `surf
      ensures Valid() && Now() == Draw(old(Now()), Verb.Cls(c))
    {
      hide Valid, TablesOk, GatesOk, QueueOk, WellFormed, WellFormedFrame, Sized, Apart, Fill, FillFirst, Resolve, Draw;
      Parts();
      ClsDraws(Now(), c);
      if ox == 0 && oy == 0 && w == stride {
        FillRun(Now(), w * h, col);
        Store(FillFirst(surf, stride, w * h, col));
      } else {
        Store(Fill(surf, Area(ox, oy, ox + w, oy + h), col));
      }
    }

    /** `cls`: the whole surface, camera and clip aside. */
    method Cls(c: int)
      requires Valid()
      modifies `surf, `batchSheet, `hist, batchArr, tables.Repr
      ensures Valid() && fresh(tables.Repr - old(tables.Repr)) && Grows(old(hist), hist)
      ensures Seen() == Draw(old(Seen()), Verb.Cls(c))
    {
      hide *;
      FlushBatch();
      Parts();
      var col := Col(c);
      Clear(col, c);
      Parts();
      Drained4();
    }

    /** An image's bake stamped. */
    method Stamp(img: SpriteImage, x: int, y: int, scale: int, flip: int)
      requires Valid() && batchArr[0] == 4 && Trusted(img) && img !in tables.Repr
      modifies img, `surf
      ensures Valid() && Trusted(img)
      ensures Now() == DrawImage(old(Now()), img.sprite, x, y, scale, flip)
    {
      hide Valid, TablesOk, GatesOk, QueueOk, WellFormed, WellFormedFrame, Sized, Apart, Draw, Blit, StampedIsDrawn, Trusted;
      Parts();
      var pixels := MakeBake(img, scale, flip, x - camX, y - camY, surf, clip);
      StampIsImage(Now(), pixels, img.sprite, x, y, scale, flip);
      Store(Blit(surf, clip, pixels, x - camX, y - camY, Some(KEY)));
    }

    /** `spr(img)`: an image through its cache of bakes. */
    method Image(img: SpriteImage, x: int, y: int, scale: int, flip: int)
      requires Valid() && Trusted(img) && img !in tables.Repr
      modifies img, `surf, `batchSheet, `hist, batchArr, tables.Repr
      ensures Valid() && fresh(tables.Repr - old(tables.Repr)) && Grows(old(hist), hist)
      ensures Trusted(img)
      ensures Seen() == DrawImage(old(Seen()), img.sprite, x, y, scale, flip)
    {
      hide *;
      ghost var was := hist;
      Parts();
      TrustedParts(img);
      FlushBatch();
      StillTrusted(img, was);
      Stamp(img, x, y, scale, flip);
      Parts();
      Drained4();
    }

    lemma TrustedParts(img: SpriteImage)
      requires Trusted(img)
      ensures ValidSprite(img.sprite) && |look.base| == 64 && Accounted(img.Model())
      ensures Faithful(img.Model(), img.sprite, look.base, hist)
    {
    }

    /** Ids only ever gain meanings, so bakes trusted before are trusted still. */
    lemma StillTrusted(img: SpriteImage, was: History)
      requires ValidSprite(img.sprite) && |look.base| == 64 && Accounted(img.Model())
      requires Faithful(img.Model(), img.sprite, look.base, was) && Grows(was, hist)
      ensures Trusted(img)
    {
      hide Accounted, Faithful, Grows, ValidSprite;
      FaithfulGrows(img.Model(), img.sprite, look.base, was, hist);
    }

    // ---- state ----

    /** A new camera. */
    method Aim(x: int, y: int)
      requires Valid() && batchArr[0] == 4
      modifies `userCamX, `userCamY, `camX, `camY
      ensures Valid() && Aimed() && Now() == Draw(old(Now()), Verb.Camera(x, y))
    {
      hide TablesOk, GatesOk, QueueOk, WellFormed, WellFormedFrame, Sized, Apart, Draw;
      CameraDraws(Now(), x, y);
      userCamX, userCamY := x, y;
      camX, camY := x - ox, y - oy;
    }

    /** `camera`: answers the camera it replaces. */
    method Camera(x: int, y: int) returns (prev: (int, int))
      requires Valid() && Aimed()
      modifies `surf, `batchSheet, `hist, batchArr, tables.Repr, `userCamX, `userCamY, `camX, `camY
      ensures Valid() && Aimed() && fresh(tables.Repr - old(tables.Repr)) && Grows(old(hist), hist)
      ensures prev == old((camX + ox, camY + oy))
      ensures Seen() == Draw(old(Seen()), Verb.Camera(x, y))
    {
      assert (userCamX, userCamY) == (camX + ox, camY + oy);
      hide *;
      FlushBatch();
      prev := (userCamX, userCamY);
      Aim(x, y);
      Parts();
      Drained4();
    }

    /** A new clip. */
    method SetClip(to: Area)
      requires Valid() && batchArr[0] == 4
      modifies `clip
      ensures Valid() && Now() == old(Now()).(view := old(Now()).view.(clip := to))
    {
      hide TablesOk, GatesOk, QueueOk, WellFormed, Sized, Apart;
      clip := to;
    }

    /** `clip(x, y, w, h)`. */
    method Clip(x: int, y: int, w: int, h: int)
      requires Valid()
      modifies `surf, `batchSheet, `hist, batchArr, tables.Repr, `clip
      ensures Valid() && fresh(tables.Repr - old(tables.Repr)) && Grows(old(hist), hist)
      ensures Seen() == Draw(old(Seen()), Verb.Clip(x, y, w, h))
    {
      hide Valid, TablesOk, GatesOk, QueueOk, WellFormed, WellFormedFrame, Sized, Apart, Draw, Drained, Grows, Seen;
      FlushBatch();
      Parts();
      ClipDraws(Now(), x, y, w, h);
      SetClip(Area(ox + Max(0, x), oy + Max(0, y), ox + Min(this.w, x + w), oy + Min(this.h, y + h)));
      Parts();
      Drained4();
    }

    /** `clip()`. */
    method ClipReset()
      requires Valid()
      modifies `surf, `batchSheet, `hist, batchArr, tables.Repr, `clip
      ensures Valid() && fresh(tables.Repr - old(tables.Repr)) && Grows(old(hist), hist)
      ensures Seen() == Draw(old(Seen()), Verb.ClipReset)
    {
      hide Valid, TablesOk, GatesOk, QueueOk, WellFormed, WellFormedFrame, Sized, Apart, Draw, Drained, Grows, Seen;
      FlushBatch();
      Parts();
      ClipResetDraws(Now());
      SetClip(Area(ox, oy, ox + w, oy + h));
      Parts();
      Drained4();
    }

    /** `fillp(p, c)`, and `fillp()` as `fillp(0)`: no flush, since no sprite honours the
        pattern. */
    method SetFillp(p: nat, c: int)
      requires Valid()
      modifies `fillp, `fillpCol
      ensures Valid() && Seen() == old(Seen()).(fillp := p, fillpCol := c)
    {
      FillpUnseen(Now(), batchArr[..], batchSheet, gates, p, c);
      hide TablesOk, GatesOk, QueueOk, WellFormed, Sized, Apart, Drained;
      fillp, fillpCol := p, c;
    }

    /** `fillp(p, c)`: no flush, since no sprite honours the pattern. */
    method Fillp(p: int, c: int)
      requires Valid()
      modifies `fillp, `fillpCol
      ensures Valid() && Seen() == Draw(old(Seen()), Verb.Fillp(p, c))
    {
      FillpDraws(Seen(), p, c);
      hide *;
      SetFillp(p % 0x10000, if c < 0 then -1 else c % 64);
    }

    /** `fillp()`. */
    method FillpReset()
      requires Valid()
      modifies `fillp, `fillpCol
      ensures Valid() && Seen() == Draw(old(Seen()), Verb.FillpReset)
    {
      FillpDraws(Seen(), 0, -1);
      hide *;
      SetFillp(0, -1);
    }

    /** A palette verb on the tables, and the look with them. */
    method Retable(op: Op)
      requires TablesOk() && WellFormed(look) && tables in tables.Repr && !op.SetPalette? && !op.WirePal?
      modifies tables.Repr, `look, `hist
      ensures TablesOk() && tables in tables.Repr && fresh(tables.Repr - old(tables.Repr))
      ensures tables.wireBase == old(tables.wireBase)
      ensures Grows(old(hist), hist) && look == Redo(old(look), op)
    {
      hide *;
      TablesParts();
      StepFiled(tables.Model(), op, hist);
      tables.Run(op);
      hist := Extend(hist, tables.Model());
      look := Redo(look, op);
      TablesWhole();
    }

    lemma TablesParts()
      requires TablesOk()
      ensures tables.Valid() && Filed(tables.Model(), hist) && Palette.Valid(tables.Model())
      ensures look == LookOf(tables.Model())
      ensures {tables as object, tables.palMap, tables.palt, tables.gatePal} <= tables.Repr
      ensures tables.spal != null ==> {tables.spal as object, tables.wire} <= tables.Repr
    {
      hide Palette.Valid, Known, CacheKnown;
    }

    lemma TablesWhole()
      requires tables.Valid() && Filed(tables.Model(), hist) && look == LookOf(tables.Model())
      ensures TablesOk() && tables in tables.Repr
    {
      hide Filed;
    }

    /** The same, on the whole canvas. */
    method Retint(op: Op)
      requires Valid() && batchArr[0] == 4 && !op.SetPalette? && !op.WirePal?
      modifies tables.Repr, `look, `hist
      ensures Valid() && fresh(tables.Repr - old(tables.Repr)) && Grows(old(hist), hist) && look.base == old(look.base)
      ensures batchArr[0] == 4 && Now() == old(Now()).(look := Redo(old(look), op))
    {
      hide TablesOk, GatesOk, QueueOk, Drained, WellFormed, Sized, Redo, Grows;
      Parts();
      RedoKeeps(Now(), op);
      Retable(op);
      EmptyQueue(batchArr[..], batchSheet, gates, Now());
    }

    /** `pal` and `palt`. */
    method Remap(op: Op)
      requires Valid() && CartPalette(op)
      modifies `surf, `batchSheet, `hist, batchArr, tables.Repr, `look
      ensures Valid() && fresh(tables.Repr - old(tables.Repr)) && Grows(old(hist), hist) && look.base == old(look.base)
      ensures Seen() == Draw(old(Seen()), Verb.Remap(op))
    {
      assert !op.SetPalette? && !op.WirePal?;
      hide *;
      Parts();
      ghost var was := hist;
      FlushBatch();
      Parts();
      RemapDraws(Now(), op);
      ghost var mid := hist;
      Retint(op);
      GrowsOn(was, mid, hist);
      Parts();
      Drained4();
    }

    /** `reset_state`. */
    method ResetState()
      requires Valid()
      modifies `surf, `batchSheet, `hist, batchArr, tables.Repr, `look
      modifies `userCamX, `userCamY, `camX, `camY, `clip, `fillp, `fillpCol
      ensures Valid() && Aimed() && fresh(tables.Repr - old(tables.Repr))
      ensures Grows(old(hist), hist) && look.base == old(look.base)
      ensures Seen() == Fresh(old(Seen()))
    {
      hide Valid, TablesOk, GatesOk, QueueOk, WellFormed, WellFormedFrame, Sized, Apart, Drained, Seen, Redo, Grows, Aimed, Draw, Fresh;
      Parts();
      ghost var was := hist;
      FlushBatch();
      Parts();
      FreshIs(Now());
      Aim(0, 0);
      Parts();
      SetClip(Area(ox, oy, ox + w, oy + h));
      ghost var mid := hist;
      Parts();
      Retint(Op.Reset);
      GrowsOn(was, mid, hist);
      Parts();
      Drained4();
      SetFillp(0, -1);
    }

    /** A new surface in the buffer. */
    method Place(ox: nat, oy: nat, w: nat, h: nat)
      requires Valid()
      modifies `ox, `oy, `w, `h
      ensures Valid()
      ensures Seen() == old(Seen()).(view := old(Seen()).view.(ox := ox, oy := oy, w := w, h := h))
    {
      hide TablesOk, GatesOk, QueueOk, WellFormed, Sized, Apart, Drained;
      PlaceUnseen(Now(), batchArr[..], batchSheet, gates, ox, oy, w, h);
      this.ox, this.oy, this.w, this.h := ox, oy, w, h;
    }

    lemma SeenSize()
      requires WellFormedFrame(Now()) && QueueOk(batchArr[..], batchSheet, gates)
      ensures Seen().stride == stride && Seen().bh == bh
    {
      hide WellFormedFrame, QueueOk, Drained;
    }

    /** `set_viewport`: the surface moves before the queue is drawn, under a camera and
        clip that have not. */
    method Viewport(x: int, y: int, w: int, h: int)
      requires Valid()
      modifies `surf, `batchSheet, `hist, batchArr, tables.Repr, `look
      modifies `userCamX, `userCamY, `camX, `camY, `clip, `fillp, `fillpCol, `ox, `oy, `w, `h
      ensures Valid() && Aimed() && fresh(tables.Repr - old(tables.Repr))
      ensures Grows(old(hist), hist) && look.base == old(look.base)
      ensures Seen() == Draw(old(Seen()), Verb.Viewport(x, y, w, h))
    {
      hide Valid, TablesOk, GatesOk, QueueOk, WellFormed, WellFormedFrame, Sized, Apart, Drained, Seen, Redo, Grows, Aimed, Draw, Fresh;
      Parts();
      var ox, oy := Max(0, x), Max(0, y);
      var pw, ph := Max(0, Min(w, stride - ox)), Max(0, Min(h, bh - oy));
      ViewportDraws(Seen(), x, y, w, h);
      SeenSize();
      Place(ox, oy, pw, ph);
      ResetState();
    }

    /** `clear_viewport`. */
    method ViewportReset()
      requires Valid()
      modifies `surf, `batchSheet, `hist, batchArr, tables.Repr, `look
      modifies `userCamX, `userCamY, `camX, `camY, `clip, `fillp, `fillpCol, `ox, `oy, `w, `h
      ensures Valid() && Aimed() && fresh(tables.Repr - old(tables.Repr))
      ensures Grows(old(hist), hist) && look.base == old(look.base)
      ensures Seen() == Draw(old(Seen()), Verb.ViewportReset)
    {
      ViewportResetDraws(Seen());
      assert Seen().stride == stride && Seen().bh == bh;
      hide *;
      Place(0, 0, stride, bh);
      ResetState();
    }

    // ---- whole runs ----

    /** The images a cart holds, their bakes trusted. */
    ghost predicate PoolOk(images: seq<SpriteImage>)
      reads `look, `hist, tables`Repr, images
    {
      forall i :: 0 <= i < |images| ==> images[i] !in tables.Repr && Trusted(images[i])
    }

    lemma PoolParts(images: seq<SpriteImage>)
      requires PoolOk(images)
      ensures forall i :: 0 <= i < |images| ==> images[i] !in tables.Repr && Trusted(images[i])
    {
      hide Trusted;
    }

    lemma PoolWhole(images: seq<SpriteImage>)
      requires forall i :: 0 <= i < |images| ==> images[i] !in tables.Repr && Trusted(images[i])
      ensures PoolOk(images)
    {
      hide Trusted;
    }

    /** An image a verb did not touch keeps its bakes' trust: ids only gain meanings. */
    twostate lemma ImageKept(img: SpriteImage)
      requires old(Trusted(img)) && img.Model() == old(img.Model()) && look.base == old(look.base) && Grows(old(hist), hist)
      ensures Trusted(img)
    {
      hide Accounted, Faithful, Grows, ValidSprite;
      FaithfulGrows(img.Model(), img.sprite, look.base, old(hist), hist);
    }

    /** A verb this canvas can be asked for: a native writer's sheet is its gate's, an image
        is one held, a sprite is placed where its int16 words do not move it. */
    ghost predicate Callable(f: Frame, v: Verb, images: seq<SpriteImage>) {
      && Legal(v)
      && (v.Spr? ==> Alike(f.view, f.stride, f.bh, v.x, v.y, v.scale)
                     && (v.token != 0 ==> v.token in gates && gates[v.token] == v.sheet))
      && (v.Image? ==> v.slot < |images| && images[v.slot].sprite == v.sprite)
    }

    method Draws(v: Verb) returns (answers: seq<nat>)
      requires Valid() && Callable(Seen(), v, []) && IsDrawing(v)
      modifies `surf, `batchSheet, `hist, batchArr, tables.Repr
      ensures Valid() && fresh(tables.Repr - old(tables.Repr)) && Grows(old(hist), hist)
      ensures Seen() == Draw(old(Seen()), v)
      ensures answers == Reads(old(Seen()), v)
    {
      assert v.Spr? || v.Rect? || v.Rectb? || v.Pset? || v.Pget? || v.Cls?;
      CallableSpr(v);
      PgetDraws(Seen());
      ReadsOf(Seen(), v);
      hide *;
      answers := [];
      match v
      case Spr(token, sheet, tile, x, y, colorkey, scale, flip) =>
        if token == 0 {
          SprTile(sheet, tile, x, y, colorkey, scale, flip);
        } else {
          SprGate(token, tile, x, y, colorkey, scale, flip);
        }
      case Rect(x, y, w, h, c) => Rect(x, y, w, h, c);
      case Rectb(x, y, w, h, c) => Rectb(x, y, w, h, c);
      case Pset(x, y, c) => Pset(x, y, c);
      case Cls(c) => Cls(c);
      case Pget(x, y) =>
        var c := Pget(x, y);
        answers := [c];
    }

    lemma CallableSpr(v: Verb)
      requires Valid() && Callable(Seen(), v, [])
      ensures v.Spr? ==> ValidSheet(v.sheet) && Alike(ViewNow(), stride, bh, v.x, v.y, v.scale)
                         && (v.token != 0 ==> v.token in gates && gates[v.token] == v.sheet)
    {
      hide ValidSheet, Alike, TablesOk, GatesOk, QueueOk, WellFormedFrame, Drained;
    }

    /** The verbs that set one thing. */
    method Sets(v: Verb)
      requires Valid() && Aimed()
      requires v.Camera? || v.Clip? || v.ClipReset?
      modifies `surf, `batchSheet, `hist, batchArr, tables.Repr, `userCamX, `userCamY, `camX, `camY, `clip
      ensures Valid() && Aimed() && fresh(tables.Repr - old(tables.Repr)) && Grows(old(hist), hist)
      ensures Seen() == Draw(old(Seen()), v)
    {
      Parts();
      hide *;
      match v
      case Camera(x, y) => var prev := Camera(x, y);
      case Clip(x, y, w, h) => Clip(x, y, w, h);
      case ClipReset => ClipReset();
    }

    /** The verbs that set the pattern. */
    method Patterns(v: Verb)
      requires Valid() && (v.Fillp? || v.FillpReset?)
      modifies `fillp, `fillpCol
      ensures Valid() && Seen() == Draw(old(Seen()), v)
    {
      hide *;
      match v
      case Fillp(p, c) => Fillp(p, c);
      case FillpReset => FillpReset();
    }

    /** The verbs that move the colours or the surface. */
    method Moves(v: Verb)
      requires Valid() && Aimed() && Legal(v) && (v.Remap? || v.Viewport? || v.ViewportReset? || v.ResetState?)
      modifies `surf, `batchSheet, `hist, batchArr, tables.Repr, `look
      modifies `userCamX, `userCamY, `camX, `camY, `clip, `fillp, `fillpCol, `ox, `oy, `w, `h
      ensures Valid() && Aimed() && fresh(tables.Repr - old(tables.Repr))
      ensures Grows(old(hist), hist) && look.base == old(look.base)
      ensures Seen() == Draw(old(Seen()), v)
    {
      ResetDraws(Seen());
      assert v.Remap? ==> CartPalette(v.op);
      Parts();
      hide *;
      match v
      case Remap(op) => Remap(op);
      case Viewport(x, y, w, h) => Viewport(x, y, w, h);
      case ViewportReset => ViewportReset();
      case ResetState => ResetState();
    }

    /** The verbs that draw nothing. */
    method Changes(v: Verb)
      requires Valid() && Aimed() && Legal(v) && !IsDrawing(v) && !v.Image?
      modifies `surf, `batchSheet, `hist, batchArr, tables.Repr, `look
      modifies `userCamX, `userCamY, `camX, `camY, `clip, `fillp, `fillpCol, `ox, `oy, `w, `h
      ensures Valid() && Aimed() && fresh(tables.Repr - old(tables.Repr))
      ensures Grows(old(hist), hist) && look.base == old(look.base)
      ensures Seen() == Draw(old(Seen()), v)
    {
      assert !(v.Spr? || v.Rect? || v.Rectb? || v.Pset? || v.Pget? || v.Cls?);
      hide *;
      Parts();
      if v.Camera? || v.Clip? || v.ClipReset? {
        Sets(v);
      } else if v.Fillp? || v.FillpReset? {
        GrowsSelf(hist);
        Patterns(v);
      } else {
        Moves(v);
      }
    }

    /** A verb of no image. */
    method Plain(v: Verb) returns (answers: seq<nat>)
      requires Valid() && Aimed() && Callable(Seen(), v, []) && !v.Image?
      modifies `surf, `batchSheet, `hist, batchArr, tables.Repr, `look
      modifies `userCamX, `userCamY, `camX, `camY, `clip, `fillp, `fillpCol, `ox, `oy, `w, `h
      ensures Valid() && Aimed() && fresh(tables.Repr - old(tables.Repr))
      ensures Grows(old(hist), hist) && look.base == old(look.base)
      ensures Seen() == Draw(old(Seen()), v) && answers == Reads(old(Seen()), v)
    {
      hide *;
      Parts();
      CallableLegal(Seen(), v, []);
      if IsDrawing(v) {
        answers := Draws(v);
      } else {
        DrawingReads(Seen(), v);
        Changes(v);
        answers := [];
      }
    }

    lemma CallableLegal(f: Frame, v: Verb, images: seq<SpriteImage>)
      requires Callable(f, v, images)
      ensures Legal(v) && (v.Image? ==> v.slot < |images| && images[v.slot].sprite == v.sprite && ValidSprite(v.sprite))
      ensures !v.Image? ==> Callable(f, v, [])
    {
      hide Alike, ValidSheet, ValidSprite;
    }

    /** An image's verb. */
    method CallImage(v: Verb, images: seq<SpriteImage>)
      requires Valid() && PoolOk(images) && Callable(Seen(), v, images) && v.Image?
      modifies images, `surf, `batchSheet, `hist, batchArr, tables.Repr
      ensures Valid() && PoolOk(images) && fresh(tables.Repr - old(tables.Repr))
      ensures Seen() == Draw(old(Seen()), v)
    {
      hide *;
      Parts();
      CallableLegal(Seen(), v, images);
      PoolParts(images);
      ImageIsDrawImage(Seen(), v);
      var img := images[v.slot];
      Image(img, v.x, v.y, v.scale, v.flip);
      forall i | 0 <= i < |images| ensures images[i] !in tables.Repr && Trusted(images[i]) {
        if images[i] != img {
          ImageKept(images[i]);
        }
      }
      PoolWhole(images);
    }

    /** Any verb. */
    method Call(v: Verb, images: seq<SpriteImage>) returns (answers: seq<nat>)
      requires Valid() && Aimed() && PoolOk(images) && Callable(Seen(), v, images)
      modifies images
      modifies `surf, `batchSheet, `hist, batchArr, tables.Repr, `look
      modifies `userCamX, `userCamY, `camX, `camY, `clip, `fillp, `fillpCol, `ox, `oy, `w, `h
      ensures Valid() && Aimed() && PoolOk(images) && fresh(tables.Repr - old(tables.Repr))
      ensures Seen() == Draw(old(Seen()), v) && answers == Reads(old(Seen()), v)
    {
      hide *;
      Parts();
      CallableLegal(Seen(), v, images);
      if v.Image? {
        NoReads(Seen(), v);
        CallImage(v, images);
        answers := [];
      } else {
        PoolParts(images);
        answers := Plain(v);
        forall i | 0 <= i < |images| ensures images[i] !in tables.Repr && Trusted(images[i]) {
          ImageKept(images[i]);
        }
        PoolWhole(images);
      }
    }

    /** A run of verbs, each one this canvas can be asked for when it comes. */
    ghost predicate CallableRun(f: Frame, vs: seq<Verb>, images: seq<SpriteImage>)
      requires WellFormedFrame(f)
    {
      && AllLegal(vs)
      && forall k :: 0 <= k < |vs| ==> Callable(DrawAll(f, vs[..k]), vs[k], images)
    }

    lemma RunVerb(f: Frame, vs: seq<Verb>, images: seq<SpriteImage>, k: nat)
      requires WellFormedFrame(f) && CallableRun(f, vs, images) && k < |vs|
      ensures AllLegal(vs[..k]) && AllLegal(vs[..k + 1]) && Callable(DrawAll(f, vs[..k]), vs[k], images)
      ensures DrawAll(f, vs[..k + 1]) == Draw(DrawAll(f, vs[..k]), vs[k])
      ensures Answers(f, vs[..k + 1]) == Answers(f, vs[..k]) + Reads(DrawAll(f, vs[..k]), vs[k])
    {
      hide *;
      CallableAt(f, vs, images, k);
      RunOneMore(f, vs, k);
    }

    lemma CallableAt(f: Frame, vs: seq<Verb>, images: seq<SpriteImage>, k: nat)
      requires WellFormedFrame(f) && CallableRun(f, vs, images) && k < |vs|
      ensures AllLegal(vs) && AllLegal(vs[..k]) && Callable(DrawAll(f, vs[..k]), vs[k], images)
    {
      hide Callable, DrawAll, Legal;
    }

    lemma RunEnds(f: Frame, vs: seq<Verb>, images: seq<SpriteImage>)
      requires WellFormedFrame(f) && CallableRun(f, vs, images)
      ensures AllLegal(vs[..0]) && DrawAll(f, vs[..0]) == f && Answers(f, vs[..0]) == []
      ensures AllLegal(vs) && vs[..|vs|] == vs
    {
    }

    /** Any run of verbs: the buffer after a last flush, and every pixel read on the way,
        are those of drawing each thing at once. */
    method Play(vs: seq<Verb>, images: seq<SpriteImage>) returns (answers: seq<nat>)
      requires Valid() && Aimed() && PoolOk(images) && CallableRun(Seen(), vs, images)
      modifies images
      modifies `surf, `batchSheet, `hist, batchArr, tables.Repr, `look
      modifies `userCamX, `userCamY, `camX, `camY, `clip, `fillp, `fillpCol, `ox, `oy, `w, `h
      ensures Valid() && batchArr[0] == 4
      ensures AllLegal(vs) && Now() == DrawAll(old(Seen()), vs) && answers == Answers(old(Seen()), vs)
    {
      hide *;
      Parts();
      ghost var f := Seen();
      RunEnds(f, vs, images);
      answers := [];
      for k := 0 to |vs|
        invariant Valid() && Aimed() && PoolOk(images) && fresh(tables.Repr - old(tables.Repr))
        invariant WellFormedFrame(Now()) && QueueOk(batchArr[..], batchSheet, gates)
        invariant AllLegal(vs[..k]) && Seen() == DrawAll(f, vs[..k]) && answers == Answers(f, vs[..k])
      {
        RunVerb(f, vs, images, k);
        var more := Call(vs[k], images);
        answers := answers + more;
        Parts();
      }
      FlushBatch();
    }
  }

  lemma StampIsImage(f: Frame, pixels: Surf, spr: Sprite, x: int, y: int, scale: int, flip: int)
    requires WellFormedFrame(f)
    requires StampedIsDrawn(pixels, spr, f.look, scale, flip, x - f.view.camX, y - f.view.camY, f.surf, f.view.clip)
    ensures ValidSprite(spr)
    ensures var s := Blit(f.surf, f.view.clip, pixels, x - f.view.camX, y - f.view.camY, Some(KEY));
            Sized(s, f.stride, f.bh) && DrawImage(f, spr, x, y, scale, flip) == f.(surf := s)
  {
    ImageDraws(f, spr, x, y, scale, flip);
    hide DrawImage, Blit, DrawSprite;
  }

  lemma GrowsOn(a: History, b: History, c: History)
    requires Grows(a, b) && Grows(b, c)
    ensures Grows(a, c)
  {
  }

  lemma EmptyIsTrusted(spr: Sprite, base: seq<nat>, h: History)
    requires ValidSprite(spr) && |base| == 64
    ensures Accounted(Empty()) && Faithful(Empty(), spr, base, h)
  {
  }

  lemma StampIsTile(pixels: Surf, s: Surf, clip: Area, l: Look, sh: Sheet, colorkey: int, scale: int,
                    tile: int, px: int, py: int, flip: int)
    requires ValidSheet(sh) && WellFormed(l) && 0 <= tile < 512
    requires StampedIsDrawn(pixels, TileSprite(sh, tile, colorkey), l, scale, flip, px, py, s, clip)
    ensures Blit(s, clip, pixels, px, py, Some(KEY))
            == DrawTile(s, clip, sh, Lut(l), l.palt, colorkey, tile, px, py, scale, flip)
  {
    hide TileSprite, Blit, DrawSprite, ValidSheet, WellFormed;
  }
}
