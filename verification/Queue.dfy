/** The pending-sprite queue (device/device_canvas.py:2086-2232): quads in a flat int16
    array, four header words before them, drawn in runs. */
module Queue {
  import opened Options
  import opened Palette
  import opened Surface
  import opened Drawing

  const CAPACITY: nat := 2052

  predicate Int16(n: int) { -32768 <= n <= 32767 }

  /** A coordinate as the queue stores it. */
  function Clamp16(n: int): int {
    if n < -32768 then -32768 else if n > 32767 then 32767 else n
  }

  /** A tile id as the queue stores it. */
  function TileId(n: int): int {
    if Int16(n) then n else -1
  }

  /** The queue's items: quads from index 4 up to the index in slot 0. */
  function Items(a: seq<int>): (q: seq<Item>)
    requires |a| == CAPACITY && 4 <= a[0] <= CAPACITY
    ensures |q| == (a[0] - 4) / 4
    ensures forall i :: 0 <= i < |q| ==> q[i] == Item(a[4 + 4 * i], a[5 + 4 * i], a[6 + 4 * i], a[7 + 4 * i])
  {
    seq((a[0] - 4) / 4, i requires 0 <= i < (a[0] - 4) / 4 =>
      Item(a[4 + 4 * i], a[5 + 4 * i], a[6 + 4 * i], a[7 + 4 * i]))
  }

  /** The queue is whole quads within its array, of one writer's sheet. */
  predicate QueueOk(a: seq<int>, sheet: Option<Sheet>, gates: map<int, Sheet>) {
    && |a| == CAPACITY && 4 <= a[0] <= CAPACITY && a[0] % 4 == 0
    && (a[0] > 4 ==> sheet.Some? && ValidSheet(sheet.value)
                     && (a[3] != 0 ==> a[3] in gates && gates[a[3]] == sheet.value))
  }

  /** The surface once the queue is drawn. */
  function Drained(f: Frame, a: seq<int>, sheet: Option<Sheet>, gates: map<int, Sheet>): Surf
    requires WellFormed(f.look) && QueueOk(a, sheet, gates)
  {
    if a[0] > 4 then DrawItems(f.surf, f.view, f.look, sheet.value, a[1], a[2], Items(a)) else f.surf
  }

  lemma QueueFacts(a: seq<int>, sheet: Option<Sheet>, gates: map<int, Sheet>)
    requires QueueOk(a, sheet, gates)
    ensures |a| == CAPACITY && 4 <= a[0] <= CAPACITY && a[0] % 4 == 0
    ensures a[0] > 4 ==> sheet.Some? && ValidSheet(sheet.value) && |Items(a)| == (a[0] - 4) / 4
  {
  }

  lemma EmptyQueue(a: seq<int>, sheet: Option<Sheet>, gates: map<int, Sheet>, f: Frame)
    requires |a| == CAPACITY && a[0] == 4 && WellFormed(f.look)
    ensures QueueOk(a, sheet, gates) && Drained(f, a, sheet, gates) == f.surf
  {
  }

  /** The queue with one quad more. */
  function Appended(a: seq<int>, it: Item): (b: seq<int>)
    requires |a| == CAPACITY && 4 <= a[0] && a[0] + 4 <= CAPACITY
    ensures |b| == CAPACITY
  {
    a[a[0] := it.tile][a[0] + 1 := it.x][a[0] + 2 := it.y][a[0] + 3 := it.flip][0 := a[0] + 4]
  }

  /** The header names a writer and the sheet its quads are of. */
  predicate RunOf(a: seq<int>, sheet: Option<Sheet>, gates: map<int, Sheet>) {
    && |a| == CAPACITY && sheet.Some? && ValidSheet(sheet.value)
    && (a[3] != 0 ==> a[3] in gates && gates[a[3]] == sheet.value)
  }

  /** A quad written past the queue's end is one more sprite drawn. */
  lemma OneMoreQuad(f: Frame, a: seq<int>, sheet: Option<Sheet>, gates: map<int, Sheet>, it: Item)
    requires WellFormed(f.look) && QueueOk(a, sheet, gates) && a[0] + 4 <= CAPACITY
    requires RunOf(a, sheet, gates)
    ensures sheet.Some? && ValidSheet(sheet.value)
    ensures QueueOk(Appended(a, it), sheet, gates)
    ensures Drained(f, Appended(a, it), sheet, gates)
            == DrawItem(Drained(f, a, sheet, gates), f.view, f.look, sheet.value, a[1], a[2], it)
  {
    hide ValidSheet, WellFormed, DrawItem, DrawItems, Items, Appended;
    ItemsAppended(a, it);
    if a[0] == 4 {
      NoItems(f, sheet.value, a[1], a[2]);
    }
    DrawOneMore(f.surf, f.view, f.look, sheet.value, a[1], a[2], Items(a), it);
  }

  lemma ItemsAppended(a: seq<int>, it: Item)
    requires |a| == CAPACITY && 4 <= a[0] && a[0] + 4 <= CAPACITY && a[0] % 4 == 0
    ensures var b := Appended(a, it);
            && b[0] == a[0] + 4 && b[1] == a[1] && b[2] == a[2] && b[3] == a[3]
            && Items(b) == Items(a) + [it] && (a[0] == 4 ==> Items(a) == [])
  {
    var b := Appended(a, it);
    var n := (a[0] - 4) / 4;
    assert |Items(b)| == n + 1;
    forall i | 0 <= i < n ensures Items(b)[i] == Items(a)[i] {
      assert 4 + 4 * i + 3 < a[0];
    }
  }

  lemma NoItems(f: Frame, sh: Sheet, colorkey: int, scale: int)
    requires WellFormed(f.look) && ValidSheet(sh)
    ensures DrawItems(f.surf, f.view, f.look, sh, colorkey, scale, []) == f.surf
  {
  }

  lemma OffSheet(s: Surf, clip: Area, l: Look, sh: Sheet, colorkey: int, scale: int,
                 tile: int, px: int, py: int, flip: int)
    requires ValidSheet(sh) && WellFormed(l) && !(0 <= tile < 512)
    ensures DrawTile(s, clip, sh, Lut(l), l.palt, colorkey, tile, px, py, scale, flip) == s
  {
  }

  /** The queue's run, and that drawing it keeps the surface's shape. */
  lemma DrainedRun(f: Frame, a: seq<int>, sheet: Option<Sheet>, gates: map<int, Sheet>)
    requires WellFormedFrame(f) && QueueOk(a, sheet, gates) && a[0] > 4
    ensures sheet.Some? && ValidSheet(sheet.value)
    ensures Drained(f, a, sheet, gates) == DrawItems(f.surf, f.view, f.look, sheet.value, a[1], a[2], Items(a))
    ensures Sized(Drained(f, a, sheet, gates), f.stride, f.bh)
  {
    DrawItemsKeepsShape(f.surf, f.view, f.look, sheet.value, a[1], a[2], Items(a), f.stride, f.bh);
  }

  lemma OneItem(f: Frame, sh: Sheet, colorkey: int, scale: int, q: seq<Item>)
    requires WellFormed(f.look) && ValidSheet(sh) && |q| == 1
    ensures DrawItems(f.surf, f.view, f.look, sh, colorkey, scale, q)
            == DrawTile(f.surf, f.view.clip, sh, Lut(f.look), f.look.palt, colorkey,
                        q[0].tile, q[0].x - f.view.camX, q[0].y - f.view.camY, scale, q[0].flip)
  {
    DrawOneMore(f.surf, f.view, f.look, sh, colorkey, scale, [], q[0]);
    assert q == [] + [q[0]];
  }

  lemma RunFacts(a: seq<int>, sheet: Option<Sheet>, gates: map<int, Sheet>)
    requires RunOf(a, sheet, gates)
    ensures |a| == CAPACITY && sheet.Some? && ValidSheet(sheet.value)
  {
  }

  /** A queue that holds sprites has the header of the run they are of. */
  lemma RunStands(a: seq<int>, sheet: Option<Sheet>, gates: map<int, Sheet>)
    requires QueueOk(a, sheet, gates)
    ensures |a| == CAPACITY && 4 <= a[0] <= CAPACITY
    ensures a[0] != 4 ==> RunOf(a, sheet, gates) && (a[3] != 0 ==> a[3] in gates && sheet == Some(gates[a[3]]))
  {
  }

  lemma DrainedIsSized(f: Frame, a: seq<int>, sheet: Option<Sheet>, gates: map<int, Sheet>)
    requires WellFormedFrame(f) && QueueOk(a, sheet, gates)
    ensures Sized(Drained(f, a, sheet, gates), f.stride, f.bh)
    ensures WellFormedFrame(f.(surf := Drained(f, a, sheet, gates)))
  {
    if a[0] > 4 {
      DrainedRun(f, a, sheet, gates);
    }
  }

  // ---- the coordinates a queue can hold ----

  /** How big a tile is on the surface. */
  function Span(scale: int): (r: nat)
    ensures r >= 8
  {
    8 * Max(1, scale)
  }

  /** The texel of a tile placed at `at` that the pixel `p` shows, or -1 past its ends. */
  function TexelAt(at: int, p: int, scale: int): (t: int)
    ensures -1 <= t < 8
    ensures t == -1 <==> !(0 <= p - at < Span(scale))
    ensures 0 <= p - at < Span(scale) ==> t == Texel(p - at, 8, Max(1, scale))
  {
    if 0 <= p - at < Span(scale) then Texel(p - at, 8, Max(1, scale)) else -1
  }

  function TexelOf(v: View, x: int, y: int, scale: int, px: int, py: int): (int, int) {
    var tx, ty := TexelAt(x - v.camX, px, scale), TexelAt(y - v.camY, py, scale);
    if tx == -1 || ty == -1 then (-1, -1) else (tx, ty)
  }

  predicate Shown(v: View, w: nat, h: nat, px: int, py: int) {
    In(v.clip, px, py) && px < w && py < h && 0 <= px && 0 <= py
  }

  /** Every pixel of the buffer inside the clip shows the same texel of a tile, or none,
      from (x, y) as from where the queue's int16 words put it. */
  ghost predicate Alike(v: View, w: nat, h: nat, x: int, y: int, scale: int) {
    forall px, py :: Shown(v, w, h, px, py) ==>
      TexelOf(v, x, y, scale, px, py) == TexelOf(v, Clamp16(x), Clamp16(y), scale, px, py)
  }

  /** Storing the position as int16 changes no picture. */
  ghost predicate ClampHarmless(v: View, w: nat, h: nat, x: int, y: int, scale: int) {
    forall s, l, sh, ck, tile, flip :: Sized(s, w, h) && WellFormed(l) && ValidSheet(sh) ==>
      DrawItem(s, v, l, sh, ck, scale, Item(tile, x, y, flip))
      == DrawItem(s, v, l, sh, ck, scale, Item(tile, Clamp16(x), Clamp16(y), flip))
  }

  /** What one pixel shows of a queued tile. */
  lemma PixelOfItem(s: Surf, v: View, l: Look, sh: Sheet, ck: int, scale: int, it: Item, w: nat, h: nat,
                    px: nat, py: nat)
    requires Sized(s, w, h) && WellFormed(l) && ValidSheet(sh) && px < w && py < h
    ensures Sized(DrawItem(s, v, l, sh, ck, scale, it), w, h)
    ensures DrawItem(s, v, l, sh, ck, scale, it)[py][px] ==
            ItemPixel(v, l, sh, ck, it.tile, it.flip, TexelOf(v, it.x, it.y, scale, px, py),
                      In(v.clip, px, py), s[py][px])
  {
    hide Lut, ValidSheet, TileSprite, Texture;
  }

  /** A pixel holding `w` once texel `t` of a tile is drawn over it. */
  function ItemPixel(v: View, l: Look, sh: Sheet, ck: int, tile: int, flip: int, t: (int, int), inside: bool,
                     w: nat): nat
    requires ValidSheet(sh) && WellFormed(l) && -1 <= t.0 < 8 && -1 <= t.1 < 8
  {
    if !(0 <= tile < 512) || !inside || t.0 == -1 || t.1 == -1 then w
    else
      match Texture(TileSprite(sh, tile, ck), Lut(l), l.palt, flip, t.0, t.1)
      case None => w
      case Some(c) => c
  }

  lemma FlipBits(spr: Sprite, lut: seq<nat>, palt: seq<nat>, flip: int, sx: nat, sy: nat)
    requires ValidSprite(spr) && |lut| == |palt| == 64 && sx < spr.w && sy < |spr.rows|
    ensures Texture(spr, lut, palt, flip % 4, sx, sy) == Texture(spr, lut, palt, flip, sx, sy)
  {
    assert flip % 4 % 2 == flip % 2 && flip % 4 / 2 % 2 == flip / 2 % 2;
  }

  lemma TwoFlipBits(v: View, l: Look, sh: Sheet, ck: int, tile: int, flip: int, t: (int, int), inside: bool, w: nat)
    requires ValidSheet(sh) && WellFormed(l) && -1 <= t.0 < 8 && -1 <= t.1 < 8
    ensures ItemPixel(v, l, sh, ck, tile, flip % 4, t, inside, w) == ItemPixel(v, l, sh, ck, tile, flip, t, inside, w)
  {
    if 0 <= tile < 512 && t.0 != -1 && t.1 != -1 {
      FlipBits(TileSprite(sh, tile, ck), Lut(l), l.palt, flip, t.0, t.1);
    }
  }

  /** A sprite as the queue stores it: int16 words, two flip bits. */
  function Stored(it: Item): Item {
    Item(TileId(it.tile), Clamp16(it.x), Clamp16(it.y), it.flip % 4)
  }

  lemma ItemKeepsShape(s: Surf, v: View, l: Look, sh: Sheet, ck: int, scale: int, it: Item, w: nat, h: nat)
    requires Sized(s, w, h) && WellFormed(l) && ValidSheet(sh)
    ensures Sized(DrawItem(s, v, l, sh, ck, scale, it), w, h)
  {
    hide Lut, ValidSheet, WellFormed, TileSprite, SpritePixel;
  }

  lemma StoredPixel(s: Surf, v: View, l: Look, sh: Sheet, ck: int, scale: int, it: Item, w: nat, h: nat,
                    px: nat, py: nat)
    requires Sized(s, w, h) && WellFormed(l) && ValidSheet(sh) && Alike(v, w, h, it.x, it.y, scale)
    requires px < w && py < h
    ensures Sized(DrawItem(s, v, l, sh, ck, scale, Stored(it)), w, h) && Sized(DrawItem(s, v, l, sh, ck, scale, it), w, h)
    ensures DrawItem(s, v, l, sh, ck, scale, Stored(it))[py][px] == DrawItem(s, v, l, sh, ck, scale, it)[py][px]
  {
    hide DrawItem, Lut, ValidSheet, WellFormed, TexelAt, Texture;
    PixelOfItem(s, v, l, sh, ck, scale, it, w, h, px, py);
    PixelOfItem(s, v, l, sh, ck, scale, Stored(it), w, h, px, py);
    if In(v.clip, px, py) {
      assert Shown(v, w, h, px, py);
      TwoFlipBits(v, l, sh, ck, it.tile, it.flip, TexelOf(v, it.x, it.y, scale, px, py), true, s[py][px]);
    }
  }

  /** A sprite as the queue stores it draws what it would have drawn at once. */
  lemma QueuedAsDrawn(s: Surf, v: View, l: Look, sh: Sheet, ck: int, scale: int, it: Item, w: nat, h: nat)
    requires Sized(s, w, h) && WellFormed(l) && ValidSheet(sh) && Alike(v, w, h, it.x, it.y, scale)
    ensures DrawItem(s, v, l, sh, ck, scale, Stored(it)) == DrawItem(s, v, l, sh, ck, scale, it)
  {
    hide DrawItem, Stored, Alike, ValidSheet, WellFormed;
    ItemKeepsShape(s, v, l, sh, ck, scale, it, w, h);
    ItemKeepsShape(s, v, l, sh, ck, scale, Stored(it), w, h);
    var a, b := DrawItem(s, v, l, sh, ck, scale, Stored(it)), DrawItem(s, v, l, sh, ck, scale, it);
    forall py, px | 0 <= py < h && 0 <= px < w ensures a[py][px] == b[py][px] {
      StoredPixel(s, v, l, sh, ck, scale, it, w, h, px, py);
    }
    SameSurf(a, b);
  }

  // ---- exactly when that is so ----

  /** 64 words, all different and none the key; tile 0's texels in those colours. */
  function Rainbow(): (l: Look)
    ensures WellFormed(l) && forall i :: 0 <= i < 64 ==> Lut(l)[i] == i && l.palt[i] == 0
  {
    Look(Identity(), Opaque(), None, Identity())
  }

  function RainbowSheet(): (sh: Sheet)
    ensures ValidSheet(sh)
    ensures forall u, v :: 0 <= u < 8 && 0 <= v < 8 ==> sh.rows[v][u] == 8 * v + u
  {
    Sheet(0, seq(256, v requires 0 <= v < 256 => seq(128, u requires 0 <= u < 128 => if u < 8 && v < 8 then 8 * v + u else 0)))
  }

  lemma RainbowPixel(v: View, t: (int, int))
    requires -1 <= t.0 < 8 && -1 <= t.1 < 8
    ensures ItemPixel(v, Rainbow(), RainbowSheet(), -1, 0, 0, t, true, 64)
            == if t.0 == -1 || t.1 == -1 then 64 else 8 * t.1 + t.0
  {
    hide Lut;
    if t.0 != -1 && t.1 != -1 {
      assert TileSprite(RainbowSheet(), 0, -1).rows[t.1][t.0] == 8 * t.1 + t.0;
    }
  }

  lemma ClampShows(v: View, w: nat, h: nat, x: int, y: int, scale: int, px: int, py: int)
    requires Shown(v, w, h, px, py) && ClampHarmless(v, w, h, x, y, scale)
    ensures TexelOf(v, x, y, scale, px, py) == TexelOf(v, Clamp16(x), Clamp16(y), scale, px, py)
  {
    hide DrawItem, ItemPixel, Rainbow, RainbowSheet, Clamp16, TexelAt;
    var blank := Paper(w, h);
    PixelOfItem(blank, v, Rainbow(), RainbowSheet(), -1, scale, Item(0, x, y, 0), w, h, px, py);
    PixelOfItem(blank, v, Rainbow(), RainbowSheet(), -1, scale, Item(0, Clamp16(x), Clamp16(y), 0), w, h, px, py);
    RainbowPixel(v, TexelOf(v, x, y, scale, px, py));
    RainbowPixel(v, TexelOf(v, Clamp16(x), Clamp16(y), scale, px, py));
  }

  function Paper(w: nat, h: nat): (s: Surf)
    ensures Sized(s, w, h) && forall y, x :: 0 <= y < h && 0 <= x < w ==> s[y][x] == 64
  {
    seq(h, _ => PaperRow(w))
  }

  function PaperRow(w: nat): (r: seq<nat>)
    ensures |r| == w && forall x :: 0 <= x < w ==> r[x] == 64
  {
    seq(w, _ => 64)
  }

  /** The queue's int16 positions change no picture if and only if every pixel on show
      falls in the same texel from either position. */
  lemma ClampHarmlessExactly(v: View, w: nat, h: nat, x: int, y: int, scale: int)
    ensures ClampHarmless(v, w, h, x, y, scale) <==> Alike(v, w, h, x, y, scale)
  {
    hide TexelOf, Shown;
    if ClampHarmless(v, w, h, x, y, scale) {
      forall px, py | Shown(v, w, h, px, py)
        ensures TexelOf(v, x, y, scale, px, py) == TexelOf(v, Clamp16(x), Clamp16(y), scale, px, py)
      {
        ClampShows(v, w, h, x, y, scale, px, py);
      }
    }
    if Alike(v, w, h, x, y, scale) {
      forall s, l, sh, ck, tile, flip | Sized(s, w, h) && WellFormed(l) && ValidSheet(sh)
        ensures DrawItem(s, v, l, sh, ck, scale, Item(tile, x, y, flip))
                == DrawItem(s, v, l, sh, ck, scale, Item(tile, Clamp16(x), Clamp16(y), flip))
      {
        ClampedAsDrawn(s, v, l, sh, ck, scale, tile, x, y, flip, w, h);
      }
    }
  }

  lemma ClampedAsDrawn(s: Surf, v: View, l: Look, sh: Sheet, ck: int, scale: int,
                       tile: int, x: int, y: int, flip: int, w: nat, h: nat)
    requires Sized(s, w, h) && WellFormed(l) && ValidSheet(sh) && Alike(v, w, h, x, y, scale)
    ensures DrawItem(s, v, l, sh, ck, scale, Item(tile, x, y, flip))
            == DrawItem(s, v, l, sh, ck, scale, Item(tile, Clamp16(x), Clamp16(y), flip))
  {
    QueuedAsDrawn(s, v, l, sh, ck, scale, Item(tile, x, y, flip), w, h);
    QueuedAsDrawn(s, v, l, sh, ck, scale, Item(tile, Clamp16(x), Clamp16(y), flip), w, h);
    hide DrawItem, Alike, ValidSheet, WellFormed, Sized;
  }

  /** Far enough inside int16 that neither a sprite clamped onto the pixel nor one clamped off
      it can change what it shows. */
  predicate Roomy(at: int, scale: int) { -32768 + Span(scale) <= at <= 32766 }

  /** Whether the pixels a camera and clip put on show all are: a nonempty stretch of the
      buffer, by its ends. */
  predicate CameraFits(v: View, w: nat, h: nat, scale: int) {
    var x0, y0 := Max(0, v.clip.x0), Max(0, v.clip.y0);
    var x1, y1 := Min(w, v.clip.x1), Min(h, v.clip.y1);
    x0 < x1 && y0 < y1 ==>
      && Roomy(x0 + v.camX, scale) && Roomy(x1 - 1 + v.camX, scale)
      && Roomy(y0 + v.camY, scale) && Roomy(y1 - 1 + v.camY, scale)
  }

  /** No sprite at any position is drawn otherwise for its clamp if and only if the camera and
      the clip keep what is on show inside the queue's words. */
  lemma CameraFitsExactly(v: View, w: nat, h: nat, scale: int)
    ensures (forall x, y :: ClampHarmless(v, w, h, x, y, scale)) <==> CameraFits(v, w, h, scale)
  {
    forall x, y ensures ClampHarmless(v, w, h, x, y, scale) <==> Alike(v, w, h, x, y, scale) {
      ClampHarmlessExactly(v, w, h, x, y, scale);
    }
    hide ClampHarmless, TexelOf, Roomy;
    if CameraFits(v, w, h, scale) {
      forall x, y ensures Alike(v, w, h, x, y, scale) {
        forall px, py | Shown(v, w, h, px, py)
          ensures TexelOf(v, x, y, scale, px, py) == TexelOf(v, Clamp16(x), Clamp16(y), scale, px, py)
        {
          ShownFits(v, w, h, scale, px, py);
          RoomyKeeps(v, x, y, scale, px, py);
        }
      }
    } else {
      var px, py := CrampedPixel(v, w, h, scale);
      var x, y := CrampedLoses(v, scale, px, py);
      assert !Alike(v, w, h, x, y, scale);
    }
  }

  lemma ShownFits(v: View, w: nat, h: nat, scale: int, px: int, py: int)
    requires CameraFits(v, w, h, scale) && Shown(v, w, h, px, py)
    ensures Roomy(px + v.camX, scale) && Roomy(py + v.camY, scale)
  {
  }

  lemma CrampedPixel(v: View, w: nat, h: nat, scale: int) returns (px: int, py: int)
    requires !CameraFits(v, w, h, scale)
    ensures Shown(v, w, h, px, py) && !(Roomy(px + v.camX, scale) && Roomy(py + v.camY, scale))
  {
    var x0, y0 := Max(0, v.clip.x0), Max(0, v.clip.y0);
    var x1, y1 := Min(w, v.clip.x1), Min(h, v.clip.y1);
    px := if Roomy(x0 + v.camX, scale) then x1 - 1 else x0;
    py := if Roomy(y0 + v.camY, scale) then y1 - 1 else y0;
  }

  /** On a roomy pixel a clamped position shows the same texel. */
  lemma RoomyKeeps(v: View, x: int, y: int, scale: int, px: int, py: int)
    requires Roomy(px + v.camX, scale) && Roomy(py + v.camY, scale)
    ensures TexelOf(v, x, y, scale, px, py) == TexelOf(v, Clamp16(x), Clamp16(y), scale, px, py)
  {
    AlongKeeps(x, v.camX, px, scale);
    AlongKeeps(y, v.camY, py, scale);
  }

  lemma AlongKeeps(x: int, cam: int, p: int, scale: int)
    requires Roomy(p + cam, scale)
    ensures TexelAt(x - cam, p, scale) == TexelAt(Clamp16(x) - cam, p, scale)
  {
  }

  /** On any other, some sprite is lost or gained. */
  lemma CrampedLoses(v: View, scale: int, px: int, py: int) returns (x: int, y: int)
    requires !(Roomy(px + v.camX, scale) && Roomy(py + v.camY, scale))
    ensures TexelOf(v, x, y, scale, px, py) != TexelOf(v, Clamp16(x), Clamp16(y), scale, px, py)
  {
    x, y := px + v.camX, py + v.camY;
    CornerTexel(v, scale, px, py);
    if TexelAt(Clamp16(x) - v.camX, px, scale) != -1 && TexelAt(Clamp16(y) - v.camY, py, scale) != -1 {
      if Roomy(px + v.camX, scale) {
        y := Gained(py + v.camY, v.camY, py, scale);
      } else {
        x := Gained(px + v.camX, v.camX, px, scale);
      }
    }
  }

  lemma CornerTexel(v: View, scale: int, px: int, py: int)
    ensures TexelOf(v, px + v.camX, py + v.camY, scale, px, py) == (0, 0)
  {
    ZeroTexel(Max(1, scale));
  }

  lemma ZeroTexel(scale: nat)
    requires scale >= 1
    ensures 0 < 8 * scale && Texel(0, 8, scale) == 0
  {
  }

  /** A place whose own sprite misses the pixel, and whose clamped twin does not. */
  lemma Gained(at: int, cam: int, p: int, scale: int) returns (x: int)
    requires at == p + cam && !Roomy(at, scale) && TexelAt(Clamp16(at) - cam, p, scale) != -1
    ensures TexelAt(x - cam, p, scale) == -1 && TexelAt(Clamp16(x) - cam, p, scale) != -1
  {
    x := if at > 32766 then at + 1 else at - Span(scale);
  }

  /** A camera past 32767 loses what is drawn under it: at (40000, 0), camera (40000, 0),
      a sprite at the top left of an 8 by 8 surface is queued off its left edge. */
  lemma FarCameraLosesSprites()
    ensures var v := View(0, 0, 8, 8, 40000, 0, Area(0, 0, 8, 8));
            !ClampHarmless(v, 8, 8, 40000, 0, 1)
  {
    var v := View(0, 0, 8, 8, 40000, 0, Area(0, 0, 8, 8));
    ClampHarmlessExactly(v, 8, 8, 40000, 0, 1);
    assert Shown(v, 8, 8, 0, 0);
    assert TexelOf(v, 40000, 0, 1, 0, 0) == (0, 0);
    assert TexelOf(v, 32767, 0, 1, 0, 0) == (-1, -1);
  }
}
