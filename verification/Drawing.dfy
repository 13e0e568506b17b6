/** The canvas's verbs in their simple form (device/device_canvas.py): every verb takes
    effect at once, every colour is resolved when it is used, and nothing is queued, cached
    or mirrored. This is what a cart's author has been promised (a verb draws what it says,
    in order, over what is there) and what the canvas with its queue and its tables is
    proved to come to. */
module Drawing {
  import opened Options
  import opened Sequences
  import opened Palette
  import opened Surface

  function Max(a: int, b: int): int { if a > b then a else b }

  function Min(a: int, b: int): int { if a < b then a else b }

  /** Where a canvas draws in its buffer: the surface's origin and size, the camera less
      that origin, and the clip in the buffer's own coordinates. */
  datatype View = View(ox: nat, oy: nat, w: nat, h: nat, camX: int, camY: int, clip: Area)

  datatype Frame = Frame(
    surf: Surf, stride: nat, bh: nat, view: View, look: Look, fillp: nat, fillpCol: int,
    stock: seq<nat>)

  predicate WellFormedFrame(f: Frame) {
    && Sized(f.surf, f.stride, f.bh)
    && WellFormed(f.look) && KEY !in f.look.base
  }

  datatype Verb =
    | Spr(token: int, sheet: Sheet, tile: int, x: int, y: int, colorkey: int, scale: int, flip: int)
    | Image(slot: nat, sprite: Sprite, x: int, y: int, scale: int, flip: int)
    | Rect(x: int, y: int, w: int, h: int, c: int)
    | Rectb(x: int, y: int, w: int, h: int, c: int)
    | Pset(x: int, y: int, c: int)
    | Pget(x: int, y: int)
    | Cls(c: int)
    | Camera(x: int, y: int)
    | Clip(x: int, y: int, w: int, h: int)
    | ClipReset
    | Remap(op: Op)
    | Fillp(pattern: int, c: int)
    | FillpReset
    | Viewport(x: int, y: int, w: int, h: int)
    | ViewportReset
    | ResetState

  /** The palette verbs a cart calls. */
  predicate CartPalette(op: Op) {
    op.Pal? || op.PalReset? || op.Screen? || op.Palt? || op.PaltReset?
  }

  // ---- one sprite ----

  /** A queued sprite. */
  datatype Item = Item(tile: int, x: int, y: int, flip: int)

  function DrawItem(s: Surf, v: View, l: Look, sh: Sheet, colorkey: int, scale: int, it: Item): Surf
    requires ValidSheet(sh) && WellFormed(l)
  {
    DrawTile(s, v.clip, sh, Lut(l), l.palt, colorkey, it.tile, it.x - v.camX, it.y - v.camY, scale, it.flip)
  }

  /** `blit_batch`: a run of sprites, each drawn in turn. */
  function BlitQuads(s: Surf, clip: Area, sh: Sheet, lut: seq<nat>, palt: seq<nat>, colorkey: int, scale: int,
                     camX: int, camY: int, q: seq<Item>): Surf
    requires ValidSheet(sh) && |lut| == |palt| == 64
  {
    if q == [] then s
    else
      var it := q[|q| - 1];
      DrawTile(BlitQuads(s, clip, sh, lut, palt, colorkey, scale, camX, camY, q[..|q| - 1]),
               clip, sh, lut, palt, colorkey, it.tile, it.x - camX, it.y - camY, scale, it.flip)
  }

  /** A run of sprites, each drawn at once. */
  function DrawItems(s: Surf, v: View, l: Look, sh: Sheet, colorkey: int, scale: int, q: seq<Item>): Surf
    requires ValidSheet(sh) && WellFormed(l)
  {
    BlitQuads(s, v.clip, sh, Lut(l), l.palt, colorkey, scale, v.camX, v.camY, q)
  }

  lemma DrawOneMore(s: Surf, v: View, l: Look, sh: Sheet, colorkey: int, scale: int, q: seq<Item>, it: Item)
    requires ValidSheet(sh) && WellFormed(l)
    ensures DrawItems(s, v, l, sh, colorkey, scale, q + [it])
            == DrawItem(DrawItems(s, v, l, sh, colorkey, scale, q), v, l, sh, colorkey, scale, it)
  {
    assert (q + [it])[..|q|] == q;
  }

  lemma {:induction false} DrawItemsKeepsShape(s: Surf, v: View, l: Look, sh: Sheet, colorkey: int, scale: int,
                                               q: seq<Item>, w: nat, h: nat)
    requires ValidSheet(sh) && WellFormed(l) && Sized(s, w, h)
    ensures Sized(DrawItems(s, v, l, sh, colorkey, scale, q), w, h)
  {
    if q != [] {
      DrawItemsKeepsShape(s, v, l, sh, colorkey, scale, q[..|q| - 1], w, h);
    }
  }

  // ---- shapes ----

  function Resolve(l: Look, c: int): nat
    requires WellFormed(l)
  {
    Lut(l)[c % 64]
  }

  /** A rectangle, offset by the camera and cut to the clip. */
  function Cut(v: View, x: int, y: int, w: int, h: int): Area {
    var px, py := x - v.camX, y - v.camY;
    Area(Max(v.clip.x0, px), Max(v.clip.y0, py), Min(v.clip.x1, px + w), Min(v.clip.y1, py + h))
  }

  /** What a pattern's holes take: a word, or -1 to be left alone. */
  function Hole(l: Look, fillpCol: int): int
    requires WellFormed(l)
  {
    if fillpCol < 0 then -1 else Resolve(l, fillpCol)
  }

  function DrawRect(f: Frame, x: int, y: int, w: int, h: int, c: int): (r: Frame)
    requires WellFormedFrame(f)
    ensures WellFormedFrame(r)
  {
    f.(surf := Shade(f.surf, Cut(f.view, x, y, w, h), Resolve(f.look, c), f.fillp, Hole(f.look, f.fillpCol)))
  }

  function DrawRectb(f: Frame, x: int, y: int, w: int, h: int, c: int): Frame
    requires WellFormedFrame(f)
  {
    DrawRect(DrawRect(DrawRect(DrawRect(f, x, y, w, 1, c), x, y + h - 1, w, 1, c), x, y, 1, h, c),
             x + w - 1, y, 1, h, c)
  }

  function Pixel(f: Frame, x: int, y: int, c: int): Surf
    requires WellFormedFrame(f)
  {
    var px, py := x - f.view.camX, y - f.view.camY;
    if In(f.view.clip, px, py) then Fill(f.surf, Area(px, py, px + 1, py + 1), Resolve(f.look, c)) else f.surf
  }

  function DrawImage(f: Frame, spr: Sprite, x: int, y: int, scale: int, flip: int): (r: Frame)
    requires WellFormedFrame(f) && ValidSprite(spr)
    ensures WellFormedFrame(r)
  {
    f.(surf := DrawSprite(f.surf, f.view.clip, spr, Lut(f.look), f.look.palt,
                          x - f.view.camX, y - f.view.camY, Max(1, scale), flip))
  }

  // ---- state ----

  function Whole(v: View): Area { Area(v.ox, v.oy, v.ox + v.w, v.oy + v.h) }

  function Clipped(v: View, x: int, y: int, w: int, h: int): Area {
    Area(v.ox + Max(0, x), v.oy + Max(0, y), v.ox + Min(v.w, x + w), v.oy + Min(v.h, y + h))
  }

  function Fresh(f: Frame): Frame
    requires WellFormed(f.look)
  {
    f.(view := f.view.(camX := 0 - f.view.ox, camY := 0 - f.view.oy, clip := Whole(f.view)),
       look := Redo(f.look, Reset), fillp := 0, fillpCol := -1)
  }

  function Placed(f: Frame, x: int, y: int, w: int, h: int): View {
    var ox, oy := Max(0, x), Max(0, y);
    f.view.(ox := ox, oy := oy, w := Max(0, Min(w, f.stride - ox)), h := Max(0, Min(h, f.bh - oy)))
  }

  // ---- every verb ----

  predicate Legal(v: Verb) {
    && (v.Spr? ==> ValidSheet(v.sheet))
    && (v.Image? ==> ValidSprite(v.sprite))
    && (v.Remap? ==> CartPalette(v.op))
  }

  function Draw(f: Frame, v: Verb): (r: Frame)
    requires WellFormedFrame(f) && Legal(v)
    ensures WellFormedFrame(r) && r.stride == f.stride && r.bh == f.bh && r.stock == f.stock
  {
    match v
    case Spr(_, sheet, tile, x, y, colorkey, scale, flip) =>
      f.(surf := DrawItem(f.surf, f.view, f.look, sheet, colorkey, scale, Item(tile, x, y, flip)))
    case Image(_, sprite, x, y, scale, flip) => DrawImage(f, sprite, x, y, scale, flip)
    case Rect(x, y, w, h, c) => DrawRect(f, x, y, w, h, c)
    case Rectb(x, y, w, h, c) => DrawRectb(f, x, y, w, h, c)
    case Pset(x, y, c) => f.(surf := Pixel(f, x, y, c))
    case Pget(_, _) => f
    case Cls(c) => f.(surf := Fill(f.surf, Whole(f.view), Resolve(f.look, c)))
    case Camera(x, y) => f.(view := f.view.(camX := x - f.view.ox, camY := y - f.view.oy))
    case Clip(x, y, w, h) => f.(view := f.view.(clip := Clipped(f.view, x, y, w, h)))
    case ClipReset => f.(view := f.view.(clip := Whole(f.view)))
    case Remap(op) => f.(look := Redo(f.look, op))
    case Fillp(p, c) => f.(fillp := p % 0x10000, fillpCol := if c < 0 then -1 else c % 64)
    case FillpReset => f.(fillp := 0, fillpCol := -1)
    case Viewport(x, y, w, h) => Fresh(f.(view := Placed(f, x, y, w, h)))
    case ViewportReset => Fresh(f.(view := f.view.(ox := 0, oy := 0, w := f.stride, h := f.bh)))
    case ResetState => Fresh(f)
  }

  /** The lowest stock index whose word is `w`, or 0 for a word of no index. */
  function StockIndex(stock: seq<nat>, w: nat): nat {
    if w in stock then First(stock, w) else 0
  }

  /** `pix(x, y)`: the index of the pixel, wherever it is in the buffer; 0 outside it. */
  function Get(f: Frame, x: int, y: int): nat
    requires WellFormedFrame(f)
  {
    var px, py := x - f.view.camX, y - f.view.camY;
    if 0 <= px < f.stride && 0 <= py < f.bh then StockIndex(f.stock, f.surf[py][px]) else 0
  }

  predicate AllLegal(vs: seq<Verb>) {
    forall k :: 0 <= k < |vs| ==> Legal(vs[k])
  }

  function DrawAll(f: Frame, vs: seq<Verb>): (r: Frame)
    requires WellFormedFrame(f) && AllLegal(vs)
    ensures WellFormedFrame(r) && r.stride == f.stride && r.bh == f.bh && r.stock == f.stock
  {
    if vs == [] then f else Draw(DrawAll(f, vs[..|vs| - 1]), vs[|vs| - 1])
  }

  /** What one verb answers. */
  function Reads(f: Frame, v: Verb): seq<nat>
    requires WellFormedFrame(f)
  {
    if v.Pget? then [Get(f, v.x, v.y)] else []
  }

  /** What the reads of a run answer, in order. */
  function Answers(f: Frame, vs: seq<Verb>): seq<nat>
    requires WellFormedFrame(f) && AllLegal(vs)
  {
    if vs == [] then []
    else
      var last := vs[|vs| - 1];
      Answers(f, vs[..|vs| - 1]) + Reads(DrawAll(f, vs[..|vs| - 1]), last)
  }

  /** A run's next verb draws on what the run so far has drawn, and answers from it. */
  lemma RunOneMore(f: Frame, vs: seq<Verb>, k: nat)
    requires WellFormedFrame(f) && AllLegal(vs) && k < |vs|
    ensures AllLegal(vs[..k]) && AllLegal(vs[..k + 1])
    ensures DrawAll(f, vs[..k + 1]) == Draw(DrawAll(f, vs[..k]), vs[k])
    ensures Answers(f, vs[..k + 1]) == Answers(f, vs[..k]) + Reads(DrawAll(f, vs[..k]), vs[k])
  {
    hide Draw, Reads, Legal;
    assert vs[..k + 1][..k] == vs[..k] && vs[..k + 1][k] == vs[k];
  }
}
