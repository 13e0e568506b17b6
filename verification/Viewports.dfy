/** A viewport is a canvas of its own (device/device_canvas.py:822-890, 1052-1083,
    1242-1376): what is drawn under set_viewport is what a canvas of the window's size
    would hold, pasted at the window's corner. */
module Viewports {
  import opened Options
  import opened Sequences
  import opened Palette
  import opened Surface
  import opened Drawing
  import opened Verbs

  /** The window of a view. */
  predicate Within(v: View, x: int, y: int) {
    v.ox <= x < v.ox + v.w && v.oy <= y < v.oy + v.h
  }

  /** `big` is `small` pasted at the window's corner, and `back` everywhere else. */
  ghost predicate Pasted(big: Surf, small: Surf, back: Surf, v: View, stride: nat, bh: nat) {
    && Sized(big, stride, bh) && Sized(back, stride, bh) && Sized(small, v.w, v.h)
    && forall y, x :: 0 <= y < bh && 0 <= x < stride ==>
         big[y][x] == if Within(v, x, y) then small[y - v.oy][x - v.ox] else back[y][x]
  }

  /** The window fits the buffer and the clip fits the window. */
  predicate Fits(v: View, stride: nat, bh: nat) {
    && (v.w == 0 || v.ox + v.w <= stride) && (v.h == 0 || v.oy + v.h <= bh)
    && v.ox <= v.clip.x0 && v.clip.x1 <= v.ox + v.w && v.oy <= v.clip.y0 && v.clip.y1 <= v.oy + v.h
  }

  predicate SameWindow(u: View, v: View) {
    u.ox == v.ox && u.oy == v.oy && u.w == v.w && u.h == v.h
  }

  /** The window's view, as the view of a canvas of its own. */
  function Own(v: View): View {
    View(0, 0, v.w, v.h, v.camX + v.ox, v.camY + v.oy,
         Area(v.clip.x0 - v.ox, v.clip.y0 - v.oy, v.clip.x1 - v.ox, v.clip.y1 - v.oy))
  }

  /** A pattern that looks the same from the window's corner as from the buffer's. */
  ghost predicate PatternFits(p: nat, ox: nat, oy: nat) {
    forall x, y :: HoleAt(p, x + ox, y + oy) == HoleAt(p, x, y)
  }

  /** `g` is `f`'s window as a canvas of its own, over a background `back`. */
  ghost predicate Mirrors(f: Frame, g: Frame, back: Surf) {
    && WellFormedFrame(f) && WellFormedFrame(g)
    && Fits(f.view, f.stride, f.bh)
    && g.stride == f.view.w && g.bh == f.view.h && g.view == Own(f.view)
    && g.look == f.look && g.fillp == f.fillp && g.fillpCol == f.fillpCol && g.stock == f.stock
    && PatternFits(f.fillp, f.view.ox, f.view.oy)
    && Pasted(f.surf, g.surf, back, f.view, f.stride, f.bh)
  }

  /** The verbs that stay inside a viewport at (ox, oy), and the patterns that do. */
  ghost predicate Stays(v: Verb, ox: nat, oy: nat) {
    && Legal(v) && !v.Viewport? && !v.ViewportReset?
    && (v.Fillp? ==> PatternFits(v.pattern % 0x10000, ox, oy))
  }

  // ---- the drawing functions, shifted ----

  lemma FillPastes(big: Surf, small: Surf, back: Surf, v: View, stride: nat, bh: nat, r: Area, q: Area, col: nat)
    requires Pasted(big, small, back, v, stride, bh)
    requires forall x, y :: In(r, x, y) <==> In(q, x - v.ox, y - v.oy)
    requires forall x, y :: 0 <= x < stride && 0 <= y < bh && In(r, x, y) ==> Within(v, x, y)
    ensures Pasted(Fill(big, r, col), Fill(small, q, col), back, v, stride, bh)
  {
  }

  lemma ShadePastes(big: Surf, small: Surf, back: Surf, v: View, stride: nat, bh: nat, r: Area, q: Area,
                    col: nat, p: nat, hole: int)
    requires Pasted(big, small, back, v, stride, bh) && PatternFits(p, v.ox, v.oy)
    requires forall x, y :: In(r, x, y) <==> In(q, x - v.ox, y - v.oy)
    requires forall x, y :: 0 <= x < stride && 0 <= y < bh && In(r, x, y) ==> Within(v, x, y)
    ensures Pasted(Shade(big, r, col, p, hole), Shade(small, q, col, p, hole), back, v, stride, bh)
  {
    hide HoleAt, In;
    var a, b := Shade(big, r, col, p, hole), Shade(small, q, col, p, hole);
    forall y, x | 0 <= y < bh && 0 <= x < stride
      ensures a[y][x] == if Within(v, x, y) then b[y - v.oy][x - v.ox] else back[y][x]
    {
      assert HoleAt(p, (x - v.ox) + v.ox, (y - v.oy) + v.oy) == HoleAt(p, x - v.ox, y - v.oy);
    }
  }

  lemma SpritePastes(big: Surf, small: Surf, back: Surf, v: View, stride: nat, bh: nat, spr: Sprite,
                     lut: seq<nat>, palt: seq<nat>, px: int, py: int, scale: nat, flip: int)
    requires Pasted(big, small, back, v, stride, bh) && Fits(v, stride, bh)
    requires ValidSprite(spr) && |lut| == |palt| == 64 && scale >= 1
    ensures Pasted(DrawSprite(big, v.clip, spr, lut, palt, px, py, scale, flip),
                   DrawSprite(small, Own(v).clip, spr, lut, palt, px - v.ox, py - v.oy, scale, flip),
                   back, v, stride, bh)
  {
    hide Texture, ValidSprite, Texel, Fits;
    ClipFits(v, stride, bh);
    var a := DrawSprite(big, v.clip, spr, lut, palt, px, py, scale, flip);
    var b := DrawSprite(small, Own(v).clip, spr, lut, palt, px - v.ox, py - v.oy, scale, flip);
    forall y, x | 0 <= y < bh && 0 <= x < stride
      ensures a[y][x] == if Within(v, x, y) then b[y - v.oy][x - v.ox] else back[y][x]
    {
      ShiftedPixel(v, spr, lut, palt, px, py, scale, flip, x, y, big[y][x]);
    }
  }

  lemma ClipFits(v: View, stride: nat, bh: nat)
    requires Fits(v, stride, bh)
    ensures forall x, y :: In(v.clip, x, y) ==> Within(v, x, y)
    ensures forall x, y :: In(v.clip, x, y) <==> In(Own(v).clip, x - v.ox, y - v.oy)
  {
  }

  lemma ShiftedPixel(v: View, spr: Sprite, lut: seq<nat>, palt: seq<nat>, px: int, py: int, scale: nat, flip: int,
                     x: int, y: int, w: nat)
    requires ValidSprite(spr) && |lut| == |palt| == 64 && scale >= 1
    ensures SpritePixel(v.clip, spr, lut, palt, px, py, scale, flip, x, y, w)
            == SpritePixel(Own(v).clip, spr, lut, palt, px - v.ox, py - v.oy, scale, flip, x - v.ox, y - v.oy, w)
    ensures !In(v.clip, x, y) ==> SpritePixel(v.clip, spr, lut, palt, px, py, scale, flip, x, y, w) == w
  {
    hide Texture, ValidSprite;
  }

  // ---- every verb, shifted ----

  lemma CutShifts(v: View, stride: nat, bh: nat, x: int, y: int, w: int, h: int)
    requires Fits(v, stride, bh)
    ensures forall px, py :: In(Cut(v, x, y, w, h), px, py) <==> In(Cut(Own(v), x, y, w, h), px - v.ox, py - v.oy)
    ensures forall px, py :: In(Cut(v, x, y, w, h), px, py) ==> Within(v, px, py)
  {
  }

  lemma RectMirrors(f: Frame, g: Frame, back: Surf, x: int, y: int, w: int, h: int, c: int)
    requires Mirrors(f, g, back)
    ensures Mirrors(DrawRect(f, x, y, w, h, c), DrawRect(g, x, y, w, h, c), back)
  {
    CutShifts(f.view, f.stride, f.bh, x, y, w, h);
    hide Fits, Own, PatternFits, Pasted, Within, In, Cut, Shade, Resolve, WellFormed;
    ShadePastes(f.surf, g.surf, back, f.view, f.stride, f.bh, Cut(f.view, x, y, w, h), Cut(g.view, x, y, w, h),
                Resolve(f.look, c), f.fillp, Hole(f.look, f.fillpCol));
  }

  lemma TwoRectsMirror(f: Frame, g: Frame, back: Surf, a: (int, int, int, int), b: (int, int, int, int), c: int)
    requires WellFormedFrame(f) && WellFormedFrame(g) && Mirrors(f, g, back)
    ensures Mirrors(DrawRect(DrawRect(f, a.0, a.1, a.2, a.3, c), b.0, b.1, b.2, b.3, c),
                    DrawRect(DrawRect(g, a.0, a.1, a.2, a.3, c), b.0, b.1, b.2, b.3, c), back)
  {
    hide *;
    RectMirrors(f, g, back, a.0, a.1, a.2, a.3, c);
    RectMirrors(DrawRect(f, a.0, a.1, a.2, a.3, c), DrawRect(g, a.0, a.1, a.2, a.3, c), back, b.0, b.1, b.2, b.3, c);
  }

  lemma RectbMirrors(f: Frame, g: Frame, back: Surf, x: int, y: int, w: int, h: int, c: int)
    requires WellFormedFrame(f) && WellFormedFrame(g) && Mirrors(f, g, back)
    ensures Mirrors(DrawRectb(f, x, y, w, h, c), DrawRectb(g, x, y, w, h, c), back)
  {
    hide *;
    SidesAreFour(f, x, y, w, h, c);
    SidesAreFour(g, x, y, w, h, c);
    var a, b := (x, y, w, 1), (x, y + h - 1, w, 1);
    TwoRectsMirror(f, g, back, a, b, c);
    TwoRectsMirror(DrawRect(DrawRect(f, a.0, a.1, a.2, a.3, c), b.0, b.1, b.2, b.3, c),
                   DrawRect(DrawRect(g, a.0, a.1, a.2, a.3, c), b.0, b.1, b.2, b.3, c), back,
                   (x, y, 1, h), (x + w - 1, y, 1, h), c);
  }

  lemma MirrorsWell(f: Frame, g: Frame, back: Surf)
    requires Mirrors(f, g, back)
    ensures WellFormedFrame(f) && WellFormedFrame(g) && g.look == f.look && g.stock == f.stock && |f.look.palt| == 64
  {
  }

  /** New words on both sides that still paste leave the rest mirrored. */
  lemma SurfMirrors(f: Frame, g: Frame, back: Surf, a: Surf, b: Surf)
    requires Mirrors(f, g, back) && Pasted(a, b, back, f.view, f.stride, f.bh)
    ensures Mirrors(f.(surf := a), g.(surf := b), back)
  {
    hide Fits, Own, PatternFits, WellFormed;
  }

  lemma PixelMirrors(f: Frame, g: Frame, back: Surf, x: int, y: int, c: int)
    requires Mirrors(f, g, back)
    ensures Pasted(Pixel(f, x, y, c), Pixel(g, x, y, c), back, f.view, f.stride, f.bh)
  {
    hide Pasted, Resolve, WellFormed, PatternFits, Fill;
    var px, py := x - f.view.camX, y - f.view.camY;
    if In(f.view.clip, px, py) {
      FillPastes(f.surf, g.surf, back, f.view, f.stride, f.bh, Area(px, py, px + 1, py + 1),
                 Area(px - f.view.ox, py - f.view.oy, px - f.view.ox + 1, py - f.view.oy + 1), Resolve(f.look, c));
    }
  }

  lemma ClsMirrors(f: Frame, g: Frame, back: Surf, c: int)
    requires Mirrors(f, g, back)
    ensures Pasted(Fill(f.surf, Whole(f.view), Resolve(f.look, c)), Fill(g.surf, Whole(g.view), Resolve(g.look, c)),
                   back, f.view, f.stride, f.bh)
  {
    hide Pasted, Resolve, WellFormed, PatternFits, Fill;
    FillPastes(f.surf, g.surf, back, f.view, f.stride, f.bh, Whole(f.view), Whole(g.view), Resolve(f.look, c));
  }

  lemma TileMirrors(f: Frame, g: Frame, back: Surf, sh: Sheet, ck: int, scale: int, it: Item)
    requires WellFormedFrame(f) && WellFormedFrame(g) && Mirrors(f, g, back) && ValidSheet(sh)
    ensures Pasted(DrawItem(f.surf, f.view, f.look, sh, ck, scale, it), DrawItem(g.surf, g.view, g.look, sh, ck, scale, it),
                   back, f.view, f.stride, f.bh)
  {
    if 0 <= it.tile < 512 {
      var spr := TileSprite(sh, it.tile, ck);
      ItemIsImage(f, sh, ck, scale, it);
      ItemIsImage(g, sh, ck, scale, it);
      hide *;
      ImageMirrors(f, g, back, spr, it.x, it.y, scale, it.flip);
      MirrorsPaste(DrawImage(f, spr, it.x, it.y, scale, it.flip), DrawImage(g, spr, it.x, it.y, scale, it.flip), back, f.view);
    }
  }

  lemma ItemIsImage(f: Frame, sh: Sheet, ck: int, scale: int, it: Item)
    requires WellFormedFrame(f) && ValidSheet(sh) && 0 <= it.tile < 512
    ensures var r := DrawImage(f, TileSprite(sh, it.tile, ck), it.x, it.y, scale, it.flip);
            && DrawItem(f.surf, f.view, f.look, sh, ck, scale, it) == r.surf
            && r.view == f.view && r.stride == f.stride && r.bh == f.bh
  {
    hide Lut, TileSprite, DrawSprite;
  }

  lemma MirrorsPaste(f: Frame, g: Frame, back: Surf, v: View)
    requires Mirrors(f, g, back) && f.view == v
    ensures Pasted(f.surf, g.surf, back, v, f.stride, f.bh)
  {
  }

  lemma ImageMirrors(f: Frame, g: Frame, back: Surf, spr: Sprite, x: int, y: int, scale: int, flip: int)
    requires WellFormedFrame(f) && WellFormedFrame(g) && Mirrors(f, g, back) && ValidSprite(spr)
    ensures Mirrors(DrawImage(f, spr, x, y, scale, flip), DrawImage(g, spr, x, y, scale, flip), back)
  {
    MirrorsWell(f, g, back);
    hide Pasted, Lut, WellFormed, PatternFits, Fits, DrawSprite, ValidSprite;
    SpritePastes(f.surf, g.surf, back, f.view, f.stride, f.bh, spr, Lut(f.look), f.look.palt,
                 x - f.view.camX, y - f.view.camY, Max(1, scale), flip);
  }

  lemma DrawingMirrors(f: Frame, g: Frame, back: Surf, v: Verb)
    requires Mirrors(f, g, back) && Stays(v, f.view.ox, f.view.oy)
    requires v.Spr? || v.Image? || v.Rect? || v.Rectb? || v.Pset? || v.Pget? || v.Cls?
    ensures Mirrors(Draw(f, v), Draw(g, v), back)
  {
    MirrorsWell(f, g, back);
    hide Mirrors, Pasted, DrawRect, DrawRectb, DrawItem, DrawImage, Fill, Pixel, WellFormedFrame, PatternFits, ValidSheet, ValidSprite;
    match v
    case Spr(_, sheet, tile, x, y, colorkey, scale, flip) =>
      var it := Item(tile, x, y, flip);
      TileMirrors(f, g, back, sheet, colorkey, scale, it);
      SurfMirrors(f, g, back, DrawItem(f.surf, f.view, f.look, sheet, colorkey, scale, it),
                  DrawItem(g.surf, g.view, g.look, sheet, colorkey, scale, it));
    case Image(_, sprite, x, y, scale, flip) => ImageMirrors(f, g, back, sprite, x, y, scale, flip);
    case Rect(x, y, w, h, c) => RectMirrors(f, g, back, x, y, w, h, c);
    case Rectb(x, y, w, h, c) => RectbMirrors(f, g, back, x, y, w, h, c);
    case Pset(x, y, c) =>
      PixelMirrors(f, g, back, x, y, c);
      SurfMirrors(f, g, back, Pixel(f, x, y, c), Pixel(g, x, y, c));
    case Pget(_, _) =>
    case Cls(c) =>
      ClsMirrors(f, g, back, c);
      SurfMirrors(f, g, back, Fill(f.surf, Whole(f.view), Resolve(f.look, c)), Fill(g.surf, Whole(g.view), Resolve(g.look, c)));
  }

  lemma SolidFits(ox: nat, oy: nat)
    ensures PatternFits(0, ox, oy)
  {
    NoHoles();
  }

  /** A window at a multiple of four takes every pattern. */
  lemma AlignedFits(p: nat, ox: nat, oy: nat)
    requires ox % 4 == 0 && oy % 4 == 0
    ensures PatternFits(p, ox, oy)
  {
    hide HoleAt;
    forall x, y ensures HoleAt(p, x + ox, y + oy) == HoleAt(p, x, y) {
      ModAligned(x, ox);
      ModAligned(y, oy);
      HolesByMod(p, x + ox, y + oy, x, y);
    }
  }

  lemma ModAligned(x: int, o: nat)
    requires o % 4 == 0
    ensures (x + o) % 4 == x % 4
  {
    assert o == 4 * (o / 4);
  }

  lemma StateMirrors(f: Frame, g: Frame, back: Surf, v: Verb)
    requires Mirrors(f, g, back) && Stays(v, f.view.ox, f.view.oy)
    requires !(v.Spr? || v.Image? || v.Rect? || v.Rectb? || v.Pset? || v.Pget? || v.Cls?)
    ensures Mirrors(Draw(f, v), Draw(g, v), back)
  {
    SolidFits(f.view.ox, f.view.oy);
    hide PatternFits, WellFormed, Redo;
    assert WellFormedFrame(Draw(f, v)) && WellFormedFrame(Draw(g, v));
    ViewStays(f, v);
    PastedByWindow(f.surf, g.surf, back, f.view, Draw(f, v).view, f.stride, f.bh);
  }

  /** A verb that draws nothing leaves the words alone and the window where it was. */
  lemma ViewStays(f: Frame, v: Verb)
    requires WellFormedFrame(f) && Fits(f.view, f.stride, f.bh) && Stays(v, f.view.ox, f.view.oy)
    requires !(v.Spr? || v.Image? || v.Rect? || v.Rectb? || v.Pset? || v.Pget? || v.Cls?)
    ensures var r := Draw(f, v);
            && r.surf == f.surf && Fits(r.view, f.stride, f.bh)
            && SameWindow(r.view, f.view)
  {
    hide PatternFits, WellFormed, Redo;
  }

  lemma PastedByWindow(a: Surf, b: Surf, back: Surf, u: View, v: View, stride: nat, bh: nat)
    requires Pasted(a, b, back, u, stride, bh)
    requires SameWindow(u, v)
    ensures Pasted(a, b, back, v, stride, bh)
  {
  }

  lemma StepMirrors(f: Frame, g: Frame, back: Surf, v: Verb)
    requires Mirrors(f, g, back) && Stays(v, f.view.ox, f.view.oy)
    ensures WellFormedFrame(f) && WellFormedFrame(g)
    ensures Mirrors(Draw(f, v), Draw(g, v), back)
    ensures SameWindow(Draw(f, v).view, f.view)
  {
    MirrorsWell(f, g, back);
    if v.Spr? || v.Image? || v.Rect? || v.Rectb? || v.Pset? || v.Pget? || v.Cls? {
      DrawingMirrors(f, g, back, v);
      hide Mirrors, Stays, WellFormed, Sized, DrawItem, DrawSprite;
    } else {
      StateMirrors(f, g, back, v);
      hide Mirrors, WellFormed, Sized, PatternFits;
    }
  }

  // ---- whole runs ----

  ghost predicate AllStay(vs: seq<Verb>, ox: nat, oy: nat) {
    forall k :: 0 <= k < |vs| ==> Stays(vs[k], ox, oy)
  }

  lemma {:induction false} RunMirrors(f: Frame, g: Frame, back: Surf, vs: seq<Verb>)
    requires WellFormedFrame(f) && WellFormedFrame(g) && Mirrors(f, g, back) && AllStay(vs, f.view.ox, f.view.oy)
    ensures AllLegal(vs) && Mirrors(DrawAll(f, vs), DrawAll(g, vs), back)
    ensures SameWindow(DrawAll(f, vs).view, f.view)
  {
    hide Mirrors, PatternFits, WellFormedFrame, Draw;
    if vs != [] {
      var head := vs[..|vs| - 1];
      RunMirrors(f, g, back, head);
      StepMirrors(DrawAll(f, head), DrawAll(g, head), back, vs[|vs| - 1]);
    }
  }

  /** The window's own pixels. */
  function Crop(s: Surf, v: View): (r: Surf)
    requires v.ox + v.w <= (if |s| > 0 then |s[0]| else v.ox + v.w) || v.w == 0
    requires (v.h == 0 || v.oy + v.h <= |s|) && forall y :: 0 <= y < |s| ==> |s[y]| == |s[0]|
    ensures Sized(r, v.w, v.h)
    ensures forall y, x :: 0 <= y < v.h && 0 <= x < v.w ==> r[y][x] == s[v.oy + y][v.ox + x]
  {
    seq(v.h, y requires 0 <= y < v.h => if v.w == 0 then [] else s[v.oy + y][v.ox..v.ox + v.w])
  }

  /** A canvas of the window's size, holding its pixels, as a frame starts: camera at the
      origin, clip whole. */
  function OwnCanvas(f: Frame): (g: Frame)
    requires WellFormedFrame(f) && Fits(f.view, f.stride, f.bh)
    ensures WellFormedFrame(g)
  {
    Frame(Crop(f.surf, f.view), f.view.w, f.view.h,
          View(0, 0, f.view.w, f.view.h, 0, 0, Area(0, 0, f.view.w, f.view.h)), f.look, f.fillp, f.fillpCol, f.stock)
  }

  /** What `set_viewport` leaves: nothing drawn, everything reset, the window in place. */
  lemma EntersViewport(f0: Frame, x: int, y: int, w: int, h: int)
    requires WellFormedFrame(f0)
    ensures var f := Draw(f0, Viewport(x, y, w, h));
            && f.surf == f0.surf && Fits(f.view, f.stride, f.bh)
            && f.view.ox == Max(0, x) && f.view.oy == Max(0, y)
            && Mirrors(f, OwnCanvas(f), f0.surf)
  {
    SolidFits(Max(0, x), Max(0, y));
    hide PatternFits, WellFormed, Redo;
    var f := Draw(f0, Viewport(x, y, w, h));
    CropPastes(f.surf, f.view, f.stride, f.bh);
  }

  lemma CropPastes(s: Surf, v: View, stride: nat, bh: nat)
    requires Sized(s, stride, bh) && Fits(v, stride, bh)
    ensures Pasted(s, Crop(s, v), s, v, stride, bh)
  {
  }

  /** A viewport is a canvas of its own: after `set_viewport`, any run of drawing, camera,
      clip, palette and reset verbs leaves the buffer as the same run on a separate canvas
      of the window's size would, pasted at the window's corner, and no pixel outside the
      window changes. */
  lemma ViewportIsACanvas(f0: Frame, x: int, y: int, w: int, h: int, vs: seq<Verb>)
    requires WellFormedFrame(f0) && AllStay(vs, Max(0, x), Max(0, y))
    ensures AllLegal(vs)
    ensures var f := Draw(f0, Viewport(x, y, w, h));
            && Fits(f.view, f.stride, f.bh)
            && Pasted(DrawAll(f, vs).surf, DrawAll(OwnCanvas(f), vs).surf, f0.surf, f.view, f.stride, f.bh)
  {
    EntersViewport(f0, x, y, w, h);
    var f := Draw(f0, Viewport(x, y, w, h));
    RunMirrors(f, OwnCanvas(f), f0.surf, vs);
    hide PatternFits, WellFormedFrame, Draw, Fits, OwnCanvas;
    PastedByWindow(DrawAll(f, vs).surf, DrawAll(OwnCanvas(f), vs).surf, f0.surf, DrawAll(f, vs).view, f.view, f.stride, f.bh);
  }

  // ---- reads ----

  predicate InBuffer(f: Frame, px: int, py: int) {
    0 <= px < f.stride && 0 <= py < f.bh
  }

  /** The window as it stands, as a canvas of its own. */
  function Alone(f: Frame): (g: Frame)
    requires WellFormedFrame(f) && Fits(f.view, f.stride, f.bh)
    ensures WellFormedFrame(g)
  {
    Frame(Crop(f.surf, f.view), f.view.w, f.view.h, Own(f.view), f.look, f.fillp, f.fillpCol, f.stock)
  }

  /** Whether a read answers as on the window's own canvas, the buffer holding `s`. */
  predicate ReadAgrees(f: Frame, s: Surf, x: int, y: int)
    requires WellFormedFrame(f) && Fits(f.view, f.stride, f.bh)
  {
    Sized(s, f.stride, f.bh) ==> Get(f.(surf := s), x, y) == Get(Alone(f.(surf := s)), x, y)
  }

  /** No word reads as any index but 0. */
  predicate AllOne(stock: seq<nat>) { forall i :: 0 <= i < |stock| ==> stock[i] == stock[0] }

  function Painted(w: nat, h: nat, word: nat): (s: Surf)
    ensures Sized(s, w, h) && forall y, x :: 0 <= y < h && 0 <= x < w ==> s[y][x] == word
  {
    seq(h, _ => PaintedRow(w, word))
  }

  function PaintedRow(w: nat, word: nat): (r: seq<nat>)
    ensures |r| == w && forall x :: 0 <= x < w ==> r[x] == word
  {
    seq(w, _ => word)
  }

  /** A pixel read answers what the window's own canvas would, whatever the buffer holds, if
      and only if it is inside the window or off the buffer (or every read is 0 anyway). */
  lemma ReadsAgreeExactly(f: Frame, x: int, y: int)
    requires WellFormedFrame(f) && Fits(f.view, f.stride, f.bh)
    ensures (forall s :: ReadAgrees(f, s, x, y)) <==>
            var px, py := x - f.view.camX, y - f.view.camY;
            Within(f.view, px, py) || !InBuffer(f, px, py) || AllOne(f.stock)
  {
    var px, py := x - f.view.camX, y - f.view.camY;
    if Within(f.view, px, py) || !InBuffer(f, px, py) || AllOne(f.stock) {
      forall s ensures ReadAgrees(f, s, x, y) {
        ReadInside(f, s, x, y);
      }
    } else {
      var i :| 0 <= i < |f.stock| && f.stock[i] != f.stock[0];
      var s := Painted(f.stride, f.bh, f.stock[i]);
      ReadOutside(f, s, f.stock[i], x, y);
      assert !ReadAgrees(f, s, x, y);
    }
  }

  lemma ReadInside(f: Frame, s: Surf, x: int, y: int)
    requires WellFormedFrame(f) && Fits(f.view, f.stride, f.bh)
    requires var px, py := x - f.view.camX, y - f.view.camY;
             Within(f.view, px, py) || !InBuffer(f, px, py) || AllOne(f.stock)
    ensures ReadAgrees(f, s, x, y)
  {
    forall w ensures AllOne(f.stock) ==> StockIndex(f.stock, w) == 0 {
      OneIndex(f.stock, w);
    }
    hide StockIndex, AllOne, WellFormed;
  }

  lemma OneIndex(stock: seq<nat>, w: nat)
    ensures AllOne(stock) ==> StockIndex(stock, w) == 0
  {
    if AllOne(stock) && w in stock {
      FirstIs(stock, w, 0);
    }
  }

  lemma ReadOutside(f: Frame, s: Surf, word: nat, x: int, y: int)
    requires WellFormedFrame(f) && Fits(f.view, f.stride, f.bh) && s == Painted(f.stride, f.bh, word)
    requires var px, py := x - f.view.camX, y - f.view.camY;
             !Within(f.view, px, py) && InBuffer(f, px, py)
    requires word in f.stock && word != f.stock[0]
    ensures !ReadAgrees(f, s, x, y)
  {
    hide WellFormed;
  }

  /** So a read one pixel right of a one-pixel window sees the buffer, and not 0. */
  lemma ReadPastTheWindow()
    ensures var l := Look(Identity(), Opaque(), None, Identity());
            var f := Frame([[0, 1]], 2, 1, View(0, 0, 1, 1, 0, 0, Area(0, 0, 1, 1)), l, 0, -1, Identity());
            && WellFormedFrame(f) && Fits(f.view, 2, 1)
            && Get(f, 1, 0) == 1 && Get(Alone(f), 1, 0) == 0
  {
    assert Identity()[1] == 1;
  }

  /** A verb that, if it reads, reads inside the window or off the buffer. */
  predicate ReadsInside(f: Frame, v: Verb) {
    v.Pget? ==> var px, py := v.x - f.view.camX, v.y - f.view.camY;
                Within(f.view, px, py) || !InBuffer(f, px, py)
  }

  /** So a run whose reads keep to the window answers as the window's own canvas. */
  lemma {:induction false} RunReadsAlike(f: Frame, g: Frame, back: Surf, vs: seq<Verb>)
    requires WellFormedFrame(f) && WellFormedFrame(g) && Mirrors(f, g, back) && AllStay(vs, f.view.ox, f.view.oy)
    requires AllLegal(vs) && forall k :: 0 <= k < |vs| ==> ReadsInside(DrawAll(f, vs[..k]), vs[k])
    ensures Answers(f, vs) == Answers(g, vs)
  {
    hide Mirrors, PatternFits, WellFormedFrame, Draw, ReadsInside, Get;
    if vs != [] {
      var head := vs[..|vs| - 1];
      forall k | 0 <= k < |head| ensures ReadsInside(DrawAll(f, head[..k]), head[k]) {
        assert head[..k] == vs[..k];
      }
      RunReadsAlike(f, g, back, head);
      RunMirrors(f, g, back, head);
      OneReadAlike(DrawAll(f, head), DrawAll(g, head), back, vs[|vs| - 1]);
    }
  }

  lemma MirroredRead(f: Frame, g: Frame, back: Surf, x: int, y: int)
    requires Mirrors(f, g, back)
    requires var px, py := x - f.view.camX, y - f.view.camY; Within(f.view, px, py) || !InBuffer(f, px, py)
    ensures Get(f, x, y) == Get(g, x, y)
  {
    hide PatternFits, WellFormed, StockIndex;
  }

  lemma OneReadAlike(f: Frame, g: Frame, back: Surf, v: Verb)
    requires WellFormedFrame(f) && WellFormedFrame(g) && Mirrors(f, g, back) && ReadsInside(f, v)
    ensures Reads(f, v) == Reads(g, v)
  {
    if v.Pget? {
      MirroredRead(f, g, back, v.x, v.y);
      hide Mirrors, Get;
    }
  }

  // ---- exactly which patterns fit ----

  function Plain(w: nat, h: nat): Surf { Painted(w, h, 0) }

  lemma ModShift(x: int, o: nat)
    ensures (x + o) % 4 == (x % 4 + o) % 4 && x % 4 % 4 == x % 4
  {
  }

  lemma HolesByMod(p: nat, x: int, y: int, x': int, y': int)
    requires x % 4 == x' % 4 && y % 4 == y' % 4
    ensures HoleAt(p, x, y) == HoleAt(p, x', y')
  {
    hide Pow2;
  }

  lemma HolesRepeat(p: nat, ox: nat, oy: nat, x: int, y: int)
    ensures HoleAt(p, x + ox, y + oy) == HoleAt(p, x % 4 + ox, y % 4 + oy)
    ensures HoleAt(p, x, y) == HoleAt(p, x % 4, y % 4)
  {
    hide HoleAt;
    ModShift(x, ox);
    ModShift(y, oy);
    HolesByMod(p, x + ox, y + oy, x % 4 + ox, y % 4 + oy);
    HolesByMod(p, x, y, x % 4, y % 4);
  }

  /** One hole in sixteen, in a window one pixel from the buffer's edge: not what the window's
      own canvas would show. */
  lemma PatternShifts()
    ensures var v := View(1, 0, 4, 4, -1, 0, Area(1, 0, 5, 4));
            !Pasted(Shade(Plain(5, 4), Whole(v), 1, 0x8000, -1), Shade(Plain(4, 4), Area(0, 0, 4, 4), 1, 0x8000, -1),
                    Plain(5, 4), v, 5, 4)
  {
    hide HoleAt, Pasted, Shade, Plain, Whole;
    PatternFitsExactly(0x8000, 1, 0);
    OneHole();
    assert HoleAt(0x8000, 0 + 1, 0 + 0) != HoleAt(0x8000, 0, 0);
  }

  lemma OneHole()
    ensures HoleAt(0x8000, 0, 0) && !HoleAt(0x8000, 1, 0)
  {
    hide *;
    PowersOfTwo();
    HoleIs(0x8000, 0, 0, 0x8000);
    HoleIs(0x8000, 1, 0, 0x4000);
  }

  lemma HoleIs(p: nat, x: int, y: int, d: nat)
    requires d == Pow2(15 - (y % 4 * 4 + x % 4))
    ensures d >= 1 && (HoleAt(p, x, y) <==> p / d % 2 == 1)
  {
    hide Pow2;
  }

  lemma PowersOfTwo()
    ensures Pow2(14) == 0x4000 && Pow2(15) == 0x8000
  {
    assert Pow2(4) == 16;
    assert Pow2(8) == 256;
    assert Pow2(12) == 4096;
  }

  /** The pattern counts from the buffer's corner, not the window's: one 4 by 4 rectangle in
      a window at (ox, oy) comes out as on the window's own canvas if and only if the pattern
      looks the same from there. */
  lemma PatternFitsExactly(p: nat, ox: nat, oy: nat)
    ensures var v := View(ox, oy, 4, 4, 0 - ox, 0 - oy, Area(ox, oy, ox + 4, oy + 4));
            var back := Plain(ox + 4, oy + 4);
            Pasted(Shade(back, Whole(v), 1, p, -1), Shade(Plain(4, 4), Area(0, 0, 4, 4), 1, p, -1), back, v, ox + 4, oy + 4)
            <==> PatternFits(p, ox, oy)
  {
    hide HoleAt;
    var v := View(ox, oy, 4, 4, 0 - ox, 0 - oy, Area(ox, oy, ox + 4, oy + 4));
    var back := Plain(ox + 4, oy + 4);
    var a, b := Shade(back, Whole(v), 1, p, -1), Shade(Plain(4, 4), Area(0, 0, 4, 4), 1, p, -1);
    if PatternFits(p, ox, oy) {
      ShadePastes(back, Plain(4, 4), back, v, ox + 4, oy + 4, Whole(v), Area(0, 0, 4, 4), 1, p, -1);
    }
    if Pasted(a, b, back, v, ox + 4, oy + 4) {
      forall x, y ensures HoleAt(p, x + ox, y + oy) == HoleAt(p, x, y) {
        HolesRepeat(p, ox, oy, x, y);
        assert a[y % 4 + oy][x % 4 + ox] == b[y % 4][x % 4];
      }
    }
  }
}
