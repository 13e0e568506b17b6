/** What each verb does to a frame, one at a time, and what it leaves alone. A canvas that
    holds sprites back keeps a frame some steps behind the one its caller sees; each lemma
    here says that a verb takes the frame seen to the frame it should be, given only what
    the canvas changed of the one it keeps. The canvas's methods are proved from these
    without looking inside the reference drawing. */
module Verbs {
  import opened Options
  import opened Palette
  import opened Surface
  import opened Drawing
  import opened Queue

  lemma CameraDraws(f: Frame, x: int, y: int)
    requires WellFormedFrame(f)
    ensures Draw(f, Verb.Camera(x, y)) == f.(view := f.view.(camX := x - f.view.ox, camY := y - f.view.oy))
  {
  }

  lemma ClipDraws(f: Frame, x: int, y: int, w: int, h: int)
    requires WellFormedFrame(f)
    ensures Draw(f, Verb.Clip(x, y, w, h)) == f.(view := f.view.(clip := Clipped(f.view, x, y, w, h)))
  {
  }

  lemma ClipResetDraws(f: Frame)
    requires WellFormedFrame(f)
    ensures Draw(f, Verb.ClipReset) == f.(view := f.view.(clip := Whole(f.view)))
  {
  }

  lemma StoredIsWellFormed(f: Frame, s: Surf)
    requires WellFormedFrame(f) && Sized(s, f.stride, f.bh)
    ensures WellFormedFrame(f.(surf := s))
  {
  }

  lemma EmptyFill(s: Surf, r: Area, col: nat)
    requires r.x1 <= r.x0 || r.y1 <= r.y0
    ensures Fill(s, r, col) == s
  {
    SameSurf(Fill(s, r, col), s);
  }

  lemma FillKeepsShape(f: Frame, r: Area, col: nat)
    requires WellFormedFrame(f)
    ensures Sized(Fill(f.surf, r, col), f.stride, f.bh)
  {
  }

  lemma SolidIsFill(f: Frame, x: int, y: int, w: int, h: int, c: int)
    requires WellFormedFrame(f) && f.fillp == 0
    ensures DrawRect(f, x, y, w, h, c) == f.(surf := Fill(f.surf, Cut(f.view, x, y, w, h), Resolve(f.look, c)))
  {
    SolidPattern(f.surf, Cut(f.view, x, y, w, h), Resolve(f.look, c), Hole(f.look, f.fillpCol));
  }

  lemma RectIsShade(f: Frame, x: int, y: int, w: int, h: int, c: int)
    requires WellFormedFrame(f)
    ensures var s := Shade(f.surf, Cut(f.view, x, y, w, h), Resolve(f.look, c), f.fillp, Hole(f.look, f.fillpCol));
            Sized(s, f.stride, f.bh) && DrawRect(f, x, y, w, h, c) == f.(surf := s)
  {
  }

  lemma RectDraws(f: Frame, x: int, y: int, w: int, h: int, c: int)
    requires WellFormedFrame(f)
    ensures Draw(f, Verb.Rect(x, y, w, h, c)) == DrawRect(f, x, y, w, h, c)
  {
  }

  lemma SidesAreFour(f: Frame, x: int, y: int, w: int, h: int, c: int)
    requires WellFormedFrame(f)
    ensures DrawRectb(f, x, y, w, h, c)
            == DrawRect(DrawRect(DrawRect(DrawRect(f, x, y, w, 1, c), x, y + h - 1, w, 1, c), x, y, 1, h, c),
                        x + w - 1, y, 1, h, c)
  {
    hide DrawRect, WellFormedFrame;
  }

  lemma RectbDraws(f: Frame, x: int, y: int, w: int, h: int, c: int)
    requires WellFormedFrame(f)
    ensures Draw(f, Verb.Rectb(x, y, w, h, c)) == DrawRectb(f, x, y, w, h, c)
  {
    hide DrawRectb, WellFormedFrame;
  }

  lemma PsetDraws(f: Frame, x: int, y: int, c: int)
    requires WellFormedFrame(f)
    ensures var px, py := x - f.view.camX, y - f.view.camY;
            var s := Fill(f.surf, Area(px, py, px + 1, py + 1), Resolve(f.look, c));
            && Sized(s, f.stride, f.bh)
            && Draw(f, Verb.Pset(x, y, c)) == if In(f.view.clip, px, py) then f.(surf := s) else f
  {
  }

  /** `fill`: the first n pixels of the buffer, a row at a time. */
  function FillFirst(s: Surf, stride: nat, n: int, col: nat): Surf {
    Paint(s, (x, y, w) => if y * stride + x < n then col else w)
  }

  /** The first w * h pixels are the first h rows. */
  lemma FillRun(f: Frame, n: int, col: nat)
    requires WellFormedFrame(f) && f.view.ox == f.view.oy == 0 && f.view.w == f.stride && n == f.view.w * f.view.h
    ensures FillFirst(f.surf, f.stride, n, col) == Fill(f.surf, Whole(f.view), col)
    ensures Sized(Fill(f.surf, Whole(f.view), col), f.stride, f.bh)
  {
    var a, b := FillFirst(f.surf, f.stride, n, col), Fill(f.surf, Whole(f.view), col);
    forall y, x | 0 <= y < f.bh && 0 <= x < f.stride ensures a[y][x] == b[y][x] {
      RowIsBefore(x, y, f.stride, f.view.h);
    }
    SameSurf(a, b);
  }

  lemma RowIsBefore(x: nat, y: nat, w: nat, h: nat)
    requires x < w
    ensures y * w + x < w * h <==> y < h
  {
    if y < h {
      ProductGrows(y + 1, h, w);
    } else {
      ProductGrows(h, y, w);
    }
  }

  lemma ClsDraws(f: Frame, c: int)
    requires WellFormedFrame(f)
    ensures var s := Fill(f.surf, Whole(f.view), Resolve(f.look, c));
            Sized(s, f.stride, f.bh) && Draw(f, Verb.Cls(c)) == f.(surf := s)
  {
  }

  lemma ImageDraws(f: Frame, spr: Sprite, x: int, y: int, scale: int, flip: int)
    requires WellFormedFrame(f) && ValidSprite(spr)
    ensures var s := DrawSprite(f.surf, f.view.clip, spr, Lut(f.look), f.look.palt,
                                x - f.view.camX, y - f.view.camY, Max(1, scale), flip);
            Sized(s, f.stride, f.bh) && DrawImage(f, spr, x, y, scale, flip) == f.(surf := s)
  {
    hide SpritePixel, Lut;
  }

  lemma FillpUnseen(f: Frame, a: seq<int>, sheet: Option<Sheet>, gates: map<int, Sheet>, p: nat, c: int)
    requires WellFormedFrame(f) && QueueOk(a, sheet, gates)
    ensures Drained(f.(fillp := p, fillpCol := c), a, sheet, gates) == Drained(f, a, sheet, gates)
  {
    hide DrawItems, Items;
  }

  /** `reset_state` in the verbs it is made of. */
  lemma FreshIs(f: Frame)
    requires WellFormedFrame(f)
    ensures var aimed := Draw(f, Verb.Camera(0, 0));
            Fresh(f) == aimed.(view := aimed.view.(clip := Area(f.view.ox, f.view.oy, f.view.ox + f.view.w, f.view.oy + f.view.h)),
                               look := Redo(f.look, Reset), fillp := 0, fillpCol := -1)
  {
    hide Redo;
  }

  lemma FillpDraws(f: Frame, p: int, c: int)
    requires WellFormedFrame(f)
    ensures Draw(f, Verb.Fillp(p, c)) == f.(fillp := p % 0x10000, fillpCol := if c < 0 then -1 else c % 64)
    ensures Draw(f, Verb.FillpReset) == f.(fillp := 0, fillpCol := -1)
  {
  }

  lemma RedoKeeps(f: Frame, op: Op)
    requires WellFormedFrame(f) && !op.SetPalette?
    ensures Redo(f.look, op).base == f.look.base && WellFormedFrame(f.(look := Redo(f.look, op)))
  {
    hide Sized;
  }

  lemma RemapDraws(f: Frame, op: Op)
    requires WellFormedFrame(f) && CartPalette(op)
    ensures Draw(f, Verb.Remap(op)) == f.(look := Redo(f.look, op))
  {
    hide Redo;
  }

  /** Where the surface sits is nothing to the sprites already queued. */
  lemma PlaceUnseen(f: Frame, a: seq<int>, sheet: Option<Sheet>, gates: map<int, Sheet>,
                    ox: nat, oy: nat, w: nat, h: nat)
    requires WellFormedFrame(f) && QueueOk(a, sheet, gates)
    ensures Drained(f.(view := f.view.(ox := ox, oy := oy, w := w, h := h)), a, sheet, gates)
            == Drained(f, a, sheet, gates)
  {
    hide BlitQuads, Items;
  }

  lemma ViewportDraws(f: Frame, x: int, y: int, w: int, h: int)
    requires WellFormedFrame(f)
    ensures var ox, oy := Max(0, x), Max(0, y);
            Draw(f, Verb.Viewport(x, y, w, h))
            == Fresh(f.(view := f.view.(ox := ox, oy := oy, w := Max(0, Min(w, f.stride - ox)),
                                        h := Max(0, Min(h, f.bh - oy)))))
  {
    hide Fresh;
  }

  lemma ViewportResetDraws(f: Frame)
    requires WellFormedFrame(f)
    ensures Draw(f, Verb.ViewportReset) == Fresh(f.(view := f.view.(ox := 0, oy := 0, w := f.stride, h := f.bh)))
  {
    hide Fresh;
  }

  lemma PgetDraws(f: Frame)
    requires WellFormedFrame(f)
    ensures forall x, y :: Draw(f, Verb.Pget(x, y)) == f
  {
  }

  lemma ResetDraws(f: Frame)
    requires WellFormedFrame(f)
    ensures Draw(f, Verb.ResetState) == Fresh(f)
  {
  }

  lemma ReadsOf(f: Frame, v: Verb)
    requires WellFormedFrame(f)
    ensures Reads(f, v) == if v.Pget? then [Get(f, v.x, v.y)] else []
  {
  }

  lemma NoReads(f: Frame, v: Verb)
    requires WellFormedFrame(f) && !v.Pget?
    ensures Reads(f, v) == []
  {
  }

  lemma ImageIsDrawImage(f: Frame, v: Verb)
    requires WellFormedFrame(f) && v.Image? && Legal(v)
    ensures ValidSprite(v.sprite) && Draw(f, v) == DrawImage(f, v.sprite, v.x, v.y, v.scale, v.flip)
  {
  }

  predicate IsDrawing(v: Verb) {
    v.Spr? || v.Rect? || v.Rectb? || v.Pset? || v.Pget? || v.Cls?
  }

  lemma DrawingReads(f: Frame, v: Verb)
    requires WellFormedFrame(f) && !IsDrawing(v)
    ensures Reads(f, v) == []
  {
  }
}
