/** What each verb leaves on the glass, a pixel at a time and in plain arithmetic
    (device/device_canvas.py:822-1376, 1799-2232): the promises a cart's author reads, which the
    reference drawing is proved to keep. First the word an index shows after each palette verb,
    then sprites, flips and tiles, then shapes, pixels and clears under the camera, the clip and the
    pattern, and last the state that is set. */
module Laws {
  import opened Options
  import opened Sequences
  import opened Palette
  import opened Surface
  import opened Drawing

  // ---- which word an index shows ----

  /** The word draw colour `v` has, under the screen palette and over the base. */
  function Screened(l: Look, v: nat): nat
    requires WellFormed(l) && v < 64
  {
    l.base[if l.screen.Some? then l.screen.value[v] else v]
  }

  lemma IndexShows(l: Look, i: nat)
    requires WellFormed(l) && i < 64
    ensures Lut(l)[i] == Screened(l, l.pal[i])
  {
  }

  /** `pal(a, b)`: index a shows what colour b has; every other index shows what it did, and the
      same indices are left undrawn. */
  lemma PalShows(l: Look, a: int, b: int)
    requires WellFormed(l)
    ensures var r := Redo(l, Pal(a, b));
            && WellFormed(r) && r.palt == l.palt
            && forall i :: 0 <= i < 64 ==> Lut(r)[i] == if i == a % 64 then Screened(l, b % 64) else Lut(l)[i]
  {
  }

  /** `pal(a, b, 1)`: colour a has the base's word b from here on, whichever indices show it. */
  lemma ScreenShows(l: Look, a: int, b: int)
    requires WellFormed(l)
    ensures var r := Redo(l, Screen(a, b));
            && WellFormed(r) && r.palt == l.palt
            && forall i :: 0 <= i < 64 ==> Lut(r)[i] == if l.pal[i] == a % 64 then l.base[b % 64] else Lut(l)[i]
  {
    hide Compose;
    forall i | 0 <= i < 64
      ensures Lut(Redo(l, Screen(a, b)))[i] == if l.pal[i] == a % 64 then l.base[b % 64] else Lut(l)[i]
    {
      IndexShows(l, i);
      IndexShows(Redo(l, Screen(a, b)), i);
    }
  }

  /** `palt(c, on)`: index c is left undrawn or is drawn; the words and the other indices stay. */
  lemma PaltShows(l: Look, c: int, on: bool)
    requires WellFormed(l)
    ensures var r := Redo(l, Palt(c, on));
            && WellFormed(r) && Lut(r) == Lut(l)
            && forall i :: 0 <= i < 64 ==> (r.palt[i] != 0) == if i == c % 64 then on else l.palt[i] != 0
  {
  }

  /** The resets: `pal()` gives every index its own base word, `palt()` draws every index, and a
      frame's reset does both. */
  lemma ResetsShow(l: Look)
    requires WellFormed(l)
    ensures var r := Redo(l, PalReset); WellFormed(r) && Lut(r) == l.base && r.palt == l.palt
    ensures var r := Redo(l, PaltReset); WellFormed(r) && Lut(r) == Lut(l) && forall i :: 0 <= i < 64 ==> r.palt[i] == 0
    ensures var r := Redo(l, Reset); WellFormed(r) && Lut(r) == l.base && forall i :: 0 <= i < 64 ==> r.palt[i] == 0
  {
    assert Lut(Redo(l, PalReset)) == l.base;
    assert Lut(Redo(l, Reset)) == l.base;
  }

  /** A cart's table: every index shows, of it, the word it showed of the last one. */
  lemma SwapShows(l: Look, words: seq<nat>)
    requires WellFormed(l)
    ensures var r := Redo(l, SetPalette(words));
            && WellFormed(r) && r.palt == l.palt
            && forall i :: 0 <= i < 64 ==>
                 Lut(r)[i] == if |words| == 64 then words[if l.screen.Some? then l.screen.value[l.pal[i]] else l.pal[i]]
                              else Lut(l)[i]
  {
    hide Compose;
    forall i | 0 <= i < 64 ensures Lut(Redo(l, SetPalette(words)))[i] ==
                                   if |words| == 64 then words[if l.screen.Some? then l.screen.value[l.pal[i]] else l.pal[i]]
                                   else Lut(l)[i]
    {
      IndexShows(l, i);
      IndexShows(Redo(l, SetPalette(words)), i);
    }
  }

  /** The tables as they are kept show it too: after `pal(a, b)` the canvas's gate words, and what
      its mirrors resolve to, are those. */
  lemma PalKept(s: State, a: int, b: int)
    requires Palette.Valid(s)
    ensures var r := Step(s, Pal(a, b));
            forall i :: 0 <= i < 64 ==>
              && r.gatePal[i] == Lut(LookOf(r))[i]
              && r.gatePal[i] == if i == a % 64 then Screened(LookOf(s), b % 64) else Lut(LookOf(s))[i]
  {
    StepKeeps(s, Pal(a, b));
    PalShows(LookOf(s), a, b);
    GateShows(Step(s, Pal(a, b)));
    hide Step, Redo, Lut;
  }

  lemma GateShows(s: State)
    requires Palette.Valid(s)
    ensures |s.gatePal| == 64 && s.gatePal == Lut(LookOf(s))
  {
  }

  // ---- sprites ----

  /** A sprite's pixel drawn unflipped: the picture's index there through the table, unless the
      index is the clear one, negative, or left undrawn. */
  lemma SpritePixelIs(s: Surf, clip: Area, spr: Sprite, lut: seq<nat>, palt: seq<nat>, px: int, py: int, scale: nat,
                      y: int, x: int)
    requires ValidSprite(spr) && |lut| == |palt| == 64 && scale >= 1 && 0 <= y < |s| && 0 <= x < |s[y]|
    ensures var r := DrawSprite(s, clip, spr, lut, palt, px, py, scale, 0);
            && |r| == |s| && |r[y]| == |s[y]|
            && var u, v := (x - px) / scale, (y - py) / scale;
               if clip.x0 <= x < clip.x1 && clip.y0 <= y < clip.y1 && 0 <= u < spr.w && 0 <= v < |spr.rows| then
                 var p := spr.rows[v][u];
                 r[y][x] == if Some(p) == spr.transparent || p < 0 || palt[p % 64] != 0 then s[y][x] else lut[p % 64]
               else r[y][x] == s[y][x]
  {
    Inside(x - px, spr.w, scale);
    Inside(y - py, |spr.rows|, scale);
    hide ValidSprite;
  }

  lemma Inside(d: int, n: nat, scale: nat)
    requires scale >= 1
    ensures 0 <= d < n * scale <==> 0 <= d / scale < n
  {
    var q := d / scale;
    assert d == q * scale + d % scale;
    if 0 <= q < n {
      ProductGrows(q + 1, n, scale);
    } else if q >= n {
      ProductGrows(n, q, scale);
    }
  }

  function Backward<T>(s: seq<T>): (r: seq<T>)
    ensures |r| == |s| && forall i :: 0 <= i < |s| ==> r[i] == s[|s| - 1 - i]
  {
    seq(|s|, i requires 0 <= i < |s| => s[|s| - 1 - i])
  }

  /** The picture with its left and right exchanged. */
  function LeftRight(spr: Sprite): (r: Sprite)
    requires ValidSprite(spr)
    ensures ValidSprite(r)
  {
    spr.(rows := seq(|spr.rows|, y requires 0 <= y < |spr.rows| => Backward(spr.rows[y])))
  }

  /** With its top and bottom exchanged. */
  function UpDown(spr: Sprite): (r: Sprite)
    requires ValidSprite(spr)
    ensures ValidSprite(r)
  {
    spr.(rows := Backward(spr.rows))
  }

  /** The flip bits: 1 exchanges left and right, 2 top and bottom, 3 both, and no others count. */
  lemma FlipsAre(s: Surf, clip: Area, spr: Sprite, lut: seq<nat>, palt: seq<nat>, px: int, py: int, scale: nat, flip: int)
    requires ValidSprite(spr) && |lut| == |palt| == 64 && scale >= 1
    ensures DrawSprite(s, clip, spr, lut, palt, px, py, scale, flip)
            == DrawSprite(s, clip,
                          if flip % 4 == 0 then spr else if flip % 4 == 1 then LeftRight(spr)
                          else if flip % 4 == 2 then UpDown(spr) else LeftRight(UpDown(spr)),
                          lut, palt, px, py, scale, 0)
  {
    var m := if flip % 4 == 0 then spr else if flip % 4 == 1 then LeftRight(spr)
             else if flip % 4 == 2 then UpDown(spr) else LeftRight(UpDown(spr));
    var a, b := DrawSprite(s, clip, spr, lut, palt, px, py, scale, flip), DrawSprite(s, clip, m, lut, palt, px, py, scale, 0);
    forall y, x | 0 <= y < |s| && 0 <= x < |s[y]| ensures a[y][x] == b[y][x] {
      FlippedPixel(clip, spr, m, lut, palt, px, py, scale, flip, x, y, s[y][x]);
    }
    hide SpritePixel;
    SameSurf(a, b);
  }

  lemma FlippedPixel(clip: Area, spr: Sprite, m: Sprite, lut: seq<nat>, palt: seq<nat>, px: int, py: int, scale: nat,
                     flip: int, x: int, y: int, w: nat)
    requires ValidSprite(spr) && |lut| == |palt| == 64 && scale >= 1
    requires m == if flip % 4 == 0 then spr else if flip % 4 == 1 then LeftRight(spr)
                  else if flip % 4 == 2 then UpDown(spr) else LeftRight(UpDown(spr))
    ensures ValidSprite(m) && m.w == spr.w && |m.rows| == |spr.rows|
    ensures SpritePixel(clip, spr, lut, palt, px, py, scale, flip, x, y, w)
            == SpritePixel(clip, m, lut, palt, px, py, scale, 0, x, y, w)
  {
    if In(clip, x, y) && 0 <= x - px < spr.w * scale && 0 <= y - py < |spr.rows| * scale {
      FlippedTexture(spr, m, lut, palt, flip, Texel(x - px, spr.w, scale), Texel(y - py, |spr.rows|, scale));
    }
    hide Texture, Texel, LeftRight, UpDown;
  }

  lemma FlippedTexture(spr: Sprite, m: Sprite, lut: seq<nat>, palt: seq<nat>, flip: int, sx: nat, sy: nat)
    requires ValidSprite(spr) && |lut| == |palt| == 64 && sx < spr.w && sy < |spr.rows|
    requires m == if flip % 4 == 0 then spr else if flip % 4 == 1 then LeftRight(spr)
                  else if flip % 4 == 2 then UpDown(spr) else LeftRight(UpDown(spr))
    ensures ValidSprite(m) && m.w == spr.w && |m.rows| == |spr.rows|
    ensures Texture(spr, lut, palt, flip, sx, sy) == Texture(m, lut, palt, 0, sx, sy)
  {
    FlipBits(flip);
  }

  lemma FlipBits(flip: int)
    ensures flip % 2 == flip % 4 % 2 && flip / 2 % 2 == flip % 4 / 2
  {
  }

  /** The tiles are the sheet, sixteen to a row and eight pixels square, numbered along the rows. */
  lemma TilesAreTheSheet(sh: Sheet, colorkey: int, x: nat, y: nat)
    requires ValidSheet(sh) && x < 128 && y < 256
    ensures var n := y / 8 * 16 + x / 8;
            && n < 512
            && var t := TileSprite(sh, n, colorkey);
               t.w == |t.rows| == 8 && t.transparent == Some(colorkey) && t.rows[y % 8][x % 8] == sh.rows[y][x]
  {
    var n := y / 8 * 16 + x / 8;
    TileOf(y / 8, x / 8);
    assert y / 8 * 8 + y % 8 == y && x / 8 * 8 + x % 8 == x;
    assert TileSprite(sh, n, colorkey).rows[y % 8] == TileRow(sh, n, y % 8);
  }

  lemma TileOf(row: nat, column: nat)
    requires row < 32 && column < 16
    ensures (row * 16 + column) / 16 == row && (row * 16 + column) % 16 == column && row * 16 + column < 512
  {
  }

  /** A tile asked of the canvas: the tile as a sprite, under the camera; a scale below one is
      one, and a tile the sheet does not hold is nothing. */
  lemma TileDraws(f: Frame, token: int, sh: Sheet, tile: int, x: int, y: int, colorkey: int, scale: int, flip: int)
    requires WellFormedFrame(f) && ValidSheet(sh)
    ensures var r := Draw(f, Verb.Spr(token, sh, tile, x, y, colorkey, scale, flip));
            && r == f.(surf := r.surf)
            && (!(0 <= tile < 512) ==> r == f)
            && (0 <= tile < 512 ==>
                  r.surf == DrawSprite(f.surf, f.view.clip, TileSprite(sh, tile, colorkey), Lut(f.look), f.look.palt,
                                       x - f.view.camX, y - f.view.camY, if scale < 1 then 1 else scale, flip))
  {
  }

  lemma ImageDraws(f: Frame, slot: nat, spr: Sprite, x: int, y: int, scale: int, flip: int)
    requires WellFormedFrame(f) && ValidSprite(spr)
    ensures var r := Draw(f, Verb.Image(slot, spr, x, y, scale, flip));
            && r == f.(surf := r.surf)
            && r.surf == DrawSprite(f.surf, f.view.clip, spr, Lut(f.look), f.look.palt,
                                    x - f.view.camX, y - f.view.camY, if scale < 1 then 1 else scale, flip)
  {
  }

  // ---- shapes ----

  /** Sixteen bits of a pattern, row by row from the top left, the first the highest. */
  function Pattern(bits: seq<bool>): nat {
    if bits == [] then 0 else 2 * Pattern(bits[..|bits| - 1]) + if bits[|bits| - 1] then 1 else 0
  }

  lemma {:induction false} BitIs(bits: seq<bool>, k: nat)
    requires k < |bits|
    ensures Pattern(bits) / Pow2(|bits| - 1 - k) % 2 == if bits[k] then 1 else 0
    decreases |bits|
  {
    var n := |bits| - 1;
    if k < n {
      BitIs(bits[..n], k);
      DropBit(Pattern(bits[..n]), if bits[n] then 1 else 0, Pow2(n - 1 - k));
    }
  }

  lemma DropBit(p: nat, b: nat, q: nat)
    requires b < 2 && q >= 1
    ensures (2 * p + b) / (2 * q) == p / q
  {
    var a, t := p / q, p % q;
    assert p == a * q + t;
    assert 2 * p + b == a * (2 * q) + (2 * t + b);
    Divides(2 * p + b, 2 * q, a, 2 * t + b);
  }

  lemma Divides(d: nat, n: nat, q: nat, t: nat)
    requires n >= 1 && t < n && d == q * n + t
    ensures d / n == q
  {
    var p := d / n;
    assert d == p * n + d % n;
    if p < q {
      ProductGrows(p + 1, q, n);
    } else if q < p {
      ProductGrows(q + 1, p, n);
    }
  }

  /** A pattern's holes are where its bits say, repeated over the buffer. */
  lemma HolesAre(bits: seq<bool>, x: int, y: int)
    requires |bits| == 16
    ensures HoleAt(Pattern(bits), x, y) == bits[y % 4 * 4 + x % 4]
    ensures Pattern(bits) % 0x10000 == Pattern(bits)
  {
    BitIs(bits, y % 4 * 4 + x % 4);
    PatternFits16(bits);
    hide Pattern, Pow2;
  }

  lemma {:induction false} PatternBelow(bits: seq<bool>)
    ensures Pattern(bits) < Pow2(|bits|)
  {
    if bits != [] {
      PatternBelow(bits[..|bits| - 1]);
    }
  }

  lemma PatternFits16(bits: seq<bool>)
    requires |bits| == 16
    ensures Pattern(bits) < 0x10000
  {
    PatternBelow(bits);
    hide Pattern;
    assert Pow2(4) == 16;
    assert Pow2(8) == 256;
    assert Pow2(12) == 4096;
    assert Pow2(16) == 0x10000;
  }

  /** The pixel of the buffer in the clip, and where it is to a caller under the camera. */
  predicate InClip(v: View, x: int, y: int) { v.clip.x0 <= x < v.clip.x1 && v.clip.y0 <= y < v.clip.y1 }

  /** What a shape leaves of a pixel it covers: its colour, or in a pattern's hole the pattern's
      colour if it has one. */
  function Covered(f: Frame, c: int, x: int, y: int, was: nat): nat
    requires WellFormedFrame(f)
  {
    if !HoleAt(f.fillp, x, y) then Lut(f.look)[c % 64] else if f.fillpCol < 0 then was else Lut(f.look)[f.fillpCol % 64]
  }

  /** `rect`: the pixels in the clip whose place under the camera is in the rectangle. */
  lemma RectPixel(f: Frame, x: int, y: int, w: int, h: int, c: int, py: int, px: int)
    requires WellFormedFrame(f) && 0 <= py < f.bh && 0 <= px < f.stride
    ensures var r := Draw(f, Verb.Rect(x, y, w, h, c));
            var wx, wy := px + f.view.camX, py + f.view.camY;
            && r == f.(surf := r.surf)
            && r.surf[py][px] == if InClip(f.view, px, py) && x <= wx < x + w && y <= wy < y + h
                                 then Covered(f, c, px, py, f.surf[py][px]) else f.surf[py][px]
  {
    hide HoleAt, Lut, WellFormed;
  }

  /** `rectb`: those on the rectangle's first and last rows and columns. */
  lemma RectbPixel(f: Frame, x: int, y: int, w: int, h: int, c: int, py: int, px: int)
    requires WellFormedFrame(f) && 0 <= py < f.bh && 0 <= px < f.stride
    ensures var r := Draw(f, Verb.Rectb(x, y, w, h, c));
            var wx, wy := px + f.view.camX, py + f.view.camY;
            var on := || ((wy == y || wy == y + h - 1) && x <= wx < x + w)
                      || ((wx == x || wx == x + w - 1) && y <= wy < y + h);
            && r == f.(surf := r.surf)
            && r.surf[py][px] == if InClip(f.view, px, py) && on then Covered(f, c, px, py, f.surf[py][px]) else f.surf[py][px]
  {
    hide HoleAt, Lut, WellFormed, Shade;
    var a := DrawRect(f, x, y, w, 1, c);
    var b := DrawRect(a, x, y + h - 1, w, 1, c);
    var d := DrawRect(b, x, y, 1, h, c);
    OneRect(f, x, y, w, 1, c, py, px);
    OneRect(a, x, y + h - 1, w, 1, c, py, px);
    OneRect(b, x, y, 1, h, c, py, px);
    OneRect(d, x + w - 1, y, 1, h, c, py, px);
    hide DrawRect;
  }

  lemma OneRect(f: Frame, x: int, y: int, w: int, h: int, c: int, py: int, px: int)
    requires WellFormedFrame(f) && 0 <= py < f.bh && 0 <= px < f.stride
    ensures var r := DrawRect(f, x, y, w, h, c);
            var wx, wy := px + f.view.camX, py + f.view.camY;
            && r == f.(surf := r.surf)
            && r.surf[py][px] == if InClip(f.view, px, py) && x <= wx < x + w && y <= wy < y + h
                                 then Covered(f, c, px, py, f.surf[py][px]) else f.surf[py][px]
  {
    hide HoleAt, Lut, WellFormed;
  }

  /** `pix(x, y, c)`: the one pixel whose place that is, if the clip has it, in no pattern. */
  lemma PsetPixel(f: Frame, x: int, y: int, c: int, py: int, px: int)
    requires WellFormedFrame(f) && 0 <= py < f.bh && 0 <= px < f.stride
    ensures var r := Draw(f, Verb.Pset(x, y, c));
            && r == f.(surf := r.surf)
            && r.surf[py][px] == if InClip(f.view, px, py) && px + f.view.camX == x && py + f.view.camY == y
                                 then Lut(f.look)[c % 64] else f.surf[py][px]
  {
    hide Lut, WellFormed;
  }

  /** `pix(x, y)`: the lowest index of the stock table's whose word is there; 0 for a word of none,
      and off the buffer. */
  lemma PgetReads(f: Frame, x: int, y: int)
    requires WellFormedFrame(f)
    ensures var px, py := x - f.view.camX, y - f.view.camY;
            var i := Get(f, x, y);
            Draw(f, Verb.Pget(x, y)) == f && Reads(f, Verb.Pget(x, y)) == [i] &&
            if !(0 <= px < f.stride && 0 <= py < f.bh) || f.surf[py][px] !in f.stock then i == 0
            else i < |f.stock| && f.stock[i] == f.surf[py][px] && f.surf[py][px] !in f.stock[..i]
  {
    hide WellFormed;
  }

  /** `cls`: the surface, whatever the camera, the clip and the pattern. */
  lemma ClsPixel(f: Frame, c: int, py: int, px: int)
    requires WellFormedFrame(f) && 0 <= py < f.bh && 0 <= px < f.stride
    ensures var r := Draw(f, Verb.Cls(c));
            && r == f.(surf := r.surf)
            && r.surf[py][px] == if f.view.ox <= px < f.view.ox + f.view.w && f.view.oy <= py < f.view.oy + f.view.h
                                 then Lut(f.look)[c % 64] else f.surf[py][px]
  {
    hide Lut, WellFormed;
  }

  // ---- the state the verbs set ----

  /** `camera(x, y)`: what is drawn at (x, y) comes at the surface's corner; nothing is drawn. */
  lemma CameraIs(f: Frame, x: int, y: int)
    requires WellFormedFrame(f)
    ensures var r := Draw(f, Verb.Camera(x, y));
            && r == f.(view := f.view.(camX := r.view.camX, camY := r.view.camY))
            && f.view.ox + r.view.camX == x && f.view.oy + r.view.camY == y
  {
  }

  /** `clip(x, y, w, h)`: the pixels of the surface in the rectangle, counted from its corner. */
  lemma ClipIs(f: Frame, x: int, y: int, w: int, h: int, px: int, py: int)
    requires WellFormedFrame(f)
    ensures var r := Draw(f, Verb.Clip(x, y, w, h));
            var u, v := px - f.view.ox, py - f.view.oy;
            && r == f.(view := f.view.(clip := r.view.clip))
            && (InClip(r.view, px, py) <==> 0 <= u < f.view.w && x <= u < x + w && 0 <= v < f.view.h && y <= v < y + h)
    ensures var r := Draw(f, Verb.ClipReset);
            var u, v := px - f.view.ox, py - f.view.oy;
            && r == f.(view := f.view.(clip := r.view.clip))
            && (InClip(r.view, px, py) <==> 0 <= u < f.view.w && 0 <= v < f.view.h)
  {
  }

  /** `fillp`: sixteen bits, and a colour for the holes or none. */
  lemma FillpIs(f: Frame, bits: seq<bool>, c: int, x: int, y: int)
    requires WellFormedFrame(f) && |bits| == 16
    ensures var r := Draw(f, Verb.Fillp(Pattern(bits), c));
            && r == f.(fillp := r.fillp, fillpCol := r.fillpCol)
            && HoleAt(r.fillp, x, y) == bits[y % 4 * 4 + x % 4]
            && (c < 0 <==> r.fillpCol < 0) && (c >= 0 ==> r.fillpCol == c % 64)
    ensures var r := Draw(f, Verb.FillpReset);
            r == f.(fillp := r.fillp, fillpCol := r.fillpCol) && !HoleAt(r.fillp, x, y)
  {
    HolesAre(bits, x, y);
    NoHoles();
    hide HoleAt, Pattern;
  }

  /** A frame's state as a reset leaves it: the surface's corner the origin, all of it the clip,
      no pattern, every index its base's word and drawn; the pixels and the surface stay. */
  ghost predicate IsReset(r: Frame, was: Surf, base: seq<nat>)
  {
    && WellFormed(r.look) && Lut(r.look) == base && r.look.base == base
    && r.surf == was && r.view.ox + r.view.camX == 0 && r.view.oy + r.view.camY == 0
    && (forall i :: 0 <= i < 64 ==> r.look.palt[i] == 0)
    && (forall x, y :: InClip(r.view, x, y) <==> r.view.ox <= x < r.view.ox + r.view.w && r.view.oy <= y < r.view.oy + r.view.h)
    && (forall x, y :: !HoleAt(r.fillp, x, y))
  }

  lemma FreshIsReset(f: Frame)
    requires WellFormed(f.look)
    ensures IsReset(Fresh(f), f.surf, f.look.base)
    ensures Fresh(f).view == f.view.(camX := Fresh(f).view.camX, camY := Fresh(f).view.camY, clip := Fresh(f).view.clip)
    ensures Fresh(f).stride == f.stride && Fresh(f).bh == f.bh && Fresh(f).stock == f.stock
  {
    ResetsShow(f.look);
    NoHoles();
    hide Lut, HoleAt, Redo;
  }

  /** `reset_state`: everything but the surface. */
  lemma ResetIs(f: Frame)
    requires WellFormedFrame(f)
    ensures var r := Draw(f, Verb.ResetState);
            && IsReset(r, f.surf, f.look.base)
            && r.view.ox == f.view.ox && r.view.oy == f.view.oy && r.view.w == f.view.w && r.view.h == f.view.h
  {
    FreshIsReset(f);
    hide IsReset, Fresh;
  }

  /** `set_viewport(x, y, w, h)`: the surface is the w by h pixels of the buffer from (x, y), or from
      its edge where that is past it, and no further than the buffer goes. */
  lemma ViewportIs(f: Frame, x: int, y: int, w: int, h: int, px: int, py: int)
    requires WellFormedFrame(f)
    ensures var r := Draw(f, Verb.Viewport(x, y, w, h));
            var x0, y0 := if x < 0 then 0 else x, if y < 0 then 0 else y;
            && IsReset(r, f.surf, f.look.base)
            && r.view.ox == x0 && r.view.oy == y0
            && (r.view.ox <= px < r.view.ox + r.view.w <==> x0 <= px < x0 + w && px < f.stride)
            && (r.view.oy <= py < r.view.oy + r.view.h <==> y0 <= py < y0 + h && py < f.bh)
    ensures var r := Draw(f, Verb.ViewportReset);
            && IsReset(r, f.surf, f.look.base)
            && r.view.ox == 0 && r.view.oy == 0 && r.view.w == f.stride && r.view.h == f.bh
  {
    FreshIsReset(f.(view := Placed(f, x, y, w, h)));
    FreshIsReset(f.(view := f.view.(ox := 0, oy := 0, w := f.stride, h := f.bh)));
    hide IsReset, Fresh, WellFormed;
  }
}
