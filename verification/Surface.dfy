/** Pixels: rows of RGB565 words, and what the drawing kernels (native/moy_gfx) do to
    them, each given as the word every pixel ends up holding. Clipping, scaling, flipping,
    recolouring and transparency are each one condition on the pixel, so two ways of
    drawing the same thing are compared a pixel at a time. The kernels' own loops are not
    here: these functions are what is trusted of them. */
module Surface {
  import opened Options

  /** Rows of words, top first. */
  type Surf = seq<seq<nat>>

  predicate Sized(s: Surf, w: nat, h: nat) {
    |s| == h && forall y :: 0 <= y < h ==> |s[y]| == w
  }

  /** The pixels x0 <= x < x1, y0 <= y < y1. */
  datatype Area = Area(x0: int, y0: int, x1: int, y1: int)

  predicate In(r: Area, x: int, y: int) {
    r.x0 <= x < r.x1 && r.y0 <= y < r.y1
  }

  /** Every pixel through `f`, which is given where the pixel is and what it holds. */
  function Paint(s: Surf, f: (int, int, nat) -> nat): (r: Surf)
    ensures |r| == |s|
    ensures forall y :: 0 <= y < |s| ==> |r[y]| == |s[y]|
    ensures forall y, x :: 0 <= y < |s| && 0 <= x < |s[y]| ==> r[y][x] == f(x, y, s[y][x])
  {
    seq(|s|, y requires 0 <= y < |s| => PaintRow(s[y], y, f))
  }

  function PaintRow(row: seq<nat>, y: int, f: (int, int, nat) -> nat): (r: seq<nat>)
    ensures |r| == |row|
    ensures forall x :: 0 <= x < |row| ==> r[x] == f(x, y, row[x])
  {
    seq(|row|, x requires 0 <= x < |row| => f(x, y, row[x]))
  }

  /** Surfaces of one shape are equal when every pixel is. */
  lemma SameSurf(a: Surf, b: Surf)
    requires |a| == |b| && forall y :: 0 <= y < |a| ==> |a[y]| == |b[y]|
    requires forall y, x :: 0 <= y < |a| && 0 <= x < |a[y]| ==> a[y][x] == b[y][x]
    ensures a == b
  {
    forall y | 0 <= y < |a| ensures a[y] == b[y] {
    }
  }

  // ---- fills ----

  /** `fill_rect`, clipped to the buffer. */
  function Fill(s: Surf, r: Area, col: nat): Surf {
    Paint(s, (x, y, w) => if In(r, x, y) then col else w)
  }

  function Pow2(n: nat): (r: nat)
    ensures r >= 1
  {
    if n == 0 then 1 else 2 * Pow2(n - 1)
  }

  /** Whether a 4x4 pattern, sixteen bits from the top left, has a hole at (x, y). */
  predicate HoleAt(pattern: nat, x: int, y: int) {
    (pattern / Pow2(15 - (y % 4 * 4 + x % 4))) % 2 == 1
  }

  /** `shape` over a rectangle: a hole takes `hole`, or is left as it was when negative. */
  function Shade(s: Surf, r: Area, col: nat, pattern: nat, hole: int): Surf {
    Paint(s, (x, y, w) =>
      if !In(r, x, y) then w
      else if !HoleAt(pattern, x, y) then col
      else if hole < 0 then w else hole)
  }

  /** A pattern of no holes fills. */
  lemma SolidPattern(s: Surf, r: Area, col: nat, hole: int)
    ensures Shade(s, r, col, 0, hole) == Fill(s, r, col)
  {
    NoHoles();
    SameSurf(Shade(s, r, col, 0, hole), Fill(s, r, col));
  }

  lemma NoHoles()
    ensures forall x, y :: !HoleAt(0, x, y)
  {
    forall x, y ensures !HoleAt(0, x, y) {
      ZeroOver(Pow2(15 - (y % 4 * 4 + x % 4)));
    }
  }

  lemma ZeroOver(d: nat)
    requires d >= 1
    ensures 0 / d == 0
  {
  }

  // ---- sprites ----

  /** An indexed picture: rows of palette indices, negative for a clear pixel. */
  datatype Sprite = Sprite(w: nat, rows: seq<seq<int>>, transparent: Option<int>)

  predicate ValidSprite(spr: Sprite) {
    forall y :: 0 <= y < |spr.rows| ==> |spr.rows[y]| == spr.w
  }

  /** Which of `n` texels, each `scale` pixels, pixel `d` falls in. */
  function Texel(d: int, n: nat, scale: nat): (t: nat)
    requires scale >= 1 && 0 <= d < n * scale
    ensures t < n && t == d / scale
  {
    TexelInRange(d, n, scale);
    d / scale
  }

  lemma TexelInRange(d: int, n: nat, scale: nat)
    requires scale >= 1 && 0 <= d < n * scale
    ensures 0 <= d / scale < n
  {
    if d / scale >= n {
      ProductGrows(n, d / scale, scale);
    }
  }

  lemma ProductGrows(a: nat, b: nat, c: nat)
    requires a <= b
    ensures a * c <= b * c
  {
  }

  /** The word texel (sx, sy) of a flipped, recoloured sprite shows, or None. */
  function Texture(spr: Sprite, lut: seq<nat>, palt: seq<nat>, flip: int, sx: nat, sy: nat): Option<nat>
    requires ValidSprite(spr) && |lut| == |palt| == 64 && sx < spr.w && sy < |spr.rows|
  {
    var ssx := if flip % 2 == 1 then spr.w - 1 - sx else sx;
    var ssy := if flip / 2 % 2 == 1 then |spr.rows| - 1 - sy else sy;
    var p := spr.rows[ssy][ssx];
    if spr.transparent == Some(p) || p < 0 || palt[p % 64] != 0 then None else Some(lut[p % 64])
  }

  /** What sprite drawing leaves at one pixel. */
  function SpritePixel(clip: Area, spr: Sprite, lut: seq<nat>, palt: seq<nat>,
                       px: int, py: int, scale: nat, flip: int, x: int, y: int, w: nat): nat
    requires ValidSprite(spr) && |lut| == |palt| == 64 && scale >= 1
  {
    if In(clip, x, y) && 0 <= x - px < spr.w * scale && 0 <= y - py < |spr.rows| * scale then
      match Texture(spr, lut, palt, flip, Texel(x - px, spr.w, scale), Texel(y - py, |spr.rows|, scale))
      case None => w
      case Some(c) => c
    else w
  }

  /** Direct drawing: each pixel inside the clip takes its texel's colour, scaled,
      flipped and recoloured, unless the texel is clear. */
  function DrawSprite(s: Surf, clip: Area, spr: Sprite, lut: seq<nat>, palt: seq<nat>,
                      px: int, py: int, scale: nat, flip: int): Surf
    requires ValidSprite(spr) && |lut| == |palt| == 64 && scale >= 1
  {
    Paint(s, (x, y, w) => SpritePixel(clip, spr, lut, palt, px, py, scale, flip, x, y, w))
  }

  // ---- baked sprites ----

  const KEY: nat := 0xF81F
  const NUDGED: nat := 0xF83F

  /** The word a bake stores for a visible pixel: never the colour key. */
  function Nudge(col: nat): nat {
    if col == KEY then NUDGED else col
  }

  function NudgeAll(lut: seq<nat>): (r: seq<nat>)
    ensures |r| == |lut| && forall i :: 0 <= i < |lut| ==> r[i] == Nudge(lut[i])
  {
    seq(|lut|, i requires 0 <= i < |lut| => Nudge(lut[i]))
  }

  /** What the bake holds at one texel. */
  function BakedWord(spr: Sprite, lut: seq<nat>, palt: seq<nat>, flip: int, sx: nat, sy: nat): nat
    requires ValidSprite(spr) && |lut| == |palt| == 64 && sx < spr.w && sy < |spr.rows|
  {
    match Texture(spr, lut, palt, flip, sx, sy)
    case None => KEY
    case Some(c) => Nudge(c)
  }

  /** The sprite at `scale`, flipped and recoloured, its clear pixels the colour key. */
  function Bake(spr: Sprite, lut: seq<nat>, palt: seq<nat>, scale: nat, flip: int): (r: Surf)
    requires ValidSprite(spr) && |lut| == |palt| == 64 && scale >= 1
    ensures Sized(r, spr.w * scale, |spr.rows| * scale)
    ensures forall y, x :: 0 <= y < |spr.rows| * scale && 0 <= x < spr.w * scale ==>
              r[y][x] == BakedWord(spr, lut, palt, flip, Texel(x, spr.w, scale), Texel(y, |spr.rows|, scale))
  {
    seq(|spr.rows| * scale, y requires 0 <= y < |spr.rows| * scale => BakeRow(spr, lut, palt, scale, flip, y))
  }

  function BakeRow(spr: Sprite, lut: seq<nat>, palt: seq<nat>, scale: nat, flip: int, y: nat): (r: seq<nat>)
    requires ValidSprite(spr) && |lut| == |palt| == 64 && scale >= 1 && y < |spr.rows| * scale
    ensures |r| == spr.w * scale
    ensures forall x :: 0 <= x < spr.w * scale ==>
              r[x] == BakedWord(spr, lut, palt, flip, Texel(x, spr.w, scale), Texel(y, |spr.rows|, scale))
  {
    seq(spr.w * scale, x requires 0 <= x < spr.w * scale =>
      BakedWord(spr, lut, palt, flip, Texel(x, spr.w, scale), Texel(y, |spr.rows|, scale)))
  }

  /** `blit565`: src at (px, py), its words equal to `key` left out (None: opaque). */
  function Blit(s: Surf, clip: Area, src: Surf, px: int, py: int, key: Option<nat>): Surf {
    Paint(s, (x, y, w) =>
      if In(clip, x, y) && 0 <= y - py < |src| && 0 <= x - px < |src[y - py]|
         && Some(src[y - py][x - px]) != key
      then src[y - py][x - px] else w)
  }

  /** Stamping a bake draws the sprite, but for a palette entry that is the key itself. */
  lemma StampingDraws(s: Surf, clip: Area, spr: Sprite, lut: seq<nat>, palt: seq<nat>,
                      px: int, py: int, scale: nat, flip: int)
    requires ValidSprite(spr) && |lut| == |palt| == 64 && scale >= 1
    ensures Blit(s, clip, Bake(spr, lut, palt, scale, flip), px, py, Some(KEY))
            == DrawSprite(s, clip, spr, NudgeAll(lut), palt, px, py, scale, flip)
  {
    var a := Blit(s, clip, Bake(spr, lut, palt, scale, flip), px, py, Some(KEY));
    var b := DrawSprite(s, clip, spr, NudgeAll(lut), palt, px, py, scale, flip);
    SameSurf(a, b);
  }

  /** No entry that is the key is ever shown. */
  predicate KeyUnseen(lut: seq<nat>, palt: seq<nat>)
    requires |lut| == |palt| == 64
  {
    forall i :: 0 <= i < 64 && lut[i] == 0xF81F ==> palt[i] != 0
  }

  predicate StampedDirect(lut: seq<nat>, palt: seq<nat>, s: Surf, clip: Area, spr: Sprite,
                          px: int, py: int, scale: nat, flip: int)
    requires ValidSprite(spr) && |lut| == |palt| == 64 && scale >= 1
  {
    Blit(s, clip, Bake(spr, lut, palt, scale, flip), px, py, Some(KEY))
    == DrawSprite(s, clip, spr, lut, palt, px, py, scale, flip)
  }

  /** Stamping draws every sprite at every place as drawing it directly does if and only if each
      entry that is the key is transparent. */
  lemma StampingExactly(lut: seq<nat>, palt: seq<nat>)
    requires |lut| == |palt| == 64
    ensures (forall s, clip, spr, px, py, scale: nat, flip :: ValidSprite(spr) && scale >= 1 ==>
               StampedDirect(lut, palt, s, clip, spr, px, py, scale, flip))
            <==> KeyUnseen(lut, palt)
  {
    if KeyUnseen(lut, palt) {
      forall s, clip, spr, px, py, scale: nat, flip | ValidSprite(spr) && scale >= 1
        ensures StampedDirect(lut, palt, s, clip, spr, px, py, scale, flip)
      {
        UnseenStamps(s, clip, spr, lut, palt, px, py, scale, flip);
      }
    } else {
      var i :| 0 <= i < 64 && lut[i] == KEY && palt[i] == 0;
      SeenKey(lut, palt, i);
    }
  }

  lemma UnseenStamps(s: Surf, clip: Area, spr: Sprite, lut: seq<nat>, palt: seq<nat>,
                     px: int, py: int, scale: nat, flip: int)
    requires ValidSprite(spr) && |lut| == |palt| == 64 && scale >= 1 && KeyUnseen(lut, palt)
    ensures StampedDirect(lut, palt, s, clip, spr, px, py, scale, flip)
  {
    StampingDraws(s, clip, spr, lut, palt, px, py, scale, flip);
    hide Texel, Blit, Bake;
    SameSurf(DrawSprite(s, clip, spr, NudgeAll(lut), palt, px, py, scale, flip),
             DrawSprite(s, clip, spr, lut, palt, px, py, scale, flip));
  }

  /** A sprite of one pixel. */
  function Dot(i: nat): (spr: Sprite)
    ensures ValidSprite(spr)
  {
    Sprite(1, [[i]], None)
  }

  /** What a dot leaves of one pixel, stamped and drawn. */
  lemma DotShows(lut: seq<nat>, palt: seq<nat>, i: nat)
    requires |lut| == |palt| == 64 && i < 64 && palt[i] == 0
    ensures Bake(Dot(i), lut, palt, 1, 0) == [[Nudge(lut[i])]]
    ensures DrawSprite([[0]], Area(0, 0, 1, 1), Dot(i), lut, palt, 0, 0, 1, 0) == [[lut[i]]]
  {
    assert Texel(0, 1, 1) == 0;
    SameSurf(Bake(Dot(i), lut, palt, 1, 0), [[Nudge(lut[i])]]);
    SameSurf(DrawSprite([[0]], Area(0, 0, 1, 1), Dot(i), lut, palt, 0, 0, 1, 0), [[lut[i]]]);
  }

  lemma DotStamps(w: nat)
    ensures w != KEY ==> Blit([[0]], Area(0, 0, 1, 1), [[w]], 0, 0, Some(KEY)) == [[w]]
  {
    if w != KEY {
      SameSurf(Blit([[0]], Area(0, 0, 1, 1), [[w]], 0, 0, Some(KEY)), [[w]]);
    }
  }

  /** A dot in an entry that is the key comes out nudged. */
  lemma SeenKey(lut: seq<nat>, palt: seq<nat>, i: nat)
    requires |lut| == |palt| == 64 && i < 64 && lut[i] == 0xF81F && palt[i] == 0
    ensures Blit([[0]], Area(0, 0, 1, 1), Bake(Dot(i), lut, palt, 1, 0), 0, 0, Some(0xF81F)) == [[0xF83F]]
    ensures !StampedDirect(lut, palt, [[0]], Area(0, 0, 1, 1), Dot(i), 0, 0, 1, 0)
  {
    hide Bake, DrawSprite, Blit;
    DotShows(lut, palt, i);
    DotStamps(Nudge(lut[i]));
  }

  // ---- sheets ----

  /** A sprite sheet of the one shape the kernels take: 16 x 32 tiles of 8 x 8 pixels.
      `id` is the object's identity. */
  datatype Sheet = Sheet(id: nat, rows: seq<seq<nat>>)

  predicate ValidSheet(sh: Sheet) {
    |sh.rows| == 256 && forall y :: 0 <= y < 256 ==> |sh.rows[y]| == 128
  }

  /** `tile_image`: tile n of the sheet as a sprite. */
  function TileSprite(sh: Sheet, n: nat, colorkey: int): (spr: Sprite)
    requires ValidSheet(sh) && n < 512
    ensures ValidSprite(spr) && spr.w == |spr.rows| == 8
  {
    Sprite(8, seq(8, v requires 0 <= v < 8 => TileRow(sh, n, v)), Some(colorkey))
  }

  function TileRow(sh: Sheet, n: nat, v: nat): (r: seq<int>)
    requires ValidSheet(sh) && n < 512 && v < 8
    ensures |r| == 8
  {
    seq(8, u requires 0 <= u < 8 => sh.rows[n / 16 * 8 + v][n % 16 * 8 + u])
  }

  /** One tile drawn: nothing for an id the sheet does not hold. */
  function DrawTile(s: Surf, clip: Area, sh: Sheet, lut: seq<nat>, palt: seq<nat>, colorkey: int,
                    tile: int, px: int, py: int, scale: int, flip: int): Surf
    requires ValidSheet(sh) && |lut| == |palt| == 64
  {
    if 0 <= tile < 512 then
      DrawSprite(s, clip, TileSprite(sh, tile, colorkey), lut, palt, px, py,
                 if scale < 1 then 1 else scale, flip)
    else s
  }
}
