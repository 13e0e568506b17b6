/** A picture of words placed at a whole scale or at any size
    (device/device_canvas.py:2297-2373, 2906-2925). One formula says which word of the picture a
    pixel takes; the kernel's band and its cut rows, the Python rows, and the sampled columns of
    a resize are each proved to leave it, and what they are proved from is the division that
    finds the word: where a product lies tells where its floor does. */
module Blits {
  import opened Options
  import opened Surface

  predicate IsPicture(src: Surf, w: nat) {
    forall y :: 0 <= y < |src| ==> |src[y]| == w
  }

  /** The clip lies in the buffer. */
  predicate ClipIn(clip: Area, stride: nat, bh: nat) {
    0 <= clip.x0 && clip.x1 <= stride && 0 <= clip.y0 && clip.y1 <= bh
  }

  // ---- the formula ----

  /** What a pixel holds once the picture is placed: inside the clip, the source pixel its
      offset falls in. */
  function ScaledPixel(clip: Area, src: Surf, w: nat, x: int, y: int, scale: nat, tx: int, ty: int, was: nat): nat
    requires IsPicture(src, w) && scale >= 1
  {
    if In(clip, tx, ty) && 0 <= tx - x < w * scale && 0 <= ty - y < |src| * scale
    then src[Texel(ty - y, |src|, scale)][Texel(tx - x, w, scale)] else was
  }

  function PlaceScaled(s: Surf, clip: Area, src: Surf, w: nat, x: int, y: int, scale: nat): Surf
    requires IsPicture(src, w) && scale >= 1
  {
    Paint(s, (tx, ty, was) => ScaledPixel(clip, src, w, x, y, scale, tx, ty, was))
  }

  /** A pixel of the picture placed: the word its offset over the scale names, inside the clip and
      the picture. */
  lemma PlacedIs(s: Surf, clip: Area, src: Surf, w: nat, x: int, y: int, scale: nat, ty: int, tx: int)
    requires IsPicture(src, w) && scale >= 1 && 0 <= ty < |s| && 0 <= tx < |s[ty]|
    ensures var r := PlaceScaled(s, clip, src, w, x, y, scale);
            && |r| == |s| && |r[ty]| == |s[ty]|
            && var u, v := (tx - x) / scale, (ty - y) / scale;
               r[ty][tx] == if clip.x0 <= tx < clip.x1 && clip.y0 <= ty < clip.y1 && 0 <= u < w && 0 <= v < |src|
                            then src[v][u] else s[ty][tx]
  {
    FloorInside(tx - x, w, scale);
    FloorInside(ty - y, |src|, scale);
  }

  lemma FloorInside(d: int, n: nat, scale: nat)
    requires scale >= 1
    ensures 0 <= d < n * scale <==> 0 <= d / scale < n
  {
    var q := d / scale;
    FloorBounds(d, scale);
    if 0 <= q < n {
      MulMono(q + 1, n, scale);
      MulMono(0, q, scale);
      Distribute(q, scale);
    } else if q >= n {
      MulMono(n, q, scale);
    } else {
      MulMono(q + 1, 0, scale);
      Distribute(q, scale);
    }
  }

  // ---- the kernels ----

  /** `blit565_scale`: the picture at a whole scale, clipped to the buffer alone. */
  function ScaleKernel(s: Surf, src: Surf, w: nat, x: int, y: int, scale: nat, stride: nat, bh: nat): Surf
    requires IsPicture(src, w) && scale >= 1
  {
    PlaceScaled(s, Area(0, 0, stride, bh), src, w, x, y, scale)
  }

  // ---- dividing ----

  lemma MulMono(a: int, b: int, n: nat)
    requires a <= b
    ensures a * n <= b * n
  {
  }

  lemma FloorIs(d: int, n: nat, q: int)
    requires n >= 1 && q * n <= d < q * n + n
    ensures d / n == q
  {
    var r := d - q * n;
    if d / n < q {
      MulMono(d / n + 1, q, n);
    } else if q < d / n {
      MulMono(q + 1, d / n, n);
    }
  }

  lemma FloorBounds(d: int, n: nat)
    requires n >= 1
    ensures d / n * n <= d < d / n * n + n
  {
    assert d == d / n * n + d % n;
  }

  /** Row `sy` of the source lands wholly inside the clip exactly when it is in the band the
      kernel takes in one call. */
  lemma BandIsWholeRows(y: int, cy0: int, cy1: int, h: nat, scale: nat, sy: nat)
    requires scale >= 1 && sy < h
    ensures var a := if -((y - cy0) / scale) > 0 then -((y - cy0) / scale) else 0;
            var b := if (cy1 - y) / scale < h then (cy1 - y) / scale else h;
            a <= sy < b <==> cy0 <= y + sy * scale && y + sy * scale + scale <= cy1
  {
    var p, q := (y - cy0) / scale, (cy1 - y) / scale;
    FloorBounds(y - cy0, scale);
    FloorBounds(cy1 - y, scale);
    if -p <= sy {
      MulMono(-p, sy, scale);
    } else {
      MulMono(sy + 1, -p, scale);
    }
    if sy < q {
      MulMono(sy + 1, q, scale);
    } else {
      MulMono(q, sy, scale);
    }
    Negate(p, scale);
    Distribute(sy, scale);
  }

  lemma Negate(p: int, n: nat)
    ensures (-p) * n == -(p * n)
  {
  }

  lemma Distribute(a: int, n: nat)
    ensures (a + 1) * n == a * n + n
  {
  }

  // ---- rows ----

  function Widen(row: seq<nat>, scale: nat): (r: seq<nat>)
    requires scale >= 1
    ensures |r| == |row| * scale && forall i :: 0 <= i < |row| * scale ==> r[i] == row[Texel(i, |row|, scale)]
  {
    seq(|row| * scale, i requires 0 <= i < |row| * scale => row[Texel(i, |row|, scale)])
  }

  /** A source row, each pixel `scale` times. */
  method WidenRow(row: seq<nat>, scale: nat) returns (r: seq<nat>)
    requires scale >= 1
    ensures r == Widen(row, scale)
  {
    r := [];
    for sx := 0 to |row|
      invariant |r| == sx * scale && sx * scale <= |row| * scale && r == Widen(row, scale)[..sx * scale]
    {
      ghost var was := r;
      Distribute(sx, scale);
      MulMono(sx + 1, |row|, scale);
      for k := 0 to scale
        invariant |r| == sx * scale + k && r == Widen(row, scale)[..sx * scale + k]
      {
        FloorIs(sx * scale + k, scale, sx);
        assert Widen(row, scale)[..sx * scale + k + 1] == Widen(row, scale)[..sx * scale + k] + [row[sx]];
        r := r + [row[sx]];
      }
    }
    assert Widen(row, scale)[..|row| * scale] == Widen(row, scale);
  }

  // ---- the picture, some of its rows placed ----

  /** `s` is `s0` with the target rows before `n`, and those from `lo` to `hi`, placed. */
  ghost predicate Placed(s: Surf, s0: Surf, stride: nat, bh: nat, clip: Area, src: Surf, w: nat,
                         x: int, y: int, scale: nat, n: nat, lo: int, hi: int)
    requires IsPicture(src, w) && scale >= 1
  {
    && Sized(s, stride, bh) && Sized(s0, stride, bh)
    && forall ty, tx :: 0 <= ty < bh && 0 <= tx < stride ==>
         s[ty][tx] == if ty - y < n || lo <= ty - y < hi
                      then ScaledPixel(clip, src, w, x, y, scale, tx, ty, s0[ty][tx]) else s0[ty][tx]
  }

  lemma NonePlaced(s0: Surf, stride: nat, bh: nat, clip: Area, src: Surf, w: nat, x: int, y: int, scale: nat)
    requires IsPicture(src, w) && scale >= 1 && Sized(s0, stride, bh)
    ensures Placed(s0, s0, stride, bh, clip, src, w, x, y, scale, 0, 0, 0)
  {
    hide Texel;
  }

  lemma AllPlaced(s: Surf, s0: Surf, stride: nat, bh: nat, clip: Area, src: Surf, w: nat,
                  x: int, y: int, scale: nat, n: nat, lo: int, hi: int)
    requires IsPicture(src, w) && scale >= 1
    requires Placed(s, s0, stride, bh, clip, src, w, x, y, scale, n, lo, hi) && n >= |src| * scale
    ensures s == PlaceScaled(s0, clip, src, w, x, y, scale)
  {
    hide Texel;
    SameSurf(s, PlaceScaled(s0, clip, src, w, x, y, scale));
  }

  predicate Needless(clip: Area, y: int, lo: int, hi: int, d: int) {
    lo <= d < hi || y + d < clip.y0 || y + d >= clip.y1
  }

  /** A target row the clip leaves out, or one in the band already placed, needs nothing. */
  lemma RowSkipped(s: Surf, s0: Surf, stride: nat, bh: nat, clip: Area, src: Surf, w: nat,
                   x: int, y: int, scale: nat, n: nat, m: nat, lo: int, hi: int)
    requires IsPicture(src, w) && scale >= 1 && n <= m
    requires Placed(s, s0, stride, bh, clip, src, w, x, y, scale, n, lo, hi)
    requires forall d :: n <= d < m ==> Needless(clip, y, lo, hi, d)
    ensures Placed(s, s0, stride, bh, clip, src, w, x, y, scale, m, lo, hi)
  {
    hide Texel;
    forall ty, tx | 0 <= ty < bh && 0 <= tx < stride && n <= ty - y < m
      ensures lo <= ty - y < hi || ScaledPixel(clip, src, w, x, y, scale, tx, ty, s0[ty][tx]) == s0[ty][tx]
    {
      assert Needless(clip, y, lo, hi, ty - y);
    }
  }

  /** One widened row stamped inside the clip. */
  lemma RowStamped(s: Surf, s0: Surf, stride: nat, bh: nat, clip: Area, src: Surf, w: nat,
                   x: int, y: int, scale: nat, n: nat, lo: int, hi: int, sy: nat)
    requires IsPicture(src, w) && scale >= 1 && sy < |src| && sy * scale <= n < sy * scale + scale
    requires n < |src| * scale && !(lo <= n < hi)
    requires Placed(s, s0, stride, bh, clip, src, w, x, y, scale, n, lo, hi)
    ensures Placed(Blit(s, clip, [Widen(src[sy], scale)], x, y + n, None), s0, stride, bh, clip, src, w, x, y, scale,
                   n + 1, lo, hi)
  {
    FloorIs(n, scale, sy);
    hide Texel;
    assert Texel(n, |src|, scale) == sy;
  }

  // ---- the three lanes ----

  /** Source row `sy` stamped as often as it is tall. */
  method StampRow(s: Surf, clip: Area, row: seq<nat>, x: int, y: int, scale: nat, sy: nat,
                  ghost s0: Surf, ghost stride: nat, ghost bh: nat, ghost src: Surf, ghost w: nat,
                  ghost lo: int, ghost hi: int)
    returns (r: Surf)
    requires IsPicture(src, w) && scale >= 1 && sy < |src| && row == Widen(src[sy], scale)
    requires sy * scale + scale <= lo || hi <= sy * scale || hi <= lo
    requires Placed(s, s0, stride, bh, clip, src, w, x, y, scale, sy * scale, lo, hi)
    ensures Placed(r, s0, stride, bh, clip, src, w, x, y, scale, sy * scale + scale, lo, hi)
  {
    r := s;
    RowsEnd(sy, |src|, scale);
    hide Placed, Widen, IsPicture;
    for k := 0 to scale
      invariant Placed(r, s0, stride, bh, clip, src, w, x, y, scale, sy * scale + k, lo, hi)
    {
      RowStamped(r, s0, stride, bh, clip, src, w, x, y, scale, sy * scale + k, lo, hi, sy);
      r := Blit(r, clip, [row], x, y + (sy * scale + k), None);
    }
  }

  lemma RowsEnd(sy: nat, h: nat, scale: nat)
    requires sy < h
    ensures sy * scale + scale <= h * scale && (sy + 1) * scale == sy * scale + scale
  {
    Distribute(sy, scale);
    MulMono(sy + 1, h, scale);
  }

  /** The source rows wholly inside the clip, in one call; none unless the picture is inside
      it across. */
  method Band(s: Surf, stride: nat, bh: nat, clip: Area, src: Surf, w: nat, x: int, y: int, scale: nat)
    returns (r: Surf, a: int, b: int)
    requires Sized(s, stride, bh) && ClipIn(clip, stride, bh) && IsPicture(src, w) && scale >= 1
    ensures Placed(r, s, stride, bh, clip, src, w, x, y, scale, 0, a * scale, b * scale)
  {
    a, b := 0, 0;
    r := s;
    NonePlaced(s, stride, bh, clip, src, w, x, y, scale);
    if x >= clip.x0 && x + w * scale <= clip.x1 {
      a := if -((y - clip.y0) / scale) > 0 then -((y - clip.y0) / scale) else 0;
      b := if (clip.y1 - y) / scale < |src| then (clip.y1 - y) / scale else |src|;
      if a < b {
        BandIsWholeRows(y, clip.y0, clip.y1, |src|, scale, a);
        BandIsWholeRows(y, clip.y0, clip.y1, |src|, scale, b - 1);
        Distribute(b - 1, scale);
        hide Placed, IsPicture, Sized, PlaceScaled;
        BandPlaced(s, stride, bh, clip, src, w, x, y, scale, a, b);
        r := ScaleKernel(s, src[a..b], w, x, y + a * scale, scale, stride, bh);
      } else {
        MulMono(b, a, scale);
        hide Placed, IsPicture, Sized, PlaceScaled;
        EmptyBand(r, s, stride, bh, clip, src, w, x, y, scale, a * scale, b * scale);
      }
    }
  }

  /** The rows the band left out, one at a time, those outside the clip passed over. */
  method CutRowsLane(from: Surf, ghost s: Surf, ghost stride: nat, ghost bh: nat, clip: Area, src: Surf, ghost w: nat,
                     x: int, y: int, scale: nat, a: int, b: int)
    returns (r: Surf)
    requires IsPicture(src, w) && scale >= 1
    requires Placed(from, s, stride, bh, clip, src, w, x, y, scale, 0, a * scale, b * scale)
    ensures r == PlaceScaled(s, clip, src, w, x, y, scale)
  {
    r := from;
    hide Placed, IsPicture, Sized, PlaceScaled;
    for sy := 0 to |src|
      invariant Placed(r, s, stride, bh, clip, src, w, x, y, scale, sy * scale, a * scale, b * scale)
    {
      Distribute(sy, scale);
      if a <= sy < b {
        BandRows(a, b, sy, scale);
        RowSkipped(r, s, stride, bh, clip, src, w, x, y, scale, sy * scale, sy * scale + scale, a * scale, b * scale);
        continue;
      }
      var ty := y + sy * scale;
      if ty + scale <= clip.y0 || ty >= clip.y1 {
        RowSkipped(r, s, stride, bh, clip, src, w, x, y, scale, sy * scale, sy * scale + scale, a * scale, b * scale);
        continue;
      }
      CutRows(a, b, sy, scale);
      var row := WidenRow(src[sy], scale);
      r := StampRow(r, clip, row, x, y, scale, sy, s, stride, bh, src, w, a * scale, b * scale);
    }
    AllPlaced(r, s, stride, bh, clip, src, w, x, y, scale, |src| * scale, a * scale, b * scale);
  }

  /** The kernel's band, then the rows the clip cuts: between them each row once. */
  method KernelLane(s: Surf, stride: nat, bh: nat, clip: Area, src: Surf, w: nat, x: int, y: int, scale: nat)
    returns (r: Surf)
    requires Sized(s, stride, bh) && ClipIn(clip, stride, bh) && IsPicture(src, w) && scale >= 1
    ensures r == PlaceScaled(s, clip, src, w, x, y, scale)
  {
    var a, b;
    r, a, b := Band(s, stride, bh, clip, src, w, x, y, scale);
    hide Placed, IsPicture, PlaceScaled;
    if a == 0 && b == |src| {
      WholeBand(r, s, stride, bh, clip, src, w, x, y, scale);
      return;
    }
    if (if x + w * scale < clip.x1 then x + w * scale else clip.x1) <= (if x > clip.x0 then x else clip.x0) {
      NothingAcross(r, s, stride, bh, clip, src, w, x, y, scale, a, b);
      return;
    }
    r := CutRowsLane(r, s, stride, bh, clip, src, w, x, y, scale, a, b);
  }

  lemma TexelDown(d: int, a: nat, b: nat, h: nat, scale: nat)
    requires scale >= 1 && a < b <= h && a * scale <= d < b * scale
    ensures 0 <= d - a * scale < (b - a) * scale && 0 <= d < h * scale
    ensures Texel(d - a * scale, b - a, scale) + a == Texel(d, h, scale)
  {
    MulMono(b, h, scale);
    MulMono(0, a, scale);
    Split(b, a, scale);
    FloorBounds(d - a * scale, scale);
    var q := (d - a * scale) / scale;
    Split(q + a, a, scale);
    FloorIs(d, scale, q + a);
  }

  lemma Split(b: int, a: int, n: nat)
    ensures (b - a) * n == b * n - a * n
  {
  }

  /** The rows from `a` to `b`, given to the kernel on their own. */
  lemma BandPlaced(s: Surf, stride: nat, bh: nat, clip: Area, src: Surf, w: nat, x: int, y: int, scale: nat, a: nat, b: nat)
    requires Sized(s, stride, bh) && ClipIn(clip, stride, bh) && IsPicture(src, w) && scale >= 1 && a < b <= |src|
    requires x >= clip.x0 && x + w * scale <= clip.x1 && clip.y0 <= y + a * scale && y + b * scale <= clip.y1
    ensures IsPicture(src[a..b], w)
    ensures Placed(ScaleKernel(s, src[a..b], w, x, y + a * scale, scale, stride, bh), s, stride, bh, clip, src, w,
                   x, y, scale, 0, a * scale, b * scale)
  {
    var r := ScaleKernel(s, src[a..b], w, x, y + a * scale, scale, stride, bh);
    forall ty, tx | 0 <= ty < bh && 0 <= tx < stride
      ensures r[ty][tx] == if ty - y < 0 || a * scale <= ty - y < b * scale
                           then ScaledPixel(clip, src, w, x, y, scale, tx, ty, s[ty][tx]) else s[ty][tx]
    {
      BandPixel(clip, src, w, x, y, scale, a, b, tx, ty, s[ty][tx], stride, bh);
    }
    hide Texel, ScaledPixel;
  }

  lemma BandPixel(clip: Area, src: Surf, w: nat, x: int, y: int, scale: nat, a: nat, b: nat, tx: int, ty: int, was: nat,
                  stride: nat, bh: nat)
    requires IsPicture(src, w) && scale >= 1 && a < b <= |src| && 0 <= ty < bh && 0 <= tx < stride
    requires x >= clip.x0 && x + w * scale <= clip.x1 && clip.y0 <= y + a * scale && y + b * scale <= clip.y1
    ensures IsPicture(src[a..b], w)
    ensures ScaledPixel(Area(0, 0, stride, bh), src[a..b], w, x, y + a * scale, scale, tx, ty, was)
            == if a * scale <= ty - y < b * scale then ScaledPixel(clip, src, w, x, y, scale, tx, ty, was) else was
  {
    Split(b, a, scale);
    if a * scale <= ty - y < b * scale {
      TexelDown(ty - y, a, b, |src|, scale);
    }
    hide Texel;
  }

  lemma BandRows(a: int, b: int, sy: nat, scale: nat)
    requires a <= sy < b
    ensures a * scale <= sy * scale && sy * scale + scale <= b * scale
  {
    MulMono(a, sy, scale);
    MulMono(sy + 1, b, scale);
    Distribute(sy, scale);
  }

  lemma CutRows(a: int, b: int, sy: nat, scale: nat)
    requires !(a <= sy < b)
    ensures sy * scale + scale <= a * scale || b * scale <= sy * scale
  {
    if sy < a {
      MulMono(sy + 1, a, scale);
      Distribute(sy, scale);
    } else {
      MulMono(b, sy, scale);
    }
  }

  lemma EmptyBand(s: Surf, s0: Surf, stride: nat, bh: nat, clip: Area, src: Surf, w: nat,
                  x: int, y: int, scale: nat, lo: int, hi: int)
    requires IsPicture(src, w) && scale >= 1
    requires Placed(s, s0, stride, bh, clip, src, w, x, y, scale, 0, 0, 0) && hi <= lo
    ensures Placed(s, s0, stride, bh, clip, src, w, x, y, scale, 0, lo, hi)
  {
    hide ScaledPixel;
  }

  lemma WholeBand(s: Surf, s0: Surf, stride: nat, bh: nat, clip: Area, src: Surf, w: nat, x: int, y: int, scale: nat)
    requires IsPicture(src, w) && scale >= 1
    requires Placed(s, s0, stride, bh, clip, src, w, x, y, scale, 0, 0, |src| * scale)
    ensures s == PlaceScaled(s0, clip, src, w, x, y, scale)
  {
    hide Texel;
    SameSurf(s, PlaceScaled(s0, clip, src, w, x, y, scale));
  }

  lemma NothingAcross(s: Surf, s0: Surf, stride: nat, bh: nat, clip: Area, src: Surf, w: nat,
                      x: int, y: int, scale: nat, a: int, b: int)
    requires IsPicture(src, w) && scale >= 1 && Sized(s0, stride, bh)
    requires Placed(s, s0, stride, bh, clip, src, w, x, y, scale, 0, a * scale, b * scale)
    requires (if x + w * scale < clip.x1 then x + w * scale else clip.x1) <= (if x > clip.x0 then x else clip.x0)
    ensures s == PlaceScaled(s0, clip, src, w, x, y, scale)
  {
    hide Texel;
    SameSurf(s, PlaceScaled(s0, clip, src, w, x, y, scale));
  }

  /** The picture at scale 1 is the keyed copy with no key. */
  lemma UnscaledIsCopied(s: Surf, clip: Area, src: Surf, w: nat, x: int, y: int)
    requires IsPicture(src, w)
    ensures PlaceScaled(s, clip, src, w, x, y, 1) == Blit(s, clip, src, x, y, None)
  {
    SameSurf(PlaceScaled(s, clip, src, w, x, y, 1), Blit(s, clip, src, x, y, None));
  }

  /** `blit565` as Python draws it where there is no kernel: each source row widened, and its
      part inside the clip copied over. */
  method PlainLane(s: Surf, stride: nat, bh: nat, clip: Area, src: Surf, w: nat, x: int, y: int, scale: nat)
    returns (r: Surf)
    requires Sized(s, stride, bh) && ClipIn(clip, stride, bh) && IsPicture(src, w) && scale >= 1
    ensures r == PlaceScaled(s, clip, src, w, x, y, scale)
  {
    r := s;
    NonePlaced(s, stride, bh, clip, src, w, x, y, scale);
    var x0 := if x > clip.x0 then x else clip.x0;
    var x1 := if x + w * scale < clip.x1 then x + w * scale else clip.x1;
    if x1 <= x0 {
      NothingAcross(r, s, stride, bh, clip, src, w, x, y, scale, 0, 0);
      return;
    }
    hide Placed, IsPicture, Sized, PlaceScaled;
    for sy := 0 to |src|
      invariant Placed(r, s, stride, bh, clip, src, w, x, y, scale, sy * scale, 0, 0)
    {
      Distribute(sy, scale);
      RowsEnd(sy, |src|, scale);
      var row := WidenRow(src[sy], scale);
      for k := 0 to scale
        invariant Placed(r, s, stride, bh, clip, src, w, x, y, scale, sy * scale + k, 0, 0)
      {
        var ty := y + sy * scale + k;
        if ty < clip.y0 || ty >= clip.y1 {
          RowSkipped(r, s, stride, bh, clip, src, w, x, y, scale, sy * scale + k, sy * scale + k + 1, 0, 0);
          continue;
        }
        RowSpliced(r, s, stride, bh, clip, src, w, x, y, scale, sy * scale + k, sy);
        r := r[ty := Spliced(r[ty], row, x, x0, x1)];
      }
    }
    AllPlaced(r, s, stride, bh, clip, src, w, x, y, scale, |src| * scale, 0, 0);
  }

  /** `d[x0:x1] = row[x0-x:x1-x]`. */
  function Spliced(d: seq<nat>, row: seq<nat>, x: int, x0: int, x1: int): (r: seq<nat>)
    requires 0 <= x0 <= x1 <= |d| && x <= x0 && x1 - x <= |row|
    ensures |r| == |d|
    ensures forall i :: 0 <= i < |d| ==> r[i] == if x0 <= i < x1 then row[i - x] else d[i]
  {
    d[..x0] + row[x0 - x..x1 - x] + d[x1..]
  }

  lemma RowSpliced(s: Surf, s0: Surf, stride: nat, bh: nat, clip: Area, src: Surf, w: nat,
                   x: int, y: int, scale: nat, n: nat, sy: nat)
    requires IsPicture(src, w) && scale >= 1 && sy < |src| && sy * scale <= n < sy * scale + scale && n < |src| * scale
    requires Placed(s, s0, stride, bh, clip, src, w, x, y, scale, n, 0, 0) && ClipIn(clip, stride, bh)
    requires clip.y0 <= y + n < clip.y1
    requires var x0 := if x > clip.x0 then x else clip.x0;
             var x1 := if x + w * scale < clip.x1 then x + w * scale else clip.x1;
             x0 < x1
    ensures var x0 := if x > clip.x0 then x else clip.x0;
            var x1 := if x + w * scale < clip.x1 then x + w * scale else clip.x1;
            && y + n < |s| && |Widen(src[sy], scale)| == w * scale && |s[y + n]| == stride
            && Placed(s[y + n := Spliced(s[y + n], Widen(src[sy], scale), x, x0, x1)], s0, stride, bh, clip, src, w,
                      x, y, scale, n + 1, 0, 0)
  {
    FloorIs(n, scale, sy);
    var x0 := if x > clip.x0 then x else clip.x0;
    var x1 := if x + w * scale < clip.x1 then x + w * scale else clip.x1;
    var row := Spliced(s[y + n], Widen(src[sy], scale), x, x0, x1);
    SplicedPixels(s[y + n], clip, src, w, x, y, scale, n, sy, x0, x1);
    hide Widen, Spliced, ScaledPixel, IsPicture;
    RowTaken(s, s0, stride, bh, clip, src, w, x, y, scale, n, row);
  }

  lemma SplicedPixels(d: seq<nat>, clip: Area, src: Surf, w: nat, x: int, y: int, scale: nat, n: nat, sy: nat, x0: int, x1: int)
    requires IsPicture(src, w) && scale >= 1 && sy < |src| && n < |src| * scale && n / scale == sy
    requires x0 == if x > clip.x0 then x else clip.x0
    requires x1 == if x + w * scale < clip.x1 then x + w * scale else clip.x1
    requires 0 <= x0 < x1 <= |d| && clip.y0 <= y + n < clip.y1
    ensures |Widen(src[sy], scale)| == w * scale
    ensures forall tx :: 0 <= tx < |d| ==>
              Spliced(d, Widen(src[sy], scale), x, x0, x1)[tx] == ScaledPixel(clip, src, w, x, y, scale, tx, y + n, d[tx])
  {
    assert Texel(n, |src|, scale) == sy;
    hide Texel;
  }

  lemma RowTaken(s: Surf, s0: Surf, stride: nat, bh: nat, clip: Area, src: Surf, w: nat, x: int, y: int, scale: nat,
                 n: nat, row: seq<nat>)
    requires IsPicture(src, w) && scale >= 1 && 0 <= y + n < bh
    requires Placed(s, s0, stride, bh, clip, src, w, x, y, scale, n, 0, 0) && |row| == stride
    requires forall tx :: 0 <= tx < stride ==> row[tx] == ScaledPixel(clip, src, w, x, y, scale, tx, y + n, s[y + n][tx])
    ensures Placed(s[y + n := row], s0, stride, bh, clip, src, w, x, y, scale, n + 1, 0, 0)
  {
    hide ScaledPixel;
  }

  /** `blit565`: whichever lane it takes, the one formula. */
  method Blit565(kernel: bool, s: Surf, stride: nat, bh: nat, clip: Area, src: Surf, w: nat, x: int, y: int,
                 scale: int, key: Option<nat>)
    returns (r: Surf)
    requires Sized(s, stride, bh) && ClipIn(clip, stride, bh) && IsPicture(src, w)
    ensures if w == 0 || src == [] || scale < 1 then r == s
            else if kernel && scale == 1 then r == Blit(s, clip, src, x, y, key)
            else r == PlaceScaled(s, clip, src, w, x, y, scale)
  {
    if w == 0 || |src| == 0 || scale < 1 {
      return s;
    }
    if kernel && scale == 1 {
      return Blit(s, clip, src, x, y, key);
    }
    if kernel {
      r := KernelLane(s, stride, bh, clip, src, w, x, y, scale);
    } else {
      r := PlainLane(s, stride, bh, clip, src, w, x, y, scale);
    }
  }

  /** A pixel on show that the key would leave out, and that holds something else. */
  predicate KeyShows(s: Surf, clip: Area, src: Surf, x: int, y: int, key: nat, tx: int, ty: int) {
    && 0 <= ty < |s| && 0 <= tx < |s[ty]| && In(clip, tx, ty)
    && 0 <= ty - y < |src| && 0 <= tx - x < |src[ty - y]|
    && src[ty - y][tx - x] == key && s[ty][tx] != key
  }

  /** Only the kernel honours the key: at scale 1 the lanes with it and without leave the same
      picture if and only if no key is on show over another word. */
  lemma KeyedLanesAgreeExactly(s: Surf, clip: Area, src: Surf, w: nat, x: int, y: int, key: nat)
    requires IsPicture(src, w)
    ensures Blit(s, clip, src, x, y, Some(key)) == PlaceScaled(s, clip, src, w, x, y, 1)
            <==> forall tx, ty :: !KeyShows(s, clip, src, x, y, key, tx, ty)
  {
    UnscaledIsCopied(s, clip, src, w, x, y);
    var a, b := Blit(s, clip, src, x, y, Some(key)), Blit(s, clip, src, x, y, None);
    hide PlaceScaled;
    if forall tx, ty :: !KeyShows(s, clip, src, x, y, key, tx, ty) {
      forall ty, tx | 0 <= ty < |a| && 0 <= tx < |a[ty]| ensures a[ty][tx] == b[ty][tx] {
        assert !KeyShows(s, clip, src, x, y, key, tx, ty);
      }
      SameSurf(a, b);
    }
    forall tx, ty | KeyShows(s, clip, src, x, y, key, tx, ty) ensures a != b {
      assert a[ty][tx] == s[ty][tx] && b[ty][tx] == key;
    }
  }

  /** A keyed dot over another word: left out by the kernel, and not without it. */
  lemma KeyIgnored()
    ensures Blit([[1]], Area(0, 0, 1, 1), [[5]], 0, 0, Some(5)) != PlaceScaled([[1]], Area(0, 0, 1, 1), [[5]], 1, 0, 0, 1)
  {
    KeyedLanesAgreeExactly([[1]], Area(0, 0, 1, 1), [[5]], 1, 0, 0, 5);
    assert KeyShows([[1]], Area(0, 0, 1, 1), [[5]], 0, 0, 5, 0, 0);
  }

  // ---- any size ----

  /** The source column a target pixel's centre falls in, of `n` over `t`. */
  function Centre(d: int, n: nat, t: nat): int
    requires t >= 1
  {
    (2 * d + 1) * n / (2 * t)
  }

  /** Every target pixel samples the source inside it. */
  lemma CentreInRange(d: int, n: nat, t: nat)
    requires 0 <= d < t && n >= 1
    ensures 0 <= Centre(d, n, t) < n
  {
    MulMono(0, 2 * d + 1, n);
    MulMono(2 * d + 1, 2 * t - 1, n);
    var v := (2 * d + 1) * n;
    Split(2 * t, 1, n);
    Swap(n, 2 * t);
    TexelInRange(v, n, 2 * t);
  }

  /** It is the one whose span, of n over t targets, the target's middle lies in. */
  lemma CentreIs(d: int, n: nat, t: nat)
    requires t >= 1
    ensures Centre(d, n, t) * (2 * t) <= (2 * d + 1) * n < (Centre(d, n, t) + 1) * (2 * t)
  {
    FloorBounds((2 * d + 1) * n, 2 * t);
    Distribute(Centre(d, n, t), 2 * t);
  }

  lemma Swap(a: int, b: int)
    ensures a * b == b * a
  {
  }

  /** At a whole scale it is the pixel the whole-scale placing takes. */
  lemma CentreIsTexel(d: int, n: nat, k: nat)
    requires k >= 1 && n >= 1 && 0 <= d < n * k
    ensures k * n >= 1 && Centre(d, n, k * n) == d / k
  {
    var q := d / k;
    FloorBounds(d, k);
    ProductPositive(k, n);
    // (2d + 1) n lies between q (2 k n) and (q + 1) (2 k n).
    MulMono(2 * (q * k) + 1, 2 * d + 1, n);
    MulMono(2 * d + 1, 2 * (q * k) + 2 * k - 1, n);
    Regroup(q, k, n);
    FloorIs((2 * d + 1) * n, 2 * (k * n), q);
  }

  lemma ProductPositive(a: nat, b: nat)
    requires a >= 1 && b >= 1
    ensures a * b >= 1
  {
    MulMono(1, a, b);
  }

  lemma Regroup(q: int, k: nat, n: nat)
    ensures (2 * (q * k) + 1) * n == q * (2 * (k * n)) + n
    ensures (2 * (q * k) + 2 * k - 1) * n == q * (2 * (k * n)) + 2 * (k * n) - n
  {
    Distribute3(2 * (q * k), 1, n);
    Distribute3(2 * (q * k) + 2 * k, -1, n);
    Distribute3(2 * (q * k), 2 * k, n);
    assert 2 * (q * k) * n == q * (2 * (k * n));
    assert 2 * k * n == 2 * (k * n);
  }

  lemma Distribute3(a: int, b: int, n: nat)
    ensures (a + b) * n == a * n + b * n
  {
  }

  /** What a pixel holds once the picture is placed tw by th. */
  function SizedPixel(clip: Area, src: Surf, w: nat, x: int, y: int, tw: nat, th: nat, tx: int, ty: int, was: nat): nat
    requires IsPicture(src, w) && w >= 1 && |src| >= 1 && tw >= 1 && th >= 1
  {
    if In(clip, tx, ty) && 0 <= tx - x < tw && 0 <= ty - y < th then
      CentreInRange(tx - x, w, tw);
      CentreInRange(ty - y, |src|, th);
      src[Centre(ty - y, |src|, th)][Centre(tx - x, w, tw)]
    else was
  }

  function PlaceSized(s: Surf, clip: Area, src: Surf, w: nat, x: int, y: int, tw: nat, th: nat): Surf
    requires IsPicture(src, w) && w >= 1 && |src| >= 1 && tw >= 1 && th >= 1
  {
    Paint(s, (tx, ty, was) => SizedPixel(clip, src, w, x, y, tw, th, tx, ty, was))
  }

  /** A pixel of the picture placed at a size: the word, inside the clip and the target, whose spans
      across and down its middle lies in. */
  lemma SizedIs(s: Surf, clip: Area, src: Surf, w: nat, x: int, y: int, tw: nat, th: nat, ty: int, tx: int, v: nat, u: nat)
    requires IsPicture(src, w) && w >= 1 && |src| >= 1 && tw >= 1 && th >= 1 && 0 <= ty < |s| && 0 <= tx < |s[ty]|
    requires v < |src| && u < w
    requires u * (2 * tw) <= (2 * (tx - x) + 1) * w < u * (2 * tw) + 2 * tw
    requires v * (2 * th) <= (2 * (ty - y) + 1) * |src| < v * (2 * th) + 2 * th
    ensures var r := PlaceSized(s, clip, src, w, x, y, tw, th);
            && |r| == |s| && |r[ty]| == |s[ty]|
            && r[ty][tx] == if clip.x0 <= tx < clip.x1 && clip.y0 <= ty < clip.y1 && 0 <= tx - x < tw && 0 <= ty - y < th
                            then src[v][u] else s[ty][tx]
  {
    FloorIs((2 * (tx - x) + 1) * w, 2 * tw, u);
    FloorIs((2 * (ty - y) + 1) * |src|, 2 * th, v);
  }

  /** The two ways of placing a picture agree wherever both apply. */
  lemma SizesAgree(s: Surf, clip: Area, src: Surf, w: nat, x: int, y: int, k: nat)
    requires IsPicture(src, w) && w >= 1 && |src| >= 1 && k >= 1
    ensures k * w >= 1 && k * |src| >= 1
    ensures PlaceSized(s, clip, src, w, x, y, k * w, k * |src|) == PlaceScaled(s, clip, src, w, x, y, k)
  {
    ProductPositive(k, w);
    ProductPositive(k, |src|);
    Swap(k, w);
    Swap(k, |src|);
    var a, b := PlaceSized(s, clip, src, w, x, y, k * w, k * |src|), PlaceScaled(s, clip, src, w, x, y, k);
    forall ty, tx | 0 <= ty < |a| && 0 <= tx < |a[ty]| ensures a[ty][tx] == b[ty][tx] {
      if 0 <= tx - x < w * k && 0 <= ty - y < |src| * k {
        CentreIsTexel(tx - x, w, k);
        CentreIsTexel(ty - y, |src|, k);
      }
    }
    SameSurf(a, b);
  }

  /** `_blit565_resize_py`: a target row at a time. */
  method ResizePlain(s: Surf, stride: nat, bh: nat, clip: Area, src: Surf, w: nat, x: int, y: int, tw: nat, th: nat)
    returns (r: Surf)
    requires Sized(s, stride, bh) && ClipIn(clip, stride, bh) && IsPicture(src, w)
    requires w >= 1 && |src| >= 1 && tw >= 1 && th >= 1
    ensures r == PlaceSized(s, clip, src, w, x, y, tw, th)
  {
    hide SizedTo, PlaceSized, SizedPixel, Sized, Centre;
    r := s;
    var x0 := if x > clip.x0 then x else clip.x0;
    var x1 := if x + tw < clip.x1 then x + tw else clip.x1;
    var y0 := if y > clip.y0 then y else clip.y0;
    var y1 := if y + th < clip.y1 then y + th else clip.y1;
    SizedStarts(s, stride, bh, clip, src, w, x, y, tw, th);
    if x1 <= x0 {
      return;
    }
    var cols := Columns(x0, x1, x, w, tw);
    var ty := y0;
    while ty < y1
      invariant ty >= y0 && (y0 < y1 ==> ty <= y1) && SizedTo(r, s, stride, bh, clip, src, w, x, y, tw, th, ty)
    {
      SizedRow(r, s, stride, bh, clip, src, w, x, y, tw, th, ty, cols);
      var row := Sampled(src[Centre(ty - y, |src|, th)], cols);
      r := r[ty := r[ty][..x0] + row + r[ty][x1..]];
      ty := ty + 1;
    }
    SizedEnds(r, s, stride, bh, clip, src, w, x, y, tw, th, ty);
  }

  lemma SizedStarts(s: Surf, stride: nat, bh: nat, clip: Area, src: Surf, w: nat, x: int, y: int, tw: nat, th: nat)
    requires Sized(s, stride, bh) && IsPicture(src, w) && w >= 1 && |src| >= 1 && tw >= 1 && th >= 1
    ensures SizedTo(s, s, stride, bh, clip, src, w, x, y, tw, th, if y > clip.y0 then y else clip.y0)
    ensures (if x + tw < clip.x1 then x + tw else clip.x1) <= (if x > clip.x0 then x else clip.x0) ==>
              s == PlaceSized(s, clip, src, w, x, y, tw, th)
  {
    hide Centre;
    if (if x + tw < clip.x1 then x + tw else clip.x1) <= (if x > clip.x0 then x else clip.x0) {
      SameSurf(s, PlaceSized(s, clip, src, w, x, y, tw, th));
    }
  }

  lemma SizedEnds(r: Surf, s: Surf, stride: nat, bh: nat, clip: Area, src: Surf, w: nat, x: int, y: int,
                  tw: nat, th: nat, n: int)
    requires IsPicture(src, w) && w >= 1 && |src| >= 1 && tw >= 1 && th >= 1
    requires SizedTo(r, s, stride, bh, clip, src, w, x, y, tw, th, n)
    requires n >= if y + th < clip.y1 then y + th else clip.y1
    ensures r == PlaceSized(s, clip, src, w, x, y, tw, th)
  {
    hide Centre;
    SameSurf(r, PlaceSized(s, clip, src, w, x, y, tw, th));
  }

  function ColumnsOf(x0: int, x1: int, x: int, w: nat, tw: nat): (r: seq<int>)
    requires x0 <= x1 && tw >= 1
    ensures |r| == x1 - x0 && forall k :: 0 <= k < x1 - x0 ==> r[k] == Centre(x0 + k - x, w, tw)
  {
    seq(x1 - x0, k requires 0 <= k < x1 - x0 => Centre(x0 + k - x, w, tw))
  }

  method Columns(x0: int, x1: int, x: int, w: nat, tw: nat) returns (cols: seq<int>)
    requires x0 <= x1 && tw >= 1
    ensures cols == ColumnsOf(x0, x1, x, w, tw)
  {
    cols := [];
    var tx := x0;
    while tx < x1
      invariant x0 <= tx <= x1 && cols == ColumnsOf(x0, x1, x, w, tw)[..tx - x0]
    {
      cols := cols + [(2 * (tx - x) + 1) * w / (2 * tw)];
      tx := tx + 1;
    }
  }

  /** The pixels of a source row at some columns. */
  function Sampled(row: seq<nat>, cols: seq<int>): (r: seq<nat>)
    requires forall k :: 0 <= k < |cols| ==> 0 <= cols[k] < |row|
    ensures |r| == |cols| && forall k :: 0 <= k < |cols| ==> r[k] == row[cols[k]]
  {
    seq(|cols|, k requires 0 <= k < |cols| => row[cols[k]])
  }

  /** The target rows before `n` placed. */
  ghost predicate SizedTo(r: Surf, s: Surf, stride: nat, bh: nat, clip: Area, src: Surf, w: nat, x: int, y: int,
                          tw: nat, th: nat, n: int)
    requires IsPicture(src, w) && w >= 1 && |src| >= 1 && tw >= 1 && th >= 1
  {
    && Sized(r, stride, bh) && Sized(s, stride, bh)
    && forall ty, tx :: 0 <= ty < bh && 0 <= tx < stride ==>
         r[ty][tx] == if ty < n then SizedPixel(clip, src, w, x, y, tw, th, tx, ty, s[ty][tx]) else s[ty][tx]
  }

  lemma SizedRow(r: Surf, s: Surf, stride: nat, bh: nat, clip: Area, src: Surf, w: nat, x: int, y: int,
                 tw: nat, th: nat, ty: int, cols: seq<int>)
    requires IsPicture(src, w) && w >= 1 && |src| >= 1 && tw >= 1 && th >= 1 && ClipIn(clip, stride, bh)
    requires SizedTo(r, s, stride, bh, clip, src, w, x, y, tw, th, ty)
    requires clip.y0 <= ty < clip.y1 && 0 <= ty - y < th
    requires var x0 := if x > clip.x0 then x else clip.x0;
             var x1 := if x + tw < clip.x1 then x + tw else clip.x1;
             x0 < x1 && cols == ColumnsOf(x0, x1, x, w, tw)
    ensures var x0 := if x > clip.x0 then x else clip.x0;
            var x1 := if x + tw < clip.x1 then x + tw else clip.x1;
            && 0 <= Centre(ty - y, |src|, th) < |src| && ty < |r| && |r[ty]| == stride
            && (forall k :: 0 <= k < |cols| ==> 0 <= cols[k] < w)
            && var row := Sampled(src[Centre(ty - y, |src|, th)], cols);
               SizedTo(r[ty := r[ty][..x0] + row + r[ty][x1..]], s, stride, bh, clip, src, w, x, y, tw, th, ty + 1)
  {
    CentreInRange(ty - y, |src|, th);
    forall k | 0 <= k < |cols| ensures 0 <= cols[k] < w {
      CentreInRange((if x > clip.x0 then x else clip.x0) + k - x, w, tw);
    }
    hide Centre;
  }
}
