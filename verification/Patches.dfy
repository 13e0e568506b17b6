/** The P4 boards' half of the frame hand-off: the cart's frame scaled onto the glass where
    it lies, the console's rects scaled over it (device/p4_canvas.py:430-594), and what the
    caller does when that is refused (runtime/shell/console.py:2939-2953). Which pixel of the
    picture a pixel of the glass shows decides everything here. */
module Patches {
  import opened Options
  import opened Surface
  import opened Blits
  import opened Present

  // ---- the accelerator ----

  predicate Holds(src: Surf, sw: nat, b: Rect) {
    IsPicture(src, sw) && 0 <= b.x && 0 <= b.y && 0 <= b.w && 0 <= b.h && b.x + b.w <= sw && b.y + b.h <= |src|
  }

  /** What a pixel of the glass holds once a block of `src` is scaled to (dx, dy). */
  function ScaledWord(src: Surf, sw: nat, b: Rect, scale: nat, dx: int, dy: int, tx: int, ty: int, was: nat): nat
    requires Holds(src, sw, b) && scale >= 1
  {
    if 0 <= tx - dx < b.w * scale && 0 <= ty - dy < b.h * scale
    then src[b.y + Texel(ty - dy, b.h, scale)][b.x + Texel(tx - dx, b.w, scale)] else was
  }

  /** `blit_scale`: a block of `src` scaled onto the glass, its corner at (dx, dy). */
  function Scaled(glass: Surf, src: Surf, sw: nat, b: Rect, scale: nat, dx: int, dy: int): Surf
    requires Holds(src, sw, b) && scale >= 1
  {
    Paint(glass, (tx, ty, was) => ScaledWord(src, sw, b, scale, dx, dy, tx, ty, was))
  }

  /** A pixel of the glass: the block's word its offset over the scale names, where that is in the
      block. */
  lemma ScaledIs(glass: Surf, src: Surf, sw: nat, b: Rect, scale: nat, dx: int, dy: int, ty: int, tx: int)
    requires Holds(src, sw, b) && scale >= 1 && 0 <= ty < |glass| && 0 <= tx < |glass[ty]|
    ensures var r := Scaled(glass, src, sw, b, scale, dx, dy);
            && |r| == |glass| && |r[ty]| == |glass[ty]|
            && var u, v := (tx - dx) / scale, (ty - dy) / scale;
               r[ty][tx] == if 0 <= u < b.w && 0 <= v < b.h then src[b.y + v][b.x + u] else glass[ty][tx]
  {
    FloorInside(tx - dx, b.w, scale);
    FloorInside(ty - dy, b.h, scale);
  }

  // ---- where a view's pixels land ----

  /** A view of the cart's picture, and where and how large it is shown. */
  datatype Shown = Shown(v: Rect, ox: int, oy: int, scale: nat)

  predicate OnGlass(s: Shown, tx: int, ty: int) {
    0 <= tx - s.ox < s.v.w * s.scale && 0 <= ty - s.oy < s.v.h * s.scale
  }

  function Column(s: Shown, tx: int): int
    requires s.scale >= 1
  {
    s.v.x + (tx - s.ox) / s.scale
  }

  function Row(s: Shown, ty: int): int
    requires s.scale >= 1
  {
    s.v.y + (ty - s.oy) / s.scale
  }

  /** Along one side: a glass pixel falls in a block of the view exactly when the picture's
      pixel it shows is in the block, and then on that very pixel. */
  lemma SideOf(t: int, o: int, s: int, n: nat, scale: nat, b0: int, b1: int)
    requires scale >= 1 && s <= b0 <= b1 <= s + n
    ensures var d := t - (o + (b0 - s) * scale);
            && (0 <= d < (b1 - b0) * scale <==> 0 <= t - o < n * scale && b0 <= s + (t - o) / scale < b1)
            && (0 <= d < (b1 - b0) * scale ==> b0 + d / scale == s + (t - o) / scale)
  {
    var d := t - (o + (b0 - s) * scale);
    var q, p := d / scale, (t - o) / scale;
    FloorBounds(d, scale);
    FloorBounds(t - o, scale);
    Split(b1 - s, b0 - s, scale);
    Split(q + (b0 - s), b0 - s, scale);
    FloorIs(t - o, scale, q + (b0 - s));
    MulMono(0, b0 - s, scale);
    MulMono(b1 - s, n, scale);
    Within(d, b1 - b0, scale);
    Within(t - o, n, scale);
  }

  lemma Within(d: int, n: nat, scale: nat)
    requires scale >= 1
    ensures 0 <= d < n * scale <==> 0 <= d / scale < n
  {
    var q := d / scale;
    FloorBounds(d, scale);
    if q < 0 {
      MulMono(q + 1, 0, scale);
      Distribute(q, scale);
    } else if q < n {
      MulMono(0, q, scale);
      MulMono(q + 1, n, scale);
      Distribute(q, scale);
    } else {
      MulMono(n, q, scale);
    }
  }

  // ---- what is recorded ----

  /** A rect's part of the view. */
  function PartIn(r: Rect, v: Rect): Rect {
    var a := Clip(r, Area(v.x, v.y, v.x + v.w, v.y + v.h));
    Rect(a.x0, a.y0, a.x1 - a.x0, a.y1 - a.y0)
  }

  /** The parts in view, those with none left out. */
  function Blocks(rs: seq<Rect>, v: Rect): (bs: seq<Rect>)
    ensures |bs| <= |rs|
    ensures forall k :: 0 <= k < |bs| ==> bs[k].w >= 1 && bs[k].h >= 1
  {
    if rs == [] then [] else
      var bs, c := Blocks(rs[..|rs| - 1], v), PartIn(rs[|rs| - 1], v);
      if c.w <= 0 || c.h <= 0 then bs else bs + [c]
  }

  predicate InView(bs: seq<Rect>, v: Rect) {
    forall k :: 0 <= k < |bs| ==> v.x <= bs[k].x && v.y <= bs[k].y && bs[k].w >= 1 && bs[k].h >= 1
                                  && bs[k].x + bs[k].w <= v.x + v.w && bs[k].y + bs[k].h <= v.y + v.h
  }

  lemma {:induction false} BlocksInView(rs: seq<Rect>, v: Rect)
    ensures InView(Blocks(rs, v), v)
  {
    if rs != [] {
      BlocksInView(rs[..|rs| - 1], v);
    }
  }

  /** Within the view, the blocks cover what the rects do. */
  lemma {:induction false} BlocksCover(rs: seq<Rect>, v: Rect, x: int, y: int)
    requires Inside(v, x, y)
    ensures Covered(Blocks(rs, v), x, y) <==> Covered(rs, x, y)
  {
    if rs != [] {
      var n := |rs| - 1;
      BlocksCover(rs[..n], v, x, y);
      CoveredAdds(rs[..n], rs[n], x, y);
      CoveredAdds(Blocks(rs[..n], v), PartIn(rs[n], v), x, y);
      assert rs == rs[..n] + [rs[n]];
    }
  }

  lemma CoveredAdds(bs: seq<Rect>, b: Rect, x: int, y: int)
    ensures Covered(bs + [b], x, y) <==> Covered(bs, x, y) || Inside(b, x, y)
  {
    var all := bs + [b];
    assert all[..|bs| + 1] == all && all[..|bs|] == bs;
    CoveredMore(all, |bs|, x, y);
  }

  function TotalRows(bs: seq<Rect>): int {
    if bs == [] then 0 else TotalRows(bs[..|bs| - 1]) + bs[|bs| - 1].h
  }

  /** The block of the source picture a patch takes, and where it lands. */
  datatype Patch = Patch(block: Rect, dx: int, dy: int)

  /** Block by block: packed down the patch picture with `copy`, the canvas's own without. */
  function PatchesOf(bs: seq<Rect>, copy: bool, s: Shown): (ps: seq<Patch>)
    ensures |ps| == |bs|
  {
    if bs == [] then [] else
      var n := |bs| - 1;
      PatchesOf(bs[..n], copy, s) + [PatchOf(bs[n], if copy then TotalRows(bs[..n]) else bs[n].y, s)]
  }

  function PatchOf(b: Rect, row: int, s: Shown): Patch {
    Patch(Rect(b.x, row, b.w, b.h), s.ox + (b.x - s.v.x) * s.scale, s.oy + (b.y - s.v.y) * s.scale)
  }

  lemma {:induction false} PatchIs(bs: seq<Rect>, copy: bool, s: Shown, k: nat)
    requires k < |bs|
    ensures PatchesOf(bs, copy, s)[k] == PatchOf(bs[k], if copy then TotalRows(bs[..k]) else bs[k].y, s)
  {
    var n := |bs| - 1;
    if k < n {
      PatchIs(bs[..n], copy, s, k);
      assert bs[..n][..k] == bs[..k];
    }
  }

  lemma {:induction false} RowsMount(bs: seq<Rect>, i: nat, v: Rect)
    requires InView(bs, v) && i <= |bs|
    ensures 0 <= TotalRows(bs[..i]) <= TotalRows(bs)
  {
    assert bs[..|bs|] == bs;
    if |bs| > 0 {
      var n := |bs| - 1;
      assert forall k :: 0 <= k < n ==> bs[..n][k] == bs[k];
      assert InView(bs[..n], v);
      if i <= n {
        RowsMount(bs[..n], i, v);
        assert bs[..n][..i] == bs[..i];
      } else {
        RowsMount(bs[..n], 0, v);
      }
    }
  }

  lemma RowsNat(bs: seq<Rect>, v: Rect)
    requires InView(bs, v)
    ensures TotalRows(bs) >= 0
  {
    RowsMount(bs, 0, v);
    assert bs[..0] == [];
  }

  /** Packed patches keep apart: each ends before the next begins, and the last within the
      rows they take together. */
  lemma {:induction false} PackedApart(bs: seq<Rect>, s: Shown, i: nat, j: nat)
    requires InView(bs, s.v) && i < j <= |bs|
    ensures var ps := PatchesOf(bs, true, s);
            0 <= ps[i].block.y && ps[i].block.y + ps[i].block.h <= if j < |bs| then ps[j].block.y else TotalRows(bs)
  {
    PatchIs(bs, true, s, i);
    if j < |bs| {
      PatchIs(bs, true, s, j);
    }
    MountsPast(bs, i, j, s.v);
    assert bs[..|bs|] == bs;
    hide *;
  }

  lemma MountsPast(bs: seq<Rect>, i: nat, j: nat, v: Rect)
    requires InView(bs, v) && i < j <= |bs|
    ensures 0 <= TotalRows(bs[..i]) && TotalRows(bs[..i]) + bs[i].h <= TotalRows(bs[..j]) <= TotalRows(bs)
  {
    RowsMount(bs, i, v);
    RowsMount(bs, j, v);
    assert bs[..j][..i + 1] == bs[..i + 1];
    Shorter(bs, j, v);
    RowsMount(bs[..j], i + 1, v);
    var c := bs[..i + 1];
    assert c[..i] == bs[..i] && c[i] == bs[i];
    hide InView;
  }

  lemma Shorter(bs: seq<Rect>, j: nat, v: Rect)
    requires InView(bs, v) && j <= |bs|
    ensures InView(bs[..j], v)
  {
  }

  // ---- what the patches' source holds ----

  /** A patch's block of `src` is the canvas's pixels under its rect. */
  predicate Same(src: Surf, sw: nat, canvas: Surf, w: nat, p: Patch, b: Rect, s: Shown) {
    && Holds(src, sw, p.block) && Holds(canvas, w, b) && p == PatchOf(b, p.block.y, s)
    && forall y, x :: p.block.y <= y < p.block.y + b.h && b.x <= x < b.x + b.w ==>
         src[y][x] == canvas[y - p.block.y + b.y][x]
  }

  predicate AllSame(src: Surf, sw: nat, canvas: Surf, w: nat, ps: seq<Patch>, bs: seq<Rect>, s: Shown) {
    |ps| == |bs| && forall k :: 0 <= k < |ps| ==> Same(src, sw, canvas, w, ps[k], bs[k], s)
  }

  // ---- the glass after some patches ----

  /** The word a pixel of the glass should show: the canvas's where a block covers it, the
      frame's elsewhere in the view, and outside what was there. */
  ghost predicate ShownTo(glass: Surf, g0: Surf, canvas: Surf, frame: Surf, w: nat, h: nat, bs: seq<Rect>, s: Shown)
    requires Sized(canvas, w, h) && Sized(frame, w, h) && Holds(canvas, w, s.v) && s.scale >= 1
  {
    && |glass| == |g0| && (forall y :: 0 <= y < |g0| ==> |glass[y]| == |g0[y]|)
    && forall ty, tx :: 0 <= ty < |g0| && 0 <= tx < |g0[ty]| ==>
         glass[ty][tx] == WordShown(canvas, frame, w, h, bs, s, tx, ty, g0[ty][tx])
  }

  ghost function WordShown(canvas: Surf, frame: Surf, w: nat, h: nat, bs: seq<Rect>, s: Shown, tx: int, ty: int, was: nat): nat
    requires Sized(canvas, w, h) && Sized(frame, w, h) && Holds(canvas, w, s.v) && s.scale >= 1
  {
    if !OnGlass(s, tx, ty) then was else
      InRange(s, tx, ty);
      if Covered(bs, Column(s, tx), Row(s, ty)) then canvas[Row(s, ty)][Column(s, tx)]
      else frame[Row(s, ty)][Column(s, tx)]
  }

  lemma InRange(s: Shown, tx: int, ty: int)
    requires s.scale >= 1 && OnGlass(s, tx, ty) && s.v.w >= 0 && s.v.h >= 0
    ensures Inside(s.v, Column(s, tx), Row(s, ty))
  {
    Within(tx - s.ox, s.v.w, s.scale);
    Within(ty - s.oy, s.v.h, s.scale);
  }

  /** The frame's view alone. */
  lemma ViewShown(g0: Surf, canvas: Surf, frame: Surf, w: nat, h: nat, s: Shown)
    requires Sized(canvas, w, h) && Sized(frame, w, h) && Holds(canvas, w, s.v) && s.scale >= 1
    ensures Holds(frame, w, s.v)
    ensures ShownTo(Scaled(g0, frame, w, s.v, s.scale, s.ox, s.oy), g0, canvas, frame, w, h, [], s)
  {
    var r := Scaled(g0, frame, w, s.v, s.scale, s.ox, s.oy);
    forall ty, tx | 0 <= ty < |g0| && 0 <= tx < |g0[ty]|
      ensures r[ty][tx] == WordShown(canvas, frame, w, h, [], s, tx, ty, g0[ty][tx])
    {
    }
  }

  /** One more patch over it, whatever lies under it. */
  lemma PatchShown(glass: Surf, g0: Surf, canvas: Surf, frame: Surf, w: nat, h: nat, bs: seq<Rect>, s: Shown,
                   src: Surf, sw: nat, p: Patch, b: Rect)
    requires Sized(canvas, w, h) && Sized(frame, w, h) && Holds(canvas, w, s.v) && s.scale >= 1
    requires ShownTo(glass, g0, canvas, frame, w, h, bs, s) && Same(src, sw, canvas, w, p, b, s) && InView([b], s.v)
    ensures ShownTo(Scaled(glass, src, sw, p.block, s.scale, p.dx, p.dy), g0, canvas, frame, w, h, bs + [b], s)
  {
    var r := Scaled(glass, src, sw, p.block, s.scale, p.dx, p.dy);
    assert [b][0] == b;
    forall ty, tx | 0 <= ty < |g0| && 0 <= tx < |g0[ty]|
      ensures r[ty][tx] == WordShown(canvas, frame, w, h, bs + [b], s, tx, ty, g0[ty][tx])
    {
      PatchWord(canvas, frame, w, h, bs, s, src, sw, p, b, tx, ty, g0[ty][tx]);
    }
  }

  lemma PatchWord(canvas: Surf, frame: Surf, w: nat, h: nat, bs: seq<Rect>, s: Shown, src: Surf, sw: nat, p: Patch, b: Rect,
                  tx: int, ty: int, was: nat)
    requires Sized(canvas, w, h) && Sized(frame, w, h) && Holds(canvas, w, s.v) && s.scale >= 1
    requires Same(src, sw, canvas, w, p, b, s) && s.v.x <= b.x && s.v.y <= b.y && b.w >= 1 && b.h >= 1
    requires b.x + b.w <= s.v.x + s.v.w && b.y + b.h <= s.v.y + s.v.h
    ensures ScaledWord(src, sw, p.block, s.scale, p.dx, p.dy, tx, ty, WordShown(canvas, frame, w, h, bs, s, tx, ty, was))
            == WordShown(canvas, frame, w, h, bs + [b], s, tx, ty, was)
  {
    SideOf(tx, s.ox, s.v.x, s.v.w, s.scale, b.x, b.x + b.w);
    SideOf(ty, s.oy, s.v.y, s.v.h, s.scale, b.y, b.y + b.h);
    CoveredAdds(bs, b, Column(s, tx), Row(s, ty));
    hide Covered, Holds;
    if OnGlass(s, tx, ty) && Inside(b, Column(s, tx), Row(s, ty)) {
      var y := Row(s, ty) - b.y + p.block.y;
      assert src[y][Column(s, tx)] == canvas[y - p.block.y + b.y][Column(s, tx)];
    }
  }

  /** Every patch laid over the view, the glass shows the settled picture. */
  lemma AllShown(glass: Surf, g0: Surf, canvas: Surf, frame: Surf, w: nat, h: nat, rs: seq<Rect>, s: Shown)
    requires Sized(canvas, w, h) && Sized(frame, w, h) && Holds(canvas, w, s.v) && s.scale >= 1
    requires ShownTo(glass, g0, canvas, frame, w, h, Blocks(rs, s.v), s)
    ensures Holds(Settled(canvas, frame, rs, w, h), w, s.v)
    ensures glass == Scaled(g0, Settled(canvas, frame, rs, w, h), w, s.v, s.scale, s.ox, s.oy)
  {
    var t := Settled(canvas, frame, rs, w, h);
    var r := Scaled(g0, t, w, s.v, s.scale, s.ox, s.oy);
    forall ty, tx | 0 <= ty < |g0| && 0 <= tx < |g0[ty]|
      ensures WordShown(canvas, frame, w, h, Blocks(rs, s.v), s, tx, ty, g0[ty][tx])
              == ScaledWord(t, w, s.v, s.scale, s.ox, s.oy, tx, ty, g0[ty][tx])
    {
      WordSettled(canvas, frame, w, h, rs, s, tx, ty, g0[ty][tx]);
    }
    hide WordShown, ScaledWord, Settled, Holds, Sized, Covered, Blocks;
    SameSurf(glass, r);
  }

  lemma WordSettled(canvas: Surf, frame: Surf, w: nat, h: nat, rs: seq<Rect>, s: Shown, tx: int, ty: int, was: nat)
    requires Sized(canvas, w, h) && Sized(frame, w, h) && Holds(canvas, w, s.v) && s.scale >= 1
    ensures Holds(Settled(canvas, frame, rs, w, h), w, s.v)
    ensures WordShown(canvas, frame, w, h, Blocks(rs, s.v), s, tx, ty, was)
            == ScaledWord(Settled(canvas, frame, rs, w, h), w, s.v, s.scale, s.ox, s.oy, tx, ty, was)
  {
    hide Blocks, Covered;
    if OnGlass(s, tx, ty) {
      InRange(s, tx, ty);
      BlocksCover(rs, s.v, Column(s, tx), Row(s, ty));
    }
  }

  // ---- recorded in place ----

  /** The patches of a flat list, six numbers each. */
  function Six(a: seq<int>, n: nat): (ps: seq<Patch>)
    requires 6 * n <= |a|
    ensures |ps| == n
  {
    seq(n, k requires 0 <= k < n => SixAt(a, k))
  }

  function SixAt(a: seq<int>, k: nat): Patch
    requires 6 * k + 6 <= |a|
  {
    Patch(Rect(a[6 * k], a[6 * k + 1], a[6 * k + 2], a[6 * k + 3]), a[6 * k + 4], a[6 * k + 5])
  }

  lemma OneMoreSix(a: seq<int>, b: seq<int>, n: nat)
    requires |a| == |b| && 6 * n + 6 <= |a| && a[..6 * n] == b[..6 * n]
    ensures Six(b, n + 1) == Six(a, n) + [SixAt(b, n)]
  {
    forall k | 0 <= k < n ensures SixAt(a, k) == SixAt(b, k) {
      var s, t := a[..6 * n], b[..6 * n];
      assert s[6 * k] == t[6 * k] && s[6 * k + 1] == t[6 * k + 1] && s[6 * k + 2] == t[6 * k + 2]
             && s[6 * k + 3] == t[6 * k + 3] && s[6 * k + 4] == t[6 * k + 4] && s[6 * k + 5] == t[6 * k + 5];
    }
  }

  /** What the patches are scaled from: the patch picture, or the canvas itself. */
  function From(pic: Surf, canvas: Surf, copy: bool): Surf {
    if copy then pic else canvas
  }

  /** The blocks so far recorded, and where their pixels are. */
  ghost predicate Recorded(a: seq<int>, n: nat, pic: Surf, canvas: Surf, w: nat, bs: seq<Rect>, copy: bool, s: Shown) {
    && |bs| == n && 6 * n <= |a| && Six(a, n) == PatchesOf(bs, copy, s) && InView(bs, s.v)
    && AllSame(From(pic, canvas, copy), w, canvas, w, PatchesOf(bs, copy, s), bs, s)
  }

  /** Copying a block in below the rest keeps the rest. */
  lemma CopiedBelow(pic: Surf, canvas: Surf, w: nat, h: nat, bs: seq<Rect>, b: Rect, s: Shown)
    requires Sized(pic, w, PATCH_ROWS) && Sized(canvas, w, h) && Holds(canvas, w, b)
    requires InView(bs, s.v) && InView([b], s.v) && TotalRows(bs) + b.h <= PATCH_ROWS
    requires AllSame(pic, w, canvas, w, PatchesOf(bs, true, s), bs, s)
    ensures var row := TotalRows(bs);
            var into := Blit(pic, Area(b.x, row, b.x + b.w, row + b.h), canvas, 0, row - b.y, None);
            AllSame(into, w, canvas, w, PatchesOf(bs + [b], true, s), bs + [b], s)
  {
    hide *;
    RowsNat(bs, s.v);
    var row := TotalRows(bs);
    var into := Blit(pic, Area(b.x, row, b.x + b.w, row + b.h), canvas, 0, row - b.y, None);
    CopiedIn(pic, canvas, w, h, b, s, row);
    RowsAbove(pic, canvas, w, b, row);
    AllKeptAbove(pic, into, canvas, w, bs, s);
    PatchesMore(bs, b, true, s);
    OneMoreSame(into, w, canvas, w, PatchesOf(bs, true, s), bs, PatchOf(b, row, s), b, s);
  }

  lemma PatchesMore(bs: seq<Rect>, b: Rect, copy: bool, s: Shown)
    ensures PatchesOf(bs + [b], copy, s) == PatchesOf(bs, copy, s) + [PatchOf(b, if copy then TotalRows(bs) else b.y, s)]
    ensures TotalRows(bs + [b]) == TotalRows(bs) + b.h
  {
    var all := bs + [b];
    assert all[..|bs|] == bs && all[|bs|] == b;
  }

  lemma OneMoreSame(src: Surf, sw: nat, canvas: Surf, w: nat, ps: seq<Patch>, bs: seq<Rect>, p: Patch, b: Rect, s: Shown)
    requires AllSame(src, sw, canvas, w, ps, bs, s) && Same(src, sw, canvas, w, p, b, s)
    ensures AllSame(src, sw, canvas, w, ps + [p], bs + [b], s)
  {
    hide Same;
  }

  lemma RowsAbove(pic: Surf, canvas: Surf, w: nat, b: Rect, row: nat)
    requires Sized(pic, w, PATCH_ROWS)
    ensures var into := Blit(pic, Area(b.x, row, b.x + b.w, row + b.h), canvas, 0, row - b.y, None);
            && Sized(into, w, PATCH_ROWS)
            && forall y, x :: 0 <= y < PATCH_ROWS && 0 <= x < w && y < row ==> into[y][x] == pic[y][x]
  {
  }

  lemma AllKeptAbove(pic: Surf, into: Surf, canvas: Surf, w: nat, bs: seq<Rect>, s: Shown)
    requires Sized(pic, w, PATCH_ROWS) && Sized(into, w, PATCH_ROWS) && InView(bs, s.v)
    requires AllSame(pic, w, canvas, w, PatchesOf(bs, true, s), bs, s)
    requires TotalRows(bs) >= 0
    requires forall y, x :: 0 <= y < PATCH_ROWS && 0 <= x < w && y < TotalRows(bs) ==> into[y][x] == pic[y][x]
    ensures AllSame(into, w, canvas, w, PatchesOf(bs, true, s), bs, s)
  {
    var ps := PatchesOf(bs, true, s);
    hide PatchesOf, Same, InView, TotalRows;
    forall k | 0 <= k < |ps| ensures Same(into, w, canvas, w, ps[k], bs[k], s) {
      PackedApart(bs, s, k, |bs|);
      KeptAbove(pic, into, canvas, w, ps[k], bs[k], s, TotalRows(bs));
    }
  }

  lemma KeptAbove(pic: Surf, into: Surf, canvas: Surf, w: nat, p: Patch, b: Rect, s: Shown, row: nat)
    requires Same(pic, w, canvas, w, p, b, s) && p.block.y + p.block.h <= row
    requires |into| == |pic| && forall y :: 0 <= y < |pic| ==> |into[y]| == |pic[y]|
    requires forall y, x :: 0 <= y < |pic| && 0 <= x < |pic[y]| && y < row ==> into[y][x] == pic[y][x]
    ensures Same(into, w, canvas, w, p, b, s)
  {
  }

  lemma CopiedIn(pic: Surf, canvas: Surf, w: nat, h: nat, b: Rect, s: Shown, row: nat)
    requires Sized(pic, w, PATCH_ROWS) && Sized(canvas, w, h) && Holds(canvas, w, b) && row + b.h <= PATCH_ROWS
    ensures Same(Blit(pic, Area(b.x, row, b.x + b.w, row + b.h), canvas, 0, row - b.y, None), w, canvas, w,
                 PatchOf(b, row, s), b, s)
  {
  }

  /** The canvas's own blocks are its own pixels. */
  lemma OwnBlocks(canvas: Surf, w: nat, h: nat, bs: seq<Rect>, b: Rect, s: Shown)
    requires Sized(canvas, w, h) && Holds(canvas, w, b)
    requires AllSame(canvas, w, canvas, w, PatchesOf(bs, false, s), bs, s)
    ensures AllSame(canvas, w, canvas, w, PatchesOf(bs + [b], false, s), bs + [b], s)
  {
    PatchesMore(bs, b, false, s);
    OneMoreSame(canvas, w, canvas, w, PatchesOf(bs, false, s), bs, PatchOf(b, b.y, s), b, s);
    hide PatchesOf, AllSame;
  }

  lemma {:induction false} BlocksGrow(rs: seq<Rect>, i: nat, v: Rect)
    requires i <= |rs|
    ensures |Blocks(rs[..i], v)| <= |Blocks(rs, v)| && Blocks(rs[..i], v) == Blocks(rs, v)[..|Blocks(rs[..i], v)|]
  {
    assert rs[..|rs|] == rs;
    if i < |rs| {
      var n := |rs| - 1;
      BlocksGrow(rs[..n], i, v);
      assert rs[..n][..i] == rs[..i];
    }
  }

  lemma BlocksStep(rs: seq<Rect>, i: nat, v: Rect)
    requires i < |rs|
    ensures var c := PartIn(rs[i], v);
            Blocks(rs[..i + 1], v) == if c.w <= 0 || c.h <= 0 then Blocks(rs[..i], v) else Blocks(rs[..i], v) + [c]
  {
    var t := rs[..i + 1];
    assert t[..i] == rs[..i] && t[i] == rs[i];
  }

  /** Whether the patch picture cannot take the blocks. */
  predicate TooMany(bs: seq<Rect>, copy: bool, gfx: bool) {
    copy && bs != [] && (!gfx || TotalRows(bs) > PATCH_ROWS)
  }

  /** A block that does not fit ends it: more blocks take no fewer rows. */
  lemma TooManyStays(rs: seq<Rect>, i: nat, v: Rect, copy: bool, gfx: bool)
    requires i <= |rs| && TooMany(Blocks(rs[..i], v), copy, gfx)
    ensures TooMany(Blocks(rs, v), copy, gfx)
  {
    BlocksGrow(rs, i, v);
    BlocksInView(rs, v);
    RowsMount(Blocks(rs, v), |Blocks(rs[..i], v)|, v);
  }

  lemma RecordedMore(a: seq<int>, b: seq<int>, n: nat, pic: Surf, canvas: Surf, w: nat, h: nat, bs: seq<Rect>, c: Rect,
                     copy: bool, s: Shown)
    requires Recorded(a, n, pic, canvas, w, bs, copy, s) && |a| == |b| && 6 * n + 6 <= |a| && a[..6 * n] == b[..6 * n]
    requires Sized(pic, w, PATCH_ROWS) && Sized(canvas, w, h) && Holds(canvas, w, c) && InView([c], s.v)
    requires SixAt(b, n) == PatchOf(c, if copy then TotalRows(bs) else c.y, s)
    requires copy ==> TotalRows(bs) + c.h <= PATCH_ROWS
    ensures Recorded(b, n + 1, Copied(pic, canvas, c, TotalRows(bs), copy), canvas, w, bs + [c], copy, s)
  {
    hide *;
    var into := Copied(pic, canvas, c, TotalRows(bs), copy);
    RecordedIs(a, n, pic, canvas, w, bs, copy, s);
    RecordedIs(b, n + 1, into, canvas, w, bs + [c], copy, s);
    OneMoreSix(a, b, n);
    PatchesMore(bs, c, copy, s);
    OneMoreInView(bs, c, s.v);
    CopiedIs(pic, canvas, c, TotalRows(bs), copy);
    if copy {
      CopiedBelow(pic, canvas, w, h, bs, c, s);
    } else {
      OwnBlocks(canvas, w, h, bs, c, s);
    }
  }

  lemma RecordedIs(a: seq<int>, n: nat, pic: Surf, canvas: Surf, w: nat, bs: seq<Rect>, copy: bool, s: Shown)
    ensures Recorded(a, n, pic, canvas, w, bs, copy, s) <==>
            && |bs| == n && 6 * n <= |a| && Six(a, n) == PatchesOf(bs, copy, s) && InView(bs, s.v)
            && AllSame(if copy then pic else canvas, w, canvas, w, PatchesOf(bs, copy, s), bs, s)
  {
    hide Six, PatchesOf, InView, AllSame;
  }

  lemma CopiedIs(pic: Surf, canvas: Surf, c: Rect, row: int, copy: bool)
    ensures Copied(pic, canvas, c, row, copy)
            == if copy then Blit(pic, Area(c.x, row, c.x + c.w, row + c.h), canvas, 0, row - c.y, None) else pic
  {
    hide Blit;
  }

  lemma OneMoreInView(bs: seq<Rect>, c: Rect, v: Rect)
    requires InView(bs, v) && InView([c], v)
    ensures InView(bs + [c], v)
  {
    assert [c][0] == c;
  }

  /** The patch picture with a block of the canvas copied in at `row`. */
  function Copied(pic: Surf, canvas: Surf, c: Rect, row: int, copy: bool): Surf {
    if copy then Blit(pic, Area(c.x, row, c.x + c.w, row + c.h), canvas, 0, row - c.y, None) else pic
  }

  lemma CopiedSized(pic: Surf, canvas: Surf, c: Rect, row: int, copy: bool, w: nat, h: nat)
    requires Sized(pic, w, h)
    ensures Sized(Copied(pic, canvas, c, row, copy), w, h)
  {
  }

  lemma PartInView(r: Rect, v: Rect, canvas: Surf, w: nat)
    requires Holds(canvas, w, v) && PartIn(r, v).w >= 1 && PartIn(r, v).h >= 1
    ensures Holds(canvas, w, PartIn(r, v)) && InView([PartIn(r, v)], v)
  {
  }

  /** Nothing recorded yet. */
  lemma RecordedNone(a: seq<int>, pic: Surf, canvas: Surf, w: nat, copy: bool, s: Shown)
    ensures Recorded(a, 0, pic, canvas, w, [], copy, s)
  {
  }

  // ---- shown, refused, shown all the same ----

  /** Outside the shown view the glass is as it was. */
  predicate OutsideSame(a: Surf, b: Surf, s: Shown) {
    && |a| == |b| && (forall y :: 0 <= y < |b| ==> |a[y]| == |b[y]|)
    && forall ty, tx :: 0 <= ty < |b| && 0 <= tx < |b[ty]| && !OnGlass(s, tx, ty) ==> a[ty][tx] == b[ty][tx]
  }

  lemma ShownOutside(glass: Surf, g0: Surf, canvas: Surf, frame: Surf, w: nat, h: nat, bs: seq<Rect>, s: Shown)
    requires Sized(canvas, w, h) && Sized(frame, w, h) && Holds(canvas, w, s.v) && s.scale >= 1
    requires ShownTo(glass, g0, canvas, frame, w, h, bs, s)
    ensures OutsideSame(glass, g0, s)
  {
  }

  /** A composite over a view half shown leaves no trace of what was there. */
  lemma CompositeCovers(a: Surf, b: Surf, s: Shown, src: Surf, sw: nat)
    requires OutsideSame(a, b, s) && Holds(src, sw, s.v) && s.scale >= 1
    ensures Scaled(a, src, sw, s.v, s.scale, s.ox, s.oy) == Scaled(b, src, sw, s.v, s.scale, s.ox, s.oy)
  {
    SameSurf(Scaled(a, src, sw, s.v, s.scale, s.ox, s.oy), Scaled(b, src, sw, s.v, s.scale, s.ox, s.oy));
  }

  lemma OneBlit(glass: Surf, g0: Surf, canvas: Surf, frame: Surf, w: nat, h: nat, bs: seq<Rect>, s: Shown,
                a: seq<int>, n: nat, pic: Surf, copy: bool, k: nat)
    requires Sized(canvas, w, h) && Sized(frame, w, h) && Holds(canvas, w, s.v) && s.scale >= 1
    requires Recorded(a, n, pic, canvas, w, bs, copy, s) && k < n
    requires ShownTo(glass, g0, canvas, frame, w, h, bs[..k], s)
    ensures var p := SixAt(a, k);
            && Holds(From(pic, canvas, copy), w, p.block)
            && ShownTo(Scaled(glass, From(pic, canvas, copy), w, p.block, s.scale, p.dx, p.dy), g0, canvas, frame, w, h,
                       bs[..k + 1], s)
  {
    var src := From(pic, canvas, copy);
    assert Six(a, n)[k] == SixAt(a, k);
    assert Same(src, w, canvas, w, SixAt(a, k), bs[k], s);
    assert InView([bs[k]], s.v);
    assert bs[..k + 1] == bs[..k] + [bs[k]];
    hide *;
    hide Holds;
    PatchShown(glass, g0, canvas, frame, w, h, bs[..k], s, src, w, SixAt(a, k), bs[k]);
    SameHolds(src, w, canvas, w, SixAt(a, k), bs[k], s);
  }

  lemma SameHolds(src: Surf, sw: nat, canvas: Surf, w: nat, p: Patch, b: Rect, s: Shown)
    requires Same(src, sw, canvas, w, p, b, s)
    ensures Holds(src, sw, p.block)
  {
  }

  /** What the rotated compositor paints from: the frame's copy, and how many patches. */
  datatype Pending = Pending(kept: Surf, shown: Shown, n: nat)

  class PanelCanvas {
    const gw: nat
    const gh: nat
    const patches: array<int>
    /** Whether the copy kernel is there. */
    const gfx: bool
    var buf: Surf
    var pic: Surf
    var fr: Option<Pending>

    constructor (buf: Surf, gw: nat, gh: nat, gfx: bool, pic: Surf)
      requires Sized(pic, gw, PATCH_ROWS)
      ensures Valid() && this.gw == gw && this.gh == gh && this.gfx == gfx && this.buf == buf && fr == None && fresh(patches)
    {
      this.gw, this.gh, this.gfx, this.buf, this.pic, this.fr := gw, gh, gfx, buf, pic, None;
      patches := new int[24](_ => 0);
    }

    predicate Valid()
      reads `pic
    {
      Sized(pic, gw, PATCH_ROWS) && patches.Length == 24
    }

    /** One rect: its part of the view recorded, or refused where there are no rows for it. */
    method RecordOne(r: Rect, canvas: Surf, s: Shown, copy: bool, row: int, k: nat, ghost bs: seq<Rect>)
      returns (ok: bool, row2: int, k2: nat)
      requires Valid() && k < MAX_PATCHES && Sized(canvas, gw, gh) && Holds(canvas, gw, s.v)
      requires Recorded(patches[..], k, pic, canvas, gw, bs, copy, s) && 6 * k + 6 <= 24
      requires copy ==> row == TotalRows(bs) && !TooMany(bs, copy, gfx)
      modifies `pic, patches
      ensures Valid()
      ensures var c := PartIn(r, s.v);
              var more := if c.w <= 0 || c.h <= 0 then bs else bs + [c];
              && ok == !TooMany(more, copy, gfx)
              && (ok ==> k <= k2 <= k + 1 && Recorded(patches[..], k2, pic, canvas, gw, more, copy, s)
                         && (copy ==> row2 == TotalRows(more)))
    {
      hide Recorded, TooMany, PartIn, Holds, Sized, TotalRows, InView, Blit, Copied, SixAt;
      ok, row2, k2 := true, row, k;
      var c := PartIn(r, s.v);
      TooManyIs(bs, copy, gfx);
      if c.w <= 0 || c.h <= 0 {
        return;
      }
      TooManyIs(bs + [c], copy, gfx);
      PatchesMore(bs, c, copy, s);
      var y := c.y;
      if copy {
        if row + c.h > PATCH_ROWS || !gfx {
          ok := false;
          return;
        }
        y := row;
        row2 := row + c.h;
      }
      PartInView(r, s.v, canvas, gw);
      CopiedIs(pic, canvas, c, TotalRows(bs), copy);
      CopiedSized(pic, canvas, c, TotalRows(bs), copy, gw, PATCH_ROWS);
      ghost var before, was := patches[..], pic;
      if copy {
        pic := Blit(pic, Area(c.x, row, c.x + c.w, row + c.h), canvas, 0, row - c.y, None);
      }
      Write(k, Patch(Rect(c.x, y, c.w, c.h), s.ox + (c.x - s.v.x) * s.scale, s.oy + (c.y - s.v.y) * s.scale));
      k2 := k + 1;
      RecordedMore(before, patches[..], k, was, canvas, gw, gh, bs, c, copy, s);
    }

    /** A patch's six numbers. */
    method Write(k: nat, p: Patch)
      requires 6 * k + 6 <= patches.Length
      modifies patches
      ensures patches[..6 * k] == old(patches[..6 * k]) && SixAt(patches[..], k) == p
    {
      patches[6 * k], patches[6 * k + 1], patches[6 * k + 2] := p.block.x, p.block.y, p.block.w;
      patches[6 * k + 3], patches[6 * k + 4], patches[6 * k + 5] := p.block.h, p.dx, p.dy;
    }

    /** `_patch`: how many, or -1 where the patch picture cannot take them. */
    method RecordPatches(cf: CartFrame, canvas: Surf, s: Shown, copy: bool) returns (k: int)
      requires Valid() && cf.Valid() && cf.rects != patches
      requires Sized(canvas, gw, gh) && Holds(canvas, gw, s.v)
      modifies `pic, patches
      ensures Valid()
      ensures k == -1 <==> TooMany(Blocks(cf.Rects(), s.v), copy, gfx)
      ensures k == -1 <==> copy && Blocks(cf.Rects(), s.v) != [] && (!gfx || TotalRows(Blocks(cf.Rects(), s.v)) > 32)
      ensures k != -1 ==> k >= 0 && Recorded(patches[..], k, pic, canvas, gw, Blocks(cf.Rects(), s.v), copy, s)
    {
      hide Recorded, TooMany, Blocks, PartIn, Holds, Sized, TotalRows;
      ghost var rs := cf.Rects();
      var n := cf.nrects;
      var row, ok := 0, true;
      k := 0;
      RecordedNone(patches[..], pic, canvas, gw, copy, s);
      NoBlocks(rs, s.v, copy, gfx);
      for i := 0 to n
        invariant Valid() && 0 <= k <= i
        invariant Recorded(patches[..], k, pic, canvas, gw, Blocks(rs[..i], s.v), copy, s)
        invariant !TooMany(Blocks(rs[..i], s.v), copy, gfx) && (copy ==> row == TotalRows(Blocks(rs[..i], s.v)))
      {
        BlocksStep(rs, i, s.v);
        var r := Rect(cf.rects[4 * i], cf.rects[4 * i + 1], cf.rects[4 * i + 2], cf.rects[4 * i + 3]);
        ok, row, k := RecordOne(r, canvas, s, copy, row, k, Blocks(rs[..i], s.v));
        if !ok {
          TooManyStays(rs, i + 1, s.v, copy, gfx);
          TooManyIs(Blocks(rs, s.v), copy, gfx);
          return -1;
        }
      }
      assert rs[..n] == rs;
      TooManyIs(Blocks(rs, s.v), copy, gfx);
    }

    /** `_blit_patches`: each patch scaled over the glass from `src`, the picture they were
        recorded in. False when the accelerator refuses one, the `refuse`-th; then only the
        view has changed. */
    method BlitPatches(src: Surf, n: nat, s: Shown, refuse: int, ghost g0: Surf, ghost canvas: Surf, ghost frame: Surf,
                       ghost bs: seq<Rect>, ghost copy: bool)
      returns (ok: bool)
      requires patches.Length == 24 && Sized(canvas, gw, gh) && Sized(frame, gw, gh) && Holds(canvas, gw, s.v) && s.scale >= 1
      requires Recorded(patches[..], n, pic, canvas, gw, bs, copy, s) && src == From(pic, canvas, copy)
      requires ShownTo(buf, g0, canvas, frame, gw, gh, [], s)
      modifies `buf
      ensures ok <==> !(0 <= refuse < n)
      ensures ok ==> ShownTo(buf, g0, canvas, frame, gw, gh, bs, s)
      ensures OutsideSame(buf, g0, s)
    {
      hide Recorded, ShownTo, Holds, Sized, OutsideSame, From, Scaled;
      RecordedLength(patches[..], n, pic, canvas, gw, bs, copy, s);
      assert bs[..0] == [];
      for k := 0 to n
        invariant ShownTo(buf, g0, canvas, frame, gw, gh, bs[..k], s) && !(0 <= refuse < k)
      {
        if k == refuse {
          ShownOutside(buf, g0, canvas, frame, gw, gh, bs[..k], s);
          return false;
        }
        OneBlit(buf, g0, canvas, frame, gw, gh, bs, s, patches[..], n, pic, copy, k);
        var block := Rect(patches[6 * k], patches[6 * k + 1], patches[6 * k + 2], patches[6 * k + 3]);
        buf := Scaled(buf, src, gw, block, s.scale, patches[6 * k + 4], patches[6 * k + 5]);
      }
      assert bs[..n] == bs;
      ShownOutside(buf, g0, canvas, frame, gw, gh, bs, s);
      ok := true;
    }

    predicate Fits(s: Shown)
      reads `buf
    {
      s.ox >= 0 && s.oy >= 0 && s.ox + s.v.w * s.scale <= Width(buf) && s.oy + s.v.h * s.scale <= |buf|
    }

    /** Whether `present_frame` takes the frame. */
    predicate Takes(bs: seq<Rect>, direct: bool, s: Shown, rotated: bool, ppa: bool, scratch: bool, refuse: int)
      reads `buf
    {
      && ppa && direct && scratch && !(rotated && bs != [] && (!gfx || TotalRows(bs) > 32))
      && 0 <= s.ox && s.ox + s.v.w * s.scale <= (if buf == [] then 0 else |buf[0]|)
      && 0 <= s.oy && s.oy + s.v.h * s.scale <= |buf|
      && !(0 <= refuse <= if rotated then 0 else |bs|)
    }

    /** What is left with the rotated compositor paints this picture, whatever becomes of the
        canvas. */
    ghost predicate WillShow(canvas: Surf, frame: Surf, rs: seq<Rect>, s: Shown)
      reads this, patches
    {
      && Sized(canvas, gw, gh) && Sized(frame, gw, gh) && Holds(canvas, gw, s.v) && s.scale >= 1 && patches.Length == 24
      && fr.Some? && fr.value.kept == frame && fr.value.shown == s
      && Recorded(patches[..], fr.value.n, pic, canvas, gw, Blocks(rs, s.v), true, s)
    }

    /** The frame's view and then its patches, straight onto the glass. */
    method BlitDirect(canvas: Surf, frame: Surf, k: nat, s: Shown, refuse: int, ghost rs: seq<Rect>) returns (ok: bool)
      requires patches.Length == 24 && Sized(canvas, gw, gh) && Sized(frame, gw, gh) && Holds(canvas, gw, s.v) && s.scale >= 1
      requires Recorded(patches[..], k, pic, canvas, gw, Blocks(rs, s.v), false, s)
      modifies `buf
      ensures ok <==> !(0 <= refuse <= k)
      ensures ok ==> ShowsSettled(buf, old(buf), canvas, frame, gw, gh, rs, s)
      ensures OutsideSame(buf, old(buf), s)
    {
      hide Recorded, ShownTo, Holds, Sized, OutsideSame, Scaled, Blocks, Settled;
      ghost var g0 := buf;
      NothingShown(buf, s);
      if refuse == 0 {
        return false;
      }
      ViewShown(buf, canvas, frame, gw, gh, s);
      buf := Scaled(buf, frame, gw, s.v, s.scale, s.ox, s.oy);
      ok := BlitPatches(canvas, k, s, refuse - 1, g0, canvas, frame, Blocks(rs, s.v), false);
      if ok {
        AllShown(buf, g0, canvas, frame, gw, gh, rs, s);
      }
    }

    /** `present_frame`: the frame and its patches on the glass, or with the rotated
        compositor, which keeps them even where it then refuses the mark; refused, the caller's
        rects still stand. */
    method PresentFrame(cf: CartFrame, canvas: Picture, frame: Surf, direct: bool, s: Shown, rotated: bool, ppa: bool,
                        scratch: bool, refuse: int)
      returns (ok: bool)
      requires Valid() && cf.Valid() && cf.rects != patches
      requires Sized(canvas.px, gw, gh) && Sized(frame, gw, gh) && Holds(canvas.px, gw, s.v) && s.scale >= 1
      modifies this, patches, cf`nrects
      ensures Valid() && cf.Valid()
      ensures ok == old(Takes(Blocks(cf.Rects(), s.v), direct, s, rotated, ppa, scratch, refuse))
      ensures cf.nrects == if ok then 0 else old(cf.nrects)
      ensures ok && !rotated ==> ShowsSettled(buf, old(buf), canvas.px, frame, gw, gh, old(cf.Rects()), s)
      ensures rotated ==> buf == old(buf)
      ensures if rotated && old(Takes(Blocks(cf.Rects(), s.v), direct, s, rotated, ppa, scratch, -1))
              then WillShow(canvas.px, frame, old(cf.Rects()), s) else fr == old(fr)
      ensures !ok ==> OutsideSame(buf, old(buf), s)
    {
      hide Recorded, ShownTo, Holds, Sized, OutsideSame, ShowsSettled, TooMany, Blocks;
      ghost var rs := cf.Rects();
      ghost var bs := Blocks(rs, s.v);
      NothingShown(buf, s);
      ok := false;
      if !ppa || !direct || !Fits(s) || !scratch {
        return;
      }
      var k := RecordPatches(cf, canvas.px, s, rotated);
      if k < 0 {
        return;
      }
      RecordedLength(patches[..], k, pic, canvas.px, gw, bs, rotated, s);
      if rotated {
        fr := Some(Pending(frame, s, k));
        if refuse == 0 {
          return;
        }
      } else {
        ok := BlitDirect(canvas.px, frame, k, s, refuse, rs);
        if !ok {
          return;
        }
      }
      cf.nrects := 0;
      ok := true;
    }

    /** `_paint_frame`: the glass as the settled picture's composite would leave it, though the
        canvas may have changed since. */
    method PaintFrame(ghost canvas: Surf, ghost frame: Surf, ghost rs: seq<Rect>, ghost s: Shown)
      requires WillShow(canvas, frame, rs, s)
      modifies `buf
      ensures ShowsSettled(buf, old(buf), canvas, frame, gw, gh, rs, s)
      ensures WillShow(canvas, frame, rs, s)
    {
      ghost var g0 := buf;
      hide Recorded, ShownTo, Holds, Sized, OutsideSame, Scaled, TooMany, Blocks, Settled;
      var p := fr.value;
      ViewShown(buf, canvas, frame, gw, gh, s);
      buf := Scaled(buf, p.kept, gw, p.shown.v, p.shown.scale, p.shown.ox, p.shown.oy);
      var ok := BlitPatches(pic, p.n, p.shown, -1, g0, canvas, frame, Blocks(rs, s.v), true);
      AllShown(buf, g0, canvas, frame, gw, gh, rs, s);
    }

    /** The composite of a compiled cart's frame (`_composite_game`): however it goes, the
        glass shows the settled picture and nothing outside the view changes. */
    method ShowFrame(cf: CartFrame, canvas: Picture, frame: Surf, direct: bool, s: Shown, rotated: bool, ppa: bool,
                     scratch: bool, refuse: int)
      requires Valid() && cf.Valid() && cf.rects != patches && cf.w == gw && cf.h == gh
      requires Sized(canvas.px, gw, gh) && Sized(frame, gw, gh) && Holds(canvas.px, gw, s.v) && s.scale >= 1
      modifies this, patches, cf`nrects, canvas
      ensures Valid() && cf.Valid() && cf.nrects == 0
      ensures ShowsSettled(buf, old(buf), old(canvas.px), frame, gw, gh, old(cf.Rects()), s)
    {
      ghost var g0, was, rs := buf, canvas.px, cf.Rects();
      hide Recorded, Holds, Sized, OutsideSame, Scaled, TooMany, Blocks, Settled;
      var ok := PresentFrame(cf, canvas, frame, direct, s, rotated, ppa, scratch, refuse);
      if ok {
        if rotated {
          PaintFrame(was, frame, rs, s);
        }
        return;
      }
      assert cf.Rects() == rs;
      cf.Settle(canvas, true, frame);
      cf.nrects := 0;
      SettledHolds(was, frame, rs, gw, gh, s);
      CompositeCovers(buf, g0, s, canvas.px, gw);
      buf := Scaled(buf, canvas.px, gw, s.v, s.scale, s.ox, s.oy);
    }
  }

  /** The glass is what one composite of the settled picture would make of `g0`. */
  predicate ShowsSettled(glass: Surf, g0: Surf, canvas: Surf, frame: Surf, w: nat, h: nat, rs: seq<Rect>, s: Shown) {
    && Sized(canvas, w, h) && Sized(frame, w, h) && s.scale >= 1
    && Holds(Settled(canvas, frame, rs, w, h), w, s.v)
    && glass == Scaled(g0, Settled(canvas, frame, rs, w, h), w, s.v, s.scale, s.ox, s.oy)
  }

  function Width(s: Surf): nat {
    if s == [] then 0 else |s[0]|
  }

  lemma SettledHolds(canvas: Surf, frame: Surf, rs: seq<Rect>, w: nat, h: nat, s: Shown)
    requires Sized(canvas, w, h) && Sized(frame, w, h) && Holds(canvas, w, s.v)
    ensures Holds(Settled(canvas, frame, rs, w, h), w, s.v)
  {
  }

  lemma NothingShown(g: Surf, s: Shown)
    ensures OutsideSame(g, g, s)
  {
  }

  lemma RecordedLength(a: seq<int>, n: nat, pic: Surf, canvas: Surf, w: nat, bs: seq<Rect>, copy: bool, s: Shown)
    requires Recorded(a, n, pic, canvas, w, bs, copy, s)
    ensures |bs| == n && 6 * n <= |a|
  {
  }

  lemma TooManyIs(bs: seq<Rect>, copy: bool, gfx: bool)
    ensures TooMany(bs, copy, gfx) <==> copy && bs != [] && (!gfx || TotalRows(bs) > PATCH_ROWS)
  {
  }

  lemma NoBlocks(rs: seq<Rect>, v: Rect, copy: bool, gfx: bool)
    ensures Blocks(rs[..0], v) == [] && TotalRows([]) == 0 && !TooMany([], copy, gfx)
  {
  }
}
