/** A compiled cart's frame shown from its own memory, the console's opaque rects over it
    scaled as patches of their own (device/p4_canvas.py:430-594,
    device/moycore_glue.py:747-855): the frame as the cart's run holds it, the rects
    declared over it, and the picture it must leave behind. `settle` puts the pixels under
    the rects by, row by row, writes the frame, and puts them back. */
module Present {
  import opened Surface

  const MAX_PATCHES: nat := 4
  const PATCH_ROWS: nat := 32

  datatype Rect = Rect(x: int, y: int, w: int, h: int)

  /** The pixels of a rect inside an area. */
  function Clip(r: Rect, a: Area): Area {
    Area(if r.x < a.x0 then a.x0 else r.x, if r.y < a.y0 then a.y0 else r.y,
         if r.x + r.w > a.x1 then a.x1 else r.x + r.w, if r.y + r.h > a.y1 then a.y1 else r.y + r.h)
  }

  predicate Inside(r: Rect, x: int, y: int) { In(Area(r.x, r.y, r.x + r.w, r.y + r.h), x, y) }

  /** A rect holds the w by h pixels from its corner; and its part of an area, those of both. */
  lemma InsideIs(r: Rect, a: Area, x: int, y: int)
    ensures Inside(r, x, y) <==> r.x <= x < r.x + r.w && r.y <= y < r.y + r.h
    ensures In(Clip(r, a), x, y) <==> Inside(r, x, y) && a.x0 <= x < a.x1 && a.y0 <= y < a.y1
  {
  }

  predicate Covered(rs: seq<Rect>, x: int, y: int) { exists i :: 0 <= i < |rs| && Inside(rs[i], x, y) }

  // ---- the settled picture ----

  /** The frame in the canvas, the rects painted over it keeping their pixels. */
  function Settled(canvas: Surf, frame: Surf, rs: seq<Rect>, w: nat, h: nat): (r: Surf)
    requires Sized(canvas, w, h) && Sized(frame, w, h)
    ensures Sized(r, w, h)
    ensures forall y, x :: 0 <= y < h && 0 <= x < w ==> r[y][x] == if Covered(rs, x, y) then canvas[y][x] else frame[y][x]
  {
    Paint(canvas, (x, y, was) => if Covered(rs, x, y) then was else if 0 <= y < h && 0 <= x < w then frame[y][x] else was)
  }

  /** A stretch of a row: where it starts and its words. */
  datatype Span = Span(y: nat, x: nat, px: seq<nat>)

  /** The rects of a flat array, four numbers each. */
  function Rows(a: seq<int>, n: nat): (rs: seq<Rect>)
    requires 4 * n <= |a|
    ensures |rs| == n && forall i :: 0 <= i < n ==> rs[i] == Rect(a[4 * i], a[4 * i + 1], a[4 * i + 2], a[4 * i + 3])
  {
    seq(n, i requires 0 <= i < n => Rect(a[4 * i], a[4 * i + 1], a[4 * i + 2], a[4 * i + 3]))
  }

  lemma OneMoreRow(a: seq<int>, b: seq<int>, n: nat)
    requires |a| == |b| && 4 * n + 4 <= |a| && a[..4 * n] == b[..4 * n]
    ensures Rows(b, n + 1) == Rows(a, n) + [Rect(b[4 * n], b[4 * n + 1], b[4 * n + 2], b[4 * n + 3])]
  {
    forall i | 0 <= i < n ensures Rows(b, n + 1)[i] == Rows(a, n)[i] {
      assert a[..4 * n][4 * i] == b[..4 * n][4 * i] && a[..4 * n][4 * i + 1] == b[..4 * n][4 * i + 1]
             && a[..4 * n][4 * i + 2] == b[..4 * n][4 * i + 2] && a[..4 * n][4 * i + 3] == b[..4 * n][4 * i + 3];
    }
  }

  predicate InSpan(s: Span, x: int, y: int) { y == s.y && s.x <= x < s.x + |s.px| }

  predicate InSpans(kept: seq<Span>, x: int, y: int) { exists k :: 0 <= k < |kept| && InSpan(kept[k], x, y) }

  /** A span inside the canvas, of the canvas's own words. */
  predicate SpanOk(s: Span, canvas: Surf, w: nat, h: nat)
    requires Sized(canvas, w, h)
  {
    s.y < h && s.x + |s.px| <= w && s.px == canvas[s.y][s.x..s.x + |s.px|]
  }

  predicate AllOk(kept: seq<Span>, canvas: Surf, w: nat, h: nat)
    requires Sized(canvas, w, h)
  {
    forall k :: 0 <= k < |kept| ==> SpanOk(kept[k], canvas, w, h)
  }

  /** The spans hold exactly the canvas's pixels under the first `i` rects, and under the next
      down to row `y`. */
  ghost predicate Keeps(kept: seq<Span>, canvas: Surf, w: nat, h: nat, rs: seq<Rect>, i: nat, y: int)
    requires Sized(canvas, w, h)
  {
    && AllOk(kept, canvas, w, h) && i <= |rs|
    && forall px, py :: 0 <= px < w && 0 <= py < h ==>
         (InSpans(kept, px, py) <==> Covered(rs[..i], px, py) || (i < |rs| && Inside(rs[i], px, py) && py < y))
  }

  lemma KeptNothing(canvas: Surf, w: nat, h: nat, rs: seq<Rect>)
    requires Sized(canvas, w, h)
    ensures Keeps([], canvas, w, h, rs, 0, 0)
  {
  }

  lemma InMoreSpans(kept: seq<Span>, s: Span, x: int, y: int)
    ensures InSpans(kept + [s], x, y) <==> InSpans(kept, x, y) || InSpan(s, x, y)
  {
    if InSpans(kept, x, y) {
      var k :| 0 <= k < |kept| && InSpan(kept[k], x, y);
      assert (kept + [s])[k] == kept[k];
    }
    if InSpan(s, x, y) {
      assert (kept + [s])[|kept|] == s;
    }
  }

  lemma CoveredMore(rs: seq<Rect>, i: nat, x: int, y: int)
    requires i < |rs|
    ensures Covered(rs[..i + 1], x, y) <==> Covered(rs[..i], x, y) || Inside(rs[i], x, y)
  {
    if Covered(rs[..i], x, y) {
      var k :| 0 <= k < |rs[..i]| && Inside(rs[..i][k], x, y);
      assert rs[..i + 1][k] == rs[..i][k];
    }
    if Inside(rs[i], x, y) {
      assert rs[..i + 1][i] == rs[i];
    }
  }

  /** One row of a rect put by. */
  lemma KeepRow(kept: seq<Span>, canvas: Surf, w: nat, h: nat, rs: seq<Rect>, i: nat, y: int)
    requires Sized(canvas, w, h) && i < |rs| && Keeps(kept, canvas, w, h, rs, i, y)
    requires var a := Clip(rs[i], Area(0, 0, w, h)); a.y0 <= y < a.y1
    ensures 0 <= y < h
    ensures var a := Clip(rs[i], Area(0, 0, w, h));
            if a.x1 > a.x0 then
              0 <= a.x0 && a.x1 <= w && Keeps(kept + [Span(y, a.x0, canvas[y][a.x0..a.x1])], canvas, w, h, rs, i, y + 1)
            else Keeps(kept, canvas, w, h, rs, i, y + 1)
  {
    var a := Clip(rs[i], Area(0, 0, w, h));
    if a.x1 > a.x0 {
      var s := Span(y, a.x0, canvas[y][a.x0..a.x1]);
      forall px, py | 0 <= px < w && 0 <= py < h
        ensures InSpans(kept + [s], px, py) <==>
                Covered(rs[..i], px, py) || (Inside(rs[i], px, py) && py < y + 1)
      {
        InMoreSpans(kept, s, px, py);
      }
      hide InSpans, Covered;
    }
  }

  /** A rect's rows all put by, from its first to its last. */
  lemma KeepRect(kept: seq<Span>, canvas: Surf, w: nat, h: nat, rs: seq<Rect>, i: nat, y: int)
    requires Sized(canvas, w, h) && i < |rs| && Keeps(kept, canvas, w, h, rs, i, y)
    requires y >= Clip(rs[i], Area(0, 0, w, h)).y1
    ensures Keeps(kept, canvas, w, h, rs, i + 1, 0)
  {
    forall px, py | 0 <= px < w && 0 <= py < h
      ensures InSpans(kept, px, py) <==> Covered(rs[..i + 1], px, py) || (i + 1 < |rs| && Inside(rs[i + 1], px, py) && py < 0)
    {
      CoveredMore(rs, i, px, py);
    }
    hide InSpans, Covered;
  }

  /** Before a rect's first row, nothing of it is kept. */
  lemma KeepStarts(kept: seq<Span>, canvas: Surf, w: nat, h: nat, rs: seq<Rect>, i: nat)
    requires Sized(canvas, w, h) && i < |rs| && Keeps(kept, canvas, w, h, rs, i, 0)
    ensures Keeps(kept, canvas, w, h, rs, i, Clip(rs[i], Area(0, 0, w, h)).y0)
  {
    hide InSpans, Covered;
  }

  /** Words written over a stretch of a row. */
  function Put(s: Surf, p: Span, w: nat, h: nat): (r: Surf)
    requires Sized(s, w, h) && p.y < h && p.x + |p.px| <= w
    ensures Sized(r, w, h)
    ensures forall y, x :: 0 <= y < h && 0 <= x < w ==> r[y][x] == if InSpan(p, x, y) then p.px[x - p.x] else s[y][x]
  {
    s[p.y := s[p.y][..p.x] + p.px + s[p.y][p.x + |p.px|..]]
  }

  /** A canvas's buffer. */
  class Picture {
    var px: Surf
    constructor (px: Surf)
      ensures this.px == px
    {
      this.px := px;
    }
  }

  /** What was put by, written over the frame. */
  method PutBack(canvas: Picture, kept: seq<Span>, w: nat, h: nat, ghost was: Surf)
    requires Sized(canvas.px, w, h) && Sized(was, w, h) && AllOk(kept, was, w, h)
    modifies canvas
    ensures Sized(canvas.px, w, h)
    ensures forall y, x :: 0 <= y < h && 0 <= x < w ==>
              canvas.px[y][x] == if InSpans(kept, x, y) then was[y][x] else old(canvas.px)[y][x]
  {
    ghost var owed := canvas.px;
    for k := 0 to |kept|
      invariant Sized(canvas.px, w, h)
      invariant forall y, x :: 0 <= y < h && 0 <= x < w ==>
                  canvas.px[y][x] == if InSpans(kept[..k], x, y) then was[y][x] else owed[y][x]
    {
      assert SpanOk(kept[k], was, w, h);
      canvas.px := Put(canvas.px, kept[k], w, h);
      assert kept[..k + 1] == kept[..k] + [kept[k]];
      forall y, x | 0 <= y < h && 0 <= x < w
        ensures canvas.px[y][x] == if InSpans(kept[..k + 1], x, y) then was[y][x] else owed[y][x]
      {
        InMoreSpans(kept[..k], kept[k], x, y);
      }
    }
    assert kept[..|kept|] == kept;
  }

  /** The frame with everything under the rects put back is the settled picture. */
  lemma PutBackSettles(r: Surf, canvas: Surf, owed: Surf, kept: seq<Span>, rs: seq<Rect>, w: nat, h: nat)
    requires Sized(r, w, h) && Sized(canvas, w, h) && Sized(owed, w, h) && Keeps(kept, canvas, w, h, rs, |rs|, 0)
    requires forall y, x :: 0 <= y < h && 0 <= x < w ==>
               r[y][x] == if InSpans(kept, x, y) then canvas[y][x] else owed[y][x]
    ensures r == Settled(canvas, owed, rs, w, h)
  {
    assert rs[..|rs|] == rs;
    hide InSpans, Covered;
    SameSurf(r, Settled(canvas, owed, rs, w, h));
  }

  lemma KeptAreOk(kept: seq<Span>, canvas: Surf, w: nat, h: nat, rs: seq<Rect>, n: nat)
    requires Sized(canvas, w, h) && Keeps(kept, canvas, w, h, rs, n, 0)
    ensures AllOk(kept, canvas, w, h)
  {
  }

  lemma SettledBare(canvas: Surf, owed: Surf, w: nat, h: nat)
    requires Sized(canvas, w, h) && Sized(owed, w, h)
    ensures owed == Settled(canvas, owed, [], w, h)
  {
    SameSurf(owed, Settled(canvas, owed, [], w, h));
  }

  class CartFrame {
    const w: nat
    const h: nat
    const rects: array<int>
    var nrects: nat

    constructor (w: nat, h: nat)
      ensures this.w == w && this.h == h && nrects == 0 && fresh(rects) && rects.Length == 4 * MAX_PATCHES
    {
      this.w, this.h, nrects := w, h, 0;
      rects := new int[4 * MAX_PATCHES](_ => 0);
    }

    predicate Valid()
      reads this
    {
      rects.Length == 4 * MAX_PATCHES && nrects <= MAX_PATCHES
    }

    /** The rects declared over the frame. */
    function Rects(): (rs: seq<Rect>)
      requires Valid()
      reads this, rects
      ensures |rs| == nrects
    {
      Rows(rects[..], nrects)
    }

    /** `patch`: False where the fold holds no more, and then nothing is recorded. */
    method Patch(x: int, y: int, w: int, h: int) returns (ok: bool)
      requires Valid()
      modifies this, rects
      ensures Valid() && ok == (old(nrects) < 4)
      ensures Rects() == if ok then old(Rects()) + [Rect(x, y, w, h)] else old(Rects())
    {
      var n := nrects;
      if n >= MAX_PATCHES {
        return false;
      }
      ghost var was := rects[..];
      rects[4 * n], rects[4 * n + 1], rects[4 * n + 2], rects[4 * n + 3] := x, y, w, h;
      nrects := n + 1;
      OneMoreRow(was, rects[..], n);
      return true;
    }

    /** The canvas's pixels under the rects, a row of one at a time. */
    method PutBy(canvas: Picture, n: nat, ghost rs: seq<Rect>) returns (kept: seq<Span>)
      requires 4 * n <= rects.Length && rs == Rows(rects[..], n) && Sized(canvas.px, w, h)
      ensures Keeps(kept, canvas.px, w, h, rs, n, 0)
    {
      kept := [];
      KeptNothing(canvas.px, w, h, rs);
      hide Keeps;
      for i := 0 to n
        invariant Keeps(kept, canvas.px, w, h, rs, i, 0)
      {
        var a := Clip(Rect(rects[4 * i], rects[4 * i + 1], rects[4 * i + 2], rects[4 * i + 3]), Area(0, 0, w, h));
        var y := a.y0;
        KeepStarts(kept, canvas.px, w, h, rs, i);
        while y < a.y1
          invariant a.y0 <= y && Keeps(kept, canvas.px, w, h, rs, i, y)
          decreases a.y1 - y
        {
          KeepRow(kept, canvas.px, w, h, rs, i, y);
          if a.x1 > a.x0 {
            kept := kept + [Span(y, a.x0, canvas.px[y][a.x0..a.x1])];
          }
          y := y + 1;
        }
        KeepRect(kept, canvas.px, w, h, rs, i, y);
      }
    }

    /** `settle`: what the rects keep is put by, the frame the canvas lacks written, and it
        put back; not `given` the canvas, the frame alone. */
    method Settle(canvas: Picture, given: bool, owed: Surf)
      requires Valid() && Sized(canvas.px, w, h) && Sized(owed, w, h)
      modifies `nrects, canvas
      ensures Valid() && nrects == 0
      ensures canvas.px == Settled(old(canvas.px), owed, if given then old(Rects()) else [], w, h)
    {
      ghost var rs := Rects();
      ghost var was := canvas.px;
      var n := nrects;
      nrects := 0;
      if n == 0 || !given {
        SettledBare(was, owed, w, h);
        canvas.px := owed;
        return;
      }
      hide Keeps, Sized, Settled, Covered, InSpans, AllOk;
      var kept := PutBy(canvas, n, rs);
      KeptAreOk(kept, was, w, h, rs, n);
      canvas.px := owed;
      PutBack(canvas, kept, w, h, was);
      PutBackSettles(canvas.px, was, owed, kept, rs, w, h);
    }
  }
}
