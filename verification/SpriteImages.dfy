/** An image as the canvas's sprite verb leaves it (device/device_canvas.py:1911-2032): the
    variants it has baked, under the scale, the flip and the palette state each was baked
    at, the newest one beside them, and the buffers off the heap they were baked into. The
    loops that bake are here, and the methods that keep and drop variants; that a bake taken
    from the cache draws what no cache would is proved over whole runs in SpriteCache. */
module SpriteImages {
  import opened Options
  import opened Palette
  import opened Surface
  import opened SpriteCache

  // ---- the bake, texel by texel ----

  /** The pixels of texel (sx, sy). */
  function Cell(sx: nat, sy: nat, scale: nat): Area {
    Area(sx * scale, sy * scale, sx * scale + scale, sy * scale + scale)
  }

  lemma CellHolds(x: nat, y: nat, sx: nat, sy: nat, scale: nat)
    requires scale >= 1
    ensures In(Cell(sx, sy, scale), x, y) <==> x / scale == sx && y / scale == sy
  {
    SpanHolds(x, sx, scale);
    SpanHolds(y, sy, scale);
  }

  lemma SpanHolds(x: nat, s: nat, scale: nat)
    requires scale >= 1
    ensures s * scale <= x < s * scale + scale <==> x / scale == s
  {
    assert x == x / scale * scale + x % scale;
    if s < x / scale {
      ProductGrows(s + 1, x / scale, scale);
    } else if x / scale < s {
      ProductGrows(x / scale + 1, s, scale);
    }
  }

  /** The bake with the texels before (sx, sy), row by row, filled in. */
  ghost predicate BakedTo(buf: Surf, spr: Sprite, lut: seq<nat>, palt: seq<nat>, scale: nat, flip: int,
                          sx: nat, sy: nat)
    requires ValidSprite(spr) && |lut| == |palt| == 64 && scale >= 1
  {
    && Sized(buf, spr.w * scale, |spr.rows| * scale)
    && forall y, x :: 0 <= y < |spr.rows| * scale && 0 <= x < spr.w * scale ==>
         buf[y][x] == BakedAt(spr, lut, palt, scale, flip, sx, sy, x, y)
  }

  function BakedAt(spr: Sprite, lut: seq<nat>, palt: seq<nat>, scale: nat, flip: int,
                   sx: nat, sy: nat, x: nat, y: nat): nat
    requires ValidSprite(spr) && |lut| == |palt| == 64 && scale >= 1
    requires y < |spr.rows| * scale && x < spr.w * scale
  {
    var tx, ty := Texel(x, spr.w, scale), Texel(y, |spr.rows|, scale);
    if ty < sy || (ty == sy && tx < sx) then BakedWord(spr, lut, palt, flip, tx, ty) else KEY
  }

  lemma OneTexel(buf: Surf, spr: Sprite, lut: seq<nat>, palt: seq<nat>, scale: nat, flip: int, sx: nat, sy: nat)
    requires ValidSprite(spr) && |lut| == |palt| == 64 && scale >= 1
    requires sx < spr.w && sy < |spr.rows|
    requires BakedTo(buf, spr, lut, palt, scale, flip, sx, sy)
    ensures var word := BakedWord(spr, lut, palt, flip, sx, sy);
            && BakedTo(Fill(buf, Cell(sx, sy, scale), word), spr, lut, palt, scale, flip, sx + 1, sy)
            && (word == KEY ==> BakedTo(buf, spr, lut, palt, scale, flip, sx + 1, sy))
  {
    forall y: nat, x: nat | y < |spr.rows| * scale && x < spr.w * scale
      ensures In(Cell(sx, sy, scale), x, y) <==> x / scale == sx && y / scale == sy
    {
      CellHolds(x, y, sx, sy, scale);
    }
  }

  lemma NextRow(buf: Surf, spr: Sprite, lut: seq<nat>, palt: seq<nat>, scale: nat, flip: int, sy: nat)
    requires ValidSprite(spr) && |lut| == |palt| == 64 && scale >= 1
    requires BakedTo(buf, spr, lut, palt, scale, flip, spr.w, sy)
    ensures BakedTo(buf, spr, lut, palt, scale, flip, 0, sy + 1)
  {
  }

  lemma AllBaked(buf: Surf, spr: Sprite, lut: seq<nat>, palt: seq<nat>, scale: nat, flip: int)
    requires ValidSprite(spr) && |lut| == |palt| == 64 && scale >= 1
    requires BakedTo(buf, spr, lut, palt, scale, flip, 0, |spr.rows|)
    ensures buf == Bake(spr, lut, palt, scale, flip)
  {
    SameSurf(buf, Bake(spr, lut, palt, scale, flip));
  }

  /** The per-pixel loop of `_cache_rgb`. */
  method BakePixels(spr: Sprite, wire: seq<nat>, palMap: seq<nat>, palt: seq<nat>, scale: nat, flip: int)
    returns (buf: Surf)
    requires ValidSprite(spr) && |wire| == |palt| == 64 && IsRemap(palMap) && scale >= 1
    ensures buf == Bake(spr, Compose(wire, palMap), palt, scale, flip)
  {
    ghost var lut := Compose(wire, palMap);
    buf := seq(|spr.rows| * scale, _ => seq(spr.w * scale, _ => KEY));
    for sy := 0 to |spr.rows|
      invariant BakedTo(buf, spr, lut, palt, scale, flip, 0, sy)
    {
      var ssy := if flip / 2 % 2 == 1 then |spr.rows| - 1 - sy else sy;
      for sx := 0 to spr.w
        invariant BakedTo(buf, spr, lut, palt, scale, flip, sx, sy)
      {
        hide BakedTo, Fill, Cell;
        OneTexel(buf, spr, lut, palt, scale, flip, sx, sy);
        var ssx := if flip % 2 == 1 then spr.w - 1 - sx else sx;
        var p := spr.rows[ssy][ssx];
        if !(spr.transparent == Some(p) || p < 0 || palt[p % 64] != 0) {
          var col := wire[palMap[p % 64]];
          if col == KEY {
            col := NUDGED;
          }
          buf := Fill(buf, Cell(sx, sy, scale), col);
        }
      }
      NextRow(buf, spr, lut, palt, scale, flip, sy);
    }
    AllBaked(buf, spr, lut, palt, scale, flip);
  }

  // ---- the image ----

  lemma TakeOne(v: map<BakeKey, Baked>, k: BakeKey)
    requires Distinct(v) && k in v
    ensures var rest := v - {k};
            && |rest| < |v| && Distinct(rest)
            && Loans(v) == Loans(rest) + LoanOf(v[k]) && Loans(rest) !! LoanOf(v[k])
  {
    var rest := v - {k};
    assert rest[k := v[k]] == v;
    assert rest.Keys == v.Keys - {k};
    assert |rest.Keys| == |v.Keys| - 1;
    LoansOfOneMore(rest, k, v[k]);
  }

  /** A buffer newly taken is none of the variants'. */
  lemma NewLoan(c: Cache)
    requires Accounted(c)
    ensures Distinct(c.variants) && c.live == Loans(c.variants)
    ensures {c.next} !! Loans(c.variants)
  {
    LedgerTakes(c.live, c.freed, c.next, {c.next}, c.next + 1);
    hide Distinct, Loans, Ledger;
  }

  lemma FiledAs(c: Cache, r: Cache, key: BakeKey, bake: Baked, offHeap: bool)
    requires bake.loan == if offHeap then Some(c.next) else None
    requires r.hot == Some((key, bake)) && r.next == if offHeap then c.next + 1 else c.next
    requires if |c.variants| >= 6 then
               && r.variants == map[key := bake]
               && r.live == (if offHeap then c.live + {c.next} else c.live) - Loans(c.variants)
               && r.freed == c.freed + Loans(c.variants)
             else
               && r.variants == c.variants[key := bake]
               && r.live == (if offHeap then c.live + {c.next} else c.live) && r.freed == c.freed
    ensures r == File(c, key, bake.pixels, offHeap)
  {
    hide Loans;
    assert c.live + LoanOf(bake) == if offHeap then c.live + {c.next} else c.live;
  }

  lemma OneSettled(live: set<nat>, freed: set<nat>, all: set<nat>, rest: set<nat>, loan: set<nat>)
    requires rest + loan <= all && rest !! loan
    ensures ((live - all) + (rest + loan)) - loan == (live - all) + rest
    ensures (freed + (all - (rest + loan))) + loan == freed + (all - rest)
  {
  }

  lemma NoLoans()
    ensures Loans(map[]) == {}
  {
  }

  class SpriteImage {
    const sprite: Sprite
    /** Whether the image's pixels live off the heap, so that its bakes do too. */
    const offHeap: bool
    var rgb: Option<Baked>
    var rgbScale: nat
    var rgbFlip: int
    var rgbPalgen: nat
    var rgbVariants: map<BakeKey, Baked>
    // The off-heap allocator's ledger for this image's buffers.
    var live: set<nat>
    var freed: set<nat>
    var next: nat

    constructor (sprite: Sprite, offHeap: bool)
      ensures Model() == Empty()
      ensures this.sprite == sprite && this.offHeap == offHeap
    {
      this.sprite := sprite;
      this.offHeap := offHeap;
      rgb, rgbScale, rgbFlip, rgbPalgen := None, 0, -1, 0;
      rgbVariants, live, freed, next := map[], {}, {}, 0;
    }

    ghost function Model(): Cache
      reads this
    {
      Cache(if rgb.None? then None else Some((BakeKey(rgbScale, rgbFlip, rgbPalgen), rgb.value)),
            rgbVariants, live, freed, next)
    }

    /** `moybuf.alloc`. */
    method Alloc() returns (h: nat)
      modifies `live, `next
      ensures h == old(next) && next == h + 1 && live == old(live) + {h}
    {
      h := next;
      next := next + 1;
      live := live + {h};
    }

    /** `moybuf.free`, which a buffer already freed may not be given. */
    method Free(h: nat)
      requires h in live
      modifies `live, `freed
      ensures live == old(live) - {h} && freed == old(freed) + {h}
    {
      live := live - {h};
      freed := freed + {h};
    }

    /** `_rgb_variant`: a filed bake becomes the hot one. */
    method RgbVariant(scale: nat, flip: int, palgen: nat) returns (hit: bool)
      modifies `rgb, `rgbScale, `rgbFlip, `rgbPalgen
      ensures var key := BakeKey(scale, flip, palgen);
              && hit == (key in rgbVariants)
              && Model() == if hit then old(Model()).(hot := Some((key, rgbVariants[key]))) else old(Model())
    {
      var key := BakeKey(scale, flip, palgen);
      if key !in rgbVariants {
        return false;
      }
      rgb := Some(rgbVariants[key]);
      rgbScale, rgbFlip, rgbPalgen := scale, flip, palgen;
      return true;
    }

    /** The variants go, and their off-heap buffers with them, but for the one in `rgb`. */
    method DropVariants()
      requires rgb.Some? && Distinct(rgbVariants)
      requires Loans(rgbVariants) <= live && LoanOf(rgb.value) !! Loans(rgbVariants)
      modifies `rgbVariants, `live, `freed
      ensures rgbVariants == map[]
      ensures live == old(live) - Loans(old(rgbVariants))
      ensures freed == old(freed) + Loans(old(rgbVariants))
    {
      hide Loans, Distinct;
      var todo := rgbVariants;
      ghost var all := Loans(rgbVariants);
      while todo != map[]
        invariant Distinct(todo) && Loans(todo) <= all && LoanOf(rgb.value) !! Loans(todo)
        invariant live == (old(live) - all) + Loans(todo)
        invariant freed == old(freed) + (all - Loans(todo))
        decreases |todo|
      {
        var k :| k in todo;
        var loan := todo[k].loan;
        TakeOne(todo, k);
        OneSettled(old(live), old(freed), all, Loans(todo - {k}), LoanOf(todo[k]));
        todo := todo - {k};
        if loan.Some? && loan != rgb.value.loan {
          Free(loan.value);
        }
      }
      NoLoans();
      rgbVariants := map[];
    }

    /** The new bake hot and filed, the variants dropped first when there are six. */
    method Keep(bake: Baked, scale: nat, flip: int, palgen: nat)
      requires Distinct(rgbVariants) && Loans(rgbVariants) <= live
      requires bake.loan.Some? ==> {bake.loan.value} !! Loans(rgbVariants)
      modifies `rgb, `rgbScale, `rgbFlip, `rgbPalgen, `rgbVariants, `live, `freed
      ensures rgb == Some(bake) && rgbScale == scale && rgbFlip == flip && rgbPalgen == palgen
      ensures var key, v := BakeKey(scale, flip, palgen), old(rgbVariants);
              if |v| >= 6 then
                rgbVariants == map[key := bake] && live == old(live) - Loans(v) && freed == old(freed) + Loans(v)
              else rgbVariants == v[key := bake] && live == old(live) && freed == old(freed)
    {
      hide Loans, Distinct;
      rgb := Some(bake);
      rgbScale, rgbFlip, rgbPalgen := scale, flip, palgen;
      if |rgbVariants| >= 6 {
        DropVariants();
      }
      rgbVariants := rgbVariants[BakeKey(scale, flip, palgen) := bake];
    }

    /** A buffer for a bake: off-heap for an image whose pixels are. */
    method BakeBuf() returns (loan: Option<nat>)
      modifies `live, `next
      ensures loan == if offHeap then Some(old(next)) else None
      ensures next == if offHeap then old(next) + 1 else old(next)
      ensures live == if offHeap then old(live) + {old(next)} else old(live)
    {
      loan := None;
      if offHeap {
        var h := Alloc();
        loan := Some(h);
      }
    }

    /** `_cache_rgb`. */
    method CacheRgb(wire: seq<nat>, palMap: seq<nat>, palt: seq<nat>, scale: nat, flip: int, palgen: nat)
      requires ValidSprite(sprite) && |wire| == |palt| == 64 && IsRemap(palMap) && scale >= 1
      requires Accounted(Model()) && BakeKey(scale, flip, palgen) !in rgbVariants
      modifies this
      ensures Model() == File(old(Model()), BakeKey(scale, flip, palgen),
                              Bake(sprite, Compose(wire, palMap), palt, scale, flip), offHeap)
    {
      ghost var was := Model();
      NewLoan(was);
      hide *;
      var loan := BakeBuf();
      var pixels := BakePixels(sprite, wire, palMap, palt, scale, flip);
      Keep(Baked(pixels, loan), scale, flip, palgen);
      FiledAs(was, Model(), BakeKey(scale, flip, palgen), Baked(pixels, loan), offHeap);
    }

    /** What `spr` does before it stamps: the hot bake, else a variant, else a new one. */
    method MakeReady(wire: seq<nat>, palMap: seq<nat>, palt: seq<nat>, scale: nat, flip: int, palgen: nat)
      returns (pixels: Surf)
      requires ValidSprite(sprite) && |wire| == |palt| == 64 && IsRemap(palMap) && scale >= 1
      requires Accounted(Model())
      modifies this
      ensures Model() == Ready(old(Model()), BakeKey(scale, flip, palgen),
                               Bake(sprite, Compose(wire, palMap), palt, scale, flip), offHeap)
      ensures pixels == Model().hot.value.1.pixels
    {
      if rgb.None? || rgbScale != scale || rgbFlip != flip || rgbPalgen != palgen {
        var hit := RgbVariant(scale, flip, palgen);
        if !hit {
          CacheRgb(wire, palMap, palt, scale, flip, palgen);
        }
      }
      pixels := rgb.value.pixels;
    }
  }
}
