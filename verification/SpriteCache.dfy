/** The two-level sprite cache (device/device_canvas.py: spr, _rgb_variant, _cache_rgb):
    each image keeps its last bake in a hot slot and up to six more by (scale, flip,
    palette id), and gives an off-heap bake back exactly once. */
module SpriteCache {
  import opened Options
  import opened Palette
  import opened PaletteIds
  import opened Surface

  /** What a bake is filed under. */
  datatype BakeKey = BakeKey(scale: nat, flip: int, palgen: nat)

  /** A baked picture, and the off-heap buffer it is in, if any. */
  datatype Baked = Baked(pixels: Surf, loan: Option<nat>)

  datatype Cache = Cache(
    hot: Option<(BakeKey, Baked)>, variants: map<BakeKey, Baked>,
    live: set<nat>, freed: set<nat>, next: nat)

  function Empty(): Cache { Cache(None, map[], {}, {}, 0) }

  function LoanOf(b: Baked): set<nat> {
    if b.loan.Some? then {b.loan.value} else {}
  }

  /** The off-heap buffers of a variant dict. */
  function Loans(v: map<BakeKey, Baked>): set<nat> {
    set k | k in v && v[k].loan.Some? :: v[k].loan.value
  }

  /** `_cache_rgb`'s bookkeeping: the new bake is hot and filed; past six variants the
      old ones are dropped, their off-heap buffers freed. */
  function File(c: Cache, key: BakeKey, pixels: Surf, offHeap: bool): Cache {
    var bake := Baked(pixels, if offHeap then Some(c.next) else None);
    var next := if offHeap then c.next + 1 else c.next;
    if |c.variants| >= 6 then
      Cache(Some((key, bake)), map[key := bake], c.live + LoanOf(bake) - Loans(c.variants),
            c.freed + Loans(c.variants), next)
    else
      Cache(Some((key, bake)), c.variants[key := bake], c.live + LoanOf(bake), c.freed, next)
  }

  /** The hot slot, else a filed variant, else a fresh bake. */
  function Ready(c: Cache, key: BakeKey, pixels: Surf, offHeap: bool): (r: Cache)
    ensures r.hot.Some? && r.hot.value.0 == key
  {
    if c.hot.Some? && c.hot.value.0 == key then c
    else if key in c.variants then c.(hot := Some((key, c.variants[key])))
    else File(c, key, pixels, offHeap)
  }

  /** No two variants share a buffer. */
  ghost predicate Distinct(v: map<BakeKey, Baked>) {
    forall k, k' :: k in v && k' in v && k != k' && v[k].loan.Some? ==> v[k].loan != v[k'].loan
  }

  /** Every buffer ever taken is live or freed, never both. */
  ghost predicate Ledger(live: set<nat>, freed: set<nat>, next: nat) {
    live !! freed && forall n: nat :: n in live + freed <==> n < next
  }

  /** Buffers: the live ones are exactly the variants', each held by one variant, and
      every one ever taken is live or freed, never both. */
  ghost predicate Accounted(c: Cache) {
    && c.live == Loans(c.variants)
    && Ledger(c.live, c.freed, c.next)
    && Distinct(c.variants)
    && (c.hot.Some? ==> c.hot.value.0 in c.variants && c.variants[c.hot.value.0] == c.hot.value.1)
    && |c.variants| <= 6
  }

  lemma LedgerDrops(live: set<nat>, freed: set<nat>, next: nat, loan: set<nat>, next': nat)
    requires Ledger(live, freed, next)
    requires (loan == {} && next' == next) || (loan == {next} && next' == next + 1)
    ensures live + loan - live == loan && Ledger(loan, freed + live, next')
  {
    assert next !in live + freed;
    forall n: nat ensures n in loan + (freed + live) <==> n < next' {
      assert n in live + freed <==> n < next;
    }
  }

  lemma DropAccounts(c: Cache, key: BakeKey, pixels: Surf, offHeap: bool)
    requires Accounted(c) && |c.variants| >= 6
    ensures Accounted(File(c, key, pixels, offHeap))
  {
    var r := File(c, key, pixels, offHeap);
    var bake := r.variants[key];
    assert Loans(map[key := bake]) == LoanOf(bake);
    LedgerDrops(c.live, c.freed, c.next, LoanOf(bake), r.next);
    hide Ledger, Loans;
  }

  lemma LedgerTakes(live: set<nat>, freed: set<nat>, next: nat, loan: set<nat>, next': nat)
    requires Ledger(live, freed, next)
    requires (loan == {} && next' == next) || (loan == {next} && next' == next + 1)
    ensures loan !! live && Ledger(live + loan, freed, next')
  {
    assert next !in live + freed;
    forall n: nat ensures n in live + loan + freed <==> n < next' {
      assert n in live + freed <==> n < next;
    }
  }

  lemma GrowAccounts(c: Cache, key: BakeKey, pixels: Surf, offHeap: bool)
    requires Accounted(c) && key !in c.variants && |c.variants| < 6
    ensures Accounted(File(c, key, pixels, offHeap))
  {
    var r := File(c, key, pixels, offHeap);
    var bake := r.variants[key];
    LoansOfOneMore(c.variants, key, bake);
    LedgerTakes(c.live, c.freed, c.next, LoanOf(bake), r.next);
    NewLoanIsDistinct(c.variants, key, bake, c.live);
    hide Ledger, Loans, Distinct;
  }

  lemma NewLoanIsDistinct(v: map<BakeKey, Baked>, key: BakeKey, bake: Baked, live: set<nat>)
    requires Distinct(v) && live == Loans(v) && key !in v && LoanOf(bake) !! live
    ensures Distinct(v[key := bake])
  {
    forall k | k in v && v[k].loan.Some? ensures v[k].loan != bake.loan {
      assert v[k].loan.value in live;
    }
  }

  lemma LoansOfOneMore(v: map<BakeKey, Baked>, key: BakeKey, bake: Baked)
    requires key !in v
    ensures Loans(v[key := bake]) == Loans(v) + LoanOf(bake)
  {
    var v' := v[key := bake];
    forall n | n in Loans(v) + LoanOf(bake) ensures n in Loans(v') {
      if n in Loans(v) {
        var k :| k in v && v[k].loan == Some(n);
        assert k in v' && v'[k] == v[k];
      } else {
        assert v'[key] == bake;
      }
    }
  }

  /** Every request leaves the buffers accounted for. */
  lemma ReadyAccounts(c: Cache, key: BakeKey, pixels: Surf, offHeap: bool)
    requires Accounted(c)
    ensures Accounted(Ready(c, key, pixels, offHeap))
  {
    if !(c.hot.Some? && c.hot.value.0 == key) && key !in c.variants {
      if |c.variants| >= 6 {
        DropAccounts(c, key, pixels, offHeap);
      } else {
        GrowAccounts(c, key, pixels, offHeap);
      }
    }
  }

  // ---- what the bakes hold ----

  /** The look an id stands for over a base table. */
  function LookAt(base: seq<nat>, c: Content): Look { Look(c.pal, c.palt, c.screen, base) }

  /** What baking under a look gives. */
  function BakeUnder(spr: Sprite, l: Look, scale: nat, flip: int): Surf
    requires ValidSprite(spr) && WellFormed(l) && scale >= 1
  {
    Bake(spr, Lut(l), l.palt, scale, flip)
  }

  /** What each id stands for. */
  type Looks = map<nat, Look>

  function LooksOver(base: seq<nat>, h: History): Looks { map id | id in h :: LookAt(base, h[id]) }

  ghost predicate LooksGrow(a: Looks, b: Looks) {
    forall id :: id in a ==> id in b && b[id] == a[id]
  }

  ghost predicate Current(k: BakeKey, pixels: Surf, spr: Sprite, looks: Looks)
    requires ValidSprite(spr)
  {
    && k.scale >= 1 && k.palgen in looks && WellFormed(looks[k.palgen])
    && pixels == BakeUnder(spr, looks[k.palgen], k.scale, k.flip)
  }

  /** Each filed bake is what its id stands for bakes to. */
  ghost predicate FaithfulTo(c: Cache, spr: Sprite, looks: Looks)
    requires ValidSprite(spr)
  {
    forall k :: k in c.variants ==> Current(k, c.variants[k].pixels, spr, looks)
  }

  /** The same over one base table. */
  ghost predicate Faithful(c: Cache, spr: Sprite, base: seq<nat>, h: History)
    requires ValidSprite(spr)
  {
    FaithfulTo(c, spr, LooksOver(base, h))
  }

  lemma FaithfulToMore(c: Cache, spr: Sprite, a: Looks, b: Looks)
    requires ValidSprite(spr) && FaithfulTo(c, spr, a) && LooksGrow(a, b)
    ensures FaithfulTo(c, spr, b)
  {
    hide BakeUnder;
    forall k | k in c.variants ensures Current(k, c.variants[k].pixels, spr, b) {
      assert Current(k, c.variants[k].pixels, spr, a);
    }
  }

  lemma FaithfulGrows(c: Cache, spr: Sprite, base: seq<nat>, h: History, h': History)
    requires ValidSprite(spr) && Faithful(c, spr, base, h) && Grows(h, h')
    ensures Faithful(c, spr, base, h')
  {
    hide FaithfulTo;
    FaithfulToMore(c, spr, LooksOver(base, h), LooksOver(base, h'));
  }

  /** What `spr` makes ready under state `s`. */
  function SprReady(c: Cache, spr: Sprite, s: State, scale: nat, flip: int, offHeap: bool): Cache
    requires ValidSprite(spr) && Valid(s) && scale >= 1
  {
    Ready(c, BakeKey(scale, flip, s.palgen), BakeUnder(spr, LookOf(s), scale, flip), offHeap)
  }

  lemma FileStaysFaithful(c: Cache, key: BakeKey, pixels: Surf, offHeap: bool, spr: Sprite, looks: Looks)
    requires ValidSprite(spr) && FaithfulTo(c, spr, looks) && Current(key, pixels, spr, looks)
    ensures var r := File(c, key, pixels, offHeap);
            FaithfulTo(r, spr, looks) && r.hot.Some? && r.hot.value.1.pixels == pixels
  {
    hide Current, Loans;
  }

  lemma ReadyStaysFaithful(c: Cache, key: BakeKey, pixels: Surf, offHeap: bool, spr: Sprite, looks: Looks)
    requires ValidSprite(spr) && Accounted(c) && FaithfulTo(c, spr, looks) && Current(key, pixels, spr, looks)
    ensures var r := Ready(c, key, pixels, offHeap);
            FaithfulTo(r, spr, looks) && r.hot.value.1.pixels == pixels
  {
    if (c.hot.Some? && c.hot.value.0 == key) || key in c.variants {
      assert Current(key, c.variants[key].pixels, spr, looks);
      hide Ledger, Loans, Distinct, BakeUnder, File;
    } else {
      FileStaysFaithful(c, key, pixels, offHeap, spr, looks);
      hide Ledger, Loans, Distinct, FaithfulTo, Current, File;
    }
  }

  /** The bake made ready, however it was found, is the one the current palette makes. */
  lemma ReadyIsCurrent(c: Cache, spr: Sprite, s: State, looks: Looks, scale: nat, flip: int, offHeap: bool)
    requires ValidSprite(spr) && Valid(s) && scale >= 1 && Accounted(c) && FaithfulTo(c, spr, looks)
    requires s.palgen in looks && looks[s.palgen] == LookOf(s)
    ensures var r := SprReady(c, spr, s, scale, flip, offHeap);
            && Accounted(r) && FaithfulTo(r, spr, looks)
            && r.hot.value.1.pixels == BakeUnder(spr, LookOf(s), scale, flip)
  {
    var key, pixels := BakeKey(scale, flip, s.palgen), BakeUnder(spr, LookOf(s), scale, flip);
    ReadyAccounts(c, key, pixels, offHeap);
    assert Current(key, pixels, spr, looks);
    hide Current, Accounted, Bake, FaithfulTo;
    ReadyStaysFaithful(c, key, pixels, offHeap, spr, looks);
  }

  // ---- whole runs of tints and stamps ----

  datatype Act = Tint(op: Op) | Stamp(scale: int, flip: int)

  /** `spr` raises a scale below one to one. */
  function AtLeastOne(scale: int): (r: nat)
    ensures r >= 1
  {
    if scale < 1 then 1 else scale
  }

  /** A canvas and one image on it. */
  datatype Scene = Scene(s: State, c: Cache)

  function Play(stock: seq<nat>, spr: Sprite, offHeap: bool, acts: seq<Act>): (r: Scene)
    requires |stock| == 64 && ValidSprite(spr)
    ensures Valid(r.s)
  {
    if acts == [] then Scene(New(stock), Empty())
    else
      var p := Play(stock, spr, offHeap, acts[..|acts| - 1]);
      match acts[|acts| - 1]
      case Tint(op) =>
        StepKeeps(p.s, op);
        p.(s := Step(p.s, op))
      case Stamp(scale, flip) =>
        p.(c := SprReady(p.c, spr, p.s, AtLeastOne(scale), flip, offHeap))
  }

  /** The palette verbs of a run. */
  function Tints(acts: seq<Act>): seq<Op> {
    if acts == [] then []
    else
      var head := Tints(acts[..|acts| - 1]);
      match acts[|acts| - 1]
      case Tint(op) => head + [op]
      case Stamp(_, _) => head
  }

  lemma {:induction false} PlayRuns(stock: seq<nat>, spr: Sprite, offHeap: bool, acts: seq<Act>)
    requires |stock| == 64 && ValidSprite(spr)
    ensures Play(stock, spr, offHeap, acts).s == Run(New(stock), Tints(acts))
  {
    hide Step, SprReady, Valid;
    if acts != [] {
      PlayRuns(stock, spr, offHeap, acts[..|acts| - 1]);
    }
  }

  /** What ids stand for, bases and contents known apart. */
  function LooksWith(b: Bases, h: History): Looks { map id | id in h && id in b :: LookAt(b[id], h[id]) }

  ghost predicate SceneKnown(p: Scene, stock: seq<nat>, spr: Sprite, b: Bases, h: History)
    requires ValidSprite(spr)
  {
    && Known(p.s, h) && BaseKnown(p.s, b, stock) && Accounted(p.c) && FaithfulTo(p.c, spr, LooksWith(b, h))
  }

  lemma TintKeepsScene(p: Scene, op: Op, stock: seq<nat>, spr: Sprite, b: Bases, h: History)
    requires ValidSprite(spr) && Valid(p.s) && !ForgetsPalette(p.s, op, stock)
    requires SceneKnown(p, stock, spr, b, h)
    ensures var s := Step(p.s, op);
            SceneKnown(p.(s := s), stock, spr, ExtendBases(b, s), Extend(h, s))
  {
    hide *;
    var s := Step(p.s, op);
    SceneIs(p, stock, spr, b, h);
    SceneIs(p.(s := s), stock, spr, ExtendBases(b, s), Extend(h, s));
    StepKnown(p.s, op, h);
    StepBase(p.s, op, b, stock);
    LooksKept(b, h, ExtendBases(b, s), Extend(h, s));
    FaithfulToMore(p.c, spr, LooksWith(b, h), LooksWith(ExtendBases(b, s), Extend(h, s)));
  }

  lemma SceneIs(p: Scene, stock: seq<nat>, spr: Sprite, b: Bases, h: History)
    requires ValidSprite(spr)
    ensures SceneKnown(p, stock, spr, b, h) <==>
            Known(p.s, h) && BaseKnown(p.s, b, stock) && Accounted(p.c) && FaithfulTo(p.c, spr, LooksWith(b, h))
  {
    hide Known, BaseKnown, Accounted, FaithfulTo, LooksWith;
  }

  lemma LooksKept(b: Bases, h: History, b': Bases, h': History)
    requires BasesGrow(b, b') && Grows(h, h')
    ensures LooksGrow(LooksWith(b, h), LooksWith(b', h'))
  {
  }

  lemma StampKeepsScene(p: Scene, stock: seq<nat>, spr: Sprite, b: Bases, h: History, scale: nat, flip: int, offHeap: bool)
    requires ValidSprite(spr) && Valid(p.s) && scale >= 1
    requires SceneKnown(p, stock, spr, b, h)
    ensures var c := SprReady(p.c, spr, p.s, scale, flip, offHeap);
            && SceneKnown(p.(c := c), stock, spr, b, h)
            && c.hot.value.1.pixels == BakeUnder(spr, LookOf(p.s), scale, flip)
  {
    hide KnownIds, Accounted, FaithfulTo, SprReady, Valid, BakeUnder;
    ReadyIsCurrent(p.c, spr, p.s, LooksWith(b, h), scale, flip, offHeap);
  }

  lemma {:induction false} PlayKnown(stock: seq<nat>, spr: Sprite, offHeap: bool, acts: seq<Act>)
    returns (b: Bases, h: History)
    requires |stock| == 64 && ValidSprite(spr) && Remembers(stock, Tints(acts))
    ensures SceneKnown(Play(stock, spr, offHeap, acts), stock, spr, b, h)
  {
    if acts == [] {
      b, h := map[0 := stock], map[0 := Blank()];
    } else {
      var head, ops := acts[..|acts| - 1], Tints(acts);
      if acts[|acts| - 1].Tint? {
        assert ops[..|ops| - 1] == Tints(head);
        RemembersPrefix(stock, ops);
      }
      PlayRuns(stock, spr, offHeap, head);
      hide SceneKnown, Remembers, Tints, ForgetsPalette, Valid, Step, SprReady, Run, New;
      b, h := PlayKnown(stock, spr, offHeap, head);
      var p := Play(stock, spr, offHeap, head);
      match acts[|acts| - 1]
      case Tint(op) =>
        TintKeepsScene(p, op, stock, spr, b, h);
        b, h := ExtendBases(b, Step(p.s, op)), Extend(h, Step(p.s, op));
      case Stamp(scale, flip) =>
        StampKeepsScene(p, stock, spr, b, h, AtLeastOne(scale), flip, offHeap);
    }
  }

  /** No entry of the tables as they resolve is the key and shown. */
  predicate Unseen(s: State)
    requires Valid(s)
  {
    KeyUnseen(Lut(LookOf(s)), s.palt)
  }

  /** The next stamp, anywhere, puts on the glass what drawing the sprite directly would. */
  ghost predicate StampsDirect(stock: seq<nat>, spr: Sprite, offHeap: bool, acts: seq<Act>, scale: int, flip: int)
    requires |stock| == 64 && ValidSprite(spr)
  {
    var p, n := Play(stock, spr, offHeap, acts), AtLeastOne(scale);
    var made := SprReady(p.c, spr, p.s, n, flip, offHeap).hot.value.1.pixels;
    forall dst, clip, px, py :: Blit(dst, clip, made, px, py, Some(KEY))
                                == DrawSprite(dst, clip, spr, Lut(LookOf(p.s)), p.s.palt, px, py, n, flip)
  }

  /** After any run of palette verbs, palette swaps included, and stamps at any scale and
      flip, across the dropping of variants and the forgetting of ids, the next stamp draws the
      sprite directly: provided no reset of the run forgot a palette, and no key shows. */
  lemma CachedSpriteDrawsDirect(stock: seq<nat>, spr: Sprite, offHeap: bool, acts: seq<Act>, scale: int, flip: int)
    requires |stock| == 64 && ValidSprite(spr) && Remembers(stock, Tints(acts))
    requires Unseen(Play(stock, spr, offHeap, acts).s)
    ensures StampsDirect(stock, spr, offHeap, acts, scale, flip)
  {
    var b, h := PlayKnown(stock, spr, offHeap, acts);
    var p, n := Play(stock, spr, offHeap, acts), AtLeastOne(scale);
    hide Play, SceneKnown, SprReady, Remembers, Bake, Composed;
    StampKeepsScene(p, stock, spr, b, h, n, flip, offHeap);
    forall dst, clip, px, py
      ensures Blit(dst, clip, BakeUnder(spr, LookOf(p.s), n, flip), px, py, Some(KEY))
              == DrawSprite(dst, clip, spr, Lut(LookOf(p.s)), p.s.palt, px, py, n, flip)
    {
      UnseenStamps(dst, clip, spr, Lut(LookOf(p.s)), p.s.palt, px, py, n, flip);
    }
  }

  // ---- exactly when the cache can be trusted across palette swaps ----

  /** Whatever is stamped, whenever, in the course of these palette verbs draws directly. */
  ghost predicate AllStampsDirect(stock: seq<nat>, ops: seq<Op>, offHeap: bool)
    requires |stock| == 64
  {
    forall acts, spr, scale, flip :: ValidSprite(spr) && Tints(acts) <= ops ==>
      StampsDirect(stock, spr, offHeap, acts, scale, flip)
  }

  ghost predicate AlwaysUnseen(stock: seq<nat>, ops: seq<Op>)
    requires |stock| == 64
  {
    forall k :: 0 <= k <= |ops| ==> Unseen(Run(New(stock), ops[..k]))
  }

  /** Over a run of palette verbs, palette swaps included, every stamp of every sprite among
      them draws what drawing it directly would, if and only if no dirty reset_state came while
      a base other than the stock table was in place, and no entry that was the key was ever
      shown. */
  lemma CachedStampsExactly(stock: seq<nat>, ops: seq<Op>, offHeap: bool)
    requires |stock| == 64
    ensures AllStampsDirect(stock, ops, offHeap) <==> Remembers(stock, ops) && AlwaysUnseen(stock, ops)
  {
    hide StampsDirect, Run, New, ForgetsPalette, Unseen, Tints, Play;
    if Remembers(stock, ops) && AlwaysUnseen(stock, ops) {
      forall acts, spr, scale, flip | ValidSprite(spr) && Tints(acts) <= ops
        ensures StampsDirect(stock, spr, offHeap, acts, scale, flip)
      {
        var k := |Tints(acts)|;
        assert Tints(acts) == ops[..k];
        RemembersBefore(stock, ops, k);
        PlayRuns(stock, spr, offHeap, acts);
        CachedSpriteDrawsDirect(stock, spr, offHeap, acts, scale, flip);
      }
    }
    if AllStampsDirect(stock, ops, offHeap) {
      forall k | 0 <= k <= |ops| ensures Unseen(Run(New(stock), ops[..k])) {
        if !Unseen(Run(New(stock), ops[..k])) {
          SeenLoses(stock, ops, offHeap, k);
        }
      }
      forall k | 0 <= k < |ops| ensures !ForgetsPalette(Run(New(stock), ops[..k]), ops[k], stock) {
        if ForgetsPalette(Run(New(stock), ops[..k]), ops[k], stock) {
          assert Unseen(Run(New(stock), ops[..0]));
          RunNothing(New(stock), ops);
          ForgottenLoses(stock, ops, offHeap, k);
        }
      }
    }
  }

  /** Where no table the run puts in place holds the key, that leaves the resets. */
  lemma KeylessStampsExactly(stock: seq<nat>, ops: seq<Op>, offHeap: bool)
    requires |stock| == 64 && KEY !in stock && forall k :: 0 <= k < |ops| && Swaps(ops[k]) ==> KEY !in ops[k].words
    ensures AllStampsDirect(stock, ops, offHeap) <==> Remembers(stock, ops)
  {
    CachedStampsExactly(stock, ops, offHeap);
    forall k | 0 <= k <= |ops| ensures Unseen(Run(New(stock), ops[..k])) {
      KeylessBase(stock, ops[..k]);
      LookIsWell(Run(New(stock), ops[..k]));
      LutAvoidsKey(LookOf(Run(New(stock), ops[..k])));
      hide Run, New, Valid, Lut;
    }
    hide AllStampsDirect, Remembers, Unseen;
  }

  lemma SwapsIn(s: State, op: Op)
    requires Valid(s) && Swaps(op)
    ensures Step(s, op).wireBase == op.words
  {
    hide Valid, Step;
    StepKeeps(s, op);
    assert LookOf(Step(s, op)).base == op.words;
  }

  lemma {:induction false} KeylessBase(stock: seq<nat>, ops: seq<Op>)
    requires |stock| == 64 && KEY !in stock && forall k :: 0 <= k < |ops| && Swaps(ops[k]) ==> KEY !in ops[k].words
    ensures KEY !in Run(New(stock), ops).wireBase
  {
    if ops != [] {
      hide Step, Valid, New;
      var last := ops[|ops| - 1];
      var r := Run(New(stock), ops[..|ops| - 1]);
      KeylessBase(stock, ops[..|ops| - 1]);
      if Swaps(last) {
        SwapsIn(r, last);
      } else {
        OnlySwapsMoveBase(r, last);
      }
    }
  }

  lemma RemembersBefore(stock: seq<nat>, ops: seq<Op>, k: nat)
    requires |stock| == 64 && Remembers(stock, ops) && k <= |ops|
    ensures Remembers(stock, ops[..k])
  {
    hide Run, New, ForgetsPalette;
    forall j | 0 <= j < k ensures !ForgetsPalette(Run(New(stock), ops[..k][..j]), ops[..k][j], stock) {
      assert ops[..k][..j] == ops[..j];
    }
  }

  function TintAll(ops: seq<Op>): (acts: seq<Act>)
    ensures |acts| == |ops|
  {
    seq(|ops|, k requires 0 <= k < |ops| => Tint(ops[k]))
  }

  /** Palette verbs alone leave the cache as it was. */
  lemma {:induction false} TintsOnly(stock: seq<nat>, spr: Sprite, offHeap: bool, first: seq<Act>, ops: seq<Op>)
    requires |stock| == 64 && ValidSprite(spr)
    ensures Tints(first + TintAll(ops)) == Tints(first) + ops
    ensures Play(stock, spr, offHeap, first + TintAll(ops)).c == Play(stock, spr, offHeap, first).c
  {
    hide Step, SprReady, Valid;
    var acts := first + TintAll(ops);
    if ops == [] {
      assert acts == first;
    } else {
      var head := ops[..|ops| - 1];
      TintsOnly(stock, spr, offHeap, first, head);
      assert acts[..|acts| - 1] == first + TintAll(head) && acts[|acts| - 1] == Tint(ops[|ops| - 1]);
    }
  }

  /** A dot baked: its entry's word, nudged. */
  lemma DotBakes(l: Look, i: nat)
    requires WellFormed(l) && i < 64 && l.palt[i] == 0
    ensures BakeUnder(Dot(i), l, 1, 0) == [[Nudge(Lut(l)[i])]]
    ensures DrawSprite([[0]], Area(0, 0, 1, 1), Dot(i), Lut(l), l.palt, 0, 0, 1, 0) == [[Lut(l)[i]]]
  {
    DotShows(Lut(l), l.palt, i);
    hide Bake, DrawSprite, Lut;
  }

  /** A dot stamped in other than its entry's word. */
  lemma DotDiffers(stock: seq<nat>, offHeap: bool, acts: seq<Act>, i: nat, w: nat)
    requires |stock| == 64 && i < 64
    requires var p := Play(stock, Dot(i), offHeap, acts);
             && p.s.palt[i] == 0 && w != KEY && w != Lut(LookOf(p.s))[i]
             && SprReady(p.c, Dot(i), p.s, 1, 0, offHeap).hot.value.1.pixels == [[w]]
    ensures !StampsDirect(stock, Dot(i), offHeap, acts, 1, 0)
  {
    var p := Play(stock, Dot(i), offHeap, acts);
    hide Play, SprReady, Valid, Blit, DrawSprite, Lut;
    LookIsWell(p.s);
    DotBakes(LookOf(p.s), i);
    DotStamps(w);
    assert Blit([[0]], Area(0, 0, 1, 1), [[w]], 0, 0, Some(KEY))
           != DrawSprite([[0]], Area(0, 0, 1, 1), Dot(i), Lut(LookOf(p.s)), p.s.palt, 0, 0, 1, 0);
  }

  lemma LookIsWell(s: State)
    requires Valid(s)
    ensures WellFormed(LookOf(s)) && LookOf(s).palt == s.palt
  {
  }

  lemma OneLoses(stock: seq<nat>, ops: seq<Op>, offHeap: bool, acts: seq<Act>, spr: Sprite, scale: int, flip: int)
    requires |stock| == 64 && ValidSprite(spr) && Tints(acts) <= ops && !StampsDirect(stock, spr, offHeap, acts, scale, flip)
    ensures !AllStampsDirect(stock, ops, offHeap)
  {
    hide StampsDirect, Tints, ValidSprite;
  }

  /** Where the key shows, a dot drawn then for the first time comes out nudged. */
  lemma SeenLoses(stock: seq<nat>, ops: seq<Op>, offHeap: bool, k: nat)
    requires |stock| == 64 && k <= |ops| && !Unseen(Run(New(stock), ops[..k]))
    ensures !AllStampsDirect(stock, ops, offHeap)
  {
    hide Run, New, Valid, Lut, BakeUnder, AllStampsDirect, StampsDirect, Play, Tints;
    var s := Run(New(stock), ops[..k]);
    LookIsWell(s);
    var i :| 0 <= i < 64 && Lut(LookOf(s))[i] == KEY && s.palt[i] == 0;
    var acts := TintAll(ops[..k]);
    TintsOnly(stock, Dot(i), offHeap, [], ops[..k]);
    assert [] + acts == acts && [] + ops[..k] == ops[..k];
    NothingPlayed(stock, Dot(i), offHeap);
    PlayRuns(stock, Dot(i), offHeap, acts);
    DotBakes(LookOf(s), i);
    DotDiffers(stock, offHeap, acts, i, NUDGED);
    OneLoses(stock, ops, offHeap, acts, Dot(i), 1, 0);
  }

  lemma NothingPlayed(stock: seq<nat>, spr: Sprite, offHeap: bool)
    requires |stock| == 64 && ValidSprite(spr)
    ensures Tints([]) == [] && Play(stock, spr, offHeap, []).c == Empty()
  {
  }

  /** A reset that forgets a palette: id 0 again, as on a new canvas, over another base. */
  lemma ForgottenState(stock: seq<nat>, ops: seq<Op>, k: nat)
    requires |stock| == 64 && k < |ops| && ForgetsPalette(Run(New(stock), ops[..k]), ops[k], stock)
    ensures var s, t := New(stock), Run(New(stock), ops[..k + 1]);
            && s.palgen == 0 && LookOf(s) == Look(Identity(), Opaque(), None, stock)
            && t.palgen == 0 && LookOf(t) == Look(Identity(), Opaque(), None, t.wireBase)
            && t.wireBase == Run(New(stock), ops[..k]).wireBase
  {
    hide Run, Valid, Step;
    var r := Run(New(stock), ops[..k]);
    RunStep(New(stock), ops, k);
    StepKeeps(r, ops[k]);
    ResetForgets(r, ops[k], stock);
    OnlySwapsMoveBase(r, ops[k]);
  }

  /** The bake that is hot under an id answers for the next state of that id. */
  lemma HotStays(spr: Sprite, s: State, t: State, offHeap: bool)
    requires ValidSprite(spr) && Valid(s) && Valid(t) && s.palgen == t.palgen
    ensures SprReady(SprReady(Empty(), spr, s, 1, 0, offHeap), spr, t, 1, 0, offHeap).hot.value.1.pixels
            == BakeUnder(spr, LookOf(s), 1, 0)
  {
    hide BakeUnder, Valid;
  }

  /** Under the identity an index is its base's word. */
  lemma BlankLut(base: seq<nat>)
    requires |base| == 64
    ensures var l := Look(Identity(), Opaque(), None, base); WellFormed(l) && Lut(l) == base
  {
    var l := Look(Identity(), Opaque(), None, base);
    assert forall i :: 0 <= i < 64 ==> Lut(l)[i] == base[i];
  }

  /** Where a reset forgot a palette, a dot stamped before the run keeps the stock table's word
      after it. */
  lemma ForgottenDot(stock: seq<nat>, ops: seq<Op>, offHeap: bool, k: nat, i: nat)
    requires |stock| == 64 && k < |ops| && ForgetsPalette(Run(New(stock), ops[..k]), ops[k], stock) && i < 64
    requires Nudge(stock[i]) != Run(New(stock), ops[..k]).wireBase[i]
    ensures Tints([Stamp(1, 0)] + TintAll(ops[..k + 1])) == ops[..k + 1]
    ensures !StampsDirect(stock, Dot(i), offHeap, [Stamp(1, 0)] + TintAll(ops[..k + 1]), 1, 0)
  {
    hide Run, Valid, Lut, BakeUnder, ForgetsPalette, Step, New, SprReady, Play, StampsDirect, Tints;
    var s, t := New(stock), Run(New(stock), ops[..k + 1]);
    ForgottenState(stock, ops, k);
    BlankLut(stock);
    BaseIsWhole(t);
    BlankLut(t.wireBase);
    var acts := [Stamp(1, 0)] + TintAll(ops[..k + 1]);
    TintsOnly(stock, Dot(i), offHeap, [Stamp(1, 0)], ops[..k + 1]);
    StampedFirst(stock, Dot(i), offHeap);
    assert [] + ops[..k + 1] == ops[..k + 1];
    PlayRuns(stock, Dot(i), offHeap, acts);
    DotBakes(LookOf(s), i);
    HotStays(Dot(i), s, t, offHeap);
    DotDiffers(stock, offHeap, acts, i, Nudge(stock[i]));
  }

  lemma ForgottenLoses(stock: seq<nat>, ops: seq<Op>, offHeap: bool, k: nat)
    requires |stock| == 64 && k < |ops| && ForgetsPalette(Run(New(stock), ops[..k]), ops[k], stock)
    requires Unseen(New(stock))
    ensures !AllStampsDirect(stock, ops, offHeap)
  {
    hide Run, Valid, New, Step, Lut, StampsDirect, Tints, AllStampsDirect;
    ForgottenState(stock, ops, k);
    BlankLut(stock);
    var base := Run(New(stock), ops[..k]).wireBase;
    BaseIsWhole(Run(New(stock), ops[..k]));
    var i :| 0 <= i < 64 && base[i] != stock[i];
    ForgottenDot(stock, ops, offHeap, k, i);
    OneLoses(stock, ops, offHeap, [Stamp(1, 0)] + TintAll(ops[..k + 1]), Dot(i), 1, 0);
  }

  lemma BaseIsWhole(s: State)
    requires Valid(s)
    ensures |s.wireBase| == 64
  {
  }

  lemma StampedFirst(stock: seq<nat>, spr: Sprite, offHeap: bool)
    requires |stock| == 64 && ValidSprite(spr)
    ensures Tints([Stamp(1, 0)]) == []
    ensures Play(stock, spr, offHeap, [Stamp(1, 0)]) == Scene(New(stock), SprReady(Empty(), spr, New(stock), 1, 0, offHeap))
  {
    assert [Stamp(1, 0)][..0] == [];
  }

  /** A run that does forget: a dot stamped in the stock table's first word, a cart palette, a
      remap, a frame's reset; stamped again it keeps the stock table's word. */
  lemma ForgetfulStamp(stock: seq<nat>, words: seq<nat>, offHeap: bool)
    requires |stock| == |words| == 64 && Nudge(stock[0]) != words[0] && words != stock
    ensures !StampsDirect(stock, Dot(0), offHeap,
                          [Stamp(1, 0), Tint(SetPalette(words)), Tint(Pal(1, 2)), Tint(Reset)], 1, 0)
  {
    hide StampsDirect, ForgetsPalette, Run;
    var ops := [SetPalette(words), Pal(1, 2), Reset];
    ForgetfulState(stock, words);
    ForgottenDot(stock, ops, offHeap, 2, 0);
    assert [Stamp(1, 0)] + TintAll(ops[..3]) == [Stamp(1, 0), Tint(SetPalette(words)), Tint(Pal(1, 2)), Tint(Reset)];
  }

  /** A base table without the key shows none. */
  lemma LutAvoidsKey(l: Look)
    requires WellFormed(l) && KEY !in l.base
    ensures KEY !in Lut(l) && KeyUnseen(Lut(l), l.palt)
  {
  }

  /** After any run, palette swaps included, the image's live off-heap buffers are
      exactly its variants', and each one dropped on the way was freed once. */
  lemma {:induction false} BuffersAreAccounted(stock: seq<nat>, spr: Sprite, offHeap: bool, acts: seq<Act>)
    requires |stock| == 64 && ValidSprite(spr)
    ensures Accounted(Play(stock, spr, offHeap, acts).c)
  {
    if acts != [] {
      var head := acts[..|acts| - 1];
      BuffersAreAccounted(stock, spr, offHeap, head);
      var p := Play(stock, spr, offHeap, head);
      match acts[|acts| - 1]
      case Tint(_) =>
      case Stamp(scale, flip) =>
        ReadyAccounts(p.c, BakeKey(AtLeastOne(scale), flip, p.s.palgen),
                      BakeUnder(spr, LookOf(p.s), AtLeastOne(scale), flip), offHeap);
    }
  }
}
