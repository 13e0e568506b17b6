/** Off-heap paint bakes on loan (device/device_canvas.py:84-251, 2034-2045, 2375-2393,
    2600-2620): rows of the glass lent to a lifetime, each held by one image, given back
    when the lifetime ends, the image's own view of it dropped before anything reads it. */
module Bakes {
  import opened Options

  /** A bake smaller than this stays on the gc heap. */
  const BAR: nat := 65536
  /** The most live bakes one lifetime may hold. */
  const MAX_LENT: nat := 4

  datatype Role = Layer | Bake | Scratch
  datatype Row = Row(role: Role, owner: nat, nbytes: nat)
  type Rows = map<nat, Row>

  /** What an image draws from: memory the register does not track, or the view of row `h`. */
  datatype Pixels = Untracked | View(h: nat)

  /** The loans of owner `o` in one role. */
  function InRole(rows: Rows, o: nat, role: Role): set<nat> {
    set h | h in rows && rows[h].owner == o && rows[h].role == role
  }

  function Lent(rows: Rows, o: nat): set<nat> { InRole(rows, o, Bake) }

  function Owned(rows: Rows, o: nat): set<nat> {
    set h | h in rows && rows[h].owner == o
  }

  function Without(rows: Rows, gone: set<nat>): (r: Rows)
    ensures forall h :: h in r <==> h in rows && h !in gone
    ensures forall h :: h in r ==> r[h] == rows[h]
  {
    map h | h in rows && h !in gone :: rows[h]
  }

  class PaintImage {
    /** The tag of the lifetime that gives its bakes back, if any. */
    const owner: Option<string>
    var bake: Option<nat>
    var rgbI: Option<Pixels>

    constructor (owner: Option<string>)
      ensures this.owner == owner && bake == None && rgbI == None
    {
      this.owner := owner;
      bake, rgbI := None, None;
    }
  }

  // ---- the books ----

  /** What an image holds and draws from. */
  datatype Holding = Holding(bake: Option<nat>, rgbI: Option<Pixels>)

  /** Everything at a moment: each image's holding, the list of those holding bakes, the
      live lifetimes, the glass's rows and the next handle. */
  datatype Books = Books(
    images: map<PaintImage, Holding>, baked: seq<PaintImage>,
    owners: map<string, nat>, rows: Rows, live: set<nat>, next: nat)

  ghost predicate Unique<T>(s: seq<T>) {
    forall i, j :: 0 <= i < j < |s| ==> s[i] != s[j]
  }

  ghost predicate Listed(b: Books) {
    && Unique(b.baked)
    && (forall img :: img in b.baked ==> img in b.images)
    && (forall img :: img in b.images ==> (img in b.baked <==> b.images[img].bake.Some?))
  }

  /** `h` is a bake of `img`'s own lifetime, big enough to be worth lending. */
  ghost predicate LentTo(b: Books, img: PaintImage, h: nat) {
    && img.owner.Some? && img.owner.value in b.owners && h in b.rows
    && b.rows[h].role == Bake && b.rows[h].owner == b.owners[img.owner.value] && b.rows[h].nbytes >= BAR
  }

  ghost predicate HasHolder(b: Books, h: nat) {
    exists img :: img in b.images && b.images[img].bake == Some(h)
  }

  /** One holder to a bake row, and none without. */
  ghost predicate Matched(b: Books) {
    && (forall a, c :: a in b.images && c in b.images && a != c && b.images[a].bake.Some? ==>
          b.images[a].bake != b.images[c].bake)
    && (forall h :: h in b.rows && b.rows[h].role == Bake ==> HasHolder(b, h))
  }

  ghost predicate Glassy(b: Books) {
    && b.next > 0
    && (forall h :: h in b.rows ==> h < b.next && (b.rows[h].owner == 0 || b.rows[h].owner in b.live))
    && (forall o :: o in b.live ==> 0 < o < b.next)
  }

  /** Each tag's lifetime is its own, live, and within its bound. */
  ghost predicate Bounded(b: Books) {
    && Glassy(b)
    && (forall t :: t in b.owners ==> b.owners[t] in b.live && |Lent(b.rows, b.owners[t])| <= MAX_LENT)
    && (forall t, u :: t in b.owners && u in b.owners && t != u ==> b.owners[t] != b.owners[u])
  }

  /** The register is right about what is lent, to whom, and who holds it. */
  ghost predicate Sound(b: Books) {
    && Listed(b) && Matched(b) && Bounded(b)
    && forall img :: img in b.images && b.images[img].bake.Some? ==> LentTo(b, img, b.images[img].bake.value)
  }

  /** `img` draws from no row but the bake it holds. */
  ghost predicate DrawsOwn(x: Holding) {
    x.rgbI.Some? && x.rgbI.value.View? ==> x.bake == Some(x.rgbI.value.h)
  }

  ghost predicate AllDrawOwn(b: Books) {
    forall img :: img in b.images ==> DrawsOwn(b.images[img])
  }

  ghost predicate Valid(b: Books) { Sound(b) && AllDrawOwn(b) }

  /** `img` draws from a row that has gone. */
  predicate Stale(b: Books, img: PaintImage)
    requires img in b.images
  {
    var x := b.images[img].rgbI;
    x.Some? && x.value.View? && x.value.h !in b.rows
  }

  /** Nothing stale is drawn from. */
  lemma NeverStale(b: Books, img: PaintImage)
    requires Valid(b) && img in b.images
    ensures !Stale(b, img)
  {
    assert DrawsOwn(b.images[img]);
  }

  // ---- the sweep ----

  /** Between rows going and the sweep: what is live is lent as it should be. */
  ghost predicate Unswept(b: Books) {
    && Listed(b) && Matched(b) && Bounded(b) && AllDrawOwn(b)
    && forall img :: img in b.images && b.images[img].bake.Some? && b.images[img].bake.value in b.rows ==>
         LentTo(b, img, b.images[img].bake.value)
  }

  function Forgotten(x: Holding): Holding {
    Holding(None, if x.bake.Some? && x.rgbI == Some(View(x.bake.value)) then None else x.rgbI)
  }

  function SweptHolding(x: Holding, rows: Rows): Holding {
    if x.bake.Some? && x.bake.value !in rows then Forgotten(x) else x
  }

  function SweepImages(m: map<PaintImage, Holding>, rows: Rows): (r: map<PaintImage, Holding>)
    ensures r.Keys == m.Keys
  {
    map img | img in m :: SweptHolding(m[img], rows)
  }

  predicate Lives(img: PaintImage, m: map<PaintImage, Holding>, rows: Rows) {
    img in m && m[img].bake.Some? && m[img].bake.value in rows
  }

  /** The images of a list whose bakes are live. */
  function Living(s: seq<PaintImage>, m: map<PaintImage, Holding>, rows: Rows): (r: seq<PaintImage>)
    ensures forall img :: img in r ==> img in s && Lives(img, m, rows)
    ensures forall img :: img in s && Lives(img, m, rows) ==> img in r
  {
    if s == [] then []
    else
      var last := s[|s| - 1];
      Living(s[..|s| - 1], m, rows) + if Lives(last, m, rows) then [last] else []
  }

  /** The books swept: every image whose row has gone forgets it and leaves the list. */
  function Swept(b: Books): Books {
    b.(images := SweepImages(b.images, b.rows), baked := Living(b.baked, b.images, b.rows))
  }

  lemma {:induction false} LivingUnique(s: seq<PaintImage>, m: map<PaintImage, Holding>, rows: Rows)
    requires Unique(s)
    ensures Unique(Living(s, m, rows))
  {
    if s != [] {
      LivingUnique(s[..|s| - 1], m, rows);
    }
  }

  lemma SweepListed(b: Books)
    requires Unswept(b)
    ensures Listed(Swept(b)) && AllDrawOwn(Swept(b))
  {
    LivingUnique(b.baked, b.images, b.rows);
  }

  lemma SweepMatched(b: Books)
    requires Unswept(b)
    ensures Matched(Swept(b))
  {
    var r := Swept(b);
    forall h | h in r.rows && r.rows[h].role == Bake ensures HasHolder(r, h) {
      assert HasHolder(b, h);
      var img :| img in b.images && b.images[img].bake == Some(h);
      assert r.images[img].bake == Some(h);
    }
  }

  /** A sweep makes the books valid. */
  lemma SweepKeeps(b: Books)
    requires Unswept(b)
    ensures Valid(Swept(b))
  {
    SweepListed(b);
    SweepMatched(b);
    var r := Swept(b);
    forall img | img in r.images && r.images[img].bake.Some? ensures LentTo(r, img, r.images[img].bake.value) {
      assert b.images[img].bake == r.images[img].bake;
    }
  }

  // ---- lifetimes ending ----

  /** Rows gone from the books, the images not yet told. */
  function Reclaimed(b: Books, gone: set<nat>): Books {
    b.(rows := Without(b.rows, gone))
  }

  /** `_release_bakes`: the lifetime's bakes go back, and nothing else of its. */
  function Released(b: Books, tag: string): Books {
    if tag in b.owners then Swept(Reclaimed(b, Lent(b.rows, b.owners[tag]))) else b
  }

  /** The books with a lifetime struck off, its rows gone. */
  function Closed(b: Books, tag: string): Books
    requires tag in b.owners
  {
    Reclaimed(b, Owned(b.rows, b.owners[tag])).(owners := b.owners - {tag}, live := b.live - {b.owners[tag]})
  }

  /** `_owner_done`: every loan of the lifetime's, and the lifetime. */
  function Done(b: Books, tag: string): Books {
    if tag in b.owners then Swept(Closed(b, tag)) else b
  }

  lemma Fewer<T>(a: set<T>, b: set<T>)
    requires a <= b
    ensures |a| <= |b|
    decreases b
  {
    if a != b {
      var x :| x in b && x !in a;
      Fewer(a, b - {x});
    }
  }

  lemma FewerLent(rows: Rows, gone: set<nat>, o: nat)
    ensures |Lent(Without(rows, gone), o)| <= |Lent(rows, o)|
  {
    Fewer(Lent(Without(rows, gone), o), Lent(rows, o));
  }

  lemma ReclaimUnswept(b: Books, gone: set<nat>)
    requires Valid(b)
    ensures Unswept(Reclaimed(b, gone))
  {
    var r := Reclaimed(b, gone);
    forall t | t in r.owners ensures |Lent(r.rows, r.owners[t])| <= MAX_LENT {
      FewerLent(b.rows, gone, r.owners[t]);
    }
    forall h | h in r.rows && r.rows[h].role == Bake ensures HasHolder(r, h) {
      assert HasHolder(b, h);
    }
    hide Lent, Unique;
  }

  lemma ClosedBounded(b: Books, tag: string)
    requires tag in b.owners && Bounded(b) && Bounded(Reclaimed(b, Owned(b.rows, b.owners[tag])))
    ensures Bounded(Closed(b, tag))
  {
    hide Lent;
  }

  lemma ClosedMatched(b: Books, tag: string)
    requires tag in b.owners && Matched(Reclaimed(b, Owned(b.rows, b.owners[tag])))
    ensures Matched(Closed(b, tag))
  {
    var r, d := Reclaimed(b, Owned(b.rows, b.owners[tag])), Closed(b, tag);
    forall h | h in d.rows && d.rows[h].role == Bake ensures HasHolder(d, h) {
      assert HasHolder(r, h);
    }
  }

  lemma DoneUnswept(b: Books, tag: string)
    requires Valid(b) && tag in b.owners
    ensures Unswept(Closed(b, tag))
  {
    ReclaimUnswept(b, Owned(b.rows, b.owners[tag]));
    ClosedBounded(b, tag);
    ClosedMatched(b, tag);
    hide Unique, Lent, Bounded, Matched;
  }

  /** What a lifetime's end leaves of an image: one of its own loses its bake and whatever
      it drew from that; any other is as it was. */
  ghost predicate EndsOnly(b: Books, r: Books, tag: string) {
    && r.images.Keys == b.images.Keys
    && forall img :: img in b.images ==>
         r.images[img] == if img.owner == Some(tag) then Forgotten(b.images[img]) else b.images[img]
  }

  lemma ReleasedEnds(b: Books, tag: string)
    requires Valid(b)
    ensures Valid(Released(b, tag)) && EndsOnly(b, Released(b, tag), tag)
    ensures Released(b, tag).rows == Without(b.rows, if tag in b.owners then Lent(b.rows, b.owners[tag]) else {})
  {
    if tag in b.owners {
      var gone := Lent(b.rows, b.owners[tag]);
      ReclaimUnswept(b, gone);
      SweepKeeps(Reclaimed(b, gone));
      SweptEnds(b, tag, gone);
    } else {
      NothingOf(b, tag);
    }
  }

  lemma NothingOf(b: Books, tag: string)
    requires Valid(b) && tag !in b.owners
    ensures EndsOnly(b, b, tag) && Without(b.rows, {}) == b.rows
  {
    forall img | img in b.images && img.owner == Some(tag) ensures Forgotten(b.images[img]) == b.images[img] {
      assert !b.images[img].bake.Some?;
    }
  }

  lemma SweptEnds(b: Books, tag: string, gone: set<nat>)
    requires Valid(b) && tag in b.owners && Lent(b.rows, b.owners[tag]) <= gone <= Owned(b.rows, b.owners[tag])
    ensures SweepImages(b.images, Without(b.rows, gone)).Keys == b.images.Keys
    ensures forall img :: img in b.images ==>
              SweepImages(b.images, Without(b.rows, gone))[img]
              == if img.owner == Some(tag) then Forgotten(b.images[img]) else b.images[img]
  {
    forall img | img in b.images
      ensures SweptHolding(b.images[img], Without(b.rows, gone))
              == if img.owner == Some(tag) then Forgotten(b.images[img]) else b.images[img]
    {
      assert DrawsOwn(b.images[img]);
      if b.images[img].bake.Some? {
        assert LentTo(b, img, b.images[img].bake.value);
      }
    }
  }

  lemma DoneEnds(b: Books, tag: string)
    requires Valid(b)
    ensures Valid(Done(b, tag)) && EndsOnly(b, Done(b, tag), tag) && tag !in Done(b, tag).owners
    ensures Done(b, tag).rows == Without(b.rows, if tag in b.owners then Owned(b.rows, b.owners[tag]) else {})
  {
    if tag in b.owners {
      DoneUnswept(b, tag);
      SweepKeeps(Closed(b, tag));
      SweptEnds(b, tag, Owned(b.rows, b.owners[tag]));
    } else {
      NothingOf(b, tag);
    }
  }

  // ---- a bake asked for ----

  function Removed<T(==)>(s: seq<T>, x: T): (r: seq<T>)
    ensures forall y :: y in r ==> y in s
    ensures x !in s ==> r == s
  {
    if s == [] then [] else if s[0] == x then s[1..] else [s[0]] + Removed(s[1..], x)
  }

  lemma FoundAhead<T>(s: seq<T>, i: nat, x: T)
    requires i <= |s| && x in s[i..]
    ensures i < |s| && s[0..] == s && s[..0] == []
  {
  }

  lemma RemovedStep<T>(s: seq<T>, i: nat, x: T)
    requires i < |s| && x in s[i..]
    ensures s[i] == x ==> s[..i] + Removed(s[i..], x) == s[..i] + s[i + 1..]
    ensures s[i] != x ==> s[..i] + Removed(s[i..], x) == s[..i + 1] + Removed(s[i + 1..], x)
                          && i + 1 < |s| && x in s[i + 1..]
  {
    assert s[i..][1..] == s[i + 1..] && s[i..][0] == s[i];
    assert s[i..] == [s[i]] + s[i + 1..];
    if s[i] != x {
      assert s[..i] + ([s[i]] + Removed(s[i + 1..], x)) == s[..i + 1] + Removed(s[i + 1..], x);
    }
  }

  lemma UniqueTail<T>(s: seq<T>)
    requires Unique(s) && s != []
    ensures Unique(s[1..]) && s[0] !in s[1..]
  {
  }

  lemma UniqueCons<T>(x: T, s: seq<T>)
    requires Unique(s) && x !in s
    ensures Unique([x] + s)
  {
  }

  lemma {:induction false} RemovedIsOut<T>(s: seq<T>, x: T)
    requires Unique(s)
    ensures Unique(Removed(s, x)) && x !in Removed(s, x)
    ensures forall y :: y in s && y != x ==> y in Removed(s, x)
  {
    if s != [] {
      UniqueTail(s);
      hide Unique;
      if s[0] != x {
        RemovedIsOut(s[1..], x);
        UniqueCons(s[0], Removed(s[1..], x));
      }
    }
  }

  /** A bake of the wrong size given back. What the image draws from is not touched. */
  function GivenBack(b: Books, img: PaintImage): Books
    requires img in b.images
  {
    var x := b.images[img];
    if x.bake.Some? then
      b.(rows := Without(b.rows, {x.bake.value}), images := b.images[img := x.(bake := None)], baked := Removed(b.baked, img))
    else b
  }

  /** The tag's live lifetime, minted on its first loan. */
  function Opened(b: Books, tag: string): (r: Books)
    ensures tag in r.owners && r.images == b.images && r.baked == b.baked && r.rows == b.rows
  {
    if tag in b.owners then b
    else b.(owners := b.owners[tag := b.next], live := b.live + {b.next}, next := b.next + 1)
  }

  function Granted(b: Books, img: PaintImage, nbytes: nat, tag: string): Books
    requires img in b.images && tag in b.owners
  {
    b.(rows := b.rows[b.next := Row(Bake, b.owners[tag], nbytes)], next := b.next + 1,
       images := b.images[img := b.images[img].(bake := Some(b.next))], baked := b.baked + [img])
  }

  /** Whether the image's bake is live and of this size. */
  predicate Fits(b: Books, img: PaintImage, nbytes: nat)
    requires img in b.images
  {
    var h := b.images[img].bake;
    h.Some? && h.value in b.rows && b.rows[h.value].nbytes == nbytes
  }

  /** `_paint_bake_buf`: the buffer, or None where memory is refused. */
  function Asked(b: Books, img: PaintImage, nbytes: nat, refused: bool): (Books, Option<Pixels>)
    requires img in b.images
  {
    var plain := if refused then None else Some(Untracked);
    if img.owner.None? || nbytes < BAR then (b, plain)
    else if Fits(b, img, nbytes) then (b, Some(View(b.images[img].bake.value)))
    else
      var c := Opened(GivenBack(b, img), img.owner.value);
      if |Lent(c.rows, c.owners[img.owner.value])| >= MAX_LENT then (c, plain)
      else if refused then (c, None)
      else (Granted(c, img, nbytes, img.owner.value), Some(View(c.next)))
  }

  lemma GivenBackSound(b: Books, img: PaintImage)
    requires Sound(b) && img in b.images
    ensures Sound(GivenBack(b, img)) && GivenBack(b, img).images[img].bake == None
  {
    if b.images[img].bake.Some? {
      GivenBackListed(b, img);
      GivenBackMatched(b, img);
      GivenBackBounded(b, img);
      hide Listed, Matched, Bounded, Removed;
      var r := GivenBack(b, img);
      forall i | i in r.images && r.images[i].bake.Some? ensures LentTo(r, i, r.images[i].bake.value) {
        assert b.images[i].bake == r.images[i].bake && i != img;
        assert b.images[i].bake != b.images[img].bake by { assert Matched(b); OneHolder(b, i, img); }
      }
    }
  }

  lemma OneHolder(b: Books, i: PaintImage, j: PaintImage)
    requires Matched(b) && i in b.images && j in b.images && i != j && b.images[i].bake.Some?
    ensures b.images[i].bake != b.images[j].bake
  {
  }

  lemma GivenBackListed(b: Books, img: PaintImage)
    requires Listed(b) && img in b.images && b.images[img].bake.Some?
    ensures Listed(GivenBack(b, img))
  {
    RemovedIsOut(b.baked, img);
  }

  lemma GivenBackMatched(b: Books, img: PaintImage)
    requires Matched(b) && img in b.images && b.images[img].bake.Some?
    ensures Matched(GivenBack(b, img))
  {
    var r := GivenBack(b, img);
    forall h | h in r.rows && r.rows[h].role == Bake ensures HasHolder(r, h) {
      assert HasHolder(b, h);
      var i :| i in b.images && b.images[i].bake == Some(h);
      assert r.images[i].bake == Some(h);
    }
  }

  lemma GivenBackBounded(b: Books, img: PaintImage)
    requires Bounded(b) && img in b.images && b.images[img].bake.Some?
    ensures Bounded(GivenBack(b, img))
  {
    var gone := {b.images[img].bake.value};
    forall t | t in b.owners ensures |Lent(Without(b.rows, gone), b.owners[t])| <= MAX_LENT {
      FewerLent(b.rows, gone, b.owners[t]);
    }
    hide Lent;
  }

  /** Nobody borrows under a handle not yet minted. */
  lemma OpenedBounded(b: Books, tag: string)
    requires Bounded(b)
    ensures Bounded(Opened(b, tag))
  {
    if tag !in b.owners {
      assert Lent(b.rows, b.next) == {};
      hide Lent;
    }
  }

  lemma OpenedMatched(b: Books, tag: string)
    requires Matched(b)
    ensures Matched(Opened(b, tag))
  {
    var r := Opened(b, tag);
    forall h | h in r.rows && r.rows[h].role == Bake ensures HasHolder(r, h) {
      assert HasHolder(b, h);
    }
  }

  lemma OpenedSound(b: Books, tag: string)
    requires Sound(b)
    ensures Sound(Opened(b, tag))
  {
    OpenedBounded(b, tag);
    OpenedMatched(b, tag);
    hide Bounded, Matched, Unique;
    var r := Opened(b, tag);
    forall img | img in r.images && r.images[img].bake.Some? ensures LentTo(r, img, r.images[img].bake.value) {
      assert LentTo(b, img, b.images[img].bake.value);
    }
  }

  lemma GrantedSound(b: Books, img: PaintImage, nbytes: nat, tag: string)
    requires Sound(b) && img in b.images && b.images[img].bake.None? && img.owner == Some(tag) && tag in b.owners
    requires |Lent(b.rows, b.owners[tag])| < MAX_LENT && nbytes >= BAR
    ensures Sound(Granted(b, img, nbytes, tag))
  {
    GrantedMatched(b, img, nbytes, tag);
    GrantedBounded(b, img, nbytes, tag);
    hide Matched, Bounded;
    var r := Granted(b, img, nbytes, tag);
    assert Glassy(b) by { BoundedGlassy(b); }
    forall i | i in r.images && r.images[i].bake.Some? ensures LentTo(r, i, r.images[i].bake.value) {
      if i != img {
        assert LentTo(b, i, b.images[i].bake.value);
      }
    }
  }

  lemma BoundedGlassy(b: Books)
    requires Bounded(b)
    ensures Glassy(b)
  {
  }

  lemma GrantedMatched(b: Books, img: PaintImage, nbytes: nat, tag: string)
    requires Sound(b) && img in b.images && b.images[img].bake.None? && tag in b.owners
    ensures Matched(Granted(b, img, nbytes, tag))
  {
    var r := Granted(b, img, nbytes, tag);
    forall i | i in b.images && b.images[i].bake.Some? ensures b.images[i].bake.value < b.next {
      assert LentTo(b, i, b.images[i].bake.value);
    }
    forall h | h in r.rows && r.rows[h].role == Bake ensures HasHolder(r, h) {
      if h == b.next {
        assert r.images[img].bake == Some(h);
      } else {
        assert HasHolder(b, h);
        var i :| i in b.images && b.images[i].bake == Some(h);
        assert r.images[i].bake == Some(h);
      }
    }
  }

  lemma GrantedBounded(b: Books, img: PaintImage, nbytes: nat, tag: string)
    requires Bounded(b) && img in b.images && tag in b.owners && |Lent(b.rows, b.owners[tag])| < MAX_LENT
    ensures Bounded(Granted(b, img, nbytes, tag))
  {
    var r := Granted(b, img, nbytes, tag);
    forall t | t in b.owners ensures |Lent(r.rows, b.owners[t])| <= MAX_LENT {
      OneMoreLent(b.rows, b.next, b.owners[tag], nbytes, b.owners[t]);
    }
    hide Lent;
  }

  lemma OneMoreLent(rows: Rows, h: nat, o: nat, nbytes: nat, u: nat)
    requires h !in rows
    ensures |Lent(rows[h := Row(Bake, o, nbytes)], u)| == |Lent(rows, u)| + if u == o then 1 else 0
  {
    var now := Lent(rows[h := Row(Bake, o, nbytes)], u);
    if u == o {
      assert now == Lent(rows, u) + {h};
    } else {
      assert now == Lent(rows, u);
    }
  }

  /** The other bakes of the image's lifetime. */
  function Others(b: Books, img: PaintImage): set<nat>
    requires img in b.images
  {
    if img.owner.None? || img.owner.value !in b.owners then {}
    else Lent(b.rows, b.owners[img.owner.value]) - if b.images[img].bake.Some? then {b.images[img].bake.value} else {}
  }

  /** A request leaves the register right and every other image alone. A view it answers
      is of the bake the image now holds; a lifetime is lent to, for a request big enough,
      if and only if it has fewer than four other bakes. */
  ghost predicate Answered(b: Books, img: PaintImage, nbytes: nat, r: Books, buf: Option<Pixels>)
    requires img in b.images
  {
    && Sound(r) && img in r.images
    && r.images == b.images[img := b.images[img].(bake := r.images[img].bake)]
    && (buf.Some? && buf.value.View? ==> r.images[img].bake == Some(buf.value.h) && buf.value.h in r.rows
                                         && r.rows[buf.value.h].nbytes == nbytes)
    && (img.owner.Some? && nbytes >= 65536 && buf.Some? ==> (buf.value.View? <==> |Others(b, img)| < 4))
  }

  lemma AskedSound(b: Books, img: PaintImage, nbytes: nat, refused: bool)
    requires Valid(b) && img in b.images
    ensures Answered(b, img, nbytes, Asked(b, img, nbytes, refused).0, Asked(b, img, nbytes, refused).1)
  {
    if img.owner.Some? && nbytes >= BAR {
      if Fits(b, img, nbytes) {
        FittingCounted(b, img, nbytes);
        hide Sound, Others;
      } else {
        FreshAsked(b, img, nbytes, refused);
      }
    } else {
      hide Sound, Others;
    }
  }

  /** What a request comes to: too small a one, or one of no lifetime's, leaves the register alone;
      a bake of that size is used again; any other goes back, and at most one row is new. No
      buffer is answered if and only if memory is refused where it was needed. */
  lemma AskedIs(b: Books, img: PaintImage, nbytes: nat, refused: bool)
    requires Valid(b) && img in b.images
    ensures var (r, buf) := Asked(b, img, nbytes, refused);
            var h := b.images[img].bake;
            if img.owner.None? || nbytes < 65536 then r == b && buf == if refused then None else Some(Untracked)
            else if h.Some? && b.rows[h.value].nbytes == nbytes then r == b && buf == Some(View(h.value))
            else
              && (buf.None? <==> refused) && (h.Some? ==> h.value !in r.rows)
              && (forall i :: i in b.rows && h != Some(i) ==> i in r.rows && r.rows[i] == b.rows[i])
              && (forall i :: i in r.rows && i !in b.rows ==> buf == Some(View(i)))
  {
    var h := b.images[img].bake;
    assert h.Some? ==> LentTo(b, img, h.value);
    if img.owner.Some? && nbytes >= 65536 && !Fits(b, img, nbytes) {
      var tag := img.owner.value;
      BoundedGlassy(b);
      GivenBackRows(b, img);
      var g := GivenBack(b, img);
      var c := Opened(g, tag);
      hide GivenBack, Opened, Lent, Sound, Fits;
      assert b.next <= c.next && c.rows == g.rows;
    }
    hide Sound, Lent, GivenBack, Opened;
  }

  lemma GivenBackRows(b: Books, img: PaintImage)
    requires img in b.images
    ensures GivenBack(b, img).rows == Without(b.rows, if b.images[img].bake.Some? then {b.images[img].bake.value} else {})
    ensures forall tag :: Opened(GivenBack(b, img), tag).next >= b.next
  {
  }

  /** The image then draws from what was answered, and from what it did where nothing was. */
  lemma DrawsFromAnswer(b: Books, img: PaintImage, nbytes: nat, refused: bool)
    requires Valid(b) && img in b.images
    ensures var (r, buf) := Asked(b, img, nbytes, refused);
            var s := Step(b, Backdrop(img, nbytes, refused));
            && img in s.images && s.images[img].rgbI == (if buf.Some? then buf else b.images[img].rgbI)
            && s == r.(images := s.images) && s.images[img].bake == r.images[img].bake
            && forall i :: i in s.images && i != img ==> i in b.images && s.images[i] == b.images[i]
    ensures Step(b, Paint(img, nbytes, refused))
            == if b.images[img].rgbI.None? then Step(b, Backdrop(img, nbytes, refused)) else b
  {
    AskedSound(b, img, nbytes, refused);
    hide Sound, Others, Asked;
  }

  lemma FreshAsked(b: Books, img: PaintImage, nbytes: nat, refused: bool)
    requires Valid(b) && img in b.images && img.owner.Some? && nbytes >= BAR && !Fits(b, img, nbytes)
    ensures Answered(b, img, nbytes, Asked(b, img, nbytes, refused).0, Asked(b, img, nbytes, refused).1)
  {
    var tag := img.owner.value;
    GivenBackSound(b, img);
    OpenedSound(GivenBack(b, img), tag);
    OthersCounted(b, img);
    GivenBackTouches(b, img);
    var c := Opened(GivenBack(b, img), tag);
    if |Others(b, img)| >= MAX_LENT || refused {
      hide Sound, Lent, Others, GivenBack, Opened, Fits;
    } else {
      assert Asked(b, img, nbytes, refused) == (Granted(c, img, nbytes, tag), Some(View(c.next)));
      hide *;
      assert img.owner == Some(tag);
      GrantedSound(c, img, nbytes, tag);
      GrantedAnswers(b, img, nbytes, c, tag);
    }
  }

  lemma GrantedAnswers(b: Books, img: PaintImage, nbytes: nat, c: Books, tag: string)
    requires img in b.images && c.images == b.images[img := b.images[img].(bake := None)] && tag in c.owners
    requires |Others(b, img)| < MAX_LENT && Sound(Granted(c, img, nbytes, tag))
    ensures Answered(b, img, nbytes, Granted(c, img, nbytes, tag), Some(View(c.next)))
  {
    hide Sound, Others;
  }

  lemma GivenBackTouches(b: Books, img: PaintImage)
    requires img in b.images
    ensures GivenBack(b, img).images == b.images[img := b.images[img].(bake := None)]
  {
  }

  lemma OthersCounted(b: Books, img: PaintImage)
    requires Valid(b) && img in b.images && img.owner.Some?
    ensures var c := Opened(GivenBack(b, img), img.owner.value);
            Lent(c.rows, c.owners[img.owner.value]) == Others(b, img)
  {
    assert b.images[img].bake.Some? ==> LentTo(b, img, b.images[img].bake.value);
  }

  lemma FittingCounted(b: Books, img: PaintImage, nbytes: nat)
    requires Valid(b) && img in b.images && img.owner.Some? && Fits(b, img, nbytes)
    ensures |Others(b, img)| < MAX_LENT
  {
    var h := b.images[img].bake.value;
    assert LentTo(b, img, h);
    var all := Lent(b.rows, b.owners[img.owner.value]);
    assert h in all;
    assert all == Others(b, img) + {h};
  }

  // ---- whole runs ----

  datatype Op =
    | NewImage(img: PaintImage)
    /** A draw of an image that has nothing to draw from: `_bake_indices`. */
    | Paint(img: PaintImage, nbytes: nat, refused: bool)
    /** A backdrop drawn into the image's bake, whatever it drew from before. */
    | Backdrop(img: PaintImage, nbytes: nat, refused: bool)
    /** A stroke: the next draw bakes again. */
    | Touch(img: PaintImage)
    | Release(tag: string)
    | End(tag: string)
    | LendLayer(tag: string, nbytes: nat)

  function DrawFrom(b: Books, img: PaintImage, buf: Option<Pixels>): Books
    requires img in b.images
  {
    b.(images := b.images[img := b.images[img].(rgbI := buf)])
  }

  /** A request, and the image drawing from what it answers; nothing to draw from means an
      error went to the caller. */
  function Baked(b: Books, img: PaintImage, nbytes: nat, refused: bool): Books
    requires img in b.images
  {
    var (r, buf) := Asked(b, img, nbytes, refused);
    if buf.Some? && img in r.images then DrawFrom(r, img, buf) else r
  }

  function LayerLent(b: Books, tag: string, nbytes: nat): Books {
    var c := Opened(b, tag);
    c.(rows := c.rows[c.next := Row(Layer, c.owners[tag], nbytes)], next := c.next + 1)
  }

  function Step(b: Books, op: Op): Books {
    match op
    case NewImage(img) => if img in b.images then b else b.(images := b.images[img := Holding(None, None)])
    case Paint(img, nbytes, refused) =>
      if img in b.images && b.images[img].rgbI.None? then Baked(b, img, nbytes, refused) else b
    case Backdrop(img, nbytes, refused) => if img in b.images then Baked(b, img, nbytes, refused) else b
    case Touch(img) => if img in b.images then DrawFrom(b, img, None) else b
    case Release(tag) => Released(b, tag)
    case End(tag) => Done(b, tag)
    case LendLayer(tag, nbytes) => LayerLent(b, tag, nbytes)
  }

  /** A backdrop that needs a bake of another size than the one its image draws from. */
  predicate Resizes(b: Books, img: PaintImage, nbytes: nat) {
    && img in b.images && img.owner.Some? && nbytes >= BAR && !Fits(b, img, nbytes)
    && b.images[img].rgbI.Some? && b.images[img].rgbI.value.View?
  }

  /** One that is refused the memory: the old bake has already gone back. */
  predicate LosesView(b: Books, op: Op) { op.Backdrop? && op.refused && Resizes(b, op.img, op.nbytes) }

  lemma BakedExactly(b: Books, img: PaintImage, nbytes: nat, refused: bool)
    requires Valid(b) && img in b.images
    ensures var r := Baked(b, img, nbytes, refused);
            && Sound(r) && img in r.images
            && (AllDrawOwn(r) <==> !LosesView(b, Backdrop(img, nbytes, refused)))
            && (LosesView(b, Backdrop(img, nbytes, refused)) ==> Stale(r, img))
  {
    AskedSound(b, img, nbytes, refused);
    var (c, buf) := Asked(b, img, nbytes, refused);
    if buf.Some? {
      FitsOrNot(b, img, nbytes, refused);
      hide Sound, Others, Asked, LosesView;
      DrawFromSound(c, img, buf);
      DrawnOwn(b, img, c, buf);
    } else {
      assert DrawsOwn(b.images[img]);
      RefusedHolds(b, img, nbytes);
      hide Sound, Others, Asked, GivenBack, Fits;
      OthersOwn(b, img, c);
    }
  }

  /** The books but for what images draw from, and for images holding nothing. */
  ghost predicate SameLoans(b: Books, r: Books) {
    && r == b.(images := r.images) && b.images.Keys <= r.images.Keys
    && forall img :: img in r.images ==> r.images[img].bake == if img in b.images then b.images[img].bake else None
  }

  lemma SameLoansMatched(b: Books, r: Books)
    requires Matched(b) && SameLoans(b, r)
    ensures Matched(r)
  {
    forall h | h in r.rows && r.rows[h].role == Bake ensures HasHolder(r, h) {
      assert HasHolder(b, h);
      var i :| i in b.images && b.images[i].bake == Some(h);
      assert r.images[i].bake == Some(h);
    }
  }

  lemma SameLoansBounded(b: Books, r: Books)
    requires Bounded(b) && SameLoans(b, r)
    ensures Bounded(r)
  {
    hide Lent;
  }

  lemma SameLoansSound(b: Books, r: Books)
    requires Sound(b) && SameLoans(b, r)
    ensures Sound(r)
  {
    SameLoansMatched(b, r);
    SameLoansBounded(b, r);
    hide Matched, Bounded, Unique;
    forall img | img in r.images && r.images[img].bake.Some? ensures LentTo(r, img, r.images[img].bake.value) {
      assert LentTo(b, img, b.images[img].bake.value);
    }
  }

  lemma DrawFromSound(b: Books, img: PaintImage, buf: Option<Pixels>)
    requires Sound(b) && img in b.images
    ensures Sound(DrawFrom(b, img, buf))
  {
    hide Sound;
    SameLoansSound(b, DrawFrom(b, img, buf));
  }

  lemma FitsOrNot(b: Books, img: PaintImage, nbytes: nat, refused: bool)
    requires img in b.images && Asked(b, img, nbytes, refused).1.Some?
    ensures !LosesView(b, Backdrop(img, nbytes, refused))
  {
    hide Fits, GivenBack, Opened, Lent;
  }

  lemma DrawnOwn(b: Books, img: PaintImage, c: Books, buf: Option<Pixels>)
    requires AllDrawOwn(b) && img in b.images && img in c.images && buf.Some?
    requires c.images == b.images[img := b.images[img].(bake := c.images[img].bake)]
    requires buf.value.View? ==> c.images[img].bake == Some(buf.value.h)
    ensures AllDrawOwn(DrawFrom(c, img, buf))
  {
  }

  /** A refusal: the bake held, unless it fitted or none was needed, has gone back. */
  lemma RefusedHolds(b: Books, img: PaintImage, nbytes: nat)
    requires Valid(b) && img in b.images
    ensures var (c, buf) := Asked(b, img, nbytes, true);
            buf.None? ==>
              if img.owner.Some? && nbytes >= BAR then
                && img in c.images && c.images[img].bake == None && !Fits(b, img, nbytes)
                && (b.images[img].bake.Some? ==> b.images[img].bake.value !in c.rows)
              else c == b
  {
    hide Sound, Lent;
  }

  lemma OthersOwn(b: Books, img: PaintImage, c: Books)
    requires AllDrawOwn(b) && img in b.images && img in c.images
    requires c.images == b.images[img := b.images[img].(bake := c.images[img].bake)]
    ensures AllDrawOwn(c) <==> DrawsOwn(c.images[img])
  {
  }

  lemma LayerBounded(c: Books, o: nat, nbytes: nat)
    requires Bounded(c) && o in c.live
    ensures Bounded(c.(rows := c.rows[c.next := Row(Layer, o, nbytes)], next := c.next + 1))
  {
    BoundedGlassy(c);
    var rows := c.rows[c.next := Row(Layer, o, nbytes)];
    forall t | t in c.owners ensures |Lent(rows, c.owners[t])| <= MAX_LENT {
      assert Lent(rows, c.owners[t]) == Lent(c.rows, c.owners[t]);
    }
    hide Lent;
  }

  lemma LayerMatched(c: Books, o: nat, nbytes: nat)
    requires Matched(c) && c.next !in c.rows
    ensures Matched(c.(rows := c.rows[c.next := Row(Layer, o, nbytes)], next := c.next + 1))
  {
    var r := c.(rows := c.rows[c.next := Row(Layer, o, nbytes)], next := c.next + 1);
    forall h | h in r.rows && r.rows[h].role == Bake ensures HasHolder(r, h) {
      assert HasHolder(c, h);
    }
  }

  lemma OwnerLive(c: Books, tag: string)
    requires Bounded(c) && tag in c.owners
    ensures c.owners[tag] in c.live && c.next !in c.rows
  {
    hide Lent;
  }

  lemma LayerLentSound(b: Books, tag: string, nbytes: nat)
    requires Valid(b)
    ensures Valid(LayerLent(b, tag, nbytes))
  {
    hide Opened, Lent, Matched, Bounded;
    OpenedSound(b, tag);
    var c := Opened(b, tag);
    OwnerLive(c, tag);
    LayerBounded(c, c.owners[tag], nbytes);
    LayerMatched(c, c.owners[tag], nbytes);
    hide Unique;
    var r := LayerLent(b, tag, nbytes);
    forall img | img in r.images && r.images[img].bake.Some? ensures LentTo(r, img, r.images[img].bake.value) {
      assert LentTo(c, img, c.images[img].bake.value);
    }
  }

  lemma NewImageValid(b: Books, img: PaintImage)
    requires Valid(b)
    ensures Valid(Step(b, NewImage(img)))
  {
    hide Sound;
    SameLoansSound(b, Step(b, NewImage(img)));
  }

  /** From valid books every operation leaves the register right, and leaves no image a
      stale view if and only if it is not a backdrop refused a bake of another size than
      the one it draws from. */
  lemma StepExactly(b: Books, op: Op)
    requires Valid(b)
    ensures Sound(Step(b, op))
    ensures Valid(Step(b, op)) <==> !LosesView(b, op)
    ensures LosesView(b, op) ==> op.img in Step(b, op).images && Stale(Step(b, op), op.img)
  {
    hide Sound, AllDrawOwn, Asked, Opened, Swept;
    match op
    case NewImage(img) => NewImageValid(b, img);
    case Paint(img, nbytes, refused) =>
      if img in b.images && b.images[img].rgbI.None? {
        BakedExactly(b, img, nbytes, refused);
      }
    case Backdrop(img, nbytes, refused) =>
      if img in b.images {
        BakedExactly(b, img, nbytes, refused);
      }
    case Touch(img) =>
      if img in b.images {
        DrawFromSound(b, img, None);
        TouchedOwn(b, img);
      }
    case Release(tag) => ReleasedEnds(b, tag);
    case End(tag) => DoneEnds(b, tag);
    case LendLayer(tag, nbytes) => LayerLentSound(b, tag, nbytes);
  }

  /** So a caller can tell beforehand: a backdrop is safe however its request is answered if
      and only if it does not resize a bake its image draws from. */
  lemma SafeBackdropExactly(b: Books, img: PaintImage, nbytes: nat)
    requires Valid(b)
    ensures (forall refused: bool :: Valid(Step(b, Backdrop(img, nbytes, refused)))) <==> !Resizes(b, img, nbytes)
  {
    forall refused: bool
      ensures Valid(Step(b, Backdrop(img, nbytes, refused))) <==> !(refused && Resizes(b, img, nbytes))
    {
      StepExactly(b, Backdrop(img, nbytes, refused));
      hide Valid, Step, Resizes;
    }
    assert Resizes(b, img, nbytes) ==> !Valid(Step(b, Backdrop(img, nbytes, true)));
    hide Valid, Step, Resizes;
  }

  lemma TouchedOwn(b: Books, img: PaintImage)
    requires AllDrawOwn(b) && img in b.images
    ensures AllDrawOwn(DrawFrom(b, img, None))
  {
  }

  function Fresh(): Books { Books(map[], [], map[], map[], {}, 1) }

  function Run(ops: seq<Op>): Books {
    if ops == [] then Fresh() else Step(Run(ops[..|ops| - 1]), ops[|ops| - 1])
  }

  ghost predicate NeverLoses(ops: seq<Op>) {
    forall k :: 0 <= k < |ops| ==> !LosesView(Run(ops[..k]), ops[k])
  }

  /** Over any interleaving of bakes, re-bakes, strokes, releases, lifetimes ending and
      beginning again under the same tag: the register is right, so that an image is listed
      exactly while it holds a bake, no two hold one row, no bake row is without its holder
      and no lifetime has more than four; and no image draws from a row that has gone. */
  lemma {:induction false} RunsStayValid(ops: seq<Op>)
    requires NeverLoses(ops)
    ensures Valid(Run(ops))
  {
    if ops != [] {
      var head := ops[..|ops| - 1];
      forall k | 0 <= k < |head| ensures !LosesView(Run(head[..k]), head[k]) {
        assert head[..k] == ops[..k];
      }
      RunsStayValid(head);
      StepExactly(Run(head), ops[|ops| - 1]);
    }
  }

  lemma NoImageStale(ops: seq<Op>, img: PaintImage)
    requires NeverLoses(ops) && img in Run(ops).images
    ensures !Stale(Run(ops), img)
  {
    RunsStayValid(ops);
    NeverStale(Run(ops), img);
  }

  ghost predicate NoneStale(b: Books) { forall img :: img in b.images ==> !Stale(b, img) }

  /** And exactly then: no moment of the run leaves an image drawing from a row that has gone,
      if and only if no backdrop of it was refused a bake of another size than the one its
      image drew from. */
  lemma NeverStaleExactly(ops: seq<Op>)
    ensures (forall k :: 0 <= k <= |ops| ==> NoneStale(Run(ops[..k]))) <==> NeverLoses(ops)
  {
    hide Run, Stale, LosesView;
    if NeverLoses(ops) {
      forall k | 0 <= k <= |ops| ensures NoneStale(Run(ops[..k])) {
        NeverLosesBefore(ops, k);
        forall img | img in Run(ops[..k]).images ensures !Stale(Run(ops[..k]), img) {
          NoImageStale(ops[..k], img);
        }
      }
    } else {
      var k :| 0 <= k < |ops| && LosesView(Run(ops[..k]), ops[k]);
      FirstLost(ops, k);
    }
  }

  lemma NeverLosesBefore(ops: seq<Op>, k: nat)
    requires NeverLoses(ops) && k <= |ops|
    ensures NeverLoses(ops[..k])
  {
    hide Run, LosesView;
    forall j | 0 <= j < k ensures !LosesView(Run(ops[..k][..j]), ops[..k][j]) {
      assert ops[..k][..j] == ops[..j];
    }
  }

  lemma {:induction false} FirstLost(ops: seq<Op>, k: nat)
    requires k < |ops| && LosesView(Run(ops[..k]), ops[k])
    ensures exists j :: 0 <= j <= |ops| && !NoneStale(Run(ops[..j]))
    decreases k
  {
    hide Run, Stale, LosesView, Step;
    if NeverLoses(ops[..k]) {
      RunsStayValid(ops[..k]);
      StepExactly(Run(ops[..k]), ops[k]);
      assert ops[..k + 1][..k] == ops[..k];
      RunLast(ops[..k + 1]);
      assert !NoneStale(Run(ops[..k + 1]));
    } else {
      var j :| 0 <= j < |ops[..k]| && LosesView(Run(ops[..k][..j]), ops[..k][j]);
      assert ops[..k][..j] == ops[..j];
      FirstLost(ops, j);
    }
  }

  lemma RunLast(ops: seq<Op>)
    requires ops != []
    ensures Run(ops) == Step(Run(ops[..|ops| - 1]), ops[|ops| - 1])
  {
    hide Step;
  }

  lemma GrantedBackdrop(b: Books, img: PaintImage, nbytes: nat)
    requires Valid(b) && img in b.images && img.owner.Some? && nbytes >= BAR && |Others(b, img)| < MAX_LENT
    ensures var r := Step(b, Backdrop(img, nbytes, false));
            Valid(r) && LosesView(r, Backdrop(img, nbytes + 1, true))
  {
    hide Valid, Sound, Others, Stale;
    AskedSound(b, img, nbytes, false);
    var (c, buf) := Asked(b, img, nbytes, false);
    assert buf.Some?;
    StepExactly(b, Backdrop(img, nbytes, false));
  }

  /** A run that does: a backdrop lent its bake, then asked for bigger and refused. */
  lemma RefusedBackdropIsStale(img: PaintImage)
    requires img.owner.Some?
    ensures var ops := [NewImage(img), Backdrop(img, BAR, false), Backdrop(img, BAR + 1, true)];
            img in Run(ops).images && Stale(Run(ops), img)
  {
    var b1 := Step(Fresh(), NewImage(img));
    var b2 := Step(b1, Backdrop(img, BAR, false));
    RunThree(NewImage(img), Backdrop(img, BAR, false), Backdrop(img, BAR + 1, true));
    OneImage(img);
    hide *;
    GrantedBackdrop(b1, img, BAR);
    StepExactly(b2, Backdrop(img, BAR + 1, true));
    LostImage(b2, Backdrop(img, BAR + 1, true));
  }

  lemma LostImage(b: Books, op: Op)
    requires LosesView(b, op)
    ensures op.Backdrop? && op.img in b.images
  {
  }

  lemma OneImage(img: PaintImage)
    ensures var b := Step(Fresh(), NewImage(img));
            Valid(b) && img in b.images && Others(b, img) == {} && |Others(b, img)| < MAX_LENT
  {
    StepExactly(Fresh(), NewImage(img));
    hide Valid, Sound;
  }

  lemma RunThree(p: Op, q: Op, r: Op)
    ensures Run([p, q, r]) == Step(Step(Step(Fresh(), p), q), r)
  {
    hide Step;
    assert [p, q, r][..2] == [p, q] && [p, q][..1] == [p] && [p][..0] == [];
    assert Run([p]) == Step(Fresh(), p);
    assert Run([p, q]) == Step(Run([p]), q);
  }

  // ---- the register ----

  class Register {
    // native/moy_glass: its rows, its live owners, and the next handle it mints.
    var rows: Rows
    var live: set<nat>
    var next: nat
    // _OWNERS and _BAKED.
    var owners: map<string, nat>
    var baked: seq<PaintImage>
    ghost var images: set<PaintImage>

    ghost function Holdings(): map<PaintImage, Holding>
      reads `images, images
    {
      map img | img in images :: Holding(img.bake, img.rgbI)
    }

    ghost function Now(): Books
      reads this, images
    {
      Books(Holdings(), baked, owners, rows, live, next)
    }

    constructor ()
      ensures Now() == Fresh() && Valid(Now())
    {
      rows, live, next, owners, baked, images := map[], {}, 1, map[], [], {};
    }

    /** One image's dead bake forgotten. */
    method Forget(img: PaintImage)
      requires img in images && img.bake.Some?
      modifies img
      ensures Now() == old(Now()).(images := old(Holdings())[img := Forgotten(old(Holdings())[img])])
    {
      if img.rgbI == Some(View(img.bake.value)) {
        img.rgbI := None;
      }
      img.bake := None;
    }

    /** One step of the sweep: past a live bake, or a dead one struck off. */
    method SweepOne(i: nat) returns (k: nat)
      requires i < |baked| && baked[i] in images && baked[i].bake.Some?
      modifies `baked, baked[i]
      ensures var b, img := old(Now()), old(baked[i]);
              if b.images[img].bake.value in b.rows then k == i + 1 && Now() == b
              else k == i && Now() == StruckOff(b, img, i)
    {
      var img := baked[i];
      if img.bake.value in rows {
        k := i + 1;
      } else {
        k := i;
        Forget(img);
        baked := baked[..i] + baked[i + 1..];
      }
    }

    /** `_sweep_bakes`. */
    method SweepBakes()
      requires Listed(Now())
      modifies `baked, images
      ensures Now() == Swept(old(Now()))
    {
      hide *;
      ghost var b := Now();
      var i := 0;
      ghost var j := 0;
      SweepStarts(b);
      NowParts();
      while i < |baked|
        invariant j <= |b.baked| && Now() == SweepAt(b, j) && i == SweepIndex(b, j)
        invariant baked == Now().baked && images == Now().images.Keys
        decreases |b.baked| - j
      {
        SweepStep(b, j);
        NowParts();
        i := SweepOne(i);
        NowParts();
        j := j + 1;
      }
      SweepWhole(b, j);
    }

    /** `_release_bakes`. */
    method ReleaseBakes(tag: string)
      requires Valid(Now())
      modifies `rows, `baked, images
      ensures Now() == Released(old(Now()), tag) && Valid(Now()) && EndsOnly(old(Now()), Now(), tag)
    {
      hide *;
      ghost var b := Now();
      NowParts();
      ReleasedEnds(b, tag);
      if tag in owners {
        ReleasedUnfolds(b, tag);
        rows := Without(rows, InRole(rows, owners[tag], Bake));
        NowIs(Reclaimed(b, Lent(b.rows, b.owners[tag])));
        SweepBakes();
      } else {
        NothingReleased(b, tag);
      }
    }

    /** `_owner_done`. */
    method OwnerDone(tag: string)
      requires Valid(Now())
      modifies `rows, `live, `owners, `baked, images
      ensures Now() == Done(old(Now()), tag) && Valid(Now()) && EndsOnly(old(Now()), Now(), tag)
    {
      hide *;
      ghost var b := Now();
      NowParts();
      DoneEnds(b, tag);
      if tag in owners {
        DoneUnfolds(b, tag);
        var o := owners[tag];
        owners := owners - {tag};
        rows := Without(rows, Owned(rows, o));
        live := live - {o};
        NowIs(Closed(b, tag));
        SweepBakes();
      } else {
        NothingReleased(b, tag);
      }
    }

    /** The fields are books `b`'s. */
    lemma NowIs(b: Books)
      requires b.rows == rows && b.live == live && b.next == next && b.owners == owners && b.baked == baked
      requires b.images == Holdings()
      ensures Now() == b
    {
    }

    /** How many bakes a lifetime has on loan, counted over its rows. */
    method CountLent(o: nat) returns (n: nat)
      ensures n == |Lent(rows, o)|
    {
      n := 0;
      var todo := Owned(rows, o);
      ghost var seen: set<nat> := {};
      while todo != {}
        invariant seen !! todo && seen + todo == Owned(rows, o) && n == |BakesOf(rows, seen)|
        decreases todo
      {
        var h :| h in todo;
        BakesOneMore(rows, seen, h);
        hide BakesOf;
        todo := todo - {h};
        seen := seen + {h};
        if rows[h].role == Bake {
          n := n + 1;
        }
      }
      assert BakesOf(rows, seen) == Lent(rows, o);
    }

    /** `_BAKED.remove`. */
    method Unlist(img: PaintImage)
      requires img in baked
      modifies `baked
      ensures baked == Removed(old(baked), img)
    {
      hide Removed;
      var i := 0;
      FoundAhead(baked, 0, img);
      while baked[i] != img
        invariant baked == old(baked) && 0 <= i < |baked| && img in baked[i..]
        invariant Removed(baked, img) == baked[..i] + Removed(baked[i..], img)
        decreases |baked| - i
      {
        RemovedStep(baked, i, img);
        i := i + 1;
      }
      RemovedStep(baked, i, img);
      baked := baked[..i] + baked[i + 1..];
    }

    /** A bake of the wrong size, or whose row has gone, given back. */
    method GiveBack(img: PaintImage)
      requires img in images && Listed(Now())
      modifies `rows, `baked, img`bake
      ensures Now() == GivenBack(old(Now()), img)
    {
      if img.bake.Some? {
        assert img in Now().images && Now().images[img].bake.Some?;
        hide Listed;
        rows := Without(rows, {img.bake.value});
        img.bake := None;
        Unlist(img);
      }
    }

    /** `_owner_h`. */
    method OwnerHandle(tag: string) returns (o: nat)
      modifies `owners, `live, `next
      ensures Now() == Opened(old(Now()), tag) && tag in owners && o == owners[tag]
    {
      if tag !in owners {
        owners := owners[tag := next];
        live := live + {next};
        next := next + 1;
      }
      o := owners[tag];
    }

    method Grant(img: PaintImage, nbytes: nat, tag: string) returns (h: nat)
      requires img in images && tag in owners
      modifies `rows, `next, `baked, img`bake
      ensures Now() == Granted(old(Now()), img, nbytes, tag) && h == old(next)
    {
      h := next;
      next := next + 1;
      rows := rows[h := Row(Bake, owners[tag], nbytes)];
      img.bake := Some(h);
      baked := baked + [img];
    }

    /** `_paint_bake_buf`; None is the error where memory is refused. */
    method PaintBakeBuf(img: PaintImage, nbytes: nat, refused: bool) returns (buf: Option<Pixels>)
      requires img in images && Listed(Now())
      modifies `rows, `live, `next, `owners, `baked, img`bake
      ensures (Now(), buf) == Asked(old(Now()), img, nbytes, refused)
    {
      var plain := if refused then None else Some(Untracked);
      if img.owner.None? || nbytes < BAR {
        return plain;
      }
      if img.bake.Some? && img.bake.value in rows && rows[img.bake.value].nbytes == nbytes {
        return Some(View(img.bake.value));
      }
      buf := FreshBuf(img, nbytes, refused, plain);
    }

    /** A bake that does not fit given back, and another asked for. */
    method FreshBuf(img: PaintImage, nbytes: nat, refused: bool, plain: Option<Pixels>) returns (buf: Option<Pixels>)
      requires img in images && Listed(Now()) && img.owner.Some? && nbytes >= BAR && !Fits(Now(), img, nbytes)
      requires plain == if refused then None else Some(Untracked)
      modifies `rows, `live, `next, `owners, `baked, img`bake
      ensures (Now(), buf) == Asked(old(Now()), img, nbytes, refused)
    {
      hide Listed, GivenBack, Opened, Granted, Lent, Holdings;
      GiveBack(img);
      NowParts();
      var o := OwnerHandle(img.owner.value);
      NowParts();
      var lent := CountLent(o);
      if lent >= MAX_LENT {
        return plain;
      }
      if refused {
        return None;
      }
      var h := Grant(img, nbytes, img.owner.value);
      buf := Some(View(h));
    }

    /** `_bake_indices`, called for an image with nothing to draw from. */
    method BakeIndices(img: PaintImage, nbytes: nat, refused: bool) returns (ok: bool)
      requires img in images && img.rgbI.None? && Valid(Now())
      modifies `rows, `live, `next, `owners, `baked, img
      ensures Now() == Step(old(Now()), Paint(img, nbytes, refused)) && Valid(Now())
    {
      ghost var b := Now();
      StepExactly(b, Paint(img, nbytes, refused));
      ok := Rebake(img, nbytes, refused);
    }

    /** `backdrop` into an image's bake: asked for whatever the image drew from before. */
    method BackdropInto(img: PaintImage, nbytes: nat, refused: bool) returns (ok: bool)
      requires img in images && Valid(Now())
      modifies `rows, `live, `next, `owners, `baked, img
      ensures Now() == Step(old(Now()), Backdrop(img, nbytes, refused))
      ensures Valid(Now()) <==> !LosesView(old(Now()), Backdrop(img, nbytes, refused))
    {
      ghost var b := Now();
      StepExactly(b, Backdrop(img, nbytes, refused));
      ok := Rebake(img, nbytes, refused);
    }

    /** A request, and the image drawing from what it answers. */
    method Rebake(img: PaintImage, nbytes: nat, refused: bool) returns (ok: bool)
      requires img in images && Listed(Now())
      modifies `rows, `live, `next, `owners, `baked, img
      ensures Now() == Baked(old(Now()), img, nbytes, refused)
      ensures ok == Asked(old(Now()), img, nbytes, refused).1.Some?
    {
      hide Listed, Asked;
      var buf := PaintBakeBuf(img, nbytes, refused);
      NowParts();
      ok := buf.Some?;
      if ok {
        img.rgbI := buf;
      }
    }

    lemma NowParts()
      ensures Now().baked == baked && Now().images.Keys == images && Now().rows == rows
      ensures Now().owners == owners && Now().live == live && Now().next == next
      ensures Now().images == Holdings()
      ensures forall img :: img in images ==> Now().images[img] == Holding(img.bake, img.rgbI)
    {
    }
  }

  function BakesOf(rows: Rows, s: set<nat>): set<nat> {
    set h | h in s && h in rows && rows[h].role == Bake
  }

  lemma BakesOneMore(rows: Rows, s: set<nat>, h: nat)
    requires h in rows && h !in s
    ensures |BakesOf(rows, s + {h})| == |BakesOf(rows, s)| + if rows[h].role == Bake then 1 else 0
  {
    if rows[h].role == Bake {
      assert BakesOf(rows, s + {h}) == BakesOf(rows, s) + {h};
    } else {
      assert BakesOf(rows, s + {h}) == BakesOf(rows, s);
    }
  }

  lemma ReleasedUnfolds(b: Books, tag: string)
    requires Valid(b) && tag in b.owners
    ensures Released(b, tag) == Swept(Reclaimed(b, Lent(b.rows, b.owners[tag])))
    ensures Reclaimed(b, Lent(b.rows, b.owners[tag])) == b.(rows := Without(b.rows, InRole(b.rows, b.owners[tag], Bake)))
    ensures Listed(Reclaimed(b, Lent(b.rows, b.owners[tag])))
  {
    ReclaimUnswept(b, Lent(b.rows, b.owners[tag]));
    hide Listed, Swept, InRole;
  }

  lemma DoneUnfolds(b: Books, tag: string)
    requires Valid(b) && tag in b.owners
    ensures Done(b, tag) == Swept(Closed(b, tag)) && Listed(Closed(b, tag))
    ensures Closed(b, tag) == b.(rows := Without(b.rows, Owned(b.rows, b.owners[tag])), owners := b.owners - {tag},
                                 live := b.live - {b.owners[tag]})
  {
    DoneUnswept(b, tag);
    hide Listed, Swept, Owned;
  }

  lemma NothingReleased(b: Books, tag: string)
    requires tag !in b.owners
    ensures Released(b, tag) == b && Done(b, tag) == b
  {
  }

  /** Entry `i` of the list, an image whose row has gone, forgotten and struck off. */
  function StruckOff(b: Books, img: PaintImage, i: nat): Books
    requires img in b.images && i < |b.baked|
  {
    b.(images := b.images[img := Forgotten(b.images[img])], baked := b.baked[..i] + b.baked[i + 1..])
  }

  /** The images once the first `j` of the list have been looked at. */
  function SweptTo(b: Books, j: nat): map<PaintImage, Holding>
    requires j <= |b.baked|
  {
    map img | img in b.images :: if img in b.baked[..j] then SweptHolding(b.images[img], b.rows) else b.images[img]
  }

  /** The books once the first `j` of the list have been looked at, and how many of those
      are left. */
  function SweepAt(b: Books, j: nat): Books
    requires j <= |b.baked|
  {
    b.(baked := Living(b.baked[..j], b.images, b.rows) + b.baked[j..], images := SweptTo(b, j))
  }

  function SweepIndex(b: Books, j: nat): nat
    requires j <= |b.baked|
  {
    |Living(b.baked[..j], b.images, b.rows)|
  }

  lemma SweepStarts(b: Books)
    ensures SweepAt(b, 0) == b && SweepIndex(b, 0) == 0
  {
    assert SweptTo(b, 0) == b.images;
  }

  lemma LivingOneMore(b: Books, j: nat)
    requires j < |b.baked|
    ensures Living(b.baked[..j + 1], b.images, b.rows)
            == Living(b.baked[..j], b.images, b.rows) + if Lives(b.baked[j], b.images, b.rows) then [b.baked[j]] else []
  {
    assert b.baked[..j + 1][..j] == b.baked[..j];
  }

  lemma SweptOneMore(b: Books, j: nat)
    requires Listed(b) && j < |b.baked|
    ensures var img := b.baked[j];
            && img in b.images && b.images[img].bake.Some? && SweptTo(b, j)[img] == b.images[img]
            && SweptTo(b, j + 1) == SweptTo(b, j)[img := SweptHolding(b.images[img], b.rows)]
  {
    var img := b.baked[j];
    assert img in b.baked;
    assert b.baked[..j + 1] == b.baked[..j] + [img];
    assert img !in b.baked[..j];
  }

  lemma Splice<T>(a: seq<T>, x: T, t: seq<T>)
    ensures var s := a + ([x] + t);
            s[|a|] == x && s[..|a|] + s[|a| + 1..] == a + t && s == (a + [x]) + t
  {
  }

  /** The list at a step of the sweep: what is left so far, then the rest. */
  lemma SweepList(b: Books, j: nat)
    requires j < |b.baked|
    ensures var s, i := SweepAt(b, j).baked, SweepIndex(b, j);
            && i < |s| && s[i] == b.baked[j]
            && SweepAt(b, j + 1).baked == (if Lives(b.baked[j], b.images, b.rows) then s else s[..i] + s[i + 1..])
            && SweepIndex(b, j + 1) == (if Lives(b.baked[j], b.images, b.rows) then i + 1 else i)
  {
    var left := Living(b.baked[..j], b.images, b.rows);
    LivingOneMore(b, j);
    assert b.baked[j..] == [b.baked[j]] + b.baked[j + 1..];
    Splice(left, b.baked[j], b.baked[j + 1..]);
    hide Living, Lives;
    assert left + [] == left;
  }

  lemma SweepStep(b: Books, j: nat)
    requires Listed(b) && j <= |b.baked| && SweepIndex(b, j) < |SweepAt(b, j).baked|
    ensures j < |b.baked|
    ensures var c, i, img := SweepAt(b, j), SweepIndex(b, j), SweepAt(b, j).baked[SweepIndex(b, j)];
            && img in c.images && c.images[img].bake.Some?
            && if c.images[img].bake.value in c.rows then SweepAt(b, j + 1) == c && SweepIndex(b, j + 1) == i + 1
               else SweepAt(b, j + 1) == StruckOff(c, img, i) && SweepIndex(b, j + 1) == i
  {
    assert j < |b.baked|;
    SweepList(b, j);
    SweptOneMore(b, j);
    hide Listed, Living, SweptTo, Forgotten, SweepIndex;
    SameEntry(SweptTo(b, j), b.baked[j]);
  }

  lemma SameEntry(m: map<PaintImage, Holding>, img: PaintImage)
    requires img in m
    ensures m[img := m[img]] == m
  {
  }

  lemma SweepWhole(b: Books, j: nat)
    requires Listed(b) && j <= |b.baked| && SweepIndex(b, j) >= |SweepAt(b, j).baked|
    ensures SweepAt(b, j) == Swept(b)
  {
    assert b.baked[..j] == b.baked;
    forall img | img in b.images && img !in b.baked ensures SweptHolding(b.images[img], b.rows) == b.images[img] {
    }
    assert SweptTo(b, j) == SweepImages(b.images, b.rows);
  }
}
