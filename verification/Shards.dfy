/** The continuous-integration sharder (tools/ci_shard.py): every test file goes,
    heaviest first, to the lightest shard so far. Graham's bound for that rule,
    4/3 - 1/(3n) times the best makespan, is proved for every list of weights. */
module Shards {
  import opened Sorting

  datatype Shard = Shard(seconds: real, files: seq<string>)

  // ---- the greedy assignment, as a function of the weights in the order placed ----

  function Sum(ws: seq<real>): real {
    if ws == [] then 0.0 else Sum(ws[..|ws| - 1]) + ws[|ws| - 1]
  }

  /** The weight that assignment `g` puts on shard `i`. */
  function Load(ws: seq<real>, g: seq<nat>, i: nat): real
    requires |ws| == |g|
  {
    if ws == [] then 0.0
    else Load(ws[..|ws| - 1], g[..|g| - 1], i) + if g[|g| - 1] == i then ws[|ws| - 1] else 0.0
  }

  function Loads(ws: seq<real>, g: seq<nat>, n: nat): (r: seq<real>)
    requires |ws| == |g|
    ensures |r| == n && forall i :: 0 <= i < n ==> r[i] == Load(ws, g, i)
  {
    seq(n, i requires 0 <= i => Load(ws, g, i))
  }

  /** The first index of a least element. */
  function ArgMin(xs: seq<real>): (k: nat)
    requires xs != []
    ensures k < |xs|
    ensures forall j :: 0 <= j < |xs| ==> xs[k] <= xs[j]
    ensures forall j :: 0 <= j < k ==> xs[k] < xs[j]
  {
    if |xs| == 1 then 0
    else
      var k := ArgMin(xs[..|xs| - 1]);
      if xs[|xs| - 1] < xs[k] then |xs| - 1 else k
  }

  /** The shard each file lands in. */
  function Greedy(ws: seq<real>, n: nat): (g: seq<nat>)
    requires n >= 1
    ensures |g| == |ws|
    ensures forall j :: 0 <= j < |g| ==> g[j] < n
  {
    if ws == [] then []
    else
      var g := Greedy(ws[..|ws| - 1], n);
      g + [ArgMin(Loads(ws[..|ws| - 1], g, n))]
  }

  /** The files that assignment `g` puts in shard `i`, in the order placed. */
  function Held(files: seq<string>, g: seq<nat>, i: nat): seq<string>
    requires |files| == |g|
  {
    if files == [] then []
    else Held(files[..|files| - 1], g[..|g| - 1], i) +
         if g[|g| - 1] == i then [files[|files| - 1]] else []
  }

  predicate IsAssignment(g: seq<nat>, m: nat, n: nat) {
    |g| == m && forall j :: 0 <= j < m ==> g[j] < n
  }

  predicate Descending(ws: seq<real>) {
    forall i, j :: 0 <= i < j < |ws| ==> ws[i] >= ws[j]
  }

  predicate NonNegative(ws: seq<real>) {
    forall i :: 0 <= i < |ws| ==> ws[i] >= 0.0
  }

  // ---- double counting ----

  function SumLoads(ws: seq<real>, g: seq<nat>, k: nat): real
    requires |ws| == |g|
  {
    if k == 0 then 0.0 else SumLoads(ws, g, k - 1) + Load(ws, g, k - 1)
  }

  lemma {:induction false} SumLoadsSplit(ws: seq<real>, g: seq<nat>, k: nat)
    requires |ws| == |g| > 0
    ensures SumLoads(ws, g, k) == SumLoads(ws[..|ws| - 1], g[..|g| - 1], k)
                                  + if g[|g| - 1] < k then ws[|ws| - 1] else 0.0
  {
    if k > 0 {
      SumLoadsSplit(ws, g, k - 1);
    }
  }

  /** Conservation: what the shards carry between them is what was placed. */
  lemma {:induction false} LoadsConserveWeight(ws: seq<real>, g: seq<nat>, n: nat)
    requires IsAssignment(g, |ws|, n)
    ensures SumLoads(ws, g, n) == Sum(ws)
  {
    if ws == [] {
      EmptyLoads(n);
    } else {
      LoadsConserveWeight(ws[..|ws| - 1], g[..|g| - 1], n);
      SumLoadsSplit(ws, g, n);
    }
  }

  lemma {:induction false} EmptyLoads(n: nat)
    ensures SumLoads([], [], n) == 0.0
  {
    if n > 0 {
      EmptyLoads(n - 1);
    }
  }

  /** n copies of x, added up. */
  function Times(n: nat, x: real): real {
    if n == 0 then 0.0 else Times(n - 1, x) + x
  }

  lemma {:induction false} TimesGrows(n: nat, x: real, y: real)
    requires x <= y
    ensures Times(n, x) <= Times(n, y)
  {
    if n > 0 {
      TimesGrows(n - 1, x, y);
    }
  }

  lemma {:induction false} TimesOfSum(n: nat, x: real, y: real)
    ensures Times(n, x + y) == Times(n, x) + Times(n, y)
  {
    if n > 0 {
      TimesOfSum(n - 1, x, y);
    }
  }

  lemma {:induction false} TimesPlus(a: nat, b: nat, x: real)
    ensures Times(a + b, x) == Times(a, x) + Times(b, x)
  {
    if b > 0 {
      TimesPlus(a, b - 1, x);
    }
  }

  lemma {:induction false} TimesIsProduct(n: nat, x: real)
    ensures Times(n, x) == n as real * x
  {
    if n > 0 {
      TimesIsProduct(n - 1, x);
      assert n as real * x == (n - 1) as real * x + x;
    }
  }

  lemma {:induction false} SumLoadsAtLeast(ws: seq<real>, g: seq<nat>, k: nat, x: real)
    requires |ws| == |g|
    requires forall i :: 0 <= i < k ==> Load(ws, g, i) >= x
    ensures SumLoads(ws, g, k) >= Times(k, x)
  {
    if k > 0 {
      SumLoadsAtLeast(ws, g, k - 1, x);
    }
  }

  lemma {:induction false} SumLoadsAtMost(ws: seq<real>, g: seq<nat>, k: nat, x: real)
    requires |ws| == |g|
    requires forall i :: 0 <= i < k ==> Load(ws, g, i) <= x
    ensures SumLoads(ws, g, k) <= Times(k, x)
  {
    if k > 0 {
      SumLoadsAtMost(ws, g, k - 1, x);
    }
  }

  // ---- monotonicity of a reference assignment ----

  lemma {:induction false} LoadBounds(ws: seq<real>, g: seq<nat>, i: nat)
    requires |ws| == |g| && NonNegative(ws)
    ensures Load(ws, g, i) >= 0.0
    ensures forall j :: 0 <= j < |ws| && g[j] == i ==> ws[j] <= Load(ws, g, i)
  {
    if ws != [] {
      LoadBounds(ws[..|ws| - 1], g[..|g| - 1], i);
      assert forall j :: 0 <= j < |ws| - 1 ==> ws[..|ws| - 1][j] == ws[j] && g[..|g| - 1][j] == g[j];
    }
  }

  ghost predicate Within(ws: seq<real>, g: seq<nat>, n: nat, m: real)
    requires |ws| == |g|
  {
    forall i :: 0 <= i < n ==> Load(ws, g, i) <= m
  }

  /** Placing a file never lightens a shard. */
  lemma PrefixWithin(ws: seq<real>, g: seq<nat>, n: nat, m: real)
    requires ws != [] && |ws| == |g| && NonNegative(ws) && Within(ws, g, n, m)
    ensures Within(ws[..|ws| - 1], g[..|g| - 1], n, m)
  {
    var head, g' := ws[..|ws| - 1], g[..|g| - 1];
    forall i | 0 <= i < n ensures Load(head, g', i) <= m {
      assert Load(ws, g, i) <= m;
    }
  }

  // ---- the rung: average plus (1 - 1/n) of the last file placed ----

  /** The last file goes to a lightest shard of the assignment before it. */
  lemma LastGoesToLightest(ws: seq<real>, n: nat)
    requires n >= 1 && ws != []
    ensures var last := |ws| - 1;
            var head, g := ws[..last], Greedy(ws, n);
            var before := Greedy(head, n);
            && |g| == |ws| && |before| == |head| && g[last] < n && g[..last] == before
            && Load(ws, g, g[last]) == Load(head, before, g[last]) + ws[last]
            && forall i :: 0 <= i < n ==> Load(head, before, g[last]) <= Load(head, before, i)
  {
    var head := ws[..|ws| - 1];
    var before := Greedy(head, n);
    var loads := Loads(head, before, n);
    GreedyStep(ws, n);
    hide Greedy, Load, Loads, ArgMin;
    var k := ArgMin(loads);
    LoadOfLast(ws, before, k);
    assert (before + [k])[..|before|] == before;
    forall i | 0 <= i < n ensures Load(head, before, k) <= Load(head, before, i) {
      assert loads[k] <= loads[i];
    }
  }

  lemma GreedyStep(ws: seq<real>, n: nat)
    requires n >= 1 && ws != []
    ensures var head := ws[..|ws| - 1];
            Greedy(ws, n) == Greedy(head, n) + [ArgMin(Loads(head, Greedy(head, n), n))]
  {
    hide Loads, ArgMin, Load;
  }

  lemma LoadOfLast(ws: seq<real>, before: seq<nat>, k: nat)
    requires ws != [] && |before| == |ws| - 1
    ensures Load(ws, before + [k], k) == Load(ws[..|ws| - 1], before, k) + ws[|ws| - 1]
  {
    assert (before + [k])[..|before|] == before;
  }

  /** The shard the last file lands in carries at most Sum/n + (1 - 1/n) * (that file). */
  lemma LastPlacedRung(ws: seq<real>, n: nat)
    requires n >= 1 && ws != []
    ensures var g, last := Greedy(ws, n), |ws| - 1;
            Times(n, Load(ws, g, g[last])) <= Sum(ws) + Times(n - 1, ws[last])
  {
    hide Greedy, Load;
    var head, p := ws[..|ws| - 1], ws[|ws| - 1];
    LastGoesToLightest(ws, n);
    var before, k := Greedy(head, n), Greedy(ws, n)[|ws| - 1];
    SumOfLast(ws);
    var least := Load(head, before, k);
    SumLoadsAtLeast(head, before, n, least);
    LoadsConserveWeight(head, before, n);
    TimesOfSum(n, least, p);
  }

  // ---- the last file is large: charge two units to a file no other fits beside ----

  /** A file that leaves no room for the last one under `m` is charged 2, others 1. */
  function Charge(ws: seq<real>, p: real, m: real): (r: seq<real>)
    ensures |r| == |ws|
    ensures forall j :: 0 <= j < |ws| ==> r[j] == if ws[j] + p > m then 2.0 else 1.0
  {
    seq(|ws|, j requires 0 <= j < |ws| => if ws[j] + p > m then 2.0 else 1.0)
  }

  /** A shard the last file would overflow carries two units of charge. */
  lemma {:induction false} FullShardsAreCharged(ws: seq<real>, g: seq<nat>, i: nat, p: real, m: real)
    requires |ws| == |g| && 0.0 <= p <= m && NonNegative(ws)
    ensures var v := Load(Charge(ws, p, m), g, i);
            && (v == 0.0 || v == 1.0 || v >= 2.0)
            && (v == 0.0 ==> Load(ws, g, i) == 0.0)
            && (v == 1.0 ==> Load(ws, g, i) + p <= m)
  {
    if ws != [] {
      var k := |ws| - 1;
      FullShardsAreCharged(ws[..k], g[..k], i, p, m);
      assert Charge(ws, p, m)[..k] == Charge(ws[..k], p, m);
    }
  }

  /** A shard that stays within `m` carries no more than two units of charge. */
  lemma {:induction false} BoundedShardsHoldTwo(ws: seq<real>, g: seq<nat>, i: nat, p: real, m: real)
    requires |ws| == |g| && 3.0 * p > m
    requires p >= 0.0 && forall j :: 0 <= j < |ws| ==> ws[j] >= p
    ensures var v, l := Load(Charge(ws, p, m), g, i), Load(ws, g, i);
            && (v == 0.0 || v == 1.0 || v == 2.0 || v >= 3.0)
            && l >= 0.0
            && (v == 1.0 ==> l >= p)
            && (v == 2.0 ==> l + p > m)
            && (v >= 3.0 ==> l > m)
  {
    if ws != [] {
      var k := |ws| - 1;
      BoundedShardsHoldTwo(ws[..k], g[..k], i, p, m);
      assert Charge(ws, p, m)[..k] == Charge(ws[..k], p, m);
    }
  }

  lemma GreedyChargeIsHigh(ws: seq<real>, g: seq<nat>, n: nat, p: real, m: real)
    requires IsAssignment(g, |ws|, n) && 0.0 <= p <= m && NonNegative(ws)
    requires forall i :: 0 <= i < n ==> Load(ws, g, i) + p > m
    ensures Sum(Charge(ws, p, m)) >= Times(n, 2.0)
  {
    var c := Charge(ws, p, m);
    forall i | 0 <= i < n ensures Load(c, g, i) >= 2.0 {
      assert Load(ws, g, i) + p > m;
      FullShardsAreCharged(ws, g, i, p, m);
    }
    SumLoadsAtLeast(c, g, n, 2.0);
    LoadsConserveWeight(c, g, n);
  }

  lemma ReferenceChargeIsLow(ws: seq<real>, g: seq<nat>, n: nat, p: real, m: real)
    requires IsAssignment(g, |ws|, n) && 3.0 * p > m && Within(ws, g, n, m)
    requires p >= 0.0 && forall j :: 0 <= j < |ws| ==> ws[j] >= p
    ensures Sum(Charge(ws, p, m)) <= Times(n, 2.0)
  {
    var c := Charge(ws, p, m);
    forall i | 0 <= i < n ensures Load(c, g, i) <= 2.0 {
      assert Load(ws, g, i) <= m;
      BoundedShardsHoldTwo(ws, g, i, p, m);
    }
    SumLoadsAtMost(c, g, n, 2.0);
    LoadsConserveWeight(c, g, n);
  }

  lemma SumOfLast(ws: seq<real>)
    requires ws != []
    ensures Sum(ws) == Sum(ws[..|ws| - 1]) + ws[|ws| - 1]
  {
  }

  /** With every file heavier than a third of the best makespan, greedy is optimal. */
  lemma LargeFilesFit(ws: seq<real>, n: nat, opt: seq<nat>, m: real)
    requires n >= 1 && ws != [] && Descending(ws) && NonNegative(ws)
    requires IsAssignment(opt, |ws|, n)
    requires Within(ws, opt, n, m)
    requires 3.0 * ws[|ws| - 1] > m
    ensures var g := Greedy(ws, n); Load(ws, g, g[|ws| - 1]) <= m
  {
    hide Greedy, Load, Sum;
    var head, p := ws[..|ws| - 1], ws[|ws| - 1];
    LastGoesToLightest(ws, n);
    var before, k := Greedy(head, n), Greedy(ws, n)[|ws| - 1];
    LoadBounds(ws, opt, opt[|ws| - 1]);
    assert Load(ws, opt, opt[|ws| - 1]) <= m;
    if Load(ws, Greedy(ws, n), k) > m {
      assert Charge(ws, p, m)[..|ws| - 1] == Charge(head, p, m);
      SumOfLast(Charge(ws, p, m));
      GreedyChargeIsHigh(head, before, n, p, m);
      ReferenceChargeIsLow(ws, opt, n, p, m);
      assert false;
    }
  }

  /** The shard that takes the last file obeys the bound. */
  lemma LastPlacedNearOptimal(ws: seq<real>, n: nat, opt: seq<nat>, m: real)
    requires n >= 1 && ws != [] && Descending(ws) && NonNegative(ws)
    requires IsAssignment(opt, |ws|, n)
    requires Within(ws, opt, n, m)
    ensures var g := Greedy(ws, n);
            Times(3 * n, Load(ws, g, g[|ws| - 1])) <= Times(4 * n - 1, m)
  {
    var p := ws[|ws| - 1];
    var l := Load(ws, Greedy(ws, n), Greedy(ws, n)[|ws| - 1]);
    LoadBounds(ws, opt, opt[|ws| - 1]);
    assert m >= Load(ws, opt, opt[|ws| - 1]) >= p >= 0.0;
    if 3.0 * p > m {
      LargeFilesFit(ws, n, opt, m);
      BoundWhenOptimal(n, l, m);
    } else {
      LastPlacedRung(ws, n);
      LoadsConserveWeight(ws, opt, n);
      SumLoadsAtMost(ws, opt, n, m);
      BoundFromRung(n, l, p, m, Sum(ws));
    }
  }

  lemma BoundWhenOptimal(n: nat, l: real, m: real)
    requires n >= 1 && l <= m && m >= 0.0
    ensures Times(3 * n, l) <= Times(4 * n - 1, m)
  {
    TimesGrows(3 * n, l, m);
    TimesPlus(3 * n, n - 1, m);
    TimesGrows(n - 1, 0.0, m);
    TimesIsProduct(n - 1, 0.0);
  }

  lemma BoundFromRung(n: nat, l: real, p: real, m: real, sum: real)
    requires n >= 1 && 3.0 * p <= m && sum <= Times(n, m) && Times(n, l) <= sum + Times(n - 1, p)
    ensures Times(3 * n, l) <= Times(4 * n - 1, m)
  {
    Triple(n, l);
    Triple(n, m);
    TimesOfSum(n - 1, p, p);
    TimesOfSum(n - 1, p, p + p);
    TimesGrows(n - 1, p + (p + p), m);
    TimesPlus(3 * n, n - 1, m);
  }

  lemma Triple(n: nat, x: real)
    ensures Times(3 * n, x) == 3.0 * Times(n, x)
  {
    TimesPlus(n, n, x);
    TimesPlus(n + n, n, x);
  }

  /** Graham's bound: for every assignment `opt` of the same files to n shards with
      makespan at most `m`, every greedy shard carries at most (4/3 - 1/(3n)) * m. */
  lemma {:induction false} NearOptimal(ws: seq<real>, n: nat, opt: seq<nat>, m: real, i: nat)
    requires n >= 1 && i < n && Descending(ws) && NonNegative(ws)
    requires IsAssignment(opt, |ws|, n)
    requires Within(ws, opt, n, m)
    ensures Times(3 * n, Load(ws, Greedy(ws, n), i)) <= Times(4 * n - 1, m)
  {
    if ws == [] {
      assert Load(ws, opt, 0) <= m;
      BoundWhenOptimal(n, 0.0, m);
    } else if Greedy(ws, n)[|ws| - 1] == i {
      LastPlacedNearOptimal(ws, n, opt, m);
    } else {
      LastGoesToLightest(ws, n);
      PrefixWithin(ws, opt, n, m);
      NearOptimal(ws[..|ws| - 1], n, opt[..|ws| - 1], m, i);
    }
  }

  /** The bound `NearOptimal` states, as the ratio it is usually written with. */
  lemma BoundAsRatio(n: nat, l: real, m: real)
    requires n >= 1
    ensures Times(3 * n, l) <= Times(4 * n - 1, m)
            <==> l <= (4.0 / 3.0 - 1.0 / (3.0 * n as real)) * m
  {
    TimesIsProduct(3 * n, l);
    TimesIsProduct(4 * n - 1, m);
    var nr := n as real;
    var r := 4.0 / 3.0 - 1.0 / (3.0 * nr);
    assert 3.0 * nr * r == 4.0 * nr - 1.0;
    assert 3.0 * nr * (r * m) == (4.0 * nr - 1.0) * m;
    ScaleBoth(3.0 * nr, l, r * m);
  }

  lemma ScaleBoth(k: real, a: real, b: real)
    requires k > 0.0
    ensures k * a <= k * b <==> a <= b
  {
    if a < b {
      assert k * (b - a) > 0.0;
    } else if a > b {
      assert k * (a - b) > 0.0;
    }
  }

  /** No shard is ahead of another by more than the heaviest file. */
  lemma {:induction false} BalancedToOneFile(ws: seq<real>, n: nat, heaviest: real, i: nat, j: nat)
    requires n >= 1 && i < n && j < n && heaviest >= 0.0
    requires forall k :: 0 <= k < |ws| ==> 0.0 <= ws[k] <= heaviest
    ensures Load(ws, Greedy(ws, n), i) - Load(ws, Greedy(ws, n), j) <= heaviest
  {
    if ws != [] {
      LastGoesToLightest(ws, n);
      BalancedToOneFile(ws[..|ws| - 1], n, heaviest, i, j);
    }
  }

  // ---- the partition ----

  function AllHeld(files: seq<string>, g: seq<nat>, k: nat): multiset<string>
    requires |files| == |g|
  {
    if k == 0 then multiset{} else AllHeld(files, g, k - 1) + multiset(Held(files, g, k - 1))
  }

  lemma HeldSplit(files: seq<string>, g: seq<nat>, i: nat)
    requires |files| == |g| > 0
    ensures multiset(Held(files, g, i))
            == multiset(Held(files[..|files| - 1], g[..|g| - 1], i))
               + if g[|g| - 1] == i then multiset{files[|files| - 1]} else multiset{}
  {
  }

  lemma {:induction false} AllHeldSplit(files: seq<string>, g: seq<nat>, k: nat)
    requires |files| == |g| > 0
    ensures AllHeld(files, g, k) == AllHeld(files[..|files| - 1], g[..|g| - 1], k)
                                    + if g[|g| - 1] < k then multiset{files[|files| - 1]} else multiset{}
  {
    hide Held;
    if k > 0 {
      AllHeldSplit(files, g, k - 1);
      HeldSplit(files, g, k - 1);
    }
  }

  lemma {:induction false} AllHeldEmpty(k: nat)
    ensures AllHeld([], [], k) == multiset{}
  {
    if k > 0 {
      AllHeldEmpty(k - 1);
    }
  }

  /** Every file lands in exactly one shard: together the shards hold each file as
      often as the list named it. */
  lemma {:induction false} ShardsPartition(files: seq<string>, g: seq<nat>, n: nat)
    requires IsAssignment(g, |files|, n)
    ensures AllHeld(files, g, n) == multiset(files)
  {
    if files == [] {
      AllHeldEmpty(n);
    } else {
      var last := |files| - 1;
      ShardsPartition(files[..last], g[..last], n);
      AllHeldSplit(files, g, n);
      assert files == files[..last] + [files[last]];
    }
  }

  // ---- the program ----

  function RealLe(a: real, b: real): bool { a <= b }

  /** `statistics.median`: the middle value, or the mean of the middle two. */
  function Median(xs: seq<real>): real
    requires xs != []
  {
    var s := Sort(RealLe, xs);
    SortSorts(RealLe, xs);
    assert |multiset(s)| == |multiset(xs)|;
    if |s| % 2 == 1 then s[|s| / 2] else (s[|s| / 2 - 1] + s[|s| / 2]) / 2.0
  }

  function Known(files: seq<string>, weights: map<string, real>): seq<real> {
    if files == [] then []
    else (if files[0] in weights then [weights[files[0]]] else []) + Known(files[1..], weights)
  }

  /** The weight of a file the record does not name. */
  function DefaultWeight(files: seq<string>, weights: map<string, real>): real {
    var known := Known(files, weights);
    if known == [] then 1.0 else Median(known)
  }

  function Weight(f: string, weights: map<string, real>, default: real): real {
    if f in weights then weights[f] else default
  }

  /** The order files are placed in: heaviest first, then by name. */
  function PlacedBefore(weights: map<string, real>, default: real): (string, string) -> bool {
    (a, b) =>
      var wa, wb := Weight(a, weights, default), Weight(b, weights, default);
      wa > wb || (wa == wb && StringLe(a, b))
  }

  function Order(files: seq<string>, weights: map<string, real>): seq<string> {
    Sort(PlacedBefore(weights, DefaultWeight(files, weights)), files)
  }

  function WeightsOf(order: seq<string>, weights: map<string, real>, default: real): (r: seq<real>)
    ensures |r| == |order|
    ensures forall j :: 0 <= j < |order| ==> r[j] == Weight(order[j], weights, default)
  {
    seq(|order|, j requires 0 <= j < |order| => Weight(order[j], weights, default))
  }

  lemma PlacedBeforeIsTotalPreorder(weights: map<string, real>, default: real)
    ensures TotalPreorder(PlacedBefore(weights, default))
  {
    StringLeIsTotalPreorder();
    var le := PlacedBefore(weights, default);
    forall a, b ensures le(a, b) || le(b, a) {
      assert StringLe(a, b) || StringLe(b, a);
    }
  }

  /** The order placed is a permutation of the files with weights that never rise. */
  lemma OrderDescends(files: seq<string>, weights: map<string, real>)
    ensures multiset(Order(files, weights)) == multiset(files)
    ensures Descending(WeightsOf(Order(files, weights), weights, DefaultWeight(files, weights)))
  {
    var default := DefaultWeight(files, weights);
    PlacedBeforeIsTotalPreorder(weights, default);
    SortSorts(PlacedBefore(weights, default), files);
  }

  lemma {:induction false} KnownMembers(files: seq<string>, weights: map<string, real>, x: real)
    requires x in Known(files, weights)
    ensures exists f :: f in weights && weights[f] == x
  {
    if files[0] !in weights || x != weights[files[0]] {
      KnownMembers(files[1..], weights, x);
    }
  }

  /** Recorded seconds that are never negative give weights that are never negative. */
  lemma WeightsNonNegative(files: seq<string>, weights: map<string, real>)
    requires forall f :: f in weights ==> weights[f] >= 0.0
    ensures NonNegative(WeightsOf(Order(files, weights), weights, DefaultWeight(files, weights)))
  {
    var known := Known(files, weights);
    if known != [] {
      forall x | x in known ensures x >= 0.0 {
        KnownMembers(files, weights, x);
      }
      MedianNonNegative(known);
    }
  }

  lemma MedianNonNegative(xs: seq<real>)
    requires xs != [] && forall x :: x in xs ==> x >= 0.0
    ensures Median(xs) >= 0.0
  {
    var s := Sort(RealLe, xs);
    SortSorts(RealLe, xs);
    assert |multiset(s)| == |multiset(xs)|;
    forall k | 0 <= k < |s| ensures s[k] >= 0.0 {
      assert s[k] in multiset(s);
      assert s[k] in xs;
    }
  }

  /** `round(x, 1)`: the nearest tenth, of two as near the even one. */
  function Tenth(x: real): (r: real)
    ensures x - 0.05 <= r <= x + 0.05
    ensures exists k :: r == Tenths(k)
  {
    var k := (10.0 * x).Floor;
    var over := 10.0 * x - k as real;
    var n := if over < 0.5 || (over == 0.5 && k % 2 == 0) then k else k + 1;
    Tenths(n)
  }

  function Tenths(k: int): real { k as real / 10.0 }

  /** So a quarter is two tenths, and seven twentieths are four. */
  lemma TenthIs(x: real, k: int)
    ensures k as real - 0.5 < 10.0 * x < k as real + 0.5 ==> Tenth(x) == k as real / 10.0
    ensures k % 2 == 0 && (10.0 * x == k as real - 0.5 || 10.0 * x == k as real + 0.5) ==> Tenth(x) == k as real / 10.0
  {
    if k as real - 0.5 <= 10.0 * x < k as real {
      FloorOf(10.0 * x, k - 1);
    } else if k as real <= 10.0 * x <= k as real + 0.5 {
      FloorOf(10.0 * x, k);
    }
  }

  lemma FloorOf(y: real, f: int)
    requires f as real <= y < f as real + 1.0
    ensures y.Floor == f
  {
  }

  // ---- in the seconds recorded ----

  /** What some files take: the seconds recorded for each, `default` for one with none. */
  function Total(fs: seq<string>, weights: map<string, real>, default: real): real {
    if fs == [] then 0.0
    else
      var f := fs[|fs| - 1];
      Total(fs[..|fs| - 1], weights, default) + if f in weights then weights[f] else default
  }

  lemma {:induction false} TotalConcat(a: seq<string>, b: seq<string>, weights: map<string, real>, default: real)
    ensures Total(a + b, weights, default) == Total(a, weights, default) + Total(b, weights, default)
  {
    if b == [] {
      assert a + b == a;
    } else {
      assert (a + b)[..|a + b| - 1] == a + b[..|b| - 1];
      TotalConcat(a, b[..|b| - 1], weights, default);
    }
  }

  lemma OneFewer(head: seq<string>, l: seq<string>, r: seq<string>, f: string)
    requires multiset(head + [f]) == multiset(l + ([f] + r))
    ensures multiset(head) == multiset(l + r)
  {
    assert multiset(head + [f]) == multiset(head) + multiset{f};
    assert multiset(l + ([f] + r)) == multiset(l + r) + multiset{f};
    Cancel(multiset(head), multiset(l + r), multiset{f});
  }

  lemma Cancel<T>(a: multiset<T>, b: multiset<T>, c: multiset<T>)
    requires a + c == b + c
    ensures a == b
  {
    assert a + c - c == a && b + c - c == b;
  }

  /** In whatever order they are named. */
  lemma {:induction false} TotalPermutes(a: seq<string>, b: seq<string>, weights: map<string, real>, default: real)
    requires multiset(a) == multiset(b)
    ensures Total(a, weights, default) == Total(b, weights, default)
    decreases |a|
  {
    if a == [] {
      assert |multiset(b)| == 0;
    } else {
      var head, f := a[..|a| - 1], a[|a| - 1];
      assert a == head + [f] && f in multiset(b);
      var k :| 0 <= k < |b| && b[k] == f;
      var l, r := b[..k], b[k + 1..];
      assert b == l + ([f] + r);
      OneFewer(head, l, r, f);
      TotalPermutes(head, l + r, weights, default);
      TotalConcat(l, r, weights, default);
      TotalConcat(l, [f] + r, weights, default);
      TotalConcat([f], r, weights, default);
      TotalConcat(head, [f], weights, default);
      hide Total;
    }
  }

  /** A shard's load is what its files take. */
  lemma {:induction false} LoadIsTotal(order: seq<string>, g: seq<nat>, i: nat, weights: map<string, real>, default: real)
    requires |order| == |g|
    ensures Load(WeightsOf(order, weights, default), g, i) == Total(Held(order, g, i), weights, default)
  {
    if order != [] {
      var head, last := order[..|order| - 1], |order| - 1;
      LoadIsTotal(head, g[..last], i, weights, default);
      assert WeightsOf(order, weights, default)[..last] == WeightsOf(head, weights, default);
      if g[last] == i {
        var h := Held(head, g[..last], i);
        assert (h + [order[last]])[..|h + [order[last]]| - 1] == h;
      } else {
        assert Held(order, g, i) == Held(head, g[..last], i);
      }
    }
  }

  /** The files are placed longest first, those that take as long by name. */
  lemma OrderIs(files: seq<string>, weights: map<string, real>, j: nat, k: nat)
    requires j < k < |Order(files, weights)|
    ensures var order, default := Order(files, weights), DefaultWeight(files, weights);
            var a, b := order[j], order[k];
            var ta, tb := if a in weights then weights[a] else default, if b in weights then weights[b] else default;
            ta > tb || (ta == tb && StringLe(a, b))
  {
    hide Sort, DefaultWeight, StringLe;
    var default := DefaultWeight(files, weights);
    var le := PlacedBefore(weights, default);
    PlacedBeforeIsTotalPreorder(weights, default);
    SortSorts(le, files);
    var order := Order(files, weights);
    assert order == Sort(le, files);
    assert le(order[j], order[k]);
    PlacedBeforeIs(order[j], order[k], weights, default);
  }

  lemma PlacedBeforeIs(a: string, b: string, weights: map<string, real>, default: real)
    ensures var ta, tb := if a in weights then weights[a] else default, if b in weights then weights[b] else default;
            PlacedBefore(weights, default)(a, b) <==> ta > tb || (ta == tb && StringLe(a, b))
  {
    hide StringLe;
    var wa, wb := Weight(a, weights, default), Weight(b, weights, default);
    var le := PlacedBefore(weights, default);
    if wa > wb {
      assert le(a, b);
    } else {
      assert le(a, b) <==> wa == wb && StringLe(a, b);
    }
  }

  /** The recorded seconds of the files, in turn: one file's, and two lists' one after the other. */
  lemma {:induction false} KnownIs(a: seq<string>, b: seq<string>, f: string, weights: map<string, real>)
    ensures Known([f], weights) == if f in weights then [weights[f]] else []
    ensures Known([], weights) == [] && Known(a + b, weights) == Known(a, weights) + Known(b, weights)
  {
    assert [f][1..] == [];
    if a == [] {
      assert a + b == b;
    } else {
      assert (a + b)[1..] == a[1..] + b;
      KnownIs(a[1..], b, f, weights);
    }
  }

  predicate Ascending(s: seq<real>) { forall i, j :: 0 <= i < j < |s| ==> s[i] <= s[j] }

  lemma FirstIsLeast(s: seq<real>, x: real)
    requires Ascending(s) && x in s
    ensures s[0] <= x
  {
  }

  lemma SameTails(a: seq<real>, b: seq<real>)
    requires a != [] && b != [] && a[0] == b[0] && multiset(a) == multiset(b)
    ensures multiset(a[1..]) == multiset(b[1..])
  {
    FirstAndRest(a);
    FirstAndRest(b);
    Cancel(multiset(a[1..]), multiset(b[1..]), multiset{a[0]});
  }

  lemma FirstAndRest(s: seq<real>)
    requires s != []
    ensures multiset(s) == multiset(s[1..]) + multiset{s[0]}
  {
    assert s == [s[0]] + s[1..];
  }

  /** There is one way to put numbers in order. */
  lemma {:induction false} OneAscending(a: seq<real>, b: seq<real>)
    requires Ascending(a) && Ascending(b) && multiset(a) == multiset(b)
    ensures a == b
  {
    if a == [] {
      assert |multiset(b)| == 0;
    } else {
      assert |multiset(a)| == |multiset(b)|;
      assert a[0] in multiset(b) && b[0] in multiset(a);
      FirstIsLeast(a, b[0]);
      FirstIsLeast(b, a[0]);
      SameTails(a, b);
      OneAscending(a[1..], b[1..]);
    }
  }

  /** A file with no seconds recorded takes the median of those that have: the middle of them in
      order, the mean of the middle two, or one second where there are none. */
  lemma DefaultIsMedian(files: seq<string>, weights: map<string, real>, s: seq<real>)
    requires Ascending(s) && multiset(s) == multiset(Known(files, weights))
    ensures var n := |s|;
            DefaultWeight(files, weights) ==
            if n == 0 then 1.0 else if n % 2 == 1 then s[n / 2] else (s[n / 2 - 1] + s[n / 2]) / 2.0
  {
    hide Known, Sort;
    var known := Known(files, weights);
    assert |multiset(s)| == |multiset(known)|;
    if known != [] {
      SortSorts(RealLe, known);
      OneAscending(Sort(RealLe, known), s);
    }
  }

  // ---- any other dealing ----

  function Union(deal: seq<multiset<string>>): multiset<string> {
    if deal == [] then multiset{} else Union(deal[..|deal| - 1]) + deal[|deal| - 1]
  }

  lemma {:induction false} UnionUpdate(deal: seq<multiset<string>>, i: nat, x: multiset<string>)
    requires i < |deal|
    ensures Union(deal[i := x]) + deal[i] == Union(deal) + x
  {
    var n := |deal| - 1;
    if i == n {
      assert deal[i := x][..n] == deal[..n];
    } else {
      assert deal[i := x][..n] == deal[..n][i := x];
      UnionUpdate(deal[..n], i, x);
      Swapped(Union(deal[..n][i := x]), deal[i], Union(deal[..n]), x, deal[n]);
    }
  }

  lemma Swapped(a: multiset<string>, b: multiset<string>, c: multiset<string>, d: multiset<string>, e: multiset<string>)
    requires a + b == c + d
    ensures (a + e) + b == (c + e) + d
  {
    assert (a + e) + b == (a + b) + e && (c + e) + d == (c + d) + e;
  }

  lemma {:induction false} InSome(deal: seq<multiset<string>>, f: string) returns (i: nat)
    requires f in Union(deal)
    ensures i < |deal| && f in deal[i]
  {
    var n := |deal| - 1;
    if f in deal[n] {
      i := n;
    } else {
      i := InSome(deal[..n], f);
    }
  }

  lemma OneTaken(a: multiset<string>, d: multiset<string>, h: multiset<string>, f: string)
    requires f in d && a + d == (h + multiset{f}) + (d - multiset{f})
    ensures a == h
  {
    assert (h + multiset{f}) + (d - multiset{f}) == h + d;
    Cancel(a, h, d);
  }

  lemma NothingDealt(deal: seq<multiset<string>>, i: nat)
    requires Union(deal) == multiset{} && i < |deal|
    ensures deal[i] == multiset{}
  {
    hide Union;
    UnionUpdate(deal, i, multiset{});
    var rest := Union(deal[i := multiset{}]);
    forall f ensures deal[i][f] == 0 {
      assert (rest + deal[i])[f] == rest[f] + deal[i][f];
    }
  }

  lemma OneDealt(order: seq<string>, g: seq<nat>, k: nat, deal: seq<multiset<string>>, i: nat)
    requires order != [] && |g| == |order| - 1 && k < |deal| && i < |deal|
    requires var f := order[|order| - 1];
             && f in deal[k]
             && multiset(Held(order[..|order| - 1], g, i)) == deal[k := deal[k] - multiset{f}][i]
    ensures multiset(Held(order, g + [k], i)) == deal[i]
  {
    assert (g + [k])[..|g|] == g;
    HeldSplit(order, g + [k], i);
    hide Held;
  }

  /** Any dealing of the files is an assignment of them. */
  lemma {:induction false} DealAssigns(order: seq<string>, deal: seq<multiset<string>>) returns (g: seq<nat>)
    requires Union(deal) == multiset(order)
    ensures IsAssignment(g, |order|, |deal|)
    ensures forall i :: 0 <= i < |deal| ==> multiset(Held(order, g, i)) == deal[i]
    decreases |order|
  {
    hide Union, Held;
    if order == [] {
      g := [];
      forall i | 0 <= i < |deal| ensures multiset(Held(order, g, i)) == deal[i] {
        NothingDealt(deal, i);
        NoneHeld(i);
      }
    } else {
      var head, f := order[..|order| - 1], order[|order| - 1];
      assert order == head + [f] && multiset(order) == multiset(head) + multiset{f};
      assert f in Union(deal);
      var k := InSome(deal, f);
      var less := deal[k := deal[k] - multiset{f}];
      UnionUpdate(deal, k, deal[k] - multiset{f});
      OneTaken(Union(less), deal[k], multiset(head), f);
      var g' := DealAssigns(head, less);
      g := g' + [k];
      forall i | 0 <= i < |deal| ensures multiset(Held(order, g, i)) == deal[i] {
        OneDealt(order, g', k, deal, i);
      }
    }
  }

  lemma NoneHeld(i: nat)
    ensures Held([], [], i) == []
  {
  }

  function Multisets(deal: seq<seq<string>>): (r: seq<multiset<string>>)
    ensures |r| == |deal| && forall i :: 0 <= i < |deal| ==> r[i] == multiset(deal[i])
  {
    seq(|deal|, i requires 0 <= i < |deal| => multiset(deal[i]))
  }

  /** A way of dealing the files out in which nobody's take more than `m`. */
  ghost predicate DealWithin(deal: seq<seq<string>>, files: seq<string>, weights: map<string, real>, m: real) {
    && Union(Multisets(deal)) == multiset(files)
    && forall i :: 0 <= i < |deal| ==> Total(deal[i], weights, DefaultWeight(files, weights)) <= m
  }

  /** It is an assignment of the files in the order placed, within the same. */
  lemma DealIsWithin(deal: seq<seq<string>>, files: seq<string>, weights: map<string, real>, m: real) returns (g: seq<nat>)
    requires DealWithin(deal, files, weights, m)
    ensures IsAssignment(g, |Order(files, weights)|, |deal|)
    ensures Within(WeightsOf(Order(files, weights), weights, DefaultWeight(files, weights)), g, |deal|, m)
  {
    hide Order, DefaultWeight, Total, Load, Held, Union;
    var order, default := Order(files, weights), DefaultWeight(files, weights);
    OrderDescends(files, weights);
    g := DealAssigns(order, Multisets(deal));
    forall i | 0 <= i < |deal| ensures Load(WeightsOf(order, weights, default), g, i) <= m {
      LoadIsTotal(order, g, i, weights, default);
      TotalPermutes(Held(order, g, i), deal[i], weights, default);
    }
  }

  lemma PlacedNearOptimal(n: nat, files: seq<string>, weights: map<string, real>, opt: seq<nat>, m: real, i: nat)
    requires n >= 1 && i < n && forall f :: f in weights ==> weights[f] >= 0.0
    requires IsAssignment(opt, |Order(files, weights)|, n)
    requires Within(WeightsOf(Order(files, weights), weights, DefaultWeight(files, weights)), opt, n, m)
    ensures var ws := WeightsOf(Order(files, weights), weights, DefaultWeight(files, weights));
            Load(ws, Greedy(ws, n), i) <= (4.0 / 3.0 - 1.0 / (3.0 * n as real)) * m
  {
    OrderDescends(files, weights);
    WeightsNonNegative(files, weights);
    var ws := WeightsOf(Order(files, weights), weights, DefaultWeight(files, weights));
    NearOptimal(ws, n, opt, m, i);
    BoundAsRatio(n, Load(ws, Greedy(ws, n), i), m);
  }

  /** The shards of any list of files and any recorded seconds, against any other way of
      dealing the same files out to n shards: no shard's files take more than 4/3 - 1/(3n) of the
      longest of that. */
  lemma SuiteNearOptimal(n: nat, files: seq<string>, weights: map<string, real>, deal: seq<seq<string>>, m: real, i: nat)
    requires n >= 1 && i < n && |deal| == n && DealWithin(deal, files, weights, m)
    requires forall f :: f in weights ==> weights[f] >= 0.0
    ensures var order, default := Order(files, weights), DefaultWeight(files, weights);
            Total(Held(order, Greedy(WeightsOf(order, weights, default), n), i), weights, default)
            <= (4.0 / 3.0 - 1.0 / (3.0 * n as real)) * m
  {
    hide Order, DefaultWeight, Load, Greedy, DealWithin, Total, Held;
    var order, default := Order(files, weights), DefaultWeight(files, weights);
    var opt := DealIsWithin(deal, files, weights, m);
    PlacedNearOptimal(n, files, weights, opt, m, i);
    LoadIsTotal(order, Greedy(WeightsOf(order, weights, default), n), i, weights, default);
  }

  /** Every file of every shard. */
  function AllFiles(out: seq<Shard>): multiset<string> {
    if out == [] then multiset{} else AllFiles(out[..|out| - 1]) + multiset(out[|out| - 1].files)
  }

  lemma {:induction false} AllFilesAreHeld(out: seq<Shard>, order: seq<string>, g: seq<nat>)
    requires |order| == |g|
    requires forall i :: 0 <= i < |out| ==> multiset(out[i].files) == multiset(Held(order, g, i))
    ensures AllFiles(out) == AllHeld(order, g, |out|)
  {
    hide Held, AllFiles, AllHeld;
    AllFilesStep(out);
    AllHeldStep(order, g, |out|);
    if out != [] {
      AllFilesAreHeld(out[..|out| - 1], order, g);
    }
  }

  lemma AllFilesStep(out: seq<Shard>)
    ensures AllFiles(out) == if out == [] then multiset{} else AllFiles(out[..|out| - 1]) + multiset(out[|out| - 1].files)
  {
  }

  lemma AllHeldStep(order: seq<string>, g: seq<nat>, k: nat)
    requires |order| == |g|
    ensures AllHeld(order, g, k) == if k == 0 then multiset{} else AllHeld(order, g, k - 1) + multiset(Held(order, g, k - 1))
  {
    hide Held;
  }

  /** No shard reports more, a rounding aside, than 4/3 - 1/(3n) of the longest of any way of
      dealing out the files. */
  ghost predicate NearBest(out: seq<Shard>, files: seq<string>, weights: map<string, real>) {
    forall deal, m, i :: |deal| == |out| && DealWithin(deal, files, weights, m) && 0 <= i < |out| ==>
      out[i].seconds <= (4.0 / 3.0 - 1.0 / (3.0 * |out| as real)) * m + 0.05
  }

  lemma ReportedNearBest(out: seq<Shard>, n: nat, files: seq<string>, weights: map<string, real>)
    requires n >= 1 && |out| == n && forall f :: f in weights ==> weights[f] >= 0.0
    requires var ws := WeightsOf(Order(files, weights), weights, DefaultWeight(files, weights));
             forall i :: 0 <= i < n ==> out[i].seconds == Tenth(Load(ws, Greedy(ws, n), i))
    ensures NearBest(out, files, weights)
  {
    hide Order, DefaultWeight, Load, Greedy, Tenth, DealWithin;
    var ws := WeightsOf(Order(files, weights), weights, DefaultWeight(files, weights));
    forall deal, m, i | |deal| == |out| && DealWithin(deal, files, weights, m) && 0 <= i < n
      ensures out[i].seconds <= (4.0 / 3.0 - 1.0 / (3.0 * n as real)) * m + 0.05
    {
      SuiteNearOptimal(n, files, weights, deal, m, i);
      LoadIsTotal(Order(files, weights), Greedy(ws, n), i, weights, DefaultWeight(files, weights));
    }
  }

  /** A shard reports what its files take, to the nearest tenth of a second. */
  lemma ReportedTotal(shard: Shard, order: seq<string>, g: seq<nat>, i: nat, weights: map<string, real>, default: real)
    requires |order| == |g| && shard.seconds == Tenth(Load(WeightsOf(order, weights, default), g, i))
    requires multiset(shard.files) == multiset(Held(order, g, i))
    ensures shard.seconds == Tenth(Total(shard.files, weights, default))
    ensures -0.05 <= shard.seconds - Total(shard.files, weights, default) <= 0.05
  {
    hide Load, Total, Held;
    LoadIsTotal(order, g, i, weights, default);
    TotalPermutes(Held(order, g, i), shard.files, weights, default);
  }

  /** The shards as the program answers them hold every file once, each its own in name order, and
      report what those take; none reports more than the bound of any other dealing; and they are
      the assignment `Greedy` of the files in placing order. */
  method Shards(n: nat, files: seq<string>, weights: map<string, real>) returns (out: seq<Shard>)
    requires n >= 1
    ensures |out| == n && AllFiles(out) == multiset(files)
    ensures forall i :: 0 <= i < n ==> SortedBy(StringLe, out[i].files)
    ensures forall i :: 0 <= i < n ==>
              -0.05 <= out[i].seconds - Total(out[i].files, weights, DefaultWeight(files, weights)) <= 0.05
    ensures (forall f :: f in weights ==> weights[f] >= 0.0) ==> NearBest(out, files, weights)
    ensures var order := Order(files, weights);
            var ws := WeightsOf(order, weights, DefaultWeight(files, weights));
            multiset(order) == multiset(files) && Descending(ws) &&
            forall i :: 0 <= i < n ==>
              && out[i].seconds == Tenth(Load(ws, Greedy(ws, n), i))
              && out[i].files == Sort(StringLe, Held(order, Greedy(ws, n), i))
  {
    hide Order, DefaultWeight, Sort, Load, Held, Greedy, Weight, Descending, Tenth, NearBest, Total, SortedBy;
    var default := DefaultWeight(files, weights);
    var order := Order(files, weights);
    OrderDescends(files, weights);
    ghost var ws := WeightsOf(order, weights, default);
    out := seq(n, _ => Shard(0.0, []));
    assert ws[..0] == [] && order[..0] == [];
    NothingHeld(out, n);
    for j := 0 to |order|
      invariant Holds(out, ws[..j], order[..j], n)
    {
      var lightest := ArgMin(Seconds(out));
      PlacingHolds(out, ws, order, j, n);
      out := out[lightest := Shard(out[lightest].seconds + Weight(order[j], weights, default),
                                   out[lightest].files + [order[j]])];
    }
    assert ws[..|order|] == ws && order[..|order|] == order;
    out := seq(n, i requires 0 <= i < n => Shard(Tenth(out[i].seconds), Sort(StringLe, out[i].files)));
    EndsDealt(out, order, ws, n);
    forall i | 0 <= i < n
      ensures SortedBy(StringLe, out[i].files)
      ensures -0.05 <= out[i].seconds - Total(out[i].files, weights, default) <= 0.05
    {
      StringLeIsTotalPreorder();
      SortSorts(StringLe, Held(order, Greedy(ws, n), i));
      ReportedTotal(out[i], order, Greedy(ws, n), i, weights, default);
    }
    if forall f :: f in weights ==> weights[f] >= 0.0 {
      ReportedNearBest(out, n, files, weights);
    }
  }

  lemma EndsDealt(out: seq<Shard>, order: seq<string>, ws: seq<real>, n: nat)
    requires n >= 1 && |out| == n && |ws| == |order|
    requires forall i :: 0 <= i < n ==> out[i].files == Sort(StringLe, Held(order, Greedy(ws, n), i))
    ensures AllFiles(out) == multiset(order)
  {
    var g := Greedy(ws, n);
    hide Held, Greedy, Sort, AllFiles, AllHeld;
    StringLeIsTotalPreorder();
    forall i | 0 <= i < n ensures multiset(out[i].files) == multiset(Held(order, g, i)) {
      SortSorts(StringLe, Held(order, g, i));
    }
    AllFilesAreHeld(out, order, g);
    ShardsPartition(order, g, n);
  }

  function Seconds(out: seq<Shard>): (r: seq<real>)
    ensures |r| == |out| && forall i :: 0 <= i < |out| ==> r[i] == out[i].seconds
  {
    seq(|out|, i requires 0 <= i < |out| => out[i].seconds)
  }

  /** The shards hold exactly what `Greedy` gives them. */
  ghost predicate Holds(out: seq<Shard>, ws: seq<real>, order: seq<string>, n: nat)
    requires n >= 1 && |ws| == |order|
  {
    |out| == n && forall i :: 0 <= i < n ==>
      && out[i].seconds == Load(ws, Greedy(ws, n), i)
      && out[i].files == Held(order, Greedy(ws, n), i)
  }

  lemma NothingHeld(out: seq<Shard>, n: nat)
    requires n >= 1 && |out| == n && forall i :: 0 <= i < n ==> out[i] == Shard(0.0, [])
    ensures Holds(out, [], [], n)
  {
  }

  /** Adding file j to the lightest shard keeps the shards what `Greedy` gives them. */
  lemma PlacingHolds(out: seq<Shard>, ws: seq<real>, order: seq<string>, j: nat, n: nat)
    requires |ws| == |order| && j < |ws| && n >= 1
    requires Holds(out, ws[..j], order[..j], n)
    ensures var k := ArgMin(Seconds(out));
            Holds(out[k := Shard(out[k].seconds + ws[j], out[k].files + [order[j]])],
                  ws[..j + 1], order[..j + 1], n)
  {
    var w, o := ws[..j + 1], order[..j + 1];
    assert w[..j] == ws[..j] && o[..j] == order[..j];
    var g := Greedy(ws[..j], n);
    assert Seconds(out) == Loads(ws[..j], g, n);
    var k := ArgMin(Seconds(out));
    assert Greedy(w, n) == g + [k];
    hide Greedy, ArgMin, Seconds, Loads, Load, Held;
    var out' := out[k := Shard(out[k].seconds + ws[j], out[k].files + [order[j]])];
    forall i | 0 <= i < n
      ensures out'[i].seconds == Load(w, g + [k], i) && out'[i].files == Held(o, g + [k], i)
    {
      OneMorePlaced(w, o, g, k, i);
    }
  }

  lemma OneMorePlaced(w: seq<real>, o: seq<string>, g: seq<nat>, k: nat, i: nat)
    requires |w| == |o| == |g| + 1
    ensures Load(w, g + [k], i) == Load(w[..|g|], g, i) + if k == i then w[|g|] else 0.0
    ensures Held(o, g + [k], i) == Held(o[..|g|], g, i) + if k == i then [o[|g|]] else []
  {
    assert (g + [k])[..|g|] == g;
  }
}
