/** The cost SLO governor: three severities joined into one pacing action. */
module SloGovernor {
  import opened Money
  import opened Options
  import opened Sorting
  import CB = CircuitBreaker

  datatype Pacing = Allow | Throttle | Defer

  datatype CostSlo = CostSlo(
    perDayTarget: real,
    perRequestP95: Option<real>,
    throttleThreshold: real,
    deferThreshold: real)

  /** What the model's validator accepts. */
  ghost predicate ValidSlo(slo: CostSlo) {
    && slo.perDayTarget > 0.0
    && (slo.perRequestP95.Some? ==> slo.perRequestP95.value > 0.0)
    && 0.0 <= slo.throttleThreshold < slo.deferThreshold
  }

  /** `_ratio`: quantized to six decimals, half up. */
  function Ratio(numerator: real, denominator: real): real {
    if denominator <= 0.0 then 0.0
    else RoundHalfUp(numerator / denominator * 1000000.0) as real / 1000000.0
  }

  /** `_percentile` on a sorted list: the nearest rank, clamped to the list. */
  function Percentile(sorted: seq<real>, pct: nat): real {
    var n := |sorted|;
    if n == 0 then 0.0
    else if n == 1 then sorted[0]
    else
      var idx := (pct * n + 99) / 100 - 1;
      sorted[if idx < 0 then 0 else if idx >= n then n - 1 else idx]
  }

  predicate RealLe(a: real, b: real) {
    a <= b
  }

  function P95(costs: seq<real>): real {
    Percentile(Sort(costs, RealLe), 95)
  }

  /** `None` when there is no per-request target or no recent cost. */
  function RequestRatio(slo: CostSlo, costs: seq<real>): Option<real> {
    if costs != [] && slo.perRequestP95.Some? then Some(Ratio(P95(costs), slo.perRequestP95.value)) else None
  }

  /** `_decide`, branch by branch: a velocity baseline, escalated by the request p95, then by the
      breaker. */
  function Decide(slo: CostSlo, velocity: real, request: Option<real>, breaker: Option<CB.BreakerAction>): Pacing {
    var baseline :=
      if velocity >= slo.deferThreshold then Defer
      else if velocity >= slo.throttleThreshold then Throttle
      else Allow;
    var escalated :=
      if request.None? then baseline
      else if request.value >= slo.deferThreshold then Defer
      else if request.value >= slo.throttleThreshold && baseline == Allow then Throttle
      else baseline;
    if breaker == Some(CB.Block) then Defer
    else if breaker == Some(CB.Downgrade) then (if escalated == Allow then Throttle else escalated)
    else escalated
  }

  function Evaluate(slo: CostSlo, burnPerDay: real, costs: seq<real>, breaker: Option<CB.BreakerAction>): Pacing {
    Decide(slo, Ratio(burnPerDay, slo.perDayTarget), RequestRatio(slo, costs), breaker)
  }

  // ------------------------------------------------------------- join of severities

  function Rank(p: Pacing): nat {
    match p
    case Allow => 0
    case Throttle => 1
    case Defer => 2
  }

  function Join(a: Pacing, b: Pacing): Pacing {
    if Rank(a) >= Rank(b) then a else b
  }

  function RatioSeverity(slo: CostSlo, ratio: real): Pacing {
    if ratio >= slo.deferThreshold then Defer else if ratio >= slo.throttleThreshold then Throttle else Allow
  }

  function BreakerSeverity(breaker: Option<CB.BreakerAction>): Pacing {
    match breaker
    case Some(Block) => Defer
    case Some(Downgrade) => Throttle
    case _ => Allow
  }

  /** The action is the strongest of the three severities, each computed on its own. */
  lemma DecideIsJoin(slo: CostSlo, velocity: real, request: Option<real>, breaker: Option<CB.BreakerAction>)
    requires ValidSlo(slo)
    ensures Decide(slo, velocity, request, breaker)
         == Join(Join(RatioSeverity(slo, velocity),
                      if request.Some? then RatioSeverity(slo, request.value) else Allow),
                 BreakerSeverity(breaker))
  {
    assert Rank(RatioSeverity(slo, velocity)) <= 2;
  }

  // ------------------------------------------------------------- the percentile

  function CountLe(xs: seq<real>, v: real): nat {
    if xs == [] then 0 else (if xs[0] <= v then 1 else 0) + CountLe(xs[1..], v)
  }

  function CountLt(xs: seq<real>, v: real): nat {
    if xs == [] then 0 else (if xs[0] < v then 1 else 0) + CountLt(xs[1..], v)
  }

  lemma {:induction false} CountInsert(x: real, ys: seq<real>, v: real)
    ensures CountLe(Insert(x, ys, RealLe), v) == CountLe(ys, v) + if x <= v then 1 else 0
    ensures CountLt(Insert(x, ys, RealLe), v) == CountLt(ys, v) + if x < v then 1 else 0
  {
    if ys == [] || x <= ys[0] {
      assert ([x] + ys)[1..] == ys;
    } else {
      CountInsert(x, ys[1..], v);
      assert ([ys[0]] + Insert(x, ys[1..], RealLe))[1..] == Insert(x, ys[1..], RealLe);
    }
  }

  lemma {:induction false} CountSort(xs: seq<real>, v: real)
    ensures CountLe(Sort(xs, RealLe), v) == CountLe(xs, v) && CountLt(Sort(xs, RealLe), v) == CountLt(xs, v)
  {
    if xs != [] {
      CountSort(xs[1..], v);
      CountInsert(xs[0], Sort(xs[1..], RealLe), v);
    }
  }

  /** In a sorted list the element at `k` has more than `k` values at or below it, and at most
      `k` strictly below it. */
  lemma {:induction false} SortedRank(xs: seq<real>, k: nat)
    requires Sorted(xs, RealLe) && k < |xs|
    ensures CountLe(xs, xs[k]) >= k + 1 && CountLt(xs, xs[k]) <= k
    decreases xs
  {
    if k == 0 {
      NoneBelow(xs, xs[0]);
    } else {
      SortedRank(xs[1..], k - 1);
      assert xs[1..][k - 1] == xs[k] && RealLe(xs[0], xs[k]);
    }
  }

  lemma {:induction false} NoneBelow(xs: seq<real>, v: real)
    requires forall i :: 0 <= i < |xs| ==> v <= xs[i]
    ensures CountLt(xs, v) == 0
  {
    if xs != [] {
      NoneBelow(xs[1..], v);
    }
  }

  /** More than `k` values at or below `v` put the `k`-th sorted value at or below `v`. */
  lemma {:induction false} RankBounded(xs: seq<real>, k: nat, v: real)
    requires Sorted(xs, RealLe) && k < |xs| && CountLe(xs, v) > k
    ensures xs[k] <= v
    decreases xs
  {
    if k == 0 {
      if xs[0] > v {
        NoneLe(xs, v);
      }
    } else {
      RankBounded(xs[1..], k - 1, v);
    }
  }

  lemma {:induction false} NoneLe(xs: seq<real>, v: real)
    requires forall i :: 0 <= i < |xs| ==> v < xs[i]
    ensures CountLe(xs, v) == 0
  {
    if xs != [] {
      NoneLe(xs[1..], v);
    }
  }

  function NearestRank(n: nat): nat
    requires n > 0
    ensures NearestRank(n) < n
    ensures 100 * (NearestRank(n) + 1) >= 95 * n > 100 * NearestRank(n)
  {
    (95 * n + 99) / 100 - 1
  }

  lemma PercentileAtRank(sorted: seq<real>)
    requires sorted != []
    ensures Percentile(sorted, 95) == sorted[NearestRank(|sorted|)]
  {
  }

  lemma P95IsRanked(costs: seq<real>)
    requires costs != []
    ensures |Sort(costs, RealLe)| == |costs| && P95(costs) == Sort(costs, RealLe)[NearestRank(|costs|)]
  {
    SortPermutes(costs, RealLe);
    PercentileAtRank(Sort(costs, RealLe));
  }

  /** The true nearest rank: at least 95 percent of the costs are at or below it, fewer than
      95 percent are strictly below it, and it is one of the costs. */
  lemma P95IsNearestRank(costs: seq<real>)
    requires costs != []
    ensures P95(costs) in costs
    ensures 100 * CountLe(costs, P95(costs)) >= 95 * |costs|
    ensures 100 * CountLt(costs, P95(costs)) < 95 * |costs|
  {
    var sorted := Sort(costs, RealLe);
    P95IsRanked(costs);
    SortSorted(costs, RealLe);
    SortMembers(costs, RealLe);
    SortedRank(sorted, NearestRank(|costs|));
    CountSort(costs, P95(costs));
  }

  ghost predicate Pointwise(a: seq<real>, b: seq<real>) {
    |a| == |b| && forall i :: 0 <= i < |a| ==> a[i] <= b[i]
  }

  lemma {:induction false} CountPointwise(a: seq<real>, b: seq<real>, v: real)
    requires Pointwise(a, b)
    ensures CountLe(a, v) >= CountLe(b, v)
  {
    if a != [] {
      CountPointwise(a[1..], b[1..], v);
    }
  }

  /** Raising costs one by one, in any order, never lowers the p95. */
  lemma P95Monotone(a: seq<real>, b: seq<real>)
    requires Pointwise(a, b) && a != []
    ensures P95(a) <= P95(b)
  {
    var k := NearestRank(|a|);
    var v := P95(b);
    P95IsRanked(a);
    P95IsRanked(b);
    SortSorted(a, RealLe);
    SortSorted(b, RealLe);
    SortedRank(Sort(b, RealLe), k);
    CountSort(a, v);
    CountSort(b, v);
    CountPointwise(a, b, v);
    RankBounded(Sort(a, RealLe), k, v);
  }

  // ------------------------------------------------------------- monotonicity

  lemma RatioMonotone(a: real, b: real, d: real)
    requires a <= b
    ensures Ratio(a, d) <= Ratio(b, d)
  {
    if d > 0.0 {
      CB.DivMonotone(a, b, d);
      RoundMonotone(a / d * 1000000.0, b / d * 1000000.0);
    }
  }

  predicate NoMilder(a: Option<CB.BreakerAction>, b: Option<CB.BreakerAction>) {
    Rank(BreakerSeverity(a)) <= Rank(BreakerSeverity(b))
  }

  /** Burning faster, a stricter breaker, and dearer requests never relax the pacing. */
  lemma EvaluateMonotone(slo: CostSlo, burn: real, costs: seq<real>, breaker: Option<CB.BreakerAction>,
                         burn': real, costs': seq<real>, breaker': Option<CB.BreakerAction>)
    requires ValidSlo(slo)
    requires burn <= burn' && Pointwise(costs, costs') && NoMilder(breaker, breaker')
    ensures Rank(Evaluate(slo, burn, costs, breaker)) <= Rank(Evaluate(slo, burn', costs', breaker'))
  {
    RatioMonotone(burn, burn', slo.perDayTarget);
    DecideIsJoin(slo, Ratio(burn, slo.perDayTarget), RequestRatio(slo, costs), breaker);
    DecideIsJoin(slo, Ratio(burn', slo.perDayTarget), RequestRatio(slo, costs'), breaker');
    if RequestRatio(slo, costs).Some? {
      P95Monotone(costs, costs');
      RatioMonotone(P95(costs), P95(costs'), slo.perRequestP95.value);
    }
  }
}
