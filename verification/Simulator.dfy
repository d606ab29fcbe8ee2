/** What-if projections: the spend chain over a batch of hypothetical workloads. */
module Simulator {
  import opened Options

  /** What the planner answers for one workload: an error, or the upper bounds of the quotes of
      its attempts in order, in micro-dollars. */
  datatype Route = Unplannable | Attempts(upperBounds: seq<nat>)

  datatype Projection = Projection(
    reserved: nat,
    currentSpend: nat,
    projectedSpend: nat,
    headroom: Option<int>,
    wouldExceed: Option<bool>)

  datatype Batch = Batch(
    projections: seq<Projection>,
    totalReserved: nat,
    startingSpend: nat,
    projectedSpend: nat,
    headroom: Option<int>,
    wouldExceed: Option<bool>)

  function BudgetHeadroom(budget: Option<nat>, projected: nat): Option<int> {
    if budget.None? then None else Some(budget.value - projected)
  }

  function Exceeds(headroom: Option<int>): Option<bool> {
    if headroom.None? then None else Some(headroom.value < 0)
  }

  /** Only the first attempt is reserved; no attempt reserves nothing. */
  function Reserved(route: Route): nat {
    if route.Attempts? && route.upperBounds != [] then route.upperBounds[0] else 0
  }

  function Simulate(route: Route, budget: Option<nat>, currentSpend: nat): Result<Projection, ()> {
    if route.Unplannable? then Err(())
    else
      var projected := currentSpend + Reserved(route);
      var headroom := BudgetHeadroom(budget, projected);
      Ok(Projection(Reserved(route), currentSpend, projected, headroom, Exceeds(headroom)))
  }

  /** What the workloads reserve together, whatever the budget. */
  function TotalReserved(routes: seq<Route>): nat {
    if routes == [] then 0 else TotalReserved(routes[..|routes| - 1]) + Reserved(routes[|routes| - 1])
  }

  function SumReserved(projections: seq<Projection>): nat {
    if projections == [] then 0
    else SumReserved(projections[..|projections| - 1]) + projections[|projections| - 1].reserved
  }

  predicate Plannable(routes: seq<Route>) {
    forall i :: 0 <= i < |routes| ==> routes[i].Attempts?
  }

  function Projections(routes: seq<Route>, budget: Option<nat>, start: nat): seq<Projection>
    requires Plannable(routes)
  {
    if routes == [] then []
    else
      var n := |routes| - 1;
      Projections(routes[..n], budget, start)
      + [Simulate(routes[n], budget, start + TotalReserved(routes[..n])).value]
  }

  /** The batch as it should be: the start, everything reserved, and one projection a workload. */
  function SimulateBatch(routes: seq<Route>, budget: Option<nat>, start: nat): Result<Batch, ()> {
    if !Plannable(routes) then Err(())
    else
      var end := start + TotalReserved(routes);
      var headroom := BudgetHeadroom(budget, end);
      Ok(Batch(Projections(routes, budget, start), TotalReserved(routes), start, end, headroom, Exceeds(headroom)))
  }

  class WhatIfSimulator {
    const budget: Option<nat>
    const currentSpend: nat

    constructor (budget: Option<nat>, currentSpend: nat)
      ensures this.budget == budget && this.currentSpend == currentSpend
    {
      this.budget, this.currentSpend := budget, currentSpend;
    }

    /** `simulate_workloads`: the running spend is threaded from one projection to the next, and
        the reserved total is summed from the projections afterwards. */
    method SimulateWorkloads(routes: seq<Route>) returns (r: Result<Batch, ()>)
      ensures r == SimulateBatch(routes, budget, currentSpend)
    {
      var runningSpend := currentSpend;
      var projections: seq<Projection> := [];
      for i := 0 to |routes|
        invariant Plannable(routes[..i])
        invariant runningSpend == currentSpend + TotalReserved(routes[..i])
        invariant projections == Projections(routes[..i], budget, currentSpend)
      {
        var projection := Simulate(routes[i], budget, runningSpend);
        if projection.Err? {
          return Err(());
        }
        assert routes[..i + 1][..i] == routes[..i];
        projections := projections + [projection.value];
        runningSpend := projection.value.projectedSpend;
      }
      assert routes[..|routes|] == routes;
      ProjectionsSum(routes, budget, currentSpend);
      var headroom := BudgetHeadroom(budget, runningSpend);
      return Ok(Batch(projections, SumReserved(projections), currentSpend, runningSpend, headroom, Exceeds(headroom)));
    }
  }

  // ------------------------------------------------------------- the chain

  ghost predicate LinkedAt(projections: seq<Projection>, routes: seq<Route>, start: nat, i: nat)
    requires |projections| == |routes| && i < |projections|
  {
    && projections[i].currentSpend == (if i == 0 then start else projections[i - 1].projectedSpend)
    && projections[i].reserved == Reserved(routes[i])
    && projections[i].projectedSpend == projections[i].currentSpend + projections[i].reserved
  }

  /** Each projection starts where the one before it ended and adds its own reservation. */
  ghost predicate Chained(projections: seq<Projection>, routes: seq<Route>, start: nat) {
    |projections| == |routes| && forall i :: 0 <= i < |projections| ==> LinkedAt(projections, routes, start, i)
  }

  lemma ProjectionsStep(routes: seq<Route>, budget: Option<nat>, start: nat)
    requires Plannable(routes) && routes != []
    ensures var n := |routes| - 1; var current := start + TotalReserved(routes[..n]);
            var last := Simulate(routes[n], budget, current);
            && last.Ok? && last.value.currentSpend == current && last.value.reserved == Reserved(routes[n])
            && last.value.projectedSpend == start + TotalReserved(routes)
            && Projections(routes, budget, start) == Projections(routes[..n], budget, start) + [last.value]
  {
  }

  /** A chain that ends at `end` extends by a projection that starts there. */
  lemma ChainExtends(ps: seq<Projection>, routes: seq<Route>, start: nat, next: Projection, route: Route)
    requires Chained(ps, routes, start)
    requires next.currentSpend == if ps == [] then start else ps[|ps| - 1].projectedSpend
    requires next.reserved == Reserved(route) && next.projectedSpend == next.currentSpend + next.reserved
    ensures Chained(ps + [next], routes + [route], start)
  {
    forall i | 0 <= i < |ps| + 1
      ensures LinkedAt(ps + [next], routes + [route], start, i)
    {
      if i < |ps| {
        assert LinkedAt(ps, routes, start, i);
      }
    }
  }

  lemma {:induction false} ProjectionsChain(routes: seq<Route>, budget: Option<nat>, start: nat)
    requires Plannable(routes)
    ensures var ps := Projections(routes, budget, start);
            Chained(ps, routes, start) && (ps != [] ==> ps[|ps| - 1].projectedSpend == start + TotalReserved(routes))
  {
    if routes != [] {
      var n := |routes| - 1;
      var before := Projections(routes[..n], budget, start);
      ProjectionsStep(routes, budget, start);
      ProjectionsChain(routes[..n], budget, start);
      assert n == 0 ==> TotalReserved(routes[..n]) == 0;
      ChainExtends(before, routes[..n], start, Simulate(routes[n], budget, start + TotalReserved(routes[..n])).value, routes[n]);
      assert routes == routes[..n] + [routes[n]];
    }
  }

  lemma {:induction false} ProjectionsSum(routes: seq<Route>, budget: Option<nat>, start: nat)
    requires Plannable(routes)
    ensures SumReserved(Projections(routes, budget, start)) == TotalReserved(routes)
  {
    if routes != [] {
      var n := |routes| - 1;
      var ps := Projections(routes, budget, start);
      ProjectionsStep(routes, budget, start);
      ProjectionsSum(routes[..n], budget, start);
      assert ps[..|ps| - 1] == Projections(routes[..n], budget, start);
    }
  }

  /** Conservation and the verdict: a batch ends at its start plus the sum of its projections'
      reservations, its projections chain up to that end, and it exceeds exactly when that end is
      above a configured budget. It fails exactly when some workload cannot be planned. */
  lemma BatchConserves(routes: seq<Route>, budget: Option<nat>, start: nat)
    ensures SimulateBatch(routes, budget, start).Err? <==> exists i :: 0 <= i < |routes| && routes[i].Unplannable?
    ensures var r := SimulateBatch(routes, budget, start);
            r.Ok? ==>
              && Chained(r.value.projections, routes, start)
              && r.value.totalReserved == SumReserved(r.value.projections)
              && r.value.projectedSpend == r.value.startingSpend + r.value.totalReserved
              && (routes != [] ==> r.value.projectedSpend == r.value.projections[|routes| - 1].projectedSpend)
              && (r.value.wouldExceed == Some(true) <==> budget.Some? && r.value.projectedSpend > budget.value)
  {
    if Plannable(routes) {
      ProjectionsChain(routes, budget, start);
      ProjectionsSum(routes, budget, start);
    } else {
      var i :| 0 <= i < |routes| && !routes[i].Attempts?;
      assert routes[i].Unplannable?;
    }
  }

  /** Order affects the intermediate projections but never the verdict: the batch's total is the
      sum over its workloads, so swapping two batches laid end to end changes nothing in the end. */
  lemma {:induction false} ReservedAppend(a: seq<Route>, b: seq<Route>)
    ensures TotalReserved(a + b) == TotalReserved(a) + TotalReserved(b)
  {
    if b == [] {
      assert a + b == a;
    } else {
      var n := |b| - 1;
      ReservedAppend(a, b[..n]);
      assert (a + b)[..|a + b| - 1] == a + b[..n];
    }
  }

  lemma VerdictIgnoresOrder(a: seq<Route>, b: seq<Route>, budget: Option<nat>, start: nat)
    requires Plannable(a) && Plannable(b)
    ensures var ab := SimulateBatch(a + b, budget, start); var ba := SimulateBatch(b + a, budget, start);
            && ab.Ok? && ba.Ok?
            && ab.value.projectedSpend == ba.value.projectedSpend && ab.value.wouldExceed == ba.value.wouldExceed
  {
    ReservedAppend(a, b);
    ReservedAppend(b, a);
  }
}
