/** The `cost_daily` table under truth-up: fetch a day range, reconcile, write the corrections. */
module CostLedger {
  import opened Options
  import opened OrderedSets
  import opened Reconcile
  import opened TruthUp

  predicate InRange(w: Window, first: int, end: int) {
    first <= w.day < end
  }

  function InRangeKeys(cost: map<Window, nat>, first: int, end: int): set<Window> {
    set w | w in cost && InRange(w, first, end)
  }

  function RowsOf(cost: map<Window, nat>, ws: seq<Window>): seq<Row>
    requires forall w :: w in ws ==> w in cost
  {
    seq(|ws|, i requires 0 <= i < |ws| => Row(ws[i], cost[ws[i]]))
  }

  ghost function RangeWindows(cost: map<Window, nat>, first: int, end: int): (ws: seq<Window>)
    ensures NoDuplicates(ws) && forall w :: w in ws <==> w in cost && InRange(w, first, end)
  {
    WindowLeLinear();
    var ws := Ordered(InRangeKeys(cost, first, end), WindowLe);
    assert forall w :: w in ws <==> w in Elements(ws);
    ws
  }

  /** The rows of the days `[first, end)`, in window order. */
  ghost function Fetched(cost: map<Window, nat>, first: int, end: int): seq<Row> {
    RowsOf(cost, RangeWindows(cost, first, end))
  }

  function Corrected(cost: map<Window, nat>, adjustments: seq<Adjustment>): map<Window, nat> {
    if adjustments == [] then cost
    else
      var n := |adjustments| - 1;
      Corrected(cost, adjustments[..n])[adjustments[n].window := adjustments[n].actual]
  }

  class CostDaily {
    var cost: map<Window, nat>

    constructor (cost: map<Window, nat>)
      ensures this.cost == cost
    {
      this.cost := cost;
    }

    /** `fetch_recorded_windows`. */
    method FetchRecordedWindows(first: int, end: int) returns (r: Result<seq<Row>, ()>)
      ensures r == if end <= first then Err(()) else Ok(Fetched(cost, first, end))
    {
      if end <= first {
        return Err(());
      }
      WindowLeLinear();
      var ws := SortedSet(InRangeKeys(cost, first, end), WindowLe);
      assert ws == RangeWindows(cost, first, end);
      return Ok(RowsOf(cost, ws));
    }

    /** `apply_adjustments`: every corrected window is set to the provider's amount. */
    method ApplyAdjustments(adjustments: seq<Adjustment>) returns (count: nat)
      modifies this
      ensures cost == Corrected(old(cost), adjustments) && count == |adjustments|
    {
      for i := 0 to |adjustments|
        invariant cost == Corrected(old(cost), adjustments[..i])
      {
        assert adjustments[..i + 1][..i] == adjustments[..i];
        cost := cost[adjustments[i].window := adjustments[i].actual];
      }
      assert adjustments[..|adjustments|] == adjustments;
      return |adjustments|;
    }
  }

  /** `truth_up_cost_daily`: an empty or reversed range is an error and changes nothing. */
  method TruthUpCostDaily(repository: CostDaily, first: int, end: int, actuals: seq<ActualRow>, tolerance: nat)
    returns (r: Result<Plan, ()>)
    modifies repository
    ensures r == if end <= first then Err(()) else Ok(PlanFor(old(repository.cost), first, end, actuals, tolerance))
    ensures repository.cost == if end <= first then old(repository.cost)
                               else TruedUp(old(repository.cost), first, end, actuals, tolerance)
  {
    var recorded := repository.FetchRecordedWindows(first, end);
    if recorded.Err? {
      return Err(());
    }
    var plan := ReconcileCost(recorded.value, actuals, tolerance);
    var _ := repository.ApplyAdjustments(plan.adjustments);
    return Ok(plan);
  }

  ghost function PlanFor(cost: map<Window, nat>, first: int, end: int, actuals: seq<ActualRow>, tolerance: nat): Plan {
    PlanOf(Fetched(cost, first, end), actuals, tolerance)
  }

  ghost function TruedUp(cost: map<Window, nat>, first: int, end: int, actuals: seq<ActualRow>, tolerance: nat): map<Window, nat> {
    Corrected(cost, PlanFor(cost, first, end, actuals, tolerance).adjustments)
  }

  // ------------------------------------------------------------- what one window sees

  /** The recorded amount a reconciliation of the range sees. */
  function Seen(cost: map<Window, nat>, first: int, end: int, w: Window): nat {
    if w in cost && InRange(w, first, end) then cost[w] else 0
  }

  lemma {:induction false} RowsTotal(cost: map<Window, nat>, ws: seq<Window>, w: Window)
    requires NoDuplicates(ws) && forall v :: v in ws ==> v in cost
    ensures Total(RowsOf(cost, ws), w) == if w in ws then cost[w] else 0
  {
    if ws != [] {
      var n := |ws| - 1;
      assert ws == ws[..n] + [ws[n]];
      RowsTotal(cost, ws[..n], w);
      assert RowsOf(cost, ws)[..n] == RowsOf(cost, ws[..n]);
    }
  }

  lemma FetchedTotal(cost: map<Window, nat>, first: int, end: int, w: Window)
    ensures Total(Fetched(cost, first, end), w) == Seen(cost, first, end, w)
  {
    RowsTotal(cost, RangeWindows(cost, first, end), w);
  }

  /** The drift of one window as the reconciliation of the range computes it. */
  function SeenDrift(cost: map<Window, nat>, first: int, end: int, actuals: seq<ActualRow>, w: Window): int {
    Total(Amounts(actuals), w) - Seen(cost, first, end, w)
  }

  lemma PlanWindows(cost: map<Window, nat>, first: int, end: int, actuals: seq<ActualRow>, tolerance: nat)
    ensures var plan := PlanFor(cost, first, end, actuals, tolerance).adjustments;
            && Increasing(plan)
            && (forall a :: a in plan ==> !Tolerated(SeenDrift(cost, first, end, actuals, a.window), tolerance)
                                          && a.actual == Total(Amounts(actuals), a.window))
            && (forall w :: !Tolerated(SeenDrift(cost, first, end, actuals, w), tolerance) ==>
                  exists a :: a in plan && a.window == w)
  {
    var recorded := Fetched(cost, first, end);
    PlanCorrectsExactly(recorded, actuals, tolerance);
    forall w ensures SeenDrift(cost, first, end, actuals, w) == Drift(recorded, actuals, w) {
      FetchedTotal(cost, first, end, w);
    }
    hide PlanOf, Fetched, Total, Amounts, Increasing;
    forall w | !Tolerated(SeenDrift(cost, first, end, actuals, w), tolerance)
      ensures exists a :: a in PlanFor(cost, first, end, actuals, tolerance).adjustments && a.window == w
    {
      assert AdjustmentFor(recorded, actuals, w) in PlanFor(cost, first, end, actuals, tolerance).adjustments;
    }
  }

  lemma {:induction false} CorrectedAt(cost: map<Window, nat>, adjustments: seq<Adjustment>, actuals: seq<ActualRow>, w: Window)
    requires forall a :: a in adjustments ==> a.actual == Total(Amounts(actuals), a.window)
    ensures var fixed := Corrected(cost, adjustments);
            if exists a :: a in adjustments && a.window == w
            then w in fixed && fixed[w] == Total(Amounts(actuals), w)
            else (w in fixed <==> w in cost) && (w in cost ==> fixed[w] == cost[w])
  {
    if adjustments != [] {
      var n := |adjustments| - 1;
      assert adjustments == adjustments[..n] + [adjustments[n]];
      CorrectedAt(cost, adjustments[..n], actuals, w);
    }
  }

  /** What truth-up does to one window: set to its actual amount exactly when its drift exceeds
      the tolerance, and untouched otherwise. */
  lemma TruedUpAt(cost: map<Window, nat>, first: int, end: int, actuals: seq<ActualRow>, tolerance: nat, w: Window)
    ensures var fixed := TruedUp(cost, first, end, actuals, tolerance);
            if Tolerated(SeenDrift(cost, first, end, actuals, w), tolerance)
            then (w in fixed <==> w in cost) && (w in cost ==> fixed[w] == cost[w])
            else w in fixed && fixed[w] == Total(Amounts(actuals), w)
  {
    PlanWindows(cost, first, end, actuals, tolerance);
    hide PlanFor, Tolerated, Total, Amounts, SeenDrift;
    CorrectedAt(cost, PlanFor(cost, first, end, actuals, tolerance).adjustments, actuals, w);
  }

  // ------------------------------------------------------------- fixpoint

  lemma DriftAfter(cost: map<Window, nat>, first: int, end: int, actuals: seq<ActualRow>, tolerance: nat, w: Window)
    ensures var fixed := TruedUp(cost, first, end, actuals, tolerance);
            Tolerated(SeenDrift(fixed, first, end, actuals, w), tolerance)
            <==> (InRange(w, first, end) || Total(Amounts(actuals), w) <= tolerance)
  {
    TruedUpAt(cost, first, end, actuals, tolerance, w);
    hide TruedUp, Total, Amounts;
  }

  /** Inside the range the ledger ends within one tolerance of the provider's bill. */
  lemma RangeMatchesActuals(cost: map<Window, nat>, first: int, end: int, actuals: seq<ActualRow>, tolerance: nat, w: Window)
    requires InRange(w, first, end)
    ensures Tolerated(SeenDrift(TruedUp(cost, first, end, actuals, tolerance), first, end, actuals, w), tolerance)
  {
    DriftAfter(cost, first, end, actuals, tolerance, w);
  }

  /** Reconciling again after applying a plan gives no corrections if and only if every window
      billed above the tolerance lies inside the fetched days. */
  lemma TruthUpFixpointIff(cost: map<Window, nat>, first: int, end: int, actuals: seq<ActualRow>, tolerance: nat)
    ensures var fixed := TruedUp(cost, first, end, actuals, tolerance);
            PlanFor(fixed, first, end, actuals, tolerance).adjustments == []
            <==> forall w :: Total(Amounts(actuals), w) > tolerance ==> InRange(w, first, end)
  {
    var fixed := TruedUp(cost, first, end, actuals, tolerance);
    var again := PlanFor(fixed, first, end, actuals, tolerance).adjustments;
    PlanWindows(fixed, first, end, actuals, tolerance);
    forall w ensures Tolerated(SeenDrift(fixed, first, end, actuals, w), tolerance)
                     <==> (InRange(w, first, end) || Total(Amounts(actuals), w) <= tolerance) {
      DriftAfter(cost, first, end, actuals, tolerance, w);
    }
    hide PlanFor, TruedUp, Tolerated, SeenDrift, InRange, Total, Amounts, Increasing;
    if again != [] {
      assert again[0] in again;
    }
  }

  /** Whatever the range, a second truth-up leaves the ledger as the first one left it. */
  lemma SecondTruthUpChangesNothing(cost: map<Window, nat>, first: int, end: int, actuals: seq<ActualRow>, tolerance: nat)
    ensures var fixed := TruedUp(cost, first, end, actuals, tolerance);
            TruedUp(fixed, first, end, actuals, tolerance) == fixed
  {
    var fixed := TruedUp(cost, first, end, actuals, tolerance);
    var again := TruedUp(fixed, first, end, actuals, tolerance);
    forall w ensures (w in again <==> w in fixed) && (w in fixed ==> again[w] == fixed[w]) {
      TruedUpAt(cost, first, end, actuals, tolerance, w);
      TruedUpAt(fixed, first, end, actuals, tolerance, w);
      DriftAfter(cost, first, end, actuals, tolerance, w);
    }
  }

  /** A bill outside the fetched days shows the failure: it is corrected again on every run. */
  lemma OutsideBillRecurs()
    ensures var w := Window(5, "gpu", "runpod");
            var bill := [ActualRow(Row(w, 7), "invoice")];
            && PlanFor(map[w := 7], 0, 1, bill, 0).adjustments != []
            && PlanFor(TruedUp(map[w := 7], 0, 1, bill, 0), 0, 1, bill, 0).adjustments != []
  {
    var w := Window(5, "gpu", "runpod");
    var bill := [ActualRow(Row(w, 7), "invoice")];
    assert Amounts(bill) == [Row(w, 7)] && [Row(w, 7)][..0] == [];
    assert Total([Row(w, 7)], w) == 7;
    PlanWindows(map[w := 7], 0, 1, bill, 0);
    TruthUpFixpointIff(map[w := 7], 0, 1, bill, 0);
    assert !Tolerated(SeenDrift(map[w := 7], 0, 1, bill, w), 0);
  }
}
