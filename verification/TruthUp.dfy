/** What a reconciliation plan means, and the ledger after applying it. */
module TruthUp {
  import opened Sorting
  import opened OrderedSets
  import opened Reconcile

  // ------------------------------------------------------------- the plan

  predicate NeedsCorrection(recorded: seq<Row>, actuals: seq<ActualRow>, tolerance: nat, w: Window) {
    !Tolerated(Drift(recorded, actuals, w), tolerance)
  }

  lemma AdjustmentsLast(ws: seq<Window>, recorded: seq<Row>, actuals: seq<ActualRow>, tolerance: nat)
    requires ws != []
    ensures var n := |ws| - 1; var before := Adjustments(ws[..n], recorded, actuals, tolerance);
            Adjustments(ws, recorded, actuals, tolerance)
            == if NeedsCorrection(recorded, actuals, tolerance, ws[n]) then before + [AdjustmentFor(recorded, actuals, ws[n])]
               else before
    ensures AdjustmentFor(recorded, actuals, ws[|ws| - 1]).window == ws[|ws| - 1]
    ensures AdjustmentFor(recorded, actuals, ws[|ws| - 1]).adjustment == Drift(recorded, actuals, ws[|ws| - 1])
  {
  }

  /** A correction in the plan says what it should. */
  ghost predicate Sound(a: Adjustment, recorded: seq<Row>, actuals: seq<ActualRow>, tolerance: nat) {
    NeedsCorrection(recorded, actuals, tolerance, a.window) && a == AdjustmentFor(recorded, actuals, a.window)
  }

  ghost predicate Increasing(plan: seq<Adjustment>) {
    forall i, j :: 0 <= i < j < |plan| ==> WindowLe(plan[i].window, plan[j].window) && plan[i].window != plan[j].window
  }

  lemma {:induction false} AdjustmentsSound(ws: seq<Window>, recorded: seq<Row>, actuals: seq<ActualRow>, tolerance: nat)
    ensures forall a :: a in Adjustments(ws, recorded, actuals, tolerance) ==>
              a.window in ws && Sound(a, recorded, actuals, tolerance)
    ensures forall w :: w in ws && NeedsCorrection(recorded, actuals, tolerance, w) ==>
              AdjustmentFor(recorded, actuals, w) in Adjustments(ws, recorded, actuals, tolerance)
  {
    if ws != [] {
      var n := |ws| - 1;
      AdjustmentsSound(ws[..n], recorded, actuals, tolerance);
      AdjustmentsLast(ws, recorded, actuals, tolerance);
      hide NeedsCorrection, Adjustments, AdjustmentFor;
      assert ws == ws[..n] + [ws[n]];
    }
  }

  lemma {:induction false} AdjustmentsIncrease(ws: seq<Window>, recorded: seq<Row>, actuals: seq<ActualRow>, tolerance: nat)
    requires Sorted(ws, WindowLe) && NoDuplicates(ws)
    ensures Increasing(Adjustments(ws, recorded, actuals, tolerance))
  {
    if ws != [] {
      var n := |ws| - 1;
      var before := Adjustments(ws[..n], recorded, actuals, tolerance);
      BelowLast(ws, ws[n]);
      AdjustmentsIncrease(ws[..n], recorded, actuals, tolerance);
      AdjustmentsSound(ws[..n], recorded, actuals, tolerance);
      AdjustmentsLast(ws, recorded, actuals, tolerance);
      hide WindowLe, NeedsCorrection, Adjustments, AdjustmentFor, Sound, Increasing, NoDuplicates;
      IncreasingSnoc(before, AdjustmentFor(recorded, actuals, ws[n]));
    }
  }

  lemma BelowLast(ws: seq<Window>, last: Window)
    requires ws != [] && last == ws[|ws| - 1] && Sorted(ws, WindowLe) && NoDuplicates(ws)
    ensures forall w :: w in ws[..|ws| - 1] ==> WindowLe(w, last) && w != last
    ensures Sorted(ws[..|ws| - 1], WindowLe) && NoDuplicates(ws[..|ws| - 1])
  {
    hide WindowLe;
  }

  lemma IncreasingSnoc(before: seq<Adjustment>, a: Adjustment)
    ensures Increasing(before) && (forall b :: b in before ==> WindowLe(b.window, a.window) && b.window != a.window)
            ==> Increasing(before + [a])
  {
    hide WindowLe;
    if Increasing(before) && forall b :: b in before ==> WindowLe(b.window, a.window) && b.window != a.window {
      forall i | 0 <= i < |before| ensures WindowLe(before[i].window, a.window) && before[i].window != a.window {
        assert before[i] in before;
      }
    }
  }

  lemma NoDriftOutside(recorded: seq<Row>, actuals: seq<ActualRow>, tolerance: nat, w: Window)
    requires NeedsCorrection(recorded, actuals, tolerance, w)
    ensures w in AllWindows(recorded, actuals)
  {
    TotalOutside(recorded, w);
    TotalOutside(Amounts(actuals), w);
    WindowLeLinear();
    assert w in Elements(AllWindows(recorded, actuals));
  }

  /** The plan is strictly increasing in its windows, so it has no duplicates; none of its
      corrections is zero; and it corrects exactly the windows whose drift exceeds the tolerance,
      each from its recorded total to its actual total. */
  lemma PlanCorrectsExactly(recorded: seq<Row>, actuals: seq<ActualRow>, tolerance: nat)
    ensures var plan := PlanOf(recorded, actuals, tolerance).adjustments;
            && Increasing(plan)
            && (forall a :: a in plan ==> a.adjustment != 0 && Sound(a, recorded, actuals, tolerance))
            && (forall w :: NeedsCorrection(recorded, actuals, tolerance, w) ==> AdjustmentFor(recorded, actuals, w) in plan)
  {
    var ws := AllWindows(recorded, actuals);
    WindowLeLinear();
    AdjustmentsIncrease(ws, recorded, actuals, tolerance);
    AdjustmentsSound(ws, recorded, actuals, tolerance);
    forall w | NeedsCorrection(recorded, actuals, tolerance, w)
      ensures AdjustmentFor(recorded, actuals, w) in PlanOf(recorded, actuals, tolerance).adjustments
    {
      NoDriftOutside(recorded, actuals, tolerance, w);
    }
  }

  // ------------------------------------------------------------- conservation

  function TotalAdjustment(adjustments: seq<Adjustment>): int {
    if adjustments == [] then 0
    else TotalAdjustment(adjustments[..|adjustments| - 1]) + adjustments[|adjustments| - 1].adjustment
  }

  function SumOver(ws: seq<Window>, rows: seq<Row>): nat {
    if ws == [] then 0 else SumOver(ws[..|ws| - 1], rows) + Total(rows, ws[|ws| - 1])
  }

  lemma {:induction false} SumOverSnoc(ws: seq<Window>, rows: seq<Row>, row: Row)
    requires NoDuplicates(ws)
    ensures SumOver(ws, rows + [row]) == SumOver(ws, rows) + if row.window in ws then row.usd else 0
  {
    if ws != [] {
      var n := |ws| - 1;
      SumOverSnoc(ws[..n], rows, row);
      assert ws == ws[..n] + [ws[n]];
      assert (rows + [row])[..|rows|] == rows;
    }
  }

  lemma {:induction false} SumOverNothing(ws: seq<Window>)
    ensures SumOver(ws, []) == 0
  {
    if ws != [] {
      SumOverNothing(ws[..|ws| - 1]);
    }
  }

  /** Grouping by window loses no money. */
  lemma {:induction false} GroupingConserves(ws: seq<Window>, rows: seq<Row>)
    requires NoDuplicates(ws) && forall r :: r in rows ==> r.window in ws
    ensures SumOver(ws, rows) == Sum(rows)
  {
    if rows == [] {
      SumOverNothing(ws);
    } else {
      var n := |rows| - 1;
      assert rows == rows[..n] + [rows[n]];
      GroupingConserves(ws, rows[..n]);
      SumOverSnoc(ws, rows[..n], rows[n]);
    }
  }

  function Distance(a: int, b: int): nat {
    if a <= b then b - a else a - b
  }

  /** One tolerance for each of `windows` windows. */
  function Slack(tolerance: nat, windows: nat): nat {
    tolerance * windows
  }

  lemma SlackStep(tolerance: nat, windows: nat)
    ensures Slack(tolerance, windows + 1) == Slack(tolerance, windows) + tolerance
  {
  }

  /** The conservation bound for the windows `ws`. */
  ghost predicate AddsUp(ws: seq<Window>, recorded: seq<Row>, actuals: seq<ActualRow>, tolerance: nat, plan: seq<Adjustment>) {
    && |plan| <= |ws|
    && Distance(SumOver(ws, recorded) + TotalAdjustment(plan), SumOver(ws, Amounts(actuals))) <= Slack(tolerance, |ws| - |plan|)
  }

  lemma SumOverLast(ws: seq<Window>, rows: seq<Row>)
    requires ws != []
    ensures SumOver(ws, rows) == SumOver(ws[..|ws| - 1], rows) + Total(rows, ws[|ws| - 1])
  {
  }

  lemma AddsUpCorrected(ws: seq<Window>, recorded: seq<Row>, actuals: seq<ActualRow>, tolerance: nat, before: seq<Adjustment>, a: Adjustment)
    requires ws != [] && AddsUp(ws[..|ws| - 1], recorded, actuals, tolerance, before)
    requires a.adjustment == Drift(recorded, actuals, ws[|ws| - 1])
    ensures AddsUp(ws, recorded, actuals, tolerance, before + [a])
  {
    hide Distance, Slack, SumOver, TotalAdjustment, Amounts, Total;
    var n := |ws| - 1;
    SumOverLast(ws, recorded);
    SumOverLast(ws, Amounts(actuals));
    AdjustmentAdds(before, a);
    DistanceShift(SumOver(ws[..n], recorded) + TotalAdjustment(before), SumOver(ws[..n], Amounts(actuals)),
                  Total(Amounts(actuals), ws[n]));
  }

  lemma AddsUpTolerated(ws: seq<Window>, recorded: seq<Row>, actuals: seq<ActualRow>, tolerance: nat, before: seq<Adjustment>)
    requires ws != [] && AddsUp(ws[..|ws| - 1], recorded, actuals, tolerance, before)
    requires Tolerated(Drift(recorded, actuals, ws[|ws| - 1]), tolerance)
    ensures AddsUp(ws, recorded, actuals, tolerance, before)
  {
    hide Distance, Slack, SumOver, TotalAdjustment, Amounts, Total;
    var n := |ws| - 1;
    SumOverLast(ws, recorded);
    SumOverLast(ws, Amounts(actuals));
    SlackStep(tolerance, n - |before|);
    DistanceDrift(SumOver(ws[..n], recorded) + TotalAdjustment(before), SumOver(ws[..n], Amounts(actuals)),
                  Total(recorded, ws[n]), Total(Amounts(actuals), ws[n]), tolerance);
  }

  lemma {:induction false} DriftAddsUp(ws: seq<Window>, recorded: seq<Row>, actuals: seq<ActualRow>, tolerance: nat)
    ensures AddsUp(ws, recorded, actuals, tolerance, Adjustments(ws, recorded, actuals, tolerance))
  {
    if ws == [] {
      DistanceZero(tolerance);
    } else {
      var n := |ws| - 1;
      var before := Adjustments(ws[..n], recorded, actuals, tolerance);
      DriftAddsUp(ws[..n], recorded, actuals, tolerance);
      AdjustmentsLast(ws, recorded, actuals, tolerance);
      hide AddsUp, Adjustments, AdjustmentFor, Drift, Tolerated;
      if NeedsCorrection(recorded, actuals, tolerance, ws[n]) {
        AddsUpCorrected(ws, recorded, actuals, tolerance, before, AdjustmentFor(recorded, actuals, ws[n]));
      } else {
        AddsUpTolerated(ws, recorded, actuals, tolerance, before);
      }
    }
  }

  lemma DistanceZero(tolerance: nat)
    ensures Distance(0, 0) == 0 && Slack(tolerance, 0) == 0
  {
  }

  lemma DistanceShift(left: int, right: int, d: int)
    ensures Distance(left + d, right + d) == Distance(left, right)
  {
  }

  lemma DistanceDrift(left: int, right: int, r: int, a: int, tolerance: nat)
    requires Tolerated(a - r, tolerance)
    ensures Distance(left + r, right + a) <= Distance(left, right) + tolerance
  {
  }

  lemma AdjustmentAdds(before: seq<Adjustment>, a: Adjustment)
    ensures TotalAdjustment(before + [a]) == TotalAdjustment(before) + a.adjustment
  {
    assert (before + [a])[..|before|] == before;
  }

  lemma CoversRows(recorded: seq<Row>, actuals: seq<ActualRow>)
    ensures var ws := AllWindows(recorded, actuals);
            && NoDuplicates(ws)
            && (forall r :: r in recorded ==> r.window in ws)
            && (forall r :: r in Amounts(actuals) ==> r.window in ws)
  {
    var ws := AllWindows(recorded, actuals);
    WindowLeLinear();
    forall r | r in recorded || r in Amounts(actuals)
      ensures r.window in ws
    {
      assert r.window in Windows(recorded) + Windows(Amounts(actuals));
      assert r.window in Elements(ws);
    }
  }

  lemma PlanGroupsEverything(recorded: seq<Row>, actuals: seq<ActualRow>)
    ensures SumOver(AllWindows(recorded, actuals), recorded) == Sum(recorded)
    ensures SumOver(AllWindows(recorded, actuals), Amounts(actuals)) == Sum(Amounts(actuals))
  {
    CoversRows(recorded, actuals);
    hide AllWindows, Amounts, Sum, SumOver;
    GroupingConserves(AllWindows(recorded, actuals), recorded);
    GroupingConserves(AllWindows(recorded, actuals), Amounts(actuals));
  }

  /** Conservation: recorded money plus the plan's total differs from the actual money by at most
      one tolerance for each window the plan leaves alone; at zero tolerance by nothing. */
  lemma PlanConservesMoney(recorded: seq<Row>, actuals: seq<ActualRow>, tolerance: nat)
    ensures var plan := PlanOf(recorded, actuals, tolerance);
            && |plan.adjustments| <= plan.windowCount
            && Distance(Sum(recorded) + TotalAdjustment(plan.adjustments), Sum(Amounts(actuals)))
               <= Slack(tolerance, plan.windowCount - |plan.adjustments|)
            && (tolerance == 0 ==> Sum(recorded) + TotalAdjustment(plan.adjustments) == Sum(Amounts(actuals)))
  {
    hide AllWindows, Adjustments, Sum, SumOver, Amounts, TotalAdjustment;
    PlanGroupsEverything(recorded, actuals);
    DriftAddsUp(AllWindows(recorded, actuals), recorded, actuals, tolerance);
  }

  // ------------------------------------------------------------- representation independence

  /** Two inputs that book the same totals on the same windows from the same sources. */
  ghost predicate SameBooks(recorded: seq<Row>, actuals: seq<ActualRow>, recorded': seq<Row>, actuals': seq<ActualRow>) {
    && Windows(recorded) == Windows(recorded')
    && Windows(Amounts(actuals)) == Windows(Amounts(actuals'))
    && (forall w :: Total(recorded, w) == Total(recorded', w))
    && (forall w :: Total(Amounts(actuals), w) == Total(Amounts(actuals'), w))
    && (forall w :: Sources(actuals, w) == Sources(actuals', w))
  }

  lemma {:induction false} SameBooksSameAdjustments(ws: seq<Window>, recorded: seq<Row>, actuals: seq<ActualRow>,
                                                    recorded': seq<Row>, actuals': seq<ActualRow>, tolerance: nat)
    requires SameBooks(recorded, actuals, recorded', actuals')
    ensures Adjustments(ws, recorded, actuals, tolerance) == Adjustments(ws, recorded', actuals', tolerance)
  {
    if ws != [] {
      var n := |ws| - 1;
      SameBooksSameAdjustments(ws[..n], recorded, actuals, recorded', actuals', tolerance);
      hide StringLe, LinearOrder, Lists, Total, Sources, Windows;
      assert Drift(recorded, actuals, ws[n]) == Drift(recorded', actuals', ws[n]);
      assert AdjustmentFor(recorded, actuals, ws[n]) == AdjustmentFor(recorded', actuals', ws[n]);
    }
  }

  lemma SameBooksSamePlan(recorded: seq<Row>, actuals: seq<ActualRow>, recorded': seq<Row>, actuals': seq<ActualRow>, tolerance: nat)
    requires SameBooks(recorded, actuals, recorded', actuals')
    ensures PlanOf(recorded, actuals, tolerance) == PlanOf(recorded', actuals', tolerance)
  {
    SameBooksSameAdjustments(AllWindows(recorded, actuals), recorded, actuals, recorded', actuals', tolerance);
  }

  lemma {:induction false} TotalAppend(a: seq<Row>, b: seq<Row>, w: Window)
    ensures Total(a + b, w) == Total(a, w) + Total(b, w)
  {
    if b == [] {
      assert a + b == a;
    } else {
      var n := |b| - 1;
      TotalAppend(a, b[..n], w);
      assert (a + b)[..|a + b| - 1] == a + b[..n];
    }
  }

  /** Where the last element of one arrangement sits in another, and what is left without it. */
  lemma FindLast<T>(a: seq<T>, b: seq<T>) returns (p: nat)
    requires multiset(a) == multiset(b) && a != []
    ensures p < |b| && b[p] == a[|a| - 1] && b == b[..p] + [b[p]] + b[p + 1..]
    ensures multiset(a[..|a| - 1]) == multiset(b[..p] + b[p + 1..])
  {
    var n := |a| - 1;
    assert a == a[..n] + [a[n]];
    assert a[n] in multiset(b);
    p :| 0 <= p < |b| && b[p] == a[n];
    assert b == b[..p] + [b[p]] + b[p + 1..];
    assert multiset(b) == multiset(b[..p]) + multiset{b[p]} + multiset(b[p + 1..]);
    assert multiset(b[..p] + b[p + 1..]) == multiset(b) - multiset{b[p]};
    assert multiset(a[..n]) == multiset(a) - multiset{a[n]};
  }

  lemma {:induction false} TotalPermute(a: seq<Row>, b: seq<Row>, w: Window)
    requires multiset(a) == multiset(b)
    ensures Total(a, w) == Total(b, w)
    decreases |a|
  {
    assert |multiset(a)| == |a| && |multiset(b)| == |b|;
    if a != [] {
      var n := |a| - 1;
      var p := FindLast(a, b);
      TotalPermute(a[..n], b[..p] + b[p + 1..], w);
      TotalAppend(b[..p], b[p + 1..], w);
      TotalAppend(b[..p], [b[p]], w);
      TotalAppend(b[..p] + [b[p]], b[p + 1..], w);
      assert [b[p]][..0] == [];
    }
  }

  lemma MembersPermute<T>(a: seq<T>, b: seq<T>)
    requires multiset(a) == multiset(b)
    ensures forall x :: x in a <==> x in b
  {
    forall x ensures x in a <==> x in b {
      assert x in a <==> x in multiset(a);
      assert x in b <==> x in multiset(b);
    }
  }

  lemma {:induction false} AmountsPermute(a: seq<ActualRow>, b: seq<ActualRow>)
    requires multiset(a) == multiset(b)
    ensures multiset(Amounts(a)) == multiset(Amounts(b))
    decreases |a|
  {
    assert |multiset(a)| == |a| && |multiset(b)| == |b|;
    if a != [] {
      var n := |a| - 1;
      var p := FindLast(a, b);
      AmountsPermute(a[..n], b[..p] + b[p + 1..]);
      assert Amounts(a) == Amounts(a[..n]) + [a[n].row];
      assert Amounts(b[..p] + b[p + 1..]) == Amounts(b[..p]) + Amounts(b[p + 1..]);
      assert Amounts(b) == Amounts(b[..p]) + [b[p].row] + Amounts(b[p + 1..]);
    }
  }

  /** The plan does not depend on the order of the rows. */
  lemma PlanIgnoresOrder(recorded: seq<Row>, actuals: seq<ActualRow>, recorded': seq<Row>, actuals': seq<ActualRow>, tolerance: nat)
    requires multiset(recorded) == multiset(recorded') && multiset(actuals) == multiset(actuals')
    ensures PlanOf(recorded, actuals, tolerance) == PlanOf(recorded', actuals', tolerance)
  {
    AmountsPermute(actuals, actuals');
    MembersPermute(recorded, recorded');
    MembersPermute(actuals, actuals');
    MembersPermute(Amounts(actuals), Amounts(actuals'));
    forall w ensures Total(recorded, w) == Total(recorded', w) && Total(Amounts(actuals), w) == Total(Amounts(actuals'), w) {
      TotalPermute(recorded, recorded', w);
      TotalPermute(Amounts(actuals), Amounts(actuals'), w);
    }
    SameBooksSamePlan(recorded, actuals, recorded', actuals', tolerance);
  }

  /** Billing one amount in two rows, on either side, changes nothing. */
  lemma PlanIgnoresSplits(before: seq<Row>, after: seq<Row>, early: seq<ActualRow>, late: seq<ActualRow>,
                          w: Window, x: nat, y: nat, v: Window, p: nat, q: nat, source: string, tolerance: nat)
    ensures PlanOf(before + [Row(w, x + y)] + after, early + [ActualRow(Row(v, p + q), source)] + late, tolerance)
         == PlanOf(before + [Row(w, x), Row(w, y)] + after,
                   early + [ActualRow(Row(v, p), source), ActualRow(Row(v, q), source)] + late, tolerance)
  {
    var recorded, recorded' := before + [Row(w, x + y)] + after, before + [Row(w, x), Row(w, y)] + after;
    var actuals := early + [ActualRow(Row(v, p + q), source)] + late;
    var actuals' := early + [ActualRow(Row(v, p), source), ActualRow(Row(v, q), source)] + late;
    SplitKeepsBooks(before, after, w, x, y);
    SplitKeepsBooks(Amounts(early), Amounts(late), v, p, q);
    assert Amounts(actuals) == Amounts(early) + [Row(v, p + q)] + Amounts(late);
    assert Amounts(actuals') == Amounts(early) + [Row(v, p), Row(v, q)] + Amounts(late);
    forall u ensures Sources(actuals, u) == Sources(actuals', u) {
      SplitKeepsSources(early, late, v, p, q, source, u);
    }
    SameBooksSamePlan(recorded, actuals, recorded', actuals', tolerance);
  }

  lemma SplitKeepsSources(early: seq<ActualRow>, late: seq<ActualRow>, v: Window, p: nat, q: nat, source: string, u: Window)
    ensures Sources(early + [ActualRow(Row(v, p + q), source)] + late, u)
         == Sources(early + [ActualRow(Row(v, p), source), ActualRow(Row(v, q), source)] + late, u)
  {
    var whole := ActualRow(Row(v, p + q), source);
    var one, two := ActualRow(Row(v, p), source), ActualRow(Row(v, q), source);
    var a, b := early + [whole] + late, early + [one, two] + late;
    assert forall x :: x in a <==> x in early || x in late || x == whole;
    assert forall x :: x in b <==> x in early || x in late || x == one || x == two;
    assert whole in a && one in b && two in b;
  }

  lemma SplitKeepsBooks(before: seq<Row>, after: seq<Row>, w: Window, x: nat, y: nat)
    ensures Windows(before + [Row(w, x + y)] + after) == Windows(before + [Row(w, x), Row(w, y)] + after)
    ensures forall u :: Total(before + [Row(w, x + y)] + after, u) == Total(before + [Row(w, x), Row(w, y)] + after, u)
  {
    var a, b := before + [Row(w, x + y)] + after, before + [Row(w, x), Row(w, y)] + after;
    assert forall r :: r in a <==> r in before || r in after || r == Row(w, x + y);
    assert forall r :: r in b <==> r in before || r in after || r == Row(w, x) || r == Row(w, y);
    assert Row(w, x + y) in a && Row(w, x) in b && Row(w, y) in b;
    forall u ensures Total(a, u) == Total(b, u) {
      TotalAppend(before, [Row(w, x + y)], u);
      TotalAppend(before, [Row(w, x), Row(w, y)], u);
      TotalAppend(before + [Row(w, x + y)], after, u);
      TotalAppend(before + [Row(w, x), Row(w, y)], after, u);
      assert [Row(w, x), Row(w, y)][..1] == [Row(w, x)];
      assert [Row(w, x)][..0] == [] && [Row(w, x + y)][..0] == [];
    }
  }
}
