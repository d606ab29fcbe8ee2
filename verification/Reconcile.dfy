/** Cost truth-up: recorded windows are compared with provider actuals and corrected. */
module Reconcile {
  import opened Sorting
  import opened OrderedSets

  datatype Window = Window(day: int, capability: string, provider: string)

  /** An amount booked on a window, in micro-dollars; the records round before they are built. */
  datatype Row = Row(window: Window, usd: nat)

  datatype ActualRow = ActualRow(row: Row, source: string)

  datatype Adjustment = Adjustment(window: Window, recorded: nat, actual: nat, adjustment: int, sources: seq<string>)

  datatype Plan = Plan(adjustments: seq<Adjustment>, windowCount: nat)

  predicate WindowLe(a: Window, b: Window) {
    KeyLe(WindowKey(a), WindowKey(b))
  }

  function WindowKey(w: Window): Key {
    Key(w.day, [w.capability, w.provider])
  }

  lemma WindowKeyInjective(a: Window, b: Window)
    requires WindowKey(a) == WindowKey(b)
    ensures a == b
  {
    assert [a.capability, a.provider][0] == [b.capability, b.provider][0];
    assert [a.capability, a.provider][1] == [b.capability, b.provider][1];
  }

  lemma WindowLeLinear()
    ensures LinearOrder(WindowLe)
  {
    hide KeyLe, WindowKey;
    KeyLeTotalPreorder();
    forall a, b | WindowLe(a, b) && WindowLe(b, a) ensures a == b {
      KeyLeAntisymmetric(WindowKey(a), WindowKey(b));
      WindowKeyInjective(a, b);
    }
  }

  // ------------------------------------------------------------- what the rows say

  function Amounts(actuals: seq<ActualRow>): seq<Row> {
    seq(|actuals|, i requires 0 <= i < |actuals| => actuals[i].row)
  }

  function Windows(rows: seq<Row>): set<Window> {
    set r | r in rows :: r.window
  }

  function Total(rows: seq<Row>, w: Window): nat {
    if rows == [] then 0
    else
      var n := |rows| - 1;
      Total(rows[..n], w) + if rows[n].window == w then rows[n].usd else 0
  }

  function Sources(actuals: seq<ActualRow>, w: Window): set<string> {
    set a | a in actuals && a.row.window == w :: a.source
  }

  function Sum(rows: seq<Row>): nat {
    if rows == [] then 0 else Sum(rows[..|rows| - 1]) + rows[|rows| - 1].usd
  }

  /** `actual - recorded` of one window. */
  function Drift(recorded: seq<Row>, actuals: seq<ActualRow>, w: Window): int {
    Total(Amounts(actuals), w) - Total(recorded, w)
  }

  predicate Tolerated(drift: int, tolerance: nat) {
    drift <= tolerance && -drift <= tolerance
  }

  ghost function AdjustmentFor(recorded: seq<Row>, actuals: seq<ActualRow>, w: Window): Adjustment {
    StringLeLinear();
    Adjustment(w, Total(recorded, w), Total(Amounts(actuals), w), Drift(recorded, actuals, w),
               Ordered(Sources(actuals, w), StringLe))
  }

  ghost function Adjustments(ws: seq<Window>, recorded: seq<Row>, actuals: seq<ActualRow>, tolerance: nat): seq<Adjustment> {
    if ws == [] then []
    else
      var n := |ws| - 1;
      Adjustments(ws[..n], recorded, actuals, tolerance)
      + if Tolerated(Drift(recorded, actuals, ws[n]), tolerance) then [] else [AdjustmentFor(recorded, actuals, ws[n])]
  }

  ghost function AllWindows(recorded: seq<Row>, actuals: seq<ActualRow>): seq<Window> {
    WindowLeLinear();
    Ordered(Windows(recorded) + Windows(Amounts(actuals)), WindowLe)
  }

  ghost function PlanOf(recorded: seq<Row>, actuals: seq<ActualRow>, tolerance: nat): Plan {
    var ws := AllWindows(recorded, actuals);
    Plan(Adjustments(ws, recorded, actuals, tolerance), |ws|)
  }

  // ------------------------------------------------------------- the code

  lemma TotalOutside(rows: seq<Row>, w: Window)
    ensures w !in Windows(rows) ==> Total(rows, w) == 0
  {
    if rows != [] && w !in Windows(rows) {
      var n := |rows| - 1;
      assert rows[n] in rows;
      assert forall r :: r in rows[..n] ==> r in rows;
      TotalOutside(rows[..n], w);
    }
  }

  lemma WindowsSnoc(rows: seq<Row>, row: Row)
    ensures Windows(rows + [row]) == Windows(rows) + {row.window}
  {
    assert forall r :: r in rows + [row] <==> r in rows || r == row;
    assert row in rows + [row];
  }

  lemma SourcesSnoc(actuals: seq<ActualRow>, a: ActualRow, w: Window)
    ensures Sources(actuals + [a], w) == Sources(actuals, w) + if a.row.window == w then {a.source} else {}
  {
    assert forall x :: x in actuals + [a] <==> x in actuals || x == a;
    assert a in actuals + [a];
  }

  ghost predicate IsTotals(totals: map<Window, nat>, rows: seq<Row>) {
    totals.Keys == Windows(rows) && forall w :: w in totals ==> totals[w] == Total(rows, w)
  }

  lemma TotalsStep(totals: map<Window, nat>, rows: seq<Row>, row: Row)
    requires IsTotals(totals, rows)
    ensures IsTotals(Add(totals, row.window, row.usd), rows + [row])
  {
    WindowsSnoc(rows, row);
    TotalOutside(rows, row.window);
    assert (rows + [row])[..|rows|] == rows;
  }

  /** `_aggregate_recorded`. */
  method AggregateRecorded(rows: seq<Row>) returns (totals: map<Window, nat>)
    ensures IsTotals(totals, rows)
  {
    totals := map[];
    assert IsTotals(totals, rows[..0]);
    hide IsTotals;
    for i := 0 to |rows|
      invariant IsTotals(totals, rows[..i])
    {
      TotalsStep(totals, rows[..i], rows[i]);
      assert rows[..i + 1] == rows[..i] + [rows[i]];
      totals := Add(totals, rows[i].window, rows[i].usd);
    }
    assert rows[..|rows|] == rows;
  }

  ghost predicate IsSources(sources: map<Window, set<string>>, actuals: seq<ActualRow>) {
    && sources.Keys == Windows(Amounts(actuals))
    && forall w :: w in sources ==> sources[w] == Sources(actuals, w)
  }

  lemma SourcesOutside(actuals: seq<ActualRow>, w: Window)
    ensures w !in Windows(Amounts(actuals)) ==> Sources(actuals, w) == {}
  {
    if a :| a in actuals && a.row.window == w {
      var i :| 0 <= i < |actuals| && actuals[i] == a;
      assert Amounts(actuals)[i] == a.row;
    }
  }

  lemma SourcesStep(sources: map<Window, set<string>>, actuals: seq<ActualRow>, a: ActualRow)
    requires IsSources(sources, actuals)
    ensures Amounts(actuals + [a]) == Amounts(actuals) + [a.row]
    ensures var w := a.row.window;
            IsSources(AddSource(sources, w, a.source), actuals + [a])
  {
    var w := a.row.window;
    assert Amounts(actuals + [a]) == Amounts(actuals) + [a.row];
    WindowsSnoc(Amounts(actuals), a.row);
    SourcesOutside(actuals, w);
    forall v ensures Sources(actuals + [a], v) == Sources(actuals, v) + if w == v then {a.source} else {} {
      SourcesSnoc(actuals, a, v);
    }
    hide Sources, Windows;
  }

  function Add(totals: map<Window, nat>, w: Window, usd: nat): map<Window, nat> {
    totals[w := (if w in totals then totals[w] else 0) + usd]
  }

  function AddSource(sources: map<Window, set<string>>, w: Window, source: string): map<Window, set<string>> {
    sources[w := (if w in sources then sources[w] else {}) + {source}]
  }

  ghost predicate IsAggregate(totals: map<Window, nat>, sources: map<Window, set<string>>, actuals: seq<ActualRow>) {
    IsTotals(totals, Amounts(actuals)) && IsSources(sources, actuals)
  }

  lemma AggregateStep(totals: map<Window, nat>, sources: map<Window, set<string>>, actuals: seq<ActualRow>, i: nat)
    requires i < |actuals| && IsAggregate(totals, sources, actuals[..i])
    ensures var a := actuals[i];
            IsAggregate(Add(totals, a.row.window, a.row.usd), AddSource(sources, a.row.window, a.source), actuals[..i + 1])
  {
    hide IsTotals, IsSources, Amounts;
    TotalsStep(totals, Amounts(actuals[..i]), actuals[i].row);
    SourcesStep(sources, actuals[..i], actuals[i]);
    assert actuals[..i + 1] == actuals[..i] + [actuals[i]];
  }

  /** `_aggregate_actuals`. */
  method AggregateActuals(actuals: seq<ActualRow>) returns (totals: map<Window, nat>, sources: map<Window, set<string>>)
    ensures IsTotals(totals, Amounts(actuals)) && IsSources(sources, actuals)
  {
    totals, sources := map[], map[];
    assert IsAggregate(totals, sources, actuals[..0]);
    hide IsTotals, IsSources, Amounts, Add, AddSource;
    for i := 0 to |actuals|
      invariant IsAggregate(totals, sources, actuals[..i])
    {
      hide IsAggregate;
      AggregateStep(totals, sources, actuals, i);
      totals := Add(totals, actuals[i].row.window, actuals[i].row.usd);
      sources := AddSource(sources, actuals[i].row.window, actuals[i].source);
    }
    assert actuals[..|actuals|] == actuals;
  }

  lemma AdjustmentsStep(ws: seq<Window>, i: nat, recorded: seq<Row>, actuals: seq<ActualRow>, tolerance: nat)
    requires i < |ws|
    ensures Adjustments(ws[..i + 1], recorded, actuals, tolerance)
         == Adjustments(ws[..i], recorded, actuals, tolerance)
            + if Tolerated(Drift(recorded, actuals, ws[i]), tolerance) then [] else [AdjustmentFor(recorded, actuals, ws[i])]
  {
    assert ws[..i + 1][..i] == ws[..i];
  }

  /** What a lookup with a default of zero, or of no sources, finds. */
  lemma Lookups(totals: map<Window, nat>, rows: seq<Row>, sources: map<Window, set<string>>, actuals: seq<ActualRow>, w: Window)
    requires IsTotals(totals, rows) && IsSources(sources, actuals)
    ensures Total(rows, w) == if w in totals then totals[w] else 0
    ensures Sources(actuals, w) == if w in sources then sources[w] else {}
  {
    TotalOutside(rows, w);
    SourcesOutside(actuals, w);
  }

  /** The loop body of `reconcile_cost`: the correction of one window, if it needs one. */
  method CompareWindow(recordedByWindow: map<Window, nat>, actualByWindow: map<Window, nat>,
                       sourcesByWindow: map<Window, set<string>>, w: Window, tolerance: nat,
                       ghost recorded: seq<Row>, ghost actuals: seq<ActualRow>)
    returns (correction: seq<Adjustment>)
    requires IsTotals(recordedByWindow, recorded) && IsTotals(actualByWindow, Amounts(actuals))
    requires IsSources(sourcesByWindow, actuals)
    ensures correction
         == if Tolerated(Drift(recorded, actuals, w), tolerance) then [] else [AdjustmentFor(recorded, actuals, w)]
  {
    StringLeLinear();
    Lookups(recordedByWindow, recorded, sourcesByWindow, actuals, w);
    Lookups(actualByWindow, Amounts(actuals), sourcesByWindow, actuals, w);
    hide IsTotals, IsSources, Total, Sources, LinearOrder, StringLe, Lists;
    var recordedUsd: nat := if w in recordedByWindow then recordedByWindow[w] else 0;
    var actualUsd: nat := if w in actualByWindow then actualByWindow[w] else 0;
    var adjustmentUsd := actualUsd - recordedUsd;
    if Tolerated(adjustmentUsd, tolerance) {
      return [];
    }
    var sources := SortedSet(if w in sourcesByWindow then sourcesByWindow[w] else {}, StringLe);
    return [Adjustment(w, recordedUsd, actualUsd, adjustmentUsd, sources)];
  }

  /** `reconcile_cost`. */
  method ReconcileCost(recorded: seq<Row>, actuals: seq<ActualRow>, tolerance: nat) returns (plan: Plan)
    ensures plan == PlanOf(recorded, actuals, tolerance)
  {
    var recordedByWindow := AggregateRecorded(recorded);
    var actualByWindow, sourcesByWindow := AggregateActuals(actuals);
    WindowLeLinear();
    var windows := SortedSet(recordedByWindow.Keys + actualByWindow.Keys, WindowLe);
    assert windows == AllWindows(recorded, actuals);
    hide Lists, LinearOrder, WindowLe, Windows, IsTotals, IsSources, AllWindows, Drift, AdjustmentFor;
    var adjustments: seq<Adjustment> := [];
    for i := 0 to |windows|
      invariant adjustments == Adjustments(windows[..i], recorded, actuals, tolerance)
    {
      hide Adjustments;
      var correction := CompareWindow(recordedByWindow, actualByWindow, sourcesByWindow, windows[i], tolerance,
                                      recorded, actuals);
      AdjustmentsStep(windows, i, recorded, actuals, tolerance);
      adjustments := adjustments + correction;
    }
    assert windows[..|windows|] == windows;
    return Plan(adjustments, |windows|);
  }
}
