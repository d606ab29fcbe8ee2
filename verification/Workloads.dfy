/** Rows of `pitwall.workloads`: their cost, the month-to-date sum, and the guarded state
    transitions that concurrent callers race for. */
module Workloads {
  import opened Options

  datatype State = Queued | Running | Completed | Failed | Cancelled | TimedOut

  predicate Terminal(s: State) {
    s != Queued && s != Running
  }

  /** `admittedBy` names the admission call that inserted the row; it is `None` for a row that
      another writer inserted without passing the budget gate. A row that the retention job deleted
      stays behind as a tombstone, `purged`: no statement of the code sees it again. */
  datatype Row = Row(
    id: string,
    key: Option<string>,
    estimate: Option<nat>,
    actual: Option<nat>,
    submittedAt: int,
    state: State,
    admittedBy: Option<nat>,
    purged: bool)

  /** `COALESCE(cost_actual_usd, cost_estimate_usd)`; a row with neither is skipped by `SUM`, and so
      is a row that is no longer there. */
  function Cost(r: Row): nat {
    if r.purged then 0
    else
      match r.actual
      case Some(a) => a
      case None => if r.estimate.Some? then r.estimate.value else 0
  }

  predicate Carries(r: Row, key: Option<string>) {
    key.Some? && !r.purged && r.key == key
  }

  /** The month-to-date sum over the rows submitted at or after `since`. */
  function Spend(rows: seq<Row>, since: int): nat {
    if rows == [] then 0
    else
      var last := rows[|rows| - 1];
      Spend(rows[..|rows| - 1], since) + if last.submittedAt >= since then Cost(last) else 0
  }

  /** What the sum would be without the rows that carry `key`. */
  function SpendExcept(rows: seq<Row>, since: int, key: Option<string>): nat {
    if rows == [] then 0
    else
      var last := rows[|rows| - 1];
      SpendExcept(rows[..|rows| - 1], since, key)
      + if last.submittedAt >= since && !Carries(last, key) then Cost(last) else 0
  }

  /** The columns that no statement rewrites; a deleted row does not come back. */
  predicate SameIdentity(a: Row, b: Row) {
    a.id == b.id && a.key == b.key && a.submittedAt == b.submittedAt && a.admittedBy == b.admittedBy
    && (a.purged ==> b.purged)
  }

  /** Same rows, and no row costs more than before. */
  ghost predicate NoCostlier(before: seq<Row>, after: seq<Row>) {
    && |before| == |after|
    && forall i :: 0 <= i < |before| ==> SameIdentity(before[i], after[i]) && Cost(after[i]) <= Cost(before[i])
  }

  lemma {:induction false} SpendNoCostlier(before: seq<Row>, after: seq<Row>, since: int)
    requires NoCostlier(before, after)
    ensures Spend(after, since) <= Spend(before, since)
    ensures forall key :: SpendExcept(after, since, key) <= SpendExcept(before, since, key)
  {
    if before != [] {
      var n := |before| - 1;
      SpendNoCostlier(before[..n], after[..n], since);
      assert SameIdentity(before[n], after[n]);
    }
  }

  lemma {:induction false} SpendExceptBounded(rows: seq<Row>, since: int, key: Option<string>)
    ensures SpendExcept(rows, since, key) <= Spend(rows, since)
    ensures (forall r :: r in rows ==> !Carries(r, key)) ==> SpendExcept(rows, since, key) == Spend(rows, since)
  {
    if rows != [] {
      var n := |rows| - 1;
      assert rows == rows[..n] + [rows[n]];
      SpendExceptBounded(rows[..n], since, key);
    }
  }

  lemma {:induction false} SpendExceptLaterMonth(rows: seq<Row>, early: int, late: int, key: Option<string>)
    requires early <= late
    ensures SpendExcept(rows, late, key) <= SpendExcept(rows, early, key)
  {
    if rows != [] {
      SpendExceptLaterMonth(rows[..|rows| - 1], early, late, key);
    }
  }

  /** A later month start can only drop rows from the sum. */
  lemma {:induction false} SpendLaterMonth(rows: seq<Row>, early: int, late: int)
    requires early <= late
    ensures Spend(rows, late) <= Spend(rows, early)
  {
    if rows != [] {
      SpendLaterMonth(rows[..|rows| - 1], early, late);
    }
  }

  lemma SpendAppend(rows: seq<Row>, r: Row, since: int)
    ensures Spend(rows + [r], since) == Spend(rows, since) + if r.submittedAt >= since then Cost(r) else 0
    ensures forall key :: SpendExcept(rows + [r], since, key)
              == SpendExcept(rows, since, key) + if r.submittedAt >= since && !Carries(r, key) then Cost(r) else 0
  {
    assert (rows + [r])[..|rows|] == rows;
  }

  /** The exact effect of rewriting one row's cost on the month-to-date sum. */
  lemma {:induction false} SpendRewrite(rows: seq<Row>, i: nat, r: Row, since: int)
    requires i < |rows| && r.submittedAt == rows[i].submittedAt
    ensures Spend(rows[i := r], since)
         == Spend(rows, since) + if r.submittedAt >= since then Cost(r) - Cost(rows[i]) else 0
    ensures forall key :: Carries(r, key) == Carries(rows[i], key) ==>
              SpendExcept(rows[i := r], since, key)
              == SpendExcept(rows, since, key)
                 + if r.submittedAt >= since && !Carries(r, key) then Cost(r) - Cost(rows[i]) else 0
  {
    var n := |rows| - 1;
    if i == n {
      assert rows[i := r][..n] == rows[..n];
    } else {
      SpendRewrite(rows[..n], i, r, since);
      assert rows[i := r][..n] == rows[..n][i := r];
    }
  }

  /** The callers of the two compare-and-set helpers, and the reconciler's own guarded update. */
  datatype Transition =
    | ToRunning
    | ToCompleted
    | ToFailed
    | DispatchFailed
    | Cancel
    | Reconcile(to: State, settled: Option<nat>)

  function FromStates(t: Transition): set<State> {
    match t
    case ToRunning => {Queued}
    case ToCompleted => {Running}
    case ToFailed => {Running}
    case DispatchFailed => {Queued}
    case Cancel => {Queued, Running}
    case Reconcile(_, _) => {Queued, Running}
  }

  function ToState(t: Transition): State {
    match t
    case ToRunning => Running
    case ToCompleted => Completed
    case ToFailed => Failed
    case DispatchFailed => Failed
    case Cancel => Cancelled
    case Reconcile(to, _) => to
  }

  /** The row written when the guard holds: the new state and the patched cost columns. */
  function Patched(r: Row, t: Transition): Row {
    match t
    case DispatchFailed => r.(state := Failed, actual := Some(0))
    case Reconcile(to, settled) => r.(state := to, actual := settled)
    case _ => r.(state := ToState(t))
  }

  predicate Wins(r: Row, t: Transition) {
    r.state in FromStates(t)
  }

  function Attempt(r: Row, t: Transition): Row {
    if Wins(r, t) then Patched(r, t) else r
  }

  /** The row after every attempt of an interleaving, in the order the row lock granted them. */
  function After(r: Row, attempts: seq<Transition>): Row {
    if attempts == [] then r
    else Attempt(After(r, attempts[..|attempts| - 1]), attempts[|attempts| - 1])
  }

  /** Whether the `i`-th attempt of the interleaving changed the row. */
  predicate WinsAt(r: Row, attempts: seq<Transition>, i: nat)
    requires i < |attempts|
  {
    Wins(After(r, attempts[..i]), attempts[i])
  }

  /** The reconciler always writes a terminal state. */
  ghost predicate WellTyped(attempts: seq<Transition>) {
    forall i :: 0 <= i < |attempts| && attempts[i].Reconcile? ==> Terminal(attempts[i].to)
  }

  lemma {:induction false} AfterSplit(r: Row, attempts: seq<Transition>, i: nat)
    requires i <= |attempts|
    ensures After(r, attempts) == After(After(r, attempts[..i]), attempts[i..])
  {
    if i == |attempts| {
      assert attempts[..i] == attempts;
    } else {
      var n := |attempts| - 1;
      AfterSplit(r, attempts[..n], i);
      assert attempts[..n][..i] == attempts[..i];
      assert attempts[i..][..|attempts[i..]| - 1] == attempts[..n][i..];
    }
  }

  /** A terminal row absorbs every later attempt: nothing about it changes again. */
  lemma {:induction false} TerminalAbsorbs(r: Row, attempts: seq<Transition>)
    requires Terminal(r.state)
    ensures After(r, attempts) == r
  {
    if attempts != [] {
      TerminalAbsorbs(r, attempts[..|attempts| - 1]);
    }
  }

  /** From `running` the row is either still running or terminal, never queued again. */
  lemma {:induction false} NeverQueuedAgain(r: Row, attempts: seq<Transition>)
    requires r.state != Queued && WellTyped(attempts)
    ensures After(r, attempts).state != Queued
  {
    if attempts != [] {
      NeverQueuedAgain(r, attempts[..|attempts| - 1]);
    }
  }

  /** Every state change an interleaving can show is one of these edges. */
  predicate Edge(from: State, to: State) {
    || (from == Queued && to == Running)
    || (from == Running && (to == Completed || to == Failed))
    || (from == Queued && to == Failed)
    || ((from == Queued || from == Running) && to == Cancelled)
  }

  lemma GuardedEdgesOnly(r: Row, attempts: seq<Transition>, i: nat)
    requires i < |attempts|
    ensures var before, after := After(r, attempts[..i]), After(r, attempts[..i + 1]);
            && (!WinsAt(r, attempts, i) ==> after == before)
            && (WinsAt(r, attempts, i) && !attempts[i].Reconcile? ==> Edge(before.state, after.state))
            && (WinsAt(r, attempts, i) ==> !Terminal(before.state))
  {
    assert attempts[..i + 1][..i] == attempts[..i];
  }

  /** One caller wins each edge: two winning attempts never leave from the same state. */
  lemma OneWinnerPerEdge(r: Row, attempts: seq<Transition>, i: nat, j: nat)
    requires i < j < |attempts| && WellTyped(attempts)
    requires WinsAt(r, attempts, i) && WinsAt(r, attempts, j)
    ensures After(r, attempts[..i]).state == Queued && attempts[i] == ToRunning
    ensures After(r, attempts[..j]).state == Running && Terminal(ToState(attempts[j]))
  {
    var mid := After(r, attempts[..i + 1]);
    var tail := attempts[i + 1..j];
    assert attempts[..i + 1][..i] == attempts[..i];
    AfterSplit(r, attempts[..j], i + 1);
    assert attempts[..j][..i + 1] == attempts[..i + 1] && attempts[..j][i + 1..] == tail;
    if Terminal(mid.state) {
      TerminalAbsorbs(mid, tail);
    } else {
      NeverQueuedAgain(mid, tail);
    }
  }

  lemma OnlyWinner(r: Row, attempts: seq<Transition>, i: nat, j: nat)
    requires i < |attempts| && j < |attempts| && i != j && WellTyped(attempts)
    requires attempts[i] == DispatchFailed && WinsAt(r, attempts, i)
    ensures !WinsAt(r, attempts, j)
  {
    if WinsAt(r, attempts, j) {
      if j < i { OneWinnerPerEdge(r, attempts, j, i); } else { OneWinnerPerEdge(r, attempts, i, j); }
    }
  }

  /** The zero-cost refund is granted at most once, only while the row never ran, and it is final. */
  lemma RefundOnceAndOnlyUnrun(r: Row, attempts: seq<Transition>, i: nat)
    requires i < |attempts| && WellTyped(attempts)
    requires attempts[i] == DispatchFailed && WinsAt(r, attempts, i)
    ensures r.state == Queued
    ensures forall j :: 0 <= j <= i ==> After(r, attempts[..j]) == r
    ensures forall j :: 0 <= j < |attempts| && j != i ==> !WinsAt(r, attempts, j)
    ensures After(r, attempts) == r.(state := Failed, actual := Some(0))
  {
    forall j | 0 <= j < |attempts| && j != i ensures !WinsAt(r, attempts, j) {
      OnlyWinner(r, attempts, i, j);
    }
    forall j | 0 <= j <= i ensures After(r, attempts[..j]) == r {
      PrefixWithoutWinner(r, attempts, j);
    }
    PrefixWithoutWinner(r, attempts, i);
    assert attempts[..i + 1][..i] == attempts[..i];
    AfterSplit(r, attempts, i + 1);
    TerminalAbsorbs(After(r, attempts[..i + 1]), attempts[i + 1..]);
  }

  lemma PrefixWithoutWinner(r: Row, attempts: seq<Transition>, j: nat)
    requires j <= |attempts|
    requires forall k :: 0 <= k < j ==> !WinsAt(r, attempts, k)
    ensures After(r, attempts[..j]) == r
  {
    forall k | 0 <= k < j ensures !WinsAt(r, attempts[..j], k) {
      assert attempts[..j][..k] == attempts[..k];
      assert !WinsAt(r, attempts, k);
    }
    UnchangedWithoutWinner(r, attempts[..j]);
  }

  lemma {:induction false} UnchangedWithoutWinner(r: Row, attempts: seq<Transition>)
    requires forall j :: 0 <= j < |attempts| ==> !WinsAt(r, attempts, j)
    ensures After(r, attempts) == r
  {
    if attempts != [] {
      var n := |attempts| - 1;
      forall j | 0 <= j < n ensures !WinsAt(r, attempts[..n], j) {
        assert attempts[..n][..j] == attempts[..j];
        assert !WinsAt(r, attempts, j);
      }
      UnchangedWithoutWinner(r, attempts[..n]);
      assert !WinsAt(r, attempts, n);
    }
  }

  /** The guarded transition that can make a row costlier is the reconciler's, and it does exactly
      when it wins and settles above what the row costs. */
  lemma CostlierIffReconciledAbove(r: Row, t: Transition)
    ensures Cost(Attempt(r, t)) > Cost(r)
       <==> t.Reconcile? && Wins(r, t) && !r.purged
            && (if t.settled.Some? then t.settled.value > Cost(r)
                else r.actual.Some? && r.estimate.Some? && r.estimate.value > r.actual.value)
  {
  }

  /** The table the compare-and-set statements run against. */
  class WorkloadTable {
    var rows: map<string, Row>

    constructor (initial: map<string, Row>)
      ensures rows == initial
    {
      rows := initial;
    }

    /** One `UPDATE ... WHERE id = $n AND state IN (...)`, atomic under the row lock. */
    method GuardedTransition(id: string, t: Transition) returns (won: bool)
      modifies this
      ensures won == (id in old(rows) && old(rows)[id].state in FromStates(t))
      ensures won ==> rows == old(rows)[id := Patched(old(rows)[id], t)]
      ensures !won ==> rows == old(rows)
    {
      if id !in rows {
        return false;
      }
      var row := rows[id];
      if row.state !in FromStates(t) {
        return false;
      }
      match t {
        case DispatchFailed => rows := rows[id := row.(state := Failed, actual := Some(0))];
        case Reconcile(to, settled) => rows := rows[id := row.(state := to, actual := settled)];
        case _ => rows := rows[id := row.(state := ToState(t))];
      }
      return true;
    }
  }
}
