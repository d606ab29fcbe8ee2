/** The exact conditions behind the admission theorems, with the runs that show them. */
module AdmissionExact {
  import opened Money
  import opened Options
  import opened Workloads
  import opened Admission
  import opened AdmissionSafety
  import opened AdmissionIdentity

  // ---------------------------------------------------------------- undisturbed admissions

  /** A call that nothing but the budget can refuse. */
  ghost predicate Admissible(cfg: Config, rows: seq<Row>, req: Request) {
    && req.estimate <= cfg.perRequestMax
    && (cfg.quotesOnly ==> OnGrid(req.estimate))
    && (req.key.Some? ==> FindKey(rows, req.key.value).None?)
  }

  function SumSteps(c: nat, req: Request): seq<Step> {
    [Arrive(c, req), Begin(c), Lock(c), Lookup(c), Sum(c)]
  }

  function Summing(s: Ledger, c: nat, req: Request): Ledger {
    SetClient(s, c, Client(req, s.month, Summed(Spend(s.rows, s.month)), Pending)).(lock := Some(c))
  }

  /** A fresh call waits for nobody: it holds the lock. */
  lemma LockAlone(cfg: Config, s: Ledger, c: nat, req: Request)
    requires c !in s.clients && s.lock == None && Admissible(cfg, s.rows, req)
    ensures Reaches(cfg, s, [Arrive(c, req), Begin(c), Lock(c)],
                    SetClient(s, c, Client(req, s.month, Holding, Pending)).(lock := Some(c)))
  {
    hide Spend, FindKey, Conflict, RoundHalfUp, OnGrid, NewRow, SetState, Refund, Raise;
    var s1 := SetClient(s, c, Client(req, s.month, Called, Pending));
    var s2 := SetClient(s, c, Client(req, s.month, Waiting, Pending));
    var s3 := SetClient(s, c, Client(req, s.month, Holding, Pending)).(lock := Some(c));
    assert Enabled(cfg, s, Arrive(c, req)) && Apply(cfg, s, Arrive(c, req)) == s1;
    assert Enabled(cfg, s1, Begin(c)) && Apply(cfg, s1, Begin(c)) == s2;
    assert Enabled(cfg, s2, Lock(c)) && Apply(cfg, s2, Lock(c)) == s3;
    hide Enabled, Apply;
    ReachesOne(cfg, s2, Lock(c), [], s3);
    ReachesOne(cfg, s1, Begin(c), [Lock(c)], s3);
    ReachesOne(cfg, s, Arrive(c, req), [Begin(c), Lock(c)], s3);
    assert [Arrive(c, req)] + [Begin(c), Lock(c)] == [Arrive(c, req), Begin(c), Lock(c)];
  }

  lemma LookupAndSum(cfg: Config, s: Ledger, c: nat, req: Request)
    requires c in s.clients && s.clients[c] == Client(req, s.month, Holding, Pending) && Admissible(cfg, s.rows, req)
    ensures Reaches(cfg, s, [Lookup(c), Sum(c)],
                    SetClient(s, c, Client(req, s.month, Summed(Spend(s.rows, s.month)), Pending)))
  {
    hide Spend, FindKey, Conflict, RoundHalfUp, OnGrid, NewRow, SetState, Refund, Raise;
    var s1 := SetClient(s, c, Client(req, s.month, Cleared, Pending));
    var s2 := SetClient(s, c, Client(req, s.month, Summed(Spend(s.rows, s.month)), Pending));
    assert Enabled(cfg, s, Lookup(c)) && Apply(cfg, s, Lookup(c)) == s1;
    assert Enabled(cfg, s1, Sum(c)) && Apply(cfg, s1, Sum(c)) == s2;
    hide Enabled, Apply;
    ReachesOne(cfg, s1, Sum(c), [], s2);
    ReachesOne(cfg, s, Lookup(c), [Sum(c)], s2);
    assert [Lookup(c)] + [Sum(c)] == [Lookup(c), Sum(c)];
  }

  /** The first half of an admission on its own: up to the cached sum. */
  lemma SumAlone(cfg: Config, s: Ledger, c: nat, req: Request)
    requires c !in s.clients && s.lock == None && Admissible(cfg, s.rows, req)
    ensures Reaches(cfg, s, SumSteps(c, req), Summing(s, c, req))
  {
    var mid := SetClient(s, c, Client(req, s.month, Holding, Pending)).(lock := Some(c));
    LockAlone(cfg, s, c, req);
    hide Reaches, Spend, Admissible;
    LookupAndSum(cfg, mid, c, req);
    ReachesBoth(cfg, s, [Arrive(c, req), Begin(c), Lock(c)], mid, [Lookup(c), Sum(c)], Summing(s, c, req));
    assert [Arrive(c, req), Begin(c), Lock(c)] + [Lookup(c), Sum(c)] == SumSteps(c, req);
  }

  function Admitting(s: Ledger, c: nat, id: string): Ledger
    requires c in s.clients
  {
    var cl := s.clients[c];
    SetClient(s, c, cl.(phase := Returned, outcome := Admitted(id, true)))
      .(rows := s.rows + [NewRow(c, cl.req, id)], lock := None)
  }

  /** The second half: insert and commit. */
  lemma FinishAlone(cfg: Config, s: Ledger, c: nat, id: string)
    requires s.lock == Some(c) && c in s.clients && s.clients[c].phase.Summed?
    requires s.clients[c].phase.spend as real + s.clients[c].req.estimate <= cfg.budget
    requires !Conflict(s.rows, id, s.clients[c].req.key)
    ensures Reaches(cfg, s, [Insert(c, id), Commit(c)], Admitting(s, c, id))
  {
    hide Spend, FindKey, Conflict, RoundHalfUp, OnGrid, NewRow;
    var cl := s.clients[c];
    var s1 := SetClient(s, c, cl.(phase := Inserted(NewRow(c, cl.req, id))));
    NewRowId(c, cl.req, id);
    assert Enabled(cfg, s, Insert(c, id)) && Apply(cfg, s, Insert(c, id)) == s1;
    assert Enabled(cfg, s1, Commit(c)) && Apply(cfg, s1, Commit(c)) == Admitting(s, c, id);
    ReachesOne(cfg, s1, Commit(c), [], Admitting(s, c, id));
    ReachesOne(cfg, s, Insert(c, id), [Commit(c)], Admitting(s, c, id));
  }

  lemma NewRowId(c: nat, req: Request, id: string)
    ensures NewRow(c, req, id).id == id
  {
  }

  /** A whole admission on its own. */
  lemma AdmitAlone(cfg: Config, s: Ledger, c: nat, req: Request, id: string)
    requires c !in s.clients && s.lock == None && Admissible(cfg, s.rows, req)
    requires Spend(s.rows, s.month) as real + req.estimate <= cfg.budget
    requires !Conflict(s.rows, id, req.key)
    ensures Reaches(cfg, s, SumSteps(c, req) + [Insert(c, id), Commit(c)], Admitting(Summing(s, c, req), c, id))
  {
    SumAlone(cfg, s, c, req);
    hide Reaches, SumSteps, Conflict, Spend;
    FinishAlone(cfg, Summing(s, c, req), c, id);
    ReachesBoth(cfg, s, SumSteps(c, req), Summing(s, c, req), [Insert(c, id), Commit(c)], Admitting(Summing(s, c, req), c, id));
  }

  function Name(n: nat): (id: string)
    ensures |id| == n
  {
    if n == 0 then "" else Name(n - 1) + "x"
  }

  lemma {:induction false} FreshId(rows: seq<Row>) returns (n: nat)
    ensures forall r :: r in rows ==> |r.id| < n
  {
    if rows == [] {
      n := 0;
    } else {
      var last := rows[|rows| - 1];
      n := FreshId(rows[..|rows| - 1]);
      assert forall r :: r in rows ==> r in rows[..|rows| - 1] || r == last;
      n := if n > |last.id| then n else |last.id| + 1;
    }
  }

  // ---------------------------------------------------------------- the budget

  /** No interleaving whose settlements stay at or below the cost they find overspends. */
  ghost predicate NeverOverspends(cfg: Config) {
    forall month: int, steps: seq<Step> :: ValidRun(cfg, Init(month), steps) ==>
      var s := Exec(cfg, Init(month), steps);
      s.raised == 0 ==> !Overspent(cfg, s)
  }

  const HALF_QUANTUM := Request(AsyncJob, None, 0.5, 0)

  /** A quiet ledger: `n` admitted rows of one quantum each, nobody inside a transaction. */
  ghost predicate Filled(s: Ledger, n: nat) {
    && s.lock == None && s.month == 0 && s.raised == 0 && |s.rows| == n
    && (forall c :: c in s.clients ==> c < n)
    && (forall r :: r in s.rows ==> |r.id| < n)
    && Spend(s.rows, 0) == n
  }

  lemma FillOne(cfg: Config, s: Ledger, n: nat)
    requires !cfg.quotesOnly && cfg.perRequestMax >= 0.5
    requires Filled(s, n) && n as real + 0.5 <= cfg.budget
    ensures var s' := Admitting(Summing(s, n, HALF_QUANTUM), n, Name(n));
            Filled(s', n + 1) && Reaches(cfg, s, SumSteps(n, HALF_QUANTUM) + [Insert(n, Name(n)), Commit(n)], s')
  {
    assert !Conflict(s.rows, Name(n), None);
    FilledOne(s, n);
    hide Filled, Conflict, Name;
    AdmitAlone(cfg, s, n, HALF_QUANTUM, Name(n));
  }

  lemma FilledOne(s: Ledger, n: nat)
    requires Filled(s, n)
    ensures s.lock == None && s.month == 0 && n !in s.clients && Spend(s.rows, 0) == n
    ensures Filled(Admitting(Summing(s, n, HALF_QUANTUM), n, Name(n)), n + 1)
  {
    FillOneRow(s, n);
    hide Spend, NewRow, Name;
    var row := NewRow(n, HALF_QUANTUM, Name(n));
    assert forall r :: r in s.rows + [row] ==> r in s.rows || r == row;
  }

  lemma FillOneRow(s: Ledger, n: nat)
    ensures var row := NewRow(n, HALF_QUANTUM, Name(n));
            |row.id| == n && Spend(s.rows + [row], 0) == Spend(s.rows, 0) + 1
  {
    SpendAppend(s.rows, NewRow(n, HALF_QUANTUM, Name(n)), 0);
  }

  lemma {:induction false} FillBudget(cfg: Config, n: nat) returns (steps: seq<Step>, s: Ledger)
    requires ValidConfig(cfg) && !cfg.quotesOnly && cfg.perRequestMax >= 0.5
    requires n as real - 0.5 <= cfg.budget
    ensures Filled(s, n) && Reaches(cfg, Init(0), steps, s)
    decreases n
  {
    if n == 0 {
      steps, s := [], Init(0);
    } else {
      var before, quiet := FillBudget(cfg, n - 1);
      FillOne(cfg, quiet, n - 1);
      hide Reaches, Filled, SumSteps;
      var more := SumSteps(n - 1, HALF_QUANTUM) + [Insert(n - 1, Name(n - 1)), Commit(n - 1)];
      s := Admitting(Summing(quiet, n - 1, HALF_QUANTUM), n - 1, Name(n - 1));
      ReachesBoth(cfg, Init(0), before, quiet, more, s);
      steps := before + more;
    }
  }

  /** The exact condition: interleavings without a raising settlement never overspend if and only
      if the configuration is sound. The one unsound family has a budget whose sub-quantum part
      rounds up and callers that pass unquantized estimates; half-quantum estimates overspend it. */
  lemma NeverOverspendsIffSound(cfg: Config)
    requires ValidConfig(cfg)
    ensures NeverOverspends(cfg) <==> BudgetSound(cfg)
  {
    if BudgetSound(cfg) {
      forall month: int, steps: seq<Step> | ValidRun(cfg, Init(month), steps) && Exec(cfg, Init(month), steps).raised == 0
        ensures !Overspent(cfg, Exec(cfg, Init(month), steps))
      {
        RunWithinBudget(cfg, month, steps);
      }
    } else {
      var n := RoundHalfUp(cfg.budget);
      var steps, s := FillBudget(cfg, n);
      assert ValidRun(cfg, Init(0), steps);
      assert Spend(s.rows, s.month) == n;
    }
  }

  // ---------------------------------------------------------------- raises

  /** Some continuation, without any further raise, overspends. */
  ghost predicate Doomed(cfg: Config, s: Ledger) {
    exists more :: LeadsToOverspend(cfg, s, more)
  }

  ghost predicate LeadsToOverspend(cfg: Config, s: Ledger, more: seq<Step>) {
    ValidRun(cfg, s, more) && Exec(cfg, s, more).raised == s.raised && Overspent(cfg, Exec(cfg, s, more))
  }

  lemma {:induction false} RunKeepsSane(cfg: Config, s: Ledger, steps: seq<Step>)
    requires Sane(cfg, s) && ValidRun(cfg, s, steps)
    ensures Sane(cfg, Exec(cfg, s, steps))
    decreases |steps|
  {
    if steps != [] {
      SaneStep(cfg, s, steps[0]);
      hide Sane;
      RunKeepsSane(cfg, Apply(cfg, s, steps[0]), steps[1..]);
    }
  }

  /** Deleting the one row that carries a key leaves the sum without that key as it was, and no
      live row with the key. */
  lemma {:induction false} DeleteCarrier(rows: seq<Row>, i: nat, r: Row, since: int, key: Option<string>)
    requires i < |rows| && Carries(rows[i], key) && r.submittedAt == rows[i].submittedAt && r.purged
    ensures SpendExcept(rows[i := r], since, key) == SpendExcept(rows, since, key)
  {
    var n := |rows| - 1;
    if i == n {
      assert rows[i := r][..n] == rows[..n];
    } else {
      DeleteCarrier(rows[..n], i, r, since, key);
      assert rows[i := r][..n] == rows[..n][i := r];
    }
  }

  /** The lock holder completes: its row is inserted and committed. */
  lemma HolderCompletes(cfg: Config, s: Ledger, c: nat) returns (more: seq<Step>)
    requires s.lock == Some(c) && c in s.clients && s.clients[c].phase.Summed?
    requires s.clients[c].phase.spend as real + s.clients[c].req.estimate <= cfg.budget
    requires forall r :: r in s.rows ==> !Carries(r, s.clients[c].req.key)
    ensures ValidRun(cfg, s, more) && Exec(cfg, s, more).raised == s.raised
    ensures var req, end := s.clients[c].req, Exec(cfg, s, more);
            end.month == s.month
            && Spend(end.rows, s.month) == Spend(s.rows, s.month) + InWindow(RoundHalfUp(req.estimate), req.submittedAt, s.month)
  {
    var n := FreshId(s.rows);
    assert !Conflict(s.rows, Name(n), s.clients[c].req.key);
    FinishAlone(cfg, s, c, Name(n));
    more := [Insert(c, Name(n)), Commit(c)];
    SpendAppend(s.rows, NewRow(c, s.clients[c].req, Name(n)), s.month);
  }

  /** Clears a key out of the holder's way: the row that took it reaches a terminal state at
      unchanged cost and is deleted. */
  lemma ClearKey(cfg: Config, s: Ledger, i: nat, key: Option<string>) returns (s': Ledger)
    requires RowsDistinct(s.rows) && i < |s.rows| && Carries(s.rows[i], key)
    ensures Reaches(cfg, s, [Settle(i, Completed, s.rows[i].actual), Purge(i, s.rows[i].submittedAt + 1)], s')
    ensures s' == s.(rows := s'.rows) && forall r :: r in s'.rows ==> !Carries(r, key)
    ensures SpendExcept(s'.rows, s.month, key) == SpendExcept(s.rows, s.month, key)
  {
    hide Spend, SpendExcept, RoundHalfUp, FindKey, Conflict, SetState, Refund;
    var row := s.rows[i];
    var settled := row.(state := Completed, actual := row.actual);
    var gone := settled.(purged := true);
    var s1 := s.(rows := s.rows[i := settled]);
    s' := s.(rows := s.rows[i := gone]);
    assert Raise(row, settled) == 0;
    assert Apply(cfg, s, Settle(i, Completed, row.actual)) == s1;
    assert s1.rows[i := gone] == s.rows[i := gone];
    assert Apply(cfg, s1, Purge(i, row.submittedAt + 1)) == s';
    ReachesOne(cfg, s1, Purge(i, row.submittedAt + 1), [], s');
    ReachesOne(cfg, s, Settle(i, Completed, row.actual), [Purge(i, row.submittedAt + 1)], s');
    DeleteCarrier(s.rows, i, gone, s.month, key);
    forall r | r in s'.rows ensures !Carries(r, key) {
      var j :| 0 <= j < |s'.rows| && s'.rows[j] == r;
      if j != i {
        SameRow(s.rows, i, j);
      }
    }
  }

  lemma SummedDooms(cfg: Config, s: Ledger, c: nat) returns (more: seq<Step>)
    requires LockInv(s) && RowsDistinct(s.rows)
    requires s.lock == Some(c) && c in s.clients && s.clients[c].phase.Summed?
    requires s.clients[c].phase.spend as real + s.clients[c].req.estimate <= cfg.budget
    requires var req := s.clients[c].req;
             (SpendExcept(s.rows, s.month, req.key)
              + InWindow(RoundHalfUp(req.estimate), req.submittedAt, s.month)) as real > cfg.budget
    ensures LeadsToOverspend(cfg, s, more)
  {
    hide LockInv, RoundHalfUp, ValidRun, Exec;
    var key := s.clients[c].req.key;
    if i :| 0 <= i < |s.rows| && Carries(s.rows[i], key) {
      var s' := ClearKey(cfg, s, i, key);
      SpendExceptBounded(s'.rows, s.month, key);
      var rest := HolderCompletes(cfg, s', c);
      var first := [Settle(i, Completed, s.rows[i].actual), Purge(i, s.rows[i].submittedAt + 1)];
      RunAppend(cfg, s, first, rest);
      more := first + rest;
    } else {
      SpendExceptBounded(s.rows, s.month, key);
      more := HolderCompletes(cfg, s, c);
    }
  }

  lemma InsertedDooms(cfg: Config, s: Ledger, c: nat)
    requires LockInv(s) && s.lock == Some(c) && c in s.clients && s.clients[c].phase.Inserted?
    requires ProjectedSpend(cfg, s) as real > cfg.budget
    ensures LeadsToOverspend(cfg, s, [Commit(c)])
  {
    var s' := Apply(cfg, s, Commit(c));
    CommitStepProjected(cfg, s, c);
    assert s'.raised == s.raised && Holder(s') == None;
    hide Spend, LockInv;
    ReachesOne(cfg, s, Commit(c), [], s');
    assert [Commit(c)] + [] == [Commit(c)];
    assert Exec(cfg, s, [Commit(c)]) == s';
    ProjectedIdle(cfg, s'.rows, s'.month, None);
    assert ProjectedSpend(cfg, s') == Spend(s'.rows, s'.month);
  }

  /** In every reachable state, whatever was raised before: an overspend can still follow without
      another raise if and only if the projected sum, live rows plus what the lock holder's cached
      sum or uncommitted row stands for, exceeds the budget. */
  lemma DoomedIffProjectedOver(cfg: Config, month: int, steps: seq<Step>)
    requires ValidConfig(cfg) && BudgetSound(cfg) && ValidRun(cfg, Init(month), steps)
    ensures var s := Exec(cfg, Init(month), steps);
            Doomed(cfg, s) <==> ProjectedSpend(cfg, s) as real > cfg.budget
  {
    var s := Exec(cfg, Init(month), steps);
    RunKeepsIdentity(cfg, Init(month), steps);
    RunKeepsSane(cfg, Init(month), steps);
    hide ValidRun, Exec, BudgetSound, Sane;
    if ProjectedSpend(cfg, s) as real > cfg.budget {
      OverProjectedDooms(cfg, s);
    } else {
      forall more | ValidRun(cfg, s, more) && Exec(cfg, s, more).raised == s.raised
        ensures !Overspent(cfg, Exec(cfg, s, more))
      {
        RunWithin(cfg, s, more, 0);
        LiveWithinProjected(cfg, Exec(cfg, s, more));
      }
    }
  }

  lemma OverProjectedDooms(cfg: Config, s: Ledger)
    requires LockInv(s) && IdentityInv(s) && ProjectedSpend(cfg, s) as real > cfg.budget
    ensures Doomed(cfg, s)
  {
    if Overspent(cfg, s) {
      assert Reaches(cfg, s, [], s);
      assert LeadsToOverspend(cfg, s, []);
    } else {
      hide LeadsToOverspend;
      var c := s.lock.value;
      if s.clients[c].phase.Inserted? {
        InsertedDooms(cfg, s, c);
      } else {
        var more := SummedDooms(cfg, s, c);
      }
    }
  }

  /** A settlement in a state that was safe: an overspend follows, at once or when the lock holder
      completes, if and only if the raise exceeds what the budget leaves above the projected sum.
      (A raise of a row outside the month, or of the one row that holds the lock holder's own key,
      moves the projection by less; the projection after the settlement decides there.) */
  lemma OverrunBreaksBudgetIff(cfg: Config, month: int, steps: seq<Step>, i: nat, state: State, actual: Option<nat>)
    requires ValidConfig(cfg) && BudgetSound(cfg) && ValidRun(cfg, Init(month), steps)
    requires Enabled(cfg, Exec(cfg, Init(month), steps), Settle(i, state, actual))
    ensures var s := Exec(cfg, Init(month), steps);
            var settled := s.rows[i].(state := state, actual := actual);
            var s' := Apply(cfg, s, Settle(i, state, actual));
            && (Doomed(cfg, s') <==> ProjectedSpend(cfg, s') as real > cfg.budget)
            && (settled.submittedAt >= s.month && Cost(settled) >= Cost(s.rows[i])
                && (Holder(s).None? || !Carries(settled, Holder(s).value.req.key)) ==>
                  ProjectedSpend(cfg, s') == ProjectedSpend(cfg, s) + Raise(s.rows[i], settled)
                  && (Doomed(cfg, s') <==>
                        Raise(s.rows[i], settled) as real > cfg.budget - ProjectedSpend(cfg, s) as real))
  {
    var s := Exec(cfg, Init(month), steps);
    var st := Settle(i, state, actual);
    RunAppend(cfg, Init(month), steps, [st]);
    assert Exec(cfg, s, [st]) == Apply(cfg, s, st);
    DoomedIffProjectedOver(cfg, month, steps + [st]);
    RaiseMovesProjection(cfg, s, i, state, actual);
  }

  lemma RaiseMovesProjection(cfg: Config, s: Ledger, i: nat, state: State, actual: Option<nat>)
    requires Enabled(cfg, s, Settle(i, state, actual))
    ensures var settled := s.rows[i].(state := state, actual := actual);
            settled.submittedAt >= s.month && Cost(settled) >= Cost(s.rows[i])
            && (Holder(s).None? || !Carries(settled, Holder(s).value.req.key)) ==>
              ProjectedSpend(cfg, Apply(cfg, s, Settle(i, state, actual)))
              == ProjectedSpend(cfg, s) + Raise(s.rows[i], settled)
  {
    var settled := s.rows[i].(state := state, actual := actual);
    SpendRewrite(s.rows, i, settled, s.month);
    hide Spend, SpendExcept, RoundHalfUp;
    if Holder(s).Some? {
      assert Carries(settled, Holder(s).value.req.key) == Carries(s.rows[i], Holder(s).value.req.key);
    }
  }

  /** The settlement that breaks the budget without showing it: a budget of ten, a running row of
      four, and a second client that has cached that sum for its own six. Settling the row at five
      fits the six that are left, and yet the commit brings the sum to eleven. */
  lemma RaiseUnderLockOverspends() returns (cfg: Config, steps: seq<Step>, end: Ledger)
    ensures ValidConfig(cfg) && BudgetSound(cfg) && cfg.budget == 10.0
    ensures Reaches(cfg, Init(0), steps, end) && end.raised == 1 && Overspent(cfg, end) && Spend(end.rows, 0) == 11
    ensures |steps| == 15 && steps[12] == Settle(0, Completed, Some(5))
    ensures ValidRun(cfg, Init(0), steps[..13]) && Spend(Exec(cfg, Init(0), steps[..13]).rows, 0) == 5
  {
    cfg := Config(10.0, 10.0, true);
    var upTo, settled := SettledUnderLock(cfg);
    EstimatesExact();
    hide Spend, SumSteps;
    FinishAlone(cfg, settled, 1, "b");
    end := Admitting(settled, 1, "b");
    SpendAppend(settled.rows, NewRow(1, Async(6.0), "b"), 0);
    ReachesBoth(cfg, Init(0), upTo, settled, [Insert(1, "b"), Commit(1)], end);
    steps := upTo + [Insert(1, "b"), Commit(1)];
    assert steps[..13] == upTo;
  }

  function Async(estimate: PositiveAmount): Request {
    Request(AsyncJob, None, estimate, 0)
  }

  lemma EstimatesExact()
    ensures OnGrid(4.0) && RoundHalfUp(4.0) == 4 && OnGrid(6.0) && RoundHalfUp(6.0) == 6
  {
    RoundExactOnGrid(4);
    RoundExactOnGrid(6);
  }

  /** The first admission: a row of four. */
  lemma FirstAdmitted(cfg: Config, req: Request) returns (steps: seq<Step>, s: Ledger)
    requires cfg == Config(10.0, 10.0, true) && req.estimate == 4.0 && req.submittedAt == 0
    ensures |steps| == 7 && Reaches(cfg, Init(0), steps, s)
    ensures s.lock == None && s.month == 0 && s.raised == 0 && s.calls == [] && s.clients.Keys == {0}
    ensures s.clients[0] == Client(req, 0, Returned, Admitted("a", true))
    ensures s.rows == [Row("a", req.key, Some(4), None, 0, Queued, Some(0), false)] && Spend(s.rows, 0) == 4
  {
    EstimatesExact();
    hide RoundHalfUp, OnGrid;
    AdmitAlone(cfg, Init(0), 0, req, "a");
    steps := SumSteps(0, req) + [Insert(0, "a"), Commit(0)];
    s := Admitting(Summing(Init(0), 0, req), 0, "a");
    SpendAppend([], s.rows[0], 0);
    assert s.rows == [] + [s.rows[0]];
  }

  lemma SettleOnly(cfg: Config, s: Ledger)
    requires |s.rows| == 1 && !s.rows[0].purged && Cost(s.rows[0]) == 4 && s.rows[0].submittedAt == 0 && Spend(s.rows, 0) == 4
    ensures var s' := s.(rows := [s.rows[0].(state := Completed, actual := Some(5))], raised := s.raised + 1);
            Reaches(cfg, s, [Settle(0, Completed, Some(5))], s') && Spend(s'.rows, 0) == 5
  {
    var s' := s.(rows := [s.rows[0].(state := Completed, actual := Some(5))], raised := s.raised + 1);
    SpendRewrite(s.rows, 0, s'.rows[0], 0);
    hide Spend, SpendExcept;
    assert s.rows[0 := s'.rows[0]] == s'.rows;
    assert Apply(cfg, s, Settle(0, Completed, Some(5))) == s';
    ReachesOne(cfg, s, Settle(0, Completed, Some(5)), [], s');
  }

  /** The run up to the settlement: the second client has cached a sum of four. */
  lemma SettledUnderLock(cfg: Config) returns (steps: seq<Step>, s: Ledger)
    requires cfg == Config(10.0, 10.0, true)
    ensures |steps| == 13 && steps[12] == Settle(0, Completed, Some(5)) && Reaches(cfg, Init(0), steps, s)
    ensures s.lock == Some(1) && s.month == 0 && s.raised == 1 && Spend(s.rows, 0) == 5
    ensures |s.rows| == 1 && s.rows[0].id == "a"
    ensures 1 in s.clients && s.clients[1] == Client(Async(6.0), 0, Summed(4), Pending)
  {
    var first, s1 := FirstAdmitted(cfg, Async(4.0));
    var s2 := Summing(s1, 1, Async(6.0));
    EstimatesExact();
    hide RoundHalfUp, OnGrid, Reaches, Spend;
    SumAlone(cfg, s1, 1, Async(6.0));
    SettleOnly(cfg, s2);
    s := s2.(rows := [s2.rows[0].(state := Completed, actual := Some(5))], raised := 1);
    ReachesBoth(cfg, Init(0), first, s1, SumSteps(1, Async(6.0)), s2);
    ReachesBoth(cfg, Init(0), first + SumSteps(1, Async(6.0)), s2, [Settle(0, Completed, Some(5))], s);
    steps := first + SumSteps(1, Async(6.0)) + [Settle(0, Completed, Some(5))];
  }

  /** Every guarded transition on a row of the ledger is one of its settlement steps, so the
      theorems about runs cover them all; none but the reconciler's raises anything. */
  lemma TransitionIsSettlement(cfg: Config, s: Ledger, i: nat, t: Transition)
    requires i < |s.rows| && !s.rows[i].purged
    ensures var r := Attempt(s.rows[i], t);
            && Enabled(cfg, s, Settle(i, r.state, r.actual))
            && Apply(cfg, s, Settle(i, r.state, r.actual)).rows == s.rows[i := r]
            && (!t.Reconcile? ==> Apply(cfg, s, Settle(i, r.state, r.actual)).raised == s.raised)
  {
    CostlierIffReconciledAbove(s.rows[i], t);
    var r := Attempt(s.rows[i], t);
    assert s.rows[i].(state := r.state, actual := r.actual) == r;
  }

  // ---------------------------------------------------------------- purges

  /** A purge makes the month-to-date sum forget exactly what the deleted row cost in the month;
      with a cutoff at or before the month start it forgets nothing. */
  lemma PurgeForgets(cfg: Config, s: Ledger, i: nat, cutoff: int)
    requires Enabled(cfg, s, Purge(i, cutoff))
    ensures var s' := Apply(cfg, s, Purge(i, cutoff));
            && Spend(s'.rows, s.month) == Spend(s.rows, s.month) - InWindow(Cost(s.rows[i]), s.rows[i].submittedAt, s.month)
            && (cutoff <= s.month ==> Spend(s'.rows, s.month) == Spend(s.rows, s.month))
  {
    SpendRewrite(s.rows, i, s.rows[i].(purged := true), s.month);
  }

  function KeyedCall(): Request {
    Request(SyncInference, Some("k"), 4.0, 0)
  }

  /** After an admission on its own, the provider is called and the result recorded. */
  lemma DispatchAlone(cfg: Config, s: Ledger, c: nat, id: string) returns (s': Ledger)
    requires c in s.clients && s.clients[c].req.kind == SyncInference
    requires s.clients[c].phase == Returned && s.clients[c].outcome == Admitted(id, true)
    ensures Reaches(cfg, s, [Prepare(c), CallProvider(c), Record(c, Some(Completed))], s')
    ensures s' == SetClient(s, c, s.clients[c].(phase := Finished))
                    .(rows := SetState(SetState(s.rows, id, Running), id, Completed), calls := s.calls + [Call(c, id)])
  {
    hide SetState, Refund, Spend, FindKey, Conflict, RoundHalfUp, NewRow;
    var cl := s.clients[c];
    var s1 := SetClient(s.(rows := SetState(s.rows, id, Running)), c, cl.(phase := Dispatching(id)));
    var s2 := SetClient(s1.(calls := s.calls + [Call(c, id)]), c, cl.(phase := AtProvider(id)));
    s' := SetClient(s, c, cl.(phase := Finished))
            .(rows := SetState(SetState(s.rows, id, Running), id, Completed), calls := s.calls + [Call(c, id)]);
    assert Apply(cfg, s, Prepare(c)) == s1;
    assert Apply(cfg, s1, CallProvider(c)) == s2;
    assert Apply(cfg, s2, Record(c, Some(Completed))) == s';
    ReachesOne(cfg, s2, Record(c, Some(Completed)), [], s');
    ReachesOne(cfg, s1, CallProvider(c), [Record(c, Some(Completed))], s');
    ReachesOne(cfg, s, Prepare(c), [CallProvider(c), Record(c, Some(Completed))], s');
  }

  /** The first workload with the key has run its course and was deleted. */
  lemma KeyOnceUsed(cfg: Config) returns (steps: seq<Step>, s: Ledger)
    requires cfg == Config(10.0, 10.0, true)
    ensures Reaches(cfg, Init(0), steps, s) && s.lock == None && s.month == 0 && s.calls == [Call(0, "a")]
    ensures |s.rows| == 1 && s.rows[0].purged && s.rows[0].id == "a" && s.clients.Keys == {0}
    ensures s.clients[0].req == KeyedCall() && s.clients[0].outcome == Admitted("a", true)
  {
    var admit, s1 := FirstAdmitted(cfg, KeyedCall());
    hide Reaches, SetState;
    var dispatch := [Prepare(0), CallProvider(0), Record(0, Some(Completed))];
    var s2 := DispatchAlone(cfg, s1, 0, "a");
    CompletedRow(s1.rows, "a");
    DeleteOnly(cfg, s2);
    s := s2.(rows := [s2.rows[0].(purged := true)]);
    ReachesBoth(cfg, Init(0), admit, s1, dispatch, s2);
    ReachesBoth(cfg, Init(0), admit + dispatch, s2, [Purge(0, 1)], s);
    steps := admit + dispatch + [Purge(0, 1)];
  }

  lemma CompletedRow(rows: seq<Row>, id: string)
    requires |rows| == 1 && rows[0].id == id && !rows[0].purged
    ensures SetState(SetState(rows, id, Running), id, Completed) == [rows[0].(state := Completed)]
  {
  }

  /** Deleting the row of a finished workload reopens its key: a later call with the key is new
      again, gets another id and reaches the provider a second time. */
  lemma PurgeReopensKey() returns (cfg: Config, steps: seq<Step>, end: Ledger)
    ensures Reaches(cfg, Init(0), steps, end) && end.calls == [Call(0, "a"), Call(1, "b")]
    ensures 0 in end.clients && 1 in end.clients && end.clients[0].req.key == end.clients[1].req.key == Some("k")
    ensures end.clients[0].outcome == Admitted("a", true) && end.clients[1].outcome == Admitted("b", true)
  {
    cfg := Config(10.0, 10.0, true);
    var req := KeyedCall();
    var before, s := KeyOnceUsed(cfg);
    hide Reaches, SumSteps;
    OneQuantumGrid();
    SpendOfDeleted(s.rows);
    assert s.rows == [s.rows[0]];
    var admit := SumSteps(1, req) + [Insert(1, "b"), Commit(1)];
    var dispatch := [Prepare(1), CallProvider(1), Record(1, Some(Completed))];
    AdmitAlone(cfg, s, 1, req, "b");
    var s1 := Admitting(Summing(s, 1, req), 1, "b");
    end := DispatchAlone(cfg, s1, 1, "b");
    ReachesBoth(cfg, Init(0), before, s, admit, s1);
    ReachesBoth(cfg, Init(0), before + admit, s1, dispatch, end);
    steps := before + admit + dispatch;
  }

  lemma DeleteOnly(cfg: Config, s: Ledger)
    requires |s.rows| == 1 && !s.rows[0].purged && s.rows[0].state == Completed && s.rows[0].submittedAt == 0
    ensures Reaches(cfg, s, [Purge(0, 1)], s.(rows := [s.rows[0].(purged := true)]))
  {
    var s' := s.(rows := [s.rows[0].(purged := true)]);
    assert Apply(cfg, s, Purge(0, 1)) == s';
    ReachesOne(cfg, s, Purge(0, 1), [], s');
  }

  lemma OneQuantumGrid()
    ensures OnGrid(KeyedCall().estimate)
  {
  }

  lemma SpendOfDeleted(rows: seq<Row>)
    requires |rows| == 1 && rows[0].purged
    ensures Spend(rows, 0) == 0
  {
    assert rows[..0] == [];
  }
}
