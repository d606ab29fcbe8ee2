/** What every interleaving of the admission protocol keeps. */
module AdmissionSafety {
  import opened Money
  import opened Options
  import opened Workloads
  import opened Admission

  // ---------------------------------------------------------------- locking

  /** The advisory lock is held by exactly the client inside the critical section, and a
      transaction's `now()` never runs ahead of the current month start. */
  ghost predicate LockInv(s: Ledger) {
    && (s.lock.Some? ==> s.lock.value in s.clients && Critical(s.clients[s.lock.value].phase))
    && (forall c :: c in s.clients && Critical(s.clients[c].phase) ==> s.lock == Some(c))
    && (forall c :: c in s.clients && InTransaction(s.clients[c].phase) ==> s.clients[c].month <= s.month)
    && (forall c :: c in s.clients ==>
          (s.clients[c].outcome.Pending? <==>
             s.clients[c].phase.Called? || InTransaction(s.clients[c].phase)))
  }

  /** A step of one client keeps the discipline if it enters the critical section only through
      a free lock and gives the lock back when it leaves. */
  lemma LockInvClient(s: Ledger, c: nat, cl: Client, s': Ledger)
    requires LockInv(s)
    requires s'.clients == s.clients[c := cl] && s'.month == s.month
    requires Critical(cl.phase) ==> s'.lock == Some(c) && (s.lock == None || s.lock == Some(c))
    requires !Critical(cl.phase) ==> s'.lock == if s.lock == Some(c) then None else s.lock
    requires InTransaction(cl.phase) ==> cl.month <= s.month
    requires cl.outcome.Pending? <==> cl.phase.Called? || InTransaction(cl.phase)
    ensures LockInv(s')
  {
  }

  /** The client whose statement a step executes; `None` for a step of the environment. */
  function Actor(st: Step): Option<nat> {
    match st
    case AdvanceMonth(_) => None
    case Settle(_, _, _) => None
    case InsertUngated(_, _, _) => None
    case Purge(_, _) => None
    case Arrive(c, _) => Some(c)
    case Begin(c) => Some(c)
    case Lock(c) => Some(c)
    case Lookup(c) => Some(c)
    case Sum(c) => Some(c)
    case Insert(c, _) => Some(c)
    case Commit(c) => Some(c)
    case Abort(c) => Some(c)
    case Prepare(c) => Some(c)
    case CallProvider(c) => Some(c)
    case Record(c, _) => Some(c)
  }

  /** What a client's own step does to the shared parts of the ledger. */
  lemma ClientStepFrame(cfg: Config, s: Ledger, st: Step, c: nat)
    requires Enabled(cfg, s, st) && Actor(st) == Some(c)
    ensures var s' := Apply(cfg, s, st);
            && c in s'.clients && s'.clients == s.clients[c := s'.clients[c]]
            && s'.month == s.month && s'.raised == s.raised
  {
  }

  lemma LockInvStep(cfg: Config, s: Ledger, st: Step)
    requires LockInv(s) && Enabled(cfg, s, st)
    ensures LockInv(Apply(cfg, s, st))
  {
    if Actor(st).Some? {
      var c := Actor(st).value;
      ClientStepFrame(cfg, s, st, c);
      ClientStepLocks(cfg, s, st, c);
      var s' := Apply(cfg, s, st);
      hide Apply, Enabled;
      LockInvClient(s, c, s'.clients[c], s');
    }
  }

  lemma ClientStepLocks(cfg: Config, s: Ledger, st: Step, c: nat)
    requires LockInv(s) && Enabled(cfg, s, st) && Actor(st) == Some(c)
    ensures var s' := Apply(cfg, s, st);
            && c in s'.clients
            && (Critical(s'.clients[c].phase) ==> s'.lock == Some(c) && (s.lock == None || s.lock == Some(c)))
            && (!Critical(s'.clients[c].phase) ==> s'.lock == if s.lock == Some(c) then None else s.lock)
            && (InTransaction(s'.clients[c].phase) ==> s'.clients[c].month <= s.month)
            && (s'.clients[c].outcome.Pending? <==> s'.clients[c].phase.Called? || InTransaction(s'.clients[c].phase))
  {
    hide Spend, FindKey, Conflict, RoundHalfUp, SetState, Refund, Raise, NewRow;
  }

  // ---------------------------------------------------------------- money

  /** When the sum can be trusted: whole-quantum estimates, a budget that does not round up,
      or a request cap below the smallest estimate that rounds up. */
  ghost predicate BudgetSound(cfg: Config) {
    cfg.quotesOnly || RoundHalfUp(cfg.budget) as real <= cfg.budget || cfg.perRequestMax < 0.5
  }

  function InWindow(cost: nat, submittedAt: int, month: int): nat {
    if submittedAt >= month then cost else 0
  }

  /** The month-to-date sum once the lock holder, if any, has done what its cached sum or its
      uncommitted row still entitles it to. A row that took the holder's key in the meantime would
      have to be deleted first. */
  function Projected(cfg: Config, rows: seq<Row>, month: int, holder: Option<Client>): nat {
    var live := Spend(rows, month);
    if holder.None? then live
    else
      var cl := holder.value;
      match cl.phase
      case Inserted(row) => live + InWindow(Cost(row), row.submittedAt, month)
      case Summed(spend) =>
        if spend as real + cl.req.estimate > cfg.budget then live
        else Max(live, SpendExcept(rows, month, cl.req.key)
                       + InWindow(RoundHalfUp(cl.req.estimate), cl.req.submittedAt, month))
      case _ => live
  }

  function Max(a: nat, b: nat): nat {
    if a >= b then a else b
  }

  function Holder(s: Ledger): Option<Client> {
    if s.lock.Some? && s.lock.value in s.clients then Some(s.clients[s.lock.value]) else None
  }

  function ProjectedSpend(cfg: Config, s: Ledger): nat {
    Projected(cfg, s.rows, s.month, Holder(s))
  }

  /** What every client's arguments and cached sum satisfy. */
  ghost predicate ClientSane(cfg: Config, cl: Client) {
    && (cfg.quotesOnly ==> OnGrid(cl.req.estimate))
    && (cl.phase.Summed? ==> cl.req.estimate <= cfg.perRequestMax)
  }

  /** The projected sum exceeds the budget by at most `slack`. */
  ghost predicate Within(cfg: Config, s: Ledger, slack: nat) {
    ProjectedSpend(cfg, s) as real <= cfg.budget + slack as real
  }

  ghost predicate Sane(cfg: Config, s: Ledger) {
    forall c :: c in s.clients ==> ClientSane(cfg, s.clients[c])
  }

  /** The live sum is within the budget but for the raises of settlements so far, and stays so when
      the lock holder completes. */
  ghost predicate BudgetInv(cfg: Config, s: Ledger) {
    Sane(cfg, s) && Within(cfg, s, s.raised)
  }

  lemma LiveWithinProjected(cfg: Config, s: Ledger)
    ensures Spend(s.rows, s.month) <= ProjectedSpend(cfg, s)
  {
  }

  /** The comparison is made on the exact estimate, but the table stores it rounded. */
  lemma AdmissionFits(cfg: Config, spend: nat, e: PositiveAmount)
    requires ValidConfig(cfg) && BudgetSound(cfg)
    requires e <= cfg.perRequestMax && (cfg.quotesOnly ==> OnGrid(e))
    requires spend as real + e <= cfg.budget
    ensures (spend + RoundHalfUp(e)) as real <= cfg.budget
  {
    if cfg.quotesOnly {
      RoundExactOnGrid(e.Floor);
    } else if cfg.perRequestMax < 0.5 {
      assert RoundHalfUp(e) == 0;
    } else {
      RoundShift(spend, e);
      RoundMonotone(spend as real + e, cfg.budget);
    }
  }

  /** Cheaper or deleted rows and a later month start only lower the projection. */
  lemma ProjectedRelief(cfg: Config, before: seq<Row>, after: seq<Row>, early: int, late: int, holder: Option<Client>)
    requires NoCostlier(before, after) && early <= late
    ensures Projected(cfg, after, late, holder) <= Projected(cfg, before, early, holder)
  {
    SpendNoCostlier(before, after, early);
    SpendLaterMonth(after, early, late);
    if holder.Some? {
      SpendExceptLaterMonth(after, early, late, holder.value.req.key);
    }
  }

  /** A settlement raises the projection by at most the raise of its row. */
  lemma ProjectedSettle(cfg: Config, rows: seq<Row>, i: nat, settled: Row, month: int, holder: Option<Client>)
    requires i < |rows| && SameIdentity(rows[i], settled) && settled.purged == rows[i].purged
    ensures Projected(cfg, rows[i := settled], month, holder)
         <= Projected(cfg, rows, month, holder) + Raise(rows[i], settled)
  {
    SpendRewrite(rows, i, settled, month);
    if holder.Some? {
      assert Carries(settled, holder.value.req.key) == Carries(rows[i], holder.value.req.key);
    }
  }

  /** A row without a cost changes no projection. */
  lemma ProjectedUngated(cfg: Config, rows: seq<Row>, r: Row, month: int, holder: Option<Client>)
    requires Cost(r) == 0
    ensures Projected(cfg, rows + [r], month, holder) == Projected(cfg, rows, month, holder)
  {
    SpendAppend(rows, r, month);
  }

  /** Caching the sum: taken over the older month start of the transaction it dominates the live
      one, and what passes the comparison fits the budget as it will be stored. */
  lemma SumFits(cfg: Config, rows: seq<Row>, month: int, cl: Client)
    requires ValidConfig(cfg) && BudgetSound(cfg) && ClientSane(cfg, cl)
    requires cl.month <= month && cl.phase == Summed(Spend(rows, cl.month))
    ensures var p := Projected(cfg, rows, month, Some(cl));
            p == Spend(rows, month) || p as real <= cfg.budget
  {
    var e := cl.req.estimate;
    var spend := cl.phase.spend;
    if spend as real + e <= cfg.budget {
      AdmissionFits(cfg, spend, e);
      SpendExceptBounded(rows, month, cl.req.key);
      SpendLaterMonth(rows, cl.month, month);
    }
  }

  /** Inserting: with no clash no live row carries the key, so the projection is the same. */
  lemma InsertFits(cfg: Config, rows: seq<Row>, month: int, c: nat, cl: Client, id: string)
    requires cl.phase.Summed? && cl.phase.spend as real + cl.req.estimate <= cfg.budget
    requires !Conflict(rows, id, cl.req.key)
    ensures Projected(cfg, rows, month, Some(cl.(phase := Inserted(NewRow(c, cl.req, id)))))
         == Projected(cfg, rows, month, Some(cl))
  {
    forall r | r in rows ensures !Carries(r, cl.req.key) {
      assert !Clashes(r, id, cl.req.key);
    }
    SpendExceptBounded(rows, month, cl.req.key);
    assert Cost(NewRow(c, cl.req, id)) == RoundHalfUp(cl.req.estimate);
  }

  /** Outside the two dangerous phases the projection is the live sum. */
  lemma ProjectedIdle(cfg: Config, rows: seq<Row>, month: int, holder: Option<Client>)
    requires holder.Some? ==> !holder.value.phase.Summed? && !holder.value.phase.Inserted?
    ensures Projected(cfg, rows, month, holder) == Spend(rows, month)
  {
  }

  /** A client's statement other than a commit adds no row and makes none costlier. */
  lemma ClientStepRelief(cfg: Config, s: Ledger, st: Step, c: nat)
    requires Enabled(cfg, s, st) && Actor(st) == Some(c)
    requires st.Commit? ==> s.clients[c].phase.Replaying?
    ensures NoCostlier(s.rows, Apply(cfg, s, st).rows)
  {
    if st.Prepare? || st.Record? {
      DispatchRelief(cfg, s, st, c);
    } else {
      RowsAlone(cfg, s, st, c);
    }
  }

  lemma RowsAlone(cfg: Config, s: Ledger, st: Step, c: nat)
    requires Enabled(cfg, s, st) && Actor(st) == Some(c) && !st.Prepare? && !st.Record?
    requires st.Commit? ==> s.clients[c].phase.Replaying?
    ensures Apply(cfg, s, st).rows == s.rows
  {
    hide Spend, FindKey, Conflict, RoundHalfUp, SetState, Refund, Raise, NewRow;
  }

  lemma DispatchRelief(cfg: Config, s: Ledger, st: Step, c: nat)
    requires Enabled(cfg, s, st) && Actor(st) == Some(c) && (st.Prepare? || st.Record?)
    ensures NoCostlier(s.rows, Apply(cfg, s, st).rows)
  {
    if st.Prepare? {
      SetStateRelief(s.rows, s.clients[c].outcome.id, Running);
    } else {
      var id := s.clients[c].phase.id;
      SetStateRelief(s.rows, id, if st.result.Some? then st.result.value else Failed);
      RefundRelief(s.rows, id);
    }
    SameRelief(s.rows);
    hide NoCostlier, SetState, Refund;
  }

  lemma SameRelief(rows: seq<Row>)
    ensures NoCostlier(rows, rows)
  {
  }

  lemma SetStateRelief(rows: seq<Row>, id: string, state: State)
    ensures NoCostlier(rows, SetState(rows, id, state))
  {
  }

  lemma RefundRelief(rows: seq<Row>, id: string)
    ensures NoCostlier(rows, Refund(rows, id))
  {
  }

  /** The statements that leave the holder's entitlement alone or end it. */
  lemma QuietClientStep(cfg: Config, s: Ledger, st: Step, c: nat)
    requires LockInv(s) && Enabled(cfg, s, st) && Actor(st) == Some(c) && !st.Sum? && !st.Insert?
    requires st.Commit? ==> s.clients[c].phase.Replaying?
    ensures var s' := Apply(cfg, s, st);
            Holder(s') == Holder(s) || (Holder(s').Some? ==> !Holder(s').value.phase.Summed? && !Holder(s').value.phase.Inserted?)
  {
  }

  lemma QuietStepProjected(cfg: Config, s: Ledger, st: Step, c: nat)
    requires LockInv(s) && Enabled(cfg, s, st) && Actor(st) == Some(c) && !st.Sum? && !st.Insert?
    requires st.Commit? ==> s.clients[c].phase.Replaying?
    ensures ProjectedSpend(cfg, Apply(cfg, s, st)) <= ProjectedSpend(cfg, s)
  {
    var s' := Apply(cfg, s, st);
    ClientStepFrame(cfg, s, st, c);
    ClientStepRelief(cfg, s, st, c);
    QuietClientStep(cfg, s, st, c);
    hide Apply, Enabled, Spend, SpendExcept;
    ProjectedRelief(cfg, s.rows, s'.rows, s.month, s.month, Holder(s));
    if Holder(s') != Holder(s) {
      ProjectedRelief(cfg, s.rows, s'.rows, s.month, s.month, None);
      ProjectedIdle(cfg, s'.rows, s.month, Holder(s'));
      LiveWithinProjected(cfg, s);
      assert Projected(cfg, s.rows, s.month, None) == Spend(s.rows, s.month);
      assert Projected(cfg, s'.rows, s.month, None) == Spend(s'.rows, s.month);
    }
  }

  lemma SumStepProjected(cfg: Config, s: Ledger, c: nat)
    requires ValidConfig(cfg) && BudgetSound(cfg) && LockInv(s) && Sane(cfg, s) && Enabled(cfg, s, Sum(c))
    ensures var s' := Apply(cfg, s, Sum(c));
            ProjectedSpend(cfg, s') <= ProjectedSpend(cfg, s) || ProjectedSpend(cfg, s') as real <= cfg.budget
  {
    hide BudgetSound, Spend, RoundHalfUp;
    var s' := Apply(cfg, s, Sum(c));
    var cl := s'.clients[c];
    assert s.lock == Some(c) && s'.rows == s.rows && s'.month == s.month;
    assert ClientSane(cfg, s.clients[c]);
    ProjectedIdle(cfg, s.rows, s.month, Holder(s));
    if cl.phase.Summed? {
      SumFits(cfg, s.rows, s.month, cl);
      assert Holder(s') == Some(cl);
    } else {
      ProjectedIdle(cfg, s.rows, s.month, Holder(s'));
    }
  }

  lemma InsertStepProjected(cfg: Config, s: Ledger, c: nat, id: string)
    requires LockInv(s) && Enabled(cfg, s, Insert(c, id))
    ensures ProjectedSpend(cfg, Apply(cfg, s, Insert(c, id))) <= ProjectedSpend(cfg, s)
  {
    hide Spend, RoundHalfUp, NewRow;
    var s' := Apply(cfg, s, Insert(c, id));
    var cl := s.clients[c];
    assert Holder(s) == Some(cl) && s'.rows == s.rows && s'.month == s.month;
    LiveWithinProjected(cfg, s);
    if s'.clients[c].phase.Inserted? {
      InsertFits(cfg, s.rows, s.month, c, cl, id);
      assert Holder(s') == Some(cl.(phase := Inserted(NewRow(c, cl.req, id))));
    } else {
      ProjectedIdle(cfg, s.rows, s.month, Holder(s'));
    }
  }

  lemma CommitStepProjected(cfg: Config, s: Ledger, c: nat)
    requires LockInv(s) && Enabled(cfg, s, Commit(c)) && s.clients[c].phase.Inserted?
    ensures ProjectedSpend(cfg, Apply(cfg, s, Commit(c))) == ProjectedSpend(cfg, s)
  {
    SpendAppend(s.rows, s.clients[c].phase.row, s.month);
  }

  lemma EnvironmentStepProjected(cfg: Config, s: Ledger, st: Step)
    requires Enabled(cfg, s, st) && Actor(st).None?
    ensures var s' := Apply(cfg, s, st);
            ProjectedSpend(cfg, s') + s.raised <= ProjectedSpend(cfg, s) + s'.raised
  {
    var s' := Apply(cfg, s, st);
    assert Holder(s') == Holder(s);
    if st.AdvanceMonth? {
      ProjectedRelief(cfg, s.rows, s.rows, s.month, st.month, Holder(s));
    } else if st.Settle? {
      ProjectedSettle(cfg, s.rows, st.i, s.rows[st.i].(state := st.state, actual := st.actual), s.month, Holder(s));
    } else if st.Purge? {
      ProjectedRelief(cfg, s.rows, s'.rows, s.month, s.month, Holder(s));
    } else {
      ProjectedUngated(cfg, s.rows, UngatedRow(st.id, st.key, st.submittedAt), s.month, Holder(s));
    }
  }

  /** Whoever moves, the projected sum does not grow beyond the budget except by the raise of a
      settlement. */
  lemma ProjectedStep(cfg: Config, s: Ledger, st: Step)
    requires ValidConfig(cfg) && BudgetSound(cfg) && LockInv(s) && Sane(cfg, s) && Enabled(cfg, s, st)
    ensures var s' := Apply(cfg, s, st);
            && s.raised <= s'.raised
            && (|| ProjectedSpend(cfg, s') + s.raised <= ProjectedSpend(cfg, s) + s'.raised
                || ProjectedSpend(cfg, s') as real <= cfg.budget)
  {
    hide BudgetSound, ProjectedSpend, LockInv, Sane;
    if Actor(st).None? {
      EnvironmentStepProjected(cfg, s, st);
    } else {
      var c := Actor(st).value;
      ClientStepFrame(cfg, s, st, c);
      if st.Sum? {
        SumStepProjected(cfg, s, c);
      } else if st.Insert? {
        InsertStepProjected(cfg, s, c, st.id);
      } else if st.Commit? && s.clients[c].phase.Inserted? {
        CommitStepProjected(cfg, s, c);
      } else {
        QuietStepProjected(cfg, s, st, c);
      }
    }
  }

  lemma SaneStep(cfg: Config, s: Ledger, st: Step)
    requires Sane(cfg, s) && Enabled(cfg, s, st)
    ensures Sane(cfg, Apply(cfg, s, st))
  {
    hide OnGrid, Spend, FindKey, Conflict;
    if Actor(st).Some? {
      ClientStepFrame(cfg, s, st, Actor(st).value);
    }
  }

  /** Every step keeps the budget invariant, whatever settles, is deleted or is inserted beside the
      gate in the meantime. */
  lemma BudgetInvStep(cfg: Config, s: Ledger, st: Step)
    requires ValidConfig(cfg) && BudgetSound(cfg) && LockInv(s) && BudgetInv(cfg, s) && Enabled(cfg, s, st)
    ensures BudgetInv(cfg, Apply(cfg, s, st))
  {
    SaneStep(cfg, s, st);
    ProjectedStep(cfg, s, st);
    hide Enabled, Apply, Sane, ProjectedSpend, BudgetSound, LockInv;
  }

  /** What a run keeps, from any state of which the invariant holds with some slack. */
  lemma {:induction false} RunWithin(cfg: Config, s: Ledger, steps: seq<Step>, slack: nat)
    requires ValidConfig(cfg) && BudgetSound(cfg) && LockInv(s) && Sane(cfg, s) && ValidRun(cfg, s, steps)
    requires Within(cfg, s, slack)
    ensures var end := Exec(cfg, s, steps);
            LockInv(end) && Sane(cfg, end) && s.raised <= end.raised && Within(cfg, end, slack + end.raised - s.raised)
    decreases |steps|
  {
    hide Enabled, Apply, BudgetSound, LockInv, Sane, ProjectedSpend;
    if steps != [] {
      LockInvStep(cfg, s, steps[0]);
      SaneStep(cfg, s, steps[0]);
      ProjectedStep(cfg, s, steps[0]);
      var s' := Apply(cfg, s, steps[0]);
      RunWithin(cfg, s', steps[1..], slack + s'.raised - s.raised);
    }
  }

  /** Over every interleaving the live month-to-date sum exceeds the budget by at most what
      settlements raised during the run; without a raise, not at all. */
  lemma RunWithinBudget(cfg: Config, month: int, steps: seq<Step>)
    requires ValidConfig(cfg) && BudgetSound(cfg) && ValidRun(cfg, Init(month), steps)
    ensures var s := Exec(cfg, Init(month), steps);
            Spend(s.rows, s.month) as real <= cfg.budget + s.raised as real && s.raised == TotalRaise(cfg, Init(month), steps)
  {
    RunWithin(cfg, Init(month), steps, 0);
    LiveWithinProjected(cfg, Exec(cfg, Init(month), steps));
    RaisedIsTotal(cfg, Init(month), steps);
  }

  /** The raises of the settlements of a run. */
  ghost function TotalRaise(cfg: Config, s: Ledger, steps: seq<Step>): nat
    requires ValidRun(cfg, s, steps)
    decreases |steps|
  {
    if steps == [] then 0
    else
      var st := steps[0];
      var here := if st.Settle? then Raise(s.rows[st.i], s.rows[st.i].(state := st.state, actual := st.actual)) else 0;
      here + TotalRaise(cfg, Apply(cfg, s, st), steps[1..])
  }

  lemma {:induction false} RaisedIsTotal(cfg: Config, s: Ledger, steps: seq<Step>)
    requires ValidRun(cfg, s, steps)
    ensures Exec(cfg, s, steps).raised == s.raised + TotalRaise(cfg, s, steps)
    decreases |steps|
  {
    if steps != [] {
      if Actor(steps[0]).Some? {
        ClientStepFrame(cfg, s, steps[0], Actor(steps[0]).value);
      }
      RaisedIsTotal(cfg, Apply(cfg, s, steps[0]), steps[1..]);
    }
  }

  ghost predicate Reaches(cfg: Config, s: Ledger, steps: seq<Step>, s': Ledger) {
    ValidRun(cfg, s, steps) && Exec(cfg, s, steps) == s'
  }

  lemma ReachesOne(cfg: Config, s: Ledger, st: Step, rest: seq<Step>, s': Ledger)
    requires Enabled(cfg, s, st) && Reaches(cfg, Apply(cfg, s, st), rest, s')
    ensures Reaches(cfg, s, [st] + rest, s')
  {
    assert ([st] + rest)[1..] == rest;
  }

  lemma ReachesBoth(cfg: Config, s: Ledger, first: seq<Step>, mid: Ledger, second: seq<Step>, s': Ledger)
    requires Reaches(cfg, s, first, mid) && Reaches(cfg, mid, second, s')
    ensures Reaches(cfg, s, first + second, s')
  {
    RunAppend(cfg, s, first, second);
  }

  ghost predicate Overspent(cfg: Config, s: Ledger) {
    Spend(s.rows, s.month) as real > cfg.budget
  }
}
