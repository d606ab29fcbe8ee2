/** The gate's own code, statement by statement, against a database that other clients, unlocked
    writers and the clock keep changing between any two statements. */
module BudgetGate {
  import opened Options
  import opened Workloads
  import opened Admission
  import opened AdmissionSafety
  import opened AdmissionIdentity

  ghost predicate Inv(cfg: Config, s: Ledger) {
    && ValidConfig(cfg) && LockInv(s) && IdentityInv(s)
    && (BudgetSound(cfg) ==> BudgetInv(cfg, s))
  }

  lemma InvStep(cfg: Config, s: Ledger, st: Step)
    requires Inv(cfg, s) && Enabled(cfg, s, st)
    ensures Inv(cfg, Apply(cfg, s, st))
  {
    LockInvStep(cfg, s, st);
    IdentityInvStep(cfg, s, st);
    if BudgetSound(cfg) {
      BudgetInvStep(cfg, s, st);
    }
  }

  lemma CallsGrow(cfg: Config, s: Ledger, st: Step)
    requires Enabled(cfg, s, st)
    ensures s.calls <= Apply(cfg, s, st).calls && s.raised <= Apply(cfg, s, st).raised
  {
  }

  ghost predicate NeverSent(calls: seq<Call>, c: nat) {
    forall call :: call in calls ==> call.client != c
  }

  ghost predicate NotBy(steps: seq<Step>, c: nat) {
    forall k :: 0 <= k < |steps| ==> Actor(steps[k]) != Some(c)
  }

  /** Whatever the others do, a client's own record, and its hold on the lock, survive. */
  lemma {:induction false} OthersLeaveClientAlone(cfg: Config, s: Ledger, steps: seq<Step>, c: nat)
    requires Inv(cfg, s) && ValidRun(cfg, s, steps) && NotBy(steps, c) && c in s.clients
    ensures var s' := Exec(cfg, s, steps);
            && Inv(cfg, s') && c in s'.clients && s'.clients[c] == s.clients[c]
            && s.month <= s'.month && s.calls <= s'.calls && s.raised <= s'.raised
            && (NeverSent(s.calls, c) ==> NeverSent(s'.calls, c))
    decreases |steps|
  {
    if steps != [] {
      InvStep(cfg, s, steps[0]);
      OtherStep(cfg, s, steps[0], c);
      hide Inv, Enabled, Apply, NeverSent;
      OthersLeaveClientAlone(cfg, Apply(cfg, s, steps[0]), steps[1..], c);
    }
  }

  lemma OtherStep(cfg: Config, s: Ledger, st: Step, c: nat)
    requires Enabled(cfg, s, st) && Actor(st) != Some(c) && c in s.clients
    ensures var s' := Apply(cfg, s, st);
            && c in s'.clients && s'.clients[c] == s.clients[c]
            && s.month <= s'.month && s.calls <= s'.calls && s.raised <= s'.raised
            && (NeverSent(s.calls, c) ==> NeverSent(s'.calls, c))
  {
    CallsGrow(cfg, s, st);
    if Actor(st).Some? {
      ClientStepFrame(cfg, s, st, Actor(st).value);
    }
  }

  /** What the invariants say about a call whose outcome is known. */
  lemma Concluded(cfg: Config, s: Ledger, c: nat)
    requires Inv(cfg, s) && c in s.clients && !s.clients[c].outcome.Pending?
    ensures var cl := s.clients[c];
            && s.lock != Some(c)
            && (IsNewAdmission(cl.outcome) ==> Owns(s.rows, cl.outcome.id, cl.req.key, c))
            && (cl.outcome.Admitted? && !cl.outcome.isNew ==>
                  cl.req.key.Some? && Recorded(s.rows, cl.outcome.id, cl.req.key))
            && (!IsNewAdmission(cl.outcome) ==> forall r :: r in s.rows ==> r.admittedBy != Some(c))
            && (!IsNewAdmission(cl.outcome) || cl.phase.Returned? ==> NeverSent(s.calls, c))
    ensures BudgetSound(cfg) ==> Spend(s.rows, s.month) as real <= cfg.budget + s.raised as real
  {
    assert ClientIdentity(s.rows, c, s.clients[c]);
    LiveWithinProjected(cfg, s);
  }

  class Gate {
    const cfg: Config
    var rows: seq<Row>
    var lock: Option<nat>
    var month: int
    var clients: map<nat, Client>
    var calls: seq<Call>
    ghost var raised: nat

    constructor (cfg: Config, month: int)
      requires ValidConfig(cfg)
      ensures this.cfg == cfg && View() == Init(month) && Inv(cfg, View())
    {
      this.cfg := cfg;
      this.rows, this.lock, this.month, this.clients, this.calls := [], None, month, map[], [];
      this.raised := 0;
    }

    ghost function View(): Ledger
      reads this
    {
      Ledger(rows, lock, month, clients, calls, raised)
    }

    /** Any number of steps by anyone but client `c`. Callers see this contract only, so what they
        prove holds whichever run of the others takes place here. */
    method Interference(ghost c: nat)
      requires Inv(cfg, View()) && c in clients
      modifies this
      ensures exists steps :: ValidRun(cfg, old(View()), steps) && NotBy(steps, c)
                              && View() == Exec(cfg, old(View()), steps)
      ensures Inv(cfg, View()) && c in clients && clients[c] == old(clients)[c]
      ensures old(month) <= month && old(calls) <= calls && old(raised) <= raised
      ensures NeverSent(old(calls), c) ==> NeverSent(calls, c)
    {
      assert ValidRun(cfg, View(), []) && Exec(cfg, View(), []) == View() && NotBy([], c);
    }

    method Start(c: nat, req: Request)
      requires Inv(cfg, View()) && Enabled(cfg, View(), Arrive(c, req))
      modifies this
      ensures View() == Apply(cfg, old(View()), Arrive(c, req)) && Inv(cfg, View())
    {
      InvStep(cfg, View(), Arrive(c, req));
      if req.key == None && req.estimate > cfg.perRequestMax {
        clients := clients[c := Client(req, month, Returned, OverRequestCap)];
      } else {
        clients := clients[c := Client(req, month, Called, Pending)];
      }
    }

    method OpenTransaction(c: nat)
      requires Inv(cfg, View()) && Enabled(cfg, View(), Begin(c))
      modifies this
      ensures View() == Apply(cfg, old(View()), Begin(c)) && Inv(cfg, View())
    {
      InvStep(cfg, View(), Begin(c));
      clients := clients[c := clients[c].(phase := Waiting, month := month)];
    }

    /** `pg_advisory_xact_lock`; a wait that ends in an error is not granted. */
    method AcquireLock(c: nat) returns (granted: bool)
      requires Inv(cfg, View()) && c in clients && clients[c].phase.Waiting?
      modifies this
      ensures granted == old(lock).None?
      ensures View() == if granted then Apply(cfg, old(View()), Lock(c)) else old(View())
      ensures Inv(cfg, View())
    {
      granted := lock.None?;
      if granted {
        InvStep(cfg, View(), Lock(c));
        clients := clients[c := clients[c].(phase := Holding)];
        lock := Some(c);
      }
    }

    method LookupKey(c: nat) returns (found: Option<string>)
      requires Inv(cfg, View()) && Enabled(cfg, View(), Lookup(c))
      modifies this
      ensures View() == Apply(cfg, old(View()), Lookup(c)) && Inv(cfg, View())
      ensures clients[c].phase == if found.Some? then Replaying(found.value) else Cleared
    {
      InvStep(cfg, View(), Lookup(c));
      found := None;
      if clients[c].req.key.Some? {
        var row := FindKey(rows, clients[c].req.key.value);
        if row.Some? {
          found := Some(row.value.id);
        }
      }
      clients := clients[c := clients[c].(phase := if found.Some? then Replaying(found.value) else Cleared)];
    }

    /** The month-to-date `SELECT SUM(...)` over the transaction's own month. */
    method SumSpend(c: nat) returns (spend: nat)
      requires Inv(cfg, View()) && c in clients && clients[c].phase.Cleared?
      requires clients[c].req.estimate <= cfg.perRequestMax
      modifies this
      ensures View() == Apply(cfg, old(View()), Sum(c)) && Inv(cfg, View())
      ensures clients == old(clients)[c := old(clients)[c].(phase := Summed(spend))]
    {
      InvStep(cfg, View(), Sum(c));
      spend := Spend(rows, clients[c].month);
      clients := clients[c := clients[c].(phase := Summed(spend))];
    }

    /** `INSERT ... RETURNING id`; a clash with the primary key or the key index aborts. */
    method InsertRow(c: nat, id: string) returns (inserted: bool)
      requires Inv(cfg, View()) && c in clients && clients[c].phase.Summed?
      requires clients[c].phase.spend as real + clients[c].req.estimate <= cfg.budget
      modifies this
      ensures View() == Apply(cfg, old(View()), Insert(c, id)) && Inv(cfg, View())
      ensures c in clients && clients[c].req == old(clients)[c].req
      ensures inserted ==> clients[c].phase.Inserted? && clients[c].phase.row.id == id
                           && clients[c].outcome == old(clients)[c].outcome
      ensures !inserted ==> clients[c].phase.Returned? && clients[c].outcome == Aborted
    {
      InvStep(cfg, View(), Insert(c, id));
      inserted := !Conflict(rows, id, clients[c].req.key);
      if inserted {
        clients := clients[c := clients[c].(phase := Inserted(NewRow(c, clients[c].req, id)))];
      } else {
        clients := clients[c := clients[c].(phase := Returned, outcome := Aborted)];
        lock := None;
      }
    }

    method CommitTransaction(c: nat) returns (o: Outcome)
      requires Inv(cfg, View()) && c in clients && (clients[c].phase.Replaying? || clients[c].phase.Inserted?)
      modifies this
      ensures View() == Apply(cfg, old(View()), Commit(c)) && Inv(cfg, View())
      ensures clients == old(clients)[c := old(clients)[c].(phase := Returned, outcome := o)]
      ensures o == if old(clients)[c].phase.Replaying? then Admitted(old(clients)[c].phase.found, false)
                   else Admitted(old(clients)[c].phase.row.id, true)
    {
      InvStep(cfg, View(), Commit(c));
      var cl := clients[c];
      if cl.phase.Replaying? {
        o := Admitted(cl.phase.found, false);
      } else {
        o := Admitted(cl.phase.row.id, true);
        rows := rows + [cl.phase.row];
      }
      clients := clients[c := cl.(phase := Returned, outcome := o)];
      lock := None;
    }

    /** An exception inside the transaction: everything it wrote is undone and the lock freed. */
    method Raise(c: nat, o: Outcome)
      requires Inv(cfg, View()) && c in clients && clients[c].outcome.Pending?
      requires || (o == Aborted)
               || (o == OverRequestCap && clients[c].phase.Cleared? && clients[c].req.estimate > cfg.perRequestMax)
               || (clients[c].phase.Summed? && o == OverBudget(clients[c].phase.spend)
                   && clients[c].phase.spend as real + clients[c].req.estimate > cfg.budget)
      modifies this
      ensures View() == Finish(old(View()), c, old(clients)[c], o) && Inv(cfg, View())
      ensures clients == old(clients)[c := old(clients)[c].(phase := Returned, outcome := o)]
    {
      if o == Aborted {
        InvStep(cfg, View(), Abort(c));
      } else if o == OverRequestCap {
        InvStep(cfg, View(), Sum(c));
      } else {
        InvStep(cfg, View(), Insert(c, ""));
      }
      lock := if Critical(clients[c].phase) then None else lock;
      clients := clients[c := clients[c].(phase := Returned, outcome := o)];
    }

    /** `try_launch_admission`, with interference before every statement. The candidate id is
        whatever the id factory returns; the hook, when there is one, may refuse a new admission. */
    method TryLaunchAdmission(c: nat, req: Request, candidate: string, hook: Option<bool>) returns (o: Outcome)
      requires Inv(cfg, View()) && c !in clients && (cfg.quotesOnly ==> Money.OnGrid(req.estimate))
      modifies this
      ensures Inv(cfg, View())
      // The budget holds at return but for what settlements raised, whatever happened in between.
      ensures BudgetSound(cfg) ==> Spend(rows, month) as real <= cfg.budget + raised as real
      // The call is over, its transaction closed, and its lock free.
      ensures c in clients && clients[c].outcome == o && clients[c].req == req
      ensures !o.Pending? && clients[c].phase.Returned? && lock != Some(c)
      // The provider has not heard of this call.
      ensures NeverSent(calls, c)
      // A new admission wrote exactly one row, with the candidate id and the caller's key.
      ensures IsNewAdmission(o) ==> o.id == candidate && Owns(rows, candidate, req.key, c)
      ensures IsNewAdmission(o) ==> req.estimate <= cfg.perRequestMax && hook != Some(false)
      // A replay names a workload recorded under the key.
      ensures o.Admitted? && !o.isNew ==> req.key.Some? && Recorded(rows, o.id, req.key)
      // Every other outcome wrote nothing, and a rejection states its reason.
      ensures !IsNewAdmission(o) ==> forall r :: r in rows ==> r.admittedBy != Some(c)
      ensures o.OverRequestCap? ==> req.estimate > cfg.perRequestMax
      ensures o.OverBudget? ==> o.spend as real + req.estimate > cfg.budget
    {
      Start(c, req);
      if req.key == None && req.estimate > cfg.perRequestMax {
        o := OverRequestCap;
      } else {
        Interference(c);
        OpenTransaction(c);
        Interference(c);
        o := InTransaction(c, req, candidate, hook);
      }
      Concluded(cfg, View(), c);
    }

    /** The body of the transaction, from the wait for the lock to its commit or rollback. */
    method InTransaction(c: nat, req: Request, candidate: string, hook: Option<bool>) returns (o: Outcome)
      requires Inv(cfg, View()) && c in clients && clients[c].phase.Waiting? && clients[c].req == req
      modifies this
      ensures Inv(cfg, View()) && c in clients && clients[c].outcome == o && clients[c].req == req
      ensures !o.Pending? && clients[c].phase.Returned?
      ensures IsNewAdmission(o) ==> o.id == candidate
      ensures IsNewAdmission(o) ==> req.estimate <= cfg.perRequestMax && hook != Some(false)
      ensures o.OverRequestCap? ==> req.estimate > cfg.perRequestMax
      ensures o.OverBudget? ==> o.spend as real + req.estimate > cfg.budget
    {
      var granted := AcquireLock(c);
      if !granted {
        Raise(c, Aborted);
        return Aborted;
      }
      Interference(c);
      var found := LookupKey(c);
      Interference(c);
      if found.Some? {
        o := CommitTransaction(c);
      } else {
        o := AdmitNew(c, req, candidate, hook);
      }
    }

    /** The second half: no row carries the key and the lock is held. */
    method AdmitNew(c: nat, req: Request, candidate: string, hook: Option<bool>) returns (o: Outcome)
      requires Inv(cfg, View()) && c in clients && clients[c].phase.Cleared? && clients[c].req == req
      modifies this
      ensures Inv(cfg, View()) && c in clients && clients[c].outcome == o && clients[c].req == req
      ensures !o.Pending? && clients[c].phase.Returned? && (o.Admitted? ==> o.isNew && o.id == candidate)
      ensures o.Admitted? ==> req.estimate <= cfg.perRequestMax && hook != Some(false)
      ensures o.OverRequestCap? ==> req.estimate > cfg.perRequestMax
      ensures o.OverBudget? ==> o.spend as real + req.estimate > cfg.budget
    {
      assert clients[c].outcome.Pending?;
      hide Inv, View, Enabled, Apply, Finish, ValidRun, Exec;
      if hook == Some(false) {
        Raise(c, Aborted);
        return Aborted;
      }
      if req.estimate > cfg.perRequestMax {
        Raise(c, OverRequestCap);
        return OverRequestCap;
      }
      var spend := SumSpend(c);
      Interference(c);
      if spend as real + req.estimate > cfg.budget {
        Raise(c, OverBudget(spend));
        return OverBudget(spend);
      }
      var inserted := InsertRow(c, candidate);
      if !inserted {
        return Aborted;
      }
      Interference(c);
      o := CommitTransaction(c);
    }

    /** What is written before the provider is called. */
    method PrepareWorkload(c: nat)
      requires Inv(cfg, View()) && c in clients && clients[c].phase.Returned? && IsNewAdmission(clients[c].outcome)
      modifies this
      ensures View() == Apply(cfg, old(View()), Prepare(c)) && Inv(cfg, View())
      ensures clients == old(clients)[c := old(clients)[c].(phase := Dispatching(old(clients)[c].outcome.id))]
    {
      InvStep(cfg, View(), Prepare(c));
      var cl := clients[c];
      if cl.req.kind == SyncInference {
        rows := SetState(rows, cl.outcome.id, Running);
      }
      clients := clients[c := cl.(phase := Dispatching(cl.outcome.id))];
    }

    method SendToProvider(c: nat)
      requires Inv(cfg, View()) && c in clients && clients[c].phase.Dispatching?
      modifies this
      ensures View() == Apply(cfg, old(View()), Admission.CallProvider(c)) && Inv(cfg, View())
      ensures clients == old(clients)[c := old(clients)[c].(phase := AtProvider(old(clients)[c].phase.id))]
      ensures calls == old(calls) + [Call(c, old(clients)[c].phase.id)]
    {
      InvStep(cfg, View(), Admission.CallProvider(c));
      var cl := clients[c];
      calls := calls + [Call(c, cl.phase.id)];
      clients := clients[c := cl.(phase := AtProvider(cl.phase.id))];
    }

    /** What is written after the provider answered or failed. */
    method RecordResult(c: nat, result: Option<State>)
      requires Inv(cfg, View()) && c in clients && clients[c].phase.AtProvider?
      modifies this
      ensures View() == Apply(cfg, old(View()), Record(c, result)) && Inv(cfg, View())
      ensures clients == old(clients)[c := old(clients)[c].(phase := Finished)] && calls == old(calls)
    {
      InvStep(cfg, View(), Record(c, result));
      var cl := clients[c];
      match cl.req.kind {
        case SyncInference =>
          rows := SetState(rows, cl.phase.id, if result.Some? then result.value else Failed);
        case AsyncJob =>
          if result.None? {
            rows := Refund(rows, cl.phase.id);
          }
      }
      clients := clients[c := cl.(phase := Finished)];
    }

    /** An error after the admission: the call ends and what it wrote stays. */
    method GiveUp(c: nat)
      requires Inv(cfg, View()) && c in clients && !clients[c].outcome.Pending? && !clients[c].phase.Finished?
      modifies this
      ensures View() == Apply(cfg, old(View()), Abort(c)) && Inv(cfg, View())
      ensures clients == old(clients)[c := old(clients)[c].(phase := Finished)] && calls == old(calls)
    {
      InvStep(cfg, View(), Abort(c));
      clients := clients[c := clients[c].(phase := Finished)];
    }

    /** `gate_sync_inference` and `create_and_dispatch_job`: admit, and only for a new admission
        mark the workload, call the provider and record. The statements around the call may fail;
        `reply` is `None` when the call raises, otherwise the status it reported. */
    method LaunchAndDispatch(c: nat, req: Request, candidate: string, prepared: bool, reply: Option<string>, recorded: bool)
      returns (o: Outcome, sent: bool)
      requires Inv(cfg, View()) && c !in clients && (cfg.quotesOnly ==> Money.OnGrid(req.estimate))
      modifies this
      ensures Inv(cfg, View()) && c in clients && clients[c].outcome == o && clients[c].req == req
      // The provider hears of this call exactly when it is new and marked, and then exactly once.
      ensures sent <==> IsNewAdmission(o) && prepared
      ensures sent ==> Call(c, o.id) in calls
      ensures !sent ==> NeverSent(calls, c)
      ensures forall k, l :: 0 <= k < l < |calls| ==> calls[k].id != calls[l].id && calls[k].client != calls[l].client
    {
      o := TryLaunchAdmission(c, req, candidate, None);
      sent := IsNewAdmission(o) && prepared;
      hide Inv, View, Enabled, Apply, ValidRun, Exec;
      if IsNewAdmission(o) {
        Interference(c);
        if prepared {
          Dispatch(c, o.id, reply, recorded);
        } else {
          GiveUp(c);
        }
      }
      DistinctCalls(cfg, View());
    }

    /** The marked workload goes to the provider once, and the answer is recorded. */
    method Dispatch(c: nat, id: string, reply: Option<string>, recorded: bool)
      requires Inv(cfg, View()) && c in clients && clients[c].phase.Returned? && clients[c].outcome == Admitted(id, true)
      modifies this
      ensures Inv(cfg, View()) && Call(c, id) in calls
      ensures c in clients && clients[c].outcome == old(clients)[c].outcome && clients[c].req == old(clients)[c].req
    {
      hide Inv, View, Enabled, Apply, ValidRun, Exec, NeverSent;
      PrepareWorkload(c);
      Interference(c);
      SendToProvider(c);
      assert calls[|calls| - 1] == Call(c, id);
      Interference(c);
      assert Call(c, id) in calls;
      if recorded {
        RecordResult(c, if reply.Some? then Some(StateForStatus(reply.value)) else None);
      } else {
        GiveUp(c);
      }
    }
  }

  /** `_active_state_from_runpod_result`, then `_terminal_state_from_runpod_result`. */
  function ActiveState(status: string): Option<State> {
    if status == "IN_QUEUE" then Some(Queued)
    else if status == "IN_PROGRESS" then Some(Running)
    else None
  }

  function TerminalState(status: string): State {
    if status == "FAILED" then Failed
    else if status == "CANCELLED" then Cancelled
    else if status == "TIMED_OUT" || status == "TIMEOUT" || status == "TIME_OUT" then TimedOut
    else Completed
  }

  function StateForStatus(status: string): (s: State)
    ensures Terminal(s) <==> status != "IN_QUEUE" && status != "IN_PROGRESS"
  {
    if ActiveState(status).Some? then ActiveState(status).value else TerminalState(status)
  }

  lemma DistinctCalls(cfg: Config, s: Ledger)
    requires Inv(cfg, s)
    ensures forall k, l :: 0 <= k < l < |s.calls| ==> s.calls[k].id != s.calls[l].id && s.calls[k].client != s.calls[l].client
  {
    forall k, l | 0 <= k < l < |s.calls|
      ensures s.calls[k].id != s.calls[l].id && s.calls[k].client != s.calls[l].client
    {
      CallsDistinctAt(s, k, l);
    }
  }
}
