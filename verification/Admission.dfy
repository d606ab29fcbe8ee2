/** The admission protocol as a state machine: any number of calls, one step per SQL statement,
    interleaved with unlocked settlements, writers beside the gate, retention purges and a month
    start that moves forward. */
module Admission {
  import opened Money
  import opened Options
  import opened Workloads

  /** Amounts are real micro-dollars. `quotesOnly` says that every caller passes a quantized
      quote, as the two inference entry points do; other callers may pass any positive decimal. */
  datatype Config = Config(budget: real, perRequestMax: real, quotesOnly: bool)

  ghost predicate ValidConfig(cfg: Config) {
    cfg.budget > 0.0 && cfg.perRequestMax > 0.0
  }

  /** `_positive_estimate` refuses anything else before the call starts. */
  type PositiveAmount = x: real | x > 0.0 witness 1.0

  datatype Kind = SyncInference | AsyncJob

  datatype Request = Request(kind: Kind, key: Option<string>, estimate: PositiveAmount, submittedAt: int)

  datatype Outcome =
    | Pending
    | Admitted(id: string, isNew: bool)
    | OverRequestCap
    | OverBudget(spend: nat)
    | Aborted

  datatype Phase =
    | Called                    // arguments validated, no transaction yet
    | Waiting                   // transaction open, waiting for the advisory lock
    | Holding                   // lock granted
    | Cleared                   // no row carries the key
    | Replaying(found: string)  // a row carries the key
    | Summed(spend: nat)        // month-to-date sum read; it may go stale
    | Inserted(row: Row)        // row written, not yet committed
    | Returned                  // transaction over, outcome known
    | Dispatching(id: string)   // new workload marked for the provider
    | AtProvider(id: string)    // provider called
    | Finished

  /** `month` is the month start of the transaction's own `now()`, fixed when it begins. */
  datatype Client = Client(req: Request, month: int, phase: Phase, outcome: Outcome)

  datatype Call = Call(client: nat, id: string)

  /** `raised` adds up by how much settlements raised rows; no statement reads it. */
  datatype Ledger = Ledger(
    rows: seq<Row>,
    lock: Option<nat>,
    month: int,
    clients: map<nat, Client>,
    calls: seq<Call>,
    raised: nat)

  function Init(month: int): Ledger {
    Ledger([], None, month, map[], [], 0)
  }

  datatype Step =
    | Arrive(c: nat, req: Request)
    | Begin(c: nat)
    | Lock(c: nat)
    | Lookup(c: nat)
    | Sum(c: nat)
    | Insert(c: nat, id: string)
    | Commit(c: nat)
    | Abort(c: nat)
    | Prepare(c: nat)
    | CallProvider(c: nat)
    | Record(c: nat, result: Option<State>)
    | AdvanceMonth(month: int)
    | Settle(i: nat, state: State, actual: Option<nat>)
    | InsertUngated(id: string, key: Option<string>, submittedAt: int)
    | Purge(i: nat, cutoff: int)

  predicate InTransaction(p: Phase) {
    p.Waiting? || Critical(p)
  }

  predicate Critical(p: Phase) {
    p.Holding? || p.Cleared? || p.Replaying? || p.Summed? || p.Inserted?
  }

  /** The first row carrying the key, as the lookup by idempotency key returns it. */
  function FindKey(rows: seq<Row>, key: string): (found: Option<Row>)
    ensures found.Some? ==> found.value in rows && Carries(found.value, Some(key))
    ensures found.None? ==> forall r :: r in rows ==> !Carries(r, Some(key))
  {
    if rows == [] then None
    else if Carries(rows[0], Some(key)) then Some(rows[0])
    else FindKey(rows[1..], key)
  }

  /** Ids come fresh from the id factory and are not used again, not even after a purge. */
  predicate Clashes(r: Row, id: string, key: Option<string>) {
    r.id == id || Carries(r, key)
  }

  /** The primary key and the unique index on idempotency keys. */
  predicate Conflict(rows: seq<Row>, id: string, key: Option<string>) {
    exists r :: r in rows && Clashes(r, id, key)
  }

  function NewRow(c: nat, req: Request, id: string): Row
  {
    Row(id, req.key, Some(RoundHalfUp(req.estimate)), None, req.submittedAt, Queued, Some(c), false)
  }

  /** A row inserted beside the gate has no cost yet. */
  function UngatedRow(id: string, key: Option<string>, submittedAt: int): Row {
    Row(id, key, None, None, submittedAt, Queued, None, false)
  }

  /** By how much a settlement makes a row costlier. */
  function Raise(before: Row, settled: Row): nat {
    if Cost(settled) > Cost(before) then Cost(settled) - Cost(before) else 0
  }

  predicate Enabled(cfg: Config, s: Ledger, st: Step) {
    match st
    case Arrive(c, req) =>
      c !in s.clients && (cfg.quotesOnly ==> OnGrid(req.estimate))
    case Begin(c) => c in s.clients && s.clients[c].phase.Called?
    case Lock(c) => c in s.clients && s.clients[c].phase.Waiting? && s.lock == None
    case Lookup(c) => c in s.clients && s.clients[c].phase.Holding?
    case Sum(c) => c in s.clients && s.clients[c].phase.Cleared?
    case Insert(c, _) => c in s.clients && s.clients[c].phase.Summed?
    case Commit(c) => c in s.clients && (s.clients[c].phase.Replaying? || s.clients[c].phase.Inserted?)
    case Abort(c) => c in s.clients && !s.clients[c].phase.Finished?
    case Prepare(c) => c in s.clients && s.clients[c].phase.Returned? && IsNewAdmission(s.clients[c].outcome)
    case CallProvider(c) => c in s.clients && s.clients[c].phase.Dispatching?
    case Record(c, _) => c in s.clients && s.clients[c].phase.AtProvider?
    case AdvanceMonth(m) => m >= s.month
    case Settle(i, _, _) => i < |s.rows| && !s.rows[i].purged
    case Purge(i, cutoff) =>
      i < |s.rows| && !s.rows[i].purged && Terminal(s.rows[i].state) && s.rows[i].submittedAt < cutoff
    case InsertUngated(id, key, _) =>
      && !Conflict(s.rows, id, key)
      && forall c :: c in s.clients && s.clients[c].phase.Inserted? ==>
           !Clashes(s.clients[c].phase.row, id, key)
  }

  predicate IsNewAdmission(o: Outcome) {
    o.Admitted? && o.isNew
  }

  function SetClient(s: Ledger, c: nat, cl: Client): Ledger {
    s.(clients := s.clients[c := cl])
  }

  /** End of a transaction: the outcome is known and the advisory lock goes with it. */
  function Finish(s: Ledger, c: nat, cl: Client, o: Outcome): Ledger {
    SetClient(s, c, cl.(phase := Returned, outcome := o)).(lock := if Critical(cl.phase) then None else s.lock)
  }

  /** Unguarded update of one workload by id, as the synchronous path writes it. */
  function SetState(rows: seq<Row>, id: string, state: State): (after: seq<Row>)
    ensures |after| == |rows|
    ensures forall i :: 0 <= i < |rows| ==>
      after[i] == if rows[i].id == id && !rows[i].purged then rows[i].(state := state) else rows[i]
  {
    if rows == [] then []
    else [if rows[0].id == id && !rows[0].purged then rows[0].(state := state) else rows[0]]
         + SetState(rows[1..], id, state)
  }

  /** The guarded refund of a failed asynchronous dispatch. */
  function Refund(rows: seq<Row>, id: string): (after: seq<Row>)
    ensures |after| == |rows|
    ensures forall i :: 0 <= i < |rows| ==>
      after[i] == if rows[i].id == id && !rows[i].purged then Attempt(rows[i], DispatchFailed) else rows[i]
  {
    if rows == [] then []
    else [if rows[0].id == id && !rows[0].purged then Attempt(rows[0], DispatchFailed) else rows[0]]
         + Refund(rows[1..], id)
  }

  function Apply(cfg: Config, s: Ledger, st: Step): Ledger
    requires Enabled(cfg, s, st)
  {
    match st
    case Arrive(c, req) =>
      if req.key == None && req.estimate > cfg.perRequestMax
      then SetClient(s, c, Client(req, s.month, Returned, OverRequestCap))
      else SetClient(s, c, Client(req, s.month, Called, Pending))
    case Begin(c) => SetClient(s, c, s.clients[c].(phase := Waiting, month := s.month))
    case Lock(c) => SetClient(s, c, s.clients[c].(phase := Holding)).(lock := Some(c))
    case Lookup(c) =>
      var cl := s.clients[c];
      var found := if cl.req.key.Some? then FindKey(s.rows, cl.req.key.value) else None;
      SetClient(s, c, cl.(phase := if found.Some? then Replaying(found.value.id) else Cleared))
    case Sum(c) =>
      var cl := s.clients[c];
      if cl.req.estimate > cfg.perRequestMax then Finish(s, c, cl, OverRequestCap)
      else SetClient(s, c, cl.(phase := Summed(Spend(s.rows, cl.month))))
    case Insert(c, id) =>
      var cl := s.clients[c];
      if cl.phase.spend as real + cl.req.estimate > cfg.budget then
        Finish(s, c, cl, OverBudget(cl.phase.spend))
      else if Conflict(s.rows, id, cl.req.key) then Finish(s, c, cl, Aborted)
      else SetClient(s, c, cl.(phase := Inserted(NewRow(c, cl.req, id))))
    case Commit(c) =>
      var cl := s.clients[c];
      if cl.phase.Replaying? then Finish(s, c, cl, Admitted(cl.phase.found, false))
      else Finish(s.(rows := s.rows + [cl.phase.row]), c, cl, Admitted(cl.phase.row.id, true))
    case Abort(c) =>
      var cl := s.clients[c];
      if cl.outcome == Pending then Finish(s, c, cl, Aborted)
      else SetClient(s, c, cl.(phase := Finished))
    case Prepare(c) =>
      var cl := s.clients[c];
      var rows := if cl.req.kind == SyncInference then SetState(s.rows, cl.outcome.id, Running) else s.rows;
      SetClient(s.(rows := rows), c, cl.(phase := Dispatching(cl.outcome.id)))
    case CallProvider(c) =>
      var cl := s.clients[c];
      SetClient(s.(calls := s.calls + [Call(c, cl.phase.id)]), c, cl.(phase := AtProvider(cl.phase.id)))
    case Record(c, result) =>
      var cl := s.clients[c];
      var rows := match cl.req.kind
        case SyncInference =>
          SetState(s.rows, cl.phase.id, if result.Some? then result.value else Failed)
        case AsyncJob => if result.Some? then s.rows else Refund(s.rows, cl.phase.id);
      SetClient(s.(rows := rows), c, cl.(phase := Finished))
    case AdvanceMonth(m) => s.(month := m)
    case Settle(i, state, actual) =>
      var settled := s.rows[i].(state := state, actual := actual);
      s.(rows := s.rows[i := settled], raised := s.raised + Raise(s.rows[i], settled))
    case InsertUngated(id, key, at) =>
      s.(rows := s.rows + [UngatedRow(id, key, at)])
    case Purge(i, _) => s.(rows := s.rows[i := s.rows[i].(purged := true)])
  }

  /** A run: each step is enabled where it is taken. */
  ghost predicate ValidRun(cfg: Config, s: Ledger, steps: seq<Step>)
    decreases |steps|
  {
    steps == [] || (Enabled(cfg, s, steps[0]) && ValidRun(cfg, Apply(cfg, s, steps[0]), steps[1..]))
  }

  ghost function Exec(cfg: Config, s: Ledger, steps: seq<Step>): Ledger
    requires ValidRun(cfg, s, steps)
    decreases |steps|
  {
    if steps == [] then s else Exec(cfg, Apply(cfg, s, steps[0]), steps[1..])
  }

  lemma {:induction false} RunAppend(cfg: Config, s: Ledger, first: seq<Step>, second: seq<Step>)
    requires ValidRun(cfg, s, first) && ValidRun(cfg, Exec(cfg, s, first), second)
    ensures ValidRun(cfg, s, first + second)
    ensures Exec(cfg, s, first + second) == Exec(cfg, Exec(cfg, s, first), second)
    decreases |first|
  {
    if first == [] {
      assert first + second == second;
    } else {
      RunAppend(cfg, Apply(cfg, s, first[0]), first[1..], second);
      assert (first + second)[1..] == first[1..] + second;
    }
  }
}
