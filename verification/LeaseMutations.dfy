/** Lease renewals and settings patches: each is one transaction that locks the lease row,
    reserves its idempotency key, updates the row under a guard and writes an audit row. */
module LeaseMutations {
  import opened Options

  datatype LeaseState = Creating | WaitingRuntime | WaitingProbe | Active | Stopping | Stopped | Failed | Expired

  /** What a mutation can change. Timestamps count microseconds. */
  datatype Core = Core(expiresAt: int, renewalPolicy: string, autoTeardown: bool)

  datatype Lease = Lease(state: LeaseState, core: Core)

  datatype OperationName = RenewName | PatchName

  datatype Operation =
    | Renew(minutes: int, horizon: int)
    | Patch(policy: Option<string>, teardown: Option<bool>)
  {
    function Name(): OperationName {
      if Renew? then RenewName else PatchName
    }

    /** A patch may leave every setting alone; such a patch writes nothing but its key. */
    predicate Writes() {
      Renew? || policy.Some? || teardown.Some?
    }
  }

  datatype Request = Request(lease: string, op: Operation, key: Option<string>, hash: string)

  /** One row of the key table. */
  datatype KeyRecord = KeyRecord(lease: string, operation: OperationName, hash: string)

  datatype Change =
    | Renewed(oldExpiry: int, newExpiry: int, minutes: int)
    | Patched(oldPolicy: Option<string>, newPolicy: Option<string>, oldTeardown: Option<bool>, newTeardown: Option<bool>)

  /** `reason` names the key, unless there is none or it is the empty string. */
  datatype AuditRow = AuditRow(lease: string, change: Change, reason: Option<string>)

  datatype Db = Db(leases: map<string, Lease>, keys: map<string, KeyRecord>, audit: seq<AuditRow>)

  datatype Response =
    | NotFound
    | Applied(lease: Lease)
    | Replayed(lease: Lease)
    | StateConflict(state: LeaseState)
    | ExpiryLimit
    | KeyConflict

  const MINUTE: int := 60_000_000

  predicate Mutable(s: LeaseState) {
    s == Creating || s == WaitingRuntime || s == WaitingProbe || s == Active
  }

  // ------------------------------------------------------------- what a transaction does

  function Record(req: Request): KeyRecord {
    KeyRecord(req.lease, req.op.Name(), req.hash)
  }

  function Changed(c: Core, op: Operation): Core {
    match op
    case Renew(minutes, _) => c.(expiresAt := c.expiresAt + minutes * MINUTE)
    case Patch(policy, teardown) =>
      Core(c.expiresAt,
           if policy.Some? then policy.value else c.renewalPolicy,
           if teardown.Some? then teardown.value else c.autoTeardown)
  }

  predicate WithinHorizon(c: Core, op: Operation, now: int) {
    op.Renew? ==> c.expiresAt + op.minutes * MINUTE <= now + op.horizon * MINUTE
  }

  function AuditChange(c: Core, op: Operation): Change {
    match op
    case Renew(minutes, _) => Renewed(c.expiresAt, c.expiresAt + minutes * MINUTE, minutes)
    case Patch(policy, teardown) =>
      Patched(if policy.Some? then Some(c.renewalPolicy) else None, policy,
              if teardown.Some? then Some(c.autoTeardown) else None, teardown)
  }

  function Reason(key: Option<string>): Option<string> {
    if key == Some("") then None else key
  }

  /** The answer: the lease must exist, a key already bound decides alone, then the state and the
      horizon are checked. */
  function Answer(db: Db, req: Request, now: int): Response {
    if req.lease !in db.leases then NotFound
    else
      var l := db.leases[req.lease];
      if req.key.Some? && req.key.value in db.keys then
        if db.keys[req.key.value] == Record(req) then Replayed(l) else KeyConflict
      else if !Mutable(l.state) then StateConflict(l.state)
      else if !WithinHorizon(l.core, req.op, now) then ExpiryLimit
      else Applied(l.(core := Changed(l.core, req.op)))
  }

  /** The committed effect: all of it when applied, none of it otherwise. */
  function Commit(db: Db, req: Request, now: int): Db {
    var answer := Answer(db, req, now);
    if !answer.Applied? then db
    else
      Db(db.leases[req.lease := answer.lease],
         if req.key.Some? then db.keys[req.key.value := Record(req)] else db.keys,
         if req.op.Writes()
         then db.audit + [AuditRow(req.lease, AuditChange(db.leases[req.lease].core, req.op), Reason(req.key))]
         else db.audit)
  }

  // ------------------------------------------------------------- the code

  datatype Reservation = Reserved | AlreadyReserved | Mismatch

  class LeaseRepository {
    var leases: map<string, Lease>
    var keys: map<string, KeyRecord>
    var audit: seq<AuditRow>

    constructor (db: Db)
      ensures Contents() == db
    {
      leases, keys, audit := db.leases, db.keys, db.audit;
    }

    function Contents(): Db
      reads this
    {
      Db(leases, keys, audit)
    }

    /** `_reserve_lease_mutation`: insert the key unless it is there, then compare. */
    method ReserveMutation(req: Request) returns (r: Reservation)
      modifies this`keys
      ensures r == Reserved ==>
                keys == (if req.key.Some? then old(keys)[req.key.value := Record(req)] else old(keys))
      ensures r != Reserved ==> keys == old(keys)
      ensures r == Reserved <==> req.key.None? || req.key.value !in old(keys)
      ensures r == AlreadyReserved <==> req.key.Some? && req.key.value in old(keys) && old(keys)[req.key.value] == Record(req)
    {
      if req.key.None? {
        return Reserved;
      }
      if req.key.value !in keys {
        keys := keys[req.key.value := Record(req)];
        return Reserved;
      }
      return if keys[req.key.value] == Record(req) then AlreadyReserved else Mismatch;
    }

    /** `renew`. An error after the reservation rolls the reservation back with everything else. */
    method RenewLease(req: Request, now: int) returns (r: Response)
      requires req.op.Renew?
      modifies this
      ensures r == Answer(old(Contents()), req, now)
      ensures Contents() == Commit(old(Contents()), req, now)
    {
      var begun := Contents();
      if req.lease !in leases {
        return NotFound;
      }
      var row := leases[req.lease];
      var reservation := ReserveMutation(req);
      if reservation == Mismatch {
        return KeyConflict;
      }
      if reservation == AlreadyReserved {
        return Replayed(row);
      }
      if !Mutable(row.state) {
        Rollback(begun);
        return StateConflict(row.state);
      }
      var extended := row.core.expiresAt + req.op.minutes * MINUTE;
      if extended > now + req.op.horizon * MINUTE {
        Rollback(begun);
        return ExpiryLimit;
      }
      var updated := row.(core := row.core.(expiresAt := extended));
      leases := leases[req.lease := updated];
      audit := audit + [AuditRow(req.lease, Renewed(row.core.expiresAt, extended, req.op.minutes), Reason(req.key))];
      return Applied(updated);
    }

    /** `patch_settings`: the columns to set are collected one by one with their old values. */
    method PatchSettings(req: Request, now: int) returns (r: Response)
      requires req.op.Patch?
      modifies this
      ensures r == Answer(old(Contents()), req, now)
      ensures Contents() == Commit(old(Contents()), req, now)
    {
      var begun := Contents();
      if req.lease !in leases {
        return NotFound;
      }
      var row := leases[req.lease];
      var reservation := ReserveMutation(req);
      if reservation == Mismatch {
        return KeyConflict;
      }
      if reservation == AlreadyReserved {
        return Replayed(row);
      }
      if !Mutable(row.state) {
        Rollback(begun);
        return StateConflict(row.state);
      }
      var core := row.core;
      var change := Patched(None, None, None, None);
      if req.op.policy.Some? {
        change := change.(oldPolicy := Some(core.renewalPolicy), newPolicy := req.op.policy);
        core := core.(renewalPolicy := req.op.policy.value);
      }
      if req.op.teardown.Some? {
        change := change.(oldTeardown := Some(core.autoTeardown), newTeardown := req.op.teardown);
        core := core.(autoTeardown := req.op.teardown.value);
      }
      if change.newPolicy.None? && change.newTeardown.None? {
        assert leases == leases[req.lease := row];
        return Applied(row);
      }
      var updated := row.(core := core);
      leases := leases[req.lease := updated];
      audit := audit + [AuditRow(req.lease, change, Reason(req.key))];
      return Applied(updated);
    }

    method Rollback(begun: Db)
      modifies this
      ensures Contents() == begun
    {
      leases, keys, audit := begun.leases, begun.keys, begun.audit;
    }
  }

  // ------------------------------------------------------------- runs

  /** A run interleaves transactions, in commit order, with the rest of the lease lifecycle: state
      changes, and the launch upsert, which writes expiry and settings over whatever the lease has
      and leaves no audit row. `now` is the start of the transaction. */
  datatype Step = Call(req: Request, now: int) | Upsert(id: string, row: Lease) | Move(id: string, state: LeaseState)

  function Next(db: Db, step: Step): Db {
    match step
    case Call(req, now) => Commit(db, req, now)
    case Upsert(id, row) => db.(leases := db.leases[id := row])
    case Move(id, state) =>
      if id in db.leases then db.(leases := db.leases[id := db.leases[id].(state := state)]) else db
  }

  function After(db: Db, steps: seq<Step>): Db {
    if steps == [] then db else Next(After(db, steps[..|steps| - 1]), steps[|steps| - 1])
  }

  function AnswerAt(db: Db, steps: seq<Step>, i: nat): Response
    requires i < |steps| && steps[i].Call?
  {
    Answer(After(db, steps[..i]), steps[i].req, steps[i].now)
  }

  predicate AppliedAt(db: Db, steps: seq<Step>, i: nat)
    requires i < |steps|
  {
    steps[i].Call? && AnswerAt(db, steps, i).Applied?
  }

  lemma AfterStep(db: Db, steps: seq<Step>, i: nat)
    requires i < |steps|
    ensures After(db, steps[..i + 1]) == Next(After(db, steps[..i]), steps[i])
  {
    assert steps[..i + 1][..i] == steps[..i];
  }

  /** Every answer but `applied` leaves the database exactly as it was. */
  lemma OnlyAppliedChanges(db: Db, req: Request, now: int)
    ensures !Answer(db, req, now).Applied? ==> Commit(db, req, now) == db
    ensures Answer(db, req, now).Applied? && req.key.Some? ==> Commit(db, req, now) != db
  {
    if Answer(db, req, now).Applied? && req.key.Some? {
      assert req.key.value in Commit(db, req, now).keys;
    }
  }

  /** An applied renewal moves the expiry by exactly its minutes, to at most the horizon counted
      from the start of its transaction. */
  lemma RenewalExact(db: Db, req: Request, now: int)
    requires req.op.Renew? && Answer(db, req, now).Applied?
    ensures req.lease in db.leases && Mutable(db.leases[req.lease].state)
    ensures var expiry := Commit(db, req, now).leases[req.lease].core.expiresAt;
            && expiry == db.leases[req.lease].core.expiresAt + req.op.minutes * MINUTE
            && expiry <= now + req.op.horizon * MINUTE
            && Answer(db, req, now).lease == Commit(db, req, now).leases[req.lease]
  {
  }

  /** An applied patch sets exactly the settings it names; the expiry, the state and every other
      lease stay as they were. */
  lemma PatchExact(db: Db, req: Request, now: int, id: string)
    requires req.op.Patch? && Answer(db, req, now).Applied? && id in db.leases
    ensures var before, after := db.leases[id], Commit(db, req, now).leases[id];
            && after.state == before.state && after.core.expiresAt == before.core.expiresAt
            && (after.core.renewalPolicy != before.core.renewalPolicy ==>
                  id == req.lease && req.op.policy == Some(after.core.renewalPolicy))
            && (after.core.autoTeardown != before.core.autoTeardown ==>
                  id == req.lease && req.op.teardown == Some(after.core.autoTeardown))
            && (id == req.lease && req.op.policy.Some? ==> after.core.renewalPolicy == req.op.policy.value)
            && (id == req.lease && req.op.teardown.Some? ==> after.core.autoTeardown == req.op.teardown.value)
  {
  }

  // ------------------------------------------------------------- keys

  /** A key once bound stays bound to the same lease, operation and hash. */
  lemma {:induction false} KeysStay(db: Db, steps: seq<Step>, i: nat, k: string)
    requires i <= |steps| && k in After(db, steps[..i]).keys
    ensures k in After(db, steps).keys && After(db, steps).keys[k] == After(db, steps[..i]).keys[k]
    decreases |steps| - i
  {
    if i < |steps| {
      AfterStep(db, steps, i);
      KeysStay(db, steps, i + 1, k);
    } else {
      assert steps[..i] == steps;
    }
  }

  /** After a key was applied, every later call with that key is refused or replayed: replayed
      exactly when it names the same lease, operation and hash. */
  lemma KeyAppliedOnce(db: Db, steps: seq<Step>, i: nat, j: nat)
    requires i < j < |steps| && AppliedAt(db, steps, i) && steps[j].Call?
    requires steps[i].req.key.Some? && steps[j].req.key == steps[i].req.key
    ensures !AppliedAt(db, steps, j)
    ensures AnswerAt(db, steps, j).Replayed? <==> Record(steps[j].req) == Record(steps[i].req)
    ensures Record(steps[j].req) != Record(steps[i].req) ==>
              AnswerAt(db, steps, j) in {NotFound, KeyConflict}
  {
    var k := steps[i].req.key.value;
    AfterStep(db, steps, i);
    assert steps[..j][..i + 1] == steps[..i + 1];
    KeysStay(db, steps[..j], i + 1, k);
    assert After(db, steps[..j]).keys[k] == Record(steps[i].req);
    LeaseStays(db, steps, i, j, steps[i].req.lease);
  }

  lemma LeaseStays(db: Db, steps: seq<Step>, i: nat, j: nat, id: string)
    requires i <= j <= |steps| && id in After(db, steps[..i]).leases
    ensures id in After(db, steps[..j]).leases
    decreases j - i
  {
    if i < j {
      AfterStep(db, steps, i);
      LeaseStays(db, steps, i + 1, j, id);
    }
  }

  /** A retry of an applied call changes nothing, however late it arrives and whatever happened
      to the lease in between; it is answered with the lease as it stands then. */
  lemma RetryChangesNothing(db: Db, steps: seq<Step>, i: nat, now: int)
    requires i < |steps| && AppliedAt(db, steps, i) && steps[i].req.key.Some?
    ensures var retried := steps + [Call(steps[i].req, now)];
            && After(db, retried) == After(db, steps)
            && steps[i].req.lease in After(db, steps).leases
            && AnswerAt(db, retried, |steps|) == Replayed(After(db, steps).leases[steps[i].req.lease])
  {
    var retried := steps + [Call(steps[i].req, now)];
    assert retried[..|steps|] == steps && retried[..i] == steps[..i];
    KeyAppliedOnce(db, retried, i, |steps|);
  }

  // ------------------------------------------------------------- audit replay

  /** Replays one audit row, refusing a row whose old values are not the current ones. */
  function ReplayRow(c: Core, change: Change): Option<Core> {
    match change
    case Renewed(oldExpiry, newExpiry, minutes) =>
      if oldExpiry == c.expiresAt && newExpiry == oldExpiry + minutes * MINUTE then Some(c.(expiresAt := newExpiry)) else None
    case Patched(oldPolicy, newPolicy, oldTeardown, newTeardown) =>
      if (newPolicy.Some? || newTeardown.Some?)
         && oldPolicy == (if newPolicy.Some? then Some(c.renewalPolicy) else None)
         && oldTeardown == (if newTeardown.Some? then Some(c.autoTeardown) else None)
      then Some(Core(c.expiresAt, if newPolicy.Some? then newPolicy.value else c.renewalPolicy,
                     if newTeardown.Some? then newTeardown.value else c.autoTeardown))
      else None
  }

  /** Replays, over the initial lease, the audit rows that name it. */
  function Replay(c: Core, rows: seq<AuditRow>, id: string): Option<Core> {
    if rows == [] then Some(c)
    else
      var n := |rows| - 1;
      var before := Replay(c, rows[..n], id);
      if rows[n].lease != id || before.None? then before else ReplayRow(before.value, rows[n].change)
  }

  lemma ReplayAppend(c: Core, rows: seq<AuditRow>, row: AuditRow, id: string)
    ensures var before := Replay(c, rows, id);
            Replay(c, rows + [row], id)
            == if row.lease != id || before.None? then before else ReplayRow(before.value, row.change)
  {
    assert (rows + [row])[..|rows|] == rows;
  }

  /** The audit row of a change describes it completely. */
  lemma AuditRowDescribes(c: Core, op: Operation)
    ensures op.Writes() ==> ReplayRow(c, AuditChange(c, op)) == Some(Changed(c, op))
    ensures !op.Writes() ==> Changed(c, op) == c
  {
  }

  lemma {:induction false} AuditGrows(db: Db, steps: seq<Step>)
    ensures db.audit <= After(db, steps).audit
  {
    if steps != [] {
      AuditGrows(db, steps[..|steps| - 1]);
    }
  }

  predicate UpsertsAt(steps: seq<Step>, n: nat, id: string)
    requires n < |steps|
  {
    steps[n].Upsert? && steps[n].id == id
  }

  /** The values the launch wrote last: of the last upsert of the run, or from before the run. */
  function Base(db: Db, steps: seq<Step>, id: string): Option<Core> {
    if steps == [] then (if id in db.leases then Some(db.leases[id].core) else None)
    else
      var n := |steps| - 1;
      if UpsertsAt(steps, n, id) then Some(steps[n].row.core) else Base(db, steps[..n], id)
  }

  /** How long the audit was at that moment. */
  function AuditMark(db: Db, steps: seq<Step>, id: string): (n: nat)
    ensures n <= |After(db, steps).audit|
  {
    if steps == [] then |db.audit|
    else
      var n := |steps| - 1;
      AuditGrowsOnce(db, steps);
      if UpsertsAt(steps, n, id) then |After(db, steps).audit| else AuditMark(db, steps[..n], id)
  }

  lemma AuditGrowsOnce(db: Db, steps: seq<Step>)
    requires steps != []
    ensures After(db, steps[..|steps| - 1]).audit <= After(db, steps).audit
  {
  }

  /** Over every run and for every lease: replaying the audit rows written since the last launch
      upsert over the values it wrote succeeds, old values included, and gives the current expiry
      and settings. */
  lemma {:induction false} AuditExplainsSinceUpsert(db: Db, steps: seq<Step>, id: string)
    requires id in After(db, steps).leases
    ensures var end := After(db, steps);
            && Base(db, steps, id).Some?
            && Replay(Base(db, steps, id).value, end.audit[AuditMark(db, steps, id)..], id) == Some(end.leases[id].core)
  {
    if steps != [] {
      var n := |steps| - 1;
      if !UpsertsAt(steps, n, id) {
        StepKeepsPresence(After(db, steps[..n]), steps[n], id);
        AuditExplainsSinceUpsert(db, steps[..n], id);
        StepReplays(After(db, steps[..n]), steps[n], id, Base(db, steps, id).value, AuditMark(db, steps[..n], id));
      }
    }
  }

  lemma StepKeepsPresence(db: Db, step: Step, id: string)
    requires id in Next(db, step).leases && !(step.Upsert? && step.id == id)
    ensures id in db.leases
  {
  }

  /** One step other than an upsert of the lease: if the replay explained the lease before, it
      explains it afterwards. */
  lemma StepReplays(db: Db, step: Step, id: string, base: Core, start: nat)
    requires id in db.leases && start <= |db.audit| && !(step.Upsert? && step.id == id)
    requires Replay(base, db.audit[start..], id) == Some(db.leases[id].core)
    ensures var after := Next(db, step);
            id in after.leases && db.audit <= after.audit
            && Replay(base, after.audit[start..], id) == Some(after.leases[id].core)
  {
    hide Replay, ReplayRow;
    if step.Call? && Answer(db, step.req, step.now).Applied? {
      var req := step.req;
      var prior := db.leases[req.lease].core;
      AuditRowDescribes(prior, req.op);
      if req.op.Writes() {
        var row := AuditRow(req.lease, AuditChange(prior, req.op), Reason(req.key));
        assert Next(db, step).audit[start..] == db.audit[start..] + [row];
        ReplayAppend(base, db.audit[start..], row, id);
      }
    }
  }

  /** Whether the audit written during the run explains the lease after its first `n` steps. */
  ghost predicate AuditExplains(db: Db, steps: seq<Step>, id: string, n: nat)
    requires id in db.leases && n <= |steps|
  {
    var now := After(db, steps[..n]);
    && db.audit <= now.audit && id in now.leases
    && Replay(db.leases[id].core, now.audit[|db.audit|..], id) == Some(now.leases[id].core)
  }

  /** Every launch upsert found the lease with the values it wrote: it discarded nothing. */
  ghost predicate NothingDiscarded(db: Db, steps: seq<Step>, id: string) {
    forall n :: 0 <= n < |steps| && UpsertsAt(steps, n, id) ==>
      id in After(db, steps[..n]).leases && steps[n].row.core == After(db, steps[..n]).leases[id].core
  }

  lemma {:induction false} ExplainedWhileNothingDiscarded(db: Db, steps: seq<Step>, id: string, n: nat)
    requires id in db.leases && n <= |steps| && NothingDiscarded(db, steps, id)
    ensures AuditExplains(db, steps, id, n)
    decreases n
  {
    if n == 0 {
      assert db.audit[|db.audit|..] == [];
    } else {
      ExplainedWhileNothingDiscarded(db, steps, id, n - 1);
      AfterStep(db, steps, n - 1);
      if !UpsertsAt(steps, n - 1, id) {
        hide Next, Replay;
        StepReplays(After(db, steps[..n - 1]), steps[n - 1], id, db.leases[id].core, |db.audit|);
      }
    }
  }

  /** The exact condition: the audit explains a lease throughout a run if and only if no launch
      upsert of the run discarded an applied change. */
  lemma AuditExplainsLeaseIff(db: Db, steps: seq<Step>, id: string)
    requires id in db.leases
    ensures (forall n :: 0 <= n <= |steps| ==> AuditExplains(db, steps, id, n)) <==> NothingDiscarded(db, steps, id)
  {
    if NothingDiscarded(db, steps, id) {
      forall n | 0 <= n <= |steps| ensures AuditExplains(db, steps, id, n) {
        ExplainedWhileNothingDiscarded(db, steps, id, n);
      }
    } else {
      var n :| 0 <= n < |steps| && UpsertsAt(steps, n, id)
               && !(id in After(db, steps[..n]).leases && steps[n].row.core == After(db, steps[..n]).leases[id].core);
      AfterStep(db, steps, n);
      hide Replay;
      assert AuditExplains(db, steps, id, n) && AuditExplains(db, steps, id, n + 1) ==> false;
    }
  }

  // ------------------------------------------------------------- expiry is a sum

  predicate RenewsAt(db: Db, steps: seq<Step>, n: nat, id: string)
    requires n < |steps|
  {
    AppliedAt(db, steps, n) && steps[n].req.lease == id && steps[n].req.op.Renew?
  }

  /** The minutes of the renewals of `id` that were applied, read off the answers alone. */
  function AppliedMinutes(db: Db, steps: seq<Step>, id: string): int {
    if steps == [] then 0
    else
      var n := |steps| - 1;
      AppliedMinutes(db, steps[..n], id) + if RenewsAt(db, steps, n, id) then steps[n].req.op.minutes else 0
  }

  /** Those applied since the last launch upsert. */
  function MinutesSince(db: Db, steps: seq<Step>, id: string): int {
    if steps == [] then 0
    else
      var n := |steps| - 1;
      if UpsertsAt(steps, n, id) then 0
      else MinutesSince(db, steps[..n], id) + if RenewsAt(db, steps, n, id) then steps[n].req.op.minutes else 0
  }

  /** By how much launch upserts moved the expiry of a lease that was already there. */
  function UpsertShift(db: Db, steps: seq<Step>, id: string): int {
    if steps == [] then 0
    else
      var n := |steps| - 1;
      var before := After(db, steps[..n]);
      UpsertShift(db, steps[..n], id)
      + if UpsertsAt(steps, n, id) && id in before.leases
        then steps[n].row.core.expiresAt - before.leases[id].core.expiresAt else 0
  }

  /** Over every run and for every lease: the expiry is what the last launch upsert wrote plus the
      minutes of the renewals applied since. */
  lemma {:induction false} ExpirySinceUpsert(db: Db, steps: seq<Step>, id: string)
    requires id in After(db, steps).leases
    ensures Base(db, steps, id).Some?
    ensures After(db, steps).leases[id].core.expiresAt
         == Base(db, steps, id).value.expiresAt + MinutesSince(db, steps, id) * MINUTE
  {
    if steps != [] {
      var n := |steps| - 1;
      if !UpsertsAt(steps, n, id) {
        StepKeepsPresence(After(db, steps[..n]), steps[n], id);
        ExpirySinceUpsert(db, steps[..n], id);
      }
    }
  }

  lemma ExpiryStep(db: Db, step: Step, id: string)
    requires id in db.leases
    ensures id in Next(db, step).leases
    ensures Next(db, step).leases[id].core.expiresAt
         == if step.Upsert? && step.id == id then step.row.core.expiresAt
            else db.leases[id].core.expiresAt
                 + if step.Call? && Answer(db, step.req, step.now).Applied? && step.req.lease == id && step.req.op.Renew?
                   then step.req.op.minutes * MINUTE else 0
  {
  }

  /** No renewal counts twice, and none is lost but to an upsert: over every run the expiry is the
      initial one plus the minutes of all applied renewals plus what upserts shifted, so the
      renewals add up exactly when the shifts cancel out. */
  lemma {:induction false} ExpiryIsSumOfRenewalsIff(db: Db, steps: seq<Step>, id: string)
    requires id in db.leases
    ensures id in After(db, steps).leases
    ensures After(db, steps).leases[id].core.expiresAt
         == db.leases[id].core.expiresAt + AppliedMinutes(db, steps, id) * MINUTE + UpsertShift(db, steps, id)
    ensures After(db, steps).leases[id].core.expiresAt
         == db.leases[id].core.expiresAt + AppliedMinutes(db, steps, id) * MINUTE
       <==> UpsertShift(db, steps, id) == 0
  {
    if steps != [] {
      var n := |steps| - 1;
      ExpiryIsSumOfRenewalsIff(db, steps[..n], id);
      ExpiryStep(After(db, steps[..n]), steps[n], id);
      hide Next, Answer;
    }
  }

  /** The lost renewal: while the first pod of a launch boots the lease is renewed by ten minutes;
      the launch falls back to another pod and writes its first values again. The renewal was
      applied and audited, the expiry is the old one, and a retry is answered without effect. */
  lemma RelaunchLosesRenewal() returns (db: Db, steps: seq<Step>)
    ensures var row := Lease(Creating, Core(60 * MINUTE, "manual", true));
            && db == Db(map["l" := row], map[], [])
            && |steps| == 2 && steps[0].Call? && steps[1] == Upsert("l", row)
    ensures AppliedAt(db, steps, 0) && steps[0].req.op == Renew(10, 60) && |After(db, steps).audit| == 1
    ensures "l" in After(db, steps).leases && After(db, steps).leases["l"].core.expiresAt == 60 * MINUTE
    ensures AppliedMinutes(db, steps, "l") == 10 && UpsertShift(db, steps, "l") == -10 * MINUTE
    ensures Answer(After(db, steps), steps[0].req, steps[0].now) == Replayed(After(db, steps).leases["l"])
  {
    var row := Lease(Creating, Core(60 * MINUTE, "manual", true));
    var req := Request("l", Renew(10, 60), Some("k"), "h");
    db := Db(map["l" := row], map[], []);
    steps := [Call(req, 10 * MINUTE), Upsert("l", row)];
    assert steps[..1] == [steps[0]] && steps[..1][..0] == [] && steps[..0] == [];
    assert After(db, steps[..1]) == Commit(db, req, 10 * MINUTE);
    assert AppliedMinutes(db, [], "l") == 0 && UpsertShift(db, [], "l") == 0;
    assert AppliedMinutes(db, steps[..1], "l") == 10 && UpsertShift(db, steps[..1], "l") == 0;
    assert After(db, steps) == Next(After(db, steps[..1]), steps[1]);
  }

  // ------------------------------------------------------------- one audit row a key

  /** Audit rows written under a key name the lease and operation the key is bound to, and no two
      rows carry the same key. */
  ghost predicate AuditMatchesKeys(db: Db) {
    && (forall i :: 0 <= i < |db.audit| && db.audit[i].reason.Some? ==>
          && db.audit[i].reason.value in db.keys
          && db.keys[db.audit[i].reason.value].lease == db.audit[i].lease
          && (db.keys[db.audit[i].reason.value].operation == RenewName <==> db.audit[i].change.Renewed?))
    && (forall i, j :: 0 <= i < j < |db.audit| && db.audit[i].reason.Some? ==> db.audit[i].reason != db.audit[j].reason)
  }

  lemma CommitKeepsAudit(db: Db, req: Request, now: int)
    requires AuditMatchesKeys(db)
    ensures AuditMatchesKeys(Commit(db, req, now))
  {
    if Answer(db, req, now).Applied? && req.op.Writes() && Reason(req.key).Some? {
      forall i | 0 <= i < |db.audit|
        ensures db.audit[i].reason != Reason(req.key)
      {
      }
    }
  }

  lemma {:induction false} OneAuditRowPerKey(db: Db, steps: seq<Step>)
    requires AuditMatchesKeys(db)
    ensures AuditMatchesKeys(After(db, steps))
  {
    if steps != [] {
      var n := |steps| - 1;
      OneAuditRowPerKey(db, steps[..n]);
      if steps[n].Call? {
        CommitKeepsAudit(After(db, steps[..n]), steps[n].req, steps[n].now);
      }
    }
  }
}
