/** The lease transactions statement by statement: any number of them interleaved under the row
    lock and the unique key, and proved to be the atomic calls of the lease module in the order in
    which they take effect. */
module LeaseTransactions {
  import opened Options
  import opened LeaseMutations

  datatype Phase =
    | Begun                                                   // waiting for the row lock
    | RowLocked(row: Lease)                                   // SELECT ... FOR UPDATE
    | KeyReserved(row: Lease)                                 // key inserted, or none given
    | KeySeen(row: Lease, same: bool)                         // key found and compared
    | Updated(row: Lease, updated: Lease)                     // row updated under its guard
    | Written(row: Lease, updated: Lease, audit: seq<AuditRow>) // audit row inserted, if any
    | Done(answer: Response)
    | Lost                                                    // connection gone, all rolled back

  datatype Txn = Txn(req: Request, now: int, phase: Phase)

  /** Committed data, who holds which row and which uncommitted key, and the transactions. */
  datatype World = World(db: Db, rowLocks: map<string, nat>, keyLocks: map<string, nat>, txns: map<nat, Txn>)

  datatype Move =
    | Begin(t: nat, req: Request, now: int)
    | LockRow(t: nat)
    | Reserve(t: nat)
    | Update(t: nat)
    | WriteAudit(t: nat)
    | Finish(t: nat)
    | Lose(t: nat)
    | Environment(step: Step)

  function Opened(db: Db): World {
    World(db, map[], map[], map[])
  }

  predicate HoldsRow(p: Phase) {
    p.RowLocked? || p.KeyReserved? || p.KeySeen? || p.Updated? || p.Written?
  }

  predicate HoldsKey(p: Phase) {
    p.KeyReserved? || p.Updated? || p.Written?
  }

  predicate Enabled(w: World, m: Move) {
    match m
    case Begin(t, _, _) => t !in w.txns
    case LockRow(t) =>
      t in w.txns && w.txns[t].phase.Begun?
      && (w.txns[t].req.lease in w.db.leases ==> w.txns[t].req.lease !in w.rowLocks)
    case Reserve(t) =>
      t in w.txns && w.txns[t].phase.RowLocked?
      && (w.txns[t].req.key.Some? ==> w.txns[t].req.key.value !in w.keyLocks)
    case Update(t) => t in w.txns && w.txns[t].phase.KeyReserved?
    case WriteAudit(t) => t in w.txns && w.txns[t].phase.Updated?
    case Finish(t) => t in w.txns && (w.txns[t].phase.KeySeen? || w.txns[t].phase.Written?)
    case Lose(t) => t in w.txns && !w.txns[t].phase.Done? && !w.txns[t].phase.Lost?
    case Environment(step) =>
      && !step.Call?
      && step.id !in w.rowLocks
  }

  function Become(w: World, t: nat, phase: Phase): World
    requires t in w.txns
  {
    w.(txns := w.txns[t := w.txns[t].(phase := phase)])
  }

  /** End of a transaction, committed or rolled back: its locks go. */
  function Release(w: World, t: nat, phase: Phase): World
    requires t in w.txns
  {
    var x := w.txns[t];
    Become(w, t, phase)
      .(rowLocks := if HoldsRow(x.phase) then w.rowLocks - {x.req.lease} else w.rowLocks,
        keyLocks := if HoldsKey(x.phase) && x.req.key.Some? then w.keyLocks - {x.req.key.value} else w.keyLocks)
  }

  function Take(w: World, m: Move): World
    requires Enabled(w, m)
  {
    match m
    case Begin(t, req, now) => w.(txns := w.txns[t := Txn(req, now, Begun)])
    case LockRow(t) =>
      var id := w.txns[t].req.lease;
      if id !in w.db.leases then Become(w, t, Done(NotFound))
      else Become(w, t, RowLocked(w.db.leases[id])).(rowLocks := w.rowLocks[id := t])
    case Reserve(t) =>
      var x := w.txns[t];
      var key := x.req.key;
      if key.None? then Become(w, t, KeyReserved(x.phase.row))
      else if key.value in w.db.keys then Become(w, t, KeySeen(x.phase.row, w.db.keys[key.value] == Record(x.req)))
      else Become(w, t, KeyReserved(x.phase.row)).(keyLocks := w.keyLocks[key.value := t])
    case Update(t) =>
      var x := w.txns[t];
      var row := x.phase.row;
      if !Mutable(row.state) then Release(w, t, Done(StateConflict(row.state)))
      else if !WithinHorizon(row.core, x.req.op, x.now) then Release(w, t, Done(ExpiryLimit))
      else Become(w, t, Updated(row, row.(core := Changed(row.core, x.req.op))))
    case WriteAudit(t) =>
      var x := w.txns[t];
      var rows := if x.req.op.Writes()
                  then [AuditRow(x.req.lease, AuditChange(x.phase.row.core, x.req.op), Reason(x.req.key))] else [];
      Become(w, t, Written(x.phase.row, x.phase.updated, rows))
    case Finish(t) =>
      var x := w.txns[t];
      if x.phase.KeySeen? then Release(w, t, Done(if x.phase.same then Replayed(x.phase.row) else KeyConflict))
      else
        Release(w, t, Done(Applied(x.phase.updated)))
          .(db := Db(w.db.leases[x.req.lease := x.phase.updated],
                     if x.req.key.Some? then w.db.keys[x.req.key.value := Record(x.req)] else w.db.keys,
                     w.db.audit + x.phase.audit))
    case Lose(t) => Release(w, t, Lost)
    case Environment(step) => w.(db := Next(w.db, step))
  }

  /** The atomic step a move stands for: the statement that settles a transaction's answer, or the
      environment's own step. */
  function Effect(w: World, m: Move): Option<Step>
    requires Enabled(w, m)
  {
    match m
    case Environment(step) => Some(step)
    case LockRow(t) => if Take(w, m).txns[t].phase.Done? then Some(Call(w.txns[t].req, w.txns[t].now)) else None
    case Update(t) => if Take(w, m).txns[t].phase.Done? then Some(Call(w.txns[t].req, w.txns[t].now)) else None
    case Finish(t) => Some(Call(w.txns[t].req, w.txns[t].now))
    case _ => None
  }

  // ------------------------------------------------------------- one move

  /** What a transaction in progress knows, and what its locks keep true of the committed data. */
  ghost predicate TxnInv(w: World, t: nat)
    requires t in w.txns
  {
    var x := w.txns[t];
    var p, id, key := x.phase, x.req.lease, x.req.key;
    && (HoldsRow(p) ==>
          id in w.rowLocks && w.rowLocks[id] == t && id in w.db.leases && w.db.leases[id] == p.row)
    && (HoldsKey(p) && key.Some? ==>
          key.value in w.keyLocks && w.keyLocks[key.value] == t && key.value !in w.db.keys)
    && (p.KeySeen? ==>
          key.Some? && key.value in w.db.keys && p.same == (w.db.keys[key.value] == Record(x.req)))
    && (p.Updated? || p.Written? ==>
          Mutable(p.row.state) && WithinHorizon(p.row.core, x.req.op, x.now)
          && p.updated == p.row.(core := Changed(p.row.core, x.req.op)))
    && (p.Written? ==>
          p.audit == if x.req.op.Writes() then [AuditRow(id, AuditChange(p.row.core, x.req.op), Reason(key))] else [])
  }

  ghost predicate WorldInv(w: World) {
    forall t :: t in w.txns ==> TxnInv(w, t)
  }

  /** What a move of another transaction may do to the locks and the committed data. */
  ghost predicate Apart(w: World, w': World, x: Txn) {
    && (HoldsRow(x.phase) ==>
          (x.req.lease in w.rowLocks ==> x.req.lease in w'.rowLocks && w'.rowLocks[x.req.lease] == w.rowLocks[x.req.lease])
          && (x.req.lease in w.db.leases ==>
                x.req.lease in w'.db.leases && w'.db.leases[x.req.lease] == w.db.leases[x.req.lease]))
    && (x.req.key.Some? ==>
          && (HoldsKey(x.phase) && x.req.key.value in w.keyLocks ==>
                x.req.key.value in w'.keyLocks && w'.keyLocks[x.req.key.value] == w.keyLocks[x.req.key.value])
          && (HoldsKey(x.phase) && x.req.key.value !in w.db.keys ==> x.req.key.value !in w'.db.keys)
          && (x.req.key.value in w.db.keys ==>
                x.req.key.value in w'.db.keys && w'.db.keys[x.req.key.value] == w.db.keys[x.req.key.value]))
  }

  lemma ApartKeeps(w: World, w': World, u: nat)
    requires u in w.txns && u in w'.txns && w'.txns[u] == w.txns[u]
    requires TxnInv(w, u) && Apart(w, w', w.txns[u])
    ensures TxnInv(w', u)
  {
  }

  lemma MoveApart(w: World, m: Move, u: nat)
    requires Enabled(w, m) && u in w.txns && TxnInv(w, u) && !m.Environment? && m.t != u
    requires m.t in w.txns ==> TxnInv(w, m.t)
    ensures u in Take(w, m).txns && Take(w, m).txns[u] == w.txns[u] && Apart(w, Take(w, m), w.txns[u])
  {
    if m.Finish? || m.Lose? || m.Update? {
      EndApart(w, m, u);
    }
  }

  lemma EndApart(w: World, m: Move, u: nat)
    requires Enabled(w, m) && (m.Finish? || m.Lose? || m.Update?)
    requires u in w.txns && TxnInv(w, u) && m.t != u && m.t in w.txns && TxnInv(w, m.t)
    ensures u in Take(w, m).txns && Take(w, m).txns[u] == w.txns[u] && Apart(w, Take(w, m), w.txns[u])
  {
    hide Changed, AuditChange, WithinHorizon, Mutable, Record, Reason;
  }

  lemma EnvironmentApart(w: World, m: Move, u: nat)
    requires Enabled(w, m) && u in w.txns && TxnInv(w, u) && m.Environment?
    ensures u in Take(w, m).txns && Take(w, m).txns[u] == w.txns[u] && Apart(w, Take(w, m), w.txns[u])
  {
  }

  /** Another transaction notices nothing: the rows and keys it relies on are its own. */
  lemma OthersKeep(w: World, m: Move, u: nat)
    requires WorldInv(w) && Enabled(w, m) && u in w.txns
    requires m.Environment? || m.t != u
    ensures u in Take(w, m).txns && Take(w, m).txns[u] == w.txns[u] && TxnInv(Take(w, m), u)
  {
    hide Take, Enabled, TxnInv, Apart;
    if m.Environment? {
      EnvironmentApart(w, m, u);
    } else {
      MoveApart(w, m, u);
    }
    ApartKeeps(w, Take(w, m), u);
  }

  lemma OwnKeeps(w: World, m: Move)
    requires WorldInv(w) && Enabled(w, m) && !m.Environment?
    ensures m.t in Take(w, m).txns && TxnInv(Take(w, m), m.t)
  {
    hide Changed, AuditChange, Reason;
    if m.t in w.txns {
      assert TxnInv(w, m.t);
    }
  }

  lemma MoveKeeps(w: World, m: Move)
    requires WorldInv(w) && Enabled(w, m)
    ensures WorldInv(Take(w, m))
  {
    hide Enabled, TxnInv, Take;
    MoveTxns(w, m);
    forall u | u in Take(w, m).txns ensures TxnInv(Take(w, m), u) {
      if m.Environment? || u != m.t {
        OthersKeep(w, m, u);
      } else {
        OwnKeeps(w, m);
      }
    }
  }

  lemma MoveTxns(w: World, m: Move)
    requires Enabled(w, m)
    ensures forall u :: u in Take(w, m).txns ==> u in w.txns || (!m.Environment? && u == m.t)
  {
  }

  /** Each move changes the committed data as its atomic step does, or not at all, and the answer it
      settles is the answer of the atomic call at that moment. */
  lemma MoveRefines(w: World, m: Move)
    requires WorldInv(w) && Enabled(w, m)
    ensures var step := Effect(w, m);
            && Take(w, m).db == (if step.Some? then Next(w.db, step.value) else w.db)
            && (step.Some? && step.value.Call? ==>
                  !m.Environment? && m.t in w.txns && m.t in Take(w, m).txns
                  && Take(w, m).txns[m.t].phase == Done(Answer(w.db, step.value.req, step.value.now)))
  {
    if !m.Environment? && m.t in w.txns {
      assert TxnInv(w, m.t);
    }
  }

  // ------------------------------------------------------------- every run

  ghost predicate ValidMoves(w: World, moves: seq<Move>)
    decreases |moves|, 0
  {
    moves == []
    || (ValidMoves(w, moves[..|moves| - 1]) && Enabled(Run(w, moves[..|moves| - 1]), moves[|moves| - 1]))
  }

  ghost function Run(w: World, moves: seq<Move>): World
    requires ValidMoves(w, moves)
    decreases |moves|, 1
  {
    if moves == [] then w else Take(Run(w, moves[..|moves| - 1]), moves[|moves| - 1])
  }

  /** The atomic steps of a run, in the order in which they take effect. */
  ghost function Effects(w: World, moves: seq<Move>): seq<Step>
    requires ValidMoves(w, moves)
  {
    if moves == [] then []
    else
      var n := |moves| - 1;
      var step := Effect(Run(w, moves[..n]), moves[n]);
      Effects(w, moves[..n]) + if step.Some? then [step.value] else []
  }

  /** Where in the order of effects a finished transaction has its place. */
  ghost predicate AnsweredAt(db: Db, steps: seq<Step>, x: Txn, i: nat) {
    i < |steps| && steps[i] == Call(x.req, x.now) && x.phase == Done(AnswerAt(db, steps, i))
  }

  lemma AnsweredStays(db: Db, steps: seq<Step>, more: seq<Step>, x: Txn, i: nat)
    requires AnsweredAt(db, steps, x, i)
    ensures AnsweredAt(db, steps + more, x, i)
  {
    assert (steps + more)[..i] == steps[..i];
  }

  ghost predicate AllAnswered(db: Db, steps: seq<Step>, txns: map<nat, Txn>) {
    forall t :: t in txns && txns[t].phase.Done? ==> exists i :: AnsweredAt(db, steps, txns[t], i)
  }

  lemma AnsweredStep(db: Db, before: seq<Step>, w: World, m: Move)
    requires WorldInv(w) && Enabled(w, m) && w.db == After(db, before) && AllAnswered(db, before, w.txns)
    ensures var step := Effect(w, m);
            AllAnswered(db, before + (if step.Some? then [step.value] else []), Take(w, m).txns)
  {
    var step := Effect(w, m);
    var more := if step.Some? then [step.value] else [];
    var w' := Take(w, m);
    MoveRefines(w, m);
    MoveTxns(w, m);
    forall t | t in w'.txns && w'.txns[t].phase.Done?
      ensures exists i :: AnsweredAt(db, before + more, w'.txns[t], i)
    {
      if m.Environment? || t != m.t {
        OthersKeep(w, m, t);
        var i :| AnsweredAt(db, before, w.txns[t], i);
        AnsweredStays(db, before, more, w.txns[t], i);
      } else {
        NewlyDone(w, m);
        assert (before + more)[..|before|] == before;
        assert AnsweredAt(db, before + more, w'.txns[t], |before|);
      }
    }
  }

  /** A transaction is done by the move that settles its answer. */
  lemma NewlyDone(w: World, m: Move)
    requires Enabled(w, m) && !m.Environment? && m.t in Take(w, m).txns && Take(w, m).txns[m.t].phase.Done?
    ensures m.t in w.txns && Effect(w, m) == Some(Call(w.txns[m.t].req, w.txns[m.t].now))
    ensures Take(w, m).txns[m.t].req == w.txns[m.t].req && Take(w, m).txns[m.t].now == w.txns[m.t].now
  {
  }

  /** Serializability: every interleaving of the statements leaves the committed data of the atomic
      calls performed one after another in the order of their effects, and every finished
      transaction got the answer of its place in that order. */
  lemma {:induction false} RunsAreSerial(db: Db, moves: seq<Move>)
    requires ValidMoves(Opened(db), moves)
    ensures var w, steps := Run(Opened(db), moves), Effects(Opened(db), moves);
            WorldInv(w) && w.db == After(db, steps) && AllAnswered(db, steps, w.txns)
  {
    hide Enabled, Take, Effect, WorldInv, Next, AllAnswered;
    if moves == [] {
      OpenedFresh(db);
    } else {
      var n := |moves| - 1;
      var w := Run(Opened(db), moves[..n]);
      var before := Effects(Opened(db), moves[..n]);
      RunsAreSerial(db, moves[..n]);
      MoveKeeps(w, moves[n]);
      MoveRefines(w, moves[n]);
      AnsweredStep(db, before, w, moves[n]);
      var step := Effect(w, moves[n]);
      if step.Some? {
        assert (before + [step.value])[..|before|] == before;
      } else {
        assert before + [] == before;
      }
    }
  }

  lemma OpenedFresh(db: Db)
    ensures WorldInv(Opened(db)) && AllAnswered(db, [], Opened(db).txns)
  {
  }

  /** Hence what is proved of atomic runs holds of every interleaving: here, that the expiry is the
      initial one plus the minutes of the renewals that were answered as applied plus what launch
      upserts shifted. */
  lemma InterleavedExpiryAddsUp(db: Db, moves: seq<Move>, id: string)
    requires ValidMoves(Opened(db), moves) && id in db.leases
    ensures var w, steps := Run(Opened(db), moves), Effects(Opened(db), moves);
            id in w.db.leases
            && w.db.leases[id].core.expiresAt
               == db.leases[id].core.expiresAt + AppliedMinutes(db, steps, id) * MINUTE + UpsertShift(db, steps, id)
  {
    RunsAreSerial(db, moves);
    ExpiryIsSumOfRenewalsIff(db, Effects(Opened(db), moves), id);
  }
}
