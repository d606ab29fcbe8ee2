/** Idempotency over every interleaving: one row and one provider call per key. */
module AdmissionIdentity {
  import opened Money
  import opened Options
  import opened Workloads
  import opened Admission
  import opened AdmissionSafety

  /** `after` keeps every row of `before` in place and may only append. */
  ghost predicate Extends(before: seq<Row>, after: seq<Row>) {
    |before| <= |after| && forall i :: 0 <= i < |before| ==> SameIdentity(before[i], after[i])
  }

  /** A workload with this id and key was recorded; it may have been deleted since. */
  ghost predicate Recorded(rows: seq<Row>, id: string, key: Option<string>) {
    exists i :: 0 <= i < |rows| && rows[i].id == id && rows[i].key == key
  }

  ghost predicate Owns(rows: seq<Row>, id: string, key: Option<string>, c: nat) {
    exists i :: 0 <= i < |rows| && rows[i].id == id && rows[i].key == key && rows[i].admittedBy == Some(c)
  }

  ghost predicate RowsDistinct(rows: seq<Row>) {
    forall i, j :: 0 <= i < j < |rows| ==>
      rows[i].id != rows[j].id && (rows[i].key.Some? && rows[i].key == rows[j].key ==> rows[i].purged)
  }

  ghost predicate ClientIdentity(rows: seq<Row>, c: nat, cl: Client) {
    && (cl.phase.Inserted? ==>
          cl.phase.row == NewRow(c, cl.req, cl.phase.row.id) && !Conflict(rows, cl.phase.row.id, cl.phase.row.key))
    && (cl.phase.Replaying? ==> cl.req.key.Some? && Recorded(rows, cl.phase.found, cl.req.key))
    && (cl.outcome.Admitted? && cl.outcome.isNew ==> Owns(rows, cl.outcome.id, cl.req.key, c))
    && (cl.outcome.Admitted? && !cl.outcome.isNew ==>
          cl.req.key.Some? && Recorded(rows, cl.outcome.id, cl.req.key))
    && (cl.phase.Dispatching? ==> cl.outcome == Admitted(cl.phase.id, true))
    && (cl.phase.AtProvider? ==> cl.outcome == Admitted(cl.phase.id, true))
  }

  /** A row that names its admitting call belongs to a call with its key that returned it as new. */
  ghost predicate RowsOwned(s: Ledger) {
    forall i :: 0 <= i < |s.rows| && s.rows[i].admittedBy.Some? ==>
      var c := s.rows[i].admittedBy.value;
      c in s.clients && s.clients[c].outcome == Admitted(s.rows[i].id, true) && s.clients[c].req.key == s.rows[i].key
  }

  /** Every provider call belongs to a new admission, and no client calls twice. */
  ghost predicate CallsOwned(s: Ledger) {
    && (forall k :: 0 <= k < |s.calls| ==>
          var c := s.calls[k].client;
          && c in s.clients && s.clients[c].outcome == Admitted(s.calls[k].id, true)
          && (s.clients[c].phase.AtProvider? || s.clients[c].phase.Finished?))
    && (forall k, l :: 0 <= k < l < |s.calls| ==> s.calls[k].client != s.calls[l].client)
  }

  ghost predicate IdentityInv(s: Ledger) {
    && RowsDistinct(s.rows)
    && RowsOwned(s)
    && CallsOwned(s)
    && forall c :: c in s.clients ==> ClientIdentity(s.rows, c, s.clients[c])
  }

  // ------------------------------------------------------------- preservation

  lemma RecordedExtends(before: seq<Row>, after: seq<Row>, id: string, key: Option<string>)
    requires Extends(before, after)
    ensures Recorded(before, id, key) ==> Recorded(after, id, key)
    ensures forall c: nat :: Owns(before, id, key, c) ==> Owns(after, id, key, c)
  {
    if Recorded(before, id, key) {
      var i :| 0 <= i < |before| && before[i].id == id && before[i].key == key;
      assert SameIdentity(before[i], after[i]);
    }
    forall c: nat | Owns(before, id, key, c) ensures Owns(after, id, key, c) {
      var i :| 0 <= i < |before| && before[i].id == id && before[i].key == key && before[i].admittedBy == Some(c);
      assert SameIdentity(before[i], after[i]);
    }
  }

  lemma NoConflictExtends(before: seq<Row>, after: seq<Row>, id: string, key: Option<string>)
    requires Extends(before, after) && !Conflict(before, id, key)
    requires forall i :: |before| <= i < |after| ==> !Clashes(after[i], id, key)
    ensures !Conflict(after, id, key)
  {
    if Conflict(after, id, key) {
      var r :| r in after && Clashes(r, id, key);
      var i :| 0 <= i < |after| && after[i] == r;
      if i < |before| {
        assert SameIdentity(before[i], after[i]);
        assert Clashes(before[i], id, key);
      }
    }
  }

  /** A client untouched by a step keeps its identity facts, as long as an appended row does not
      take the id or key of its own uncommitted row. */
  lemma ClientIdentityExtends(before: seq<Row>, after: seq<Row>, c: nat, cl: Client)
    requires Extends(before, after) && ClientIdentity(before, c, cl)
    requires cl.phase.Inserted? ==>
      forall i :: |before| <= i < |after| ==> !Clashes(after[i], cl.phase.row.id, cl.phase.row.key)
    ensures ClientIdentity(after, c, cl)
  {
    if cl.outcome.Admitted? {
      RecordedExtends(before, after, cl.outcome.id, cl.req.key);
    }
    if cl.phase.Replaying? {
      RecordedExtends(before, after, cl.phase.found, cl.req.key);
    }
    if cl.phase.Inserted? {
      NoConflictExtends(before, after, cl.phase.row.id, cl.phase.row.key);
    }
  }

  lemma RowsDistinctRewrite(before: seq<Row>, after: seq<Row>)
    requires RowsDistinct(before) && Extends(before, after) && |before| == |after|
    ensures RowsDistinct(after)
  {
    forall i, j | 0 <= i < j < |after|
      ensures after[i].id != after[j].id && (after[i].key.Some? && after[i].key == after[j].key ==> after[i].purged)
    {
      assert SameIdentity(before[i], after[i]) && SameIdentity(before[j], after[j]);
    }
  }

  lemma RowsDistinctAppend(rows: seq<Row>, r: Row)
    requires RowsDistinct(rows) && !Conflict(rows, r.id, r.key)
    ensures RowsDistinct(rows + [r])
  {
    forall i | 0 <= i < |rows| ensures rows[i].id != r.id && (r.key.Some? && rows[i].key == r.key ==> rows[i].purged) {
      assert rows[i] in rows && !Clashes(rows[i], r.id, r.key);
    }
  }

  lemma ClientStepExtends(cfg: Config, s: Ledger, st: Step, c: nat)
    requires Enabled(cfg, s, st) && Actor(st) == Some(c)
    ensures Extends(s.rows, Apply(cfg, s, st).rows)
    ensures !(st.Commit? && s.clients[c].phase.Inserted?) ==> |Apply(cfg, s, st).rows| == |s.rows|
  {
    if st.Commit? && s.clients[c].phase.Inserted? {
    } else {
      ClientStepRelief(cfg, s, st, c);
      hide Apply, Enabled;
    }
  }

  lemma FoundIsCarried(rows: seq<Row>, key: string)
    ensures FindKey(rows, key).Some? ==> Recorded(rows, FindKey(rows, key).value.id, Some(key))
  {
    if FindKey(rows, key).Some? {
      var r := FindKey(rows, key).value;
      var i :| 0 <= i < |rows| && rows[i] == r;
    }
  }

  /** The acting client keeps its own identity facts. */
  lemma ActorIdentity(cfg: Config, s: Ledger, st: Step, c: nat)
    requires LockInv(s) && IdentityInv(s) && Enabled(cfg, s, st) && Actor(st) == Some(c)
    ensures ClientIdentity(Apply(cfg, s, st).rows, c, Apply(cfg, s, st).clients[c])
  {
    hide Spend, RoundHalfUp, SetState, Refund, Raise, Cost, RowsDistinct, RowsOwned, CallsOwned;
    var s' := Apply(cfg, s, st);
    ClientStepExtends(cfg, s, st, c);
    if st.Lookup? {
      if s.clients[c].req.key.Some? {
        FoundIsCarried(s.rows, s.clients[c].req.key.value);
      }
    } else if st.Commit? {
      CommitIdentity(cfg, s, c);
    } else if c in s.clients && s.clients[c].outcome.Admitted? {
      RecordedExtends(s.rows, s'.rows, s.clients[c].outcome.id, s.clients[c].req.key);
    }
  }

  lemma CommitIdentity(cfg: Config, s: Ledger, c: nat)
    requires LockInv(s) && IdentityInv(s) && Enabled(cfg, s, Commit(c))
    ensures ClientIdentity(Apply(cfg, s, Commit(c)).rows, c, Apply(cfg, s, Commit(c)).clients[c])
  {
    hide Spend, Cost, RowsDistinct, RowsOwned, CallsOwned, Conflict;
    var s' := Apply(cfg, s, Commit(c));
    assert ClientIdentity(s.rows, c, s.clients[c]);
    if s.clients[c].phase.Inserted? {
      assert s'.rows[|s.rows|] == s.clients[c].phase.row;
      NewRowNames(c, s.clients[c].req, s.clients[c].phase.row.id);
    }
  }

  lemma NewRowNames(c: nat, req: Request, id: string)
    ensures NewRow(c, req, id).id == id && NewRow(c, req, id).key == req.key && NewRow(c, req, id).admittedBy == Some(c)
  {
  }

  /** A client's outcome, once known, never changes. */
  lemma OutcomeStable(cfg: Config, s: Ledger, st: Step, c: nat)
    requires LockInv(s) && Enabled(cfg, s, st) && c in s.clients && !s.clients[c].outcome.Pending?
    ensures c in Apply(cfg, s, st).clients
    ensures Apply(cfg, s, st).clients[c].outcome == s.clients[c].outcome
    ensures Apply(cfg, s, st).clients[c].req == s.clients[c].req
    ensures s.clients[c].phase.Finished? ==> Apply(cfg, s, st).clients[c].phase.Finished?
    ensures s.clients[c].phase.AtProvider? ==>
      Apply(cfg, s, st).clients[c].phase == s.clients[c].phase || Apply(cfg, s, st).clients[c].phase.Finished?
  {
  }

  lemma RowsOwnedStep(cfg: Config, s: Ledger, st: Step)
    requires LockInv(s) && IdentityInv(s) && Enabled(cfg, s, st)
    ensures RowsOwned(Apply(cfg, s, st))
  {
    var s' := Apply(cfg, s, st);
    if Actor(st).Some? {
      ClientStepExtends(cfg, s, st, Actor(st).value);
    }
    forall i | 0 <= i < |s'.rows| && s'.rows[i].admittedBy.Some?
      ensures var c := s'.rows[i].admittedBy.value;
              c in s'.clients && s'.clients[c].outcome == Admitted(s'.rows[i].id, true) && s'.clients[c].req.key == s'.rows[i].key
    {
      if i < |s.rows| {
        assert SameIdentity(s.rows[i], s'.rows[i]);
        OutcomeStable(cfg, s, st, s.rows[i].admittedBy.value);
      }
    }
  }

  lemma CallsOwnedStep(cfg: Config, s: Ledger, st: Step)
    requires LockInv(s) && IdentityInv(s) && Enabled(cfg, s, st)
    ensures CallsOwned(Apply(cfg, s, st))
  {
    hide Spend, RoundHalfUp, SetState, Refund, Raise, Cost, FindKey, Conflict, RowsDistinct, RowsOwned;
    var s' := Apply(cfg, s, st);
    assert s'.calls == s.calls || (st.CallProvider? && s'.calls == s.calls + [Call(st.c, s.clients[st.c].phase.id)]);
    forall k | 0 <= k < |s.calls|
      ensures var c := s.calls[k].client;
              && c in s'.clients && s'.clients[c].outcome == Admitted(s.calls[k].id, true)
              && (s'.clients[c].phase.AtProvider? || s'.clients[c].phase.Finished?)
    {
      OutcomeStable(cfg, s, st, s.calls[k].client);
    }
  }

  lemma ClientIdentityStep(cfg: Config, s: Ledger, st: Step, d: nat)
    requires LockInv(s) && IdentityInv(s) && Enabled(cfg, s, st) && d in Apply(cfg, s, st).clients
    ensures ClientIdentity(Apply(cfg, s, st).rows, d, Apply(cfg, s, st).clients[d])
  {
    var s' := Apply(cfg, s, st);
    if Actor(st) == Some(d) {
      ActorIdentity(cfg, s, st, d);
    } else if Actor(st).Some? {
      var c := Actor(st).value;
      ClientStepFrame(cfg, s, st, c);
      ClientStepExtends(cfg, s, st, c);
      if st.Commit? && s.clients[c].phase.Inserted? {
        assert !Critical(s.clients[d].phase);
      }
      ClientIdentityExtends(s.rows, s'.rows, d, s.clients[d]);
    } else {
      ClientIdentityExtends(s.rows, s'.rows, d, s.clients[d]);
    }
  }

  lemma RowsDistinctStep(cfg: Config, s: Ledger, st: Step)
    requires IdentityInv(s) && Enabled(cfg, s, st)
    ensures RowsDistinct(Apply(cfg, s, st).rows)
  {
    var s' := Apply(cfg, s, st);
    if st.Commit? && s.clients[st.c].phase.Inserted? {
      RowsDistinctAppend(s.rows, s.clients[st.c].phase.row);
    } else if st.InsertUngated? {
      RowsDistinctAppend(s.rows, UngatedRow(st.id, st.key, st.submittedAt));
    } else {
      if Actor(st).Some? {
        ClientStepExtends(cfg, s, st, Actor(st).value);
      }
      RowsDistinctRewrite(s.rows, s'.rows);
    }
  }

  lemma IdentityInvStep(cfg: Config, s: Ledger, st: Step)
    requires LockInv(s) && IdentityInv(s) && Enabled(cfg, s, st)
    ensures IdentityInv(Apply(cfg, s, st))
  {
    RowsDistinctStep(cfg, s, st);
    RowsOwnedStep(cfg, s, st);
    CallsOwnedStep(cfg, s, st);
    forall d | d in Apply(cfg, s, st).clients
      ensures ClientIdentity(Apply(cfg, s, st).rows, d, Apply(cfg, s, st).clients[d])
    {
      ClientIdentityStep(cfg, s, st, d);
    }
  }

  lemma {:induction false} RunKeepsIdentity(cfg: Config, s: Ledger, steps: seq<Step>)
    requires LockInv(s) && IdentityInv(s) && ValidRun(cfg, s, steps)
    ensures LockInv(Exec(cfg, s, steps)) && IdentityInv(Exec(cfg, s, steps))
    decreases |steps|
  {
    if steps != [] {
      LockInvStep(cfg, s, steps[0]);
      IdentityInvStep(cfg, s, steps[0]);
      RunKeepsIdentity(cfg, Apply(cfg, s, steps[0]), steps[1..]);
    }
  }

  // ---------------------------------------------------------------- theorems

  lemma SameRow(rows: seq<Row>, i: nat, j: nat)
    requires RowsDistinct(rows) && i < |rows| && j < |rows|
    ensures i != j ==> rows[i].id != rows[j].id
    ensures i != j && rows[i].key.Some? && rows[i].key == rows[j].key ==> rows[i].purged || rows[j].purged
  {
  }

  /** No two rows ever share an id, and of the rows that are still there no two share a key. */
  lemma OneRowPerKey(cfg: Config, month: int, steps: seq<Step>, i: nat, j: nat)
    requires ValidRun(cfg, Init(month), steps)
    requires var rows := Exec(cfg, Init(month), steps).rows; i < |rows| && j < |rows| && i != j
    ensures var rows := Exec(cfg, Init(month), steps).rows;
            && rows[i].id != rows[j].id
            && (!rows[i].purged && !rows[j].purged && rows[i].key.Some? ==> rows[i].key != rows[j].key)
  {
    RunKeepsIdentity(cfg, Init(month), steps);
    SameRow(Exec(cfg, Init(month), steps).rows, i, j);
  }

  /** The row of a workload was deleted. */
  ghost predicate Purged(rows: seq<Row>, id: string) {
    exists i :: 0 <= i < |rows| && rows[i].id == id && rows[i].purged
  }

  lemma RecordersAgree(rows: seq<Row>, a: string, b: string, key: Option<string>)
    requires RowsDistinct(rows) && key.Some? && Recorded(rows, a, key) && Recorded(rows, b, key)
    ensures a == b || Purged(rows, a) || Purged(rows, b)
  {
    var i :| 0 <= i < |rows| && rows[i].id == a && rows[i].key == key;
    var j :| 0 <= j < |rows| && rows[j].id == b && rows[j].key == key;
    SameRow(rows, i, j);
  }

  /** Two successful calls with one key return one id unless the workload of one of them was
      deleted, and no workload is new to two calls. */
  lemma SameKeySameWorkload(cfg: Config, month: int, steps: seq<Step>, c: nat, d: nat)
    requires ValidRun(cfg, Init(month), steps)
    requires var s := Exec(cfg, Init(month), steps);
             && c in s.clients && d in s.clients && c != d
             && s.clients[c].outcome.Admitted? && s.clients[d].outcome.Admitted?
             && s.clients[c].req.key.Some? && s.clients[c].req.key == s.clients[d].req.key
    ensures var s := Exec(cfg, Init(month), steps);
            var a, b := s.clients[c].outcome, s.clients[d].outcome;
            && (a.id == b.id ==> !(a.isNew && b.isNew))
            && (a.id != b.id ==> Purged(s.rows, a.id) || Purged(s.rows, b.id))
  {
    RunKeepsIdentity(cfg, Init(month), steps);
    var s := Exec(cfg, Init(month), steps);
    var a, b := s.clients[c], s.clients[d];
    assert ClientIdentity(s.rows, c, a) && ClientIdentity(s.rows, d, b);
    OwnedIsRecorded(s.rows, a.outcome.id, a.req.key, c);
    OwnedIsRecorded(s.rows, b.outcome.id, b.req.key, d);
    RecordersAgree(s.rows, a.outcome.id, b.outcome.id, a.req.key);
    OwnersAgree(s.rows, a.outcome.id, a.req.key, c, d);
  }

  lemma OwnersAgree(rows: seq<Row>, id: string, key: Option<string>, c: nat, d: nat)
    requires RowsDistinct(rows)
    ensures Owns(rows, id, key, c) && Owns(rows, id, key, d) ==> c == d
  {
  }

  lemma OwnedIsRecorded(rows: seq<Row>, id: string, key: Option<string>, c: nat)
    ensures Owns(rows, id, key, c) ==> Recorded(rows, id, key)
  {
  }

  /** A recorded workload with the key is the one the lookup finds exactly while it is there. */
  lemma FindsUnlessPurged(rows: seq<Row>, id: string, key: Option<string>)
    requires RowsDistinct(rows) && key.Some? && Recorded(rows, id, key)
    ensures FindKey(rows, key.value).Some? && FindKey(rows, key.value).value.id == id <==> !Purged(rows, id)
  {
    var i :| 0 <= i < |rows| && rows[i].id == id && rows[i].key == key;
    var found := FindKey(rows, key.value);
    if found.Some? {
      var j :| 0 <= j < |rows| && rows[j] == found.value;
      SameRow(rows, i, j);
    }
    if Purged(rows, id) {
      var p :| 0 <= p < |rows| && rows[p].id == id && rows[p].purged;
      SameRow(rows, i, p);
    } else {
      assert rows[i] in rows && Carries(rows[i], key);
    }
  }

  /** The exact condition, where it is decided: a call that looks its key up after another call
      with that key succeeded is going to return the same id if and only if the workload of that
      call has not been deleted. */
  lemma LookupReplaysIff(cfg: Config, month: int, steps: seq<Step>, c: nat, d: nat)
    requires ValidRun(cfg, Init(month), steps)
    requires var s := Exec(cfg, Init(month), steps);
             && c in s.clients && s.clients[c].outcome.Admitted? && s.clients[c].req.key.Some?
             && Enabled(cfg, s, Lookup(d)) && s.clients[d].req.key == s.clients[c].req.key
    ensures var s := Exec(cfg, Init(month), steps);
            Apply(cfg, s, Lookup(d)).clients[d].phase == Replaying(s.clients[c].outcome.id)
            <==> !Purged(s.rows, s.clients[c].outcome.id)
  {
    RunKeepsIdentity(cfg, Init(month), steps);
    var s := Exec(cfg, Init(month), steps);
    var id, key := s.clients[c].outcome.id, s.clients[c].req.key;
    assert ClientIdentity(s.rows, c, s.clients[c]);
    OwnedIsRecorded(s.rows, id, key, c);
    hide FindKey, ValidRun, Exec, LockInv;
    FindsUnlessPurged(s.rows, id, key);
  }

  /** The row of a workload was inserted by the gate. */
  ghost predicate Gated(rows: seq<Row>, id: string) {
    exists i :: 0 <= i < |rows| && rows[i].id == id && rows[i].admittedBy.Some?
  }

  /** Whenever a keyed call succeeded, some call with that key returned that id as new if and only
      if the gate inserted the row; the other writer of keyed rows passes no gate and no call. */
  lemma SomeCallIsNewIff(cfg: Config, month: int, steps: seq<Step>, c: nat)
    requires ValidRun(cfg, Init(month), steps)
    requires var s := Exec(cfg, Init(month), steps);
             c in s.clients && s.clients[c].outcome.Admitted? && s.clients[c].req.key.Some?
    ensures var s := Exec(cfg, Init(month), steps);
            (exists d :: d in s.clients && s.clients[d].req.key == s.clients[c].req.key
                         && s.clients[d].outcome == Admitted(s.clients[c].outcome.id, true))
            <==> Gated(s.rows, s.clients[c].outcome.id)
  {
    RunKeepsIdentity(cfg, Init(month), steps);
    hide Exec, ValidRun, LockInv, IdentityInv;
    NewIffGated(Exec(cfg, Init(month), steps), c);
  }

  lemma NewIffGated(s: Ledger, c: nat)
    requires IdentityInv(s) && c in s.clients && s.clients[c].outcome.Admitted? && s.clients[c].req.key.Some?
    ensures (exists d :: d in s.clients && s.clients[d].req.key == s.clients[c].req.key
                         && s.clients[d].outcome == Admitted(s.clients[c].outcome.id, true))
            <==> Gated(s.rows, s.clients[c].outcome.id)
  {
    hide CallsOwned, Conflict, NewRow;
    var cl := s.clients[c];
    var id := cl.outcome.id;
    if Gated(s.rows, id) {
      var i :| 0 <= i < |s.rows| && s.rows[i].id == id && s.rows[i].admittedBy.Some?;
      assert ClientIdentity(s.rows, c, cl);
      OwnedIsRecorded(s.rows, id, cl.req.key, c);
      var j :| 0 <= j < |s.rows| && s.rows[j].id == id && s.rows[j].key == cl.req.key;
      SameRow(s.rows, i, j);
      assert s.clients[s.rows[i].admittedBy.value].outcome == Admitted(id, true);
    }
    if d :| d in s.clients && s.clients[d].req.key == cl.req.key && s.clients[d].outcome == Admitted(id, true) {
      assert ClientIdentity(s.rows, d, s.clients[d]);
      var i :| 0 <= i < |s.rows| && s.rows[i].id == id && s.rows[i].admittedBy == Some(d);
    }
  }

  /** Rejected, aborted and still pending calls, and replays, own no row. */
  lemma OnlyNewCallsOwnRows(cfg: Config, month: int, steps: seq<Step>, c: nat)
    requires ValidRun(cfg, Init(month), steps)
    requires var s := Exec(cfg, Init(month), steps);
             c !in s.clients || !IsNewAdmission(s.clients[c].outcome)
    ensures forall r :: r in Exec(cfg, Init(month), steps).rows ==> r.admittedBy != Some(c)
  {
    RunKeepsIdentity(cfg, Init(month), steps);
  }

  /** A client's statement changes the table only if the client ends up with a new admission;
      the statements of a replayed or rejected call leave every row as it was. */
  lemma ReplaysLeaveRowsAlone(cfg: Config, s: Ledger, st: Step, c: nat)
    requires LockInv(s) && IdentityInv(s) && Enabled(cfg, s, st) && Actor(st) == Some(c)
    ensures !IsNewAdmission(Apply(cfg, s, st).clients[c].outcome) ==> Apply(cfg, s, st).rows == s.rows
    ensures |Apply(cfg, s, st).rows| > |s.rows| ==>
      Apply(cfg, s, st).rows == s.rows + [s.clients[c].phase.row] && IsNewAdmission(Apply(cfg, s, st).clients[c].outcome)
  {
    if c in s.clients {
      assert ClientIdentity(s.rows, c, s.clients[c]);
    }
    var s' := Apply(cfg, s, st);
    if !IsNewAdmission(s'.clients[c].outcome) {
      assert s'.rows == s.rows;
    }
  }

  /** What two provider calls have in common: nothing but a key whose workload was deleted. */
  ghost predicate CallsApart(s: Ledger, a: Call, b: Call) {
    && a.client in s.clients && b.client in s.clients && a.client != b.client
    && s.clients[a.client].outcome == Admitted(a.id, true)
    && s.clients[b.client].outcome == Admitted(b.id, true)
    && a.id != b.id
    && (s.clients[a.client].req.key.Some? && s.clients[a.client].req.key == s.clients[b.client].req.key ==>
          Purged(s.rows, a.id) || Purged(s.rows, b.id))
  }

  lemma CallsDistinctAt(s: Ledger, k: nat, l: nat)
    requires IdentityInv(s) && k < l < |s.calls|
    ensures CallsApart(s, s.calls[k], s.calls[l])
  {
    var a, b := s.calls[k], s.calls[l];
    var ca, cb := s.clients[a.client], s.clients[b.client];
    assert ClientIdentity(s.rows, a.client, ca) && ClientIdentity(s.rows, b.client, cb);
    var i :| 0 <= i < |s.rows| && s.rows[i].id == a.id && s.rows[i].key == ca.req.key && s.rows[i].admittedBy == Some(a.client);
    var j :| 0 <= j < |s.rows| && s.rows[j].id == b.id && s.rows[j].key == cb.req.key && s.rows[j].admittedBy == Some(b.client);
    assert i != j;
    SameRow(s.rows, i, j);
  }

  /** Over every run the provider is called at most once per call and per workload, only for new
      admissions, and at most once per key as long as the workload of the key is not deleted. */
  lemma ProviderCalledOncePerKey(cfg: Config, month: int, steps: seq<Step>, k: nat, l: nat)
    requires ValidRun(cfg, Init(month), steps)
    requires k < l < |Exec(cfg, Init(month), steps).calls|
    ensures var s := Exec(cfg, Init(month), steps); CallsApart(s, s.calls[k], s.calls[l])
  {
    RunKeepsIdentity(cfg, Init(month), steps);
    CallsDistinctAt(Exec(cfg, Init(month), steps), k, l);
  }
}
