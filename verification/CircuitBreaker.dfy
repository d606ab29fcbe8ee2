/** The budget circuit breaker: hysteresis, cooldown, and the kill escalation that reads it.
    Amounts, percentages, hours and seconds are exact reals. */
module CircuitBreaker {
  import opened Options

  datatype BreakerState = Closed | Open | HalfOpen

  datatype BreakerAction = Allow | Downgrade | Block

  datatype Decision = Decision(
    action: BreakerAction,
    reason: string,
    state: BreakerState,
    headroom: real,
    headroomPct: real,
    runway: Option<real>)

  datatype Thresholds = Thresholds(
    headroomTrip: real,
    runwayTrip: real,
    recoveryHeadroom: real,
    recoveryRunway: real,
    downgradeHeadroom: real,
    cooldown: real)

  /** What the breaker remembers between evaluations. */
  datatype Memory = Memory(state: BreakerState, lastTripAt: Option<real>)

  const FRESH := Memory(Closed, None)

  datatype Reading = Reading(budget: real, spend: real, now: real, burn: Option<real>)

  function Headroom(r: Reading): real {
    if r.budget - r.spend < 0.0 then 0.0 else r.budget - r.spend
  }

  function HeadroomPct(r: Reading): real {
    if r.budget > 0.0 then Headroom(r) / r.budget * 100.0 else 0.0
  }

  function Runway(r: Reading): Option<real> {
    if r.burn.Some? && r.burn.value > 0.0 then Some(Headroom(r) / r.burn.value) else None
  }

  predicate ShouldTrip(t: Thresholds, r: Reading) {
    HeadroomPct(r) <= t.headroomTrip || (Runway(r).Some? && Runway(r).value <= t.runwayTrip)
  }

  predicate ShouldRecover(t: Thresholds, r: Reading) {
    HeadroomPct(r) >= t.recoveryHeadroom && (Runway(r).None? || Runway(r).value >= t.recoveryRunway)
  }

  function ActionForStress(t: Thresholds, r: Reading): (BreakerAction, string) {
    if HeadroomPct(r) <= t.downgradeHeadroom then (Block, "budget exhausted")
    else if Runway(r).Some? && Runway(r).value <= t.runwayTrip then (Downgrade, "burn rate critical")
    else (Downgrade, "headroom low")
  }

  function Transition(t: Thresholds, m: Memory, r: Reading): (BreakerState, (BreakerAction, string)) {
    match m.state
    case Closed =>
      if ShouldTrip(t, r) then (Open, ActionForStress(t, r)) else (Closed, (Allow, "budget healthy"))
    case Open =>
      if m.lastTripAt.None? then (Open, ActionForStress(t, r))
      else if r.now - m.lastTripAt.value >= t.cooldown then
        if ShouldRecover(t, r) then (Closed, (Allow, "budget recovered")) else (HalfOpen, ActionForStress(t, r))
      else (Open, ActionForStress(t, r))
    case HalfOpen =>
      if ShouldRecover(t, r) then (Closed, (Allow, "budget recovered")) else (Open, ActionForStress(t, r))
  }

  function Next(t: Thresholds, m: Memory, r: Reading): Memory {
    var state := Transition(t, m, r).0;
    Memory(state,
           if state == Open && (m.lastTripAt.None? || m.state == HalfOpen) then Some(r.now)
           else if state == Closed then None
           else m.lastTripAt)
  }

  function Decide(t: Thresholds, m: Memory, r: Reading): Decision {
    var (state, (action, reason)) := Transition(t, m, r);
    Decision(action, reason, state, Headroom(r), HeadroomPct(r), Runway(r))
  }

  class BudgetCircuitBreaker {
    const t: Thresholds
    var state: BreakerState
    var lastTripAt: Option<real>

    constructor (t: Thresholds)
      ensures this.t == t && Remembers() == FRESH
    {
      this.t, state, lastTripAt := t, Closed, None;
    }

    function Remembers(): Memory
      reads this
    {
      Memory(state, lastTripAt)
    }

    method Evaluate(r: Reading) returns (d: Decision)
      modifies this
      ensures Remembers() == Next(t, old(Remembers()), r)
      ensures d == Decide(t, old(Remembers()), r)
      ensures d.state == state
    {
      var previous := state;
      var (newState, (action, reason)) := Transition(t, Remembers(), r);
      state := newState;
      if newState == Open {
        if lastTripAt.None? || previous == HalfOpen {
          lastTripAt := Some(r.now);
        }
      } else if newState == Closed {
        lastTripAt := None;
      }
      d := Decision(action, reason, state, Headroom(r), HeadroomPct(r), Runway(r));
    }

    method Reset()
      modifies this
      ensures Remembers() == FRESH
    {
      state, lastTripAt := Closed, None;
    }
  }

  // ------------------------------------------------------------- histories

  /** The memory after evaluating every reading in order, from a fresh breaker. */
  function After(t: Thresholds, rs: seq<Reading>): Memory {
    if rs == [] then FRESH else Next(t, After(t, rs[..|rs| - 1]), rs[|rs| - 1])
  }

  function DecisionAt(t: Thresholds, rs: seq<Reading>, i: nat): Decision
    requires i < |rs|
  {
    Decide(t, After(t, rs[..i]), rs[i])
  }

  ghost predicate ClockForward(rs: seq<Reading>) {
    forall i, j :: 0 <= i <= j < |rs| ==> rs[i].now <= rs[j].now
  }

  lemma AfterStep(t: Thresholds, rs: seq<Reading>, i: nat)
    requires i < |rs|
    ensures After(t, rs[..i + 1]) == Next(t, After(t, rs[..i]), rs[i])
  {
    assert rs[..i + 1][..i] == rs[..i];
  }

  /** An evaluation trips the breaker when it enters `open` from another state. */
  predicate TripsAt(t: Thresholds, rs: seq<Reading>, i: nat)
    requires i < |rs|
  {
    After(t, rs[..i]).state != Open && After(t, rs[..i + 1]).state == Open
  }

  predicate TripsFromClosedAt(t: Thresholds, rs: seq<Reading>, i: nat)
    requires i < |rs|
  {
    After(t, rs[..i]).state == Closed && After(t, rs[..i + 1]).state == Open
  }

  /** The breaker is closed exactly when it remembers no trip. */
  lemma {:induction false} ClosedIffNoTripStored(t: Thresholds, rs: seq<Reading>)
    ensures After(t, rs).state == Closed <==> After(t, rs).lastTripAt.None?
  {
    if rs != [] {
      ClosedIffNoTripStored(t, rs[..|rs| - 1]);
    }
  }

  /** The action is `allow` exactly when the evaluation leaves the breaker closed. */
  lemma AllowIffClosed(t: Thresholds, rs: seq<Reading>, i: nat)
    requires i < |rs|
    ensures DecisionAt(t, rs, i).action == Allow <==> After(t, rs[..i + 1]).state == Closed
    ensures DecisionAt(t, rs, i).state == After(t, rs[..i + 1]).state
  {
    AfterStep(t, rs, i);
  }

  /** Where a past trip stands: either the stored trip time is at or after it, or the clock has
      already passed its cooldown. */
  ghost predicate TripAccounted(t: Thresholds, rs: seq<Reading>, n: nat, k: nat)
    requires k < n <= |rs|
  {
    var m := After(t, rs[..n]);
    || (m.lastTripAt.Some? && rs[k].now <= m.lastTripAt.value)
    || rs[n - 1].now >= rs[k].now + t.cooldown
  }

  ghost predicate HalfOpenAfterCooldown(t: Thresholds, rs: seq<Reading>, n: nat)
    requires n <= |rs|
  {
    var m := After(t, rs[..n]);
    && (m.lastTripAt.Some? ==> n > 0 && m.lastTripAt.value <= rs[n - 1].now)
    && (m.state == HalfOpen ==> n > 0 && m.lastTripAt.Some? && rs[n - 1].now >= m.lastTripAt.value + t.cooldown)
  }

  lemma {:induction false} HalfOpenHolds(t: Thresholds, rs: seq<Reading>, n: nat)
    requires ClockForward(rs) && n <= |rs|
    ensures HalfOpenAfterCooldown(t, rs, n)
  {
    if n > 0 {
      HalfOpenHolds(t, rs, n - 1);
      AfterStep(t, rs, n - 1);
      ClosedIffNoTripStored(t, rs[..n - 1]);
      assert n > 1 ==> rs[n - 2].now <= rs[n - 1].now;
    }
  }

  lemma {:induction false} TripHolds(t: Thresholds, rs: seq<Reading>, n: nat, k: nat)
    requires ClockForward(rs) && k < n <= |rs| && TripsAt(t, rs, k)
    ensures TripAccounted(t, rs, n, k)
    decreases n
  {
    hide ActionForStress, ShouldTrip, ShouldRecover;
    AfterStep(t, rs, n - 1);
    ClosedIffNoTripStored(t, rs[..n - 1]);
    if k < n - 1 {
      TripHolds(t, rs, n - 1, k);
      HalfOpenHolds(t, rs, n - 1);
      assert rs[n - 2].now <= rs[n - 1].now;
    }
  }

  /** With a clock that never goes back, `allow` comes no earlier than one cooldown after every
      earlier trip, in particular the latest one. */
  lemma AllowWaitsForCooldown(t: Thresholds, rs: seq<Reading>, k: nat, i: nat)
    requires ClockForward(rs) && k < i < |rs|
    requires TripsAt(t, rs, k) && DecisionAt(t, rs, i).action == Allow
    ensures rs[i].now >= rs[k].now + t.cooldown
  {
    TripHolds(t, rs, i, k);
    HalfOpenHolds(t, rs, i);
    ClosedIffNoTripStored(t, rs[..i]);
    assert rs[i - 1].now <= rs[i].now;
  }

  /** Between a trip and a later closed state some evaluation allowed. */
  lemma {:induction false} SomeAllowBetween(t: Thresholds, rs: seq<Reading>, a: nat, b: nat)
    requires a < b < |rs| && After(t, rs[..a + 1]).state != Closed && After(t, rs[..b]).state == Closed
    ensures exists j :: a < j < b && DecisionAt(t, rs, j).action == Allow
    decreases b
  {
    if After(t, rs[..b - 1]).state == Closed {
      SomeAllowBetween(t, rs, a, b - 1);
    } else {
      AllowIffClosed(t, rs, b - 1);
      assert a < b - 1;
    }
  }

  lemma ClosedTripsSpaced(t: Thresholds, rs: seq<Reading>, a: nat, b: nat)
    requires ClockForward(rs) && a < b < |rs| && TripsFromClosedAt(t, rs, a) && TripsFromClosedAt(t, rs, b)
    ensures rs[b].now >= rs[a].now + t.cooldown
  {
    SomeAllowBetween(t, rs, a, b);
    var j :| a < j < b && DecisionAt(t, rs, j).action == Allow;
    AllowWaitsForCooldown(t, rs, a, j);
  }

  lemma OneMoreCooldown(n: nat, cooldown: real)
    requires n > 0
    ensures n as real * cooldown == (n - 1) as real * cooldown + cooldown
  {
    assert n as real == (n - 1) as real + 1.0;
  }

  /** `k` trips from closed span at least `k - 1` cooldowns. */
  lemma {:induction false} TripRateLimit(t: Thresholds, rs: seq<Reading>, trips: seq<nat>)
    requires ClockForward(rs) && trips != []
    requires forall x :: 0 <= x < |trips| ==> trips[x] < |rs| && TripsFromClosedAt(t, rs, trips[x])
    requires forall x, y :: 0 <= x < y < |trips| ==> trips[x] < trips[y]
    ensures rs[trips[|trips| - 1]].now - rs[trips[0]].now >= (|trips| - 1) as real * t.cooldown
  {
    hide TripsFromClosedAt;
    var n := |trips| - 1;
    if n > 0 {
      TripRateLimit(t, rs, trips[..n]);
      ClosedTripsSpaced(t, rs, trips[n - 1], trips[n]);
      OneMoreCooldown(n, t.cooldown);
    }
  }

  // ------------------------------------------------------------- headroom

  lemma DivMonotone(a: real, b: real, d: real)
    requires a <= b && d > 0.0
    ensures a / d <= b / d
  {
  }

  /** Spending more at the same budget never raises the headroom percentage. */
  lemma HeadroomPctMonotone(r: Reading, s: Reading)
    requires r.budget == s.budget && r.spend <= s.spend
    ensures HeadroomPct(s) <= HeadroomPct(r)
  {
    if r.budget > 0.0 {
      DivMonotone(Headroom(s), Headroom(r), r.budget);
    }
  }

  /** One budget, and spend that never decreases. */
  ghost predicate MonthOfSpending(rs: seq<Reading>) {
    forall i, j :: 0 <= i <= j < |rs| ==> rs[i].budget == rs[j].budget && rs[i].spend <= rs[j].spend
  }

  lemma {:induction false} StaysTripped(t: Thresholds, rs: seq<Reading>, k: nat, n: nat)
    requires MonthOfSpending(rs) && t.recoveryHeadroom > t.headroomTrip && k < n <= |rs|
    requires HeadroomPct(rs[k]) <= t.headroomTrip && After(t, rs[..k + 1]).state != Closed
    ensures After(t, rs[..n]).state != Closed
    decreases n
  {
    if k < n - 1 {
      StaysTripped(t, rs, k, n - 1);
      AfterStep(t, rs, n - 1);
      HeadroomPctMonotone(rs[k], rs[n - 1]);
    }
  }

  /** Once the breaker trips on headroom, no later evaluation of the month returns `allow`,
      whatever the burn rates and however long the cooldown. */
  lemma NoAllowAfterHeadroomTrip(t: Thresholds, rs: seq<Reading>, k: nat, i: nat)
    requires MonthOfSpending(rs) && t.recoveryHeadroom > t.headroomTrip && k <= i < |rs|
    requires TripsAt(t, rs, k) && HeadroomPct(rs[k]) <= t.headroomTrip
    ensures DecisionAt(t, rs, i).action != Allow
  {
    StaysTripped(t, rs, k, i + 1);
    AllowIffClosed(t, rs, i);
  }

  // ------------------------------------------------------------- exhausted budget

  ghost predicate OrderedThresholds(t: Thresholds) {
    0.0 <= t.downgradeHeadroom <= t.headroomTrip < t.recoveryHeadroom
  }

  /** At or over budget every reachable breaker blocks. */
  lemma ExhaustedBlocks(t: Thresholds, rs: seq<Reading>, r: Reading)
    requires OrderedThresholds(t) && r.spend >= r.budget
    ensures Decide(t, After(t, rs), r).action == Block && Headroom(r) == 0.0
  {
    assert HeadroomPct(r) == 0.0 by {
      if r.budget > 0.0 {
        assert Headroom(r) / r.budget == 0.0;
      }
    }
    ClosedIffNoTripStored(t, rs);
  }

  // ------------------------------------------------------------- kill escalation

  datatype KillMode = Disabled | Shadow | Armed

  datatype KillPolicy = KillPolicy(requireBlock: bool, headroomFloor: real)

  const DEFAULT_KILL_POLICY := KillPolicy(true, 0.0)

  /** `_normalize_mode`: anything unknown fails closed to `disabled`, and is reported. */
  function NormalizeMode(mode: string): (KillMode, bool) {
    if mode == "disabled" then (Disabled, true)
    else if mode == "shadow" then (Shadow, true)
    else if mode == "armed" then (Armed, true)
    else (Disabled, false)
  }

  datatype Escalation = Escalation(shouldFire: bool, mode: KillMode)

  function EvaluateEscalation(d: Decision, mode: string, policy: KillPolicy): Escalation {
    var (canonical, valid) := NormalizeMode(mode);
    if !valid || canonical == Disabled then Escalation(false, canonical)
    else
      var blockOk := d.action == Block || !policy.requireBlock;
      Escalation(blockOk && d.headroom <= policy.headroomFloor, canonical)
  }

  /** The injected switch: it only counts its activations. */
  class KillSwitch {
    var activations: nat

    constructor ()
      ensures activations == 0
    {
      activations := 0;
    }

    method Activate()
      modifies this
      ensures activations == old(activations) + 1
    {
      activations := activations + 1;
    }
  }

  /** `maybe_escalate_to_kill`: fires the switch once or not at all. */
  method MaybeEscalate(d: Decision, switch: KillSwitch, mode: string, policy: KillPolicy) returns (fired: bool)
    modifies switch
    ensures fired <==> mode == "armed" && (d.action == Block || !policy.requireBlock) && d.headroom <= policy.headroomFloor
    ensures switch.activations == old(switch.activations) + if fired then 1 else 0
  {
    var decided := EvaluateEscalation(d, mode, policy);
    if !decided.shouldFire {
      return false;
    }
    if decided.mode != Armed {
      return false;
    }
    switch.Activate();
    return true;
  }

  /** Under the default policy, escalation fires from any reachable breaker exactly when the mode
      is armed and spend has reached the budget. */
  lemma EscalationFiresIff(t: Thresholds, rs: seq<Reading>, r: Reading, mode: string)
    requires OrderedThresholds(t)
    ensures var e := EvaluateEscalation(Decide(t, After(t, rs), r), mode, DEFAULT_KILL_POLICY);
            e.shouldFire && e.mode == Armed <==> mode == "armed" && r.spend >= r.budget
  {
    if r.spend >= r.budget {
      ExhaustedBlocks(t, rs, r);
    }
  }
}
