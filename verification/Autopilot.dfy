/** The autopilot control loop: ordered signals, a chain of gates, and run-level hard limits. */
module Autopilot {
  import opened Options
  import opened Sorting
  import opened Simulator
  import CB = CircuitBreaker

  /** A signal and the action proposed from it, one to one. */
  datatype Signal = Signal(
    priority: int,
    source: string,
    id: string,
    targetKind: string,
    targetId: string,
    workloads: seq<Route>)

  datatype Mode = ShadowMode | ApplyMode

  datatype Limits = Limits(
    maxActions: nat,
    maxPerAction: Option<nat>,
    maxPerRun: Option<nat>,
    maxProjected: Option<nat>)

  datatype GateName = PolicyGate | SimulationGate | LimitsGate | BreakerGate | ModeGate | ExecutorGate

  datatype GateResult = GateResult(name: GateName, passed: bool)

  datatype Outcome = Applied | Shadowed | Denied

  datatype Decision = Decision(signal: Signal, outcome: Outcome, gates: seq<GateResult>, simulation: Option<Batch>)

  /** Everything a run is given. The policy engine is any predicate on signals; the executor, when
      there is one, may answer anything at any position of the run. */
  datatype Env = Env(
    policy: Signal -> bool,
    executor: Option<(nat, Signal) -> bool>,
    mode: Mode,
    limits: Limits,
    budget: Option<nat>,
    currentSpend: nat,
    breaker: Option<CB.Decision>)

  function SignalKey(s: Signal): Key {
    Key(s.priority, [s.source, s.id, s.targetKind, s.targetId])
  }

  predicate SignalLe(a: Signal, b: Signal) {
    KeyLe(SignalKey(a), SignalKey(b))
  }

  lemma SignalLeTotalPreorder()
    ensures TotalPreorder(SignalLe)
  {
    KeyLeTotalPreorder();
  }

  // ------------------------------------------------------------- gates

  predicate PassesLimits(limits: Limits, b: Batch, count: nat, reserved: nat) {
    && count < limits.maxActions
    && (limits.maxPerAction.Some? ==> b.totalReserved <= limits.maxPerAction.value)
    && (limits.maxPerRun.Some? ==> reserved + b.totalReserved <= limits.maxPerRun.value)
    && (limits.maxProjected.Some? ==> b.projectedSpend <= limits.maxProjected.value)
  }

  predicate PassesBreaker(breaker: Option<CB.Decision>) {
    breaker.None? || breaker.value.action == CB.Allow
  }

  /** An action without workloads, one that cannot be planned, and one over budget are refused. */
  predicate PassesSimulation(env: Env, s: Signal) {
    var sim := SimulateBatch(s.workloads, env.budget, env.currentSpend);
    s.workloads != [] && sim.Ok? && sim.value.wouldExceed != Some(true)
  }

  /** The first gate that refuses decides; every gate before it passed. */
  function Decide(env: Env, index: nat, s: Signal, count: nat, reserved: nat): Decision {
    var policy := GateResult(PolicyGate, env.policy(s));
    if !policy.passed then Decision(s, Denied, [policy], None)
    else if !PassesSimulation(env, s) then Decision(s, Denied, [policy, GateResult(SimulationGate, false)], None)
    else
      var b := SimulateBatch(s.workloads, env.budget, env.currentSpend).value;
      var limits := GateResult(LimitsGate, PassesLimits(env.limits, b, count, reserved));
      var gates := [policy, GateResult(SimulationGate, true), limits];
      if !limits.passed then Decision(s, Denied, gates, Some(b))
      else if !PassesBreaker(env.breaker) then
        Decision(s, Denied, gates + [GateResult(BreakerGate, false)], Some(b))
      else
        var open := gates + [GateResult(BreakerGate, true)];
        if env.mode == ShadowMode then Decision(s, Shadowed, open + [GateResult(ModeGate, false)], Some(b))
        else if env.executor.None? then Decision(s, Denied, open + [GateResult(ExecutorGate, false)], Some(b))
        else
          var applied := env.executor.value(index, s);
          Decision(s, if applied then Applied else Denied, open + [GateResult(ExecutorGate, applied)], Some(b))
  }

  /** Only an applied action with a simulation counts toward the run's limits. */
  function Counted(d: Decision, count: nat): nat {
    if d.outcome == Applied && d.simulation.Some? then count + 1 else count
  }

  function ReservedBy(d: Decision): nat {
    if d.outcome == Applied && d.simulation.Some? then d.simulation.value.totalReserved else 0
  }

  /** The decisions of the remaining signals, given what the run already applied. */
  function Decisions(env: Env, signals: seq<Signal>, index: nat, count: nat, reserved: nat): seq<Decision>
    decreases |signals|
  {
    if signals == [] then []
    else
      var d := Decide(env, index, signals[0], count, reserved);
      [d] + Decisions(env, signals[1..], index + 1, Counted(d, count), reserved + ReservedBy(d))
  }

  function RunDecisions(env: Env, signals: seq<Signal>): seq<Decision> {
    Decisions(env, Sort(signals, SignalLe), 0, 0, 0)
  }

  // ------------------------------------------------------------- the code

  class AutopilotController {
    const env: Env
    const simulator: WhatIfSimulator

    constructor (env: Env)
      ensures this.env == env && simulator.budget == env.budget && simulator.currentSpend == env.currentSpend
    {
      this.env := env;
      this.simulator := new WhatIfSimulator(env.budget, env.currentSpend);
    }

    ghost predicate Wired() {
      simulator.budget == env.budget && simulator.currentSpend == env.currentSpend
    }

    /** `_evaluate_hard_limits`. */
    method EvaluateHardLimits(b: Batch, count: nat, reserved: nat) returns (passed: bool)
      ensures passed <==> PassesLimits(env.limits, b, count, reserved)
    {
      var limits := env.limits;
      if count >= limits.maxActions {
        return false;
      }
      if limits.maxPerAction.Some? && b.totalReserved > limits.maxPerAction.value {
        return false;
      }
      if limits.maxPerRun.Some? && reserved + b.totalReserved > limits.maxPerRun.value {
        return false;
      }
      if limits.maxProjected.Some? && b.projectedSpend > limits.maxProjected.value {
        return false;
      }
      return true;
    }

    /** `_decide`: gates are appended as they are evaluated. */
    method DecideOne(index: nat, s: Signal, count: nat, reserved: nat) returns (d: Decision)
      requires Wired()
      ensures d == Decide(env, index, s, count, reserved)
    {
      var gates: seq<GateResult> := [];
      var allowed := env.policy(s);
      gates := gates + [GateResult(PolicyGate, allowed)];
      if !allowed {
        return Decision(s, Denied, gates, None);
      }
      var simulation: Option<Batch> := None;
      if s.workloads != [] {
        var batch := simulator.SimulateWorkloads(s.workloads);
        if batch.Ok? && batch.value.wouldExceed != Some(true) {
          simulation := Some(batch.value);
        }
      }
      gates := gates + [GateResult(SimulationGate, simulation.Some?)];
      if simulation.None? {
        return Decision(s, Denied, gates, None);
      }
      var withinLimits := EvaluateHardLimits(simulation.value, count, reserved);
      gates := gates + [GateResult(LimitsGate, withinLimits)];
      if !withinLimits {
        return Decision(s, Denied, gates, simulation);
      }
      var breakerAllows := env.breaker.None? || env.breaker.value.action == CB.Allow;
      gates := gates + [GateResult(BreakerGate, breakerAllows)];
      if !breakerAllows {
        return Decision(s, Denied, gates, simulation);
      }
      if env.mode == ShadowMode {
        gates := gates + [GateResult(ModeGate, false)];
        return Decision(s, Shadowed, gates, simulation);
      }
      if env.executor.None? {
        gates := gates + [GateResult(ExecutorGate, false)];
        return Decision(s, Denied, gates, simulation);
      }
      var applied := env.executor.value(index, s);
      gates := gates + [GateResult(ExecutorGate, applied)];
      return Decision(s, if applied then Applied else Denied, gates, simulation);
    }

    /** `run`: collect and sort, then decide one by one. */
    method Run(signals: seq<Signal>) returns (decisions: seq<Decision>)
      requires Wired()
      ensures decisions == RunDecisions(env, signals)
    {
      decisions := DecideAll(Sort(signals, SignalLe));
    }

    /** The loop of `run`. */
    method DecideAll(actions: seq<Signal>) returns (decisions: seq<Decision>)
      requires Wired()
      ensures decisions == Decisions(env, actions, 0, 0, 0)
    {
      hide *;
      decisions := [];
      var appliedCount: nat, acceptedReserved: nat := 0, 0;
      OnCourseStart(env, actions);
      for i := 0 to |actions|
        invariant OnCourse(env, actions, i, appliedCount, acceptedReserved, decisions)
      {
        var d := DecideOne(i, actions[i], appliedCount, acceptedReserved);
        OnCourseStep(env, actions, i, appliedCount, acceptedReserved, decisions);
        decisions := decisions + [d];
        appliedCount, acceptedReserved := Counted(d, appliedCount), acceptedReserved + ReservedBy(d);
      }
      OnCourseEnd(env, actions, appliedCount, acceptedReserved, decisions);
    }
  }

  /** The decisions made so far and those still to come are the decisions of the whole run. */
  ghost predicate OnCourse(env: Env, actions: seq<Signal>, i: nat, count: nat, reserved: nat, made: seq<Decision>) {
    i <= |actions| && made + Decisions(env, actions[i..], i, count, reserved) == Decisions(env, actions, 0, 0, 0)
  }

  lemma OnCourseStart(env: Env, actions: seq<Signal>)
    ensures OnCourse(env, actions, 0, 0, 0, [])
  {
    hide Decisions;
    assert actions[0..] == actions;
  }

  lemma OnCourseStep(env: Env, actions: seq<Signal>, i: nat, count: nat, reserved: nat, made: seq<Decision>)
    requires i < |actions| && OnCourse(env, actions, i, count, reserved, made)
    ensures var d := Decide(env, i, actions[i], count, reserved);
            OnCourse(env, actions, i + 1, Counted(d, count), reserved + ReservedBy(d), made + [d])
  {
    DecisionsStep(env, actions, i, count, reserved);
    hide Decide, Decisions, ReservedBy;
  }

  lemma OnCourseEnd(env: Env, actions: seq<Signal>, count: nat, reserved: nat, made: seq<Decision>)
    requires OnCourse(env, actions, |actions|, count, reserved, made)
    ensures made == Decisions(env, actions, 0, 0, 0)
  {
    assert actions[|actions|..] == [];
    NoDecisions(env, |actions|, count, reserved);
  }

  lemma DecisionsStep(env: Env, actions: seq<Signal>, i: nat, count: nat, reserved: nat)
    requires i < |actions|
    ensures var d := Decide(env, i, actions[i], count, reserved);
            Decisions(env, actions[i..], i, count, reserved)
            == [d] + Decisions(env, actions[i + 1..], i + 1, Counted(d, count), reserved + ReservedBy(d))
  {
    hide Decide;
    assert actions[i..][1..] == actions[i + 1..];
  }

  lemma NoDecisions(env: Env, index: nat, count: nat, reserved: nat)
    ensures Decisions(env, [], index, count, reserved) == []
  {
  }

  // ------------------------------------------------------------- every run

  function AppliedCount(ds: seq<Decision>): nat {
    if ds == [] then 0 else (if ds[0].outcome == Applied then 1 else 0) + AppliedCount(ds[1..])
  }

  function TotalApplied(ds: seq<Decision>): nat {
    if ds == [] then 0 else ReservedBy(ds[0]) + TotalApplied(ds[1..])
  }

  /** Gates are evaluated in order and the first refusal ends the chain: all but the last passed,
      and the outcome is `applied` exactly when all of them did. */
  ghost predicate GatesExplain(d: Decision) {
    && d.gates != []
    && (forall g :: 0 <= g < |d.gates| - 1 ==> d.gates[g].passed)
    && (d.outcome == Applied <==> forall g :: 0 <= g < |d.gates| ==> d.gates[g].passed)
    && (d.outcome == Shadowed ==> d.gates[|d.gates| - 1].name == ModeGate)
  }

  /** An applied action, on its own, respects the caps and the simulated budget. */
  ghost predicate AppliedWithin(env: Env, d: Decision) {
    d.outcome == Applied ==>
      && d.simulation.Some?
      && (env.limits.maxPerAction.Some? ==> d.simulation.value.totalReserved <= env.limits.maxPerAction.value)
      && d.simulation.value.projectedSpend == env.currentSpend + d.simulation.value.totalReserved
      && d.simulation.value.totalReserved == TotalReserved(d.signal.workloads)
      && (env.budget.Some? ==> d.simulation.value.projectedSpend <= env.budget.value)
      && (env.limits.maxProjected.Some? ==> d.simulation.value.projectedSpend <= env.limits.maxProjected.value)
  }

  lemma DecideExplained(env: Env, index: nat, s: Signal, count: nat, reserved: nat)
    ensures GatesExplain(Decide(env, index, s, count, reserved))
    ensures AppliedWithin(env, Decide(env, index, s, count, reserved))
  {
    var d := Decide(env, index, s, count, reserved);
    var last := d.gates[|d.gates| - 1];
    assert d.outcome == Applied <==> last.passed;
  }

  function GateNames(gates: seq<GateResult>): seq<GateName> {
    seq(|gates|, i requires 0 <= i < |gates| => gates[i].name)
  }

  ghost predicate GatesInOrder(d: Decision) {
    var names := GateNames(d.gates);
    || names <= [PolicyGate, SimulationGate, LimitsGate, BreakerGate, ModeGate]
    || names == [PolicyGate, SimulationGate, LimitsGate, BreakerGate, ExecutorGate]
  }

  /** No gate can be skipped: they are recorded in this order, cut off at the first refusal, and
      applying takes the consent of the policy, the simulation, the limits, the breaker, the mode
      and the executor together. */
  lemma AppliedIff(env: Env, index: nat, s: Signal, count: nat, reserved: nat)
    ensures GatesInOrder(Decide(env, index, s, count, reserved))
    ensures Decide(env, index, s, count, reserved).outcome == Applied
       <==> (&& env.policy(s)
             && s.workloads != [] && Plannable(s.workloads)
             && (env.budget.Some? ==> env.currentSpend + TotalReserved(s.workloads) <= env.budget.value)
             && PassesLimits(env.limits, SimulateBatch(s.workloads, env.budget, env.currentSpend).value, count, reserved)
             && (env.breaker.Some? ==> env.breaker.value.action == CB.Allow)
             && env.mode == ApplyMode && env.executor.Some? && env.executor.value(index, s))
  {
    BatchConserves(s.workloads, env.budget, env.currentSpend);
    DecideGatesInOrder(env, index, s, count, reserved);
    hide PassesLimits, GatesInOrder, Projections, TotalReserved, Chained, SumReserved;
  }

  lemma DecideGatesInOrder(env: Env, index: nat, s: Signal, count: nat, reserved: nat)
    ensures GatesInOrder(Decide(env, index, s, count, reserved))
  {
    hide PassesLimits, PassesSimulation, PassesBreaker, SimulateBatch;
    var d := Decide(env, index, s, count, reserved);
    assert |d.gates| <= 5;
  }

  lemma AppliedMeansRoom(env: Env, index: nat, s: Signal, count: nat, reserved: nat)
    requires Decide(env, index, s, count, reserved).outcome == Applied
    ensures var d := Decide(env, index, s, count, reserved);
            && d.simulation.Some? && count < env.limits.maxActions
            && (env.limits.maxPerRun.Some? ==> reserved + ReservedBy(d) <= env.limits.maxPerRun.value)
            && PassesBreaker(env.breaker) && env.mode == ApplyMode
  {
  }

  lemma {:induction false} DecisionsWithin(env: Env, signals: seq<Signal>, index: nat, count: nat, reserved: nat)
    requires count <= env.limits.maxActions
    requires env.limits.maxPerRun.Some? ==> reserved <= env.limits.maxPerRun.value
    ensures var ds := Decisions(env, signals, index, count, reserved);
            && |ds| == |signals|
            && count + AppliedCount(ds) <= env.limits.maxActions
            && (env.limits.maxPerRun.Some? ==> reserved + TotalApplied(ds) <= env.limits.maxPerRun.value)
            && (forall i :: 0 <= i < |ds| ==> GatesExplain(ds[i]) && AppliedWithin(env, ds[i]) && ds[i].signal == signals[i])
    decreases |signals|
  {
    hide Decide, GatesExplain, AppliedWithin;
    if signals != [] {
      var d := Decide(env, index, signals[0], count, reserved);
      DecideExplained(env, index, signals[0], count, reserved);
      DecideKeepsSignal(env, index, signals[0], count, reserved);
      if d.outcome == Applied {
        AppliedMeansRoom(env, index, signals[0], count, reserved);
        DecisionsWithin(env, signals[1..], index + 1, count + 1, reserved + ReservedBy(d));
      } else {
        DecisionsWithin(env, signals[1..], index + 1, count, reserved);
      }
    }
  }

  lemma DecideKeepsSignal(env: Env, index: nat, s: Signal, count: nat, reserved: nat)
    ensures Decide(env, index, s, count, reserved).signal == s
  {
  }

  /** For every signal list and any executor: the run applies at most the action limit, the
      applied reservations together stay within the run cap, each applied action alone stays
      within the action cap and the simulated budget, and the gates explain every outcome. */
  lemma RunRespectsLimits(env: Env, signals: seq<Signal>)
    ensures var ds := RunDecisions(env, signals);
            && |ds| == |signals|
            && AppliedCount(ds) <= env.limits.maxActions
            && (env.limits.maxPerRun.Some? ==> TotalApplied(ds) <= env.limits.maxPerRun.value)
            && (forall i :: 0 <= i < |ds| ==> GatesExplain(ds[i]) && AppliedWithin(env, ds[i]))
  {
    SortPermutes(signals, SignalLe);
    DecisionsWithin(env, Sort(signals, SignalLe), 0, 0, 0);
  }

  lemma {:induction false} StoppedBreakerAppliesNothing(env: Env, signals: seq<Signal>, index: nat, count: nat, reserved: nat)
    requires env.breaker.Some? && env.breaker.value.action != CB.Allow
    ensures var ds := Decisions(env, signals, index, count, reserved);
            AppliedCount(ds) == 0 && forall i :: 0 <= i < |ds| ==> ds[i].outcome == Denied
    decreases |signals|
  {
    if signals != [] {
      var d := Decide(env, index, signals[0], count, reserved);
      if d.outcome == Applied {
        AppliedMeansRoom(env, index, signals[0], count, reserved);
      }
      StoppedBreakerAppliesNothing(env, signals[1..], index + 1, count, reserved);
    }
  }

  /** The decisions do not depend on the order in which the sources delivered their signals. */
  lemma RunIgnoresOrder(env: Env, signals: seq<Signal>, shuffled: seq<Signal>)
    requires multiset(signals) == multiset(shuffled) && DistinctKeys(signals, SignalLe)
    ensures RunDecisions(env, signals) == RunDecisions(env, shuffled)
  {
    SignalLeTotalPreorder();
    SortIgnoresOrder(signals, shuffled, SignalLe);
  }
}
