/** The budget control loop as a whole: one breaker decision, read by the kill escalation, the
    pacing governor, the autopilot and the spot bidder. */
module ControlLoop {
  import opened Options
  import opened Sorting
  import CB = CircuitBreaker
  import Gov = SloGovernor
  import Auto = Autopilot
  import Bid = Bidding

  /** Everything around the breaker that a control decision meets. */
  datatype Surroundings = Surroundings(
    slo: Gov.CostSlo,
    burnPerDay: real,
    costs: seq<real>,
    killMode: string,
    run: Auto.Env,
    signals: seq<Auto.Signal>,
    bidding: Bid.Policy,
    prices: seq<Bid.SpotPrice>)

  /** The autopilot and the bidder are handed the breaker's decision. */
  function Handed(s: Surroundings, d: CB.Decision): Surroundings {
    s.(run := s.run.(breaker := Some(d)), bidding := s.bidding.(budget := Some(d)))
  }

  function Pacing(s: Surroundings, d: CB.Decision): Gov.Pacing {
    Gov.Evaluate(s.slo, s.burnPerDay, s.costs, Some(d.action))
  }

  function Applied(s: Surroundings, d: CB.Decision): nat {
    Auto.AppliedCount(Auto.RunDecisions(Handed(s, d).run, s.signals))
  }

  function Bids(s: Surroundings, d: CB.Decision): seq<Bid.BidAction> {
    Bid.Plan(s.prices, Handed(s, d).bidding)
  }

  predicate Kills(s: Surroundings, d: CB.Decision) {
    var e := CB.EvaluateEscalation(d, s.killMode, CB.DEFAULT_KILL_POLICY);
    e.shouldFire && e.mode == CB.Armed
  }

  /** Spend at or over budget stops everything, whatever the breaker went through before, however
      fast money burns, and whatever limits, executor, policies and prices surround it. The kill
      switch is the only part left to a setting. */
  lemma ExhaustedBudgetStopsAll(t: CB.Thresholds, rs: seq<CB.Reading>, r: CB.Reading, s: Surroundings)
    requires CB.OrderedThresholds(t) && r.spend >= r.budget
    ensures var d := CB.Decide(t, CB.After(t, rs), r);
            && d.action == CB.Block
            && Pacing(s, d) == Gov.Defer
            && Applied(s, d) == 0
            && (forall i :: 0 <= i < |Bids(s, d)| ==> !Bids(s, d)[i].selected)
            && (Kills(s, d) <==> s.killMode == "armed")
  {
    hide Auto.Decisions, Bid.Plan, CB.Transition, CB.EvaluateEscalation;
    var d := CB.Decide(t, CB.After(t, rs), r);
    CB.ExhaustedBlocks(t, rs, r);
    CB.EscalationFiresIff(t, rs, r, s.killMode);
    Auto.StoppedBreakerAppliesNothing(Handed(s, d).run, Sort(s.signals, Auto.SignalLe), 0, 0, 0);
    Bid.HardBlockSelectsNothing(s.prices, Handed(s, d).bidding);
  }

  /** While there is budget left the kill switch never fires, in any mode and any breaker state. */
  lemma KillNeedsExhaustion(t: CB.Thresholds, rs: seq<CB.Reading>, r: CB.Reading, s: Surroundings)
    requires CB.OrderedThresholds(t) && Kills(s, CB.Decide(t, CB.After(t, rs), r))
    ensures r.spend >= r.budget && Applied(s, CB.Decide(t, CB.After(t, rs), r)) == 0
  {
    CB.EscalationFiresIff(t, rs, r, s.killMode);
    ExhaustedBudgetStopsAll(t, rs, r, s);
  }

  /** The controls while the breaker withholds `allow`: pacing is at least throttled, nothing is
      applied automatically, and no bid goes above the policy's target price. */
  lemma WithheldControls(d: CB.Decision, s: Surroundings, lane: nat)
    requires d.action != CB.Allow && Gov.ValidSlo(s.slo) && lane < |Bids(s, d)|
    ensures Pacing(s, d) != Gov.Allow
    ensures Applied(s, d) == 0
    ensures Bids(s, d)[lane].selected ==> Bids(s, d)[lane].bid <= s.bidding.target
  {
    hide Bids, Auto.Decisions, Gov.Decide, Gov.Ratio, Gov.RequestRatio, Sort;
    Gov.DecideIsJoin(s.slo, Gov.Ratio(s.burnPerDay, s.slo.perDayTarget), Gov.RequestRatio(s.slo, s.costs), Some(d.action));
    Auto.StoppedBreakerAppliesNothing(Handed(s, d).run, Sort(s.signals, Auto.SignalLe), 0, 0, 0);
    WithheldBids(d, s, lane);
  }

  lemma WithheldBids(d: CB.Decision, s: Surroundings, lane: nat)
    requires d.action != CB.Allow && lane < |Bids(s, d)|
    ensures Bids(s, d)[lane].selected ==> Bids(s, d)[lane].bid <= s.bidding.target
  {
    hide Bid.Plan, Bid.EffectiveMax;
    var p := Handed(s, d).bidding;
    if d.action == CB.Block {
      Bid.HardBlockSelectsNothing(s.prices, p);
    } else {
      Bid.PlanWithinMax(s.prices, p, lane);
      DowngradedMax(p);
    }
  }

  lemma DowngradedMax(p: Bid.Policy)
    requires p.budget.Some? && p.budget.value.action == CB.Downgrade
    ensures Bid.EffectiveMax(p) <= p.target
  {
  }

  /** A headroom trip latches the whole loop for the rest of the month: at every later evaluation
      pacing stays at least throttled, the autopilot applies nothing and bids stay at or below
      target, whatever the burn rates and however long the cooldown. */
  lemma HeadroomTripLatches(t: CB.Thresholds, rs: seq<CB.Reading>, k: nat, i: nat, s: Surroundings, lane: nat)
    requires CB.MonthOfSpending(rs) && t.recoveryHeadroom > t.headroomTrip && k <= i < |rs|
    requires CB.TripsAt(t, rs, k) && CB.HeadroomPct(rs[k]) <= t.headroomTrip
    requires Gov.ValidSlo(s.slo) && lane < |Bids(s, CB.DecisionAt(t, rs, i))|
    ensures var d := CB.DecisionAt(t, rs, i);
            && Pacing(s, d) != Gov.Allow
            && Applied(s, d) == 0
            && (Bids(s, d)[lane].selected ==> Bids(s, d)[lane].bid <= s.bidding.target)
  {
    CB.NoAllowAfterHeadroomTrip(t, rs, k, i);
    WithheldControls(CB.DecisionAt(t, rs, i), s, lane);
  }
}
