/** Spot bidding: greedy selection along the sorted prices, and its optimality. Prices are
    already quantized to micro-dollars when the records are built. */
module Bidding {
  import opened Options
  import opened Sorting
  import CB = CircuitBreaker

  datatype SpotPrice = SpotPrice(
    provider: string,
    resource: string,
    gpu: string,
    minimum: nat,
    current: Option<nat>,
    gpuCount: nat,
    available: bool)

  /** The outcome of the policy engine; `firstViolation` is the id of the first violated policy. */
  datatype PolicyEvaluation = PolicyEvaluation(allowed: bool, firstViolation: Option<string>)

  datatype Policy = Policy(
    target: nat,
    maxPrice: nat,
    capacity: nat,
    maxParallel: nat,
    increment: nat,
    minAdjustment: nat,
    maxTotal: Option<nat>,
    allowDecrease: bool,
    dryRun: bool,
    evaluation: Option<PolicyEvaluation>,
    budget: Option<CB.Decision>)

  function SelectionLimit(p: Policy): nat {
    if p.capacity <= p.maxParallel then p.capacity else p.maxParallel
  }

  function EffectiveMax(p: Policy): nat {
    if p.budget.Some? && p.budget.value.action == CB.Downgrade
    then (if p.maxPrice <= p.target then p.maxPrice else p.target)
    else p.maxPrice
  }

  datatype Kind = Place | Raise | Lower | Hold | BlockBid

  datatype BidAction = BidAction(
    provider: string,
    resource: string,
    gpu: string,
    action: Kind,
    bid: nat,
    minimum: nat,
    previous: Option<nat>,
    gpuCount: nat,
    selected: bool,
    rank: Option<nat>,
    dryRun: bool,
    reason: string)

  function PriceKey(p: SpotPrice): Key {
    Key(p.minimum, [p.provider, p.resource, p.gpu])
  }

  predicate PriceLe(a: SpotPrice, b: SpotPrice) {
    KeyLe(PriceKey(a), PriceKey(b))
  }

  lemma PriceLeTotalPreorder()
    ensures TotalPreorder(PriceLe)
  {
    KeyLeTotalPreorder();
  }

  function DesiredBid(price: SpotPrice, p: Policy): nat {
    if price.minimum <= p.target then p.target else price.minimum + p.increment
  }

  function ActionForBid(price: SpotPrice, p: Policy, desired: nat): (Kind, string) {
    match price.current
    case None =>
      (Place, if desired == p.target then "place bid at target" else "place bid to clear current market")
    case Some(current) =>
      if desired - current > p.minAdjustment then (Raise, "raise bid to clear current market")
      else if current - desired > p.minAdjustment then
        if p.allowDecrease then
          (Lower, if desired == p.target then "lower bid to target" else "lower bid to current market")
        else (Hold, "current bid above desired; decrease disabled")
      else (Hold, "current bid already within adjustment band")
  }

  /** A blocked bid of zero falls back to the lane's minimum, as the falsy default does. */
  function BlockedAction(price: SpotPrice, reason: string, dryRun: bool, bid: nat): BidAction {
    BidAction(price.provider, price.resource, price.gpu, BlockBid, if bid == 0 then price.minimum else bid,
              price.minimum, price.current, price.gpuCount, false, None, dryRun, reason)
  }

  function CandidateAction(price: SpotPrice, p: Policy, effectiveMax: nat): BidAction {
    if !price.available then BlockedAction(price, "capacity unavailable", p.dryRun, 0)
    else
      var desired := DesiredBid(price, p);
      if desired > effectiveMax then BlockedAction(price, "minimum bid exceeds max price", p.dryRun, effectiveMax)
      else
        var (action, reason) := ActionForBid(price, p, desired);
        BidAction(price.provider, price.resource, price.gpu, action, desired, price.minimum, price.current,
                  price.gpuCount, false, None, p.dryRun, reason)
  }

  function HardBlockReason(p: Policy): Option<string> {
    if p.evaluation.Some? && !p.evaluation.value.allowed then
      Some(if p.evaluation.value.firstViolation.Some?
           then "policy denied: " + p.evaluation.value.firstViolation.value else "policy denied")
    else if p.budget.Some? && p.budget.value.action == CB.Block then Some(p.budget.value.reason)
    else None
  }

  // ------------------------------------------------------------- the selection loop

  function SelectedCopy(a: BidAction, rank: nat, dryRun: bool): BidAction {
    a.(selected := true, rank := Some(rank), dryRun := dryRun)
  }

  function HoldCopy(a: BidAction, reason: string, dryRun: bool): BidAction {
    a.(action := Hold, selected := false, rank := None, dryRun := dryRun, reason := reason)
  }

  function BlockCopy(a: BidAction, reason: string, dryRun: bool): BidAction {
    a.(action := BlockBid, selected := false, rank := None, dryRun := dryRun, reason := reason)
  }

  /** Whether the loop selects the candidate, given how many lanes it already holds and what they
      cost. */
  predicate Takes(a: BidAction, p: Policy, count: nat, total: nat) {
    && a.action != BlockBid && count < SelectionLimit(p)
    && (p.maxTotal.Some? ==> total + a.bid <= p.maxTotal.value)
  }

  function Finalize(a: BidAction, p: Policy, count: nat, total: nat): BidAction {
    if a.action == BlockBid then a
    else if count >= SelectionLimit(p) then HoldCopy(a, "not selected", p.dryRun)
    else if !Takes(a, p, count, total) then BlockCopy(a, "budget bid cap exceeded", p.dryRun)
    else SelectedCopy(a, count + 1, p.dryRun)
  }

  /** The final actions of the remaining candidates. */
  function Select(candidates: seq<BidAction>, p: Policy, count: nat, total: nat): seq<BidAction>
    decreases |candidates|
  {
    if candidates == [] then []
    else
      var a := candidates[0];
      var taken := Takes(a, p, count, total);
      [Finalize(a, p, count, total)]
      + Select(candidates[1..], p, if taken then count + 1 else count, if taken then total + a.bid else total)
  }

  function Candidates(prices: seq<SpotPrice>, p: Policy): (cs: seq<BidAction>)
    ensures |cs| == |prices|
    ensures forall i :: 0 <= i < |prices| ==> cs[i] == CandidateAction(prices[i], p, EffectiveMax(p))
  {
    if prices == [] then [] else [CandidateAction(prices[0], p, EffectiveMax(p))] + Candidates(prices[1..], p)
  }

  function BlockAll(prices: seq<SpotPrice>, p: Policy, reason: string): (actions: seq<BidAction>)
    ensures |actions| == |prices|
    ensures forall i :: 0 <= i < |prices| ==> actions[i] == BlockedAction(prices[i], reason, p.dryRun, 0)
  {
    if prices == [] then [] else [BlockedAction(prices[0], reason, p.dryRun, 0)] + BlockAll(prices[1..], p, reason)
  }

  function Plan(prices: seq<SpotPrice>, p: Policy): seq<BidAction> {
    var sorted := Sort(prices, PriceLe);
    if HardBlockReason(p).Some? then BlockAll(sorted, p, HardBlockReason(p).value)
    else Select(Candidates(sorted, p), p, 0, 0)
  }

  /** `BiddingEngine.evaluate`. */
  method Evaluate(prices: seq<SpotPrice>, p: Policy) returns (finalActions: seq<BidAction>)
    ensures finalActions == Plan(prices, p)
  {
    var hardBlock := HardBlockReason(p);
    var sorted := Sort(prices, PriceLe);
    if hardBlock.Some? {
      return BlockAll(sorted, p, hardBlock.value);
    }
    var candidates := Candidates(sorted, p);
    finalActions := SelectLanes(candidates, p);
  }

  lemma SelectRound(done: seq<BidAction>, candidates: seq<BidAction>, i: nat, p: Policy, count: nat, total: nat)
    requires i < |candidates|
    ensures done + Select(candidates[i..], p, count, total)
         == done + [Finalize(candidates[i], p, count, total)]
            + Select(candidates[i + 1..], p,
                     if Takes(candidates[i], p, count, total) then count + 1 else count,
                     if Takes(candidates[i], p, count, total) then total + candidates[i].bid else total)
  {
    assert candidates[i..][1..] == candidates[i + 1..];
  }

  /** The loop over the candidate actions. */
  method SelectLanes(candidates: seq<BidAction>, p: Policy) returns (finalActions: seq<BidAction>)
    ensures finalActions == Select(candidates, p, 0, 0)
  {
    hide HoldCopy, BlockCopy, SelectedCopy, Select;
    var selected: seq<BidAction> := [];
    finalActions := [];
    var runningTotal: nat := 0;
    assert candidates[0..] == candidates;
    for i := 0 to |candidates|
      invariant finalActions + Select(candidates[i..], p, |selected|, runningTotal) == Select(candidates, p, 0, 0)
    {
      var action := candidates[i];
      SelectRound(finalActions, candidates, i, p, |selected|, runningTotal);
      if action.action == BlockBid {
        finalActions := finalActions + [action];
        continue;
      }
      if |selected| >= SelectionLimit(p) {
        finalActions := finalActions + [HoldCopy(action, "not selected", p.dryRun)];
        continue;
      }
      var nextTotal := runningTotal + action.bid;
      if p.maxTotal.Some? && nextTotal > p.maxTotal.value {
        finalActions := finalActions + [BlockCopy(action, "budget bid cap exceeded", p.dryRun)];
        continue;
      }
      var selectedAction := SelectedCopy(action, |selected| + 1, p.dryRun);
      selected := selected + [selectedAction];
      finalActions := finalActions + [selectedAction];
      runningTotal := nextTotal;
    }
    assert finalActions + Select([], p, |selected|, runningTotal) == finalActions by {
      SelectLength([], p, |selected|, runningTotal);
    }
    assert candidates[|candidates|..] == [];
  }

  // ------------------------------------------------------------- eligible lanes

  /** The bids of the lanes that may be selected, in price order. */
  function EligibleBids(candidates: seq<BidAction>): seq<nat> {
    if candidates == [] then []
    else (if candidates[0].action == BlockBid then [] else [candidates[0].bid]) + EligibleBids(candidates[1..])
  }

  function SelectedBids(actions: seq<BidAction>): seq<nat> {
    if actions == [] then []
    else (if actions[0].selected then [actions[0].bid] else []) + SelectedBids(actions[1..])
  }

  function Sum(bids: seq<nat>): nat {
    if bids == [] then 0 else Sum(bids[..|bids| - 1]) + bids[|bids| - 1]
  }

  ghost predicate NonDecreasing(bids: seq<nat>) {
    forall i, j :: 0 <= i < j < |bids| ==> bids[i] <= bids[j]
  }

  /** Sorting by minimum price sorts the desired bids too. */
  lemma DesiredBidMonotone(a: SpotPrice, b: SpotPrice, p: Policy)
    requires PriceLe(a, b)
    ensures DesiredBid(a, p) <= DesiredBid(b, p)
  {
  }

  lemma EligibleFrom(candidates: seq<BidAction>, bids: seq<nat>)
    requires candidates != [] && candidates[0].action != BlockBid && bids == EligibleBids(candidates)
    ensures bids != [] && bids[0] == candidates[0].bid && bids[1..] == EligibleBids(candidates[1..])
  {
  }

  lemma EligibleSkip(candidates: seq<BidAction>)
    requires candidates != [] && candidates[0].action == BlockBid
    ensures EligibleBids(candidates) == EligibleBids(candidates[1..])
  {
  }

  lemma {:induction false} EligibleBounded(prices: seq<SpotPrice>, p: Policy, low: nat)
    requires forall i :: 0 <= i < |prices| ==> low <= DesiredBid(prices[i], p)
    ensures forall k :: 0 <= k < |EligibleBids(Candidates(prices, p))| ==> low <= EligibleBids(Candidates(prices, p))[k]
  {
    if prices != [] {
      EligibleBounded(prices[1..], p, low);
      assert Candidates(prices, p)[1..] == Candidates(prices[1..], p);
    }
  }

  /** Eligible bids never decrease along the sorted prices. */
  lemma {:induction false} EligibleNonDecreasing(prices: seq<SpotPrice>, p: Policy)
    requires Sorted(prices, PriceLe)
    ensures NonDecreasing(EligibleBids(Candidates(prices, p)))
  {
    if prices != [] {
      EligibleNonDecreasing(prices[1..], p);
      var bids := EligibleBids(Candidates(prices[1..], p));
      assert Candidates(prices, p)[1..] == Candidates(prices[1..], p);
      forall i | 0 <= i < |prices[1..]| ensures DesiredBid(prices[0], p) <= DesiredBid(prices[1..][i], p) {
        assert prices[1..][i] == prices[i + 1];
        DesiredBidMonotone(prices[0], prices[i + 1], p);
      }
      EligibleBounded(prices[1..], p, DesiredBid(prices[0], p));
    }
  }

  // ------------------------------------------------------------- what greedy selects

  /** A bid fits when the count limit and the total cap both leave room for it. */
  predicate Fits(p: Policy, count: nat, total: nat) {
    count <= SelectionLimit(p) && (p.maxTotal.Some? ==> total <= p.maxTotal.value)
  }

  ghost predicate NoneFits(bids: seq<nat>, p: Policy, count: nat, total: nat) {
    forall k :: 0 <= k < |bids| ==> !Fits(p, count + 1, total + bids[k])
  }

  lemma {:induction false} SumPrefix(bids: seq<nat>, k: nat)
    requires k < |bids|
    ensures Sum(bids[..k + 1]) == Sum(bids[..k]) + bids[k]
  {
    assert bids[..k + 1][..k] == bids[..k];
  }

  lemma {:induction false} SumCons(b: nat, bids: seq<nat>)
    ensures Sum([b] + bids) == b + Sum(bids)
  {
    if bids == [] {
      assert ([b] + bids)[..0] == [];
    } else {
      var n := |bids| - 1;
      SumCons(b, bids[..n]);
      assert ([b] + bids)[..n + 1] == [b] + bids[..n];
    }
  }

  /** The rest of a non-decreasing run cannot be selected once one of its bids is refused. */
  lemma {:induction false} NothingFitsLater(candidates: seq<BidAction>, p: Policy, count: nat, total: nat)
    requires forall i :: 0 <= i < |candidates| ==> !candidates[i].selected
    requires NoneFits(EligibleBids(candidates), p, count, total)
    ensures SelectedBids(Select(candidates, p, count, total)) == []
    decreases |candidates|
  {
    if candidates != [] {
      var bids := EligibleBids(candidates);
      var rest := EligibleBids(candidates[1..]);
      assert NoneFits(rest, p, count, total) by {
        forall k | 0 <= k < |rest| ensures !Fits(p, count + 1, total + rest[k]) {
          assert rest[k] == bids[k + |bids| - |rest|];
        }
      }
      NothingFitsLater(candidates[1..], p, count, total);
      if candidates[0].action != BlockBid {
        assert bids[0] == candidates[0].bid;
        assert !Fits(p, count + 1, total + bids[0]);
      }
    }
  }

  /** `chosen` is the prefix of `bids` at which greedy stops, starting from `count` and `total`. */
  ghost predicate GreedyPrefix(bids: seq<nat>, chosen: seq<nat>, p: Policy, count: nat, total: nat) {
    && |chosen| <= |bids| && chosen == bids[..|chosen|]
    && Fits(p, count + |chosen|, total + Sum(chosen))
    && (|chosen| < |bids| ==> !Fits(p, count + |chosen| + 1, total + Sum(chosen) + bids[|chosen|]))
  }

  lemma GreedyCons(bids: seq<nat>, more: seq<nat>, p: Policy, count: nat, total: nat)
    requires bids != [] && GreedyPrefix(bids[1..], more, p, count + 1, total + bids[0])
    ensures GreedyPrefix(bids, [bids[0]] + more, p, count, total)
  {
    SumCons(bids[0], more);
    assert [bids[0]] + more == bids[..|more| + 1];
    if |more| + 1 < |bids| {
      assert bids[1..][|more|] == bids[|more| + 1];
    }
  }

  /** One round of the selection loop. */
  lemma SelectHead(cs: seq<BidAction>, p: Policy, count: nat, total: nat)
    requires cs != []
    ensures Takes(cs[0], p, count, total) == (cs[0].action != BlockBid && Fits(p, count + 1, total + cs[0].bid))
    ensures var takes := Takes(cs[0], p, count, total);
            var plan := Select(cs, p, count, total);
            && plan != []
            && plan[1..] == (if takes then Select(cs[1..], p, count + 1, total + cs[0].bid)
                             else Select(cs[1..], p, count, total))
            && (takes ==> plan[0] == SelectedCopy(cs[0], count + 1, p.dryRun))
            && (!takes ==> plan[0].selected == (cs[0].action == BlockBid && cs[0].selected))
  {
  }

  /** Greedy takes a prefix of the eligible bids, and stops only at the count limit, the total cap
      or the end of the list. */
  lemma {:induction false} SelectsPrefix(candidates: seq<BidAction>, p: Policy, count: nat, total: nat)
    requires forall i :: 0 <= i < |candidates| ==> !candidates[i].selected
    requires NonDecreasing(EligibleBids(candidates)) && Fits(p, count, total)
    ensures GreedyPrefix(EligibleBids(candidates), SelectedBids(Select(candidates, p, count, total)), p, count, total)
    decreases |candidates|
  {
    hide Select, GreedyPrefix, Takes, Fits, EligibleBids, NonDecreasing, NoneFits;
    if candidates == [] {
      SelectNone(p, count, total);
    } else {
      var a, rest := candidates[0], candidates[1..];
      var bids := EligibleBids(candidates);
      SelectHead(candidates, p, count, total);
      if a.action == BlockBid {
        EligibleSkip(candidates);
        SelectsPrefix(rest, p, count, total);
        assert SelectedBids(Select(candidates, p, count, total)) == SelectedBids(Select(rest, p, count, total));
      } else {
        EligibleFrom(candidates, bids);
        if Fits(p, count + 1, total + a.bid) {
          TailNonDecreasing(bids);
          SelectsPrefix(rest, p, count + 1, total + a.bid);
          var more := SelectedBids(Select(rest, p, count + 1, total + a.bid));
          GreedyCons(bids, more, p, count, total);
          assert SelectedBids(Select(candidates, p, count, total)) == [a.bid] + more;
        } else {
          FirstRefusesAll(bids, p, count, total);
          NothingFitsLater(candidates, p, count, total);
          GreedyStops(bids, p, count, total);
        }
      }
    }
  }

  lemma SelectNone(p: Policy, count: nat, total: nat)
    requires Fits(p, count, total)
    ensures GreedyPrefix(EligibleBids([]), SelectedBids(Select([], p, count, total)), p, count, total)
  {
  }

  lemma FirstRefusesAll(bids: seq<nat>, p: Policy, count: nat, total: nat)
    requires bids != [] && NonDecreasing(bids) && !Fits(p, count + 1, total + bids[0])
    ensures NoneFits(bids, p, count, total)
  {
    forall k | 0 <= k < |bids| ensures !Fits(p, count + 1, total + bids[k]) {
      assert k == 0 || bids[0] <= bids[k];
    }
  }

  lemma GreedyStops(bids: seq<nat>, p: Policy, count: nat, total: nat)
    requires Fits(p, count, total) && NoneFits(bids, p, count, total)
    ensures GreedyPrefix(bids, [], p, count, total)
  {
  }

  lemma TailNonDecreasing(bids: seq<nat>)
    requires bids != [] && NonDecreasing(bids)
    ensures NonDecreasing(bids[1..])
  {
    forall i, j | 0 <= i < j < |bids[1..]| ensures bids[1..][i] <= bids[1..][j] {
      assert bids[i + 1] <= bids[j + 1];
    }
  }

  // ------------------------------------------------------------- optimality

  /** A set of eligible lanes: which of them are taken. */
  function Count(mask: seq<bool>): nat {
    if mask == [] then 0 else Count(mask[..|mask| - 1]) + if mask[|mask| - 1] then 1 else 0
  }

  function CostOf(bids: seq<nat>, mask: seq<bool>): nat
    requires |mask| == |bids|
  {
    if mask == [] then 0
    else
      var n := |mask| - 1;
      CostOf(bids[..n], mask[..n]) + if mask[n] then bids[n] else 0
  }

  lemma {:induction false} CountBounded(mask: seq<bool>)
    ensures Count(mask) <= |mask|
  {
    if mask != [] {
      CountBounded(mask[..|mask| - 1]);
    }
  }

  /** Exchange: any set of lanes costs at least as much as the cheapest prefix of its size. */
  lemma {:induction false} PrefixIsCheapest(bids: seq<nat>, mask: seq<bool>)
    requires |mask| == |bids| && NonDecreasing(bids)
    ensures Count(mask) <= |bids| && Sum(bids[..Count(mask)]) <= CostOf(bids, mask)
  {
    CountBounded(mask);
    if mask != [] {
      var n := |mask| - 1;
      PrefixIsCheapest(bids[..n], mask[..n]);
      var c := Count(mask[..n]);
      assert bids[..n][..c] == bids[..c];
      if mask[n] {
        SumPrefix(bids, c);
        assert c == n || bids[c] <= bids[n];
      }
    }
  }

  lemma {:induction false} SumPrefixMonotone(bids: seq<nat>, j: nat, k: nat)
    requires j <= k <= |bids|
    ensures Sum(bids[..j]) <= Sum(bids[..k])
    decreases k
  {
    if j < k {
      SumPrefixMonotone(bids, j, k - 1);
      SumPrefix(bids, k - 1);
    }
  }

  /** The lanes that could be bid on at all: available, and affordable at the effective maximum.
      Their bids, in the plan's price order. */
  function LaneBids(prices: seq<SpotPrice>, p: Policy): seq<nat> {
    if prices == [] then []
    else (if prices[0].available && DesiredBid(prices[0], p) <= EffectiveMax(p)
          then [DesiredBid(prices[0], p)] else []) + LaneBids(prices[1..], p)
  }

  lemma {:induction false} LanesAreEligible(prices: seq<SpotPrice>, p: Policy)
    ensures EligibleBids(Candidates(prices, p)) == LaneBids(prices, p)
  {
    if prices != [] {
      LanesAreEligible(prices[1..], p);
      assert Candidates(prices, p)[1..] == Candidates(prices[1..], p);
    }
  }

  /** The plan is optimal. Without a hard block, the selected bids are a prefix of the lane bids
      within both caps; every other set of lanes within both caps has at most as many lanes, and
      one of the same size costs at least as much. */
  lemma PlanIsOptimal(prices: seq<SpotPrice>, p: Policy, mask: seq<bool>)
    requires HardBlockReason(p).None?
    requires |mask| == |LaneBids(Sort(prices, PriceLe), p)|
    requires Fits(p, Count(mask), CostOf(LaneBids(Sort(prices, PriceLe), p), mask))
    ensures var chosen, bids := SelectedBids(Plan(prices, p)), LaneBids(Sort(prices, PriceLe), p);
            && |chosen| <= |bids| && chosen == bids[..|chosen|] && NonDecreasing(bids)
            && Fits(p, |chosen|, Sum(chosen))
            && Count(mask) <= |chosen|
            && (Count(mask) == |chosen| ==> Sum(chosen) <= CostOf(bids, mask))
  {
    var sorted := Sort(prices, PriceLe);
    var bids := LaneBids(sorted, p);
    var chosen := SelectedBids(Plan(prices, p));
    PlanIsGreedy(prices, p);
    PrefixIsCheapest(bids, mask);
    if Count(mask) > |chosen| {
      SumPrefix(bids, |chosen|);
      SumPrefixMonotone(bids, |chosen| + 1, Count(mask));
    }
  }

  lemma PlanIsGreedy(prices: seq<SpotPrice>, p: Policy)
    requires HardBlockReason(p).None?
    ensures NonDecreasing(LaneBids(Sort(prices, PriceLe), p))
    ensures GreedyPrefix(LaneBids(Sort(prices, PriceLe), p), SelectedBids(Plan(prices, p)), p, 0, 0)
  {
    var sorted := Sort(prices, PriceLe);
    PriceLeTotalPreorder();
    SortSorted(prices, PriceLe);
    EligibleNonDecreasing(sorted, p);
    LanesAreEligible(sorted, p);
    SelectsPrefix(Candidates(sorted, p), p, 0, 0);
  }

  lemma CandidateBounded(price: SpotPrice, p: Policy)
    ensures var a := CandidateAction(price, p, EffectiveMax(p));
            && !a.selected && a.provider == price.provider
            && (a.action != BlockBid ==>
                  price.available && price.minimum <= a.bid <= EffectiveMax(p) && a.bid == DesiredBid(price, p))
  {
  }

  /** A bid already placed moves toward the desired bid: it is raised exactly when it lies below by
      more than the adjustment, lowered exactly when it lies above by more and decreases are
      allowed, and held exactly within the band or when only a forbidden decrease would move it. */
  lemma BidMovesTowardDesired(price: SpotPrice, p: Policy)
    requires price.available && DesiredBid(price, p) <= EffectiveMax(p)
    ensures var a := CandidateAction(price, p, EffectiveMax(p));
            && (a.action == Place <==> price.current.None?)
            && (a.action == Raise <==> price.current.Some? && price.current.value + p.minAdjustment < a.bid)
            && (a.action == Lower <==> price.current.Some? && a.bid + p.minAdjustment < price.current.value && p.allowDecrease)
            && (a.action == Hold <==> price.current.Some? && a.bid <= price.current.value + p.minAdjustment
                                      && (price.current.value <= a.bid + p.minAdjustment || !p.allowDecrease))
  {
  }

  /** A lane too dear for the effective maximum reports that maximum, except that a maximum of
      zero reads as absent and the lane's own minimum is reported instead. */
  lemma UnaffordableLaneReport(price: SpotPrice, p: Policy)
    requires price.available && DesiredBid(price, p) > EffectiveMax(p)
    ensures var a := CandidateAction(price, p, EffectiveMax(p));
            && a.action == BlockBid && !a.selected
            && (a.bid == EffectiveMax(p) <==> EffectiveMax(p) > 0 || price.minimum == 0)
  {
  }

  /** The oddity at a concrete input: nothing may be paid, and the lane asks for five. */
  lemma ZeroMaximumReportsMinimum()
    ensures var price := SpotPrice("p", "r", "g", 5, None, 1, true);
            var p := Policy(0, 0, 1, 1, 0, 0, None, true, false, None, None);
            && EffectiveMax(p) == 0
            && CandidateAction(price, p, EffectiveMax(p)).action == BlockBid
            && CandidateAction(price, p, EffectiveMax(p)).bid == 5
  {
  }

  /** What the plan promises about the lane at `i` if it is selected. */
  ghost predicate SelectedWell(price: SpotPrice, p: Policy, a: BidAction, rank: nat) {
    a.selected ==>
      && price.available && price.minimum <= a.bid <= EffectiveMax(p)
      && a.bid == DesiredBid(price, p) && a.provider == price.provider && a.rank == Some(rank)
  }

  /** Every selected bid lies between its lane's minimum and the effective maximum, and the
      selected lanes carry the ranks one, two, three, ... in price order. */
  lemma {:induction false} SelectedBidsBounded(prices: seq<SpotPrice>, p: Policy, count: nat, total: nat, i: nat)
    requires i < |prices|
    ensures var plan := Select(Candidates(prices, p), p, count, total);
            && |plan| == |prices|
            && SelectedWell(prices[i], p, plan[i], count + 1 + |SelectedBids(plan[..i])|)
    decreases |prices|
  {
    hide Select, Takes, CandidateAction, DesiredBid, EffectiveMax, Candidates, Fits;
    var cs := Candidates(prices, p);
    var plan := Select(cs, p, count, total);
    SelectLength(cs, p, count, total);
    SelectHead(cs, p, count, total);
    assert cs[1..] == Candidates(prices[1..], p);
    CandidateBounded(prices[0], p);
    if i > 0 {
      hide SelectedWell;
      assert plan[..i][1..] == plan[1..][..i - 1];
      if plan[0].selected {
        SelectedBidsBounded(prices[1..], p, count + 1, total + cs[0].bid, i - 1);
      } else {
        SelectedBidsBounded(prices[1..], p, count, total, i - 1);
      }
    }
  }

  /** No selected bid of a plan exceeds the effective maximum. */
  lemma PlanWithinMax(prices: seq<SpotPrice>, p: Policy, lane: nat)
    requires lane < |Plan(prices, p)|
    ensures Plan(prices, p)[lane].selected ==> Plan(prices, p)[lane].bid <= EffectiveMax(p)
  {
    hide Select, CandidateAction, Sort, EffectiveMax, DesiredBid, Candidates;
    if HardBlockReason(p).Some? {
      HardBlockSelectsNothing(prices, p);
    } else {
      SortPermutes(prices, PriceLe);
      SelectLength(Candidates(Sort(prices, PriceLe), p), p, 0, 0);
      SelectedBidsBounded(Sort(prices, PriceLe), p, 0, 0, lane);
    }
  }

  lemma {:induction false} SelectLength(cs: seq<BidAction>, p: Policy, count: nat, total: nat)
    ensures |Select(cs, p, count, total)| == |cs|
    decreases |cs|
  {
    if cs != [] {
      SelectLength(cs[1..], p, count, total);
      SelectLength(cs[1..], p, count + 1, total + cs[0].bid);
    }
  }

  /** A hard block selects nothing. */
  lemma HardBlockSelectsNothing(prices: seq<SpotPrice>, p: Policy)
    requires HardBlockReason(p).Some?
    ensures |Plan(prices, p)| == |prices|
    ensures forall i :: 0 <= i < |Plan(prices, p)| ==> !Plan(prices, p)[i].selected && Plan(prices, p)[i].action == BlockBid
  {
    SortPermutes(prices, PriceLe);
  }

  /** The plan does not depend on the order in which the price feeds delivered the lanes. */
  lemma PlanIgnoresOrder(prices: seq<SpotPrice>, shuffled: seq<SpotPrice>, p: Policy)
    requires multiset(prices) == multiset(shuffled) && DistinctKeys(prices, PriceLe)
    ensures Plan(prices, p) == Plan(shuffled, p)
  {
    PriceLeTotalPreorder();
    SortIgnoresOrder(prices, shuffled, PriceLe);
  }
}
