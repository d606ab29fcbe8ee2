/** Tagged partitions of the monthly budget, enforced in memory in front of the global gate. */
module SubBudgets {
  import opened Options
  import opened Admission
  import opened BudgetGate
  import Money

  /** Allocations and spends are exact decimals: nothing here is rounded. */
  datatype SubBudget = SubBudget(tag: string, allocation: real)

  datatype ConfigError = DuplicateTag | OverAllocated

  function Allocated(budgets: seq<SubBudget>): real {
    if budgets == [] then 0.0 else Allocated(budgets[..|budgets| - 1]) + budgets[|budgets| - 1].allocation
  }

  ghost predicate UniqueTags(budgets: seq<SubBudget>) {
    forall i, j :: 0 <= i < j < |budgets| ==> budgets[i].tag != budgets[j].tag
  }

  ghost predicate ValidBudgets(total: real, budgets: seq<SubBudget>) {
    && UniqueTags(budgets)
    && (forall b :: b in budgets ==> b.allocation >= 0.0)
    && Allocated(budgets) <= total
  }

  /** `_validate_budgets_sum`: the partition is accepted exactly when tags are unique and the
      allocations fit; a duplicate is reported before an overrun. */
  method ValidateBudgets(total: real, budgets: seq<SubBudget>) returns (r: Result<(), ConfigError>)
    requires forall b :: b in budgets ==> b.allocation >= 0.0
    ensures r.Ok? <==> ValidBudgets(total, budgets)
    ensures r == Err(DuplicateTag) <==> !UniqueTags(budgets)
  {
    BudgetsStart();
    hide Tags, UniqueTags, Allocated;
    var seen: set<string> := {};
    var duplicate := false;
    var sum := 0.0;
    for i := 0 to |budgets|
      invariant seen == Tags(budgets[..i])
      invariant duplicate <==> !UniqueTags(budgets[..i])
      invariant sum == Allocated(budgets[..i])
    {
      assert budgets[..i + 1] == budgets[..i] + [budgets[i]];
      UniqueTagsAppend(budgets[..i], budgets[i]);
      AllocatedAppend(budgets[..i], budgets[i]);
      if budgets[i].tag in seen {
        duplicate := true;
      }
      seen := seen + {budgets[i].tag};
      sum := sum + budgets[i].allocation;
    }
    assert budgets[..|budgets|] == budgets;
    return if duplicate then Err(DuplicateTag) else if sum > total then Err(OverAllocated) else Ok(());
  }

  lemma BudgetsStart()
    ensures Tags([]) == {} && UniqueTags([]) && Allocated([]) == 0.0
  {
  }

  function Tags(budgets: seq<SubBudget>): set<string> {
    set b | b in budgets :: b.tag
  }

  lemma AllocatedAppend(budgets: seq<SubBudget>, b: SubBudget)
    ensures Allocated(budgets + [b]) == Allocated(budgets) + b.allocation
  {
    assert (budgets + [b])[..|budgets|] == budgets;
  }

  lemma UniqueTagsAppend(budgets: seq<SubBudget>, b: SubBudget)
    ensures UniqueTags(budgets + [b]) <==> UniqueTags(budgets) && b.tag !in Tags(budgets)
    ensures Tags(budgets + [b]) == Tags(budgets) + {b.tag}
  {
    var all := budgets + [b];
    assert forall x :: x in all <==> x in budgets || x == b;
    assert b in all;
    if UniqueTags(all) {
      forall i, j | 0 <= i < j < |budgets| ensures budgets[i].tag != budgets[j].tag {
        assert all[i] == budgets[i] && all[j] == budgets[j];
      }
      forall i | 0 <= i < |budgets| ensures budgets[i].tag != b.tag {
        assert all[i] == budgets[i] && all[|budgets|] == b;
      }
    }
  }

  /** `allocation_for`: the first budget with the tag, or zero. */
  function AllocationFor(budgets: seq<SubBudget>, tag: string): real {
    if budgets == [] then 0.0
    else if budgets[0].tag == tag then budgets[0].allocation
    else AllocationFor(budgets[1..], tag)
  }

  lemma {:induction false} AllocationForTag(budgets: seq<SubBudget>, i: nat)
    requires i < |budgets| && UniqueTags(budgets)
    ensures AllocationFor(budgets, budgets[i].tag) == budgets[i].allocation
  {
    if i > 0 {
      assert budgets[0].tag != budgets[i].tag;
      AllocationForTag(budgets[1..], i - 1);
    }
  }

  lemma {:induction false} UnknownTagUnallocated(budgets: seq<SubBudget>, tag: string)
    requires forall i :: 0 <= i < |budgets| ==> budgets[i].tag != tag
    ensures AllocationFor(budgets, tag) == 0.0
  {
    if budgets != [] {
      UnknownTagUnallocated(budgets[1..], tag);
    }
  }

  // ------------------------------------------------------- admitted history

  datatype TagAdmission = TagAdmission(tag: string, estimate: real)

  function SpentOn(history: seq<TagAdmission>, tag: string): real {
    if history == [] then 0.0
    else
      var last := history[|history| - 1];
      SpentOn(history[..|history| - 1], tag) + if last.tag == tag then last.estimate else 0.0
  }

  function SpentInAll(history: seq<TagAdmission>): real {
    if history == [] then 0.0
    else SpentInAll(history[..|history| - 1]) + history[|history| - 1].estimate
  }

  lemma SpentAppend(history: seq<TagAdmission>, a: TagAdmission)
    ensures forall tag :: SpentOn(history + [a], tag)
              == SpentOn(history, tag) + if a.tag == tag then a.estimate else 0.0
    ensures SpentInAll(history + [a]) == SpentInAll(history) + a.estimate
  {
    assert (history + [a])[..|history|] == history;
  }

  function SpentAcross(history: seq<TagAdmission>, budgets: seq<SubBudget>): real {
    if budgets == [] then 0.0
    else SpentAcross(history, budgets[..|budgets| - 1]) + SpentOn(history, budgets[|budgets| - 1].tag)
  }

  predicate Configured(budgets: seq<SubBudget>, tag: string) {
    exists i :: 0 <= i < |budgets| && budgets[i].tag == tag
  }

  /** One more admission raises the sum across the budgets by its estimate, once, because
      exactly one budget carries its tag. */
  lemma {:induction false} SpentAcrossAppend(history: seq<TagAdmission>, a: TagAdmission, budgets: seq<SubBudget>)
    requires UniqueTags(budgets)
    ensures SpentAcross(history + [a], budgets)
         == SpentAcross(history, budgets) + if Configured(budgets, a.tag) then a.estimate else 0.0
  {
    if budgets != [] {
      var n := |budgets| - 1;
      SpentAcrossAppend(history, a, budgets[..n]);
      SpentAppend(history, a);
      assert Configured(budgets, a.tag) <==> Configured(budgets[..n], a.tag) || budgets[n].tag == a.tag by {
        if Configured(budgets[..n], a.tag) {
          var i :| 0 <= i < n && budgets[..n][i].tag == a.tag;
          assert budgets[i].tag == a.tag;
        }
        if Configured(budgets, a.tag) {
          var i :| 0 <= i < |budgets| && budgets[i].tag == a.tag;
          assert i < n ==> budgets[..n][i].tag == a.tag;
        }
      }
    } else {
      assert !Configured(budgets, a.tag);
    }
  }

  lemma {:induction false} NothingSpent(budgets: seq<SubBudget>)
    ensures SpentAcross([], budgets) == 0.0
  {
    if budgets != [] {
      NothingSpent(budgets[..|budgets| - 1]);
    }
  }

  lemma {:induction false} SpentAcrossAll(history: seq<TagAdmission>, budgets: seq<SubBudget>)
    requires UniqueTags(budgets) && forall a :: a in history ==> Configured(budgets, a.tag)
    ensures SpentAcross(history, budgets) == SpentInAll(history)
  {
    if history == [] {
      NothingSpent(budgets);
    } else {
      var n := |history| - 1;
      SpentAcrossAll(history[..n], budgets);
      assert history == history[..n] + [history[n]];
      SpentAcrossAppend(history[..n], history[n], budgets);
    }
  }

  lemma {:induction false} SpentWithinAllocations(history: seq<TagAdmission>, budgets: seq<SubBudget>)
    requires forall i :: 0 <= i < |budgets| ==> SpentOn(history, budgets[i].tag) <= budgets[i].allocation
    ensures SpentAcross(history, budgets) <= Allocated(budgets)
  {
    if budgets != [] {
      SpentWithinAllocations(history, budgets[..|budgets| - 1]);
    }
  }

  /** Tag by tag within the allocation, hence altogether within the configured total. */
  ghost predicate WithinAllocations(budgets: seq<SubBudget>, history: seq<TagAdmission>) {
    && (forall tag: string :: SpentOn(history, tag) <= AllocationFor(budgets, tag))
    && (forall a :: a in history ==> Configured(budgets, a.tag))
  }

  lemma TotalWithinBudget(total: real, budgets: seq<SubBudget>, history: seq<TagAdmission>)
    requires ValidBudgets(total, budgets) && WithinAllocations(budgets, history)
    ensures SpentInAll(history) <= total
  {
    SpentAcrossAll(history, budgets);
    forall i | 0 <= i < |budgets| ensures SpentOn(history, budgets[i].tag) <= budgets[i].allocation {
      AllocationForTag(budgets, i);
    }
    SpentWithinAllocations(history, budgets);
  }

  lemma PositiveAllocationConfigured(budgets: seq<SubBudget>, tag: string)
    requires AllocationFor(budgets, tag) > 0.0
    ensures Configured(budgets, tag)
  {
    if !Configured(budgets, tag) {
      UnknownTagUnallocated(budgets, tag);
    }
  }

  /** Admitting an estimate that the tag check accepted keeps every tag within its allocation. */
  lemma AdmitWithin(budgets: seq<SubBudget>, history: seq<TagAdmission>, tag: string, estimate: real)
    requires WithinAllocations(budgets, history)
    requires AllocationFor(budgets, tag) > 0.0
    requires SpentOn(history, tag) + estimate <= AllocationFor(budgets, tag)
    ensures WithinAllocations(budgets, history + [TagAdmission(tag, estimate)])
  {
    SpentAppend(history, TagAdmission(tag, estimate));
    PositiveAllocationConfigured(budgets, tag);
  }

  datatype TagCheck = UnknownTag | SubBudgetExceeded | Within(mtd: real)

  datatype Launch = TagRefused(check: TagCheck) | GateAnswered(outcome: Outcome)

  class SubBudgetGate {
    const total: real
    const budgets: seq<SubBudget>
    const gate: Gate
    var memory: map<string, real>
    /** The newly admitted estimates so far, in order. */
    ghost var history: seq<TagAdmission>

    ghost predicate Valid()
      reads this, gate
    {
      && ValidBudgets(total, budgets)
      && Inv(gate.cfg, gate.View())
      && (forall tag: string :: (if tag in memory then memory[tag] else 0.0) == SpentOn(history, tag))
      && WithinAllocations(budgets, history)
    }

    constructor (gate: Gate, total: real, budgets: seq<SubBudget>)
      requires ValidBudgets(total, budgets) && Inv(gate.cfg, gate.View())
      ensures Valid() && history == [] && this.gate == gate
      ensures this.total == total && this.budgets == budgets
    {
      this.gate, this.total, this.budgets := gate, total, budgets;
      memory := map[];
      history := [];
      new;
      forall tag: string ensures AllocationFor(budgets, tag) >= 0.0 {
        if Configured(budgets, tag) {
          var i :| 0 <= i < |budgets| && budgets[i].tag == tag;
          AllocationForTag(budgets, i);
        } else {
          UnknownTagUnallocated(budgets, tag);
        }
      }
    }

    /** `_validate_new_tag_admission` over the in-memory spend. */
    method ValidateNewTag(tag: string, estimate: real) returns (check: TagCheck)
      requires Valid()
      ensures check.UnknownTag? <==> AllocationFor(budgets, tag) <= 0.0
      ensures check.Within? <==> AllocationFor(budgets, tag) > 0.0
                                 && SpentOn(history, tag) + estimate <= AllocationFor(budgets, tag)
      ensures check.Within? ==> check.mtd == SpentOn(history, tag)
    {
      var allocation := AllocationFor(budgets, tag);
      if allocation <= 0.0 {
        return UnknownTag;
      }
      var mtd := if tag in memory then memory[tag] else 0.0;
      if mtd + estimate > allocation {
        return SubBudgetExceeded;
      }
      return Within(mtd);
    }

    /** `try_launch`, for calls that do not overlap on one gate object. With a key the tag check
        runs inside the admission, as its hook, and only when no workload carries the key yet. */
    method TryLaunch(c: nat, tag: string, req: Request, candidate: string) returns (r: Launch)
      requires Valid() && c !in gate.clients && (gate.cfg.quotesOnly ==> Money.OnGrid(req.estimate))
      modifies this, gate
      ensures Valid()
      // The history grows by this estimate exactly when the global gate admitted it as new.
      ensures history == if r.GateAnswered? && IsNewAdmission(r.outcome)
                         then old(history) + [TagAdmission(tag, req.estimate)] else old(history)
      ensures SpentInAll(history) <= total
      // Without a key a refused tag never reaches the global gate.
      ensures r.TagRefused? ==> req.key == None && !r.check.Within? && gate.View() == old(gate.View())
      ensures r.GateAnswered? ==> c in gate.clients && gate.clients[c].outcome == r.outcome
    {
      TotalWithinBudget(total, budgets, history);
      var check := ValidateNewTag(tag, req.estimate);
      if req.key == None && !check.Within? {
        return TagRefused(check);
      }
      var outcome := gate.TryLaunchAdmission(c, req, candidate, if req.key.Some? then Some(check.Within?) else None);
      if IsNewAdmission(outcome) {
        AdmitWithin(budgets, history, tag, req.estimate);
        SpentAppend(history, TagAdmission(tag, req.estimate));
        memory := memory[tag := check.mtd + req.estimate];
        history := history + [TagAdmission(tag, req.estimate)];
        TotalWithinBudget(total, budgets, history);
      }
      return GateAnswered(outcome);
    }
  }
}
