/** The chapter contracts and the whole validator of an adaptation revision, as the code runs them. */
module RevisionValidator {
  import opened Sequences
  import opened Text
  import Segments
  import opened RevisionSpec
  import opened RevisionTargets
  import opened RevisionCoverage
  import opened RevisionEvents

  // ---- Chapter contracts ------------------------------------------------------------------------

  method CheckList(values: seq<string>) returns (ok: bool)
    ensures ok == ListClean(values)
  {
    hide Trim;
    var seen: set<string> := {};
    for i := 0 to |values|
      invariant forall j | 0 <= j < i :: Trim(values[j]) != ""
      invariant forall j, k | 0 <= j < k < i :: Trim(values[j]) != Trim(values[k])
      invariant forall v :: v in seen <==> exists j | 0 <= j < i :: Trim(values[j]) == v
    {
      var value := Trim(values[i]);
      if value == "" || value in seen {
        return false;
      }
      seen := seen + {value};
    }
    ok := true;
  }

  method CheckBudget(policy: string, c: Chapter) returns (ok: bool)
    ensures ok == BudgetLegal(policy, c)
  {
    if c.targetRunes <= 0 || c.minRunes <= 0 || c.maxRunes < c.minRunes || c.targetRunes < c.minRunes || c.targetRunes > c.maxRunes {
      return false;
    }
    if c.maxRunes > Segments.MODEL_CHAPTER_MAX_RUNES {
      return false;
    }
    if c.budget.Some? {
      var b := c.budget.value;
      if (b.sourceRunes != 0 && b.sourceRunes != c.sourceRunes) || (b.targetRunes != 0 && b.targetRunes != c.targetRunes)
         || (b.minRunes != 0 && b.minRunes != c.minRunes) || (b.maxRunes != 0 && b.maxRunes != c.maxRunes) {
        return false;
      }
    }
    ok := !(policy == PRESERVE_DETAILS && !c.isAdded && c.sourceRunes <= 0 && |c.segments| == 0);
  }

  method CheckReady(policy: string, c: Chapter) returns (ok: bool)
    ensures ok == Ready(policy, c)
  {
    hide SomeText, BudgetLegal, ListClean, HasLineage;
    var changes := NonBlank(c.changes);
    var forbidden := NonBlank(c.forbidden);
    if !changes || !forbidden {
      return false;
    }
    var preserve := NonBlank(c.preserve);
    if HasLineage(c) && !preserve {
      return false;
    }
    ok := CheckBudget(policy, c);
    if !ok {
      return;
    }
    ok := CheckList(c.preserve);
    if ok {
      ok := CheckList(c.changes);
    }
    if ok {
      ok := CheckList(c.forbidden);
    }
  }

  ghost predicate IndexesRaw(index: map<string, Chapter>, chapters: seq<Chapter>) {
    forall id :: LatestRaw(chapters, id) == if id in index then Some(index[id]) else None
  }

  method ByRawId(chapters: seq<Chapter>) returns (index: map<string, Chapter>)
    ensures IndexesRaw(index, chapters)
  {
    index := map[];
    for i := 0 to |chapters|
      invariant IndexesRaw(index, chapters[..i])
    {
      Prefix(chapters, i);
      index := index[chapters[i].id := chapters[i]];
    }
    Whole(chapters);
  }

  method CheckContracts(base: Plan, plan: Plan) returns (ok: bool)
    ensures ok == ContractsHold(base, plan)
  {
    hide Ready, SameContract, LatestRaw, Signature;
    var index := ByRawId(base.chapters);
    for k := 0 to |plan.chapters|
      invariant forall j | 0 <= j < k :: ContractHolds(base, plan.policy, plan.chapters[j])
    {
      var c := plan.chapters[k];
      assert c in plan.chapters;
      var existed := c.id in index;
      var changed := !existed || Signature(index[c.id]) != Signature(c);
      assert changed == Changed(base, c);
      if !changed {
        continue;
      }
      if existed {
        if !SameContract(index[c.id], c) {
          assert !ContractHolds(base, plan.policy, c);
          return false;
        }
      }
      var ready := CheckReady(plan.policy, c);
      if !ready {
        assert !ContractHolds(base, plan.policy, c);
        return false;
      }
      assert ContractHolds(base, plan.policy, c);
    }
    ok := true;
  }

  // ---- The validator ----------------------------------------------------------------------------

  method CheckMode(base: Plan, plan: Plan) returns (ok: bool)
    ensures ok == ModeFits(base, plan)
  {
    hide Trim, Lower;
    var granularity := StrictGranularity(plan.granularity);
    if granularity.None? {
      return false;
    } else if plan.policy != PolicyFor(granularity.value) {
      return false;
    }
    ok := !(base.granularity != "" && NormalGranularity(base.granularity) != NormalGranularity(plan.granularity));
  }

  method CheckTotals(plan: Plan) returns (ok: bool)
    ensures ok == TotalsFit(plan)
  {
    if plan.targetTotal <= 0 || plan.targetMin <= 0 || plan.targetMax < plan.targetMin
       || plan.targetTotal < plan.targetMin || plan.targetTotal > plan.targetMax {
      return false;
    }
    ok := !(plan.policy == PRESERVE_DETAILS && (plan.sourceTotal <= 0 || plan.tolerance <= 0.0 || plan.tolerance > 1.0));
  }

  lemma {:induction false} StableNumbered(base: Plan, plan: Plan)
    requires ChaptersStable(base, plan)
    ensures Numbered(plan.chapters)
  {
    hide Trim, TargetFits, Latest;
  }

  /** The checks run in the source's order and the first failure decides. */
  method ValidateRevision(given: Given, base: Plan, plan: Plan, manifest: seq<SourceChapter>) returns (verdict: Verdict)
    ensures verdict == Judge(given, base, plan, manifest)
  {
    hide ModeFits, TotalsFit, SourceFrozen, ChaptersStable, VolumesStable, CoverageFits, EventsFit, ContractsHold, PlanStructure;
    var ok := CheckMode(base, plan);
    if !ok {
      return Rejected(Mode);
    }
    if !given.rules(plan.rules) {
      return Rejected(Rules);
    }
    ok := CheckTotals(plan);
    if !ok {
      return Rejected(Totals);
    }
    ok := CheckSource(base, plan);
    if !ok {
      return Rejected(Source);
    }
    ok := CheckTargets(base, plan);
    if !ok {
      return Rejected(Targets);
    }
    ok := CheckCoverage(base, plan, manifest);
    if !ok {
      return Rejected(Coverage);
    }
    StableNumbered(base, plan);
    ok := CheckEvents(base, plan);
    if !ok {
      return Rejected(EventContract);
    }
    if !given.story(PlanStructure(plan)) {
      return Rejected(Story);
    }
    ok := CheckContracts(base, plan);
    if !ok {
      return Rejected(Contracts);
    }
    verdict := Accepted;
  }
}
