/** What no chain of accepted revisions can change. */
module RevisionChain {
  import opened Sequences
  import opened Text
  import opened RevisionSpec
  import opened RevisionTargets
  import opened RevisionEvents
  import Segments
  import Sorting

  // ---- What a later plan keeps of an earlier one ------------------------------------------------

  /** Stable IDs are written without surrounding blanks. */
  predicate TrimmedIds(plan: Plan) {
    forall i | 0 <= i < |plan.chapters| :: Trim(plan.chapters[i].id) == plan.chapters[i].id
  }

  predicate DistinctIds(plan: Plan) {
    && (forall i | 0 <= i < |plan.chapters| :: Trim(plan.chapters[i].id) != "")
    && (forall i, j | 0 <= i < j < |plan.chapters| :: Trim(plan.chapters[i].id) != Trim(plan.chapters[j].id))
    && (forall i, j | 0 <= i < j < |plan.volumes| :: Trim(plan.volumes[i].id) != Trim(plan.volumes[j].id))
  }

  predicate SameTarget(a: Chapter, b: Chapter) {
    a.id == b.id && a.isAdded == b.isAdded && SameContract(a, b)
  }

  predicate SameVolume(a: Volume, b: Volume) {
    Trim(a.id) == Trim(b.id) && a.sourceFrom == b.sourceFrom && a.sourceTo == b.sourceTo && a.mainlineIds == b.mainlineIds
  }

  predicate TargetIn(a: Chapter, q: Plan) {
    exists j | 0 <= j < |q.chapters| :: SameTarget(a, q.chapters[j])
  }

  predicate ChaptersKept(p: Plan, q: Plan) {
    forall i | 0 <= i < |p.chapters| :: TargetIn(p.chapters[i], q)
  }

  predicate HasId(q: Plan, id: string) {
    exists j | 0 <= j < |q.chapters| :: q.chapters[j].id == id
  }

  /** Every chapter ID occurs again, written the same way. */
  predicate IdsKept(p: Plan, q: Plan) {
    forall i | 0 <= i < |p.chapters| :: HasId(q, p.chapters[i].id)
  }

  predicate VolumesKept(p: Plan, q: Plan) {
    forall i | 0 <= i < |p.volumes| && Trim(p.volumes[i].id) != "" ::
      exists j | 0 <= j < |q.volumes| :: SameVolume(p.volumes[i], q.volumes[j])
  }

  predicate SourceKept(p: Plan, q: Plan) {
    && FieldsFrozen(p, q)
    && (p.sourceEvents != [] ==> q.sourceEvents == p.sourceEvents)
    && (AllSegments(p.chapters) != [] ==> multiset(AllSegments(q.chapters)) == multiset(AllSegments(p.chapters)))
  }

  /** The event of that ID has the same content, the same owner chapter and the same owning list. */
  predicate EventKept(p: Plan, q: Plan, id: string) {
    && LatestEvent(q.ledger, id) == LatestEvent(p.ledger, id)
    && Owner(Listings(p.chapters), id).Some? && Owner(Listings(q.chapters), id) == Owner(Listings(p.chapters), id)
  }

  predicate LedgerStays(p: Plan, q: Plan) {
    forall i | 0 <= i < |p.ledger| :: EventKept(p, q, Trim(p.ledger[i].id))
  }

  predicate Keeps(p: Plan, q: Plan) {
    ChaptersKept(p, q) && VolumesKept(p, q) && SourceKept(p, q) && LedgerStays(p, q)
  }

  // ---- One accepted revision --------------------------------------------------------------------

  lemma {:induction false} LatestIs(chapters: seq<Chapter>, i: nat)
    requires i < |chapters| && Trim(chapters[i].id) != ""
    requires forall j, k | 0 <= j < k < |chapters| :: Trim(chapters[j].id) != Trim(chapters[k].id)
    ensures Latest(chapters, Trim(chapters[i].id)) == Some(chapters[i])
  {
    hide Trim;
    LatestSome(chapters, Trim(chapters[i].id));
    var found := Latest(chapters, Trim(chapters[i].id)).value;
    var j :| 0 <= j < |chapters| && chapters[j] == found;
  }

  lemma {:induction false} LatestVolumeIs(volumes: seq<Volume>, i: nat)
    requires i < |volumes| && Trim(volumes[i].id) != ""
    requires forall j, k | 0 <= j < k < |volumes| :: Trim(volumes[j].id) != Trim(volumes[k].id)
    ensures LatestVolume(volumes, Trim(volumes[i].id)) == Some(volumes[i])
  {
    hide Trim;
    LatestVolumeSome(volumes, Trim(volumes[i].id));
    var found := LatestVolume(volumes, Trim(volumes[i].id)).value;
    var j :| 0 <= j < |volumes| && volumes[j] == found;
  }

  lemma {:induction false} LatestRawIs(chapters: seq<Chapter>, i: nat)
    requires i < |chapters|
    requires forall j, k | 0 <= j < k < |chapters| :: Trim(chapters[j].id) != Trim(chapters[k].id)
    ensures LatestRaw(chapters, chapters[i].id) == Some(chapters[i])
  {
    hide Trim;
    if i < |chapters| - 1 {
      assert Trim(chapters[i].id) != Trim(chapters[|chapters| - 1].id);
      assert forall j | 0 <= j < |chapters| - 1 :: Init(chapters)[j] == chapters[j];
      LatestRawIs(Init(chapters), i);
    }
  }

  lemma {:induction false} LatestRawMember(chapters: seq<Chapter>, id: string)
    ensures LatestRaw(chapters, id).Some? ==>
              LatestRaw(chapters, id).value in chapters && LatestRaw(chapters, id).value.id == id
  {
    if chapters != [] {
      LatestRawMember(Init(chapters), id);
    }
  }

  lemma {:induction false} StepChapters(base: Plan, plan: Plan)
    requires DistinctIds(base) && ChaptersStable(base, plan) && ContractsHold(base, plan)
    ensures ChaptersKept(base, plan) <==> IdsKept(base, plan)
  {
    hide Trim, SameContract, Ready, Latest, LatestRaw, HasLineage, SomeText, ChaptersStable, ContractsHold, DistinctIds;
    forall i | 0 <= i < |base.chapters|
      ensures TargetIn(base.chapters[i], plan) <==> HasId(plan, base.chapters[i].id)
    {
      if j :| 0 <= j < |plan.chapters| && plan.chapters[j].id == base.chapters[i].id {
        TargetKept(base, plan, i, j);
      }
    }
  }

  lemma {:induction false} TrimmedIdsKept(base: Plan, plan: Plan)
    requires DistinctIds(base) && ChaptersStable(base, plan) && TrimmedIds(base) && TrimmedIds(plan)
    ensures IdsKept(base, plan)
  {
    hide Trim, TargetFits, Latest;
    forall i | 0 <= i < |base.chapters|
      ensures HasId(plan, base.chapters[i].id)
    {
      LatestSome(plan.chapters, Trim(base.chapters[i].id));
      var j :| 0 <= j < |plan.chapters| && Trim(plan.chapters[j].id) == Trim(base.chapters[i].id);
    }
  }

  lemma {:induction false} TargetKept(base: Plan, plan: Plan, i: nat, j: nat)
    requires DistinctIds(base) && ChaptersStable(base, plan) && ContractsHold(base, plan)
    requires i < |base.chapters| && j < |plan.chapters| && plan.chapters[j].id == base.chapters[i].id
    ensures SameTarget(base.chapters[i], plan.chapters[j])
  {
    hide Trim, Ready, Latest, LatestRaw, HasLineage, SomeText;
    var a, b := base.chapters[i], plan.chapters[j];
    LatestIs(base.chapters, i);
    LatestRawIs(base.chapters, i);
    assert TargetFits(base, b) && ContractHolds(base, plan.policy, b);
    if !Changed(base, b) {
      assert Signature(a) == Signature(b);
      assert Signature(a).preserve == a.preserve && Signature(a).claims == a.claims;
    }
  }

  lemma {:induction false} StepVolumes(base: Plan, plan: Plan)
    requires DistinctIds(base) && VolumesStable(base, plan)
    ensures VolumesKept(base, plan)
  {
    hide Trim, LatestVolume;
    forall i | 0 <= i < |base.volumes| && Trim(base.volumes[i].id) != ""
      ensures exists j | 0 <= j < |plan.volumes| :: SameVolume(base.volumes[i], plan.volumes[j])
    {
      var a := base.volumes[i];
      LatestVolumeIs(base.volumes, i);
      LatestVolumeSome(plan.volumes, Trim(a.id));
      var j :| 0 <= j < |plan.volumes| && Trim(plan.volumes[j].id) == Trim(a.id);
      assert VolumeFits(base, plan, j);
      assert SameVolume(a, plan.volumes[j]);
    }
  }

  lemma {:induction false} StepSource(base: Plan, plan: Plan)
    requires SourceFrozen(base, plan)
    ensures SourceKept(base, plan)
  {
    hide AllSegments, Collected;
    CollectedSame(base.chapters);
    CollectedSame(plan.chapters);
  }

  lemma {:induction false} AcceptedParts(given: Given, base: Plan, plan: Plan, manifest: seq<SourceChapter>)
    requires Accepts(given, base, plan, manifest)
    ensures SourceFrozen(base, plan) && ChaptersStable(base, plan) && VolumesStable(base, plan)
    ensures CoverageFits(base, plan, manifest) && EventsFit(base, plan) && ContractsHold(base, plan)
  {
    hide ModeFits, TotalsFit, SourceFrozen, ChaptersStable, VolumesStable, CoverageFits, EventsFit, ContractsHold, PlanStructure;
  }

  /** An accepted revision keeps everything exactly when it writes every chapter ID as the base does; trimmed IDs
      are enough for that, and all but the chapters is kept in any case. */
  lemma {:induction false} AcceptedKeeps(given: Given, base: Plan, plan: Plan, manifest: seq<SourceChapter>)
    requires Accepts(given, base, plan, manifest) && DistinctIds(base)
    ensures Keeps(base, plan) <==> IdsKept(base, plan)
    ensures TrimmedIds(base) && TrimmedIds(plan) ==> IdsKept(base, plan)
    ensures VolumesKept(base, plan) && SourceKept(base, plan) && LedgerStays(base, plan) && DistinctIds(plan)
  {
    hide Accepts, TrimmedIds, VolumeFits, Trim, TargetFits, EventsNamed, Listings, Owner, LatestEvent, CoverageFits,
      ContractsHold, ChaptersKept, IdsKept;
    AcceptedParts(given, base, plan, manifest);
    StepChapters(base, plan);
    if TrimmedIds(base) && TrimmedIds(plan) {
      TrimmedIdsKept(base, plan);
    }
    StepVolumes(base, plan);
    StepSource(base, plan);
  }

  // ---- Chains -----------------------------------------------------------------------------------

  lemma {:induction false} KeepsComposes(p: Plan, q: Plan, r: Plan)
    requires Keeps(p, q) && Keeps(q, r)
    ensures Keeps(p, r)
  {
    hide *;
    ChaptersCompose(p, q, r);
    VolumesCompose(p, q, r);
    SourceComposes(p, q, r);
    LedgerComposes(p, q, r);
    KeepsIff(p, q);
    KeepsIff(q, r);
    KeepsIff(p, r);
  }

  lemma {:induction false} KeepsIff(p: Plan, q: Plan)
    ensures Keeps(p, q) <==> ChaptersKept(p, q) && VolumesKept(p, q) && SourceKept(p, q) && LedgerStays(p, q)
  {
    hide ChaptersKept, VolumesKept, SourceKept, LedgerStays;
  }

  lemma {:induction false} SameTargetComposes(a: Chapter, b: Chapter, c: Chapter)
    requires SameTarget(a, b) && SameTarget(b, c)
    ensures SameTarget(a, c)
  {
  }

  lemma {:induction false} ChaptersCompose(p: Plan, q: Plan, r: Plan)
    requires Keeps(p, q) && Keeps(q, r)
    ensures ChaptersKept(p, r)
  {
    hide VolumesKept, SourceKept, LedgerStays, SameTarget;
    forall i | 0 <= i < |p.chapters|
      ensures TargetIn(p.chapters[i], r)
    {
      assert TargetIn(p.chapters[i], q);
      var k :| 0 <= k < |q.chapters| && SameTarget(p.chapters[i], q.chapters[k]);
      assert TargetIn(q.chapters[k], r);
      var j :| 0 <= j < |r.chapters| && SameTarget(q.chapters[k], r.chapters[j]);
      SameTargetComposes(p.chapters[i], q.chapters[k], r.chapters[j]);
    }
  }

  lemma {:induction false} VolumesCompose(p: Plan, q: Plan, r: Plan)
    requires Keeps(p, q) && Keeps(q, r)
    ensures VolumesKept(p, r)
  {
    hide ChaptersKept, SourceKept, LedgerStays, Trim;
    forall i | 0 <= i < |p.volumes| && Trim(p.volumes[i].id) != ""
      ensures exists j | 0 <= j < |r.volumes| :: SameVolume(p.volumes[i], r.volumes[j])
    {
      var k :| 0 <= k < |q.volumes| && SameVolume(p.volumes[i], q.volumes[k]);
      var j :| 0 <= j < |r.volumes| && SameVolume(q.volumes[k], r.volumes[j]);
      assert SameVolume(p.volumes[i], r.volumes[j]);
    }
  }

  lemma {:induction false} SourceComposes(p: Plan, q: Plan, r: Plan)
    requires Keeps(p, q) && Keeps(q, r)
    ensures SourceKept(p, r)
  {
    hide ChaptersKept, VolumesKept, LedgerStays, AllSegments;
    if AllSegments(p.chapters) != [] {
      assert |multiset(AllSegments(p.chapters))| == |multiset(AllSegments(q.chapters))|;
    }
  }

  lemma {:induction false} LedgerComposes(p: Plan, q: Plan, r: Plan)
    requires Keeps(p, q) && Keeps(q, r)
    ensures LedgerStays(p, r)
  {
    hide ChaptersKept, VolumesKept, SourceKept, Trim, LatestEvent, Owner, Listings;
    forall i | 0 <= i < |p.ledger|
      ensures EventKept(p, r, Trim(p.ledger[i].id))
    {
      var id := Trim(p.ledger[i].id);
      LatestEventSome(p.ledger, id);
      LatestEventSome(q.ledger, id);
      assert EventKept(p, q, id);
      var j :| 0 <= j < |q.ledger| && Trim(q.ledger[j].id) == id;
      assert EventKept(q, r, id);
    }
  }

  /** Each plan is accepted as a revision of the one before. */
  predicate Chain(given: Given, plans: seq<Plan>, manifests: seq<seq<SourceChapter>>) {
    && |plans| == |manifests| + 1
    && forall k | 0 <= k < |manifests| :: Accepts(given, plans[k], plans[k + 1], manifests[k])
  }

  lemma {:induction false} KeptBetween(given: Given, plans: seq<Plan>, manifests: seq<seq<SourceChapter>>, i: nat, j: nat)
    requires Chain(given, plans, manifests) && i < j < |plans| && DistinctIds(plans[0])
    requires forall k | 0 <= k < |manifests| :: IdsKept(plans[k], plans[k + 1])
    ensures Keeps(plans[i], plans[j])
    decreases j
  {
    hide Accepts, TrimmedIds, DistinctIds, Keeps, IdsKept;
    ChainDistinct(given, plans, manifests, j - 1);
    AcceptedKeeps(given, plans[j - 1], plans[j], manifests[j - 1]);
    assert IdsKept(plans[j - 1], plans[j - 1 + 1]);
    if i < j - 1 {
      KeptBetween(given, plans, manifests, i, j - 1);
      KeepsComposes(plans[i], plans[j - 1], plans[j]);
    }
  }

  lemma {:induction false} ChainDistinct(given: Given, plans: seq<Plan>, manifests: seq<seq<SourceChapter>>, k: nat)
    requires Chain(given, plans, manifests) && k < |plans| && DistinctIds(plans[0])
    ensures DistinctIds(plans[k])
  {
    hide Accepts, TrimmedIds, DistinctIds, Keeps;
    if k > 0 {
      ChainDistinct(given, plans, manifests, k - 1);
      AcceptedKeeps(given, plans[k - 1], plans[k], manifests[k - 1]);
    }
  }

  /** Along a chain of accepted revisions, each later plan keeps every chapter ID with its added flag and contract
      lists, every volume ID with its source ownership, the frozen plan fields, the source events, the source
      segments as a multiset, and every existing target event with its owner, exactly when no revision writes a
      chapter ID differently; so it does in every chain of trimmed plans. */
  lemma {:induction false} ChainKeeps(given: Given, plans: seq<Plan>, manifests: seq<seq<SourceChapter>>)
    requires Chain(given, plans, manifests) && DistinctIds(plans[0])
    ensures (forall i, j | 0 <= i < j < |plans| :: Keeps(plans[i], plans[j])) <==>
            forall k | 0 <= k < |manifests| :: IdsKept(plans[k], plans[k + 1])
    ensures (forall k | 0 <= k < |plans| :: TrimmedIds(plans[k])) ==>
              forall i, j | 0 <= i < j < |plans| :: Keeps(plans[i], plans[j])
  {
    hide Accepts, TrimmedIds, DistinctIds, Keeps, IdsKept;
    forall k | 0 <= k < |manifests|
      ensures Keeps(plans[k], plans[k + 1]) <==> IdsKept(plans[k], plans[k + 1])
      ensures TrimmedIds(plans[k]) && TrimmedIds(plans[k + 1]) ==> IdsKept(plans[k], plans[k + 1])
    {
      ChainDistinct(given, plans, manifests, k);
      AcceptedKeeps(given, plans[k], plans[k + 1], manifests[k]);
    }
    if forall k | 0 <= k < |manifests| :: IdsKept(plans[k], plans[k + 1]) {
      forall i, j | 0 <= i < j < |plans|
        ensures Keeps(plans[i], plans[j])
      {
        KeptBetween(given, plans, manifests, i, j);
      }
    }
  }

  // ---- Why trimmed IDs are needed ---------------------------------------------------------------

  /** Stable targets are matched by trimmed ID, contracts by raw ID: the contract lists of an existing target
      are compared exactly when the two raw IDs agree; otherwise only the readiness of the new chapter counts. */
  lemma {:induction false} ContractComparedIff(base: Plan, policy: string, i: nat, c: Chapter)
    requires DistinctIds(base) && i < |base.chapters| && Trim(base.chapters[i].id) == Trim(c.id)
    ensures Latest(base.chapters, Trim(c.id)) == Some(base.chapters[i])
    ensures base.chapters[i].id == c.id ==> (ContractHolds(base, policy, c) ==> SameContract(base.chapters[i], c))
    ensures base.chapters[i].id != c.id ==> (ContractHolds(base, policy, c) <==> Ready(policy, c))
  {
    hide Trim, Ready, Latest, LatestRaw;
    var a := base.chapters[i];
    LatestIs(base.chapters, i);
    if a.id == c.id {
      LatestRawIs(base.chapters, i);
      if !Changed(base, c) {
        assert Signature(a) == Signature(c);
        assert Signature(a).preserve == a.preserve && Signature(a).claims == a.claims;
      }
    } else {
      forall j | 0 <= j < |base.chapters|
        ensures base.chapters[j].id != c.id
      {
        assert j != i ==> Trim(base.chapters[j].id) != Trim(c.id);
      }
      LatestRawMember(base.chapters, c.id);
    }
  }

  function Sample(id: string, preserve: seq<string>): Chapter {
    Chapter(id, "", "", "", "", [], "", 1, [], 0, 1, 1, 1, None, 0, 0, [], [], [], [], None, [], [], false, "n",
            preserve, ["c"], ["f"])
  }

  lemma {:induction false} WordIsTrimmed(w: string)
    requires |w| == 1 && !IsSpace(w[0])
    ensures Trim(w) == w && Trim(" " + w) == w
  {
    TrimFixed(w);
    TrimLeadingBlank(w);
  }

  /** A free plan of one chapter, without volumes and events. */
  function SamplePlan(c: Chapter): Plan {
    Plan(FREE, FULL_REWRITE, 0.0, 0, 1, 1, 1, [], [], "", [], map[], [], [], [], [], [c])
  }

  /** The ID of the base chapter is written with a leading blank, and its preserve list is replaced. */
  lemma {:induction false} UntrimmedContract(base: Plan, policy: string)
    requires base.chapters == [Sample(" " + "a", ["x"])] && base.volumes == [] && policy != PRESERVE_DETAILS
    ensures
      var c := Sample("a", ["y"]);
      && Trim(base.chapters[0].id) == Trim(c.id) == "a" && DistinctIds(base) && TargetFits(base, c)
      && ContractHolds(base, policy, c) && !SameContract(base.chapters[0], c)
  {
    var a, c := base.chapters[0], Sample("a", ["y"]);
    WordIsTrimmed("a");
    WordIsTrimmed("c");
    WordIsTrimmed("f");
    WordIsTrimmed("y");
    hide Trim;
    assert Init(base.chapters) == [];
    assert c.changes[0] == "c" && c.forbidden[0] == "f" && c.preserve[0] == "y" && a.preserve[0] == "x";
    assert SomeText(c.changes) && SomeText(c.forbidden) && SomeText(c.preserve);
    assert |a.id| == 2 && |c.id| == 1;
    assert ListClean(c.preserve) && ListClean(c.changes) && ListClean(c.forbidden);
    assert BudgetLegal(policy, c);
    assert Ready(policy, c);
    ContractComparedIff(base, policy, 0, c);
  }

  lemma {:induction false} SampleKnown(base: Plan, a: Chapter)
    requires base == SamplePlan(a) && a.segments == [] && a.sourceChapters == []
    ensures Known(base, []) == map[] && AllSegments(base.chapters) == []
  {
    assert Init(base.chapters) == [] && Last(base.chapters) == a;
    assert KnownFromChapters([]) == map[];
    assert RaisedAll(map[], [], a.sourceRunes) == map[] && RaisedEnds(map[], []) == map[];
    assert KnownFromChapters(base.chapters) == map[];
    assert KnownFromEvents(map[], []) == map[] && ManifestRunes([]) == map[];
  }

  lemma {:induction false} SampleTargets(base: Plan, plan: Plan, a: Chapter, b: Chapter)
    requires base == SamplePlan(a) && plan == SamplePlan(b) && Trim(a.id) == Trim(b.id) != "" && b.number == 1
    requires a.segments == [] && a.sourceChapters == [] && TargetFits(base, b)
    ensures SourceFrozen(base, plan) && ChaptersStable(base, plan) && VolumesStable(base, plan)
  {
    hide Trim, TargetFits;
    SampleKnown(base, a);
    hide Known, AllSegments, Collected;
    assert Latest(plan.chapters, Trim(a.id)) == Some(b);
  }

  lemma {:induction false} SampleEvents(base: Plan, plan: Plan, b: Chapter)
    requires base.ledger == [] && plan == SamplePlan(b) && b.eventIds == b.addedEventIds == b.dependsOn == []
    ensures EventsFit(base, plan)
  {
    assert Init(plan.chapters) == [] && Last(plan.chapters) == b;
    assert ListingsOf([], b, false) == [] && ListingsOf([], b, true) == [];
    assert Listings(plan.chapters) == [];
    hide Listings, EventOwned, EarlierOwner, Trim;
  }

  lemma {:induction false} SampleCoverage(base: Plan, plan: Plan, b: Chapter)
    requires Known(base, []) == map[] && plan == SamplePlan(b)
    requires b.rangeFrom == b.rangeTo == 0 && b.sourceChapters == []
    ensures CoverageFits(base, plan, [])
  {
    hide Known, NormalGranularity, SourceTiled, CoversSource;
  }

  /** A plan without source, volumes and events fits a base of the same kind as far as its chapter does. */
  lemma {:induction false} SampleFits(base: Plan, plan: Plan, a: Chapter, b: Chapter)
    requires base == SamplePlan(a) && plan == SamplePlan(b) && Trim(a.id) == Trim(b.id) != "" && b.number == 1
    requires a.segments == [] && a.sourceChapters == b.sourceChapters == []
    requires b.rangeFrom == b.rangeTo == 0 && b.eventIds == b.addedEventIds == b.dependsOn == []
    requires TargetFits(base, b)
    ensures SourceFrozen(base, plan) && ChaptersStable(base, plan) && VolumesStable(base, plan)
    ensures CoverageFits(base, plan, []) && EventsFit(base, plan)
  {
    hide Trim, TargetFits, SourceFrozen, ChaptersStable, VolumesStable, CoverageFits, EventsFit;
    SampleTargets(base, plan, a, b);
    SampleKnown(base, a);
    SampleCoverage(base, plan, b);
    SampleEvents(base, plan, b);
  }

  lemma {:induction false} FreePlanFits(base: Plan, plan: Plan)
    requires base.granularity == plan.granularity == FREE && plan.policy == FULL_REWRITE
    requires plan.targetMin == plan.targetTotal == plan.targetMax == 1
    ensures ModeFits(base, plan) && TotalsFit(plan)
  {
    TrimFixed(FREE);
    hide Trim;
    assert Lower(FREE) == FREE;
  }

  /** Why that is needed: the validator accepts a plan that writes the ID of an existing chapter without its
      leading blank and replaces its preserve list. */
  lemma {:induction false} UntrimmedIdEscapes(given: Given, base: Plan, plan: Plan)
    requires base == SamplePlan(Sample(" " + "a", ["x"])) && plan == SamplePlan(Sample("a", ["y"]))
    requires given.rules([]) && given.story(PlanStructure(plan))
    ensures Accepts(given, base, plan, []) && DistinctIds(base) && Trim(base.chapters[0].id) == Trim(plan.chapters[0].id)
    ensures !SameContract(base.chapters[0], plan.chapters[0]) && !ChaptersKept(base, plan)
  {
    var a, b := base.chapters[0], plan.chapters[0];
    hide Trim, ModeFits, TotalsFit, SourceFrozen, ChaptersStable, VolumesStable, CoverageFits, EventsFit, ContractHolds,
      SameContract, DistinctIds, PlanStructure, TargetFits;
    UntrimmedContract(base, FULL_REWRITE);
    SampleFits(base, plan, a, b);
    FreePlanFits(base, plan);
    assert ContractsHold(base, plan);
    assert !TargetIn(a, plan);
  }

  // ---- Segments may move ------------------------------------------------------------------------

  predicate KeysDistinct(segs: seq<Segments.Segment>) {
    forall i, j | 0 <= i < j < |segs| ::
      segs[i].sourceChapter != segs[j].sourceChapter || segs[i].sequence != segs[j].sequence
  }

  /** With distinct segment keys the frozen check allows exactly the reassignments of whole segments. */
  lemma {:induction false} SegmentsReassigned(base: seq<Chapter>, chapters: seq<Chapter>)
    requires KeysDistinct(AllSegments(base))
    ensures Collected(base) == Collected(chapters) <==> multiset(AllSegments(base)) == multiset(AllSegments(chapters))
  {
    hide AllSegments, SegmentLess, KeysDistinct;
    CollectedSame(base);
    CollectedSame(chapters);
    if multiset(AllSegments(base)) == multiset(AllSegments(chapters)) {
      SegmentOrder();
      Sorting.SortedIs(AllSegments(base), SegmentLess);
      Sorting.SortedIs(AllSegments(chapters), SegmentLess);
      DistinctDecided(AllSegments(base), Collected(base));
      Sorting.OrderedOnce(Collected(base), Collected(chapters), SegmentLess);
    }
  }

  lemma {:induction false} DistinctDecided(segs: seq<Segments.Segment>, sorted: seq<Segments.Segment>)
    requires KeysDistinct(segs) && multiset(segs) == multiset(sorted)
    ensures Sorting.Decided(sorted, SegmentLess)
  {
    forall x, y | x in sorted && y in sorted && x != y
      ensures SegmentLess(x, y) || SegmentLess(y, x)
    {
      assert x in multiset(segs) && y in multiset(segs);
      var i :| 0 <= i < |segs| && segs[i] == x;
      var j :| 0 <= j < |segs| && segs[j] == y;
      assert i < j || j < i;
    }
  }
}
