/** Merging detailed outlines into an accepted plan keeps it accepted, exactly when the chapters that only now
    differ from the base carry their contract. */
module RevisionMergeValidity {
  import opened Sequences
  import opened Text
  import opened RevisionSpec
  import opened RevisionTargets
  import opened RevisionChain
  import opened RevisionMerge

  // ---- What only reads the structure ------------------------------------------------------------

  predicate SameShape(a: seq<Chapter>, b: seq<Chapter>) {
    |a| == |b| && forall k | 0 <= k < |a| :: Structure(a[k]) == Structure(b[k])
  }

  /** Chapters of the same structure agree in every field the checks read. */
  lemma {:induction false} SameFields(a: Chapter, b: Chapter)
    requires Structure(a) == Structure(b)
    ensures a.id == b.id && a.number == b.number && a.isAdded == b.isAdded && a.coverageNote == b.coverageNote
    ensures a.sourceChapters == b.sourceChapters && a.sourceRunes == b.sourceRunes && a.segments == b.segments
    ensures a.rangeFrom == b.rangeFrom && a.rangeTo == b.rangeTo
    ensures a.eventIds == b.eventIds && a.addedEventIds == b.addedEventIds && a.dependsOn == b.dependsOn
    ensures a.preserve == b.preserve && a.changes == b.changes && a.forbidden == b.forbidden
    ensures a.ruleIds == b.ruleIds && a.relationship == b.relationship && a.claims == b.claims
    ensures a.minRunes == b.minRunes && a.targetRunes == b.targetRunes && a.maxRunes == b.maxRunes && a.budget == b.budget
  {
    var s := Structure(a);
    assert s.id == a.id && s.number == a.number && s.isAdded == a.isAdded && s.coverageNote == a.coverageNote;
    assert s.id == b.id && s.number == b.number && s.isAdded == b.isAdded && s.coverageNote == b.coverageNote;
  }

  lemma {:induction false} SameInit(a: seq<Chapter>, b: seq<Chapter>)
    requires SameShape(a, b) && a != []
    ensures b != [] && SameShape(Init(a), Init(b)) && Structure(Last(a)) == Structure(Last(b))
  {
    hide Structure;
  }

  lemma {:induction false} SameListingsOf(ids: seq<string>, a: Chapter, b: Chapter, added: bool)
    requires a.id == b.id && a.number == b.number
    ensures ListingsOf(ids, a, added) == ListingsOf(ids, b, added)
  {
    hide Trim;
    if ids != [] {
      SameListingsOf(Init(ids), a, b, added);
    }
  }

  lemma {:induction false} SameReadings(a: seq<Chapter>, b: seq<Chapter>)
    requires SameShape(a, b)
    ensures AllSegments(a) == AllSegments(b)
    ensures Listings(a) == Listings(b)
    ensures Structures(a) == Structures(b)
  {
    if a != [] {
      SameInit(a, b);
      SameReadings(Init(a), Init(b));
      SameFields(Last(a), Last(b));
      SameListingsOf(Last(a).eventIds, Last(a), Last(b), false);
      SameListingsOf(Last(a).addedEventIds, Last(a), Last(b), true);
    }
  }

  lemma {:induction false} SameChapters(base: Plan, p: Plan, q: Plan)
    requires SameShape(p.chapters, q.chapters) && ChaptersStable(base, p)
    ensures ChaptersStable(base, q)
  {
    hide Trim, Structure, Latest, HasLineage, SomeText;
    forall k | 0 <= k < |q.chapters|
      ensures Trim(q.chapters[k].id) == Trim(p.chapters[k].id) != "" && q.chapters[k].number == k + 1
      ensures TargetFits(base, q.chapters[k])
    {
      assert TargetFits(base, p.chapters[k]);
      SameFields(p.chapters[k], q.chapters[k]);
      SameLineage(p.chapters[k], q.chapters[k]);
    }
    forall i | 0 <= i < |base.chapters| && Trim(base.chapters[i].id) != ""
      ensures Latest(q.chapters, Trim(base.chapters[i].id)).Some?
    {
      var id := Trim(base.chapters[i].id);
      LatestSome(p.chapters, id);
      LatestSome(q.chapters, id);
      var j :| 0 <= j < |p.chapters| && Trim(p.chapters[j].id) == id;
      assert Trim(q.chapters[j].id) == id;
    }
  }

  lemma {:induction false} SameLineage(a: Chapter, b: Chapter)
    requires Structure(a) == Structure(b)
    ensures HasLineage(a) == HasLineage(b)
  {
    SameFields(a, b);
  }

  lemma {:induction false} SameVolumes(base: Plan, p: Plan, q: Plan)
    requires p.volumes == q.volumes && |p.chapters| == |q.chapters| && VolumesStable(base, p)
    ensures VolumesStable(base, q)
  {
    hide Trim, LatestVolume, VolumeStart;
    forall k | 0 <= k < |q.volumes|
      ensures VolumeFits(base, q, k)
    {
      assert VolumeFits(base, p, k);
    }
  }

  lemma {:induction false} SameCoverage(base: Plan, p: Plan, q: Plan, manifest: seq<SourceChapter>)
    requires SameStructure(p, q) && CoverageFits(base, p, manifest)
    ensures CoverageFits(base, q, manifest)
  {
    hide Structure, Known, ManifestValid, ReferencesFit, CoversSource, SourceTiled, NormalGranularity;
    var known := Known(base, manifest);
    forall k | 0 <= k < |q.chapters|
      ensures ReferencesFit(q.chapters[k], known)
      ensures forall s :: CoversSource(q.chapters[k], s) <==> CoversSource(p.chapters[k], s)
    {
      SameReferences(p.chapters[k], q.chapters[k], known);
    }
    forall s | s in known
      ensures exists k | 0 <= k < |q.chapters| :: CoversSource(q.chapters[k], s)
    {
      var k :| 0 <= k < |p.chapters| && CoversSource(p.chapters[k], s);
      assert CoversSource(q.chapters[k], s);
    }
    SameTiled(p, q, known);
  }

  lemma {:induction false} SameTiled(p: Plan, q: Plan, known: map<int, int>)
    requires SameStructure(p, q)
    ensures forall s | s in known :: SourceTiled(q, s, known[s]) == SourceTiled(p, s, known[s])
  {
    SameReadings(p.chapters, q.chapters);
  }

  lemma {:induction false} SameReferences(a: Chapter, b: Chapter, known: map<int, int>)
    requires Structure(a) == Structure(b)
    ensures ReferencesFit(a, known) == ReferencesFit(b, known)
    ensures forall s :: CoversSource(a, s) <==> CoversSource(b, s)
  {
    SameFields(a, b);
    hide Structure;
  }

  lemma {:induction false} SameCover(a: Chapter, b: Chapter, source: int)
    requires Structure(a) == Structure(b)
    ensures LineageCovers(a, source) == LineageCovers(b, source)
  {
    SameFields(a, b);
  }

  lemma {:induction false} SameOwned(p: Plan, q: Plan, e: Event)
    requires SameShape(p.chapters, q.chapters) && Listings(p.chapters) == Listings(q.chapters) && EventOwned(p, e)
    ensures EventOwned(q, e)
  {
    hide Trim, Listings, Numbers, LineageCovers, EarlierOwner;
    var number := Numbers(Listings(p.chapters), Trim(e.id))[0];
    var a, b := p.chapters[number - 1], q.chapters[number - 1];
    SameFields(a, b);
    SameCover(a, b, e.sourceChapter);
    forall d | d in e.dependsOn
      ensures EarlierOwner(q, d, number)
    {
      SameEarlier(p, q, d, number);
    }
  }

  lemma {:induction false} SameEarlier(p: Plan, q: Plan, id: string, number: int)
    requires Listings(p.chapters) == Listings(q.chapters)
    ensures EarlierOwner(p, id, number) == EarlierOwner(q, id, number)
  {
  }

  lemma {:induction false} SameDependencies(p: Plan, q: Plan, k: nat)
    requires SameShape(p.chapters, q.chapters) && Listings(p.chapters) == Listings(q.chapters) && k < |q.chapters|
    requires forall d | d in p.chapters[k].dependsOn :: EarlierOwner(p, d, p.chapters[k].number)
    ensures forall d | d in q.chapters[k].dependsOn :: EarlierOwner(q, d, q.chapters[k].number)
  {
    hide Listings, EarlierOwner;
    SameFields(p.chapters[k], q.chapters[k]);
    forall d | d in q.chapters[k].dependsOn
      ensures EarlierOwner(q, d, q.chapters[k].number)
    {
      SameEarlier(p, q, d, q.chapters[k].number);
    }
  }

  lemma {:induction false} SameEvents(base: Plan, p: Plan, q: Plan)
    requires SameStructure(p, q) && EventsFit(base, p)
    ensures EventsFit(base, q)
  {
    hide Structure, Listings, EventOwned, EarlierOwner, LedgerKept, EventsNamed, ListingsFit, OwnersKept;
    SameReadings(p.chapters, q.chapters);
    forall e | e in Events(q)
      ensures EventOwned(q, e)
    {
      assert e in Events(p);
      SameOwned(p, q, e);
    }
    forall c | c in q.chapters
      ensures forall d | d in c.dependsOn :: EarlierOwner(q, d, c.number)
    {
      var k :| 0 <= k < |q.chapters| && q.chapters[k] == c;
      assert p.chapters[k] in p.chapters;
      SameDependencies(p, q, k);
    }
    SameLedger(base, p, q);
  }

  lemma {:induction false} SameLedger(base: Plan, p: Plan, q: Plan)
    requires p.ledger == q.ledger && p.sourceEvents == q.sourceEvents && Listings(p.chapters) == Listings(q.chapters)
    requires LedgerKept(base, p) && ListingsFit(p) && OwnersKept(base, p) && EventsNamed(Events(p))
    ensures LedgerKept(base, q) && ListingsFit(q) && OwnersKept(base, q) && EventsNamed(Events(q))
  {
    hide Trim, Listings, LatestEvent, Owner, ListingFits;
    assert Events(p) == Events(q);
  }

  // ---- Contracts --------------------------------------------------------------------------------

  /** The merged chapter differs from the base although the chapter before the merge did not. */
  predicate NewlyChanged(base: Plan, p: Plan, q: Plan, k: nat)
    requires k < |p.chapters| == |q.chapters|
  {
    Changed(base, q.chapters[k]) && !Changed(base, p.chapters[k])
  }

  lemma {:induction false} SameReady(policy: string, a: Chapter, b: Chapter)
    requires Structure(a) == Structure(b)
    ensures Ready(policy, a) == Ready(policy, b)
  {
    SameFields(a, b);
    hide SomeText, ListClean;
  }

  lemma {:induction false} ContractAfter(base: Plan, policy: string, p: Chapter, q: Chapter)
    requires Structure(p) == Structure(q) && ContractHolds(base, policy, p)
    ensures ContractHolds(base, policy, q) <==> (Changed(base, q) && !Changed(base, p) ==> Ready(policy, q))
  {
    SameFields(p, q);
    SameReady(policy, p, q);
    hide Ready, Structure, LatestRaw;
    var prior := LatestRaw(base.chapters, q.id);
    if prior.Some? && !Changed(base, p) {
      assert Signature(prior.value) == Signature(p);
      SignatureFields(prior.value, p);
    }
  }

  lemma {:induction false} SignatureFields(a: Chapter, b: Chapter)
    requires Signature(a) == Signature(b)
    ensures SameContract(a, b)
  {
    var s := Signature(a);
    assert s.preserve == a.preserve && s.forbidden == a.forbidden && s.ruleIds == a.ruleIds;
    assert s.relationship == a.relationship && s.claims == a.claims;
  }

  lemma {:induction false} ContractsAfter(base: Plan, p: Plan, q: Plan)
    requires SameStructure(p, q) && ContractsHold(base, p)
    ensures ContractsHold(base, q) <==>
            forall k | 0 <= k < |q.chapters| && NewlyChanged(base, p, q, k) :: Ready(q.policy, q.chapters[k])
  {
    hide Structure, Ready, Changed, ContractHolds;
    forall k | 0 <= k < |q.chapters|
      ensures ContractHolds(base, q.policy, q.chapters[k]) <==> (NewlyChanged(base, p, q, k) ==> Ready(q.policy, q.chapters[k]))
    {
      assert p.chapters[k] in p.chapters;
      ContractAfter(base, p.policy, p.chapters[k], q.chapters[k]);
    }
    if ContractsHold(base, q) {
      forall k | 0 <= k < |q.chapters|
        ensures ContractHolds(base, q.policy, q.chapters[k])
      {
        assert q.chapters[k] in q.chapters;
      }
    }
  }

  // ---- The verdict ------------------------------------------------------------------------------

  lemma {:induction false} SameJudged(given: Given, base: Plan, p: Plan, q: Plan, manifest: seq<SourceChapter>)
    requires SameStructure(p, q) && Accepts(given, base, p, manifest)
    ensures Accepts(given, base, q, manifest) <==> ContractsHold(base, q)
  {
    hide Structure, SourceFrozen, ChaptersStable, VolumesStable, CoverageFits, EventsFit, ContractsHold, ModeFits, TotalsFit;
    AcceptedParts(given, base, p, manifest);
    SameChapters(base, p, q);
    SameVolumes(base, p, q);
    SameCoverage(base, p, q, manifest);
    SameEvents(base, p, q);
    SameReadings(p.chapters, q.chapters);
    assert PlanStructure(p) == PlanStructure(q);
    SameHeader(base, p, q);
  }

  lemma {:induction false} SameHeader(base: Plan, p: Plan, q: Plan)
    requires SameStructure(p, q)
    ensures ModeFits(base, p) == ModeFits(base, q) && TotalsFit(p) == TotalsFit(q)
    ensures SourceFrozen(base, p) == SourceFrozen(base, q)
  {
    SameReadings(p.chapters, q.chapters);
    hide AllSegments, Trim, Lower;
  }

  /** A plan accepted against the base stays accepted after the merge of detailed outlines, exactly when every
      chapter that only now differs from the base carries its contract lists and a legal word budget. */
  lemma {:induction false} MergeKeepsAcceptance(
      given: Given, base: Plan, plan: Plan, details: seq<Detail>, manifest: seq<SourceChapter>)
    requires Accepts(given, base, plan, manifest) && Merge(plan, details).Merged?
    ensures
      var merged := Merge(plan, details).plan;
      Accepts(given, base, merged, manifest) <==>
      forall k | 0 <= k < |merged.chapters| && NewlyChanged(base, plan, merged, k) :: Ready(merged.policy, merged.chapters[k])
  {
    hide Accepts, SameStructure, Merge, ContractsHold, NewlyChanged, Ready;
    var merged := Merge(plan, details).plan;
    MergeDecided(plan, details);
    AcceptedParts(given, base, plan, manifest);
    SameJudged(given, base, plan, merged, manifest);
    ContractsAfter(base, plan, merged);
  }

  /** In particular it stays accepted when every chapter a detail is for was changed already or is ready. */
  lemma {:induction false} OverlaidReady(
      given: Given, base: Plan, plan: Plan, details: seq<Detail>, manifest: seq<SourceChapter>)
    requires Accepts(given, base, plan, manifest) && Merge(plan, details).Merged?
    requires forall k | 0 <= k < |plan.chapters| && DetailFor(plan, details, k).Some? ::
               Changed(base, plan.chapters[k]) || Ready(plan.policy, plan.chapters[k])
    ensures Accepts(given, base, Merge(plan, details).plan, manifest)
  {
    hide Accepts, Merge, Ready, DetailFor, Changed, Structure;
    var merged := Merge(plan, details).plan;
    MergeDecided(plan, details);
    forall k | 0 <= k < |merged.chapters| && NewlyChanged(base, plan, merged, k)
      ensures Ready(merged.policy, merged.chapters[k])
    {
      MergedAt(plan, details, k);
      SameReady(plan.policy, plan.chapters[k], merged.chapters[k]);
    }
    MergeKeepsAcceptance(given, base, plan, details, manifest);
  }
}
