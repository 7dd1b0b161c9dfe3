/** The merge of detailed outlines into an accepted plan, and what it leaves untouched. */
module RevisionMerge {
  import opened Sequences
  import opened Text
  import opened RevisionSpec
  import opened RevisionStory

  /** A decoded detailed-outline candidate, with the ID of the artifact that carries it. */
  datatype Detail = Detail(
    artifactId: string, chapterId: string, number: int, volumeId: string, arcId: string, outline: Chapter)

  datatype MergeError = Incomplete | Absent | StructureChanged | OwnershipChanged

  datatype MergeResult = Merged(plan: Plan) | Failed(error: MergeError)

  predicate Complete(d: Detail) {
    && Trim(d.chapterId) == d.artifactId && d.number > 0 && Trim(d.volumeId) != "" && Trim(d.arcId) != ""
    && d.outline.id == d.chapterId && d.outline.number == d.number
    && Trim(d.outline.title) != "" && Trim(d.outline.coreEvent) != "" && Trim(d.outline.hook) != ""
    && d.outline.scenes != []
  }

  /** The position a map keyed by trimmed ID holds: the last one. */
  function Position(chapters: seq<Chapter>, id: string): (k: Option<nat>)
    ensures k.Some? ==> k.value < |chapters| && Trim(chapters[k.value].id) == id
    ensures k.None? ==> forall i | 0 <= i < |chapters| :: Trim(chapters[i].id) != id
  {
    if chapters == [] then None
    else if Trim(Last(chapters).id) == id then Some(|chapters| - 1)
    else Position(Init(chapters), id)
  }

  function Overlay(sealed: Chapter, detail: Chapter): Chapter {
    sealed.(title := detail.title, entryTitle := detail.entryTitle, coreEvent := detail.coreEvent,
            hook := detail.hook, scenes := detail.scenes)
  }

  predicate Owned(volumes: seq<Volume>, number: int, d: Detail) {
    d.volumeId == VolumeId(volumes, number) && d.arcId == VolumeId(volumes, number) + ":revision-arc"
  }

  function MergeOne(base: Plan, plan: Plan, d: Detail): (r: MergeResult)
    requires |plan.chapters| == |base.chapters|
    ensures r.Merged? ==> |r.plan.chapters| == |base.chapters|
  {
    var k := Position(base.chapters, d.chapterId);
    if !Complete(d) then Failed(Incomplete)
    else if k.None? then Failed(Absent)
    else if Structure(plan.chapters[k.value]) != Structure(d.outline) then Failed(StructureChanged)
    else if !Owned(plan.volumes, plan.chapters[k.value].number, d) then Failed(OwnershipChanged)
    else Merged(plan.(chapters := plan.chapters[k.value := Overlay(plan.chapters[k.value], d.outline)]))
  }

  function Merge(base: Plan, details: seq<Detail>): (r: MergeResult)
    ensures r.Merged? ==> |r.plan.chapters| == |base.chapters|
  {
    if details == [] then Merged(base)
    else
      var before := Merge(base, Init(details));
      if before.Failed? then before else MergeOne(base, before.plan, Last(details))
  }

  // ---- The loop ---------------------------------------------------------------------------------

  method Positions(chapters: seq<Chapter>) returns (index: map<string, nat>)
    ensures forall id :: Position(chapters, id) == if id in index then Some(index[id]) else None
  {
    hide Trim;
    index := map[];
    for i := 0 to |chapters|
      invariant forall id :: Position(chapters[..i], id) == if id in index then Some(index[id]) else None
    {
      Prefix(chapters, i);
      index := index[Trim(chapters[i].id) := i];
    }
    Whole(chapters);
  }

  lemma {:induction false} MergeStep(base: Plan, details: seq<Detail>, i: nat)
    requires i < |details|
    ensures
      var before := Merge(base, details[..i]);
      Merge(base, details[..i + 1]) == if before.Failed? then before else MergeOne(base, before.plan, details[i])
  {
    Prefix(details, i);
  }

  lemma {:induction false} FailureStays(base: Plan, details: seq<Detail>, i: nat)
    requires i <= |details| && Merge(base, details[..i]).Failed?
    ensures Merge(base, details) == Merge(base, details[..i])
    decreases |details| - i
  {
    if i == |details| {
      Whole(details);
    } else {
      MergeStep(base, details, i);
      FailureStays(base, details, i + 1);
    }
  }

  /** Works on a copy of the chapters, which it overwrites in place. */
  method MergeDetails(base: Plan, details: seq<Detail>) returns (result: MergeResult)
    ensures result == Merge(base, details)
  {
    hide Trim, Structure, Overlay, Complete, Owned, Merge;
    var n := |base.chapters|;
    var chapters := new Chapter[n](i requires 0 <= i < n => base.chapters[i]);
    assert chapters[..] == base.chapters;
    var index := Positions(base.chapters);
    MergeStart(base, details);
    for i := 0 to |details|
      invariant fresh(chapters) && chapters.Length == n
      invariant Merge(base, details[..i]) == Merged(base.(chapters := chapters[..]))
    {
      var d := details[i];
      MergeStep(base, details, i);
      if !Complete(d) {
        FailureStays(base, details, i + 1);
        return Failed(Incomplete);
      }
      if d.chapterId !in index {
        FailureStays(base, details, i + 1);
        return Failed(Absent);
      }
      var k := index[d.chapterId];
      assert Position(base.chapters, d.chapterId) == Some(k);
      var sealed := chapters[k];
      if Structure(sealed) != Structure(d.outline) {
        FailureStays(base, details, i + 1);
        return Failed(StructureChanged);
      }
      var volumeId := VolumeOf(base.volumes, sealed.number);
      if d.volumeId != volumeId || d.arcId != volumeId + ":revision-arc" {
        NotOwned(base.volumes, sealed.number, d);
        FailureStays(base, details, i + 1);
        return Failed(OwnershipChanged);
      }
      NotOwned(base.volumes, sealed.number, d);
      chapters[k] := Overlay(sealed, d.outline);
    }
    Whole(details);
    result := Merged(base.(chapters := chapters[..]));
  }

  lemma {:induction false} MergeStart(base: Plan, details: seq<Detail>)
    ensures Merge(base, details[..0]) == Merged(base)
  {
  }

  lemma {:induction false} NotOwned(volumes: seq<Volume>, number: int, d: Detail)
    ensures Owned(volumes, number, d) <==>
            d.volumeId == VolumeId(volumes, number) && d.arcId == VolumeId(volumes, number) + ":revision-arc"
  {
  }

  // ---- What the merge does ----------------------------------------------------------------------

  /** The two plans differ at most in the narrative fields of their chapters. */
  predicate SameStructure(p: Plan, q: Plan) {
    && q == p.(chapters := q.chapters) && |q.chapters| == |p.chapters|
    && forall k | 0 <= k < |p.chapters| :: Structure(q.chapters[k]) == Structure(p.chapters[k])
  }

  /** The detail can be merged; this depends on the accepted plan alone. */
  predicate Fits(base: Plan, d: Detail) {
    var k := Position(base.chapters, d.chapterId);
    && Complete(d) && k.Some?
    && Structure(base.chapters[k.value]) == Structure(d.outline)
    && Owned(base.volumes, base.chapters[k.value].number, d)
  }

  lemma {:induction false} MergeOneFits(base: Plan, plan: Plan, d: Detail)
    requires SameStructure(base, plan)
    ensures MergeOne(base, plan, d).Merged? <==> Fits(base, d)
    ensures MergeOne(base, plan, d).Merged? ==> SameStructure(base, MergeOne(base, plan, d).plan)
  {
    hide Trim, Complete, Owned, Position;
    var k := Position(base.chapters, d.chapterId);
    if k.Some? {
      assert Structure(plan.chapters[k.value]) == Structure(base.chapters[k.value]);
      assert Structure(plan.chapters[k.value]).number == plan.chapters[k.value].number;
      assert Structure(base.chapters[k.value]).number == base.chapters[k.value].number;
    }
  }

  /** The merge succeeds exactly when every detail fits the accepted plan, and then it changes nothing but the
      titles, core events, hooks and scenes. */
  lemma {:induction false} MergeDecided(base: Plan, details: seq<Detail>)
    ensures Merge(base, details).Merged? <==> forall i | 0 <= i < |details| :: Fits(base, details[i])
    ensures Merge(base, details).Merged? ==> SameStructure(base, Merge(base, details).plan)
  {
    hide Fits, SameStructure, MergeOne;
    if details == [] {
      StructureItself(base);
    } else {
      var init := Init(details);
      MergeDecided(base, init);
      assert forall i | 0 <= i < |init| :: init[i] == details[i];
      if Merge(base, init).Merged? {
        MergeOneFits(base, Merge(base, init).plan, Last(details));
      }
    }
  }

  lemma {:induction false} StructureItself(p: Plan)
    ensures SameStructure(p, p)
  {
  }

  /** The last detail for the k-th chapter. */
  function DetailFor(base: Plan, details: seq<Detail>, k: nat): Option<Detail> {
    if details == [] then None
    else if Position(base.chapters, Last(details).chapterId) == Some(k) then Some(Last(details))
    else DetailFor(base, Init(details), k)
  }

  lemma {:induction false} MergedAt(base: Plan, details: seq<Detail>, k: nat)
    requires Merge(base, details).Merged? && k < |base.chapters|
    ensures
      var d := DetailFor(base, details, k);
      Merge(base, details).plan.chapters[k] ==
      if d.Some? then Overlay(base.chapters[k], d.value.outline) else base.chapters[k]
  {
    hide Trim, Structure, Complete, Owned, Position;
    if details != [] {
      MergedAt(base, Init(details), k);
    }
  }

  predicate DistinctTargets(details: seq<Detail>) {
    forall i, j | 0 <= i < j < |details| :: details[i].chapterId != details[j].chapterId
  }

  lemma {:induction false} DetailForIs(base: Plan, details: seq<Detail>, k: nat, d: Detail)
    requires DistinctTargets(details) && k < |base.chapters|
    requires forall e | e in details :: Fits(base, e)
    ensures DetailFor(base, details, k) == Some(d) <==> d in details && Position(base.chapters, d.chapterId) == Some(k)
  {
    hide Position, Complete, Owned, Structure, Trim;
    if details != [] {
      var init, last := Init(details), Last(details);
      assert forall i | 0 <= i < |init| :: init[i] == details[i];
      DetailForIs(base, init, k, d);
      if d in details && Position(base.chapters, d.chapterId) == Some(k) && Position(base.chapters, last.chapterId) == Some(k) {
        SamePosition(base, d, last, k);
        var i :| 0 <= i < |details| && details[i] == d;
        assert i == |details| - 1;
      }
    }
  }

  lemma {:induction false} SamePosition(base: Plan, d: Detail, e: Detail, k: nat)
    requires Fits(base, d) && Fits(base, e)
    requires Position(base.chapters, d.chapterId) == Some(k) == Position(base.chapters, e.chapterId)
    ensures d.chapterId == e.chapterId
  {
  }

  /** For distinct chapter IDs the order of the details does not matter. */
  lemma {:induction false} OrderIrrelevant(base: Plan, details: seq<Detail>, others: seq<Detail>)
    requires multiset(details) == multiset(others) && DistinctTargets(details) && DistinctTargets(others)
    ensures Merge(base, details).Merged? <==> Merge(base, others).Merged?
    ensures Merge(base, details).Merged? ==> Merge(base, details) == Merge(base, others)
  {
    hide Fits, Merge, MergeOne, DistinctTargets, SameStructure;
    SameMembers(details, others);
    MergeDecided(base, details);
    MergeDecided(base, others);
    FitsAll(base, details);
    FitsAll(base, others);
    if Merge(base, details).Merged? {
      var p, q := Merge(base, details).plan, Merge(base, others).plan;
      forall k | 0 <= k < |base.chapters|
        ensures p.chapters[k] == q.chapters[k]
      {
        MergedAt(base, details, k);
        MergedAt(base, others, k);
        SameDetail(base, details, others, k);
      }
      StructureBase(base, p);
      StructureBase(base, q);
      assert p.chapters == q.chapters;
    }
  }

  lemma {:induction false} StructureBase(p: Plan, q: Plan)
    requires SameStructure(p, q)
    ensures q == p.(chapters := q.chapters) && |q.chapters| == |p.chapters|
  {
  }

  lemma {:induction false} FitsAll(base: Plan, details: seq<Detail>)
    ensures (forall i | 0 <= i < |details| :: Fits(base, details[i])) <==> forall e | e in details :: Fits(base, e)
  {
    hide Fits;
    if forall e | e in details :: Fits(base, e) {
      forall i | 0 <= i < |details|
        ensures Fits(base, details[i])
      {
        assert details[i] in details;
      }
    }
  }

  lemma {:induction false} SameMembers(a: seq<Detail>, b: seq<Detail>)
    requires multiset(a) == multiset(b)
    ensures forall d :: d in a <==> d in b
  {
    forall d
      ensures d in a <==> d in b
    {
      assert d in a <==> d in multiset(a);
      assert d in b <==> d in multiset(b);
    }
  }

  lemma {:induction false} SameDetail(base: Plan, details: seq<Detail>, others: seq<Detail>, k: nat)
    requires DistinctTargets(details) && DistinctTargets(others) && k < |base.chapters|
    requires (forall e | e in details :: Fits(base, e)) && forall d :: d in details <==> d in others
    ensures DetailFor(base, details, k) == DetailFor(base, others, k)
  {
    hide Fits, Position, DetailFor, DistinctTargets;
    var a, b := DetailFor(base, details, k), DetailFor(base, others, k);
    if a.Some? {
      DetailForIs(base, details, k, a.value);
      DetailForIs(base, others, k, a.value);
    }
    if b.Some? {
      DetailForIs(base, details, k, b.value);
      DetailForIs(base, others, k, b.value);
    }
  }
}
