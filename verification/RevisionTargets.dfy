/** The checks of stable targets and of the frozen source contract, as the code runs them. */
module RevisionTargets {
  import opened Sequences
  import opened Text
  import opened Segments
  import opened RevisionSpec
  import Sorting

  // ---- Maps keyed by ID -------------------------------------------------------------------------

  lemma {:induction false} LatestSome(chapters: seq<Chapter>, id: string)
    ensures Latest(chapters, id).Some? <==> id != "" && exists i | 0 <= i < |chapters| :: Trim(chapters[i].id) == id
    ensures Latest(chapters, id).Some? ==> Latest(chapters, id).value in chapters && Trim(Latest(chapters, id).value.id) == id
  {
    hide Trim;
    if chapters != [] && id != "" {
      LatestSome(Init(chapters), id);
      if i :| 0 <= i < |chapters| - 1 && Trim(chapters[i].id) == id {
        assert Init(chapters)[i] == chapters[i];
      }
    }
  }

  lemma {:induction false} LatestVolumeSome(volumes: seq<Volume>, id: string)
    ensures LatestVolume(volumes, id).Some? <==> id != "" && exists i | 0 <= i < |volumes| :: Trim(volumes[i].id) == id
    ensures LatestVolume(volumes, id).Some? ==>
              LatestVolume(volumes, id).value in volumes && Trim(LatestVolume(volumes, id).value.id) == id
  {
    hide Trim;
    if volumes != [] && id != "" {
      LatestVolumeSome(Init(volumes), id);
      if i :| 0 <= i < |volumes| - 1 && Trim(volumes[i].id) == id {
        assert Init(volumes)[i] == volumes[i];
      }
    }
  }

  ghost predicate Indexes(index: map<string, Chapter>, chapters: seq<Chapter>) {
    forall id :: Latest(chapters, id) == if id in index then Some(index[id]) else None
  }

  method ById(chapters: seq<Chapter>) returns (index: map<string, Chapter>)
    ensures Indexes(index, chapters)
  {
    hide Trim;
    index := map[];
    for i := 0 to |chapters|
      invariant Indexes(index, chapters[..i])
    {
      Prefix(chapters, i);
      var id := Trim(chapters[i].id);
      if id != "" {
        index := index[id := chapters[i]];
      }
    }
    Whole(chapters);
  }

  ghost predicate IndexesVolumes(index: map<string, Volume>, volumes: seq<Volume>) {
    forall id :: LatestVolume(volumes, id) == if id in index then Some(index[id]) else None
  }

  method VolumesById(volumes: seq<Volume>) returns (index: map<string, Volume>)
    ensures IndexesVolumes(index, volumes)
  {
    hide Trim;
    index := map[];
    for i := 0 to |volumes|
      invariant IndexesVolumes(index, volumes[..i])
    {
      Prefix(volumes, i);
      var id := Trim(volumes[i].id);
      if id != "" {
        index := index[id := volumes[i]];
      }
    }
    Whole(volumes);
  }

  // ---- Target chapters --------------------------------------------------------------------------

  method NonBlank(values: seq<string>) returns (found: bool)
    ensures found == SomeText(values)
  {
    for i := 0 to |values|
      invariant forall j | 0 <= j < i :: Trim(values[j]) == ""
    {
      if Trim(values[i]) != "" {
        return true;
      }
    }
    found := false;
  }

  method CheckTarget(prior: Option<Chapter>, c: Chapter) returns (ok: bool)
    ensures forall base: Plan :: Latest(base.chapters, Trim(c.id)) == prior ==> ok == TargetFits(base, c)
  {
    hide Trim, Latest, SomeText, HasLineage;
    if prior.Some? && prior.value.isAdded != c.isAdded {
      return false;
    }
    if c.isAdded {
      if HasLineage(c) {
        return false;
      }
    }
    if prior.None? {
      var hasSource := HasLineage(c);
      if c.isAdded {
        var owns := NonBlank(c.addedEventIds);
        if Trim(c.coverageNote) == "" || !owns {
          return false;
        }
      } else if !hasSource {
        return false;
      } else if Trim(c.coverageNote) == "" {
        return false;
      }
    }
    ok := true;
  }

  /** The first n chapters pass, and `seen` holds their IDs. */
  ghost predicate TargetsPass(base: Plan, plan: Plan, n: nat, seen: set<string>)
    requires n <= |plan.chapters|
  {
    && (forall k | 0 <= k < n ::
          Trim(plan.chapters[k].id) != "" && plan.chapters[k].number == k + 1 && TargetFits(base, plan.chapters[k]))
    && (forall j, k | 0 <= j < k < n :: Trim(plan.chapters[j].id) != Trim(plan.chapters[k].id))
    && (forall id :: id in seen <==> exists k | 0 <= k < n :: Trim(plan.chapters[k].id) == id)
  }

  method CheckChapters(base: Plan, plan: Plan) returns (ok: bool)
    ensures ok == ChaptersStable(base, plan)
  {
    hide Trim, TargetFits, Latest;
    var index := ById(base.chapters);
    var seen: set<string> := {};
    for k := 0 to |plan.chapters|
      invariant TargetsPass(base, plan, k, seen)
    {
      var c := plan.chapters[k];
      var id := Trim(c.id);
      if id == "" || id in seen {
        return false;
      }
      if c.number != k + 1 {
        return false;
      }
      var fits := CheckTarget(if id in index then Some(index[id]) else None, c);
      if !fits {
        return false;
      }
      seen := seen + {id};
    }
    ok := index.Keys <= seen;
    NothingLost(base.chapters, plan.chapters, index, seen);
  }

  lemma {:induction false} NothingLost(
      base: seq<Chapter>, chapters: seq<Chapter>, index: map<string, Chapter>, seen: set<string>)
    requires Indexes(index, base)
    requires forall id :: id in seen <==> exists k | 0 <= k < |chapters| :: Trim(chapters[k].id) == id
    ensures index.Keys <= seen <==>
            forall i | 0 <= i < |base| && Trim(base[i].id) != "" :: Latest(chapters, Trim(base[i].id)).Some?
  {
    hide Trim, Latest;
    forall id
      ensures id in index <==> id != "" && exists i | 0 <= i < |base| :: Trim(base[i].id) == id
      ensures Latest(chapters, id).Some? <==> id != "" && id in seen
    {
      LatestSome(base, id);
      LatestSome(chapters, id);
    }
  }

  // ---- Volumes ----------------------------------------------------------------------------------

  ghost predicate VolumesPass(base: Plan, plan: Plan, n: nat, seen: set<string>)
    requires n <= |plan.volumes|
  {
    && (forall k | 0 <= k < n :: VolumeFits(base, plan, k))
    && (forall j, k | 0 <= j < k < n :: Trim(plan.volumes[j].id) != Trim(plan.volumes[k].id))
    && (forall id :: id in seen <==> exists k | 0 <= k < n :: Trim(plan.volumes[k].id) == id)
  }

  method CheckVolumes(base: Plan, plan: Plan) returns (ok: bool)
    ensures ok == VolumesStable(base, plan)
  {
    hide Trim, LatestVolume;
    var index := VolumesById(base.volumes);
    var seen: set<string> := {};
    var expectedFrom := 1;
    for k := 0 to |plan.volumes|
      invariant VolumesPass(base, plan, k, seen) && expectedFrom == VolumeStart(plan.volumes, k)
    {
      var v := plan.volumes[k];
      var id := Trim(v.id);
      if id == "" || v.index != k + 1 || v.targetFrom != expectedFrom || v.targetTo < v.targetFrom || v.targetTo > |plan.chapters| {
        assert !VolumeFits(base, plan, k);
        return false;
      }
      if id in seen {
        return false;
      }
      if id in index && (index[id].sourceFrom != v.sourceFrom || index[id].sourceTo != v.sourceTo || index[id].mainlineIds != v.mainlineIds) {
        assert !VolumeFits(base, plan, k);
        return false;
      }
      assert VolumeFits(base, plan, k);
      seen := seen + {id};
      expectedFrom := v.targetTo + 1;
    }
    if |plan.volumes| > 0 && expectedFrom != |plan.chapters| + 1 {
      return false;
    }
    ok := index.Keys <= seen;
    NoVolumeLost(base.volumes, plan.volumes, index, seen);
  }

  lemma {:induction false} NoVolumeLost(
      base: seq<Volume>, volumes: seq<Volume>, index: map<string, Volume>, seen: set<string>)
    requires IndexesVolumes(index, base)
    requires forall id :: id in seen <==> exists k | 0 <= k < |volumes| :: Trim(volumes[k].id) == id
    ensures index.Keys <= seen <==>
            forall i | 0 <= i < |base| && Trim(base[i].id) != "" :: LatestVolume(volumes, Trim(base[i].id)).Some?
  {
    hide Trim, LatestVolume;
    forall id
      ensures id in index <==> id != "" && exists i | 0 <= i < |base| :: Trim(base[i].id) == id
      ensures LatestVolume(volumes, id).Some? <==> id != "" && id in seen
    {
      LatestVolumeSome(base, id);
      LatestVolumeSome(volumes, id);
    }
  }

  method CheckTargets(base: Plan, plan: Plan) returns (ok: bool)
    ensures ok == (ChaptersStable(base, plan) && VolumesStable(base, plan))
  {
    hide *;
    ok := CheckChapters(base, plan);
    if ok {
      ok := CheckVolumes(base, plan);
    }
  }

  // ---- The frozen source contract ---------------------------------------------------------------

  method CollectSegments(chapters: seq<Chapter>) returns (segments: seq<Segment>)
    ensures segments == Collected(chapters)
  {
    segments := [];
    for i := 0 to |chapters|
      invariant segments == AllSegments(chapters[..i])
    {
      Prefix(chapters, i);
      segments := segments + chapters[i].segments;
    }
    Whole(chapters);
    segments := Sorting.Sorted(segments, SegmentLess);
  }

  lemma {:induction false} CollectedSame(chapters: seq<Chapter>)
    ensures multiset(Collected(chapters)) == multiset(AllSegments(chapters))
    ensures Collected(chapters) == [] <==> AllSegments(chapters) == []
  {
    SegmentOrder();
    hide SegmentLess;
    Sorting.SortedIs(AllSegments(chapters), SegmentLess);
    assert |multiset(Collected(chapters))| == |Collected(chapters)|;
    assert |multiset(AllSegments(chapters))| == |AllSegments(chapters)|;
  }

  lemma {:induction false} SegmentOrder()
    ensures Sorting.StrictWeak(SegmentLess) && Sorting.StrictWeak(SequenceLess)
  {
  }

  method CheckSource(base: Plan, plan: Plan) returns (ok: bool)
    ensures ok == SourceFrozen(base, plan)
  {
    hide AllSegments, Collected;
    if !(base.mainlineRules == plan.mainlineRules && base.rules == plan.rules && base.modePolicy == plan.modePolicy
         && base.goals == plan.goals && base.states == plan.states && base.locks == plan.locks) {
      return false;
    }
    if |base.sourceEvents| > 0 && base.sourceEvents != plan.sourceEvents {
      return false;
    }
    var before := CollectSegments(base.chapters);
    CollectedSame(base.chapters);
    if |before| > 0 {
      var after := CollectSegments(plan.chapters);
      if before != after {
        return false;
      }
    }
    ok := true;
  }
}
