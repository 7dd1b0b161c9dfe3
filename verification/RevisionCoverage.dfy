/** The check of source coverage, as the code runs it. */
module RevisionCoverage {
  import opened Sequences
  import opened Segments
  import opened RevisionSpec
  import SegmentTiling
  import Sorting

  // ---- Source lengths ---------------------------------------------------------------------------

  method ReadManifest(manifest: seq<SourceChapter>) returns (valid: bool, known: map<int, int>)
    ensures valid == ManifestValid(manifest)
    ensures valid ==> known == ManifestRunes(manifest)
  {
    known := map[];
    for i := 0 to |manifest|
      invariant forall j | 0 <= j < i :: manifest[j].number > 0 && manifest[j].runes > 0
      invariant known == ManifestRunes(manifest[..i])
    {
      Prefix(manifest, i);
      if manifest[i].number <= 0 || manifest[i].runes <= 0 {
        return false, known;
      }
      known := known[manifest[i].number := manifest[i].runes];
    }
    Whole(manifest);
    valid := true;
  }

  method RaiseSources(before: map<int, int>, sources: seq<int>, runes: int) returns (known: map<int, int>)
    ensures known == RaisedAll(before, sources, runes)
  {
    known := before;
    for i := 0 to |sources|
      invariant known == RaisedAll(before, sources[..i], runes)
    {
      Prefix(sources, i);
      known := known[sources[i] := Max(if sources[i] in known then known[sources[i]] else 0, runes)];
    }
    Whole(sources);
  }

  method RaiseEnds(before: map<int, int>, segs: seq<Segment>) returns (known: map<int, int>)
    ensures known == RaisedEnds(before, segs)
  {
    known := before;
    for i := 0 to |segs|
      invariant known == RaisedEnds(before, segs[..i])
    {
      Prefix(segs, i);
      var source := segs[i].sourceChapter;
      known := known[source := Max(if source in known then known[source] else 0, segs[i].share.end)];
    }
    Whole(segs);
  }

  method KnownRunes(base: Plan, manifest: seq<SourceChapter>) returns (valid: bool, known: map<int, int>)
    ensures valid == ManifestValid(manifest)
    ensures valid ==> known == Known(base, manifest)
  {
    valid, known := ReadManifest(manifest);
    if !valid || known != map[] {
      return;
    }
    for i := 0 to |base.chapters|
      invariant known == KnownFromChapters(base.chapters[..i])
    {
      Prefix(base.chapters, i);
      var c := base.chapters[i];
      known := RaiseSources(known, c.sourceChapters, c.sourceRunes);
      known := RaiseEnds(known, c.segments);
    }
    Whole(base.chapters);
    ghost var before := known;
    for i := 0 to |base.sourceEvents|
      invariant known == KnownFromEvents(before, base.sourceEvents[..i])
    {
      Prefix(base.sourceEvents, i);
      var source := base.sourceEvents[i].sourceChapter;
      if source > 0 {
        if source !in known {
          known := known[source := 0];
        }
      }
    }
    Whole(base.sourceEvents);
  }

  // ---- Covered sources --------------------------------------------------------------------------

  method CoverListed(c: Chapter, known: map<int, int>, before: set<int>) returns (ok: bool, covered: set<int>)
    ensures ok == forall s | s in c.sourceChapters :: s > 0 && (known != map[] ==> s in known)
    ensures ok ==> forall s :: s in covered <==> s in before || s in c.sourceChapters
  {
    covered := before;
    for i := 0 to |c.sourceChapters|
      invariant forall j | 0 <= j < i :: c.sourceChapters[j] > 0 && (known != map[] ==> c.sourceChapters[j] in known)
      invariant forall s :: s in covered <==> s in before || exists j | 0 <= j < i :: c.sourceChapters[j] == s
    {
      var source := c.sourceChapters[i];
      assert source in c.sourceChapters;
      if source <= 0 {
        return false, covered;
      }
      if known != map[] && source !in known {
        return false, covered;
      }
      covered := covered + {source};
    }
    ok := true;
  }

  predicate RangeFits(c: Chapter, known: map<int, int>) {
    && (c.rangeFrom > 0 || c.rangeTo > 0 ==> 0 < c.rangeFrom <= c.rangeTo)
    && (known != map[] ==> forall s | c.rangeFrom <= s <= c.rangeTo :: InRange(c, s) ==> s in known)
  }

  method CoverRange(c: Chapter, known: map<int, int>, before: set<int>) returns (ok: bool, covered: set<int>)
    ensures ok == RangeFits(c, known)
    ensures ok ==> forall s :: s in covered <==> s in before || InRange(c, s)
  {
    covered := before;
    if c.rangeFrom > 0 || c.rangeTo > 0 {
      if c.rangeFrom <= 0 || c.rangeTo < c.rangeFrom {
        return false, covered;
      }
      for source := c.rangeFrom to c.rangeTo + 1
        invariant known != map[] ==> forall s | c.rangeFrom <= s < source :: s in known
        invariant forall s :: s in covered <==> s in before || c.rangeFrom <= s < source
      {
        if known != map[] && source !in known {
          assert InRange(c, source);
          return false, covered;
        }
        covered := covered + {source};
      }
    }
    ok := true;
  }

  predicate SegmentFrom(c: Chapter, n: nat, source: int)
    requires n <= |c.segments|
  {
    exists j | 0 <= j < n :: c.segments[j].sourceChapter == source
  }

  /** Appends each segment to the list of its source chapter. */
  method GroupSegments(c: Chapter, ghost all: seq<Segment>, before: map<int, seq<Segment>>, coveredBefore: set<int>)
    returns (groups: map<int, seq<Segment>>, covered: set<int>)
    requires Groups(before, all)
    ensures Groups(groups, all + c.segments)
    ensures forall s :: s in covered <==> s in coveredBefore || SegmentFrom(c, |c.segments|, s)
  {
    hide SegmentsOf;
    groups, covered := before, coveredBefore;
    assert all + c.segments[..0] == all;
    for j := 0 to |c.segments|
      invariant Groups(groups, all + c.segments[..j])
      invariant forall s :: s in covered <==> s in coveredBefore || SegmentFrom(c, j, s)
    {
      var segment := c.segments[j];
      GroupStep(all + c.segments[..j], segment);
      assert all + c.segments[..j + 1] == all + c.segments[..j] + [segment];
      var source := segment.sourceChapter;
      groups := groups[source := (if source in groups then groups[source] else []) + [segment]];
      covered := covered + {source};
    }
    Whole(c.segments);
  }

  ghost predicate Groups(groups: map<int, seq<Segment>>, all: seq<Segment>) {
    forall s :: SegmentsOf(all, s) == if s in groups then groups[s] else []
  }

  lemma {:induction false} GroupStep(all: seq<Segment>, segment: Segment)
    ensures forall s :: SegmentsOf(all + [segment], s) ==
                        SegmentsOf(all, s) + (if segment.sourceChapter == s then [segment] else [])
  {
    assert Init(all + [segment]) == all;
  }

  method CoverChapter(c: Chapter, known: map<int, int>, before: set<int>) returns (ok: bool, covered: set<int>)
    ensures ok == ReferencesFit(c, known)
    ensures ok ==> forall s :: s in covered <==> s in before || s in c.sourceChapters || InRange(c, s)
  {
    ok, covered := CoverListed(c, known, before);
    if ok {
      ok, covered := CoverRange(c, known, covered);
    }
  }

  lemma {:induction false} CoversIff(c: Chapter, s: int)
    ensures CoversSource(c, s) <==> s in c.sourceChapters || InRange(c, s) || SegmentFrom(c, |c.segments|, s)
  {
  }

  // ---- The check --------------------------------------------------------------------------------

  /** What the first n chapters cover. */
  ghost predicate Covered(covered: set<int>, chapters: seq<Chapter>, n: nat)
    requires n <= |chapters|
  {
    forall s :: s in covered <==> exists k | 0 <= k < n :: CoversSource(chapters[k], s)
  }

  method CoverAll(plan: Plan, known: map<int, int>)
    returns (ok: bool, covered: set<int>, groups: map<int, seq<Segment>>)
    ensures ok == forall k | 0 <= k < |plan.chapters| :: ReferencesFit(plan.chapters[k], known)
    ensures ok ==> Covered(covered, plan.chapters, |plan.chapters|) && Groups(groups, AllSegments(plan.chapters))
  {
    hide ReferencesFit, CoversSource, SegmentFrom, InRange, Groups;
    covered, groups := {}, map[];
    NoGroups(plan.chapters);
    for k := 0 to |plan.chapters|
      invariant forall j | 0 <= j < k :: ReferencesFit(plan.chapters[j], known)
      invariant Covered(covered, plan.chapters, k)
      invariant Groups(groups, AllSegments(plan.chapters[..k]))
    {
      Prefix(plan.chapters, k);
      var c := plan.chapters[k];
      ghost var before := covered;
      ok, covered := CoverChapter(c, known, covered);
      if !ok {
        return;
      }
      groups, covered := GroupSegments(c, AllSegments(plan.chapters[..k]), groups, covered);
      CoveredStep(plan.chapters, k, before, covered);
    }
    Whole(plan.chapters);
    ok := true;
  }

  lemma {:induction false} NoGroups(chapters: seq<Chapter>)
    ensures Groups(map[], AllSegments(chapters[..0]))
  {
  }

  lemma {:induction false} CoveredStep(chapters: seq<Chapter>, k: nat, before: set<int>, covered: set<int>)
    requires k < |chapters| && Covered(before, chapters, k)
    requires
      var c := chapters[k];
      forall s :: s in covered <==> s in before || s in c.sourceChapters || InRange(c, s) || SegmentFrom(c, |c.segments|, s)
    ensures Covered(covered, chapters, k + 1)
  {
    hide CoversSource, SegmentFrom, InRange;
    forall s
      ensures s in covered <==> s in before || CoversSource(chapters[k], s)
    {
      CoversIff(chapters[k], s);
    }
  }

  method CheckTiled(plan: Plan, known: map<int, int>, groups: map<int, seq<Segment>>) returns (ok: bool)
    requires Groups(groups, AllSegments(plan.chapters))
    ensures ok == forall s | s in known :: SourceTiled(plan, s, known[s])
  {
    hide AllSegments, SegmentsOf;
    var rest := known.Keys;
    while rest != {}
      invariant rest <= known.Keys
      invariant forall s | s in known && s !in rest :: SourceTiled(plan, s, known[s])
      decreases |rest|
    {
      var source := AnyOf(rest);
      rest := rest - {source};
      if known[source] <= 0 || source !in groups || |groups[source]| == 0 {
        continue;
      }
      var sorted := Sorting.Sorted(groups[source], SequenceLess);
      var fine := SegmentTiling.ValidateSegments(source, known[source], sorted);
      if !fine {
        return false;
      }
    }
    ok := true;
  }

  method CheckCoverage(base: Plan, plan: Plan, manifest: seq<SourceChapter>) returns (ok: bool)
    ensures ok == CoverageFits(base, plan, manifest)
  {
    hide ReferencesFit, CoversSource, Groups, Known, ManifestValid, SourceTiled, NormalGranularity;
    var valid, known := KnownRunes(base, manifest);
    if !valid {
      return false;
    }
    var fits, covered, groups := CoverAll(plan, known);
    if !fits {
      return false;
    }
    var omitted := known.Keys - covered;
    if omitted != {} {
      var source := AnyOf(omitted);
      return false;
    }
    assert forall s | s in known :: s !in omitted && s in covered;
    ok := true;
    if NormalGranularity(plan.granularity) == CHAPTER {
      ok := CheckTiled(plan, known, groups);
    }
  }
}
