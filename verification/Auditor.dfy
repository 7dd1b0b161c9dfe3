/** The auditor: an object that collects findings, as in internal/adaptaudit/audit.go. */
module Auditor {
  import opened Sequences
  import opened Text
  import opened AuditSpec
  import Sorting

  lemma {:induction false} RangeOrder()
    ensures Sorting.StrictWeak(RangeLess) && Sorting.StrictWeak(SourceLess)
  {
  }

  function IntLess(a: int, b: int): bool { a < b }

  method SortRanges(group: seq<SourceSegment>) returns (sorted: seq<SourceSegment>)
    ensures RangeSorted(sorted, group)
  {
    RangeOrder();
    sorted := Sorting.Sorted(group, RangeLess);
    Sorting.SortedIs(group, RangeLess);
  }

  method SortSource(segments: seq<SourceSegment>) returns (order: seq<SourceSegment>)
    ensures SourceSorted(order, segments)
  {
    RangeOrder();
    order := Sorting.Sorted(segments, SourceLess);
    Sorting.SortedIs(segments, SourceLess);
  }

  /** Distinct positive values in increasing order. */
  method SortedPositives(values: seq<int>) returns (out: seq<int>)
    ensures ListsPositives(out, values)
  {
    var seen: set<int> := {};
    var found: seq<int> := [];
    for i := 0 to |values|
      invariant forall v :: v in seen <==> v in values[..i] && v > 0
      invariant forall v :: v in found <==> v in seen
      invariant forall j, k | 0 <= j < k < |found| :: found[j] != found[k]
    {
      Prefix(values, i);
      if values[i] > 0 && values[i] !in seen {
        seen := seen + {values[i]};
        found := found + [values[i]];
      }
    }
    assert values[..|values|] == values;
    out := Sorting.Sorted(found, IntLess);
    Sorting.SortedIs(found, IntLess);
    StrictlySorted(out, found);
  }

  lemma {:induction false} StrictlySorted(out: seq<int>, found: seq<int>)
    requires multiset(out) == multiset(found) && Sorting.Ordered(out, IntLess)
    requires forall j, k | 0 <= j < k < |found| :: found[j] != found[k]
    ensures forall v :: v in out <==> v in found
    ensures forall i, j | 0 <= i < j < |out| :: out[i] < out[j]
  {
    Rearranged(found, out);
    assert forall i, j | 0 <= i < j < |out| :: out[i] != out[j];
  }

  class Auditor {
    const input: Input
    var artifacts: map<string, Artifact>
    var bindings: map<string, seq<Binding>>
    var findings: seq<Finding>
    var covered: nat

    /** The two indexes agree with the input, and every finding blocks. */
    ghost predicate Valid()
      reads this
    {
      && artifacts == ArtifactMap(input.artifacts)
      && (forall id :: ByEvent(input.bindings, id) == if id in bindings then bindings[id] else [])
      && (forall f | f in findings :: f.blocking)
    }

    constructor (input: Input)
      ensures Valid() && this.input == input && findings == [] && covered == 0
    {
      this.input := input;
      findings, covered := [], 0;
      var found := IndexArtifacts(input.artifacts);
      var byEvent := IndexBindings(input.bindings);
      artifacts, bindings := found, byEvent;
    }

    static method IndexArtifacts(all: seq<Artifact>) returns (found: map<string, Artifact>)
      ensures found == ArtifactMap(all)
    {
      found := map[];
      for i := 0 to |all|
        invariant found == ArtifactMap(all[..i])
      {
        Prefix(all, i);
        found := found[all[i].id := all[i]];
      }
      Whole(all);
    }

    static method IndexBindings(all: seq<Binding>) returns (byEvent: map<string, seq<Binding>>)
      ensures forall id :: ByEvent(all, id) == if id in byEvent then byEvent[id] else []
    {
      byEvent := map[];
      for i := 0 to |all|
        invariant forall id :: ByEvent(all[..i], id) == if id in byEvent then byEvent[id] else []
      {
        EventsStep(all, i);
        var b := all[i];
        if b.eventId != "" {
          byEvent := byEvent[b.eventId := (if b.eventId in byEvent then byEvent[b.eventId] else []) + [b]];
        }
      }
      Whole(all);
    }

    method AddFinding(code: Code, eventId: string, segmentId: string)
      requires Valid()
      modifies `findings
      ensures Valid() && Codes(findings) == old(Codes(findings)) + {code}
    {
      CodesAppend(findings, [Finding(code, true, eventId, segmentId)]);
      findings := findings + [Finding(code, true, eventId, segmentId)];
    }

    method AuditContract(group: seq<SourceSegment>, index: nat)
      requires Valid() && index < |group|
      modifies `findings
      ensures Valid() && Codes(findings) == old(Codes(findings)) + ContractCodes(group, index)
    {
      hide Valid, StatesEqual, Codes;
      ghost var c0 := Codes(findings);
      var segment := group[index];
      if !segment.contract {
        AddFinding(ContractMissing, "", segment.id);
      }
      ghost var c1 := Codes(findings);
      assert c1 == c0 + Raise(!segment.contract, ContractMissing);
      if segment.sequence != index + 1 {
        AddFinding(SegmentSequence, "", segment.id);
      }
      ghost var c2 := Codes(findings);
      assert c2 == c1 + Raise(segment.sequence != index + 1, SegmentSequence);
      if segment.entry.None? || segment.exit.None? {
        AddFinding(StateMissing, "", segment.id);
      }
      ghost var c3 := Codes(findings);
      assert c3 == c2 + Raise(segment.entry.None? || segment.exit.None?, StateMissing);
      if index > 0 && !StatesEqual(group[index - 1].exit, segment.entry) {
        AddFinding(StateBreak, "", segment.id);
      }
    }

    /** Sequence numbers, contracts and states of one source chapter, in input order. */
    method AuditContracts(group: seq<SourceSegment>)
      requires Valid()
      modifies `findings
      ensures Valid() && Codes(findings) == old(Codes(findings)) + ContractCodesUpTo(group, |group|)
    {
      for index := 0 to |group|
        invariant Valid() && Codes(findings) == old(Codes(findings)) + ContractCodesUpTo(group, index)
      {
        AuditContract(group, index);
        assert Codes(findings) == old(Codes(findings)) + (ContractCodesUpTo(group, index) + ContractCodes(group, index));
      }
    }

    method AuditCount(group: seq<SourceSegment>)
      requires Valid()
      modifies `findings
      ensures Valid() && Codes(findings) == old(Codes(findings)) + CountCodes(group)
    {
      var total, max := 0, 0;
      for k := 0 to |group|
        invariant total == MaxTotal(group, k) && max == MaxMax(group, k)
      {
        if group[k].total > total {
          total := group[k].total;
        }
        if group[k].max > max {
          max := group[k].max;
        }
      }
      if total > 0 && max > 0 {
        var minimum := (total - 1) / max + 1;
        if |group| < minimum {
          AddFinding(InsufficientSegments, "", "");
        }
      }
    }

    method AuditRanges(sorted: seq<SourceSegment>)
      requires Valid()
      modifies `findings
      ensures Valid() && Codes(findings) == old(Codes(findings)) + RangeCodes(sorted)
    {
      var expectedFrom, totalRunes := 0, 0;
      for n := 0 to |sorted|
        invariant Valid() && expectedFrom == Reached(sorted, n) && totalRunes == MaxTotal(sorted, n)
        invariant Codes(findings) == old(Codes(findings)) + SweepCodes(sorted, n)
      {
        var segment := sorted[n];
        if segment.from > expectedFrom {
          AddFinding(SplitGap, "", segment.id);
        }
        if segment.from < expectedFrom {
          AddFinding(SplitOverlap, "", segment.id);
        }
        if segment.to <= segment.from {
          AddFinding(InvalidSegment, "", segment.id);
        }
        if segment.to > expectedFrom {
          expectedFrom := segment.to;
        }
        if segment.total > totalRunes {
          totalRunes := segment.total;
        }
      }
      if totalRunes > 0 && expectedFrom < totalRunes {
        AddFinding(SplitGap, "", "");
      }
    }

    method AuditGroup(group: seq<SourceSegment>) returns (ghost sorted: seq<SourceSegment>)
      requires Valid()
      modifies `findings
      ensures Valid() && RangeSorted(sorted, group)
      ensures Codes(findings) == old(Codes(findings)) + GroupCodes(group, sorted)
    {
      AuditContracts(group);
      AuditCount(group);
      var ranges := SortRanges(group);
      AuditRanges(ranges);
      sorted := ranges;
    }

    /** Every chapter's group is audited; the map's iteration order is arbitrary. */
    method AuditGroups() returns (ghost sorts: map<int, seq<SourceSegment>>)
      requires Valid()
      modifies `findings
      ensures Valid() && SortsAll(input.segments, sorts)
      ensures Codes(findings) == old(Codes(findings)) + ChapterCodes(input.segments, sorts)
    {
      hide GroupCodes, RangeSorted, Group, Valid, Chapters;
      var groups := GroupByChapter(input.segments);
      sorts := map[];
      var rest := groups.Keys;
      while rest != {}
        invariant Valid() && rest <= groups.Keys && sorts.Keys == groups.Keys - rest
        invariant forall c | c in sorts :: RangeSorted(sorts[c], Group(input.segments, c))
        invariant Codes(findings) == old(Codes(findings)) + ChapterCodes(input.segments, sorts)
        decreases |rest|
      {
        var c := AnyOf(rest);
        rest := rest - {c};
        ghost var sorted := AuditGroup(groups[c]);
        ChapterCodesStep(input.segments, sorts, c, sorted);
        sorts := sorts[c := sorted];
      }
    }

    method SegmentBindings(segmentId: string) returns (out: seq<Binding>)
      requires Valid()
      ensures out == BindingsFor(input.bindings, segmentId)
    {
      out := [];
      for i := 0 to |input.bindings|
        invariant out == BindingsFor(input.bindings[..i], segmentId)
      {
        Prefix(input.bindings, i);
        if segmentId in input.bindings[i].segmentIds {
          out := out + [input.bindings[i]];
        }
      }
      assert input.bindings[..|input.bindings|] == input.bindings;
    }

    method SetValid(items: seq<Evidence>, kind: Kind) returns (valid: bool)
      requires Valid()
      ensures valid == EvidenceSetValid(artifacts, items, kind)
    {
      for i := 0 to |items|
        invariant forall j | 0 <= j < i ::
                    !(items[j].artifactId in artifacts && artifacts[items[j].artifactId].kind == kind && EvidenceValid(artifacts, items[j]))
      {
        var item := items[i];
        if item.artifactId !in artifacts || artifacts[item.artifactId].kind != kind || !EvidenceValid(artifacts, item) {
          continue;
        }
        return true;
      }
      valid := false;
    }

    /** The bindings of one segment: target order against everything visited before, and evidence. */
    method AuditBindings(bound: seq<Binding>, ghost visited: seq<Binding>, last: int, segmentId: string)
      returns (lastTarget: int, proved: bool)
      requires Valid() && LastTarget(visited, last)
      requires TargetOrder in Codes(findings) <==> !NeverStepsBack(visited)
      modifies `findings
      ensures Valid() && LastTarget(visited + bound, lastTarget)
      ensures TargetOrder in Codes(findings) <==> !NeverStepsBack(visited + bound)
      ensures Codes(findings) - {TargetOrder} == old(Codes(findings)) - {TargetOrder}
      ensures proved <==> exists b :: b in bound && Proves(artifacts, b)
    {
      hide NeverStepsBack, LastTarget, ListsPositives, EvidenceSetValid, Valid;
      lastTarget, proved := last, false;
      assert visited + bound[..0] == visited;
      for i := 0 to |bound|
        invariant Valid() && LastTarget(visited + bound[..i], lastTarget)
        invariant TargetOrder in Codes(findings) <==> !NeverStepsBack(visited + bound[..i])
        invariant Codes(findings) - {TargetOrder} == old(Codes(findings)) - {TargetOrder}
        invariant proved <==> exists j | 0 <= j < i :: Proves(artifacts, bound[j])
      {
        var binding := bound[i];
        Prefix(bound, i);
        assert visited + bound[..i + 1] == visited + bound[..i] + [binding];
        var chapters := SortedPositives(binding.targets);
        TargetStep(visited + bound[..i], binding, lastTarget, chapters);
        if |chapters| > 0 && chapters[0] < lastTarget {
          AddFinding(TargetOrder, "", segmentId);
        }
        if |chapters| > 0 && chapters[|chapters| - 1] > lastTarget {
          lastTarget := chapters[|chapters| - 1];
        }
        var plan := SetValid(binding.plan, TargetPlan);
        var body := SetValid(binding.body, TargetChapter);
        if plan && body {
          proved := true;
          assert Proves(artifacts, bound[i]);
        }
      }
      assert bound[..|bound|] == bound;
    }

    /** One source segment: its bindings in order, and whether it is covered. */
    method AuditSegment(segment: SourceSegment, ghost visited: seq<Binding>, last: int) returns (lastTarget: int)
      requires Valid() && LastTarget(visited, last)
      requires TargetOrder in Codes(findings) <==> !NeverStepsBack(visited)
      modifies `findings, `covered
      ensures Valid() && LastTarget(visited + BindingsFor(input.bindings, segment.id), lastTarget)
      ensures TargetOrder in Codes(findings) <==> !NeverStepsBack(visited + BindingsFor(input.bindings, segment.id))
      ensures MissingCoverage in Codes(findings) <==> MissingCoverage in old(Codes(findings)) || Uncovered(segment, input)
      ensures Codes(findings) - {TargetOrder, MissingCoverage} == old(Codes(findings)) - {TargetOrder, MissingCoverage}
    {
      hide NeverStepsBack, LastTarget, Proves;
      var bound := SegmentBindings(segment.id);
      if segment.required && |bound| == 0 {
        assert visited + bound == visited;
        AddFinding(MissingCoverage, "", segment.id);
        return last;
      }
      var proved;
      lastTarget, proved := AuditBindings(bound, visited, last, segment.id);
      MinusTwo(Codes(findings), old(Codes(findings)), TargetOrder, MissingCoverage);
      if segment.required && !proved {
        AddFinding(MissingCoverage, "", segment.id);
      } else if proved {
        covered := covered + 1;
      }
    }

    method AuditTargets() returns (ghost order: seq<SourceSegment>)
      requires Valid() && TargetOrder !in Codes(findings) && MissingCoverage !in Codes(findings)
      modifies `findings, `covered
      ensures Valid() && SourceSorted(order, input.segments)
      ensures TargetOrder in Codes(findings) <==> !NeverStepsBack(Visited(order, input.bindings))
      ensures MissingCoverage in Codes(findings) <==> exists i | 0 <= i < |order| :: Uncovered(order[i], input)
      ensures Codes(findings) - {TargetOrder, MissingCoverage} == old(Codes(findings))
    {
      hide NeverStepsBack, LastTarget, Uncovered, Valid, SourceSorted;
      NothingVisited();
      var segments := SortSource(input.segments);
      order := segments;
      var lastTarget := 0;
      ghost var visited: seq<Binding> := [];
      for n := 0 to |segments|
        invariant Valid() && visited == Visited(order[..n], input.bindings) && LastTarget(visited, lastTarget)
        invariant TargetOrder in Codes(findings) <==> !NeverStepsBack(visited)
        invariant MissingCoverage in Codes(findings) <==> exists i | 0 <= i < n :: Uncovered(order[i], input)
        invariant Codes(findings) - {TargetOrder, MissingCoverage} == old(Codes(findings))
      {
        Prefix(order, n);
        lastTarget := AuditSegment(segments[n], visited, lastTarget);
        visited := visited + BindingsFor(input.bindings, segments[n].id);
      }
      assert order[..|order|] == order;
    }

    method FirstChapter(eventId: string) returns (first: int)
      requires Valid()
      ensures first == First(input.bindings, eventId)
    {
      var bound := if eventId in bindings then bindings[eventId] else [];
      var chapters: seq<int> := [];
      for i := 0 to |bound|
        invariant chapters == AllTargets(bound[..i])
      {
        Prefix(bound, i);
        chapters := chapters + bound[i].targets;
      }
      assert bound[..|bound|] == bound;
      var sorted := SortedPositives(chapters);
      LeastIsFirst(chapters, sorted);
      first := if |sorted| == 0 then 0 else sorted[0];
    }

    method AuditCausalOrder()
      requires Valid() && CausalOrder !in Codes(findings)
      modifies `findings
      ensures Valid()
      ensures CausalOrder in Codes(findings) <==> !Causal(input)
      ensures Codes(findings) - {CausalOrder} == old(Codes(findings))
    {
      hide Valid, First, Established;
      for i := 0 to |input.events|
        invariant Valid() && Codes(findings) - {CausalOrder} == old(Codes(findings))
        invariant CausalOrder in Codes(findings) <==> exists j | 0 <= j < i :: !EventCausal(input, input.events[j])
      {
        var event := input.events[i];
        if input.mode == FreeMode && event.origin == FromSource && event.class_ == Ordinary {
          continue;
        }
        var eventChapter := FirstChapter(event.id);
        if eventChapter <= 0 {
          continue;
        }
        AuditDependencies(event, eventChapter);
        EventDecided(input, event);
      }
    }

    method AuditDependencies(event: Event, eventChapter: int)
      requires Valid() && eventChapter == First(input.bindings, event.id)
      modifies `findings
      ensures Valid() && Codes(findings) - {CausalOrder} == old(Codes(findings)) - {CausalOrder}
      ensures CausalOrder in Codes(findings) <==>
                || CausalOrder in old(Codes(findings))
                || exists d | 0 <= d < |event.dependsOn| :: !Established(input, event, event.dependsOn[d])
    {
      hide Valid, First;
      for k := 0 to |event.dependsOn|
        invariant Valid() && Codes(findings) - {CausalOrder} == old(Codes(findings)) - {CausalOrder}
        invariant CausalOrder in Codes(findings) <==>
                    || CausalOrder in old(Codes(findings))
                    || exists d | 0 <= d < k :: !Established(input, event, event.dependsOn[d])
      {
        var dependencyChapter := FirstChapter(event.dependsOn[k]);
        if dependencyChapter > 0 && dependencyChapter < eventChapter {
          continue;
        }
        AddFinding(CausalOrder, event.id, "");
      }
    }

    method ValidateEvidence()
      requires Valid() && findings == []
      modifies `findings
      ensures Valid() && Codes(findings) == Raise(!EvidenceHolds(input), InvalidEvidence)
    {
      var events := EventEvidence();
      var bindings := BindingEvidence();
    }

    method EventEvidence() returns (ok: bool)
      requires Valid()
      modifies `findings
      ensures Valid() && ok == forall j | 0 <= j < |input.events| :: AllValid(artifacts, input.events[j].evidence)
      ensures Codes(findings) == old(Codes(findings)) + Raise(!ok, InvalidEvidence)
    {
      hide Valid, AllValid;
      ok := true;
      for i := 0 to |input.events|
        invariant Valid() && Codes(findings) == old(Codes(findings)) + Raise(!ok, InvalidEvidence)
        invariant ok <==> forall j | 0 <= j < i :: AllValid(artifacts, input.events[j].evidence)
      {
        var fine := CheckEvidence(input.events[i].id, input.events[i].evidence);
        ok := ok && fine;
      }
    }

    method BindingEvidence() returns (ok: bool)
      requires Valid()
      modifies `findings
      ensures Valid()
      ensures ok == forall j | 0 <= j < |input.bindings| ::
                      AllValid(artifacts, input.bindings[j].plan) && AllValid(artifacts, input.bindings[j].body)
      ensures Codes(findings) == old(Codes(findings)) + Raise(!ok, InvalidEvidence)
    {
      hide Valid, AllValid;
      ok := true;
      for i := 0 to |input.bindings|
        invariant Valid() && Codes(findings) == old(Codes(findings)) + Raise(!ok, InvalidEvidence)
        invariant ok <==> forall j | 0 <= j < i ::
                    AllValid(artifacts, input.bindings[j].plan) && AllValid(artifacts, input.bindings[j].body)
      {
        var b := input.bindings[i];
        var owner := if b.eventId == "" && |b.segmentIds| > 0 then b.segmentIds[0] else b.eventId;
        var plan := CheckEvidence(owner, b.plan);
        var body := CheckEvidence(owner, b.body);
        ok := ok && plan && body;
      }
    }

    method CheckEvidence(owner: string, items: seq<Evidence>) returns (fine: bool)
      requires Valid()
      modifies `findings
      ensures Valid() && fine == AllValid(artifacts, items)
      ensures Codes(findings) == old(Codes(findings)) + Raise(!fine, InvalidEvidence)
    {
      fine := true;
      for i := 0 to |items|
        invariant Valid() && fine == AllValid(artifacts, items[..i])
        invariant Codes(findings) == old(Codes(findings)) + Raise(!fine, InvalidEvidence)
      {
        ValidStep(artifacts, items, i);
        if EvidenceValid(artifacts, items[i]) {
          continue;
        }
        fine := false;
        AddFinding(InvalidEvidence, owner, "");
      }
      assert items[..|items|] == items;
    }

    /** The whole audit. The findings of arc and free mode are not modelled: they enter as `others`. */
    method Audit(others: seq<Finding>)
      returns (passed: bool, ghost sorts: map<int, seq<SourceSegment>>, ghost order: seq<SourceSegment>)
      requires Valid() && findings == []
      requires forall f | f in others :: f.blocking && f.code.ModeSpecific?
      modifies `findings, `covered
      ensures Valid()
      ensures input.mode.ChapterMode? ==>
                && SourceSorted(order, input.segments) && SortsAll(input.segments, sorts)
                && (passed <==> EvidenceHolds(input) && Causal(input) && ChapterHolds(input, sorts, order))
      ensures input.mode.ArcMode? || input.mode.FreeMode? ==>
                (passed <==> EvidenceHolds(input) && Causal(input) && others == [])
      ensures input.mode.UnknownMode? ==> !passed
    {
      hide *;
      sorts, order := map[], [];
      ghost var evidence := EvidenceHolds(input);
      ValidateEvidence();
      Raised(!evidence, InvalidEvidence);
      ghost var first := Codes(findings);
      match input.mode {
        case ChapterMode =>
          sorts := AuditGroups();
          QuietChapters(input.segments, sorts);
          order := AuditTargets();
        case ArcMode | FreeMode =>
          AddOthers(others);
        case UnknownMode(_) =>
          AddFinding(InvalidMode, "", "");
      }
      ghost var second := Codes(findings);
      AuditCausalOrder();
      NoFindings(findings);
      passed := |findings| == 0;
      if input.mode.ChapterMode? {
        ChapterVerdict(input, sorts, order, first, second, Codes(findings));
      } else if !input.mode.UnknownMode? {
        OtherVerdict(input, first, Codes(others), Codes(findings));
      }
    }

    method AddOthers(others: seq<Finding>)
      requires Valid()
      requires forall f | f in others :: f.blocking && f.code.ModeSpecific?
      modifies `findings
      ensures Valid() && Codes(findings) == old(Codes(findings)) + Codes(others)
      ensures CausalOrder !in Codes(others) && (Codes(others) == {} <==> others == [])
    {
      CodesAppend(findings, others);
      OnlySpecific(others);
      findings := findings + others;
    }
  }

  lemma {:induction false} MinusTwo(a: set<Code>, b: set<Code>, x: Code, y: Code)
    requires a - {x} == b - {x}
    ensures a - {x, y} == b - {x, y}
    ensures x != y ==> (y in a <==> y in b)
  {
    assert a - {x, y} == (a - {x}) - {y};
    assert b - {x, y} == (b - {x}) - {y};
    assert x != y ==> (y in a <==> y in a - {x}) && (y in b <==> y in b - {x});
  }

  lemma {:induction false} Raised(condition: bool, code: Code)
    ensures Raise(condition, code) == {} <==> !condition
    ensures Raise(condition, code) <= {code}
  {
  }

  /** The last set of codes is empty exactly when nothing was found on the way. */
  lemma {:induction false} ChapterVerdict(
      input: Input, sorts: map<int, seq<SourceSegment>>, order: seq<SourceSegment>,
      first: set<Code>, second: set<Code>, third: set<Code>)
    requires first == Raise(!EvidenceHolds(input), InvalidEvidence)
    requires second - {TargetOrder, MissingCoverage} == first + ChapterCodes(input.segments, sorts)
    requires TargetOrder in second <==> !NeverStepsBack(Visited(order, input.bindings))
    requires MissingCoverage in second <==> exists i | 0 <= i < |order| :: Uncovered(order[i], input)
    requires third - {CausalOrder} == second && (CausalOrder in third <==> !Causal(input))
    ensures third == {} <==> EvidenceHolds(input) && Causal(input) && ChapterHolds(input, sorts, order)
  {
    hide EvidenceHolds, ChapterCodes, NeverStepsBack, Visited, Uncovered, Causal, GroupCodes, Group;
    QuietChapters(input.segments, sorts);
    var chapter := ChapterCodes(input.segments, sorts);
    if second == {} {
      assert first <= first + chapter && chapter <= first + chapter;
    }
    if third == {} {
      assert second == {};
    }
  }

  lemma {:induction false} OtherVerdict(input: Input, first: set<Code>, others: set<Code>, last: set<Code>)
    requires first == Raise(!EvidenceHolds(input), InvalidEvidence)
    requires last - {CausalOrder} == first + others && (CausalOrder in last <==> !Causal(input))
    ensures last == {} <==> EvidenceHolds(input) && Causal(input) && others == {}
  {
    hide EvidenceHolds, Causal;
    if last == {} {
      assert first <= first + others && others <= first + others;
    }
  }

  lemma {:induction false} NothingVisited()
    ensures NeverStepsBack([]) && LastTarget([], 0)
  {
  }

  // ---- Facts the loops use ----------------------------------------------------------------------

  lemma {:induction false} EventsStep(bindings: seq<Binding>, i: nat)
    requires i < |bindings|
    ensures forall id :: ByEvent(bindings[..i + 1], id) ==
                         ByEvent(bindings[..i], id) + (if id != "" && bindings[i].eventId == id then [bindings[i]] else [])
  {
    Prefix(bindings, i);
  }

  method GroupByChapter(segments: seq<SourceSegment>) returns (groups: map<int, seq<SourceSegment>>)
    ensures groups.Keys == Chapters(segments)
    ensures forall c | c in groups :: groups[c] == Group(segments, c)
  {
    hide Chapters, Group;
    groups := map[];
    GroupStart(segments);
    for i := 0 to |segments|
      invariant groups.Keys == Chapters(segments[..i])
      invariant forall c :: Group(segments[..i], c) == if c in groups then groups[c] else []
    {
      GroupStep(segments, i);
      var s := segments[i];
      groups := groups[s.chapter := (if s.chapter in groups then groups[s.chapter] else []) + [s]];
    }
    assert segments[..|segments|] == segments;
  }

  lemma {:induction false} GroupStart(segments: seq<SourceSegment>)
    ensures Chapters(segments[..0]) == {} && forall c :: Group(segments[..0], c) == []
  {
  }

  lemma {:induction false} GroupStep(segments: seq<SourceSegment>, i: nat)
    requires i < |segments|
    ensures Chapters(segments[..i + 1]) == Chapters(segments[..i]) + {segments[i].chapter}
    ensures forall c :: Group(segments[..i + 1], c) ==
                        Group(segments[..i], c) + (if segments[i].chapter == c then [segments[i]] else [])
  {
    Prefix(segments, i);
  }

  ghost function ChapterCodes(segments: seq<SourceSegment>, sorts: map<int, seq<SourceSegment>>): set<Code> {
    set c, code | c in sorts && code in GroupCodes(Group(segments, c), sorts[c]) :: code
  }

  lemma {:induction false} ChapterCodesStep(
      segments: seq<SourceSegment>, sorts: map<int, seq<SourceSegment>>, c: int, sorted: seq<SourceSegment>)
    requires c !in sorts
    ensures ChapterCodes(segments, sorts[c := sorted]) ==
            ChapterCodes(segments, sorts) + GroupCodes(Group(segments, c), sorted)
  {
    hide GroupCodes;
    var more := sorts[c := sorted];
    forall code | code in ChapterCodes(segments, more)
      ensures code in ChapterCodes(segments, sorts) + GroupCodes(Group(segments, c), sorted)
    {
      var d :| d in more && code in GroupCodes(Group(segments, d), more[d]);
      if d != c {
        assert d in sorts && sorts[d] == more[d];
      }
    }
    forall code | code in ChapterCodes(segments, sorts)
      ensures code in ChapterCodes(segments, more)
    {
      var d :| d in sorts && code in GroupCodes(Group(segments, d), sorts[d]);
      assert d in more && more[d] == sorts[d];
    }
    assert more[c] == sorted;
  }

  ghost predicate SortsAll(segments: seq<SourceSegment>, sorts: map<int, seq<SourceSegment>>) {
    sorts.Keys == Chapters(segments) && forall c | c in sorts :: RangeSorted(sorts[c], Group(segments, c))
  }

  /** What a passing chapter audit has established, for the orders its unstable sorts produced. */
  ghost predicate ChapterHolds(input: Input, sorts: map<int, seq<SourceSegment>>, order: seq<SourceSegment>) {
    && (forall c | c in sorts :: GroupCodes(Group(input.segments, c), sorts[c]) == {})
    && NeverStepsBack(Visited(order, input.bindings))
    && (forall i | 0 <= i < |order| :: !Uncovered(order[i], input))
  }

  lemma {:induction false} QuietChapters(segments: seq<SourceSegment>, sorts: map<int, seq<SourceSegment>>)
    ensures ChapterCodes(segments, sorts) == {} <==> forall c | c in sorts :: GroupCodes(Group(segments, c), sorts[c]) == {}
    ensures ChapterCodes(segments, sorts) !! {TargetOrder, MissingCoverage, CausalOrder, InvalidEvidence}
  {
    forall c | c in sorts
      ensures GroupCodes(Group(segments, c), sorts[c]) !! {TargetOrder, MissingCoverage, CausalOrder, InvalidEvidence}
    {
      GroupRange(Group(segments, c), sorts[c]);
    }
    hide GroupCodes;
    if ChapterCodes(segments, sorts) == {} {
      forall c | c in sorts
        ensures GroupCodes(Group(segments, c), sorts[c]) == {}
      {
        assert GroupCodes(Group(segments, c), sorts[c]) <= ChapterCodes(segments, sorts);
      }
    }
  }

  lemma {:induction false} GroupRange(group: seq<SourceSegment>, sorted: seq<SourceSegment>)
    ensures GroupCodes(group, sorted) <=
            {ContractMissing, SegmentSequence, StateMissing, StateBreak, InsufficientSegments, SplitGap, SplitOverlap, InvalidSegment}
  {
    ContractRange(group, |group|);
    SweepRange(sorted, |sorted|);
  }

  lemma {:induction false} ContractRange(group: seq<SourceSegment>, n: nat)
    requires n <= |group|
    ensures ContractCodesUpTo(group, n) <= {ContractMissing, SegmentSequence, StateMissing, StateBreak}
  {
    if n > 0 {
      ContractRange(group, n - 1);
    }
  }

  lemma {:induction false} SweepRange(sorted: seq<SourceSegment>, n: nat)
    requires n <= |sorted|
    ensures SweepCodes(sorted, n) <= {SplitGap, SplitOverlap, InvalidSegment}
  {
    if n > 0 {
      SweepRange(sorted, n - 1);
    }
  }

  /** `last` is the greatest positive target visited so far, or 0. */
  ghost predicate LastTarget(visited: seq<Binding>, last: int) {
    && last >= 0
    && (forall i, a | 0 <= i < |visited| && a in visited[i].targets && a > 0 :: a <= last)
    && (last > 0 ==> exists i | 0 <= i < |visited| :: last in visited[i].targets)
  }

  lemma {:induction false} TargetStep(visited: seq<Binding>, b: Binding, last: int, chapters: seq<int>)
    requires LastTarget(visited, last) && ListsPositives(chapters, b.targets)
    ensures NeverStepsBack(visited + [b]) <==> NeverStepsBack(visited) && !(|chapters| > 0 && chapters[0] < last)
    ensures LastTarget(visited + [b], if |chapters| > 0 && chapters[|chapters| - 1] > last then chapters[|chapters| - 1] else last)
  {
    var all := visited + [b];
    assert all[|visited|] == b && forall i | 0 <= i < |visited| :: all[i] == visited[i];
    if |chapters| > 0 && chapters[0] < last {
      assert chapters[0] in chapters;
      var i :| 0 <= i < |visited| && last in visited[i].targets;
      assert chapters[0] in all[|visited|].targets && last in all[i].targets;
      assert !NeverStepsBack(all);
    } else {
      forall a | a in b.targets && a > 0
        ensures last <= a
      {
        assert a in chapters;
        var k :| 0 <= k < |chapters| && chapters[k] == a;
      }
    }
    if NeverStepsBack(all) {
      assert NeverStepsBack(visited);
    }
    LastStep(visited, b, last, chapters);
  }

  lemma {:induction false} LastStep(visited: seq<Binding>, b: Binding, last: int, chapters: seq<int>)
    requires LastTarget(visited, last) && ListsPositives(chapters, b.targets)
    ensures LastTarget(visited + [b], if |chapters| > 0 && chapters[|chapters| - 1] > last then chapters[|chapters| - 1] else last)
  {
    var all := visited + [b];
    assert all[|visited|] == b;
    forall a | a in b.targets && a > 0
      ensures |chapters| > 0 && a <= chapters[|chapters| - 1]
    {
      assert a in chapters;
      var k :| 0 <= k < |chapters| && chapters[k] == a;
    }
    if last > 0 {
      var i :| 0 <= i < |visited| && last in visited[i].targets;
      assert last in all[i].targets;
    }
    if |chapters| > 0 {
      assert chapters[|chapters| - 1] in chapters;
      assert chapters[|chapters| - 1] in all[|visited|].targets;
    }
  }

  lemma {:induction false} LeastIsFirst(values: seq<int>, sorted: seq<int>)
    requires ListsPositives(sorted, values)
    ensures LeastPositive(values) == if |sorted| == 0 then 0 else sorted[0]
  {
    var m := LeastPositive(values);
    if |sorted| > 0 {
      assert sorted[0] in sorted;
      var i :| 0 <= i < |values| && values[i] == sorted[0];
    }
    if m > 0 {
      assert m in sorted;
      var k :| 0 <= k < |sorted| && sorted[k] == m;
    }
  }

  predicate EventCausal(input: Input, e: Event) {
    Checked(input, e) ==> forall k | 0 <= k < |e.dependsOn| :: Established(input, e, e.dependsOn[k])
  }

  lemma {:induction false} EventDecided(input: Input, e: Event)
    requires Checked(input, e)
    ensures (exists d | 0 <= d < |e.dependsOn| :: !Established(input, e, e.dependsOn[d])) <==> !EventCausal(input, e)
  {
  }

  lemma {:induction false} ValidStep(artifacts: map<string, Artifact>, items: seq<Evidence>, i: nat)
    requires i < |items|
    ensures AllValid(artifacts, items[..i + 1]) <==> AllValid(artifacts, items[..i]) && EvidenceValid(artifacts, items[i])
  {
    hide EvidenceValid;
    Prefix(items, i);
    assert forall j | 0 <= j < i :: items[..i + 1][j] == items[..i][j];
  }

  lemma {:induction false} NoFindings(findings: seq<Finding>)
    ensures Codes(findings) == {} <==> findings == []
  {
    if findings != [] {
      assert findings[0].code in Codes(findings);
    }
  }

  lemma {:induction false} OnlySpecific(others: seq<Finding>)
    requires forall f | f in others :: f.blocking && f.code.ModeSpecific?
    ensures Codes(others) == {} <==> others == []
    ensures forall code | code in Codes(others) :: code.ModeSpecific?
  {
    NoFindings(others);
  }
}
