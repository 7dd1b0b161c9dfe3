/** The loops of the comparison of two audit runs. */
module AuditCompare {
  import opened Sequences
  import opened Text
  import opened AuditDiff
  import Sorting

  datatype AuditRun = AuditRun(runId: string, mode: string, scope: Scope, inputDigest: string, findings: seq<Finding>)

  datatype Confidence = High | Partial | ContextChanged

  datatype Comparison =
    | Failed(reason: Failure)
    | Compared(scope: Scope, confidence: Confidence, attributable: bool, excluded: nat, changes: seq<Change>)

  datatype Failure = MissingId | ModesDiffer | ScopesApart

  /** `groups` holds for every fingerprint the retained findings that carry it, in order. */
  ghost predicate Grouped(kit: Kit, groups: map<string, seq<Finding>>, kept: seq<Finding>) {
    && (forall key :: GroupOf(kit, kept, key) == if key in groups then groups[key] else [])
    && (forall key :: key in groups <==> exists f :: f in kept && Key(kit, f) == key)
  }

  lemma {:induction false} GroupedStep(kit: Kit, groups: map<string, seq<Finding>>, kept: seq<Finding>, f: Finding)
    requires Grouped(kit, groups, kept)
    ensures
      var key := Key(kit, f);
      Grouped(kit, groups[key := (if key in groups then groups[key] else []) + [f]], kept + [f])
  {
    hide Key;
    assert Init(kept + [f]) == kept;
    var more := groups[Key(kit, f) := (if Key(kit, f) in groups then groups[Key(kit, f)] else []) + [f]];
    forall key
      ensures key in more <==> exists g :: g in kept + [f] && Key(kit, g) == key
    {
      assert f in kept + [f];
      if g :| g in kept && Key(kit, g) == key {
        assert g in kept + [f];
      }
    }
  }

  method FindingOverlapsScope(kit: Kit, f: Finding, scope: Scope) returns (overlaps: bool, located: bool)
    ensures located == Located(kit, f) && overlaps == Overlaps(kit, f, scope)
  {
    if |f.chapters| == 0 {
      var at := kit.locate(f);
      if at.Some? {
        if at.value.0 == SourceSide {
          return Within(at.value.1, scope.sourceFrom, scope.sourceTo), true;
        }
        return Within(at.value.1, scope.targetFrom, scope.targetTo), true;
      }
      return false, false;
    }
    for i := 0 to |f.chapters|
      invariant forall j | 0 <= j < i :: !Within(f.chapters[j], scope.targetFrom, scope.targetTo)
    {
      if Within(f.chapters[i], scope.targetFrom, scope.targetTo) {
        return true, true;
      }
    }
    return false, true;
  }

  method FindingsByFingerprint(kit: Kit, findings: seq<Finding>, scope: Scope, unlocated: bool)
    returns (groups: map<string, seq<Finding>>, excluded: nat)
    ensures Buckets(kit, groups, Retained(kit, findings, scope, unlocated))
    ensures excluded == Excluded(kit, findings, unlocated)
  {
    hide Overlaps, Located, Grouped, Retained, Excluded, Key;
    groups, excluded := map[], 0;
    NothingGrouped(kit, findings, scope, unlocated);
    for i := 0 to |findings|
      invariant Grouped(kit, groups, Retained(kit, findings[..i], scope, unlocated))
      invariant excluded == Excluded(kit, findings[..i], unlocated)
    {
      RetainedStep(kit, findings, i, scope, unlocated);
      var f := findings[i];
      var overlaps, located := FindingOverlapsScope(kit, f, scope);
      if !located && !unlocated {
        excluded := excluded + 1;
        continue;
      }
      if located && !overlaps {
        continue;
      }
      GroupedStep(kit, groups, Retained(kit, findings[..i], scope, unlocated), f);
      var key := Key(kit, f);
      groups := groups[key := (if key in groups then groups[key] else []) + [f]];
    }
    Whole(findings);
    groups := SortGroups(kit, groups, Retained(kit, findings, scope, unlocated));
  }

  lemma {:induction false} NothingGrouped(kit: Kit, findings: seq<Finding>, scope: Scope, unlocated: bool)
    ensures Grouped(kit, map[], [])
    ensures Retained(kit, findings[..0], scope, unlocated) == [] && Excluded(kit, findings[..0], unlocated) == 0
  {
  }

  lemma {:induction false} RetainedStep(kit: Kit, findings: seq<Finding>, i: nat, scope: Scope, unlocated: bool)
    requires i < |findings|
    ensures
      var before, after := Retained(kit, findings[..i], scope, unlocated), Retained(kit, findings[..i + 1], scope, unlocated);
      if (if Located(kit, findings[i]) then !Overlaps(kit, findings[i], scope) else !unlocated)
      then after == before else after == before + [findings[i]]
    ensures Excluded(kit, findings[..i + 1], unlocated) ==
            Excluded(kit, findings[..i], unlocated) + (if !Located(kit, findings[i]) && !unlocated then 1 else 0)
  {
    hide Located, Overlaps;
    Prefix(findings, i);
  }

  /** `groups` holds for every fingerprint its bucket. */
  ghost predicate Buckets(kit: Kit, groups: map<string, seq<Finding>>, kept: seq<Finding>) {
    && (forall key :: Bucket(kit, kept, key) == if key in groups then groups[key] else [])
    && (forall key :: key in groups <==> exists f :: f in kept && Key(kit, f) == key)
  }

  method SortGroups(kit: Kit, groups: map<string, seq<Finding>>, ghost kept: seq<Finding>)
    returns (sorted: map<string, seq<Finding>>)
    requires Grouped(kit, groups, kept)
    ensures Buckets(kit, sorted, kept)
  {
    hide Grouped, Buckets, SortedAt;
    sorted := groups;
    var rest := groups.Keys;
    ghost var done: set<string> := {};
    AllUnsorted(kit, groups);
    while rest != {}
      invariant rest <= groups.Keys && done == groups.Keys - rest && SortedAt(kit, groups, sorted, done)
      decreases |rest|
    {
      var key :| key in rest;
      SortOne(kit, groups, sorted, done, key);
      sorted := sorted[key := Sorting.Sorted(sorted[key], kit.less)];
      rest := rest - {key};
      done := done + {key};
    }
    assert done == groups.Keys;
    SortedBuckets(kit, groups, sorted, kept);
  }

  /** The buckets of these keys are sorted, the others are as they were. */
  ghost predicate SortedAt(kit: Kit, groups: map<string, seq<Finding>>, sorted: map<string, seq<Finding>>, done: set<string>) {
    && sorted.Keys == groups.Keys
    && forall key | key in groups :: sorted[key] == if key in done then Sorting.Sorted(groups[key], kit.less) else groups[key]
  }

  lemma {:induction false} AllUnsorted(kit: Kit, groups: map<string, seq<Finding>>)
    ensures SortedAt(kit, groups, groups, {})
  {
  }

  lemma {:induction false} SortOne(
      kit: Kit, groups: map<string, seq<Finding>>, sorted: map<string, seq<Finding>>, done: set<string>, key: string)
    requires SortedAt(kit, groups, sorted, done) && key in groups && key !in done
    ensures key in sorted
    ensures SortedAt(kit, groups, sorted[key := Sorting.Sorted(sorted[key], kit.less)], done + {key})
  {
  }

  lemma {:induction false} SortedBuckets(
      kit: Kit, groups: map<string, seq<Finding>>, sorted: map<string, seq<Finding>>, kept: seq<Finding>)
    requires Grouped(kit, groups, kept) && SortedAt(kit, groups, sorted, groups.Keys)
    ensures Buckets(kit, sorted, kept)
  {
    hide GroupOf, Key;
  }

  /** The fingerprints of both sides, each once, in order. */
  method CollectKeys(kit: Kit, before: map<string, seq<Finding>>, after: map<string, seq<Finding>>) returns (keys: seq<string>)
    requires Proper(kit)
    ensures forall k :: k in keys <==> k in before || k in after
    ensures forall i, j | 0 <= i < j < |keys| :: keys[i] != keys[j]
  {
    var found := ListKeys([], before.Keys);
    found := ListKeys(found, after.Keys - before.Keys);
    keys := Sorting.Sorted(found, kit.keyLess);
    Sorting.SortedIs(found, kit.keyLess);
    Rearranged(found, keys);
  }

  method ListKeys(before: seq<string>, more: set<string>) returns (keys: seq<string>)
    requires forall i, j | 0 <= i < j < |before| :: before[i] != before[j]
    requires forall k | k in more :: k !in before
    ensures forall k :: k in keys <==> k in before || k in more
    ensures forall i, j | 0 <= i < j < |keys| :: keys[i] != keys[j]
  {
    keys := before;
    var rest := more;
    while rest != {}
      invariant rest <= more && forall k :: k in keys <==> k in before || (k in more && k !in rest)
      invariant forall i, j | 0 <= i < j < |keys| :: keys[i] != keys[j]
      decreases |rest|
    {
      var k :| k in rest;
      rest := rest - {k};
      keys := keys + [k];
    }
  }

  method PairFindings(key: string, left: seq<Finding>, right: seq<Finding>) returns (changes: seq<Change>)
    ensures changes == PairUp(key, left, right, Longer(left, right))
  {
    hide Classify;
    changes := [];
    var count := if |left| > |right| then |left| else |right|;
    for i := 0 to count
      invariant changes == PairUp(key, left, right, i)
    {
      var change;
      if i >= |left| {
        change := Change(key, Introduced, None, Some(right[i]));
      } else if i >= |right| {
        change := Change(key, Resolved, Some(left[i]), None);
      } else {
        change := Change(key, Classify(left[i], right[i]), Some(left[i]), Some(right[i]));
      }
      changes := changes + [change];
    }
  }

  method DiffFindings(
      kit: Kit, before: map<string, seq<Finding>>, after: map<string, seq<Finding>>,
      ghost left: seq<Finding>, ghost right: seq<Finding>)
    returns (changes: seq<Change>, ghost keys: seq<string>)
    requires Proper(kit) && Buckets(kit, before, left) && Buckets(kit, after, right)
    ensures Lists(kit, keys, left, right) && changes == Changes(kit, keys, left, right) && Balanced(changes, left, right)
  {
    hide Key, Bucket, PairUp, Proper, Balanced;
    var list := CollectKeys(kit, before, after);
    keys := list;
    changes := [];
    for i := 0 to |list|
      invariant changes == Changes(kit, list[..i], left, right)
    {
      Prefix(list, i);
      var key := list[i];
      var more := PairFindings(key, if key in before then before[key] else [], if key in after then after[key] else []);
      changes := changes + more;
    }
    Whole(list);
    KeysListed(kit, list, before, after, left, right);
    FindingsConserved(kit, keys, left, right);
  }

  lemma {:induction false} KeysListed(
      kit: Kit, keys: seq<string>, before: map<string, seq<Finding>>, after: map<string, seq<Finding>>,
      left: seq<Finding>, right: seq<Finding>)
    requires Buckets(kit, before, left) && Buckets(kit, after, right)
    requires forall k :: k in keys <==> k in before || k in after
    requires forall i, j | 0 <= i < j < |keys| :: keys[i] != keys[j]
    ensures Lists(kit, keys, left, right)
  {
    hide Key, Bucket;
    forall k
      ensures k in keys <==> exists f :: (f in left || f in right) && Key(kit, f) == k
    {
      assert k in before <==> exists f :: f in left && Key(kit, f) == k;
      assert k in after <==> exists f :: f in right && Key(kit, f) == k;
    }
  }

  /** The comparison of two runs over the scope both cover. */
  method CompareAuditRuns(kit: Kit, base: AuditRun, candidate: AuditRun) returns (result: Comparison, ghost keys: seq<string>)
    requires Proper(kit)
    ensures result == Failed(MissingId) <==> base.runId == "" || candidate.runId == ""
    ensures result == Failed(ModesDiffer) <==> base.runId != "" && candidate.runId != "" && base.mode != candidate.mode
    ensures result.Compared? <==>
            base.runId != "" && candidate.runId != "" && base.mode == candidate.mode && ScopesMeet(base.scope, candidate.scope)
    ensures result.Compared? ==> result.scope == Overlap(base.scope, candidate.scope)
    ensures result.Compared? ==> (result.attributable <==> base.inputDigest != "" && base.inputDigest == candidate.inputDigest)
    ensures result.Compared? ==>
              && (result.confidence == High <==> base.scope == candidate.scope && result.attributable)
              && (result.confidence == ContextChanged <==> !result.attributable)
    ensures result.Compared? ==>
              var same := base.scope == candidate.scope;
              var before := Retained(kit, base.findings, result.scope, same);
              var after := Retained(kit, candidate.findings, result.scope, same);
              && Lists(kit, keys, before, after) && result.changes == Changes(kit, keys, before, after)
              && Balanced(result.changes, before, after)
              && result.excluded == Excluded(kit, base.findings, same) + Excluded(kit, candidate.findings, same)
  {
    hide Overlap, ScopesMeet, Retained, Excluded, Balanced, Buckets, Lists, Changes;
    keys := [];
    if base.runId == "" || candidate.runId == "" {
      return Failed(MissingId), keys;
    }
    if base.mode != candidate.mode {
      return Failed(ModesDiffer), keys;
    }
    var overlap := IntersectScope(base.scope, candidate.scope);
    if overlap.None? {
      return Failed(ScopesApart), keys;
    }
    var attributable := base.inputDigest != "" && base.inputDigest == candidate.inputDigest;
    var confidence := High;
    if base.scope != candidate.scope {
      confidence := Partial;
    }
    if !attributable {
      confidence := ContextChanged;
    }
    var unlocated := base.scope == candidate.scope;
    var before, excludedBefore := FindingsByFingerprint(kit, base.findings, overlap.value, unlocated);
    var after, excludedAfter := FindingsByFingerprint(kit, candidate.findings, overlap.value, unlocated);
    ghost var left, right := Retained(kit, base.findings, overlap.value, unlocated), Retained(kit, candidate.findings, overlap.value, unlocated);
    var changes;
    changes, keys := DiffFindings(kit, before, after, left, right);
    result := Compared(overlap.value, confidence, attributable, excludedBefore + excludedAfter, changes);
  }
}
