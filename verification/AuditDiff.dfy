/** The comparison of two audit runs (internal/adaptaudit/compare.go). */
module AuditDiff {
  import opened Sequences
  import opened Text
  import Sorting

  // ---- Scopes -----------------------------------------------------------------------------------

  /** A bound that is not positive does not bound. */
  datatype Scope = Scope(sourceFrom: int, sourceTo: int, targetFrom: int, targetTo: int)

  function MaxPositive(a: int, b: int): int {
    if a <= 0 then b else if b <= 0 then a else if a > b then a else b
  }

  function MinPositive(a: int, b: int): int {
    if a <= 0 then b else if b <= 0 then a else if a < b then a else b
  }

  predicate Within(chapter: int, from: int, to: int) {
    (from <= 0 || chapter >= from) && (to <= 0 || chapter <= to)
  }

  function Overlap(left: Scope, right: Scope): Scope {
    Scope(MaxPositive(left.sourceFrom, right.sourceFrom), MinPositive(left.sourceTo, right.sourceTo),
          MaxPositive(left.targetFrom, right.targetFrom), MinPositive(left.targetTo, right.targetTo))
  }

  /** Some source chapter and some target chapter lie in both scopes. */
  ghost predicate ScopesMeet(left: Scope, right: Scope) {
    && (exists c :: c > 0 && Within(c, left.sourceFrom, left.sourceTo) && Within(c, right.sourceFrom, right.sourceTo))
    && (exists c :: c > 0 && Within(c, left.targetFrom, left.targetTo) && Within(c, right.targetFrom, right.targetTo))
  }

  method IntersectScope(left: Scope, right: Scope) returns (overlap: Option<Scope>)
    ensures overlap.Some? ==> overlap.value == Overlap(left, right)
    ensures overlap.Some? <==> ScopesMeet(left, right)
  {
    var scope := Overlap(left, right);
    SideOverlaps(left.sourceFrom, left.sourceTo, right.sourceFrom, right.sourceTo);
    SideOverlaps(left.targetFrom, left.targetTo, right.targetFrom, right.targetTo);
    if scope.sourceFrom > 0 && scope.sourceTo > 0 && scope.sourceFrom > scope.sourceTo {
      return None;
    }
    if scope.targetFrom > 0 && scope.targetTo > 0 && scope.targetFrom > scope.targetTo {
      return None;
    }
    overlap := Some(scope);
  }

  lemma {:induction false} SideOverlaps(from1: int, to1: int, from2: int, to2: int)
    ensures
      var from, to := MaxPositive(from1, from2), MinPositive(to1, to2);
      (from > 0 && to > 0 && from > to) <==> !exists c :: c > 0 && Within(c, from1, to1) && Within(c, from2, to2)
  {
    var from, to := MaxPositive(from1, from2), MinPositive(to1, to2);
    if !(from > 0 && to > 0 && from > to) {
      var c := if from > 0 then from else 1;
      assert c > 0 && Within(c, from1, to1) && Within(c, from2, to2);
    }
  }

  /** A chapter lies in the intersected scope exactly when it lies in both. */
  lemma {:induction false} OverlapIsBoth(left: Scope, right: Scope, chapter: int)
    ensures
      var o := Overlap(left, right);
      && (Within(chapter, o.sourceFrom, o.sourceTo) <==>
          Within(chapter, left.sourceFrom, left.sourceTo) && Within(chapter, right.sourceFrom, right.sourceTo))
      && (Within(chapter, o.targetFrom, o.targetTo) <==>
          Within(chapter, left.targetFrom, left.targetTo) && Within(chapter, right.targetFrom, right.targetTo))
  {
    var o := Overlap(left, right);
    assert o.sourceFrom == MaxPositive(left.sourceFrom, right.sourceFrom);
    assert o.targetFrom == MaxPositive(left.targetFrom, right.targetFrom);
  }

  // ---- Findings ---------------------------------------------------------------------------------

  datatype Evidence = Evidence(artifactId: string, quote: string)

  datatype Finding = Finding(
    id: string, fingerprint: string, code: string, severity: string, blocking: bool, message: string,
    eventId: string, segmentId: string, chapters: seq<int>, evidence: seq<Evidence>)

  datatype Side = SourceSide | TargetSide

  /** The parts that work on digests and formatted names: the computed fingerprint, the chapter named by the
      first evidence artifact or the segment ID, the order of findings and that of fingerprints. */
  datatype Kit = Kit(
    digest: Finding -> string, locate: Finding -> Option<(Side, int)>,
    less: (Finding, Finding) -> bool, keyLess: (string, string) -> bool)

  ghost predicate Proper(kit: Kit) {
    Sorting.StrictWeak(kit.less) && Sorting.StrictWeak(kit.keyLess)
  }

  function Key(kit: Kit, f: Finding): string {
    if f.fingerprint == "" then kit.digest(f) else f.fingerprint
  }

  predicate Located(kit: Kit, f: Finding) {
    f.chapters != [] || kit.locate(f).Some?
  }

  predicate Overlaps(kit: Kit, f: Finding, scope: Scope) {
    if f.chapters != [] then exists i | 0 <= i < |f.chapters| :: Within(f.chapters[i], scope.targetFrom, scope.targetTo)
    else
      var at := kit.locate(f);
      at.Some? &&
      if at.value.0 == SourceSide then Within(at.value.1, scope.sourceFrom, scope.sourceTo)
      else Within(at.value.1, scope.targetFrom, scope.targetTo)
  }

  predicate Retains(kit: Kit, f: Finding, scope: Scope, unlocated: bool) {
    if Located(kit, f) then Overlaps(kit, f, scope) else unlocated
  }

  /** The findings in scope, in the order of the report. */
  function Retained(kit: Kit, findings: seq<Finding>, scope: Scope, unlocated: bool): seq<Finding> {
    if findings == [] then []
    else Retained(kit, Init(findings), scope, unlocated) +
         (if Retains(kit, Last(findings), scope, unlocated) then [Last(findings)] else [])
  }

  function Excluded(kit: Kit, findings: seq<Finding>, unlocated: bool): nat {
    if findings == [] then 0
    else Excluded(kit, Init(findings), unlocated) + (if !Located(kit, Last(findings)) && !unlocated then 1 else 0)
  }

  function GroupOf(kit: Kit, kept: seq<Finding>, key: string): seq<Finding> {
    if kept == [] then []
    else GroupOf(kit, Init(kept), key) + (if Key(kit, Last(kept)) == key then [Last(kept)] else [])
  }

  function Bucket(kit: Kit, kept: seq<Finding>, key: string): seq<Finding> {
    Sorting.Sorted(GroupOf(kit, kept, key), kit.less)
  }

  function SeverityRank(severity: string): int {
    var s := Lower(Trim(severity));
    if s == "critical" then 4
    else if s == "error" || s == "high" then 3
    else if s == "warning" || s == "medium" then 2
    else if s == "info" || s == "low" then 1
    else 0
  }

  datatype Kind = Introduced | Resolved | Worsened | Improved | Explained | Unchanged

  function Classify(before: Finding, after: Finding): Kind {
    var left, right := SeverityRank(before.severity), SeverityRank(after.severity);
    if right > left || (after.blocking && !before.blocking) then Worsened
    else if right < left || (before.blocking && !after.blocking) then Improved
    else if before.message != after.message || before.evidence != after.evidence then Explained
    else Unchanged
  }

  datatype Change = Change(key: string, kind: Kind, before: Option<Finding>, after: Option<Finding>)

  function ChangeAt(key: string, left: seq<Finding>, right: seq<Finding>, i: nat): Change
    requires i < |left| || i < |right|
  {
    if i >= |left| then Change(key, Introduced, None, Some(right[i]))
    else if i >= |right| then Change(key, Resolved, Some(left[i]), None)
    else Change(key, Classify(left[i], right[i]), Some(left[i]), Some(right[i]))
  }

  function Longer(left: seq<Finding>, right: seq<Finding>): nat {
    if |left| > |right| then |left| else |right|
  }

  /** The first n changes of one fingerprint. */
  function PairUp(key: string, left: seq<Finding>, right: seq<Finding>, n: nat): seq<Change>
    requires n <= Longer(left, right)
  {
    if n == 0 then [] else PairUp(key, left, right, n - 1) + [ChangeAt(key, left, right, n - 1)]
  }

  function Changes(kit: Kit, keys: seq<string>, base: seq<Finding>, candidate: seq<Finding>): seq<Change> {
    if keys == [] then []
    else
      var left, right := Bucket(kit, base, Last(keys)), Bucket(kit, candidate, Last(keys));
      Changes(kit, Init(keys), base, candidate) + PairUp(Last(keys), left, right, Longer(left, right))
  }

  /** The fingerprints of both sides, each once. */
  ghost predicate Lists(kit: Kit, keys: seq<string>, base: seq<Finding>, candidate: seq<Finding>) {
    && (forall k :: k in keys <==> exists f :: (f in base || f in candidate) && Key(kit, f) == k)
    && (forall i, j | 0 <= i < j < |keys| :: keys[i] != keys[j])
  }

  // ---- Conservation -----------------------------------------------------------------------------

  function Befores(changes: seq<Change>): multiset<Finding> {
    if changes == [] then multiset{}
    else Befores(Init(changes)) + (if Last(changes).before.Some? then multiset{Last(changes).before.value} else multiset{})
  }

  function Afters(changes: seq<Change>): multiset<Finding> {
    if changes == [] then multiset{}
    else Afters(Init(changes)) + (if Last(changes).after.Some? then multiset{Last(changes).after.value} else multiset{})
  }

  function Count(changes: seq<Change>, kind: Kind): nat {
    if changes == [] then 0 else Count(Init(changes), kind) + (if Last(changes).kind == kind then 1 else 0)
  }

  lemma {:induction false} BeforesAppend(a: seq<Change>, b: seq<Change>)
    ensures Befores(a + b) == Befores(a) + Befores(b)
  {
    if b == [] {
      assert a + b == a;
    } else {
      assert Init(a + b) == a + Init(b) && Last(a + b) == Last(b);
      BeforesAppend(a, Init(b));
    }
  }

  lemma {:induction false} AftersAppend(a: seq<Change>, b: seq<Change>)
    ensures Afters(a + b) == Afters(a) + Afters(b)
  {
    if b == [] {
      assert a + b == a;
    } else {
      assert Init(a + b) == a + Init(b) && Last(a + b) == Last(b);
      AftersAppend(a, Init(b));
    }
  }

  lemma {:induction false} CountAppend(a: seq<Change>, b: seq<Change>, kind: Kind)
    ensures Count(a + b, kind) == Count(a, kind) + Count(b, kind)
  {
    if b == [] {
      assert a + b == a;
    } else {
      assert Init(a + b) == a + Init(b) && Last(a + b) == Last(b);
      CountAppend(a, Init(b), kind);
    }
  }

  lemma {:induction false} PairStep(changes: seq<Change>, c: Change)
    ensures Befores(changes + [c]) == Befores(changes) + (if c.before.Some? then multiset{c.before.value} else multiset{})
    ensures Afters(changes + [c]) == Afters(changes) + (if c.after.Some? then multiset{c.after.value} else multiset{})
    ensures forall kind :: Count(changes + [c], kind) == Count(changes, kind) + (if c.kind == kind then 1 else 0)
  {
    assert Init(changes + [c]) == changes;
  }

  function Upto(s: seq<Finding>, n: nat): seq<Finding> {
    if n < |s| then s[..n] else s
  }

  lemma {:induction false} UptoStep(s: seq<Finding>, n: nat)
    requires n > 0
    ensures multiset(Upto(s, n)) == multiset(Upto(s, n - 1)) + Listed(if n <= |s| then Some(s[n - 1]) else None)
    ensures |Upto(s, n)| == |Upto(s, n - 1)| + (if n <= |s| then 1 else 0)
  {
    if n <= |s| {
      Prefix(s, n - 1);
      Whole(s);
      assert Upto(s, n) == s[..n] && Upto(s, n - 1) == s[..n - 1];
    }
  }

  /** The changes mention exactly these findings, and the counts agree with them. */
  predicate Balanced(changes: seq<Change>, left: seq<Finding>, right: seq<Finding>) {
    && Befores(changes) == multiset(left) && Afters(changes) == multiset(right)
    && Count(changes, Resolved) - Count(changes, Introduced) == |left| - |right|
  }

  function Listed(f: Option<Finding>): multiset<Finding> {
    if f.Some? then multiset{f.value} else multiset{}
  }

  lemma {:induction false} BalancedStep(
      changes: seq<Change>, c: Change, left: seq<Finding>, right: seq<Finding>, left': seq<Finding>, right': seq<Finding>)
    requires Balanced(changes, left, right)
    requires multiset(left') == multiset(left) + Listed(c.before) && |left'| == |left| + (if c.before.Some? then 1 else 0)
    requires multiset(right') == multiset(right) + Listed(c.after) && |right'| == |right| + (if c.after.Some? then 1 else 0)
    requires (c.kind == Introduced <==> c.before.None?) && (c.kind == Resolved <==> c.after.None?)
    ensures Balanced(changes + [c], left', right')
  {
    PairStep(changes, c);
    hide Befores, Afters, Count;
  }

  lemma {:induction false} PairConserves(key: string, left: seq<Finding>, right: seq<Finding>, n: nat)
    requires n <= Longer(left, right)
    ensures Balanced(PairUp(key, left, right, n), Upto(left, n), Upto(right, n))
  {
    hide *;
    if n == 0 {
      NothingPaired(key, left, right);
    } else {
      PairConserves(key, left, right, n - 1);
      PairNext(key, left, right, n);
    }
  }

  lemma {:induction false} NothingPaired(key: string, left: seq<Finding>, right: seq<Finding>)
    ensures Balanced(PairUp(key, left, right, 0), Upto(left, 0), Upto(right, 0))
  {
    assert Upto(left, 0) == [] && Upto(right, 0) == [];
  }

  lemma {:induction false} PairNext(key: string, left: seq<Finding>, right: seq<Finding>, n: nat)
    requires 0 < n <= Longer(left, right)
    requires Balanced(PairUp(key, left, right, n - 1), Upto(left, n - 1), Upto(right, n - 1))
    ensures Balanced(PairUp(key, left, right, n), Upto(left, n), Upto(right, n))
  {
    var c := ChangeAt(key, left, right, n - 1);
    KindAt(key, left, right, n - 1);
    UptoStep(left, n);
    UptoStep(right, n);
    PairUnfold(key, left, right, n);
    hide *;
    BalancedStep(PairUp(key, left, right, n - 1), c, Upto(left, n - 1), Upto(right, n - 1), Upto(left, n), Upto(right, n));
  }

  lemma {:induction false} PairUnfold(key: string, left: seq<Finding>, right: seq<Finding>, n: nat)
    requires 0 < n <= Longer(left, right)
    ensures PairUp(key, left, right, n) == PairUp(key, left, right, n - 1) + [ChangeAt(key, left, right, n - 1)]
  {
  }

  lemma {:induction false} KindAt(key: string, left: seq<Finding>, right: seq<Finding>, i: nat)
    requires i < Longer(left, right)
    ensures
      var c := ChangeAt(key, left, right, i);
      && (c.kind == Introduced <==> c.before.None?) && (c.kind == Resolved <==> c.after.None?)
      && c.before == (if i < |left| then Some(left[i]) else None)
      && c.after == (if i < |right| then Some(right[i]) else None)
  {
    hide SeverityRank;
  }

  // ---- Every finding falls into one bucket ------------------------------------------------------

  /** The findings whose fingerprint is among the keys. */
  function Chosen(kit: Kit, kept: seq<Finding>, keys: seq<string>): seq<Finding> {
    if kept == [] then []
    else Chosen(kit, Init(kept), keys) + (if Key(kit, Last(kept)) in keys then [Last(kept)] else [])
  }

  lemma {:induction false} ChosenStep(kit: Kit, kept: seq<Finding>, keys: seq<string>, key: string)
    requires key !in keys
    ensures multiset(Chosen(kit, kept, keys + [key])) == multiset(Chosen(kit, kept, keys)) + multiset(GroupOf(kit, kept, key))
    ensures |Chosen(kit, kept, keys + [key])| == |Chosen(kit, kept, keys)| + |GroupOf(kit, kept, key)|
  {
    if kept != [] {
      ChosenStep(kit, Init(kept), keys, key);
    }
  }

  lemma {:induction false} ChosenAll(kit: Kit, kept: seq<Finding>, keys: seq<string>)
    requires forall f | f in kept :: Key(kit, f) in keys
    ensures Chosen(kit, kept, keys) == kept
  {
    if kept != [] {
      assert forall f | f in Init(kept) :: f in kept;
      ChosenAll(kit, Init(kept), keys);
      Split(kept);
    }
  }

  lemma {:induction false} ChosenNone(kit: Kit, kept: seq<Finding>)
    ensures Chosen(kit, kept, []) == []
  {
    if kept != [] {
      ChosenNone(kit, Init(kept));
    }
  }

  lemma {:induction false} BucketSame(kit: Kit, kept: seq<Finding>, key: string)
    requires Proper(kit)
    ensures multiset(Bucket(kit, kept, key)) == multiset(GroupOf(kit, kept, key))
    ensures |Bucket(kit, kept, key)| == |GroupOf(kit, kept, key)|
  {
    Sorting.SortedIs(GroupOf(kit, kept, key), kit.less);
    assert |multiset(Bucket(kit, kept, key))| == |Bucket(kit, kept, key)|;
    assert |multiset(GroupOf(kit, kept, key))| == |GroupOf(kit, kept, key)|;
  }

  lemma {:induction false} ChangesConserve(kit: Kit, keys: seq<string>, base: seq<Finding>, candidate: seq<Finding>)
    requires Proper(kit) && forall i, j | 0 <= i < j < |keys| :: keys[i] != keys[j]
    ensures Balanced(Changes(kit, keys, base, candidate), Chosen(kit, base, keys), Chosen(kit, candidate, keys))
  {
    if keys == [] {
      ChosenNone(kit, base);
      ChosenNone(kit, candidate);
    } else {
      var init, key := Init(keys), Last(keys);
      var left, right := Bucket(kit, base, key), Bucket(kit, candidate, key);
      Split(keys);
      assert key !in init;
      assert forall i | 0 <= i < |init| :: init[i] == keys[i];
      ChangesUnfold(kit, keys, base, candidate);
      hide *;
      ChangesConserve(kit, init, base, candidate);
      ChosenStep(kit, base, init, key);
      ChosenStep(kit, candidate, init, key);
      BucketSame(kit, base, key);
      BucketSame(kit, candidate, key);
      PairConserves(key, left, right, Longer(left, right));
      UptoWhole(left, right);
      BalancedAppend(Changes(kit, init, base, candidate), PairUp(key, left, right, Longer(left, right)),
                     Chosen(kit, base, init), left, Chosen(kit, base, keys),
                     Chosen(kit, candidate, init), right, Chosen(kit, candidate, keys));
    }
  }

  lemma {:induction false} BalancedAppend(
      a: seq<Change>, b: seq<Change>,
      left: seq<Finding>, moreLeft: seq<Finding>, allLeft: seq<Finding>,
      right: seq<Finding>, moreRight: seq<Finding>, allRight: seq<Finding>)
    requires Balanced(a, left, right) && Balanced(b, moreLeft, moreRight)
    requires multiset(allLeft) == multiset(left) + multiset(moreLeft) && |allLeft| == |left| + |moreLeft|
    requires multiset(allRight) == multiset(right) + multiset(moreRight) && |allRight| == |right| + |moreRight|
    ensures Balanced(a + b, allLeft, allRight)
  {
    BeforesAppend(a, b);
    AftersAppend(a, b);
    CountAppend(a, b, Introduced);
    CountAppend(a, b, Resolved);
    hide Befores, Afters, Count;
  }

  lemma {:induction false} ChangesUnfold(kit: Kit, keys: seq<string>, base: seq<Finding>, candidate: seq<Finding>)
    requires keys != []
    ensures
      var left, right := Bucket(kit, base, Last(keys)), Bucket(kit, candidate, Last(keys));
      Changes(kit, keys, base, candidate) ==
      Changes(kit, Init(keys), base, candidate) + PairUp(Last(keys), left, right, Longer(left, right))
  {
  }

  lemma {:induction false} UptoWhole(left: seq<Finding>, right: seq<Finding>)
    ensures Upto(left, Longer(left, right)) == left && Upto(right, Longer(left, right)) == right
  {
  }

  /** Every finding in scope of the base occurs in exactly one change as Before, every one of the candidate in
      exactly one as After, and resolved minus introduced is the difference of the two numbers. */
  lemma {:induction false} FindingsConserved(kit: Kit, keys: seq<string>, base: seq<Finding>, candidate: seq<Finding>)
    requires Proper(kit) && Lists(kit, keys, base, candidate)
    ensures Balanced(Changes(kit, keys, base, candidate), base, candidate)
  {
    hide Changes, Balanced, Chosen, Key;
    ChangesConserve(kit, keys, base, candidate);
    ChosenAll(kit, base, keys);
    ChosenAll(kit, candidate, keys);
  }

  // ---- A report against itself ------------------------------------------------------------------

  predicate Same(c: Change) {
    c.kind == Unchanged && c.before.Some? && c.before == c.after
  }

  lemma {:induction false} PairSame(key: string, bucket: seq<Finding>, n: nat)
    requires n <= |bucket|
    ensures forall c | c in PairUp(key, bucket, bucket, n) :: Same(c)
  {
    if n > 0 {
      PairSame(key, bucket, n - 1);
      hide SeverityRank;
      assert Same(ChangeAt(key, bucket, bucket, n - 1));
    }
  }

  /** Comparing a report with itself yields nothing but unchanged findings. */
  lemma {:induction false} SelfUnchanged(kit: Kit, keys: seq<string>, findings: seq<Finding>)
    ensures forall c | c in Changes(kit, keys, findings, findings) :: Same(c)
  {
    if keys != [] {
      SelfUnchanged(kit, Init(keys), findings);
      var bucket := Bucket(kit, findings, Last(keys));
      PairSame(Last(keys), bucket, |bucket|);
    }
  }

  /** Exactly one of severity and blocking got better while the other got worse. */
  predicate Mixed(a: Finding, b: Finding) {
    var left, right := SeverityRank(a.severity), SeverityRank(b.severity);
    (right > left && a.blocking && !b.blocking) || (right < left && b.blocking && !a.blocking)
  }

  /** Reversing a comparison turns improvements into deteriorations; only a mixed change counts as a
      deterioration both ways. */
  lemma {:induction false} ClassifyReversed(a: Finding, b: Finding)
    ensures Classify(b, a) == Worsened <==> Classify(a, b) == Improved || Mixed(a, b)
    ensures Mixed(a, b) ==> Classify(a, b) == Worsened == Classify(b, a)
    ensures Classify(a, b) in {Explained, Unchanged} ==> Classify(b, a) == Classify(a, b)
  {
    hide SeverityRank;
  }
}
