/** The repair of arc chapter budgets that cannot hold their scenes (internal/domain/adaptation_contract.go). */
module Budget {
  import opened Sequences
  import opened Text
  import opened RevisionSpec
  import Sorting

  const RUNES_PER_SCENE := 300

  /** The number a chapter goes by: its own, or its position when it has none. */
  function Number(chapters: seq<Chapter>, k: nat): int
    requires k < |chapters|
  {
    if chapters[k].number <= 0 then k + 1 else chapters[k].number
  }

  function MaxOf(c: Chapter): int {
    if c.budget.Some? && c.budget.value.maxRunes > c.maxRunes then c.budget.value.maxRunes else c.maxRunes
  }

  /** Six or more scenes in a positive budget of less than 300 runes each. */
  predicate Dense(c: Chapter) {
    |c.scenes| >= 6 && 0 < MaxOf(c) < |c.scenes| * RUNES_PER_SCENE
  }

  datatype Issue = Issue(chapter: int, scenes: nat, maxRunes: int, recommended: int)

  predicate IssueLess(a: Issue, b: Issue) {
    a.chapter < b.chapter
  }

  function IssueAt(chapters: seq<Chapter>, k: nat): Issue
    requires k < |chapters|
  {
    var c := chapters[k];
    Issue(Number(chapters, k), |c.scenes|, MaxOf(c), |c.scenes| * RUNES_PER_SCENE)
  }

  function Collected(chapters: seq<Chapter>, n: nat): seq<Issue>
    requires n <= |chapters|
  {
    if n == 0 then []
    else Collected(chapters, n - 1) + (if Dense(chapters[n - 1]) then [IssueAt(chapters, n - 1)] else [])
  }

  function Issues(plan: Plan): seq<Issue> {
    if NormalGranularity(plan.granularity) != ARC then [] else Sorting.Sorted(Collected(plan.chapters, |plan.chapters|), IssueLess)
  }

  // ---- The repair -------------------------------------------------------------------------------

  /** Floors for the target, minimum and maximum. */
  function Floor(scenes: nat): (int, int, int) {
    if scenes >= 7 then (4000, 3400, 4600) else (3500, 3000, 4000)
  }

  function Raise(a: int, b: int): int {
    if a > b then a else b
  }

  function Repaired(c: Chapter, scenes: nat, tolerance: real): Chapter {
    var floor := Floor(scenes);
    var min := Raise(c.minRunes, floor.1);
    var target := Raise(Raise(c.targetRunes, floor.0), min);
    var max := Raise(Raise(c.maxRunes, floor.2), target);
    var b := if c.budget.Some? then c.budget.value else WordBudget(c.sourceRunes, 0, 0, 0, 0.0);
    c.(minRunes := min, targetRunes := target, maxRunes := max,
       budget := Some(WordBudget(if b.sourceRunes <= 0 then c.sourceRunes else b.sourceRunes, target, min, max,
                                 if b.tolerance <= 0.0 then tolerance else b.tolerance)))
  }

  /** The first chapter with that number. */
  function First(chapters: seq<Chapter>, number: int, from: nat): (k: Option<nat>)
    requires from <= |chapters|
    ensures k.Some? ==> from <= k.value < |chapters| && Number(chapters, k.value) == number
    ensures k.Some? ==> forall j | from <= j < k.value :: Number(chapters, j) != number
    ensures k.None? ==> forall j | from <= j < |chapters| :: Number(chapters, j) != number
    decreases |chapters| - from
  {
    if from == |chapters| then None
    else if Number(chapters, from) == number then Some(from)
    else First(chapters, number, from + 1)
  }

  function RepairOne(chapters: seq<Chapter>, issue: Issue, tolerance: real): (r: seq<Chapter>)
    ensures |r| == |chapters|
  {
    var k := First(chapters, issue.chapter, 0);
    if k.None? then chapters else chapters[k.value := Repaired(chapters[k.value], issue.scenes, tolerance)]
  }

  function RepairAll(chapters: seq<Chapter>, issues: seq<Issue>, tolerance: real): (r: seq<Chapter>)
    ensures |r| == |chapters|
  {
    if issues == [] then chapters else RepairOne(RepairAll(chapters, Init(issues), tolerance), Last(issues), tolerance)
  }

  datatype Sums = Sums(target: int, min: int, max: int)

  function Total(chapters: seq<Chapter>): Sums {
    if chapters == [] then Sums(0, 0, 0)
    else
      var s, c := Total(Init(chapters)), Last(chapters);
      Sums(s.target + c.targetRunes, s.min + c.minRunes, s.max + c.maxRunes)
  }

  function RepairedPlan(plan: Plan): Plan {
    var chapters := RepairAll(plan.chapters, Issues(plan), plan.tolerance);
    var s := Total(chapters);
    if Issues(plan) == [] then plan
    else plan.(chapters := chapters, targetTotal := s.target, targetMin := s.min, targetMax := s.max)
  }

  // ---- What the repair keeps --------------------------------------------------------------------

  /** The chapter without its budgets. */
  function Story(c: Chapter): Chapter {
    c.(targetRunes := 0, minRunes := 0, maxRunes := 0, budget := None)
  }

  predicate Grown(before: Chapter, after: Chapter) {
    && Story(before) == Story(after)
    && before.targetRunes <= after.targetRunes && before.minRunes <= after.minRunes && before.maxRunes <= after.maxRunes
  }

  /** A legal window, repeated in the nested budget. */
  predicate Fitted(c: Chapter) {
    && c.minRunes <= c.targetRunes <= c.maxRunes && c.budget.Some?
    && c.budget.value.targetRunes == c.targetRunes && c.budget.value.minRunes == c.minRunes
    && c.budget.value.maxRunes == c.maxRunes
  }

  predicate IsFirst(chapters: seq<Chapter>, k: nat)
    requires k < |chapters|
  {
    forall j | 0 <= j < k :: Number(chapters, j) != Number(chapters, k)
  }

  /** Some issue is about the number of the k-th chapter, and that is the first chapter with the number. */
  predicate Concerned(chapters: seq<Chapter>, issues: seq<Issue>, k: nat)
    requires k < |chapters|
  {
    IsFirst(chapters, k) && exists i | 0 <= i < |issues| :: issues[i].chapter == Number(chapters, k)
  }

  lemma {:induction false} RepairedGrows(c: Chapter, scenes: nat, tolerance: real)
    ensures
      var r := Repaired(c, scenes, tolerance);
      Grown(c, r) && Fitted(r) && r.maxRunes >= Floor(scenes).2 && r.minRunes >= Floor(scenes).1
  {
  }

  lemma {:induction false} SameStory(a: Chapter, b: Chapter)
    requires Story(a) == Story(b)
    ensures a.number == b.number && a.scenes == b.scenes && a.sourceRunes == b.sourceRunes
  {
    assert Story(a).number == a.number && Story(a).scenes == a.scenes && Story(a).sourceRunes == a.sourceRunes;
    assert Story(b).number == b.number && Story(b).scenes == b.scenes && Story(b).sourceRunes == b.sourceRunes;
  }

  lemma {:induction false} FirstIs(chapters: seq<Chapter>, number: int, k: nat)
    requires k < |chapters|
    ensures First(chapters, number, 0) == Some(k) <==> Number(chapters, k) == number && IsFirst(chapters, k)
  {
  }

  /** What the issues have made of the k-th chapter. */
  predicate Handled(chapters: seq<Chapter>, issues: seq<Issue>, k: nat, c: Chapter)
    requires k < |chapters|
  {
    && Grown(chapters[k], c)
    && (if Concerned(chapters, issues, k) then Fitted(c) else c == chapters[k])
    && (forall i | 0 <= i < |issues| && Concerned(chapters, issues, k) && issues[i].chapter == Number(chapters, k) ::
          c.maxRunes >= Floor(issues[i].scenes).2)
  }

  predicate Hits(chapters: seq<Chapter>, issue: Issue, k: nat)
    requires k < |chapters|
  {
    IsFirst(chapters, k) && issue.chapter == Number(chapters, k)
  }

  lemma {:induction false} HandledStep(chapters: seq<Chapter>, issues: seq<Issue>, tolerance: real, k: nat, c: Chapter)
    requires k < |chapters| && issues != [] && Handled(chapters, Init(issues), k, c)
    ensures
      Handled(chapters, issues, k, if Hits(chapters, Last(issues), k) then Repaired(c, Last(issues).scenes, tolerance) else c)
  {
    RepairedGrows(c, Last(issues).scenes, tolerance);
    ConcernedStep(chapters, issues, k);
    hide Repaired, Floor, Story, IsFirst, Concerned;
    assert forall i | 0 <= i < |issues| - 1 :: Init(issues)[i] == issues[i];
  }

  lemma {:induction false} HitAt(chapters: seq<Chapter>, before: seq<Chapter>, issue: Issue, tolerance: real, k: nat)
    requires k < |chapters| == |before|
    requires Number(before, k) == Number(chapters, k) && IsFirst(before, k) == IsFirst(chapters, k)
    ensures RepairOne(before, issue, tolerance)[k] ==
            if Hits(chapters, issue, k) then Repaired(before[k], issue.scenes, tolerance) else before[k]
  {
    FirstIs(before, issue.chapter, k);
    hide Repaired, First, IsFirst;
  }

  lemma {:induction false} RepairAt(chapters: seq<Chapter>, issues: seq<Issue>, tolerance: real, k: nat)
    requires k < |chapters|
    ensures Handled(chapters, issues, k, RepairAll(chapters, issues, tolerance)[k])
  {
    if issues != [] {
      var init := Init(issues);
      var before := RepairAll(chapters, init, tolerance);
      assert RepairAll(chapters, issues, tolerance) == RepairOne(before, Last(issues), tolerance);
      hide *;
      RepairAt(chapters, init, tolerance, k);
      SameNumbers(chapters, init, tolerance);
      HitAt(chapters, before, Last(issues), tolerance, k);
      HandledStep(chapters, issues, tolerance, k, before[k]);
    }
  }

  lemma {:induction false} ConcernedStep(chapters: seq<Chapter>, issues: seq<Issue>, k: nat)
    requires k < |chapters| && issues != []
    ensures Concerned(chapters, issues, k) <==>
            Concerned(chapters, Init(issues), k) || (IsFirst(chapters, k) && Last(issues).chapter == Number(chapters, k))
  {
    if i :| 0 <= i < |issues| - 1 && issues[i].chapter == Number(chapters, k) {
      assert Init(issues)[i] == issues[i];
    }
  }

  lemma {:induction false} SameNumbers(chapters: seq<Chapter>, issues: seq<Issue>, tolerance: real)
    ensures
      var r := RepairAll(chapters, issues, tolerance);
      && (forall k | 0 <= k < |chapters| :: Number(r, k) == Number(chapters, k))
      && (forall k | 0 <= k < |chapters| :: IsFirst(r, k) == IsFirst(chapters, k))
      && (forall k | 0 <= k < |chapters| :: Story(r[k]) == Story(chapters[k]))
  {
    var r := RepairAll(chapters, issues, tolerance);
    if issues != [] {
      SameNumbers(chapters, Init(issues), tolerance);
    }
    forall k | 0 <= k < |chapters|
      ensures Number(r, k) == Number(chapters, k) && Story(r[k]) == Story(chapters[k])
    {
      if issues != [] {
        StoryStep(RepairAll(chapters, Init(issues), tolerance), Last(issues), tolerance, k);
      }
      SameStory(r[k], chapters[k]);
    }
  }

  lemma {:induction false} StoryStep(chapters: seq<Chapter>, issue: Issue, tolerance: real, k: nat)
    requires k < |chapters|
    ensures Story(RepairOne(chapters, issue, tolerance)[k]) == Story(chapters[k])
  {
    RepairedGrows(chapters[k], issue.scenes, tolerance);
    hide Repaired, First, Story;
  }

  // ---- The issues -------------------------------------------------------------------------------

  lemma {:induction false} CollectedAre(chapters: seq<Chapter>, n: nat)
    requires n <= |chapters|
    ensures forall issue :: issue in Collected(chapters, n) <==>
                            exists k | 0 <= k < n :: Dense(chapters[k]) && issue == IssueAt(chapters, k)
  {
    hide Dense, IssueAt;
    if n > 0 {
      CollectedAre(chapters, n - 1);
    }
  }

  lemma {:induction false} IssuesAre(plan: Plan)
    requires NormalGranularity(plan.granularity) == ARC
    ensures forall issue :: issue in Issues(plan) <==>
                            exists k | 0 <= k < |plan.chapters| :: Dense(plan.chapters[k]) && issue == IssueAt(plan.chapters, k)
  {
    hide Dense, IssueAt;
    var found := Collected(plan.chapters, |plan.chapters|);
    CollectedAre(plan.chapters, |plan.chapters|);
    Sorting.SortedIs(found, IssueLess);
    forall issue
      ensures issue in Issues(plan) <==> issue in found
    {
      assert issue in Issues(plan) <==> issue in multiset(Issues(plan));
      assert issue in found <==> issue in multiset(found);
    }
  }

  // ---- The goal ---------------------------------------------------------------------------------

  /** No other chapter goes by the number of the k-th. */
  predicate Alone(chapters: seq<Chapter>, k: nat)
    requires k < |chapters|
  {
    forall j | 0 <= j < |chapters| && j != k :: Number(chapters, j) != Number(chapters, k)
  }

  lemma {:induction false} NoIssues(plan: Plan)
    ensures RepairedPlan(plan).chapters == RepairAll(plan.chapters, Issues(plan), plan.tolerance)
  {
  }

  /** The j-th chapter is dense and goes by the number of the k-th. */
  predicate DenseNamesake(chapters: seq<Chapter>, k: nat, j: int)
    requires k < |chapters|
  {
    0 <= j < |chapters| && Number(chapters, j) == Number(chapters, k) && Dense(chapters[j])
  }

  /** Too many scenes for the floor of 4000, and no bound of its own that could hold them. */
  predicate Squeezed(c: Chapter) {
    var needed := |c.scenes| * RUNES_PER_SCENE;
    |c.scenes| >= 14 && c.minRunes < needed && c.targetRunes < needed && c.maxRunes < needed
  }

  /** Which chapters of at most 15 scenes the repair leaves dense: those it never reaches, and those it lifts to
      4000 runes on behalf of 6-scene chapters of the same number. */
  predicate EndsDense(chapters: seq<Chapter>, k: nat)
    requires k < |chapters|
  {
    if Dense(chapters[k]) then !IsFirst(chapters, k)
    else
      && IsFirst(chapters, k) && Squeezed(chapters[k])
      && (exists j | 0 <= j < |chapters| :: DenseNamesake(chapters, k, j))
      && (forall j | 0 <= j < |chapters| && DenseNamesake(chapters, k, j) :: |chapters[j].scenes| == 6)
  }

  function Bounds(c: Chapter): Sums {
    Sums(c.targetRunes, c.minRunes, c.maxRunes)
  }

  /** Repairs for 6 scenes, however many, give a chapter the window of one. */
  lemma {:induction false} SmallRepairs(chapters: seq<Chapter>, issues: seq<Issue>, tolerance: real, k: nat)
    requires k < |chapters|
    requires forall i | 0 <= i < |issues| && issues[i].chapter == Number(chapters, k) :: issues[i].scenes < 7
    ensures Bounds(RepairAll(chapters, issues, tolerance)[k]) ==
            Bounds(if Concerned(chapters, issues, k) then Repaired(chapters[k], 6, 0.0) else chapters[k])
  {
    if issues != [] {
      var init := Init(issues);
      var before := RepairAll(chapters, init, tolerance);
      assert RepairAll(chapters, issues, tolerance) == RepairOne(before, Last(issues), tolerance);
      assert Last(issues) == issues[|issues| - 1] && forall i | 0 <= i < |init| :: init[i] == issues[i];
      hide RepairOne, RepairAll, Concerned, IsFirst, Number;
      SmallRepairs(chapters, init, tolerance, k);
      SameNumbers(chapters, init, tolerance);
      HitAt(chapters, before, Last(issues), tolerance, k);
      ConcernedStep(chapters, issues, k);
    }
  }

  lemma {:induction false} IssuesOfNumber(plan: Plan, k: nat)
    requires NormalGranularity(plan.granularity) == ARC && k < |plan.chapters|
    ensures forall i | 0 <= i < |Issues(plan)| && Issues(plan)[i].chapter == Number(plan.chapters, k) ::
              exists j | 0 <= j < |plan.chapters| ::
                DenseNamesake(plan.chapters, k, j) && Issues(plan)[i].scenes == |plan.chapters[j].scenes|
  {
    hide Issues, Dense;
    var chapters, issues := plan.chapters, Issues(plan);
    IssuesAre(plan);
    forall i | 0 <= i < |issues| && issues[i].chapter == Number(chapters, k)
      ensures exists j | 0 <= j < |chapters| :: DenseNamesake(chapters, k, j) && issues[i].scenes == |chapters[j].scenes|
    {
      assert issues[i] in issues;
      var j :| 0 <= j < |chapters| && Dense(chapters[j]) && issues[i] == IssueAt(chapters, j);
      assert DenseNamesake(chapters, k, j);
    }
  }

  lemma {:induction false} Unreached(plan: Plan, k: nat)
    requires NormalGranularity(plan.granularity) == ARC && k < |plan.chapters|
    requires !Concerned(plan.chapters, Issues(plan), k)
    ensures Dense(plan.chapters[k]) <==> EndsDense(plan.chapters, k)
  {
    var chapters, issues := plan.chapters, Issues(plan);
    IssuesAre(plan);
    hide Issues, Dense, NormalGranularity, Number, Squeezed;
    assert Dense(chapters[k]) ==> DenseNamesake(chapters, k, k);
    if j :| 0 <= j < |chapters| && DenseNamesake(chapters, k, j) {
      assert IssueAt(chapters, j) in issues;
      var i :| 0 <= i < |issues| && issues[i] == IssueAt(chapters, j);
      assert issues[i].chapter == Number(chapters, k);
    }
  }

  /** A chapter that only 6-scene chapters have raised. */
  lemma {:induction false} RaisedByFew(before: Chapter, after: Chapter)
    requires Story(after) == Story(before) && Fitted(after) && Bounds(after) == Bounds(Repaired(before, 6, 0.0))
    requires |before.scenes| <= 15 && (Dense(before) ==> |before.scenes| == 6)
    ensures Dense(after) <==> !Dense(before) && Squeezed(before)
  {
    SameStory(before, after);
  }

  lemma {:induction false} RaisedByMany(before: Chapter, after: Chapter)
    requires Story(after) == Story(before) && after.maxRunes >= 4600 && |before.scenes| <= 15
    ensures !Dense(after)
  {
    SameStory(before, after);
  }

  /** A namesake of seven or more scenes raises the chapter to the higher floor. */
  lemma {:induction false} HighFloor(plan: Plan, k: nat, j: nat)
    requires NormalGranularity(plan.granularity) == ARC && k < |plan.chapters| && IsFirst(plan.chapters, k)
    requires DenseNamesake(plan.chapters, k, j) && |plan.chapters[j].scenes| != 6
    ensures RepairAll(plan.chapters, Issues(plan), plan.tolerance)[k].maxRunes >= 4600
  {
    var chapters, issues := plan.chapters, Issues(plan);
    IssuesAre(plan);
    RepairAt(chapters, issues, plan.tolerance, k);
    DenseSize(chapters[j]);
    hide Issues, RepairAll, NormalGranularity, IsFirst, Number, Dense, Fitted, Story;
    assert IssueAt(chapters, j) in issues;
    var i :| 0 <= i < |issues| && issues[i] == IssueAt(chapters, j);
    assert issues[i].chapter == Number(chapters, k);
  }

  lemma {:induction false} LowFloor(plan: Plan, k: nat)
    requires NormalGranularity(plan.granularity) == ARC && k < |plan.chapters|
    requires Concerned(plan.chapters, Issues(plan), k)
    requires forall j | 0 <= j < |plan.chapters| && DenseNamesake(plan.chapters, k, j) :: |plan.chapters[j].scenes| == 6
    ensures exists j | 0 <= j < |plan.chapters| :: DenseNamesake(plan.chapters, k, j)
    ensures Bounds(RepairAll(plan.chapters, Issues(plan), plan.tolerance)[k]) == Bounds(Repaired(plan.chapters[k], 6, 0.0))
  {
    var chapters, issues := plan.chapters, Issues(plan);
    IssuesOfNumber(plan, k);
    hide Issues, RepairAll, NormalGranularity, IsFirst, Number, Dense, Repaired, Bounds;
    SmallRepairs(chapters, issues, plan.tolerance, k);
  }

  lemma {:induction false} Reached(plan: Plan, k: nat)
    requires NormalGranularity(plan.granularity) == ARC && k < |plan.chapters| && |plan.chapters[k].scenes| <= 15
    requires Concerned(plan.chapters, Issues(plan), k)
    ensures Dense(RepairAll(plan.chapters, Issues(plan), plan.tolerance)[k]) <==> EndsDense(plan.chapters, k)
  {
    var chapters, issues := plan.chapters, Issues(plan);
    var after := RepairAll(chapters, issues, plan.tolerance)[k];
    RepairAt(chapters, issues, plan.tolerance, k);
    hide Issues, RepairAll, NormalGranularity, IsFirst, Number, Dense, Squeezed, Repaired, Fitted, Bounds, Story;
    assert Dense(chapters[k]) ==> DenseNamesake(chapters, k, k);
    if j :| 0 <= j < |chapters| && DenseNamesake(chapters, k, j) && |chapters[j].scenes| != 6 {
      HighFloor(plan, k, j);
      RaisedByMany(chapters[k], after);
    } else {
      LowFloor(plan, k);
      RaisedByFew(chapters[k], after);
    }
  }

  /** A chapter of at most 15 scenes is dense after the repair in exactly those cases; 15 scenes of 300 runes fit
      into the floor of 4600. */
  lemma {:induction false} RepairReachesGoal(plan: Plan, k: nat)
    requires NormalGranularity(plan.granularity) == ARC && k < |plan.chapters| && |plan.chapters[k].scenes| <= 15
    ensures Dense(RepairedPlan(plan).chapters[k]) <==> EndsDense(plan.chapters, k)
    ensures Alone(plan.chapters, k) ==> !Dense(RepairedPlan(plan).chapters[k])
  {
    NoIssues(plan);
    if Alone(plan.chapters, k) {
      AloneEndsWell(plan.chapters, k);
    }
    hide Issues, RepairAll, RepairedPlan, NormalGranularity, Concerned, Dense, EndsDense, Alone;
    if Concerned(plan.chapters, Issues(plan), k) {
      Reached(plan, k);
    } else {
      Unreached(plan, k);
      RepairAt(plan.chapters, Issues(plan), plan.tolerance, k);
    }
  }

  lemma {:induction false} AloneEndsWell(chapters: seq<Chapter>, k: nat)
    requires k < |chapters| && Alone(chapters, k)
    ensures !EndsDense(chapters, k)
  {
    hide Dense, Number;
  }

  lemma {:induction false} DenseSize(c: Chapter)
    requires Dense(c)
    ensures |c.scenes| >= 6
  {
  }

  /** Whatever the numbers: nothing but budgets changes, no bound is lowered, a chapter the repair touches has a
      legal window, and once anything was repaired the totals are the sums over the chapters. */
  lemma {:induction false} RepairKeepsStory(plan: Plan, k: nat)
    requires k < |plan.chapters|
    ensures
      var after := RepairedPlan(plan);
      && |after.chapters| == |plan.chapters| && Grown(plan.chapters[k], after.chapters[k])
      && (after.chapters[k] == plan.chapters[k] || Fitted(after.chapters[k]))
      && (after != plan ==> Sums(after.targetTotal, after.targetMin, after.targetMax) == Total(after.chapters))
      && after.(chapters := [], targetTotal := 0, targetMin := 0, targetMax := 0) ==
         plan.(chapters := [], targetTotal := 0, targetMin := 0, targetMax := 0)
  {
    NoIssues(plan);
    RepairAt(plan.chapters, Issues(plan), plan.tolerance, k);
    hide Issues, RepairAll, Concerned, Story, Total;
  }

  /** When no chapter has more than 15 scenes, a second repair finds nothing exactly when no chapter ends dense. */
  lemma {:induction false} RepairOnce(plan: Plan)
    requires NormalGranularity(plan.granularity) == ARC
    requires forall k | 0 <= k < |plan.chapters| :: |plan.chapters[k].scenes| <= 15
    ensures Issues(RepairedPlan(plan)) == [] <==> forall k | 0 <= k < |plan.chapters| :: !EndsDense(plan.chapters, k)
    ensures Issues(RepairedPlan(plan)) == [] ==> RepairedPlan(RepairedPlan(plan)) == RepairedPlan(plan)
  {
    var after := RepairedPlan(plan);
    NoIssues(plan);
    forall k | 0 <= k < |plan.chapters|
      ensures Dense(after.chapters[k]) <==> EndsDense(plan.chapters, k)
    {
      RepairReachesGoal(plan, k);
    }
    hide Dense, EndsDense, RepairAll;
    IssuesAre(after);
    NoMembers(Issues(after));
    if k :| 0 <= k < |plan.chapters| && EndsDense(plan.chapters, k) {
      assert IssueAt(after.chapters, k) in Issues(after);
    }
  }

  /** Shared numbers can make things worse: a chapter of 15 scenes without a budget is given the floors of a
      6-scene chapter that goes by the same number, and only then becomes too dense. */
  lemma {:induction false} SharedNumberMakesDense(plan: Plan, a: Chapter, b: Chapter)
    requires plan.chapters == [a, b] && NormalGranularity(plan.granularity) == ARC && a.number == b.number == 1
    requires |a.scenes| == 15 && a.budget == None && a.minRunes == a.targetRunes == a.maxRunes == 0
    requires |b.scenes| == 6 && b.budget == None && 0 < b.maxRunes < 1800
    ensures !Dense(plan.chapters[0]) && Dense(RepairedPlan(plan).chapters[0])
  {
    RepairReachesGoal(plan, 0);
    assert DenseNamesake(plan.chapters, 0, 1);
  }

  // ---- In place ---------------------------------------------------------------------------------

  method ValidateDensity(plan: Plan) returns (issues: seq<Issue>)
    ensures issues == Issues(plan)
  {
    hide Trim, Lower;
    if NormalGranularity(plan.granularity) != ARC {
      return [];
    }
    issues := [];
    for k := 0 to |plan.chapters|
      invariant issues == Collected(plan.chapters, k)
    {
      var c := plan.chapters[k];
      var sceneCount := |c.scenes|;
      if sceneCount < 6 {
        continue;
      }
      var maxRunes := c.maxRunes;
      if c.budget.Some? && c.budget.value.maxRunes > maxRunes {
        maxRunes := c.budget.value.maxRunes;
      }
      if maxRunes <= 0 {
        continue;
      }
      var recommended := sceneCount * RUNES_PER_SCENE;
      if maxRunes >= recommended {
        continue;
      }
      var number := c.number;
      if number <= 0 {
        number := k + 1;
      }
      issues := issues + [Issue(number, sceneCount, maxRunes, recommended)];
    }
    issues := Sorting.Sorted(issues, IssueLess);
  }

  /** The plan the repair works on; `audited` says whether it carries an outline quality audit. */
  class LivePlan {
    var plan: Plan
    var audited: bool

    constructor (plan: Plan, audited: bool)
      ensures this.plan == plan && this.audited == audited
    {
      this.plan, this.audited := plan, audited;
    }

    method RepairChapter(k: nat, scenes: nat)
      requires k < |plan.chapters|
      modifies `plan
      ensures plan == old(plan).(chapters := old(plan).chapters[k := Repaired(old(plan).chapters[k], scenes, old(plan).tolerance)])
    {
      var c := plan.chapters[k];
      var targetFloor, minFloor, maxFloor := Floor(scenes).0, Floor(scenes).1, Floor(scenes).2;
      c := c.(targetRunes := Raise(c.targetRunes, targetFloor));
      c := c.(minRunes := Raise(c.minRunes, minFloor));
      c := c.(maxRunes := Raise(c.maxRunes, maxFloor));
      if c.minRunes > c.targetRunes {
        c := c.(targetRunes := c.minRunes);
      }
      if c.targetRunes > c.maxRunes {
        c := c.(maxRunes := c.targetRunes);
      }
      var b := if c.budget.Some? then c.budget.value else WordBudget(c.sourceRunes, 0, 0, 0, 0.0);
      b := b.(targetRunes := c.targetRunes, minRunes := c.minRunes, maxRunes := c.maxRunes);
      if b.sourceRunes <= 0 {
        b := b.(sourceRunes := c.sourceRunes);
      }
      if b.tolerance <= 0.0 {
        b := b.(tolerance := plan.tolerance);
      }
      plan := plan.(chapters := plan.chapters[k := c.(budget := Some(b))]);
    }

    /** The inner loop: the first chapter that goes by the number of the issue. */
    method RepairIssue(issue: Issue) returns (found: bool)
      modifies `plan
      ensures plan == old(plan).(chapters := RepairOne(old(plan).chapters, issue, old(plan).tolerance))
      ensures found <==> First(old(plan).chapters, issue.chapter, 0).Some?
    {
      hide Repaired;
      for k := 0 to |plan.chapters|
        invariant plan == old(plan) && First(plan.chapters, issue.chapter, 0) == First(plan.chapters, issue.chapter, k)
      {
        var number := plan.chapters[k].number;
        if number <= 0 {
          number := k + 1;
        }
        if number != issue.chapter {
          continue;
        }
        RepairChapter(k, issue.scenes);
        return true;
      }
      found := false;
    }

    method Repair() returns (repaired: seq<int>)
      modifies this
      ensures plan == old(RepairedPlan(plan))
      ensures |repaired| == |old(Issues(plan))|
      ensures forall i | 0 <= i < |repaired| :: repaired[i] == old(Issues(plan))[i].chapter
      ensures audited == (old(audited) && repaired == [])
    {
      hide Issues, RepairOne, RepairAll;
      var issues := ValidateDensity(plan);
      if |issues| == 0 {
        return [];
      }
      repaired := [];
      RepairStart(plan, issues);
      for i := 0 to |issues|
        invariant plan == old(plan).(chapters := RepairAll(old(plan).chapters, issues[..i], old(plan).tolerance))
        invariant |repaired| == i && forall j | 0 <= j < i :: repaired[j] == issues[j].chapter
        invariant audited == old(audited)
      {
        RepairNext(old(plan), issues, i);
        var found := RepairIssue(issues[i]);
        if found {
          repaired := repaired + [issues[i].chapter];
        }
      }
      Whole(issues);
      SumUp();
      audited := false;
    }

    method SumUp()
      modifies `plan
      ensures
        var s := Total(old(plan).chapters);
        plan == old(plan).(targetTotal := s.target, targetMin := s.min, targetMax := s.max)
    {
      var target, min, max := 0, 0, 0;
      for k := 0 to |plan.chapters|
        invariant plan == old(plan) && Sums(target, min, max) == Total(plan.chapters[..k])
      {
        Prefix(plan.chapters, k);
        target := target + plan.chapters[k].targetRunes;
        min := min + plan.chapters[k].minRunes;
        max := max + plan.chapters[k].maxRunes;
      }
      Whole(plan.chapters);
      plan := plan.(targetTotal := target, targetMin := min, targetMax := max);
    }
  }

  lemma {:induction false} RepairStart(plan: Plan, issues: seq<Issue>)
    ensures RepairAll(plan.chapters, issues[..0], plan.tolerance) == plan.chapters
  {
  }

  /** The next issue is about a chapter that is still there. */
  lemma {:induction false} RepairNext(plan: Plan, issues: seq<Issue>, i: nat)
    requires i < |issues| && issues == Issues(plan)
    ensures
      var before := RepairAll(plan.chapters, issues[..i], plan.tolerance);
      && RepairAll(plan.chapters, issues[..i + 1], plan.tolerance) == RepairOne(before, issues[i], plan.tolerance)
      && First(before, issues[i].chapter, 0).Some?
  {
    Prefix(issues, i);
    SameNumbers(plan.chapters, issues[..i], plan.tolerance);
    if NormalGranularity(plan.granularity) == ARC {
      IssuesAre(plan);
      assert issues[i] in issues;
      hide Issues, Dense, RepairAll, NormalGranularity;
      var k :| 0 <= k < |plan.chapters| && Dense(plan.chapters[k]) && issues[i] == IssueAt(plan.chapters, k);
      var before := RepairAll(plan.chapters, issues[..i], plan.tolerance);
      assert Number(before, k) == issues[i].chapter;
    }
  }
}
