/** Adaptation plans and what an accepted revision of one has to satisfy
    (internal/domain/adaptation_revision_policy.go). */
module RevisionSpec {
  import opened Sequences
  import opened Text
  import opened Segments
  import SegmentTiling
  import Sorting

  datatype Relationship = Relationship(
    pair: string, from: string, to: string, allowedFrom: seq<string>, requiresEvents: seq<string>)

  /** A setting claim or a setting lock. */
  datatype Setting = Setting(key: string, value: string)

  datatype Rule = Rule(id: string, text: string)

  datatype WordBudget = WordBudget(sourceRunes: int, targetRunes: int, minRunes: int, maxRunes: int, tolerance: real)

  /** `facts` stands for the structural outline fields that no check reads. The entry title never reaches the
      JSON form of a chapter, because the chapter's own title hides it. */
  datatype Chapter = Chapter(
    id: string, entryTitle: string, title: string, coreEvent: string, hook: string, scenes: seq<string>, facts: string,
    number: int, sourceChapters: seq<int>, sourceRunes: int, targetRunes: int, minRunes: int, maxRunes: int,
    budget: Option<WordBudget>, rangeFrom: int, rangeTo: int, segments: seq<Segment>,
    eventIds: seq<string>, addedEventIds: seq<string>, dependsOn: seq<string>,
    relationship: Option<Relationship>, claims: seq<Setting>, ruleIds: seq<string>,
    isAdded: bool, coverageNote: string,
    preserve: seq<string>, changes: seq<string>, forbidden: seq<string>)

  datatype Origin = SourceOrigin | AddedOrigin | OtherOrigin(name: string)

  /** `text` stands for the descriptive fields that no check reads. */
  datatype Event = Event(
    id: string, origin: Origin, importance: string, sourceChapter: int, dependsOn: seq<string>, text: string)

  datatype Volume = Volume(
    id: string, index: int, targetFrom: int, targetTo: int, sourceFrom: int, sourceTo: int,
    mainlineIds: seq<string>, text: string)

  datatype Plan = Plan(
    granularity: string, policy: string, tolerance: real,
    sourceTotal: int, targetTotal: int, targetMin: int, targetMax: int,
    mainlineRules: seq<string>, rules: seq<Rule>, modePolicy: string, goals: seq<string>,
    states: map<string, string>, locks: seq<Setting>,
    sourceEvents: seq<Event>, ledger: seq<Event>, volumes: seq<Volume>, chapters: seq<Chapter>)

  datatype SourceChapter = SourceChapter(number: int, runes: int)

  // ---- Modes ------------------------------------------------------------------------------------

  const CHAPTER := "chapter"
  const ARC := "arc"
  const FREE := "free"
  const PRESERVE_DETAILS := "preserve_details"
  const FULL_REWRITE := "full_rewrite"

  function StrictGranularity(value: string): Option<string> {
    if Trim(value) in {CHAPTER, ARC, FREE} then Some(Trim(value)) else None
  }

  function NormalGranularity(value: string): string {
    if Lower(Trim(value)) in {ARC, FREE} then Lower(Trim(value)) else CHAPTER
  }

  function PolicyFor(granularity: string): string {
    if NormalGranularity(granularity) == CHAPTER then PRESERVE_DETAILS else FULL_REWRITE
  }

  predicate ModeFits(base: Plan, plan: Plan) {
    && StrictGranularity(plan.granularity).Some?
    && plan.policy == PolicyFor(StrictGranularity(plan.granularity).value)
    && (base.granularity != "" ==> NormalGranularity(base.granularity) == NormalGranularity(plan.granularity))
  }

  predicate TotalsFit(plan: Plan) {
    && 0 < plan.targetMin <= plan.targetTotal <= plan.targetMax
    && (plan.policy == PRESERVE_DETAILS ==> plan.sourceTotal > 0 && 0.0 < plan.tolerance <= 1.0)
  }

  // ---- Chapters ---------------------------------------------------------------------------------

  predicate HasLineage(c: Chapter) {
    || c.sourceChapters != [] || c.segments != [] || c.rangeFrom > 0 || c.rangeTo > 0 || c.sourceRunes > 0
    || c.eventIds != []
  }

  predicate SomeText(values: seq<string>) {
    exists i | 0 <= i < |values| :: Trim(values[i]) != ""
  }

  /** The JSON form of a chapter, up to equality. */
  function Signature(c: Chapter): Chapter {
    c.(entryTitle := "")
  }

  /** Everything but the narrative fields a detailed outline may fill in. */
  function Structure(c: Chapter): Chapter {
    c.(title := "", entryTitle := "", coreEvent := "", hook := "", scenes := [])
  }

  /** The chapter a map keyed by trimmed ID holds: the last one with that ID; blank IDs are left out. */
  function Latest(chapters: seq<Chapter>, id: string): Option<Chapter> {
    if chapters == [] || id == "" then None
    else if Trim(Last(chapters).id) == id then Some(Last(chapters))
    else Latest(Init(chapters), id)
  }

  /** The chapter a map keyed by raw ID holds. */
  function LatestRaw(chapters: seq<Chapter>, id: string): Option<Chapter> {
    if chapters == [] then None
    else if Last(chapters).id == id then Some(Last(chapters))
    else LatestRaw(Init(chapters), id)
  }

  function LatestVolume(volumes: seq<Volume>, id: string): Option<Volume> {
    if volumes == [] || id == "" then None
    else if Trim(Last(volumes).id) == id then Some(Last(volumes))
    else LatestVolume(Init(volumes), id)
  }

  predicate TargetFits(base: Plan, c: Chapter) {
    var prior := Latest(base.chapters, Trim(c.id));
    && (prior.Some? ==> prior.value.isAdded == c.isAdded)
    && (c.isAdded ==> !HasLineage(c))
    && (prior.None? ==>
          && Trim(c.coverageNote) != ""
          && if c.isAdded then SomeText(c.addedEventIds) else HasLineage(c))
  }

  predicate ChaptersStable(base: Plan, plan: Plan) {
    && (forall k | 0 <= k < |plan.chapters| ::
          Trim(plan.chapters[k].id) != "" && plan.chapters[k].number == k + 1 && TargetFits(base, plan.chapters[k]))
    && (forall j, k | 0 <= j < k < |plan.chapters| :: Trim(plan.chapters[j].id) != Trim(plan.chapters[k].id))
    && (forall i | 0 <= i < |base.chapters| && Trim(base.chapters[i].id) != "" ::
          Latest(plan.chapters, Trim(base.chapters[i].id)).Some?)
  }

  // ---- Volumes ----------------------------------------------------------------------------------

  /** The first target chapter of the k-th volume. */
  function VolumeStart(volumes: seq<Volume>, k: nat): int
    requires k <= |volumes|
  {
    if k == 0 then 1 else volumes[k - 1].targetTo + 1
  }

  predicate VolumeFits(base: Plan, plan: Plan, k: nat)
    requires k < |plan.volumes|
  {
    var v := plan.volumes[k];
    var prior := LatestVolume(base.volumes, Trim(v.id));
    && Trim(v.id) != "" && v.index == k + 1
    && VolumeStart(plan.volumes, k) == v.targetFrom <= v.targetTo <= |plan.chapters|
    && (prior.Some? ==>
          && prior.value.sourceFrom == v.sourceFrom && prior.value.sourceTo == v.sourceTo
          && prior.value.mainlineIds == v.mainlineIds)
  }

  predicate VolumesStable(base: Plan, plan: Plan) {
    && (forall k | 0 <= k < |plan.volumes| :: VolumeFits(base, plan, k))
    && (forall j, k | 0 <= j < k < |plan.volumes| :: Trim(plan.volumes[j].id) != Trim(plan.volumes[k].id))
    && (plan.volumes != [] ==> VolumeStart(plan.volumes, |plan.volumes|) == |plan.chapters| + 1)
    && (forall i | 0 <= i < |base.volumes| && Trim(base.volumes[i].id) != "" ::
          LatestVolume(plan.volumes, Trim(base.volumes[i].id)).Some?)
  }

  // ---- The frozen source contract ---------------------------------------------------------------

  function AllSegments(chapters: seq<Chapter>): seq<Segment> {
    if chapters == [] then [] else AllSegments(Init(chapters)) + Last(chapters).segments
  }

  predicate SegmentLess(a: Segment, b: Segment) {
    if a.sourceChapter != b.sourceChapter then a.sourceChapter < b.sourceChapter else a.sequence < b.sequence
  }

  function Collected(chapters: seq<Chapter>): seq<Segment> {
    Sorting.Sorted(AllSegments(chapters), SegmentLess)
  }

  predicate FieldsFrozen(base: Plan, plan: Plan) {
    && base.mainlineRules == plan.mainlineRules && base.rules == plan.rules && base.modePolicy == plan.modePolicy
    && base.goals == plan.goals && base.states == plan.states && base.locks == plan.locks
  }

  predicate SourceFrozen(base: Plan, plan: Plan) {
    && FieldsFrozen(base, plan)
    && (base.sourceEvents != [] ==> base.sourceEvents == plan.sourceEvents)
    && (AllSegments(base.chapters) != [] ==> Collected(base.chapters) == Collected(plan.chapters))
  }

  // ---- Source coverage --------------------------------------------------------------------------

  function Max(a: int, b: int): int {
    if a > b then a else b
  }

  /** A chapter missing from the map counts as 0 runes. */
  function Raised(known: map<int, int>, chapter: int, runes: int): map<int, int> {
    known[chapter := Max(if chapter in known then known[chapter] else 0, runes)]
  }

  function RaisedAll(known: map<int, int>, sources: seq<int>, runes: int): map<int, int> {
    if sources == [] then known else Raised(RaisedAll(known, Init(sources), runes), Last(sources), runes)
  }

  function RaisedEnds(known: map<int, int>, segs: seq<Segment>): map<int, int> {
    if segs == [] then known
    else Raised(RaisedEnds(known, Init(segs)), Last(segs).sourceChapter, Last(segs).share.end)
  }

  function KnownFromChapters(chapters: seq<Chapter>): map<int, int> {
    if chapters == [] then map[]
    else
      var c := Last(chapters);
      RaisedEnds(RaisedAll(KnownFromChapters(Init(chapters)), c.sourceChapters, c.sourceRunes), c.segments)
  }

  function KnownFromEvents(known: map<int, int>, events: seq<Event>): map<int, int> {
    if events == [] then known
    else
      var before, source := KnownFromEvents(known, Init(events)), Last(events).sourceChapter;
      if source > 0 && source !in before then before[source := 0] else before
  }

  function ManifestRunes(manifest: seq<SourceChapter>): map<int, int> {
    if manifest == [] then map[] else ManifestRunes(Init(manifest))[Last(manifest).number := Last(manifest).runes]
  }

  predicate ManifestValid(manifest: seq<SourceChapter>) {
    forall i | 0 <= i < |manifest| :: manifest[i].number > 0 && manifest[i].runes > 0
  }

  /** The source chapters and their lengths: from the manifest, or, without one, from the base plan. */
  function Known(base: Plan, manifest: seq<SourceChapter>): map<int, int> {
    if ManifestRunes(manifest) != map[] then ManifestRunes(manifest)
    else KnownFromEvents(KnownFromChapters(base.chapters), base.sourceEvents)
  }

  predicate InRange(c: Chapter, source: int) {
    (c.rangeFrom > 0 || c.rangeTo > 0) && c.rangeFrom <= source <= c.rangeTo
  }

  predicate CoversSource(c: Chapter, source: int) {
    source in c.sourceChapters || InRange(c, source) || exists s :: s in c.segments && s.sourceChapter == source
  }

  predicate ReferencesFit(c: Chapter, known: map<int, int>) {
    && (forall s | s in c.sourceChapters :: s > 0 && (known != map[] ==> s in known))
    && (c.rangeFrom > 0 || c.rangeTo > 0 ==> 0 < c.rangeFrom <= c.rangeTo)
    && (known != map[] ==> forall s | c.rangeFrom <= s <= c.rangeTo :: InRange(c, s) ==> s in known)
  }

  function SegmentsOf(segs: seq<Segment>, source: int): seq<Segment> {
    if segs == [] then []
    else SegmentsOf(Init(segs), source) + (if Last(segs).sourceChapter == source then [Last(segs)] else [])
  }

  predicate SequenceLess(a: Segment, b: Segment) {
    a.sequence < b.sequence
  }

  /** In chapter mode the segments of a source chapter of known length, if there are any, tile it. */
  predicate SourceTiled(plan: Plan, source: int, runes: int) {
    var segs := SegmentsOf(AllSegments(plan.chapters), source);
    runes > 0 && segs != [] ==> SegmentTiling.Tiles(source, runes, Sorting.Sorted(segs, SequenceLess))
  }

  predicate CoverageFits(base: Plan, plan: Plan, manifest: seq<SourceChapter>) {
    var known := Known(base, manifest);
    && ManifestValid(manifest)
    && (forall k | 0 <= k < |plan.chapters| :: ReferencesFit(plan.chapters[k], known))
    && (forall s | s in known :: exists k | 0 <= k < |plan.chapters| :: CoversSource(plan.chapters[k], s))
    && (NormalGranularity(plan.granularity) == CHAPTER ==> forall s | s in known :: SourceTiled(plan, s, known[s]))
  }

  // ---- Events -----------------------------------------------------------------------------------

  /** One entry of a chapter's event lists; blank entries are skipped. */
  datatype Listing = Listing(id: string, number: int, chapterId: string, added: bool)

  function ListingsOf(ids: seq<string>, c: Chapter, added: bool): seq<Listing> {
    if ids == [] then []
    else ListingsOf(Init(ids), c, added) +
         (if Trim(Last(ids)) == "" then [] else [Listing(Trim(Last(ids)), c.number, Trim(c.id), added)])
  }

  function Listings(chapters: seq<Chapter>): seq<Listing> {
    if chapters == [] then []
    else
      var c := Last(chapters);
      Listings(Init(chapters)) + ListingsOf(c.eventIds, c, false) + ListingsOf(c.addedEventIds, c, true)
  }

  function LatestEvent(events: seq<Event>, id: string): Option<Event> {
    if events == [] then None
    else if Trim(Last(events).id) == id then Some(Last(events))
    else LatestEvent(Init(events), id)
  }

  /** The chapter ID and list an event was last seen in. */
  function Owner(listings: seq<Listing>, id: string): Option<(string, bool)> {
    if listings == [] then None
    else if Last(listings).id == id then Some((Last(listings).chapterId, Last(listings).added))
    else Owner(Init(listings), id)
  }

  /** The numbers of the chapters that list an event, in order. */
  function Numbers(listings: seq<Listing>, id: string): seq<int> {
    if listings == [] then []
    else Numbers(Init(listings), id) + (if Last(listings).id == id then [Last(listings).number] else [])
  }

  function Events(plan: Plan): seq<Event> {
    plan.sourceEvents + plan.ledger
  }

  predicate LedgerKept(base: Plan, plan: Plan) {
    && (forall i | 0 <= i < |plan.ledger| ::
          LatestEvent(base.ledger, Trim(plan.ledger[i].id)).None? ==> plan.ledger[i].origin == AddedOrigin)
    && (forall i | 0 <= i < |base.ledger| ::
          var id := Trim(base.ledger[i].id);
          LatestEvent(plan.ledger, id) == LatestEvent(base.ledger, id))
  }

  predicate EventsNamed(events: seq<Event>) {
    && (forall i | 0 <= i < |events| :: Trim(events[i].id) != "")
    && (forall i, j | 0 <= i < j < |events| :: Trim(events[i].id) != Trim(events[j].id))
  }

  predicate ListingFits(events: seq<Event>, l: Listing) {
    var event := LatestEvent(events, l.id);
    event.Some? && (l.added ==> event.value.origin != SourceOrigin)
  }

  predicate ListingsFit(plan: Plan) {
    && (forall l | l in Listings(plan.chapters) :: ListingFits(Events(plan), l))
    && (forall i, j | 0 <= i < j < |Listings(plan.chapters)| :: Listings(plan.chapters)[i].id != Listings(plan.chapters)[j].id)
  }

  predicate OwnersKept(base: Plan, plan: Plan) {
    forall i | 0 <= i < |base.ledger| ::
      var id := Trim(base.ledger[i].id);
      Owner(Listings(base.chapters), id).Some? && Owner(Listings(plan.chapters), id) == Owner(Listings(base.chapters), id)
  }

  /** The event is owned by exactly one chapter, and that one comes before `number`. */
  predicate EarlierOwner(plan: Plan, id: string, number: int) {
    var numbers := Numbers(Listings(plan.chapters), Trim(id));
    |numbers| == 1 && numbers[0] < number
  }

  predicate LineageCovers(c: Chapter, source: int) {
    && source > 0
    && (source in c.sourceChapters || (0 < c.rangeFrom && c.rangeFrom <= source <= c.rangeTo))
  }

  predicate EventOwned(plan: Plan, e: Event) {
    var numbers := Numbers(Listings(plan.chapters), Trim(e.id));
    && |numbers| == 1 && 0 < numbers[0] <= |plan.chapters|
    && (e.origin == SourceOrigin ==>
          !plan.chapters[numbers[0] - 1].isAdded && LineageCovers(plan.chapters[numbers[0] - 1], e.sourceChapter))
    && (forall d | d in e.dependsOn :: EarlierOwner(plan, d, numbers[0]))
  }

  predicate EventsFit(base: Plan, plan: Plan) {
    && LedgerKept(base, plan)
    && EventsNamed(Events(plan))
    && ListingsFit(plan)
    && OwnersKept(base, plan)
    && (forall e | e in Events(plan) :: EventOwned(plan, e))
    && (forall c | c in plan.chapters :: forall d | d in c.dependsOn :: EarlierOwner(plan, d, c.number))
  }

  // ---- Chapter contracts ------------------------------------------------------------------------

  predicate ListClean(values: seq<string>) {
    && (forall i | 0 <= i < |values| :: Trim(values[i]) != "")
    && (forall i, j | 0 <= i < j < |values| :: Trim(values[i]) != Trim(values[j]))
  }

  predicate BudgetAgrees(c: Chapter, b: WordBudget) {
    && (b.sourceRunes != 0 ==> b.sourceRunes == c.sourceRunes)
    && (b.targetRunes != 0 ==> b.targetRunes == c.targetRunes)
    && (b.minRunes != 0 ==> b.minRunes == c.minRunes)
    && (b.maxRunes != 0 ==> b.maxRunes == c.maxRunes)
  }

  predicate BudgetLegal(policy: string, c: Chapter) {
    && 0 < c.minRunes <= c.targetRunes <= c.maxRunes <= MODEL_CHAPTER_MAX_RUNES
    && (c.budget.Some? ==> BudgetAgrees(c, c.budget.value))
    && (policy == PRESERVE_DETAILS && !c.isAdded ==> c.sourceRunes > 0 || c.segments != [])
  }

  /** What a new or changed chapter has to carry. */
  predicate Ready(policy: string, c: Chapter) {
    && SomeText(c.changes) && SomeText(c.forbidden) && (HasLineage(c) ==> SomeText(c.preserve))
    && BudgetLegal(policy, c)
    && ListClean(c.preserve) && ListClean(c.changes) && ListClean(c.forbidden)
  }

  predicate SameContract(a: Chapter, b: Chapter) {
    && a.preserve == b.preserve && a.forbidden == b.forbidden && a.ruleIds == b.ruleIds
    && a.relationship == b.relationship && a.claims == b.claims
  }

  /** The contract check compares with the base chapter of the same raw ID. */
  predicate Changed(base: Plan, c: Chapter) {
    var prior := LatestRaw(base.chapters, c.id);
    prior.None? || Signature(prior.value) != Signature(c)
  }

  predicate ContractHolds(base: Plan, policy: string, c: Chapter) {
    var prior := LatestRaw(base.chapters, c.id);
    Changed(base, c) ==> (prior.Some? ==> SameContract(prior.value, c)) && Ready(policy, c)
  }

  predicate ContractsHold(base: Plan, plan: Plan) {
    forall c | c in plan.chapters :: ContractHolds(base, plan.policy, c)
  }

  // ---- The verdict ------------------------------------------------------------------------------

  /** The two validators the model takes as given: of the rules, and of the relationships and settings, which
      read only the structure of the chapters. */
  datatype Given = Given(rules: seq<Rule> -> bool, story: Plan -> bool)

  function PlanStructure(plan: Plan): Plan {
    plan.(chapters := Structures(plan.chapters))
  }

  function Structures(chapters: seq<Chapter>): (r: seq<Chapter>)
    ensures |r| == |chapters| && forall i | 0 <= i < |r| :: r[i] == Structure(chapters[i])
  {
    if chapters == [] then [] else Structures(Init(chapters)) + [Structure(Last(chapters))]
  }

  datatype Check = Mode | Rules | Totals | Source | Targets | Coverage | EventContract | Story | Contracts

  datatype Verdict = Accepted | Rejected(check: Check)

  /** The first of the checks, in the source's order, that fails. */
  function Judge(given: Given, base: Plan, plan: Plan, manifest: seq<SourceChapter>): Verdict {
    if !ModeFits(base, plan) then Rejected(Mode)
    else if !given.rules(plan.rules) then Rejected(Rules)
    else if !TotalsFit(plan) then Rejected(Totals)
    else if !SourceFrozen(base, plan) then Rejected(Source)
    else if !(ChaptersStable(base, plan) && VolumesStable(base, plan)) then Rejected(Targets)
    else if !CoverageFits(base, plan, manifest) then Rejected(Coverage)
    else if !EventsFit(base, plan) then Rejected(EventContract)
    else if !given.story(PlanStructure(plan)) then Rejected(Story)
    else if !ContractsHold(base, plan) then Rejected(Contracts)
    else Accepted
  }

  predicate Accepts(given: Given, base: Plan, plan: Plan, manifest: seq<SourceChapter>) {
    Judge(given, base, plan, manifest) == Accepted
  }
}
