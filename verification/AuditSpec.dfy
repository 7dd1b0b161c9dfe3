/** The contract audit of internal/adaptaudit/audit.go: its inputs, its finding codes and what each code
    stands for. */
module AuditSpec {
  import opened Text
  import Segments

  datatype Kind = SourceText | HighPlan | TargetPlan | TargetChapter

  datatype Artifact = Artifact(id: string, kind: Kind, text: string)

  datatype Evidence = Evidence(artifactId: string, quote: string)

  datatype Origin = FromSource | Added | FromTarget

  datatype Class = Ordinary | Mainline | RelationshipClass | SettingClass

  datatype Event = Event(id: string, origin: Origin, class_: Class, dependsOn: seq<string>, evidence: seq<Evidence>)

  datatype Binding = Binding(
    eventId: string, segmentIds: seq<string>, targets: seq<int>, plan: seq<Evidence>, body: seq<Evidence>)

  datatype SourceSegment = SourceSegment(
    id: string, chapter: int, sequence: int, target: int, from: int, to: int, required: bool, contract: bool,
    total: int, max: int, entry: Option<Segments.State>, exit: Option<Segments.State>)

  datatype Mode = ChapterMode | ArcMode | FreeMode | UnknownMode(name: string)

  datatype Input = Input(
    mode: Mode, artifacts: seq<Artifact>, events: seq<Event>, bindings: seq<Binding>, segments: seq<SourceSegment>)

  datatype Code =
    | InvalidMode | InvalidEvidence | ContractMissing | SegmentSequence | StateMissing | StateBreak
    | InsufficientSegments | SplitGap | SplitOverlap | InvalidSegment
    | MissingCoverage | TargetOrder | CausalOrder | ModeSpecific(name: string)

  datatype Finding = Finding(code: Code, blocking: bool, eventId: string, segmentId: string)

  function Codes(findings: seq<Finding>): set<Code> {
    set f | f in findings :: f.code
  }

  lemma {:induction false} CodesAppend(a: seq<Finding>, b: seq<Finding>)
    ensures Codes(a + b) == Codes(a) + Codes(b)
  {
  }

  function Raise(condition: bool, code: Code): set<Code> {
    if condition then {code} else {}
  }

  // ---- One source chapter -----------------------------------------------------------------------

  /** The audit compares the raw maps; a nil map equals nothing. */
  predicate StatesEqual(left: Option<Segments.State>, right: Option<Segments.State>) {
    left.Some? && right.Some? && left.value == right.value
  }

  function ContractCodes(group: seq<SourceSegment>, k: nat): set<Code>
    requires k < |group|
  {
    Raise(!group[k].contract, ContractMissing) + Raise(group[k].sequence != k + 1, SegmentSequence) +
    Raise(group[k].entry.None? || group[k].exit.None?, StateMissing) +
    Raise(k > 0 && !StatesEqual(group[k - 1].exit, group[k].entry), StateBreak)
  }

  function ContractCodesUpTo(group: seq<SourceSegment>, n: nat): set<Code>
    requires n <= |group|
  {
    if n == 0 then {} else ContractCodesUpTo(group, n - 1) + ContractCodes(group, n - 1)
  }

  function MaxTotal(group: seq<SourceSegment>, n: nat): int
    requires n <= |group|
  {
    if n == 0 then 0
    else if group[n - 1].total > MaxTotal(group, n - 1) then group[n - 1].total
    else MaxTotal(group, n - 1)
  }

  function MaxMax(group: seq<SourceSegment>, n: nat): int
    requires n <= |group|
  {
    if n == 0 then 0
    else if group[n - 1].max > MaxMax(group, n - 1) then group[n - 1].max
    else MaxMax(group, n - 1)
  }

  function CountCodes(group: seq<SourceSegment>): set<Code> {
    var total, max := MaxTotal(group, |group|), MaxMax(group, |group|);
    Raise(total > 0 && max > 0 && |group| < (total - 1) / max + 1, InsufficientSegments)
  }

  /** Where the sweep stands before the n-th of the sorted segments. */
  function Reached(sorted: seq<SourceSegment>, n: nat): int
    requires n <= |sorted|
  {
    if n == 0 then 0
    else if sorted[n - 1].to > Reached(sorted, n - 1) then sorted[n - 1].to
    else Reached(sorted, n - 1)
  }

  function SweepCodes(sorted: seq<SourceSegment>, n: nat): set<Code>
    requires n <= |sorted|
  {
    if n == 0 then {}
    else
      SweepCodes(sorted, n - 1) +
      Raise(sorted[n - 1].from > Reached(sorted, n - 1), SplitGap) +
      Raise(sorted[n - 1].from < Reached(sorted, n - 1), SplitOverlap) +
      Raise(sorted[n - 1].to <= sorted[n - 1].from, InvalidSegment)
  }

  function RangeCodes(sorted: seq<SourceSegment>): set<Code> {
    var total := MaxTotal(sorted, |sorted|);
    SweepCodes(sorted, |sorted|) + Raise(total > 0 && Reached(sorted, |sorted|) < total, SplitGap)
  }

  predicate RangeLess(a: SourceSegment, b: SourceSegment) {
    if a.from != b.from then a.from < b.from else a.to < b.to
  }

  /** The library sort is not stable: any ordered rearrangement may come out. */
  ghost predicate RangeSorted(sorted: seq<SourceSegment>, group: seq<SourceSegment>) {
    && multiset(sorted) == multiset(group)
    && forall i, j | 0 <= i < j < |sorted| :: !RangeLess(sorted[j], sorted[i])
  }

  function GroupCodes(group: seq<SourceSegment>, sorted: seq<SourceSegment>): set<Code> {
    ContractCodesUpTo(group, |group|) + CountCodes(group) + RangeCodes(sorted)
  }

  /** The segments of one source chapter, in input order. */
  function Group(segments: seq<SourceSegment>, chapter: int): seq<SourceSegment> {
    if segments == [] then []
    else
      var last := segments[|segments| - 1];
      Group(segments[..|segments| - 1], chapter) + (if last.chapter == chapter then [last] else [])
  }

  function Chapters(segments: seq<SourceSegment>): set<int> {
    set s | s in segments :: s.chapter
  }

  // ---- Evidence ---------------------------------------------------------------------------------

  function ArtifactMap(artifacts: seq<Artifact>): map<string, Artifact> {
    if artifacts == [] then map[]
    else ArtifactMap(artifacts[..|artifacts| - 1])[artifacts[|artifacts| - 1].id := artifacts[|artifacts| - 1]]
  }

  predicate EvidenceValid(artifacts: map<string, Artifact>, e: Evidence) {
    e.artifactId in artifacts && Trim(e.quote) != "" && Contains(artifacts[e.artifactId].text, e.quote)
  }

  predicate EvidenceSetValid(artifacts: map<string, Artifact>, items: seq<Evidence>, kind: Kind) {
    exists i | 0 <= i < |items| ::
      items[i].artifactId in artifacts && artifacts[items[i].artifactId].kind == kind && EvidenceValid(artifacts, items[i])
  }

  predicate Proves(artifacts: map<string, Artifact>, b: Binding) {
    EvidenceSetValid(artifacts, b.plan, TargetPlan) && EvidenceSetValid(artifacts, b.body, TargetChapter)
  }

  predicate AllValid(artifacts: map<string, Artifact>, items: seq<Evidence>) {
    forall i | 0 <= i < |items| :: EvidenceValid(artifacts, items[i])
  }

  predicate EvidenceHolds(input: Input) {
    var artifacts := ArtifactMap(input.artifacts);
    && (forall i | 0 <= i < |input.events| :: AllValid(artifacts, input.events[i].evidence))
    && (forall i | 0 <= i < |input.bindings| ::
          AllValid(artifacts, input.bindings[i].plan) && AllValid(artifacts, input.bindings[i].body))
  }

  // ---- Target order -----------------------------------------------------------------------------

  /** `sorted` lists the positive values of `values` once each, in increasing order. */
  ghost predicate ListsPositives(sorted: seq<int>, values: seq<int>) {
    && (forall v :: v in sorted <==> v in values && v > 0)
    && (forall i, j | 0 <= i < j < |sorted| :: sorted[i] < sorted[j])
  }

  function BindingsFor(bindings: seq<Binding>, segmentId: string): seq<Binding> {
    if bindings == [] then []
    else
      var last := bindings[|bindings| - 1];
      BindingsFor(bindings[..|bindings| - 1], segmentId) + (if segmentId in last.segmentIds then [last] else [])
  }

  /** The bindings in the order the audit visits them. */
  function Visited(order: seq<SourceSegment>, bindings: seq<Binding>): seq<Binding> {
    if order == [] then []
    else Visited(order[..|order| - 1], bindings) + BindingsFor(bindings, order[|order| - 1].id)
  }

  /** No later binding starts before the last target of an earlier one. */
  predicate NeverStepsBack(visited: seq<Binding>) {
    forall i, j, a, b | 0 <= i < j < |visited| && a in visited[i].targets && b in visited[j].targets && a > 0 && b > 0 ::
      a <= b
  }

  predicate SourceLess(a: SourceSegment, b: SourceSegment) {
    if a.chapter != b.chapter then a.chapter < b.chapter else a.from < b.from
  }

  ghost predicate SourceSorted(order: seq<SourceSegment>, segments: seq<SourceSegment>) {
    && multiset(order) == multiset(segments)
    && forall i, j | 0 <= i < j < |order| :: !SourceLess(order[j], order[i])
  }

  predicate Uncovered(s: SourceSegment, input: Input) {
    s.required && !exists b :: b in BindingsFor(input.bindings, s.id) && Proves(ArtifactMap(input.artifacts), b)
  }

  // ---- Causal order -----------------------------------------------------------------------------

  /** The bindings of an event, in input order; a blank event ID has none. */
  function ByEvent(bindings: seq<Binding>, eventId: string): seq<Binding> {
    if bindings == [] then []
    else
      var last := bindings[|bindings| - 1];
      ByEvent(bindings[..|bindings| - 1], eventId) + (if eventId != "" && last.eventId == eventId then [last] else [])
  }

  function AllTargets(bindings: seq<Binding>): seq<int> {
    if bindings == [] then [] else AllTargets(bindings[..|bindings| - 1]) + bindings[|bindings| - 1].targets
  }

  /** The least positive value, or 0. */
  function LeastPositive(values: seq<int>): (m: int)
    ensures m >= 0 && (m > 0 ==> m in values)
    ensures forall i | 0 <= i < |values| && values[i] > 0 :: 0 < m <= values[i]
  {
    if values == [] then 0
    else
      var m, v := LeastPositive(values[..|values| - 1]), values[|values| - 1];
      if v > 0 && (m == 0 || v < m) then v else m
  }

  /** The first target chapter of an event, or 0. */
  function First(bindings: seq<Binding>, eventId: string): int {
    LeastPositive(AllTargets(ByEvent(bindings, eventId)))
  }

  /** Free mode ignores ordinary source events; an event without a target chapter is not checked. */
  predicate Checked(input: Input, e: Event) {
    && !(input.mode == FreeMode && e.origin == FromSource && e.class_ == Ordinary)
    && First(input.bindings, e.id) > 0
  }

  predicate Established(input: Input, e: Event, dependency: string) {
    0 < First(input.bindings, dependency) < First(input.bindings, e.id)
  }

  predicate Causal(input: Input) {
    forall i, d | 0 <= i < |input.events| && Checked(input, input.events[i]) && d in input.events[i].dependsOn ::
      Established(input, input.events[i], d)
  }
}
