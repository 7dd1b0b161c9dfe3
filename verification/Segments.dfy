/** Source segments: the contract check of internal/domain/adaptation_segment.go and what it guarantees. */
module Segments {
  import opened Text

  const MODEL_CHAPTER_MAX_RUNES := 5000

  /** A half-open span of source runes. */
  datatype Share = Share(start: int, end: int) {
    function Runes(): int { if end <= start then 0 else end - start }
  }

  type State = map<string, string>

  /** An absent state is a nil map; an empty map is a legal state. */
  datatype Segment = Segment(
    sourceChapter: int, sequence: int, eventIds: seq<string>, share: Share,
    entry: Option<State>, exit: Option<State>, reason: string)

  datatype Code =
    | InvalidSourceChapter | InvalidSourceRunes | InsufficientSegments | SourceMismatch | Sequence
    | InvalidShare | ShareGap | ShareOverlap | ShareOverflow | ShareIncomplete | ShareTotal
    | MissingEvent | DuplicateEvent | MissingEntryState | MissingExitState | InvalidState | Discontinuity

  datatype Issue = Issue(code: Code, sourceChapter: int, sequence: int)

  function Codes(issues: seq<Issue>): set<Code> {
    set issue | issue in issues :: issue.code
  }

  lemma {:induction false} CodesAppend(a: seq<Issue>, b: seq<Issue>)
    ensures Codes(a + b) == Codes(a) + Codes(b)
  {
  }

  function Raise(condition: bool, code: Code): set<Code> {
    if condition then {code} else {}
  }

  function MinimumSegments(runes: int): (n: int)
    ensures n >= 0
    ensures runes > 0 ==> (n - 1) * MODEL_CHAPTER_MAX_RUNES < runes <= n * MODEL_CHAPTER_MAX_RUNES
  {
    if runes <= 0 then 0 else (runes - 1) / MODEL_CHAPTER_MAX_RUNES + 1
  }

  // ---- States -----------------------------------------------------------------------------------

  /** No key is blank and no two keys have the same trimming. */
  predicate Clean(state: State) {
    && (forall k :: k in state ==> Trim(k) != "")
    && (forall j, k :: j in state && k in state && Trim(j) == Trim(k) ==> j == k)
  }

  function Trimmed(state: State): set<string> {
    set k | k in state :: Trim(k)
  }

  /** `norm` is a normalisation of `state`: trimmed keys, each with the trimmed value of one of its originals. */
  predicate Normalizes(norm: State, state: State) {
    && norm.Keys == Trimmed(state)
    && forall t | t in norm :: exists k :: k in state && Trim(k) == t && norm[t] == Trim(state[k])
  }

  /** Two clean states say the same: equal trimmed keys with equal trimmed values. */
  predicate Agree(left: State, right: State) {
    && Trimmed(left) == Trimmed(right)
    && forall j, k :: j in left && k in right && Trim(j) == Trim(k) ==> Trim(left[j]) == Trim(right[k])
  }

  lemma {:induction false} TrimmedSize(state: State)
    ensures |Trimmed(state)| <= |state|
    ensures Clean(state) ==> |Trimmed(state)| == |state|
    decreases |state|
  {
    hide Trim;
    if k :| k in state {
      var rest := state - {k};
      assert state.Keys == rest.Keys + {k};
      assert Trimmed(state) == Trimmed(rest) + {Trim(k)};
      TrimmedSize(rest);
    } else {
      assert state.Keys == {};
    }
  }

  lemma {:induction false} SameSize(a: set<string>, b: set<string>)
    requires a <= b && |a| == |b|
    ensures a == b
  {
    assert |b - a| == |b| - |a|;
  }

  /** Every left key, trimmed, has the left value, trimmed, in `norm`. */
  predicate FoundIn(left: State, norm: State) {
    forall k :: k in left ==> Trim(k) in norm && norm[Trim(k)] == Trim(left[k])
  }

  /** The code compares sizes and looks up every left key only; over clean states that is agreement, because
      equally many distinct trimmed keys, all found on the right, leave no right key over. */
  lemma {:induction false} LookupsDecide(left: State, right: State, norm: State)
    requires Clean(left) && Clean(right) && Normalizes(norm, right)
    ensures |left| == |right| && FoundIn(left, norm) <==> Agree(left, right)
  {
    hide Trim;
    TrimmedSize(left);
    TrimmedSize(right);
    if |left| == |right| && FoundIn(left, norm) {
      SameSize(Trimmed(left), Trimmed(right));
    }
    if Agree(left, right) {
      forall k | k in left
        ensures Trim(k) in norm && norm[Trim(k)] == Trim(left[k])
      {
        assert Trim(k) in Trimmed(left);
      }
    }
  }

  method NormalizeState(state: State) returns (norm: State)
    ensures Normalizes(norm, state)
  {
    hide Trim;
    norm := map[];
    var rest := state.Keys;
    while rest != {}
      invariant rest <= state.Keys
      invariant norm.Keys == set k | k in state.Keys - rest :: Trim(k)
      invariant forall t | t in norm :: exists k :: k in state && Trim(k) == t && norm[t] == Trim(state[k])
      decreases |rest|
    {
      var key :| key in rest;
      norm := norm[Trim(key) := Trim(state[key])];
      rest := rest - {key};
    }
  }

  method LookUpAll(left: State, norm: State) returns (found: bool)
    ensures found == FoundIn(left, norm)
  {
    hide Trim;
    var rest := left.Keys;
    while rest != {}
      invariant rest <= left.Keys
      invariant forall k | k in left.Keys - rest :: Trim(k) in norm && norm[Trim(k)] == Trim(left[k])
      decreases |rest|
    {
      var key :| key in rest;
      if Trim(key) !in norm || norm[Trim(key)] != Trim(left[key]) {
        return false;
      }
      rest := rest - {key};
    }
    found := true;
  }

  method StatesEqual(left: State, right: State) returns (equal: bool)
    ensures Clean(left) && Clean(right) ==> equal == Agree(left, right)
  {
    hide *;
    if |left| != |right| {
      SizesDiffer(left, right);
      return false;
    }
    var norm := NormalizeState(right);
    equal := LookUpAll(left, norm);
    if Clean(left) && Clean(right) {
      LookupsDecide(left, right, norm);
    }
  }

  lemma {:induction false} SizesDiffer(left: State, right: State)
    requires |left| != |right|
    ensures Clean(left) && Clean(right) ==> !Agree(left, right)
  {
    hide Trim, Clean, Trimmed;
    TrimmedSize(left);
    TrimmedSize(right);
  }

  // ---- What the check looks for -----------------------------------------------------------------

  /** Where the k-th segment is expected to start: the furthest end so far. */
  function Expected(segs: seq<Segment>, k: nat): int
    requires k <= |segs|
  {
    if k == 0 then 0
    else if segs[k - 1].share.end > Expected(segs, k - 1) then segs[k - 1].share.end
    else Expected(segs, k - 1)
  }

  function Total(segs: seq<Segment>, k: nat): int
    requires k <= |segs|
  {
    if k == 0 then 0 else Total(segs, k - 1) + segs[k - 1].share.Runes()
  }

  function Named(ids: seq<string>): set<string> {
    set i | 0 <= i < |ids| && Trim(ids[i]) != "" :: Trim(ids[i])
  }

  /** The events the first k segments own. */
  function Owned(segs: seq<Segment>, k: nat): set<string>
    requires k <= |segs|
  {
    if k == 0 then {} else Owned(segs, k - 1) + Named(segs[k - 1].eventIds)
  }

  predicate LacksEvent(ids: seq<string>) {
    ids == [] || exists i | 0 <= i < |ids| :: Trim(ids[i]) == ""
  }

  predicate Repeated(ids: seq<string>, n: nat, before: set<string>)
    requires n <= |ids|
  {
    exists j | 0 <= j < n :: Trim(ids[j]) != "" && (Trim(ids[j]) in before || Trim(ids[j]) in Named(ids[..j]))
  }

  function IdentityCodes(chapter: int, segs: seq<Segment>, k: nat): set<Code>
    requires k < |segs|
  {
    Raise(segs[k].sourceChapter != chapter, SourceMismatch) + Raise(segs[k].sequence != k + 1, Sequence)
  }

  function EventCodes(segs: seq<Segment>, k: nat): set<Code>
    requires k < |segs|
  {
    Raise(LacksEvent(segs[k].eventIds), MissingEvent) +
    Raise(Repeated(segs[k].eventIds, |segs[k].eventIds|, Owned(segs, k)), DuplicateEvent)
  }

  function StateCodes(seg: Segment): set<Code> {
    Raise(seg.entry.None?, MissingEntryState) + Raise(seg.exit.None?, MissingExitState) +
    Raise((seg.entry.Some? && !Clean(seg.entry.value)) || (seg.exit.Some? && !Clean(seg.exit.value)), InvalidState)
  }

  function ShareCodes(runes: int, expected: int, share: Share): set<Code> {
    if share.start < 0 || share.end <= share.start then {InvalidShare}
    else
      Raise(share.start > expected, ShareGap) + Raise(share.start < expected, ShareOverlap) +
      Raise(runes > 0 && share.end > runes, ShareOverflow)
  }

  function SegmentCodes(chapter: int, runes: int, segs: seq<Segment>, k: nat): set<Code>
    requires k < |segs|
  {
    IdentityCodes(chapter, segs, k) + EventCodes(segs, k) + StateCodes(segs[k]) +
    ShareCodes(runes, Expected(segs, k), segs[k].share)
  }

  function CodesUpTo(chapter: int, runes: int, segs: seq<Segment>, k: nat): set<Code>
    requires k <= |segs|
  {
    if k == 0 then
      Raise(chapter <= 0, InvalidSourceChapter) + Raise(runes <= 0, InvalidSourceRunes) +
      Raise(|segs| < MinimumSegments(runes), InsufficientSegments)
    else CodesUpTo(chapter, runes, segs, k - 1) + SegmentCodes(chapter, runes, segs, k - 1)
  }

  /** Every code but the state discontinuity, which is only determined for clean states. */
  function CheckCodes(chapter: int, runes: int, segs: seq<Segment>): set<Code> {
    CodesUpTo(chapter, runes, segs, |segs|) +
    Raise(runes > 0 && Expected(segs, |segs|) < runes, ShareIncomplete) +
    Raise(runes > 0 && Total(segs, |segs|) != runes, ShareTotal)
  }

  predicate Joined(segs: seq<Segment>, k: nat)
    requires 0 < k < |segs|
  {
    segs[k - 1].exit.Some? && segs[k].entry.Some? ==> Agree(segs[k - 1].exit.value, segs[k].entry.value)
  }

  predicate CleanPair(segs: seq<Segment>, k: nat)
    requires 0 < k < |segs|
  {
    && (segs[k - 1].exit.Some? ==> Clean(segs[k - 1].exit.value))
    && (segs[k].entry.Some? ==> Clean(segs[k].entry.value))
  }

  // ---- The check --------------------------------------------------------------------------------

  method CheckIdentity(chapter: int, segs: seq<Segment>, k: nat) returns (issues: seq<Issue>)
    requires k < |segs|
    ensures Codes(issues) == IdentityCodes(chapter, segs, k)
  {
    issues := [];
    if segs[k].sourceChapter != chapter {
      issues := issues + [Issue(SourceMismatch, chapter, segs[k].sequence)];
    }
    if segs[k].sequence != k + 1 {
      issues := issues + [Issue(Sequence, chapter, segs[k].sequence)];
    }
  }

  lemma {:induction false} NamedStep(ids: seq<string>, j: nat)
    requires j < |ids|
    ensures Named(ids[..j + 1]) == Named(ids[..j]) + (if Trim(ids[j]) != "" then {Trim(ids[j])} else {})
  {
    hide Trim;
    var a, b := ids[..j + 1], ids[..j];
    forall t | t in Named(a)
      ensures t in Named(b) || t == Trim(ids[j])
    {
      var i :| 0 <= i < |a| && Trim(a[i]) != "" && Trim(a[i]) == t;
      if i < j {
        assert b[i] == a[i];
      }
    }
    forall t | t in Named(b)
      ensures t in Named(a)
    {
      var i :| 0 <= i < |b| && Trim(b[i]) != "" && Trim(b[i]) == t;
      assert a[i] == b[i];
    }
    assert a[j] == ids[j];
  }

  predicate SomeBlank(ids: seq<string>, n: nat)
    requires n <= |ids|
  {
    exists i | 0 <= i < n :: Trim(ids[i]) == ""
  }

  lemma {:induction false} EventsStart(ids: seq<string>, before: set<string>)
    ensures !SomeBlank(ids, 0) && !Repeated(ids, 0, before) && Named(ids[..0]) == {} && Codes([]) == {}
    ensures LacksEvent(ids) <==> ids == [] || SomeBlank(ids, |ids|)
    ensures ids[..|ids|] == ids
  {
    hide Trim;
  }

  lemma {:induction false} EventsStep(ids: seq<string>, j: nat, before: set<string>)
    requires j < |ids|
    ensures SomeBlank(ids, j + 1) <==> SomeBlank(ids, j) || Trim(ids[j]) == ""
    ensures Repeated(ids, j + 1, before) <==>
            Repeated(ids, j, before) || (Trim(ids[j]) != "" && Trim(ids[j]) in before + Named(ids[..j]))
  {
    hide Trim, Named;
  }

  lemma {:induction false} AddCode(issues: seq<Issue>, code: Code, seg: Segment)
    ensures Codes(issues + [Issue(code, seg.sourceChapter, seg.sequence)]) == Codes(issues) + {code}
    ensures Codes([Issue(code, seg.sourceChapter, seg.sequence)]) == {code}
  {
    assert ([] + [Issue(code, seg.sourceChapter, seg.sequence)])[0].code == code;
    CodesAppend(issues, [Issue(code, seg.sourceChapter, seg.sequence)]);
  }

  /** `seen` is shared between the segments, as the map of the source is. */
  method CheckEvents(seg: Segment, before: set<string>) returns (issues: seq<Issue>, seen: set<string>)
    ensures Codes(issues) ==
            Raise(LacksEvent(seg.eventIds), MissingEvent) + Raise(Repeated(seg.eventIds, |seg.eventIds|, before), DuplicateEvent)
    ensures seen == before + Named(seg.eventIds)
  {
    hide Trim, Named, Repeated, SomeBlank, Codes;
    issues, seen := [], before;
    var ids := seg.eventIds;
    EventsStart(ids, before);
    if |ids| == 0 {
      AddCode([], MissingEvent, seg);
      return [Issue(MissingEvent, seg.sourceChapter, seg.sequence)], seen;
    }
    for j := 0 to |ids|
      invariant seen == before + Named(ids[..j])
      invariant Codes(issues) == Raise(SomeBlank(ids, j), MissingEvent) + Raise(Repeated(ids, j, before), DuplicateEvent)
    {
      NamedStep(ids, j);
      EventsStep(ids, j, before);
      AddCode(issues, MissingEvent, seg);
      AddCode(issues, DuplicateEvent, seg);
      var id := Trim(ids[j]);
      if id == "" {
        issues := issues + [Issue(MissingEvent, seg.sourceChapter, seg.sequence)];
        continue;
      }
      if id in seen {
        issues := issues + [Issue(DuplicateEvent, seg.sourceChapter, seg.sequence)];
        continue;
      }
      seen := seen + {id};
    }
    assert ids[..|ids|] == ids;
  }

  method CheckState(seg: Segment, state: Option<State>) returns (issues: seq<Issue>)
    ensures Codes(issues) == Raise(state.Some? && !Clean(state.value), InvalidState)
  {
    hide Trim;
    issues := [];
    if state.None? {
      return;
    }
    var s := state.value;
    var seen: set<string> := {};
    var rest := s.Keys;
    while rest != {}
      invariant rest <= s.Keys
      invariant Codes(issues) <= {InvalidState}
      invariant seen <= set k | k in s.Keys - rest :: Trim(k)
      invariant issues == [] ==>
                  && seen == (set k | k in s.Keys - rest :: Trim(k))
                  && (forall k :: k in s.Keys - rest ==> Trim(k) != "")
                  && (forall j, k :: j in s.Keys - rest && k in s.Keys - rest && Trim(j) == Trim(k) ==> j == k)
      invariant issues != [] ==> !Clean(s)
      decreases |rest|
    {
      var raw :| raw in rest;
      rest := rest - {raw};
      var key := Trim(raw);
      if key == "" {
        issues := issues + [Issue(InvalidState, seg.sourceChapter, seg.sequence)];
        continue;
      }
      if key in seen {
        issues := issues + [Issue(InvalidState, seg.sourceChapter, seg.sequence)];
      }
      seen := seen + {key};
    }
    if issues != [] {
      assert issues[0].code in Codes(issues);
    }
  }

  method CheckStates(seg: Segment, previousExit: Option<State>) returns (issues: seq<Issue>)
    ensures Codes(issues) - {Discontinuity} == StateCodes(seg)
    ensures previousExit.None? || seg.entry.None? ==> Discontinuity !in Codes(issues)
    ensures previousExit.Some? && seg.entry.Some? && Clean(previousExit.value) && Clean(seg.entry.value) ==>
              (Discontinuity in Codes(issues) <==> !Agree(previousExit.value, seg.entry.value))
  {
    issues := [];
    hide Clean, Agree, Codes;
    NoIssues();
    AddCode(issues, MissingEntryState, seg);
    if seg.entry.None? {
      issues := issues + [Issue(MissingEntryState, seg.sourceChapter, seg.sequence)];
    }
    AddCode(issues, MissingExitState, seg);
    if seg.exit.None? {
      issues := issues + [Issue(MissingExitState, seg.sourceChapter, seg.sequence)];
    }
    var entry := CheckState(seg, seg.entry);
    var exit := CheckState(seg, seg.exit);
    CodesAppend(issues, entry);
    CodesAppend(issues + entry, exit);
    issues := issues + entry + exit;
    assert Codes(issues) == StateCodes(seg);
    AddCode(issues, Discontinuity, seg);
    if previousExit.Some? && seg.entry.Some? {
      var equal := StatesEqual(previousExit.value, seg.entry.value);
      if !equal {
        issues := issues + [Issue(Discontinuity, seg.sourceChapter, seg.sequence)];
      }
    }
  }

  lemma {:induction false} NoIssues()
    ensures Codes([]) == {}
  {
  }

  method CheckShare(chapter: int, sequence: int, runes: int, expected: int, share: Share) returns (issues: seq<Issue>)
    ensures Codes(issues) == ShareCodes(runes, expected, share)
  {
    issues := [];
    if share.start < 0 || share.end <= share.start {
      return [Issue(InvalidShare, chapter, sequence)];
    }
    if share.start > expected {
      issues := issues + [Issue(ShareGap, chapter, sequence)];
    } else if share.start < expected {
      issues := issues + [Issue(ShareOverlap, chapter, sequence)];
    }
    if runes > 0 && share.end > runes {
      issues := issues + [Issue(ShareOverflow, chapter, sequence)];
    }
  }

  /** The discontinuity code of the first k segments: exact where the two states are clean. */
  ghost predicate JoinsReported(segs: seq<Segment>, k: nat, codes: set<Code>)
    requires k <= |segs|
  {
    && ((exists j | 0 < j < k :: CleanPair(segs, j) && !Joined(segs, j)) ==> Discontinuity in codes)
    && (Discontinuity in codes ==> exists j | 0 < j < k :: !(CleanPair(segs, j) && Joined(segs, j)))
  }

  method CheckSegments(chapter: int, runes: int, segs: seq<Segment>) returns (issues: seq<Issue>)
    ensures Codes(issues) - {Discontinuity} == CheckCodes(chapter, runes, segs)
    ensures JoinsReported(segs, |segs|, Codes(issues))
  {
    hide *;
    issues := CheckHeader(chapter, runes, |segs|);
    var expected, total := 0, 0;
    var seen: set<string> := {};
    var previousExit: Option<State> := None;
    UpToStart(chapter, runes, segs, Codes(issues));
    for k := 0 to |segs|
      invariant expected == Expected(segs, k) && total == Total(segs, k) && seen == Owned(segs, k)
      invariant previousExit == if k == 0 then None else segs[k - 1].exit
      invariant Codes(issues) - {Discontinuity} == CodesUpTo(chapter, runes, segs, k)
      invariant JoinsReported(segs, k, Codes(issues))
    {
      var found := CheckSegment(chapter, runes, segs, k, seen, previousExit, expected);
      UpToStep(chapter, runes, segs, k);
      CodesAppend(issues, found);
      JoinsStep(segs, k, Codes(issues), Codes(found));
      MinusUnion(Codes(issues), Codes(found), Discontinuity);
      issues := issues + found;
      seen := seen + Named(segs[k].eventIds);
      total := total + segs[k].share.Runes();
      if segs[k].share.end > expected {
        expected := segs[k].share.end;
      }
      previousExit := segs[k].exit;
    }
    var coverage := CheckCoverage(chapter, runes, expected, total);
    CodesAppend(issues, coverage);
    CoverageQuiet(chapter, runes, segs);
    JoinsKept(segs, Codes(issues), Codes(coverage));
    MinusUnion(Codes(issues), Codes(coverage), Discontinuity);
    issues := issues + coverage;
  }

  method CheckHeader(chapter: int, runes: int, count: nat) returns (issues: seq<Issue>)
    ensures Codes(issues) == Raise(chapter <= 0, InvalidSourceChapter) + Raise(runes <= 0, InvalidSourceRunes) +
                             Raise(count < MinimumSegments(runes), InsufficientSegments)
  {
    issues := [];
    if chapter <= 0 {
      issues := issues + [Issue(InvalidSourceChapter, chapter, 0)];
    }
    if runes <= 0 {
      issues := issues + [Issue(InvalidSourceRunes, chapter, 0)];
    }
    if count < MinimumSegments(runes) {
      issues := issues + [Issue(InsufficientSegments, chapter, 0)];
    }
  }

  method CheckCoverage(chapter: int, runes: int, covered: int, total: int) returns (issues: seq<Issue>)
    ensures Codes(issues) == Raise(runes > 0 && covered < runes, ShareIncomplete) + Raise(runes > 0 && total != runes, ShareTotal)
  {
    issues := [];
    if runes > 0 && covered < runes {
      issues := issues + [Issue(ShareIncomplete, chapter, 0)];
    }
    if runes > 0 && total != runes {
      issues := issues + [Issue(ShareTotal, chapter, 0)];
    }
  }

  lemma {:induction false} MinusUnion(a: set<Code>, b: set<Code>, c: Code)
    ensures (a + b) - {c} == (a - {c}) + (b - {c})
    ensures c !in b ==> b - {c} == b
  {
  }

  lemma {:induction false} UpToStart(chapter: int, runes: int, segs: seq<Segment>, codes: set<Code>)
    requires codes == Raise(chapter <= 0, InvalidSourceChapter) + Raise(runes <= 0, InvalidSourceRunes) +
                      Raise(|segs| < MinimumSegments(runes), InsufficientSegments)
    ensures Expected(segs, 0) == 0 && Total(segs, 0) == 0 && Owned(segs, 0) == {}
    ensures codes - {Discontinuity} == CodesUpTo(chapter, runes, segs, 0)
    ensures JoinsReported(segs, 0, codes)
  {
  }

  lemma {:induction false} JoinsKept(segs: seq<Segment>, codes: set<Code>, more: set<Code>)
    requires JoinsReported(segs, |segs|, codes) && Discontinuity !in more
    ensures JoinsReported(segs, |segs|, codes + more)
  {
  }

  lemma {:induction false} CoverageQuiet(chapter: int, runes: int, segs: seq<Segment>)
    ensures
      var coverage := Raise(runes > 0 && Expected(segs, |segs|) < runes, ShareIncomplete) +
                      Raise(runes > 0 && Total(segs, |segs|) != runes, ShareTotal);
      && Discontinuity !in coverage
      && CheckCodes(chapter, runes, segs) == CodesUpTo(chapter, runes, segs, |segs|) + coverage
  {
  }

  lemma {:induction false} UpToStep(chapter: int, runes: int, segs: seq<Segment>, k: nat)
    requires k < |segs|
    ensures CodesUpTo(chapter, runes, segs, k + 1) == CodesUpTo(chapter, runes, segs, k) + SegmentCodes(chapter, runes, segs, k)
    ensures Owned(segs, k + 1) == Owned(segs, k) + Named(segs[k].eventIds)
    ensures Total(segs, k + 1) == Total(segs, k) + segs[k].share.Runes()
    ensures Expected(segs, k + 1) == if segs[k].share.end > Expected(segs, k) then segs[k].share.end else Expected(segs, k)
  {
  }

  ghost predicate JoinHere(segs: seq<Segment>, k: nat, codes: set<Code>)
    requires k < |segs|
  {
    && (k == 0 ==> Discontinuity !in codes)
    && (k > 0 && CleanPair(segs, k) ==> (Discontinuity in codes <==> !Joined(segs, k)))
  }

  lemma {:induction false} QuietCodes(chapter: int, runes: int, segs: seq<Segment>, k: nat)
    requires k < |segs|
    ensures Discontinuity !in IdentityCodes(chapter, segs, k) + EventCodes(segs, k)
    ensures Discontinuity !in ShareCodes(runes, Expected(segs, k), segs[k].share)
  {
  }

  /** One iteration of the source's loop body. */
  method CheckSegment(
      chapter: int, runes: int, segs: seq<Segment>, k: nat, seen: set<string>, previousExit: Option<State>, expected: int)
    returns (issues: seq<Issue>)
    requires k < |segs| && seen == Owned(segs, k) && expected == Expected(segs, k)
    requires previousExit == if k == 0 then None else segs[k - 1].exit
    ensures Codes(issues) - {Discontinuity} == SegmentCodes(chapter, runes, segs, k)
    ensures JoinHere(segs, k, Codes(issues))
  {
    QuietCodes(chapter, runes, segs, k);
    hide Trim, IdentityCodes, EventCodes, StateCodes, ShareCodes, Owned, Expected, Agree, Clean;
    var identity := CheckIdentity(chapter, segs, k);
    var events, _ := CheckEvents(segs[k], seen);
    var states := CheckStates(segs[k], previousExit);
    var share := CheckShare(chapter, segs[k].sequence, runes, expected, segs[k].share);
    CodesAppend(identity, events);
    CodesAppend(identity + events, states);
    CodesAppend(identity + events + states, share);
    issues := identity + events + states + share;
  }

  lemma {:induction false} JoinsStep(segs: seq<Segment>, k: nat, codes: set<Code>, more: set<Code>)
    requires k < |segs| && JoinsReported(segs, k, codes) && JoinHere(segs, k, more)
    ensures JoinsReported(segs, k + 1, codes + more)
  {
    if Discontinuity in codes {
      var j :| 0 < j < k && !(CleanPair(segs, j) && Joined(segs, j));
    }
  }
}
