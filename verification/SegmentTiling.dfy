/** The segment check accepts exactly the complete, ordered, exclusive allocations of a source chapter. */
module SegmentTiling {
  import opened Text
  import opened Segments

  /** Where segment k has to begin. */
  function Begin(segs: seq<Segment>, k: nat): int
    requires k <= |segs|
  {
    if k == 0 then 0 else segs[k - 1].share.end
  }

  /** The spans follow each other without gap or overlap from 0 to `runes`. */
  predicate Consecutive(runes: int, segs: seq<Segment>) {
    && (forall k | 0 <= k < |segs| :: segs[k].share.start == Begin(segs, k) < segs[k].share.end)
    && Begin(segs, |segs|) == runes
  }

  predicate Numbered(chapter: int, segs: seq<Segment>) {
    forall k | 0 <= k < |segs| :: segs[k].sourceChapter == chapter && segs[k].sequence == k + 1
  }

  predicate EventsNamed(segs: seq<Segment>) {
    forall k | 0 <= k < |segs| :: !LacksEvent(segs[k].eventIds)
  }

  /** No event ID occurs twice, within a segment or across segments. */
  predicate EventsDistinct(segs: seq<Segment>) {
    && (forall k, i, j | 0 <= k < |segs| && 0 <= i < j < |segs[k].eventIds| ::
          Trim(segs[k].eventIds[i]) != Trim(segs[k].eventIds[j]))
    && (forall h, k, i, j | 0 <= h < k < |segs| && 0 <= i < |segs[h].eventIds| && 0 <= j < |segs[k].eventIds| ::
          Trim(segs[h].eventIds[i]) != Trim(segs[k].eventIds[j]))
  }

  predicate StatesClean(segs: seq<Segment>) {
    forall k | 0 <= k < |segs| ::
      segs[k].entry.Some? && segs[k].exit.Some? && Clean(segs[k].entry.value) && Clean(segs[k].exit.value)
  }

  predicate StatesChained(segs: seq<Segment>) {
    forall k | 0 < k < |segs| :: Joined(segs, k)
  }

  predicate Tiles(chapter: int, runes: int, segs: seq<Segment>) {
    && chapter > 0 && runes > 0 && runes <= |segs| * MODEL_CHAPTER_MAX_RUNES
    && Consecutive(runes, segs) && Numbered(chapter, segs)
    && EventsNamed(segs) && EventsDistinct(segs)
    && StatesClean(segs) && StatesChained(segs)
  }

  // ---- The code sets, read back -----------------------------------------------------------------

  lemma {:induction false} CodesEmpty(chapter: int, runes: int, segs: seq<Segment>, n: nat)
    requires n <= |segs|
    ensures CodesUpTo(chapter, runes, segs, n) == {} <==>
            && chapter > 0 && runes > 0 && |segs| >= MinimumSegments(runes)
            && forall k | 0 <= k < n :: SegmentCodes(chapter, runes, segs, k) == {}
  {
    hide SegmentCodes, MinimumSegments;
    if n == 0 {
      EmptyUnion(Raise(chapter <= 0, InvalidSourceChapter) + Raise(runes <= 0, InvalidSourceRunes),
                 Raise(|segs| < MinimumSegments(runes), InsufficientSegments));
      RaiseQuiet(chapter <= 0, InvalidSourceChapter, runes <= 0, InvalidSourceRunes);
    } else {
      CodesEmpty(chapter, runes, segs, n - 1);
      UpToStep(chapter, runes, segs, n - 1);
      EmptyUnion(CodesUpTo(chapter, runes, segs, n - 1), SegmentCodes(chapter, runes, segs, n - 1));
    }
  }

  lemma {:induction false} EmptyUnion(a: set<Code>, b: set<Code>)
    ensures a + b == {} <==> a == {} && b == {}
  {
    if a + b == {} {
      assert a <= a + b && b <= a + b;
    }
  }

  lemma {:induction false} SegmentQuiet(chapter: int, runes: int, segs: seq<Segment>, k: nat)
    requires k < |segs|
    ensures SegmentCodes(chapter, runes, segs, k) == {} <==>
            && segs[k].sourceChapter == chapter && segs[k].sequence == k + 1
            && !LacksEvent(segs[k].eventIds) && !Repeated(segs[k].eventIds, |segs[k].eventIds|, Owned(segs, k))
            && segs[k].entry.Some? && segs[k].exit.Some? && Clean(segs[k].entry.value) && Clean(segs[k].exit.value)
            && 0 <= segs[k].share.start < segs[k].share.end
            && segs[k].share.start == Expected(segs, k) && (runes > 0 ==> segs[k].share.end <= runes)
  {
    hide LacksEvent, Repeated, Clean, Owned, Expected;
    var a, b := IdentityCodes(chapter, segs, k), EventCodes(segs, k);
    var c, d := StateCodes(segs[k]), ShareCodes(runes, Expected(segs, k), segs[k].share);
    EmptyUnion(a + b + c, d);
    EmptyUnion(a + b, c);
    EmptyUnion(a, b);
    RaiseQuiet(segs[k].sourceChapter != chapter, SourceMismatch, segs[k].sequence != k + 1, Sequence);
    RaiseQuiet(LacksEvent(segs[k].eventIds), MissingEvent,
               Repeated(segs[k].eventIds, |segs[k].eventIds|, Owned(segs, k)), DuplicateEvent);
    StateQuiet(segs[k]);
    ShareQuiet(runes, Expected(segs, k), segs[k].share);
  }

  lemma {:induction false} RaiseQuiet(p: bool, a: Code, q: bool, b: Code)
    ensures Raise(p, a) + Raise(q, b) == {} <==> !p && !q
  {
    EmptyUnion(Raise(p, a), Raise(q, b));
  }

  lemma {:induction false} StateQuiet(seg: Segment)
    ensures StateCodes(seg) == {} <==>
            seg.entry.Some? && seg.exit.Some? && Clean(seg.entry.value) && Clean(seg.exit.value)
  {
    hide Clean;
    var bad := (seg.entry.Some? && !Clean(seg.entry.value)) || (seg.exit.Some? && !Clean(seg.exit.value));
    EmptyUnion(Raise(seg.entry.None?, MissingEntryState) + Raise(seg.exit.None?, MissingExitState), Raise(bad, InvalidState));
    RaiseQuiet(seg.entry.None?, MissingEntryState, seg.exit.None?, MissingExitState);
  }

  lemma {:induction false} ShareQuiet(runes: int, expected: int, share: Share)
    ensures ShareCodes(runes, expected, share) == {} <==>
            0 <= share.start < share.end && share.start == expected && (runes > 0 ==> share.end <= runes)
  {
    if 0 <= share.start < share.end {
      EmptyUnion(Raise(share.start > expected, ShareGap) + Raise(share.start < expected, ShareOverlap),
                 Raise(runes > 0 && share.end > runes, ShareOverflow));
      RaiseQuiet(share.start > expected, ShareGap, share.start < expected, ShareOverlap);
    }
  }

  // ---- Spans ------------------------------------------------------------------------------------

  /** While every span starts where it is expected, that is where the previous one ended, and the rune
      total is the covered length. */
  lemma {:induction false} ExpectedIsBegin(segs: seq<Segment>, n: nat)
    requires n <= |segs|
    requires forall k | 0 <= k < n :: segs[k].share.start == Expected(segs, k) < segs[k].share.end
    ensures Expected(segs, n) == Begin(segs, n) == Total(segs, n)
    ensures forall k | 0 <= k < n :: Expected(segs, k) == Begin(segs, k)
  {
    if n > 0 {
      ExpectedIsBegin(segs, n - 1);
    }
  }

  lemma {:induction false} BeginIsExpected(segs: seq<Segment>, n: nat)
    requires n <= |segs|
    requires forall k | 0 <= k < n :: segs[k].share.start == Begin(segs, k) < segs[k].share.end
    ensures forall k | 0 <= k <= n :: Expected(segs, k) == Begin(segs, k)
  {
    if n > 0 {
      BeginIsExpected(segs, n - 1);
    }
  }

  lemma {:induction false} BeginMonotone(segs: seq<Segment>, j: nat, n: nat)
    requires j <= n <= |segs|
    requires forall k | 0 <= k < |segs| :: segs[k].share.start == Begin(segs, k) < segs[k].share.end
    ensures Begin(segs, j) <= Begin(segs, n)
  {
    if j < n {
      BeginMonotone(segs, j, n - 1);
      assert segs[n - 1].share.start == Begin(segs, n - 1);
    }
  }

  // ---- Events -----------------------------------------------------------------------------------

  predicate NoRepeats(segs: seq<Segment>) {
    forall k | 0 <= k < |segs| :: !Repeated(segs[k].eventIds, |segs[k].eventIds|, Owned(segs, k))
  }

  lemma {:induction false} OwnedMember(segs: seq<Segment>, n: nat, t: string)
    requires n <= |segs|
    ensures t in Owned(segs, n) <==> exists h | 0 <= h < n :: t in Named(segs[h].eventIds)
  {
    hide Named;
    if n > 0 {
      OwnedMember(segs, n - 1, t);
    }
  }

  lemma {:induction false} RepeatsExcludeEarlier(segs: seq<Segment>, h: nat, k: nat, i: nat, j: nat)
    requires EventsNamed(segs) && NoRepeats(segs)
    requires h < k < |segs| && i < |segs[h].eventIds| && j < |segs[k].eventIds|
    ensures Trim(segs[h].eventIds[i]) != Trim(segs[k].eventIds[j])
  {
    hide Trim;
    var t := Trim(segs[h].eventIds[i]);
    assert t != "";
    assert t in Named(segs[h].eventIds);
    OwnedMember(segs, k, t);
  }

  lemma {:induction false} RepeatsExcludeOwn(segs: seq<Segment>, k: nat, i: nat, j: nat)
    requires EventsNamed(segs) && NoRepeats(segs)
    requires k < |segs| && i < j < |segs[k].eventIds|
    ensures Trim(segs[k].eventIds[i]) != Trim(segs[k].eventIds[j])
  {
    hide Trim, Owned;
    var ids := segs[k].eventIds;
    assert ids[..j][i] == ids[i];
    assert Trim(ids[..j][i]) in Named(ids[..j]);
  }

  lemma {:induction false} DistinctMeansNoRepeats(segs: seq<Segment>)
    requires EventsDistinct(segs)
    ensures NoRepeats(segs)
  {
    hide Trim;
    forall k | 0 <= k < |segs|
      ensures !Repeated(segs[k].eventIds, |segs[k].eventIds|, Owned(segs, k))
    {
      var ids := segs[k].eventIds;
      forall j | 0 <= j < |ids| && Trim(ids[j]) != ""
        ensures Trim(ids[j]) !in Owned(segs, k) && Trim(ids[j]) !in Named(ids[..j])
      {
        DistinctAt(segs, k, j);
      }
    }
  }

  lemma {:induction false} DistinctAt(segs: seq<Segment>, k: nat, j: nat)
    requires EventsDistinct(segs) && k < |segs| && j < |segs[k].eventIds|
    ensures Trim(segs[k].eventIds[j]) !in Owned(segs, k) && Trim(segs[k].eventIds[j]) !in Named(segs[k].eventIds[..j])
  {
    hide Trim;
    var ids, t := segs[k].eventIds, Trim(segs[k].eventIds[j]);
    OwnedMember(segs, k, t);
    assert forall i | 0 <= i < j :: ids[..j][i] == ids[i];
  }

  lemma {:induction false} EventsDecided(segs: seq<Segment>)
    requires EventsNamed(segs)
    ensures NoRepeats(segs) <==> EventsDistinct(segs)
  {
    hide Trim, Repeated, Named, Owned, LacksEvent;
    if EventsDistinct(segs) {
      DistinctMeansNoRepeats(segs);
    }
    if NoRepeats(segs) {
      forall k, i, j | 0 <= k < |segs| && 0 <= i < j < |segs[k].eventIds|
        ensures Trim(segs[k].eventIds[i]) != Trim(segs[k].eventIds[j])
      {
        RepeatsExcludeOwn(segs, k, i, j);
      }
      forall h, k, i, j | 0 <= h < k < |segs| && 0 <= i < |segs[h].eventIds| && 0 <= j < |segs[k].eventIds|
        ensures Trim(segs[h].eventIds[i]) != Trim(segs[k].eventIds[j])
      {
        RepeatsExcludeEarlier(segs, h, k, i, j);
      }
    }
  }

  // ---- Soundness and completeness ---------------------------------------------------------------

  lemma {:induction false} CheckedTiles(chapter: int, runes: int, segs: seq<Segment>)
    requires CheckCodes(chapter, runes, segs) == {}
    ensures chapter > 0 && runes > 0 && runes <= |segs| * MODEL_CHAPTER_MAX_RUNES
    ensures Consecutive(runes, segs) && Numbered(chapter, segs)
    ensures EventsNamed(segs) && NoRepeats(segs) && StatesClean(segs)
  {
    hide SegmentCodes, LacksEvent, Repeated, Clean, Owned;
    var a := CodesUpTo(chapter, runes, segs, |segs|);
    var b := Raise(runes > 0 && Expected(segs, |segs|) < runes, ShareIncomplete);
    var c := Raise(runes > 0 && Total(segs, |segs|) != runes, ShareTotal);
    EmptyUnion(a + b, c);
    EmptyUnion(a, b);
    CodesEmpty(chapter, runes, segs, |segs|);
    forall k | 0 <= k < |segs|
      ensures SegmentCodes(chapter, runes, segs, k) == {}
    {
    }
    forall k | 0 <= k < |segs| {
      SegmentQuiet(chapter, runes, segs, k);
    }
    ExpectedIsBegin(segs, |segs|);
    MinimumCovers(runes, |segs|);
  }

  lemma {:induction false} MinimumCovers(runes: int, count: nat)
    requires runes > 0
    ensures count >= MinimumSegments(runes) <==> runes <= count * MODEL_CHAPTER_MAX_RUNES
  {
  }

  lemma {:induction false} TiledIsQuiet(chapter: int, runes: int, segs: seq<Segment>)
    requires chapter > 0 && runes > 0 && runes <= |segs| * MODEL_CHAPTER_MAX_RUNES
    requires Consecutive(runes, segs) && Numbered(chapter, segs)
    requires EventsNamed(segs) && NoRepeats(segs) && StatesClean(segs)
    ensures CheckCodes(chapter, runes, segs) == {}
  {
    hide SegmentCodes, EventsNamed, NoRepeats, StatesClean, Numbered, MinimumSegments;
    BeginIsExpected(segs, |segs|);
    ExpectedIsBegin(segs, |segs|);
    forall k | 0 <= k < |segs| {
      TiledSegment(chapter, runes, segs, k);
    }
    MinimumCovers(runes, |segs|);
    CodesEmpty(chapter, runes, segs, |segs|);
  }

  lemma {:induction false} TiledSegment(chapter: int, runes: int, segs: seq<Segment>, k: nat)
    requires k < |segs| && Consecutive(runes, segs) && Numbered(chapter, segs)
    requires EventsNamed(segs) && NoRepeats(segs) && StatesClean(segs)
    ensures SegmentCodes(chapter, runes, segs, k) == {}
  {
    hide SegmentCodes, LacksEvent, Repeated, Clean, Owned;
    BeginIsExpected(segs, |segs|);
    SegmentQuiet(chapter, runes, segs, k);
    BeginMonotone(segs, 0, k);
    BeginMonotone(segs, k + 1, |segs|);
  }

  /** No code is raised exactly when the segments tile the chapter. */
  lemma {:induction false} CheckDecidesTiling(chapter: int, runes: int, segs: seq<Segment>, codes: set<Code>)
    requires codes - {Discontinuity} == CheckCodes(chapter, runes, segs)
    requires JoinsReported(segs, |segs|, codes)
    ensures codes == {} <==> Tiles(chapter, runes, segs)
  {
    hide Agree, Clean, CheckCodes, Consecutive, EventsDistinct, LacksEvent, Repeated;
    if codes == {} {
      CheckedTiles(chapter, runes, segs);
      EventsDecided(segs);
      forall k | 0 < k < |segs|
        ensures Joined(segs, k)
      {
        assert CleanPair(segs, k);
      }
    }
    if Tiles(chapter, runes, segs) {
      EventsDecided(segs);
      TiledIsQuiet(chapter, runes, segs);
      forall k | 0 < k < |segs|
        ensures CleanPair(segs, k) && Joined(segs, k)
      {
      }
    }
  }

  /** The source's validator: accepted exactly when the segments tile the chapter. */
  method ValidateSegments(chapter: int, runes: int, segs: seq<Segment>) returns (ok: bool)
    ensures ok == Tiles(chapter, runes, segs)
  {
    hide *;
    var issues := CheckSegments(chapter, runes, segs);
    CheckDecidesTiling(chapter, runes, segs, Codes(issues));
    NoCodes(issues);
    ok := |issues| == 0;
  }

  lemma {:induction false} NoCodes(issues: seq<Issue>)
    ensures Codes(issues) == {} <==> issues == []
  {
    if issues != [] {
      assert issues[0].code in Codes(issues);
    }
  }

  // ---- What tiling means ------------------------------------------------------------------------

  predicate Covers(segs: seq<Segment>, k: nat, rune: int)
    requires k < |segs|
  {
    segs[k].share.start <= rune < segs[k].share.end
  }

  /** Every rune of the source belongs to exactly one segment, and no rune outside belongs to any. */
  lemma {:induction false} EveryRuneOnce(runes: int, segs: seq<Segment>, rune: int)
    requires Consecutive(runes, segs)
    ensures 0 <= rune < runes ==> exists k | 0 <= k < |segs| :: Covers(segs, k, rune)
    ensures forall j, k | 0 <= j < |segs| && 0 <= k < |segs| && Covers(segs, j, rune) && Covers(segs, k, rune) :: j == k
    ensures (exists k | 0 <= k < |segs| :: Covers(segs, k, rune)) ==> 0 <= rune < runes
  {
    if 0 <= rune < runes {
      var k := FindCover(segs, |segs|, rune);
      assert Covers(segs, k, rune);
    }
    forall j, k | 0 <= j < k < |segs| && Covers(segs, j, rune) && Covers(segs, k, rune)
      ensures false
    {
      BeginMonotone(segs, j + 1, k);
    }
    if k :| 0 <= k < |segs| && Covers(segs, k, rune) {
      BeginMonotone(segs, 0, k);
      BeginMonotone(segs, k + 1, |segs|);
    }
  }

  lemma {:induction false} FindCover(segs: seq<Segment>, n: nat, rune: int) returns (k: nat)
    requires n <= |segs| && 0 <= rune < Begin(segs, n)
    requires forall k | 0 <= k < |segs| :: segs[k].share.start == Begin(segs, k) < segs[k].share.end
    ensures k < n && Covers(segs, k, rune)
  {
    if rune >= Begin(segs, n - 1) {
      k := n - 1;
    } else {
      k := FindCover(segs, n - 1, rune);
    }
  }

  /** The separate check of the rune total can never be the only complaint. */
  lemma {:induction false} TotalFollows(runes: int, segs: seq<Segment>)
    requires Consecutive(runes, segs)
    ensures Total(segs, |segs|) == runes
  {
    BeginIsExpected(segs, |segs|);
    ExpectedIsBegin(segs, |segs|);
  }
}
