/** The audit's interval sweep and the domain's segment check judge the same coverage. */
module AuditSweep {
  import opened Text
  import opened AuditSpec
  import S = Segments
  import T = SegmentTiling

  /** The audit input built from the segments of one checked chapter. */
  predicate Matches(group: seq<SourceSegment>, runes: int, segs: seq<S.Segment>) {
    && |group| == |segs|
    && forall k | 0 <= k < |group| ::
         && group[k].from == segs[k].share.start && group[k].to == segs[k].share.end
         && group[k].sequence == segs[k].sequence
         && group[k].total == runes && group[k].max == S.MODEL_CHAPTER_MAX_RUNES
  }

  lemma {:induction false} EmptyUnion(a: set<Code>, b: set<Code>)
    ensures a + b == {} <==> a == {} && b == {}
  {
    if a + b == {} {
      assert a <= a + b && b <= a + b;
    }
  }

  // ---- Sorting a strictly ordered list ----------------------------------------------------------

  predicate StartsIncrease(group: seq<SourceSegment>) {
    forall i, j | 0 <= i < j < |group| :: group[i].from < group[j].from
  }

  lemma {:induction false} InMultiset(a: seq<SourceSegment>, x: SourceSegment)
    ensures x in a <==> x in multiset(a)
  {
  }

  lemma {:induction false} SameLength(a: seq<SourceSegment>, b: seq<SourceSegment>)
    requires multiset(a) == multiset(b)
    ensures |a| == |b| && forall x :: x in a <==> x in b
  {
    assert |a| == |multiset(a)| && |b| == |multiset(b)|;
    forall x
      ensures x in a <==> x in b
    {
      InMultiset(a, x);
      InMultiset(b, x);
    }
  }

  lemma {:induction false} SmallestFirst(sorted: seq<SourceSegment>, group: seq<SourceSegment>)
    requires RangeSorted(sorted, group) && StartsIncrease(group) && group != []
    ensures sorted != [] && sorted[0] == group[0]
  {
    SameLength(sorted, group);
    assert sorted[0] in sorted && group[0] in group;
    var i :| 0 <= i < |group| && group[i] == sorted[0];
    var j :| 0 <= j < |sorted| && sorted[j] == group[0];
    if i > 0 {
      assert RangeLess(sorted[j], sorted[0]);
    }
  }

  lemma {:induction false} TailSorted(sorted: seq<SourceSegment>, group: seq<SourceSegment>)
    requires RangeSorted(sorted, group) && sorted != [] && group != [] && sorted[0] == group[0]
    ensures RangeSorted(sorted[1..], group[1..])
  {
    hide RangeLess;
    assert group[..0] + group[1..] == group[1..];
    HeadRemoved(sorted, group, 0);
    assert forall i | 0 <= i < |sorted[1..]| :: sorted[1..][i] == sorted[i + 1];
  }

  /** A list with increasing starts is its own only ordered rearrangement. */
  lemma {:induction false} SortedIsSame(sorted: seq<SourceSegment>, group: seq<SourceSegment>)
    requires RangeSorted(sorted, group) && StartsIncrease(group)
    ensures sorted == group
    decreases |group|
  {
    SameLength(sorted, group);
    if group != [] {
      SmallestFirst(sorted, group);
      TailSorted(sorted, group);
      hide RangeSorted;
      SortedIsSame(sorted[1..], group[1..]);
      assert sorted == [sorted[0]] + sorted[1..] && group == [group[0]] + group[1..];
    }
  }

  // ---- The domain check accepts: the audit is silent --------------------------------------------

  lemma {:induction false} ReachedIsBegin(group: seq<SourceSegment>, runes: int, segs: seq<S.Segment>, n: nat)
    requires Matches(group, runes, segs) && T.Consecutive(runes, segs) && n <= |group|
    ensures Reached(group, n) == T.Begin(segs, n)
    ensures SweepCodes(group, n) == {}
  {
    if n > 0 {
      ReachedIsBegin(group, runes, segs, n - 1);
      assert segs[n - 1].share.start == T.Begin(segs, n - 1);
    }
  }

  lemma {:induction false} LimitsAre(group: seq<SourceSegment>, runes: int, segs: seq<S.Segment>, n: nat)
    requires Matches(group, runes, segs) && n <= |group| && runes > 0
    ensures MaxTotal(group, n) == (if n == 0 then 0 else runes)
    ensures MaxMax(group, n) == (if n == 0 then 0 else S.MODEL_CHAPTER_MAX_RUNES)
  {
    if n > 0 {
      LimitsAre(group, runes, segs, n - 1);
    }
  }

  lemma {:induction false} NoSequenceCode(group: seq<SourceSegment>, n: nat)
    requires n <= |group| && forall k | 0 <= k < n :: group[k].sequence == k + 1
    ensures SegmentSequence !in ContractCodesUpTo(group, n)
    ensures ContractCodesUpTo(group, n) <= {ContractMissing, SegmentSequence, StateMissing, StateBreak}
  {
    if n > 0 {
      NoSequenceCode(group, n - 1);
    }
  }

  lemma {:induction false} TilesIncrease(runes: int, segs: seq<S.Segment>, i: nat, j: nat)
    requires T.Consecutive(runes, segs) && i < j < |segs|
    ensures segs[i].share.start < segs[j].share.start
  {
    T.BeginMonotone(segs, i + 1, j);
  }

  /** If the domain check accepts the segments, the audit of the same ranges reports neither a wrong
      sequence nor too few segments, nor a gap, an overlap or an invalid range, whatever order its unstable
      sort produces. */
  lemma {:induction false} AcceptedIsSilent(
      chapter: int, runes: int, segs: seq<S.Segment>, group: seq<SourceSegment>, sorted: seq<SourceSegment>)
    requires T.Tiles(chapter, runes, segs) && Matches(group, runes, segs) && RangeSorted(sorted, group)
    ensures GroupCodes(group, sorted) <= {ContractMissing, StateMissing, StateBreak}
  {
    hide T.EventsDistinct, T.StatesClean, T.StatesChained, T.EventsNamed, RangeSorted;
    forall i, j | 0 <= i < j < |group|
      ensures group[i].from < group[j].from
    {
      TilesIncrease(runes, segs, i, j);
    }
    SortedIsSame(sorted, group);
    ReachedIsBegin(group, runes, segs, |group|);
    LimitsAre(group, runes, segs, |group|);
    NoSequenceCode(group, |group|);
    EnoughSegments(runes, |group|);
  }

  lemma {:induction false} EnoughSegments(runes: int, count: nat)
    requires 0 < runes <= count * S.MODEL_CHAPTER_MAX_RUNES
    ensures count >= (runes - 1) / S.MODEL_CHAPTER_MAX_RUNES + 1
  {
    T.MinimumCovers(runes, count);
  }

  // ---- A silent sweep: every rune once ----------------------------------------------------------

  /** How many segments contain a rune. */
  function Covering(group: seq<SourceSegment>, rune: int): nat {
    if group == [] then 0
    else
      Covering(group[1..], rune) + (if group[0].from <= rune < group[0].to then 1 else 0)
  }

  lemma {:induction false} CoveringRemoved(group: seq<SourceSegment>, rune: int, i: nat)
    requires i < |group|
    ensures Covering(group, rune) ==
            Covering(group[..i] + group[i + 1..], rune) + (if group[i].from <= rune < group[i].to then 1 else 0)
  {
    if i == 0 {
      assert group[..0] + group[1..] == group[1..];
    } else {
      CoveringRemoved(group[1..], rune, i - 1);
      var rest := group[..i] + group[i + 1..];
      assert rest[1..] == group[1..][..i - 1] + group[1..][i..];
    }
  }

  lemma {:induction false} RemovedMultiset<T>(group: seq<T>, i: nat)
    requires i < |group|
    ensures multiset(group[..i] + group[i + 1..]) == multiset(group) - multiset{group[i]}
  {
    assert group == group[..i] + [group[i]] + group[i + 1..];
  }

  /** Rearranging does not change how often a rune is covered. */
  lemma {:induction false} CoveringRearranged(a: seq<SourceSegment>, b: seq<SourceSegment>, rune: int)
    requires multiset(a) == multiset(b)
    ensures Covering(a, rune) == Covering(b, rune)
    decreases |a|
  {
    SameLength(a, b);
    if a != [] {
      assert a[0] in a;
      var i :| 0 <= i < |b| && b[i] == a[0];
      HeadRemoved(a, b, i);
      CoveringRearranged(a[1..], b[..i] + b[i + 1..], rune);
      CoveringRemoved(b, rune, i);
    }
  }

  lemma {:induction false} HeadRemoved<T>(a: seq<T>, b: seq<T>, i: nat)
    requires multiset(a) == multiset(b) && a != [] && i < |b| && b[i] == a[0]
    ensures multiset(a[1..]) == multiset(b[..i] + b[i + 1..])
  {
    RemovedMultiset(a, 0);
    RemovedMultiset(b, i);
    assert a[..0] + a[1..] == a[1..];
  }

  /** The sweep's ranges as segments of the domain. */
  function Spans(sorted: seq<SourceSegment>): (segs: seq<S.Segment>)
    ensures |segs| == |sorted|
    ensures forall k | 0 <= k < |segs| :: segs[k].share == S.Share(sorted[k].from, sorted[k].to)
  {
    seq(|sorted|, k requires 0 <= k < |sorted| =>
      S.Segment(sorted[k].chapter, sorted[k].sequence, [], S.Share(sorted[k].from, sorted[k].to), None, None, ""))
  }

  lemma {:induction false} QuietSweep(sorted: seq<SourceSegment>, n: nat)
    requires n <= |sorted|
    ensures SweepCodes(sorted, n) == {} <==>
            forall k | 0 <= k < n :: sorted[k].from == Reached(sorted, k) < sorted[k].to
  {
    if n > 0 {
      QuietSweep(sorted, n - 1);
      var at := Reached(sorted, n - 1);
      var gap, overlap := Raise(sorted[n - 1].from > at, SplitGap), Raise(sorted[n - 1].from < at, SplitOverlap);
      var invalid := Raise(sorted[n - 1].to <= sorted[n - 1].from, InvalidSegment);
      EmptyUnion(SweepCodes(sorted, n - 1) + gap + overlap, invalid);
      EmptyUnion(SweepCodes(sorted, n - 1) + gap, overlap);
      EmptyUnion(SweepCodes(sorted, n - 1), gap);
    }
  }

  lemma {:induction false} ReachedBegins(sorted: seq<SourceSegment>, n: nat)
    requires n <= |sorted| && forall k | 0 <= k < |sorted| :: sorted[k].from == Reached(sorted, k) < sorted[k].to
    ensures Reached(sorted, n) == T.Begin(Spans(sorted), n)
  {
    if n > 0 {
      assert sorted[n - 1].from == Reached(sorted, n - 1);
    }
  }

  lemma {:induction false} CoveringOnce(sorted: seq<SourceSegment>, rune: int, k: nat)
    requires k < |sorted| && sorted[k].from <= rune < sorted[k].to
    requires forall j | 0 <= j < |sorted| && j != k :: !(sorted[j].from <= rune < sorted[j].to)
    ensures Covering(sorted, rune) == 1
  {
    CoveringRemoved(sorted, rune, k);
    CoveringNone(sorted[..k] + sorted[k + 1..], rune);
  }

  lemma {:induction false} CoveringNone(sorted: seq<SourceSegment>, rune: int)
    requires forall j | 0 <= j < |sorted| :: !(sorted[j].from <= rune < sorted[j].to)
    ensures Covering(sorted, rune) == 0
  {
    if sorted != [] {
      CoveringNone(sorted[1..], rune);
    }
  }

  /** If the sweep over any ordered rearrangement of the segments finds no gap, overlap or invalid range and no
      segment ends past the total, every rune of the source lies in exactly one segment and no other does. */
  lemma {:induction false} SilentSweepCoversOnce(group: seq<SourceSegment>, sorted: seq<SourceSegment>, rune: int)
    requires RangeSorted(sorted, group) && RangeCodes(sorted) == {}
    requires MaxTotal(sorted, |sorted|) > 0
    requires forall k | 0 <= k < |sorted| :: sorted[k].to <= MaxTotal(sorted, |sorted|)
    ensures Covering(group, rune) == if 0 <= rune < MaxTotal(sorted, |sorted|) then 1 else 0
  {
    hide Reached, MaxTotal, SweepCodes, Covering, Spans, T.Consecutive;
    var total := MaxTotal(sorted, |sorted|);
    EmptyUnion(SweepCodes(sorted, |sorted|), Raise(total > 0 && Reached(sorted, |sorted|) < total, SplitGap));
    QuietSweep(sorted, |sorted|);
    SpansConsecutive(sorted);
    CoveringRearranged(group, sorted, rune);
    ConsecutiveCovers(sorted, total, rune);
  }

  lemma {:induction false} ConsecutiveCovers(sorted: seq<SourceSegment>, total: int, rune: int)
    requires T.Consecutive(total, Spans(sorted))
    ensures Covering(sorted, rune) == if 0 <= rune < total then 1 else 0
  {
    var segs := Spans(sorted);
    T.EveryRuneOnce(total, segs, rune);
    hide T.Consecutive, Spans, Covering;
    assert forall j | 0 <= j < |sorted| :: T.Covers(segs, j, rune) <==> sorted[j].from <= rune < sorted[j].to;
    if 0 <= rune < total {
      var k :| 0 <= k < |segs| && T.Covers(segs, k, rune);
      CoveringOnce(sorted, rune, k);
    } else {
      CoveringNone(sorted, rune);
    }
  }

  lemma {:induction false} SpansConsecutive(sorted: seq<SourceSegment>)
    requires forall k | 0 <= k < |sorted| :: sorted[k].from == Reached(sorted, k) < sorted[k].to
    requires forall k | 0 <= k < |sorted| :: sorted[k].to <= MaxTotal(sorted, |sorted|)
    requires Reached(sorted, |sorted|) >= MaxTotal(sorted, |sorted|) > 0
    ensures T.Consecutive(MaxTotal(sorted, |sorted|), Spans(sorted))
  {
    forall k | 0 <= k <= |sorted| {
      ReachedBegins(sorted, k);
    }
    assert sorted != [];
  }

  // ---- States -----------------------------------------------------------------------------------

  predicate TrimmedState(s: S.State) {
    forall k | k in s :: Trim(k) == k && Trim(s[k]) == s[k]
  }

  /** Over trimmed maps the normalised comparison of the domain is the raw comparison of the audit. */
  lemma {:induction false} StatesCompareAlike(left: S.State, right: S.State)
    requires TrimmedState(left) && TrimmedState(right)
    ensures S.Agree(left, right) <==> left == right
  {
    hide Trim;
    if S.Agree(left, right) {
      forall k
        ensures k in left <==> k in right
      {
        assert k in left ==> Trim(k) in S.Trimmed(left);
        assert k in right ==> Trim(k) in S.Trimmed(right);
      }
      assert left.Keys == right.Keys;
    }
  }

  predicate SameStates(group: seq<SourceSegment>, segs: seq<S.Segment>) {
    |group| == |segs| &&
    forall k | 0 <= k < |group| :: group[k].entry == segs[k].entry && group[k].exit == segs[k].exit && group[k].contract
  }

  predicate StatesTrimmed(segs: seq<S.Segment>) {
    forall k | 0 <= k < |segs| ::
      && (segs[k].entry.Some? ==> TrimmedState(segs[k].entry.value))
      && (segs[k].exit.Some? ==> TrimmedState(segs[k].exit.value))
  }

  lemma {:induction false} StatesSilent(group: seq<SourceSegment>, segs: seq<S.Segment>, n: nat)
    requires SameStates(group, segs) && StatesTrimmed(segs) && n <= |segs|
    requires T.StatesClean(segs) && T.StatesChained(segs)
    ensures ContractCodesUpTo(group, n) <= {SegmentSequence}
  {
    if n > 0 {
      hide S.Agree, S.Clean, TrimmedState;
      StatesSilent(group, segs, n - 1);
      if n > 1 {
        ChainedAt(segs, n - 1);
        StatesCompareAlike(segs[n - 2].exit.value, segs[n - 1].entry.value);
      }
    }
  }

  lemma {:induction false} ChainedAt(segs: seq<S.Segment>, k: nat)
    requires T.StatesChained(segs) && 0 < k < |segs|
    ensures S.Joined(segs, k)
  {
  }
}
