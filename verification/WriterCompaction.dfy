/** Properties of one and of two compaction passes: which results stay, that a second pass has nothing to
    do, and what happens to the newest write receipt. */
module WriterCompaction {
  import opened Sequences
  import opened WriterHistory
  import opened WriterPass

  // ---- The protected results --------------------------------------------------------------------

  ghost predicate Ordered(cands: seq<Candidate>) {
    && (forall i, j | 0 <= i < j < |cands| :: cands[i].index < cands[j].index)
    && (forall i | 0 <= i < |cands| :: cands[i].tool == NOVEL_CONTEXT ==> cands[i].key == NOVEL_CONTEXT)
  }

  /** The kept results are uncleared, pairwise differ in their key, and a kept work package was allowed. */
  ghost predicate Distinguished(cands: seq<Candidate>, kept: set<nat>, novel: bool) {
    && (forall i | 0 <= i < |cands| && cands[i].index in kept :: !cands[i].cleared && (cands[i].tool == NOVEL_CONTEXT ==> novel))
    && (forall i, j | 0 <= i < j < |cands| && cands[i].index in kept && cands[j].index in kept :: cands[i].key != cands[j].key)
  }

  ghost predicate Seen(cands: seq<Candidate>, kept: set<nat>, seen: set<string>) {
    forall i | 0 <= i < |cands| && cands[i].index in kept :: cands[i].key in seen
  }

  lemma {:induction false} ProtectBackFacts(
      cands: seq<Candidate>, n: nat, kept: set<nat>, seen: set<string>, keep: int, drop: bool, novel: bool)
    requires n <= |cands| && Ordered(cands)
    requires Distinguished(cands, kept, novel) && Seen(cands, kept, seen)
    requires !drop ==> novel
    requires |kept| <= keep || kept == {}
    ensures Distinguished(cands, ProtectBack(cands, n, kept, seen, keep, drop), novel)
    ensures |ProtectBack(cands, n, kept, seen, keep, drop)| <= keep || ProtectBack(cands, n, kept, seen, keep, drop) == {}
  {
    hide Distinguished, Seen, Ordered;
    if n == 0 || |kept| >= keep {
    } else if Skipped(cands[n - 1], seen, drop) {
      ProtectBackFacts(cands, n - 1, kept, seen, keep, drop, novel);
    } else {
      DistinguishedAdd(cands, n - 1, kept, seen, drop, novel);
      ProtectBackFacts(cands, n - 1, kept + {cands[n - 1].index}, seen + {cands[n - 1].key}, keep, drop, novel);
    }
  }

  lemma {:induction false} DistinguishedAdd(
      cands: seq<Candidate>, k: nat, kept: set<nat>, seen: set<string>, drop: bool, novel: bool)
    requires k < |cands| && Ordered(cands) && Distinguished(cands, kept, novel) && Seen(cands, kept, seen)
    requires (!drop ==> novel) && !Skipped(cands[k], seen, drop)
    ensures cands[k].index !in kept
    ensures Distinguished(cands, kept + {cands[k].index}, novel)
    ensures Seen(cands, kept + {cands[k].index}, seen + {cands[k].key})
  {
    forall i | 0 <= i < |cands| && cands[i].index == cands[k].index
      ensures i == k
    {
    }
  }

  /** Whether a work package may stay uncleared. */
  predicate NovelAllowed(o: Options) {
    o.dropNovel ==> o.preferOriginal && o.keep > 1
  }

  lemma {:induction false} ProtectFacts(cands: seq<Candidate>, o: Options)
    requires Ordered(cands)
    ensures
      var kept := Protect(cands, o.keep, o.preferOriginal, o.dropNovel);
      Distinguished(cands, kept, NovelAllowed(o)) && (|kept| <= o.keep || kept == {})
  {
    var k := FirstOriginal(cands);
    if o.preferOriginal && o.keep > 1 && k < |cands| {
      ProtectBackFacts(cands, |cands|, {cands[k].index}, {cands[k].key}, o.keep, o.dropNovel, true);
    } else if NovelAllowed(o) {
      ProtectBackFacts(cands, |cands|, {}, {}, o.keep, o.dropNovel, true);
    } else {
      ProtectBackFacts(cands, |cands|, {}, {}, o.keep, o.dropNovel, false);
    }
  }

  // ---- A list that needs no clearing ------------------------------------------------------------

  function Uncleared(cands: seq<Candidate>): nat {
    if cands == [] then 0 else Uncleared(Init(cands)) + (if Last(cands).cleared then 0 else 1)
  }

  ghost function UnclearedAt(cands: seq<Candidate>): set<nat> {
    set c | c in cands && !c.cleared :: c.index
  }

  lemma {:induction false} UnclearedCount(cands: seq<Candidate>)
    ensures |UnclearedAt(cands)| <= Uncleared(cands)
  {
    if cands != [] {
      UnclearedCount(Init(cands));
      assert cands == Init(cands) + [Last(cands)];
      assert UnclearedAt(cands) == UnclearedAt(Init(cands)) + (if Last(cands).cleared then {} else {Last(cands).index});
    }
  }

  /** Uncleared results that fit the window, differ in their keys and are allowed to stay. */
  ghost predicate Settled(cands: seq<Candidate>, o: Options) {
    && (forall i | 0 <= i < |cands| && !cands[i].cleared :: cands[i].tool == NOVEL_CONTEXT ==> NovelAllowed(o))
    && (forall i, j | 0 <= i < j < |cands| && !cands[i].cleared && !cands[j].cleared :: cands[i].key != cands[j].key)
    && (Uncleared(cands) <= o.keep || Uncleared(cands) == 0)
  }

  /** The backwards scan has reached position n and every uncleared result it passed is kept. */
  ghost predicate Scanned(cands: seq<Candidate>, n: nat, kept: set<nat>, seen: set<string>, o: Options)
    requires n <= |cands|
  {
    && (forall i | 0 <= i < |cands| && !cands[i].cleared ::
          i >= n || cands[i].key in seen || (o.dropNovel && cands[i].tool == NOVEL_CONTEXT) ==> cands[i].index in kept)
    && (forall x | x in kept :: exists i | 0 <= i < |cands| :: !cands[i].cleared && cands[i].index == x)
  }

  lemma {:induction false} ScannedAdd(cands: seq<Candidate>, n: nat, kept: set<nat>, seen: set<string>, o: Options)
    requires 0 < n <= |cands| && Settled(cands, o)
    requires Scanned(cands, n, kept, seen, o) && !cands[n - 1].cleared
    ensures Scanned(cands, n - 1, kept + {cands[n - 1].index}, seen + {cands[n - 1].key}, o)
  {
  }

  lemma {:induction false} ScannedSkip(cands: seq<Candidate>, n: nat, kept: set<nat>, seen: set<string>, o: Options)
    requires 0 < n <= |cands|
    requires Scanned(cands, n, kept, seen, o) && Skipped(cands[n - 1], seen, o.dropNovel)
    ensures Scanned(cands, n - 1, kept, seen, o)
  {
  }

  lemma {:induction false} ProtectBackAll(
      cands: seq<Candidate>, n: nat, kept: set<nat>, seen: set<string>, o: Options)
    requires n <= |cands| && Settled(cands, o) && Scanned(cands, n, kept, seen, o)
    ensures UnclearedAt(cands) <= ProtectBack(cands, n, kept, seen, o.keep, o.dropNovel)
  {
    hide Scanned, Settled, UnclearedAt, Skipped, Uncleared;
    SettledFits(cands, o);
    if n == 0 {
      ScannedEnd(cands, kept, seen, o);
    } else if |kept| >= o.keep {
      UnclearedCount(cands);
      ScannedWithin(cands, n, kept, seen, o);
      FullSubset(kept, UnclearedAt(cands));
    } else if Skipped(cands[n - 1], seen, o.dropNovel) {
      ScannedSkip(cands, n, kept, seen, o);
      ProtectBackAll(cands, n - 1, kept, seen, o);
    } else {
      NotSkipped(cands[n - 1], seen, o.dropNovel);
      ScannedAdd(cands, n, kept, seen, o);
      ProtectBackAll(cands, n - 1, kept + {cands[n - 1].index}, seen + {cands[n - 1].key}, o);
    }
  }

  lemma {:induction false} NotSkipped(c: Candidate, seen: set<string>, dropNovel: bool)
    requires !Skipped(c, seen, dropNovel)
    ensures !c.cleared
  {
  }

  lemma {:induction false} SettledFits(cands: seq<Candidate>, o: Options)
    requires Settled(cands, o)
    ensures Uncleared(cands) <= o.keep || Uncleared(cands) == 0
  {
  }

  lemma {:induction false} ScannedEnd(cands: seq<Candidate>, kept: set<nat>, seen: set<string>, o: Options)
    requires Scanned(cands, 0, kept, seen, o)
    ensures UnclearedAt(cands) <= kept
  {
    forall x | x in UnclearedAt(cands)
      ensures x in kept
    {
      var c :| c in cands && !c.cleared && c.index == x;
      var i :| 0 <= i < |cands| && cands[i] == c;
    }
  }

  lemma {:induction false} ScannedWithin(cands: seq<Candidate>, n: nat, kept: set<nat>, seen: set<string>, o: Options)
    requires n <= |cands| && Scanned(cands, n, kept, seen, o)
    ensures kept <= UnclearedAt(cands)
  {
    forall x | x in kept
      ensures x in UnclearedAt(cands)
    {
      var i :| 0 <= i < |cands| && !cands[i].cleared && cands[i].index == x;
      assert cands[i] in cands;
    }
  }

  lemma {:induction false} FullSubset(a: set<nat>, b: set<nat>)
    requires a <= b && |b| <= |a|
    ensures a == b
  {
    assert |b - a| == |b| - |a|;
  }

  lemma {:induction false} ProtectsAll(cands: seq<Candidate>, o: Options)
    requires Ordered(cands) && Settled(cands, o)
    ensures forall c | c in cands :: !Stale(c, Protect(cands, o.keep, o.preferOriginal, o.dropNovel))
  {
    var kept := Protect(cands, o.keep, o.preferOriginal, o.dropNovel);
    var k := FirstOriginal(cands);
    if o.preferOriginal && o.keep > 1 && k < |cands| {
      ProtectBackAll(cands, |cands|, {cands[k].index}, {cands[k].key}, o);
    } else {
      ProtectBackAll(cands, |cands|, {}, {}, o);
    }
    forall c | c in cands && !c.cleared
      ensures c.index in kept
    {
      assert c.index in UnclearedAt(cands);
    }
  }

  // ---- Survivors are settled --------------------------------------------------------------------

  lemma {:induction false} SurvivorsLast(cands: seq<Candidate>, kept: set<nat>, collapse: set<string>, note: string)
    requires cands != []
    ensures Survivors(cands, kept, collapse, note) ==
            Survivors(Init(cands), kept, collapse, note) +
            (if Last(cands).callId in collapse then [] else [Mark(Last(cands), kept, note)])
  {
  }

  /** The uncleared survivors are kept results: none is an unwanted work package and no two share a key. */
  lemma {:induction false} SurvivorsDistinct(cands: seq<Candidate>, kept: set<nat>, collapse: set<string>, note: string, novel: bool)
    requires Distinguished(cands, kept, novel)
    ensures
      var s := Survivors(cands, kept, collapse, note);
      && (forall i | 0 <= i < |s| && !s[i].cleared :: s[i].tool == NOVEL_CONTEXT ==> novel)
      && (forall i, j | 0 <= i < j < |s| && !s[i].cleared && !s[j].cleared :: s[i].key != s[j].key)
    decreases |cands|
  {
    if cands != [] {
      var init, c := Init(cands), Last(cands);
      assert forall i | 0 <= i < |init| :: init[i] == cands[i];
      SurvivorsDistinct(init, kept, collapse, note, novel);
      SurvivorsLast(cands, kept, collapse, note);
      var t := Survivors(init, kept, collapse, note);
      forall i | 0 <= i < |t| && !t[i].cleared && c.index in kept
        ensures t[i].key != c.key
      {
        assert t[i] in t;
        var d :| d in init && d.callId !in collapse && t[i] == Mark(d, kept, note);
        var k :| 0 <= k < |init| && init[k] == d;
        assert cands[|cands| - 1] == c && cands[k].index in kept;
      }
    }
  }

  ghost function KeptAmong(cands: seq<Candidate>, kept: set<nat>): (r: set<nat>)
    ensures r <= kept
  {
    set c | c in cands && c.index in kept :: c.index
  }

  lemma {:induction false} SurvivorsCount(cands: seq<Candidate>, kept: set<nat>, collapse: set<string>, note: string)
    requires Ordered(cands)
    ensures Uncleared(Survivors(cands, kept, collapse, note)) <= |KeptAmong(cands, kept)|
  {
    if cands != [] {
      var init, c := Init(cands), Last(cands);
      assert cands == init + [c];
      SurvivorsCount(init, kept, collapse, note);
      SurvivorsLast(cands, kept, collapse, note);
      var t := Survivors(init, kept, collapse, note);
      KeptAmongLast(init, c, kept);
      if c.callId in collapse {
        assert t + [] == t;
      } else {
        UnclearedStep(t, Mark(c, kept, note));
      }
    }
  }

  lemma {:induction false} UnclearedStep(cands: seq<Candidate>, c: Candidate)
    ensures Uncleared(cands + [c]) == Uncleared(cands) + (if c.cleared then 0 else 1)
  {
    assert Init(cands + [c]) == cands;
  }

  lemma {:induction false} KeptAmongLast(init: seq<Candidate>, c: Candidate, kept: set<nat>)
    requires Ordered(init + [c])
    ensures |KeptAmong(init + [c], kept)| == |KeptAmong(init, kept)| + (if c.index in kept then 1 else 0)
  {
    var cands := init + [c];
    assert cands[|init|] == c;
    forall d | d in init
      ensures d.index < c.index
    {
      var i :| 0 <= i < |init| && init[i] == d;
      assert cands[i] == d;
    }
    assert KeptAmong(cands, kept) == KeptAmong(init, kept) + (if c.index in kept then {c.index} else {});
  }

  lemma {:induction false} AnonUncleared(cands: seq<Candidate>)
    ensures Uncleared(AnonAll(cands)) == Uncleared(cands)
  {
    if cands != [] {
      AnonUncleared(Init(cands));
      assert AnonAll(cands) == AnonAll(Init(cands)) + [Anon(Last(cands))];
      assert Init(AnonAll(cands)) == AnonAll(Init(cands));
    }
  }

  /** After a pass at most `keep` collected results are uncleared, they differ pairwise in their key, and
      none of them is a work package when work packages are dropped. */
  lemma {:induction false} PassSettles(view: seq<Item>, o: Options)
    ensures Settled(Collect(Rewrite(view, o)), o)
  {
    var cands, kept := Collect(view), KeptBy(view, o);
    var plan := PlanFor(view, o);
    CollectIndices(view);
    ProtectFacts(cands, o);
    SurvivorsDistinct(cands, kept, plan.collapse, o.note, NovelAllowed(o));
    SurvivorsCount(cands, kept, plan.collapse, o.note);
    CollectPass(view, kept, plan, o.note);
    var s, after := Survivors(cands, kept, plan.collapse, o.note), Collect(Rewrite(view, o));
    AnonUncleared(after);
    SubsetSize(KeptAmong(cands, kept), kept);
    forall i | 0 <= i < |after|
      ensures s[i] == Anon(after[i])
    {
    }
  }

  lemma {:induction false} SubsetSize(a: set<nat>, b: set<nat>)
    requires a <= b
    ensures |a| <= |b|
  {
    assert |b - a| == |b| - |a|;
  }

  // ---- The second pass --------------------------------------------------------------------------

  lemma {:induction false} NextPlan(view: seq<Item>, o: Options)
    ensures
      var plan, next := PlanFor(view, o), PlanFor(Rewrite(view, o), o);
      next.collapse == {} && next.completed == plan.completed - plan.collapse && next.compact <= next.completed
    ensures forall c | c in Collect(Rewrite(view, o)) :: !Stale(c, KeptBy(Rewrite(view, o), o))
  {
    hide Collect, Rewrite, Settled, Protect, Receipts;
    var cands, kept, plan := Collect(view), KeptBy(view, o), PlanFor(view, o);
    var after := Collect(Rewrite(view, o));
    PassSettles(view, o);
    CollectIndices(Rewrite(view, o));
    ProtectsAll(after, o);
    assert AnonAll(after) == Survivors(cands, kept, plan.collapse, o.note) by {
      RewriteIs(view, o);
      CollectPass(view, kept, plan, o.note);
    }
    SurvivorIds(cands, kept, o.dropNovel, o.note);
    SameIds(after, Survivors(cands, kept, plan.collapse, o.note));
    NoWriteLeft(cands, kept, o.note, after);
  }

  lemma {:induction false} RewriteIs(view: seq<Item>, o: Options)
    ensures Rewrite(view, o) == History(Clear(view, KeptBy(view, o), o.note), PlanFor(view, o), o.note)
  {
  }

  lemma {:induction false} SurvivorIds(cands: seq<Candidate>, kept: set<nat>, drop: bool, note: string)
    ensures CompletedIds(Survivors(cands, kept, CollapseIds(cands), note)) == CompletedIds(cands) - CollapseIds(cands)
  {
    hide CollapseIds;
    var gone := CollapseIds(cands);
    var s := Survivors(cands, kept, gone, note);
    forall id
      ensures id in CompletedIds(s) <==> id in CompletedIds(cands) - gone
    {
      if id in CompletedIds(cands) - gone {
        var c :| c in cands && c.callId == id;
        assert Mark(c, kept, note) in s;
      }
    }
  }

  /** No uncleared write result is left to remove. */
  lemma {:induction false} NoWriteLeft(cands: seq<Candidate>, kept: set<nat>, note: string, after: seq<Candidate>)
    requires AnonAll(after) == Survivors(cands, kept, CollapseIds(cands), note)
    ensures CollapseIds(after) == {}
  {
    var s := Survivors(cands, kept, CollapseIds(cands), note);
    SameIds(after, s);
    forall c | c in after && !c.cleared
      ensures !IsWriteTool(c.tool)
    {
      assert Anon(c) in s;
      var d :| d in cands && d.callId !in CollapseIds(cands) && Anon(c) == Mark(d, kept, note);
    }
  }

  lemma {:induction false} SameIds(after: seq<Candidate>, s: seq<Candidate>)
    requires AnonAll(after) == s
    ensures CompletedIds(after) == CompletedIds(s)
    ensures forall c | c in after :: Anon(c) in s
  {
    forall c | c in after
      ensures Anon(c) in s
    {
      var i :| 0 <= i < |after| && after[i] == c;
      assert s[i] == Anon(c);
    }
    forall d | d in s
      ensures d.callId in CompletedIds(after)
    {
      var i :| 0 <= i < |s| && s[i] == d;
      assert after[i] in after;
    }
  }

  /** The message announcing the newest write call also announces a call that stays, and all its calls
      have results: the one situation in which the next pass strips the receipt. */
  predicate ExposesReceipt(content: seq<Block>, plan: Plan) {
    && Completed(content, plan)
    && ReceiptBlocks(content, plan) != []
    && !AllIn(CallsOf(content), plan.collapse)
  }

  lemma {:induction false} WithoutNone(calls: seq<Call>, ids: set<string>)
    ensures Without(calls, ids) == [] <==> AllIn(calls, ids)
  {
    if Without(calls, ids) == [] {
      forall i | 0 <= i < |calls|
        ensures calls[i].id in ids
      {
        WithoutMember(calls, ids, calls[i]);
      }
    } else {
      var c := Without(calls, ids)[0];
      WithoutMember(calls, ids, c);
      var i :| 0 <= i < |calls| && calls[i] == c;
    }
  }

  lemma {:induction false} WithoutAll(calls: seq<Call>, ids: set<string>, done: set<string>)
    requires ids <= done
    ensures AllIn(Without(calls, ids), done - ids) <==> AllIn(calls, done)
  {
    var rest := Without(calls, ids);
    if AllIn(rest, done - ids) {
      forall i | 0 <= i < |calls|
        ensures calls[i].id in done
      {
        WithoutMember(calls, ids, calls[i]);
        if calls[i].id !in ids {
          var k :| 0 <= k < |rest| && rest[k] == calls[i];
        }
      }
    }
    if AllIn(calls, done) {
      forall i | 0 <= i < |rest|
        ensures rest[i].id in done - ids
      {
        WithoutMember(calls, ids, rest[i]);
        var k :| 0 <= k < |calls| && calls[k] == rest[i];
      }
    }
  }

  predicate Narrative(b: Block) {
    b.TextBlock? || b.ThinkingBlock?
  }

  /** With nothing left to remove, a pass drops exactly the narrative of completed messages. */
  lemma {:induction false} DropsNarrative(content: seq<Block>, plan: Plan)
    requires plan.collapse == {} && plan.compact <= plan.completed
    ensures Drops(content, plan) <==> Completed(content, plan) && exists b :: b in content && Narrative(b)
  {
    if Completed(content, plan) {
      if b :| b in content && Narrative(b) {
        var i :| 0 <= i < |content| && content[i] == b;
        assert Dropped(content[i], plan, true);
      }
      if i :| 0 <= i < |content| && Dropped(content[i], plan, true) {
        assert Narrative(content[i]);
      }
    }
  }

  lemma {:induction false} CollapseDone(cands: seq<Candidate>, kept: set<nat>, drop: bool)
    ensures
      var plan := PlanOf(cands, kept, drop);
      plan.collapse <= plan.compact <= plan.completed
  {
  }

  /** One message of the output, seen by the next pass. */
  lemma {:induction false} NextTouch(item: Item, plan: Plan, next: Plan, note: string)
    requires item.Is(Assistant)
    requires plan.collapse <= plan.compact <= plan.completed
    requires next.collapse == {} && next.completed == plan.completed - plan.collapse && next.compact <= next.completed
    ensures Touches(HistoryItem(item, plan, note)[0], next) <==> ExposesReceipt(item.content, plan)
  {
    var content, x := item.content, HistoryItem(item, plan, note)[0];
    var calls := CallsOf(content);
    AssistantItem(item, plan, note);
    WithoutNone(calls, plan.collapse);
    WithoutAll(calls, plan.collapse, plan.completed);
    DropsNarrative(x.content, next);
    if Completed(content, plan) && !AllIn(calls, plan.collapse) {
      assert Completed(x.content, next);
      if Drops(content, plan) {
        FilteredMembers(content, plan, true);
        ReceiptsAreText(content, plan);
        assert x.content == Filtered(content, plan, true) + ReceiptBlocks(content, plan) by {
          RewrittenCalls(content, plan, note);
          OneBlock([TextBlock(note)]);
        }
        if ReceiptBlocks(content, plan) != [] {
          assert ReceiptBlocks(content, plan)[0] in x.content;
        }
      } else {
        UntouchedCalls(content, plan);
        ReceiptsNeedCollapse(content, plan);
      }
    }
  }

  lemma {:induction false} HistoryMembers(msgs: seq<Item>, plan: Plan, note: string, x: Item)
    ensures x in History(msgs, plan, note) <==> exists i | 0 <= i < |msgs| :: x in HistoryItem(msgs[i], plan, note)
  {
    if msgs != [] {
      HistoryMembers(Init(msgs), plan, note, x);
      if i :| 0 <= i < |Init(msgs)| && x in HistoryItem(Init(msgs)[i], plan, note) {
        assert x in HistoryItem(msgs[i], plan, note);
      }
      if i :| 0 <= i < |msgs| && x in HistoryItem(msgs[i], plan, note) {
        if i < |msgs| - 1 {
          assert x in HistoryItem(Init(msgs)[i], plan, note);
        }
      }
    }
  }

  /** Clearing changes results only. */
  lemma {:induction false} ClearAt(msgs: seq<Item>, kept: set<nat>, note: string, i: nat)
    requires i < |msgs|
    ensures if msgs[i].Is(Tool) then Clear(msgs, kept, note)[i].Is(Tool) && Clear(msgs, kept, note)[i].meta.callId == msgs[i].meta.callId
            else Clear(msgs, kept, note)[i] == msgs[i]
  {
    if i < |msgs| - 1 {
      ClearAt(Init(msgs), kept, note, i);
    }
  }

  predicate Exposed(view: seq<Item>, o: Options) {
    exists i | 0 <= i < |view| :: view[i].Is(Assistant) && ExposesReceipt(view[i].content, PlanFor(view, o))
  }

  /** Every assistant message of the output is the image of one of the input, and conversely. */
  lemma {:induction false} OutputOrigin(view: seq<Item>, o: Options, x: Item) returns (i: nat)
    requires x in Rewrite(view, o) && x.Is(Assistant)
    ensures i < |view| && view[i].Is(Assistant) && HistoryItem(view[i], PlanFor(view, o), o.note) == [x]
  {
    hide Clear, History, KeptBy, PlanFor, HistoryItem;
    var kept, plan := KeptBy(view, o), PlanFor(view, o);
    var mid := Clear(view, kept, o.note);
    HistoryMembers(mid, plan, o.note, x);
    i :| 0 <= i < |mid| && x in HistoryItem(mid[i], plan, o.note);
    ClearAt(view, kept, o.note, i);
    RoleKept(mid[i], plan, o.note, x);
    AssistantItem(view[i], plan, o.note);
  }

  lemma {:induction false} RoleKept(item: Item, plan: Plan, note: string, x: Item)
    requires x in HistoryItem(item, plan, note)
    ensures x.Message? <==> item.Message?
    ensures x.Message? ==> x.role == item.role
  {
    hide Drops, Rewritten;
  }

  lemma {:induction false} OutputImage(view: seq<Item>, o: Options, i: nat)
    requires i < |view| && view[i].Is(Assistant)
    ensures |HistoryItem(view[i], PlanFor(view, o), o.note)| == 1
    ensures HistoryItem(view[i], PlanFor(view, o), o.note)[0] in Rewrite(view, o)
  {
    hide Clear, History, KeptBy, PlanFor, HistoryItem;
    var kept, plan := KeptBy(view, o), PlanFor(view, o);
    var mid := Clear(view, kept, o.note);
    ClearAt(view, kept, o.note, i);
    AssistantItem(view[i], plan, o.note);
    var x := HistoryItem(view[i], plan, o.note)[0];
    assert x in HistoryItem(mid[i], plan, o.note);
    HistoryMembers(mid, plan, o.note, x);
  }

  lemma {:induction false} NextTouchesBack(view: seq<Item>, o: Options, x: Item)
    requires x in Rewrite(view, o) && Touches(x, PlanFor(Rewrite(view, o), o))
    ensures Exposed(view, o)
  {
    NextPlan(view, o);
    var i := OutputOrigin(view, o, x);
    CollapseDone(Collect(view), KeptBy(view, o), o.dropNovel);
    NextTouch(view[i], PlanFor(view, o), PlanFor(Rewrite(view, o), o), o.note);
  }

  lemma {:induction false} NextTouchesForth(view: seq<Item>, o: Options) returns (x: Item)
    requires Exposed(view, o)
    ensures x in Rewrite(view, o) && Touches(x, PlanFor(Rewrite(view, o), o))
  {
    NextPlan(view, o);
    var i :| 0 <= i < |view| && view[i].Is(Assistant) && ExposesReceipt(view[i].content, PlanFor(view, o));
    OutputImage(view, o, i);
    CollapseDone(Collect(view), KeptBy(view, o), o.dropNovel);
    NextTouch(view[i], PlanFor(view, o), PlanFor(Rewrite(view, o), o), o.note);
    x := HistoryItem(view[i], PlanFor(view, o), o.note)[0];
  }

  lemma {:induction false} NextTouches(view: seq<Item>, o: Options)
    ensures Touched(Rewrite(view, o), PlanFor(Rewrite(view, o), o)) <==> Exposed(view, o)
  {
    hide Rewrite, PlanFor, Exposed, Touches;
    var out, next := Rewrite(view, o), PlanFor(Rewrite(view, o), o);
    if j :| 0 <= j < |out| && Touches(out[j], next) {
      NextTouchesBack(view, o, out[j]);
    }
    if Exposed(view, o) {
      var x := NextTouchesForth(view, o);
      var j :| 0 <= j < |out| && out[j] == x;
    }
  }

  lemma {:induction false} ExposureApplies(view: seq<Item>, o: Options)
    requires Exposed(view, o)
    ensures Applies(view, o)
  {
    var plan := PlanFor(view, o);
    var i :| 0 <= i < |view| && view[i].Is(Assistant) && ExposesReceipt(view[i].content, plan);
    ReceiptsNeedCollapse(view[i].content, plan);
    if !Drops(view[i].content, plan) {
      UntouchedCalls(view[i].content, plan);
      assert false;
    }
    assert Touches(view[i], plan);
  }

  /** Compaction is idempotent exactly when the newest write call is not announced, in a message whose
      calls all have results, next to a call that stays. */
  lemma {:induction false} SecondPass(view: seq<Item>, o: Options)
    ensures Applies(Compacted(view, o), o) <==> Exposed(view, o)
    ensures !Exposed(view, o) ==> Compacted(Compacted(view, o), o) == Compacted(view, o)
  {
    if Applies(view, o) {
      NextPlan(view, o);
      NextTouches(view, o);
    } else if Exposed(view, o) {
      ExposureApplies(view, o);
    }
  }
}
