/** What one compaction pass does to calls, results and candidates. */
module WriterPass {
  import opened Sequences
  import opened Text
  import opened WriterHistory

  // ---- Calls of one message ---------------------------------------------------------------------

  function Without(calls: seq<Call>, ids: set<string>): seq<Call> {
    if calls == [] then [] else
      Without(Init(calls), ids) + (if Last(calls).id in ids then [] else [Last(calls)])
  }

  lemma {:induction false} WithoutMember(calls: seq<Call>, ids: set<string>, c: Call)
    ensures c in Without(calls, ids) <==> c in calls && c.id !in ids
  {
    if calls != [] {
      WithoutMember(Init(calls), ids, c);
      assert calls == Init(calls) + [Last(calls)];
    }
  }

  lemma {:induction false} CallsOfAppend(a: seq<Block>, b: seq<Block>)
    ensures CallsOf(a + b) == CallsOf(a) + CallsOf(b)
  {
    if b == [] {
      assert a + b == a;
    } else {
      assert Init(a + b) == a + Init(b);
      CallsOfAppend(a, Init(b));
    }
  }

  lemma {:induction false} WithoutAppend(a: seq<Call>, b: seq<Call>, ids: set<string>)
    ensures Without(a + b, ids) == Without(a, ids) + Without(b, ids)
  {
    if b == [] {
      assert a + b == a;
    } else {
      assert Init(a + b) == a + Init(b) && Last(a + b) == Last(b);
      WithoutAppend(a, Init(b), ids);
      assert Without(b, ids) == Without(Init(b), ids) + (if Last(b).id in ids then [] else [Last(b)]);
    }
  }

  lemma {:induction false} CallsInBlocks(content: seq<Block>, call: Call)
    ensures call in CallsOf(content) <==> CallBlock(call) in content
  {
    if content != [] {
      CallsInBlocks(Init(content), call);
      assert content == Init(content) + [Last(content)];
    }
  }

  lemma {:induction false} FilteredMembers(content: seq<Block>, plan: Plan, all: bool)
    ensures forall b :: b in Filtered(content, plan, all) <==> b in content && !Dropped(b, plan, all)
  {
    if content != [] {
      FilteredMembers(Init(content), plan, all);
      assert content == Init(content) + [Last(content)];
    }
  }

  lemma {:induction false} FilteredCalls(content: seq<Block>, plan: Plan, all: bool)
    ensures CallsOf(Filtered(content, plan, all)) == Without(CallsOf(content), plan.collapse)
  {
    if content != [] {
      FilteredCalls(Init(content), plan, all);
      var last := if Dropped(Last(content), plan, all) then [] else [Last(content)];
      CallsOfAppend(Filtered(Init(content), plan, all), last);
      var own := if Last(content).CallBlock? then [Last(content).call] else [];
      WithoutAppend(CallsOf(Init(content)), own, plan.collapse);
      OneCall(own, plan.collapse);
      OneBlock(last);
    }
  }

  lemma {:induction false} OneCall(calls: seq<Call>, ids: set<string>)
    requires |calls| <= 1
    ensures Without(calls, ids) == if calls == [] || calls[0].id in ids then [] else calls
  {
    if calls != [] {
      assert Init(calls) == [];
    }
  }

  lemma {:induction false} OneBlock(content: seq<Block>)
    requires |content| <= 1
    ensures CallsOf(content) == if content == [] || !content[0].CallBlock? then [] else [content[0].call]
    ensures TextOf(content) == if content == [] || !content[0].TextBlock? then "" else content[0].text
  {
    if content != [] {
      assert Init(content) == [];
    }
  }

  lemma {:induction false} ReceiptsAreText(content: seq<Block>, plan: Plan)
    ensures CallsOf(ReceiptBlocks(content, plan)) == []
    ensures forall b :: b in ReceiptBlocks(content, plan) ==> b.TextBlock?
  {
    if content != [] {
      ReceiptsAreText(Init(content), plan);
      var b := Last(content);
      var last := if b.CallBlock? && b.call.id in plan.collapse && b.call.id in plan.receipts && plan.receipts[b.call.id] != ""
        then [TextBlock(plan.receipts[b.call.id])] else [];
      CallsOfAppend(ReceiptBlocks(Init(content), plan), last);
      OneBlock(last);
    }
  }

  lemma {:induction false} ReceiptMembers(content: seq<Block>, plan: Plan, call: Call)
    requires CallBlock(call) in content && call.id in plan.collapse
    requires call.id in plan.receipts && plan.receipts[call.id] != ""
    ensures TextBlock(plan.receipts[call.id]) in ReceiptBlocks(content, plan)
  {
    if Last(content) != CallBlock(call) {
      assert content == Init(content) + [Last(content)];
      ReceiptMembers(Init(content), plan, call);
    }
  }

  lemma {:induction false} ReceiptsNeedCollapse(content: seq<Block>, plan: Plan)
    ensures ReceiptBlocks(content, plan) != [] ==> SomeIn(CallsOf(content), plan.collapse)
  {
    if content != [] {
      ReceiptsNeedCollapse(Init(content), plan);
      var calls, init := CallsOf(content), CallsOf(Init(content));
      if SomeIn(init, plan.collapse) {
        var i :| 0 <= i < |init| && init[i].id in plan.collapse;
        assert calls[i] == init[i];
      } else if ReceiptBlocks(content, plan) != [] {
        assert calls[|calls| - 1].id in plan.collapse;
      }
    }
  }

  /** An untouched message holds no removed call; a touched one drops something. */
  lemma {:induction false} UntouchedCalls(content: seq<Block>, plan: Plan)
    requires !Drops(content, plan)
    ensures Without(CallsOf(content), plan.collapse) == CallsOf(content)
    ensures !SomeIn(CallsOf(content), plan.collapse)
    ensures Rewrites(content, plan) && Completed(content, plan) ==>
              forall b :: b in content ==> !b.TextBlock? && !b.ThinkingBlock?
  {
    var calls := CallsOf(content);
    if SomeIn(calls, plan.collapse) {
      var i :| 0 <= i < |calls| && calls[i].id in plan.collapse;
      CallsInBlocks(content, calls[i]);
      assert false;
    }
    NothingRemoved(calls, plan.collapse);
  }

  lemma {:induction false} NothingRemoved(calls: seq<Call>, ids: set<string>)
    requires !SomeIn(calls, ids)
    ensures Without(calls, ids) == calls
  {
    if calls != [] {
      assert forall i | 0 <= i < |calls| - 1 :: Init(calls)[i] == calls[i];
      assert Last(calls).id !in ids by { assert Last(calls) == calls[|calls| - 1]; }
      assert Without(calls, ids) == Without(Init(calls), ids) + [Last(calls)];
      Split(calls);
      hide *;
      NothingRemoved(Init(calls), ids);
    }
  }

  lemma {:induction false} RewrittenCalls(content: seq<Block>, plan: Plan, note: string)
    ensures CallsOf(Rewritten(content, plan, note)) == Without(CallsOf(content), plan.collapse)
  {
    var all := Completed(content, plan);
    FilteredCalls(content, plan, all);
    ReceiptsAreText(content, plan);
    CallsOfAppend(Filtered(content, plan, all), ReceiptBlocks(content, plan));
    OneBlock([TextBlock(note)]);
  }

  /** An assistant message always survives the pass, with exactly its calls outside `collapse`. */
  lemma {:induction false} AssistantItem(item: Item, plan: Plan, note: string)
    requires item.Is(Assistant)
    ensures |HistoryItem(item, plan, note)| == 1
    ensures HistoryItem(item, plan, note)[0].Is(Assistant)
    ensures CallsOf(HistoryItem(item, plan, note)[0].content) == Without(CallsOf(item.content), plan.collapse)
  {
    if Drops(item.content, plan) {
      RewrittenCalls(item.content, plan, note);
    } else {
      UntouchedCalls(item.content, plan);
    }
  }

  // ---- Pending calls ----------------------------------------------------------------------------

  lemma {:induction false} RegisterAppend(open: map<string, Open>, a: seq<Call>, b: seq<Call>)
    ensures Register(open, a + b) == Register(Register(open, a), b)
  {
    if b == [] {
      assert a + b == a;
    } else {
      assert Init(a + b) == a + Init(b);
      RegisterAppend(open, a, Init(b));
    }
  }

  lemma {:induction false} RegisterWithout(open: map<string, Open>, calls: seq<Call>, ids: set<string>)
    ensures Register(open - ids, Without(calls, ids)) == Register(open, calls) - ids
  {
    if calls != [] {
      RegisterWithout(open, Init(calls), ids);
      if Last(calls).id !in ids {
        var kept := Without(Init(calls), ids) + [Last(calls)];
        assert Init(kept) == Without(Init(calls), ids);
        assert Without(calls, ids) == kept;
      } else {
        assert Without(calls, ids) == Without(Init(calls), ids);
      }
      var all := Register(open, Init(calls));
      assert Register(open, calls) - ids ==
             if Last(calls).id in ids then all - ids
             else (all - ids)[Last(calls).id := Open(Last(calls).name, ResultKey(Last(calls)))];
    }
  }

  lemma {:induction false} PendingStep(msgs: seq<Item>, item: Item)
    ensures Pending(msgs + [item]) ==
            if item.Is(Assistant) then Register(Pending(msgs), CallsOf(item.content)) else Pending(msgs)
    ensures Collect(msgs + [item]) ==
            Collect(msgs) + (match CandidateOf(item, |msgs|, Pending(msgs)) case Some(c) => [c] case None => [])
  {
    assert Init(msgs + [item]) == msgs;
  }

  lemma {:induction false} PendingClear(msgs: seq<Item>, kept: set<nat>, note: string)
    ensures Pending(Clear(msgs, kept, note)) == Pending(msgs)
  {
    if msgs != [] {
      PendingClear(Init(msgs), kept, note);
      PendingStep(Clear(Init(msgs), kept, note), Last(Clear(msgs, kept, note)));
    }
  }

  lemma {:induction false} HistoryStep(msgs: seq<Item>, item: Item, plan: Plan, note: string)
    ensures History(msgs + [item], plan, note) == History(msgs, plan, note) + HistoryItem(item, plan, note)
  {
    assert Init(msgs + [item]) == msgs;
  }

  lemma {:induction false} RewriteStep(init: seq<Item>, item: Item, kept: set<nat>, plan: Plan, note: string)
    ensures History(Clear(init + [item], kept, note), plan, note) ==
            History(Clear(init, kept, note), plan, note) +
            HistoryItem(ClearItem(item, CandidateOf(item, |init|, Pending(init)), kept, note), plan, note)
  {
    assert Init(init + [item]) == init;
    var cleared := ClearItem(item, CandidateOf(item, |init|, Pending(init)), kept, note);
    assert Clear(init + [item], kept, note) == Clear(init, kept, note) + [cleared];
    HistoryStep(Clear(init, kept, note), cleared, plan, note);
  }

  /** After the pass exactly the removed call IDs are no longer announced. */
  lemma {:induction false} PendingHistory(msgs: seq<Item>, plan: Plan, note: string)
    ensures Pending(History(msgs, plan, note)) == Pending(msgs) - plan.collapse
  {
    if msgs != [] {
      PendingHistory(Init(msgs), plan, note);
      var item, before := Last(msgs), History(Init(msgs), plan, note);
      if item.Is(Assistant) {
        AssistantItem(item, plan, note);
        var x := HistoryItem(item, plan, note)[0];
        assert HistoryItem(item, plan, note) == [x];
        PendingStep(before, x);
        RegisterWithout(Pending(Init(msgs)), CallsOf(item.content), plan.collapse);
      } else if HistoryItem(item, plan, note) == [item] {
        PendingStep(before, item);
      } else {
        assert History(msgs, plan, note) == before;
      }
    }
  }

  // ---- Candidates -------------------------------------------------------------------------------

  function Anon(c: Candidate): Candidate {
    c.(index := 0)
  }

  function AnonAll(cands: seq<Candidate>): (r: seq<Candidate>)
    ensures |r| == |cands| && forall i | 0 <= i < |r| :: r[i] == Anon(cands[i])
  {
    seq(|cands|, i requires 0 <= i < |cands| => Anon(cands[i]))
  }

  /** A surviving candidate as the next pass sees it. */
  function Mark(c: Candidate, kept: set<nat>, note: string): Candidate {
    if Stale(c, kept) then
      Anon(c).(cleared := true, text := Trim(note),
               fingerprint := if c.isError then Trim(Fingerprint(c.tool, c.text)) else c.fingerprint)
    else Anon(c)
  }

  function Survivors(cands: seq<Candidate>, kept: set<nat>, collapse: set<string>, note: string): (r: seq<Candidate>)
    ensures forall x :: x in r <==> exists c :: c in cands && c.callId !in collapse && x == Mark(c, kept, note)
  {
    if cands == [] then [] else
      assert cands == Init(cands) + [Last(cands)];
      Survivors(Init(cands), kept, collapse, note) +
      (if Last(cands).callId in collapse then [] else [Mark(Last(cands), kept, note)])
  }

  lemma {:induction false} SurvivorsStep(cands: seq<Candidate>, c: Candidate, kept: set<nat>, collapse: set<string>, note: string)
    ensures Survivors(cands + [c], kept, collapse, note) ==
            Survivors(cands, kept, collapse, note) + (if c.callId in collapse then [] else [Mark(c, kept, note)])
  {
    assert Init(cands + [c]) == cands;
  }

  /** One result message: its candidate before and after clearing, once the removed calls are forgotten. */
  lemma {:induction false} ClearedCandidate(
      item: Item, index: nat, at: nat, open: map<string, Open>, kept: set<nat>, collapse: set<string>, note: string)
    ensures
      var c := CandidateOf(item, index, open);
      var after := CandidateOf(ClearItem(item, c, kept, note), at, open - collapse);
      if c.Some? && c.value.callId !in collapse then after.Some? && Anon(after.value) == Mark(c.value, kept, note)
      else after.None?
  {
    OneBlock([TextBlock(note)]);
  }

  lemma {:induction false} AnonStep(cands: seq<Candidate>, c: Candidate)
    ensures AnonAll(cands + [c]) == AnonAll(cands) + [Anon(c)]
  {
  }

  /** The results the next pass collects are this pass's results outside the removed write exchanges,
      with the stale ones marked. */
  lemma {:induction false} CollectPass(view: seq<Item>, kept: set<nat>, plan: Plan, note: string)
    ensures AnonAll(Collect(History(Clear(view, kept, note), plan, note))) ==
            Survivors(Collect(view), kept, plan.collapse, note)
  {
    if view != [] {
      hide *;
      var init, item := Init(view), Last(view);
      Split(view);
      CollectPass(init, kept, plan, note);
      PendingClear(init, kept, note);
      PendingHistory(Clear(init, kept, note), plan, note);
      CollectPassStep(init, item, History(Clear(init, kept, note), plan, note), kept, plan, note);
      RewriteStep(init, item, kept, plan, note);
    }
  }

  lemma {:induction false} CollectPassStep(
      init: seq<Item>, item: Item, before: seq<Item>, kept: set<nat>, plan: Plan, note: string)
    requires Pending(before) == Pending(init) - plan.collapse
    requires AnonAll(Collect(before)) == Survivors(Collect(init), kept, plan.collapse, note)
    ensures
      var cleared := ClearItem(item, CandidateOf(item, |init|, Pending(init)), kept, note);
      AnonAll(Collect(before + HistoryItem(cleared, plan, note))) ==
      Survivors(Collect(init + [item]), kept, plan.collapse, note)
  {
    if item.Is(Tool) {
      ResultPassStep(init, item, before, kept, plan, note);
    } else {
      PendingStep(init, item);
      assert Collect(init + [item]) == Collect(init);
      if item.Is(Assistant) {
        AssistantItem(item, plan, note);
      }
      var x := HistoryItem(item, plan, note)[0];
      assert HistoryItem(item, plan, note) == [x];
      PendingStep(before, x);
      assert Collect(before + [x]) == Collect(before);
    }
  }

  lemma {:induction false} ResultPassStep(
      init: seq<Item>, item: Item, before: seq<Item>, kept: set<nat>, plan: Plan, note: string)
    requires item.Is(Tool)
    requires Pending(before) == Pending(init) - plan.collapse
    requires AnonAll(Collect(before)) == Survivors(Collect(init), kept, plan.collapse, note)
    ensures
      var cleared := ClearItem(item, CandidateOf(item, |init|, Pending(init)), kept, note);
      AnonAll(Collect(before + HistoryItem(cleared, plan, note))) ==
      Survivors(Collect(init + [item]), kept, plan.collapse, note)
  {
    hide ResultKey, Fingerprint, Trim, TextOf, Drops, Survivors, Pending, Collect, Mark;
    var c := CandidateOf(item, |init|, Pending(init));
    var cleared := ClearItem(item, c, kept, note);
    PendingStep(init, item);
    if c.Some? {
      SurvivorsStep(Collect(init), c.value, kept, plan.collapse, note);
    } else {
      assert Collect(init + [item]) == Collect(init);
    }
    if item.meta.callId in plan.collapse {
      assert before + HistoryItem(cleared, plan, note) == before;
    } else {
      PendingStep(before, cleared);
      ClearedCandidate(item, |init|, |before|, Pending(init), kept, plan.collapse, note);
      var after := CandidateOf(cleared, |before|, Pending(before));
      if after.Some? {
        AnonStep(Collect(before), after.value);
      } else {
        assert Collect(before + [cleared]) == Collect(before);
      }
    }
  }

  lemma {:induction false} CollectIndices(view: seq<Item>)
    ensures forall i | 0 <= i < |Collect(view)| :: Collect(view)[i].index < |view|
    ensures forall i, j | 0 <= i < j < |Collect(view)| :: Collect(view)[i].index < Collect(view)[j].index
    ensures forall i | 0 <= i < |Collect(view)| ::
              Collect(view)[i].tool == NOVEL_CONTEXT ==> Collect(view)[i].key == NOVEL_CONTEXT
  {
    if view != [] {
      CollectIndices(Init(view));
      PendingNovel(Init(view));
    }
  }

  lemma {:induction false} PendingNovel(view: seq<Item>)
    ensures forall id | id in Pending(view) :: Pending(view)[id].tool == NOVEL_CONTEXT ==> Pending(view)[id].key == NOVEL_CONTEXT
  {
    if view != [] {
      PendingNovel(Init(view));
      if Last(view).Is(Assistant) {
        RegisterNovel(Pending(Init(view)), CallsOf(Last(view).content));
      }
    }
  }

  lemma {:induction false} RegisterNovel(open: map<string, Open>, calls: seq<Call>)
    requires forall id | id in open :: open[id].tool == NOVEL_CONTEXT ==> open[id].key == NOVEL_CONTEXT
    ensures forall id | id in Register(open, calls) ::
              Register(open, calls)[id].tool == NOVEL_CONTEXT ==> Register(open, calls)[id].key == NOVEL_CONTEXT
  {
    if calls != [] {
      RegisterNovel(open, Init(calls));
    }
  }
}
