/** Compaction keeps the history a well-formed tool protocol, and the newest write receipt outlives it. */
module WriterProtocol {
  import opened Sequences
  import opened Text
  import opened WriterHistory
  import opened WriterPass
  import opened WriterCompaction

  // ---- The protocol of a history ----------------------------------------------------------------

  /** All announced calls, in order. */
  function Calls(msgs: seq<Item>): seq<Call> {
    if msgs == [] then [] else
      Calls(Init(msgs)) + (if Last(msgs).Is(Assistant) then CallsOf(Last(msgs).content) else [])
  }

  /** The call IDs of all results, in order. */
  function Results(msgs: seq<Item>): seq<string> {
    if msgs == [] then [] else
      Results(Init(msgs)) + (if Last(msgs).Is(Tool) then [Last(msgs).meta.callId] else [])
  }

  /** Everything that is neither an assistant message nor a result, in order. */
  function Others(msgs: seq<Item>): seq<Item> {
    if msgs == [] then [] else
      Others(Init(msgs)) + (if Last(msgs).Is(Tool) || Last(msgs).Is(Assistant) then [] else [Last(msgs)])
  }

  function Outside(ids: seq<string>, removed: set<string>): seq<string> {
    if ids == [] then [] else
      Outside(Init(ids), removed) + (if Last(ids) in removed then [] else [Last(ids)])
  }

  /** Every result answers a call announced before it. */
  predicate Answered(msgs: seq<Item>) {
    msgs == [] ||
    (Answered(Init(msgs)) && (Last(msgs).Is(Tool) ==> Last(msgs).meta.callId in Pending(Init(msgs))))
  }

  predicate UniqueCalls(calls: seq<Call>) {
    forall i, j | 0 <= i < j < |calls| :: calls[i].id != calls[j].id
  }

  predicate WellFormed(msgs: seq<Item>) {
    Answered(msgs) && UniqueCalls(Calls(msgs))
  }

  // ---- What one pass preserves ------------------------------------------------------------------

  lemma {:induction false} ProtocolStep(msgs: seq<Item>, item: Item)
    ensures Calls(msgs + [item]) == Calls(msgs) + (if item.Is(Assistant) then CallsOf(item.content) else [])
    ensures Results(msgs + [item]) == Results(msgs) + (if item.Is(Tool) then [item.meta.callId] else [])
    ensures Others(msgs + [item]) == Others(msgs) + (if item.Is(Tool) || item.Is(Assistant) then [] else [item])
    ensures Answered(msgs + [item]) <==> Answered(msgs) && (item.Is(Tool) ==> item.meta.callId in Pending(msgs))
  {
    assert Init(msgs + [item]) == msgs;
  }

  lemma {:induction false} OutsideStep(ids: seq<string>, id: string, removed: set<string>)
    ensures Outside(ids + [id], removed) == Outside(ids, removed) + (if id in removed then [] else [id])
  {
    assert Init(ids + [id]) == ids;
  }

  /** The output mirrors the input outside the removed exchanges. */
  predicate Mirrors(view: seq<Item>, out: seq<Item>, gone: set<string>) {
    && Calls(out) == Without(Calls(view), gone)
    && Results(out) == Outside(Results(view), gone)
    && Others(out) == Others(view)
    && (Answered(view) ==> Answered(out))
  }

  lemma {:induction false} AssistantStep(init: seq<Item>, item: Item, before: seq<Item>, plan: Plan, note: string)
    requires item.Is(Assistant) && Mirrors(init, before, plan.collapse)
    ensures Mirrors(init + [item], before + HistoryItem(item, plan, note), plan.collapse)
  {
    AssistantItem(item, plan, note);
    var x := HistoryItem(item, plan, note)[0];
    assert HistoryItem(item, plan, note) == [x];
    ProtocolStep(init, item);
    ProtocolStep(before, x);
    WithoutAppend(Calls(init), CallsOf(item.content), plan.collapse);
    assert Results(init + [item]) == Results(init) && Others(init + [item]) == Others(init);
    assert Results(before + [x]) == Results(before) && Others(before + [x]) == Others(before);
  }

  lemma {:induction false} ResultStep(init: seq<Item>, item: Item, before: seq<Item>, cleared: Item, plan: Plan, note: string)
    requires item.Is(Tool) && cleared.Is(Tool) && cleared.meta.callId == item.meta.callId
    requires Mirrors(init, before, plan.collapse) && Pending(before) == Pending(init) - plan.collapse
    ensures Mirrors(init + [item], before + HistoryItem(cleared, plan, note), plan.collapse)
  {
    ProtocolStep(init, item);
    OutsideStep(Results(init), item.meta.callId, plan.collapse);
    assert Calls(init + [item]) == Calls(init) && Others(init + [item]) == Others(init);
    if item.meta.callId in plan.collapse {
      assert before + HistoryItem(cleared, plan, note) == before;
    } else {
      ProtocolStep(before, cleared);
      assert HistoryItem(cleared, plan, note) == [cleared];
      assert Calls(before + [cleared]) == Calls(before) && Others(before + [cleared]) == Others(before);
    }
  }

  lemma {:induction false} OtherStep(init: seq<Item>, item: Item, before: seq<Item>, gone: set<string>)
    requires !item.Is(Tool) && !item.Is(Assistant) && Mirrors(init, before, gone)
    ensures Mirrors(init + [item], before + [item], gone)
  {
    ProtocolStep(init, item);
    ProtocolStep(before, item);
    assert Calls(init + [item]) == Calls(init) && Results(init + [item]) == Results(init);
    assert Calls(before + [item]) == Calls(before) && Results(before + [item]) == Results(before);
  }

  /** Exactly the calls and the results of removed write exchanges disappear; the rest keeps its order,
      and everything that is neither a call nor a result is untouched. */
  lemma {:induction false} PassProtocol(view: seq<Item>, kept: set<nat>, plan: Plan, note: string)
    ensures Mirrors(view, History(Clear(view, kept, note), plan, note), plan.collapse)
  {
    if view != [] {
      hide *;
      Split(view);
      PassProtocol(Init(view), kept, plan, note);
      MirrorStep(Init(view), Last(view), kept, plan, note);
    }
  }

  lemma {:induction false} MirrorStep(init: seq<Item>, item: Item, kept: set<nat>, plan: Plan, note: string)
    requires Mirrors(init, History(Clear(init, kept, note), plan, note), plan.collapse)
    ensures Mirrors(init + [item], History(Clear(init + [item], kept, note), plan, note), plan.collapse)
  {
    hide Mirrors, Pending, Clear, History, Drops, Fingerprint, ResultKey, Trim, TextOf;
    var mid := Clear(init, kept, note);
    var before := History(mid, plan, note);
    PendingClear(init, kept, note);
    PendingHistory(mid, plan, note);
    var cleared := ClearItem(item, CandidateOf(item, |init|, Pending(init)), kept, note);
    RewriteStep(init, item, kept, plan, note);
    if item.Is(Assistant) {
      AssistantStep(init, item, before, plan, note);
    } else if item.Is(Tool) {
      ResultStep(init, item, before, cleared, plan, note);
    } else {
      OtherStep(init, item, before, plan.collapse);
    }
  }

  lemma {:induction false} WithoutUnique(calls: seq<Call>, ids: set<string>)
    requires UniqueCalls(calls)
    ensures UniqueCalls(Without(calls, ids))
    decreases |calls|
  {
    if calls != [] {
      assert forall i | 0 <= i < |Init(calls)| :: Init(calls)[i] == calls[i];
      WithoutUnique(Init(calls), ids);
      var rest := Without(Init(calls), ids);
      forall i | 0 <= i < |rest|
        ensures rest[i].id != Last(calls).id
      {
        WithoutMember(Init(calls), ids, rest[i]);
        var k :| 0 <= k < |Init(calls)| && Init(calls)[k] == rest[i];
        assert calls[k].id != calls[|calls| - 1].id;
      }
    }
  }

  /** The main protocol theorem, for every history and all options. */
  lemma {:induction false} CompactionKeepsProtocol(view: seq<Item>, o: Options)
    ensures
      var out, gone := Compacted(view, o), if Applies(view, o) then PlanFor(view, o).collapse else {};
      Mirrors(view, out, gone) && (WellFormed(view) ==> WellFormed(out))
  {
    if Applies(view, o) {
      PassProtocol(view, KeptBy(view, o), PlanFor(view, o), o.note);
      if WellFormed(view) {
        WithoutUnique(Calls(view), PlanFor(view, o).collapse);
      }
    } else {
      NothingRemoved(Calls(view), {});
      OutsideNone(Results(view));
    }
  }

  lemma {:induction false} OutsideNone(ids: seq<string>)
    ensures Outside(ids, {}) == ids
  {
    if ids != [] {
      hide *;
      Split(ids);
      OutsideNone(Init(ids));
      OutsideStep(Init(ids), Last(ids), {});
    }
  }

  lemma {:induction false} OutsideMember(ids: seq<string>, removed: set<string>, id: string)
    ensures id in Outside(ids, removed) <==> id in ids && id !in removed
  {
    if ids != [] {
      OutsideMember(Init(ids), removed, id);
      assert ids == Init(ids) + [Last(ids)];
    }
  }

  /** A call that stays and had a result still has it; a call and its results disappear only together. */
  lemma {:induction false} KeptCallKeepsResult(view: seq<Item>, o: Options, call: Call)
    requires call in Calls(view) && call.id in Results(view)
    ensures call in Calls(Compacted(view, o)) <==> call.id in Results(Compacted(view, o))
  {
    CompactionKeepsProtocol(view, o);
    var gone := if Applies(view, o) then PlanFor(view, o).collapse else {};
    WithoutMember(Calls(view), gone, call);
    OutsideMember(Results(view), gone, call.id);
  }

  /** No message that announced a call is emptied. */
  lemma {:induction false} CallsLeaveContent(item: Item, plan: Plan, note: string)
    requires plan.collapse <= plan.compact
    requires item.Is(Assistant) && CallsOf(item.content) != []
    ensures HistoryItem(item, plan, note)[0].content != []
  {
    var calls := CallsOf(item.content);
    if Drops(item.content, plan) && !AllIn(calls, plan.compact) {
      RewrittenCalls(item.content, plan, note);
      WithoutNone(calls, plan.collapse);
      assert CallsOf([]) == [];
    }
  }

  /** Every empty assistant message of the output was empty, and without calls, in the input. */
  lemma {:induction false} NoMessageEmptied(view: seq<Item>, o: Options, x: Item)
    requires x in Compacted(view, o) && x.Is(Assistant) && x.content == []
    ensures x in view
  {
    if Applies(view, o) {
      var plan := PlanFor(view, o);
      var i := OutputOrigin(view, o, x);
      CollapseDone(Collect(view), KeptBy(view, o), o.dropNovel);
      if CallsOf(view[i].content) != [] {
        CallsLeaveContent(view[i], plan, o.note);
        assert false;
      }
      assert !Drops(view[i].content, plan);
    }
  }

  /** At most `keep` collected results stay uncleared, with pairwise different keys. */
  lemma {:induction false} WindowRespected(view: seq<Item>, o: Options)
    ensures Settled(Collect(Compacted(view, o)), o)
  {
    PassSettles(view, o);
    if !Applies(view, o) {
      var cands, kept := Collect(view), KeptBy(view, o);
      CollectIndices(view);
      ProtectFacts(cands, o);
      forall i | 0 <= i < |cands| && !cands[i].cleared
        ensures cands[i].index in kept
      {
        assert !Stale(cands[i], kept);
      }
      UnclearedWithin(cands, kept);
    }
  }

  lemma {:induction false} UnclearedWithin(cands: seq<Candidate>, kept: set<nat>)
    requires Ordered(cands)
    requires forall i | 0 <= i < |cands| && !cands[i].cleared :: cands[i].index in kept
    ensures Uncleared(cands) <= |kept|
    decreases |cands|
  {
    if cands != [] {
      var init, c := Init(cands), Last(cands);
      assert forall i | 0 <= i < |init| :: init[i] == cands[i];
      assert c == cands[|cands| - 1];
      if c.cleared {
        UnclearedWithin(init, kept);
      } else {
        UnclearedWithin(init, kept - {c.index});
      }
    }
  }

  // ---- The newest write receipt -----------------------------------------------------------------

  /** Position k holds the newest uncleared write result. */
  predicate NewestWrite(cands: seq<Candidate>, k: nat) {
    && k < |cands| && !cands[k].cleared && IsWriteTool(cands[k].tool)
    && forall j | k < j < |cands| :: cands[j].cleared || !IsWriteTool(cands[j].tool)
  }

  lemma {:induction false} ReceiptOfNewest(cands: seq<Candidate>, k: nat)
    requires NewestWrite(cands, k) && cands[k].text != ""
    ensures Receipts(cands) == map[cands[k].callId := ReceiptText(cands[k].tool, cands[k].text)]
  {
    if k < |cands| - 1 {
      assert forall j | 0 <= j < |Init(cands)| :: Init(cands)[j] == cands[j];
      ReceiptOfNewest(Init(cands), k);
    }
  }

  lemma {:induction false} CallBehindCandidate(view: seq<Item>, c: Candidate) returns (i: nat, call: Call)
    requires c in Collect(view)
    ensures i < |view| && view[i].Is(Assistant) && call in CallsOf(view[i].content) && call.id == c.callId
  {
    if CandidateOf(Last(view), |view| - 1, Pending(Init(view))) == Some(c) {
      i, call := CallBehindPending(Init(view), c.callId);
    } else {
      assert c in Collect(Init(view));
      i, call := CallBehindCandidate(Init(view), c);
    }
  }

  lemma {:induction false} CallBehindPending(view: seq<Item>, id: string) returns (i: nat, call: Call)
    requires id in Pending(view)
    ensures i < |view| && view[i].Is(Assistant) && call in CallsOf(view[i].content) && call.id == id
  {
    if Last(view).Is(Assistant) && id !in Pending(Init(view)) {
      i := |view| - 1;
      call := CallBehindRegister(Pending(Init(view)), CallsOf(Last(view).content), id);
    } else {
      i, call := CallBehindPending(Init(view), id);
    }
  }

  lemma {:induction false} CallBehindRegister(open: map<string, Open>, calls: seq<Call>, id: string) returns (call: Call)
    requires id in Register(open, calls) && id !in open
    ensures call in calls && call.id == id
  {
    if Last(calls).id == id {
      call := Last(calls);
    } else {
      call := CallBehindRegister(open, Init(calls), id);
    }
  }

  /** A message shows a text as one of its blocks. */
  predicate Shows(x: Item, text: string) {
    x.Is(Assistant) && TextBlock(text) in x.content
  }

  /** The newest write result, when it is not blank, stands verbatim in the output, in the message that
      announced the call; that message keeps no call when all its calls were completed writes. */
  lemma {:induction false} ReceiptShown(view: seq<Item>, o: Options, k: nat) returns (x: Item)
    requires NewestWrite(Collect(view), k) && Collect(view)[k].text != ""
    ensures x in Compacted(view, o)
    ensures Shows(x, ReceiptText(Collect(view)[k].tool, Collect(view)[k].text))
    ensures ClosedWrites(view, o, Collect(view)[k].callId) ==> CallsOf(x.content) == []
  {
    var cands, plan := Collect(view), PlanFor(view, o);
    var c := cands[k];
    hide Collect, ReceiptText, NewestWrite, KeptBy, Drops, Completed, AllIn;
    ReceiptOfNewest(cands, k);
    NewestRemoved(cands, k, KeptBy(view, o), o.dropNovel);
    assert c in cands;
    var i, call := CallBehindCandidate(view, c);
    CallsInBlocks(view[i].content, call);
    ReceiptNonBlank(c.tool, c.text);
    ReceiptMembers(view[i].content, plan, call);
    if !Drops(view[i].content, plan) {
      UntouchedCalls(view[i].content, plan);
      ReceiptsNeedCollapse(view[i].content, plan);
      assert false;
    }
    assert Touches(view[i], plan);
    OutputImage(view, o, i);
    x := HistoryItem(view[i], plan, o.note)[0];
    RewrittenShows(view[i].content, plan, o.note);
    AssistantItem(view[i], plan, o.note);
    if ClosedWrites(view, o, c.callId) {
      ClosedCalls(view, o, c.callId, i, call);
      WithoutNone(CallsOf(view[i].content), plan.collapse);
    }
  }

  lemma {:induction false} NewestRemoved(cands: seq<Candidate>, k: nat, kept: set<nat>, drop: bool)
    requires NewestWrite(cands, k)
    ensures cands[k].callId in PlanOf(cands, kept, drop).collapse
  {
    assert cands[k] in cands;
  }

  lemma {:induction false} ReceiptNonBlank(tool: string, text: string)
    ensures ReceiptText(tool, text) != ""
  {
  }

  lemma {:induction false} RewrittenShows(content: seq<Block>, plan: Plan, note: string)
    ensures forall b | b in ReceiptBlocks(content, plan) :: b in Rewritten(content, plan, note)
  {
    hide Filtered, ReceiptBlocks;
  }

  lemma {:induction false} ClosedCalls(view: seq<Item>, o: Options, id: string, i: nat, call: Call)
    requires ClosedWrites(view, o, id) && i < |view| && view[i].Is(Assistant)
    requires call in CallsOf(view[i].content) && call.id == id
    ensures AllIn(CallsOf(view[i].content), PlanFor(view, o).collapse)
  {
    hide PlanFor;
    var calls := CallsOf(view[i].content);
    var k :| 0 <= k < |calls| && calls[k] == call;
    assert SomeIn(calls, {id});
  }

  /** Every message that announces the call announces only write calls removed by this pass. */
  predicate ClosedWrites(view: seq<Item>, o: Options, id: string) {
    forall i | 0 <= i < |view| && view[i].Is(Assistant) && SomeIn(CallsOf(view[i].content), {id}) ::
      AllIn(CallsOf(view[i].content), PlanFor(view, o).collapse)
  }

  /** A stretch of later history: entries are appended and passes with any options run in between. */
  datatype Round = Append(items: seq<Item>) | Pass(options: Options)

  function Run(view: seq<Item>, rounds: seq<Round>): seq<Item> {
    if rounds == [] then view
    else match Last(rounds)
      case Append(items) => Run(view, Init(rounds)) + items
      case Pass(o) => Compacted(Run(view, Init(rounds)), o)
  }

  /** An assistant message without calls is never touched again. */
  lemma {:induction false} CallFreeForever(view: seq<Item>, rounds: seq<Round>, x: Item)
    requires x in view && x.Is(Assistant) && CallsOf(x.content) == []
    ensures x in Run(view, rounds)
  {
    if rounds != [] {
      var before := Run(view, Init(rounds));
      CallFreeForever(view, Init(rounds), x);
      match Last(rounds)
      case Append(items) =>
      case Pass(o) =>
        var i :| 0 <= i < |before| && before[i] == x;
        OutputImage(before, o, i);
        assert HistoryItem(x, PlanFor(before, o), o.note) == [x];
    }
  }

  /** Once shown beside no other call, the receipt outlives every later sequence of rounds. */
  lemma {:induction false} ReceiptSurvives(view: seq<Item>, o: Options, k: nat, rounds: seq<Round>)
    requires NewestWrite(Collect(view), k) && Collect(view)[k].text != ""
    requires ClosedWrites(view, o, Collect(view)[k].callId)
    ensures exists x :: x in Run(Compacted(view, o), rounds) && Shows(x, ReceiptText(Collect(view)[k].tool, Collect(view)[k].text))
  {
    var x := ReceiptShown(view, o, k);
    CallFreeForever(Compacted(view, o), rounds, x);
  }
}
