/** The loops of the Writer's context manager, each proved to compute its specification. */
module WriterContextManager {
  import opened Sequences
  import opened Text
  import opened WriterHistory
  import opened WriterPass
  import opened WriterCompaction
  import opened WriterRecovery

  // ---- Collecting results -----------------------------------------------------------------------

  method CollectResults(msgs: seq<Item>) returns (cands: seq<Candidate>)
    ensures cands == Collect(msgs)
  {
    var pending: map<string, Open> := map[];
    cands := [];
    for index := 0 to |msgs|
      invariant pending == Pending(msgs[..index])
      invariant cands == Collect(msgs[..index])
    {
      Prefix(msgs, index);
      PendingStep(msgs[..index], msgs[index]);
      var item := msgs[index];
      if item.Is(Assistant) {
        var calls := CallsOf(item.content);
        ghost var before := pending;
        for k := 0 to |calls|
          invariant pending == Register(before, calls[..k])
        {
          Prefix(calls, k);
          pending := pending[calls[k].id := Open(calls[k].name, ResultKey(calls[k]))];
        }
        Whole(calls);
      } else if item.Is(Tool) {
        var id := item.meta.callId;
        var call := if id in pending then pending[id] else Open("", "");
        if call.tool != "" {
          cands := cands + [Candidate(index, id, call.tool, call.key, item.meta.cleared, item.meta.isError,
                                      Trim(item.meta.fingerprint), Trim(TextOf(item.content)))];
        }
      }
    }
    Whole(msgs);
  }

  lemma {:induction false} FirstOriginalAt(cands: seq<Candidate>, k: nat)
    requires k <= |cands| && (forall j | 0 <= j < k :: !IsOriginal(cands[j]))
    requires k < |cands| ==> IsOriginal(cands[k])
    ensures FirstOriginal(cands) == k
  {
  }

  method ProtectRecent(cands: seq<Candidate>, o: Options) returns (kept: set<nat>)
    ensures kept == Protect(cands, o.keep, o.preferOriginal, o.dropNovel)
  {
    kept := {};
    var seen: set<string> := {};
    if o.preferOriginal && o.keep > 1 {
      var k := 0;
      while k < |cands|
        invariant k <= |cands| && (forall j | 0 <= j < k :: !IsOriginal(cands[j]))
        invariant kept == {} && seen == {}
      {
        if cands[k].tool == NOVEL_CONTEXT && !cands[k].cleared {
          kept := kept + {cands[k].index};
          seen := seen + {cands[k].key};
          break;
        }
        k := k + 1;
      }
      FirstOriginalAt(cands, k);
    }
    kept := ScanBack(cands, o, kept, seen);
  }

  method ScanBack(cands: seq<Candidate>, o: Options, original: set<nat>, originalKeys: set<string>) returns (kept: set<nat>)
    ensures kept == ProtectBack(cands, |cands|, original, originalKeys, o.keep, o.dropNovel)
  {
    var seen: set<string>;
    kept, seen := original, originalKeys;
    var n := |cands|;
    while n > 0 && |kept| < o.keep
      invariant 0 <= n <= |cands|
      invariant ProtectBack(cands, n, kept, seen, o.keep, o.dropNovel) ==
                ProtectBack(cands, |cands|, original, originalKeys, o.keep, o.dropNovel)
    {
      n := n - 1;
      var c := cands[n];
      if c.cleared || (o.dropNovel && c.tool == NOVEL_CONTEXT) {
        continue;
      }
      if c.key in seen {
        continue;
      }
      seen := seen + {c.key};
      kept := kept + {c.index};
    }
  }

  /** The newest uncleared write result as a receipt; the text is read from the message itself. */
  method LatestReceipt(msgs: seq<Item>, cands: seq<Candidate>) returns (receipts: map<string, string>)
    requires cands == Collect(msgs)
    ensures receipts == Receipts(cands)
  {
    hide Collect, Pending, ResultKey, ReceiptText, IsWriteTool, Trim, TextOf;
    var n := |cands|;
    Whole(cands);
    while n > 0
      invariant 0 <= n <= |cands|
      invariant Receipts(cands[..n]) == Receipts(cands)
    {
      n := n - 1;
      Prefix(cands, n);
      var c := cands[n];
      if c.cleared || !IsWriteTool(c.tool) {
        continue;
      }
      CandidateSource(msgs, n);
      var result := Trim(TextOf(msgs[c.index].content));
      if result == "" {
        return map[];
      }
      return map[c.callId := ReceiptText(c.tool, result)];
    }
    return map[];
  }

  /** The k-th candidate comes from the message at its index, and the first k from the messages before. */
  lemma {:induction false} CandidateSource(msgs: seq<Item>, k: nat)
    requires k < |Collect(msgs)|
    ensures
      var c := Collect(msgs)[k];
      && c.index < |msgs|
      && CandidateOf(msgs[c.index], c.index, Pending(msgs[..c.index])) == Some(c)
      && Collect(msgs[..c.index]) == Collect(msgs)[..k]
  {
    var init := Init(msgs);
    if k < |Collect(init)| {
      CandidateSource(init, k);
      var c := Collect(init)[k];
      assert init[..c.index] == msgs[..c.index];
      assert Collect(msgs)[..k] == Collect(init)[..k];
    } else {
      assert Collect(msgs)[..k] == Collect(init);
    }
  }

  // ---- The history pass -------------------------------------------------------------------------

  lemma {:induction false} CallsPrefix(content: seq<Block>, i: nat)
    requires i < |content|
    ensures CallsOf(content[..i + 1]) == CallsOf(content[..i]) + (if content[i].CallBlock? then [content[i].call] else [])
  {
    Prefix(content, i);
  }

  lemma {:induction false} InStep(calls: seq<Call>, call: Call, ids: set<string>)
    ensures AllIn(calls + [call], ids) <==> AllIn(calls, ids) && call.id in ids
    ensures SomeIn(calls + [call], ids) <==> SomeIn(calls, ids) || call.id in ids
  {
    var all := calls + [call];
    assert all[|calls|] == call;
    if AllIn(all, ids) {
      assert forall i | 0 <= i < |calls| :: calls[i] == all[i];
    }
    if i :| 0 <= i < |calls| && calls[i].id in ids {
      assert all[i].id in ids;
    }
  }

  /** The four flags the code computes over the call blocks of one message. */
  method Survey(content: seq<Block>, plan: Plan) returns (hasCall: bool, allCompacted: bool, allCompleted: bool, collapsed: bool)
    ensures hasCall == (CallsOf(content) != [])
    ensures allCompacted == AllIn(CallsOf(content), plan.compact)
    ensures allCompleted == AllIn(CallsOf(content), plan.completed)
    ensures collapsed == SomeIn(CallsOf(content), plan.collapse)
  {
    hasCall, allCompacted, allCompleted, collapsed := false, true, true, false;
    for i := 0 to |content|
      invariant hasCall == (CallsOf(content[..i]) != [])
      invariant allCompacted == AllIn(CallsOf(content[..i]), plan.compact)
      invariant allCompleted == AllIn(CallsOf(content[..i]), plan.completed)
      invariant collapsed == SomeIn(CallsOf(content[..i]), plan.collapse)
    {
      CallsPrefix(content, i);
      if content[i].CallBlock? {
        var call := content[i].call;
        ghost var before := CallsOf(content[..i]);
        InStep(before, call, plan.compact);
        InStep(before, call, plan.completed);
        InStep(before, call, plan.collapse);
        hasCall := true;
        if call.id !in plan.compact { allCompacted := false; }
        if call.id !in plan.completed { allCompleted := false; }
        if call.id in plan.collapse { collapsed := true; }
      } else {
        assert CallsOf(content[..i + 1]) == CallsOf(content[..i]);
      }
    }
    Whole(content);
  }

  predicate AnyDropped(content: seq<Block>, n: nat, plan: Plan, dropNarrative: bool)
    requires n <= |content|
  {
    exists i | 0 <= i < n :: Dropped(content[i], plan, dropNarrative)
  }

  function ReceiptOf(b: Block, plan: Plan): string {
    if b.CallBlock? && b.call.id in plan.collapse && b.call.id in plan.receipts then plan.receipts[b.call.id] else ""
  }

  lemma {:induction false} FilterStep(content: seq<Block>, i: nat, plan: Plan, drop: bool)
    requires i < |content|
    ensures Filtered(content[..i + 1], plan, drop) ==
            Filtered(content[..i], plan, drop) + (if Dropped(content[i], plan, drop) then [] else [content[i]])
    ensures ReceiptBlocks(content[..i + 1], plan) ==
            ReceiptBlocks(content[..i], plan) +
            (if ReceiptOf(content[i], plan) != "" then [TextBlock(ReceiptOf(content[i], plan))] else [])
    ensures AnyDropped(content, i + 1, plan, drop) <==> AnyDropped(content, i, plan, drop) || Dropped(content[i], plan, drop)
  {
    Prefix(content, i);
  }

  method FilterMessage(content: seq<Block>, plan: Plan, dropNarrative: bool) returns (filtered: seq<Block>, dropped: bool)
    ensures filtered == Filtered(content, plan, dropNarrative) + ReceiptBlocks(content, plan)
    ensures dropped == AnyDropped(content, |content|, plan, dropNarrative)
  {
    hide Filtered, ReceiptBlocks, AnyDropped;
    filtered, dropped := [], false;
    FilterStart(content, plan, dropNarrative);
    var receipts: seq<string> := [];
    ghost var blocks: seq<Block> := [];
    for i := 0 to |content|
      invariant filtered == Filtered(content[..i], plan, dropNarrative)
      invariant blocks == ReceiptBlocks(content[..i], plan)
      invariant |blocks| == |receipts| && forall j | 0 <= j < |receipts| :: blocks[j] == TextBlock(receipts[j])
      invariant dropped == AnyDropped(content, i, plan, dropNarrative)
    {
      FilterStep(content, i, plan, dropNarrative);
      var b := content[i];
      if b.CallBlock? && b.call.id in plan.collapse {
        var receipt := if b.call.id in plan.receipts then plan.receipts[b.call.id] else "";
        if receipt != "" {
          receipts := receipts + [receipt];
          blocks := blocks + [TextBlock(receipt)];
        }
        dropped := true;
      } else if dropNarrative && (b.TextBlock? || b.ThinkingBlock?) {
        dropped := true;
      } else {
        filtered := filtered + [b];
      }
    }
    Whole(content);
    ghost var base := filtered;
    for j := 0 to |receipts|
      invariant filtered == base + blocks[..j]
    {
      filtered := filtered + [TextBlock(receipts[j])];
      Prefix(blocks, j);
    }
    Whole(blocks);
  }

  lemma {:induction false} FilterStart(content: seq<Block>, plan: Plan, drop: bool)
    ensures Filtered(content[..0], plan, drop) == [] == ReceiptBlocks(content[..0], plan)
    ensures !AnyDropped(content, 0, plan, drop)
  {
  }

  method CompactToolHistory(msgs: seq<Item>, plan: Plan, note: string) returns (out: seq<Item>, changed: bool)
    ensures out == History(msgs, plan, note)
    ensures changed <==> Touched(msgs, plan)
  {
    hide History, Drops, Rewritten, Touched;
    out, changed := [], false;
    NothingTouched(plan, note);
    assert msgs[..0] == [];
    for n := 0 to |msgs|
      invariant out == History(msgs[..n], plan, note)
      invariant changed == Touched(msgs[..n], plan)
    {
      TouchedStep(msgs, n, plan);
      Prefix(msgs, n);
      HistoryStep(msgs[..n], msgs[n], plan, note);
      var item := msgs[n];
      if item.Is(Tool) {
        if item.meta.callId in plan.collapse {
          changed := true;
          continue;
        }
        out := out + [item];
        continue;
      }
      if !item.Is(Assistant) {
        out := out + [item];
        continue;
      }
      var content, messageChanged := CompactMessage(item.content, plan, note);
      if messageChanged {
        item := item.(content := content, meta := item.meta.(compactedTurn := true));
        changed := true;
      }
      out := out + [item];
    }
    Whole(msgs);
  }

  lemma {:induction false} NothingTouched(plan: Plan, note: string)
    ensures History([], plan, note) == [] && !Touched([], plan)
  {
  }

  lemma {:induction false} TouchedStep(msgs: seq<Item>, n: nat, plan: Plan)
    requires n < |msgs|
    ensures Touched(msgs[..n + 1], plan) <==> Touched(msgs[..n], plan) || Touches(msgs[n], plan)
  {
    hide Touches;
    var a, b := msgs[..n + 1], msgs[..n];
    assert a[n] == msgs[n] && forall j | 0 <= j < n :: a[j] == b[j];
    if j :| 0 <= j < |b| && Touches(b[j], plan) {
      assert Touches(a[j], plan);
    }
  }

  method CompactMessage(original: seq<Block>, plan: Plan, note: string) returns (content: seq<Block>, changed: bool)
    ensures changed == Drops(original, plan)
    ensures changed ==> content == Rewritten(original, plan, note)
  {
    content, changed := original, false;
    var hasCall, allCompacted, allCompleted, collapsed := Survey(content, plan);
    if collapsed || (hasCall && (allCompacted || allCompleted)) {
      content, changed := FilterMessage(content, plan, hasCall && allCompleted);
    }
    if hasCall && allCompacted {
      if |content| == 0 {
        PlaceholderDrops(original, plan);
        content := content + [TextBlock(note)];
        changed := true;
      }
    }
  }

  /** A message with calls that ends up empty dropped something. */
  lemma {:induction false} PlaceholderDrops(content: seq<Block>, plan: Plan)
    requires CallsOf(content) != [] && AllIn(CallsOf(content), plan.compact)
    requires Filtered(content, plan, Completed(content, plan)) + ReceiptBlocks(content, plan) == []
    ensures Drops(content, plan)
  {
    var call := CallsOf(content)[0];
    CallsInBlocks(content, call);
    FilteredMembers(content, plan, Completed(content, plan));
    assert CallBlock(call) !in Filtered(content, plan, Completed(content, plan));
    var i :| 0 <= i < |content| && content[i] == CallBlock(call);
  }

  // ---- The compaction pass ----------------------------------------------------------------------

  lemma {:induction false} ClearQuiet(view: seq<Item>, b: nat, j: nat, kept: set<nat>, note: string)
    requires b <= j <= |view| && Collect(view[..b]) == Collect(view[..j])
    ensures Clear(view[..j], kept, note) == Clear(view[..b], kept, note) + view[b..j]
  {
    hide *;
    if b == j {
      assert view[b..j] == [];
    } else {
      QuietStep(view, b, j - 1, kept, note);
      ClearQuiet(view, b, j - 1, kept, note);
      assert view[b..j] == view[b..j - 1] + [view[j - 1]];
    }
  }

  lemma {:induction false} QuietStep(view: seq<Item>, b: nat, j: nat, kept: set<nat>, note: string)
    requires b <= j < |view| && Collect(view[..b]) == Collect(view[..j + 1])
    ensures Collect(view[..b]) == Collect(view[..j])
    ensures Clear(view[..j + 1], kept, note) == Clear(view[..j], kept, note) + [view[j]]
  {
    hide Pending, ResultKey, Trim, TextOf, CandidateOf;
    Prefix(view, j);
    PendingStep(view[..j], view[j]);
    CollectGrows(view, b, j);
  }

  lemma {:induction false} CollectGrows(view: seq<Item>, b: nat, j: nat)
    requires b <= j <= |view|
    ensures Collect(view[..b]) <= Collect(view[..j])
  {
    if b < j {
      Prefix(view, j - 1);
      CollectGrows(view, b, j - 1);
    }
  }

  lemma {:induction false} IdSteps(cands: seq<Candidate>, k: nat, kept: set<nat>, drop: bool)
    requires k < |cands|
    ensures
      var c := cands[k];
      && CollapseIds(cands[..k + 1]) ==
         CollapseIds(cands[..k]) + (if !c.cleared && IsWriteTool(c.tool) then {c.callId} else {})
      && CompactIds(cands[..k + 1], kept, drop) ==
         CompactIds(cands[..k], kept, drop) +
         (if c.cleared || IsWriteTool(c.tool) || (drop && c.tool == NOVEL_CONTEXT) || c.index !in kept
          then {c.callId} else {})
      && CompletedIds(cands[..k + 1]) == CompletedIds(cands[..k]) + {c.callId}
  {
    hide IsWriteTool;
    Prefix(cands, k);
  }

  predicate AnyStale(cands: seq<Candidate>, k: nat, kept: set<nat>)
    requires k <= |cands|
  {
    exists i | 0 <= i < k :: Stale(cands[i], kept)
  }

  /** The first k candidates come from the first b messages, and exactly those messages are cleared. */
  ghost predicate ClearedTo(view: seq<Item>, b: nat, k: nat, out: seq<Item>, kept: set<nat>, note: string) {
    && b <= |view| && k <= |Collect(view)| && Collect(view[..b]) == Collect(view)[..k]
    && out == Clear(view[..b], kept, note) + view[b..]
  }

  lemma {:induction false} ClearStep(view: seq<Item>, j: nat, c: Candidate, kept: set<nat>, note: string)
    requires j < |view| && CandidateOf(view[j], j, Pending(view[..j])) == Some(c)
    ensures Clear(view[..j + 1], kept, note) == Clear(view[..j], kept, note) + [ClearItem(view[j], Some(c), kept, note)]
    ensures Collect(view[..j + 1]) == Collect(view[..j]) + [c]
  {
    Prefix(view, j);
  }

  method ClearMessage(message: Item, c: Candidate, note: string) returns (cleared: Item)
    requires message.Message?
    ensures cleared == ClearedItem(message, c, note)
  {
    var meta := message.meta;
    if c.isError {
      meta := meta.(fingerprint := Fingerprint(c.tool, c.text));
    }
    meta := meta.(cleared := true, clearedTool := c.tool);
    cleared := message.(content := [TextBlock(note)], meta := meta);
  }

  /** The call IDs the history pass works with; in the source the same loop also clears the messages. */
  method CallSets(cands: seq<Candidate>, kept: set<nat>, dropNovel: bool)
    returns (compact: set<string>, collapse: set<string>, completed: set<string>)
    ensures compact == CompactIds(cands, kept, dropNovel)
    ensures collapse == CollapseIds(cands)
    ensures completed == CompletedIds(cands)
  {
    compact, collapse, completed := {}, {}, {};
    for k := 0 to |cands|
      invariant compact == CompactIds(cands[..k], kept, dropNovel)
      invariant collapse == CollapseIds(cands[..k])
      invariant completed == CompletedIds(cands[..k])
    {
      var c := cands[k];
      IdSteps(cands, k, kept, dropNovel);
      completed := completed + {c.callId};
      if c.cleared {
        compact := compact + {c.callId};
        continue;
      }
      if IsWriteTool(c.tool) {
        compact := compact + {c.callId};
        collapse := collapse + {c.callId};
      }
      if dropNovel && c.tool == NOVEL_CONTEXT {
        compact := compact + {c.callId};
      }
      if c.index in kept {
        continue;
      }
      compact := compact + {c.callId};
    }
    Whole(cands);
  }

  method ClearOne(messages: seq<Item>, c: Candidate, kept: set<nat>, note: string)
    returns (out: seq<Item>, cleared: bool)
    requires c.index < |messages| && messages[c.index].Message?
    ensures out == messages[c.index := ClearItem(messages[c.index], Some(c), kept, note)]
    ensures cleared == Stale(c, kept)
  {
    hide ClearedItem;
    if c.cleared || c.index in kept {
      SameUpdate(messages, c.index);
      return messages, false;
    }
    var message := ClearMessage(messages[c.index], c, note);
    out, cleared := messages[c.index := message], true;
  }

  /** Clears the stale results in place. */
  method ClearStale(view: seq<Item>, cands: seq<Candidate>, kept: set<nat>, note: string)
    returns (out: seq<Item>, applied: bool)
    requires cands == Collect(view)
    ensures out == Clear(view, kept, note)
    ensures applied == AnyStale(cands, |cands|, kept)
  {
    out, applied := view, false;
    ghost var b: nat := 0;
    ClearStart(view, kept, note);
    hide ClearedTo, Collect, Clear, ClearItem, AnyStale, Stale;
    for k := 0 to |cands|
      invariant ClearedTo(view, b, k, out, kept, note)
      invariant applied == AnyStale(cands, k, kept)
    {
      var c := cands[k];
      ClearNext(view, b, k, out, kept, note);
      StaleStep(cands, k, kept);
      b := c.index + 1;
      var cleared;
      out, cleared := ClearOne(out, c, kept, note);
      applied := applied || cleared;
    }
    ClearEnd(view, b, out, kept, note);
  }

  lemma {:induction false} SameUpdate<T>(s: seq<T>, i: nat)
    requires i < |s|
    ensures s[i := s[i]] == s
  {
  }

  lemma {:induction false} ClearStart(view: seq<Item>, kept: set<nat>, note: string)
    ensures ClearedTo(view, 0, 0, view, kept, note) && !AnyStale(Collect(view), 0, kept)
  {
    assert view[..0] == [] && Collect(view)[..0] == [];
  }

  lemma {:induction false} StaleStep(cands: seq<Candidate>, k: nat, kept: set<nat>)
    requires k < |cands|
    ensures AnyStale(cands, k + 1, kept) == (AnyStale(cands, k, kept) || Stale(cands[k], kept))
  {
  }

  lemma {:induction false} ClearEnd(view: seq<Item>, b: nat, out: seq<Item>, kept: set<nat>, note: string)
    requires ClearedTo(view, b, |Collect(view)|, out, kept, note)
    ensures out == Clear(view, kept, note)
  {
    hide Collect, Clear;
    Whole(Collect(view));
    Whole(view);
    ClearQuiet(view, b, |view|, kept, note);
  }

  method CompactPhase(view: seq<Item>, o: Options) returns (result: seq<Item>, applied: bool)
    ensures applied == Applies(view, o)
    ensures result == Compacted(view, o)
  {
    var cands := CollectResults(view);
    if |cands| == 0 {
      NothingApplies(view, o);
      return view, false;
    }
    var kept := ProtectRecent(cands, o);
    var receipts := LatestReceipt(view, cands);
    var compact, collapse, completed := CallSets(cands, kept, o.dropNovel);
    var out, cleared := ClearStale(view, cands, kept, o.note);
    var plan := Plan(compact, collapse, completed, receipts);
    assert plan == PlanFor(view, o);
    TouchedClear(view, kept, o.note, plan);
    StaleSome(cands, kept);
    var changed;
    out, changed := CompactToolHistory(out, plan, o.note);
    applied := cleared || changed;
    if !applied {
      return view, false;
    }
    result := out;
  }

  lemma {:induction false} StaleSome(cands: seq<Candidate>, kept: set<nat>)
    ensures AnyStale(cands, |cands|, kept) <==> exists c :: c in cands && Stale(c, kept)
  {
    if c :| c in cands && Stale(c, kept) {
      var i :| 0 <= i < |cands| && cands[i] == c;
      assert Stale(cands[i], kept);
    }
    if i :| 0 <= i < |cands| && Stale(cands[i], kept) {
      assert cands[i] in cands;
    }
  }

  lemma {:induction false} NotBefore(view: seq<Item>, b: nat, k: nat)
    requires k < |Collect(view)| && b <= |view| && Collect(view[..b]) == Collect(view)[..k]
    ensures b <= Collect(view)[k].index < |view|
  {
    var c := Collect(view)[k];
    CandidateSource(view, k);
    if c.index < b {
      CollectGrows(view, c.index + 1, b);
      ClearStep(view, c.index, c, {}, "");
      assert false;
    }
  }

  lemma {:induction false} UpdateAt<T>(a: seq<T>, s: seq<T>, x: T)
    requires |a| < |s|
    ensures (a + s[|a|..])[|a|] == s[|a|]
    ensures (a + s[|a|..])[|a| := x] == a + [x] + s[|a| + 1..]
  {
  }

  /** No message between two consecutive candidates is cleared. */
  lemma {:induction false} ClearReach(view: seq<Item>, b: nat, k: nat, out: seq<Item>, kept: set<nat>, note: string)
    requires k < |Collect(view)| && ClearedTo(view, b, k, out, kept, note)
    ensures Collect(view)[k].index < |view| && ClearedTo(view, Collect(view)[k].index, k, out, kept, note)
  {
    var j := Collect(view)[k].index;
    NotBefore(view, b, k);
    CandidateSource(view, k);
    ClearQuiet(view, b, j, kept, note);
    assert view[b..] == view[b..j] + view[j..];
  }

  /** Up to the k-th candidate the array is cleared; at it, the message is still the original one. */
  lemma {:induction false} ClearNext(view: seq<Item>, b: nat, k: nat, out: seq<Item>, kept: set<nat>, note: string)
    requires k < |Collect(view)| && ClearedTo(view, b, k, out, kept, note)
    ensures
      var c := Collect(view)[k];
      && c.index < |view| == |out| && view[c.index].Message?
      && out[c.index] == view[c.index]
      && ClearedTo(view, c.index + 1, k + 1, out[c.index := ClearItem(view[c.index], Some(c), kept, note)], kept, note)
  {
    var c := Collect(view)[k];
    ClearReach(view, b, k, out, kept, note);
    CandidateSource(view, k);
    ClearStep(view, c.index, c, kept, note);
    UpdateAt(Clear(view[..c.index], kept, note), view, ClearItem(view[c.index], Some(c), kept, note));
    Prefix(Collect(view), k);
  }

  lemma {:induction false} NothingApplies(view: seq<Item>, o: Options)
    requires Collect(view) == []
    ensures !Applies(view, o)
  {
    var plan := PlanFor(view, o);
    forall i | 0 <= i < |view|
      ensures !Touches(view[i], plan)
    {
      if view[i].Is(Assistant) && CallsOf(view[i].content) != [] {
        assert !AllIn(CallsOf(view[i].content), {}) by {
          assert CallsOf(view[i].content)[0].id !in {};
        }
      }
    }
  }

  /** Clearing does not change what the history pass touches. */
  lemma {:induction false} TouchedClear(view: seq<Item>, kept: set<nat>, note: string, plan: Plan)
    ensures Touched(Clear(view, kept, note), plan) <==> Touched(view, plan)
  {
    var mid := Clear(view, kept, note);
    forall i | 0 <= i < |view|
      ensures Touches(mid[i], plan) <==> Touches(view[i], plan)
    {
      ClearAt(view, kept, note, i);
    }
    if i :| 0 <= i < |view| && Touches(view[i], plan) {
      assert Touches(mid[i], plan);
    }
  }

  // ---- The strategy -----------------------------------------------------------------------------

  /** The code walks the messages once more here, with its own map from call IDs to names. */
  method HasMatchingResult(msgs: seq<Item>, matches: string -> bool, requireSuccess: bool) returns (found: bool)
    requires !matches("")
    ensures found <==> exists c :: c in Collect(msgs) && matches(c.tool) && (!requireSuccess || !c.isError)
  {
    var pending: map<string, string> := map[];
    for index := 0 to |msgs|
      invariant pending.Keys == Pending(msgs[..index]).Keys
      invariant forall id | id in pending :: pending[id] == Pending(msgs[..index])[id].tool
      invariant forall c | c in Collect(msgs[..index]) :: !(matches(c.tool) && (!requireSuccess || !c.isError))
    {
      Prefix(msgs, index);
      var item := msgs[index];
      if item.Is(Assistant) {
        var calls := CallsOf(item.content);
        ghost var before := Pending(msgs[..index]);
        for k := 0 to |calls|
          invariant pending.Keys == Register(before, calls[..k]).Keys
          invariant forall id | id in pending :: pending[id] == Register(before, calls[..k])[id].tool
        {
          Prefix(calls, k);
          pending := pending[calls[k].id := calls[k].name];
        }
        Whole(calls);
      } else if item.Is(Tool) {
        var id := item.meta.callId;
        if matches(if id in pending then pending[id] else "") && (!requireSuccess || !item.meta.isError) {
          var c := CandidateOf(item, index, Pending(msgs[..index]));
          assert c.value in Collect(msgs[..index + 1]);
          CollectGrows(msgs, index + 1, |msgs|);
          Whole(msgs);
          GrowsMember(Collect(msgs[..index + 1]), Collect(msgs), c.value);
          return true;
        }
      }
    }
    Whole(msgs);
    found := false;
  }

  lemma {:induction false} GrowsMember<T>(a: seq<T>, b: seq<T>, x: T)
    requires a <= b && x in a
    ensures x in b
  {
    var i :| 0 <= i < |a| && a[i] == x;
    assert b[i] == x;
  }

  method DuplicateEvidence(turn: seq<Item>) returns (found: bool)
    ensures found == HasDuplicateEvidence(Collect(turn))
  {
    var cands := CollectResults(turn);
    var seen: set<string> := {};
    for k := 0 to |cands|
      invariant forall key :: key in seen <==> exists i | 0 <= i < k :: IsEvidence(cands[i]) && cands[i].key == key
      invariant forall i, j | 0 <= i < j < k :: !(IsEvidence(cands[i]) && IsEvidence(cands[j]) && cands[i].key == cands[j].key)
    {
      var c := cands[k];
      if c.cleared || (c.tool != NOVEL_CONTEXT && c.tool != READ_CHAPTER) {
        continue;
      }
      if c.key in seen {
        return true;
      }
      seen := seen + {c.key};
    }
    found := false;
  }

  method CompletedRationale(turn: seq<Item>) returns (found: bool)
    ensures found == HasRationale(turn)
  {
    var completed: set<string> := {};
    for i := 0 to |turn|
      invariant forall id :: id in completed <==>
                  exists j | 0 <= j < i :: turn[j].Is(Tool) && turn[j].meta.callId != "" && turn[j].meta.callId == id
    {
      if turn[i].Is(Tool) && turn[i].meta.callId != "" {
        completed := completed + {turn[i].meta.callId};
      }
    }
    assert completed == ResultIds(turn);
    for i := 0 to |turn|
      invariant forall j | 0 <= j < i :: !Rationale(turn[j], completed)
    {
      var item := turn[i];
      if item.Is(Assistant) {
        var calls := CallsOf(item.content);
        if calls != [] {
          var all := true;
          for k := 0 to |calls|
            invariant all == AllIn(calls[..k], completed)
          {
            Prefix(calls, k);
            InStep(calls[..k], calls[k], completed);
            if calls[k].id !in completed {
              all := false;
            }
          }
          Whole(calls);
          if all && (ThinkingOf(item.content) != "" || TextOf(item.content) != "") {
            assert Rationale(turn[i], completed);
            return true;
          }
        }
      }
    }
    found := false;
  }

  method RecoveryState(turn: seq<Item>) returns (d: Decision)
    ensures d == Decide(turn)
  {
    var after := false;
    var i := 0;
    while i < |turn|
      invariant i <= |turn| && !after && (forall j | 0 <= j < i :: !Marked(turn[j]))
    {
      if turn[i].Is(User) && Contains(TextOf(turn[i].content), RECOVERY_MARKER) {
        after := true;
        assert Marked(turn[i]);
        break;
      }
      i := i + 1;
    }
    var tripped := CountErrors(turn);
    d := if !tripped then Fine else if after then GiveUp else Restart;
  }

  method CountErrors(turn: seq<Item>) returns (tripped: bool)
    ensures tripped == Trips(ErrorKeys(turn))
  {
    var cands := CollectResults(turn);
    var counts: map<string, nat> := map[];
    var total := 0;
    for k := 0 to |cands|
      invariant total == |KeysOutside(cands[..k], {})|
      invariant forall f :: f in counts <==> Some(f) in KeysOutside(cands[..k], {})
      invariant forall f | f in counts :: counts[f] == 1
      invariant !Repeats(KeysOutside(cands[..k], {}))
    {
      Prefix(cands, k);
      var c := cands[k];
      ghost var keys := KeysOutside(cands[..k], {});
      if !c.isError {
        assert KeysOutside(cands[..k + 1], {}) == keys;
        continue;
      }
      assert KeysOutside(cands[..k + 1], {}) == keys + [ErrorKey(c)];
      RepeatsStep(keys, ErrorKey(c));
      total := total + 1;
      var fingerprint := c.fingerprint;
      if fingerprint == "" {
        if c.cleared {
          continue;
        }
        fingerprint := Fingerprint(c.tool, c.text);
      }
      counts := counts[fingerprint := (if fingerprint in counts then counts[fingerprint] else 0) + 1];
      if counts[fingerprint] >= 2 {
        KeysGrow(cands, k + 1);
        RepeatsGrow(KeysOutside(cands[..k + 1], {}), ErrorKeys(turn));
        return true;
      }
    }
    Whole(cands);
    tripped := total >= 4;
  }

  lemma {:induction false} RepeatsStep(keys: seq<Option<string>>, key: Option<string>)
    ensures Repeats(keys + [key]) <==> Repeats(keys) || (key.Some? && key in keys)
  {
    var all := keys + [key];
    if i, j :| 0 <= i < j < |keys| && keys[i].Some? && keys[i] == keys[j] {
      assert all[i].Some? && all[i] == all[j];
    }
    if key.Some? && key in keys {
      var i :| 0 <= i < |keys| && keys[i] == key;
      assert all[i].Some? && all[i] == all[|keys|];
    }
  }

  lemma {:induction false} KeysGrow(cands: seq<Candidate>, k: nat)
    requires k <= |cands|
    ensures KeysOutside(cands[..k], {}) <= KeysOutside(cands, {})
    decreases |cands|
  {
    if k == |cands| {
      Whole(cands);
    } else {
      KeysGrow(Init(cands), k);
      assert Init(cands)[..k] == cands[..k];
    }
  }

  lemma {:induction false} RepeatsGrow(a: seq<Option<string>>, b: seq<Option<string>>)
    requires a <= b && Repeats(a)
    ensures Repeats(b)
  {
    var i, j :| 0 <= i < j < |a| && a[i].Some? && a[i] == a[j];
    assert b[i].Some? && b[i] == b[j];
  }

  /** The current turn, found by walking back to the last user message. */
  method CurrentTurn(msgs: seq<Item>) returns (turn: seq<Item>)
    ensures turn == Turn(msgs)
  {
    var n := |msgs|;
    Whole(msgs);
    while n > 0
      invariant 0 <= n <= |msgs|
      invariant Turn(msgs) == Turn(msgs[..n]) + msgs[n..]
    {
      n := n - 1;
      Prefix(msgs, n);
      if msgs[n].Is(User) {
        return msgs[n..];
      }
      assert msgs[n..] == [msgs[n]] + msgs[n + 1..];
    }
    turn := msgs;
  }

  method ApplyStrategy(view: seq<Item>, s: Strategy) returns (outcome: Outcome)
    ensures outcome == Apply(view, s)
  {
    assert !IsValidationTool("") && !IsWriteTool("");
    hide Turn, Decide, Collect, HasDuplicateEvidence, HasRationale, Compacted, Applies, IsValidationTool, IsWriteTool, RestartMessage;
    var turn := CurrentTurn(view);
    var decision := RecoveryState(turn);
    if decision == GiveUp {
      return Exhausted;
    }
    if decision == Restart {
      if |turn| == 0 {
        return Advanced(view, false);
      }
      return Restarted([turn[0], RestartMessage(s)]);
    }
    var hasValidation := HasMatchingResult(turn, IsValidationTool, true);
    var hasDraft := HasMatchingResult(turn, IsWriteTool, false);
    var hasDuplicate := DuplicateEvidence(turn);
    var hasRationale := CompletedRationale(turn);
    if !hasValidation && !hasDraft && !hasDuplicate && !hasRationale {
      return Advanced(view, false);
    }
    var result, applied := CompactPhase(view, Options(s.keep, s.note, hasDuplicate && !hasValidation && !hasDraft, hasValidation));
    outcome := Advanced(result, applied);
  }
}
