/** Where the compaction does not keep what it promises: the situations are shown for whole families of
    inputs, and the lemmas of the other modules say exactly when they cannot arise. */
module WriterLimits {
  import opened Sequences
  import opened Text
  import opened WriterHistory
  import opened WriterPass
  import opened WriterCompaction
  import opened WriterProtocol
  import opened WriterRecovery

  // ---- Exposed receipts -------------------------------------------------------------------------

  lemma {:induction false} StrippedItem(x: Item, next: Plan, note: string)
    requires x.Is(Assistant) && Drops(x.content, next)
    requires next.collapse == {} && next.compact <= next.completed
    ensures |HistoryItem(x, next, note)| == 1
    ensures forall b | b in HistoryItem(x, next, note)[0].content :: !Narrative(b)
  {
    DropsNarrative(x.content, next);
    FilteredMembers(x.content, next, true);
    ReceiptsNeedCollapse(x.content, next);
    var call := CallsOf(x.content)[0];
    CallsInBlocks(x.content, call);
    assert CallBlock(call) in Filtered(x.content, next, true);
  }

  /** Whenever a receipt is exposed, the next pass removes all text from the message that carries it. */
  lemma {:induction false} ExposedReceiptIsStripped(view: seq<Item>, o: Options, i: nat) returns (x: Item, stripped: Item)
    requires i < |view| && view[i].Is(Assistant) && ExposesReceipt(view[i].content, PlanFor(view, o))
    ensures x in Compacted(view, o) && HistoryItem(view[i], PlanFor(view, o), o.note) == [x]
    ensures stripped in Compacted(Compacted(view, o), o)
    ensures HistoryItem(x, PlanFor(Compacted(view, o), o), o.note) == [stripped]
    ensures forall b | b in stripped.content :: !Narrative(b)
  {
    var plan := PlanFor(view, o);
    assert Exposed(view, o);
    SecondPass(view, o);
    ExposureApplies(view, o);
    var out := Compacted(view, o);
    var next := PlanFor(out, o);
    NextPlan(view, o);
    OutputImage(view, o, i);
    x := HistoryItem(view[i], plan, o.note)[0];
    ImageTouched(view[i], view, o, next);
    var j :| 0 <= j < |out| && out[j] == x;
    OutputImage(out, o, j);
    StrippedItem(x, next, o.note);
    stripped := HistoryItem(x, next, o.note)[0];
  }

  lemma {:induction false} ImageTouched(item: Item, view: seq<Item>, o: Options, next: Plan)
    requires item.Is(Assistant) && ExposesReceipt(item.content, PlanFor(view, o))
    requires next == PlanFor(Rewrite(view, o), o)
    ensures
      var image := HistoryItem(item, PlanFor(view, o), o.note);
      |image| == 1 && image[0].Is(Assistant) && Drops(image[0].content, next)
  {
    NextPlan(view, o);
    CollapseDone(Collect(view), KeptBy(view, o), o.dropNovel);
    NextTouch(item, PlanFor(view, o), next, o.note);
    AssistantItem(item, PlanFor(view, o), o.note);
  }

  // ---- Small histories --------------------------------------------------------------------------

  function Announce(call: Call): Item {
    Message(Assistant, [CallBlock(call)], NO_METADATA)
  }

  function Reply(id: string, text: string, isError: bool): Item {
    Message(Tool, [TextBlock(text)], NO_METADATA.(callId := id, isError := isError))
  }

  function Result(index: nat, call: Call, text: string, isError: bool): Candidate {
    Candidate(index, call.id, call.name, ResultKey(call), false, isError, "", Trim(text))
  }

  lemma {:induction false} OneReply(msgs: seq<Item>, call: Call, text: string, isError: bool)
    requires call.id in Pending(msgs) && Pending(msgs)[call.id] == Open(call.name, ResultKey(call)) && call.name != ""
    ensures Collect(msgs + [Reply(call.id, text, isError)]) == Collect(msgs) + [Result(|msgs|, call, text, isError)]
    ensures Pending(msgs + [Reply(call.id, text, isError)]) == Pending(msgs)
  {
    PendingStep(msgs, Reply(call.id, text, isError));
    OneBlock([TextBlock(text)]);
    assert Trim("") == "";
  }

  lemma {:induction false} OneAnnouncement(msgs: seq<Item>, call: Call)
    ensures Pending(msgs + [Announce(call)]) == Pending(msgs)[call.id := Open(call.name, ResultKey(call))]
    ensures Collect(msgs + [Announce(call)]) == Collect(msgs)
  {
    OneBlock([CallBlock(call)]);
    PendingStep(msgs, Announce(call));
    OneRegistered(Pending(msgs), call);
    assert Collect(msgs) + [] == Collect(msgs);
  }

  lemma {:induction false} OneRegistered(open: map<string, Open>, call: Call)
    ensures Register(open, [call]) == open[call.id := Open(call.name, ResultKey(call))]
  {
    assert Init([call]) == [];
  }

  // ---- Errors of write calls --------------------------------------------------------------------

  function Failed(call: Call, text: string): seq<Item> {
    [Announce(call), Reply(call.id, text, true)]
  }

  lemma {:induction false} FailedEffect(msgs: seq<Item>, call: Call, text: string)
    requires call.name != ""
    ensures Collect(msgs + Failed(call, text)) == Collect(msgs) + [Result(|msgs| + 1, call, text, true)]
  {
    var once := msgs + [Announce(call)];
    OneAnnouncement(msgs, call);
    OneReply(once, call, text, true);
    TwoSteps(msgs, Announce(call), Reply(call.id, text, true));
  }

  lemma {:induction false} TwoSteps(msgs: seq<Item>, a: Item, b: Item)
    ensures msgs + [a, b] == msgs + [a] + [b]
  {
  }

  lemma {:induction false} FailedTurn(msgs: seq<Item>, call: Call, text: string)
    ensures Turn(msgs + Failed(call, text)) == Turn(msgs) + Failed(call, text)
  {
    TurnAppend(msgs, Failed(call, text));
  }

  lemma {:induction false} KeysAdd(turn: seq<Item>, call: Call, text: string)
    requires call.name != ""
    ensures ErrorKeys(turn + Failed(call, text)) == ErrorKeys(turn) + [Some(Fingerprint(call.name, Trim(text)))]
  {
    FailedEffect(turn, call, text);
    assert Init(Collect(turn) + [Result(|turn| + 1, call, text, true)]) == Collect(turn);
  }

  lemma {:induction false} FailedUnmarked(turn: seq<Item>, call: Call, text: string)
    ensures HasMarker(turn + Failed(call, text)) <==> HasMarker(turn)
  {
    MarkerStep(turn, Announce(call));
    MarkerStep(turn + [Announce(call)], Reply(call.id, text, true));
    assert turn + Failed(call, text) == turn + [Announce(call)] + [Reply(call.id, text, true)];
  }

  lemma {:induction false} TaskAlone(task: Item)
    requires task.Is(User) && !Marked(task)
    ensures Collect([task]) == [] && Turn([task]) == [task] && !HasMarker([task])
  {
    PendingStep([], task);
    assert [] + [task] == [task];
  }

  /** One kind of write fails twice in a turn that opens with a task. Uncompacted, the turn is restarted;
      when any pass runs between the two failures, the first is forgotten and nothing happens. */
  lemma {:induction false} WriteErrorsForgotten(task: Item, one: Call, two: Call, text: string, o: Options)
    requires task.Is(User) && !Marked(task)
    requires IsWriteTool(one.name) && two.name == one.name
    ensures
      var first := [task] + Failed(one, text);
      && Decide(Turn(first)) == Fine
      && Decide(Turn(first + Failed(two, text))) == Restart
      && Decide(Turn(Compacted(first, o) + Failed(two, text))) == Fine
  {
    var first := [task] + Failed(one, text);
    TaskAlone(task);
    FailsTwice(task, one, two, text);
    FailedTurn([task], one, text);
    FailedTurn(first, two, text);
    FailedEffect([task], one, text);
    assert Collect(first) == [Result(2, one, text, true)];
    ForgottenAfter(first, one, two, text, o);
  }

  /** The same two failures are hidden from the decision by a pass that runs after both: the case in which it
      changes. */
  lemma {:induction false} WriteErrorsHidden(task: Item, one: Call, two: Call, text: string, o: Options)
    requires task.Is(User) && !Marked(task)
    requires IsWriteTool(one.name) && two.name == one.name
    ensures
      var view := [task] + Failed(one, text) + Failed(two, text);
      Decide(Turn(view)) == Restart && Decide(Turn(Compacted(view, o))) == Fine
  {
    var first := [task] + Failed(one, text);
    var view := first + Failed(two, text);
    var c, d := Result(2, one, text, true), Result(4, two, text, true);
    assert |first| == 3;
    WriteLegible(2, one, text);
    WriteLegible(4, two, text);
    hide *;
    TaskAlone(task);
    FailsTwice(task, one, two, text);
    FailedTurn([task], one, text);
    FailedTurn(first, two, text);
    FailedEffect([task], one, text);
    FailedEffect(first, two, text);
    assert [] + [c] == [c] && [c] + [d] == [c, d];
    AllRemoved(view, o, c, d);
    DecisionInvisible(view, o);
    NothingTrips();
  }

  lemma {:induction false} WriteLegible(index: nat, call: Call, text: string)
    requires IsWriteTool(call.name)
    ensures
      var c := Result(index, call, text, true);
      call.name != "" && Legible(c) && !c.cleared && IsWriteTool(c.tool)
  {
    WriteNameTrimmed(call.name);
  }

  lemma {:induction false} AllRemoved(view: seq<Item>, o: Options, c: Candidate, d: Candidate)
    requires Collect(view) == [c, d] && Legible(c) && Legible(d)
    requires !c.cleared && !d.cleared && IsWriteTool(c.tool) && IsWriteTool(d.tool)
    ensures KeysOutside(Collect(view), Gone(view, o)) == [] && AllLegible(Collect(view))
  {
    hide *;
    assert c in Collect(view) && d in Collect(view);
    WriteGone(view, o, c);
    WriteGone(view, o, d);
    NoneOutside(c, d, Gone(view, o));
  }

  lemma {:induction false} WriteGone(view: seq<Item>, o: Options, c: Candidate)
    requires c in Collect(view) && !c.cleared && IsWriteTool(c.tool)
    ensures c.callId in Gone(view, o)
  {
    WriteTouches(view, o, c);
    hide Applies, Collect, IsWriteTool, KeptBy;
  }

  lemma {:induction false} NoneOutside(c: Candidate, d: Candidate, gone: set<string>)
    requires c.callId in gone && d.callId in gone && Legible(c) && Legible(d)
    ensures KeysOutside([c, d], gone) == [] && AllLegible([c, d])
  {
    hide Legible, ErrorKey;
    assert Init([c, d]) == [c] && Last([c, d]) == d && Init([c]) == [] && Last([c]) == c;
    assert KeysOutside([], gone) == [] && KeysOutside([c], gone) == [];
  }

  lemma {:induction false} NothingTrips()
    ensures !Trips([])
  {
  }

  lemma {:induction false} FailsTwice(task: Item, one: Call, two: Call, text: string)
    requires task.Is(User) && !Marked(task)
    requires IsWriteTool(one.name) && two.name == one.name
    ensures
      var first := [task] + Failed(one, text);
      Decide(first) == Fine && Decide(first + Failed(two, text)) == Restart
  {
    var first, key := [task] + Failed(one, text), Some(Fingerprint(one.name, Trim(text)));
    assert one.name != "";
    hide *;
    TaskAlone(task);
    NoKeys(task);
    KeysAdd([task], one, text);
    KeysAdd(first, two, text);
    FailedUnmarked([task], one, text);
    FailedUnmarked(first, two, text);
    assert [] + [key] == [key] && [key] + [key] == [key, key];
    DecidedByKey(first, key);
    DecidedByKey(first + Failed(two, text), key);
  }

  lemma {:induction false} NoKeys(task: Item)
    requires Collect([task]) == []
    ensures ErrorKeys([task]) == []
  {
    hide Collect;
  }

  lemma {:induction false} DecidedByKey(turn: seq<Item>, key: Option<string>)
    requires key.Some? && !HasMarker(turn)
    ensures ErrorKeys(turn) == [key] ==> Decide(turn) == Fine
    ensures ErrorKeys(turn) == [key, key] ==> Decide(turn) == Restart
  {
    hide ErrorKeys, HasMarker;
    if ErrorKeys(turn) == [key, key] {
      assert ErrorKeys(turn)[0].Some? && ErrorKeys(turn)[0] == ErrorKeys(turn)[1];
    }
  }

  lemma {:induction false} ForgottenAfter(first: seq<Item>, one: Call, two: Call, text: string, o: Options)
    requires Turn(first) == first && Collect(first) == [Result(2, one, text, true)]
    requires IsWriteTool(one.name) && two.name != ""
    ensures Decide(Turn(Compacted(first, o) + Failed(two, text))) == Fine
  {
    var c := Result(2, one, text, true);
    assert c in Collect(first);
    WriteTouches(first, o, c);
    WriteNameTrimmed(one.name);
    ErrorsKept(first, o);
    assert Init([c]) == [] && c.callId in PlanFor(first, o).collapse;
    var out := Compacted(first, o);
    assert ErrorKeys(Turn(out)) == [];
    FailedTurn(out, two, text);
    KeysAdd(Turn(out), two, text);
  }

  lemma {:induction false} WriteNameTrimmed(tool: string)
    requires IsWriteTool(tool)
    ensures tool != "" && !IsSpace(tool[0])
  {
  }

  lemma {:induction false} WriteTouches(view: seq<Item>, o: Options, c: Candidate)
    requires c in Collect(view) && !c.cleared && IsWriteTool(c.tool)
    ensures Applies(view, o)
  {
    var plan := PlanFor(view, o);
    var i, call := CallBehindCandidate(view, c);
    if !Drops(view[i].content, plan) {
      UntouchedCalls(view[i].content, plan);
      assert false;
    }
    assert Touches(view[i], plan);
  }

  // ---- A write call announced beside a read call ------------------------------------------------

  function Mixed(write: Call, read: Call): Item {
    Message(Assistant, [CallBlock(write), CallBlock(read)], NO_METADATA)
  }

  lemma {:induction false} MixedBlocks(write: Call, read: Call)
    ensures CallsOf(Mixed(write, read).content) == [write, read]
  {
    assert Mixed(write, read).content == [CallBlock(write)] + [CallBlock(read)];
    CallsOfAppend([CallBlock(write)], [CallBlock(read)]);
    OneBlock([CallBlock(write)]);
    OneBlock([CallBlock(read)]);
  }

  lemma {:induction false} MixedCalls(write: Call, read: Call)
    requires write.id != read.id
    ensures
      var open := Pending([Mixed(write, read)]);
      && open.Keys == {write.id, read.id}
      && open[write.id] == Open(write.name, ResultKey(write)) && open[read.id] == Open(read.name, ResultKey(read))
    ensures Collect([Mixed(write, read)]) == []
  {
    var msg := Mixed(write, read);
    MixedBlocks(write, read);
    PendingStep([], msg);
    assert [] + [msg] == [msg];
    TwoRegistered(write, read);
  }

  lemma {:induction false} TwoRegistered(write: Call, read: Call)
    ensures Register(map[], [write, read]) ==
            map[write.id := Open(write.name, ResultKey(write))][read.id := Open(read.name, ResultKey(read))]
  {
    RegisterAppend(map[], [write], [read]);
    assert [write] + [read] == [write, read];
    OneRegistered(map[], write);
    OneRegistered(Register(map[], [write]), read);
  }

  /** One assistant message announces a write and another call; both are answered. The receipt of the write
      is exposed, so the second pass rewrites the history again. */
  lemma {:induction false} MixedMessageExposes(write: Call, read: Call, saved: string, prose: string, o: Options)
    requires IsWriteTool(write.name) && read.name != "" && !IsWriteTool(read.name) && write.id != read.id
    requires Trim(saved) != ""
    ensures
      var view := [Mixed(write, read), Reply(write.id, saved, false), Reply(read.id, prose, false)];
      Exposed(view, o) && Applies(Compacted(view, o), o)
  {
    var msg := Mixed(write, read);
    var two := [msg] + [Reply(write.id, saved, false)];
    var view := [msg, Reply(write.id, saved, false), Reply(read.id, prose, false)];
    MixedBlocks(write, read);
    MixedCalls(write, read);
    OneReply([msg], write, saved, false);
    OneReply(two, read, prose, false);
    assert view == two + [Reply(read.id, prose, false)];
    var c, d := Result(1, write, saved, false), Result(2, read, prose, false);
    var cands := Collect(view);
    assert cands == [c, d];
    hide Collect, KeptBy, PlanOf, ReceiptText, ExposesReceipt, Applies, Compacted, Trim, IsWriteTool, CallsOf;
    MixedExposed(msg.content, write, read, c, d, KeptBy(view, o), o.dropNovel);
    assert ExposesReceipt(view[0].content, PlanFor(view, o));
    SecondPass(view, o);
  }

  lemma {:induction false} MixedExposed(content: seq<Block>, write: Call, read: Call, c: Candidate, d: Candidate, kept: set<nat>, drop: bool)
    requires content == [CallBlock(write), CallBlock(read)] && CallsOf(content) == [write, read]
    requires c.callId == write.id && !c.cleared && IsWriteTool(c.tool) && c.text != ""
    requires d.callId == read.id && !IsWriteTool(d.tool) && write.id != read.id
    ensures ExposesReceipt(content, PlanOf([c, d], kept, drop))
  {
    var plan, cands := PlanOf([c, d], kept, drop), [c, d];
    MixedPlan(write, read, c, d, kept, drop);
    assert content[0] in content;
    hide PlanOf, ReceiptBlocks, ReceiptText, CallsOf;
    ReceiptNonBlank(c.tool, c.text);
    ReceiptMembers(content, plan, write);
    assert CallsOf(content)[1].id !in plan.collapse;
  }

  lemma {:induction false} MixedPlan(write: Call, read: Call, c: Candidate, d: Candidate, kept: set<nat>, drop: bool)
    requires c.callId == write.id && !c.cleared && IsWriteTool(c.tool) && c.text != ""
    requires d.callId == read.id && !IsWriteTool(d.tool) && write.id != read.id
    ensures
      var plan := PlanOf([c, d], kept, drop);
      && plan.collapse == {write.id} && plan.completed == {write.id, read.id}
      && plan.receipts == map[write.id := ReceiptText(c.tool, c.text)]
  {
    hide IsWriteTool, ReceiptText;
    var cands := [c, d];
    assert c in cands && d in cands;
    assert NewestWrite(cands, 0);
    ReceiptOfNewest(cands, 0);
  }

  // ---- Tool names with a leading blank ----------------------------------------------------------

  /** A tool name with a leading blank loses it when its fingerprint is read back, and then counts together
      with the tool of the plain name. */
  lemma {:induction false} BlankNameMerges(tool: string, text: string)
    requires tool != "" && !IsSpace(tool[0])
    ensures Fingerprint(" " + tool, text) != Fingerprint(tool, text)
    ensures Trim(Fingerprint(" " + tool, text)) == Fingerprint(tool, text)
  {
    var f, g := Fingerprint(" " + tool, text), Fingerprint(tool, text);
    assert f == " " + g;
    FingerprintReadBack(tool, text);
    TrimLeadingBlank(g);
  }
}
