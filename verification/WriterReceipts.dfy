/** How long the receipt of the latest write lasts in the Writer's history. */
module WriterReceipts {
  import opened Sequences
  import Text
  import opened WriterHistory
  import opened WriterPass
  import opened WriterCompaction
  import opened WriterProtocol
  import opened WriterLimits

  // ---- Answering every call ---------------------------------------------------------------------

  function CallIds(calls: seq<Call>): seq<string> {
    if calls == [] then [] else CallIds(Init(calls)) + [Last(calls).id]
  }

  function AnnouncedIds(msgs: seq<Item>): seq<string> {
    if msgs == [] then []
    else AnnouncedIds(Init(msgs)) + (if Last(msgs).Is(Assistant) then CallIds(CallsOf(Last(msgs).content)) else [])
  }

  function Ask(id: string): Call {
    Call(id, READ_CHAPTER, "", Text.None)
  }

  /** Announces every call ID once more and answers it. */
  function Answers(ids: seq<string>): seq<Item> {
    if ids == [] then [] else Answers(Init(ids)) + [Announce(Ask(Last(ids))), Reply(Last(ids), "", false)]
  }

  lemma {:induction false} CallIdsAre(calls: seq<Call>, i: nat)
    requires i < |calls|
    ensures calls[i].id in CallIds(calls)
  {
    if i < |calls| - 1 {
      CallIdsAre(Init(calls), i);
    }
  }

  lemma {:induction false} IdsAnnounced(msgs: seq<Item>, x: Item, i: nat)
    requires x in msgs && x.Is(Assistant) && i < |CallsOf(x.content)|
    ensures CallsOf(x.content)[i].id in AnnouncedIds(msgs)
  {
    Split(msgs);
    if x == Last(msgs) {
      CallIdsAre(CallsOf(x.content), i);
    } else {
      assert x in Init(msgs);
      IdsAnnounced(Init(msgs), x, i);
    }
  }

  lemma {:induction false} AnswersShowNothing(ids: seq<string>, x: Item)
    requires x in Answers(ids) && x.Is(Assistant)
    ensures forall b | b in x.content :: !Narrative(b)
  {
    if x in Answers(Init(ids)) {
      AnswersShowNothing(Init(ids), x);
    }
  }

  lemma {:induction false} AnswerEffect(msgs: seq<Item>, id: string)
    ensures exists c :: Collect(msgs + [Announce(Ask(id)), Reply(id, "", false)]) == Collect(msgs) + [c] && c.callId == id && !IsWriteTool(c.tool)
  {
    var call := Ask(id);
    var c := Result(|msgs| + 1, call, "", false);
    assert call.name != "" && c.callId == id && !IsWriteTool(c.tool);
    hide *;
    var all := msgs + [Announce(call)] + [Reply(call.id, "", false)];
    OneAnnouncement(msgs, call);
    OneReply(msgs + [Announce(call)], call, "", false);
    assert call.id == id && msgs + [Announce(call), Reply(id, "", false)] == all;
    assert Collect(all) == Collect(msgs) + [c];
  }

  lemma {:induction false} AnswersEffect(msgs: seq<Item>, ids: seq<string>)
    ensures forall c | c in Collect(msgs + Answers(ids)) :: c in Collect(msgs) || !IsWriteTool(c.tool)
    ensures forall id | id in ids :: id in CompletedIds(Collect(msgs + Answers(ids)))
  {
    hide Collect, IsWriteTool, Announce, Reply;
    if ids == [] {
      assert msgs + [] == msgs;
    } else {
      var pair := [Announce(Ask(Last(ids))), Reply(Last(ids), "", false)];
      var before := msgs + Answers(Init(ids));
      AnswersEffect(msgs, Init(ids));
      AnswerEffect(before, Last(ids));
      assert msgs + Answers(ids) == before + pair;
      var c :| Collect(before + pair) == Collect(before) + [c] && c.callId == Last(ids) && !IsWriteTool(c.tool);
      Split(ids);
      hide Answers;
      assert c in Collect(before) + [c] && forall d | d in Collect(before) :: d in Collect(before) + [c];
    }
  }

  // ---- Stripping every message that has a call --------------------------------------------------

  /** Some message shows the text and announces no call. */
  ghost predicate ShownAlone(msgs: seq<Item>, text: string) {
    exists x :: x in msgs && Shows(x, text) && CallsOf(x.content) == []
  }

  ghost predicate Lasts(msgs: seq<Item>, rounds: seq<Round>, text: string) {
    exists x :: x in Run(msgs, rounds) && Shows(x, text)
  }

  /** When only messages with calls show the text, a pass after all calls were answered removes it. */
  lemma {:induction false} AnsweredThenGone(msgs: seq<Item>, o: Options, text: string, x: Item)
    requires forall c | c in Collect(msgs) :: c.cleared || !IsWriteTool(c.tool)
    requires !ShownAlone(msgs, text) && x in Compacted(msgs + Answers(AnnouncedIds(msgs)), o)
    ensures !Shows(x, text)
  {
    var ids := AnnouncedIds(msgs);
    var all := msgs + Answers(ids);
    var plan := PlanFor(all, o);
    AnswersEffect(msgs, ids);
    CollapseDone(Collect(all), KeptBy(all, o), o.dropNovel);
    hide Collect, Answers, AnnouncedIds, KeptBy, ShownAlone, IsWriteTool;
    assert plan.collapse == {} && forall id | id in ids :: id in plan.completed;
    if Shows(x, text) {
      var item := x;
      if Applies(all, o) {
        var i := OutputOrigin(all, o, x);
        item := all[i];
      }
      hide Applies, Compacted, PlanFor;
      ItemSilent(msgs, item, plan, o.note, text);
    }
  }

  lemma {:induction false} ItemSilent(msgs: seq<Item>, item: Item, plan: Plan, note: string, text: string)
    requires !ShownAlone(msgs, text) && item in msgs + Answers(AnnouncedIds(msgs)) && item.Is(Assistant)
    requires plan.collapse == {} && plan.compact <= plan.completed
    requires forall id | id in AnnouncedIds(msgs) :: id in plan.completed
    ensures Shows(item, text) ==> Drops(item.content, plan)
    ensures |HistoryItem(item, plan, note)| == 1 && !Shows(HistoryItem(item, plan, note)[0], text)
  {
    if Drops(item.content, plan) {
      StrippedItem(item, plan, note);
    } else if Shows(item, text) {
      DropsNarrative(item.content, plan);
      assert Narrative(TextBlock(text));
      if item in Answers(AnnouncedIds(msgs)) {
        AnswersShowNothing(AnnouncedIds(msgs), item);
      } else {
        forall i | 0 <= i < |CallsOf(item.content)|
          ensures CallsOf(item.content)[i].id in plan.completed
        {
          IdsAnnounced(msgs, item, i);
        }
      }
      assert false;
    }
  }

  // ---- The receipt ------------------------------------------------------------------------------

  lemma {:induction false} NewestApplies(view: seq<Item>, o: Options, k: nat)
    requires NewestWrite(Collect(view), k)
    ensures forall c | c in Collect(Compacted(view, o)) :: c.cleared || !IsWriteTool(c.tool)
  {
    WriteTouches(view, o, Collect(view)[k]);
    NextPlan(view, o);
    NoneRemoved(Rewrite(view, o), o);
    hide Rewrite, NewestWrite, Collect, KeptBy, IsWriteTool;
  }

  lemma {:induction false} NoneRemoved(msgs: seq<Item>, o: Options)
    requires PlanFor(msgs, o).collapse == {}
    ensures forall c | c in Collect(msgs) :: c.cleared || !IsWriteTool(c.tool)
  {
    hide Collect, KeptBy, IsWriteTool;
    NothingCollapses(Collect(msgs));
  }

  lemma {:induction false} NothingCollapses(cands: seq<Candidate>)
    ensures CollapseIds(cands) == {} <==> forall c | c in cands :: c.cleared || !IsWriteTool(c.tool)
  {
    hide IsWriteTool;
    if c :| c in cands && !c.cleared && IsWriteTool(c.tool) {
      assert c.callId in CollapseIds(cands);
    }
  }

  lemma {:induction false} AloneForever(out: seq<Item>, text: string, rounds: seq<Round>)
    requires ShownAlone(out, text)
    ensures Lasts(out, rounds, text)
  {
    hide Run;
    var x :| x in out && Shows(x, text) && CallsOf(x.content) == [];
    CallFreeForever(out, rounds, x);
  }

  lemma {:induction false} GoneSomeday(out: seq<Item>, o: Options, text: string) returns (rounds: seq<Round>)
    requires forall c | c in Collect(out) :: c.cleared || !IsWriteTool(c.tool)
    requires !ShownAlone(out, text)
    ensures !Lasts(out, rounds, text)
  {
    hide Run, Shows, Answers, AnnouncedIds, Compacted, Collect, ShownAlone, IsWriteTool;
    rounds := [Append(Answers(AnnouncedIds(out))), Pass(o)];
    TwoRounds(out, Answers(AnnouncedIds(out)), o);
    forall x | x in Run(out, rounds)
      ensures !Shows(x, text)
    {
      AnsweredThenGone(out, o, text, x);
    }
  }

  /** After a pass the receipt outlives every later sequence of appended messages and passes exactly when some
      message that shows it announces no call. */
  lemma {:induction false} ReceiptSurvivesIff(view: seq<Item>, o: Options, k: nat)
    requires NewestWrite(Collect(view), k) && Collect(view)[k].text != ""
    ensures
      var receipt := ReceiptText(Collect(view)[k].tool, Collect(view)[k].text);
      (forall rounds :: Lasts(Compacted(view, o), rounds, receipt))
      <==> ShownAlone(Compacted(view, o), receipt)
  {
    var receipt := ReceiptText(Collect(view)[k].tool, Collect(view)[k].text);
    var out := Compacted(view, o);
    hide *;
    NewestApplies(view, o, k);
    if ShownAlone(out, receipt) {
      forall rounds
        ensures Lasts(out, rounds, receipt)
      {
        AloneForever(out, receipt, rounds);
      }
    } else {
      var rounds := GoneSomeday(out, o, receipt);
      assert !Lasts(out, rounds, receipt);
    }
  }

  lemma {:induction false} TwoRounds(view: seq<Item>, items: seq<Item>, o: Options)
    ensures Run(view, [Append(items), Pass(o)]) == Compacted(view + items, o)
  {
    hide Compacted;
    var rounds := [Append(items), Pass(o)];
    assert Init(rounds) == [Append(items)] && Init([Append(items)]) == [];
    assert Run(view, [Append(items)]) == view + items;
  }
}
