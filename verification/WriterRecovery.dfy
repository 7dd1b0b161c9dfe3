/** The repeated-error accounting of the Writer and the strategy that decides between restart, give-up and
    compaction. */
module WriterRecovery {
  import opened Sequences
  import opened Text
  import opened WriterHistory
  import opened WriterPass

  // ---- The current turn -------------------------------------------------------------------------

  /** The history from its last user message on, or all of it. */
  function Turn(msgs: seq<Item>): seq<Item> {
    if msgs == [] then []
    else if Last(msgs).Is(User) then [Last(msgs)]
    else Turn(Init(msgs)) + [Last(msgs)]
  }

  const DISPATCH_PREFIXES: seq<string> := ["写第 ", "恢复第", "重写第 ", "打磨第 "]

  predicate IsDispatch(item: Item) {
    item.Is(User) && exists i | 0 <= i < |DISPATCH_PREFIXES| :: HasPrefix(Trim(TextOf(item.content)), DISPATCH_PREFIXES[i])
  }

  /** The history from the newest dispatched task on, or all of it. */
  function DispatchTurn(msgs: seq<Item>): seq<Item> {
    if msgs == [] then []
    else if IsDispatch(Last(msgs)) then [Last(msgs)]
    else DispatchTurn(Init(msgs)) + [Last(msgs)]
  }

  // ---- Counting errors --------------------------------------------------------------------------

  const RECOVERY_MARKER := "[Writer clean recovery]"

  predicate Marked(item: Item) {
    item.Is(User) && Contains(TextOf(item.content), RECOVERY_MARKER)
  }

  predicate HasMarker(turn: seq<Item>) {
    exists i | 0 <= i < |turn| :: Marked(turn[i])
  }

  /** The class an error result counts under; nothing for a cleared result that lost its class. */
  function ErrorKey(c: Candidate): Option<string> {
    if c.fingerprint != "" then Some(c.fingerprint)
    else if c.cleared then None
    else Some(Fingerprint(c.tool, c.text))
  }

  /** The error classes of the results outside the given calls, in order. */
  function KeysOutside(cands: seq<Candidate>, gone: set<string>): seq<Option<string>> {
    if cands == [] then [] else
      KeysOutside(Init(cands), gone) +
      (if Last(cands).isError && Last(cands).callId !in gone then [ErrorKey(Last(cands))] else [])
  }

  function ErrorKeys(turn: seq<Item>): seq<Option<string>> {
    KeysOutside(Collect(turn), {})
  }

  predicate Repeats(keys: seq<Option<string>>) {
    exists i, j | 0 <= i < j < |keys| :: keys[i].Some? && keys[i] == keys[j]
  }

  /** Two errors of one class, or four errors in all. */
  predicate Trips(keys: seq<Option<string>>) {
    Repeats(keys) || |keys| >= 4
  }

  datatype Decision = Fine | Restart | GiveUp

  function Decide(turn: seq<Item>): Decision {
    if !Trips(ErrorKeys(turn)) then Fine else if HasMarker(turn) then GiveUp else Restart
  }

  // ---- The strategy -----------------------------------------------------------------------------

  datatype Strategy = Strategy(keep: int, note: string, instructions: string)

  /** What one application returns: an error, the clean restart, or the history compacted or as it was. */
  datatype Outcome = Exhausted | Restarted(view: seq<Item>) | Advanced(view: seq<Item>, applied: bool)

  predicate HasValidation(turn: seq<Item>) {
    exists c :: c in Collect(turn) && IsValidationTool(c.tool) && !c.isError
  }

  predicate HasPersistedDraft(turn: seq<Item>) {
    exists c :: c in Collect(turn) && IsWriteTool(c.tool)
  }

  predicate IsEvidence(c: Candidate) {
    !c.cleared && (c.tool == NOVEL_CONTEXT || c.tool == READ_CHAPTER)
  }

  predicate HasDuplicateEvidence(cands: seq<Candidate>) {
    exists i, j | 0 <= i < j < |cands| :: IsEvidence(cands[i]) && IsEvidence(cands[j]) && cands[i].key == cands[j].key
  }

  function ResultIds(turn: seq<Item>): set<string> {
    set i | 0 <= i < |turn| && turn[i].Is(Tool) && turn[i].meta.callId != "" :: turn[i].meta.callId
  }

  predicate Rationale(item: Item, done: set<string>) {
    && item.Is(Assistant) && CallsOf(item.content) != [] && AllIn(CallsOf(item.content), done)
    && (ThinkingOf(item.content) != "" || TextOf(item.content) != "")
  }

  predicate HasRationale(turn: seq<Item>) {
    exists i | 0 <= i < |turn| :: Rationale(turn[i], ResultIds(turn))
  }

  function RestartMessage(s: Strategy): Item {
    Message(User, [TextBlock(RECOVERY_MARKER + s.instructions)], NO_METADATA)
  }

  function OptionsFor(turn: seq<Item>, s: Strategy): Options {
    Options(s.keep, s.note,
            HasDuplicateEvidence(Collect(turn)) && !HasValidation(turn) && !HasPersistedDraft(turn), HasValidation(turn))
  }

  function Apply(view: seq<Item>, s: Strategy): Outcome {
    var turn := Turn(view);
    match Decide(turn)
    case GiveUp => Exhausted
    case Restart => if turn == [] then Advanced(view, false) else Restarted([turn[0], RestartMessage(s)])
    case Fine =>
      if HasValidation(turn) || HasPersistedDraft(turn) || HasDuplicateEvidence(Collect(turn)) || HasRationale(turn) then
        var o := OptionsFor(turn, s);
        Advanced(Compacted(view, o), Applies(view, o))
      else Advanced(view, false)
  }

  // ---- Fingerprints survive clearing ------------------------------------------------------------

  lemma {:induction false} KindEnds(text: string)
    ensures ErrorKind(text) != "" && 'a' <= ErrorKind(text)[|ErrorKind(text)| - 1] <= 'z'
  {
    hide Contains, Lower;
  }

  lemma {:induction false} LetterIsNoSpace(c: char)
    requires 'a' <= c <= 'z'
    ensures !IsSpace(c)
  {
  }

  /** A stored fingerprint is read back unchanged exactly when the tool name has no leading blank. */
  lemma {:induction false} FingerprintReadBack(tool: string, text: string)
    requires tool != ""
    ensures Trim(Fingerprint(tool, text)) == Fingerprint(tool, text) <==> !IsSpace(tool[0])
    ensures Fingerprint(tool, text) != ""
  {
    hide Trim, ErrorKind, IsSpace;
    var f, kind := Fingerprint(tool, text), ErrorKind(text);
    KindEnds(text);
    LetterIsNoSpace(kind[|kind| - 1]);
    TrimFixed(f);
    assert f[0] == tool[0];
    assert f[|f| - 1] == kind[|kind| - 1];
  }

  // ---- One pass, seen from the turn -------------------------------------------------------------

  /** An error result is legible when its class is stored or can be computed and stored again. */
  predicate Legible(c: Candidate) {
    c.isError && !c.cleared ==> c.fingerprint == "" && c.tool != "" && !IsSpace(c.tool[0])
  }

  ghost predicate AllLegible(cands: seq<Candidate>) {
    forall c | c in cands :: Legible(c)
  }

  lemma {:induction false} TurnPending(view: seq<Item>)
    ensures forall id | id in Pending(Turn(view)) :: id in Pending(view) && Pending(view)[id] == Pending(Turn(view))[id]
  {
    if view != [] {
      TurnPending(Init(view));
      PendingStep([], Last(view));
      assert [] + [Last(view)] == [Last(view)];
      PendingStep(Turn(Init(view)), Last(view));
      if Last(view).Is(Assistant) {
        RegisterAgrees(Pending(Turn(Init(view))), Pending(Init(view)), CallsOf(Last(view).content));
      }
    }
  }

  lemma {:induction false} RegisterAgrees(a: map<string, Open>, b: map<string, Open>, calls: seq<Call>)
    requires forall id | id in a :: id in b && b[id] == a[id]
    ensures forall id | id in Register(a, calls) :: id in Register(b, calls) && Register(b, calls)[id] == Register(a, calls)[id]
  {
    if calls != [] {
      RegisterAgrees(a, b, Init(calls));
    }
  }

  /** What the pass makes of a turn: same announced calls and error classes outside the removed exchanges,
      same opening user message, same marker. */
  ghost predicate TurnMirrors(turn: seq<Item>, after: seq<Item>, gone: set<string>) {
    && Pending(after) == Pending(turn) - gone
    && (AllLegible(Collect(turn)) ==> ErrorKeys(after) == KeysOutside(Collect(turn), gone))
    && Opens(turn, after)
    && (HasMarker(after) <==> HasMarker(turn))
  }

  lemma {:induction false} KeysStep(turn: seq<Item>, item: Item, gone: set<string>)
    ensures KeysOutside(Collect(turn + [item]), gone) ==
            KeysOutside(Collect(turn), gone) +
            (match CandidateOf(item, |turn|, Pending(turn))
             case Some(c) => if c.isError && c.callId !in gone then [ErrorKey(c)] else []
             case None => [])
    ensures AllLegible(Collect(turn + [item])) ==> AllLegible(Collect(turn))
  {
    PendingStep(turn, item);
    match CandidateOf(item, |turn|, Pending(turn))
    case Some(c) =>
      assert Init(Collect(turn) + [c]) == Collect(turn);
      assert forall d | d in Collect(turn) :: d in Collect(turn) + [c];
    case None =>
      assert Collect(turn + [item]) == Collect(turn);
  }

  lemma {:induction false} MarkerStep(turn: seq<Item>, item: Item)
    ensures HasMarker(turn + [item]) <==> HasMarker(turn) || Marked(item)
  {
    var all := turn + [item];
    if i :| 0 <= i < |turn| && Marked(turn[i]) {
      assert Marked(all[i]);
    }
    if Marked(item) {
      assert Marked(all[|turn|]);
    }
    if i :| 0 <= i < |all| && Marked(all[i]) {
      assert i < |turn| ==> Marked(turn[i]);
    }
  }

  lemma {:induction false} TurnAssistant(turn: seq<Item>, after: seq<Item>, item: Item, plan: Plan, note: string)
    requires item.Is(Assistant) && TurnMirrors(turn, after, plan.collapse)
    ensures TurnMirrors(turn + [item], after + HistoryItem(item, plan, note), plan.collapse)
  {
    AssistantItem(item, plan, note);
    var x := HistoryItem(item, plan, note)[0];
    assert HistoryItem(item, plan, note) == [x];
    assert !Marked(item) && !Marked(x);
    assert CandidateOf(item, |turn|, Pending(turn)) == None && CandidateOf(x, |after|, Pending(after)) == None;
    MirrorsIff(turn, after, plan.collapse);
    PendingStep(turn, item);
    PendingStep(after, x);
    RegisterWithout(Pending(turn), CallsOf(item.content), plan.collapse);
    KeysStep(turn, item, plan.collapse);
    KeysStep(after, x, {});
    hide *;
    MirrorsGrow(turn, after, item, x, plan.collapse);
  }

  /** The opening message survives. */
  predicate Opens(turn: seq<Item>, after: seq<Item>) {
    && (turn == [] ==> after == [])
    && (turn != [] && turn[0].Is(User) ==> after != [] && after[0] == turn[0])
  }

  lemma {:induction false} SameOpening(turn: seq<Item>, after: seq<Item>, item: Item, x: Item)
    requires Opens(turn, after) && (item.Is(User) ==> x == item)
    ensures Opens(turn + [item], after + [x])
  {
  }

  lemma {:induction false} MirrorsIff(turn: seq<Item>, after: seq<Item>, gone: set<string>)
    ensures TurnMirrors(turn, after, gone) <==>
            && Pending(after) == Pending(turn) - gone && Opens(turn, after) && (HasMarker(after) <==> HasMarker(turn))
            && (AllLegible(Collect(turn)) ==> KeysOutside(Collect(after), {}) == KeysOutside(Collect(turn), gone))
  {
    hide Pending, Collect, KeysOutside, HasMarker, AllLegible;
  }

  /** What one more message adds to a turn and its image. */
  lemma {:induction false} MirrorsGrow(turn: seq<Item>, after: seq<Item>, item: Item, x: Item, gone: set<string>)
    requires TurnMirrors(turn, after, gone)
    requires Marked(item) == Marked(x) && (item.Is(User) ==> x == item)
    requires Pending(after + [x]) == Pending(turn + [item]) - gone
    requires AllLegible(Collect(turn + [item])) ==>
               KeysOutside(Collect(after + [x]), {}) == KeysOutside(Collect(turn + [item]), gone)
    ensures TurnMirrors(turn + [item], after + [x], gone)
  {
    hide *;
    MirrorsIff(turn, after, gone);
    MarkerStep(turn, item);
    MarkerStep(after, x);
    SameOpening(turn, after, item, x);
    MirrorsIff(turn + [item], after + [x], gone);
  }

  /** One error result before and after clearing, once legible. */
  lemma {:induction false} ResultKeyKept(
      item: Item, whole: map<string, Open>, open: map<string, Open>, index: nat, at: nat, at': nat, kept: set<nat>,
      gone: set<string>, note: string)
    requires item.Is(Tool) && item.meta.callId !in gone
    requires forall id | id in open :: id in whole && whole[id] == open[id]
    ensures
      var c, cleared := CandidateOf(item, at, open), ClearItem(item, CandidateOf(item, index, whole), kept, note);
      var d := CandidateOf(cleared, at', open - gone);
      && (d.Some? <==> c.Some?)
      && (c.Some? ==> d.value.isError == c.value.isError &&
                      (Legible(c.value) && c.value.isError ==> ErrorKey(d.value) == ErrorKey(c.value)))
  {
    var c := CandidateOf(item, at, open);
    if c.Some? && c.value.isError && Legible(c.value) && !c.value.cleared {
      FingerprintReadBack(c.value.tool, c.value.text);
    }
  }

  lemma {:induction false} TurnResultGone(turn: seq<Item>, after: seq<Item>, item: Item, gone: set<string>)
    requires item.Is(Tool) && item.meta.callId in gone && TurnMirrors(turn, after, gone)
    ensures TurnMirrors(turn + [item], after, gone)
  {
    PendingStep(turn, item);
    KeysStep(turn, item, gone);
    MarkerStep(turn, item);
  }

  lemma {:induction false} TurnResultKept(
      whole: map<string, Open>, index: nat, turn: seq<Item>, after: seq<Item>, item: Item, kept: set<nat>,
      gone: set<string>, note: string)
    requires item.Is(Tool) && item.meta.callId !in gone && TurnMirrors(turn, after, gone)
    requires forall id | id in Pending(turn) :: id in whole && whole[id] == Pending(turn)[id]
    ensures TurnMirrors(turn + [item], after + [ClearItem(item, CandidateOf(item, index, whole), kept, note)], gone)
  {
    var cleared := ClearItem(item, CandidateOf(item, index, whole), kept, note);
    MirrorsIff(turn, after, gone);
    PendingStep(turn, item);
    PendingStep(after, cleared);
    assert !Marked(item) && !Marked(cleared);
    hide *;
    ResultKeys(whole, index, turn, after, item, cleared, kept, gone, note);
    MirrorsGrow(turn, after, item, cleared, gone);
  }

  lemma {:induction false} ResultKeys(
      whole: map<string, Open>, index: nat, turn: seq<Item>, after: seq<Item>, item: Item, cleared: Item, kept: set<nat>,
      gone: set<string>, note: string)
    requires item.Is(Tool) && item.meta.callId !in gone && cleared == ClearItem(item, CandidateOf(item, index, whole), kept, note)
    requires Pending(after) == Pending(turn) - gone
    requires AllLegible(Collect(turn)) ==> KeysOutside(Collect(after), {}) == KeysOutside(Collect(turn), gone)
    requires forall id | id in Pending(turn) :: id in whole && whole[id] == Pending(turn)[id]
    ensures AllLegible(Collect(turn + [item])) ==>
              KeysOutside(Collect(after + [cleared]), {}) == KeysOutside(Collect(turn + [item]), gone)
  {
    var c, d := CandidateOf(item, |turn|, Pending(turn)), CandidateOf(cleared, |after|, Pending(after));
    ResultKeyKept(item, whole, Pending(turn), index, |turn|, |after|, kept, gone, note);
    PendingStep(turn, item);
    assert d.Some? ==> d.value.callId == item.meta.callId;
    assert c.Some? ==> c.value.callId == item.meta.callId;
    hide CandidateOf, ClearItem, Collect, Pending, KeysOutside, ErrorKey, Legible;
    KeysStep(turn, item, gone);
    KeysStep(after, cleared, {});
    if c.Some? {
      assert c.value in Collect(turn) + [c.value];
    }
  }

  lemma {:induction false} TurnResult(
      view: seq<Item>, turn: seq<Item>, after: seq<Item>, item: Item, kept: set<nat>, plan: Plan, note: string)
    requires item.Is(Tool) && TurnMirrors(turn, after, plan.collapse)
    requires forall id | id in Pending(turn) :: id in Pending(view) && Pending(view)[id] == Pending(turn)[id]
    ensures
      var cleared := ClearItem(item, CandidateOf(item, |view|, Pending(view)), kept, note);
      TurnMirrors(turn + [item], after + HistoryItem(cleared, plan, note), plan.collapse)
  {
    var cleared := ClearItem(item, CandidateOf(item, |view|, Pending(view)), kept, note);
    if item.meta.callId in plan.collapse {
      TurnResultGone(turn, after, item, plan.collapse);
      assert after + HistoryItem(cleared, plan, note) == after;
    } else {
      TurnResultKept(Pending(view), |view|, turn, after, item, kept, plan.collapse, note);
      assert HistoryItem(cleared, plan, note) == [cleared];
    }
  }

  lemma {:induction false} TurnOther(turn: seq<Item>, after: seq<Item>, item: Item, gone: set<string>)
    requires !item.Is(Tool) && !item.Is(Assistant) && TurnMirrors(turn, after, gone)
    ensures TurnMirrors(turn + [item], after + [item], gone)
  {
    PendingStep(turn, item);
    PendingStep(after, item);
    KeysStep(turn, item, gone);
    KeysStep(after, item, {});
    MarkerStep(turn, item);
    MarkerStep(after, item);
  }

  lemma {:induction false} TurnAppend(msgs: seq<Item>, items: seq<Item>)
    requires forall i | 0 <= i < |items| :: !items[i].Is(User)
    ensures Turn(msgs + items) == Turn(msgs) + items
    decreases |items|
  {
    if items == [] {
      assert msgs + items == msgs;
    } else {
      assert Init(msgs + items) == msgs + Init(items);
      TurnAppend(msgs, Init(items));
    }
  }

  lemma {:induction false} TurnPass(view: seq<Item>, kept: set<nat>, plan: Plan, note: string)
    ensures TurnMirrors(Turn(view), Turn(History(Clear(view, kept, note), plan, note)), plan.collapse)
  {
    if view != [] {
      hide *;
      Split(view);
      var init, item := Init(view), Last(view);
      TurnPass(init, kept, plan, note);
      TurnPassStep(init, item, History(Clear(init, kept, note), plan, note), kept, plan, note);
      RewriteStep(init, item, kept, plan, note);
    }
  }

  lemma {:induction false} TurnPassStep(init: seq<Item>, item: Item, before: seq<Item>, kept: set<nat>, plan: Plan, note: string)
    requires TurnMirrors(Turn(init), Turn(before), plan.collapse)
    ensures
      var cleared := ClearItem(item, CandidateOf(item, |init|, Pending(init)), kept, note);
      TurnMirrors(Turn(init + [item]), Turn(before + HistoryItem(cleared, plan, note)), plan.collapse)
  {
    var cleared := ClearItem(item, CandidateOf(item, |init|, Pending(init)), kept, note);
    if item.Is(User) {
      TurnUser(init, before, item, plan.collapse);
    } else {
      HistoryItemRole(cleared, plan, note);
      TurnAppend(before, HistoryItem(cleared, plan, note));
      TurnAppend(init, [item]);
      TurnItem(init, Turn(init), Turn(before), item, kept, plan, note);
    }
  }

  lemma {:induction false} HistoryItemRole(item: Item, plan: Plan, note: string)
    requires !item.Is(User)
    ensures forall i | 0 <= i < |HistoryItem(item, plan, note)| :: !HistoryItem(item, plan, note)[i].Is(User)
  {
  }

  lemma {:induction false} TurnUser(init: seq<Item>, before: seq<Item>, item: Item, gone: set<string>)
    requires item.Is(User)
    ensures TurnMirrors(Turn(init + [item]), Turn(before + [item]), gone)
  {
    TurnOther([], [], item, gone);
    assert [] + [item] == [item];
    assert Last(init + [item]) == item && Last(before + [item]) == item;
  }

  lemma {:induction false} TurnItem(
      view: seq<Item>, turn: seq<Item>, after: seq<Item>, item: Item, kept: set<nat>, plan: Plan, note: string)
    requires turn == Turn(view) && TurnMirrors(turn, after, plan.collapse)
    ensures
      var cleared := ClearItem(item, CandidateOf(item, |view|, Pending(view)), kept, note);
      TurnMirrors(turn + [item], after + HistoryItem(cleared, plan, note), plan.collapse)
  {
    if item.Is(Assistant) {
      TurnAssistant(turn, after, item, plan, note);
    } else if item.Is(Tool) {
      TurnPending(view);
      TurnResult(view, turn, after, item, kept, plan, note);
    } else {
      TurnOther(turn, after, item, plan.collapse);
    }
  }

  // ---- Error accounting and compaction ----------------------------------------------------------

  function Gone(view: seq<Item>, o: Options): set<string> {
    if Applies(view, o) then PlanFor(view, o).collapse else {}
  }

  /** Compaction forgets exactly the errors of the write calls it removes; every other error keeps its
      class and its place. */
  lemma {:induction false} ErrorsKept(view: seq<Item>, o: Options)
    requires AllLegible(Collect(Turn(view)))
    ensures ErrorKeys(Turn(Compacted(view, o))) == KeysOutside(Collect(Turn(view)), Gone(view, o))
    ensures HasMarker(Turn(Compacted(view, o))) <==> HasMarker(Turn(view))
  {
    if Applies(view, o) {
      TurnPass(view, KeptBy(view, o), PlanFor(view, o), o.note);
    }
  }

  lemma {:induction false} RepeatsStep(keys: seq<Option<string>>, key: Option<string>)
    ensures Repeats(keys + [key]) <==> Repeats(keys) || (key.Some? && key in keys)
  {
    var all := keys + [key];
    if i, j :| 0 <= i < j < |all| && all[i].Some? && all[i] == all[j] {
      assert j < |keys| ==> keys[i] == keys[j];
      assert j == |keys| ==> keys[i] == key;
    }
    if i, j :| 0 <= i < j < |keys| && keys[i].Some? && keys[i] == keys[j] {
      assert all[i].Some? && all[i] == all[j];
    }
    if key.Some? && key in keys {
      var i :| 0 <= i < |keys| && keys[i] == key;
      assert all[i].Some? && all[i] == all[|keys|];
    }
  }

  /** Without some calls the errors are some of the errors, in order; all of them exactly when none of the calls
      failed. */
  lemma {:induction false} Forgotten(cands: seq<Candidate>, gone: set<string>)
    ensures
      var some, all := KeysOutside(cands, gone), KeysOutside(cands, {});
      && |some| <= |all| && (forall k | k in some :: k in all) && (Repeats(some) ==> Repeats(all))
      && (some == all <==> forall c | c in cands && c.isError :: c.callId !in gone)
      && (|some| == |all| ==> some == all)
  {
    hide Repeats, ErrorKey;
    if cands != [] {
      var init, c := Init(cands), Last(cands);
      Split(cands);
      Forgotten(init, gone);
      RepeatsStep(KeysOutside(init, gone), ErrorKey(c));
      RepeatsStep(KeysOutside(init, {}), ErrorKey(c));
      assert forall d :: d in cands <==> d in init || d == c;
      var some, all := KeysOutside(init, gone), KeysOutside(init, {});
      assert some + [] == some && all + [] == all;
    }
  }

  /** The errors of a turn are the same after compaction exactly when no call the pass removes failed in it. */
  lemma {:induction false} KeysKeptIff(view: seq<Item>, o: Options)
    requires AllLegible(Collect(Turn(view)))
    ensures ErrorKeys(Turn(Compacted(view, o))) == ErrorKeys(Turn(view)) <==>
            forall c | c in Collect(Turn(view)) && c.isError :: c.callId !in Gone(view, o)
  {
    hide Turn, Compacted, Collect, Gone, KeysOutside, HasMarker, AllLegible;
    ErrorsKept(view, o);
    Forgotten(Collect(Turn(view)), Gone(view, o));
  }

  /** The recovery decision is the same before and after compaction, unless the errors called for one and those
      of the calls that stay do not; then the turn passes as fine. */
  lemma {:induction false} DecisionInvisible(view: seq<Item>, o: Options)
    requires AllLegible(Collect(Turn(view)))
    ensures Decide(Turn(Compacted(view, o))) == Decide(Turn(view)) <==>
            !Trips(ErrorKeys(Turn(view))) || Trips(KeysOutside(Collect(Turn(view)), Gone(view, o)))
    ensures Decide(Turn(Compacted(view, o))) in {Decide(Turn(view)), Fine}
    ensures (forall c | c in Collect(Turn(view)) && c.isError :: c.callId !in Gone(view, o)) ==>
              Decide(Turn(Compacted(view, o))) == Decide(Turn(view))
  {
    hide Turn, Compacted, Collect, Gone, KeysOutside, HasMarker, AllLegible, Repeats;
    ErrorsKept(view, o);
    Forgotten(Collect(Turn(view)), Gone(view, o));
  }

  // ---- After a clean restart --------------------------------------------------------------------

  predicate OpenedBy(view: seq<Item>, opening: Item) {
    Turn(view) != [] && Turn(view)[0] == opening
  }

  lemma {:induction false} DispatchKeepsTurn(view: seq<Item>)
    ensures Turn(DispatchTurn(view)) == Turn(view)
  {
    if view != [] {
      DispatchKeepsTurn(Init(view));
      if !IsDispatch(Last(view)) {
        assert Init(DispatchTurn(view)) == DispatchTurn(Init(view));
      } else {
        assert Init([Last(view)]) == [];
      }
    }
  }

  lemma {:induction false} RestartMarked(s: Strategy)
    ensures Marked(RestartMessage(s))
  {
    OneBlock(RestartMessage(s).content);
  }

  /** A projection of the history: cut to the newest dispatch, then apply the strategy. */
  datatype Move = Extend(items: seq<Item>) | Project

  predicate LegalMove(m: Move) {
    m.Extend? ==> forall i | 0 <= i < |m.items| :: m.items[i].Is(Assistant) || m.items[i].Is(Tool)
  }

  /** The history after some moves; nothing once the strategy gave up. */
  function Play(view: seq<Item>, moves: seq<Move>, s: Strategy): Option<seq<Item>> {
    if moves == [] then Some(view)
    else
      var before := Play(view, Init(moves), s);
      if before.None? then None
      else match Last(moves)
        case Extend(items) => Some(before.value + items)
        case Project =>
          match Apply(DispatchTurn(before.value), s)
          case Exhausted => None
          case Restarted(clean) => Some(clean)
          case Advanced(next, _) => Some(next)
  }

  lemma {:induction false} MarkerOpens(view: seq<Item>, s: Strategy)
    requires OpenedBy(view, RestartMessage(s))
    ensures HasMarker(Turn(view)) && Decide(Turn(view)) != Restart
    ensures Decide(Turn(view)) == if Trips(ErrorKeys(Turn(view))) then GiveUp else Fine
  {
    RestartMarked(s);
    assert Marked(Turn(view)[0]);
  }

  lemma {:induction false} CompactedOpening(view: seq<Item>, o: Options, opening: Item)
    requires opening.Is(User) && OpenedBy(view, opening)
    ensures OpenedBy(Compacted(view, o), opening)
  {
    if Applies(view, o) {
      TurnPass(view, KeptBy(view, o), PlanFor(view, o), o.note);
    }
  }

  /** From a clean restart on, while only assistant and tool messages are appended, the turn stays opened
      by the restart message: no second restart, and repeated errors end the run. */
  lemma {:induction false} NoSecondRestart(view: seq<Item>, moves: seq<Move>, s: Strategy)
    requires OpenedBy(view, RestartMessage(s))
    requires forall i | 0 <= i < |moves| :: LegalMove(moves[i])
    ensures
      var now := Play(view, moves, s);
      now.Some? ==>
        && OpenedBy(now.value, RestartMessage(s))
        && !Apply(DispatchTurn(now.value), s).Restarted?
        && (Apply(DispatchTurn(now.value), s) == Exhausted <==> Trips(ErrorKeys(Turn(now.value))))
  {
    if moves != [] {
      assert forall i | 0 <= i < |moves| - 1 :: Init(moves)[i] == moves[i];
      NoSecondRestart(view, Init(moves), s);
      assert LegalMove(moves[|moves| - 1]);
      hide Apply, DispatchTurn, OpenedBy, ErrorKeys, Trips;
      var before := Play(view, Init(moves), s);
      if before.Some? {
        match Last(moves)
        case Extend(items) =>
          AppendOpening(before.value, items, RestartMessage(s));
        case Project =>
          ProjectOpening(before.value, s);
      }
    }
    hide *;
    var now := Play(view, moves, s);
    if now.Some? {
      ProjectOpening(now.value, s);
    }
  }

  lemma {:induction false} AppendOpening(view: seq<Item>, items: seq<Item>, opening: Item)
    requires OpenedBy(view, opening)
    requires forall i | 0 <= i < |items| :: items[i].Is(Assistant) || items[i].Is(Tool)
    ensures OpenedBy(view + items, opening)
  {
    TurnAppend(view, items);
  }

  /** Projecting a turn opened by the restart message gives up exactly on repeated errors and never
      restarts; otherwise the turn stays opened by that message. */
  lemma {:induction false} ProjectOpening(view: seq<Item>, s: Strategy)
    requires OpenedBy(view, RestartMessage(s))
    ensures
      var outcome := Apply(DispatchTurn(view), s);
      && !outcome.Restarted?
      && (outcome == Exhausted <==> Trips(ErrorKeys(Turn(view))))
      && (outcome.Advanced? ==> OpenedBy(outcome.view, RestartMessage(s)))
  {
    hide DispatchTurn, Turn, ErrorKeys, Trips, HasMarker, Decide, RestartMessage, Compacted, Applies;
    var cut := DispatchTurn(view);
    DispatchKeepsTurn(view);
    MarkerOpens(cut, s);
    RestartIsUser(s);
    CompactedOpening(cut, OptionsFor(Turn(cut), s), RestartMessage(s));
  }

  lemma {:induction false} RestartIsUser(s: Strategy)
    ensures RestartMessage(s).Is(User)
  {
  }

  /** The restart itself leaves a history opened by the restart message. */
  lemma {:induction false} RestartOpens(view: seq<Item>, s: Strategy)
    requires Apply(view, s).Restarted?
    ensures OpenedBy(Apply(view, s).view, RestartMessage(s))
  {
    assert Last(Apply(view, s).view) == RestartMessage(s);
  }
}
