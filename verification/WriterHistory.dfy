/** The Writer's message history and the pure specification of its compaction
    (internal/agents/writer_context_manager.go). Every function that walks a history recurses on its last
    item, so that a loop over the first n items computes the function on msgs[..n]. */
module WriterHistory {
  import opened Sequences
  import opened Text

  datatype Role = User | Assistant | Tool | System

  /** `source` is what decoding the call's JSON arguments yields for the field of that name. */
  datatype Call = Call(id: string, name: string, args: string, source: Option<string>)

  datatype Block =
    | TextBlock(text: string)
    | ThinkingBlock(text: string)
    | CallBlock(call: Call)
    | OtherBlock(kind: string)

  /** The metadata entries the code reads or writes; an absent entry is false or empty. */
  datatype Metadata = Metadata(
    callId: string, isError: bool, cleared: bool, clearedTool: string, fingerprint: string, compactedTurn: bool)

  const NO_METADATA := Metadata("", false, false, "", "", false)

  /** `Foreign` is an entry of the history that is not a plain message; compaction passes it through. */
  datatype Item =
    | Message(role: Role, content: seq<Block>, meta: Metadata)
    | Foreign(tag: string)
  {
    predicate Is(r: Role) { Message? && role == r }
  }

  function TextOf(content: seq<Block>): string {
    if content == [] then "" else
      TextOf(Init(content)) + (if Last(content).TextBlock? then Last(content).text else "")
  }

  function ThinkingOf(content: seq<Block>): string {
    if content == [] then "" else
      ThinkingOf(Init(content)) + (if Last(content).ThinkingBlock? then Last(content).text else "")
  }

  function CallsOf(content: seq<Block>): seq<Call> {
    if content == [] then [] else
      CallsOf(Init(content)) + (if Last(content).CallBlock? then [Last(content).call] else [])
  }

  // ---- Tool names -------------------------------------------------------------------------------

  predicate IsWriteTool(name: string) {
    name in {"draft_chapter", "edit_chapter", "repair_de_ai_batch"}
  }

  predicate IsValidationTool(name: string) {
    name in {"check_consistency", "check_adaptation", "check_de_ai", "check_simulation"}
  }

  const NOVEL_CONTEXT := "novel_context"
  const READ_CHAPTER := "read_chapter"

  function ResultKey(call: Call): string {
    if call.name == NOVEL_CONTEXT then call.name
    else if call.name == READ_CHAPTER then
      if call.source.Some? && EqualFold(Trim(call.source.value), "source") then call.name + "\0source\0" + call.args
      else call.name + "\0continuity"
    else call.name + "\0" + call.args
  }

  function ErrorKind(text: string): string {
    var lower := Lower(text);
    if Contains(lower, "not an exact current-draft quote") then "exact_quote"
    else if Contains(lower, "scene_checks") && Contains(lower, "count") then "scene_count"
    else if Contains(lower, "from_line/to_line") then "line_range"
    else if Contains(lower, "not an allowed dynamic character field") then "dynamic_character_field"
    else if Contains(lower, "character contract") then "character_contract"
    else if Contains(lower, "only available") || Contains(lower, "must call") then "gate_order"
    else if Contains(lower, "invalid args") || Contains(lower, "tool args invalid") then "invalid_args"
    else "other"
  }

  function Fingerprint(tool: string, text: string): string {
    tool + ":" + ErrorKind(text)
  }

  // ---- Pairing results with calls ---------------------------------------------------------------

  /** What an announced call contributes to a later result: its tool name and its result key. */
  datatype Open = Open(tool: string, key: string)

  function Register(open: map<string, Open>, calls: seq<Call>): map<string, Open> {
    if calls == [] then open else
      Register(open, Init(calls))[Last(calls).id := Open(Last(calls).name, ResultKey(Last(calls)))]
  }

  /** The calls announced so far; a later call with the same ID replaces the earlier one. */
  function Pending(msgs: seq<Item>): map<string, Open> {
    if msgs == [] then map[]
    else if Last(msgs).Is(Assistant) then Register(Pending(Init(msgs)), CallsOf(Last(msgs).content))
    else Pending(Init(msgs))
  }

  datatype Candidate = Candidate(
    index: nat, callId: string, tool: string, key: string,
    cleared: bool, isError: bool, fingerprint: string, text: string)

  function CandidateOf(item: Item, index: nat, open: map<string, Open>): Option<Candidate> {
    if item.Is(Tool) && item.meta.callId in open && open[item.meta.callId].tool != "" then
      var call := open[item.meta.callId];
      Some(Candidate(index, item.meta.callId, call.tool, call.key, item.meta.cleared, item.meta.isError,
                     Trim(item.meta.fingerprint), Trim(TextOf(item.content))))
    else None
  }

  function Collect(msgs: seq<Item>): seq<Candidate> {
    if msgs == [] then [] else
      var last := CandidateOf(Last(msgs), |msgs| - 1, Pending(Init(msgs)));
      Collect(Init(msgs)) + (if last.Some? then [last.value] else [])
  }

  // ---- Which results stay -----------------------------------------------------------------------

  predicate Skipped(c: Candidate, seen: set<string>, dropNovel: bool) {
    c.cleared || (dropNovel && c.tool == NOVEL_CONTEXT) || c.key in seen
  }

  /** The backwards scan of the first n candidates. */
  function ProtectBack(
      cands: seq<Candidate>, n: nat, kept: set<nat>, seen: set<string>, keep: int, dropNovel: bool): set<nat>
    requires n <= |cands|
  {
    if n == 0 || |kept| >= keep then kept
    else if Skipped(cands[n - 1], seen, dropNovel) then ProtectBack(cands, n - 1, kept, seen, keep, dropNovel)
    else ProtectBack(cands, n - 1, kept + {cands[n - 1].index}, seen + {cands[n - 1].key}, keep, dropNovel)
  }

  predicate IsOriginal(c: Candidate) {
    c.tool == NOVEL_CONTEXT && !c.cleared
  }

  /** Position of the first uncleared novel_context result, or |cands|. */
  function FirstOriginal(cands: seq<Candidate>): (k: nat)
    ensures k <= |cands|
    ensures forall j | 0 <= j < k :: !IsOriginal(cands[j])
    ensures k < |cands| ==> IsOriginal(cands[k])
  {
    if cands == [] then 0
    else
      var k := FirstOriginal(Init(cands));
      if k < |cands| - 1 then k
      else if IsOriginal(Last(cands)) then |cands| - 1 else |cands|
  }

  function Protect(cands: seq<Candidate>, keep: int, preferOriginal: bool, dropNovel: bool): set<nat> {
    var k := FirstOriginal(cands);
    if preferOriginal && keep > 1 && k < |cands| then
      ProtectBack(cands, |cands|, {cands[k].index}, {cands[k].key}, keep, dropNovel)
    else ProtectBack(cands, |cands|, {}, {}, keep, dropNovel)
  }

  // ---- Clearing ---------------------------------------------------------------------------------

  predicate Stale(c: Candidate, kept: set<nat>) {
    !c.cleared && c.index !in kept
  }

  function ClearedItem(item: Item, c: Candidate, note: string): Item
    requires item.Message?
  {
    item.(content := [TextBlock(note)],
          meta := item.meta.(cleared := true, clearedTool := c.tool,
                             fingerprint := if c.isError then Fingerprint(c.tool, c.text) else item.meta.fingerprint))
  }

  function ClearItem(item: Item, c: Option<Candidate>, kept: set<nat>, note: string): Item {
    if item.Message? && c.Some? && Stale(c.value, kept) then ClearedItem(item, c.value, note) else item
  }

  function Clear(msgs: seq<Item>, kept: set<nat>, note: string): (out: seq<Item>)
    ensures |out| == |msgs|
  {
    if msgs == [] then [] else
      Clear(Init(msgs), kept, note) +
      [ClearItem(Last(msgs), CandidateOf(Last(msgs), |msgs| - 1, Pending(Init(msgs))), kept, note)]
  }

  // ---- Removing write exchanges and completed rationale -----------------------------------------

  /** The sets a history pass works with: calls whose results are stale or write results, write calls to
      remove, calls that have a result, and the receipt text for the newest write call. */
  datatype Plan = Plan(
    compact: set<string>, collapse: set<string>, completed: set<string>, receipts: map<string, string>)

  function CollapseIds(cands: seq<Candidate>): set<string> {
    set c | c in cands && !c.cleared && IsWriteTool(c.tool) :: c.callId
  }

  function CompactIds(cands: seq<Candidate>, kept: set<nat>, dropNovel: bool): set<string> {
    set c | c in cands && (c.cleared || IsWriteTool(c.tool) || (dropNovel && c.tool == NOVEL_CONTEXT) || c.index !in kept)
      :: c.callId
  }

  function CompletedIds(cands: seq<Candidate>): set<string> {
    set c | c in cands :: c.callId
  }

  function ReceiptText(tool: string, result: string): string {
    "[Latest completed Writer write receipt; do not copy this text as tool arguments.]\n" +
    "tool=" + tool + "\nresult=" + result
  }

  /** The newest uncleared write result, as a receipt for its call; nothing when that result is blank. */
  function Receipts(cands: seq<Candidate>): map<string, string> {
    if cands == [] then map[]
    else if Last(cands).cleared || !IsWriteTool(Last(cands).tool) then Receipts(Init(cands))
    else if Last(cands).text == "" then map[]
    else map[Last(cands).callId := ReceiptText(Last(cands).tool, Last(cands).text)]
  }

  function PlanOf(cands: seq<Candidate>, kept: set<nat>, dropNovel: bool): Plan {
    Plan(CompactIds(cands, kept, dropNovel), CollapseIds(cands), CompletedIds(cands), Receipts(cands))
  }

  predicate AllIn(calls: seq<Call>, ids: set<string>) {
    forall i | 0 <= i < |calls| :: calls[i].id in ids
  }

  predicate SomeIn(calls: seq<Call>, ids: set<string>) {
    exists i | 0 <= i < |calls| :: calls[i].id in ids
  }

  predicate Dropped(b: Block, plan: Plan, allCompleted: bool) {
    || (b.CallBlock? && b.call.id in plan.collapse)
    || (allCompleted && (b.TextBlock? || b.ThinkingBlock?))
  }

  function Filtered(content: seq<Block>, plan: Plan, allCompleted: bool): seq<Block> {
    if content == [] then [] else
      Filtered(Init(content), plan, allCompleted) +
      (if Dropped(Last(content), plan, allCompleted) then [] else [Last(content)])
  }

  function ReceiptBlocks(content: seq<Block>, plan: Plan): seq<Block> {
    if content == [] then [] else
      var b := Last(content);
      ReceiptBlocks(Init(content), plan) +
      (if b.CallBlock? && b.call.id in plan.collapse && b.call.id in plan.receipts && plan.receipts[b.call.id] != ""
       then [TextBlock(plan.receipts[b.call.id])] else [])
  }

  predicate Completed(content: seq<Block>, plan: Plan) {
    CallsOf(content) != [] && AllIn(CallsOf(content), plan.completed)
  }

  /** Whether the history pass filters this assistant message at all. */
  predicate Rewrites(content: seq<Block>, plan: Plan) {
    var calls := CallsOf(content);
    || SomeIn(calls, plan.collapse)
    || (calls != [] && (AllIn(calls, plan.compact) || AllIn(calls, plan.completed)))
  }

  predicate Drops(content: seq<Block>, plan: Plan) {
    Rewrites(content, plan) &&
    exists i | 0 <= i < |content| :: Dropped(content[i], plan, Completed(content, plan))
  }

  function Rewritten(content: seq<Block>, plan: Plan, note: string): seq<Block> {
    var kept := Filtered(content, plan, Completed(content, plan)) + ReceiptBlocks(content, plan);
    if CallsOf(content) != [] && AllIn(CallsOf(content), plan.compact) && kept == [] then [TextBlock(note)] else kept
  }

  /** Zero or one output item per input item. */
  function HistoryItem(item: Item, plan: Plan, note: string): seq<Item> {
    if item.Is(Tool) then (if item.meta.callId in plan.collapse then [] else [item])
    else if item.Is(Assistant) && Drops(item.content, plan) then
      [item.(content := Rewritten(item.content, plan, note), meta := item.meta.(compactedTurn := true))]
    else [item]
  }

  function History(msgs: seq<Item>, plan: Plan, note: string): seq<Item> {
    if msgs == [] then [] else History(Init(msgs), plan, note) + HistoryItem(Last(msgs), plan, note)
  }

  predicate Touches(item: Item, plan: Plan) {
    || (item.Is(Tool) && item.meta.callId in plan.collapse)
    || (item.Is(Assistant) && Drops(item.content, plan))
  }

  predicate Touched(msgs: seq<Item>, plan: Plan) {
    exists i | 0 <= i < |msgs| :: Touches(msgs[i], plan)
  }

  // ---- The whole pass ---------------------------------------------------------------------------

  datatype Options = Options(keep: int, note: string, preferOriginal: bool, dropNovel: bool)

  function KeptBy(view: seq<Item>, o: Options): set<nat> {
    Protect(Collect(view), o.keep, o.preferOriginal, o.dropNovel)
  }

  function PlanFor(view: seq<Item>, o: Options): Plan {
    PlanOf(Collect(view), KeptBy(view, o), o.dropNovel)
  }

  function Rewrite(view: seq<Item>, o: Options): seq<Item> {
    History(Clear(view, KeptBy(view, o), o.note), PlanFor(view, o), o.note)
  }

  predicate Applies(view: seq<Item>, o: Options) {
    || (exists c :: c in Collect(view) && Stale(c, KeptBy(view, o)))
    || Touched(view, PlanFor(view, o))
  }

  /** The output of one compaction pass. */
  function Compacted(view: seq<Item>, o: Options): seq<Item> {
    if Applies(view, o) then Rewrite(view, o) else view
  }
}
