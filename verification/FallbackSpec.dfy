/** The retry and fallback protocol of one request (internal/bootstrap/runtime_fallback.go), as a state machine.
    What the environment decides at the n-th attempt is given by a function of n, so that a statement about all
    such functions is a statement about every behaviour of the backends, the clock and the caller. */
module FallbackSpec {
  import opened Sequences
  import opened Text

  datatype Failure =
    | Cancelled | PartialStream | Provider(text: string)
    | Exhausted(cause: Failure, reason: string, retryable: bool)

  /** Stream events; a delta is the text it carries. */
  datatype Event =
    | TextStart | TextEnd | ThinkingStart | ThinkingEnd
    | TextDelta(delta: string) | ThinkingDelta(delta: string) | ToolCallDelta(delta: string)
    | ToolCallStart | ToolCallEnd | Unknown(name: string)
    | Done(message: string) | Error(failure: Option<Failure>)

  predicate Terminal(e: Event) {
    e.Done? || e.Error?
  }

  predicate Material(e: Event) {
    match e
    case TextStart | TextEnd | ThinkingStart | ThinkingEnd => false
    case TextDelta(d) => d != ""
    case ThinkingDelta(d) => d != ""
    case ToolCallDelta(d) => d != ""
    case _ => true
  }

  // ---- Configuration ----------------------------------------------------------------------------

  datatype ProviderConfig = ProviderConfig(disabled: bool, needsKey: bool, apiKey: string, models: seq<string>)

  datatype AutoSwitch = AutoSwitch(enabled: Option<bool>, backends: seq<string>, networkMaxAttempts: int)

  datatype Config = Config(autoSwitch: AutoSwitch, providers: map<string, ProviderConfig>)

  const DEFAULT_ATTEMPTS := 7
  const MIN_ATTEMPTS := 1
  const MAX_ATTEMPTS := 30

  function NormalAttempts(attempts: int): Option<int> {
    if attempts == 0 then Some(DEFAULT_ATTEMPTS)
    else if attempts < MIN_ATTEMPTS || attempts > MAX_ATTEMPTS then None
    else Some(attempts)
  }

  function EffectiveAttempts(attempts: int): (n: int)
    ensures MIN_ATTEMPTS <= n <= MAX_ATTEMPTS
    ensures MIN_ATTEMPTS <= attempts <= MAX_ATTEMPTS ==> n == attempts
  {
    if NormalAttempts(attempts).Some? then NormalAttempts(attempts).value else DEFAULT_ATTEMPTS
  }

  predicate IsEnabled(auto: AutoSwitch) {
    if auto.enabled.Some? then auto.enabled.value else auto.backends != []
  }

  predicate Usable(cfg: Config, provider: string) {
    && provider in cfg.providers && !cfg.providers[provider].disabled
    && (cfg.providers[provider].needsKey ==> Trim(cfg.providers[provider].apiKey) != "")
    && cfg.providers[provider].models != []
  }

  /** The candidates among the first backends, each once. */
  function CandidatesOf(cfg: Config, backends: seq<string>, current: string, attempted: set<string>): seq<string> {
    if backends == [] then []
    else
      var before, p := CandidatesOf(cfg, Init(backends), current, attempted), Trim(Last(backends));
      if p == "" || p in before || p == Trim(current) || p in attempted || !Usable(cfg, p) then before else before + [p]
  }

  function Candidates(cfg: Config, current: string, attempted: set<string>): seq<string> {
    if IsEnabled(cfg.autoSwitch) then CandidatesOf(cfg, cfg.autoSwitch.backends, current, attempted) else []
  }

  function BackendSet(backends: seq<string>): set<string> {
    if backends == [] then {}
    else BackendSet(Init(backends)) + (if Trim(Last(backends)) == "" then {} else {Trim(Last(backends))})
  }

  /** The candidates are exactly the usable fallback backends other than the current and the attempted ones, each
      listed once. */
  lemma {:induction false} CandidatesAre(cfg: Config, backends: seq<string>, current: string, attempted: set<string>)
    ensures forall p :: p in CandidatesOf(cfg, backends, current, attempted) <==>
                        p in BackendSet(backends) && p != Trim(current) && p !in attempted && Usable(cfg, p)
    ensures forall i, j | 0 <= i < j < |CandidatesOf(cfg, backends, current, attempted)| ::
              CandidatesOf(cfg, backends, current, attempted)[i] != CandidatesOf(cfg, backends, current, attempted)[j]
  {
    hide Trim, Usable;
    if backends != [] {
      CandidatesAre(cfg, Init(backends), current, attempted);
    }
  }

  // ---- The environment --------------------------------------------------------------------------

  datatype Target = Target(provider: string, model: string, hasClient: bool, reason: string)

  datatype Decision = Decision(eligible: bool, networkRetry: bool, sameBackendMax: nat, reason: string)

  /** What the request is configured with: the attempt limit, the classification of errors, the comparison of
      model names, the temporary rate limits, and the controller, which picks a target from the candidates. */
  datatype Kit = Kit(
    maxAttempts: nat, config: Config, classify: Failure -> Decision, sameName: (string, string) -> bool,
    temporary: Failure -> bool, controller: Option<(nat, seq<string>) -> Option<Target>>)

  /** The controller only returns providers it was offered. */
  ghost predicate Honest(kit: Kit) {
    kit.controller.Some? ==>
      forall n, offered :: kit.controller.value(n, offered).Some? ==>
                             kit.controller.value(n, offered).value.provider in offered
  }

  /** The n-th attempt: the stream the model opens, or else the response its plain call gives, or else the
      error of that call; whether the caller has given up by the time of a failure; whether the back-off wait
      completes; and where a failover inside the model has moved the shared primary meanwhile. */
  datatype Attempt = Attempt(
    stream: Option<seq<Event>>, response: Option<string>, failure: Failure,
    cancelled: Option<Failure>, waits: bool, moved: Option<(string, string)>)

  // ---- The reaction to a failure ----------------------------------------------------------------

  datatype State = State(provider: string, name: string, attempted: set<string>, network: nat)

  datatype Reaction = Retry | Switch(target: Target) | Stop(failure: Failure)

  function Limit(kit: Kit, d: Decision): nat {
    if d.sameBackendMax > 0 && kit.maxAttempts > d.sameBackendMax then d.sameBackendMax else kit.maxAttempts
  }

  function Wrap(kit: Kit, d: Decision, err: Failure): Failure {
    if !d.eligible then err
    else Exhausted(err, d.reason,
                   d.reason in {"network_interrupted", "overloaded", "timeout"} || (d.reason == "rate_limit" && kit.temporary(err)))
  }

  predicate Acceptable(kit: Kit, name: string, t: Target) {
    t.hasClient && t.provider != "" && t.model != "" && kit.sameName(name, t.model)
  }

  function React(kit: Kit, n: nat, s: State, err: Failure, waits: bool): Reaction {
    var d := kit.classify(err);
    if !d.eligible then Stop(err)
    else if d.networkRetry && s.network < Limit(kit, d) - 1 then (if waits then Retry else Stop(err))
    else if kit.controller.None? then Stop(Wrap(kit, d, err))
    else
      var t := kit.controller.value(n, Candidates(kit.config, s.provider, s.attempted));
      if t.Some? && Acceptable(kit, s.name, t.value) then Switch(t.value) else Stop(Wrap(kit, d, err))
  }

  // ---- What one attempt shows -------------------------------------------------------------------

  /** The position of the first terminal event, or the length. */
  function Cut(source: seq<Event>): (c: nat)
    ensures c <= |source|
    ensures forall i | 0 <= i < c :: !Terminal(source[i])
    ensures c < |source| ==> Terminal(source[c])
  {
    if source == [] then 0 else if Terminal(source[0]) then 0 else 1 + Cut(source[1..])
  }

  lemma {:induction false} CutAt(source: seq<Event>, i: nat)
    requires i < |source| && Cut(source) >= i
    ensures Terminal(source[i]) <==> Cut(source) == i
  {
  }

  predicate HasMaterial(events: seq<Event>) {
    exists i | 0 <= i < |events| :: Material(events[i])
  }

  /** The events forwarded before the terminal: all of them, or none while none carries output. */
  function Shown(source: seq<Event>): seq<Event> {
    if HasMaterial(source[..Cut(source)]) then source[..Cut(source)] else []
  }

  datatype Relay = Visible(events: seq<Event>) | Failing(failure: Failure)

  function Forwarded(source: seq<Event>, cancelled: Option<Failure>): Relay {
    var c := Cut(source);
    var material := HasMaterial(source[..c]);
    if c < |source| && source[c].Done? then Visible(source[..c + 1])
    else if cancelled.Some? then Visible(Shown(source) + [Error(cancelled)])
    else if c < |source| then
      if source[c].failure.Some? && !material then Failing(source[c].failure.value)
      else Visible(Shown(source) + [source[c]])
    else if material then Visible(Shown(source) + [Error(Some(Exhausted(PartialStream, "", false)))])
    else Failing(PartialStream)
  }

  function AttemptRelay(a: Attempt): Relay {
    if a.stream.Some? then Forwarded(a.stream.value, a.cancelled)
    else if a.response.Some? then Visible([Done(a.response.value)])
    else if a.cancelled.Some? then Visible([Error(a.cancelled)])
    else Failing(a.failure)
  }

  // ---- The machine ------------------------------------------------------------------------------

  /** The state with which an attempt begins: the current provider counts as attempted. */
  function Enter(s: State): State {
    s.(attempted := s.attempted + {s.provider})
  }

  function Moved(s: State, a: Attempt): State {
    if a.moved.Some? then s.(provider := a.moved.value.0, name := a.moved.value.1) else s
  }

  datatype Outcome = Again(state: State) | End(events: seq<Event>)

  function Result(kit: Kit, n: nat, s: State, a: Attempt): Outcome {
    match AttemptRelay(a)
    case Visible(events) => End(events)
    case Failing(err) =>
      match React(kit, n, s, err, a.waits)
      case Retry => Again(Moved(s, a).(network := s.network + 1))
      case Switch(t) => Again(s.(provider := t.provider, name := t.model, network := 0))
      case Stop(f) => End([Error(Some(f))])
  }

  /** The states in which the attempts of a request began. */
  predicate IsRun(kit: Kit, env: nat -> Attempt, trace: seq<State>) {
    && trace != [] && trace[0].network == 0 && trace[0].attempted == {trace[0].provider}
    && forall i | 0 <= i < |trace| - 1 ::
         Result(kit, i, trace[i], env(i)).Again? && trace[i + 1] == Enter(Result(kit, i, trace[i], env(i)).state)
  }

  /** A finished request: the last attempt ends it with these events. */
  predicate Finishes(kit: Kit, env: nat -> Attempt, trace: seq<State>, events: seq<Event>) {
    IsRun(kit, env, trace) && Result(kit, |trace| - 1, trace[|trace| - 1], env(|trace| - 1)) == End(events)
  }
}
