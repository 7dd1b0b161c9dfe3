/** The runtime fallback model as an object that swaps its primary model (internal/bootstrap/runtime_fallback.go). */
module FallbackModel {
  import opened Sequences
  import opened Text
  import opened Swappable
  import opened FallbackSpec
  import opened FallbackProtocol

  method CandidateProviders(cfg: Config, current: string, attempted: set<string>) returns (out: seq<string>)
    ensures out == Candidates(cfg, current, attempted)
  {
    hide Trim, Usable;
    out := [];
    if !IsEnabled(cfg.autoSwitch) {
      return;
    }
    var seen: set<string> := {};
    var backends := cfg.autoSwitch.backends;
    for i := 0 to |backends|
      invariant out == CandidatesOf(cfg, backends[..i], current, attempted)
      invariant forall p | p in out :: p in seen
      invariant forall p | p in seen :: p in out || !Usable(cfg, p)
    {
      Prefix(backends, i);
      var provider := Trim(backends[i]);
      if provider == "" || provider in seen || provider == Trim(current) || provider in attempted {
        continue;
      }
      seen := seen + {provider};
      if !Usable(cfg, provider) {
        continue;
      }
      out := out + [provider];
    }
    Whole(backends);
  }

  class RuntimeFallbackModel {
    const kit: Kit
    const primary: SwappableModel

    constructor (kit: Kit, primary: SwappableModel)
      ensures this.kit == kit && this.primary == primary
    {
      this.kit, this.primary := kit, primary;
    }

    method NextAfterFailure(n: nat, current: State, err: Failure, networkAttempt: nat, waits: bool)
      returns (next: Option<Target>, retry: bool, decision: Decision, attempts: nat)
      requires networkAttempt == current.network
      ensures
        match React(kit, n, current, err, waits)
        case Retry => retry && attempts == networkAttempt + 1
        case Switch(t) => !retry && next == Some(t)
        case Stop(f) => !retry && next == None && f == Wrap(kit, decision, err)
    {
      hide Candidates, Acceptable;
      next, retry, attempts := None, false, networkAttempt;
      decision := kit.classify(err);
      if !decision.eligible {
        return;
      }
      var limit := kit.maxAttempts;
      if decision.sameBackendMax > 0 && limit > decision.sameBackendMax {
        limit := decision.sameBackendMax;
      }
      if decision.networkRetry && networkAttempt < limit - 1 {
        attempts := networkAttempt + 1;
        if !waits {
          decision := Decision(false, false, 0, "");
          return;
        }
        retry := true;
        return;
      }
      if kit.controller.None? {
        return;
      }
      var offered := CandidateProviders(kit.config, current.provider, current.attempted);
      var target := kit.controller.value(n, offered);
      if target.None? || !Acceptable(kit, current.name, target.value) {
        return;
      }
      next := target;
    }

    /** What follows a failure before any output: the primary stays or is swapped, or the request ends. */
    method Recover(n: nat, current: State, err: Failure, networkAttempt: nat, waits: bool)
      returns (ended: Option<Failure>, attempts: nat)
      requires networkAttempt == current.network
      modifies primary
      ensures
        match React(kit, n, current, err, waits)
        case Retry => ended == None && attempts == networkAttempt + 1 && primary.provider == old(primary.provider) && primary.name == old(primary.name)
        case Switch(t) => ended == None && attempts == 0 && primary.provider == t.provider && primary.name == t.model
        case Stop(f) => ended == Some(f) && primary.provider == old(primary.provider) && primary.name == old(primary.name)
    {
      var next, retry, decision, counted := NextAfterFailure(n, current, err, networkAttempt, waits);
      attempts := counted;
      if retry {
        return None, attempts;
      } else if next.Some? {
        primary.Swap(next.value.provider, next.value.model, Client(next.value.provider, next.value.model));
        return None, 0;
      }
      ended := Some(Wrap(kit, decision, err));
    }

    /** Forwards one stream: preludes wait until an event carries output. */
    method ForwardStream(out: seq<Event>, source: seq<Event>, cancelled: Option<Failure>) returns (relay: Relay, sent: seq<Event>)
      ensures relay == Forwarded(source, cancelled)
      ensures sent == out + (if relay.Visible? then relay.events else [])
    {
      var forwarded := false;
      var pending: seq<Event> := [];
      sent := out;
      for i := 0 to |source|
        invariant Cut(source) >= i
        invariant forwarded == HasMaterial(source[..i])
        invariant forwarded ==> pending == [] && sent == out + source[..i]
        invariant !forwarded ==> pending == source[..i] && sent == out
      {
        var e := source[i];
        CutAt(source, i);
        MaterialStep(source, i);
        Prefix(source, i);
        if e.Error? {
          if cancelled.Some? {
            return Visible(Shown(source) + [Error(cancelled)]), sent + [Error(cancelled)];
          }
          if e.failure.Some? && !forwarded {
            return Failing(e.failure.value), sent;
          }
          return Visible(Shown(source) + [e]), sent + [e];
        } else if e.Done? {
          return Visible(source[..i + 1]), sent + pending + [e];
        } else if !forwarded && !Material(e) {
          pending := pending + [e];
          continue;
        }
        sent := sent + pending + [e];
        pending := [];
        forwarded := true;
      }
      Whole(source);
      if cancelled.Some? {
        return Visible(Shown(source) + [Error(cancelled)]), sent + [Error(cancelled)];
      }
      if !forwarded {
        return Failing(PartialStream), sent;
      }
      var last := Error(Some(Exhausted(PartialStream, "", false)));
      return Visible(Shown(source) + [last]), sent + [last];
    }

    /** One attempt of the streaming request, with what follows if it fails before any output. */
    method StreamAttempt(n: nat, current: State, a: Attempt) returns (done: bool, out: seq<Event>, networkAttempt: nat)
      requires primary.provider == current.provider && primary.name == current.name
      modifies primary
      ensures
        match Result(kit, n, current, a)
        case End(events) => done && out == events
        case Again(s) =>
          !done && out == [] && s == State(primary.provider, primary.name, current.attempted, networkAttempt)
    {
      hide Candidates, Forwarded, React;
      out, networkAttempt := [], current.network;
      if a.moved.Some? {
        primary.Swap(a.moved.value.0, a.moved.value.1, Client(a.moved.value.0, a.moved.value.1));
      }
      var err;
      if a.stream.Some? {
        var relay;
        relay, out := ForwardStream(out, a.stream.value, a.cancelled);
        if relay.Visible? {
          return true, out, networkAttempt;
        }
        err := relay.failure;
      } else if a.response.Some? {
        return true, [Done(a.response.value)], networkAttempt;
      } else {
        err := a.failure;
        if a.cancelled.Some? {
          return true, [Error(a.cancelled)], networkAttempt;
        }
      }
      var ended;
      ended, networkAttempt := Recover(n, current, err, networkAttempt, a.waits);
      if ended.Some? {
        return true, [Error(ended)], networkAttempt;
      }
      done := false;
    }

    /** The streaming request. */
    method GenerateStream(env: nat -> Attempt) returns (out: seq<Event>, ghost trace: seq<State>)
      requires Honest(kit) && kit.maxAttempts >= 1
      modifies primary
      ensures Finishes(kit, env, trace, out)
      ensures trace[0].provider == old(primary.provider) && trace[0].name == old(primary.name)
    {
      hide Result, Fuel, IsRun, Honest;
      out := [];
      var attempted: set<string> := {};
      var networkAttempt: nat := 0;
      var n := 0;
      trace := [Enter(State(primary.provider, primary.name, {}, 0))];
      RunStarts(kit, env, primary.provider, primary.name);
      while true
        invariant |trace| == n + 1 && IsRun(kit, env, trace)
        invariant trace[n] == Enter(State(primary.provider, primary.name, attempted, networkAttempt))
        invariant networkAttempt < kit.maxAttempts
        invariant trace[0].provider == old(primary.provider) && trace[0].name == old(primary.name)
        decreases Fuel(kit, trace[n])
      {
        attempted := attempted + {primary.provider};
        var current := State(primary.provider, primary.name, attempted, networkAttempt);
        var done;
        done, out, networkAttempt := StreamAttempt(n, current, env(n));
        if done {
          return;
        }
        FuelSpent(kit, n, current, env(n));
        RunGrows(kit, env, trace);
        trace := trace + [Enter(Result(kit, n, current, env(n)).state)];
        n := n + 1;
      }
    }

    /** One attempt of the plain request. */
    method PlainAttempt(n: nat, current: State, a: Attempt)
      returns (response: Option<string>, failure: Option<Failure>, networkAttempt: nat)
      requires primary.provider == current.provider && primary.name == current.name
      modifies primary
      ensures
        match Result(kit, n, current, a.(stream := None))
        case End(events) =>
          && (response.Some? || failure.Some?)
          && events == [if response.Some? then Done(response.value) else Error(failure)]
        case Again(s) =>
          && response == None && failure == None
          && s == State(primary.provider, primary.name, current.attempted, networkAttempt)
    {
      hide Candidates, React;
      response, failure, networkAttempt := None, None, current.network;
      if a.moved.Some? {
        primary.Swap(a.moved.value.0, a.moved.value.1, Client(a.moved.value.0, a.moved.value.1));
      }
      if a.response.Some? {
        return a.response, None, networkAttempt;
      }
      if a.cancelled.Some? {
        return None, a.cancelled, networkAttempt;
      }
      failure, networkAttempt := Recover(n, current, a.failure, networkAttempt, a.waits);
    }

    /** The plain request: the same protocol over attempts that open no stream. */
    method Generate(env: nat -> Attempt) returns (response: Option<string>, failure: Option<Failure>, ghost trace: seq<State>)
      requires Honest(kit) && kit.maxAttempts >= 1
      modifies primary
      ensures Finishes(kit, Plain(env), trace, [if response.Some? then Done(response.value) else Error(failure)])
      ensures trace[0].provider == old(primary.provider) && trace[0].name == old(primary.name)
    {
      hide Result, Fuel, IsRun, Honest;
      var attempted: set<string> := {};
      var networkAttempt: nat := 0;
      var n := 0;
      trace := [Enter(State(primary.provider, primary.name, {}, 0))];
      RunStarts(kit, Plain(env), primary.provider, primary.name);
      while true
        invariant |trace| == n + 1 && IsRun(kit, Plain(env), trace)
        invariant trace[n] == Enter(State(primary.provider, primary.name, attempted, networkAttempt))
        invariant networkAttempt < kit.maxAttempts
        invariant trace[0].provider == old(primary.provider) && trace[0].name == old(primary.name)
        decreases Fuel(kit, trace[n])
      {
        attempted := attempted + {primary.provider};
        var current := State(primary.provider, primary.name, attempted, networkAttempt);
        response, failure, networkAttempt := PlainAttempt(n, current, env(n));
        if response.Some? || failure.Some? {
          return;
        }
        FuelSpent(kit, n, current, Plain(env)(n));
        RunGrows(kit, Plain(env), trace);
        trace := trace + [Enter(Result(kit, n, current, Plain(env)(n)).state)];
        n := n + 1;
      }
    }
  }

  lemma {:induction false} RunStarts(kit: Kit, env: nat -> Attempt, provider: string, name: string)
    ensures IsRun(kit, env, [Enter(State(provider, name, {}, 0))])
  {
  }

  lemma {:induction false} RunGrows(kit: Kit, env: nat -> Attempt, trace: seq<State>)
    requires IsRun(kit, env, trace)
    requires Result(kit, |trace| - 1, Last(trace), env(|trace| - 1)).Again?
    ensures IsRun(kit, env, trace + [Enter(Result(kit, |trace| - 1, Last(trace), env(|trace| - 1)).state)])
  {
    hide Result;
  }

  lemma {:induction false} MaterialStep(source: seq<Event>, i: nat)
    requires i < |source|
    ensures HasMaterial(source[..i + 1]) <==> HasMaterial(source[..i]) || Material(source[i])
  {
    hide Material;
    var a, b := source[..i + 1], source[..i];
    if j :| 0 <= j < |b| && Material(b[j]) {
      assert Material(a[j]);
    }
    if Material(source[i]) {
      assert Material(a[i]);
    }
  }
}
