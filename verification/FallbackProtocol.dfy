/** What every request of the fallback protocol shows, and how long it can take. */
module FallbackProtocol {
  import opened Sequences
  import opened Text
  import opened FallbackSpec

  // ---- Progress ---------------------------------------------------------------------------------

  function Fallbacks(kit: Kit): set<string> {
    BackendSet(kit.config.autoSwitch.backends)
  }

  /** How many attempts are still possible at most. */
  function Fuel(kit: Kit, s: State): int {
    kit.maxAttempts * |Fallbacks(kit) - s.attempted| + kit.maxAttempts - s.network
  }

  /** A switch goes to a fallback backend that was not attempted before. */
  lemma {:induction false} SwitchIsNew(kit: Kit, n: nat, s: State, err: Failure, waits: bool)
    requires Honest(kit) && React(kit, n, s, err, waits).Switch?
    ensures
      var p := React(kit, n, s, err, waits).target.provider;
      p in Fallbacks(kit) && p !in s.attempted
  {
    CandidatesAre(kit.config, kit.config.autoSwitch.backends, s.provider, s.attempted);
    hide CandidatesOf, Usable, BackendSet, Acceptable;
  }

  lemma {:induction false} Shrinks(f: set<string>, a: set<string>, b: set<string>)
    requires a <= b
    ensures |f - b| <= |f - a|
    ensures (exists p :: p in f && p !in a && p in b) ==> |f - b| < |f - a|
  {
    assert f - b <= f - a;
    assert (f - a) - (f - b) + (f - b) == f - a;
    if p :| p in f && p !in a && p in b {
      assert p in (f - a) - (f - b);
    }
  }

  lemma {:induction false} Scaled(m: nat, x: nat, y: nat)
    requires x <= y
    ensures m * x <= m * y
    ensures x < y ==> m * x + m <= m * y
  {
    if x < y {
      assert m * (x + 1) == m * x + m;
      assert m * (x + 1) <= m * y by { ScaledMonotone(m, x + 1, y); }
    }
    ScaledMonotone(m, x, y);
  }

  lemma {:induction false} ScaledMonotone(m: nat, x: nat, y: nat)
    requires x <= y
    ensures m * x <= m * y
  {
    assert m * y == m * x + m * (y - x);
  }

  /** Every attempt that does not end the request uses up at least one unit. */
  lemma {:induction false} FuelSpent(kit: Kit, n: nat, s: State, a: Attempt)
    requires Honest(kit) && s.network < kit.maxAttempts && s.provider in s.attempted
    requires Result(kit, n, s, a).Again?
    ensures
      var next := Enter(Result(kit, n, s, a).state);
      && next.network < kit.maxAttempts && 0 < Fuel(kit, next) < Fuel(kit, s)
  {
    hide AttemptRelay, Candidates, Acceptable, Fallbacks, Honest;
    var err := AttemptRelay(a).failure;
    var next := Enter(Result(kit, n, s, a).state);
    var f := Fallbacks(kit);
    Shrinks(f, s.attempted, next.attempted);
    if React(kit, n, s, err, a.waits).Switch? {
      SwitchIsNew(kit, n, s, err, a.waits);
      Scaled(kit.maxAttempts, |f - next.attempted|, |f - s.attempted|);
    } else {
      Scaled(kit.maxAttempts, |f - next.attempted|, |f - s.attempted|);
    }
    Scaled(kit.maxAttempts, 0, |f - next.attempted|);
  }

  lemma {:induction false} FuelAlong(kit: Kit, env: nat -> Attempt, trace: seq<State>, i: nat)
    requires Honest(kit) && kit.maxAttempts >= 1 && IsRun(kit, env, trace) && i < |trace|
    ensures trace[i].network < kit.maxAttempts && trace[i].provider in trace[i].attempted
    ensures 0 < Fuel(kit, trace[i]) <= Fuel(kit, trace[0]) - i
  {
    hide Result, Fuel, Honest;
    if i == 0 {
      FuelPositive(kit, trace[0]);
    } else {
      FuelAlong(kit, env, trace, i - 1);
      FuelSpent(kit, i - 1, trace[i - 1], env(i - 1));
    }
  }

  lemma {:induction false} FuelPositive(kit: Kit, s: State)
    requires s.network < kit.maxAttempts
    ensures 0 < Fuel(kit, s) <= kit.maxAttempts * |Fallbacks(kit)| + kit.maxAttempts
  {
    var f := Fallbacks(kit);
    Shrinks(f, {}, s.attempted);
    assert f - {} == f;
    Scaled(kit.maxAttempts, |f - s.attempted|, |f|);
    Scaled(kit.maxAttempts, 0, |f - s.attempted|);
  }

  /** No request makes more attempts than the limit times one plus the number of distinct fallback backends,
      whatever mixture of failures it meets. */
  lemma {:induction false} AttemptsBounded(kit: Kit, env: nat -> Attempt, trace: seq<State>)
    requires Honest(kit) && kit.maxAttempts >= 1 && IsRun(kit, env, trace)
    ensures |trace| <= kit.maxAttempts * (1 + |Fallbacks(kit)|)
  {
    hide Result, Honest, Fuel, Fallbacks;
    FuelAlong(kit, env, trace, |trace| - 1);
    FuelPositive(kit, trace[0]);
  }

  lemma {:induction false} AttemptedGrows(kit: Kit, env: nat -> Attempt, trace: seq<State>, i: nat, j: nat)
    requires IsRun(kit, env, trace) && i <= j < |trace|
    ensures trace[i].attempted <= trace[j].attempted && trace[i].provider in trace[j].attempted
    decreases j
  {
    hide AttemptRelay, React;
    if i < j {
      AttemptedGrows(kit, env, trace, i, j - 1);
    } else if i > 0 {
      assert trace[i] == Enter(Result(kit, i - 1, trace[i - 1], env(i - 1)).state);
    }
  }

  predicate Switches(kit: Kit, env: nat -> Attempt, trace: seq<State>, i: nat)
    requires i < |trace|
  {
    AttemptRelay(env(i)).Failing? && React(kit, i, trace[i], AttemptRelay(env(i)).failure, env(i).waits).Switch?
  }

  /** Each provider the request switches to is new: no earlier attempt of the request used it. */
  lemma {:induction false} SwitchTargetsNew(kit: Kit, env: nat -> Attempt, trace: seq<State>, i: nat, j: nat)
    requires Honest(kit) && IsRun(kit, env, trace) && i <= j < |trace| - 1 && Switches(kit, env, trace, j)
    ensures trace[j + 1].provider != trace[i].provider
    ensures trace[j + 1].provider in Fallbacks(kit)
  {
    hide AttemptRelay, React, Fallbacks, Honest;
    AttemptedGrows(kit, env, trace, i, j);
    SwitchIsNew(kit, j, trace[j], AttemptRelay(env(j)).failure, env(j).waits);
  }

  // ---- What the caller sees ---------------------------------------------------------------------

  predicate OneTerminal(events: seq<Event>) {
    && events != [] && Terminal(Last(events))
    && forall i | 0 <= i < |events| - 1 :: !Terminal(events[i])
  }

  /** An attempt that was given up had shown neither output nor an end. */
  predicate NothingShown(a: Attempt) {
    && (a.stream.Some? ==> Shown(a.stream.value) == [] && !(exists i | 0 <= i < |a.stream.value| ::
                             a.stream.value[i].Done? && i == Cut(a.stream.value)))
    && (a.stream.None? ==> a.response.None?)
  }

  /** The events come from this attempt: its own stream up to the first terminal, or none of it. */
  predicate From(events: seq<Event>, a: Attempt)
    requires events != []
  {
    if a.stream.Some? then
      && Init(events) <= a.stream.value
      && (Init(events) == a.stream.value[..Cut(a.stream.value)] || Init(events) == Shown(a.stream.value) == [])
      && (Last(events).Done? ==> Cut(a.stream.value) < |a.stream.value| && events == a.stream.value[..Cut(a.stream.value) + 1])
    else
      Init(events) == [] && (Last(events).Done? ==> a.response == Some(Last(events).message))
  }

  lemma {:induction false} VisibleForm(a: Attempt)
    ensures AttemptRelay(a).Visible? ==> OneTerminal(AttemptRelay(a).events) && From(AttemptRelay(a).events, a)
    ensures AttemptRelay(a).Failing? ==> NothingShown(a)
  {
    if a.stream.Some? {
      StreamForm(a.stream.value, a.cancelled);
    }
  }

  lemma {:induction false} StreamForm(source: seq<Event>, cancelled: Option<Failure>)
    ensures
      match Forwarded(source, cancelled)
      case Visible(events) =>
        && OneTerminal(events) && Init(events) <= source
        && (Init(events) == source[..Cut(source)] || Init(events) == Shown(source) == [])
        && (Last(events).Done? ==> Cut(source) < |source| && events == source[..Cut(source) + 1])
      case Failing(_) => Shown(source) == [] && (Cut(source) < |source| ==> !source[Cut(source)].Done?)
  {
    hide Material;
    var c := Cut(source);
    var body := Shown(source);
    assert source[..c] <= source;
    if Forwarded(source, cancelled).Visible? {
      var events := Forwarded(source, cancelled).events;
      if c < |source| && source[c].Done? {
        assert Init(events) == source[..c];
      } else {
        assert Init(events) == body;
      }
    }
  }

  /** Whatever the attempts do, the caller sees exactly one terminal event, as the last one; everything before
      it comes from the last attempt, in order; and no attempt before the last has shown anything. */
  lemma {:induction false} OneVisibleAttempt(kit: Kit, env: nat -> Attempt, trace: seq<State>, events: seq<Event>)
    requires Finishes(kit, env, trace, events)
    ensures OneTerminal(events)
    ensures From(events, env(|trace| - 1))
    ensures forall i | 0 <= i < |trace| - 1 :: NothingShown(env(i))
  {
    hide React, AttemptRelay, Cut, Shown, Forwarded;
    VisibleForm(env(|trace| - 1));
    forall i | 0 <= i < |trace| - 1
      ensures NothingShown(env(i))
    {
      assert Result(kit, i, trace[i], env(i)).Again?;
      VisibleForm(env(i));
    }
  }

  /** No attempt whose stream carried output before its end is followed by another one. */
  lemma {:induction false} NoRetryAfterOutput(kit: Kit, env: nat -> Attempt, trace: seq<State>, i: nat)
    requires IsRun(kit, env, trace) && i < |trace|
    requires env(i).stream.Some? && HasMaterial(env(i).stream.value[..Cut(env(i).stream.value)])
    ensures i == |trace| - 1
  {
    hide React, HasMaterial;
    assert i < |trace| - 1 ==> Result(kit, i, trace[i], env(i)).Again?;
  }

  /** The same environment when no attempt opens a stream. */
  function Plain(env: nat -> Attempt): nat -> Attempt {
    (n: nat) => env(n).(stream := None)
  }
}
