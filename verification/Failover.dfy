/** The failover model, which a fallback request may wrap (internal/bootstrap/models.go). */
module Failover {
  import opened Sequences
  import opened Text
  import opened Swappable
  import opened FallbackSpec
  import opened FallbackProtocol

  // ---- Specification ----------------------------------------------------------------------------

  predicate Fits(t: Target, provider: string, name: string) {
    !(t.provider == provider && t.model == name) && t.hasClient
  }

  function FirstFit(fallbacks: seq<Target>, provider: string, name: string): Option<Target> {
    if fallbacks == [] then None
    else if Fits(fallbacks[0], provider, name) then Some(fallbacks[0])
    else FirstFit(fallbacks[1..], provider, name)
  }

  function Pick(classify: Failure -> Decision, fallbacks: seq<Target>, provider: string, name: string, err: Failure): Option<Target> {
    if err.Cancelled? || !classify(err).eligible then None else FirstFit(fallbacks, provider, name)
  }

  /** The failure an attempt meets before it has shown any event. */
  function EarlyFailure(a: Attempt): Option<Failure> {
    if a.stream.Some? then (if a.stream.value != [] && a.stream.value[0].Error? then a.stream.value[0].failure else None)
    else if a.response.Some? then None
    else Some(a.failure)
  }

  /** All an attempt shows by itself: its stream up to and including the first terminal. A stream that is closed
      without a terminal stays without one. */
  function Own(a: Attempt): seq<Event> {
    if a.stream.Some? then
      var s, c := a.stream.value, Cut(a.stream.value);
      if c < |s| then s[..c + 1] else s
    else if a.response.Some? then [Done(a.response.value)]
    else [Error(Some(a.failure))]
  }

  function Chosen(
      classify: Failure -> Decision, fallbacks: seq<Target>, provider: string, name: string, first: Attempt): Option<Target> {
    var early := EarlyFailure(first);
    if early.Some? then Pick(classify, fallbacks, provider, name, early.value) else None
  }

  // ---- The object -------------------------------------------------------------------------------

  class FailoverModel {
    const classify: Failure -> Decision
    const primary: SwappableModel
    const fallbacks: seq<Target>

    constructor (classify: Failure -> Decision, primary: SwappableModel, fallbacks: seq<Target>)
      ensures this.classify == classify && this.primary == primary && this.fallbacks == fallbacks
    {
      this.classify, this.primary, this.fallbacks := classify, primary, fallbacks;
    }

    method PickFallback(provider: string, name: string, err: Failure) returns (next: Option<Target>)
      ensures next == Pick(classify, fallbacks, provider, name, err)
    {
      if err.Cancelled? {
        return None;
      }
      if !classify(err).eligible {
        return None;
      }
      for i := 0 to |fallbacks|
        invariant FirstFit(fallbacks, provider, name) == FirstFit(fallbacks[i..], provider, name)
      {
        assert fallbacks[i..][1..] == fallbacks[i + 1..];
        if fallbacks[i].provider == provider && fallbacks[i].model == name {
          continue;
        }
        if !fallbacks[i].hasClient {
          continue;
        }
        return Some(fallbacks[i]);
      }
      next := None;
    }

    /** Relays one stream; `early` is the failure met before any event, if it may still be retried. */
    method Relay(source: seq<Event>, mayRetry: bool) returns (out: seq<Event>, early: Option<Failure>)
      ensures early.Some? ==> mayRetry && out == [] && source != [] && source[0] == Error(early)
      ensures early.None? ==> out == Own(Attempt(Some(source), None, PartialStream, None, false, None))
      ensures early.None? && mayRetry ==> EarlyFailure(Attempt(Some(source), None, PartialStream, None, false, None)).None?
    {
      out, early := [], None;
      var forwarded := false;
      for i := 0 to |source|
        invariant Cut(source) >= i && out == source[..i] && forwarded == (i > 0)
      {
        CutAt(source, i);
        Prefix(source, i);
        if source[i].Error? {
          if source[i].failure.Some? && !forwarded && mayRetry {
            return out, source[i].failure;
          }
          return out + [source[i]], None;
        } else if source[i].Done? {
          return out + [source[i]], None;
        }
        forwarded := true;
        out := out + [source[i]];
      }
      Whole(source);
    }

    method GenerateStream(first: Attempt, second: Attempt) returns (out: seq<Event>)
      modifies primary
      ensures
        match Chosen(classify, fallbacks, old(primary.provider), old(primary.name), first)
        case None => out == Own(first) && primary.provider == old(primary.provider) && primary.name == old(primary.name)
        case Some(t) => out == Own(second) && primary.provider == t.provider && primary.name == t.model
    {
      hide Own, Pick;
      OwnCases(first);
      OwnCases(second);
      var provider, name := primary.provider, primary.name;
      var a, used := first, false;
      while true
        invariant used ==> a == second
        invariant !used ==> a == first && primary.provider == old(primary.provider) && primary.name == old(primary.name)
        invariant used ==>
                    var t := Chosen(classify, fallbacks, old(primary.provider), old(primary.name), first);
                    t.Some? && primary.provider == t.value.provider && primary.name == t.value.model
        decreases !used
      {
        var err;
        if a.stream.Some? {
          var early;
          out, early := Relay(a.stream.value, !used);
          OwnStream(a);
          if early.None? {
            return;
          }
          err := early.value;
        } else if a.response.Some? {
          return [Done(a.response.value)];
        } else {
          err := a.failure;
        }
        if !used {
          var next := PickFallback(provider, name, err);
          if next.Some? {
            primary.Swap(next.value.provider, next.value.model, Client(next.value.provider, next.value.model));
            used, a := true, second;
            continue;
          }
        }
        return [Error(Some(err))];
      }
    }
  }

  lemma {:induction false} OwnCases(a: Attempt)
    ensures a.stream.None? && a.response.Some? ==> Own(a) == [Done(a.response.value)]
    ensures a.stream.None? && a.response.None? ==> Own(a) == [Error(Some(a.failure))]
    ensures a.stream.Some? && a.stream.value != [] && a.stream.value[0].Error? ==> Own(a) == [a.stream.value[0]]
  {
  }

  lemma {:induction false} OwnStream(a: Attempt)
    requires a.stream.Some?
    ensures Own(a) == Own(Attempt(a.stream, None, PartialStream, None, false, None))
    ensures EarlyFailure(a) == EarlyFailure(Attempt(a.stream, None, PartialStream, None, false, None))
  {
  }

  // ---- A fallback request over a failover model -------------------------------------------------

  /** The events an attempt holds, without its terminal. */
  function Source(a: Attempt): seq<Event> {
    if a.stream.Some? then a.stream.value[..Cut(a.stream.value)] else []
  }

  lemma {:induction false} OwnForm(a: Attempt)
    ensures Own(a)[..Cut(Own(a))] == Source(a)
  {
    if a.stream.Some? {
      var s, c := a.stream.value, Cut(a.stream.value);
      CutUnique(Own(a), c);
      if c < |s| {
        assert Own(a)[..c] == s[..c];
      }
    }
  }

  lemma {:induction false} CutUnique(s: seq<Event>, c: nat)
    requires c <= |s| && (forall i | 0 <= i < c :: !Terminal(s[i])) && (c < |s| ==> Terminal(s[c]))
    ensures Cut(s) == c
  {
    assert Cut(s) < |s| ==> Terminal(s[Cut(s)]);
  }

  /** When the wrapped model fails over, the abandoned inner attempt has shown nothing; what the caller then sees
      still comes from one inner attempt, and ends in exactly one terminal even if the failover model closed its
      stream without any. */
  lemma {:induction false} FailoverStaysInvisible(
      classify: Failure -> Decision, fallbacks: seq<Target>, provider: string, name: string,
      first: Attempt, second: Attempt, outer: Attempt)
    requires
      var t := Chosen(classify, fallbacks, provider, name, first);
      outer.stream == Some(Own(if t.Some? then second else first))
    ensures
      var t := Chosen(classify, fallbacks, provider, name, first);
      && (t.Some? ==> Source(first) == [] && (first.stream.None? ==> first.response.None?))
      && (AttemptRelay(outer).Visible? ==>
            && OneTerminal(AttemptRelay(outer).events)
            && Init(AttemptRelay(outer).events) <= Source(if t.Some? then second else first))
  {
    hide Pick, Own;
    var t := Chosen(classify, fallbacks, provider, name, first);
    var a := if t.Some? then second else first;
    VisibleForm(outer);
    OwnForm(a);
    if t.Some? && first.stream.Some? {
      assert Cut(first.stream.value) == 0;
    }
    if AttemptRelay(outer).Visible? {
      assert Init(AttemptRelay(outer).events) == Own(a)[..Cut(Own(a))] || Init(AttemptRelay(outer).events) == [];
    }
  }
}
