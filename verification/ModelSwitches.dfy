/** Sequences of model switches, and when a stage keeps up with them (internal/bootstrap/models.go). */
module ModelSwitches {
  import opened Text
  import opened Sequences
  import opened ModelRoutes

  datatype Change = Change(route: Option<Route>, provider: string, model: string)

  /** Both names are given, without surrounding blanks. */
  predicate Proper(c: Change) {
    c.provider != "" && c.model != "" && Trimmed(c.provider) && Trimmed(c.model)
  }

  predicate AllProper(changes: seq<Change>) {
    forall i | 0 <= i < |changes| :: Proper(changes[i])
  }

  /** A switch is accepted for a configured provider whose client can be created, on the default, a stage, or a
      known role. */
  predicate Accepts(cfg: Config, creates: (string, string) -> bool, c: Change) {
    && c.provider in cfg.providers && creates(c.provider, c.model)
    && (c.route.Some? ==> c.route.value.StageRoute? || Known(c.route.value.name))
  }

  /** A refused switch does nothing. */
  function Next(cfg: Config, creates: (string, string) -> bool, c: Change): Config {
    if Accepts(cfg, creates, c) then Switch(cfg, c.route, c.provider, c.model) else cfg
  }

  /** The configuration after some switches. */
  function After(cfg: Config, creates: (string, string) -> bool, changes: seq<Change>): Config {
    if changes == [] then cfg else Next(After(cfg, creates, Init(changes)), creates, Last(changes))
  }

  /** What a stage shows in a set created from `birth` and switched to `cfg` since then. */
  function Displayed(birth: Config, cfg: Config, s: Stage): (string, string) {
    if EffortStage(cfg, s) then Effective(birth, StageRoute(s)) else Effective(cfg, StageRoute(s))
  }

  /** Where its requests go: a stage with an effort-only entry whose role had no model at first stays with the
      default model, even when the role is given one later. */
  function Routed(birth: Config, cfg: Config, s: Stage): (string, string) {
    if EffortStage(cfg, s) && !Names(birth, FallbackRole(s)) then (cfg.provider, cfg.model)
    else Effective(cfg, StageRoute(s))
  }

  // ---- One switch -------------------------------------------------------------------------------

  /** A switch of that route decides what the stage should use. */
  predicate Governs(cfg: Config, route: Option<Route>, s: Stage) {
    || route == Some(StageRoute(s))
    || (!Names(cfg, StageRoute(s)) && (route == Some(FallbackRole(s)) || (route.None? && !Names(cfg, FallbackRole(s)))))
  }

  /** What an accepted switch makes of a configuration, seen from one stage. */
  lemma {:induction false} SwitchEffect(cfg: Config, creates: (string, string) -> bool, c: Change, s: Stage)
    requires Tidy(cfg) && Proper(c) && Accepts(cfg, creates, c)
    ensures
      var next := Next(cfg, creates, c);
      && Tidy(next) && next.providers == cfg.providers
      && (EffortStage(next, s) <==> EffortStage(cfg, s) && c.route != Some(StageRoute(s)))
      && (Names(next, FallbackRole(s)) <==> Names(cfg, FallbackRole(s)) || c.route == Some(FallbackRole(s)))
      && (c.route != None ==> (next.provider, next.model) == (cfg.provider, cfg.model))
      && (c.route == None ==> (next.provider, next.model) == (c.provider, c.model))
      && Effective(next, StageRoute(s)) ==
         if Governs(cfg, c.route, s) then (c.provider, c.model) else Effective(cfg, StageRoute(s))
  {
    hide FallbackRole, Trim, Known;
    var next := Next(cfg, creates, c);
    forall r | r in next.roles
      ensures Full(next.roles[r]) || EffortOnly(next.roles[r])
    {
      if Some(r) != c.route {
        assert cfg.roles[r] == next.roles[r];
      }
    }
    hide Tidy, Full;
    TidyNames(cfg, StageRoute(s));
    TidyNames(cfg, FallbackRole(s));
    TidyNames(next, StageRoute(s));
    TidyNames(next, FallbackRole(s));
  }

  /** After one accepted switch of the default, a role or another stage, a stage that was in step still is
      exactly when it has no effort-only entry or inherits what it inherited before. */
  lemma {:induction false} SwitchInStepIff(birth: Config, cfg: Config, creates: (string, string) -> bool, c: Change, s: Stage)
    requires Tidy(cfg) && Proper(c) && Accepts(cfg, creates, c) && c.route != Some(StageRoute(s))
    requires Displayed(birth, cfg, s) == Effective(cfg, StageRoute(s))
    ensures
      var next := Next(cfg, creates, c);
      Displayed(birth, next, s) == Effective(next, StageRoute(s)) <==>
      !EffortStage(cfg, s) || !Governs(cfg, c.route, s) || Effective(cfg, StageRoute(s)) == (c.provider, c.model)
  {
    hide Tidy, Next, Effective, EffortStage, Names, Proper, FallbackRole, Governs, Accepts;
    SwitchEffect(cfg, creates, c, s);
  }

  // ---- Any number of switches -------------------------------------------------------------------

  /** A pair some switch can be made to. */
  predicate Usable(cfg: Config, creates: (string, string) -> bool, provider: string, model: string) {
    && provider != "" && model != "" && Trimmed(provider) && Trimmed(model)
    && provider in cfg.providers && creates(provider, model)
  }

  /** Every usable pair is the one the stage has. */
  ghost predicate NothingElse(cfg: Config, creates: (string, string) -> bool, s: Stage) {
    forall provider, model | Usable(cfg, creates, provider, model) :: (provider, model) == Effective(cfg, StageRoute(s))
  }

  /** What stays true of a configuration through switches. */
  predicate Descends(birth: Config, cfg: Config, s: Stage) {
    && Tidy(cfg) && cfg.providers == birth.providers
    && (EffortStage(cfg, s) ==> EffortStage(birth, s))
    && (Names(birth, FallbackRole(s)) ==> Names(cfg, FallbackRole(s)))
  }

  lemma {:induction false} AfterDescends(cfg: Config, creates: (string, string) -> bool, changes: seq<Change>, s: Stage)
    requires Tidy(cfg) && AllProper(changes)
    ensures Descends(cfg, After(cfg, creates, changes), s)
    ensures NothingElse(cfg, creates, s) ==>
              var last, had := After(cfg, creates, changes), Effective(cfg, StageRoute(s));
              && Effective(last, StageRoute(s)) == had
              && ((cfg.provider, cfg.model) == had ==> (last.provider, last.model) == had)
  {
    hide Tidy, Effective, EffortStage, Names, Trimmed, FallbackRole, Known, Switch, Governs;
    if changes != [] {
      var before, c := After(cfg, creates, Init(changes)), Last(changes);
      AfterDescends(cfg, creates, Init(changes), s);
      assert Proper(c);
      if Accepts(before, creates, c) {
        SwitchEffect(before, creates, c, s);
        assert Usable(cfg, creates, c.provider, c.model);
      }
    }
  }

  lemma {:induction false} RolesKnown(s: Stage)
    ensures Known(FallbackRole(s).name)
  {
  }

  /** A stage with an effort-only entry, and its role switched to another usable pair. */
  lemma {:induction false} RoleSwitchStrands(cfg: Config, creates: (string, string) -> bool, s: Stage, provider: string, model: string)
    requires Tidy(cfg) && EffortStage(cfg, s) && Usable(cfg, creates, provider, model)
    ensures
      var last := After(cfg, creates, [Change(Some(FallbackRole(s)), provider, model)]);
      && Effective(last, StageRoute(s)) == (provider, model)
      && Displayed(cfg, last, s) == Effective(cfg, StageRoute(s))
      && Routed(cfg, last, s) == if Names(cfg, FallbackRole(s)) then (provider, model) else Effective(cfg, StageRoute(s))
  {
    var c := Change(Some(FallbackRole(s)), provider, model);
    assert Init([c]) == [] && Last([c]) == c;
    assert After(cfg, creates, []) == cfg;
    RolesKnown(s);
    TidyNames(cfg, StageRoute(s));
    TidyNames(cfg, FallbackRole(s));
    hide Tidy, EffortStage, Names, FallbackRole, Known, Switch;
    SwitchEffect(cfg, creates, c, s);
  }

  /** Through all sequences of switches a stage shows what the configuration selects exactly when it has no
      effort-only entry or there is no other pair to switch to. */
  lemma {:induction false} AlwaysInStepIff(cfg: Config, creates: (string, string) -> bool, s: Stage)
    requires Tidy(cfg)
    ensures
      (forall changes | AllProper(changes) ::
         Displayed(cfg, After(cfg, creates, changes), s) == Effective(After(cfg, creates, changes), StageRoute(s)))
      <==> !EffortStage(cfg, s) || NothingElse(cfg, creates, s)
  {
    hide Tidy, Effective, EffortStage, Names, Usable, FallbackRole, After, Proper, Routed;
    forall changes | AllProper(changes) && (!EffortStage(cfg, s) || NothingElse(cfg, creates, s))
      ensures Displayed(cfg, After(cfg, creates, changes), s) == Effective(After(cfg, creates, changes), StageRoute(s))
    {
      AfterDescends(cfg, creates, changes, s);
    }
    if EffortStage(cfg, s) && !NothingElse(cfg, creates, s) {
      var provider, model :| Usable(cfg, creates, provider, model) && (provider, model) != Effective(cfg, StageRoute(s));
      RoleSwitchStrands(cfg, creates, s, provider, model);
      UsableIsProper(cfg, creates, s, provider, model);
    }
  }

  /** Its requests always go there exactly when, besides, its role may name a model from the start. */
  lemma {:induction false} AlwaysRoutedIff(cfg: Config, creates: (string, string) -> bool, s: Stage)
    requires Tidy(cfg)
    ensures
      (forall changes | AllProper(changes) ::
         Routed(cfg, After(cfg, creates, changes), s) == Effective(After(cfg, creates, changes), StageRoute(s)))
      <==> !EffortStage(cfg, s) || Names(cfg, FallbackRole(s)) || NothingElse(cfg, creates, s)
  {
    if EffortStage(cfg, s) && !Names(cfg, FallbackRole(s)) {
      EffortInherits(cfg, s);
    }
    hide Tidy, Effective, EffortStage, Names, Usable, FallbackRole, After, Proper, Displayed;
    forall changes |
        AllProper(changes) && (!EffortStage(cfg, s) || Names(cfg, FallbackRole(s)) || NothingElse(cfg, creates, s))
      ensures Routed(cfg, After(cfg, creates, changes), s) == Effective(After(cfg, creates, changes), StageRoute(s))
    {
      AfterDescends(cfg, creates, changes, s);
    }
    if EffortStage(cfg, s) && !Names(cfg, FallbackRole(s)) && !NothingElse(cfg, creates, s) {
      var provider, model :| Usable(cfg, creates, provider, model) && (provider, model) != Effective(cfg, StageRoute(s));
      RoleSwitchStrands(cfg, creates, s, provider, model);
      UsableIsProper(cfg, creates, s, provider, model);
    }
  }

  lemma {:induction false} UsableIsProper(cfg: Config, creates: (string, string) -> bool, s: Stage, provider: string, model: string)
    requires Usable(cfg, creates, provider, model)
    ensures AllProper([Change(Some(FallbackRole(s)), provider, model)])
  {
  }

  lemma {:induction false} EffortInherits(cfg: Config, s: Stage)
    requires Tidy(cfg) && EffortStage(cfg, s) && !Names(cfg, FallbackRole(s))
    ensures Effective(cfg, StageRoute(s)) == (cfg.provider, cfg.model)
  {
    TidyNames(cfg, StageRoute(s));
  }
}
