/** The set of live model wrappers, kept in step with the configuration (internal/bootstrap/models.go). */
module ModelSets {
  import opened Text
  import opened Sequences
  import opened Swappable
  import opened ModelRoutes
  import opened ModelSwitches

  /** The wrapper forwards straight to the client it names. */
  predicate Direct(w: SwappableModel, provider: string, name: string)
    reads w
  {
    w.provider == provider && w.name == name && w.backend == Client(provider, name)
  }

  /** The wrapper forwards to another wrapper and shows its selection. */
  predicate Inherits(w: SwappableModel, parent: SwappableModel)
    reads w, parent
  {
    w.provider == parent.provider && w.name == parent.name && w.backend == Wrapper(parent)
  }

  class ModelSet {
    const main: SwappableModel
    const creates: (string, string) -> bool
    var models: map<Route, SwappableModel>
    /** The fallback targets of a route; a target's client is known by its provider and model. */
    var fallbacks: map<Route, seq<ModelRef>>
    var config: Config

    /** No wrapper serves two routes. */
    ghost predicate Valid()
      reads this
    {
      && main !in models.Values
      && (forall a, b | a in models && b in models && models[a] == models[b] :: a == b)
    }

    ghost function Wrappers(): set<SwappableModel>
      reads this
    {
      models.Values + {main}
    }

    function Parent(s: Stage): SwappableModel
      reads this
    {
      if FallbackRole(s) in models then models[FallbackRole(s)] else main
    }

    ghost predicate RoleAgrees(route: Route)
      reads this, Wrappers()
    {
      && (route in models <==> route in config.roles && Full(config.roles[route]))
      && (route in models ==> Direct(models[route], config.roles[route].provider, config.roles[route].model))
    }

    /** The wrapper of a stage with an effort-only entry: it shows what the first configuration selected, and
        forwards to the wrapper the stage inherited from then. */
    ghost predicate Frozen(birth: Config, s: Stage)
      reads this, Wrappers()
    {
      var key, role := StageRoute(s), FallbackRole(s);
      && key in models && (Names(birth, role) ==> role in models)
      && (models[key].provider, models[key].name) == Effective(birth, key)
      && models[key].backend == Wrapper(if Names(birth, role) then models[role] else main)
    }

    ghost predicate StageFollows(birth: Config, s: Stage)
      reads this, Wrappers()
    {
      var key := StageRoute(s);
      && key in models
      && if key !in config.roles then Inherits(models[key], Parent(s))
         else if EffortOnly(config.roles[key]) then Frozen(birth, s)
         else Direct(models[key], config.roles[key].provider, config.roles[key].model)
    }

    ghost predicate RolesAgree()
      reads this, Wrappers()
    {
      forall name: string :: RoleAgrees(RoleRoute(name))
    }

    /** The wrappers say what the configuration says, except that stages with effort-only entries have stayed
        with the first configuration. */
    ghost predicate Follows(birth: Config)
      reads this, Wrappers()
    {
      && Tidy(config) && Direct(main, config.provider, config.model)
      && RolesAgree()
      && forall s: Stage :: StageFollows(birth, s)
    }

    constructor (config: Config, creates: (string, string) -> bool, main: SwappableModel)
      ensures Valid() && this.config == config && this.creates == creates && this.main == main && models == map[] && fallbacks == map[]
      ensures Built(config.roles.Keys)
    {
      this.config, this.creates, this.main, this.models, this.fallbacks := config, creates, main, map[], map[];
    }

    method CurrentSelection(name: string) returns (provider: string, model: string, explicit: bool)
      ensures
        var w := if name != "" && name != "default" && RoleRoute(name) in models then models[RoleRoute(name)] else main;
        && provider == w.provider && model == w.name
        && explicit == (name == "" || name == "default" || RoleRoute(name) in models)
    {
      if name == "" || name == "default" {
        return main.provider, main.name, true;
      }
      if RoleRoute(name) in models {
        return models[RoleRoute(name)].provider, models[RoleRoute(name)].name, true;
      }
      return main.provider, main.name, false;
    }

    method CurrentStageSelection(s: Stage) returns (provider: string, model: string, explicit: bool)
      ensures forall birth | Follows(birth) :: (provider, model) == Displayed(birth, config, s)
      ensures explicit == (StageRoute(s) in models && StageRoute(s) in config.roles)
    {
      hide Displayed, Frozen, RolesAgree, Tidy;
      var key := StageRoute(s);
      if key in models {
        provider, model, explicit := models[key].provider, models[key].name, key in config.roles;
      } else {
        provider, model, explicit := CurrentSelection(FallbackRole(s).name);
        explicit := false;
      }
      forall birth | Follows(birth)
        ensures (provider, model) == Displayed(birth, config, s)
      {
        StageSelection(birth, s);
      }
    }

    /** What a stage shows, and the client it reaches through at most two wrappers. */
    lemma {:induction false} StageSelection(birth: Config, s: Stage)
      requires Follows(birth)
      ensures StageRoute(s) in models
      ensures
        var w := models[StageRoute(s)];
        && (w.provider, w.name) == Displayed(birth, config, s)
        && (w.backend.Wrapper? ==> w.backend.inner.backend.Client?)
        && (if w.backend.Wrapper? then w.backend.inner.backend else w.backend) ==
           Client(Routed(birth, config, s).0, Routed(birth, config, s).1)
    {
      hide Trimmed, Full, Trim, Names, Selected, Tidy;
      assert StageFollows(birth, s);
      var role := FallbackRole(s);
      assert role == RoleRoute(role.name) && RoleAgrees(role);
      TidyNames(config, StageRoute(s));
      TidyNames(config, role);
    }

    // ---- Inherited stages -----------------------------------------------------------------------

    /** Every stage for which the set holds no wrapper gets one that inherits from its role. */
    method EnsureInherited()
      requires Valid()
      modifies `models
      ensures Valid()
      ensures forall k | k in old(models) :: k in models && models[k] == old(models[k])
      ensures forall k | k in models && k !in old(models) :: k.StageRoute? && fresh(models[k])
      ensures forall s: Stage :: StageRoute(s) in models
      ensures forall s: Stage | StageRoute(s) !in old(models) :: Inherits(models[StageRoute(s)], Parent(s))
    {
      hide FallbackRole;
      for i := 0 to |STAGES|
        invariant Valid()
        invariant forall k | k in old(models) :: k in models && models[k] == old(models[k])
        invariant forall k | k in models && k !in old(models) :: k.StageRoute? && fresh(models[k])
        invariant forall j | 0 <= j < i :: StageRoute(STAGES[j]) in models
        invariant forall s: Stage | StageRoute(s) in models && StageRoute(s) !in old(models) ::
                    Inherits(models[StageRoute(s)], Parent(s))
      {
        EnsureStage(STAGES[i]);
      }
      forall s: Stage
        ensures StageRoute(s) in models
      {
        AllStages(s);
      }
    }

    method EnsureStage(s: Stage)
      requires Valid()
      modifies `models
      ensures Valid() && StageRoute(s) in models
      ensures forall k | k in old(models) :: k in models && models[k] == old(models[k])
      ensures forall k | k in models && k !in old(models) :: k == StageRoute(s) && fresh(models[k])
      ensures StageRoute(s) !in old(models) ==> Inherits(models[StageRoute(s)], Parent(s))
    {
      hide FallbackRole;
      var key := StageRoute(s);
      if key in models {
        return;
      }
      var parent := Parent(s);
      var w := new SwappableModel(parent.provider, parent.name, Wrapper(parent));
      models := models[key := w];
    }

    /** Every stage without an entry in the configuration is re-pointed at its role; the others are skipped. */
    method RefreshInherited()
      requires Valid()
      modifies this`models, set s: Stage | StageRoute(s) in models && StageRoute(s) !in config.roles :: models[StageRoute(s)]
      ensures Valid()
      ensures forall k | k in old(models) :: k in models && models[k] == old(models[k])
      ensures forall k | k in models && k !in old(models) :: k.StageRoute? && k !in config.roles && fresh(models[k])
      ensures forall s: Stage | StageRoute(s) !in config.roles ::
                StageRoute(s) in models && Inherits(models[StageRoute(s)], Parent(s))
    {
      hide FallbackRole;
      for i := 0 to |STAGES|
        invariant Valid()
        invariant forall k | k in old(models) :: k in models && models[k] == old(models[k])
        invariant forall k | k in models && k !in old(models) :: k.StageRoute? && k !in config.roles && fresh(models[k])
        invariant forall j | 0 <= j < i && StageRoute(STAGES[j]) !in config.roles ::
                    StageRoute(STAGES[j]) in models && Inherits(models[StageRoute(STAGES[j])], Parent(STAGES[j]))
      {
        RefreshStage(STAGES[i]);
      }
      forall s: Stage | StageRoute(s) !in config.roles
        ensures StageRoute(s) in models && Inherits(models[StageRoute(s)], Parent(s))
      {
        AllStages(s);
      }
    }

    method RefreshStage(s: Stage)
      requires Valid()
      modifies this`models
      modifies if StageRoute(s) in models && StageRoute(s) !in config.roles then {models[StageRoute(s)]} else {}
      ensures Valid()
      ensures forall k | k in old(models) :: k in models && models[k] == old(models[k])
      ensures forall k | k in models && k !in old(models) :: k == StageRoute(s) && k !in config.roles && fresh(models[k])
      ensures StageRoute(s) !in config.roles ==> StageRoute(s) in models && Inherits(models[StageRoute(s)], Parent(s))
    {
      hide FallbackRole;
      var key := StageRoute(s);
      if key in config.roles {
        return;
      }
      var parent := Parent(s);
      var provider, model := parent.provider, parent.name;
      if key in models {
        models[key].Swap(provider, model, Wrapper(parent));
        return;
      }
      var w := new SwappableModel(provider, model, Wrapper(parent));
      models := models[key := w];
    }

    /** The entries outside `rest` that name a model have their wrappers, and there are no others. */
    ghost predicate Built(rest: set<Route>)
      reads this, Wrappers()
    {
      && (forall k | k in models :: k in config.roles && k !in rest && !EffortOnly(config.roles[k]))
      && (forall k | k in config.roles && k !in rest && !EffortOnly(config.roles[k]) ::
            k in models && Direct(models[k], config.roles[k].provider, config.roles[k].model))
      && TargetsBuilt(rest)
    }

    predicate TargetsBuilt(rest: set<Route>)
      reads this
    {
      && (forall k | k in fallbacks :: k in config.roles && k !in rest && !EffortOnly(config.roles[k]))
      && (forall k | k in config.roles && k !in rest && !EffortOnly(config.roles[k]) ::
            k in fallbacks && fallbacks[k] == config.roles[k].fallbacks)
    }

    /** The targets of a route, unless one of them cannot be created. */
    method BuildTargets(refs: seq<ModelRef>) returns (targets: Option<seq<ModelRef>>)
      ensures targets == if AllCreatable(config, creates, refs) then Some(refs) else None
    {
      var found: seq<ModelRef> := [];
      for i := 0 to |refs|
        invariant found == refs[..i] && AllCreatable(config, creates, refs[..i])
      {
        if refs[i].provider !in config.providers {
          return None;
        }
        if !creates(refs[i].provider, refs[i].model) {
          return None;
        }
        found := found + [refs[i]];
      }
      Whole(refs);
      targets := Some(found);
    }

    /** Gives one entry of the role table its wrapper, unless it only sets an effort. */
    method AddRole(route: Route, ghost rest: set<Route>) returns (ok: bool)
      requires Valid() && Built(rest) && route in rest && rest <= config.roles.Keys
      modifies `models, `fallbacks
      ensures Valid() && ok == !Broken(config, creates, route)
      ensures ok ==> Built(rest - {route})
      ensures forall k | k in models :: models[k] in old(models).Values || fresh(models[k])
    {
      var rc := config.roles[route];
      if EffortOnly(rc) {
        return true;
      }
      if rc.provider !in config.providers {
        return false;
      }
      if !creates(rc.provider, rc.model) {
        return false;
      }
      var w := new SwappableModel(rc.provider, rc.model, Client(rc.provider, rc.model));
      models := models[route := w];
      var targets := BuildTargets(rc.fallbacks);
      if targets.None? {
        return false;
      }
      fallbacks := fallbacks[route := targets.value];
      ok := true;
    }

    // ---- Swapping -------------------------------------------------------------------------------

    /** A failed switch changes nothing. A successful one points the default or the route at the new client,
        keeps every wrapper object in place, and lets every stage without an entry follow its role; a stage with
        an entry that is not the one switched is left as it was. */
    method Swap(route: Option<Route>, provider: string, model: string) returns (ok: bool)
      requires Valid()
      modifies this, Wrappers()
      ensures Valid()
      ensures ok == (provider in old(config).providers && creates(provider, model)
                     && (route.Some? ==> route.value.StageRoute? || Known(route.value.name)))
      ensures fallbacks == old(fallbacks)
      ensures !ok ==> config == old(config) && models == old(models) && forall w | w in old(Wrappers()) :: unchanged(w)
      ensures ok ==> config == Switch(old(config), route, provider, model)
      ensures ok ==> if route.None? then Direct(main, provider, model)
                     else unchanged(main) && route.value in models && Direct(models[route.value], provider, model)
      ensures forall k | k in old(models) :: k in models && models[k] == old(models[k])
      ensures forall k | k in models && k !in old(models) ::
                fresh(models[k]) && (Some(k) == route || (k.StageRoute? && k !in config.roles))
      ensures ok ==> forall k | k in old(models) && Some(k) != route && (k.RoleRoute? || k in config.roles) :: unchanged(models[k])
      ensures ok ==> forall s: Stage | StageRoute(s) !in config.roles ::
                StageRoute(s) in models && Inherits(models[StageRoute(s)], Parent(s))
    {
      hide FallbackRole, Trim, Known;
      if provider !in config.providers {
        return false;
      }
      if !creates(provider, model) {
        return false;
      }
      if route.None? {
        config := Switch(config, route, provider, model);
        main.Swap(provider, model, Client(provider, model));
        RefreshInherited();
        return true;
      }
      if !(route.value.StageRoute? || Known(route.value.name)) {
        return false;
      }
      config := Switch(config, route, provider, model);
      if route.value in models {
        models[route.value].Swap(provider, model, Client(provider, model));
      } else {
        var w := new SwappableModel(provider, model, Client(provider, model));
        models := models[route.value := w];
      }
      RefreshInherited();
      ok := true;
    }

    // ---- Agreement ------------------------------------------------------------------------------

    /** What the wrappers show, as a value. */
    ghost function Snapshot(): (shown: map<SwappableModel, Shown>)
      reads this, Wrappers()
      ensures shown.Keys == Wrappers()
    {
      map w | w in Wrappers() :: Shown(w.provider, w.name, w.backend)
    }

    lemma {:induction false} FollowsIff(birth: Config)
      ensures Follows(birth) <==> FollowsIn(birth, config, main, models, Snapshot())
    {
      hide Tidy, Full, FallbackRole, Effective, Names, EffortOnly;
      var shown := Snapshot();
      forall name: string
        ensures RoleAgrees(RoleRoute(name)) <==> RoleAgreesIn(config, models, shown, RoleRoute(name))
      {
      }
      forall s: Stage
        ensures StageFollows(birth, s) <==> StageFollowsIn(birth, config, main, models, shown, s)
      {
      }
    }
  }

  datatype Shown = Shown(provider: string, name: string, backend: Backend)

  ghost predicate RoleAgreesIn(cfg: Config, models: map<Route, SwappableModel>, shown: map<SwappableModel, Shown>, route: Route) {
    && (route in models <==> route in cfg.roles && Full(cfg.roles[route]))
    && (route in models ==>
          && models[route] in shown
          && shown[models[route]] == Shown(cfg.roles[route].provider, cfg.roles[route].model,
                                           Client(cfg.roles[route].provider, cfg.roles[route].model)))
  }

  function ParentIn(main: SwappableModel, models: map<Route, SwappableModel>, s: Stage): SwappableModel {
    if FallbackRole(s) in models then models[FallbackRole(s)] else main
  }

  ghost predicate FrozenIn(
      birth: Config, main: SwappableModel, models: map<Route, SwappableModel>, shown: map<SwappableModel, Shown>, s: Stage)
  {
    var key, role := StageRoute(s), FallbackRole(s);
    && key in models && models[key] in shown && (Names(birth, role) ==> role in models)
    && shown[models[key]] ==
       Shown(Effective(birth, key).0, Effective(birth, key).1, Wrapper(if Names(birth, role) then models[role] else main))
  }

  ghost predicate StageFollowsIn(
      birth: Config, cfg: Config, main: SwappableModel, models: map<Route, SwappableModel>,
      shown: map<SwappableModel, Shown>, s: Stage)
  {
    var key, parent := StageRoute(s), ParentIn(main, models, s);
    && key in models && models[key] in shown && parent in shown
    && if key !in cfg.roles then shown[models[key]] == Shown(shown[parent].provider, shown[parent].name, Wrapper(parent))
       else if EffortOnly(cfg.roles[key]) then FrozenIn(birth, main, models, shown, s)
       else shown[models[key]] ==
            Shown(cfg.roles[key].provider, cfg.roles[key].model, Client(cfg.roles[key].provider, cfg.roles[key].model))
  }

  /** The same statement about values. */
  ghost predicate FollowsIn(
      birth: Config, cfg: Config, main: SwappableModel, models: map<Route, SwappableModel>, shown: map<SwappableModel, Shown>)
  {
    && Tidy(cfg) && main in shown
    && shown[main] == Shown(cfg.provider, cfg.model, Client(cfg.provider, cfg.model))
    && (forall name: string :: RoleAgreesIn(cfg, models, shown, RoleRoute(name)))
    && forall s: Stage :: StageFollowsIn(birth, cfg, main, models, shown, s)
  }

  /** Whatever was in step with the configuration is in step with the switched one. */
  lemma {:induction false} AgreementKept(
      birth: Config, cfg: Config, main: SwappableModel, models: map<Route, SwappableModel>, shown: map<SwappableModel, Shown>,
      models': map<Route, SwappableModel>, shown': map<SwappableModel, Shown>,
      route: Option<Route>, provider: string, model: string)
    requires FollowsIn(birth, cfg, main, models, shown)
    requires provider != "" && model != "" && Trimmed(provider) && Trimmed(model)
    requires main in shown' && models'.Values <= shown'.Keys
    requires if route.None? then shown'[main] == Shown(provider, model, Client(provider, model))
             else shown'[main] == shown[main] && route.value in models' &&
                  shown'[models'[route.value]] == Shown(provider, model, Client(provider, model))
    requires forall k | k in models :: k in models' && models'[k] == models[k]
    requires
      var cfg' := Switch(cfg, route, provider, model);
      && (forall k | k in models' && k !in models :: Some(k) == route || (k.StageRoute? && k !in cfg'.roles))
      && (forall k | k in models && models[k] in shown && Some(k) != route && (k.RoleRoute? || k in cfg'.roles) ::
            shown'[models'[k]] == shown[models[k]])
      && (forall s: Stage | StageRoute(s) !in cfg'.roles ::
            var parent := ParentIn(main, models', s);
            && StageRoute(s) in models' && parent in shown'
            && shown'[models'[StageRoute(s)]] == Shown(shown'[parent].provider, shown'[parent].name, Wrapper(parent)))
    ensures FollowsIn(birth, Switch(cfg, route, provider, model), main, models', shown')
  {
    hide Trimmed, Trim, FallbackRole, Names, Effective;
    var cfg' := Switch(cfg, route, provider, model);
    forall name: string
      ensures RoleAgreesIn(cfg', models', shown', RoleRoute(name))
    {
      assert RoleAgreesIn(cfg, models, shown, RoleRoute(name));
    }
    forall s: Stage
      ensures StageFollowsIn(birth, cfg', main, models', shown', s)
    {
      assert StageFollowsIn(birth, cfg, main, models, shown, s);
      assert ParentIn(main, models', s) in shown';
    }
    forall r | r in cfg'.roles
      ensures Full(cfg'.roles[r]) || EffortOnly(cfg'.roles[r])
    {
      if Some(r) != route {
        assert cfg.roles[r] == cfg'.roles[r];
      }
    }
  }

  /** A role entry that names a model, which or one of whose fallbacks cannot be created. */
  predicate Broken(cfg: Config, creates: (string, string) -> bool, route: Route)
    requires route in cfg.roles
  {
    var rc := cfg.roles[route];
    && !EffortOnly(rc)
    && !(rc.provider in cfg.providers && creates(rc.provider, rc.model) && AllCreatable(cfg, creates, rc.fallbacks))
  }

  predicate AllCreatable(cfg: Config, creates: (string, string) -> bool, refs: seq<ModelRef>) {
    forall i | 0 <= i < |refs| :: refs[i].provider in cfg.providers && creates(refs[i].provider, refs[i].model)
  }

  /** The wrappers of a new set: one per entry that names a model, and inherited ones for the other stages. */
  ghost predicate Starts(ms: ModelSet, cfg: Config)
    reads ms, ms.Wrappers()
  {
    && ms.config == cfg && Direct(ms.main, cfg.provider, cfg.model) && ms.TargetsBuilt({})
    && (forall k | k in ms.models && !(k in cfg.roles && !EffortOnly(cfg.roles[k])) :: k.StageRoute?)
    && (forall k | k in cfg.roles && !EffortOnly(cfg.roles[k]) ::
          k in ms.models && Direct(ms.models[k], cfg.roles[k].provider, cfg.roles[k].model))
    && (forall s: Stage | !(StageRoute(s) in cfg.roles && !EffortOnly(cfg.roles[StageRoute(s)])) ::
          StageRoute(s) in ms.models && Inherits(ms.models[StageRoute(s)], ms.Parent(s)))
  }

  method BuildRoles(cfg: Config, creates: (string, string) -> bool) returns (built: Option<ModelSet>)
    ensures built.None? <==> exists route :: route in cfg.roles && Broken(cfg, creates, route)
    ensures built.Some? ==>
              var ms := built.value;
              && fresh(ms) && fresh(ms.Wrappers()) && ms.Valid() && ms.creates == creates && ms.config == cfg
              && Direct(ms.main, cfg.provider, cfg.model) && ms.Built({})
  {
    hide EffortOnly, Broken, ModelSet.Built;
    var main := new SwappableModel(cfg.provider, cfg.model, Client(cfg.provider, cfg.model));
    var ms := new ModelSet(cfg, creates, main);
    var rest := cfg.roles.Keys;
    while rest != {}
      invariant rest <= cfg.roles.Keys && fresh(ms) && fresh(ms.Wrappers()) && ms.Valid()
      invariant ms.config == cfg && ms.main == main && Direct(main, cfg.provider, cfg.model)
      invariant forall k | k in cfg.roles && k !in rest :: !Broken(cfg, creates, k)
      invariant ms.Built(rest)
      decreases |rest|
    {
      var route :| route in rest;
      var ok := ms.AddRole(route, rest);
      if !ok {
        return None;
      }
      rest := rest - {route};
    }
    built := Some(ms);
  }

  /** The wrappers of the other stages. */
  method Complete(ms: ModelSet)
    requires ms.Valid() && ms.Built({}) && Direct(ms.main, ms.config.provider, ms.config.model)
    modifies ms`models
    ensures ms.Valid() && Starts(ms, ms.config)
    ensures forall w | w in ms.Wrappers() :: w in old(ms.Wrappers()) || fresh(w)
  {
    hide EffortOnly, FallbackRole;
    ms.EnsureInherited();
  }

  method NewModelSet(cfg: Config, creates: (string, string) -> bool) returns (created: Option<ModelSet>)
    ensures created.None? <==> !creates(cfg.provider, cfg.model) || exists route :: route in cfg.roles && Broken(cfg, creates, route)
    ensures created.Some? ==>
              var ms := created.value;
              && fresh(ms) && fresh(ms.Wrappers()) && ms.Valid() && ms.creates == creates
              && Starts(ms, cfg) && (Tidy(cfg) ==> ms.Follows(cfg))
  {
    hide EffortOnly, Tidy, Broken, FallbackRole;
    if !creates(cfg.provider, cfg.model) {
      return None;
    }
    created := BuildRoles(cfg, creates);
    if created.None? {
      return;
    }
    var ms := created.value;
    Complete(ms);
    hide Starts, ModelSet.Follows, ModelSet.Valid, ModelSet.Built;
    if Tidy(cfg) {
      StartsFollow(ms, cfg);
    }
  }

  lemma {:induction false} StartsFollow(ms: ModelSet, cfg: Config)
    requires ms.Valid() && Starts(ms, cfg) && Tidy(cfg)
    ensures ms.Follows(cfg)
  {
    hide FallbackRole, Trim, Names, Selected, Tidy, EffortOnly, Full;
    forall name: string
      ensures ms.RoleAgrees(RoleRoute(name))
    {
      TidyNames(cfg, RoleRoute(name));
    }
    forall s: Stage
      ensures ms.StageFollows(cfg, s)
    {
      TidyNames(cfg, StageRoute(s));
      TidyNames(cfg, FallbackRole(s));
    }
  }

  /** A switch to a trimmed pair, accepted or refused, keeps the set in step. */
  method Apply(ms: ModelSet, c: Change, ghost birth: Config)
    requires ms.Valid() && ms.Follows(birth) && Proper(c)
    modifies ms, ms.Wrappers()
    ensures ms.Valid() && ms.Follows(birth) && fresh(ms.Wrappers() - old(ms.Wrappers()))
    ensures ms.config == Next(old(ms.config), ms.creates, c)
  {
    hide Trimmed, Tidy, Switch, FallbackRole, FollowsIn, ModelSet.Follows;
    ghost var cfg, models, shown := ms.config, ms.models, ms.Snapshot();
    ms.FollowsIff(birth);
    var ok := ms.Swap(c.route, c.provider, c.model);
    if ok {
      AgreementKept(birth, cfg, ms.main, models, shown, ms.models, ms.Snapshot(), c.route, c.provider, c.model);
    } else {
      assert ms.Snapshot() == shown;
    }
    ms.FollowsIff(birth);
  }

  method ApplyAll(ms: ModelSet, changes: seq<Change>, ghost birth: Config)
    requires ms.Valid() && ms.Follows(birth) && AllProper(changes)
    modifies ms, ms.Wrappers()
    ensures ms.Valid() && ms.Follows(birth)
    ensures ms.config == After(old(ms.config), ms.creates, changes)
  {
    hide Proper, Next, ModelSet.Follows, ModelSet.Valid;
    for i := 0 to |changes|
      invariant fresh(ms.Wrappers() - old(ms.Wrappers())) && ms.Valid() && ms.Follows(birth)
      invariant ms.config == After(old(ms.config), ms.creates, changes[..i])
    {
      Prefix(changes, i);
      Apply(ms, changes[i], birth);
    }
    Whole(changes);
  }

  /** After creation from a tidy configuration and any sequence of switches, of which the accepted ones count:
      what each stage shows, and the client it reaches through at most two wrappers. */
  method Session(cfg: Config, creates: (string, string) -> bool, changes: seq<Change>) returns (result: Option<ModelSet>)
    requires Tidy(cfg) && AllProper(changes)
    ensures result.None? <==> !creates(cfg.provider, cfg.model) || exists route :: route in cfg.roles && Broken(cfg, creates, route)
    ensures result.Some? ==>
              && result.value.Valid() && result.value.Follows(cfg)
              && result.value.config == After(cfg, creates, changes)
              && forall s: Stage :: StageRoute(s) in result.value.models
    ensures result.Some? ==>
              forall s: Stage ::
                var w, last := result.value.models[StageRoute(s)], After(cfg, creates, changes);
                && (w.provider, w.name) == Displayed(cfg, last, s)
                && (w.backend.Wrapper? ==> w.backend.inner.backend.Client?)
                && (if w.backend.Wrapper? then w.backend.inner.backend else w.backend) ==
                   Client(Routed(cfg, last, s).0, Routed(cfg, last, s).1)
  {
    result := NewModelSet(cfg, creates);
    if result.None? {
      return;
    }
    var ms := result.value;
    assert ms.config == cfg;
    hide Starts, Tidy, Proper, Displayed, Routed, Broken, After, ModelSet.Follows, ModelSet.Valid;
    ApplyAll(ms, changes, cfg);
    forall s: Stage {
      ms.StageSelection(cfg, s);
    }
  }
}
