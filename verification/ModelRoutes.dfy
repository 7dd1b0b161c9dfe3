/** Which provider and model a configuration gives each role and workflow stage (internal/bootstrap/config.go). */
module ModelRoutes {
  import opened Text

  datatype Stage =
    | CoCreate | SourceAnalysis | CharacterAnalysis | CharacterReview
    | Skeleton | DetailOutline | Writing | Review

  const STAGES: seq<Stage> :=
    [CoCreate, SourceAnalysis, CharacterAnalysis, CharacterReview, Skeleton, DetailOutline, Writing, Review]

  lemma {:induction false} AllStages(s: Stage)
    ensures exists i | 0 <= i < |STAGES| :: STAGES[i] == s
  {
    match s
    case CoCreate => assert STAGES[0] == s;
    case SourceAnalysis => assert STAGES[1] == s;
    case CharacterAnalysis => assert STAGES[2] == s;
    case CharacterReview => assert STAGES[3] == s;
    case Skeleton => assert STAGES[4] == s;
    case DetailOutline => assert STAGES[5] == s;
    case Writing => assert STAGES[6] == s;
    case Review => assert STAGES[7] == s;
  }

  /** The keys of the role table: an agent role by name, or a workflow stage. */
  datatype Route = RoleRoute(name: string) | StageRoute(stage: Stage)

  function FallbackRole(s: Stage): (role: Route)
    ensures role.RoleRoute?
  {
    match s
    case CoCreate | SourceAnalysis | Skeleton | DetailOutline => RoleRoute("architect")
    case Writing => RoleRoute("writer")
    case Review => RoleRoute("editor")
    case CharacterAnalysis | CharacterReview => RoleRoute("character")
  }

  datatype ModelRef = ModelRef(provider: string, model: string)

  datatype RoleConfig = RoleConfig(provider: string, model: string, effort: string, fallbacks: seq<ModelRef>)

  datatype Config = Config(provider: string, model: string, roles: map<Route, RoleConfig>, providers: set<string>)

  /** The entry names a provider and a model. */
  predicate Names(cfg: Config, route: Route) {
    route in cfg.roles && Trim(cfg.roles[route].provider) != "" && Trim(cfg.roles[route].model) != ""
  }

  function Selected(cfg: Config, route: Route): (string, string)
    requires Names(cfg, route)
  {
    (Trim(cfg.roles[route].provider), Trim(cfg.roles[route].model))
  }

  function Effective(cfg: Config, route: Route): (string, string) {
    if Names(cfg, route) then Selected(cfg, route)
    else if route.StageRoute? && Names(cfg, FallbackRole(route.stage)) then Selected(cfg, FallbackRole(route.stage))
    else (Trim(cfg.provider), Trim(cfg.model))
  }

  predicate Trimmed(s: string) {
    Trim(s) == s
  }

  /** Names both, without surrounding blanks. */
  predicate Full(rc: RoleConfig) {
    rc.provider != "" && rc.model != "" && Trimmed(rc.provider) && Trimmed(rc.model)
  }

  /** Sets a reasoning effort only. */
  predicate EffortOnly(rc: RoleConfig) {
    rc.provider == "" && rc.model == ""
  }

  /** Trimmed names and no half entries. */
  predicate Tidy(cfg: Config) {
    && Trimmed(cfg.provider) && Trimmed(cfg.model)
    && forall route | route in cfg.roles :: Full(cfg.roles[route]) || EffortOnly(cfg.roles[route])
  }

  /** The stage has an entry that sets a reasoning effort and names no model. */
  predicate EffortStage(cfg: Config, s: Stage) {
    StageRoute(s) in cfg.roles && EffortOnly(cfg.roles[StageRoute(s)])
  }

  lemma {:induction false} TidyNames(cfg: Config, route: Route)
    requires Tidy(cfg)
    ensures Names(cfg, route) <==> route in cfg.roles && !EffortOnly(cfg.roles[route])
    ensures Names(cfg, route) <==> route in cfg.roles && Full(cfg.roles[route])
    ensures Names(cfg, route) ==> Selected(cfg, route) == (cfg.roles[route].provider, cfg.roles[route].model)
    ensures (Trim(cfg.provider), Trim(cfg.model)) == (cfg.provider, cfg.model)
  {
    TrimFixed("");
    hide Trim;
  }

  predicate Known(name: string) {
    name in {"coordinator", "architect", "character", "writer", "editor", "auditor"}
  }

  /** The configuration after the switch of the default model (None) or of a route. */
  function Switch(cfg: Config, route: Option<Route>, provider: string, model: string): Config {
    var providers := if Trim(provider) != "" && Trim(model) != "" then cfg.providers + {Trim(provider)} else cfg.providers;
    if route.None? then cfg.(provider := provider, model := model, providers := providers)
    else
      var had := if route.value in cfg.roles then cfg.roles[route.value] else RoleConfig("", "", "", []);
      cfg.(roles := cfg.roles[route.value := had.(provider := provider, model := model)], providers := providers)
  }
}
