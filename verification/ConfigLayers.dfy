/** Layered configuration: what merging an overlay into a base means (internal/bootstrap/configfile.go). */
module ConfigLayers {
  import opened Text

  datatype Budget = Budget(bookUsd: real, warnRatio: real, hardStop: bool)

  datatype Notify = Notify(enabled: Option<bool>, command: string, events: seq<string>)

  /** `own` stands for the fields a merge never touches. */
  datatype Scalars = Scalars(
    own: string, dailyTimes: Option<seq<string>>, timezone: string, resumeEnabled: Option<bool>,
    provider: string, model: string, effort: string,
    cocreateTimeout: int, cocreateTokens: int, structureRepair: int, budgetQuality: int, outlineAudit: int,
    simulation: string, proxy: string, autoEnabled: Option<bool>, backends: seq<string>, networkMax: int,
    style: string, contextWindow: int, runtimeRoot: string, budget: Budget, notify: Notify)

  datatype ProviderScalars = ProviderScalars(
    title: string, template: string, disabled: bool, useProxy: Option<bool>, requestTimeout: int,
    connectivityTimeout: int, authFile: string, kind: string, auth: string, accountId: string, api: string,
    apiKey: string, baseUrl: string, models: seq<string>, extraBody: map<string, string>, extra: map<string, string>)

  datatype Provider = Provider(scalars: ProviderScalars, efforts: Option<map<string, string>>)

  datatype Role = Role(provider: string, model: string, fallbacks: seq<string>, effort: string)

  /** One layer; an absent table is a nil map. */
  datatype Layer = Layer(
    scalars: Scalars, providers: Option<map<string, Provider>>, roles: Option<map<string, Role>>)

  const NO_SCALARS := ProviderScalars("", "", false, None, 0, 0, "", "", "", "", "", "", "", [], map[], map[])
  const NO_PROVIDER := Provider(NO_SCALARS, None)
  const NO_ROLE := Role("", "", [], "")

  // ---- Single values ----------------------------------------------------------------------------

  function NonEmpty(base: string, overlay: string): string { if overlay != "" then overlay else base }

  function Positive(base: int, overlay: int): int { if overlay > 0 then overlay else base }

  function Flag(base: Option<bool>, overlay: Option<bool>): Option<bool> { if overlay.Some? then overlay else base }

  function List(base: seq<string>, overlay: seq<string>): seq<string> { if overlay != [] then overlay else base }

  function Block(base: map<string, string>, overlay: map<string, string>): map<string, string> {
    if overlay != map[] then overlay else base
  }

  /** Copying a present but empty list yields an absent one. */
  function Times(base: Option<seq<string>>, overlay: Option<seq<string>>): Option<seq<string>> {
    if overlay.None? then base else if overlay.value == [] then None else overlay
  }

  function Zone(base: string, overlay: string): string { if Trim(overlay) != "" then overlay else base }

  predicate NoNotify(n: Notify) {
    n.enabled.None? && n.command == "" && n.events == []
  }

  const NO_BUDGET := Budget(0.0, 0.0, false)

  function MergeScalars(base: Scalars, overlay: Scalars): Scalars {
    Scalars(
      base.own, Times(base.dailyTimes, overlay.dailyTimes), Zone(base.timezone, overlay.timezone),
      Flag(base.resumeEnabled, overlay.resumeEnabled), NonEmpty(base.provider, overlay.provider),
      NonEmpty(base.model, overlay.model), NonEmpty(base.effort, overlay.effort),
      Positive(base.cocreateTimeout, overlay.cocreateTimeout), Positive(base.cocreateTokens, overlay.cocreateTokens),
      Positive(base.structureRepair, overlay.structureRepair), Positive(base.budgetQuality, overlay.budgetQuality),
      Positive(base.outlineAudit, overlay.outlineAudit), NonEmpty(base.simulation, overlay.simulation),
      NonEmpty(base.proxy, overlay.proxy), Flag(base.autoEnabled, overlay.autoEnabled), List(base.backends, overlay.backends),
      Positive(base.networkMax, overlay.networkMax), NonEmpty(base.style, overlay.style),
      Positive(base.contextWindow, overlay.contextWindow), NonEmpty(base.runtimeRoot, overlay.runtimeRoot),
      if overlay.budget != NO_BUDGET then overlay.budget else base.budget,
      if NoNotify(overlay.notify) then base.notify else overlay.notify)
  }

  // ---- Tables -----------------------------------------------------------------------------------

  /** The auth file of a provider is never taken from an overlay. */
  function MergeProviderScalars(base: ProviderScalars, overlay: ProviderScalars): ProviderScalars {
    ProviderScalars(
      NonEmpty(base.title, overlay.title), NonEmpty(base.template, overlay.template), base.disabled || overlay.disabled,
      Flag(base.useProxy, overlay.useProxy), Positive(base.requestTimeout, overlay.requestTimeout),
      Positive(base.connectivityTimeout, overlay.connectivityTimeout), base.authFile,
      NonEmpty(base.kind, overlay.kind), NonEmpty(base.auth, overlay.auth), NonEmpty(base.accountId, overlay.accountId),
      NonEmpty(base.api, overlay.api), NonEmpty(base.apiKey, overlay.apiKey), NonEmpty(base.baseUrl, overlay.baseUrl),
      List(base.models, overlay.models), Block(base.extraBody, overlay.extraBody), Block(base.extra, overlay.extra))
  }

  function MergeEfforts(base: Option<map<string, string>>, overlay: Option<map<string, string>>): Option<map<string, string>> {
    if overlay.None? || overlay.value == map[] then base
    else if base.None? then overlay
    else Some(base.value + overlay.value)
  }

  function MergeProvider(base: Provider, overlay: Provider): Provider {
    Provider(MergeProviderScalars(base.scalars, overlay.scalars), MergeEfforts(base.efforts, overlay.efforts))
  }

  function MergeRole(base: Role, overlay: Role): Role {
    Role(NonEmpty(base.provider, overlay.provider), NonEmpty(base.model, overlay.model),
         List(base.fallbacks, overlay.fallbacks), NonEmpty(base.effort, overlay.effort))
  }

  /** Tables merge key by key, each new key onto an empty entry. */
  function MergeTable<T>(merge: (T, T) -> T, empty: T, base: map<string, T>, overlay: map<string, T>): map<string, T> {
    map k | k in base.Keys + overlay.Keys ::
      if k !in overlay then base[k] else merge(if k in base then base[k] else empty, overlay[k])
  }

  function MergeOptional<T>(merge: (T, T) -> T, empty: T, base: Option<map<string, T>>, overlay: Option<map<string, T>>): Option<map<string, T>> {
    if overlay.None? || overlay.value == map[] then base
    else Some(MergeTable(merge, empty, if base.Some? then base.value else map[], overlay.value))
  }

  function Merge(base: Layer, overlay: Layer): Layer {
    Layer(MergeScalars(base.scalars, overlay.scalars),
          MergeOptional(MergeProvider, NO_PROVIDER, base.providers, overlay.providers),
          MergeOptional(MergeRole, NO_ROLE, base.roles, overlay.roles))
  }

  // ---- Laws -------------------------------------------------------------------------------------

  /** Merging is associative and idempotent on entries, and an entry merged onto the empty one says the same. */
  ghost predicate Lawful<T(!new)>(merge: (T, T) -> T, empty: T) {
    && (forall a, b, c :: merge(merge(a, b), c) == merge(a, merge(b, c)))
    && (forall a, b :: merge(merge(a, b), b) == merge(a, b))
    && (forall a, b :: merge(a, merge(empty, b)) == merge(a, b))
  }

  lemma {:induction false} EffortsLaws(a: Option<map<string, string>>, b: Option<map<string, string>>, c: Option<map<string, string>>)
    ensures MergeEfforts(MergeEfforts(a, b), c) == MergeEfforts(a, MergeEfforts(b, c))
    ensures MergeEfforts(MergeEfforts(a, b), b) == MergeEfforts(a, b)
    ensures MergeEfforts(a, MergeEfforts(None, b)) == MergeEfforts(a, b)
  {
    if b.Some? {
      assert b.value + b.value == b.value;
      if a.Some? {
        assert (a.value + b.value) + b.value == a.value + b.value;
      }
      if c.Some? {
        SumsAssociate(if a.Some? then a.value else map[], b.value, c.value);
      }
    }
  }

  lemma {:induction false} SumsAssociate(a: map<string, string>, b: map<string, string>, c: map<string, string>)
    ensures (a + b) + c == a + (b + c)
    ensures map[] + c == c
    ensures c != map[] ==> b + c != map[]
  {
    if c != map[] {
      var k :| k in c;
      assert k in b + c;
    }
  }

  lemma {:induction false} ProviderScalarsLaws(a: ProviderScalars, b: ProviderScalars, c: ProviderScalars)
    ensures MergeProviderScalars(MergeProviderScalars(a, b), c) == MergeProviderScalars(a, MergeProviderScalars(b, c))
    ensures MergeProviderScalars(MergeProviderScalars(a, b), b) == MergeProviderScalars(a, b)
    ensures MergeProviderScalars(a, MergeProviderScalars(NO_SCALARS, b)) == MergeProviderScalars(a, b)
  {
  }

  lemma {:induction false} ProviderLaws()
    ensures Lawful(MergeProvider, NO_PROVIDER)
  {
    hide MergeEfforts, MergeProviderScalars;
    var merge := MergeProvider;
    forall a, b, c
      ensures merge(merge(a, b), c) == merge(a, merge(b, c))
    {
      EffortsLaws(a.efforts, b.efforts, c.efforts);
      ProviderScalarsLaws(a.scalars, b.scalars, c.scalars);
    }
    forall a, b
      ensures merge(merge(a, b), b) == merge(a, b)
      ensures merge(a, merge(NO_PROVIDER, b)) == merge(a, b)
    {
      EffortsLaws(a.efforts, b.efforts, None);
      ProviderScalarsLaws(a.scalars, b.scalars, b.scalars);
    }
  }

  lemma {:induction false} RoleLaws()
    ensures Lawful(MergeRole, NO_ROLE)
  {
  }

  lemma {:induction false} TableAssociative<T(!new)>(
      merge: (T, T) -> T, empty: T, a: map<string, T>, b: map<string, T>, c: map<string, T>)
    requires Lawful(merge, empty)
    ensures MergeTable(merge, empty, MergeTable(merge, empty, a, b), c) ==
            MergeTable(merge, empty, a, MergeTable(merge, empty, b, c))
  {
    var left := MergeTable(merge, empty, MergeTable(merge, empty, a, b), c);
    var right := MergeTable(merge, empty, a, MergeTable(merge, empty, b, c));
    forall k
      ensures k in left <==> k in right
      ensures k in left ==> left[k] == right[k]
    {
    }
  }

  lemma {:induction false} TableIdempotent<T(!new)>(merge: (T, T) -> T, empty: T, a: map<string, T>, b: map<string, T>)
    requires Lawful(merge, empty)
    ensures MergeTable(merge, empty, MergeTable(merge, empty, a, b), b) == MergeTable(merge, empty, a, b)
  {
  }

  lemma {:induction false} TableNonEmpty<T>(merge: (T, T) -> T, empty: T, a: map<string, T>, b: map<string, T>)
    requires b != map[]
    ensures MergeTable(merge, empty, a, b) != map[]
  {
    var k :| k in b;
    assert k in MergeTable(merge, empty, a, b);
  }

  lemma {:induction false} TableOnNothing<T(!new)>(merge: (T, T) -> T, empty: T, a: map<string, T>, b: map<string, T>)
    requires Lawful(merge, empty)
    ensures MergeTable(merge, empty, a, MergeTable(merge, empty, map[], b)) == MergeTable(merge, empty, a, b)
  {
  }

  lemma {:induction false} OptionalLaws<T(!new)>(
      merge: (T, T) -> T, empty: T, a: Option<map<string, T>>, b: Option<map<string, T>>, c: Option<map<string, T>>)
    requires Lawful(merge, empty)
    ensures MergeOptional(merge, empty, MergeOptional(merge, empty, a, b), c) ==
            MergeOptional(merge, empty, a, MergeOptional(merge, empty, b, c))
    ensures MergeOptional(merge, empty, MergeOptional(merge, empty, a, b), b) == MergeOptional(merge, empty, a, b)
  {
    var a', b' := if a.Some? then a.value else map[], if b.Some? then b.value else map[];
    TableIdempotent(merge, empty, a', b');
    if c.Some? && c.value != map[] {
      TableNonEmpty(merge, empty, b', c.value);
      TableAssociative(merge, empty, a', b', c.value);
      TableOnNothing(merge, empty, a', c.value);
      hide MergeTable;
      if b.Some? && b.value == map[] {
        assert b' == map[];
      }
    }
  }

  lemma {:induction false} TimesLaws(a: Option<seq<string>>, b: Option<seq<string>>, c: Option<seq<string>>)
    ensures Times(Times(a, b), c) == Times(a, Times(b, c)) <==> !(c == Some([]) && a.Some?)
    ensures Times(Times(a, b), b) == Times(a, b)
  {
  }

  lemma {:induction false} ScalarsAssociative(a: Scalars, b: Scalars, c: Scalars)
    ensures MergeScalars(MergeScalars(a, b), c) == MergeScalars(a, MergeScalars(b, c)) <==>
            !(c.dailyTimes == Some([]) && a.dailyTimes.Some?)
  {
    TimesLaws(a.dailyTimes, b.dailyTimes, c.dailyTimes);
    hide Times, Trim;
  }

  lemma {:induction false} ScalarsIdempotent(a: Scalars, b: Scalars)
    ensures MergeScalars(MergeScalars(a, b), b) == MergeScalars(a, b)
  {
    TimesLaws(a.dailyTimes, b.dailyTimes, b.dailyTimes);
    hide Times, Trim;
  }

  /** Layers may be merged in either grouping, exactly when the last one does not set an empty list of daily times
      over a first one that has any. */
  lemma {:induction false} MergeAssociative(a: Layer, b: Layer, c: Layer)
    ensures Merge(Merge(a, b), c) == Merge(a, Merge(b, c)) <==>
            !(c.scalars.dailyTimes == Some([]) && a.scalars.dailyTimes.Some?)
  {
    hide MergeScalars, MergeOptional, MergeProvider, MergeRole;
    ScalarsAssociative(a.scalars, b.scalars, c.scalars);
    ProviderLaws();
    RoleLaws();
    OptionalLaws(MergeProvider, NO_PROVIDER, a.providers, b.providers, c.providers);
    OptionalLaws(MergeRole, NO_ROLE, a.roles, b.roles, c.roles);
  }

  /** With an explicitly empty list on top, the grouping decides whether the daily times survive. */
  lemma {:induction false} EmptyTimesDecide(a: Layer)
    requires a.scalars.dailyTimes == Some(["08:00"])
    ensures
      var top := a.(scalars := a.scalars.(dailyTimes := Some([])));
      && Merge(Merge(a, a), top).scalars.dailyTimes == None
      && Merge(a, Merge(a, top)).scalars.dailyTimes == a.scalars.dailyTimes
  {
    hide MergeOptional, MergeProvider, MergeRole;
  }

  /** Merging the same overlay again changes nothing. */
  lemma {:induction false} MergeIdempotent(base: Layer, overlay: Layer)
    ensures Merge(Merge(base, overlay), overlay) == Merge(base, overlay)
  {
    hide MergeScalars, MergeOptional, MergeProvider, MergeRole;
    ScalarsIdempotent(base.scalars, overlay.scalars);
    ProviderLaws();
    RoleLaws();
    OptionalLaws(MergeProvider, NO_PROVIDER, base.providers, overlay.providers, overlay.providers);
    OptionalLaws(MergeRole, NO_ROLE, base.roles, overlay.roles, overlay.roles);
  }
}
