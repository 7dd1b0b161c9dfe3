/** The merge as it runs: tables are shared maps, the base's are overwritten in place. */
module ConfigMerge {
  import opened Text
  import opened ConfigLayers

  class EffortTable {
    var entries: map<string, string>

    constructor ()
      ensures entries == map[]
    {
      entries := map[];
    }
  }

  datatype LiveProvider = LiveProvider(scalars: ProviderScalars, efforts: Option<EffortTable>)

  /** The effort tables the entries hold. */
  ghost function EffortsOf(entries: map<string, LiveProvider>): set<EffortTable> {
    set k | k in entries && entries[k].efforts.Some? :: entries[k].efforts.value
  }

  /** No two entries share an effort table. */
  ghost predicate SeparateIn(entries: map<string, LiveProvider>) {
    forall j, k | j in entries && k in entries && entries[j].efforts.Some? && entries[j].efforts == entries[k].efforts :: j == k
  }

  class ProviderTable {
    var entries: map<string, LiveProvider>

    constructor ()
      ensures entries == map[]
    {
      entries := map[];
    }

    ghost function Efforts(): set<EffortTable>
      reads this
    {
      EffortsOf(entries)
    }

    ghost predicate Separate()
      reads this
    {
      SeparateIn(entries)
    }

    ghost function View(): (view: map<string, Provider>)
      reads this, Efforts()
      ensures view.Keys == entries.Keys
    {
      map k | k in entries :: Provider(entries[k].scalars, ViewEfforts(entries[k].efforts))
    }
  }

  ghost function ViewEfforts(efforts: Option<EffortTable>): Option<map<string, string>>
    reads if efforts.Some? then {efforts.value} else {}
  {
    if efforts.Some? then Some(efforts.value.entries) else None
  }

  class RoleTable {
    var entries: map<string, Role>

    constructor ()
      ensures entries == map[]
    {
      entries := map[];
    }
  }

  datatype LiveConfig = LiveConfig(scalars: Scalars, providers: Option<ProviderTable>, roles: Option<RoleTable>)

  ghost function ProviderObjects(p: Option<ProviderTable>): set<object>
    reads if p.Some? then {p.value} else {}
  {
    if p.Some? then {p.value as object} + p.value.Efforts() else {}
  }

  ghost function RoleObjects(r: Option<RoleTable>): set<object> {
    if r.Some? then {r.value as object} else {}
  }

  ghost function ViewProviders(p: Option<ProviderTable>): Option<map<string, Provider>>
    reads ProviderObjects(p), if p.Some? then {p.value} else {}
  {
    if p.Some? then Some(p.value.View()) else None
  }

  ghost function ViewRoles(r: Option<RoleTable>): Option<map<string, Role>>
    reads RoleObjects(r)
  {
    if r.Some? then Some(r.value.entries) else None
  }

  ghost function View(c: LiveConfig): Layer
    reads ProviderObjects(c.providers), RoleObjects(c.roles), if c.providers.Some? then {c.providers.value} else {}
  {
    Layer(c.scalars, ViewProviders(c.providers), ViewRoles(c.roles))
  }

  // ---- One provider -----------------------------------------------------------------------------

  method MergeLiveScalars(base: ProviderScalars, v: ProviderScalars) returns (existing: ProviderScalars)
    ensures existing == MergeProviderScalars(base, v)
  {
    existing := MergeLiveBasics(base, v);
    existing := MergeLiveAccess(existing, v);
    existing := MergeLivePayload(existing, v);
  }

  method MergeLiveBasics(base: ProviderScalars, v: ProviderScalars) returns (existing: ProviderScalars)
    ensures existing == base.(
                          title := NonEmpty(base.title, v.title), template := NonEmpty(base.template, v.template),
                          disabled := base.disabled || v.disabled, useProxy := Flag(base.useProxy, v.useProxy),
                          requestTimeout := Positive(base.requestTimeout, v.requestTimeout),
                          connectivityTimeout := Positive(base.connectivityTimeout, v.connectivityTimeout))
  {
    existing := base;
    if v.title != "" { existing := existing.(title := v.title); }
    if v.template != "" { existing := existing.(template := v.template); }
    if v.disabled { existing := existing.(disabled := true); }
    if v.useProxy.Some? { existing := existing.(useProxy := v.useProxy); }
    if v.requestTimeout > 0 { existing := existing.(requestTimeout := v.requestTimeout); }
    if v.connectivityTimeout > 0 { existing := existing.(connectivityTimeout := v.connectivityTimeout); }
  }

  method MergeLivePayload(base: ProviderScalars, v: ProviderScalars) returns (existing: ProviderScalars)
    ensures existing == base.(models := List(base.models, v.models), extraBody := Block(base.extraBody, v.extraBody),
                              extra := Block(base.extra, v.extra))
  {
    existing := base;
    if |v.models| > 0 { existing := existing.(models := v.models); }
    if v.extraBody != map[] { existing := existing.(extraBody := v.extraBody); }
    if v.extra != map[] { existing := existing.(extra := v.extra); }
  }

  method MergeLiveAccess(base: ProviderScalars, v: ProviderScalars) returns (existing: ProviderScalars)
    ensures existing == base.(
                          kind := NonEmpty(base.kind, v.kind), auth := NonEmpty(base.auth, v.auth),
                          accountId := NonEmpty(base.accountId, v.accountId), api := NonEmpty(base.api, v.api),
                          apiKey := NonEmpty(base.apiKey, v.apiKey), baseUrl := NonEmpty(base.baseUrl, v.baseUrl))
  {
    existing := base;
    if v.kind != "" { existing := existing.(kind := v.kind); }
    if v.auth != "" { existing := existing.(auth := v.auth); }
    if v.accountId != "" { existing := existing.(accountId := v.accountId); }
    if v.api != "" { existing := existing.(api := v.api); }
    if v.apiKey != "" { existing := existing.(apiKey := v.apiKey); }
    if v.baseUrl != "" { existing := existing.(baseUrl := v.baseUrl); }
  }

  lemma {:induction false} SumStep(before: map<string, string>, source: map<string, string>, done: set<string>, key: string)
    requires key in source
    ensures before + Restrict(source, done + {key}) == (before + Restrict(source, done))[key := source[key]]
  {
  }

  lemma {:induction false} SumEnds(before: map<string, string>, source: map<string, string>)
    ensures before + Restrict(source, {}) == before && Restrict(source, source.Keys) == source
  {
    assert Restrict(source, {}) == map[];
  }

  method CopyEfforts(target: EffortTable, source: map<string, string>)
    modifies target
    ensures target.entries == old(target.entries) + source
  {
    hide Restrict;
    var rest := source.Keys;
    ghost var before, done: set<string> := target.entries, {};
    SumEnds(before, source);
    while rest != {}
      invariant done == source.Keys - rest && rest <= source.Keys
      invariant target.entries == before + Restrict(source, done)
      decreases |rest|
    {
      var model :| model in rest;
      SumStep(before, source, done, model);
      target.entries := target.entries[model := source[model]];
      rest := rest - {model};
      done := done + {model};
    }
    assert done == source.Keys;
  }

  /** Writes the overlay's efforts into the base's table, or into a new one. */
  method MergeLiveEfforts(base: Option<EffortTable>, overlay: Option<EffortTable>) returns (efforts: Option<EffortTable>)
    requires base.Some? && overlay.Some? ==> base.value != overlay.value
    modifies if base.Some? then {base.value} else {}
    ensures ViewEfforts(efforts) == old(MergeEfforts(ViewEfforts(base), ViewEfforts(overlay)))
    ensures efforts == base || (base.None? && efforts.Some? && fresh(efforts.value))
  {
    efforts := base;
    if overlay.None? || overlay.value.entries == map[] {
      return;
    }
    if efforts.None? {
      var t := new EffortTable();
      efforts := Some(t);
      assert map[] + overlay.value.entries == overlay.value.entries;
    }
    CopyEfforts(efforts.value, overlay.value.entries);
  }

  // ---- Tables -----------------------------------------------------------------------------------

  function Restrict<T>(table: map<string, T>, keys: set<string>): map<string, T> {
    map k | k in table && k in keys :: table[k]
  }

  /** Merging one more key of the overlay overwrites one entry. */
  lemma {:induction false} MergeOneMore<T>(
      merge: (T, T) -> T, empty: T, base: map<string, T>, overlay: map<string, T>, done: set<string>, key: string)
    requires key in overlay && key !in done
    ensures
      var now := MergeTable(merge, empty, base, Restrict(overlay, done));
      MergeTable(merge, empty, base, Restrict(overlay, done + {key})) ==
      now[key := merge(if key in now then now[key] else empty, overlay[key])]
  {
  }

  lemma {:induction false} MergeEnds<T>(merge: (T, T) -> T, empty: T, base: map<string, T>, overlay: map<string, T>)
    ensures MergeTable(merge, empty, base, Restrict(overlay, {})) == base
    ensures Restrict(overlay, overlay.Keys) == overlay
  {
    assert Restrict(overlay, {}) == map[];
  }

  ghost function ViewEntry(p: LiveProvider): Provider
    reads if p.efforts.Some? then {p.efforts.value} else {}
  {
    Provider(p.scalars, ViewEfforts(p.efforts))
  }

  function Entry(table: ProviderTable, key: string): LiveProvider
    reads table
  {
    if key in table.entries then table.entries[key] else LiveProvider(NO_SCALARS, None)
  }

  method MergeEntry(base: ProviderTable, key: string, v: LiveProvider) returns (merged: LiveProvider)
    requires v.efforts.Some? ==> v.efforts.value !in base.Efforts()
    modifies base, if Entry(base, key).efforts.Some? then {Entry(base, key).efforts.value} else {}
    ensures base.entries == old(base.entries)[key := merged]
    ensures ViewEntry(merged) == old(MergeProvider(ViewEntry(Entry(base, key)), ViewEntry(v)))
    ensures merged.efforts == old(Entry(base, key)).efforts || (merged.efforts.Some? && fresh(merged.efforts.value))
  {
    hide MergeProviderScalars, MergeEfforts;
    var existing := Entry(base, key);
    var scalars := MergeLiveScalars(existing.scalars, v.scalars);
    var efforts := MergeLiveEfforts(existing.efforts, v.efforts);
    merged := LiveProvider(scalars, efforts);
    base.entries := base.entries[key := merged];
  }

  /** A new or kept effort table leaves the entries separate. */
  lemma {:induction false} StaysSeparate(before: map<string, LiveProvider>, key: string, merged: LiveProvider)
    requires SeparateIn(before)
    requires (key in before && merged.efforts == before[key].efforts) ||
             (merged.efforts.Some? ==> merged.efforts.value !in EffortsOf(before))
    ensures SeparateIn(before[key := merged])
    ensures EffortsOf(before[key := merged]) <= EffortsOf(before) + (if merged.efforts.Some? then {merged.efforts.value} else {})
  {
    var after := before[key := merged];
    forall e | e in EffortsOf(after)
      ensures e in EffortsOf(before) || Some(e) == merged.efforts
    {
      var k :| k in after && after[k].efforts.Some? && after[k].efforts.value == e;
      assert k != key ==> after[k] == before[k];
    }
  }

  lemma {:induction false} EntryView(base: ProviderTable, key: string)
    ensures ViewEntry(Entry(base, key)) == if key in base.View() then base.View()[key] else NO_PROVIDER
  {
  }

  /** One key of the overlay. No other entry shares the efforts of the one that is written. */
  method MergeKey(base: ProviderTable, overlay: ProviderTable, key: string, ghost view: Provider)
    requires base.Separate() && base.Efforts() !! overlay.Efforts() && key in overlay.entries
    requires view == MergeProvider(ViewEntry(Entry(base, key)), ViewEntry(overlay.entries[key]))
    requires base != overlay
    modifies base, base.Efforts()
    ensures base.Separate() && fresh(base.Efforts() - old(base.Efforts()))
    ensures base.View() == old(base.View())[key := view]
  {
    hide MergeProvider;
    ghost var before, views := base.entries, base.View();
    var merged := MergeEntry(base, key, overlay.entries[key]);
    StaysSeparate(before, key, merged);
    forall k | k in before && k != key
      ensures ViewEntry(before[k]) == views[k]
    {
      if before[k].efforts.Some? {
        assert before[k].efforts.value in EffortsOf(before);
      }
    }
  }

  method MergeProviders(base: ProviderTable, overlay: ProviderTable)
    requires base != overlay && base.Separate() && base.Efforts() !! overlay.Efforts()
    modifies base, base.Efforts()
    ensures base.Separate() && fresh(base.Efforts() - old(base.Efforts()))
    ensures base.View() == old(MergeTable(MergeProvider, NO_PROVIDER, base.View(), overlay.View()))
  {
    hide MergeProvider, ProviderTable.Separate, ProviderTable.View, ViewEntry, MergeTable, Restrict;
    ghost var before, view := base.View(), overlay.View();
    MergeEnds(MergeProvider, NO_PROVIDER, before, view);
    var rest := overlay.entries.Keys;
    ghost var done: set<string> := {};
    while rest != {}
      invariant base.Separate() && fresh(base.Efforts() - old(base.Efforts()))
      invariant base.Efforts() !! overlay.Efforts() && overlay.entries == old(overlay.entries) && overlay.View() == view
      invariant done == overlay.entries.Keys - rest && rest <= overlay.entries.Keys
      invariant base.View() == MergeTable(MergeProvider, NO_PROVIDER, before, Restrict(view, done))
      decreases |rest|
    {
      var key :| key in rest;
      EntryView(overlay, key);
      EntryView(base, key);
      MergeKey(base, overlay, key, MergeProvider(ViewEntry(Entry(base, key)), view[key]));
      MergeOneMore(MergeProvider, NO_PROVIDER, before, view, done, key);
      rest := rest - {key};
      done := done + {key};
    }
    assert done == view.Keys;
  }

  method MergeRoles(base: RoleTable, overlay: RoleTable)
    requires base != overlay
    modifies base
    ensures base.entries == MergeTable(MergeRole, NO_ROLE, old(base.entries), overlay.entries)
  {
    hide MergeRole, MergeTable, Restrict;
    MergeEnds(MergeRole, NO_ROLE, base.entries, overlay.entries);
    var rest := overlay.entries.Keys;
    ghost var done: set<string> := {};
    while rest != {}
      invariant overlay.entries == old(overlay.entries)
      invariant done == overlay.entries.Keys - rest && rest <= overlay.entries.Keys
      invariant base.entries == MergeTable(MergeRole, NO_ROLE, old(base.entries), Restrict(overlay.entries, done))
      decreases |rest|
    {
      var key :| key in rest;
      MergeOneMore(MergeRole, NO_ROLE, old(base.entries), overlay.entries, done, key);
      var merged := MergeLiveRole(if key in base.entries then base.entries[key] else NO_ROLE, overlay.entries[key]);
      base.entries := base.entries[key := merged];
      rest := rest - {key};
      done := done + {key};
    }
    assert done == overlay.entries.Keys;
  }

  method MergeLiveRole(base: Role, v: Role) returns (existing: Role)
    ensures existing == MergeRole(base, v)
  {
    existing := base;
    if v.provider != "" { existing := existing.(provider := v.provider); }
    if v.model != "" { existing := existing.(model := v.model); }
    if |v.fallbacks| > 0 { existing := existing.(fallbacks := v.fallbacks); }
    if v.effort != "" { existing := existing.(effort := v.effort); }
  }

  // ---- The plain fields -------------------------------------------------------------------------

  method MergeRoutes(base: Scalars, o: Scalars) returns (r: Scalars)
    ensures r == base.(dailyTimes := Times(base.dailyTimes, o.dailyTimes), timezone := Zone(base.timezone, o.timezone),
                       resumeEnabled := Flag(base.resumeEnabled, o.resumeEnabled), provider := NonEmpty(base.provider, o.provider),
                       model := NonEmpty(base.model, o.model), effort := NonEmpty(base.effort, o.effort))
  {
    hide Trim;
    r := base;
    if o.dailyTimes.Some? {
      r := r.(dailyTimes := if o.dailyTimes.value == [] then None else o.dailyTimes);
    }
    if Trim(o.timezone) != "" { r := r.(timezone := o.timezone); }
    if o.resumeEnabled.Some? { r := r.(resumeEnabled := o.resumeEnabled); }
    if o.provider != "" { r := r.(provider := o.provider); }
    if o.model != "" { r := r.(model := o.model); }
    if o.effort != "" { r := r.(effort := o.effort); }
  }

  method MergeLimits(base: Scalars, o: Scalars) returns (r: Scalars)
    ensures r == base.(cocreateTimeout := Positive(base.cocreateTimeout, o.cocreateTimeout),
                       cocreateTokens := Positive(base.cocreateTokens, o.cocreateTokens),
                       structureRepair := Positive(base.structureRepair, o.structureRepair),
                       budgetQuality := Positive(base.budgetQuality, o.budgetQuality),
                       outlineAudit := Positive(base.outlineAudit, o.outlineAudit),
                       contextWindow := Positive(base.contextWindow, o.contextWindow))
  {
    r := base;
    if o.cocreateTimeout > 0 { r := r.(cocreateTimeout := o.cocreateTimeout); }
    if o.cocreateTokens > 0 { r := r.(cocreateTokens := o.cocreateTokens); }
    if o.structureRepair > 0 { r := r.(structureRepair := o.structureRepair); }
    if o.budgetQuality > 0 { r := r.(budgetQuality := o.budgetQuality); }
    if o.outlineAudit > 0 { r := r.(outlineAudit := o.outlineAudit); }
    if o.contextWindow > 0 { r := r.(contextWindow := o.contextWindow); }
  }

  method MergeSwitches(base: Scalars, o: Scalars) returns (r: Scalars)
    ensures r == base.(simulation := NonEmpty(base.simulation, o.simulation), proxy := NonEmpty(base.proxy, o.proxy),
                       autoEnabled := Flag(base.autoEnabled, o.autoEnabled), backends := List(base.backends, o.backends),
                       networkMax := Positive(base.networkMax, o.networkMax))
  {
    r := base;
    if o.simulation != "" { r := r.(simulation := o.simulation); }
    if o.proxy != "" { r := r.(proxy := o.proxy); }
    if o.autoEnabled.Some? { r := r.(autoEnabled := o.autoEnabled); }
    if |o.backends| > 0 { r := r.(backends := o.backends); }
    if o.networkMax > 0 { r := r.(networkMax := o.networkMax); }
  }

  /** Budget and notification are policies of their own: they are replaced whole. */
  method MergePolicies(base: Scalars, o: Scalars) returns (r: Scalars)
    ensures r == base.(style := NonEmpty(base.style, o.style), runtimeRoot := NonEmpty(base.runtimeRoot, o.runtimeRoot),
                       budget := if o.budget != NO_BUDGET then o.budget else base.budget,
                       notify := if NoNotify(o.notify) then base.notify else o.notify)
  {
    r := base;
    if o.style != "" { r := r.(style := o.style); }
    if o.runtimeRoot != "" { r := r.(runtimeRoot := o.runtimeRoot); }
    if o.budget != NO_BUDGET { r := r.(budget := o.budget); }
    if o.notify.enabled.Some? || o.notify.command != "" || |o.notify.events| > 0 { r := r.(notify := o.notify); }
  }

  method MergeLiveFields(base: Scalars, overlay: Scalars) returns (r: Scalars)
    ensures r == MergeScalars(base, overlay)
  {
    hide NonEmpty, Positive, Flag, List, Times, Zone, NoNotify;
    r := MergeRoutes(base, overlay);
    r := MergeLimits(r, overlay);
    r := MergeSwitches(r, overlay);
    r := MergePolicies(r, overlay);
  }

  // ---- The merge --------------------------------------------------------------------------------

  method MergeProviderTables(base: Option<ProviderTable>, overlay: Option<ProviderTable>) returns (r: Option<ProviderTable>)
    requires base.Some? ==> base.value.Separate()
    requires ProviderObjects(base) !! ProviderObjects(overlay)
    modifies ProviderObjects(base)
    ensures r.Some? ==> r.value.Separate()
    ensures ViewProviders(r) == old(MergeOptional(MergeProvider, NO_PROVIDER, ViewProviders(base), ViewProviders(overlay)))
    ensures fresh(ProviderObjects(r) - old(ProviderObjects(base)))
    ensures ViewProviders(overlay) == old(ViewProviders(overlay)) && ProviderObjects(overlay) == old(ProviderObjects(overlay))
  {
    hide MergeProvider, MergeTable, ProviderTable.Separate;
    r := base;
    if overlay.None? || overlay.value.entries == map[] {
      return;
    }
    SomeEntry(overlay.value);
    if r.None? {
      var t := NewProviders();
      r := Some(t);
    }
    MergeProviders(r.value, overlay.value);
  }

  method MergeRoleTables(base: Option<RoleTable>, overlay: Option<RoleTable>) returns (r: Option<RoleTable>)
    requires RoleObjects(base) !! RoleObjects(overlay)
    modifies RoleObjects(base)
    ensures ViewRoles(r) == old(MergeOptional(MergeRole, NO_ROLE, ViewRoles(base), ViewRoles(overlay)))
    ensures fresh(RoleObjects(r) - RoleObjects(base))
    ensures ViewRoles(overlay) == old(ViewRoles(overlay))
  {
    hide MergeRole, MergeTable;
    r := base;
    if overlay.None? || overlay.value.entries == map[] {
      return;
    }
    if r.None? {
      var t := new RoleTable();
      r := Some(t);
    }
    MergeRoles(r.value, overlay.value);
  }

  method NewProviders() returns (t: ProviderTable)
    ensures fresh(t) && t.Separate() && t.Efforts() == {} && t.View() == map[]
  {
    t := new ProviderTable();
  }

  lemma {:induction false} SomeEntry(t: ProviderTable)
    ensures t.View() == map[] <==> t.entries == map[]
  {
    if k :| k in t.entries {
      assert k in t.View();
    }
  }

  /** The base's tables are overwritten in place and may be shared with the result; the overlay's tables are
      neither changed nor shared. */
  method MergeConfig(base: LiveConfig, overlay: LiveConfig) returns (result: LiveConfig)
    requires ProviderObjects(base.providers) !! ProviderObjects(overlay.providers)
    requires RoleObjects(base.roles) !! RoleObjects(overlay.roles)
    requires base.providers.Some? ==> base.providers.value.Separate()
    modifies ProviderObjects(base.providers), RoleObjects(base.roles)
    ensures View(result) == old(Merge(View(base), View(overlay)))
    ensures View(overlay) == old(View(overlay))
    ensures ProviderObjects(overlay.providers) == old(ProviderObjects(overlay.providers))
    ensures ProviderObjects(result.providers) !! ProviderObjects(overlay.providers)
    ensures RoleObjects(result.roles) !! RoleObjects(overlay.roles)
    ensures result.providers.Some? ==> result.providers.value.Separate()
  {
    hide MergeScalars, MergeProvider, MergeRole, MergeOptional, ProviderTable.Separate;
    hide ViewProviders, ViewRoles;
    var scalars := MergeLiveFields(base.scalars, overlay.scalars);
    var roles := MergeRoleTables(base.roles, overlay.roles);
    assert ViewProviders(base.providers) == old(ViewProviders(base.providers));
    assert ViewProviders(overlay.providers) == old(ViewProviders(overlay.providers));
    assert ProviderObjects(overlay.providers) == old(ProviderObjects(overlay.providers));
    var providers := MergeProviderTables(base.providers, overlay.providers);
    result := LiveConfig(scalars, providers, roles);
  }
}
