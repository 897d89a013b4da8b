/** From the resolver's ordered providers and models to the registry and its indexes. */
module ProviderRegistry {
  import opened Common
  import opened OwnedOrder
  import ModelMembership

  type ProviderId = string

  type ModelId = ModelMembership.ModelId

  datatype Model = Model(modelId: ModelId, reasoningLevels: seq<string>, speeds: Option<seq<string>>)

  datatype Provider = Provider(providerId: ProviderId, models: seq<Model>)

  datatype View = View(revision: nat, providers: seq<Provider>)

  datatype Duplicate =
    | DuplicateProvider(providerId: ProviderId)
    | DuplicateModel(providerId: ProviderId, modelId: ModelId)

  /******* Lookups *******/

  function FindModel(models: seq<Model>, modelId: ModelId): Option<Model> {
    if models == [] then None
    else if models[0].modelId == modelId then Some(models[0])
    else FindModel(models[1..], modelId)
  }

  function FindProvider(providers: seq<Provider>, providerId: ProviderId): Option<Provider> {
    if providers == [] then None
    else if providers[0].providerId == providerId then Some(providers[0])
    else FindProvider(providers[1..], providerId)
  }

  predicate DistinctModels(models: seq<Model>) {
    forall i, j :: 0 <= i < j < |models| ==> models[i].modelId != models[j].modelId
  }

  predicate Distinct(providers: seq<Provider>) {
    && (forall i, j :: 0 <= i < j < |providers| ==> providers[i].providerId != providers[j].providerId)
    && (forall i :: 0 <= i < |providers| ==> DistinctModels(providers[i].models))
  }

  predicate ModelsAgree(index: map<ModelId, Model>, models: seq<Model>) {
    && (forall m :: m in models ==> m.modelId in index && index[m.modelId] == m)
    && (forall id :: id in index ==> index[id] in models && index[id].modelId == id)
  }

  predicate ProvidersAgree(
    byId: map<ProviderId, Provider>, modelsById: map<ProviderId, map<ModelId, Model>>, providers: seq<Provider>)
  {
    && byId.Keys == modelsById.Keys
    && (forall p :: p in providers ==> p.providerId in byId && byId[p.providerId] == p)
    && (forall id :: id in byId ==>
          byId[id] in providers && byId[id].providerId == id && ModelsAgree(modelsById[id], byId[id].models))
  }

  lemma ModelLookup(index: map<ModelId, Model>, models: seq<Model>, modelId: ModelId)
    requires ModelsAgree(index, models)
    ensures (if modelId in index then Some(index[modelId]) else None) == FindModel(models, modelId)
  {
    FindModelSpec(models, modelId);
  }

  lemma {:induction false} FindModelSpec(models: seq<Model>, modelId: ModelId)
    ensures var found := FindModel(models, modelId);
      if found.Some? then found.value in models && found.value.modelId == modelId
      else forall m :: m in models ==> m.modelId != modelId
    decreases |models|
  {
    if models != [] {
      FindModelSpec(models[1..], modelId);
      assert forall m :: m in models <==> m == models[0] || m in models[1..];
    }
  }

  lemma {:induction false} FindProviderSpec(providers: seq<Provider>, providerId: ProviderId)
    ensures var found := FindProvider(providers, providerId);
      if found.Some? then found.value in providers && found.value.providerId == providerId
      else forall p :: p in providers ==> p.providerId != providerId
    decreases |providers|
  {
    if providers != [] {
      FindProviderSpec(providers[1..], providerId);
      assert forall p :: p in providers <==> p == providers[0] || p in providers[1..];
    }
  }

  lemma ProviderLookup(
    byId: map<ProviderId, Provider>, modelsById: map<ProviderId, map<ModelId, Model>>, providers: seq<Provider>,
    providerId: ProviderId)
    requires ProvidersAgree(byId, modelsById, providers)
    ensures (if providerId in byId then Some(byId[providerId]) else None) == FindProvider(providers, providerId)
  {
    FindProviderSpec(providers, providerId);
  }

  /******* Building the indexes *******/

  method IndexModels(models: seq<Model>) returns (r: Result<map<ModelId, Model>, ModelId>)
    ensures r.Ok? <==> DistinctModels(models)
    ensures r.Ok? ==> ModelsAgree(r.value, models)
    ensures r.Err? ==> RepeatsModel(models, r.error)
  {
    var index: map<ModelId, Model> := map[];
    for i := 0 to |models|
      invariant DistinctModels(models[..i]) && ModelsAgree(index, models[..i])
    {
      var m := models[i];
      if m.modelId in index {
        var k :| 0 <= k < i && models[..i][k] == index[m.modelId];
        assert models[k].modelId == models[i].modelId;
        return Err(m.modelId);
      }
      assert models[..i + 1] == models[..i] + [m];
      forall k | 0 <= k < i
        ensures models[k].modelId != m.modelId
      {
        assert models[..i][k] in models[..i];
      }
      index := index[m.modelId := m];
    }
    assert models[..|models|] == models;
    return Ok(index);
  }

  /** Whether `d` names a repetition in `providers`. */
  predicate Repeats(providers: seq<Provider>, d: Duplicate) {
    match d
    case DuplicateProvider(id) =>
      exists i, j :: 0 <= i < j < |providers| && providers[i].providerId == providers[j].providerId == id
    case DuplicateModel(id, modelId) =>
      exists p :: p in providers && p.providerId == id && RepeatsModel(p.models, modelId)
  }

  predicate RepeatsModel(models: seq<Model>, modelId: ModelId) {
    exists i, j :: 0 <= i < j < |models| && models[i].modelId == models[j].modelId == modelId
  }

  datatype Indexes = Indexes(byId: map<ProviderId, Provider>, modelsById: map<ProviderId, map<ModelId, Model>>)

  lemma ProviderAdded(
    before: seq<Provider>, p: Provider, byId: map<ProviderId, Provider>,
    modelsById: map<ProviderId, map<ModelId, Model>>, index: map<ModelId, Model>)
    requires Distinct(before) && ProvidersAgree(byId, modelsById, before)
    requires p.providerId !in byId && DistinctModels(p.models) && ModelsAgree(index, p.models)
    ensures Distinct(before + [p])
    ensures ProvidersAgree(byId[p.providerId := p], modelsById[p.providerId := index], before + [p])
  {
    hide DistinctModels, ModelsAgree;
    forall k | 0 <= k < |before|
      ensures before[k].providerId != p.providerId
    {
      assert before[k] in before;
    }
  }

  lemma KnownProviderRepeats(providers: seq<Provider>, i: nat, known: Provider)
    requires i < |providers| && known in providers[..i] && known.providerId == providers[i].providerId
    ensures !Distinct(providers) && Repeats(providers, DuplicateProvider(known.providerId))
  {
    var k :| 0 <= k < i && providers[..i][k] == known;
    assert providers[k].providerId == providers[i].providerId;
  }

  method BuildIndexes(providers: seq<Provider>) returns (r: Result<Indexes, Duplicate>)
    ensures r.Ok? <==> Distinct(providers)
    ensures r.Ok? ==> ProvidersAgree(r.value.byId, r.value.modelsById, providers)
    ensures r.Err? ==> Repeats(providers, r.error)
  {
    hide DistinctModels, ModelsAgree, RepeatsModel;
    var byId: map<ProviderId, Provider> := map[];
    var modelsById: map<ProviderId, map<ModelId, Model>> := map[];
    for i := 0 to |providers|
      invariant Distinct(providers[..i]) && ProvidersAgree(byId, modelsById, providers[..i])
    {
      var p := providers[i];
      if p.providerId in byId {
        KnownProviderRepeats(providers, i, byId[p.providerId]);
        return Err(DuplicateProvider(p.providerId));
      }
      var models := IndexModels(p.models);
      if models.Err? {
        assert p in providers && RepeatsModel(p.models, models.error);
        return Err(DuplicateModel(p.providerId, models.error));
      }
      assert providers[..i + 1] == providers[..i] + [p];
      ProviderAdded(providers[..i], p, byId, modelsById, models.value);
      byId := byId[p.providerId := p];
      modelsById := modelsById[p.providerId := models.value];
    }
    assert providers[..|providers|] == providers;
    return Ok(Indexes(byId, modelsById));
  }

  /******* Selections *******/

  datatype Selection = Selection(
    providerId: ProviderId, modelId: ModelId, reasoningLevel: Option<string>, speed: Option<string>)

  datatype Validation =
    | Accepted
    | ProviderNotFound
    | ModelNotFound
    | ReasoningLevelMissing
    | ReasoningLevelNotSupported
    | SpeedMissing
    | SpeedNotSupported

  function ValidateOptions(model: Model, selection: Selection): Validation {
    if selection.reasoningLevel.None? then ReasoningLevelMissing
    else if selection.reasoningLevel.value !in model.reasoningLevels then ReasoningLevelNotSupported
    else if model.speeds.Some? && selection.speed.None? then SpeedMissing
    else if (model.speeds.None? && selection.speed.Some?)
            || (selection.speed.Some? && selection.speed.value != "" && selection.speed.value !in model.speeds.value)
    then SpeedNotSupported
    else Accepted
  }

  function Validate(providers: seq<Provider>, selection: Selection): Validation {
    var provider := FindProvider(providers, selection.providerId);
    if provider.None? then ProviderNotFound
    else
      var model := FindModel(provider.value.models, selection.modelId);
      if model.None? then ModelNotFound else ValidateOptions(model.value, selection)
  }

  /** A model of `providers` that the selection names, with options that the model declares. */
  predicate Offers(providers: seq<Provider>, selection: Selection, p: Provider, m: Model) {
    && p in providers && p.providerId == selection.providerId
    && m in p.models && m.modelId == selection.modelId
    && selection.reasoningLevel.Some? && selection.reasoningLevel.value in m.reasoningLevels
    && (selection.speed.Some? <==> m.speeds.Some?)
    && (selection.speed.Some? ==> selection.speed.value == "" || selection.speed.value in m.speeds.value)
  }

  /** In a registry, exactly what some listed model offers is accepted; an empty speed counts as offered. */
  lemma AcceptsWhatIsOffered(providers: seq<Provider>, selection: Selection)
    requires Distinct(providers)
    ensures Validate(providers, selection).Accepted? <==> exists p, m :: Offers(providers, selection, p, m)
  {
    FindProviderSpec(providers, selection.providerId);
    var provider := FindProvider(providers, selection.providerId);
    if provider.Some? {
      FindModelSpec(provider.value.models, selection.modelId);
      var model := FindModel(provider.value.models, selection.modelId);
      if model.Some? && ValidateOptions(model.value, selection).Accepted? {
        assert Offers(providers, selection, provider.value, model.value);
      }
      forall p, m | Offers(providers, selection, p, m)
        ensures p == provider.value && model == Some(m)
      {
        SameProvider(providers, p, provider.value);
        if model.Some? {
          SameModel(p.models, m, model.value);
        }
      }
    }
  }

  /** A model of `providers` that declares the selected level and speed; no speed for a model that declares none. */
  predicate Declares(providers: seq<Provider>, selection: Selection, p: Provider, m: Model) {
    && p in providers && p.providerId == selection.providerId
    && m in p.models && m.modelId == selection.modelId
    && selection.reasoningLevel.Some? && selection.reasoningLevel.value in m.reasoningLevels
    && (selection.speed.Some? <==> m.speeds.Some?)
    && (selection.speed.Some? ==> selection.speed.value in m.speeds.value)
  }

  /** Apart from the empty speed, exactly what a listed model declares is accepted. */
  lemma AcceptsWhatIsDeclared(providers: seq<Provider>, selection: Selection)
    requires Distinct(providers) && selection.speed != Some("")
    ensures Validate(providers, selection).Accepted? <==> exists p, m :: Declares(providers, selection, p, m)
  {
    AcceptsWhatIsOffered(providers, selection);
    hide Validate, Distinct;
    if p, m :| Offers(providers, selection, p, m) {
      assert Declares(providers, selection, p, m);
    }
    if p, m :| Declares(providers, selection, p, m) {
      assert Offers(providers, selection, p, m);
    }
  }

  /** The empty speed, for any model that declares speeds but not this one. */
  lemma EmptySpeedIsAccepted(level: string, speed: string)
    requires speed != ""
    ensures
      var providers := [Provider("p", [Model("m", [level], Some([speed]))])];
      var selection := Selection("p", "m", Some(level), Some(""));
      && Distinct(providers)
      && Validate(providers, selection).Accepted?
      && !exists p, m :: Declares(providers, selection, p, m)
  {
  }

  lemma SameProvider(providers: seq<Provider>, p: Provider, q: Provider)
    requires Distinct(providers) && p in providers && q in providers && p.providerId == q.providerId
    ensures p == q && DistinctModels(p.models)
  {
    var i :| 0 <= i < |providers| && providers[i] == p;
    var j :| 0 <= j < |providers| && providers[j] == q;
  }

  lemma SameModel(models: seq<Model>, m: Model, n: Model)
    requires DistinctModels(models) && m in models && n in models && m.modelId == n.modelId
    ensures m == n
  {
    var i :| 0 <= i < |models| && models[i] == m;
    var j :| 0 <= j < |models| && models[j] == n;
  }

  /******* The registry *******/

  datatype Changed = Changed(revision: nat, reason: string)

  class ProviderRegistry {
    var view: View
    var providerById: map<ProviderId, Provider>
    var modelByProviderId: map<ProviderId, map<ModelId, Model>>
    var events: seq<Changed>

    /** The indexes are those of the view. */
    ghost predicate Valid()
      reads this
    {
      Distinct(view.providers) && ProvidersAgree(providerById, modelByProviderId, view.providers)
    }

    constructor ()
      ensures Valid() && view == View(0, []) && events == []
    {
      view, providerById, modelByProviderId, events := View(0, []), map[], map[], [];
    }

    /** The view is exchanged before the indexes are built, so a duplicate leaves the old indexes behind a new view. */
    method Replace(providers: seq<Provider>, reason: string) returns (fault: Option<Duplicate>)
      modifies this
      ensures view == View(old(view.revision) + 1, providers)
      ensures fault.None? <==> Distinct(providers)
      ensures fault.None? ==> Valid() && events == old(events) + [Changed(view.revision, reason)]
      ensures fault.Some? ==>
        && Repeats(providers, fault.value)
        && events == old(events) && providerById == old(providerById) && modelByProviderId == old(modelByProviderId)
    {
      view := View(view.revision + 1, providers);
      var indexes := BuildIndexes(view.providers);
      if indexes.Err? {
        return Some(indexes.error);
      }
      providerById, modelByProviderId := indexes.value.byId, indexes.value.modelsById;
      events := events + [Changed(view.revision, reason)];
      return None;
    }

    method GetProvider(providerId: ProviderId) returns (p: Option<Provider>)
      requires Valid()
      ensures p == FindProvider(view.providers, providerId)
    {
      ProviderLookup(providerById, modelByProviderId, view.providers, providerId);
      p := if providerId in providerById then Some(providerById[providerId]) else None;
    }

    method GetModel(providerId: ProviderId, modelId: ModelId) returns (m: Option<Model>)
      requires Valid()
      ensures var p := FindProvider(view.providers, providerId);
        m == if p.Some? then FindModel(p.value.models, modelId) else None
    {
      ProviderLookup(providerById, modelByProviderId, view.providers, providerId);
      if providerId in modelByProviderId {
        var models := modelByProviderId[providerId];
        ModelLookup(models, providerById[providerId].models, modelId);
        m := if modelId in models then Some(models[modelId]) else None;
      } else {
        m := None;
      }
    }

    method ValidateSelection(selection: Selection) returns (r: Validation)
      requires Valid()
      ensures r == Validate(view.providers, selection)
    {
      ProviderLookup(providerById, modelByProviderId, view.providers, selection.providerId);
      if selection.providerId !in providerById {
        return ProviderNotFound;
      }
      var model := GetModel(selection.providerId, selection.modelId);
      if model.None? {
        return ModelNotFound;
      }
      return ValidateOptions(model.value, selection);
    }
  }
}

/** The ordering and the publication part of the resolver. */
module ProviderResolver {
  import opened Common
  import opened OwnedOrder
  import opened ProviderRegistry
  import ModelMembership

  /** The keys of the built-in map overlaid with the personal one. */
  function EffectiveKeys(builtin: seq<ProviderId>, personal: seq<ProviderId>): seq<ProviderId> {
    builtin + Without(personal, Elements(builtin))
  }

  /** `family` are the effective providers of the two account families, which stand first. */
  function ResolveProviderOrder(
    builtin: seq<ProviderId>, personal: seq<ProviderId>, family: set<ProviderId>, order: seq<ProviderId>)
    : seq<ProviderId>
  {
    var familyIds := Within(EffectiveKeys(builtin, personal), family);
    var builtinIds := Without(builtin, Elements(familyIds));
    var personalIds := Without(Without(personal, Elements(builtinIds)), Elements(familyIds));
    familyIds + Resolve(builtinIds, personalIds, order)
  }

  /** Every effective provider is listed exactly once, account families first. */
  lemma ProviderOrderIsExact(
    builtin: seq<ProviderId>, personal: seq<ProviderId>, family: set<ProviderId>, order: seq<ProviderId>)
    requires NoDup(builtin) && NoDup(personal)
    ensures var ids := ResolveProviderOrder(builtin, personal, family, order);
      && NoDup(ids)
      && (forall x :: x in ids <==> x in builtin || x in personal)
      && (forall x, y :: x in ids && y in ids && x in family && y !in family ==> Comes(ids, x, y))
  {
    var keys := EffectiveKeys(builtin, personal);
    var familyIds := Within(keys, family);
    var builtinIds := Without(builtin, Elements(familyIds));
    var personalIds := Without(Without(personal, Elements(builtinIds)), Elements(familyIds));
    var rest := Resolve(builtinIds, personalIds, order);
    KeysAreDistinct(builtin, personal);
    WithinNoDup(keys, family);
    ResolveMembers(builtinIds, personalIds, order);
    hide Resolve, Within, Without, EffectiveKeys, Comes;
    forall x
      ensures x in familyIds <==> (x in builtin || x in personal) && x in family
      ensures x in rest <==> (x in builtin || x in personal) && x !in family
    {
      WithinMember(keys, family, x);
      WithoutMember(builtin, Elements(familyIds), x);
      WithoutMember(personal, Elements(builtinIds), x);
      WithoutMember(Without(personal, Elements(builtinIds)), Elements(familyIds), x);
    }
    ConcatNoDup(familyIds, rest);
    var ids := familyIds + rest;
    forall x, y | x in ids && y in ids && x in family && y !in family
      ensures Comes(ids, x, y)
    {
      ComesConcat(familyIds, rest, x, y);
      SomeComes(familyIds, x, y);
    }
  }

  lemma KeysAreDistinct(builtin: seq<ProviderId>, personal: seq<ProviderId>)
    requires NoDup(builtin) && NoDup(personal)
    ensures NoDup(EffectiveKeys(builtin, personal))
    ensures forall x :: x in EffectiveKeys(builtin, personal) <==> x in builtin || x in personal
  {
    var added := Without(personal, Elements(builtin));
    WithoutNoDup(personal, Elements(builtin));
    forall x
      ensures x in added <==> x in personal && x !in builtin
    {
      WithoutMember(personal, Elements(builtin), x);
    }
    ConcatNoDup(builtin, added);
  }

  /** The model ids as the resolver lists them, from lists made unique beforehand. */
  function ResolveModelIds(
    builtinModelIds: seq<ModelId>, personalModelIds: seq<ModelId>, modelOrder: seq<ModelId>, excluded: seq<ModelId>)
    : seq<ModelId>
  {
    var builtinIds := Unique(builtinModelIds);
    var personalIds := Without(Unique(personalModelIds), Elements(builtinIds));
    Without(Resolve(builtinIds, personalIds, modelOrder), Elements(excluded))
  }

  /** They are the visible models that the edit commands speak of. */
  lemma ResolverShowsVisible(o: ModelMembership.Overlay, inherited: seq<ModelId>)
    ensures ResolveModelIds(inherited, o.personal, ModelMembership.OrderOf(o), o.excluded)
         == ModelMembership.Visible(inherited, o)
  {
    var builtinIds := Unique(inherited);
    var personalIds := Without(Unique(o.personal), Elements(builtinIds));
    UniqueNoDup(inherited);
    UniqueOfNoDup(builtinIds);
    UniqueNoDup(o.personal);
    WithoutNoDup(Unique(o.personal), Elements(builtinIds));
    UniqueOfNoDup(personalIds);
    forall x | x in personalIds
      ensures x !in Elements(builtinIds)
    {
      WithoutMember(Unique(o.personal), Elements(builtinIds), x);
    }
    WithoutNone(personalIds, Elements(builtinIds));
    hide Unique, Within, Without, Elements;
  }

  /******* Publication *******/

  datatype CandidateModel = CandidateModel(model: Model, enabled: bool, complete: bool)

  /** `current` is the account state of the provider, when there is one. */
  datatype Candidate = Candidate(
    providerId: ProviderId,
    isAccount: bool,
    ruleEnabled: Option<bool>,
    entitled: bool,
    current: Option<bool>,
    complete: bool,
    models: seq<CandidateModel>)

  predicate ProviderExecutable(c: Candidate) {
    && (c.isAccount || (if c.ruleEnabled.Some? then c.ruleEnabled.value else true))
    && (!c.isAccount || c.entitled)
    && c.current != Some(false)
    && c.complete
  }

  predicate Executable(c: Candidate, m: CandidateModel) {
    ProviderExecutable(c) && m.enabled && m.complete
  }

  function ExecutableModels(c: Candidate, models: seq<CandidateModel>): seq<Model> {
    if models == [] then []
    else (if Executable(c, models[0]) then [models[0].model] else []) + ExecutableModels(c, models[1..])
  }

  function RegistryProviders(candidates: seq<Candidate>): seq<Provider> {
    if candidates == [] then []
    else
      var c := candidates[0];
      var models := ExecutableModels(c, c.models);
      (if c.complete && models != [] then [Provider(c.providerId, models)] else []) + RegistryProviders(candidates[1..])
  }

  /** The resolver's loop: invalid providers and providers without executable models are skipped. */
  method CollectRegistryProviders(candidates: seq<Candidate>) returns (registry: seq<Provider>)
    ensures registry == RegistryProviders(candidates)
  {
    registry := [];
    for i := 0 to |candidates|
      invariant registry + RegistryProviders(candidates[i..]) == RegistryProviders(candidates)
    {
      var c := candidates[i];
      assert candidates[i..][0] == c && candidates[i..][1..] == candidates[i + 1..];
      var valid := CollectModels(c);
      AppendLaws(registry, [Provider(c.providerId, valid)], RegistryProviders(candidates[i + 1..]));
      AppendLaws(RegistryProviders(candidates[i + 1..]), [], []);
      if !c.complete {
        continue;
      }
      if |valid| == 0 {
        continue;
      }
      registry := registry + [Provider(c.providerId, valid)];
    }
    AppendLaws(registry, [], []);
  }

  method CollectModels(c: Candidate) returns (models: seq<Model>)
    ensures models == ExecutableModels(c, c.models)
  {
    models := [];
    for i := 0 to |c.models|
      invariant models + ExecutableModels(c, c.models[i..]) == ExecutableModels(c, c.models)
    {
      assert c.models[i..][0] == c.models[i] && c.models[i..][1..] == c.models[i + 1..];
      AppendLaws(models, [c.models[i].model], ExecutableModels(c, c.models[i + 1..]));
      AppendLaws(ExecutableModels(c, c.models[i + 1..]), [], []);
      if Executable(c, c.models[i]) {
        models := models + [c.models[i].model];
      }
    }
    AppendLaws(models, [], []);
  }

  /** The candidates that the resolver makes list no provider and no model twice. */
  predicate DistinctCandidates(candidates: seq<Candidate>) {
    && (forall i, j :: 0 <= i < j < |candidates| ==> candidates[i].providerId != candidates[j].providerId)
    && (forall c :: c in candidates ==> DistinctCandidateModels(c.models))
  }

  predicate DistinctCandidateModels(models: seq<CandidateModel>) {
    forall i, j :: 0 <= i < j < |models| ==> models[i].model.modelId != models[j].model.modelId
  }

  lemma {:induction false} ExecutableMember(c: Candidate, models: seq<CandidateModel>, m: Model)
    ensures m in ExecutableModels(c, models) <==> exists cm :: cm in models && cm.model == m && Executable(c, cm)
    decreases |models|
  {
    if models != [] {
      ExecutableMember(c, models[1..], m);
      assert forall cm :: cm in models <==> cm == models[0] || cm in models[1..];
    }
  }

  lemma {:induction false} ExecutableDistinct(c: Candidate, models: seq<CandidateModel>)
    requires DistinctCandidateModels(models)
    ensures DistinctModels(ExecutableModels(c, models))
    decreases |models|
  {
    if models != [] {
      ExecutableDistinct(c, models[1..]);
      forall m | m in ExecutableModels(c, models[1..])
        ensures m.modelId != models[0].model.modelId
      {
        ExecutableMember(c, models[1..], m);
        var cm :| cm in models[1..] && cm.model == m;
        var i :| 0 <= i < |models[1..]| && models[1..][i] == cm;
        assert models[i + 1] == cm;
      }
    }
  }

  /** Exactly the complete providers with an executable model are published, with just those models. */
  lemma {:induction false} PublishedExactly(candidates: seq<Candidate>, p: Provider)
    ensures p in RegistryProviders(candidates) <==>
      exists c ::
        c in candidates && c.complete && p == Provider(c.providerId, ExecutableModels(c, c.models)) && p.models != []
    decreases |candidates|
  {
    if candidates != [] {
      PublishedExactly(candidates[1..], p);
      assert forall c :: c in candidates <==> c == candidates[0] || c in candidates[1..];
    }
  }

  /** An account is executable by its entitlement, any other provider unless it is switched off. */
  predicate MayRun(c: Candidate) {
    && c.complete && c.current != Some(false)
    && (if c.isAccount then c.entitled else c.ruleEnabled != Some(false))
  }

  /** Exactly which models are published: the enabled and complete ones of the providers that may run. */
  lemma ModelIsPublished(candidates: seq<Candidate>, providerId: ProviderId, m: Model)
    ensures (exists p :: p in RegistryProviders(candidates) && p.providerId == providerId && m in p.models) <==>
      exists c, cm ::
        && c in candidates && c.providerId == providerId && MayRun(c)
        && cm in c.models && cm.model == m && cm.enabled && cm.complete
  {
    if p :| p in RegistryProviders(candidates) && p.providerId == providerId && m in p.models {
      PublishedExactly(candidates, p);
      var c :|
        c in candidates && c.complete && p == Provider(c.providerId, ExecutableModels(c, c.models)) && p.models != [];
      ExecutableMember(c, c.models, m);
    }
    if c, cm :|
      && c in candidates && c.providerId == providerId && MayRun(c)
      && cm in c.models && cm.model == m && cm.enabled && cm.complete
    {
      ExecutableMember(c, c.models, m);
      var p := Provider(c.providerId, ExecutableModels(c, c.models));
      PublishedExactly(candidates, p);
      assert p in RegistryProviders(candidates) && m in p.models;
    }
  }

  /** Providers and their models are published in the order in which they are listed. */
  lemma {:induction false} PublishedInOrder(a: seq<Candidate>, b: seq<Candidate>)
    ensures RegistryProviders(a + b) == RegistryProviders(a) + RegistryProviders(b)
    decreases |a|
  {
    if a == [] {
      assert a + b == b;
    } else {
      assert (a + b)[1..] == a[1..] + b;
      PublishedInOrder(a[1..], b);
    }
  }

  lemma {:induction false} ModelsInOrder(c: Candidate, a: seq<CandidateModel>, b: seq<CandidateModel>)
    ensures ExecutableModels(c, a + b) == ExecutableModels(c, a) + ExecutableModels(c, b)
    decreases |a|
  {
    if a == [] {
      assert a + b == b;
    } else {
      assert (a + b)[1..] == a[1..] + b;
      ModelsInOrder(c, a[1..], b);
    }
  }

  lemma {:induction false} RegistryIsDistinct(candidates: seq<Candidate>)
    requires DistinctCandidates(candidates)
    ensures Distinct(RegistryProviders(candidates))
    decreases |candidates|
  {
    if candidates != [] {
      var c, rest := candidates[0], RegistryProviders(candidates[1..]);
      assert c in candidates;
      forall d | d in candidates[1..]
        ensures d in candidates
      {
      }
      RegistryIsDistinct(candidates[1..]);
      ExecutableDistinct(c, c.models);
      forall p | p in rest
        ensures p.providerId != c.providerId
      {
        PublishedExactly(candidates[1..], p);
        var d :| d in candidates[1..] && p.providerId == d.providerId;
        var i :| 0 <= i < |candidates[1..]| && candidates[1..][i] == d;
        assert candidates[i + 1] == d;
      }
    }
  }

  /** What the resolver's candidates are: the ordered providers, each with its visible models in order. */
  predicate Resolved(
    candidates: seq<Candidate>, ids: seq<ProviderId>, inherited: map<ProviderId, seq<ModelId>>,
    overlays: map<ProviderId, ModelMembership.Overlay>)
  {
    && |candidates| == |ids|
    && forall i :: 0 <= i < |ids| ==>
         && candidates[i].providerId == ids[i]
         && ids[i] in inherited && ids[i] in overlays
         && ModelIds(candidates[i].models) == ModelMembership.Visible(inherited[ids[i]], overlays[ids[i]])
  }

  function ModelIds(models: seq<CandidateModel>): seq<ModelId> {
    seq(|models|, i requires 0 <= i < |models| => models[i].model.modelId)
  }

  /** The duplicate checks of the registry never fire on what the resolver returns. */
  lemma ResolverOutputIsDistinct(
    candidates: seq<Candidate>, builtin: seq<ProviderId>, personal: seq<ProviderId>, family: set<ProviderId>,
    order: seq<ProviderId>, inherited: map<ProviderId, seq<ModelId>>,
    overlays: map<ProviderId, ModelMembership.Overlay>)
    requires NoDup(builtin) && NoDup(personal)
    requires Resolved(candidates, ResolveProviderOrder(builtin, personal, family, order), inherited, overlays)
    ensures Distinct(RegistryProviders(candidates))
  {
    var ids := ResolveProviderOrder(builtin, personal, family, order);
    ProviderOrderIsExact(builtin, personal, family, order);
    hide ResolveProviderOrder;
    forall i | 0 <= i < |candidates|
      ensures DistinctCandidateModels(candidates[i].models)
    {
      VisibleIsDistinct(candidates[i].models, inherited[ids[i]], overlays[ids[i]]);
    }
    RegistryIsDistinct(candidates);
  }

  lemma VisibleIsDistinct(models: seq<CandidateModel>, inherited: seq<ModelId>, o: ModelMembership.Overlay)
    requires ModelIds(models) == ModelMembership.Visible(inherited, o)
    ensures DistinctCandidateModels(models)
  {
    ModelMembership.VisibleMembers(inherited, Some(o));
    forall i, j | 0 <= i < j < |models|
      ensures models[i].model.modelId != models[j].model.modelId
    {
      assert ModelIds(models)[i] != ModelIds(models)[j];
    }
  }
}
