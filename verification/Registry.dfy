// The provider registry: which providers exist and which one serves each model, filled from
// the config file and refreshed from the gateway's snapshots of models by provider.
module Registry {
  import opened Wrappers
  import opened Machine

  datatype Style = OpenaiV1 | OpenaiDirect | Anthropic

  datatype Provider = Provider(
    name: string, baseUrl: string, apiKey: Option<string>, style: Style, models: seq<string>, enabled: bool)

  type Snapshot = map<string, seq<string>>

  datatype Inner = Inner(
    providers: map<string, Provider>,
    routes: map<string, string>,      // model_to_provider
    statics: set<string>,             // names enabled in the config
    disabled: set<string>)            // names disabled in the config

  // The order in which a hash map with these keys is iterated: any order will do.
  type Order = set<string> -> seq<string>

  ghost predicate Lists(order: Order) {
    forall s, x :: x in order(s) <==> x in s
  }

  // A refresh iterates two maps: the snapshot's groups, and the providers for what they list.
  datatype Orders = Orders(groups: Order, listed: Order)

  ghost predicate ListsBoth(orders: Orders) {
    Lists(orders.groups) && Lists(orders.listed)
  }

  // ----- the config -----

  function RouteModel(name: string): (map<string, string>, string) -> map<string, string> {
    (routes: map<string, string>, m: string) => routes[m := name]
  }

  function Register(inner: Inner, p: Provider): Inner {
    if p.enabled then
      inner.(routes := Fold(RouteModel(p.name), inner.routes, p.models),
             statics := inner.statics + {p.name},
             providers := inner.providers[p.name := p])
    else inner.(disabled := inner.disabled + {p.name})
  }

  const BARE := Inner(map[], map[], {}, {})

  function New(config: seq<Provider>): Inner {
    Fold(Register, BARE, config)
  }

  // ----- one refresh -----

  predicate Live(inner: Inner, snapshot: Snapshot, name: string) {
    name in snapshot || name in inner.statics
  }

  // Providers and routes that are neither in the snapshot nor from the config go.
  function Prune(inner: Inner, snapshot: Snapshot): Inner {
    inner.(providers := map name | name in inner.providers && Live(inner, snapshot, name) :: inner.providers[name],
           routes := map m | m in inner.routes && Live(inner, snapshot, inner.routes[m]) :: inner.routes[m])
  }

  predicate Namespaced(model: string) {
    '/' in model
  }

  function CountNamespaced(models: seq<string>): nat {
    if models == [] then 0
    else CountNamespaced(models[..|models| - 1]) + if Namespaced(models[|models| - 1]) then 1 else 0
  }

  function Inferred(models: seq<string>): Style {
    if CountNamespaced(models) * 2 > |models| then OpenaiV1 else OpenaiDirect
  }

  function AutoProvider(name: string, models: seq<string>, url: string): Provider {
    Provider(name, url, None, Inferred(models), models, true)
  }

  // The provider an undisabled snapshot group leaves behind under its name.
  function Merged(inner: Inner, name: string, models: seq<string>, url: string): Provider {
    if name !in inner.providers then AutoProvider(name, models, url)
    else if name !in inner.statics then inner.providers[name].(models := models)
    else inner.providers[name]
  }

  function AddRoute(name: string): (map<string, string>, string) -> map<string, string> {
    (routes: map<string, string>, m: string) => if m in routes then routes else routes[m := name]
  }

  function AddGroup(snapshot: Snapshot, url: string): (Inner, string) -> Inner {
    (inner: Inner, name: string) =>
      if name in inner.disabled || name !in snapshot then inner
      else
        inner.(providers := inner.providers[name := Merged(inner, name, snapshot[name], url)],
               routes := Fold(AddRoute(name), inner.routes, snapshot[name]))
  }

  // Models some provider lists but nothing routes yet, with that provider.
  function Unrouted(inner: Inner): string -> seq<(string, string)> {
    (name: string) =>
      if name in inner.providers then FlatMap(UnroutedOf(inner.routes, name), inner.providers[name].models) else []
  }

  function UnroutedOf(routes: map<string, string>, name: string): string -> seq<(string, string)> {
    (m: string) => if m in routes then [] else [(m, name)]
  }

  function Insert(routes: map<string, string>, entry: (string, string)): map<string, string> {
    routes[entry.0 := entry.1]
  }

  function RouteListed(inner: Inner, order: Order): Inner {
    inner.(routes := Fold(Insert, inner.routes, FlatMap(Unrouted(inner), order(inner.providers.Keys))))
  }

  predicate Listed(providers: map<string, Provider>, model: string) {
    exists name :: name in providers && model in providers[name].models
  }

  // Routes of models nobody lists, or to providers nobody knows, go.
  function DropStale(inner: Inner): Inner {
    inner.(routes := map m | m in inner.routes && Listed(inner.providers, m) && inner.routes[m] in inner.providers :: inner.routes[m])
  }

  function Refresh(inner: Inner, snapshot: Snapshot, url: string, orders: Orders): Inner {
    var pruned := Prune(inner, snapshot);
    var grouped := Fold(AddGroup(snapshot, url), pruned, orders.groups(snapshot.Keys));
    DropStale(RouteListed(grouped, orders.listed))
  }

  // ----- lookup -----

  predicate Named(providers: seq<Provider>, name: string) {
    exists p :: p in providers && p.name == name
  }

  // One provider considered as a further candidate for `model`.
  function Consider(inner: Inner, model: string): (seq<Provider>, string) -> seq<Provider> {
    (found: seq<Provider>, name: string) =>
      if name in inner.providers && inner.providers[name].enabled && model in inner.providers[name].models
         && !Named(found, inner.providers[name].name)
      then found + [inner.providers[name]] else found
  }

  function Target(inner: Inner, model: string): seq<Provider> {
    if model in inner.routes && inner.routes[model] in inner.providers && inner.providers[inner.routes[model]].enabled
    then [inner.providers[inner.routes[model]]] else []
  }

  // Who may serve a model: the provider it is routed to, then all others that list it.
  function Candidates(inner: Inner, model: string, order: Order): seq<Provider> {
    Fold(Consider(inner, model), Target(inner, model), order(inner.providers.Keys))
  }

  // ----- the registry object -----

  class ProviderRegistry {
    var providers: map<string, Provider>
    var modelToProvider: map<string, string>
    var staticProviders: set<string>
    var disabledStaticProviders: set<string>

    ghost function Contents(): Inner
      reads this
    {
      Inner(providers, modelToProvider, staticProviders, disabledStaticProviders)
    }

    constructor (config: seq<Provider>)
      ensures Contents() == New(config)
    {
      providers, modelToProvider, staticProviders, disabledStaticProviders := map[], map[], {}, {};
      new;
      hide RouteModel;
      for i := 0 to |config|
        invariant Contents() == New(config[..i])
      {
        ghost var before := Contents();
        var provider := config[i];
        if provider.enabled {
          for j := 0 to |provider.models|
            invariant modelToProvider == Fold(RouteModel(provider.name), before.routes, provider.models[..j])
            invariant Contents() == before.(routes := modelToProvider)
          {
            RouteOneMore(provider.name, before.routes, provider.models, j);
            modelToProvider := modelToProvider[provider.models[j] := provider.name];
          }
          assert provider.models[..|provider.models|] == provider.models;
          staticProviders := staticProviders + {provider.name};
          providers := providers[provider.name := provider];
        } else {
          disabledStaticProviders := disabledStaticProviders + {provider.name};
        }
        assert Contents() == Register(before, provider);
        assert config[..i + 1][..i] == config[..i];
      }
      assert config[..|config|] == config;
    }

    method UpdateFromDiscovery(snapshot: Snapshot, url: string, orders: Orders)
      modifies this
      ensures Contents() == Refresh(old(Contents()), snapshot, url, orders)
    {
      hide Prune, Fold, AddGroup, RouteListed, DropStale;
      RemoveStale(snapshot);
      ghost var pruned := Contents();
      var groups := orders.groups(snapshot.Keys);
      NothingFolded(AddGroup(snapshot, url), pruned);
      assert groups[..0] == [];
      for i := 0 to |groups|
        invariant Contents() == Fold(AddGroup(snapshot, url), pruned, groups[..i])
      {
        FoldOneMore(AddGroup(snapshot, url), pruned, groups, i);
        AddDiscovered(snapshot, url, groups[i]);
      }
      assert groups[..|groups|] == groups;
      RouteManualEntries(orders.listed);
      RetainValidRoutes();
    }

    method RemoveStale(snapshot: Snapshot)
      modifies this
      ensures Contents() == Prune(old(Contents()), snapshot)
    {
      providers := map name | name in providers && (name in snapshot || name in staticProviders) :: providers[name];
      modelToProvider := map m | m in modelToProvider && (modelToProvider[m] in snapshot || modelToProvider[m] in staticProviders) :: modelToProvider[m];
    }

    method RetainValidRoutes()
      modifies this
      ensures Contents() == DropStale(old(Contents()))
    {
      modelToProvider := map m | m in modelToProvider && Listed(providers, m) && modelToProvider[m] in providers :: modelToProvider[m];
    }

    method AddDiscovered(snapshot: Snapshot, url: string, id: string)
      modifies this
      ensures Contents() == AddGroup(snapshot, url)(old(Contents()), id)
    {
      if id in disabledStaticProviders || id !in snapshot {
        return;
      }
      ghost var before := Contents();
      var models := snapshot[id];
      if id !in providers {
        var count := CountNamespaced(models);
        var style := if count * 2 > |models| then OpenaiV1 else OpenaiDirect;
        providers := providers[id := Provider(id, url, None, style, models, true)];
      } else if id !in staticProviders {
        providers := providers[id := providers[id].(models := models)];
      }
      assert providers == before.providers[id := Merged(before, id, models, url)];
      hide Merged, Fold;
      NothingFolded(AddRoute(id), before.routes);
      assert models[..0] == [];
      for j := 0 to |models|
        invariant modelToProvider == Fold(AddRoute(id), before.routes, models[..j])
        invariant providers == before.providers[id := Merged(before, id, models, url)]
        invariant staticProviders == before.statics && disabledStaticProviders == before.disabled
      {
        FoldOneMore(AddRoute(id), before.routes, models, j);
        if models[j] !in modelToProvider {
          modelToProvider := modelToProvider[models[j] := id];
        }
      }
      assert models[..|models|] == models;
    }

    // The entries are collected before any of them is inserted.
    method RouteManualEntries(order: Order)
      modifies this
      ensures Contents() == RouteListed(old(Contents()), order)
    {
      ghost var before := Contents();
      var names := order(providers.Keys);
      var entries := FlatMap(Unrouted(Inner(providers, modelToProvider, staticProviders, disabledStaticProviders)), names);
      hide Fold, FlatMap;
      NothingFolded(Insert, modelToProvider);
      assert entries[..0] == [];
      for i := 0 to |entries|
        invariant modelToProvider == Fold(Insert, before.routes, entries[..i])
        invariant Contents() == before.(routes := modelToProvider)
      {
        FoldOneMore(Insert, before.routes, entries, i);
        modelToProvider := modelToProvider[entries[i].0 := entries[i].1];
      }
      assert entries[..|entries|] == entries;
    }

    method GetProvidersForModel(model: string, order: Order) returns (result: seq<Provider>)
      ensures result == Candidates(Contents(), model, order)
    {
      hide Fold;
      result := [];
      if model in modelToProvider && modelToProvider[model] in providers && providers[modelToProvider[model]].enabled {
        result := [providers[modelToProvider[model]]];
      }
      assert result == Target(Contents(), model);
      ghost var first := result;
      var names := order(providers.Keys);
      NothingFolded(Consider(Contents(), model), first);
      assert names[..0] == [];
      for i := 0 to |names|
        invariant result == Fold(Consider(Contents(), model), first, names[..i])
      {
        FoldOneMore(Consider(Contents(), model), first, names, i);
        var name := names[i];
        if name in providers && providers[name].enabled && model in providers[name].models
           && !Named(result, providers[name].name) {
          result := result + [providers[name]];
        }
      }
      assert names[..|names|] == names;
    }
  }

  lemma RouteOneMore(name: string, routes: map<string, string>, models: seq<string>, j: nat)
    requires j < |models|
    ensures Fold(RouteModel(name), routes, models[..j + 1]) == Fold(RouteModel(name), routes, models[..j])[models[j] := name]
  {
    FoldOneMore(RouteModel(name), routes, models, j);
  }
}
