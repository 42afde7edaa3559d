// What every refresh keeps and what it leaves behind, for every iteration order of every
// hash map involved.
module RegistryRuns {
  import opened Wrappers
  import opened Machine
  import opened Registry

  type Routes = map<string, string>

  // ----- the folds, seen from outside -----

  // Models added to the routes: existing routes stay, the others go to `name`.
  lemma {:induction false} AddRoutes(name: string, routes: Routes, models: seq<string>)
    ensures var r := Fold(AddRoute(name), routes, models);
            && (forall m :: m in r <==> m in routes || m in models)
            && (forall m :: m in r ==> r[m] == if m in routes then routes[m] else name)
  {
    if models != [] {
      AddRoutes(name, routes, models[..|models| - 1]);
      assert models == models[..|models| - 1] + [models[|models| - 1]];
    }
  }

  lemma {:induction false} RouteModels(name: string, routes: Routes, models: seq<string>)
    ensures var r := Fold(RouteModel(name), routes, models);
            && (forall m :: m in r <==> m in routes || m in models)
            && (forall m :: m in r ==> r[m] == if m in models then name else routes[m])
  {
    if models != [] {
      RouteModels(name, routes, models[..|models| - 1]);
      assert models == models[..|models| - 1] + [models[|models| - 1]];
    }
  }

  lemma {:induction false} InsertAll(routes: Routes, entries: seq<(string, string)>)
    ensures var r := Fold(Insert, routes, entries);
            && (forall e :: e in entries ==> e.0 in r)
            && (forall m :: m in routes ==> m in r)
            && (forall m :: m in r ==> (m, r[m]) in entries || (m in routes && r[m] == routes[m]))
  {
    if entries != [] {
      InsertAll(routes, entries[..|entries| - 1]);
      assert entries == entries[..|entries| - 1] + [entries[|entries| - 1]];
    }
  }

  lemma IsUnrouted(inner: Inner, order: Order, e: (string, string))
    requires Lists(order)
    ensures e in FlatMap(Unrouted(inner), order(inner.providers.Keys)) <==>
            e.1 in inner.providers && e.0 in inner.providers[e.1].models && e.0 !in inner.routes
  {
    InFlatMap(Unrouted(inner), order(inner.providers.Keys), e);
    forall name | name in inner.providers
      ensures e in Unrouted(inner)(name) <==>
              e.1 == name && e.0 in inner.providers[name].models && e.0 !in inner.routes
    {
      InFlatMap(UnroutedOf(inner.routes, name), inner.providers[name].models, e);
    }
  }

  // After routing what providers list: old routes stay, every listed model has a route, and
  // a new route leads to a provider that lists the model.
  lemma RouteListedIs(inner: Inner, order: Order)
    requires Lists(order)
    ensures var r := RouteListed(inner, order).routes;
            && (forall m :: m in r <==> m in inner.routes || Listed(inner.providers, m))
            && (forall m :: m in r ==>
                  if m in inner.routes then r[m] == inner.routes[m]
                  else r[m] in inner.providers && m in inner.providers[r[m]].models)
  {
    var entries := FlatMap(Unrouted(inner), order(inner.providers.Keys));
    InsertAll(inner.routes, entries);
    var r := Fold(Insert, inner.routes, entries);
    hide Fold, FlatMap, Unrouted;
    forall m
      ensures m in r <==> m in inner.routes || Listed(inner.providers, m)
      ensures m in r && m in inner.routes ==> r[m] == inner.routes[m]
      ensures m in r && m !in inner.routes ==> r[m] in inner.providers && m in inner.providers[r[m]].models
    {
      if m in r {
        IsUnrouted(inner, order, (m, r[m]));
      }
      if m !in inner.routes && Listed(inner.providers, m) {
        var name :| name in inner.providers && m in inner.providers[name].models;
        IsUnrouted(inner, order, (m, name));
      }
    }
  }

  // The groups of `names`, added to `inner`.
  predicate Adds(inner: Inner, snapshot: Snapshot, name: string) {
    name in snapshot && name !in inner.disabled
  }

  ghost predicate GroupedProviders(inner: Inner, snapshot: Snapshot, url: string, names: seq<string>, g: Inner) {
    && (forall n :: n in g.providers <==> n in inner.providers || (n in names && Adds(inner, snapshot, n)))
    && (forall n :: n in g.providers ==>
          g.providers[n] == if n in names && Adds(inner, snapshot, n) then Merged(inner, n, snapshot[n], url) else inner.providers[n])
  }

  // The first of the groups that holds a model.
  function FirstGroup(inner: Inner, snapshot: Snapshot, names: seq<string>, m: string): (r: Option<string>)
    ensures r.Some? ==> r.value in names && Adds(inner, snapshot, r.value) && m in snapshot[r.value]
  {
    if names == [] then None
    else
      var before, name := FirstGroup(inner, snapshot, names[..|names| - 1], m), names[|names| - 1];
      if before.Some? then before
      else if Adds(inner, snapshot, name) && m in snapshot[name] then Some(name) else None
  }

  ghost predicate GroupedRoutes(inner: Inner, snapshot: Snapshot, names: seq<string>, routes: Routes) {
    && (forall m :: m in routes <==> m in inner.routes || FirstGroup(inner, snapshot, names, m).Some?)
    && (forall m :: m in routes ==>
          routes[m] == if m in inner.routes then inner.routes[m] else FirstGroup(inner, snapshot, names, m).value)
  }

  ghost predicate Grouped(inner: Inner, snapshot: Snapshot, url: string, names: seq<string>, g: Inner) {
    && g.statics == inner.statics && g.disabled == inner.disabled
    && GroupedProviders(inner, snapshot, url, names, g)
    && GroupedRoutes(inner, snapshot, names, g.routes)
  }

  // Merging a group into what it has been merged into before, or not yet.
  lemma MergedAgain(inner: Inner, snapshot: Snapshot, url: string, names: seq<string>, g: Inner, name: string)
    requires Grouped(inner, snapshot, url, names, g) && Adds(inner, snapshot, name)
    ensures Merged(g, name, snapshot[name], url) == Merged(inner, name, snapshot[name], url)
  {
    hide GroupedRoutes;
  }

  lemma MoreProviders(inner: Inner, snapshot: Snapshot, url: string, names: seq<string>, g: Inner, name: string)
    requires Grouped(inner, snapshot, url, names, g)
    ensures GroupedProviders(inner, snapshot, url, names + [name], AddGroup(snapshot, url)(g, name))
  {
    hide GroupedRoutes, Fold, Merged;
    assert forall n :: n in names + [name] <==> n in names || n == name;
    if Adds(inner, snapshot, name) {
      MergedAgain(inner, snapshot, url, names, g, name);
    }
  }

  lemma MoreRoutes(inner: Inner, snapshot: Snapshot, url: string, names: seq<string>, g: Inner, name: string)
    requires Grouped(inner, snapshot, url, names, g)
    ensures GroupedRoutes(inner, snapshot, names + [name], AddGroup(snapshot, url)(g, name).routes)
  {
    hide GroupedProviders, Merged;
    assert (names + [name])[..|names|] == names;
    if Adds(inner, snapshot, name) {
      AddRoutes(name, g.routes, snapshot[name]);
      hide Fold;
    }
  }

  lemma GroupsOneMore(inner: Inner, snapshot: Snapshot, url: string, names: seq<string>, g: Inner, name: string)
    requires Grouped(inner, snapshot, url, names, g)
    ensures Grouped(inner, snapshot, url, names + [name], AddGroup(snapshot, url)(g, name))
  {
    hide GroupedProviders, GroupedRoutes, Merged, Fold;
    MoreProviders(inner, snapshot, url, names, g, name);
    MoreRoutes(inner, snapshot, url, names, g, name);
  }

  lemma {:induction false} AddGroups(inner: Inner, snapshot: Snapshot, url: string, names: seq<string>)
    ensures Grouped(inner, snapshot, url, names, Fold(AddGroup(snapshot, url), inner, names))
  {
    NoGroups(inner, snapshot, url);
    hide AddGroup, Grouped;
    if names != [] {
      var before := names[..|names| - 1];
      AddGroups(inner, snapshot, url, before);
      GroupsOneMore(inner, snapshot, url, before, Fold(AddGroup(snapshot, url), inner, before), names[|names| - 1]);
      assert names == before + [names[|names| - 1]];
    }
  }

  lemma NoGroups(inner: Inner, snapshot: Snapshot, url: string)
    ensures Grouped(inner, snapshot, url, [], inner)
  {
  }

  // ----- what a refresh leaves behind -----

  // Present afterwards: the live providers of before, and the snapshot's undisabled groups.
  predicate Kept(inner: Inner, snapshot: Snapshot, name: string) {
    name in inner.providers && Live(inner, snapshot, name)
  }

  // Every route leads to a provider.
  ghost predicate Rooted(inner: Inner) {
    forall m :: m in inner.routes ==> inner.routes[m] in inner.providers
  }

  // A route that survives: its provider is live, so it is never replaced.
  predicate Sticks(inner: Inner, snapshot: Snapshot, m: string) {
    m in inner.routes && Live(inner, snapshot, inner.routes[m])
  }

  ghost predicate ProvidersRefreshed(inner: Inner, snapshot: Snapshot, url: string, r: Inner) {
    && r.statics == inner.statics && r.disabled == inner.disabled
    && (forall n :: n in r.providers <==> Kept(inner, snapshot, n) || Adds(inner, snapshot, n))
    && (forall n :: n in r.providers ==>
          r.providers[n] == if Adds(inner, snapshot, n) then Merged(inner, n, snapshot[n], url) else inner.providers[n])
  }

  // A route of before stays if it sticks; another leads to a provider that lists the model
  // or whose snapshot group holds it.
  ghost predicate RoutesFollow(inner: Inner, snapshot: Snapshot, r: Inner) {
    forall m :: m in r.routes ==>
      if Sticks(inner, snapshot, m) then r.routes[m] == inner.routes[m]
      else
        && r.routes[m] in r.providers
        && (m in r.providers[r.routes[m]].models || (Adds(inner, snapshot, r.routes[m]) && m in snapshot[r.routes[m]]))
  }

  // The outcome of a refresh, whatever the iteration orders were: the providers are
  // determined, the routed models are those listed, and the routes lead to providers.
  ghost predicate Refreshed(inner: Inner, snapshot: Snapshot, url: string, r: Inner) {
    && ProvidersRefreshed(inner, snapshot, url, r)
    && (forall m :: m in r.routes <==> Listed(r.providers, m))
    && Rooted(r)
    && RoutesFollow(inner, snapshot, r)
  }

  lemma PruneIs(inner: Inner, snapshot: Snapshot)
    ensures var p := Prune(inner, snapshot);
            && p.statics == inner.statics && p.disabled == inner.disabled
            && (forall n :: n in p.providers <==> Kept(inner, snapshot, n))
            && (forall n :: n in p.providers ==> p.providers[n] == inner.providers[n])
            && (forall m :: m in p.routes <==> Sticks(inner, snapshot, m))
            && (forall m :: m in p.routes ==> p.routes[m] == inner.routes[m])
  {
  }

  // The routes after the groups have been added: the sticking ones, and group members, each
  // to the first group that holds it.
  ghost predicate RoutesGrouped(inner: Inner, snapshot: Snapshot, names: seq<string>, routes: Routes) {
    && (forall m :: m in routes <==> Sticks(inner, snapshot, m) || FirstGroup(inner, snapshot, names, m).Some?)
    && (forall m :: m in routes ==>
          routes[m] ==
          if Sticks(inner, snapshot, m) then inner.routes[m] else FirstGroup(inner, snapshot, names, m).value)
  }

  lemma {:induction false} SameFirstGroup(inner: Inner, p: Inner, snapshot: Snapshot, names: seq<string>, m: string)
    requires p.disabled == inner.disabled
    ensures FirstGroup(p, snapshot, names, m) == FirstGroup(inner, snapshot, names, m)
  {
    if names != [] {
      SameFirstGroup(inner, p, snapshot, names[..|names| - 1], m);
    }
  }

  lemma GroupedIs(inner: Inner, snapshot: Snapshot, url: string, order: Order)
    requires Lists(order)
    ensures var names := order(snapshot.Keys);
            var g := Fold(AddGroup(snapshot, url), Prune(inner, snapshot), names);
            ProvidersRefreshed(inner, snapshot, url, g) && RoutesGrouped(inner, snapshot, names, g.routes)
  {
    hide Prune, Fold, AddGroup, GroupedProviders, ProvidersRefreshed, Merged, FirstGroup, Live, Kept;
    var p, names := Prune(inner, snapshot), order(snapshot.Keys);
    PruneIs(inner, snapshot);
    AddGroups(p, snapshot, url, names);
    var g := Fold(AddGroup(snapshot, url), p, names);
    PrunedProviders(inner, snapshot, url, p, names, g);
    forall m ensures FirstGroup(p, snapshot, names, m) == FirstGroup(inner, snapshot, names, m) {
      SameFirstGroup(inner, p, snapshot, names, m);
    }
  }

  lemma PrunedProviders(inner: Inner, snapshot: Snapshot, url: string, p: Inner, names: seq<string>, g: Inner)
    requires p == Prune(inner, snapshot) && Grouped(p, snapshot, url, names, g)
    requires forall n :: n in names <==> n in snapshot
    ensures ProvidersRefreshed(inner, snapshot, url, g)
  {
    PruneIs(inner, snapshot);
    hide Prune, GroupedRoutes;
    assert forall n :: Adds(p, snapshot, n) == Adds(inner, snapshot, n);
    assert forall n :: n in snapshot ==> Merged(p, n, snapshot[n], url) == Merged(inner, n, snapshot[n], url);
    hide Merged;
  }

  // What routing the listed models and dropping the stale routes does to the routes.
  ghost predicate Finished(g: Inner, r: Inner) {
    && r == g.(routes := r.routes)
    && (forall m :: m in r.routes ==>
          && r.routes[m] in g.providers
          && if m in g.routes then r.routes[m] == g.routes[m] else m in g.providers[r.routes[m]].models)
    && (Rooted(g) ==> forall m :: m in r.routes <==> Listed(g.providers, m))
  }

  lemma FinishIs(g: Inner, order: Order)
    requires Lists(order)
    ensures Finished(g, DropStale(RouteListed(g, order)))
  {
    hide RouteListed, DropStale, Lists, Listed;
    RouteListedIs(g, order);
    OnlyRoutes(g, order);
    DropStaleIs(RouteListed(g, order));
  }

  lemma OnlyRoutes(g: Inner, order: Order)
    ensures var l := RouteListed(g, order); l == g.(routes := l.routes)
  {
    hide Fold, FlatMap;
  }

  lemma DropStaleIs(l: Inner)
    ensures var r := DropStale(l);
            && r == l.(routes := r.routes)
            && (forall m :: m in r.routes <==> m in l.routes && Listed(l.providers, m) && l.routes[m] in l.providers)
            && (forall m :: m in r.routes ==> r.routes[m] == l.routes[m])
  {
    hide Listed;
  }

  lemma RefreshFrom(inner: Inner, snapshot: Snapshot, url: string, names: seq<string>, g: Inner, r: Inner)
    requires Rooted(inner) && ProvidersRefreshed(inner, snapshot, url, g) && RoutesGrouped(inner, snapshot, names, g.routes)
    requires Finished(g, r)
    ensures Refreshed(inner, snapshot, url, r)
  {
    hide Merged, Listed;
    assert Rooted(g) by {
      forall m | m in g.routes
        ensures g.routes[m] in g.providers
      {
        if Sticks(inner, snapshot, m) {
          assert Kept(inner, snapshot, inner.routes[m]);
        }
      }
    }
    assert ProvidersRefreshed(inner, snapshot, url, r);
    hide ProvidersRefreshed;
  }

  lemma RefreshIs(inner: Inner, snapshot: Snapshot, url: string, orders: Orders)
    requires ListsBoth(orders) && Rooted(inner)
    ensures Refreshed(inner, snapshot, url, Refresh(inner, snapshot, url, orders))
  {
    hide Prune, Fold, RouteListed, DropStale, Refreshed, Finished, ProvidersRefreshed, RoutesGrouped;
    GroupedIs(inner, snapshot, url, orders.groups);
    var g := Fold(AddGroup(snapshot, url), Prune(inner, snapshot), orders.groups(snapshot.Keys));
    FinishIs(g, orders.listed);
    RefreshFrom(inner, snapshot, url, orders.groups(snapshot.Keys), g, DropStale(RouteListed(g, orders.listed)));
  }

  // ----- the config -----

  // The config validator accepts each provider name once.
  predicate UniqueNames(config: seq<Provider>) {
    forall i, j :: 0 <= i < j < |config| ==> config[i].name != config[j].name
  }

  predicate Configures(config: seq<Provider>, name: string, enabled: bool) {
    exists i :: 0 <= i < |config| && config[i].name == name && config[i].enabled == enabled
  }

  // A fresh registry says what the config says.
  ghost predicate LoadedProviders(config: seq<Provider>, inner: Inner) {
    && inner.providers.Keys == inner.statics
    && (forall i :: 0 <= i < |config| && config[i].enabled ==> config[i].name in inner.providers && inner.providers[config[i].name] == config[i])
    && (forall n :: n in inner.providers ==> inner.providers[n].name == n && inner.providers[n].enabled)
  }

  ghost predicate LoadedRoutes(inner: Inner) {
    && Rooted(inner)
    && (forall m :: m in inner.routes ==> m in inner.providers[inner.routes[m]].models)
    && (forall m :: Listed(inner.providers, m) ==> m in inner.routes)
  }

  ghost predicate Loaded(config: seq<Provider>, inner: Inner) {
    && (forall n :: n in inner.statics <==> Configures(config, n, true))
    && (forall n :: n in inner.disabled <==> Configures(config, n, false))
    && LoadedProviders(config, inner)
    && LoadedRoutes(inner)
  }

  lemma ConfiguresMore(config: seq<Provider>, p: Provider)
    ensures forall n, e :: Configures(config + [p], n, e) == (Configures(config, n, e) || (p.name == n && p.enabled == e))
  {
    var all := config + [p];
    forall n, e
      ensures Configures(all, n, e) == (Configures(config, n, e) || (p.name == n && p.enabled == e))
    {
      if Configures(config, n, e) {
        var i :| 0 <= i < |config| && config[i].name == n && config[i].enabled == e;
        assert all[i].name == n && all[i].enabled == e;
      }
      if p.name == n && p.enabled == e {
        assert all[|config|].name == n && all[|config|].enabled == e;
      }
    }
  }

  lemma ListedMore(providers: map<string, Provider>, p: Provider, m: string)
    requires p.name !in providers
    ensures Listed(providers[p.name := p], m) <==> Listed(providers, m) || m in p.models
  {
    var all := providers[p.name := p];
    if Listed(providers, m) {
      var n :| n in providers && m in providers[n].models;
      assert n in all && m in all[n].models;
    }
    if m in p.models {
      assert p.name in all && m in all[p.name].models;
    }
  }

  lemma RoutesOneMore(inner: Inner, p: Provider)
    requires LoadedRoutes(inner) && p.enabled && p.name !in inner.providers
    ensures LoadedRoutes(Register(inner, p))
  {
    RouteModels(p.name, inner.routes, p.models);
    var r := Register(inner, p);
    assert r.routes == Fold(RouteModel(p.name), inner.routes, p.models) && r.providers == inner.providers[p.name := p];
    hide Fold, Register;
    forall m | m in r.routes
      ensures r.routes[m] in r.providers && m in r.providers[r.routes[m]].models
    {
      if m !in p.models {
        assert m in inner.routes && inner.routes[m] in inner.providers;
      }
    }
    forall m | Listed(r.providers, m)
      ensures m in r.routes
    {
      ListedMore(inner.providers, p, m);
    }
  }

  lemma LoadsOneMore(config: seq<Provider>, inner: Inner, p: Provider)
    requires Loaded(config, inner) && UniqueNames(config + [p])
    ensures Loaded(config + [p], Register(inner, p))
  {
    hide Configures, LoadedRoutes, LoadedProviders, Fold, UniqueNames;
    NewName(config, inner, p);
    ConfiguresMore(config, p);
    if p.enabled {
      RoutesOneMore(inner, p);
    } else {
      DisabledKeepsRoutes(inner, p);
    }
    ProvidersOneMore(config, inner, p);
  }

  lemma DisabledKeepsRoutes(inner: Inner, p: Provider)
    requires LoadedRoutes(inner) && !p.enabled
    ensures LoadedRoutes(Register(inner, p))
  {
    hide Fold;
  }

  lemma ProvidersOneMore(config: seq<Provider>, inner: Inner, p: Provider)
    requires LoadedProviders(config, inner) && p.name !in inner.providers
    ensures LoadedProviders(config + [p], Register(inner, p))
  {
    hide Fold;
    var all := config + [p];
    assert forall i :: 0 <= i < |config| ==> all[i] == config[i];
  }

  lemma NewName(config: seq<Provider>, inner: Inner, p: Provider)
    requires Loaded(config, inner) && UniqueNames(config + [p])
    ensures p.name !in inner.statics && p.name !in inner.providers
  {
    var all := config + [p];
    assert forall i :: 0 <= i < |config| ==> all[i] == config[i];
    assert all[|config|] == p;
    hide LoadedRoutes;
  }

  lemma {:induction false} NewLoads(config: seq<Provider>)
    requires UniqueNames(config)
    ensures Loaded(config, New(config))
  {
    NothingLoads();
    hide Register, Loaded;
    if config != [] {
      var before, p := config[..|config| - 1], config[|config| - 1];
      assert config == before + [p];
      NewLoads(before);
      LoadsOneMore(before, New(before), p);
    }
  }

  lemma RegisterRoutes(inner: Inner, p: Provider, m: string)
    ensures var r := Register(inner, p).routes;
            if p.enabled && m in p.models then m in r && r[m] == p.name
            else (m in r <==> m in inner.routes) && (m in r ==> r[m] == inner.routes[m])
  {
    RouteModels(p.name, inner.routes, p.models);
    hide Fold;
  }

  // A model listed more than once is routed to the last enabled provider that lists it.
  lemma {:induction false} LastListedWins(config: seq<Provider>, i: nat, m: string)
    requires i < |config| && config[i].enabled && m in config[i].models
    requires forall j :: i < j < |config| && config[j].enabled ==> m !in config[j].models
    ensures m in New(config).routes && New(config).routes[m] == config[i].name
  {
    hide Register;
    var before, p := config[..|config| - 1], config[|config| - 1];
    RegisterRoutes(New(before), p, m);
    if i < |before| {
      LastListedWins(before, i, m);
    }
  }

  lemma NothingLoads()
    ensures Loaded([], BARE)
  {
  }

  // ----- safety over all runs -----

  // Against the freshly loaded registry `n`: its providers are there unchanged, its routes
  // are kept, disabled names are absent, and exactly the listed models are routed, each to a
  // present provider.
  ghost predicate Safe(n: Inner, inner: Inner) {
    && inner.statics == n.statics && inner.disabled == n.disabled
    && (forall name :: name in n.providers ==> name in inner.providers && inner.providers[name] == n.providers[name])
    && (forall name :: name in inner.providers ==>
          name !in inner.disabled && inner.providers[name].enabled && inner.providers[name].name == name)
    && Rooted(inner)
    && (forall m :: m in inner.routes <==> Listed(inner.providers, m))
    && (forall m :: m in n.routes ==> m in inner.routes && inner.routes[m] == n.routes[m])
  }

  lemma EnabledOrDisabled(config: seq<Provider>, name: string)
    requires UniqueNames(config)
    ensures !(Configures(config, name, true) && Configures(config, name, false))
  {
    assert forall i, j :: 0 <= i < |config| && 0 <= j < |config| && config[i].name == config[j].name ==> i == j;
  }

  lemma NewIsSafe(config: seq<Provider>)
    requires UniqueNames(config)
    ensures Safe(New(config), New(config))
  {
    hide New, Configures;
    NewLoads(config);
    var n := New(config);
    forall name | name in n.providers
      ensures name !in n.disabled
    {
      EnabledOrDisabled(config, name);
    }
    forall m | m in n.routes
      ensures Listed(n.providers, m)
    {
      assert n.routes[m] in n.providers;
    }
  }

  lemma RefreshKeepsProviders(config: seq<Provider>, inner: Inner, snapshot: Snapshot, url: string, r: Inner)
    requires UniqueNames(config) && Safe(New(config), inner) && ProvidersRefreshed(inner, snapshot, url, r)
    ensures var n := New(config);
            && (forall name :: name in n.providers ==> name in r.providers && r.providers[name] == n.providers[name])
            && (forall name :: name in r.providers ==>
                  name !in r.disabled && r.providers[name].enabled && r.providers[name].name == name)
  {
    NewLoads(config);
    hide New, Configures, Listed;
  }

  lemma RefreshKeepsRoutes(config: seq<Provider>, inner: Inner, snapshot: Snapshot, url: string, r: Inner)
    requires UniqueNames(config) && Safe(New(config), inner) && Refreshed(inner, snapshot, url, r)
    ensures var n := New(config);
            forall m :: m in n.routes ==> m in r.routes && r.routes[m] == n.routes[m]
  {
    NewLoads(config);
    RefreshKeepsProviders(config, inner, snapshot, url, r);
    var n := New(config);
    forall m | m in n.routes
      ensures m in r.routes && r.routes[m] == n.routes[m]
    {
      var target := n.routes[m];
      assert target in r.providers && m in r.providers[target].models;
      assert Listed(r.providers, m);
      assert Sticks(inner, snapshot, m);
    }
    hide New, Configures;
  }

  // Every refresh, with any snapshot and any iteration orders, keeps a registry safe.
  lemma RefreshKeepsSafe(config: seq<Provider>, inner: Inner, snapshot: Snapshot, url: string, orders: Orders)
    requires UniqueNames(config) && Safe(New(config), inner) && ListsBoth(orders)
    ensures Safe(New(config), Refresh(inner, snapshot, url, orders))
  {
    hide New, Refresh, Listed, ListsBoth, UniqueNames, RoutesFollow, Merged, Kept;
    var r := Refresh(inner, snapshot, url, orders);
    SafeIsRooted(New(config), inner);
    RefreshIs(inner, snapshot, url, orders);
    RefreshKeepsProviders(config, inner, snapshot, url, r);
    RefreshKeepsRoutes(config, inner, snapshot, url, r);
  }

  // One refresh of a run: the snapshot, the gateway's address, the iteration orders.
  datatype Discovery = Discovery(snapshot: Snapshot, url: string, orders: Orders)

  function Apply(inner: Inner, d: Discovery): Inner {
    Refresh(inner, d.snapshot, d.url, d.orders)
  }

  // After any number of refreshes the registry is safe.
  lemma {:induction false} AlwaysSafe(config: seq<Provider>, ds: seq<Discovery>)
    requires UniqueNames(config) && forall d :: d in ds ==> ListsBoth(d.orders)
    ensures Safe(New(config), Fold(Apply, New(config), ds))
  {
    hide Safe, New, Refresh, ListsBoth;
    NewIsSafe(config);
    if ds != [] {
      var before, d := ds[..|ds| - 1], ds[|ds| - 1];
      assert d in ds && forall x :: x in before ==> x in ds;
      AlwaysSafe(config, before);
      RefreshKeepsSafe(config, Fold(Apply, New(config), before), d.snapshot, d.url, d.orders);
    }
  }

  // ----- convergence -----

  // Present: the config's providers as configured, and the undisabled groups of the snapshot
  // with the models it gives them. Routed: the models these list.
  ghost predicate Outcome(n: Inner, snapshot: Snapshot, r: Inner) {
    && (forall k :: k in r.providers <==> k in n.statics || (k in snapshot && k !in n.disabled))
    && (forall k :: k in r.providers && k in n.statics ==> k in n.providers && r.providers[k] == n.providers[k])
    && (forall k :: k in r.providers && k !in n.statics ==> k in snapshot && r.providers[k].models == snapshot[k])
    && (forall m :: m in r.routes <==> Listed(r.providers, m))
  }

  lemma ConvergesTo(config: seq<Provider>, a: Inner, d: Discovery)
    requires UniqueNames(config) && Safe(New(config), a) && ListsBoth(d.orders)
    ensures Outcome(New(config), d.snapshot, Apply(a, d))
  {
    hide New, Refresh, Listed, Configures, ListsBoth;
    RefreshIs(a, d.snapshot, d.url, d.orders);
    NewLoads(config);
    PresentAfter(New(config), a, d.snapshot, d.url, Apply(a, d));
  }

  lemma PresentAfter(n: Inner, a: Inner, snapshot: Snapshot, url: string, r: Inner)
    requires Safe(n, a) && n.providers.Keys == n.statics && Refreshed(a, snapshot, url, r)
    ensures Outcome(n, snapshot, r)
  {
    hide Listed, Rooted, RoutesFollow;
  }

  lemma SameModels(p: map<string, Provider>, q: map<string, Provider>, m: string)
    requires p.Keys == q.Keys && (forall n :: n in p ==> p[n].models == q[n].models)
    ensures Listed(p, m) ==> Listed(q, m)
  {
    if Listed(p, m) {
      var n :| n in p && m in p[n].models;
      assert n in q && m in q[n].models;
    }
  }

  lemma OutcomeDetermines(n: Inner, snapshot: Snapshot, r: Inner, q: Inner)
    requires Outcome(n, snapshot, r) && Outcome(n, snapshot, q)
    ensures r.providers.Keys == q.providers.Keys && r.routes.Keys == q.routes.Keys
    ensures forall k :: k in r.providers ==> r.providers[k].models == q.providers[k].models
  {
    hide Listed;
    assert r.providers.Keys == q.providers.Keys;
    forall m
      ensures Listed(r.providers, m) == Listed(q.providers, m)
    {
      SameModels(r.providers, q.providers, m);
      SameModels(q.providers, r.providers, m);
    }
    assert forall m :: m in r.routes <==> m in q.routes;
  }

  // What a refresh leaves is determined by the config and the snapshot, not by what was
  // there before nor by any iteration order: which providers exist, the config's own as
  // configured, the models of the others, and which models are routed.
  lemma RefreshConverges(config: seq<Provider>, a: Inner, b: Inner, one: Discovery, two: Discovery)
    requires UniqueNames(config) && Safe(New(config), a) && Safe(New(config), b)
    requires one.snapshot == two.snapshot && ListsBoth(one.orders) && ListsBoth(two.orders)
    ensures var r, q := Apply(a, one), Apply(b, two);
            && Outcome(New(config), one.snapshot, r)
            && r.providers.Keys == q.providers.Keys
            && (forall n :: n in r.providers ==> r.providers[n].models == q.providers[n].models)
            && r.routes.Keys == q.routes.Keys
  {
    hide New, Apply, Outcome, Safe, ListsBoth;
    ConvergesTo(config, a, one);
    ConvergesTo(config, b, two);
    OutcomeDetermines(New(config), one.snapshot, Apply(a, one), Apply(b, two));
  }

  // The same snapshot again changes nothing at all, whatever the address and the orders.
  lemma RefreshIsIdempotent(config: seq<Provider>, inner: Inner, one: Discovery, two: Discovery)
    requires UniqueNames(config) && Safe(New(config), inner)
    requires one.snapshot == two.snapshot && ListsBoth(one.orders) && ListsBoth(two.orders)
    ensures Apply(Apply(inner, one), two) == Apply(inner, one)
  {
    hide New, Refresh, ListsBoth, Safe, Refreshed;
    var r := Apply(inner, one);
    SafeIsRooted(New(config), inner);
    RefreshIs(inner, one.snapshot, one.url, one.orders);
    RefreshKeepsSafe(config, inner, one.snapshot, one.url, one.orders);
    SafeIsRooted(New(config), r);
    RefreshIs(r, two.snapshot, two.url, two.orders);
    AgainChangesNothing(inner, one.snapshot, one.url, r, two.url, Apply(r, two));
  }

  lemma SafeIsRooted(n: Inner, inner: Inner)
    requires Safe(n, inner)
    ensures Rooted(inner)
  {
  }

  lemma AgainChangesNothing(inner: Inner, snapshot: Snapshot, url: string, r: Inner, again: string, q: Inner)
    requires Refreshed(inner, snapshot, url, r) && Refreshed(r, snapshot, again, q)
    ensures q == r
  {
    hide Listed;
    SameProviders(inner, snapshot, url, r, again, q);
    assert q.statics == r.statics && q.disabled == r.disabled;
    forall m | m in r.routes
      ensures Sticks(r, snapshot, m)
    {
      StaysLive(inner, snapshot, url, r, r.routes[m]);
    }
    hide ProvidersRefreshed;
    assert q.routes == r.routes;
  }

  lemma StaysLive(inner: Inner, snapshot: Snapshot, url: string, r: Inner, name: string)
    requires ProvidersRefreshed(inner, snapshot, url, r) && name in r.providers
    ensures Live(r, snapshot, name)
  {
  }

  lemma SameProviders(inner: Inner, snapshot: Snapshot, url: string, r: Inner, again: string, q: Inner)
    requires ProvidersRefreshed(inner, snapshot, url, r) && ProvidersRefreshed(r, snapshot, again, q)
    ensures q.providers == r.providers
  {
    forall n
      ensures n in q.providers <==> n in r.providers
      ensures n in r.providers ==> q.providers[n] == r.providers[n]
    {
    }
  }

  // ----- lookup -----

  predicate DistinctNames(found: seq<Provider>) {
    forall i, j :: 0 <= i < j < |found| ==> found[i].name != found[j].name
  }

  // In a safe registry: who is found is present, once, and lists the model unless it is
  // where the model is routed; the names considered so far that list it have been found.
  ghost predicate FoundAmong(inner: Inner, model: string, names: seq<string>, found: seq<Provider>) {
    && DistinctNames(found)
    && Target(inner, model) <= found
    && (forall p :: p in found ==> p.name in inner.providers && inner.providers[p.name] == p)
    && (forall p :: p in found ==> p in Target(inner, model) || model in p.models)
    && (forall n :: n in names && n in inner.providers && model in inner.providers[n].models ==> inner.providers[n] in found)
  }

  lemma FindsOneMore(n: Inner, inner: Inner, model: string, names: seq<string>, found: seq<Provider>, name: string)
    requires Safe(n, inner) && FoundAmong(inner, model, names, found)
    ensures FoundAmong(inner, model, names + [name], Consider(inner, model)(found, name))
  {
    hide Listed, Rooted;
    var after := Consider(inner, model)(found, name);
    assert forall x :: x in names + [name] <==> x in names || x == name;
    if name in inner.providers && model in inner.providers[name].models {
      var p := inner.providers[name];
      if Named(found, p.name) {
        var q :| q in found && q.name == p.name;
        assert q == p && after == found;
      } else {
        assert after == found + [p] && p in after;
        assert forall x :: x in after <==> x in found || x == p;
      }
    }
  }

  // The candidates for a model: its route's provider first, then everyone else who lists
  // it, nobody twice; the order of the rest is the only thing iteration decides.
  lemma {:induction false} CandidatesAre(n: Inner, inner: Inner, model: string, names: seq<string>)
    requires Safe(n, inner)
    ensures FoundAmong(inner, model, names, Fold(Consider(inner, model), Target(inner, model), names))
  {
    assert FoundAmong(inner, model, [], Target(inner, model));
    hide FoundAmong, Safe, Target, Consider;
    if names != [] {
      var before, name := names[..|names| - 1], names[|names| - 1];
      assert names == before + [name];
      CandidatesAre(n, inner, model, before);
      FindsOneMore(n, inner, model, before, Fold(Consider(inner, model), Target(inner, model), before), name);
    }
  }

  lemma RoutedFirst(n: Inner, inner: Inner, model: string, order: Order)
    requires Safe(n, inner) && Lists(order)
    ensures var found := Candidates(inner, model, order);
            && FoundAmong(inner, model, order(inner.providers.Keys), found)
            && (model in inner.routes ==> found != [] && found[0] == inner.providers[inner.routes[model]])
            && (model !in inner.routes ==> found == [])
  {
    CandidatesAre(n, inner, model, order(inner.providers.Keys));
    var found := Candidates(inner, model, order);
    hide Fold;
    assert found == [] || found[0] in found;
    assert forall p :: p in found && model in p.models ==> Listed(inner.providers, model);
    if model in inner.routes {
      assert inner.routes[model] in inner.providers;
    }
  }

  // ----- where history does show -----

  // The models a provider is left with: the snapshot replaces all lists but those that come
  // from the config.
  function ModelsAfter(inner: Inner, snapshot: Snapshot, name: string): seq<string>
    requires name in inner.providers || Adds(inner, snapshot, name)
  {
    if Adds(inner, snapshot, name) && !(name in inner.providers && name in inner.statics) then snapshot[name]
    else inner.providers[name].models
  }

  // Where a refresh leads a model: a surviving route stays; else the first group that holds
  // the model gets it, listed there or not; else some provider that lists it.
  lemma RouteIs(inner: Inner, snapshot: Snapshot, url: string, orders: Orders, m: string)
    requires Rooted(inner) && ListsBoth(orders) && m in Refresh(inner, snapshot, url, orders).routes
    ensures var r, first := Refresh(inner, snapshot, url, orders), FirstGroup(inner, snapshot, orders.groups(snapshot.Keys), m);
            && r.routes[m] in r.providers
            && if Sticks(inner, snapshot, m) then r.routes[m] == inner.routes[m]
               else if first.Some? then r.routes[m] == first.value
               else m in r.providers[r.routes[m]].models
  {
    hide Prune, Fold, RouteListed, DropStale, ProvidersRefreshed, FirstGroup;
    GroupedIs(inner, snapshot, url, orders.groups);
    var g := Fold(AddGroup(snapshot, url), Prune(inner, snapshot), orders.groups(snapshot.Keys));
    FinishIs(g, orders.listed);
  }

  // Whether the provider a model is routed to also lists it.
  predicate Served(inner: Inner, snapshot: Snapshot, names: seq<string>, m: string)
    requires m in inner.routes ==> inner.routes[m] in inner.providers
  {
    var first := FirstGroup(inner, snapshot, names, m);
    if Sticks(inner, snapshot, m) then m in ModelsAfter(inner, snapshot, inner.routes[m])
    else first.Some? ==> m in ModelsAfter(inner, snapshot, first.value)
  }

  // Every route after a refresh leads to a provider that lists the model if and only if the
  // surviving route's target, or else the first group that holds the model, is left with it.
  lemma RouteIsServed(inner: Inner, snapshot: Snapshot, url: string, orders: Orders, m: string)
    requires Rooted(inner) && ListsBoth(orders) && m in Refresh(inner, snapshot, url, orders).routes
    ensures var r := Refresh(inner, snapshot, url, orders);
            && r.routes[m] in r.providers
            && (m in r.providers[r.routes[m]].models <==> Served(inner, snapshot, orders.groups(snapshot.Keys), m))
  {
    hide Refresh, ListsBoth, Listed, FirstGroup, Rooted, RoutesFollow;
    RefreshIs(inner, snapshot, url, orders);
    RouteIs(inner, snapshot, url, orders, m);
  }

  // A fresh route to a provider that does not list the model: a group named like a provider
  // of the config, with a model outside the curated list that somebody else lists.
  lemma FreshRouteMissesListing(inner: Inner, snapshot: Snapshot, url: string, orders: Orders, m: string, other: string)
    requires Rooted(inner) && ListsBoth(orders) && !Sticks(inner, snapshot, m)
    requires var first := FirstGroup(inner, snapshot, orders.groups(snapshot.Keys), m);
             first.Some? && first.value in inner.statics && first.value in inner.providers
             && m !in inner.providers[first.value].models
    requires Adds(inner, snapshot, other) && other !in inner.statics && m in snapshot[other]
    ensures var r := Refresh(inner, snapshot, url, orders);
            m in r.routes && m !in r.providers[r.routes[m]].models
  {
    RefreshIs(inner, snapshot, url, orders);
    var r := Refresh(inner, snapshot, url, orders);
    assert other in r.providers && m in r.providers[other].models;
    assert Listed(r.providers, m);
    hide Refresh, ListsBoth, FirstGroup;
    RouteIsServed(inner, snapshot, url, orders, m);
  }

  // A route outlives its provider's listing the model, as long as somebody lists it.
  lemma RouteOutlivesListing(inner: Inner, snapshot: Snapshot, url: string, orders: Orders, m: string, other: string)
    requires Rooted(inner) && ListsBoth(orders) && m in inner.routes
    requires Adds(inner, snapshot, inner.routes[m]) && inner.routes[m] !in inner.statics
    requires m !in snapshot[inner.routes[m]]
    requires Adds(inner, snapshot, other) && other !in inner.statics && m in snapshot[other]
    ensures var r := Refresh(inner, snapshot, url, orders);
            && m in r.routes && r.routes[m] == inner.routes[m]
            && m !in r.providers[r.routes[m]].models
  {
    RefreshIs(inner, snapshot, url, orders);
    var r := Refresh(inner, snapshot, url, orders);
    hide Refresh, ListsBoth;
    assert other in r.providers && m in r.providers[other].models;
    assert Listed(r.providers, m);
    assert Sticks(inner, snapshot, m);
  }

  // An auto-added provider keeps the endpoint style and address inferred when it first
  // appeared; only its models follow the snapshot.
  lemma StyleIsRemembered(inner: Inner, snapshot: Snapshot, url: string, orders: Orders, name: string)
    requires Rooted(inner) && ListsBoth(orders)
    requires name in inner.providers && Adds(inner, snapshot, name) && name !in inner.statics
    ensures var r := Refresh(inner, snapshot, url, orders);
            name in r.providers && r.providers[name] == inner.providers[name].(models := snapshot[name])
  {
    RefreshIs(inner, snapshot, url, orders);
    hide Refresh, ListsBoth, Listed;
  }

  // The positions of the model names with a slash in them.
  function Slashed(models: seq<string>): set<nat> {
    set i: nat | i < |models| && '/' in models[i]
  }

  lemma {:induction false} SlashedAreCounted(models: seq<string>)
    ensures |Slashed(models)| == CountNamespaced(models)
  {
    if models == [] {
      assert Slashed(models) == {};
    } else {
      var before, i := models[..|models| - 1], |models| - 1;
      SlashedAreCounted(before);
      assert Slashed(models) == Slashed(before) + if '/' in models[i] then {i} else {};
      assert i !in Slashed(before);
    }
  }

  // A provider that a snapshot brings: its group's models, the gateway's address, no key, and
  // the standard paths if and only if more than half of its model names have a slash.
  lemma FreshProviderIs(inner: Inner, snapshot: Snapshot, url: string, orders: Orders, name: string)
    requires Rooted(inner) && ListsBoth(orders)
    requires name in snapshot && name !in inner.providers && name !in inner.disabled
    ensures var r, models := Refresh(inner, snapshot, url, orders), snapshot[name];
            && name in r.providers
            && var style := if 2 * |Slashed(models)| > |models| then OpenaiV1 else OpenaiDirect;
               r.providers[name] == Provider(name, url, None, style, models, true)
  {
    RefreshIs(inner, snapshot, url, orders);
    SlashedAreCounted(snapshot[name]);
    hide Refresh, ListsBoth, Listed, CountNamespaced, Slashed;
  }
}
