/** Route resolution and URL generation (frontend/src/lib/router.tsx). */
module Router {
  import opened Wrappers
  import opened Text
  import opened SeqUtil
  import opened RouteTable

  // ---------------------------------------------------------------------------
  // getRoute
  // ---------------------------------------------------------------------------

  /** A dictionary key that equals `routeName` once both are lower-cased. */
  predicate KeyMatches(entry: (string, Route), routeName: string) {
    ToLower(entry.0) == ToLower(routeName)
  }

  /** The first route, in table order, whose key equals `routeName` ignoring case. */
  function FirstKeyMatch(entries: RouteEntries, routeName: string): (r: Option<Route>)
    ensures r.None? <==> forall j :: 0 <= j < |entries| ==> !KeyMatches(entries[j], routeName)
    ensures r.Some? ==> exists i :: 0 <= i < |entries| && KeyMatches(entries[i], routeName) &&
                          r.value == entries[i].1 &&
                          forall j :: 0 <= j < i ==> !KeyMatches(entries[j], routeName)
  {
    match FirstIndexWhere(entries, (e: (string, Route)) => KeyMatches(e, routeName))
    case None => None
    case Some(i) => Some(entries[i].1)
  }

  /** Property access `dict[key]` on a dictionary whose keys are distinct. */
  function Lookup(entries: RouteEntries, key: string): (r: Option<Route>)
    ensures r.None? <==> forall j :: 0 <= j < |entries| ==> entries[j].0 != key
    ensures r.Some? ==> exists i :: 0 <= i < |entries| && entries[i].0 == key &&
                          r.value == entries[i].1 &&
                          forall j :: 0 <= j < i ==> entries[j].0 != key
  {
    match FirstIndexWhere(entries, (e: (string, Route)) => e.0 == key)
    case None => None
    case Some(i) => Some(entries[i].1)
  }

  /** `getRoute`: looks `routeName` up in the built-in table, ignoring case. */
  method GetRoute(routeName: string) returns (route: Option<Route>)
    ensures route == FirstKeyMatch(DefaultRoutes(), routeName)
  {
    route := GetRouteIn(DefaultRoutes(), routeName);
  }

  /** The body of `getRoute` over a route dictionary: scans it for a key equal to `routeName`
      ignoring case, remembers that key (or keeps the name) and reads the dictionary at it. */
  method GetRouteIn(table: RouteEntries, routeName: string) returns (route: Option<Route>)
    ensures route == FirstKeyMatch(table, routeName)
  {
    var routeKey := routeName;
    var i := 0;
    while i < |table|
      invariant 0 <= i <= |table|
      invariant forall j :: 0 <= j < i ==> !KeyMatches(table[j], routeName)
    {
      if ToLower(table[i].0) == ToLower(routeName) {
        routeKey := table[i].0;
        break;
      }
      i := i + 1;
    }
    route := Lookup(table, routeKey);
    LookupAgreesWithFirstKeyMatch(table, routeName, i);
  }

  /** Reading the table at the first matching key gives the first match, and with no
      matching key reading it at the name itself gives nothing. */
  lemma LookupAgreesWithFirstKeyMatch(table: RouteEntries, routeName: string, i: nat)
    requires i <= |table|
    requires forall j :: 0 <= j < i ==> !KeyMatches(table[j], routeName)
    requires i < |table| ==> KeyMatches(table[i], routeName)
    ensures Lookup(table, if i < |table| then table[i].0 else routeName)
            == FirstKeyMatch(table, routeName)
  {
    var p := (e: (string, Route)) => KeyMatches(e, routeName);
    if i < |table| {
      var q := (e: (string, Route)) => e.0 == table[i].0;
      assert p(table[i]);
      assert q(table[i]);
    } else {
      forall j | 0 <= j < |table| ensures table[j].0 != routeName {
        assert !KeyMatches(table[j], routeName);
      }
    }
  }

  /** `getRoute` ignores case: two names that lower-case alike find the same route. */
  lemma {:induction false} FirstKeyMatchIgnoresCase(entries: RouteEntries, a: string, b: string)
    requires ToLower(a) == ToLower(b)
    ensures FirstKeyMatch(entries, a) == FirstKeyMatch(entries, b)
  {
    var pa := (e: (string, Route)) => KeyMatches(e, a);
    var pb := (e: (string, Route)) => KeyMatches(e, b);
    assert forall e :: pa(e) == pb(e);
    FirstIndexWhereSamePredicate(entries, pa, pb);
  }

  /** "settingsCluster" is a key of the built-in table, so resolving it never fails. */
  lemma SettingsClusterIsBuiltIn(store: Option<RouteEntries>)
    ensures FirstKeyMatch(DefaultRoutes(), "settingsCluster").Some?
    ensures ResolveRoute(store, "settingsCluster").Some?
  {
    var t := DefaultRoutes();
    assert t[97].0 == "settingsCluster";
    assert KeyMatches(t[97], "settingsCluster");
  }

  // ---------------------------------------------------------------------------
  // getRouteUseClusterURL and getRoutePath
  // ---------------------------------------------------------------------------

  /** `getRouteUseClusterURL` as written: with `useClusterURL` unset, a set `noCluster`
      is returned as it is, so `noCluster: true` asks for a cluster URL. */
  function GetRouteUseClusterURLAsWritten(route: Route): (r: bool)
    ensures route.useClusterURL.Some? ==> r == route.useClusterURL.value
    ensures route.useClusterURL.None? && route.noCluster.Some? ==> r == route.noCluster.value
    ensures route.useClusterURL.None? && route.noCluster.None? ==> r
  {
    if route.useClusterURL.None? && route.noCluster.Some? then route.noCluster.value
    else if route.useClusterURL.None? then true
    else route.useClusterURL.value
  }

  /** Whether a route uses a cluster URL, with the deprecated `noCluster` read as its
      documentation says: a route that does not need a cluster prefix. */
  function GetRouteUseClusterURL(route: Route): (r: bool)
    ensures route.useClusterURL.Some? ==> r == route.useClusterURL.value
    ensures route.useClusterURL.None? && route.noCluster.Some? ==> r == !route.noCluster.value
    ensures route.useClusterURL.None? && route.noCluster.None? ==> r
  {
    if route.useClusterURL.None? && route.noCluster.Some? then !route.noCluster.value
    else if route.useClusterURL.None? then true
    else route.useClusterURL.value
  }

  /** Whether reading the route's cluster-URL setting prints the `noCluster` deprecation warning. */
  predicate WarnsNoClusterDeprecated(route: Route) {
    route.useClusterURL.None? && route.noCluster.Some?
  }

  /** Which reading of the deprecated `noCluster` a computation follows: the program's own
      (`AsWritten`, the flag returned unchanged) or the documented one (`Intended`). */
  datatype Reading = AsWritten | Intended

  /** The cluster-URL decision under a reading. */
  function UsesClusterURL(reading: Reading, route: Route): (r: bool)
    ensures reading == AsWritten ==> r == GetRouteUseClusterURLAsWritten(route)
    ensures reading == Intended ==> r == GetRouteUseClusterURL(route)
  {
    match reading
    case AsWritten => GetRouteUseClusterURLAsWritten(route)
    case Intended => GetRouteUseClusterURL(route)
  }

  /** The two readings differ exactly on routes that only set `noCluster`. */
  lemma UseClusterURLReadingsDifferOnlyOnNoCluster(route: Route)
    ensures GetRouteUseClusterURLAsWritten(route) != GetRouteUseClusterURL(route)
            <==> WarnsNoClusterDeprecated(route)
  {
  }

  /** The built-in table never sets `noCluster`: for every built-in route both readings agree
      and no deprecation warning is printed. */
  lemma BuiltInRoutesAgreeOnUseClusterURL(i: nat)
    requires i < |DefaultRoutes()|
    ensures !WarnsNoClusterDeprecated(DefaultRoutes()[i].1)
    ensures GetRouteUseClusterURLAsWritten(DefaultRoutes()[i].1)
            == GetRouteUseClusterURL(DefaultRoutes()[i].1)
  {
    assert DefaultRoutes()[i].1 == DefaultRouteEntries[i].ToRoute();
  }

  /** A route that declares `noCluster: true` (and no `useClusterURL`) gets a cluster-prefixed
      path as written, although it is documented as not needing one. */
  lemma NoClusterTrueGetsClusterURLAsWritten(prefix: string -> string)
    ensures var route := Route(path := "/x", noCluster := Some(true), sidebar := NoSidebar);
      GetRouteUseClusterURLAsWritten(route) && !GetRouteUseClusterURL(route) &&
      GetRoutePath(route, prefix, AsWritten) == prefix("/x") &&
      GetRoutePath(route, prefix, Intended) == "/x"
  {
  }

  /** `getRoutePath`: the catch-all route and routes without a cluster URL keep their path;
      every other path goes through `getClusterPrefixedPath` (`prefix`). The program is the
      `AsWritten` reading. */
  function GetRoutePath(route: Route, prefix: string -> string, reading: Reading): (r: string)
    ensures route.path == NotFoundPath ==> r == route.path
    ensures !UsesClusterURL(reading, route) ==> r == route.path
    ensures route.path != NotFoundPath && UsesClusterURL(reading, route) ==> r == prefix(route.path)
  {
    if route.path == NotFoundRoute.path then route.path
    else if !UsesClusterURL(reading, route) then route.path
    else prefix(route.path)
  }

  /** A route that does not set `noCluster` alone gets the same path under both readings. */
  lemma GetRoutePathReadingsAgree(route: Route, prefix: string -> string)
    requires !WarnsNoClusterDeprecated(route)
    ensures GetRoutePath(route, prefix, AsWritten) == GetRoutePath(route, prefix, Intended)
  {
    UseClusterURLReadingsDifferOnlyOnNoCluster(route);
  }

  // ---------------------------------------------------------------------------
  // createRouteURL
  // ---------------------------------------------------------------------------

  /** A stored route whose `name` equals `routeName` ignoring case (an unnamed route never matches). */
  predicate NameMatches(entry: (string, Route), routeName: string) {
    entry.1.name.Some? && ToLower(entry.1.name.value) == ToLower(routeName)
  }

  /** The first stored route, in entry order, whose `name` matches. */
  function StoredByName(store: Option<RouteEntries>, routeName: string): (r: Option<Route>)
    ensures r.Some? ==> (store.Some? &&
      exists i :: 0 <= i < |store.value| && NameMatches(store.value[i], routeName) &&
                  r.value == store.value[i].1 &&
                  forall j :: 0 <= j < i ==> !NameMatches(store.value[j], routeName))
    ensures r.None? <==> (store.None? ||
      forall j :: 0 <= j < |store.value| ==> !NameMatches(store.value[j], routeName))
  {
    match store
    case None => None
    case Some(entries) =>
      match Find(entries, (e: (string, Route)) => NameMatches(e, routeName))
      case None => None
      case Some(e) => Some(e.1)
  }

  function StoredByKey(store: Option<RouteEntries>, routeName: string): (r: Option<Route>)
    ensures store.None? ==> r.None?
    ensures store.Some? ==> r == FirstKeyMatch(store.value, routeName)
  {
    match store
    case None => None
    case Some(entries) => FirstKeyMatch(entries, routeName)
  }

  /** The route `createRouteURL` uses: a stored route found by name, else a stored route found
      by key, else the built-in route found by `getRoute`. */
  function ResolveRoute(store: Option<RouteEntries>, routeName: string): (r: Option<Route>) {
    var byName := StoredByName(store, routeName);
    var byKey := StoredByKey(store, routeName);
    if byName.Some? then byName
    else if byKey.Some? then byKey
    else FirstKeyMatch(DefaultRoutes(), routeName)
  }

  /** The deprecation warning: found by key but not by name. */
  predicate DeprecationWarned(store: Option<RouteEntries>, routeName: string) {
    StoredByKey(store, routeName).Some? && StoredByName(store, routeName).None?
  }

  /** `params.cluster`: absent is `undefined`. */
  function ClusterParam(params: map<string, string>): (r: Option<string>)
    ensures r.Some? <==> "cluster" in params
  {
    if "cluster" in params then Some(params["cluster"]) else None
  }

  /** `{ selected: undefined, ...params }`: every parameter as given, `selected` undefined
      unless the caller gave it. */
  function SpreadParams(params: map<string, string>): (r: map<string, Option<string>>)
    ensures forall k :: k in params ==> k in r && r[k] == Some(params[k])
    ensures r.Keys == params.Keys + {"selected"}
    ensures "selected" !in params ==> r["selected"] == None
  {
    (map k | k in params :: Some(params[k])) + (if "selected" in params then map[] else map["selected" := None])
  }

  /** The value of `fullParams.cluster`. */
  function FullParamsCluster(fullParams: map<string, Option<string>>): (r: Option<string>) {
    if "cluster" in fullParams then fullParams["cluster"] else None
  }

  /** The cluster `createRouteURL` settles on: the `cluster` parameter when truthy, else the
      current cluster when the route uses a cluster URL, else the (falsy) parameter. */
  function ResolvedCluster(route: Route, params: map<string, string>, current: Option<string>,
                           reading: Reading): (r: Option<string>)
  {
    if !Truthy(ClusterParam(params)) && UsesClusterURL(reading, route) then current
    else ClusterParam(params)
  }

  /** The parameters handed to `generatePath`. */
  function FullParams(params: map<string, string>, cluster: Option<string>): (r: map<string, Option<string>>) {
    var spread := SpreadParams(params);
    if !Truthy(FullParamsCluster(spread)) && Truthy(cluster) then spread["cluster" := cluster]
    else spread
  }

  const SettingsClusterRedirect := "/settings/cluster?c="

  /** What `createRouteURL` returns, with `current` the result of `getClusterPathParam()`;
      the program is the `AsWritten` reading. */
  function RouteURL(routeName: string, params: map<string, string>, store: Option<RouteEntries>,
                    current: Option<string>, prefix: string -> string,
                    generatePath: (string, map<string, Option<string>>) -> string,
                    reading: Reading): (url: string)
  {
    match ResolveRoute(store, routeName)
    case None => ""
    case Some(route) =>
      var cluster := ResolvedCluster(route, params, current, reading);
      if !Truthy(ClusterParam(params)) && UsesClusterURL(reading, route) && !Truthy(cluster) then "/"
      else
        var fullParams := FullParams(params, cluster);
        if routeName == "settingsCluster" then SettingsClusterRedirect + Interpolate(FullParamsCluster(fullParams))
        else generatePath(GetRoutePath(route, prefix, reading), fullParams)
  }

  /** `createRouteURL`. `store` holds the routes registered in the application store,
      `current` is `getClusterPathParam()`, `prefix` is `getClusterPrefixedPath` and
      `generatePath` is react-router's; `warned` says whether the deprecation warning is printed.
      With `reading == AsWritten` this is the program. */
  method CreateRouteURL(routeName: string, params: map<string, string>, store: Option<RouteEntries>,
                        current: Option<string>, prefix: string -> string,
                        generatePath: (string, map<string, Option<string>>) -> string,
                        reading: Reading)
    returns (url: string, warned: bool)
    ensures warned == DeprecationWarned(store, routeName)
    ensures url == RouteURL(routeName, params, store, current, prefix, generatePath, reading)
  {
    var byName := StoredByName(store, routeName);
    var byKey := StoredByKey(store, routeName);
    warned := byKey.Some? && byName.None?;

    var route: Option<Route>;
    if byName.Some? {
      route := byName;
    } else if byKey.Some? {
      route := byKey;
    } else {
      route := GetRoute(routeName);
    }
    if route.None? {
      return "", warned;
    }

    var cluster := ClusterParam(params);
    if !Truthy(cluster) && UsesClusterURL(reading, route.value) {
      cluster := current;
      if !Truthy(cluster) {
        return "/", warned;
      }
    }
    var fullParams := SpreadParams(params);
    if !Truthy(FullParamsCluster(fullParams)) && Truthy(cluster) {
      fullParams := fullParams["cluster" := cluster];
    }

    if routeName == "settingsCluster" {
      return SettingsClusterRedirect + Interpolate(FullParamsCluster(fullParams)), warned;
    }
    var path := GetRoutePath(route.value, prefix, reading);
    url := generatePath(path, fullParams);
  }

  // ---------------------------------------------------------------------------
  // Properties of createRouteURL
  // ---------------------------------------------------------------------------

  /** Lookup precedence: a stored match by name wins over one by key, which wins over the
      built-in table; nothing found anywhere resolves to nothing. */
  lemma ResolvePrecedence(store: Option<RouteEntries>, routeName: string)
    ensures StoredByName(store, routeName).Some? ==>
      ResolveRoute(store, routeName) == StoredByName(store, routeName)
    ensures StoredByName(store, routeName).None? && StoredByKey(store, routeName).Some? ==>
      ResolveRoute(store, routeName) == StoredByKey(store, routeName)
    ensures StoredByName(store, routeName).None? && StoredByKey(store, routeName).None? ==>
      ResolveRoute(store, routeName) == FirstKeyMatch(DefaultRoutes(), routeName)
    ensures ResolveRoute(store, routeName).None? <==>
      StoredByName(store, routeName).None? && StoredByKey(store, routeName).None? &&
      forall j :: 0 <= j < |DefaultRoutes()| ==> !KeyMatches(DefaultRoutes()[j], routeName)
  {
  }

  /** Route resolution ignores case (the `settingsCluster` redirect below does not). */
  lemma {:induction false} ResolveRouteIgnoresCase(store: Option<RouteEntries>, a: string, b: string)
    requires ToLower(a) == ToLower(b)
    ensures ResolveRoute(store, a) == ResolveRoute(store, b)
    ensures DeprecationWarned(store, a) == DeprecationWarned(store, b)
  {
    FirstKeyMatchIgnoresCase(DefaultRoutes(), a, b);
    if store.Some? {
      FirstKeyMatchIgnoresCase(store.value, a, b);
      var pa := (e: (string, Route)) => NameMatches(e, a);
      var pb := (e: (string, Route)) => NameMatches(e, b);
      assert forall e :: pa(e) == pb(e);
      FirstIndexWhereSamePredicate(store.value, pa, pb);
    }
  }

  /** No route found anywhere: the URL is empty. */
  lemma UnknownRouteGivesEmptyURL(routeName: string, params: map<string, string>,
                                  store: Option<RouteEntries>, current: Option<string>,
                                  prefix: string -> string,
                                  generatePath: (string, map<string, Option<string>>) -> string,
                                  reading: Reading)
    requires ResolveRoute(store, routeName).None?
    ensures RouteURL(routeName, params, store, current, prefix, generatePath, reading) == ""
  {
  }

  /** A route that uses a cluster URL, asked for without a truthy cluster parameter while no
      cluster is selected: the URL is the root. */
  lemma NoClusterGivesRoot(routeName: string, params: map<string, string>,
                           store: Option<RouteEntries>, current: Option<string>,
                           prefix: string -> string,
                           generatePath: (string, map<string, Option<string>>) -> string,
                           reading: Reading)
    requires ResolveRoute(store, routeName).Some?
    requires UsesClusterURL(reading, ResolveRoute(store, routeName).value)
    requires !Truthy(ClusterParam(params)) && !Truthy(current)
    ensures RouteURL(routeName, params, store, current, prefix, generatePath, reading) == "/"
  {
  }

  /** The parameters passed on keep every caller parameter, except that a falsy `cluster`
      is replaced by the resolved cluster when that one is truthy; a truthy `cluster`
      parameter is never overwritten. */
  lemma ClusterParamFilledOnlyWhenFalsy(route: Route, params: map<string, string>, current: Option<string>,
                                        reading: Reading)
    ensures var full := FullParams(params, ResolvedCluster(route, params, current, reading));
      && (forall k :: k in params && k != "cluster" ==> k in full && full[k] == Some(params[k]))
      && (Truthy(ClusterParam(params)) ==> FullParamsCluster(full) == ClusterParam(params))
      && (!Truthy(ClusterParam(params)) && UsesClusterURL(reading, route) && Truthy(current) ==>
            FullParamsCluster(full) == current)
      && (!UsesClusterURL(reading, route) ==> FullParamsCluster(full) == ClusterParam(params))
  {
  }

  /** With a non-empty cluster parameter, `settingsCluster` always redirects to the cluster
      settings page of that cluster, whatever routes the store holds. */
  lemma SettingsClusterRedirects(cluster: string, params: map<string, string>,
                                 store: Option<RouteEntries>, current: Option<string>,
                                 prefix: string -> string,
                                 generatePath: (string, map<string, Option<string>>) -> string,
                                 reading: Reading)
    requires cluster != ""
    requires "cluster" in params && params["cluster"] == cluster
    ensures RouteURL("settingsCluster", params, store, current, prefix, generatePath, reading)
            == "/settings/cluster?c=" + cluster
  {
    SettingsClusterIsBuiltIn(store);
  }

  /** The redirect is keyed on the exact spelling: another spelling resolves to the same
      route but has its URL built by `generatePath`. */
  lemma SettingsClusterRedirectIsCaseSensitive(params: map<string, string>, current: Option<string>,
                                               prefix: string -> string,
                                               generatePath: (string, map<string, Option<string>>) -> string,
                                               reading: Reading)
    requires "cluster" in params && params["cluster"] != ""
    ensures ResolveRoute(None, "settingscluster") == ResolveRoute(None, "settingsCluster")
    ensures ResolveRoute(None, "settingscluster").Some?
    ensures RouteURL("settingscluster", params, None, current, prefix, generatePath, reading)
            == generatePath(GetRoutePath(ResolveRoute(None, "settingscluster").value, prefix, reading),
                            FullParams(params, ClusterParam(params)))
  {
    ResolveRouteIgnoresCase(None, "settingscluster", "settingsCluster");
    SettingsClusterIsBuiltIn(None);
  }

  // ---------------------------------------------------------------------------
  // The two readings of `noCluster` in createRouteURL
  // ---------------------------------------------------------------------------

  /** Unless the resolved route sets `noCluster` alone, both readings build the same URL. */
  lemma RouteURLReadingsAgree(routeName: string, params: map<string, string>,
                              store: Option<RouteEntries>, current: Option<string>,
                              prefix: string -> string,
                              generatePath: (string, map<string, Option<string>>) -> string)
    requires ResolveRoute(store, routeName).Some? ==> !WarnsNoClusterDeprecated(ResolveRoute(store, routeName).value)
    ensures RouteURL(routeName, params, store, current, prefix, generatePath, AsWritten)
            == RouteURL(routeName, params, store, current, prefix, generatePath, Intended)
  {
    if ResolveRoute(store, routeName).Some? {
      var route := ResolveRoute(store, routeName).value;
      UseClusterURLReadingsDifferOnlyOnNoCluster(route);
      assert UsesClusterURL(AsWritten, route) == UsesClusterURL(Intended, route);
      GetRoutePathReadingsAgree(route, prefix);
    }
  }

  /** Without stored routes every name resolves to a built-in route or to nothing, so the
      program and the documented reading build the same URL. */
  lemma BuiltInRouteURLsAgree(routeName: string, params: map<string, string>, current: Option<string>,
                              prefix: string -> string,
                              generatePath: (string, map<string, Option<string>>) -> string)
    ensures RouteURL(routeName, params, None, current, prefix, generatePath, AsWritten)
            == RouteURL(routeName, params, None, current, prefix, generatePath, Intended)
  {
    var r := FirstKeyMatch(DefaultRoutes(), routeName);
    if r.Some? {
      var i :| 0 <= i < |DefaultRoutes()| && KeyMatches(DefaultRoutes()[i], routeName) &&
               r.value == DefaultRoutes()[i].1 &&
               forall j :: 0 <= j < i ==> !KeyMatches(DefaultRoutes()[j], routeName);
      BuiltInRoutesAgreeOnUseClusterURL(i);
    }
    RouteURLReadingsAgree(routeName, params, None, current, prefix, generatePath);
  }

  /** A stored route that declares only `noCluster: true`, asked for by its key without a
      cluster while none is selected: the program returns the root, the documented reading
      builds the route's bare path. */
  lemma NoClusterTrueRouteURLAsWritten(prefix: string -> string,
                                       generatePath: (string, map<string, Option<string>>) -> string)
    ensures var store := Some([("/x", Route(path := "/x", noCluster := Some(true), sidebar := NoSidebar))]);
      && RouteURL("/x", map[], store, None, prefix, generatePath, AsWritten) == "/"
      && RouteURL("/x", map[], store, None, prefix, generatePath, Intended)
         == generatePath("/x", map["selected" := None])
  {
    var route := Route(path := "/x", noCluster := Some(true), sidebar := NoSidebar);
    var store := Some([("/x", route)]);
    assert !NameMatches(store.value[0], "/x");
    assert KeyMatches(store.value[0], "/x");
    assert ResolveRoute(store, "/x") == Some(route);
    assert SpreadParams(map[]) == map["selected" := None];
  }
}
