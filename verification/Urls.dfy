// URL reconciliation: pkg/url/url.go and the URL phase of pkg/component/component.go ApplyConfig. A
// URL is a route that carries its name as a label.

module Urls {
  import opened Lists
  import opened Names
  import opened Objects
  import opened Results
  import Strings

  datatype Route = Route(name: string, labels: Labels, service: string, port: int)

  /** A URL as the config or the cluster lists it. */
  datatype Url = Url(name: string, port: int)

  function RouteName(r: Route): string {
    r.name
  }

  function UrlLabel(r: Route): string {
    if UrlName in r.labels then r.labels[UrlName] else ""
  }

  function ToUrl(r: Route): Url {
    Url(UrlLabel(r), r.port)
  }

  function UrlLabels(url: string, component: string, application: string): Labels {
    ComponentLabels(component, application, false)[UrlName := url]
  }

  /** Whether a listing for the component includes the route; no component name lists the application. */
  predicate Mine(r: Route, component: string, application: string) {
    && ApplicationName in r.labels && r.labels[ApplicationName] == application
    && (component == "" || (ComponentName in r.labels && r.labels[ComponentName] == component))
  }

  function NotMine(component: string, application: string): Route -> bool {
    (r: Route) => !Mine(r, component, application)
  }

  function IsMine(component: string, application: string): Route -> bool {
    (r: Route) => Mine(r, component, application)
  }

  function MyRoutes(routes: seq<Route>, component: string, application: string): seq<Route> {
    Without(routes, NotMine(component, application))
  }

  function ListUrls(routes: seq<Route>, component: string, application: string): seq<Url> {
    Map(ToUrl, MyRoutes(routes, component, application))
  }

  function NamesOf(urls: seq<Url>): set<string> {
    set u | u in urls :: u.name
  }

  // ------------------------------------------------------------ single operations

  function CreateUrl(routes: seq<Route>, url: Url, component: string, application: string): Result<seq<Route>> {
    var service :- NamespaceOpenShiftObject(component, application);
    var name :- NamespaceOpenShiftObject(url.name, application);
    if name in Map(RouteName, routes) then Err(Refused("error creating route"))
    else Ok(routes + [Route(name, UrlLabels(url.name, component, application), service, url.port)])
  }

  function NamedRoute(name: string): Route -> bool {
    (r: Route) => r.name == name
  }

  function DeleteUrl(routes: seq<Route>, url: string, application: string): Result<seq<Route>> {
    var name :- NamespaceOpenShiftObject(url, application);
    if name in Map(RouteName, routes) then Ok(Without(routes, NamedRoute(name)))
    else Err(Refused("unable to delete route"))
  }

  // ------------------------------------------------------------ the URL phase

  /** ApplyConfigCreateURL. */
  function CreateUrls(routes: seq<Route>, config: seq<Url>, component: string, application: string): Result<seq<Route>>
    decreases config
  {
    if config == [] then Ok(routes)
    else if config[0].name in NamesOf(ListUrls(routes, component, application)) then
      CreateUrls(routes, config[1..], component, application)
    else
      var next :- CreateUrl(routes, config[0], component, application);
      CreateUrls(next, config[1..], component, application)
  }

  /** applyConfigDeleteURL over the URLs as they were listed. */
  function DeleteUrls(routes: seq<Route>, listed: seq<Url>, config: set<string>,
                      application: string): Result<seq<Route>>
    decreases listed
  {
    if listed == [] then Ok(routes)
    else if listed[0].name in config then DeleteUrls(routes, listed[1..], config, application)
    else
      var next :- DeleteUrl(routes, listed[0].name, application);
      DeleteUrls(next, listed[1..], config, application)
  }

  /** checkIfURLChangesWillBeMade. */
  function ChangesWillBeMade(routes: seq<Route>, config: seq<Url>, component: string, application: string): bool {
    |config| > 0 || (|config| == 0 && |ListUrls(routes, component, application)| > 0)
  }

  function CreateThenDelete(routes: seq<Route>, config: seq<Url>, component: string,
                            application: string): Result<seq<Route>> {
    var created :- CreateUrls(routes, config, component, application);
    DeleteUrls(created, ListUrls(created, component, application), NamesOf(config), application)
  }

  function ApplyUrls(routes: seq<Route>, config: seq<Url>, component: string, application: string): Result<seq<Route>> {
    if ChangesWillBeMade(routes, config, component, application)
    then CreateThenDelete(routes, config, component, application)
    else Ok(routes)
  }

  class RouteClient {
    var routes: seq<Route>

    constructor ()
      ensures routes == []
    {
      routes := [];
    }

    method List(component: string, application: string) returns (urls: seq<Url>)
      ensures urls == ListUrls(routes, component, application)
    {
      var found := MyRoutes(routes, component, application);
      urls := [];
      for i := 0 to |found|
        invariant urls == Map(ToUrl, found)[..i]
      {
        urls := urls + [ToUrl(found[i])];
      }
    }

    method Exists(url: string, component: string, application: string) returns (exist: bool)
      ensures exist <==> url in NamesOf(ListUrls(routes, component, application))
    {
      var urls := List(component, application);
      exist := PresentIn(urls, url);
    }

    /** checkIfUrlPresentInConfig, and the search loop of Exists. */
    static method PresentIn(urls: seq<Url>, name: string) returns (present: bool)
      ensures present <==> name in NamesOf(urls)
    {
      for i := 0 to |urls|
        invariant name !in NamesOf(urls[..i])
      {
        assert urls[..i + 1] == urls[..i] + [urls[i]];
        if urls[i].name == name {
          assert urls[i] in urls;
          return true;
        }
      }
      assert urls[..|urls|] == urls;
      return false;
    }

    method Create(url: Url, component: string, application: string) returns (r: Result<()>)
      modifies this
      ensures match CreateUrl(old(routes), url, component, application)
              case Ok(next) => r.Ok? && routes == next
              case Err(f) => r == Err(f) && routes == old(routes)
    {
      var service :- NamespaceOpenShiftObject(component, application);
      var name :- NamespaceOpenShiftObject(url.name, application);
      if name in Map(RouteName, routes) {
        return Err(Refused("error creating route"));
      }
      routes := routes + [Route(name, UrlLabels(url.name, component, application), service, url.port)];
      r := Ok(());
    }

    method Delete(url: string, application: string) returns (r: Result<()>)
      modifies this
      ensures match DeleteUrl(old(routes), url, application)
              case Ok(next) => r.Ok? && routes == next
              case Err(f) => r == Err(f) && routes == old(routes)
    {
      var name :- NamespaceOpenShiftObject(url, application);
      if name !in Map(RouteName, routes) {
        return Err(Refused("unable to delete route"));
      }
      routes := Without(routes, NamedRoute(name));
      r := Ok(());
    }

    method ApplyConfigCreateURL(config: seq<Url>, component: string, application: string) returns (r: Result<()>)
      modifies this
      ensures match CreateUrls(old(routes), config, component, application)
              case Ok(next) => r.Ok? && routes == next
              case Err(f) => r == Err(f)
    {
      for i := 0 to |config|
        invariant CreateUrls(old(routes), config, component, application)
             == CreateUrls(routes, config[i..], component, application)
      {
        assert config[i..][1..] == config[i + 1..];
        var exist := Exists(config[i].name, component, application);
        if !exist {
          var _ :- Create(config[i], component, application);
        }
      }
      r := Ok(());
    }

    method ApplyConfigDeleteURL(config: seq<Url>, component: string, application: string) returns (r: Result<()>)
      modifies this
      ensures match DeleteUrls(old(routes), ListUrls(old(routes), component, application), NamesOf(config), application)
              case Ok(next) => r.Ok? && routes == next
              case Err(f) => r == Err(f)
    {
      var listed := List(component, application);
      for i := 0 to |listed|
        invariant DeleteUrls(old(routes), listed, NamesOf(config), application)
             == DeleteUrls(routes, listed[i..], NamesOf(config), application)
      {
        assert listed[i..][1..] == listed[i + 1..];
        var present := PresentIn(config, listed[i].name);
        if !present {
          var _ :- Delete(listed[i].name, application);
        }
      }
      r := Ok(());
    }

    method ApplyConfig(config: seq<Url>, component: string, application: string) returns (r: Result<()>)
      modifies this
      ensures match ApplyUrls(old(routes), config, component, application)
              case Ok(next) => r.Ok? && routes == next
              case Err(f) => r == Err(f)
    {
      var listed := List(component, application);
      if |config| > 0 || (|config| == 0 && |listed| > 0) {
        var _ :- ApplyConfigCreateURL(config, component, application);
        var _ :- ApplyConfigDeleteURL(config, component, application);
      }
      r := Ok(());
    }
  }

  // ------------------------------------------------------------ what the phase achieves

  /** Route names are unique, and the component's routes are named after their labels. */
  ghost predicate RoutesOk(routes: seq<Route>, component: string, application: string) {
    && Distinct(Map(RouteName, routes))
    && forall r :: r in routes && Mine(r, component, application) ==>
         UrlName in r.labels && NamespaceOpenShiftObject(UrlLabel(r), application) == Ok(r.name)
  }

  lemma SameNameSameRoute(routes: seq<Route>, r: Route, q: Route)
    requires Distinct(Map(RouteName, routes)) && r in routes && q in routes && r.name == q.name
    ensures r == q
  {
    var i :| 0 <= i < |routes| && routes[i] == r;
    var j :| 0 <= j < |routes| && routes[j] == q;
    assert Map(RouteName, routes)[i] == Map(RouteName, routes)[j];
  }

  lemma ListedIff(routes: seq<Route>, component: string, application: string, name: string)
    ensures name in NamesOf(ListUrls(routes, component, application))
            <==> exists r :: r in routes && Mine(r, component, application) && UrlLabel(r) == name
  {
    var mine := MyRoutes(routes, component, application);
    WithoutMembers(routes, NotMine(component, application));
    if r :| r in routes && Mine(r, component, application) && UrlLabel(r) == name {
      var i :| 0 <= i < |mine| && mine[i] == r;
      assert ListUrls(routes, component, application)[i] == ToUrl(r);
    }
    if name in NamesOf(ListUrls(routes, component, application)) {
      var u :| u in ListUrls(routes, component, application) && u.name == name;
      var i :| 0 <= i < |mine| && ToUrl(mine[i]) == u;
      assert mine[i] in mine;
    }
  }

  /** A route of the component for one of these URLs, as the config asks for it. */
  ghost predicate AsConfigured(r: Route, config: seq<Url>, component: string, application: string) {
    && Mine(r, component, application) && UrlName in r.labels
    && NamespaceOpenShiftObject(UrlLabel(r), application) == Ok(r.name)
    && ToUrl(r) in config
  }

  lemma CreatedIsConfigured(routes: seq<Route>, config: seq<Url>, u: Url, component: string, application: string)
    requires CreateUrl(routes, u, component, application).Ok? && u in config
    ensures var next := CreateUrl(routes, u, component, application).value;
            |next| == |routes| + 1 && next[..|routes|] == routes &&
            AsConfigured(next[|routes|], config, component, application) && UrlLabel(next[|routes|]) == u.name &&
            (Distinct(Map(RouteName, routes)) ==> Distinct(Map(RouteName, next)))
  {
    var next := CreateUrl(routes, u, component, application).value;
    assert Map(RouteName, next) == Map(RouteName, routes) + [next[|routes|].name];
  }

  /** The creation phase only appends, what it appends is as configured, and every configured URL is
      there afterwards. */
  lemma {:induction false} CreateUrlsAppends(routes: seq<Route>, config: seq<Url>, todo: seq<Url>, component: string,
                                             application: string)
    requires CreateUrls(routes, todo, component, application).Ok? && forall u :: u in todo ==> u in config
    requires Distinct(Map(RouteName, routes))
    ensures var after := CreateUrls(routes, todo, component, application).value;
            |routes| <= |after| && after[..|routes|] == routes && Distinct(Map(RouteName, after)) &&
            forall k :: |routes| <= k < |after| ==> AsConfigured(after[k], config, component, application)
    decreases todo
  {
    if todo != [] {
      assert todo == [todo[0]] + todo[1..];
      if todo[0].name in NamesOf(ListUrls(routes, component, application)) {
        CreateUrlsAppends(routes, config, todo[1..], component, application);
      } else {
        CreatedIsConfigured(routes, config, todo[0], component, application);
        var next := CreateUrl(routes, todo[0], component, application).value;
        CreateUrlsAppends(next, config, todo[1..], component, application);
        var after := CreateUrls(routes, todo, component, application).value;
        assert after[..|routes|] == after[..|next|][..|routes|];
        assert after[|routes|] == after[..|next|][|routes|];
      }
    }
  }

  ghost predicate HasUrl(routes: seq<Route>, component: string, application: string, name: string) {
    exists r :: r in routes && Mine(r, component, application) && UrlLabel(r) == name
  }

  lemma {:induction false} CreateUrlsCovers(routes: seq<Route>, todo: seq<Url>, component: string, application: string)
    requires CreateUrls(routes, todo, component, application).Ok?
    ensures forall name :: HasUrl(routes, component, application, name) ==>
              HasUrl(CreateUrls(routes, todo, component, application).value, component, application, name)
    ensures forall u :: u in todo ==>
              HasUrl(CreateUrls(routes, todo, component, application).value, component, application, u.name)
    decreases todo
  {
    if todo != [] {
      assert todo == [todo[0]] + todo[1..];
      ListedIff(routes, component, application, todo[0].name);
      if todo[0].name in NamesOf(ListUrls(routes, component, application)) {
        assert HasUrl(routes, component, application, todo[0].name);
        CreateUrlsCovers(routes, todo[1..], component, application);
      } else {
        CreatedIsConfigured(routes, todo, todo[0], component, application);
        var next := CreateUrl(routes, todo[0], component, application).value;
        assert next == routes + [next[|routes|]];
        assert HasUrl(next, component, application, todo[0].name);
        forall name | HasUrl(routes, component, application, name) ensures HasUrl(next, component, application, name) {
          var r :| r in routes && Mine(r, component, application) && UrlLabel(r) == name;
          assert r in next;
        }
        CreateUrlsCovers(next, todo[1..], component, application);
      }
    }
  }

  /** A route of the component that the config no longer has. */
  function Unwanted(config: set<string>, component: string, application: string): Route -> bool {
    (r: Route) => Mine(r, component, application) && UrlLabel(r) !in config
  }

  /** One of these routes, and not wanted. */
  function UnwantedIn(listed: seq<Route>, config: set<string>): Route -> bool {
    (r: Route) => r in listed && UrlLabel(r) !in config
  }

  /** Deleting the listed URLs that the config lacks never fails and removes exactly their routes. */
  lemma {:induction false} DeleteUrlsFilters(routes: seq<Route>, listed: seq<Route>, config: set<string>,
                                             component: string, application: string)
    requires RoutesOk(routes, component, application) && Distinct(Map(RouteName, listed))
    requires forall r :: r in listed ==> r in routes && Mine(r, component, application)
    ensures DeleteUrls(routes, Map(ToUrl, listed), config, application)
         == Ok(Without(routes, UnwantedIn(listed, config)))
    decreases listed
  {
    if listed == [] {
      WithoutNothing(routes, UnwantedIn(listed, config));
    } else {
      var r, rest := listed[0], listed[1..];
      assert listed == [r] + rest && Map(ToUrl, listed)[1..] == Map(ToUrl, rest) && Map(ToUrl, listed)[0] == ToUrl(r);
      assert Map(RouteName, listed)[1..] == Map(RouteName, rest);
      if UrlLabel(r) in config {
        DeleteUrlsFilters(routes, rest, config, component, application);
        WithoutAgree(routes, UnwantedIn(rest, config), UnwantedIn(listed, config));
      } else {
        DeleteOneRoute(routes, listed, config, component, application);
        DeleteUrlsFilters(Without(routes, NamedRoute(r.name)), rest, config, component, application);
        DropTwo(routes, listed, config);
      }
    }
  }

  lemma DeleteOneRoute(routes: seq<Route>, listed: seq<Route>, config: set<string>, component: string,
                       application: string)
    requires RoutesOk(routes, component, application) && Distinct(Map(RouteName, listed)) && listed != []
    requires forall r :: r in listed ==> r in routes && Mine(r, component, application)
    ensures DeleteUrl(routes, UrlLabel(listed[0]), application) == Ok(Without(routes, NamedRoute(listed[0].name)))
    ensures var left := Without(routes, NamedRoute(listed[0].name));
            RoutesOk(left, component, application) && forall r :: r in listed[1..] ==> r in left
  {
    var r := listed[0];
    assert r in listed;
    var i :| 0 <= i < |routes| && routes[i] == r;
    assert Map(RouteName, routes)[i] == r.name;
    WithoutMembers(routes, NamedRoute(r.name));
    WithoutDistinct(RouteName, routes, NamedRoute(r.name));
    forall q | q in listed[1..] ensures q.name != r.name && q in routes {
      var k :| 0 <= k < |listed[1..]| && listed[1..][k] == q;
      assert Map(RouteName, listed)[k + 1] == q.name;
      assert q in listed;
    }
  }

  lemma DropTwo(routes: seq<Route>, listed: seq<Route>, config: set<string>)
    requires Distinct(Map(RouteName, routes)) && listed != [] && UrlLabel(listed[0]) !in config && listed[0] in routes
    ensures Without(Without(routes, NamedRoute(listed[0].name)), UnwantedIn(listed[1..], config))
         == Without(routes, UnwantedIn(listed, config))
  {
    var r := listed[0];
    assert listed == [r] + listed[1..];
    forall x | x in routes
      ensures UnwantedIn(listed, config)(x) <==> NamedRoute(r.name)(x) || UnwantedIn(listed[1..], config)(x)
    {
      if x.name == r.name {
        SameNameSameRoute(routes, x, r);
      }
    }
    WithoutTwice(routes, NamedRoute(r.name), UnwantedIn(listed[1..], config), UnwantedIn(listed, config));
  }

  lemma DeletePhaseIs(routes: seq<Route>, config: set<string>, component: string, application: string)
    requires RoutesOk(routes, component, application)
    ensures DeleteUrls(routes, ListUrls(routes, component, application), config, application)
         == Ok(Without(routes, Unwanted(config, component, application)))
  {
    var mine := MyRoutes(routes, component, application);
    WithoutMembers(routes, NotMine(component, application));
    WithoutDistinct(RouteName, routes, NotMine(component, application));
    DeleteUrlsFilters(routes, mine, config, component, application);
    WithoutAgree(routes, UnwantedIn(mine, config), Unwanted(config, component, application));
  }

  lemma CreatedRoutesOk(routes: seq<Route>, config: seq<Url>, component: string, application: string)
    requires RoutesOk(routes, component, application) && CreateUrls(routes, config, component, application).Ok?
    ensures RoutesOk(CreateUrls(routes, config, component, application).value, component, application)
  {
    CreateUrlsAppends(routes, config, config, component, application);
    var after := CreateUrls(routes, config, component, application).value;
    forall r | r in after && Mine(r, component, application)
      ensures UrlName in r.labels && NamespaceOpenShiftObject(UrlLabel(r), application) == Ok(r.name)
    {
      var k :| 0 <= k < |after| && after[k] == r;
      if k < |routes| {
        assert after[..|routes|][k] == r;
      }
    }
  }

  /** The routes after the phase: the old ones but for those no longer wanted, then new ones that are
      as configured. */
  ghost predicate Reconciled(before: seq<Route>, after: seq<Route>, config: seq<Url>, component: string,
                             application: string) {
    var kept := Without(before, Unwanted(NamesOf(config), component, application));
    && |kept| <= |after| && after[..|kept|] == kept
    && (forall k :: |kept| <= k < |after| ==> AsConfigured(after[k], config, component, application))
  }

  /** THE URL PHASE, EXACTLY. When it succeeds, the component's URL names on the cluster are the config's;
      routes still wanted stay as they were, wherever they were; new ones are as configured; routes of
      other components are untouched; and the gate skips nothing that was needed. */
  lemma UrlsFollowConfig(routes: seq<Route>, config: seq<Url>, component: string, application: string)
    requires RoutesOk(routes, component, application) && ApplyUrls(routes, config, component, application).Ok?
    ensures var after := ApplyUrls(routes, config, component, application).value;
            RoutesOk(after, component, application) && Reconciled(routes, after, config, component, application) &&
            NamesOf(ListUrls(after, component, application)) == NamesOf(config) &&
            Without(after, IsMine(component, application)) == Without(routes, IsMine(component, application))
    ensures ApplyUrls(routes, config, component, application)
         == CreateThenDelete(routes, config, component, application)
  {
    GateIsSafe(routes, config, component, application);
    var created := CreateUrls(routes, config, component, application).value;
    var after := ApplyUrls(routes, config, component, application).value;
    CreatedRoutesOk(routes, config, component, application);
    DeletePhaseIs(created, NamesOf(config), component, application);
    var unwanted := Unwanted(NamesOf(config), component, application);
    WithoutMembers(created, unwanted);
    WithoutDistinct(RouteName, created, unwanted);
    CreateUrlsAppends(routes, config, config, component, application);
    AppendedKept(routes, created, config, component, application);
    forall name ensures name in NamesOf(ListUrls(after, component, application)) <==> name in NamesOf(config) {
      NamesAfter(routes, config, component, application, name);
    }
  }

  lemma GateIsSafe(routes: seq<Route>, config: seq<Url>, component: string, application: string)
    requires RoutesOk(routes, component, application)
    ensures ApplyUrls(routes, config, component, application)
         == CreateThenDelete(routes, config, component, application)
  {
    if !ChangesWillBeMade(routes, config, component, application) {
      assert ListUrls(routes, component, application) == [];
    }
  }

  lemma AppendedKept(routes: seq<Route>, created: seq<Route>, config: seq<Url>, component: string, application: string)
    requires |routes| <= |created| && created[..|routes|] == routes
    requires forall k :: |routes| <= k < |created| ==> AsConfigured(created[k], config, component, application)
    ensures var after := Without(created, Unwanted(NamesOf(config), component, application));
            Reconciled(routes, after, config, component, application) &&
            Without(after, IsMine(component, application)) == Without(routes, IsMine(component, application))
  {
    var added := created[|routes|..];
    var unwanted, mine := Unwanted(NamesOf(config), component, application), IsMine(component, application);
    assert created == routes + added;
    forall r | r in added ensures !unwanted(r) && mine(r) {
      var k :| 0 <= k < |added| && added[k] == r;
      assert AsConfigured(created[|routes| + k], config, component, application);
    }
    FilterAppended(routes, added, unwanted, mine);
    var kept := Without(routes, unwanted);
    forall k | |kept| <= k < |kept + added| ensures AsConfigured((kept + added)[k], config, component, application) {
      assert (kept + added)[k] == created[|routes| + (k - |kept|)];
    }
  }

  lemma FilterAppended(routes: seq<Route>, added: seq<Route>, unwanted: Route -> bool, mine: Route -> bool)
    requires forall r :: r in added ==> !unwanted(r) && mine(r)
    requires forall r :: unwanted(r) ==> mine(r)
    ensures Without(routes + added, unwanted) == Without(routes, unwanted) + added
    ensures Without(Without(routes + added, unwanted), mine) == Without(routes, mine)
  {
    WithoutConcat(routes, added, unwanted);
    WithoutNothing(added, unwanted);
    WithoutConcat(Without(routes, unwanted), added, mine);
    WithoutEverything(added, mine);
    WithoutTwice(routes, unwanted, mine, mine);
    assert Without(routes, mine) + [] == Without(routes, mine);
  }

  lemma NamesAfter(routes: seq<Route>, config: seq<Url>, component: string, application: string, name: string)
    requires RoutesOk(routes, component, application) && CreateThenDelete(routes, config, component, application).Ok?
    ensures var after := CreateThenDelete(routes, config, component, application).value;
            name in NamesOf(ListUrls(after, component, application)) <==> name in NamesOf(config)
  {
    var created := CreateUrls(routes, config, component, application).value;
    CreatedRoutesOk(routes, config, component, application);
    DeletePhaseIs(created, NamesOf(config), component, application);
    var after := Without(created, Unwanted(NamesOf(config), component, application));
    WithoutMembers(created, Unwanted(NamesOf(config), component, application));
    ListedIff(after, component, application, name);
    if name in NamesOf(config) {
      var u :| u in config && u.name == name;
      CreateUrlsCovers(routes, config, component, application);
      assert HasUrl(created, component, application, u.name);
      var r :| r in created && Mine(r, component, application) && UrlLabel(r) == name;
      assert r in after;
    }
  }

  lemma {:induction false} AllListedAlready(routes: seq<Route>, config: seq<Url>, component: string,
                                            application: string)
    requires NamesOf(config) <= NamesOf(ListUrls(routes, component, application))
    ensures CreateUrls(routes, config, component, application) == Ok(routes)
    decreases config
  {
    if config != [] {
      assert config == [config[0]] + config[1..];
      assert config[0].name in NamesOf(config);
      assert forall u :: u in config[1..] ==> u.name in NamesOf(config);
      AllListedAlready(routes, config[1..], component, application);
    }
  }

  /** A second pass over what the first one left creates and deletes nothing. */
  lemma SecondPassIsIdle(routes: seq<Route>, config: seq<Url>, component: string, application: string)
    requires RoutesOk(routes, component, application) && ApplyUrls(routes, config, component, application).Ok?
    ensures var after := ApplyUrls(routes, config, component, application).value;
            ApplyUrls(after, config, component, application) == Ok(after)
  {
    UrlsFollowConfig(routes, config, component, application);
    var after := ApplyUrls(routes, config, component, application).value;
    GateIsSafe(after, config, component, application);
    AllListedAlready(after, config, component, application);
    DeletePhaseIs(after, NamesOf(config), component, application);
    forall r | r in after ensures !Unwanted(NamesOf(config), component, application)(r) {
      if Mine(r, component, application) {
        ListedIff(after, component, application, UrlLabel(r));
      }
    }
    WithoutNothing(after, Unwanted(NamesOf(config), component, application));
  }

  // ------------------------------------------------------------ when the phase succeeds

  function NewUrls(routes: seq<Route>, config: seq<Url>, component: string, application: string): set<string> {
    NamesOf(config) - NamesOf(ListUrls(routes, component, application))
  }

  function RouteNameFor(url: string, application: string): string {
    match NamespaceOpenShiftObject(url, application) case Ok(name) => name case Err(_) => ""
  }

  /** Names can be formed for the routes of these URLs, and they are free and distinct. */
  ghost predicate RouteNamesFree(routes: seq<Route>, urls: set<string>, application: string) {
    && (forall u :: u in urls ==> NamespaceOpenShiftObject(u, application).Ok? &&
                                  RouteNameFor(u, application) !in Map(RouteName, routes))
    && (forall u, v :: u in urls && v in urls ==>
          RouteNameFor(u, application) == RouteNameFor(v, application) ==> u == v)
  }

  /** If a URL is new, the service it leads to has a name, and each new URL gets a route of its own. */
  ghost predicate UrlsAccepted(routes: seq<Route>, config: seq<Url>, component: string, application: string) {
    var urls := NewUrls(routes, config, component, application);
    (urls != {} ==> NamespaceOpenShiftObject(component, application).Ok?) && RouteNamesFree(routes, urls, application)
  }

  lemma OneListedMore(routes: seq<Route>, r: Route, component: string, application: string)
    requires Mine(r, component, application)
    ensures NamesOf(ListUrls(routes + [r], component, application))
         == NamesOf(ListUrls(routes, component, application)) + {UrlLabel(r)}
  {
    forall name ensures name in NamesOf(ListUrls(routes + [r], component, application))
                        <==> name in NamesOf(ListUrls(routes, component, application)) || name == UrlLabel(r) {
      ListedIff(routes, component, application, name);
      ListedIff(routes + [r], component, application, name);
      assert r in routes + [r];
      if q :| q in routes && Mine(q, component, application) && UrlLabel(q) == name {
        assert q in routes + [r];
      }
    }
  }

  lemma RouteNamesStep(routes: seq<Route>, r: Route, url: string, urls: set<string>, application: string)
    requires url !in urls && NamespaceOpenShiftObject(url, application) == Ok(r.name)
    requires r.name !in Map(RouteName, routes)
    ensures RouteNamesFree(routes, urls + {url}, application) <==> RouteNamesFree(routes + [r], urls, application)
  {
    assert Map(RouteName, routes + [r]) == Map(RouteName, routes) + [r.name];
    assert RouteNameFor(url, application) == r.name;
  }

  lemma {:induction false} CreateUrlsIff(routes: seq<Route>, config: seq<Url>, component: string, application: string)
    ensures CreateUrls(routes, config, component, application).Ok?
            <==> UrlsAccepted(routes, config, component, application)
    decreases config
  {
    if config != [] {
      var url, rest := config[0].name, config[1..];
      assert config == [config[0]] + rest;
      assert NamesOf(config) == NamesOf(rest) + {url};
      if url in NamesOf(ListUrls(routes, component, application)) {
        assert NewUrls(routes, config, component, application) == NewUrls(routes, rest, component, application);
        CreateUrlsIff(routes, rest, component, application);
      } else {
        assert url in NewUrls(routes, config, component, application);
        if CreateUrl(routes, config[0], component, application).Ok? {
          var next := CreateUrl(routes, config[0], component, application).value;
          var r := next[|routes|];
          OneListedMore(routes, r, component, application);
          var urls := NewUrls(next, rest, component, application);
          assert NewUrls(routes, config, component, application) == urls + {url};
          RouteNamesStep(routes, r, url, urls, application);
          CreateUrlsIff(next, rest, component, application);
        }
      }
    }
  }

  /** WHEN THE URL PHASE SUCCEEDS: if and only if each configured URL that the component does not have yet
      can get a route, whoever else in the project has routes. Deleting never fails. */
  lemma ApplySucceedsIff(routes: seq<Route>, config: seq<Url>, component: string, application: string)
    requires RoutesOk(routes, component, application)
    ensures ApplyUrls(routes, config, component, application).Ok?
            <==> UrlsAccepted(routes, config, component, application)
  {
    GateIsSafe(routes, config, component, application);
    CreateUrlsIff(routes, config, component, application);
    if CreateUrls(routes, config, component, application).Ok? {
      CreatedRoutesOk(routes, config, component, application);
      DeletePhaseIs(CreateUrls(routes, config, component, application).value, NamesOf(config), component, application);
    }
  }

  // ------------------------------------------------------------ ports

  lemma ListedUrlIff(routes: seq<Route>, component: string, application: string, u: Url)
    ensures u in ListUrls(routes, component, application)
            <==> exists r :: r in routes && Mine(r, component, application) && ToUrl(r) == u
  {
    var mine := MyRoutes(routes, component, application);
    WithoutMembers(routes, NotMine(component, application));
    if r :| r in routes && Mine(r, component, application) && ToUrl(r) == u {
      var i :| 0 <= i < |mine| && mine[i] == r;
      assert ListUrls(routes, component, application)[i] == u;
    }
    if u in ListUrls(routes, component, application) {
      var i :| 0 <= i < |mine| && ToUrl(mine[i]) == u;
      assert mine[i] in mine;
    }
  }

  /** A route that is still wanted stays as it is. */
  lemma WantedStays(routes: seq<Route>, config: seq<Url>, component: string, application: string, r: Route)
    requires RoutesOk(routes, component, application) && ApplyUrls(routes, config, component, application).Ok?
    requires r in routes && UrlLabel(r) in NamesOf(config)
    ensures r in ApplyUrls(routes, config, component, application).value
  {
    UrlsFollowConfig(routes, config, component, application);
    var after := ApplyUrls(routes, config, component, application).value;
    var kept := Without(routes, Unwanted(NamesOf(config), component, application));
    WithoutMembers(routes, Unwanted(NamesOf(config), component, application));
    assert r in after[..|kept|];
  }

  /** Every URL that exists and is still wanted has the port the config gives it. */
  ghost predicate PortsAgree(routes: seq<Route>, config: seq<Url>, component: string, application: string) {
    forall r :: r in routes && Mine(r, component, application) && UrlLabel(r) in NamesOf(config) ==> ToUrl(r) in config
  }

  ghost predicate OnePortEach(config: seq<Url>) {
    forall u, v :: u in config && v in config && u.name == v.name ==> u == v
  }

  ghost predicate SameUrls(listed: seq<Url>, config: seq<Url>) {
    forall u :: u in listed <==> u in config
  }

  lemma ListedAreConfigured(routes: seq<Route>, config: seq<Url>, component: string, application: string, r: Route)
    requires RoutesOk(routes, component, application) && ApplyUrls(routes, config, component, application).Ok?
    requires PortsAgree(routes, config, component, application)
    requires r in ApplyUrls(routes, config, component, application).value && Mine(r, component, application)
    ensures ToUrl(r) in config
  {
    UrlsFollowConfig(routes, config, component, application);
    var after := ApplyUrls(routes, config, component, application).value;
    var kept := Without(routes, Unwanted(NamesOf(config), component, application));
    WithoutMembers(routes, Unwanted(NamesOf(config), component, application));
    var k :| 0 <= k < |after| && after[k] == r;
    if k < |kept| {
      assert after[..|kept|][k] == kept[k];
      assert kept[k] in kept;
    }
  }

  /** PORTS. After a successful phase the component's URLs are the config's, ports included, if and only
      if no URL that existed already is configured with another port and no name is configured twice
      with different ports: the phase compares names alone. */
  lemma PortsFollowIff(routes: seq<Route>, config: seq<Url>, component: string, application: string)
    requires RoutesOk(routes, component, application) && ApplyUrls(routes, config, component, application).Ok?
    ensures SameUrls(ListUrls(ApplyUrls(routes, config, component, application).value, component, application), config)
            <==> PortsAgree(routes, config, component, application) && OnePortEach(config)
  {
    var after := ApplyUrls(routes, config, component, application).value;
    if PortsAgree(routes, config, component, application) && OnePortEach(config) {
      AgreedAreListed(routes, config, component, application);
    }
    if SameUrls(ListUrls(after, component, application), config) {
      ListedAgree(routes, config, component, application);
    }
  }

  lemma AgreedAreListed(routes: seq<Route>, config: seq<Url>, component: string, application: string)
    requires RoutesOk(routes, component, application) && ApplyUrls(routes, config, component, application).Ok?
    requires PortsAgree(routes, config, component, application) && OnePortEach(config)
    ensures SameUrls(ListUrls(ApplyUrls(routes, config, component, application).value, component, application), config)
  {
    var after := ApplyUrls(routes, config, component, application).value;
    UrlsFollowConfig(routes, config, component, application);
    forall u ensures u in ListUrls(after, component, application) <==> u in config {
      ListedUrlIff(after, component, application, u);
      if r :| r in after && Mine(r, component, application) && ToUrl(r) == u {
        ListedAreConfigured(routes, config, component, application, r);
      }
      if u in config {
        ListedIff(after, component, application, u.name);
        assert u.name in NamesOf(config);
        var r :| r in after && Mine(r, component, application) && UrlLabel(r) == u.name;
        ListedAreConfigured(routes, config, component, application, r);
      }
    }
  }

  lemma ListedAgree(routes: seq<Route>, config: seq<Url>, component: string, application: string)
    requires RoutesOk(routes, component, application) && ApplyUrls(routes, config, component, application).Ok?
    requires SameUrls(ListUrls(ApplyUrls(routes, config, component, application).value, component, application), config)
    ensures PortsAgree(routes, config, component, application) && OnePortEach(config)
  {
    var after := ApplyUrls(routes, config, component, application).value;
    UrlsFollowConfig(routes, config, component, application);
    forall r | r in routes && Mine(r, component, application) && UrlLabel(r) in NamesOf(config)
      ensures ToUrl(r) in config
    {
      WantedStays(routes, config, component, application, r);
      ListedUrlIff(after, component, application, ToUrl(r));
    }
    forall u, v | u in config && v in config && u.name == v.name ensures u == v {
      ListedUrlIff(after, component, application, u);
      ListedUrlIff(after, component, application, v);
      var r :| r in after && Mine(r, component, application) && ToUrl(r) == u;
      var q :| q in after && Mine(q, component, application) && ToUrl(q) == v;
      SameNameSameRoute(after, r, q);
    }
  }

  /** A URL whose port is changed in the config: the phase succeeds and the route keeps its old port. */
  lemma ChangedPortIsLost()
    ensures var routes, config := [Route("u-a", UrlLabels("u", "c", "a"), "c-a", 8080)], [Url("u", 9090)];
            RoutesOk(routes, "c", "a") && ApplyUrls(routes, config, "c", "a") == Ok(routes) &&
            ListUrls(routes, "c", "a") == [Url("u", 8080)]
  {
    var r := Route("u-a", UrlLabels("u", "c", "a"), "c-a", 8080);
    var routes, config := [r], [Url("u", 9090)];
    assert Strings.ReplaceChar("u", '/', '-') == "u" && FullName("u", "a") == "u-a";
    assert MyRoutes(routes, "c", "a") == [r];
    assert ListUrls(routes, "c", "a") == [Url("u", 8080)];
    assert Url("u", 8080) in ListUrls(routes, "c", "a") && Url("u", 9090) in config;
    assert CreateUrls(routes, config, "c", "a") == CreateUrls(routes, config[1..], "c", "a");
    assert DeleteUrls(routes, ListUrls(routes, "c", "a"), NamesOf(config), "a") == Ok(routes);
  }
}
