/** The IngressRoute of an atom: one route per feed and one for the downloads, for every served URL. */
module IngressRoutes {
  import opened Wrappers
  import opened Strings
  import opened Sequences
  import opened Urls
  import opened AtomTypes
  import opened KubeObjects
  import opened Traefik
  import opened Middlewares
  import opened RewriteChains
  import opened DownloadRouting
  import opened Platforms

  function MatchRule(url: URL, pathPrefix: bool): string {
    var host := "(Host(`localhost`) || Host(`" + url.hostname + "`))";
    var path := (if pathPrefix then "PathPrefix" else "Path") + "(`" + url.path + "`)";
    host + " && " + path
  }

  /** Traefik reads a match rule as the URL's host and path. */
  lemma MatchRuleMeaning(url: URL, pathPrefix: bool)
    requires '`' !in url.hostname && '`' !in url.path
    ensures ParseRule(MatchRule(url, pathPrefix)) == Some(Rule(url.hostname, pathPrefix, url.path))
  {
    MatchRuleShape(url.hostname, pathPrefix, url.path);
    ParseRuleRoundTrip(url.hostname, pathPrefix, url.path);
  }

  lemma MatchRuleShape(hostname: string, pathPrefix: bool, path: string)
    ensures "(Host(`localhost`) || Host(`" + hostname + "`))" + " && " +
            ((if pathPrefix then "PathPrefix" else "Path") + "(`" + path + "`)")
            == RULE_HEAD + (hostname + (RuleMiddle(pathPrefix) + (path + RULE_TAIL)))
  {
    var kind := if pathPrefix then "PathPrefix" else "Path";
    assert "`))" + " && " + kind + "(`" == RuleMiddle(pathPrefix);
    RegroupRule(RULE_HEAD, hostname, "`))", " && ", kind, "(`", path, RULE_TAIL);
  }

  lemma RegroupRule(
    head: string, hostname: string, a: string, b: string, kind: string, c: string, path: string, tail: string)
    ensures head + hostname + a + b + (kind + c + path + tail) == head + (hostname + (a + b + kind + c + (path + tail)))
  {
  }

  function DefaultRoute(atom: Atom, rule: string): Route {
    Route(
      rule,
      [Backend(ServiceName(atom.meta.name), Itoa(ATOM_PORT), None)],
      [HeadersName(atom.meta.name), StripPrefixName(atom.meta.name)])
  }

  function FeedRoute(atom: Atom, url: URL, file: string): Route {
    DefaultRoute(atom, MatchRule(url.JoinPath([file]), false))
  }

  const STORAGE := Backend("azure-storage", "azure-storage", Some(false))

  function StorageRoute(atom: Atom, url: URL, downloadMiddlewares: seq<string>): Route {
    Route(
      MatchRule(url.JoinPath(["downloads/"]), true), [STORAGE],
      [HeadersName(atom.meta.name)] + downloadMiddlewares)
  }

  function FeedRoutes(atom: Atom, url: URL): seq<Route> {
    var feeds := atom.spec.service.datasetFeeds;
    seq(|feeds|, k requires 0 <= k < |feeds| => FeedRoute(atom, url, feeds[k].technicalName + ".xml"))
  }

  function RoutesForURL(atom: Atom, url: URL, downloadMiddlewares: seq<string>): seq<Route> {
    [FeedRoute(atom, url, "index.xml")] + FeedRoutes(atom, url) + [StorageRoute(atom, url, downloadMiddlewares)]
  }

  method GetRoutesForURL(atom: Atom, url: URL, downloadMiddlewares: seq<string>) returns (routes: seq<Route>)
    ensures routes == RoutesForURL(atom, url, downloadMiddlewares)
  {
    routes := [DefaultRoute(atom, MatchRule(url.JoinPath(["index.xml"]), false))];
    var feeds := atom.spec.service.datasetFeeds;
    ghost var index, feedRoutes := routes, FeedRoutes(atom, url);
    for k := 0 to |feeds|
      invariant routes == index + feedRoutes[..k]
    {
      var matchRule := MatchRule(url.JoinPath([feeds[k].technicalName + ".xml"]), false);
      assert feedRoutes[k] == DefaultRoute(atom, matchRule);
      assert feedRoutes[..k + 1] == feedRoutes[..k] + [feedRoutes[k]];
      routes := routes + [DefaultRoute(atom, matchRule)];
    }
    assert feedRoutes[..|feeds|] == feedRoutes;
    var storageRule := Route(
      MatchRule(url.JoinPath(["downloads/"]), true), [STORAGE],
      [HeadersName(atom.meta.name)] + downloadMiddlewares);
    routes := routes + [storageRule];
  }

  function RoutesForURLs(atom: Atom, urls: seq<URL>, downloadMiddlewares: seq<string>): seq<Route> {
    Flatten(seq(|urls|, k requires 0 <= k < |urls| => RoutesForURL(atom, urls[k], downloadMiddlewares)))
  }

  lemma RoutesForURLsAppend(atom: Atom, urls: seq<URL>, url: URL, downloadMiddlewares: seq<string>)
    ensures RoutesForURLs(atom, urls + [url], downloadMiddlewares)
            == RoutesForURLs(atom, urls, downloadMiddlewares) + RoutesForURL(atom, url, downloadMiddlewares)
  {
    var lists := seq(|urls|, k requires 0 <= k < |urls| => RoutesForURL(atom, urls[k], downloadMiddlewares));
    var more := urls + [url];
    FlattenAppend(lists, RoutesForURL(atom, url, downloadMiddlewares));
    assert seq(|more|, k requires 0 <= k < |more| => RoutesForURL(atom, more[k], downloadMiddlewares))
           == lists + [RoutesForURL(atom, url, downloadMiddlewares)];
  }

  lemma RoutesForURLsStep(atom: Atom, urls: seq<URL>, k: nat, downloadMiddlewares: seq<string>)
    requires k < |urls|
    ensures RoutesForURLs(atom, urls[..k + 1], downloadMiddlewares)
            == RoutesForURLs(atom, urls[..k], downloadMiddlewares) + RoutesForURL(atom, urls[k], downloadMiddlewares)
  {
    RoutesForURLsAppend(atom, urls[..k], urls[k], downloadMiddlewares);
    assert urls[..k + 1] == urls[..k] + [urls[k]];
  }

  lemma RoutesForURLsOne(atom: Atom, url: URL, downloadMiddlewares: seq<string>)
    ensures RoutesForURLs(atom, [url], downloadMiddlewares) == RoutesForURL(atom, url, downloadMiddlewares)
  {
    RoutesForURLsAppend(atom, [], url, downloadMiddlewares);
    assert [] + [url] == [url];
  }

  function MonitorTitle(atom: Atom): string {
    var title := atom.spec.service.title;
    if |title| >= 4 && title[|title| - 4..] == "ATOM" then title else title + " ATOM"
  }

  function Annotations(atom: Atom, uptime: UptimeAnnotations): Labels {
    uptime(atom.meta.annotations, atom.meta.name + NAME_SUFFIX, MonitorTitle(atom),
           atom.spec.service.baseURL.JoinPath(["index.xml"]).String(), atom.meta.labels)
  }

  function IngressRouteFor(atom: Atom, uptime: UptimeAnnotations, stored: IngressRoute): IngressRoute
    requires AllSliceable(DownloadLinks(atom))
  {
    IngressRoute(
      ObjectLabels(atom, stored.labels),
      Annotations(atom, uptime),
      RoutesForURLs(atom, atom.ServedURLs(), ChainNames(atom)))
  }

  /** The group map is visited in any order; the routes come out the same. */
  method MutateIngressRoute(atom: Atom, ingressRoute: IngressRouteObject, uptime: UptimeAnnotations)
    returns (err: Option<Error>)
    modifies ingressRoute
    ensures err.None? <==> AllSliceable(DownloadLinks(atom))
    ensures err.Some? ==> err.value == SliceOutOfRange
    ensures err.None? ==> ingressRoute.Value() == IngressRouteFor(atom, uptime, old(ingressRoute.Value()))
  {
    ingressRoute.labels := ObjectLabels(atom, ingressRoute.labels);
    ingressRoute.annotations := Annotations(atom, uptime);
    var sorting := GetDownloadMiddlewares(atom);
    if sorting.Err? {
      return Some(sorting.error);
    }
    ingressRoute.routes := GetRoutes(atom, sorting.value);
    return None;
  }

  /** The routes of every served URL: the listed ones, or else the base URL. */
  method GetRoutes(atom: Atom, downloadMiddlewares: seq<string>) returns (routes: seq<Route>)
    ensures routes == RoutesForURLs(atom, atom.ServedURLs(), downloadMiddlewares)
  {
    routes := [];
    var urls := atom.ListedURLs();
    if |urls| > 0 {
      for k := 0 to |urls|
        invariant routes == RoutesForURLs(atom, urls[..k], downloadMiddlewares)
      {
        var more := GetRoutesForURL(atom, urls[k], downloadMiddlewares);
        RoutesForURLsStep(atom, urls, k, downloadMiddlewares);
        routes := routes + more;
      }
      assert urls[..|urls|] == urls;
    } else {
      routes := GetRoutesForURL(atom, atom.spec.service.baseURL, downloadMiddlewares);
      RoutesForURLsOne(atom, atom.spec.service.baseURL, downloadMiddlewares);
    }
  }

  /** The names are those of the middlewares of the visited groups, each once. */
  ghost predicate NamesOf(atomName: string, groups: map<string, LinkGroup>, visited: set<string>, names: seq<string>)
    requires Indexed(groups) && visited <= groups.Keys
  {
    NoDuplicates(names) &&
    forall x :: x in names <==> exists p :: p in visited && x == DownloadName(atomName, groups[p].index.value)
  }

  lemma NamesOfStep(atomName: string, groups: map<string, LinkGroup>, visited: set<string>, names: seq<string>, p: string)
    requires Indexed(groups)
    requires p in groups && p !in visited && visited <= groups.Keys
    requires NamesOf(atomName, groups, visited, names)
    ensures NamesOf(atomName, groups, visited + {p}, names + [DownloadName(atomName, groups[p].index.value)])
  {
    var name := DownloadName(atomName, groups[p].index.value);
    if name in names {
      var q :| q in visited && name == DownloadName(atomName, groups[q].index.value);
      MiddlewareNamesDistinct(atomName, groups[p].index.value, groups[q].index.value);
    }
  }

  lemma NamesOfAll(atomName: string, groups: map<string, LinkGroup>, names: seq<string>)
    requires Indexed(groups)
    requires NamesOf(atomName, groups, groups.Keys, names)
    ensures multiset(names) == multiset(DownloadNames(atomName, |groups|))
  {
    var all := DownloadNames(atomName, |groups|);
    DownloadNamesDistinct(atomName, |groups|);
    forall x
      ensures x in names <==> x in all
    {
      if x in all {
        var i :| 0 <= i < |all| && all[i] == x;
        var p :| p in groups && groups[p].index == Some(i);
        assert p in groups.Keys;
      }
      if x in names {
        var p :| p in groups.Keys && x == DownloadName(atomName, groups[p].index.value);
        assert all[groups[p].index.value] == x;
      }
    }
    SameElements(names, all);
  }

  /** Names the middleware of every group, in whatever order the map gives them. */
  method VisitGroups(atomName: string, groups: map<string, LinkGroup>) returns (names: seq<string>)
    requires Indexed(groups)
    ensures multiset(names) == multiset(DownloadNames(atomName, |groups|))
  {
    names := [];
    var remaining := groups.Keys;
    while remaining != {}
      invariant remaining <= groups.Keys
      invariant NamesOf(atomName, groups, groups.Keys - remaining, names)
      decreases remaining
    {
      var p :| p in remaining;
      NamesOfStep(atomName, groups, groups.Keys - remaining, names, p);
      assert groups.Keys - remaining + {p} == groups.Keys - (remaining - {p});
      names := names + [DownloadName(atomName, groups[p].index.value)];
      remaining := remaining - {p};
    }
    assert groups.Keys - remaining == groups.Keys;
    NamesOfAll(atomName, groups, names);
  }

  /** The names of the download middlewares, sorted. */
  method GetDownloadMiddlewares(atom: Atom) returns (result: Result<seq<string>>)
    ensures result == if AllSliceable(DownloadLinks(atom)) then Ok(ChainNames(atom)) else Err(SliceOutOfRange)
  {
    var links := GetDownloadLinks(atom);
    var grouping := GetDownloadLinkGroups(links);
    if grouping.Err? {
      return Err(grouping.error);
    }
    GroupIndices(links);
    var names := VisitGroups(atom.meta.name, grouping.value);
    SortedUnique(Sort(names), ChainNames(atom));
    return Ok(Sort(names));
  }

  // ----- What the routes serve

  /** Every route of a served URL is among the routes of the atom, and there are no others. */
  lemma RoutesAreThoseOfServedURLs(atom: Atom, uptime: UptimeAnnotations, stored: IngressRoute, route: Route)
    requires AllSliceable(DownloadLinks(atom))
    ensures route in IngressRouteFor(atom, uptime, stored).routes <==>
              exists url :: url in atom.ServedURLs() && route in RoutesForURL(atom, url, ChainNames(atom))
  {
    RoutesAreThoseOf(atom, atom.ServedURLs(), ChainNames(atom), route);
  }

  lemma RoutesAreThoseOf(atom: Atom, urls: seq<URL>, names: seq<string>, route: Route)
    ensures route in RoutesForURLs(atom, urls, names) <==> exists url :: url in urls && route in RoutesForURL(atom, url, names)
  {
    var lists := seq(|urls|, k requires 0 <= k < |urls| => RoutesForURL(atom, urls[k], names));
    FlattenMember(lists, route);
    if url :| url in urls && route in RoutesForURL(atom, url, names) {
      var k :| 0 <= k < |urls| && urls[k] == url;
      assert route in lists[k];
    }
  }

  /** A route that sends exact requests for the path to the atom's service, after stripping the prefix. */
  predicate ServesFile(atom: Atom, route: Route, url: URL, file: string) {
    ParseRule(route.rule) == Some(Rule(url.hostname, false, url.path + "/" + file)) &&
    route.services == [Backend(ServiceName(atom.meta.name), "80", None)] &&
    route.middlewares == [HeadersName(atom.meta.name), StripPrefixName(atom.meta.name)]
  }

  /** A route that sends everything under the downloads path to storage, through the download chain. */
  predicate ServesDownloads(atom: Atom, route: Route, url: URL)
    requires AllSliceable(DownloadLinks(atom))
  {
    ParseRule(route.rule) == Some(Rule(url.hostname, true, url.path + DOWNLOADS)) &&
    route.services == [STORAGE] &&
    route.middlewares == [HeadersName(atom.meta.name)] + ChainNames(atom)
  }

  predicate NoBacktick(url: URL) {
    '`' !in url.hostname && '`' !in url.path
  }

  predicate PlainFile(file: string) {
    PlainSegment(file) && '`' !in file
  }

  lemma FeedRouteServes(atom: Atom, url: URL, file: string)
    requires CleanPath(url.path) && NoBacktick(url) && PlainFile(file)
    ensures ServesFile(atom, FeedRoute(atom, url, file), url, file)
  {
    FeedRuleMeaning(url, file);
    PortText();
  }

  lemma PortText()
    ensures Itoa(ATOM_PORT) == "80"
  {
    assert Itoa(8) == "8";
  }

  lemma FeedRuleMeaning(url: URL, file: string)
    requires CleanPath(url.path) && NoBacktick(url) && PlainFile(file)
    ensures ParseRule(MatchRule(url.JoinPath([file]), false)) == Some(Rule(url.hostname, false, url.path + "/" + file))
  {
    JoinOne(url.path, file);
    MatchRuleMeaning(url.JoinPath([file]), false);
  }

  lemma StorageRouteServes(atom: Atom, url: URL)
    requires AllSliceable(DownloadLinks(atom)) && CleanPath(url.path) && NoBacktick(url)
    ensures ServesDownloads(atom, StorageRoute(atom, url, ChainNames(atom)), url)
  {
    JoinDirectory(url.path, "downloads");
    assert "downloads" + "/" == "downloads/";
    assert url.path + "/" + "downloads" + "/" == url.path + DOWNLOADS;
    MatchRuleMeaning(url.JoinPath(["downloads/"]), true);
  }

  /** The index file or that of a feed. */
  predicate FeedFile(atom: Atom, file: string) {
    file == "index.xml" || exists feed :: feed in atom.spec.service.datasetFeeds && file == feed.technicalName + ".xml"
  }

  lemma FeedRouteListed(atom: Atom, url: URL, file: string, downloadMiddlewares: seq<string>)
    requires FeedFile(atom, file)
    ensures FeedRoute(atom, url, file) in RoutesForURL(atom, url, downloadMiddlewares)
  {
    var own, feeds := RoutesForURL(atom, url, downloadMiddlewares), atom.spec.service.datasetFeeds;
    assert own[0] == FeedRoute(atom, url, "index.xml");
    if file != "index.xml" {
      var feed :| feed in feeds && file == feed.technicalName + ".xml";
      var k :| 0 <= k < |feeds| && feeds[k] == feed;
      assert own[1 + k] == FeedRoutes(atom, url)[k];
    }
  }

  /** Every served URL has its index route, a route per feed, and its downloads route. */
  lemma ServedURLHasItsRoutes(atom: Atom, uptime: UptimeAnnotations, stored: IngressRoute, url: URL)
    requires AllSliceable(DownloadLinks(atom))
    requires url in atom.ServedURLs() && CleanPath(url.path) && NoBacktick(url)
    ensures var routes := IngressRouteFor(atom, uptime, stored).routes;
            && (forall file :: FeedFile(atom, file) && PlainFile(file) ==>
                  exists route :: route in routes && ServesFile(atom, route, url, file))
            && (exists route :: route in routes && ServesDownloads(atom, route, url))
  {
    forall file | FeedFile(atom, file) && PlainFile(file)
      ensures exists route :: route in IngressRouteFor(atom, uptime, stored).routes && ServesFile(atom, route, url, file)
    {
      FeedRouteListed(atom, url, file, ChainNames(atom));
      FeedRouteServes(atom, url, file);
      RoutesAreThoseOfServedURLs(atom, uptime, stored, FeedRoute(atom, url, file));
    }
    var own, storage := RoutesForURL(atom, url, ChainNames(atom)), StorageRoute(atom, url, ChainNames(atom));
    assert own[|own| - 1] == storage;
    StorageRouteServes(atom, url);
    RoutesAreThoseOfServedURLs(atom, uptime, stored, storage);
  }
}
