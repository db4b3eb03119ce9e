/** Which routes of an atom accept a published request, and when more than one kind of route does. */
module RequestRouting {
  import opened Wrappers
  import opened Strings
  import opened Urls
  import opened AtomTypes
  import opened KubeObjects
  import opened Traefik
  import opened Middlewares
  import opened RewriteChains
  import opened DownloadRouting
  import opened IngressRoutes

  /** The router reads the rule and lets the request through. */
  predicate AcceptedBy(route: Route, host: string, path: string) {
    var rule := ParseRule(route.rule);
    rule.Some? && rule.value.Accepts(host, path)
  }

  /** Every rule answers to its URL's host name and to the local one. */
  predicate Answers(url: URL, host: string) {
    host == "localhost" || host == url.hostname
  }

  predicate ToService(atom: Atom, route: Route) {
    route.services == [Backend(ServiceName(atom.meta.name), "80", None)] &&
    route.middlewares == [HeadersName(atom.meta.name), StripPrefixName(atom.meta.name)]
  }

  predicate ToStorage(atom: Atom, route: Route)
    requires AllSliceable(DownloadLinks(atom))
  {
    route.services == [STORAGE] && route.middlewares == [HeadersName(atom.meta.name)] + ChainNames(atom)
  }

  /** Served paths need no cleaning, and neither they nor the feed names break a rule. */
  predicate Legible(atom: Atom) {
    && (forall url :: url in atom.ServedURLs() ==> CleanPath(url.path) && NoBacktick(url))
    && (forall feed :: feed in atom.spec.service.datasetFeeds ==> '/' !in feed.technicalName && '`' !in feed.technicalName)
  }

  // ----- One route

  lemma FeedFileIsPlain(atom: Atom, file: string)
    requires Legible(atom) && FeedFile(atom, file)
    ensures PlainFile(file)
  {
    assert '/' !in "index.xml" && '`' !in "index.xml";
    if file != "index.xml" {
      var feed :| feed in atom.spec.service.datasetFeeds && file == feed.technicalName + ".xml";
      assert file[|feed.technicalName| + 1] == 'x';
      assert '/' !in ".xml" && '`' !in ".xml";
    }
  }

  lemma FeedRouteAccepts(atom: Atom, url: URL, file: string, host: string, path: string)
    requires CleanPath(url.path) && NoBacktick(url) && PlainFile(file)
    ensures ToService(atom, FeedRoute(atom, url, file))
    ensures AcceptedBy(FeedRoute(atom, url, file), host, path) <==> Answers(url, host) && path == url.path + "/" + file
  {
    FeedRouteServes(atom, url, file);
  }

  lemma StorageRouteAccepts(atom: Atom, url: URL, host: string, path: string)
    requires AllSliceable(DownloadLinks(atom)) && CleanPath(url.path) && NoBacktick(url)
    ensures ToStorage(atom, StorageRoute(atom, url, ChainNames(atom)))
    ensures AcceptedBy(StorageRoute(atom, url, ChainNames(atom)), host, path) <==>
              Answers(url, host) && url.path + DOWNLOADS <= path
  {
    StorageRouteServes(atom, url);
  }

  lemma KindsDiffer(atom: Atom, route: Route)
    requires AllSliceable(DownloadLinks(atom))
    ensures !(ToService(atom, route) && ToStorage(atom, route))
  {
    assert "80" != "azure-storage";
  }

  /** The route of the URL for some file. */
  ghost predicate IsFeedRoute(atom: Atom, url: URL, route: Route) {
    exists file :: FeedFile(atom, file) && route == FeedRoute(atom, url, file)
  }

  /** The routes of a URL are those of its files and its downloads route. */
  lemma RouteOfURLIsOne(atom: Atom, url: URL, route: Route)
    requires AllSliceable(DownloadLinks(atom)) && route in RoutesForURL(atom, url, ChainNames(atom))
    ensures route == StorageRoute(atom, url, ChainNames(atom)) || IsFeedRoute(atom, url, route)
  {
    InThreeParts(FeedRoute(atom, url, "index.xml"), FeedRoutes(atom, url), StorageRoute(atom, url, ChainNames(atom)), route);
    if route in FeedRoutes(atom, url) {
      FeedRouteHasFile(atom, url, route);
    }
    IndexRouteHasFile(atom, url);
  }

  lemma InThreeParts(a: Route, bs: seq<Route>, c: Route, route: Route)
    ensures route in [a] + bs + [c] <==> route == a || route in bs || route == c
  {
  }

  lemma IndexRouteHasFile(atom: Atom, url: URL)
    ensures IsFeedRoute(atom, url, FeedRoute(atom, url, "index.xml"))
  {
    assert FeedFile(atom, "index.xml");
  }

  lemma FeedRouteHasFile(atom: Atom, url: URL, route: Route)
    requires route in FeedRoutes(atom, url)
    ensures IsFeedRoute(atom, url, route)
  {
    var feeds := atom.spec.service.datasetFeeds;
    var k :| 0 <= k < |feeds| && FeedRoutes(atom, url)[k] == route;
    assert feeds[k] in feeds && FeedFile(atom, feeds[k].technicalName + ".xml");
  }

  lemma StorageRouteOfURL(atom: Atom, url: URL)
    requires AllSliceable(DownloadLinks(atom))
    ensures StorageRoute(atom, url, ChainNames(atom)) in RoutesForURL(atom, url, ChainNames(atom))
  {
    var own := RoutesForURL(atom, url, ChainNames(atom));
    assert own[|own| - 1] == StorageRoute(atom, url, ChainNames(atom));
  }

  // ----- All routes

  function AllRoutes(atom: Atom): seq<Route>
    requires AllSliceable(DownloadLinks(atom))
  {
    RoutesForURLs(atom, atom.ServedURLs(), ChainNames(atom))
  }

  /** Some route to the Service lets the request through. */
  ghost predicate ReachesService(atom: Atom, host: string, path: string)
    requires AllSliceable(DownloadLinks(atom))
  {
    exists route :: route in AllRoutes(atom) && AcceptedBy(route, host, path) && ToService(atom, route)
  }

  /** Some route to the storage lets the request through. */
  ghost predicate ReachesStorage(atom: Atom, host: string, path: string)
    requires AllSliceable(DownloadLinks(atom))
  {
    exists route :: route in AllRoutes(atom) && AcceptedBy(route, host, path) && ToStorage(atom, route)
  }

  /** Every route leads to the Service or to the storage, through the middlewares for that. */
  lemma TwoKindsOfRoutes(atom: Atom, route: Route)
    requires AllSliceable(DownloadLinks(atom)) && Legible(atom) && route in AllRoutes(atom)
    ensures ToService(atom, route) || ToStorage(atom, route)
  {
    RoutesAreThoseOf(atom, atom.ServedURLs(), ChainNames(atom), route);
    var url :| url in atom.ServedURLs() && route in RoutesForURL(atom, url, ChainNames(atom));
    RouteOfURLIsOne(atom, url, route);
    StorageRouteAccepts(atom, url, "", "");
    if file :| FeedFile(atom, file) && route == FeedRoute(atom, url, file) {
      FeedFileIsPlain(atom, file);
      FeedRouteAccepts(atom, url, file, "", "");
    }
  }

  /** The Service gets exactly the requests for a file of a served URL. */
  lemma ReachesServiceExactly(atom: Atom, host: string, path: string)
    requires AllSliceable(DownloadLinks(atom)) && Legible(atom)
    ensures ReachesService(atom, host, path) <==>
              exists url, file :: url in atom.ServedURLs() && Answers(url, host) && FeedFile(atom, file) &&
                path == url.path + "/" + file
  {
    if ReachesService(atom, host, path) {
      var route :| route in AllRoutes(atom) && AcceptedBy(route, host, path) && ToService(atom, route);
      RoutesAreThoseOf(atom, atom.ServedURLs(), ChainNames(atom), route);
      var url :| url in atom.ServedURLs() && route in RoutesForURL(atom, url, ChainNames(atom));
      RouteOfURLIsOne(atom, url, route);
      StorageRouteAccepts(atom, url, host, path);
      KindsDiffer(atom, route);
      var file :| FeedFile(atom, file) && route == FeedRoute(atom, url, file);
      FeedFileIsPlain(atom, file);
      FeedRouteAccepts(atom, url, file, host, path);
    }
    if url, file :| url in atom.ServedURLs() && Answers(url, host) && FeedFile(atom, file) && path == url.path + "/" + file {
      FeedFileIsPlain(atom, file);
      FeedRouteAccepts(atom, url, file, host, path);
      FeedRouteListed(atom, url, file, ChainNames(atom));
      RoutesAreThoseOf(atom, atom.ServedURLs(), ChainNames(atom), FeedRoute(atom, url, file));
    }
  }

  /** The storage gets exactly the requests below the downloads path of a served URL. */
  lemma ReachesStorageExactly(atom: Atom, host: string, path: string)
    requires AllSliceable(DownloadLinks(atom)) && Legible(atom)
    ensures ReachesStorage(atom, host, path) <==>
              exists url :: url in atom.ServedURLs() && Answers(url, host) && url.path + DOWNLOADS <= path
  {
    if ReachesStorage(atom, host, path) {
      var route :| route in AllRoutes(atom) && AcceptedBy(route, host, path) && ToStorage(atom, route);
      RoutesAreThoseOf(atom, atom.ServedURLs(), ChainNames(atom), route);
      var url :| url in atom.ServedURLs() && route in RoutesForURL(atom, url, ChainNames(atom));
      RouteOfURLIsOne(atom, url, route);
      KindsDiffer(atom, route);
      if file :| FeedFile(atom, file) && route == FeedRoute(atom, url, file) {
        FeedFileIsPlain(atom, file);
        FeedRouteAccepts(atom, url, file, host, path);
      }
      StorageRouteAccepts(atom, url, host, path);
    }
    if url :| url in atom.ServedURLs() && Answers(url, host) && url.path + DOWNLOADS <= path {
      StorageRouteAccepts(atom, url, host, path);
      StorageRouteOfURL(atom, url);
      RoutesAreThoseOf(atom, atom.ServedURLs(), ChainNames(atom), StorageRoute(atom, url, ChainNames(atom)));
    }
  }

  // ----- Published requests

  /** Another served URL is this one's downloads directory, and the name is that of a feed file. */
  ghost predicate NameIsFeed(atom: Atom, path: string, host: string, name: string) {
    FeedFile(atom, name) &&
    exists other :: other in atom.ServedURLs() && Answers(other, host) && other.path == path + "/downloads"
  }

  /** This served path is or lies below the downloads directory of another. */
  ghost predicate BelowDownloads(atom: Atom, path: string, host: string) {
    exists other :: other in atom.ServedURLs() && Answers(other, host) && other.path + DOWNLOADS <= path + "/"
  }

  lemma RequestIsFile(path: string, name: string, other: string, file: string)
    requires '/' !in name && '/' !in file
    ensures Request(path, name) == other + "/" + file <==> other == path + "/downloads" && file == name
  {
    assert Request(path, name) == (path + "/downloads") + ['/'] + name;
    if Request(path, name) == other + "/" + file {
      LastCutUnique(path + "/downloads", name, other, file, '/');
    }
  }

  /** This path's downloads directory is or lies below that of a served URL. */
  ghost predicate WithinDownloads(atom: Atom, path: string, host: string) {
    exists other :: other in atom.ServedURLs() && Answers(other, host) && other.path + DOWNLOADS <= path + DOWNLOADS
  }

  /** A served URL has this path. */
  ghost predicate ServesPath(atom: Atom, path: string, host: string) {
    exists other :: other in atom.ServedURLs() && Answers(other, host) && other.path == path
  }

  /** Which routes let a download request through, whoever publishes it. */
  lemma DownloadAcceptedExactly(atom: Atom, path: string, host: string, name: string)
    requires AllSliceable(DownloadLinks(atom)) && Legible(atom) && '/' !in name
    ensures ReachesStorage(atom, host, Request(path, name)) <==> WithinDownloads(atom, path, host)
    ensures ReachesService(atom, host, Request(path, name)) <==> NameIsFeed(atom, path, host, name)
  {
    ReachesStorageExactly(atom, host, Request(path, name));
    forall other | other in atom.ServedURLs()
      ensures other.path + DOWNLOADS <= Request(path, name) <==> other.path + DOWNLOADS <= path + DOWNLOADS
    {
      assert path + DOWNLOADS == path + "/downloads" + "/" && Request(path, name) == path + "/downloads" + "/" + name;
      PrefixEndsBeforeName(other.path + DOWNLOADS, path + "/downloads", name);
    }
    DownloadForService(atom, path, host, name);
  }

  lemma DownloadForService(atom: Atom, path: string, host: string, name: string)
    requires AllSliceable(DownloadLinks(atom)) && Legible(atom) && '/' !in name
    ensures ReachesService(atom, host, Request(path, name)) <==> NameIsFeed(atom, path, host, name)
  {
    var request := Request(path, name);
    ReachesServiceExactly(atom, host, request);
    if other, file :| other in atom.ServedURLs() && Answers(other, host) && FeedFile(atom, file) && request == other.path + "/" + file {
      FeedFileIsPlain(atom, file);
      RequestIsFile(path, name, other.path, file);
    }
    if other :| other in atom.ServedURLs() && Answers(other, host) && other.path == path + "/downloads" && FeedFile(atom, name) {
      RequestIsFile(path, name, other.path, name);
    }
  }

  /** Which routes let the request for a file through, whoever publishes it. */
  lemma FileAcceptedExactly(atom: Atom, path: string, host: string, file: string)
    requires AllSliceable(DownloadLinks(atom)) && Legible(atom) && '/' !in file
    ensures ReachesService(atom, host, path + "/" + file) <==> FeedFile(atom, file) && ServesPath(atom, path, host)
    ensures ReachesStorage(atom, host, path + "/" + file) <==> BelowDownloads(atom, path, host)
  {
    var request := path + "/" + file;
    ReachesServiceExactly(atom, host, request);
    if other, name :| other in atom.ServedURLs() && Answers(other, host) && FeedFile(atom, name) && request == other.path + "/" + name {
      FeedFileIsPlain(atom, name);
      LastCutUnique(path, file, other.path, name, '/');
    }
    ReachesStorageExactly(atom, host, request);
    forall other | other in atom.ServedURLs()
      ensures other.path + DOWNLOADS <= request <==> other.path + DOWNLOADS <= path + "/"
    {
      PrefixEndsBeforeName(other.path + DOWNLOADS, path, file);
    }
  }

  /**
   * A download request at a served URL is let through to the storage, and it is let through to the Service
   * as well exactly when another served URL is its downloads directory and has a feed of that name.
   */
  lemma DownloadAccepted(atom: Atom, url: URL, host: string, name: string)
    requires AllSliceable(DownloadLinks(atom)) && Legible(atom)
    requires url in atom.ServedURLs() && Answers(url, host) && '/' !in name
    ensures ReachesStorage(atom, host, Request(url.path, name))
    ensures ReachesService(atom, host, Request(url.path, name)) <==> NameIsFeed(atom, url.path, host, name)
  {
    DownloadAcceptedExactly(atom, url.path, host, name);
    assert url.path + DOWNLOADS <= url.path + DOWNLOADS;
  }

  /**
   * A request for a file of a served URL is let through to the Service, and it is let through to the storage
   * as well exactly when the URL's path is or lies below the downloads directory of another served URL.
   */
  lemma FeedAccepted(atom: Atom, url: URL, host: string, file: string)
    requires AllSliceable(DownloadLinks(atom)) && Legible(atom)
    requires url in atom.ServedURLs() && Answers(url, host) && FeedFile(atom, file)
    ensures ReachesService(atom, host, url.path + "/" + file)
    ensures ReachesStorage(atom, host, url.path + "/" + file) <==> BelowDownloads(atom, url.path, host)
  {
    FeedFileIsPlain(atom, file);
    FileAcceptedExactly(atom, url.path, host, file);
  }
}
