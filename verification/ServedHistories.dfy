/** What a history of accepted updates means for the routes that are generated at each moment. */
module ServedHistories {
  import opened Wrappers
  import opened Urls
  import opened AtomTypes
  import opened KubeObjects
  import opened Middlewares
  import opened IngressRoutes
  import opened Platforms
  import opened Validation
  import opened Admission

  /** The URL has its own index route, a route per feed, and its downloads route. */
  ghost predicate FullyRouted(atom: Atom, routes: seq<Route>, url: URL)
    requires AllSliceable(DownloadLinks(atom))
  {
    && (forall file :: FeedFile(atom, file) && PlainFile(file) ==>
          exists route :: route in routes && ServesFile(atom, route, url, file))
    && (exists route :: route in routes && ServesDownloads(atom, route, url))
  }

  /** The URL can be written into a rule and read back. */
  predicate Writable(url: URL) {
    CleanPath(url.path) && NoBacktick(url)
  }

  /**
   * Over an accepted, schema-valid history, each URL that was ever the base URL or listed is the text of a URL
   * that is served at every later moment, and the IngressRoute generated then has all its routes.
   */
  lemma KnownURLsStayRouted(
    owners: seq<Option<Owners>>, history: seq<Atom>, i: nat, j: nat, text: string, uptime: UptimeAnnotations,
    stored: IngressRoute)
    requires AcceptedHistory(owners, history) && SchemaValidURLs(history)
    requires i <= j < |history| && text in Known(history[i]) && AllSliceable(DownloadLinks(history[j]))
    ensures exists url :: url in history[j].ServedURLs() && url.String() == text &&
              (Writable(url) ==> FullyRouted(history[j], IngressRouteFor(history[j], uptime, stored).routes, url))
  {
    URLsStayServed(owners, history, i, j);
    var url :| url in history[j].ServedURLs() && url.String() == text;
    if Writable(url) {
      ServedURLHasItsRoutes(history[j], uptime, stored, url);
    }
  }
}
