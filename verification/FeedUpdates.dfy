/**
 * What feed requests meet while a reconcile is under way. The strip middleware is rewritten some steps before
 * the IngressRoute, so for a while the route of the old version strips the prefixes of the new one.
 */
module FeedUpdates {
  import opened Urls
  import opened AtomTypes
  import opened KubeObjects
  import opened Traefik
  import opened Middlewares
  import opened DownloadRouting
  import opened IngressRoutes
  import opened RequestRouting
  import opened Platforms
  import opened Workloads
  import opened Reconciling
  import opened ObjectKeys
  import opened StepSafety
  import opened OperatorRuns
  import opened Convergence
  import opened ServedState
  import opened RollingUpdates

  /** The versions of an atom, and a feed file that both have at a URL that both serve. */
  datatype SharedFeed = SharedFeed(current: Atom, next: Atom, url: URL, file: string) {

    ghost predicate Valid() {
      && current.meta.name == next.meta.name
      && AllSliceable(DownloadLinks(current)) && AllSliceable(DownloadLinks(next))
      && Legible(current) && Legible(next)
      && url in current.ServedURLs() && url in next.ServedURLs()
      && FeedFile(current, file) && FeedFile(next, file)
    }

    function Path(): string {
      url.path + "/" + file
    }
  }

  /** The store has the routes of the version, its strip middleware, and a headers middleware. */
  ghost predicate FeedsDeployed(atom: Atom, store: Store)
    requires AllSliceable(DownloadLinks(atom))
  {
    && HasRoutesOf(atom, store) && HeadersThere(store, HeadersName(atom.meta.name))
    && SpecIs(store, StripPrefixName(atom.meta.name), StripPrefix(StripPrefixes(atom)))
  }

  lemma CompletedFeeds(pf: Platform, atom: Atom, text: string, before: Store, after: Store)
    requires AllSliceable(DownloadLinks(atom)) && Completed(pf, atom, text, before, after)
    ensures FeedsDeployed(atom, after)
  {
    RoutesAreCurrent(pf, atom, before, after);
    HeadersHeld(pf, atom, before, after);
    StripPrefixHeld(pf, atom, before, after);
  }

  // ----- The strip middleware midway

  lemma StripStepIsFourth(pf: Platform, atom: Atom, text: string, order: seq<string>, m: nat)
    requires AllSliceable(DownloadLinks(atom)) && IsOrder(atom, order) && m < |order| + 7
    ensures m == 3 <==> PlannedSteps(pf, atom, text, order)[m] == EnsureStripPrefix
  {
    DownloadsApart(atom, order);
    var core, downloads := CoreSteps(pf, atom, text), DownloadSteps(atom, order);
    assert PlannedSteps(pf, atom, text, order)[m]
           == if m < 5 then core[m] else if m < 5 + |order| then downloads[m - 5] else FINAL_STEPS[m - 5 - |order|];
  }

  /** The strip middleware is that of the new version from its step on. */
  lemma StripMade(pf: Platform, atom: Atom, text: string, order: seq<string>, k: nat, store: Store, mid: Store)
    requires AllSliceable(DownloadLinks(atom)) && IsOrder(atom, order) && 3 < k <= |order| + 7
    requires Reached(pf, atom, PlannedSteps(pf, atom, text, order)[..k], store, mid)
    ensures SpecIs(mid, StripPrefixName(atom.meta.name), StripPrefix(StripPrefixes(atom)))
  {
    StripStepIsFourth(pf, atom, text, order, 3);
    var done := PlannedSteps(pf, atom, text, order)[..k];
    assert Holds(pf, atom, done[3], store, mid);
    StripPrefixHeld(pf, atom, store, mid);
  }

  lemma StripUnmade(pf: Platform, atom: Atom, text: string, order: seq<string>, k: nat, store: Store, mid: Store)
    requires HashLaws(pf) && AllSliceable(DownloadLinks(atom)) && IsOrder(atom, order) && k <= 3
    requires Reached(pf, atom, PlannedSteps(pf, atom, text, order)[..k], store, mid)
    ensures SameAt(MiddlewareKey(StripPrefixName(atom.meta.name)), store, mid)
  {
    var name, done := atom.meta.name, PlannedSteps(pf, atom, text, order)[..k];
    forall m | 0 <= m < |done|
      ensures !SameObject(done[m], EnsureStripPrefix)
    {
      StripStepIsFourth(pf, atom, text, order, m);
    }
    NotTouchedUnless(pf, name, done, EnsureStripPrefix);
    assert KeyOf(pf, name, EnsureStripPrefix) == MiddlewareKey(StripPrefixName(name));
  }

  /** The version whose prefixes are stripped after `k` steps. */
  function Stripping(s: SharedFeed, k: nat): Atom {
    if k <= 3 then s.current else s.next
  }

  /** The version whose routes are stored after `k` of the steps with this many groups. */
  function Routing(s: SharedFeed, groups: nat, k: nat): Atom {
    if k <= groups + 5 then s.current else s.next
  }

  lemma StripMidway(pf: Platform, s: SharedFeed, text: string, order: seq<string>, k: nat, store: Store, mid: Store)
    requires HashLaws(pf) && s.Valid() && IsOrder(s.next, order) && k <= |order| + 7 && FeedsDeployed(s.current, store)
    requires Reached(pf, s.next, PlannedSteps(pf, s.next, text, order)[..k], store, mid)
    ensures SpecIs(mid, StripPrefixName(s.next.meta.name), StripPrefix(StripPrefixes(Stripping(s, k))))
  {
    if k <= 3 {
      StripUnmade(pf, s.next, text, order, k, store, mid);
    } else {
      StripMade(pf, s.next, text, order, k, store, mid);
    }
  }

  // ----- The feed midway

  /** Whatever route of the store accepts the request for the feed sends it to the Service as the bare file. */
  ghost predicate FeedServedAt(s: SharedFeed, store: Store, host: string) {
    Dispatched(store, s.current.meta.name, host, s.Path(), [ServiceBackend(s.current)], "/" + s.file)
  }

  /** With the routes of one version and the strip middleware of either, both have a say. */
  lemma ServedByVersions(s: SharedFeed, routing: Atom, stripping: Atom, store: Store, host: string)
    requires s.Valid() && Answers(s.url, host)
    requires (routing == s.current || routing == s.next) && (stripping == s.current || stripping == s.next)
    requires HasRoutesOf(routing, store) && HeadersThere(store, HeadersName(routing.meta.name))
    requires SpecIs(store, StripPrefixName(routing.meta.name), StripPrefix(StripPrefixes(stripping)))
    ensures s.url.path + "/" in StripPrefixes(stripping)
    ensures FeedServedAt(s, store, host) <==>
              FirstToMatch(StripPrefixes(stripping), s.url.path + "/") && !BelowDownloads(routing, s.url.path, host)
  {
    var headers, strip := HeadersName(routing.meta.name), StripPrefixName(routing.meta.name);
    FeedFileIsPlain(routing, s.file);
    FeedAccepted(routing, s.url, host, s.file);
    DispatchedToService(routing, store, host, s.Path(), "/" + s.file);
    StrippedBy(store, headers, strip, StripPrefixes(stripping), s.Path());
    FeedRequestReachesItsFile(stripping, s.url, s.file);
  }

  lemma StrippedBy(store: Store, headers: string, strip: string, prefixes: seq<string>, path: string)
    requires HeadersThere(store, headers) && SpecIs(store, strip, StripPrefix(prefixes))
    ensures RunNamed(store, [headers, strip], path) == RunMiddleware(StripPrefix(prefixes), path)
  {
    assert [headers, strip] == [headers] + [strip];
    HeadersFirst(store, headers, [strip], path);
    OneMiddleware(store, strip, StripPrefix(prefixes), path);
  }

  /** After `k` steps the version that strips and the version that routes decide. */
  lemma FeedMidway(pf: Platform, s: SharedFeed, text: string, order: seq<string>, k: nat, store: Store, host: string)
    requires HashLaws(pf) && s.Valid() && Answers(s.url, host) && IsOrder(s.next, order) && k <= |order| + 7
    requires Intact(pf, s.next.meta.name, store) && FeedsDeployed(s.current, store)
    ensures s.url.path + "/" in StripPrefixes(Stripping(s, k))
    ensures FeedServedAt(s, Midway(pf, s.next, PlannedSteps(pf, s.next, text, order), k, store), host) <==>
              FirstToMatch(StripPrefixes(Stripping(s, k)), s.url.path + "/") &&
              !BelowDownloads(Routing(s, |order|, k), s.url.path, host)
  {
    var mid := Midway(pf, s.next, PlannedSteps(pf, s.next, text, order), k, store);
    MidwayReached(pf, s.next, text, order, k, store);
    HeadersMidway(pf, s.next, text, order, k, store, mid);
    StripMidway(pf, s, text, order, k, store, mid);
    RoutesMidway(pf, s.next, text, order, k, store, mid);
    if k <= |order| + 5 {
      RoutesFrame(s.current, store, mid);
    }
    ServedByVersions(s, Routing(s, |order|, k), Stripping(s, k), mid, host);
  }

  // ----- Main result

  lemma OwnPrefixListed(s: SharedFeed)
    requires s.Valid()
    ensures s.url.path + "/" in StripPrefixes(s.current) && s.url.path + "/" in StripPrefixes(s.next)
  {
    FeedFileIsPlain(s.current, s.file);
    FeedRequestReachesItsFile(s.current, s.url, s.file);
    FeedRequestReachesItsFile(s.next, s.url, s.file);
  }

  /** Each version strips the URL's own prefix first, and neither has the URL below another one's downloads. */
  ghost predicate NoFeedGap(s: SharedFeed, host: string)
    requires s.Valid()
  {
    OwnPrefixListed(s);
    && FirstToMatch(StripPrefixes(s.current), s.url.path + "/") && FirstToMatch(StripPrefixes(s.next), s.url.path + "/")
    && !BelowDownloads(s.current, s.url.path, host) && !BelowDownloads(s.next, s.url.path, host)
  }

  ghost predicate FeedServedMidway(
    pf: Platform, s: SharedFeed, text: string, order: seq<string>, k: nat, store: Store, host: string)
    requires s.Valid() && IsOrder(s.next, order) && k <= |order| + 7
  {
    FeedServedAt(s, Midway(pf, s.next, PlannedSteps(pf, s.next, text, order), k, store), host)
  }

  /** The feed is served in every state midway, whatever the order of the groups. */
  ghost predicate FeedServedThroughout(pf: Platform, s: SharedFeed, text: string, store: Store, host: string)
    requires s.Valid()
  {
    forall order, k :: IsOrder(s.next, order) && 0 <= k <= |order| + 7 ==> FeedServedMidway(pf, s, text, order, k, store, host)
  }

  /** The order in which the groups first occur. */
  lemma NaturalOrder(atom: Atom)
    requires AllSliceable(DownloadLinks(atom))
    ensures IsOrder(atom, GroupOrder(DownloadLinks(atom)))
  {
  }

  lemma NoFeedGapSuffices(pf: Platform, s: SharedFeed, text: string, order: seq<string>, k: nat, store: Store, host: string)
    requires HashLaws(pf) && s.Valid() && Answers(s.url, host) && IsOrder(s.next, order) && k <= |order| + 7
    requires Intact(pf, s.next.meta.name, store) && FeedsDeployed(s.current, store) && NoFeedGap(s, host)
    ensures FeedServedMidway(pf, s, text, order, k, store, host)
  {
    FeedMidway(pf, s, text, order, k, store, host);
  }

  /** The first and the last state show the gaps of both versions. */
  lemma FeedGapIsSeen(pf: Platform, s: SharedFeed, text: string, order: seq<string>, store: Store, host: string)
    requires HashLaws(pf) && s.Valid() && Answers(s.url, host) && IsOrder(s.next, order)
    requires Intact(pf, s.next.meta.name, store) && FeedsDeployed(s.current, store)
    requires FeedServedMidway(pf, s, text, order, 0, store, host)
    requires FeedServedMidway(pf, s, text, order, |order| + 7, store, host)
    ensures NoFeedGap(s, host)
  {
    OwnPrefixListed(s);
    FeedMidway(pf, s, text, order, 0, store, host);
    FeedMidway(pf, s, text, order, |order| + 7, store, host);
  }

  /**
   * While a reconcile brings the new version, a feed that both versions have is served in every state in
   * between, for every order of the groups, if and only if there is no gap in either version.
   */
  lemma FeedServedThroughoutExactly(pf: Platform, s: SharedFeed, text: string, store: Store, host: string)
    requires HashLaws(pf) && s.Valid() && Answers(s.url, host)
    requires Intact(pf, s.next.meta.name, store) && FeedsDeployed(s.current, store)
    ensures FeedServedThroughout(pf, s, text, store, host) <==> NoFeedGap(s, host)
  {
    if NoFeedGap(s, host) {
      forall order, k | IsOrder(s.next, order) && 0 <= k <= |order| + 7
        ensures FeedServedMidway(pf, s, text, order, k, store, host)
      {
        NoFeedGapSuffices(pf, s, text, order, k, store, host);
      }
    } else if FeedServedThroughout(pf, s, text, store, host) {
      var order := GroupOrder(DownloadLinks(s.next));
      NaturalOrder(s.next);
      assert 0 <= |order| + 7;
      FeedGapIsSeen(pf, s, text, order, store, host);
    }
  }
}
