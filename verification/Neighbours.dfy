/**
 * Two atoms in one namespace: when a stored route of one accepts a request that the other publishes. Nothing in
 * the webhook or the operator looks at more than one atom, and every rule answers to the local host as well.
 */
module Neighbours {
  import opened Strings
  import opened Urls
  import opened AtomTypes
  import opened RewriteChains
  import opened DownloadRouting
  import opened IngressRoutes
  import opened RequestRouting
  import opened Platforms
  import opened Workloads
  import opened Reconciling
  import opened OperatorRuns

  /** The atom publishes the request: for a file of a served URL, or for one of its downloads there. */
  ghost predicate Publishes(atom: Atom, url: URL, host: string, path: string) {
    url in atom.ServedURLs() && Answers(url, host) && (PublishesFile(atom, url, path) || PublishesDownload(atom, url, path))
  }

  ghost predicate PublishesFile(atom: Atom, url: URL, path: string) {
    exists file :: FeedFile(atom, file) && path == url.path + "/" + file
  }

  ghost predicate PublishesDownload(atom: Atom, url: URL, path: string) {
    exists link :: link in DownloadLinks(atom) && path == Request(url.path, link.GetBlobName())
  }

  /** A stored route of the atom accepts the request. */
  ghost predicate Takes(atomName: string, store: Store, host: string, path: string) {
    exists route :: route in StoredRoutes(atomName, store) && AcceptedBy(route, host, path)
  }

  /** One of the atom's downloads is named like a feed file of the other. */
  ghost predicate SharesName(atom: Atom, other: Atom) {
    exists link :: link in DownloadLinks(atom) && FeedFile(other, link.GetBlobName())
  }

  /**
   * What a URL of one atom has in common with a URL of another: its path, or a path below the other's downloads,
   * or its downloads directory is the other's path and a download is named like a feed file there.
   */
  ghost predicate Overlaps(atom: Atom, path: string, other: Atom, path': string) {
    path' == path || path' + DOWNLOADS <= path + "/" || (path' == path + "/downloads" && SharesName(atom, other))
  }

  // ----- One request

  lemma TakesExactly(other: Atom, store: Store, host: string, path: string)
    requires HasRoutesOf(other, store) && Legible(other)
    ensures Takes(other.meta.name, store, host, path) <==> ReachesService(other, host, path) || ReachesStorage(other, host, path)
  {
    assert StoredRoutes(other.meta.name, store) == AllRoutes(other);
    if route :| route in AllRoutes(other) && AcceptedBy(route, host, path) {
      TwoKindsOfRoutes(other, route);
    }
  }

  /** Downloads of a path that lie within those of another path: the paths are the same, or the path lies below. */
  lemma DownloadsWithin(path: string, path': string)
    ensures path' + DOWNLOADS <= path + DOWNLOADS <==> path' == path || path' + DOWNLOADS <= path + "/"
  {
    var inner, outer := path' + DOWNLOADS, path + DOWNLOADS;
    assert '/' !in "downloads" && outer == path + "/" + "downloads" + "/";
    PrefixEndsBeforeName(inner, path, "downloads");
    if inner <= outer {
      LastOrWithin(inner, path + "/" + "downloads");
      if inner == outer {
        CancelSuffix(path', path, DOWNLOADS);
      }
    }
  }

  lemma LastOrWithin(inner: string, s: string)
    requires inner <= s + "/"
    ensures inner == s + "/" || inner <= s
  {
    if |inner| <= |s| {
      assert inner == (s + "/")[..|inner|] == s[..|inner|];
    }
  }

  /** Two URLs always share a host: the local one. */
  lemma SharedHost(url: URL, other: URL) returns (host: string)
    ensures Answers(url, host) && Answers(other, host)
  {
    host := "localhost";
  }

  /** What the other accepts of the requests that are published at this URL, at this host. */
  ghost predicate OverlapsAt(atom: Atom, path: string, other: Atom, host: string) {
    exists url :: url in other.ServedURLs() && Answers(url, host) && Overlaps(atom, path, other, url.path)
  }

  lemma FileTakenExactly(url: URL, other: Atom, store: Store, host: string, file: string)
    requires HasRoutesOf(other, store) && Legible(other) && '/' !in file
    ensures Takes(other.meta.name, store, host, url.path + "/" + file) <==>
              (FeedFile(other, file) && ServesPath(other, url.path, host)) || BelowDownloads(other, url.path, host)
  {
    TakesExactly(other, store, host, url.path + "/" + file);
    FileAcceptedExactly(other, url.path, host, file);
  }

  lemma DownloadTakenExactly(url: URL, other: Atom, store: Store, host: string, name: string)
    requires HasRoutesOf(other, store) && Legible(other) && '/' !in name
    ensures Takes(other.meta.name, store, host, Request(url.path, name)) <==>
              NameIsFeed(other, url.path, host, name) || ServesPath(other, url.path, host) || BelowDownloads(other, url.path, host)
  {
    TakesExactly(other, store, host, Request(url.path, name));
    DownloadAcceptedExactly(other, url.path, host, name);
    forall u | u in other.ServedURLs()
      ensures u.path + DOWNLOADS <= url.path + DOWNLOADS <==> u.path == url.path || u.path + DOWNLOADS <= url.path + "/"
    {
      DownloadsWithin(url.path, u.path);
    }
  }

  // ----- All requests

  /** The other takes some of what is published at the URL. */
  ghost predicate TakesSome(atom: Atom, url: URL, other: Atom, store: Store, host: string) {
    exists path :: Publishes(atom, url, host, path) && Takes(other.meta.name, store, host, path)
  }

  lemma TakenOverlaps(atom: Atom, url: URL, other: Atom, store: Store, host: string, path: string)
    requires Legible(atom) && Legible(other) && HasRoutesOf(other, store)
    requires Publishes(atom, url, host, path) && Takes(other.meta.name, store, host, path)
    ensures OverlapsAt(atom, url.path, other, host)
  {
    if file :| FeedFile(atom, file) && path == url.path + "/" + file {
      FeedFileIsPlain(atom, file);
      FileTakenExactly(url, other, store, host, file);
    } else {
      var link :| link in DownloadLinks(atom) && path == Request(url.path, link.GetBlobName());
      DownloadTakenExactly(url, other, store, host, link.GetBlobName());
    }
  }

  lemma OverlapTaken(atom: Atom, url: URL, other: Atom, store: Store, host: string)
    requires Legible(atom) && Legible(other) && HasRoutesOf(other, store)
    requires url in atom.ServedURLs() && Answers(url, host) && OverlapsAt(atom, url.path, other, host)
    ensures TakesSome(atom, url, other, store, host)
  {
    var u :| u in other.ServedURLs() && Answers(u, host) && Overlaps(atom, url.path, other, u.path);
    if u.path == url.path || u.path + DOWNLOADS <= url.path + "/" {
      IndexTaken(atom, url, other, store, host);
    } else {
      var link :| link in DownloadLinks(atom) && FeedFile(other, link.GetBlobName());
      DownloadTakenExactly(url, other, store, host, link.GetBlobName());
      assert PublishesDownload(atom, url, Request(url.path, link.GetBlobName()));
    }
  }

  lemma IndexTaken(atom: Atom, url: URL, other: Atom, store: Store, host: string)
    requires Legible(other) && HasRoutesOf(other, store) && url in atom.ServedURLs() && Answers(url, host)
    requires ServesPath(other, url.path, host) || BelowDownloads(other, url.path, host)
    ensures TakesSome(atom, url, other, store, host)
  {
    assert '/' !in "index.xml";
    FileTaken(atom, url, other, store, host, "index.xml");
  }

  lemma FileTaken(atom: Atom, url: URL, other: Atom, store: Store, host: string, file: string)
    requires Legible(other) && HasRoutesOf(other, store) && url in atom.ServedURLs() && Answers(url, host)
    requires FeedFile(atom, file) && FeedFile(other, file) && '/' !in file
    requires ServesPath(other, url.path, host) || BelowDownloads(other, url.path, host)
    ensures TakesSome(atom, url, other, store, host)
  {
    FilePublished(atom, url, host, file);
    FileTakenExactly(url, other, store, host, file);
    PublishedAndTaken(atom, url, other, store, host, url.path + "/" + file);
  }

  lemma FilePublished(atom: Atom, url: URL, host: string, file: string)
    requires url in atom.ServedURLs() && Answers(url, host) && FeedFile(atom, file)
    ensures Publishes(atom, url, host, url.path + "/" + file)
  {
    assert PublishesFile(atom, url, url.path + "/" + file);
  }

  lemma PublishedAndTaken(atom: Atom, url: URL, other: Atom, store: Store, host: string, path: string)
    requires Publishes(atom, url, host, path) && Takes(other.meta.name, store, host, path)
    ensures TakesSome(atom, url, other, store, host)
  {
  }

  /**
   * At a host, the stored routes of another atom take some of what is published at a URL exactly when a URL of the
   * other that answers to this host overlaps with it.
   */
  lemma TakesSomeExactly(atom: Atom, url: URL, other: Atom, store: Store, host: string)
    requires Legible(atom) && Legible(other) && HasRoutesOf(other, store)
    requires url in atom.ServedURLs() && Answers(url, host)
    ensures TakesSome(atom, url, other, store, host) <==> OverlapsAt(atom, url.path, other, host)
  {
    if path :| Publishes(atom, url, host, path) && Takes(other.meta.name, store, host, path) {
      TakenOverlaps(atom, url, other, store, host, path);
    }
    if OverlapsAt(atom, url.path, other, host) {
      OverlapTaken(atom, url, other, store, host);
    }
  }

  /** No URL of the one overlaps with a URL of the other, whatever their hosts. */
  ghost predicate KeepApart(atom: Atom, other: Atom) {
    forall url, url' :: url in atom.ServedURLs() && url' in other.ServedURLs() ==> !Overlaps(atom, url.path, other, url'.path)
  }

  /** No stored route of the other ever accepts what the atom publishes, at whatever host. */
  ghost predicate LeavesAlone(atom: Atom, other: Atom, store: Store) {
    forall url, host :: url in atom.ServedURLs() && Answers(url, host) ==> !TakesSome(atom, url, other, store, host)
  }

  /** Another atom leaves all published requests alone exactly when the paths and file names are apart. */
  lemma LeavesAloneExactly(atom: Atom, other: Atom, store: Store)
    requires Legible(atom) && Legible(other) && HasRoutesOf(other, store)
    ensures LeavesAlone(atom, other, store) <==> KeepApart(atom, other)
  {
    if KeepApart(atom, other) {
      forall url, host | url in atom.ServedURLs() && Answers(url, host)
        ensures !TakesSome(atom, url, other, store, host)
      {
        TakesSomeExactly(atom, url, other, store, host);
      }
    }
    if url, url' :| url in atom.ServedURLs() && url' in other.ServedURLs() && Overlaps(atom, url.path, other, url'.path) {
      OverlapIsNotAlone(atom, url, other, url', store);
    }
  }

  lemma OverlapIsNotAlone(atom: Atom, url: URL, other: Atom, url': URL, store: Store)
    requires Legible(atom) && Legible(other) && HasRoutesOf(other, store)
    requires url in atom.ServedURLs() && url' in other.ServedURLs() && Overlaps(atom, url.path, other, url'.path)
    ensures !LeavesAlone(atom, other, store)
  {
    var host := SharedHost(url, url');
    assert OverlapsAt(atom, url.path, other, host);
    TakesSomeExactly(atom, url, other, store, host);
  }

  /** So it is in every state of every run, for the version that the other's stored routes were made from. */
  lemma NeighboursInRuns(pf: Platform, events: seq<Event>, trace: seq<World>, i: nat, atom: Atom, name: string)
    requires HashLaws(pf) && Behaviour(pf, events, trace) && Inv(pf, trace[0]) && i < |trace|
    requires name in trace[i].atoms && name in trace[i].published && Legible(atom) && Legible(trace[i].published[name])
    ensures LeavesAlone(atom, trace[i].published[name], trace[i].store) <==> KeepApart(atom, trace[i].published[name])
  {
    EveryStateIsSound(pf, events, trace, i);
    RoutesArePublished(pf, trace[i], name);
    LeavesAloneExactly(atom, trace[i].published[name], trace[i].store);
  }

  lemma RoutesArePublished(pf: Platform, w: World, name: string)
    requires Inv(pf, w) && name in w.atoms && name in w.published
    ensures HasRoutesOf(w.published[name], w.store)
  {
    assert AtomSound(pf, w, name);
  }
}
