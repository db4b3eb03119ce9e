/**
 * What the objects in the store do together after a fault-free reconcile: the Deployment mounts the
 * configuration of the current atom, and requests that the stored routes accept are rewritten, by the stored
 * middlewares that they name, to what the feeds publish.
 */
module ServedState {
  import opened Wrappers
  import opened Sequences
  import opened Urls
  import opened AtomTypes
  import opened KubeObjects
  import opened Traefik
  import opened Middlewares
  import opened RewriteChains
  import opened DownloadRouting
  import opened IngressRoutes
  import opened RequestRouting
  import opened Platforms
  import opened Workloads
  import opened Reconciling
  import opened StepSafety
  import opened OperatorRuns
  import opened Convergence

  // ----- The objects

  predicate SpecIs(store: Store, name: string, spec: MiddlewareSpec) {
    MiddlewareKey(name) in store && store[MiddlewareKey(name)].middleware.spec == spec
  }

  /** The Deployment mounts a ConfigMap that holds the text. */
  predicate Configured(pf: Platform, atomName: string, text: string, store: Store) {
    && DeploymentKey(atomName) in store && ConfigKey(pf, atomName, text) in store
    && MountedConfig(store[DeploymentKey(atomName)].deployment) == ConfigKey(pf, atomName, text)
    && store[ConfigKey(pf, atomName, text)].configMap.data == ConfigData(text)
    && store[ConfigKey(pf, atomName, text)].configMap.immutable
  }

  /** Every object of the plan is what its step makes of the object before. */
  ghost predicate Completed(pf: Platform, atom: Atom, text: string, before: Store, after: Store)
    requires AllSliceable(DownloadLinks(atom))
  {
    && Holds(pf, atom, EnsureConfigMap(text), before, after)
    && Holds(pf, atom, EnsureDeployment(ConfigName(pf, atom.meta.name, text)), before, after)
    && Holds(pf, atom, EnsureService, before, after)
    && Holds(pf, atom, EnsureStripPrefix, before, after)
    && Holds(pf, atom, EnsureHeaders, before, after)
    && Holds(pf, atom, EnsureIngressRoute, before, after)
    && Holds(pf, atom, EnsureBudget, before, after)
    && (forall i :: 0 <= i < |GroupOrder(DownloadLinks(atom))| ==> DownloadHolds(pf, atom, i, before, after))
  }

  predicate DownloadHolds(pf: Platform, atom: Atom, i: nat, before: Store, after: Store)
    requires AllSliceable(DownloadLinks(atom)) && i < |GroupOrder(DownloadLinks(atom))|
  {
    var prefix := GroupOrder(DownloadLinks(atom))[i];
    Holds(pf, atom, EnsureDownload(i, prefix, FilesWith(DownloadLinks(atom), prefix)), before, after)
  }

  /** Every step's object is what the step makes of the object before. */
  ghost predicate AllHeld(pf: Platform, atom: Atom, steps: seq<Step>, before: Store, after: Store)
    requires AllRunnable(atom, steps)
  {
    forall k :: 0 <= k < |steps| ==> Holds(pf, atom, steps[k], before, after)
  }

  lemma StepHolds(pf: Platform, atom: Atom, steps: seq<Step>, before: Store, after: Store, step: Step)
    requires AllRunnable(atom, steps) && step in steps && AllHeld(pf, atom, steps, before, after)
    ensures Runnable(atom, step) && Holds(pf, atom, step, before, after)
  {
    var k :| 0 <= k < |steps| && steps[k] == step;
    assert Holds(pf, atom, steps[k], before, after);
  }

  lemma FixedStepsPlanned(pf: Platform, atom: Atom, text: string, order: seq<string>)
    requires AllSliceable(DownloadLinks(atom)) && IsOrder(atom, order)
    ensures forall step :: step in CoreSteps(pf, atom, text) || step in FINAL_STEPS ==>
              step in CoreSteps(pf, atom, text) + LaterSteps(atom, order)
  {
  }

  lemma DownloadStepPlanned(atom: Atom, order: seq<string>, i: nat)
    requires AllSliceable(DownloadLinks(atom)) && IsOrder(atom, order) && i < |GroupOrder(DownloadLinks(atom))|
    ensures var links := DownloadLinks(atom);
            EnsureDownload(i, GroupOrder(links)[i], FilesWith(links, GroupOrder(links)[i])) in LaterSteps(atom, order)
  {
    var groups, downloads := GroupOrder(DownloadLinks(atom)), DownloadSteps(atom, order);
    assert groups[i] in order;
    var k :| 0 <= k < |order| && order[k] == groups[i];
    IndexOfUnique(groups, i);
    assert downloads[k] in downloads + FINAL_STEPS;
  }

  lemma ReachedCompletes(pf: Platform, atom: Atom, text: string, order: seq<string>, before: Store, after: Store)
    requires AllSliceable(DownloadLinks(atom)) && IsOrder(atom, order)
    requires var steps := CoreSteps(pf, atom, text) + LaterSteps(atom, order);
             AllRunnable(atom, steps) && Reached(pf, atom, steps, before, after)
    ensures Completed(pf, atom, text, before, after)
  {
    assert AllHeld(pf, atom, CoreSteps(pf, atom, text) + LaterSteps(atom, order), before, after);
    HeldCompletes(pf, atom, text, order, before, after);
  }

  lemma HeldCompletes(pf: Platform, atom: Atom, text: string, order: seq<string>, before: Store, after: Store)
    requires AllSliceable(DownloadLinks(atom)) && IsOrder(atom, order)
    requires var steps := CoreSteps(pf, atom, text) + LaterSteps(atom, order);
             AllRunnable(atom, steps) && AllHeld(pf, atom, steps, before, after)
    ensures Completed(pf, atom, text, before, after)
  {
    var core, later := CoreSteps(pf, atom, text), LaterSteps(atom, order);
    forall i | 0 <= i < |GroupOrder(DownloadLinks(atom))|
      ensures DownloadHolds(pf, atom, i, before, after)
    {
      var prefix := GroupOrder(DownloadLinks(atom))[i];
      DownloadStepPlanned(atom, order, i);
      StepHolds(pf, atom, core + later, before, after, EnsureDownload(i, prefix, FilesWith(DownloadLinks(atom), prefix)));
    }
    FixedStepsPlanned(pf, atom, text, order);
    assert FINAL_STEPS[0] == EnsureIngressRoute && FINAL_STEPS[1] == EnsureBudget;
    StepHolds(pf, atom, core + later, before, after, FINAL_STEPS[0]);
    StepHolds(pf, atom, core + later, before, after, FINAL_STEPS[1]);
    StepHolds(pf, atom, core + later, before, after, core[0]);
    StepHolds(pf, atom, core + later, before, after, core[1]);
    StepHolds(pf, atom, core + later, before, after, core[2]);
    StepHolds(pf, atom, core + later, before, after, core[3]);
    StepHolds(pf, atom, core + later, before, after, core[4]);
  }

  /** The Deployment points at the configuration with the given text. */
  lemma DeploymentIsConfigured(pf: Platform, atom: Atom, text: string, before: Store, after: Store)
    requires Intact(pf, atom.meta.name, before)
    requires Holds(pf, atom, EnsureConfigMap(text), before, after)
    requires Holds(pf, atom, EnsureDeployment(ConfigName(pf, atom.meta.name, text)), before, after)
    ensures Configured(pf, atom.meta.name, text, after)
  {
    ConfigMapData(pf, atom, text, before);
    assert KeyOf(pf, atom.meta.name, EnsureConfigMap(text)) == ConfigKey(pf, atom.meta.name, text);
  }

  /** The stored IngressRoute has the routes of the current atom. */
  lemma RoutesAreCurrent(pf: Platform, atom: Atom, before: Store, after: Store)
    requires AllSliceable(DownloadLinks(atom)) && Holds(pf, atom, EnsureIngressRoute, before, after)
    ensures HasRoutesOf(atom, after)
  {
    assert KeyOf(pf, atom.meta.name, EnsureIngressRoute) == RouteKey(atom.meta.name);
    MadeHasRoutes(pf, atom, Current(pf, atom.meta.name, EnsureIngressRoute, before), after);
  }

  lemma HeadersHeld(pf: Platform, atom: Atom, before: Store, after: Store)
    requires Holds(pf, atom, EnsureHeaders, before, after)
    ensures SpecIs(after, HeadersName(atom.meta.name), Headers(pf.csp, true, CORS_HEADERS))
  {
  }

  lemma StripPrefixHeld(pf: Platform, atom: Atom, before: Store, after: Store)
    requires Holds(pf, atom, EnsureStripPrefix, before, after)
    ensures SpecIs(after, StripPrefixName(atom.meta.name), StripPrefix(StripPrefixes(atom)))
  {
  }

  lemma DownloadHeld(pf: Platform, atom: Atom, i: nat, prefix: string, files: seq<string>, before: Store, after: Store)
    requires Holds(pf, atom, EnsureDownload(i, prefix, files), before, after)
    ensures SpecIs(after, DownloadName(atom.meta.name, i), DownloadLinkSpec(atom, prefix, files))
  {
  }

  lemma ChainSpecAt(atom: Atom, k: nat) returns (i: nat)
    requires AllSliceable(DownloadLinks(atom)) && k < |ChainNames(atom)|
    ensures i < |GroupOrder(DownloadLinks(atom))| && ChainNames(atom)[k] == DownloadName(atom.meta.name, i)
    ensures var prefix := GroupOrder(DownloadLinks(atom))[i];
            DownloadChain(atom)[k] == DownloadLinkSpec(atom, prefix, FilesWith(DownloadLinks(atom), prefix))
  {
    var name, groups := ChainNames(atom)[k], GroupOrder(DownloadLinks(atom));
    ChainNameIndex(atom.meta.name, |groups|, name);
    i := IndexOf(DownloadNames(atom.meta.name, |groups|), name);
    assert TargetNamed(atom, name) == GroupTarget(atom, i);
  }

  /** The middlewares that the downloads route names do what the current atom asks. */
  lemma ChainIsCurrent(pf: Platform, atom: Atom, text: string, before: Store, after: Store, k: nat)
    requires AllSliceable(DownloadLinks(atom)) && Completed(pf, atom, text, before, after)
    requires k < |ChainNames(atom)|
    ensures SpecIs(after, ChainNames(atom)[k], DownloadChain(atom)[k])
  {
    var i := ChainSpecAt(atom, k);
    var prefix := GroupOrder(DownloadLinks(atom))[i];
    assert DownloadHolds(pf, atom, i, before, after);
    DownloadHeld(pf, atom, i, prefix, FilesWith(DownloadLinks(atom), prefix), before, after);
  }

  // ----- Requests

  /** Runs a path through the stored middlewares with these names; None if one of them is missing or fails. */
  function RunNamed(store: Store, names: seq<string>, path: string): Option<string> {
    if names == [] then
      Some(path)
    else if MiddlewareKey(names[0]) !in store then
      None
    else
      var path' :- RunMiddleware(store[MiddlewareKey(names[0])].middleware.spec, path);
      RunNamed(store, names[1..], path')
  }

  lemma {:induction false} RunNamedResolves(store: Store, names: seq<string>, specs: seq<MiddlewareSpec>, path: string)
    requires |names| == |specs| && forall k :: 0 <= k < |names| ==> SpecIs(store, names[k], specs[k])
    ensures RunNamed(store, names, path) == RunMiddlewares(specs, path)
  {
    if names != [] {
      assert SpecIs(store, names[0], specs[0]);
      var path' := RunMiddleware(specs[0], path);
      if path'.Some? {
        forall k | 0 <= k < |names[1..]|
          ensures SpecIs(store, names[1..][k], specs[1..][k])
        {
          assert SpecIs(store, names[k + 1], specs[k + 1]);
        }
        RunNamedResolves(store, names[1..], specs[1..], path'.value);
      }
    }
  }

  /** There is a headers middleware of that name. */
  predicate HeadersThere(store: Store, name: string) {
    MiddlewareKey(name) in store && store[MiddlewareKey(name)].middleware.spec.Headers?
  }

  /** The headers middleware does not touch the path. */
  lemma HeadersFirst(store: Store, headers: string, names: seq<string>, path: string)
    requires HeadersThere(store, headers)
    ensures RunNamed(store, [headers] + names, path) == RunNamed(store, names, path)
  {
    assert ([headers] + names)[1..] == names;
  }

  /** The stored middlewares of the downloads route do what the download chain does. */
  lemma ChainResolves(pf: Platform, atom: Atom, text: string, before: Store, after: Store, path: string)
    requires AllSliceable(DownloadLinks(atom)) && Completed(pf, atom, text, before, after)
    ensures RunNamed(after, ChainNames(atom), path) == RunMiddlewares(DownloadChain(atom), path)
  {
    forall k | 0 <= k < |ChainNames(atom)|
      ensures SpecIs(after, ChainNames(atom)[k], DownloadChain(atom)[k])
    {
      ChainIsCurrent(pf, atom, text, before, after, k);
    }
    RunNamedResolves(after, ChainNames(atom), DownloadChain(atom), path);
  }

  lemma DownloadsRouteRuns(pf: Platform, atom: Atom, text: string, before: Store, after: Store, url: URL, path: string)
    requires AllSliceable(DownloadLinks(atom)) && Completed(pf, atom, text, before, after)
    ensures RunNamed(after, StorageRoute(atom, url, ChainNames(atom)).middlewares, path)
            == RunMiddlewares(DownloadChain(atom), path)
  {
    HeadersHeld(pf, atom, before, after);
    HeadersFirst(after, HeadersName(atom.meta.name), ChainNames(atom), path);
    ChainResolves(pf, atom, text, before, after, path);
  }

  lemma DownloadsRouteStored(atom: Atom, after: Store, url: URL)
    requires HasRoutesOf(atom, after) && url in atom.ServedURLs()
    ensures StorageRoute(atom, url, ChainNames(atom)) in StoredRoutes(atom.meta.name, after)
  {
    StorageRouteListed(atom, url);
  }

  lemma ReachesBlob(atom: Atom, link: DownloadLink, url: URL, result: Option<string>)
    requires Routable(atom) && link in DownloadLinks(atom) && url in atom.ServedURLs()
    requires Undisturbed(atom, url.path, link.GetBlobName())
    requires result == RunMiddlewares(DownloadChain(atom), Request(url.path, link.GetBlobName()))
    ensures result == Some("/" + link.data) <==> NotClaimedEarlier(atom, GroupIndex(atom, link), link.GetBlobName())
  {
    DownloadReachesItsBlob(atom, link, url);
  }

  /** The stored downloads route of the URL sends a request for the link's file to the link's blob. */
  predicate DownloadServed(atom: Atom, store: Store, url: URL, link: DownloadLink)
    requires AllSliceable(DownloadLinks(atom))
  {
    var route := StorageRoute(atom, url, ChainNames(atom));
    && route in StoredRoutes(atom.meta.name, store)
    && RunNamed(store, route.middlewares, Request(url.path, link.GetBlobName())) == Some("/" + link.data)
  }

  /**
   * A download request at a served URL, sent through the stored middlewares that the stored downloads route
   * names, arrives at the blob the link names, if and only if no earlier group claims the file name.
   */
  lemma StoredRouteReachesBlob(
    pf: Platform, atom: Atom, text: string, before: Store, after: Store, link: DownloadLink, url: URL)
    requires Routable(atom) && Completed(pf, atom, text, before, after)
    requires link in DownloadLinks(atom) && url in atom.ServedURLs()
    requires Undisturbed(atom, url.path, link.GetBlobName())
    ensures DownloadServed(atom, after, url, link) <==>
              NotClaimedEarlier(atom, GroupIndex(atom, link), link.GetBlobName())
  {
    RoutesAreCurrent(pf, atom, before, after);
    DownloadsRouteStored(atom, after, url);
    DownloadsRouteRuns(pf, atom, text, before, after, url, Request(url.path, link.GetBlobName()));
    ReachesBlob(atom, link, url, RunNamed(after, StorageRoute(atom, url, ChainNames(atom)).middlewares,
                                          Request(url.path, link.GetBlobName())));
  }

  lemma StorageRouteListed(atom: Atom, url: URL)
    requires AllSliceable(DownloadLinks(atom)) && url in atom.ServedURLs()
    ensures StorageRoute(atom, url, ChainNames(atom)) in RoutesForURLs(atom, atom.ServedURLs(), ChainNames(atom))
  {
    var own := RoutesForURL(atom, url, ChainNames(atom));
    assert own[|own| - 1] == StorageRoute(atom, url, ChainNames(atom));
    RouteOfServedURL(atom, url, StorageRoute(atom, url, ChainNames(atom)));
  }

  /** The stored route of the URL's file sends a request for it to the Service as a request for the bare file. */
  predicate FeedServed(atom: Atom, store: Store, url: URL, file: string) {
    var route := FeedRoute(atom, url, file);
    && route in StoredRoutes(atom.meta.name, store)
    && RunNamed(store, route.middlewares, url.path + "/" + file) == Some("/" + file)
  }

  lemma FeedRouteRuns(pf: Platform, atom: Atom, before: Store, after: Store, url: URL, file: string, path: string)
    requires Holds(pf, atom, EnsureHeaders, before, after) && Holds(pf, atom, EnsureStripPrefix, before, after)
    ensures RunNamed(after, FeedRoute(atom, url, file).middlewares, path)
            == RunMiddleware(StripPrefix(StripPrefixes(atom)), path)
  {
    var headers, strip := HeadersName(atom.meta.name), StripPrefixName(atom.meta.name);
    HeadersHeld(pf, atom, before, after);
    StripPrefixHeld(pf, atom, before, after);
    assert FeedRoute(atom, url, file).middlewares == [headers] + [strip];
    HeadersFirst(after, headers, [strip], path);
    OneMiddleware(after, strip, StripPrefix(StripPrefixes(atom)), path);
  }

  lemma FeedRouteStored(atom: Atom, after: Store, url: URL, file: string)
    requires HasRoutesOf(atom, after) && url in atom.ServedURLs() && FeedFile(atom, file)
    ensures FeedRoute(atom, url, file) in StoredRoutes(atom.meta.name, after)
  {
    FeedRouteListed(atom, url, file, ChainNames(atom));
    RouteOfServedURL(atom, url, FeedRoute(atom, url, file));
  }

  /**
   * A request for a feed at a served URL arrives at the Service as a request for the file itself, if and
   * only if no earlier prefix of the strip middleware is a prefix of the URL's own.
   */
  lemma StoredRouteReachesFeed(
    pf: Platform, atom: Atom, text: string, before: Store, after: Store, url: URL, file: string)
    requires AllSliceable(DownloadLinks(atom)) && Completed(pf, atom, text, before, after)
    requires url in atom.ServedURLs() && FeedFile(atom, file) && CleanPath(url.path) && PlainSegment(file)
    ensures url.path + "/" in StripPrefixes(atom)
    ensures FeedServed(atom, after, url, file) <==> FirstToMatch(StripPrefixes(atom), url.path + "/")
  {
    RoutesAreCurrent(pf, atom, before, after);
    FeedRouteStored(atom, after, url, file);
    FeedRouteRuns(pf, atom, before, after, url, file, url.path + "/" + file);
    FeedRequestReachesItsFile(atom, url, file);
  }

  lemma OneMiddleware(store: Store, name: string, spec: MiddlewareSpec, path: string)
    requires SpecIs(store, name, spec)
    ensures RunNamed(store, [name], path) == RunMiddleware(spec, path)
  {
    assert [name][1..] == [];
  }

  // ----- Requests as the stored routes accept them

  /** Some stored route accepts the request, and every one that does sends it to these services under this path. */
  ghost predicate Dispatched(
    store: Store, atomName: string, host: string, path: string, services: seq<Backend>, result: string)
  {
    && (exists route :: route in StoredRoutes(atomName, store) && AcceptedBy(route, host, path))
    && (forall route :: route in StoredRoutes(atomName, store) && AcceptedBy(route, host, path) ==>
          route.services == services && RunNamed(store, route.middlewares, path) == Some(result))
  }

  function ServiceBackend(atom: Atom): Backend {
    Backend(ServiceName(atom.meta.name), "80", None)
  }

  /** When only one kind of route accepts a request, that kind decides where it goes. */
  lemma DispatchedToStorage(atom: Atom, store: Store, host: string, path: string, result: string)
    requires HasRoutesOf(atom, store) && Legible(atom) && ReachesStorage(atom, host, path)
    ensures Dispatched(store, atom.meta.name, host, path, [STORAGE], result) <==>
              RunNamed(store, [HeadersName(atom.meta.name)] + ChainNames(atom), path) == Some(result) &&
              !ReachesService(atom, host, path)
  {
    assert StoredRoutes(atom.meta.name, store) == AllRoutes(atom);
    forall route | route in AllRoutes(atom)
      ensures ToService(atom, route) || ToStorage(atom, route)
      ensures ToService(atom, route) ==> route.services != [STORAGE]
    {
      TwoKindsOfRoutes(atom, route);
      ServiceIsNotStorage(atom);
    }
  }

  lemma DispatchedToService(atom: Atom, store: Store, host: string, path: string, result: string)
    requires HasRoutesOf(atom, store) && Legible(atom) && ReachesService(atom, host, path)
    ensures Dispatched(store, atom.meta.name, host, path, [ServiceBackend(atom)], result) <==>
              RunNamed(store, [HeadersName(atom.meta.name), StripPrefixName(atom.meta.name)], path) == Some(result) &&
              !ReachesStorage(atom, host, path)
  {
    assert StoredRoutes(atom.meta.name, store) == AllRoutes(atom);
    forall route | route in AllRoutes(atom)
      ensures ToService(atom, route) || ToStorage(atom, route)
      ensures ToStorage(atom, route) ==> route.services != [ServiceBackend(atom)]
    {
      TwoKindsOfRoutes(atom, route);
      ServiceIsNotStorage(atom);
    }
  }

  lemma ServiceIsNotStorage(atom: Atom)
    ensures ServiceBackend(atom) != STORAGE
  {
    assert "80" != "azure-storage";
  }

  /**
   * Whatever stored route accepts a download request, it arrives at the link's blob in the storage, if and
   * only if no earlier group claims the file name and no other served URL has a feed in its place.
   */
  lemma DownloadDispatched(
    pf: Platform, atom: Atom, text: string, before: Store, after: Store, link: DownloadLink, url: URL, host: string)
    requires Routable(atom) && Legible(atom) && Completed(pf, atom, text, before, after)
    requires link in DownloadLinks(atom) && url in atom.ServedURLs() && Answers(url, host)
    requires Undisturbed(atom, url.path, link.GetBlobName())
    ensures Dispatched(after, atom.meta.name, host, Request(url.path, link.GetBlobName()), [STORAGE], "/" + link.data) <==>
              NotClaimedEarlier(atom, GroupIndex(atom, link), link.GetBlobName()) &&
              !NameIsFeed(atom, url.path, host, link.GetBlobName())
  {
    var path := Request(url.path, link.GetBlobName());
    RoutesAreCurrent(pf, atom, before, after);
    DownloadAccepted(atom, url, host, link.GetBlobName());
    DispatchedToStorage(atom, after, host, path, "/" + link.data);
    DownloadsRouteRuns(pf, atom, text, before, after, url, path);
    ReachesBlob(atom, link, url, RunNamed(after, StorageRoute(atom, url, ChainNames(atom)).middlewares, path));
  }

  /**
   * Whatever stored route accepts a feed request, it arrives at the Service as a request for the bare file, if
   * and only if the URL's own prefix is the first to match and its path is not below the downloads of another.
   */
  lemma FeedDispatched(
    pf: Platform, atom: Atom, text: string, before: Store, after: Store, url: URL, file: string, host: string)
    requires AllSliceable(DownloadLinks(atom)) && Legible(atom) && Completed(pf, atom, text, before, after)
    requires url in atom.ServedURLs() && Answers(url, host) && FeedFile(atom, file)
    ensures url.path + "/" in StripPrefixes(atom)
    ensures Dispatched(after, atom.meta.name, host, url.path + "/" + file, [ServiceBackend(atom)], "/" + file) <==>
              FirstToMatch(StripPrefixes(atom), url.path + "/") && !BelowDownloads(atom, url.path, host)
  {
    var path := url.path + "/" + file;
    FeedFileIsPlain(atom, file);
    RoutesAreCurrent(pf, atom, before, after);
    FeedAccepted(atom, url, host, file);
    DispatchedToService(atom, after, host, path, "/" + file);
    FeedRouteRuns(pf, atom, before, after, url, file, path);
    FeedRequestReachesItsFile(atom, url, file);
  }

  /**
   * After any run, with whatever failures, one fault-free reconcile gets through, makes every object what the
   * current atom asks, and points the Deployment at the configuration of the current atom and owner info.
   */
  lemma RecoversAfterAnyRun(
    pf: Platform, events: seq<Event>, trace: seq<World>, i: nat, name: string, owner: OwnerInfo, order: seq<string>)
    requires HashLaws(pf) && Behaviour(pf, events, trace) && Inv(pf, trace[0])
    requires i < |trace| && name in trace[i].atoms
    requires Deliverable(pf, trace[i].atoms[name], owner) && IsOrder(trace[i].atoms[name], order)
    ensures var atom := trace[i].atoms[name];
            Recovered(pf, atom, owner, trace[i].store, AllForAtom(pf, atom, owner, order, [], trace[i].store))
  {
    EveryStateIsSafe(pf, events, trace, i, name);
    RecoversFrom(pf, trace[i].atoms[name], owner, order, trace[i].store);
  }

  ghost predicate Recovered(pf: Platform, atom: Atom, owner: OwnerInfo, before: Store, outcome: Outcome)
    requires Deliverable(pf, atom, owner)
  {
    var text := GeneratorText(pf, atom, owner).value;
    && outcome.err.None?
    && Completed(pf, atom, text, before, outcome.store) && Configured(pf, atom.meta.name, text, outcome.store)
    && HasRoutesOf(atom, outcome.store)
  }

  lemma RecoversFrom(pf: Platform, atom: Atom, owner: OwnerInfo, order: seq<string>, store: Store)
    requires HashLaws(pf) && Deliverable(pf, atom, owner) && IsOrder(atom, order) && Intact(pf, atom.meta.name, store)
    ensures Recovered(pf, atom, owner, store, AllForAtom(pf, atom, owner, order, [], store))
  {
    var after, text := AllForAtom(pf, atom, owner, order, [], store).store, GeneratorText(pf, atom, owner).value;
    Converges(pf, atom, owner, order, store);
    ReachedCompletes(pf, atom, text, order, store, after);
    DeploymentIsConfigured(pf, atom, text, store, after);
    RoutesAreCurrent(pf, atom, store, after);
  }
}
