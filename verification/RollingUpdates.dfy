/**
 * What requests meet while a reconcile is under way. The middlewares are rewritten one by one and the
 * IngressRoute after them, so for a while the route of the old version names middlewares of both. A download
 * that both versions have is served in every state in between, whatever the order, under an exact condition.
 */
module RollingUpdates {
  import opened Wrappers
  import opened Strings
  import opened Sequences
  import opened Urls
  import opened AtomTypes
  import opened KubeObjects
  import opened Traefik
  import opened Middlewares
  import opened RewriteChains
  import opened DownloadRouting
  import opened IngressRoutes
  import opened RequestRouting
  import opened Platforms
  import opened Workloads
  import opened Reconciling
  import opened ObjectKeys
  import opened StepSafety
  import opened OperatorRuns
  import opened Convergence
  import opened ServedState

  // ----- A chain of both versions

  function GroupCount(atom: Atom): nat
    requires AllSliceable(DownloadLinks(atom))
  {
    |GroupOrder(DownloadLinks(atom))|
  }

  /** The group whose middleware stands at a position of the chain. */
  function IndexAt(atom: Atom, k: nat): (i: nat)
    requires AllSliceable(DownloadLinks(atom)) && k < |ChainNames(atom)|
    ensures i < GroupCount(atom) && ChainNames(atom)[k] == DownloadName(atom.meta.name, i)
    ensures ChainTargets(atom)[k] == GroupTarget(atom, i)
  {
    ChainNameIndex(atom.meta.name, GroupCount(atom), ChainNames(atom)[k]);
    IndexOf(DownloadNames(atom.meta.name, GroupCount(atom)), ChainNames(atom)[k])
  }

  /** Only groups that there are can be done. */
  predicate Within(done: set<nat>, count: nat) {
    forall i :: i in done ==> i < count
  }

  /** A middleware whose index is in `done` is already the new version's. */
  function MixedTarget(current: Atom, next: Atom, done: set<nat>, i: nat): Target
    requires AllSliceable(DownloadLinks(current)) && AllSliceable(DownloadLinks(next))
    requires Within(done, GroupCount(next)) && i < GroupCount(current)
  {
    if i in done then GroupTarget(next, i) else GroupTarget(current, i)
  }

  /** What the chain of the old route does by now. */
  function MixedChain(current: Atom, next: Atom, done: set<nat>): seq<Target>
    requires AllSliceable(DownloadLinks(current)) && AllSliceable(DownloadLinks(next))
    requires Within(done, GroupCount(next))
  {
    seq(|ChainNames(current)|, k requires 0 <= k < |ChainNames(current)| =>
      MixedTarget(current, next, done, IndexAt(current, k)))
  }

  function GroupTargets(atom: Atom): seq<Target>
    requires AllSliceable(DownloadLinks(atom))
  {
    seq(GroupCount(atom), i requires 0 <= i < GroupCount(atom) => GroupTarget(atom, i))
  }

  /** All these middlewares are aligned with the request, and none hits a blob path that one of them would put. */
  ghost predicate Clear(targets: seq<Target>, path: string, name: string) {
    && (forall t :: t in targets ==> t.WellFormed() && Aligned(t, path, name))
    && (forall t, u :: t in targets && u in targets && Claims(t.files, name) ==> !u.HitBy(BlobPath(t.prefix, name)))
  }

  /** The versions of an atom, and a download that both have at a URL that both serve. */
  datatype Shared = Shared(current: Atom, next: Atom, link: DownloadLink, link': DownloadLink, url: URL) {

    predicate Valid() {
      && current.meta.name == next.meta.name
      && AllSliceable(DownloadLinks(current)) && AllSliceable(DownloadLinks(next))
      && link in DownloadLinks(current) && link' in DownloadLinks(next) && link.data == link'.data
      && url in current.ServedURLs() && url in next.ServedURLs()
    }

    function Name(): string {
      link.GetBlobName()
    }

    function Path(): string {
      Request(url.path, Name())
    }

    ghost predicate IsClear()
      requires Valid()
    {
      Clear(GroupTargets(current) + GroupTargets(next), url.path, Name())
    }

    /** The rank of the download's group in the old version. */
    function CurrentIndex(): (i: nat)
      requires Valid()
      ensures i < GroupCount(current)
    {
      OwnGroup(current, link);
      GroupIndex(current, link)
    }

    /** The rank of the download's group in the new version. */
    function NextIndex(): (i: nat)
      requires Valid()
      ensures i < GroupCount(next)
    {
      OwnGroup(next, link');
      GroupIndex(next, link')
    }
  }

  lemma OwnGroup(atom: Atom, link: DownloadLink)
    requires AllSliceable(DownloadLinks(atom)) && link in DownloadLinks(atom)
    ensures GroupIndex(atom, link) < GroupCount(atom) && link.GetBlobPrefix().Ok?
    ensures GroupTarget(atom, GroupIndex(atom, link)).prefix == link.GetBlobPrefix().value
    ensures Claims(GroupTarget(atom, GroupIndex(atom, link)).files, link.GetBlobName())
  {
    OwnGroupClaims(DownloadLinks(atom), link);
  }

  lemma OtherGroup(atom: Atom, link: DownloadLink, i: nat)
    requires AllSliceable(DownloadLinks(atom)) && link in DownloadLinks(atom) && i < GroupCount(atom)
    ensures link.GetBlobPrefix().Ok?
    ensures GroupTarget(atom, i).prefix == link.GetBlobPrefix().value <==> i == GroupIndex(atom, link)
  {
    OwnGroup(atom, link);
    var order := GroupOrder(DownloadLinks(atom));
    assert order[i] == GroupTarget(atom, i).prefix;
  }

  lemma SameBlob(s: Shared)
    requires s.Valid()
    ensures s.link.GetBlobPrefix() == s.link'.GetBlobPrefix() && s.link.GetBlobName() == s.link'.GetBlobName()
  {
  }

  lemma MixedIsClear(s: Shared, done: set<nat>)
    requires s.Valid() && s.IsClear() && Within(done, GroupCount(s.next))
    ensures var mixed := MixedChain(s.current, s.next, done);
            && AllWellFormed(mixed)
            && (forall k :: 0 <= k < |mixed| ==> Aligned(mixed[k], s.url.path, s.Name()))
            && BlobKept(mixed, s.Name())
  {
    var mixed, both := MixedChain(s.current, s.next, done), GroupTargets(s.current) + GroupTargets(s.next);
    FirstClaimerIsFirst(mixed, s.Name());
    forall k | 0 <= k < |mixed|
      ensures mixed[k] in both
    {
      MixedTargetAmong(s, done, IndexAt(s.current, k));
    }
  }

  lemma MixedTargetAmong(s: Shared, done: set<nat>, i: nat)
    requires s.Valid() && Within(done, GroupCount(s.next)) && i < GroupCount(s.current)
    ensures MixedTarget(s.current, s.next, done, i) in GroupTargets(s.current) + GroupTargets(s.next)
  {
    if i in done {
      assert GroupTargets(s.next)[i] == MixedTarget(s.current, s.next, done, i);
    } else {
      assert GroupTargets(s.current)[i] == MixedTarget(s.current, s.next, done, i);
    }
  }

  /** The middleware with this index, in the version it has by now, is the one for the download. */
  predicate IsOwn(s: Shared, done: set<nat>, i: nat)
    requires s.Valid()
  {
    if i in done then i == s.NextIndex() else i == s.CurrentIndex()
  }

  lemma OwnPrefix(s: Shared, done: set<nat>, i: nat)
    requires s.Valid() && Within(done, GroupCount(s.next)) && i < GroupCount(s.current)
    ensures BlobPath(MixedTarget(s.current, s.next, done, i).prefix, s.Name()) == "/" + s.link.data <==> IsOwn(s, done, i)
  {
    SameBlob(s);
    LinkPath(s.link);
    OwnGroup(s.current, s.link);
    BlobNamesPrefix(MixedTarget(s.current, s.next, done, i).prefix, s.link.GetBlobPrefix().value, s.Name());
    if i in done {
      OtherGroup(s.next, s.link', i);
    } else {
      OtherGroup(s.current, s.link, i);
    }
  }

  /** A request that no middleware touches is not the blob's path. */
  lemma RequestIsNotBlob(s: Shared)
    requires s.Valid() && s.IsClear()
    ensures s.Path() != "/" + s.link.data
  {
    var own := GroupTarget(s.current, s.CurrentIndex());
    OwnGroup(s.current, s.link);
    LinkPath(s.link);
    assert GroupTargets(s.current)[s.CurrentIndex()] == own;
    assert own in GroupTargets(s.current) + GroupTargets(s.next);
    RequestName(s.url.path, s.Name());
    var k :| 0 <= k < |own.paths| && own.paths[k] == s.url.path;
    assert Hits(own.paths[k], DOWNLOADS, own.files, s.Path());
    assert own.HitBy(s.Path());
  }

  /** The download is reached exactly if the first middleware to claim its name is the one for it by now. */
  lemma MixedOutcome(s: Shared, done: set<nat>)
    requires s.Valid() && s.IsClear() && Within(done, GroupCount(s.next))
    ensures var mixed := MixedChain(s.current, s.next, done);
            var first := FirstClaimer(mixed, s.Name());
            && (first.Some? ==> first.value < |mixed|)
            && (Land(mixed, s.Path()) == "/" + s.link.data <==> first.Some? && IsOwn(s, done, IndexAt(s.current, first.value)))
  {
    var mixed := MixedChain(s.current, s.next, done);
    MixedIsClear(s, done);
    ChainOutcome(mixed, s.url.path, s.Name());
    if k :| FirstClaimer(mixed, s.Name()) == Some(k) {
      OwnPrefix(s, done, IndexAt(s.current, k));
    } else {
      RequestIsNotBlob(s);
    }
  }

  // ----- When the mixture serves the download

  /** The middleware that the old route has for the download is not made over to another group. */
  predicate KeepsItsPlace(s: Shared)
    requires s.Valid()
  {
    s.CurrentIndex() == s.NextIndex() || s.CurrentIndex() >= GroupCount(s.next)
  }

  /** No group of the new version claims the name in a place that the old chain visits earlier. */
  predicate NotClaimedMeanwhile(s: Shared)
    requires s.Valid()
  {
    forall j :: 0 <= j < GroupCount(s.current) && j < GroupCount(s.next) && j != s.NextIndex() && Less(Itoa(j), Itoa(s.CurrentIndex())) ==>
      !Claims(GroupTarget(s.next, j).files, s.Name())
  }

  lemma MixedServes(s: Shared, done: set<nat>)
    requires s.Valid() && s.IsClear() && Within(done, GroupCount(s.next))
    requires NotClaimedEarlier(s.current, s.CurrentIndex(), s.Name()) && KeepsItsPlace(s) && NotClaimedMeanwhile(s)
    ensures Land(MixedChain(s.current, s.next, done), s.Path()) == "/" + s.link.data
  {
    MixedOutcome(s, done);
    var t := ChainPosition(s.current, s.CurrentIndex());
    OwnStillClaims(s, done, t);
    var first := FirstAtOrBefore(s, done, t);
    if first < t {
      ChainOrder(s.current, first, IndexAt(s.current, first), t, s.CurrentIndex());
      ClaimedBeforeIsOwn(s, done, IndexAt(s.current, first));
    }
  }

  lemma FirstAtOrBefore(s: Shared, done: set<nat>, t: nat) returns (first: nat)
    requires s.Valid() && Within(done, GroupCount(s.next)) && t < |ChainNames(s.current)|
    requires Claims(MixedChain(s.current, s.next, done)[t].files, s.Name())
    ensures first <= t && FirstClaimer(MixedChain(s.current, s.next, done), s.Name()) == Some(first)
    ensures Claims(MixedTarget(s.current, s.next, done, IndexAt(s.current, first)).files, s.Name())
  {
    FirstClaimerIsFirst(MixedChain(s.current, s.next, done), s.Name());
    first := FirstClaimer(MixedChain(s.current, s.next, done), s.Name()).value;
  }

  lemma OwnStillClaims(s: Shared, done: set<nat>, t: nat)
    requires s.Valid() && Within(done, GroupCount(s.next)) && KeepsItsPlace(s)
    requires t < |ChainNames(s.current)| && ChainNames(s.current)[t] == DownloadName(s.current.meta.name, s.CurrentIndex())
    ensures IndexAt(s.current, t) == s.CurrentIndex() && Claims(MixedChain(s.current, s.next, done)[t].files, s.Name())
  {
    SameBlob(s);
    PlaceOf(s.current, t, s.CurrentIndex());
    OwnGroup(s.current, s.link);
    OwnGroup(s.next, s.link');
  }

  /** What claims the name before the download's own middleware does is again the download's own. */
  lemma ClaimedBeforeIsOwn(s: Shared, done: set<nat>, j: nat)
    requires s.Valid() && Within(done, GroupCount(s.next)) && j < GroupCount(s.current)
    requires NotClaimedEarlier(s.current, s.CurrentIndex(), s.Name()) && NotClaimedMeanwhile(s)
    requires Less(Itoa(j), Itoa(s.CurrentIndex())) && Claims(MixedTarget(s.current, s.next, done, j).files, s.Name())
    ensures IsOwn(s, done, j)
  {
  }

  lemma PlaceOf(atom: Atom, t: nat, i: nat)
    requires AllSliceable(DownloadLinks(atom)) && t < |ChainNames(atom)|
    requires ChainNames(atom)[t] == DownloadName(atom.meta.name, i)
    ensures IndexAt(atom, t) == i
  {
    MiddlewareNamesDistinct(atom.meta.name, i, IndexAt(atom, t));
  }

  /** Once its middleware is made over to another group, the download is lost. */
  lemma LostWhenMoved(s: Shared)
    requires s.Valid() && s.IsClear() && !KeepsItsPlace(s)
    ensures Land(MixedChain(s.current, s.next, {s.CurrentIndex()}), s.Path()) != "/" + s.link.data
  {
    MixedOutcome(s, {s.CurrentIndex()});
  }

  /** Once an earlier middleware is made over to a group that claims its name, the download is lost. */
  lemma LostWhenClaimed(s: Shared, j: nat)
    requires s.Valid() && s.IsClear()
    requires j < GroupCount(s.current) && j < GroupCount(s.next) && j != s.NextIndex() && Less(Itoa(j), Itoa(s.CurrentIndex()))
    requires Claims(GroupTarget(s.next, j).files, s.Name())
    ensures Land(MixedChain(s.current, s.next, {j}), s.Path()) != "/" + s.link.data
  {
    var mixed := MixedChain(s.current, s.next, {j});
    MixedOutcome(s, {j});
    FirstClaimerIsFirst(mixed, s.Name());
    var t := ChainPosition(s.current, s.CurrentIndex());
    var p := ChainPosition(s.current, j);
    ChainOrder(s.current, p, j, t, s.CurrentIndex());
    PlaceOf(s.current, p, j);
    PlaceOf(s.current, t, s.CurrentIndex());
    assert Claims(mixed[p].files, s.Name());
    var first := FirstClaimer(mixed, s.Name()).value;
    assert first <= p < t;
    SamePlace(s.current, first, t);
  }

  /** With nothing done yet the chain is that of the old version. */
  lemma NothingDone(s: Shared)
    requires s.Valid() && s.IsClear()
    ensures MixedChain(s.current, s.next, {}) == ChainTargets(s.current)
    ensures Land(ChainTargets(s.current), s.Path()) == "/" + s.link.data <==>
              NotClaimedEarlier(s.current, s.CurrentIndex(), s.Name())
  {
    assert MixedChain(s.current, s.next, {}) == ChainTargets(s.current);
    MixedOutcome(s, {});
    var t := ChainPosition(s.current, s.CurrentIndex());
    PlaceOf(s.current, t, s.CurrentIndex());
    FirstIsAtPlace(s, t);
  }

  lemma FirstIsAtPlace(s: Shared, t: nat)
    requires s.Valid() && t < |ChainTargets(s.current)| && IndexAt(s.current, t) == s.CurrentIndex()
    ensures var first := FirstClaimer(ChainTargets(s.current), s.Name());
            && first.Some? && first.value < |ChainTargets(s.current)|
            && (IndexAt(s.current, first.value) == s.CurrentIndex() <==>
                NotClaimedEarlier(s.current, s.CurrentIndex(), s.Name()))
  {
    OwnGroup(s.current, s.link);
    FirstUnlessClaimedEarlier(s.current, s.CurrentIndex(), t, s.Name());
    FirstClaimerIsFirst(ChainTargets(s.current), s.Name());
    SamePlace(s.current, FirstClaimer(ChainTargets(s.current), s.Name()).value, t);
  }

  lemma SamePlace(atom: Atom, k: nat, t: nat)
    requires AllSliceable(DownloadLinks(atom)) && k < |ChainNames(atom)| && t < |ChainNames(atom)|
    ensures IndexAt(atom, k) == IndexAt(atom, t) <==> k == t
  {
    DownloadNamesDistinct(atom.meta.name, GroupCount(atom));
  }

  // ----- The store midway

  /** The store has the routes of the version, its chain, and a headers middleware. */
  ghost predicate Deployed(atom: Atom, store: Store)
    requires AllSliceable(DownloadLinks(atom))
  {
    && HasRoutesOf(atom, store) && HeadersThere(store, HeadersName(atom.meta.name))
    && forall i :: 0 <= i < GroupCount(atom) ==> SpecIs(store, DownloadName(atom.meta.name, i), GroupTarget(atom, i).Spec())
  }

  /** A completed reconcile deploys its version. */
  lemma CompletedIsDeployed(pf: Platform, atom: Atom, text: string, before: Store, after: Store)
    requires AllSliceable(DownloadLinks(atom)) && Completed(pf, atom, text, before, after)
    ensures Deployed(atom, after)
  {
    RoutesAreCurrent(pf, atom, before, after);
    HeadersHeld(pf, atom, before, after);
    forall i | 0 <= i < GroupCount(atom)
      ensures SpecIs(after, DownloadName(atom.meta.name, i), GroupTarget(atom, i).Spec())
    {
      assert DownloadHolds(pf, atom, i, before, after);
      DownloadSpecHeld(pf, atom, i, before, after);
    }
  }

  lemma DownloadSpecHeld(pf: Platform, atom: Atom, i: nat, before: Store, after: Store)
    requires AllSliceable(DownloadLinks(atom)) && i < GroupCount(atom)
    requires Holds(pf, atom, EnsureDownload(i, GroupTarget(atom, i).prefix, GroupTarget(atom, i).files), before, after)
    ensures SpecIs(after, DownloadName(atom.meta.name, i), GroupTarget(atom, i).Spec())
  {
    DownloadHeld(pf, atom, i, GroupTarget(atom, i).prefix, GroupTarget(atom, i).files, before, after);
  }

  function PlannedSteps(pf: Platform, atom: Atom, text: string, order: seq<string>): (steps: seq<Step>)
    requires AllSliceable(DownloadLinks(atom))
    requires forall p :: p in order ==> p in GroupOrder(DownloadLinks(atom))
    ensures |steps| == |order| + 7 && AllRunnable(atom, steps)
  {
    CoreSteps(pf, atom, text) + (DownloadSteps(atom, order) + FINAL_STEPS)
  }

  lemma PlannedStep(pf: Platform, atom: Atom, text: string, order: seq<string>, m: nat)
    requires AllSliceable(DownloadLinks(atom)) && IsOrder(atom, order) && m < |order| + 7
    ensures var step := PlannedSteps(pf, atom, text, order)[m];
            && (5 <= m < 5 + |order| <==> step.EnsureDownload?)
            && (5 <= m < 5 + |order| ==> step == DownloadStep(atom, order[m - 5]))
            && (m == 4 <==> step == EnsureHeaders)
            && (m == 5 + |order| <==> step == EnsureIngressRoute)
  {
    DownloadsApart(atom, order);
    var core, downloads := CoreSteps(pf, atom, text), DownloadSteps(atom, order);
    assert PlannedSteps(pf, atom, text, order)[m]
           == if m < 5 then core[m] else if m < 5 + |order| then downloads[m - 5] else FINAL_STEPS[m - 5 - |order|];
  }

  /** The store after the first `k` steps of a reconcile, at which it may stop or be watched. */
  function Midway(pf: Platform, atom: Atom, steps: seq<Step>, k: nat, store: Store): Store
    requires AllRunnable(atom, steps) && k <= |steps|
  {
    Run(pf, atom, steps[..k], [], store, map[]).store
  }

  lemma MidwayReached(pf: Platform, atom: Atom, text: string, order: seq<string>, k: nat, store: Store)
    requires HashLaws(pf) && AllSliceable(DownloadLinks(atom)) && IsOrder(atom, order) && k <= |order| + 7
    requires Intact(pf, atom.meta.name, store)
    ensures var steps := PlannedSteps(pf, atom, text, order);
            Reached(pf, atom, steps[..k], store, Midway(pf, atom, steps, k, store))
  {
    var steps := PlannedSteps(pf, atom, text, order);
    CoreRunnable(pf, atom, text);
    PlanApart(pf, atom, text, order);
    assert steps == CoreSteps(pf, atom, text) + LaterSteps(atom, order);
    var done := steps[..k];
    forall m | 0 <= m < |done|
      ensures !Blocked(pf, atom.meta.name, done[m], store)
    {
      IntactNotBlocked(pf, atom.meta.name, done[m], store);
    }
    CleanRun(pf, atom, done, store, map[]);
  }

  /** The groups whose middlewares the first `k` steps have made. */
  function MadeBy(atom: Atom, order: seq<string>, k: nat): (done: set<nat>)
    requires AllSliceable(DownloadLinks(atom)) && forall p :: p in order ==> p in GroupOrder(DownloadLinks(atom))
    ensures Within(done, GroupCount(atom))
  {
    set m | 0 <= m < |order| && m + 5 < k :: IndexOf(GroupOrder(DownloadLinks(atom)), order[m])
  }

  lemma NotTouchedUnless(pf: Platform, atomName: string, steps: seq<Step>, step: Step)
    requires HashLaws(pf)
    ensures Touched(pf, atomName, steps, KeyOf(pf, atomName, step)) <==>
              exists m :: 0 <= m < |steps| && SameObject(steps[m], step)
  {
    forall m | 0 <= m < |steps|
      ensures KeyOf(pf, atomName, steps[m]) == KeyOf(pf, atomName, step) <==> SameObject(steps[m], step)
    {
      KeyUnique(pf, atomName, steps[m], atomName, step);
    }
  }

  /** A download middleware that was made is the new version's. */
  lemma DownloadMade(
    pf: Platform, atom: Atom, text: string, order: seq<string>, k: nat, i: nat, store: Store, mid: Store)
    requires AllSliceable(DownloadLinks(atom)) && IsOrder(atom, order)
    requires k <= |order| + 7
    requires Reached(pf, atom, PlannedSteps(pf, atom, text, order)[..k], store, mid)
    requires i in MadeBy(atom, order, k)
    ensures SpecIs(mid, DownloadName(atom.meta.name, i), GroupTarget(atom, i).Spec())
  {
    var done := PlannedSteps(pf, atom, text, order)[..k];
    var m :| 0 <= m < |order| && m + 5 < k && i == IndexOf(GroupOrder(DownloadLinks(atom)), order[m]);
    PlannedStep(pf, atom, text, order, m + 5);
    assert Holds(pf, atom, done[m + 5], store, mid);
    DownloadStepIs(atom, order[m]);
    DownloadSpecHeld(pf, atom, i, store, mid);
  }

  lemma DownloadStepIs(atom: Atom, prefix: string)
    requires AllSliceable(DownloadLinks(atom)) && prefix in GroupOrder(DownloadLinks(atom))
    ensures var i := IndexOf(GroupOrder(DownloadLinks(atom)), prefix);
            DownloadStep(atom, prefix) == EnsureDownload(i, GroupTarget(atom, i).prefix, GroupTarget(atom, i).files)
  {
  }

  /** A download middleware that was not made is as before. */
  lemma DownloadUnmade(
    pf: Platform, atom: Atom, text: string, order: seq<string>, k: nat, i: nat, store: Store, mid: Store)
    requires HashLaws(pf) && AllSliceable(DownloadLinks(atom)) && IsOrder(atom, order)
    requires k <= |order| + 7
    requires Reached(pf, atom, PlannedSteps(pf, atom, text, order)[..k], store, mid)
    requires i !in MadeBy(atom, order, k)
    ensures SameAt(MiddlewareKey(DownloadName(atom.meta.name, i)), store, mid)
  {
    var name, done := atom.meta.name, PlannedSteps(pf, atom, text, order)[..k];
    forall m | 0 <= m < |done|
      ensures !SameObject(done[m], EnsureDownload(i, "", []))
    {
      PlannedStep(pf, atom, text, order, m);
      if 5 <= m < 5 + |order| {
        DownloadStepIs(atom, order[m - 5]);
        assert m - 5 + 5 < k;
      }
    }
    NotTouchedUnless(pf, name, done, EnsureDownload(i, "", []));
    assert KeyOf(pf, name, EnsureDownload(i, "", [])) == MiddlewareKey(DownloadName(name, i));
  }

  /** What a download middleware is for midway: the new version's if it was made, else what it was for before. */
  lemma DownloadMidway(
    pf: Platform, current: Atom, next: Atom, text: string, order: seq<string>, k: nat, i: nat, store: Store, mid: Store)
    requires HashLaws(pf) && AllSliceable(DownloadLinks(current)) && AllSliceable(DownloadLinks(next)) && IsOrder(next, order)
    requires k <= |order| + 7
    requires Reached(pf, next, PlannedSteps(pf, next, text, order)[..k], store, mid)
    requires i < GroupCount(current) && SpecIs(store, DownloadName(next.meta.name, i), GroupTarget(current, i).Spec())
    ensures SpecIs(mid, DownloadName(next.meta.name, i), MixedTarget(current, next, MadeBy(next, order, k), i).Spec())
  {
    if i in MadeBy(next, order, k) {
      DownloadMade(pf, next, text, order, k, i, store, mid);
    } else {
      DownloadUnmade(pf, next, text, order, k, i, store, mid);
    }
  }

  /** There is a headers middleware in every state midway. */
  lemma HeadersMidway(pf: Platform, atom: Atom, text: string, order: seq<string>, k: nat, store: Store, mid: Store)
    requires HashLaws(pf) && AllSliceable(DownloadLinks(atom)) && IsOrder(atom, order)
    requires k <= |order| + 7
    requires Reached(pf, atom, PlannedSteps(pf, atom, text, order)[..k], store, mid)
    requires HeadersThere(store, HeadersName(atom.meta.name))
    ensures HeadersThere(mid, HeadersName(atom.meta.name))
  {
    var name, done := atom.meta.name, PlannedSteps(pf, atom, text, order)[..k];
    if 4 < k {
      PlannedStep(pf, atom, text, order, 4);
      assert Holds(pf, atom, done[4], store, mid);
      HeadersHeld(pf, atom, store, mid);
    } else {
      forall m | 0 <= m < |done|
        ensures !SameObject(done[m], EnsureHeaders)
      {
        PlannedStep(pf, atom, text, order, m);
      }
      NotTouchedUnless(pf, name, done, EnsureHeaders);
      assert KeyOf(pf, name, EnsureHeaders) == MiddlewareKey(HeadersName(name));
    }
  }

  /** The routes are those of before until the IngressRoute's step, and those of the new version from then on. */
  lemma RoutesMidway(pf: Platform, atom: Atom, text: string, order: seq<string>, k: nat, store: Store, mid: Store)
    requires HashLaws(pf) && AllSliceable(DownloadLinks(atom)) && IsOrder(atom, order)
    requires k <= |order| + 7
    requires Reached(pf, atom, PlannedSteps(pf, atom, text, order)[..k], store, mid)
    ensures if k <= |order| + 5 then SameRoutes(RouteKey(atom.meta.name), store, mid) else HasRoutesOf(atom, mid)
  {
    var name, done := atom.meta.name, PlannedSteps(pf, atom, text, order)[..k];
    if k <= |order| + 5 {
      forall m | 0 <= m < |done|
        ensures !SameObject(done[m], EnsureIngressRoute)
      {
        PlannedStep(pf, atom, text, order, m);
      }
      NotTouchedUnless(pf, name, done, EnsureIngressRoute);
      assert KeyOf(pf, name, EnsureIngressRoute) == RouteKey(name);
    } else {
      PlannedStep(pf, atom, text, order, |order| + 5);
      assert Holds(pf, atom, done[|order| + 5], store, mid);
      RoutesAreCurrent(pf, atom, store, mid);
    }
  }

  /** These are the steps that the reconcile takes. */
  lemma PlannedStepsAreTaken(pf: Platform, atom: Atom, owner: OwnerInfo, order: seq<string>)
    requires Deliverable(pf, atom, owner) && IsOrder(atom, order)
    ensures StepsFor(pf, atom, owner, order) == PlannedSteps(pf, atom, GeneratorText(pf, atom, owner).value, order)
  {
  }

  // ----- The download midway

  /** Whatever route of the store accepts the request for the download sends it to its blob. */
  ghost predicate ServedAt(s: Shared, store: Store, host: string) {
    Dispatched(store, s.current.meta.name, host, s.Path(), [STORAGE], "/" + s.link.data)
  }

  ghost predicate Reachable(s: Shared, host: string) {
    Legible(s.current) && Legible(s.next) && Answers(s.url, host)
  }

  lemma NameHasNoSlash(link: DownloadLink)
    ensures '/' !in link.GetBlobName()
  {
  }

  /** Where the routes are those of a version, its chain decides. */
  lemma ServedByChain(atom: Atom, s: Shared, store: Store, host: string, targets: seq<Target>)
    requires s.Valid() && Reachable(s, host) && (atom == s.current || atom == s.next)
    requires HasRoutesOf(atom, store) && HeadersThere(store, HeadersName(atom.meta.name))
    requires |targets| == |ChainNames(atom)| && AllWellFormed(targets)
    requires forall k :: 0 <= k < |targets| ==> SpecIs(store, ChainNames(atom)[k], targets[k].Spec())
    ensures ServedAt(s, store, host) <==>
              Land(targets, s.Path()) == "/" + s.link.data && !NameIsFeed(atom, s.url.path, host, s.Name())
  {
    NameHasNoSlash(s.link);
    DownloadAccepted(atom, s.url, host, s.Name());
    DispatchedToStorage(atom, store, host, s.Path(), "/" + s.link.data);
    StoredChainLands(store, HeadersName(atom.meta.name), ChainNames(atom), targets, s.Path());
  }

  lemma StoredChainLands(store: Store, headers: string, names: seq<string>, targets: seq<Target>, path: string)
    requires HeadersThere(store, headers) && |targets| == |names| && AllWellFormed(targets)
    requires forall k :: 0 <= k < |targets| ==> SpecIs(store, names[k], targets[k].Spec())
    ensures RunNamed(store, [headers] + names, path) == Some(Land(targets, path))
  {
    HeadersFirst(store, headers, names, path);
    RunNamedResolves(store, names, SpecsOf(targets), path);
    ChainLands(targets, path);
  }

  /** Before the IngressRoute's step the old chain decides, with the middlewares made so far. */
  lemma ServedBeforeRoute(
    pf: Platform, s: Shared, text: string, order: seq<string>, k: nat, store: Store, host: string)
    requires HashLaws(pf) && s.Valid() && s.IsClear() && Reachable(s, host) && IsOrder(s.next, order)
    requires Intact(pf, s.next.meta.name, store) && Deployed(s.current, store) && k <= |order| + 5
    ensures ServedAt(s, Midway(pf, s.next, PlannedSteps(pf, s.next, text, order), k, store), host) <==>
              Land(MixedChain(s.current, s.next, MadeBy(s.next, order, k)), s.Path()) == "/" + s.link.data &&
              !NameIsFeed(s.current, s.url.path, host, s.Name())
  {
    var mid := Midway(pf, s.next, PlannedSteps(pf, s.next, text, order), k, store);
    var done := MadeBy(s.next, order, k);
    var mixed := MixedChain(s.current, s.next, done);
    MidwayReached(pf, s.next, text, order, k, store);
    HeadersMidway(pf, s.next, text, order, k, store, mid);
    RoutesMidway(pf, s.next, text, order, k, store, mid);
    RoutesFrame(s.current, store, mid);
    MixedIsClear(s, done);
    forall p | 0 <= p < |mixed|
      ensures SpecIs(mid, ChainNames(s.current)[p], mixed[p].Spec())
    {
      var i := IndexAt(s.current, p);
      DownloadMidway(pf, s.current, s.next, text, order, k, i, store, mid);
    }
    ServedByChain(s.current, s, mid, host, mixed);
  }

  lemma AllMade(atom: Atom, order: seq<string>, k: nat, i: nat)
    requires AllSliceable(DownloadLinks(atom)) && IsOrder(atom, order) && k >= |order| + 5 && i < GroupCount(atom)
    ensures i in MadeBy(atom, order, k)
  {
    var groups := GroupOrder(DownloadLinks(atom));
    assert groups[i] in order;
    var m :| 0 <= m < |order| && order[m] == groups[i];
    IndexOfUnique(groups, i);
  }

  /** The other way round: the download in the new version, with the old one to come. */
  function Reversed(s: Shared): Shared {
    Shared(s.next, s.current, s.link', s.link, s.url)
  }

  lemma ReversedIsClear(s: Shared)
    requires s.Valid() && s.IsClear()
    ensures Reversed(s).Valid() && Reversed(s).IsClear() && Reversed(s).Path() == s.Path()
  {
    SameBlob(s);
    var both, other := GroupTargets(s.current) + GroupTargets(s.next), GroupTargets(s.next) + GroupTargets(s.current);
    assert forall t :: t in other <==> t in both;
  }

  /** From the IngressRoute's step on the new chain decides. */
  lemma ServedAfterRoute(
    pf: Platform, s: Shared, text: string, order: seq<string>, k: nat, store: Store, host: string)
    requires HashLaws(pf) && s.Valid() && s.IsClear() && Reachable(s, host) && IsOrder(s.next, order)
    requires Intact(pf, s.next.meta.name, store) && Deployed(s.current, store) && |order| + 5 < k <= |order| + 7
    ensures ServedAt(s, Midway(pf, s.next, PlannedSteps(pf, s.next, text, order), k, store), host) <==>
              NotClaimedEarlier(s.next, s.NextIndex(), s.Name()) && !NameIsFeed(s.next, s.url.path, host, s.Name())
  {
    var mid := Midway(pf, s.next, PlannedSteps(pf, s.next, text, order), k, store);
    var targets := ChainTargets(s.next);
    MidwayReached(pf, s.next, text, order, k, store);
    HeadersMidway(pf, s.next, text, order, k, store, mid);
    RoutesMidway(pf, s.next, text, order, k, store, mid);
    forall p | 0 <= p < |targets|
      ensures SpecIs(mid, ChainNames(s.next)[p], targets[p].Spec())
    {
      var i := IndexAt(s.next, p);
      AllMade(s.next, order, k, i);
      DownloadMade(pf, s.next, text, order, k, i, store, mid);
    }
    ReversedIsClear(s);
    NothingDone(Reversed(s));
    MixedIsClear(Reversed(s), {});
    ServedByChain(s.next, s, mid, host, targets);
    SameBlob(s);
  }

  // ----- Main result

  /** Both versions serve the download, its middleware keeps its place, and none is made in front that claims its name. */
  ghost predicate NoGap(s: Shared, host: string)
    requires s.Valid()
  {
    && NotClaimedEarlier(s.current, s.CurrentIndex(), s.Name()) && NotClaimedEarlier(s.next, s.NextIndex(), s.Name())
    && !NameIsFeed(s.current, s.url.path, host, s.Name()) && !NameIsFeed(s.next, s.url.path, host, s.Name())
    && KeepsItsPlace(s) && NotClaimedMeanwhile(s)
  }

  /** The download is served in every state midway, whatever the order of the groups. */
  ghost predicate ServedThroughout(pf: Platform, s: Shared, text: string, store: Store, host: string)
    requires s.Valid()
  {
    forall order, k :: IsOrder(s.next, order) && 0 <= k <= |order| + 7 ==> ServedMidway(pf, s, text, order, k, store, host)
  }

  ghost predicate ServedMidway(
    pf: Platform, s: Shared, text: string, order: seq<string>, k: nat, store: Store, host: string)
    requires s.Valid() && IsOrder(s.next, order) && k <= |order| + 7
  {
    ServedAt(s, Midway(pf, s.next, PlannedSteps(pf, s.next, text, order), k, store), host)
  }

  /** An order that starts with a given group. */
  function FrontOrder(groups: seq<string>, j: nat): seq<string>
    requires j < |groups|
  {
    [groups[j]] + (groups[..j] + groups[j + 1..])
  }

  lemma FrontOrderIsOrder(atom: Atom, j: nat)
    requires AllSliceable(DownloadLinks(atom)) && j < GroupCount(atom)
    ensures var order := FrontOrder(GroupOrder(DownloadLinks(atom)), j);
            IsOrder(atom, order) && |order| == GroupCount(atom) && MadeBy(atom, order, 6) == {j}
  {
    var groups := GroupOrder(DownloadLinks(atom));
    var order := FrontOrder(groups, j);
    forall p
      ensures p in order <==> p in groups
    {
      if p in groups {
        var i := IndexOf(groups, p);
        assert p == groups[j] || p in groups[..j] || p in groups[j + 1..];
      }
    }
    IndexOfUnique(groups, j);
    assert 0 + 5 < 6 && order[0] == groups[j];
    forall i | i in MadeBy(atom, order, 6)
      ensures i == j
    {
      var m :| 0 <= m < |order| && m + 5 < 6 && i == IndexOf(groups, order[m]);
    }
  }

  lemma NoGapSuffices(pf: Platform, s: Shared, text: string, order: seq<string>, k: nat, store: Store, host: string)
    requires HashLaws(pf) && s.Valid() && s.IsClear() && Reachable(s, host) && IsOrder(s.next, order)
    requires Intact(pf, s.next.meta.name, store) && Deployed(s.current, store) && k <= |order| + 7
    requires NoGap(s, host)
    ensures ServedMidway(pf, s, text, order, k, store, host)
  {
    if k <= |order| + 5 {
      ServedBeforeRoute(pf, s, text, order, k, store, host);
      MixedServes(s, MadeBy(s.next, order, k));
    } else {
      ServedAfterRoute(pf, s, text, order, k, store, host);
    }
  }

  /** At the start the old version decides. */
  lemma ServedAtStart(pf: Platform, s: Shared, text: string, order: seq<string>, store: Store, host: string)
    requires HashLaws(pf) && s.Valid() && s.IsClear() && Reachable(s, host) && IsOrder(s.next, order)
    requires Intact(pf, s.next.meta.name, store) && Deployed(s.current, store)
    ensures ServedMidway(pf, s, text, order, 0, store, host) <==>
              NotClaimedEarlier(s.current, s.CurrentIndex(), s.Name()) && !NameIsFeed(s.current, s.url.path, host, s.Name())
  {
    ServedBeforeRoute(pf, s, text, order, 0, store, host);
    assert MadeBy(s.next, order, 0) == {};
    NothingDone(s);
  }

  /** At the end the new version decides. */
  lemma ServedAtEnd(pf: Platform, s: Shared, text: string, order: seq<string>, store: Store, host: string)
    requires HashLaws(pf) && s.Valid() && s.IsClear() && Reachable(s, host) && IsOrder(s.next, order)
    requires Intact(pf, s.next.meta.name, store) && Deployed(s.current, store)
    ensures ServedMidway(pf, s, text, order, |order| + 7, store, host) <==>
              NotClaimedEarlier(s.next, s.NextIndex(), s.Name()) && !NameIsFeed(s.next, s.url.path, host, s.Name())
  {
    ServedAfterRoute(pf, s, text, order, |order| + 7, store, host);
  }

  /** The group whose middleware loses the download when it is made. */
  predicate Loses(s: Shared, j: nat)
    requires s.Valid()
  {
    j < GroupCount(s.next) &&
    ((j == s.CurrentIndex() && !KeepsItsPlace(s)) ||
     (j < GroupCount(s.current) && j != s.NextIndex() && Less(Itoa(j), Itoa(s.CurrentIndex())) &&
      Claims(GroupTarget(s.next, j).files, s.Name())))
  }

  lemma SomeGroupLoses(s: Shared) returns (j: nat)
    requires s.Valid() && !(KeepsItsPlace(s) && NotClaimedMeanwhile(s))
    ensures Loses(s, j)
  {
    if !KeepsItsPlace(s) {
      j := s.CurrentIndex();
    } else {
      j :| 0 <= j < GroupCount(s.current) && j < GroupCount(s.next) && j != s.NextIndex() &&
           Less(Itoa(j), Itoa(s.CurrentIndex())) && Claims(GroupTarget(s.next, j).files, s.Name());
    }
  }

  lemma GapIsSeen(pf: Platform, s: Shared, text: string, store: Store, host: string) returns (order: seq<string>, k: nat)
    requires HashLaws(pf) && s.Valid() && s.IsClear() && Reachable(s, host)
    requires Intact(pf, s.next.meta.name, store) && Deployed(s.current, store) && !NoGap(s, host)
    ensures IsOrder(s.next, order) && k <= |order| + 7 && !ServedMidway(pf, s, text, order, k, store, host)
  {
    var j := s.NextIndex();
    if !(KeepsItsPlace(s) && NotClaimedMeanwhile(s)) {
      j := SomeGroupLoses(s);
      order := LostAt(pf, s, text, j, store, host);
      k := 6;
    } else {
      FrontOrderIsOrder(s.next, j);
      order := FrontOrder(GroupOrder(DownloadLinks(s.next)), j);
      ServedAtStart(pf, s, text, order, store, host);
      ServedAtEnd(pf, s, text, order, store, host);
      k := if ServedMidway(pf, s, text, order, 0, store, host) then |order| + 7 else 0;
    }
  }

  /** Making the middleware of this group first loses the download. */
  lemma LostAt(pf: Platform, s: Shared, text: string, j: nat, store: Store, host: string) returns (order: seq<string>)
    requires HashLaws(pf) && s.Valid() && s.IsClear() && Reachable(s, host)
    requires Intact(pf, s.next.meta.name, store) && Deployed(s.current, store) && Loses(s, j)
    ensures IsOrder(s.next, order) && |order| > 0 && !ServedMidway(pf, s, text, order, 6, store, host)
  {
    FrontOrderIsOrder(s.next, j);
    order := FrontOrder(GroupOrder(DownloadLinks(s.next)), j);
    ServedBeforeRoute(pf, s, text, order, 6, store, host);
    if j == s.CurrentIndex() && !KeepsItsPlace(s) {
      LostWhenMoved(s);
    } else {
      LostWhenClaimed(s, j);
    }
  }

  /**
   * While a reconcile brings the new version, a download that both versions have is served in every state in
   * between, for every order of the groups, if and only if there is no gap.
   */
  lemma ServedThroughoutExactly(pf: Platform, s: Shared, text: string, store: Store, host: string)
    requires HashLaws(pf) && s.Valid() && s.IsClear() && Reachable(s, host)
    requires Intact(pf, s.next.meta.name, store) && Deployed(s.current, store)
    ensures ServedThroughout(pf, s, text, store, host) <==> NoGap(s, host)
  {
    if NoGap(s, host) {
      forall order, k | IsOrder(s.next, order) && 0 <= k <= |order| + 7
        ensures ServedMidway(pf, s, text, order, k, store, host)
      {
        NoGapSuffices(pf, s, text, order, k, store, host);
      }
    } else {
      var order, k := GapIsSeen(pf, s, text, store, host);
    }
  }

  // ----- Inserting a group

  /** A new group in front takes the place of the first, that of the second, and so on: no download keeps its place. */
  lemma InsertedInFront(s: Shared, link: DownloadLink)
    requires s.Valid() && DownloadLinks(s.next) == [link] + DownloadLinks(s.current)
    requires link.GetBlobPrefix().Ok? && link.GetBlobPrefix().value !in GroupOrder(DownloadLinks(s.current))
    ensures !KeepsItsPlace(s)
  {
    var links, p := DownloadLinks(s.current), link.GetBlobPrefix().value;
    var own := s.link.GetBlobPrefix().value;
    assert Prefixes([link] + links) == [p] + Prefixes(links);
    DistinctCons(p, Prefixes(links));
    SameBlob(s);
    OwnGroup(s.current, s.link);
    OwnGroup(s.next, s.link');
    var order, order' := GroupOrder(links), GroupOrder([link] + links);
    assert order[s.CurrentIndex()] == own;
    assert order'[s.CurrentIndex() + 1] == own;
    IndexOfUnique(order', s.CurrentIndex() + 1);
  }

  /** Groups that are added behind leave every download in its place. */
  lemma AppendedBehind(s: Shared, more: seq<DownloadLink>)
    requires s.Valid() && DownloadLinks(s.next) == DownloadLinks(s.current) + more
    ensures KeepsItsPlace(s)
  {
    var links, own := DownloadLinks(s.current), s.link.GetBlobPrefix().value;
    assert AllSliceable(more) by {
      assert forall k :: 0 <= k < |more| ==> more[k] == (links + more)[|links| + k];
    }
    assert Prefixes(links + more) == Prefixes(links) + Prefixes(more);
    DistinctExtends(Prefixes(links), Prefixes(more));
    SameBlob(s);
    OwnGroup(s.current, s.link);
    OwnGroup(s.next, s.link');
    var order, order' := GroupOrder(links), GroupOrder(links + more);
    assert order[s.CurrentIndex()] == own && order'[s.CurrentIndex()] == own;
    IndexOfUnique(order', s.CurrentIndex());
  }
}
