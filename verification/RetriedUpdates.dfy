/**
 * What requests meet when an update does not get through at once: reconciles of the new version fail anywhere, any
 * number of times, each with its own order of the groups and its own faults, before one completes, if ever.
 */
module RetriedUpdates {
  import opened Sequences
  import opened AtomTypes
  import opened KubeObjects
  import opened Traefik
  import opened Middlewares
  import opened DownloadRouting
  import opened RequestRouting
  import opened Platforms
  import opened Workloads
  import opened Reconciling
  import opened ObjectKeys
  import opened StepSafety
  import opened OperatorRuns
  import opened Convergence
  import opened ServedState
  import opened RollingUpdates
  import opened FeedUpdates

  /** One reconcile: the configuration that it would mount, its order of the groups, and what befalls its requests. */
  datatype Try = Try(text: string, order: seq<string>, faults: seq<Fault>)

  ghost predicate AllTries(atom: Atom, tries: seq<Try>) {
    forall k :: 0 <= k < |tries| ==> IsOrder(atom, tries[k].order)
  }

  function AfterTry(pf: Platform, atom: Atom, try: Try, store: Store): Store
    requires AllSliceable(DownloadLinks(atom))
    requires forall p :: p in try.order ==> p in GroupOrder(DownloadLinks(atom))
  {
    Run(pf, atom, PlannedSteps(pf, atom, try.text, try.order), try.faults, store, map[]).store
  }

  ghost function AfterTries(pf: Platform, atom: Atom, tries: seq<Try>, store: Store): Store
    requires AllSliceable(DownloadLinks(atom)) && AllTries(atom, tries)
  {
    if tries == [] then store
    else
      var n := |tries| - 1;
      AfterTry(pf, atom, tries[n], AfterTries(pf, atom, tries[..n], store))
  }

  /** A try is what a reconcile does to the store. */
  lemma TryIsReconcile(pf: Platform, atom: Atom, owner: OwnerInfo, order: seq<string>, faults: seq<Fault>, store: Store)
    requires Deliverable(pf, atom, owner) && IsOrder(atom, order)
    ensures AllForAtom(pf, atom, owner, order, faults, store).store
            == AfterTry(pf, atom, Try(GeneratorText(pf, atom, owner).value, order, faults), store)
  {
    PlannedStepsAreTaken(pf, atom, owner, order);
    AllForAtomRuns(pf, atom, owner, order, faults, store, StepsFor(pf, atom, owner, order));
  }

  /** What a series of steps leaves in the store. */
  function Left(pf: Platform, atom: Atom, steps: seq<Step>, faults: seq<Fault>, store: Store): Store
    requires AllRunnable(atom, steps)
  {
    if steps == [] then store
    else
      var attempted := Attempt(pf, atom, steps[0], First(faults), store);
      if GoesOn(steps[0], attempted) then Left(pf, atom, steps[1..], Rest(faults), attempted.store) else attempted.store
  }

  lemma {:induction false} LeftByRun(
    pf: Platform, atom: Atom, steps: seq<Step>, faults: seq<Fault>, store: Store, results: Results)
    requires AllRunnable(atom, steps)
    ensures Run(pf, atom, steps, faults, store, results).store == Left(pf, atom, steps, faults, store)
  {
    if steps != [] {
      var attempted := Attempt(pf, atom, steps[0], First(faults), store);
      if GoesOn(steps[0], attempted) {
        LeftByRun(pf, atom, steps[1..], Rest(faults), attempted.store,
                  results[ResultKey(pf, atom.meta.name, steps[0]) := attempted.result]);
      }
    }
  }

  // ----- One attempt

  /** A download step of the plan is that of one of the atom's groups. */
  predicate OfThePlan(atom: Atom, step: Step)
    requires AllSliceable(DownloadLinks(atom))
  {
    step.EnsureDownload? ==>
      step.index < GroupCount(atom) &&
      step == EnsureDownload(step.index, GroupTarget(atom, step.index).prefix, GroupTarget(atom, step.index).files)
  }

  lemma PlanIsOfThePlan(pf: Platform, atom: Atom, text: string, order: seq<string>, m: nat)
    requires AllSliceable(DownloadLinks(atom)) && IsOrder(atom, order) && m < |order| + 7
    ensures OfThePlan(atom, PlannedSteps(pf, atom, text, order)[m])
  {
    PlannedStep(pf, atom, text, order, m);
    if 5 <= m < 5 + |order| {
      DownloadStepIs(atom, order[m - 5]);
    }
  }

  /** An attempt writes what its step makes, or nothing. */
  lemma HoldsOrSame(pf: Platform, atom: Atom, step: Step, fault: Fault, store: Store)
    requires Runnable(atom, step)
    ensures var attempted := Attempt(pf, atom, step, fault, store);
            && (attempted.store == store || Holds(pf, atom, step, store, attempted.store))
            && (attempted.err.None? ==> Holds(pf, atom, step, store, attempted.store))
  {
    AttemptEffect(pf, atom, step, fault, store);
    PutDone(store, KeyOf(pf, atom.meta.name, step), Made(pf, atom, step, store), fault);
  }

  /** A step about another thing leaves the object as it is. */
  lemma OtherObjectStays(pf: Platform, atom: Atom, step: Step, fault: Fault, store: Store, other: Step)
    requires HashLaws(pf) && Runnable(atom, step) && !SameObject(step, other)
    ensures SameAt(KeyOf(pf, atom.meta.name, other), store, Attempt(pf, atom, step, fault, store).store)
  {
    KeyUnique(pf, atom.meta.name, step, atom.meta.name, other);
    OthersUntouched(pf, atom, step, fault, store, KeyOf(pf, atom.meta.name, other));
  }

  /** The middleware of the group is the one this version asks for. */
  predicate MadeFor(atom: Atom, i: nat, store: Store)
    requires AllSliceable(DownloadLinks(atom)) && i < GroupCount(atom)
  {
    SpecIs(store, DownloadName(atom.meta.name, i), GroupTarget(atom, i).Spec())
  }

  /** After an attempt a download middleware is as before or as the version asks. */
  lemma DownloadAfter(pf: Platform, atom: Atom, step: Step, fault: Fault, store: Store, i: nat)
    requires HashLaws(pf) && AllSliceable(DownloadLinks(atom)) && OfThePlan(atom, step)
    ensures var store' := Attempt(pf, atom, step, fault, store).store;
            SameAt(MiddlewareKey(DownloadName(atom.meta.name, i)), store, store') || (i < GroupCount(atom) && MadeFor(atom, i, store'))
  {
    var other := EnsureDownload(i, "", []);
    assert KeyOf(pf, atom.meta.name, other) == MiddlewareKey(DownloadName(atom.meta.name, i));
    if SameObject(step, other) {
      HoldsOrSame(pf, atom, step, fault, store);
      OwnDownloadAfter(pf, atom, step, store, Attempt(pf, atom, step, fault, store).store);
    } else {
      OtherObjectStays(pf, atom, step, fault, store, other);
    }
  }

  lemma OwnDownloadAfter(pf: Platform, atom: Atom, step: Step, store: Store, store': Store)
    requires AllSliceable(DownloadLinks(atom)) && OfThePlan(atom, step) && step.EnsureDownload?
    requires store' == store || Holds(pf, atom, step, store, store')
    ensures SameAt(MiddlewareKey(DownloadName(atom.meta.name, step.index)), store, store') || MadeFor(atom, step.index, store')
  {
    if store' != store {
      DownloadSpecHeld(pf, atom, step.index, store, store');
    }
  }

  lemma HeadersAfter(pf: Platform, atom: Atom, step: Step, fault: Fault, store: Store)
    requires HashLaws(pf) && Runnable(atom, step) && HeadersThere(store, HeadersName(atom.meta.name))
    ensures HeadersThere(Attempt(pf, atom, step, fault, store).store, HeadersName(atom.meta.name))
  {
    assert KeyOf(pf, atom.meta.name, EnsureHeaders) == MiddlewareKey(HeadersName(atom.meta.name));
    if step == EnsureHeaders {
      HoldsOrSame(pf, atom, step, fault, store);
      if Attempt(pf, atom, step, fault, store).store != store {
        HeadersHeld(pf, atom, store, Attempt(pf, atom, step, fault, store).store);
      }
    } else {
      OtherObjectStays(pf, atom, step, fault, store, EnsureHeaders);
    }
  }

  /** The routes stay until the IngressRoute's step; then they are the version's own, or still as before. */
  lemma RoutesAfter(pf: Platform, atom: Atom, step: Step, fault: Fault, store: Store)
    requires HashLaws(pf) && AllSliceable(DownloadLinks(atom))
    ensures var store' := Attempt(pf, atom, step, fault, store).store;
            SameRoutes(RouteKey(atom.meta.name), store, store') || (step == EnsureIngressRoute && HasRoutesOf(atom, store'))
  {
    assert KeyOf(pf, atom.meta.name, EnsureIngressRoute) == RouteKey(atom.meta.name);
    if step == EnsureIngressRoute {
      HoldsOrSame(pf, atom, step, fault, store);
      if Attempt(pf, atom, step, fault, store).store != store {
        RoutesAreCurrent(pf, atom, store, Attempt(pf, atom, step, fault, store).store);
      }
    } else {
      OtherObjectStays(pf, atom, step, fault, store, EnsureIngressRoute);
    }
  }

  // ----- Downloads, whatever fails

  /** The middleware of a group of the old version is of either version. */
  predicate OfEither(s: Shared, i: nat, store: Store)
    requires s.Valid() && i < GroupCount(s.current)
  {
    MadeFor(s.current, i, store) || (i < GroupCount(s.next) && MadeFor(s.next, i, store))
  }

  ghost predicate OldRouted(s: Shared, store: Store)
    requires s.Valid()
  {
    HasRoutesOf(s.current, store) && forall i :: 0 <= i < GroupCount(s.current) ==> OfEither(s, i, store)
  }

  ghost predicate AllMadeFor(atom: Atom, store: Store)
    requires AllSliceable(DownloadLinks(atom))
  {
    forall i :: 0 <= i < GroupCount(atom) ==> MadeFor(atom, i, store)
  }

  /** What every reconcile of the new version keeps, however it ends. */
  ghost predicate Underway(s: Shared, store: Store)
    requires s.Valid()
  {
    && HeadersThere(store, HeadersName(s.next.meta.name))
    && (OldRouted(s, store) || (HasRoutesOf(s.next, store) && AllMadeFor(s.next, store)))
  }

  lemma DeployedIsUnderway(s: Shared, store: Store)
    requires s.Valid() && Deployed(s.current, store)
    ensures Underway(s, store)
  {
    forall i | 0 <= i < GroupCount(s.current)
      ensures OfEither(s, i, store)
    {
      assert MadeFor(s.current, i, store);
    }
  }

  lemma MadeForStays(pf: Platform, atom: Atom, step: Step, fault: Fault, store: Store, i: nat)
    requires HashLaws(pf) && AllSliceable(DownloadLinks(atom)) && OfThePlan(atom, step)
    requires i < GroupCount(atom) && MadeFor(atom, i, store)
    ensures MadeFor(atom, i, Attempt(pf, atom, step, fault, store).store)
  {
    DownloadAfter(pf, atom, step, fault, store, i);
  }

  lemma OfEitherStays(pf: Platform, s: Shared, step: Step, fault: Fault, store: Store, i: nat)
    requires HashLaws(pf) && s.Valid() && OfThePlan(s.next, step) && i < GroupCount(s.current) && OfEither(s, i, store)
    ensures OfEither(s, i, Attempt(pf, s.next, step, fault, store).store)
  {
    DownloadAfter(pf, s.next, step, fault, store, i);
  }

  lemma OldRoutedStays(pf: Platform, s: Shared, step: Step, fault: Fault, store: Store)
    requires HashLaws(pf) && s.Valid() && OfThePlan(s.next, step) && OldRouted(s, store)
    requires SameRoutes(RouteKey(s.next.meta.name), store, Attempt(pf, s.next, step, fault, store).store)
    ensures OldRouted(s, Attempt(pf, s.next, step, fault, store).store)
  {
    var store' := Attempt(pf, s.next, step, fault, store).store;
    RoutesFrame(s.current, store, store');
    forall i | 0 <= i < GroupCount(s.current)
      ensures OfEither(s, i, store')
    {
      OfEitherStays(pf, s, step, fault, store, i);
    }
  }

  lemma AllMadeStays(pf: Platform, atom: Atom, step: Step, fault: Fault, store: Store)
    requires HashLaws(pf) && AllSliceable(DownloadLinks(atom)) && OfThePlan(atom, step) && AllMadeFor(atom, store)
    ensures AllMadeFor(atom, Attempt(pf, atom, step, fault, store).store)
  {
    forall i | 0 <= i < GroupCount(atom)
      ensures MadeFor(atom, i, Attempt(pf, atom, step, fault, store).store)
    {
      MadeForStays(pf, atom, step, fault, store, i);
    }
  }

  /** The IngressRoute comes last, so the new routes find the new middlewares. */
  lemma AttemptKeeps(pf: Platform, s: Shared, step: Step, fault: Fault, store: Store)
    requires HashLaws(pf) && s.Valid() && OfThePlan(s.next, step) && Underway(s, store)
    requires step == EnsureIngressRoute ==> AllMadeFor(s.next, store)
    ensures Underway(s, Attempt(pf, s.next, step, fault, store).store)
  {
    var store' := Attempt(pf, s.next, step, fault, store).store;
    HeadersAfter(pf, s.next, step, fault, store);
    RoutesAfter(pf, s.next, step, fault, store);
    if AllMadeFor(s.next, store) {
      AllMadeStays(pf, s.next, step, fault, store);
    }
    if SameRoutes(RouteKey(s.next.meta.name), store, store') {
      if OldRouted(s, store) {
        OldRoutedStays(pf, s, step, fault, store);
      } else {
        RoutesFrame(s.next, store, store');
      }
    }
  }

  /** The middlewares that the first `m` steps of the order are for are the new version's. */
  ghost predicate MadeSoFar(atom: Atom, order: seq<string>, m: nat, store: Store)
    requires AllSliceable(DownloadLinks(atom)) && forall p :: p in order ==> p in GroupOrder(DownloadLinks(atom))
  {
    forall i :: i in MadeBy(atom, order, m) ==> MadeFor(atom, i, store)
  }

  lemma MadeNext(pf: Platform, atom: Atom, text: string, order: seq<string>, m: nat, fault: Fault, store: Store)
    requires HashLaws(pf) && AllSliceable(DownloadLinks(atom)) && IsOrder(atom, order) && m < |order| + 7
    requires MadeSoFar(atom, order, m, store)
    requires var step := PlannedSteps(pf, atom, text, order)[m]; GoesOn(step, Attempt(pf, atom, step, fault, store))
    ensures MadeSoFar(atom, order, m + 1, Attempt(pf, atom, PlannedSteps(pf, atom, text, order)[m], fault, store).store)
  {
    var step := PlannedSteps(pf, atom, text, order)[m];
    PlanIsOfThePlan(pf, atom, text, order, m);
    forall i | i in MadeBy(atom, order, m + 1)
      ensures MadeFor(atom, i, Attempt(pf, atom, step, fault, store).store)
    {
      if i in MadeBy(atom, order, m) {
        MadeForStays(pf, atom, step, fault, store, i);
      } else {
        JustMade(pf, atom, text, order, m, fault, store, i);
      }
    }
  }

  lemma JustMade(pf: Platform, atom: Atom, text: string, order: seq<string>, m: nat, fault: Fault, store: Store, i: nat)
    requires AllSliceable(DownloadLinks(atom)) && IsOrder(atom, order) && m < |order| + 7
    requires i in MadeBy(atom, order, m + 1) && i !in MadeBy(atom, order, m)
    requires var step := PlannedSteps(pf, atom, text, order)[m]; GoesOn(step, Attempt(pf, atom, step, fault, store))
    ensures MadeFor(atom, i, Attempt(pf, atom, PlannedSteps(pf, atom, text, order)[m], fault, store).store)
  {
    var groups, step := GroupOrder(DownloadLinks(atom)), PlannedSteps(pf, atom, text, order)[m];
    var q :| 0 <= q < |order| && q + 5 < m + 1 && i == IndexOf(groups, order[q]);
    assert q + 5 == m;
    PlannedStep(pf, atom, text, order, m);
    DownloadStepIs(atom, order[q]);
    HoldsOrSame(pf, atom, step, fault, store);
    DownloadSpecHeld(pf, atom, i, store, Attempt(pf, atom, step, fault, store).store);
  }

  /** From any point of its plan on, a reconcile keeps it, wherever it fails. */
  lemma {:induction false} SeriesKeeps(
    pf: Platform, s: Shared, text: string, order: seq<string>, m: nat, faults: seq<Fault>, store: Store)
    requires HashLaws(pf) && s.Valid() && IsOrder(s.next, order) && m <= |order| + 7
    requires Underway(s, store) && MadeSoFar(s.next, order, m, store)
    ensures var steps := PlannedSteps(pf, s.next, text, order);
            AllRunnable(s.next, steps[m..]) && Underway(s, Left(pf, s.next, steps[m..], faults, store))
    decreases |order| + 7 - m
  {
    var steps := PlannedSteps(pf, s.next, text, order);
    if m < |steps| {
      var attempted := Attempt(pf, s.next, steps[m], First(faults), store);
      StepKeeps(pf, s, text, order, m, First(faults), store);
      assert steps[m..][0] == steps[m] && steps[m..][1..] == steps[m + 1..];
      if GoesOn(steps[m], attempted) {
        MadeNext(pf, s.next, text, order, m, First(faults), store);
        SeriesKeeps(pf, s, text, order, m + 1, Rest(faults), attempted.store);
      }
    }
  }

  lemma StepKeeps(pf: Platform, s: Shared, text: string, order: seq<string>, m: nat, fault: Fault, store: Store)
    requires HashLaws(pf) && s.Valid() && IsOrder(s.next, order) && m < |order| + 7
    requires Underway(s, store) && MadeSoFar(s.next, order, m, store)
    ensures Underway(s, Attempt(pf, s.next, PlannedSteps(pf, s.next, text, order)[m], fault, store).store)
  {
    var step := PlannedSteps(pf, s.next, text, order)[m];
    PlanIsOfThePlan(pf, s.next, text, order, m);
    PlannedStep(pf, s.next, text, order, m);
    if step == EnsureIngressRoute {
      forall i | 0 <= i < GroupCount(s.next)
        ensures MadeFor(s.next, i, store)
      {
        AllMade(s.next, order, m, i);
      }
    }
    AttemptKeeps(pf, s, step, fault, store);
  }

  lemma TryKeeps(pf: Platform, s: Shared, try: Try, store: Store)
    requires HashLaws(pf) && s.Valid() && IsOrder(s.next, try.order) && Underway(s, store)
    ensures Underway(s, AfterTry(pf, s.next, try, store))
  {
    var steps := PlannedSteps(pf, s.next, try.text, try.order);
    assert MadeBy(s.next, try.order, 0) == {} && steps[0..] == steps;
    SeriesKeeps(pf, s, try.text, try.order, 0, try.faults, store);
    LeftByRun(pf, s.next, steps, try.faults, store, map[]);
  }

  lemma {:induction false} TriesKeep(pf: Platform, s: Shared, tries: seq<Try>, store: Store)
    requires HashLaws(pf) && s.Valid() && AllTries(s.next, tries) && Underway(s, store)
    ensures Underway(s, AfterTries(pf, s.next, tries, store))
  {
    if tries != [] {
      var n := |tries| - 1;
      TriesKeep(pf, s, tries[..n], store);
      TryKeeps(pf, s, tries[n], AfterTries(pf, s.next, tries[..n], store));
    }
  }

  // ----- The download after any number of tries

  /** The groups whose middlewares are the new version's. */
  function NewAt(s: Shared, store: Store): (done: set<nat>)
    requires s.Valid()
    ensures Within(done, GroupCount(s.next))
  {
    set i | 0 <= i < GroupCount(s.next) && MadeFor(s.next, i, store)
  }

  lemma OldRoutedServes(s: Shared, store: Store, host: string)
    requires s.Valid() && s.IsClear() && Reachable(s, host) && NoGap(s, host)
    requires OldRouted(s, store) && HeadersThere(store, HeadersName(s.current.meta.name))
    ensures ServedAt(s, store, host)
  {
    var done := NewAt(s, store);
    var mixed := MixedChain(s.current, s.next, done);
    MixedIsClear(s, done);
    forall p | 0 <= p < |mixed|
      ensures SpecIs(store, ChainNames(s.current)[p], mixed[p].Spec())
    {
      MixedSpec(s, store, IndexAt(s.current, p));
    }
    ServedByChain(s.current, s, store, host, mixed);
    MixedServes(s, done);
  }

  lemma MixedSpec(s: Shared, store: Store, i: nat)
    requires s.Valid() && i < GroupCount(s.current) && OfEither(s, i, store)
    ensures SpecIs(store, DownloadName(s.current.meta.name, i), MixedTarget(s.current, s.next, NewAt(s, store), i).Spec())
  {
  }

  lemma NewRoutedServes(s: Shared, store: Store, host: string)
    requires s.Valid() && s.IsClear() && Reachable(s, host) && NoGap(s, host)
    requires HasRoutesOf(s.next, store) && AllMadeFor(s.next, store) && HeadersThere(store, HeadersName(s.next.meta.name))
    ensures ServedAt(s, store, host)
  {
    var targets := ChainTargets(s.next);
    forall p | 0 <= p < |targets|
      ensures SpecIs(store, ChainNames(s.next)[p], targets[p].Spec())
    {
      assert MadeFor(s.next, IndexAt(s.next, p), store);
    }
    ReversedIsClear(s);
    NothingDone(Reversed(s));
    MixedIsClear(Reversed(s), {});
    SameBlob(s);
    ServedByChain(s.next, s, store, host, targets);
  }

  lemma UnderwayServes(s: Shared, store: Store, host: string)
    requires s.Valid() && s.IsClear() && Reachable(s, host) && NoGap(s, host) && Underway(s, store)
    ensures ServedAt(s, store, host)
  {
    if OldRouted(s, store) {
      OldRoutedServes(s, store, host);
    } else {
      NewRoutedServes(s, store, host);
    }
  }

  // ----- A reconcile that is cut short

  /** The requests of the first `k` steps succeed, and the next is refused. */
  function Until(k: nat): seq<Fault> {
    if k == 0 then [Refused] else [NoFault] + Until(k - 1)
  }

  /** Cut short after `k` steps, a series leaves what these leave. */
  lemma {:induction false} CutSeries(pf: Platform, atom: Atom, steps: seq<Step>, k: nat, store: Store)
    requires AllRunnable(atom, steps) && k <= |steps|
    ensures AllRunnable(atom, steps[..k])
    ensures Left(pf, atom, steps, Until(k), store) == Left(pf, atom, steps[..k], [], store)
  {
    if k == 0 {
      CutAtOnce(pf, atom, steps, store);
    } else {
      CutSeries(pf, atom, steps[1..], k - 1, Attempt(pf, atom, steps[0], NoFault, store).store);
      CutLater(pf, atom, steps, k, store, Attempt(pf, atom, steps[0], NoFault, store));
    }
  }

  lemma CutLater(pf: Platform, atom: Atom, steps: seq<Step>, k: nat, store: Store, next: Attempted)
    requires 0 < k <= |steps| && AllRunnable(atom, steps) && next == Attempt(pf, atom, steps[0], NoFault, store)
    requires Left(pf, atom, steps[1..], Until(k - 1), next.store) == Left(pf, atom, steps[1..][..k - 1], [], next.store)
    ensures Left(pf, atom, steps, Until(k), store) == Left(pf, atom, steps[..k], [], store)
  {
    var done := steps[..k];
    assert done[0] == steps[0] && done[1..] == steps[1..][..k - 1] && Until(k)[1..] == Until(k - 1);
    LeftCons(pf, atom, steps, steps[1..], Until(k), Until(k - 1), store, next);
    LeftCons(pf, atom, done, done[1..], [], [], store, next);
  }

  lemma CutAtOnce(pf: Platform, atom: Atom, steps: seq<Step>, store: Store)
    requires AllRunnable(atom, steps)
    ensures Left(pf, atom, steps, Until(0), store) == store
  {
  }

  lemma LeftCons(
    pf: Platform, atom: Atom, steps: seq<Step>, rest: seq<Step>, faults: seq<Fault>, later: seq<Fault>, store: Store,
    next: Attempted)
    requires steps != [] && AllRunnable(atom, steps) && rest == steps[1..] && later == Rest(faults)
    requires next == Attempt(pf, atom, steps[0], First(faults), store)
    ensures Left(pf, atom, steps, faults, store)
            == if GoesOn(steps[0], next) then Left(pf, atom, rest, later, next.store) else next.store
  {
  }

  /** Every state midway is one that a reconcile may end in. */
  lemma MidwayIsTried(pf: Platform, atom: Atom, text: string, order: seq<string>, k: nat, store: Store)
    requires AllSliceable(DownloadLinks(atom)) && IsOrder(atom, order) && k <= |order| + 7
    ensures AfterTries(pf, atom, [Try(text, order, Until(k))], store)
            == Midway(pf, atom, PlannedSteps(pf, atom, text, order), k, store)
  {
    var steps := PlannedSteps(pf, atom, text, order);
    CutSeries(pf, atom, steps, k, store);
    LeftByRun(pf, atom, steps, Until(k), store, map[]);
    LeftByRun(pf, atom, steps[..k], [], store, map[]);
    assert [Try(text, order, Until(k))][..0] == [];
  }

  // ----- Main results

  predicate TextsAmong(tries: seq<Try>, texts: set<string>) {
    forall k :: 0 <= k < |tries| ==> tries[k].text in texts
  }

  /** The download is served after whatever tries to bring the new version with one of these configurations. */
  ghost predicate ServedAfterAnyTries(pf: Platform, s: Shared, texts: set<string>, store: Store, host: string)
    requires s.Valid()
  {
    forall tries :: AllTries(s.next, tries) && TextsAmong(tries, texts) ==>
      ServedAt(s, AfterTries(pf, s.next, tries, store), host)
  }

  lemma ServedAfterTries(pf: Platform, s: Shared, tries: seq<Try>, store: Store, host: string)
    requires HashLaws(pf) && s.Valid() && s.IsClear() && Reachable(s, host) && NoGap(s, host)
    requires Deployed(s.current, store) && AllTries(s.next, tries)
    ensures ServedAt(s, AfterTries(pf, s.next, tries, store), host)
  {
    DeployedIsUnderway(s, store);
    TriesKeep(pf, s, tries, store);
    UnderwayServes(s, AfterTries(pf, s.next, tries, store), host);
  }

  lemma GapIsMet(pf: Platform, s: Shared, text: string, store: Store, host: string) returns (tries: seq<Try>)
    requires HashLaws(pf) && s.Valid() && s.IsClear() && Reachable(s, host)
    requires Intact(pf, s.next.meta.name, store) && Deployed(s.current, store) && !NoGap(s, host)
    ensures AllTries(s.next, tries) && TextsAmong(tries, {text}) && !ServedAt(s, AfterTries(pf, s.next, tries, store), host)
  {
    var order, k := GapIsSeen(pf, s, text, store, host);
    MidwayIsTried(pf, s.next, text, order, k, store);
    tries := [Try(text, order, Until(k))];
  }

  /**
   * However often reconciles of the new version fail, and wherever, with whatever configurations and orders, a download
   * that both versions have is served after every one of them, if and only if there is no gap.
   */
  lemma ServedAfterAnyTriesExactly(pf: Platform, s: Shared, texts: set<string>, store: Store, host: string)
    requires HashLaws(pf) && s.Valid() && s.IsClear() && Reachable(s, host) && texts != {}
    requires Intact(pf, s.next.meta.name, store) && Deployed(s.current, store)
    ensures ServedAfterAnyTries(pf, s, texts, store, host) <==> NoGap(s, host)
  {
    if NoGap(s, host) {
      forall tries | AllTries(s.next, tries) && TextsAmong(tries, texts)
        ensures ServedAt(s, AfterTries(pf, s.next, tries, store), host)
      {
        ServedAfterTries(pf, s, tries, store, host);
      }
    } else {
      var text :| text in texts;
      var tries := GapIsMet(pf, s, text, store, host);
      assert TextsAmong(tries, texts);
    }
  }

  // ----- Feeds, whatever fails

  predicate StripsFor(atom: Atom, store: Store) {
    SpecIs(store, StripPrefixName(atom.meta.name), StripPrefix(StripPrefixes(atom)))
  }

  /** Routes and strip middleware are of either version. */
  ghost predicate FeedUnderway(s: SharedFeed, store: Store)
    requires s.Valid()
  {
    && HeadersThere(store, HeadersName(s.next.meta.name))
    && (HasRoutesOf(s.current, store) || HasRoutesOf(s.next, store))
    && (StripsFor(s.current, store) || StripsFor(s.next, store))
  }

  lemma StripAfter(pf: Platform, atom: Atom, step: Step, fault: Fault, store: Store)
    requires HashLaws(pf) && Runnable(atom, step)
    ensures var store' := Attempt(pf, atom, step, fault, store).store;
            SameAt(MiddlewareKey(StripPrefixName(atom.meta.name)), store, store') || StripsFor(atom, store')
  {
    assert KeyOf(pf, atom.meta.name, EnsureStripPrefix) == MiddlewareKey(StripPrefixName(atom.meta.name));
    if step == EnsureStripPrefix {
      HoldsOrSame(pf, atom, step, fault, store);
      if Attempt(pf, atom, step, fault, store).store != store {
        StripPrefixHeld(pf, atom, store, Attempt(pf, atom, step, fault, store).store);
      }
    } else {
      OtherObjectStays(pf, atom, step, fault, store, EnsureStripPrefix);
    }
  }

  lemma RoutesOfEither(pf: Platform, s: SharedFeed, step: Step, fault: Fault, store: Store)
    requires HashLaws(pf) && s.Valid() && (HasRoutesOf(s.current, store) || HasRoutesOf(s.next, store))
    ensures var store' := Attempt(pf, s.next, step, fault, store).store; HasRoutesOf(s.current, store') || HasRoutesOf(s.next, store')
  {
    var store' := Attempt(pf, s.next, step, fault, store).store;
    RoutesAfter(pf, s.next, step, fault, store);
    if SameRoutes(RouteKey(s.next.meta.name), store, store') {
      if HasRoutesOf(s.current, store) {
        RoutesFrame(s.current, store, store');
      } else {
        RoutesFrame(s.next, store, store');
      }
    }
  }

  lemma FeedAttemptKeeps(pf: Platform, s: SharedFeed, step: Step, fault: Fault, store: Store)
    requires HashLaws(pf) && s.Valid() && FeedUnderway(s, store)
    ensures FeedUnderway(s, Attempt(pf, s.next, step, fault, store).store)
  {
    HeadersAfter(pf, s.next, step, fault, store);
    RoutesOfEither(pf, s, step, fault, store);
    StripAfter(pf, s.next, step, fault, store);
  }

  lemma {:induction false} FeedSeriesKeeps(pf: Platform, s: SharedFeed, steps: seq<Step>, faults: seq<Fault>, store: Store)
    requires HashLaws(pf) && s.Valid() && AllRunnable(s.next, steps) && FeedUnderway(s, store)
    ensures FeedUnderway(s, Left(pf, s.next, steps, faults, store))
  {
    if steps != [] {
      var attempted := Attempt(pf, s.next, steps[0], First(faults), store);
      FeedAttemptKeeps(pf, s, steps[0], First(faults), store);
      if GoesOn(steps[0], attempted) {
        FeedSeriesKeeps(pf, s, steps[1..], Rest(faults), attempted.store);
      }
    }
  }

  lemma FeedTryKeeps(pf: Platform, s: SharedFeed, try: Try, store: Store)
    requires HashLaws(pf) && s.Valid() && IsOrder(s.next, try.order) && FeedUnderway(s, store)
    ensures FeedUnderway(s, AfterTry(pf, s.next, try, store))
  {
    var steps := PlannedSteps(pf, s.next, try.text, try.order);
    FeedSeriesKeeps(pf, s, steps, try.faults, store);
    LeftByRun(pf, s.next, steps, try.faults, store, map[]);
  }

  lemma {:induction false} FeedTriesKeep(pf: Platform, s: SharedFeed, tries: seq<Try>, store: Store)
    requires HashLaws(pf) && s.Valid() && AllTries(s.next, tries) && FeedUnderway(s, store)
    ensures FeedUnderway(s, AfterTries(pf, s.next, tries, store))
  {
    if tries != [] {
      var n := |tries| - 1;
      FeedTriesKeep(pf, s, tries[..n], store);
      FeedTryKeeps(pf, s, tries[n], AfterTries(pf, s.next, tries[..n], store));
    }
  }

  lemma FeedUnderwayServes(s: SharedFeed, store: Store, host: string)
    requires s.Valid() && Answers(s.url, host) && NoFeedGap(s, host) && FeedUnderway(s, store)
    ensures FeedServedAt(s, store, host)
  {
    var routing := if HasRoutesOf(s.current, store) then s.current else s.next;
    var stripping := if StripsFor(s.current, store) then s.current else s.next;
    OwnPrefixListed(s);
    ServedByVersions(s, routing, stripping, store, host);
  }

  /** The feed is served after whatever tries to bring the new version with one of these configurations. */
  ghost predicate FeedServedAfterAnyTries(pf: Platform, s: SharedFeed, texts: set<string>, store: Store, host: string)
    requires s.Valid()
  {
    forall tries :: AllTries(s.next, tries) && TextsAmong(tries, texts) ==>
      FeedServedAt(s, AfterTries(pf, s.next, tries, store), host)
  }

  lemma FeedServedAfterTries(pf: Platform, s: SharedFeed, tries: seq<Try>, store: Store, host: string)
    requires HashLaws(pf) && s.Valid() && Answers(s.url, host) && NoFeedGap(s, host)
    requires FeedsDeployed(s.current, store) && AllTries(s.next, tries)
    ensures FeedServedAt(s, AfterTries(pf, s.next, tries, store), host)
  {
    FeedTriesKeep(pf, s, tries, store);
    FeedUnderwayServes(s, AfterTries(pf, s.next, tries, store), host);
  }

  /** A try that is cut short at the start and one that completes show the gaps of both versions. */
  lemma NoFeedGapIsMet(pf: Platform, s: SharedFeed, text: string, texts: set<string>, store: Store, host: string)
    requires HashLaws(pf) && s.Valid() && Answers(s.url, host) && text in texts
    requires Intact(pf, s.next.meta.name, store) && FeedsDeployed(s.current, store)
    requires FeedServedAfterAnyTries(pf, s, texts, store, host)
    ensures NoFeedGap(s, host)
  {
    var order := GroupOrder(DownloadLinks(s.next));
    NaturalOrder(s.next);
    MidwayIsMet(pf, s, text, texts, order, 0, store, host);
    MidwayIsMet(pf, s, text, texts, order, |order| + 7, store, host);
    FeedGapIsSeen(pf, s, text, order, store, host);
  }

  lemma MidwayIsMet(
    pf: Platform, s: SharedFeed, text: string, texts: set<string>, order: seq<string>, k: nat, store: Store, host: string)
    requires s.Valid() && text in texts && IsOrder(s.next, order) && k <= |order| + 7
    requires FeedServedAfterAnyTries(pf, s, texts, store, host)
    ensures FeedServedMidway(pf, s, text, order, k, store, host)
  {
    var tries := [Try(text, order, Until(k))];
    assert AllTries(s.next, tries) && TextsAmong(tries, texts);
    MidwayIsTried(pf, s.next, text, order, k, store);
  }

  /** The same for feeds: a feed of both versions is served after every try if and only if neither version has a gap. */
  lemma FeedServedAfterAnyTriesExactly(pf: Platform, s: SharedFeed, texts: set<string>, store: Store, host: string)
    requires HashLaws(pf) && s.Valid() && Answers(s.url, host) && texts != {}
    requires Intact(pf, s.next.meta.name, store) && FeedsDeployed(s.current, store)
    ensures FeedServedAfterAnyTries(pf, s, texts, store, host) <==> NoFeedGap(s, host)
  {
    if NoFeedGap(s, host) {
      forall tries | AllTries(s.next, tries) && TextsAmong(tries, texts)
        ensures FeedServedAt(s, AfterTries(pf, s.next, tries, store), host)
      {
        FeedServedAfterTries(pf, s, tries, store, host);
      }
    } else if FeedServedAfterAnyTries(pf, s, texts, store, host) {
      var text :| text in texts;
      NoFeedGapIsMet(pf, s, text, texts, store, host);
    }
  }
}
