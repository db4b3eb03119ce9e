/**
 * What requests meet in a whole run while an atom has a new version: reconciles of all atoms take their steps
 * interleaved, fail, are restarted and begin again, and the routes and middlewares move from the old version to the
 * new one meanwhile.
 */
module UpdatingRuns {
  import opened AtomTypes
  import opened KubeObjects
  import opened Middlewares
  import opened RequestRouting
  import opened Platforms
  import opened Workloads
  import opened Reconciling
  import opened ObjectKeys
  import opened StepSafety
  import opened OperatorRuns
  import opened Convergence
  import opened RollingUpdates
  import opened FeedUpdates
  import opened RetriedUpdates

  /** The object is none of those that steps for this atom write. */
  ghost predicate Foreign(pf: Platform, name: string, key: Key) {
    forall step :: KeyOf(pf, name, step) != key
  }

  /** Others leave the objects of this atom alone; anything else may happen. */
  ghost predicate Civil(pf: Platform, name: string, event: Event) {
    event.Touch? ==> Foreign(pf, name, event.key)
  }

  /**
   * A run in which the atom has the new version all along. At its start no reconcile of the atom is under way; later
   * there may be any number of them.
   */
  ghost predicate Rollout(pf: Platform, next: Atom, events: seq<Event>, trace: seq<World>) {
    && Behaviour(pf, events, trace) && Inv(pf, trace[0]) && next.meta.name !in trace[0].jobs
    && (forall i :: 0 <= i < |trace| ==> HasVersion(trace[i], next.meta.name, next))
    && (forall i :: 0 <= i < |events| ==> Civil(pf, next.meta.name, events[i]))
  }

  /** All objects that steps for this atom write are the same in both stores. */
  ghost predicate ObjectsStay(pf: Platform, name: string, store: Store, store': Store) {
    forall step :: SameAt(KeyOf(pf, name, step), store, store')
  }

  // ----- Frames

  lemma OthersTake(pf: Platform, w: World, taken: string, fault: Fault, name: string)
    requires HashLaws(pf) && Planned(w, taken) && JobSound(pf, w, taken) && taken != name
    ensures ObjectsStay(pf, name, w.store, AfterTake(pf, w, taken, fault).store)
  {
    var job := w.jobs[taken];
    forall step
      ensures SameAt(KeyOf(pf, name, step), w.store, AfterTake(pf, w, taken, fault).store)
    {
      KeyUnique(pf, name, step, taken, job.todo[0]);
      OthersUntouched(pf, job.atom, job.todo[0], fault, w.store, KeyOf(pf, name, step));
    }
  }

  lemma ForeignTouch(pf: Platform, w: World, key: Key, value: Stored, name: string)
    requires KindOf(value) == key.kind && Foreign(pf, name, key)
    ensures ObjectsStay(pf, name, w.store, WithObject(w, key, value).store)
  {
  }

  lemma SameStore(pf: Platform, name: string, store: Store)
    ensures ObjectsStay(pf, name, store, store)
  {
  }

  /** A step of this atom's own reconcile. */
  predicate OwnTake(event: Event, name: string) {
    event.Take? && event.name == name
  }

  lemma OthersEvent(pf: Platform, w: World, event: Event, name: string)
    requires HashLaws(pf) && Inv(pf, w) && Allowed(pf, w, event) && Civil(pf, name, event) && !OwnTake(event, name)
    ensures ObjectsStay(pf, name, w.store, After(pf, w, event).store)
  {
    match event
    case Take(taken, fault) =>
      assert JobSound(pf, w, taken);
      OthersTake(pf, w, taken, fault, name);
    case Touch(key, value) => ForeignTouch(pf, w, key, value, name);
    case _ => SameStore(pf, name, w.store);
  }

  lemma SpecStays(pf: Platform, name: string, store: Store, store': Store, i: nat)
    requires ObjectsStay(pf, name, store, store')
    ensures SameAt(MiddlewareKey(DownloadName(name, i)), store, store')
  {
    assert KeyOf(pf, name, EnsureDownload(i, "", [])) == MiddlewareKey(DownloadName(name, i));
  }

  lemma FixedStay(pf: Platform, name: string, store: Store, store': Store)
    requires ObjectsStay(pf, name, store, store')
    ensures SameAt(MiddlewareKey(HeadersName(name)), store, store') && SameAt(MiddlewareKey(StripPrefixName(name)), store, store')
    ensures SameRoutes(RouteKey(name), store, store')
  {
    assert KeyOf(pf, name, EnsureHeaders) == MiddlewareKey(HeadersName(name));
    assert KeyOf(pf, name, EnsureStripPrefix) == MiddlewareKey(StripPrefixName(name));
    assert KeyOf(pf, name, EnsureIngressRoute) == RouteKey(name);
  }

  lemma MadeForFrame(pf: Platform, atom: Atom, store: Store, store': Store, i: nat)
    requires AllSliceable(DownloadLinks(atom)) && i < GroupCount(atom)
    requires ObjectsStay(pf, atom.meta.name, store, store')
    ensures MadeFor(atom, i, store') == MadeFor(atom, i, store)
  {
    SpecStays(pf, atom.meta.name, store, store', i);
  }

  lemma RoutesStay(pf: Platform, atom: Atom, store: Store, store': Store)
    requires ObjectsStay(pf, atom.meta.name, store, store') && HasRoutesOf(atom, store)
    ensures HasRoutesOf(atom, store')
  {
    FixedStay(pf, atom.meta.name, store, store');
    RoutesFrame(atom, store, store');
  }

  lemma UnderwayFrame(pf: Platform, s: Shared, store: Store, store': Store)
    requires s.Valid() && Underway(s, store) && ObjectsStay(pf, s.next.meta.name, store, store')
    ensures Underway(s, store')
  {
    FixedStay(pf, s.next.meta.name, store, store');
    if OldRouted(s, store) {
      OldRoutedFrame(pf, s, store, store');
    } else {
      RoutesStay(pf, s.next, store, store');
      forall i | 0 <= i < GroupCount(s.next)
        ensures MadeFor(s.next, i, store')
      {
        MadeForFrame(pf, s.next, store, store', i);
      }
    }
  }

  lemma OldRoutedFrame(pf: Platform, s: Shared, store: Store, store': Store)
    requires s.Valid() && OldRouted(s, store) && ObjectsStay(pf, s.next.meta.name, store, store')
    ensures OldRouted(s, store')
  {
    RoutesStay(pf, s.current, store, store');
    forall i | 0 <= i < GroupCount(s.current)
      ensures OfEither(s, i, store')
    {
      OfEitherFrame(pf, s, store, store', i);
    }
  }

  lemma OfEitherFrame(pf: Platform, s: Shared, store: Store, store': Store, i: nat)
    requires s.Valid() && ObjectsStay(pf, s.next.meta.name, store, store')
    requires i < GroupCount(s.current) && OfEither(s, i, store)
    ensures OfEither(s, i, store')
  {
    MadeForFrame(pf, s.current, store, store', i);
    if i < GroupCount(s.next) {
      MadeForFrame(pf, s.next, store, store', i);
    }
  }

  // ----- A reconcile on its plan

  /** The reconcile is at step `m` of its plan, and has made the middlewares that come before. */
  ghost predicate OnPlanAt(pf: Platform, next: Atom, todo: seq<Step>, store: Store, text: string, order: seq<string>, m: nat)
    requires AllSliceable(DownloadLinks(next))
  {
    && IsOrder(next, order) && m <= |order| + 7
    && todo == PlannedSteps(pf, next, text, order)[m..] && MadeSoFar(next, order, m, store)
  }

  /** It has no steps yet, or is somewhere on its plan. */
  ghost predicate OnPlan(pf: Platform, next: Atom, todo: seq<Step>, store: Store)
    requires AllSliceable(DownloadLinks(next))
  {
    todo == [] || exists text, order, m: nat :: OnPlanAt(pf, next, todo, store, text, order, m)
  }

  lemma OnPlanFrame(pf: Platform, next: Atom, todo: seq<Step>, store: Store, store': Store)
    requires AllSliceable(DownloadLinks(next)) && OnPlan(pf, next, todo, store)
    requires ObjectsStay(pf, next.meta.name, store, store')
    ensures OnPlan(pf, next, todo, store')
  {
    if text, order, m: nat :| OnPlanAt(pf, next, todo, store, text, order, m) {
      forall i | i in MadeBy(next, order, m)
        ensures MadeFor(next, i, store')
      {
        MadeForFrame(pf, next, store, store', i);
      }
      assert OnPlanAt(pf, next, todo, store', text, order, m);
    }
  }

  lemma PlanBegins(pf: Platform, next: Atom, owner: OwnerInfo, order: seq<string>, store: Store)
    requires AllSliceable(DownloadLinks(next)) && IsOrder(next, order)
    ensures OnPlan(pf, next, PlanFor(pf, next, owner, order).steps, store)
  {
    if GeneratorText(pf, next, owner).Ok? {
      var text := GeneratorText(pf, next, owner).value;
      PlannedStepsAreTaken(pf, next, owner, order);
      var steps := PlannedSteps(pf, next, text, order);
      assert steps[0..] == steps && MadeBy(next, order, 0) == {};
      assert OnPlanAt(pf, next, steps, store, text, order, 0);
    }
  }

  // ----- What the run keeps

  ghost predicate Rolling(pf: Platform, s: Shared, w: World)
    requires s.Valid()
  {
    var name := s.next.meta.name;
    && Underway(s, w.store)
    && (name in w.jobs ==> w.jobs[name].atom == s.next && OnPlan(pf, s.next, w.jobs[name].todo, w.store))
  }

  /** One step of the plan, failing or not. */
  lemma StepRolls(
    pf: Platform, s: Shared, todo: seq<Step>, store: Store, fault: Fault, text: string, order: seq<string>, m: nat)
    requires HashLaws(pf) && s.Valid() && Underway(s, store) && todo != [] && AllRunnable(s.next, todo)
    requires OnPlanAt(pf, s.next, todo, store, text, order, m)
    ensures var attempted := Attempt(pf, s.next, todo[0], fault, store);
            && Underway(s, attempted.store)
            && (GoesOn(todo[0], attempted) ==> OnPlan(pf, s.next, todo[1..], attempted.store))
  {
    var steps := PlannedSteps(pf, s.next, text, order);
    assert steps[m..][0] == steps[m] && steps[m..][1..] == steps[m + 1..];
    StepKeeps(pf, s, text, order, m, fault, store);
    if GoesOn(todo[0], Attempt(pf, s.next, todo[0], fault, store)) {
      MadeNext(pf, s.next, text, order, m, fault, store);
      assert OnPlanAt(pf, s.next, todo[1..], Attempt(pf, s.next, todo[0], fault, store).store, text, order, m + 1);
    }
  }

  lemma TakeRolls(pf: Platform, s: Shared, w: World, fault: Fault)
    requires HashLaws(pf) && s.Valid() && Rolling(pf, s, w) && Planned(w, s.next.meta.name)
    requires AllRunnable(s.next, w.jobs[s.next.meta.name].todo)
    ensures Rolling(pf, s, AfterTake(pf, w, s.next.meta.name, fault))
  {
    var todo := w.jobs[s.next.meta.name].todo;
    var text, order, m: nat :| OnPlanAt(pf, s.next, todo, w.store, text, order, m);
    StepRolls(pf, s, todo, w.store, fault, text, order, m);
  }

  /** A reconcile that begins reads the new version. */
  lemma StartRolls(pf: Platform, s: Shared, w: World, order: seq<string>)
    requires s.Valid() && Rolling(pf, s, w) && Allowed(pf, w, Start(s.next.meta.name, order))
    ensures Rolling(pf, s, After(pf, w, Start(s.next.meta.name, order)))
  {
    PlanBegins(pf, s.next, w.owners[s.next.spec.service.ownerInfoRef], order, w.store);
  }

  lemma FetchRolls(pf: Platform, s: Shared, w: World)
    requires s.Valid() && Rolling(pf, s, w) && HasVersion(w, s.next.meta.name, s.next)
    ensures Rolling(pf, s, Fetched(w, s.next.meta.name))
  {
  }

  /** Whatever is not the atom's own reconcile leaves that as it is, or ends it. */
  lemma JobStays(pf: Platform, w: World, event: Event, name: string)
    requires Allowed(pf, w, event) && !OwnTake(event, name) && event != Fetch(name) && !(event.Start? && event.name == name)
    ensures name in After(pf, w, event).jobs ==> name in w.jobs && After(pf, w, event).jobs[name] == w.jobs[name]
  {
  }

  lemma OtherRolls(pf: Platform, s: Shared, w: World, w': World)
    requires s.Valid() && Rolling(pf, s, w) && ObjectsStay(pf, s.next.meta.name, w.store, w'.store)
    requires s.next.meta.name in w'.jobs ==>
               s.next.meta.name in w.jobs && w'.jobs[s.next.meta.name] == w.jobs[s.next.meta.name]
    ensures Rolling(pf, s, w')
  {
    var name := s.next.meta.name;
    UnderwayFrame(pf, s, w.store, w'.store);
    if name in w'.jobs {
      OnPlanFrame(pf, s.next, w.jobs[name].todo, w.store, w'.store);
    }
  }

  lemma EventRolls(pf: Platform, s: Shared, w: World, event: Event)
    requires HashLaws(pf) && s.Valid() && Inv(pf, w) && Rolling(pf, s, w) && Allowed(pf, w, event)
    requires Civil(pf, s.next.meta.name, event) && HasVersion(w, s.next.meta.name, s.next)
    ensures Rolling(pf, s, After(pf, w, event))
  {
    var name := s.next.meta.name;
    if OwnTake(event, name) {
      TakeRolls(pf, s, w, event.fault);
    } else if event.Start? && event.name == name {
      StartRolls(pf, s, w, event.order);
    } else if event == Fetch(name) {
      FetchRolls(pf, s, w);
    } else {
      OthersRoll(pf, s, w, event);
    }
  }

  lemma OthersRoll(pf: Platform, s: Shared, w: World, event: Event)
    requires HashLaws(pf) && s.Valid() && Inv(pf, w) && Rolling(pf, s, w) && Allowed(pf, w, event)
    requires var name := s.next.meta.name;
             Civil(pf, name, event) && !OwnTake(event, name) && event != Fetch(name) && !(event.Start? && event.name == name)
    ensures Rolling(pf, s, After(pf, w, event))
  {
    OthersEvent(pf, w, event, s.next.meta.name);
    JobStays(pf, w, event, s.next.meta.name);
    OtherRolls(pf, s, w, After(pf, w, event));
  }

  /** What each event keeps is there in every state. */
  lemma {:induction false} Along(states: seq<bool>, i: nat)
    requires i < |states| && states[0] && forall k :: 0 <= k < |states| - 1 && states[k] ==> states[k + 1]
    ensures states[i]
  {
    if i > 0 {
      Along(states, i - 1);
    }
  }

  lemma RollsAlong(pf: Platform, s: Shared, trace: seq<World>, i: nat)
    requires s.Valid() && i < |trace| && Rolling(pf, s, trace[0])
    requires forall k :: 0 <= k < |trace| - 1 && Rolling(pf, s, trace[k]) ==> Rolling(pf, s, trace[k + 1])
    ensures Rolling(pf, s, trace[i])
  {
    Along(seq(|trace|, k requires 0 <= k < |trace| => Rolling(pf, s, trace[k])), i);
  }

  lemma RunRolls(pf: Platform, s: Shared, events: seq<Event>, trace: seq<World>, i: nat)
    requires HashLaws(pf) && s.Valid() && Rollout(pf, s.next, events, trace) && Rolling(pf, s, trace[0]) && i < |trace|
    ensures Rolling(pf, s, trace[i])
  {
    forall k | 0 <= k < |trace| - 1 && Rolling(pf, s, trace[k])
      ensures Rolling(pf, s, trace[k + 1])
    {
      NextRolls(pf, s, events, trace, k);
    }
    RollsAlong(pf, s, trace, i);
  }

  lemma BeginRolls(pf: Platform, s: Shared, w: World)
    requires s.Valid() && Underway(s, w.store) && s.next.meta.name !in w.jobs
    ensures Rolling(pf, s, w)
  {
  }

  lemma NextRolls(pf: Platform, s: Shared, events: seq<Event>, trace: seq<World>, i: nat)
    requires HashLaws(pf) && s.Valid() && Rollout(pf, s.next, events, trace) && i < |events| && Rolling(pf, s, trace[i])
    ensures Rolling(pf, s, trace[i + 1])
  {
    EveryStateIsSound(pf, events, trace, i);
    EventRolls(pf, s, trace[i], events[i]);
  }

  // ----- Main results

  /**
   * In every state of every such run, whatever fails, restarts or goes on beside it, a download of both versions is
   * served, if there is no gap between them.
   */
  lemma ServedInEveryState(pf: Platform, s: Shared, events: seq<Event>, trace: seq<World>, i: nat, host: string)
    requires HashLaws(pf) && s.Valid() && s.IsClear() && Reachable(s, host) && NoGap(s, host)
    requires Rollout(pf, s.next, events, trace) && Deployed(s.current, trace[0].store) && i < |trace|
    ensures ServedAt(s, trace[i].store, host)
  {
    DeployedIsUnderway(s, trace[0].store);
    BeginRolls(pf, s, trace[0]);
    RunRolls(pf, s, events, trace, i);
    UnderwayServes(s, trace[i].store, host);
  }

  /** The same for feeds: every reconcile keeps what it finds of either version, or makes it the new one's. */
  ghost predicate FeedRolling(pf: Platform, s: SharedFeed, w: World)
    requires s.Valid()
  {
    FeedUnderway(s, w.store) && (s.next.meta.name in w.jobs ==> w.jobs[s.next.meta.name].atom == s.next)
  }

  lemma FeedUnderwayFrame(pf: Platform, s: SharedFeed, store: Store, store': Store)
    requires s.Valid() && FeedUnderway(s, store) && ObjectsStay(pf, s.next.meta.name, store, store')
    ensures FeedUnderway(s, store')
  {
    FixedStay(pf, s.next.meta.name, store, store');
    if HasRoutesOf(s.current, store) {
      RoutesStay(pf, s.current, store, store');
    } else {
      RoutesStay(pf, s.next, store, store');
    }
  }

  lemma FeedTakeRolls(pf: Platform, s: SharedFeed, w: World, fault: Fault)
    requires HashLaws(pf) && s.Valid() && FeedRolling(pf, s, w) && Planned(w, s.next.meta.name)
    requires AllRunnable(s.next, w.jobs[s.next.meta.name].todo)
    ensures FeedRolling(pf, s, AfterTake(pf, w, s.next.meta.name, fault))
  {
    FeedAttemptKeeps(pf, s, w.jobs[s.next.meta.name].todo[0], fault, w.store);
  }

  lemma FeedEventRolls(pf: Platform, s: SharedFeed, w: World, event: Event)
    requires HashLaws(pf) && s.Valid() && Inv(pf, w) && FeedRolling(pf, s, w) && Allowed(pf, w, event)
    requires Civil(pf, s.next.meta.name, event) && HasVersion(w, s.next.meta.name, s.next)
    ensures FeedRolling(pf, s, After(pf, w, event))
  {
    var name := s.next.meta.name;
    if OwnTake(event, name) {
      FeedTakeRolls(pf, s, w, event.fault);
    } else {
      OthersEvent(pf, w, event, name);
      SameAtomRead(pf, w, event, name);
      FeedOtherRolls(pf, s, w, After(pf, w, event));
    }
  }

  lemma SameAtomRead(pf: Platform, w: World, event: Event, name: string)
    requires Allowed(pf, w, event) && !OwnTake(event, name) && name in w.atoms
    ensures name in After(pf, w, event).jobs ==>
              After(pf, w, event).jobs[name].atom == if name in w.jobs then w.jobs[name].atom else w.atoms[name]
  {
  }

  lemma FeedOtherRolls(pf: Platform, s: SharedFeed, w: World, w': World)
    requires s.Valid() && FeedRolling(pf, s, w) && ObjectsStay(pf, s.next.meta.name, w.store, w'.store)
    requires s.next.meta.name in w'.jobs ==> w'.jobs[s.next.meta.name].atom == s.next
    ensures FeedRolling(pf, s, w')
  {
    FeedUnderwayFrame(pf, s, w.store, w'.store);
  }

  lemma FeedRollsAlong(pf: Platform, s: SharedFeed, trace: seq<World>, i: nat)
    requires s.Valid() && i < |trace| && FeedRolling(pf, s, trace[0])
    requires forall k :: 0 <= k < |trace| - 1 && FeedRolling(pf, s, trace[k]) ==> FeedRolling(pf, s, trace[k + 1])
    ensures FeedRolling(pf, s, trace[i])
  {
    Along(seq(|trace|, k requires 0 <= k < |trace| => FeedRolling(pf, s, trace[k])), i);
  }

  lemma FeedRunRolls(pf: Platform, s: SharedFeed, events: seq<Event>, trace: seq<World>, i: nat)
    requires HashLaws(pf) && s.Valid() && Rollout(pf, s.next, events, trace) && FeedRolling(pf, s, trace[0]) && i < |trace|
    ensures FeedRolling(pf, s, trace[i])
  {
    forall k | 0 <= k < |trace| - 1 && FeedRolling(pf, s, trace[k])
      ensures FeedRolling(pf, s, trace[k + 1])
    {
      FeedNextRolls(pf, s, events, trace, k);
    }
    FeedRollsAlong(pf, s, trace, i);
  }

  lemma FeedNextRolls(pf: Platform, s: SharedFeed, events: seq<Event>, trace: seq<World>, i: nat)
    requires HashLaws(pf) && s.Valid() && Rollout(pf, s.next, events, trace) && i < |events| && FeedRolling(pf, s, trace[i])
    ensures FeedRolling(pf, s, trace[i + 1])
  {
    EveryStateIsSound(pf, events, trace, i);
    FeedEventRolls(pf, s, trace[i], events[i]);
  }

  lemma FeedServedInEveryState(pf: Platform, s: SharedFeed, events: seq<Event>, trace: seq<World>, i: nat, host: string)
    requires HashLaws(pf) && s.Valid() && Answers(s.url, host) && NoFeedGap(s, host)
    requires Rollout(pf, s.next, events, trace) && FeedsDeployed(s.current, trace[0].store) && i < |trace|
    ensures FeedServedAt(s, trace[i].store, host)
  {
    FeedRunRolls(pf, s, events, trace, i);
    FeedUnderwayServes(s, trace[i].store, host);
  }
}
