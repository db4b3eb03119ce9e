/**
 * What a fault-free reconcile achieves from any intact store: every object of the plan is what the operator
 * wants it to be, nothing else changes, the order of the groups is irrelevant, and a second reconcile has
 * nothing to do.
 */
module Convergence {
  import opened Wrappers
  import opened Sequences
  import opened AtomTypes
  import opened KubeObjects
  import opened Middlewares
  import opened IngressRoutes
  import opened Platforms
  import opened Workloads
  import opened Reconciling
  import opened ObjectKeys
  import opened StepSafety

  // ----- Mutating twice

  lemma MutatedWorkloadTwice(pf: Platform, atom: Atom, step: Step, stored: Stored)
    requires Runnable(atom, step) && KindOf(stored) == StepKind(step) && step.EnsureDeployment?
    ensures MutatedBy(pf, atom, step, MutatedBy(pf, atom, step, stored)) == MutatedBy(pf, atom, step, stored)
  {
    var deployment := stored.deployment;
    ObjectLabelsStable(atom, deployment.labels);
    ObjectLabelsStable(atom, deployment.template.labels);
    AnnotationsStable(deployment.template.annotations, POD_ANNOTATIONS);
  }

  lemma AnnotationsStable(annotations: Labels, added: Labels)
    ensures annotations + added + added == annotations + added
  {
  }

  lemma MutatedConfigMapTwice(pf: Platform, atom: Atom, text: string, stored: Stored)
    requires KindOf(stored) == ConfigMapKind
    ensures var step := EnsureConfigMap(text);
            MutatedBy(pf, atom, step, MutatedBy(pf, atom, step, stored)) == MutatedBy(pf, atom, step, stored)
  {
    ObjectLabelsStable(atom, stored.configMap.labels);
  }

  lemma MutatedRouteTwice(pf: Platform, atom: Atom, stored: IngressRoute)
    requires AllSliceable(DownloadLinks(atom))
    ensures IngressRouteFor(atom, pf.uptime, IngressRouteFor(atom, pf.uptime, stored)) == IngressRouteFor(atom, pf.uptime, stored)
  {
    ObjectLabelsStable(atom, stored.labels);
  }

  lemma MutatedMiddlewareTwice(pf: Platform, atom: Atom, step: Step, stored: Stored)
    requires Runnable(atom, step) && KindOf(stored) == StepKind(step) == MiddlewareKind
    ensures MutatedBy(pf, atom, step, MutatedBy(pf, atom, step, stored)) == MutatedBy(pf, atom, step, stored)
  {
    ObjectLabelsStable(atom, stored.middleware.labels);
  }

  /** What a step makes of an object it leaves alone the next time. */
  lemma MutatedTwice(pf: Platform, atom: Atom, step: Step, stored: Stored)
    requires Runnable(atom, step) && KindOf(stored) == StepKind(step)
    ensures MutatedBy(pf, atom, step, MutatedBy(pf, atom, step, stored)) == MutatedBy(pf, atom, step, stored)
  {
    match step
    case EnsureConfigMap(text) => MutatedConfigMapTwice(pf, atom, text, stored);
    case EnsureDeployment(_) => MutatedWorkloadTwice(pf, atom, step, stored);
    case EnsureService => ObjectLabelsStable(atom, stored.service.labels);
    case EnsureBudget => ObjectLabelsStable(atom, stored.budget.labels);
    case EnsureIngressRoute => MutatedRouteTwice(pf, atom, stored.ingressRoute);
    case _ => MutatedMiddlewareTwice(pf, atom, step, stored);
  }

  function LabelsOf(stored: Stored): Labels {
    match stored
    case AConfigMap(o) => o.labels
    case ADeployment(o) => o.labels
    case AService(o) => o.labels
    case AMiddleware(o) => o.labels
    case AnIngressRoute(o) => o.labels
    case ABudget(o) => o.labels
  }

  /** Labels that others put on an object stay, except where the atom or the operator sets the same key. */
  lemma ForeignLabelsStay(pf: Platform, atom: Atom, step: Step, stored: Stored, foreign: string)
    requires Runnable(atom, step) && KindOf(stored) == StepKind(step)
    requires foreign in LabelsOf(stored) && foreign !in LabelSelector(atom)
    ensures var labels := LabelsOf(MutatedBy(pf, atom, step, stored));
            foreign in labels && labels[foreign] == LabelsOf(stored)[foreign]
  {
    LabelsOfMutated(pf, atom, step, stored);
    ObjectLabelsStable(atom, LabelsOf(stored));
  }

  lemma LabelsOfMutated(pf: Platform, atom: Atom, step: Step, stored: Stored)
    requires Runnable(atom, step) && KindOf(stored) == StepKind(step)
    ensures LabelsOf(MutatedBy(pf, atom, step, stored)) == ObjectLabels(atom, LabelsOf(stored))
  {
  }

  // ----- Runs without faults

  /** No two steps are about the same object. */
  predicate Apart(steps: seq<Step>) {
    forall i, j :: 0 <= i < j < |steps| ==> !SameObject(steps[i], steps[j])
  }

  predicate SameAt(key: Key, store: Store, store': Store) {
    (key in store <==> key in store') && (key in store ==> store[key] == store'[key])
  }

  function Made(pf: Platform, atom: Atom, step: Step, store: Store): (value: Stored)
    requires Runnable(atom, step)
    ensures KindOf(value) == StepKind(step)
  {
    MutatedBy(pf, atom, step, Current(pf, atom.meta.name, step, store))
  }

  predicate Holds(pf: Platform, atom: Atom, step: Step, before: Store, after: Store)
    requires Runnable(atom, step)
  {
    var key := KeyOf(pf, atom.meta.name, step);
    key in after && after[key] == Made(pf, atom, step, before)
  }

  predicate Touched(pf: Platform, atomName: string, steps: seq<Step>, key: Key) {
    exists k :: 0 <= k < |steps| && KeyOf(pf, atomName, steps[k]) == key
  }

  /** Every step's object is what the step makes of the object before; all else is as before. */
  ghost predicate Reached(pf: Platform, atom: Atom, steps: seq<Step>, before: Store, after: Store)
    requires AllRunnable(atom, steps)
  {
    && (forall k :: 0 <= k < |steps| ==> Holds(pf, atom, steps[k], before, after))
    && (forall key :: !Touched(pf, atom.meta.name, steps, key) ==> SameAt(key, before, after))
  }

  lemma CleanAttempt(pf: Platform, atom: Atom, step: Step, store: Store)
    requires Runnable(atom, step) && !Blocked(pf, atom.meta.name, step, store)
    ensures var attempted := Attempt(pf, atom, step, NoFault, store);
            attempted.err.None? && attempted.store == store[KeyOf(pf, atom.meta.name, step) := Made(pf, atom, step, store)]
  {
    PutClean(store, KeyOf(pf, atom.meta.name, step), Made(pf, atom, step, store));
  }

  lemma PutClean(store: Store, key: Key, value: Stored)
    requires KindOf(value) == key.kind
    ensures Put(store, key, value, NoFault).err.None? && Put(store, key, value, NoFault).store == store[key := value]
  {
  }

  /** A step does not notice a write to another object. */
  lemma OtherWriteUnnoticed(pf: Platform, atom: Atom, step: Step, store: Store, store': Store)
    requires Runnable(atom, step) && SameAt(KeyOf(pf, atom.meta.name, step), store, store')
    ensures Made(pf, atom, step, store) == Made(pf, atom, step, store')
    ensures Blocked(pf, atom.meta.name, step, store) == Blocked(pf, atom.meta.name, step, store')
  {
    assert Current(pf, atom.meta.name, step, store) == Current(pf, atom.meta.name, step, store');
  }

  lemma ReachedCons(pf: Platform, atom: Atom, steps: seq<Step>, before: Store, between: Store, after: Store)
    requires steps != [] && AllRunnable(atom, steps)
    requires between == before[KeyOf(pf, atom.meta.name, steps[0]) := Made(pf, atom, steps[0], before)]
    requires Reached(pf, atom, steps[1..], between, after)
    requires forall k :: 0 < k < |steps| ==> KeyOf(pf, atom.meta.name, steps[k]) != KeyOf(pf, atom.meta.name, steps[0])
    ensures Reached(pf, atom, steps, before, after)
  {
    var name, rest := atom.meta.name, steps[1..];
    forall k | 0 <= k < |steps|
      ensures Holds(pf, atom, steps[k], before, after)
    {
      if k > 0 {
        assert rest[k - 1] == steps[k] && Holds(pf, atom, rest[k - 1], between, after);
        OtherWriteUnnoticed(pf, atom, steps[k], before, between);
      } else {
        assert !Touched(pf, name, rest, KeyOf(pf, name, steps[0]));
      }
    }
    forall key | !Touched(pf, name, steps, key)
      ensures SameAt(key, before, after)
    {
      assert KeyOf(pf, name, steps[0]) != key;
      assert !Touched(pf, name, rest, key);
    }
  }

  lemma {:induction false} CleanRun(pf: Platform, atom: Atom, steps: seq<Step>, store: Store, results: Results)
    requires HashLaws(pf) && AllRunnable(atom, steps) && Apart(steps)
    requires forall k :: 0 <= k < |steps| ==> !Blocked(pf, atom.meta.name, steps[k], store)
    ensures var outcome := Run(pf, atom, steps, [], store, results);
            outcome.err.None? && Reached(pf, atom, steps, store, outcome.store)
  {
    if steps != [] {
      var name, attempted := atom.meta.name, Attempt(pf, atom, steps[0], NoFault, store);
      CleanAttempt(pf, atom, steps[0], store);
      forall k | 0 < k < |steps|
        ensures KeyOf(pf, name, steps[k]) != KeyOf(pf, name, steps[0])
        ensures !Blocked(pf, name, steps[k], attempted.store)
      {
        KeyUnique(pf, name, steps[0], name, steps[k]);
        OtherWriteUnnoticed(pf, atom, steps[k], store, attempted.store);
      }
      var results' := results[ResultKey(pf, name, steps[0]) := attempted.result];
      CleanRun(pf, atom, steps[1..], attempted.store, results');
      ReachedCons(pf, atom, steps, store, attempted.store, Run(pf, atom, steps[1..], [], attempted.store, results').store);
    }
  }

  // ----- Runs that report success

  function FaultAt(faults: seq<Fault>, k: nat): Fault {
    if k < |faults| then faults[k] else NoFault
  }

  /** The step's object is what it should be, or it is a Deployment that met a conflict and stayed as it was. */
  predicate Done(pf: Platform, atom: Atom, step: Step, fault: Fault, before: Store, after: Store)
    requires Runnable(atom, step)
  {
    Holds(pf, atom, step, before, after) ||
    (step.EnsureDeployment? && fault.Conflict? &&
     KeyOf(pf, atom.meta.name, step) in before && SameAt(KeyOf(pf, atom.meta.name, step), before, after))
  }

  ghost predicate AllDone(pf: Platform, atom: Atom, steps: seq<Step>, faults: seq<Fault>, before: Store, after: Store)
    requires AllRunnable(atom, steps)
  {
    && (forall k :: 0 <= k < |steps| ==> Done(pf, atom, steps[k], FaultAt(faults, k), before, after))
    && (forall key :: !Touched(pf, atom.meta.name, steps, key) ==> SameAt(key, before, after))
  }

  lemma PutDone(store: Store, key: Key, value: Stored, fault: Fault)
    requires KindOf(value) == key.kind
    ensures var attempted := Put(store, key, value, fault);
            && (attempted.err.None? ==> key in attempted.store && attempted.store[key] == value)
            && (attempted.err == Some(Modified) ==> fault.Conflict? && key in store && attempted.store == store)
  {
  }

  lemma AttemptDone(pf: Platform, atom: Atom, step: Step, fault: Fault, store: Store)
    requires Runnable(atom, step) && GoesOn(step, Attempt(pf, atom, step, fault, store))
    ensures Done(pf, atom, step, fault, store, Attempt(pf, atom, step, fault, store).store)
  {
    PutDone(store, KeyOf(pf, atom.meta.name, step), Made(pf, atom, step, store), fault);
  }

  lemma OthersUntouched(pf: Platform, atom: Atom, step: Step, fault: Fault, store: Store, key: Key)
    requires Runnable(atom, step) && KeyOf(pf, atom.meta.name, step) != key
    ensures SameAt(key, store, Attempt(pf, atom, step, fault, store).store)
  {
    AttemptEffect(pf, atom, step, fault, store);
  }

  lemma DoneCons(
    pf: Platform, atom: Atom, steps: seq<Step>, faults: seq<Fault>, before: Store, between: Store, after: Store)
    requires steps != [] && AllRunnable(atom, steps)
    requires Done(pf, atom, steps[0], First(faults), before, between)
    requires forall key :: KeyOf(pf, atom.meta.name, steps[0]) != key ==> SameAt(key, before, between)
    requires AllDone(pf, atom, steps[1..], Rest(faults), between, after)
    requires forall k :: 0 < k < |steps| ==> KeyOf(pf, atom.meta.name, steps[k]) != KeyOf(pf, atom.meta.name, steps[0])
    ensures AllDone(pf, atom, steps, faults, before, after)
  {
    var name, rest := atom.meta.name, steps[1..];
    assert !Touched(pf, name, rest, KeyOf(pf, name, steps[0]));
    assert SameAt(KeyOf(pf, name, steps[0]), between, after);
    forall k | 0 <= k < |steps|
      ensures Done(pf, atom, steps[k], FaultAt(faults, k), before, after)
    {
      if k > 0 {
        assert Done(pf, atom, rest[k - 1], FaultAt(Rest(faults), k - 1), between, after);
        OtherWriteUnnoticed(pf, atom, steps[k], before, between);
      }
    }
    forall key | !Touched(pf, name, steps, key)
      ensures SameAt(key, before, after)
    {
      assert KeyOf(pf, name, steps[0]) != key && !Touched(pf, name, rest, key);
      assert SameAt(key, before, between) && SameAt(key, between, after);
    }
  }

  /** If a series reports no error, all its objects are as wanted, but for a Deployment that met a conflict. */
  lemma {:induction false} SuccessfulRun(
    pf: Platform, atom: Atom, steps: seq<Step>, faults: seq<Fault>, store: Store, results: Results)
    requires HashLaws(pf) && AllRunnable(atom, steps) && Apart(steps)
    requires Run(pf, atom, steps, faults, store, results).err.None?
    ensures AllDone(pf, atom, steps, faults, store, Run(pf, atom, steps, faults, store, results).store)
  {
    if steps != [] {
      var name, attempted := atom.meta.name, Attempt(pf, atom, steps[0], First(faults), store);
      AttemptDone(pf, atom, steps[0], First(faults), store);
      forall key | KeyOf(pf, name, steps[0]) != key
        ensures SameAt(key, store, attempted.store)
      {
        OthersUntouched(pf, atom, steps[0], First(faults), store, key);
      }
      forall k | 0 < k < |steps|
        ensures KeyOf(pf, name, steps[k]) != KeyOf(pf, name, steps[0])
      {
        KeyUnique(pf, name, steps[0], name, steps[k]);
      }
      var results' := results[ResultKey(pf, name, steps[0]) := attempted.result];
      SuccessfulRun(pf, atom, steps[1..], Rest(faults), attempted.store, results');
      DoneCons(pf, atom, steps, faults, store, attempted.store,
               Run(pf, atom, steps[1..], Rest(faults), attempted.store, results').store);
    }
  }

  // ----- Order

  /** The outcome depends on which steps were taken, not on their order. */
  lemma ReachedUnique(pf: Platform, atom: Atom, a: seq<Step>, b: seq<Step>, before: Store, after: Store, after': Store)
    requires AllRunnable(atom, a) && AllRunnable(atom, b)
    requires Reached(pf, atom, a, before, after) && Reached(pf, atom, b, before, after')
    requires forall step :: step in a <==> step in b
    ensures after == after'
  {
    forall key
      ensures SameAt(key, after, after')
    {
      TouchedBySame(pf, atom.meta.name, a, b, key);
      if Touched(pf, atom.meta.name, a, key) {
        var k :| 0 <= k < |a| && KeyOf(pf, atom.meta.name, a[k]) == key;
        assert a[k] in b;
        var m :| 0 <= m < |b| && b[m] == a[k];
        assert Holds(pf, atom, a[k], before, after) && Holds(pf, atom, b[m], before, after');
      } else {
        assert SameAt(key, before, after) && SameAt(key, before, after');
      }
    }
    SameEverywhere(after, after');
  }

  lemma TouchedBySame(pf: Platform, atomName: string, a: seq<Step>, b: seq<Step>, key: Key)
    requires forall step :: step in a <==> step in b
    ensures Touched(pf, atomName, a, key) <==> Touched(pf, atomName, b, key)
  {
    if k :| 0 <= k < |a| && KeyOf(pf, atomName, a[k]) == key {
      assert a[k] in b;
    }
    if k :| 0 <= k < |b| && KeyOf(pf, atomName, b[k]) == key {
      assert b[k] in a;
    }
  }

  lemma SameEverywhere(after: Store, after': Store)
    requires forall key :: SameAt(key, after, after')
    ensures after == after'
  {
    forall key
      ensures key in after <==> key in after'
    {
      assert SameAt(key, after, after');
    }
    forall key | key in after
      ensures after[key] == after'[key]
    {
      assert SameAt(key, after, after');
    }
  }

  // ----- Runs with nothing to do

  /** The object of the step is there and the step would not change it. */
  predicate Settled(pf: Platform, atom: Atom, step: Step, store: Store)
    requires Runnable(atom, step)
  {
    var key := KeyOf(pf, atom.meta.name, step);
    key in store && store[key] == Made(pf, atom, step, store) && !Blocked(pf, atom.meta.name, step, store)
  }

  lemma IdleAttempt(pf: Platform, atom: Atom, step: Step, fault: Fault, store: Store)
    requires Runnable(atom, step) && Settled(pf, atom, step, store)
    ensures Attempt(pf, atom, step, fault, store)
            == Attempted(store, Unchanged, if fault.Refused? then Some(ApiFailed) else None)
  {
  }

  /** Whatever befalls the requests, nothing changes; and only a refused request stops the series. */
  lemma {:induction false} IdleRun(
    pf: Platform, atom: Atom, steps: seq<Step>, faults: seq<Fault>, store: Store, results: Results)
    requires AllRunnable(atom, steps)
    requires forall k :: 0 <= k < |steps| ==> Settled(pf, atom, steps[k], store)
    requires forall key :: key in results ==> results[key] == Unchanged
    ensures var outcome := Run(pf, atom, steps, faults, store, results);
            && outcome.store == store
            && (forall key :: key in outcome.results ==> outcome.results[key] == Unchanged)
            && (outcome.err.Some? ==> Refused in faults)
  {
    if steps != [] {
      IdleAttempt(pf, atom, steps[0], First(faults), store);
      if !First(faults).Refused? {
        var results' := results[ResultKey(pf, atom.meta.name, steps[0]) := Unchanged];
        IdleRun(pf, atom, steps[1..], Rest(faults), store, results');
      }
    }
  }

  /** What was reached is settled. */
  lemma ReachedSettles(pf: Platform, atom: Atom, steps: seq<Step>, before: Store, after: Store, k: nat)
    requires HashLaws(pf) && AllRunnable(atom, steps) && Reached(pf, atom, steps, before, after)
    requires Intact(pf, atom.meta.name, before) && k < |steps|
    ensures Settled(pf, atom, steps[k], after)
  {
    var step, name := steps[k], atom.meta.name;
    assert Holds(pf, atom, step, before, after);
    MutatedTwice(pf, atom, step, Current(pf, name, step, before));
    if step.EnsureConfigMap? {
      ConfigMapData(pf, atom, step.text, before);
      HashSuffixLaws(pf, name, step.text, ConfigData(step.text));
    }
  }

  // ----- The plan

  lemma ApartAppend(a: seq<Step>, b: seq<Step>)
    requires Apart(a) && Apart(b)
    requires forall i, j :: 0 <= i < |a| && 0 <= j < |b| ==> !SameObject(a[i], b[j])
    ensures Apart(a + b)
  {
  }

  lemma DownloadsApart(atom: Atom, order: seq<string>)
    requires AllSliceable(DownloadLinks(atom)) && IsOrder(atom, order)
    ensures Apart(DownloadSteps(atom, order))
    ensures forall k :: 0 <= k < |order| ==> DownloadSteps(atom, order)[k].EnsureDownload?
  {
    var groups, steps := GroupOrder(DownloadLinks(atom)), DownloadSteps(atom, order);
    forall i, j | 0 <= i < j < |steps|
      ensures !SameObject(steps[i], steps[j])
    {
      assert order[i] in groups && order[j] in groups;
      assert groups[IndexOf(groups, order[i])] == order[i] && groups[IndexOf(groups, order[j])] == order[j];
    }
  }

  lemma PlanApart(pf: Platform, atom: Atom, text: string, order: seq<string>)
    requires AllSliceable(DownloadLinks(atom)) && IsOrder(atom, order)
    ensures Apart(CoreSteps(pf, atom, text) + LaterSteps(atom, order))
  {
    DownloadsApart(atom, order);
    var core, downloads := CoreSteps(pf, atom, text), DownloadSteps(atom, order);
    assert Apart(FINAL_STEPS);
    ApartAppend(downloads, FINAL_STEPS);
    assert Apart(core);
    ApartAppend(core, downloads + FINAL_STEPS);
  }

  /** All orders plan the same steps. */
  lemma SameSteps(pf: Platform, atom: Atom, text: string, order: seq<string>, order': seq<string>, step: Step)
    requires AllSliceable(DownloadLinks(atom)) && IsOrder(atom, order) && IsOrder(atom, order')
    requires step in CoreSteps(pf, atom, text) + LaterSteps(atom, order)
    ensures step in CoreSteps(pf, atom, text) + LaterSteps(atom, order')
  {
    if step in DownloadSteps(atom, order) {
      var k :| 0 <= k < |order| && DownloadSteps(atom, order)[k] == step;
      assert order[k] in order';
      var m :| 0 <= m < |order'| && order'[m] == order[k];
      assert DownloadSteps(atom, order')[m] == step;
    }
  }

  // ----- Whole reconciles

  /** What a reconcile needs to get through: a text to configure with, and links that can be grouped. */
  predicate Deliverable(pf: Platform, atom: Atom, owner: OwnerInfo) {
    GeneratorText(pf, atom, owner).Ok? && AllSliceable(DownloadLinks(atom))
  }

  ghost function StepsFor(pf: Platform, atom: Atom, owner: OwnerInfo, order: seq<string>): (steps: seq<Step>)
    requires Deliverable(pf, atom, owner) && IsOrder(atom, order)
    ensures AllRunnable(atom, steps)
    ensures steps == CoreSteps(pf, atom, GeneratorText(pf, atom, owner).value) + LaterSteps(atom, order)
  {
    PlanFor(pf, atom, owner, order).steps
  }

  lemma AllForAtomRuns(
    pf: Platform, atom: Atom, owner: OwnerInfo, order: seq<string>, faults: seq<Fault>, store: Store, steps: seq<Step>)
    requires Deliverable(pf, atom, owner) && IsOrder(atom, order) && steps == StepsFor(pf, atom, owner, order)
    ensures AllForAtom(pf, atom, owner, order, faults, store) == Run(pf, atom, steps, faults, store, map[])
  {
  }

  lemma StepsApart(pf: Platform, atom: Atom, owner: OwnerInfo, order: seq<string>)
    requires Deliverable(pf, atom, owner) && IsOrder(atom, order)
    ensures Apart(StepsFor(pf, atom, owner, order))
  {
    PlanApart(pf, atom, GeneratorText(pf, atom, owner).value, order);
  }

  lemma StepsSame(pf: Platform, atom: Atom, owner: OwnerInfo, order: seq<string>, order': seq<string>)
    requires Deliverable(pf, atom, owner) && IsOrder(atom, order) && IsOrder(atom, order')
    ensures forall step :: step in StepsFor(pf, atom, owner, order) <==> step in StepsFor(pf, atom, owner, order')
  {
    var text := GeneratorText(pf, atom, owner).value;
    forall step
      ensures step in StepsFor(pf, atom, owner, order) <==> step in StepsFor(pf, atom, owner, order')
    {
      if step in StepsFor(pf, atom, owner, order) {
        SameSteps(pf, atom, text, order, order', step);
      }
      if step in StepsFor(pf, atom, owner, order') {
        SameSteps(pf, atom, text, order', order, step);
      }
    }
  }

  /** From any intact store a fault-free reconcile reaches what is wanted. */
  lemma Converges(pf: Platform, atom: Atom, owner: OwnerInfo, order: seq<string>, store: Store)
    requires HashLaws(pf) && Deliverable(pf, atom, owner) && IsOrder(atom, order)
    requires Intact(pf, atom.meta.name, store)
    ensures var outcome := AllForAtom(pf, atom, owner, order, [], store);
            outcome.err.None? && Reached(pf, atom, StepsFor(pf, atom, owner, order), store, outcome.store)
  {
    var steps := StepsFor(pf, atom, owner, order);
    StepsApart(pf, atom, owner, order);
    AllForAtomRuns(pf, atom, owner, order, [], store, steps);
    forall k | 0 <= k < |steps|
      ensures !Blocked(pf, atom.meta.name, steps[k], store)
    {
      IntactNotBlocked(pf, atom.meta.name, steps[k], store);
    }
    CleanRun(pf, atom, steps, store, map[]);
  }

  /** A reconcile that reports success, whatever befell its requests, did all it should but for that conflict. */
  lemma SuccessMeansDone(
    pf: Platform, atom: Atom, owner: OwnerInfo, order: seq<string>, faults: seq<Fault>, store: Store)
    requires HashLaws(pf) && Deliverable(pf, atom, owner) && IsOrder(atom, order)
    requires AllForAtom(pf, atom, owner, order, faults, store).err.None?
    ensures AllDone(pf, atom, StepsFor(pf, atom, owner, order), faults, store,
                    AllForAtom(pf, atom, owner, order, faults, store).store)
  {
    StepsApart(pf, atom, owner, order);
    AllForAtomRuns(pf, atom, owner, order, faults, store, StepsFor(pf, atom, owner, order));
    SuccessfulRun(pf, atom, StepsFor(pf, atom, owner, order), faults, store, map[]);
  }

  /** A blocked first step ends the series. */
  lemma BlockedRun(pf: Platform, atom: Atom, steps: seq<Step>, store: Store, results: Results)
    requires steps != [] && AllRunnable(atom, steps) && Blocked(pf, atom.meta.name, steps[0], store)
    ensures Run(pf, atom, steps, [], store, results).err == Some(KeyChanged)
  {
  }

  /** Only the ConfigMap's step can be blocked, and it comes first. */
  lemma OthersNotBlocked(pf: Platform, atom: Atom, text: string, order: seq<string>, k: nat)
    requires AllSliceable(DownloadLinks(atom)) && IsOrder(atom, order)
    requires 0 < k < |CoreSteps(pf, atom, text) + LaterSteps(atom, order)|
    ensures !(CoreSteps(pf, atom, text) + LaterSteps(atom, order))[k].EnsureConfigMap?
  {
    var core, later, downloads := CoreSteps(pf, atom, text), LaterSteps(atom, order), DownloadSteps(atom, order);
    assert (core + later)[k] == if k < 5 then core[k] else later[k - 5];
    DownloadsApart(atom, order);
    NoConfigMapIn(downloads, FINAL_STEPS);
  }

  lemma NoConfigMapIn(downloads: seq<Step>, final: seq<Step>)
    requires forall k :: 0 <= k < |downloads| ==> downloads[k].EnsureDownload?
    requires forall k :: 0 <= k < |final| ==> !final[k].EnsureConfigMap?
    ensures forall k :: 0 <= k < |downloads + final| ==> !(downloads + final)[k].EnsureConfigMap?
  {
  }

  lemma UndeliverableFails(pf: Platform, atom: Atom, owner: OwnerInfo, order: seq<string>, store: Store)
    requires IsOrder(atom, order) && !Deliverable(pf, atom, owner)
    ensures AllForAtom(pf, atom, owner, order, [], store).err.Some?
  {
  }

  /** A fault-free reconcile succeeds exactly when there is something to deliver and nobody tampered with its ConfigMap. */
  lemma SucceedsExactly(pf: Platform, atom: Atom, owner: OwnerInfo, order: seq<string>, store: Store)
    requires HashLaws(pf) && IsOrder(atom, order)
    ensures AllForAtom(pf, atom, owner, order, [], store).err.None? <==>
              Deliverable(pf, atom, owner) && !Tampered(pf, atom.meta.name, GeneratorText(pf, atom, owner).value, store)
  {
    if Deliverable(pf, atom, owner) {
      var steps, text := StepsFor(pf, atom, owner, order), GeneratorText(pf, atom, owner).value;
      TamperedIsBlockedExactly(pf, atom.meta.name, text, store);
      AllForAtomRuns(pf, atom, owner, order, [], store, steps);
      assert steps[0] == EnsureConfigMap(text);
      if Tampered(pf, atom.meta.name, text, store) {
        TamperedFails(pf, atom, owner, order, store);
      } else {
        CleanSteps(pf, atom, owner, order, store);
      }
    } else {
      UndeliverableFails(pf, atom, owner, order, store);
    }
  }

  /** A store in which the ConfigMap of the current text holds another stops every reconcile of that text. */
  lemma TamperedStops(pf: Platform, atom: Atom, owner: OwnerInfo, order: seq<string>)
    requires HashLaws(pf) && Deliverable(pf, atom, owner) && IsOrder(atom, order)
    ensures var text := GeneratorText(pf, atom, owner).value;
            var store: Store := map[ConfigKey(pf, atom.meta.name, text) :=
                                      AConfigMap(ConfigMap(map[], ConfigData(text + "#"), true))];
            AllForAtom(pf, atom, owner, order, [], store).err == Some(KeyChanged)
  {
    var text := GeneratorText(pf, atom, owner).value;
    var store: Store := map[ConfigKey(pf, atom.meta.name, text) := AConfigMap(ConfigMap(map[], ConfigData(text + "#"), true))];
    assert ConfigData(text + "#")[CONFIG_FILE_NAME] != ConfigData(text)[CONFIG_FILE_NAME];
    TamperedFails(pf, atom, owner, order, store);
  }

  /** A reconcile of a tampered configuration ends with the refusal to rename. */
  lemma TamperedFails(pf: Platform, atom: Atom, owner: OwnerInfo, order: seq<string>, store: Store)
    requires HashLaws(pf) && Deliverable(pf, atom, owner) && IsOrder(atom, order)
    requires Tampered(pf, atom.meta.name, GeneratorText(pf, atom, owner).value, store)
    ensures AllForAtom(pf, atom, owner, order, [], store).err == Some(KeyChanged)
  {
    var steps, text := StepsFor(pf, atom, owner, order), GeneratorText(pf, atom, owner).value;
    TamperedIsBlockedExactly(pf, atom.meta.name, text, store);
    AllForAtomRuns(pf, atom, owner, order, [], store, steps);
    assert steps[0] == EnsureConfigMap(text);
    BlockedRun(pf, atom, steps, store, map[]);
  }

  lemma CleanSteps(pf: Platform, atom: Atom, owner: OwnerInfo, order: seq<string>, store: Store)
    requires HashLaws(pf) && Deliverable(pf, atom, owner) && IsOrder(atom, order)
    requires !Blocked(pf, atom.meta.name, EnsureConfigMap(GeneratorText(pf, atom, owner).value), store)
    ensures Run(pf, atom, StepsFor(pf, atom, owner, order), [], store, map[]).err.None?
  {
    var steps := StepsFor(pf, atom, owner, order);
    StepsApart(pf, atom, owner, order);
    assert steps[0] == EnsureConfigMap(GeneratorText(pf, atom, owner).value);
    forall k | 0 <= k < |steps|
      ensures !Blocked(pf, atom.meta.name, steps[k], store)
    {
      if k > 0 {
        OthersNotBlocked(pf, atom, GeneratorText(pf, atom, owner).value, order, k);
      }
    }
    CleanRun(pf, atom, steps, store, map[]);
  }

  /** In whatever order the group map yields its keys, the same store is reached. */
  lemma OrderIrrelevant(
    pf: Platform, atom: Atom, owner: OwnerInfo, order: seq<string>, order': seq<string>, store: Store)
    requires HashLaws(pf) && Deliverable(pf, atom, owner) && IsOrder(atom, order) && IsOrder(atom, order')
    requires Intact(pf, atom.meta.name, store)
    ensures AllForAtom(pf, atom, owner, order, [], store).store == AllForAtom(pf, atom, owner, order', [], store).store
  {
    Converges(pf, atom, owner, order, store);
    Converges(pf, atom, owner, order', store);
    StepsSame(pf, atom, owner, order, order');
    ReachedUnique(pf, atom, StepsFor(pf, atom, owner, order), StepsFor(pf, atom, owner, order'), store,
                  AllForAtom(pf, atom, owner, order, [], store).store, AllForAtom(pf, atom, owner, order', [], store).store);
  }

  /** After that a reconcile changes nothing, in whatever order and whatever befalls its requests. */
  lemma SecondReconcileIsIdle(
    pf: Platform, atom: Atom, owner: OwnerInfo, order: seq<string>, order': seq<string>, faults: seq<Fault>, store: Store)
    requires HashLaws(pf) && Deliverable(pf, atom, owner) && IsOrder(atom, order) && IsOrder(atom, order')
    requires Intact(pf, atom.meta.name, store)
    ensures var first := AllForAtom(pf, atom, owner, order, [], store);
            var second := AllForAtom(pf, atom, owner, order', faults, first.store);
            && second.store == first.store
            && (forall key :: key in second.results ==> second.results[key] == Unchanged)
            && (second.err.Some? ==> Refused in faults)
  {
    var first := AllForAtom(pf, atom, owner, order, [], store);
    var steps, steps' := StepsFor(pf, atom, owner, order), StepsFor(pf, atom, owner, order');
    Converges(pf, atom, owner, order, store);
    StepsSame(pf, atom, owner, order, order');
    forall k | 0 <= k < |steps'|
      ensures Settled(pf, atom, steps'[k], first.store)
    {
      assert steps'[k] in steps;
      var m :| 0 <= m < |steps| && steps[m] == steps'[k];
      ReachedSettles(pf, atom, steps, store, first.store, m);
    }
    AllForAtomRuns(pf, atom, owner, order', faults, first.store, steps');
    IdleRun(pf, atom, steps', faults, first.store, map[]);
  }
}
