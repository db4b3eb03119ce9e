/**
 * Every run of the operator: atoms are created and edited as the webhook allows, others touch the objects,
 * and the reconciles of different atoms take their steps interleaved, each of which may fail and end its
 * series. The invariant says what holds in every state in between.
 */
module OperatorRuns {
  import opened Wrappers
  import opened Urls
  import opened AtomTypes
  import opened KubeObjects
  import opened Middlewares
  import opened DownloadRouting
  import opened IngressRoutes
  import opened Platforms
  import opened Validation
  import opened Admission
  import opened Workloads
  import opened Reconciling
  import opened ObjectKeys
  import opened StepSafety

  // ----- Worlds and events

  /**
   * A reconcile under way: the version of the atom that it read, and the steps that are left. There are none
   * as long as it has not read the owner info.
   */
  datatype Job = Job(atom: Atom, todo: seq<Step>)

  /** `published` holds the version of each atom that its stored IngressRoute was made from. */
  datatype World = World(
    atoms: map<string, Atom>, owners: Owners, store: Store, jobs: map<string, Job>, published: map<string, Atom>)

  datatype Event =
    | Create(atom: Atom, seen: Option<Owners>)
    | Edit(atom: Atom, seen: Option<Owners>)
    | SetOwners(owners: Owners)
    | Fetch(name: string)
    | Leave(name: string)
    | Start(name: string, order: seq<string>)
    | Take(name: string, fault: Fault)
    | Restart
    | Touch(key: Key, value: Stored)

  predicate SchemaValid(atom: Atom) {
    atom.spec.ingressRouteURLs != Some([])
  }

  /** No object has a name that a step for this atom would write to. */
  ghost predicate Unclaimed(pf: Platform, atomName: string, store: Store) {
    forall step :: KeyOf(pf, atomName, step) !in store
  }

  predicate Planned(w: World, name: string) {
    name in w.jobs && w.jobs[name].todo != []
  }

  /**
   * A reconcile first reads the atom, then the owner info, and then takes its steps; it may end in between,
   * as when there is no owner info or the time to live is over.
   */
  ghost predicate Allowed(pf: Platform, w: World, event: Event) {
    match event
    case Create(atom, seen) =>
      && atom.meta.name !in w.atoms && Unclaimed(pf, atom.meta.name, w.store)
      && AcceptsCreate(seen, atom) && SchemaValid(atom)
    case Edit(atom, seen) =>
      atom.meta.name in w.atoms && AcceptsUpdate(seen, w.atoms[atom.meta.name], atom) && SchemaValid(atom)
    case SetOwners(_) => true
    case Fetch(name) => name in w.atoms && name !in w.jobs
    case Leave(name) => name in w.jobs && w.jobs[name].todo == []
    case Start(name, order) =>
      && name in w.jobs && w.jobs[name].todo == []
      && w.jobs[name].atom.spec.service.ownerInfoRef in w.owners && IsOrder(w.jobs[name].atom, order)
    case Take(name, fault) => Planned(w, name) && AllRunnable(w.jobs[name].atom, w.jobs[name].todo)
    case Restart => true
    case Touch(key, value) => key in w.store && KindOf(value) == key.kind && Benign(w.store[key], value)
  }

  /** The world in which the atom is new or has a new version. */
  function WithAtom(w: World, atom: Atom): World {
    w.(atoms := w.atoms[atom.meta.name := atom])
  }

  function WithObject(w: World, key: Key, value: Stored): World
    requires KindOf(value) == key.kind
  {
    w.(store := w.store[key := value])
  }

  function WithJob(w: World, name: string, job: Job): World {
    w.(jobs := if job.todo == [] then w.jobs - {name} else w.jobs[name := job])
  }

  /** What a reconcile has read when it begins. */
  function Fetched(w: World, name: string): World
    requires name in w.atoms
  {
    w.(jobs := w.jobs[name := Job(w.atoms[name], [])])
  }

  function AfterTake(pf: Platform, w: World, name: string, fault: Fault): World
    requires name in w.jobs && w.jobs[name].todo != [] && AllRunnable(w.jobs[name].atom, w.jobs[name].todo)
  {
    var job := w.jobs[name];
    var step := job.todo[0];
    var attempted := Attempt(pf, job.atom, step, fault, w.store);
    var routed := step.EnsureIngressRoute? && (attempted.err.None? || attempted.store != w.store);
    WithJob(w.(store := attempted.store, published := if routed then w.published[name := job.atom] else w.published),
            name, job.(todo := if GoesOn(step, attempted) then job.todo[1..] else []))
  }

  ghost function After(pf: Platform, w: World, event: Event): World
    requires Allowed(pf, w, event)
  {
    match event
    case Create(atom, _) => WithAtom(w, atom)
    case Edit(atom, _) => WithAtom(w, atom)
    case SetOwners(owners) => w.(owners := owners)
    case Fetch(name) => Fetched(w, name)
    case Leave(name) => w.(jobs := w.jobs - {name})
    case Start(name, order) =>
      var atom := w.jobs[name].atom;
      WithJob(w, name, Job(atom, PlanFor(pf, atom, w.owners[atom.spec.service.ownerInfoRef], order).steps))
    case Take(name, fault) => AfterTake(pf, w, name, fault)
    case Restart => w.(jobs := map[])
    case Touch(key, value) => WithObject(w, key, value)
  }

  // ----- The invariant

  /** What the webhook guarantees of an atom and the invariant remembers. */
  predicate Admitted(atom: Atom) {
    AtomErrors(atom) == [] && SchemaValid(atom)
  }

  /** The routes of the stored IngressRoute, or none. */
  function StoredRoutes(atomName: string, store: Store): seq<Route> {
    if RouteKey(atomName) in store then store[RouteKey(atomName)].ingressRoute.routes else []
  }

  /** The stored IngressRoute has the routes of this version. */
  ghost predicate HasRoutesOf(version: Atom, store: Store) {
    && AllSliceable(DownloadLinks(version)) && RouteKey(version.meta.name) in store
    && StoredRoutes(version.meta.name, store) == RoutesForURLs(version, version.ServedURLs(), ChainNames(version))
  }

  /** The stored IngressRoute is that of a version all of whose URLs are still served. */
  ghost predicate PublishedSound(w: World, name: string)
    requires name in w.atoms
  {
    && (RouteKey(name) in w.store ==> name in w.published)
    && (name in w.published ==>
          && w.published[name].meta.name == name && HasRoutesOf(w.published[name], w.store)
          && Served(w.published[name]) <= Served(w.atoms[name]))
  }

  ghost predicate AtomSound(pf: Platform, w: World, name: string)
    requires name in w.atoms
  {
    && w.atoms[name].meta.name == name && Admitted(w.atoms[name])
    && Safe(pf, w.atoms[name], w.store) && PublishedSound(w, name)
  }

  /** A reconcile under way may lag behind the atom, but neither behind its routes nor in its labels. */
  ghost predicate JobSound(pf: Platform, w: World, name: string)
    requires name in w.jobs
  {
    var job := w.jobs[name];
    && name in w.atoms && job.atom.meta.name == name && job.atom.meta.labels == w.atoms[name].meta.labels
    && AllRunnable(job.atom, job.todo) && Ready(w.store.Keys, TasksOf(pf, job.atom, job.todo))
    && Served(job.atom) <= Served(w.atoms[name])
    && (name in w.published ==> Served(w.published[name]) <= Served(job.atom))
  }

  ghost predicate Inv(pf: Platform, w: World) {
    && (forall name :: name in w.atoms ==> AtomSound(pf, w, name))
    && (forall name :: name in w.jobs ==> JobSound(pf, w, name))
    && w.published.Keys <= w.atoms.Keys
  }

  // ----- What leaves its parts alone

  predicate SameVersion(w: World, w': World, name: string) {
    && (name in w.published <==> name in w'.published)
    && (name in w.published ==> w.published[name] == w'.published[name])
  }

  /** The stored IngressRoute, if any, has the same routes in both stores. */
  predicate SameRoutes(key: Key, store: Store, store': Store)
    requires key.kind == IngressRouteKind
  {
    && (key in store <==> key in store')
    && (key in store ==> store[key].ingressRoute.routes == store'[key].ingressRoute.routes)
  }

  lemma RoutesFrame(version: Atom, store: Store, store': Store)
    requires HasRoutesOf(version, store) && SameRoutes(RouteKey(version.meta.name), store, store')
    ensures HasRoutesOf(version, store')
  {
  }

  lemma PublishedFrame(w: World, w': World, name: string)
    requires name in w.atoms && name in w'.atoms && PublishedSound(w, name)
    requires SameVersion(w, w', name) && SameRoutes(RouteKey(name), w.store, w'.store)
    requires Served(w.atoms[name]) <= Served(w'.atoms[name])
    ensures PublishedSound(w', name)
  {
    if name in w.published {
      RoutesFrame(w.published[name], w.store, w'.store);
    }
  }

  lemma JobFrame(pf: Platform, w: World, w': World, name: string)
    requires name in w.jobs && JobSound(pf, w, name) && name in w'.jobs && w'.jobs[name] == w.jobs[name]
    requires name in w'.atoms && w'.atoms[name].meta.labels == w.atoms[name].meta.labels
    requires Served(w.atoms[name]) <= Served(w'.atoms[name])
    requires w.store.Keys <= w'.store.Keys && SameVersion(w, w', name)
    ensures JobSound(pf, w', name)
  {
    ReadyMonotone(w.store.Keys, w'.store.Keys, TasksOf(pf, w.jobs[name].atom, w.jobs[name].todo));
  }

  // ----- Every event keeps it

  lemma UnclaimedIsSafe(pf: Platform, atom: Atom, store: Store)
    requires Unclaimed(pf, atom.meta.name, store)
    ensures Safe(pf, atom, store) && RouteKey(atom.meta.name) !in store
  {
    var name := atom.meta.name;
    forall text
      ensures ConfigKey(pf, name, text) !in store
    {
      assert KeyOf(pf, name, EnsureConfigMap(text)) !in store;
    }
    assert KeyOf(pf, name, EnsureDeployment("")) !in store;
    assert KeyOf(pf, name, EnsureService) !in store;
    assert KeyOf(pf, name, EnsureIngressRoute) !in store;
  }

  lemma AcceptedCreate(seen: Option<Owners>, atom: Atom)
    requires AcceptsCreate(seen, atom) && SchemaValid(atom)
    ensures Admitted(atom)
  {
  }

  lemma CreateKeepsAtom(pf: Platform, w: World, atom: Atom, name: string)
    requires atom.meta.name !in w.atoms && name in w.atoms && AtomSound(pf, w, name)
    ensures AtomSound(pf, WithAtom(w, atom), name)
  {
    PublishedFrame(w, WithAtom(w, atom), name);
  }

  lemma NewAtomIsSound(pf: Platform, w: World, atom: Atom)
    requires atom.meta.name !in w.atoms && w.published.Keys <= w.atoms.Keys
    requires Unclaimed(pf, atom.meta.name, w.store) && Admitted(atom)
    ensures AtomSound(pf, WithAtom(w, atom), atom.meta.name)
  {
    UnclaimedIsSafe(pf, atom, w.store);
  }

  lemma CreateKeepsInv(pf: Platform, w: World, atom: Atom)
    requires Inv(pf, w) && atom.meta.name !in w.atoms && Unclaimed(pf, atom.meta.name, w.store) && Admitted(atom)
    ensures Inv(pf, WithAtom(w, atom))
  {
    NewAtomIsSound(pf, w, atom);
    forall name | name in w.atoms
      ensures AtomSound(pf, WithAtom(w, atom), name)
    {
      assert AtomSound(pf, w, name);
      CreateKeepsAtom(pf, w, atom, name);
    }
    forall name | name in w.jobs
      ensures JobSound(pf, WithAtom(w, atom), name)
    {
      assert JobSound(pf, w, name);
      AtomKeepsJob(pf, w, atom, name);
    }
  }

  /** A job does not mind a new atom or an evolved version. */
  lemma AtomKeepsJob(pf: Platform, w: World, atom: Atom, name: string)
    requires name in w.jobs && JobSound(pf, w, name)
    requires atom.meta.name in w.atoms ==> Evolves(w.atoms[atom.meta.name], atom)
    ensures JobSound(pf, WithAtom(w, atom), name)
  {
    JobFrame(pf, w, WithAtom(w, atom), name);
  }

  /** Safety of the objects depends on the name and the labels of the atom only. */
  lemma SafeForVersions(pf: Platform, before: Atom, atom: Atom, store: Store)
    requires Safe(pf, before, store) && before.meta.name == atom.meta.name && before.meta.labels == atom.meta.labels
    ensures Safe(pf, atom, store)
  {
  }

  /** The atom has the same labels and at least the same URLs. */
  predicate Evolves(before: Atom, atom: Atom) {
    before.meta.labels == atom.meta.labels && Served(before) <= Served(atom)
  }

  lemma AcceptedEdit(seen: Option<Owners>, before: Atom, atom: Atom)
    requires Admitted(before) && AcceptsUpdate(seen, before, atom) && SchemaValid(atom)
    ensures Evolves(before, atom) && Admitted(atom)
  {
    LabelsKept(before.meta.labels, atom.meta.labels);
    UpdateKeepsServing(seen, before, atom);
  }

  lemma EditKeepsAtom(pf: Platform, w: World, atom: Atom, name: string)
    requires name in w.atoms && AtomSound(pf, w, name)
    requires atom.meta.name in w.atoms && Evolves(w.atoms[atom.meta.name], atom) && Admitted(atom)
    ensures AtomSound(pf, WithAtom(w, atom), name)
  {
    if name == atom.meta.name {
      SafeForVersions(pf, w.atoms[name], atom, w.store);
    }
    PublishedFrame(w, WithAtom(w, atom), name);
  }

  lemma EditKeepsInv(pf: Platform, w: World, atom: Atom)
    requires Inv(pf, w) && atom.meta.name in w.atoms && Evolves(w.atoms[atom.meta.name], atom) && Admitted(atom)
    ensures Inv(pf, WithAtom(w, atom))
  {
    forall name | name in w.atoms
      ensures AtomSound(pf, WithAtom(w, atom), name)
    {
      assert AtomSound(pf, w, name);
      EditKeepsAtom(pf, w, atom, name);
    }
    forall name | name in w.jobs
      ensures JobSound(pf, WithAtom(w, atom), name)
    {
      assert JobSound(pf, w, name);
      AtomKeepsJob(pf, w, atom, name);
    }
  }

  /** Only the reconcile of this atom has changed. */
  predicate SameButJob(w: World, w': World, name: string) {
    && w'.atoms == w.atoms && w'.store == w.store && w'.published == w.published
    && (forall other :: other in w'.jobs && other != name ==> other in w.jobs && w'.jobs[other] == w.jobs[other])
  }

  lemma JobChangeKeepsInv(pf: Platform, w: World, w': World, name: string)
    requires Inv(pf, w) && SameButJob(w, w', name) && (name in w'.jobs ==> JobSound(pf, w', name))
    ensures Inv(pf, w')
  {
    forall other | other in w'.atoms
      ensures AtomSound(pf, w', other)
    {
      assert AtomSound(pf, w, other);
      PublishedFrame(w, w', other);
    }
    forall other | other in w'.jobs
      ensures JobSound(pf, w', other)
    {
      if other != name {
        assert JobSound(pf, w, other);
        JobFrame(pf, w, w', other);
      }
    }
  }

  lemma FetchedSound(pf: Platform, w: World, name: string)
    requires name in w.atoms && AtomSound(pf, w, name)
    ensures JobSound(pf, Fetched(w, name), name)
  {
    assert TasksOf(pf, w.atoms[name], []) == [];
  }

  lemma FetchKeepsInv(pf: Platform, w: World, name: string)
    requires Inv(pf, w) && name in w.atoms && name !in w.jobs
    ensures Inv(pf, Fetched(w, name))
  {
    assert AtomSound(pf, w, name);
    FetchedSound(pf, w, name);
    JobChangeKeepsInv(pf, w, Fetched(w, name), name);
  }

  lemma WithJobChanges(w: World, name: string, job: Job)
    ensures SameButJob(w, WithJob(w, name, job), name)
  {
  }

  /** A job may get steps that are ready. */
  lemma ReadyJobSound(pf: Platform, w: World, name: string, steps: seq<Step>)
    requires name in w.jobs && JobSound(pf, w, name) && AllRunnable(w.jobs[name].atom, steps)
    requires Ready(w.store.Keys, TasksOf(pf, w.jobs[name].atom, steps))
    ensures var w' := WithJob(w, name, Job(w.jobs[name].atom, steps)); name in w'.jobs ==> JobSound(pf, w', name)
  {
  }

  lemma PlanKeepsInv(pf: Platform, w: World, name: string, steps: seq<Step>)
    requires Inv(pf, w) && name in w.jobs && JobSound(pf, w, name) && AllRunnable(w.jobs[name].atom, steps)
    requires Ready(w.store.Keys, TasksOf(pf, w.jobs[name].atom, steps))
    ensures Inv(pf, WithJob(w, name, Job(w.jobs[name].atom, steps)))
  {
    ReadyJobSound(pf, w, name, steps);
    WithJobChanges(w, name, Job(w.jobs[name].atom, steps));
    JobChangeKeepsInv(pf, w, WithJob(w, name, Job(w.jobs[name].atom, steps)), name);
  }

  lemma StartKeepsInv(pf: Platform, w: World, name: string, order: seq<string>)
    requires Inv(pf, w) && Allowed(pf, w, Start(name, order))
    ensures Inv(pf, After(pf, w, Start(name, order)))
  {
    var atom := w.jobs[name].atom;
    var owner := w.owners[atom.spec.service.ownerInfoRef];
    assert JobSound(pf, w, name);
    PlanReady(pf, atom, owner, order, w.store.Keys);
    PlanKeepsInv(pf, w, name, PlanFor(pf, atom, owner, order).steps);
  }

  lemma LeaveKeepsInv(pf: Platform, w: World, name: string)
    requires Inv(pf, w)
    ensures Inv(pf, w.(jobs := w.jobs - {name}))
  {
    JobChangeKeepsInv(pf, w, w.(jobs := w.jobs - {name}), name);
  }

  lemma TouchKeepsSafe(pf: Platform, atom: Atom, store: Store, key: Key, value: Stored)
    requires Safe(pf, atom, store) && key in store && Benign(store[key], value)
    ensures Safe(pf, atom, store[key := value])
  {
    BenignFits(pf, atom, store, key, value);
    PutKeepsSafe(pf, atom, store, key, value);
  }

  lemma TouchKeepsRoutes(store: Store, key: Key, value: Stored, routeKey: Key)
    requires key in store && Benign(store[key], value) && routeKey.kind == IngressRouteKind
    ensures SameRoutes(routeKey, store, store[key := value])
  {
  }

  lemma TouchKeepsAtom(pf: Platform, w: World, key: Key, value: Stored, name: string)
    requires name in w.atoms && AtomSound(pf, w, name)
    requires key in w.store && KindOf(value) == key.kind && Benign(w.store[key], value)
    ensures AtomSound(pf, WithObject(w, key, value), name)
  {
    TouchKeepsSafe(pf, w.atoms[name], w.store, key, value);
    TouchKeepsRoutes(w.store, key, value, RouteKey(name));
    PublishedFrame(w, WithObject(w, key, value), name);
  }

  lemma TouchKeepsJob(pf: Platform, w: World, key: Key, value: Stored, name: string)
    requires name in w.jobs && JobSound(pf, w, name) && KindOf(value) == key.kind
    ensures JobSound(pf, WithObject(w, key, value), name)
  {
    JobFrame(pf, w, WithObject(w, key, value), name);
  }

  lemma TouchKeepsInv(pf: Platform, w: World, key: Key, value: Stored)
    requires Inv(pf, w) && key in w.store && KindOf(value) == key.kind && Benign(w.store[key], value)
    ensures Inv(pf, WithObject(w, key, value))
  {
    forall name | name in w.atoms
      ensures AtomSound(pf, WithObject(w, key, value), name)
    {
      assert AtomSound(pf, w, name);
      TouchKeepsAtom(pf, w, key, value, name);
    }
    forall name | name in w.jobs
      ensures JobSound(pf, WithObject(w, key, value), name)
    {
      assert JobSound(pf, w, name);
      TouchKeepsJob(pf, w, key, value, name);
    }
  }

  /** What the next step of a job makes of its object. */
  function NextValue(pf: Platform, w: World, name: string): Stored
    requires name in w.jobs && w.jobs[name].todo != [] && AllRunnable(w.jobs[name].atom, w.jobs[name].todo)
  {
    var job := w.jobs[name];
    MutatedBy(pf, job.atom, job.todo[0], Current(pf, job.atom.meta.name, job.todo[0], w.store))
  }

  lemma NextIsReady(pf: Platform, w: World, name: string)
    requires Planned(w, name) && JobSound(pf, w, name)
    ensures Needs(w.jobs[name].atom, w.jobs[name].todo[0]) <= w.store.Keys
  {
    assert TasksOf(pf, w.jobs[name].atom, w.jobs[name].todo)[0].needs == Needs(w.jobs[name].atom, w.jobs[name].todo[0]);
  }

  lemma FitsForVersions(pf: Platform, before: Atom, atom: Atom, store: Store, key: Key, value: Stored)
    requires before.meta.name == atom.meta.name && before.meta.labels == atom.meta.labels && KindOf(value) == key.kind
    ensures Fits(pf, before, store, key, value) == Fits(pf, atom, store, key, value)
  {
  }

  /** The step does no harm to its own atom or to any other. */
  lemma TakeFits(pf: Platform, w: World, name: string, other: string)
    requires HashLaws(pf) && Planned(w, name) && other in w.atoms && JobSound(pf, w, name)
    requires w.atoms[other].meta.name == other && Intact(pf, other, w.store)
    ensures Fits(pf, w.atoms[other], w.store, KeyOf(pf, name, w.jobs[name].todo[0]), NextValue(pf, w, name))
  {
    var job := w.jobs[name];
    if name == other {
      NextIsReady(pf, w, name);
      StepFits(pf, job.atom, job.todo[0], w.store);
      FitsForVersions(pf, job.atom, w.atoms[other], w.store, KeyOf(pf, name, job.todo[0]), NextValue(pf, w, name));
    } else {
      OtherStepFits(pf, w.atoms[other], name, job.todo[0], w.store, NextValue(pf, w, name));
    }
  }

  lemma TakeKeepsSafe(pf: Platform, w: World, name: string, fault: Fault, other: string)
    requires HashLaws(pf) && Inv(pf, w) && Planned(w, name) && other in w.atoms && JobSound(pf, w, name)
    ensures Safe(pf, w.atoms[other], AfterTake(pf, w, name, fault).store)
  {
    var job := w.jobs[name];
    assert AtomSound(pf, w, other);
    TakeFits(pf, w, name, other);
    PutKeepsSafe(pf, w.atoms[other], w.store, KeyOf(pf, name, job.todo[0]), NextValue(pf, w, name));
    AttemptEffect(pf, job.atom, job.todo[0], fault, w.store);
  }

  lemma TakeKeepsInv(pf: Platform, w: World, name: string, fault: Fault)
    requires HashLaws(pf) && Inv(pf, w) && Planned(w, name) && JobSound(pf, w, name)
    ensures Inv(pf, AfterTake(pf, w, name, fault))
  {
    var w' := AfterTake(pf, w, name, fault);
    forall other | other in w'.atoms
      ensures AtomSound(pf, w', other)
    {
      assert AtomSound(pf, w, other);
      TakeKeepsSafe(pf, w, name, fault, other);
      TakeKeepsPublished(pf, w, name, fault, other);
    }
    forall other | other in w'.jobs
      ensures JobSound(pf, w', other)
    {
      TakeKeepsJob(pf, w, name, fault, other);
    }
  }

  lemma TakeKeepsPublished(pf: Platform, w: World, name: string, fault: Fault, other: string)
    requires HashLaws(pf) && Planned(w, name) && JobSound(pf, w, name)
    requires other in w.atoms && PublishedSound(w, other)
    ensures PublishedSound(AfterTake(pf, w, name, fault), other)
  {
    var job := w.jobs[name];
    if name == other && job.todo[0].EnsureIngressRoute? {
      OwnRouteTaken(pf, w, name, fault);
    } else {
      OtherRouteStays(pf, other, job.atom, job.todo[0], fault, w.store);
      PublishedFrame(w, AfterTake(pf, w, name, fault), other);
    }
  }

  lemma OwnRouteTaken(pf: Platform, w: World, name: string, fault: Fault)
    requires Planned(w, name) && JobSound(pf, w, name) && PublishedSound(w, name)
    requires w.jobs[name].todo[0].EnsureIngressRoute?
    ensures PublishedSound(AfterTake(pf, w, name, fault), name)
  {
    var attempted := Attempt(pf, w.jobs[name].atom, EnsureIngressRoute, fault, w.store);
    if attempted.err.None? || attempted.store != w.store {
      RouteAttempt(pf, w.jobs[name].atom, fault, w.store, attempted);
    } else {
      PublishedFrame(w, AfterTake(pf, w, name, fault), name);
    }
  }

  lemma OtherRouteStays(pf: Platform, atomName: string, atom: Atom, step: Step, fault: Fault, store: Store)
    requires HashLaws(pf) && Runnable(atom, step) && !(step.EnsureIngressRoute? && atom.meta.name == atomName)
    ensures SameRoutes(RouteKey(atomName), store, Attempt(pf, atom, step, fault, store).store)
  {
    AttemptEffect(pf, atom, step, fault, store);
    KeyUnique(pf, atomName, EnsureIngressRoute, atom.meta.name, step);
    assert KeyOf(pf, atomName, EnsureIngressRoute) == RouteKey(atomName);
  }

  /** An attempt that did not fail without a trace leaves what it made. */
  lemma AttemptLeaves(pf: Platform, atom: Atom, step: Step, fault: Fault, store: Store, current: Stored)
    requires Runnable(atom, step) && !step.EnsureConfigMap? && current == Current(pf, atom.meta.name, step, store)
    ensures var attempted, key := Attempt(pf, atom, step, fault, store), KeyOf(pf, atom.meta.name, step);
            attempted.err.None? || attempted.store != store ==>
              key in attempted.store && attempted.store[key] == MutatedBy(pf, atom, step, current)
  {
    PutEffect(store, KeyOf(pf, atom.meta.name, step), MutatedBy(pf, atom, step, current), fault);
  }

  lemma MadeHasRoutes(pf: Platform, atom: Atom, current: Stored, store: Store)
    requires AllSliceable(DownloadLinks(atom)) && RouteKey(atom.meta.name) in store && current.AnIngressRoute?
    requires store[RouteKey(atom.meta.name)] == MutatedBy(pf, atom, EnsureIngressRoute, current)
    ensures HasRoutesOf(atom, store)
  {
    MutatedIngressRoute(pf, atom, current.ingressRoute);
  }

  lemma RouteLeft(pf: Platform, atom: Atom, fault: Fault, store: Store, current: Stored, attempted: Attempted)
    requires AllSliceable(DownloadLinks(atom)) && current == Current(pf, atom.meta.name, EnsureIngressRoute, store)
    requires attempted == Attempt(pf, atom, EnsureIngressRoute, fault, store)
    requires attempted.err.None? || attempted.store != store
    ensures RouteKey(atom.meta.name) in attempted.store && current.AnIngressRoute?
    ensures attempted.store[RouteKey(atom.meta.name)] == MutatedBy(pf, atom, EnsureIngressRoute, current)
  {
    RouteKeyIs(pf, atom.meta.name);
    AttemptLeaves(pf, atom, EnsureIngressRoute, fault, store, current);
  }

  lemma RouteKeyIs(pf: Platform, atomName: string)
    ensures KeyOf(pf, atomName, EnsureIngressRoute) == RouteKey(atomName)
  {
  }

  lemma RouteAttempt(pf: Platform, atom: Atom, fault: Fault, store: Store, attempted: Attempted)
    requires AllSliceable(DownloadLinks(atom))
    requires attempted == Attempt(pf, atom, EnsureIngressRoute, fault, store)
    requires attempted.err.None? || attempted.store != store
    ensures HasRoutesOf(atom, attempted.store)
  {
    var current := Current(pf, atom.meta.name, EnsureIngressRoute, store);
    RouteLeft(pf, atom, fault, store, current, attempted);
    MadeHasRoutes(pf, atom, current, attempted.store);
  }

  lemma OtherJobStays(pf: Platform, w: World, name: string, fault: Fault, other: string)
    requires Planned(w, name) && AllRunnable(w.jobs[name].atom, w.jobs[name].todo) && other != name
    ensures var w' := AfterTake(pf, w, name, fault);
            && (other in w'.jobs <==> other in w.jobs)
            && (other in w.jobs ==> w'.jobs[other] == w.jobs[other])
            && SameVersion(w, w', other) && w.store.Keys <= w'.store.Keys
  {
    KeysStay(pf, w.jobs[name].atom, w.jobs[name].todo[0], fault, w.store);
  }

  lemma TakeKeepsJob(pf: Platform, w: World, name: string, fault: Fault, other: string)
    requires HashLaws(pf) && Inv(pf, w) && Planned(w, name) && JobSound(pf, w, name)
    requires other in AfterTake(pf, w, name, fault).jobs
    ensures JobSound(pf, AfterTake(pf, w, name, fault), other)
  {
    if name == other {
      OwnJobStays(pf, w, name, fault);
    } else {
      OtherJobStays(pf, w, name, fault, other);
      assert JobSound(pf, w, other);
      JobFrame(pf, w, AfterTake(pf, w, name, fault), other);
    }
  }

  /** Nothing is removed, and if the series goes on, the object is there. */
  lemma KeysStay(pf: Platform, atom: Atom, step: Step, fault: Fault, store: Store)
    requires Runnable(atom, step)
    ensures var attempted := Attempt(pf, atom, step, fault, store);
            && store.Keys <= attempted.store.Keys
            && (GoesOn(step, attempted) ==> KeyOf(pf, atom.meta.name, step) in attempted.store)
  {
    AttemptEffect(pf, atom, step, fault, store);
  }

  lemma OwnJobStays(pf: Platform, w: World, name: string, fault: Fault)
    requires Planned(w, name) && JobSound(pf, w, name) && name in AfterTake(pf, w, name, fault).jobs
    ensures JobSound(pf, AfterTake(pf, w, name, fault), name)
  {
    var job, w' := w.jobs[name], AfterTake(pf, w, name, fault);
    var attempted := Attempt(pf, job.atom, job.todo[0], fault, w.store);
    KeysStay(pf, job.atom, job.todo[0], fault, w.store);
    assert GoesOn(job.todo[0], attempted) && w'.jobs[name] == Job(job.atom, job.todo[1..]);
    ReadyTail(pf, job.atom, job.todo, w.store.Keys, w'.store.Keys);
  }

  lemma ReadyTail(pf: Platform, atom: Atom, todo: seq<Step>, keys: set<Key>, more: set<Key>)
    requires todo != [] && AllRunnable(atom, todo) && Ready(keys, TasksOf(pf, atom, todo))
    requires keys <= more && KeyOf(pf, atom.meta.name, todo[0]) in more
    ensures AllRunnable(atom, todo[1..]) && Ready(more, TasksOf(pf, atom, todo[1..]))
  {
    var tasks := TasksOf(pf, atom, todo);
    assert TasksOf(pf, atom, todo[1..]) == tasks[1..];
    ReadyMonotone(keys + {tasks[0].key}, more, tasks[1..]);
  }

  lemma EventKeepsInv(pf: Platform, w: World, event: Event)
    requires HashLaws(pf) && Inv(pf, w) && Allowed(pf, w, event)
    ensures Inv(pf, After(pf, w, event))
  {
    match event
    case Create(atom, seen) =>
      AcceptedCreate(seen, atom);
      CreateKeepsInv(pf, w, atom);
    case Edit(atom, seen) =>
      assert AtomSound(pf, w, atom.meta.name);
      AcceptedEdit(seen, w.atoms[atom.meta.name], atom);
      EditKeepsInv(pf, w, atom);
    case Fetch(name) => FetchKeepsInv(pf, w, name);
    case Leave(name) => LeaveKeepsInv(pf, w, name);
    case Start(name, order) => StartKeepsInv(pf, w, name, order);
    case Take(name, fault) =>
      assert JobSound(pf, w, name);
      TakeKeepsInv(pf, w, name, fault);
    case Touch(key, value) => TouchKeepsInv(pf, w, key, value);
    case _ => FrameKeepsInv(pf, w, event);
  }

  lemma FrameKeepsInv(pf: Platform, w: World, event: Event)
    requires Inv(pf, w) && (event.SetOwners? || event.Restart?)
    ensures Inv(pf, After(pf, w, event))
  {
    var w' := After(pf, w, event);
    forall name | name in w'.atoms
      ensures AtomSound(pf, w', name)
    {
      assert AtomSound(pf, w, name);
    }
    forall name | name in w'.jobs
      ensures JobSound(pf, w', name)
    {
      assert JobSound(pf, w, name);
    }
  }

  // ----- Whole runs

  ghost predicate Behaviour(pf: Platform, events: seq<Event>, trace: seq<World>) {
    |trace| == |events| + 1 &&
    forall i {:trigger events[i]} :: 0 <= i < |events| ==>
      Allowed(pf, trace[i], events[i]) && trace[i + 1] == After(pf, trace[i], events[i])
  }

  /** An empty namespace is a place to start from. */
  lemma EmptyNamespace(pf: Platform, owners: Owners)
    ensures Inv(pf, World(map[], owners, map[], map[], map[]))
  {
  }

  lemma {:induction false} EveryStateIsSound(pf: Platform, events: seq<Event>, trace: seq<World>, i: nat)
    requires HashLaws(pf) && Behaviour(pf, events, trace) && Inv(pf, trace[0]) && i < |trace|
    ensures Inv(pf, trace[i])
  {
    if i > 0 {
      EveryStateIsSound(pf, events, trace, i - 1);
      EventKeepsInv(pf, trace[i - 1], events[i - 1]);
    }
  }

  /**
   * In every state of every run: what the Deployment and the IngressRoute of an atom name exists, ConfigMaps
   * hold what they are named after, and selectors agree.
   */
  lemma EveryStateIsSafe(pf: Platform, events: seq<Event>, trace: seq<World>, i: nat, name: string)
    requires HashLaws(pf) && Behaviour(pf, events, trace) && Inv(pf, trace[0])
    requires i < |trace| && name in trace[i].atoms
    ensures trace[i].atoms[name].meta.name == name && Safe(pf, trace[i].atoms[name], trace[i].store)
  {
    EveryStateIsSound(pf, events, trace, i);
    assert AtomSound(pf, trace[i], name);
  }

  /** What no event takes back. */
  ghost predicate Keeps(w: World, w': World) {
    && w.store.Keys <= w'.store.Keys && w.atoms.Keys <= w'.atoms.Keys && w.published.Keys <= w'.published.Keys
    && (forall name :: name in w.atoms ==>
          w.atoms[name].meta.labels == w'.atoms[name].meta.labels && Served(w.atoms[name]) <= Served(w'.atoms[name]))
    && (forall name :: name in w.published ==> Served(w.published[name]) <= Served(w'.published[name]))
  }

  lemma TakeKeeps(pf: Platform, w: World, name: string, fault: Fault)
    requires name in w.jobs && w.jobs[name].todo != [] && AllRunnable(w.jobs[name].atom, w.jobs[name].todo)
    requires name in w.published ==> Served(w.published[name]) <= Served(w.jobs[name].atom)
    ensures Keeps(w, AfterTake(pf, w, name, fault))
  {
    KeysStay(pf, w.jobs[name].atom, w.jobs[name].todo[0], fault, w.store);
  }

  lemma EditKeeps(w: World, atom: Atom)
    requires atom.meta.name in w.atoms
    requires w.atoms[atom.meta.name].meta.labels == atom.meta.labels
    requires Served(w.atoms[atom.meta.name]) <= Served(atom)
    ensures Keeps(w, WithAtom(w, atom))
  {
  }

  lemma EditEventKeeps(pf: Platform, w: World, atom: Atom, seen: Option<Owners>)
    requires Inv(pf, w) && Allowed(pf, w, Edit(atom, seen))
    ensures Keeps(w, WithAtom(w, atom))
  {
    assert AtomSound(pf, w, atom.meta.name);
    AcceptedEdit(seen, w.atoms[atom.meta.name], atom);
    EditKeeps(w, atom);
  }

  lemma StoppedJobKeeps(w: World, jobs: map<string, Job>, owners: Owners, store: Store)
    requires w.store.Keys <= store.Keys
    ensures Keeps(w, World(w.atoms, owners, store, jobs, w.published))
  {
  }

  lemma EventKeeps(pf: Platform, w: World, event: Event)
    requires Inv(pf, w) && Allowed(pf, w, event)
    ensures Keeps(w, After(pf, w, event))
  {
    var w' := After(pf, w, event);
    match event
    case Create(atom, seen) => CreateKeeps(w, atom);
    case Edit(atom, seen) => EditEventKeeps(pf, w, atom, seen);
    case Take(name, fault) =>
      assert JobSound(pf, w, name);
      TakeKeeps(pf, w, name, fault);
    case _ => StoppedJobKeeps(w, w'.jobs, w'.owners, w'.store);
  }

  lemma CreateKeeps(w: World, atom: Atom)
    requires atom.meta.name !in w.atoms
    ensures Keeps(w, WithAtom(w, atom))
  {
  }

  lemma KeepsTransitive(w: World, w': World, w'': World)
    requires Keeps(w, w') && Keeps(w', w'')
    ensures Keeps(w, w'')
  {
  }

  lemma {:induction false} KeepsAlong(trace: seq<World>, i: nat, j: nat)
    requires i <= j < |trace| && forall k {:trigger trace[k]} :: i <= k < j ==> Keeps(trace[k], trace[k + 1])
    ensures Keeps(trace[i], trace[j])
    decreases j - i
  {
    if i < j {
      KeepsAlong(trace, i, j - 1);
      KeepsTransitive(trace[i], trace[j - 1], trace[j]);
    }
  }

  lemma LaterKeeps(pf: Platform, events: seq<Event>, trace: seq<World>, i: nat, j: nat)
    requires HashLaws(pf) && Behaviour(pf, events, trace) && Inv(pf, trace[0]) && i <= j < |trace|
    ensures Keeps(trace[i], trace[j])
  {
    forall k | i <= k < j
      ensures Keeps(trace[k], trace[k + 1])
    {
      NextKeeps(pf, events, trace, k);
    }
    KeepsAlong(trace, i, j);
  }

  lemma NextKeeps(pf: Platform, events: seq<Event>, trace: seq<World>, j: nat)
    requires HashLaws(pf) && Behaviour(pf, events, trace) && Inv(pf, trace[0]) && j < |events|
    ensures Keeps(trace[j], trace[j + 1])
  {
    EveryStateIsSound(pf, events, trace, j);
    EventKeeps(pf, trace[j], events[j]);
  }

  /** Content under a hashed name never changes and never goes. */
  lemma ConfigNeverChanges(pf: Platform, events: seq<Event>, trace: seq<World>, i: nat, j: nat, name: string, text: string)
    requires HashLaws(pf) && Behaviour(pf, events, trace) && Inv(pf, trace[0]) && i <= j < |trace|
    requires name in trace[i].atoms && ConfigKey(pf, name, text) in trace[i].store
    ensures var key := ConfigKey(pf, name, text);
            && key in trace[j].store
            && trace[j].store[key].configMap.data == trace[i].store[key].configMap.data == ConfigData(text)
  {
    LaterKeeps(pf, events, trace, i, j);
    EveryStateIsSafe(pf, events, trace, i, name);
    EveryStateIsSafe(pf, events, trace, j, name);
    ConfigKept(pf, trace[i], trace[j], name, text);
  }

  lemma ConfigKept(pf: Platform, w: World, w': World, name: string, text: string)
    requires Keeps(w, w') && name in w.atoms && ConfigKey(pf, name, text) in w.store
    requires w.atoms[name].meta.name == w'.atoms[name].meta.name == name
    requires Safe(pf, w.atoms[name], w.store) && Safe(pf, w'.atoms[name], w'.store)
    ensures var key := ConfigKey(pf, name, text);
            key in w'.store && w'.store[key].configMap.data == w.store[key].configMap.data == ConfigData(text)
  {
    SafeConfig(pf, w.atoms[name], w.store, text);
    SafeConfig(pf, w'.atoms[name], w'.store, text);
  }

  lemma SafeConfig(pf: Platform, atom: Atom, store: Store, text: string)
    requires Safe(pf, atom, store) && ConfigKey(pf, atom.meta.name, text) in store
    ensures store[ConfigKey(pf, atom.meta.name, text)].configMap.data == ConfigData(text)
  {
  }

  /** The Deployment's selector, which Kubernetes does not let change, is never asked to change. */
  lemma SelectorNeverChanges(pf: Platform, events: seq<Event>, trace: seq<World>, i: nat, j: nat, name: string)
    requires HashLaws(pf) && Behaviour(pf, events, trace) && Inv(pf, trace[0]) && i <= j < |trace|
    requires name in trace[i].atoms && DeploymentKey(name) in trace[i].store
    ensures var key := DeploymentKey(name);
            key in trace[j].store && trace[j].store[key].deployment.selector == trace[i].store[key].deployment.selector
  {
    LaterKeeps(pf, events, trace, i, j);
    EveryStateIsSound(pf, events, trace, i);
    EveryStateIsSound(pf, events, trace, j);
    assert AtomSound(pf, trace[i], name) && AtomSound(pf, trace[j], name);
  }

  /** Every route of the URL, with all feeds and the whole download chain of the version, is stored. */
  ghost predicate AllRoutesStored(version: Atom, url: URL, store: Store)
    requires AllSliceable(DownloadLinks(version))
  {
    forall route :: route in RoutesForURL(version, url, ChainNames(version)) ==>
      route in StoredRoutes(version.meta.name, store)
  }

  /** The version serves a URL with this text, all of whose routes are stored. */
  ghost predicate RoutedBy(version: Atom, text: string, store: Store) {
    AllSliceable(DownloadLinks(version)) &&
    exists url :: url in version.ServedURLs() && url.String() == text && AllRoutesStored(version, url, store)
  }

  lemma PublishedURLIsRouted(version: Atom, store: Store, text: string)
    requires HasRoutesOf(version, store) && text in Served(version)
    ensures RoutedBy(version, text, store)
  {
    var url :| url in version.ServedURLs() && url.String() == text;
    forall route | route in RoutesForURL(version, url, ChainNames(version))
      ensures route in RoutesForURLs(version, version.ServedURLs(), ChainNames(version))
    {
      RouteOfServedURL(version, url, route);
    }
    assert AllRoutesStored(version, url, store);
  }

  lemma RouteOfServedURL(version: Atom, url: URL, route: Route)
    requires AllSliceable(DownloadLinks(version)) && url in version.ServedURLs()
    requires route in RoutesForURL(version, url, ChainNames(version))
    ensures route in RoutesForURLs(version, version.ServedURLs(), ChainNames(version))
  {
    RoutesAreThoseOf(version, version.ServedURLs(), ChainNames(version), route);
  }

  /**
   * A URL that the stored IngressRoute has routes for keeps having all routes of the version it is made from,
   * whatever edits are accepted, whichever requests fail, and however stale the atom is that a reconcile
   * works with. That version goes by the same name, and its URLs are all still served by the atom.
   */
  lemma RoutedStaysRouted(pf: Platform, events: seq<Event>, trace: seq<World>, i: nat, j: nat, name: string, text: string)
    requires HashLaws(pf) && Behaviour(pf, events, trace) && Inv(pf, trace[0]) && i <= j < |trace|
    requires name in trace[i].published && text in Served(trace[i].published[name])
    ensures name in trace[j].published && name in trace[j].atoms
    ensures var version := trace[j].published[name];
            && version.meta.name == name && RoutedBy(version, text, trace[j].store)
            && HasRoutesOf(version, trace[j].store) && Served(version) <= Served(trace[j].atoms[name])
  {
    LaterKeeps(pf, events, trace, i, j);
    EveryStateIsSound(pf, events, trace, j);
    assert AtomSound(pf, trace[j], name);
    PublishedURLIsRouted(trace[j].published[name], trace[j].store, text);
  }

  /** The atom of that name had this version at some moment up to now. */
  ghost predicate HadVersion(trace: seq<World>, now: nat, name: string, version: Atom)
    requires now < |trace|
  {
    exists m :: 0 <= m <= now && HasVersion(trace[m], name, version)
  }

  predicate HasVersion(w: World, name: string, version: Atom) {
    name in w.atoms && w.atoms[name] == version
  }

  /** Reconciles and routes come from versions that the atom really had. */
  ghost predicate VersionsReal(trace: seq<World>, now: nat)
    requires now < |trace|
  {
    && (forall name :: name in trace[now].jobs ==> HadVersion(trace, now, name, trace[now].jobs[name].atom))
    && (forall name :: name in trace[now].published ==> HadVersion(trace, now, name, trace[now].published[name]))
  }

  lemma EventVersions(pf: Platform, w: World, event: Event, name: string)
    requires Allowed(pf, w, event)
    ensures var w' := After(pf, w, event);
            && (name in w'.jobs ==>
                  HasVersion(w, name, w'.jobs[name].atom) || (name in w.jobs && w.jobs[name].atom == w'.jobs[name].atom))
            && (name in w'.published ==>
                  || (name in w.jobs && w.jobs[name].atom == w'.published[name])
                  || (name in w.published && w.published[name] == w'.published[name]))
  {
  }

  /** In every state of a run that starts so, the stored routes are those of a version the atom had. */
  lemma {:induction false} EveryVersionReal(pf: Platform, events: seq<Event>, trace: seq<World>, i: nat)
    requires Behaviour(pf, events, trace) && VersionsReal(trace, 0) && i < |trace|
    ensures VersionsReal(trace, i)
  {
    if i > 0 {
      EveryVersionReal(pf, events, trace, i - 1);
      assert trace[i] == After(pf, trace[i - 1], events[i - 1]);
      forall name
        ensures name in trace[i].jobs ==> HadVersion(trace, i, name, trace[i].jobs[name].atom)
        ensures name in trace[i].published ==> HadVersion(trace, i, name, trace[i].published[name])
      {
        EventVersions(pf, trace[i - 1], events[i - 1], name);
        VersionsGrow(trace, i, name);
      }
    }
  }

  lemma VersionsGrow(trace: seq<World>, i: nat, name: string)
    requires 0 < i < |trace|
    ensures forall version :: HadVersion(trace, i - 1, name, version) || HasVersion(trace[i - 1], name, version) ==>
              HadVersion(trace, i, name, version)
  {
  }

  // ----- One reconcile as a series of events

  predicate JobRunnable(w: World, name: string) {
    name in w.jobs ==> AllRunnable(w.jobs[name].atom, w.jobs[name].todo)
  }

  /** Takes the steps of one job until it ends, with nothing else in between. */
  function Drive(pf: Platform, w: World, name: string, faults: seq<Fault>): World
    requires JobRunnable(w, name)
    decreases if name in w.jobs then |w.jobs[name].todo| + 1 else 0
  {
    if name !in w.jobs || w.jobs[name].todo == [] then w
    else Drive(pf, AfterTake(pf, w, name, First(faults)), name, Rest(faults))
  }

  lemma {:induction false} DriveKeepsInv(pf: Platform, w: World, name: string, faults: seq<Fault>)
    requires HashLaws(pf) && Inv(pf, w) && JobRunnable(w, name)
    ensures Inv(pf, Drive(pf, w, name, faults)) && Drive(pf, w, name, faults).atoms == w.atoms
    decreases if name in w.jobs then |w.jobs[name].todo| + 1 else 0
  {
    if name in w.jobs && w.jobs[name].todo != [] {
      DriveTakes(pf, w, name, First(faults));
      DriveKeepsInv(pf, AfterTake(pf, w, name, First(faults)), name, Rest(faults));
    }
  }

  lemma DriveTakes(pf: Platform, w: World, name: string, fault: Fault)
    requires HashLaws(pf) && Inv(pf, w) && Planned(w, name) && JobRunnable(w, name)
    ensures var w' := AfterTake(pf, w, name, fault);
            && Inv(pf, w') && JobRunnable(w', name) && w'.atoms == w.atoms
            && (name in w'.jobs ==> |w'.jobs[name].todo| < |w.jobs[name].todo|)
  {
    assert JobSound(pf, w, name);
    TakeKeepsInv(pf, w, name, fault);
  }

  lemma {:induction false} DriveIsRun(pf: Platform, w: World, name: string, faults: seq<Fault>, results: Results)
    requires name in w.jobs && JobRunnable(w, name)
    ensures Drive(pf, w, name, faults).store
            == Run(pf, w.jobs[name].atom, w.jobs[name].todo, faults, w.store, results).store
    decreases |w.jobs[name].todo|
  {
    var job := w.jobs[name];
    if job.todo != [] {
      var step, w' := job.todo[0], AfterTake(pf, w, name, First(faults));
      var attempted := Attempt(pf, job.atom, step, First(faults), w.store);
      if name in w'.jobs {
        DriveIsRun(pf, w', name, Rest(faults), results[ResultKey(pf, job.atom.meta.name, step) := attempted.result]);
      }
    }
  }

  lemma StartedJob(pf: Platform, w: World, name: string, order: seq<string>, plan: Plan)
    requires Allowed(pf, w, Start(name, order))
    requires plan == PlanFor(pf, w.jobs[name].atom, w.owners[w.jobs[name].atom.spec.service.ownerInfoRef], order)
    ensures var started := After(pf, w, Start(name, order));
            && started.store == w.store && started.atoms == w.atoms
            && JobRunnable(started, name)
            && if plan.steps == [] then name !in started.jobs
               else name in started.jobs && started.jobs[name] == Job(w.jobs[name].atom, plan.steps)
  {
  }

  lemma DriveReachesRun(
    pf: Platform, started: World, atom: Atom, steps: seq<Step>, name: string, faults: seq<Fault>, other: string)
    requires HashLaws(pf) && Inv(pf, started) && other in started.atoms && AllRunnable(atom, steps)
    requires if steps == [] then name !in started.jobs else name in started.jobs && started.jobs[name] == Job(atom, steps)
    ensures Safe(pf, started.atoms[other], Run(pf, atom, steps, faults, started.store, map[]).store)
  {
    DriveKeepsInv(pf, started, name, faults);
    assert AtomSound(pf, Drive(pf, started, name, faults), other);
    if steps != [] {
      DriveIsRun(pf, started, name, faults, map[]);
    }
  }

  lemma AllForAtomStore(
    pf: Platform, atom: Atom, owner: OwnerInfo, order: seq<string>, faults: seq<Fault>, store: Store, plan: Plan)
    requires IsOrder(atom, order) && plan == PlanFor(pf, atom, owner, order)
    ensures AllForAtom(pf, atom, owner, order, faults, store).store
            == Run(pf, atom, plan.steps, faults, store, map[]).store
  {
  }

  /** A whole reconcile, failing anywhere or not, leaves every atom safe. */
  lemma ReconcileKeepsSafe(
    pf: Platform, w: World, atom: Atom, owner: OwnerInfo, order: seq<string>, faults: seq<Fault>, other: string)
    requires HashLaws(pf) && Inv(pf, w) && other in w.atoms && IsOrder(atom, order)
    requires atom.meta.name in w.atoms && w.atoms[atom.meta.name] == atom && atom.meta.name !in w.jobs
    requires atom.spec.service.ownerInfoRef in w.owners && w.owners[atom.spec.service.ownerInfoRef] == owner
    ensures Safe(pf, w.atoms[other], AllForAtom(pf, atom, owner, order, faults, w.store).store)
  {
    var fetched, plan := After(pf, w, Fetch(atom.meta.name)), PlanFor(pf, atom, owner, order);
    FetchKeepsInv(pf, w, atom.meta.name);
    var started := After(pf, fetched, Start(atom.meta.name, order));
    StartKeepsInv(pf, fetched, atom.meta.name, order);
    StartedJob(pf, fetched, atom.meta.name, order, plan);
    DriveReachesRun(pf, started, atom, plan.steps, atom.meta.name, faults, other);
    AllForAtomStore(pf, atom, owner, order, faults, w.store, plan);
  }
}
