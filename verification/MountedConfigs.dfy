/**
 * Where the configuration comes from that a Deployment mounts: in every run it is that of a version that the
 * atom had at some moment, with the owner info that this version refers to as it was then or later, and the
 * ConfigMap with it is there. The two may never have been there together, since they are read one by one.
 */
module MountedConfigs {
  import opened Wrappers
  import opened AtomTypes
  import opened Middlewares
  import opened Platforms
  import opened Validation
  import opened Workloads
  import opened Reconciling
  import opened ObjectKeys
  import opened StepSafety
  import opened OperatorRuns
  import opened Convergence

  /** The ConfigMap is named after what the version and its owner info ask for. */
  predicate AskedFor(pf: Platform, version: Atom, owners: Owners, configMapName: string) {
    version.spec.service.ownerInfoRef in owners &&
    var text := GeneratorText(pf, version, owners[version.spec.service.ownerInfoRef]);
    text.Ok? && configMapName == ConfigName(pf, version.meta.name, text.value)
  }

  /** The version of one moment and the owner info of that or a later moment ask for it. */
  predicate AskedAt(pf: Platform, trace: seq<World>, m: nat, n: nat, name: string, configMapName: string)
    requires m < |trace| && n < |trace|
  {
    m <= n && name in trace[m].atoms && AskedFor(pf, trace[m].atoms[name], trace[n].owners, configMapName)
  }

  ghost predicate EverAsked(pf: Platform, trace: seq<World>, now: nat, name: string, configMapName: string)
    requires now < |trace|
  {
    exists m, n :: 0 <= m <= now && 0 <= n <= now && AskedAt(pf, trace, m, n, name, configMapName)
  }

  /** A step that would mount the ConfigMap is still to be taken. */
  predicate WillMount(w: World, name: string, configMapName: string) {
    name in w.jobs && EnsureDeployment(configMapName) in w.jobs[name].todo
  }

  predicate Mounts(w: World, name: string, configMapName: string) {
    DeploymentKey(name) in w.store && w.store[DeploymentKey(name)].deployment.template.configMapName == configMapName
  }

  /** What is mounted, or will be, was asked for at some moment. */
  ghost predicate MountsReal(pf: Platform, trace: seq<World>, now: nat)
    requires now < |trace|
  {
    && (forall name, c :: WillMount(trace[now], name, c) ==> EverAsked(pf, trace, now, name, c))
    && (forall name, c :: Mounts(trace[now], name, c) ==> EverAsked(pf, trace, now, name, c))
  }

  // ----- One event

  /** The steps of a plan mount what the atom and owner info ask for, and nothing else. */
  lemma PlanMounts(pf: Platform, atom: Atom, owner: OwnerInfo, order: seq<string>, c: string)
    requires IsOrder(atom, order) && EnsureDeployment(c) in PlanFor(pf, atom, owner, order).steps
    ensures GeneratorText(pf, atom, owner).Ok? && c == ConfigName(pf, atom.meta.name, GeneratorText(pf, atom, owner).value)
  {
    var text := GeneratorText(pf, atom, owner).value;
    var core, later := CoreSteps(pf, atom, text), LaterSteps(atom, order);
    InTwo(core, later, EnsureDeployment(c));
    if EnsureDeployment(c) in later {
      LaterMountsNothing(atom, order, c);
    }
  }

  lemma InTwo(a: seq<Step>, b: seq<Step>, step: Step)
    ensures step in a + b <==> step in a || step in b
  {
  }

  lemma LaterMountsNothing(atom: Atom, order: seq<string>, c: string)
    requires IsOrder(atom, order)
    ensures EnsureDeployment(c) !in LaterSteps(atom, order)
  {
    if AllSliceable(DownloadLinks(atom)) {
      DownloadsApart(atom, order);
      InTwo(DownloadSteps(atom, order), FINAL_STEPS, EnsureDeployment(c));
    }
  }

  /** What a reconcile asks for once it has read the owner info. */
  predicate JobAsks(pf: Platform, w: World, name: string, c: string) {
    name in w.jobs && AskedFor(pf, w.jobs[name].atom, w.owners, c)
  }

  lemma StartMounts(pf: Platform, w: World, name: string, order: seq<string>, c: string)
    requires Allowed(pf, w, Start(name, order)) && WillMount(After(pf, w, Start(name, order)), name, c)
    ensures JobAsks(pf, w, name, c)
  {
    var atom := w.jobs[name].atom;
    var owner := w.owners[atom.spec.service.ownerInfoRef];
    StartedJob(pf, w, name, order, PlanFor(pf, atom, owner, order));
    PlanMounts(pf, atom, owner, order, c);
  }

  /** An attempt mounts what its step says, or leaves what is mounted. */
  lemma AttemptMounts(pf: Platform, atom: Atom, step: Step, fault: Fault, store: Store, name: string)
    requires HashLaws(pf) && Runnable(atom, step)
    ensures var store', key := Attempt(pf, atom, step, fault, store).store, DeploymentKey(name);
            || SameAt(key, store, store')
            || (atom.meta.name == name && step.EnsureDeployment? && key in store' &&
                store'[key].deployment.template.configMapName == step.configMapName)
  {
    AttemptEffect(pf, atom, step, fault, store);
    KeyUnique(pf, name, EnsureDeployment(""), atom.meta.name, step);
    assert KeyOf(pf, name, EnsureDeployment("")) == DeploymentKey(name);
  }

  lemma TakeMounts(pf: Platform, w: World, taken: string, fault: Fault, name: string, c: string)
    requires HashLaws(pf) && Planned(w, taken) && JobSound(pf, w, taken)
    ensures var w' := AfterTake(pf, w, taken, fault);
            && (WillMount(w', name, c) ==> WillMount(w, name, c))
            && (Mounts(w', name, c) ==> Mounts(w, name, c) || WillMount(w, name, c))
  {
    var job := w.jobs[taken];
    AttemptMounts(pf, job.atom, job.todo[0], fault, w.store, name);
    assert job.todo[0] in job.todo;
  }

  lemma TouchMounts(w: World, key: Key, value: Stored, name: string, c: string)
    requires key in w.store && KindOf(value) == key.kind && Benign(w.store[key], value)
    ensures Mounts(WithObject(w, key, value), name, c) ==> Mounts(w, name, c)
  {
  }

  /** What leaves objects alone and takes on no new work mounts nothing new. */
  lemma QuietMounts(w: World, w': World, name: string, c: string)
    requires w'.store == w.store
    requires name in w'.jobs ==> name in w.jobs && w'.jobs[name] == w.jobs[name]
    ensures WillMount(w', name, c) ==> WillMount(w, name, c)
    ensures Mounts(w', name, c) ==> Mounts(w, name, c)
  {
  }

  lemma StartLeavesOthers(pf: Platform, w: World, started: string, order: seq<string>, name: string)
    requires Allowed(pf, w, Start(started, order))
    ensures var w' := After(pf, w, Start(started, order));
            w'.store == w.store && (started != name && name in w'.jobs ==> name in w.jobs && w'.jobs[name] == w.jobs[name])
  {
  }

  lemma StartEventMounts(pf: Platform, w: World, started: string, order: seq<string>, name: string, c: string)
    requires Allowed(pf, w, Start(started, order))
    ensures var w' := After(pf, w, Start(started, order));
            && (WillMount(w', name, c) ==> WillMount(w, name, c) || JobAsks(pf, w, name, c))
            && (Mounts(w', name, c) ==> Mounts(w, name, c))
  {
    var w' := After(pf, w, Start(started, order));
    StartLeavesOthers(pf, w, started, order, name);
    if started != name {
      QuietMounts(w, w', name, c);
    } else if WillMount(w', name, c) {
      StartMounts(pf, w, name, order, c);
    }
  }

  lemma FetchMounts(pf: Platform, w: World, fetched: string, name: string, c: string)
    requires Allowed(pf, w, Fetch(fetched))
    ensures WillMount(Fetched(w, fetched), name, c) ==> WillMount(w, name, c)
    ensures Mounts(Fetched(w, fetched), name, c) ==> Mounts(w, name, c)
  {
  }

  lemma QuietEvent(pf: Platform, w: World, event: Event, name: string)
    requires Allowed(pf, w, event)
    requires event.Create? || event.Edit? || event.SetOwners? || event.Restart? || event.Leave?
    ensures var w' := After(pf, w, event);
            w'.store == w.store && (name in w'.jobs ==> name in w.jobs && w'.jobs[name] == w.jobs[name])
  {
  }

  lemma EventMounts(pf: Platform, w: World, event: Event, name: string, c: string)
    requires HashLaws(pf) && Inv(pf, w) && Allowed(pf, w, event)
    ensures var w' := After(pf, w, event);
            && (WillMount(w', name, c) ==> WillMount(w, name, c) || JobAsks(pf, w, name, c))
            && (Mounts(w', name, c) ==> Mounts(w, name, c) || WillMount(w, name, c))
  {
    match event
    case Fetch(fetched) => FetchMounts(pf, w, fetched, name, c);
    case Start(started, order) => StartEventMounts(pf, w, started, order, name, c);
    case Take(taken, fault) =>
      assert JobSound(pf, w, taken);
      TakeMounts(pf, w, taken, fault, name, c);
    case Touch(key, value) => TouchMounts(w, key, value, name, c);
    case _ =>
      QuietEvent(pf, w, event, name);
      QuietMounts(w, After(pf, w, event), name, c);
  }

  // ----- Whole runs

  lemma AskedGrows(pf: Platform, trace: seq<World>, now: nat, name: string, c: string)
    requires 0 < now < |trace| && EverAsked(pf, trace, now - 1, name, c)
    ensures EverAsked(pf, trace, now, name, c)
  {
    var m, n :| 0 <= m <= now - 1 && 0 <= n <= now - 1 && AskedAt(pf, trace, m, n, name, c);
  }

  /** What a reconcile asks for was asked for by a version that the atom really had. */
  lemma JobAsksForReal(pf: Platform, trace: seq<World>, now: nat, name: string, c: string)
    requires now < |trace| && VersionsReal(trace, now) && JobAsks(pf, trace[now], name, c)
    ensures EverAsked(pf, trace, now, name, c)
  {
    var m :| 0 <= m <= now && HasVersion(trace[m], name, trace[now].jobs[name].atom);
    assert AskedAt(pf, trace, m, now, name, c);
  }

  /** In every state of a run that starts so, what is mounted was asked for. */
  lemma {:induction false} EveryMountReal(pf: Platform, events: seq<Event>, trace: seq<World>, i: nat)
    requires HashLaws(pf) && Behaviour(pf, events, trace) && Inv(pf, trace[0]) && i < |trace|
    requires MountsReal(pf, trace, 0) && VersionsReal(trace, 0)
    ensures MountsReal(pf, trace, i)
  {
    if i > 0 {
      EveryMountReal(pf, events, trace, i - 1);
      forall name, c
        ensures WillMount(trace[i], name, c) || Mounts(trace[i], name, c) ==> EverAsked(pf, trace, i, name, c)
      {
        NextMount(pf, events, trace, i - 1, name, c);
      }
    }
  }

  lemma NextMount(pf: Platform, events: seq<Event>, trace: seq<World>, i: nat, name: string, c: string)
    requires HashLaws(pf) && Behaviour(pf, events, trace) && Inv(pf, trace[0]) && VersionsReal(trace, 0)
    requires i < |events| && MountsReal(pf, trace, i)
    ensures WillMount(trace[i + 1], name, c) || Mounts(trace[i + 1], name, c) ==> EverAsked(pf, trace, i + 1, name, c)
  {
    EveryStateIsSound(pf, events, trace, i);
    EveryVersionReal(pf, events, trace, i);
    MountsInNext(pf, events, trace, i, name, c);
    if WillMount(trace[i + 1], name, c) || Mounts(trace[i + 1], name, c) {
      if JobAsks(pf, trace[i], name, c) {
        JobAsksForReal(pf, trace, i, name, c);
      }
      AskedGrows(pf, trace, i + 1, name, c);
    }
  }

  lemma MountsInNext(pf: Platform, events: seq<Event>, trace: seq<World>, i: nat, name: string, c: string)
    requires HashLaws(pf) && Behaviour(pf, events, trace) && i < |events| && Inv(pf, trace[i])
    ensures WillMount(trace[i + 1], name, c) || Mounts(trace[i + 1], name, c) ==>
              WillMount(trace[i], name, c) || Mounts(trace[i], name, c) || JobAsks(pf, trace[i], name, c)
  {
    EventMounts(pf, trace[i], events[i], name, c);
  }

  /** The Deployment mounts a stored ConfigMap that holds the text. */
  predicate MountsText(pf: Platform, name: string, text: string, store: Store) {
    && Mounted(name, store) == Some(ConfigKey(pf, name, text))
    && DataAt(ConfigKey(pf, name, text), store) == Some(ConfigData(text))
  }

  function Mounted(name: string, store: Store): Option<Key> {
    if DeploymentKey(name) in store then Some(MountedConfig(store[DeploymentKey(name)].deployment)) else None
  }

  function DataAt(key: Key, store: Store): Option<map<string, string>>
    requires key.kind == ConfigMapKind
  {
    if key in store then Some(store[key].configMap.data) else None
  }

  /** What the version and the owner infos ask for is mounted in the store. */
  predicate MountsWhatIsAsked(pf: Platform, version: Atom, owners: Owners, store: Store) {
    version.spec.service.ownerInfoRef in owners &&
    var text := GeneratorText(pf, version, owners[version.spec.service.ownerInfoRef]);
    text.Ok? && MountsText(pf, version.meta.name, text.value, store)
  }

  /**
   * The ConfigMap that a Deployment mounts holds exactly the configuration of a version that the atom had at
   * some moment, with the owner info of that version as it was at that or a later moment.
   */
  lemma MountedConfigIsReal(pf: Platform, events: seq<Event>, trace: seq<World>, i: nat, name: string) returns (m: nat, n: nat)
    requires HashLaws(pf) && Behaviour(pf, events, trace) && Inv(pf, trace[0])
    requires MountsReal(pf, trace, 0) && VersionsReal(trace, 0)
    requires i < |trace| && name in trace[i].atoms && DeploymentKey(name) in trace[i].store
    ensures m <= n <= i && name in trace[m].atoms && trace[m].atoms[name].meta.name == name
    ensures MountsWhatIsAsked(pf, trace[m].atoms[name], trace[n].owners, trace[i].store)
  {
    var c := trace[i].store[DeploymentKey(name)].deployment.template.configMapName;
    EveryMountReal(pf, events, trace, i);
    assert Mounts(trace[i], name, c);
    m, n :| 0 <= m <= i && 0 <= n <= i && AskedAt(pf, trace, m, n, name, c);
    EveryStateIsSafe(pf, events, trace, m, name);
    EveryStateIsSafe(pf, events, trace, i, name);
    MountedIsAsked(pf, trace[m].atoms[name], trace[n].owners, trace[i], name, c);
  }

  lemma MountedIsAsked(pf: Platform, version: Atom, owners: Owners, w: World, name: string, c: string)
    requires AskedFor(pf, version, owners, c) && version.meta.name == name && Mounts(w, name, c)
    requires name in w.atoms && w.atoms[name].meta.name == name && Safe(pf, w.atoms[name], w.store)
    ensures MountsWhatIsAsked(pf, version, owners, w.store)
  {
    TextIsMounted(pf, w.atoms[name], w.store, GeneratorText(pf, version, owners[version.spec.service.ownerInfoRef]).value, c);
  }

  lemma TextIsMounted(pf: Platform, atom: Atom, store: Store, text: string, c: string)
    requires Safe(pf, atom, store) && DeploymentKey(atom.meta.name) in store
    requires store[DeploymentKey(atom.meta.name)].deployment.template.configMapName == c == ConfigName(pf, atom.meta.name, text)
    ensures MountsText(pf, atom.meta.name, text, store)
  {
    MountedExists(atom, store);
    SafeConfig(pf, atom, store, text);
  }

  lemma MountedExists(atom: Atom, store: Store)
    requires ReferencesExist(atom.meta.name, store) && DeploymentKey(atom.meta.name) in store
    ensures MountedConfig(store[DeploymentKey(atom.meta.name)].deployment) in store
  {
  }

  // ----- From nothing

  /** A namespace in which nothing exists yet. */
  predicate Nothing(w: World) {
    w.atoms == map[] && w.store == map[] && w.jobs == map[] && w.published == map[]
  }

  lemma NothingIsSound(pf: Platform, trace: seq<World>)
    requires |trace| > 0 && Nothing(trace[0])
    ensures Inv(pf, trace[0]) && VersionsReal(trace, 0) && MountsReal(pf, trace, 0)
  {
  }

  /** In every run that starts with nothing, every Deployment mounts what was asked for. */
  lemma MountedSinceNothing(pf: Platform, events: seq<Event>, trace: seq<World>, i: nat, name: string) returns (m: nat, n: nat)
    requires HashLaws(pf) && Behaviour(pf, events, trace) && Nothing(trace[0])
    requires i < |trace| && name in trace[i].atoms && DeploymentKey(name) in trace[i].store
    ensures m <= n <= i && name in trace[m].atoms && trace[m].atoms[name].meta.name == name
    ensures MountsWhatIsAsked(pf, trace[m].atoms[name], trace[n].owners, trace[i].store)
  {
    NothingIsSound(pf, trace);
    m, n := MountedConfigIsReal(pf, events, trace, i, name);
  }
}
