/**
 * What one step may do to the store: references it relies on exist, hashed ConfigMaps keep their data, and
 * selectors stay; and why every step finds what it needs.
 */
module StepSafety {
  import opened Wrappers
  import opened Sequences
  import opened Urls
  import opened AtomTypes
  import opened KubeObjects
  import opened Middlewares
  import opened DownloadRouting
  import opened IngressRoutes
  import opened Platforms
  import opened Workloads
  import opened Reconciling
  import opened ObjectKeys

  // ----- What one attempt does to the store

  /** A write leaves the value, or else nothing; a reply that it exists or was modified is true. */
  lemma PutEffect(store: Store, key: Key, value: Stored, fault: Fault)
    requires KindOf(value) == key.kind
    ensures var attempted := Put(store, key, value, fault);
            && (attempted.store == store || attempted.store == store[key := value])
            && (attempted.err.None? || attempted.err.value == Modified ==> key in attempted.store)
            && (attempted.err.None? || attempted.store != store ==> key in attempted.store && attempted.store[key] == value)
  {
  }

  /** An attempt writes its own key or nothing; if the series goes on, the key is there. */
  lemma AttemptEffect(pf: Platform, atom: Atom, step: Step, fault: Fault, store: Store)
    requires Runnable(atom, step)
    ensures var attempted, key := Attempt(pf, atom, step, fault, store), KeyOf(pf, atom.meta.name, step);
            && (attempted.store != store ==>
                  && attempted.store == store[key := MutatedBy(pf, atom, step, Current(pf, atom.meta.name, step, store))]
                  && !Blocked(pf, atom.meta.name, step, store))
            && (attempted.err.None? || Tolerated(step, attempted.err.value) ==> key in attempted.store)
  {
    PutEffect(store, KeyOf(pf, atom.meta.name, step), MutatedBy(pf, atom, step, Current(pf, atom.meta.name, step, store)), fault);
  }

  // ----- Content addressing

  function ConfigKey(pf: Platform, atomName: string, text: string): Key {
    Key(ConfigMapKind, ConfigName(pf, atomName, text))
  }

  /** A ConfigMap named after the hash of a text holds exactly that text. */
  ghost predicate Intact(pf: Platform, atomName: string, store: Store) {
    forall text :: ConfigKey(pf, atomName, text) in store ==>
      store[ConfigKey(pf, atomName, text)].configMap.data == ConfigData(text)
  }

  /** On an intact store the ConfigMap step is never blocked. */
  lemma IntactNotBlocked(pf: Platform, atomName: string, step: Step, store: Store)
    requires HashLaws(pf) && Intact(pf, atomName, store)
    ensures !Blocked(pf, atomName, step, store)
  {
    if step.EnsureConfigMap? {
      HashSuffixLaws(pf, atomName, step.text, ConfigData(step.text));
      assert KeyOf(pf, atomName, step) == ConfigKey(pf, atomName, step.text);
    }
  }

  /** The ConfigMap named after the text holds something else. */
  predicate Tampered(pf: Platform, atomName: string, text: string, store: Store) {
    var key := ConfigKey(pf, atomName, text);
    key in store && store[key].configMap.data != map[] && store[key].configMap.data != ConfigData(text)
  }

  lemma TamperedIsBlockedExactly(pf: Platform, atomName: string, text: string, store: Store)
    requires HashLaws(pf)
    ensures Blocked(pf, atomName, EnsureConfigMap(text), store) <==> Tampered(pf, atomName, text, store)
  {
    var key := ConfigKey(pf, atomName, text);
    assert KeyOf(pf, atomName, EnsureConfigMap(text)) == key;
    if key in store {
      HashSuffixLaws(pf, atomName, text, store[key].configMap.data);
    }
  }

  /** An attempt that reaches the API server is refused for its name exactly when the ConfigMap was tampered with. */
  lemma TamperedIsBlocked(pf: Platform, atom: Atom, text: string, fault: Fault, store: Store)
    requires HashLaws(pf) && !fault.Refused?
    ensures Attempt(pf, atom, EnsureConfigMap(text), fault, store).err == Some(KeyChanged) <==>
              Tampered(pf, atom.meta.name, text, store)
  {
    TamperedIsBlockedExactly(pf, atom.meta.name, text, store);
  }

  lemma ConfigMapData(pf: Platform, atom: Atom, text: string, store: Store)
    requires Intact(pf, atom.meta.name, store)
    ensures MutatedBy(pf, atom, EnsureConfigMap(text), Current(pf, atom.meta.name, EnsureConfigMap(text), store)).configMap.data
            == ConfigData(text)
  {
    assert KeyOf(pf, atom.meta.name, EnsureConfigMap(text)) == ConfigKey(pf, atom.meta.name, text);
  }

  // ----- References

  function DeploymentKey(atomName: string): Key {
    Key(DeploymentKind, WorkloadName(atomName))
  }

  function ServiceKey(atomName: string): Key {
    Key(ServiceKind, ServiceName(atomName))
  }

  function MiddlewareKey(name: string): Key {
    Key(MiddlewareKind, name)
  }

  function RouteKey(atomName: string): Key {
    Key(IngressRouteKind, IngressRouteName(atomName))
  }

  /** The ConfigMap that a Deployment mounts. */
  function MountedConfig(deployment: Deployment): Key {
    Key(ConfigMapKind, deployment.template.configMapName)
  }

  /** What a route names, other than the storage behind all atoms. */
  function RouteReferences(route: Route): set<Key> {
    (set m | m in route.middlewares :: MiddlewareKey(m)) +
    (set b | b in route.services && b != STORAGE :: Key(ServiceKind, b.name))
  }

  ghost predicate RoutesResolve(routes: seq<Route>, keys: set<Key>) {
    forall route :: route in routes ==> RouteReferences(route) <= keys
  }

  /** What the Deployment and the IngressRoute under these keys name exists. */
  ghost predicate Resolved(deploymentKey: Key, routeKey: Key, store: Store)
    requires deploymentKey.kind == DeploymentKind && routeKey.kind == IngressRouteKind
  {
    && (deploymentKey in store ==> MountedConfig(store[deploymentKey].deployment) in store)
    && (routeKey in store ==> RoutesResolve(store[routeKey].ingressRoute.routes, store.Keys))
  }

  /** Every object that the Deployment and the IngressRoute of the atom name exists. */
  ghost predicate ReferencesExist(atomName: string, store: Store) {
    Resolved(DeploymentKey(atomName), RouteKey(atomName), store)
  }

  /** The keys of the middlewares of all groups. */
  function DownloadKeys(atom: Atom): set<Key>
    requires AllSliceable(DownloadLinks(atom))
  {
    set name | name in ChainNames(atom) :: MiddlewareKey(name)
  }

  /** What must exist before a step may write. */
  function Needs(atom: Atom, step: Step): set<Key>
    requires Runnable(atom, step)
  {
    match step
    case EnsureDeployment(configMapName) => {Key(ConfigMapKind, configMapName)}
    case EnsureIngressRoute =>
      {ServiceKey(atom.meta.name), MiddlewareKey(HeadersName(atom.meta.name)),
       MiddlewareKey(StripPrefixName(atom.meta.name))} + DownloadKeys(atom)
    case _ => {}
  }

  lemma ShapeReferences(
    headers: string, strip: string, names: seq<string>, service: string, downloads: set<Key>, route: Route)
    requires downloads == set name | name in names :: MiddlewareKey(name)
    requires || (route.middlewares == [headers, strip] && forall b :: b in route.services ==> b.name == service)
             || (route.middlewares == [headers] + names && route.services == [STORAGE])
    ensures RouteReferences(route)
            <= {Key(ServiceKind, service), MiddlewareKey(headers), MiddlewareKey(strip)} + downloads
  {
    forall key | key in RouteReferences(route)
      ensures key in {Key(ServiceKind, service), MiddlewareKey(headers), MiddlewareKey(strip)} + downloads
    {
      if m :| m in route.middlewares && key == MiddlewareKey(m) {
        assert m == headers || m == strip || m in names;
      }
    }
  }

  lemma RoutesNeedOnly(atom: Atom, uptime: UptimeAnnotations, stored: IngressRoute, route: Route)
    requires AllSliceable(DownloadLinks(atom)) && route in IngressRouteFor(atom, uptime, stored).routes
    ensures RouteReferences(route) <= Needs(atom, EnsureIngressRoute)
  {
    RoutesAreThoseOfServedURLs(atom, uptime, stored, route);
    var url :| url in atom.ServedURLs() && route in RoutesForURL(atom, url, ChainNames(atom));
    RouteOfURL(atom, url, route);
  }

  lemma RouteOfURL(atom: Atom, url: URL, route: Route)
    requires AllSliceable(DownloadLinks(atom)) && route in RoutesForURL(atom, url, ChainNames(atom))
    ensures RouteReferences(route) <= Needs(atom, EnsureIngressRoute)
  {
    RouteShape(atom, url, ChainNames(atom), route);
    ShapeReferences(HeadersName(atom.meta.name), StripPrefixName(atom.meta.name), ChainNames(atom),
                    ServiceName(atom.meta.name), DownloadKeys(atom), route);
  }

  /** A route serves feeds from the atom's service or downloads from storage. */
  lemma RouteShape(atom: Atom, url: URL, names: seq<string>, route: Route)
    requires route in RoutesForURL(atom, url, names)
    ensures || (route.middlewares == [HeadersName(atom.meta.name), StripPrefixName(atom.meta.name)] &&
                (forall b :: b in route.services ==> b.name == ServiceName(atom.meta.name)))
            || (route.middlewares == [HeadersName(atom.meta.name)] + names && route.services == [STORAGE])
  {
  }

  /** What a step writes names only what the step needs. */
  lemma StepResolves(pf: Platform, atom: Atom, step: Step, stored: Stored, keys: set<Key>)
    requires Runnable(atom, step) && KindOf(stored) == StepKind(step) && Needs(atom, step) <= keys
    ensures var mutated := MutatedBy(pf, atom, step, stored);
            && (mutated.ADeployment? ==> MountedConfig(mutated.deployment) in keys)
            && (mutated.AnIngressRoute? ==> RoutesResolve(mutated.ingressRoute.routes, keys))
  {
    if step.EnsureIngressRoute? {
      forall route | route in IngressRouteFor(atom, pf.uptime, stored.ingressRoute).routes
        ensures RouteReferences(route) <= keys
      {
        RoutesNeedOnly(atom, pf.uptime, stored.ingressRoute, route);
      }
    }
  }

  // ----- Safety of the objects of one atom

  /** The Deployment and the Service select by the atom's labels, and these select the Deployment's pods. */
  ghost predicate SelectorsHeld(atom: Atom, store: Store) {
    && (DeploymentKey(atom.meta.name) in store ==>
          var deployment := store[DeploymentKey(atom.meta.name)].deployment;
          deployment.selector == LabelSelector(atom) && Selects(deployment.selector, deployment.template.labels))
    && (ServiceKey(atom.meta.name) in store ==>
          store[ServiceKey(atom.meta.name)].service.selector == LabelSelector(atom))
  }

  ghost predicate Safe(pf: Platform, atom: Atom, store: Store) {
    Intact(pf, atom.meta.name, store) && ReferencesExist(atom.meta.name, store) && SelectorsHeld(atom, store)
  }

  /** Writing the value under the key does the atom no harm. */
  ghost predicate Fits(pf: Platform, atom: Atom, store: Store, key: Key, value: Stored)
    requires KindOf(value) == key.kind
  {
    var name := atom.meta.name;
    && (forall text :: ConfigKey(pf, name, text) == key ==> value.configMap.data == ConfigData(text))
    && (key == DeploymentKey(name) ==>
          && MountedConfig(value.deployment) in store
          && value.deployment.selector == LabelSelector(atom)
          && Selects(value.deployment.selector, value.deployment.template.labels))
    && (key == ServiceKey(name) ==> value.service.selector == LabelSelector(atom))
    && (key == RouteKey(name) ==> RoutesResolve(value.ingressRoute.routes, store.Keys))
  }

  lemma PutKeepsSafe(pf: Platform, atom: Atom, store: Store, key: Key, value: Stored)
    requires Safe(pf, atom, store) && KindOf(value) == key.kind && Fits(pf, atom, store, key, value)
    ensures Safe(pf, atom, store[key := value])
  {
    var name := atom.meta.name;
    assert Intact(pf, name, store[key := value]);
    assert ReferencesExist(name, store[key := value]);
    assert SelectorsHeld(atom, store[key := value]);
  }

  /** The atom's own steps fit, whatever the stored objects look like. */
  lemma StepFits(pf: Platform, atom: Atom, step: Step, store: Store)
    requires HashLaws(pf) && Runnable(atom, step) && Intact(pf, atom.meta.name, store) && Needs(atom, step) <= store.Keys
    ensures Fits(pf, atom, store, KeyOf(pf, atom.meta.name, step),
                 MutatedBy(pf, atom, step, Current(pf, atom.meta.name, step, store)))
  {
    var name, key, current := atom.meta.name, KeyOf(pf, atom.meta.name, step), Current(pf, atom.meta.name, step, store);
    var value := MutatedBy(pf, atom, step, current);
    forall text | ConfigKey(pf, name, text) == key
      ensures value.configMap.data == ConfigData(text)
    {
      ConfigNameInjective(pf, name, text, step.text);
      ConfigMapData(pf, atom, text, store);
    }
    StepResolves(pf, atom, step, current, store.Keys);
    if step.EnsureDeployment? {
      SelectorsAgree(pf, atom, step.configMapName, current.deployment, BARE_SERVICE, BARE_DISRUPTION_BUDGET);
    }
  }

  /** The steps of another atom fit, since they write other objects. */
  lemma OtherStepFits(pf: Platform, atom: Atom, other: string, step: Step, store: Store, value: Stored)
    requires HashLaws(pf) && other != atom.meta.name && KindOf(value) == StepKind(step)
    ensures Fits(pf, atom, store, KeyOf(pf, other, step), value)
  {
    var name := atom.meta.name;
    forall text
      ensures ConfigKey(pf, name, text) != KeyOf(pf, other, step)
    {
      KeyUnique(pf, name, EnsureConfigMap(text), other, step);
    }
    KeyUnique(pf, name, EnsureDeployment(""), other, step);
    KeyUnique(pf, name, EnsureService, other, step);
    KeyUnique(pf, name, EnsureIngressRoute, other, step);
  }

  /** Others may change an object in any way that leaves alone what its readers rely on. */
  ghost predicate Benign(before: Stored, after: Stored) {
    KindOf(before) == KindOf(after) &&
    match before
    case AConfigMap(configMap) => after.configMap.data == configMap.data
    case ADeployment(deployment) =>
      && after.deployment.selector == deployment.selector
      && after.deployment.template.configMapName == deployment.template.configMapName
      && Selects(deployment.selector, after.deployment.template.labels)
    case AService(service) => after.service.selector == service.selector
    case AnIngressRoute(ingressRoute) => after.ingressRoute.routes == ingressRoute.routes
    case AMiddleware(_) => true
    case ABudget(_) => true
  }

  lemma BenignFits(pf: Platform, atom: Atom, store: Store, key: Key, value: Stored)
    requires Safe(pf, atom, store) && key in store && Benign(store[key], value)
    ensures Fits(pf, atom, store, key, value)
  {
  }

  // ----- Plans are well ordered

  /** A step as far as its references go: the keys it needs and the key it ensures. */
  datatype Task = Task(needs: set<Key>, key: Key)

  function TaskOf(pf: Platform, atom: Atom, step: Step): Task
    requires Runnable(atom, step)
  {
    Task(Needs(atom, step), KeyOf(pf, atom.meta.name, step))
  }

  function TasksOf(pf: Platform, atom: Atom, steps: seq<Step>): seq<Task>
    requires AllRunnable(atom, steps)
  {
    seq(|steps|, k requires 0 <= k < |steps| => TaskOf(pf, atom, steps[k]))
  }

  /** Every task finds what it needs among the given keys and those of the tasks before it. */
  predicate Ready(keys: set<Key>, tasks: seq<Task>)
    decreases |tasks|
  {
    tasks == [] || (tasks[0].needs <= keys && Ready(keys + {tasks[0].key}, tasks[1..]))
  }

  lemma {:induction false} ReadyMonotone(keys: set<Key>, more: set<Key>, tasks: seq<Task>)
    requires Ready(keys, tasks) && keys <= more
    ensures Ready(more, tasks)
    decreases |tasks|
  {
    if tasks != [] {
      ReadyMonotone(keys + {tasks[0].key}, more + {tasks[0].key}, tasks[1..]);
    }
  }

  function TaskKeys(tasks: seq<Task>): set<Key> {
    set task | task in tasks :: task.key
  }

  lemma {:induction false} ReadyAppend(keys: set<Key>, a: seq<Task>, b: seq<Task>)
    requires Ready(keys, a) && Ready(keys + TaskKeys(a), b)
    ensures Ready(keys, a + b)
    decreases |a|
  {
    if a == [] {
      assert a + b == b && keys + TaskKeys(a) == keys;
    } else {
      assert (a + b)[1..] == a[1..] + b;
      assert a == [a[0]] + a[1..];
      assert keys + {a[0].key} + TaskKeys(a[1..]) == keys + TaskKeys(a);
      ReadyAppend(keys + {a[0].key}, a[1..], b);
    }
  }

  /** Tasks that need nothing are always ready. */
  lemma {:induction false} ReadyWithoutNeeds(keys: set<Key>, tasks: seq<Task>)
    requires forall task :: task in tasks ==> task.needs == {}
    ensures Ready(keys, tasks)
    decreases |tasks|
  {
    if tasks != [] {
      ReadyWithoutNeeds(keys + {tasks[0].key}, tasks[1..]);
    }
  }

  /** The order of the steps is right: whatever exists at the start, each step finds what it needs. */
  lemma PlanReady(pf: Platform, atom: Atom, owner: OwnerInfo, order: seq<string>, keys: set<Key>)
    requires IsOrder(atom, order)
    ensures Ready(keys, TasksOf(pf, atom, PlanFor(pf, atom, owner, order).steps))
  {
    var generated := GeneratorText(pf, atom, owner);
    if generated.Ok? {
      StepsReady(pf, atom, generated.value, order, keys);
    }
  }

  lemma StepsReady(pf: Platform, atom: Atom, text: string, order: seq<string>, keys: set<Key>)
    requires IsOrder(atom, order)
    ensures AllRunnable(atom, CoreSteps(pf, atom, text) + LaterSteps(atom, order))
    ensures Ready(keys, TasksOf(pf, atom, CoreSteps(pf, atom, text) + LaterSteps(atom, order)))
  {
    var core, later := CoreSteps(pf, atom, text), LaterSteps(atom, order);
    CoreRunnable(pf, atom, text);
    TasksAppend(pf, atom, core, later);
    CoreReady(pf, atom, text, keys);
    if later != [] {
      LaterReady(pf, atom, order, text, keys + TaskKeys(TasksOf(pf, atom, core)));
    }
    ReadyAppend(keys, TasksOf(pf, atom, core), TasksOf(pf, atom, later));
  }

  lemma TasksAppend(pf: Platform, atom: Atom, a: seq<Step>, b: seq<Step>)
    requires AllRunnable(atom, a) && AllRunnable(atom, b)
    ensures AllRunnable(atom, a + b) && TasksOf(pf, atom, a + b) == TasksOf(pf, atom, a) + TasksOf(pf, atom, b)
  {
    var all := a + b;
    assert forall k :: 0 <= k < |all| ==> all[k] == if k < |a| then a[k] else b[k - |a|];
    SameTasks(TasksOf(pf, atom, all), TasksOf(pf, atom, a), TasksOf(pf, atom, b));
  }

  lemma SameTasks(all: seq<Task>, a: seq<Task>, b: seq<Task>)
    requires |all| == |a| + |b|
    requires forall k :: 0 <= k < |all| ==> all[k] == if k < |a| then a[k] else b[k - |a|]
    ensures all == a + b
  {
  }

  /** The Deployment needs the ConfigMap, which comes first; the others need nothing. */
  lemma CoreReady(pf: Platform, atom: Atom, text: string, keys: set<Key>)
    requires AllRunnable(atom, CoreSteps(pf, atom, text))
    ensures Ready(keys, TasksOf(pf, atom, CoreSteps(pf, atom, text)))
  {
    var tasks := TasksOf(pf, atom, CoreSteps(pf, atom, text));
    FiveReady(keys, tasks);
  }

  lemma FiveReady(keys: set<Key>, tasks: seq<Task>)
    requires |tasks| == 5 && tasks[0].needs == {} && tasks[1].needs == {tasks[0].key}
    requires tasks[2].needs == {} && tasks[3].needs == {} && tasks[4].needs == {}
    ensures Ready(keys, tasks)
  {
    var most := tasks[1..];
    ReadyWithoutNeeds(keys + {tasks[0].key} + {most[0].key}, most[1..]);
  }

  lemma LaterReady(pf: Platform, atom: Atom, order: seq<string>, text: string, keys: set<Key>)
    requires IsOrder(atom, order) && AllSliceable(DownloadLinks(atom))
    requires AllRunnable(atom, CoreSteps(pf, atom, text)) && AllRunnable(atom, LaterSteps(atom, order))
    requires TaskKeys(TasksOf(pf, atom, CoreSteps(pf, atom, text))) <= keys
    ensures Ready(keys, TasksOf(pf, atom, LaterSteps(atom, order)))
  {
    CoreRunnable(pf, atom, text);
    var core, downloads, final := CoreSteps(pf, atom, text), DownloadSteps(atom, order), FINAL_STEPS;
    var tasks := TasksOf(pf, atom, downloads);
    TasksAppend(pf, atom, downloads, final);
    ReadyWithoutNeeds(keys, tasks);
    DownloadKeysEnsured(pf, atom, order);
    FixedKeysEnsured(pf, atom, text);
    FinalReady(pf, atom, keys + TaskKeys(tasks));
    ReadyAppend(keys, tasks, TasksOf(pf, atom, final));
  }

  lemma FixedKeysEnsured(pf: Platform, atom: Atom, text: string)
    requires AllRunnable(atom, CoreSteps(pf, atom, text))
    ensures {ServiceKey(atom.meta.name), MiddlewareKey(HeadersName(atom.meta.name)),
             MiddlewareKey(StripPrefixName(atom.meta.name))} <= TaskKeys(TasksOf(pf, atom, CoreSteps(pf, atom, text)))
  {
    var core, tasks := CoreSteps(pf, atom, text), TasksOf(pf, atom, CoreSteps(pf, atom, text));
    assert core[2] == EnsureService && core[3] == EnsureStripPrefix && core[4] == EnsureHeaders;
    assert tasks[2] in tasks && tasks[3] in tasks && tasks[4] in tasks;
  }

  lemma FinalReady(pf: Platform, atom: Atom, keys: set<Key>)
    requires AllSliceable(DownloadLinks(atom)) && Needs(atom, EnsureIngressRoute) <= keys
    ensures Ready(keys, TasksOf(pf, atom, FINAL_STEPS))
  {
    var tasks := TasksOf(pf, atom, FINAL_STEPS);
    ReadyWithoutNeeds(keys + {tasks[0].key}, tasks[1..]);
  }

  /** The download steps ensure every middleware that the chain names. */
  lemma DownloadKeysEnsured(pf: Platform, atom: Atom, order: seq<string>)
    requires IsOrder(atom, order) && AllSliceable(DownloadLinks(atom))
    ensures DownloadKeys(atom) <= TaskKeys(TasksOf(pf, atom, DownloadSteps(atom, order)))
  {
    forall name | name in ChainNames(atom)
      ensures MiddlewareKey(name) in TaskKeys(TasksOf(pf, atom, DownloadSteps(atom, order)))
    {
      DownloadKeyEnsured(pf, atom, order, name);
    }
  }

  lemma DownloadKeyEnsured(pf: Platform, atom: Atom, order: seq<string>, name: string)
    requires IsOrder(atom, order) && AllSliceable(DownloadLinks(atom)) && name in ChainNames(atom)
    ensures MiddlewareKey(name) in TaskKeys(TasksOf(pf, atom, DownloadSteps(atom, order)))
  {
    var groups, steps := GroupOrder(DownloadLinks(atom)), DownloadSteps(atom, order);
    ChainNameIndex(atom.meta.name, |groups|, name);
    var i := IndexOf(DownloadNames(atom.meta.name, |groups|), name);
    assert groups[i] in order;
    var k :| 0 <= k < |order| && order[k] == groups[i];
    IndexOfUnique(groups, i);
    DownloadTask(pf, atom, i, steps[k]);
    assert TasksOf(pf, atom, steps)[k] == TaskOf(pf, atom, steps[k]);
  }

  lemma DownloadTask(pf: Platform, atom: Atom, i: nat, step: Step)
    requires step.EnsureDownload? && step.index == i
    ensures TaskOf(pf, atom, step).key == MiddlewareKey(DownloadName(atom.meta.name, i))
  {
  }
}
