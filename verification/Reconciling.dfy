/**
 * Reconciling: the ordered series of create-or-update steps on the objects of a namespace. Every request to
 * the API server can fail, before or after it took effect, and the group map is visited in any order.
 */
module Reconciling {
  import opened Wrappers
  import opened Sequences
  import opened AtomTypes
  import opened KubeObjects
  import opened Middlewares
  import opened IngressRoutes
  import opened Platforms
  import opened Validation
  import opened Lifetimes
  import opened Workloads

  // ----- The objects of a namespace

  datatype Kind = AtomKind | ConfigMapKind | DeploymentKind | ServiceKind | MiddlewareKind | IngressRouteKind | BudgetKind

  datatype Key = Key(kind: Kind, name: string)

  datatype Stored =
    | AConfigMap(configMap: ConfigMap)
    | ADeployment(deployment: Deployment)
    | AService(service: KubeService)
    | AMiddleware(middleware: Middleware)
    | AnIngressRoute(ingressRoute: IngressRoute)
    | ABudget(budget: DisruptionBudget)

  function KindOf(stored: Stored): Kind {
    match stored
    case AConfigMap(_) => ConfigMapKind
    case ADeployment(_) => DeploymentKind
    case AService(_) => ServiceKind
    case AMiddleware(_) => MiddlewareKind
    case AnIngressRoute(_) => IngressRouteKind
    case ABudget(_) => BudgetKind
  }

  predicate WellTyped(objects: map<Key, Stored>) {
    forall key :: key in objects ==> KindOf(objects[key]) == key.kind
  }

  type Store = objects: map<Key, Stored> | WellTyped(objects) witness map[]

  // ----- Steps

  datatype Step =
    | EnsureConfigMap(text: string)
    | EnsureDeployment(configMapName: string)
    | EnsureService
    | EnsureStripPrefix
    | EnsureHeaders
    | EnsureDownload(index: nat, prefix: string, files: seq<string>)
    | EnsureIngressRoute
    | EnsureBudget

  function StepKind(step: Step): Kind {
    match step
    case EnsureConfigMap(_) => ConfigMapKind
    case EnsureDeployment(_) => DeploymentKind
    case EnsureService => ServiceKind
    case EnsureStripPrefix => MiddlewareKind
    case EnsureHeaders => MiddlewareKind
    case EnsureDownload(_, _, _) => MiddlewareKind
    case EnsureIngressRoute => IngressRouteKind
    case EnsureBudget => BudgetKind
  }

  function StepName(pf: Platform, atomName: string, step: Step): string {
    match step
    case EnsureConfigMap(text) => ConfigName(pf, atomName, text)
    case EnsureDeployment(_) => WorkloadName(atomName)
    case EnsureService => ServiceName(atomName)
    case EnsureStripPrefix => StripPrefixName(atomName)
    case EnsureHeaders => HeadersName(atomName)
    case EnsureDownload(index, _, _) => DownloadName(atomName, index)
    case EnsureIngressRoute => IngressRouteName(atomName)
    case EnsureBudget => WorkloadName(atomName)
  }

  function KeyOf(pf: Platform, atomName: string, step: Step): Key {
    Key(StepKind(step), StepName(pf, atomName, step))
  }

  /** Under which name a result is recorded: the ConfigMap's under the atom's. */
  function ResultKey(pf: Platform, atomName: string, step: Step): Key {
    if step.EnsureConfigMap? then Key(AtomKind, atomName) else KeyOf(pf, atomName, step)
  }

  /** The object of a kind before anything is set. */
  function Bare(kind: Kind): (stored: Stored)
    requires kind != AtomKind
    ensures KindOf(stored) == kind
  {
    match kind
    case ConfigMapKind => AConfigMap(BARE_CONFIG_MAP)
    case DeploymentKind => ADeployment(BARE_DEPLOYMENT)
    case ServiceKind => AService(BARE_SERVICE)
    case MiddlewareKind => AMiddleware(BARE_MIDDLEWARE)
    case IngressRouteKind => AnIngressRoute(BARE_INGRESS_ROUTE)
    case BudgetKind => ABudget(BARE_DISRUPTION_BUDGET)
  }

  /** What a step starts from: the stored object, or else a bare one. */
  function Current(pf: Platform, atomName: string, step: Step, store: Store): (stored: Stored)
    ensures KindOf(stored) == StepKind(step)
  {
    var key := KeyOf(pf, atomName, step);
    if key in store then store[key] else Bare(StepKind(step))
  }

  /** The route of an atom can only be computed when its links can be grouped. */
  predicate Runnable(atom: Atom, step: Step) {
    step.EnsureIngressRoute? ==> AllSliceable(DownloadLinks(atom))
  }

  /** What the mutate function of a step makes of an object. */
  function MutatedBy(pf: Platform, atom: Atom, step: Step, stored: Stored): (mutated: Stored)
    requires Runnable(atom, step) && KindOf(stored) == StepKind(step)
    ensures KindOf(mutated) == StepKind(step)
  {
    match step
    case EnsureConfigMap(text) =>
      var data := if stored.configMap.data == map[] then ConfigData(text) else stored.configMap.data;
      AConfigMap(ConfigMap(ObjectLabels(atom, stored.configMap.labels), data, true))
    case EnsureDeployment(configMapName) => ADeployment(DeploymentFor(pf, atom, configMapName, stored.deployment))
    case EnsureService => AService(ServiceFor(atom, stored.service))
    case EnsureStripPrefix => AMiddleware(StripPrefixMiddleware(atom, stored.middleware))
    case EnsureHeaders => AMiddleware(HeadersMiddleware(atom, pf.csp, stored.middleware))
    case EnsureDownload(_, prefix, files) => AMiddleware(DownloadLinkMiddleware(atom, prefix, files, stored.middleware))
    case EnsureIngressRoute => AnIngressRoute(IngressRouteFor(atom, pf.uptime, stored.ingressRoute))
    case EnsureBudget => ABudget(BudgetFor(atom, stored.budget))
  }

  // ----- Requests and their faults

  datatype Fault =
    | NoFault
    | Refused      // nothing happened
    | LostReply    // the write took effect, but the operator is told it failed
    | Conflict     // somebody else wrote in between

  predicate TookEffect(fault: Fault) {
    fault.NoFault? || fault.LostReply?
  }

  datatype OperationResult = Unchanged | Created | Updated

  datatype Attempted = Attempted(store: Store, result: OperationResult, err: Option<Error>)

  /** Writes a value unless it is there already. */
  function Put(store: Store, key: Key, value: Stored, fault: Fault): Attempted
    requires KindOf(value) == key.kind
  {
    if fault.Refused? then
      Attempted(store, Unchanged, Some(ApiFailed))
    else if key in store && store[key] == value then
      Attempted(store, Unchanged, None)
    else
      match fault
      case NoFault => Attempted(store[key := value], if key in store then Updated else Created, None)
      case LostReply => Attempted(store[key := value], Unchanged, Some(ApiFailed))
      case _ => Attempted(store, Unchanged, Some(if key in store then Modified else ApiFailed))
  }

  /** The stored ConfigMap holds data that its name does not stand for, so mutating would rename it. */
  predicate Blocked(pf: Platform, atomName: string, step: Step, store: Store) {
    step.EnsureConfigMap? &&
    var key := KeyOf(pf, atomName, step);
    key in store &&
    store[key].configMap.data != map[] &&
    AddHashSuffix(pf, key.name, store[key].configMap.data) != key.name
  }

  /** One create-or-update. */
  function Attempt(pf: Platform, atom: Atom, step: Step, fault: Fault, store: Store): Attempted
    requires Runnable(atom, step)
  {
    var name := atom.meta.name;
    if !fault.Refused? && Blocked(pf, name, step, store) then
      Attempted(store, Unchanged, Some(KeyChanged))
    else
      Put(store, KeyOf(pf, name, step), MutatedBy(pf, atom, step, Current(pf, name, step, store)), fault)
  }

  /** Only a Deployment that somebody else modified does not stop the series. */
  predicate Tolerated(step: Step, error: Error) {
    step.EnsureDeployment? && error == Modified
  }

  predicate GoesOn(step: Step, attempted: Attempted) {
    attempted.err.None? || Tolerated(step, attempted.err.value)
  }

  // ----- The series

  type Results = map<Key, OperationResult>

  datatype Outcome = Outcome(store: Store, results: Results, err: Option<Error>)

  function First(faults: seq<Fault>): Fault {
    if faults == [] then NoFault else faults[0]
  }

  function Rest(faults: seq<Fault>): seq<Fault> {
    if faults == [] then [] else faults[1..]
  }

  /** Runs the steps one by one until one fails; the i-th request meets the i-th fault, later ones none. */
  function Run(pf: Platform, atom: Atom, steps: seq<Step>, faults: seq<Fault>, store: Store, results: Results): Outcome
    requires AllRunnable(atom, steps)
  {
    if steps == [] then
      Outcome(store, results, None)
    else
      var attempted := Attempt(pf, atom, steps[0], First(faults), store);
      var results' := results[ResultKey(pf, atom.meta.name, steps[0]) := attempted.result];
      if attempted.err.Some? && !Tolerated(steps[0], attempted.err.value) then
        Outcome(attempted.store, results', attempted.err)
      else
        Run(pf, atom, steps[1..], Rest(faults), attempted.store, results')
  }

  function WorkloadSteps(configMapName: string): seq<Step> {
    [EnsureDeployment(configMapName), EnsureService, EnsureStripPrefix, EnsureHeaders]
  }

  function CoreSteps(pf: Platform, atom: Atom, text: string): seq<Step> {
    [EnsureConfigMap(text)] + WorkloadSteps(ConfigName(pf, atom.meta.name, text))
  }

  /** The order visits every group once. */
  ghost predicate IsOrder(atom: Atom, order: seq<string>) {
    AllSliceable(DownloadLinks(atom)) ==>
      NoDuplicates(order) && forall p :: p in order <==> p in GroupOrder(DownloadLinks(atom))
  }

  function DownloadStep(atom: Atom, prefix: string): Step
    requires AllSliceable(DownloadLinks(atom)) && prefix in GroupOrder(DownloadLinks(atom))
  {
    var links := DownloadLinks(atom);
    EnsureDownload(IndexOf(GroupOrder(links), prefix), prefix, FilesWith(links, prefix))
  }

  function DownloadSteps(atom: Atom, order: seq<string>): seq<Step>
    requires AllSliceable(DownloadLinks(atom))
    requires forall p :: p in order ==> p in GroupOrder(DownloadLinks(atom))
  {
    seq(|order|, k requires 0 <= k < |order| => DownloadStep(atom, order[k]))
  }

  const FINAL_STEPS := [EnsureIngressRoute, EnsureBudget]

  /** The steps to take, and the error or panic that follows them, if any. */
  datatype Plan = Plan(steps: seq<Step>, ending: Option<Error>)

  ghost function PlanFor(pf: Platform, atom: Atom, owner: OwnerInfo, order: seq<string>): (plan: Plan)
    requires IsOrder(atom, order)
    ensures AllRunnable(atom, plan.steps)
  {
    match GeneratorText(pf, atom, owner)
    case Err(error) => Plan([], Some(error))
    case Ok(text) =>
      CoreRunnable(pf, atom, text);
      Plan(CoreSteps(pf, atom, text) + LaterSteps(atom, order),
           if AllSliceable(DownloadLinks(atom)) then None else Some(SliceOutOfRange))
  }

  /** What follows the core steps: nothing when the links cannot be grouped. */
  ghost function LaterSteps(atom: Atom, order: seq<string>): seq<Step>
    requires IsOrder(atom, order)
  {
    if AllSliceable(DownloadLinks(atom)) then DownloadSteps(atom, order) + FINAL_STEPS else []
  }

  predicate AllRunnable(atom: Atom, steps: seq<Step>) {
    forall k :: 0 <= k < |steps| ==> Runnable(atom, steps[k])
  }

  lemma CoreRunnable(pf: Platform, atom: Atom, text: string)
    ensures AllRunnable(atom, CoreSteps(pf, atom, text))
    ensures AllSliceable(DownloadLinks(atom)) ==> forall steps :: AllRunnable(atom, steps)
  {
  }

  ghost function AllForAtom(
    pf: Platform, atom: Atom, owner: OwnerInfo, order: seq<string>, faults: seq<Fault>, store: Store): Outcome
    requires IsOrder(atom, order)
  {
    var plan := PlanFor(pf, atom, owner, order);
    var outcome := Run(pf, atom, plan.steps, faults, store, map[]);
    if outcome.err.None? then outcome.(err := plan.ending) else outcome
  }

  // ----- The operator at work

  /** What is left to do leads to the given outcome. */
  ghost predicate LeadsTo(
    total: Outcome, pf: Platform, atom: Atom, todo: seq<Step>, pending: seq<Fault>, store: Store, results: Results)
  {
    AllRunnable(atom, todo) && total == Run(pf, atom, todo, pending, store, results)
  }

  /** One attempt either ends the series in that outcome or leaves less to do. */
  lemma Advance(
    total: Outcome, pf: Platform, atom: Atom, todo: seq<Step>, pending: seq<Fault>, store: Store, results: Results,
    step: Step, rest: seq<Step>, attempted: Attempted)
    requires LeadsTo(total, pf, atom, todo, pending, store, results)
    requires todo == [step] + rest && attempted == Attempt(pf, atom, step, First(pending), store)
    ensures var results' := results[ResultKey(pf, atom.meta.name, step) := attempted.result];
            if attempted.err.Some? && !Tolerated(step, attempted.err.value) then
              total == Outcome(attempted.store, results', attempted.err)
            else
              LeadsTo(total, pf, atom, rest, Rest(pending), attempted.store, results')
  {
    assert todo[1..] == rest;
  }

  /** The ConfigMap comes first in the plan, and the rest follows unless that fails. */
  lemma FirstStep(
    pf: Platform, atom: Atom, owner: OwnerInfo, order: seq<string>, faults: seq<Fault>, store: Store, name: string,
    attempted: Attempted)
    requires IsOrder(atom, order) && GeneratorText(pf, atom, owner).Ok?
    requires var text := GeneratorText(pf, atom, owner).value;
             name == ConfigName(pf, atom.meta.name, text) &&
             attempted == Attempt(pf, atom, EnsureConfigMap(text), First(faults), store)
    ensures var total := Run(pf, atom, PlanFor(pf, atom, owner, order).steps, faults, store, map[]);
            var results := map[Key(AtomKind, atom.meta.name) := attempted.result];
            if attempted.err.Some? then total == Outcome(attempted.store, results, attempted.err)
            else LeadsTo(total, pf, atom, WorkloadSteps(name) + LaterSteps(atom, order), Rest(faults), attempted.store, results)
  {
    var text, steps := GeneratorText(pf, atom, owner).value, PlanFor(pf, atom, owner, order).steps;
    PlanStarts(pf, atom, owner, order, text);
    FirstAdvance(pf, atom, steps, EnsureConfigMap(text), WorkloadSteps(name) + LaterSteps(atom, order), faults, store, attempted);
  }

  lemma PlanStarts(pf: Platform, atom: Atom, owner: OwnerInfo, order: seq<string>, text: string)
    requires IsOrder(atom, order) && GeneratorText(pf, atom, owner) == Ok(text)
    ensures PlanFor(pf, atom, owner, order).steps
            == [EnsureConfigMap(text)] + (WorkloadSteps(ConfigName(pf, atom.meta.name, text)) + LaterSteps(atom, order))
  {
  }

  lemma FirstAdvance(
    pf: Platform, atom: Atom, steps: seq<Step>, step: Step, rest: seq<Step>, faults: seq<Fault>, store: Store,
    attempted: Attempted)
    requires AllRunnable(atom, steps) && steps == [step] + rest && step.EnsureConfigMap?
    requires attempted == Attempt(pf, atom, step, First(faults), store)
    ensures var total := Run(pf, atom, steps, faults, store, map[]);
            var results := map[Key(AtomKind, atom.meta.name) := attempted.result];
            if attempted.err.Some? then total == Outcome(attempted.store, results, attempted.err)
            else LeadsTo(total, pf, atom, rest, Rest(faults), attempted.store, results)
  {
    var total := Run(pf, atom, steps, faults, store, map[]);
    Advance(total, pf, atom, steps, faults, store, map[], step, rest, attempted);
  }

  /** Mutating the bare ConfigMap, before anything is looked up, gives it its final name and data. */
  lemma FirstMutation(pf: Platform, atom: Atom, owner: OwnerInfo, text: string)
    requires HashLaws(pf) && GeneratorText(pf, atom, owner) == Ok(text)
    ensures ConfigMapFor(pf, atom, owner, NamedConfigMap(GeneratorName(atom.meta.name), BARE_CONFIG_MAP))
            == Ok(NamedConfigMap(
                 ConfigName(pf, atom.meta.name, text),
                 MutatedBy(pf, atom, EnsureConfigMap(text), Bare(ConfigMapKind)).configMap))
    ensures var mutated := MutatedBy(pf, atom, EnsureConfigMap(text), Bare(ConfigMapKind));
            MutatedBy(pf, atom, EnsureConfigMap(text), mutated) == mutated
  {
    HashSuffixLaws(pf, atom.meta.name, text, ConfigData(text));
    ObjectLabelsStable(atom, map[]);
  }

  /** Mutating what is found under that name keeps the name unless the step is blocked. */
  lemma MutatedAgain(pf: Platform, atom: Atom, owner: OwnerInfo, text: string, stored: ConfigMap)
    requires HashLaws(pf) && GeneratorText(pf, atom, owner) == Ok(text)
    ensures var name, mutated := ConfigName(pf, atom.meta.name, text),
              MutatedBy(pf, atom, EnsureConfigMap(text), AConfigMap(stored)).configMap;
            && ConfigMapFor(pf, atom, owner, NamedConfigMap(name, stored))
               == Ok(NamedConfigMap(AddHashSuffix(pf, name, mutated.data), mutated))
            && (AddHashSuffix(pf, name, mutated.data) == name <==> mutated.data == ConfigData(text))
  {
    var mutated := MutatedBy(pf, atom, EnsureConfigMap(text), AConfigMap(stored)).configMap;
    HashSuffixLaws(pf, atom.meta.name, text, mutated.data);
  }

  /** The attempt, told from the object that is mutated: the stored one, or else the initial one. */
  lemma ConfigMapAttempt(pf: Platform, atom: Atom, text: string, fault: Fault, store: Store, from: ConfigMap)
    requires HashLaws(pf) && !fault.Refused?
    requires var step := EnsureConfigMap(text);
             var key := Key(ConfigMapKind, ConfigName(pf, atom.meta.name, text));
             AConfigMap(from) == if key in store then store[key] else MutatedBy(pf, atom, step, Bare(ConfigMapKind))
    requires var initial := MutatedBy(pf, atom, EnsureConfigMap(text), Bare(ConfigMapKind));
             MutatedBy(pf, atom, EnsureConfigMap(text), initial) == initial
    ensures var name, mutated := ConfigName(pf, atom.meta.name, text), MutatedBy(pf, atom, EnsureConfigMap(text), AConfigMap(from));
            Attempt(pf, atom, EnsureConfigMap(text), fault, store) ==
              if AddHashSuffix(pf, name, mutated.configMap.data) != name then Attempted(store, Unchanged, Some(KeyChanged))
              else Put(store, Key(ConfigMapKind, name), mutated, fault)
  {
    HashSuffixLaws(pf, atom.meta.name, text, ConfigData(text));
  }

  /** A step other than that of the ConfigMap is never blocked. */
  lemma AttemptIsPut(pf: Platform, atom: Atom, step: Step, fault: Fault, store: Store, current: Stored, mutated: Stored)
    requires Runnable(atom, step) && !step.EnsureConfigMap?
    requires current == Current(pf, atom.meta.name, step, store)
    requires mutated == MutatedBy(pf, atom, step, current)
    ensures Attempt(pf, atom, step, fault, store) == Put(store, KeyOf(pf, atom.meta.name, step), mutated, fault)
  {
  }

  lemma MutatedIngressRoute(pf: Platform, atom: Atom, stored: IngressRoute)
    requires AllSliceable(DownloadLinks(atom))
    ensures MutatedBy(pf, atom, EnsureIngressRoute, AnIngressRoute(stored))
            == AnIngressRoute(IngressRouteFor(atom, pf.uptime, stored))
  {
  }

  class Cluster {
    var atoms: map<string, Atom>
    var owners: Owners
    var objects: Store

    constructor (atoms: map<string, Atom>, owners: Owners, objects: Store)
      ensures this.atoms == atoms && this.owners == owners && this.objects == objects
    {
      this.atoms, this.owners, this.objects := atoms, owners, objects;
    }

    /** The second half of controllerutil.CreateOrUpdate. */
    method Write(key: Key, value: Stored, fault: Fault) returns (result: OperationResult, err: Option<Error>)
      requires KindOf(value) == key.kind
      modifies this`objects
      ensures Attempted(objects, result, err) == Put(old(objects), key, value, fault)
    {
      if fault.Refused? {
        return Unchanged, Some(ApiFailed);
      }
      if key in objects && objects[key] == value {
        return Unchanged, None;
      }
      var found := key in objects;
      if fault.Conflict? {
        return Unchanged, Some(if found then Modified else ApiFailed);
      }
      objects := objects[key := value];
      if fault.LostReply? {
        return Unchanged, Some(ApiFailed);
      }
      return if found then Updated else Created, None;
    }

    method CreateOrUpdateConfigMap(pf: Platform, atom: Atom, owner: OwnerInfo, fault: Fault)
      returns (name: string, result: OperationResult, err: Option<Error>)
      requires HashLaws(pf)
      modifies this`objects
      ensures match GeneratorText(pf, atom, owner)
              case Err(error) => objects == old(objects) && err == Some(error)
              case Ok(text) =>
                && name == ConfigName(pf, atom.meta.name, text)
                && Attempted(objects, result, err) == Attempt(pf, atom, EnsureConfigMap(text), fault, old(objects))
    {
      var configMap := new ConfigMapObject(GeneratorName(atom.meta.name), BARE_CONFIG_MAP);
      err := MutateAtomGeneratorConfigMap(pf, atom, owner, configMap);
      name, result := configMap.name, Unchanged;
      if err.Some? {
        return;
      }
      ghost var text := GeneratorText(pf, atom, owner).value;
      FirstMutation(pf, atom, owner, text);
      result, err := CreateOrUpdateNamed(pf, atom, owner, configMap.Value(), name, text, fault);
    }

    /** The lookup under the suffixed name, the second mutation and the write. */
    method CreateOrUpdateNamed(
      pf: Platform, atom: Atom, owner: OwnerInfo, initial: ConfigMap, name: string, ghost text: string, fault: Fault)
      returns (result: OperationResult, err: Option<Error>)
      requires HashLaws(pf) && GeneratorText(pf, atom, owner) == Ok(text) && name == ConfigName(pf, atom.meta.name, text)
      requires var mutated := MutatedBy(pf, atom, EnsureConfigMap(text), Bare(ConfigMapKind));
               initial == mutated.configMap && MutatedBy(pf, atom, EnsureConfigMap(text), mutated) == mutated
      modifies this`objects
      ensures Attempted(objects, result, err) == Attempt(pf, atom, EnsureConfigMap(text), fault, old(objects))
    {
      if fault.Refused? {
        return Unchanged, Some(ApiFailed);
      }
      var key := Key(ConfigMapKind, name);
      var configMap := new ConfigMapObject(name, if key in objects then objects[key].configMap else initial);
      MutatedAgain(pf, atom, owner, text, configMap.Value());
      ConfigMapAttempt(pf, atom, text, fault, objects, configMap.Value());
      err := MutateAtomGeneratorConfigMap(pf, atom, owner, configMap);
      if configMap.name != name {
        return Unchanged, Some(KeyChanged);
      }
      result, err := Write(key, AConfigMap(configMap.Value()), fault);
    }

    method CreateOrUpdateDeployment(pf: Platform, atom: Atom, configMapName: string, fault: Fault)
      returns (result: OperationResult, err: Option<Error>)
      modifies this`objects
      ensures Attempted(objects, result, err) == Attempt(pf, atom, EnsureDeployment(configMapName), fault, old(objects))
    {
      var key := Key(DeploymentKind, WorkloadName(atom.meta.name));
      var deployment := new DeploymentObject(if key in objects then objects[key].deployment else BARE_DEPLOYMENT);
      MutateDeployment(pf, atom, deployment, configMapName);
      result, err := Write(key, ADeployment(deployment.Value()), fault);
    }

    method CreateOrUpdateService(pf: Platform, atom: Atom, fault: Fault) returns (result: OperationResult, err: Option<Error>)
      modifies this`objects
      ensures Attempted(objects, result, err) == Attempt(pf, atom, EnsureService, fault, old(objects))
    {
      var key := Key(ServiceKind, ServiceName(atom.meta.name));
      var service := new ServiceObject(if key in objects then objects[key].service else BARE_SERVICE);
      MutateService(atom, service);
      result, err := Write(key, AService(service.Value()), fault);
    }

    method CreateOrUpdateStripPrefix(pf: Platform, atom: Atom, fault: Fault) returns (result: OperationResult, err: Option<Error>)
      modifies this`objects
      ensures Attempted(objects, result, err) == Attempt(pf, atom, EnsureStripPrefix, fault, old(objects))
    {
      var key := Key(MiddlewareKind, StripPrefixName(atom.meta.name));
      var middleware := new MiddlewareObject(if key in objects then objects[key].middleware else BARE_MIDDLEWARE);
      MutateStripPrefixMiddleware(atom, middleware);
      result, err := Write(key, AMiddleware(middleware.Value()), fault);
    }

    method CreateOrUpdateHeaders(pf: Platform, atom: Atom, fault: Fault) returns (result: OperationResult, err: Option<Error>)
      modifies this`objects
      ensures Attempted(objects, result, err) == Attempt(pf, atom, EnsureHeaders, fault, old(objects))
    {
      var key := Key(MiddlewareKind, HeadersName(atom.meta.name));
      var middleware := new MiddlewareObject(if key in objects then objects[key].middleware else BARE_MIDDLEWARE);
      MutateHeadersMiddleware(atom, middleware, pf.csp);
      result, err := Write(key, AMiddleware(middleware.Value()), fault);
    }

    method CreateOrUpdateDownload(pf: Platform, atom: Atom, index: nat, prefix: string, files: seq<string>, fault: Fault)
      returns (result: OperationResult, err: Option<Error>)
      modifies this`objects
      ensures Attempted(objects, result, err) == Attempt(pf, atom, EnsureDownload(index, prefix, files), fault, old(objects))
    {
      var key := Key(MiddlewareKind, DownloadName(atom.meta.name, index));
      var middleware := new MiddlewareObject(if key in objects then objects[key].middleware else BARE_MIDDLEWARE);
      MutateDownloadLinkMiddleware(atom, prefix, files, middleware);
      result, err := Write(key, AMiddleware(middleware.Value()), fault);
    }

    method CreateOrUpdateIngressRoute(pf: Platform, atom: Atom, fault: Fault) returns (result: OperationResult, err: Option<Error>)
      requires AllSliceable(DownloadLinks(atom))
      modifies this`objects
      ensures Attempted(objects, result, err) == Attempt(pf, atom, EnsureIngressRoute, fault, old(objects))
    {
      var key := Key(IngressRouteKind, IngressRouteName(atom.meta.name));
      ghost var current := Current(pf, atom.meta.name, EnsureIngressRoute, objects);
      var ingressRoute := new IngressRouteObject(if key in objects then objects[key].ingressRoute else BARE_INGRESS_ROUTE);
      assert current == AnIngressRoute(ingressRoute.Value());
      MutatedIngressRoute(pf, atom, ingressRoute.Value());
      var panic := MutateIngressRoute(atom, ingressRoute, pf.uptime);
      assert panic.None?;
      AttemptIsPut(pf, atom, EnsureIngressRoute, fault, objects, current, AnIngressRoute(ingressRoute.Value()));
      result, err := Write(key, AnIngressRoute(ingressRoute.Value()), fault);
    }

    method CreateOrUpdateBudget(pf: Platform, atom: Atom, fault: Fault) returns (result: OperationResult, err: Option<Error>)
      modifies this`objects
      ensures Attempted(objects, result, err) == Attempt(pf, atom, EnsureBudget, fault, old(objects))
    {
      var key := Key(BudgetKind, WorkloadName(atom.meta.name));
      var budget := new DisruptionBudgetObject(if key in objects then objects[key].budget else BARE_DISRUPTION_BUDGET);
      MutateDisruptionBudget(atom, budget);
      result, err := Write(key, ABudget(budget.Value()), fault);
    }

    /** Creates or updates the object of any step but the ConfigMap's. */
    method CreateOrUpdate(pf: Platform, atom: Atom, step: Step, fault: Fault) returns (result: OperationResult, err: Option<Error>)
      requires Runnable(atom, step) && !step.EnsureConfigMap?
      modifies this`objects
      ensures Attempted(objects, result, err) == Attempt(pf, atom, step, fault, old(objects))
    {
      match step {
        case EnsureDeployment(configMapName) => result, err := CreateOrUpdateDeployment(pf, atom, configMapName, fault);
        case EnsureService => result, err := CreateOrUpdateService(pf, atom, fault);
        case EnsureStripPrefix => result, err := CreateOrUpdateStripPrefix(pf, atom, fault);
        case EnsureHeaders => result, err := CreateOrUpdateHeaders(pf, atom, fault);
        case EnsureDownload(index, prefix, files) => result, err := CreateOrUpdateDownload(pf, atom, index, prefix, files, fault);
        case EnsureIngressRoute => result, err := CreateOrUpdateIngressRoute(pf, atom, fault);
        case EnsureBudget => result, err := CreateOrUpdateBudget(pf, atom, fault);
      }
    }

    /** Takes the next step, records its result, and says with which error the series stops, if it does. */
    method Next(
      pf: Platform, atom: Atom, step: Step, ghost total: Outcome, ghost rest: seq<Step>, before: Results, faults: seq<Fault>)
      returns (results: Results, stop: Option<Error>, pending: seq<Fault>)
      requires !step.EnsureConfigMap? && LeadsTo(total, pf, atom, [step] + rest, faults, objects, before)
      modifies this`objects
      ensures if stop.Some? then total == Outcome(objects, results, stop)
              else LeadsTo(total, pf, atom, rest, pending, objects, results)
    {
      assert ([step] + rest)[0] == step;
      ghost var store := objects;
      var result, err := CreateOrUpdate(pf, atom, step, First(faults));
      Advance(total, pf, atom, [step] + rest, faults, store, before, step, rest, Attempted(objects, result, err));
      results, pending := before[ResultKey(pf, atom.meta.name, step) := result], Rest(faults);
      stop := if err.Some? && Tolerated(step, err.value) then None else err;
    }

    /** Deployment, Service and the two fixed middlewares. */
    method EnsureWorkload(
      pf: Platform, atom: Atom, configMapName: string, ghost total: Outcome, ghost rest: seq<Step>,
      before: Results, faults: seq<Fault>)
      returns (results: Results, stop: Option<Error>, pending: seq<Fault>)
      requires LeadsTo(total, pf, atom, WorkloadSteps(configMapName) + rest, faults, objects, before)
      modifies this`objects
      ensures if stop.Some? then total == Outcome(objects, results, stop)
              else LeadsTo(total, pf, atom, rest, pending, objects, results)
    {
      ghost var last := [EnsureHeaders] + rest;
      ghost var last2 := [EnsureStripPrefix] + last;
      ghost var last3 := [EnsureService] + last2;
      assert WorkloadSteps(configMapName) + rest == [EnsureDeployment(configMapName)] + last3;
      results, stop, pending := Next(pf, atom, EnsureDeployment(configMapName), total, last3, before, faults);
      if stop.Some? {
        return;
      }
      results, stop, pending := Next(pf, atom, EnsureService, total, last2, results, pending);
      if stop.Some? {
        return;
      }
      results, stop, pending := Next(pf, atom, EnsureStripPrefix, total, last, results, pending);
      if stop.Some? {
        return;
      }
      results, stop, pending := Next(pf, atom, EnsureHeaders, total, rest, results, pending);
    }

    /** One middleware per group, in the order in which the map yields them. */
    method EnsureDownloads(
      pf: Platform, atom: Atom, groups: map<string, LinkGroup>, order: seq<string>, ghost total: Outcome,
      before: Results, faults: seq<Fault>)
      returns (results: Results, stop: Option<Error>, pending: seq<Fault>)
      requires AllSliceable(DownloadLinks(atom)) && groups == GroupsOf(DownloadLinks(atom)) && IsOrder(atom, order)
      requires LeadsTo(total, pf, atom, DownloadSteps(atom, order) + FINAL_STEPS, faults, objects, before)
      modifies this`objects
      ensures if stop.Some? then total == Outcome(objects, results, stop)
              else LeadsTo(total, pf, atom, FINAL_STEPS, pending, objects, results)
    {
      results, stop, pending := before, None, faults;
      ghost var all := DownloadSteps(atom, order) + FINAL_STEPS;
      for k := 0 to |order|
        invariant LeadsTo(total, pf, atom, all[k..], pending, objects, results)
        invariant stop.None?
      {
        var group := groups[order[k]];
        var step := EnsureDownload(group.index.value, order[k], group.files);
        assert all[k..] == [step] + all[k + 1..];
        results, stop, pending := Next(pf, atom, step, total, all[k + 1..], results, pending);
        if stop.Some? {
          return;
        }
      }
      assert all[|order|..] == FINAL_STEPS;
    }

    /** The IngressRoute and the disruption budget. */
    method EnsureFinal(pf: Platform, atom: Atom, ghost total: Outcome, before: Results, faults: seq<Fault>)
      returns (results: Results, stop: Option<Error>)
      requires AllSliceable(DownloadLinks(atom))
      requires LeadsTo(total, pf, atom, FINAL_STEPS, faults, objects, before)
      modifies this`objects
      ensures total == Outcome(objects, results, stop)
    {
      var pending;
      assert FINAL_STEPS == [EnsureIngressRoute] + [EnsureBudget];
      results, stop, pending := Next(pf, atom, EnsureIngressRoute, total, [EnsureBudget], before, faults);
      if stop.Some? {
        return;
      }
      assert [EnsureBudget] == [EnsureBudget] + [];
      results, stop, pending := Next(pf, atom, EnsureBudget, total, [], results, pending);
    }

    /** `order` is the order in which the group map yields its keys, `faults` what befalls the requests. */
    method CreateOrUpdateAllForAtom(pf: Platform, atom: Atom, owner: OwnerInfo, order: seq<string>, faults: seq<Fault>)
      returns (results: Results, err: Option<Error>)
      requires HashLaws(pf) && IsOrder(atom, order)
      modifies this`objects
      ensures Outcome(objects, results, err) == AllForAtom(pf, atom, owner, order, faults, old(objects))
    {
      results := map[];
      var name, result;
      name, result, err := CreateOrUpdateConfigMap(pf, atom, owner, First(faults));
      if GeneratorText(pf, atom, owner).Err? {
        return;
      }
      ghost var total := Run(pf, atom, PlanFor(pf, atom, owner, order).steps, faults, old(objects), map[]);
      FirstStep(pf, atom, owner, order, faults, old(objects), name, Attempted(objects, result, err));
      results := map[Key(AtomKind, atom.meta.name) := result];
      if err.Some? {
        return;
      }
      results, err := EnsureRest(pf, atom, name, order, total, results, Rest(faults));
    }

    /** Everything after the ConfigMap. Grouping the links panics when one of them has no slash. */
    method EnsureRest(
      pf: Platform, atom: Atom, configMapName: string, order: seq<string>, ghost total: Outcome,
      before: Results, faults: seq<Fault>)
      returns (results: Results, err: Option<Error>)
      requires IsOrder(atom, order)
      requires LeadsTo(total, pf, atom, WorkloadSteps(configMapName) + LaterSteps(atom, order), faults, objects, before)
      modifies this`objects
      ensures Outcome(objects, results, err) ==
                if total.err.None? && !AllSliceable(DownloadLinks(atom)) then total.(err := Some(SliceOutOfRange)) else total
    {
      var pending;
      results, err, pending := EnsureWorkload(pf, atom, configMapName, total, LaterSteps(atom, order), before, faults);
      if err.Some? {
        return;
      }
      var links := GetDownloadLinks(atom);
      var grouping := GetDownloadLinkGroups(links);
      if grouping.Err? {
        return results, Some(grouping.error);
      }
      results, err, pending := EnsureDownloads(pf, atom, grouping.value, order, total, results, pending);
      if err.Some? {
        return;
      }
      results, err := EnsureFinal(pf, atom, total, results, pending);
    }

    /** Nothing is done without an atom and its owner info; an expired atom is deleted; else all is ensured. */
    method Reconcile(pf: Platform, name: string, now: int, order: seq<string>, faults: seq<Fault>) returns (err: Option<Error>)
      requires HashLaws(pf) && (name in atoms ==> IsOrder(atoms[name], order))
      modifies this
      ensures owners == old(owners)
      ensures !Reconcilable(old(atoms), old(owners), name) ==> atoms == old(atoms) && objects == old(objects) && err.None?
      ensures Reconcilable(old(atoms), old(owners), name) && TTLExpired(old(atoms)[name], now) ==>
                && objects == old(objects)
                && atoms == (if TookEffect(First(faults)) then old(atoms) - {name} else old(atoms))
                && (err.None? <==> First(faults).NoFault?)
      ensures Reconcilable(old(atoms), old(owners), name) && !TTLExpired(old(atoms)[name], now) ==>
                var atom := old(atoms)[name];
                var outcome := AllForAtom(pf, atom, old(owners)[atom.spec.service.ownerInfoRef], order, faults, old(objects));
                atoms == old(atoms) && objects == outcome.store && err == outcome.err
    {
      if name !in atoms {
        return None;
      }
      var atom := atoms[name];
      if atom.spec.service.ownerInfoRef !in owners {
        return None;
      }
      var owner := owners[atom.spec.service.ownerInfoRef];
      if TTLExpired(atom, now) {
        err := Delete(name, First(faults));
        return;
      }
      var results;
      results, err := CreateOrUpdateAllForAtom(pf, atom, owner, order, faults);
    }

    method Delete(name: string, fault: Fault) returns (err: Option<Error>)
      modifies this`atoms
      ensures atoms == (if TookEffect(fault) then old(atoms) - {name} else old(atoms))
      ensures err.None? <==> fault.NoFault?
    {
      if TookEffect(fault) {
        atoms := atoms - {name};
      }
      return if fault.NoFault? then None else Some(ApiFailed);
    }
  }

  /** The atom and the owner info it refers to are both there. */
  predicate Reconcilable(atoms: map<string, Atom>, owners: Owners, name: string) {
    name in atoms && atoms[name].spec.service.ownerInfoRef in owners
  }
}
