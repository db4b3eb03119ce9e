/** The Deployment, Service, disruption budget and generator ConfigMap of an atom. */
module Workloads {
  import opened Wrappers
  import opened Strings
  import opened AtomTypes
  import opened KubeObjects
  import opened Platforms
  import opened Mapper

  // ----- Deployment

  const POD_ANNOTATIONS: Labels := map[
    "cluster-autoscaler.kubernetes.io/safe-to-evict" := "true",
    "kubectl.kubernetes.io/default-container" := "atom-service",
    "priority.version-checker.io/atom-service" := "8"]

  function DeploymentFor(pf: Platform, atom: Atom, configMapName: string, stored: Deployment): Deployment {
    Deployment(
      ObjectLabels(atom, stored.labels), LabelSelector(atom), 0, 2, 1,
      PodTemplate(
        ObjectLabels(atom, stored.template.labels), stored.template.annotations + POD_ANNOTATIONS, configMapName,
        pf.generatorImage, pf.serviceImage))
  }

  method MutateDeployment(pf: Platform, atom: Atom, deployment: DeploymentObject, configMapName: string)
    modifies deployment
    ensures deployment.Value() == DeploymentFor(pf, atom, configMapName, old(deployment.Value()))
  {
    deployment.labels := ObjectLabels(atom, deployment.labels);
    var annotations := deployment.template.annotations;
    annotations := annotations["cluster-autoscaler.kubernetes.io/safe-to-evict" := "true"];
    annotations := annotations["kubectl.kubernetes.io/default-container" := "atom-service"];
    annotations := annotations["priority.version-checker.io/atom-service" := "8"];
    assert annotations == deployment.template.annotations + POD_ANNOTATIONS;
    deployment.selector := LabelSelector(atom);
    deployment.minReadySeconds := 0;
    deployment.revisionHistoryLimit := 1;
    deployment.replicas := 2;
    deployment.template := PodTemplate(
      ObjectLabels(atom, deployment.template.labels), annotations, configMapName, pf.generatorImage, pf.serviceImage);
  }

  // ----- Service and disruption budget

  const SERVICE_PORTS := [ServicePort("atom-service", ATOM_PORT, "TCP")]

  function ServiceFor(atom: Atom, stored: KubeService): KubeService {
    KubeService(ObjectLabels(atom, stored.labels), LabelSelector(atom), SERVICE_PORTS)
  }

  method MutateService(atom: Atom, service: ServiceObject)
    modifies service
    ensures service.Value() == ServiceFor(atom, old(service.Value()))
  {
    service.labels := ObjectLabels(atom, service.labels);
    service.ports := SERVICE_PORTS;
    service.selector := LabelSelector(atom);
  }

  function BudgetFor(atom: Atom, stored: DisruptionBudget): DisruptionBudget {
    DisruptionBudget(ObjectLabels(atom, stored.labels), LabelSelector(atom), 1)
  }

  method MutateDisruptionBudget(atom: Atom, budget: DisruptionBudgetObject)
    modifies budget
    ensures budget.Value() == BudgetFor(atom, old(budget.Value()))
  {
    budget.labels := ObjectLabels(atom, budget.labels);
    budget.maxUnavailable := 1;
    budget.selector := LabelSelector(atom);
  }

  /** What a selector selects: pods that carry all its labels. */
  ghost predicate Selects(selector: Labels, labels: Labels) {
    forall k :: k in selector ==> k in labels && labels[k] == selector[k]
  }

  /**
   * Whatever labels the stored objects carry, the Deployment, the Service and the budget select by the same
   * labels, and these select the Deployment's own pods.
   */
  lemma SelectorsAgree(pf: Platform, atom: Atom, configMapName: string, d: Deployment, s: KubeService, b: DisruptionBudget)
    ensures var deployment := DeploymentFor(pf, atom, configMapName, d);
            && Selects(deployment.selector, deployment.template.labels)
            && deployment.selector == ServiceFor(atom, s).selector == BudgetFor(atom, b).selector
  {
    ObjectLabelsStable(atom, d.template.labels);
  }

  // ----- Generator ConfigMap

  const CONFIG_FILE_NAME := "values.yaml"

  function ConfigData(text: string): map<string, string> {
    map[CONFIG_FILE_NAME := text]
  }

  predicate EndsWith(s: string, suffix: string) {
    |suffix| <= |s| && s[|s| - |suffix|..] == suffix
  }

  /** A name that does not yet end in the hash of the data gets it as a suffix. */
  function AddHashSuffix(pf: Platform, name: string, data: map<string, string>): string {
    var suffix := "-" + pf.hash(data);
    if EndsWith(name, suffix) then name else name + suffix
  }

  /** The hash has no collisions, holds no dash, and is not the last word of the unsuffixed names. */
  ghost predicate HashLaws(pf: Platform) {
    && (forall a, b :: pf.hash(a) == pf.hash(b) ==> a == b)
    && (forall d :: '-' !in pf.hash(d) && pf.hash(d) != "generator")
  }

  /** The name under which a configuration text is stored. */
  function ConfigName(pf: Platform, atomName: string, text: string): string {
    GeneratorName(atomName) + "-" + pf.hash(ConfigData(text))
  }

  lemma LastWordUnique(a: string, b: string, h: string)
    requires '-' !in h && '-' !in b && EndsWith(a + "-" + b, "-" + h)
    ensures b == h
  {
    var s := a + "-" + b;
    var rest := s[..|s| - |"-" + h|];
    assert s == rest + ("-" + h);
    assert s == a + ['-'] + b && s == rest + ['-'] + h;
    LastCutUnique(a, b, rest, h, '-');
  }

  /** The suffix is added to the bare name once and for all, and names the data. */
  lemma HashSuffixLaws(pf: Platform, atomName: string, text: string, data: map<string, string>)
    requires HashLaws(pf)
    ensures AddHashSuffix(pf, GeneratorName(atomName), data) == GeneratorName(atomName) + "-" + pf.hash(data)
    ensures AddHashSuffix(pf, ConfigName(pf, atomName, text), data) == ConfigName(pf, atomName, text) <==> data == ConfigData(text)
  {
    var h, bare := pf.hash(data), GeneratorName(atomName);
    if EndsWith(bare, "-" + h) {
      assert bare == atomName + "-atom" + "-" + "generator";
      LastWordUnique(atomName + "-atom", "generator", h);
    }
    assert bare + ("-" + h) == bare + "-" + h;
    var name, own := ConfigName(pf, atomName, text), pf.hash(ConfigData(text));
    if EndsWith(name, "-" + h) {
      LastWordUnique(bare, own, h);
    }
    assert name == bare + ("-" + own);
  }

  lemma ConfigNameInjective(pf: Platform, atomName: string, a: string, b: string)
    requires HashLaws(pf) && ConfigName(pf, atomName, a) == ConfigName(pf, atomName, b)
    ensures a == b
  {
    CancelPrefix(GeneratorName(atomName) + "-", pf.hash(ConfigData(a)), pf.hash(ConfigData(b)));
    assert ConfigData(a)[CONFIG_FILE_NAME] == ConfigData(b)[CONFIG_FILE_NAME];
  }

  function GeneratorText(pf: Platform, atom: Atom, owner: OwnerInfo): Result<string> {
    var config :- GeneratorConfig(pf, atom, owner);
    if pf.marshal(config).None? then Err(MarshalFailed) else Ok(pf.marshal(config).value)
  }

  method GetGeneratorConfig(pf: Platform, atom: Atom, owner: OwnerInfo) returns (result: Result<string>)
    ensures result == GeneratorText(pf, atom, owner)
  {
    var config := MapAtomV3ToAtomGeneratorConfig(pf, atom, owner);
    if config.Err? {
      return Err(config.error);
    }
    var yaml := pf.marshal(config.value);
    return if yaml.None? then Err(MarshalFailed) else Ok(yaml.value);
  }

  /** A ConfigMap together with its name, which mutating may change. */
  datatype NamedConfigMap = NamedConfigMap(name: string, value: ConfigMap)

  /** The configuration is generated once: data that is there is kept. */
  function ConfigMapFor(pf: Platform, atom: Atom, owner: OwnerInfo, current: NamedConfigMap): Result<NamedConfigMap> {
    var data :- if current.value.data == map[] then ConfigDataFor(pf, atom, owner) else Ok(current.value.data);
    Ok(NamedConfigMap(
      AddHashSuffix(pf, current.name, data), ConfigMap(ObjectLabels(atom, current.value.labels), data, true)))
  }

  function ConfigDataFor(pf: Platform, atom: Atom, owner: OwnerInfo): Result<map<string, string>> {
    var text :- GeneratorText(pf, atom, owner);
    Ok(ConfigData(text))
  }

  method MutateAtomGeneratorConfigMap(pf: Platform, atom: Atom, owner: OwnerInfo, configMap: ConfigMapObject)
    returns (err: Option<Error>)
    modifies configMap
    ensures var mutated := ConfigMapFor(pf, atom, owner, old(NamedConfigMap(configMap.name, configMap.Value())));
            if mutated.Ok? then
              err == None && NamedConfigMap(configMap.name, configMap.Value()) == mutated.value
            else
              err == Some(mutated.error)
  {
    configMap.labels := ObjectLabels(atom, configMap.labels);
    if configMap.data == map[] {
      var text := GetGeneratorConfig(pf, atom, owner);
      if text.Err? {
        return Some(text.error);
      }
      configMap.data := ConfigData(text.value);
    }
    configMap.immutable := true;
    configMap.name := AddHashSuffix(pf, configMap.name, configMap.data);
    return None;
  }
}
