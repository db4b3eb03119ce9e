/**
 * The Kubernetes objects of one namespace, as far as the operator sets them. A datatype is an object as
 * the API server holds it; the class of the same kind is the operator's local copy, which the mutate
 * functions update in place. Owner references and group-version-kind are not modelled.
 */
module KubeObjects {
  import opened AtomTypes
  import opened Strings
  import opened Wrappers
  import opened Traefik

  datatype ConfigMap = ConfigMap(labels: Labels, data: map<string, string>, immutable: bool)

  datatype PodTemplate = PodTemplate(
    labels: Labels, annotations: Labels, configMapName: string, generatorImage: string, serviceImage: string)

  datatype Deployment = Deployment(
    labels: Labels, selector: Labels, minReadySeconds: int, replicas: int, revisionHistoryLimit: int,
    template: PodTemplate)

  datatype ServicePort = ServicePort(name: string, port: int, protocol: string)

  datatype KubeService = KubeService(labels: Labels, selector: Labels, ports: seq<ServicePort>)

  datatype Middleware = Middleware(labels: Labels, spec: MiddlewareSpec)

  datatype Backend = Backend(name: string, port: string, passHostHeader: Option<bool>)

  datatype Route = Route(rule: string, services: seq<Backend>, middlewares: seq<string>)

  datatype IngressRoute = IngressRoute(labels: Labels, annotations: Labels, routes: seq<Route>)

  datatype DisruptionBudget = DisruptionBudget(labels: Labels, selector: Labels, maxUnavailable: int)

  const NO_MIDDLEWARE := StripPrefix([])
  const BARE_CONFIG_MAP := ConfigMap(map[], map[], false)
  const BARE_DEPLOYMENT := Deployment(map[], map[], 0, 0, 0, PodTemplate(map[], map[], "", "", ""))
  const BARE_SERVICE := KubeService(map[], map[], [])
  const BARE_MIDDLEWARE := Middleware(map[], NO_MIDDLEWARE)
  const BARE_INGRESS_ROUTE := IngressRoute(map[], map[], [])
  const BARE_DISRUPTION_BUDGET := DisruptionBudget(map[], map[], 0)

  class ConfigMapObject {
    var name: string
    var labels: Labels
    var data: map<string, string>
    var immutable: bool

    constructor (name: string, stored: ConfigMap)
      ensures this.name == name && Value() == stored
    {
      this.name := name;
      labels, data, immutable := stored.labels, stored.data, stored.immutable;
    }

    function Value(): ConfigMap
      reads this
    {
      ConfigMap(labels, data, immutable)
    }
  }

  class DeploymentObject {
    var labels: Labels
    var selector: Labels
    var minReadySeconds: int
    var replicas: int
    var revisionHistoryLimit: int
    var template: PodTemplate

    constructor (stored: Deployment)
      ensures Value() == stored
    {
      labels, selector := stored.labels, stored.selector;
      minReadySeconds, replicas := stored.minReadySeconds, stored.replicas;
      revisionHistoryLimit, template := stored.revisionHistoryLimit, stored.template;
    }

    function Value(): Deployment
      reads this
    {
      Deployment(labels, selector, minReadySeconds, replicas, revisionHistoryLimit, template)
    }
  }

  class ServiceObject {
    var labels: Labels
    var selector: Labels
    var ports: seq<ServicePort>

    constructor (stored: KubeService)
      ensures Value() == stored
    {
      labels, selector, ports := stored.labels, stored.selector, stored.ports;
    }

    function Value(): KubeService
      reads this
    {
      KubeService(labels, selector, ports)
    }
  }

  class MiddlewareObject {
    var labels: Labels
    var spec: MiddlewareSpec

    constructor (stored: Middleware)
      ensures Value() == stored
    {
      labels, spec := stored.labels, stored.spec;
    }

    function Value(): Middleware
      reads this
    {
      Middleware(labels, spec)
    }
  }

  class IngressRouteObject {
    var labels: Labels
    var annotations: Labels
    var routes: seq<Route>

    constructor (stored: IngressRoute)
      ensures Value() == stored
    {
      labels, annotations, routes := stored.labels, stored.annotations, stored.routes;
    }

    function Value(): IngressRoute
      reads this
    {
      IngressRoute(labels, annotations, routes)
    }
  }

  class DisruptionBudgetObject {
    var labels: Labels
    var selector: Labels
    var maxUnavailable: int

    constructor (stored: DisruptionBudget)
      ensures Value() == stored
    {
      labels, selector, maxUnavailable := stored.labels, stored.selector, stored.maxUnavailable;
    }

    function Value(): DisruptionBudget
      reads this
    {
      DisruptionBudget(labels, selector, maxUnavailable)
    }
  }

  // ----- Labels and names

  const APP_LABEL_KEY := "pdok.nl/app"
  const APP_NAME := "atom-service"
  const DEFAULT_LABELS: Labels := map[APP_LABEL_KEY := APP_NAME]

  /** What the pods of an atom are selected by: its labels and the app label, which wins. */
  function LabelSelector(atom: Atom): Labels {
    atom.meta.labels + DEFAULT_LABELS
  }

  /** Labels already on an object stay unless the atom or the operator sets the same key. */
  function ObjectLabels(atom: Atom, labels: Labels): Labels {
    labels + atom.meta.labels + DEFAULT_LABELS
  }

  /** Setting the labels again changes nothing, keeps foreign labels, and satisfies the selector. */
  lemma ObjectLabelsStable(atom: Atom, labels: Labels)
    ensures ObjectLabels(atom, ObjectLabels(atom, labels)) == ObjectLabels(atom, labels)
    ensures forall k :: k in labels && k !in LabelSelector(atom) ==>
              k in ObjectLabels(atom, labels) && ObjectLabels(atom, labels)[k] == labels[k]
    ensures forall k :: k in LabelSelector(atom) ==>
              k in ObjectLabels(atom, labels) && ObjectLabels(atom, labels)[k] == LabelSelector(atom)[k]
  {
    var once := ObjectLabels(atom, labels);
    assert ObjectLabels(atom, once) == once;
  }

  const STRIP_PREFIX_SUFFIX := "-atom-prefixstrip"
  const HEADERS_SUFFIX := "-atom-headers"
  const DOWNLOADS_SUFFIX := "-atom-downloads-"
  const NAME_SUFFIX := "-atom"
  const GENERATOR_SUFFIX := "-atom-generator"
  const ATOM_PORT := 80

  function StripPrefixName(atomName: string): string { atomName + STRIP_PREFIX_SUFFIX }

  function HeadersName(atomName: string): string { atomName + HEADERS_SUFFIX }

  function DownloadName(atomName: string, index: nat): string { atomName + DOWNLOADS_SUFFIX + Itoa(index) }

  function ServiceName(atomName: string): string { atomName + NAME_SUFFIX }

  function IngressRouteName(atomName: string): string { atomName + NAME_SUFFIX }

  function WorkloadName(atomName: string): string { atomName + "-" + APP_NAME }

  function GeneratorName(atomName: string): string { atomName + GENERATOR_SUFFIX }

  /** The middlewares of one atom have different names. */
  lemma MiddlewareNamesDistinct(atomName: string, i: nat, j: nat)
    ensures StripPrefixName(atomName) != HeadersName(atomName)
    ensures DownloadName(atomName, i) != StripPrefixName(atomName)
    ensures DownloadName(atomName, i) != HeadersName(atomName)
    ensures DownloadName(atomName, i) == DownloadName(atomName, j) <==> i == j
  {
    var n := |atomName|;
    assert StripPrefixName(atomName)[n + 6] == 'p';
    assert HeadersName(atomName)[n + 6] == 'h';
    assert DownloadName(atomName, i)[n + 6] == 'd';
    if DownloadName(atomName, i) == DownloadName(atomName, j) {
      CancelPrefix(atomName + DOWNLOADS_SUFFIX, Itoa(i), Itoa(j));
      ItoaInjective(i, j);
    }
  }
}
