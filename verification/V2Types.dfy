/** The v2beta1 Atom resource, as far as conversion reads or writes it. */
module V2Types {
  import opened Wrappers
  import opened AtomTypes
  import opened Urls

  newtype int64 = x: int | -0x8000_0000_0000_0000 <= x < 0x8000_0000_0000_0000

  /** A finite 32-bit float, by its bit pattern; zero has pattern 0. */
  datatype Float32 = Float32(bits: nat)

  datatype General = General(
    dataset: string, theme: Option<string>, datasetOwner: string, serviceVersion: Option<string>,
    dataVersion: Option<string>)

  datatype V2Box = V2Box(minx: Float32, maxx: Float32, miny: Float32, maxy: Float32)

  datatype OtherLink = OtherLink(linkType: string, uri: string, contentType: Option<string>, language: Option<string>)

  datatype V2Link = V2Link(
    blobKey: Option<string>, updated: Option<string>, version: Option<string>, bbox: Option<V2Box>, rel: Option<string>)

  datatype V2Srs = V2Srs(uri: string, code: string)

  datatype Download = Download(
    name: string, title: Option<string>, updated: Option<string>, content: Option<string>,
    links: seq<V2Link>, srs: V2Srs)

  datatype Dataset = Dataset(
    name: string, title: string, subtitle: string, metadataIdentifier: string, sourceIdentifier: string,
    links: seq<OtherLink>, downloads: seq<Download>, bbox: V2Box)

  datatype V2Service = V2Service(
    title: string, subtitle: string, metadataIdentifier: string, rights: string, updated: Option<string>,
    author: Author, datasets: seq<Dataset>)

  datatype V2Lifecycle = V2Lifecycle(ttlInDays: Option<int64>)

  /** `tuning` stands for autoscaling, health check and resources. */
  datatype Kubernetes = Kubernetes(tuning: Option<string>, lifecycle: Option<V2Lifecycle>)

  datatype V2Atom = V2Atom(meta: ObjectMeta, general: General, service: V2Service, kubernetes: Option<Kubernetes>)

  class V2Object {
    var meta: ObjectMeta
    var general: General
    var service: V2Service
    var kubernetes: Option<Kubernetes>

    constructor (value: V2Atom)
      ensures Value() == value
    {
      meta, general, service, kubernetes := value.meta, value.general, value.service, value.kubernetes;
    }

    function Value(): V2Atom
      reads this
    {
      V2Atom(meta, general, service, kubernetes)
    }
  }

  class V3Object {
    var meta: ObjectMeta
    var lifecycle: Option<Lifecycle>
    var ingressRouteURLs: Option<seq<URL>>
    var service: Service

    constructor (value: Atom)
      ensures Value() == value
    {
      meta, lifecycle := value.meta, value.spec.lifecycle;
      ingressRouteURLs, service := value.spec.ingressRouteURLs, value.spec.service;
    }

    function Value(): Atom
      reads this
    {
      Atom(meta, AtomSpec(lifecycle, ingressRouteURLs, service))
    }
  }
}
