/** Conversion between v2beta1 and v3, the hub version. */
module Conversion {
  import opened Wrappers
  import opened Urls
  import opened AtomTypes
  import opened V2Types

  /** Texts of URLs, times and floats. */
  datatype Codec = Codec(
    parseHost: string -> Option<URL>,
    parseURL: string -> Option<URL>,
    parseTime: string -> Option<Time>,
    printTime: Time -> string,
    parseFloat: string -> Float32,
    printFloat: Float32 -> string)

  /** The moment at which the clock is read for a download of a dataset. */
  type Clock = nat -> nat -> Time

  /** What is below a second does not survive printing. */
  function Truncated(t: Time): Time {
    t.(nanos := 0)
  }

  /** Printing then parsing gives back what the format can hold. */
  ghost predicate RoundTrips(codec: Codec) {
    && (forall s, u :: codec.parseURL(s) == Some(u) ==> codec.parseURL(u.String()) == Some(u))
    && (forall f :: codec.parseFloat(codec.printFloat(f)) == f)
    && (forall t :: codec.parseTime(codec.printTime(t)) == Some(Truncated(t)))
    && (forall t :: codec.printTime(Truncated(t)) == codec.printTime(t))
  }

  // ----- Helpers

  /** Go's int32(x): the low 32 bits, read as a signed number. */
  function ToInt32(x: int64): int32 {
    var low := (x as int) % 0x1_0000_0000;
    (if low < 0x8000_0000 then low else low - 0x1_0000_0000) as int32
  }

  /** The conversion keeps a time to live exactly when it fits in 32 bits. */
  lemma TTLKeptExactly(x: int64)
    ensures ToInt32(x) as int == x as int <==> -0x8000_0000 <= x < 0x8000_0000
    ensures ToInt32(ToInt32(x) as int64) == ToInt32(x)
  {
  }

  function CreateBaseURL(codec: Codec, host: string, general: General): Option<URL> {
    var base :- codec.parseHost(host);
    var owned := base.JoinPath([general.datasetOwner, general.dataset]);
    var themed := if general.theme.Some? then owned.JoinPath([general.theme.value]) else owned;
    var atom := themed.JoinPath(["atom"]);
    Some(if general.serviceVersion.Some? then atom.JoinPath([general.serviceVersion.value]) else atom)
  }

  // ----- To the hub

  function HubBox(codec: Codec, box: V2Box): BBox {
    BBox(codec.printFloat(box.minx), codec.printFloat(box.miny), codec.printFloat(box.maxx), codec.printFloat(box.maxy))
  }

  function HubLink(codec: Codec, link: OtherLink): Result<Link> {
    match codec.parseURL(link.uri)
    case None => Err(ParseFailed)
    case Some(href) => Ok(Link(href, "describedby", link.contentType.GetOr(""), link.language, Some(link.linkType)))
  }

  function HubDownloadLink(codec: Codec, link: V2Link): DownloadLink {
    DownloadLink(
      link.blobKey.GetOr(""), link.rel, link.updated,
      if link.bbox.None? then None else Some(HubBox(codec, link.bbox.value)))
  }

  function HubDownloadLinks(codec: Codec, links: seq<V2Link>): seq<DownloadLink> {
    seq(|links|, k requires 0 <= k < |links| => HubDownloadLink(codec, links[k]))
  }

  /** The download's own time, else that of the service, else none; a text that is no time becomes now. */
  function HubUpdated(codec: Codec, now: Time, serviceUpdated: Option<string>, updated: Option<string>): Time {
    var text := if updated.Some? then updated.value else serviceUpdated.GetOr("");
    codec.parseTime(text).GetOr(now)
  }

  function HubEntry(codec: Codec, now: Time, serviceUpdated: Option<string>, box: V2Box, download: Download): Result<Entry> {
    match codec.parseURL(download.srs.uri)
    case None => Err(ParseFailed)
    case Some(uri) =>
      Ok(Entry(
        download.name, download.title, download.content, HubDownloadLinks(codec, download.links),
        HubUpdated(codec, now, serviceUpdated, download.updated), HubBox(codec, box), SRS(uri, download.srs.code)))
  }

  function HubLinkResults(codec: Codec, links: seq<OtherLink>): seq<Result<Link>> {
    seq(|links|, k requires 0 <= k < |links| => HubLink(codec, links[k]))
  }

  function HubEntryResults(
    codec: Codec, moments: nat -> Time, serviceUpdated: Option<string>, box: V2Box, downloads: seq<Download>): seq<Result<Entry>>
  {
    seq(|downloads|, k requires 0 <= k < |downloads| => HubEntry(codec, moments(k), serviceUpdated, box, downloads[k]))
  }

  const DATASET_TEMPLATES := ["csw", "html"]
  const SERVICE_TEMPLATES := ["csw", "opensearch", "html"]

  function HubFeed(codec: Codec, moments: nat -> Time, service: V2Service, dataset: Dataset): Result<DatasetFeed> {
    var links :- Collect(HubLinkResults(codec, dataset.links));
    var entries :- Collect(HubEntryResults(codec, moments, service.updated, dataset.bbox, dataset.downloads));
    Ok(DatasetFeed(
      dataset.name, dataset.title, dataset.subtitle,
      Some(MetadataLink(dataset.metadataIdentifier, DATASET_TEMPLATES)), links, service.author,
      Some(dataset.sourceIdentifier), Some("http://www.pdok.nl"), entries))
  }

  function HubFeedResults(codec: Codec, clock: Clock, service: V2Service): seq<Result<DatasetFeed>> {
    var datasets := service.datasets;
    seq(|datasets|, k requires 0 <= k < |datasets| => HubFeed(codec, clock(k), service, datasets[k]))
  }

  function HubService(baseURL: URL, service: V2Service, feeds: seq<DatasetFeed>): Service {
    Service(
      baseURL, "nl", None, service.title, service.subtitle, "pdok",
      Some(MetadataLink(service.metadataIdentifier, SERVICE_TEMPLATES)), [], service.rights, feeds)
  }

  /** The time to live, if one is set all the way down. */
  function SpokeTTL(kubernetes: Option<Kubernetes>): Option<int64> {
    if kubernetes.Some? && kubernetes.value.lifecycle.Some? then kubernetes.value.lifecycle.value.ttlInDays else None
  }

  function HubLifecycle(kubernetes: Option<Kubernetes>, before: Option<Lifecycle>): Option<Lifecycle> {
    if SpokeTTL(kubernetes).Some? then Some(Lifecycle(Some(ToInt32(SpokeTTL(kubernetes).value)))) else before
  }

  /** The v3 atom that conversion makes of `a` on top of `before`, of which it keeps what it does not set. */
  function Hub(codec: Codec, host: string, clock: Clock, a: V2Atom, before: AtomSpec): Result<Atom> {
    match CreateBaseURL(codec, host, a.general)
    case None => Err(ParseFailed)
    case Some(baseURL) =>
      var feeds :- Collect(HubFeedResults(codec, clock, a.service));
      Ok(Atom(a.meta, AtomSpec(
        HubLifecycle(a.kubernetes, before.lifecycle), before.ingressRouteURLs, HubService(baseURL, a.service, feeds))))
  }

  /** What the destination holds when the conversion stops: everything up to the first dataset that does not convert. */
  function HubUntilError(codec: Codec, host: string, clock: Clock, a: V2Atom, before: AtomSpec): Atom {
    var service := match CreateBaseURL(codec, host, a.general)
      case None => before.service
      case Some(baseURL) => HubService(baseURL, a.service, OkPrefix(HubFeedResults(codec, clock, a.service)));
    Atom(a.meta, AtomSpec(HubLifecycle(a.kubernetes, before.lifecycle), before.ingressRouteURLs, service))
  }

  method ToV3(codec: Codec, host: string, clock: Clock, a: V2Object, dst: V3Object) returns (err: Option<Error>)
    modifies dst
    ensures var converted := Hub(codec, host, clock, a.Value(), old(dst.Value().spec));
            if converted.Ok? then err == None && dst.Value() == converted.value
            else err == Some(converted.error) && dst.Value() == HubUntilError(codec, host, clock, a.Value(), old(dst.Value().spec))
  {
    dst.meta := a.meta;
    if a.kubernetes.Some? && a.kubernetes.value.lifecycle.Some? && a.kubernetes.value.lifecycle.value.ttlInDays.Some? {
      dst.lifecycle := Some(Lifecycle(Some(ToInt32(a.kubernetes.value.lifecycle.value.ttlInDays.value))));
    }
    var baseURL := CreateBaseURL(codec, host, a.general);
    if baseURL.None? {
      return Some(ParseFailed);
    }
    dst.service := HubService(baseURL.value, a.service, []);
    ghost var results := HubFeedResults(codec, clock, a.service);
    ghost var spec := old(dst.Value().spec);
    for k := 0 to |a.service.datasets|
      invariant dst.meta == a.meta && dst.ingressRouteURLs == spec.ingressRouteURLs
      invariant dst.lifecycle == HubLifecycle(a.kubernetes, spec.lifecycle)
      invariant dst.service == HubService(baseURL.value, a.service, dst.service.datasetFeeds)
      invariant Collect(results[..k]) == Ok(dst.service.datasetFeeds)
      invariant a.Value() == old(a.Value())
    {
      CollectStep(results, k, dst.service.datasetFeeds);
      var feed := DatasetToV3(codec, clock(k), a.service, a.service.datasets[k]);
      if feed.Err? {
        OkPrefixEnds(results, k, dst.service.datasetFeeds);
        return Some(feed.error);
      }
      dst.service := dst.service.(datasetFeeds := dst.service.datasetFeeds + [feed.value]);
    }
    assert results[..|results|] == results;
    return None;
  }

  method DatasetToV3(codec: Codec, moments: nat -> Time, service: V2Service, dataset: Dataset) returns (result: Result<DatasetFeed>)
    ensures result == HubFeed(codec, moments, service, dataset)
  {
    var links: seq<Link> := [];
    ghost var linkResults := HubLinkResults(codec, dataset.links);
    for k := 0 to |dataset.links|
      invariant Collect(linkResults[..k]) == Ok(links)
    {
      CollectStep(linkResults, k, links);
      var source := dataset.links[k];
      var href := codec.parseURL(source.uri);
      if href.None? {
        return Err(ParseFailed);
      }
      var link := Link(href.value, "describedby", "", None, Some(source.linkType));
      if source.contentType.Some? {
        link := link.(contentType := source.contentType.value);
      }
      if source.language.Some? {
        link := link.(hreflang := source.language);
      }
      links := links + [link];
    }
    assert linkResults[..|dataset.links|] == linkResults;
    var entries: seq<Entry> := [];
    ghost var entryResults := HubEntryResults(codec, moments, service.updated, dataset.bbox, dataset.downloads);
    for k := 0 to |dataset.downloads|
      invariant Collect(entryResults[..k]) == Ok(entries)
    {
      CollectStep(entryResults, k, entries);
      var entry := DownloadToV3(codec, moments(k), service.updated, dataset.bbox, dataset.downloads[k]);
      if entry.Err? {
        return Err(entry.error);
      }
      entries := entries + [entry.value];
    }
    assert entryResults[..|dataset.downloads|] == entryResults;
    return Ok(DatasetFeed(
      dataset.name, dataset.title, dataset.subtitle,
      Some(MetadataLink(dataset.metadataIdentifier, DATASET_TEMPLATES)), links, service.author,
      Some(dataset.sourceIdentifier), Some("http://www.pdok.nl"), entries));
  }

  method DownloadToV3(codec: Codec, now: Time, serviceUpdated: Option<string>, box: V2Box, download: Download)
    returns (result: Result<Entry>)
    ensures result == HubEntry(codec, now, serviceUpdated, box, download)
  {
    var uri := codec.parseURL(download.srs.uri);
    if uri.None? {
      return Err(ParseFailed);
    }
    var updated := "";
    if download.updated.Some? {
      updated := download.updated.value;
    } else if serviceUpdated.Some? {
      updated := serviceUpdated.value;
    }
    var time := codec.parseTime(updated);
    var moment := if time.None? then now else time.value;
    var links: seq<DownloadLink> := [];
    for k := 0 to |download.links|
      invariant links == HubDownloadLinks(codec, download.links)[..k]
    {
      var source := download.links[k];
      var link := DownloadLink("", None, None, None);
      if source.blobKey.Some? {
        link := link.(data := source.blobKey.value);
      }
      if source.updated.Some? {
        link := link.(time := source.updated);
      }
      if source.bbox.Some? {
        link := link.(bbox := Some(HubBox(codec, source.bbox.value)));
      }
      if source.rel.Some? {
        link := link.(rel := source.rel);
      }
      links := links + [link];
    }
    assert HubDownloadLinks(codec, download.links)[..|download.links|] == HubDownloadLinks(codec, download.links);
    return Ok(Entry(
      download.name, download.title, download.content, links, moment, HubBox(codec, box), SRS(uri.value, download.srs.code)));
  }

  // ----- From the hub

  const PDOK_AUTHOR := Author("PDOK Beheer", "beheerPDOK@kadaster.nl")
  const ZERO_BOX := V2Box(Float32(0), Float32(0), Float32(0), Float32(0))

  function Lookup(labels: Labels, key: string): Option<string> {
    if key in labels then Some(labels[key]) else None
  }

  /** The general block is read off the labels. */
  function SpokeGeneral(labels: Labels): General {
    General(
      Lookup(labels, "dataset").GetOr(""), Lookup(labels, "theme"), Lookup(labels, "dataset-owner").GetOr(""),
      Lookup(labels, "service-version"), None)
  }

  function SpokeBox(codec: Codec, box: BBox): V2Box {
    V2Box(codec.parseFloat(box.minX), codec.parseFloat(box.maxX), codec.parseFloat(box.minY), codec.parseFloat(box.maxY))
  }

  function SpokeLink(link: Link): OtherLink {
    OtherLink(link.title.GetOr(""), link.href.String(), Some(link.contentType), link.hreflang)
  }

  function SpokeLinks(links: seq<Link>): seq<OtherLink> {
    seq(|links|, k requires 0 <= k < |links| => SpokeLink(links[k]))
  }

  function NonEmpty(rel: Option<string>): Option<string> {
    if rel == Some("") then None else rel
  }

  function SpokeDownloadLink(codec: Codec, link: DownloadLink): V2Link {
    V2Link(
      Some(link.data), link.time, None,
      if link.bbox.None? then None else Some(SpokeBox(codec, link.bbox.value)), NonEmpty(link.rel))
  }

  function SpokeDownloadLinks(codec: Codec, links: seq<DownloadLink>): seq<V2Link> {
    seq(|links|, k requires 0 <= k < |links| => SpokeDownloadLink(codec, links[k]))
  }

  function SpokeDownload(codec: Codec, entry: Entry): Download {
    Download(
      entry.technicalName, entry.title, Some(codec.printTime(entry.updated)), entry.content,
      SpokeDownloadLinks(codec, entry.downloadLinks), V2Srs(entry.srs.uri.String(), entry.srs.name))
  }

  function SpokeDownloads(codec: Codec, entries: seq<Entry>): seq<Download> {
    seq(|entries|, k requires 0 <= k < |entries| => SpokeDownload(codec, entries[k]))
  }

  function SpokeDataset(codec: Codec, feed: DatasetFeed): Result<Dataset> {
    if feed.datasetMetadataLinks.None? then
      Err(NilDereference)
    else
      Ok(Dataset(
        feed.technicalName, feed.title, feed.subtitle, feed.datasetMetadataLinks.value.metadataIdentifier,
        feed.spatialDatasetIdentifierCode.GetOr(""), SpokeLinks(feed.links), SpokeDownloads(codec, feed.entries),
        if feed.entries == [] then ZERO_BOX else SpokeBox(codec, feed.entries[0].polygon)))
  }

  function SpokeDatasetResults(codec: Codec, feeds: seq<DatasetFeed>): seq<Result<Dataset>> {
    seq(|feeds|, k requires 0 <= k < |feeds| => SpokeDataset(codec, feeds[k]))
  }

  function SpokeService(service: Service, identifier: string, datasets: seq<Dataset>): V2Service {
    V2Service(service.title, service.subtitle, identifier, service.rights, None, PDOK_AUTHOR, datasets)
  }

  function SpokeKubernetes(lifecycle: Option<Lifecycle>): Kubernetes {
    var ttl := if lifecycle.Some? && lifecycle.value.ttlInDays.Some? then Some(lifecycle.value.ttlInDays.value as int64) else None;
    Kubernetes(None, Some(V2Lifecycle(ttl)))
  }

  /** The v2beta1 atom that conversion makes of `src`; Err stands for a panic. */
  function Spoke(codec: Codec, src: Atom): Result<V2Atom> {
    var service := src.spec.service;
    if service.serviceMetadataLinks.None? then Err(NilDereference) else
    var datasets :- Collect(SpokeDatasetResults(codec, service.datasetFeeds));
    Ok(V2Atom(
      src.meta, SpokeGeneral(src.meta.labels),
      SpokeService(service, service.serviceMetadataLinks.value.metadataIdentifier, datasets),
      Some(SpokeKubernetes(src.spec.lifecycle))))
  }

  /** What is left behind by a panic: everything up to the first feed without metadata links. */
  function SpokeUntilPanic(codec: Codec, src: Atom, before: V2Atom): V2Atom {
    var links := src.spec.service.serviceMetadataLinks;
    var service :=
      if links.None? then before.service
      else SpokeService(src.spec.service, links.value.metadataIdentifier,
                        OkPrefix(SpokeDatasetResults(codec, src.spec.service.datasetFeeds)));
    V2Atom(src.meta, SpokeGeneral(src.meta.labels), service, before.kubernetes)
  }

  method ConvertFrom(codec: Codec, src: V3Object, a: V2Object) returns (err: Option<Error>)
    modifies a
    ensures var converted := Spoke(codec, src.Value());
            if converted.Ok? then err == None && a.Value() == converted.value
            else err == Some(converted.error) && a.Value() == SpokeUntilPanic(codec, src.Value(), old(a.Value()))
  {
    a.meta := src.meta;
    var labels := src.meta.labels;
    a.general := General(Lookup(labels, "dataset").GetOr(""), None, Lookup(labels, "dataset-owner").GetOr(""), None, None);
    if "service-version" in labels {
      a.general := a.general.(serviceVersion := Some(labels["service-version"]));
    }
    if "theme" in labels {
      a.general := a.general.(theme := Some(labels["theme"]));
    }
    if src.service.serviceMetadataLinks.None? {
      return Some(NilDereference);
    }
    var identifier := src.service.serviceMetadataLinks.value.metadataIdentifier;
    a.service := SpokeService(src.service, identifier, []);
    err := FeedsFromV3(codec, src, a, identifier);
    if err.Some? {
      return;
    }
    OkPrefixAll(SpokeDatasetResults(codec, src.service.datasetFeeds));
    a.kubernetes := Some(Kubernetes(None, Some(V2Lifecycle(None))));
    if src.lifecycle.Some? && src.lifecycle.value.ttlInDays.Some? {
      a.kubernetes := Some(Kubernetes(None, Some(V2Lifecycle(Some(src.lifecycle.value.ttlInDays.value as int64)))));
    }
    return None;
  }

  /** Appends one dataset per feed, up to the first without metadata links. */
  method FeedsFromV3(codec: Codec, src: V3Object, a: V2Object, identifier: string) returns (err: Option<Error>)
    requires a.service == SpokeService(src.service, identifier, [])
    modifies a`service
    ensures var results := SpokeDatasetResults(codec, src.service.datasetFeeds);
            && a.service == SpokeService(src.service, identifier, OkPrefix(results))
            && err == (if Collect(results).Ok? then None else Some(Collect(results).error))
  {
    ghost var results := SpokeDatasetResults(codec, src.service.datasetFeeds);
    for k := 0 to |src.service.datasetFeeds|
      invariant a.service == SpokeService(src.service, identifier, a.service.datasets)
      invariant Collect(results[..k]) == Ok(a.service.datasets)
    {
      CollectStep(results, k, a.service.datasets);
      var dataset := FeedFromV3(codec, src.service.datasetFeeds[k]);
      if dataset.Err? {
        OkPrefixEnds(results, k, a.service.datasets);
        return Some(dataset.error);
      }
      a.service := a.service.(datasets := a.service.datasets + [dataset.value]);
    }
    assert results[..|results|] == results;
    OkPrefixAll(results);
    return None;
  }

  method FeedFromV3(codec: Codec, feed: DatasetFeed) returns (result: Result<Dataset>)
    ensures result == SpokeDataset(codec, feed)
  {
    if feed.datasetMetadataLinks.None? {
      return Err(NilDereference);
    }
    var links: seq<OtherLink> := [];
    for k := 0 to |feed.links|
      invariant links == SpokeLinks(feed.links)[..k]
    {
      links := links + [SpokeLink(feed.links[k])];
    }
    assert SpokeLinks(feed.links)[..|feed.links|] == SpokeLinks(feed.links);
    var box := ZERO_BOX;
    if |feed.entries| > 0 {
      box := SpokeBox(codec, feed.entries[0].polygon);
    }
    var downloads: seq<Download> := [];
    for k := 0 to |feed.entries|
      invariant downloads == SpokeDownloads(codec, feed.entries)[..k]
    {
      var download := EntryFromV3(codec, feed.entries[k]);
      downloads := downloads + [download];
    }
    assert SpokeDownloads(codec, feed.entries)[..|feed.entries|] == SpokeDownloads(codec, feed.entries);
    return Ok(Dataset(
      feed.technicalName, feed.title, feed.subtitle, feed.datasetMetadataLinks.value.metadataIdentifier,
      feed.spatialDatasetIdentifierCode.GetOr(""), links, downloads, box));
  }

  method EntryFromV3(codec: Codec, entry: Entry) returns (download: Download)
    ensures download == SpokeDownload(codec, entry)
  {
    var links: seq<V2Link> := [];
    for k := 0 to |entry.downloadLinks|
      invariant links == SpokeDownloadLinks(codec, entry.downloadLinks)[..k]
    {
      var source := entry.downloadLinks[k];
      var link := V2Link(Some(source.data), None, None, None, None);
      if source.rel.Some? && source.rel.value != "" {
        link := link.(rel := source.rel);
      }
      if source.time.Some? {
        link := link.(updated := source.time);
      }
      if source.bbox.Some? {
        link := link.(bbox := Some(SpokeBox(codec, source.bbox.value)));
      }
      links := links + [link];
    }
    assert SpokeDownloadLinks(codec, entry.downloadLinks)[..|entry.downloadLinks|] == SpokeDownloadLinks(codec, entry.downloadLinks);
    download := Download(
      entry.technicalName, entry.title, Some(codec.printTime(entry.updated)), entry.content, links,
      V2Srs(entry.srs.uri.String(), entry.srs.name));
  }
}
