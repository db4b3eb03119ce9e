/** The v3 Atom resource, the OwnerInfo it refers to, and the download links it lists. */
module AtomTypes {
  import opened Wrappers
  import opened Strings
  import opened Sequences
  import opened Urls

  newtype int32 = x: int | -0x8000_0000 <= x < 0x8000_0000

  type Labels = map<string, string>

  /** A moment with its zone offset; `nanos` is the part below one second. */
  datatype Time = Time(seconds: int, nanos: nat, offset: int)

  datatype ObjectMeta = ObjectMeta(
    name: string, namespace: string, labels: Labels, annotations: Labels, creationTimestamp: int)

  datatype Author = Author(name: string, email: string)

  datatype BBox = BBox(minX: string, minY: string, maxX: string, maxY: string) {

    function ToExtent(): string {
      minX + " " + minY + " " + maxX + " " + maxY
    }

    /** The ring of corners, latitude first, ending where it starts. */
    function ToPolygon(): string {
      Join([minY, minX, minY, maxX, maxY, maxX, maxY, minX, minY, minX], " ")
    }
  }

  datatype SRS = SRS(uri: URL, name: string)

  datatype Link = Link(
    href: URL, rel: string, contentType: string, hreflang: Option<string>, title: Option<string>)

  datatype MetadataLink = MetadataLink(metadataIdentifier: string, templates: seq<string>)

  datatype DownloadLink = DownloadLink(
    data: string, rel: Option<string>, time: Option<string>, bbox: Option<BBox>)
  {
    /** The part of the data before the last slash; Go panics when there is none. */
    function GetBlobPrefix(): Result<string> {
      var index := LastIndex(data, '/');
      if index == -1 then Err(SliceOutOfRange) else Ok(data[..index])
    }

    /** The part of the data after the last slash, or all of it. */
    function GetBlobName(): (name: string)
      ensures '/' !in name
    {
      data[LastIndex(data, '/') + 1..]
    }
  }

  datatype Entry = Entry(
    technicalName: string, title: Option<string>, content: Option<string>,
    downloadLinks: seq<DownloadLink>, updated: Time, polygon: BBox, srs: SRS)

  datatype DatasetFeed = DatasetFeed(
    technicalName: string, title: string, subtitle: string,
    datasetMetadataLinks: Option<MetadataLink>, links: seq<Link>, author: Author,
    spatialDatasetIdentifierCode: Option<string>, spatialDatasetIdentifierNamespace: Option<string>,
    entries: seq<Entry>)

  datatype Service = Service(
    baseURL: URL, lang: string, stylesheet: Option<URL>, title: string, subtitle: string,
    ownerInfoRef: string, serviceMetadataLinks: Option<MetadataLink>, links: seq<Link>,
    rights: string, datasetFeeds: seq<DatasetFeed>)

  datatype Lifecycle = Lifecycle(ttlInDays: Option<int32>)

  /** `ingressRouteURLs` is None for nil; the schema refuses an empty list but Go does not. */
  datatype AtomSpec = AtomSpec(
    lifecycle: Option<Lifecycle>, ingressRouteURLs: Option<seq<URL>>, service: Service)

  datatype Atom = Atom(meta: ObjectMeta, spec: AtomSpec) {

    /** The listed URLs, none for nil. */
    function ListedURLs(): seq<URL> {
      spec.ingressRouteURLs.GetOr([])
    }

    /** The URLs at which the operator serves the atom. */
    function ServedURLs(): (urls: seq<URL>)
      ensures urls != []
    {
      if ListedURLs() == [] then [spec.service.baseURL] else ListedURLs()
    }
  }

  datatype OwnerAtom = OwnerAtom(author: Author, defaultStylesheet: Option<URL>)

  /** The href templates of the metadata catalogue. */
  datatype MetadataUrls = MetadataUrls(
    csw: Option<string>, openSearch: Option<string>, html: Option<string>)

  datatype OwnerInfo = OwnerInfo(name: string, atom: Option<OwnerAtom>, metadataUrls: Option<MetadataUrls>)

  // ----- Download links

  /** Prefix and name are the one decomposition of the data at its last slash. */
  lemma BlobParts(link: DownloadLink, prefix: string, name: string)
    requires '/' !in name
    ensures link.GetBlobPrefix() == Ok(prefix) && link.GetBlobName() == name
            <==> link.data == prefix + "/" + name
  {
    var index := LastIndex(link.data, '/');
    if link.data == prefix + "/" + name {
      LastIndexAppend(prefix, '/', name);
      assert link.data[..|prefix|] == prefix && link.data[|prefix| + 1..] == name;
    }
    if index >= 0 {
      assert link.data == link.data[..index] + [link.data[index]] + link.data[index + 1..];
    }
  }

  function EntryLists(entries: seq<Entry>): seq<seq<DownloadLink>> {
    seq(|entries|, i requires 0 <= i < |entries| => entries[i].downloadLinks)
  }

  function FeedLists(feeds: seq<DatasetFeed>): seq<seq<DownloadLink>> {
    seq(|feeds|, i requires 0 <= i < |feeds| => Flatten(EntryLists(feeds[i].entries)))
  }

  /** All download links, in document order. */
  function DownloadLinks(atom: Atom): seq<DownloadLink> {
    Flatten(FeedLists(atom.spec.service.datasetFeeds))
  }

  /** The list holds the links of every entry of every feed, and no others. */
  lemma DownloadLinksComplete(atom: Atom, link: DownloadLink)
    ensures link in DownloadLinks(atom) <==>
              exists feed, entry :: feed in atom.spec.service.datasetFeeds &&
                entry in feed.entries && link in entry.downloadLinks
  {
    var feeds := atom.spec.service.datasetFeeds;
    var lists := FeedLists(feeds);
    FlattenMember(lists, link);
    forall i | 0 <= i < |feeds|
      ensures link in lists[i] <==> exists entry :: entry in feeds[i].entries && link in entry.downloadLinks
    {
      FlattenMember(EntryLists(feeds[i].entries), link);
      if entry :| entry in feeds[i].entries && link in entry.downloadLinks {
        var k :| 0 <= k < |feeds[i].entries| && feeds[i].entries[k] == entry;
        assert link in EntryLists(feeds[i].entries)[k];
      }
    }
    if feed, entry :| feed in feeds && entry in feed.entries && link in entry.downloadLinks {
      var i :| 0 <= i < |feeds| && feeds[i] == feed;
      assert link in lists[i];
    }
  }

  method GetDownloadLinks(atom: Atom) returns (downloadLinks: seq<DownloadLink>)
    ensures downloadLinks == DownloadLinks(atom)
  {
    downloadLinks := [];
    var feeds := atom.spec.service.datasetFeeds;
    ghost var feedLists := FeedLists(feeds);
    for f := 0 to |feeds|
      invariant downloadLinks == Flatten(feedLists[..f])
    {
      var entries := feeds[f].entries;
      ghost var entryLists := EntryLists(entries);
      ghost var before := downloadLinks;
      for e := 0 to |entries|
        invariant downloadLinks == before + Flatten(entryLists[..e])
      {
        downloadLinks := downloadLinks + entries[e].downloadLinks;
        FlattenPrefix(entryLists, e);
        ConcatAssociative(before, Flatten(entryLists[..e]), entryLists[e]);
      }
      assert entryLists[..|entries|] == entryLists;
      FlattenPrefix(feedLists, f);
    }
    assert feedLists[..|feeds|] == feedLists;
  }
}
