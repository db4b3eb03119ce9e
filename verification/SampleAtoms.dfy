/** Small atoms to try the operator on, and what the schema of the resource asks of them. */
module SampleAtoms {
  import opened Wrappers
  import opened Sequences
  import opened Urls
  import opened AtomTypes
  import opened Traefik
  import opened Middlewares
  import opened RewriteChains
  import opened DownloadRouting
  import opened Validation
  import opened Admission

  // ----- The schema

  /** The pattern for URLs: a scheme, a host, and more than the root. */
  predicate SchemaURL(url: URL) {
    (url.scheme == "http" || url.scheme == "https") && url.hostname != "" && |url.path| > 1 && url.path[0] == '/'
  }

  predicate SchemaNumber(s: string) {
    s != "" && forall k :: 0 <= k < |s| ==> '0' <= s[k] <= '9'
  }

  predicate SchemaBox(box: BBox) {
    SchemaNumber(box.minX) && SchemaNumber(box.minY) && SchemaNumber(box.maxX) && SchemaNumber(box.maxY)
  }

  ghost predicate SchemaLink(link: DownloadLink) {
    SchemaData(link.data) && link.rel != Some("") && link.time.None? && link.bbox.None?
  }

  ghost predicate SchemaEntry(entry: Entry) {
    && entry.technicalName != "" && entry.title != Some("") && entry.content != Some("")
    && entry.downloadLinks != [] && (|entry.downloadLinks| > 1 ==> entry.content.Some?)
    && (forall link :: link in entry.downloadLinks ==> SchemaLink(link))
    && SchemaBox(entry.polygon) && SchemaURL(entry.srs.uri) && entry.srs.name != ""
  }

  ghost predicate SchemaFeed(feed: DatasetFeed) {
    && feed.technicalName != "" && feed.title != "" && feed.subtitle != "" && feed.author.name != "" && '@' in feed.author.email
    && feed.datasetMetadataLinks.None? && feed.spatialDatasetIdentifierCode.None?
    && feed.spatialDatasetIdentifierNamespace.None? && feed.links == []
    && feed.entries != [] && (forall entry :: entry in feed.entries ==> SchemaEntry(entry))
  }

  /** Exactly one of the URLs is the base URL. */
  ghost predicate ListsOnce(urls: seq<URL>, base: URL) {
    exists k :: 0 <= k < |urls| && IsOnly(urls, base, k)
  }

  predicate IsOnly(urls: seq<URL>, base: URL, k: nat) {
    forall i :: 0 <= i < |urls| ==> (urls[i].String() == base.String() <==> i == k)
  }

  ghost predicate SchemaList(urls: seq<URL>, base: URL) {
    1 <= |urls| <= 30 && (forall url :: url in urls ==> SchemaURL(url)) && ListsOnce(urls, base)
  }

  /** What the schema asks of an atom that leaves out optional links, identifiers, boxes and the stylesheet. */
  ghost predicate SchemaAtom(atom: Atom) {
    var service := atom.spec.service;
    && SchemaURL(service.baseURL) && |service.lang| >= 2 && service.title != "" && service.subtitle != "" && service.rights != ""
    && service.stylesheet.None? && service.serviceMetadataLinks.None? && service.links == []
    && service.datasetFeeds != [] && (forall feed :: feed in service.datasetFeeds ==> SchemaFeed(feed))
    && (atom.spec.ingressRouteURLs.Some? ==> SchemaList(atom.spec.ingressRouteURLs.value, service.baseURL))
  }

  /** A container, a slash, and more that does not end there. */
  ghost predicate SchemaPrefix(prefix: string) {
    exists i :: 0 < i < |prefix| - 1 && prefix[i] == '/' && '/' !in prefix[..i]
  }

  // ----- Small atoms

  function BaseURL(path: string): URL {
    URL("https", "host", "", path)
  }

  function OneEntry(name: string, title: Option<string>, links: seq<DownloadLink>): Entry {
    Entry(name, title, Some("content"), links, Time(0, 0, 0), BBox("0", "0", "1", "1"), SRS(BaseURL("/srs"), "EPSG:28992"))
  }

  function FeedOf(name: string, entry: Entry): DatasetFeed {
    DatasetFeed(name, "feed title", "feed subtitle", None, [], Author("PDOK", "pdok@example.org"), None, None, [entry])
  }

  function OneFeed(name: string, links: seq<DownloadLink>): DatasetFeed {
    FeedOf(name, OneEntry("entry", None, links))
  }

  function SmallAtom(path: string, listed: Option<seq<URL>>, feed: DatasetFeed): Atom {
    Atom(
      ObjectMeta("sample", "", map["dataset" := "sample"], map[], 0),
      AtomSpec(None, listed, Service(BaseURL(path), "nl", None, "title", "subtitle", "owner", None, [], "rights", [feed])))
  }

  /** An atom with these download links, served at its base URL. */
  function LinkAtom(path: string, links: seq<DownloadLink>): Atom {
    SmallAtom(path, None, OneFeed("feed", links))
  }

  lemma LinksOfSmallAtom(path: string, listed: Option<seq<URL>>, name: string, links: seq<DownloadLink>)
    ensures DownloadLinks(SmallAtom(path, listed, OneFeed(name, links))) == links
  {
    var feeds := [OneFeed(name, links)];
    assert EntryLists(feeds[0].entries) == [links];
    FlattenOne(links);
    assert FeedLists(feeds) == [links];
  }

  lemma LinksOfLinkAtom(path: string, links: seq<DownloadLink>)
    ensures DownloadLinks(LinkAtom(path, links)) == links
    ensures PathsOf(LinkAtom(path, links).ServedURLs()) == [path]
  {
    LinksOfSmallAtom(path, None, "feed", links);
  }

  lemma FlattenOne(links: seq<DownloadLink>)
    ensures Flatten([links]) == links
  {
    FlattenAppend([], links);
    assert [] + [links] == [links];
  }

  /** The webhook has nothing against a feed of one entry. */
  lemma SmallAtomErrors(path: string, listed: Option<seq<URL>>, name: string, entry: Entry)
    requires entry.content.Some?
    requires listed.Some? && listed.value != [] ==> ListsURL(listed.value, BaseURL(path))
    ensures AtomErrors(SmallAtom(path, listed, FeedOf(name, entry))) == []
  {
    DatasetFeedErrorsExactly(SmallAtom(path, listed, FeedOf(name, entry)));
  }

  /** The schema has nothing against it either, if the names and links are in order. */
  lemma SmallAtomSchema(path: string, listed: Option<seq<URL>>, name: string, entry: Entry)
    requires |path| > 1 && path[0] == '/' && name != "" && SchemaEntry(entry)
    requires listed.Some? ==> SchemaList(listed.value, BaseURL(path))
    ensures SchemaAtom(SmallAtom(path, listed, FeedOf(name, entry)))
  {
    assert '@' in "pdok@example.org" by {
      assert "pdok@example.org"[4] == '@';
    }
  }

  lemma OneEntrySchema(name: string, title: Option<string>, links: seq<DownloadLink>)
    requires name != "" && title != Some("") && links != [] && forall link :: link in links ==> SchemaLink(link)
    ensures SchemaEntry(OneEntry(name, title, links))
  {
  }

  lemma BlobSchema(prefix: string, name: string)
    requires SchemaPrefix(prefix) && name != ""
    ensures SchemaLink(Blob(prefix, name))
  {
    var i :| 0 < i < |prefix| - 1 && prefix[i] == '/' && '/' !in prefix[..i];
    var data, j := Blob(prefix, name).data, |prefix|;
    assert data[i] == '/' && data[j] == '/' && data[..i] == prefix[..i];
  }

  lemma PrefixSchema(container: string, rest: string)
    requires container != "" && '/' !in container && rest != ""
    ensures SchemaPrefix(container + "/" + rest)
  {
    var prefix := container + "/" + rest;
    assert prefix[|container|] == '/' && prefix[..|container|] == container;
  }

  const ONE_LINK := [Blob("c/d", "x")]

  lemma OneLinkSchema()
    ensures SchemaLink(ONE_LINK[0])
  {
    assert '/' !in "c" && "c" + "/" + "d" == "c/d";
    PrefixSchema("c", "d");
    BlobSchema("c/d", "x");
  }

  const PLAIN_OWNER := OwnerInfo("owner", Some(OwnerAtom(Author("", ""), None)), None)

  /** The owner infos of the namespace in which the small atoms are created. */
  const OWNERS: Owners := map["owner" := PLAIN_OWNER]

  /** Accepted by the API server and by the webhook, with nothing left out. */
  ghost predicate Accepted(atom: Atom) {
    SchemaAtom(atom) && AcceptsCreate(Some(OWNERS), atom)
  }

  /** Without metadata links, labels and an owner are all that creation asks for on top of the atom's own checks. */
  lemma AcceptedWithoutMetadata(atom: Atom)
    requires SchemaAtom(atom) && AtomErrors(atom) == [] && atom.meta.labels != map[]
    requires atom.spec.service.ownerInfoRef in OWNERS
    ensures Accepted(atom)
  {
    NoTemplates(atom.spec.service.datasetFeeds);
    assert UsedTemplates(atom) == [];
    NothingMissing(OWNERS[atom.spec.service.ownerInfoRef]);
  }

  lemma NothingMissing(owner: OwnerInfo)
    ensures MissingTemplates([], owner) == []
  {
  }

  lemma {:induction false} NoTemplates(feeds: seq<DatasetFeed>)
    requires forall feed :: feed in feeds ==> feed.datasetMetadataLinks.None?
    ensures Flatten(FeedTemplates(feeds)) == []
  {
    if feeds != [] {
      var init := feeds[..|feeds| - 1];
      NoTemplates(init);
      FlattenAppend(FeedTemplates(init), []);
      assert FeedTemplates(feeds) == FeedTemplates(init) + [[]];
    }
  }

  lemma SmallAtomOwned(path: string, listed: Option<seq<URL>>, feed: DatasetFeed)
    requires SchemaAtom(SmallAtom(path, listed, feed)) && AtomErrors(SmallAtom(path, listed, feed)) == []
    ensures Accepted(SmallAtom(path, listed, feed))
  {
    var atom := SmallAtom(path, listed, feed);
    assert "dataset" in atom.meta.labels;
    AcceptedWithoutMetadata(atom);
  }

  lemma SmallAtomAccepted(path: string, name: string, entry: Entry)
    requires |path| > 1 && path[0] == '/' && name != "" && SchemaEntry(entry) && entry.content.Some?
    ensures Accepted(SmallAtom(path, None, FeedOf(name, entry)))
  {
    SmallAtomSchema(path, None, name, entry);
    SmallAtomErrors(path, None, name, entry);
    SmallAtomOwned(path, None, FeedOf(name, entry));
  }

  lemma LinkAtomAccepted(path: string, links: seq<DownloadLink>)
    requires |path| > 1 && path[0] == '/' && links != [] && forall link :: link in links ==> SchemaLink(link)
    ensures Accepted(LinkAtom(path, links))
  {
    OneEntrySchema("entry", None, links);
    SmallAtomAccepted(path, "feed", OneEntry("entry", None, links));
  }

  function Blob(prefix: string, name: string): DownloadLink {
    DownloadLink(prefix + "/" + name, None, None, None)
  }

  lemma BlobIs(prefix: string, name: string)
    requires '/' !in name
    ensures Blob(prefix, name).GetBlobPrefix() == Ok(prefix) && Blob(prefix, name).GetBlobName() == name
    ensures '/' in Blob(prefix, name).data
  {
    BlobParts(Blob(prefix, name), prefix, name);
    assert Blob(prefix, name).data[|prefix|] == '/';
  }

  /** Blobs in pairwise different containers. */
  predicate Separate(links: seq<DownloadLink>, prefixes: seq<string>, names: seq<string>) {
    && |links| == |prefixes| == |names|
    && (forall k :: 0 <= k < |links| ==> '/' !in names[k] && links[k] == Blob(prefixes[k], names[k]))
    && (forall i, j :: 0 <= i < j < |links| ==> prefixes[i] != prefixes[j])
  }

  lemma SeparateGroups(links: seq<DownloadLink>, prefixes: seq<string>, names: seq<string>)
    requires Separate(links, prefixes, names)
    ensures AllSliceable(links) && GroupOrder(links) == prefixes
    ensures forall k :: 0 <= k < |links| ==>
              links[k].GetBlobPrefix() == Ok(prefixes[k]) && links[k].GetBlobName() == names[k] &&
              names[k] in FilesWith(links, prefixes[k])
  {
    forall k | 0 <= k < |links|
      ensures links[k].GetBlobPrefix() == Ok(prefixes[k]) && links[k].GetBlobName() == names[k]
      ensures '/' in links[k].data && names[k] in FilesWith(links, prefixes[k])
    {
      BlobIs(prefixes[k], names[k]);
      FileBelongs(links, prefixes[k], names[k]);
      assert links[k].data == prefixes[k] + "/" + names[k];
    }
    assert Prefixes(links) == prefixes;
    DistinctKeepsAll(prefixes);
  }

  lemma SeparateIndex(atom: Atom, prefixes: seq<string>, names: seq<string>, k: nat)
    requires Separate(DownloadLinks(atom), prefixes, names) && k < |prefixes|
    ensures AllSliceable(DownloadLinks(atom)) && GroupIndex(atom, DownloadLinks(atom)[k]) == k
  {
    SeparateGroups(DownloadLinks(atom), prefixes, names);
    IndexOfUnique(prefixes, k);
  }

  /** Names and prefixes hold nothing special, and prefixes are too short to be confused with a served path. */
  predicate PlainBlobs(path: string, prefixes: seq<string>, names: seq<string>) {
    LiteralOrDot(path) &&
    forall k :: 0 <= k < |prefixes| && k < |names| ==>
      LiteralOrDot(names[k]) && '$' !in prefixes[k] && |prefixes[k]| + 2 < |path + DOWNLOADS|
  }

  lemma SeparateIsRoutable(path: string, links: seq<DownloadLink>, prefixes: seq<string>, names: seq<string>, name: string)
    requires Separate(links, prefixes, names) && PlainBlobs(path, prefixes, names) && '/' !in name
    ensures Routable(LinkAtom(path, links)) && Undisturbed(LinkAtom(path, links), path, name)
  {
    var atom := LinkAtom(path, links);
    LinksOfLinkAtom(path, links);
    SeparateGroups(links, prefixes, names);
    SimplePathsUndisturbed(atom, atom.spec.service.baseURL, name);
  }
}
