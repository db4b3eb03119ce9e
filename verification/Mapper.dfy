/** Mapping an atom and its owner info to the configuration of the Atom generator. */
module Mapper {
  import opened Wrappers
  import opened Sequences
  import opened Urls
  import opened AtomTypes
  import opened FeedTypes
  import opened Platforms

  // ----- Text

  /** strings.ReplaceAll of a quote by backslash and quote. */
  function EscapeQuotes(s: string): string {
    if s == "" then "" else EscapeChar(s[0]) + EscapeQuotes(s[1..])
  }

  function EscapeChar(c: char): string {
    if c == '"' then "\\\"" else [c]
  }

  // ----- Links to metadata

  /** Follows the pointers to one template and renders it. */
  function MetadataHref(pf: Platform, template: Option<string>, identifier: string): Result<string> {
    if template.None? then Err(NilDereference)
    else if pf.render(template.value, identifier).None? then Err(RenderFailed)
    else Ok(pf.render(template.value, identifier).value)
  }

  /** The href template for a kind of metadata; None when a pointer on the way is nil. */
  function TemplateFor(owner: OwnerInfo, kind: string): Option<string> {
    if owner.metadataUrls.None? then None
    else if kind == "csw" then owner.metadataUrls.value.csw
    else if kind == "opensearch" then owner.metadataUrls.value.openSearch
    else owner.metadataUrls.value.html
  }

  function PlainLink(rel: string, href: string, contentType: string, title: string): FeedLink {
    FeedLink(rel, href, None, contentType, None, title, None, None)
  }

  function MetadataLinkOf(kind: string, href: string, htmlTitle: string): FeedLink {
    if kind == "csw" then PlainLink("describedby", href, "application/xml", "")
    else if kind == "opensearch" then
      PlainLink("search", href, "application/opensearchdescription+xml",
                "Open Search document voor INSPIRE Download service PDOK")
    else PlainLink("describedby", href, "text/html", htmlTitle)
  }

  predicate KnownTemplate(kind: string) {
    kind == "csw" || kind == "opensearch" || kind == "html"
  }

  /** The links for a list of templates; with `onlyCSW` nothing after the first "csw" is looked at. */
  function MetadataLinks(
    pf: Platform, owner: OwnerInfo, templates: seq<string>, identifier: string, htmlTitle: string, onlyCSW: bool)
    : Result<seq<FeedLink>>
  {
    if templates == [] then
      Ok([])
    else if !KnownTemplate(templates[0]) then
      MetadataLinks(pf, owner, templates[1..], identifier, htmlTitle, onlyCSW)
    else
      var href :- MetadataHref(pf, TemplateFor(owner, templates[0]), identifier);
      var link := MetadataLinkOf(templates[0], href, htmlTitle);
      if onlyCSW && templates[0] == "csw" then
        Ok([link])
      else
        var rest :- MetadataLinks(pf, owner, templates[1..], identifier, htmlTitle, onlyCSW);
        Ok([link] + rest)
  }

  function Prepend<T>(xs: seq<T>, r: Result<seq<T>>): Result<seq<T>> {
    if r.Ok? then Ok(xs + r.value) else r
  }

  lemma PrependTwice<T>(xs: seq<T>, ys: seq<T>, r: Result<seq<T>>)
    ensures Prepend(xs, Prepend(ys, r)) == Prepend(xs + ys, r)
    ensures Prepend([], r) == r
  {
    if r.Ok? {
      assert xs + (ys + r.value) == xs + ys + r.value;
      assert [] + r.value == r.value;
    }
  }

  /** One step of the loop over the templates. */
  lemma MetadataLinksStep(
    pf: Platform, owner: OwnerInfo, templates: seq<string>, k: nat, identifier: string, htmlTitle: string, onlyCSW: bool)
    requires k < |templates|
    ensures var kind, rest := templates[k], MetadataLinks(pf, owner, templates[k + 1..], identifier, htmlTitle, onlyCSW);
            var href := MetadataHref(pf, TemplateFor(owner, kind), identifier);
            MetadataLinks(pf, owner, templates[k..], identifier, htmlTitle, onlyCSW) ==
              if !KnownTemplate(kind) then rest
              else if href.Err? then Err(href.error)
              else if onlyCSW && kind == "csw" then Ok([MetadataLinkOf(kind, href.value, htmlTitle)])
              else Prepend([MetadataLinkOf(kind, href.value, htmlTitle)], rest)
  {
    assert templates[k..][1..] == templates[k + 1..];
  }

  method AddMetadataLinks(
    pf: Platform, metadataLinks: MetadataLink, owner: OwnerInfo, links: seq<FeedLink>, htmlTitle: string, onlyCSW: bool)
    returns (result: Result<seq<FeedLink>>)
    ensures result == Prepend(links, MetadataLinks(pf, owner, metadataLinks.templates,
                                                   metadataLinks.metadataIdentifier, htmlTitle, onlyCSW))
  {
    var templates, identifier := metadataLinks.templates, metadataLinks.metadataIdentifier;
    ghost var all := MetadataLinks(pf, owner, templates, identifier, htmlTitle, onlyCSW);
    var added := [];
    assert templates[0..] == templates;
    PrependTwice([], [], all);
    for k := 0 to |templates|
      invariant all == Prepend(added, MetadataLinks(pf, owner, templates[k..], identifier, htmlTitle, onlyCSW))
    {
      var template := templates[k];
      MetadataLinksStep(pf, owner, templates, k, identifier, htmlTitle, onlyCSW);
      ghost var rest := MetadataLinks(pf, owner, templates[k + 1..], identifier, htmlTitle, onlyCSW);
      if template == "csw" {
        var href := MetadataHref(pf, TemplateFor(owner, "csw"), identifier);
        if href.Err? {
          return Err(href.error);
        }
        PrependTwice(added, [PlainLink("describedby", href.value, "application/xml", "")], rest);
        added := added + [PlainLink("describedby", href.value, "application/xml", "")];
        if onlyCSW {
          return Ok(links + added);
        }
      }
      if template == "opensearch" {
        var href := MetadataHref(pf, TemplateFor(owner, "opensearch"), identifier);
        if href.Err? {
          return Err(href.error);
        }
        var link := PlainLink("search", href.value, "application/opensearchdescription+xml",
                              "Open Search document voor INSPIRE Download service PDOK");
        PrependTwice(added, [link], rest);
        added := added + [link];
      }
      if template == "html" {
        var href := MetadataHref(pf, TemplateFor(owner, "html"), identifier);
        if href.Err? {
          return Err(href.error);
        }
        PrependTwice(added, [PlainLink("describedby", href.value, "text/html", htmlTitle)], rest);
        added := added + [PlainLink("describedby", href.value, "text/html", htmlTitle)];
      }
    }
    assert templates[|templates|..] == [] && added + [] == added;
    return Ok(links + added);
  }

  /** The links for an optional metadata block; none when it is absent. */
  function OptionalMetadataLinks(
    pf: Platform, owner: OwnerInfo, block: Option<MetadataLink>, htmlTitle: string, onlyCSW: bool): Result<seq<FeedLink>>
  {
    if block.None? then Ok([])
    else MetadataLinks(pf, owner, block.value.templates, block.value.metadataIdentifier, htmlTitle, onlyCSW)
  }

  // ----- The index feed

  function FileURL(atom: Atom, file: string): string {
    atom.spec.service.baseURL.JoinPath([file]).String()
  }

  function SelfLink(atom: Atom): FeedLink {
    PlainLink("self", FileURL(atom, "index.xml"), "application/atom+xml", EscapeQuotes(atom.spec.service.title))
  }

  function CategoryOf(srs: SRS): Category {
    Category(srs.uri.String(), srs.name)
  }

  function Categories(entries: seq<Entry>): seq<Category> {
    seq(|entries|, k requires 0 <= k < |entries| => CategoryOf(entries[k].srs))
  }

  /** The index entry of one feed. */
  function ServiceEntry(pf: Platform, atom: Atom, owner: OwnerInfo, feed: DatasetFeed): Result<FeedEntry> {
    var id, title := FileURL(atom, feed.technicalName + ".xml"), EscapeQuotes(feed.title);
    var links :- OptionalMetadataLinks(pf, owner, feed.datasetMetadataLinks, "", true);
    Ok(FeedEntry(
      id, title, "", EscapeQuotes(feed.subtitle),
      links + [PlainLink("alternate", id, "application/atom+xml", title)],
      "", None,
      if feed.entries == [] then "" else feed.entries[0].polygon.ToPolygon(),
      Distinct(Categories(feed.entries)),
      feed.spatialDatasetIdentifierCode, feed.spatialDatasetIdentifierNamespace))
  }

  function EntryResults(pf: Platform, atom: Atom, owner: OwnerInfo): seq<Result<FeedEntry>> {
    var feeds := atom.spec.service.datasetFeeds;
    seq(|feeds|, i requires 0 <= i < |feeds| => ServiceEntry(pf, atom, owner, feeds[i]))
  }

  function ServiceEntries(pf: Platform, atom: Atom, owner: OwnerInfo): Result<seq<FeedEntry>> {
    Collect(EntryResults(pf, atom, owner))
  }

  method GetServiceEntries(pf: Platform, atom: Atom, owner: OwnerInfo) returns (result: Result<seq<FeedEntry>>)
    ensures result == ServiceEntries(pf, atom, owner)
  {
    var feeds := atom.spec.service.datasetFeeds;
    ghost var results := EntryResults(pf, atom, owner);
    var entries: seq<FeedEntry> := [];
    for k := 0 to |feeds|
      invariant Collect(results[..k]) == Ok(entries)
    {
      CollectStep(results, k, entries);
      var entry := GetServiceEntry(pf, atom, owner, feeds[k]);
      if entry.Err? {
        return Err(entry.error);
      }
      entries := entries + [entry.value];
    }
    assert results[..|feeds|] == results;
    return Ok(entries);
  }

  method GetServiceEntry(pf: Platform, atom: Atom, owner: OwnerInfo, feed: DatasetFeed) returns (result: Result<FeedEntry>)
    ensures result == ServiceEntry(pf, atom, owner, feed)
  {
    var id := FileURL(atom, feed.technicalName + ".xml");
    var links: seq<FeedLink> := [];
    if feed.datasetMetadataLinks.Some? {
      var added := AddMetadataLinks(pf, feed.datasetMetadataLinks.value, owner, links, "", true);
      PrependTwice([], [], OptionalMetadataLinks(pf, owner, feed.datasetMetadataLinks, "", true));
      if added.Err? {
        return Err(added.error);
      }
      links := added.value;
    }
    links := links + [PlainLink("alternate", id, "application/atom+xml", EscapeQuotes(feed.title))];
    var polygon := "";
    if |feed.entries| > 0 {
      polygon := feed.entries[0].polygon.ToPolygon();
    }
    var categories := GetCategories(feed.entries);
    return Ok(FeedEntry(
      id, EscapeQuotes(feed.title), "", EscapeQuotes(feed.subtitle), links, "", None, polygon, categories,
      feed.spatialDatasetIdentifierCode, feed.spatialDatasetIdentifierNamespace));
  }

  /** The categories of the entries, each once. */
  method GetCategories(entries: seq<Entry>) returns (categories: seq<Category>)
    ensures categories == Distinct(Categories(entries))
  {
    categories := [];
    for e := 0 to |entries|
      invariant categories == Distinct(Categories(entries[..e]))
    {
      var category := CategoryOf(entries[e].srs);
      DistinctAppend(Categories(entries[..e]), category);
      assert Categories(entries[..e + 1]) == Categories(entries[..e]) + [category];
      if category !in categories {
        categories := categories + [category];
      }
    }
    assert entries[..|entries|] == entries;
  }

  // ----- A dataset feed

  function OtherLink(link: Link): FeedLink {
    FeedLink(link.rel, link.href.String(), None, link.contentType, link.hreflang,
             if link.title.None? then "" else EscapeQuotes(link.title.value), None, None)
  }

  function OtherLinks(links: seq<Link>): seq<FeedLink> {
    seq(|links|, k requires 0 <= k < |links| => OtherLink(links[k]))
  }

  function UpLink(atom: Atom): FeedLink {
    PlainLink("up", FileURL(atom, "index.xml"), "application/atom+xml", "Top Atom Download Service Feed")
  }

  function DatasetLinks(pf: Platform, atom: Atom, owner: OwnerInfo, feed: DatasetFeed): Result<seq<FeedLink>> {
    var metadata :- OptionalMetadataLinks(pf, owner, feed.datasetMetadataLinks, "NGR pagina voor deze dataset", false);
    Ok([PlainLink("self", FileURL(atom, feed.technicalName + ".xml"), "", ""), UpLink(atom)]
       + metadata + OtherLinks(feed.links))
  }

  method GetDatasetLinks(pf: Platform, atom: Atom, owner: OwnerInfo, feed: DatasetFeed)
    returns (result: Result<seq<FeedLink>>)
    ensures result == DatasetLinks(pf, atom, owner, feed)
  {
    var links := [PlainLink("self", FileURL(atom, feed.technicalName + ".xml"), "", ""), UpLink(atom)];
    assert links + [] == links;
    if feed.datasetMetadataLinks.Some? {
      var added := AddMetadataLinks(pf, feed.datasetMetadataLinks.value, owner, links, "NGR pagina voor deze dataset", false);
      if added.Err? {
        return Err(added.error);
      }
      links := added.value;
    }
    links := AddOtherLinks(feed.links, links);
    return Ok(links);
  }

  method AddOtherLinks(others: seq<Link>, before: seq<FeedLink>) returns (links: seq<FeedLink>)
    ensures links == before + OtherLinks(others)
  {
    links := before;
    for k := 0 to |others|
      invariant links == before + OtherLinks(others)[..k]
    {
      links := links + [OtherLink(others[k])];
    }
    assert OtherLinks(others)[..|others|] == OtherLinks(others);
  }

  predicate HasEmptyRel(link: DownloadLink) {
    link.rel.GetOr("") == ""
  }

  /** How many of the links have no relation of their own. */
  function EmptyRelCount(links: seq<DownloadLink>): nat {
    if links == [] then 0
    else EmptyRelCount(links[..|links| - 1]) + if HasEmptyRel(links[|links| - 1]) then 1 else 0
  }

  method GetEmptyRelCount(entry: Entry) returns (count: nat)
    ensures count == EmptyRelCount(entry.downloadLinks)
  {
    count := 0;
    var links := entry.downloadLinks;
    for k := 0 to |links|
      invariant count == EmptyRelCount(links[..k])
    {
      assert links[..k + 1][..k] == links[..k];
      if links[k].rel.None? || links[k].rel.value == "" {
        count := count + 1;
      }
    }
    assert links[..|links|] == links;
  }

  function DownloadLinkRel(link: DownloadLink, emptyRelCount: nat): string {
    if link.rel.Some? && link.rel.value != "" then link.rel.value
    else if emptyRelCount > 1 then "section"
    else "alternate"
  }

  function DownloadLinkURL(link: DownloadLink, atom: Atom): URL {
    atom.spec.service.baseURL.JoinPath(["downloads", link.GetBlobName()])
  }

  function DownloadLinkHref(link: DownloadLink, atom: Atom): string {
    DownloadLinkURL(link, atom).String()
  }

  function DownloadLinkData(pf: Platform, link: DownloadLink): Option<string> {
    Some(pf.blobEndpoint + "/" + link.data)
  }

  /** The entry's own title is not escaped here, the feed's is. */
  function DownloadLinkTitle(feed: DatasetFeed, entry: Entry, link: DownloadLink): string {
    (if entry.title.Some? && entry.title.value != "" then entry.title.value else EscapeQuotes(feed.title))
    + " - " + link.GetBlobName()
  }

  function DownloadFeedLink(pf: Platform, atom: Atom, feed: DatasetFeed, entry: Entry, link: DownloadLink): FeedLink {
    FeedLink(
      DownloadLinkRel(link, EmptyRelCount(entry.downloadLinks)), DownloadLinkHref(link, atom), DownloadLinkData(pf, link),
      "", None, DownloadLinkTitle(feed, entry, link), link.time,
      if link.bbox.None? then None else Some(link.bbox.value.ToExtent()))
  }

  function DownloadFeedLinks(pf: Platform, atom: Atom, feed: DatasetFeed, entry: Entry): seq<FeedLink> {
    var links := entry.downloadLinks;
    seq(|links|, k requires 0 <= k < |links| => DownloadFeedLink(pf, atom, feed, entry, links[k]))
  }

  function DatasetEntry(pf: Platform, atom: Atom, feed: DatasetFeed, entry: Entry): FeedEntry {
    FeedEntry(
      FileURL(atom, entry.technicalName + ".xml"),
      EscapeQuotes(if entry.title.Some? then entry.title.value else feed.title),
      entry.content.GetOr(""), "", DownloadFeedLinks(pf, atom, feed, entry), atom.spec.service.rights,
      Some(pf.formatTime(entry.updated)), entry.polygon.ToPolygon(), [CategoryOf(entry.srs)], None, None)
  }

  function DatasetEntries(pf: Platform, atom: Atom, feed: DatasetFeed): seq<FeedEntry> {
    var entries := feed.entries;
    seq(|entries|, k requires 0 <= k < |entries| => DatasetEntry(pf, atom, feed, entries[k]))
  }

  method GetDatasetEntries(pf: Platform, atom: Atom, feed: DatasetFeed) returns (entries: seq<FeedEntry>)
    ensures entries == DatasetEntries(pf, atom, feed)
  {
    entries := [];
    for e := 0 to |feed.entries|
      invariant entries == DatasetEntries(pf, atom, feed)[..e]
    {
      var entry := GetDatasetEntry(pf, atom, feed, feed.entries[e]);
      entries := entries + [entry];
    }
    assert DatasetEntries(pf, atom, feed)[..|feed.entries|] == DatasetEntries(pf, atom, feed);
  }

  method GetDatasetEntry(pf: Platform, atom: Atom, feed: DatasetFeed, entry: Entry) returns (result: FeedEntry)
    ensures result == DatasetEntry(pf, atom, feed, entry)
  {
    var title := EscapeQuotes(feed.title);
    if entry.title.Some? {
      title := EscapeQuotes(entry.title.value);
    }
    var updated := pf.formatTime(entry.updated);
    var links := GetDownloadFeedLinks(pf, atom, feed, entry);
    return FeedEntry(
      FileURL(atom, entry.technicalName + ".xml"), title, entry.content.GetOr(""), "", links,
      atom.spec.service.rights, Some(updated), entry.polygon.ToPolygon(), [CategoryOf(entry.srs)], None, None);
  }

  method GetDownloadFeedLinks(pf: Platform, atom: Atom, feed: DatasetFeed, entry: Entry) returns (links: seq<FeedLink>)
    ensures links == DownloadFeedLinks(pf, atom, feed, entry)
  {
    var emptyRelCount := GetEmptyRelCount(entry);
    links := [];
    ghost var all := DownloadFeedLinks(pf, atom, feed, entry);
    for k := 0 to |entry.downloadLinks|
      invariant links == all[..k]
    {
      var link := GetDownloadFeedLink(pf, atom, feed, entry, entry.downloadLinks[k], emptyRelCount);
      assert link == all[k];
      links := links + [link];
    }
    assert all[..|entry.downloadLinks|] == all;
  }

  method GetDownloadFeedLink(
    pf: Platform, atom: Atom, feed: DatasetFeed, entry: Entry, downloadLink: DownloadLink, emptyRelCount: nat)
    returns (link: FeedLink)
    requires emptyRelCount == EmptyRelCount(entry.downloadLinks)
    ensures link == DownloadFeedLink(pf, atom, feed, entry, downloadLink)
  {
    link := FeedLink(
      DownloadLinkRel(downloadLink, emptyRelCount), DownloadLinkHref(downloadLink, atom),
      DownloadLinkData(pf, downloadLink), "", None, DownloadLinkTitle(feed, entry, downloadLink), None, None);
    if downloadLink.time.Some? {
      link := link.(time := downloadLink.time);
    }
    if downloadLink.bbox.Some? {
      link := link.(bbox := Some(downloadLink.bbox.value.ToExtent()));
    }
  }

  // ----- The whole configuration

  function Stylesheet(atom: Atom, ownerAtom: OwnerAtom): Option<string> {
    var stylesheet := if atom.spec.service.stylesheet.Some? then atom.spec.service.stylesheet else ownerAtom.defaultStylesheet;
    if stylesheet.None? then None else Some(stylesheet.value.String())
  }

  function ServiceFeed(atom: Atom, ownerAtom: OwnerAtom, links: seq<FeedLink>, entries: seq<FeedEntry>): Feed {
    Feed(
      Stylesheet(atom, ownerAtom), "http://www.w3.org/2005/Atom", "http://www.georss.org/georss",
      "http://inspire.ec.europa.eu/schemas/inspire_dls/1.0", atom.spec.service.lang, FileURL(atom, "index.xml"),
      EscapeQuotes(atom.spec.service.title), EscapeQuotes(atom.spec.service.subtitle), links,
      atom.spec.service.rights, ownerAtom.author, entries)
  }

  function DatasetFeedOf(pf: Platform, atom: Atom, owner: OwnerInfo, ownerAtom: OwnerAtom, feed: DatasetFeed): Result<Feed> {
    var links :- DatasetLinks(pf, atom, owner, feed);
    Ok(Feed(
      Stylesheet(atom, ownerAtom), "", "", "", atom.spec.service.lang, FileURL(atom, feed.technicalName + ".xml"),
      EscapeQuotes(feed.title), EscapeQuotes(feed.subtitle), links, atom.spec.service.rights, feed.author,
      DatasetEntries(pf, atom, feed)))
  }

  function FeedResults(pf: Platform, atom: Atom, owner: OwnerInfo, ownerAtom: OwnerAtom): seq<Result<Feed>> {
    var feeds := atom.spec.service.datasetFeeds;
    seq(|feeds|, i requires 0 <= i < |feeds| => DatasetFeedOf(pf, atom, owner, ownerAtom, feeds[i]))
  }

  function DatasetFeedsOf(pf: Platform, atom: Atom, owner: OwnerInfo, ownerAtom: OwnerAtom): Result<seq<Feed>> {
    Collect(FeedResults(pf, atom, owner, ownerAtom))
  }

  const SERVICE_HTML_TITLE := "NGR pagina voor deze download service"

  function GeneratorConfig(pf: Platform, atom: Atom, owner: OwnerInfo): Result<seq<Feed>> {
    if owner.atom.None? then Err(NoAtomInfo) else
    var metadata :- OptionalMetadataLinks(pf, owner, atom.spec.service.serviceMetadataLinks, SERVICE_HTML_TITLE, false);
    var entries :- ServiceEntries(pf, atom, owner);
    var feeds :- DatasetFeedsOf(pf, atom, owner, owner.atom.value);
    Ok([ServiceFeed(atom, owner.atom.value, [SelfLink(atom)] + metadata, entries)] + feeds)
  }

  method MapAtomV3ToAtomGeneratorConfig(pf: Platform, atom: Atom, owner: OwnerInfo) returns (result: Result<seq<Feed>>)
    ensures result == GeneratorConfig(pf, atom, owner)
  {
    if owner.atom.None? {
      return Err(NoAtomInfo);
    }
    var links := [SelfLink(atom)];
    if atom.spec.service.serviceMetadataLinks.Some? {
      var added := AddMetadataLinks(pf, atom.spec.service.serviceMetadataLinks.value, owner, links, SERVICE_HTML_TITLE, false);
      if added.Err? {
        return Err(added.error);
      }
      links := added.value;
    }
    var entries := GetServiceEntries(pf, atom, owner);
    if entries.Err? {
      return Err(entries.error);
    }
    assert [SelfLink(atom)] + [] == [SelfLink(atom)];
    var config := [ServiceFeed(atom, owner.atom.value, links, entries.value)];
    var feeds := GetDatasetFeeds(pf, atom, owner, owner.atom.value);
    if feeds.Err? {
      return Err(feeds.error);
    }
    return Ok(config + feeds.value);
  }

  method GetDatasetFeeds(pf: Platform, atom: Atom, owner: OwnerInfo, ownerAtom: OwnerAtom) returns (result: Result<seq<Feed>>)
    ensures result == DatasetFeedsOf(pf, atom, owner, ownerAtom)
  {
    var feeds := atom.spec.service.datasetFeeds;
    ghost var results := FeedResults(pf, atom, owner, ownerAtom);
    var config: seq<Feed> := [];
    for k := 0 to |feeds|
      invariant Collect(results[..k]) == Ok(config)
    {
      CollectStep(results, k, config);
      var feed := GetDatasetFeed(pf, atom, owner, ownerAtom, feeds[k]);
      if feed.Err? {
        return Err(feed.error);
      }
      config := config + [feed.value];
    }
    assert results[..|feeds|] == results;
    return Ok(config);
  }

  method GetDatasetFeed(pf: Platform, atom: Atom, owner: OwnerInfo, ownerAtom: OwnerAtom, feed: DatasetFeed)
    returns (result: Result<Feed>)
    ensures result == DatasetFeedOf(pf, atom, owner, ownerAtom, feed)
  {
    var links := GetDatasetLinks(pf, atom, owner, feed);
    if links.Err? {
      return Err(links.error);
    }
    var entries := GetDatasetEntries(pf, atom, feed);
    return Ok(Feed(
      Stylesheet(atom, ownerAtom), "", "", "", atom.spec.service.lang, FileURL(atom, feed.technicalName + ".xml"),
      EscapeQuotes(feed.title), EscapeQuotes(feed.subtitle), links.value, atom.spec.service.rights,
      feed.author, entries));
  }
}
