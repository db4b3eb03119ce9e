/** The published feeds agree with each other, with the routes and with the rewriting of downloads. */
module FeedAgreement {
  import opened Wrappers
  import opened Strings
  import opened Sequences
  import opened Urls
  import opened AtomTypes
  import opened KubeObjects
  import opened Traefik
  import opened Middlewares
  import opened RewriteChains
  import opened DownloadRouting
  import opened IngressRoutes
  import opened FeedTypes
  import opened Platforms
  import opened Mapper

  // ----- Escaping

  /** Drops every backslash that stands directly before a quote. */
  function Unescape(s: string): string {
    if s == "" then ""
    else if |s| > 1 && s[0] == '\\' && s[1] == '"' then "\"" + Unescape(s[2..])
    else [s[0]] + Unescape(s[1..])
  }

  /** Escaping can be undone, whatever quotes and backslashes the text already holds. */
  lemma {:induction false} UnescapeEscape(s: string)
    ensures Unescape(EscapeQuotes(s)) == s
  {
    if s != "" {
      UnescapeEscape(s[1..]);
      var rest := EscapeQuotes(s[1..]);
      if s[0] == '"' {
        assert EscapeQuotes(s) == "\\\"" + rest && ("\\\"" + rest)[2..] == rest;
      } else {
        // The escaped rest never starts with a quote, so nothing is read into the first character.
        assert rest == "" || rest[0] != '"';
        assert EscapeQuotes(s) == [s[0]] + rest && ([s[0]] + rest)[1..] == rest;
      }
      assert s == [s[0]] + s[1..];
    }
  }

  lemma EscapeInjective(s: string, t: string)
    requires EscapeQuotes(s) == EscapeQuotes(t)
    ensures s == t
  {
    UnescapeEscape(s);
    UnescapeEscape(t);
  }

  lemma {:induction false} EscapeConcat(s: string, t: string)
    ensures EscapeQuotes(s + t) == EscapeQuotes(s) + EscapeQuotes(t)
  {
    if s == "" {
      assert s + t == t;
    } else {
      EscapeConcat(s[1..], t);
      assert (s + t)[1..] == s[1..] + t;
      ConcatAssociative(EscapeChar(s[0]), EscapeQuotes(s[1..]), EscapeQuotes(t));
    }
  }

  lemma {:induction false} EscapeGrows(s: string)
    ensures |EscapeQuotes(s)| >= |s|
  {
    if s != "" {
      EscapeGrows(s[1..]);
    }
  }

  /** Escaping leaves exactly the texts without a quote alone. */
  lemma {:induction false} EscapeKeepsExactly(s: string)
    ensures EscapeQuotes(s) == s <==> '"' !in s
  {
    if s != "" {
      EscapeKeepsExactly(s[1..]);
      EscapeGrows(s[1..]);
      assert s == [s[0]] + s[1..];
      assert s[0] != '"' ==> EscapeQuotes(s)[1..] == EscapeQuotes(s[1..]);
    }
  }

  /** An entry without a title has no say, an empty title goes with an empty one of the feed, others hold no quote. */
  predicate TitlesMatch(feed: DatasetFeed, entry: Entry) {
    match entry.title
    case None => true
    case Some(title) => if title == "" then feed.title == "" else '"' !in title
  }

  /**
   * The title of a download link is that of its entry, a dash and the file name, exactly when the entry's own
   * title needs no escaping; an empty title, which the schema refuses, makes it that of the feed.
   */
  lemma LinkTitleExactly(pf: Platform, atom: Atom, feed: DatasetFeed, entry: Entry, link: DownloadLink)
    ensures DownloadFeedLink(pf, atom, feed, entry, link).title
            == DatasetEntry(pf, atom, feed, entry).title + " - " + link.GetBlobName()
            <==> TitlesMatch(feed, entry)
  {
    var own := if entry.title.Some? && entry.title.value != "" then entry.title.value else EscapeQuotes(feed.title);
    var published := EscapeQuotes(if entry.title.Some? then entry.title.value else feed.title);
    SuffixSettles(own, published, link.GetBlobName());
    EscapeKeepsExactly(own);
    EscapeGrows(feed.title);
  }

  lemma SuffixSettles(a: string, b: string, name: string)
    ensures a + " - " + name == b + " - " + name <==> a == b
  {
    if a + " - " + name == b + " - " + name {
      CancelSuffix(a + " - ", b + " - ", name);
      CancelSuffix(a, b, " - ");
    }
  }

  // ----- Index, feeds and ids

  /** The alternate link of an index entry and the self link of a feed. */
  ghost predicate EntryPointsAt(entry: FeedEntry, feed: Feed) {
    && entry.id == feed.id
    && entry.links != [] && entry.links[|entry.links| - 1].rel == "alternate"
    && entry.links[|entry.links| - 1].href == feed.id
    && feed.links != [] && feed.links[0].rel == "self" && feed.links[0].href == feed.id
    && entry.title == feed.title && entry.summary == feed.subtitle
  }

  lemma EntryAgreesWithFeed(pf: Platform, atom: Atom, owner: OwnerInfo, ownerAtom: OwnerAtom, feed: DatasetFeed)
    requires ServiceEntry(pf, atom, owner, feed).Ok? && DatasetFeedOf(pf, atom, owner, ownerAtom, feed).Ok?
    ensures EntryPointsAt(ServiceEntry(pf, atom, owner, feed).value, DatasetFeedOf(pf, atom, owner, ownerAtom, feed).value)
    ensures DatasetFeedOf(pf, atom, owner, ownerAtom, feed).value.id == FileURL(atom, feed.technicalName + ".xml")
  {
  }

  /** The file of the feed with the given position in the configuration: the index comes first. */
  function FeedFileAt(atom: Atom, k: nat): string
    requires k <= |atom.spec.service.datasetFeeds|
  {
    if k == 0 then "index.xml" else atom.spec.service.datasetFeeds[k - 1].technicalName + ".xml"
  }

  lemma ConfigShape(pf: Platform, atom: Atom, owner: OwnerInfo)
    requires GeneratorConfig(pf, atom, owner).Ok?
    ensures owner.atom.Some?
    ensures ServiceEntries(pf, atom, owner).Ok? && DatasetFeedsOf(pf, atom, owner, owner.atom.value).Ok?
    ensures var config := GeneratorConfig(pf, atom, owner).value;
            && config != []
            && config[1..] == DatasetFeedsOf(pf, atom, owner, owner.atom.value).value
            && config[0].entries == ServiceEntries(pf, atom, owner).value
            && config[0].id == FileURL(atom, "index.xml")
  {
  }

  lemma ConfigAt(pf: Platform, atom: Atom, owner: OwnerInfo, i: nat)
    requires GeneratorConfig(pf, atom, owner).Ok? && i < |atom.spec.service.datasetFeeds|
    ensures var config := GeneratorConfig(pf, atom, owner).value;
            && i + 1 < |config| && i < |config[0].entries|
            && config[i + 1].id == FileURL(atom, FeedFileAt(atom, i + 1))
            && EntryPointsAt(config[0].entries[i], config[i + 1])
  {
    ConfigShape(pf, atom, owner);
    var results, results' := EntryResults(pf, atom, owner), FeedResults(pf, atom, owner, owner.atom.value);
    CollectOk(results);
    CollectOk(results');
    assert results[i] == Ok(ServiceEntries(pf, atom, owner).value[i]);
    assert results'[i] == Ok(DatasetFeedsOf(pf, atom, owner, owner.atom.value).value[i]);
    EntryAgreesWithFeed(pf, atom, owner, owner.atom.value, atom.spec.service.datasetFeeds[i]);
  }

  lemma ConfigLength(pf: Platform, atom: Atom, owner: OwnerInfo)
    requires GeneratorConfig(pf, atom, owner).Ok?
    ensures |GeneratorConfig(pf, atom, owner).value| == |atom.spec.service.datasetFeeds| + 1
    ensures |GeneratorConfig(pf, atom, owner).value[0].entries| == |atom.spec.service.datasetFeeds|
  {
    ConfigShape(pf, atom, owner);
    CollectOk(EntryResults(pf, atom, owner));
    CollectOk(FeedResults(pf, atom, owner, owner.atom.value));
  }

  /**
   * The configuration is the index feed followed by one feed per dataset, each with the URL of its file as
   * its id; the i-th index entry carries the id, alternate link and texts of the i-th of these feeds.
   */
  lemma IndexAgreesWithFeeds(pf: Platform, atom: Atom, owner: OwnerInfo)
    requires GeneratorConfig(pf, atom, owner).Ok?
    ensures var config, n := GeneratorConfig(pf, atom, owner).value, |atom.spec.service.datasetFeeds|;
            && |config| == n + 1
            && |config[0].entries| == n
            && (forall k :: 0 <= k <= n ==> config[k].id == FileURL(atom, FeedFileAt(atom, k)))
            && (forall i :: 0 <= i < n ==> EntryPointsAt(config[0].entries[i], config[i + 1]))
  {
    var config, n := GeneratorConfig(pf, atom, owner).value, |atom.spec.service.datasetFeeds|;
    ConfigShape(pf, atom, owner);
    ConfigLength(pf, atom, owner);
    forall k | 0 <= k <= n
      ensures config[k].id == FileURL(atom, FeedFileAt(atom, k))
    {
      if k > 0 {
        ConfigAt(pf, atom, owner, k - 1);
      }
    }
    forall i | 0 <= i < n
      ensures EntryPointsAt(config[0].entries[i], config[i + 1])
    {
      ConfigAt(pf, atom, owner, i);
    }
  }

  /** The base URL and the feed names need no cleaning. */
  predicate PlainNames(atom: Atom) {
    var base, feeds := atom.spec.service.baseURL, atom.spec.service.datasetFeeds;
    base.Absolute() && CleanPath(base.path) &&
    forall i :: 0 <= i < |feeds| ==> '/' !in feeds[i].technicalName
  }

  lemma PlainFileName(name: string)
    requires '/' !in name
    ensures PlainSegment(name + ".xml")
  {
    assert (name + ".xml")[|name| + 1] == 'x';
    assert '/' !in ".xml";
  }

  lemma FileNamesDiffer(a: string, b: string)
    ensures a + ".xml" == b + ".xml" <==> a == b
  {
    if a + ".xml" == b + ".xml" {
      CancelSuffix(a, b, ".xml");
    }
  }

  ghost predicate IdsUnique(config: seq<Feed>) {
    forall i, j :: 0 <= i < j < |config| ==> config[i].id != config[j].id
  }

  ghost predicate NamesUnique(feeds: seq<DatasetFeed>) {
    (forall i, j :: 0 <= i < j < |feeds| ==> feeds[i].technicalName != feeds[j].technicalName) &&
    (forall i :: 0 <= i < |feeds| ==> feeds[i].technicalName != "index")
  }

  lemma NamesWithIndex(atom: Atom)
    ensures NamesUnique(atom.spec.service.datasetFeeds) <==>
              forall i, j :: 0 <= i < j <= |atom.spec.service.datasetFeeds| ==> NameAt(atom, i) != NameAt(atom, j)
  {
    var feeds := atom.spec.service.datasetFeeds;
    assert forall i :: 0 <= i < |feeds| ==> NameAt(atom, i + 1) == feeds[i].technicalName;
    if forall i, j :: 0 <= i < j <= |feeds| ==> NameAt(atom, i) != NameAt(atom, j) {
      forall i, j | 0 <= i < j < |feeds|
        ensures feeds[i].technicalName != feeds[j].technicalName
      {
        assert NameAt(atom, i + 1) != NameAt(atom, j + 1);
      }
      forall i | 0 <= i < |feeds|
        ensures feeds[i].technicalName != "index"
      {
        assert NameAt(atom, 0) != NameAt(atom, i + 1);
      }
    }
  }

  /**
   * Feed ids are unique, as section 4.2.6 of RFC 4287 asks, exactly when the feed names are pairwise
   * different and none of them is "index". The webhook checks the first but not the second.
   */
  lemma FeedIdsUnique(pf: Platform, atom: Atom, owner: OwnerInfo)
    requires GeneratorConfig(pf, atom, owner).Ok? && PlainNames(atom)
    ensures IdsUnique(GeneratorConfig(pf, atom, owner).value) <==> NamesUnique(atom.spec.service.datasetFeeds)
  {
    IndexAgreesWithFeeds(pf, atom, owner);
    FileIdsUnique(atom, GeneratorConfig(pf, atom, owner).value);
  }

  lemma FileIdsUnique(atom: Atom, config: seq<Feed>)
    requires PlainNames(atom) && |config| == |atom.spec.service.datasetFeeds| + 1
    requires forall k :: 0 <= k < |config| ==> config[k].id == FileURL(atom, FeedFileAt(atom, k))
    ensures IdsUnique(config) <==> NamesUnique(atom.spec.service.datasetFeeds)
  {
    NamesWithIndex(atom);
    forall i, j | 0 <= i < j < |config|
      ensures config[i].id != config[j].id <==> NameAt(atom, i) != NameAt(atom, j)
    {
      PairDiffers(atom, config, i, j);
    }
    PairsDiffer(atom, config);
  }

  lemma PairDiffers(atom: Atom, config: seq<Feed>, i: nat, j: nat)
    requires PlainNames(atom) && |config| == |atom.spec.service.datasetFeeds| + 1 && i < j < |config|
    requires config[i].id == FileURL(atom, FeedFileAt(atom, i)) && config[j].id == FileURL(atom, FeedFileAt(atom, j))
    ensures config[i].id != config[j].id <==> NameAt(atom, i) != NameAt(atom, j)
  {
    IdsDiffer(atom, i, j);
  }

  lemma PairsDiffer(atom: Atom, config: seq<Feed>)
    requires |config| == |atom.spec.service.datasetFeeds| + 1
    requires forall i, j :: 0 <= i < j < |config| ==> (config[i].id != config[j].id <==> NameAt(atom, i) != NameAt(atom, j))
    ensures IdsUnique(config) <==> forall i, j :: 0 <= i < j < |config| ==> NameAt(atom, i) != NameAt(atom, j)
  {
  }

  function NameAt(atom: Atom, k: nat): string
    requires k <= |atom.spec.service.datasetFeeds|
  {
    if k == 0 then "index" else atom.spec.service.datasetFeeds[k - 1].technicalName
  }

  lemma IdsDiffer(atom: Atom, i: nat, j: nat)
    requires PlainNames(atom)
    requires i <= |atom.spec.service.datasetFeeds| && j <= |atom.spec.service.datasetFeeds|
    ensures FileURL(atom, FeedFileAt(atom, i)) == FileURL(atom, FeedFileAt(atom, j)) <==> NameAt(atom, i) == NameAt(atom, j)
  {
    assert FeedFileAt(atom, i) == NameAt(atom, i) + ".xml" && FeedFileAt(atom, j) == NameAt(atom, j) + ".xml";
    PlainFileName(NameAt(atom, i));
    PlainFileName(NameAt(atom, j));
    JoinOneInjective(atom.spec.service.baseURL, FeedFileAt(atom, i), FeedFileAt(atom, j));
    FileNamesDiffer(NameAt(atom, i), NameAt(atom, j));
  }

  /** Where the base URL is served, the URL in each feed's id is that of a route to the atom's service. */
  lemma FeedIdsAreRouted(pf: Platform, atom: Atom, owner: OwnerInfo, uptime: UptimeAnnotations, stored: IngressRoute, k: nat)
    requires GeneratorConfig(pf, atom, owner).Ok? && PlainNames(atom) && AllSliceable(DownloadLinks(atom))
    requires atom.spec.service.baseURL in atom.ServedURLs() && NoBacktick(atom.spec.service.baseURL)
    requires k <= |atom.spec.service.datasetFeeds| && '`' !in NameAt(atom, k)
    ensures var base, file := atom.spec.service.baseURL, FeedFileAt(atom, k);
            && k < |GeneratorConfig(pf, atom, owner).value|
            && GeneratorConfig(pf, atom, owner).value[k].id == base.(path := base.path + "/" + file).String()
            && exists route :: route in IngressRouteFor(atom, uptime, stored).routes && ServesFile(atom, route, base, file)
  {
    IndexAgreesWithFeeds(pf, atom, owner);
    FeedFilePlain(atom, k);
    JoinOne(atom.spec.service.baseURL.path, FeedFileAt(atom, k));
    ServedURLHasItsRoutes(atom, uptime, stored, atom.spec.service.baseURL);
  }

  lemma FeedFilePlain(atom: Atom, k: nat)
    requires PlainNames(atom) && k <= |atom.spec.service.datasetFeeds| && '`' !in NameAt(atom, k)
    ensures FeedFile(atom, FeedFileAt(atom, k)) && PlainFile(FeedFileAt(atom, k))
  {
    assert FeedFileAt(atom, k) == NameAt(atom, k) + ".xml";
    PlainFileName(NameAt(atom, k));
    assert '`' !in ".xml";
  }

  // ----- Relations of download links

  /** How many links of an entry carry the relation "alternate" explicitly, and in the feed. */
  function ExplicitAlternates(links: seq<DownloadLink>): nat {
    if links == [] then 0
    else ExplicitAlternates(links[..|links| - 1]) + if links[|links| - 1].rel == Some("alternate") then 1 else 0
  }

  function Alternates(links: seq<FeedLink>): nat {
    if links == [] then 0
    else Alternates(links[..|links| - 1]) + if links[|links| - 1].rel == "alternate" then 1 else 0
  }

  /** The relations that links get when a given number of links has none. */
  lemma {:induction false} AlternatesAddUp(links: seq<DownloadLink>, mapped: seq<FeedLink>, empties: nat)
    requires |mapped| == |links|
    requires forall k :: 0 <= k < |links| ==> mapped[k].rel == DownloadLinkRel(links[k], empties)
    ensures Alternates(mapped) == ExplicitAlternates(links) + if empties > 1 then 0 else EmptyRelCount(links)
  {
    if links != [] {
      var n := |links| - 1;
      AlternatesAddUp(links[..n], mapped[..n], empties);
      assert mapped[n].rel == DownloadLinkRel(links[n], empties);
    }
  }

  /**
   * Relation defaulting: no link of the feed is without a relation, explicit relations are kept, and the
   * number of alternates is that of the explicit ones, plus one if exactly one link had no relation. So an
   * entry without an explicit alternate has at most one.
   */
  lemma RelationsDefaulted(pf: Platform, atom: Atom, feed: DatasetFeed, entry: Entry)
    ensures var links, mapped := entry.downloadLinks, DownloadFeedLinks(pf, atom, feed, entry);
            && |mapped| == |links|
            && (forall k :: 0 <= k < |links| ==> mapped[k].rel != "")
            && (forall k :: 0 <= k < |links| && !HasEmptyRel(links[k]) ==> Some(mapped[k].rel) == links[k].rel)
            && Alternates(mapped) == ExplicitAlternates(links) + if EmptyRelCount(links) == 1 then 1 else 0
  {
    var links, mapped := entry.downloadLinks, DownloadFeedLinks(pf, atom, feed, entry);
    forall k | 0 <= k < |links|
      ensures mapped[k].rel == DownloadLinkRel(links[k], EmptyRelCount(links))
      ensures mapped[k].rel != "" && (!HasEmptyRel(links[k]) ==> Some(mapped[k].rel) == links[k].rel)
    {
      RelationOf(pf, atom, feed, entry, k);
    }
    AlternatesAddUp(links, mapped, EmptyRelCount(links));
  }

  lemma RelationOf(pf: Platform, atom: Atom, feed: DatasetFeed, entry: Entry, k: nat)
    requires k < |entry.downloadLinks|
    ensures var link, rel := entry.downloadLinks[k], DownloadFeedLinks(pf, atom, feed, entry)[k].rel;
            && rel == DownloadLinkRel(link, EmptyRelCount(entry.downloadLinks))
            && rel != "" && (!HasEmptyRel(link) ==> Some(rel) == link.rel)
  {
  }

  // ----- Download links

  /** The published URL of a download is a download request, exactly when the base path is clean. */
  lemma PublishedDownloadPath(atom: Atom, link: DownloadLink)
    requires atom.spec.service.baseURL.Absolute() && PlainSegment(link.GetBlobName())
    ensures DownloadLinkURL(link, atom).path == Request(atom.spec.service.baseURL.path, link.GetBlobName())
            <==> CleanPath(atom.spec.service.baseURL.path)
  {
    var path, name := atom.spec.service.baseURL.path, link.GetBlobName();
    JoinTwoExactly(path, "downloads", name);
    assert path + "/" + "downloads" + "/" + name == Request(path, name);
  }

  /**
   * What a feed publishes for a download and what the middlewares do with it name the same blob: the path of
   * the href is rewritten to the path that the data URL has at the blob endpoint, if and only if no group
   * earlier in the chain claims the file name.
   */
  lemma PublishedLinkReachesItsData(pf: Platform, atom: Atom, feed: DatasetFeed, entry: Entry, link: DownloadLink)
    requires feed in atom.spec.service.datasetFeeds && entry in feed.entries && link in entry.downloadLinks
    requires Routable(atom) && PlainSegment(link.GetBlobName())
    requires Undisturbed(atom, atom.spec.service.baseURL.path, link.GetBlobName())
    requires atom.spec.service.baseURL.Absolute() && CleanPath(atom.spec.service.baseURL.path)
    requires atom.spec.service.baseURL in atom.ServedURLs()
    ensures link in DownloadLinks(atom)
    ensures var published, url := DownloadFeedLink(pf, atom, feed, entry, link), DownloadLinkURL(link, atom);
            && published.href == url.String()
            && published.data == Some(pf.blobEndpoint + "/" + link.data)
            && (RunMiddlewares(DownloadChain(atom), url.path) == Some("/" + link.data) <==>
                NotClaimedEarlier(atom, GroupIndex(atom, link), link.GetBlobName()))
  {
    DownloadLinksComplete(atom, link);
    PublishedDownloadPath(atom, link);
    DownloadReachesItsBlob(atom, link, atom.spec.service.baseURL);
  }
}
