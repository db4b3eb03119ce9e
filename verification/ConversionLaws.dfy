/** Going to the hub and back is a normalisation: doing it twice changes nothing more. */
module ConversionLaws {
  import opened Wrappers
  import opened Urls
  import opened AtomTypes
  import opened V2Types
  import opened Conversion

  // ----- The normal form of a converted atom

  function NormalDownloadLink(link: DownloadLink): DownloadLink {
    link.(rel := NonEmpty(link.rel))
  }

  function NormalDownloadLinks(links: seq<DownloadLink>): seq<DownloadLink> {
    seq(|links|, k requires 0 <= k < |links| => NormalDownloadLink(links[k]))
  }

  function NormalEntry(entry: Entry): Entry {
    entry.(updated := Truncated(entry.updated), downloadLinks := NormalDownloadLinks(entry.downloadLinks))
  }

  function NormalEntries(entries: seq<Entry>): seq<Entry> {
    seq(|entries|, k requires 0 <= k < |entries| => NormalEntry(entries[k]))
  }

  function NormalFeed(feed: DatasetFeed): DatasetFeed {
    feed.(author := PDOK_AUTHOR, entries := NormalEntries(feed.entries))
  }

  function NormalFeeds(feeds: seq<DatasetFeed>): seq<DatasetFeed> {
    seq(|feeds|, k requires 0 <= k < |feeds| => NormalFeed(feeds[k]))
  }

  /** The base URL from the labels, the fixed author, times in whole seconds, and no empty relations. */
  function Normal(atom: Atom, baseURL: URL): Atom {
    atom.(spec := atom.spec.(service := atom.spec.service.(
      baseURL := baseURL, datasetFeeds := NormalFeeds(atom.spec.service.datasetFeeds))))
  }

  const FRESH := AtomSpec(None, None, Service(URL("", "", "", ""), "", None, "", "", "", None, [], "", []))

  /** To the hub on a fresh v3 atom, and back. */
  function ThereAndBack(codec: Codec, host: string, clock: Clock, a: V2Atom): Result<V2Atom> {
    var hub :- Hub(codec, host, clock, a, FRESH);
    Spoke(codec, hub)
  }

  // ----- Piece by piece

  lemma BoxRoundTrip(codec: Codec, box: V2Box)
    requires RoundTrips(codec)
    ensures SpokeBox(codec, HubBox(codec, box)) == box
  {
  }

  lemma LinkRoundTrip(codec: Codec, link: OtherLink)
    requires RoundTrips(codec) && HubLink(codec, link).Ok?
    ensures HubLink(codec, SpokeLink(HubLink(codec, link).value)) == HubLink(codec, link)
  {
    assert codec.parseURL(link.uri) == Some(HubLink(codec, link).value.href);
  }

  lemma DownloadLinkRoundTrip(codec: Codec, link: V2Link)
    requires RoundTrips(codec)
    ensures HubDownloadLink(codec, SpokeDownloadLink(codec, HubDownloadLink(codec, link)))
            == NormalDownloadLink(HubDownloadLink(codec, link))
  {
    if link.bbox.Some? {
      BoxRoundTrip(codec, link.bbox.value);
    }
  }

  lemma DownloadLinksRoundTrip(codec: Codec, links: seq<V2Link>)
    requires RoundTrips(codec)
    ensures var hub := HubDownloadLinks(codec, links);
            HubDownloadLinks(codec, SpokeDownloadLinks(codec, hub)) == NormalDownloadLinks(hub)
  {
    forall k | 0 <= k < |links| {
      DownloadLinkRoundTrip(codec, links[k]);
    }
    var hub := HubDownloadLinks(codec, links);
    assert forall k :: 0 <= k < |links| ==>
             HubDownloadLinks(codec, SpokeDownloadLinks(codec, hub))[k] == NormalDownloadLinks(hub)[k];
  }

  lemma EntryRoundTrip(
    codec: Codec, now: Time, now': Time, serviceUpdated: Option<string>, serviceUpdated': Option<string>, box: V2Box,
    download: Download)
    requires RoundTrips(codec) && HubEntry(codec, now, serviceUpdated, box, download).Ok?
    ensures var hub := HubEntry(codec, now, serviceUpdated, box, download).value;
            HubEntry(codec, now', serviceUpdated', box, SpokeDownload(codec, hub)) == Ok(NormalEntry(hub))
  {
    var hub := HubEntry(codec, now, serviceUpdated, box, download).value;
    assert codec.parseURL(download.srs.uri) == Some(hub.srs.uri);
    DownloadLinksRoundTrip(codec, download.links);
    assert codec.parseTime(codec.printTime(hub.updated)) == Some(Truncated(hub.updated));
  }

  lemma LinksRoundTrip(codec: Codec, links: seq<OtherLink>)
    requires RoundTrips(codec) && Collect(HubLinkResults(codec, links)).Ok?
    ensures var hub := Collect(HubLinkResults(codec, links)).value;
            Collect(HubLinkResults(codec, SpokeLinks(hub))) == Ok(hub)
  {
    var results := HubLinkResults(codec, links);
    CollectOk(results);
    var hub := Collect(results).value;
    var again := HubLinkResults(codec, SpokeLinks(hub));
    forall k | 0 <= k < |links|
      ensures again[k] == Ok(hub[k])
    {
      assert results[k] == Ok(hub[k]);
      LinkRoundTrip(codec, links[k]);
    }
    CollectOk(again);
    assert Collect(again).value == hub;
  }

  lemma EntriesRoundTrip(
    codec: Codec, moments: nat -> Time, moments': nat -> Time, serviceUpdated: Option<string>, serviceUpdated': Option<string>, box: V2Box,
    downloads: seq<Download>)
    requires RoundTrips(codec) && Collect(HubEntryResults(codec, moments, serviceUpdated, box, downloads)).Ok?
    ensures var hub := Collect(HubEntryResults(codec, moments, serviceUpdated, box, downloads)).value;
            && Collect(HubEntryResults(codec, moments', serviceUpdated', box, SpokeDownloads(codec, hub))) == Ok(NormalEntries(hub))
            && (hub == [] <==> downloads == [])
            && (hub != [] ==> hub[0].polygon == HubBox(codec, box))
  {
    var results := HubEntryResults(codec, moments, serviceUpdated, box, downloads);
    CollectOk(results);
    var hub := Collect(results).value;
    var again := HubEntryResults(codec, moments', serviceUpdated', box, SpokeDownloads(codec, hub));
    forall k | 0 <= k < |downloads|
      ensures again[k] == Ok(NormalEntries(hub)[k]) && hub[k].polygon == HubBox(codec, box)
    {
      assert results[k] == Ok(hub[k]);
      EntryRoundTrip(codec, moments(k), moments'(k), serviceUpdated, serviceUpdated', box, downloads[k]);
    }
    CollectOk(again);
    assert Collect(again).value == NormalEntries(hub);
  }

  lemma FeedRoundTrip(
    codec: Codec, moments: nat -> Time, moments': nat -> Time, service: V2Service, service': V2Service, dataset: Dataset)
    requires RoundTrips(codec) && HubFeed(codec, moments, service, dataset).Ok?
    requires service'.author == PDOK_AUTHOR
    ensures var hub := HubFeed(codec, moments, service, dataset).value;
            && SpokeDataset(codec, hub).Ok?
            && HubFeed(codec, moments', service', SpokeDataset(codec, hub).value) == Ok(NormalFeed(hub))
  {
    var hub := HubFeed(codec, moments, service, dataset).value;
    var spoke := SpokeDataset(codec, hub).value;
    LinksRoundTrip(codec, dataset.links);
    EntriesRoundTrip(codec, moments, moments', service.updated, service'.updated, dataset.bbox, dataset.downloads);
    BoxRoundTrip(codec, dataset.bbox);
    assert spoke.links == SpokeLinks(hub.links) && spoke.downloads == SpokeDownloads(codec, hub.entries);
    if dataset.downloads == [] {
      assert spoke.downloads == [];
      assert HubEntryResults(codec, moments', service'.updated, spoke.bbox, []) == [];
      assert NormalEntries([]) == [];
    } else {
      assert spoke.bbox == dataset.bbox;
    }
  }

  lemma FeedsRoundTrip(codec: Codec, clock: Clock, clock': Clock, service: V2Service, service': V2Service)
    requires RoundTrips(codec) && Collect(HubFeedResults(codec, clock, service)).Ok?
    requires service'.author == PDOK_AUTHOR
    requires Collect(SpokeDatasetResults(codec, Collect(HubFeedResults(codec, clock, service)).value)) == Ok(service'.datasets)
    ensures Collect(HubFeedResults(codec, clock', service')) == Ok(NormalFeeds(Collect(HubFeedResults(codec, clock, service)).value))
  {
    var results := HubFeedResults(codec, clock, service);
    CollectOk(results);
    var hub := Collect(results).value;
    CollectOk(SpokeDatasetResults(codec, hub));
    var again := HubFeedResults(codec, clock', service');
    forall k | 0 <= k < |hub|
      ensures again[k] == Ok(NormalFeeds(hub)[k])
    {
      assert results[k] == Ok(hub[k]);
      assert SpokeDatasetResults(codec, hub)[k] == Ok(service'.datasets[k]);
      FeedRoundTrip(codec, clock(k), clock'(k), service, service', service.datasets[k]);
    }
    CollectOk(again);
    assert Collect(again).value == NormalFeeds(hub);
  }

  // ----- Back from the hub

  lemma SpokeOfConverted(codec: Codec, clock: Clock, service: V2Service)
    requires Collect(HubFeedResults(codec, clock, service)).Ok?
    ensures Collect(SpokeDatasetResults(codec, Collect(HubFeedResults(codec, clock, service)).value)).Ok?
  {
    var results := HubFeedResults(codec, clock, service);
    CollectOk(results);
    var hub := Collect(results).value;
    forall k | 0 <= k < |hub|
      ensures SpokeDatasetResults(codec, hub)[k].Ok?
    {
      assert results[k] == HubFeed(codec, clock(k), service, service.datasets[k]) == Ok(hub[k]);
    }
    CollectOk(SpokeDatasetResults(codec, hub));
  }

  /** Conversion from the hub panics exactly when the service or one of its feeds has no metadata links. */
  lemma SpokeTotalExactly(codec: Codec, src: Atom)
    ensures Spoke(codec, src).Ok? <==>
              src.spec.service.serviceMetadataLinks.Some? &&
              forall k :: 0 <= k < |src.spec.service.datasetFeeds| ==>
                src.spec.service.datasetFeeds[k].datasetMetadataLinks.Some?
  {
    var feeds := src.spec.service.datasetFeeds;
    CollectOk(SpokeDatasetResults(codec, feeds));
    assert forall k :: 0 <= k < |feeds| ==>
             (SpokeDatasetResults(codec, feeds)[k].Ok? <==> feeds[k].datasetMetadataLinks.Some?);
  }

  lemma SpokeDownloadOfNormal(codec: Codec, entry: Entry)
    requires RoundTrips(codec)
    ensures SpokeDownload(codec, NormalEntry(entry)) == SpokeDownload(codec, entry)
  {
    assert SpokeDownloadLinks(codec, NormalDownloadLinks(entry.downloadLinks)) == SpokeDownloadLinks(codec, entry.downloadLinks);
  }

  lemma SpokeDatasetOfNormal(codec: Codec, feed: DatasetFeed)
    requires RoundTrips(codec)
    ensures SpokeDataset(codec, NormalFeed(feed)) == SpokeDataset(codec, feed)
  {
    forall k | 0 <= k < |feed.entries|
      ensures SpokeDownloads(codec, NormalEntries(feed.entries))[k] == SpokeDownloads(codec, feed.entries)[k]
    {
      SpokeDownloadOfNormal(codec, feed.entries[k]);
    }
    assert SpokeDownloads(codec, NormalEntries(feed.entries)) == SpokeDownloads(codec, feed.entries);
  }

  /** The spoke does not see what normalising changes. */
  lemma SpokeOfNormal(codec: Codec, atom: Atom, baseURL: URL)
    requires RoundTrips(codec)
    ensures Spoke(codec, Normal(atom, baseURL)) == Spoke(codec, atom)
  {
    var feeds := atom.spec.service.datasetFeeds;
    forall k | 0 <= k < |feeds|
      ensures SpokeDatasetResults(codec, NormalFeeds(feeds))[k] == SpokeDatasetResults(codec, feeds)[k]
    {
      SpokeDatasetOfNormal(codec, feeds[k]);
    }
    assert SpokeDatasetResults(codec, NormalFeeds(feeds)) == SpokeDatasetResults(codec, feeds);
  }

  // ----- Main results

  /**
   * Hub, spoke, hub: converting back and forth leaves the v3 atom as it was but for four things, the base
   * URL, the authors, fractions of seconds and empty relations, which become those of the normal form.
   */
  lemma HubAgain(codec: Codec, host: string, clock: Clock, clock': Clock, a: V2Atom)
    requires RoundTrips(codec) && Hub(codec, host, clock, a, FRESH).Ok?
    ensures ThereAndBack(codec, host, clock, a).Ok?
    ensures CreateBaseURL(codec, host, SpokeGeneral(a.meta.labels)).Some?
    ensures var hub, baseURL := Hub(codec, host, clock, a, FRESH).value, CreateBaseURL(codec, host, SpokeGeneral(a.meta.labels)).value;
            Hub(codec, host, clock', ThereAndBack(codec, host, clock, a).value, FRESH) == Ok(Normal(hub, baseURL))
  {
    var hub := Hub(codec, host, clock, a, FRESH).value;
    SpokeOfConverted(codec, clock, a.service);
    var back := Spoke(codec, hub).value;
    FeedsRoundTrip(codec, clock, clock', a.service, back.service);
    var feeds, baseURL := hub.spec.service.datasetFeeds, CreateBaseURL(codec, host, SpokeGeneral(a.meta.labels)).value;
    assert HubLifecycle(back.kubernetes, None) == hub.spec.lifecycle by {
      if SpokeTTL(a.kubernetes).Some? {
        TTLKeptExactly(SpokeTTL(a.kubernetes).value);
      }
    }
    assert HubService(baseURL, back.service, NormalFeeds(feeds)) == Normal(hub, baseURL).spec.service;
  }

  /**
   * The conversion pair is a projection: applying it twice equals applying it once, for every v2beta1 atom
   * on which it succeeds and whatever the clock says.
   */
  lemma ThereAndBackTwice(codec: Codec, host: string, clock: Clock, clock': Clock, a: V2Atom)
    requires RoundTrips(codec) && ThereAndBack(codec, host, clock, a).Ok?
    ensures ThereAndBack(codec, host, clock', ThereAndBack(codec, host, clock, a).value) == ThereAndBack(codec, host, clock, a)
  {
    HubAgain(codec, host, clock, clock', a);
    SpokeOfNormal(codec, Hub(codec, host, clock, a, FRESH).value, CreateBaseURL(codec, host, SpokeGeneral(a.meta.labels)).value);
  }

  /** What makes a converted atom its own normal form. */
  ghost predicate AlreadyNormal(service: Service) {
    forall f :: 0 <= f < |service.datasetFeeds| ==>
      && service.datasetFeeds[f].author == PDOK_AUTHOR
      && forall e :: 0 <= e < |service.datasetFeeds[f].entries| ==> NormalAlready(service.datasetFeeds[f].entries[e])
  }

  ghost predicate NormalAlready(entry: Entry) {
    entry.updated.nanos == 0 && forall k :: 0 <= k < |entry.downloadLinks| ==> entry.downloadLinks[k].rel != Some("")
  }

  lemma EntryNormalExactly(entry: Entry)
    ensures NormalEntry(entry) == entry <==> NormalAlready(entry)
  {
    var links := entry.downloadLinks;
    if NormalAlready(entry) {
      assert NormalDownloadLinks(links) == links;
    }
    if NormalDownloadLinks(links) == links {
      forall k | 0 <= k < |links|
        ensures links[k].rel != Some("")
      {
        assert NormalDownloadLinks(links)[k] == links[k];
      }
    }
  }

  lemma FeedNormalExactly(feed: DatasetFeed)
    ensures NormalFeed(feed) == feed <==>
              feed.author == PDOK_AUTHOR && forall e :: 0 <= e < |feed.entries| ==> NormalAlready(feed.entries[e])
  {
    var entries := feed.entries;
    forall e | 0 <= e < |entries|
      ensures NormalEntries(entries)[e] == entries[e] <==> NormalAlready(entries[e])
    {
      EntryNormalExactly(entries[e]);
    }
    if forall e :: 0 <= e < |entries| ==> NormalAlready(entries[e]) {
      assert NormalEntries(entries) == entries;
    }
  }

  lemma NormalExactly(atom: Atom, baseURL: URL)
    ensures Normal(atom, baseURL) == atom <==> baseURL == atom.spec.service.baseURL && AlreadyNormal(atom.spec.service)
  {
    var feeds := atom.spec.service.datasetFeeds;
    forall f | 0 <= f < |feeds|
      ensures NormalFeeds(feeds)[f] == feeds[f] <==>
                feeds[f].author == PDOK_AUTHOR && forall e :: 0 <= e < |feeds[f].entries| ==> NormalAlready(feeds[f].entries[e])
    {
      FeedNormalExactly(feeds[f]);
    }
    if AlreadyNormal(atom.spec.service) {
      assert NormalFeeds(feeds) == feeds;
    }
  }

  /** The v2beta1 side of it: what makes the atom convert into a normal form can be read off before converting. */
  ghost predicate ConvertsToNormal(codec: Codec, clock: Clock, service: V2Service) {
    forall d :: 0 <= d < |service.datasets| ==>
      && service.author == PDOK_AUTHOR
      && forall e :: 0 <= e < |service.datasets[d].downloads| ==>
           DownloadIsNormal(codec, clock(d)(e), service.updated, service.datasets[d].downloads[e])
  }

  /** Its time, read from its own text or the service's, or else from the clock, is whole, and no relation is empty. */
  ghost predicate DownloadIsNormal(codec: Codec, now: Time, serviceUpdated: Option<string>, download: Download) {
    && HubUpdated(codec, now, serviceUpdated, download.updated).nanos == 0
    && forall k :: 0 <= k < |download.links| ==> download.links[k].rel != Some("")
  }

  lemma DownloadIsNormalExactly(codec: Codec, now: Time, serviceUpdated: Option<string>, box: V2Box, download: Download)
    requires HubEntry(codec, now, serviceUpdated, box, download).Ok?
    ensures NormalAlready(HubEntry(codec, now, serviceUpdated, box, download).value) <==>
              DownloadIsNormal(codec, now, serviceUpdated, download)
  {
    var links := HubDownloadLinks(codec, download.links);
    assert forall k :: 0 <= k < |links| ==> links[k].rel == download.links[k].rel;
  }

  lemma FeedIsNormalExactly(codec: Codec, moments: nat -> Time, service: V2Service, dataset: Dataset)
    requires HubFeed(codec, moments, service, dataset).Ok?
    ensures var entries := HubFeed(codec, moments, service, dataset).value.entries;
            (forall e :: 0 <= e < |entries| ==> NormalAlready(entries[e])) <==>
              forall e :: 0 <= e < |dataset.downloads| ==>
                DownloadIsNormal(codec, moments(e), service.updated, dataset.downloads[e])
  {
    var results := HubEntryResults(codec, moments, service.updated, dataset.bbox, dataset.downloads);
    CollectOk(results);
    var entries := HubFeed(codec, moments, service, dataset).value.entries;
    forall e | 0 <= e < |entries|
      ensures NormalAlready(entries[e]) <==> DownloadIsNormal(codec, moments(e), service.updated, dataset.downloads[e])
    {
      assert results[e] == Ok(entries[e]);
      DownloadIsNormalExactly(codec, moments(e), service.updated, dataset.bbox, dataset.downloads[e]);
    }
  }

  lemma ConvertsToNormalExactly(codec: Codec, clock: Clock, baseURL: URL, service: V2Service)
    requires Collect(HubFeedResults(codec, clock, service)).Ok?
    ensures AlreadyNormal(HubService(baseURL, service, Collect(HubFeedResults(codec, clock, service)).value)) <==>
              ConvertsToNormal(codec, clock, service)
  {
    var results := HubFeedResults(codec, clock, service);
    CollectOk(results);
    var feeds := Collect(results).value;
    forall d | 0 <= d < |feeds|
      ensures feeds[d].author == service.author
      ensures (forall e :: 0 <= e < |feeds[d].entries| ==> NormalAlready(feeds[d].entries[e])) <==>
                forall e :: 0 <= e < |service.datasets[d].downloads| ==>
                  DownloadIsNormal(codec, clock(d)(e), service.updated, service.datasets[d].downloads[e])
    {
      assert results[d] == Ok(feeds[d]);
      FeedIsNormalExactly(codec, clock(d), service, service.datasets[d]);
    }
  }

  /**
   * The hub is stable, ToV3(ConvertFrom(ToV3(a))) equal to ToV3(a), exactly when the labels lead to the same
   * base URL as the general block and, if there are datasets, the author is the fixed one, all times are in
   * whole seconds and no relation is empty. All of this is said of the v2beta1 atom and the clock.
   */
  lemma HubStableExactly(codec: Codec, host: string, clock: Clock, clock': Clock, a: V2Atom)
    requires RoundTrips(codec) && Hub(codec, host, clock, a, FRESH).Ok?
    ensures ThereAndBack(codec, host, clock, a).Ok?
    ensures Hub(codec, host, clock', ThereAndBack(codec, host, clock, a).value, FRESH) == Hub(codec, host, clock, a, FRESH) <==>
              CreateBaseURL(codec, host, SpokeGeneral(a.meta.labels)) == CreateBaseURL(codec, host, a.general) &&
              ConvertsToNormal(codec, clock, a.service)
  {
    HubAgain(codec, host, clock, clock', a);
    NormalExactly(Hub(codec, host, clock, a, FRESH).value, CreateBaseURL(codec, host, SpokeGeneral(a.meta.labels)).value);
    ConvertsToNormalExactly(codec, clock, CreateBaseURL(codec, host, a.general).value, a.service);
  }
}
