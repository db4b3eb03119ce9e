/** From v3 to v2beta1 and back: which v3 atoms come back as they were, and that a second round trip changes nothing. */
module HubRoundTrips {
  import opened Wrappers
  import opened AtomTypes
  import opened V2Types
  import opened Conversion
  import opened ConversionLaws

  /** A list of results is the list of these values exactly when each result is. */
  lemma CollectIs<T>(results: seq<Result<T>>, values: seq<T>)
    requires |results| == |values|
    ensures Collect(results) == Ok(values) <==> forall k :: 0 <= k < |values| ==> results[k] == Ok(values[k])
  {
    CollectOk(results);
    if forall k :: 0 <= k < |values| ==> results[k] == Ok(values[k]) {
      assert forall k :: 0 <= k < |values| ==> results[k].Ok?;
      assert Collect(results).value == values;
    }
  }

  // ----- What comes back as it was

  /** Its numbers are written the way the codec prints them. */
  predicate BoxKept(codec: Codec, box: BBox) {
    HubBox(codec, SpokeBox(codec, box)) == box
  }

  predicate DownloadLinkKept(codec: Codec, link: DownloadLink) {
    link.rel != Some("") && (link.bbox.Some? ==> BoxKept(codec, link.bbox.value))
  }

  predicate LinkKept(codec: Codec, link: Link) {
    codec.parseURL(link.href.String()) == Some(link.href) && link.rel == "describedby" && link.title.Some?
  }

  /** v2beta1 has one box for all entries of a feed, taken from the first. */
  predicate EntryKept(codec: Codec, entry: Entry, first: BBox) {
    && entry.updated.nanos == 0 && entry.polygon == HubBox(codec, SpokeBox(codec, first))
    && codec.parseURL(entry.srs.uri.String()) == Some(entry.srs.uri)
    && forall k :: 0 <= k < |entry.downloadLinks| ==> DownloadLinkKept(codec, entry.downloadLinks[k])
  }

  predicate EntriesKept(codec: Codec, entries: seq<Entry>) {
    forall k :: 0 <= k < |entries| ==> EntryKept(codec, entries[k], entries[0].polygon)
  }

  predicate LinksKept(codec: Codec, links: seq<Link>) {
    forall k :: 0 <= k < |links| ==> LinkKept(codec, links[k])
  }

  predicate FeedKept(codec: Codec, feed: DatasetFeed) {
    && feed.datasetMetadataLinks.Some? && feed.datasetMetadataLinks.value.templates == DATASET_TEMPLATES
    && feed.author == PDOK_AUTHOR && feed.spatialDatasetIdentifierCode.Some?
    && feed.spatialDatasetIdentifierNamespace == Some("http://www.pdok.nl")
    && LinksKept(codec, feed.links) && EntriesKept(codec, feed.entries)
  }

  predicate FeedsKept(codec: Codec, feeds: seq<DatasetFeed>) {
    forall k :: 0 <= k < |feeds| ==> FeedKept(codec, feeds[k])
  }

  predicate ServiceKept(codec: Codec, host: string, labels: Labels, service: Service) {
    && CreateBaseURL(codec, host, SpokeGeneral(labels)) == Some(service.baseURL)
    && service.lang == "nl" && service.stylesheet.None? && service.ownerInfoRef == "pdok" && service.links == []
    && service.serviceMetadataLinks.Some? && service.serviceMetadataLinks.value.templates == SERVICE_TEMPLATES
    && FeedsKept(codec, service.datasetFeeds)
  }

  /** Nothing in the atom is lost or changed by the detour. */
  predicate Kept(codec: Codec, host: string, atom: Atom) {
    && atom.spec.lifecycle != Some(Lifecycle(None)) && atom.spec.ingressRouteURLs.None?
    && ServiceKept(codec, host, atom.meta.labels, atom.spec.service)
  }

  // ----- Piece by piece

  lemma DownloadLinkKeptExactly(codec: Codec, link: DownloadLink)
    ensures HubDownloadLink(codec, SpokeDownloadLink(codec, link)) == link <==> DownloadLinkKept(codec, link)
  {
  }

  lemma DownloadLinksKeptExactly(codec: Codec, links: seq<DownloadLink>)
    ensures HubDownloadLinks(codec, SpokeDownloadLinks(codec, links)) == links <==>
              forall k :: 0 <= k < |links| ==> DownloadLinkKept(codec, links[k])
  {
    var again := HubDownloadLinks(codec, SpokeDownloadLinks(codec, links));
    forall k | 0 <= k < |links|
      ensures again[k] == links[k] <==> DownloadLinkKept(codec, links[k])
    {
      DownloadLinkKeptExactly(codec, links[k]);
    }
    assert again == links <==> forall k :: 0 <= k < |links| ==> again[k] == links[k];
  }

  /** What is printed is read back, so the clock does not matter. */
  lemma UpdatedAgain(codec: Codec, now: Time, serviceUpdated: Option<string>, time: Time)
    requires RoundTrips(codec)
    ensures HubUpdated(codec, now, serviceUpdated, Some(codec.printTime(time))) == Truncated(time)
  {
  }

  lemma EntryKeptExactly(codec: Codec, now: Time, serviceUpdated: Option<string>, entry: Entry, first: BBox)
    requires RoundTrips(codec)
    ensures HubEntry(codec, now, serviceUpdated, SpokeBox(codec, first), SpokeDownload(codec, entry)) == Ok(entry) <==>
              EntryKept(codec, entry, first)
  {
    UpdatedAgain(codec, now, serviceUpdated, entry.updated);
    DownloadLinksKeptExactly(codec, entry.downloadLinks);
  }

  lemma EntriesKeptExactly(codec: Codec, moments: nat -> Time, serviceUpdated: Option<string>, box: V2Box, entries: seq<Entry>)
    requires RoundTrips(codec) && (entries != [] ==> box == SpokeBox(codec, entries[0].polygon))
    ensures Collect(HubEntryResults(codec, moments, serviceUpdated, box, SpokeDownloads(codec, entries))) == Ok(entries) <==>
              EntriesKept(codec, entries)
  {
    var results := HubEntryResults(codec, moments, serviceUpdated, box, SpokeDownloads(codec, entries));
    CollectIs(results, entries);
    forall k | 0 <= k < |entries|
      ensures results[k] == Ok(entries[k]) <==> EntryKept(codec, entries[k], entries[0].polygon)
    {
      EntryKeptExactly(codec, moments(k), serviceUpdated, entries[k], entries[0].polygon);
    }
  }

  lemma LinkKeptExactly(codec: Codec, link: Link)
    ensures HubLink(codec, SpokeLink(link)) == Ok(link) <==> LinkKept(codec, link)
  {
  }

  lemma LinksKeptExactly(codec: Codec, links: seq<Link>)
    ensures Collect(HubLinkResults(codec, SpokeLinks(links))) == Ok(links) <==> LinksKept(codec, links)
  {
    var results := HubLinkResults(codec, SpokeLinks(links));
    CollectIs(results, links);
    forall k | 0 <= k < |links|
      ensures results[k] == Ok(links[k]) <==> LinkKept(codec, links[k])
    {
      LinkKeptExactly(codec, links[k]);
    }
  }

  lemma FeedKeptExactly(codec: Codec, moments: nat -> Time, service: V2Service, feed: DatasetFeed)
    requires RoundTrips(codec) && service.author == PDOK_AUTHOR && SpokeDataset(codec, feed).Ok?
    ensures HubFeed(codec, moments, service, SpokeDataset(codec, feed).value) == Ok(feed) <==> FeedKept(codec, feed)
  {
    var dataset := SpokeDataset(codec, feed).value;
    LinksKeptExactly(codec, feed.links);
    EntriesKeptExactly(codec, moments, service.updated, dataset.bbox, feed.entries);
  }

  lemma FeedsKeptExactly(codec: Codec, clock: Clock, service: V2Service, feeds: seq<DatasetFeed>)
    requires RoundTrips(codec) && service.author == PDOK_AUTHOR
    requires Collect(SpokeDatasetResults(codec, feeds)) == Ok(service.datasets)
    ensures Collect(HubFeedResults(codec, clock, service)) == Ok(feeds) <==> FeedsKept(codec, feeds)
  {
    CollectOk(SpokeDatasetResults(codec, feeds));
    var results := HubFeedResults(codec, clock, service);
    CollectIs(results, feeds);
    forall k | 0 <= k < |feeds|
      ensures results[k] == Ok(feeds[k]) <==> FeedKept(codec, feeds[k])
    {
      assert SpokeDatasetResults(codec, feeds)[k] == Ok(service.datasets[k]);
      FeedKeptExactly(codec, clock(k), service, feeds[k]);
    }
  }

  lemma LifecycleKeptExactly(lifecycle: Option<Lifecycle>)
    ensures HubLifecycle(Some(SpokeKubernetes(lifecycle)), None) == lifecycle <==> lifecycle != Some(Lifecycle(None))
  {
    if lifecycle.Some? && lifecycle.value.ttlInDays.Some? {
      TTLKeptExactly(lifecycle.value.ttlInDays.value as int64);
    }
  }

  // ----- Main results

  /**
   * From v3 to v2beta1 and back to a fresh v3 atom: the atom comes back exactly when its base URL is the one its
   * labels lead to, it uses nothing that v2beta1 has no place for, and its texts are written as the codec prints them.
   */
  lemma HubKeptExactly(codec: Codec, host: string, clock: Clock, src: Atom)
    requires RoundTrips(codec) && Spoke(codec, src).Ok?
    ensures Hub(codec, host, clock, Spoke(codec, src).value, FRESH) == Ok(src) <==> Kept(codec, host, src)
  {
    var spoke, service := Spoke(codec, src).value, src.spec.service;
    FeedsKeptExactly(codec, clock, spoke.service, service.datasetFeeds);
    LifecycleKeptExactly(src.spec.lifecycle);
  }

  lemma PrintedIsWhole(codec: Codec, clock: Clock, src: Atom)
    requires RoundTrips(codec) && Spoke(codec, src).Ok?
    ensures ConvertsToNormal(codec, clock, Spoke(codec, src).value.service)
  {
    var feeds, service := src.spec.service.datasetFeeds, Spoke(codec, src).value.service;
    CollectOk(SpokeDatasetResults(codec, feeds));
    forall d, e | 0 <= d < |service.datasets| && 0 <= e < |service.datasets[d].downloads|
      ensures DownloadIsNormal(codec, clock(d)(e), service.updated, service.datasets[d].downloads[e])
    {
      assert SpokeDatasetResults(codec, feeds)[d] == Ok(service.datasets[d]);
      DownloadOfSpoke(codec, clock(d)(e), service.updated, feeds[d].entries[e]);
    }
  }

  lemma DownloadOfSpoke(codec: Codec, now: Time, serviceUpdated: Option<string>, entry: Entry)
    requires RoundTrips(codec)
    ensures DownloadIsNormal(codec, now, serviceUpdated, SpokeDownload(codec, entry))
  {
    UpdatedAgain(codec, now, serviceUpdated, entry.updated);
  }

  /** One round trip is enough: what comes back is kept by every later one, whatever the clock says then. */
  lemma OneRoundTripIsEnough(codec: Codec, host: string, clock: Clock, clock': Clock, src: Atom)
    requires RoundTrips(codec) && Spoke(codec, src).Ok?
    requires Hub(codec, host, clock, Spoke(codec, src).value, FRESH).Ok?
    ensures var again := Hub(codec, host, clock, Spoke(codec, src).value, FRESH).value;
            && Kept(codec, host, again) && Spoke(codec, again).Ok?
            && Hub(codec, host, clock', Spoke(codec, again).value, FRESH) == Ok(again)
  {
    var spoke := Spoke(codec, src).value;
    PrintedIsWhole(codec, clock, src);
    HubStableExactly(codec, host, clock, clock', spoke);
    HubKeptExactly(codec, host, clock', Hub(codec, host, clock, spoke, FRESH).value);
  }

  /** Whatever URLs the atom listed, what comes back is served at the URL its labels lead to, and nowhere else. */
  lemma ListedURLsAreLost(codec: Codec, host: string, clock: Clock, src: Atom)
    requires Spoke(codec, src).Ok? && Hub(codec, host, clock, Spoke(codec, src).value, FRESH).Ok?
    ensures CreateBaseURL(codec, host, SpokeGeneral(src.meta.labels)).Some?
    ensures Hub(codec, host, clock, Spoke(codec, src).value, FRESH).value.ServedURLs()
            == [CreateBaseURL(codec, host, SpokeGeneral(src.meta.labels)).value]
  {
  }
}
