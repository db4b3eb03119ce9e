/** The ids that the generated configuration publishes, of feeds and of the entries of dataset feeds. */
module FeedIds {
  import opened Wrappers
  import opened Sequences
  import opened Urls
  import opened AtomTypes
  import opened FeedTypes
  import opened Platforms
  import opened Mapper
  import opened Validation
  import opened FeedAgreement

  function IdsOf(entries: seq<FeedEntry>): seq<string> {
    seq(|entries|, k requires 0 <= k < |entries| => entries[k].id)
  }

  function FeedIdsOf(config: seq<Feed>): seq<string> {
    seq(|config|, k requires 0 <= k < |config| => config[k].id)
  }

  function EntryIdLists(feeds: seq<Feed>): seq<seq<string>> {
    seq(|feeds|, k requires 0 <= k < |feeds| => IdsOf(feeds[k].entries))
  }

  /**
   * The ids of all feeds and of all entries of dataset feeds. The entries of the index feed stand for the
   * dataset feeds and share their ids on purpose.
   */
  function PublishedIds(config: seq<Feed>): seq<string>
    requires config != []
  {
    FeedIdsOf(config) + Flatten(EntryIdLists(config[1..]))
  }

  function EntryNameLists(feeds: seq<DatasetFeed>): seq<seq<string>> {
    seq(|feeds|, k requires 0 <= k < |feeds| => EntryNames(feeds[k].entries))
  }

  /** The name of the index, those of the feeds, and those of all their entries. */
  function PublishedNames(atom: Atom): seq<string> {
    var feeds := atom.spec.service.datasetFeeds;
    ["index"] + FeedNames(feeds) + Flatten(EntryNameLists(feeds))
  }

  /** The URLs of the files with these names. */
  function FileURLs(atom: Atom, names: seq<string>): seq<string> {
    seq(|names|, k requires 0 <= k < |names| => FileURL(atom, names[k] + ".xml"))
  }

  // ----- Ids are the URLs of files

  function FileURLLists(atom: Atom, lists: seq<seq<string>>): seq<seq<string>> {
    seq(|lists|, k requires 0 <= k < |lists| => FileURLs(atom, lists[k]))
  }

  lemma FileURLsAppend(atom: Atom, a: seq<string>, b: seq<string>)
    ensures FileURLs(atom, a + b) == FileURLs(atom, a) + FileURLs(atom, b)
  {
  }

  lemma {:induction false} FileURLsFlatten(atom: Atom, lists: seq<seq<string>>)
    ensures Flatten(FileURLLists(atom, lists)) == FileURLs(atom, Flatten(lists))
  {
    if lists != [] {
      var init, last := lists[..|lists| - 1], lists[|lists| - 1];
      FileURLsFlatten(atom, init);
      FileURLsAppend(atom, Flatten(init), last);
      assert FileURLLists(atom, lists)[..|init|] == FileURLLists(atom, init);
    }
  }

  lemma FeedEntryIds(pf: Platform, atom: Atom, owner: OwnerInfo, i: nat)
    requires GeneratorConfig(pf, atom, owner).Ok? && i < |atom.spec.service.datasetFeeds|
    ensures var config := GeneratorConfig(pf, atom, owner).value;
            i + 1 < |config| &&
            IdsOf(config[i + 1].entries) == FileURLs(atom, EntryNames(atom.spec.service.datasetFeeds[i].entries))
  {
    ConfigShape(pf, atom, owner);
    var feed, results := atom.spec.service.datasetFeeds[i], FeedResults(pf, atom, owner, owner.atom.value);
    CollectOk(results);
    assert results[i] == DatasetFeedOf(pf, atom, owner, owner.atom.value, feed);
    EntriesOfFeed(pf, atom, owner, owner.atom.value, feed);
    EntryIds(pf, atom, feed);
  }

  lemma EntriesOfFeed(pf: Platform, atom: Atom, owner: OwnerInfo, ownerAtom: OwnerAtom, feed: DatasetFeed)
    requires DatasetFeedOf(pf, atom, owner, ownerAtom, feed).Ok?
    ensures DatasetFeedOf(pf, atom, owner, ownerAtom, feed).value.entries == DatasetEntries(pf, atom, feed)
  {
  }

  lemma EntryIds(pf: Platform, atom: Atom, feed: DatasetFeed)
    ensures IdsOf(DatasetEntries(pf, atom, feed)) == FileURLs(atom, EntryNames(feed.entries))
  {
  }

  /** Every published id is the URL of the file of its name. */
  lemma IdsAreFileURLs(pf: Platform, atom: Atom, owner: OwnerInfo)
    requires GeneratorConfig(pf, atom, owner).Ok?
    ensures var config := GeneratorConfig(pf, atom, owner).value;
            config != [] && PublishedIds(config) == FileURLs(atom, PublishedNames(atom))
  {
    var config, feeds := GeneratorConfig(pf, atom, owner).value, atom.spec.service.datasetFeeds;
    var lists := EntryNameLists(feeds);
    ConfigLength(pf, atom, owner);
    FeedIdList(pf, atom, owner);
    forall k | 0 <= k < |feeds|
      ensures EntryIdLists(config[1..])[k] == FileURLLists(atom, lists)[k]
    {
      FeedEntryIds(pf, atom, owner, k);
    }
    assert EntryIdLists(config[1..]) == FileURLLists(atom, lists);
    FileURLsFlatten(atom, lists);
    FileURLsAppend(atom, ["index"] + FeedNames(feeds), Flatten(lists));
  }

  lemma FeedIdList(pf: Platform, atom: Atom, owner: OwnerInfo)
    requires GeneratorConfig(pf, atom, owner).Ok?
    ensures FeedIdsOf(GeneratorConfig(pf, atom, owner).value)
            == FileURLs(atom, ["index"] + FeedNames(atom.spec.service.datasetFeeds))
  {
    IndexAgreesWithFeeds(pf, atom, owner);
    FeedIdsAreFileURLs(atom, GeneratorConfig(pf, atom, owner).value);
  }

  lemma FeedIdsAreFileURLs(atom: Atom, config: seq<Feed>)
    requires |config| == |atom.spec.service.datasetFeeds| + 1
    requires forall k :: 0 <= k < |config| ==> config[k].id == FileURL(atom, FeedFileAt(atom, k))
    ensures FeedIdsOf(config) == FileURLs(atom, ["index"] + FeedNames(atom.spec.service.datasetFeeds))
  {
    forall k | 0 <= k < |config|
      ensures config[k].id == FileURL(atom, (["index"] + FeedNames(atom.spec.service.datasetFeeds))[k] + ".xml")
    {
      FeedFileName(atom, k);
    }
  }

  lemma FeedFileName(atom: Atom, k: nat)
    requires k <= |atom.spec.service.datasetFeeds|
    ensures FeedFileAt(atom, k) == (["index"] + FeedNames(atom.spec.service.datasetFeeds))[k] + ".xml"
  {
    assert "index" + ".xml" == "index.xml";
  }

  // ----- When ids are unique

  predicate NoSlashes(names: seq<string>) {
    forall k :: 0 <= k < |names| ==> '/' !in names[k]
  }

  lemma FileURLsDiffer(atom: Atom, a: string, b: string)
    requires atom.spec.service.baseURL.Absolute() && CleanPath(atom.spec.service.baseURL.path)
    requires '/' !in a && '/' !in b
    ensures FileURL(atom, a + ".xml") == FileURL(atom, b + ".xml") <==> a == b
  {
    PlainFileName(a);
    PlainFileName(b);
    JoinOneInjective(atom.spec.service.baseURL, a + ".xml", b + ".xml");
    FileNamesDiffer(a, b);
  }

  lemma FileURLsUnique(atom: Atom, names: seq<string>)
    requires atom.spec.service.baseURL.Absolute() && CleanPath(atom.spec.service.baseURL.path) && NoSlashes(names)
    ensures NoDuplicates(FileURLs(atom, names)) <==> NoDuplicates(names)
  {
    forall i, j | 0 <= i < j < |names|
      ensures FileURLs(atom, names)[i] != FileURLs(atom, names)[j] <==> names[i] != names[j]
    {
      FileURLsDiffer(atom, names[i], names[j]);
    }
  }

  /**
   * No id is published twice, as section 4.2.6 of RFC 4287 asks of feeds and entries, exactly when the index,
   * the feeds and all their entries have pairwise different names. The webhook compares feed names with each
   * other, and entry names within one feed only.
   */
  lemma PublishedIdsUnique(pf: Platform, atom: Atom, owner: OwnerInfo)
    requires GeneratorConfig(pf, atom, owner).Ok? && NoSlashes(PublishedNames(atom))
    requires atom.spec.service.baseURL.Absolute() && CleanPath(atom.spec.service.baseURL.path)
    ensures GeneratorConfig(pf, atom, owner).value != []
    ensures NoDuplicates(PublishedIds(GeneratorConfig(pf, atom, owner).value)) <==> NoDuplicates(PublishedNames(atom))
  {
    IdsAreFileURLs(pf, atom, owner);
    FileURLsUnique(atom, PublishedNames(atom));
  }

  /**
   * What the webhook does not check: nothing but the index is named "index", and no entry is named like a feed
   * or like an entry of another feed.
   */
  ghost predicate NamesApart(feeds: seq<DatasetFeed>) {
    && Disjoint(["index"], FeedNames(feeds))
    && (forall k :: 0 <= k < |feeds| ==> Disjoint(["index"] + FeedNames(feeds), EntryNames(feeds[k].entries)))
    && (forall i, j :: 0 <= i < j < |feeds| ==> Disjoint(EntryNames(feeds[i].entries), EntryNames(feeds[j].entries)))
  }

  lemma NamesApartExactly(atom: Atom)
    requires WellFormedFeeds(atom.spec.service)
    ensures NoDuplicates(PublishedNames(atom)) <==> NamesApart(atom.spec.service.datasetFeeds)
  {
    var feeds := atom.spec.service.datasetFeeds;
    var lists, own := EntryNameLists(feeds), ["index"] + FeedNames(feeds);
    NoDuplicatesAppend(["index"], FeedNames(feeds));
    NoDuplicatesAppend(own, Flatten(lists));
    NoDuplicatesFlatten(lists);
    DisjointFlatten(own, lists);
    assert forall k :: 0 <= k < |feeds| ==>
             lists[k] == EntryNames(feeds[k].entries) && WellFormedFeed(atom.spec.service, feeds[k]);
  }

  /** So on accepted atoms ids are unique exactly when these names are apart. */
  lemma AcceptedIdsUnique(pf: Platform, atom: Atom, owner: OwnerInfo)
    requires AtomErrors(atom) == [] && GeneratorConfig(pf, atom, owner).Ok? && NoSlashes(PublishedNames(atom))
    requires atom.spec.service.baseURL.Absolute() && CleanPath(atom.spec.service.baseURL.path)
    ensures GeneratorConfig(pf, atom, owner).value != []
    ensures NoDuplicates(PublishedIds(GeneratorConfig(pf, atom, owner).value)) <==> NamesApart(atom.spec.service.datasetFeeds)
  {
    DatasetFeedErrorsExactly(atom);
    NamesApartExactly(atom);
    PublishedIdsUnique(pf, atom, owner);
  }
}
