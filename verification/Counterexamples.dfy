/** Inputs on which the exact conditions of the other modules fail, one for each thing that the code does not keep. */
module Counterexamples {
  import opened Wrappers
  import opened Strings
  import opened Sequences
  import opened Urls
  import opened AtomTypes
  import opened KubeObjects
  import opened Traefik
  import opened Middlewares
  import opened RewriteChains
  import opened DownloadRouting
  import opened IngressRoutes
  import opened RequestRouting
  import opened RollingUpdates
  import opened FeedTypes
  import opened Platforms
  import opened Reconciling
  import opened OperatorRuns
  import opened Neighbours
  import opened Mapper
  import opened Validation
  import opened SampleAtoms
  import opened Admission
  import opened FeedAgreement
  import opened FeedIds
  import opened Conversion
  import opened ConversionLaws
  import opened Lifetimes

  // ----- A download that another group captures

  lemma DigitTexts()
    ensures Itoa(0) == "0" && Itoa(1) == "1" && Itoa(2) == "2" && Itoa(10) == "10"
  {
    assert Itoa(1) == "1";
    assert Itoa(10) == Itoa(1) + "0";
  }

  /** A name in the second container that starts with a name in the first is captured by that. */
  lemma Captured(path: string, prefixes: seq<string>, name: string, more: string)
    requires |prefixes| == 2 && prefixes[0] != prefixes[1] && '/' !in name && '/' !in name + more
    requires PlainBlobs(path, prefixes, [name, name + more])
    ensures var atom := LinkAtom(path, [Blob(prefixes[0], name), Blob(prefixes[1], name + more)]);
            && Routable(atom) && Undisturbed(atom, path, name + more)
            && GroupIndex(atom, DownloadLinks(atom)[1]) == 1 && !NotClaimedEarlier(atom, 1, name + more)
            && RunMiddlewares(DownloadChain(atom), Request(path, name + more)) == Some(BlobPath(prefixes[0], name + more))
  {
    var links, names := [Blob(prefixes[0], name), Blob(prefixes[1], name + more)], [name, name + more];
    var atom := LinkAtom(path, links);
    LinksOfLinkAtom(path, links);
    SeparateIsRoutable(path, links, prefixes, names, name + more);
    SeparateGroups(links, prefixes, names);
    SeparateIndex(atom, prefixes, names, 1);
    CapturedByFirst(atom, path, name, more);
  }

  lemma CapturedByFirst(atom: Atom, path: string, name: string, more: string)
    requires Routable(atom) && Undisturbed(atom, path, name + more)
    requires |GroupOrder(DownloadLinks(atom))| == 2 && name in GroupTarget(atom, 0).files
    ensures !NotClaimedEarlier(atom, 1, name + more)
    ensures RunMiddlewares(DownloadChain(atom), Request(path, name + more))
            == Some(BlobPath(GroupTarget(atom, 0).prefix, name + more))
  {
    ClaimedByPrefix(GroupTarget(atom, 0).files, name, more);
    FirstOfTwo(atom, name + more);
    DownloadOutcome(atom, path, name + more);
    ZeroBeforeOne();
  }

  /** The file "x" of the container "c/a" captures the download "c/b/x1". */
  lemma CapturedDownload()
    ensures var atom := LinkAtom("/p", [Blob("c/a", "x"), Blob("c/b", "x1")]);
            && Accepted(atom) && Routable(atom) && Undisturbed(atom, "/p", "x1")
            && GroupIndex(atom, DownloadLinks(atom)[1]) == 1 && !NotClaimedEarlier(atom, 1, "x1")
            && RunMiddlewares(DownloadChain(atom), "/p/downloads/x1") == Some("/c/a/x1")
  {
    SmallTexts();
    Captured("/p", ["c/a", "c/b"], "x", "1");
    TwoBlobsAccepted("/p", "c", "a", "x", "c", "b", "x1");
  }

  lemma TwoBlobsAccepted(
    path: string, container: string, dir: string, name: string, container': string, dir': string, name': string)
    requires |path| > 1 && path[0] == '/'
    requires container != "" && '/' !in container && dir != "" && name != ""
    requires container' != "" && '/' !in container' && dir' != "" && name' != ""
    ensures Accepted(LinkAtom(path, [Blob(container + "/" + dir, name), Blob(container' + "/" + dir', name')]))
  {
    PrefixSchema(container, dir);
    PrefixSchema(container', dir');
    BlobSchema(container + "/" + dir, name);
    BlobSchema(container' + "/" + dir', name');
    LinkAtomAccepted(path, [Blob(container + "/" + dir, name), Blob(container' + "/" + dir', name')]);
  }

  lemma SmallTexts()
    ensures "c" + "/" + "a" == "c/a" && "c" + "/" + "b" == "c/b"
    ensures "c/a" != "c/b" && PlainBlobs("/p", ["c/a", "c/b"], ["x", "x1"])
    ensures "x" + "1" == "x1" && Request("/p", "x1") == "/p/downloads/x1" && BlobPath("c/a", "x1") == "/c/a/x1"
  {
    assert "c/a"[2] != "c/b"[2];
  }

  lemma ClaimedByPrefix(files: seq<string>, file: string, more: string)
    requires file in files
    ensures Claims(files, file + more)
  {
    var k :| 0 <= k < |files| && files[k] == file;
    MatchesItself(file, more);
  }

  /** Of two groups the first comes first in the chain. */
  lemma TwoInOrder(atom: Atom)
    requires AllSliceable(DownloadLinks(atom)) && |GroupOrder(DownloadLinks(atom))| == 2
    ensures ChainTargets(atom) == [GroupTarget(atom, 0), GroupTarget(atom, 1)]
  {
    var zero := ChainPosition(atom, 0);
    var one := ChainPosition(atom, 1);
    ZeroBeforeOne();
    ChainOrder(atom, zero, 0, one, 1);
    SortKeepsSize(DownloadNames(atom.meta.name, 2));
    assert |ChainTargets(atom)| == 2 && zero == 0 && one == 1;
    AtPosition(atom, 0, 0);
    AtPosition(atom, 1, 1);
  }

  lemma SortKeepsSize(names: seq<string>)
    ensures |Sort(names)| == |names|
  {
    assert |multiset(Sort(names))| == |multiset(names)|;
  }

  lemma AtPosition(atom: Atom, k: nat, i: nat)
    requires AllSliceable(DownloadLinks(atom)) && i < |GroupOrder(DownloadLinks(atom))|
    requires k < |ChainTargets(atom)| && ChainNames(atom)[k] == DownloadName(atom.meta.name, i)
    ensures ChainTargets(atom)[k] == GroupTarget(atom, i)
  {
    var j := ChainTargetIsGroup(atom, k);
    MiddlewareNamesDistinct(atom.meta.name, j, i);
  }

  lemma FirstOfTwo(atom: Atom, name: string)
    requires AllSliceable(DownloadLinks(atom)) && |GroupOrder(DownloadLinks(atom))| == 2
    requires Claims(GroupTarget(atom, 0).files, name)
    ensures FirstClaimer(ChainTargets(atom), name) == Some(0) && |ChainTargets(atom)| > 0
    ensures ChainTargets(atom)[0] == GroupTarget(atom, 0)
  {
    TwoInOrder(atom);
  }

  // ----- Groups in string order

  function ManyPrefixes(count: nat): seq<string> {
    seq(count, k requires 0 <= k < count => "c/d" + Itoa(k))
  }

  function ManyNames(count: nat): seq<string> {
    seq(count, k requires 0 <= k < count => if k == 2 then "xy" else if k == 10 then "x" else "z")
  }

  function ManyLinks(count: nat): seq<DownloadLink> {
    seq(count, k requires 0 <= k < count => Blob(ManyPrefixes(count)[k], ManyNames(count)[k]))
  }

  lemma ManyAreSeparate(count: nat)
    requires count <= 11
    ensures Separate(ManyLinks(count), ManyPrefixes(count), ManyNames(count))
    ensures PlainBlobs("/p", ManyPrefixes(count), ManyNames(count))
  {
    var prefixes := ManyPrefixes(count);
    forall i, j | 0 <= i < j < count
      ensures prefixes[i] != prefixes[j]
    {
      if prefixes[i] == prefixes[j] {
        CancelPrefix("c/d", Itoa(i), Itoa(j));
        ItoaInjective(i, j);
      }
    }
    forall k | 0 <= k < count
      ensures LiteralOrDot(ManyNames(count)[k]) && '$' !in prefixes[k] && |prefixes[k]| <= 5
    {
      assert |Itoa(k)| <= 2;
    }
  }

  lemma ManyGroups(count: nat)
    requires count <= 11
    ensures var atom := LinkAtom("/p", ManyLinks(count));
            && DownloadLinks(atom) == ManyLinks(count) && Routable(atom) && Undisturbed(atom, "/p", "xy")
            && (forall k :: 0 <= k < count ==> GroupIndex(atom, DownloadLinks(atom)[k]) == k)
            && |GroupOrder(DownloadLinks(atom))| == count
            && (forall k :: 0 <= k < count ==> ManyNames(count)[k] in GroupTarget(atom, k).files)
            && (forall k :: 0 <= k < count ==> DownloadLinks(atom)[k].GetBlobName() == ManyNames(count)[k])
  {
    var links, prefixes, names := ManyLinks(count), ManyPrefixes(count), ManyNames(count);
    LinksOfLinkAtom("/p", links);
    ManyAreSeparate(count);
    SeparateGroups(links, prefixes, names);
    SeparateIsRoutable("/p", links, prefixes, names, "xy");
    IndicesOfSeparate(LinkAtom("/p", links), prefixes, names);
  }

  lemma IndicesOfSeparate(atom: Atom, prefixes: seq<string>, names: seq<string>)
    requires Separate(DownloadLinks(atom), prefixes, names)
    ensures AllSliceable(DownloadLinks(atom))
    ensures forall k :: 0 <= k < |prefixes| ==> GroupIndex(atom, DownloadLinks(atom)[k]) == k
  {
    SeparateGroups(DownloadLinks(atom), prefixes, names);
    forall k | 0 <= k < |prefixes|
      ensures GroupIndex(atom, DownloadLinks(atom)[k]) == k
    {
      SeparateIndex(atom, prefixes, names, k);
    }
  }

  /** With eleven groups, the one numbered 10 comes before the one numbered 2, the only other to claim "xy", and captures its download. */
  lemma TenBeforeTwo()
    ensures var atom := LinkAtom("/p", ManyLinks(11));
            && Accepted(atom) && OnlyTwoAndTen(atom, "/p", "xy") && ManyLinks(11)[2].data == "c/d2/xy"
            && RunMiddlewares(DownloadChain(atom), "/p/downloads/xy") == Some("/c/d10/xy")
  {
    ManyAccepted(11);
    ManyTexts();
    TenOfMany(11);
  }

  lemma TenOfMany(count: nat)
    requires count == 11
    ensures var atom := LinkAtom("/p", ManyLinks(count));
            && OnlyTwoAndTen(atom, "/p", "xy")
            && RunMiddlewares(DownloadChain(atom), Request("/p", "xy")) == Some(BlobPath(ManyPrefixes(count)[10], "xy"))
  {
    ManyGroups(count);
    ManyClaims(count);
    CapturedByTen(LinkAtom("/p", ManyLinks(count)), "/p", "xy");
  }

  /** Eleven groups that nothing disturbs, of which those numbered 2 and 10 claim the name. */
  predicate OnlyTwoAndTen(atom: Atom, path: string, name: string) {
    && Routable(atom) && Undisturbed(atom, path, name) && |GroupOrder(DownloadLinks(atom))| == |DownloadLinks(atom)| == 11
    && GroupIndex(atom, DownloadLinks(atom)[2]) == 2 && GroupIndex(atom, DownloadLinks(atom)[10]) == 10
    && forall i :: 0 <= i < 11 ==> (Claims(GroupTarget(atom, i).files, name) <==> i == 2 || i == 10)
  }

  lemma ManyTexts()
    ensures Request("/p", "xy") == "/p/downloads/xy" && BlobPath("c/d10", "xy") == "/c/d10/xy"
    ensures ManyPrefixes(11)[10] == "c/d10" && ManyLinks(11)[2].data == "c/d2/xy"
  {
    DigitTexts();
    assert "c/d" + "10" == "c/d10" && "c/d" + "2" + "/" + "xy" == "c/d2/xy";
  }

  /** Files are the names of links with the prefix. */
  lemma {:induction false} FileHasLink(links: seq<DownloadLink>, prefix: string, file: string) returns (k: nat)
    requires file in FilesWith(links, prefix)
    ensures k < |links| && links[k].GetBlobPrefix() == Ok(prefix) && links[k].GetBlobName() == file
  {
    var init, last := links[..|links| - 1], links[|links| - 1];
    if last.GetBlobPrefix() == Ok(prefix) && last.GetBlobName() == file {
      k := |links| - 1;
    } else {
      k := FileHasLink(init, prefix, file);
    }
  }

  /** A group of separate blobs has the one name. */
  lemma SeparateClaims(links: seq<DownloadLink>, prefixes: seq<string>, names: seq<string>, i: nat, name: string)
    requires Separate(links, prefixes, names) && i < |links|
    ensures Claims(FilesWith(links, prefixes[i]), name) <==> MatchesPrefix(names[i], name)
  {
    var files := FilesWith(links, prefixes[i]);
    SeparateGroups(links, prefixes, names);
    if f :| 0 <= f < |files| && MatchesPrefix(files[f], name) {
      var k := FileHasLink(links, prefixes[i], files[f]);
      assert prefixes[k] == prefixes[i];
    }
    if MatchesPrefix(names[i], name) {
      var f :| 0 <= f < |files| && files[f] == names[i];
    }
  }

  lemma ManyClaims(count: nat)
    requires count <= 11
    ensures var atom := LinkAtom("/p", ManyLinks(count));
            && AllSliceable(DownloadLinks(atom)) && GroupOrder(DownloadLinks(atom)) == ManyPrefixes(count)
            && (forall i :: 0 <= i < count ==> (Claims(GroupTarget(atom, i).files, "xy") <==> i == 2 || i == 10))
  {
    var links, prefixes, names := ManyLinks(count), ManyPrefixes(count), ManyNames(count);
    LinksOfLinkAtom("/p", links);
    ManyAreSeparate(count);
    SeparateGroups(links, prefixes, names);
    ShortMatches();
    forall i | 0 <= i < count
      ensures Claims(FilesWith(links, prefixes[i]), "xy") <==> i == 2 || i == 10
    {
      SeparateClaims(links, prefixes, names, i, "xy");
    }
  }

  lemma ShortMatches()
    ensures MatchesPrefix("x", "xy") && MatchesPrefix("xy", "xy") && !MatchesPrefix("z", "xy")
  {
    assert "z"[0] == 'z' && "xy"[0] == 'x' && "xy"[1] == 'y';
  }

  /** Of the indices up to 10, only 0 and 1 come before "10". */
  lemma BeforeTen(i: nat)
    requires i <= 10
    ensures Less(Itoa(i), Itoa(10)) <==> i <= 1
  {
    DigitTexts();
    if 1 < i < 10 {
      assert Itoa(i)[0] == DIGITS[i] > Itoa(10)[0];
    } else {
      assert "1"[1..] == "" && "10"[1..] == "0" && AtMost("", "0");
      assert Less("0", "10") && Less("1", "10") && !Less("10", "10");
    }
  }

  lemma CapturedByTen(atom: Atom, path: string, name: string)
    requires OnlyTwoAndTen(atom, path, name)
    ensures RunMiddlewares(DownloadChain(atom), Request(path, name)) == Some(BlobPath(GroupTarget(atom, 10).prefix, name))
  {
    var t := ChainPosition(atom, 10);
    TenNotClaimedEarlier(atom, path, name);
    assert Claims(GroupTarget(atom, 10).files, name);
    FirstUnlessClaimedEarlier(atom, 10, t, name);
    DownloadOutcome(atom, path, name);
  }

  lemma TenNotClaimedEarlier(atom: Atom, path: string, name: string)
    requires OnlyTwoAndTen(atom, path, name)
    ensures NotClaimedEarlier(atom, 10, name)
  {
    forall i | 0 <= i < 11 && Less(Itoa(i), Itoa(10))
      ensures !Claims(FilesWith(DownloadLinks(atom), GroupOrder(DownloadLinks(atom))[i]), name)
    {
      BeforeTen(i);
      assert !Claims(GroupTarget(atom, i).files, name);
    }
  }

  lemma ManyAccepted(count: nat)
    requires 0 < count
    ensures Accepted(LinkAtom("/p", ManyLinks(count)))
  {
    forall k | 0 <= k < count
      ensures SchemaLink(ManyLinks(count)[k])
    {
      assert "c/d" + Itoa(k) == "c" + "/" + ("d" + Itoa(k));
      PrefixSchema("c", "d" + Itoa(k));
      BlobSchema(ManyPrefixes(count)[k], ManyNames(count)[k]);
    }
    LinkAtomAccepted("/p", ManyLinks(count));
  }

  // ----- A blob path that is rewritten once more

  lemma LandTwo(first: Target, second: Target, s: string)
    ensures Land([first, second], s) == second.Landed(first.Landed(s))
  {
    var next := first.Landed(s);
    assert [first, second][1..] == [second] && [second][1..] == [];
    assert Land([first, second], s) == Land([second], next);
    assert Land([second], next) == Land([], second.Landed(next));
  }

  lemma UnhitStays(target: Target, s: string)
    requires target.Landed(s) != s
    ensures target.HitBy(s)
  {
  }

  /** What the second of two middlewares makes of a blob path that is again a download request. */
  lemma LandTwice(first: Target, second: Target, path: string, name: string)
    requires Aligned(first, path, name) && Aligned(second, path, name)
    requires Claims(first.files, name) && Claims(second.files, name)
    requires BlobPath(first.prefix, name) == Request(path, name) != BlobPath(second.prefix, name)
    ensures Land([first, second], Request(path, name)) == BlobPath(second.prefix, name)
    ensures second.HitBy(BlobPath(first.prefix, name))
  {
    LandedRequest(first, path, name);
    LandedRequest(second, path, name);
    LandTwo(first, second, Request(path, name));
    UnhitStays(second, Request(path, name));
  }

  lemma Disturbed(atom: Atom, path: string, name: string)
    requires AllSliceable(DownloadLinks(atom)) && |GroupOrder(DownloadLinks(atom))| == 2
    requires Claims(GroupTarget(atom, 0).files, name)
    requires GroupTarget(atom, 1).HitBy(BlobPath(GroupTarget(atom, 0).prefix, name))
    ensures !Undisturbed(atom, path, name)
  {
    ZeroBeforeOne();
  }

  lemma OnePathAligned(target: Target, path: string, name: string)
    requires target.paths == [path]
    ensures Aligned(target, path, name)
  {
  }

  lemma FirstIsNotClaimedEarlier(atom: Atom, name: string)
    requires AllSliceable(DownloadLinks(atom)) && |GroupOrder(DownloadLinks(atom))| == 2
    ensures NotClaimedEarlier(atom, 0, name)
  {
    DigitTexts();
    assert !Less("1", "0") && !Less("0", "0");
  }

  lemma SameNameTwice(path: string, prefixes: seq<string>, name: string)
    requires |prefixes| == 2 && prefixes[0] != prefixes[1] && '/' !in name
    ensures var atom := LinkAtom(path, [Blob(prefixes[0], name), Blob(prefixes[1], name)]);
            && AllSliceable(DownloadLinks(atom)) && GroupOrder(DownloadLinks(atom)) == prefixes
            && |DownloadLinks(atom)| == 2 && GroupIndex(atom, DownloadLinks(atom)[0]) == 0
            && PathsOf(atom.ServedURLs()) == [path]
            && name in GroupTarget(atom, 0).files && name in GroupTarget(atom, 1).files
  {
    var links := [Blob(prefixes[0], name), Blob(prefixes[1], name)];
    LinksOfLinkAtom(path, links);
    TwoLinks(LinkAtom(path, links), prefixes, [name, name]);
  }

  lemma TwoLinks(atom: Atom, prefixes: seq<string>, names: seq<string>)
    requires |prefixes| == 2 && Separate(DownloadLinks(atom), prefixes, names)
    ensures AllSliceable(DownloadLinks(atom)) && GroupOrder(DownloadLinks(atom)) == prefixes
    ensures |DownloadLinks(atom)| == 2 && GroupIndex(atom, DownloadLinks(atom)[0]) == 0
    ensures names[0] in GroupTarget(atom, 0).files && names[1] in GroupTarget(atom, 1).files
  {
    SeparateGroups(DownloadLinks(atom), prefixes, names);
    SeparateIndex(atom, prefixes, names, 0);
  }

  lemma RewrittenAgain(path: string, prefixes: seq<string>, name: string)
    requires |prefixes| == 2 && prefixes[0] != prefixes[1] && '/' !in name
    requires BlobPath(prefixes[0], name) == Request(path, name) != BlobPath(prefixes[1], name)
    ensures var atom := LinkAtom(path, [Blob(prefixes[0], name), Blob(prefixes[1], name)]);
            && AllSliceable(DownloadLinks(atom)) && |DownloadLinks(atom)| == 2 && GroupIndex(atom, DownloadLinks(atom)[0]) == 0
            && NotClaimedEarlier(atom, 0, name) && !Undisturbed(atom, path, name)
            && Land(ChainTargets(atom), Request(path, name)) == BlobPath(prefixes[1], name)
  {
    var atom := LinkAtom(path, [Blob(prefixes[0], name), Blob(prefixes[1], name)]);
    SameNameTwice(path, prefixes, name);
    TwoGroups(atom, path, prefixes, name);
    FirstIsNotClaimedEarlier(atom, name);
  }

  lemma TwoGroups(atom: Atom, path: string, prefixes: seq<string>, name: string)
    requires |prefixes| == 2 && BlobPath(prefixes[0], name) == Request(path, name) != BlobPath(prefixes[1], name)
    requires AllSliceable(DownloadLinks(atom)) && GroupOrder(DownloadLinks(atom)) == prefixes
    requires PathsOf(atom.ServedURLs()) == [path]
    requires name in GroupTarget(atom, 0).files && name in GroupTarget(atom, 1).files
    ensures !Undisturbed(atom, path, name)
    ensures Land(ChainTargets(atom), Request(path, name)) == BlobPath(prefixes[1], name)
  {
    var first, second := GroupTarget(atom, 0), GroupTarget(atom, 1);
    TwoInOrder(atom);
    ClaimedByPrefix(first.files, name, "");
    ClaimedByPrefix(second.files, name, "");
    assert name + "" == name;
    OnePathAligned(first, path, name);
    OnePathAligned(second, path, name);
    LandTwice(first, second, path, name);
    Disturbed(atom, path, name);
  }

  lemma ZeroBeforeOne()
    ensures Less(Itoa(0), Itoa(1))
  {
    DigitTexts();
  }

  /** The first container looks like a downloads path, so the second middleware rewrites what the first has put. */
  lemma RewrittenTwice()
    ensures var atom := LinkAtom("/c", [Blob("c/downloads", "a"), Blob("d/e", "a")]);
            && Accepted(atom) && AllSliceable(DownloadLinks(atom)) && GroupIndex(atom, DownloadLinks(atom)[0]) == 0
            && NotClaimedEarlier(atom, 0, "a") && !Undisturbed(atom, "/c", "a")
            && Land(ChainTargets(atom), "/c/downloads/a") == "/d/e/a"
  {
    RewrittenTexts();
    RewrittenAgain("/c", ["c/downloads", "d/e"], "a");
    TwoBlobsAccepted("/c", "c", "downloads", "a", "d", "e", "a");
  }

  lemma RewrittenTexts()
    ensures Request("/c", "a") == "/c/downloads/a" == BlobPath("c/downloads", "a") && BlobPath("d/e", "a") == "/d/e/a"
    ensures "/d/e/a" != "/c/downloads/a" && "c/downloads" != "d/e"
    ensures "c" + "/" + "downloads" == "c/downloads" && "d" + "/" + "e" == "d/e"
  {
    assert "/d/e/a"[1] != "/c/downloads/a"[1];
  }

  // ----- A feed named "index"

  /** The webhook accepts it, and the generated configuration has two feeds of one id. */
  lemma IndexFeedSharesItsId(pf: Platform)
    ensures var atom := SmallAtom("/p", None, OneFeed("index", ONE_LINK));
            var config := GeneratorConfig(pf, atom, PLAIN_OWNER);
            Accepted(atom) && config.Ok? && |config.value| == 2 && config.value[0].id == config.value[1].id
  {
    FeedAccepts("index");
    PlainBase();
    assert '/' !in "index";
    SharedId(pf, SmallAtom("/p", None, OneFeed("index", ONE_LINK)));
  }

  lemma FeedAccepts(name: string)
    requires name != ""
    ensures Accepted(SmallAtom("/p", None, OneFeed(name, ONE_LINK)))
  {
    OneLinkSchema();
    OneEntrySchema("entry", None, ONE_LINK);
    SmallAtomAccepted("/p", name, OneEntry("entry", None, ONE_LINK));
  }

  lemma SharedId(pf: Platform, atom: Atom)
    requires PlainNames(atom) && atom.spec.service.serviceMetadataLinks.None? && |atom.spec.service.datasetFeeds| == 1
    requires atom.spec.service.datasetFeeds[0].datasetMetadataLinks.None?
    requires atom.spec.service.datasetFeeds[0].technicalName == "index"
    ensures var config := GeneratorConfig(pf, atom, PLAIN_OWNER);
            config.Ok? && |config.value| == 2 && config.value[0].id == config.value[1].id
  {
    PlainConfig(pf, atom);
    ConfigLength(pf, atom, PLAIN_OWNER);
    FeedIdsUnique(pf, atom, PLAIN_OWNER);
    IndexIsTaken(atom.spec.service.datasetFeeds);
    TwoNotUnique(GeneratorConfig(pf, atom, PLAIN_OWNER).value);
  }

  lemma IndexIsTaken(feeds: seq<DatasetFeed>)
    requires |feeds| == 1 && feeds[0].technicalName == "index"
    ensures !NamesUnique(feeds)
  {
  }

  lemma TwoNotUnique(config: seq<Feed>)
    requires |config| == 2 && !IdsUnique(config)
    ensures config[0].id == config[1].id
  {
  }

  lemma PlainBase()
    ensures BaseURL("/p").Absolute() && CleanPath(BaseURL("/p").path)
  {
    assert "/p"[1..] == "p" && '/' !in "p";
    SplitOfPiece("p", '/');
    assert '/' !in "host" && ':' !in "host" && ':' !in "https";
  }

  /** Without metadata links nothing can go wrong. */
  lemma PlainConfig(pf: Platform, atom: Atom)
    requires atom.spec.service.serviceMetadataLinks.None?
    requires forall feed :: feed in atom.spec.service.datasetFeeds ==> feed.datasetMetadataLinks.None?
    ensures GeneratorConfig(pf, atom, PLAIN_OWNER).Ok?
  {
    PlainEntries(pf, atom);
    PlainFeeds(pf, atom);
  }

  lemma PlainEntries(pf: Platform, atom: Atom)
    requires forall feed :: feed in atom.spec.service.datasetFeeds ==> feed.datasetMetadataLinks.None?
    ensures ServiceEntries(pf, atom, PLAIN_OWNER).Ok?
  {
    CollectOk(EntryResults(pf, atom, PLAIN_OWNER));
  }

  lemma PlainFeeds(pf: Platform, atom: Atom)
    requires forall feed :: feed in atom.spec.service.datasetFeeds ==> feed.datasetMetadataLinks.None?
    ensures DatasetFeedsOf(pf, atom, PLAIN_OWNER, PLAIN_OWNER.atom.value).Ok?
  {
    CollectOk(FeedResults(pf, atom, PLAIN_OWNER, PLAIN_OWNER.atom.value));
  }

  // ----- A base URL that moves

  /**
   * Both versions are accepted, yet the URL at which the first is served is not served by the second. This
   * rests on the library's check of the base URL passing an empty list, which BaseURLErrors stands in for.
   */
  lemma BaseURLMoves()
    ensures var before := LinkAtom("/p", ONE_LINK);
            var after := SmallAtom("/q", Some([]), OneFeed("feed", ONE_LINK));
            && Accepted(before) && AcceptsCreate(None, before) && AcceptsUpdate(None, before, after)
            && !(Served(before) <= Served(after))
  {
    var before := LinkAtom("/p", ONE_LINK);
    var after := SmallAtom("/q", Some([]), OneFeed("feed", ONE_LINK));
    FeedAccepts("feed");
    SmallAtomErrors("/q", Some([]), "feed", OneEntry("entry", None, ONE_LINK));
    LabelsKept(before.meta.labels, after.meta.labels);
    assert "dataset" in before.meta.labels;
    UpdateKeepsServing(None, before, after);
    assert "/p"[1] != "/q"[1];
    TextsDiffer("/p", "/q");
  }

  lemma TextsDiffer(a: string, b: string)
    requires a != b && a != "" && a[0] == '/' && b != "" && b[0] == '/'
    ensures BaseURL(a).String() != BaseURL(b).String()
  {
    assert '/' !in "host" && ':' !in "host" && ':' !in "https" && '/' !in "" && ':' !in "";
    if BaseURL(a).String() == BaseURL(b).String() {
      StringInjective(BaseURL(a), BaseURL(b));
    }
  }

  // ----- Conversion without metadata links

  lemma ConversionPanics(codec: Codec)
    ensures Accepted(LinkAtom("/p", ONE_LINK)) && Spoke(codec, LinkAtom("/p", ONE_LINK)).Err?
  {
    FeedAccepts("feed");
    SpokeTotalExactly(codec, LinkAtom("/p", ONE_LINK));
  }

  // ----- A time to live that wraps around

  function AgingAtom(days: int32): Atom {
    var atom := LinkAtom("/p", ONE_LINK);
    atom.(spec := atom.spec.(lifecycle := Some(Lifecycle(Some(days)))))
  }

  /** Neither schema nor webhook has anything against a time to live. */
  lemma SameCreation(atom: Atom, aging: Atom)
    requires Accepted(atom) && aging == atom.(spec := atom.spec.(lifecycle := aging.spec.lifecycle))
    ensures Accepted(aging)
  {
    DatasetFeedErrorsExactly(atom);
    DatasetFeedErrorsExactly(aging);
  }

  /** An atom that should live for 106752 days, or up to twice that, has expired the moment it is created. */
  lemma ExpiredWhenCreated(days: int32)
    requires 106752 <= days <= 213503
    ensures Accepted(AgingAtom(days)) && TTLExpired(AgingAtom(days), AgingAtom(days).meta.creationTimestamp)
  {
    AgingAccepted(days);
    LifespanNegative(days);
    ExpiresBefore(AgingAtom(days), days);
  }

  lemma LifespanNegative(days: int32)
    requires 106752 <= days <= 213503
    ensures Lifespan(days) < 0
  {
    var d := days as int;
    assert Wrap64(d * 24) == d * 24;
    assert 0x8000_0000_0000_0000 <= d * DAY < 0x1_0000_0000_0000_0000;
  }

  lemma AgingAccepted(days: int32)
    ensures Accepted(AgingAtom(days))
  {
    FeedAccepts("feed");
    SameCreation(LinkAtom("/p", ONE_LINK), AgingAtom(days));
  }

  lemma ExpiresBefore(atom: Atom, days: int32)
    requires atom.spec.lifecycle == Some(Lifecycle(Some(days))) && Lifespan(days) < 0
    ensures TTLExpired(atom, atom.meta.creationTimestamp)
  {
  }

  // ----- A URL below the downloads of another

  /** Served at "/p" and at "/p/downloads". */
  function BelowAtom(links: seq<DownloadLink>): Atom {
    SmallAtom("/p", Some([BaseURL("/p"), BaseURL("/p/downloads")]), OneFeed("feed", links))
  }

  lemma BelowTexts()
    ensures "/p" != "/p/downloads" && "/p" + "/downloads" == "/p/downloads" && "/p" + DOWNLOADS == "/p/downloads" + "/"
    ensures '`' !in "/p" && '`' !in "/p/downloads" && '`' !in "host" && '/' !in "feed" && '`' !in "feed"
    ensures Request("/p", "index.xml") == "/p/downloads" + "/" + "index.xml" == "/p/downloads/index.xml"
  {
  }

  lemma BelowPathsClean()
    ensures CleanPath("/p") && CleanPath("/p/downloads")
  {
    PlainBase();
    assert '/' !in "downloads" && "/p" + "/" + "downloads" == "/p/downloads";
    CleanPathAppend("/p", "downloads");
  }

  lemma BelowIsLegible(links: seq<DownloadLink>)
    ensures Legible(BelowAtom(links))
  {
    BelowTexts();
    BelowPathsClean();
    forall url | url in BelowAtom(links).ServedURLs()
      ensures CleanPath(url.path) && NoBacktick(url)
    {
      assert url == BaseURL("/p") || url == BaseURL("/p/downloads");
    }
  }

  lemma FirstListedOnce(a: URL, b: URL)
    requires a.String() != b.String()
    ensures ListsOnce([a, b], a) && ListsURL([a, b], a)
  {
    var urls := [a, b];
    assert urls[0] == a && urls[1] == b;
    assert IsOnly(urls, a, 0);
  }

  lemma BelowListed()
    ensures SchemaList([BaseURL("/p"), BaseURL("/p/downloads")], BaseURL("/p"))
    ensures ListsURL([BaseURL("/p"), BaseURL("/p/downloads")], BaseURL("/p"))
  {
    BelowTexts();
    TextsDiffer("/p", "/p/downloads");
    FirstListedOnce(BaseURL("/p"), BaseURL("/p/downloads"));
  }

  lemma BelowAccepted(links: seq<DownloadLink>)
    requires links != [] && forall link :: link in links ==> SchemaLink(link)
    ensures Accepted(BelowAtom(links))
  {
    var listed, entry := Some([BaseURL("/p"), BaseURL("/p/downloads")]), OneEntry("entry", None, links);
    BelowListed();
    OneEntrySchema("entry", None, links);
    SmallAtomErrors("/p", listed, "feed", entry);
    SmallAtomSchema("/p", listed, "feed", entry);
    SmallAtomOwned("/p", listed, FeedOf("feed", entry));
  }

  lemma BelowServes(links: seq<DownloadLink>)
    ensures BaseURL("/p") in BelowAtom(links).ServedURLs() && BaseURL("/p/downloads") in BelowAtom(links).ServedURLs()
    ensures FeedFile(BelowAtom(links), "index.xml")
  {
    var urls := BelowAtom(links).ServedURLs();
    assert urls[0] == BaseURL("/p") && urls[1] == BaseURL("/p/downloads");
  }

  lemma BelowReaches(links: seq<DownloadLink>)
    requires AllSliceable(DownloadLinks(BelowAtom(links)))
    ensures var atom := BelowAtom(links);
            && BelowDownloads(atom, "/p/downloads", "host") && NameIsFeed(atom, "/p", "host", "index.xml")
            && ReachesService(atom, "host", "/p/downloads/index.xml") && ReachesStorage(atom, "host", "/p/downloads/index.xml")
  {
    BelowIsLegible(links);
    BelowTexts();
    BelowServes(links);
    FeedAccepted(BelowAtom(links), BaseURL("/p/downloads"), "host", "index.xml");
  }

  lemma LinksOfBelow(links: seq<DownloadLink>)
    ensures DownloadLinks(BelowAtom(links)) == links
  {
    LinksOfSmallAtom("/p", Some([BaseURL("/p"), BaseURL("/p/downloads")]), "feed", links);
  }

  lemma SchemaIsSliceable(links: seq<DownloadLink>)
    requires forall link :: link in links ==> SchemaLink(link)
    ensures AllSliceable(links)
  {
    forall k | 0 <= k < |links|
      ensures '/' in links[k].data
    {
      assert SchemaLink(links[k]);
    }
  }

  /** Whatever its links are, a request for the index of the second URL is let through to the storage as well. */
  lemma IndexBelowDownloads(links: seq<DownloadLink>)
    requires links != [] && forall link :: link in links ==> SchemaLink(link)
    ensures Accepted(BelowAtom(links)) && AllSliceable(DownloadLinks(BelowAtom(links)))
    ensures BelowDownloads(BelowAtom(links), "/p/downloads", "host")
    ensures ReachesService(BelowAtom(links), "host", "/p/downloads/index.xml")
    ensures ReachesStorage(BelowAtom(links), "host", "/p/downloads/index.xml")
  {
    BelowAccepted(links);
    LinksOfBelow(links);
    SchemaIsSliceable(links);
    BelowReaches(links);
  }

  const INDEX_LINK := [Blob("c/d", "index.xml")]

  /** A download named like the index is let through to the Service as well, as the index of the second URL. */
  lemma DownloadIsFeed()
    ensures Accepted(BelowAtom(INDEX_LINK)) && DownloadLinks(BelowAtom(INDEX_LINK)) == INDEX_LINK
    ensures INDEX_LINK[0].GetBlobName() == "index.xml" && Request("/p", "index.xml") == "/p/downloads/index.xml"
    ensures AllSliceable(INDEX_LINK) && NameIsFeed(BelowAtom(INDEX_LINK), "/p", "host", "index.xml")
    ensures ReachesStorage(BelowAtom(INDEX_LINK), "host", "/p/downloads/index.xml")
    ensures ReachesService(BelowAtom(INDEX_LINK), "host", "/p/downloads/index.xml")
  {
    IndexLinkSchema();
    IndexBelowDownloads(INDEX_LINK);
    LinksOfBelow(INDEX_LINK);
    BelowReaches(INDEX_LINK);
    BelowTexts();
  }

  lemma IndexLinkSchema()
    ensures SchemaLink(INDEX_LINK[0]) && '/' !in "index.xml"
    ensures INDEX_LINK[0].GetBlobName() == "index.xml" && '/' in INDEX_LINK[0].data
  {
    assert '/' !in "c" && "c" + "/" + "d" == "c/d" && '/' !in "index.xml";
    PrefixSchema("c", "d");
    BlobSchema("c/d", "index.xml");
    BlobIs("c/d", "index.xml");
  }

  // ----- A download that is lost for a while

  /** Serves the one path, and puts a blob path too short to be hit. */
  predicate PlainTarget(target: Target, path: string) {
    target.WellFormed() && target.paths == [path] && |target.prefix| + 2 < |path + DOWNLOADS|
  }

  lemma OnePathClear(a: seq<Target>, b: seq<Target>, path: string, name: string)
    requires '/' !in name && (forall t :: t in a ==> PlainTarget(t, path)) && (forall t :: t in b ==> PlainTarget(t, path))
    ensures Clear(a + b, path, name)
  {
    forall t | t in a + b
      ensures t.WellFormed() && Aligned(t, path, name)
    {
      assert PlainTarget(t, path);
      OnePathAligned(t, path, name);
    }
    forall t, u | t in a + b && u in a + b
      ensures !u.HitBy(BlobPath(t.prefix, name))
    {
      assert PlainTarget(t, path) && PlainTarget(u, path);
      OutsideIsUnhit(u, t.prefix, name);
    }
  }

  lemma LinkTargets(path: string, links: seq<DownloadLink>, prefixes: seq<string>, names: seq<string>)
    requires Separate(links, prefixes, names) && PlainBlobs(path, prefixes, names)
    ensures var atom := LinkAtom(path, links);
            AllSliceable(DownloadLinks(atom)) && forall t :: t in GroupTargets(atom) ==> PlainTarget(t, path)
  {
    var atom := LinkAtom(path, links);
    LinksOfLinkAtom(path, links);
    SeparateGroups(links, prefixes, names);
    SeparateIsRoutable(path, links, prefixes, names, "");
    forall i | 0 <= i < GroupCount(atom)
      ensures PlainTarget(GroupTargets(atom)[i], path)
    {
      GroupTargetWellFormed(atom, i);
    }
  }

  /** One container, and then another in front of it. */
  function Inserted(path: string, front: string, name: string, prefix: string): Shared {
    Shared(LinkAtom(path, [Blob(prefix, name)]), LinkAtom(path, [Blob(front, name), Blob(prefix, name)]),
           Blob(prefix, name), Blob(prefix, name), BaseURL(path))
  }

  lemma InsertedLinks(path: string, front: string, name: string, prefix: string)
    ensures var s := Inserted(path, front, name, prefix);
            && DownloadLinks(s.current) == [Blob(prefix, name)]
            && DownloadLinks(s.next) == [Blob(front, name), Blob(prefix, name)]
  {
    LinksOfLinkAtom(path, [Blob(prefix, name)]);
    LinksOfLinkAtom(path, [Blob(front, name), Blob(prefix, name)]);
  }

  lemma InsertedIsValid(path: string, front: string, name: string, prefix: string)
    requires '/' !in name && front != prefix
    ensures var s := Inserted(path, front, name, prefix);
            && s.Valid() && DownloadLinks(s.current) == [Blob(prefix, name)]
            && DownloadLinks(s.next) == [Blob(front, name), Blob(prefix, name)]
  {
    InsertedLinks(path, front, name, prefix);
    BlobIs(prefix, name);
    BlobIs(front, name);
    SharedIsValid(Inserted(path, front, name, prefix), Blob(front, name), Blob(prefix, name));
  }

  lemma SharedIsValid(s: Shared, front: DownloadLink, link: DownloadLink)
    requires s.current.meta.name == s.next.meta.name && s.link == s.link' == link
    requires DownloadLinks(s.current) == [link] && DownloadLinks(s.next) == [front, link]
    requires '/' in front.data && '/' in link.data
    requires s.url in s.current.ServedURLs() && s.url in s.next.ServedURLs()
    ensures s.Valid()
  {
    assert DownloadLinks(s.current)[0] == link && DownloadLinks(s.next)[1] == link;
  }

  lemma InsertedTargets(path: string, front: string, name: string, prefix: string)
    requires '/' !in name && front != prefix && PlainBlobs(path, [front, prefix], [name, name])
    requires Inserted(path, front, name, prefix).Valid()
    ensures var s := Inserted(path, front, name, prefix);
            && (forall t :: t in GroupTargets(s.current) ==> PlainTarget(t, path))
            && (forall t :: t in GroupTargets(s.next) ==> PlainTarget(t, path))
  {
    assert [front, prefix][1] == prefix && [name, name][1] == name;
    LinkTargets(path, [Blob(prefix, name)], [prefix], [name]);
    LinkTargets(path, [Blob(front, name), Blob(prefix, name)], [front, prefix], [name, name]);
  }

  lemma InsertedIsClear(path: string, front: string, name: string, prefix: string)
    requires '/' !in name && front != prefix && PlainBlobs(path, [front, prefix], [name, name])
    ensures Inserted(path, front, name, prefix).Valid() && Inserted(path, front, name, prefix).IsClear()
  {
    var s := Inserted(path, front, name, prefix);
    InsertedIsValid(path, front, name, prefix);
    InsertedTargets(path, front, name, prefix);
    BlobIs(prefix, name);
    OnePathClear(GroupTargets(s.current), GroupTargets(s.next), path, name);
  }

  lemma InsertedMoves(path: string, front: string, name: string, prefix: string)
    requires '/' !in name && front != prefix
    ensures Inserted(path, front, name, prefix).Valid() && !KeepsItsPlace(Inserted(path, front, name, prefix))
    ensures Inserted(path, front, name, prefix).CurrentIndex() == 0
  {
    var s := Inserted(path, front, name, prefix);
    InsertedIsValid(path, front, name, prefix);
    OnlyGroup(s.current, prefix, name);
    BlobIs(front, name);
    FrontMoves(s, Blob(front, name), Blob(prefix, name));
  }

  lemma FrontMoves(s: Shared, front: DownloadLink, link: DownloadLink)
    requires s.Valid() && DownloadLinks(s.current) == [link] && DownloadLinks(s.next) == [front, link]
    requires front.GetBlobPrefix().Ok? && GroupOrder(DownloadLinks(s.current)) == [link.GetBlobPrefix().value]
    requires front.GetBlobPrefix() != link.GetBlobPrefix()
    ensures !KeepsItsPlace(s)
  {
    assert DownloadLinks(s.next) == [front] + DownloadLinks(s.current);
    InsertedInFront(s, front);
  }

  lemma OnlyGroup(atom: Atom, prefix: string, name: string)
    requires DownloadLinks(atom) == [Blob(prefix, name)] && '/' !in name
    ensures AllSliceable(DownloadLinks(atom)) && GroupOrder(DownloadLinks(atom)) == [prefix]
    ensures GroupIndex(atom, DownloadLinks(atom)[0]) == 0
  {
    SeparateGroups(DownloadLinks(atom), [prefix], [name]);
    SeparateIndex(atom, [prefix], [name], 0);
  }

  /** With the middleware of group 0 made over, the chain of before no longer leads to the blob. */
  ghost predicate LostMidway(s: Shared) {
    && s.Valid() && s.IsClear() && !KeepsItsPlace(s)
    && Land(MixedChain(s.current, s.next, {0}), s.Path()) != "/" + s.link.data
  }

  /** While a container is added in front, the middleware of the only download is made over to the new one. */
  lemma LostForAWhile()
    ensures var s := Inserted("/p", "c/a", "x", "c/b");
            Accepted(s.current) && Accepted(s.next) && LostMidway(s)
  {
    InsertionTexts();
    InsertedAccepted("/p", "c", "a", "b", "x");
    InsertedLoses("/p", "c/a", "x", "c/b");
  }

  lemma InsertionTexts()
    ensures "c" + "/" + "a" == "c/a" && "c" + "/" + "b" == "c/b" && "c/a" != "c/b"
    ensures PlainBlobs("/p", ["c/a", "c/b"], ["x", "x"])
  {
    assert "c/a"[2] != "c/b"[2];
  }

  lemma InsertedLoses(path: string, front: string, name: string, prefix: string)
    requires '/' !in name && front != prefix && PlainBlobs(path, [front, prefix], [name, name])
    ensures LostMidway(Inserted(path, front, name, prefix))
  {
    InsertedIsClear(path, front, name, prefix);
    InsertedMoves(path, front, name, prefix);
    LostWhenMoved(Inserted(path, front, name, prefix));
  }

  lemma InsertedAccepted(path: string, container: string, front: string, dir: string, name: string)
    requires |path| > 1 && path[0] == '/' && container != "" && '/' !in container && front != "" && dir != "" && name != ""
    ensures var s := Inserted(path, container + "/" + front, name, container + "/" + dir); Accepted(s.current) && Accepted(s.next)
  {
    TwoBlobsAccepted(path, container, front, name, container, dir, name);
    OneBlobAccepted(path, container, dir, name);
  }

  lemma OneBlobAccepted(path: string, container: string, dir: string, name: string)
    requires |path| > 1 && path[0] == '/' && container != "" && '/' !in container && dir != "" && name != ""
    ensures Accepted(LinkAtom(path, [Blob(container + "/" + dir, name)]))
  {
    PrefixSchema(container, dir);
    BlobSchema(container + "/" + dir, name);
    LinkAtomAccepted(path, [Blob(container + "/" + dir, name)]);
  }

  // ----- A quote in a title

  const QUOTED := "a\"b"

  function QuotedEntry(): Entry {
    OneEntry("entry", Some(QUOTED), ONE_LINK)
  }

  /** The entry's title is escaped in the entry and not in the title of its download link. */
  lemma QuoteUnescaped(pf: Platform)
    ensures var feed, link := FeedOf("feed", QuotedEntry()), ONE_LINK[0];
            var atom := SmallAtom("/p", None, feed);
            && Accepted(atom) && feed in atom.spec.service.datasetFeeds
            && DatasetEntry(pf, atom, feed, QuotedEntry()).title == "a\\\"b"
            && DownloadFeedLink(pf, atom, feed, QuotedEntry(), link).title == QUOTED + " - " + "x"
            && !TitlesMatch(feed, QuotedEntry())
  {
    var feed := FeedOf("feed", QuotedEntry());
    OneLinkSchema();
    OneEntrySchema("entry", Some(QUOTED), ONE_LINK);
    SmallAtomAccepted("/p", "feed", QuotedEntry());
    BlobIs("c/d", "x");
    QuotedText();
  }

  lemma QuotedText()
    ensures EscapeQuotes(QUOTED) == "a\\\"b" && '"' in QUOTED
  {
    assert QUOTED[1] == '"' && QUOTED[1..] == "\"b" && "\"b"[1..] == "b" && "b"[1..] == "";
    assert EscapeQuotes("b") == "b";
    assert EscapeQuotes("\"b") == "\\\"" + "b";
  }

  // ----- An entry named like its feed

  /** The feed and its entry are named alike, as in the repository's own sample, and are published under one id. */
  lemma EntrySharesItsFeedsId(pf: Platform)
    ensures var atom := SmallAtom("/p", None, FeedOf("name", OneEntry("name", None, ONE_LINK)));
            var config := GeneratorConfig(pf, atom, PLAIN_OWNER);
            && Accepted(atom) && config.Ok? && config.value != []
            && !NoDuplicates(PublishedIds(config.value))
  {
    assert '/' !in "name";
    NameAccepted("name");
    NameShared(pf, "name");
  }

  lemma NameAccepted(name: string)
    requires name != ""
    ensures Accepted(SmallAtom("/p", None, FeedOf(name, OneEntry(name, None, ONE_LINK))))
  {
    OneLinkSchema();
    OneEntrySchema(name, None, ONE_LINK);
    SmallAtomAccepted("/p", name, OneEntry(name, None, ONE_LINK));
  }

  lemma NameShared(pf: Platform, name: string)
    requires '/' !in name
    ensures var atom := SmallAtom("/p", None, FeedOf(name, OneEntry(name, None, ONE_LINK)));
            var config := GeneratorConfig(pf, atom, PLAIN_OWNER);
            config.Ok? && config.value != [] && !NoDuplicates(PublishedIds(config.value))
  {
    var entry := OneEntry(name, None, ONE_LINK);
    var atom := SmallAtom("/p", None, FeedOf(name, entry));
    PlainConfig(pf, atom);
    PlainBase();
    NamesOfOne(atom, name, entry);
    PublishedIdsUnique(pf, atom, PLAIN_OWNER);
  }

  lemma NamesOfOne(atom: Atom, name: string, entry: Entry)
    requires atom.spec.service.datasetFeeds == [FeedOf(name, entry)] && entry.technicalName == name && '/' !in name
    ensures NoSlashes(PublishedNames(atom)) && !NoDuplicates(PublishedNames(atom))
  {
    NameLists(atom, name, entry);
    var names := PublishedNames(atom);
    assert '/' !in "index" && names[1] == names[2];
  }

  lemma NameLists(atom: Atom, name: string, entry: Entry)
    requires atom.spec.service.datasetFeeds == [FeedOf(name, entry)]
    ensures PublishedNames(atom) == ["index", name, entry.technicalName]
  {
    var feeds := atom.spec.service.datasetFeeds;
    assert EntryNames(feeds[0].entries) == [entry.technicalName];
    assert EntryNameLists(feeds) == [[entry.technicalName]] && FeedNames(feeds) == [name];
    FlattenAppend([], [entry.technicalName]);
    assert [] + [[entry.technicalName]] == [[entry.technicalName]];
  }

  // ----- Two atoms at one URL

  function OtherAtom(): Atom {
    var atom := LinkAtom("/p", ONE_LINK);
    atom.(meta := atom.meta.(name := "other"))
  }

  lemma RenamedAccepted(atom: Atom, name: string)
    requires Accepted(atom)
    ensures Accepted(atom.(meta := atom.meta.(name := name)))
  {
    DatasetFeedErrorsExactly(atom);
    DatasetFeedErrorsExactly(atom.(meta := atom.meta.(name := name)));
  }

  /** Both are accepted, and the routes of the second take the requests for the index of the first. */
  lemma OneURLForTwo(store: Store)
    requires HasRoutesOf(OtherAtom(), store)
    ensures var atom := LinkAtom("/p", ONE_LINK);
            && Accepted(atom) && Accepted(OtherAtom()) && atom.meta.name != OtherAtom().meta.name
            && Publishes(atom, BaseURL("/p"), "host", "/p" + "/" + "index.xml")
            && Takes(OtherAtom().meta.name, store, "host", "/p" + "/" + "index.xml")
  {
    FeedAccepts("feed");
    RenamedAccepted(LinkAtom("/p", ONE_LINK), "other");
    assert "sample"[0] != "other"[0];
    OtherIsLegible();
    IndexOfBoth(LinkAtom("/p", ONE_LINK), OtherAtom(), store, BaseURL("/p"), "host");
  }

  lemma OtherIsLegible()
    ensures Legible(OtherAtom())
  {
    PlainBase();
    assert '`' !in "/p" && '`' !in "host" && '/' !in "feed" && '`' !in "feed";
  }

  lemma IndexOfBoth(atom: Atom, other: Atom, store: Store, url: URL, host: string)
    requires HasRoutesOf(other, store) && Legible(other) && Answers(url, host)
    requires url in atom.ServedURLs() && url in other.ServedURLs()
    ensures Publishes(atom, url, host, url.path + "/" + "index.xml")
    ensures Takes(other.meta.name, store, host, url.path + "/" + "index.xml")
  {
    assert '/' !in "index.xml" && FeedFile(atom, "index.xml") && FeedFile(other, "index.xml");
    FilePublished(atom, url, host, "index.xml");
    TakenAtServed(url, other, store, host, "index.xml");
  }

  lemma TakenAtServed(url: URL, other: Atom, store: Store, host: string, file: string)
    requires HasRoutesOf(other, store) && Legible(other) && Answers(url, host)
    requires url in other.ServedURLs() && FeedFile(other, file) && '/' !in file
    ensures Takes(other.meta.name, store, host, url.path + "/" + file)
  {
    FileTakenExactly(url, other, store, host, file);
  }
}
