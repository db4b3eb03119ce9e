/** Where a request for a download or a feed ends up after the middlewares of the atom. */
module DownloadRouting {
  import opened Wrappers
  import opened Strings
  import opened Sequences
  import opened Urls
  import opened AtomTypes
  import opened KubeObjects
  import opened Traefik
  import opened Middlewares
  import opened RewriteChains

  // ----- The chain of an atom

  /** The names of the download middlewares, in index order. */
  function DownloadNames(atomName: string, count: nat): seq<string> {
    seq(count, i requires 0 <= i < count => DownloadName(atomName, i))
  }

  lemma DownloadNamesDistinct(atomName: string, count: nat)
    ensures NoDuplicates(DownloadNames(atomName, count))
    ensures NoDuplicates(Sort(DownloadNames(atomName, count)))
  {
    var names := DownloadNames(atomName, count);
    forall i, j | 0 <= i < j < |names|
      ensures names[i] != names[j]
    {
      MiddlewareNamesDistinct(atomName, i, j);
    }
    PermutationNoDuplicates(names, Sort(names));
  }

  /** The names in the order in which the route lists them. */
  function ChainNames(atom: Atom): seq<string>
    requires AllSliceable(DownloadLinks(atom))
  {
    Sort(DownloadNames(atom.meta.name, |GroupOrder(DownloadLinks(atom))|))
  }

  lemma ChainNameIndex(atomName: string, count: nat, name: string)
    requires name in Sort(DownloadNames(atomName, count))
    ensures name in DownloadNames(atomName, count)
    ensures var i := IndexOf(DownloadNames(atomName, count), name);
            i < count && name == DownloadName(atomName, i)
  {
    assert name in multiset(Sort(DownloadNames(atomName, count)));
  }

  /** What the middleware of a group was made for. */
  function GroupTarget(atom: Atom, i: nat): Target
    requires AllSliceable(DownloadLinks(atom)) && i < |GroupOrder(DownloadLinks(atom))|
  {
    var prefix := GroupOrder(DownloadLinks(atom))[i];
    Target(PathsOf(atom.ServedURLs()), prefix, FilesWith(DownloadLinks(atom), prefix))
  }

  /** What the middleware with the given name was made for. */
  function TargetNamed(atom: Atom, name: string): Target
    requires AllSliceable(DownloadLinks(atom)) && name in ChainNames(atom)
  {
    var count := |GroupOrder(DownloadLinks(atom))|;
    ChainNameIndex(atom.meta.name, count, name);
    GroupTarget(atom, IndexOf(DownloadNames(atom.meta.name, count), name))
  }

  function ChainTargets(atom: Atom): seq<Target>
    requires AllSliceable(DownloadLinks(atom))
  {
    seq(|ChainNames(atom)|, k requires 0 <= k < |ChainNames(atom)| => TargetNamed(atom, ChainNames(atom)[k]))
  }

  /** The specs of the download middlewares, in the order in which the route lists them. */
  function DownloadChain(atom: Atom): seq<MiddlewareSpec>
    requires AllSliceable(DownloadLinks(atom))
  {
    SpecsOf(ChainTargets(atom))
  }

  /**
   * What reading the middlewares asks of an atom: every link names a blob in a container, served paths and
   * file names hold no metacharacter but the dot, and no blob prefix holds a dollar sign.
   */
  predicate Routable(atom: Atom) {
    var links := DownloadLinks(atom);
    && AllSliceable(links)
    && AllLiteralOrDot(PathsOf(atom.ServedURLs()))
    && (forall k :: 0 <= k < |links| ==> LiteralOrDot(links[k].GetBlobName()) && '$' !in links[k].GetBlobPrefix().value)
  }

  lemma {:induction false} FilesLiteral(links: seq<DownloadLink>, prefix: string)
    requires forall k :: 0 <= k < |links| ==> LiteralOrDot(links[k].GetBlobName())
    ensures AllLiteralOrDot(FilesWith(links, prefix))
  {
    if links != [] {
      FilesLiteral(links[..|links| - 1], prefix);
    }
  }

  lemma TargetsWellFormed(atom: Atom)
    requires Routable(atom)
    ensures AllWellFormed(ChainTargets(atom))
  {
    forall k | 0 <= k < |ChainTargets(atom)|
      ensures ChainTargets(atom)[k].WellFormed()
    {
      var i := ChainTargetIsGroup(atom, k);
      GroupTargetWellFormed(atom, i);
    }
  }

  lemma GroupTargetWellFormed(atom: Atom, i: nat)
    requires Routable(atom) && i < |GroupOrder(DownloadLinks(atom))|
    ensures GroupTarget(atom, i).WellFormed()
  {
    var links, target := DownloadLinks(atom), GroupTarget(atom, i);
    GroupsPartition(links);
    FilesLiteral(links, target.prefix);
    assert target.prefix in GroupsOf(links);
    var j :| 0 <= j < |links| && Prefixes(links)[j] == target.prefix;
  }

  /** Every request path, of whatever shape, lands where the plain reading of the middlewares puts it. */
  lemma DownloadChainLands(atom: Atom, path: string)
    requires Routable(atom)
    ensures RunMiddlewares(DownloadChain(atom), path) == Some(Land(ChainTargets(atom), path))
  {
    TargetsWellFormed(atom);
    ChainLands(ChainTargets(atom), path);
  }

  /** The rank of a link's group. */
  function GroupIndex(atom: Atom, link: DownloadLink): nat
    requires AllSliceable(DownloadLinks(atom)) && link in DownloadLinks(atom)
  {
    var links := DownloadLinks(atom);
    var k := IndexOf(links, link);
    assert Prefixes(links)[k] == link.GetBlobPrefix().value;
    IndexOf(GroupOrder(links), link.GetBlobPrefix().value)
  }

  /** Where in the chain the middleware of a group stands. */
  lemma ChainPosition(atom: Atom, i: nat) returns (t: nat)
    requires AllSliceable(DownloadLinks(atom))
    requires i < |GroupOrder(DownloadLinks(atom))|
    ensures t < |ChainTargets(atom)| && ChainNames(atom)[t] == DownloadName(atom.meta.name, i)
    ensures ChainTargets(atom)[t].prefix == GroupOrder(DownloadLinks(atom))[i]
    ensures ChainTargets(atom)[t].files == FilesWith(DownloadLinks(atom), GroupOrder(DownloadLinks(atom))[i])
  {
    var count := |GroupOrder(DownloadLinks(atom))|;
    var names := DownloadNames(atom.meta.name, count);
    DownloadNamesDistinct(atom.meta.name, count);
    assert names[i] in multiset(Sort(names));
    t :| 0 <= t < |Sort(names)| && Sort(names)[t] == names[i];
    IndexOfUnique(names, i);
  }

  /** Chain order is the ordering of the decimal group indices as strings. */
  lemma ChainOrder(atom: Atom, k: nat, i: nat, t: nat, j: nat)
    requires AllSliceable(DownloadLinks(atom))
    requires k < |ChainNames(atom)| && ChainNames(atom)[k] == DownloadName(atom.meta.name, i)
    requires t < |ChainNames(atom)| && ChainNames(atom)[t] == DownloadName(atom.meta.name, j)
    ensures k < t <==> Less(Itoa(i), Itoa(j))
  {
    var names, base := ChainNames(atom), atom.meta.name + DOWNLOADS_SUFFIX;
    DownloadNamesDistinct(atom.meta.name, |GroupOrder(DownloadLinks(atom))|);
    SortedPositions(names, k, t);
    AtMostCommonPrefix(base, Itoa(i), Itoa(j));
    MiddlewareNamesDistinct(atom.meta.name, i, j);
  }

  /** No group whose index precedes this one as a string claims the name. */
  predicate NotClaimedEarlier(atom: Atom, index: nat, name: string)
    requires AllSliceable(DownloadLinks(atom))
  {
    var links := DownloadLinks(atom);
    var order := GroupOrder(links);
    forall i :: 0 <= i < |order| && Less(Itoa(i), Itoa(index)) ==> !Claims(FilesWith(links, order[i]), name)
  }

  /** The group that a position of the chain was made for. */
  lemma ChainTargetIsGroup(atom: Atom, k: nat) returns (i: nat)
    requires AllSliceable(DownloadLinks(atom)) && k < |ChainTargets(atom)|
    ensures i < |GroupOrder(DownloadLinks(atom))| && ChainNames(atom)[k] == DownloadName(atom.meta.name, i)
    ensures ChainTargets(atom)[k] == GroupTarget(atom, i)
  {
    var count := |GroupOrder(DownloadLinks(atom))|;
    ChainNameIndex(atom.meta.name, count, ChainNames(atom)[k]);
    i := IndexOf(DownloadNames(atom.meta.name, count), ChainNames(atom)[k]);
  }

  /** The middleware of a group is the first to claim a name it claims unless an earlier group claims it. */
  lemma FirstUnlessClaimedEarlier(atom: Atom, index: nat, t: nat, name: string)
    requires AllSliceable(DownloadLinks(atom)) && index < |GroupOrder(DownloadLinks(atom))|
    requires t < |ChainTargets(atom)| && ChainNames(atom)[t] == DownloadName(atom.meta.name, index)
    requires Claims(ChainTargets(atom)[t].files, name)
    ensures FirstClaimer(ChainTargets(atom), name) == Some(t) <==> NotClaimedEarlier(atom, index, name)
  {
    FirstClaimerIsFirst(ChainTargets(atom), name);
    var first := FirstClaimer(ChainTargets(atom), name).value;
    if NotClaimedEarlier(atom, index, name) {
      UnclaimedBefore(atom, index, t, name, first);
    } else {
      var k := ClaimedBefore(atom, index, t, name);
    }
  }

  lemma UnclaimedBefore(atom: Atom, index: nat, t: nat, name: string, first: nat)
    requires AllSliceable(DownloadLinks(atom)) && NotClaimedEarlier(atom, index, name)
    requires t < |ChainTargets(atom)| && ChainNames(atom)[t] == DownloadName(atom.meta.name, index)
    requires first < |ChainTargets(atom)| && Claims(ChainTargets(atom)[first].files, name)
    ensures t <= first
  {
    var i := ChainTargetIsGroup(atom, first);
    ChainOrder(atom, first, i, t, index);
  }

  lemma ClaimedBefore(atom: Atom, index: nat, t: nat, name: string) returns (k: nat)
    requires AllSliceable(DownloadLinks(atom)) && !NotClaimedEarlier(atom, index, name)
    requires t < |ChainTargets(atom)| && ChainNames(atom)[t] == DownloadName(atom.meta.name, index)
    ensures k < t && Claims(ChainTargets(atom)[k].files, name)
  {
    var links := DownloadLinks(atom);
    var i :| 0 <= i < |GroupOrder(links)| && Less(Itoa(i), Itoa(index)) && Claims(FilesWith(links, GroupOrder(links)[i]), name);
    k := ChainPosition(atom, i);
    ChainOrder(atom, k, i, t, index);
  }

  lemma ChainPrefixesDistinct(atom: Atom, k: nat, t: nat)
    requires AllSliceable(DownloadLinks(atom))
    requires k < |ChainTargets(atom)| && t < |ChainTargets(atom)|
    ensures ChainTargets(atom)[k].prefix == ChainTargets(atom)[t].prefix <==> k == t
  {
    var order := GroupOrder(DownloadLinks(atom));
    var names := DownloadNames(atom.meta.name, |order|);
    DownloadNamesDistinct(atom.meta.name, |order|);
    ChainNameIndex(atom.meta.name, |order|, ChainNames(atom)[k]);
    ChainNameIndex(atom.meta.name, |order|, ChainNames(atom)[t]);
    assert order[IndexOf(names, ChainNames(atom)[k])] == ChainTargets(atom)[k].prefix;
    assert order[IndexOf(names, ChainNames(atom)[t])] == ChainTargets(atom)[t].prefix;
  }

  /** A link's own group claims its name. */
  lemma OwnGroupClaims(links: seq<DownloadLink>, link: DownloadLink)
    requires AllSliceable(links) && link in links
    ensures Claims(FilesWith(links, link.GetBlobPrefix().value), link.GetBlobName())
  {
    var prefix, name := link.GetBlobPrefix().value, link.GetBlobName();
    BlobParts(link, prefix, name);
    FileBelongs(links, prefix, name);
    var files := FilesWith(links, prefix);
    var f :| 0 <= f < |files| && files[f] == name;
    assert MatchesPrefix(files[f], name);
  }

  // ----- What could get in between

  /**
   * No served path of another length hits the request, and no group hits the blob path that an earlier group
   * claiming the name would put. Earlier means smaller as a decimal string.
   */
  predicate Undisturbed(atom: Atom, path: string, name: string)
    requires AllSliceable(DownloadLinks(atom))
  {
    var count := |GroupOrder(DownloadLinks(atom))|;
    && (forall i :: 0 <= i < count ==> Aligned(GroupTarget(atom, i), path, name))
    && (forall i, j :: 0 <= i < count && 0 <= j < count && Less(Itoa(i), Itoa(j)) && Claims(GroupTarget(atom, i).files, name) ==>
          !GroupTarget(atom, j).HitBy(BlobPath(GroupTarget(atom, i).prefix, name)))
  }

  /** Paths that are unambiguous and lie outside the blob prefixes leave every plain name undisturbed. */
  lemma SimplePathsUndisturbed(atom: Atom, url: URL, name: string)
    requires AllSliceable(DownloadLinks(atom)) && url in atom.ServedURLs() && '/' !in name
    requires Unambiguous(PathsOf(atom.ServedURLs()), url.path)
    requires forall prefix :: prefix in GroupOrder(DownloadLinks(atom)) ==> Outside(PathsOf(atom.ServedURLs()), prefix)
    ensures Undisturbed(atom, url.path, name)
  {
    var count := |GroupOrder(DownloadLinks(atom))|;
    ServedPath(atom, url);
    forall i | 0 <= i < count
      ensures Aligned(GroupTarget(atom, i), url.path, name)
    {
      UnambiguousAligns(GroupTarget(atom, i), url.path, name);
    }
    forall i, j | 0 <= i < count && 0 <= j < count
      ensures !GroupTarget(atom, j).HitBy(BlobPath(GroupTarget(atom, i).prefix, name))
    {
      OutsideIsUnhit(GroupTarget(atom, j), GroupTarget(atom, i).prefix, name);
    }
  }

  lemma ServedPath(atom: Atom, url: URL)
    requires url in atom.ServedURLs()
    ensures url.path in PathsOf(atom.ServedURLs())
  {
    var u :| 0 <= u < |atom.ServedURLs()| && atom.ServedURLs()[u] == url;
    assert PathsOf(atom.ServedURLs())[u] == url.path;
  }

  lemma UndisturbedChain(atom: Atom, path: string, name: string)
    requires AllSliceable(DownloadLinks(atom)) && Undisturbed(atom, path, name)
    ensures forall k :: 0 <= k < |ChainTargets(atom)| ==> Aligned(ChainTargets(atom)[k], path, name)
    ensures BlobKept(ChainTargets(atom), name)
  {
    var targets := ChainTargets(atom);
    forall k | 0 <= k < |targets|
      ensures Aligned(targets[k], path, name)
    {
      var i := ChainTargetIsGroup(atom, k);
    }
    FirstClaimerIsFirst(targets, name);
    forall k, t | 0 <= k < t < |targets| && FirstClaimer(targets, name) == Some(k)
      ensures !targets[t].HitBy(BlobPath(targets[k].prefix, name))
    {
      var i := ChainTargetIsGroup(atom, k);
      var j := ChainTargetIsGroup(atom, t);
      ChainOrder(atom, k, i, t, j);
    }
  }

  // ----- Main result

  /** With nothing in between, a request lands at the blob of the first group in the chain that claims the name. */
  lemma DownloadOutcome(atom: Atom, path: string, name: string)
    requires Routable(atom) && Undisturbed(atom, path, name)
    ensures FirstClaimer(ChainTargets(atom), name).Some? ==> FirstClaimer(ChainTargets(atom), name).value < |ChainTargets(atom)|
    ensures RunMiddlewares(DownloadChain(atom), Request(path, name)) ==
            match FirstClaimer(ChainTargets(atom), name)
            case None => Some(Request(path, name))
            case Some(k) => Some(BlobPath(ChainTargets(atom)[k].prefix, name))
  {
    DownloadChainLands(atom, Request(path, name));
    UndisturbedChain(atom, path, name);
    ChainOutcome(ChainTargets(atom), path, name);
  }

  /**
   * A published download path reaches exactly the blob the feed names, if and only if no group that the
   * chain visits earlier claims the file name. Earlier means smaller as a decimal string.
   */
  lemma DownloadReachesItsBlob(atom: Atom, link: DownloadLink, url: URL)
    requires Routable(atom) && link in DownloadLinks(atom) && url in atom.ServedURLs()
    requires Undisturbed(atom, url.path, link.GetBlobName())
    ensures RunMiddlewares(DownloadChain(atom), Request(url.path, link.GetBlobName())) == Some("/" + link.data)
            <==> NotClaimedEarlier(atom, GroupIndex(atom, link), link.GetBlobName())
  {
    var name, index, targets := link.GetBlobName(), GroupIndex(atom, link), ChainTargets(atom);
    DownloadOutcome(atom, url.path, name);
    var t := ChainPosition(atom, index);
    OwnGroupClaims(DownloadLinks(atom), link);
    FirstUnlessClaimedEarlier(atom, index, t, name);
    FirstClaimerIsFirst(targets, name);
    var first := FirstClaimer(targets, name).value;
    ChainPrefixesDistinct(atom, first, t);
    LinkPath(link);
    BlobNamesPrefix(targets[first].prefix, link.GetBlobPrefix().value, name);
  }

  lemma LinkPath(link: DownloadLink)
    requires link.GetBlobPrefix().Ok?
    ensures "/" + link.data == "/" + link.GetBlobPrefix().value + "/" + link.GetBlobName()
  {
    var prefix, name := link.GetBlobPrefix().value, link.GetBlobName();
    BlobParts(link, prefix, name);
    assert "/" + (prefix + "/" + name) == "/" + prefix + "/" + name;
  }

  lemma BlobNamesPrefix(p: string, q: string, name: string)
    ensures "/" + p + "/" + name == "/" + q + "/" + name <==> p == q
  {
    if "/" + p + "/" + name == "/" + q + "/" + name {
      assert "/" + p + "/" + name == ("/" + p) + ("/" + name);
      assert "/" + q + "/" + name == ("/" + q) + ("/" + name);
      CancelSuffix("/" + p, "/" + q, "/" + name);
      CancelPrefix("/", p, q);
    }
  }

  // ----- Feed requests

  /** Two slashes in a row leave an empty segment between them. */
  lemma DoubleSlash(path: string, a: string, b: string) returns (n: nat)
    requires path != "" && path[0] == '/'
    requires path + "/" == a + "/" + "/" + b
    ensures 0 < n < |Split(path, '/')| && Split(path, '/')[n] == ""
  {
    assert path + "/" == path + ['/'] + "";
    SplitAt(path, '/', "");
    SplitAt(a, '/', ['/'] + b);
    SplitAt("", '/', b);
    assert ['/'] + b == "" + ['/'] + b;
    assert a + "/" + "/" + b == a + ['/'] + (['/'] + b);
    var pieces := Split(path, '/') + [""];
    n := |Split(a, '/')|;
    assert pieces == Split(a, '/') + ([""] + Split(b, '/'));
    assert pieces[n] == "";
  }

  lemma CleanPathPiece(path: string, n: nat)
    requires CleanPath(path) && 0 < n < |Split(path, '/')|
    ensures Split(path, '/')[n] != ""
  {
    SplitRooted(path);
    assert PlainSegment(Split(path[1..], '/')[n - 1]);
  }

  /** On the request for a plain name under a path, a prefix with a trailing slash matches within the path. */
  lemma PrefixEndsBeforeName(p: string, path: string, name: string)
    requires EndsWithSlash(p) && '/' !in name
    ensures p <= path + "/" + name <==> p <= path + "/"
  {
    var s := path + "/" + name;
    assert s == (path + "/") + name;
    if p <= s {
      assert p[|p| - 1] == s[|p| - 1];
      if |p| > |path + "/"| {
        InSecondPart(path + "/", name, |p| - 1);
      }
      assert p == s[..|p|] && (path + "/")[..|p|] == s[..|p|];
    }
  }

  /** No listed prefix before the first occurrence of `own` is a prefix of `own`. */
  predicate FirstToMatch(prefixes: seq<string>, own: string)
    requires own in prefixes
  {
    forall k :: 0 <= k < IndexOf(prefixes, own) ==> !(prefixes[k] <= own)
  }

  /** Stripping leaves "/name" exactly when the path's own prefix is the first that matches. */
  lemma {:induction false} StripOutcome(prefixes: seq<string>, path: string, name: string)
    requires CleanPath(path) && PlainSegment(name)
    requires path + "/" in prefixes
    requires forall k :: 0 <= k < |prefixes| ==> EndsWithSlash(prefixes[k])
    ensures Strip(prefixes, path + "/" + name) == "/" + name <==> FirstToMatch(prefixes, path + "/")
  {
    var own, first := path + "/", prefixes[0];
    PrefixEndsBeforeName(first, path, name);
    if first == own {
      assert (own + name)[|own|..] == name;
      assert name[0] in name;
    } else if first <= own {
      StripTooShort(first, path, name);
      assert prefixes[0] <= own && 0 < IndexOf(prefixes, own);
    } else {
      StripOutcome(prefixes[1..], path, name);
      assert IndexOf(prefixes, own) == 1 + IndexOf(prefixes[1..], own);
      assert FirstToMatch(prefixes, own) <==> FirstToMatch(prefixes[1..], own) by {
        assert forall k :: 0 < k < |prefixes| ==> prefixes[k] == prefixes[1..][k - 1];
      }
    }
  }

  lemma StripTooShort(p: string, path: string, name: string)
    requires CleanPath(path) && PlainSegment(name)
    requires EndsWithSlash(p) && p <= path + "/" && p != path + "/"
    ensures EnsureLeadingSlash((path + "/" + name)[|p|..]) != "/" + name
  {
    var own := path + "/";
    var tail := own[|p|..];
    assert own == p + tail && (path + "/" + name)[|p|..] == tail + name;
    if tail[0] == '/' {
      var a, b := p[..|p| - 1], tail[1..];
      assert own == a + "/" + "/" + b;
      var n := DoubleSlash(path, a, b);
      CleanPathPiece(path, n);
    }
    assert |EnsureLeadingSlash(tail + name)| == 1 + |tail| + |name|;
  }

  /**
   * A request for a feed under a served URL reaches the file of that name, if and only if no earlier
   * prefix of the strip middleware (the base URL's comes first) is a prefix of the URL's own.
   */
  lemma FeedRequestReachesItsFile(atom: Atom, url: URL, name: string)
    requires url in atom.ServedURLs() && CleanPath(url.path) && PlainSegment(name)
    ensures url.path + "/" in StripPrefixes(atom)
    ensures RunMiddleware(StripPrefix(StripPrefixes(atom)), url.path + "/" + name) == Some("/" + name)
            <==> FirstToMatch(StripPrefixes(atom), url.path + "/")
  {
    var prefixes, listed := StripPrefixes(atom), atom.ListedURLs();
    if listed == [] {
      assert prefixes[0] == url.path + "/";
    } else {
      var k :| 0 <= k < |listed| && listed[k] == url;
      assert prefixes[k + 1] == url.path + "/";
    }
    StripOutcome(prefixes, url.path, name);
  }

  /** The repository's own largest example fails that condition: its second URL extends its base URL. */
  lemma NestedURLIsStrippedTooShort(atom: Atom, base: URL, other: URL)
    requires atom.spec.service.baseURL == base && atom.spec.ingressRouteURLs == Some([base, other])
    requires base.path == "/path" && other.path == "/path/other"
    ensures Strip(StripPrefixes(atom), "/path/other/index.xml") == "/other/index.xml"
  {
    assert StripPrefixes(atom)[0] == "/path/";
    assert "/path/" <= "/path/other/index.xml";
    assert "/path/other/index.xml"[6..] == "other/index.xml";
  }
}
