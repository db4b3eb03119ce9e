/** The middlewares of an atom and the grouping of its download links by blob prefix. */
module Middlewares {
  import opened Wrappers
  import opened Strings
  import opened Sequences
  import opened Urls
  import opened AtomTypes
  import opened KubeObjects
  import opened Traefik

  // ----- Download link groups

  /** `index` is a pointer in the operator. */
  datatype LinkGroup = LinkGroup(index: Option<nat>, files: seq<string>)

  predicate AllSliceable(links: seq<DownloadLink>) {
    forall k :: 0 <= k < |links| ==> '/' in links[k].data
  }

  function Prefixes(links: seq<DownloadLink>): seq<string>
    requires AllSliceable(links)
  {
    seq(|links|, k requires 0 <= k < |links| => links[k].GetBlobPrefix().value)
  }

  /** The distinct prefixes in order of first occurrence. */
  function GroupOrder(links: seq<DownloadLink>): seq<string>
    requires AllSliceable(links)
  {
    Distinct(Prefixes(links))
  }

  /** The names of the links with the given prefix, in order and with repeats. */
  function FilesWith(links: seq<DownloadLink>, prefix: string): seq<string> {
    if links == [] then
      []
    else
      var init, last := FilesWith(links[..|links| - 1], prefix), links[|links| - 1];
      if last.GetBlobPrefix() == Ok(prefix) then init + [last.GetBlobName()] else init
  }

  /** The group of every prefix: its rank among the prefixes and its files. */
  function GroupsOf(links: seq<DownloadLink>): map<string, LinkGroup>
    requires AllSliceable(links)
  {
    map prefix | prefix in GroupOrder(links) ::
      LinkGroup(Some(IndexOf(GroupOrder(links), prefix)), FilesWith(links, prefix))
  }

  /** getDownloadLinkGroups: Err stands for the panic on a link without a slash. */
  function DownloadLinkGroups(links: seq<DownloadLink>): Result<map<string, LinkGroup>> {
    if AllSliceable(links) then Ok(GroupsOf(links)) else Err(SliceOutOfRange)
  }

  method GetDownloadLinkGroups(links: seq<DownloadLink>) returns (result: Result<map<string, LinkGroup>>)
    ensures result == DownloadLinkGroups(links)
  {
    var groups: map<string, LinkGroup> := map[];
    var counter := 0;
    for k := 0 to |links|
      invariant AllSliceable(links[..k])
      invariant groups == GroupsOf(links[..k])
      invariant counter == |GroupOrder(links[..k])|
    {
      var link := links[k];
      PrefixesAppend(links[..k], link);
      assert links[..k + 1] == links[..k] + [link];
      var prefix := link.GetBlobPrefix();
      if prefix.Err? {
        return Err(prefix.error);
      }
      var file := link.GetBlobName();
      OrderAppend(links[..k], link);
      GroupsAppend(links[..k], link);
      if prefix.value in groups {
        var group := groups[prefix.value];
        if group.index.None? {
          // Here the operator would hand out an index late; every group in the map already has one.
          assert false;
        }
        groups := groups[prefix.value := group.(files := group.files + [file])];
      } else {
        groups := groups[prefix.value := LinkGroup(Some(counter), [file])];
        counter := counter + 1;
      }
    }
    assert links[..|links|] == links;
    return Ok(groups);
  }

  lemma PrefixesAppend(links: seq<DownloadLink>, link: DownloadLink)
    requires AllSliceable(links)
    ensures AllSliceable(links + [link]) <==> link.GetBlobPrefix().Ok?
    ensures link.GetBlobPrefix().Ok? ==> Prefixes(links + [link]) == Prefixes(links) + [link.GetBlobPrefix().value]
  {
    assert forall k :: 0 <= k < |links| ==> (links + [link])[k] == links[k];
    assert (links + [link])[|links|] == link;
  }

  lemma FilesAppend(links: seq<DownloadLink>, link: DownloadLink, prefix: string)
    ensures FilesWith(links + [link], prefix)
            == FilesWith(links, prefix) + (if link.GetBlobPrefix() == Ok(prefix) then [link.GetBlobName()] else [])
  {
    assert (links + [link])[..|links|] == links;
  }

  lemma {:induction false} FilesOfAbsentPrefix(links: seq<DownloadLink>, prefix: string)
    requires AllSliceable(links) && prefix !in GroupOrder(links)
    ensures FilesWith(links, prefix) == []
  {
    if links != [] {
      var init := links[..|links| - 1];
      assert links == init + [links[|links| - 1]];
      PrefixesAppend(init, links[|links| - 1]);
      FilesOfAbsentPrefix(init, prefix);
    }
  }

  /** The groups after one more link with the given prefix and file. */
  function WithLink(groups: map<string, LinkGroup>, prefix: string, file: string): map<string, LinkGroup> {
    groups[prefix :=
      if prefix in groups then LinkGroup(groups[prefix].index, groups[prefix].files + [file])
      else LinkGroup(Some(|groups|), [file])]
  }

  lemma OrderAppend(links: seq<DownloadLink>, link: DownloadLink)
    requires AllSliceable(links) && AllSliceable(links + [link])
    ensures link.GetBlobPrefix().Ok?
    ensures |GroupsOf(links)| == |GroupOrder(links)|
    ensures var order, prefix := GroupOrder(links), link.GetBlobPrefix().value;
            GroupOrder(links + [link]) == if prefix in order then order else order + [prefix]
  {
    PrefixesAppend(links, link);
    GroupIndices(links);
    DistinctAppend(Prefixes(links), link.GetBlobPrefix().value);
  }

  /** What one more link does to the group of one prefix. */
  lemma GroupAppend(links: seq<DownloadLink>, link: DownloadLink, p: string)
    requires AllSliceable(links) && AllSliceable(links + [link]) && link.GetBlobPrefix().Ok?
    ensures var groups', updated := GroupsOf(links + [link]),
              WithLink(GroupsOf(links), link.GetBlobPrefix().value, link.GetBlobName());
            (p in groups' <==> p in updated) && (p in groups' ==> groups'[p] == updated[p])
  {
    OrderAppend(links, link);
    FilesAppend(links, link, p);
    RankAppend(GroupOrder(links), link.GetBlobPrefix().value, GroupOrder(links + [link]), p);
    if p !in GroupOrder(links) {
      FilesOfAbsentPrefix(links, p);
    }
  }

  /** Ranks stay, and a new prefix ranks last. */
  lemma RankAppend(order: seq<string>, prefix: string, order': seq<string>, p: string)
    requires order' == (if prefix in order then order else order + [prefix]) && NoDuplicates(order')
    ensures p in order' <==> p in order || p == prefix
    ensures p in order ==> IndexOf(order', p) == IndexOf(order, p)
    ensures p in order' && p !in order ==> IndexOf(order', p) == |order|
  {
    if p in order {
      assert order'[IndexOf(order, p)] == p;
      IndexOfUnique(order', IndexOf(order, p));
    } else if p in order' {
      IndexOfUnique(order', |order|);
    }
  }

  lemma MapsEqual<K, V>(m: map<K, V>, n: map<K, V>)
    requires m.Keys == n.Keys
    requires forall k :: k in m ==> m[k] == n[k]
    ensures m == n
  {
  }

  /** What one more link does to the groups. */
  lemma GroupsAppend(links: seq<DownloadLink>, link: DownloadLink)
    requires AllSliceable(links) && AllSliceable(links + [link]) && link.GetBlobPrefix().Ok?
    ensures GroupsOf(links + [link]) == WithLink(GroupsOf(links), link.GetBlobPrefix().value, link.GetBlobName())
  {
    var groups', updated := GroupsOf(links + [link]),
      WithLink(GroupsOf(links), link.GetBlobPrefix().value, link.GetBlobName());
    forall p
      ensures (p in groups' <==> p in updated) && (p in groups' ==> groups'[p] == updated[p])
    {
      GroupAppend(links, link, p);
    }
    MapsEqual(groups', updated);
  }

  // ----- The groups partition the links

  function FileCounts(links: seq<DownloadLink>, prefixes: seq<string>): seq<nat> {
    seq(|prefixes|, k requires 0 <= k < |prefixes| => |FilesWith(links, prefixes[k])|)
  }

  /** The number of files in the groups of the given prefixes. */
  function FileCount(links: seq<DownloadLink>, prefixes: seq<string>): nat {
    Sum(FileCounts(links, prefixes))
  }

  /** No link is lost or doubled: the groups together have as many files as there are links. */
  lemma {:induction false} FileCountsAddUp(links: seq<DownloadLink>)
    requires AllSliceable(links)
    ensures FileCount(links, GroupOrder(links)) == |links|
  {
    if links == [] {
      assert GroupOrder(links) == [];
    } else {
      var init, link := links[..|links| - 1], links[|links| - 1];
      assert links == init + [link];
      PrefixesAppend(init, link);
      FileCountsAddUp(init);
      var prefix := link.GetBlobPrefix().value;
      DistinctAppend(Prefixes(init), prefix);
      FileCountsAppend(init, link, GroupOrder(init));
      if prefix !in GroupOrder(init) {
        FilesOfAbsentPrefix(init, prefix);
        FilesAppend(init, link, prefix);
        SumAppend(FileCounts(links, GroupOrder(init)), 1);
        assert FileCounts(links, GroupOrder(links)) == FileCounts(links, GroupOrder(init)) + [1];
      }
    }
  }

  /** One more link adds one file to the group of its prefix, if that is among the given ones. */
  lemma FileCountsAppend(links: seq<DownloadLink>, link: DownloadLink, prefixes: seq<string>)
    requires NoDuplicates(prefixes) && link.GetBlobPrefix().Ok?
    ensures FileCount(links + [link], prefixes)
            == FileCount(links, prefixes) + if link.GetBlobPrefix().value in prefixes then 1 else 0
  {
    var prefix := link.GetBlobPrefix().value;
    var counts, counts' := FileCounts(links, prefixes), FileCounts(links + [link], prefixes);
    forall k | 0 <= k < |prefixes|
      ensures counts'[k] == counts[k] + if prefixes[k] == prefix then 1 else 0
    {
      FilesAppend(links, link, prefixes[k]);
    }
    if prefix in prefixes {
      var i := IndexOf(prefixes, prefix);
      SumUpdate(counts, i, counts[i] + 1);
      assert counts' == counts[i := counts[i] + 1];
    } else {
      assert counts' == counts;
    }
  }

  /** A name is listed under a prefix exactly when some link is that prefix, a slash and that name. */
  lemma {:induction false} FileBelongs(links: seq<DownloadLink>, prefix: string, name: string)
    requires '/' !in name
    ensures name in FilesWith(links, prefix) <==>
              exists k :: 0 <= k < |links| && links[k].data == prefix + "/" + name
  {
    if links != [] {
      var init, link := links[..|links| - 1], links[|links| - 1];
      FileBelongs(init, prefix, name);
      BlobParts(link, prefix, name);
      if k :| 0 <= k < |links| && links[k].data == prefix + "/" + name {
        if k < |init| {
          assert init[k].data == prefix + "/" + name;
        } else {
          assert link.GetBlobName() == name;
          assert name == (FilesWith(init, prefix) + [name])[|FilesWith(init, prefix)|];
        }
      }
      if k :| 0 <= k < |init| && init[k].data == prefix + "/" + name {
        assert links[k].data == prefix + "/" + name;
      }
      if name in FilesWith(links, prefix) && name !in FilesWith(init, prefix) {
        assert links[|links| - 1].data == prefix + "/" + name;
      }
    }
  }

  /** The groups are numbered 0, 1, and so on, each number once. */
  predicate Indexed(groups: map<string, LinkGroup>) {
    && (forall p :: p in groups ==> groups[p].index.Some? && groups[p].index.value < |groups|)
    && (forall p, q :: p in groups && q in groups && groups[p].index == groups[q].index ==> p == q)
    && (forall i :: 0 <= i < |groups| ==> exists p :: p in groups && groups[p].index == Some(i))
  }

  /**
   * Grouping is a partition: every prefix of a link has a group and no other does, every group has an
   * index and files, the indices are exactly 0 up to the number of groups, in the order in which the prefixes
   * first occur among the links, and the file counts add up.
   */
  lemma GroupsPartition(links: seq<DownloadLink>)
    requires AllSliceable(links)
    ensures var groups := GroupsOf(links);
            && groups.Keys == (set link | link in links :: link.GetBlobPrefix().value)
            && Indexed(groups)
            && (forall p, q :: p in groups && q in groups ==>
                  (groups[p].index.value < groups[q].index.value <==>
                   IndexOf(Prefixes(links), p) < IndexOf(Prefixes(links), q)))
            && (forall p :: p in groups ==> groups[p].files != [])
            && FileCount(links, GroupOrder(links)) == |links|
  {
    forall p, q | p in GroupsOf(links) && q in GroupsOf(links)
      ensures GroupsOf(links)[p].index.value < GroupsOf(links)[q].index.value <==>
                IndexOf(Prefixes(links), p) < IndexOf(Prefixes(links), q)
    {
      DistinctInOrder(Prefixes(links), p, q);
    }
    FileCountsAddUp(links);
    GroupKeys(links);
    GroupIndices(links);
    forall p | p in GroupsOf(links)
      ensures GroupsOf(links)[p].files != []
    {
      var k :| 0 <= k < |links| && Prefixes(links)[k] == p;
      BlobParts(links[k], p, links[k].GetBlobName());
      FileBelongs(links, p, links[k].GetBlobName());
    }
  }

  lemma GroupKeys(links: seq<DownloadLink>)
    requires AllSliceable(links)
    ensures GroupsOf(links).Keys == set link | link in links :: link.GetBlobPrefix().value
  {
    forall p
      ensures p in GroupsOf(links).Keys <==> p in set link | link in links :: link.GetBlobPrefix().value
    {
      if p in GroupsOf(links) {
        var k :| 0 <= k < |links| && Prefixes(links)[k] == p;
        assert links[k] in links;
      }
      if link :| link in links && link.GetBlobPrefix().value == p {
        var k :| 0 <= k < |links| && links[k] == link;
        assert Prefixes(links)[k] == p;
      }
    }
  }

  lemma GroupIndices(links: seq<DownloadLink>)
    requires AllSliceable(links)
    ensures var groups := GroupsOf(links);
            |groups| == |GroupOrder(links)| && Indexed(groups)
  {
    var groups, order := GroupsOf(links), GroupOrder(links);
    SizeOfDistinct(order);
    assert groups.Keys == set p | p in order;
    forall i | 0 <= i < |groups|
      ensures exists p :: p in groups && groups[p].index == Some(i)
    {
      IndexOfUnique(order, i);
      assert groups[order[i]].index == Some(i);
    }
  }

  lemma {:induction false} SizeOfDistinct<T>(xs: seq<T>)
    requires NoDuplicates(xs)
    ensures |set x | x in xs| == |xs|
  {
    if xs != [] {
      SizeOfDistinct(xs[1..]);
      assert (set x | x in xs) == {xs[0]} + set x | x in xs[1..];
      assert xs[0] !in xs[1..];
    }
  }

  // ----- Middleware contents

  function PathsOf(urls: seq<URL>): seq<string> {
    seq(|urls|, k requires 0 <= k < |urls| => urls[k].path)
  }

  function PathRegex(paths: seq<string>, files: seq<string>): string {
    "^(" + Join(paths, "|") + ")/downloads/" + "(" + Join(files, "|") + ")"
  }

  function DownloadLinkRegex(urls: seq<URL>, files: seq<string>): string {
    PathRegex(PathsOf(urls), files)
  }

  method GetDownloadLinkRegex(urls: seq<URL>, files: seq<string>) returns (regex: string)
    ensures regex == DownloadLinkRegex(urls, files)
  {
    var paths := [];
    for k := 0 to |urls|
      invariant paths == PathsOf(urls[..k])
    {
      paths := paths + [urls[k].path];
    }
    assert urls[..|urls|] == urls;
    return "^(" + Join(paths, "|") + ")/downloads/" + "(" + Join(files, "|") + ")";
  }

  function StripPrefixes(atom: Atom): seq<string> {
    [atom.spec.service.baseURL.path + "/"] +
    seq(|atom.ListedURLs()|, k requires 0 <= k < |atom.ListedURLs()| => atom.ListedURLs()[k].path + "/")
  }

  function StripPrefixMiddleware(atom: Atom, stored: Middleware): Middleware {
    Middleware(ObjectLabels(atom, stored.labels), StripPrefix(StripPrefixes(atom)))
  }

  method MutateStripPrefixMiddleware(atom: Atom, middleware: MiddlewareObject)
    modifies middleware
    ensures middleware.Value() == StripPrefixMiddleware(atom, old(middleware.Value()))
  {
    middleware.labels := ObjectLabels(atom, middleware.labels);
    middleware.spec := StripPrefix([atom.spec.service.baseURL.path + "/"]);
    var urls := atom.ListedURLs();
    for k := 0 to |urls|
      invariant middleware.labels == ObjectLabels(atom, old(middleware.labels))
      invariant middleware.spec == StripPrefix(StripPrefixes(atom)[..k + 1])
    {
      middleware.spec := middleware.spec.(prefixes := middleware.spec.prefixes + [urls[k].path + "/"]);
    }
    assert StripPrefixes(atom)[..|urls| + 1] == StripPrefixes(atom);
  }

  const CORS_HEADERS := map[
    "Access-Control-Allow-Headers" := "Content-Type",
    "Access-Control-Allow-Method" := "GET, OPTIONS, HEAD",
    "Access-Control-Allow-Origin" := "*"]

  function HeadersMiddleware(atom: Atom, csp: string, stored: Middleware): Middleware {
    Middleware(ObjectLabels(atom, stored.labels), Headers(csp, true, CORS_HEADERS))
  }

  method MutateHeadersMiddleware(atom: Atom, middleware: MiddlewareObject, csp: string)
    modifies middleware
    ensures middleware.Value() == HeadersMiddleware(atom, csp, old(middleware.Value()))
  {
    middleware.labels := ObjectLabels(atom, middleware.labels);
    middleware.spec := Headers(csp, true, CORS_HEADERS);
  }

  function DownloadLinkSpec(atom: Atom, prefix: string, files: seq<string>): MiddlewareSpec {
    ReplacePathRegex(DownloadLinkRegex(atom.ServedURLs(), files), "/" + prefix + "/$2")
  }

  function DownloadLinkMiddleware(atom: Atom, prefix: string, files: seq<string>, stored: Middleware): Middleware {
    Middleware(ObjectLabels(atom, stored.labels), DownloadLinkSpec(atom, prefix, files))
  }

  method MutateDownloadLinkMiddleware(atom: Atom, prefix: string, files: seq<string>, middleware: MiddlewareObject)
    modifies middleware
    ensures middleware.Value() == DownloadLinkMiddleware(atom, prefix, files, old(middleware.Value()))
  {
    middleware.labels := ObjectLabels(atom, middleware.labels);
    var urls := atom.ListedURLs();
    if |urls| == 0 {
      urls := [atom.spec.service.baseURL];
    }
    var regex := GetDownloadLinkRegex(urls, files);
    middleware.spec := ReplacePathRegex(regex, "/" + prefix + "/$2");
  }
}
