/** URLs without user info, query, fragment or escapes, and Go's path joining. */
module Urls {
  import opened Strings

  datatype URL = URL(scheme: string, hostname: string, port: string, path: string) {

    /** Go's URL.String. */
    function String(): string {
      scheme + ":" + "//" + HostPort() + (if path != "" && path[0] != '/' then "/" else "") + path
    }

    function HostPort(): string {
      hostname + (if port == "" then "" else ":" + port)
    }

    /** The URL with the elements joined to its path. */
    function JoinPath(elems: seq<string>): URL
      requires elems != []
    {
      this.(path := PathJoin(path, elems))
    }

    /** What a parsed absolute http(s) URL looks like. */
    predicate Absolute() {
      ':' !in scheme &&
      '/' !in hostname && ':' !in hostname &&
      '/' !in port && ':' !in port &&
      path != "" && path[0] == '/'
    }

    lemma Shape()
      requires Absolute()
      ensures String() == scheme + [':'] + ("//" + (HostPort() + ['/'] + path[1..]))
    {
      assert path == ['/'] + path[1..];
      Regroup(scheme + [':'], "//", HostPort(), path);
      Regroup("", HostPort(), ['/'], path[1..]);
    }
  }

  lemma Regroup(a: string, b: string, c: string, d: string)
    ensures a + b + c + "" + d == a + (b + (c + d))
  {
  }

  /** An absolute URL is determined by its text. */
  lemma StringInjective(u: URL, v: URL)
    requires u.Absolute() && v.Absolute()
    requires u.String() == v.String()
    ensures u == v
  {
    var hu, hv := u.HostPort(), v.HostPort();
    u.Shape();
    v.Shape();
    CutUnique(u.scheme, "//" + (hu + ['/'] + u.path[1..]), v.scheme, "//" + (hv + ['/'] + v.path[1..]), ':');
    CancelPrefix("//", hu + ['/'] + u.path[1..], hv + ['/'] + v.path[1..]);
    CutUnique(hu, u.path[1..], hv, v.path[1..], '/');
    HostPortUnique(u.hostname, u.port, v.hostname, v.port);
    assert u.path == ['/'] + u.path[1..] && v.path == ['/'] + v.path[1..];
  }

  lemma HostPortUnique(h: string, p: string, h': string, p': string)
    requires ':' !in h && ':' !in h' && ':' !in p && ':' !in p'
    requires h + (if p == "" then "" else ":" + p) == h' + (if p' == "" then "" else ":" + p')
    ensures h == h' && p == p'
  {
    var s, s' := h + (if p == "" then "" else ":" + p), h' + (if p' == "" then "" else ":" + p');
    assert if p == "" then s == h else s[|h|] == ':';
    assert if p' == "" then s' == h' else s'[|h'|] == ':';
    if p != "" && p' != "" {
      assert s == h + [':'] + p && s' == h' + [':'] + p';
      CutUnique(h, p, h', p', ':');
    }
  }

  // ----- path.Join and URL.JoinPath

  /** A path segment that cleaning leaves alone. */
  predicate PlainSegment(s: string) {
    s != "" && s != "." && s != ".." && '/' !in s
  }

  /** Go's path.Clean on the segments of a rooted path: `..` at the root is dropped. */
  function CleanSegments(segs: seq<string>): (r: seq<string>)
    ensures (forall k :: 0 <= k < |segs| ==> '/' !in segs[k]) ==>
              forall k :: 0 <= k < |r| ==> PlainSegment(r[k])
  {
    if segs == [] then
      []
    else
      var init, last := CleanSegments(segs[..|segs| - 1]), segs[|segs| - 1];
      if last == "" || last == "." then init
      else if last == ".." then (if init == [] then [] else init[..|init| - 1])
      else init + [last]
  }

  function CleanRooted(path: string): string {
    "/" + Join(CleanSegments(Split(path, '/')), "/")
  }

  predicate EndsWithSlash(s: string) {
    s != "" && s[|s| - 1] == '/'
  }

  /** URL.JoinPath on the path: join, clean, keep one trailing slash when the last element has one. */
  function PathJoin(path: string, elems: seq<string>): string
    requires elems != []
  {
    var all := Join([path] + elems, "/");
    var p := if path != "" && path[0] == '/' then CleanRooted(all) else CleanRooted("/" + all)[1..];
    if EndsWithSlash(elems[|elems| - 1]) && !EndsWithSlash(p) then p + "/" else p
  }

  /** A rooted path, other than the root itself, that cleaning leaves alone. */
  predicate CleanPath(path: string) {
    path != "" && path[0] == '/' &&
    forall k :: 0 <= k < |Split(path[1..], '/')| ==> PlainSegment(Split(path[1..], '/')[k])
  }

  lemma {:induction false} CleanPlain(segs: seq<string>)
    requires forall k :: 0 <= k < |segs| ==> PlainSegment(segs[k])
    ensures CleanSegments(segs) == segs
  {
    if segs != [] {
      CleanPlain(segs[..|segs| - 1]);
      assert segs == segs[..|segs| - 1] + [segs[|segs| - 1]];
    }
  }

  lemma {:induction false} CleanLeadingEmpty(segs: seq<string>)
    ensures CleanSegments([""] + segs) == CleanSegments(segs)
  {
    if segs == [] {
      assert [""][..0] == [];
    } else {
      var n := |segs|;
      assert ([""] + segs)[..n] == [""] + segs[..n - 1];
      CleanLeadingEmpty(segs[..n - 1]);
    }
  }

  lemma CleanTrailingEmpty(segs: seq<string>)
    ensures CleanSegments(segs + [""]) == CleanSegments(segs)
  {
    assert (segs + [""])[..|segs|] == segs;
  }

  /** The segments of a rooted path are the empty one followed by those after the slash. */
  lemma SplitRooted(path: string)
    requires path != "" && path[0] == '/'
    ensures Split(path, '/') == [""] + Split(path[1..], '/')
  {
    assert path == "" + ['/'] + path[1..];
  }

  lemma CleanRootedOfClean(path: string)
    requires CleanPath(path)
    ensures CleanRooted(path) == path
  {
    SplitRooted(path);
    var segs := Split(path[1..], '/');
    CleanLeadingEmpty(segs);
    CleanPlain(segs);
    JoinSplit(path[1..], '/');
    assert path == "/" + path[1..];
  }

  lemma CleanPathAppend(path: string, name: string)
    requires CleanPath(path) && PlainSegment(name)
    ensures CleanPath(path + "/" + name)
  {
    var q := path + "/" + name;
    assert q[1..] == path[1..] + ['/'] + name;
    SplitAt(path[1..], '/', name);
    SplitOfPiece(name, '/');
  }

  /** On a clean base path, joining a plain name appends it. */
  lemma JoinOne(path: string, name: string)
    requires CleanPath(path) && PlainSegment(name)
    ensures PathJoin(path, [name]) == path + "/" + name
  {
    CleanPathAppend(path, name);
    CleanRootedOfClean(path + "/" + name);
    JoinPair(path, name, "/");
    assert name[|name| - 1] in name;
  }

  lemma JoinTwo(path: string, dir: string, name: string)
    requires CleanPath(path) && PlainSegment(dir) && PlainSegment(name)
    ensures PathJoin(path, [dir, name]) == path + "/" + dir + "/" + name
  {
    CleanPathAppend(path, dir);
    CleanPathAppend(path + "/" + dir, name);
    CleanRootedOfClean(path + "/" + dir + "/" + name);
    JoinTriple(path, dir, name, "/");
    assert path + "/" + (dir + "/" + name) == path + "/" + dir + "/" + name;
    assert name[|name| - 1] in name;
  }

  /** Joining `dir/` keeps the trailing slash. */
  lemma JoinDirectory(path: string, dir: string)
    requires CleanPath(path) && PlainSegment(dir)
    ensures PathJoin(path, [dir + "/"]) == path + "/" + dir + "/"
  {
    var p := path + "/" + dir;
    CleanPathAppend(path, dir);
    CleanRootedOfClean(p);
    JoinPair(path, dir + "/", "/");
    assert path + "/" + (dir + "/") == p + ['/'] + "";
    SplitAt(p, '/', "");
    CleanTrailingEmpty(Split(p, '/'));
    assert CleanRooted(p + ['/'] + "") == p;
    assert p[|p| - 1] == dir[|dir| - 1] && dir[|dir| - 1] in dir;
  }

  /** Joining a directory and a name appends them exactly when the rooted base path is already clean. */
  lemma JoinTwoExactly(path: string, dir: string, name: string)
    requires path != "" && path[0] == '/'
    requires PlainSegment(dir) && PlainSegment(name)
    ensures PathJoin(path, [dir, name]) == path + "/" + dir + "/" + name <==> CleanPath(path)
  {
    if CleanPath(path) {
      JoinTwo(path, dir, name);
    } else if PathJoin(path, [dir, name]) == path + "/" + dir + "/" + name {
      JoinedIsClean(path, dir, name);
      CleanBeginning(path, dir + "/" + name);
    }
  }

  lemma JoinedIsClean(path: string, dir: string, name: string)
    requires path != "" && path[0] == '/' && PlainSegment(name)
    requires PathJoin(path, [dir, name]) == path + "/" + dir + "/" + name
    ensures CleanPath(path + ['/'] + (dir + "/" + name))
  {
    var q := path + "/" + dir + "/" + name;
    JoinTriple(path, dir, name, "/");
    assert path + "/" + (dir + "/" + name) == q == path + ['/'] + (dir + "/" + name);
    assert name[|name| - 1] in name;
    assert CleanRooted(q) == q;
    CleanImageIsClean(q);
  }

  /** What a clean path begins with, up to a slash, is clean. */
  lemma CleanBeginning(path: string, rest: string)
    requires path != "" && path[0] == '/' && CleanPath(path + ['/'] + rest)
    ensures CleanPath(path)
  {
    var q := path + ['/'] + rest;
    assert q[1..] == path[1..] + ['/'] + rest;
    SplitAt(path[1..], '/', rest);
    forall k | 0 <= k < |Split(path[1..], '/')|
      ensures PlainSegment(Split(path[1..], '/')[k])
    {
      assert Split(q[1..], '/')[k] == Split(path[1..], '/')[k];
    }
  }

  /** A rooted path that cleaning leaves alone, longer than the root, is clean. */
  lemma CleanImageIsClean(q: string)
    requires |q| > 1 && CleanRooted(q) == q
    ensures CleanPath(q)
  {
    var segs := CleanSegments(Split(q, '/'));
    assert q[1..] == Join(segs, "/");
    if segs != [] {
      SplitJoin(segs, '/');
    }
  }

  /** Plain names give distinct joined URLs. */
  lemma JoinOneInjective(u: URL, a: string, b: string)
    requires u.Absolute() && CleanPath(u.path) && PlainSegment(a) && PlainSegment(b)
    ensures u.JoinPath([a]).Absolute()
    ensures u.JoinPath([a]).String() == u.JoinPath([b]).String() <==> a == b
  {
    JoinOne(u.path, a);
    JoinOne(u.path, b);
    if u.JoinPath([a]).String() == u.JoinPath([b]).String() {
      StringInjective(u.JoinPath([a]), u.JoinPath([b]));
      CancelPrefix(u.path + "/", a, b);
    }
  }
}
