/**
 * What a chain of download middlewares does to a request path. The regular expressions that the operator
 * writes are refined by a plain function on paths, for every request; under a condition on the request the
 * function has a closed form.
 */
module RewriteChains {
  import opened Wrappers
  import opened Strings
  import opened Traefik
  import opened Middlewares

  const DOWNLOADS := "/downloads/"

  function Request(path: string, name: string): string {
    path + DOWNLOADS + name
  }

  function BlobPath(prefix: string, name: string): string {
    "/" + prefix + "/" + name
  }

  /** Some file of the group matches at the start of the name. */
  predicate Claims(files: seq<string>, name: string) {
    exists k :: 0 <= k < |files| && MatchesPrefix(files[k], name)
  }

  /** What one download middleware was made for. */
  datatype Target = Target(paths: seq<string>, prefix: string, files: seq<string>) {

    function Spec(): MiddlewareSpec {
      ReplacePathRegex(PathRegex(paths, files), "/" + prefix + "/$2")
    }

    predicate WellFormed() {
      paths != [] && files != [] && '$' !in prefix && AllLiteralOrDot(paths) && AllLiteralOrDot(files)
    }

    /** Some served path, the downloads directory and a file match at the start of the path. */
    predicate HitBy(s: string) {
      exists k :: 0 <= k < |paths| && Hits(paths[k], DOWNLOADS, files, s)
    }

    /** Where a path lands: behind the first served path that hits, the file name and all else stay. */
    function Landed(s: string): string {
      var k := FirstHit(paths, DOWNLOADS, files, s);
      if k.None? then s else BlobPath(prefix, s[|paths[k.value] + DOWNLOADS|..])
    }
  }

  // ----- One middleware

  lemma DownloadsIsLiteral()
    ensures LiteralOrDot(DOWNLOADS)
  {
  }

  lemma RegexShape(paths: string, files: string)
    ensures ("^(" + paths + ")/downloads/" + "(" + files + ")")[1..]
            == "(" + paths + ")" + (DOWNLOADS + ("(" + files + ")" + ""))
  {
  }

  lemma RegexParses(paths: seq<string>, files: seq<string>)
    requires paths != [] && files != [] && AllLiteralOrDot(paths) && AllLiteralOrDot(files)
    ensures ParseRegex(PathRegex(paths, files)) == Some([Group(paths), Text(DOWNLOADS), Group(files)])
  {
    DownloadsIsLiteral();
    RegexShape(Join(paths, "|"), Join(files, "|"));
    ParseThreeParts(paths, DOWNLOADS, files);
  }

  lemma ReplacementExpands(prefix: string, captures: seq<string>)
    requires '$' !in prefix && |captures| == 3
    ensures Expand("/" + prefix + "/$2", captures) == "/" + prefix + "/" + captures[2]
  {
    var before := "/" + prefix + "/";
    assert "/" + prefix + "/$2" == before + "$2";
    ExpandPlain(before, "$2", captures);
    assert Itoa(2) == "2";
    ExpandReference(2, captures);
  }

  /** The regex and the replacement text mean what the plain function says, on every path. */
  lemma TargetLands(target: Target, s: string)
    requires target.WellFormed()
    ensures RunMiddleware(target.Spec(), s) == Some(target.Landed(s))
  {
    var paths, files := target.paths, target.files;
    var regex, replacement := PathRegex(paths, files), "/" + target.prefix + "/$2";
    RegexParses(paths, files);
    if FirstHit(paths, DOWNLOADS, files, s).Some? {
      var captures, rest := RewriteHit(regex, replacement, paths, DOWNLOADS, files, s);
      ReplacementExpands(target.prefix, captures);
      ConcatThree("/" + target.prefix + "/", captures[2], rest);
    } else {
      RewriteMiss(regex, replacement, paths, DOWNLOADS, files, s);
    }
  }

  lemma ConcatThree(a: string, b: string, c: string)
    ensures a + b + c == a + (b + c)
  {
  }

  // ----- A chain

  function SpecsOf(targets: seq<Target>): seq<MiddlewareSpec> {
    seq(|targets|, k requires 0 <= k < |targets| => targets[k].Spec())
  }

  predicate AllWellFormed(targets: seq<Target>) {
    forall k :: 0 <= k < |targets| ==> targets[k].WellFormed()
  }

  function Land(targets: seq<Target>, s: string): string {
    if targets == [] then s else Land(targets[1..], targets[0].Landed(s))
  }

  /** A chain of middlewares is the plain function, on every path. */
  lemma {:induction false} ChainLands(targets: seq<Target>, s: string)
    requires AllWellFormed(targets)
    ensures RunMiddlewares(SpecsOf(targets), s) == Some(Land(targets, s))
  {
    if targets != [] {
      TargetLands(targets[0], s);
      SpecsTail(targets);
      ChainLands(targets[1..], targets[0].Landed(s));
    }
  }

  lemma SpecsTail(targets: seq<Target>)
    requires targets != []
    ensures SpecsOf(targets) == [targets[0].Spec()] + SpecsOf(targets[1..])
    ensures SpecsOf(targets)[1..] == SpecsOf(targets[1..])
  {
  }

  /** A path that no middleware hits stays as it is. */
  lemma {:induction false} LandUnhit(targets: seq<Target>, s: string)
    requires forall k :: 0 <= k < |targets| ==> !targets[k].HitBy(s)
    ensures Land(targets, s) == s
  {
    if targets != [] {
      LandUnhit(targets[1..], s);
    }
  }

  // ----- Download requests

  /** Served paths that hit the request are as long as its own, so they end where the name begins. */
  predicate Aligned(target: Target, path: string, name: string) {
    path in target.paths &&
    forall k :: 0 <= k < |target.paths| && Hits(target.paths[k], DOWNLOADS, target.files, Request(path, name)) ==>
      |target.paths[k]| == |path|
  }

  lemma RequestName(path: string, name: string)
    ensures |Request(path, name)| == |path + DOWNLOADS| + |name| && Request(path, name)[|path + DOWNLOADS|..] == name
    ensures MatchesPrefix(path + DOWNLOADS, Request(path, name))
  {
    MatchesItself(path + DOWNLOADS, name);
  }

  /** An aligned middleware hits a download request exactly when it claims the name, and then puts its own blob. */
  lemma LandedRequest(target: Target, path: string, name: string)
    requires Aligned(target, path, name)
    ensures target.Landed(Request(path, name))
            == if Claims(target.files, name) then BlobPath(target.prefix, name) else Request(path, name)
  {
    var s, paths := Request(path, name), target.paths;
    RequestName(path, name);
    var own :| 0 <= own < |paths| && paths[own] == path;
    assert Hits(paths[own], DOWNLOADS, target.files, s) <==> Claims(target.files, name);
    var k := FirstHit(paths, DOWNLOADS, target.files, s);
    if k.Some? {
      assert |paths[k.value] + DOWNLOADS| == |path + DOWNLOADS|;
    }
  }

  /** The first target in the chain that claims the name. */
  function FirstClaimer(targets: seq<Target>, name: string): Option<nat> {
    if targets == [] then
      None
    else if Claims(targets[0].files, name) then
      Some(0)
    else
      var k :- FirstClaimer(targets[1..], name);
      Some(k + 1)
  }

  lemma {:induction false} FirstClaimerIsFirst(targets: seq<Target>, name: string)
    ensures FirstClaimer(targets, name).None? <==> forall k :: 0 <= k < |targets| ==> !Claims(targets[k].files, name)
    ensures var found := FirstClaimer(targets, name);
            found.Some? ==>
              && found.value < |targets|
              && Claims(targets[found.value].files, name)
              && forall k :: 0 <= k < found.value ==> !Claims(targets[k].files, name)
  {
    if targets != [] {
      FirstClaimerIsFirst(targets[1..], name);
      assert forall k :: 0 < k < |targets| ==> targets[k] == targets[1..][k - 1];
    }
  }

  /** When the first target does not claim the name, the others decide. */
  lemma FirstBehind(targets: seq<Target>, name: string)
    requires targets != [] && !Claims(targets[0].files, name)
    ensures var rest, later := targets[1..], FirstClaimer(targets[1..], name);
            && FirstClaimer(targets, name) == (if later.None? then None else Some(later.value + 1))
            && (later.Some? && later.value < |rest| ==>
                  rest[later.value] == targets[later.value + 1] && rest[later.value + 1..] == targets[later.value + 2..])
  {
  }

  /** A path that every target either leaves alone or replaces by its blob path, if it claims the name. */
  predicate LandsByName(targets: seq<Target>, s: string, name: string) {
    forall k :: 0 <= k < |targets| ==>
      targets[k].Landed(s) == if Claims(targets[k].files, name) then BlobPath(targets[k].prefix, name) else s
  }

  lemma LandsBehind(targets: seq<Target>, s: string, name: string)
    requires LandsByName(targets, s, name) && targets != []
    ensures LandsByName(targets[1..], s, name)
  {
    assert forall k :: 0 <= k < |targets[1..]| ==> targets[1..][k] == targets[k + 1];
  }

  lemma {:induction false} LandByName(targets: seq<Target>, s: string, name: string)
    requires LandsByName(targets, s, name)
    ensures FirstClaimer(targets, name).Some? ==> FirstClaimer(targets, name).value < |targets|
    ensures Land(targets, s) ==
            match FirstClaimer(targets, name)
            case None => s
            case Some(k) => Land(targets[k + 1..], BlobPath(targets[k].prefix, name))
  {
    if targets != [] && !Claims(targets[0].files, name) {
      LandsBehind(targets, s, name);
      LandByName(targets[1..], s, name);
      FirstBehind(targets, name);
    }
  }

  /** A chain sends a download request to the blob of the first target that claims the name, and on from there. */
  lemma LandRequest(targets: seq<Target>, path: string, name: string)
    requires forall k :: 0 <= k < |targets| ==> Aligned(targets[k], path, name)
    ensures FirstClaimer(targets, name).Some? ==> FirstClaimer(targets, name).value < |targets|
    ensures Land(targets, Request(path, name)) ==
            match FirstClaimer(targets, name)
            case None => Request(path, name)
            case Some(k) => Land(targets[k + 1..], BlobPath(targets[k].prefix, name))
  {
    forall k | 0 <= k < |targets|
      ensures targets[k].Landed(Request(path, name))
              == if Claims(targets[k].files, name) then BlobPath(targets[k].prefix, name) else Request(path, name)
    {
      LandedRequest(targets[k], path, name);
    }
    LandByName(targets, Request(path, name), name);
  }

  /** No middleware behind the first that claims the name hits the blob path that it puts. */
  predicate BlobKept(targets: seq<Target>, name: string) {
    forall i, j :: 0 <= i < j < |targets| && FirstClaimer(targets, name) == Some(i) ==>
      !targets[j].HitBy(BlobPath(targets[i].prefix, name))
  }

  /** Then the request stays at the blob of the first target that claims the name. */
  lemma ChainOutcome(targets: seq<Target>, path: string, name: string)
    requires forall k :: 0 <= k < |targets| ==> Aligned(targets[k], path, name)
    requires BlobKept(targets, name)
    ensures FirstClaimer(targets, name).Some? ==> FirstClaimer(targets, name).value < |targets|
    ensures Land(targets, Request(path, name)) ==
            match FirstClaimer(targets, name)
            case None => Request(path, name)
            case Some(k) => BlobPath(targets[k].prefix, name)
  {
    LandRequest(targets, path, name);
    if FirstClaimer(targets, name).Some? {
      KeptBehind(targets, name, FirstClaimer(targets, name).value);
    }
  }

  lemma KeptBehind(targets: seq<Target>, name: string, k: nat)
    requires BlobKept(targets, name) && k < |targets| && FirstClaimer(targets, name) == Some(k)
    ensures Land(targets[k + 1..], BlobPath(targets[k].prefix, name)) == BlobPath(targets[k].prefix, name)
  {
    var rest := targets[k + 1..];
    forall j | 0 <= j < |rest|
      ensures !rest[j].HitBy(BlobPath(targets[k].prefix, name))
    {
      assert rest[j] == targets[k + 1 + j];
    }
    LandUnhit(rest, BlobPath(targets[k].prefix, name));
  }

  // ----- A simpler condition on paths and prefixes alone

  /** No served path matches inside another one's downloads path at a different length. */
  predicate Unambiguous(paths: seq<string>, path: string) {
    forall k :: 0 <= k < |paths| && MatchesPrefix(paths[k] + DOWNLOADS, path + DOWNLOADS) ==> |paths[k]| == |path|
  }

  /** No served downloads path matches at the start of the blob prefix. */
  predicate Outside(paths: seq<string>, prefix: string) {
    forall k :: 0 <= k < |paths| ==> !MatchesPrefix(paths[k] + DOWNLOADS, "/" + prefix + "/")
  }

  lemma InSecondPart(a: string, b: string, i: int)
    requires |a| <= i < |a + b|
    ensures (a + b)[i] in b
  {
  }

  /** A pattern that ends in a slash and matches a path followed by a plain name lies within the path. */
  lemma MatchEndsBeforeName(p: string, path: string, name: string)
    requires '/' !in name
    ensures MatchesPrefix(p + DOWNLOADS, path + name) <==> MatchesPrefix(p + DOWNLOADS, path)
  {
    var q := p + DOWNLOADS;
    if MatchesPrefix(q, path + name) {
      assert q[|q| - 1] == '/' && CharMatches(q[|q| - 1], (path + name)[|q| - 1]);
      if |q| > |path| {
        InSecondPart(path, name, |q| - 1);
      }
      assert forall k :: 0 <= k < |path| ==> (path + name)[k] == path[k];
    }
    if MatchesPrefix(q, path) {
      assert forall k :: 0 <= k < |path| ==> (path + name)[k] == path[k];
    }
  }

  lemma UnambiguousAligns(target: Target, path: string, name: string)
    requires path in target.paths && Unambiguous(target.paths, path) && '/' !in name
    ensures Aligned(target, path, name)
  {
    forall k | 0 <= k < |target.paths| && Hits(target.paths[k], DOWNLOADS, target.files, Request(path, name))
      ensures |target.paths[k]| == |path|
    {
      assert Request(path, name) == (path + DOWNLOADS) + name;
      MatchEndsBeforeName(target.paths[k], path + DOWNLOADS, name);
    }
  }

  lemma OutsideIsUnhit(target: Target, prefix: string, name: string)
    requires Outside(target.paths, prefix) && '/' !in name
    ensures !target.HitBy(BlobPath(prefix, name))
  {
    forall k | 0 <= k < |target.paths|
      ensures !Hits(target.paths[k], DOWNLOADS, target.files, BlobPath(prefix, name))
    {
      assert BlobPath(prefix, name) == ("/" + prefix + "/") + name;
      MatchEndsBeforeName(target.paths[k], "/" + prefix + "/", name);
    }
  }
}
