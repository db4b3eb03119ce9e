/**
 * What Traefik does with the objects the operator writes: middlewares rewrite the request path in the
 * order in which a route names them, and a route accepts the requests that its rule matches.
 * Traefik is not part of the repository; this module is the model's assumption about it. Regular
 * expressions are modelled for the shape the operator writes: `^` followed by text and by groups of
 * alternatives, where a dot stands for any character and every other character for itself.
 */
module Traefik {
  import opened Wrappers
  import opened Strings
  import opened Sequences

  datatype MiddlewareSpec =
    | StripPrefix(prefixes: seq<string>)
    | Headers(contentSecurityPolicy: string, frameDeny: bool, customResponseHeaders: map<string, string>)
    | ReplacePathRegex(regex: string, replacement: string)

  // ----- Regular expressions

  datatype Segment = Text(pattern: string) | Group(alternatives: seq<string>)

  const METACHARACTERS := "\\+*?()|[]{}^$"

  /** Only literal characters and dots. */
  predicate LiteralOrDot(p: string) {
    forall k :: 0 <= k < |p| ==> p[k] !in METACHARACTERS
  }

  predicate AllLiteralOrDot(ps: seq<string>) {
    forall k :: 0 <= k < |ps| ==> LiteralOrDot(ps[k])
  }

  function ParseSegments(s: string): Option<seq<Segment>> {
    if s == "" then
      Some([])
    else if s[0] == '(' then
      if ')' !in s then None else
      var close := IndexOf(s, ')');
      var alternatives := Split(s[1..close], '|');
      if !AllLiteralOrDot(alternatives) then None else
      var rest :- ParseSegments(s[close + 1..]);
      Some([Group(alternatives)] + rest)
    else
      var end := if '(' in s then IndexOf(s, '(') else |s|;
      if !LiteralOrDot(s[..end]) then None else
      var rest :- ParseSegments(s[end..]);
      Some([Text(s[..end])] + rest)
  }

  /** None when the expression is outside the modelled shape. */
  function ParseRegex(s: string): Option<seq<Segment>> {
    if s == "" || s[0] != '^' then None else ParseSegments(s[1..])
  }

  /** A dot matches every character but a newline. */
  predicate CharMatches(p: char, c: char) {
    p == c || (p == '.' && c != '\n')
  }

  /** The pattern matches at the start of the text. */
  predicate MatchesPrefix(p: string, s: string) {
    |p| <= |s| && forall k :: 0 <= k < |p| ==> CharMatches(p[k], s[k])
  }

  /** The texts the groups captured, and what the match left over. */
  datatype Match = Match(captures: seq<string>, rest: string)

  /** Leftmost-first matching: of the alternatives of a group, the first that lets the rest match. */
  function MatchSegments(segments: seq<Segment>, s: string): Option<Match>
    decreases |segments|, 0
  {
    if segments == [] then
      Some(Match([], s))
    else
      match segments[0]
      case Text(pattern) =>
        if MatchesPrefix(pattern, s) then MatchSegments(segments[1..], s[|pattern|..]) else None
      case Group(alternatives) =>
        MatchAlternatives(alternatives, segments[1..], s)
  }

  function MatchAlternatives(alternatives: seq<string>, segments: seq<Segment>, s: string): Option<Match>
    decreases |segments|, 1 + |alternatives|
  {
    if alternatives == [] then
      None
    else
      var first := alternatives[0];
      var m := if MatchesPrefix(first, s) then MatchSegments(segments, s[|first|..]) else None;
      if m.Some? then
        Some(Match([s[..|first|]] + m.value.captures, m.value.rest))
      else
        MatchAlternatives(alternatives[1..], segments, s)
  }

  // ----- Replacement templates

  predicate WordChar(c: char) {
    'a' <= c <= 'z' || 'A' <= c <= 'Z' || '0' <= c <= '9' || c == '_'
  }

  function WordLength(s: string): (n: nat)
    ensures n <= |s|
  {
    if s == "" || !WordChar(s[0]) then 0 else 1 + WordLength(s[1..])
  }

  /** The text a reference stands for; an unknown group is empty. */
  function Capture(name: string, captures: seq<string>): string {
    if captures == [] then ""
    else if Itoa(|captures| - 1) == name then captures[|captures| - 1]
    else Capture(name, captures[..|captures| - 1])
  }

  lemma {:induction false} CaptureByNumber(k: nat, captures: seq<string>)
    requires k < |captures|
    ensures Capture(Itoa(k), captures) == captures[k]
  {
    if k < |captures| - 1 {
      if Itoa(|captures| - 1) == Itoa(k) {
        ItoaInjective(|captures| - 1, k);
      }
      CaptureByNumber(k, captures[..|captures| - 1]);
    }
  }

  /** Go's Regexp.Expand without the brace form. `captures[0]` is the whole match. */
  function Expand(template: string, captures: seq<string>): string {
    if template == "" then
      ""
    else if template[0] != '$' then
      [template[0]] + Expand(template[1..], captures)
    else if |template| > 1 && template[1] == '$' then
      "$" + Expand(template[2..], captures)
    else
      var n := WordLength(template[1..]);
      if n == 0 then
        "$" + Expand(template[1..], captures)
      else
        Capture(template[1..1 + n], captures) + Expand(template[1 + n..], captures)
  }

  // ----- Running middlewares

  function EnsureLeadingSlash(path: string): string {
    if path != "" && path[0] == '/' then path else "/" + path
  }

  /** The first listed prefix of the path is cut off. */
  function Strip(prefixes: seq<string>, path: string): string {
    if prefixes == [] then path
    else if prefixes[0] <= path then EnsureLeadingSlash(path[|prefixes[0]|..])
    else Strip(prefixes[1..], path)
  }

  /** None when the expression is outside the modelled shape. */
  function Rewrite(regex: string, replacement: string, path: string): Option<string> {
    var segments :- ParseRegex(regex);
    match MatchSegments(segments, path)
    case None => Some(path)
    case Some(m) =>
      var whole := if |m.rest| <= |path| then path[..|path| - |m.rest|] else path;
      Some(Expand(replacement, [whole] + m.captures) + m.rest)
  }

  function RunMiddleware(spec: MiddlewareSpec, path: string): Option<string> {
    match spec
    case StripPrefix(prefixes) => Some(Strip(prefixes, path))
    case Headers(_, _, _) => Some(path)
    case ReplacePathRegex(regex, replacement) => Rewrite(regex, replacement, path)
  }

  function RunMiddlewares(specs: seq<MiddlewareSpec>, path: string): Option<string> {
    if specs == [] then
      Some(path)
    else
      var path' :- RunMiddleware(specs[0], path);
      RunMiddlewares(specs[1..], path')
  }

  // ----- Router rules

  const RULE_HEAD := "(Host(`localhost`) || Host(`"
  const PATH_MIDDLE := "`)) && Path(`"
  const PREFIX_MIDDLE := "`)) && PathPrefix(`"
  const RULE_TAIL := "`)"

  datatype Rule = Rule(hostname: string, pathPrefix: bool, path: string) {

    predicate Accepts(host: string, requestPath: string) {
      (host == "localhost" || host == hostname) &&
      (if pathPrefix then path <= requestPath else path == requestPath)
    }
  }

  /** Reads a rule of the shape the operator writes. */
  function ParseRule(s: string): Option<Rule> {
    if !(RULE_HEAD <= s) then None else
    var afterHead := s[|RULE_HEAD|..];
    if '`' !in afterHead then None else
    var n := IndexOf(afterHead, '`');
    var hostname, tail := afterHead[..n], afterHead[n..];
    if PATH_MIDDLE <= tail then
      var path :- ParseQuoted(tail[|PATH_MIDDLE|..]);
      Some(Rule(hostname, false, path))
    else if PREFIX_MIDDLE <= tail then
      var path :- ParseQuoted(tail[|PREFIX_MIDDLE|..]);
      Some(Rule(hostname, true, path))
    else
      None
  }

  function ParseQuoted(s: string): Option<string> {
    if '`' !in s then None else
    var n := IndexOf(s, '`');
    if s[n..] == RULE_TAIL then Some(s[..n]) else None
  }

  // ----- Facts about the matcher

  lemma MatchesPrefixAppend(p: string, q: string, s: string)
    ensures MatchesPrefix(p + q, s) <==> MatchesPrefix(p, s) && MatchesPrefix(q, s[|p|..])
  {
    if MatchesPrefix(p + q, s) {
      forall k | 0 <= k < |p| ensures CharMatches(p[k], s[k]) { assert (p + q)[k] == p[k]; }
      forall k | 0 <= k < |q| ensures CharMatches(q[k], s[|p|..][k]) { assert (p + q)[|p| + k] == q[k]; }
    }
    if MatchesPrefix(p, s) && MatchesPrefix(q, s[|p|..]) {
      forall k | 0 <= k < |p + q|
        ensures CharMatches((p + q)[k], s[k])
      {
        if k >= |p| {
          assert s[|p|..][k - |p|] == s[k];
        }
      }
    }
  }

  /** Every string matches itself as a pattern. */
  lemma MatchesItself(p: string, s: string)
    ensures MatchesPrefix(p, p + s)
  {
  }

  lemma {:induction false} LastGroupMatch(files: seq<string>, s: string)
    ensures MatchAlternatives(files, [], s).Some? <==>
              exists k :: 0 <= k < |files| && MatchesPrefix(files[k], s)
    ensures var m := MatchAlternatives(files, [], s);
            m.Some? ==> |m.value.captures| == 1 && m.value.captures[0] + m.value.rest == s
  {
    if files != [] {
      LastGroupMatch(files[1..], s);
      if MatchesPrefix(files[0], s) {
        assert s == s[..|files[0]|] + s[|files[0]|..];
      } else {
        assert forall k :: 0 <= k < |files| && MatchesPrefix(files[k], s) ==> files[1..][k - 1] == files[k];
        assert forall k :: 0 <= k < |files| - 1 && MatchesPrefix(files[1..][k], s) ==>
                 MatchesPrefix(files[k + 1], s);
      }
    }
  }

  /** A path alternative and a file with the text between them match at the start of `s`. */
  predicate Hits(path: string, middle: string, files: seq<string>, s: string) {
    MatchesPrefix(path + middle, s) &&
    exists k :: 0 <= k < |files| && MatchesPrefix(files[k], s[|path + middle|..])
  }

  /** The first path that hits. */
  function FirstHit(paths: seq<string>, middle: string, files: seq<string>, s: string): (k: Option<nat>)
    ensures k.None? <==> forall i :: 0 <= i < |paths| ==> !Hits(paths[i], middle, files, s)
    ensures k.Some? ==>
              && k.value < |paths| && Hits(paths[k.value], middle, files, s)
              && forall i :: 0 <= i < k.value ==> !Hits(paths[i], middle, files, s)
  {
    if paths == [] then
      None
    else if Hits(paths[0], middle, files, s) then
      Some(0)
    else
      var rest := FirstHit(paths[1..], middle, files, s);
      assert forall i :: 0 < i < |paths| ==> paths[i] == paths[1..][i - 1];
      if rest.None? then None else Some(rest.value + 1)
  }

  /**
   * Matching a group of paths, a text and a group of files: it succeeds exactly when some path hits, and
   * then the first path that hits is consumed and the file capture starts right behind the text.
   */
  lemma {:induction false} ThreePartMatch(paths: seq<string>, middle: string, files: seq<string>, s: string)
    ensures var m, k := MatchAlternatives(paths, [Text(middle), Group(files)], s), FirstHit(paths, middle, files, s);
            && (m.Some? <==> k.Some?)
            && (m.Some? ==>
                  && |m.value.captures| == 2
                  && m.value.captures[1] + m.value.rest == s[|paths[k.value] + middle|..])
  {
    if paths != [] {
      FirstPartMatch(paths[0], middle, files, s);
      if !Hits(paths[0], middle, files, s) {
        ThreePartMatch(paths[1..], middle, files, s);
      }
    }
  }

  lemma FirstPartMatch(first: string, middle: string, files: seq<string>, s: string)
    ensures var tail := [Text(middle), Group(files)];
            Hits(first, middle, files, s) <==> MatchesPrefix(first, s) && MatchSegments(tail, s[|first|..]).Some?
    ensures var tail := [Text(middle), Group(files)];
            Hits(first, middle, files, s) ==>
              var m := MatchSegments(tail, s[|first|..]).value;
              |m.captures| == 1 && m.captures[0] + m.rest == s[|first + middle|..]
  {
    var tail := [Text(middle), Group(files)];
    assert tail[1..] == [Group(files)] && tail[1..][1..] == [];
    MatchesPrefixAppend(first, middle, s);
    if MatchesPrefix(first, s) && MatchesPrefix(middle, s[|first|..]) {
      assert s[|first|..][|middle|..] == s[|first + middle|..];
      LastGroupMatch(files, s[|first + middle|..]);
      assert MatchSegments(tail, s[|first|..]) == MatchSegments(tail[1..], s[|first + middle|..]);
      assert MatchSegments(tail[1..], s[|first + middle|..]) == MatchAlternatives(files, [], s[|first + middle|..]);
    }
  }

  // ----- Facts about parsing

  lemma NoMetacharacter(p: string)
    requires LiteralOrDot(p)
    ensures ')' !in p && '|' !in p && '(' !in p
  {
    assert METACHARACTERS[4] == '(' && METACHARACTERS[5] == ')' && METACHARACTERS[6] == '|';
  }

  lemma ParseGroup(alternatives: seq<string>, rest: string)
    requires alternatives != [] && AllLiteralOrDot(alternatives)
    requires ParseSegments(rest).Some?
    ensures ParseSegments("(" + Join(alternatives, "|") + ")" + rest)
            == Some([Group(alternatives)] + ParseSegments(rest).value)
  {
    var body := Join(alternatives, "|");
    forall k | 0 <= k < |alternatives|
      ensures ')' !in alternatives[k] && '|' !in alternatives[k]
    {
      NoMetacharacter(alternatives[k]);
    }
    JoinChars(alternatives, "|", ')');
    SplitJoin(alternatives, '|');
    var s := "(" + body + ")" + rest;
    assert s == ("(" + body) + [')'] + rest;
    IndexOfCut("(" + body, ')', rest);
    assert s[1..|body| + 1] == body;
    assert s[|body| + 2..] == rest;
  }

  lemma ParseText(text: string, rest: string)
    requires text != "" && LiteralOrDot(text)
    requires rest != "" && rest[0] == '('
    requires ParseSegments(rest).Some?
    ensures ParseSegments(text + rest) == Some([Text(text)] + ParseSegments(rest).value)
  {
    NoMetacharacter(text);
    TextBeforeGroup(text, rest);
  }

  lemma TextBeforeGroup(text: string, rest: string)
    requires text != "" && '(' !in text && rest != "" && rest[0] == '('
    ensures var s := text + rest;
            && s[0] != '(' && '(' in s && IndexOf(s, '(') == |text|
            && s[..|text|] == text && s[|text|..] == rest
  {
    assert text + rest == text + ['('] + rest[1..];
    IndexOfCut(text, '(', rest[1..]);
    assert (text + rest)[0] == text[0];
  }

  /** Parsing a group, a text and a group. */
  lemma ParseThreeParts(paths: seq<string>, text: string, files: seq<string>)
    requires paths != [] && AllLiteralOrDot(paths) && files != [] && AllLiteralOrDot(files)
    requires text != "" && LiteralOrDot(text)
    ensures ParseSegments("(" + Join(paths, "|") + ")" + (text + ("(" + Join(files, "|") + ")" + "")))
            == Some([Group(paths), Text(text), Group(files)])
  {
    ParseLastGroup(files);
    ParseTextAndGroup(text, files);
    ParseGroup(paths, text + ("(" + Join(files, "|") + ")" + ""));
    assert [Group(paths)] + [Text(text), Group(files)] == [Group(paths), Text(text), Group(files)];
  }

  lemma ParseLastGroup(files: seq<string>)
    requires files != [] && AllLiteralOrDot(files)
    ensures ParseSegments("(" + Join(files, "|") + ")" + "") == Some([Group(files)])
  {
    ParseGroup(files, "");
    assert ParseSegments("") == Some([]);
    assert [Group(files)] + [] == [Group(files)];
  }

  lemma ParseTextAndGroup(text: string, files: seq<string>)
    requires files != [] && AllLiteralOrDot(files)
    requires text != "" && LiteralOrDot(text)
    ensures ParseSegments(text + ("(" + Join(files, "|") + ")" + "")) == Some([Text(text), Group(files)])
  {
    ParseLastGroup(files);
    ParseText(text, "(" + Join(files, "|") + ")" + "");
    assert [Text(text)] + [Group(files)] == [Text(text), Group(files)];
  }

  /** A rewrite whose expression does not match leaves the path alone. */
  lemma RewriteMiss(regex: string, replacement: string, paths: seq<string>, text: string, files: seq<string>, s: string)
    requires ParseRegex(regex) == Some([Group(paths), Text(text), Group(files)])
    requires FirstHit(paths, text, files, s).None?
    ensures Rewrite(regex, replacement, s) == Some(s)
  {
    ThreePartMatch(paths, text, files, s);
    ThreePartSegments(paths, text, files, s);
  }

  /** A rewrite that matches consumes the first path that hits, expands the template and keeps what follows the file capture. */
  lemma RewriteHit(regex: string, replacement: string, paths: seq<string>, text: string, files: seq<string>, s: string)
    returns (captures: seq<string>, rest: string)
    requires ParseRegex(regex) == Some([Group(paths), Text(text), Group(files)])
    requires FirstHit(paths, text, files, s).Some?
    ensures |captures| == 3
    ensures captures[2] + rest == s[|paths[FirstHit(paths, text, files, s).value] + text|..]
    ensures Rewrite(regex, replacement, s) == Some(Expand(replacement, captures) + rest)
  {
    ThreePartMatch(paths, text, files, s);
    ThreePartSegments(paths, text, files, s);
    var m := MatchAlternatives(paths, [Text(text), Group(files)], s).value;
    captures := [if |m.rest| <= |s| then s[..|s| - |m.rest|] else s] + m.captures;
    rest := m.rest;
  }

  lemma ThreePartSegments(paths: seq<string>, text: string, files: seq<string>, s: string)
    ensures MatchSegments([Group(paths), Text(text), Group(files)], s)
            == MatchAlternatives(paths, [Text(text), Group(files)], s)
  {
    assert [Group(paths), Text(text), Group(files)][1..] == [Text(text), Group(files)];
  }

  // ----- Facts about replacement

  /** Text without `$` expands to itself. */
  lemma {:induction false} ExpandPlain(a: string, b: string, captures: seq<string>)
    requires '$' !in a
    ensures Expand(a + b, captures) == a + Expand(b, captures)
  {
    if a == "" {
      assert a + b == b;
    } else {
      ExpandPlain(a[1..], b, captures);
      assert (a + b)[1..] == a[1..] + b;
    }
  }

  lemma ExpandReference(k: nat, captures: seq<string>)
    requires k < |captures|
    ensures Expand("$" + Itoa(k), captures) == captures[k]
  {
    var t := "$" + Itoa(k);
    assert t[1..] == Itoa(k);
    WordLengthAll(Itoa(k));
    assert t[1..1 + |Itoa(k)|] == Itoa(k) && t[1 + |Itoa(k)|..] == "";
    CaptureByNumber(k, captures);
  }

  lemma WordLengthAll(s: string)
    requires forall k :: 0 <= k < |s| ==> '0' <= s[k] <= '9'
    ensures WordLength(s) == |s|
  {
  }

  // ----- Facts about rules

  lemma ParseQuotedRoundTrip(path: string)
    requires '`' !in path
    ensures ParseQuoted(path + RULE_TAIL) == Some(path)
  {
    assert path + RULE_TAIL == path + ['`'] + ")";
    IndexOfCut(path, '`', ")");
  }

  lemma AfterPrefix(p: string, s: string)
    ensures p <= p + s && (p + s)[|p|..] == s
  {
  }

  function RuleMiddle(pathPrefix: bool): string {
    if pathPrefix then PREFIX_MIDDLE else PATH_MIDDLE
  }

  lemma MiddlesDiffer(rest: string)
    ensures !(PATH_MIDDLE <= PREFIX_MIDDLE + rest)
  {
    assert PATH_MIDDLE[11] == '(' && (PREFIX_MIDDLE + rest)[11] == 'P';
  }

  /** Reading back a rule that holds no backtick of its own. */
  lemma ParseRuleRoundTrip(hostname: string, pathPrefix: bool, path: string)
    requires '`' !in hostname && '`' !in path
    ensures ParseRule(RULE_HEAD + (hostname + (RuleMiddle(pathPrefix) + (path + RULE_TAIL))))
            == Some(Rule(hostname, pathPrefix, path))
  {
    var middle := RuleMiddle(pathPrefix);
    var tail := middle + (path + RULE_TAIL);
    AfterPrefix(RULE_HEAD, hostname + tail);
    assert hostname + tail == hostname + ['`'] + tail[1..];
    IndexOfCut(hostname, '`', tail[1..]);
    AfterPrefix(hostname, tail);
    assert (hostname + tail)[..|hostname|] == hostname;
    AfterPrefix(middle, path + RULE_TAIL);
    MiddlesDiffer(path + RULE_TAIL);
    ParseQuotedRoundTrip(path);
  }
}
