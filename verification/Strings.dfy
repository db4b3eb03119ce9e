/** The string operations of Go's standard library that the operator uses. */
module Strings {
  import opened Sequences

  // ----- strings.Join and strings.Split

  function Join(parts: seq<string>, sep: string): string {
    if parts == [] then ""
    else if |parts| == 1 then parts[0]
    else parts[0] + sep + Join(parts[1..], sep)
  }

  /** The pieces of `s` between the occurrences of `c`. */
  function Split(s: string, c: char): (parts: seq<string>)
    ensures parts != []
    ensures forall k :: 0 <= k < |parts| ==> c !in parts[k]
  {
    if s == "" then
      [""]
    else
      var rest := Split(s[1..], c);
      if s[0] == c then [""] + rest else Extend(s[0], rest)
  }

  /** Puts a character in front of the first part. */
  function Extend(ch: char, parts: seq<string>): seq<string>
    requires parts != []
  {
    [[ch] + parts[0]] + parts[1..]
  }

  lemma ExtendAppend(ch: char, left: seq<string>, right: seq<string>)
    requires left != []
    ensures Extend(ch, left + right) == Extend(ch, left) + right
  {
    assert (left + right)[1..] == left[1..] + right;
  }

  lemma SplitOfPiece(s: string, c: char)
    requires c !in s
    ensures Split(s, c) == [s]
  {
    if s != "" {
      SplitOfPiece(s[1..], c);
      assert s == [s[0]] + s[1..];
    }
  }

  /** Splitting distributes over a separator. */
  lemma {:induction false} SplitAt(a: string, c: char, b: string)
    ensures Split(a + [c] + b, c) == Split(a, c) + Split(b, c)
  {
    var s := a + [c] + b;
    if a == "" {
      assert s == [c] + b && s[1..] == b;
      assert Split(s, c) == [""] + Split(b, c);
    } else {
      assert s[1..] == a[1..] + [c] + b;
      SplitAt(a[1..], c, b);
      var left, right := Split(a[1..], c), Split(b, c);
      ExtendAppend(a[0], left, right);
      assert [""] + (left + right) == [""] + left + right;
    }
  }

  /** Splitting undoes joining when no part holds the separator. */
  lemma {:induction false} SplitJoin(parts: seq<string>, c: char)
    requires parts != []
    requires forall k :: 0 <= k < |parts| ==> c !in parts[k]
    ensures Split(Join(parts, [c]), c) == parts
  {
    SplitOfPiece(parts[0], c);
    if |parts| > 1 {
      SplitJoin(parts[1..], c);
      SplitAt(parts[0], c, Join(parts[1..], [c]));
      assert parts == [parts[0]] + parts[1..];
    }
  }

  /** Joining undoes splitting. */
  lemma {:induction false} JoinSplit(s: string, c: char)
    ensures Join(Split(s, c), [c]) == s
  {
    if s != "" {
      JoinSplit(s[1..], c);
      var rest := Split(s[1..], c);
      var parts := Split(s, c);
      if s[0] == c {
        assert parts[1..] == rest;
        assert Join(parts, [c]) == "" + [c] + Join(rest, [c]);
      } else if |rest| > 1 {
        assert parts[1..] == rest[1..];
      }
    }
  }

  lemma JoinCons(part: string, parts: seq<string>, sep: string)
    requires parts != []
    ensures Join([part] + parts, sep) == part + sep + Join(parts, sep)
  {
    assert ([part] + parts)[1..] == parts;
  }

  lemma JoinPair(a: string, b: string, sep: string)
    ensures Join([a] + [b], sep) == a + sep + b
  {
    JoinCons(a, [b], sep);
  }

  lemma JoinTriple(a: string, b: string, c: string, sep: string)
    ensures Join([a] + [b, c], sep) == a + sep + (b + sep + c)
  {
    JoinCons(a, [b, c], sep);
    assert [b, c] == [b] + [c];
    JoinPair(b, c, sep);
  }

  lemma {:induction false} JoinAppend(a: seq<string>, b: seq<string>, sep: string)
    requires a != [] && b != []
    ensures Join(a + b, sep) == Join(a, sep) + sep + Join(b, sep)
  {
    if |a| == 1 {
      assert a + b == [a[0]] + b;
      JoinCons(a[0], b, sep);
    } else {
      JoinAppend(a[1..], b, sep);
      assert (a + b)[1..] == a[1..] + b;
    }
  }

  lemma JoinChars(parts: seq<string>, sep: string, c: char)
    requires c !in sep
    requires forall k :: 0 <= k < |parts| ==> c !in parts[k]
    ensures c !in Join(parts, sep)
  {
  }

  // ----- strings.LastIndex

  /** The position of the last `c` in `s`, or -1. */
  function LastIndex(s: string, c: char): (i: int)
    ensures -1 <= i < |s|
    ensures i == -1 <==> c !in s
    ensures i >= 0 ==> s[i] == c && c !in s[i + 1..]
  {
    if s == "" then
      -1
    else if s[|s| - 1] == c then
      |s| - 1
    else
      var i := LastIndex(s[..|s| - 1], c);
      assert s == s[..|s| - 1] + [s[|s| - 1]];
      assert i >= 0 ==> s[i + 1..] == s[..|s| - 1][i + 1..] + [s[|s| - 1]];
      i
  }

  lemma {:induction false} LastIndexAppend(a: string, c: char, b: string)
    requires c !in b
    ensures LastIndex(a + [c] + b, c) == |a|
  {
    if b != "" {
      LastIndexAppend(a, c, b[..|b| - 1]);
      assert (a + [c] + b)[..|a| + |b|] == a + [c] + b[..|b| - 1];
    }
  }

  // ----- Cutting at the first occurrence of a character

  /** Two decompositions at the first occurrence of `c` agree. */
  lemma {:induction false} CutUnique(a: string, b: string, a': string, b': string, c: char)
    requires c !in a && c !in a'
    requires a + [c] + b == a' + [c] + b'
    ensures a == a' && b == b'
  {
    var s, s' := a + [c] + b, a' + [c] + b';
    assert s[0] == if a == "" then c else a[0];
    assert s'[0] == if a' == "" then c else a'[0];
    if a == "" {
      assert b == s[1..] && b' == s'[1..];
    } else {
      assert s[1..] == a[1..] + [c] + b && s'[1..] == a'[1..] + [c] + b';
      CutUnique(a[1..], b, a'[1..], b', c);
      assert a == [a[0]] + a[1..] && a' == [a'[0]] + a'[1..];
    }
  }

  lemma {:induction false} IndexOfCut(a: string, c: char, b: string)
    requires c !in a
    ensures c in a + [c] + b && IndexOf(a + [c] + b, c) == |a|
  {
    assert (a + [c] + b)[|a|] == c;
    if a != "" {
      IndexOfCut(a[1..], c, b);
      assert (a + [c] + b)[1..] == a[1..] + [c] + b;
    }
  }

  /** The last `c` separates in only one way. */
  lemma LastCutUnique(a: string, b: string, a': string, b': string, c: char)
    requires c !in b && c !in b'
    requires a + [c] + b == a' + [c] + b'
    ensures a == a' && b == b'
  {
    LastIndexAppend(a, c, b);
    LastIndexAppend(a', c, b');
    assert a == (a + [c] + b)[..|a|] && a' == (a' + [c] + b')[..|a|];
    assert b == (a + [c] + b)[|a| + 1..] && b' == (a' + [c] + b')[|a| + 1..];
  }

  lemma CancelPrefix(p: string, a: string, b: string)
    requires p + a == p + b
    ensures a == b
  {
    assert a == (p + a)[|p|..];
  }

  lemma CancelSuffix(a: string, b: string, t: string)
    requires a + t == b + t
    ensures a == b
  {
    assert a == (a + t)[..|a|];
    assert b == (b + t)[..|b|];
  }

  // ----- strconv.Itoa

  const DIGITS := "0123456789"

  /** Decimal notation. */
  function Itoa(n: nat): (s: string)
    ensures |s| > 0
    ensures forall k :: 0 <= k < |s| ==> '0' <= s[k] <= '9'
  {
    if n < 10 then [DIGITS[n]] else Itoa(n / 10) + [DIGITS[n % 10]]
  }

  /** Distinct numbers print differently. */
  lemma {:induction false} ItoaInjective(m: nat, n: nat)
    requires Itoa(m) == Itoa(n)
    ensures m == n
  {
    var s := Itoa(m);
    assert |s| == 1 <==> m < 10;
    assert |s| == 1 <==> n < 10;
    assert m % 10 == n % 10 by {
      assert s[|s| - 1] == DIGITS[m % 10];
      assert s[|s| - 1] == DIGITS[n % 10];
    }
    if m >= 10 && n >= 10 {
      assert s[..|s| - 1] == Itoa(m / 10);
      assert s[..|s| - 1] == Itoa(n / 10);
      ItoaInjective(m / 10, n / 10);
    }
  }

  // ----- Go's ordering of strings, and sort.Slice by it

  /** Go's `<=` on strings. */
  predicate AtMost(a: string, b: string) {
    a == "" || (b != "" && (a[0] < b[0] || (a[0] == b[0] && AtMost(a[1..], b[1..]))))
  }

  predicate Less(a: string, b: string) {
    AtMost(a, b) && a != b
  }

  lemma AtMostTotal(a: string, b: string)
    ensures AtMost(a, b) || AtMost(b, a)
  {
  }

  lemma {:induction false} AtMostAntisymmetric(a: string, b: string)
    requires AtMost(a, b) && AtMost(b, a)
    ensures a == b
  {
    if a != "" {
      AtMostAntisymmetric(a[1..], b[1..]);
      assert a == [a[0]] + a[1..] && b == [b[0]] + b[1..];
    }
  }

  lemma AtMostTransitive(a: string, b: string, c: string)
    requires AtMost(a, b) && AtMost(b, c)
    ensures AtMost(a, c)
  {
  }

  /** A common prefix does not influence the ordering. */
  lemma {:induction false} AtMostCommonPrefix(p: string, a: string, b: string)
    ensures AtMost(p + a, p + b) == AtMost(a, b)
  {
    if p == "" {
      assert p + a == a && p + b == b;
    } else {
      AtMostCommonPrefix(p[1..], a, b);
      assert (p + a)[1..] == p[1..] + a && (p + b)[1..] == p[1..] + b;
    }
  }

  ghost predicate Sorted(xs: seq<string>) {
    forall i, j :: 0 <= i < j < |xs| ==> AtMost(xs[i], xs[j])
  }

  function Insert(x: string, xs: seq<string>): (ys: seq<string>)
    requires Sorted(xs)
    ensures Sorted(ys)
    ensures multiset(ys) == multiset(xs) + multiset{x}
  {
    if xs == [] then
      [x]
    else if AtMost(x, xs[0]) then
      assert forall j :: 0 <= j < |xs| ==> AtMost(x, xs[j]) by {
        forall j | 0 < j < |xs|
          ensures AtMost(x, xs[j])
        {
          AtMostTransitive(x, xs[0], xs[j]);
        }
      }
      [x] + xs
    else
      AtMostTotal(x, xs[0]);
      var rest := Insert(x, xs[1..]);
      assert xs == [xs[0]] + xs[1..];
      assert forall j :: 0 <= j < |rest| ==> AtMost(xs[0], rest[j]) by {
        forall j | 0 <= j < |rest|
          ensures AtMost(xs[0], rest[j])
        {
          assert rest[j] in multiset(rest);
          assert rest[j] == x || rest[j] in xs[1..];
        }
      }
      [xs[0]] + rest
  }

  /** What `sort.Slice` with `<` on strings leaves behind. */
  function Sort(xs: seq<string>): (ys: seq<string>)
    ensures Sorted(ys)
    ensures multiset(ys) == multiset(xs)
  {
    if xs == [] then
      []
    else
      assert xs == [xs[0]] + xs[1..];
      Insert(xs[0], Sort(xs[1..]))
  }

  /** A list has one sorted rearrangement: the outcome of sorting does not depend on the input order. */
  lemma {:induction false} SortedUnique(a: seq<string>, b: seq<string>)
    requires Sorted(a) && Sorted(b)
    requires multiset(a) == multiset(b)
    ensures a == b
  {
    if a == [] {
      assert |multiset(b)| == 0;
    } else {
      assert b != [] by {
        assert a[0] in multiset(b);
      }
      SortedHead(a, b[0]);
      SortedHead(b, a[0]);
      AtMostAntisymmetric(a[0], b[0]);
      TailMultiset(a);
      TailMultiset(b);
      SortedUnique(a[1..], b[1..]);
      assert a == [a[0]] + a[1..] && b == [b[0]] + b[1..];
    }
  }

  lemma TailMultiset(a: seq<string>)
    requires a != []
    ensures multiset(a[1..]) == multiset(a) - multiset{a[0]}
  {
    assert a == [a[0]] + a[1..];
  }

  lemma SortedHead(a: seq<string>, x: string)
    requires Sorted(a)
    requires x in multiset(a)
    ensures AtMost(a[0], x)
  {
    AtMostTotal(x, x);
    assert x in a;
  }

  /** In a sorted list without repetition, position and ordering coincide. */
  lemma SortedPositions(xs: seq<string>, i: nat, j: nat)
    requires Sorted(xs) && NoDuplicates(xs)
    requires i < |xs| && j < |xs|
    ensures i < j <==> Less(xs[i], xs[j])
  {
    if i > j {
      if AtMost(xs[i], xs[j]) {
        AtMostAntisymmetric(xs[i], xs[j]);
      }
    }
  }

  /** Rearranging keeps the absence of repetition. */
  lemma PermutationNoDuplicates<T>(a: seq<T>, b: seq<T>)
    requires multiset(a) == multiset(b)
    requires NoDuplicates(a)
    ensures NoDuplicates(b)
  {
    forall i, j | 0 <= i < j < |b|
      ensures b[i] != b[j]
    {
      if b[i] == b[j] {
        MultiplicityTwo(b, i, j);
        MultiplicityOne(a, b[i]);
      }
    }
  }

  lemma MultiplicityTwo<T>(b: seq<T>, i: nat, j: nat)
    requires i < j < |b| && b[i] == b[j]
    ensures multiset(b)[b[i]] >= 2
  {
    assert b == b[..j] + [b[j]] + b[j + 1..];
    assert b[..j][i] == b[i];
    assert b[i] in multiset(b[..j]);
  }

  lemma {:induction false} MultiplicityOne<T>(a: seq<T>, x: T)
    requires NoDuplicates(a)
    ensures multiset(a)[x] <= 1
  {
    if a != [] {
      assert a == [a[0]] + a[1..];
      MultiplicityOne(a[1..], x);
      assert a[0] !in a[1..];
    }
  }

  /** Two lists without repetition that hold the same strings are rearrangements of each other. */
  lemma SameElements<T(!new)>(a: seq<T>, b: seq<T>)
    requires NoDuplicates(a) && NoDuplicates(b)
    requires forall x :: x in a <==> x in b
    ensures multiset(a) == multiset(b)
  {
    forall x
      ensures multiset(a)[x] == multiset(b)[x]
    {
      MultiplicityOne(a, x);
      MultiplicityOne(b, x);
      assert x in multiset(a) <==> x in a;
      assert x in multiset(b) <==> x in b;
    }
  }
}
