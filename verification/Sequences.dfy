/** Facts about finite sequences that the operator's list-building loops rely on. */
module Sequences {

  /** The distinct elements of `xs`, in the order of their first occurrence. */
  function Distinct<T(==,!new)>(xs: seq<T>): (ys: seq<T>)
    ensures forall x :: x in ys <==> x in xs
    ensures NoDuplicates(ys)
    ensures |ys| <= |xs|
  {
    if xs == [] then
      []
    else
      var init, last := Distinct(xs[..|xs| - 1]), xs[|xs| - 1];
      if last in init then init else init + [last]
  }

  ghost predicate NoDuplicates<T>(xs: seq<T>) {
    forall i, j :: 0 <= i < j < |xs| ==> xs[i] != xs[j]
  }

  /** Keeping the first occurrences keeps everything exactly when nothing occurs twice. */
  lemma DistinctKeepsAll<T(!new)>(xs: seq<T>)
    ensures |Distinct(xs)| == |xs| <==> NoDuplicates(xs)
    ensures NoDuplicates(xs) ==> Distinct(xs) == xs
  {
    if xs != [] {
      var init := xs[..|xs| - 1];
      assert xs == init + [xs[|xs| - 1]];
      DistinctKeepsAll(init);
      if xs[|xs| - 1] in init {
        var i :| 0 <= i < |init| && init[i] == xs[|xs| - 1];
        assert xs[i] == xs[|xs| - 1];
      }
      if NoDuplicates(xs) {
        assert NoDuplicates(init);
      } else {
        var i, j :| 0 <= i < j < |xs| && xs[i] == xs[j];
        if j < |xs| - 1 {
          assert init[i] == init[j];
        } else {
          assert init[i] == xs[|xs| - 1];
        }
      }
    }
  }

  /** Appending one element to the input appends at most that element to the distinct list. */
  lemma DistinctAppend<T(!new)>(xs: seq<T>, x: T)
    ensures Distinct(xs + [x]) == if x in xs then Distinct(xs) else Distinct(xs) + [x]
  {
    assert (xs + [x])[..|xs|] == xs;
  }

  /** The position of the first occurrence of `x`. */
  function IndexOf<T(==)>(xs: seq<T>, x: T): (i: nat)
    requires x in xs
    ensures i < |xs| && xs[i] == x && x !in xs[..i]
  {
    if xs[0] == x then 0 else 1 + IndexOf(xs[1..], x)
  }

  lemma IndexOfUnique<T>(xs: seq<T>, i: nat)
    requires i < |xs| && NoDuplicates(xs)
    ensures IndexOf(xs, xs[i]) == i
  {
  }

  /** Appending to a list does not move its elements. */
  lemma {:induction false} IndexOfAppend<T>(xs: seq<T>, ys: seq<T>, x: T)
    requires x in xs + ys
    ensures IndexOf(xs + ys, x) == if x in xs then IndexOf(xs, x) else |xs| + IndexOf(ys, x)
  {
    if xs == [] {
      assert xs + ys == ys;
    } else if xs[0] != x {
      assert (xs + ys)[1..] == xs[1..] + ys;
      IndexOfAppend(xs[1..], ys, x);
    }
  }

  /** The distinct elements stand in the order of their first occurrence. */
  lemma {:induction false} DistinctInOrder<T(!new)>(xs: seq<T>, x: T, y: T)
    requires x in xs && y in xs
    ensures IndexOf(Distinct(xs), x) < IndexOf(Distinct(xs), y) <==> IndexOf(xs, x) < IndexOf(xs, y)
  {
    var init, last := xs[..|xs| - 1], [xs[|xs| - 1]];
    assert xs == init + last;
    IndexOfAppend(init, last, x);
    IndexOfAppend(init, last, y);
    if last[0] !in init {
      IndexOfAppend(Distinct(init), last, x);
      IndexOfAppend(Distinct(init), last, y);
    }
    if x in init && y in init {
      DistinctInOrder(init, x, y);
    }
  }

  /** A new element in front stays in front. */
  lemma {:induction false} DistinctCons<T(!new)>(x: T, xs: seq<T>)
    requires x !in xs
    ensures Distinct([x] + xs) == [x] + Distinct(xs)
  {
    if xs == [] {
      assert [x] + xs == [x] && [x][..0] == [];
    } else {
      var init, last := xs[..|xs| - 1], xs[|xs| - 1];
      assert ([x] + xs)[..|xs|] == [x] + init && xs == init + [last];
      DistinctCons(x, init);
      AppendUnlessIn(x, Distinct(init), last);
    }
  }

  lemma AppendUnlessIn<T>(x: T, xs: seq<T>, last: T)
    requires last != x
    ensures last in [x] + xs <==> last in xs
    ensures [x] + xs + [last] == [x] + (xs + [last])
  {
  }

  /** Elements added behind do not disturb those before. */
  lemma {:induction false} DistinctExtends<T(!new)>(xs: seq<T>, ys: seq<T>)
    ensures Distinct(xs) <= Distinct(xs + ys)
  {
    if ys == [] {
      assert xs + ys == xs;
    } else {
      assert (xs + ys)[..|xs + ys| - 1] == xs + ys[..|ys| - 1];
      DistinctExtends(xs, ys[..|ys| - 1]);
    }
  }

  /** Concatenation of a list of lists. */
  function Flatten<T>(xss: seq<seq<T>>): seq<T> {
    if xss == [] then [] else Flatten(xss[..|xss| - 1]) + xss[|xss| - 1]
  }

  lemma FlattenAppend<T>(xss: seq<seq<T>>, xs: seq<T>)
    ensures Flatten(xss + [xs]) == Flatten(xss) + xs
  {
    assert (xss + [xs])[..|xss|] == xss;
  }

  lemma FlattenPrefix<T>(xss: seq<seq<T>>, i: nat)
    requires i < |xss|
    ensures Flatten(xss[..i + 1]) == Flatten(xss[..i]) + xss[i]
  {
    FlattenAppend(xss[..i], xss[i]);
    assert xss[..i + 1] == xss[..i] + [xss[i]];
  }

  lemma {:induction false} FlattenMember<T>(xss: seq<seq<T>>, x: T)
    ensures x in Flatten(xss) <==> exists i :: 0 <= i < |xss| && x in xss[i]
  {
    if xss != [] {
      var n := |xss| - 1;
      FlattenMember(xss[..n], x);
      assert x in Flatten(xss) <==> x in Flatten(xss[..n]) || x in xss[n];
      assert (exists i :: 0 <= i < n && x in xss[..n][i]) <==> (exists i :: 0 <= i < n && x in xss[i]) by {
        assert forall i :: 0 <= i < n ==> xss[..n][i] == xss[i];
      }
    }
  }

  lemma NoDuplicatesAppend<T>(a: seq<T>, b: seq<T>)
    ensures NoDuplicates(a + b) <==> NoDuplicates(a) && NoDuplicates(b) && Disjoint(a, b)
  {
    var all := a + b;
    assert forall i :: 0 <= i < |a| ==> all[i] == a[i];
    assert forall j :: 0 <= j < |b| ==> all[|a| + j] == b[j];
    if NoDuplicates(all) {
      forall i, j | 0 <= i < |a| && 0 <= j < |b|
        ensures a[i] != b[j]
      {
        assert all[i] != all[|a| + j];
      }
      forall i, j | 0 <= i < j < |b|
        ensures b[i] != b[j]
      {
        assert all[|a| + i] != all[|a| + j];
      }
    }
  }

  ghost predicate Disjoint<T>(a: seq<T>, b: seq<T>) {
    forall i, j :: 0 <= i < |a| && 0 <= j < |b| ==> a[i] != b[j]
  }

  ghost predicate PairwiseDisjoint<T>(xss: seq<seq<T>>) {
    forall i, j :: 0 <= i < j < |xss| ==> Disjoint(xss[i], xss[j])
  }

  /** What is apart from every list is apart from their concatenation. */
  lemma {:induction false} DisjointFlatten<T>(a: seq<T>, xss: seq<seq<T>>)
    ensures Disjoint(a, Flatten(xss)) <==> forall k :: 0 <= k < |xss| ==> Disjoint(a, xss[k])
    ensures Disjoint(Flatten(xss), a) <==> Disjoint(a, Flatten(xss))
  {
    if xss != [] {
      var n := |xss| - 1;
      DisjointFlatten(a, xss[..n]);
      DisjointAppend(a, Flatten(xss[..n]), xss[n]);
      assert forall k :: 0 <= k < n ==> xss[..n][k] == xss[k];
    }
  }

  lemma DisjointAppend<T>(a: seq<T>, b: seq<T>, c: seq<T>)
    ensures Disjoint(a, b + c) <==> Disjoint(a, b) && Disjoint(a, c)
  {
    assert forall j :: 0 <= j < |b| ==> (b + c)[j] == b[j];
    assert forall j :: 0 <= j < |c| ==> (b + c)[|b| + j] == c[j];
  }

  /** A concatenation repeats nothing exactly when no list does and the lists are pairwise apart. */
  lemma {:induction false} NoDuplicatesFlatten<T>(xss: seq<seq<T>>)
    ensures NoDuplicates(Flatten(xss)) <==>
              (forall k :: 0 <= k < |xss| ==> NoDuplicates(xss[k])) && PairwiseDisjoint(xss)
  {
    if xss != [] {
      var n := |xss| - 1;
      NoDuplicatesFlatten(xss[..n]);
      NoDuplicatesAppend(Flatten(xss[..n]), xss[n]);
      DisjointFlatten(xss[n], xss[..n]);
      NoneRepeats(xss, n);
      DisjointBoth(xss, n);
    }
  }

  lemma NoneRepeats<T>(xss: seq<seq<T>>, n: nat)
    requires n == |xss| - 1
    ensures (forall k :: 0 <= k < |xss| ==> NoDuplicates(xss[k])) <==>
              (forall k :: 0 <= k < n ==> NoDuplicates(xss[..n][k])) && NoDuplicates(xss[n])
  {
    assert forall k :: 0 <= k < n ==> xss[..n][k] == xss[k];
  }

  lemma DisjointBoth<T>(xss: seq<seq<T>>, n: nat)
    requires n == |xss| - 1
    ensures PairwiseDisjoint(xss) <==>
              PairwiseDisjoint(xss[..n]) && forall k :: 0 <= k < n ==> Disjoint(xss[n], xss[..n][k])
  {
    assert forall k :: 0 <= k < n ==> (Disjoint(xss[n], xss[k]) <==> Disjoint(xss[k], xss[n]));
    assert forall k :: 0 <= k < n ==> xss[..n][k] == xss[k];
  }

  lemma {:induction false} FlattenEmpty<T>(xss: seq<seq<T>>)
    ensures Flatten(xss) == [] <==> forall i :: 0 <= i < |xss| ==> xss[i] == []
  {
    if xss != [] {
      var n := |xss| - 1;
      FlattenEmpty(xss[..n]);
      assert forall i :: 0 <= i < n ==> xss[..n][i] == xss[i];
    }
  }

  lemma ConcatAssociative<T>(a: seq<T>, b: seq<T>, c: seq<T>)
    ensures a + b + c == a + (b + c)
  {
  }

  function Sum(xs: seq<nat>): nat {
    if xs == [] then 0 else Sum(xs[..|xs| - 1]) + xs[|xs| - 1]
  }

  /** Changing one element of a list changes its sum by the difference. */
  lemma SumUpdate(xs: seq<nat>, i: nat, v: nat)
    requires i < |xs|
    ensures Sum(xs[i := v]) + xs[i] == Sum(xs) + v
  {
    var n := |xs| - 1;
    if i < n {
      SumUpdate(xs[..n], i, v);
      assert xs[i := v][..n] == xs[..n][i := v];
    } else {
      assert xs[i := v][..n] == xs[..n];
    }
  }

  lemma SumAppend(xs: seq<nat>, x: nat)
    ensures Sum(xs + [x]) == Sum(xs) + x
  {
    assert (xs + [x])[..|xs|] == xs;
  }
}
