/** `std::stable_sort` as a function, with the order it guarantees. */
module Sorting {

  /** Puts x behind every element that is not after it. */
  function Insert<T>(xs: seq<T>, x: T, le: (T, T) -> bool): (r: seq<T>)
    ensures |r| == |xs| + 1
  {
    if |xs| == 0 || le(xs[|xs| - 1], x) then xs + [x]
    else Insert(xs[..|xs| - 1], x, le) + [xs[|xs| - 1]]
  }

  function StableSort<T>(xs: seq<T>, le: (T, T) -> bool): (r: seq<T>)
    ensures |r| == |xs|
  {
    if |xs| == 0 then [] else Insert(StableSort(xs[..|xs| - 1], le), xs[|xs| - 1], le)
  }

  lemma {:induction false} InsertAdds<T>(xs: seq<T>, x: T, le: (T, T) -> bool)
    ensures multiset(Insert(xs, x, le)) == multiset(xs) + multiset{x}
  {
    if !(|xs| == 0 || le(xs[|xs| - 1], x)) {
      assert xs == xs[..|xs| - 1] + [xs[|xs| - 1]];
      InsertAdds(xs[..|xs| - 1], x, le);
    }
  }

  lemma {:induction false} StableSortPermutes<T>(xs: seq<T>, le: (T, T) -> bool)
    ensures multiset(StableSort(xs, le)) == multiset(xs)
    ensures forall x :: x in StableSort(xs, le) <==> x in xs
  {
    if |xs| > 0 {
      var init, x := xs[..|xs| - 1], xs[|xs| - 1];
      assert xs == init + [x];
      StableSortPermutes(init, le);
      InsertAdds(StableSort(init, le), x, le);
    }
    SameElements(StableSort(xs, le), xs);
  }

  ghost predicate TotalPreorder<T(!new)>(le: (T, T) -> bool) {
    && (forall x, y :: le(x, y) || le(y, x))
    && (forall x, y, z :: le(x, y) && le(y, z) ==> le(x, z))
  }

  /** a stands before b somewhere in xs. */
  ghost predicate Precedes<T>(xs: seq<T>, a: T, b: T) {
    exists i, j :: 0 <= i < j < |xs| && xs[i] == a && xs[j] == b
  }

  /** r is ordered by le, and elements le cannot tell apart keep their order from xs. */
  ghost predicate StablyOrdered<T>(r: seq<T>, xs: seq<T>, le: (T, T) -> bool) {
    forall i, j :: 0 <= i < j < |r| ==>
      le(r[i], r[j]) && (le(r[j], r[i]) ==> Precedes(xs, r[i], r[j]))
  }

  lemma PrecedesExtends<T>(xs: seq<T>, x: T, a: T, b: T)
    requires Precedes(xs, a, b)
    ensures Precedes(xs + [x], a, b)
  {
    var i, j :| 0 <= i < j < |xs| && xs[i] == a && xs[j] == b;
    assert (xs + [x])[i] == a && (xs + [x])[j] == b;
  }

  lemma PrecedesLast<T>(xs: seq<T>, x: T, a: T)
    requires a in xs
    ensures Precedes(xs + [x], a, x)
  {
    var i :| 0 <= i < |xs| && xs[i] == a;
    assert (xs + [x])[i] == a && (xs + [x])[|xs|] == x;
  }

  lemma {:induction false} InsertOrdered<T(!new)>(r: seq<T>, xs: seq<T>, x: T, le: (T, T) -> bool)
    requires TotalPreorder(le)
    requires StablyOrdered(r, xs, le)
    requires forall y | y in r :: y in xs
    ensures StablyOrdered(Insert(r, x, le), xs + [x], le)
  {
    var last := |r| - 1;
    if |r| == 0 || le(r[last], x) {
      forall i, j | 0 <= i < j < |r| + 1
        ensures le((r + [x])[i], (r + [x])[j])
        ensures le((r + [x])[j], (r + [x])[i]) ==> Precedes(xs + [x], (r + [x])[i], (r + [x])[j])
      {
        if j < |r| {
          if le(r[j], r[i]) { PrecedesExtends(xs, x, r[i], r[j]); }
        } else {
          PrecedesLast(xs, x, r[i]);
          assert i == last || le(r[i], r[last]);
        }
      }
    } else {
      var init := r[..last];
      assert forall i :: 0 <= i < last ==> init[i] == r[i];
      InsertOrdered(init, xs, x, le);
      var ins := Insert(init, x, le);
      InsertAdds(init, x, le);
      forall i | 0 <= i < |ins|
        ensures le(ins[i], r[last])
        ensures le(r[last], ins[i]) ==> Precedes(xs + [x], ins[i], r[last])
      {
        assert ins[i] in multiset(ins);
        if ins[i] in init {
          var k :| 0 <= k < last && init[k] == ins[i];
          if le(r[last], r[k]) { PrecedesExtends(xs, x, r[k], r[last]); }
        } else {
          assert ins[i] == x;
        }
      }
    }
  }

  lemma {:induction false} StableSortOrdered<T(!new)>(xs: seq<T>, le: (T, T) -> bool)
    requires TotalPreorder(le)
    ensures StablyOrdered(StableSort(xs, le), xs, le)
  {
    if |xs| > 0 {
      var init, x := xs[..|xs| - 1], xs[|xs| - 1];
      StableSortOrdered(init, le);
      StableSortPermutes(init, le);
      InsertOrdered(StableSort(init, le), init, x, le);
      assert init + [x] == xs;
    }
  }

  lemma SameElements<T>(xs: seq<T>, ys: seq<T>)
    requires multiset(xs) == multiset(ys)
    ensures forall x :: x in xs <==> x in ys
  {
    forall x ensures x in xs <==> x in ys {
      assert x in xs <==> x in multiset(xs);
      assert x in ys <==> x in multiset(ys);
    }
  }

  ghost predicate NoDup<T>(xs: seq<T>) {
    forall i, j :: 0 <= i < j < |xs| ==> xs[i] != xs[j]
  }

  lemma {:induction false} NoDupCounts<T>(xs: seq<T>)
    ensures NoDup(xs) <==> forall x :: multiset(xs)[x] <= 1
  {
    if |xs| > 0 {
      var init, last := xs[..|xs| - 1], xs[|xs| - 1];
      assert xs == init + [last];
      NoDupCounts(init);
      if last in init {
        var i :| 0 <= i < |init| && init[i] == last;
        assert xs[i] == xs[|xs| - 1];
        assert multiset(xs)[last] > 1;
      } else {
        assert multiset(init)[last] == 0;
        assert forall i :: 0 <= i < |init| ==> xs[i] == init[i] && xs[i] in init;
        if NoDup(init) {
          forall x ensures multiset(xs)[x] <= 1 {
            assert multiset(xs)[x] == multiset(init)[x] + (if x == last then 1 else 0);
          }
        } else {
          var i, j :| 0 <= i < j < |init| && init[i] == init[j];
          assert xs[i] == xs[j];
          var x :| multiset(init)[x] > 1;
          assert multiset(xs)[x] > 1;
        }
      }
    }
  }

  ghost predicate DistinctSeconds(xs: seq<(nat, nat)>) {
    forall i, j :: 0 <= i < j < |xs| ==> xs[i].1 != xs[j].1
  }

  /** Reordering keeps the second components distinct. */
  lemma ReorderKeepsDistinct(xs: seq<(nat, nat)>, ys: seq<(nat, nat)>)
    requires multiset(xs) == multiset(ys) && DistinctSeconds(xs)
    ensures DistinctSeconds(ys)
  {
    NoDupCounts(xs);
    NoDupCounts(ys);
    SameElements(xs, ys);
    forall i, j | 0 <= i < j < |ys| ensures ys[i].1 != ys[j].1 {
      assert ys[i] in ys && ys[j] in ys;
      var a :| 0 <= a < |xs| && xs[a] == ys[i];
      var b :| 0 <= b < |xs| && xs[b] == ys[j];
      assert ys[i] != ys[j];
    }
  }
}
