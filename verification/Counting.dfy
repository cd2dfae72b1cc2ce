/** Counting over sequences and ordered views of finite sets, shared by the other modules. */
module Counting {

  datatype Option<+T> = None | Some(value: T)

  /** Number of set bits, as `std::count(first, last, true)`. */
  function CountTrue(bits: seq<bool>): (n: nat)
    ensures n <= |bits|
  {
    if |bits| == 0 then 0
    else CountTrue(bits[..|bits| - 1]) + (if bits[|bits| - 1] then 1 else 0)
  }

  lemma {:induction false} CountTrueUpdate(bits: seq<bool>, i: nat, b: bool)
    requires i < |bits|
    ensures CountTrue(bits[i := b]) == CountTrue(bits) - (if bits[i] then 1 else 0) + (if b then 1 else 0)
  {
    var last := |bits| - 1;
    if i == last {
      assert bits[i := b][..last] == bits[..last];
    } else {
      assert bits[i := b][..last] == bits[..last][i := b];
      CountTrueUpdate(bits[..last], i, b);
    }
  }

  lemma {:induction false} CountTrueFull(bits: seq<bool>)
    ensures CountTrue(bits) == |bits| <==> forall i :: 0 <= i < |bits| ==> bits[i]
  {
    if |bits| > 0 {
      var init := bits[..|bits| - 1];
      CountTrueFull(init);
      assert forall i :: 0 <= i < |init| ==> bits[i] == init[i];
    }
  }

  lemma {:induction false} CountTrueZero(bits: seq<bool>)
    requires forall i :: 0 <= i < |bits| ==> !bits[i]
    ensures CountTrue(bits) == 0
  {
    if |bits| > 0 {
      CountTrueZero(bits[..|bits| - 1]);
    }
  }

  /** Clearing bits can only lower the count. */
  lemma {:induction false} CountTrueMonotone(small: seq<bool>, big: seq<bool>)
    requires |small| == |big|
    requires forall i :: 0 <= i < |big| ==> small[i] ==> big[i]
    ensures CountTrue(small) <= CountTrue(big)
  {
    if |big| > 0 {
      CountTrueMonotone(small[..|big| - 1], big[..|big| - 1]);
    }
  }

  /** Every finite set of naturals has a least element. */
  lemma {:induction false} LeastElement(s: set<nat>) returns (m: nat)
    requires s != {}
    ensures m in s && forall x | x in s :: m <= x
    decreases |s|
  {
    var y :| y in s;
    var rest := s - {y};
    assert s == rest + {y};
    m := y;
    if rest != {} {
      var other := LeastElement(rest);
      if other < m {
        m := other;
      }
    }
  }

  lemma LeastExists(s: set<nat>)
    requires s != {}
    ensures exists m :: m in s && forall x | x in s :: m <= x
  {
    var m := LeastElement(s);
  }

  /** `*s.begin()` of an ordered set. */
  function MinOf(s: set<nat>): (m: nat)
    requires s != {}
    ensures m in s && forall x | x in s :: m <= x
  {
    LeastExists(s);
    var m :| m in s && forall x | x in s :: m <= x;
    m
  }

  /** The elements of an ordered set in iteration order. */
  function Ascending(s: set<nat>): (xs: seq<nat>)
    ensures |xs| == |s|
  {
    if s == {} then []
    else
      var m := MinOf(s);
      assert s == {m} + (s - {m});
      [m] + Ascending(s - {m})
  }

  lemma {:induction false} AscendingHas(s: set<nat>)
    ensures forall x :: x in Ascending(s) <==> x in s
  {
    if s != {} { AscendingHas(s - {MinOf(s)}); }
  }

  // ---------------------------------------------------------------- counting elements

  function CountIf<T>(xs: seq<T>, p: T -> bool): nat {
    if xs == [] then 0 else (if p(xs[0]) then 1 else 0) + CountIf(xs[1..], p)
  }

  lemma {:induction false} CountIfConcat<T>(a: seq<T>, b: seq<T>, p: T -> bool)
    ensures CountIf(a + b, p) == CountIf(a, p) + CountIf(b, p)
  {
    if a == [] {
      assert a + b == b;
    } else {
      assert (a + b)[1..] == a[1..] + b;
      CountIfConcat(a[1..], b, p);
    }
  }

  lemma {:induction false} CountIfNone<T>(xs: seq<T>, p: T -> bool)
    requires forall i :: 0 <= i < |xs| ==> !p(xs[i])
    ensures CountIf(xs, p) == 0
  {
    if xs != [] { CountIfNone(xs[1..], p); }
  }

  lemma {:induction false} CountIfAtMost<T>(xs: seq<T>, p: T -> bool)
    ensures CountIf(xs, p) <= |xs|
  {
    if xs != [] { CountIfAtMost(xs[1..], p); }
  }

  lemma {:induction false} CountIfSome<T>(xs: seq<T>, i: nat, p: T -> bool)
    requires i < |xs| && p(xs[i])
    ensures CountIf(xs, p) >= 1
  {
    if i > 0 { CountIfSome(xs[1..], i - 1, p); }
  }

  lemma {:induction false} CountIfUpdate<T>(xs: seq<T>, i: nat, x: T, p: T -> bool)
    requires i < |xs|
    ensures CountIf(xs[i := x], p) == CountIf(xs, p) - (if p(xs[i]) then 1 else 0) + (if p(x) then 1 else 0)
  {
    if i == 0 {
      assert xs[i := x][1..] == xs[1..];
    } else {
      assert xs[i := x][1..] == xs[1..][i - 1 := x];
      CountIfUpdate(xs[1..], i - 1, x, p);
    }
  }

  lemma CountIfPush<T>(xs: seq<T>, x: T, p: T -> bool)
    ensures CountIf(xs + [x], p) == CountIf(xs, p) + (if p(x) then 1 else 0)
  {
    CountIfConcat(xs, [x], p);
  }
}
