/**
 * The "keep what succeeded, in order" pattern shared by the URL split
 * (csv_handler.py:21, see `PyStr.StrippedNonEmptyIsFilterMap`), the row
 * loop (csv_handler.py:15-31) and the image loop (api.py:91-102): each
 * element yields a value or nothing, and the values are collected in
 * input order.
 */
module FilterMaps {
  import opened Wrappers

  /** The value of one element, as a sequence of zero or one items. */
  function Yield<A, B>(x: A, f: A -> Option<B>): seq<B>
  {
    if f(x).Some? then [f(x).value] else []
  }

  function FilterMap<A, B>(xs: seq<A>, f: A -> Option<B>): (r: seq<B>)
    ensures |r| <= |xs|
    decreases |xs|
  {
    if xs == [] then [] else Yield(xs[0], f) + FilterMap(xs[1..], f)
  }

  /** Each element is handled on its own: the result distributes over concatenation. */
  lemma {:induction false} FilterMapAppend<A, B>(xs: seq<A>, ys: seq<A>, f: A -> Option<B>)
    ensures FilterMap(xs + ys, f) == FilterMap(xs, f) + FilterMap(ys, f)
    decreases |xs|
  {
    if xs == [] {
      assert xs + ys == ys;
    } else {
      var h := Yield(xs[0], f);
      assert (xs + ys)[0] == xs[0];
      assert (xs + ys)[1..] == xs[1..] + ys;
      assert FilterMap(xs + ys, f) == h + FilterMap(xs[1..] + ys, f);
      FilterMapAppend(xs[1..], ys, f);
      assert FilterMap(xs, f) == h + FilterMap(xs[1..], f);
      assert h + (FilterMap(xs[1..], f) + FilterMap(ys, f)) == (h + FilterMap(xs[1..], f)) + FilterMap(ys, f);
    }
  }

  lemma FilterMapSingle<A, B>(x: A, f: A -> Option<B>)
    ensures FilterMap([x], f) == Yield(x, f)
  {
    assert [x][1..] == [];
    assert FilterMap([x], f) == Yield(x, f) + [];
  }

  /** One more element extends the result by that element's value, if any. */
  lemma FilterMapSnoc<A, B>(xs: seq<A>, i: nat, f: A -> Option<B>)
    requires i < |xs|
    ensures FilterMap(xs[..i + 1], f) == FilterMap(xs[..i], f) + Yield(xs[i], f)
  {
    assert xs[..i + 1] == xs[..i] + [xs[i]];
    FilterMapAppend(xs[..i], [xs[i]], f);
    FilterMapSingle(xs[i], f);
  }

  /** An element that yields nothing leaves the others' values exactly as they were. */
  lemma FilterMapSkip<A, B>(xs: seq<A>, x: A, ys: seq<A>, f: A -> Option<B>)
    requires f(x).None?
    ensures FilterMap(xs + [x] + ys, f) == FilterMap(xs, f) + FilterMap(ys, f)
  {
    var front := xs + [x];
    FilterMapAppend(xs, [x], f);
    FilterMapSingle(x, f);
    var l := FilterMap(xs, f);
    assert Yield(x, f) == [];
    assert l + [] == l;
    assert FilterMap(front, f) == l;
    FilterMapAppend(front, ys, f);
  }

  /** When every element yields a value, nothing is dropped and the k-th value comes from the k-th element. */
  lemma {:induction false} FilterMapAllSome<A, B>(xs: seq<A>, f: A -> Option<B>)
    requires forall i :: 0 <= i < |xs| ==> f(xs[i]).Some?
    ensures |FilterMap(xs, f)| == |xs|
    ensures forall k :: 0 <= k < |xs| ==> FilterMap(xs, f)[k] == f(xs[k]).value
    decreases |xs|
  {
    if xs != [] {
      FilterMapAllSome(xs[1..], f);
      var r := FilterMap(xs, f);
      assert r == [f(xs[0]).value] + FilterMap(xs[1..], f);
      assert forall i :: 0 <= i < |xs| - 1 ==> xs[1..][i] == xs[i + 1];
      forall k | 0 <= k < |xs| ensures r[k] == f(xs[k]).value {
        if k > 0 {
          assert r[k] == FilterMap(xs[1..], f)[k - 1];
          assert xs[1..][k - 1] == xs[k];
        }
      }
    }
  }

  /** When no element yields a value, the result is empty. */
  lemma {:induction false} FilterMapAllNone<A, B>(xs: seq<A>, f: A -> Option<B>)
    requires forall i :: 0 <= i < |xs| ==> f(xs[i]).None?
    ensures FilterMap(xs, f) == []
    decreases |xs|
  {
    if xs != [] {
      assert forall i :: 0 <= i < |xs| - 1 ==> xs[1..][i] == xs[i + 1];
      FilterMapAllNone(xs[1..], f);
    }
  }

  /** A property every produced value has holds of every element of the result. */
  lemma {:induction false} FilterMapAll<A, B>(xs: seq<A>, f: A -> Option<B>, p: B -> bool)
    requires forall i :: 0 <= i < |xs| && f(xs[i]).Some? ==> p(f(xs[i]).value)
    ensures forall k :: 0 <= k < |FilterMap(xs, f)| ==> p(FilterMap(xs, f)[k])
    decreases |xs|
  {
    if xs != [] {
      assert forall i :: 0 <= i < |xs| - 1 ==> xs[1..][i] == xs[i + 1];
      FilterMapAll(xs[1..], f, p);
      var head := Yield(xs[0], f);
      var tail := FilterMap(xs[1..], f);
      assert FilterMap(xs, f) == head + tail;
      forall k | 0 <= k < |head + tail| ensures p((head + tail)[k]) {
        if k >= |head| {
          assert (head + tail)[k] == tail[k - |head|];
        }
      }
    }
  }

  /** The positions, counted from `base`, of the elements that yield a value, in order. */
  function OriginsFrom<A, B>(xs: seq<A>, f: A -> Option<B>, base: nat): (o: seq<nat>)
    decreases |xs|
  {
    if xs == [] then []
    else (if f(xs[0]).Some? then [base] else []) + OriginsFrom(xs[1..], f, base + 1)
  }

  /** The positions of the elements that yield a value, in order. */
  function Origins<A, B>(xs: seq<A>, f: A -> Option<B>): seq<nat>
  {
    OriginsFrom(xs, f, 0)
  }

  /** There is one origin per value of the result. */
  lemma {:induction false} OriginsLength<A, B>(xs: seq<A>, f: A -> Option<B>, base: nat)
    ensures |OriginsFrom(xs, f, base)| == |FilterMap(xs, f)|
    decreases |xs|
  {
    if xs != [] {
      OriginsLength(xs[1..], f, base + 1);
      var ho: seq<nat> := if f(xs[0]).Some? then [base] else [];
      assert OriginsFrom(xs, f, base) == ho + OriginsFrom(xs[1..], f, base + 1);
      assert FilterMap(xs, f) == Yield(xs[0], f) + FilterMap(xs[1..], f);
    }
  }

  /** The k-th value of the result is the value of the element at the k-th origin. */
  lemma {:induction false} OriginsGiveValues<A, B>(xs: seq<A>, f: A -> Option<B>, base: nat, k: nat)
    requires k < |FilterMap(xs, f)|
    ensures k < |OriginsFrom(xs, f, base)|
    ensures base <= OriginsFrom(xs, f, base)[k] < base + |xs|
    ensures f(xs[OriginsFrom(xs, f, base)[k] - base]) == Some(FilterMap(xs, f)[k])
    decreases |xs|
  {
    OriginsLength(xs, f, base);
    assert xs != [];
    var tail := xs[1..];
    var r, o := FilterMap(xs, f), OriginsFrom(xs, f, base);
    var tr, to := FilterMap(tail, f), OriginsFrom(tail, f, base + 1);
    var hr := Yield(xs[0], f);
    var ho: seq<nat> := if f(xs[0]).Some? then [base] else [];
    assert o == ho + to;
    assert r == hr + tr;
    assert |ho| == |hr|;
    OriginsLength(tail, f, base + 1);
    if k < |ho| {
      assert o[k] == base && r[k] == hr[0];
    } else {
      var j := k - |ho|;
      OriginsGiveValues(tail, f, base + 1, j);
      assert o[k] == to[j];
      assert r[k] == tr[j];
      assert xs[o[k] - base] == tail[to[j] - (base + 1)];
    }
  }

  /** The origins strictly increase: the result keeps the input order. */
  lemma {:induction false} OriginsIncrease<A, B>(xs: seq<A>, f: A -> Option<B>, base: nat, k: nat, l: nat)
    requires k < l < |OriginsFrom(xs, f, base)|
    ensures OriginsFrom(xs, f, base)[k] < OriginsFrom(xs, f, base)[l]
    decreases |xs|
  {
    assert xs != [];
    var ho: seq<nat> := if f(xs[0]).Some? then [base] else [];
    var to := OriginsFrom(xs[1..], f, base + 1);
    var o := OriginsFrom(xs, f, base);
    assert o == ho + to;
    assert o[l] == to[l - |ho|];
    if k >= |ho| {
      OriginsIncrease(xs[1..], f, base + 1, k - |ho|, l - |ho|);
      assert o[k] == to[k - |ho|];
    } else {
      assert o[k] == base;
      OriginsLength(xs[1..], f, base + 1);
      OriginsGiveValues(xs[1..], f, base + 1, l - |ho|);
    }
  }

  /** Every element that yields a value has its position among the origins: nothing is lost. */
  lemma {:induction false} SomeHasOrigin<A, B>(xs: seq<A>, f: A -> Option<B>, base: nat, i: nat)
    requires i < |xs| && f(xs[i]).Some?
    ensures base + i in OriginsFrom(xs, f, base)
    decreases |xs|
  {
    var o := OriginsFrom(xs, f, base);
    var ho: seq<nat> := if f(xs[0]).Some? then [base] else [];
    var to := OriginsFrom(xs[1..], f, base + 1);
    assert o == ho + to;
    if i == 0 {
      assert o[0] == base;
    } else {
      assert xs[1..][i - 1] == xs[i];
      SomeHasOrigin(xs[1..], f, base + 1, i - 1);
      var k :| 0 <= k < |to| && to[k] == base + i;
      assert o[|ho| + k] == base + i;
    }
  }

  /**
   * The result is an order-preserving subsequence of the produced values:
   * the k-th value comes from the element at the k-th origin, the origins
   * increase, and every element that yields a value has an origin.
   */
  lemma FilterMapSubsequence<A, B>(xs: seq<A>, f: A -> Option<B>)
    ensures var r, o := FilterMap(xs, f), Origins(xs, f);
      && |o| == |r|
      && (forall k :: 0 <= k < |o| ==> o[k] < |xs| && f(xs[o[k]]) == Some(r[k]))
      && (forall k, l :: 0 <= k < l < |o| ==> o[k] < o[l])
      && (forall i :: 0 <= i < |xs| && f(xs[i]).Some? ==> i in o)
  {
    OriginsLength(xs, f, 0);
    forall k | 0 <= k < |FilterMap(xs, f)|
      ensures Origins(xs, f)[k] < |xs| && f(xs[Origins(xs, f)[k]]) == Some(FilterMap(xs, f)[k])
    {
      OriginsGiveValues(xs, f, 0, k);
    }
    forall k, l | 0 <= k < l < |Origins(xs, f)| ensures Origins(xs, f)[k] < Origins(xs, f)[l] {
      OriginsIncrease(xs, f, 0, k, l);
    }
    forall i | 0 <= i < |xs| && f(xs[i]).Some? ensures i in Origins(xs, f) {
      SomeHasOrigin(xs, f, 0, i);
    }
  }

  /**
   * Two filters that keep the same elements, where one's values determine
   * the other's through `h`, give results related by `h` element by element.
   */
  lemma {:induction false} FilterMapThrough<A, B, C>(xs: seq<A>, f: A -> Option<B>, g: A -> Option<C>, h: C -> B)
    requires forall x :: f(x).Some? <==> g(x).Some?
    requires forall x :: f(x).Some? ==> f(x).value == h(g(x).value)
    ensures |FilterMap(xs, f)| == |FilterMap(xs, g)|
    ensures forall k :: 0 <= k < |FilterMap(xs, f)| ==> FilterMap(xs, f)[k] == h(FilterMap(xs, g)[k])
    decreases |xs|
  {
    if xs != [] {
      FilterMapThrough(xs[1..], f, g, h);
      var fr, gr := FilterMap(xs[1..], f), FilterMap(xs[1..], g);
      var fy, gy := Yield(xs[0], f), Yield(xs[0], g);
      assert FilterMap(xs, f) == fy + fr;
      assert FilterMap(xs, g) == gy + gr;
      assert |fy| == |gy|;
      forall k | 0 <= k < |fy + fr| ensures (fy + fr)[k] == h((gy + gr)[k]) {
        if k >= |fy| {
          assert (fy + fr)[k] == fr[k - |fy|];
          assert (gy + gr)[k] == gr[k - |fy|];
        }
      }
    }
  }
}
