/** Price lists, host readings and the arithmetic the scripts share: hourly
    day-ahead prices (a price may be missing), (hour, price) entries as built
    by `enumerate`, sums, means and Python's `[:k]` slice. */
module Prices {

  datatype Option<T> = None | Some(value: T)

  /** A host sensor state as `get_state` returns it: no state at all (None),
      text that `float()` accepts, or text that `float()` rejects
      (such as "unknown" or "unavailable"). */
  datatype Reading = Absent | Number(value: real) | Word(text: string)

  /** An (hour, price) pair: the tuples the scripts sort. */
  datatype Entry = Entry(hour: nat, price: real)

  /** Python's `float(x)` where it succeeds. */
  function AsFloat(r: Reading): Option<real>
  {
    if r.Number? then Some(r.value) else None
  }

  /** Every price in `prices[lo..hi]` is present. */
  predicate KnownBetween(prices: seq<Option<real>>, lo: nat, hi: nat)
  {
    forall h :: lo <= h < hi && h < |prices| ==> prices[h].Some?
  }

  /** `[(i, p) for i, p in enumerate(prices, start) if p is not None]`. */
  function KnownEntries(prices: seq<Option<real>>, start: nat): (es: seq<Entry>)
    ensures |es| <= |prices|
    ensures forall e :: e in es ==>
      start <= e.hour < start + |prices| && prices[e.hour - start] == Some(e.price)
  {
    if prices == [] then []
    else
      (if prices[0].Some? then [Entry(start, prices[0].value)] else [])
      + KnownEntries(prices[1..], start + 1)
  }

  /** `enumerate(prices[lo:hi], lo)`, keeping the present prices. When no
      price in the slice is missing this is the whole enumeration. */
  function Window(prices: seq<Option<real>>, lo: nat, hi: nat): seq<Entry>
    requires lo <= hi <= |prices|
  {
    KnownEntries(prices[lo..hi], lo)
  }

  /** A window without missing prices holds every hour of it, in order. */
  lemma WindowFull(prices: seq<Option<real>>, lo: nat, hi: nat)
    requires lo <= hi <= |prices| && KnownBetween(prices, lo, hi)
    ensures |Window(prices, lo, hi)| == hi - lo
    ensures forall i :: 0 <= i < hi - lo ==> Window(prices, lo, hi)[i] == Entry(lo + i, prices[lo + i].value)
  {
    var ps := prices[lo..hi];
    assert forall i :: 0 <= i < |ps| ==> ps[i] == prices[lo + i];
    KnownEntriesAllPresent(ps, lo);
  }
  /** The length part of `WindowFull`, for any window. */
  lemma WindowLength(prices: seq<Option<real>>, lo: nat, hi: nat)
    requires lo <= hi <= |prices|
    ensures KnownBetween(prices, lo, hi) ==> |Window(prices, lo, hi)| == hi - lo
  {
    if KnownBetween(prices, lo, hi) {
      WindowFull(prices, lo, hi);
    }
  }


  /** The hours of a list of entries, in list order. */
  function Hours(es: seq<Entry>): (hs: seq<nat>)
    ensures |hs| == |es|
  {
    seq(|es|, i requires 0 <= i < |es| => es[i].hour)
  }

  /** The prices of a list of entries, in list order. */
  function PricesOf(es: seq<Entry>): (ps: seq<real>)
    ensures |ps| == |es|
  {
    seq(|es|, i requires 0 <= i < |es| => es[i].price)
  }

  /** Hours strictly increasing along the list. */
  predicate HoursIncreasing(es: seq<Entry>)
  {
    forall i, j :: 0 <= i < j < |es| ==> es[i].hour < es[j].hour
  }

  /** Python's `s[:k]`: the first k elements, or all of them when there are fewer. */
  function Take<T>(s: seq<T>, k: nat): (r: seq<T>)
    ensures |r| == if k <= |s| then k else |s|
    ensures forall i :: 0 <= i < |r| ==> r[i] == s[i]
  {
    if k <= |s| then s[..k] else s
  }

  function Sum(xs: seq<real>): real
  {
    if xs == [] then 0.0 else Sum(xs[..|xs| - 1]) + xs[|xs| - 1]
  }

  /** `sum(xs) / len(xs)`. */
  function Mean(xs: seq<real>): real
    requires |xs| > 0
  {
    Sum(xs) / (|xs| as real)
  }

  /** The known entries of a list are exactly its present prices, each at its own hour. */
  lemma {:induction false} KnownEntriesComplete(prices: seq<Option<real>>, start: nat, i: nat)
    requires i < |prices| && prices[i].Some?
    ensures Entry(start + i, prices[i].value) in KnownEntries(prices, start)
  {
    if i > 0 {
      KnownEntriesComplete(prices[1..], start + 1, i - 1);
    }
  }

  /** `enumerate` visits hours in increasing order. */
  lemma {:induction false} KnownEntriesIncreasing(prices: seq<Option<real>>, start: nat)
    ensures HoursIncreasing(KnownEntries(prices, start))
  {
    if prices != [] {
      KnownEntriesIncreasing(prices[1..], start + 1);
    }
  }

  /** When no price is missing, every hour yields an entry. */
  lemma {:induction false} KnownEntriesAllPresent(prices: seq<Option<real>>, start: nat)
    requires KnownBetween(prices, 0, |prices|)
    ensures |KnownEntries(prices, start)| == |prices|
    ensures forall i :: 0 <= i < |prices| ==>
      KnownEntries(prices, start)[i] == Entry(start + i, prices[i].value)
  {
    if prices != [] {
      KnownEntriesAllPresent(prices[1..], start + 1);
    }
  }

  /** A bound on every element bounds the sum. */
  lemma {:induction false} SumAtMost(xs: seq<real>, x: real)
    requires forall i :: 0 <= i < |xs| ==> xs[i] <= x
    ensures Sum(xs) <= (|xs| as real) * x
  {
    if xs != [] {
      var init := xs[..|xs| - 1];
      assert forall i :: 0 <= i < |init| ==> init[i] == xs[i];
      SumAtMost(init, x);
    }
  }

  /** A lower bound on every element bounds the sum from below. */
  lemma {:induction false} SumAtLeast(xs: seq<real>, x: real)
    requires forall i :: 0 <= i < |xs| ==> x <= xs[i]
    ensures (|xs| as real) * x <= Sum(xs)
  {
    if xs != [] {
      var init := xs[..|xs| - 1];
      assert forall i :: 0 <= i < |init| ==> init[i] == xs[i];
      SumAtLeast(init, x);
    }
  }

  /** The mean of values that are all at least x is at least x. */
  lemma MeanAtLeast(xs: seq<real>, x: real)
    requires |xs| > 0
    requires forall i :: 0 <= i < |xs| ==> x <= xs[i]
    ensures x <= Mean(xs)
  {
    SumAtLeast(xs, x);
    DivideMonotone(x, Sum(xs), 1.0, |xs| as real);
  }

  /** The mean of values that are all at most x is at most x. */
  lemma MeanAtMost(xs: seq<real>, x: real)
    requires |xs| > 0
    requires forall i :: 0 <= i < |xs| ==> xs[i] <= x
    ensures Mean(xs) <= x
  {
    SumAtMost(xs, x);
    DivideMonotone(Sum(xs), x, |xs| as real, 1.0);
  }

  /** Appending a value that is at least every element cannot lower the mean. */
  lemma MeanGrowsWith(xs: seq<real>, x: real)
    requires |xs| > 0
    requires forall i :: 0 <= i < |xs| ==> xs[i] <= x
    ensures Mean(xs) <= Mean(xs + [x])
  {
    var ys := xs + [x];
    assert ys[..|ys| - 1] == xs;
    SumAtMost(xs, x);
    var n := |xs| as real;
    var s := Sum(xs);
    assert Sum(ys) == s + x;
    assert s * (n + 1.0) <= (s + x) * n;
    DivideMonotone(s, s + x, n, n + 1.0);
  }

  lemma {:induction false} SumAppend(xs: seq<real>, ys: seq<real>)
    ensures Sum(xs + ys) == Sum(xs) + Sum(ys)
  {
    if ys != [] {
      var zs := xs + ys;
      assert zs[..|zs| - 1] == xs + ys[..|ys| - 1];
      SumAppend(xs, ys[..|ys| - 1]);
    } else {
      assert xs + ys == xs;
    }
  }

  lemma PricesOfAppend(u: seq<Entry>, v: seq<Entry>)
    ensures PricesOf(u + v) == PricesOf(u) + PricesOf(v)
  {
  }

  lemma SumSnoc(xs: seq<real>, x: real)
    ensures Sum(xs + [x]) == Sum(xs) + x
  {
    assert (xs + [x])[..|xs|] == xs;
  }

  /** The sum of the prices does not depend on the order of the entries. */
  lemma {:induction false} SumPricesPermutation(a: seq<Entry>, b: seq<Entry>)
    requires multiset(a) == multiset(b)
    ensures Sum(PricesOf(a)) == Sum(PricesOf(b))
    decreases |a|
  {
    if a != [] {
      var x := a[|a| - 1];
      assert x in multiset(b) by {
        assert x in multiset(a);
      }
      var i :| 0 <= i < |b| && b[i] == x;
      var init, rest := a[..|a| - 1], b[..i] + b[i + 1..];
      RemoveMatching(a, b, i);
      SumPricesPermutation(init, rest);
      assert Sum(PricesOf(a)) == Sum(PricesOf(init)) + x.price by {
        assert a == init + [x];
        PricesOfAppend(init, [x]);
        SumSnoc(PricesOf(init), x.price);
      }
      SumWithout(b, i);
    } else {
      assert |b| == |multiset(b)|;
    }
  }

  /** Taking the last entry of `a` and an equal entry of `b` out of two
      permutations of each other leaves permutations of each other. */
  lemma RemoveMatching(a: seq<Entry>, b: seq<Entry>, i: nat)
    requires multiset(a) == multiset(b) && a != [] && i < |b| && b[i] == a[|a| - 1]
    ensures multiset(a[..|a| - 1]) == multiset(b[..i] + b[i + 1..])
  {
    var x, init, u, v := b[i], a[..|a| - 1], b[..i], b[i + 1..];
    assert b == (u + [x]) + v;
    assert a == init + [x];
    assert multiset(u + v) == multiset(u) + multiset(v);
    forall y ensures multiset(init)[y] == (multiset(u) + multiset(v))[y] {
      assert (multiset(init) + multiset{x})[y] == ((multiset(u) + multiset(v)) + multiset{x})[y];
    }
  }

  /** The price sum with one entry taken out, plus that entry's price. */
  lemma SumWithout(b: seq<Entry>, i: nat)
    requires i < |b|
    ensures Sum(PricesOf(b)) == Sum(PricesOf(b[..i] + b[i + 1..])) + b[i].price
  {
    var x, u, v := b[i], b[..i], b[i + 1..];
    var l, r := PricesOf(u), PricesOf(v);
    assert Sum(PricesOf(b)) == Sum(l) + x.price + Sum(r) by {
      assert b == (u + [x]) + v;
      PricesOfAppend(u + [x], v);
      PricesOfAppend(u, [x]);
      assert PricesOf(b) == (l + [x.price]) + r;
      SumAppend(l + [x.price], r);
      SumSnoc(l, x.price);
    }
    assert Sum(PricesOf(u + v)) == Sum(l) + Sum(r) by {
      PricesOfAppend(u, v);
      SumAppend(l, r);
    }
  }

  /** `a / n <= b / m` follows from `a * m <= b * n` for positive n and m. */
  lemma DivideMonotone(a: real, b: real, n: real, m: real)
    requires n > 0.0 && m > 0.0
    requires a * m <= b * n
    ensures a / n <= b / m
  {
    var p := a / n;
    var q := b / m;
    assert a == p * n;
    assert b == q * m;
    assert p * n * m <= q * m * n;
    assert (p - q) * (n * m) <= 0.0;
  }
}
