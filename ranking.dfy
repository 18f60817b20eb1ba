/** Python's `sorted(..., key=...)` and `list.sort(key=...)` on (hour, price)
    entries. Both are stable: entries whose keys are equal keep the order they
    had, also with `reverse=True`. The model is an insertion sort that puts a
    new entry in front of every entry with an equal key, which is stable. */
module Ranking {
  import opened Prices
  import opened HourRuns

  /** Cheapest: ascending by price. Dearest: descending by price
      (`reverse=True`). ByHour: ascending by hour (`list.sort()` on hours). */
  datatype Order = Cheapest | Dearest | ByHour

  function Key(e: Entry, o: Order): real
  {
    match o
    case Cheapest => e.price
    case Dearest => -e.price
    case ByHour => e.hour as real
  }

  /** `a` comes before `b`: a strictly smaller key, or an equal key and an earlier hour. */
  predicate Precedes(a: Entry, b: Entry, o: Order)
  {
    Key(a, o) < Key(b, o) || (Key(a, o) == Key(b, o) && a.hour < b.hour)
  }

  /** Every entry comes before every later one. */
  predicate Ranked(es: seq<Entry>, o: Order)
  {
    forall i, j :: 0 <= i < j < |es| ==> Precedes(es[i], es[j], o)
  }

  /** Entries with equal keys already appear in hour order. */
  predicate TiesInHourOrder(es: seq<Entry>, o: Order)
  {
    forall i, j :: 0 <= i < j < |es| ==> Key(es[i], o) != Key(es[j], o) || es[i].hour < es[j].hour
  }

  /** The hour of an entry determines its price (the entries come from one price list). */
  predicate PriceByHour(es: seq<Entry>)
  {
    forall i, j :: 0 <= i < |es| && 0 <= j < |es| && es[i].hour == es[j].hour ==> es[i].price == es[j].price
  }

  function Insert(x: Entry, es: seq<Entry>, o: Order): (r: seq<Entry>)
    ensures multiset(r) == multiset(es) + multiset{x}
  {
    if es == [] || Key(x, o) <= Key(es[0], o) then [x] + es
    else
      assert es == [es[0]] + es[1..];
      [es[0]] + Insert(x, es[1..], o)
  }

  /** The stable sort of `es` by the key of `o`. */
  function Rank(es: seq<Entry>, o: Order): (r: seq<Entry>)
    ensures multiset(r) == multiset(es)
    ensures |r| == |es|
  {
    if es == [] then []
    else
      assert es == [es[0]] + es[1..];
      Insert(es[0], Rank(es[1..], o), o)
  }

  lemma {:induction false} InsertRanked(x: Entry, es: seq<Entry>, o: Order)
    requires Ranked(es, o)
    requires forall j :: 0 <= j < |es| ==> Key(x, o) != Key(es[j], o) || x.hour < es[j].hour
    ensures Ranked(Insert(x, es, o), o)
  {
    if es == [] || Key(x, o) <= Key(es[0], o) {
      var r := [x] + es;
      forall i, j | 0 <= i < j < |r| ensures Precedes(r[i], r[j], o) {
        if i == 0 {
          assert Key(es[0], o) <= Key(es[j - 1], o);
        }
      }
    } else {
      var tail := es[1..];
      InsertRanked(x, tail, o);
      var t := Insert(x, tail, o);
      var r := [es[0]] + t;
      forall i, j | 0 <= i < j < |r| ensures Precedes(r[i], r[j], o) {
        if i == 0 {
          assert r[j] in multiset(tail) + multiset{x} by {
            assert r[j] == t[j - 1];
            assert t[j - 1] in multiset(t);
          }
          if r[j] != x {
            var k :| 0 <= k < |tail| && tail[k] == r[j];
            assert Precedes(es[0], es[k + 1], o);
          }
        }
      }
    }
  }

  /** The stable sort is ranked: keys never decrease, and equal keys stay in hour order. */
  lemma {:induction false} RankRanked(es: seq<Entry>, o: Order)
    requires TiesInHourOrder(es, o)
    ensures Ranked(Rank(es, o), o)
  {
    if es != [] {
      var tail := es[1..];
      assert TiesInHourOrder(tail, o) by {
        forall i, j | 0 <= i < j < |tail| ensures Key(tail[i], o) != Key(tail[j], o) || tail[i].hour < tail[j].hour {
          assert tail[i] == es[i + 1] && tail[j] == es[j + 1];
        }
      }
      RankRanked(tail, o);
      var r := Rank(tail, o);
      forall j | 0 <= j < |r| ensures Key(es[0], o) != Key(r[j], o) || es[0].hour < r[j].hour {
        assert r[j] in multiset(tail);
        var k :| 0 <= k < |tail| && tail[k] == r[j];
        assert tail[k] == es[k + 1];
      }
      InsertRanked(es[0], r, o);
    }
  }

  /** Entries built by `enumerate` rank, in every order. */
  lemma RankEnumerated(es: seq<Entry>, o: Order)
    requires HoursIncreasing(es)
    ensures Ranked(Rank(es, o), o)
  {
    RankRanked(es, o);
  }

  /** An entry that passes the sort appears in its input, and the other way round. */
  lemma RankMembers(es: seq<Entry>, o: Order)
    ensures forall e :: e in Rank(es, o) <==> e in es
  {
    var r := Rank(es, o);
    forall e ensures e in r <==> e in es {
      assert e in r <==> e in multiset(r);
      assert e in es <==> e in multiset(es);
    }
  }

  /** Two entries ranked by price from one price list never share an hour. */
  lemma {:induction false} RankedByPriceDistinctHours(es: seq<Entry>, o: Order)
    requires o != ByHour
    requires Ranked(es, o) && PriceByHour(es)
    ensures forall i, j :: 0 <= i < j < |es| ==> es[i].hour != es[j].hour
  {
    forall i, j | 0 <= i < j < |es| ensures es[i].hour != es[j].hour {
      assert Precedes(es[i], es[j], o);
    }
  }

  /** Ranked by hour means strictly increasing hours. */
  lemma RankedByHourIncreasing(es: seq<Entry>)
    requires Ranked(es, ByHour)
    ensures HoursIncreasing(es)
  {
    forall i, j | 0 <= i < j < |es| ensures es[i].hour < es[j].hour {
      assert Precedes(es[i], es[j], ByHour);
    }
  }

  /** Entries with pairwise distinct hours sort by hour into a strictly increasing list. */
  lemma SortByHourIncreasing(es: seq<Entry>)
    requires forall i, j :: 0 <= i < j < |es| ==> es[i].hour != es[j].hour
    ensures HoursIncreasing(Rank(es, ByHour))
  {
    RankRanked(es, ByHour);
    RankedByHourIncreasing(Rank(es, ByHour));
  }

  /** Python's `sorted(es, key=...)[:k]`: the first k entries of the stable sort. */
  function Best(es: seq<Entry>, o: Order, k: nat): (r: seq<Entry>)
    ensures |r| == if k <= |es| then k else |es|
  {
    Take(Rank(es, o), k)
  }

  /** Every entry kept by `[:k]` comes before every entry it leaves out: it
      has a strictly better price, or the same price and an earlier hour. */
  lemma BestBeatsRest(es: seq<Entry>, o: Order, k: nat)
    requires HoursIncreasing(es)
    ensures forall x, e :: x in Best(es, o, k) && e in es && e !in Best(es, o, k) ==> Precedes(x, e, o)
  {
    var r := Rank(es, o);
    var t := Best(es, o, k);
    RankEnumerated(es, o);
    RankMembers(es, o);
    forall x, e | x in t && e in es && e !in t ensures Precedes(x, e, o) {
      var i :| 0 <= i < |t| && t[i] == x;
      var j :| 0 <= j < |r| && r[j] == e;
      assert j >= |t|;
    }
  }

  /** `sorted(prices[lo:hi], ...)[:k]` on a slice with no missing price: it
      keeps min(k, hi - lo) hours of the slice, each with its own price, and
      each comes before every hour of the slice it leaves out. */
  lemma WindowBest(prices: seq<Option<real>>, lo: nat, hi: nat, o: Order, k: nat)
    requires lo <= hi <= |prices| && KnownBetween(prices, lo, hi)
    ensures |Best(Window(prices, lo, hi), o, k)| == if k <= hi - lo then k else hi - lo
    ensures forall e :: e in Best(Window(prices, lo, hi), o, k) ==> lo <= e.hour < hi && prices[e.hour] == Some(e.price)
    ensures forall e, h: nat :: (e in Best(Window(prices, lo, hi), o, k) && lo <= h < hi
      && Entry(h, prices[h].value) !in Best(Window(prices, lo, hi), o, k)) ==> Precedes(e, Entry(h, prices[h].value), o)
  {
    var es := Window(prices, lo, hi);
    var b := Best(es, o, k);
    WindowFull(prices, lo, hi);
    KnownEntriesIncreasing(prices[lo..hi], lo);
    BestMembers(es, o, k);
    BestBeatsRest(es, o, k);
    forall e | e in b ensures lo <= e.hour < hi && prices[e.hour] == Some(e.price) {
      var i :| 0 <= i < |es| && es[i] == e;
    }
    forall e, h: nat | e in b && lo <= h < hi && Entry(h, prices[h].value) !in b
      ensures Precedes(e, Entry(h, prices[h].value), o)
    {
      assert es[h - lo] == Entry(h, prices[h].value);
    }
  }

  /** The entries kept by `[:k]` are entries of the list. */
  lemma BestMembers(es: seq<Entry>, o: Order, k: nat)
    ensures forall x :: x in Best(es, o, k) ==> x in es
  {
    RankMembers(es, o);
  }

  /** Among entries ranked cheapest first, one more entry never lowers the mean. */
  lemma CheapestMeanGrows(es: seq<Entry>, k: nat)
    requires HoursIncreasing(es)
    requires |es| > 0 && k > 0
    ensures Mean(PricesOf(Best(es, Cheapest, k))) <= Mean(PricesOf(Best(es, Cheapest, k + 1)))
  {
    var r := Rank(es, Cheapest);
    if k < |r| {
      RankEnumerated(es, Cheapest);
      var t := Take(r, k);
      var a := PricesOf(t);
      assert Best(es, Cheapest, k) == t;
      assert Best(es, Cheapest, k + 1) == t + [r[k]];
      PricesOfSnoc(t, r[k]);
      forall i | 0 <= i < |a| ensures a[i] <= r[k].price {
        assert Precedes(r[i], r[k], Cheapest);
      }
      MeanGrowsWith(a, r[k].price);
    } else {
      assert Best(es, Cheapest, k) == r == Best(es, Cheapest, k + 1);
    }
  }

  /** No two entries share an hour. */
  predicate DistinctHours(es: seq<Entry>)
  {
    forall i, j :: 0 <= i < j < |es| ==> es[i].hour != es[j].hour
  }

  /** Sorting entries built by `enumerate`, in any order, never puts two
      entries of one hour in the result. */
  lemma RankDistinctHours(es: seq<Entry>, o: Order)
    requires HoursIncreasing(es)
    ensures DistinctHours(Rank(es, o))
  {
    var r := Rank(es, o);
    RankEnumerated(es, o);
    RankMembers(es, o);
    forall i, j | 0 <= i < j < |r| ensures r[i].hour != r[j].hour {
      assert Precedes(r[i], r[j], o);
      assert r[i] in es && r[j] in es;
    }
  }

  /** The first k of such a sort have distinct hours too. */
  lemma BestDistinctHours(es: seq<Entry>, o: Order, k: nat)
    requires HoursIncreasing(es)
    ensures DistinctHours(Best(es, o, k))
  {
    RankDistinctHours(es, o);
  }

  /** `sorted(hour for hour, _ in es)`: the hours of the entries, ascending. */
  function SortedHours(es: seq<Entry>): (hs: seq<nat>)
    ensures |hs| == |es|
  {
    Hours(Rank(es, ByHour))
  }

  /** Entries with distinct hours give a strictly increasing hour list that
      holds exactly their hours. */
  lemma SortedHoursSpec(es: seq<Entry>)
    requires DistinctHours(es)
    ensures Increasing(SortedHours(es))
    ensures forall h :: h in SortedHours(es) <==> exists e :: e in es && e.hour == h
  {
    SortByHourIncreasing(es);
    RankMembers(es, ByHour);
    var r := Rank(es, ByHour);
    var hs := SortedHours(es);
    forall h ensures h in hs <==> exists e :: e in es && e.hour == h {
      if h in hs {
        var i :| 0 <= i < |hs| && hs[i] == h;
        assert r[i] in r;
      }
      if exists e :: e in es && e.hour == h {
        var e :| e in es && e.hour == h;
        assert e in r;
        var i :| 0 <= i < |r| && r[i] == e;
        assert hs[i] == h;
      }
    }
  }

  lemma PricesOfSnoc(t: seq<Entry>, e: Entry)
    ensures PricesOf(t + [e]) == PricesOf(t) + [e.price]
  {
  }
}
