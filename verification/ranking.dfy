/**
 * Ranking of forecast periods by price, as the scripts do it with Python's
 * `sorted(periods, key=lambda p: p["price"], reverse=desc)`.
 *
 * Python's sort is stable: among equal prices the earlier forecast index
 * keeps the earlier place. `Sort` is an insertion sort that inserts each
 * earlier element in front of its ties, which gives exactly that order.
 * The lemmas here turn "position in the sorted list" into counting
 * statements about the unsorted forecast, which is how the planners'
 * contracts are phrased.
 */
module Ranking {
  import opened Common

  /** One half-hour forecast period: its position in the forecast, its wall-clock start hour, its price. */
  datatype Period = Period(index: int, hour: real, price: real)

  /** a may stand before b: a price at least as high (descending) or at least as low (ascending). */
  predicate Precedes(a: Period, b: Period, desc: bool)
  {
    if desc then a.price >= b.price else a.price <= b.price
  }

  /** Period e ranks strictly ahead of the price v. */
  predicate Beats(e: Period, v: real, desc: bool)
  {
    if desc then e.price > v else e.price < v
  }

  predicate Ordered(s: seq<Period>, desc: bool)
  {
    forall i, j :: 0 <= i < j < |s| ==> Precedes(s[i], s[j], desc)
  }

  /** Ordered by price, and among equal prices by increasing index. */
  predicate StablyOrdered(s: seq<Period>, desc: bool)
  {
    Ordered(s, desc) &&
    forall i, j :: 0 <= i < j < |s| && s[i].price == s[j].price ==> s[i].index < s[j].index
  }

  predicate IncreasingIndices(s: seq<Period>)
  {
    forall i, j :: 0 <= i < j < |s| ==> s[i].index < s[j].index
  }

  function Prices(s: seq<Period>): (r: seq<real>)
    ensures |r| == |s|
    ensures forall i :: 0 <= i < |s| ==> r[i] == s[i].price
  {
    if |s| == 0 then [] else [s[0].price] + Prices(s[1..])
  }

  function Indices(s: seq<Period>): (r: seq<int>)
    ensures |r| == |s|
    ensures forall i :: 0 <= i < |s| ==> r[i] == s[i].index
  {
    if |s| == 0 then [] else [s[0].index] + Indices(s[1..])
  }

  /** The periods `from, from+1, …` carrying the prices xs (their hour is irrelevant here). */
  function Enumerate(xs: seq<real>, from: int): (r: seq<Period>)
    ensures |r| == |xs|
    ensures forall i :: 0 <= i < |xs| ==> r[i] == Period(from + i, 0.0, xs[i])
  {
    if |xs| == 0 then [] else [Period(from, 0.0, xs[0])] + Enumerate(xs[1..], from + 1)
  }

  function Insert(x: Period, t: seq<Period>, desc: bool): (r: seq<Period>)
    ensures |r| == |t| + 1
    ensures multiset(r) == multiset(t) + multiset{x}
  {
    if |t| == 0 || Precedes(x, t[0], desc) then [x] + t
    else
      assert t == [t[0]] + t[1..];
      [t[0]] + Insert(x, t[1..], desc)
  }

  /** `sorted(s, key=price, reverse=desc)` */
  function Sort(s: seq<Period>, desc: bool): (r: seq<Period>)
    ensures |r| == |s|
    ensures multiset(r) == multiset(s)
  {
    if |s| == 0 then []
    else
      assert s == [s[0]] + s[1..];
      Insert(s[0], Sort(s[1..], desc), desc)
  }

  /** Number of periods in s ranking strictly ahead of the price v. */
  function CountBeats(s: seq<Period>, v: real, desc: bool): (n: nat)
    ensures n <= |s|
  {
    if |s| == 0 then 0 else (if Beats(s[0], v, desc) then 1 else 0) + CountBeats(s[1..], v, desc)
  }

  /** 0-based position of the first period carrying the given index. */
  function FirstPos(s: seq<Period>, idx: int): (r: Option<nat>)
    ensures r.Some? ==> r.value < |s| && s[r.value].index == idx
    ensures r.Some? ==> forall j :: 0 <= j < r.value ==> s[j].index != idx
    ensures r.None? ==> forall j :: 0 <= j < |s| ==> s[j].index != idx
  {
    if |s| == 0 then None
    else if s[0].index == idx then Some(0)
    else match FirstPos(s[1..], idx)
      case None => None
      case Some(p) => Some(p + 1)
  }

  /** `idx in [p["index"] for p in s]` */
  predicate HasIndex(s: seq<Period>, idx: int)
  {
    exists j :: 0 <= j < |s| && s[j].index == idx
  }

  /** In a window of non-negative indices in increasing order, index 0 can only come first. */
  lemma ZeroIndexLeads(w: seq<Period>)
    requires IncreasingIndices(w)
    requires forall k :: 0 <= k < |w| ==> w[k].index >= 0
    requires HasIndex(w, 0)
    ensures |w| > 0 && w[0].index == 0
  {
    var j :| 0 <= j < |w| && w[j].index == 0;
  }

  // ---------------------------------------------------------------------
  // Sortedness and stability
  // ---------------------------------------------------------------------

  lemma {:induction false} InsertOrdered(x: Period, t: seq<Period>, desc: bool)
    requires Ordered(t, desc)
    ensures Ordered(Insert(x, t, desc), desc)
  {
    if |t| == 0 || Precedes(x, t[0], desc) {
    } else {
      var rest := Insert(x, t[1..], desc);
      InsertOrdered(x, t[1..], desc);
      forall e | e in rest
        ensures Precedes(t[0], e, desc)
      {
        assert e in multiset(rest);
        if e != x {
          assert e in multiset(t[1..]);
          var j :| 0 <= j < |t[1..]| && t[1..][j] == e;
          assert t[j + 1] == e;
        }
      }
      assert Insert(x, t, desc) == [t[0]] + rest;
    }
  }

  lemma {:induction false} SortOrdered(s: seq<Period>, desc: bool)
    ensures Ordered(Sort(s, desc), desc)
  {
    if |s| > 0 {
      SortOrdered(s[1..], desc);
      InsertOrdered(s[0], Sort(s[1..], desc), desc);
    }
  }

  /** Putting h in front keeps a stable order when h may precede every element and wins every tie. */
  lemma ConsStable(h: Period, rest: seq<Period>, desc: bool)
    requires StablyOrdered(rest, desc)
    requires forall e :: e in rest ==> Precedes(h, e, desc)
    requires forall e :: e in rest && e.price == h.price ==> h.index < e.index
    ensures StablyOrdered([h] + rest, desc)
  {
    var s := [h] + rest;
    forall i, j | 0 <= i < j < |s|
      ensures Precedes(s[i], s[j], desc)
      ensures s[i].price == s[j].price ==> s[i].index < s[j].index
    {
      assert s[j] == rest[j - 1];
      if i > 0 {
        assert s[i] == rest[i - 1];
      } else {
        assert s[j] in rest;
      }
    }
  }

  lemma {:induction false} InsertStable(x: Period, t: seq<Period>, desc: bool)
    requires StablyOrdered(t, desc)
    requires forall e :: e in t ==> x.index < e.index
    ensures StablyOrdered(Insert(x, t, desc), desc)
  {
    if |t| == 0 || Precedes(x, t[0], desc) {
      forall e | e in t
        ensures Precedes(x, e, desc)
      {
        var j :| 0 <= j < |t| && t[j] == e;
        if j > 0 {
          assert Precedes(t[0], t[j], desc);
        }
      }
      ConsStable(x, t, desc);
      assert Insert(x, t, desc) == [x] + t;
    } else {
      var rest := Insert(x, t[1..], desc);
      InsertStable(x, t[1..], desc);
      forall e | e in rest
        ensures Precedes(t[0], e, desc)
        ensures e.price == t[0].price ==> t[0].index < e.index
      {
        assert e in multiset(rest);
        if e != x {
          assert e in multiset(t[1..]);
          var j :| 0 <= j < |t[1..]| && t[1..][j] == e;
          assert t[j + 1] == e;
        }
      }
      ConsStable(t[0], rest, desc);
      assert Insert(x, t, desc) == [t[0]] + rest;
    }
  }

  /** Sorting index-ordered periods yields the stable order: by price, ties by index. */
  lemma {:induction false} SortStable(s: seq<Period>, desc: bool)
    requires IncreasingIndices(s)
    ensures StablyOrdered(Sort(s, desc), desc)
  {
    if |s| > 0 {
      var t := Sort(s[1..], desc);
      SortStable(s[1..], desc);
      forall e | e in t
        ensures s[0].index < e.index
      {
        assert e in multiset(t);
        assert e in multiset(s[1..]);
        var j :| 0 <= j < |s[1..]| && s[1..][j] == e;
        assert s[j + 1] == e;
      }
      InsertStable(s[0], t, desc);
    }
  }

  // ---------------------------------------------------------------------
  // Counting
  // ---------------------------------------------------------------------

  lemma {:induction false} CountBeatsInsert(x: Period, t: seq<Period>, v: real, desc: bool)
    ensures CountBeats(Insert(x, t, desc), v, desc) == CountBeats(t, v, desc) + (if Beats(x, v, desc) then 1 else 0)
  {
    if |t| == 0 || Precedes(x, t[0], desc) {
      assert ([x] + t)[1..] == t;
    } else {
      CountBeatsInsert(x, t[1..], v, desc);
      assert ([t[0]] + Insert(x, t[1..], desc))[1..] == Insert(x, t[1..], desc);
    }
  }

  /** Sorting does not change how many periods beat a price. */
  lemma {:induction false} CountBeatsSort(s: seq<Period>, v: real, desc: bool)
    ensures CountBeats(Sort(s, desc), v, desc) == CountBeats(s, v, desc)
  {
    if |s| > 0 {
      CountBeatsSort(s[1..], v, desc);
      CountBeatsInsert(s[0], Sort(s[1..], desc), v, desc);
    }
  }

  lemma {:induction false} CountBeatsEnumerate(xs: seq<real>, from: int, v: real)
    ensures CountBeats(Enumerate(xs, from), v, false) == CountBelow(xs, v)
  {
    if |xs| > 0 {
      CountBeatsEnumerate(xs[1..], from + 1, v);
      assert Enumerate(xs, from)[1..] == Enumerate(xs[1..], from + 1);
    }
  }

  lemma {:induction false} CountBeatsAtLeast(t: seq<Period>, m: nat, v: real, desc: bool)
    requires m <= |t|
    requires forall i :: 0 <= i < m ==> Beats(t[i], v, desc)
    ensures CountBeats(t, v, desc) >= m
  {
    if m > 0 {
      CountBeatsAtLeast(t[1..], m - 1, v, desc);
    }
  }

  lemma {:induction false} CountBeatsAtMost(t: seq<Period>, m: nat, v: real, desc: bool)
    requires m <= |t|
    requires forall j :: m <= j < |t| ==> !Beats(t[j], v, desc)
    ensures CountBeats(t, v, desc) <= m
  {
    if |t| > 0 {
      if m == 0 {
        CountBeatsAtMost(t[1..], 0, v, desc);
      } else {
        CountBeatsAtMost(t[1..], m - 1, v, desc);
      }
    }
  }

  /**
   * In an ordered list, the price v does not rank strictly behind the
   * k-th entry exactly when at most k entries beat v.
   */
  lemma RankThreshold(t: seq<Period>, k: nat, v: real, desc: bool)
    requires Ordered(t, desc)
    requires k < |t|
    ensures !Beats(t[k], v, desc) <==> CountBeats(t, v, desc) <= k
  {
    if Beats(t[k], v, desc) {
      assert forall i :: 0 <= i <= k ==> Precedes(t[i], t[k], desc);
      CountBeatsAtLeast(t, k + 1, v, desc);
    } else {
      assert forall j :: k <= j < |t| ==> Precedes(t[k], t[j], desc);
      CountBeatsAtMost(t, k, v, desc);
    }
  }

  // ---------------------------------------------------------------------
  // Where the first period lands
  // ---------------------------------------------------------------------

  lemma {:induction false} NothingBeatsLeader(x: Period, t: seq<Period>, desc: bool)
    requires Ordered(t, desc)
    requires |t| > 0 && Precedes(x, t[0], desc)
    ensures CountBeats(t, x.price, desc) == 0
  {
    assert forall j :: 0 <= j < |t| ==> Precedes(t[0], t[j], desc);
    CountBeatsAtMost(t, 0, x.price, desc);
  }

  lemma {:induction false} InsertPosition(x: Period, t: seq<Period>, desc: bool)
    requires Ordered(t, desc)
    requires forall j :: 0 <= j < |t| ==> t[j].index != x.index
    ensures FirstPos(Insert(x, t, desc), x.index) == Some(CountBeats(t, x.price, desc))
  {
    if |t| == 0 {
    } else if Precedes(x, t[0], desc) {
      NothingBeatsLeader(x, t, desc);
    } else {
      InsertPosition(x, t[1..], desc);
      var r := Insert(x, t, desc);
      assert r == [t[0]] + Insert(x, t[1..], desc);
      assert r[1..] == Insert(x, t[1..], desc);
    }
  }

  /**
   * The first period of an index-ordered list lands, after sorting, at the
   * position given by the number of other periods whose price beats it:
   * earlier periods win every tie.
   */
  lemma FirstLandsAfterItsBetters(s: seq<Period>, desc: bool)
    requires |s| > 0
    requires IncreasingIndices(s)
    ensures FirstPos(Sort(s, desc), s[0].index) == Some(CountBeats(s[1..], s[0].price, desc))
  {
    var t := Sort(s[1..], desc);
    SortOrdered(s[1..], desc);
    forall j | 0 <= j < |t|
      ensures t[j].index != s[0].index
    {
      assert t[j] in multiset(t);
      assert t[j] in multiset(s[1..]);
      var i :| 0 <= i < |s[1..]| && s[1..][i] == t[j];
      assert s[i + 1] == t[j];
    }
    InsertPosition(s[0], t, desc);
    CountBeatsSort(s[1..], s[0].price, desc);
  }

  /** An index occurs among the first k periods exactly when its first position is below k. */
  lemma PrefixHasIndex(s: seq<Period>, k: nat, idx: int)
    requires k <= |s|
    ensures HasIndex(s[..k], idx) <==> (FirstPos(s, idx).Some? && FirstPos(s, idx).value < k)
  {
    var p := FirstPos(s, idx);
    if HasIndex(s[..k], idx) {
      var j :| 0 <= j < k && s[..k][j].index == idx;
      assert s[j].index == idx;
    }
    if p.Some? && p.value < k {
      assert s[..k][p.value].index == idx;
    }
  }

  // ---------------------------------------------------------------------
  // Sorted price lists
  // ---------------------------------------------------------------------

  /** `sorted(xs, reverse=desc)` for a plain list of prices. */
  function SortedPrices(xs: seq<real>, desc: bool): (r: seq<real>)
    ensures |r| == |xs|
  {
    Prices(Sort(Enumerate(xs, 0), desc))
  }

  lemma {:induction false} CountBeatsEnumerateDesc(xs: seq<real>, from: int, v: real)
    ensures CountBeats(Enumerate(xs, from), v, true) == CountAbove(xs, v)
  {
    if |xs| > 0 {
      CountBeatsEnumerateDesc(xs[1..], from + 1, v);
      assert Enumerate(xs, from)[1..] == Enumerate(xs[1..], from + 1);
    }
  }

  /** Every entry of a sorted price list is one of the input prices. */
  lemma SortedPriceMember(xs: seq<real>, desc: bool, k: nat)
    requires k < |xs|
    ensures SortedPrices(xs, desc)[k] in xs
  {
    var t := Sort(Enumerate(xs, 0), desc);
    assert t[k] in multiset(t);
    assert t[k] in multiset(Enumerate(xs, 0));
    var i :| 0 <= i < |xs| && Enumerate(xs, 0)[i] == t[k];
    assert xs[i] == t[k].price;
  }

  /** v is at most the (k+1)-th cheapest price exactly when at most k prices lie below v. */
  lemma AscendingRank(xs: seq<real>, k: nat, v: real)
    requires k < |xs|
    ensures v <= SortedPrices(xs, false)[k] <==> CountBelow(xs, v) <= k
  {
    var t := Sort(Enumerate(xs, 0), false);
    SortOrdered(Enumerate(xs, 0), false);
    RankThreshold(t, k, v, false);
    CountBeatsSort(Enumerate(xs, 0), v, false);
    CountBeatsEnumerate(xs, 0, v);
  }

  /** v is at least the (k+1)-th highest price exactly when at most k prices lie above v. */
  lemma DescendingRank(xs: seq<real>, k: nat, v: real)
    requires k < |xs|
    ensures v >= SortedPrices(xs, true)[k] <==> CountAbove(xs, v) <= k
  {
    var t := Sort(Enumerate(xs, 0), true);
    SortOrdered(Enumerate(xs, 0), true);
    RankThreshold(t, k, v, true);
    CountBeatsSort(Enumerate(xs, 0), v, true);
    CountBeatsEnumerateDesc(xs, 0, v);
  }

  /**
   * The n-th highest of a list of prices, or its lowest when n exceeds its
   * length: the lowest price that fewer than n prices lie strictly above.
   */
  function NthHighest(xs: seq<real>, n: int): (t: real)
    requires |xs| > 0 && n >= 1
    ensures t in xs
    ensures CountAbove(xs, t) < n
    ensures forall v :: v in xs && CountAbove(xs, v) < n ==> t <= v
  {
    if n >= |xs| then
      var m := MinOf(xs);
      CountAboveMember(xs, m);
      m
    else
      var sorted := SortedPrices(xs, true);
      SortedPriceMember(xs, true, n - 1);
      DescendingRank(xs, n - 1, sorted[n - 1]);
      assert forall v :: v in xs && CountAbove(xs, v) < n ==> sorted[n - 1] <= v by {
        forall v | v in xs && CountAbove(xs, v) < n
          ensures sorted[n - 1] <= v
        {
          DescendingRank(xs, n - 1, v);
        }
      }
      sorted[n - 1]
  }

  /** Sorting keeps exactly the same indices. */
  lemma HasIndexSort(s: seq<Period>, desc: bool, idx: int)
    ensures HasIndex(Sort(s, desc), idx) <==> HasIndex(s, idx)
  {
    var t := Sort(s, desc);
    if HasIndex(s, idx) {
      var j :| 0 <= j < |s| && s[j].index == idx;
      assert s[j] in multiset(t);
      var k :| 0 <= k < |t| && t[k] == s[j];
    }
    if HasIndex(t, idx) {
      var j :| 0 <= j < |t| && t[j].index == idx;
      assert t[j] in multiset(s);
      var k :| 0 <= k < |s| && s[k] == t[j];
    }
  }

  /**
   * The first entry of a stable ascending sort of index-ordered periods is
   * a cheapest period, and the earliest of the cheapest.
   */
  lemma LeaderOfAscendingSort(s: seq<Period>)
    requires |s| > 0
    requires IncreasingIndices(s)
    ensures Sort(s, false)[0] in s
    ensures forall e :: e in s ==> Sort(s, false)[0].price <= e.price
    ensures forall e :: e in s && e.price == Sort(s, false)[0].price ==> Sort(s, false)[0].index <= e.index
  {
    var t := Sort(s, false);
    SortStable(s, false);
    assert t[0] in multiset(s);
    forall e | e in s
      ensures t[0].price <= e.price
      ensures e.price == t[0].price ==> t[0].index <= e.index
    {
      assert e in multiset(t);
      var j :| 0 <= j < |t| && t[j] == e;
      if j > 0 {
        assert Precedes(t[0], t[j], false);
      }
    }
  }

  // ---------------------------------------------------------------------
  // Top-N selection from a window of periods
  // ---------------------------------------------------------------------

  /**
   * What the planners report about a window of periods: the `best` first
   * entries of the stable sort, whether the current period (index 0) is
   * among them, its 1-based rank, the window size, the number wanted and
   * the price of the last selected period.
   */
  datatype Selection = Selection(
    best: seq<Period>,
    currentIsGood: bool,
    currentRank: Option<nat>,
    totalPeriods: nat,
    periodsNeeded: int,
    worstAcceptablePrice: real)

  /** The 1-based position of the current period (index 0), if present. */
  function RankOfCurrent(sorted: seq<Period>): (r: Option<nat>)
    ensures r.Some? <==> FirstPos(sorted, 0).Some?
    ensures r.Some? ==> r.value == FirstPos(sorted, 0).value + 1
  {
    match FirstPos(sorted, 0)
    case None => None
    case Some(p) => Some(p + 1)
  }

  lemma SortedPrefixFacts(w: seq<Period>, desc: bool, k: nat)
    requires k <= |w|
    ensures forall b :: b in Sort(w, desc)[..k] ==> b in w
    ensures k > 0 ==> forall i :: 0 <= i < k ==> Precedes(Sort(w, desc)[i], Sort(w, desc)[k - 1], desc)
  {
    var sorted := Sort(w, desc);
    SortOrdered(w, desc);
    forall b | b in sorted[..k]
      ensures b in w
    {
      assert b in multiset(sorted);
    }
  }

  /** Sort the window and keep the first `needed` periods (all of them if fewer). */
  function SelectTop(w: seq<Period>, needed: int, desc: bool): (o: Selection)
    requires needed >= 1
    ensures o.periodsNeeded == needed && o.totalPeriods == |w|
    ensures |o.best| == MinInt(needed, |w|)
    ensures forall b :: b in o.best ==> b in w
    ensures |o.best| > 0 ==> o.worstAcceptablePrice == o.best[|o.best| - 1].price
    ensures |o.best| > 0 ==> forall k :: 0 <= k < |o.best| ==> Precedes(o.best[k], o.best[|o.best| - 1], desc)
    ensures o.currentIsGood <==> HasIndex(o.best, 0)
  {
    var sorted := Sort(w, desc);
    var k := MinInt(needed, |sorted|);
    var best := sorted[..k];
    SortedPrefixFacts(w, desc, k);
    Selection(best, HasIndex(best, 0), RankOfCurrent(sorted), |sorted|, needed, if k > 0 then best[k - 1].price else 0.0)
  }

  /** Every selected period ranks at least as well as every window period left out. */
  lemma SelectTopDominates(w: seq<Period>, needed: int, desc: bool, e: Period, b: Period)
    requires needed >= 1
    requires e in w && e !in SelectTop(w, needed, desc).best
    requires b in SelectTop(w, needed, desc).best
    ensures Precedes(b, e, desc)
  {
    var sorted := Sort(w, desc);
    var best := SelectTop(w, needed, desc).best;
    SortOrdered(w, desc);
    assert best == sorted[..|best|];
    assert e in multiset(sorted);
    var j :| 0 <= j < |sorted| && sorted[j] == e;
    var i :| 0 <= i < |best| && best[i] == b;
    assert forall jj :: 0 <= jj < |best| ==> sorted[jj] == best[jj] && best[jj] in best;
    assert j >= |best|;
    assert sorted[i] == b;
  }

  /**
   * When the current period opens the window, it is selected exactly when
   * fewer periods than needed rank strictly ahead of its price, and its
   * rank is one more than that count.
   */
  lemma SelectTopCurrentPresent(w: seq<Period>, needed: int, desc: bool)
    requires needed >= 1
    requires IncreasingIndices(w)
    requires |w| > 0 && w[0].index == 0
    ensures SelectTop(w, needed, desc).currentIsGood <==> CountBeats(w, w[0].price, desc) < needed
    ensures SelectTop(w, needed, desc).currentRank == Some(1 + CountBeats(w, w[0].price, desc))
  {
    var sorted := Sort(w, desc);
    var k := MinInt(needed, |sorted|);
    var o := SelectTop(w, needed, desc);
    var c := CountBeats(w[1..], w[0].price, desc);
    assert o.best == sorted[..k] && o.currentIsGood == HasIndex(sorted[..k], 0) && o.currentRank == RankOfCurrent(sorted);
    assert CountBeats(w, w[0].price, desc) == c;
    assert FirstPos(sorted, 0) == Some(c) by {
      FirstLandsAfterItsBetters(w, desc);
    }
    assert HasIndex(sorted[..k], 0) <==> c < k by {
      PrefixHasIndex(sorted, k, 0);
    }
  }

  /**
   * The standing of the current period (price v) in selection o over
   * window w: it is selected exactly when it is in the window and fewer
   * than the needed number of window periods rank strictly ahead of v; its
   * 1-based rank is one more than that count, and it has no rank when it
   * is not in the window.
   */
  predicate CurrentStanding(o: Selection, w: seq<Period>, v: real, desc: bool, inside: bool)
  {
    (o.currentIsGood <==> inside && CountBeats(w, v, desc) < o.periodsNeeded) &&
    o.currentRank == (if inside then Some(1 + CountBeats(w, v, desc)) else None)
  }

  /**
   * Over a window of non-negative, increasing indices, the current
   * period's standing follows from whether it is in the window and the
   * price it carries there.
   */
  lemma SelectTopCurrent(w: seq<Period>, needed: int, desc: bool, inside: bool, v: real)
    requires needed >= 1
    requires IncreasingIndices(w)
    requires forall k :: 0 <= k < |w| ==> w[k].index >= 0
    requires HasIndex(w, 0) <==> inside
    requires forall k :: 0 <= k < |w| && w[k].index == 0 ==> w[k].price == v
    ensures CurrentStanding(SelectTop(w, needed, desc), w, v, desc, inside)
  {
    if inside {
      ZeroIndexLeads(w);
      SelectTopCurrentPresent(w, needed, desc);
    } else {
      SelectTopCurrentAbsent(w, needed, desc);
    }
  }

  /** When the current period is not in the window it is neither selected nor ranked. */
  lemma SelectTopCurrentAbsent(w: seq<Period>, needed: int, desc: bool)
    requires needed >= 1
    requires !HasIndex(w, 0)
    ensures !SelectTop(w, needed, desc).currentIsGood
    ensures SelectTop(w, needed, desc).currentRank.None?
  {
    var sorted := Sort(w, desc);
    var k := MinInt(needed, |sorted|);
    HasIndexSort(w, desc, 0);
    PrefixHasIndex(sorted, k, 0);
    assert SelectTop(w, needed, desc).best == sorted[..k];
  }
}
