/** The dashboard's aggregation of a user's performances: a stable sort by
    date, most recent first; the chart series, oldest first; and the list
    of the five most recent sessions. */
module History {
  import IsoDate
  import StableSort

  /** A loaded performance: the stored fields plus the document id. */
  datatype Performance = Performance(id: string, date: string, totalTime: int, stations: map<string, int>)

  /** The date is a real `YYYY-MM-DD` calendar day. Comparing anything else
      through `Date` yields NaN, which the model does not cover. */
  predicate Dated(p: Performance) {
    IsoDate.Parse(p.date).Some?
  }

  predicate AllDated(s: seq<Performance>) {
    forall i :: 0 <= i < |s| ==> Dated(s[i])
  }

  function DateOf(p: Performance): IsoDate.Date
    requires Dated(p)
  {
    IsoDate.Parse(p.date).value
  }

  /** The day number the comparator subtracts; 0 stands in for a date that
      does not parse, which the functions below never meet. */
  function DateKey(p: Performance): int {
    if Dated(p) then IsoDate.DayKey(DateOf(p)) else 0
  }

  lemma PermutationDated(s: seq<Performance>, r: seq<Performance>)
    requires AllDated(s) && multiset(r) == multiset(s)
    ensures AllDated(r)
  {
    forall i | 0 <= i < |r|
      ensures Dated(r[i])
    {
      assert r[i] in multiset(s);
    }
  }

  /** `perfs.sort((a, b) => date(b) - date(a))`: a permutation of the fetched
      performances, most recent first. */
  function SortByDate(s: seq<Performance>): (r: seq<Performance>)
    requires AllDated(s)
    ensures multiset(r) == multiset(s) && |r| == |s|
    ensures AllDated(r)
    ensures forall i, j :: 0 <= i < j < |r| ==> !IsoDate.Before(DateOf(r[i]), DateOf(r[j]))
  {
    var r := StableSort.Sort(s, DateKey);
    PermutationDated(s, r);
    forall i, j | 0 <= i < j < |r|
      ensures !IsoDate.Before(DateOf(r[i]), DateOf(r[j]))
    {
      assert DateKey(r[i]) >= DateKey(r[j]);
      IsoDate.DayKeyOrder(DateOf(r[i]), DateOf(r[j]));
    }
    r
  }

  /** Stability: performances of the same day keep the order in which they
      were fetched. */
  lemma SortIsStable(s: seq<Performance>, d: IsoDate.Date)
    requires AllDated(s) && IsoDate.Valid(d)
    ensures StableSort.WithKey(SortByDate(s), DateKey, IsoDate.DayKey(d))
         == StableSort.WithKey(s, DateKey, IsoDate.DayKey(d))
  {
    StableSort.SortIsStable(s, DateKey, IsoDate.DayKey(d));
  }

  /** Aggregating the same performances twice gives the same order. */
  lemma SortIdempotent(s: seq<Performance>)
    requires AllDated(s)
    ensures SortByDate(SortByDate(s)) == SortByDate(s)
  {
    StableSort.SortIdempotent(s, DateKey);
  }

  /** One chart point: the date (before locale formatting) and the total. */
  datatype ChartPoint = ChartPoint(date: string, totalTime: int)

  /** `performances.slice().reverse().map(...)`. */
  function ChartData(s: seq<Performance>): (c: seq<ChartPoint>)
    ensures |c| == |s|
    ensures forall i :: 0 <= i < |c| ==>
              c[i] == ChartPoint(s[|s| - 1 - i].date, s[|s| - 1 - i].totalTime)
  {
    if s == [] then [] else ChartData(s[1..]) + [ChartPoint(s[0].date, s[0].totalTime)]
  }

  /** No performance of `r` is earlier than one after it. */
  predicate NewestFirst(r: seq<Performance>)
    requires AllDated(r)
  {
    forall i, j :: 0 <= i < j < |r| ==> !IsoDate.Before(DateOf(r[i]), DateOf(r[j]))
  }

  lemma ChartPair(r: seq<Performance>, i: int, j: int)
    requires AllDated(r) && NewestFirst(r) && 0 <= i < j < |r|
    ensures var c := ChartData(r);
            var a := IsoDate.Parse(c[i].date); var b := IsoDate.Parse(c[j].date);
            a.Some? && b.Some? && !IsoDate.Before(b.value, a.value)
  {
    var later, earlier := |r| - 1 - j, |r| - 1 - i;
    assert Dated(r[later]) && Dated(r[earlier]);
    assert !IsoDate.Before(DateOf(r[later]), DateOf(r[earlier]));
  }

  /** Reversing the list also reverses its order: the chart of the sorted
      performances runs oldest first. */
  lemma ChartRunsForward(s: seq<Performance>)
    requires AllDated(s)
    ensures var c := ChartData(SortByDate(s));
            forall i, j :: 0 <= i < j < |c| ==>
              var a := IsoDate.Parse(c[i].date); var b := IsoDate.Parse(c[j].date);
              a.Some? && b.Some? && !IsoDate.Before(b.value, a.value)
  {
    var r := SortByDate(s);
    assert NewestFirst(r);
    var chart := ChartData(r);
    forall i, j | 0 <= i < j < |chart|
      ensures var a := IsoDate.Parse(chart[i].date); var b := IsoDate.Parse(chart[j].date);
              a.Some? && b.Some? && !IsoDate.Before(b.value, a.value)
    {
      ChartPair(r, i, j);
    }
  }

  const RecentCount: nat := 5

  /** `performances.slice(0, 5)`. */
  function Recent(s: seq<Performance>): (r: seq<Performance>)
    ensures |r| == if |s| < RecentCount then |s| else RecentCount
    ensures r == s[..|r|]
  {
    if |s| < RecentCount then s else s[..RecentCount]
  }

  /** The recent list of the sorted performances is a prefix of them, and
      starts with a performance no other one is later than. */
  lemma RecentStartsWithLatest(s: seq<Performance>)
    requires AllDated(s) && s != []
    ensures var r := Recent(SortByDate(s));
            && r != [] && Dated(r[0])
            && forall p :: p in s ==> Dated(p) && !IsoDate.Before(DateOf(r[0]), DateOf(p))
  {
    var sorted := SortByDate(s);
    var r := Recent(sorted);
    forall p | p in s
      ensures Dated(p) && !IsoDate.Before(DateOf(r[0]), DateOf(p))
    {
      assert p in multiset(sorted);
      var i :| 0 <= i < |sorted| && sorted[i] == p;
      assert r[0] == sorted[0];
    }
  }
}
