/**
 * The executive performance dashboard: the health classification of an
 * account manager, the per-region aggregation with its rounded averages, the
 * region option list, the filter, the weakest region, the health
 * distribution and the insight list.
 */
module Dashboard {
  import opened Wrappers
  import opened Text
  import opened Seqs

  // -------------------------------------------------------------- health

  datatype Health = Green | Yellow | Red

  /** The badge tone that goes with a status. */
  datatype Tone = Success | Warning | Danger

  /** `getHealthStatus(profile, freshnessDays)`, status and tone. */
  function HealthStatus(profile: int, freshness: int): (r: (Health, Tone))
    ensures r.0 == Green <==> profile >= 85 && freshness <= 4
    ensures r.0 == Yellow <==> !(profile >= 85 && freshness <= 4) && profile >= 70 && freshness <= 7
    ensures r.0 == Red <==> !(profile >= 70 && freshness <= 7)
    ensures r.1 == ToneOf(r.0)
  {
    if profile >= 85 && freshness <= 4 then (Green, Success)
    else if profile >= 70 && freshness <= 7 then (Yellow, Warning)
    else (Red, Danger)
  }

  function ToneOf(h: Health): Tone {
    match h
    case Green => Success
    case Yellow => Warning
    case Red => Danger
  }

  /** How far a status is from Red. */
  function Rank(h: Health): nat {
    match h
    case Red => 0
    case Yellow => 1
    case Green => 2
  }

  /** A higher profile or a fresher record never moves the status towards Red. */
  lemma HealthMonotone(p1: int, f1: int, p2: int, f2: int)
    requires p1 <= p2 && f2 <= f1
    ensures Rank(HealthStatus(p1, f1).0) <= Rank(HealthStatus(p2, f2).0)
  {
  }

  // ---------------------------------------------------------- aggregation

  /** An account manager as the dashboard holds it after loading. */
  datatype DashAm = DashAm(
    id: string, nama: string, witel: string, region: string,
    profile: int, freshness: int, activities: int)

  /** `item.region || 'Unknown'`. */
  function RegionOf(a: DashAm): (r: string)
    ensures r != ""
  {
    if a.region == "" then "Unknown" else a.region
  }

  /** The running totals of one region's bucket. */
  datatype Bucket = Bucket(region: string, count: nat, totalProfile: int, totalActivities: int, totalFreshness: int)

  function Empty(region: string): Bucket {
    Bucket(region, 0, 0, 0, 0)
  }

  /** One item counted into its bucket. */
  function Add(b: Bucket, a: DashAm): Bucket {
    b.(count := b.count + 1,
       totalProfile := b.totalProfile + a.profile,
       totalActivities := b.totalActivities + a.activities,
       totalFreshness := b.totalFreshness + a.freshness)
  }

  /** The bucket of region `r` after every item of the list in which it occurs. */
  function Totals(items: seq<DashAm>, r: string): (b: Bucket)
    ensures b.region == r
  {
    if |items| == 0 then Empty(r)
    else
      var b := Totals(items[..|items| - 1], r);
      if RegionOf(items[|items| - 1]) == r then Add(b, items[|items| - 1]) else b
  }

  /** The region of every item, in list order. */
  function RegionColumn(items: seq<DashAm>): (c: seq<string>)
    ensures |c| == |items| && forall i :: 0 <= i < |items| ==> c[i] == RegionOf(items[i])
  {
    seq(|items|, i requires 0 <= i < |items| => RegionOf(items[i]))
  }

  /** The regions, each once, in the order they are first seen. */
  function BucketRegions(items: seq<DashAm>): seq<string> {
    Dedup(RegionColumn(items))
  }

  lemma RegionColumnSnoc(items: seq<DashAm>, a: DashAm)
    ensures RegionColumn(items + [a]) == RegionColumn(items) + [RegionOf(a)]
  {
  }

  /** A bucket's count is the number of items in its region. */
  lemma {:induction false} TotalsCount(items: seq<DashAm>, r: string)
    ensures Totals(items, r).count == |Filter(RegionColumn(items), (x: string) => x == r)|
  {
    if |items| > 0 {
      var init := items[..|items| - 1];
      TotalsCount(init, r);
      assert items == init + [items[|items| - 1]];
      RegionColumnSnoc(init, items[|items| - 1]);
      FilterAppend(RegionColumn(init), [RegionOf(items[|items| - 1])], (x: string) => x == r);
    }
  }

  /** A region with no item has an empty bucket; a region that occurs has at least one item. */
  lemma {:induction false} TotalsOccurs(items: seq<DashAm>, r: string)
    ensures r in RegionColumn(items) <==> Totals(items, r).count > 0
    ensures r !in RegionColumn(items) ==> Totals(items, r) == Empty(r)
  {
    if |items| > 0 {
      var init := items[..|items| - 1];
      TotalsOccurs(init, r);
      assert items == init + [items[|items| - 1]];
      RegionColumnSnoc(init, items[|items| - 1]);
    }
  }

  /** The sum of the counts of the listed regions' buckets. */
  function CountSum(items: seq<DashAm>, regions: seq<string>): nat {
    if |regions| == 0 then 0 else Totals(items, regions[0]).count + CountSum(items, regions[1..])
  }

  lemma {:induction false} CountSumSnoc(items: seq<DashAm>, a: DashAm, regions: seq<string>)
    requires Distinct(regions)
    ensures CountSum(items + [a], regions) == CountSum(items, regions) + if RegionOf(a) in regions then 1 else 0
  {
    assert (items + [a])[..|items + [a]| - 1] == items;
    if |regions| > 0 {
      CountSumSnoc(items, a, regions[1..]);
      assert regions == [regions[0]] + regions[1..];
    }
  }

  /** The bucket counts add up to the number of items. */
  lemma {:induction false} CountsSumToLength(items: seq<DashAm>)
    ensures CountSum(items, BucketRegions(items)) == |items|
  {
    if |items| > 0 {
      var init := items[..|items| - 1];
      var a := items[|items| - 1];
      assert items == init + [a];
      CountsSumToLength(init);
      var d := BucketRegions(init);
      BucketRegionsSnoc(init, a);
      CountSumSnoc(init, a, d);
      if RegionOf(a) in d {
        assert CountSum(items, d) == |init| + 1;
      } else {
        CountSumTail(items, d, RegionOf(a));
        TotalsOccurs(init, RegionOf(a));
        TotalsSnoc(init, a, RegionOf(a));
      }
    }
  }

  /** One more item adds its region at the end when it is new. */
  lemma BucketRegionsSnoc(init: seq<DashAm>, a: DashAm)
    ensures Distinct(BucketRegions(init))
    ensures BucketRegions(init + [a]) ==
      if RegionOf(a) in BucketRegions(init) then BucketRegions(init) else BucketRegions(init) + [RegionOf(a)]
    ensures RegionOf(a) in BucketRegions(init) <==> RegionOf(a) in RegionColumn(init)
  {
    RegionColumnSnoc(init, a);
    DedupSnoc(RegionColumn(init), RegionOf(a));
    DedupMembers(RegionColumn(init), RegionOf(a));
  }

  /** One more item changes only its own region's bucket. */
  lemma TotalsSnoc(init: seq<DashAm>, a: DashAm, r: string)
    ensures Totals(init + [a], r) == if RegionOf(a) == r then Add(Totals(init, r), a) else Totals(init, r)
  {
    assert (init + [a])[..|init + [a]| - 1] == init;
  }

  lemma {:induction false} CountSumTail(items: seq<DashAm>, regions: seq<string>, r: string)
    ensures CountSum(items, regions + [r]) == CountSum(items, regions) + Totals(items, r).count
  {
    if |regions| > 0 {
      assert (regions + [r])[1..] == regions[1..] + [r];
      CountSumTail(items, regions[1..], r);
    }
  }

  /** `Math.round(total / count)`: the nearest integer, halves rounded up. */
  function RoundedMean(total: int, count: nat): (m: int)
    requires count > 0
    ensures 2 * count * m - count <= 2 * total < 2 * count * m + count
  {
    var q := (2 * total + count) / (2 * count);
    var rem := (2 * total + count) % (2 * count);
    assert 2 * total + count == 2 * count * q + rem;
    q
  }

  /** A region's entry in the regional statistics. */
  datatype RegionStat = RegionStat(bucket: Bucket, avgProfile: int, avgActivities: int)

  function StatOf(b: Bucket): RegionStat
    requires b.count > 0
  {
    RegionStat(b, RoundedMean(b.totalProfile, b.count), RoundedMean(b.totalActivities, b.count))
  }

  /**
   * What `aggregateByRegion` returns, stated without its Map: one entry per
   * region in first-seen order, each holding that region's totals.
   */
  function Aggregate(items: seq<DashAm>): (stats: seq<RegionStat>)
    ensures |stats| == |BucketRegions(items)|
  {
    var regions := BucketRegions(items);
    seq(|regions|, j requires 0 <= j < |regions| =>
      var b := Totals(items, regions[j]);
      if b.count > 0 then StatOf(b) else assert false by { TotalsOccurs(items, regions[j]); } RegionStat(b, 0, 0))
  }

  lemma AggregateAt(items: seq<DashAm>, j: nat)
    requires j < |BucketRegions(items)|
    ensures Totals(items, BucketRegions(items)[j]).count > 0
    ensures Aggregate(items)[j] == StatOf(Totals(items, BucketRegions(items)[j]))
  {
    var r := BucketRegions(items)[j];
    DedupMembers(RegionColumn(items), r);
    TotalsOccurs(items, r);
  }

  /** The Map of `aggregateByRegion` after the items of `done`: its key order and its buckets. */
  ghost predicate Holds(done: seq<DashAm>, order: seq<string>, buckets: map<string, Bucket>) {
    && order == BucketRegions(done)
    && (forall r :: r in buckets <==> r in order)
    && (forall r :: r in buckets ==> buckets[r] == Totals(done, r))
  }

  /** The Map's key order and buckets after one more item. */
  function Counted(state: (seq<string>, map<string, Bucket>), a: DashAm): (seq<string>, map<string, Bucket>) {
    var (order, buckets) := state;
    var region := RegionOf(a);
    var created := if region in buckets then buckets else buckets[region := Empty(region)];
    (if region in buckets then order else order + [region], created[region := Add(created[region], a)])
  }

  /** One item counted into its bucket, the bucket created first when its region is new. */
  lemma HoldsStep(done: seq<DashAm>, a: DashAm, next: seq<DashAm>, order: seq<string>, buckets: map<string, Bucket>)
    requires Holds(done, order, buckets) && next == done + [a]
    ensures Holds(next, Counted((order, buckets), a).0, Counted((order, buckets), a).1)
  {
    var region := RegionOf(a);
    BucketRegionsSnoc(done, a);
    TotalsOccurs(done, region);
    var buckets' := Counted((order, buckets), a).1;
    forall r | r in buckets'
      ensures buckets'[r] == Totals(next, r)
    {
      TotalsSnoc(done, a, r);
    }
  }

  /** The Map after every item of the list. */
  function Fill(items: seq<DashAm>): (seq<string>, map<string, Bucket>) {
    if |items| == 0 then ([], map[]) else Counted(Fill(items[..|items| - 1]), items[|items| - 1])
  }

  /** The filled Map holds each region's totals, its keys in first-seen order. */
  lemma {:induction false} FillHolds(items: seq<DashAm>)
    ensures Holds(items, Fill(items).0, Fill(items).1)
  {
    if |items| > 0 {
      var init := items[..|items| - 1];
      FillHolds(init);
      assert init + [items[|items| - 1]] == items;
      HoldsStep(init, items[|items| - 1], items, Fill(init).0, Fill(init).1);
    }
  }

  /** The `forEach` of `aggregateByRegion`: a Map from region to bucket, filled item by item. */
  method FillBuckets(items: seq<DashAm>) returns (order: seq<string>, buckets: map<string, Bucket>)
    ensures (order, buckets) == Fill(items)
  {
    order := [];
    buckets := map[];
    var i := 0;
    while i < |items|
      invariant 0 <= i <= |items|
      invariant (order, buckets) == Fill(items[..i])
    {
      var a := items[i];
      var region := RegionOf(a);
      if region !in buckets {
        buckets := buckets[region := Empty(region)];
        order := order + [region];
      }
      var b := buckets[region];
      buckets := buckets[region := Add(b, a)];
      assert items[..i + 1][..i] == items[..i];
      i := i + 1;
    }
    assert items[..i] == items;
  }

  /** `aggregateByRegion`: the buckets in insertion order, each with its averages. */
  method AggregateByRegion(items: seq<DashAm>) returns (stats: seq<RegionStat>)
    ensures stats == Aggregate(items)
  {
    var order, buckets := FillBuckets(items);
    FillHolds(items);
    stats := [];
    var j := 0;
    while j < |order|
      invariant 0 <= j <= |order|
      invariant stats == Aggregate(items)[..j]
    {
      AggregateAt(items, j);
      TakeSnoc(Aggregate(items), j);
      stats := stats + [StatOf(buckets[order[j]])];
      j := j + 1;
    }
  }

  /** Each entry holds one region, the regions are distinct, and an entry's count is the number of items in its region. */
  lemma AggregateExact(items: seq<DashAm>, j: nat)
    requires j < |Aggregate(items)|
    ensures Distinct(BucketRegions(items))
    ensures Aggregate(items)[j].bucket.region == BucketRegions(items)[j]
    ensures Aggregate(items)[j].bucket == Totals(items, BucketRegions(items)[j])
    ensures Aggregate(items)[j].bucket.count == |Filter(RegionColumn(items), (x: string) => x == BucketRegions(items)[j])|
    ensures Aggregate(items)[j].bucket.count > 0
  {
    var r := BucketRegions(items)[j];
    TotalsOccurs(items, r);
    TotalsCount(items, r);
  }

  // --------------------------------------------------------- region list

  /** JavaScript's default `sort()` on strings: insertion in code-unit order. */
  function InsertString(s: seq<string>, x: string): (r: seq<string>)
    ensures multiset(r) == multiset(s) + multiset{x}
  {
    if |s| == 0 || !LexLess(s[0], x) then [x] + s
    else
      assert s == [s[0]] + s[1..];
      [s[0]] + InsertString(s[1..], x)
  }

  function SortStrings(s: seq<string>): (r: seq<string>)
    ensures multiset(r) == multiset(s)
  {
    if |s| == 0 then []
    else
      assert s == s[..|s| - 1] + [s[|s| - 1]];
      InsertString(SortStrings(s[..|s| - 1]), s[|s| - 1])
  }

  predicate StrictlyAscending(s: seq<string>) {
    forall i, j :: 0 <= i < j < |s| ==> LexLess(s[i], s[j])
  }

  lemma {:induction false} InsertAscending(s: seq<string>, x: string)
    requires StrictlyAscending(s) && x !in s
    ensures StrictlyAscending(InsertString(s, x))
  {
    var r := InsertString(s, x);
    if |s| == 0 {
    } else if !LexLess(s[0], x) {
      LexLessTotal(s[0], x);
      forall j | 1 <= j < |r|
        ensures LexLess(x, r[j])
      {
        if j > 1 {
          LexLessTransitive(x, s[0], s[j - 1]);
        }
      }
    } else {
      InsertAscending(s[1..], x);
      var t := InsertString(s[1..], x);
      forall j | 0 <= j < |t|
        ensures LexLess(s[0], t[j])
      {
        assert t[j] in multiset(t);
        if t[j] != x {
          var k :| 0 <= k < |s[1..]| && s[1..][k] == t[j];
          assert s[k + 1] == t[j];
        }
      }
    }
  }

  lemma {:induction false} SortAscending(s: seq<string>)
    requires Distinct(s)
    ensures StrictlyAscending(SortStrings(s))
  {
    if |s| > 0 {
      var init := s[..|s| - 1];
      SortAscending(init);
      var x := s[|s| - 1];
      assert x !in multiset(init);
      assert x !in SortStrings(init) by {
        assert multiset(SortStrings(init)) == multiset(init);
      }
      InsertAscending(SortStrings(init), x);
    }
  }

  const AllRegions := "Semua Indonesia"

  predicate Listable(r: string) { r != "" && r != "Unknown" }

  /** The `region` of every AM, in list order. */
  function RegionValues(ams: seq<DashAm>): (c: seq<string>)
    ensures |c| == |ams| && forall i :: 0 <= i < |ams| ==> c[i] == ams[i].region
  {
    seq(|ams|, i requires 0 <= i < |ams| => ams[i].region)
  }

  /** `REGIONS`: "Semua Indonesia", then the distinct regions other than "" and "Unknown", sorted. */
  function RegionOptions(ams: seq<DashAm>): seq<string> {
    [AllRegions] + SortStrings(Filter(Dedup(RegionValues(ams)), Listable))
  }

  /** The options start with "Semua Indonesia", then list each other region once, in ascending order. */
  lemma RegionOptionsExact(ams: seq<DashAm>, r: string)
    ensures RegionOptions(ams)[0] == AllRegions
    ensures StrictlyAscending(RegionOptions(ams)[1..])
    ensures r in RegionOptions(ams)[1..] <==> Listable(r) && exists i :: 0 <= i < |ams| && ams[i].region == r
  {
    var d := Dedup(RegionValues(ams));
    var f := Filter(d, Listable);
    assert RegionOptions(ams)[1..] == SortStrings(f);
    FilterDistinct(d, Listable);
    SortAscending(f);
    SortMembers(f, r);
    FilterMembers(d, Listable, r);
    DedupMembers(RegionValues(ams), r);
    RegionValuesMembers(ams, r);
  }

  lemma RegionValuesMembers(ams: seq<DashAm>, r: string)
    ensures r in RegionValues(ams) <==> exists i :: 0 <= i < |ams| && ams[i].region == r
  {
    if exists i :: 0 <= i < |ams| && ams[i].region == r {
      var i :| 0 <= i < |ams| && ams[i].region == r;
      assert RegionValues(ams)[i] == r;
    }
  }

  lemma SortMembers(s: seq<string>, r: string)
    ensures r in SortStrings(s) <==> r in s
  {
    assert multiset(SortStrings(s)) == multiset(s);
    assert r in SortStrings(s) <==> r in multiset(SortStrings(s));
  }

  lemma {:induction false} FilterDistinct(s: seq<string>, p: string -> bool)
    requires Distinct(s)
    ensures Distinct(Filter(s, p))
  {
    if |s| > 0 {
      FilterDistinct(s[1..], p);
      FilterMembers(s[1..], p, s[0]);
      assert s[0] !in s[1..];
    }
  }

  // -------------------------------------------------------------- filter

  /** `filteredAMs`: the chosen region unless it is "Semua Indonesia", then the search when it is not blank. */
  function FilterAms(ams: seq<DashAm>, regionFilter: string, search: string): (r: seq<DashAm>)
    ensures |r| <= |ams|
  {
    var byRegion := if regionFilter != AllRegions then Filter(ams, (a: DashAm) => a.region == regionFilter) else ams;
    if Trim(search) != "" then Filter(byRegion, (a: DashAm) => SearchMatches(a, search)) else byRegion
  }

  /** The lower-cased search, untrimmed, inside the name or the witel. */
  predicate SearchMatches(a: DashAm, search: string) {
    Contains(Lower(a.nama), Lower(search)) || (a.witel != "" && Contains(Lower(a.witel), Lower(search)))
  }

  /** An AM is shown iff it is loaded, in the chosen region (if any), and matches a non-blank search. */
  lemma FilterAmsMembers(ams: seq<DashAm>, regionFilter: string, search: string, a: DashAm)
    ensures a in FilterAms(ams, regionFilter, search) <==>
      a in ams
      && (regionFilter == AllRegions || a.region == regionFilter)
      && (Trim(search) == "" || SearchMatches(a, search))
  {
    var byRegion := if regionFilter != AllRegions then Filter(ams, (x: DashAm) => x.region == regionFilter) else ams;
    FilterMembers(ams, (x: DashAm) => x.region == regionFilter, a);
    FilterMembers(byRegion, (x: DashAm) => SearchMatches(x, search), a);
  }

  /** "Semua Indonesia" with a blank search shows every AM. */
  lemma NoFilterKeepsAll(ams: seq<DashAm>, search: string)
    requires Trim(search) == ""
    ensures FilterAms(ams, AllRegions, search) == ams
  {
  }

  // --------------------------------------------------------- worst region

  /**
   * `worstRegion`: the first entry with the lowest average profile (the
   * sort is stable), or none without entries.
   */
  function WorstRegion(stats: seq<RegionStat>): (w: Option<RegionStat>)
    ensures w.None? <==> |stats| == 0
    ensures w.Some? ==> w.value in stats
    ensures w.Some? ==> forall i :: 0 <= i < |stats| ==> w.value.avgProfile <= stats[i].avgProfile
  {
    if |stats| == 0 then None
    else
      var rest := WorstRegion(stats[1..]);
      if rest.None? || stats[0].avgProfile <= rest.value.avgProfile then Some(stats[0]) else rest
  }

  /** The weakest entry comes before every other entry with the same average. */
  lemma {:induction false} WorstRegionFirst(stats: seq<RegionStat>, i: nat)
    requires i < |stats| && WorstRegion(stats).Some?
    requires stats[i].avgProfile == WorstRegion(stats).value.avgProfile
    ensures exists k :: 0 <= k <= i && stats[k] == WorstRegion(stats).value
  {
    if i > 0 && stats[0].avgProfile != WorstRegion(stats).value.avgProfile {
      WorstRegionFirst(stats[1..], i - 1);
      var k :| 0 <= k <= i - 1 && stats[1..][k] == WorstRegion(stats[1..]).value;
      assert stats[k + 1] == WorstRegion(stats).value;
    }
  }

  // --------------------------------------------------------- distribution

  /** How many AMs of the list have the status. */
  function HealthCount(ams: seq<DashAm>, h: Health): (n: nat)
    ensures n <= |ams|
  {
    if |ams| == 0 then 0
    else (if HealthStatus(ams[0].profile, ams[0].freshness).0 == h then 1 else 0) + HealthCount(ams[1..], h)
  }

  /** The Green, Yellow and Red counts partition the list. */
  lemma {:induction false} HealthPartition(ams: seq<DashAm>)
    ensures HealthCount(ams, Green) + HealthCount(ams, Yellow) + HealthCount(ams, Red) == |ams|
  {
    if |ams| > 0 {
      HealthPartition(ams[1..]);
    }
  }

  // ------------------------------------------------------------ insights

  datatype Insight = Insight(id: string, author: string, text: string, date: string)

  const FirstInsight := Insight("ins-1", "Chief Commercial Officer",
    "Percepat update data untuk wilayah Sumatera Utara.", "2025-01-05")

  /** The insight list and its input box; ids and dates come from the clock and are parameters. */
  class InsightBoard {
    var insights: seq<Insight>
    var input: string

    constructor ()
      ensures insights == [FirstInsight] && input == ""
    {
      insights := [FirstInsight];
      input := "";
    }

    method Type(text: string)
      modifies this
      ensures input == text && insights == old(insights)
    {
      input := text;
    }

    /** `handleAddInsight`: a blank input does nothing; otherwise the trimmed text goes first and the box clears. */
    method AddInsight(id: string, date: string)
      modifies this
      ensures Trim(old(input)) == "" ==> insights == old(insights) && input == old(input)
      ensures Trim(old(input)) != "" ==>
        insights == [Insight(id, "Top-Level Manager", Trim(old(input)), date)] + old(insights) && input == ""
    {
      if Trim(input) == "" {
        return;
      }
      insights := [Insight(id, "Top-Level Manager", Trim(input), date)] + insights;
      input := "";
    }
  }
}
