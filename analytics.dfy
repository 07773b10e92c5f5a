/** The analytics dashboard (`Analytics`): the date and cage filters over
    the loaded logs, the KPI figures, the cage performance table, the
    feed-efficiency points, and the ordered insight rules. The figures of
    the `Calculations` module are parameters. */
module Analytics {
  import opened Common
  import opened Numbers
  import opened Records
  import opened Dates
  import opened Sorting

  /** `Calculations.calculateLayingPercentage(eggs, birds, days)` and
      `Calculations.calculateFeedEfficiency(eggs, feed)`. */
  datatype Calculations = Calculations(
    layingPercentage: (real, real, real) -> real,
    feedEfficiency: (real, real) -> real)

  // ---------------------------------------------------------------- sums over the loaded records

  /** `log.eggsCollected || 0`. */
  function EggsOf(e: Entry<ProductionLog>): real
  {
    RealOr(e.value.eggsCollected, 0.0)
  }

  /** `log.amount || 0`. */
  function FeedOf(e: Entry<FeedLog>): real
  {
    RealOr(e.value.amount, 0.0)
  }

  /** `cage.currentBirds || 0`. */
  function BirdsOf(e: Entry<Cage>): int
  {
    IntOr(e.value.currentBirds, 0)
  }

  function TotalEggs(logs: seq<Entry<ProductionLog>>): real { Sum(logs, EggsOf) }

  function TotalFeed(logs: seq<Entry<FeedLog>>): real { Sum(logs, FeedOf) }

  function TotalBirds(cages: seq<Entry<Cage>>): int { SumInt(cages, BirdsOf) }

  /** `birds > 0 ? calculateLayingPercentage(eggs, birds, days || 1) : 0`. */
  function LayingRate(figures: Calculations, eggs: real, birds: int, days: nat): (r: real)
    ensures birds <= 0 ==> r == 0.0
    ensures birds > 0 ==> r == figures.layingPercentage(eggs, birds as real, if days == 0 then 1.0 else days as real)
  {
    if birds > 0 then figures.layingPercentage(eggs, birds as real, if days == 0 then 1.0 else days as real) else 0.0
  }

  // ---------------------------------------------------------------- filters

  /** The cutoff of a date range of `days` days before `now`: `NaN` when
      `days` is not a number. */
  function Cutoff(now: int, days: string): (r: Option<int>)
    ensures r.Some? <==> ParseInt(days).Some?
    ensures r.Some? ==> r.value == now - ParseInt(days).value * MsPerDay
  {
    match ParseInt(days)
    case None => None
    case Some(d) => Some(now - d * MsPerDay)
  }

  /** `new Date(date) >= cutoffDate`: false for a missing or invalid date or cutoff. */
  predicate NotBefore(date: Option<string>, cutoff: Option<int>, timeOf: TimeOf)
  {
    date.Some? && timeOf(date.value).Some? && cutoff.Some? && timeOf(date.value).value >= cutoff.value
  }

  /** The date range filter: `new Date(log.date) >= cutoffDate`. */
  predicate InRange(date: Option<string>, dateRange: string, now: int, timeOf: TimeOf)
  {
    NotBefore(date, Cutoff(now, dateRange), timeOf)
  }

  /** The cage filter: `log.cageId === parseInt(this.currentFilter)`. */
  predicate OfCage(cageId: int, cageFilter: string)
  {
    ParseInt(cageFilter).Some? && cageId == ParseInt(cageFilter).value
  }

  /** Whether a production log passes the date range and cage filters. */
  predicate LogShown(e: Entry<ProductionLog>, dateRange: string, cageFilter: string, now: int, timeOf: TimeOf)
  {
    && (dateRange == "all" || InRange(e.value.date, dateRange, now, timeOf))
    && (cageFilter == "all" || OfCage(e.value.cageId, cageFilter))
  }

  /** Whether a feed log passes the filters; a feed log without a cage never
      matches a cage filter. */
  predicate FeedShown(e: Entry<FeedLog>, dateRange: string, cageFilter: string, now: int, timeOf: TimeOf)
  {
    && (dateRange == "all" || InRange(e.value.date, dateRange, now, timeOf))
    && (cageFilter == "all" || (e.value.cageId.Some? && OfCage(e.value.cageId.value, cageFilter)))
  }

  /** `getFilteredLogs()`: the logs within the date range and of the chosen
      cage, in their order. */
  function FilteredLogs(logs: seq<Entry<ProductionLog>>, dateRange: string, cageFilter: string, now: int,
                        timeOf: TimeOf): (r: seq<Entry<ProductionLog>>)
    ensures IsSubsequence(r, logs)
    ensures forall i :: 0 <= i < |r| ==> LogShown(r[i], dateRange, cageFilter, now, timeOf)
    ensures forall i :: 0 <= i < |logs| && LogShown(logs[i], dateRange, cageFilter, now, timeOf) ==> logs[i] in r
    ensures dateRange == "all" && cageFilter == "all" ==> r == logs
  {
    var shown := (e: Entry<ProductionLog>) => LogShown(e, dateRange, cageFilter, now, timeOf);
    FilterIsSubsequence(logs, shown);
    if dateRange == "all" && cageFilter == "all" then
      FilterKeepsAll(logs, shown);
      Filter(logs, shown)
    else Filter(logs, shown)
  }

  /** `getFilteredFeedLogs()`: the same filters on the feed logs. */
  function FilteredFeedLogs(logs: seq<Entry<FeedLog>>, dateRange: string, cageFilter: string, now: int,
                            timeOf: TimeOf): (r: seq<Entry<FeedLog>>)
    ensures IsSubsequence(r, logs)
    ensures forall i :: 0 <= i < |r| ==> FeedShown(r[i], dateRange, cageFilter, now, timeOf)
    ensures forall i :: 0 <= i < |logs| && FeedShown(logs[i], dateRange, cageFilter, now, timeOf) ==> logs[i] in r
    ensures dateRange == "all" && cageFilter == "all" ==> r == logs
  {
    var shown := (e: Entry<FeedLog>) => FeedShown(e, dateRange, cageFilter, now, timeOf);
    FilterIsSubsequence(logs, shown);
    if dateRange == "all" && cageFilter == "all" then
      FilterKeepsAll(logs, shown);
      Filter(logs, shown)
    else Filter(logs, shown)
  }

  // ---------------------------------------------------------------- KPIs

  /** The KPI cards. */
  datatype Kpis = Kpis(totalProduction: real, avgLayingRate: real, feedEfficiency: real, avgEggWeight: real)

  /** A log that records an egg weight: `log.avgEggWeight > 0`. */
  predicate Weighed(e: Entry<ProductionLog>)
  {
    e.value.avgEggWeight.Some? && e.value.avgEggWeight.value > 0.0
  }

  function WeightOf(e: Entry<ProductionLog>): real
  {
    if e.value.avgEggWeight.Some? then e.value.avgEggWeight.value else 0.0
  }

  /** `productionLogs.filter(log => log.avgEggWeight > 0)`. */
  function WeighedLogs(logs: seq<Entry<ProductionLog>>): (r: seq<Entry<ProductionLog>>)
    ensures forall i :: 0 <= i < |r| ==> Weighed(r[i]) && r[i] in logs
    ensures forall i :: 0 <= i < |logs| && Weighed(logs[i]) ==> logs[i] in r
  {
    Filter(logs, Weighed)
  }

  /** The mean egg weight of the weighed logs, or 0 when none is weighed. */
  function AvgEggWeight(logs: seq<Entry<ProductionLog>>): (r: real)
    ensures |WeighedLogs(logs)| == 0 ==> r == 0.0
    ensures |WeighedLogs(logs)| > 0 ==> r * (|WeighedLogs(logs)| as real) == Sum(WeighedLogs(logs), WeightOf)
  {
    var w := WeighedLogs(logs);
    MeanOfCount(Sum(w, WeightOf), |w|);
    Ratio(Sum(w, WeightOf), |w| as real)
  }

  /** A sum of terms within `[lo, hi]` lies within `n` times that range. */
  lemma {:induction false} SumWithin(s: seq<Entry<ProductionLog>>, lo: real, hi: real)
    requires forall i :: 0 <= i < |s| ==> lo <= WeightOf(s[i]) <= hi
    ensures (|s| as real) * lo <= Sum(s, WeightOf) <= (|s| as real) * hi
  {
    if |s| > 0 {
      SumWithin(s[1..], lo, hi);
    }
  }

  /** The mean of weights within `[lo, hi]` lies within it. */
  lemma MeanWithin(s: seq<Entry<ProductionLog>>, lo: real, hi: real)
    requires |s| > 0
    requires forall i :: 0 <= i < |s| ==> lo <= WeightOf(s[i]) <= hi
    ensures lo <= Ratio(Sum(s, WeightOf), |s| as real) <= hi
  {
    SumWithin(s, lo, hi);
    RatioWithin(Sum(s, WeightOf), |s| as real, lo, hi);
  }

  /** The mean egg weight lies between the least and the greatest weight recorded. */
  lemma AvgEggWeightWithin(logs: seq<Entry<ProductionLog>>, lo: real, hi: real)
    requires exists i :: 0 <= i < |logs| && Weighed(logs[i])
    requires forall i :: 0 <= i < |logs| && Weighed(logs[i]) ==> lo <= WeightOf(logs[i]) <= hi
    ensures lo <= AvgEggWeight(logs) <= hi
  {
    var w := WeighedLogs(logs);
    var i :| 0 <= i < |logs| && Weighed(logs[i]);
    assert logs[i] in w;
    forall k | 0 <= k < |w| ensures lo <= WeightOf(w[k]) <= hi {
      assert w[k] in logs;
    }
    MeanWithin(w, lo, hi);
  }

  /** `loadKPIs` over the filtered logs and the loaded cages. */
  function LoadKpis(filteredLogs: seq<Entry<ProductionLog>>, filteredFeeds: seq<Entry<FeedLog>>, cages: seq<Entry<Cage>>,
                    figures: Calculations): (r: Kpis)
    ensures r.totalProduction == TotalEggs(filteredLogs)
    ensures r.avgLayingRate == LayingRate(figures, r.totalProduction, TotalBirds(cages), |filteredLogs|)
    ensures r.feedEfficiency == figures.feedEfficiency(r.totalProduction, TotalFeed(filteredFeeds))
    ensures r.avgEggWeight == AvgEggWeight(filteredLogs)
  {
    var production := TotalEggs(filteredLogs);
    Kpis(production, LayingRate(figures, production, TotalBirds(cages), |filteredLogs|),
         figures.feedEfficiency(production, TotalFeed(filteredFeeds)), AvgEggWeight(filteredLogs))
  }

  // ---------------------------------------------------------------- efficiency points

  /** The feed given with a log: the amount of the first feed log of the
      same date and cage (two missing dates count as the same), or 0. */
  function FeedAmountFor(log: Entry<ProductionLog>, feedLogs: seq<Entry<FeedLog>>): (r: real)
    ensures (forall k :: 0 <= k < |feedLogs| ==> !SameDayAndCage(feedLogs[k], log)) ==> r == 0.0
    ensures forall k :: (0 <= k < |feedLogs| && SameDayAndCage(feedLogs[k], log) &&
                         (forall j :: 0 <= j < k ==> !SameDayAndCage(feedLogs[j], log))) ==> r == FeedOf(feedLogs[k])
  {
    match FindIndex(feedLogs, (f: Entry<FeedLog>) => SameDayAndCage(f, log))
    case Some(k) => FeedOf(feedLogs[k])
    case None => 0.0
  }

  /** `f.date === log.date && f.cageId === log.cageId`. */
  predicate SameDayAndCage(f: Entry<FeedLog>, log: Entry<ProductionLog>)
  {
    f.value.date == log.value.date && f.value.cageId == Some(log.value.cageId)
  }

  /** `s.slice(-n)`: the last `n` elements, or all of them when fewer. */
  function Last<T>(s: seq<T>, n: nat): (r: seq<T>)
    ensures |r| == Min(n, |s|) && r == s[|s| - |r|..]
  {
    if |s| <= n then s else s[|s| - n..]
  }

  /** `loadEfficiencyChart`'s daily points: for each of the last 30 filtered
      logs, the feed efficiency of its eggs against the feed given that day. */
  function EfficiencyPoints(filteredLogs: seq<Entry<ProductionLog>>, feedLogs: seq<Entry<FeedLog>>, figures: Calculations): (r: seq<real>)
    ensures |r| == Min(30, |filteredLogs|)
    ensures forall i :: 0 <= i < |r| ==>
      r[i] == figures.feedEfficiency(EggsOf(filteredLogs[|filteredLogs| - |r| + i]),
                                  FeedAmountFor(filteredLogs[|filteredLogs| - |r| + i], feedLogs))
  {
    var recent := Last(filteredLogs, 30);
    seq(|recent|, i requires 0 <= i < |recent| => figures.feedEfficiency(EggsOf(recent[i]), FeedAmountFor(recent[i], feedLogs)))
  }

  // ---------------------------------------------------------------- performance table

  /** A row of the performance table. */
  datatype CageStat = CageStat(cage: Entry<Cage>, totalEggs: real, layingRate: real, feedEfficiency: real,
                               performanceScore: real)

  function Score(s: CageStat): real { s.performanceScore }

  /** `layingRate * 0.6 + (feedEfficiency * 10) * 0.4`. */
  function PerformanceScore(layingRate: real, feedEfficiency: real): real
  {
    layingRate * 0.6 + (feedEfficiency * 10.0) * 0.4
  }

  /** The statistics of one cage over its own logs. */
  function CageStatOf(cage: Entry<Cage>, logs: seq<Entry<ProductionLog>>, feedLogs: seq<Entry<FeedLog>>,
                      figures: Calculations): (r: CageStat)
    ensures r.cage == cage
    ensures r.totalEggs == TotalEggs(Filter(logs, (e: Entry<ProductionLog>) => e.value.cageId == cage.id))
    ensures r.performanceScore == PerformanceScore(r.layingRate, r.feedEfficiency)
  {
    var cageLogs := Filter(logs, (e: Entry<ProductionLog>) => e.value.cageId == cage.id);
    var cageFeeds := Filter(feedLogs, (e: Entry<FeedLog>) => e.value.cageId == Some(cage.id));
    var eggs := TotalEggs(cageLogs);
    var layingRate := LayingRate(figures, eggs, BirdsOf(cage), |cageLogs|);
    var efficiency := figures.feedEfficiency(eggs, TotalFeed(cageFeeds));
    CageStat(cage, eggs, layingRate, efficiency, PerformanceScore(layingRate, efficiency))
  }

  /** `this.cages.map(...)`: one row per loaded cage, in their order. */
  function CageStats(cages: seq<Entry<Cage>>, logs: seq<Entry<ProductionLog>>, feedLogs: seq<Entry<FeedLog>>,
                     figures: Calculations): (r: seq<CageStat>)
    ensures |r| == |cages| && forall i :: 0 <= i < |cages| ==> r[i] == CageStatOf(cages[i], logs, feedLogs, figures)
  {
    seq(|cages|, i requires 0 <= i < |cages| => CageStatOf(cages[i], logs, feedLogs, figures))
  }

  /** A reordering of the rows has one row for each loaded cage and no other. */
  lemma PerformanceTableRows(table: seq<CageStat>, cages: seq<Entry<Cage>>, logs: seq<Entry<ProductionLog>>,
                             feedLogs: seq<Entry<FeedLog>>, figures: Calculations)
    requires multiset(table) == multiset(CageStats(cages, logs, feedLogs, figures))
    ensures |table| == |cages|
    ensures forall i :: 0 <= i < |table| ==> exists j :: 0 <= j < |cages| && table[i] == CageStatOf(cages[j], logs, feedLogs, figures)
    ensures forall j :: 0 <= j < |cages| ==> CageStatOf(cages[j], logs, feedLogs, figures) in table
  {
    var stats := CageStats(cages, logs, feedLogs, figures);
    assert |table| == |multiset(table)| == |multiset(stats)| == |stats|;
    forall i | 0 <= i < |table| ensures exists j :: 0 <= j < |cages| && table[i] == CageStatOf(cages[j], logs, feedLogs, figures) {
      assert table[i] in multiset(stats);
      var j :| 0 <= j < |stats| && stats[j] == table[i];
    }
    forall j | 0 <= j < |cages| ensures CageStatOf(cages[j], logs, feedLogs, figures) in table {
      assert stats[j] in multiset(table);
    }
  }

  // ---------------------------------------------------------------- insights

  /** The insights `generateInsights` can produce. */
  datatype Insight = Excellent | BelowAverage | FeedAlert | Increasing | Declining
  {
    /** The alert class. */
    function Type(): string
    {
      match this
      case Excellent => "success"
      case BelowAverage => "warning"
      case FeedAlert => "info"
      case Increasing => "success"
      case Declining => "warning"
    }

    function Icon(): string
    {
      match this
      case Excellent => "fa-thumbs-up"
      case BelowAverage => "fa-exclamation-triangle"
      case FeedAlert => "fa-info-circle"
      case Increasing => "fa-trending-up"
      case Declining => "fa-trending-down"
    }

    function Title(): string
    {
      match this
      case Excellent => "Excellent Performance"
      case BelowAverage => "Below Average Performance"
      case FeedAlert => "Feed Efficiency Alert"
      case Increasing => "Production Increasing"
      case Declining => "Production Declining"
    }

    function Description(): string
    {
      match this
      case Excellent => "Your laying rate is above 85%, indicating excellent flock health and management."
      case BelowAverage => "Consider reviewing feeding schedules, health management, or environmental conditions."
      case FeedAlert => "Feed conversion ratio could be improved. Consider adjusting feed quality or quantity."
      case Increasing => "Production has increased by more than 10% compared to the previous week."
      case Declining => "Production has decreased by more than 10% compared to the previous week."
    }

    /** The rule that produces it: performance, feed, then trend. */
    function Rule(): nat
    {
      match this
      case Excellent => 0
      case BelowAverage => 0
      case FeedAlert => 1
      case Increasing => 2
      case Declining => 2
    }
  }

  /** `productionLogs.slice(-7)`. */
  function RecentWeek(logs: seq<Entry<ProductionLog>>): seq<Entry<ProductionLog>>
  {
    Last(logs, 7)
  }

  /** `productionLogs.slice(-14, -7)`. */
  function PreviousWeek(logs: seq<Entry<ProductionLog>>): (r: seq<Entry<ProductionLog>>)
    ensures |logs| <= 7 ==> r == []
    ensures |logs| > 7 ==> |r| == Min(7, |logs| - 7)
  {
    if |logs| <= 7 then [] else logs[Max(0, |logs| - 14)..|logs| - 7]
  }

  /** The mean eggs per log of a non-empty window. */
  function MeanEggs(logs: seq<Entry<ProductionLog>>): real
    requires |logs| > 0
  {
    TotalEggs(logs) / (|logs| as real)
  }

  /** The performance rule: above 85% is excellent, else below 60% is below average. */
  function PerformanceInsight(rate: real): (r: seq<Insight>)
    ensures Excellent in r <==> rate > 85.0
    ensures BelowAverage in r <==> rate < 60.0
    ensures |r| <= 1 && forall i :: 0 <= i < |r| ==> r[i].Rule() == 0
  {
    if rate > 85.0 then [Excellent] else if rate < 60.0 then [BelowAverage] else []
  }

  /** The feed rule: an alert below an efficiency of 0.5. */
  function FeedInsight(efficiency: real): (r: seq<Insight>)
    ensures FeedAlert in r <==> efficiency < 0.5
    ensures |r| <= 1 && forall i :: 0 <= i < |r| ==> r[i].Rule() == 1
  {
    if efficiency < 0.5 then [FeedAlert] else []
  }

  /** The trend rule: when both weeks have logs, more than 10% up is
      increasing, else more than 10% down is declining. */
  function TrendInsight(logs: seq<Entry<ProductionLog>>): (r: seq<Insight>)
    ensures |r| <= 1 && forall i :: 0 <= i < |r| ==> r[i].Rule() == 2
    ensures |logs| < 8 ==> r == []
    ensures |logs| >= 8 ==>
      && (Increasing in r <==> MeanEggs(RecentWeek(logs)) > MeanEggs(PreviousWeek(logs)) * 1.1)
      && (Declining in r <==>
            !(MeanEggs(RecentWeek(logs)) > MeanEggs(PreviousWeek(logs)) * 1.1)
            && MeanEggs(RecentWeek(logs)) < MeanEggs(PreviousWeek(logs)) * 0.9)
  {
    var recent := RecentWeek(logs);
    var previous := PreviousWeek(logs);
    if |recent| > 0 && |previous| > 0 then
      var recentAvg := MeanEggs(recent);
      var previousAvg := MeanEggs(previous);
      if recentAvg > previousAvg * 1.1 then [Increasing]
      else if recentAvg < previousAvg * 0.9 then [Declining]
      else []
    else []
  }

  /** The overall laying rate the insights use, over all loaded logs and cages. */
  function OverallLayingRate(logs: seq<Entry<ProductionLog>>, cages: seq<Entry<Cage>>, figures: Calculations): real
  {
    LayingRate(figures, TotalEggs(logs), TotalBirds(cages), |logs|)
  }

  /** `generateInsights()`: the rules in order. At most three can fire, so
      the cut to four insights never drops one. */
  function Insights(logs: seq<Entry<ProductionLog>>, cages: seq<Entry<Cage>>, feedLogs: seq<Entry<FeedLog>>,
                    figures: Calculations): (r: seq<Insight>)
    ensures |r| <= 3
  {
    PerformanceInsight(OverallLayingRate(logs, cages, figures))
      + FeedInsight(figures.feedEfficiency(TotalEggs(logs), TotalFeed(feedLogs)))
      + TrendInsight(logs)
  }

  /** The insights come rule by rule: performance, then feed, then trend;
      excellent and below average never come together. */
  lemma InsightsInRuleOrder(logs: seq<Entry<ProductionLog>>, cages: seq<Entry<Cage>>, feedLogs: seq<Entry<FeedLog>>,
                            figures: Calculations)
    ensures var r := Insights(logs, cages, feedLogs, figures);
      && (forall i, j :: 0 <= i < j < |r| ==> r[i].Rule() < r[j].Rule())
      && !(Excellent in r && BelowAverage in r)
  {
    var p := PerformanceInsight(OverallLayingRate(logs, cages, figures));
    var f := FeedInsight(figures.feedEfficiency(TotalEggs(logs), TotalFeed(feedLogs)));
    var t := TrendInsight(logs);
    var r := Insights(logs, cages, feedLogs, figures);
    forall i, j | 0 <= i < j < |r| ensures r[i].Rule() < r[j].Rule() {
      assert r[i].Rule() == (if i < |p| then 0 else if i < |p| + |f| then 1 else 2);
      assert r[j].Rule() == (if j < |p| then 0 else if j < |p| + |f| then 1 else 2);
    }
    assert Excellent in r ==> Excellent in p;
    assert BelowAverage in r ==> BelowAverage in p;
  }

  /** Which insight is there, rule by rule. */
  lemma InsightsPresent(logs: seq<Entry<ProductionLog>>, cages: seq<Entry<Cage>>, feedLogs: seq<Entry<FeedLog>>,
                        figures: Calculations)
    ensures var r := Insights(logs, cages, feedLogs, figures);
      var rate := OverallLayingRate(logs, cages, figures);
      && (Excellent in r <==> rate > 85.0)
      && (BelowAverage in r <==> rate < 60.0)
      && (FeedAlert in r <==> figures.feedEfficiency(TotalEggs(logs), TotalFeed(feedLogs)) < 0.5)
      && (Increasing in r <==> Increasing in TrendInsight(logs))
      && (Declining in r <==> Declining in TrendInsight(logs))
  {
    var p := PerformanceInsight(OverallLayingRate(logs, cages, figures));
    var f := FeedInsight(figures.feedEfficiency(TotalEggs(logs), TotalFeed(feedLogs)));
    var t := TrendInsight(logs);
    assert Insights(logs, cages, feedLogs, figures) == p + f + t;
    InThree(p, f, t, Excellent);
    InThree(p, f, t, BelowAverage);
    InThree(p, f, t, FeedAlert);
    InThree(p, f, t, Increasing);
    InThree(p, f, t, Declining);
  }

  lemma InThree(p: seq<Insight>, f: seq<Insight>, t: seq<Insight>, x: Insight)
    ensures x in p + f + t <==> x in p || x in f || x in t
  {
  }

  /** With no birds in the loaded cages (in particular with no data) the
      insights are not empty: the first one is "Below Average Performance". */
  lemma NoBirdsBelowAverage(logs: seq<Entry<ProductionLog>>, cages: seq<Entry<Cage>>, feedLogs: seq<Entry<FeedLog>>,
                            figures: Calculations)
    requires TotalBirds(cages) <= 0
    ensures var r := Insights(logs, cages, feedLogs, figures);
      |r| >= 1 && r[0] == BelowAverage
  {
  }

  // ---------------------------------------------------------------- the component

  /** The dashboard's state: the loaded records and the two filters. */
  class Dashboard {
    var cycle: Option<Cycle>
    var cages: seq<Entry<Cage>>
    var productionLogs: seq<Entry<ProductionLog>>
    var feedLogs: seq<Entry<FeedLog>>
    var currentFilter: string
    var dateRange: string

    constructor ()
      ensures cycle.None? && cages == [] && productionLogs == [] && feedLogs == []
      ensures currentFilter == "all" && dateRange == "30"
    {
      cycle, cages, productionLogs, feedLogs := None, [], [], [];
      currentFilter, dateRange := "all", "30";
    }

    /** `updateDateRange(days)`. */
    method UpdateDateRange(days: string)
      modifies this
      ensures dateRange == days && currentFilter == old(currentFilter)
      ensures cycle == old(cycle) && cages == old(cages) && productionLogs == old(productionLogs) && feedLogs == old(feedLogs)
    {
      dateRange := days;
    }

    /** `updateCageFilter(cageId)`. */
    method UpdateCageFilter(cageId: string)
      modifies this
      ensures currentFilter == cageId && dateRange == old(dateRange)
      ensures cycle == old(cycle) && cages == old(cages) && productionLogs == old(productionLogs) && feedLogs == old(feedLogs)
    {
      currentFilter := cageId;
    }

    /** `getFilteredLogs()`: a copy of the loaded logs, narrowed by date and then by cage. */
    method GetFilteredLogs(now: int, timeOf: TimeOf) returns (logs: seq<Entry<ProductionLog>>)
      ensures logs == FilteredLogs(productionLogs, dateRange, currentFilter, now, timeOf)
    {
      var range, cage := dateRange, currentFilter;
      var byDate := (e: Entry<ProductionLog>) => InRange(e.value.date, range, now, timeOf);
      var byCage := (e: Entry<ProductionLog>) => OfCage(e.value.cageId, cage);
      var shown := (e: Entry<ProductionLog>) => LogShown(e, range, cage, now, timeOf);
      logs := productionLogs;
      if range != "all" {
        logs := Filter(logs, byDate);
      }
      if cage != "all" {
        logs := Filter(logs, byCage);
      }
      if range != "all" && cage != "all" {
        FilterTwice(productionLogs, byDate, byCage, shown);
      } else if range != "all" {
        FilterAgrees(productionLogs, byDate, shown);
      } else if cage != "all" {
        FilterAgrees(productionLogs, byCage, shown);
      }
    }

    /** `getFilteredFeedLogs()`: the same two steps on the feed logs. */
    method GetFilteredFeedLogs(now: int, timeOf: TimeOf) returns (logs: seq<Entry<FeedLog>>)
      ensures logs == FilteredFeedLogs(feedLogs, dateRange, currentFilter, now, timeOf)
    {
      var range, cage := dateRange, currentFilter;
      var byDate := (e: Entry<FeedLog>) => InRange(e.value.date, range, now, timeOf);
      var byCage := (e: Entry<FeedLog>) => e.value.cageId.Some? && OfCage(e.value.cageId.value, cage);
      var shown := (e: Entry<FeedLog>) => FeedShown(e, range, cage, now, timeOf);
      logs := feedLogs;
      if range != "all" {
        logs := Filter(logs, byDate);
      }
      if cage != "all" {
        logs := Filter(logs, byCage);
      }
      if range != "all" && cage != "all" {
        FilterTwice(feedLogs, byDate, byCage, shown);
      } else if range != "all" {
        FilterAgrees(feedLogs, byDate, shown);
      } else if cage != "all" {
        FilterAgrees(feedLogs, byCage, shown);
      }
    }

    /** `generateInsights()`: each rule pushes at most one insight. */
    method GenerateInsights(figures: Calculations) returns (insights: seq<Insight>)
      ensures insights == Insights(productionLogs, cages, feedLogs, figures)
    {
      insights := [];
      var totalProduction := TotalEggs(productionLogs);
      var totalBirds := TotalBirds(cages);
      var avgLayingRate := LayingRate(figures, totalProduction, totalBirds, |productionLogs|);
      if avgLayingRate > 85.0 {
        insights := insights + [Excellent];
      } else if avgLayingRate < 60.0 {
        insights := insights + [BelowAverage];
      }
      ghost var performance := PerformanceInsight(OverallLayingRate(productionLogs, cages, figures));
      assert insights == performance;
      var feedEfficiency := figures.feedEfficiency(totalProduction, TotalFeed(feedLogs));
      if feedEfficiency < 0.5 {
        insights := insights + [FeedAlert];
      }
      assert insights == performance + FeedInsight(feedEfficiency);
      var recent := RecentWeek(productionLogs);
      var previous := PreviousWeek(productionLogs);
      if |recent| > 0 && |previous| > 0 {
        var recentAvg := MeanEggs(recent);
        var previousAvg := MeanEggs(previous);
        if recentAvg > previousAvg * 1.1 {
          insights := insights + [Increasing];
        } else if recentAvg < previousAvg * 0.9 {
          insights := insights + [Declining];
        }
      }
    }

    /** `loadPerformanceTable()`: the cage rows sorted by descending score. */
    method LoadPerformanceTable(figures: Calculations) returns (table: seq<CageStat>)
      ensures multiset(table) == multiset(CageStats(cages, productionLogs, feedLogs, figures))
      ensures SortedDescendingBy(table, Score)
    {
      var stats := CageStats(cages, productionLogs, feedLogs, figures);
      table := SortedCopy(stats, (s: CageStat) => -Score(s));
      NegatedKeyDescending(table, Score);
    }
  }
}
