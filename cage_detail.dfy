/** The cage view (`CageDetail`): the daily production entry, which upserts
    the day's production log and feed log by date and carries the closing
    bird count over to the cage; the recomputation of the cage's running
    totals; and the cage performance figures over the cage's logs. */
module CageDetail {
  import opened Common
  import opened Numbers
  import opened Records
  import opened Store
  import opened Dates
  import opened Sorting

  /** Eggs in one tray. */
  const EggsPerTray: real := 30.0

  /** Age from which a flock counts as laying: 19 weeks. */
  const LayingStartAge: int := 133

  /** The text of the daily entry form's inputs. */
  datatype ProductionForm = ProductionForm(
    date: string,
    flockAge: string,
    openingBirds: string,
    mortality: string,
    birdsSold: string,
    eggsTrays: string,
    currentFeed: string,
    notes: string)

  // ---------------------------------------------------------------- the form's record

  /** `opening - mortality - birdsSold`: `NaN` when the opening count is not a number; not clamped. */
  function ClosingBirds(opening: Option<int>, mortality: int, birdsSold: int): (r: Option<int>)
    ensures r.Some? <==> opening.Some?
    ensures r.Some? ==> r.value + mortality + birdsSold == opening.value
  {
    if opening.Some? then Some(opening.value - mortality - birdsSold) else None
  }

  /** The unclamped count goes below zero when more birds die or are sold than were there. */
  lemma ClosingBirdsNotClamped()
    ensures ClosingBirds(Some(1), 2, 0) == Some(-1)
  {
  }

  /** The record `handleProductionSubmit` builds from the form (its
      `createdAt` is set by the upsert). */
  function FormLog(cage: Entry<Cage>, form: ProductionForm, now: string): (r: ProductionLog)
    ensures r.cageId == cage.id && r.cycleId == cage.value.cycleId && r.date == Some(form.date)
    ensures r.flockAge == ParseInt(form.flockAge) && r.openingBirds == ParseInt(form.openingBirds)
    ensures r.mortality.Some? && r.birdsSold.Some? && r.eggsTrays.Some? && r.currentFeed.Some? && r.eggsCollected.Some?
    ensures r.mortality == Some(IntOr(ParseInt(form.mortality), 0)) && r.birdsSold == Some(IntOr(ParseInt(form.birdsSold), 0))
    ensures ParseInt(form.mortality).None? ==> r.mortality == Some(0)
    ensures ParseInt(form.birdsSold).None? ==> r.birdsSold == Some(0)
    ensures r.closingBirds == ClosingBirds(r.openingBirds, r.mortality.value, r.birdsSold.value)
    ensures r.eggsCollected.value == EggsPerTray * r.eggsTrays.value
    ensures r.updatedAt == Some(now)
  {
    var mortality := IntOr(ParseInt(form.mortality), 0);
    var birdsSold := IntOr(ParseInt(form.birdsSold), 0);
    var trays := ParseFloat(form.eggsTrays);
    TrayEggs(trays);
    ProductionLog(
      cageId := cage.id,
      cycleId := cage.value.cycleId,
      date := Some(form.date),
      flockAge := ParseInt(form.flockAge),
      flockAgeDays := None,
      openingBirds := ParseInt(form.openingBirds),
      mortality := Some(mortality),
      birdsSold := Some(birdsSold),
      eggsTrays := Some(RealOr(trays, 0.0)),
      eggsCollected := Some(if trays.Some? then RealOr(Some(trays.value * EggsPerTray), 0.0) else 0.0),
      eggsProduced := None,
      closingBirds := ClosingBirds(ParseInt(form.openingBirds), mortality, birdsSold),
      currentFeed := Some(RealOr(ParseFloat(form.currentFeed), 0.0)),
      productionPercentage := None,
      avgEggWeight := None,
      notes := form.notes,
      createdAt := "",
      updatedAt := Some(now))
  }

  /** `(trays * 30) || 0` is 30 times `trays || 0`. */
  lemma TrayEggs(trays: Option<real>)
    ensures (if trays.Some? then RealOr(Some(trays.value * EggsPerTray), 0.0) else 0.0) == EggsPerTray * RealOr(trays, 0.0)
  {
    if trays.Some? && trays.value != 0.0 {
      assert trays.value * EggsPerTray != 0.0;
    }
  }

  /** The feed record saved with a day's entry: cost and notes are not part of it. */
  function FormFeedLog(cage: Entry<Cage>, date: string, amount: real, now: string): FeedLog
  {
    FeedLog(Some(cage.id), cage.value.cycleId, Some(date), Some(amount), None, None, "", Some(now))
  }

  // ---------------------------------------------------------------- the upserts

  /** Every loaded record carries a key the store can have assigned. */
  predicate PositiveIds<T>(s: seq<Entry<T>>)
  {
    forall i :: 0 <= i < |s| ==> s[i].id > 0
  }

  /** `this.productionLogs.find(log => log.date === date)`. */
  function LogOn(logs: seq<Entry<ProductionLog>>, date: string): (r: Option<nat>)
    ensures r.Some? ==> r.value < |logs| && logs[r.value].value.date == Some(date)
    ensures r.None? <==> forall k :: 0 <= k < |logs| ==> logs[k].value.date != Some(date)
  {
    FindIndex(logs, (e: Entry<ProductionLog>) => e.value.date == Some(date))
  }

  /** `this.feedLogs.find(log => log.date === date)`. */
  function FeedOn(logs: seq<Entry<FeedLog>>, date: string): (r: Option<nat>)
    ensures r.Some? ==> r.value < |logs| && logs[r.value].value.date == Some(date)
    ensures r.None? <==> forall k :: 0 <= k < |logs| ==> logs[k].value.date != Some(date)
  {
    FindIndex(logs, (e: Entry<FeedLog>) => e.value.date == Some(date))
  }

  /** Saving the day's log: an update of the loaded log of that date, which
      keeps its key and `createdAt`, or else an addition created `now`. */
  function SaveLog(logs: TableState<ProductionLog>, loaded: seq<Entry<ProductionLog>>, log: ProductionLog, date: string,
                   now: string): (r: (TableState<ProductionLog>, Result<nat>))
    requires logs.Valid() && PositiveIds(loaded)
    ensures r.0.Valid()
  {
    match LogOn(loaded, date)
    case Some(i) => logs.Put(loaded[i].id, log.(createdAt := loaded[i].value.createdAt))
    case None => logs.Add(log.(createdAt := now))
  }

  /** Saving the day's feed: the same upsert on the feed logs. */
  function SaveFeed(feedLogs: TableState<FeedLog>, loaded: seq<Entry<FeedLog>>, feed: FeedLog, date: string,
                    now: string): (r: (TableState<FeedLog>, Result<nat>))
    requires feedLogs.Valid() && PositiveIds(loaded)
    ensures r.0.Valid()
  {
    match FeedOn(loaded, date)
    case Some(i) => feedLogs.Put(loaded[i].id, feed.(createdAt := loaded[i].value.createdAt))
    case None => feedLogs.Add(feed.(createdAt := now))
  }

  /** The stores and the view's cage after a submission, and whether every write succeeded. */
  datatype Saved = Saved(
    logs: TableState<ProductionLog>,
    feedLogs: TableState<FeedLog>,
    cages: TableState<Cage>,
    cage: Entry<Cage>,
    ok: bool)

  /** The cage as the submission leaves it: its current birds are the day's closing birds. */
  function CageAfter(cage: Entry<Cage>, log: ProductionLog, now: string): Entry<Cage>
  {
    Entry(cage.id, cage.value.(currentBirds := log.closingBirds, updatedAt := Some(now)))
  }

  /** Saving the day's log `log` dated `date`: the log, then (when it
      records feed) the feed log, then the cage; the first failing write ends it. */
  function SaveEntry(logs: TableState<ProductionLog>, feedLogs: TableState<FeedLog>, cages: TableState<Cage>,
                     cage: Entry<Cage>, loadedLogs: seq<Entry<ProductionLog>>, loadedFeeds: seq<Entry<FeedLog>>,
                     log: ProductionLog, date: string, now: string): (r: Saved)
    requires logs.Valid() && feedLogs.Valid() && cages.Valid()
    requires cage.id > 0 && PositiveIds(loadedLogs) && PositiveIds(loadedFeeds)
    ensures r.logs.Valid() && r.feedLogs.Valid() && r.cages.Valid() && r.cage.id == cage.id
  {
    var step1 := SaveLog(logs, loadedLogs, log, date, now);
    if step1.1.Err? then Saved(step1.0, feedLogs, cages, cage, false)
    else
      var step2 :=
        if log.currentFeed.Some? && log.currentFeed.value > 0.0 then
          SaveFeed(feedLogs, loadedFeeds, FormFeedLog(cage, date, log.currentFeed.value, now), date, now)
        else (feedLogs, Ok(0));
      if step2.1.Err? then Saved(step1.0, step2.0, cages, cage, false)
      else
        var cage' := CageAfter(cage, log, now);
        var step3 := cages.Put(cage.id, cage'.value);
        Saved(step1.0, step2.0, step3.0, cage', step3.1.Ok?)
  }

  /** `handleProductionSubmit` on the stores: the form's log saved by date. */
  function SaveProduction(logs: TableState<ProductionLog>, feedLogs: TableState<FeedLog>, cages: TableState<Cage>,
                          cage: Entry<Cage>, loadedLogs: seq<Entry<ProductionLog>>, loadedFeeds: seq<Entry<FeedLog>>,
                          form: ProductionForm, now: string): (r: Saved)
    requires logs.Valid() && feedLogs.Valid() && cages.Valid()
    requires cage.id > 0 && PositiveIds(loadedLogs) && PositiveIds(loadedFeeds)
    ensures r.logs.Valid() && r.feedLogs.Valid() && r.cages.Valid()
  {
    SaveEntry(logs, feedLogs, cages, cage, loadedLogs, loadedFeeds, FormLog(cage, form, now), form.date, now)
  }

  /** Saving a date that already has a loaded log (one read from this store)
      replaces that log in place and cannot fail: the number of logs is
      unchanged, and the saved log keeps the old key and `createdAt`. */
  lemma SaveOnLoggedDate(logs: TableState<ProductionLog>, feedLogs: TableState<FeedLog>, cages: TableState<Cage>,
                         cage: Entry<Cage>, loadedLogs: seq<Entry<ProductionLog>>, loadedFeeds: seq<Entry<FeedLog>>,
                         log: ProductionLog, date: string, now: string, i: nat)
    requires logs.Valid() && feedLogs.Valid() && cages.Valid()
    requires cage.id > 0 && PositiveIds(loadedLogs) && PositiveIds(loadedFeeds)
    requires LogOn(loadedLogs, date) == Some(i) && loadedLogs[i].id in logs.records
    ensures SaveLog(logs, loadedLogs, log, date, now).1 == Ok(loadedLogs[i].id)
    ensures var r := SaveEntry(logs, feedLogs, cages, cage, loadedLogs, loadedFeeds, log, date, now);
      && |r.logs.records| == |logs.records| && r.logs.nextId == logs.nextId
      && r.logs.records == logs.records[loadedLogs[i].id := log.(createdAt := loadedLogs[i].value.createdAt)]
  {
  }

  /** Saving a date without a loaded log adds exactly one log, created `now`,
      under the next key; only a full store refuses it, and then nothing changes. */
  lemma SaveOnNewDate(logs: TableState<ProductionLog>, feedLogs: TableState<FeedLog>, cages: TableState<Cage>,
                      cage: Entry<Cage>, loadedLogs: seq<Entry<ProductionLog>>, loadedFeeds: seq<Entry<FeedLog>>,
                      log: ProductionLog, date: string, now: string)
    requires logs.Valid() && feedLogs.Valid() && cages.Valid()
    requires cage.id > 0 && PositiveIds(loadedLogs) && PositiveIds(loadedFeeds)
    requires LogOn(loadedLogs, date).None?
    ensures var r := SaveEntry(logs, feedLogs, cages, cage, loadedLogs, loadedFeeds, log, date, now);
      && (logs.HasRoom() ==>
            && |r.logs.records| == |logs.records| + 1
            && r.logs.records == logs.records[logs.nextId := log.(createdAt := now)])
      && (!logs.HasRoom() ==> r == Saved(logs, feedLogs, cages, cage, false))
  {
  }

  /** The feed logs change only when the log records a positive feed
      amount; then, once the log is saved, the day's feed log holds that
      amount, under the loaded feed log's key when that date has one. */
  lemma FeedSavedOnlyWhenGiven(logs: TableState<ProductionLog>, feedLogs: TableState<FeedLog>, cages: TableState<Cage>,
                               cage: Entry<Cage>, loadedLogs: seq<Entry<ProductionLog>>, loadedFeeds: seq<Entry<FeedLog>>,
                               log: ProductionLog, date: string, now: string)
    requires logs.Valid() && feedLogs.Valid() && cages.Valid()
    requires cage.id > 0 && PositiveIds(loadedLogs) && PositiveIds(loadedFeeds)
    ensures var r := SaveEntry(logs, feedLogs, cages, cage, loadedLogs, loadedFeeds, log, date, now);
      && (!(log.currentFeed.Some? && log.currentFeed.value > 0.0) ==> r.feedLogs == feedLogs)
      && (log.currentFeed.Some? && log.currentFeed.value > 0.0 && SaveLog(logs, loadedLogs, log, date, now).1.Ok? ==>
            r.feedLogs == SaveFeed(feedLogs, loadedFeeds, FormFeedLog(cage, date, log.currentFeed.value, now), date, now).0)
  {
  }

  /** The feed upsert: an update of the loaded feed log of that date, which
      keeps its key and `createdAt`, or else one more feed log. */
  lemma FeedUpsert(feedLogs: TableState<FeedLog>, loaded: seq<Entry<FeedLog>>, feed: FeedLog, date: string, now: string)
    requires feedLogs.Valid() && PositiveIds(loaded)
    ensures var r := SaveFeed(feedLogs, loaded, feed, date, now);
      match FeedOn(loaded, date)
      case Some(j) =>
        loaded[j].id in feedLogs.records ==>
          r.1.Ok? && r.0.records == feedLogs.records[loaded[j].id := feed.(createdAt := loaded[j].value.createdAt)]
      case None =>
        feedLogs.HasRoom() ==>
          r.1.Ok? && r.0.records == feedLogs.records[feedLogs.nextId := feed.(createdAt := now)]
          && |r.0.records| == |feedLogs.records| + 1
  {
  }

  /** After a successful save the cage, in the view and in the store, has
      the day's closing birds as its current birds, and nothing else of it
      but `updatedAt` changes. */
  lemma CageTakesClosingBirds(logs: TableState<ProductionLog>, feedLogs: TableState<FeedLog>, cages: TableState<Cage>,
                              cage: Entry<Cage>, loadedLogs: seq<Entry<ProductionLog>>, loadedFeeds: seq<Entry<FeedLog>>,
                              log: ProductionLog, date: string, now: string)
    requires logs.Valid() && feedLogs.Valid() && cages.Valid()
    requires cage.id > 0 && PositiveIds(loadedLogs) && PositiveIds(loadedFeeds)
    ensures var r := SaveEntry(logs, feedLogs, cages, cage, loadedLogs, loadedFeeds, log, date, now);
      r.ok ==>
        && r.cage.id == cage.id && cage.id in r.cages.records && r.cages.records[cage.id] == r.cage.value
        && r.cage.value.currentBirds == log.closingBirds
        && r.cage.value == cage.value.(currentBirds := log.closingBirds, updatedAt := Some(now))
  {
  }

  /** After a successful submission the cage holds the form's opening birds
      less its mortality and birds sold (each 0 when not a number), unclamped. */
  lemma SubmitSetsCurrentBirds(logs: TableState<ProductionLog>, feedLogs: TableState<FeedLog>, cages: TableState<Cage>,
                               cage: Entry<Cage>, loadedLogs: seq<Entry<ProductionLog>>, loadedFeeds: seq<Entry<FeedLog>>,
                               form: ProductionForm, now: string)
    requires logs.Valid() && feedLogs.Valid() && cages.Valid()
    requires cage.id > 0 && PositiveIds(loadedLogs) && PositiveIds(loadedFeeds)
    ensures var r := SaveProduction(logs, feedLogs, cages, cage, loadedLogs, loadedFeeds, form, now);
      r.ok ==>
        && cage.id in r.cages.records
        && r.cages.records[cage.id].currentBirds ==
             ClosingBirds(ParseInt(form.openingBirds), IntOr(ParseInt(form.mortality), 0), IntOr(ParseInt(form.birdsSold), 0))
  {
    var log := FormLog(cage, form, now);
    assert SaveProduction(logs, feedLogs, cages, cage, loadedLogs, loadedFeeds, form, now)
        == SaveEntry(logs, feedLogs, cages, cage, loadedLogs, loadedFeeds, log, form.date, now);
    CageTakesClosingBirds(logs, feedLogs, cages, cage, loadedLogs, loadedFeeds, log, form.date, now);
  }

  // ---------------------------------------------------------------- running totals

  /** `productionLogs.reduce((sum, log) => sum + (log.eggsCollected || 0), 0)`. */
  function TotalEggs(logs: seq<Entry<ProductionLog>>): real
  {
    Sum(logs, (e: Entry<ProductionLog>) => RealOr(e.value.eggsCollected, 0.0))
  }

  /** `feedLogs.reduce((sum, log) => sum + (log.amount || 0), 0)`. */
  function TotalFeed(logs: seq<Entry<FeedLog>>): real
  {
    Sum(logs, (e: Entry<FeedLog>) => RealOr(e.value.amount, 0.0))
  }

  /** `productionLogs.reduce((sum, log) => sum + (log.mortality || 0), 0)`. */
  function TotalMortality(logs: seq<Entry<ProductionLog>>): int
  {
    SumInt(logs, (e: Entry<ProductionLog>) => IntOr(e.value.mortality, 0))
  }

  /** `Math.max(0, (currentBirds || 0) - mortality)`. */
  function BirdsLeft(currentBirds: Option<int>, mortality: int): (r: int)
    ensures r >= 0
    ensures IntOr(currentBirds, 0) - mortality >= 0 ==> r == IntOr(currentBirds, 0) - mortality
    ensures IntOr(currentBirds, 0) - mortality < 0 ==> r == 0
  {
    Max(0, IntOr(currentBirds, 0) - mortality)
  }

  /** The cage with the totals `updateCageTotals` writes. */
  function WithTotals(cage: Cage, logs: seq<Entry<ProductionLog>>, feedLogs: seq<Entry<FeedLog>>, now: string): (r: Cage)
    ensures r.currentBirds.Some? && r.currentBirds.value >= 0
    ensures r.totalEggs == Some(TotalEggs(logs)) && r.totalFeed == Some(TotalFeed(feedLogs))
    ensures r.mortality == Some(TotalMortality(logs)) && r.updatedAt == Some(now)
    ensures r.currentBirds == Some(BirdsLeft(cage.currentBirds, TotalMortality(logs)))
    ensures r.(totalEggs := cage.totalEggs, totalFeed := cage.totalFeed, mortality := cage.mortality,
               currentBirds := cage.currentBirds, updatedAt := cage.updatedAt) == cage
  {
    var mortality := TotalMortality(logs);
    cage.(totalEggs := Some(TotalEggs(logs)), totalFeed := Some(TotalFeed(feedLogs)), mortality := Some(mortality),
          currentBirds := Some(BirdsLeft(cage.currentBirds, mortality)), updatedAt := Some(now))
  }

  /** Totals do not depend on the order in which the logs were loaded. */
  lemma TotalsOrderFree(a: seq<Entry<ProductionLog>>, b: seq<Entry<ProductionLog>>, fa: seq<Entry<FeedLog>>, fb: seq<Entry<FeedLog>>)
    requires multiset(a) == multiset(b) && multiset(fa) == multiset(fb)
    ensures TotalEggs(a) == TotalEggs(b) && TotalMortality(a) == TotalMortality(b) && TotalFeed(fa) == TotalFeed(fb)
  {
    SumPermutation(a, b, (e: Entry<ProductionLog>) => RealOr(e.value.eggsCollected, 0.0));
    SumIntPermutation(a, b, (e: Entry<ProductionLog>) => IntOr(e.value.mortality, 0));
    SumPermutation(fa, fb, (e: Entry<FeedLog>) => RealOr(e.value.amount, 0.0));
  }

  /** Each log adds its own eggs and mortality to the totals. */
  lemma TotalsOfOneMore(logs: seq<Entry<ProductionLog>>, e: Entry<ProductionLog>)
    ensures TotalEggs(logs + [e]) == TotalEggs(logs) + RealOr(e.value.eggsCollected, 0.0)
    ensures TotalMortality(logs + [e]) == TotalMortality(logs) + IntOr(e.value.mortality, 0)
  {
    SumAppend(logs, [e], (e: Entry<ProductionLog>) => RealOr(e.value.eggsCollected, 0.0));
    SumIntAppend(logs, [e], (e: Entry<ProductionLog>) => IntOr(e.value.mortality, 0));
  }

  // ---------------------------------------------------------------- performance figures

  /** The figures `calculateDetailedMetrics` returns, before `toFixed`.
      `None` is `NaN`. */
  datatype Metrics = Metrics(
    ageInDays: Option<int>,
    ageInWeeks: Option<int>,
    closingBirds: Option<int>,
    cumMortality: int,
    cumMortalityPercent: real,
    currentProductionPercent: Option<real>,
    cumProductionTrays: real,
    henHouseProduction: real,
    currentFeedPerBird: Option<real>,
    cumFeedPerBird: real,
    currentFeedPerEgg: Option<real>,
    cumFeedPerEgg: real)

  function DateKey(e: Entry<ProductionLog>, timeOf: TimeOf): real
  {
    TimeKey(e.value.date, timeOf)
  }

  function FeedDateKey(e: Entry<FeedLog>, timeOf: TimeOf): real
  {
    TimeKey(e.value.date, timeOf)
  }

  /** The keys the date comparators of `init` and `calculateDetailedMetrics` sort by. */
  function ByDate(timeOf: TimeOf): Entry<ProductionLog> -> real
  {
    (e: Entry<ProductionLog>) => DateKey(e, timeOf)
  }

  function ByFeedDate(timeOf: TimeOf): Entry<FeedLog> -> real
  {
    (e: Entry<FeedLog>) => FeedDateKey(e, timeOf)
  }

  /** A log of a laying flock: `(log.flockAge || 0) >= 133`. */
  predicate Laying(e: Entry<ProductionLog>)
  {
    IntOr(e.value.flockAge, 0) >= LayingStartAge
  }

  /** `Math.floor(days / 7)`. */
  function Weeks(days: Option<int>): (r: Option<int>)
    ensures r.Some? <==> days.Some?
    ensures r.Some? ==> 7 * r.value <= days.value < 7 * r.value + 7
  {
    if days.Some? then Some(days.value / 7) else None
  }

  /** `logs.filter(log => (log.flockAge || 0) >= 133)`. */
  function LayingLogs(logs: seq<Entry<ProductionLog>>): (r: seq<Entry<ProductionLog>>)
    ensures IsSubsequence(r, logs)
    ensures forall i :: 0 <= i < |r| ==> Laying(r[i])
    ensures forall i :: 0 <= i < |logs| && Laying(logs[i]) ==> logs[i] in r
  {
    FilterIsSubsequence(logs, Laying);
    Filter(logs, Laying)
  }

  /** The eggs of one log: `(log.eggsTrays || 0) * 30`. */
  function LayingEggs(e: Entry<ProductionLog>): real
  {
    RealOr(e.value.eggsTrays, 0.0) * EggsPerTray
  }

  /** `log.openingBirds || 0`. */
  function OpeningOf(e: Entry<ProductionLog>): int
  {
    IntOr(e.value.openingBirds, 0)
  }

  /** The eggs of the laying logs and their average opening birds: the
      average is 0 when no log is a laying one. */
  function LayingFigures(logs: seq<Entry<ProductionLog>>): (r: (real, real))
    ensures var laying := LayingLogs(logs);
      && r.0 == Sum(laying, LayingEggs)
      && (|laying| == 0 ==> r.1 == 0.0)
  {
    var laying := LayingLogs(logs);
    var eggs := Sum(laying, LayingEggs);
    var birds := SumInt(laying, OpeningOf);
    (eggs, Ratio(birds as real, |laying| as real))
  }

  /** With laying logs, the average opening birds times their number is
      the sum of their opening birds. */
  lemma LayingFiguresMean(logs: seq<Entry<ProductionLog>>)
    ensures var laying := LayingLogs(logs);
      |laying| > 0 ==> LayingFigures(logs).1 * (|laying| as real) == SumInt(laying, OpeningOf) as real
  {
    var laying := LayingLogs(logs);
    var birds := SumInt(laying, OpeningOf) as real;
    var count := |laying| as real;
    assert LayingFigures(logs).1 == Ratio(birds, count);
    if |laying| > 0 {
      assert count > 0.0;
      assert Ratio(birds, count) * count == birds;
    }
  }

  /** `calculateDetailedMetrics` over the logs in ascending date order. */
  function DetailedMetrics(logs: seq<Entry<ProductionLog>>, feedLogs: seq<Entry<FeedLog>>, cage: Cage,
                           cycleStart: Option<string>, timeOf: TimeOf): (r: Metrics)
    ensures |logs| == 0 ==>
      r == Metrics(Some(0), Some(0), Some(IntOr(cage.currentBirds, 0)), 0, 0.0, Some(0.0), 0.0, 0.0, Some(0.0), 0.0, Some(0.0), 0.0)
    ensures r.ageInWeeks == Weeks(r.ageInDays)
    ensures r.cumMortality == TotalMortality(logs)
    ensures r.cumProductionTrays == Sum(logs, (e: Entry<ProductionLog>) => RealOr(e.value.eggsTrays, 0.0))
    ensures r.henHouseProduction == Ratio(LayingFigures(logs).0, LayingFigures(logs).1)
    ensures r.cumFeedPerBird == Ratio(TotalFeed(feedLogs), LayingFigures(logs).1)
    ensures r.cumFeedPerEgg == Ratio(TotalFeed(feedLogs) * 1000.0, r.cumProductionTrays * EggsPerTray)
  {
    if |logs| == 0 then
      Metrics(Some(0), Some(0), Some(IntOr(cage.currentBirds, 0)), 0, 0.0, Some(0.0), 0.0, 0.0, Some(0.0), 0.0, Some(0.0), 0.0)
    else
      var latest := logs[|logs| - 1].value;
      var ageInDays :=
        if Truthy(latest.flockAge) then latest.flockAge
        else FlockAge(cycleStart, if latest.date.Some? then latest.date.value else "", timeOf);
      var cumMortality := TotalMortality(logs);
      var initialBirds := if Truthy(logs[0].value.openingBirds) then logs[0].value.openingBirds else cage.currentBirds;
      var cumMortalityPercent :=
        if initialBirds.Some? && initialBirds.value > 0 then cumMortality as real / initialBirds.value as real * 100.0 else 0.0;
      var cumTrays := Sum(logs, (e: Entry<ProductionLog>) => RealOr(e.value.eggsTrays, 0.0));
      var opening := latest.openingBirds;
      var currentProduction :=
        if opening.Some? && opening.value > 0 then
          (if latest.eggsTrays.Some? then Some(latest.eggsTrays.value * EggsPerTray / opening.value as real * 100.0) else None)
        else Some(0.0);
      var laying := LayingFigures(logs);
      var cumFeed := TotalFeed(feedLogs);
      var currentFeedPerBird :=
        if opening.Some? && opening.value > 0 then
          (if latest.currentFeed.Some? then Some(latest.currentFeed.value / opening.value as real) else None)
        else Some(0.0);
      var currentFeedPerEgg :=
        if latest.eggsTrays.Some? && latest.eggsTrays.value * EggsPerTray > 0.0 then
          (if latest.currentFeed.Some? then Some(latest.currentFeed.value * 1000.0 / (latest.eggsTrays.value * EggsPerTray)) else None)
        else Some(0.0);
      Metrics(
        ageInDays, Weeks(ageInDays),
        if Truthy(latest.closingBirds) then latest.closingBirds else latest.openingBirds,
        cumMortality, cumMortalityPercent, currentProduction, cumTrays,
        Ratio(laying.0, laying.1), currentFeedPerBird, Ratio(cumFeed, laying.1), currentFeedPerEgg,
        Ratio(cumFeed * 1000.0, cumTrays * EggsPerTray))
  }

  /** Hen-house production and cumulative feed per bird see only the laying
      logs: dropping the logs of a younger flock changes neither. */
  lemma {:induction false} LayingFiguresOfLayingLogs(logs: seq<Entry<ProductionLog>>)
    ensures LayingFigures(LayingLogs(logs)) == LayingFigures(logs)
  {
    FilterIdempotent(logs);
  }

  /** A log of a flock younger than 133 days, wherever it sits among the
      logs, adds nothing to either laying figure. */
  lemma YoungLogIgnored(before: seq<Entry<ProductionLog>>, x: Entry<ProductionLog>, after: seq<Entry<ProductionLog>>)
    requires !Laying(x)
    ensures LayingFigures(before + [x] + after) == LayingFigures(before + after)
  {
    FilterSkip(before, x, after, Laying);
    assert LayingLogs(before + [x] + after) == LayingLogs(before + after);
  }

  lemma {:induction false} FilterIdempotent(logs: seq<Entry<ProductionLog>>)
    ensures Filter(Filter(logs, Laying), Laying) == Filter(logs, Laying)
  {
    if |logs| > 0 {
      FilterIdempotent(logs[1..]);
    }
  }

  /** Without a laying log, hen-house production and cumulative feed per bird are 0. */
  lemma NoLayingLogs(logs: seq<Entry<ProductionLog>>, feedLogs: seq<Entry<FeedLog>>, cage: Cage,
                     cycleStart: Option<string>, timeOf: TimeOf)
    requires forall k :: 0 <= k < |logs| ==> !Laying(logs[k])
    ensures DetailedMetrics(logs, feedLogs, cage, cycleStart, timeOf).henHouseProduction == 0.0
    ensures DetailedMetrics(logs, feedLogs, cage, cycleStart, timeOf).cumFeedPerBird == 0.0
  {
  }

  /** The cumulative figures do not depend on the order of the logs. */
  lemma CumulativeFiguresOrderFree(a: seq<Entry<ProductionLog>>, b: seq<Entry<ProductionLog>>, feedLogs: seq<Entry<FeedLog>>,
                                   cage: Cage, cycleStart: Option<string>, timeOf: TimeOf)
    requires multiset(a) == multiset(b)
    ensures DetailedMetrics(a, feedLogs, cage, cycleStart, timeOf).cumMortality == DetailedMetrics(b, feedLogs, cage, cycleStart, timeOf).cumMortality
    ensures DetailedMetrics(a, feedLogs, cage, cycleStart, timeOf).cumProductionTrays == DetailedMetrics(b, feedLogs, cage, cycleStart, timeOf).cumProductionTrays
    ensures DetailedMetrics(a, feedLogs, cage, cycleStart, timeOf).cumFeedPerEgg == DetailedMetrics(b, feedLogs, cage, cycleStart, timeOf).cumFeedPerEgg
  {
    SumIntPermutation(a, b, (e: Entry<ProductionLog>) => IntOr(e.value.mortality, 0));
    SumPermutation(a, b, (e: Entry<ProductionLog>) => RealOr(e.value.eggsTrays, 0.0));
  }

  /** `renderProductionForm`'s opening birds: today's log's opening birds,
      or else the cage's current birds. */
  function OpeningBirdsDefault(logs: seq<Entry<ProductionLog>>, cage: Cage, today: string): (r: Option<int>)
    ensures LogOn(logs, today).Some? && Truthy(logs[LogOn(logs, today).value].value.openingBirds) ==>
      r == logs[LogOn(logs, today).value].value.openingBirds
    ensures !(LogOn(logs, today).Some? && Truthy(logs[LogOn(logs, today).value].value.openingBirds)) ==>
      r == cage.currentBirds
    ensures (forall k :: 0 <= k < |logs| ==> logs[k].value.date != Some(today)) ==> r == cage.currentBirds
  {
    match LogOn(logs, today)
    case Some(i) => if Truthy(logs[i].value.openingBirds) then logs[i].value.openingBirds else cage.currentBirds
    case None => cage.currentBirds
  }

  // ---------------------------------------------------------------- the component

  /** The cage view's state: the cage, its cycle and the cage's logs as last loaded. */
  class CageView {
    var cage: Option<Entry<Cage>>
    var cycle: Option<Cycle>
    var productionLogs: seq<Entry<ProductionLog>>
    var feedLogs: seq<Entry<FeedLog>>

    /** Loaded records carry keys a store assigned. */
    ghost predicate Valid()
      reads this
    {
      (cage.Some? ==> cage.value.id > 0) && PositiveIds(productionLogs) && PositiveIds(feedLogs)
    }

    constructor ()
      ensures Valid() && cage.None? && cycle.None? && productionLogs == [] && feedLogs == []
    {
      cage, cycle, productionLogs, feedLogs := None, None, [], [];
    }

    /** The loaded logs are, in some order, the production and feed logs
        of cage `id` in the two stores. */
    ghost predicate ShowsLogsOf(id: int, logs: TableState<ProductionLog>, feeds: TableState<FeedLog>)
      requires logs.Valid() && feeds.Valid()
      reads this
    {
      && multiset(productionLogs) == multiset(logs.Where((l: ProductionLog) => l.cageId == id))
      && multiset(feedLogs) == multiset(feeds.Where((l: FeedLog) => l.cageId == Some(id)))
    }

    /** The order `init` and `render` leave the logs in: production logs
        oldest first, feed logs newest first, and the logs of one date in
        increasing key order. With the logs' contents this fixes the order
        completely. */
    ghost predicate InRenderedOrder(timeOf: TimeOf)
      reads this
    {
      && SortedBy(productionLogs, ByDate(timeOf))
      && (forall k :: InKeyOrder(Band(productionLogs, ByDate(timeOf), k)))
      && SortedDescendingBy(feedLogs, ByFeedDate(timeOf))
      && (forall k :: InKeyOrder(Band(feedLogs, ByFeedDate(timeOf), k)))
    }

    /** `init(cageId)` and the `render` that ends it: load the cage, its
        cycle, and the cage's production and feed logs, newest first, and then
        re-sort the production logs oldest first (`renderStats` calls
        `calculateDetailedMetrics`). Both sorts are stable, so the logs of
        one date stay in the store's key order. Returns whether the cage was
        found; a key that is not a number leaves the view as it was. */
    method Init(cageId: Option<int>, cages: Table<Cage>, cycles: Table<Cycle>, logs: Table<ProductionLog>,
                feeds: Table<FeedLog>, timeOf: TimeOf) returns (found: bool)
      requires Valid()
      requires cages.state.Valid() && cycles.state.Valid() && logs.state.Valid() && feeds.state.Valid()
      modifies this
      ensures Valid() && unchanged(cages, logs, feeds)
      ensures found <==> cageId.Some? && cageId.value >= 0 && cageId.value in cages.state.records
      ensures found ==>
        && cage == Some(Entry(cageId.value, cages.state.records[cageId.value]))
        && cycle == (if cage.value.value.cycleId >= 0 then cycles.state.Get(cage.value.value.cycleId) else None)
        && ShowsLogsOf(cageId.value, logs.state, feeds.state)
        && InRenderedOrder(timeOf)
      ensures !found ==> productionLogs == old(productionLogs) && feedLogs == old(feedLogs) && cycle == old(cycle)
      ensures !found ==> cage == (if cageId.Some? then None else old(cage))
    {
      if cageId.None? {
        return false;
      }
      var id := cageId.value;
      if id < 0 || id !in cages.state.records {
        cage := None;
        return false;
      }
      var c := cages.state.records[id];
      cage := Some(Entry(id, c));
      cycle := if c.cycleId >= 0 then cycles.state.Get(c.cycleId) else None;
      var loadedLogs := logs.state.Where((l: ProductionLog) => l.cageId == id);
      var newestLog := (e: Entry<ProductionLog>) => -DateKey(e, timeOf);
      productionLogs := SortedCopy(loadedLogs, newestLog);
      BandsInKeyOrder(loadedLogs, productionLogs, ByDate(timeOf), newestLog);
      PositiveIdsOfPermutation(loadedLogs, productionLogs);
      var loadedFeeds := feeds.state.Where((l: FeedLog) => l.cageId == Some(id));
      var newestFeed := (e: Entry<FeedLog>) => -FeedDateKey(e, timeOf);
      feedLogs := SortedCopy(loadedFeeds, newestFeed);
      NegatedKeyDescending(feedLogs, ByFeedDate(timeOf));
      BandsInKeyOrder(loadedFeeds, feedLogs, ByFeedDate(timeOf), newestFeed);
      PositiveIdsOfPermutation(loadedFeeds, feedLogs);
      // `render` calls `calculateDetailedMetrics`, whose sort is the one
      // change rendering makes to the view.
      SortLogsByDate(timeOf);
      found := true;
    }

    /** `handleProductionSubmit`: the stores as `SaveProduction` leaves them;
        the view's cage takes the closing birds once the log (and feed) are
        saved, and after a fully successful save the view is reloaded and
        rendered, as `Init` leaves it. */
    method HandleProductionSubmit(cages: Table<Cage>, cycles: Table<Cycle>, logs: Table<ProductionLog>,
                                  feeds: Table<FeedLog>, form: ProductionForm, now: string, timeOf: TimeOf)
      requires Valid() && cage.Some?
      requires cages.state.Valid() && cycles.state.Valid() && logs.state.Valid() && feeds.state.Valid()
      modifies this, cages, logs, feeds
      ensures Valid()
      ensures var r := SaveProduction(old(logs.state), old(feeds.state), old(cages.state), old(cage.value),
                                      old(productionLogs), old(feedLogs), form, now);
        && logs.state == r.logs && feeds.state == r.feedLogs && cages.state == r.cages
        && cage == Some(r.cage)
        && (!r.ok ==> productionLogs == old(productionLogs) && feedLogs == old(feedLogs))
        && (r.ok ==> ShowsLogsOf(r.cage.id, logs.state, feeds.state) && InRenderedOrder(timeOf))
        && (r.ok ==> cycle == (if r.cage.value.cycleId >= 0 then cycles.state.Get(r.cage.value.cycleId) else None))
    {
      var id := cage.value.id;
      var ok := SaveForm(cages, logs, feeds, form, now);
      if ok {
        var found := Init(Some(id), cages, cycles, logs, feeds, timeOf);
      }
    }

    /** The save of `handleProductionSubmit`, before the reload: the stores
        and the view's cage as `SaveProduction` leaves them. */
    method SaveForm(cages: Table<Cage>, logs: Table<ProductionLog>, feeds: Table<FeedLog>,
                    form: ProductionForm, now: string) returns (ok: bool)
      requires Valid() && cage.Some?
      requires cages.state.Valid() && logs.state.Valid() && feeds.state.Valid()
      modifies this, cages, logs, feeds
      ensures Valid() && productionLogs == old(productionLogs) && feedLogs == old(feedLogs)
      ensures var r := SaveProduction(old(logs.state), old(feeds.state), old(cages.state), old(cage.value),
                                      old(productionLogs), old(feedLogs), form, now);
        && logs.state == r.logs && feeds.state == r.feedLogs && cages.state == r.cages
        && cage == Some(r.cage) && ok == r.ok
      ensures ok ==> (cage.value.id == old(cage).value.id && cage.value.id in cages.state.records
                      && cages.state.records[cage.value.id] == cage.value.value)
    {
      var c := cage.value;
      var saved;
      saved, ok := SaveEntryIn(cages, logs, feeds, c, productionLogs, feedLogs, FormLog(c, form, now), form.date, now);
      cage := Some(saved);
    }

    /** `updateCageTotals`: the cage's totals recomputed from the loaded logs,
        in the view and in the store. */
    method UpdateCageTotals(cages: Table<Cage>, now: string) returns (r: Result<nat>)
      requires Valid() && cage.Some? && cages.state.Valid()
      modifies this, cages
      ensures Valid()
      ensures cage == Some(Entry(old(cage).value.id, WithTotals(old(cage).value.value, productionLogs, feedLogs, now)))
      ensures (cages.state, r) == old(cages.state).Put(cage.value.id, cage.value.value)
      ensures productionLogs == old(productionLogs) && feedLogs == old(feedLogs) && cycle == old(cycle)
    {
      cage := Some(Entry(cage.value.id, WithTotals(cage.value.value, productionLogs, feedLogs, now)));
      r := cages.Put(cage.value.id, cage.value.value);
    }

    /** The sort `calculateDetailedMetrics` starts with: the loaded
        production logs by ascending date, in place and stably. */
    method SortLogsByDate(timeOf: TimeOf)
      requires Valid()
      modifies this
      ensures Valid()
      ensures multiset(productionLogs) == multiset(old(productionLogs))
      ensures SortedBy(productionLogs, ByDate(timeOf))
      ensures forall k :: Band(productionLogs, ByDate(timeOf), k) == Band(old(productionLogs), ByDate(timeOf), k)
      ensures cage == old(cage) && cycle == old(cycle) && feedLogs == old(feedLogs)
    {
      var sorted := SortedCopy(productionLogs, ByDate(timeOf));
      PositiveIdsOfPermutation(productionLogs, sorted);
      productionLogs := sorted;
    }

    /** `calculateDetailedMetrics`: sorts the loaded logs by ascending date in
        place and computes the figures over them. */
    method CalculateDetailedMetrics(timeOf: TimeOf) returns (m: Metrics)
      requires Valid() && cage.Some?
      modifies this
      ensures Valid()
      ensures multiset(productionLogs) == multiset(old(productionLogs))
      ensures SortedBy(productionLogs, ByDate(timeOf))
      ensures forall k :: Band(productionLogs, ByDate(timeOf), k) == Band(old(productionLogs), ByDate(timeOf), k)
      ensures cage == old(cage) && cycle == old(cycle) && feedLogs == old(feedLogs)
      ensures m == DetailedMetrics(productionLogs, feedLogs, cage.value.value,
                                   if cycle.Some? then cycle.value.startDate else None, timeOf)
    {
      SortLogsByDate(timeOf);
      m := DetailedMetrics(productionLogs, feedLogs, cage.value.value,
                           if cycle.Some? then cycle.value.startDate else None, timeOf);
    }
  }

  /** `SaveLog` on the production log store. */
  method SaveLogIn(logs: Table<ProductionLog>, loaded: seq<Entry<ProductionLog>>, log: ProductionLog, date: string,
                   now: string) returns (r: Result<nat>)
    requires logs.state.Valid() && PositiveIds(loaded)
    modifies logs
    ensures (logs.state, r) == old(SaveLog(logs.state, loaded, log, date, now))
  {
    match LogOn(loaded, date) {
      case Some(i) => r := logs.Put(loaded[i].id, log.(createdAt := loaded[i].value.createdAt));
      case None => r := logs.Add(log.(createdAt := now));
    }
  }

  /** `SaveFeed` on the feed log store. */
  method SaveFeedIn(feeds: Table<FeedLog>, loaded: seq<Entry<FeedLog>>, feed: FeedLog, date: string,
                    now: string) returns (r: Result<nat>)
    requires feeds.state.Valid() && PositiveIds(loaded)
    modifies feeds
    ensures (feeds.state, r) == old(SaveFeed(feeds.state, loaded, feed, date, now))
  {
    match FeedOn(loaded, date) {
      case Some(i) => r := feeds.Put(loaded[i].id, feed.(createdAt := loaded[i].value.createdAt));
      case None => r := feeds.Add(feed.(createdAt := now));
    }
  }

  /** `SaveEntry` on the three stores: the writes of one submission, in order. */
  method SaveEntryIn(cages: Table<Cage>, logs: Table<ProductionLog>, feeds: Table<FeedLog>, cage: Entry<Cage>,
                     loadedLogs: seq<Entry<ProductionLog>>, loadedFeeds: seq<Entry<FeedLog>>,
                     log: ProductionLog, date: string, now: string) returns (saved: Entry<Cage>, ok: bool)
    requires logs.state.Valid() && feeds.state.Valid() && cages.state.Valid()
    requires cage.id > 0 && PositiveIds(loadedLogs) && PositiveIds(loadedFeeds)
    modifies cages, logs, feeds
    ensures var r := old(SaveEntry(logs.state, feeds.state, cages.state, cage, loadedLogs, loadedFeeds, log, date, now));
      logs.state == r.logs && feeds.state == r.feedLogs && cages.state == r.cages && saved == r.cage && ok == r.ok
    ensures ok ==> saved.id == cage.id && cage.id in cages.state.records && cages.state.records[cage.id] == saved.value
  {
    saved, ok := cage, false;
    var r1 := SaveLogIn(logs, loadedLogs, log, date, now);
    if r1.Err? {
      return;
    }
    if log.currentFeed.Some? && log.currentFeed.value > 0.0 {
      var r2 := SaveFeedIn(feeds, loadedFeeds, FormFeedLog(cage, date, log.currentFeed.value, now), date, now);
      if r2.Err? {
        return;
      }
    }
    saved := CageAfter(cage, log, now);
    var r3 := cages.Put(cage.id, saved.value);
    ok := r3.Ok?;
  }

  /** Reordering loaded records keeps their keys positive. */
  lemma PositiveIdsOfPermutation<T>(a: seq<Entry<T>>, b: seq<Entry<T>>)
    requires PositiveIds(a) && multiset(a) == multiset(b)
    ensures PositiveIds(b)
  {
    forall i | 0 <= i < |b| ensures b[i].id > 0 {
      assert b[i] in multiset(a);
    }
  }
}
