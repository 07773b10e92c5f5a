/** The vaccination manager (`VaccinationManager`): the standard schedule
    matched against the recorded vaccinations, the method badge, and the
    records of a cycle kept newest first across add and delete. */
module Vaccination {
  import opened Common
  import opened Strings
  import opened Numbers
  import opened Records
  import opened Store
  import opened Dates
  import opened Sorting

  // ---------------------------------------------------------------- the schedule

  /** One entry of the standard schedule. */
  datatype ScheduleItem = ScheduleItem(day: int, weeks: int, vaccine: string, administration: string)

  /** `standardSchedule`. */
  const StandardSchedule: seq<ScheduleItem> := [
    ScheduleItem(1, 0, "Marek's Disease", "injection"),
    ScheduleItem(7, 1, "Newcastle + IB", "spray"),
    ScheduleItem(14, 2, "Gumboro (IBD)", "drinking_water"),
    ScheduleItem(21, 3, "Newcastle + IB", "drinking_water"),
    ScheduleItem(28, 4, "Gumboro (IBD)", "drinking_water"),
    ScheduleItem(35, 5, "Newcastle", "drinking_water"),
    ScheduleItem(63, 9, "Fowl Pox", "wing_web"),
    ScheduleItem(105, 15, "Newcastle + IB", "injection"),
    ScheduleItem(119, 17, "Egg Drop Syndrome", "injection")
  ]

  /** The table's days strictly increase and each entry's weeks are its
      whole weeks. */
  lemma ScheduleTable()
    ensures |StandardSchedule| == 9
    ensures forall i, j :: 0 <= i < j < |StandardSchedule| ==> StandardSchedule[i].day < StandardSchedule[j].day
    ensures forall i :: 0 <= i < |StandardSchedule| ==> StandardSchedule[i].weeks == StandardSchedule[i].day / 7
  {
  }

  /** An entry of the schedule output: the item and whether it is done. */
  datatype ScheduledItem = ScheduledItem(item: ScheduleItem, completed: bool)

  /** A record counts for an item when its name contains the vaccine's,
      ignoring case, and its age is within 3 days of the item's day; a
      record without an age (`NaN`) never counts. */
  predicate Covers(v: Vaccination, item: ScheduleItem)
  {
    && Includes(ToLower(v.vaccineName), ToLower(item.vaccine))
    && v.flockAge.Some? && Abs(v.flockAge.value - item.day) <= 3
  }

  /** `this.vaccinations.some(...)`. */
  function AnyCovers(vaccinations: seq<Entry<Vaccination>>, item: ScheduleItem): (r: bool)
    ensures r <==> exists i :: 0 <= i < |vaccinations| && Covers(vaccinations[i].value, item)
  {
    if |vaccinations| == 0 then false
    else Covers(vaccinations[0].value, item) || AnyCovers(vaccinations[1..], item)
  }

  /** `getVaccinationSchedule()`: every table entry, in table order, marked
      completed exactly when some record covers it. */
  function Schedule(vaccinations: seq<Entry<Vaccination>>): (r: seq<ScheduledItem>)
    ensures |r| == |StandardSchedule|
    ensures forall i :: 0 <= i < |r| ==> r[i].item == StandardSchedule[i]
    ensures forall i :: 0 <= i < |r| ==>
      (r[i].completed <==> exists j :: 0 <= j < |vaccinations| && Covers(vaccinations[j].value, StandardSchedule[i]))
  {
    seq(|StandardSchedule|, i requires 0 <= i < |StandardSchedule| =>
      ScheduledItem(StandardSchedule[i], AnyCovers(vaccinations, StandardSchedule[i])))
  }

  /** The schedule does not depend on the order of the records. */
  lemma ScheduleOrderFree(a: seq<Entry<Vaccination>>, b: seq<Entry<Vaccination>>)
    requires multiset(a) == multiset(b)
    ensures Schedule(a) == Schedule(b)
  {
    forall i | 0 <= i < |StandardSchedule| ensures Schedule(a)[i] == Schedule(b)[i] {
      var item := StandardSchedule[i];
      if j :| 0 <= j < |a| && Covers(a[j].value, item) {
        assert a[j] in multiset(b);
        var k :| 0 <= k < |b| && b[k] == a[j];
      }
      if j :| 0 <= j < |b| && Covers(b[j].value, item) {
        assert b[j] in multiset(a);
        var k :| 0 <= k < |a| && a[k] == b[j];
      }
    }
  }

  /** One more record completes exactly the items it covers and undoes none. */
  lemma ScheduleGrows(vaccinations: seq<Entry<Vaccination>>, v: Entry<Vaccination>)
    ensures forall i :: 0 <= i < |StandardSchedule| ==>
      (Schedule(vaccinations + [v])[i].completed <==>
         Schedule(vaccinations)[i].completed || Covers(v.value, StandardSchedule[i]))
  {
    var more := vaccinations + [v];
    forall i | 0 <= i < |StandardSchedule|
      ensures Schedule(more)[i].completed <==> Schedule(vaccinations)[i].completed || Covers(v.value, StandardSchedule[i])
    {
      var item := StandardSchedule[i];
      if j :| 0 <= j < |vaccinations| && Covers(vaccinations[j].value, item) {
        assert more[j] == vaccinations[j];
      }
      if Covers(v.value, item) {
        assert more[|vaccinations|] == v;
      }
      if j :| 0 <= j < |more| && Covers(more[j].value, item) {
        if j < |vaccinations| {
          assert more[j] == vaccinations[j];
        }
      }
    }
  }

  /** With no records nothing is completed. */
  lemma NothingRecordedNothingDone()
    ensures forall i :: 0 <= i < |StandardSchedule| ==> !Schedule([])[i].completed
  {
  }

  // ---------------------------------------------------------------- the method badge

  /** The badge classes of the six known administration methods. */
  function MethodClasses(): map<string, string>
  {
    map[
      "drinking_water" := "bg-primary",
      "injection" := "bg-danger",
      "spray" := "bg-info",
      "eye_drop" := "bg-warning",
      "wing_web" := "bg-success",
      "in_ovo" := "bg-secondary"
    ]
  }

  /** `getMethodBadgeClass(administrationMethod)`: the method's class, or `bg-secondary`. */
  function MethodBadgeClass(administrationMethod: string): (r: string)
    ensures administrationMethod in MethodClasses() ==> r == MethodClasses()[administrationMethod]
    ensures administrationMethod !in MethodClasses() ==> r == "bg-secondary"
  {
    if administrationMethod in MethodClasses() then MethodClasses()[administrationMethod] else "bg-secondary"
  }

  /** Every badge is one of the six classes, and apart from `in_ovo` the
      known methods have classes of their own, none the default. */
  lemma MethodBadgeClasses(administrationMethod: string)
    ensures MethodBadgeClass(administrationMethod) in {"bg-primary", "bg-danger", "bg-info", "bg-warning", "bg-success", "bg-secondary"}
    ensures MethodBadgeClass(administrationMethod) == "bg-secondary" <==> administrationMethod !in MethodClasses() || administrationMethod == "in_ovo"
  {
  }

  // ---------------------------------------------------------------- records

  /** The fields of the vaccination form, as text. */
  datatype VaccinationForm = VaccinationForm(
    date: string, flockAge: string, vaccineName: string, administrationMethod: string, dosage: string,
    birdsTreated: string, batchNumber: string, expiryDate: string, manufacturer: string,
    veterinarian: string, notes: string)

  /** The record `handleVaccinationSubmit` stores for the cycle. */
  function FormRecord(cycleId: int, form: VaccinationForm, now: string): (r: Vaccination)
    ensures r.cycleId == cycleId && r.date == form.date && r.vaccineName == form.vaccineName
    ensures r.flockAge == ParseInt(form.flockAge) && r.birdsTreated == ParseInt(form.birdsTreated)
    ensures r.administrationMethod == form.administrationMethod && r.veterinarian == form.veterinarian
    ensures r.createdAt == now && r.updatedAt == now
  {
    Vaccination(cycleId, form.date, ParseInt(form.flockAge), form.vaccineName, form.administrationMethod,
                form.dosage, ParseInt(form.birdsTreated), form.batchNumber, form.expiryDate, form.manufacturer,
                form.veterinarian, form.notes, now, now)
  }

  /** A record of a cycle. */
  predicate OfCycle(v: Vaccination, cycleId: int)
  {
    v.cycleId == cycleId
  }

  /** `getByIndex('vaccinations', 'cycleId', cycleId)`. */
  function CycleRecords(state: TableState<Vaccination>, cycleId: int): (r: seq<Entry<Vaccination>>)
    requires state.Valid()
    ensures forall i :: 0 <= i < |r| ==>
      r[i].id in state.records && state.records[r[i].id] == r[i].value && OfCycle(r[i].value, cycleId)
    ensures forall k :: k in state.records && OfCycle(state.records[k], cycleId) ==> Entry(k, state.records[k]) in r
    ensures InKeyOrder(r)
  {
    var r := state.Where((v: Vaccination) => OfCycle(v, cycleId));
    assert forall k :: k in state.records && OfCycle(state.records[k], cycleId) ==> Entry(k, state.records[k]) in r by {
      forall k | k in state.records && OfCycle(state.records[k], cycleId) ensures Entry(k, state.records[k]) in r {
        var i :| 0 <= i < |r| && r[i].id == k;
      }
    }
    r
  }

  function VaccinationDateKey(e: Entry<Vaccination>, timeOf: TimeOf): real
  {
    TimeKey(Some(e.value.date), timeOf)
  }

  /** The key the date comparator of `init` sorts by. */
  function ByVaccinationDate(timeOf: TimeOf): Entry<Vaccination> -> real
  {
    (e: Entry<Vaccination>) => VaccinationDateKey(e, timeOf)
  }

  /** The view's state: the cycle and its records, newest first. */
  class VaccinationManager {
    var cycle: Option<Entry<Cycle>>
    var vaccinations: seq<Entry<Vaccination>>

    constructor ()
      ensures cycle.None? && vaccinations == []
    {
      cycle, vaccinations := None, [];
    }

    /** The view as `init(cycleId)` leaves it: the stored cycle `cycleId`
        (or none), and exactly the stored records of that cycle, newest first,
        those of one date in increasing key order. */
    ghost predicate Shows(cycleId: int, cycles: TableState<Cycle>, records: TableState<Vaccination>, timeOf: TimeOf)
      requires records.Valid()
      reads this
    {
      && cycle == (if cycleId >= 0 && cycleId in cycles.records then Some(Entry(cycleId, cycles.records[cycleId])) else None)
      && multiset(vaccinations) == multiset(CycleRecords(records, cycleId))
      && SortedDescendingBy(vaccinations, ByVaccinationDate(timeOf))
      && (forall k :: InKeyOrder(Band(vaccinations, ByVaccinationDate(timeOf), k)))
    }

    /** `init(cycleId)`: the cycle (or none) and its records sorted by
        descending date. A key that is not a number leaves the view as it was. */
    method Init(cycleId: Option<int>, cycles: Table<Cycle>, records: Table<Vaccination>, timeOf: TimeOf)
      requires cycles.state.Valid() && records.state.Valid()
      modifies this
      ensures cycleId.None? ==> cycle == old(cycle) && vaccinations == old(vaccinations)
      ensures cycleId.Some? ==> Shows(cycleId.value, cycles.state, records.state, timeOf)
    {
      if cycleId.None? {
        return;
      }
      var id := cycleId.value;
      cycle := if id >= 0 && id in cycles.state.records then Some(Entry(id, cycles.state.records[id])) else None;
      var loaded := CycleRecords(records.state, id);
      var newest := (e: Entry<Vaccination>) => -VaccinationDateKey(e, timeOf);
      vaccinations := SortedCopy(loaded, newest);
      NegatedKeyDescending(vaccinations, ByVaccinationDate(timeOf));
      BandsInKeyOrder(loaded, vaccinations, ByVaccinationDate(timeOf), newest);
    }

    /** `handleVaccinationSubmit`: the form's record is added to the store;
        once it is stored the view is reloaded and lists it. */
    method HandleVaccinationSubmit(form: VaccinationForm, now: string, cycles: Table<Cycle>,
                                   records: Table<Vaccination>, timeOf: TimeOf) returns (r: Result<nat>)
      requires cycle.Some?
      requires cycles.state.Valid() && records.state.Valid()
      modifies this, records
      ensures (records.state, r) == old(records.state).Add(FormRecord(old(cycle).value.id, form, now))
      ensures r.Err? ==> cycle == old(cycle) && vaccinations == old(vaccinations)
      ensures r.Ok? ==> Entry(r.value, FormRecord(old(cycle).value.id, form, now)) in vaccinations
      ensures r.Ok? ==> Shows(old(cycle).value.id, cycles.state, records.state, timeOf)
    {
      var cycleId := cycle.value.id;
      var record := FormRecord(cycleId, form, now);
      r := records.Add(record);
      if r.Ok? {
        assert r.value in records.state.records && records.state.records[r.value] == record;
        assert Entry(r.value, record) in CycleRecords(records.state, cycleId);
        Init(Some(cycleId), cycles, records, timeOf);
        assert Entry(r.value, record) in multiset(CycleRecords(records.state, cycleId));
      }
    }

    /** `deleteVaccination(id)` once confirmed: the record leaves the store
        and the reloaded view. */
    method DeleteVaccination(id: nat, cycles: Table<Cycle>, records: Table<Vaccination>, timeOf: TimeOf)
      requires cycle.Some?
      requires cycles.state.Valid() && records.state.Valid()
      modifies this, records
      ensures records.state == old(records.state).Delete(id)
      ensures forall i :: 0 <= i < |vaccinations| ==> vaccinations[i].id != id
      ensures forall i :: 0 <= i < |vaccinations| ==> OfCycle(vaccinations[i].value, old(cycle).value.id)
      ensures Shows(old(cycle).value.id, cycles.state, records.state, timeOf)
    {
      var cycleId := cycle.value.id;
      records.Delete(id);
      Init(Some(cycleId), cycles, records, timeOf);
      var loaded := CycleRecords(records.state, cycleId);
      forall i | 0 <= i < |vaccinations|
        ensures vaccinations[i].id != id && OfCycle(vaccinations[i].value, cycleId)
      {
        assert vaccinations[i] in multiset(loaded);
      }
    }
  }
}
