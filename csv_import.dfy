/** The four CSV imports of the import/export handler (`importProductionLogs`,
    `importSales`, `importExpenses`, `importFeedLogs`). Each parses the text,
    loads the cycles (and, for production logs, the cages) into lookup
    objects keyed by name and by id, then takes the rows one at a time:
    find the row's cycle (and cage) in the lookup or create it, then add the
    row's record. A row whose store call fails is reported as an error and
    the next row is tried; what the failed row had already created stays.
    The clock is the parameter `now`, the text `new Date().toISOString()`
    gives. */
module CsvImport {
  import opened Common
  import opened Strings
  import opened Numbers
  import opened Records
  import opened Store
  import opened Csv

  // ---------------------------------------------------------------- cells

  /** `row.key`: the cell under a header, or `undefined` without that header. */
  function At(row: Row, key: string): (r: Option<string>)
    ensures r.Some? <==> key in row
    ensures r.Some? ==> r.value == row[key]
  {
    if key in row then Some(row[key]) else None
  }

  /** A cell that is truthy: present and not the empty string. */
  predicate Filled(a: Option<string>)
  {
    a.Some? && a.value != ""
  }

  /** `a || b` on cells. */
  function Or(a: Option<string>, b: Option<string>): (r: Option<string>)
    ensures Filled(a) ==> r == a
    ensures !Filled(a) ==> r == b
  {
    if Filled(a) then a else b
  }

  /** `a || 'text'`. */
  function OrText(a: Option<string>, d: string): (r: string)
    ensures Filled(a) ==> r == a.value
    ensures !Filled(a) ==> r == d
  {
    if Filled(a) then a.value else d
  }

  /** The property key JavaScript uses for a value: the string itself, and
      `"undefined"` for `undefined`. */
  function KeyText(x: Option<string>): (r: string)
    ensures x.Some? ==> r == x.value
    ensures x.None? ==> r == "undefined"
  {
    if x.Some? then x.value else "undefined"
  }

  /** `parseInt(cell) || 0`. */
  function IntCell(a: Option<string>): int
  {
    IntOr(ParseIntOf(a), 0)
  }

  /** `parseFloat(cell) || 0`. */
  function RealCell(a: Option<string>): real
  {
    RealOr(ParseFloatOf(a), 0.0)
  }

  // ---------------------------------------------------------------- lookup objects

  /** The lookup object built from loaded records: in load order, each
      record's name, then its id as text, set to its id, a later assignment
      to the same key replacing an earlier one. */
  function KeyMap<T>(entries: seq<Entry<T>>, name: T -> Option<string>): map<string, nat>
  {
    if |entries| == 0 then map[]
    else
      var n := |entries| - 1;
      var e := entries[n];
      KeyMap(entries[..n], name)[KeyText(name(e.value)) := e.id][NatToString(e.id) := e.id]
  }

  /** `records.forEach(r => { map[r.name] = r.id; map[r.id] = r.id; })`. */
  method BuildKeyMap<T>(entries: seq<Entry<T>>, name: T -> Option<string>) returns (m: map<string, nat>)
    ensures m == KeyMap(entries, name)
  {
    m := map[];
    var i := 0;
    while i < |entries|
      invariant 0 <= i <= |entries|
      invariant m == KeyMap(entries[..i], name)
    {
      assert entries[..i + 1][..i] == entries[..i];
      m := m[KeyText(name(entries[i].value)) := entries[i].id];
      m := m[NatToString(entries[i].id) := entries[i].id];
      i := i + 1;
    }
    assert entries[..i] == entries;
  }

  /** Every record's name and id text are keys of the lookup object. */
  lemma {:induction false} KeyMapHasKeys<T>(entries: seq<Entry<T>>, name: T -> Option<string>)
    ensures forall i :: 0 <= i < |entries| ==>
      KeyText(name(entries[i].value)) in KeyMap(entries, name) && NatToString(entries[i].id) in KeyMap(entries, name)
  {
    if |entries| > 0 {
      var n := |entries| - 1;
      KeyMapHasKeys(entries[..n], name);
      assert forall i :: 0 <= i < n ==> entries[..n][i] == entries[i];
    }
  }

  /** Each key of the lookup object is the name or the id text of a record,
      and leads to that record's id. */
  lemma {:induction false} KeyMapValues<T>(entries: seq<Entry<T>>, name: T -> Option<string>, k: string)
    requires k in KeyMap(entries, name)
    ensures exists i :: (0 <= i < |entries| && KeyMap(entries, name)[k] == entries[i].id &&
      (k == KeyText(name(entries[i].value)) || k == NatToString(entries[i].id)))
  {
    var n := |entries| - 1;
    var e := entries[n];
    if k == KeyText(name(e.value)) || k == NatToString(e.id) {
      assert KeyMap(entries, name)[k] == e.id;
    } else {
      KeyMapValues(entries[..n], name, k);
      var i :| 0 <= i < n && KeyMap(entries[..n], name)[k] == entries[..n][i].id &&
        (k == KeyText(name(entries[..n][i].value)) || k == NatToString(entries[..n][i].id));
      assert entries[..n][i] == entries[i];
    }
  }

  /** The last record loaded owns both of its keys. */
  lemma KeyMapLast<T>(entries: seq<Entry<T>>, name: T -> Option<string>)
    requires |entries| > 0
    ensures var e := entries[|entries| - 1];
      KeyMap(entries, name)[NatToString(e.id)] == e.id && KeyMap(entries, name)[KeyText(name(e.value))] == e.id
  {
  }

  /** No key leads to 0. */
  ghost predicate NonZero(m: map<string, nat>)
  {
    forall k :: k in m ==> m[k] != 0
  }

  /** A lookup object built from records whose ids are positive leads to positive ids only. */
  lemma KeyMapNonZero<T>(entries: seq<Entry<T>>, name: T -> Option<string>)
    requires forall i :: 0 <= i < |entries| ==> entries[i].id != 0
    ensures NonZero(KeyMap(entries, name))
  {
    forall k | k in KeyMap(entries, name) ensures KeyMap(entries, name)[k] != 0 {
      KeyMapValues(entries, name, k);
    }
  }

  // ---------------------------------------------------------------- rows

  /** The note every record the import creates carries. */
  const AutoNote: string := "Auto-created from CSV import"

  /** The capacity of an imported cage. */
  const ImportedCapacity: int := 500

  /** `new Date().toISOString().split('T')[0]`: the date part of the clock text. */
  function DatePart(now: string): string
  {
    Split(now, 'T')[0]
  }

  /** `row.Cycle || row.cycleId`. */
  function CycleName(row: Row): Option<string>
  {
    Or(At(row, "Cycle"), At(row, "cycleId"))
  }

  /** `row.Cage || row.cageId`. */
  function CageName(row: Row): Option<string>
  {
    Or(At(row, "Cage"), At(row, "cageId"))
  }

  /** `row.Date || row.date`. */
  function DateOf(row: Row): Option<string>
  {
    Or(At(row, "Date"), At(row, "date"))
  }

  /** `row.Notes || row.notes || ''`. */
  function NotesOf(row: Row): string
  {
    OrText(Or(At(row, "Notes"), At(row, "notes")), "")
  }

  /** The cycle created for a row whose cycle is not found. */
  function NewCycle(row: Row, now: string): (r: Cycle)
    ensures r.name == CycleName(row) && r.status == "active" && r.notes == AutoNote && r.endDate.None?
    ensures r.startDate == Some(if Filled(At(row, "Date")) then row["Date"] else DatePart(now))
  {
    Cycle(CycleName(row), Some(OrText(At(row, "Date"), DatePart(now))), None, "active", AutoNote, now)
  }

  /** The cage created for a row whose cage is not found. */
  function NewCage(row: Row, cycleId: nat, now: string): (r: Cage)
    ensures r.name == CageName(row) && r.cycleId == cycleId && r.capacity == ImportedCapacity
    ensures r.currentBirds == Some(IntCell(Or(At(row, "Opening_Birds"), At(row, "openingBirds"))))
    ensures r.breed == "Mixed" && r.status == "active" && r.notes == AutoNote
  {
    Cage(CageName(row), cycleId, ImportedCapacity,
      Some(IntCell(Or(At(row, "Opening_Birds"), At(row, "openingBirds")))),
      "Mixed", "active", AutoNote, now, None, None, None, None)
  }

  /** The production log of a row. */
  function ProductionLogOf(row: Row, cycleId: nat, cageId: nat, now: string): (r: ProductionLog)
    ensures r.cycleId == cycleId && r.cageId == cageId && r.date == DateOf(row)
    ensures r.closingBirds == Some(IntCell(Or(At(row, "Closing_Birds"), At(row, "closingBirds"))))
  {
    ProductionLog(
      cageId, cycleId, DateOf(row),
      None,
      Some(IntCell(Or(At(row, "Flock_Age_Days"), At(row, "flockAgeDays")))),
      Some(IntCell(Or(At(row, "Opening_Birds"), At(row, "openingBirds")))),
      Some(IntCell(Or(At(row, "Mortality"), At(row, "mortality")))),
      Some(IntCell(Or(At(row, "Birds_Sold"), At(row, "birdsSold")))),
      None, None,
      Some(IntCell(Or(At(row, "Eggs_Produced"), At(row, "eggsProduced")))),
      Some(IntCell(Or(At(row, "Closing_Birds"), At(row, "closingBirds")))),
      None,
      Some(RealCell(Or(At(row, "Production_Percentage"), At(row, "productionPercentage")))),
      None,
      NotesOf(row), now, None)
  }

  /** The sale of a row: the crate fields for an egg sale, the bird fields
      for a bird sale, neither for any other sale type. */
  function SaleOf(row: Row, cycleId: nat, now: string): (r: Sale)
    ensures r.cycleId == cycleId && r.saleType.Some?
    ensures r.crates.Some? <==> r.saleType == Some("egg")
    ensures r.birdQuantity.Some? <==> r.saleType == Some("bird")
  {
    var saleType := OrText(Or(At(row, "Sale_Type"), At(row, "saleType")), "egg");
    var egg := saleType == "egg";
    var bird := saleType == "bird";
    Sale(
      cycleId, DateOf(row), Some(saleType),
      OrText(Or(At(row, "Customer"), At(row, "customer")), ""),
      if egg then Some(IntCell(Or(At(row, "Crates"), At(row, "crates"))) as real) else None,
      if egg then Some(RealCell(Or(At(row, "Price_Per_Crate"), At(row, "pricePerCrate")))) else None,
      Some(RealCell(Or(At(row, "Total_Amount"), At(row, "amount")))),
      if bird then Some(IntCell(Or(At(row, "Bird_Quantity"), At(row, "birdQuantity")))) else None,
      if bird then Some(RealCell(Or(At(row, "Price_Per_Bird"), At(row, "pricePerBird")))) else None,
      if bird then Some(RealCell(Or(At(row, "Weight_Kg"), At(row, "weight")))) else None,
      None, None, None,
      OrText(Or(At(row, "Payment_Method"), At(row, "paymentMethod")), "cash"),
      NotesOf(row), now)
  }

  /** The expense of a row. */
  function ExpenseOf(row: Row, cycleId: nat, now: string): (r: Expense)
    ensures r.cycleId == cycleId && r.date == DateOf(row)
  {
    Expense(
      cycleId, DateOf(row),
      OrText(Or(At(row, "Category"), At(row, "category")), "other"),
      OrText(Or(At(row, "Description"), At(row, "description")), ""),
      RealCell(Or(At(row, "Amount"), At(row, "amount"))),
      OrText(Or(At(row, "Payment_Method"), At(row, "paymentMethod")), "cash"),
      NotesOf(row), now)
  }

  /** The feed log of a row; imported feed logs belong to no cage. */
  function FeedLogOf(row: Row, cycleId: nat, now: string): (r: FeedLog)
    ensures r.cycleId == cycleId && r.cageId.None? && r.date == DateOf(row)
  {
    FeedLog(
      None, cycleId, DateOf(row),
      Some(RealCell(Or(Or(At(row, "Feed_Consumed_Kg"), At(row, "feedConsumed")), At(row, "amount")))),
      Some(RealCell(Or(Or(At(row, "Feed_Cost"), At(row, "feedCost")), At(row, "cost")))),
      Some(NotesOf(row)), now, None)
  }

  /** The record builders of the three imports that resolve only a cycle. */
  function SaleMaker(now: string): (Row, nat) -> Sale
  {
    (row: Row, id: nat) => SaleOf(row, id, now)
  }

  function ExpenseMaker(now: string): (Row, nat) -> Expense
  {
    (row: Row, id: nat) => ExpenseOf(row, id, now)
  }

  function FeedLogMaker(now: string): (Row, nat) -> FeedLog
  {
    (row: Row, id: nat) => FeedLogOf(row, id, now)
  }

  // ---------------------------------------------------------------- the import loop

  /** The accumulator `{success, errors, newCycles, newCages}`; the imports
      other than production logs leave `newCages` at 0. */
  datatype ImportResult = ImportResult(success: nat, errors: seq<string>, newCycles: nat, newCages: nat)

  /** The error line of the row at position `i` of the parsed data (the
      header is line 1, so the row is line `i + 2`). */
  function RowError(i: nat, message: string): (r: string)
    ensures StartsWith(r, "Row " + NatToString(i + 2) + ": ")
  {
    "Row " + NatToString(i + 2) + ": " + message
  }

  /** Everything an import changes: the stores it writes, the lookup
      objects and the accumulator. */
  datatype Progress<T> = Progress(
    cycles: TableState<Cycle>,
    cages: TableState<Cage>,
    records: TableState<T>,
    cycleMap: map<string, nat>,
    cageMap: map<string, nat>,
    result: ImportResult)
  {
    ghost predicate Valid()
    {
      cycles.Valid() && cages.Valid() && records.Valid()
    }
  }

  /** The state before the first row: the lookup objects of the loaded
      cycles and cages, and an empty accumulator. */
  function Start<T>(cycles: TableState<Cycle>, cages: TableState<Cage>, records: TableState<T>): (p: Progress<T>)
    requires cycles.Valid() && cages.Valid() && records.Valid()
    ensures p.Valid() && p.result == ImportResult(0, [], 0, 0)
    ensures p.cycles == cycles && p.cages == cages && p.records == records
  {
    Progress(cycles, cages, records,
      KeyMap(cycles.Where(_ => true), (c: Cycle) => c.name),
      KeyMap(cages.Where(_ => true), (c: Cage) => c.name),
      ImportResult(0, [], 0, 0))
  }

  /** The row at position `i` failed with `message`. */
  function Fail<T>(p: Progress<T>, i: nat, message: string): (r: Progress<T>)
    ensures r == p.(result := p.result.(errors := p.result.errors + [RowError(i, message)]))
  {
    p.(result := p.result.(errors := p.result.errors + [RowError(i, message)]))
  }

  /** `let cycleId = cycleMap[name]; if (!cycleId) { create; cycleMap[name] = cycleId; newCycles++ }`. */
  function ResolveCycle<T>(p: Progress<T>, row: Row, now: string): (r: (Progress<T>, Result<nat>))
    requires p.Valid()
    ensures r.0.Valid()
    ensures r.0.cages == p.cages && r.0.records == p.records && r.0.cageMap == p.cageMap
    ensures r.1.Ok? ==> r.1.value != 0
  {
    var key := KeyText(CycleName(row));
    if key in p.cycleMap && p.cycleMap[key] != 0 then (p, Ok(p.cycleMap[key]))
    else
      var added := p.cycles.Add(NewCycle(row, now));
      if added.1.Ok? then
        (p.(cycles := added.0, cycleMap := p.cycleMap[key := added.1.value],
            result := p.result.(newCycles := p.result.newCycles + 1)), added.1)
      else (p, added.1)
  }

  /** The same for the cage, in the one lookup object of all cages. */
  function ResolveCage<T>(p: Progress<T>, row: Row, cycleId: nat, now: string): (r: (Progress<T>, Result<nat>))
    requires p.Valid()
    ensures r.0.Valid()
    ensures r.0.cycles == p.cycles && r.0.records == p.records && r.0.cycleMap == p.cycleMap
    ensures r.1.Ok? ==> r.1.value != 0
  {
    var key := KeyText(CageName(row));
    if key in p.cageMap && p.cageMap[key] != 0 then (p, Ok(p.cageMap[key]))
    else
      var added := p.cages.Add(NewCage(row, cycleId, now));
      if added.1.Ok? then
        (p.(cages := added.0, cageMap := p.cageMap[key := added.1.value],
            result := p.result.(newCages := p.result.newCages + 1)), added.1)
      else (p, added.1)
  }

  /** Adds the record of a row; a success counts, a failure is the row's error. */
  function AddRecord<T>(p: Progress<T>, i: nat, value: T): (r: Progress<T>)
    requires p.Valid()
    ensures r.Valid()
    ensures r.cycles == p.cycles && r.cages == p.cages && r.cycleMap == p.cycleMap && r.cageMap == p.cageMap
  {
    var added := p.records.Add(value);
    if added.1.Ok? then p.(records := added.0, result := p.result.(success := p.result.success + 1))
    else Fail(p, i, added.1.message)
  }

  /** One row of `importSales`, `importExpenses` or `importFeedLogs`; `make`
      builds the record from the row and its cycle's id. */
  function CycleRow<T>(p: Progress<T>, i: nat, row: Row, now: string, make: (Row, nat) -> T): (r: Progress<T>)
    requires p.Valid()
    ensures r.Valid()
  {
    var c := ResolveCycle(p, row, now);
    if c.1.Err? then Fail(c.0, i, c.1.message)
    else AddRecord(c.0, i, make(row, c.1.value))
  }

  /** One row of `importProductionLogs`. */
  function ProductionRow(p: Progress<ProductionLog>, i: nat, row: Row, now: string): (r: Progress<ProductionLog>)
    requires p.Valid()
    ensures r.Valid()
  {
    var c := ResolveCycle(p, row, now);
    if c.1.Err? then Fail(c.0, i, c.1.message)
    else CageAndLog(c.0, i, row, c.1.value, now)
  }

  /** The rest of a production row once its cycle is known. */
  function CageAndLog(p: Progress<ProductionLog>, i: nat, row: Row, cycleId: nat, now: string): (r: Progress<ProductionLog>)
    requires p.Valid()
    ensures r.Valid()
    ensures r.cycles == p.cycles && r.cycleMap == p.cycleMap
  {
    var g := ResolveCage(p, row, cycleId, now);
    if g.1.Err? then Fail(g.0, i, g.1.message)
    else AddRecord(g.0, i, ProductionLogOf(row, cycleId, g.1.value, now))
  }

  /** The state after the rows `rows`, taken in order from `p`. */
  function CycleRows<T>(p: Progress<T>, rows: seq<Row>, now: string, make: (Row, nat) -> T): (r: Progress<T>)
    requires p.Valid()
    ensures r.Valid()
  {
    if |rows| == 0 then p
    else
      var n := |rows| - 1;
      CycleRow(CycleRows(p, rows[..n], now, make), n, rows[n], now, make)
  }

  /** The state after the production rows `rows`, taken in order from `p`. */
  function ProductionRows(p: Progress<ProductionLog>, rows: seq<Row>, now: string): (r: Progress<ProductionLog>)
    requires p.Valid()
    ensures r.Valid()
  {
    if |rows| == 0 then p
    else
      var n := |rows| - 1;
      ProductionRow(ProductionRows(p, rows[..n], now), n, rows[n], now)
  }

  /** `importProductionLogs(text)`, as a function of the stores before it. */
  function ProductionImport(cycles: TableState<Cycle>, cages: TableState<Cage>, logs: TableState<ProductionLog>,
                            text: string, now: string): Progress<ProductionLog>
    requires cycles.Valid() && cages.Valid() && logs.Valid()
  {
    ProductionRows(Start(cycles, cages, logs), ParsedCsv(text), now)
  }

  /** `importSales`, `importExpenses` or `importFeedLogs`, as a function of the stores before it. */
  function CycleImport<T>(cycles: TableState<Cycle>, records: TableState<T>, text: string, now: string,
                          make: (Row, nat) -> T): Progress<T>
    requires cycles.Valid() && records.Valid()
  {
    CycleRows(Start(cycles, Empty(0), records), ParsedCsv(text), now, make)
  }

  // ---------------------------------------------------------------- the methods

  /** The loop of `importSales`, `importExpenses` and `importFeedLogs` over
      parsed rows, writing to the cycle store and to `target`. */
  method ImportCycleRows<T>(cycles: Table<Cycle>, target: Table<T>, rows: seq<Row>, now: string,
                            make: (Row, nat) -> T) returns (result: ImportResult)
    requires cycles as object != target as object
    requires cycles.state.Valid() && target.state.Valid()
    modifies cycles, target
    ensures var p := CycleRows(Start(old(cycles.state), Empty(0), old(target.state)), rows, now, make);
      cycles.state == p.cycles && target.state == p.records && result == p.result
  {
    ghost var p0 := Start(cycles.state, Empty(0), target.state);
    var cycleMap := BuildKeyMap(cycles.state.Where(_ => true), (c: Cycle) => c.name);
    result := ImportResult(0, [], 0, 0);
    var i := 0;
    while i < |rows|
      invariant 0 <= i <= |rows|
      invariant var p := CycleRows(p0, rows[..i], now, make);
        cycles.state == p.cycles && target.state == p.records && cycleMap == p.cycleMap && result == p.result
        && p.cages == p0.cages && p.cageMap == p0.cageMap
    {
      assert rows[..i + 1][..i] == rows[..i];
      cycleMap, result := ImportCycleRow(cycles, target, cycleMap, result, p0.cages, p0.cageMap, i, rows[i], now, make);
      i := i + 1;
    }
    assert rows[..i] == rows;
  }

  /** One pass of that loop: the row at position `i`. */
  method ImportCycleRow<T>(cycles: Table<Cycle>, target: Table<T>, cycleMap: map<string, nat>, result: ImportResult,
                           ghost cages: TableState<Cage>, ghost cageMap: map<string, nat>,
                           i: nat, row: Row, now: string, make: (Row, nat) -> T)
    returns (nextMap: map<string, nat>, next: ImportResult)
    requires cycles as object != target as object
    requires cycles.state.Valid() && target.state.Valid() && cages.Valid()
    modifies cycles, target
    ensures var p := CycleRow(Progress(old(cycles.state), cages, old(target.state), cycleMap, cageMap, result), i, row, now, make);
      cycles.state == p.cycles && target.state == p.records && nextMap == p.cycleMap && next == p.result
      && p.cages == cages && p.cageMap == cageMap
  {
    ghost var p := Progress(cycles.state, cages, target.state, cycleMap, cageMap, result);
    var cycleId;
    cycleId, nextMap, next := ResolveCycleIn(cycles, p, cycleMap, result, row, now);
    if cycleId.Err? {
      next := next.(errors := next.errors + [RowError(i, cycleId.message)]);
    } else {
      ghost var q := ResolveCycle(p, row, now).0;
      next := AddRecordIn(target, q, next, i, make(row, cycleId.value));
    }
  }

  /** The cycle lookup of one row, with the creation of a missing cycle. */
  method ResolveCycleIn<T>(cycles: Table<Cycle>, ghost p: Progress<T>, cycleMap: map<string, nat>, result: ImportResult,
                           row: Row, now: string)
    returns (cycleId: Result<nat>, nextMap: map<string, nat>, next: ImportResult)
    requires p.Valid() && p.cycles == cycles.state && p.cycleMap == cycleMap && p.result == result
    modifies cycles
    ensures var c := ResolveCycle(p, row, now);
      cycleId == c.1 && cycles.state == c.0.cycles && nextMap == c.0.cycleMap && next == c.0.result
  {
    nextMap, next := cycleMap, result;
    var key := KeyText(CycleName(row));
    if key in cycleMap && cycleMap[key] != 0 {
      cycleId := Ok(cycleMap[key]);
    } else {
      cycleId := cycles.Add(NewCycle(row, now));
      if cycleId.Ok? {
        nextMap := cycleMap[key := cycleId.value];
        next := next.(newCycles := next.newCycles + 1);
      }
    }
  }

  /** The cage lookup of one production row, with the creation of a missing cage. */
  method ResolveCageIn(cages: Table<Cage>, ghost p: Progress<ProductionLog>, cageMap: map<string, nat>, result: ImportResult,
                       row: Row, cycleId: nat, now: string)
    returns (cageId: Result<nat>, nextMap: map<string, nat>, next: ImportResult)
    requires p.Valid() && p.cages == cages.state && p.cageMap == cageMap && p.result == result
    modifies cages
    ensures var c := ResolveCage(p, row, cycleId, now);
      cageId == c.1 && cages.state == c.0.cages && nextMap == c.0.cageMap && next == c.0.result
  {
    nextMap, next := cageMap, result;
    var key := KeyText(CageName(row));
    if key in cageMap && cageMap[key] != 0 {
      cageId := Ok(cageMap[key]);
    } else {
      cageId := cages.Add(NewCage(row, cycleId, now));
      if cageId.Ok? {
        nextMap := cageMap[key := cageId.value];
        next := next.(newCages := next.newCages + 1);
      }
    }
  }

  /** The record of one row added to its store. */
  method AddRecordIn<T>(target: Table<T>, ghost p: Progress<T>, result: ImportResult, i: nat, value: T)
    returns (next: ImportResult)
    requires p.Valid() && p.records == target.state && p.result == result
    modifies target
    ensures var q := AddRecord(p, i, value);
      target.state == q.records && next == q.result
  {
    var stored := target.Add(value);
    if stored.Ok? {
      next := result.(success := result.success + 1);
    } else {
      next := result.(errors := result.errors + [RowError(i, stored.message)]);
    }
  }

  /** The loop of `importProductionLogs` over parsed rows. */
  method ImportProductionRows(cycles: Table<Cycle>, cages: Table<Cage>, logs: Table<ProductionLog>,
                              rows: seq<Row>, now: string) returns (result: ImportResult)
    requires cycles.state.Valid() && cages.state.Valid() && logs.state.Valid()
    modifies cycles, cages, logs
    ensures var p := ProductionRows(Start(old(cycles.state), old(cages.state), old(logs.state)), rows, now);
      cycles.state == p.cycles && cages.state == p.cages && logs.state == p.records && result == p.result
  {
    ghost var p0 := Start(cycles.state, cages.state, logs.state);
    var cycleMap := BuildKeyMap(cycles.state.Where(_ => true), (c: Cycle) => c.name);
    var cageMap := BuildKeyMap(cages.state.Where(_ => true), (c: Cage) => c.name);
    result := ImportResult(0, [], 0, 0);
    var i := 0;
    while i < |rows|
      invariant 0 <= i <= |rows|
      invariant var p := ProductionRows(p0, rows[..i], now);
        cycles.state == p.cycles && cages.state == p.cages && logs.state == p.records
        && cycleMap == p.cycleMap && cageMap == p.cageMap && result == p.result
    {
      assert rows[..i + 1][..i] == rows[..i];
      cycleMap, cageMap, result := ImportProductionRow(cycles, cages, logs, cycleMap, cageMap, result, i, rows[i], now);
      i := i + 1;
    }
    assert rows[..i] == rows;
  }

  /** One pass of that loop: the row at position `i`. */
  method ImportProductionRow(cycles: Table<Cycle>, cages: Table<Cage>, logs: Table<ProductionLog>,
                             cycleMap: map<string, nat>, cageMap: map<string, nat>, result: ImportResult,
                             i: nat, row: Row, now: string)
    returns (nextCycles: map<string, nat>, nextCages: map<string, nat>, next: ImportResult)
    requires cycles.state.Valid() && cages.state.Valid() && logs.state.Valid()
    modifies cycles, cages, logs
    ensures var p := ProductionRow(Progress(old(cycles.state), old(cages.state), old(logs.state), cycleMap, cageMap, result), i, row, now);
      cycles.state == p.cycles && cages.state == p.cages && logs.state == p.records
      && nextCycles == p.cycleMap && nextCages == p.cageMap && next == p.result
  {
    ghost var p := Progress(cycles.state, cages.state, logs.state, cycleMap, cageMap, result);
    ghost var c := ResolveCycle(p, row, now);
    nextCages := cageMap;
    var cycleId;
    cycleId, nextCycles, next := ResolveCycleIn(cycles, p, cycleMap, result, row, now);
    if cycleId.Err? {
      next := next.(errors := next.errors + [RowError(i, cycleId.message)]);
      assert ProductionRow(p, i, row, now) == Fail(c.0, i, c.1.message);
    } else {
      nextCages, next := CageAndLogIn(cages, logs, c.0, cageMap, next, i, row, cycleId.value, now);
      assert ProductionRow(p, i, row, now) == CageAndLog(c.0, i, row, c.1.value, now);
    }
  }

  /** The rest of one pass once the row's cycle is known. */
  method CageAndLogIn(cages: Table<Cage>, logs: Table<ProductionLog>, ghost p: Progress<ProductionLog>,
                      cageMap: map<string, nat>, result: ImportResult, i: nat, row: Row, cycleId: nat, now: string)
    returns (nextCages: map<string, nat>, next: ImportResult)
    requires p.Valid() && p.cages == cages.state && p.records == logs.state && p.cageMap == cageMap && p.result == result
    modifies cages, logs
    ensures var q := CageAndLog(p, i, row, cycleId, now);
      cages.state == q.cages && logs.state == q.records && nextCages == q.cageMap && next == q.result
  {
    var cageId;
    cageId, nextCages, next := ResolveCageIn(cages, p, cageMap, result, row, cycleId, now);
    if cageId.Err? {
      next := next.(errors := next.errors + [RowError(i, cageId.message)]);
    } else {
      ghost var g := ResolveCage(p, row, cycleId, now).0;
      next := AddRecordIn(logs, g, next, i, ProductionLogOf(row, cycleId, cageId.value, now));
    }
  }

  /** `importProductionLogs(text)` on the database. */
  method ImportProductionLogs(db: Database, text: string, now: string) returns (result: ImportResult)
    requires db.Valid()
    modifies db.cycles, db.cages, db.productionLogs
    ensures var p := ProductionImport(old(db.cycles.state), old(db.cages.state), old(db.productionLogs.state), text, now);
      db.cycles.state == p.cycles && db.cages.state == p.cages && db.productionLogs.state == p.records && result == p.result
  {
    var data := ParseCsv(text);
    result := ImportProductionRows(db.cycles, db.cages, db.productionLogs, data, now);
  }

  /** `importSales(text)` on the database. */
  method ImportSales(db: Database, text: string, now: string) returns (result: ImportResult)
    requires db.Valid()
    modifies db.cycles, db.sales
    ensures var p := CycleImport(old(db.cycles.state), old(db.sales.state), text, now, SaleMaker(now));
      db.cycles.state == p.cycles && db.sales.state == p.records && result == p.result
  {
    var data := ParseCsv(text);
    result := ImportCycleRows(db.cycles, db.sales, data, now, SaleMaker(now));
  }

  /** `importExpenses(text)` on the database. */
  method ImportExpenses(db: Database, text: string, now: string) returns (result: ImportResult)
    requires db.Valid()
    modifies db.cycles, db.expenses
    ensures var p := CycleImport(old(db.cycles.state), old(db.expenses.state), text, now, ExpenseMaker(now));
      db.cycles.state == p.cycles && db.expenses.state == p.records && result == p.result
  {
    var data := ParseCsv(text);
    result := ImportCycleRows(db.cycles, db.expenses, data, now, ExpenseMaker(now));
  }

  /** `importFeedLogs(text)` on the database. */
  method ImportFeedLogs(db: Database, text: string, now: string) returns (result: ImportResult)
    requires db.Valid()
    modifies db.cycles, db.feedLogs
    ensures var p := CycleImport(old(db.cycles.state), old(db.feedLogs.state), text, now, FeedLogMaker(now));
      db.cycles.state == p.cycles && db.feedLogs.state == p.records && result == p.result
  {
    var data := ParseCsv(text);
    result := ImportCycleRows(db.cycles, db.feedLogs, data, now, FeedLogMaker(now));
  }

  // ---------------------------------------------------------------- what an import counts

  /** The lookup keys of the rows' cycles. */
  function CycleKeys(rows: seq<Row>): set<string>
  {
    if |rows| == 0 then {}
    else
      var n := |rows| - 1;
      CycleKeys(rows[..n]) + {KeyText(CycleName(rows[n]))}
  }

  /** They are the keys of the rows' cycle names, and no others. */
  lemma {:induction false} CycleKeysOfRows(rows: seq<Row>)
    ensures forall k :: 0 <= k < |rows| ==> KeyText(CycleName(rows[k])) in CycleKeys(rows)
    ensures forall key :: key in CycleKeys(rows) ==> exists k :: 0 <= k < |rows| && key == KeyText(CycleName(rows[k]))
  {
    if |rows| > 0 {
      var n := |rows| - 1;
      CycleKeysOfRows(rows[..n]);
      assert forall k :: 0 <= k < n ==> rows[..n][k] == rows[k];
    }
  }

  /** The lookup keys of the rows' cages. */
  function CageKeys(rows: seq<Row>): set<string>
  {
    if |rows| == 0 then {}
    else
      var n := |rows| - 1;
      CageKeys(rows[..n]) + {KeyText(CageName(rows[n]))}
  }

  /** They are the keys of the rows' cage names, and no others. */
  lemma {:induction false} CageKeysOfRows(rows: seq<Row>)
    ensures forall k :: 0 <= k < |rows| ==> KeyText(CageName(rows[k])) in CageKeys(rows)
    ensures forall key :: key in CageKeys(rows) ==> exists k :: 0 <= k < |rows| && key == KeyText(CageName(rows[k]))
  {
    if |rows| > 0 {
      var n := |rows| - 1;
      CageKeysOfRows(rows[..n]);
      assert forall k :: 0 <= k < n ==> rows[..n][k] == rows[k];
    }
  }

  /** From `m0` to `m` the lookup object only gained keys, all leading to
      positive ids, and the counter went up by the number of keys gained. */
  ghost predicate Grows(m0: map<string, nat>, n0: nat, m: map<string, nat>, n: nat)
  {
    NonZero(m) && m0.Keys <= m.Keys && n == n0 + |m.Keys - m0.Keys|
  }

  lemma GrowsTrans(m0: map<string, nat>, n0: nat, m1: map<string, nat>, n1: nat, m2: map<string, nat>, n2: nat)
    requires Grows(m0, n0, m1, n1) && Grows(m1, n1, m2, n2)
    ensures Grows(m0, n0, m2, n2)
  {
    assert m2.Keys - m0.Keys == (m1.Keys - m0.Keys) + (m2.Keys - m1.Keys);
    assert (m1.Keys - m0.Keys) * (m2.Keys - m1.Keys) == {};
  }

  /** Adding a key that is not there yet. */
  lemma GrowsByOne(m: map<string, nat>, n: nat, key: string, id: nat)
    requires NonZero(m) && key !in m && id != 0
    ensures Grows(m, n, m[key := id], n + 1)
  {
    assert m[key := id].Keys - m.Keys == {key};
  }

  /** Each of the rows at positions `lo` to `hi - 1` ended as one success,
      which stored one record, or as one error naming one of those rows. */
  ghost predicate Counted<T>(p: Progress<T>, r: Progress<T>, lo: nat, hi: nat)
  {
    && lo <= hi
    && r.result.success + |r.result.errors| == p.result.success + |p.result.errors| + (hi - lo)
    && p.result.success <= r.result.success
    && |r.records.records| == |p.records.records| + (r.result.success - p.result.success)
    && |p.result.errors| <= |r.result.errors| && r.result.errors[..|p.result.errors|] == p.result.errors
    && forall j :: |p.result.errors| <= j < |r.result.errors| ==> ErrorOfRow(r.result.errors[j], lo, hi)
  }

  /** `e` is the error line of one of the rows at positions `lo` to `hi - 1`. */
  ghost predicate ErrorOfRow(e: string, lo: nat, hi: nat)
  {
    exists k: nat, m: string :: lo <= k < hi && e == RowError(k, m)
  }

  /** What `n` rows with cycle keys `keys` did to the cycles: the lookup
      object gained only keys among `keys`, `newCycles` counts the keys
      gained, each created cycle took one slot of the store, and when the
      store had room for all of them every key is in the lookup object. */
  ghost predicate CyclesGrow<T>(p: Progress<T>, r: Progress<T>, keys: set<string>, n: nat)
  {
    Grows(p.cycleMap, p.result.newCycles, r.cycleMap, r.result.newCycles) && CycleKeysArrive(p, r, keys, n)
  }

  ghost predicate CycleKeysArrive<T>(p: Progress<T>, r: Progress<T>, keys: set<string>, n: nat)
  {
    && r.cycleMap.Keys <= p.cycleMap.Keys + keys
    && r.cycles.limit == p.cycles.limit && |r.cycles.records| <= |p.cycles.records| + n
    && (|p.cycles.records| + n <= p.cycles.limit ==> r.cycleMap.Keys == p.cycleMap.Keys + keys)
  }

  /** The same for the cages; a row's cage is looked up only once its cycle
      is, so all keys arrive when both stores have room. */
  ghost predicate CagesGrow<T>(p: Progress<T>, r: Progress<T>, keys: set<string>, n: nat)
  {
    Grows(p.cageMap, p.result.newCages, r.cageMap, r.result.newCages) && CageKeysArrive(p, r, keys, n)
  }

  ghost predicate CageKeysArrive<T>(p: Progress<T>, r: Progress<T>, keys: set<string>, n: nat)
  {
    && r.cageMap.Keys <= p.cageMap.Keys + keys
    && r.cages.limit == p.cages.limit && |r.cages.records| <= |p.cages.records| + n
    && (|p.cycles.records| + n <= p.cycles.limit && |p.cages.records| + n <= p.cages.limit ==>
          r.cageMap.Keys == p.cageMap.Keys + keys)
  }

  lemma CountedTrans<T>(p: Progress<T>, q: Progress<T>, r: Progress<T>, lo: nat, mid: nat, hi: nat)
    requires Counted(p, q, lo, mid) && Counted(q, r, mid, hi)
    ensures Counted(p, r, lo, hi)
  {
    var e := |p.result.errors|;
    assert q.result.errors[..e] == r.result.errors[..|q.result.errors|][..e];
    forall j | e <= j < |r.result.errors| ensures ErrorOfRow(r.result.errors[j], lo, hi) {
      if j < |q.result.errors| {
        assert r.result.errors[j] == q.result.errors[j];
        var k: nat, m: string :| lo <= k < mid && q.result.errors[j] == RowError(k, m);
        assert lo <= k < hi;
      } else {
        var k: nat, m: string :| mid <= k < hi && r.result.errors[j] == RowError(k, m);
        assert lo <= k < hi;
      }
    }
  }

  /** A cycle lookup. A key already in the lookup object is reused, with no
      write; a missing key creates one cycle, and the key then leads to it. */
  lemma ResolveCycleStep<T>(p: Progress<T>, row: Row, now: string)
    requires p.Valid() && NonZero(p.cycleMap)
    ensures var c := ResolveCycle(p, row, now); var key := KeyText(CycleName(row));
      && CyclesGrow(p, c.0, {key}, 1)
      && c.0.result.success == p.result.success && c.0.result.errors == p.result.errors
      && c.0.result.newCages == p.result.newCages && c.0.cages == p.cages && c.0.cageMap == p.cageMap
      && (key in p.cycleMap ==> c == (p, Ok(p.cycleMap[key])))
      && (c.1.Ok? <==> key in c.0.cycleMap) && (c.1.Ok? ==> c.0.cycleMap[key] == c.1.value)
  {
    ResolveCycleCounts(p, row, now);
    ResolveCycleArrives(p, row, now);
    ResolveCycleFinds(p, row, now);
  }

  lemma ResolveCycleArrives<T>(p: Progress<T>, row: Row, now: string)
    requires p.Valid() && NonZero(p.cycleMap)
    ensures CycleKeysArrive(p, ResolveCycle(p, row, now).0, {KeyText(CycleName(row))}, 1)
  {
  }

  lemma ResolveCycleCounts<T>(p: Progress<T>, row: Row, now: string)
    requires p.Valid() && NonZero(p.cycleMap)
    ensures var c := ResolveCycle(p, row, now).0;
      Grows(p.cycleMap, p.result.newCycles, c.cycleMap, c.result.newCycles)
  {
    var key := KeyText(CycleName(row));
    var c := ResolveCycle(p, row, now).0;
    if key in p.cycleMap && p.cycleMap[key] != 0 {
      assert c == p;
      GrowsNone(p.cycleMap, p.result.newCycles);
    } else {
      var added := p.cycles.Add(NewCycle(row, now));
      if added.1.Ok? {
        assert c.cycleMap == p.cycleMap[key := added.1.value];
        assert c.result.newCycles == p.result.newCycles + 1;
        GrowsByOne(p.cycleMap, p.result.newCycles, key, added.1.value);
      } else {
        assert c == p;
        GrowsNone(p.cycleMap, p.result.newCycles);
      }
    }
  }

  lemma ResolveCycleFinds<T>(p: Progress<T>, row: Row, now: string)
    requires p.Valid() && NonZero(p.cycleMap)
    ensures var c := ResolveCycle(p, row, now); var key := KeyText(CycleName(row));
      && c.0.result.success == p.result.success && c.0.result.errors == p.result.errors
      && c.0.result.newCages == p.result.newCages
      && (key in p.cycleMap ==> c == (p, Ok(p.cycleMap[key])))
      && (c.1.Ok? <==> key in c.0.cycleMap) && (c.1.Ok? ==> c.0.cycleMap[key] == c.1.value)
  {
  }

  /** A cage lookup: the same, in the lookup object of all cages, whatever
      the row's cycle. */
  lemma ResolveCageStep<T>(p: Progress<T>, row: Row, cycleId: nat, now: string)
    requires p.Valid() && NonZero(p.cageMap)
    ensures var c := ResolveCage(p, row, cycleId, now); var key := KeyText(CageName(row));
      && CagesGrow(p, c.0, {key}, 1)
      && c.0.result.success == p.result.success && c.0.result.errors == p.result.errors
      && c.0.result.newCycles == p.result.newCycles && c.0.cycles == p.cycles && c.0.cycleMap == p.cycleMap
      && (key in p.cageMap ==> c == (p, Ok(p.cageMap[key])))
      && (p.cages.HasRoom() ==> c.1.Ok?)
      && (c.1.Ok? <==> key in c.0.cageMap) && (c.1.Ok? ==> c.0.cageMap[key] == c.1.value)
  {
    ResolveCageGrows(p, row, cycleId, now);
    ResolveCageFinds(p, row, cycleId, now);
  }

  lemma ResolveCageGrows<T>(p: Progress<T>, row: Row, cycleId: nat, now: string)
    requires p.Valid() && NonZero(p.cageMap)
    ensures CagesGrow(p, ResolveCage(p, row, cycleId, now).0, {KeyText(CageName(row))}, 1)
  {
    ResolveCageCounts(p, row, cycleId, now);
    ResolveCageArrives(p, row, cycleId, now);
  }

  lemma ResolveCageArrives<T>(p: Progress<T>, row: Row, cycleId: nat, now: string)
    requires p.Valid() && NonZero(p.cageMap)
    ensures CageKeysArrive(p, ResolveCage(p, row, cycleId, now).0, {KeyText(CageName(row))}, 1)
  {
  }

  lemma ResolveCageCounts<T>(p: Progress<T>, row: Row, cycleId: nat, now: string)
    requires p.Valid() && NonZero(p.cageMap)
    ensures var c := ResolveCage(p, row, cycleId, now).0;
      Grows(p.cageMap, p.result.newCages, c.cageMap, c.result.newCages)
  {
    var key := KeyText(CageName(row));
    var c := ResolveCage(p, row, cycleId, now).0;
    if key in p.cageMap && p.cageMap[key] != 0 {
      assert c == p;
      GrowsNone(p.cageMap, p.result.newCages);
    } else {
      var added := p.cages.Add(NewCage(row, cycleId, now));
      if added.1.Ok? {
        assert c.cageMap == p.cageMap[key := added.1.value];
        assert c.result.newCages == p.result.newCages + 1;
        GrowsByOne(p.cageMap, p.result.newCages, key, added.1.value);
      } else {
        assert c == p;
        GrowsNone(p.cageMap, p.result.newCages);
      }
    }
  }

  lemma GrowsNone(m: map<string, nat>, n: nat)
    requires NonZero(m)
    ensures Grows(m, n, m, n)
  {
    assert m.Keys - m.Keys == {};
  }

  lemma ResolveCageFinds<T>(p: Progress<T>, row: Row, cycleId: nat, now: string)
    requires p.Valid() && NonZero(p.cageMap)
    ensures var c := ResolveCage(p, row, cycleId, now); var key := KeyText(CageName(row));
      && c.0.result.success == p.result.success && c.0.result.errors == p.result.errors
      && c.0.result.newCycles == p.result.newCycles
      && (key in p.cageMap ==> c == (p, Ok(p.cageMap[key])))
      && (p.cages.HasRoom() ==> c.1.Ok?)
      && (c.1.Ok? <==> key in c.0.cageMap) && (c.1.Ok? ==> c.0.cageMap[key] == c.1.value)
  {
  }

  /** Adding a row's record: one success and one stored record, or the row's error. */
  lemma AddRecordStep<T>(p: Progress<T>, i: nat, value: T)
    requires p.Valid()
    ensures var r := AddRecord(p, i, value);
      && r.cycles == p.cycles && r.cages == p.cages && r.cycleMap == p.cycleMap && r.cageMap == p.cageMap
      && r.result.newCycles == p.result.newCycles && r.result.newCages == p.result.newCages
      && ((r.result.success == p.result.success + 1 && r.result.errors == p.result.errors
           && |r.records.records| == |p.records.records| + 1)
        || (r.result.success == p.result.success && r.records == p.records
           && (exists m :: r.result.errors == p.result.errors + [RowError(i, m)])))
  {
  }

  lemma CyclesGrowTrans<T>(p: Progress<T>, q: Progress<T>, r: Progress<T>,
                           k1: set<string>, n1: nat, k2: set<string>, n2: nat)
    requires CyclesGrow(p, q, k1, n1) && CyclesGrow(q, r, k2, n2)
    ensures CyclesGrow(p, r, k1 + k2, n1 + n2)
  {
    GrowsTrans(p.cycleMap, p.result.newCycles, q.cycleMap, q.result.newCycles, r.cycleMap, r.result.newCycles);
    CycleKeysTrans(p, q, r, k1, n1, k2, n2);
  }

  lemma CycleKeysTrans<T>(p: Progress<T>, q: Progress<T>, r: Progress<T>,
                          k1: set<string>, n1: nat, k2: set<string>, n2: nat)
    requires CycleKeysArrive(p, q, k1, n1) && CycleKeysArrive(q, r, k2, n2)
    ensures CycleKeysArrive(p, r, k1 + k2, n1 + n2)
  {
  }

  lemma CagesGrowTrans<T>(p: Progress<T>, q: Progress<T>, r: Progress<T>,
                          k1: set<string>, n1: nat, k2: set<string>, n2: nat)
    requires CagesGrow(p, q, k1, n1) && CagesGrow(q, r, k2, n2)
    requires q.cycles.limit == p.cycles.limit && |q.cycles.records| <= |p.cycles.records| + n1
    ensures CagesGrow(p, r, k1 + k2, n1 + n2)
  {
    GrowsTrans(p.cageMap, p.result.newCages, q.cageMap, q.result.newCages, r.cageMap, r.result.newCages);
    CageKeysTrans(p, q, r, k1, n1, k2, n2);
  }

  lemma CageKeysTrans<T>(p: Progress<T>, q: Progress<T>, r: Progress<T>,
                         k1: set<string>, n1: nat, k2: set<string>, n2: nat)
    requires CageKeysArrive(p, q, k1, n1) && CageKeysArrive(q, r, k2, n2)
    requires q.cycles.limit == p.cycles.limit && |q.cycles.records| <= |p.cycles.records| + n1
    ensures CageKeysArrive(p, r, k1 + k2, n1 + n2)
  {
  }

  lemma CountAndCyclesTrans<T>(p: Progress<T>, q: Progress<T>, r: Progress<T>, n: nat, keys: set<string>, key: string)
    requires Counted(p, q, 0, n) && CyclesGrow(p, q, keys, n)
    requires Counted(q, r, n, n + 1) && CyclesGrow(q, r, {key}, 1)
    ensures Counted(p, r, 0, n + 1) && CyclesGrow(p, r, keys + {key}, n + 1)
  {
    CountedTrans(p, q, r, 0, n, n + 1);
    CyclesGrowTrans(p, q, r, keys, n, {key}, 1);
  }

  /** One row of `importSales`, `importExpenses` or `importFeedLogs`. */
  lemma CycleRowStep<T>(p: Progress<T>, i: nat, row: Row, now: string, make: (Row, nat) -> T)
    requires p.Valid() && NonZero(p.cycleMap)
    ensures var r := CycleRow(p, i, row, now, make);
      && Counted(p, r, i, i + 1) && CyclesGrow(p, r, {KeyText(CycleName(row))}, 1)
      && r.cages == p.cages && r.cageMap == p.cageMap && r.result.newCages == p.result.newCages
  {
    var c := ResolveCycle(p, row, now);
    ResolveCycleStep(p, row, now);
    var r := CycleRow(p, i, row, now, make);
    if c.1.Err? {
      assert r == Fail(c.0, i, c.1.message);
    } else {
      AddRecordStep(c.0, i, make(row, c.1.value));
      assert r == AddRecord(c.0, i, make(row, c.1.value));
    }
    StepCounted(p, c.0, r, i);
  }


  /** The rows of `importSales`, `importExpenses` or `importFeedLogs`, from any state. */
  lemma {:induction false} CycleRowsCount<T>(p: Progress<T>, rows: seq<Row>, now: string, make: (Row, nat) -> T)
    requires p.Valid() && NonZero(p.cycleMap)
    ensures CycleAccounted(p, rows, now, make)
  {
    if |rows| > 0 {
      CycleRowsCount(p, rows[..|rows| - 1], now, make);
      CycleRowsSnoc(p, rows, now, make);
    } else {
      assert p.result.errors[..|p.result.errors|] == p.result.errors;
    }
  }

  /** What the rows `rows` of `importSales`, `importExpenses` or
      `importFeedLogs` did from `p`: each row counted, the cycles grown by
      the rows' keys, the cages untouched. */
  ghost predicate CycleAccounted<T>(p: Progress<T>, rows: seq<Row>, now: string, make: (Row, nat) -> T)
    requires p.Valid()
  {
    var r := CycleRows(p, rows, now, make);
    && Counted(p, r, 0, |rows|) && CyclesGrow(p, r, CycleKeys(rows), |rows|)
    && r.cages == p.cages && r.cageMap == p.cageMap && r.result.newCages == p.result.newCages
  }

  /** One more row. */
  lemma CycleRowsSnoc<T>(p: Progress<T>, rows: seq<Row>, now: string, make: (Row, nat) -> T)
    requires p.Valid() && NonZero(p.cycleMap) && |rows| > 0
    requires CycleAccounted(p, rows[..|rows| - 1], now, make)
    ensures CycleAccounted(p, rows, now, make)
  {
    var n := |rows| - 1;
    var q := CycleRows(p, rows[..n], now, make);
    CycleRowStep(q, n, rows[n], now, make);
    var r := CycleRow(q, n, rows[n], now, make);
    assert CycleRows(p, rows, now, make) == r;
    assert CycleKeys(rows) == CycleKeys(rows[..n]) + {KeyText(CycleName(rows[n]))};
    CountAndCyclesTrans(p, q, r, n, CycleKeys(rows[..n]), KeyText(CycleName(rows[n])));
  }

  /** The cage and log part of a production row. */
  lemma CageAndLogStep(p: Progress<ProductionLog>, i: nat, row: Row, cycleId: nat, now: string)
    requires p.Valid() && NonZero(p.cageMap)
    ensures var r := CageAndLog(p, i, row, cycleId, now);
      && Counted(p, r, i, i + 1) && CagesGrow(p, r, {KeyText(CageName(row))}, 1)
      && (p.cages.HasRoom() ==> KeyText(CageName(row)) in r.cageMap)
      && r.cycles == p.cycles && r.cycleMap == p.cycleMap && r.result.newCycles == p.result.newCycles
  {
    var g := ResolveCage(p, row, cycleId, now);
    ResolveCageStep(p, row, cycleId, now);
    var r := CageAndLog(p, i, row, cycleId, now);
    if g.1.Err? {
      assert r == Fail(g.0, i, g.1.message);
    } else {
      AddRecordStep(g.0, i, ProductionLogOf(row, cycleId, g.1.value, now));
      assert r == AddRecord(g.0, i, ProductionLogOf(row, cycleId, g.1.value, now));
    }
    StepCounted(p, g.0, r, i);
  }

  /** A lookup that wrote no record and no error, then one success or one
      error of row `i`: the row is counted. */
  lemma StepCounted<T>(p: Progress<T>, c: Progress<T>, r: Progress<T>, i: nat)
    requires c.result.success == p.result.success && c.result.errors == p.result.errors && c.records == p.records
    requires || (r.result.success == c.result.success + 1 && r.result.errors == c.result.errors
                 && |r.records.records| == |c.records.records| + 1)
             || (r.result.success == c.result.success && r.records == c.records
                 && exists m :: r.result.errors == c.result.errors + [RowError(i, m)])
    ensures Counted(p, r, i, i + 1)
  {
    if r.result.success == c.result.success {
      var m :| r.result.errors == c.result.errors + [RowError(i, m)];
      assert ErrorOfRow(RowError(i, m), i, i + 1);
      assert r.result.errors[..|p.result.errors|] == p.result.errors;
    } else {
      assert r.result.errors[..|p.result.errors|] == p.result.errors;
    }
  }


  /** One row of `importProductionLogs`. */
  lemma ProductionRowStep(p: Progress<ProductionLog>, i: nat, row: Row, now: string)
    requires p.Valid() && NonZero(p.cycleMap) && NonZero(p.cageMap)
    ensures var r := ProductionRow(p, i, row, now);
      && Counted(p, r, i, i + 1)
      && CyclesGrow(p, r, {KeyText(CycleName(row))}, 1) && CagesGrow(p, r, {KeyText(CageName(row))}, 1)
  {
    var c := ResolveCycle(p, row, now);
    ResolveCycleStep(p, row, now);
    if c.1.Err? {
      assert ErrorOfRow(RowError(i, c.1.message), i, i + 1);
      assert c.0.cageMap.Keys - p.cageMap.Keys == {};
    } else {
      CageAndLogStep(c.0, i, row, c.1.value, now);
      CageAfterCycle(p, c.0, CageAndLog(c.0, i, row, c.1.value, now), i, KeyText(CycleName(row)), KeyText(CageName(row)));
    }
  }

  /** A row whose cycle lookup succeeded: what the cage part did is what the row did. */
  lemma CageAfterCycle(p: Progress<ProductionLog>, c: Progress<ProductionLog>, r: Progress<ProductionLog>,
                       i: nat, cycleKey: string, cageKey: string)
    requires CyclesGrow(p, c, {cycleKey}, 1) && (p.cycles.HasRoom() ==> cycleKey in c.cycleMap)
    requires c.result.success == p.result.success && c.result.errors == p.result.errors && c.records == p.records
    requires c.cages == p.cages && c.cageMap == p.cageMap && c.result.newCages == p.result.newCages
    requires Counted(c, r, i, i + 1) && CagesGrow(c, r, {cageKey}, 1) && (c.cages.HasRoom() ==> cageKey in r.cageMap)
    requires r.cycles == c.cycles && r.cycleMap == c.cycleMap && r.result.newCycles == c.result.newCycles
    ensures Counted(p, r, i, i + 1) && CyclesGrow(p, r, {cycleKey}, 1) && CagesGrow(p, r, {cageKey}, 1)
  {
  }

  /** The rows of `importProductionLogs`, from any state. */
  lemma {:induction false} ProductionRowsCount(p: Progress<ProductionLog>, rows: seq<Row>, now: string)
    requires p.Valid() && NonZero(p.cycleMap) && NonZero(p.cageMap)
    ensures ProductionAccounted(p, rows, now)
  {
    if |rows| > 0 {
      ProductionRowsCount(p, rows[..|rows| - 1], now);
      ProductionRowsSnoc(p, rows, now);
    } else {
      ProductionRowsNone(p, now);
    }
  }

  /** No rows: nothing changes. */
  lemma ProductionRowsNone(p: Progress<ProductionLog>, now: string)
    requires p.Valid() && NonZero(p.cycleMap) && NonZero(p.cageMap)
    ensures ProductionAccounted(p, [], now)
  {
    assert ProductionRows(p, [], now) == p;
    assert CycleKeys([]) == {} && CageKeys([]) == {};
    NothingChanged(p);
  }

  lemma NothingChanged<T>(p: Progress<T>)
    requires NonZero(p.cycleMap) && NonZero(p.cageMap)
    ensures Counted(p, p, 0, 0) && CyclesGrow(p, p, {}, 0) && CagesGrow(p, p, {}, 0)
  {
    assert p.result.errors[..|p.result.errors|] == p.result.errors;
    GrowsNone(p.cycleMap, p.result.newCycles);
    GrowsNone(p.cageMap, p.result.newCages);
  }

  /** What the rows `rows` of `importProductionLogs` did from `p`. */
  ghost predicate ProductionAccounted(p: Progress<ProductionLog>, rows: seq<Row>, now: string)
    requires p.Valid()
  {
    var r := ProductionRows(p, rows, now);
    && Counted(p, r, 0, |rows|)
    && CyclesGrow(p, r, CycleKeys(rows), |rows|) && CagesGrow(p, r, CageKeys(rows), |rows|)
  }

  /** One more production row. */
  lemma ProductionRowsSnoc(p: Progress<ProductionLog>, rows: seq<Row>, now: string)
    requires p.Valid() && NonZero(p.cycleMap) && NonZero(p.cageMap) && |rows| > 0
    requires ProductionAccounted(p, rows[..|rows| - 1], now)
    ensures ProductionAccounted(p, rows, now)
  {
    var n := |rows| - 1;
    var q := ProductionRows(p, rows[..n], now);
    ProductionRowStep(q, n, rows[n], now);
    var r := ProductionRow(q, n, rows[n], now);
    assert ProductionRows(p, rows, now) == r;
    assert CycleKeys(rows) == CycleKeys(rows[..n]) + {KeyText(CycleName(rows[n]))};
    assert CageKeys(rows) == CageKeys(rows[..n]) + {KeyText(CageName(rows[n]))};
    AccountedStep(p, q, r, n, CycleKeys(rows[..n]), CageKeys(rows[..n]), KeyText(CycleName(rows[n])), KeyText(CageName(rows[n])));
  }

  lemma AccountedStep<T>(p: Progress<T>, q: Progress<T>, r: Progress<T>, n: nat,
                         cycleKeys: set<string>, cageKeys: set<string>, cycleKey: string, cageKey: string)
    requires Counted(p, q, 0, n) && CyclesGrow(p, q, cycleKeys, n) && CagesGrow(p, q, cageKeys, n)
    requires Counted(q, r, n, n + 1) && CyclesGrow(q, r, {cycleKey}, 1) && CagesGrow(q, r, {cageKey}, 1)
    ensures Counted(p, r, 0, n + 1)
    ensures CyclesGrow(p, r, cycleKeys + {cycleKey}, n + 1) && CagesGrow(p, r, cageKeys + {cageKey}, n + 1)
  {
    CountAndCyclesTrans(p, q, r, n, cycleKeys, cycleKey);
    CagesGrowTrans(p, q, r, cageKeys, n, {cageKey}, 1);
  }

  /** The lookup objects an import starts from lead to stored ids only, so never to 0. */
  lemma StartNonZero<T>(cycles: TableState<Cycle>, cages: TableState<Cage>, records: TableState<T>)
    requires cycles.Valid() && cages.Valid() && records.Valid()
    ensures NonZero(Start(cycles, cages, records).cycleMap) && NonZero(Start(cycles, cages, records).cageMap)
  {
    KeyMapNonZero(cycles.Where(_ => true), (c: Cycle) => c.name);
    KeyMapNonZero(cages.Where(_ => true), (c: Cage) => c.name);
  }

  /** `importSales`, `importExpenses` and `importFeedLogs` on the parsed
      rows `rows` (the import is this on `ParsedCsv(text)`): every row
      ends as one success, which stored one record, or as one `Row N: …`
      error; `newCycles` is the number of cycle keys the rows added to the
      lookup object, all of them keys of rows; and when the cycle store has
      room for a cycle per row, it is the number of distinct cycle keys of
      the rows that were not found. */
  lemma CycleImportCounts<T>(cycles: TableState<Cycle>, records: TableState<T>, rows: seq<Row>, now: string,
                             make: (Row, nat) -> T)
    requires cycles.Valid() && records.Valid()
    ensures var s := Start(cycles, Empty(0), records); var p := CycleRows(s, rows, now, make);
      && p.result.success + |p.result.errors| == |rows|
      && (forall j :: 0 <= j < |p.result.errors| ==> ErrorOfRow(p.result.errors[j], 0, |rows|))
      && |p.records.records| == |records.records| + p.result.success
      && p.result.newCycles == |p.cycleMap.Keys - s.cycleMap.Keys|
      && p.cycleMap.Keys - s.cycleMap.Keys <= CycleKeys(rows)
      && (|cycles.records| + |rows| <= cycles.limit ==> p.result.newCycles == |CycleKeys(rows) - s.cycleMap.Keys|)
      && p.result.newCages == 0
  {
    var s := Start(cycles, Empty(0), records);
    StartNonZero(cycles, Empty(0), records);
    CycleRowsCount(s, rows, now, make);
    FromStart(s, CycleRows(s, rows, now, make), rows);
  }

  /** What the invariants say once the rows have been taken from an empty accumulator. */
  lemma FromStart<T>(s: Progress<T>, p: Progress<T>, rows: seq<Row>)
    requires s.result == ImportResult(0, [], 0, 0)
    requires Counted(s, p, 0, |rows|) && CyclesGrow(s, p, CycleKeys(rows), |rows|)
    ensures p.result.success + |p.result.errors| == |rows|
    ensures forall j :: 0 <= j < |p.result.errors| ==> ErrorOfRow(p.result.errors[j], 0, |rows|)
    ensures |p.records.records| == |s.records.records| + p.result.success
    ensures p.result.newCycles == |p.cycleMap.Keys - s.cycleMap.Keys|
    ensures p.cycleMap.Keys - s.cycleMap.Keys <= CycleKeys(rows)
    ensures |s.cycles.records| + |rows| <= s.cycles.limit ==> p.result.newCycles == |CycleKeys(rows) - s.cycleMap.Keys|
  {
    CountedFromStart(s, p, |rows|);
    CyclesFromStart(s, p, rows);
  }

  lemma CountedFromStart<T>(s: Progress<T>, p: Progress<T>, n: nat)
    requires s.result == ImportResult(0, [], 0, 0)
    requires Counted(s, p, 0, n)
    ensures p.result.success + |p.result.errors| == n
    ensures forall j :: 0 <= j < |p.result.errors| ==> ErrorOfRow(p.result.errors[j], 0, n)
    ensures |p.records.records| == |s.records.records| + p.result.success
  {
  }

  lemma CyclesFromStart<T>(s: Progress<T>, p: Progress<T>, rows: seq<Row>)
    requires s.result == ImportResult(0, [], 0, 0)
    requires CyclesGrow(s, p, CycleKeys(rows), |rows|)
    ensures p.result.newCycles == |p.cycleMap.Keys - s.cycleMap.Keys|
    ensures p.cycleMap.Keys - s.cycleMap.Keys <= CycleKeys(rows)
    ensures |s.cycles.records| + |rows| <= s.cycles.limit ==> p.result.newCycles == |CycleKeys(rows) - s.cycleMap.Keys|
  {
    if |s.cycles.records| + |rows| <= s.cycles.limit {
      DiffOfUnion(p.cycleMap.Keys, s.cycleMap.Keys, CycleKeys(rows));
    }
  }

  /** The same for the cages. */
  lemma CagesFromStart<T>(s: Progress<T>, p: Progress<T>, rows: seq<Row>)
    requires s.result == ImportResult(0, [], 0, 0)
    requires CagesGrow(s, p, CageKeys(rows), |rows|)
    ensures p.result.newCages == |p.cageMap.Keys - s.cageMap.Keys|
    ensures p.cageMap.Keys - s.cageMap.Keys <= CageKeys(rows)
  {
  }

  /** With room in both stores for one record per row, every cage key arrives. */
  lemma CagesFromStartWithRoom<T>(s: Progress<T>, p: Progress<T>, rows: seq<Row>)
    requires s.result == ImportResult(0, [], 0, 0)
    requires CagesGrow(s, p, CageKeys(rows), |rows|)
    requires |s.cycles.records| + |rows| <= s.cycles.limit && |s.cages.records| + |rows| <= s.cages.limit
    ensures p.result.newCages == |CageKeys(rows) - s.cageMap.Keys|
  {
    DiffOfUnion(p.cageMap.Keys, s.cageMap.Keys, CageKeys(rows));
  }

  lemma DiffOfUnion(a: set<string>, b: set<string>, c: set<string>)
    requires a == b + c
    ensures a - b == c - b
  {
  }

  /** `importProductionLogs`: the same, for the cycles and for the cages,
      whose keys count once across all cycles. */
  lemma ProductionImportCounts(cycles: TableState<Cycle>, cages: TableState<Cage>, logs: TableState<ProductionLog>,
                               rows: seq<Row>, now: string)
    requires cycles.Valid() && cages.Valid() && logs.Valid()
    ensures var s := Start(cycles, cages, logs); var p := ProductionRows(s, rows, now);
      && p.result.success + |p.result.errors| == |rows|
      && (forall j :: 0 <= j < |p.result.errors| ==> ErrorOfRow(p.result.errors[j], 0, |rows|))
      && |p.records.records| == |logs.records| + p.result.success
      && p.result.newCycles == |p.cycleMap.Keys - s.cycleMap.Keys|
      && p.cycleMap.Keys - s.cycleMap.Keys <= CycleKeys(rows)
      && p.result.newCages == |p.cageMap.Keys - s.cageMap.Keys|
      && p.cageMap.Keys - s.cageMap.Keys <= CageKeys(rows)
      && (|cycles.records| + |rows| <= cycles.limit ==> p.result.newCycles == |CycleKeys(rows) - s.cycleMap.Keys|)
      && (|cycles.records| + |rows| <= cycles.limit && |cages.records| + |rows| <= cages.limit ==>
            p.result.newCages == |CageKeys(rows) - s.cageMap.Keys|)
  {
    var s := Start(cycles, cages, logs);
    StartNonZero(cycles, cages, logs);
    ProductionRowsCount(s, rows, now);
    FromStart(s, ProductionRows(s, rows, now), rows);
    CagesFromStart(s, ProductionRows(s, rows, now), rows);
    if |cycles.records| + |rows| <= cycles.limit && |cages.records| + |rows| <= cages.limit {
      CagesFromStartWithRoom(s, ProductionRows(s, rows, now), rows);
    }
  }

  /** The cage of a production row is looked up among all cages: a row whose
      cycle and cage keys are both known stores its log under the cage the
      key leads to, whatever cycle that cage belongs to, and creates nothing. */
  lemma ProductionRowUsesKnownCage(p: Progress<ProductionLog>, i: nat, row: Row, now: string)
    requires p.Valid() && NonZero(p.cycleMap) && NonZero(p.cageMap)
    requires KeyText(CycleName(row)) in p.cycleMap && KeyText(CageName(row)) in p.cageMap
    ensures var r := ProductionRow(p, i, row, now);
      var log := ProductionLogOf(row, p.cycleMap[KeyText(CycleName(row))], p.cageMap[KeyText(CageName(row))], now);
      && r.cycles == p.cycles && r.cages == p.cages && r.cycleMap == p.cycleMap && r.cageMap == p.cageMap
      && (p.records.HasRoom() ==>
            r.records.records == p.records.records[p.records.nextId := log] && r.result.success == p.result.success + 1)
      && (!p.records.HasRoom() ==>
            r.records == p.records && r.result.errors == p.result.errors + [RowError(i, QuotaExceeded)])
  {
    ResolveCycleStep(p, row, now);
    ResolveCageStep(p, row, p.cycleMap[KeyText(CycleName(row))], now);
  }
}
