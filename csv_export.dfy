/** The four CSV exports of the import/export handler (`exportProductionLogs`,
    `exportSales`, `exportExpenses`, `exportFeedLogs`) and the four import
    templates (`get*Template`). An export loads the records (all of them, or
    those of one cycle), maps each to an object keyed by the export's
    headers, and hands the objects to `arrayToCSV`. A template is its
    header line and one sample line. */
module CsvExport {
  import opened Common
  import opened Strings
  import opened Records
  import opened Store
  import opened Csv

  // ---------------------------------------------------------------- values

  /** `v || d` on values. */
  function OrValue(v: Value, d: Value): (r: Value)
    ensures !Falsy(v) ==> r == v
    ensures Falsy(v) ==> r == d
  {
    if Falsy(v) then d else v
  }

  /** A possibly missing text field as a value (`undefined` when missing). */
  function TextValue(x: Option<string>): Value
  {
    if x.Some? then Text(x.value) else Absent
  }

  /** A possibly missing (or `NaN`) integer field as a value. */
  function IntValue(x: Option<int>): Value
  {
    if x.Some? then Number(x.value as real) else Absent
  }

  /** A possibly missing (or `NaN`) real field as a value. */
  function RealValue(x: Option<real>): Value
  {
    if x.Some? then Number(x.value) else Absent
  }

  // ---------------------------------------------------------------- lookup objects

  /** The label of a cycle: `cycle.name || \`Cycle ${cycle.id}\``. */
  function CycleLabel(e: Entry<Cycle>): (r: string)
    ensures r != ""
    ensures e.value.name.Some? && e.value.name.value != "" ==> r == e.value.name.value
    ensures !(e.value.name.Some? && e.value.name.value != "") ==> r == "Cycle " + NatToString(e.id)
  {
    if e.value.name.Some? && e.value.name.value != "" then e.value.name.value else "Cycle " + NatToString(e.id)
  }

  /** `cycles.forEach(c => cycleMap[c.id] = label(c))`. */
  function CycleLabels(cycles: seq<Entry<Cycle>>): (r: map<int, string>)
    ensures forall id :: id in r ==> r[id] != ""
  {
    if |cycles| == 0 then map[]
    else
      var n := |cycles| - 1;
      CycleLabels(cycles[..n])[cycles[n].id := CycleLabel(cycles[n])]
  }

  /** `cages.forEach(c => cageMap[c.id] = c.name)`. */
  function CageLabels(cages: seq<Entry<Cage>>): map<int, Value>
  {
    if |cages| == 0 then map[]
    else
      var n := |cages| - 1;
      CageLabels(cages[..n])[cages[n].id := TextValue(cages[n].value.name)]
  }

  /** Each loaded record's id leads to its label, when ids are distinct. */
  lemma {:induction false} CycleLabelsOfEntries(cycles: seq<Entry<Cycle>>, k: nat)
    requires forall i, j :: 0 <= i < j < |cycles| ==> cycles[i].id < cycles[j].id
    requires k < |cycles|
    ensures cycles[k].id in CycleLabels(cycles) && CycleLabels(cycles)[cycles[k].id] == CycleLabel(cycles[k])
  {
    var n := |cycles| - 1;
    if k < n {
      CycleLabelsOfEntries(cycles[..n], k);
      assert cycles[..n][k] == cycles[k];
    }
  }

  /** Ids of no loaded record are not keys of the lookup object. */
  lemma {:induction false} CycleLabelsKeys(cycles: seq<Entry<Cycle>>, id: int)
    requires id in CycleLabels(cycles)
    ensures exists k :: 0 <= k < |cycles| && cycles[k].id == id
  {
    var n := |cycles| - 1;
    if id != cycles[n].id {
      CycleLabelsKeys(cycles[..n], id);
      var k :| 0 <= k < n && cycles[..n][k].id == id;
      assert cycles[k].id == id;
    }
  }

  /** `cycleMap[id] || id`: the cycle's label, or the id itself. */
  function CycleColumn(labels: map<int, string>, id: int): (r: Value)
    ensures id in labels && labels[id] != "" ==> r == Text(labels[id])
    ensures id !in labels ==> r == Number(id as real)
  {
    OrValue(if id in labels then Text(labels[id]) else Absent, Number(id as real))
  }

  /** `cageMap[id] || id`: the cage's name, or the id itself. */
  function CageColumn(labels: map<int, Value>, id: int): (r: Value)
    ensures id in labels && !Falsy(labels[id]) ==> r == labels[id]
    ensures (id !in labels || Falsy(labels[id])) ==> r == Number(id as real)
  {
    OrValue(if id in labels then labels[id] else Absent, Number(id as real))
  }

  /** The records an export reads: all of them, or those of one cycle. */
  function Loaded<T>(table: TableState<T>, cycleOf: T -> int, cycleId: Option<int>): (r: seq<Entry<T>>)
    requires table.Valid()
    ensures forall i :: 0 <= i < |r| ==> r[i].id in table.records && table.records[r[i].id] == r[i].value
    ensures forall i :: 0 <= i < |r| && cycleId.Some? ==> cycleOf(r[i].value) == cycleId.value
    ensures forall k :: k in table.records && (cycleId.None? || cycleOf(table.records[k]) == cycleId.value) ==>
      exists i :: 0 <= i < |r| && r[i].id == k
  {
    table.Where(x => cycleId.None? || cycleOf(x) == cycleId.value)
  }

  // ---------------------------------------------------------------- production logs

  const ProductionHeaders: seq<string> := [
    "Date", "Cycle", "Cage", "Flock_Age_Days", "Opening_Birds",
    "Mortality", "Birds_Sold", "Eggs_Produced", "Closing_Birds",
    "Production_Percentage", "Notes"]

  /** The object `exportProductionLogs` builds for one log. */
  function ProductionExportRow(log: ProductionLog, cycleLabels: map<int, string>, cageLabels: map<int, Value>): (r: map<string, Value>)
    ensures forall j :: 0 <= j < |ProductionHeaders| ==> ProductionHeaders[j] in r
    ensures "Cycle" in r && r["Cycle"] == CycleColumn(cycleLabels, log.cycleId) && "Cage" in r && r["Cage"] == CageColumn(cageLabels, log.cageId)
    ensures "Mortality" in r && r["Mortality"] == OrValue(IntValue(log.mortality), Number(0.0))
  {
    map[
      "Date" := TextValue(log.date),
      "Cycle" := CycleColumn(cycleLabels, log.cycleId),
      "Cage" := CageColumn(cageLabels, log.cageId),
      "Flock_Age_Days" := OrValue(IntValue(log.flockAgeDays), Text("")),
      "Opening_Birds" := OrValue(IntValue(log.openingBirds), Text("")),
      "Mortality" := OrValue(IntValue(log.mortality), Number(0.0)),
      "Birds_Sold" := OrValue(IntValue(log.birdsSold), Number(0.0)),
      "Eggs_Produced" := OrValue(IntValue(log.eggsProduced), Number(0.0)),
      "Closing_Birds" := OrValue(IntValue(log.closingBirds), Text("")),
      "Production_Percentage" := OrValue(RealValue(log.productionPercentage), Text("")),
      "Notes" := OrValue(Text(log.notes), Text(""))]
  }

  /** `exportProductionLogs(cycleId)`: the CSV text of the loaded logs. */
  function ExportProductionLogs(logs: TableState<ProductionLog>, cycles: TableState<Cycle>, cages: TableState<Cage>,
                                cycleId: Option<int>, showNumber: real -> string): (r: string)
    requires logs.Valid() && cycles.Valid() && cages.Valid()
    ensures r == "" <==> |Loaded(logs, (l: ProductionLog) => l.cycleId, cycleId)| == 0
  {
    var loaded := Loaded(logs, (l: ProductionLog) => l.cycleId, cycleId);
    var cycleLabels := CycleLabels(cycles.Where(_ => true));
    var cageLabels := CageLabels(cages.Where(_ => true));
    ArrayToCsv(seq(|loaded|, k requires 0 <= k < |loaded| => ProductionExportRow(loaded[k].value, cycleLabels, cageLabels)),
      ProductionHeaders, showNumber)
  }

  // ---------------------------------------------------------------- sales

  const SalesHeaders: seq<string> := [
    "Date", "Cycle", "Sale_Type", "Customer", "Crates", "Price_Per_Crate",
    "Bird_Quantity", "Price_Per_Bird", "Weight_Kg", "Total_Amount",
    "Payment_Method", "Notes"]

  /** The object `exportSales` builds for one sale. */
  function SaleExportRow(sale: Sale, cycleLabels: map<int, string>): (r: map<string, Value>)
    ensures forall j :: 0 <= j < |SalesHeaders| ==> SalesHeaders[j] in r
    ensures "Cycle" in r && r["Cycle"] == CycleColumn(cycleLabels, sale.cycleId)
    ensures "Total_Amount" in r && r["Total_Amount"] == OrValue(RealValue(sale.amount), Number(0.0))
  {
    map[
      "Date" := TextValue(sale.date),
      "Cycle" := CycleColumn(cycleLabels, sale.cycleId),
      "Sale_Type" := OrValue(TextValue(sale.saleType), Text("egg")),
      "Customer" := OrValue(Text(sale.customer), Text("")),
      "Crates" := OrValue(RealValue(sale.crates), Text("")),
      "Price_Per_Crate" := OrValue(RealValue(sale.pricePerCrate), Text("")),
      "Bird_Quantity" := OrValue(IntValue(sale.birdQuantity), Text("")),
      "Price_Per_Bird" := OrValue(RealValue(sale.pricePerBird), Text("")),
      "Weight_Kg" := OrValue(RealValue(sale.weight), Text("")),
      "Total_Amount" := OrValue(RealValue(sale.amount), Number(0.0)),
      "Payment_Method" := OrValue(Text(sale.paymentMethod), Text("")),
      "Notes" := OrValue(Text(sale.notes), Text(""))]
  }

  /** `exportSales(cycleId)`. */
  function ExportSales(sales: TableState<Sale>, cycles: TableState<Cycle>, cycleId: Option<int>,
                       showNumber: real -> string): (r: string)
    requires sales.Valid() && cycles.Valid()
    ensures r == "" <==> |Loaded(sales, (s: Sale) => s.cycleId, cycleId)| == 0
  {
    var loaded := Loaded(sales, (s: Sale) => s.cycleId, cycleId);
    var cycleLabels := CycleLabels(cycles.Where(_ => true));
    ArrayToCsv(seq(|loaded|, k requires 0 <= k < |loaded| => SaleExportRow(loaded[k].value, cycleLabels)),
      SalesHeaders, showNumber)
  }

  // ---------------------------------------------------------------- expenses

  const ExpensesHeaders: seq<string> := [
    "Date", "Cycle", "Category", "Description", "Amount", "Payment_Method", "Notes"]

  /** The object `exportExpenses` builds for one expense. */
  function ExpenseExportRow(expense: Expense, cycleLabels: map<int, string>): (r: map<string, Value>)
    ensures forall j :: 0 <= j < |ExpensesHeaders| ==> ExpensesHeaders[j] in r
    ensures "Cycle" in r && r["Cycle"] == CycleColumn(cycleLabels, expense.cycleId)
    ensures "Amount" in r && r["Amount"] == OrValue(Number(expense.amount), Number(0.0))
  {
    map[
      "Date" := TextValue(expense.date),
      "Cycle" := CycleColumn(cycleLabels, expense.cycleId),
      "Category" := OrValue(Text(expense.category), Text("")),
      "Description" := OrValue(Text(expense.description), Text("")),
      "Amount" := OrValue(Number(expense.amount), Number(0.0)),
      "Payment_Method" := OrValue(Text(expense.paymentMethod), Text("")),
      "Notes" := OrValue(Text(expense.notes), Text(""))]
  }

  /** `exportExpenses(cycleId)`. */
  function ExportExpenses(expenses: TableState<Expense>, cycles: TableState<Cycle>, cycleId: Option<int>,
                          showNumber: real -> string): (r: string)
    requires expenses.Valid() && cycles.Valid()
    ensures r == "" <==> |Loaded(expenses, (e: Expense) => e.cycleId, cycleId)| == 0
  {
    var loaded := Loaded(expenses, (e: Expense) => e.cycleId, cycleId);
    var cycleLabels := CycleLabels(cycles.Where(_ => true));
    ArrayToCsv(seq(|loaded|, k requires 0 <= k < |loaded| => ExpenseExportRow(loaded[k].value, cycleLabels)),
      ExpensesHeaders, showNumber)
  }

  // ---------------------------------------------------------------- feed logs

  const FeedHeaders: seq<string> := ["Date", "Cycle", "Feed_Consumed_Kg", "Feed_Cost", "Notes"]

  /** The object `exportFeedLogs` builds for one feed log. */
  function FeedExportRow(log: FeedLog, cycleLabels: map<int, string>): (r: map<string, Value>)
    ensures forall j :: 0 <= j < |FeedHeaders| ==> FeedHeaders[j] in r
    ensures "Cycle" in r && r["Cycle"] == CycleColumn(cycleLabels, log.cycleId)
    ensures "Feed_Consumed_Kg" in r && r["Feed_Consumed_Kg"] == OrValue(RealValue(log.amount), Number(0.0))
  {
    map[
      "Date" := TextValue(log.date),
      "Cycle" := CycleColumn(cycleLabels, log.cycleId),
      "Feed_Consumed_Kg" := OrValue(RealValue(log.amount), Number(0.0)),
      "Feed_Cost" := OrValue(RealValue(log.cost), Number(0.0)),
      "Notes" := OrValue(TextValue(log.notes), Text(""))]
  }

  /** `exportFeedLogs(cycleId)`. */
  function ExportFeedLogs(feedLogs: TableState<FeedLog>, cycles: TableState<Cycle>, cycleId: Option<int>,
                          showNumber: real -> string): (r: string)
    requires feedLogs.Valid() && cycles.Valid()
    ensures r == "" <==> |Loaded(feedLogs, (l: FeedLog) => l.cycleId, cycleId)| == 0
  {
    var loaded := Loaded(feedLogs, (l: FeedLog) => l.cycleId, cycleId);
    var cycleLabels := CycleLabels(cycles.Where(_ => true));
    ArrayToCsv(seq(|loaded|, k requires 0 <= k < |loaded| => FeedExportRow(loaded[k].value, cycleLabels)),
      FeedHeaders, showNumber)
  }

  // ---------------------------------------------------------------- templates

  /** `[headers.join(','), sampleRow.join(',')].join('\n')`. */
  function Template(headers: seq<string>, sample: seq<string>): string
  {
    Join([Join(headers, ","), Join(sample, ",")], "\n")
  }

  /** A field the codec carries unchanged wherever it stands: trimmed, with
      no comma, quote or line break. */
  predicate SafeField(s: string)
  {
    IsTrimmed(s) && forall i :: 0 <= i < |s| ==> s[i] != ',' && s[i] != '"' && s[i] != '\n'
  }

  lemma SafeFieldIsPlain(s: string)
    requires SafeField(s)
    ensures ',' !in s && Writable(s)
    ensures s != [] ==> PlainHeader(s)
  {
  }

  /** A template whose safe, non-empty headers match its safe sample field
      for field parses to exactly one row: the sample under the headers. */
  lemma TemplateParses(headers: seq<string>, sample: seq<string>)
    requires |headers| >= 2 && |sample| == |headers|
    requires forall j :: 0 <= j < |headers| ==> headers[j] != [] && SafeField(headers[j])
    requires forall j :: 0 <= j < |sample| ==> SafeField(sample[j])
    ensures ParsedCsv(Template(headers, sample)) == [RowOf(headers, sample)]
  {
    forall j | 0 <= j < |headers|
      ensures PlainHeader(headers[j]) && Writable(sample[j]) && ',' !in sample[j]
    {
      SafeFieldIsPlain(headers[j]);
      SafeFieldIsPlain(sample[j]);
    }
    assert Cells(sample) == sample;
    assert TableLines(headers, [sample]) == [Join(headers, ","), Join(sample, ",")];
    ParseTable(headers, [sample]);
  }

  const ProductionTemplateHeaders: seq<string> := [
    "Date", "Cycle", "Cage", "Flock_Age_Days", "Opening_Birds",
    "Mortality", "Birds_Sold", "Eggs_Produced", "Closing_Birds",
    "Production_Percentage", "Notes"]

  const ProductionSample: seq<string> := [
    "2025-07-21", "Cycle 1", "Cage A1", "150", "100",
    "1", "0", "85", "99", "85.0", "Normal production day"]

  const SalesTemplateHeaders: seq<string> := [
    "Date", "Cycle", "Sale_Type", "Customer", "Crates", "Price_Per_Crate",
    "Bird_Quantity", "Price_Per_Bird", "Weight_Kg", "Total_Amount",
    "Payment_Method", "Notes"]

  const SalesSample: seq<string> := [
    "2025-07-21", "Cycle 1", "egg", "Local Market", "10", "40.00",
    "", "", "", "400.00", "cash", "Weekly egg sale"]

  const ExpensesTemplateHeaders: seq<string> := [
    "Date", "Cycle", "Category", "Description", "Amount", "Payment_Method", "Notes"]

  const ExpensesSample: seq<string> := [
    "2025-07-21", "Cycle 1", "feed", "Layer feed 50kg", "150.00", "cash", "Weekly feed purchase"]

  const FeedTemplateHeaders: seq<string> := ["Date", "Cycle", "Feed_Consumed_Kg", "Feed_Cost", "Notes"]

  const FeedSample: seq<string> := ["2025-07-21", "Cycle 1", "25.5", "85.00", "Daily feed consumption"]

  function ProductionLogTemplate(): string { Template(ProductionTemplateHeaders, ProductionSample) }

  function SalesTemplate(): string { Template(SalesTemplateHeaders, SalesSample) }

  function ExpensesTemplate(): string { Template(ExpensesTemplateHeaders, ExpensesSample) }

  function FeedLogTemplate(): string { Template(FeedTemplateHeaders, FeedSample) }

  /** The production template has the export's columns and parses to its sample row. */
  lemma ProductionTemplateParses()
    ensures ProductionTemplateHeaders == ProductionHeaders
    ensures ParsedCsv(ProductionLogTemplate()) == [RowOf(ProductionHeaders, ProductionSample)]
  {
    ProductionHeadersSafe();
    ProductionHeadersSafeRest();
    ProductionSampleSafe();
    ProductionSampleSafeRest();
    TemplateParses(ProductionTemplateHeaders, ProductionSample);
  }

  lemma ProductionHeadersSafe()
    ensures forall j :: 0 <= j < 6 ==> ProductionTemplateHeaders[j] != [] && SafeField(ProductionTemplateHeaders[j])
  {
  }

  lemma ProductionHeadersSafeRest()
    ensures forall j :: 6 <= j < 11 ==> ProductionTemplateHeaders[j] != [] && SafeField(ProductionTemplateHeaders[j])
  {
  }

  lemma ProductionSampleSafe()
    ensures forall j :: 0 <= j < 6 ==> SafeField(ProductionSample[j])
  {
  }

  lemma ProductionSampleSafeRest()
    ensures forall j :: 6 <= j < 11 ==> SafeField(ProductionSample[j])
  {
  }

  /** The sales template has the export's columns and parses to its sample row. */
  lemma SalesTemplateParses()
    ensures SalesTemplateHeaders == SalesHeaders
    ensures ParsedCsv(SalesTemplate()) == [RowOf(SalesHeaders, SalesSample)]
  {
    SalesHeadersSafe();
    SalesHeadersSafeRest();
    SalesSampleSafe();
    SalesSampleSafeRest();
    TemplateParses(SalesTemplateHeaders, SalesSample);
  }

  lemma SalesHeadersSafe()
    ensures forall j :: 0 <= j < 6 ==> SalesTemplateHeaders[j] != [] && SafeField(SalesTemplateHeaders[j])
  {
  }

  lemma SalesHeadersSafeRest()
    ensures forall j :: 6 <= j < 12 ==> SalesTemplateHeaders[j] != [] && SafeField(SalesTemplateHeaders[j])
  {
  }

  lemma SalesSampleSafe()
    ensures forall j :: 0 <= j < 6 ==> SafeField(SalesSample[j])
  {
  }

  lemma SalesSampleSafeRest()
    ensures forall j :: 6 <= j < 12 ==> SafeField(SalesSample[j])
  {
  }

  /** The expenses template has the export's columns and parses to its sample row. */
  lemma ExpensesTemplateParses()
    ensures ExpensesTemplateHeaders == ExpensesHeaders
    ensures ParsedCsv(ExpensesTemplate()) == [RowOf(ExpensesHeaders, ExpensesSample)]
  {
    ExpensesHeadersSafe();
    ExpensesSampleSafe();
    TemplateParses(ExpensesTemplateHeaders, ExpensesSample);
  }

  lemma ExpensesHeadersSafe()
    ensures forall j :: 0 <= j < 7 ==> ExpensesTemplateHeaders[j] != [] && SafeField(ExpensesTemplateHeaders[j])
  {
  }

  lemma ExpensesSampleSafe()
    ensures forall j :: 0 <= j < 7 ==> SafeField(ExpensesSample[j])
  {
  }

  /** The feed template has the export's columns and parses to its sample row. */
  lemma FeedTemplateParses()
    ensures FeedTemplateHeaders == FeedHeaders
    ensures ParsedCsv(FeedLogTemplate()) == [RowOf(FeedHeaders, FeedSample)]
  {
    FeedHeadersSafe();
    FeedSampleSafe();
    TemplateParses(FeedTemplateHeaders, FeedSample);
  }

  lemma FeedHeadersSafe()
    ensures forall j :: 0 <= j < 5 ==> FeedTemplateHeaders[j] != [] && SafeField(FeedTemplateHeaders[j])
  {
  }

  lemma FeedSampleSafe()
    ensures forall j :: 0 <= j < 5 ==> SafeField(FeedSample[j])
  {
  }
}
