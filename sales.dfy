/** The sales manager (`SalesManager`): the record the sales form stores,
    the summary totals, the form's running total, the payment badge, and
    the records of a cycle kept newest first across add and delete. */
module Sales {
  import opened Common
  import opened Numbers
  import opened Records
  import opened Store
  import opened Dates
  import opened Sorting

  // ---------------------------------------------------------------- the form

  /** The fields of the sales form, as text. */
  datatype SalesForm = SalesForm(
    date: string, customer: string, cratesQuantity: string, pricePerCrate: string,
    paymentMethod: string, notes: string)

  /** `crates * pricePerCrate`, `NaN` when either is not a number. */
  function Amount(crates: Option<real>, pricePerCrate: Option<real>): (r: Option<real>)
    ensures r.Some? <==> crates.Some? && pricePerCrate.Some?
    ensures r.Some? ==> r.value == crates.value * pricePerCrate.value
  {
    if crates.Some? && pricePerCrate.Some? then Some(crates.value * pricePerCrate.value) else None
  }

  /** The record `handleSalesSubmit` stores: the parsed crates and price,
      their product as `amount`, and none of the fields the summary reads. */
  function FormSale(cycleId: int, form: SalesForm, now: string): (r: Sale)
    ensures r.cycleId == cycleId && r.date == Some(form.date) && r.customer == form.customer
    ensures r.crates == ParseFloat(form.cratesQuantity) && r.pricePerCrate == ParseFloat(form.pricePerCrate)
    ensures r.amount == Amount(r.crates, r.pricePerCrate)
    ensures r.totalAmount.None? && r.cratesQuantity.None? && r.totalEggs.None?
    ensures r.paymentMethod == form.paymentMethod && r.notes == form.notes && r.createdAt == now
  {
    var crates := ParseFloat(form.cratesQuantity);
    var price := ParseFloat(form.pricePerCrate);
    Sale(cycleId, Some(form.date), None, form.customer, crates, price, Amount(crates, price),
         None, None, None, None, None, None, form.paymentMethod, form.notes, now)
  }

  /** `calculateTotal()` on the two parsed fields: a field that is not a
      number (`NaN || 0`) counts as 0. */
  function CalculateTotal(crates: Option<real>, pricePerCrate: Option<real>): (r: real)
    ensures crates.None? || pricePerCrate.None? ==> r == 0.0
    ensures crates.Some? && pricePerCrate.Some? ==> r == crates.value * pricePerCrate.value
  {
    assert crates.Some? && pricePerCrate.Some? && (crates.value == 0.0 || pricePerCrate.value == 0.0) ==>
      crates.value * pricePerCrate.value == 0.0;
    RealOr(crates, 0.0) * RealOr(pricePerCrate, 0.0)
  }

  /** The total the form shows is the amount it stores, whenever both
      fields are numbers; otherwise the form shows 0 and stores `NaN`. */
  lemma TotalIsStoredAmount(cycleId: int, form: SalesForm, now: string)
    ensures var sale := FormSale(cycleId, form, now);
      && (sale.amount.Some? ==> sale.amount.value == CalculateTotal(sale.crates, sale.pricePerCrate))
      && (sale.amount.None? ==> CalculateTotal(sale.crates, sale.pricePerCrate) == 0.0)
  {
  }

  // ---------------------------------------------------------------- the summary

  /** The summary cards. */
  datatype Summary = Summary(totalSales: real, totalCrates: real, totalEggsSold: real, avgPricePerCrate: real)

  function TotalAmountOf(e: Entry<Sale>): real { RealOr(e.value.totalAmount, 0.0) }

  function CratesOf(e: Entry<Sale>): real { RealOr(e.value.cratesQuantity, 0.0) }

  function EggsSoldOf(e: Entry<Sale>): real { RealOr(e.value.totalEggs, 0.0) }

  /** `renderSalesSummary()`: the three totals, a missing field counting as
      0, and the price per crate, 0 unless some crates were sold. */
  function SalesSummary(sales: seq<Entry<Sale>>): (r: Summary)
    ensures r.totalSales == Sum(sales, TotalAmountOf)
    ensures r.totalCrates == Sum(sales, CratesOf)
    ensures r.totalEggsSold == Sum(sales, EggsSoldOf)
    ensures r.totalCrates > 0.0 ==> r.avgPricePerCrate * r.totalCrates == r.totalSales
    ensures r.totalCrates <= 0.0 ==> r.avgPricePerCrate == 0.0
  {
    var totalSales := Sum(sales, TotalAmountOf);
    var totalCrates := Sum(sales, CratesOf);
    Summary(totalSales, totalCrates, Sum(sales, EggsSoldOf), Ratio(totalSales, totalCrates))
  }

  /** A sale the form recorded adds nothing to the summary. */
  lemma FormSaleAddsNothing(sales: seq<Entry<Sale>>, id: nat, cycleId: int, form: SalesForm, now: string)
    ensures SalesSummary(sales + [Entry(id, FormSale(cycleId, form, now))]) == SalesSummary(sales)
  {
    var sale := FormSale(cycleId, form, now);
    var e := Entry(id, sale);
    assert sale.totalAmount.None? && sale.cratesQuantity.None? && sale.totalEggs.None?;
    SumSnocZero(sales, e, TotalAmountOf);
    SumSnocZero(sales, e, CratesOf);
    SumSnocZero(sales, e, EggsSoldOf);
  }

  /** The summary does not depend on the order of the records. */
  lemma SummaryOrderFree(a: seq<Entry<Sale>>, b: seq<Entry<Sale>>)
    requires multiset(a) == multiset(b)
    ensures SalesSummary(a) == SalesSummary(b)
  {
    SumPermutation(a, b, TotalAmountOf);
    SumPermutation(a, b, CratesOf);
    SumPermutation(a, b, EggsSoldOf);
  }

  // ---------------------------------------------------------------- the payment badge

  /** The badge classes of the four known payment methods. */
  function PaymentClasses(): map<string, string>
  {
    map["cash" := "bg-success", "bank" := "bg-primary", "check" := "bg-info", "credit" := "bg-warning"]
  }

  /** `getPaymentBadgeClass(paymentMethod)`: the method's class, or `bg-secondary`. */
  function PaymentBadgeClass(paymentMethod: string): (r: string)
    ensures paymentMethod in PaymentClasses() ==> r == PaymentClasses()[paymentMethod]
    ensures paymentMethod !in PaymentClasses() ==> r == "bg-secondary"
  {
    if paymentMethod in PaymentClasses() then PaymentClasses()[paymentMethod] else "bg-secondary"
  }

  /** The four known methods have four different classes, none the default. */
  lemma PaymentBadgeClasses(paymentMethod: string)
    ensures PaymentBadgeClass(paymentMethod) == "bg-secondary" <==> paymentMethod !in PaymentClasses()
    ensures forall m, n :: m in PaymentClasses() && n in PaymentClasses() && m != n ==>
      PaymentBadgeClass(m) != PaymentBadgeClass(n)
  {
  }

  // ---------------------------------------------------------------- the records

  predicate OfCycle(s: Sale, cycleId: int)
  {
    s.cycleId == cycleId
  }

  /** `getByIndex('sales', 'cycleId', cycleId)`. */
  function CycleSales(state: TableState<Sale>, cycleId: int): (r: seq<Entry<Sale>>)
    requires state.Valid()
    ensures forall i :: 0 <= i < |r| ==>
      r[i].id in state.records && state.records[r[i].id] == r[i].value && OfCycle(r[i].value, cycleId)
    ensures forall k :: k in state.records && OfCycle(state.records[k], cycleId) ==> Entry(k, state.records[k]) in r
    ensures InKeyOrder(r)
  {
    var r := state.Where((s: Sale) => OfCycle(s, cycleId));
    assert forall k :: k in state.records && OfCycle(state.records[k], cycleId) ==> Entry(k, state.records[k]) in r by {
      forall k | k in state.records && OfCycle(state.records[k], cycleId) ensures Entry(k, state.records[k]) in r {
        var i :| 0 <= i < |r| && r[i].id == k;
      }
    }
    r
  }

  function SaleDateKey(e: Entry<Sale>, timeOf: TimeOf): real
  {
    TimeKey(e.value.date, timeOf)
  }

  /** The key the date comparator of `init` sorts by. */
  function BySaleDate(timeOf: TimeOf): Entry<Sale> -> real
  {
    (e: Entry<Sale>) => SaleDateKey(e, timeOf)
  }

  /** The view's state: the cycle and its sales, newest first. */
  class SalesManager {
    var cycle: Option<Entry<Cycle>>
    var salesRecords: seq<Entry<Sale>>

    constructor ()
      ensures cycle.None? && salesRecords == []
    {
      cycle, salesRecords := None, [];
    }

    /** The view as `init(cycleId)` leaves it: the stored cycle `cycleId`
        (or none), and exactly the stored sales of that cycle, newest first,
        those of one date in increasing key order. */
    ghost predicate Shows(cycleId: int, cycles: TableState<Cycle>, sales: TableState<Sale>, timeOf: TimeOf)
      requires sales.Valid()
      reads this
    {
      && cycle == (if cycleId >= 0 && cycleId in cycles.records then Some(Entry(cycleId, cycles.records[cycleId])) else None)
      && multiset(salesRecords) == multiset(CycleSales(sales, cycleId))
      && SortedDescendingBy(salesRecords, BySaleDate(timeOf))
      && (forall k :: InKeyOrder(Band(salesRecords, BySaleDate(timeOf), k)))
    }

    /** `init(cycleId)`: the cycle (or none) and its sales sorted by
        descending date. A key that is not a number leaves the view as it was. */
    method Init(cycleId: Option<int>, cycles: Table<Cycle>, sales: Table<Sale>, timeOf: TimeOf)
      requires cycles.state.Valid() && sales.state.Valid()
      modifies this
      ensures cycleId.None? ==> cycle == old(cycle) && salesRecords == old(salesRecords)
      ensures cycleId.Some? ==> Shows(cycleId.value, cycles.state, sales.state, timeOf)
    {
      if cycleId.None? {
        return;
      }
      var id := cycleId.value;
      cycle := if id >= 0 && id in cycles.state.records then Some(Entry(id, cycles.state.records[id])) else None;
      var loaded := CycleSales(sales.state, id);
      var newest := (e: Entry<Sale>) => -SaleDateKey(e, timeOf);
      salesRecords := SortedCopy(loaded, newest);
      NegatedKeyDescending(salesRecords, BySaleDate(timeOf));
      BandsInKeyOrder(loaded, salesRecords, BySaleDate(timeOf), newest);
    }

    /** `handleSalesSubmit`: the form's sale is added to the store; once it
        is stored the view is reloaded and lists it. */
    method HandleSalesSubmit(form: SalesForm, now: string, cycles: Table<Cycle>, sales: Table<Sale>,
                             timeOf: TimeOf) returns (r: Result<nat>)
      requires cycle.Some?
      requires cycles.state.Valid() && sales.state.Valid()
      modifies this, sales
      ensures (sales.state, r) == old(sales.state).Add(FormSale(old(cycle).value.id, form, now))
      ensures r.Err? ==> cycle == old(cycle) && salesRecords == old(salesRecords)
      ensures r.Ok? ==> Entry(r.value, FormSale(old(cycle).value.id, form, now)) in salesRecords
      ensures r.Ok? ==> Shows(old(cycle).value.id, cycles.state, sales.state, timeOf)
    {
      var cycleId := cycle.value.id;
      var sale := FormSale(cycleId, form, now);
      r := sales.Add(sale);
      if r.Ok? {
        assert r.value in sales.state.records && sales.state.records[r.value] == sale;
        assert Entry(r.value, sale) in CycleSales(sales.state, cycleId);
        Init(Some(cycleId), cycles, sales, timeOf);
        assert Entry(r.value, sale) in multiset(CycleSales(sales.state, cycleId));
      }
    }

    /** `deleteSale(id)` once confirmed: the sale leaves the store and the
        reloaded view. */
    method DeleteSale(id: nat, cycles: Table<Cycle>, sales: Table<Sale>, timeOf: TimeOf)
      requires cycle.Some?
      requires cycles.state.Valid() && sales.state.Valid()
      modifies this, sales
      ensures sales.state == old(sales.state).Delete(id)
      ensures forall i :: 0 <= i < |salesRecords| ==> salesRecords[i].id != id
      ensures forall i :: 0 <= i < |salesRecords| ==> OfCycle(salesRecords[i].value, old(cycle).value.id)
      ensures Shows(old(cycle).value.id, cycles.state, sales.state, timeOf)
    {
      var cycleId := cycle.value.id;
      sales.Delete(id);
      Init(Some(cycleId), cycles, sales, timeOf);
      var loaded := CycleSales(sales.state, cycleId);
      forall i | 0 <= i < |salesRecords|
        ensures salesRecords[i].id != id && OfCycle(salesRecords[i].value, cycleId)
      {
        assert salesRecords[i] in multiset(loaded);
      }
    }
  }
}
