/** An IndexedDB object store with `keyPath: 'id'` and `autoIncrement`, as
    the components use it through `db.add`, `db.update` (a `put`),
    `db.delete`, `db.get`, `db.getAll` and `db.getByIndex`, and the database
    holding one such store per kind of record. The store's quota is the one
    way a write fails: a write that would hold more than `limit` records is
    refused and changes nothing. */
module Store {
  import opened Common
  import opened Records
  import opened Sorting

  /** The message of the error a refused write raises. */
  const QuotaExceeded: string := "QuotaExceededError"

  /** The contents of a store: records by key, the key generator (the key
      the next `add` assigns) and the quota. */
  datatype TableState<T> = TableState(records: map<nat, T>, nextId: nat, limit: nat)
  {
    ghost predicate Valid()
    {
      nextId >= 1 && forall k :: k in records ==> 0 < k < nextId
    }

    /** Whether the quota leaves room for one more record. */
    predicate HasRoom() { |records| < limit }

    /** `add`: the value under a fresh positive key, or the quota error. */
    function Add(value: T): (r: (TableState<T>, Result<nat>))
      requires Valid()
      ensures r.0.Valid() && r.0.limit == limit
      ensures HasRoom() ==> r.1 == Ok(nextId) && r.0.records == records[nextId := value] && r.0.nextId == nextId + 1
      ensures !HasRoom() ==> r.1 == Err(QuotaExceeded) && r.0 == this
      ensures r.1.Ok? ==> r.1.value > 0 && r.1.value !in records && |r.0.records| == |records| + 1
    {
      if HasRoom() then (TableState(records[nextId := value], nextId + 1, limit), Ok(nextId))
      else (this, Err(QuotaExceeded))
    }

    /** `put` of a value whose `id` is `id`, a key the store assigned:
        replaces the record under `id`, or inserts it (moving the key
        generator past `id`) when there is none. */
    function Put(id: nat, value: T): (r: (TableState<T>, Result<nat>))
      requires Valid() && id > 0
      ensures r.0.Valid() && r.0.limit == limit
      ensures id in records || HasRoom() ==>
        r.1 == Ok(id) && r.0.records == records[id := value] && r.0.nextId == Max(nextId, id + 1)
      ensures !(id in records || HasRoom()) ==> r.1 == Err(QuotaExceeded) && r.0 == this
      ensures id in records ==> |r.0.records| == |records|
    {
      if id in records || HasRoom() then (TableState(records[id := value], Max(nextId, id + 1), limit), Ok(id))
      else (this, Err(QuotaExceeded))
    }

    /** `delete`: no record under `id` afterwards; the rest is kept. */
    function Delete(id: nat): (r: TableState<T>)
      requires Valid()
      ensures r.Valid() && r.records == records - {id} && r.nextId == nextId && r.limit == limit
    {
      TableState(records - {id}, nextId, limit)
    }

    /** `get`: the record under `id`, if any. */
    function Get(id: nat): (r: Option<T>)
      ensures r.Some? <==> id in records
      ensures r.Some? ==> r.value == records[id]
    {
      if id in records then Some(records[id]) else None
    }

    /** `getByIndex` (and, with a predicate that holds everywhere, `getAll`):
        the records whose indexed field has the requested value, described
        by `matches`, with their keys, in increasing key order. */
    function Where(matches: T -> bool): (r: seq<Entry<T>>)
      requires Valid()
      ensures forall i :: 0 <= i < |r| ==> r[i].id in records && records[r[i].id] == r[i].value && matches(r[i].value)
      ensures forall i, j :: 0 <= i < j < |r| ==> r[i].id < r[j].id
      ensures forall k :: k in records && matches(records[k]) ==> exists i :: 0 <= i < |r| && r[i].id == k
    {
      EntriesBelowListsRecords(records, nextId, matches);
      EntriesBelow(records, nextId, matches)
    }
  }

  /** The entries' keys increase, as `getByIndex` returns them. */
  ghost predicate InKeyOrder<T>(s: seq<Entry<T>>)
  {
    forall i, j :: 0 <= i < j < |s| ==> s[i].id < s[j].id
  }

  /** Sorting entries loaded in key order by the negation of `key` (by
      descending `key`) leaves the entries of each `key` in key order. */
  lemma BandsInKeyOrder<T>(loaded: seq<Entry<T>>, sorted: seq<Entry<T>>, key: Entry<T> -> real, neg: Entry<T> -> real)
    requires InKeyOrder(loaded)
    requires forall x :: neg(x) == -key(x)
    requires forall k :: Band(sorted, neg, k) == Band(loaded, neg, k)
    ensures forall k :: InKeyOrder(Band(sorted, key, k))
  {
    forall k ensures InKeyOrder(Band(sorted, key, k)) {
      BandOfNegatedKey(sorted, key, neg, k);
      BandOfNegatedKey(loaded, key, neg, k);
      BandKeepsOrder(loaded, key, k, (a: Entry<T>, b: Entry<T>) => a.id < b.id);
    }
  }

  /** An empty store with the given quota. */
  function Empty<T>(limit: nat): (r: TableState<T>)
    ensures r.Valid() && r.records == map[]
  {
    TableState(map[], 1, limit)
  }

  /** The entries of `m` with keys below `n` whose values satisfy `p`, in
      increasing key order. */
  function EntriesBelow<T>(m: map<nat, T>, n: nat, p: T -> bool): seq<Entry<T>>
  {
    if n == 0 then []
    else if n - 1 in m && p(m[n - 1]) then EntriesBelow(m, n - 1, p) + [Entry(n - 1, m[n - 1])]
    else EntriesBelow(m, n - 1, p)
  }

  ghost predicate ListsRecords<T>(r: seq<Entry<T>>, m: map<nat, T>, n: nat, p: T -> bool)
  {
    && (forall i :: 0 <= i < |r| ==> r[i].id < n && r[i].id in m && m[r[i].id] == r[i].value && p(r[i].value))
    && (forall i, j :: 0 <= i < j < |r| ==> r[i].id < r[j].id)
    && (forall k :: k in m && k < n && p(m[k]) ==> exists i :: 0 <= i < |r| && r[i].id == k)
  }

  /** `EntriesBelow` lists exactly the records under keys below `n` that
      satisfy `p`, each once, by increasing key. */
  lemma {:induction false} EntriesBelowListsRecords<T>(m: map<nat, T>, n: nat, p: T -> bool)
    ensures ListsRecords(EntriesBelow(m, n, p), m, n, p)
  {
    if n > 0 {
      EntriesBelowListsRecords(m, n - 1, p);
      if n - 1 in m && p(m[n - 1]) {
        ListsRecordsSnoc(EntriesBelow(m, n - 1, p), m, n, p);
      } else {
        ListsRecordsSkip(EntriesBelow(m, n - 1, p), m, n, p);
      }
    }
  }

  /** A listing below `n - 1` followed by the record under `n - 1` lists the records below `n`. */
  lemma ListsRecordsSnoc<T>(r: seq<Entry<T>>, m: map<nat, T>, n: nat, p: T -> bool)
    requires n > 0 && ListsRecords(r, m, n - 1, p) && n - 1 in m && p(m[n - 1])
    ensures ListsRecords(r + [Entry(n - 1, m[n - 1])], m, n, p)
  {
    var s := r + [Entry(n - 1, m[n - 1])];
    assert forall i :: 0 <= i < |r| ==> s[i] == r[i];
    forall k | k in m && k < n && p(m[k]) ensures exists i :: 0 <= i < |s| && s[i].id == k {
      if k < n - 1 {
        var i :| 0 <= i < |r| && r[i].id == k;
        assert s[i].id == k;
      } else {
        assert s[|s| - 1].id == k;
      }
    }
  }

  /** Without a record under `n - 1` to list, a listing below `n - 1` lists the records below `n`. */
  lemma ListsRecordsSkip<T>(r: seq<Entry<T>>, m: map<nat, T>, n: nat, p: T -> bool)
    requires n > 0 && ListsRecords(r, m, n - 1, p) && !(n - 1 in m && p(m[n - 1]))
    ensures ListsRecords(r, m, n, p)
  {
    forall k | k in m && k < n && p(m[k]) ensures exists i :: 0 <= i < |r| && r[i].id == k {
      assert k < n - 1;
    }
  }

  /** One object store, changed in place by the calls the components make. */
  class Table<T> {
    var state: TableState<T>

    constructor (limit: nat)
      ensures state == Empty(limit)
    {
      state := Empty(limit);
    }

    /** `db.add(store, value)`. */
    method Add(value: T) returns (r: Result<nat>)
      requires state.Valid()
      modifies this
      ensures (state, r) == old(state).Add(value)
    {
      var next := state.Add(value);
      state := next.0;
      r := next.1;
    }

    /** `db.update(store, value)` for a value whose `id` is `id`. */
    method Put(id: nat, value: T) returns (r: Result<nat>)
      requires state.Valid() && id > 0
      modifies this
      ensures (state, r) == old(state).Put(id, value)
    {
      var next := state.Put(id, value);
      state := next.0;
      r := next.1;
    }

    /** `db.delete(store, id)`. */
    method Delete(id: nat)
      requires state.Valid()
      modifies this
      ensures state == old(state).Delete(id)
    {
      state := state.Delete(id);
    }
  }

  /** The database: one store per kind of record. */
  class Database {
    const cycles: Table<Cycle>
    const cages: Table<Cage>
    const productionLogs: Table<ProductionLog>
    const feedLogs: Table<FeedLog>
    const sales: Table<Sale>
    const expenses: Table<Expense>
    const vaccinations: Table<Vaccination>

    ghost predicate Valid()
      reads this, cycles, cages, productionLogs, feedLogs, sales, expenses, vaccinations
    {
      && cycles.state.Valid() && cages.state.Valid() && productionLogs.state.Valid()
      && feedLogs.state.Valid() && sales.state.Valid() && expenses.state.Valid()
      && vaccinations.state.Valid()
    }

    constructor (limit: nat)
      ensures Valid()
      ensures fresh(cycles) && fresh(cages) && fresh(productionLogs) && fresh(feedLogs)
      ensures fresh(sales) && fresh(expenses) && fresh(vaccinations)
    {
      cycles := new Table(limit);
      cages := new Table(limit);
      productionLogs := new Table(limit);
      feedLogs := new Table(limit);
      sales := new Table(limit);
      expenses := new Table(limit);
      vaccinations := new Table(limit);
    }
  }
}
