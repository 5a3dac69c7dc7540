/** The record store the handler reads from, as an in-memory value. A table
    answers point lookups by key and full scans; a table that is unreachable
    raises the same error on every call. */
module Store {
  import opened Wrappers
  import opened Records

  /** The items listed by `order`, in that order, skipping keys not stored. */
  function InOrder<T>(items: map<string, T>, order: seq<string>): (r: seq<T>)
    ensures |r| <= |order|
    ensures forall k :: k in order && k in items ==> items[k] in r
    ensures (forall k :: k in order ==> k in items) ==>
              |r| == |order| && forall i :: 0 <= i < |order| ==> r[i] == items[order[i]]
  {
    if |order| == 0 then []
    else
      var rest := InOrder(items, order[1..]);
      if order[0] in items then [items[order[0]]] + rest else rest
  }

  /** A read-only table keyed by strings. `scanOrder` is the order in which a
      scan returns the keys; `fault`, when set, is the text of the error every
      call raises. */
  datatype Table<T> = Table(items: map<string, T>, scanOrder: seq<string>, fault: Option<string>) {

    /** `get_item`: the item stored under `key`, if any. */
    function GetItem(key: string): (r: Result<Option<T>, string>)
      ensures r.Failure? <==> fault.Some?
      ensures r.Failure? ==> r.error == fault.value
      ensures r.Success? ==> (r.value.Some? <==> key in items)
      ensures r.Success? && key in items ==> r.value.value == items[key]
    {
      if fault.Some? then Failure(fault.value)
      else if key in items then Success(Some(items[key]))
      else Success(None)
    }

    /** `scan()["Items"]`: the stored items in scan order. */
    function Scan(): (r: Result<seq<T>, string>)
      ensures r.Failure? <==> fault.Some?
      ensures r.Failure? ==> r.error == fault.value
      ensures r.Success? ==> forall k :: k in scanOrder && k in items ==> items[k] in r.value
    {
      if fault.Some? then Failure(fault.value)
      else Success(InOrder(items, scanOrder))
    }

    /** Every stored key is listed for the scan exactly once, and every
        listed key is stored. */
    predicate Coherent() {
      && (forall i, j :: 0 <= i < j < |scanOrder| ==> scanOrder[i] != scanOrder[j])
      && (forall k :: k in items ==> k in scanOrder)
      && (forall k :: k in scanOrder ==> k in items)
    }
  }

  /** A scan of a reachable, coherent table returns every stored item, and
      returns them in scan order. */
  lemma ScanReturnsEveryItem<T>(t: Table<T>)
    requires t.fault.None? && t.Coherent()
    ensures t.Scan().Success?
    ensures forall k :: k in t.items ==> t.items[k] in t.Scan().value
    ensures |t.Scan().value| == |t.scanOrder|
    ensures forall i :: 0 <= i < |t.scanOrder| ==> t.Scan().value[i] == t.items[t.scanOrder[i]]
  {
  }

  /** The two tables the handler reads. */
  datatype Tables = Tables(students: Table<StudentRecord>, timetable: Table<DayItem>)
}
