/** The offset coordinator: one record per partition says which offset may be committed. */
module Offsets {
  import opened Types

  datatype Record = Record(maxOffset: int, inFlight: bool, completed: bool)

  type Records = map<int, Record>

  /** Negation of the first panic: a batch is already in flight. */
  predicate CanDispatch(rs: Records, p: int) {
    p in rs ==> !rs[p].inFlight
  }

  /** Negation of the second panic: the completed offset is not the dispatched one. */
  predicate CanComplete(rs: Records, p: int, offset: int) {
    p in rs ==> rs[p].maxOffset == offset
  }

  function Dispatched(rs: Records, p: int, offset: int): Records {
    rs[p := Record(offset, true, false)]
  }

  function Completed(rs: Records, p: int, offset: int): Records {
    if p !in rs || (rs[p].completed && rs[p].maxOffset == offset) then rs
    else rs[p := rs[p].(inFlight := false, completed := true)]
  }

  function Committable(rs: Records): map<int, int> {
    map p | p in rs && rs[p].completed :: rs[p].maxOffset + 1
  }

  class Coordinator {
    var records: Records

    constructor ()
      ensures records == map[]
    {
      records := map[];
    }

    method BatchDispatched(p: int, maxOffset: int)
      requires CanDispatch(records, p)
      modifies this
      ensures records == Dispatched(old(records), p, maxOffset)
      ensures p !in Committable(records)
    {
      records := records[p := Record(maxOffset, true, false)];
    }

    method BatchComplete(p: int, maxOffset: int)
      requires CanComplete(records, p, maxOffset)
      modifies this
      ensures records == Completed(old(records), p, maxOffset)
      ensures p in old(records) && (old(records)[p].inFlight || old(records)[p].completed)
              ==> p in Committable(records) && Committable(records)[p] == maxOffset + 1
    {
      if p !in records {
        return;
      }
      var state := records[p];
      if state.completed && state.maxOffset == maxOffset {
        return;
      }
      records := records[p := state.(inFlight := false, completed := true)];
    }

    /** Fills the result map record by record. */
    method Report() returns (result: map<int, int>)
      ensures result == Committable(records)
    {
      result := map[];
      var todo: set<int> := records.Keys;
      while todo != {}
        invariant todo <= records.Keys
        invariant result == map p | p in records && p !in todo && records[p].completed :: records[p].maxOffset + 1
        decreases |todo|
      {
        Inhabited(todo);
        var q :| q in todo;
        if records[q].completed {
          result := result[q := records[q].maxOffset + 1];
        }
        todo := todo - {q};
      }
    }

    method Reset(p: int)
      modifies this
      ensures records == old(records) - {p}
    {
      records := records - {p};
    }
  }
}
