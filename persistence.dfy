/** A table that accepts bulk inserts (`createMany`), seen as the record of
    the batches handed to it and the rows it holds. Whether an insert fails
    is an input: the database is not part of this model. */
module Persistence {
  import opened Wrappers

  class BulkStore<R> {
    /** Every batch passed to `createMany`, in call order. */
    var calls: seq<seq<R>>
    /** The rows the successful calls stored. */
    var rows: seq<R>

    constructor()
      ensures calls == [] && rows == []
    {
      calls := [];
      rows := [];
    }

    method CreateMany(batch: seq<R>, fails: bool) returns (r: Result<(), string>)
      modifies this
      ensures calls == old(calls) + [batch]
      ensures fails ==> r.Err? && rows == old(rows)
      ensures !fails ==> r.Ok? && rows == old(rows) + batch
    {
      calls := calls + [batch];
      if fails {
        return Err("createMany failed");
      }
      rows := rows + batch;
      return Ok(());
    }
  }
}
