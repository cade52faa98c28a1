/**
 * A transaction of the optimistic scheduler: its start timestamp, its list
 * of queries, the cursor into that list and the values it has read so far.
 * Queries are kept abstract: only the kind of a query and the names of the
 * data items it touches matter to the scheduler.
 */
module Transactions {
  import opened Wrappers

  /** The four query kinds, each over a list of data item names. */
  datatype Query =
    | ReadQuery(names: seq<string>)
    | WriteQuery(names: seq<string>)
    | DisplayQuery(names: seq<string>)
    | FunctionQuery(names: seq<string>)

  /** `Transaction`: the cursor and the start timestamp change in place. */
  class Transaction {
    var startTimestamp: int
    const listOfQueries: seq<Query>
    var queryIndex: nat
    /** The values of the data items the transaction has touched, by name. */
    var dictData: map<string, int>

    /** A new transaction is at its first query and holds no values. */
    constructor (startTimestamp: int, listOfQueries: seq<Query>)
      ensures this.startTimestamp == startTimestamp && this.listOfQueries == listOfQueries
      ensures queryIndex == 0 && dictData == map[]
    {
      this.startTimestamp := startTimestamp;
      this.listOfQueries := listOfQueries;
      queryIndex := 0;
      dictData := map[];
    }

    /** `length`: the number of queries. */
    function Length(): (n: nat)
      reads this
      ensures n == |listOfQueries|
    {
      |listOfQueries|
    }

    /** `current_query`: the query under the cursor; indexing past the end raises, here None. */
    function CurrentQuery(): (r: Option<Query>)
      reads this
      ensures r.Some? <==> queryIndex < Length()
      ensures r.Some? ==> r.value == listOfQueries[queryIndex]
    {
      if queryIndex < |listOfQueries| then Some(listOfQueries[queryIndex]) else None
    }

    /** `is_finished`: the cursor is exactly at the end. */
    predicate IsFinished(): (r: bool)
      reads this
      ensures r <==> queryIndex == Length()
      ensures r ==> CurrentQuery().None?
    {
      queryIndex == |listOfQueries|
    }

    /** `next_query`: the cursor moves by exactly one; nothing else changes. */
    method NextQuery()
      modifies this
      ensures queryIndex == old(queryIndex) + 1
      ensures startTimestamp == old(startTimestamp) && dictData == old(dictData)
    {
      queryIndex := queryIndex + 1;
    }

    /** `rollback(n)`: restart under timestamp `n` from the first query with no values; the queries stay. */
    method Rollback(newTimestamp: int)
      modifies this
      ensures startTimestamp == newTimestamp && queryIndex == 0 && dictData == map[]
    {
      startTimestamp := newTimestamp;
      queryIndex := 0;
      dictData := map[];
    }
  }
}
