/**
 * Optimistic concurrency control (`OCC.run`) with backward validation: a
 * schedule of timestamps says whose next query runs at each tick; a
 * transaction that reaches its end is validated against every active
 * transaction and either commits or is rolled back under a fresh timestamp
 * and rescheduled at the end.
 *
 * Both copies of the scheduler are modelled here: the one whose Read and
 * Write queries touch one item is the one whose queries touch a list of
 * items, with one-element lists.
 */
module OptimisticConcurrencyControl {
  import opened Wrappers
  import opened Transactions

  /** `sys.maxsize` on a 64-bit platform: the end timestamp of a transaction that has not committed. */
  const MaxSize: int := 0x7fff_ffff_ffff_ffff

  /** What the scheduler sees of an `OCCTransaction`. */
  datatype View = View(start: int, queries: seq<Query>, index: nat, end: int, written: set<string>, read: set<string>)

  /** A new `OCCTransaction`: at its first query, not committed, nothing read or written. */
  function NewView(start: int, queries: seq<Query>): (x: View)
    ensures x.start == start && x.queries == queries && x.index == 0
    ensures x.end == MaxSize && x.written == {} && x.read == {}
  {
    View(start, queries, 0, MaxSize, {}, {})
  }

  /**
   * `validation_test(v, other)`: passes when this transaction did not start
   * after `other`, or started after `other` ended, or overlaps `other`,
   * validates after `other` ended and read nothing `other` wrote.
   */
  predicate ValidationTest(x: View, v: int, other: View) {
    if x.start <= other.start then true
    else if x.start >= other.end then true
    else if x.start < other.end && v >= other.end && x.read !! other.written then true
    else false
  }

  /** A transaction always passes against itself. */
  lemma ValidationSelf(x: View, v: int)
    ensures ValidationTest(x, v, x)
  {
  }

  /** Against a transaction with an overlapping lifetime the test is exactly the late-and-disjoint rule. */
  lemma ValidationOverlap(x: View, v: int, other: View)
    requires other.start < x.start < other.end
    ensures ValidationTest(x, v, other) <==> v >= other.end && x.read !! other.written
  {
  }

  /** An earlier transaction that has not committed makes every validation before `sys.maxsize` fail. */
  lemma ValidationFailsAgainstUncommitted(x: View, v: int, other: View)
    requires other.start < x.start < MaxSize && other.end == MaxSize && v < MaxSize
    ensures !ValidationTest(x, v, other)
  {
  }

  /** The item names of a query list, as a set. */
  function NameSet(names: seq<string>): (r: set<string>)
    ensures forall n :: n in r <==> n in names
  {
    set n | n in names
  }

  /**
   * `next_query`: a Write query adds its items to the write-set, a Read
   * query to the read-set, a Display or Function query to neither; the cursor
   * moves by exactly one and nothing else changes.
   */
  function NextQueryView(x: View): (r: View)
    requires x.index < |x.queries|
    ensures r.index == x.index + 1
    ensures r.start == x.start && r.queries == x.queries && r.end == x.end
    ensures x.queries[x.index].WriteQuery? ==> r.written == x.written + NameSet(x.queries[x.index].names)
    ensures !x.queries[x.index].WriteQuery? ==> r.written == x.written
    ensures x.queries[x.index].ReadQuery? ==> r.read == x.read + NameSet(x.queries[x.index].names)
    ensures !x.queries[x.index].ReadQuery? ==> r.read == x.read
  {
    var x1 := match x.queries[x.index]
      case WriteQuery(names) => x.(written := x.written + NameSet(names))
      case ReadQuery(names) => x.(read := x.read + NameSet(names))
      case _ => x;
    x1.(index := x.index + 1)
  }

  /** `rollback(n)`: both sets emptied, then the base rollback; the end timestamp is kept. */
  function RollbackView(x: View, n: int): (r: View)
    ensures r.start == n && r.index == 0 && r.written == {} && r.read == {}
    ensures r.queries == x.queries && r.end == x.end
  {
    x.(start := n, index := 0, written := {}, read := {})
  }

  /**
   * `get_transaction(ts)`: the first transaction, in list order, whose start
   * timestamp is `ts`; None where the generator would raise.
   */
  function FindTransaction(txns: seq<View>, ts: int): (r: Option<nat>)
    ensures r.Some? ==> r.value < |txns| && txns[r.value].start == ts
  {
    if txns == [] then None
    else if txns[0].start == ts then Some(0)
    else
      var k := FindTransaction(txns[1..], ts);
      if k.None? then None else Some(k.value + 1)
  }

  /** The lookup finds the first match, and finds none exactly when no transaction has timestamp `ts`. */
  lemma {:induction false} FindTransactionFirst(txns: seq<View>, ts: int)
    ensures FindTransaction(txns, ts).Some? ==> forall j :: 0 <= j < FindTransaction(txns, ts).value ==> txns[j].start != ts
    ensures FindTransaction(txns, ts).None? <==> forall j :: 0 <= j < |txns| ==> txns[j].start != ts
  {
    if txns != [] && txns[0].start != ts {
      FindTransactionFirst(txns[1..], ts);
      assert forall j :: 1 <= j < |txns| ==> txns[j] == txns[1..][j - 1];
    }
  }

  /** Changing a transaction without changing its start timestamp keeps every lookup. */
  lemma {:induction false} FindTransactionUpdate(txns: seq<View>, k: nat, x: View, ts: int)
    requires k < |txns| && x.start == txns[k].start
    ensures FindTransaction(txns[k := x], ts) == FindTransaction(txns, ts)
  {
    if k > 0 {
      assert txns[k := x][1..] == txns[1..][k - 1 := x];
      FindTransactionUpdate(txns[1..], k - 1, x, ts);
    }
  }

  /** The outcome of the `all(...)` over the active timestamps. */
  datatype Validation = AllValid | Invalid(ts: int) | Missing(ts: int)

  /** `x` passes its test against the transaction that timestamp `ts` names. */
  predicate PassesAgainst(txns: seq<View>, x: View, v: int, ts: int) {
    match FindTransaction(txns, ts)
    case None => false
    case Some(k) => ValidationTest(x, v, txns[k])
  }

  /**
   * `all(validation_test(v, get_transaction(ts)) for ts in active)`, left to
   * right: the first timestamp that fails or names no transaction decides.
   */
  function ValidateAll(txns: seq<View>, x: View, v: int, active: seq<int>): (r: Validation)
    ensures r.Invalid? ==> r.ts in active && FindTransaction(txns, r.ts).Some?
                           && !ValidationTest(x, v, txns[FindTransaction(txns, r.ts).value])
    ensures r.Missing? ==> r.ts in active && FindTransaction(txns, r.ts).None?
  {
    if active == [] then AllValid
    else
      match FindTransaction(txns, active[0])
      case None => Missing(active[0])
      case Some(k) =>
        if !ValidationTest(x, v, txns[k]) then Invalid(active[0])
        else
          ValidateAll(txns, x, v, active[1..])
  }

  /** The `all(...)` holds exactly when `x` passes against every active timestamp. */
  lemma {:induction false} ValidateAllPasses(txns: seq<View>, x: View, v: int, active: seq<int>)
    ensures ValidateAll(txns, x, v, active) == AllValid
            <==> forall i :: 0 <= i < |active| ==> PassesAgainst(txns, x, v, active[i])
  {
    if active != [] {
      ValidateAllPasses(txns, x, v, active[1..]);
      assert forall i :: 1 <= i < |active| ==> active[i] == active[1..][i - 1];
    }
  }

  /** `[ts for ts in s if ts != x]`. */
  function Without(s: seq<int>, x: int): (r: seq<int>)
    ensures |r| <= |s|
    ensures forall y :: y in r <==> y in s && y != x
  {
    if s == [] then []
    else if s[0] == x then Without(s[1..], x)
    else [s[0]] + Without(s[1..], x)
  }

  /** Order kept: dropping `x` from `a + b` drops it from `a`, then from `b`. */
  lemma {:induction false} WithoutConcat(a: seq<int>, b: seq<int>, x: int)
    ensures Without(a + b, x) == Without(a, x) + Without(b, x)
  {
    if a == [] {
      assert a + b == b;
    } else {
      assert (a + b)[1..] == a[1..] + b;
      WithoutConcat(a[1..], b, x);
    }
  }

  /** `[n for _ in range(k)]`. */
  function Repeat(n: int, k: nat): (r: seq<int>)
    ensures |r| == k && forall i :: 0 <= i < k ==> r[i] == n
  {
    if k == 0 then [] else [n] + Repeat(n, k - 1)
  }

  /** The transactions and the loop variables of `run`. */
  datatype OccState = OccState(txns: seq<View>, temp: seq<int>, active: seq<int>, counter: int)

  /**
   * Where `run` raises: a timestamp naming no transaction (`next` on an
   * empty generator), a finished transaction scheduled again (`current_query`
   * past the end); and the fuel bound of the model.
   */
  datatype OccError = NoSuchTransaction(ts: int) | QueryIndexOutOfRange(ts: int) | OutOfFuel

  datatype OccOutcome = OccOutcome(st: OccState, error: Option<OccError>)

  /**
   * The failure branch of `run`: the remaining ticks and the active entry of
   * `cur` go, transaction `k` restarts under `cur + counter + len(remaining)`
   * and one tick of that timestamp per query is appended.
   */
  function Restart(txns: seq<View>, k: nat, cur: int, temp: seq<int>, active: seq<int>, counter: int): (r: OccState)
    requires k < |txns|
    ensures forall ts :: ts in r.active <==> ts in active && ts != cur
    ensures var rest := Without(temp, cur);
            var n := cur + counter + |rest|;
            r.temp == rest + Repeat(n, |txns[k].queries|) && cur !in rest
            && r.txns == txns[k := RollbackView(txns[k], n)]
    ensures r.counter == counter + 1
  {
    var rest := Without(temp, cur);
    var n := cur + counter + |rest|;
    OccState(txns[k := RollbackView(txns[k], n)], rest + Repeat(n, |txns[k].queries|), Without(active, cur), counter + 1)
  }

  /**
   * One iteration of the loop of `run`: pop a timestamp, make it active,
   * run the next query of its transaction and, when that was the last one,
   * validate at `current + counter`: commit with that end timestamp, or drop
   * the timestamp, roll back under `current + counter + len(remaining)` and
   * append that many ticks as there are queries. The counter moves by one.
   */
  function Tick(s: OccState): (r: OccOutcome)
    requires s.temp != []
    ensures r.error.None? ==> r.st.counter == s.counter + 1 && |r.st.txns| == |s.txns|
    ensures r.error.Some? ==> !r.error.value.OutOfFuel?
  {
    var cur := s.temp[0];
    var temp := s.temp[1..];
    var active := Activate(s.active, cur);
    var s0 := s.(temp := temp, active := active);
    match FindTransaction(s.txns, cur)
    case None => OccOutcome(s0, Some(NoSuchTransaction(cur)))
    case Some(k) => Advance(s.txns, k, cur, temp, active, s.counter)
  }

  /**
   * The rest of the iteration for transaction `k`, whose timestamp `cur`
   * was popped: `current_query` raises past the end; otherwise run the next
   * query and, when it was the last, validate.
   */
  function Advance(txns: seq<View>, k: nat, cur: int, temp: seq<int>, active: seq<int>, counter: int): (r: OccOutcome)
    requires k < |txns|
    ensures r.error.None? ==> r.st.counter == counter + 1 && |r.st.txns| == |txns|
    ensures r.error == Some(QueryIndexOutOfRange(cur)) <==> txns[k].index >= |txns[k].queries|
    ensures r.error.Some? && txns[k].index < |txns[k].queries| ==>
              txns[k].index + 1 == |txns[k].queries| && r.error.value.NoSuchTransaction? && r.error.value.ts in active
  {
    var x := txns[k];
    if x.index >= |x.queries| then OccOutcome(OccState(txns, temp, active, counter), Some(QueryIndexOutOfRange(cur)))
    else
      var x1 := NextQueryView(x);
      var txns1 := txns[k := x1];
      if x1.index != |x1.queries| then
        OccOutcome(OccState(txns1, temp, active, counter + 1), None)
      else
        Finish(txns1, k, cur, temp, active, counter)
  }

  /**
   * The end of a transaction in `run`: transaction `k` validates at
   * `cur + counter` against the active timestamps and commits with that end
   * timestamp or takes the failure branch.
   */
  function Finish(txns: seq<View>, k: nat, cur: int, temp: seq<int>, active: seq<int>, counter: int): (r: OccOutcome)
    requires k < |txns|
    ensures r.error.None? ==> r.st.counter == counter + 1 && |r.st.txns| == |txns|
    ensures r.error.Some? ==> r.error.value.NoSuchTransaction? && r.error.value.ts in active
                              && FindTransaction(txns, r.error.value.ts).None?
  {
    var v := cur + counter;
    match ValidateAll(txns, txns[k], v, active)
    case Missing(ts) => OccOutcome(OccState(txns, temp, active, counter), Some(NoSuchTransaction(ts)))
    case AllValid => OccOutcome(OccState(txns[k := txns[k].(end := v)], temp, active, counter + 1), None)
    case Invalid(_) => OccOutcome(Restart(txns, k, cur, temp, active, counter), None)
  }

  /** An active timestamp that names no transaction makes the `all(...)` raise. */
  lemma FinishMissing(txns: seq<View>, k: nat, cur: int, temp: seq<int>, active: seq<int>, counter: int, ts: int)
    requires k < |txns| && ValidateAll(txns, txns[k], cur + counter, active) == Missing(ts)
    ensures Finish(txns, k, cur, temp, active, counter) == OccOutcome(OccState(txns, temp, active, counter), Some(NoSuchTransaction(ts)))
  {
  }

  /** A passed validation commits transaction `k` with end timestamp `cur + counter` and changes nothing else. */
  lemma FinishValid(txns: seq<View>, k: nat, cur: int, temp: seq<int>, active: seq<int>, counter: int)
    requires k < |txns| && ValidateAll(txns, txns[k], cur + counter, active) == AllValid
    ensures Finish(txns, k, cur, temp, active, counter)
            == OccOutcome(OccState(txns[k := txns[k].(end := cur + counter)], temp, active, counter + 1), None)
  {
  }

  /** A failed validation takes the failure branch. */
  lemma FinishInvalid(txns: seq<View>, k: nat, cur: int, temp: seq<int>, active: seq<int>, counter: int)
    requires k < |txns| && ValidateAll(txns, txns[k], cur + counter, active).Invalid?
    ensures Finish(txns, k, cur, temp, active, counter) == OccOutcome(Restart(txns, k, cur, temp, active, counter), None)
  {
  }

  /** The active list after `cur` is popped: `cur` is appended when it is new. */
  function Activate(active: seq<int>, cur: int): (r: seq<int>)
    ensures cur in r && forall ts :: ts in active ==> ts in r
    ensures forall ts :: ts in r ==> ts in active || ts == cur
  {
    if cur in active then active else active + [cur]
  }

  /**
   * An ordinary tick: the popped timestamp names transaction `k`, which has
   * more than one query left; it becomes active, runs its next query, and the
   * counter moves by one.
   */
  lemma TickNext(s: OccState, k: nat)
    requires s.temp != [] && FindTransaction(s.txns, s.temp[0]) == Some(k)
    requires s.txns[k].index + 1 < |s.txns[k].queries|
    ensures Tick(s) == OccOutcome(OccState(s.txns[k := NextQueryView(s.txns[k])], s.temp[1..],
                                           Activate(s.active, s.temp[0]), s.counter + 1), None)
  {
  }

  /** A popped timestamp that names no transaction makes `get_transaction` raise, after the pop and the activation. */
  lemma TickMissing(s: OccState)
    requires s.temp != [] && FindTransaction(s.txns, s.temp[0]).None?
    ensures Tick(s) == OccOutcome(s.(temp := s.temp[1..], active := Activate(s.active, s.temp[0])),
                                  Some(NoSuchTransaction(s.temp[0])))
  {
  }

  /** A finished transaction scheduled again makes `current_query` raise. */
  lemma TickPastEnd(s: OccState, k: nat)
    requires s.temp != [] && FindTransaction(s.txns, s.temp[0]) == Some(k)
    requires s.txns[k].index >= |s.txns[k].queries|
    ensures Tick(s).error == Some(QueryIndexOutOfRange(s.temp[0]))
    ensures Tick(s).st == s.(temp := s.temp[1..], active := Activate(s.active, s.temp[0]))
  {
  }

  /** A transaction that finishes and validates commits with end timestamp `current + counter`. */
  lemma TickCommit(s: OccState, k: nat)
    requires s.temp != [] && FindTransaction(s.txns, s.temp[0]) == Some(k)
    requires s.txns[k].index + 1 == |s.txns[k].queries|
    requires ValidateAll(s.txns[k := NextQueryView(s.txns[k])], NextQueryView(s.txns[k]),
                         s.temp[0] + s.counter, Activate(s.active, s.temp[0])) == AllValid
    ensures Tick(s).error.None? && Tick(s).st.txns[k].end == s.temp[0] + s.counter
    ensures Tick(s).st.txns[k].index == |s.txns[k].queries| && Tick(s).st.temp == s.temp[1..]
  {
  }

  /** Tick of a transaction that runs its last query is `Finish`. */
  lemma TickFinishes(s: OccState, k: nat)
    requires s.temp != [] && FindTransaction(s.txns, s.temp[0]) == Some(k)
    requires s.txns[k].index + 1 == |s.txns[k].queries|
    ensures Tick(s) == Finish(s.txns[k := NextQueryView(s.txns[k])], k, s.temp[0], s.temp[1..],
                              Activate(s.active, s.temp[0]), s.counter)
  {
  }

  /**
   * The transaction that fails the test of `x` is never `x` itself: when
   * `x`'s own timestamp names `x`, the failing timestamp is another one.
   */
  lemma InvalidIsOther(txns: seq<View>, k: nat, v: int, active: seq<int>)
    requires k < |txns| && FindTransaction(txns, txns[k].start) == Some(k)
    requires ValidateAll(txns, txns[k], v, active).Invalid?
    ensures ValidateAll(txns, txns[k], v, active).ts in active
    ensures ValidateAll(txns, txns[k], v, active).ts != txns[k].start
  {
    ValidationSelf(txns[k], v);
  }

  /** A failed validation of a transaction its own timestamp names restarts it and leaves another timestamp active. */
  lemma FinishInvalidActive(txns: seq<View>, k: nat, cur: int, temp: seq<int>, active: seq<int>, counter: int)
    requires k < |txns| && txns[k].start == cur && FindTransaction(txns, cur) == Some(k)
    requires ValidateAll(txns, txns[k], cur + counter, active).Invalid?
    ensures Finish(txns, k, cur, temp, active, counter) == OccOutcome(Restart(txns, k, cur, temp, active, counter), None)
    ensures Restart(txns, k, cur, temp, active, counter).active != []
  {
    FinishInvalid(txns, k, cur, temp, active, counter);
    InvalidIsOther(txns, k, cur + counter, active);
    var ts := ValidateAll(txns, txns[k], cur + counter, active).ts;
    assert ts in Restart(txns, k, cur, temp, active, counter).active;
  }

  /**
   * A transaction that finishes and fails validation takes the failure
   * branch, and the active list stays non-empty: the transaction that failed
   * the test is another one, whose timestamp stays active (so the
   * `active_timestamp[-1]` of the conflict message exists).
   */
  lemma TickRollback(s: OccState, k: nat)
    requires s.temp != [] && FindTransaction(s.txns, s.temp[0]) == Some(k)
    requires s.txns[k].index + 1 == |s.txns[k].queries|
    requires ValidateAll(s.txns[k := NextQueryView(s.txns[k])], NextQueryView(s.txns[k]),
                         s.temp[0] + s.counter, Activate(s.active, s.temp[0])).Invalid?
    ensures Tick(s) == OccOutcome(Restart(s.txns[k := NextQueryView(s.txns[k])], k, s.temp[0], s.temp[1..],
                                          Activate(s.active, s.temp[0]), s.counter), None)
    ensures Tick(s).st.active != []
  {
    TickFinishes(s, k);
    FinishRollback(s, k);
  }

  /** The `Finish` that `TickRollback` reaches takes the failure branch and leaves another timestamp active. */
  lemma FinishRollback(s: OccState, k: nat)
    requires s.temp != [] && FindTransaction(s.txns, s.temp[0]) == Some(k)
    requires s.txns[k].index + 1 == |s.txns[k].queries|
    requires ValidateAll(s.txns[k := NextQueryView(s.txns[k])], NextQueryView(s.txns[k]),
                         s.temp[0] + s.counter, Activate(s.active, s.temp[0])).Invalid?
    ensures Finish(s.txns[k := NextQueryView(s.txns[k])], k, s.temp[0], s.temp[1..], Activate(s.active, s.temp[0]), s.counter)
            == OccOutcome(Restart(s.txns[k := NextQueryView(s.txns[k])], k, s.temp[0], s.temp[1..],
                                  Activate(s.active, s.temp[0]), s.counter), None)
    ensures Restart(s.txns[k := NextQueryView(s.txns[k])], k, s.temp[0], s.temp[1..], Activate(s.active, s.temp[0]), s.counter).active != []
  {
    var x1 := NextQueryView(s.txns[k]);
    var txns1 := s.txns[k := x1];
    assert txns1[k] == x1;
    FindTransactionUpdate(s.txns, k, x1, s.temp[0]);
    FinishInvalidActive(txns1, k, s.temp[0], s.temp[1..], Activate(s.active, s.temp[0]), s.counter);
  }

  /** `run`: tick until the schedule is empty, within `fuel` ticks. */
  function RunTicks(s: OccState, fuel: nat): (r: OccOutcome)
    ensures r.error.None? ==> r.st.temp == [] && r.st.counter >= s.counter
    ensures r.error.None? ==> |r.st.txns| == |s.txns|
    decreases fuel
  {
    if s.temp == [] then OccOutcome(s, None)
    else if fuel == 0 then OccOutcome(s, Some(OutOfFuel))
    else
      var o := Tick(s);
      if o.error.Some? then o else RunTicks(o.st, fuel - 1)
  }

  /** A tick that raises ends `run` with that error. */
  lemma {:induction false} RunTicksError(s: OccState, fuel: nat)
    requires s.temp != [] && fuel > 0 && Tick(s).error.Some?
    ensures RunTicks(s, fuel) == Tick(s)
  {
  }

  /** Equal fuel, equal runs: turns an arithmetic fact about the fuel into an equation between runs. */
  lemma {:induction false} SameFuel(s: OccState, a: nat, b: nat)
    requires a == b
    ensures RunTicks(s, a) == RunTicks(s, b)
  {
  }

  /** A tick without error, then the rest from the state it leaves. */
  lemma {:induction false} RunTicksNext(s: OccState, rest: nat)
    requires s.temp != [] && Tick(s).error.None?
    ensures RunTicks(s, rest + 1) == RunTicks(Tick(s).st, rest)
  {
  }

  /** One iteration of the loop of `run` inside the run: an error ends it, otherwise the run goes on from the new state. */
  lemma {:induction false} RunTicksLoop(s: OccState, fuel: nat, rest: nat)
    requires s.temp != [] && fuel == rest + 1
    ensures Tick(s).error.Some? ==> RunTicks(s, fuel) == Tick(s)
    ensures Tick(s).error.None? ==> RunTicks(s, fuel) == RunTicks(Tick(s).st, rest)
  {
    if Tick(s).error.Some? {
      RunTicksError(s, fuel);
    } else {
      RunTicksNext(s, rest);
      SameFuel(s, fuel, rest + 1);
    }
  }

  /** What `run` starts from: a copy of the schedule, nothing active, counter 0. */
  function Initial(txns: seq<View>, schedule: seq<int>): OccState {
    OccState(txns, schedule, [], 0)
  }

  /** The objects of a list of transactions: each one and its base. */
  ghost function Footprint(ts: seq<OccTransaction>): (r: set<object>)
    ensures forall i :: 0 <= i < |ts| ==> ts[i] in r && ts[i].base in r
  {
    if ts == [] then {} else {ts[0] as object, ts[0].base} + Footprint(ts[1..])
  }

  /** The views of a list of transactions, slot by slot. */
  function ViewsOf(ts: seq<OccTransaction>): (r: seq<View>)
    reads Footprint(ts)
    ensures |r| == |ts| && forall i :: 0 <= i < |ts| ==> r[i] == ts[i].State()
  {
    if ts == [] then [] else [ts[0].State()] + ViewsOf(ts[1..])
  }

  /**
   * `OCCTransaction`: a `Transaction` (its start timestamp, cursor and
   * values live in `base`) with an end timestamp and the sets of item names
   * read and written so far.
   */
  class OccTransaction {
    const base: Transaction
    var endTimestamp: int
    var dataItemWritten: set<string>
    var dataItemRead: set<string>

    /** A new transaction: at its first query, end timestamp `sys.maxsize`, both sets empty. */
    constructor (startTimestamp: int, listOfQueries: seq<Query>)
      ensures fresh(base) && base.dictData == map[]
      ensures State() == NewView(startTimestamp, listOfQueries)
    {
      base := new Transaction(startTimestamp, listOfQueries);
      endTimestamp := MaxSize;
      dataItemWritten := {};
      dataItemRead := {};
    }

    /** What the scheduler sees of this transaction. */
    function State(): View
      reads this, base
    {
      View(base.startTimestamp, base.listOfQueries, base.queryIndex, endTimestamp, dataItemWritten, dataItemRead)
    }

    /**
     * `next_query`: record the names of the current query in the write-set
     * or the read-set, one by one, then move the cursor. With the cursor past
     * the end, `current_query` raises before anything changes: `ok` is false.
     */
    method NextQuery() returns (ok: bool)
      modifies this, base
      ensures ok <==> old(base.queryIndex) < |base.listOfQueries|
      ensures ok ==> State() == NextQueryView(old(State()))
      ensures !ok ==> State() == old(State())
      ensures base.dictData == old(base.dictData)
    {
      var q := base.CurrentQuery();
      if q.None? {
        return false;
      }
      match q.value {
        case WriteQuery(names) =>
          for i := 0 to |names|
            invariant State() == old(State()).(written := old(dataItemWritten) + NameSet(names[..i]))
            invariant base.dictData == old(base.dictData)
          {
            assert names[..i + 1] == names[..i] + [names[i]];
            dataItemWritten := dataItemWritten + {names[i]};
          }
          assert names[..|names|] == names;
        case ReadQuery(names) =>
          for i := 0 to |names|
            invariant State() == old(State()).(read := old(dataItemRead) + NameSet(names[..i]))
            invariant base.dictData == old(base.dictData)
          {
            assert names[..i + 1] == names[..i] + [names[i]];
            dataItemRead := dataItemRead + {names[i]};
          }
          assert names[..|names|] == names;
        case _ =>
      }
      base.NextQuery();
      ok := true;
    }

    /** `rollback(n)`: empty both sets, then the base rollback to timestamp `n`. */
    method Rollback(newTimestamp: int)
      modifies this, base
      ensures State() == RollbackView(old(State()), newTimestamp) && base.dictData == map[]
    {
      dataItemWritten := {};
      dataItemRead := {};
      base.Rollback(newTimestamp);
    }
  }

  /** `OCC`: the transactions and the schedule of timestamps; the transactions change in place. */
  class OCC {
    const transactions: seq<OccTransaction>
    const schedule: seq<int>

    /** The constructor of `ConcurrencyControl`: both lists are kept as given. */
    constructor (transactions: seq<OccTransaction>, schedule: seq<int>)
      ensures this.transactions == transactions && this.schedule == schedule
    {
      this.transactions := transactions;
      this.schedule := schedule;
    }

    /** Distinct slots hold distinct transactions. */
    ghost predicate Valid() {
      forall i, j :: 0 <= i < j < |transactions| ==>
        transactions[i] != transactions[j] && transactions[i].base != transactions[j].base
    }

    ghost function Repr(): set<object> {
      Footprint(transactions)
    }

    /** The views of all transactions, slot by slot. */
    function Views(): (r: seq<View>)
      reads Repr()
      ensures |r| == |transactions| && forall i :: 0 <= i < |transactions| ==> r[i] == transactions[i].State()
    {
      ViewsOf(transactions)
    }

    /**
     * `get_transaction(ts)`: the first transaction in list order whose
     * current start timestamp is `ts`; None where `next` would raise.
     */
    function GetTransaction(ts: int): (r: Option<OccTransaction>)
      reads Repr()
      ensures r.Some? ==> r.value in transactions && r.value.base.startTimestamp == ts
      ensures r.Some? ==> exists i :: 0 <= i < |transactions| && transactions[i] == r.value
                                      && forall j :: 0 <= j < i ==> transactions[j].base.startTimestamp != ts
      ensures r.None? <==> forall i :: 0 <= i < |transactions| ==> transactions[i].base.startTimestamp != ts
    {
      FindTransactionFirst(Views(), ts);
      match FindTransaction(Views(), ts)
      case None => None
      case Some(k) => Some(transactions[k])
    }

    /**
     * The `all(...)` of `run`: test `x` at `v` against the transaction of
     * each active timestamp in turn, stopping at the first that fails or
     * names no transaction.
     */
    method ValidateActive(x: OccTransaction, v: int, active: seq<int>) returns (r: Validation)
      ensures r == ValidateAll(Views(), x.State(), v, active)
    {
      var i := 0;
      while i < |active|
        invariant 0 <= i <= |active|
        invariant ValidateAll(Views(), x.State(), v, active) == ValidateAll(Views(), x.State(), v, active[i..])
      {
        assert active[i..][1..] == active[i + 1..];
        var other := GetTransaction(active[i]);
        if other.None? {
          return Missing(active[i]);
        }
        if !ValidationTest(x.State(), v, other.value.State()) {
          return Invalid(active[i]);
        }
        i := i + 1;
      }
      return AllValid;
    }
  
    /** Changing transaction `k` alone changes slot `k` of the views alone. */
    twostate lemma ViewsUpdate(k: nat)
      requires Valid() && k < |transactions|
      requires forall i :: 0 <= i < |transactions| && i != k ==>
                 unchanged(transactions[i], transactions[i].base)
      ensures Views() == old(Views())[k := transactions[k].State()]
    {
    }

    /**
     * One iteration of the loop of `run` over the loop variables
     * `temp_schedule`, `active_timestamp` and `counter`: its effect on the
     * transactions and the variables is `Tick`.
     */
    method RunTick(temp: seq<int>, active: seq<int>, counter: int)
        returns (temp': seq<int>, active': seq<int>, counter': int, error: Option<OccError>)
      requires Valid() && temp != []
      modifies Repr()
      ensures OccOutcome(OccState(Views(), temp', active', counter'), error)
              == Tick(OccState(old(Views()), temp, active, counter))
    {
      ghost var s := OccState(Views(), temp, active, counter);
      var cur := temp[0];
      temp' := temp[1..];
      active' := active;
      if cur !in active' {
        active' := active' + [cur];
      }
      assert active' == Activate(active, cur);
      counter' := counter;
      var t := GetTransaction(cur);
      if t.None? {
        return temp', active', counter', Some(NoSuchTransaction(cur));
      }
      ghost var k := FindTransaction(s.txns, cur).value;
      temp', active', counter', error := AdvanceTick(t.value, k, cur, temp', active', counter);
    }

    /**
     * The rest of the iteration for transaction `k`, which `x` is: run its
     * next query and, when it was the last, validate; the effect is `Advance`.
     */
    method AdvanceTick(x: OccTransaction, ghost k: nat, cur: int, temp: seq<int>, active: seq<int>, counter: int)
        returns (temp': seq<int>, active': seq<int>, counter': int, error: Option<OccError>)
      requires Valid() && k < |transactions| && x == transactions[k]
      modifies Repr()
      ensures OccOutcome(OccState(Views(), temp', active', counter'), error)
              == Advance(old(Views()), k, cur, temp, active, counter)
    {
      ghost var txns := Views();
      temp', active', counter' := temp, active, counter;
      var ok := x.NextQuery();
      ViewsUpdate(k);
      if !ok {
        return temp', active', counter', Some(QueryIndexOutOfRange(cur));
      }
      assert Views() == txns[k := NextQueryView(txns[k])];
      if !x.base.IsFinished() {
        return temp', active', counter + 1, None;
      }
      temp', active', counter', error := FinishTick(x, k, cur, temp', active', counter);
    }

    /**
     * The end of a transaction in the loop of `run`: validate transaction
     * `k`, which `x` is, at `cur + counter`, then commit it or take the
     * failure branch; the effect is `Finish`.
     */
    method FinishTick(x: OccTransaction, ghost k: nat, cur: int, temp: seq<int>, active: seq<int>, counter: int)
        returns (temp': seq<int>, active': seq<int>, counter': int, error: Option<OccError>)
      requires Valid() && k < |transactions| && x == transactions[k]
      modifies Repr()
      ensures OccOutcome(OccState(Views(), temp', active', counter'), error)
              == Finish(old(Views()), k, cur, temp, active, counter)
    {
      ghost var txns := Views();
      var v := cur + counter;
      var valid := ValidateActive(x, v, active);
      assert Views() == txns;
      assert valid == ValidateAll(Views(), Views()[k], cur + counter, active);
      temp', active', counter' := temp, active, counter;
      match valid {
        case Missing(ts) =>
          FinishMissing(txns, k, cur, temp, active, counter, ts);
          error := Some(NoSuchTransaction(ts));
        case AllValid =>
          temp', active', counter', error := CommitFinish(x, k, cur, temp, active, counter);
        case Invalid(_) =>
          temp', active', counter', error := RestartFinish(x, k, cur, temp, active, counter);
      }
    }

    /** The branch of `FinishTick` where validation passes. */
    method CommitFinish(x: OccTransaction, ghost k: nat, cur: int, temp: seq<int>, active: seq<int>, counter: int)
        returns (temp': seq<int>, active': seq<int>, counter': int, error: Option<OccError>)
      requires Valid() && k < |transactions| && x == transactions[k]
      requires ValidateAll(Views(), Views()[k], cur + counter, active).AllValid?
      modifies Repr()
      ensures OccOutcome(OccState(Views(), temp', active', counter'), error)
              == Finish(old(Views()), k, cur, temp, active, counter)
    {
      FinishValid(Views(), k, cur, temp, active, counter);
      CommitTick(x, k, cur + counter);
      temp', active', counter', error := temp, active, counter + 1, None;
    }

    /** The branch of `FinishTick` where validation fails. */
    method RestartFinish(x: OccTransaction, ghost k: nat, cur: int, temp: seq<int>, active: seq<int>, counter: int)
        returns (temp': seq<int>, active': seq<int>, counter': int, error: Option<OccError>)
      requires Valid() && k < |transactions| && x == transactions[k]
      requires ValidateAll(Views(), Views()[k], cur + counter, active).Invalid?
      modifies Repr()
      ensures OccOutcome(OccState(Views(), temp', active', counter'), error)
              == Finish(old(Views()), k, cur, temp, active, counter)
    {
      FinishInvalid(Views(), k, cur, temp, active, counter);
      temp', active' := RestartTick(x, k, cur, temp, active, counter);
      counter', error := counter + 1, None;
    }

    /**
     * The commit branch of `run` for transaction `k`, which `x` is: its end
     * timestamp becomes `v` (what `commit` does to the files is not modelled).
     */
    method CommitTick(x: OccTransaction, ghost k: nat, v: int)
      requires Valid() && k < |transactions| && x == transactions[k]
      modifies Repr()
      ensures Views() == old(Views())[k := old(Views())[k].(end := v)]
    {
      x.endTimestamp := v;
      ViewsUpdate(k);
    }

    /** The failure branch of `run` for transaction `k`, which `x` is: its effect is `Restart`. */
    method RestartTick(x: OccTransaction, ghost k: nat, cur: int, temp: seq<int>, active: seq<int>, counter: int)
        returns (temp': seq<int>, active': seq<int>)
      requires Valid() && k < |transactions| && x == transactions[k]
      modifies Repr()
      ensures OccState(Views(), temp', active', counter + 1) == Restart(old(Views()), k, cur, temp, active, counter)
    {
      ghost var txns := Views();
      temp' := Without(temp, cur);
      active' := Without(active, cur);
      var n := cur + counter + |temp'|;
      x.Rollback(n);
      ViewsUpdate(k);
      assert Views() == txns[k := RollbackView(txns[k], n)];
      temp' := temp' + Repeat(n, x.base.Length());
    }

    /**
     * `run` with at most `fuel` ticks: the transactions end as `RunTicks`
     * from the schedule, nothing active and counter 0 says, with its error.
     */
    method Run(fuel: nat) returns (error: Option<OccError>)
      requires Valid()
      modifies Repr()
      ensures var o := RunTicks(Initial(old(Views()), schedule), fuel);
              error == o.error && Views() == o.st.txns
    {
      ghost var goal := RunTicks(Initial(Views(), schedule), fuel);
      var temp := schedule;
      var active: seq<int> := [];
      var counter := 0;
      var left := fuel;
      while temp != []
        invariant RunTicks(OccState(Views(), temp, active, counter), left) == goal
        decreases left
      {
        if left == 0 {
          return Some(OutOfFuel);
        }
        ghost var s := OccState(Views(), temp, active, counter);
        ghost var before := left;
        var e;
        temp, active, counter, e := RunTick(temp, active, counter);
        left := left - 1;
        RunTicksLoop(s, before, left);
        if e.Some? {
          return e;
        }
      }
      return None;
    }
  }
}
