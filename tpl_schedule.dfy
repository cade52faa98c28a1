/**
 * What the two two-phase-locking drivers share: the parsed schedule entries
 * (`parse_schedule`), the trace tokens (`add_result` and friends), the wait
 * queue helpers and the replay state that `run` updates.
 */
module TplSchedule {
  import opened Wrappers
  import opened Locks

  /** `Operation`: READ, WRITE, COMMIT. */
  datatype Operation = Read | Write | Commit

  /** One `(operation, transaction_id, data_item)` triple of the parsed schedule. */
  datatype Entry = Entry(op: Operation, txn: nat, item: string)

  /**
   * What `parse_schedule` raises: "Invalid operation" for an unknown first
   * character, IndexError for a missing character, ValueError when the
   * second character is not a digit.
   */
  datatype ParseError = InvalidOperation | IndexError | ValueError

  predicate IsDigit(c: char) {
    '0' <= c <= '9'
  }

  function DigitValue(c: char): nat
    requires IsDigit(c)
  {
    (c as int - '0' as int) as nat
  }

  function DigitChar(n: nat): char
    requires n < 10
  {
    ('0' as int + n) as char
  }

  /** `match s[0].upper()`: R, W and C in either case name the three operations. */
  function OpOf(c: char): (r: Option<Operation>)
    ensures r == Some(Read) <==> c in {'R', 'r'}
    ensures r == Some(Write) <==> c in {'W', 'w'}
    ensures r == Some(Commit) <==> c in {'C', 'c'}
  {
    if c == 'R' || c == 'r' then Some(Read)
    else if c == 'W' || c == 'w' then Some(Write)
    else if c == 'C' || c == 'c' then Some(Commit)
    else None
  }

  /** `s[3:-1]`: the characters between index 3 and the last one, "" when there are none. */
  function ItemOf(s: string): (r: string)
    ensures |s| >= 5 ==> r == s[3..|s| - 1]
    ensures |s| < 5 ==> r == ""
  {
    if |s| >= 5 then s[3..|s| - 1] else ""
  }

  /**
   * One loop iteration of `parse_schedule`: the operation from the first
   * character, the id from the second (`int(s[1])`, a single digit), the
   * item from `s[3:-1]`.
   */
  function ParseToken(s: string): (r: Result<Entry, ParseError>)
    ensures r.Ok? <==> |s| >= 2 && OpOf(s[0]).Some? && IsDigit(s[1])
    ensures r.Ok? ==> r.value == Entry(OpOf(s[0]).value, DigitValue(s[1]), ItemOf(s))
    ensures r == Err(InvalidOperation) <==> |s| >= 1 && OpOf(s[0]).None?
    ensures r == Err(ValueError) <==> |s| >= 2 && OpOf(s[0]).Some? && !IsDigit(s[1])
    ensures r.Ok? ==> r.value.txn < 10
  {
    if s == [] then Err(IndexError)
    else match OpOf(s[0])
      case None => Err(InvalidOperation)
      case Some(op) =>
        if |s| < 2 then Err(IndexError)
        else if !IsDigit(s[1]) then Err(ValueError)
        else Ok(Entry(op, DigitValue(s[1]), ItemOf(s)))
  }

  /**
   * `parse_schedule`: succeeds exactly when every token parses, then gives
   * one entry per token in the same order.
   */
  function ParseSchedule(toks: seq<string>): (r: Result<seq<Entry>, ParseError>)
    ensures r.Ok? <==> forall i :: 0 <= i < |toks| ==> ParseToken(toks[i]).Ok?
    ensures r.Ok? ==> |r.value| == |toks| && forall i :: 0 <= i < |toks| ==> ParseToken(toks[i]) == Ok(r.value[i])
  {
    if toks == [] then Ok([])
    else
      match ParseToken(toks[0])
      case Err(e) => Err(e)
      case Ok(entry) =>
        match ParseSchedule(toks[1..])
        case Err(e) => Err(e)
        case Ok(rest) => Ok([entry] + rest)
  }

  /** A failing `parse_schedule` reports the error of the first token that does not parse. */
  lemma {:induction false} ParseScheduleFirstError(toks: seq<string>)
    requires ParseSchedule(toks).Err?
    ensures exists i :: 0 <= i < |toks| && ParseToken(toks[i]) == Err(ParseSchedule(toks).error)
                        && forall j :: 0 <= j < i ==> ParseToken(toks[j]).Ok?
  {
    if ParseToken(toks[0]).Ok? {
      ParseScheduleFirstError(toks[1..]);
      var i :| 0 <= i < |toks[1..]| && ParseToken(toks[1..][i]) == Err(ParseSchedule(toks[1..]).error)
               && forall j :: 0 <= j < i ==> ParseToken(toks[1..][j]).Ok?;
      forall j | 0 <= j < i + 1 ensures ParseToken(toks[j]).Ok? {
        if j > 0 {
          assert toks[j] == toks[1..][j - 1];
        }
      }
      assert ParseToken(toks[i + 1]) == Err(ParseSchedule(toks).error);
    } else {
      assert ParseToken(toks[0]) == Err(ParseSchedule(toks).error);
    }
  }

  /** `str(n)`: the decimal digits of `n`, most significant first. */
  function IdString(n: nat): (r: string)
    ensures |r| >= 1 && forall i :: 0 <= i < |r| ==> IsDigit(r[i])
    ensures n < 10 ==> r == [DigitChar(n)]
  {
    if n < 10 then [DigitChar(n)] else IdString(n / 10) + [DigitChar(n % 10)]
  }

  /** The number a string of decimal digits denotes. */
  function DecimalValue(s: string): nat
    requires forall i :: 0 <= i < |s| ==> IsDigit(s[i])
  {
    if s == [] then 0 else DecimalValue(s[..|s| - 1]) * 10 + DigitValue(s[|s| - 1])
  }

  /** `int(str(n)) == n`: the id string denotes the id. */
  lemma {:induction false} IdStringValue(n: nat)
    ensures DecimalValue(IdString(n)) == n
  {
    if n >= 10 {
      IdStringValue(n / 10);
      var s := IdString(n);
      assert s[..|s| - 1] == IdString(n / 10);
      assert s[|s| - 1] == DigitChar(n % 10);
    }
  }

  /** The mode `run` requests: X for a write or without upgrade, S for a read with upgrade. */
  function RequestedMode(upgrade: bool, op: Operation): (m: LockType)
    ensures m == S <==> op != Write && upgrade
  {
    if op == Write || !upgrade then X else S
  }

  /** `add_result`: "R", "W" or "C", the id, and "(<item>)" unless the item is "". */
  function OpToken(op: Operation, t: nat, d: string): string {
    (match op case Read => "R" case Write => "W" case Commit => "C")
    + IdString(t) + (if d != "" then "(" + d + ")" else "")
  }

  /** `add_lock_result`: "SL" for a shared lock, "XL" for an exclusive one. */
  function LockToken(t: nat, d: string, m: LockType): string {
    (if m == S then "SL" else "XL") + IdString(t) + "(" + d + ")"
  }

  /** `add_upgrade_result`: "XU" for an upgrade to X, "SU" otherwise. */
  function UpgradeToken(t: nat, d: string, m: LockType): string {
    (if m == X then "XU" else "SU") + IdString(t) + "(" + d + ")"
  }

  /** `add_unlock_result`. */
  function UnlockToken(t: nat, d: string): string {
    "UL" + IdString(t) + "(" + d + ")"
  }

  /** `add_rollback_result`. */
  function RollbackToken(t: nat, d: string): string {
    "RB" + IdString(t) + "(" + d + ")"
  }

  /** A rollback token is never an operation token: its second character is 'B', not a digit. */
  lemma RollbackIsNotOp(x: nat, d: string, op: Operation, t: nat, e: string)
    ensures RollbackToken(x, d) != OpToken(op, t, e)
  {
    assert RollbackToken(x, d)[1] == 'B';
    assert OpToken(op, t, e)[1] == IdString(t)[0];
  }

  /** The `UL` tokens of commit, one per item in the given order. */
  function UnlockTokens(t: nat, items: seq<string>): (r: seq<string>)
    ensures |r| == |items|
    ensures forall i :: 0 <= i < |items| ==> r[i] == UnlockToken(t, items[i])
  {
    if items == [] then [] else [UnlockToken(t, items[0])] + UnlockTokens(t, items[1..])
  }

  /** `UnlockTokens` grows by one token per item. */
  lemma UnlockTokensSnoc(t: nat, items: seq<string>, d: string)
    ensures UnlockTokens(t, items + [d]) == UnlockTokens(t, items) + [UnlockToken(t, d)]
  {
    var a := UnlockTokens(t, items + [d]);
    var b := UnlockTokens(t, items) + [UnlockToken(t, d)];
    assert |a| == |b|;
    forall i | 0 <= i < |a| ensures a[i] == b[i] {
      if i < |items| {
        assert (items + [d])[i] == items[i];
      }
    }
  }

  /**
   * Round trip: for a single-digit id, the token `add_result` writes parses
   * back to the entry it was written for, commits without an item included.
   */
  lemma ParseOpToken(op: Operation, t: nat, d: string)
    requires t < 10
    ensures ParseToken(OpToken(op, t, d)) == Ok(Entry(op, t, d))
  {
    var s := OpToken(op, t, d);
    if d != "" {
      assert s == [s[0], DigitChar(t)] + "(" + d + ")";
      assert s[3..|s| - 1] == d;
    }
  }

  /** The tokens `add_result` writes for a list of entries, one per entry and in order. */
  function ScheduleTokens(es: seq<Entry>): (r: seq<string>)
    ensures |r| == |es|
    ensures forall i :: 0 <= i < |es| ==> r[i] == OpToken(es[i].op, es[i].txn, es[i].item)
  {
    if es == [] then [] else [OpToken(es[0].op, es[0].txn, es[0].item)] + ScheduleTokens(es[1..])
  }

  /** Round trip of a whole schedule: entries with single-digit ids, written as tokens, parse back to themselves. */
  lemma {:induction false} ParseScheduleTokens(es: seq<Entry>)
    requires forall i :: 0 <= i < |es| ==> es[i].txn < 10
    ensures ParseSchedule(ScheduleTokens(es)) == Ok(es)
  {
    if es != [] {
      ParseOpToken(es[0].op, es[0].txn, es[0].item);
      ParseScheduleTokens(es[1..]);
      assert ScheduleTokens(es)[1..] == ScheduleTokens(es[1..]);
      assert [es[0]] + es[1..] == es;
    }
  }

  /** `sub` occurs in `s` starting at position `i`. */
  predicate OccursAt(s: string, sub: string, i: int) {
    0 <= i <= |s| - |sub| && s[i..i + |sub|] == sub
  }

  /** `sub in s` on strings: `sub` occurs in `s` at some position. */
  predicate Contains(s: string, sub: string): (r: bool)
    ensures r <==> exists i :: OccursAt(s, sub, i)
    decreases |s|
  {
    if |sub| <= |s| && s[..|sub|] == sub then
      assert OccursAt(s, sub, 0);
      true
    else if s == [] then false
    else
      var rest := Contains(s[1..], sub);
      if rest then
        var i :| OccursAt(s[1..], sub, i);
        assert s[i + 1..i + 1 + |sub|] == s[1..][i..i + |sub|];
        assert OccursAt(s, sub, i + 1);
        true
      else
        forall i | 0 < i <= |s| - |sub| ensures !OccursAt(s, sub, i) {
          assert s[i..i + |sub|] == s[1..][i - 1..i - 1 + |sub|];
          assert !OccursAt(s[1..], sub, i - 1);
        }
        false
  }

  /** A string occurs in any string built around it. */
  lemma ContainsMiddle(a: string, b: string, c: string)
    ensures Contains(a + b + c, b)
  {
    assert (a + b + c)[|a|..|a| + |b|] == b;
    assert OccursAt(a + b + c, b, |a|);
  }

  /** `[t for t in toks if key in t]`: the tokens mentioning `key`, in their order. */
  function Mentioning(toks: seq<string>, key: string): (r: seq<string>)
    ensures |r| <= |toks|
    ensures forall x :: x in r <==> x in toks && Contains(x, key)
  {
    if toks == [] then []
    else if Contains(toks[0], key) then [toks[0]] + Mentioning(toks[1..], key)
    else Mentioning(toks[1..], key)
  }

  /** Order kept: the tokens of `a + b` mentioning `key` are those of `a`, then those of `b`. */
  lemma {:induction false} MentioningConcat(a: seq<string>, b: seq<string>, key: string)
    ensures Mentioning(a + b, key) == Mentioning(a, key) + Mentioning(b, key)
  {
    if a == [] {
      assert a + b == b;
    } else {
      assert (a + b)[1..] == a[1..] + b;
      MentioningConcat(a[1..], b, key);
    }
  }

  /** `[t for t in s if t not in bad]`: the elements of `s` outside `bad`, in their order. */
  function FilterOut<T(==, !new)>(s: seq<T>, bad: seq<T>): (r: seq<T>)
    ensures |r| <= |s|
    ensures forall x :: x in r <==> x in s && x !in bad
  {
    if s == [] then []
    else if s[0] in bad then FilterOut(s[1..], bad)
    else [s[0]] + FilterOut(s[1..], bad)
  }

  /** Order kept: filtering `a + b` filters `a`, then `b`. */
  lemma {:induction false} FilterOutConcat<T(!new)>(a: seq<T>, b: seq<T>, bad: seq<T>)
    ensures FilterOut(a + b, bad) == FilterOut(a, bad) + FilterOut(b, bad)
  {
    if a == [] {
      assert a + b == b;
    } else {
      assert (a + b)[1..] == a[1..] + b;
      FilterOutConcat(a[1..], b, bad);
    }
  }

  /** `s[i:]` for an index found by a search, where -1 (nothing found) selects the last element. */
  function PySuffix<T(!new)>(s: seq<T>, i: int): (r: seq<T>)
    requires -1 <= i <= |s|
    ensures |r| <= |s| && r == s[|s| - |r|..]
    ensures forall x :: x in r ==> x in s
  {
    var r := if i >= 0 then s[i..] else if s == [] then [] else s[|s| - 1..];
    assert forall k :: 0 <= k < |r| ==> r[k] == s[|s| - |r| + k];
    r
  }

  /** Python's slice: from a found index `i` it is `s[i:]`; from -1 it is the last element alone, or nothing when `s` is empty. */
  lemma PySuffixSlice<T(!new)>(s: seq<T>, i: int)
    requires -1 <= i <= |s|
    ensures 0 <= i ==> PySuffix(s, i) == s[i..]
    ensures i == -1 ==> PySuffix(s, i) == (if s == [] then [] else [s[|s| - 1]])
  {
  }

  /** `is_waiting`: some queued entry is of transaction `t`. */
  predicate IsWaiting(q: seq<Entry>, t: nat): (r: bool)
    ensures r <==> exists i :: 0 <= i < |q| && q[i].txn == t
  {
    if q == [] then false
    else if q[0].txn == t then true
    else
      assert forall i :: 1 <= i < |q| ==> q[i] == q[1..][i - 1];
      IsWaiting(q[1..], t)
  }

  /** `remove_queue`: the queued entries of other transactions, in their order. */
  function RemoveQueue(q: seq<Entry>, t: nat): (r: seq<Entry>)
    ensures |r| <= |q|
    ensures forall e :: e in r <==> e in q && e.txn != t
    ensures !IsWaiting(r, t)
  {
    if q == [] then []
    else if q[0].txn == t then RemoveQueue(q[1..], t)
    else
      var rest := RemoveQueue(q[1..], t);
      assert forall i :: 0 <= i < |rest| ==> rest[i] in rest;
      [q[0]] + rest
  }

  /** Queue order kept: removing from `a + b` removes from `a`, then from `b`. */
  lemma {:induction false} RemoveQueueConcat(a: seq<Entry>, b: seq<Entry>, t: nat)
    ensures RemoveQueue(a + b, t) == RemoveQueue(a, t) + RemoveQueue(b, t)
  {
    if a == [] {
      assert a + b == b;
    } else {
      assert (a + b)[1..] == a[1..] + b;
      RemoveQueueConcat(a[1..], b, t);
    }
  }

  /** The number of COMMIT entries: what pays for the re-queued entries of each flush. */
  function CommitCount(s: seq<Entry>): nat {
    if s == [] then 0 else (if s[0].op == Commit then 1 else 0) + CommitCount(s[1..])
  }

  lemma {:induction false} CommitCountConcat(a: seq<Entry>, b: seq<Entry>)
    ensures CommitCount(a + b) == CommitCount(a) + CommitCount(b)
  {
    if a == [] {
      assert a + b == b;
    } else {
      assert (a + b)[1..] == a[1..] + b;
      CommitCountConcat(a[1..], b);
    }
  }

  /** What `run` updates: the remaining schedule, the wait queue, the trace and the lock table. */
  datatype Replay = Replay(sched: seq<Entry>, queue: seq<Entry>, trace: seq<string>, table: Table)

  /** `queue_to_schedule`: the queue, in FIFO order, goes before the remaining schedule and empties. */
  function Flush(st: Replay): (r: Replay)
    ensures r.queue == [] && r.sched == st.queue + st.sched
    ensures r.trace == st.trace && r.table == st.table
  {
    st.(sched := st.queue + st.sched, queue := [])
  }

  /** Flushing loses no commit: the commits of schedule and queue together are unchanged. */
  lemma FlushCommitCount(st: Replay)
    ensures CommitCount(Flush(st).sched + Flush(st).queue) == CommitCount(st.sched + st.queue)
  {
    CommitCountConcat(st.queue, st.sched);
    CommitCountConcat(st.sched, st.queue);
    assert Flush(st).sched + [] == st.queue + st.sched;
    CommitCountConcat(st.queue + st.sched, []);
  }

  /** The last element, if any. */
  function Last<T>(s: seq<T>): (r: Option<T>)
    ensures r.Some? <==> s != []
    ensures r.Some? ==> r.value == s[|s| - 1]
  {
    if s == [] then None else Some(s[|s| - 1])
  }

  /** A step wrote `tok` last and kept the trace before it. */
  predicate Appended(before: seq<string>, after: seq<string>, tok: string) {
    |after| > |before| && after[..|before|] == before && after[|after| - 1] == tok
  }

  /** How a replay ends: the schedule ran out with an empty queue, or `run` raised. */
  datatype Failure = Deadlock | CommitIndexError | OutOfFuel

  datatype Outcome = Outcome(st: Replay, failure: Option<Failure>)
}
