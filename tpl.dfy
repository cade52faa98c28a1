/**
 * The two-phase-locking replay driver with the `upgrade` and `rollback`
 * options (`TwoPhaseLocking.run`): it takes entries off the front of the
 * parsed schedule and grants, upgrades, co-holds, queues or wounds, writing
 * the resulting schedule as a trace of tokens.
 *
 * The spec functions describe one step of `run` on a `Replay` value; the
 * class at the end is the driver as an object whose methods update its
 * fields and its lock manager in place, each proved equal to its spec function.
 */
module TwoPhaseLocking {
  import opened Wrappers
  import opened Locks
  import opened TplSchedule

  /** The `upgrade` and `rollback` options of `run`. */
  datatype Config = Config(upgrade: bool, rollback: bool)

  /** `min`. */
  function Min(s: seq<nat>): (m: nat)
    requires s != []
    ensures m in s && forall x :: x in s ==> m <= x
  {
    if |s| == 1 then s[0]
    else
      var rest := Min(s[1..]);
      assert forall x :: x in s ==> x == s[0] || x in s[1..];
      if s[0] <= rest then s[0] else rest
  }

  /** `[c for c in s if c > m]`. */
  function Above(s: seq<nat>, m: nat): (r: seq<nat>)
    ensures forall x :: x in r <==> x in s && x > m
  {
    if s == [] then []
    else if s[0] > m then [s[0]] + Above(s[1..], m)
    else Above(s[1..], m)
  }

  /** List order kept: the ids above `m` in `a + b` are those of `a`, then those of `b`. */
  lemma {:induction false} AboveConcat(a: seq<nat>, b: seq<nat>, m: nat)
    ensures Above(a + b, m) == Above(a, m) + Above(b, m)
  {
    if a == [] {
      assert a + b == b;
    } else {
      assert (a + b)[1..] == a[1..] + b;
      AboveConcat(a[1..], b, m);
    }
  }

  /** The test of the first search of `rollback_transaction`: the token mentions x's lock on d. */
  predicate LockMention(tok: string, x: nat, d: string) {
    Contains(tok, "XL" + IdString(x) + "(" + d + ")") || Contains(tok, "SL" + IdString(x) + "(" + d + ")")
  }

  /** The first index whose token mentions x's lock on d, or -1. */
  function LockIndex(ts: seq<string>, x: nat, d: string): (r: int)
    ensures -1 <= r < |ts|
    ensures r >= 0 ==> LockMention(ts[r], x, d) && forall j :: 0 <= j < r ==> !LockMention(ts[j], x, d)
    ensures r < 0 ==> forall j :: 0 <= j < |ts| ==> !LockMention(ts[j], x, d)
  {
    if ts == [] then -1
    else if LockMention(ts[0], x, d) then 0
    else
      var k := LockIndex(ts[1..], x, d);
      assert forall j :: 1 <= j < |ts| ==> ts[j] == ts[1..][j - 1];
      if k < 0 then -1 else k + 1
  }

  /** The first index whose token is one of `bad`, or -1. */
  function MemberIndex(p: seq<string>, bad: seq<string>): (r: int)
    ensures -1 <= r < |p|
    ensures r >= 0 ==> p[r] in bad && forall j :: 0 <= j < r ==> p[j] !in bad
    ensures r < 0 ==> forall j :: 0 <= j < |p| ==> p[j] !in bad
  {
    if p == [] then -1
    else if p[0] in bad then 0
    else
      var k := MemberIndex(p[1..], bad);
      assert forall j :: 1 <= j < |p| ==> p[j] == p[1..][j - 1];
      if k < 0 then -1 else k + 1
  }

  /** Every token of `toks` is one of `raw`'s, so it parses when `raw` does. */
  lemma ParsesWithin(raw: seq<string>, toks: seq<string>)
    requires ParseSchedule(raw).Ok?
    requires forall tok :: tok in toks ==> tok in raw
    ensures ParseSchedule(toks).Ok?
  {
    forall i | 0 <= i < |toks| ensures ParseToken(toks[i]).Ok? {
      assert toks[i] in toks;
      var k :| 0 <= k < |raw| && raw[k] == toks[i];
    }
  }

  /** The trace tokens `rollback_transaction(x, d)` removes: x's tokens from its lock on d onwards. */
  function RemovedTokens(st: Replay, x: nat, d: string): (r: seq<string>)
    ensures forall tok :: tok in r ==> tok in st.trace && Contains(tok, IdString(x))
  {
    var ts := Mentioning(st.trace, IdString(x));
    PySuffix(ts, LockIndex(ts, x, d))
  }

  /**
   * `rollback_transaction(x, d)`: x's trace tokens from its lock on d onwards
   * leave the trace, the schedule entries re-parsed from the matching tail of
   * x's raw tokens leave the schedule, `RB<x>(<d>)` is appended and all of
   * x's grants are released. No `UL` token is written and the queue is not flushed.
   */
  function Rollback(raw: seq<string>, st: Replay, x: nat, d: string): (r: Replay)
    requires ParseSchedule(raw).Ok?
    ensures r.queue == st.queue
    ensures r.table == st.table.Unlock(x)
    ensures r.trace == FilterOut(st.trace, RemovedTokens(st, x, d)) + [RollbackToken(x, d)]
    ensures forall tok :: tok in st.trace && tok !in r.trace ==> Contains(tok, IdString(x))
    ensures forall e :: e in r.sched ==> e in st.sched
  {
    var key := IdString(x);
    var p := Mentioning(raw, key);
    var tRemove := RemovedTokens(st, x, d);
    var pTail := PySuffix(p, MemberIndex(p, tRemove));
    ParsesWithin(raw, pTail);
    var pAdd := ParseSchedule(pTail).value;
    st.(trace := FilterOut(st.trace, tRemove) + [RollbackToken(x, d)],
        sched := FilterOut(st.sched, pAdd),
        table := st.table.Unlock(x))
  }

  /** The victims of wound-wait rolled back one after the other, in the given order. */
  function RollbackAll(raw: seq<string>, st: Replay, vs: seq<nat>, d: string): (r: Replay)
    requires ParseSchedule(raw).Ok?
    ensures r.queue == st.queue
    ensures forall g :: g in r.table.grants <==> g in st.table.grants && g.txn !in vs
    ensures forall e :: e in r.sched ==> e in st.sched
    decreases |vs|
  {
    if vs == [] then st
    else
      var st1 := Rollback(raw, st, vs[0], d);
      var r := RollbackAll(raw, st1, vs[1..], d);
      assert forall v :: v in vs <==> v == vs[0] || v in vs[1..];
      r
  }

  /** Rolling back victims keeps an exclusive table exclusive. */
  lemma {:induction false} RollbackAllKeepsExclusive(raw: seq<string>, st: Replay, vs: seq<nat>, d: string)
    requires ParseSchedule(raw).Ok? && Exclusive(st.table)
    ensures Exclusive(RollbackAll(raw, st, vs, d).table)
    decreases |vs|
  {
    if vs != [] {
      UnlockKeepsExclusive(st.table, vs[0]);
      RollbackAllKeepsExclusive(raw, Rollback(raw, st, vs[0], d), vs[1..], d);
    }
  }

  /**
   * `wound_wait(t, d)`: when a holder of `d` is older (has a smaller id) than
   * `t`, a WRITE of `t` on `d` is queued; otherwise every holder younger than
   * `t` is rolled back and a WRITE of `t` on `d` goes to the schedule front.
   */
  function WoundWaitStep(raw: seq<string>, st: Replay, t: nat, d: string): (r: Replay)
    requires ParseSchedule(raw).Ok?
    ensures (exists h: nat :: st.table.HasLock(h, d) && h < t) ==>
              r == st.(queue := st.queue + [Entry(Write, t, d)])
    ensures (forall h: nat :: st.table.HasLock(h, d) ==> h >= t) ==>
              r.queue == st.queue && r.sched != [] && r.sched[0] == Entry(Write, t, d)
              && (forall e :: e in r.sched[1..] ==> e in st.sched)
              && (forall g :: g in r.table.grants <==> g in st.table.grants && !(g.txn > t && st.table.HasLock(g.txn, d)))
  {
    var conflicting := st.table.HolderIds(d) + [t];
    assert forall h: nat :: h in conflicting <==> st.table.HasLock(h, d) || h == t;
    var oldest := Min(conflicting);
    if oldest < t then
      st.(queue := st.queue + [Entry(Write, t, d)])
    else
      assert t in conflicting && oldest == t;
      var younger := Above(conflicting, oldest);
      assert forall v: nat :: v in younger <==> v > t && st.table.HasLock(v, d);
      var st1 := RollbackAll(raw, st, younger, d);
      st1.(sched := [Entry(Write, t, d)] + st1.sched)
  }

  lemma WoundWaitKeepsExclusive(raw: seq<string>, st: Replay, t: nat, d: string)
    requires ParseSchedule(raw).Ok? && Exclusive(st.table)
    ensures Exclusive(WoundWaitStep(raw, st, t, d).table)
  {
    var conflicting := st.table.HolderIds(d) + [t];
    var oldest := Min(conflicting);
    if oldest >= t {
      RollbackAllKeepsExclusive(raw, st, Above(conflicting, oldest), d);
    }
  }

  /**
   * `process_read_write(op, t, d, m)`: a waiting transaction's request is
   * queued; on an unlocked item the lock is granted; a holder of the same
   * mode just performs the operation; with upgrade, an unshared holder of a
   * greater mode is upgraded and an S request on an S item co-holds; a
   * remaining conflict goes to wound-wait with rollback and to the queue without.
   */
  function ReadWriteStep(cfg: Config, raw: seq<string>, st: Replay, op: Operation, t: nat, d: string, m: LockType): (r: Replay)
    requires ParseSchedule(raw).Ok?
    ensures !cfg.rollback ==> r.sched == st.sched
    ensures r.queue == st.queue
            || (r.sched == st.sched && r.trace == st.trace && r.table == st.table
                && (r.queue == st.queue + [Entry(op, t, d)] || r.queue == st.queue + [Entry(Write, t, d)]))
  {
    if IsWaiting(st.queue, t) then
      st.(queue := st.queue + [Entry(op, t, d)])
    else if st.table.IsLocked(d) then
      if st.table.HasLock(t, d) && st.table.GrantMode(t, d) == m then
        st.(trace := st.trace + [OpToken(op, t, d)])
      else if st.table.HasLock(t, d) && cfg.upgrade && Greater(st.table.modes[d], m) && !st.table.IsShared(d) then
        st.(table := st.table.Lock(t, d, m), trace := st.trace + [UpgradeToken(t, d, m), OpToken(op, t, d)])
      else if cfg.upgrade && m == st.table.modes[d] && st.table.modes[d] == S then
        st.(table := st.table.Lock(t, d, m), trace := st.trace + [LockToken(t, d, m), OpToken(op, t, d)])
      else if cfg.rollback then
        WoundWaitStep(raw, st, t, d)
      else
        st.(queue := st.queue + [Entry(op, t, d)])
    else
      st.(table := st.table.Lock(t, d, m), trace := st.trace + [LockToken(t, d, m), OpToken(op, t, d)])
  }

  /** The branches of `process_read_write`, stated through the lock-table queries. */
  lemma ReadWriteStepBranches(cfg: Config, raw: seq<string>, st: Replay, op: Operation, t: nat, d: string, m: LockType, r: Replay)
    requires ParseSchedule(raw).Ok? && r == ReadWriteStep(cfg, raw, st, op, t, d, m)
    ensures IsWaiting(st.queue, t) ==> r == st.(queue := st.queue + [Entry(op, t, d)])
    ensures !IsWaiting(st.queue, t) && !st.table.IsLocked(d) ==>
              r == st.(table := st.table.Lock(t, d, m), trace := st.trace + [LockToken(t, d, m), OpToken(op, t, d)])
    ensures !IsWaiting(st.queue, t) && st.table.IsLocked(d) && st.table.HasLock(t, d) && st.table.GrantMode(t, d) == m ==>
              r == st.(trace := st.trace + [OpToken(op, t, d)])
    ensures !IsWaiting(st.queue, t) && st.table.IsLocked(d) && st.table.HasLock(t, d) && st.table.GrantMode(t, d) != m
            && cfg.upgrade && Less(m, st.table.modes[d]) && !st.table.IsShared(d) ==>
              r == st.(table := st.table.Lock(t, d, m), trace := st.trace + [UpgradeToken(t, d, m), OpToken(op, t, d)])
    ensures !IsWaiting(st.queue, t) && st.table.IsLocked(d) && !(st.table.HasLock(t, d) && st.table.GrantMode(t, d) == m)
            && cfg.upgrade && m == S && st.table.modes[d] == S ==>
              r == st.(table := st.table.Lock(t, d, S), trace := st.trace + [LockToken(t, d, S), OpToken(op, t, d)])
    ensures !IsWaiting(st.queue, t) && st.table.IsLocked(d)
            && !(st.table.HasLock(t, d) && st.table.GrantMode(t, d) == m)
            && !(st.table.HasLock(t, d) && cfg.upgrade && Less(m, st.table.modes[d]) && !st.table.IsShared(d))
            && !(cfg.upgrade && m == S && st.table.modes[d] == S) ==>
              r == (if cfg.rollback then WoundWaitStep(raw, st, t, d) else st.(queue := st.queue + [Entry(op, t, d)]))
  {
  }

  /**
   * The regrant: with upgrade, a transaction that still holds X on an item
   * whose key now says S (left behind by `unlock_data` of another holder) is
   * granted S afresh, and its read goes through.
   */
  lemma ReadWriteRegrantsShared(cfg: Config, raw: seq<string>, st: Replay, t: nat, d: string)
    requires ParseSchedule(raw).Ok? && cfg.upgrade && !IsWaiting(st.queue, t)
    requires st.table.HasLock(t, d) && st.table.GrantMode(t, d) == X && st.table.IsLocked(d) && st.table.modes[d] == S
    ensures ReadWriteStep(cfg, raw, st, Read, t, d, S)
            == st.(table := st.table.Lock(t, d, S), trace := st.trace + [LockToken(t, d, S), OpToken(Read, t, d)])
  {
    ReadWriteStepBranches(cfg, raw, st, Read, t, d, S, ReadWriteStep(cfg, raw, st, Read, t, d, S));
  }

  /**
   * `process_commit(t, op, d)`: a waiting transaction's commit is queued;
   * otherwise `C<t>` is written and, when `t` holds locks, one `UL` token per
   * grant in table order, the grants are released and the queue is flushed.
   * An item key "" makes `is_locked_by` raise after `C<t>` was written.
   */
  function CommitStep(st: Replay, t: nat, op: Operation, d: string): (r: Outcome)
    ensures IsWaiting(st.queue, t) ==> r == Outcome(st.(queue := st.queue + [Entry(op, t, d)]), None)
    ensures !IsWaiting(st.queue, t) ==> |r.st.trace| > |st.trace| && r.st.trace[..|st.trace| + 1] == st.trace + [OpToken(op, t, d)]
    ensures !IsWaiting(st.queue, t) ==> (r.failure == Some(CommitIndexError) <==> "" in st.table.modes)
    ensures r.failure.Some? ==> r.failure == Some(CommitIndexError)
    ensures !IsWaiting(st.queue, t) && r.failure.None? && (exists g :: g in st.table.grants && g.txn == t) ==>
              r.st == Flush(st.(trace := st.trace + [OpToken(op, t, d)] + UnlockTokens(t, ItemsOf(st.table.grants, t)),
                                table := st.table.Unlock(t)))
    ensures !IsWaiting(st.queue, t) && r.failure.None? && !(exists g :: g in st.table.grants && g.txn == t) ==>
              r.st == st.(trace := st.trace + [OpToken(op, t, d)])
    ensures r.st.table == st.table || r.st.table == st.table.Unlock(t)
  {
    if IsWaiting(st.queue, t) then
      Outcome(st.(queue := st.queue + [Entry(op, t, d)]), None)
    else
      var st1 := st.(trace := st.trace + [OpToken(op, t, d)]);
      match st.table.IsLockedBy(t)
      case None => Outcome(st1, Some(CommitIndexError))
      case Some(held) =>
        if held then
          Outcome(Flush(st1.(trace := st1.trace + UnlockTokens(t, ItemsOf(st.table.grants, t)), table := st.table.Unlock(t))), None)
        else
          Outcome(st1, None)
  }

  /** Without upgrade every request is for X, and processing it keeps an exclusive table exclusive. */
  lemma ProcessReadWriteKeepsExclusive(cfg: Config, raw: seq<string>, st: Replay, op: Operation, t: nat, d: string)
    requires ParseSchedule(raw).Ok? && !cfg.upgrade && Exclusive(st.table)
    ensures Exclusive(ReadWriteStep(cfg, raw, st, op, t, d, X).table)
  {
    if !IsWaiting(st.queue, t) {
      if !st.table.IsLocked(d) {
        LockFreshKeepsExclusive(st.table, t, d);
      } else if !(st.table.HasLock(t, d) && st.table.GrantMode(t, d) == X) && cfg.rollback {
        WoundWaitKeepsExclusive(raw, st, t, d);
      }
    }
  }

  /** One iteration of the loop of `run`: pop the front entry and process it. */
  function Step(cfg: Config, raw: seq<string>, st: Replay): (r: Outcome)
    requires ParseSchedule(raw).Ok? && st.sched != []
    ensures r.failure.Some? ==> r.failure == Some(CommitIndexError) && st.sched[0].op == Commit
    ensures !cfg.upgrade && Exclusive(st.table) ==> Exclusive(r.st.table)
  {
    var e := st.sched[0];
    var st1 := st.(sched := st.sched[1..]);
    match e.op
    case Commit =>
      assert Exclusive(st1.table) ==> Exclusive(st1.table.Unlock(e.txn)) by {
        if Exclusive(st1.table) {
          UnlockKeepsExclusive(st1.table, e.txn);
        }
      }
      CommitStep(st1, e.txn, e.op, e.item)
    case _ =>
      assert !cfg.upgrade && Exclusive(st1.table) ==>
        Exclusive(ReadWriteStep(cfg, raw, st1, e.op, e.txn, e.item, RequestedMode(cfg.upgrade, e.op)).table) by {
        if !cfg.upgrade && Exclusive(st1.table) {
          ProcessReadWriteKeepsExclusive(cfg, raw, st1, e.op, e.txn, e.item);
        }
      }
      Outcome(ReadWriteStep(cfg, raw, st1, e.op, e.txn, e.item, RequestedMode(cfg.upgrade, e.op)), None)
  }

  /** A rollback's trace ends with its `RB` token. */
  lemma RollbackTraceEnd(raw: seq<string>, st: Replay, x: nat, d: string)
    requires ParseSchedule(raw).Ok?
    ensures Last(Rollback(raw, st, x, d).trace) == Some(RollbackToken(x, d))
  {
  }

  /** A rollback of several victims ends with the `RB` token of the last; no victims leave the state as it was. */
  /** One step of `RollbackAll`: the first victim is rolled back before the rest. */
  lemma RollbackAllStep(raw: seq<string>, st: Replay, vs: seq<nat>, d: string)
    requires ParseSchedule(raw).Ok? && vs != []
    ensures RollbackAll(raw, st, vs, d) == RollbackAll(raw, Rollback(raw, st, vs[0], d), vs[1..], d)
  { }

  lemma {:induction false} RollbackAllTrace(raw: seq<string>, st: Replay, vs: seq<nat>, d: string)
    requires ParseSchedule(raw).Ok?
    ensures vs == [] ==> RollbackAll(raw, st, vs, d) == st
    ensures vs != [] ==> Last(RollbackAll(raw, st, vs, d).trace) == Some(RollbackToken(vs[|vs| - 1], d))
    decreases |vs|
  {
    if vs != [] {
      var st1 := Rollback(raw, st, vs[0], d);
      RollbackTraceEnd(raw, st, vs[0], d);
      if |vs| > 1 {
        RollbackAllTrace(raw, st1, vs[1..], d);
        assert vs[1..][|vs[1..]| - 1] == vs[|vs| - 1];
      }
    }
  }

  /** Wound-wait keeps the trace or ends it with the `RB` token of a victim. */
  lemma WoundWaitTrace(raw: seq<string>, st: Replay, t: nat, d: string)
    requires ParseSchedule(raw).Ok?
    ensures WoundWaitStep(raw, st, t, d).trace == st.trace
            || exists x: nat :: Last(WoundWaitStep(raw, st, t, d).trace) == Some(RollbackToken(x, d))
  {
    var conflicting := st.table.HolderIds(d) + [t];
    var oldest := Min(conflicting);
    if oldest >= t {
      var younger := Above(conflicting, oldest);
      WoundWaitRollsBack(raw, st, t, d);
      RollbackAllTrace(raw, st, younger, d);
      if younger != [] {
        var x: nat := younger[|younger| - 1];
        assert Last(WoundWaitStep(raw, st, t, d).trace) == Some(RollbackToken(x, d));
      }
    }
  }

  /** When an older transaction holds `d`, wound-wait queues the request as a write. */
  lemma WoundWaitQueues(raw: seq<string>, st: Replay, t: nat, d: string)
    requires ParseSchedule(raw).Ok? && Min(st.table.HolderIds(d) + [t]) < t
    ensures WoundWaitStep(raw, st, t, d) == st.(queue := st.queue + [Entry(Write, t, d)])
  { }

  /**
   * When no older transaction holds `d`, wound-wait rolls back the younger
   * holders in table order and puts the write back at the head of the schedule.
   */
  lemma WoundWaitRollsBack(raw: seq<string>, st: Replay, t: nat, d: string)
    requires ParseSchedule(raw).Ok? && Min(st.table.HolderIds(d) + [t]) >= t
    ensures var st1 := RollbackAll(raw, st, Above(st.table.HolderIds(d) + [t], Min(st.table.HolderIds(d) + [t])), d);
            WoundWaitStep(raw, st, t, d) == st1.(sched := [Entry(Write, t, d)] + st1.sched)
  { }

  /** Hence wound-wait never writes an operation token. */
  lemma WoundWaitWritesNoOp(raw: seq<string>, st: Replay, t: nat, d: string, op: Operation)
    requires ParseSchedule(raw).Ok?
    ensures !Appended(st.trace, WoundWaitStep(raw, st, t, d).trace, OpToken(op, t, d))
  {
    WoundWaitTrace(raw, st, t, d);
    var tr := WoundWaitStep(raw, st, t, d).trace;
    if tr != st.trace {
      var x: nat :| Last(tr) == Some(RollbackToken(x, d));
      RollbackIsNotOp(x, d, op, t, d);
    }
  }

  /**
   * Lock before access: whenever `process_read_write` writes the operation
   * token, `t` holds a lock on `d` afterwards, and an exclusive one for a write.
   */
  lemma ReadWriteLockBeforeAccess(cfg: Config, raw: seq<string>, st: Replay, op: Operation, t: nat, d: string)
    requires ParseSchedule(raw).Ok? && op != Commit
    ensures var r := ReadWriteStep(cfg, raw, st, op, t, d, RequestedMode(cfg.upgrade, op));
            Appended(st.trace, r.trace, OpToken(op, t, d)) ==> r.table.HasLock(t, d) && (op == Write ==> r.table.GrantMode(t, d) == X)
  {
    var m := RequestedMode(cfg.upgrade, op);
    var r := ReadWriteStep(cfg, raw, st, op, t, d, m);
    if IsWaiting(st.queue, t) {
      assert r.trace == st.trace;
    } else if !st.table.IsLocked(d) {
      assert r.table == st.table.Lock(t, d, m);
    } else if st.table.HasLock(t, d) && st.table.GrantMode(t, d) == m {
      assert r.table == st.table;
    } else if st.table.HasLock(t, d) && cfg.upgrade && Greater(st.table.modes[d], m) && !st.table.IsShared(d) {
      assert r.table == st.table.Lock(t, d, m);
    } else if cfg.upgrade && m == st.table.modes[d] && st.table.modes[d] == S {
      assert r.table == st.table.Lock(t, d, m);
    } else if cfg.rollback {
      assert r == WoundWaitStep(raw, st, t, d);
      WoundWaitWritesNoOp(raw, st, t, d, op);
    } else {
      assert r.trace == st.trace;
    }
  }

  /**
   * The growing phase: without rollback a read or write never takes away a
   * lock, so locks are released only by commit.
   */
  lemma ReadWriteKeepsLocks(cfg: Config, raw: seq<string>, st: Replay, op: Operation, t: nat, d: string, m: LockType, h: nat, e: string)
    requires ParseSchedule(raw).Ok? && !cfg.rollback && st.table.HasLock(h, e)
    ensures ReadWriteStep(cfg, raw, st, op, t, d, m).table.HasLock(h, e)
  {
    ReadWriteTable(cfg, raw, st, op, t, d, m);
    st.table.LockKeeps(t, d, m, h, e);
  }

  /** Without rollback a read or write leaves the table alone or takes one lock. */
  lemma ReadWriteTable(cfg: Config, raw: seq<string>, st: Replay, op: Operation, t: nat, d: string, m: LockType)
    requires ParseSchedule(raw).Ok? && !cfg.rollback
    ensures ReadWriteStep(cfg, raw, st, op, t, d, m).table in {st.table, st.table.Lock(t, d, m)}
  { }

  /** A commit that goes through releases every lock of the committing transaction and no other. */
  lemma CommitReleases(st: Replay, t: nat, op: Operation, d: string, h: nat, e: string)
    requires !IsWaiting(st.queue, t) && CommitStep(st, t, op, d).failure.None?
    ensures !CommitStep(st, t, op, d).st.table.HasLock(t, e)
    ensures h != t ==> (CommitStep(st, t, op, d).st.table.HasLock(h, e) <==> st.table.HasLock(h, e))
  {
    var r := CommitStep(st, t, op, d).st.table;
    if forall g :: g in st.table.grants ==> g.txn != t {
      assert r == st.table;
    }
  }

  /** The commits still to come, in the schedule or in the queue. */
  function Pending(st: Replay): nat {
    CommitCount(st.sched + st.queue)
  }

  lemma PendingSplit(st: Replay)
    requires st.sched != []
    ensures Pending(st) == CommitCount([st.sched[0]]) + CommitCount(st.sched[1..]) + CommitCount(st.queue)
  {
    assert st.sched == [st.sched[0]] + st.sched[1..];
    CommitCountConcat([st.sched[0]], st.sched[1..]);
    CommitCountConcat(st.sched, st.queue);
  }

  /** Without rollback a read or write keeps the schedule and at most appends its own entry to the queue. */
  lemma ProcessReadWriteShape(cfg: Config, raw: seq<string>, st: Replay, op: Operation, t: nat, d: string, m: LockType)
    requires ParseSchedule(raw).Ok? && !cfg.rollback
    ensures ReadWriteStep(cfg, raw, st, op, t, d, m).sched == st.sched
    ensures ReadWriteStep(cfg, raw, st, op, t, d, m).queue in {st.queue, st.queue + [Entry(op, t, d)]}
  {
  }

  /**
   * Without rollback every step either consumes a commit (which pays for
   * the entries a flush puts back) or leaves the commits alone and shortens
   * the schedule.
   */
  lemma StepMeasure(cfg: Config, raw: seq<string>, st: Replay)
    requires ParseSchedule(raw).Ok? && st.sched != []
    ensures !cfg.rollback && Step(cfg, raw, st).failure.None? ==>
              Pending(Step(cfg, raw, st).st) < Pending(st)
              || (Pending(Step(cfg, raw, st).st) == Pending(st) && |Step(cfg, raw, st).st.sched| < |st.sched|)
  {
    var o := Step(cfg, raw, st);
    if !cfg.rollback && o.failure.None? {
      var e := st.sched[0];
      var rest := st.sched[1..];
      var st1 := st.(sched := rest);
      PendingSplit(st);
      CommitCountConcat(rest, st.queue);
      if e.op == Commit {
        assert o == CommitStep(st1, e.txn, e.op, e.item);
        if IsWaiting(st.queue, e.txn) {
          assert o.st.sched == rest && o.st.queue == st.queue + [e];
          CommitCountConcat(rest, st.queue + [e]);
          CommitCountConcat(st.queue, [e]);
        } else if exists g :: g in st.table.grants && g.txn == e.txn {
          assert o.st.sched == st.queue + rest && o.st.queue == [];
          CommitCountConcat(st.queue, rest);
          CommitCountConcat(o.st.sched, []);
        } else {
          assert o.st.sched == rest && o.st.queue == st.queue;
        }
      } else {
        ProcessReadWriteShape(cfg, raw, st1, e.op, e.txn, e.item, RequestedMode(cfg.upgrade, e.op));
        assert o.st.sched == rest;
        CommitCountConcat(rest, st.queue + [Entry(e.op, e.txn, e.item)]);
        CommitCountConcat(st.queue, [Entry(e.op, e.txn, e.item)]);
      }
    }
  }

  /**
   * `run`: steps until the schedule is empty, then reports Deadlock exactly
   * when entries are still queued. A commit that meets an item key "" stops
   * the run with the IndexError of `is_locked_by`. With rollback the run is
   * given `fuel` steps; without it the run always ends.
   */
  function RunSteps(cfg: Config, raw: seq<string>, st: Replay, fuel: nat): (r: Outcome)
    requires ParseSchedule(raw).Ok?
    ensures r.failure.None? ==> r.st.sched == [] && r.st.queue == []
    ensures r.failure == Some(Deadlock) ==> r.st.sched == [] && r.st.queue != []
    ensures r.failure == Some(OutOfFuel) ==> cfg.rollback
    decreases (if cfg.rollback then fuel else 0), Pending(st), |st.sched|
  {
    if st.sched == [] then
      Outcome(st, if st.queue != [] then Some(Deadlock) else None)
    else if cfg.rollback && fuel == 0 then
      Outcome(st, Some(OutOfFuel))
    else
      var o := Step(cfg, raw, st);
      if o.failure.Some? then o
      else
        StepMeasure(cfg, raw, st);
        RunSteps(cfg, raw, o.st, if cfg.rollback then fuel - 1 else fuel)
  }

  /** One unfolding of `RunSteps` on a pending schedule, with the remaining fuel named. */
  lemma RunStepsNext(cfg: Config, raw: seq<string>, st: Replay, fuel: nat, rest: nat, o: Outcome)
    requires ParseSchedule(raw).Ok? && st.sched != [] && !(cfg.rollback && fuel == 0)
    requires rest == (if cfg.rollback then fuel - 1 else fuel) && Step(cfg, raw, st) == o
    ensures RunSteps(cfg, raw, st, fuel) == if o.failure.Some? then o else RunSteps(cfg, raw, o.st, rest)
    ensures !cfg.rollback && o.failure.None? ==>
              Pending(o.st) < Pending(st) || (Pending(o.st) == Pending(st) && |o.st.sched| < |st.sched|)
  {
    StepMeasure(cfg, raw, st);
  }

  /** Without upgrade, a run that starts from an exclusive table ends with one. */
  lemma {:induction false} RunKeepsExclusive(cfg: Config, raw: seq<string>, st: Replay, fuel: nat)
    requires ParseSchedule(raw).Ok? && !cfg.upgrade && Exclusive(st.table)
    ensures Exclusive(RunSteps(cfg, raw, st, fuel).st.table)
    decreases (if cfg.rollback then fuel else 0), Pending(st), |st.sched|
  {
    if st.sched != [] && !(cfg.rollback && fuel == 0) {
      var o := Step(cfg, raw, st);
      if o.failure.None? {
        StepMeasure(cfg, raw, st);
        RunKeepsExclusive(cfg, raw, o.st, if cfg.rollback then fuel - 1 else fuel);
      }
    }
  }

  /** The replay `TwoPhaseLocking(schedule)` starts from: the parsed schedule and nothing else. */
  function Initial(raw: seq<string>): Replay
    requires ParseSchedule(raw).Ok?
  {
    Replay(ParseSchedule(raw).value, [], [], Table(map[], []))
  }

  /**
   * Mutual exclusion without upgrade: from a fresh lock manager, no item is
   * ever held by two transactions, whatever the rollback option.
   */
  lemma RunExclusiveWithoutUpgrade(raw: seq<string>, rollback: bool, fuel: nat, d: string, t1: nat, t2: nat)
    requires ParseSchedule(raw).Ok?
    requires RunSteps(Config(false, rollback), raw, Initial(raw), fuel).st.table.HasLock(t1, d)
    requires RunSteps(Config(false, rollback), raw, Initial(raw), fuel).st.table.HasLock(t2, d)
    ensures t1 == t2
  {
    EmptyExclusive();
    RunKeepsExclusive(Config(false, rollback), raw, Initial(raw), fuel);
    ExclusiveOneHolder(RunSteps(Config(false, rollback), raw, Initial(raw), fuel).st.table, d, t1, t2);
  }

  /** The first loop of `rollback_transaction`: the index of the first token mentioning x's lock on d, or -1. */
  method FindLock(tSchedule: seq<string>, x: nat, d: string) returns (index: int)
    ensures index == LockIndex(tSchedule, x, d)
  {
    index := -1;
    var i := 0;
    while i < |tSchedule|
      invariant 0 <= i <= |tSchedule| && index == -1
      invariant forall j :: 0 <= j < i ==> !LockMention(tSchedule[j], x, d)
    {
      if LockMention(tSchedule[i], x, d) {
        index := i;
        break;
      }
      i := i + 1;
    }
  }

  /** The second loop of `rollback_transaction`: the index of the first raw token among the removed ones, or -1. */
  method FindMember(pSchedule: seq<string>, tRemove: seq<string>) returns (index: int)
    ensures index == MemberIndex(pSchedule, tRemove)
  {
    index := -1;
    var i := 0;
    while i < |pSchedule|
      invariant 0 <= i <= |pSchedule| && index == -1
      invariant forall j :: 0 <= j < i ==> pSchedule[j] !in tRemove
    {
      if pSchedule[i] in tRemove {
        index := i;
        break;
      }
      i := i + 1;
    }
  }

  /**
   * The driver object: the raw schedule it was built from, the parsed
   * schedule it consumes, its own lock manager, the wait queue, the trace
   * and the two options of `run`.
   */
  class TwoPhaseLocking {
    const schedule: seq<string>
    var parsedSchedule: seq<Entry>
    const locksManager: LockManager
    var waitingQueue: seq<Entry>
    var result: seq<string>
    var upgrade: bool
    var rollback: bool

    ghost predicate Valid()
      reads this, locksManager
    {
      locksManager.Valid() && ParseSchedule(schedule).Ok?
    }

    function State(): Replay
      reads this, locksManager
    {
      Replay(parsedSchedule, waitingQueue, result, locksManager.Snapshot())
    }

    function Cfg(): Config
      reads this
    {
      Config(upgrade, rollback)
    }

    /** The source raises when `parse_schedule` does; here the schedule must parse. */
    constructor (schedule: seq<string>, lockmanager: LockManager)
      requires ParseSchedule(schedule).Ok? && lockmanager.Valid()
      ensures Valid() && locksManager == lockmanager
      ensures this.schedule == schedule && Cfg() == Config(false, false)
      ensures State() == Replay(ParseSchedule(schedule).value, [], [], lockmanager.Snapshot())
    {
      this.schedule := schedule;
      parsedSchedule := ParseSchedule(schedule).value;
      locksManager := lockmanager;
      waitingQueue := [];
      result := [];
      upgrade := false;
      rollback := false;
    }

    method AddQueue(op: Operation, t: nat, d: string)
      modifies this
      ensures State() == old(State()).(queue := old(waitingQueue) + [Entry(op, t, d)]) && Cfg() == old(Cfg())
    {
      waitingQueue := waitingQueue + [Entry(op, t, d)];
    }

    predicate IsWaiting(t: nat)
      reads this
    {
      TplSchedule.IsWaiting(waitingQueue, t)
    }

    method RemoveQueue(t: nat)
      modifies this
      ensures State() == old(State()).(queue := TplSchedule.RemoveQueue(old(waitingQueue), t)) && Cfg() == old(Cfg())
    {
      waitingQueue := TplSchedule.RemoveQueue(waitingQueue, t);
    }

    method AddResult(op: Operation, t: nat, d: string)
      modifies this
      ensures State() == old(State()).(trace := old(result) + [OpToken(op, t, d)]) && Cfg() == old(Cfg())
    {
      result := result + [OpToken(op, t, d)];
    }

    method AddLockResult(t: nat, d: string, m: LockType)
      modifies this
      ensures State() == old(State()).(trace := old(result) + [LockToken(t, d, m)]) && Cfg() == old(Cfg())
    {
      result := result + [LockToken(t, d, m)];
    }

    method AddUpgradeResult(t: nat, d: string, m: LockType)
      modifies this
      ensures State() == old(State()).(trace := old(result) + [UpgradeToken(t, d, m)]) && Cfg() == old(Cfg())
    {
      result := result + [UpgradeToken(t, d, m)];
    }

    method AddUnlockResult(t: nat, d: string)
      modifies this
      ensures State() == old(State()).(trace := old(result) + [UnlockToken(t, d)]) && Cfg() == old(Cfg())
    {
      result := result + [UnlockToken(t, d)];
    }

    method AddRollbackResult(t: nat, d: string)
      modifies this
      ensures State() == old(State()).(trace := old(result) + [RollbackToken(t, d)]) && Cfg() == old(Cfg())
    {
      result := result + [RollbackToken(t, d)];
    }

    /** Drains the queue front first into a list that then goes before the schedule. */
    method QueueToSchedule()
      modifies this
      ensures State() == Flush(old(State())) && Cfg() == old(Cfg())
    {
      var toAdd: seq<Entry> := [];
      while waitingQueue != []
        invariant toAdd + waitingQueue == old(waitingQueue)
        invariant parsedSchedule == old(parsedSchedule) && result == old(result) && Cfg() == old(Cfg())
        decreases |waitingQueue|
      {
        var e := waitingQueue[0];
        waitingQueue := waitingQueue[1..];
        toAdd := toAdd + [e];
      }
      parsedSchedule := toAdd + parsedSchedule;
      waitingQueue := [];
    }

    method RollbackTransaction(x: nat, d: string)
      requires Valid()
      modifies this, locksManager
      ensures Valid() && State() == Rollback(schedule, old(State()), x, d) && Cfg() == old(Cfg())
    {
      var key := IdString(x);
      var pSchedule := Mentioning(schedule, key);
      var tSchedule := Mentioning(result, key);

      var index := FindLock(tSchedule, x, d);
      var tRemove := PySuffix(tSchedule, index);
      index := FindMember(pSchedule, tRemove);
      var pTail := PySuffix(pSchedule, index);
      ParsesWithin(schedule, pTail);
      var pAdd := ParseSchedule(pTail).value;

      result := FilterOut(result, tRemove);
      parsedSchedule := FilterOut(parsedSchedule, pAdd);
      AddRollbackResult(x, d);
      var _ := locksManager.Unlock(x);
    }

    method WoundWait(t: nat, d: string)
      requires Valid()
      modifies this, locksManager
      ensures Valid() && State() == WoundWaitStep(schedule, old(State()), t, d) && Cfg() == old(Cfg())
    {
      ghost var st0 := State();
      var conflicting := locksManager.GetTransactionIds(d) + [t];
      var oldest := Min(conflicting);
      var younger := Above(conflicting, oldest);
      if oldest < t {
        WoundWaitQueues(schedule, st0, t, d);
        AddQueue(Write, t, d);
        return;
      }
      WoundWaitRollsBack(schedule, st0, t, d);
      RollbackYounger(younger, d);
      parsedSchedule := [Entry(Write, t, d)] + parsedSchedule;
    }

    /** The loop of `wound_wait`: `rollback_transaction` for each victim in turn. */
    method RollbackYounger(younger: seq<nat>, d: string)
      requires Valid()
      modifies this, locksManager
      ensures Valid() && State() == RollbackAll(schedule, old(State()), younger, d) && Cfg() == old(Cfg())
    {
      ghost var st0 := State();
      var i := 0;
      while i < |younger|
        invariant 0 <= i <= |younger|
        invariant Valid() && Cfg() == old(Cfg())
        invariant RollbackAll(schedule, State(), younger[i..], d) == RollbackAll(schedule, st0, younger, d)
      {
        RollbackAllStep(schedule, State(), younger[i..], d);
        assert younger[i..][1..] == younger[i + 1..];
        RollbackTransaction(younger[i], d);
        i := i + 1;
      }
    }

    /** `lock_data`, then the lock token and the operation token. */
    method LockAndAccess(op: Operation, t: nat, d: string, m: LockType)
      requires Valid()
      modifies this, locksManager
      ensures Valid() && Cfg() == old(Cfg())
      ensures State() == old(State()).(table := old(State()).table.Lock(t, d, m),
                                        trace := old(result) + [LockToken(t, d, m), OpToken(op, t, d)])
    {
      locksManager.LockData(t, d, m);
      AddLockResult(t, d, m);
      AddResult(op, t, d);
    }

    /** `upgrade_lock`, then the upgrade token and the operation token. */
    method UpgradeAndAccess(op: Operation, t: nat, d: string, m: LockType)
      requires Valid()
      modifies this, locksManager
      ensures Valid() && Cfg() == old(Cfg())
      ensures State() == old(State()).(table := old(State()).table.Lock(t, d, m),
                                        trace := old(result) + [UpgradeToken(t, d, m), OpToken(op, t, d)])
    {
      locksManager.UpgradeLock(t, d, m);
      AddUpgradeResult(t, d, m);
      AddResult(op, t, d);
    }

    method ProcessReadWrite(op: Operation, t: nat, d: string, m: LockType)
      requires Valid()
      modifies this, locksManager
      ensures Valid() && State() == ReadWriteStep(Cfg(), schedule, old(State()), op, t, d, m) && Cfg() == old(Cfg())
    {
      ghost var st0 := State();
      ghost var spec := ReadWriteStep(Cfg(), schedule, st0, op, t, d, m);
      if IsWaiting(t) {
        AddQueue(op, t, d);
        return;
      }
      if locksManager.IsLocked(d) {
        if locksManager.HasLock(t, d) {
          if locksManager.HasLockType(t, d, m) {
            assert spec == st0.(trace := st0.trace + [OpToken(op, t, d)]);
            AddResult(op, t, d);
            return;
          }
          if upgrade && Greater(locksManager.LockType(d), m) && !locksManager.IsLockShared(d) {
            assert spec == st0.(table := st0.table.Lock(t, d, m), trace := st0.trace + [UpgradeToken(t, d, m), OpToken(op, t, d)]);
            UpgradeAndAccess(op, t, d, m);
            return;
          }
        }
        if upgrade && m == locksManager.LockType(d) && locksManager.LockType(d) == S {
          assert spec == st0.(table := st0.table.Lock(t, d, m), trace := st0.trace + [LockToken(t, d, m), OpToken(op, t, d)]);
          LockAndAccess(op, t, d, m);
          return;
        }
        if rollback {
          assert spec == WoundWaitStep(schedule, st0, t, d);
          WoundWait(t, d);
          return;
        }
        assert spec == st0.(queue := st0.queue + [Entry(op, t, d)]);
        AddQueue(op, t, d);
        return;
      }
      assert spec == st0.(table := st0.table.Lock(t, d, m), trace := st0.trace + [LockToken(t, d, m), OpToken(op, t, d)]);
      LockAndAccess(op, t, d, m);
    }

    /** Returns false where `is_locked_by` raises IndexError. */
    method ProcessCommit(t: nat, op: Operation, d: string) returns (ok: bool)
      requires Valid()
      modifies this, locksManager
      ensures Valid() && Cfg() == old(Cfg())
      ensures Outcome(State(), if ok then None else Some(CommitIndexError)) == CommitStep(old(State()), t, op, d)
    {
      if IsWaiting(t) {
        AddQueue(op, t, d);
        return true;
      }
      AddResult(op, t, d);
      var lockedBy := locksManager.IsLockedBy(t);
      if lockedBy.None? {
        return false;
      }
      if lockedBy.value {
        ghost var r0 := result;
        var items := ItemsOf(locksManager.grants, t);
        var i := 0;
        while i < |items|
          invariant 0 <= i <= |items|
          invariant result == r0 + UnlockTokens(t, items[..i])
          invariant parsedSchedule == old(parsedSchedule) && waitingQueue == old(waitingQueue)
          invariant locksManager.Snapshot() == old(locksManager.Snapshot()) && Cfg() == old(Cfg())
        {
          AddUnlockResult(t, items[i]);
          assert items[..i + 1] == items[..i] + [items[i]];
          UnlockTokensSnoc(t, items[..i], items[i]);
          i := i + 1;
        }
        assert items[..i] == items;
        var _ := locksManager.Unlock(t);
        QueueToSchedule();
      }
      return true;
    }

    /**
     * `run(upgrade, rollback)`; with rollback the loop stops with OutOfFuel
     * after `fuel` iterations, since wound-wait can put entries back forever.
     */
    method Run(upgrade: bool, rollback: bool, fuel: nat) returns (failure: Option<Failure>)
      requires Valid()
      modifies this, locksManager
      ensures Valid() && Cfg() == Config(upgrade, rollback)
      ensures Outcome(State(), failure) == RunSteps(Config(upgrade, rollback), schedule, old(State()), fuel)
    {
      this.upgrade := upgrade;
      this.rollback := rollback;
      ghost var target := RunSteps(Cfg(), schedule, State(), fuel);
      var left := fuel;
      while parsedSchedule != []
        invariant Valid() && Cfg() == Config(upgrade, rollback)
        invariant RunSteps(Cfg(), schedule, State(), left) == target
        decreases (if rollback then left else 0), Pending(State()), |parsedSchedule|
      {
        if rollback && left == 0 {
          return Some(OutOfFuel);
        }
        ghost var before := State();
        ghost var o := Step(Cfg(), schedule, before);
        ghost var rest: nat := if rollback then left - 1 else left;
        RunStepsNext(Cfg(), schedule, before, left, rest, o);
        var e := parsedSchedule[0];
        parsedSchedule := parsedSchedule[1..];
        match e.op {
          case Commit =>
            var ok := ProcessCommit(e.txn, e.op, e.item);
            assert o == Outcome(State(), if ok then None else Some(CommitIndexError));
            if !ok {
              return Some(CommitIndexError);
            }
          case _ =>
            ProcessReadWrite(e.op, e.txn, e.item, RequestedMode(upgrade, e.op));
            assert o == Outcome(State(), None);
        }
        if rollback {
          left := left - 1;
        }
        assert left == rest;
      }
      if waitingQueue != [] {
        return Some(Deadlock);
      }
      return None;
    }
  }
}
