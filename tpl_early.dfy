/**
 * The earlier two-phase-locking driver (`two_phase_locking.run(upgrade)`):
 * no rollback and no wound-wait. A conflicting request waits in the queue,
 * every commit that goes through flushes the queue back to the front of the
 * schedule, and a holder whose mode differs from the request is upgraded
 * without checking for other holders.
 */
module EarlyTwoPhaseLocking {
  import opened Wrappers
  import opened Locks
  import opened TplSchedule

  /**
   * The READ/WRITE arm of `run`: a waiting transaction's request is queued;
   * on an unlocked item the lock is granted; a holder of the requested mode
   * just performs the operation; with upgrade, a holder of another mode is
   * upgraded when the item's mode is greater than the request and performs the
   * operation either way, and without upgrade its request is dropped; an S
   * request on an S item co-holds with upgrade; anything else is queued.
   */
  function ReadWriteStep(upgrade: bool, st: Replay, op: Operation, t: nat, d: string): (r: Replay)
    ensures r.sched == st.sched
    ensures r.queue == st.queue || (r.queue == st.queue + [Entry(op, t, d)] && r.trace == st.trace && r.table == st.table)
  {
    var m := RequestedMode(upgrade, op);
    if IsWaiting(st.queue, t) then
      st.(queue := st.queue + [Entry(op, t, d)])
    else if st.table.IsLocked(d) then
      if st.table.HasLock(t, d) then
        if st.table.GrantMode(t, d) == m then
          st.(trace := st.trace + [OpToken(op, t, d)])
        else if upgrade then
          if Greater(st.table.modes[d], m) then
            st.(table := st.table.Lock(t, d, m), trace := st.trace + [UpgradeToken(t, d, m), OpToken(op, t, d)])
          else
            st.(trace := st.trace + [OpToken(op, t, d)])
        else
          st
      else if m == st.table.modes[d] && st.table.modes[d] == S && upgrade then
        st.(table := st.table.Lock(t, d, m), trace := st.trace + [LockToken(t, d, m), OpToken(op, t, d)])
      else
        st.(queue := st.queue + [Entry(op, t, d)])
    else
      st.(table := st.table.Lock(t, d, m), trace := st.trace + [LockToken(t, d, m), OpToken(op, t, d)])
  }

  /** The branches of the READ/WRITE arm, stated through the lock-table queries. */
  lemma ReadWriteStepBranches(upgrade: bool, st: Replay, op: Operation, t: nat, d: string, r: Replay)
    requires r == ReadWriteStep(upgrade, st, op, t, d)
    ensures var m := RequestedMode(upgrade, op);
            IsWaiting(st.queue, t) ==> r == st.(queue := st.queue + [Entry(op, t, d)])
    ensures var m := RequestedMode(upgrade, op);
            !IsWaiting(st.queue, t) && !st.table.IsLocked(d) ==>
              r == st.(table := st.table.Lock(t, d, m), trace := st.trace + [LockToken(t, d, m), OpToken(op, t, d)])
    ensures var m := RequestedMode(upgrade, op);
            !IsWaiting(st.queue, t) && st.table.IsLocked(d) && st.table.HasLock(t, d) && st.table.GrantMode(t, d) == m ==>
              r == st.(trace := st.trace + [OpToken(op, t, d)])
    ensures var m := RequestedMode(upgrade, op);
            !IsWaiting(st.queue, t) && st.table.IsLocked(d) && st.table.HasLock(t, d) && st.table.GrantMode(t, d) != m
            && upgrade && Greater(st.table.modes[d], m) ==>
              r == st.(table := st.table.Lock(t, d, m), trace := st.trace + [UpgradeToken(t, d, m), OpToken(op, t, d)])
    ensures var m := RequestedMode(upgrade, op);
            !IsWaiting(st.queue, t) && st.table.IsLocked(d) && st.table.HasLock(t, d) && st.table.GrantMode(t, d) != m
            && upgrade && !Greater(st.table.modes[d], m) ==>
              r == st.(trace := st.trace + [OpToken(op, t, d)])
    ensures var m := RequestedMode(upgrade, op);
            !IsWaiting(st.queue, t) && st.table.IsLocked(d) && st.table.HasLock(t, d) && st.table.GrantMode(t, d) != m
            && !upgrade ==>
              r == st
    ensures !IsWaiting(st.queue, t) && st.table.IsLocked(d) && !st.table.HasLock(t, d)
            && upgrade && op != Write && st.table.modes[d] == S ==>
              r == st.(table := st.table.Lock(t, d, S), trace := st.trace + [LockToken(t, d, S), OpToken(op, t, d)])
    ensures !IsWaiting(st.queue, t) && st.table.IsLocked(d) && !st.table.HasLock(t, d)
            && !(upgrade && op != Write && st.table.modes[d] == S) ==>
              r == st.(queue := st.queue + [Entry(op, t, d)])
  {
  }

  /**
   * The COMMIT arm of `run`: a waiting transaction's commit is queued;
   * otherwise `C<t>` is written, a holder's `UL` tokens follow in table order
   * and its grants are released, and the queue is flushed in every case. An
   * item key "" makes `is_locked_by` raise after `C<t>` was written.
   */
  function CommitStep(st: Replay, t: nat, op: Operation, d: string): (r: Outcome)
    ensures IsWaiting(st.queue, t) ==> r == Outcome(st.(queue := st.queue + [Entry(op, t, d)]), None)
    ensures !IsWaiting(st.queue, t) ==> (r.failure == Some(CommitIndexError) <==> "" in st.table.modes)
    ensures r.failure.Some? ==> r.failure == Some(CommitIndexError) && r.st == st.(trace := st.trace + [OpToken(op, t, d)])
    ensures !IsWaiting(st.queue, t) && r.failure.None? ==>
              r.st == Flush(st.(trace := st.trace + [OpToken(op, t, d)] + UnlockTokens(t, ItemsOf(st.table.grants, t)),
                                table := st.table.Unlock(t)))
  {
    if IsWaiting(st.queue, t) then
      Outcome(st.(queue := st.queue + [Entry(op, t, d)]), None)
    else
      var st1 := st.(trace := st.trace + [OpToken(op, t, d)]);
      match st.table.IsLockedBy(t)
      case None => Outcome(st1, Some(CommitIndexError))
      case Some(held) =>
        if held then
          Outcome(Flush(st1.(trace := st1.trace + UnlockTokens(t, ItemsOf(st.table.grants, t)), table := st.table.Unlock(t))), None)
        else
          assert ItemsOf(st.table.grants, t) == [];
          assert st1.table.Unlock(t) == st1.table by {
            UnlockNothing(st1.table, t);
          }
          Outcome(Flush(st1), None)
  }

  /** One iteration of the loop of `run`: pop the front entry and process it. */
  function Step(upgrade: bool, st: Replay): (r: Outcome)
    requires st.sched != []
    ensures r.failure.Some? ==> r.failure == Some(CommitIndexError) && st.sched[0].op == Commit
  {
    var e := st.sched[0];
    var st1 := st.(sched := st.sched[1..]);
    match e.op
    case Commit => CommitStep(st1, e.txn, e.op, e.item)
    case _ => Outcome(ReadWriteStep(upgrade, st1, e.op, e.txn, e.item), None)
  }

  /** The commits still to come, in the schedule or in the queue. */
  function Pending(st: Replay): nat {
    CommitCount(st.sched + st.queue)
  }

  /**
   * Every step either consumes a commit (which pays for the entries its
   * flush puts back) or leaves the commits alone and shortens the schedule.
   */
  lemma StepMeasure(upgrade: bool, st: Replay)
    requires st.sched != []
    ensures Step(upgrade, st).failure.None? ==>
              Pending(Step(upgrade, st).st) < Pending(st)
              || (Pending(Step(upgrade, st).st) == Pending(st) && |Step(upgrade, st).st.sched| < |st.sched|)
  {
    var o := Step(upgrade, st);
    var e := st.sched[0];
    var rest := st.sched[1..];
    assert st.sched == [e] + rest;
    CommitCountConcat([e], rest);
    CommitCountConcat(st.sched, st.queue);
    CommitCountConcat(rest, st.queue);
    if o.failure.None? {
      if e.op == Commit {
        if IsWaiting(st.queue, e.txn) {
          assert o.st.sched == rest && o.st.queue == st.queue + [e];
          CommitCountConcat(rest, st.queue + [e]);
          CommitCountConcat(st.queue, [e]);
        } else {
          assert o.st.sched == st.queue + rest && o.st.queue == [];
          CommitCountConcat(st.queue, rest);
          CommitCountConcat(o.st.sched, []);
        }
      } else {
        var r := ReadWriteStep(upgrade, st.(sched := rest), e.op, e.txn, e.item);
        assert o.st == r && r.sched == rest;
        assert r.queue == st.queue || r.queue == st.queue + [e];
        CommitCountConcat(rest, st.queue + [e]);
        CommitCountConcat(st.queue, [e]);
      }
    }
  }

  /**
   * `run(upgrade)`: steps until the schedule is empty, then reports Deadlock
   * exactly when entries are still queued; a commit that meets an item key ""
   * stops the run with the IndexError of `is_locked_by`. It always ends.
   */
  function RunSteps(upgrade: bool, st: Replay): (r: Outcome)
    ensures r.failure.None? ==> r.st.sched == [] && r.st.queue == []
    ensures r.failure == Some(Deadlock) ==> r.st.sched == [] && r.st.queue != []
    ensures r.failure != Some(OutOfFuel)
    decreases Pending(st), |st.sched|
  {
    if st.sched == [] then
      Outcome(st, if st.queue != [] then Some(Deadlock) else None)
    else
      var o := Step(upgrade, st);
      if o.failure.Some? then o
      else
        StepMeasure(upgrade, st);
        RunSteps(upgrade, o.st)
  }

  /** Without upgrade every request is for X; a step keeps an exclusive table exclusive. */
  lemma StepKeepsExclusive(st: Replay)
    requires st.sched != [] && Exclusive(st.table)
    ensures Exclusive(Step(false, st).st.table)
  {
    var e := st.sched[0];
    var st1 := st.(sched := st.sched[1..]);
    if e.op == Commit {
      UnlockKeepsExclusive(st.table, e.txn);
    } else if !IsWaiting(st1.queue, e.txn) && !st.table.IsLocked(e.item) {
      LockFreshKeepsExclusive(st.table, e.txn, e.item);
    }
  }

  /** Without upgrade, a run that starts from an exclusive table ends with one. */
  lemma {:induction false} RunKeepsExclusive(st: Replay)
    requires Exclusive(st.table)
    ensures Exclusive(RunSteps(false, st).st.table)
    decreases Pending(st), |st.sched|
  {
    if st.sched != [] {
      var o := Step(false, st);
      if o.failure.None? {
        StepKeepsExclusive(st);
        StepMeasure(false, st);
        RunKeepsExclusive(o.st);
      }
    }
  }

  /** The replay `TwoPhaseLocking(schedule)` starts from with a fresh lock manager. */
  function Initial(raw: seq<string>): Replay
    requires ParseSchedule(raw).Ok?
  {
    Replay(ParseSchedule(raw).value, [], [], Table(map[], []))
  }

  /** Mutual exclusion without upgrade: no item is ever held by two transactions. */
  lemma RunExclusiveWithoutUpgrade(raw: seq<string>, d: string, t1: nat, t2: nat)
    requires ParseSchedule(raw).Ok?
    requires RunSteps(false, Initial(raw)).st.table.HasLock(t1, d)
    requires RunSteps(false, Initial(raw)).st.table.HasLock(t2, d)
    ensures t1 == t2
  {
    EmptyExclusive();
    RunKeepsExclusive(Initial(raw));
    ExclusiveOneHolder(RunSteps(false, Initial(raw)).st.table, d, t1, t2);
  }

  /**
   * Lock before access: whenever the READ/WRITE arm writes the operation
   * token, `t` holds a lock on `d` afterwards; without upgrade it is exclusive.
   */
  lemma ReadWriteLockBeforeAccess(upgrade: bool, st: Replay, op: Operation, t: nat, d: string)
    requires op != Commit
    ensures var r := ReadWriteStep(upgrade, st, op, t, d);
            Appended(st.trace, r.trace, OpToken(op, t, d)) ==> r.table.HasLock(t, d) && (!upgrade ==> r.table.GrantMode(t, d) == X)
  {
    var m := RequestedMode(upgrade, op);
    var r := ReadWriteStep(upgrade, st, op, t, d);
    if !IsWaiting(st.queue, t) && st.table.IsLocked(d) && st.table.HasLock(t, d) && st.table.GrantMode(t, d) != m && upgrade {
      if Greater(st.table.modes[d], m) {
        assert r.table == st.table.Lock(t, d, m);
      } else {
        assert r.table == st.table;
      }
    }
  }

  /** A read or write never takes away a lock: locks are released only by commit. */
  lemma ReadWriteKeepsLocks(upgrade: bool, st: Replay, op: Operation, t: nat, d: string, h: nat, e: string)
    requires st.table.HasLock(h, e)
    ensures ReadWriteStep(upgrade, st, op, t, d).table.HasLock(h, e)
  {
    ReadWriteTable(upgrade, st, op, t, d);
    st.table.LockKeeps(t, d, RequestedMode(upgrade, op), h, e);
  }

  /** A read or write leaves the table alone or takes the one lock it asks for. */
  lemma ReadWriteTable(upgrade: bool, st: Replay, op: Operation, t: nat, d: string)
    ensures ReadWriteStep(upgrade, st, op, t, d).table in {st.table, st.table.Lock(t, d, RequestedMode(upgrade, op))}
  { }

  /** A commit that goes through releases every lock of the committing transaction and no other. */
  lemma CommitReleases(st: Replay, t: nat, op: Operation, d: string, h: nat, e: string)
    requires !IsWaiting(st.queue, t) && CommitStep(st, t, op, d).failure.None?
    ensures !CommitStep(st, t, op, d).st.table.HasLock(t, e)
    ensures h != t ==> (CommitStep(st, t, op, d).st.table.HasLock(h, e) <==> st.table.HasLock(h, e))
  {
  }

  /**
   * The driver object: the raw schedule it was built from, the parsed
   * schedule it consumes, its lock manager, the wait queue and the trace.
   */
  class TwoPhaseLocking {
    const schedule: seq<string>
    var parsedSchedule: seq<Entry>
    const locksManager: LockManager
    var waitingQueue: seq<Entry>
    var result: seq<string>

    ghost predicate Valid()
      reads this, locksManager
    {
      locksManager.Valid()
    }

    function State(): Replay
      reads this, locksManager
    {
      Replay(parsedSchedule, waitingQueue, result, locksManager.Snapshot())
    }

    /** The source raises when `parse_schedule` does; here the schedule must parse. */
    constructor (schedule: seq<string>, lockmanager: LockManager)
      requires ParseSchedule(schedule).Ok? && lockmanager.Valid()
      ensures Valid() && locksManager == lockmanager && this.schedule == schedule
      ensures State() == Replay(ParseSchedule(schedule).value, [], [], lockmanager.Snapshot())
    {
      this.schedule := schedule;
      parsedSchedule := ParseSchedule(schedule).value;
      locksManager := lockmanager;
      waitingQueue := [];
      result := [];
    }

    method AddQueue(op: Operation, t: nat, d: string)
      modifies this
      ensures State() == old(State()).(queue := old(waitingQueue) + [Entry(op, t, d)])
    {
      waitingQueue := waitingQueue + [Entry(op, t, d)];
    }

    predicate IsWaiting(t: nat)
      reads this
    {
      TplSchedule.IsWaiting(waitingQueue, t)
    }

    method RemoveQueue(t: nat)
      modifies this
      ensures State() == old(State()).(queue := TplSchedule.RemoveQueue(old(waitingQueue), t))
    {
      waitingQueue := TplSchedule.RemoveQueue(waitingQueue, t);
    }

    method AddResult(op: Operation, t: nat, d: string)
      modifies this
      ensures State() == old(State()).(trace := old(result) + [OpToken(op, t, d)])
    {
      result := result + [OpToken(op, t, d)];
    }

    method AddLockResult(t: nat, d: string, m: LockType)
      modifies this
      ensures State() == old(State()).(trace := old(result) + [LockToken(t, d, m)])
    {
      result := result + [LockToken(t, d, m)];
    }

    method AddUpgradeResult(t: nat, d: string, m: LockType)
      modifies this
      ensures State() == old(State()).(trace := old(result) + [UpgradeToken(t, d, m)])
    {
      result := result + [UpgradeToken(t, d, m)];
    }

    method AddUnlockResult(t: nat, d: string)
      modifies this
      ensures State() == old(State()).(trace := old(result) + [UnlockToken(t, d)])
    {
      result := result + [UnlockToken(t, d)];
    }

    /** Drains the queue front first into a list that then goes before the schedule. */
    method QueueToSchedule()
      modifies this
      ensures State() == Flush(old(State()))
    {
      var toAdd: seq<Entry> := [];
      while waitingQueue != []
        invariant toAdd + waitingQueue == old(waitingQueue)
        invariant parsedSchedule == old(parsedSchedule) && result == old(result)
        decreases |waitingQueue|
      {
        var e := waitingQueue[0];
        waitingQueue := waitingQueue[1..];
        toAdd := toAdd + [e];
      }
      parsedSchedule := toAdd + parsedSchedule;
      waitingQueue := [];
    }

    /** `lock_data`, then the lock token and the operation token. */
    method LockAndAccess(op: Operation, t: nat, d: string, m: LockType)
      requires Valid()
      modifies this, locksManager
      ensures Valid()
      ensures State() == old(State()).(table := old(State()).table.Lock(t, d, m),
                                        trace := old(result) + [LockToken(t, d, m), OpToken(op, t, d)])
    {
      locksManager.LockData(t, d, m);
      AddLockResult(t, d, m);
      AddResult(op, t, d);
    }

    /** `upgrade_lock`, then the upgrade token and the operation token. */
    method UpgradeAndAccess(op: Operation, t: nat, d: string, m: LockType)
      requires Valid()
      modifies this, locksManager
      ensures Valid()
      ensures State() == old(State()).(table := old(State()).table.Lock(t, d, m),
                                        trace := old(result) + [UpgradeToken(t, d, m), OpToken(op, t, d)])
    {
      locksManager.UpgradeLock(t, d, m);
      AddUpgradeResult(t, d, m);
      AddResult(op, t, d);
    }

    /** The READ/WRITE arm of the loop of `run`. */
    method ReadWrite(upgrade: bool, op: Operation, t: nat, d: string)
      requires Valid()
      modifies this, locksManager
      ensures Valid() && State() == ReadWriteStep(upgrade, old(State()), op, t, d)
    {
      ghost var st0 := State();
      ghost var spec := ReadWriteStep(upgrade, st0, op, t, d);
      var m := RequestedMode(upgrade, op);
      if IsWaiting(t) {
        AddQueue(op, t, d);
      } else if locksManager.IsLocked(d) {
        if locksManager.HasLock(t, d) {
          if locksManager.HasLockType(t, d, m) {
            AddResult(op, t, d);
          } else if upgrade {
            if Greater(locksManager.LockType(d), m) {
              assert spec == st0.(table := st0.table.Lock(t, d, m), trace := st0.trace + [UpgradeToken(t, d, m), OpToken(op, t, d)]);
              UpgradeAndAccess(op, t, d, m);
            } else {
              AddResult(op, t, d);
            }
          }
        } else if m == locksManager.LockType(d) && locksManager.LockType(d) == S && upgrade {
          assert spec == st0.(table := st0.table.Lock(t, d, m), trace := st0.trace + [LockToken(t, d, m), OpToken(op, t, d)]);
          LockAndAccess(op, t, d, m);
        } else {
          AddQueue(op, t, d);
        }
      } else {
        assert spec == st0.(table := st0.table.Lock(t, d, m), trace := st0.trace + [LockToken(t, d, m), OpToken(op, t, d)]);
        LockAndAccess(op, t, d, m);
      }
    }

    /** The COMMIT arm of the loop of `run`; returns false where `is_locked_by` raises IndexError. */
    method Commit(t: nat, op: Operation, d: string) returns (ok: bool)
      requires Valid()
      modifies this, locksManager
      ensures Valid()
      ensures Outcome(State(), if ok then None else Some(CommitIndexError)) == CommitStep(old(State()), t, op, d)
    {
      if IsWaiting(t) {
        AddQueue(op, t, d);
        return true;
      }
      AddResult(op, t, d);
      var lockedBy := locksManager.IsLockedBy(t);
      if lockedBy.None? {
        return false;
      }
      if lockedBy.value {
        ghost var r0 := result;
        var items := ItemsOf(locksManager.grants, t);
        var i := 0;
        while i < |items|
          invariant 0 <= i <= |items|
          invariant result == r0 + UnlockTokens(t, items[..i])
          invariant parsedSchedule == old(parsedSchedule) && waitingQueue == old(waitingQueue)
          invariant locksManager.Snapshot() == old(locksManager.Snapshot())
        {
          AddUnlockResult(t, items[i]);
          assert items[..i + 1] == items[..i] + [items[i]];
          UnlockTokensSnoc(t, items[..i], items[i]);
          i := i + 1;
        }
        assert items[..i] == items;
        var _ := locksManager.Unlock(t);
      }
      QueueToSchedule();
      return true;
    }

    /** `run(upgrade)`: the source's default is `upgrade = True`. */
    method Run(upgrade: bool) returns (failure: Option<Failure>)
      requires Valid()
      modifies this, locksManager
      ensures Valid()
      ensures Outcome(State(), failure) == RunSteps(upgrade, old(State()))
    {
      while parsedSchedule != []
        invariant Valid()
        invariant RunSteps(upgrade, State()) == RunSteps(upgrade, old(State()))
        decreases Pending(State()), |parsedSchedule|
      {
        ghost var before := State();
        ghost var o := Step(upgrade, before);
        StepMeasure(upgrade, before);
        assert RunSteps(upgrade, before) == if o.failure.Some? then o else RunSteps(upgrade, o.st);
        var e := parsedSchedule[0];
        parsedSchedule := parsedSchedule[1..];
        match e.op {
          case Commit =>
            var ok := Commit(e.txn, e.op, e.item);
            assert o == Outcome(State(), if ok then None else Some(CommitIndexError));
            if !ok {
              return Some(CommitIndexError);
            }
          case _ =>
            ReadWrite(upgrade, e.op, e.txn, e.item);
            assert o == Outcome(State(), None);
        }
      }
      if waitingQueue != [] {
        return Some(Deadlock);
      }
      return None;
    }
  }
}
