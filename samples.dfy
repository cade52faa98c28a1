/**
 * Concrete runs of the models on the sample schedules of the drivers.
 */
module Samples {
  import opened Wrappers
  import opened Locks
  import opened TplSchedule
  import ScheduleText
  import TwoPhaseLocking
  import EarlyTwoPhaseLocking

  /** The tokens of the unit test parse to a read, a write and a commit with item "". */
  lemma ParseTestSchedule()
    ensures ParseSchedule(["R1(A)", "W1(A)", "C1"])
            == Ok([Entry(Read, 1, "A"), Entry(Write, 1, "A"), Entry(Commit, 1, "")])
  {
    var c := Entry(Commit, 1, "");
    var w := Entry(Write, 1, "A");
    var r := Entry(Read, 1, "A");
    assert ItemOf("C1") == "" && ItemOf("W1(A)") == "A" && ItemOf("R1(A)") == "A";
    assert ParseToken("C1") == Ok(c);
    assert ParseToken("W1(A)") == Ok(w);
    assert ParseToken("R1(A)") == Ok(r);
    assert ["C1"][1..] == [];
    var none: seq<string> := [];
    assert ParseSchedule(none) == Ok([]);
    assert [c] + [] == [c];
    assert ParseSchedule(["C1"]) == Ok([c]);
    assert ["W1(A)", "C1"][1..] == ["C1"];
    assert ParseSchedule(["W1(A)", "C1"]) == Ok([w] + [c]);
    assert ["R1(A)", "W1(A)", "C1"][1..] == ["W1(A)", "C1"];
    assert [r] + ([w] + [c]) == [r, w, c];
  }

  /** One more parsed token in front of a parsed schedule. */
  lemma ParseCons(toks: seq<string>, e: Entry, es: seq<Entry>, all: seq<Entry>)
    requires toks != [] && ParseToken(toks[0]) == Ok(e) && ParseSchedule(toks[1..]) == Ok(es) && all == [e] + es
    ensures ParseSchedule(toks) == Ok(all)
  {
  }

  /** A request of a transaction that is not waiting, on an item nobody holds, is granted. */
  lemma FullStepGrant(cfg: TwoPhaseLocking.Config, raw: seq<string>, s: Replay, next: Replay)
    requires ParseSchedule(raw).Ok? && s.sched != [] && s.sched[0].op != Commit && !cfg.rollback
    requires !IsWaiting(s.queue, s.sched[0].txn) && !s.table.IsLocked(s.sched[0].item)
    requires !s.table.HasLock(s.sched[0].txn, s.sched[0].item)
    requires var e := s.sched[0]; var m := RequestedMode(cfg.upgrade, e.op);
             next == Replay(s.sched[1..], s.queue, s.trace + [LockToken(e.txn, e.item, m), OpToken(e.op, e.txn, e.item)],
                            Table(s.table.modes[e.item := m], s.table.grants + [Grant(e.txn, e.item, m)]))
    ensures TwoPhaseLocking.RunSteps(cfg, raw, s, 0) == TwoPhaseLocking.RunSteps(cfg, raw, next, 0)
  {
    assert TwoPhaseLocking.Step(cfg, raw, s) == Outcome(next, None);
    TwoPhaseLocking.RunStepsNext(cfg, raw, s, 0, 0, Outcome(next, None));
  }

  /** Without upgrade or rollback, a request on an item another transaction holds is queued. */
  lemma FullStepConflict(cfg: TwoPhaseLocking.Config, raw: seq<string>, s: Replay, next: Replay)
    requires ParseSchedule(raw).Ok? && s.sched != [] && s.sched[0].op != Commit && !cfg.upgrade && !cfg.rollback
    requires !IsWaiting(s.queue, s.sched[0].txn) && s.table.IsLocked(s.sched[0].item)
    requires !s.table.HasLock(s.sched[0].txn, s.sched[0].item)
    requires !cfg.rollback && next == s.(sched := s.sched[1..], queue := s.queue + [s.sched[0]])
    ensures TwoPhaseLocking.RunSteps(cfg, raw, s, 0) == TwoPhaseLocking.RunSteps(cfg, raw, next, 0)
  {
    assert TwoPhaseLocking.Step(cfg, raw, s) == Outcome(next, None);
    TwoPhaseLocking.RunStepsNext(cfg, raw, s, 0, 0, Outcome(next, None));
  }

  /** An entry of a waiting transaction, commit or not, is queued. */
  lemma FullStepWaiting(cfg: TwoPhaseLocking.Config, raw: seq<string>, s: Replay, next: Replay)
    requires ParseSchedule(raw).Ok? && s.sched != [] && IsWaiting(s.queue, s.sched[0].txn)
    requires !cfg.rollback && next == s.(sched := s.sched[1..], queue := s.queue + [s.sched[0]])
    ensures TwoPhaseLocking.RunSteps(cfg, raw, s, 0) == TwoPhaseLocking.RunSteps(cfg, raw, next, 0)
  {
    assert TwoPhaseLocking.Step(cfg, raw, s) == Outcome(next, None);
    TwoPhaseLocking.RunStepsNext(cfg, raw, s, 0, 0, Outcome(next, None));
  }

  /** A holder of the requested mode just performs the operation. */
  lemma FullStepHeld(cfg: TwoPhaseLocking.Config, raw: seq<string>, s: Replay, next: Replay)
    requires ParseSchedule(raw).Ok? && s.sched != [] && s.sched[0].op != Commit && !cfg.rollback
    requires !IsWaiting(s.queue, s.sched[0].txn) && s.table.IsLocked(s.sched[0].item)
    requires s.table.HasLock(s.sched[0].txn, s.sched[0].item)
    requires s.table.GrantMode(s.sched[0].txn, s.sched[0].item) == RequestedMode(cfg.upgrade, s.sched[0].op)
    requires next == s.(sched := s.sched[1..], trace := s.trace + [OpToken(s.sched[0].op, s.sched[0].txn, s.sched[0].item)])
    ensures TwoPhaseLocking.RunSteps(cfg, raw, s, 0) == TwoPhaseLocking.RunSteps(cfg, raw, next, 0)
  {
    assert TwoPhaseLocking.Step(cfg, raw, s) == Outcome(next, None);
    TwoPhaseLocking.RunStepsNext(cfg, raw, s, 0, 0, Outcome(next, None));
  }

  /** With upgrade, a read of an item held in S by others is granted S beside them. */
  lemma FullStepCoHold(cfg: TwoPhaseLocking.Config, raw: seq<string>, s: Replay, next: Replay)
    requires ParseSchedule(raw).Ok? && s.sched != [] && s.sched[0].op == Read && cfg.upgrade && !cfg.rollback
    requires !IsWaiting(s.queue, s.sched[0].txn) && s.table.IsLocked(s.sched[0].item)
    requires !s.table.HasLock(s.sched[0].txn, s.sched[0].item) && s.table.modes[s.sched[0].item] == S
    requires var e := s.sched[0];
             next == Replay(s.sched[1..], s.queue, s.trace + [LockToken(e.txn, e.item, S), OpToken(e.op, e.txn, e.item)],
                            Table(s.table.modes[e.item := S], s.table.grants + [Grant(e.txn, e.item, S)]))
    ensures TwoPhaseLocking.RunSteps(cfg, raw, s, 0) == TwoPhaseLocking.RunSteps(cfg, raw, next, 0)
  {
    assert TwoPhaseLocking.Step(cfg, raw, s) == Outcome(next, None);
    TwoPhaseLocking.RunStepsNext(cfg, raw, s, 0, 0, Outcome(next, None));
  }

  /** A commit that is not waiting, the items it holds, the table its release leaves and the state the step moves to. */
  ghost predicate CommitReady(s: Replay, items: seq<string>, tb: Table, next: Replay) {
    s.sched != [] && s.sched[0].op == Commit
    && !IsWaiting(s.queue, s.sched[0].txn) && "" !in s.table.modes
    && ItemsOf(s.table.grants, s.sched[0].txn) == items && s.table.Unlock(s.sched[0].txn) == tb
    && var e := s.sched[0];
       next == Replay(s.queue + s.sched[1..], [], s.trace + [OpToken(e.op, e.txn, e.item)] + UnlockTokens(e.txn, items), tb)
  }

  /** A commit of a holder that is not waiting releases its grants, writes its tokens and flushes the queue. */
  lemma FullStepCommit(cfg: TwoPhaseLocking.Config, raw: seq<string>, s: Replay, items: seq<string>, tb: Table, next: Replay)
    requires ParseSchedule(raw).Ok? && !cfg.rollback && items != [] && CommitReady(s, items, tb, next)
    ensures TwoPhaseLocking.RunSteps(cfg, raw, s, 0) == TwoPhaseLocking.RunSteps(cfg, raw, next, 0)
  {
    assert items[0] in items;
    assert TwoPhaseLocking.Step(cfg, raw, s) == Outcome(next, None);
    TwoPhaseLocking.RunStepsNext(cfg, raw, s, 0, 0, Outcome(next, None));
  }

  /** Early driver: a request of a transaction that is not waiting, on an item nobody holds, is granted. */
  lemma EarlyStepGrant(upgrade: bool, s: Replay, next: Replay)
    requires s.sched != [] && s.sched[0].op != Commit
    requires !IsWaiting(s.queue, s.sched[0].txn) && !s.table.IsLocked(s.sched[0].item)
    requires !s.table.HasLock(s.sched[0].txn, s.sched[0].item)
    requires var e := s.sched[0]; var m := RequestedMode(upgrade, e.op);
             next == Replay(s.sched[1..], s.queue, s.trace + [LockToken(e.txn, e.item, m), OpToken(e.op, e.txn, e.item)],
                            Table(s.table.modes[e.item := m], s.table.grants + [Grant(e.txn, e.item, m)]))
    ensures EarlyTwoPhaseLocking.RunSteps(upgrade, s) == EarlyTwoPhaseLocking.RunSteps(upgrade, next)
  {
    assert EarlyTwoPhaseLocking.Step(upgrade, s) == Outcome(next, None);
  }

  /** Early driver, with upgrade: a read of an item held in S by others is granted S beside them. */
  lemma EarlyStepCoHold(upgrade: bool, s: Replay, next: Replay)
    requires s.sched != [] && s.sched[0].op == Read && upgrade
    requires !IsWaiting(s.queue, s.sched[0].txn) && s.table.IsLocked(s.sched[0].item)
    requires !s.table.HasLock(s.sched[0].txn, s.sched[0].item) && s.table.modes[s.sched[0].item] == S
    requires var e := s.sched[0];
             next == Replay(s.sched[1..], s.queue, s.trace + [LockToken(e.txn, e.item, S), OpToken(e.op, e.txn, e.item)],
                            Table(s.table.modes[e.item := S], s.table.grants + [Grant(e.txn, e.item, S)]))
    ensures EarlyTwoPhaseLocking.RunSteps(upgrade, s) == EarlyTwoPhaseLocking.RunSteps(upgrade, next)
  {
    assert EarlyTwoPhaseLocking.Step(upgrade, s) == Outcome(next, None);
  }

  /** Early driver, with upgrade: a holder of another mode is upgraded when the item's mode is greater. */
  lemma EarlyStepUpgrade(upgrade: bool, s: Replay, tb: Table, next: Replay)
    requires s.sched != [] && s.sched[0].op != Commit && upgrade
    requires !IsWaiting(s.queue, s.sched[0].txn) && s.table.IsLocked(s.sched[0].item)
    requires s.table.HasLock(s.sched[0].txn, s.sched[0].item)
    requires var e := s.sched[0]; var m := RequestedMode(upgrade, e.op);
             s.table.GrantMode(e.txn, e.item) != m && Greater(s.table.modes[e.item], m) && s.table.Lock(e.txn, e.item, m) == tb
             && next == Replay(s.sched[1..], s.queue, s.trace + [UpgradeToken(e.txn, e.item, m), OpToken(e.op, e.txn, e.item)], tb)
    ensures EarlyTwoPhaseLocking.RunSteps(upgrade, s) == EarlyTwoPhaseLocking.RunSteps(upgrade, next)
  {
    assert EarlyTwoPhaseLocking.Step(upgrade, s) == Outcome(next, None);
  }

  /** Early driver, with upgrade: a holder of another mode that is not upgraded still performs the operation. */
  lemma EarlyStepKeep(upgrade: bool, s: Replay, next: Replay)
    requires s.sched != [] && s.sched[0].op != Commit && upgrade
    requires !IsWaiting(s.queue, s.sched[0].txn) && s.table.IsLocked(s.sched[0].item)
    requires s.table.HasLock(s.sched[0].txn, s.sched[0].item)
    requires var e := s.sched[0]; var m := RequestedMode(upgrade, e.op);
             s.table.GrantMode(e.txn, e.item) != m && !Greater(s.table.modes[e.item], m)
             && next == s.(sched := s.sched[1..], trace := s.trace + [OpToken(e.op, e.txn, e.item)])
    ensures EarlyTwoPhaseLocking.RunSteps(upgrade, s) == EarlyTwoPhaseLocking.RunSteps(upgrade, next)
  {
    assert EarlyTwoPhaseLocking.Step(upgrade, s) == Outcome(next, None);
  }

  /** The table `unlock(t)` leaves, given by its item keys and its remaining grants. */
  lemma UnlockTable(tb: Table, t: nat, ms: map<string, LockType>, gs: seq<Grant>)
    requires GrantsNotOf(tb.grants, t) == gs
    requires forall d :: d in ms <==> d in tb.modes && !tb.HasLock(t, d)
    requires forall d :: d in ms ==> ms[d] == tb.modes[d]
    ensures tb.Unlock(t) == Table(ms, gs)
  {
    var r := tb.Unlock(t);
    assert r.modes.Keys == ms.Keys;
    assert r.modes == ms;
  }

  /** Early driver: a commit that is not waiting releases its grants, writes its tokens and flushes the queue. */
  lemma EarlyStepCommit(upgrade: bool, s: Replay, items: seq<string>, tb: Table, next: Replay)
    requires CommitReady(s, items, tb, next)
    ensures EarlyTwoPhaseLocking.RunSteps(upgrade, s) == EarlyTwoPhaseLocking.RunSteps(upgrade, next)
  {
    assert EarlyTwoPhaseLocking.Step(upgrade, s) == Outcome(next, None);
  }

  /** Sample 1 of the full driver: the writes of the second transaction wait behind the first and the third, and every queued entry is replayed when they commit. */
  lemma FullSampleOne(raw: seq<string>)
    requires ParseSchedule(raw) == Ok([Entry(Read, 1, "X"), Entry(Write, 2, "X"), Entry(Write, 2, "Y"), Entry(Write, 3, "Y"), Entry(Write, 1, "X"), Entry(Commit, 1, ""), Entry(Commit, 2, ""), Entry(Commit, 3, "")])
    ensures var o := TwoPhaseLocking.RunSteps(TwoPhaseLocking.Config(false, false), raw, TwoPhaseLocking.Initial(raw), 0);
            o.failure == None && o.st.queue == []
            && o.st.trace == [LockToken(1, "X", X), OpToken(Read, 1, "X")] + [LockToken(3, "Y", X), OpToken(Write, 3, "Y")] + [OpToken(Write, 1, "X")] + [OpToken(Commit, 1, "")] + UnlockTokens(1, ["X"]) + [LockToken(2, "X", X), OpToken(Write, 2, "X")] + [OpToken(Commit, 3, "")] + UnlockTokens(3, ["Y"]) + [LockToken(2, "Y", X), OpToken(Write, 2, "Y")] + [OpToken(Commit, 2, "")] + UnlockTokens(2, ["X", "Y"])
            && o.st.table == Table(map[], [])
  {
    FullSampleOneFrom0(raw);
  }

  /** The run of `FullSampleOne` from its initial state. */
  lemma FullSampleOneFrom0(raw: seq<string>)
    requires ParseSchedule(raw).Ok?
    ensures TwoPhaseLocking.RunSteps(TwoPhaseLocking.Config(false, false), raw, Replay([Entry(Read, 1, "X"), Entry(Write, 2, "X"), Entry(Write, 2, "Y"), Entry(Write, 3, "Y"), Entry(Write, 1, "X"), Entry(Commit, 1, ""), Entry(Commit, 2, ""), Entry(Commit, 3, "")], [], [], Table(map[], [])), 0)
            == Outcome(Replay([], [], [LockToken(1, "X", X), OpToken(Read, 1, "X")] + [LockToken(3, "Y", X), OpToken(Write, 3, "Y")] + [OpToken(Write, 1, "X")] + [OpToken(Commit, 1, "")] + UnlockTokens(1, ["X"]) + [LockToken(2, "X", X), OpToken(Write, 2, "X")] + [OpToken(Commit, 3, "")] + UnlockTokens(3, ["Y"]) + [LockToken(2, "Y", X), OpToken(Write, 2, "Y")] + [OpToken(Commit, 2, "")] + UnlockTokens(2, ["X", "Y"]), Table(map[], [])),
                       None)
  {
    FullStepGrant(TwoPhaseLocking.Config(false, false), raw,
      Replay([Entry(Read, 1, "X"), Entry(Write, 2, "X"), Entry(Write, 2, "Y"), Entry(Write, 3, "Y"), Entry(Write, 1, "X"), Entry(Commit, 1, ""), Entry(Commit, 2, ""), Entry(Commit, 3, "")], [], [], Table(map[], [])),
      Replay([Entry(Write, 2, "X"), Entry(Write, 2, "Y"), Entry(Write, 3, "Y"), Entry(Write, 1, "X"), Entry(Commit, 1, ""), Entry(Commit, 2, ""), Entry(Commit, 3, "")], [], [LockToken(1, "X", X), OpToken(Read, 1, "X")], Table(map["X" := X], [Grant(1, "X", X)])));
    FullSampleOneFrom1(raw, [LockToken(1, "X", X), OpToken(Read, 1, "X")]);
  }

  /** The rest of `FullSampleOne`, from its state after 1 of its steps. */
  lemma FullSampleOneFrom1(raw: seq<string>, tr: seq<string>)
    requires ParseSchedule(raw).Ok?
    ensures TwoPhaseLocking.RunSteps(TwoPhaseLocking.Config(false, false), raw, Replay([Entry(Write, 2, "X"), Entry(Write, 2, "Y"), Entry(Write, 3, "Y"), Entry(Write, 1, "X"), Entry(Commit, 1, ""), Entry(Commit, 2, ""), Entry(Commit, 3, "")], [], tr, Table(map["X" := X], [Grant(1, "X", X)])), 0)
            == Outcome(Replay([], [], tr + [LockToken(3, "Y", X), OpToken(Write, 3, "Y")] + [OpToken(Write, 1, "X")] + [OpToken(Commit, 1, "")] + UnlockTokens(1, ["X"]) + [LockToken(2, "X", X), OpToken(Write, 2, "X")] + [OpToken(Commit, 3, "")] + UnlockTokens(3, ["Y"]) + [LockToken(2, "Y", X), OpToken(Write, 2, "Y")] + [OpToken(Commit, 2, "")] + UnlockTokens(2, ["X", "Y"]), Table(map[], [])),
                       None)
  {
    FullStepConflict(TwoPhaseLocking.Config(false, false), raw,
      Replay([Entry(Write, 2, "X"), Entry(Write, 2, "Y"), Entry(Write, 3, "Y"), Entry(Write, 1, "X"), Entry(Commit, 1, ""), Entry(Commit, 2, ""), Entry(Commit, 3, "")], [], tr, Table(map["X" := X], [Grant(1, "X", X)])),
      Replay([Entry(Write, 2, "Y"), Entry(Write, 3, "Y"), Entry(Write, 1, "X"), Entry(Commit, 1, ""), Entry(Commit, 2, ""), Entry(Commit, 3, "")], [Entry(Write, 2, "X")], tr, Table(map["X" := X], [Grant(1, "X", X)])));
    FullSampleOneFrom2(raw, tr);
  }

  /** The rest of `FullSampleOne`, from its state after 2 of its steps. */
  lemma FullSampleOneFrom2(raw: seq<string>, tr: seq<string>)
    requires ParseSchedule(raw).Ok?
    ensures TwoPhaseLocking.RunSteps(TwoPhaseLocking.Config(false, false), raw, Replay([Entry(Write, 2, "Y"), Entry(Write, 3, "Y"), Entry(Write, 1, "X"), Entry(Commit, 1, ""), Entry(Commit, 2, ""), Entry(Commit, 3, "")], [Entry(Write, 2, "X")], tr, Table(map["X" := X], [Grant(1, "X", X)])), 0)
            == Outcome(Replay([], [], tr + [LockToken(3, "Y", X), OpToken(Write, 3, "Y")] + [OpToken(Write, 1, "X")] + [OpToken(Commit, 1, "")] + UnlockTokens(1, ["X"]) + [LockToken(2, "X", X), OpToken(Write, 2, "X")] + [OpToken(Commit, 3, "")] + UnlockTokens(3, ["Y"]) + [LockToken(2, "Y", X), OpToken(Write, 2, "Y")] + [OpToken(Commit, 2, "")] + UnlockTokens(2, ["X", "Y"]), Table(map[], [])),
                       None)
  {
    FullStepWaiting(TwoPhaseLocking.Config(false, false), raw,
      Replay([Entry(Write, 2, "Y"), Entry(Write, 3, "Y"), Entry(Write, 1, "X"), Entry(Commit, 1, ""), Entry(Commit, 2, ""), Entry(Commit, 3, "")], [Entry(Write, 2, "X")], tr, Table(map["X" := X], [Grant(1, "X", X)])),
      Replay([Entry(Write, 3, "Y"), Entry(Write, 1, "X"), Entry(Commit, 1, ""), Entry(Commit, 2, ""), Entry(Commit, 3, "")], [Entry(Write, 2, "X"), Entry(Write, 2, "Y")], tr, Table(map["X" := X], [Grant(1, "X", X)])));
    FullSampleOneFrom3(raw, tr);
  }

  /** The rest of `FullSampleOne`, from its state after 3 of its steps. */
  lemma FullSampleOneFrom3(raw: seq<string>, tr: seq<string>)
    requires ParseSchedule(raw).Ok?
    ensures TwoPhaseLocking.RunSteps(TwoPhaseLocking.Config(false, false), raw, Replay([Entry(Write, 3, "Y"), Entry(Write, 1, "X"), Entry(Commit, 1, ""), Entry(Commit, 2, ""), Entry(Commit, 3, "")], [Entry(Write, 2, "X"), Entry(Write, 2, "Y")], tr, Table(map["X" := X], [Grant(1, "X", X)])), 0)
            == Outcome(Replay([], [], tr + [LockToken(3, "Y", X), OpToken(Write, 3, "Y")] + [OpToken(Write, 1, "X")] + [OpToken(Commit, 1, "")] + UnlockTokens(1, ["X"]) + [LockToken(2, "X", X), OpToken(Write, 2, "X")] + [OpToken(Commit, 3, "")] + UnlockTokens(3, ["Y"]) + [LockToken(2, "Y", X), OpToken(Write, 2, "Y")] + [OpToken(Commit, 2, "")] + UnlockTokens(2, ["X", "Y"]), Table(map[], [])),
                       None)
  {
    FullStepGrant(TwoPhaseLocking.Config(false, false), raw,
      Replay([Entry(Write, 3, "Y"), Entry(Write, 1, "X"), Entry(Commit, 1, ""), Entry(Commit, 2, ""), Entry(Commit, 3, "")], [Entry(Write, 2, "X"), Entry(Write, 2, "Y")], tr, Table(map["X" := X], [Grant(1, "X", X)])),
      Replay([Entry(Write, 1, "X"), Entry(Commit, 1, ""), Entry(Commit, 2, ""), Entry(Commit, 3, "")], [Entry(Write, 2, "X"), Entry(Write, 2, "Y")], tr + [LockToken(3, "Y", X), OpToken(Write, 3, "Y")], Table(map["X" := X, "Y" := X], [Grant(1, "X", X), Grant(3, "Y", X)])));
    FullSampleOneFrom4(raw, tr + [LockToken(3, "Y", X), OpToken(Write, 3, "Y")]);
  }

  /** The rest of `FullSampleOne`, from its state after 4 of its steps. */
  lemma FullSampleOneFrom4(raw: seq<string>, tr: seq<string>)
    requires ParseSchedule(raw).Ok?
    ensures TwoPhaseLocking.RunSteps(TwoPhaseLocking.Config(false, false), raw, Replay([Entry(Write, 1, "X"), Entry(Commit, 1, ""), Entry(Commit, 2, ""), Entry(Commit, 3, "")], [Entry(Write, 2, "X"), Entry(Write, 2, "Y")], tr, Table(map["X" := X, "Y" := X], [Grant(1, "X", X), Grant(3, "Y", X)])), 0)
            == Outcome(Replay([], [], tr + [OpToken(Write, 1, "X")] + [OpToken(Commit, 1, "")] + UnlockTokens(1, ["X"]) + [LockToken(2, "X", X), OpToken(Write, 2, "X")] + [OpToken(Commit, 3, "")] + UnlockTokens(3, ["Y"]) + [LockToken(2, "Y", X), OpToken(Write, 2, "Y")] + [OpToken(Commit, 2, "")] + UnlockTokens(2, ["X", "Y"]), Table(map[], [])),
                       None)
  {
    FullStepHeld(TwoPhaseLocking.Config(false, false), raw,
      Replay([Entry(Write, 1, "X"), Entry(Commit, 1, ""), Entry(Commit, 2, ""), Entry(Commit, 3, "")], [Entry(Write, 2, "X"), Entry(Write, 2, "Y")], tr, Table(map["X" := X, "Y" := X], [Grant(1, "X", X), Grant(3, "Y", X)])),
      Replay([Entry(Commit, 1, ""), Entry(Commit, 2, ""), Entry(Commit, 3, "")], [Entry(Write, 2, "X"), Entry(Write, 2, "Y")], tr + [OpToken(Write, 1, "X")], Table(map["X" := X, "Y" := X], [Grant(1, "X", X), Grant(3, "Y", X)])));
    FullSampleOneFrom5(raw, tr + [OpToken(Write, 1, "X")]);
  }

  /** The commit that `FullSampleOneFrom5` starts with: not waiting, with the items it holds, the table it leaves and the next state. */
  lemma FullSampleOneFrom5Ready(tr: seq<string>)
    ensures CommitReady(Replay([Entry(Commit, 1, ""), Entry(Commit, 2, ""), Entry(Commit, 3, "")], [Entry(Write, 2, "X"), Entry(Write, 2, "Y")], tr, Table(map["X" := X, "Y" := X], [Grant(1, "X", X), Grant(3, "Y", X)])),
      ["X"], Table(map["Y" := X], [Grant(3, "Y", X)]),
      Replay([Entry(Write, 2, "X"), Entry(Write, 2, "Y"), Entry(Commit, 2, ""), Entry(Commit, 3, "")], [], tr + [OpToken(Commit, 1, "")] + UnlockTokens(1, ["X"]), Table(map["Y" := X], [Grant(3, "Y", X)])))
  {
  }

  /** The rest of `FullSampleOne`, from its state after 5 of its steps. */
  lemma FullSampleOneFrom5(raw: seq<string>, tr: seq<string>)
    requires ParseSchedule(raw).Ok?
    ensures TwoPhaseLocking.RunSteps(TwoPhaseLocking.Config(false, false), raw, Replay([Entry(Commit, 1, ""), Entry(Commit, 2, ""), Entry(Commit, 3, "")], [Entry(Write, 2, "X"), Entry(Write, 2, "Y")], tr, Table(map["X" := X, "Y" := X], [Grant(1, "X", X), Grant(3, "Y", X)])), 0)
            == Outcome(Replay([], [], tr + [OpToken(Commit, 1, "")] + UnlockTokens(1, ["X"]) + [LockToken(2, "X", X), OpToken(Write, 2, "X")] + [OpToken(Commit, 3, "")] + UnlockTokens(3, ["Y"]) + [LockToken(2, "Y", X), OpToken(Write, 2, "Y")] + [OpToken(Commit, 2, "")] + UnlockTokens(2, ["X", "Y"]), Table(map[], [])),
                       None)
  {
    FullSampleOneFrom5Ready(tr);
    FullStepCommit(TwoPhaseLocking.Config(false, false), raw,
      Replay([Entry(Commit, 1, ""), Entry(Commit, 2, ""), Entry(Commit, 3, "")], [Entry(Write, 2, "X"), Entry(Write, 2, "Y")], tr, Table(map["X" := X, "Y" := X], [Grant(1, "X", X), Grant(3, "Y", X)])),
      ["X"], Table(map["Y" := X], [Grant(3, "Y", X)]),
      Replay([Entry(Write, 2, "X"), Entry(Write, 2, "Y"), Entry(Commit, 2, ""), Entry(Commit, 3, "")], [], tr + [OpToken(Commit, 1, "")] + UnlockTokens(1, ["X"]), Table(map["Y" := X], [Grant(3, "Y", X)])));
    FullSampleOneFrom6(raw, tr + [OpToken(Commit, 1, "")] + UnlockTokens(1, ["X"]));
  }

  /** The rest of `FullSampleOne`, from its state after 6 of its steps. */
  lemma FullSampleOneFrom6(raw: seq<string>, tr: seq<string>)
    requires ParseSchedule(raw).Ok?
    ensures TwoPhaseLocking.RunSteps(TwoPhaseLocking.Config(false, false), raw, Replay([Entry(Write, 2, "X"), Entry(Write, 2, "Y"), Entry(Commit, 2, ""), Entry(Commit, 3, "")], [], tr, Table(map["Y" := X], [Grant(3, "Y", X)])), 0)
            == Outcome(Replay([], [], tr + [LockToken(2, "X", X), OpToken(Write, 2, "X")] + [OpToken(Commit, 3, "")] + UnlockTokens(3, ["Y"]) + [LockToken(2, "Y", X), OpToken(Write, 2, "Y")] + [OpToken(Commit, 2, "")] + UnlockTokens(2, ["X", "Y"]), Table(map[], [])),
                       None)
  {
    FullStepGrant(TwoPhaseLocking.Config(false, false), raw,
      Replay([Entry(Write, 2, "X"), Entry(Write, 2, "Y"), Entry(Commit, 2, ""), Entry(Commit, 3, "")], [], tr, Table(map["Y" := X], [Grant(3, "Y", X)])),
      Replay([Entry(Write, 2, "Y"), Entry(Commit, 2, ""), Entry(Commit, 3, "")], [], tr + [LockToken(2, "X", X), OpToken(Write, 2, "X")], Table(map["Y" := X, "X" := X], [Grant(3, "Y", X), Grant(2, "X", X)])));
    FullSampleOneFrom7(raw, tr + [LockToken(2, "X", X), OpToken(Write, 2, "X")]);
  }

  /** The rest of `FullSampleOne`, from its state after 7 of its steps. */
  lemma FullSampleOneFrom7(raw: seq<string>, tr: seq<string>)
    requires ParseSchedule(raw).Ok?
    ensures TwoPhaseLocking.RunSteps(TwoPhaseLocking.Config(false, false), raw, Replay([Entry(Write, 2, "Y"), Entry(Commit, 2, ""), Entry(Commit, 3, "")], [], tr, Table(map["Y" := X, "X" := X], [Grant(3, "Y", X), Grant(2, "X", X)])), 0)
            == Outcome(Replay([], [], tr + [OpToken(Commit, 3, "")] + UnlockTokens(3, ["Y"]) + [LockToken(2, "Y", X), OpToken(Write, 2, "Y")] + [OpToken(Commit, 2, "")] + UnlockTokens(2, ["X", "Y"]), Table(map[], [])),
                       None)
  {
    FullStepConflict(TwoPhaseLocking.Config(false, false), raw,
      Replay([Entry(Write, 2, "Y"), Entry(Commit, 2, ""), Entry(Commit, 3, "")], [], tr, Table(map["Y" := X, "X" := X], [Grant(3, "Y", X), Grant(2, "X", X)])),
      Replay([Entry(Commit, 2, ""), Entry(Commit, 3, "")], [Entry(Write, 2, "Y")], tr, Table(map["Y" := X, "X" := X], [Grant(3, "Y", X), Grant(2, "X", X)])));
    FullSampleOneFrom8(raw, tr);
  }

  /** The rest of `FullSampleOne`, from its state after 8 of its steps. */
  lemma FullSampleOneFrom8(raw: seq<string>, tr: seq<string>)
    requires ParseSchedule(raw).Ok?
    ensures TwoPhaseLocking.RunSteps(TwoPhaseLocking.Config(false, false), raw, Replay([Entry(Commit, 2, ""), Entry(Commit, 3, "")], [Entry(Write, 2, "Y")], tr, Table(map["Y" := X, "X" := X], [Grant(3, "Y", X), Grant(2, "X", X)])), 0)
            == Outcome(Replay([], [], tr + [OpToken(Commit, 3, "")] + UnlockTokens(3, ["Y"]) + [LockToken(2, "Y", X), OpToken(Write, 2, "Y")] + [OpToken(Commit, 2, "")] + UnlockTokens(2, ["X", "Y"]), Table(map[], [])),
                       None)
  {
    FullStepWaiting(TwoPhaseLocking.Config(false, false), raw,
      Replay([Entry(Commit, 2, ""), Entry(Commit, 3, "")], [Entry(Write, 2, "Y")], tr, Table(map["Y" := X, "X" := X], [Grant(3, "Y", X), Grant(2, "X", X)])),
      Replay([Entry(Commit, 3, "")], [Entry(Write, 2, "Y"), Entry(Commit, 2, "")], tr, Table(map["Y" := X, "X" := X], [Grant(3, "Y", X), Grant(2, "X", X)])));
    FullSampleOneFrom9(raw, tr);
  }

  /** The commit that `FullSampleOneFrom9` starts with: not waiting, with the items it holds, the table it leaves and the next state. */
  lemma FullSampleOneFrom9Ready(tr: seq<string>)
    ensures CommitReady(Replay([Entry(Commit, 3, "")], [Entry(Write, 2, "Y"), Entry(Commit, 2, "")], tr, Table(map["Y" := X, "X" := X], [Grant(3, "Y", X), Grant(2, "X", X)])),
      ["Y"], Table(map["X" := X], [Grant(2, "X", X)]),
      Replay([Entry(Write, 2, "Y"), Entry(Commit, 2, "")], [], tr + [OpToken(Commit, 3, "")] + UnlockTokens(3, ["Y"]), Table(map["X" := X], [Grant(2, "X", X)])))
  {
  }

  /** The rest of `FullSampleOne`, from its state after 9 of its steps. */
  lemma FullSampleOneFrom9(raw: seq<string>, tr: seq<string>)
    requires ParseSchedule(raw).Ok?
    ensures TwoPhaseLocking.RunSteps(TwoPhaseLocking.Config(false, false), raw, Replay([Entry(Commit, 3, "")], [Entry(Write, 2, "Y"), Entry(Commit, 2, "")], tr, Table(map["Y" := X, "X" := X], [Grant(3, "Y", X), Grant(2, "X", X)])), 0)
            == Outcome(Replay([], [], tr + [OpToken(Commit, 3, "")] + UnlockTokens(3, ["Y"]) + [LockToken(2, "Y", X), OpToken(Write, 2, "Y")] + [OpToken(Commit, 2, "")] + UnlockTokens(2, ["X", "Y"]), Table(map[], [])),
                       None)
  {
    FullSampleOneFrom9Ready(tr);
    FullStepCommit(TwoPhaseLocking.Config(false, false), raw,
      Replay([Entry(Commit, 3, "")], [Entry(Write, 2, "Y"), Entry(Commit, 2, "")], tr, Table(map["Y" := X, "X" := X], [Grant(3, "Y", X), Grant(2, "X", X)])),
      ["Y"], Table(map["X" := X], [Grant(2, "X", X)]),
      Replay([Entry(Write, 2, "Y"), Entry(Commit, 2, "")], [], tr + [OpToken(Commit, 3, "")] + UnlockTokens(3, ["Y"]), Table(map["X" := X], [Grant(2, "X", X)])));
    FullSampleOneFrom10(raw, tr + [OpToken(Commit, 3, "")] + UnlockTokens(3, ["Y"]));
  }

  /** The rest of `FullSampleOne`, from its state after 10 of its steps. */
  lemma FullSampleOneFrom10(raw: seq<string>, tr: seq<string>)
    requires ParseSchedule(raw).Ok?
    ensures TwoPhaseLocking.RunSteps(TwoPhaseLocking.Config(false, false), raw, Replay([Entry(Write, 2, "Y"), Entry(Commit, 2, "")], [], tr, Table(map["X" := X], [Grant(2, "X", X)])), 0)
            == Outcome(Replay([], [], tr + [LockToken(2, "Y", X), OpToken(Write, 2, "Y")] + [OpToken(Commit, 2, "")] + UnlockTokens(2, ["X", "Y"]), Table(map[], [])),
                       None)
  {
    FullStepGrant(TwoPhaseLocking.Config(false, false), raw,
      Replay([Entry(Write, 2, "Y"), Entry(Commit, 2, "")], [], tr, Table(map["X" := X], [Grant(2, "X", X)])),
      Replay([Entry(Commit, 2, "")], [], tr + [LockToken(2, "Y", X), OpToken(Write, 2, "Y")], Table(map["X" := X, "Y" := X], [Grant(2, "X", X), Grant(2, "Y", X)])));
    FullSampleOneFrom11(raw, tr + [LockToken(2, "Y", X), OpToken(Write, 2, "Y")]);
  }

  /** The commit that `FullSampleOneFrom11` starts with: not waiting, with the items it holds, the table it leaves and the next state. */
  lemma FullSampleOneFrom11Ready(tr: seq<string>)
    ensures CommitReady(Replay([Entry(Commit, 2, "")], [], tr, Table(map["X" := X, "Y" := X], [Grant(2, "X", X), Grant(2, "Y", X)])),
      ["X", "Y"], Table(map[], []),
      Replay([], [], tr + [OpToken(Commit, 2, "")] + UnlockTokens(2, ["X", "Y"]), Table(map[], [])))
  {
  }

  /** The rest of `FullSampleOne`, from its state after 11 of its steps. */
  lemma FullSampleOneFrom11(raw: seq<string>, tr: seq<string>)
    requires ParseSchedule(raw).Ok?
    ensures TwoPhaseLocking.RunSteps(TwoPhaseLocking.Config(false, false), raw, Replay([Entry(Commit, 2, "")], [], tr, Table(map["X" := X, "Y" := X], [Grant(2, "X", X), Grant(2, "Y", X)])), 0)
            == Outcome(Replay([], [], tr + [OpToken(Commit, 2, "")] + UnlockTokens(2, ["X", "Y"]), Table(map[], [])),
                       None)
  {
    FullSampleOneFrom11Ready(tr);
    FullStepCommit(TwoPhaseLocking.Config(false, false), raw,
      Replay([Entry(Commit, 2, "")], [], tr, Table(map["X" := X, "Y" := X], [Grant(2, "X", X), Grant(2, "Y", X)])),
      ["X", "Y"], Table(map[], []),
      Replay([], [], tr + [OpToken(Commit, 2, "")] + UnlockTokens(2, ["X", "Y"]), Table(map[], [])));
  }

  /** Sample 6 of the full driver: each transaction ends up waiting for the other, and the run reports a deadlock with four entries still queued. */
  lemma FullSampleSix(raw: seq<string>)
    requires ParseSchedule(raw) == Ok([Entry(Write, 1, "X"), Entry(Write, 2, "Y"), Entry(Write, 1, "Y"), Entry(Write, 2, "X"), Entry(Commit, 1, ""), Entry(Commit, 2, "")])
    ensures var o := TwoPhaseLocking.RunSteps(TwoPhaseLocking.Config(false, false), raw, TwoPhaseLocking.Initial(raw), 0);
            o.failure == Some(Deadlock) && o.st.queue == [Entry(Write, 1, "Y"), Entry(Write, 2, "X"), Entry(Commit, 1, ""), Entry(Commit, 2, "")]
            && o.st.trace == [LockToken(1, "X", X), OpToken(Write, 1, "X")] + [LockToken(2, "Y", X), OpToken(Write, 2, "Y")]
  {
    FullSampleSixFrom0(raw);
  }

  /** The run of `FullSampleSix` from its initial state. */
  lemma FullSampleSixFrom0(raw: seq<string>)
    requires ParseSchedule(raw).Ok?
    ensures TwoPhaseLocking.RunSteps(TwoPhaseLocking.Config(false, false), raw, Replay([Entry(Write, 1, "X"), Entry(Write, 2, "Y"), Entry(Write, 1, "Y"), Entry(Write, 2, "X"), Entry(Commit, 1, ""), Entry(Commit, 2, "")], [], [], Table(map[], [])), 0)
            == Outcome(Replay([], [Entry(Write, 1, "Y"), Entry(Write, 2, "X"), Entry(Commit, 1, ""), Entry(Commit, 2, "")], [LockToken(1, "X", X), OpToken(Write, 1, "X")] + [LockToken(2, "Y", X), OpToken(Write, 2, "Y")], Table(map["X" := X, "Y" := X], [Grant(1, "X", X), Grant(2, "Y", X)])),
                       Some(Deadlock))
  {
    FullStepGrant(TwoPhaseLocking.Config(false, false), raw,
      Replay([Entry(Write, 1, "X"), Entry(Write, 2, "Y"), Entry(Write, 1, "Y"), Entry(Write, 2, "X"), Entry(Commit, 1, ""), Entry(Commit, 2, "")], [], [], Table(map[], [])),
      Replay([Entry(Write, 2, "Y"), Entry(Write, 1, "Y"), Entry(Write, 2, "X"), Entry(Commit, 1, ""), Entry(Commit, 2, "")], [], [LockToken(1, "X", X), OpToken(Write, 1, "X")], Table(map["X" := X], [Grant(1, "X", X)])));
    FullSampleSixFrom1(raw, [LockToken(1, "X", X), OpToken(Write, 1, "X")]);
  }

  /** The rest of `FullSampleSix`, from its state after 1 of its steps. */
  lemma FullSampleSixFrom1(raw: seq<string>, tr: seq<string>)
    requires ParseSchedule(raw).Ok?
    ensures TwoPhaseLocking.RunSteps(TwoPhaseLocking.Config(false, false), raw, Replay([Entry(Write, 2, "Y"), Entry(Write, 1, "Y"), Entry(Write, 2, "X"), Entry(Commit, 1, ""), Entry(Commit, 2, "")], [], tr, Table(map["X" := X], [Grant(1, "X", X)])), 0)
            == Outcome(Replay([], [Entry(Write, 1, "Y"), Entry(Write, 2, "X"), Entry(Commit, 1, ""), Entry(Commit, 2, "")], tr + [LockToken(2, "Y", X), OpToken(Write, 2, "Y")], Table(map["X" := X, "Y" := X], [Grant(1, "X", X), Grant(2, "Y", X)])),
                       Some(Deadlock))
  {
    FullStepGrant(TwoPhaseLocking.Config(false, false), raw,
      Replay([Entry(Write, 2, "Y"), Entry(Write, 1, "Y"), Entry(Write, 2, "X"), Entry(Commit, 1, ""), Entry(Commit, 2, "")], [], tr, Table(map["X" := X], [Grant(1, "X", X)])),
      Replay([Entry(Write, 1, "Y"), Entry(Write, 2, "X"), Entry(Commit, 1, ""), Entry(Commit, 2, "")], [], tr + [LockToken(2, "Y", X), OpToken(Write, 2, "Y")], Table(map["X" := X, "Y" := X], [Grant(1, "X", X), Grant(2, "Y", X)])));
    FullSampleSixFrom2(raw, tr + [LockToken(2, "Y", X), OpToken(Write, 2, "Y")]);
  }

  /** The rest of `FullSampleSix`, from its state after 2 of its steps. */
  lemma FullSampleSixFrom2(raw: seq<string>, tr: seq<string>)
    requires ParseSchedule(raw).Ok?
    ensures TwoPhaseLocking.RunSteps(TwoPhaseLocking.Config(false, false), raw, Replay([Entry(Write, 1, "Y"), Entry(Write, 2, "X"), Entry(Commit, 1, ""), Entry(Commit, 2, "")], [], tr, Table(map["X" := X, "Y" := X], [Grant(1, "X", X), Grant(2, "Y", X)])), 0)
            == Outcome(Replay([], [Entry(Write, 1, "Y"), Entry(Write, 2, "X"), Entry(Commit, 1, ""), Entry(Commit, 2, "")], tr, Table(map["X" := X, "Y" := X], [Grant(1, "X", X), Grant(2, "Y", X)])),
                       Some(Deadlock))
  {
    FullStepConflict(TwoPhaseLocking.Config(false, false), raw,
      Replay([Entry(Write, 1, "Y"), Entry(Write, 2, "X"), Entry(Commit, 1, ""), Entry(Commit, 2, "")], [], tr, Table(map["X" := X, "Y" := X], [Grant(1, "X", X), Grant(2, "Y", X)])),
      Replay([Entry(Write, 2, "X"), Entry(Commit, 1, ""), Entry(Commit, 2, "")], [Entry(Write, 1, "Y")], tr, Table(map["X" := X, "Y" := X], [Grant(1, "X", X), Grant(2, "Y", X)])));
    FullSampleSixFrom3(raw, tr);
  }

  /** The rest of `FullSampleSix`, from its state after 3 of its steps. */
  lemma FullSampleSixFrom3(raw: seq<string>, tr: seq<string>)
    requires ParseSchedule(raw).Ok?
    ensures TwoPhaseLocking.RunSteps(TwoPhaseLocking.Config(false, false), raw, Replay([Entry(Write, 2, "X"), Entry(Commit, 1, ""), Entry(Commit, 2, "")], [Entry(Write, 1, "Y")], tr, Table(map["X" := X, "Y" := X], [Grant(1, "X", X), Grant(2, "Y", X)])), 0)
            == Outcome(Replay([], [Entry(Write, 1, "Y"), Entry(Write, 2, "X"), Entry(Commit, 1, ""), Entry(Commit, 2, "")], tr, Table(map["X" := X, "Y" := X], [Grant(1, "X", X), Grant(2, "Y", X)])),
                       Some(Deadlock))
  {
    FullStepConflict(TwoPhaseLocking.Config(false, false), raw,
      Replay([Entry(Write, 2, "X"), Entry(Commit, 1, ""), Entry(Commit, 2, "")], [Entry(Write, 1, "Y")], tr, Table(map["X" := X, "Y" := X], [Grant(1, "X", X), Grant(2, "Y", X)])),
      Replay([Entry(Commit, 1, ""), Entry(Commit, 2, "")], [Entry(Write, 1, "Y"), Entry(Write, 2, "X")], tr, Table(map["X" := X, "Y" := X], [Grant(1, "X", X), Grant(2, "Y", X)])));
    FullSampleSixFrom4(raw, tr);
  }

  /** The rest of `FullSampleSix`, from its state after 4 of its steps. */
  lemma FullSampleSixFrom4(raw: seq<string>, tr: seq<string>)
    requires ParseSchedule(raw).Ok?
    ensures TwoPhaseLocking.RunSteps(TwoPhaseLocking.Config(false, false), raw, Replay([Entry(Commit, 1, ""), Entry(Commit, 2, "")], [Entry(Write, 1, "Y"), Entry(Write, 2, "X")], tr, Table(map["X" := X, "Y" := X], [Grant(1, "X", X), Grant(2, "Y", X)])), 0)
            == Outcome(Replay([], [Entry(Write, 1, "Y"), Entry(Write, 2, "X"), Entry(Commit, 1, ""), Entry(Commit, 2, "")], tr, Table(map["X" := X, "Y" := X], [Grant(1, "X", X), Grant(2, "Y", X)])),
                       Some(Deadlock))
  {
    FullStepWaiting(TwoPhaseLocking.Config(false, false), raw,
      Replay([Entry(Commit, 1, ""), Entry(Commit, 2, "")], [Entry(Write, 1, "Y"), Entry(Write, 2, "X")], tr, Table(map["X" := X, "Y" := X], [Grant(1, "X", X), Grant(2, "Y", X)])),
      Replay([Entry(Commit, 2, "")], [Entry(Write, 1, "Y"), Entry(Write, 2, "X"), Entry(Commit, 1, "")], tr, Table(map["X" := X, "Y" := X], [Grant(1, "X", X), Grant(2, "Y", X)])));
    FullSampleSixFrom5(raw, tr);
  }

  /** The rest of `FullSampleSix`, from its state after 5 of its steps. */
  lemma FullSampleSixFrom5(raw: seq<string>, tr: seq<string>)
    requires ParseSchedule(raw).Ok?
    ensures TwoPhaseLocking.RunSteps(TwoPhaseLocking.Config(false, false), raw, Replay([Entry(Commit, 2, "")], [Entry(Write, 1, "Y"), Entry(Write, 2, "X"), Entry(Commit, 1, "")], tr, Table(map["X" := X, "Y" := X], [Grant(1, "X", X), Grant(2, "Y", X)])), 0)
            == Outcome(Replay([], [Entry(Write, 1, "Y"), Entry(Write, 2, "X"), Entry(Commit, 1, ""), Entry(Commit, 2, "")], tr, Table(map["X" := X, "Y" := X], [Grant(1, "X", X), Grant(2, "Y", X)])),
                       Some(Deadlock))
  {
    FullStepWaiting(TwoPhaseLocking.Config(false, false), raw,
      Replay([Entry(Commit, 2, "")], [Entry(Write, 1, "Y"), Entry(Write, 2, "X"), Entry(Commit, 1, "")], tr, Table(map["X" := X, "Y" := X], [Grant(1, "X", X), Grant(2, "Y", X)])),
      Replay([], [Entry(Write, 1, "Y"), Entry(Write, 2, "X"), Entry(Commit, 1, ""), Entry(Commit, 2, "")], tr, Table(map["X" := X, "Y" := X], [Grant(1, "X", X), Grant(2, "Y", X)])));
  }

  /** Sample 3 of the early driver with upgrade: the two transactions share both items in S and commit one after the other. */
  lemma EarlySampleThree(raw: seq<string>)
    requires ParseSchedule(raw) == Ok([Entry(Read, 1, "X"), Entry(Read, 2, "Y"), Entry(Read, 1, "Y"), Entry(Read, 2, "X"), Entry(Commit, 1, ""), Entry(Commit, 2, "")])
    ensures var o := EarlyTwoPhaseLocking.RunSteps(true, EarlyTwoPhaseLocking.Initial(raw));
            o.failure == None && o.st.queue == []
            && o.st.trace == [LockToken(1, "X", S), OpToken(Read, 1, "X")] + [LockToken(2, "Y", S), OpToken(Read, 2, "Y")] + [LockToken(1, "Y", S), OpToken(Read, 1, "Y")] + [LockToken(2, "X", S), OpToken(Read, 2, "X")] + [OpToken(Commit, 1, "")] + UnlockTokens(1, ["X", "Y"]) + [OpToken(Commit, 2, "")] + UnlockTokens(2, ["Y", "X"])
            && o.st.table == Table(map[], [])
  {
    EarlySampleThreeFrom0();
  }

  /** The run of `EarlySampleThree` from its initial state. */
  lemma EarlySampleThreeFrom0()
    ensures EarlyTwoPhaseLocking.RunSteps(true, Replay([Entry(Read, 1, "X"), Entry(Read, 2, "Y"), Entry(Read, 1, "Y"), Entry(Read, 2, "X"), Entry(Commit, 1, ""), Entry(Commit, 2, "")], [], [], Table(map[], [])))
            == Outcome(Replay([], [], [LockToken(1, "X", S), OpToken(Read, 1, "X")] + [LockToken(2, "Y", S), OpToken(Read, 2, "Y")] + [LockToken(1, "Y", S), OpToken(Read, 1, "Y")] + [LockToken(2, "X", S), OpToken(Read, 2, "X")] + [OpToken(Commit, 1, "")] + UnlockTokens(1, ["X", "Y"]) + [OpToken(Commit, 2, "")] + UnlockTokens(2, ["Y", "X"]), Table(map[], [])),
                       None)
  {
    EarlyStepGrant(true,
      Replay([Entry(Read, 1, "X"), Entry(Read, 2, "Y"), Entry(Read, 1, "Y"), Entry(Read, 2, "X"), Entry(Commit, 1, ""), Entry(Commit, 2, "")], [], [], Table(map[], [])),
      Replay([Entry(Read, 2, "Y"), Entry(Read, 1, "Y"), Entry(Read, 2, "X"), Entry(Commit, 1, ""), Entry(Commit, 2, "")], [], [LockToken(1, "X", S), OpToken(Read, 1, "X")], Table(map["X" := S], [Grant(1, "X", S)])));
    EarlySampleThreeFrom1([LockToken(1, "X", S), OpToken(Read, 1, "X")]);
  }

  /** The rest of `EarlySampleThree`, from its state after 1 of its steps. */
  lemma EarlySampleThreeFrom1(tr: seq<string>)
    ensures EarlyTwoPhaseLocking.RunSteps(true, Replay([Entry(Read, 2, "Y"), Entry(Read, 1, "Y"), Entry(Read, 2, "X"), Entry(Commit, 1, ""), Entry(Commit, 2, "")], [], tr, Table(map["X" := S], [Grant(1, "X", S)])))
            == Outcome(Replay([], [], tr + [LockToken(2, "Y", S), OpToken(Read, 2, "Y")] + [LockToken(1, "Y", S), OpToken(Read, 1, "Y")] + [LockToken(2, "X", S), OpToken(Read, 2, "X")] + [OpToken(Commit, 1, "")] + UnlockTokens(1, ["X", "Y"]) + [OpToken(Commit, 2, "")] + UnlockTokens(2, ["Y", "X"]), Table(map[], [])),
                       None)
  {
    EarlyStepGrant(true,
      Replay([Entry(Read, 2, "Y"), Entry(Read, 1, "Y"), Entry(Read, 2, "X"), Entry(Commit, 1, ""), Entry(Commit, 2, "")], [], tr, Table(map["X" := S], [Grant(1, "X", S)])),
      Replay([Entry(Read, 1, "Y"), Entry(Read, 2, "X"), Entry(Commit, 1, ""), Entry(Commit, 2, "")], [], tr + [LockToken(2, "Y", S), OpToken(Read, 2, "Y")], Table(map["X" := S, "Y" := S], [Grant(1, "X", S), Grant(2, "Y", S)])));
    EarlySampleThreeFrom2(tr + [LockToken(2, "Y", S), OpToken(Read, 2, "Y")]);
  }

  /** The rest of `EarlySampleThree`, from its state after 2 of its steps. */
  lemma EarlySampleThreeFrom2(tr: seq<string>)
    ensures EarlyTwoPhaseLocking.RunSteps(true, Replay([Entry(Read, 1, "Y"), Entry(Read, 2, "X"), Entry(Commit, 1, ""), Entry(Commit, 2, "")], [], tr, Table(map["X" := S, "Y" := S], [Grant(1, "X", S), Grant(2, "Y", S)])))
            == Outcome(Replay([], [], tr + [LockToken(1, "Y", S), OpToken(Read, 1, "Y")] + [LockToken(2, "X", S), OpToken(Read, 2, "X")] + [OpToken(Commit, 1, "")] + UnlockTokens(1, ["X", "Y"]) + [OpToken(Commit, 2, "")] + UnlockTokens(2, ["Y", "X"]), Table(map[], [])),
                       None)
  {
    EarlyStepCoHold(true,
      Replay([Entry(Read, 1, "Y"), Entry(Read, 2, "X"), Entry(Commit, 1, ""), Entry(Commit, 2, "")], [], tr, Table(map["X" := S, "Y" := S], [Grant(1, "X", S), Grant(2, "Y", S)])),
      Replay([Entry(Read, 2, "X"), Entry(Commit, 1, ""), Entry(Commit, 2, "")], [], tr + [LockToken(1, "Y", S), OpToken(Read, 1, "Y")], Table(map["X" := S, "Y" := S], [Grant(1, "X", S), Grant(2, "Y", S), Grant(1, "Y", S)])));
    EarlySampleThreeFrom3(tr + [LockToken(1, "Y", S), OpToken(Read, 1, "Y")]);
  }

  /** The rest of `EarlySampleThree`, from its state after 3 of its steps. */
  lemma EarlySampleThreeFrom3(tr: seq<string>)
    ensures EarlyTwoPhaseLocking.RunSteps(true, Replay([Entry(Read, 2, "X"), Entry(Commit, 1, ""), Entry(Commit, 2, "")], [], tr, Table(map["X" := S, "Y" := S], [Grant(1, "X", S), Grant(2, "Y", S), Grant(1, "Y", S)])))
            == Outcome(Replay([], [], tr + [LockToken(2, "X", S), OpToken(Read, 2, "X")] + [OpToken(Commit, 1, "")] + UnlockTokens(1, ["X", "Y"]) + [OpToken(Commit, 2, "")] + UnlockTokens(2, ["Y", "X"]), Table(map[], [])),
                       None)
  {
    EarlyStepCoHold(true,
      Replay([Entry(Read, 2, "X"), Entry(Commit, 1, ""), Entry(Commit, 2, "")], [], tr, Table(map["X" := S, "Y" := S], [Grant(1, "X", S), Grant(2, "Y", S), Grant(1, "Y", S)])),
      Replay([Entry(Commit, 1, ""), Entry(Commit, 2, "")], [], tr + [LockToken(2, "X", S), OpToken(Read, 2, "X")], Table(map["X" := S, "Y" := S], [Grant(1, "X", S), Grant(2, "Y", S), Grant(1, "Y", S), Grant(2, "X", S)])));
    EarlySampleThreeFrom4(tr + [LockToken(2, "X", S), OpToken(Read, 2, "X")]);
  }

  /** The commit that `EarlySampleThreeFrom4` starts with: not waiting, with the items it holds, the table it leaves and the next state. */
  lemma EarlySampleThreeFrom4Ready(tr: seq<string>)
    ensures CommitReady(Replay([Entry(Commit, 1, ""), Entry(Commit, 2, "")], [], tr, Table(map["X" := S, "Y" := S], [Grant(1, "X", S), Grant(2, "Y", S), Grant(1, "Y", S), Grant(2, "X", S)])),
      ["X", "Y"], Table(map[], [Grant(2, "Y", S), Grant(2, "X", S)]),
      Replay([Entry(Commit, 2, "")], [], tr + [OpToken(Commit, 1, "")] + UnlockTokens(1, ["X", "Y"]), Table(map[], [Grant(2, "Y", S), Grant(2, "X", S)])))
  {
    EarlySampleThreeRelease();
    EarlySampleThreeFrom4Next(tr);
  }

  /** The commit that `EarlySampleThreeFrom4` starts with is not waiting; the state it moves to. */
  lemma EarlySampleThreeFrom4Next(tr: seq<string>)
    ensures var s := Replay([Entry(Commit, 1, ""), Entry(Commit, 2, "")], [], tr, Table(map["X" := S, "Y" := S], [Grant(1, "X", S), Grant(2, "Y", S), Grant(1, "Y", S), Grant(2, "X", S)]));
            s.sched != [] && s.sched[0].op == Commit && !IsWaiting(s.queue, s.sched[0].txn) && "" !in s.table.modes
            && var e := s.sched[0];
               Replay([Entry(Commit, 2, "")], [], tr + [OpToken(Commit, 1, "")] + UnlockTokens(1, ["X", "Y"]), Table(map[], [Grant(2, "Y", S), Grant(2, "X", S)]))
               == Replay(s.queue + s.sched[1..], [], s.trace + [OpToken(e.op, e.txn, e.item)] + UnlockTokens(e.txn, ["X", "Y"]), Table(map[], [Grant(2, "Y", S), Grant(2, "X", S)]))
  {
  }

  /** The rest of `EarlySampleThree`, from its state after 4 of its steps. */
  lemma EarlySampleThreeFrom4(tr: seq<string>)
    ensures EarlyTwoPhaseLocking.RunSteps(true, Replay([Entry(Commit, 1, ""), Entry(Commit, 2, "")], [], tr, Table(map["X" := S, "Y" := S], [Grant(1, "X", S), Grant(2, "Y", S), Grant(1, "Y", S), Grant(2, "X", S)])))
            == Outcome(Replay([], [], tr + [OpToken(Commit, 1, "")] + UnlockTokens(1, ["X", "Y"]) + [OpToken(Commit, 2, "")] + UnlockTokens(2, ["Y", "X"]), Table(map[], [])),
                       None)
  {
    EarlySampleThreeFrom4Ready(tr);
    EarlyStepCommit(true,
      Replay([Entry(Commit, 1, ""), Entry(Commit, 2, "")], [], tr, Table(map["X" := S, "Y" := S], [Grant(1, "X", S), Grant(2, "Y", S), Grant(1, "Y", S), Grant(2, "X", S)])),
      ["X", "Y"], Table(map[], [Grant(2, "Y", S), Grant(2, "X", S)]),
      Replay([Entry(Commit, 2, "")], [], tr + [OpToken(Commit, 1, "")] + UnlockTokens(1, ["X", "Y"]), Table(map[], [Grant(2, "Y", S), Grant(2, "X", S)])));
    EarlySampleThreeFrom5(tr + [OpToken(Commit, 1, "")] + UnlockTokens(1, ["X", "Y"]));
  }

  /** The first commit of `EarlySampleThree`: the items transaction 1 holds and the table its release leaves. */
  lemma EarlySampleThreeRelease()
    ensures ItemsOf([Grant(1, "X", S), Grant(2, "Y", S), Grant(1, "Y", S), Grant(2, "X", S)], 1) == ["X", "Y"]
    ensures Table(map["X" := S, "Y" := S], [Grant(1, "X", S), Grant(2, "Y", S), Grant(1, "Y", S), Grant(2, "X", S)]).Unlock(1)
            == Table(map[], [Grant(2, "Y", S), Grant(2, "X", S)])
  {
    UnlockTable(Table(map["X" := S, "Y" := S], [Grant(1, "X", S), Grant(2, "Y", S), Grant(1, "Y", S), Grant(2, "X", S)]), 1,
      map[], [Grant(2, "Y", S), Grant(2, "X", S)]);
  }

  /** The rest of `EarlySampleThree`, from its state after 5 of its steps. */
  lemma EarlySampleThreeFrom5(tr: seq<string>)
    ensures EarlyTwoPhaseLocking.RunSteps(true, Replay([Entry(Commit, 2, "")], [], tr, Table(map[], [Grant(2, "Y", S), Grant(2, "X", S)])))
            == Outcome(Replay([], [], tr + [OpToken(Commit, 2, "")] + UnlockTokens(2, ["Y", "X"]), Table(map[], [])),
                       None)
  {
    EarlyStepCommit(true,
      Replay([Entry(Commit, 2, "")], [], tr, Table(map[], [Grant(2, "Y", S), Grant(2, "X", S)])),
      ["Y", "X"], Table(map[], []),
      Replay([], [], tr + [OpToken(Commit, 2, "")] + UnlockTokens(2, ["Y", "X"]), Table(map[], [])));
  }

  /** The full driver with upgrade: the commit of transaction 1 deletes the item key of X although transaction 2 still holds X in S, so transaction 3 is then granted X beside it. */
  lemma FullUpgradeQuirk(raw: seq<string>)
    requires ParseSchedule(raw) == Ok([Entry(Read, 1, "X"), Entry(Read, 2, "X"), Entry(Commit, 1, ""), Entry(Write, 3, "X")])
    ensures var o := TwoPhaseLocking.RunSteps(TwoPhaseLocking.Config(true, false), raw, TwoPhaseLocking.Initial(raw), 0);
            o.failure == None && o.st.queue == []
            && o.st.trace == [LockToken(1, "X", S), OpToken(Read, 1, "X")] + [LockToken(2, "X", S), OpToken(Read, 2, "X")] + [OpToken(Commit, 1, "")] + UnlockTokens(1, ["X"]) + [LockToken(3, "X", X), OpToken(Write, 3, "X")]
            && o.st.table == Table(map["X" := X], [Grant(2, "X", S), Grant(3, "X", X)])
            && o.st.table.HasLock(2, "X") && o.st.table.HasLock(3, "X")
  {
    FullUpgradeQuirkFrom0(raw);
  }

  /**
   * After `FullUpgradeQuirk`, the commit of transaction 2 deletes the item key
   * of X once more, so transaction 3 holds X on an item that is not locked. A
   * read by 3 with upgrade is then granted S afresh: its X grant becomes S.
   */
  lemma FullRegrantQuirk(raw: seq<string>)
    requires ParseSchedule(raw).Ok?
    ensures Table(map["X" := X], [Grant(2, "X", S), Grant(3, "X", X)]).Unlock(2) == Table(map[], [Grant(3, "X", X)])
    ensures var st := Replay([], [], [], Table(map[], [Grant(3, "X", X)]));
            var r := TwoPhaseLocking.ReadWriteStep(TwoPhaseLocking.Config(true, false), raw, st, Read, 3, "X", S);
            r.table == Table(map["X" := S], [Grant(3, "X", S)]) && r.trace == [LockToken(3, "X", S), OpToken(Read, 3, "X")]
  {
    var tb := Table(map["X" := X], [Grant(2, "X", S), Grant(3, "X", X)]);
    assert tb.HasLock(2, "X");
    assert (set g | g in tb.grants && g.txn == 2 :: g.item) == {"X"};
    assert GrantsNotOf(tb.grants, 2) == [Grant(3, "X", X)];
    var st := Replay([], [], [], Table(map[], [Grant(3, "X", X)]));
    assert KeyIndex(st.table.grants, 3, "X") == 0;
    TwoPhaseLocking.ReadWriteStepBranches(TwoPhaseLocking.Config(true, false), raw, st, Read, 3, "X", S,
      TwoPhaseLocking.ReadWriteStep(TwoPhaseLocking.Config(true, false), raw, st, Read, 3, "X", S));
  }

  /** The run of `FullUpgradeQuirk` from its initial state. */
  lemma FullUpgradeQuirkFrom0(raw: seq<string>)
    requires ParseSchedule(raw).Ok?
    ensures TwoPhaseLocking.RunSteps(TwoPhaseLocking.Config(true, false), raw, Replay([Entry(Read, 1, "X"), Entry(Read, 2, "X"), Entry(Commit, 1, ""), Entry(Write, 3, "X")], [], [], Table(map[], [])), 0)
            == Outcome(Replay([], [], [LockToken(1, "X", S), OpToken(Read, 1, "X")] + [LockToken(2, "X", S), OpToken(Read, 2, "X")] + [OpToken(Commit, 1, "")] + UnlockTokens(1, ["X"]) + [LockToken(3, "X", X), OpToken(Write, 3, "X")], Table(map["X" := X], [Grant(2, "X", S), Grant(3, "X", X)])),
                       None)
  {
    FullStepGrant(TwoPhaseLocking.Config(true, false), raw,
      Replay([Entry(Read, 1, "X"), Entry(Read, 2, "X"), Entry(Commit, 1, ""), Entry(Write, 3, "X")], [], [], Table(map[], [])),
      Replay([Entry(Read, 2, "X"), Entry(Commit, 1, ""), Entry(Write, 3, "X")], [], [LockToken(1, "X", S), OpToken(Read, 1, "X")], Table(map["X" := S], [Grant(1, "X", S)])));
    FullUpgradeQuirkFrom1(raw, [LockToken(1, "X", S), OpToken(Read, 1, "X")]);
  }

  /** The rest of `FullUpgradeQuirk`, from its state after 1 of its steps. */
  lemma FullUpgradeQuirkFrom1(raw: seq<string>, tr: seq<string>)
    requires ParseSchedule(raw).Ok?
    ensures TwoPhaseLocking.RunSteps(TwoPhaseLocking.Config(true, false), raw, Replay([Entry(Read, 2, "X"), Entry(Commit, 1, ""), Entry(Write, 3, "X")], [], tr, Table(map["X" := S], [Grant(1, "X", S)])), 0)
            == Outcome(Replay([], [], tr + [LockToken(2, "X", S), OpToken(Read, 2, "X")] + [OpToken(Commit, 1, "")] + UnlockTokens(1, ["X"]) + [LockToken(3, "X", X), OpToken(Write, 3, "X")], Table(map["X" := X], [Grant(2, "X", S), Grant(3, "X", X)])),
                       None)
  {
    FullStepCoHold(TwoPhaseLocking.Config(true, false), raw,
      Replay([Entry(Read, 2, "X"), Entry(Commit, 1, ""), Entry(Write, 3, "X")], [], tr, Table(map["X" := S], [Grant(1, "X", S)])),
      Replay([Entry(Commit, 1, ""), Entry(Write, 3, "X")], [], tr + [LockToken(2, "X", S), OpToken(Read, 2, "X")], Table(map["X" := S], [Grant(1, "X", S), Grant(2, "X", S)])));
    FullUpgradeQuirkFrom2(raw, tr + [LockToken(2, "X", S), OpToken(Read, 2, "X")]);
  }

  /** The rest of `FullUpgradeQuirk`, from its state after 2 of its steps. */
  lemma FullUpgradeQuirkFrom2(raw: seq<string>, tr: seq<string>)
    requires ParseSchedule(raw).Ok?
    ensures TwoPhaseLocking.RunSteps(TwoPhaseLocking.Config(true, false), raw, Replay([Entry(Commit, 1, ""), Entry(Write, 3, "X")], [], tr, Table(map["X" := S], [Grant(1, "X", S), Grant(2, "X", S)])), 0)
            == Outcome(Replay([], [], tr + [OpToken(Commit, 1, "")] + UnlockTokens(1, ["X"]) + [LockToken(3, "X", X), OpToken(Write, 3, "X")], Table(map["X" := X], [Grant(2, "X", S), Grant(3, "X", X)])),
                       None)
  {
    FullStepCommit(TwoPhaseLocking.Config(true, false), raw,
      Replay([Entry(Commit, 1, ""), Entry(Write, 3, "X")], [], tr, Table(map["X" := S], [Grant(1, "X", S), Grant(2, "X", S)])),
      ["X"], Table(map[], [Grant(2, "X", S)]),
      Replay([Entry(Write, 3, "X")], [], tr + [OpToken(Commit, 1, "")] + UnlockTokens(1, ["X"]), Table(map[], [Grant(2, "X", S)])));
    FullUpgradeQuirkFrom3(raw, tr + [OpToken(Commit, 1, "")] + UnlockTokens(1, ["X"]));
  }

  /** The rest of `FullUpgradeQuirk`, from its state after 3 of its steps. */
  lemma FullUpgradeQuirkFrom3(raw: seq<string>, tr: seq<string>)
    requires ParseSchedule(raw).Ok?
    ensures TwoPhaseLocking.RunSteps(TwoPhaseLocking.Config(true, false), raw, Replay([Entry(Write, 3, "X")], [], tr, Table(map[], [Grant(2, "X", S)])), 0)
            == Outcome(Replay([], [], tr + [LockToken(3, "X", X), OpToken(Write, 3, "X")], Table(map["X" := X], [Grant(2, "X", S), Grant(3, "X", X)])),
                       None)
  {
    FullStepGrant(TwoPhaseLocking.Config(true, false), raw,
      Replay([Entry(Write, 3, "X")], [], tr, Table(map[], [Grant(2, "X", S)])),
      Replay([], [], tr + [LockToken(3, "X", X), OpToken(Write, 3, "X")], Table(map["X" := X], [Grant(2, "X", S), Grant(3, "X", X)])));
  }

  /** The early driver with upgrade: transaction 2 is upgraded to X although transaction 1 shares X in S, and transaction 1 then writes X under its S lock. */
  lemma EarlyUpgradeQuirk(raw: seq<string>)
    requires ParseSchedule(raw) == Ok([Entry(Read, 1, "X"), Entry(Read, 2, "X"), Entry(Write, 2, "X"), Entry(Write, 1, "X")])
    ensures var o := EarlyTwoPhaseLocking.RunSteps(true, EarlyTwoPhaseLocking.Initial(raw));
            o.failure == None && o.st.queue == []
            && o.st.trace == [LockToken(1, "X", S), OpToken(Read, 1, "X")] + [LockToken(2, "X", S), OpToken(Read, 2, "X")] + [UpgradeToken(2, "X", X), OpToken(Write, 2, "X")] + [OpToken(Write, 1, "X")]
            && o.st.table == Table(map["X" := X], [Grant(1, "X", S), Grant(2, "X", X)])
  {
    EarlyUpgradeQuirkFrom0();
  }

  /** The run of `EarlyUpgradeQuirk` from its initial state. */
  lemma EarlyUpgradeQuirkFrom0()
    ensures EarlyTwoPhaseLocking.RunSteps(true, Replay([Entry(Read, 1, "X"), Entry(Read, 2, "X"), Entry(Write, 2, "X"), Entry(Write, 1, "X")], [], [], Table(map[], [])))
            == Outcome(Replay([], [], [LockToken(1, "X", S), OpToken(Read, 1, "X")] + [LockToken(2, "X", S), OpToken(Read, 2, "X")] + [UpgradeToken(2, "X", X), OpToken(Write, 2, "X")] + [OpToken(Write, 1, "X")], Table(map["X" := X], [Grant(1, "X", S), Grant(2, "X", X)])),
                       None)
  {
    EarlyStepGrant(true,
      Replay([Entry(Read, 1, "X"), Entry(Read, 2, "X"), Entry(Write, 2, "X"), Entry(Write, 1, "X")], [], [], Table(map[], [])),
      Replay([Entry(Read, 2, "X"), Entry(Write, 2, "X"), Entry(Write, 1, "X")], [], [LockToken(1, "X", S), OpToken(Read, 1, "X")], Table(map["X" := S], [Grant(1, "X", S)])));
    EarlyUpgradeQuirkFrom1([LockToken(1, "X", S), OpToken(Read, 1, "X")]);
  }

  /** The rest of `EarlyUpgradeQuirk`, from its state after 1 of its steps. */
  lemma EarlyUpgradeQuirkFrom1(tr: seq<string>)
    ensures EarlyTwoPhaseLocking.RunSteps(true, Replay([Entry(Read, 2, "X"), Entry(Write, 2, "X"), Entry(Write, 1, "X")], [], tr, Table(map["X" := S], [Grant(1, "X", S)])))
            == Outcome(Replay([], [], tr + [LockToken(2, "X", S), OpToken(Read, 2, "X")] + [UpgradeToken(2, "X", X), OpToken(Write, 2, "X")] + [OpToken(Write, 1, "X")], Table(map["X" := X], [Grant(1, "X", S), Grant(2, "X", X)])),
                       None)
  {
    EarlyStepCoHold(true,
      Replay([Entry(Read, 2, "X"), Entry(Write, 2, "X"), Entry(Write, 1, "X")], [], tr, Table(map["X" := S], [Grant(1, "X", S)])),
      Replay([Entry(Write, 2, "X"), Entry(Write, 1, "X")], [], tr + [LockToken(2, "X", S), OpToken(Read, 2, "X")], Table(map["X" := S], [Grant(1, "X", S), Grant(2, "X", S)])));
    EarlyUpgradeQuirkFrom2(tr + [LockToken(2, "X", S), OpToken(Read, 2, "X")]);
  }

  /** The rest of `EarlyUpgradeQuirk`, from its state after 2 of its steps. */
  lemma EarlyUpgradeQuirkFrom2(tr: seq<string>)
    ensures EarlyTwoPhaseLocking.RunSteps(true, Replay([Entry(Write, 2, "X"), Entry(Write, 1, "X")], [], tr, Table(map["X" := S], [Grant(1, "X", S), Grant(2, "X", S)])))
            == Outcome(Replay([], [], tr + [UpgradeToken(2, "X", X), OpToken(Write, 2, "X")] + [OpToken(Write, 1, "X")], Table(map["X" := X], [Grant(1, "X", S), Grant(2, "X", X)])),
                       None)
  {
    EarlyStepUpgrade(true,
      Replay([Entry(Write, 2, "X"), Entry(Write, 1, "X")], [], tr, Table(map["X" := S], [Grant(1, "X", S), Grant(2, "X", S)])),
      Table(map["X" := X], [Grant(1, "X", S), Grant(2, "X", X)]),
      Replay([Entry(Write, 1, "X")], [], tr + [UpgradeToken(2, "X", X), OpToken(Write, 2, "X")], Table(map["X" := X], [Grant(1, "X", S), Grant(2, "X", X)])));
    EarlyUpgradeQuirkFrom3(tr + [UpgradeToken(2, "X", X), OpToken(Write, 2, "X")]);
  }

  /** The rest of `EarlyUpgradeQuirk`, from its state after 3 of its steps. */
  lemma EarlyUpgradeQuirkFrom3(tr: seq<string>)
    ensures EarlyTwoPhaseLocking.RunSteps(true, Replay([Entry(Write, 1, "X")], [], tr, Table(map["X" := X], [Grant(1, "X", S), Grant(2, "X", X)])))
            == Outcome(Replay([], [], tr + [OpToken(Write, 1, "X")], Table(map["X" := X], [Grant(1, "X", S), Grant(2, "X", X)])),
                       None)
  {
    EarlyStepKeep(true,
      Replay([Entry(Write, 1, "X")], [], tr, Table(map["X" := X], [Grant(1, "X", S), Grant(2, "X", X)])),
      Replay([], [], tr + [OpToken(Write, 1, "X")], Table(map["X" := X], [Grant(1, "X", S), Grant(2, "X", X)])));
  }

}
