/**
 * The lock table of the two-phase-locking drivers (`LockManager`).
 *
 * The source keeps one dictionary keyed both by data item (the item's current
 * mode) and by (transaction, item) pairs (the mode granted to that
 * transaction). Here the item keys are a map and the pair keys a sequence of
 * grants in dictionary insertion order, because that order is observable:
 * commit emits its unlock tokens in it and wound-wait walks the holders in it.
 */
module Locks {
  import opened Wrappers

  /** `LockType`: X = 1 (exclusive), S = 2 (shared), compared by value. */
  datatype LockType = X | S {
    function Value(): int {
      match this
      case X => 1
      case S => 2
    }
  }

  /** `LockType.__lt__`: X is the only value below another, and only below S. */
  predicate Less(a: LockType, b: LockType): (r: bool)
    ensures r <==> a == X && b == S
  {
    a.Value() < b.Value()
  }

  /** `LockType.__gt__` is `Less` with the arguments swapped. */
  predicate Greater(a: LockType, b: LockType): (r: bool)
    ensures r <==> Less(b, a)
  {
    a.Value() > b.Value()
  }

  /** `LockType.__eq__` compares values, which is the same as identity of the two modes. */
  lemma ValueEquality(a: LockType, b: LockType)
    ensures a.Value() == b.Value() <==> a == b
  {
  }

  /** A (transaction, item) key of the dictionary and the mode stored under it. */
  datatype Grant = Grant(txn: nat, item: string, mode: LockType)

  /** Dictionary keys are unique: no two grants share a (transaction, item) key. */
  ghost predicate UniqueKeys(gs: seq<Grant>) {
    forall i, j :: 0 <= i < j < |gs| ==> gs[i].txn != gs[j].txn || gs[i].item != gs[j].item
  }

  /** Position of the grant with key (t, d), or -1 when there is none. */
  function KeyIndex(gs: seq<Grant>, t: nat, d: string): (r: int)
    ensures -1 <= r < |gs|
    ensures r >= 0 ==> gs[r].txn == t && gs[r].item == d
    ensures r >= 0 ==> forall j :: 0 <= j < r ==> gs[j].txn != t || gs[j].item != d
    ensures r < 0 <==> forall j :: 0 <= j < |gs| ==> gs[j].txn != t || gs[j].item != d
  {
    if gs == [] then -1
    else if gs[0].txn == t && gs[0].item == d then 0
    else
      var k := KeyIndex(gs[1..], t, d);
      if k < 0 then -1 else k + 1
  }

  lemma KeyIndexAt(gs: seq<Grant>, t: nat, d: string, i: nat)
    requires i < |gs| && gs[i].txn == t && gs[i].item == d
    requires forall j :: 0 <= j < i ==> gs[j].txn != t || gs[j].item != d
    ensures KeyIndex(gs, t, d) == i
  {
  }

  /** The grants that are not of transaction `t`, in their order. */
  function GrantsNotOf(gs: seq<Grant>, t: nat): (r: seq<Grant>)
    ensures forall g :: g in r <==> g in gs && g.txn != t
  {
    if gs == [] then []
    else if gs[0].txn == t then GrantsNotOf(gs[1..], t)
    else [gs[0]] + GrantsNotOf(gs[1..], t)
  }

  /** Order kept: the grants of others in `a + b` are those in `a`, then those in `b`. */
  lemma {:induction false} GrantsNotOfConcat(a: seq<Grant>, b: seq<Grant>, t: nat)
    ensures GrantsNotOf(a + b, t) == GrantsNotOf(a, t) + GrantsNotOf(b, t)
  {
    if a == [] {
      assert a + b == b;
    } else {
      assert (a + b)[1..] == a[1..] + b;
      GrantsNotOfConcat(a[1..], b, t);
    }
  }

  /** Taking out the grants of a transaction that has none keeps them all. */
  lemma {:induction false} GrantsNotOfNone(gs: seq<Grant>, t: nat)
    requires forall g :: g in gs ==> g.txn != t
    ensures GrantsNotOf(gs, t) == gs
  {
    if gs != [] {
      assert gs[0] in gs;
      GrantsNotOfNone(gs[1..], t);
    }
  }

  /** The grants whose key is not (t, d), in their order. */
  function GrantsExcept(gs: seq<Grant>, t: nat, d: string): (r: seq<Grant>)
    ensures forall g :: g in r <==> g in gs && (g.txn != t || g.item != d)
  {
    if gs == [] then []
    else if gs[0].txn == t && gs[0].item == d then GrantsExcept(gs[1..], t, d)
    else [gs[0]] + GrantsExcept(gs[1..], t, d)
  }

  /** `[t[1] for t in locks_table if t[0] == transaction_id]`: the items `t` holds, in table order. */
  function ItemsOf(gs: seq<Grant>, t: nat): (r: seq<string>)
    ensures forall d :: d in r <==> exists g :: g in gs && g.txn == t && g.item == d
  {
    if gs == [] then []
    else if gs[0].txn == t then
      assert gs[0] in gs;
      [gs[0].item] + ItemsOf(gs[1..], t)
    else ItemsOf(gs[1..], t)
  }

  /** Table order: the items held in `a + b` are those held in `a`, then those in `b`. */
  lemma {:induction false} ItemsOfConcat(a: seq<Grant>, b: seq<Grant>, t: nat)
    ensures ItemsOf(a + b, t) == ItemsOf(a, t) + ItemsOf(b, t)
  {
    if a == [] {
      assert a + b == b;
    } else {
      assert (a + b)[1..] == a[1..] + b;
      ItemsOfConcat(a[1..], b, t);
    }
  }

  /** `[t[0] for t in locks_table if t[1] == data_item]`: the holders of `d`, in table order. */
  function HoldersOf(gs: seq<Grant>, d: string): (r: seq<nat>)
    ensures |r| <= |gs|
    ensures forall t :: t in r <==> exists g :: g in gs && g.txn == t && g.item == d
  {
    if gs == [] then []
    else if gs[0].item == d then
      assert gs[0] in gs;
      [gs[0].txn] + HoldersOf(gs[1..], d)
    else HoldersOf(gs[1..], d)
  }

  /** Table order: the holders in `a + b` are those in `a`, then those in `b`. */
  lemma {:induction false} HoldersOfConcat(a: seq<Grant>, b: seq<Grant>, d: string)
    ensures HoldersOf(a + b, d) == HoldersOf(a, d) + HoldersOf(b, d)
  {
    if a == [] {
      assert a + b == b;
    } else {
      assert (a + b)[1..] == a[1..] + b;
      HoldersOfConcat(a[1..], b, d);
    }
  }

  lemma {:induction false} GrantsExceptUnique(gs: seq<Grant>, t: nat, d: string)
    ensures UniqueKeys(gs) ==> UniqueKeys(GrantsExcept(gs, t, d))
  {
    if gs != [] && UniqueKeys(gs) {
      GrantsExceptUnique(gs[1..], t, d);
      var rest := GrantsExcept(gs[1..], t, d);
      assert forall g :: g in rest ==> g in gs[1..];
      forall g | g in rest ensures g.txn != gs[0].txn || g.item != gs[0].item {
        var j :| 0 <= j < |gs[1..]| && gs[1..][j] == g;
        assert gs[j + 1] == g;
      }
    }
  }

  lemma {:induction false} GrantsNotOfUnique(gs: seq<Grant>, t: nat)
    ensures UniqueKeys(gs) ==> UniqueKeys(GrantsNotOf(gs, t))
  {
    if gs != [] && UniqueKeys(gs) {
      GrantsNotOfUnique(gs[1..], t);
      var rest := GrantsNotOf(gs[1..], t);
      forall g | g in rest ensures g.txn != gs[0].txn || g.item != gs[0].item {
        var j :| 0 <= j < |gs[1..]| && gs[1..][j] == g;
        assert gs[j + 1] == g;
      }
    }
  }

  /** The whole dictionary: item keys with their modes, and the grants in insertion order. */
  datatype Table = Table(modes: map<string, LockType>, grants: seq<Grant>) {

    ghost predicate Valid() {
      UniqueKeys(grants)
    }

    /** `is_locked`: the item key is present. */
    predicate IsLocked(d: string) {
      d in modes
    }

    /** `has_lock`: the (t, d) key is present. */
    predicate HasLock(t: nat, d: string): (r: bool)
      ensures r <==> exists g :: g in grants && g.txn == t && g.item == d
    {
      KeyIndex(grants, t, d) >= 0
    }

    /** The mode stored under key (t, d); the source raises KeyError without it. */
    function GrantMode(t: nat, d: string): (m: LockType)
      requires HasLock(t, d)
      ensures Grant(t, d, m) in grants
    {
      grants[KeyIndex(grants, t, d)].mode
    }

    /** `locks_table[data_item] = m; locks_table[(t, data_item)] = m` (`lock_data`, `upgrade_lock`). */
    function Lock(t: nat, d: string, m: LockType): (r: Table)
      ensures r.IsLocked(d) && r.modes[d] == m
      ensures r.HasLock(t, d) && r.GrantMode(t, d) == m
      ensures Valid() ==> r.Valid()
    {
      var k := KeyIndex(grants, t, d);
      var gs := if k >= 0 then grants[k := Grant(t, d, m)] else grants + [Grant(t, d, m)];
      KeyIndexAt(gs, t, d, if k >= 0 then k else |grants|);
      Table(modes[d := m], gs)
    }

    /** `lock_data(t, d, m)` leaves every other item key and every other grant as it was. */
    lemma LockFrame(t: nat, d: string, m: LockType)
      ensures var r := Lock(t, d, m);
              forall e :: e != d ==> (e in r.modes <==> e in modes) && (e in modes ==> r.modes[e] == modes[e])
      ensures var r := Lock(t, d, m);
              forall g :: g in r.grants && (g.txn != t || g.item != d) <==> g in grants && (g.txn != t || g.item != d)
    {
      var k := KeyIndex(grants, t, d);
      var gs := Lock(t, d, m).grants;
      assert gs == if k >= 0 then grants[k := Grant(t, d, m)] else grants + [Grant(t, d, m)];
      forall g | g in gs && (g.txn != t || g.item != d) ensures g in grants {
        var j :| 0 <= j < |gs| && gs[j] == g;
      }
      forall g | g in grants && (g.txn != t || g.item != d) ensures g in gs {
        var j :| 0 <= j < |grants| && grants[j] == g;
        assert gs[j] == g;
      }
    }

    /** Taking a lock never takes one away: every lock held before is held after. */
    lemma LockKeeps(t: nat, d: string, m: LockType, h: nat, e: string)
      ensures HasLock(h, e) ==> Lock(t, d, m).HasLock(h, e)
    {
      if HasLock(h, e) && (h != t || e != d) {
        var g :| g in grants && g.txn == h && g.item == e;
        LockFrame(t, d, m);
        assert g in Lock(t, d, m).grants;
      }
    }

    /**
     * `unlock_data`: a no-op without key (t, d); otherwise deletes that grant
     * AND the item key `d`, even when other transactions still hold `d`.
     */
    function UnlockData(t: nat, d: string): (r: Table)
      ensures !HasLock(t, d) ==> r == this
      ensures HasLock(t, d) ==> !r.IsLocked(d) && !r.HasLock(t, d)
      ensures HasLock(t, d) ==> r.modes == modes - {d}
      ensures forall g :: g in r.grants <==> g in grants && (g.txn != t || g.item != d)
      ensures Valid() ==> r.Valid()
    {
      if HasLock(t, d) then
        GrantsExceptUnique(grants, t, d);
        Table(modes - {d}, GrantsExcept(grants, t, d))
      else this
    }

    /**
     * `unlock`: every grant of `t` is gone and so is the item key of every item
     * `t` held; the other grants are untouched.
     */
    function Unlock(t: nat): (r: Table)
      ensures forall d :: !r.HasLock(t, d)
      ensures forall g :: g in r.grants <==> g in grants && g.txn != t
      ensures forall d :: d in r.modes <==> d in modes && !HasLock(t, d)
      ensures forall d :: d in r.modes ==> r.modes[d] == modes[d]
      ensures Valid() ==> r.Valid()
    {
      GrantsNotOfUnique(grants, t);
      Table(modes - (set g | g in grants && g.txn == t :: g.item), GrantsNotOf(grants, t))
    }

    /** `is_locked_by`: `k[0]` over every key; an item key "" raises IndexError. */
    function IsLockedBy(t: nat): (r: Option<bool>)
      ensures r.None? <==> "" in modes
      ensures r.Some? ==> (r.value <==> exists g :: g in grants && g.txn == t)
    {
      if "" in modes then None
      else
        var items := ItemsOf(grants, t);
        assert items != [] ==> items[0] in items;
        assert (exists g :: g in grants && g.txn == t) ==> items != [] by {
          if g :| g in grants && g.txn == t {
            assert g.item in items;
          }
        }
        Some(items != [])
    }

    /** `get_transaction_ids`: the holders of `d` in table order. */
    function HolderIds(d: string): (r: seq<nat>)
      ensures forall t :: t in r <==> HasLock(t, d)
    {
      HoldersOf(grants, d)
    }

    /** `is_lock_shared`: more than one grant names `d`. */
    predicate IsShared(d: string) {
      |HoldersOf(grants, d)| > 1
    }

    /** `get_lock_table`: the (transaction, item) entries only, as a dictionary. */
    function LockTable(): (r: map<(nat, string), LockType>)
      ensures forall t: nat, d: string :: (t, d) in r <==> HasLock(t, d)
      ensures forall t: nat, d: string :: (t, d) in r ==> HasLock(t, d) && r[(t, d)] == GrantMode(t, d)
    {
      var keys := set g | g in grants :: (g.txn, g.item);
      map k | k in keys :: GrantMode(k.0, k.1)
    }
  }

  lemma {:induction false} HoldersDistinct(gs: seq<Grant>, d: string)
    requires UniqueKeys(gs)
    ensures forall i, j :: 0 <= i < j < |HoldersOf(gs, d)| ==> HoldersOf(gs, d)[i] != HoldersOf(gs, d)[j]
  {
    if gs != [] {
      HoldersDistinct(gs[1..], d);
      if gs[0].item == d {
        var rest := HoldersOf(gs[1..], d);
        forall j | 0 <= j < |rest| ensures rest[j] != gs[0].txn {
          assert rest[j] in rest;
          var g :| g in gs[1..] && g.txn == rest[j] && g.item == d;
          var k :| 0 <= k < |gs[1..]| && gs[1..][k] == g;
          assert gs[k + 1] == g;
        }
      }
    }
  }

  /** With unique keys, `is_lock_shared` holds exactly when two distinct transactions hold `d`. */
  lemma SharedMeansTwoHolders(tb: Table, d: string)
    requires tb.Valid()
    ensures tb.IsShared(d) <==> exists t1, t2 :: t1 != t2 && tb.HasLock(t1, d) && tb.HasLock(t2, d)
  {
    var h := HoldersOf(tb.grants, d);
    HoldersDistinct(tb.grants, d);
    if |h| > 1 {
      assert h[0] in h && h[1] in h;
      assert tb.HasLock(h[0], d) && tb.HasLock(h[1], d);
    } else {
      forall t1: nat, t2: nat | tb.HasLock(t1, d) && tb.HasLock(t2, d) ensures t1 == t2 {
        assert t1 in h && t2 in h;
      }
    }
  }

  /** No two grants name the same item. */
  ghost predicate UniqueItems(gs: seq<Grant>) {
    forall i, j :: 0 <= i < j < |gs| ==> gs[i].item != gs[j].item
  }

  lemma {:induction false} GrantsNotOfUniqueItems(gs: seq<Grant>, t: nat)
    ensures UniqueItems(gs) ==> UniqueItems(GrantsNotOf(gs, t))
  {
    if gs != [] && UniqueItems(gs) {
      GrantsNotOfUniqueItems(gs[1..], t);
      var rest := GrantsNotOf(gs[1..], t);
      forall g | g in rest ensures g.item != gs[0].item {
        var j :| 0 <= j < |gs[1..]| && gs[1..][j] == g;
        assert gs[j + 1] == g;
      }
    }
  }

  /**
   * The table of an exclusive-only run: every grant is X, no item has two
   * holders, and the item keys are exactly the items somebody holds.
   */
  ghost predicate Exclusive(tb: Table) {
    tb.Valid()
    && UniqueItems(tb.grants)
    && (forall g :: g in tb.grants ==> g.mode == X)
    && (forall d :: d in tb.modes ==> tb.modes[d] == X)
    && (forall d :: d in tb.modes <==> exists g :: g in tb.grants && g.item == d)
  }

  /** The empty table of a fresh `LockManager` is exclusive. */
  lemma EmptyExclusive()
    ensures Exclusive(Table(map[], []))
  {
  }

  /** Mutual exclusion: in an exclusive table an item has at most one holder. */
  lemma ExclusiveOneHolder(tb: Table, d: string, t1: nat, t2: nat)
    requires Exclusive(tb)
    requires tb.HasLock(t1, d) && tb.HasLock(t2, d)
    ensures t1 == t2
  {
    var g1 :| g1 in tb.grants && g1.txn == t1 && g1.item == d;
    var g2 :| g2 in tb.grants && g2.txn == t2 && g2.item == d;
    var i :| 0 <= i < |tb.grants| && tb.grants[i] == g1;
    var j :| 0 <= j < |tb.grants| && tb.grants[j] == g2;
  }

  /** Granting X on an item nobody holds keeps the table exclusive. */
  lemma LockFreshKeepsExclusive(tb: Table, t: nat, d: string)
    requires Exclusive(tb) && !tb.IsLocked(d)
    ensures Exclusive(tb.Lock(t, d, X))
  {
    assert KeyIndex(tb.grants, t, d) < 0;
    var r := tb.Lock(t, d, X);
    assert r.grants == tb.grants + [Grant(t, d, X)];
    assert forall g :: g in tb.grants ==> g.item != d;
    tb.LockFrame(t, d, X);
    assert UniqueItems(r.grants);
  }

  /** Releasing all of a transaction's grants keeps the table exclusive. */
  lemma UnlockKeepsExclusive(tb: Table, t: nat)
    requires Exclusive(tb)
    ensures Exclusive(tb.Unlock(t))
  {
    var r := tb.Unlock(t);
    GrantsNotOfUniqueItems(tb.grants, t);
    forall d ensures d in r.modes <==> exists g :: g in r.grants && g.item == d {
      if d in r.modes {
        var g :| g in tb.grants && g.item == d;
        assert g in r.grants;
      }
      if g :| g in r.grants && g.item == d {
        assert d in tb.modes;
        if tb.HasLock(t, d) {
          ExclusiveOneHolder(tb, d, t, g.txn);
        }
      }
    }
  }

  /** Releasing the locks of a transaction that holds none changes nothing. */
  lemma UnlockNothing(tb: Table, t: nat)
    requires forall g :: g in tb.grants ==> g.txn != t
    ensures tb.Unlock(t) == tb
  {
    GrantsNotOfNone(tb.grants, t);
    assert tb.Unlock(t).modes == tb.modes;
  }

  /** `LockManager`: the dictionary as an object that its methods update in place. */
  class LockManager {
    var modes: map<string, LockType>
    var grants: seq<Grant>

    ghost predicate Valid()
      reads this
    {
      UniqueKeys(grants)
    }

    function Snapshot(): Table
      reads this
    {
      Table(modes, grants)
    }

    constructor ()
      ensures Valid() && modes == map[] && grants == []
    {
      modes := map[];
      grants := [];
    }

    method LockData(t: nat, d: string, m: LockType)
      requires Valid()
      modifies this
      ensures Valid() && Snapshot() == old(Snapshot()).Lock(t, d, m)
      ensures IsLocked(d) && HasLock(t, d) && HasLockType(t, d, m) && LockType(d) == m
    {
      var k := KeyIndex(grants, t, d);
      var gs := if k >= 0 then grants[k := Grant(t, d, m)] else grants + [Grant(t, d, m)];
      modes := modes[d := m];
      grants := gs;
    }

    method UpgradeLock(t: nat, d: string, m: LockType)
      requires Valid()
      modifies this
      ensures Valid() && Snapshot() == old(Snapshot()).Lock(t, d, m)
      ensures IsLocked(d) && HasLock(t, d) && HasLockType(t, d, m) && LockType(d) == m
    {
      var k := KeyIndex(grants, t, d);
      var gs := if k >= 0 then grants[k := Grant(t, d, m)] else grants + [Grant(t, d, m)];
      modes := modes[d := m];
      grants := gs;
    }

    method UnlockData(t: nat, d: string)
      requires Valid()
      modifies this
      ensures Valid() && Snapshot() == old(Snapshot()).UnlockData(t, d)
    {
      if KeyIndex(grants, t, d) >= 0 {
        GrantsExceptUnique(grants, t, d);
        grants := GrantsExcept(grants, t, d);
        if d in modes {
          modes := modes - {d};
        }
      }
    }

    /** Releases every grant of `t`, one `UnlockData` per key collected beforehand. */
    method Unlock(t: nat) returns (r: bool)
      requires Valid()
      modifies this
      ensures Valid() && Snapshot() == old(Snapshot()).Unlock(t)
      ensures r
    {
      var keysToRemove := ItemsOf(grants, t);
      ghost var gs0, ms0 := grants, modes;
      ghost var done: set<string> := {};
      ItemsOfDistinct(gs0, t);
      GrantsNotOfInEmpty(gs0, t);
      var i := 0;
      while i < |keysToRemove|
        invariant 0 <= i <= |keysToRemove|
        invariant Valid()
        invariant forall d :: d in done <==> d in keysToRemove[..i]
        invariant grants == GrantsNotOfIn(gs0, t, done)
        invariant modes == ms0 - done
      {
        var d := keysToRemove[i];
        assert keysToRemove[..i + 1] == keysToRemove[..i] + [d];
        assert d !in done;
        assert d in keysToRemove;
        ghost var g :| g in gs0 && g.txn == t && g.item == d;
        UnlockDataStep(Snapshot(), gs0, ms0, t, done, g);
        UnlockData(t, d);
        done := done + {d};
        i := i + 1;
      }
      assert keysToRemove[..i] == keysToRemove;
      UnlockDone(gs0, ms0, t, done);
      r := true;
    }

    predicate IsLocked(d: string)
      reads this
    {
      Snapshot().IsLocked(d)
    }

    function IsLockedBy(t: nat): Option<bool>
      reads this
    {
      Snapshot().IsLockedBy(t)
    }

    predicate HasLock(t: nat, d: string)
      reads this
    {
      Snapshot().HasLock(t, d)
    }

    predicate HasLockType(t: nat, d: string, m: LockType)
      reads this
      requires HasLock(t, d)
    {
      Snapshot().GrantMode(t, d) == m
    }

    /** `lock_type`: the item's current mode; the source raises KeyError without the key. */
    function LockType(d: string): LockType
      reads this
      requires IsLocked(d)
    {
      modes[d]
    }

    predicate IsLockShared(d: string)
      reads this
    {
      Snapshot().IsShared(d)
    }

    function GetTransactionIds(d: string): seq<nat>
      reads this
    {
      Snapshot().HolderIds(d)
    }

    function GetLockTable(): map<(nat, string), LockType>
      reads this
    {
      Snapshot().LockTable()
    }
  }

  /** The grants that survive `unlock_data(t, d)` for every `d` in `done`. */
  function GrantsNotOfIn(gs: seq<Grant>, t: nat, done: set<string>): (r: seq<Grant>)
    ensures forall g :: g in r <==> g in gs && (g.txn != t || g.item !in done)
  {
    if gs == [] then []
    else if gs[0].txn == t && gs[0].item in done then GrantsNotOfIn(gs[1..], t, done)
    else [gs[0]] + GrantsNotOfIn(gs[1..], t, done)
  }

  lemma {:induction false} GrantsNotOfInEmpty(gs: seq<Grant>, t: nat)
    ensures GrantsNotOfIn(gs, t, {}) == gs
  {
    if gs != [] {
      GrantsNotOfInEmpty(gs[1..], t);
    }
  }

  lemma {:induction false} GrantsNotOfInStep(gs: seq<Grant>, t: nat, done: set<string>, d: string)
    ensures GrantsExcept(GrantsNotOfIn(gs, t, done), t, d) == GrantsNotOfIn(gs, t, done + {d})
  {
    if gs != [] {
      GrantsNotOfInStep(gs[1..], t, done, d);
    }
  }

  lemma GrantsNotOfInKeeps(gs: seq<Grant>, t: nat, done: set<string>, g: Grant)
    requires g in gs && g.txn == t && g.item !in done
    ensures g in GrantsNotOfIn(gs, t, done)
  {
  }

  /** One pass of the loop of `unlock`: releasing item `g.item` of `t` moves it into `done`. */
  lemma UnlockDataStep(tb: Table, gs0: seq<Grant>, ms0: map<string, LockType>, t: nat, done: set<string>, g: Grant)
    requires tb.grants == GrantsNotOfIn(gs0, t, done) && tb.modes == ms0 - done
    requires g in gs0 && g.txn == t && g.item !in done
    ensures tb.UnlockData(t, g.item) == Table(ms0 - (done + {g.item}), GrantsNotOfIn(gs0, t, done + {g.item}))
  {
    GrantsNotOfInKeeps(gs0, t, done, g);
    GrantsNotOfInStep(gs0, t, done, g.item);
    var j :| 0 <= j < |tb.grants| && tb.grants[j] == g;
    assert tb.HasLock(t, g.item);
    assert tb.modes - {g.item} == ms0 - (done + {g.item});
  }

  /** Once every item of `t` is done, the table left is `Unlock(t)` of the one we started from. */
  lemma UnlockDone(gs0: seq<Grant>, ms0: map<string, LockType>, t: nat, done: set<string>)
    requires forall d :: d in done <==> d in ItemsOf(gs0, t)
    ensures Table(ms0 - done, GrantsNotOfIn(gs0, t, done)) == Table(ms0, gs0).Unlock(t)
  {
    GrantsNotOfInAll(gs0, t, done);
    assert done == set g | g in gs0 && g.txn == t :: g.item;
  }

  lemma {:induction false} GrantsNotOfInAll(gs: seq<Grant>, t: nat, done: set<string>)
    requires forall g :: g in gs && g.txn == t ==> g.item in done
    ensures GrantsNotOfIn(gs, t, done) == GrantsNotOf(gs, t)
  {
    if gs != [] {
      GrantsNotOfInAll(gs[1..], t, done);
    }
  }

  lemma {:induction false} ItemsOfDistinct(gs: seq<Grant>, t: nat)
    requires UniqueKeys(gs)
    ensures forall i, j :: 0 <= i < j < |ItemsOf(gs, t)| ==> ItemsOf(gs, t)[i] != ItemsOf(gs, t)[j]
  {
    if gs != [] {
      ItemsOfDistinct(gs[1..], t);
      if gs[0].txn == t {
        var rest := ItemsOf(gs[1..], t);
        forall j | 0 <= j < |rest| ensures rest[j] != gs[0].item {
          assert rest[j] in rest;
          var g :| g in gs[1..] && g.txn == t && g.item == rest[j];
          var k :| 0 <= k < |gs[1..]| && gs[1..][k] == g;
          assert gs[k + 1] == g;
        }
      }
    }
  }
}
