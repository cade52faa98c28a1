# Concurrency control and recovery, modelled in Dafny

This project models the schedulers of a small teaching repository on
concurrency control:

- a lock table,
- two replay drivers for two-phase locking (2PL),
- a replay driver for optimistic concurrency control (OCC),
- the transaction object the OCC driver works on,
- the splitter that turns a schedule string into tokens.

## The modules

- `ScheduleText` (`schedule_text.dfy`) is `parse_input`. It splits on `;`, strips whitespace from every piece and drops the empty pieces.
- `TplSchedule` (`tpl_schedule.dfy`) holds what the two 2PL drivers share:
  - `parse_schedule`, which turns tokens such as `R1(X)` into (operation, transaction, item) entries;
  - the trace tokens the drivers write (`R1(X)`, `XL1(X)`, `XU1(X)`, `UL1(X)`, `RB1(X)`, `C1`);
  - the wait-queue helpers;
  - the replay state `Replay`, which holds the remaining schedule, the wait queue, the trace and the lock table.
- `Locks` (`locks.dfy`) is `LockManager` (src/transaction/LockManager.py). The early driver's own copy of the class, src/two_phase_locking/two_phase_locking.py:62-101, is the same code with fewer queries, and the same module models it.
  - Its one dictionary is keyed both by item and by (transaction, item).
  - The model splits it into a map for the item keys and a sequence of grants for the pair keys. The grants stay in dictionary insertion order, because commit writes its `UL` tokens in that order and wound-wait visits the holders in it.
  - The value `Table` is what the spec functions work on. The class `LockManager` updates the same data in place, and each of its methods is proved equal to a `Table` function.
- `TwoPhaseLocking` (`tpl.dfy`) is the full 2PL driver, with the `upgrade` and `rollback` options, wound-wait and partial rollback.
- `EarlyTwoPhaseLocking` (`tpl_early.dfy`) is the earlier 2PL driver:
  - it has no wound-wait;
  - it upgrades without checking for other holders;
  - it flushes the wait queue on every commit that goes through.
- In both driver modules:
  - one step of `run` is a function on `Replay`, and the whole run is `RunSteps`;
  - the class `TwoPhaseLocking` is the driver object, whose methods update its fields and its lock manager;
  - every method, `Run` prominent among them, is proved to do what the spec function says.
- `Transactions` (`transaction.dfy`) is `Transaction`: its cursor, start timestamp and values.
- `OptimisticConcurrencyControl` (`occ.dfy`) contains:
  - `OCCTransaction`, with its read-set, write-set and end timestamp, and `validation_test`;
  - `get_transaction`;
  - `OCC.run`. One loop iteration is the function `Tick` on the loop variables and the views of the transactions, and the class `OCC` runs the loop over the transaction objects.

  Both copies of the OCC scheduler are modelled by this one module. A one-item Read or Write query of the first copy is a query over a one-element list of item names in the second.
- `Samples` (`samples.dfy`) contains:
  - the parse asserted by the unit test;
  - the end-to-end runs of the sample schedules of both 2PL drivers;
  - two runs that make the source's behaviour under `upgrade` visible (see below).

## Behaviour of the code that the model keeps

- `unlock_data(t, d)` deletes the item key `d` even when another transaction still holds `d` in S.
  - An item can then be granted X to a new transaction while an S grant on it is still recorded.
  - `Samples.FullUpgradeQuirk` shows this with the full driver, upgrade on.
  - With upgrade off every lock is X, and the model proves mutual exclusion for both drivers (`RunExclusiveWithoutUpgrade`).
- The early driver upgrades a holder whose mode differs whenever the item's mode is greater than the request. It does not ask whether the item is shared.
  - A holder of S whose X request is not an upgrade still writes.
  - `Samples.EarlyUpgradeQuirk` ends with transaction 2 holding X beside transaction 1's S, and with transaction 1 writing under S.
- `is_locked_by` takes `k[0]` of every key, item keys included.
  - An item key `""` makes it raise IndexError. Such a key comes from a Read or Write token without an item, such as `R1`.
  - The model reports this as the `CommitIndexError` failure of the commit step.
- The early driver flushes the wait queue back to the schedule after every commit that goes through, including one by a transaction that held no lock.
  - The full driver flushes only when the committing transaction held a lock.
  - A rollback flushes nothing.
- In the full driver, a transaction that holds X on an item whose item key is X and asks for S falls through to wound-wait, or to the queue. It does not simply read: `has_lock_type` fails and X is not greater than S. The model follows the code here.
  - After `unlock_data` has deleted the item key (the quirk above), the same request finds the item unlocked. The holder is granted S afresh with an `SL` token, and its X grant becomes S (`Samples.FullRegrantQuirk`).
  - When a fresh S grant to another transaction has since set the item key to S, the holder of X is regranted S with an `SL` token through the co-hold arm (`TwoPhaseLocking.ReadWriteRegrantsShared`).
- The condition that sends a rollback's tokens out of the trace is Python's substring test `str(id) in token`. The model keeps it as `Contains`.

## Model

| member | source | states |
|---|---|---|
| ScheduleText.TrimLeft | src/util/Util.py:4 | the leading-whitespace part of `strip`: the result is the suffix of the input after a whitespace prefix and does not start with whitespace |
| ScheduleText.TrimRight | src/util/Util.py:4 | the trailing-whitespace part of `strip`: the result is the prefix of the input before a whitespace suffix and does not end with whitespace |
| ScheduleText.LeadingSpace | src/util/Util.py:4 | the length of the leading whitespace of `s`: every character before it is whitespace, and the one at it, if any, is not |
| ScheduleText.TrimLeftSuffix | src/util/Util.py:4 | the left half of `strip` drops exactly the leading whitespace: it is `s[LeadingSpace(s):]` |
| ScheduleText.Strip | src/util/Util.py:4 | `s.strip()` is no longer than `s`, keeps only characters of `s`, and neither starts nor ends with whitespace; `StripIsSlice` states which slice of `s` it is |
| ScheduleText.StripFixed | src/util/Util.py:4 | a string without whitespace at either end is its own strip |
| ScheduleText.StripIsSlice | src/util/Util.py:4 | `s.strip()` is exactly the slice of `s` that starts where the leading whitespace ends, and every character of `s` after that slice is whitespace |
| ScheduleText.Split | src/util/Util.py:3 | `split(";")` gives one more piece than there are `;`, no piece holds a `;`, and joining the pieces with `;` gives the input back |
| ScheduleText.SplitConcat | src/util/Util.py:3 | splitting `a;b` gives the pieces of `a` followed by those of `b` |
| ScheduleText.StripAll | src/util/Util.py:4 | one stripped piece per piece, position by position |
| ScheduleText.StripAllConcat | src/util/Util.py:4 | stripping a concatenation of piece lists strips each list in turn |
| ScheduleText.NonEmpty | src/util/Util.py:5 | the kept pieces are non-empty pieces of the input, no more numerous, and every non-empty piece of the input is kept |
| ScheduleText.NonEmptyKeeps | src/util/Util.py:5 | the filter keeps every non-empty piece exactly as often as it occurs in the input |
| ScheduleText.NonEmptyConcat | src/util/Util.py:5 | the filter keeps order: filtering `a + b` filters `a`, then `b` |
| ScheduleText.ParseInput | src/util/Util.py:2-6 | `parse_input` yields at most (number of `;`) + 1 tokens; every token is non-empty, is its own strip and holds no `;` |
| ScheduleText.ParseInputConcat | src/util/Util.py:2-6 | order is kept: the tokens of `a;b` are the tokens of `a` followed by those of `b` |
| ScheduleText.ParseClean | src/util/Util.py:2-6 | a clean token, one that is non-empty, is its own strip and holds no `;`, parses to itself alone |
| ScheduleText.ParsePiece | src/util/Util.py:2-6 | a piece without `;` whose strip is non-empty parses to exactly its strip |
| ScheduleText.ParseJoinedPieces | src/util/Util.py:2-6 | pieces joined with `;`, none of which strips to nothing, parse back to their strips, one token per piece and in order |
| ScheduleText.ParseJoinedClean | src/util/Util.py:2-6 | round trip: clean tokens joined with `;` parse back to the same tokens |
| ScheduleText.ParseInputIdempotent | src/util/Util.py:2-6 | idempotence: `parse_input(";".join(parse_input(s))) == parse_input(s)` |
| TplSchedule.OpOf | src/concurrency_control/TwoPhaseLocking.py:54-62 | `s[0].upper()` names READ exactly for R or r, WRITE exactly for W or w, COMMIT exactly for C or c |
| TplSchedule.ItemOf | src/concurrency_control/TwoPhaseLocking.py:64 | `s[3:-1]` is the slice between index 3 and the last character, and "" for tokens shorter than five, so `C1` has item "" |
| TplSchedule.ParseToken | src/concurrency_control/TwoPhaseLocking.py:53-65 | a token parses exactly when its first character is an operation and its second a digit. The entry is then (operation, digit value, `s[3:-1]`) with an id below 10. Otherwise it is "Invalid operation" for a bad first character, ValueError for a non-digit second character, or IndexError for a token that is too short |
| TplSchedule.ParseSchedule | src/concurrency_control/TwoPhaseLocking.py:48-66 | `parse_schedule` succeeds exactly when every token parses, and then gives one entry per token in the same order; the early driver's copy (src/two_phase_locking/two_phase_locking.py:42-60) is the same code |
| TplSchedule.ParseScheduleFirstError | src/concurrency_control/TwoPhaseLocking.py:53-62 | a failing parse raises the error of the first token that does not parse, after every earlier token parsed |
| TplSchedule.IdString | src/concurrency_control/TwoPhaseLocking.py:142 | `str(id)` is a non-empty string of digits, a single digit for ids below 10 |
| TplSchedule.IdStringValue | src/concurrency_control/TwoPhaseLocking.py:142 | the decimal value of `str(id)` is the id |
| TplSchedule.RequestedMode | src/concurrency_control/TwoPhaseLocking.py:320 | the requested mode is S exactly for a Read with upgrade on, X otherwise; the early driver (src/two_phase_locking/two_phase_locking.py:173) uses the same rule |
| TplSchedule.RollbackIsNotOp | src/concurrency_control/TwoPhaseLocking.py:163-165 | an `RB` token is never an operation token, since its second character is not a digit |
| TplSchedule.UnlockTokens | src/concurrency_control/TwoPhaseLocking.py:300-301 | one `UL<t>(<d>)` token per held item, in the given order |
| TplSchedule.ParseOpToken | src/concurrency_control/TwoPhaseLocking.py:141-147 | round trip: for an id below 10, the token `add_result` writes parses back to its entry, a commit with item "" included |
| TplSchedule.ScheduleTokens | src/concurrency_control/TwoPhaseLocking.py:141-147 | the `add_result` tokens of a list of entries, one per entry and in order |
| TplSchedule.ParseScheduleTokens | src/concurrency_control/TwoPhaseLocking.py:48-66 | round trip of a schedule: entries with ids below 10, written as tokens, parse back to the same entries |
| TplSchedule.Contains | src/concurrency_control/TwoPhaseLocking.py:199-204 | `sub in s` on strings holds exactly when `sub` occurs in `s` at some position |
| TplSchedule.Mentioning | src/concurrency_control/TwoPhaseLocking.py:199-200 | the tokens containing a key: exactly those of the input that contain it, no more of them than the input has |
| TplSchedule.MentioningConcat | src/concurrency_control/TwoPhaseLocking.py:199-200 | the comprehension keeps order: the tokens of `a + b` containing the key are those of `a`, then those of `b` |
| TplSchedule.FilterOut | src/concurrency_control/TwoPhaseLocking.py:224-225 | `[t for t in s if t not in bad]` holds exactly the elements of `s` that are not in `bad` |
| TplSchedule.FilterOutConcat | src/concurrency_control/TwoPhaseLocking.py:224-225 | the comprehension keeps order: filtering `a + b` filters `a`, then `b` |
| TplSchedule.PySuffix | src/concurrency_control/TwoPhaseLocking.py:208 | `s[i:]` for a found index, with -1 selecting the last element, is a suffix of `s` |
| TplSchedule.PySuffixSlice | src/concurrency_control/TwoPhaseLocking.py:208 | for an index `i >= 0`, `s[i:]` is the suffix of `s` from `i`; for -1 it is the last element alone, or empty for an empty list |
| TplSchedule.IsWaiting | src/concurrency_control/TwoPhaseLocking.py:135-136 | `is_waiting(t)` holds exactly when some queued entry is of `t` |
| TplSchedule.RemoveQueue | src/concurrency_control/TwoPhaseLocking.py:138-139 | `remove_queue(t)` keeps exactly the entries of other transactions, after which `t` is not waiting |
| TplSchedule.RemoveQueueConcat | src/concurrency_control/TwoPhaseLocking.py:138-139 | `remove_queue` keeps the order of the other entries: on `a + b` it is `a`, then `b`, each filtered |
| TplSchedule.Flush | src/concurrency_control/TwoPhaseLocking.py:167-176 | `queue_to_schedule` puts the queue, in FIFO order, before the remaining schedule and empties it; the trace and the lock table stay |
| TplSchedule.FlushCommitCount | src/concurrency_control/TwoPhaseLocking.py:167-176 | a flush loses no commit entry: those of schedule and queue together keep their number |
| Locks.Less | src/transaction/LockManager.py:7-8 | `X < S` and no other pair is ordered by `__lt__` |
| Locks.Greater | src/transaction/LockManager.py:10-11 | `__gt__` is `__lt__` with the arguments swapped |
| Locks.ValueEquality | src/transaction/LockManager.py:13-14 | equal values mean the same mode, and back |
| Locks.HoldersOf | src/transaction/LockManager.py:61-63 | the holders of an item, read off the pair keys, exactly the transactions with a grant on it |
| Locks.HoldersOfConcat | src/transaction/LockManager.py:61-63 | the holders are listed in dictionary order: those of `a + b` are those of `a`, then those of `b` |
| Locks.ItemsOf | src/concurrency_control/TwoPhaseLocking.py:300 | the items a transaction holds, exactly those of its grants |
| Locks.ItemsOfConcat | src/concurrency_control/TwoPhaseLocking.py:300 | the items are listed in dictionary order: those of `a + b` are those of `a`, then those of `b` |
| Locks.GrantsNotOfConcat | src/transaction/LockManager.py:24-30 | the grants left after unlocking keep their dictionary order: on `a + b` they are those of `a`, then those of `b` |
| Locks.Table.HasLock | src/transaction/LockManager.py:44-45 | `has_lock(t, d)` holds exactly when the (t, d) key is present |
| Locks.Table.GrantMode | src/transaction/LockManager.py:47-48 | the mode stored under a present (t, d) key, which `has_lock_type` compares |
| Locks.Table.Lock | src/transaction/LockManager.py:20-22 | after `lock_data(t, d, m)` the item is locked in mode `m`, `t` holds it in mode `m`, and a table with unique keys keeps them unique |
| Locks.Table.LockFrame | src/transaction/LockManager.py:20-22 | `lock_data` changes no other item key and no other grant |
| Locks.Table.LockKeeps | src/transaction/LockManager.py:20-22 | `lock_data` takes no lock away: every lock held before is held after |
| Locks.Table.UnlockData | src/transaction/LockManager.py:32-36 | `unlock_data(t, d)` is a no-op without the (t, d) key. Otherwise it removes that grant and the item key `d`, even with other holders left, and keeps every other grant |
| Locks.Table.Unlock | src/transaction/LockManager.py:24-30 | after `unlock(t)` no grant of `t` remains, every other grant is untouched, and the item keys of `t`'s items are gone while the rest keep their modes |
| Locks.Table.IsLockedBy | src/transaction/LockManager.py:41-42 | `is_locked_by(t)` raises exactly when an item key is ""; otherwise it holds exactly when `t` has some grant |
| Locks.Table.HolderIds | src/transaction/LockManager.py:61-63 | `get_transaction_ids(d)` lists exactly the transactions holding `d` |
| Locks.Table.LockTable | src/transaction/LockManager.py:65-67 | `get_lock_table` holds exactly the (transaction, item) entries with their modes |
| Locks.SharedMeansTwoHolders | src/transaction/LockManager.py:57-59 | with unique keys, `is_lock_shared(d)` holds exactly when two distinct transactions hold `d` |
| Locks.EmptyExclusive | src/transaction/LockManager.py:16-18 | a fresh lock table is exclusive-only, with no X lock held twice |
| Locks.ExclusiveOneHolder | src/transaction/LockManager.py:20-36 | mutual exclusion: in an exclusive-only table an item has at most one holder |
| Locks.LockFreshKeepsExclusive | src/transaction/LockManager.py:20-22 | granting X on an unlocked item keeps the table exclusive-only |
| Locks.UnlockKeepsExclusive | src/transaction/LockManager.py:24-36 | releasing all of a transaction's grants keeps the table exclusive-only |
| Locks.UnlockNothing | src/transaction/LockManager.py:24-30 | `unlock` of a transaction without grants changes nothing |
| Locks.LockManager.constructor | src/transaction/LockManager.py:16-18 | a new lock manager has an empty dictionary |
| Locks.LockManager.LockData | src/transaction/LockManager.py:20-22 | the dictionary becomes `Table.Lock` of the old one, after which `is_locked`, `has_lock`, `has_lock_type(m)` and `lock_type == m` hold |
| Locks.LockManager.UpgradeLock | src/transaction/LockManager.py:53-55 | `upgrade_lock` has exactly the effect of `lock_data` |
| Locks.LockManager.UnlockData | src/transaction/LockManager.py:32-36 | the dictionary becomes `Table.UnlockData` of the old one |
| Locks.LockManager.Unlock | src/transaction/LockManager.py:24-30 | the loop over the collected keys leaves `Table.Unlock` of the old dictionary, and the method returns True |
| Transactions.Transaction.constructor | src/transaction/Transaction.py:7-11 | a new transaction has the given timestamp and queries, cursor 0 and no values |
| Transactions.Transaction.Length | src/transaction/Transaction.py:13-15 | `length` is the number of queries |
| Transactions.Transaction.CurrentQuery | src/transaction/Transaction.py:17-19 | `current_query` exists exactly while the cursor is below the length, and is the query under the cursor |
| Transactions.Transaction.IsFinished | src/transaction/Transaction.py:21-22 | `is_finished` holds exactly when the cursor equals the length, and then there is no current query |
| Transactions.Transaction.NextQuery | src/transaction/Transaction.py:24-25 | the cursor moves by exactly one; timestamp and values stay |
| Transactions.Transaction.Rollback | src/transaction/Transaction.py:27-30 | `rollback(n)` sets the timestamp to `n`, the cursor to 0 and empties the values; the queries stay |
| OptimisticConcurrencyControl.NewView | src/concurrency_control/OCC.py:28-36 | a new `OCCTransaction` is at its first query, has end timestamp `sys.maxsize` and empty read and write sets |
| OptimisticConcurrencyControl.OccTransaction.constructor | src/conccurency_control/OCC.py:29-37 | the object's state is `NewView` of the arguments, its base `Transaction` fresh and without values |
| OptimisticConcurrencyControl.ValidationSelf | src/concurrency_control/OCC.py:39-40 | a transaction always passes `validation_test` against itself |
| OptimisticConcurrencyControl.ValidationOverlap | src/concurrency_control/OCC.py:38-45 | against a transaction whose lifetime overlaps its start, the test passes exactly when validation is at or after the other's end and the read-set misses the other's write-set; the multi-item copy (src/conccurency_control/OCC.py:39-46) has the same rule |
| OptimisticConcurrencyControl.ValidationFailsAgainstUncommitted | src/concurrency_control/OCC.py:38-45 | against an earlier transaction that has not committed, with end `sys.maxsize`, every validation before `sys.maxsize` fails |
| OptimisticConcurrencyControl.NameSet | src/conccurency_control/OCC.py:51-57 | the names the loop adds one by one form the set of the query's names |
| OptimisticConcurrencyControl.NextQueryView | src/conccurency_control/OCC.py:48-66 | `next_query` adds a Write query's names to the write-set and a Read query's to the read-set, changes neither set for Display or Function, and moves the cursor by exactly one; the one-item copy (src/concurrency_control/OCC.py:47-59) is this with one-element name lists |
| OptimisticConcurrencyControl.RollbackView | src/concurrency_control/OCC.py:61-65 | `rollback(n)` empties both sets, sets the timestamp to `n` and the cursor to 0, and keeps the queries and the end timestamp |
| OptimisticConcurrencyControl.OccTransaction.NextQuery | src/conccurency_control/OCC.py:48-66 | the object's state becomes `NextQueryView` of the old one; with the cursor past the end `current_query` raises and nothing changes |
| OptimisticConcurrencyControl.OccTransaction.Rollback | src/conccurency_control/OCC.py:68-72 | the object's state becomes `RollbackView` of the old one and its values are emptied |
| OptimisticConcurrencyControl.FindTransaction | src/conccurency_control/ConccurencyControl.py:9-10 | `get_transaction(ts)` returns a slot whose start timestamp is `ts` |
| OptimisticConcurrencyControl.FindTransactionFirst | src/conccurency_control/ConcurrencyControl.py:22-23 | the slot found is the first match in list order, and there is none exactly when no transaction has timestamp `ts` (the generator raises) |
| OptimisticConcurrencyControl.FindTransactionUpdate | src/concurrency_control/OCC.py:96-98 | changing a transaction while keeping its start timestamp, as `next_query` does, keeps every lookup |
| OptimisticConcurrencyControl.ValidateAll | src/concurrency_control/OCC.py:102-105 | the `all(...)` fails at an active timestamp whose transaction fails the test, or at one that names no transaction |
| OptimisticConcurrencyControl.ValidateAllPasses | src/concurrency_control/OCC.py:102-105 | the `all(...)` holds exactly when the transaction passes against the transaction of every active timestamp |
| OptimisticConcurrencyControl.Without | src/concurrency_control/OCC.py:112-113 | `[ts for ts in s if ts != x]` holds exactly the elements other than `x` |
| OptimisticConcurrencyControl.WithoutConcat | src/concurrency_control/OCC.py:112-113 | the comprehension keeps order: on `a + b` it filters `a`, then `b` |
| OptimisticConcurrencyControl.Repeat | src/concurrency_control/OCC.py:120-122 | `length` copies of the new timestamp |
| OptimisticConcurrencyControl.Restart | src/concurrency_control/OCC.py:111-122 | the failure branch drops every remaining tick and the active entry of the old timestamp. It rolls the transaction back under `current + counter + len(remaining)`, appends one tick of that timestamp per query, and advances the counter by one; the multi-item copy (src/conccurency_control/OCC.py:122-132) does the same |
| OptimisticConcurrencyControl.Activate | src/concurrency_control/OCC.py:92-93 | the popped timestamp is active afterwards, every active timestamp stays, and nothing else is added |
| OptimisticConcurrencyControl.Tick | src/concurrency_control/OCC.py:89-124 | an iteration that does not raise advances the counter by exactly one and keeps the number of transactions; `TickNext`, `TickMissing`, `TickPastEnd`, `TickCommit` and `TickRollback` give its result in each case |
| OptimisticConcurrencyControl.TickNext | src/concurrency_control/OCC.py:89-98 | an ordinary iteration, one that is not the transaction's last query, pops the timestamp, activates it, runs the query and adds one to the counter, with nothing else changed |
| OptimisticConcurrencyControl.TickMissing | src/concurrency_control/OCC.py:89-96 | when no transaction has the popped timestamp, `get_transaction` raises `NoSuchTransaction` for it, after the pop and the activation |
| OptimisticConcurrencyControl.TickPastEnd | src/concurrency_control/OCC.py:96-98 | a transaction whose cursor is already past its last query raises `QueryIndexOutOfRange` from `current_query`, after the pop and the activation |
| OptimisticConcurrencyControl.Advance | src/concurrency_control/OCC.py:96-124 | the iteration after the lookup raises `QueryIndexOutOfRange` exactly when the cursor is past the last query. Any other error is a `NoSuchTransaction` of an active timestamp, raised by the validation's lookup, and only at the last query. Without error the counter rises by one and the transactions stay as many |
| OptimisticConcurrencyControl.Finish | src/concurrency_control/OCC.py:100-122 | the end of a transaction raises only `NoSuchTransaction`, for an active timestamp that names no transaction, and otherwise advances the counter by one |
| OptimisticConcurrencyControl.FinishMissing | src/concurrency_control/OCC.py:102-105 | an active timestamp naming no transaction makes the validation raise, with nothing changed |
| OptimisticConcurrencyControl.FinishValid | src/concurrency_control/OCC.py:107-109 | a passed validation commits the transaction with end timestamp `current + counter`, changes no other transaction and advances the counter by one |
| OptimisticConcurrencyControl.FinishInvalid | src/concurrency_control/OCC.py:111-122 | a failed validation takes the failure branch |
| OptimisticConcurrencyControl.TickCommit | src/concurrency_control/OCC.py:100-109 | a transaction that runs its last query and validates commits with end timestamp `current + counter`, the same value it was validated at; the multi-item copy (src/conccurency_control/OCC.py:108-120) sets the same end timestamp |
| OptimisticConcurrencyControl.TickFinishes | src/concurrency_control/OCC.py:98-100 | after the last query the transaction is finished and goes to validation |
| OptimisticConcurrencyControl.InvalidIsOther | src/concurrency_control/OCC.py:102-105 | the transaction's own active timestamp never fails its validation, so the failing one is another active timestamp |
| OptimisticConcurrencyControl.FinishInvalidActive | src/concurrency_control/OCC.py:111-116 | after a failed validation another timestamp is still active, so `active_timestamp[-1]` exists |
| OptimisticConcurrencyControl.TickRollback | src/concurrency_control/OCC.py:111-122 | a transaction that runs its last query and fails validation takes the failure branch, with the active list non-empty |
| OptimisticConcurrencyControl.RunTicks | src/concurrency_control/OCC.py:83-124 | a run without error ends with the schedule empty, the counter not below its start and the same number of transactions |
| OptimisticConcurrencyControl.OCC.constructor | src/conccurency_control/ConcurrencyControl.py:18-20 | the transactions and the schedule are stored as given; the unused duplicate (src/conccurency_control/ConccurencyControl.py:5-7) does the same |
| OptimisticConcurrencyControl.OCC.GetTransaction | src/conccurency_control/ConcurrencyControl.py:22-23 | the object found is the first in list order with current start timestamp `ts`, and there is none exactly when no transaction has it |
| OptimisticConcurrencyControl.OCC.ValidateActive | src/concurrency_control/OCC.py:102-105 | the loop over the active timestamps computes `ValidateAll` |
| OptimisticConcurrencyControl.OCC.RunTick | src/concurrency_control/OCC.py:89-124 | one iteration over the transaction objects has the effect `Tick` describes |
| OptimisticConcurrencyControl.OCC.AdvanceTick | src/concurrency_control/OCC.py:98-122 | the iteration after the lookup has the effect `Advance` describes |
| OptimisticConcurrencyControl.OCC.FinishTick | src/concurrency_control/OCC.py:100-122 | validation and then commit or failure branch have the effect `Finish` describes |
| OptimisticConcurrencyControl.OCC.CommitFinish | src/concurrency_control/OCC.py:107-109 | when validation passes, the commit branch leaves the state `Finish` describes: end timestamp set, the counter advanced by one, no error |
| OptimisticConcurrencyControl.OCC.RestartFinish | src/concurrency_control/OCC.py:111-122 | when validation fails, the failure branch leaves the state `Finish` describes: the transaction restarted and rescheduled, no error |
| OptimisticConcurrencyControl.OCC.CommitTick | src/concurrency_control/OCC.py:107-109 | commit sets that transaction's end timestamp and changes nothing else the scheduler sees |
| OptimisticConcurrencyControl.OCC.RestartTick | src/concurrency_control/OCC.py:111-122 | the failure branch has the effect `Restart` describes |
| OptimisticConcurrencyControl.OCC.Run | src/concurrency_control/OCC.py:83-124 | `run` leaves the transactions as `RunTicks` from the schedule, nothing active and counter 0 says, and raises where it raises; the multi-item copy (src/conccurency_control/OCC.py:90-134) is the same loop |
| TwoPhaseLocking.Min | src/concurrency_control/TwoPhaseLocking.py:238 | `min` is an element no larger than any other |
| TwoPhaseLocking.Above | src/concurrency_control/TwoPhaseLocking.py:239 | the younger transactions are exactly the listed ids above the oldest |
| TwoPhaseLocking.AboveConcat | src/concurrency_control/TwoPhaseLocking.py:239 | the comprehension keeps order: on `a + b` it filters `a`, then `b` |
| TwoPhaseLocking.LockIndex | src/concurrency_control/TwoPhaseLocking.py:202-206 | the first trace token mentioning `XL<x>(<d>)` or `SL<x>(<d>)`, or -1 when none does |
| TwoPhaseLocking.FindLock | src/concurrency_control/TwoPhaseLocking.py:202-206 | the first search loop of `rollback_transaction` computes `LockIndex` |
| TwoPhaseLocking.MemberIndex | src/concurrency_control/TwoPhaseLocking.py:210-214 | the first raw token that is among the removed trace tokens, or -1 |
| TwoPhaseLocking.FindMember | src/concurrency_control/TwoPhaseLocking.py:210-214 | the second search loop computes `MemberIndex` |
| TwoPhaseLocking.ParsesWithin | src/concurrency_control/TwoPhaseLocking.py:216-217 | re-parsing raw tokens of a schedule that parsed cannot fail |
| TwoPhaseLocking.RemovedTokens | src/concurrency_control/TwoPhaseLocking.py:200-208 | the tokens a rollback removes are trace tokens that mention the victim's id |
| TwoPhaseLocking.Rollback | src/concurrency_control/TwoPhaseLocking.py:197-232 | `rollback_transaction(x, d)` filters the removed tokens out of the trace and appends `RB<x>(<d>)`. It releases all of x's grants, removes only schedule entries, and leaves the queue alone; every token that leaves the trace mentions x's id |
| TwoPhaseLocking.RollbackTraceEnd | src/concurrency_control/TwoPhaseLocking.py:229 | a rollback's trace ends with its `RB` token |
| TwoPhaseLocking.RollbackAll | src/concurrency_control/TwoPhaseLocking.py:248-250 | rolling back the victims releases exactly their grants, keeps the queue and adds no schedule entry |
| TwoPhaseLocking.RollbackAllStep | src/concurrency_control/TwoPhaseLocking.py:248-250 | the victims are rolled back in list order, the first before the rest |
| TwoPhaseLocking.RollbackAllTrace | src/concurrency_control/TwoPhaseLocking.py:248-250 | no victims change nothing; otherwise the trace ends with the `RB` token of the last victim |
| TwoPhaseLocking.RollbackAllKeepsExclusive | src/concurrency_control/TwoPhaseLocking.py:248-250 | rolling back victims keeps an exclusive-only table exclusive-only |
| TwoPhaseLocking.WoundWaitStep | src/concurrency_control/TwoPhaseLocking.py:236-252 | when some holder is older than `t`, a WRITE of `t` is queued and nothing else changes. Otherwise exactly the younger holders lose their grants, the queue stays, and the WRITE of `t` goes to the schedule front |
| TwoPhaseLocking.WoundWaitQueues | src/concurrency_control/TwoPhaseLocking.py:236-246 | when a holder is older than `t`, wound-wait queues a WRITE of `t` and changes nothing else |
| TwoPhaseLocking.WoundWaitRollsBack | src/concurrency_control/TwoPhaseLocking.py:236-252 | otherwise it rolls back the younger holders in table order and puts the WRITE of `t` at the schedule front |
| TwoPhaseLocking.WoundWaitTrace | src/concurrency_control/TwoPhaseLocking.py:236-252 | wound-wait keeps the trace or ends it with a victim's `RB` token |
| TwoPhaseLocking.WoundWaitWritesNoOp | src/concurrency_control/TwoPhaseLocking.py:243-252 | wound-wait never writes the requester's operation token |
| TwoPhaseLocking.WoundWaitKeepsExclusive | src/concurrency_control/TwoPhaseLocking.py:236-252 | wound-wait keeps an exclusive-only table exclusive-only |
| TwoPhaseLocking.ReadWriteStep | src/concurrency_control/TwoPhaseLocking.py:255-290 | `process_read_write` changes the remaining schedule only through wound-wait, so never with rollback off. It either queues the request (the operation itself, or the WRITE of wound-wait), leaving schedule, trace and table alone, or it leaves the queue alone. `ReadWriteStepBranches` states each arm |
| TwoPhaseLocking.ReadWriteStepBranches | src/concurrency_control/TwoPhaseLocking.py:255-290 | `process_read_write` branches. A waiting transaction's request is queued. An unlocked item is granted with a lock token and the op token. A same-mode holder writes just the op token. With upgrade, an unshared holder of a greater mode is upgraded (upgrade token, then op token) and an S request on an S item, by any transaction not already holding S on it, co-holds (lock token, then op token). Every remaining case, the negation of all these guards, goes to wound-wait with rollback, or to the queue without |
| TwoPhaseLocking.ReadWriteRegrantsShared | src/concurrency_control/TwoPhaseLocking.py:275-279 | with upgrade, a holder of X that reads an item whose item key is S is granted S beside the others, with an `SL` token and then the `R` token |
| TwoPhaseLocking.ReadWriteLockBeforeAccess | src/concurrency_control/TwoPhaseLocking.py:263-290 | whenever the operation token is written, the transaction holds a lock on the item, an X lock for a write |
| TwoPhaseLocking.ReadWriteKeepsLocks | src/concurrency_control/TwoPhaseLocking.py:255-290 | without rollback a read or write takes no lock away: locks are released only by commit |
| TwoPhaseLocking.ReadWriteTable | src/concurrency_control/TwoPhaseLocking.py:255-290 | without rollback a read or write leaves the lock table alone or takes exactly the lock it asks for |
| TwoPhaseLocking.ProcessReadWriteKeepsExclusive | src/concurrency_control/TwoPhaseLocking.py:255-290 | without upgrade every request is for X, and processing it keeps an exclusive-only table exclusive-only |
| TwoPhaseLocking.CommitStep | src/concurrency_control/TwoPhaseLocking.py:293-303 | a waiting transaction's commit is queued. Otherwise `C<t>` is written, and `is_locked_by` then raises exactly on an item key "". When `t` holds locks, one `UL` per grant in table order follows, its grants are released and the queue is flushed; without locks only `C<t>` is written |
| TwoPhaseLocking.CommitReleases | src/concurrency_control/TwoPhaseLocking.py:298-302 | a commit that goes through releases every lock of the committing transaction and no other |
| TwoPhaseLocking.Step | src/concurrency_control/TwoPhaseLocking.py:310-327 | one iteration fails only at a commit, and without upgrade keeps the table exclusive-only |
| TwoPhaseLocking.StepMeasure | src/concurrency_control/TwoPhaseLocking.py:310-327 | without rollback every iteration consumes a commit or keeps the commits and shortens the schedule, so `run` ends |
| TwoPhaseLocking.RunSteps | src/concurrency_control/TwoPhaseLocking.py:306-336 | `run` ends with schedule and queue empty, or raises "Deadlock detected" exactly with the schedule empty and the queue not. Running out of fuel is possible only with rollback |
| TwoPhaseLocking.RunKeepsExclusive | src/concurrency_control/TwoPhaseLocking.py:306-336 | without upgrade a run from an exclusive-only table ends with one |
| TwoPhaseLocking.RunExclusiveWithoutUpgrade | src/concurrency_control/TwoPhaseLocking.py:306-336 | mutual exclusion without upgrade: from a fresh lock manager, no item ends up held by two transactions, with or without rollback |
| TwoPhaseLocking.TwoPhaseLocking.constructor | src/concurrency_control/TwoPhaseLocking.py:121-130 | the driver starts with the parsed schedule, an empty queue and trace, the given lock manager, and both options off |
| TwoPhaseLocking.TwoPhaseLocking.AddQueue | src/concurrency_control/TwoPhaseLocking.py:132-133 | the entry is appended to the queue and nothing else changes |
| TwoPhaseLocking.TwoPhaseLocking.RemoveQueue | src/concurrency_control/TwoPhaseLocking.py:138-139 | the queue becomes `RemoveQueue` of the old queue and nothing else changes |
| TwoPhaseLocking.TwoPhaseLocking.AddResult | src/concurrency_control/TwoPhaseLocking.py:141-147 | the operation token is appended to the trace and nothing else changes |
| TwoPhaseLocking.TwoPhaseLocking.AddLockResult | src/concurrency_control/TwoPhaseLocking.py:149-152 | the lock token is appended and nothing else changes |
| TwoPhaseLocking.TwoPhaseLocking.AddUpgradeResult | src/concurrency_control/TwoPhaseLocking.py:154-157 | the upgrade token is appended and nothing else changes |
| TwoPhaseLocking.TwoPhaseLocking.AddUnlockResult | src/concurrency_control/TwoPhaseLocking.py:159-161 | the unlock token is appended and nothing else changes |
| TwoPhaseLocking.TwoPhaseLocking.AddRollbackResult | src/concurrency_control/TwoPhaseLocking.py:163-165 | the rollback token is appended and nothing else changes |
| TwoPhaseLocking.TwoPhaseLocking.QueueToSchedule | src/concurrency_control/TwoPhaseLocking.py:167-176 | draining the queue front first has the effect `Flush` describes |
| TwoPhaseLocking.TwoPhaseLocking.RollbackTransaction | src/concurrency_control/TwoPhaseLocking.py:197-232 | the driver and its lock manager end as `Rollback` says |
| TwoPhaseLocking.TwoPhaseLocking.WoundWait | src/concurrency_control/TwoPhaseLocking.py:236-252 | the driver and its lock manager end as `WoundWaitStep` says |
| TwoPhaseLocking.TwoPhaseLocking.RollbackYounger | src/concurrency_control/TwoPhaseLocking.py:248-250 | the loop calling `rollback_transaction` for each victim has the effect `RollbackAll` describes |
| TwoPhaseLocking.TwoPhaseLocking.LockAndAccess | src/concurrency_control/TwoPhaseLocking.py:288-290 | the lock is granted and exactly the lock token, then the op token, are appended |
| TwoPhaseLocking.TwoPhaseLocking.UpgradeAndAccess | src/concurrency_control/TwoPhaseLocking.py:270-272 | the lock is upgraded and exactly the upgrade token, then the op token, are appended |
| TwoPhaseLocking.TwoPhaseLocking.ProcessReadWrite | src/concurrency_control/TwoPhaseLocking.py:255-290 | the driver and its lock manager end as `ReadWriteStep` says |
| TwoPhaseLocking.TwoPhaseLocking.ProcessCommit | src/concurrency_control/TwoPhaseLocking.py:293-303 | the driver and its lock manager end as `CommitStep` says, and the method reports where `is_locked_by` raises |
| TwoPhaseLocking.TwoPhaseLocking.Run | src/concurrency_control/TwoPhaseLocking.py:306-336 | `run(upgrade, rollback)` sets the options and leaves the driver as `RunSteps` says, with its failure |
| EarlyTwoPhaseLocking.ReadWriteStep | src/two_phase_locking/two_phase_locking.py:172-199 | the READ/WRITE arm never changes the remaining schedule; it either queues the request, leaving trace and table alone, or leaves the queue alone |
| EarlyTwoPhaseLocking.ReadWriteStepBranches | src/two_phase_locking/two_phase_locking.py:172-199 | every branch of the arm. A waiting transaction's request is queued. An unlocked item is granted with a lock token and the op token. A holder of the requested mode writes the op token. A holder of another mode, with upgrade, is upgraded when the item's mode is greater, with no check for other holders, and otherwise just writes the op token. Without upgrade that holder leaves the state as it was. A non-holder's S request on an S item, with upgrade, co-holds. Every other request is queued |
| EarlyTwoPhaseLocking.CommitStep | src/two_phase_locking/two_phase_locking.py:201-211 | a waiting transaction's commit is queued. Otherwise `C<t>` is written, and `is_locked_by` then raises exactly on an item key "". If it does not, the `UL` tokens of `t`'s grants follow in table order, its grants are released, and the queue is flushed even when `t` held nothing |
| EarlyTwoPhaseLocking.CommitReleases | src/two_phase_locking/two_phase_locking.py:205-210 | a commit that goes through releases every lock of the committing transaction and no other |
| EarlyTwoPhaseLocking.Step | src/two_phase_locking/two_phase_locking.py:163-214 | one iteration fails only at a commit |
| EarlyTwoPhaseLocking.StepMeasure | src/two_phase_locking/two_phase_locking.py:163-214 | every iteration consumes a commit or keeps the commits and shortens the schedule, so `run` ends |
| EarlyTwoPhaseLocking.RunSteps | src/two_phase_locking/two_phase_locking.py:162-219 | `run` always ends: with schedule and queue empty, or with "Deadlock detected" exactly when entries are still queued, or at the IndexError of a commit |
| EarlyTwoPhaseLocking.ReadWriteLockBeforeAccess | src/two_phase_locking/two_phase_locking.py:172-199 | whenever the READ/WRITE arm writes the op token, the transaction holds a lock on the item, an X lock without upgrade |
| EarlyTwoPhaseLocking.ReadWriteKeepsLocks | src/two_phase_locking/two_phase_locking.py:172-199 | the READ/WRITE arm takes no lock away |
| EarlyTwoPhaseLocking.ReadWriteTable | src/two_phase_locking/two_phase_locking.py:172-199 | the arm leaves the lock table alone or takes exactly the lock it asks for |
| EarlyTwoPhaseLocking.StepKeepsExclusive | src/two_phase_locking/two_phase_locking.py:171-211 | without upgrade an iteration keeps an exclusive-only table exclusive-only |
| EarlyTwoPhaseLocking.RunKeepsExclusive | src/two_phase_locking/two_phase_locking.py:162-219 | without upgrade a run from an exclusive-only table ends with one |
| EarlyTwoPhaseLocking.RunExclusiveWithoutUpgrade | src/two_phase_locking/two_phase_locking.py:162-219 | mutual exclusion without upgrade: no item ends up held by two transactions |
| EarlyTwoPhaseLocking.TwoPhaseLocking.constructor | src/two_phase_locking/two_phase_locking.py:104-110 | the driver starts with the parsed schedule, an empty queue and trace, and the given lock manager |
| EarlyTwoPhaseLocking.TwoPhaseLocking.AddQueue | src/two_phase_locking/two_phase_locking.py:112-113 | the entry is appended to the queue and nothing else changes |
| EarlyTwoPhaseLocking.TwoPhaseLocking.RemoveQueue | src/two_phase_locking/two_phase_locking.py:118-119 | the queue becomes `RemoveQueue` of the old queue and nothing else changes |
| EarlyTwoPhaseLocking.TwoPhaseLocking.AddResult | src/two_phase_locking/two_phase_locking.py:121-127 | the operation token is appended and nothing else changes |
| EarlyTwoPhaseLocking.TwoPhaseLocking.AddLockResult | src/two_phase_locking/two_phase_locking.py:129-132 | the lock token is appended and nothing else changes |
| EarlyTwoPhaseLocking.TwoPhaseLocking.AddUpgradeResult | src/two_phase_locking/two_phase_locking.py:134-137 | the upgrade token is appended and nothing else changes |
| EarlyTwoPhaseLocking.TwoPhaseLocking.AddUnlockResult | src/two_phase_locking/two_phase_locking.py:139-141 | the unlock token is appended and nothing else changes |
| EarlyTwoPhaseLocking.TwoPhaseLocking.QueueToSchedule | src/two_phase_locking/two_phase_locking.py:143-152 | draining the queue front first has the effect `Flush` describes |
| EarlyTwoPhaseLocking.TwoPhaseLocking.LockAndAccess | src/two_phase_locking/two_phase_locking.py:196-199 | the lock is granted and exactly the lock token, then the op token, are appended |
| EarlyTwoPhaseLocking.TwoPhaseLocking.UpgradeAndAccess | src/two_phase_locking/two_phase_locking.py:184-187 | the lock is upgraded and exactly the upgrade token, then the op token, are appended |
| EarlyTwoPhaseLocking.TwoPhaseLocking.ReadWrite | src/two_phase_locking/two_phase_locking.py:172-199 | the READ/WRITE arm leaves the driver and its lock manager as `ReadWriteStep` says |
| EarlyTwoPhaseLocking.TwoPhaseLocking.Commit | src/two_phase_locking/two_phase_locking.py:201-211 | the COMMIT arm leaves them as `CommitStep` says, and the method reports where `is_locked_by` raises |
| EarlyTwoPhaseLocking.TwoPhaseLocking.Run | src/two_phase_locking/two_phase_locking.py:162-219 | `run(upgrade)` leaves the driver as `RunSteps` says, with its failure |
| Samples.ParseTestSchedule | src/two_phase_locking/test.py:12-19 | the tokens `R1(A)`, `W1(A)`, `C1` parse to (READ,1,"A"), (WRITE,1,"A"), (COMMIT,1,"") |
| Samples.FullSampleOne | src/concurrency_control/TwoPhaseLocking.py:340-351 | sample 1 with both options off completes with trace `XL1(X),R1(X),XL3(Y),W3(Y),W1(X),C1,UL1(X),XL2(X),W2(X),C3,UL3(Y),XL2(Y),W2(Y),C2,UL2(X),UL2(Y)` and an empty lock table |
| Samples.FullSampleSix | src/concurrency_control/TwoPhaseLocking.py:345 | sample 6 deadlocks after `XL1(X),W1(X),XL2(Y),W2(Y)`, with W1(Y), W2(X), C1, C2 still queued |
| Samples.EarlySampleThree | src/two_phase_locking/two_phase_locking.py:225-232 | sample 3 of the early driver with upgrade completes: both transactions share both items in S and commit one after the other |
| Samples.FullUpgradeQuirk | src/concurrency_control/TwoPhaseLocking.py:84-88 | in the full driver with upgrade, the commit of 1 deletes the item key of X while 2 holds X in S, and 3 is then granted X beside 2 |
| Samples.FullRegrantQuirk | src/concurrency_control/TwoPhaseLocking.py:288-290 | once the commit of 2 has run `unlock_data` and deleted the item key of X, 3, which still holds X in X, finds X unlocked when it reads: it is granted S afresh with an `SL` token, and its X grant becomes S |
| Samples.EarlyUpgradeQuirk | src/two_phase_locking/two_phase_locking.py:183-187 | in the early driver with upgrade, 2 is upgraded to X while 1 shares X in S, and 1 then writes X under its S lock |

## Left out

- Console output is not modelled. This covers every `print`, the `print_operation`, `print_result` and `print_state` helpers, and the `verbose` dumps. The trace `result` list is the observable output.
- `Transaction.commit` and the file store behind it (`FileHandler`, `BinaryData`, `Query.execute`) are not modelled. They are file I/O. The OCC commit sets only the end timestamp.
- Queries are abstract. A query is its kind and the names of the items it touches. The values in `dict_data` are plain integers, because the model never reads them.
- The interactive menus and `read_file` of `src/util/Util.py`, and the demo `src/main.py`, are not part of this model.
- Character classes are restricted. `upper()` is modelled for the ASCII letters R, W and C only, and `int(s[1])` for the ASCII digits only. Python's `int` also accepts other Unicode digits.
- The driver constructors require that the schedule parses. The source raises from `parse_schedule` in the constructor, and the model states that error as the `Err` result of `ParseSchedule` instead.
- The shared default `LockManager()` argument of both driver constructors is not modelled. The lock manager is a parameter, and its aliasing across drivers is not modelled.
- TwoPhaseLocking.RunSteps, TwoPhaseLocking.TwoPhaseLocking.Run: with `rollback` the loop is given `fuel` iterations and reports `OutOfFuel` after them, because wound-wait can put entries back without end.
- OptimisticConcurrencyControl.RunTicks, OptimisticConcurrencyControl.OCC.Run: the loop is given `fuel` iterations, because a transaction that keeps failing validation is rescheduled without end.
- `OptimisticConcurrencyControl.OCC.Valid` requires the transaction objects in the list to be distinct. Python allows the same object twice, and its updates through one position would then show at the other; `src/main.py` builds a separate object for each transaction.
- The transaction list of `OCC` is a sequence of object references. Python's list is never changed after construction; only the objects in it are.
- A `next` on an empty generator or a `current_query` past the end is an error result here: `NoSuchTransaction` or `QueryIndexOutOfRange`. In Python these are raised exceptions.
- The sample runs start from the parsed entries of the sample strings; the splitting of those literal strings is not stated. `ParseJoinedPieces` and `ParseScheduleTokens` state the splitting and parsing of any such schedule.
- Traces are stated as calls of the token functions, not as spelled-out strings. The token functions are proved to produce the source's strings for single-digit ids (`ParseOpToken`, `IdString`).
- The unit tests of `src/two_phase_locking/test.py` other than `test_parse_schedule` call methods the driver does not have, so only that one test is stated.
