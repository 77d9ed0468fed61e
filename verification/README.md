# Transaction-admission guard of a TDB dataset, in Dafny

This project models `DatasetGraphTransaction`, the guard that sits between
applications and a shared TDB `StoreConnection`. The guard keeps three pieces
of state:

- a per-context transaction slot (`txn`, a thread-local whose initial value is null);
- a per-context in-transaction flag (`inTransaction`, a thread-local whose initial value is false);
- one object-wide flag, `haveUsedInTransaction`.

The sticky flag flips to true on the first `_begin` and never flips back. Every
read and write goes through `get()`, which works in one of three ways:

- it returns the context's transactional view if the context's flag is set;
- otherwise it refuses if the dataset has ever been used transactionally;
- otherwise it returns the base dataset.

The model has three layers:

- `txn_guard.dfy` (module `TxnGuard`): the guard's state as a value
  (`GuardState`), with one function per operation of the guard. Each function
  says what the operation does to the calling context, to every other context,
  to the sticky flag and to the connection. The module also holds the object
  invariant `Valid`, the lemmas that every operation keeps it, and lemmas about
  single operations.
- `txn_traces.dfy` (module `TxnTraces`): any sequence of operations from any mix
  of contexts (`Run`). It proves these lifetime promises by induction:
  - the sticky flag is set exactly when some begin has happened;
  - begin syncs the base dataset at most once, and after the switch nothing syncs it;
  - after any begin, every context outside a transaction is refused;
  - a context's slot and flag change only through that context's own begin, commit, abort or end.
- `dataset_graph_transaction.dfy` (module `DatasetGraphTransactions`): the guard
  as a class. Its fields are the thread-locals (as maps keyed by a context id)
  and the sticky flag. It also has a `StoreConnection` class that allocates
  fresh view ids and counts base syncs. Each method is proved equal to the
  matching `TxnGuard` function, and each keeps `Valid()`.

Modelling choices:

- Threads are contexts (`Ctx`). A context missing from a map sees the
  thread-local's initial value.
- Every operation is one atomic step, so an interleaving of operations is a
  plain sequence of operations. For `_begin` the `synchronized(lock)` provides
  this. `_commit`, `_abort` and `_end` touch only their own context's slot and
  flag. `syncIfNotTransactional` and `_close` read the shared
  `haveUsedInTransaction` flag and sync the base dataset without taking the
  lock, so for them atomicity is an assumption of the model (see "Left out").
- A view is named by its allocation index in the connection. The connection's
  admission decision (for example, one writer at a time) is the parameter
  `granted`.
- The calls the guard passes on to a view (`commit`, `abort`, `end`) are
  recorded in the connection's `viewCalls` log.
- The model follows the code as written, including these behaviours:
  - Commit and abort clear the flag and leave the view in the slot. After a
    commit, a cleared flag no longer means that no view is held
    (`CommitLeavesViewAllocated`).
  - A begin that the connection refuses has already synced the base dataset
    and set the sticky flag. The failure is not atomic (`RefusedBeginStillSticky`).
  - Begin while the context already holds a view overwrites the slot. Nothing
    checks for this.
  - Commit, abort or end on an empty slot dereferences null. This is modelled
    as the failure `NullTransaction`, raised before any state changes. The code
    has no separate "no active transaction" check.
  - Close on a guard that is not sticky asks `get()` for a view and syncs the
    base dataset when that is what it gets. The case where `get()` returns a
    transactional view is a no-op in the model, because `Valid` rules it out
    (a set flag implies a sticky guard); under `Valid` close syncs exactly the
    base dataset (`CloseUnderValid`).

## Model

| member | source | states |
|---|---|---|
| TxnGuard.Initial | jena-tdb/src/main/java/com/hp/hpl/jena/tdb/transaction/DatasetGraphTransaction.java:40-67 | a new guard is not sticky and every context starts with a null slot and a false flag |
| TxnGuard.InitialValid | jena-tdb/src/main/java/com/hp/hpl/jena/tdb/transaction/DatasetGraphTransaction.java:35-38 | a new guard meets the invariant, gives every context the base dataset and passes both checks |
| TxnGuard.Get | jena-tdb/src/main/java/com/hp/hpl/jena/tdb/transaction/DatasetGraphTransaction.java:92-108 | returns a transactional view only for a flagged context, and it is the view in that context's slot; a flagged context whose slot holds a view always gets that view; returns the base dataset exactly when the context is unflagged and the guard is not sticky; fails "Not in a transaction" exactly when the context is unflagged and the guard is sticky; fails "no transactional DatasetGraph" exactly when the flag is set and the slot is empty |
| TxnGuard.GetUnderValid | jena-tdb/src/main/java/com/hp/hpl/jena/tdb/transaction/DatasetGraphTransaction.java:95-100 | under the invariant the "no transactional DatasetGraph" failure cannot happen; a view is returned exactly when the context is flagged; the base dataset only while the guard is not sticky and the slot is empty |
| TxnGuard.CheckActive | jena-tdb/src/main/java/com/hp/hpl/jena/tdb/transaction/DatasetGraphTransaction.java:110-115 | fails exactly when the guard is sticky and the context is not in a transaction, and then fails with "Not in a transaction" |
| TxnGuard.CheckNotActive | jena-tdb/src/main/java/com/hp/hpl/jena/tdb/transaction/DatasetGraphTransaction.java:117-122 | fails exactly when the guard is sticky and the context is in a transaction, and then fails with "Currently in a transaction" |
| TxnGuard.SyncBase | jena-tdb/src/main/java/com/hp/hpl/jena/tdb/transaction/DatasetGraphTransaction.java:134 | syncing the base dataset adds one to the connection's sync count and changes nothing else of the connection |
| TxnGuard.SyncIfNotTransactional | jena-tdb/src/main/java/com/hp/hpl/jena/tdb/transaction/DatasetGraphTransaction.java:128-135 | adds one base sync when the guard is not sticky and none when it is; changes nothing else |
| TxnGuard.Begin | jena-tdb/src/main/java/com/hp/hpl/jena/tdb/transaction/DatasetGraphTransaction.java:137-149 | the guard is sticky afterwards; the base is synced once if it was not sticky before and not at all otherwise; a granted begin puts the new view (the next id) in the caller's slot, sets its flag and passes; a refused begin fails and leaves the caller's slot and flag alone; every other context is unchanged |
| TxnGuard.Finish | jena-tdb/src/main/java/com/hp/hpl/jena/tdb/transaction/DatasetGraphTransaction.java:152-163 | on an empty slot it fails and changes nothing; otherwise it passes the call to the slot's view, clears the flag and keeps the slot; other contexts, the sticky flag, the allocations and the syncs are unchanged |
| TxnGuard.Commit | jena-tdb/src/main/java/com/hp/hpl/jena/tdb/transaction/DatasetGraphTransaction.java:151-156 | on an empty slot it fails and changes nothing; otherwise it commits the slot's view, clears the flag and leaves the slot populated; other contexts, the sticky flag, the allocations and the syncs are unchanged |
| TxnGuard.Abort | jena-tdb/src/main/java/com/hp/hpl/jena/tdb/transaction/DatasetGraphTransaction.java:158-163 | on an empty slot it fails and changes nothing; otherwise it aborts the slot's view, clears the flag and leaves the slot populated; other contexts, the sticky flag, the allocations and the syncs are unchanged |
| TxnGuard.End | jena-tdb/src/main/java/com/hp/hpl/jena/tdb/transaction/DatasetGraphTransaction.java:165-171 | on an empty slot it fails and changes nothing; otherwise it ends the slot's view and returns the context to its initial state (null slot, false flag); other contexts, the sticky flag, the allocations and the syncs are unchanged |
| TxnGuard.Close | jena-tdb/src/main/java/com/hp/hpl/jena/tdb/transaction/DatasetGraphTransaction.java:181-189 | on a sticky guard it does nothing; when the accessor resolves to the base dataset it syncs it once (the transactional-view case, which `Valid` rules out, is a no-op); it never changes the sticky flag, the slots or the flags, and it never closes the base dataset |
| TxnGuard.CloseUnderValid | jena-tdb/src/main/java/com/hp/hpl/jena/tdb/transaction/DatasetGraphTransaction.java:184-185 | under the invariant close never fails and does exactly what syncIfNotTransactional does |
| TxnGuard.BeginValid | jena-tdb/src/main/java/com/hp/hpl/jena/tdb/transaction/DatasetGraphTransaction.java:142-147 | begin keeps the invariant: a flagged context holds a view, only a sticky guard holds views, every held view was allocated, and no two contexts hold the same view |
| TxnGuard.FinishValid | jena-tdb/src/main/java/com/hp/hpl/jena/tdb/transaction/DatasetGraphTransaction.java:154-162 | commit and abort keep the invariant |
| TxnGuard.EndValid | jena-tdb/src/main/java/com/hp/hpl/jena/tdb/transaction/DatasetGraphTransaction.java:168-170 | end keeps the invariant |
| TxnGuard.CommitLeavesViewAllocated | jena-tdb/src/main/java/com/hp/hpl/jena/tdb/transaction/DatasetGraphTransaction.java:152-156 | after begin and then commit, the context is unflagged but its slot still holds the view, and the accessor refuses it |
| TxnGuard.RefusedBeginStillSticky | jena-tdb/src/main/java/com/hp/hpl/jena/tdb/transaction/DatasetGraphTransaction.java:142-145 | a first begin that the connection refuses still syncs the base dataset and makes the guard sticky, so an unflagged caller is refused afterwards |
| TxnTraces.ApplyValid | jena-tdb/src/main/java/com/hp/hpl/jena/tdb/transaction/DatasetGraphTransaction.java:131-189 | every state-changing operation keeps the invariant |
| TxnTraces.ApplySticky | jena-tdb/src/main/java/com/hp/hpl/jena/tdb/transaction/DatasetGraphTransaction.java:144 | after one operation the guard is sticky exactly when it was before or the operation was a begin |
| TxnTraces.ApplySyncs | jena-tdb/src/main/java/com/hp/hpl/jena/tdb/transaction/DatasetGraphTransaction.java:133-143 | one operation syncs the base at most once, never on a sticky guard, and a begin syncs exactly when the guard was not sticky |
| TxnTraces.ApplyIsolated | jena-tdb/src/main/java/com/hp/hpl/jena/tdb/transaction/DatasetGraphTransaction.java:145-147 | an operation that is not context d's begin, commit, abort or end leaves d's slot and flag unchanged |
| TxnTraces.RunValid | jena-tdb/src/main/java/com/hp/hpl/jena/tdb/transaction/DatasetGraphTransaction.java:62-67 | the invariant holds after any sequence of operations that starts from it |
| TxnTraces.StickyIffBegun | jena-tdb/src/main/java/com/hp/hpl/jena/tdb/transaction/DatasetGraphTransaction.java:142-144 | after any run the guard is sticky exactly when it was sticky before or the run contains a begin: only begin sets the flag and nothing resets it |
| TxnTraces.SyncsFrozenOnceSticky | jena-tdb/src/main/java/com/hp/hpl/jena/tdb/transaction/DatasetGraphTransaction.java:131-143 | from a sticky guard no run syncs the base dataset again, and the guard stays sticky |
| TxnTraces.BeginSyncsAtMostOnce | jena-tdb/src/main/java/com/hp/hpl/jena/tdb/transaction/DatasetGraphTransaction.java:142-143 | in any run the base syncs caused by begin total exactly 1 if the guard started not sticky and the run holds a begin, and 0 otherwise |
| TxnTraces.BeginSyncsBounded | jena-tdb/src/main/java/com/hp/hpl/jena/tdb/transaction/DatasetGraphTransaction.java:141-143 | the base syncs caused by begin are at most one and are part of the run's total growth in syncs |
| TxnTraces.NotInTransactionOnceUsed | jena-tdb/src/main/java/com/hp/hpl/jena/tdb/transaction/DatasetGraphTransaction.java:103-104 | once any begin has happened, granted or not, every context outside a transaction is refused by get() and by checkActive, even after the transaction that set the flag has ended |
| TxnTraces.RunIsolated | jena-tdb/src/main/java/com/hp/hpl/jena/tdb/transaction/DatasetGraphTransaction.java:64-65 | a run with no begin, commit, abort or end from context d leaves d's slot and flag as they were |
| TxnTraces.LifecycleRoundTrip | jena-tdb/src/main/java/com/hp/hpl/jena/tdb/transaction/DatasetGraphTransaction.java:138-171 | a granted begin, then commit or abort, then end leaves the context in its initial state and the guard sticky; one view is allocated, and the commit (or abort) and the end go to that view |
| TxnTraces.ScenarioNonTransactional | jena-tdb/src/main/java/com/hp/hpl/jena/tdb/transaction/DatasetGraphTransaction.java:106-107 | on a guard never used transactionally, get() returns the base dataset and close syncs it exactly once |
| TxnTraces.ScenarioOtherContextRefused | jena-tdb/src/main/java/com/hp/hpl/jena/tdb/transaction/DatasetGraphTransaction.java:95-104 | while context x holds an open write transaction, x gets its view and another context y is refused with "Not in a transaction" |
| TxnTraces.ScenarioCommitWithoutBegin | jena-tdb/src/main/java/com/hp/hpl/jena/tdb/transaction/DatasetGraphTransaction.java:154 | commit in a context that never began fails and changes nothing |
| DatasetGraphTransactions.StoreConnection.SyncBase | jena-tdb/src/main/java/com/hp/hpl/jena/tdb/transaction/DatasetGraphTransaction.java:143 | syncing the base dataset increments the connection's sync count |
| DatasetGraphTransactions.StoreConnection.Begin | jena-tdb/src/main/java/com/hp/hpl/jena/tdb/transaction/DatasetGraphTransaction.java:145 | a granted request returns a fresh view id (the next index) and logs its mode; a refused one returns nothing and allocates nothing |
| DatasetGraphTransactions.StoreConnection.Delegate | jena-tdb/src/main/java/com/hp/hpl/jena/tdb/transaction/DatasetGraphTransaction.java:168 | a commit, abort or end on a view is added to the connection's call log |
| DatasetGraphTransactions.DatasetGraphTransaction.constructor | jena-tdb/src/main/java/com/hp/hpl/jena/tdb/transaction/DatasetGraphTransaction.java:70-78 | a new guard over a connection is in the initial state and meets the invariant |
| DatasetGraphTransactions.DatasetGraphTransaction.Slot | jena-tdb/src/main/java/com/hp/hpl/jena/tdb/transaction/DatasetGraphTransaction.java:97 | `txn.get()`: returns the context's slot, null (`None`) for a context that never set it |
| DatasetGraphTransactions.TwoContexts | jena-tdb/src/main/java/com/hp/hpl/jena/tdb/transaction/DatasetGraphTransaction.java:93-189 | scenario on the class: y gets the base dataset before any begin; after x begins, x gets its view and y is refused; after x commits and ends, x is refused too; y's close does not sync again, so the base was synced once, and the view got exactly one commit and one end |
| DatasetGraphTransactions.DatasetGraphTransaction.IsInTransaction | jena-tdb/src/main/java/com/hp/hpl/jena/tdb/transaction/DatasetGraphTransaction.java:124-126 | returns the context's flag, false for a context that never set it |
| DatasetGraphTransactions.DatasetGraphTransaction.Get | jena-tdb/src/main/java/com/hp/hpl/jena/tdb/transaction/DatasetGraphTransaction.java:93-108 | the three-way branch over the object's fields agrees with `TxnGuard.Get` |
| DatasetGraphTransactions.DatasetGraphTransaction.CheckActive | jena-tdb/src/main/java/com/hp/hpl/jena/tdb/transaction/DatasetGraphTransaction.java:111-115 | agrees with `TxnGuard.CheckActive` and changes nothing |
| DatasetGraphTransactions.DatasetGraphTransaction.CheckNotActive | jena-tdb/src/main/java/com/hp/hpl/jena/tdb/transaction/DatasetGraphTransaction.java:118-122 | agrees with `TxnGuard.CheckNotActive` and changes nothing |
| DatasetGraphTransactions.DatasetGraphTransaction.SyncIfNotTransactional | jena-tdb/src/main/java/com/hp/hpl/jena/tdb/transaction/DatasetGraphTransaction.java:131-135 | the new state is `TxnGuard.SyncIfNotTransactional` of the old one, and the invariant is kept |
| DatasetGraphTransactions.DatasetGraphTransaction.Begin | jena-tdb/src/main/java/com/hp/hpl/jena/tdb/transaction/DatasetGraphTransaction.java:138-149 | the new state and the outcome are `TxnGuard.Begin` of the old state, and the invariant is kept |
| DatasetGraphTransactions.DatasetGraphTransaction.Commit | jena-tdb/src/main/java/com/hp/hpl/jena/tdb/transaction/DatasetGraphTransaction.java:152-156 | the new state and the outcome are `TxnGuard.Commit` of the old state, and the invariant is kept |
| DatasetGraphTransactions.DatasetGraphTransaction.Abort | jena-tdb/src/main/java/com/hp/hpl/jena/tdb/transaction/DatasetGraphTransaction.java:159-163 | the new state and the outcome are `TxnGuard.Abort` of the old state, and the invariant is kept |
| DatasetGraphTransactions.DatasetGraphTransaction.End | jena-tdb/src/main/java/com/hp/hpl/jena/tdb/transaction/DatasetGraphTransaction.java:166-171 | the new state and the outcome are `TxnGuard.End` of the old state, and the invariant is kept |
| DatasetGraphTransactions.DatasetGraphTransaction.Close | jena-tdb/src/main/java/com/hp/hpl/jena/tdb/transaction/DatasetGraphTransaction.java:182-189 | the new state and the outcome are `TxnGuard.Close` of the old state, and the invariant is kept |

## Left out

- Real threads, `ThreadLocal` and `synchronized(lock)`: contexts are map keys, and begin is one atomic step.
- `finalize()` (removing the calling thread's slot on garbage collection): it has no deterministic meaning.
- `toString`: it is for debugging only.
- `getLocation` and the location text in the checks' exception messages: the model has no locations.
- `getDatasetGraphToQuery` is the same call as `get()`, so it is covered by `Get`. `getBaseDatasetGraph` is the base dataset, which is `View.Base`.
- `DatasetGraphTrackActive`, the superclass that wraps `_begin`/`_commit`/... and calls `checkActive`/`checkNotActive`, is not part of this model. The checks are modelled as functions, but nothing in the model calls them.
- `StoreConnection` internals (`make`, view allocation, the journal, single-writer admission) and `DatasetGraphTxn.commit/abort/end`: the connection is an allocator of fresh ids, a base-sync counter and a log of delegated calls. The admission decision is the parameter `granted`. A delegated call is assumed to return normally.
- What a transaction reads and writes (whether committed data is visible, whether aborted data is discarded): the model has no dataset content.
- The exception classes (`TDBTransactionException`, `JenaTransactionException`, `NullPointerException`) are reduced to the constructors of `TxnError`.
- The `get() != null` test in `_close`: the base dataset is never null in the model, so the test always passes.
- Several guards sharing one connection: the model has one guard per connection.
- CloseUnderValid: holds only if `_close` runs atomically with respect to `_begin`, which the source does not ensure. `_close` tests the unlocked flag and then calls `get()` again; a `_begin` from another thread between the two makes `get()` throw "Not in a transaction".
- SyncsFrozenOnceSticky: holds only if `syncIfNotTransactional` and `_close` run atomically with respect to `_begin`, which the source does not ensure. Either can read the unlocked flag as false, lose the race to a first `_begin`, and then sync the base dataset after the switch.
