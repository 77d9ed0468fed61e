/** Sequences of guard operations issued by any mix of contexts, one after
    another. Each operation is taken as one atomic step. For begin the guard's
    lock provides this; commit, abort and end touch only their own context's
    slot and flag; sync and close, however, read the shared flag and sync the
    base dataset without the lock, so treating them as atomic steps is an
    assumption of this model, not a guarantee of the code.
    The lemmas here are the guard's lifetime promises: the transactional switch
    is one-way and set only by begin, begin syncs the base dataset at most once,
    and an operation of one context never disturbs another context. */
module TxnTraces {
  import opened TxnGuard

  /** An operation that changes the guard's state. */
  datatype Op =
    | BeginOp(c: Ctx, mode: ReadWrite, granted: bool)
    | CommitOp(c: Ctx)
    | AbortOp(c: Ctx)
    | EndOp(c: Ctx)
    | SyncOp
    | CloseOp(c: Ctx)

  function Apply(s: GuardState, op: Op): Step
  {
    match op
    case BeginOp(c, mode, granted) => Begin(s, c, mode, granted)
    case CommitOp(c) => Commit(s, c)
    case AbortOp(c) => Abort(s, c)
    case EndOp(c) => End(s, c)
    case SyncOp => Step(SyncIfNotTransactional(s), Pass)
    case CloseOp(c) => Close(s, c)
  }

  /** The state after running `ops` from `s`; a failed operation leaves whatever
      it had changed before it threw, and the run goes on. */
  function Run(s: GuardState, ops: seq<Op>): GuardState
    decreases |ops|
  {
    if ops == [] then s else Run(Apply(s, ops[0]).post, ops[1..])
  }

  /** Whether `op` is an operation of context `d`'s transaction lifecycle. */
  predicate Touches(op: Op, d: Ctx)
  {
    (op.BeginOp? || op.CommitOp? || op.AbortOp? || op.EndOp?) && op.c == d
  }

  /** How many base syncs the begin operations of `ops` cause, run from `s`:
      the growth of the connection's sync count across each begin step. */
  function BeginSyncs(s: GuardState, ops: seq<Op>): nat
    decreases |ops|
  {
    if ops == [] then 0
    else
      var t := Apply(s, ops[0]).post;
      (if ops[0].BeginOp? then t.conn.baseSyncs - s.conn.baseSyncs else 0) + BeginSyncs(t, ops[1..])
  }

  // ---------------------------------------------------------------------------
  // One operation
  // ---------------------------------------------------------------------------

  /** Every operation keeps the invariant. */
  lemma ApplyValid(s: GuardState, op: Op)
    requires Valid(s)
    ensures Valid(Apply(s, op).post)
  {
    match op
    case BeginOp(c, mode, granted) => BeginValid(s, c, mode, granted);
    case CommitOp(c) => FinishValid(s, c, (t: TxnId) => Committed(t));
    case AbortOp(c) => FinishValid(s, c, (t: TxnId) => Aborted(t));
    case EndOp(c) => EndValid(s, c);
    case SyncOp =>
      assert forall d :: TxnSlot(SyncIfNotTransactional(s), d) == TxnSlot(s, d);
    case CloseOp(c) =>
      assert forall d :: TxnSlot(Close(s, c).post, d) == TxnSlot(s, d);
  }

  /** Only begin sets the transactional flag, and nothing clears it. */
  lemma ApplySticky(s: GuardState, op: Op)
    ensures Apply(s, op).post.haveUsedInTransaction == (s.haveUsedInTransaction || op.BeginOp?)
  {
  }

  /** The base dataset is synced by begin, sync and close only while the guard
      has never gone transactional, and at most once per operation. */
  lemma ApplySyncs(s: GuardState, op: Op)
    ensures s.haveUsedInTransaction ==> Apply(s, op).post.conn.baseSyncs == s.conn.baseSyncs
    ensures Apply(s, op).post.conn.baseSyncs <= s.conn.baseSyncs + 1
    ensures op.BeginOp? ==>
              Apply(s, op).post.conn.baseSyncs == s.conn.baseSyncs + (if s.haveUsedInTransaction then 0 else 1)
  {
  }

  /** An operation that is not part of context `d`'s lifecycle leaves `d`'s slot and flag alone. */
  lemma ApplyIsolated(s: GuardState, op: Op, d: Ctx)
    requires !Touches(op, d)
    ensures TxnSlot(Apply(s, op).post, d) == TxnSlot(s, d)
    ensures InTransaction(Apply(s, op).post, d) == InTransaction(s, d)
  {
    match op
    case BeginOp(c, mode, granted) =>
    case CommitOp(c) =>
    case AbortOp(c) =>
    case EndOp(c) =>
    case SyncOp =>
    case CloseOp(c) =>
  }

  // ---------------------------------------------------------------------------
  // Whole runs
  // ---------------------------------------------------------------------------

  /** The invariant holds after any run that starts from it. */
  lemma {:induction false} RunValid(s: GuardState, ops: seq<Op>)
    requires Valid(s)
    ensures Valid(Run(s, ops))
    decreases |ops|
  {
    if ops != [] {
      ApplyValid(s, ops[0]);
      RunValid(Apply(s, ops[0]).post, ops[1..]);
    }
  }

  /** After a run the guard is transactional exactly when it was before or the
      run contains a begin (granted or not). */
  lemma {:induction false} StickyIffBegun(s: GuardState, ops: seq<Op>)
    ensures Run(s, ops).haveUsedInTransaction
            <==> s.haveUsedInTransaction || exists i :: 0 <= i < |ops| && ops[i].BeginOp?
    decreases |ops|
  {
    if ops != [] {
      var t := Apply(s, ops[0]).post;
      ApplySticky(s, ops[0]);
      StickyIffBegun(t, ops[1..]);
      if exists i :: 0 <= i < |ops| && ops[i].BeginOp? {
        var i :| 0 <= i < |ops| && ops[i].BeginOp?;
        if i > 0 {
          assert ops[1..][i - 1].BeginOp?;
        }
      }
      if exists j :: 0 <= j < |ops[1..]| && ops[1..][j].BeginOp? {
        var j :| 0 <= j < |ops[1..]| && ops[1..][j].BeginOp?;
        assert ops[j + 1].BeginOp?;
      }
    }
  }

  /** Once the guard is transactional no operation syncs the base dataset again. */
  lemma {:induction false} SyncsFrozenOnceSticky(s: GuardState, ops: seq<Op>)
    requires s.haveUsedInTransaction
    ensures Run(s, ops).haveUsedInTransaction
    ensures Run(s, ops).conn.baseSyncs == s.conn.baseSyncs
    decreases |ops|
  {
    if ops != [] {
      ApplySticky(s, ops[0]);
      ApplySyncs(s, ops[0]);
      SyncsFrozenOnceSticky(Apply(s, ops[0]).post, ops[1..]);
    }
  }

  /** Across any run, begin syncs the base dataset at most once: exactly once if
      the guard was not yet transactional and the run holds a begin, otherwise never. */
  lemma {:induction false} BeginSyncsAtMostOnce(s: GuardState, ops: seq<Op>)
    ensures BeginSyncs(s, ops)
            == if !s.haveUsedInTransaction && exists i :: 0 <= i < |ops| && ops[i].BeginOp? then 1 else 0
    decreases |ops|
  {
    if ops != [] {
      var t := Apply(s, ops[0]).post;
      ApplySticky(s, ops[0]);
      BeginSyncsAtMostOnce(t, ops[1..]);
      if exists j :: 0 <= j < |ops[1..]| && ops[1..][j].BeginOp? {
        var j :| 0 <= j < |ops[1..]| && ops[1..][j].BeginOp?;
        assert ops[j + 1].BeginOp?;
      }
      if !ops[0].BeginOp? && exists i :: 0 <= i < |ops| && ops[i].BeginOp? {
        var i :| 0 <= i < |ops| && ops[i].BeginOp?;
        assert ops[1..][i - 1].BeginOp?;
      }
    }
  }

  /** The base syncs begin causes are among the syncs the run makes, and there is
      at most one of them. */
  lemma {:induction false} BeginSyncsBounded(s: GuardState, ops: seq<Op>)
    ensures BeginSyncs(s, ops) <= 1
    ensures s.conn.baseSyncs + BeginSyncs(s, ops) <= Run(s, ops).conn.baseSyncs
    decreases |ops|
  {
    BeginSyncsAtMostOnce(s, ops);
    if ops != [] {
      var t := Apply(s, ops[0]).post;
      ApplySyncs(s, ops[0]);
      BeginSyncsBounded(t, ops[1..]);
    }
  }

  /** Once any begin has happened, every context outside a transaction is refused
      by the accessor, whichever contexts act afterwards and even after the
      transaction that flipped the switch has ended. */
  lemma NotInTransactionOnceUsed(s: GuardState, ops: seq<Op>, c: Ctx)
    requires s.haveUsedInTransaction || exists i :: 0 <= i < |ops| && ops[i].BeginOp?
    requires !InTransaction(Run(s, ops), c)
    ensures Get(Run(s, ops), c) == Err(NotInTransaction)
    ensures CheckActive(Run(s, ops), c) == Fail(NotInTransaction)
  {
    StickyIffBegun(s, ops);
  }

  /** A run in which context `d` neither begins, commits, aborts nor ends leaves
      `d`'s slot and flag as they were. */
  lemma {:induction false} RunIsolated(s: GuardState, ops: seq<Op>, d: Ctx)
    requires forall i :: 0 <= i < |ops| ==> !Touches(ops[i], d)
    ensures TxnSlot(Run(s, ops), d) == TxnSlot(s, d)
    ensures InTransaction(Run(s, ops), d) == InTransaction(s, d)
    decreases |ops|
  {
    if ops != [] {
      ApplyIsolated(s, ops[0], d);
      assert forall i :: 0 <= i < |ops[1..]| ==> ops[1..][i] == ops[i + 1];
      RunIsolated(Apply(s, ops[0]).post, ops[1..], d);
    }
  }

  /** The full lifecycle of one transaction: a granted begin, then commit (or
      abort), then end, returns the context to its initial state, leaves the
      guard transactional, and delegates commit (or abort) and end to the very
      view begin allocated. */
  lemma LifecycleRoundTrip(s: GuardState, c: Ctx, mode: ReadWrite, commit: bool)
    ensures var finish := if commit then CommitOp(c) else AbortOp(c);
            var t := Run(s, [BeginOp(c, mode, true), finish, EndOp(c)]);
            var id := |s.conn.issued|;
            Idle(t, c) && t.haveUsedInTransaction && t.conn.issued == s.conn.issued + [mode]
            && t.conn.viewCalls == s.conn.viewCalls + [if commit then Committed(id) else Aborted(id), Ended(id)]
  {
    var finish := if commit then CommitOp(c) else AbortOp(c);
    var ops := [BeginOp(c, mode, true), finish, EndOp(c)];
    var s1 := Apply(s, ops[0]).post;
    var s2 := Apply(s1, ops[1]).post;
    var s3 := Apply(s2, ops[2]).post;
    assert ops[1..] == [finish, EndOp(c)] && ops[1..][1..] == [EndOp(c)];
    assert Run(s2, [EndOp(c)]) == Run(s3, []) == s3;
    assert Run(s1, [finish, EndOp(c)]) == Run(s2, [EndOp(c)]);
  }

  // ---------------------------------------------------------------------------
  // Scenarios
  // ---------------------------------------------------------------------------

  /** A fresh guard that is never used transactionally hands out the base
      dataset, and closing it syncs the base dataset exactly once. */
  lemma ScenarioNonTransactional(conn: Connection, c: Ctx)
    ensures Get(Initial(conn), c) == Ok(Base)
    ensures Close(Initial(conn), c) == Step(Initial(conn).(conn := SyncBase(conn)), Pass)
  {
  }

  /** Context `x` begins a write transaction and keeps it open; context `y`,
      which never began one, is refused by the accessor. */
  lemma ScenarioOtherContextRefused(conn: Connection, x: Ctx, y: Ctx)
    requires x != y
    ensures Get(Run(Initial(conn), [BeginOp(x, Write, true)]), y) == Err(NotInTransaction)
    ensures Get(Run(Initial(conn), [BeginOp(x, Write, true)]), x) == Ok(Txn(|conn.issued|))
  {
    assert [BeginOp(x, Write, true)][1..] == [];
  }

  /** Commit in a context that never began a transaction throws before it changes anything. */
  lemma ScenarioCommitWithoutBegin(conn: Connection, c: Ctx)
    ensures Commit(Initial(conn), c) == Step(Initial(conn), Fail(NullTransaction))
  {
  }
}
