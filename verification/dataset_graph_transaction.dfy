/** The guard as the object applications hold: a class whose fields are the
    per-context slot and flag maps and the object-wide "have used in transaction"
    flag, over a shared store connection. Each method is proved to do what the
    matching function of TxnGuard says, and to keep the guard's invariant. */
module DatasetGraphTransactions {
  import opened TxnGuard

  /** The shared store connection, reduced to what the guard observes: an
      allocator of fresh transactional views, the base dataset's sync count,
      and the log of calls delegated to views. */
  class StoreConnection {
    var issued: seq<ReadWrite>
    var baseSyncs: nat
    var viewCalls: seq<ViewCall>

    function Value(): Connection
      reads this
    {
      Connection(issued, baseSyncs, viewCalls)
    }

    constructor ()
      ensures Value() == Connection([], 0, [])
    {
      issued, baseSyncs, viewCalls := [], 0, [];
    }

    /** Flush the base dataset. */
    method SyncBase()
      modifies this
      ensures Value() == TxnGuard.SyncBase(old(Value()))
    {
      baseSyncs := baseSyncs + 1;
    }

    /** Allocate a transactional view for `mode`; `granted` is the connection's
        own admission decision, which this model does not reimplement. */
    method Begin(mode: ReadWrite, granted: bool) returns (r: Option<TxnId>)
      modifies this
      ensures granted ==> r == Some(old(|issued|)) && issued == old(issued) + [mode]
      ensures !granted ==> r == None && issued == old(issued)
      ensures baseSyncs == old(baseSyncs) && viewCalls == old(viewCalls)
    {
      if granted {
        r := Some(|issued|);
        issued := issued + [mode];
      } else {
        r := None;
      }
    }

    /** Commit, abort or end a view. */
    method Delegate(call: ViewCall)
      modifies this
      ensures Value() == old(Value()).(viewCalls := old(viewCalls) + [call])
    {
      viewCalls := viewCalls + [call];
    }
  }

  class DatasetGraphTransaction {
    const sConn: StoreConnection
    var txn: map<Ctx, Option<TxnId>>
    var inTransaction: map<Ctx, bool>
    var haveUsedInTransaction: bool

    /** The guard's state as a value. */
    function State(): GuardState
      reads this, sConn
    {
      GuardState(txn, inTransaction, haveUsedInTransaction, sConn.Value())
    }

    ghost predicate Valid()
      reads this, sConn
    {
      TxnGuard.Valid(State())
    }

    constructor (conn: StoreConnection)
      ensures sConn == conn && State() == Initial(conn.Value()) && Valid()
    {
      sConn := conn;
      txn, inTransaction, haveUsedInTransaction := map[], map[], false;
      new;
      InitialValid(conn.Value(), 0);
    }

    /** The slot of context `c`, null until the context sets it. */
    method Slot(c: Ctx) returns (r: Option<TxnId>)
      ensures r == TxnSlot(State(), c)
    {
      r := if c in txn then txn[c] else None;
    }

    method IsInTransaction(c: Ctx) returns (b: bool)
      ensures b == InTransaction(State(), c)
    {
      b := c in inTransaction && inTransaction[c];
    }

    /** The accessor every read and write of context `c` goes through. */
    method Get(c: Ctx) returns (r: Result<View>)
      ensures r == TxnGuard.Get(State(), c)
    {
      var inTxn := IsInTransaction(c);
      if inTxn {
        var slot := Slot(c);
        r := match slot
          case None => Err(NoTransactionalView)
          case Some(t) => Ok(Txn(t));
      } else if haveUsedInTransaction {
        r := Err(NotInTransaction);
      } else {
        r := Ok(Base);
      }
    }

    method CheckActive(c: Ctx) returns (o: Outcome)
      ensures o == TxnGuard.CheckActive(State(), c)
    {
      var inTxn := IsInTransaction(c);
      o := if haveUsedInTransaction && !inTxn then Fail(NotInTransaction) else Pass;
    }

    method CheckNotActive(c: Ctx) returns (o: Outcome)
      ensures o == TxnGuard.CheckNotActive(State(), c)
    {
      var inTxn := IsInTransaction(c);
      o := if haveUsedInTransaction && inTxn then Fail(CurrentlyInTransaction) else Pass;
    }

    method SyncIfNotTransactional()
      requires Valid()
      modifies sConn
      ensures Valid()
      ensures State() == TxnGuard.SyncIfNotTransactional(old(State()))
    {
      ghost var s0 := State();
      if !haveUsedInTransaction {
        sConn.SyncBase();
      }
      assert forall d :: TxnSlot(State(), d) == TxnSlot(s0, d);
    }

    method Begin(c: Ctx, mode: ReadWrite, granted: bool) returns (o: Outcome)
      requires Valid()
      modifies this, sConn
      ensures Valid()
      ensures Step(State(), o) == TxnGuard.Begin(old(State()), c, mode, granted)
    {
      ghost var s0 := State();
      if !haveUsedInTransaction {
        sConn.SyncBase();
      }
      haveUsedInTransaction := true;
      var view := sConn.Begin(mode, granted);
      match view {
        case None =>
          o := Fail(AllocationRefused);
        case Some(t) =>
          txn := txn[c := Some(t)];
          inTransaction := inTransaction[c := true];
          o := Pass;
      }
      BeginValid(s0, c, mode, granted);
    }

    method Commit(c: Ctx) returns (o: Outcome)
      requires Valid()
      modifies this, sConn
      ensures Valid()
      ensures Step(State(), o) == TxnGuard.Commit(old(State()), c)
    {
      ghost var s0 := State();
      var slot := Slot(c);
      match slot {
        case None =>
          o := Fail(NullTransaction);
        case Some(t) =>
          sConn.Delegate(Committed(t));
          inTransaction := inTransaction[c := false];
          o := Pass;
      }
      FinishValid(s0, c, (t: TxnId) => Committed(t));
    }

    method Abort(c: Ctx) returns (o: Outcome)
      requires Valid()
      modifies this, sConn
      ensures Valid()
      ensures Step(State(), o) == TxnGuard.Abort(old(State()), c)
    {
      ghost var s0 := State();
      var slot := Slot(c);
      match slot {
        case None =>
          o := Fail(NullTransaction);
        case Some(t) =>
          sConn.Delegate(Aborted(t));
          inTransaction := inTransaction[c := false];
          o := Pass;
      }
      FinishValid(s0, c, (t: TxnId) => Aborted(t));
    }

    method End(c: Ctx) returns (o: Outcome)
      requires Valid()
      modifies this, sConn
      ensures Valid()
      ensures Step(State(), o) == TxnGuard.End(old(State()), c)
    {
      ghost var s0 := State();
      var slot := Slot(c);
      match slot {
        case None =>
          o := Fail(NullTransaction);
        case Some(t) =>
          sConn.Delegate(Ended(t));
          inTransaction := inTransaction[c := false];
          txn := txn[c := None];
          o := Pass;
      }
      EndValid(s0, c);
    }

    method Close(c: Ctx) returns (o: Outcome)
      requires Valid()
      modifies sConn
      ensures Valid()
      ensures Step(State(), o) == TxnGuard.Close(old(State()), c)
    {
      ghost var s0 := State();
      o := Pass;
      if !haveUsedInTransaction {
        var view := Get(c);
        match view {
          case Err(e) => o := Fail(e);
          case Ok(Base) => sConn.SyncBase();
          case Ok(Txn(_)) =>
        }
      }
      assert forall d :: TxnSlot(State(), d) == TxnSlot(s0, d);
    }
  }

  /** Two contexts share one guard: once `x` has begun a transaction, `y` is
      refused the base dataset, and stays refused after `x` has finished. */
  method TwoContexts(x: Ctx, y: Ctx)
    returns (before: Result<View>, inside: Result<View>, outside: Result<View>,
             after: Result<View>, syncs: nat, calls: seq<ViewCall>)
    requires x != y
    ensures before == Ok(Base)
    ensures inside == Ok(Txn(0))
    ensures outside == Err(NotInTransaction) && after == Err(NotInTransaction)
    ensures syncs == 1 && calls == [Committed(0), Ended(0)]
  {
    var conn := new StoreConnection();
    var g := new DatasetGraphTransaction(conn);
    before := g.Get(y);
    var o := g.Begin(x, Write, true);
    inside := g.Get(x);
    outside := g.Get(y);
    o := g.Commit(x);
    o := g.End(x);
    after := g.Get(x);
    o := g.Close(y);
    syncs, calls := conn.baseSyncs, conn.viewCalls;
  }
}
