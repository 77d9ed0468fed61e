/** The transaction-admission guard of a TDB dataset, as a value.
    A `GuardState` holds the per-context transaction slot and in-transaction flag
    (the thread-locals of the guard, keyed here by a context id), the object-wide
    "have used in transaction" flag, and what the guard can observe of the shared
    store connection. Every operation of the guard is a function from one state
    to the next; the class in dataset_graph_transaction.dfy is proved to follow them. */
module TxnGuard {

  /** An execution context (a thread in the source). */
  type Ctx = nat

  /** A transactional view handed out by the store connection, named by the
      position of its allocation in the connection's log. */
  type TxnId = nat

  datatype Option<T> = None | Some(value: T)

  datatype ReadWrite = Read | Write

  /** What the guard's accessor resolves to: the base dataset, or one transactional view. */
  datatype View = Base | Txn(id: TxnId)

  /** The failures the guard surfaces. */
  datatype TxnError =
    | NoTransactionalView     // "In a transaction but no transactional DatasetGraph"
    | NotInTransaction        // "Not in a transaction"
    | CurrentlyInTransaction  // "Currently in a transaction"
    | NullTransaction         // commit/abort/end dereference an empty slot
    | AllocationRefused       // the connection would not grant the requested mode

  datatype Result<T> = Ok(value: T) | Err(error: TxnError)

  datatype Outcome = Pass | Fail(error: TxnError)

  /** A call the guard delegates to a transactional view. */
  datatype ViewCall = Committed(id: TxnId) | Aborted(id: TxnId) | Ended(id: TxnId)

  /** What the guard can observe of the shared store connection: the modes of the
      views it has allocated (a view's id is its index here), how often the base
      dataset was synced, and the commit/abort/end calls made on views. */
  datatype Connection = Connection(issued: seq<ReadWrite>, baseSyncs: nat, viewCalls: seq<ViewCall>)

  datatype GuardState = GuardState(
    txn: map<Ctx, Option<TxnId>>,
    inTransaction: map<Ctx, bool>,
    haveUsedInTransaction: bool,
    conn: Connection)

  /** The result of one operation: the state afterwards and whether it threw. */
  datatype Step = Step(post: GuardState, outcome: Outcome)

  /** A context's transaction slot; a context that never touched it sees null. */
  function TxnSlot(s: GuardState, c: Ctx): Option<TxnId>
  {
    if c in s.txn then s.txn[c] else None
  }

  /** A context's in-transaction flag; a context that never touched it sees false. */
  predicate InTransaction(s: GuardState, c: Ctx)
  {
    c in s.inTransaction && s.inTransaction[c]
  }

  /** The guard of a freshly constructed dataset over connection `conn`. */
  function Initial(conn: Connection): (s: GuardState)
    ensures !s.haveUsedInTransaction && s.conn == conn
    ensures forall c :: TxnSlot(s, c) == None && !InTransaction(s, c)
  {
    GuardState(map[], map[], false, conn)
  }

  /** A context is idle when its slot and flag hold their initial values. */
  predicate Idle(s: GuardState, c: Ctx)
  {
    TxnSlot(s, c) == None && !InTransaction(s, c)
  }

  /** Context `c` is the only context whose slot or flag may differ between `s` and `t`. */
  ghost predicate OthersUnchanged(s: GuardState, t: GuardState, c: Ctx)
  {
    forall d :: d != c ==> TxnSlot(t, d) == TxnSlot(s, d) && InTransaction(t, d) == InTransaction(s, d)
  }

  /** The object invariant the guard's operations keep:
      a context whose flag is set holds a view; only a guard that has gone
      transactional holds views; every held view was allocated by the
      connection; and no view is held by two contexts. */
  ghost predicate Valid(s: GuardState)
  {
    (forall c :: InTransaction(s, c) ==> TxnSlot(s, c).Some?) &&
    (forall c :: TxnSlot(s, c).Some? ==>
        s.haveUsedInTransaction && TxnSlot(s, c).value < |s.conn.issued|) &&
    (forall c, d ::
        (TxnSlot(s, c).Some? && TxnSlot(s, d).Some? && TxnSlot(s, c).value == TxnSlot(s, d).value)
        ==> c == d)
  }

  // ---------------------------------------------------------------------------
  // Read-only operations
  // ---------------------------------------------------------------------------

  /** The accessor every read and write goes through. */
  function Get(s: GuardState, c: Ctx): (r: Result<View>)
    ensures r.Ok? && r.value.Txn? ==> InTransaction(s, c) && TxnSlot(s, c) == Some(r.value.id)
    ensures InTransaction(s, c) && TxnSlot(s, c).Some? ==> r == Ok(Txn(TxnSlot(s, c).value))
    ensures r == Ok(Base) <==> !InTransaction(s, c) && !s.haveUsedInTransaction
    ensures r == Err(NotInTransaction) <==> !InTransaction(s, c) && s.haveUsedInTransaction
    ensures r == Err(NoTransactionalView) <==> InTransaction(s, c) && TxnSlot(s, c).None?
  {
    if InTransaction(s, c) then
      match TxnSlot(s, c)
      case None => Err(NoTransactionalView)
      case Some(t) => Ok(Txn(t))
    else if s.haveUsedInTransaction then
      Err(NotInTransaction)
    else
      Ok(Base)
  }

  /** Fails exactly when the guard has gone transactional and `c` is outside a transaction. */
  function CheckActive(s: GuardState, c: Ctx): (r: Outcome)
    ensures r.Fail? <==> s.haveUsedInTransaction && !InTransaction(s, c)
    ensures r.Fail? ==> r.error == NotInTransaction
  {
    if s.haveUsedInTransaction && !InTransaction(s, c) then Fail(NotInTransaction) else Pass
  }

  /** Fails exactly when the guard has gone transactional and `c` is inside a transaction. */
  function CheckNotActive(s: GuardState, c: Ctx): (r: Outcome)
    ensures r.Fail? <==> s.haveUsedInTransaction && InTransaction(s, c)
    ensures r.Fail? ==> r.error == CurrentlyInTransaction
  {
    if s.haveUsedInTransaction && InTransaction(s, c) then Fail(CurrentlyInTransaction) else Pass
  }

  // ---------------------------------------------------------------------------
  // State-changing operations
  // ---------------------------------------------------------------------------

  /** Flush the base dataset, counted by the connection. */
  function SyncBase(conn: Connection): (r: Connection)
    ensures r.baseSyncs == conn.baseSyncs + 1
    ensures r.issued == conn.issued && r.viewCalls == conn.viewCalls
  {
    conn.(baseSyncs := conn.baseSyncs + 1)
  }

  /** Syncs the base dataset if the guard has never gone transactional, and
      otherwise does nothing. */
  function SyncIfNotTransactional(s: GuardState): (r: GuardState)
    ensures r.conn.baseSyncs == s.conn.baseSyncs + (if s.haveUsedInTransaction then 0 else 1)
    ensures r.(conn := s.conn) == s
    ensures r.conn.issued == s.conn.issued && r.conn.viewCalls == s.conn.viewCalls
  {
    if !s.haveUsedInTransaction then s.(conn := SyncBase(s.conn)) else s
  }

  /** Begin a transaction in context `c`. The first begin on this guard syncs the
      base dataset; every begin marks the guard as transactional; then the
      connection is asked for a view, which it grants or refuses (`granted`).
      A refusal throws after the sync and the flag change have happened. */
  function Begin(s: GuardState, c: Ctx, mode: ReadWrite, granted: bool): (r: Step)
    ensures r.post.haveUsedInTransaction
    ensures r.post.conn.baseSyncs == s.conn.baseSyncs + (if s.haveUsedInTransaction then 0 else 1)
    ensures r.post.conn.viewCalls == s.conn.viewCalls
    ensures OthersUnchanged(s, r.post, c)
    ensures r.outcome == (if granted then Pass else Fail(AllocationRefused))
    ensures granted ==>
              (r.post.conn.issued == s.conn.issued + [mode]
               && TxnSlot(r.post, c) == Some(|s.conn.issued|) && InTransaction(r.post, c))
    ensures !granted ==>
              (r.post.conn.issued == s.conn.issued
               && TxnSlot(r.post, c) == TxnSlot(s, c) && InTransaction(r.post, c) == InTransaction(s, c))
  {
    var synced := if !s.haveUsedInTransaction then SyncBase(s.conn) else s.conn;
    var marked := s.(haveUsedInTransaction := true, conn := synced);
    if granted then
      var id := |synced.issued|;
      var conn' := synced.(issued := synced.issued + [mode]);
      Step(marked.(txn := marked.txn[c := Some(id)],
                   inTransaction := marked.inTransaction[c := true],
                   conn := conn'),
           Pass)
    else
      Step(marked, Fail(AllocationRefused))
  }

  /** Shared by commit and abort: delegate `call` to the context's view, then
      clear the flag and leave the slot as it is. An empty slot throws first. */
  function Finish(s: GuardState, c: Ctx, call: TxnId -> ViewCall): (r: Step)
    ensures TxnSlot(s, c).None? ==> r == Step(s, Fail(NullTransaction))
    ensures TxnSlot(s, c).Some? ==>
              r.outcome == Pass && !InTransaction(r.post, c) && TxnSlot(r.post, c) == TxnSlot(s, c)
              && r.post.conn.viewCalls == s.conn.viewCalls + [call(TxnSlot(s, c).value)]
    ensures OthersUnchanged(s, r.post, c)
    ensures r.post.haveUsedInTransaction == s.haveUsedInTransaction
    ensures r.post.conn.issued == s.conn.issued && r.post.conn.baseSyncs == s.conn.baseSyncs
  {
    match TxnSlot(s, c)
    case None => Step(s, Fail(NullTransaction))
    case Some(t) =>
      Step(s.(inTransaction := s.inTransaction[c := false],
              conn := s.conn.(viewCalls := s.conn.viewCalls + [call(t)])),
           Pass)
  }

  /** Commit the context's transaction: the slot keeps the committed view. */
  function Commit(s: GuardState, c: Ctx): (r: Step)
    ensures TxnSlot(s, c).None? ==> r == Step(s, Fail(NullTransaction))
    ensures TxnSlot(s, c).Some? ==>
              r.outcome == Pass && !InTransaction(r.post, c) && TxnSlot(r.post, c) == TxnSlot(s, c)
              && r.post.conn.viewCalls == s.conn.viewCalls + [Committed(TxnSlot(s, c).value)]
    ensures OthersUnchanged(s, r.post, c)
    ensures r.post.haveUsedInTransaction == s.haveUsedInTransaction
    ensures r.post.conn.issued == s.conn.issued && r.post.conn.baseSyncs == s.conn.baseSyncs
  {
    Finish(s, c, (t: TxnId) => Committed(t))
  }

  /** Abort the context's transaction: the slot keeps the aborted view. */
  function Abort(s: GuardState, c: Ctx): (r: Step)
    ensures TxnSlot(s, c).None? ==> r == Step(s, Fail(NullTransaction))
    ensures TxnSlot(s, c).Some? ==>
              r.outcome == Pass && !InTransaction(r.post, c) && TxnSlot(r.post, c) == TxnSlot(s, c)
              && r.post.conn.viewCalls == s.conn.viewCalls + [Aborted(TxnSlot(s, c).value)]
    ensures OthersUnchanged(s, r.post, c)
    ensures r.post.haveUsedInTransaction == s.haveUsedInTransaction
    ensures r.post.conn.issued == s.conn.issued && r.post.conn.baseSyncs == s.conn.baseSyncs
  {
    Finish(s, c, (t: TxnId) => Aborted(t))
  }

  /** End the context's transaction: release the view, clear the flag and empty
      the slot, which puts the context back in its initial state. */
  function End(s: GuardState, c: Ctx): (r: Step)
    ensures TxnSlot(s, c).None? ==> r == Step(s, Fail(NullTransaction))
    ensures TxnSlot(s, c).Some? ==>
              r.outcome == Pass && Idle(r.post, c)
              && r.post.conn.viewCalls == s.conn.viewCalls + [Ended(TxnSlot(s, c).value)]
    ensures OthersUnchanged(s, r.post, c)
    ensures r.post.haveUsedInTransaction == s.haveUsedInTransaction
    ensures r.post.conn.issued == s.conn.issued && r.post.conn.baseSyncs == s.conn.baseSyncs
  {
    match TxnSlot(s, c)
    case None => Step(s, Fail(NullTransaction))
    case Some(t) =>
      Step(s.(inTransaction := s.inTransaction[c := false],
              txn := s.txn[c := None],
              conn := s.conn.(viewCalls := s.conn.viewCalls + [Ended(t)])),
           Pass)
  }

  /** Close the guard from context `c`: if it never went transactional, sync
      whatever the accessor resolves to; never close the base dataset. */
  function Close(s: GuardState, c: Ctx): (r: Step)
    ensures s.haveUsedInTransaction ==> r == Step(s, Pass)
    ensures Get(s, c) == Ok(Base) ==> r == Step(s.(conn := SyncBase(s.conn)), Pass)
    ensures r.post.haveUsedInTransaction == s.haveUsedInTransaction
    ensures r.post.txn == s.txn && r.post.inTransaction == s.inTransaction
  {
    if !s.haveUsedInTransaction then
      match Get(s, c)
      case Err(e) => Step(s, Fail(e))
      case Ok(Base) => Step(s.(conn := SyncBase(s.conn)), Pass)
      // not reachable under Valid, which ties a set flag to a sticky guard;
      // the sync of a transactional view is left to the connection
      case Ok(Txn(_)) => Step(s, Pass)
    else
      Step(s, Pass)
  }

  // ---------------------------------------------------------------------------
  // Properties of single operations
  // ---------------------------------------------------------------------------

  /** A fresh guard satisfies the invariant, routes every context to the base
      dataset and accepts every check. */
  lemma InitialValid(conn: Connection, c: Ctx)
    ensures Valid(Initial(conn))
    ensures Get(Initial(conn), c) == Ok(Base)
    ensures CheckActive(Initial(conn), c) == Pass && CheckNotActive(Initial(conn), c) == Pass
  {
  }

  /** Under the invariant the accessor never reports a set flag with an empty slot;
      it hands out a transactional view exactly when the context's flag is set, and
      the base dataset only while the guard has never gone transactional. */
  lemma GetUnderValid(s: GuardState, c: Ctx)
    requires Valid(s)
    ensures Get(s, c) != Err(NoTransactionalView)
    ensures Get(s, c).Ok? && Get(s, c).value.Txn? <==> InTransaction(s, c)
    ensures Get(s, c) == Ok(Base) ==> !s.haveUsedInTransaction && TxnSlot(s, c).None?
  {
  }

  /** Under the invariant close never fails: it syncs the base dataset exactly when
      the guard has never gone transactional and changes nothing else. */
  lemma CloseUnderValid(s: GuardState, c: Ctx)
    requires Valid(s)
    ensures Close(s, c) == Step(SyncIfNotTransactional(s), Pass)
  {
    GetUnderValid(s, c);
  }

  /** A granted begin keeps the invariant; the fresh view is held by `c` alone. */
  lemma BeginValid(s: GuardState, c: Ctx, mode: ReadWrite, granted: bool)
    requires Valid(s)
    ensures Valid(Begin(s, c, mode, granted).post)
  {
    var t := Begin(s, c, mode, granted).post;
    forall d | TxnSlot(t, d).Some?
      ensures t.haveUsedInTransaction && TxnSlot(t, d).value < |t.conn.issued|
    {
      if d != c {
        assert TxnSlot(t, d) == TxnSlot(s, d);
      }
    }
    forall d, e | TxnSlot(t, d).Some? && TxnSlot(t, e).Some? && TxnSlot(t, d).value == TxnSlot(t, e).value
      ensures d == e
    {
      if d != c && e != c {
        assert TxnSlot(t, d) == TxnSlot(s, d) && TxnSlot(t, e) == TxnSlot(s, e);
      }
    }
  }

  /** Commit and abort keep the invariant. */
  lemma FinishValid(s: GuardState, c: Ctx, call: TxnId -> ViewCall)
    requires Valid(s)
    ensures Valid(Finish(s, c, call).post)
  {
    var t := Finish(s, c, call).post;
    assert forall d :: TxnSlot(t, d) == TxnSlot(s, d);
  }

  /** End keeps the invariant. */
  lemma EndValid(s: GuardState, c: Ctx)
    requires Valid(s)
    ensures Valid(End(s, c).post)
  {
    var t := End(s, c).post;
    assert forall d :: TxnSlot(t, d).Some? ==> TxnSlot(t, d) == TxnSlot(s, d);
  }

  /** Commit (and likewise abort) without end leaves the context with its flag
      cleared and a finished view still in its slot, so the accessor refuses it
      even though a view is held: after a commit, a cleared flag no longer means
      that no view is held. */
  lemma CommitLeavesViewAllocated(s: GuardState, c: Ctx, mode: ReadWrite)
    ensures var t := Commit(Begin(s, c, mode, true).post, c).post;
            !InTransaction(t, c) && TxnSlot(t, c) == Some(|s.conn.issued|)
            && Get(t, c) == Err(NotInTransaction)
  {
  }

  /** A begin the connection refuses still leaves the guard transactional (and,
      on the first begin, the base dataset synced): the failure is not atomic. */
  lemma RefusedBeginStillSticky(s: GuardState, c: Ctx, mode: ReadWrite)
    requires !s.haveUsedInTransaction
    ensures var r := Begin(s, c, mode, false);
            r.outcome == Fail(AllocationRefused) && r.post.haveUsedInTransaction
            && r.post.conn.baseSyncs == s.conn.baseSyncs + 1
            && Get(r.post, c) == (if InTransaction(s, c) then Get(s, c) else Err(NotInTransaction))
  {
  }
}
