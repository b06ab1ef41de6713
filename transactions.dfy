/** The transaction handle shared by `IdentityUnitOfWork`, `UnitOfWork` and
    `GenericRepository`: a nullable `_currentTransaction` field, and the
    requests the handle sends to the database. */
module Transactions {
  import opened Wrappers

  /** What the handle asks of the database. */
  datatype TxEvent = Began | Saved | Committed | RolledBack

  /** `open` is `_currentTransaction != null`; `log` is every request so far. */
  datatype TxState = TxState(open: bool, log: seq<TxEvent>)

  /** A freshly constructed handle. */
  const Idle := TxState(false, [])

  /** `BeginTransactionAsync`: opens a transaction unless one is already open. */
  function Begin(s: TxState): (r: TxState)
    ensures r.open
    ensures s.open ==> r == s
    ensures !s.open ==> r.log == s.log + [Began]
  {
    if s.open then s else TxState(true, s.log + [Began])
  }

  /** `CommitTransactionAsync`: commits and forgets the open transaction, if any. */
  function Commit(s: TxState): (r: TxState)
    ensures !r.open
    ensures !s.open ==> r == s
    ensures s.open ==> r.log == s.log + [Committed]
  {
    if !s.open then s else TxState(false, s.log + [Committed])
  }

  /** `RollbackTransactionAsync`: rolls back and forgets the open transaction, if any. */
  function Rollback(s: TxState): (r: TxState)
    ensures !r.open
    ensures !s.open ==> r == s
    ensures s.open ==> r.log == s.log + [RolledBack]
  {
    if !s.open then s else TxState(false, s.log + [RolledBack])
  }

  /** `SaveChangesAsync`: writes pending changes; the handle stays as it was. */
  function Save(s: TxState): (r: TxState)
    ensures r.open == s.open
    ensures r.log == s.log + [Saved]
  {
    TxState(s.open, s.log + [Saved])
  }

  /** Effect of one request on the open flag; `None` for a request that the
      handle never sends in that state (a second begin, a stray commit). */
  function Apply(open: bool, e: TxEvent): Option<bool> {
    match e
    case Began => if open then None else Some(true)
    case Saved => Some(open)
    case Committed => if open then Some(false) else None
    case RolledBack => if open then Some(false) else None
  }

  /** Replays a log from a closed handle. */
  function Replay(log: seq<TxEvent>): Option<bool> {
    if log == [] then Some(false)
    else match Replay(log[..|log| - 1])
      case None => None
      case Some(open) => Apply(open, log[|log| - 1])
  }

  /** The log is well bracketed and agrees with the open flag. */
  predicate Consistent(s: TxState) {
    Replay(s.log) == Some(s.open)
  }

  lemma ReplaySnoc(log: seq<TxEvent>, e: TxEvent)
    ensures Replay(log + [e]) == match Replay(log) case None => None case Some(o) => Apply(o, e)
  {
    assert (log + [e])[..|log|] == log;
  }

  /** Every operation of the handle keeps it consistent: transactions never
      nest, and nothing is committed or rolled back that was not begun. */
  lemma {:induction false} OperationsKeepConsistent(s: TxState)
    requires Consistent(s)
    ensures Consistent(Begin(s)) && Consistent(Commit(s))
    ensures Consistent(Rollback(s)) && Consistent(Save(s))
  {
    ReplaySnoc(s.log, Began);
    ReplaySnoc(s.log, Committed);
    ReplaySnoc(s.log, RolledBack);
    ReplaySnoc(s.log, Saved);
  }

  function CountOf(log: seq<TxEvent>, e: TxEvent): nat {
    if log == [] then 0
    else CountOf(log[..|log| - 1], e) + (if log[|log| - 1] == e then 1 else 0)
  }

  /** In a consistent log every transaction begun was committed or rolled back
      exactly once, except the one still open. */
  lemma {:induction false} BalancedLog(s: TxState)
    requires Consistent(s)
    ensures CountOf(s.log, Began)
      == CountOf(s.log, Committed) + CountOf(s.log, RolledBack) + (if s.open then 1 else 0)
    decreases |s.log|
  {
    if s.log != [] {
      var prefix := s.log[..|s.log| - 1];
      var open :| Replay(prefix) == Some(open);
      BalancedLog(TxState(open, prefix));
    }
  }

  /** Begin twice is begin once; commit or rollback then again is a no-op. */
  lemma Idempotence(s: TxState)
    ensures Begin(Begin(s)) == Begin(s)
    ensures Commit(Commit(s)) == Commit(s) && Rollback(Commit(s)) == Commit(s)
    ensures Rollback(Rollback(s)) == Rollback(s) && Commit(Rollback(s)) == Rollback(s)
  {
  }
}
