/** `UnitOfWork`: a transaction handle over the application database context. */
module InfrastructureKernel {
  import opened Transactions

  class UnitOfWork {
    /** `_currentTransaction != null`. */
    var current: bool
    /** The requests sent to the database so far. */
    var log: seq<TxEvent>

    function Handle(): TxState
      reads this
    {
      TxState(current, log)
    }

    constructor ()
      ensures Handle() == Idle
    {
      current := false;
      log := [];
    }

    method SaveChanges()
      modifies this
      ensures Handle() == Save(old(Handle()))
    {
      log := log + [Saved];
    }

    method BeginTransaction()
      modifies this
      ensures Handle() == Begin(old(Handle()))
    {
      if current {
        return;
      }
      current := true;
      log := log + [Began];
    }

    method CommitTransaction()
      modifies this
      ensures Handle() == Commit(old(Handle()))
    {
      if !current {
        return;
      }
      log := log + [Committed];
      current := false;
    }

    method RollbackTransaction()
      modifies this
      ensures Handle() == Rollback(old(Handle()))
    {
      if !current {
        return;
      }
      log := log + [RolledBack];
      current := false;
    }
  }
}
