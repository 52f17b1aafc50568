/** The transaction boundary: an operation's changes become visible all together, or not at all. */
module Database {

  import opened Wrappers

  /** What became of a commit: it took effect, it took effect but the caller saw an error, or it had no effect. */
  datatype Commit = Applied | Unreported | Lost

  /** What the environment decides about one transaction. */
  datatype Environment = Environment(begins: bool, commit: Commit, rollbackFails: bool)

  datatype TxError =
    | NoOperation
    | NotStarted
    | BeginFailed
    | Aborted(cause: string, rollbackFailed: bool)
    | CommitFailed

  class Database<T> {
    /** Whether the connection pool has been started. */
    var started: bool
    /** The committed data: what every other connection sees. */
    var committed: T
    /** The data as the open transaction sees it. */
    var working: T
    var open: bool

    constructor (initial: T)
      ensures committed == initial && !started && !open
    {
      started, committed, working, open := false, initial, initial, false;
    }

    method Begin()
      requires !open
      modifies this
      ensures open && working == old(committed) && committed == old(committed) && started == old(started)
    {
      working, open := committed, true;
    }

    /** Ends the transaction without effect; `closed` says that it had ended already. */
    method Rollback() returns (closed: bool)
      modifies this
      ensures !open && committed == old(committed) && started == old(started)
      ensures closed == !old(open)
    {
      closed, open := !open, false;
    }

    method Commit(outcome: Commit) returns (ok: bool)
      requires open
      modifies this
      ensures !open && started == old(started)
      ensures committed == if outcome.Lost? then old(committed) else old(working)
      ensures ok == outcome.Applied?
    {
      if !outcome.Lost? {
        committed := working;
      }
      open := false;
      return outcome.Applied?;
    }

    /**
     InTransaction: all or nothing. The committed data afterwards is either what it was or what the whole operation
     made of it; an operation error leaves it alone; success means the operation took effect. An error after a commit
     is the one report that leaves the effect open.
     */
    method InTransaction(op: Option<T -> Result<T, string>>, env: Environment) returns (error: Option<TxError>)
      requires !open
      modifies this
      ensures !open && started == old(started)
      ensures error == Some(NoOperation) <==> op.None?
      ensures error == Some(NotStarted) <==> op.Some? && !old(started)
      ensures error == Some(BeginFailed) <==> op.Some? && old(started) && !env.begins
      ensures op.Some? && old(started) && env.begins ==>
        match op.value(old(committed))
        case Err(cause) => error == Some(Aborted(cause, env.rollbackFails))
        case Ok(_) => error == if env.commit == Applied then None else Some(CommitFailed)
      ensures error.None? ==>
        op.Some? && op.value(old(committed)).Ok? && committed == op.value(old(committed)).value
      ensures error.Some? && committed != old(committed) ==>
        error == Some(CommitFailed) && env.commit.Unreported? && committed == op.value(old(committed)).value
      ensures error == Some(CommitFailed) && env.commit.Lost? ==> committed == old(committed)
      ensures error == Some(CommitFailed) && env.commit.Unreported? ==>
        op.value(old(committed)).Ok? && committed == op.value(old(committed)).value
    {
      if op.None? {
        return Some(NoOperation);
      }
      if !started {
        return Some(NotStarted);
      }
      if !env.begins {
        return Some(BeginFailed);
      }
      Begin();
      match op.value(working) {
        case Err(cause) =>
          var closed := Rollback();
          error := Some(Aborted(cause, env.rollbackFails && !closed));
        case Ok(result) =>
          working := result;
          var ok := Commit(env.commit);
          error := if ok then None else Some(CommitFailed);
      }
      var _ := Rollback();
    }
  }
}
