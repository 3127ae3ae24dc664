/**
 * An abstract JDBC layer: the SQL error vocabulary the wrappers use and a
 * driver connection whose state (autocommit, read-only, closed) and whose
 * failures are chosen by the environment.
 */
module Jdbc {

  /** SQLSTATE "invalid transaction state, no subclass". */
  const InvalidTransactionState: string := "25000"
  /** SQLSTATE "transaction rollback, no subclass". */
  const TransactionRollback: string := "40000"
  /** SQLSTATE used when a savepoint operation is not allowed in a global transaction. */
  const SavepointNotAllowed: string := "3B503"
  /** SQLSTATE "connection exception, no subclass". */
  const ConnectionException: string := "08000"

  /** The subclass of SQLException that is thrown. */
  datatype SqlKind =
    | Transient               // SQLTransientException
    | NonTransient            // SQLNonTransientException
    | NonTransientConnection  // SQLNonTransientConnectionException
    | ClientInfo              // SQLClientInfoException
    | Driver                  // whatever the driver throws

  datatype SqlException = SqlException(kind: SqlKind, state: string)

  /** A failure reported by the driver itself. */
  const DriverFailure: SqlException := SqlException(Driver, "")

  /** The outcome of a JDBC call: a value, or a thrown SQLException. */
  datatype SqlResult<T> = Ok(value: T) | Fail(error: SqlException)

  /** Which driver calls throw. The driver's behaviour is fixed for the connection's lifetime. */
  datatype Faults = Faults(getAutoCommit: bool, setAutoCommit: bool, commit: bool, rollback: bool, isReadOnly: bool)

  /** A driver none of whose calls fail. */
  const NoFaults: Faults := Faults(false, false, false, false, false)

  /**
   * A driver connection. Its data are the JDBC properties the wrappers read
   * and write; `faults` says which driver calls throw, and the counters
   * record how often commit and rollback reached the driver.
   */
  class Connection {
    var autoCommit: bool
    var closed: bool
    var commits: nat
    var rollbacks: nat
    const readOnly: bool
    const faults: Faults

    /** A fresh, open connection in the JDBC default autocommit mode. */
    constructor (readOnly: bool, faults: Faults)
      ensures autoCommit && !closed && commits == 0 && rollbacks == 0
      ensures this.readOnly == readOnly && this.faults == faults
    {
      autoCommit := true;
      closed := false;
      commits, rollbacks := 0, 0;
      this.readOnly := readOnly;
      this.faults := faults;
    }

    /** Between two states nothing but the autocommit mode changed. */
    twostate predicate OnlyAutoCommitChanged()
      reads this
    {
      closed == old(closed) && commits == old(commits) && rollbacks == old(rollbacks)
    }

    method GetAutoCommit() returns (r: SqlResult<bool>)
      ensures faults.getAutoCommit <==> r.Fail?
      ensures r.Ok? ==> r.value == autoCommit
      ensures r.Fail? ==> r.error == DriverFailure
    {
      if faults.getAutoCommit {
        r := Fail(DriverFailure);
      } else {
        r := Ok(autoCommit);
      }
    }

    method SetAutoCommit(on: bool) returns (r: SqlResult<()>)
      modifies this`autoCommit
      ensures faults.setAutoCommit <==> r.Fail?
      ensures r.Fail? ==> r.error == DriverFailure
      ensures autoCommit == if r.Ok? then on else old(autoCommit)
    {
      if faults.setAutoCommit {
        r := Fail(DriverFailure);
      } else {
        autoCommit := on;
        r := Ok(());
      }
    }

    method IsReadOnly() returns (r: SqlResult<bool>)
      ensures faults.isReadOnly <==> r.Fail?
      ensures r.Ok? ==> r.value == readOnly
      ensures r.Fail? ==> r.error == DriverFailure
    {
      if faults.isReadOnly {
        r := Fail(DriverFailure);
      } else {
        r := Ok(readOnly);
      }
    }

    method Commit() returns (r: SqlResult<()>)
      modifies this`commits
      ensures commits == old(commits) + 1
      ensures faults.commit <==> r.Fail?
      ensures r.Fail? ==> r.error == DriverFailure
    {
      commits := commits + 1;
      r := if faults.commit then Fail(DriverFailure) else Ok(());
    }

    method Rollback() returns (r: SqlResult<()>)
      modifies this`rollbacks
      ensures rollbacks == old(rollbacks) + 1
      ensures faults.rollback <==> r.Fail?
      ensures r.Fail? ==> r.error == DriverFailure
    {
      rollbacks := rollbacks + 1;
      r := if faults.rollback then Fail(DriverFailure) else Ok(());
    }

    method IsClosed() returns (r: bool)
      ensures r == closed
    {
      r := closed;
    }

    method Close()
      modifies this`closed
      ensures closed
    {
      closed := true;
    }
  }
}
