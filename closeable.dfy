/**
 * A connection wrapper whose close() takes effect only while a closeable
 * flag is set, with optional strict checking that makes most operations on
 * a closed connection fail.
 */
module Closeable {
  import opened Jdbc

  /** The error strict checking raises on a closed connection. */
  const ClosedError: SqlException := SqlException(NonTransientConnection, ConnectionException)

  /**
   * The forwarding operations of java.sql.Connection whose delegated effect is
   * not modelled (overloads share one constructor). Those with their own
   * methods below are close, isCloseable, setCloseable, isClosed, isValid,
   * abort, beginRequest, endRequest and the autocommit and local-transaction
   * operations.
   */
  datatype Operation =
    | CreateStatement | PrepareStatement | PrepareCall | NativeSql
    | GetMetaData | SetReadOnly | IsReadOnly | SetCatalog | GetCatalog
    | SetTransactionIsolation | GetTransactionIsolation | GetWarnings | ClearWarnings
    | GetTypeMap | SetTypeMap | SetHoldability | GetHoldability
    | SetSavepoint | RollbackToSavepoint | ReleaseSavepoint
    | CreateClob | CreateBlob | CreateNClob | CreateSqlXml
    | SetClientInfo | GetClientInfo | CreateArrayOf | CreateStruct
    | SetSchema | GetSchema | SetNetworkTimeout | GetNetworkTimeout
    | SetShardingKeyIfValid | SetShardingKey | Unwrap | IsWrapperFor

  /** How a failed closed check surfaces from an operation: setClientInfo rewraps it as an SQLClientInfoException. */
  function ClosedFailure(op: Operation): (e: SqlException)
    ensures e.state == ConnectionException
    ensures e.kind == if op == SetClientInfo then ClientInfo else NonTransientConnection
  {
    if op == SetClientInfo then SqlException(ClientInfo, ConnectionException) else ClosedError
  }

  class ConditionallyCloseableConnection {
    const delegate: Connection
    var closeable: bool
    const strictClosedChecking: bool

    /** Closeable, without strict closed checking. */
    constructor (delegate: Connection)
      ensures this.delegate == delegate && closeable && !strictClosedChecking
    {
      this.delegate := delegate;
      closeable := true;
      strictClosedChecking := false;
    }

    constructor WithCloseable(delegate: Connection, closeable: bool)
      ensures this.delegate == delegate && this.closeable == closeable && !strictClosedChecking
    {
      this.delegate := delegate;
      this.closeable := closeable;
      strictClosedChecking := false;
    }

    constructor WithClosedChecking(delegate: Connection, closeable: bool, strictClosedChecking: bool)
      ensures this.delegate == delegate && this.closeable == closeable && this.strictClosedChecking == strictClosedChecking
    {
      this.delegate := delegate;
      this.closeable := closeable;
      this.strictClosedChecking := strictClosedChecking;
    }

    /** Forwarded without any closed check. */
    method IsClosed() returns (r: bool)
      ensures r == delegate.closed
    {
      r := delegate.IsClosed();
    }

    /** Closeable means the flag is set and the connection is still open; no closed check. */
    method IsCloseable() returns (r: bool)
      ensures r <==> closeable && !delegate.closed
    {
      var isClosed := IsClosed();
      r := closeable && !isClosed;
    }

    /** Assigns the flag and nothing else; no closed check. */
    method SetCloseable(closeable: bool)
      modifies this`closeable
      ensures this.closeable == closeable
    {
      this.closeable := closeable;
    }

    /** Closes the delegate only when closeable; otherwise nothing happens. */
    method Close()
      modifies delegate`closed
      ensures delegate.closed <==> old(delegate.closed) || closeable
    {
      var isCloseable := IsCloseable();
      if isCloseable {
        delegate.Close();
      }
    }

    /** Fails with SQLSTATE 08000 exactly when the connection is closed. */
    method FailWhenClosed() returns (r: SqlResult<()>)
      ensures r == if delegate.closed then Fail(ClosedError) else Ok(())
    {
      var isClosed := IsClosed();
      r := if isClosed then Fail(ClosedError) else Ok(());
    }

    /** The closed check run by guarded operations: strict checking fails when closed, otherwise it does nothing. */
    method CheckOpen() returns (r: SqlResult<()>)
      ensures r == if strictClosedChecking && delegate.closed then Fail(ClosedError) else Ok(())
    {
      if strictClosedChecking {
        r := FailWhenClosed();
      } else {
        r := Ok(());
      }
    }

    /** A guarded forwarding operation: it runs the closed check first. */
    method Perform(op: Operation) returns (r: SqlResult<()>)
      ensures r == if strictClosedChecking && delegate.closed then Fail(ClosedFailure(op)) else Ok(())
    {
      var open := CheckOpen();
      if open.Fail? {
        return Fail(ClosedFailure(op));
      }
      r := Ok(());
    }

    method SetAutoCommit(autoCommit: bool) returns (r: SqlResult<()>)
      modifies delegate`autoCommit
      ensures r.Ok? <==> !(strictClosedChecking && delegate.closed) && !delegate.faults.setAutoCommit
      ensures strictClosedChecking && delegate.closed ==> r == Fail(ClosedError)
      ensures r.Fail? && !(strictClosedChecking && delegate.closed) ==> r.error == DriverFailure
      ensures delegate.autoCommit == if r.Ok? then autoCommit else old(delegate.autoCommit)
    {
      var open := CheckOpen();
      if open.Fail? {
        return open;
      }
      r := delegate.SetAutoCommit(autoCommit);
    }

    method GetAutoCommit() returns (r: SqlResult<bool>)
      ensures r.Ok? <==> !(strictClosedChecking && delegate.closed) && !delegate.faults.getAutoCommit
      ensures strictClosedChecking && delegate.closed ==> r == Fail(ClosedError)
      ensures !(strictClosedChecking && delegate.closed) && delegate.faults.getAutoCommit ==> r == Fail(DriverFailure)
      ensures r.Ok? ==> r.value == delegate.autoCommit
    {
      var open := CheckOpen();
      if open.Fail? {
        return Fail(open.error);
      }
      r := delegate.GetAutoCommit();
    }

    method Commit() returns (r: SqlResult<()>)
      modifies delegate`commits
      ensures r.Ok? <==> !(strictClosedChecking && delegate.closed) && !delegate.faults.commit
      ensures strictClosedChecking && delegate.closed ==> r == Fail(ClosedError)
      ensures r.Fail? && !(strictClosedChecking && delegate.closed) ==> r.error == DriverFailure
      ensures delegate.commits == old(delegate.commits) + if strictClosedChecking && delegate.closed then 0 else 1
    {
      var open := CheckOpen();
      if open.Fail? {
        return open;
      }
      r := delegate.Commit();
    }

    method Rollback() returns (r: SqlResult<()>)
      modifies delegate`rollbacks
      ensures r.Ok? <==> !(strictClosedChecking && delegate.closed) && !delegate.faults.rollback
      ensures strictClosedChecking && delegate.closed ==> r == Fail(ClosedError)
      ensures r.Fail? && !(strictClosedChecking && delegate.closed) ==> r.error == DriverFailure
      ensures delegate.rollbacks == old(delegate.rollbacks) + if strictClosedChecking && delegate.closed then 0 else 1
    {
      var open := CheckOpen();
      if open.Fail? {
        return open;
      }
      r := delegate.Rollback();
    }

    /** Forwarded without any closed check; a connection is valid while it is open. */
    method IsValid(timeout: int) returns (r: bool)
      ensures r <==> !delegate.closed
    {
      var isClosed := delegate.IsClosed();
      r := !isClosed;
    }

    /** Forwarded without any closed check: the driver closes the connection whatever the flag says. */
    method Abort()
      modifies delegate`closed
      ensures delegate.closed
    {
      delegate.Close();
    }

    /** beginRequest and endRequest: forwarded without any closed check, so they never fail here. */
    method Request() returns (r: SqlResult<()>)
      ensures r == Ok(())
    {
      r := Ok(());
    }
  }

  /**
   * The closeable-flag protocol on one connection, with strict checking.
   * The observations, in order: closeable at first; not closeable once the
   * flag is cleared; still open after close(); closeable again once the
   * flag is set; closed after the second close(); still closed after the
   * flag is cleared again.
   */
  method CloseableProtocol(c: Connection) returns (w: ConditionallyCloseableConnection, observed: seq<bool>)
    requires !c.closed
    modifies c`closed
    ensures w.delegate == c && c.closed && !w.closeable
    ensures observed == [true, false, false, true, true, true]
  {
    w := new ConditionallyCloseableConnection.WithClosedChecking(c, true, true);
    var closeableAtFirst := w.IsCloseable();
    w.SetCloseable(false);
    var closeableAfterClear := w.IsCloseable();
    w.Close();
    var closedAfterFirstClose := w.IsClosed();
    w.SetCloseable(true);
    var closeableAfterSet := w.IsCloseable();
    w.Close();
    var closedAfterSecondClose := w.IsClosed();
    w.SetCloseable(false);
    var closedAfterClearingAgain := w.IsClosed();
    observed := [closeableAtFirst, closeableAfterClear, closedAfterFirstClose,
                 closeableAfterSet, closedAfterSecondClose, closedAfterClearingAgain];
  }
}
