/**
 * A connection wrapper that enlists itself in the calling thread's active
 * JTA transaction before nearly every operation, forbids local-transaction
 * control while enlisted, and stays non-closeable until the transaction
 * completes. Enlistment hands the driver connection to the XA resource
 * adapter through the shared handoff slot and gets the branch's Xid back.
 */
module Jta {
  import opened Wrappers
  import opened Xa
  import opened Jdbc
  import opened Closeable
  import opened Handoff
  import Branch
  import LocalXa

  // Values of javax.transaction.Status.
  const StatusActive: int := 0
  const StatusMarkedRollback: int := 1
  const StatusCommitted: int := 3
  const StatusRolledBack: int := 4
  const StatusNoTransaction: int := 6

  /** The registry key under which the branch's Xid is kept. */
  const XidKey: string := "xid"
  /** The registry key under which the enlisted wrapper is kept: the wrapper's class name. */
  const ClassNameKey: string := "io.helidon.integrations.jta.jdbc.JTAConnection"

  /** SQLTransientException, SQLSTATE 25000. */
  const InvalidState: SqlException := SqlException(Transient, InvalidTransactionState)
  /** SQLNonTransientException, SQLSTATE 25000. */
  const EnlistedError: SqlException := SqlException(NonTransient, InvalidTransactionState)
  /** SQLNonTransientException, SQLSTATE 40000. */
  const RolledBackError: SqlException := SqlException(NonTransient, TransactionRollback)
  /** SQLNonTransientException, SQLSTATE 3B503. */
  const SavepointError: SqlException := SqlException(NonTransient, SavepointNotAllowed)

  /** How a call into the registry ends: normally, with IllegalStateException, or with another runtime exception. */
  datatype Fault = NoFault | IllegalState | OtherFault

  /** A value kept in the registry's resource map. */
  datatype Resource = XidResource(xid: Xid) | WrapperResource(wrapper: JTAConnection)

  /**
   * What the transaction manager does when the wrapper asks it to enlist
   * the adapter: call start(branch, TMNOFLAGS) on it and return true when
   * start returns (throwing SystemException when start fails), return
   * false without calling it, throw RollbackException, or throw a
   * SystemException or RuntimeException.
   */
  datatype Enlistment = Enlists(branch: Xid) | Declines | RollsBack | Errs

  /** The outcome of a call that raises IllegalArgumentException or IllegalStateException instead of an SQLException. */
  datatype Unchecked = Completes | IllegalArgument | IllegalStateOf(cause: SqlException)

  /**
   * The calling thread's transaction context as the wrapper sees it: the
   * synchronization registry (status, resources, interposed
   * synchronizations) and the transaction manager's current transaction.
   */
  class TransactionContext {
    var status: int
    var statusFault: Fault
    var resources: map<string, Resource>
    var getResourceFault: Fault
    var putResourceFaults: set<string>
    var synchronizations: seq<JTAConnection>
    var registerFails: bool
    /** The manager's current transaction and its status, or null. */
    var transaction: Option<int>
    var getTransactionFails: bool
    var getStatusFails: bool
    var enlistment: Enlistment

    /** No transaction, and no call fails. */
    constructor ()
      ensures status == StatusNoTransaction && statusFault == NoFault
      ensures resources == map[] && getResourceFault == NoFault && putResourceFaults == {}
      ensures synchronizations == [] && !registerFails
      ensures transaction == None && !getTransactionFails && !getStatusFails && enlistment == Declines
    {
      status := StatusNoTransaction;
      statusFault := NoFault;
      resources := map[];
      getResourceFault := NoFault;
      putResourceFaults := {};
      synchronizations := [];
      registerFails := false;
      transaction := None;
      getTransactionFails := false;
      getStatusFails := false;
      enlistment := Declines;
    }

    /** A new active transaction whose manager enlists resources under `branch`. */
    method Begin(branch: Xid)
      modifies this
      ensures status == StatusActive && transaction == Some(StatusActive) && enlistment == Enlists(branch)
      ensures resources == map[] && synchronizations == []
      ensures statusFault == old(statusFault) && getResourceFault == old(getResourceFault)
      ensures putResourceFaults == old(putResourceFaults) && registerFails == old(registerFails)
      ensures getTransactionFails == old(getTransactionFails) && getStatusFails == old(getStatusFails)
    {
      status := StatusActive;
      transaction := Some(StatusActive);
      enlistment := Enlists(branch);
      resources := map[];
      synchronizations := [];
    }

    /**
     * The transaction completes: every registered synchronization runs,
     * then the registry drops its resources and reports the final status.
     */
    method Complete(committed: bool)
      modifies this, set s | s in synchronizations :: s.base
      ensures forall s | s in old(synchronizations) :: s.base.closeable
      ensures status == (if committed then StatusCommitted else StatusRolledBack)
      ensures resources == map[] && synchronizations == [] && transaction == None
      ensures statusFault == old(statusFault) && getResourceFault == old(getResourceFault)
      ensures putResourceFaults == old(putResourceFaults) && registerFails == old(registerFails)
      ensures getTransactionFails == old(getTransactionFails) && getStatusFails == old(getStatusFails)
      ensures enlistment == old(enlistment)
    {
      var registered := synchronizations;
      var i := 0;
      while i < |registered|
        invariant 0 <= i <= |registered|
        invariant forall j | 0 <= j < i :: registered[j].base.closeable
        modifies set s | s in registered :: s.base
      {
        registered[i].SuperSetCloseableTrue();
        i := i + 1;
      }
      status := if committed then StatusCommitted else StatusRolledBack;
      resources := map[];
      synchronizations := [];
      transaction := None;
    }
  }

  class JTAConnection {
    /** The inherited part: closeable flag, strict closed checking and the driver connection. */
    const base: ConditionallyCloseableConnection
    const tx: TransactionContext
    /** The adapter shared by all wrappers; its connection function reads the handoff slot. */
    const xaResource: LocalXa.LocalXAResource

    predicate Valid()
      reads this, base, xaResource
    {
      base.strictClosedChecking && xaResource.Valid()
    }

    /** The wrapper over `delegate`: closeable, with strict closed checking. */
    constructor (tx: TransactionContext, xaResource: LocalXa.LocalXAResource, delegate: Connection)
      requires xaResource.Valid()
      ensures Valid() && fresh(base)
      ensures this.tx == tx && this.xaResource == xaResource
      ensures base.delegate == delegate && base.closeable
    {
      this.tx := tx;
      this.xaResource := xaResource;
      base := new ConditionallyCloseableConnection.WithClosedChecking(delegate, true, true);
    }

    /** The shared handoff slot. */
    function Handoff(): HandoffSlot
    {
      xaResource.connectionFunction
    }

    /** The registry records this wrapper as enlisted. */
    predicate Recorded()
      reads tx
    {
      ClassNameKey in tx.resources && tx.resources[ClassNameKey] == WrapperResource(this)
    }

    /** The connections enlisting may touch: the driver connection, and the branch it might collide with. */
    function EnlistConnections(): set<Connection>
      reads this, tx, xaResource
    {
      {base.delegate} + (if tx.enlistment.Enlists? then xaResource.BranchConnections(Some(tx.enlistment.branch)) else {})
    }

    /** Is the registry's transaction active? A runtime exception from the registry becomes 25000. */
    method ActiveTransaction() returns (r: SqlResult<bool>)
      ensures tx.statusFault != NoFault ==> r == Fail(InvalidState)
      ensures tx.statusFault == NoFault ==> r == Ok(tx.status == StatusActive)
    {
      if tx.statusFault != NoFault {
        return Fail(InvalidState);
      }
      r := Ok(tx.status == StatusActive);
    }

    /** Is the manager's transaction non-null and active? A SystemException from its status becomes 25000. */
    method Active(t: Option<int>) returns (r: SqlResult<bool>)
      ensures t.Some? && tx.getStatusFails ==> r == Fail(InvalidState)
      ensures !(t.Some? && tx.getStatusFails) ==> r == Ok(t == Some(StatusActive))
    {
      if t.None? {
        return Ok(false);
      }
      if tx.getStatusFails {
        return Fail(InvalidState);
      }
      r := Ok(t.value == StatusActive);
    }

    /**
     * Is the registry's transaction active or marked for rollback? An
     * IllegalStateException means no; any other runtime exception becomes 25000.
     */
    method ActiveOrMarkedRollbackTransaction() returns (r: SqlResult<bool>)
      ensures tx.statusFault == OtherFault ==> r == Fail(InvalidState)
      ensures tx.statusFault == IllegalState ==> r == Ok(false)
      ensures tx.statusFault == NoFault ==> r == Ok(tx.status == StatusActive || tx.status == StatusMarkedRollback)
    {
      match tx.statusFault
      case OtherFault => r := Fail(InvalidState);
      case IllegalState => r := Ok(false);
      case NoFault => r := Ok(tx.status == StatusActive || tx.status == StatusMarkedRollback);
    }

    /**
     * The Xid of the branch this thread's transaction enlisted, from the
     * registry; null unless the transaction is active or marked for rollback.
     */
    method CurrentXid() returns (r: SqlResult<Option<Xid>>)
      ensures base.delegate.closed ==> r == Fail(ClosedError)
      ensures !base.delegate.closed && tx.statusFault == OtherFault ==> r == Fail(InvalidState)
      ensures !base.delegate.closed && tx.statusFault == NoFault && tx.status != StatusActive && tx.status != StatusMarkedRollback
        ==> r == Ok(None)
      ensures !base.delegate.closed && tx.statusFault == IllegalState ==> r == Ok(None)
      ensures !base.delegate.closed && tx.statusFault == NoFault && (tx.status == StatusActive || tx.status == StatusMarkedRollback) ==>
        r == (match tx.getResourceFault
              case IllegalState => Ok(None)
              case OtherFault => Fail(InvalidState)
              case NoFault =>
                if XidKey !in tx.resources then Ok(None)
                else if tx.resources[XidKey].XidResource? then Ok(Some(tx.resources[XidKey].xid))
                else Fail(InvalidState))
    {
      var open := base.FailWhenClosed();
      if open.Fail? {
        return Fail(open.error);
      }
      var known := ActiveOrMarkedRollbackTransaction();
      if known.Fail? {
        return Fail(known.error);
      }
      if !known.value {
        return Ok(None);
      }
      match tx.getResourceFault
      case IllegalState =>
        r := Ok(None);
      case OtherFault =>
        r := Fail(InvalidState);
      case NoFault =>
        if XidKey !in tx.resources {
          r := Ok(None);
        } else if tx.resources[XidKey].XidResource? {
          r := Ok(Some(tx.resources[XidKey].xid));
        } else {
          // the cast to Xid fails with a runtime exception
          r := Fail(InvalidState);
        }
    }

    /** The transaction statuses under which the registry's resources are consulted. */
    static predicate Live(status: int) {
      status == StatusActive || status == StatusMarkedRollback
    }

    /**
     * What enlisted() reports: an error, or whether the registry records
     * this wrapper for a transaction that is active or marked for rollback.
     */
    function EnlistedStatus(): (r: SqlResult<bool>)
      reads this, base, base.delegate, tx
      ensures r == Ok(true) <==>
        !base.delegate.closed && tx.statusFault == NoFault && Live(tx.status) && tx.getResourceFault == NoFault && Recorded()
      ensures r.Fail? <==>
        base.delegate.closed || tx.statusFault == OtherFault
        || (tx.statusFault == NoFault && Live(tx.status) && tx.getResourceFault == OtherFault)
      ensures r.Fail? ==> r.error == if base.delegate.closed then ClosedError else InvalidState
    {
      if base.delegate.closed then Fail(ClosedError)
      else if tx.statusFault == OtherFault then Fail(InvalidState)
      else if tx.statusFault == IllegalState || !Live(tx.status) then Ok(false)
      else if tx.getResourceFault == OtherFault then
        assert tx.statusFault == NoFault;
        assert Live(tx.status);
        Fail(InvalidState)
      else Ok(tx.getResourceFault == NoFault && Recorded())
    }

    /** Is this wrapper the one the registry records for the current transaction? */
    method IsEnlisted() returns (r: SqlResult<bool>)
      ensures r == EnlistedStatus()
    {
      var open := base.FailWhenClosed();
      if open.Fail? {
        return Fail(open.error);
      }
      var known := ActiveOrMarkedRollbackTransaction();
      if known.Fail? {
        return Fail(known.error);
      }
      if !known.value {
        return Ok(false);
      }
      match tx.getResourceFault
      case IllegalState => r := Ok(false);
      case OtherFault => r := Fail(InvalidState);
      case NoFault => r := Ok(Recorded());
    }

    /** Every check enlist makes before it involves the manager's enlistResource, in order. */
    function EnlistChecks(): (r: SqlResult<bool>)
      reads this, base, base.delegate, tx
      ensures r == Ok(true) ==>
        !base.delegate.closed && tx.status == StatusActive && (tx.getResourceFault == NoFault ==> !Recorded())
        && base.delegate.autoCommit
        && tx.transaction == Some(StatusActive)
    {
      if base.delegate.closed then Fail(ClosedError)
      else if tx.statusFault != NoFault then Fail(InvalidState)
      else if tx.status != StatusActive then Ok(false)
      else if tx.getResourceFault == OtherFault then Fail(InvalidState)
      else if tx.getResourceFault == NoFault && Recorded() then Ok(false)
      else if base.delegate.faults.getAutoCommit then Fail(DriverFailure)
      else if !base.delegate.autoCommit then Fail(InvalidState)
      else if tx.getTransactionFails then Fail(InvalidState)
      else if tx.transaction.None? then Ok(false)
      else if tx.getStatusFails then Fail(InvalidState)
      else Ok(tx.transaction == Some(StatusActive))
    }

    /** enlist up to the manager's involvement: fails, does nothing, or goes on. */
    method CheckEnlistment() returns (r: SqlResult<bool>)
      requires Valid()
      ensures r == EnlistChecks()
    {
      var open := base.FailWhenClosed();
      if open.Fail? {
        return Fail(open.error);
      }
      var active := ActiveTransaction();
      if active.Fail? {
        return Fail(active.error);
      }
      if !active.value {
        return Ok(false);
      }
      var enlisted := IsEnlisted();
      if enlisted.Fail? {
        return Fail(enlisted.error);
      }
      if enlisted.value {
        return Ok(false);
      }
      var autoCommit := base.GetAutoCommit();
      if autoCommit.Fail? {
        return Fail(autoCommit.error);
      }
      if !autoCommit.value {
        return Fail(InvalidState);
      }
      if tx.getTransactionFails {
        return Fail(InvalidState);
      }
      var t := tx.transaction;
      var usable := Active(t);
      if usable.Fail? {
        return Fail(usable.error);
      }
      r := Ok(usable.value);
    }

    /**
     * The part of enlist done under the handoff lock: put the driver
     * connection in the slot, ask the manager to enlist the adapter (whose
     * start takes the connection from the slot and leaves the Xid there),
     * record the Xid in the registry, and empty the slot on every path.
     */
    method EnlistResource() returns (r: SqlResult<bool>)
      requires Valid()
      modifies tx`resources, xaResource.connectionFunction`slot, xaResource`associations, EnlistConnections()
      ensures Valid()
      ensures Handoff().slot == Empty
      ensures forall c: Connection | c in old(EnlistConnections()) :: c.OnlyAutoCommitChanged()
      ensures tx.enlistment == RollsBack ==> r == Fail(RolledBackError)
      ensures tx.enlistment == Errs ==> r == Fail(InvalidState)
      ensures tx.enlistment == Declines ==> r == Ok(false)
      ensures !tx.enlistment.Enlists? ==>
        tx.resources == old(tx.resources) && xaResource.associations == old(xaResource.associations)
        && unchanged(old(EnlistConnections()))
      ensures tx.enlistment.Enlists? ==>
        var b := tx.enlistment.branch;
        var c := base.delegate;
        if b !in old(xaResource.associations) && !c.faults.getAutoCommit && !(old(c.autoCommit) && c.faults.setAutoCommit) then
          xaResource.associations == old(xaResource.associations)[b := Branch.Association(Branch.Active, b, false, c, old(c.autoCommit))]
          && !c.autoCommit
          && (if XidKey in tx.putResourceFaults then r == Fail(InvalidState) && tx.resources == old(tx.resources)
              else r == Ok(true) && tx.resources == old(tx.resources)[XidKey := XidResource(b)])
        else
          r == Fail(InvalidState) && tx.resources == old(tx.resources)
          && xaResource.associations == old(xaResource.associations) && c.autoCommit == old(c.autoCommit)
    {
      Handoff().slot := HoldsConnection(base.delegate);
      match tx.enlistment {
      case RollsBack =>
        r := Fail(RolledBackError);
      case Errs =>
        r := Fail(InvalidState);
      case Declines =>
        r := Ok(false);
      case Enlists(b) =>
        var started := xaResource.Start(Some(b), TmNoFlags);
        if started.Raise? {
          r := Fail(InvalidState);
        } else {
          match Handoff().slot {
          case HoldsXid(x) =>
            if XidKey in tx.putResourceFaults {
              r := Fail(InvalidState);
            } else {
              tx.resources := tx.resources[XidKey := XidResource(x)];
              r := Ok(true);
            }
          case _ =>
            r := Ok(true);
          }
        }
      }
      Handoff().slot := Empty;
    }

    /**
     * What enlist leaves behind, judged by what its checks found beforehand:
     * a failed check is reported and changes nothing, a passed-over
     * enlistment changes nothing, and an enlistment records the Xid and the
     * wrapper and suspends closeability in that order, stopping at the first
     * registry call that fails; the handoff slot is empty afterwards.
     */
    twostate predicate EnlistEffect(new r: SqlResult<()>)
      reads this, base, base.delegate, tx, xaResource, xaResource.connectionFunction, EnlistConnections()
    {
      EnlistRegistryEffect(r) && EnlistModeEffect()
    }

    /** EnlistEffect on everything but the connections' autocommit modes. */
    twostate predicate EnlistRegistryEffect(new r: SqlResult<()>)
      reads this, base, base.delegate, tx, xaResource, xaResource.connectionFunction
    {
      (old(EnlistChecks()).Fail? ==> r == Fail(old(EnlistChecks()).error))
      && (old(EnlistChecks()) != Ok(true) ==>
        tx.resources == old(tx.resources) && tx.synchronizations == old(tx.synchronizations)
        && Handoff().slot == old(Handoff().slot) && xaResource.associations == old(xaResource.associations)
        && base.closeable == old(base.closeable))
      && (old(EnlistChecks()) == Ok(false) ==> r == Ok(()))
      && (old(EnlistChecks()) == Ok(true) ==> Handoff().slot == Empty)
      && (old(EnlistChecks()) == Ok(true) && tx.enlistment == RollsBack ==> r == Fail(RolledBackError))
      && (old(EnlistChecks()) == Ok(true) && tx.enlistment == Errs ==> r == Fail(InvalidState))
      && (old(EnlistChecks()) == Ok(true) && tx.enlistment == Declines ==> r == Ok(()))
      && (old(EnlistChecks()) == Ok(true) && !tx.enlistment.Enlists? ==>
        tx.resources == old(tx.resources) && tx.synchronizations == old(tx.synchronizations)
        && xaResource.associations == old(xaResource.associations) && base.closeable == old(base.closeable))
      && (old(EnlistChecks()) == Ok(true) && tx.enlistment.Enlists? ==>
        var b := tx.enlistment.branch;
        var c := base.delegate;
        if b in old(xaResource.associations) || c.faults.setAutoCommit || XidKey in tx.putResourceFaults then
          r == Fail(InvalidState) && tx.resources == old(tx.resources) && tx.synchronizations == old(tx.synchronizations)
          && base.closeable == old(base.closeable)
        else
          xaResource.associations == old(xaResource.associations)[b := Branch.Association(Branch.Active, b, false, c, true)]
          && if ClassNameKey in tx.putResourceFaults then
               r == Fail(InvalidState) && tx.resources == old(tx.resources)[XidKey := XidResource(b)]
               && tx.synchronizations == old(tx.synchronizations) && base.closeable == old(base.closeable)
             else
               tx.resources == old(tx.resources)[XidKey := XidResource(b)][ClassNameKey := WrapperResource(this)]
               && if !old(base.closeable) then
                    r == Ok(()) && tx.synchronizations == old(tx.synchronizations) && !base.closeable
                  else if tx.registerFails then
                    r == Fail(InvalidState) && tx.synchronizations == old(tx.synchronizations) && base.closeable
                  else
                    r == Ok(()) && tx.synchronizations == old(tx.synchronizations) + [this] && !base.closeable)
    }

    /**
     * EnlistEffect on the autocommit modes: only a branch the adapter starts
     * switches the driver connection's autocommit off (it was on, or the
     * checks would have failed); every other path leaves the modes alone.
     */
    twostate predicate EnlistModeEffect()
      reads this, base, base.delegate, tx, xaResource, EnlistConnections()
    {
      if old(EnlistChecks()) == Ok(true) && tx.enlistment.Enlists? then
        base.delegate.autoCommit == (tx.enlistment.branch in old(xaResource.associations) || base.delegate.faults.setAutoCommit)
      else
        forall c | c in EnlistConnections() && old(allocated(c)) :: c.autoCommit == old(c.autoCommit)
    }

    /**
     * Enlists this wrapper in the thread's active transaction when it is not
     * enlisted yet; afterwards the registry holds the branch's Xid and this
     * wrapper, and a wrapper that was closeable stays non-closeable until a
     * registered synchronization restores it.
     */
    method Enlist() returns (r: SqlResult<()>)
      requires Valid()
      modifies tx`resources, tx`synchronizations, xaResource.connectionFunction`slot, xaResource`associations, base`closeable, EnlistConnections()
      ensures Valid()
      ensures forall c: Connection | c in old(EnlistConnections()) :: c.OnlyAutoCommitChanged()
      ensures EnlistEffect(r)
      ensures base.delegate.closed == old(base.delegate.closed) && (r.Ok? ==> !base.delegate.closed)
      ensures old(EnlistChecks()) == Ok(true) && tx.enlistment.Enlists? && r.Ok? && tx.getResourceFault == NoFault ==>
        EnlistedStatus() == Ok(true) && EnlistChecks() == Ok(false)
    {
      var proceed := CheckEnlistment();
      if proceed.Fail? {
        return Fail(proceed.error);
      }
      if !proceed.value {
        return Ok(());
      }
      r := EnlistChecked();
    }

    /** enlist once its checks have passed: the manager's enlistment, then the registry. */
    method EnlistChecked() returns (r: SqlResult<()>)
      requires Valid() && EnlistChecks() == Ok(true)
      modifies tx`resources, tx`synchronizations, xaResource.connectionFunction`slot, xaResource`associations, base`closeable, EnlistConnections()
      ensures Valid()
      ensures forall c: Connection | c in old(EnlistConnections()) :: c.OnlyAutoCommitChanged()
      ensures EnlistEffect(r)
      ensures base.delegate.closed == old(base.delegate.closed) && (r.Ok? ==> !base.delegate.closed)
      ensures tx.enlistment.Enlists? && r.Ok? && tx.getResourceFault == NoFault ==>
        EnlistedStatus() == Ok(true) && EnlistChecks() == Ok(false)
    {
      var enlisted := EnlistResource();
      if enlisted.Fail? {
        return Fail(enlisted.error);
      }
      if !enlisted.value {
        return Ok(());
      }
      if ClassNameKey in tx.putResourceFaults {
        return Fail(InvalidState);
      }
      tx.resources := tx.resources[ClassNameKey := WrapperResource(this)];
      var closeable := base.IsCloseable();
      if closeable {
        if tx.registerFails {
          return Fail(InvalidState);
        }
        tx.synchronizations := tx.synchronizations + [this];
        base.SetCloseable(false);
      }
      r := Ok(());
    }

    /** The overrides that do not enlist: unwrap and isWrapperFor. */
    static predicate EnlistsFirst(op: Operation) {
      op != Unwrap && op != IsWrapperFor
    }

    /** The savepoint operations, refused while enlisted. */
    static predicate IsSavepointOperation(op: Operation) {
      op == SetSavepoint || op == RollbackToSavepoint || op == ReleaseSavepoint
    }

    /** unwrap and isWrapperFor: the inherited operation, without enlisting. */
    method PerformWithoutEnlisting(op: Operation) returns (r: SqlResult<()>)
      requires Valid() && !EnlistsFirst(op)
      ensures r == if base.delegate.closed then Fail(ClosedError) else Ok(())
    {
      r := base.Perform(op);
    }

    /**
     * A forwarding override: enlist, then run the inherited operation;
     * setClientInfo rewraps an enlist failure as an SQLClientInfoException
     * with the same SQLSTATE.
     */
    method Perform(op: Operation) returns (r: SqlResult<()>, ghost enlistment: SqlResult<()>)
      requires Valid() && EnlistsFirst(op) && !IsSavepointOperation(op)
      modifies tx`resources, tx`synchronizations, xaResource.connectionFunction`slot, xaResource`associations, base`closeable, EnlistConnections()
      ensures Valid()
      ensures forall c: Connection | c in old(EnlistConnections()) :: c.OnlyAutoCommitChanged()
      ensures EnlistEffect(enlistment)
      ensures enlistment.Fail? ==>
        r == Fail(if op == SetClientInfo then SqlException(ClientInfo, enlistment.error.state) else enlistment.error)
      ensures enlistment.Ok? ==> r == Ok(())
    {
      var enlisting := Enlist();
      enlistment := enlisting;
      if enlisting.Fail? {
        var e := enlisting.error;
        return Fail(if op == SetClientInfo then SqlException(ClientInfo, e.state) else e), enlistment;
      }
      r := base.Perform(op);
    }

    /** setSavepoint, rollback(Savepoint) and releaseSavepoint: enlist, then refuse with 3B503 while enlisted. */
    method PerformSavepoint(op: Operation) returns (r: SqlResult<()>, ghost enlistment: SqlResult<()>)
      requires Valid() && IsSavepointOperation(op)
      modifies tx`resources, tx`synchronizations, xaResource.connectionFunction`slot, xaResource`associations, base`closeable, EnlistConnections()
      ensures Valid()
      ensures forall c: Connection | c in old(EnlistConnections()) :: c.OnlyAutoCommitChanged()
      ensures EnlistEffect(enlistment)
      ensures enlistment.Fail? ==> r == Fail(enlistment.error)
      ensures enlistment.Ok? ==>
        r == match EnlistedStatus()
             case Fail(e) => Fail(e)
             case Ok(enlisted) => if enlisted then Fail(SavepointError) else Ok(())
    {
      var enlisting := Enlist();
      enlistment := enlisting;
      if enlisting.Fail? {
        return Fail(enlisting.error), enlistment;
      }
      var enlisted := IsEnlisted();
      if enlisted.Fail? {
        return Fail(enlisted.error), enlistment;
      }
      if enlisted.value {
        return Fail(SavepointError), enlistment;
      }
      r := base.Perform(op);
    }

    /** Enlists, then refuses to turn autocommit on while enlisted (25000). */
    method SetAutoCommit(on: bool) returns (r: SqlResult<()>, ghost enlistment: SqlResult<()>)
      requires Valid()
      modifies tx`resources, tx`synchronizations, xaResource.connectionFunction`slot, xaResource`associations, base`closeable, EnlistConnections()
      ensures Valid()
      ensures forall c: Connection | c in old(EnlistConnections()) :: c.OnlyAutoCommitChanged()
      ensures enlistment.Fail? ==> r == Fail(enlistment.error) && EnlistEffect(enlistment)
      ensures enlistment.Ok? && on ==>
        match EnlistedStatus()
        case Fail(e) => r == Fail(e) && EnlistEffect(enlistment)
        case Ok(enlisted) => enlisted ==> r == Fail(EnlistedError) && EnlistEffect(enlistment)
      ensures enlistment.Ok? && (!on || EnlistedStatus() == Ok(false)) ==>
        EnlistRegistryEffect(enlistment)
        && (r.Ok? <==> !base.delegate.faults.setAutoCommit)
        && base.delegate.autoCommit == if r.Ok? then on else old(base.delegate.autoCommit)
    {
      var enlisting := Enlist();
      enlistment := enlisting;
      if enlisting.Fail? {
        return Fail(enlisting.error), enlistment;
      }
      if on {
        var enlisted := IsEnlisted();
        if enlisted.Fail? {
          return Fail(enlisted.error), enlistment;
        }
        if enlisted.value {
          return Fail(EnlistedError), enlistment;
        }
      }
      r := base.SetAutoCommit(on);
    }

    /** Enlists, then reads autocommit. */
    method GetAutoCommit() returns (r: SqlResult<bool>, ghost enlistment: SqlResult<()>)
      requires Valid()
      modifies tx`resources, tx`synchronizations, xaResource.connectionFunction`slot, xaResource`associations, base`closeable, EnlistConnections()
      ensures Valid()
      ensures forall c: Connection | c in old(EnlistConnections()) :: c.OnlyAutoCommitChanged()
      ensures EnlistEffect(enlistment)
      ensures enlistment.Fail? ==> r == Fail(enlistment.error)
      ensures enlistment.Ok? ==>
        r == if base.delegate.faults.getAutoCommit then Fail(DriverFailure) else Ok(base.delegate.autoCommit)
    {
      var enlisting := Enlist();
      enlistment := enlisting;
      if enlisting.Fail? {
        return Fail(enlisting.error), enlistment;
      }
      r := base.GetAutoCommit();
    }

    /** Enlists, then refuses a local commit (or rollback) while enlisted (25000). */
    method Complete(commit: bool) returns (r: SqlResult<()>, ghost enlistment: SqlResult<()>)
      requires Valid()
      modifies tx`resources, tx`synchronizations, xaResource.connectionFunction`slot, xaResource`associations, base`closeable, EnlistConnections()
      ensures Valid()
      ensures forall c: Connection | c in old(EnlistConnections()) :: c.closed == old(c.closed)
      ensures EnlistEffect(enlistment)
      ensures enlistment.Fail? || EnlistedStatus() != Ok(false) ==>
        base.delegate.commits == old(base.delegate.commits) && base.delegate.rollbacks == old(base.delegate.rollbacks)
      ensures enlistment.Fail? ==> r == Fail(enlistment.error)
      ensures enlistment.Ok? ==>
        match EnlistedStatus()
        case Fail(e) => r == Fail(e)
        case Ok(enlisted) =>
          if enlisted then r == Fail(EnlistedError)
          else if commit then
            base.delegate.commits == old(base.delegate.commits) + 1 && base.delegate.rollbacks == old(base.delegate.rollbacks)
            && (r.Ok? <==> !base.delegate.faults.commit)
          else
            base.delegate.rollbacks == old(base.delegate.rollbacks) + 1 && base.delegate.commits == old(base.delegate.commits)
            && (r.Ok? <==> !base.delegate.faults.rollback)
    {
      var enlisting := Enlist();
      enlistment := enlisting;
      if enlisting.Fail? {
        return Fail(enlisting.error), enlistment;
      }
      var enlisted := IsEnlisted();
      if enlisted.Fail? {
        return Fail(enlisted.error), enlistment;
      }
      if enlisted.value {
        return Fail(EnlistedError), enlistment;
      }
      if commit {
        r := base.Commit();
      } else {
        r := base.Rollback();
      }
    }

    /** Enlists, then reports whether the connection is still open. */
    method IsValid(timeout: int) returns (r: SqlResult<bool>, ghost enlistment: SqlResult<()>)
      requires Valid()
      modifies tx`resources, tx`synchronizations, xaResource.connectionFunction`slot, xaResource`associations, base`closeable, EnlistConnections()
      ensures Valid()
      ensures forall c: Connection | c in old(EnlistConnections()) :: c.OnlyAutoCommitChanged()
      ensures EnlistEffect(enlistment)
      ensures r == if enlistment.Fail? then Fail(enlistment.error) else Ok(true)
    {
      var enlisting := Enlist();
      enlistment := enlisting;
      if enlisting.Fail? {
        return Fail(enlisting.error), enlistment;
      }
      var valid := base.IsValid(timeout);
      r := Ok(valid);
    }

    /** beginRequest and endRequest: enlist, then forward without a closed check. */
    method Request() returns (r: SqlResult<()>)
      requires Valid()
      modifies tx`resources, tx`synchronizations, xaResource.connectionFunction`slot, xaResource`associations, base`closeable, EnlistConnections()
      ensures Valid()
      ensures forall c: Connection | c in old(EnlistConnections()) :: c.OnlyAutoCommitChanged()
      ensures EnlistEffect(r)
    {
      r := Enlist();
      if r.Fail? {
        return;
      }
      r := base.Request();
    }

    /** Forwarded; no enlistment and no closed check. */
    method IsClosed() returns (r: bool)
      ensures r == base.delegate.closed
    {
      r := base.IsClosed();
    }

    /**
     * Closeable when the inherited flag says so and the wrapper is not
     * enlisted; asking neither enlists nor checks for closure.
     */
    method IsCloseable() returns (r: SqlResult<bool>)
      ensures !base.closeable || base.delegate.closed ==> r == Ok(false)
      ensures base.closeable && !base.delegate.closed ==>
        r == match EnlistedStatus() case Fail(e) => Fail(e) case Ok(enlisted) => Ok(!enlisted)
    {
      var closeable := base.IsCloseable();
      if !closeable {
        return Ok(false);
      }
      var enlisted := IsEnlisted();
      if enlisted.Fail? {
        return Fail(enlisted.error);
      }
      r := Ok(!enlisted.value);
    }

    /**
     * Setting the flag to true is refused with IllegalArgumentException
     * while enlisted, and with IllegalStateException when asking whether the
     * wrapper is enlisted fails; clearing it always succeeds.
     */
    method SetCloseable(closeable: bool) returns (r: Unchecked)
      modifies base`closeable
      ensures !closeable ==> r == Completes
      ensures closeable ==>
        r == match old(EnlistedStatus())
             case Fail(e) => IllegalStateOf(e)
             case Ok(enlisted) => if enlisted then IllegalArgument else Completes
      ensures base.closeable == if r == Completes then closeable else old(base.closeable)
    {
      if closeable {
        var enlisted := IsEnlisted();
        if enlisted.Fail? {
          return IllegalStateOf(enlisted.error);
        }
        if enlisted.value {
          return IllegalArgument;
        }
      }
      base.SetCloseable(closeable);
      r := Completes;
    }

    /** The inherited close, which asks this wrapper's isCloseable. */
    method Close() returns (r: SqlResult<()>)
      modifies base.delegate`closed
      ensures !old(base.closeable) || old(base.delegate.closed) ==> r == Ok(()) && base.delegate.closed == old(base.delegate.closed)
      ensures old(base.closeable) && !old(base.delegate.closed) ==>
        match old(EnlistedStatus())
        case Fail(e) => r == Fail(e) && !base.delegate.closed
        case Ok(enlisted) => r == Ok(()) && base.delegate.closed == !enlisted
    {
      var closeable := IsCloseable();
      if closeable.Fail? {
        return Fail(closeable.error);
      }
      if closeable.value {
        base.delegate.Close();
      }
      r := Ok(());
    }

    /**
     * Makes the wrapper closeable (which fails while enlisted) and then
     * closes the driver connection; no enlistment.
     */
    method Abort() returns (r: Unchecked)
      modifies base`closeable, base.delegate`closed
      ensures r == match old(EnlistedStatus())
                   case Fail(e) => IllegalStateOf(e)
                   case Ok(enlisted) => if enlisted then IllegalArgument else Completes
      ensures r == Completes ==> base.closeable && base.delegate.closed
      ensures r != Completes ==> base.closeable == old(base.closeable) && base.delegate.closed == old(base.delegate.closed)
    {
      r := SetCloseable(true);
      if r != Completes {
        return;
      }
      base.Abort();
    }

    /** The synchronization enlist registers: after completion the wrapper is closeable again. */
    method SuperSetCloseableTrue()
      modifies base`closeable
      ensures base.closeable
    {
      base.SetCloseable(true);
    }
  }
  /** A transaction context in which the manager enlists under `b` and nothing fails. */
  predicate Untroubled(tx: TransactionContext, b: Xid)
    reads tx
  {
    tx.statusFault == NoFault && tx.getResourceFault == NoFault && tx.putResourceFaults == {} && !tx.registerFails
    && !tx.getTransactionFails && !tx.getStatusFails && tx.enlistment == Enlists(b)
  }

  /**
   * Before its first operation in a new transaction the wrapper has no Xid,
   * is closeable and is open; getHoldability then enlists it: the registry
   * holds the Xid and the wrapper, one synchronization is registered, the
   * branch is active on the driver connection, autocommit is off and the
   * wrapper is no longer closeable.
   */
  method FirstUse(w: JTAConnection, b: Xid) returns (xid: SqlResult<Option<Xid>>, closeable: SqlResult<bool>, closed: bool)
    requires w.Valid() && w.base.closeable && Untroubled(w.tx, b)
    requires b !in w.xaResource.associations && w.Handoff().slot == Empty
    requires w.base.delegate.faults == NoFaults && w.base.delegate.autoCommit && !w.base.delegate.closed
    requires w.tx.status == StatusActive && w.tx.transaction == Some(StatusActive)
    requires w.tx.resources == map[] && w.tx.synchronizations == []
    modifies w.tx`resources, w.tx`synchronizations, w.Handoff()`slot, w.xaResource`associations, w.base`closeable, w.base.delegate
    ensures xid == Ok(None) && closeable == Ok(true) && !closed
    ensures w.Valid() && w.tx.resources == map[XidKey := XidResource(b), ClassNameKey := WrapperResource(w)]
    ensures w.tx.synchronizations == [w] && !w.base.closeable && w.Handoff().slot == Empty
    ensures w.xaResource.associations == old(w.xaResource.associations)[b := Branch.Association(Branch.Active, b, false, w.base.delegate, true)]
    ensures !w.base.delegate.autoCommit && w.base.delegate.OnlyAutoCommitChanged()
  {
    xid := w.CurrentXid();
    closeable := w.IsCloseable();
    closed := w.IsClosed();
    assert w.EnlistChecks() == Ok(true);
    var holdability, enlistment := w.Perform(GetHoldability);
    assert XidKey != ClassNameKey;
  }

  /**
   * While enlisted the wrapper reports the branch's Xid, is not closeable,
   * survives close(), and reports the same Xid again.
   */
  method WhileEnlisted(w: JTAConnection, b: Xid)
    returns (xid: SqlResult<Option<Xid>>, closeable: SqlResult<bool>, closed: bool, xidAgain: SqlResult<Option<Xid>>)
    requires Untroubled(w.tx, b) && w.tx.status == StatusActive && !w.base.delegate.closed
    requires w.tx.resources == map[XidKey := XidResource(b), ClassNameKey := WrapperResource(w)]
    modifies w.base.delegate`closed
    ensures xid == Ok(Some(b)) && closeable == Ok(false) && !closed && xidAgain == xid
    ensures !w.base.delegate.closed
  {
    xid := w.CurrentXid();
    closeable := w.IsCloseable();
    var closing := w.Close();
    closed := w.IsClosed();
    xidAgain := w.CurrentXid();
  }

  /**
   * Once the transaction has completed, the wrapper has no Xid, is
   * closeable again, and close() closes it.
   */
  method AfterCompletion(w: JTAConnection) returns (xid: SqlResult<Option<Xid>>, closeable: SqlResult<bool>, closed: bool)
    requires w.tx.statusFault == NoFault && w.tx.status == StatusCommitted && w.tx.resources == map[]
    requires w.base.closeable && !w.base.delegate.closed
    modifies w.base.delegate`closed
    ensures xid == Ok(None) && closeable == Ok(true) && closed
  {
    xid := w.CurrentXid();
    closeable := w.IsCloseable();
    var closing := w.Close();
    closed := w.IsClosed();
  }

  /**
   * One wrapper across one committed transaction in which nothing fails:
   * the observations of FirstUse, WhileEnlisted and AfterCompletion with
   * the manager ending and committing the branch and completing the
   * transaction in between. The driver connection ends with one commit and
   * the adapter forgets the branch; autocommit is left off as written and
   * back on with the corrected adapter, which the observations do not show.
   */
  method CommittedTransaction(tx: TransactionContext, xaResource: LocalXa.LocalXAResource, delegate: Connection, b: Xid)
    returns (w: JTAConnection, xids: seq<SqlResult<Option<Xid>>>, closeable: seq<SqlResult<bool>>, closed: seq<bool>)
    requires xaResource.Valid() && b !in xaResource.associations && xaResource.connectionFunction.slot == Empty
    requires delegate.faults == NoFaults && delegate.autoCommit && !delegate.closed
    requires Untroubled(tx, b) && tx.status == StatusActive && tx.transaction == Some(StatusActive)
    requires tx.resources == map[] && tx.synchronizations == []
    modifies tx, xaResource, xaResource.connectionFunction, delegate
    ensures fresh(w) && w.base.delegate == delegate
    ensures xids == [Ok(None), Ok(Some(b)), Ok(Some(b)), Ok(None)]
    ensures closeable == [Ok(true), Ok(false), Ok(true)]
    ensures closed == [false, false, true]
    ensures delegate.autoCommit == xaResource.corrected && delegate.commits == old(delegate.commits) + 1
    ensures xaResource.associations == old(xaResource.associations)
    ensures xaResource.connectionFunction.slot == Empty
  {
    w := new JTAConnection(tx, xaResource, delegate);
    var xid0, closeable0, closed0 := FirstUse(w, b);
    var xid1, closeable1, closed1, xid2 := WhileEnlisted(w, b);
    var ended, committed := LocalXa.ManagerCommits(xaResource, b, delegate);
    tx.Complete(true);
    var xid3, closeable3, closed3 := AfterCompletion(w);
    xids := [xid0, xid1, xid2, xid3];
    closeable := [closeable0, closeable1, closeable3];
    closed := [closed0, closed1, closed3];
  }

  /**
   * The wrapper's first transaction, used and then committed by the
   * manager, without the wrapper being closed: the wrapper is closeable and
   * open again, the adapter has forgotten the branch, the handoff slot is
   * empty, and autocommit is off as written and on in the corrected variant.
   */
  method FirstCommitted(w: JTAConnection, b: Xid)
    requires w.Valid() && w.base.closeable && Untroubled(w.tx, b)
    requires b !in w.xaResource.associations && w.Handoff().slot == Empty
    requires w.base.delegate.faults == NoFaults && w.base.delegate.autoCommit && !w.base.delegate.closed
    requires w.tx.status == StatusActive && w.tx.transaction == Some(StatusActive)
    requires w.tx.resources == map[] && w.tx.synchronizations == []
    modifies w.tx, w.base, w.xaResource, w.Handoff(), w.base.delegate
    ensures w.Valid() && w.base.closeable && !w.base.delegate.closed
    ensures w.base.delegate.autoCommit == w.xaResource.corrected
    ensures w.xaResource.associations == old(w.xaResource.associations) && w.Handoff().slot == Empty
    ensures w.tx.statusFault == NoFault && w.tx.getResourceFault == NoFault && w.tx.putResourceFaults == {}
    ensures !w.tx.registerFails && !w.tx.getTransactionFails && !w.tx.getStatusFails
  {
    var xid, closeable, closed := FirstUse(w, b);
    var ended, committed := LocalXa.ManagerCommits(w.xaResource, b, w.base.delegate);
    w.tx.Complete(true);
  }

  /**
   * The same wrapper in the thread's next transaction, after the first one
   * committed (without the wrapper being closed). As written the first
   * branch left autocommit off, so enlisting in the next branch fails its
   * autocommit check with 25000; with the corrected adapter it succeeds.
   */
  method NextTransaction(w: JTAConnection, b: Xid, next: Xid) returns (r: SqlResult<()>)
    requires w.Valid() && w.base.closeable && Untroubled(w.tx, b)
    requires b !in w.xaResource.associations && next !in w.xaResource.associations
    requires w.Handoff().slot == Empty
    requires w.base.delegate.faults == NoFaults && w.base.delegate.autoCommit && !w.base.delegate.closed
    requires w.tx.status == StatusActive && w.tx.transaction == Some(StatusActive)
    requires w.tx.resources == map[] && w.tx.synchronizations == []
    modifies w.tx, w.base, w.xaResource, w.Handoff(), w.base.delegate
    ensures r == if w.xaResource.corrected then Ok(()) else Fail(InvalidState)
  {
    FirstCommitted(w, b);
    w.tx.Begin(next);
    assert !w.Recorded();
    assert w.EnlistChecks() == if w.xaResource.corrected then Ok(true) else Fail(InvalidState);
    r := w.Enlist();
  }
}
