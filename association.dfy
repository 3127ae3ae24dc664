/**
 * The per-branch record of the local XA resource adapter: its branch state
 * (XA table 6-4), its association state (XA table 6-2: not associated,
 * associated, suspended), the connection doing the work and the autocommit
 * mode reset will restore, meant to be the one that connection had before
 * the branch began. Transitions build new
 * records; building a record talks to the connection.
 */
module Branch {
  import opened Wrappers
  import opened Xa
  import opened Jdbc

  /** Branch states S0 to S5. */
  datatype BranchState =
    | NonExistentTransaction  // S0
    | Active                  // S1
    | Idle                    // S2
    | Prepared                // S3
    | RollbackOnly            // S4
    | HeuristicallyCompleted  // S5

  datatype Association = Association(
    branchState: BranchState,
    xid: Xid,
    suspended: bool,
    connection: Connection,
    priorAutoCommit: bool)
  {
    /** The record's own check: an association can be suspended (T2) only while the branch is idle (S2). */
    predicate Valid() {
      suspended ==> branchState == Idle
    }
  }

  /** Same branch, same connection, same remembered autocommit mode. */
  predicate SameBranch(a: Association, b: Association) {
    a.xid == b.xid && a.connection == b.connection && a.priorAutoCommit == b.priorAutoCommit
  }

  /** The runtime exceptions a remapping function can throw, before they are turned into XA error codes. */
  datatype Thrown =
    | UncheckedXa(code: int)  // wraps an XAException carrying this code
    | IllegalTransition       // a transition refused the current state
    | UncheckedSql            // wraps an SQLException from the driver
    | OtherRuntime            // any other RuntimeException: a null dereference, a failed cast, a record check

  /** What a remapping function hands back to the registry's atomic compute. */
  datatype Step =
    | Keep(kept: Association)      // the record itself
    | Rebuild(next: Association)   // a new record with these components, still to be constructed
    | Remove                       // null: the entry goes away
    | Throw(thrown: Thrown)

  /** The outcome of constructing a record. */
  datatype Attempt = Built(record: Association) | Refused(thrown: Thrown)

  // ----- Transitions: pure, they only choose the next record's components. -----

  /** end(TMSUCCESS) or end(TMFAIL): S1 to S2 while associated. */
  function ActiveToIdle(a: Association): (r: Step)
    ensures r.Rebuild? <==> !a.suspended && a.branchState == Active
    ensures r.Rebuild? ==> SameBranch(a, r.next) && r.next.branchState == Idle && !r.next.suspended
    ensures !r.Rebuild? ==> r == Throw(IllegalTransition)
  {
    if !a.suspended && a.branchState == Active then Rebuild(a.(branchState := Idle))
    else Throw(IllegalTransition)
  }

  /** start(TMJOIN) on an idle branch: S2 to S1 while associated. */
  function IdleToActive(a: Association): (r: Step)
    ensures r.Rebuild? <==> !a.suspended && a.branchState == Idle
    ensures r.Rebuild? ==> SameBranch(a, r.next) && r.next.branchState == Active && !r.next.suspended
    ensures !r.Rebuild? ==> r == Throw(IllegalTransition)
  {
    if !a.suspended && a.branchState == Idle then Rebuild(a.(branchState := Active))
    else Throw(IllegalTransition)
  }

  /** end(TMSUSPEND): S1 to S2 and T1 to T2. */
  function Suspend(a: Association): (r: Step)
    ensures r.Rebuild? <==> !a.suspended && a.branchState == Active
    ensures r.Rebuild? ==> SameBranch(a, r.next) && r.next.branchState == Idle && r.next.suspended
    ensures !r.Rebuild? ==> r == Throw(IllegalTransition)
  {
    if !a.suspended && a.branchState == Active then Rebuild(a.(branchState := Idle, suspended := true))
    else Throw(IllegalTransition)
  }

  /** start(TMRESUME): S2 to S1 and T2 to T1. */
  function Resume(a: Association): (r: Step)
    ensures r.Rebuild? <==> a.suspended && a.branchState == Idle
    ensures r.Rebuild? ==> SameBranch(a, r.next) && r.next.branchState == Active && !r.next.suspended
    ensures !r.Rebuild? ==> r == Throw(IllegalTransition)
  {
    if a.suspended && a.branchState == Idle then Rebuild(a.(branchState := Active, suspended := false))
    else Throw(IllegalTransition)
  }

  /** S1 to S4 while associated; nothing in the adapter calls it. */
  function ActiveToRollbackOnly(a: Association): (r: Step)
    ensures r.Rebuild? <==> !a.suspended && a.branchState == Active
    ensures r.Rebuild? ==> SameBranch(a, r.next) && r.next.branchState == RollbackOnly && !r.next.suspended
    ensures !r.Rebuild? ==> r == Throw(IllegalTransition)
  {
    if !a.suspended && a.branchState == Active then Rebuild(a.(branchState := RollbackOnly))
    else Throw(IllegalTransition)
  }

  /** S2 to S4 while associated; nothing in the adapter calls it. */
  function IdleToRollbackOnly(a: Association): (r: Step)
    ensures r.Rebuild? <==> !a.suspended && a.branchState == Idle
    ensures r.Rebuild? ==> SameBranch(a, r.next) && r.next.branchState == RollbackOnly && !r.next.suspended
    ensures !r.Rebuild? ==> r == Throw(IllegalTransition)
  {
    if !a.suspended && a.branchState == Idle then Rebuild(a.(branchState := RollbackOnly))
    else Throw(IllegalTransition)
  }

  /**
   * Every record a transition asks for passes the constructor's own check.
   * This gathers what the transitions' contracts already say; it needs no
   * proof of its own.
   */
  lemma TransitionsKeepValid(a: Association)
    ensures ActiveToIdle(a).Rebuild? ==> ActiveToIdle(a).next.Valid()
    ensures IdleToActive(a).Rebuild? ==> IdleToActive(a).next.Valid()
    ensures Suspend(a).Rebuild? ==> Suspend(a).next.Valid()
    ensures Resume(a).Rebuild? ==> Resume(a).next.Valid()
    ensures ActiveToRollbackOnly(a).Rebuild? ==> ActiveToRollbackOnly(a).next.Valid()
    ensures IdleToRollbackOnly(a).Rebuild? ==> IdleToRollbackOnly(a).next.Valid()
  {
  }

  // ----- Construction and reset: these talk to the connection. -----

  /** Whether the constructor builds `a` when the connection's autocommit mode is `autoCommit`. */
  predicate Constructs(a: Association, autoCommit: bool) {
    a.Valid() && !a.connection.faults.getAutoCommit && !(autoCommit && a.connection.faults.setAutoCommit)
  }

  /**
   * The record's constructor. It refuses a suspended record outside S2,
   * reads the connection's autocommit mode and switches autocommit off if
   * it was on. As written (corrected false) the mode just read replaces
   * the priorAutoCommit component it was given; corrected, the given
   * component is kept, which carries the mode of the branch's start through
   * to its end as the transitions, passing it along, intend.
   */
  method Construct(a: Association, corrected: bool) returns (r: Attempt)
    modifies a.connection`autoCommit
    ensures r.Built? <==> Constructs(a, old(a.connection.autoCommit))
    ensures r.Built? ==> r.record == a.(priorAutoCommit := if corrected then a.priorAutoCommit else old(a.connection.autoCommit))
    ensures r.Built? ==> !a.connection.autoCommit
    ensures r.Refused? ==> a.connection.autoCommit == old(a.connection.autoCommit)
    ensures r.Refused? ==> r.thrown == if a.Valid() then UncheckedSql else OtherRuntime
  {
    if !a.Valid() {
      return Refused(OtherRuntime);
    }
    var current := a.connection.GetAutoCommit();
    if current.Fail? {
      return Refused(UncheckedSql);
    }
    if current.value {
      var off := a.connection.SetAutoCommit(false);
      if off.Fail? {
        return Refused(UncheckedSql);
      }
    }
    r := Built(a.(priorAutoCommit := if corrected then a.priorAutoCommit else current.value));
  }

  /** Whether reset throws: restoring the mode fails, or, as written, the constructor's read of it does. */
  predicate ResetFails(c: Connection, corrected: bool) {
    c.faults.setAutoCommit || (!corrected && c.faults.getAutoCommit)
  }

  /**
   * The connection's autocommit mode after reset, from the mode `before` it.
   * As written the constructor that builds the S0 record switches autocommit
   * off again once it has been restored; corrected, the restored mode stays.
   */
  function AutoCommitAfterReset(a: Association, before: bool, corrected: bool): bool {
    if a.connection.faults.setAutoCommit then before
    else if corrected || a.connection.faults.getAutoCommit then a.priorAutoCommit
    else false
  }

  /**
   * Ends the branch: puts the connection back into the autocommit mode the
   * record remembers and yields the S0 record. As written (corrected false)
   * the S0 record is built by the constructor, which reads the mode just
   * restored and switches autocommit off again; corrected, the record is
   * built without touching the connection.
   */
  method Reset(a: Association, corrected: bool) returns (r: SqlResult<Association>)
    modifies a.connection`autoCommit
    ensures r.Fail? <==> ResetFails(a.connection, corrected)
    ensures r.Ok? ==> r.value == Association(NonExistentTransaction, a.xid, false, a.connection, a.priorAutoCommit)
    ensures a.connection.autoCommit == AutoCommitAfterReset(a, old(a.connection.autoCommit), corrected)
  {
    var restored := a.connection.SetAutoCommit(a.priorAutoCommit);
    if restored.Fail? {
      return Fail(restored.error);
    }
    var s0 := Association(NonExistentTransaction, a.xid, false, a.connection, a.priorAutoCommit);
    if corrected {
      return Ok(s0);
    }
    var made := Construct(s0, false);
    if made.Refused? {
      return Fail(DriverFailure);
    }
    r := Ok(made.record);
  }

  /** The driver calls whose failures runAndReset chains together, in call order. */
  datatype ConnectionCall = CommitCall | RollbackCall | ResetCall

  /**
   * Runs commit (falling back to rollback when commit fails) or rollback,
   * then resets the record whatever happened. Every SQLException is kept,
   * the first one thrown and the later ones chained to it in call order;
   * the constructor's unchecked exception during reset is not an
   * SQLException and is not chained, but the call still fails.
   */
  method RunAndReset(a: Association, commit: bool, corrected: bool) returns (r: SqlResult<Association>, chain: seq<ConnectionCall>)
    modifies a.connection`commits, a.connection`rollbacks, a.connection`autoCommit
    ensures a.connection.commits == old(a.connection.commits) + (if commit then 1 else 0)
    ensures a.connection.rollbacks == old(a.connection.rollbacks) + (if !commit || a.connection.faults.commit then 1 else 0)
    ensures chain ==
      (if commit && a.connection.faults.commit then [CommitCall] else []) +
      (if (!commit || a.connection.faults.commit) && a.connection.faults.rollback then [RollbackCall] else []) +
      (if a.connection.faults.setAutoCommit then [ResetCall] else [])
    ensures r.Fail? <==> chain != [] || ResetFails(a.connection, corrected)
    ensures r.Ok? ==> r.value == Association(NonExistentTransaction, a.xid, false, a.connection, a.priorAutoCommit)
    ensures a.connection.autoCommit == AutoCommitAfterReset(a, old(a.connection.autoCommit), corrected)
  {
    var c := a.connection;
    chain := [];
    var ran;
    if commit {
      ran := c.Commit();
      if ran.Fail? {
        chain := [CommitCall];
        var fallback := c.Rollback();
        if fallback.Fail? {
          chain := chain + [RollbackCall];
        }
      }
    } else {
      ran := c.Rollback();
      if ran.Fail? {
        chain := [RollbackCall];
      }
    }
    var reset := Reset(a, corrected);
    if reset.Fail? && c.faults.setAutoCommit {
      chain := chain + [ResetCall];
    }
    if chain == [] {
      r := reset;
    } else {
      r := Fail(DriverFailure);
    }
  }
}
