/**
 * The XA resource adapter over plain JDBC connections. It keeps one record
 * per transaction branch in a registry keyed by Xid; every XAResource call
 * checks its arguments, then performs one atomic compute on that Xid whose
 * remapping function keeps, replaces or removes the record or throws, and
 * finally turns what was thrown into an XAException code.
 */
module LocalXa {
  import opened Wrappers
  import opened Xa
  import Jdbc
  import opened Branch
  import opened Handoff

  /** The branch states each completion call accepts. */
  const PrepareStates: set<BranchState> := {Idle}
  const CommitStates: set<BranchState> := {Idle, Prepared}
  const RollbackStates: set<BranchState> := {Idle, Prepared, RollbackOnly}
  const ForgetStates: set<BranchState> := {HeuristicallyCompleted}

  /** The remapping function start picks from its flags. */
  datatype StartRemapping = JoinBranch | StartBranch | ResumeBranch

  function StartRemappingFor(flags: int): (m: Option<StartRemapping>)
    ensures m == Some(JoinBranch) <==> flags == TmJoin
    ensures m == Some(StartBranch) <==> flags == TmNoFlags
    ensures m == Some(ResumeBranch) <==> flags == TmResume
    ensures m.None? <==> flags != TmJoin && flags != TmNoFlags && flags != TmResume
  {
    if flags == TmJoin then Some(JoinBranch)
    else if flags == TmNoFlags then Some(StartBranch)
    else if flags == TmResume then Some(ResumeBranch)
    else None
  }

  /** The remapping function end picks from its flags. */
  datatype EndRemapping = Dissociate | SuspendBranch

  function EndRemappingFor(flags: int): (m: Option<EndRemapping>)
    ensures m == Some(Dissociate) <==> flags == TmFail || flags == TmSuccess
    ensures m == Some(SuspendBranch) <==> flags == TmSuspend
    ensures m.None? <==> flags != TmFail && flags != TmSuccess && flags != TmSuspend
  {
    if flags == TmFail || flags == TmSuccess then Some(Dissociate)
    else if flags == TmSuspend then Some(SuspendBranch)
    else None
  }

  /** start(TMJOIN)'s remapping function. */
  function Join(a: Option<Association>): (r: Step)
    ensures a.None? ==> r == Throw(UncheckedXa(XaerProto))
    ensures a.Some? && a.value.suspended ==> r == Throw(UncheckedXa(XaerProto))
    ensures a.Some? && !a.value.suspended && a.value.branchState == Active ==> r == Keep(a.value)
    ensures a.Some? && !a.value.suspended && a.value.branchState == Idle ==>
      r.Rebuild? && SameBranch(a.value, r.next) && r.next.branchState == Active && !r.next.suspended
    ensures a.Some? && !a.value.suspended && a.value.branchState != Active && a.value.branchState != Idle ==>
      r == Throw(IllegalTransition)
  {
    match a
    case None => Throw(UncheckedXa(XaerProto))
    case Some(b) =>
      if b.suspended then Throw(UncheckedXa(XaerProto))
      else if b.branchState == Active then Keep(b)
      else if b.branchState == Idle then IdleToActive(b)
      else Throw(IllegalTransition)
  }

  /** start(TMRESUME)'s remapping function. */
  function ResumeStep(a: Option<Association>): (r: Step)
    ensures a.None? ==> r == Throw(UncheckedXa(XaerNota))
    ensures a.Some? && a.value.suspended && a.value.branchState == Idle ==>
      r.Rebuild? && SameBranch(a.value, r.next) && r.next.branchState == Active && !r.next.suspended
    ensures a.Some? && !(a.value.suspended && a.value.branchState == Idle) ==> r == Throw(IllegalTransition)
  {
    match a
    case None => Throw(UncheckedXa(XaerNota))
    case Some(b) => Resume(b)
  }

  /** end's remapping functions; an absent record is dereferenced and throws. */
  function EndStep(m: EndRemapping, a: Option<Association>): (r: Step)
    ensures a.None? ==> r == Throw(OtherRuntime)
    ensures a.Some? && !a.value.suspended && a.value.branchState == Active ==>
      r.Rebuild? && SameBranch(a.value, r.next) && r.next.branchState == Idle && r.next.suspended == (m == SuspendBranch)
    ensures a.Some? && !(!a.value.suspended && a.value.branchState == Active) ==> r == Throw(IllegalTransition)
  {
    match a
    case None => Throw(OtherRuntime)
    case Some(b) =>
      match m
      case Dissociate => ActiveToIdle(b)
      case SuspendBranch => Suspend(b)
  }

  /** start and end: the code of a wrapped XAException, XAER_RMERR for anything else. */
  function StartEndCode(t: Thrown): int {
    if t.UncheckedXa? then t.code else XaerRmErr
  }

  /** computeAssociation: the code of a wrapped XAException, XAER_PROTO for an illegal transition, XAER_RMERR otherwise. */
  function ComputeCode(t: Thrown): int {
    match t
    case UncheckedXa(code) => code
    case IllegalTransition => XaerProto
    case _ => XaerRmErr
  }

  /**
   * The same refused transition is reported differently by start/end and
   * by the completion calls. This reads the two classifications side by
   * side; it needs no proof of its own.
   */
  lemma IllegalTransitionCodes()
    ensures StartEndCode(IllegalTransition) == XaerRmErr
    ensures ComputeCode(IllegalTransition) == XaerProto
    ensures forall code :: StartEndCode(UncheckedXa(code)) == code == ComputeCode(UncheckedXa(code))
  {
  }

  /**
   * The checks computeAssociation's remapping function makes before it
   * applies its operator; None means the operator is applied.
   */
  function RemapCheck(a: Option<Association>, legal: set<BranchState>): (r: Option<Thrown>)
    ensures r.None? <==> a.Some? && a.value.branchState in legal
    ensures a.None? ==> r == Some(UncheckedXa(XaerNota))
    ensures a.Some? && a.value.branchState !in legal ==> r == Some(UncheckedXa(XaerProto))
  {
    match a
    case None => Some(UncheckedXa(XaerNota))
    case Some(b) => if b.branchState in legal then None else Some(UncheckedXa(XaerProto))
  }

  /** A record the registry can hold: filed under its own Xid, passing its own check, and S1 or S2. */
  predicate Reachable(x: Xid, a: Association) {
    a.xid == x && a.Valid() && (a.branchState == Active || a.branchState == Idle)
  }

  /** A start or end call on an existing branch, by the remapping function it picks. */
  datatype BranchCall = JoinCall | ResumeCall | EndCall(m: EndRemapping)

  /** The step a start or end call takes on the branch's record. */
  function CallStep(call: BranchCall, a: Association): Step {
    match call
    case JoinCall => Join(Some(a))
    case ResumeCall => ResumeStep(Some(a))
    case EndCall(m) => EndStep(m, Some(a))
  }

  /** A start or end call, with the autocommit mode the connection is in when the call comes. */
  datatype ModeCall = ModeCall(call: BranchCall, autoCommit: bool)

  /**
   * The record after a step whose construction succeeds on a connection in
   * mode `autoCommit`; a thrown step leaves it as it was. As written a
   * rebuild remembers the mode the constructor reads; corrected, it keeps
   * the mode the record already remembered.
   */
  function After(a: Association, step: Step, autoCommit: bool, corrected: bool): Association {
    match step
    case Keep(k) => k
    case Rebuild(n) => if corrected then n else n.(priorAutoCommit := autoCommit)
    case _ => a
  }

  /** The record after a series of start and end calls on its branch. */
  function Trace(a: Association, calls: seq<ModeCall>, corrected: bool): Association
    decreases |calls|
  {
    if calls == [] then a
    else Trace(After(a, CallStep(calls[0].call, a), calls[0].autoCommit, corrected), calls[1..], corrected)
  }

  /**
   * No series of start and end calls takes a record out of what the
   * registry can hold, or changes its Xid or its connection. The
   * autocommit mode it will restore is, corrected, the one it started
   * with; as written it is that one or the mode the connection was in at
   * one of the calls.
   */
  lemma {:induction false} TraceStaysReachable(x: Xid, a: Association, calls: seq<ModeCall>, corrected: bool)
    requires Reachable(x, a)
    ensures var t := Trace(a, calls, corrected);
      Reachable(x, t) && t.xid == a.xid && t.connection == a.connection
      && (corrected ==> t.priorAutoCommit == a.priorAutoCommit)
      && (t.priorAutoCommit == a.priorAutoCommit || exists i | 0 <= i < |calls| :: t.priorAutoCommit == calls[i].autoCommit)
    decreases |calls|
  {
    if calls != [] {
      var next := After(a, CallStep(calls[0].call, a), calls[0].autoCommit, corrected);
      assert Reachable(x, next) && next.xid == a.xid && next.connection == a.connection;
      assert next.priorAutoCommit == a.priorAutoCommit || next.priorAutoCommit == calls[0].autoCommit;
      assert corrected ==> next.priorAutoCommit == a.priorAutoCommit;
      TraceStaysReachable(x, next, calls[1..], corrected);
      var t := Trace(next, calls[1..], corrected);
      if t.priorAutoCommit != a.priorAutoCommit && t.priorAutoCommit != next.priorAutoCommit {
        var i :| 0 <= i < |calls[1..]| && t.priorAutoCommit == calls[1..][i].autoCommit;
        assert calls[1..][i] == calls[i + 1];
      }
    }
  }

  /** The connections a step may construct a record on. */
  function StepConnections(step: Step): set<Jdbc.Connection> {
    if step.Rebuild? then {step.next.connection} else {}
  }

  class LocalXAResource {
    /** The registry: one record per branch. */
    var associations: map<Xid, Association>
    /** Supplies the connection of a new branch. */
    const connectionFunction: HandoffSlot
    /**
     * False: the adapter as written, where every record the constructor
     * builds remembers the mode it reads, so a branch's end forgets the mode
     * of its start and reset switches autocommit off again. True: the
     * variant that carries the mode of the start through and restores it.
     */
    const corrected: bool

    /** Every record is reachable: PREPARED, ROLLBACK_ONLY and HEURISTICALLY_COMPLETED are never stored. */
    predicate Valid()
      reads this
    {
      forall x | x in associations :: Reachable(x, associations[x])
    }

    constructor (connectionFunction: HandoffSlot, corrected: bool)
      ensures Valid() && associations == map[] && this.connectionFunction == connectionFunction
      ensures this.corrected == corrected
    {
      associations := map[];
      this.connectionFunction := connectionFunction;
      this.corrected := corrected;
    }

    /** The record for x, or null. */
    function Lookup(x: Xid): Option<Association>
      reads this
    {
      if x in associations then Some(associations[x]) else None
    }

    /** The connection of the branch named by xid, if there is one. */
    function BranchConnections(xid: Option<Xid>): set<Jdbc.Connection>
      reads this
    {
      if xid.Some? && xid.value in associations then {associations[xid.value].connection} else {}
    }

    /** What start may touch: the branch's connection and the connection waiting in the slot. */
    function StartConnections(xid: Option<Xid>): set<Jdbc.Connection>
      reads this, connectionFunction
    {
      BranchConnections(xid) + (if connectionFunction.slot.HoldsConnection? then {connectionFunction.slot.connection} else {})
    }

    /**
     * compute(x, f) as start and end see it, where f stepped to `step`:
     * the registry keeps, replaces or drops the entry, and whatever was
     * thrown leaves the entry alone and becomes an XA error code.
     */
    twostate predicate StartEndApplied(x: Xid, step: Step, new r: XaResult<()>)
      reads this, StepConnections(step)
    {
      match step
      case Keep(a) => r == Return(()) && associations == old(associations)[x := a]
      case Remove => r == Return(()) && associations == old(associations) - {x}
      case Throw(t) => r == Raise(StartEndCode(t)) && associations == old(associations)
      case Rebuild(a) =>
        if Constructs(a, old(a.connection.autoCommit)) then
          r == Return(())
          && associations == old(associations)[x := a.(priorAutoCommit := if corrected then a.priorAutoCommit else old(a.connection.autoCommit))]
          && !a.connection.autoCommit
        else
          r == Raise(XaerRmErr) && associations == old(associations) && a.connection.autoCommit == old(a.connection.autoCommit)
    }

    /** start(TMNOFLAGS) on a new Xid, given what the slot held when the connection function ran. */
    twostate predicate StartedNew(x: Xid, s: Slot, new r: XaResult<()>)
      reads this, if s.HoldsConnection? then {s.connection} else {}
    {
      if s.HoldsConnection? && Constructs(Association(Active, x, false, s.connection, true), old(s.connection.autoCommit)) then
        r == Return(())
        && associations == old(associations)[x := Association(Active, x, false, s.connection, old(s.connection.autoCommit))]
        && !s.connection.autoCommit
      else
        r == Raise(XaerRmErr) && associations == old(associations)
        && (s.HoldsConnection? ==> s.connection.autoCommit == old(s.connection.autoCommit))
    }

    /** Runs one remapping step of start or end against the registry. */
    method Apply(x: Xid, step: Step) returns (r: XaResult<()>)
      requires Valid()
      requires step.Keep? ==> Reachable(x, step.kept)
      requires step.Rebuild? ==> Reachable(x, step.next)
      modifies this`associations, StepConnections(step)
      ensures Valid()
      ensures StartEndApplied(x, step, r)
      ensures forall c | c in StepConnections(step) :: c.OnlyAutoCommitChanged()
    {
      match step
      case Keep(a) =>
        associations := associations[x := a];
        r := Return(());
      case Remove =>
        associations := associations - {x};
        r := Return(());
      case Throw(t) =>
        r := Raise(StartEndCode(t));
      case Rebuild(a) =>
        var made := Construct(a, corrected);
        if made.Built? {
          associations := associations[x := made.record];
          r := Return(());
        } else {
          r := Raise(StartEndCode(made.thrown));
        }
    }

    /** start(TMNOFLAGS)'s remapping function, run inside compute. */
    method StartNew(x: Xid) returns (r: XaResult<()>)
      requires Valid()
      modifies this`associations, connectionFunction`slot, StartConnections(Some(x))
      ensures Valid()
      ensures forall c | c in old(StartConnections(Some(x))) :: c.OnlyAutoCommitChanged()
      ensures x in old(associations) ==>
        r == Raise(XaerDupId) && associations == old(associations)
        && connectionFunction.slot == old(connectionFunction.slot) && unchanged(old(StartConnections(Some(x))))
      ensures x !in old(associations) ==>
        connectionFunction.slot == HoldsXid(x) && StartedNew(x, old(connectionFunction.slot), r)
    {
      if x in associations {
        return Raise(XaerDupId);
      }
      var fetched := connectionFunction.Connection(x);
      match fetched
      case Null =>
        r := Raise(XaerRmErr);
      case CastFailure =>
        r := Raise(XaerRmErr);
      case Got(c) =>
        var made := Construct(Association(Active, x, false, c, true), false);
        if made.Built? {
          associations := associations[x := made.record];
          r := Return(());
        } else {
          r := Raise(StartEndCode(made.thrown));
        }
    }

    /** XAResource.start: begins, joins or resumes work on a branch. */
    method Start(xid: Option<Xid>, flags: int) returns (r: XaResult<()>)
      requires Valid()
      modifies this`associations, connectionFunction`slot, StartConnections(xid)
      ensures Valid()
      ensures forall c | c in old(StartConnections(xid)) :: c.OnlyAutoCommitChanged()
      ensures (xid.None? || StartRemappingFor(flags).None?) ==>
        r == Raise(XaerInval) && associations == old(associations)
        && connectionFunction.slot == old(connectionFunction.slot) && unchanged(old(StartConnections(xid)))
      ensures xid.Some? && flags == TmNoFlags && xid.value in old(associations) ==>
        r == Raise(XaerDupId) && associations == old(associations)
        && connectionFunction.slot == old(connectionFunction.slot) && unchanged(old(StartConnections(xid)))
      ensures xid.Some? && flags == TmNoFlags && xid.value !in old(associations) ==>
        connectionFunction.slot == HoldsXid(xid.value) && StartedNew(xid.value, old(connectionFunction.slot), r)
      ensures xid.Some? && flags == TmJoin ==>
        connectionFunction.slot == old(connectionFunction.slot) && StartEndApplied(xid.value, Join(old(Lookup(xid.value))), r)
      ensures xid.Some? && flags == TmResume ==>
        connectionFunction.slot == old(connectionFunction.slot) && StartEndApplied(xid.value, ResumeStep(old(Lookup(xid.value))), r)
    {
      if xid.None? {
        return Raise(XaerInval);
      }
      var x := xid.value;
      match StartRemappingFor(flags)
      case None =>
        r := Raise(XaerInval);
      case Some(JoinBranch) =>
        r := Apply(x, Join(Lookup(x)));
      case Some(StartBranch) =>
        r := StartNew(x);
      case Some(ResumeBranch) =>
        r := Apply(x, ResumeStep(Lookup(x)));
    }

    /** XAResource.end: dissociates from a branch, or suspends the association. */
    method End(xid: Option<Xid>, flags: int) returns (r: XaResult<()>)
      requires Valid()
      modifies this`associations, BranchConnections(xid)
      ensures Valid()
      ensures forall c | c in old(BranchConnections(xid)) :: c.OnlyAutoCommitChanged()
      ensures (xid.None? || EndRemappingFor(flags).None?) ==>
        r == Raise(XaerInval) && associations == old(associations) && unchanged(old(BranchConnections(xid)))
      ensures xid.Some? && EndRemappingFor(flags).Some? ==>
        StartEndApplied(xid.value, EndStep(EndRemappingFor(flags).value, old(Lookup(xid.value))), r)
    {
      if xid.None? {
        return Raise(XaerInval);
      }
      var x := xid.value;
      match EndRemappingFor(flags)
      case None =>
        r := Raise(XaerInval);
      case Some(m) =>
        r := Apply(x, EndStep(m, Lookup(x)));
    }

    /** Ends computeAssociation on the error path: drops the entry if asked to, and classifies. */
    method Fail(x: Xid, t: Thrown, removeXidOnError: bool) returns (code: int)
      requires Valid()
      modifies this`associations
      ensures Valid()
      ensures associations == if removeXidOnError then old(associations) - {x} else old(associations)
      ensures code == ComputeCode(t)
    {
      if removeXidOnError {
        associations := associations - {x};
      }
      code := ComputeCode(t);
    }

    /** XAResource.prepare: a read-only branch is ended at once and reports XA_RDONLY. */
    method Prepare(xid: Option<Xid>) returns (r: XaResult<int>)
      requires Valid()
      modifies this`associations, BranchConnections(xid)
      ensures Valid()
      ensures forall c | c in old(BranchConnections(xid)) :: c.OnlyAutoCommitChanged()
      ensures xid.None? ==> r == Raise(XaerInval) && associations == old(associations)
      ensures xid.Some? && xid.value !in old(associations) ==> r == Raise(XaerNota) && associations == old(associations)
      ensures xid.Some? && xid.value in old(associations) && old(associations[xid.value]).branchState !in PrepareStates ==>
        r == Raise(XaerProto) && associations == old(associations) && unchanged(old(BranchConnections(xid)))
      ensures xid.Some? && xid.value in old(associations) && old(associations[xid.value]).branchState in PrepareStates ==>
        var a := old(associations[xid.value]);
        if a.connection.faults.isReadOnly || !a.connection.readOnly then
          r == (if a.connection.faults.isReadOnly then Raise(XaerRmErr) else Return(XaOk))
          && associations == old(associations) && a.connection.autoCommit == old(a.connection.autoCommit)
        else
          r == (if ResetFails(a.connection, corrected) then Raise(XaerRmErr) else Return(XaRdOnly))
          && associations == (if ResetFails(a.connection, corrected) then old(associations) else old(associations) - {xid.value})
          && a.connection.autoCommit == AutoCommitAfterReset(a, old(a.connection.autoCommit), corrected)
    {
      if xid.None? {
        return Raise(XaerInval);
      }
      var x := xid.value;
      var a := Lookup(x);
      var check := RemapCheck(a, PrepareStates);
      if check.Some? {
        var code := Fail(x, check.value, false);
        return Raise(code);
      }
      var b := a.value;
      var readOnly := b.connection.IsReadOnly();
      if readOnly.Fail? {
        var code := Fail(x, UncheckedSql, false);
        return Raise(code);
      }
      if !readOnly.value {
        return Return(XaOk);
      }
      var reset := Reset(b, corrected);
      if reset.Fail? {
        var code := Fail(x, UncheckedSql, false);
        return Raise(code);
      }
      associations := associations - {x};
      r := Return(XaRdOnly);
    }

    /**
     * What commit or rollback does to an accepted branch's connection: the
     * driver's commit (with rollback as fallback) or rollback, then reset;
     * any driver failure gives XAER_RMERR.
     */
    twostate predicate Completed(a: Association, commit: bool, new r: XaResult<()>)
      reads this, a.connection
    {
      var c := a.connection;
      c.commits == old(c.commits) + (if commit then 1 else 0)
      && c.rollbacks == old(c.rollbacks) + (if !commit || c.faults.commit then 1 else 0)
      && c.autoCommit == AutoCommitAfterReset(a, old(c.autoCommit), corrected)
      && r == if (if commit then c.faults.commit else c.faults.rollback) || ResetFails(c, corrected)
              then Raise(XaerRmErr) else Return(())
    }

    /** commit and rollback: the registry's entry is gone afterwards whatever happened. */
    method Complete(x: Xid, legal: set<BranchState>, commit: bool) returns (r: XaResult<()>)
      requires Valid()
      modifies this`associations, BranchConnections(Some(x))
      ensures Valid()
      ensures associations == old(associations) - {x}
      ensures x !in old(associations) ==> r == Raise(XaerNota)
      ensures x in old(associations) && old(associations[x]).branchState !in legal ==>
        r == Raise(XaerProto) && unchanged(old(BranchConnections(Some(x))))
      ensures x in old(associations) && old(associations[x]).branchState in legal ==>
        Completed(old(associations[x]), commit, r)
      ensures forall c | c in old(BranchConnections(Some(x))) :: c.closed == old(c.closed)
    {
      var a := Lookup(x);
      var check := RemapCheck(a, legal);
      if check.Some? {
        var code := Fail(x, check.value, true);
        return Raise(code);
      }
      var completed, chain := RunAndReset(a.value, commit, corrected);
      if completed.Fail? {
        var code := Fail(x, UncheckedSql, true);
        return Raise(code);
      }
      associations := associations - {x};
      r := Return(());
    }

    /** XAResource.commit; one-phase or not, the work is the same. */
    method Commit(xid: Option<Xid>, onePhase: bool) returns (r: XaResult<()>)
      requires Valid()
      modifies this`associations, BranchConnections(xid)
      ensures Valid()
      ensures xid.None? ==> r == Raise(XaerInval) && associations == old(associations) && unchanged(old(BranchConnections(xid)))
      ensures xid.Some? ==> associations == old(associations) - {xid.value}
      ensures xid.Some? && xid.value !in old(associations) ==> r == Raise(XaerNota)
      ensures xid.Some? && xid.value in old(associations) && old(associations[xid.value]).branchState !in CommitStates ==>
        r == Raise(XaerProto) && unchanged(old(BranchConnections(xid)))
      ensures xid.Some? && xid.value in old(associations) && old(associations[xid.value]).branchState in CommitStates ==>
        Completed(old(associations[xid.value]), true, r)
      ensures forall c | c in old(BranchConnections(xid)) :: c.closed == old(c.closed)
    {
      if xid.None? {
        return Raise(XaerInval);
      }
      r := Complete(xid.value, CommitStates, true);
    }

    /** XAResource.rollback. */
    method Rollback(xid: Option<Xid>) returns (r: XaResult<()>)
      requires Valid()
      modifies this`associations, BranchConnections(xid)
      ensures Valid()
      ensures xid.None? ==> r == Raise(XaerInval) && associations == old(associations) && unchanged(old(BranchConnections(xid)))
      ensures xid.Some? ==> associations == old(associations) - {xid.value}
      ensures xid.Some? && xid.value !in old(associations) ==> r == Raise(XaerNota)
      ensures xid.Some? && xid.value in old(associations) && old(associations[xid.value]).branchState !in RollbackStates ==>
        r == Raise(XaerProto) && unchanged(old(BranchConnections(xid)))
      ensures xid.Some? && xid.value in old(associations) && old(associations[xid.value]).branchState in RollbackStates ==>
        Completed(old(associations[xid.value]), false, r)
      ensures forall c | c in old(BranchConnections(xid)) :: c.closed == old(c.closed)
    {
      if xid.None? {
        return Raise(XaerInval);
      }
      r := Complete(xid.value, RollbackStates, false);
    }

    /**
     * XAResource.forget. Only a heuristically completed branch can be
     * forgotten, and the registry never holds one, so on a valid registry
     * forget always fails.
     */
    method Forget(xid: Option<Xid>) returns (r: XaResult<()>)
      modifies this`associations, BranchConnections(xid)
      ensures old(Valid()) ==> Valid()
      ensures xid.None? ==> r == Raise(XaerInval) && associations == old(associations)
      ensures xid.Some? && xid.value !in old(associations) ==> r == Raise(XaerNota) && associations == old(associations)
      ensures xid.Some? && xid.value in old(associations) && old(associations[xid.value]).branchState !in ForgetStates ==>
        r == Raise(XaerProto) && associations == old(associations) && unchanged(old(BranchConnections(xid)))
      ensures xid.Some? && xid.value in old(associations) && old(associations[xid.value]).branchState in ForgetStates ==>
        var a := old(associations[xid.value]);
        r == (if ResetFails(a.connection, corrected) then Raise(XaerRmErr) else Return(()))
        && associations == (if ResetFails(a.connection, corrected) then old(associations) else old(associations) - {xid.value})
        && a.connection.autoCommit == AutoCommitAfterReset(a, old(a.connection.autoCommit), corrected)
      ensures old(Valid()) && xid.Some? ==> r == Raise(XaerNota) || r == Raise(XaerProto)
      ensures forall c | c in old(BranchConnections(xid)) :: c.OnlyAutoCommitChanged()
    {
      if xid.None? {
        return Raise(XaerInval);
      }
      var x := xid.value;
      var a := Lookup(x);
      var check := RemapCheck(a, ForgetStates);
      if check.Some? {
        return Raise(ComputeCode(check.value));
      }
      var reset := Reset(a.value, corrected);
      if reset.Fail? {
        return Raise(ComputeCode(UncheckedSql));
      }
      associations := associations - {x};
      r := Return(());
    }

    /** XAResource.recover: checks its flags and reports no in-doubt branches. */
    method Recover(flags: int) returns (r: XaResult<seq<Xid>>)
      ensures r.Return? <==> flags == TmEndRScan || flags == TmNoFlags || flags == TmStartRScan
      ensures r.Return? ==> r.value == []
      ensures r.Raise? ==> r.code == XaerInval
    {
      if flags == TmEndRScan || flags == TmNoFlags || flags == TmStartRScan {
        r := Return([]);
      } else {
        r := Raise(XaerInval);
      }
    }

    /** XAResource.isSameRM: reference identity. */
    method IsSameRM(other: object) returns (r: bool)
      ensures r <==> other == this
    {
      r := other == this;
    }

    /** XAResource.getTransactionTimeout: no timeout is kept. */
    method GetTransactionTimeout() returns (seconds: int)
      ensures seconds == 0
    {
      seconds := 0;
    }

    /** XAResource.setTransactionTimeout: the request is declined. */
    method SetTransactionTimeout(seconds: int) returns (accepted: bool)
      ensures !accepted
    {
      accepted := false;
    }
  }

  /**
   * The manager's side of a one-phase commit: end(TMSUCCESS) and then
   * commit on an active branch of a driver connection that does not fail
   * and whose autocommit is off, as start leaves it. Both succeed, the
   * branch is forgotten and the driver commits once. As written, end
   * rebuilds the record while autocommit is off and reset restores that, so
   * autocommit stays off; the corrected adapter restores the mode the
   * record remembered from start.
   */
  method ManagerCommits(resource: LocalXAResource, x: Xid, c: Jdbc.Connection)
    returns (ended: XaResult<()>, committed: XaResult<()>)
    requires resource.Valid() && c.faults == Jdbc.NoFaults && !c.autoCommit
    requires x in resource.associations && resource.associations[x].connection == c
    requires resource.associations[x].branchState == Active && !resource.associations[x].suspended
    modifies resource`associations, c
    ensures ended == Return(()) && committed == Return(())
    ensures resource.Valid() && resource.associations == old(resource.associations) - {x}
    ensures c.autoCommit == (resource.corrected && old(resource.associations[x].priorAutoCommit))
    ensures c.commits == old(c.commits) + 1 && c.rollbacks == old(c.rollbacks) && c.closed == old(c.closed)
  {
    var a := resource.associations[x];
    ended := resource.End(Some(x), TmSuccess);
    assert Constructs(a.(branchState := Idle), false);
    var idle := a.(branchState := Idle, priorAutoCommit := resource.corrected && a.priorAutoCommit);
    assert resource.associations == old(resource.associations)[x := idle];
    committed := resource.Commit(Some(x), true);
  }

  /**
   * A branch started, ended with TMSUCCESS and committed through the
   * adapter on a driver that does not fail: every call succeeds, the
   * registry is back where it was and the driver committed once. The
   * corrected adapter leaves the connection in the autocommit mode it had
   * before the branch; as written, end rebuilds the record while autocommit
   * is off, so that is the mode reset restores, and the connection is left
   * with autocommit off.
   */
  method CommittedBranch(resource: LocalXAResource, x: Xid, c: Jdbc.Connection)
    returns (started: XaResult<()>, ended: XaResult<()>, committed: XaResult<()>)
    requires resource.Valid() && x !in resource.associations
    requires resource.connectionFunction.slot == HoldsConnection(c) && c.faults == Jdbc.NoFaults
    modifies resource, resource.connectionFunction, c
    ensures started == Return(()) && ended == Return(()) && committed == Return(())
    ensures resource.associations == old(resource.associations)
    ensures c.autoCommit == (resource.corrected && old(c.autoCommit))
    ensures c.commits == old(c.commits) + 1 && c.rollbacks == old(c.rollbacks)
    ensures resource.connectionFunction.slot == HoldsXid(x)
  {
    var initial := c.autoCommit;
    assert Constructs(Association(Active, x, false, c, true), initial);
    started := resource.Start(Some(x), TmNoFlags);
    assert started == Return(());
    assert resource.associations == old(resource.associations)[x := Association(Active, x, false, c, initial)];
    ended, committed := ManagerCommits(resource, x, c);
    assert resource.associations == old(resource.associations);
  }
}
