# Helidon JTA/JDBC connection integration: a Dafny model

This project models four parts of Helidon that together let a plain JDBC
connection take part in a JTA transaction.

- **LocalXAResource** is an XA resource adapter for a connection that is not
  an XA connection. It keeps one *Association* per transaction branch (Xid).
  An association holds:
  - the branch state S0 to S5 of table 6-4 of the X/Open XA specification;
  - whether the association is suspended;
  - the connection doing the work;
  - the autocommit mode reset will restore, meant to be the one the
    connection had before the branch began.

  `start`, `end`, `prepare`, `commit`, `rollback` and `forget` each rewrite
  that registry atomically through a remapping function. They turn whatever
  the function throws into an XA error code.
- **JTAConnection** wraps a connection. Before almost every operation it
  enlists itself in the calling thread's active transaction. Enlistment puts
  the driver connection into a handoff slot. It then asks the transaction
  manager to enlist the shared LocalXAResource, whose `start` takes the
  connection out of the slot and leaves the branch's Xid there. The wrapper
  also:
  - records the Xid and itself in the synchronization registry;
  - makes itself non-closeable until an interposed synchronization restores
    closeability after completion;
  - refuses local commit, local rollback, turning autocommit on, and
    savepoints while enlisted.
- **ConditionallyCloseableConnection** is the superclass of JTAConnection.
  Its `close()` takes effect only while a closeable flag is set. Strict
  closed checking makes most operations on a closed connection fail with
  SQLSTATE 08000.
- **IndexedStatementParameters** is the DB client's ordered list of
  positional statement parameters. Every named-parameter operation is refused.

Files and modules:

- **`wrappers.dfy`, `xa.dfy`, `jdbc.dfy`:** the environment the code runs in.
  - The XA flags and error codes.
  - The JDBC SQLSTATEs and exception kinds.
  - A JDBC driver connection modelled as a class. Its autocommit mode, closed
    flag and commit/rollback counters change in place. Its failures are fixed
    per connection by a `Faults` record.
- **`association.dfy` (module `Branch`):** the Association record. It holds
  the pure transitions, and the constructor and reset, which talk to the
  connection.
- **`handoff.dfy`:** the static handoff slot shared by JTAConnection and the
  adapter, and the adapter's connection function.
- **`local_xa_resource.dfy` (module `LocalXa`):** the remapping functions as
  pure functions, and the adapter as a class whose `associations` map is
  rewritten in place.
- **`closeable.dfy`:** ConditionallyCloseableConnection.
- **`jta_connection.dfy` (module `Jta`):** JTAConnection, and the calling
  thread's transaction context. That context is the synchronization
  registry plus the transaction manager's current transaction. Failures of
  those interfaces are fields of the context.
- **`indexed_statement_parameters.dfy` (module `DbClient`):**
  IndexedStatementParameters.

The transaction manager is not modelled as code. What it does when asked to
enlist the adapter is a field, `TransactionContext.enlistment`:
- `Enlists(b)`: it calls `start(b, TMNOFLAGS)` on the adapter;
- `Declines`: it returns false;
- `RollsBack`: it throws RollbackException;
- `Errs`: it throws another exception.

The repository's sources disagree with each other in two places.
- ConditionallyCloseableConnection declares `isCloseable` and `setCloseable`
  final. JTAConnection overrides both, and its class comment relies on that.
  The model follows JTAConnection, so the inherited `close` asks the
  wrapper's own `isCloseable`.
- TestJTAConnection uses a four-argument factory and an `Enlisted` interface.
  Neither exists in the main sources. Only that test's observable assertions
  are modelled, in `Jta.CommittedTransaction`.

The adapter's constructor for Association records does not do what its
transitions and reset evidently expect (see "## Findings"). Every record it
builds remembers the autocommit mode it reads at that moment, and it
switches autocommit off. So a branch's `end` forgets the mode of its
`start`, and `reset` switches autocommit off again right after restoring it.
`LocalXa.LocalXAResource` has a constant `corrected`.
- `corrected == false` is the adapter as written, and every contract states
  what the code does then.
- `corrected == true` is the variant that carries the mode of the start
  through and restores it.

Contracts that depend on the difference say what happens in each case.

## Model

| member | source | states |
|---|---|---|
| Branch.ActiveToIdle | integrations/jta/jdbc/src/main/java/io/helidon/integrations/jta/jdbc/LocalXAResource.java:588-607 | succeeds exactly for an unsuspended S1 record, giving S2 on the same branch; otherwise an illegal transition |
| Branch.ActiveToRollbackOnly | integrations/jta/jdbc/src/main/java/io/helidon/integrations/jta/jdbc/LocalXAResource.java:609-628 | succeeds exactly for an unsuspended S1 record, giving S4 on the same branch; otherwise an illegal transition |
| Branch.IdleToActive | integrations/jta/jdbc/src/main/java/io/helidon/integrations/jta/jdbc/LocalXAResource.java:630-649 | succeeds exactly for an unsuspended S2 record, giving S1 on the same branch; otherwise an illegal transition |
| Branch.IdleToRollbackOnly | integrations/jta/jdbc/src/main/java/io/helidon/integrations/jta/jdbc/LocalXAResource.java:651-670 | succeeds exactly for an unsuspended S2 record, giving S4 on the same branch; otherwise an illegal transition |
| Branch.Suspend | integrations/jta/jdbc/src/main/java/io/helidon/integrations/jta/jdbc/LocalXAResource.java:672-691 | succeeds exactly for an unsuspended S1 record, giving a suspended S2 record on the same branch; otherwise an illegal transition |
| Branch.Resume | integrations/jta/jdbc/src/main/java/io/helidon/integrations/jta/jdbc/LocalXAResource.java:693-712 | succeeds exactly for a suspended S2 record, giving an unsuspended S1 record on the same branch; otherwise an illegal transition |
| Branch.TransitionsKeepValid | integrations/jta/jdbc/src/main/java/io/helidon/integrations/jta/jdbc/LocalXAResource.java:555-570 | every record a transition builds passes the record's own check (suspended only in S2) |
| Branch.Construct | integrations/jta/jdbc/src/main/java/io/helidon/integrations/jta/jdbc/LocalXAResource.java:555-581 | refuses a suspended record outside S2 with a runtime exception and a driver failure with an unchecked SQL exception, leaving autocommit alone; otherwise the record is built, autocommit is off afterwards, and the remembered mode is the one just read (or, corrected, the one given) |
| Branch.Reset | integrations/jta/jdbc/src/main/java/io/helidon/integrations/jta/jdbc/LocalXAResource.java:765-778 | the connection is set back to the mode the record remembers and the S0 record is built; as written the constructor builds it, so autocommit is off again afterwards, and its failure to read the mode also fails the reset; corrected, the restored mode stays; fails exactly when one of those driver calls fails |
| Branch.RunAndReset | integrations/jta/jdbc/src/main/java/io/helidon/integrations/jta/jdbc/LocalXAResource.java:714-755 | commit (rolling back when commit fails) or rollback, then reset in every case; the SQL failures are chained in call order; the call fails exactly when one of them occurred or, as written, the constructor inside reset failed; autocommit afterwards is what reset leaves |
| Handoff.HandoffSlot.constructor | integrations/jta/jdbc/src/main/java/io/helidon/integrations/jta/jdbc/JTAConnection.java:97 | the slot starts empty (null) |
| Handoff.HandoffSlot.Connection | integrations/jta/jdbc/src/main/java/io/helidon/integrations/jta/jdbc/JTAConnection.java:963-970 | returns the connection in the slot, null when empty, a cast failure when it holds an Xid; in every case the Xid is left in the slot |
| LocalXa.StartRemappingFor | integrations/jta/jdbc/src/main/java/io/helidon/integrations/jta/jdbc/LocalXAResource.java:123-138 | TMJOIN, TMNOFLAGS and TMRESUME choose join, start and resume; every other flag value is refused |
| LocalXa.EndRemappingFor | integrations/jta/jdbc/src/main/java/io/helidon/integrations/jta/jdbc/LocalXAResource.java:182-195 | TMFAIL and TMSUCCESS choose activeToIdle, TMSUSPEND chooses suspend; every other flag value is refused |
| LocalXa.Join | integrations/jta/jdbc/src/main/java/io/helidon/integrations/jta/jdbc/LocalXAResource.java:399-416 | unknown or suspended branch: XAER_PROTO; S1 kept as is; S2 becomes S1; any other state an illegal transition |
| LocalXa.ResumeStep | integrations/jta/jdbc/src/main/java/io/helidon/integrations/jta/jdbc/LocalXAResource.java:419-425 | unknown branch: XAER_NOTA; a suspended S2 branch is resumed; anything else an illegal transition |
| LocalXa.EndStep | integrations/jta/jdbc/src/main/java/io/helidon/integrations/jta/jdbc/LocalXAResource.java:389-396 | unknown branch: a runtime exception (null dereference); an unsuspended S1 branch becomes S2, suspended for TMSUSPEND; anything else an illegal transition |
| LocalXa.IllegalTransitionCodes | integrations/jta/jdbc/src/main/java/io/helidon/integrations/jta/jdbc/LocalXAResource.java:344-363 | an illegal transition surfaces as XAER_RMERR from start/end but as XAER_PROTO from the other operations; a wrapped XA code surfaces unchanged from both |
| LocalXa.RemapCheck | integrations/jta/jdbc/src/main/java/io/helidon/integrations/jta/jdbc/LocalXAResource.java:374-386 | the operator runs exactly when the branch exists in a legal state; unknown branch XAER_NOTA, illegal state XAER_PROTO |
| LocalXa.TraceStaysReachable | integrations/jta/jdbc/src/main/java/io/helidon/integrations/jta/jdbc/LocalXAResource.java:114-208 | any sequence of join, resume and end calls on a branch started by start keeps a well-formed record for the same Xid and connection; the mode it will restore stays the one from start only in the corrected variant, and as written it is the mode the connection was in at one of the calls |
| LocalXa.LocalXAResource.constructor | integrations/jta/jdbc/src/main/java/io/helidon/integrations/jta/jdbc/LocalXAResource.java:101-105 | no associations; the connection function and the variant are the ones given |
| LocalXa.LocalXAResource.Apply | integrations/jta/jdbc/src/main/java/io/helidon/integrations/jta/jdbc/LocalXAResource.java:140-146 | the registry's atomic compute: a kept or rebuilt record replaces the entry, null removes it, a throw changes nothing and gives the start/end error code; a rebuilt record leaves autocommit off and, as written, remembers the mode the connection was in |
| LocalXa.LocalXAResource.StartNew | integrations/jta/jdbc/src/main/java/io/helidon/integrations/jta/jdbc/LocalXAResource.java:154-170 | a known Xid: XAER_DUPID, nothing changes; otherwise the connection function is called once, and a null or failed result gives XAER_RMERR, else a new S1 record is stored |
| LocalXa.LocalXAResource.Start | integrations/jta/jdbc/src/main/java/io/helidon/integrations/jta/jdbc/LocalXAResource.java:114-151 | null Xid or unknown flag: XAER_INVAL, nothing changes; a new branch remembers the mode read at start; otherwise the chosen remapping is applied atomically as Apply states, and a refusal changes nothing and maps to its XA code |
| LocalXa.LocalXAResource.End | integrations/jta/jdbc/src/main/java/io/helidon/integrations/jta/jdbc/LocalXAResource.java:173-208 | null Xid or unknown flag: XAER_INVAL; otherwise as Start, with activeToIdle or suspend; as written the rebuilt record remembers the mode at end, which is off |
| LocalXa.LocalXAResource.Fail | integrations/jta/jdbc/src/main/java/io/helidon/integrations/jta/jdbc/LocalXAResource.java:351-362 | the Xid is dropped exactly when the operation removes on error, and the code is the one the thrown exception maps to |
| LocalXa.LocalXAResource.Prepare | integrations/jta/jdbc/src/main/java/io/helidon/integrations/jta/jdbc/LocalXAResource.java:211-230 | null: XAER_INVAL; unknown: XAER_NOTA; illegal state: XAER_PROTO; otherwise a connection that is not read-only gives XA_OK with the branch kept, and a read-only one is reset and removed with XA_RDONLY; autocommit afterwards is what reset leaves (off as written); a driver failure gives XAER_RMERR and leaves the branch in place |
| LocalXa.LocalXAResource.Complete | integrations/jta/jdbc/src/main/java/io/helidon/integrations/jta/jdbc/LocalXAResource.java:429-451 | the shared commit/rollback path: the Xid is always removed, and a legal branch is run and reset on its connection; XAER_RMERR exactly when a driver call or, as written, the constructor inside reset fails; autocommit afterwards is what reset leaves |
| LocalXa.LocalXAResource.Commit | integrations/jta/jdbc/src/main/java/io/helidon/integrations/jta/jdbc/LocalXAResource.java:233-251 | null: XAER_INVAL; otherwise the Xid is removed on every path; unknown XAER_NOTA, illegal state XAER_PROTO, else commit and reset as Complete states (autocommit off afterwards as written); the connection is never closed |
| LocalXa.LocalXAResource.Rollback | integrations/jta/jdbc/src/main/java/io/helidon/integrations/jta/jdbc/LocalXAResource.java:254-273 | as Commit, but rolling back, from the rollback states |
| LocalXa.LocalXAResource.Forget | integrations/jta/jdbc/src/main/java/io/helidon/integrations/jta/jdbc/LocalXAResource.java:276-293 | null: XAER_INVAL; unknown: XAER_NOTA; illegal state: XAER_PROTO; only a heuristically completed branch is reset (autocommit then as reset leaves it) and removed unless reset fails, so no reachable branch can ever be forgotten |
| LocalXa.LocalXAResource.Recover | integrations/jta/jdbc/src/main/java/io/helidon/integrations/jta/jdbc/LocalXAResource.java:296-315 | TMSTARTRSCAN, TMENDRSCAN and TMNOFLAGS give no Xids; any other flag XAER_INVAL |
| LocalXa.LocalXAResource.IsSameRM | integrations/jta/jdbc/src/main/java/io/helidon/integrations/jta/jdbc/LocalXAResource.java:318-324 | true exactly for this adapter itself |
| LocalXa.LocalXAResource.GetTransactionTimeout | integrations/jta/jdbc/src/main/java/io/helidon/integrations/jta/jdbc/LocalXAResource.java:327-333 | always 0 |
| LocalXa.LocalXAResource.SetTransactionTimeout | integrations/jta/jdbc/src/main/java/io/helidon/integrations/jta/jdbc/LocalXAResource.java:336-342 | never accepted |
| LocalXa.ManagerCommits | integrations/jta/jdbc/src/main/java/io/helidon/integrations/jta/jdbc/LocalXAResource.java:173-251 | on an active branch whose connection has autocommit off, end(TMSUCCESS) then commit succeed, commit once, remove the branch, and do not close the connection; as written autocommit stays off, and only the corrected variant restores the mode remembered at start |
| LocalXa.CommittedBranch | integrations/jta/jdbc/src/main/java/io/helidon/integrations/jta/jdbc/LocalXAResource.java:765-778 | start, end(TMSUCCESS) and commit all succeed, commit once and leave the registry as before; as written the connection is left with autocommit off, and only the corrected variant gives it back its autocommit mode |
| Closeable.ClosedFailure | integrations/jdbc/jdbc/src/main/java/io/helidon/integrations/jdbc/ConditionallyCloseableConnection.java:500-522 | a failed closed check is SQLSTATE 08000, surfacing as SQLClientInfoException from setClientInfo |
| Closeable.ConditionallyCloseableConnection.constructor | integrations/jdbc/jdbc/src/main/java/io/helidon/integrations/jdbc/ConditionallyCloseableConnection.java:98-100 | closeable, no strict checking |
| Closeable.ConditionallyCloseableConnection.WithCloseable | integrations/jdbc/jdbc/src/main/java/io/helidon/integrations/jdbc/ConditionallyCloseableConnection.java:119-121 | the given flag, no strict checking |
| Closeable.ConditionallyCloseableConnection.WithClosedChecking | integrations/jdbc/jdbc/src/main/java/io/helidon/integrations/jdbc/ConditionallyCloseableConnection.java:147-151 | the given flag and checking mode |
| Closeable.ConditionallyCloseableConnection.Close | integrations/jdbc/jdbc/src/main/java/io/helidon/integrations/jdbc/ConditionallyCloseableConnection.java:173-179 | the delegate is closed afterwards exactly when it was already closed or the flag is set |
| Closeable.ConditionallyCloseableConnection.IsCloseable | integrations/jdbc/jdbc/src/main/java/io/helidon/integrations/jdbc/ConditionallyCloseableConnection.java:203-206 | the flag is set and the connection is open |
| Closeable.ConditionallyCloseableConnection.SetCloseable | integrations/jdbc/jdbc/src/main/java/io/helidon/integrations/jdbc/ConditionallyCloseableConnection.java:228-231 | the flag takes the value, with no closed check |
| Closeable.ConditionallyCloseableConnection.Perform | integrations/jdbc/jdbc/src/main/java/io/helidon/integrations/jdbc/ConditionallyCloseableConnection.java:233-256 | a guarded forwarding operation fails exactly when checking is strict and the connection is closed |
| Closeable.ConditionallyCloseableConnection.SetAutoCommit | integrations/jdbc/jdbc/src/main/java/io/helidon/integrations/jdbc/ConditionallyCloseableConnection.java:257-262 | closed check first; then the driver's result, the mode changing exactly on success |
| Closeable.ConditionallyCloseableConnection.GetAutoCommit | integrations/jdbc/jdbc/src/main/java/io/helidon/integrations/jdbc/ConditionallyCloseableConnection.java:263-268 | closed check first; then the delegate's mode or its failure |
| Closeable.ConditionallyCloseableConnection.Commit | integrations/jdbc/jdbc/src/main/java/io/helidon/integrations/jdbc/ConditionallyCloseableConnection.java:269-274 | closed check first; the delegate commits once exactly when it passes |
| Closeable.ConditionallyCloseableConnection.Rollback | integrations/jdbc/jdbc/src/main/java/io/helidon/integrations/jdbc/ConditionallyCloseableConnection.java:275-280 | closed check first; the delegate rolls back once exactly when it passes |
| Closeable.ConditionallyCloseableConnection.IsClosed | integrations/jdbc/jdbc/src/main/java/io/helidon/integrations/jdbc/ConditionallyCloseableConnection.java:306-310 | the delegate's closed state, with no check |
| Closeable.ConditionallyCloseableConnection.IsValid | integrations/jdbc/jdbc/src/main/java/io/helidon/integrations/jdbc/ConditionallyCloseableConnection.java:494-498 | forwarded with no check: valid exactly while open |
| Closeable.ConditionallyCloseableConnection.Abort | integrations/jdbc/jdbc/src/main/java/io/helidon/integrations/jdbc/ConditionallyCloseableConnection.java:560-564 | forwarded with no check: closed afterwards whatever the flag |
| Closeable.ConditionallyCloseableConnection.Request | integrations/jdbc/jdbc/src/main/java/io/helidon/integrations/jdbc/ConditionallyCloseableConnection.java:578-588 | beginRequest and endRequest are forwarded with no closed check: they never fail |
| Closeable.ConditionallyCloseableConnection.CheckOpen | integrations/jdbc/jdbc/src/main/java/io/helidon/integrations/jdbc/ConditionallyCloseableConnection.java:647-649 | fails exactly when checking is strict and the connection is closed |
| Closeable.ConditionallyCloseableConnection.FailWhenClosed | integrations/jdbc/jdbc/src/main/java/io/helidon/integrations/jdbc/ConditionallyCloseableConnection.java:671-675 | fails with 08000 exactly when closed |
| Closeable.CloseableProtocol | integrations/jdbc/jdbc/src/test/java/io/helidon/integrations/jdbc/TestConditionallyCloseableConnection.java:51-79 | closeable at first, not after clearing, still open after close, closeable after setting, closed after the second close, and still closed after clearing again |
| Jta.TransactionContext.Complete | integrations/jta/jdbc/src/main/java/io/helidon/integrations/jta/jdbc/JTAConnection.java:929-932 | at completion every registered wrapper is closeable again and the registry's resources are gone |
| Jta.JTAConnection.constructor | integrations/jta/jdbc/src/main/java/io/helidon/integrations/jta/jdbc/JTAConnection.java:141-147 | a closeable wrapper with strict closed checking around the given connection |
| Jta.JTAConnection.ActiveTransaction | integrations/jta/jdbc/src/main/java/io/helidon/integrations/jta/jdbc/JTAConnection.java:616-633 | true exactly when the registry reports Status.ACTIVE; a failing status query is SQLSTATE 25000 |
| Jta.JTAConnection.Active | integrations/jta/jdbc/src/main/java/io/helidon/integrations/jta/jdbc/JTAConnection.java:651-659 | false without a transaction, else whether its status is ACTIVE; a failing status query is 25000 |
| Jta.JTAConnection.ActiveOrMarkedRollbackTransaction | integrations/jta/jdbc/src/main/java/io/helidon/integrations/jta/jdbc/JTAConnection.java:676-698 | ACTIVE or MARKED_ROLLBACK; IllegalStateException means false, any other failure 25000 |
| Jta.JTAConnection.CurrentXid | integrations/jta/jdbc/src/main/java/io/helidon/integrations/jta/jdbc/JTAConnection.java:711-740 | closed: 08000; no live transaction: null; otherwise the Xid recorded in the registry, null when none |
| Jta.JTAConnection.EnlistedStatus | integrations/jta/jdbc/src/main/java/io/helidon/integrations/jta/jdbc/JTAConnection.java:753-782 | enlisted exactly when open, a transaction is live and the registry records this very wrapper; the error cases exactly, with their SQLSTATEs |
| Jta.JTAConnection.IsEnlisted | integrations/jta/jdbc/src/main/java/io/helidon/integrations/jta/jdbc/JTAConnection.java:753-782 | computes EnlistedStatus |
| Jta.JTAConnection.EnlistChecks | integrations/jta/jdbc/src/main/java/io/helidon/integrations/jta/jdbc/JTAConnection.java:791-834 | enlist goes on to the manager only when open, the transaction is ACTIVE, this wrapper is not yet enlisted, and autocommit is on |
| Jta.JTAConnection.CheckEnlistment | integrations/jta/jdbc/src/main/java/io/helidon/integrations/jta/jdbc/JTAConnection.java:791-834 | computes EnlistChecks |
| Jta.JTAConnection.EnlistResource | integrations/jta/jdbc/src/main/java/io/helidon/integrations/jta/jdbc/JTAConnection.java:836-889 | the handoff slot is empty on every path; RollbackException is 40000, other manager failures 25000; a successful start records a new S1 branch remembering the mode, and the Xid goes into the registry |
| Jta.JTAConnection.Enlist | integrations/jta/jdbc/src/main/java/io/helidon/integrations/jta/jdbc/JTAConnection.java:791-927 | a failed check or a declined enlistment changes nothing; an enlistment records the Xid, then the wrapper, then registers the synchronization and drops closeability, stopping at the first failure; enlisting twice is a no-op |
| Jta.JTAConnection.PerformWithoutEnlisting | integrations/jta/jdbc/src/main/java/io/helidon/integrations/jta/jdbc/JTAConnection.java:567-577 | unwrap and isWrapperFor do not enlist; they only run the closed check |
| Jta.JTAConnection.Perform | integrations/jta/jdbc/src/main/java/io/helidon/integrations/jta/jdbc/JTAConnection.java:155-177 | enlist, then forward; an enlist failure is reported, rewrapped as SQLClientInfoException by setClientInfo |
| Jta.JTAConnection.PerformSavepoint | integrations/jta/jdbc/src/main/java/io/helidon/integrations/jta/jdbc/JTAConnection.java:321-374 | enlist, then 3B503 while enlisted, else forward |
| Jta.JTAConnection.SetAutoCommit | integrations/jta/jdbc/src/main/java/io/helidon/integrations/jta/jdbc/JTAConnection.java:179-187 | enlist; turning autocommit on while enlisted is 25000; otherwise the enlistment's registry effects, then the driver sets the mode, which changes exactly when it succeeds and otherwise stays what it was before the call |
| Jta.JTAConnection.GetAutoCommit | integrations/jta/jdbc/src/main/java/io/helidon/integrations/jta/jdbc/JTAConnection.java:189-193 | enlist, then the driver's mode |
| Jta.JTAConnection.Complete | integrations/jta/jdbc/src/main/java/io/helidon/integrations/jta/jdbc/JTAConnection.java:195-213 | enlist; local commit or rollback while enlisted is 25000 and touches nothing; otherwise the driver commits or rolls back once |
| Jta.JTAConnection.IsValid | integrations/jta/jdbc/src/main/java/io/helidon/integrations/jta/jdbc/JTAConnection.java:438-442 | enlist, then valid (the closed check has passed) |
| Jta.JTAConnection.Request | integrations/jta/jdbc/src/main/java/io/helidon/integrations/jta/jdbc/JTAConnection.java:530-540 | beginRequest and endRequest: the outcome of enlisting |
| Jta.JTAConnection.IsClosed | integrations/jta/jdbc/src/main/java/io/helidon/integrations/jta/jdbc/JTAConnection.java:220-223 | the delegate's closed state; no enlistment |
| Jta.JTAConnection.IsCloseable | integrations/jta/jdbc/src/main/java/io/helidon/integrations/jta/jdbc/JTAConnection.java:579-584 | closeable exactly when the inherited flag says so and the wrapper is not enlisted |
| Jta.JTAConnection.SetCloseable | integrations/jta/jdbc/src/main/java/io/helidon/integrations/jta/jdbc/JTAConnection.java:586-600 | true while enlisted is IllegalArgumentException and leaves the flag; a failed enlisted query is IllegalStateException; clearing always succeeds |
| Jta.JTAConnection.Close | integrations/jta/jdbc/src/main/java/io/helidon/integrations/jta/jdbc/JTAConnection.java:215-218 | closes the driver exactly when the flag is set, it is open and the wrapper is not enlisted |
| Jta.JTAConnection.Abort | integrations/jta/jdbc/src/main/java/io/helidon/integrations/jta/jdbc/JTAConnection.java:504-516 | refused while enlisted, changing nothing; otherwise closeable and closed afterwards |
| Jta.JTAConnection.SuperSetCloseableTrue | integrations/jta/jdbc/src/main/java/io/helidon/integrations/jta/jdbc/JTAConnection.java:929-932 | the flag is set afterwards |
| Jta.FirstUse | integrations/jta/jdbc/src/test/java/io/helidon/integrations/jta/jdbc/TestJTAConnection.java:125-139 | before first use: no Xid, closeable, open; the first forwarded call enlists and records the Xid and the wrapper |
| Jta.WhileEnlisted | integrations/jta/jdbc/src/test/java/io/helidon/integrations/jta/jdbc/TestJTAConnection.java:142-150 | while enlisted: the branch's Xid, not closeable, close has no effect, the same Xid again |
| Jta.AfterCompletion | integrations/jta/jdbc/src/test/java/io/helidon/integrations/jta/jdbc/TestJTAConnection.java:164-175 | after completion: no Xid, closeable again, and close really closes |
| Jta.NextTransaction | integrations/jta/jdbc/src/main/java/io/helidon/integrations/jta/jdbc/JTAConnection.java:800-807 | after one committed transaction, enlisting the same wrapper in the next one fails with 25000 as written, because autocommit was left off; it succeeds in the corrected variant |
| Jta.CommittedTransaction | integrations/jta/jdbc/src/test/java/io/helidon/integrations/jta/jdbc/TestJTAConnection.java:100-177 | the Xid, closeable and closed observations of the test, in order; one commit, the branch gone and the handoff slot empty; beyond what the test asserts, autocommit is left off as written and back on only in the corrected variant |
| DbClient.IndexedStatementParameters.constructor | dbclient/common/src/main/java/io/helidon/dbclient/common/IndexedStatementParameters.java:33-35 | no parameters; the given mapper |
| DbClient.IndexedStatementParameters.Params | dbclient/common/src/main/java/io/helidon/dbclient/common/IndexedStatementParameters.java:37-42 | the parameters are cleared and the list's elements added one by one as addParam adds them, so they become exactly the list; the same object is returned |
| DbClient.IndexedStatementParameters.IndexedParam | dbclient/common/src/main/java/io/helidon/dbclient/common/IndexedStatementParameters.java:44-51 | the parameters become the mapper's indexed parameters for the object |
| DbClient.IndexedStatementParameters.IndexedParams | dbclient/common/src/main/java/io/helidon/dbclient/common/IndexedStatementParameters.java:53-56 | the current parameters |
| DbClient.IndexedStatementParameters.AddParam | dbclient/common/src/main/java/io/helidon/dbclient/common/IndexedStatementParameters.java:58-62 | one more parameter, at the end, the others unchanged |
| DbClient.IndexedStatementParameters.Named | dbclient/common/src/main/java/io/helidon/dbclient/common/IndexedStatementParameters.java:64-85 | every named-parameter operation fails with the fixed message |
| DbClient.AppendedIsConcatenation | dbclient/common/src/main/java/io/helidon/dbclient/common/IndexedStatementParameters.java:58-62 | adding parameters one at a time appends them in order |
| DbClient.Chain | dbclient/common/src/main/java/io/helidon/dbclient/common/IndexedStatementParameters.java:37-62 | a chained addParam, params, addParam: the replacement discards the earlier addition |

## Left out

- Concurrency is not modelled. This covers the handoff lock, the registry's concurrent map, and the volatile closeable flag. Every operation is one atomic step by one thread.
- Logging is left out. So are `flagsToString` and the `toString`/`adjust` helpers of the XA resource, because none of them changes state or a result.
- The JDBC driver, the transaction manager and the synchronization registry are not part of this model. They are represented by:
  - the `Jdbc.Connection` class with fixed per-connection faults;
  - the `TransactionContext` fields.

  Which call fails is a parameter of the model, not a behaviour.
- The effect of the forwarded JDBC operations on the database is left out. Statements, metadata, client info and savepoint objects are all represented only by whether the call succeeds (`Closeable.Operation`).
- LocalXa.LocalXAResource.Commit: the `onePhase` flag is accepted and ignored, as in the source. One-phase and two-phase commit are not told apart.
- Java `assert` statements are left out, because assertions are disabled by default.
- Jta.JTAConnection.EnlistResource: only the outcome of the manager's `enlistResource` is modelled. When the manager enlists, it runs the adapter's real `start`. A failed `start` is reported as the SystemException a JTA manager raises. The manager's own bookkeeping is left out.
- DbClient.IndexedStatementParameters.IndexedParams returns a copy of the current parameters. The source returns the live list, so a caller's later changes to it are not modelled.
- The mapper manager is a fixed function `V -> seq<V>`. A mapping failure and the runtime class argument are left out.
- A RuntimeException from `getStatus` or `getTransaction` outside the documented IllegalStateException is modelled only where the source catches it.
- Jta.TransactionContext.Complete models only what completion does to the wrapper and the registry:
  - every registered synchronization runs;
  - the resources are cleared;
  - the status becomes final.

  The manager's `end`/`commit` calls on the adapter are in `LocalXa.ManagerCommits`.
- Objects.requireNonNull calls on constructor arguments are left out. Dafny references in this model are never null.
- The XA resource's Xid is compared by value. The source relies on the manager passing the same Xid instance or one with equal `equals`.

## Findings

| source | as written | input that shows it | evidently intended | confidence | as-written member | corrected member |
|---|---|---|---|---|---|---|
| integrations/jta/jdbc/src/main/java/io/helidon/integrations/jta/jdbc/LocalXAResource.java:572-579 | every Association constructor call reads the connection's current autocommit mode into `priorAutoCommit` and then switches autocommit off. Transitions and reset therefore overwrite the mode remembered at `start` with `false`, and `reset` (765-778) switches autocommit off again after restoring it | start(x, TMNOFLAGS) on a connection in autocommit mode, then end(x, TMSUCCESS), then commit(x, false): the connection ends with autocommit off, and the next transaction's enlistment on it fails with 25000 | the mode read at `start` is carried through every transition, and reset leaves the connection in that mode | not executed | Jta.NextTransaction | LocalXa.CommittedBranch |
