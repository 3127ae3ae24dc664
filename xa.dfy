/**
 * The vocabulary of the X/Open XA interface as JTA exposes it: transaction
 * branch identifiers, the return and error codes of javax.transaction.xa,
 * and the flag words passed to start, end and recover.
 */
module Xa {

  /** A transaction branch identifier (javax.transaction.xa.Xid). */
  datatype Xid = Xid(formatId: int, globalTransactionId: seq<bv8>, branchQualifier: seq<bv8>)

  // Return values of prepare.
  const XaOk: int := 0
  const XaRdOnly: int := 3

  // XAException error codes.
  const XaerRmErr: int := -3
  const XaerNota: int := -4
  const XaerInval: int := -5
  const XaerProto: int := -6
  const XaerDupId: int := -8

  // Flag words.
  const TmNoFlags: int := 0
  const TmJoin: int := 0x0020_0000
  const TmEndRScan: int := 0x0080_0000
  const TmStartRScan: int := 0x0100_0000
  const TmSuspend: int := 0x0200_0000
  const TmSuccess: int := 0x0400_0000
  const TmResume: int := 0x0800_0000
  const TmFail: int := 0x2000_0000
  const TmOnePhase: int := 0x4000_0000

  /** The outcome of an XAResource call: a value, or an XAException with its error code. */
  datatype XaResult<T> = Return(value: T) | Raise(code: int)
}
