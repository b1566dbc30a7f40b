/**
 Identifiers and the two status vocabularies the storage package keeps:
 the wallet-side transaction status and the storage-wide known-tx status.
 */
module Domain {

  datatype Option<+T> = None | Some(value: T)

  ghost predicate Distinct<T>(s: seq<T>) {
    forall i, j :: 0 <= i < j < |s| ==> s[i] != s[j]
  }

  /** A transaction id, in display form. */
  type TxId = string

  /** A transaction reference, which is also its reservation token. */
  type Ref = string

  datatype Outpoint = Outpoint(txid: TxId, vout: nat)

  datatype TxStatus =
    | Completed | Failed | Unprocessed | Sending | Unproven
    | Unsigned | NoSend | NonFinal | Unfail | Aborted

  datatype KnownStatus =
    | KSending | KUnsent | KNoSend | KUnknown | KNonFinal | KUnprocessed
    | KUnmined | KCallback | KUnconfirmed | KCompleted | KInvalid | KDoubleSpend
    | KUnfail | KReorg | KSuspectFailed | KStuck | KAborted

  /** The wallet-side statuses a caller may abort. */
  predicate Abortable(s: TxStatus) {
    s.Unsigned? || s.NoSend? || s.Unprocessed? || s.NonFinal?
  }

  /** The from-set shared by the abort fence and the send claim. */
  predicate PreBroadcast(s: KnownStatus) {
    s.KUnsent? || s.KUnprocessed? || s.KNoSend?
  }

  /** Statuses proving that the network accepted the transaction. */
  predicate WasBroadcastStatus(s: KnownStatus) {
    s.KUnmined? || s.KCallback? || s.KUnconfirmed? || s.KCompleted? || s.KReorg?
  }

  /** Statuses from which bytes must never be put back on a broadcast work list. */
  predicate NeverRequeue(s: KnownStatus) {
    || WasBroadcastStatus(s)
    || s.KAborted? || s.KSuspectFailed? || s.KStuck?
    || s.KInvalid? || s.KDoubleSpend? || s.KSending?
  }

  predicate TerminalFailure(s: KnownStatus) {
    s.KInvalid? || s.KDoubleSpend?
  }
}
