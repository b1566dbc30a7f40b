/**
 Late replays: an outbox operation of a dead action that runs after its coins
 have moved on, among the claims and spends of live actions.
 */
module LateReplay {
  import opened Domain
  import opened Inventory

  datatype LateOp =
    | LateUnspend(spender: TxId, ops: seq<Outpoint>)
    | LateRelease(reservation: Ref, ops: seq<Outpoint>)
    | LateAbortRelease(user: int, reservation: Ref)

  datatype Event =
    | Replay(op: LateOp)
    | ClaimCoin(ref: Ref, coin: Outpoint)
    | RecordSpend(txid: TxId, coin: Outpoint)
    | PinHeld(user: int, ref: Ref)

  /** The actions being replayed: their references and txids. */
  datatype Dead = Dead(refs: set<Ref>, txids: set<TxId>)

  function ReplayOp(rows: Rows, o: LateOp): Rows {
    match o
    case LateUnspend(t, ops) => Unfreeze(Unspend(rows, t, ops), ops)
    case LateRelease(r, ops) => if r == "" then rows else ReleaseOutpoints(rows, r, ops)
    case LateAbortRelease(user, r) =>
      if r == "" then rows else ReleaseReservation(SetPinned(rows, user, r, false), user, r)
  }

  function Step(rows: Rows, e: Event): Rows {
    match e
    case Replay(o) => ReplayOp(rows, o)
    case ClaimCoin(r, op) =>
      if r != "" && op in rows && Claimable(rows[op]) then rows[op := rows[op].(reservedBy := r)] else rows
    case RecordSpend(t, op) => SpendFact(rows, t, op)
    case PinHeld(user, r) => SetPinned(rows, user, r, true)
  }

  function StepAll(rows: Rows, run: seq<Event>): Rows
    decreases |run|
  {
    if run == [] then rows else StepAll(Step(rows, run[0]), run[1..])
  }

  /** Replays belong to dead actions, everything else to live ones. */
  predicate Fits(d: Dead, e: Event) {
    match e
    case Replay(LateUnspend(t, _)) => t in d.txids
    case Replay(LateRelease(r, _)) => r in d.refs
    case Replay(LateAbortRelease(_, r)) => r in d.refs
    case ClaimCoin(r, _) => r !in d.refs
    case RecordSpend(t, _) => t !in d.txids
    case PinHeld(_, r) => r !in d.refs
  }

  /** The coin belongs to somebody else by now: spent by a live transaction, or reserved by a live action. */
  predicate Elsewhere(d: Dead, c: Coin) {
    if c.spentBy.Some? then c.spentBy.value !in d.txids
    else c.reservedBy != "" && c.reservedBy !in d.refs
  }

  lemma StepKeepsElsewhere(d: Dead, rows: Rows, e: Event, op: Outpoint)
    requires op in rows && Elsewhere(d, rows[op]) && Fits(d, e)
    ensures var rows' := Step(rows, e);
            && op in rows' && Elsewhere(d, rows'[op]) && rows'[op].reservedBy == rows[op].reservedBy
            && (rows[op].spentBy.Some? ==> rows'[op].spentBy == rows[op].spentBy)
            && (rows[op].pinned && rows'[op].spentBy.None? ==> rows'[op].pinned)
  {
  }

  /** Through any run, a coin that belongs to somebody else keeps its holder, its pin and, once spent, its spender. */
  lemma {:induction false} LateReplayKeepsHolders(d: Dead, rows: Rows, run: seq<Event>, op: Outpoint)
    requires op in rows && Elsewhere(d, rows[op]) && forall e :: e in run ==> Fits(d, e)
    ensures var rows' := StepAll(rows, run);
            && op in rows' && Elsewhere(d, rows'[op]) && rows'[op].reservedBy == rows[op].reservedBy
            && (rows[op].spentBy.Some? ==> rows'[op].spentBy == rows[op].spentBy)
            && (rows[op].pinned && rows'[op].spentBy.None? ==> rows'[op].pinned)
    decreases |run|
  {
    if run != [] {
      StepKeepsElsewhere(d, rows, run[0], op);
      LateReplayKeepsHolders(d, Step(rows, run[0]), run[1..], op);
    }
  }

  /**
   A recorded spend is not a hold: UNSPEND gives back whatever it un-spends, also a
   coin another action had reserved before the dead transaction's spend was
   recorded. The holder survives exactly when the dead transaction is not the
   recorded spender, or nobody held the coin.
   */
  lemma UnspendKeepsHolderIff(rows: Rows, t: TxId, ops: seq<Outpoint>, op: Outpoint)
    requires op in rows && op in ops
    ensures var rows' := ReplayOp(rows, LateUnspend(t, ops));
            && op in rows'
            && (rows'[op].reservedBy == rows[op].reservedBy <==>
                (rows[op].spentBy != Some(t) || rows[op].reservedBy == ""))
  {
  }

  /** The failing family: a coin reserved by a live action, spent on record by the dead one, then replayed. */
  lemma UnspendDropsForeignHold(rows: Rows, t: TxId, op: Outpoint, live: Ref)
    requires live != "" && op in rows && rows[op].reservedBy == live && rows[op].spentBy.None?
    ensures var rows' := StepAll(rows, [RecordSpend(t, op), Replay(LateUnspend(t, [op]))]);
            op in rows' && rows'[op].reservedBy == "" && Claimable(rows'[op])
  {
    var run := [RecordSpend(t, op), Replay(LateUnspend(t, [op]))];
    assert run[1..] == [Replay(LateUnspend(t, [op]))];
    var spent := Step(rows, run[0]);
    assert StepAll(spent, run[1..]) == StepAll(Step(spent, run[1..][0]), []);
  }
}
