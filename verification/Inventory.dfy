/**
 The coin inventory (the utxostore): one row per outpoint, with its reservation,
 pin, recorded spender and freeze. Every store operation is a guarded transition of
 single rows, given first for one coin and then for all rows.
 */
module Inventory {
  import opened Domain

  datatype Tier = TierSending | TierUnproven | TierMined

  datatype Coin = Coin(
    user: int,
    basket: string,
    satoshis: nat,
    tier: Tier,
    reservedBy: Ref,          // "" = not reserved
    pinned: bool,
    spentBy: Option<TxId>,
    frozen: bool)

  type Rows = map<Outpoint, Coin>

  predicate Claimable(c: Coin) {
    c.reservedBy == "" && c.spentBy.None? && !c.frozen
  }

  /** Membership of a live (unspent) reservation. */
  predicate HeldBy(c: Coin, user: int, ref: Ref) {
    c.user == user && c.reservedBy == ref && c.spentBy.None?
  }

  function Unreserved(c: Coin): Coin {
    c.(reservedBy := "", pinned := false)
  }

  // ---- transitions of one coin ---------------------------------------------

  function PinCoin(c: Coin, user: int, ref: Ref, pinned: bool): Coin {
    if HeldBy(c, user, ref) then c.(pinned := pinned) else c
  }

  function ReleaseReservedCoin(c: Coin, user: int, ref: Ref): Coin {
    if HeldBy(c, user, ref) && !c.pinned then c.(reservedBy := "") else c
  }

  /** Release of a named coin: a matching token overrides the pin. */
  function ReleaseCoin(c: Coin, ref: Ref): Coin {
    if c.reservedBy == ref && c.spentBy.None? then Unreserved(c) else c
  }

  function UnspendCoin(c: Coin, spender: TxId): Coin {
    if c.spentBy == Some(spender) then Unreserved(c).(spentBy := None) else c
  }

  /** Fact-mode spend of an unspent coin. */
  function SpendCoin(c: Coin, spender: TxId): Coin {
    if c.spentBy.None? then c.(spentBy := Some(spender), pinned := false) else c
  }

  // ---- transitions of the rows ---------------------------------------------

  function SetPinned(rows: Rows, user: int, ref: Ref, pinned: bool): Rows {
    map op | op in rows :: PinCoin(rows[op], user, ref, pinned)
  }

  function ReleaseReservation(rows: Rows, user: int, ref: Ref): Rows {
    map op | op in rows :: ReleaseReservedCoin(rows[op], user, ref)
  }

  function ReleaseOutpoints(rows: Rows, ref: Ref, ops: seq<Outpoint>): Rows {
    map op | op in rows :: if op in ops then ReleaseCoin(rows[op], ref) else rows[op]
  }

  function Unspend(rows: Rows, spender: TxId, ops: seq<Outpoint>): Rows {
    map op | op in rows :: if op in ops then UnspendCoin(rows[op], spender) else rows[op]
  }

  function Unfreeze(rows: Rows, ops: seq<Outpoint>): Rows {
    map op | op in rows :: if op in ops then rows[op].(frozen := false) else rows[op]
  }

  function Remove(rows: Rows, ops: seq<Outpoint>): Rows {
    map op | op in rows && op !in ops :: rows[op]
  }

  /** Removal of a dead transaction's outputs: only unreserved, unspent rows go. */
  function RemoveByMintTx(rows: Rows, ops: seq<Outpoint>): Rows {
    map op | op in rows && !(op in ops && rows[op].reservedBy == "" && rows[op].spentBy.None?) :: rows[op]
  }

  /** The spenders RemoveByMintTx reports for the rows it had to keep. */
  function AlreadySpentBy(rows: Rows, ops: seq<Outpoint>): set<TxId> {
    set op | op in ops && op in rows && rows[op].spentBy.Some? :: rows[op].spentBy.value
  }

  function SpendFact(rows: Rows, spender: TxId, op: Outpoint): Rows {
    if op in rows then rows[op := SpendCoin(rows[op], spender)] else rows
  }
}
