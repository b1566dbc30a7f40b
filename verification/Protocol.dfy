/**
 The split-store ("Mode B") send/abort protocol as a step machine.

 One action is one committed write to one store. What a process remembers
 between two of its writes is either an argument of the later action (the
 snapshot an abort read) or a growing set of facts some process has learned
 (claims won, spend verdicts returned). A crash is a process that takes no further
 step, a retry is a step taken again, and two processes are two steps in any
 order, so a run is any sequence of actions.
 */
module Protocol {
  import opened Domain
  import opened Inventory

  datatype TxRow = TxRow(user: int, status: TxStatus, txid: Option<TxId>)

  datatype KnownTx = KnownTx(
    status: KnownStatus,
    inputs: seq<Outpoint>,      // what the stored raw bytes spend
    wasBroadcast: bool,
    updatedAt: int)

  datatype State = State(
    clock: int,
    rows: Rows,                              // utxostore
    txs: map<Ref, TxRow>,                    // metastore: transactions
    known: map<TxId, KnownTx>,               // metastore: known_txs
    intents: set<Ref>,                       // metastore: ABORT_RELEASE intents ever enqueued
    finalised: set<TxId>,                    // metastore: suspects ever finalised, with their release intents
    stuck: set<TxId>,                        // metastore: suspects ever given up
    // facts learned by processes
    swept: set<Ref>,                         // references a sweep has read as having no row
    proven: set<TxId>,                       // header-verified proofs at hand
    pinnedRefs: set<Ref>,                    // a signer's Pin has returned
    owned: map<TxId, seq<int>>,              // times at which a claim was won
    claims: map<TxId, nat>,                  // how often the plain claim was won
    verdicts: set<(TxId, Outpoint)>,         // per-input success of an accept's spend call
    // what happened
    posted: set<TxId>,                       // bytes handed to the network
    posts: set<(TxId, nat)>,                 // which of the won claims have handed them over
    accepted: set<TxId>,                     // moved to unconfirmed by an accept
    held: set<(Ref, Outpoint)>,              // coins an action held when its row was inserted
    freed: set<(Ref, Outpoint)>)             // coins given back by an abort

  datatype SendMode = ModeNoSend | ModeDelayed | ModeImmediate

  /** One write to the coin inventory. */
  datatype CoinWrite =
    | Mint(op: Outpoint, coin: Coin)
    | Reserve(ref: Ref, user: int, op: Outpoint)
    | Compensate(ref: Ref, user: int)
    | SweepRelease(ref: Ref, user: int)
    | Pin(ref: Ref)
    | SpendItem(txid: TxId, op: Outpoint)
    | AbortUnpin(ref: Ref)
    | AbortFree(ref: Ref)
    | RemoveChange(ops: seq<Outpoint>)
    | ReleaseSpent(txid: TxId, ops: seq<Outpoint>)             // UNSPEND
    | ReleaseHeld(txid: TxId, ref: Ref, ops: seq<Outpoint>)    // RELEASE
    | RemovePhantoms(txid: TxId, ops: seq<Outpoint>)           // REMOVE_PHANTOM
    | Prune(txid: TxId, ops: seq<Outpoint>)                    // spent inputs of a mined transaction

  /** One commit to the metadata. */
  datatype MetaWrite =
    | InsertTx(ref: Ref, user: int)
    | Sign(ref: Ref, txid: TxId, inputs: seq<Outpoint>, mode: SendMode)
    | Queue(txid: TxId)
    | Claim(txid: TxId)
    | Reclaim(txid: TxId)
    | AcceptCommit(txid: TxId)
    | Reject(txid: TxId)
    | Seen(txid: TxId)
    | Suspect(txid: TxId)
    | Escalate(txid: TxId)
    | MinedCommit(txid: TxId)
    | Finalise(txid: TxId, terminal: KnownStatus)
    | Fence(ref: Ref, snapshot: Option<TxId>)

  datatype Action =
    | Coins(c: CoinWrite)
    | Meta(m: MetaWrite)
    | Tick(dt: nat)
    | Post(txid: TxId, claim: nat)
    | SweepRead(ref: Ref)
    | Prove(txid: TxId)

  const RESEND_GRACE: int := 20

  // ---- the steps -------------------------------------------------------------

  /** The (transaction, known-tx) statuses of a freshly signed transaction: claimable, and abortable unless sent at once. */
  function NewStatuses(mode: SendMode): (r: (TxStatus, KnownStatus))
    ensures PreBroadcast(r.1) && (Abortable(r.0) <==> !mode.ModeImmediate?) && (r.1.KNoSend? <==> mode.ModeNoSend?)
    ensures r.0 in ACCEPT_FROM
  {
    match mode
    case ModeNoSend => (NoSend, KNoSend)
    case ModeDelayed => (Unprocessed, KUnsent)
    case ModeImmediate => (Sending, KUnprocessed)
  }

  const ACCEPT_FROM: set<TxStatus> := {Sending, NoSend, Unproven, Unprocessed}
  const REJECT_FROM: set<TxStatus> := {Sending, NoSend, Unproven}
  const FAIL_FROM: set<TxStatus> := {Unproven, Sending, Unprocessed, NoSend}
  const MINED_FROM: set<TxStatus> := {Sending, NoSend, Unproven, Unprocessed, Completed}

  /** Moves every row carrying `txid` from one of the expected statuses. */
  function MoveTxRows(txs: map<Ref, TxRow>, txid: TxId, to: TxStatus, from: set<TxStatus>): map<Ref, TxRow> {
    map r | r in txs ::
      if txs[r].txid == Some(txid) && txs[r].status in from then txs[r].(status := to) else txs[r]
  }

  function Stamp(k: KnownTx, to: KnownStatus, now: int): KnownTx {
    k.(status := to, updatedAt := now, wasBroadcast := k.wasBroadcast || WasBroadcastStatus(to))
  }

  /** The compare-and-set behind both the claim and the abort fence. */
  predicate CanLeavePreBroadcast(k: KnownTx) {
    PreBroadcast(k.status) && !k.wasBroadcast
  }

  function HeldCoins(rows: Rows, user: int, ref: Ref): set<(Ref, Outpoint)> {
    set op | op in rows && HeldBy(rows[op], user, ref) :: (ref, op)
  }

  function FreeableCoins(rows: Rows, user: int, ref: Ref): set<(Ref, Outpoint)> {
    set op | op in rows && HeldBy(rows[op], user, ref) && !rows[op].pinned :: (ref, op)
  }

  predicate CanSign(s: State, ref: Ref, txid: TxId) {
    && ref in s.txs && ref in s.pinnedRefs
    && (s.txs[ref].txid.None? || s.txs[ref].txid == Some(txid))
    && (s.txs[ref].status.Unsigned? || s.txs[ref].status.Unprocessed?)
    && (txid in s.known ==> !NeverRequeue(s.known[txid].status))
  }

  function SignStep(s: State, ref: Ref, txid: TxId, inputs: seq<Outpoint>, mode: SendMode): State
    requires CanSign(s, ref, txid)
  {
    var (txStatus, kStatus) := NewStatuses(mode);
    var k := if txid in s.known then Stamp(s.known[txid], kStatus, s.clock)
             else KnownTx(kStatus, inputs, false, s.clock);
    s.(txs := s.txs[ref := s.txs[ref].(txid := Some(txid), status := txStatus)],
       known := s.known[txid := k])
  }

  /** Some process has won a claim on these bytes. */
  predicate Won(s: State, txid: TxId) {
    txid in s.owned
  }

  function Owned(s: State, txid: TxId): seq<int> {
    if txid in s.owned then s.owned[txid] else []
  }

  function Claims(s: State, txid: TxId): nat {
    if txid in s.claims then s.claims[txid] else 0
  }

  function WinClaim(s: State, txid: TxId, plain: bool): State
    requires txid in s.known
  {
    s.(known := s.known[txid := s.known[txid].(status := KSending, updatedAt := s.clock)],
       owned := s.owned[txid := Owned(s, txid) + [s.clock]],
       claims := s.claims[txid := Claims(s, txid) + if plain then 1 else 0])
  }

  /** A send stranded for at least `grace`. */
  predicate Stranded(s: State, txid: TxId, grace: int) {
    && txid in s.known && s.known[txid].status.KSending? && !s.known[txid].wasBroadcast
    && s.known[txid].updatedAt <= s.clock - grace
  }

  predicate CanReclaim(s: State, txid: TxId) {
    Stranded(s, txid, RESEND_GRACE)
  }

  predicate CanAccept(s: State, txid: TxId) {
    && txid in s.posted && txid in s.known
    && (exists r :: r in s.txs && s.txs[r].txid == Some(txid))
    && (forall op :: op in s.known[txid].inputs ==> (txid, op) in s.verdicts)
  }

  /** An accept's metadata commit: it runs only after every input had a verdict. */
  function AcceptStep(s: State, txid: TxId): State
    requires CanAccept(s, txid)
  {
    var k := s.known[txid];
    s.(txs := MoveTxRows(s.txs, txid, Unproven, ACCEPT_FROM),
       known := if WasBroadcastStatus(k.status) then s.known
                else s.known[txid := Stamp(k, KUnconfirmed, s.clock)],
       accepted := s.accepted + {txid})
  }

  /** The verdict of one fact-mode spend: recorded, already ours, or external. */
  predicate SpendSucceeds(rows: Rows, txid: TxId, op: Outpoint) {
    op !in rows || rows[op].spentBy.None? || rows[op].spentBy == Some(txid)
  }

  /** Phase 1 of an abort: both gates must clear, in one metadata commit. */
  predicate CanFence(s: State, ref: Ref, snapshot: Option<TxId>) {
    && ref in s.txs && Abortable(s.txs[ref].status)
    && (snapshot.Some? && snapshot.value in s.known ==> CanLeavePreBroadcast(s.known[snapshot.value]))
  }

  function FenceStep(s: State, ref: Ref, snapshot: Option<TxId>): State
    requires CanFence(s, ref, snapshot)
  {
    s.(txs := s.txs[ref := s.txs[ref].(status := Aborted)],
       known := if snapshot.Some? && snapshot.value in s.known
                then s.known[snapshot.value := Stamp(s.known[snapshot.value], KAborted, s.clock)]
                else s.known,
       intents := s.intents + {ref})
  }

  /** The coins of an action may be given back by its recorded intent, or by the sweep of aborted actions. */
  predicate MayFree(s: State, ref: Ref) {
    ref in s.txs && (ref in s.intents || s.txs[ref].status.Aborted?)
  }

  /** Statuses a SEEN does not overwrite. */
  predicate SeenSkips(k: KnownStatus) {
    WasBroadcastStatus(k) || k.KAborted? || k.KStuck?
  }

  predicate Spends(s: State, txid: TxId, ops: seq<Outpoint>) {
    txid in s.known && forall op :: op in ops ==> op in s.known[txid].inputs
  }

  /** A coin write leaves the metadata, and what was claimed, posted or accepted, alone. */
  predicate SameMetadata(s: State, r: State) {
    && r.clock == s.clock && r.txs == s.txs && r.known == s.known && r.intents == s.intents
    && r.finalised == s.finalised && r.stuck == s.stuck && r.proven == s.proven && r.owned == s.owned && r.claims == s.claims
    && r.posted == s.posted && r.posts == s.posts && r.accepted == s.accepted && r.held == s.held
  }

  /** A metadata commit leaves the inventory, and what processes learned from it, alone. */
  predicate SameInventory(s: State, r: State) {
    && r.clock == s.clock && r.rows == s.rows && r.swept == s.swept && r.proven == s.proven
    && r.pinnedRefs == s.pinnedRefs && r.verdicts == s.verdicts && r.posted == s.posted && r.posts == s.posts
    && r.freed == s.freed
  }

  // ---- each action, as it happens or is refused ---------------------------------

  function OnMint(s: State, op: Outpoint, c: Coin): (r: State)
    ensures SameMetadata(s, r)
  {
    if op in s.rows || c.reservedBy != "" || c.pinned || c.spentBy.Some? then s
    else s.(rows := s.rows[op := c])
  }

  /** A claim or a named reserve: always before the action's row exists. */
  function OnReserve(s: State, ref: Ref, user: int, op: Outpoint): (r: State)
    ensures SameMetadata(s, r)
  {
    if ref != "" && ref !in s.txs && op in s.rows && s.rows[op].user == user && Claimable(s.rows[op])
    then s.(rows := s.rows[op := s.rows[op].(reservedBy := ref)]) else s
  }

  function OnInsert(s: State, ref: Ref, user: int): (r: State)
    ensures SameInventory(s, r)
  {
    if ref == "" || ref in s.txs then s
    else s.(txs := s.txs[ref := TxRow(user, Unsigned, None)], held := s.held + HeldCoins(s.rows, user, ref))
  }

  /** An action whose persist step reported an error gives its coins back, also when the row was committed all the same. */
  function OnCompensate(s: State, ref: Ref, user: int): (r: State)
    ensures SameMetadata(s, r)
  {
    if ref == "" then s else s.(rows := ReleaseReservation(s.rows, user, ref))
  }

  /** The stale-reservation sweep finds no row for a reference. */
  function OnSweepRead(s: State, ref: Ref): State {
    if ref in s.txs then s else s.(swept := s.swept + {ref})
  }

  /** The sweep releases what it read as an orphan, whatever has happened since. */
  function OnSweepRelease(s: State, ref: Ref, user: int): (r: State)
    ensures SameMetadata(s, r)
  {
    if ref == "" || ref !in s.swept then s
    else s.(rows := ReleaseReservation(s.rows, user, ref), swept := s.swept - {ref})
  }

  function OnPin(s: State, ref: Ref): (r: State)
    ensures SameMetadata(s, r)
  {
    if ref !in s.txs then s
    else s.(rows := SetPinned(s.rows, s.txs[ref].user, ref, true), pinnedRefs := s.pinnedRefs + {ref})
  }

  function OnSign(s: State, ref: Ref, txid: TxId, inputs: seq<Outpoint>, mode: SendMode): (r: State)
    ensures SameInventory(s, r)
  {
    if CanSign(s, ref, txid) then SignStep(s, ref, txid, inputs, mode) else s
  }

  function OnQueue(s: State, txid: TxId): (r: State)
    ensures SameInventory(s, r)
  {
    if txid in s.known && !NeverRequeue(s.known[txid].status)
    then s.(known := s.known[txid := Stamp(s.known[txid], KUnsent, s.clock)]) else s
  }

  function OnClaim(s: State, txid: TxId): (r: State)
    ensures SameInventory(s, r)
  {
    if txid in s.known && CanLeavePreBroadcast(s.known[txid]) then WinClaim(s, txid, true) else s
  }

  function OnReclaim(s: State, txid: TxId): (r: State)
    ensures SameInventory(s, r)
  {
    if CanReclaim(s, txid) then WinClaim(s, txid, false) else s
  }

  /** The holder of the n-th won claim hands the bytes over, whatever has happened since. */
  function OnPost(s: State, txid: TxId, n: nat): State {
    if n < |Owned(s, txid)| then s.(posted := s.posted + {txid}, posts := s.posts + {(txid, n)}) else s
  }

  function OnSpend(s: State, txid: TxId, op: Outpoint): (r: State)
    ensures SameMetadata(s, r)
  {
    if txid in s.posted && txid in s.known && op in s.known[txid].inputs && SpendSucceeds(s.rows, txid, op)
    then s.(rows := SpendFact(s.rows, txid, op), verdicts := s.verdicts + {(txid, op)}) else s
  }

  function OnAccept(s: State, txid: TxId): (r: State)
    ensures SameInventory(s, r)
  {
    if CanAccept(s, txid) then AcceptStep(s, txid) else s
  }

  function OnReject(s: State, txid: TxId): (r: State)
    ensures SameInventory(s, r)
  {
    if txid in s.posted && txid in s.known
    then s.(txs := MoveTxRows(s.txs, txid, Failed, REJECT_FROM),
            known := s.known[txid := Stamp(s.known[txid], KSuspectFailed, s.clock)])
    else s
  }

  function OnSeen(s: State, txid: TxId): (r: State)
    ensures SameInventory(s, r)
  {
    if txid !in s.known then s
    else s.(txs := MoveTxRows(s.txs, txid, Unproven, ACCEPT_FROM),
            known := if SeenSkips(s.known[txid].status) then s.known
                     else s.known[txid := Stamp(s.known[txid], KUnconfirmed, s.clock)])
  }

  function OnSuspect(s: State, txid: TxId): (r: State)
    ensures SameInventory(s, r)
  {
    if txid !in s.known then s else s.(known := s.known[txid := Stamp(s.known[txid], KSuspectFailed, s.clock)])
  }

  /** A suspect leaves that status for good: stuck, or finally dead with its release intents. */
  function SettleSuspect(s: State, txid: TxId, to: KnownStatus): State
    requires txid in s.known
  {
    s.(txs := MoveTxRows(s.txs, txid, Failed, FAIL_FROM), known := s.known[txid := Stamp(s.known[txid], to, s.clock)])
  }

  function OnEscalate(s: State, txid: TxId): (r: State)
    ensures SameInventory(s, r)
  {
    if txid in s.known && s.known[txid].status.KSuspectFailed?
    then SettleSuspect(s, txid, KStuck).(stuck := s.stuck + {txid}) else s
  }

  function OnFinalise(s: State, txid: TxId, terminal: KnownStatus): (r: State)
    ensures SameInventory(s, r)
  {
    if txid in s.known && s.known[txid].status.KSuspectFailed? && TerminalFailure(terminal)
    then SettleSuspect(s, txid, terminal).(finalised := s.finalised + {txid}) else s
  }

  function OnMined(s: State, txid: TxId): (r: State)
    ensures SameInventory(s, r)
  {
    if txid in s.known && txid in s.proven
    then s.(txs := MoveTxRows(s.txs, txid, Completed, MINED_FROM),
            known := s.known[txid := Stamp(s.known[txid], KCompleted, s.clock)])
    else s
  }

  function OnFence(s: State, ref: Ref, snapshot: Option<TxId>): (r: State)
    ensures SameInventory(s, r)
  {
    if CanFence(s, ref, snapshot) then FenceStep(s, ref, snapshot) else s
  }

  function OnUnpin(s: State, ref: Ref): (r: State)
    ensures SameMetadata(s, r)
  {
    if MayFree(s, ref) then s.(rows := SetPinned(s.rows, s.txs[ref].user, ref, false)) else s
  }

  function OnFree(s: State, ref: Ref): (r: State)
    ensures SameMetadata(s, r)
  {
    if MayFree(s, ref)
    then s.(rows := ReleaseReservation(s.rows, s.txs[ref].user, ref),
            freed := s.freed + FreeableCoins(s.rows, s.txs[ref].user, ref))
    else s
  }

  function OnRemove(s: State, ops: seq<Outpoint>): (r: State)
    ensures SameMetadata(s, r)
  {
    s.(rows := RemoveByMintTx(s.rows, ops))
  }

  /** The transaction that created the coin was finalised or given up. */
  predicate SourceGone(s: State, op: Outpoint) {
    op.txid in s.finalised || op.txid in s.stuck
  }

  // The release of a finalised transaction's inputs, and the pruning of a mined one's:
  // any of its inputs, any number of times.

  function OnReleaseSpent(s: State, txid: TxId, ops: seq<Outpoint>): (r: State)
    ensures SameMetadata(s, r)
  {
    if txid in s.finalised && Spends(s, txid, ops) then s.(rows := Unfreeze(Unspend(s.rows, txid, ops), ops)) else s
  }

  function OnReleaseHeld(s: State, txid: TxId, ref: Ref, ops: seq<Outpoint>): (r: State)
    ensures SameMetadata(s, r)
  {
    if txid in s.finalised && Spends(s, txid, ops) && ref != "" && ref in s.txs && s.txs[ref].txid == Some(txid)
    then s.(rows := ReleaseOutpoints(s.rows, ref, ops)) else s
  }

  function OnRemovePhantoms(s: State, txid: TxId, ops: seq<Outpoint>): (r: State)
    ensures SameMetadata(s, r)
  {
    if txid in s.finalised && Spends(s, txid, ops) && forall op :: op in ops ==> SourceGone(s, op)
    then s.(rows := Remove(s.rows, ops)) else s
  }

  /** Pruning follows a verified proof, not the commit of the mined status. */
  function OnPrune(s: State, txid: TxId, ops: seq<Outpoint>): (r: State)
    ensures SameMetadata(s, r)
  {
    if txid in s.proven && Spends(s, txid, ops) then s.(rows := Remove(s.rows, ops)) else s
  }

  function ApplyCoins(s: State, c: CoinWrite): (r: State)
    ensures SameMetadata(s, r)
  {
    match c
    case Mint(op, coin) => OnMint(s, op, coin)
    case Reserve(ref, user, op) => OnReserve(s, ref, user, op)
    case Compensate(ref, user) => OnCompensate(s, ref, user)
    case SweepRelease(ref, user) => OnSweepRelease(s, ref, user)
    case Pin(ref) => OnPin(s, ref)
    case SpendItem(txid, op) => OnSpend(s, txid, op)
    case AbortUnpin(ref) => OnUnpin(s, ref)
    case AbortFree(ref) => OnFree(s, ref)
    case RemoveChange(ops) => OnRemove(s, ops)
    case ReleaseSpent(txid, ops) => OnReleaseSpent(s, txid, ops)
    case ReleaseHeld(txid, ref, ops) => OnReleaseHeld(s, txid, ref, ops)
    case RemovePhantoms(txid, ops) => OnRemovePhantoms(s, txid, ops)
    case Prune(txid, ops) => OnPrune(s, txid, ops)
  }

  function ApplyMeta(s: State, m: MetaWrite): (r: State)
    ensures SameInventory(s, r)
  {
    match m
    case InsertTx(ref, user) => OnInsert(s, ref, user)
    case Sign(ref, txid, inputs, mode) => OnSign(s, ref, txid, inputs, mode)
    case Queue(txid) => OnQueue(s, txid)
    case Claim(txid) => OnClaim(s, txid)
    case Reclaim(txid) => OnReclaim(s, txid)
    case AcceptCommit(txid) => OnAccept(s, txid)
    case Reject(txid) => OnReject(s, txid)
    case Seen(txid) => OnSeen(s, txid)
    case Suspect(txid) => OnSuspect(s, txid)
    case Escalate(txid) => OnEscalate(s, txid)
    case MinedCommit(txid) => OnMined(s, txid)
    case Finalise(txid, terminal) => OnFinalise(s, txid, terminal)
    case Fence(ref, snapshot) => OnFence(s, ref, snapshot)
  }

  function Apply(s: State, a: Action): State {
    match a
    case Coins(c) => ApplyCoins(s, c)
    case Meta(m) => ApplyMeta(s, m)
    case Tick(dt) => s.(clock := s.clock + dt)
    case Post(txid, claim) => OnPost(s, txid, claim)
    case SweepRead(ref) => OnSweepRead(s, ref)
    case Prove(txid) => s.(proven := s.proven + {txid})
  }

  /** A known transaction stays known with its inputs. */
  lemma KnownStays(s: State, m: MetaWrite, t: TxId)
    requires t in s.known
    ensures t in ApplyMeta(s, m).known && ApplyMeta(s, m).known[t].inputs == s.known[t].inputs
  {
  }

  /** A row stays, with its user and the txid it is bound to. */
  lemma RowStays(s: State, m: MetaWrite, r: Ref)
    requires r in s.txs
    ensures r in ApplyMeta(s, m).txs && ApplyMeta(s, m).txs[r].user == s.txs[r].user
    ensures s.txs[r].txid.Some? ==> ApplyMeta(s, m).txs[r].txid == s.txs[r].txid
  {
  }

  lemma FinalisedGrows(s: State, m: MetaWrite)
    ensures s.finalised <= ApplyMeta(s, m).finalised && s.stuck <= ApplyMeta(s, m).stuck
  {
  }

  lemma UnpinStep(s: State, ref: Ref, op: Outpoint)
    requires MayFree(s, ref)
    requires op in s.rows && HeldBy(s.rows[op], s.txs[ref].user, ref)
    ensures var s' := OnUnpin(s, ref);
            && s' == s.(rows := s'.rows)
            && op in s'.rows && s'.rows[op] == s.rows[op].(pinned := false)
  {
  }

  lemma FreeStep(s: State, ref: Ref, op: Outpoint)
    requires MayFree(s, ref)
    requires ref != "" && op in s.rows && HeldBy(s.rows[op], s.txs[ref].user, ref) && !s.rows[op].pinned
    ensures var s' := OnFree(s, ref);
            && s' == s.(rows := s'.rows, freed := s'.freed)
            && op in s'.rows && s'.rows[op] == s.rows[op].(reservedBy := "") && (ref, op) in s'.freed
  {
  }

  function Run(s: State, run: seq<Action>): State
    decreases |run|
  {
    if run == [] then s else Run(Apply(s, run[0]), run[1..])
  }

  lemma {:induction false} RunConcat(s: State, run: seq<Action>, more: seq<Action>)
    ensures Run(s, run + more) == Run(Run(s, run), more)
    decreases |run|
  {
    if run == [] {
      assert run + more == more;
    } else {
      assert (run + more)[1..] == run[1..] + more;
      RunConcat(Apply(s, run[0]), run[1..], more);
    }
  }

  lemma RunSnoc(s: State, run: seq<Action>, a: Action)
    ensures Run(s, run + [a]) == Apply(Run(s, run), a)
  {
    RunConcat(s, run, [a]);
  }

  lemma RunOfThree(s: State, a: Action, b: Action, c: Action)
    ensures Run(s, [a] + [b] + [c]) == Apply(Apply(Apply(s, a), b), c)
  {
    RunSnoc(s, [], a);
    assert [] + [a] == [a];
    RunSnoc(s, [a], b);
    RunSnoc(s, [a] + [b], c);
  }

  ghost predicate Init(s: State) {
    && s.txs == map[] && s.known == map[] && s.intents == {} && s.finalised == {} && s.stuck == {}
    && s.swept == {} && s.proven == {} && s.pinnedRefs == {}
    && s.owned == map[] && s.claims == map[] && s.verdicts == {} && s.posted == {} && s.posts == {}
    && s.accepted == {} && s.held == {} && s.freed == {}
    && forall op :: op in s.rows ==> s.rows[op].reservedBy == "" && !s.rows[op].pinned && s.rows[op].spentBy.None?
  }
}
