/**
 The storage provider of the split-store deployment, method by method. Each
 store call is one committed write, so what a method did alone is a run of the
 step machine; a crash after any of its store calls is a prefix of that run.
 */
module ProviderModel {
  import opened Domain
  import opened Inventory
  import opened Protocol
  import opened AcceptOrder

  datatype DbError = DbOk | DbNotFound | DbSkipped | DbMismatch | DbClash

  datatype SendClaim = ClaimOwned | ClaimInFlight | ClaimAlreadySent | ClaimVanished | NotBroadcastable(status: KnownStatus)

  datatype QueueResult = Queued | QueueNoRow | QueueAlreadySent | QueueRefused(status: KnownStatus)

  /** The oracle's answer to a POST. */
  datatype PostOutcome = PostAccepted | PostRejected | PostServiceError

  datatype Fault = NoFault | ContentionFault | BackendFault

  /** Per-item verdict of a fact-mode spend. */
  datatype SpendVerdict = Recorded | NotFound | SpentByOther(winner: TxId) | Contended | ItemError

  datatype AbortError = AbortOk | NotAbortable | LostToSend

  datatype SendResult = SendRefused | SendLeft | SendFailed | SendApplied

  datatype SweepOutcome = SweptOrphan | SweptByAbort | SweptByHeal | SweptSkipped

  datatype ChangeOut = ChangeOut(op: Outpoint, basket: string, satoshis: nat)

  datatype TopError = TopNone | TopBatch | TopOther

  class Provider {
    var clock: int
    var rows: Rows
    var txs: map<Ref, TxRow>
    var known: map<TxId, KnownTx>
    var intents: set<Ref>
    ghost var finalised: set<TxId>
    ghost var stuck: set<TxId>
    ghost var swept: set<Ref>
    ghost var proven: set<TxId>
    ghost var pinnedRefs: set<Ref>
    ghost var owned: map<TxId, seq<int>>
    ghost var claims: map<TxId, nat>
    ghost var verdicts: set<(TxId, Outpoint)>
    ghost var posted: set<TxId>
    ghost var posts: set<(TxId, nat)>
    ghost var accepted: set<TxId>
    ghost var held: set<(Ref, Outpoint)>
    ghost var freed: set<(Ref, Outpoint)>

    ghost function View(): State
      reads this
    {
      State(clock, rows, txs, known, intents, finalised, stuck, swept, proven, pinnedRefs, owned, claims,
            verdicts, posted, posts, accepted, held, freed)
    }

    // ---- the arbiter's compare-and-sets ---------------------------------------

    method ClaimForSend(txid: TxId) returns (e: DbError)
      modifies this`known, this`owned, this`claims
      ensures View() == OnClaim(old(View()), txid)
      ensures e == if txid !in old(known) then DbNotFound
                   else if CanLeavePreBroadcast(old(known)[txid]) then DbOk else DbSkipped
    {
      if txid !in known { return DbNotFound; }
      var k := known[txid];
      if !PreBroadcast(k.status) || k.wasBroadcast { return DbSkipped; }
      owned, claims := owned[txid := Owned(View(), txid) + [clock]], claims[txid := Claims(View(), txid) + 1];
      known := known[txid := k.(status := KSending, updatedAt := clock)];
      return DbOk;
    }

    method ReclaimStaleSend(txid: TxId, grace: int) returns (e: DbError)
      modifies this`known, this`owned, this`claims
      ensures View() == if Stranded(old(View()), txid, grace) then WinClaim(old(View()), txid, false) else old(View())
      ensures e == if txid !in old(known) then DbNotFound
                   else if Stranded(old(View()), txid, grace) then DbOk else DbSkipped
    {
      if txid !in known { return DbNotFound; }
      var k := known[txid];
      if !k.status.KSending? || k.wasBroadcast || clock - grace < k.updatedAt { return DbSkipped; }
      owned, claims := owned[txid := Owned(View(), txid) + [clock]], claims[txid := Claims(View(), txid)];
      known := known[txid := k.(updatedAt := clock)];
      return DbOk;
    }

    /** The send half of the arbiter: the only way to the right to POST. */
    method ClaimForBroadcast(txid: TxId, seen: KnownStatus) returns (claim: SendClaim)
      modifies this`known, this`owned, this`claims
      ensures claim.ClaimOwned? <==>
                (txid in old(known) && (CanReclaim(old(View()), txid) ||
                                        (CanLeavePreBroadcast(old(known)[txid]) && seen != KSending)))
      ensures View() == if !claim.ClaimOwned? then old(View())
                        else if CanReclaim(old(View()), txid) then OnReclaim(old(View()), txid)
                        else OnClaim(old(View()), txid)
      ensures claim.ClaimVanished? <==> txid !in old(known)
      ensures claim.ClaimAlreadySent? ==> WasBroadcastStatus(old(known)[txid].status)
      ensures claim.ClaimInFlight? ==> old(known)[txid].status.KSending? && !CanReclaim(old(View()), txid)
      ensures claim.NotBroadcastable? ==> old(known)[txid].status == claim.status && claim.status != KSending
    {
      var e: DbError;
      var recovering := seen.KSending?;
      if recovering {
        e := ReclaimStaleSend(txid, RESEND_GRACE);
      } else {
        e := ClaimForSend(txid);
      }
      if e.DbOk? { return ClaimOwned; }
      if e.DbNotFound? { return ClaimVanished; }
      var st := known[txid].status;
      if WasBroadcastStatus(st) { return ClaimAlreadySent; }
      if !st.KSending? { return NotBroadcastable(st); }
      if recovering { return ClaimInFlight; }
      e := ReclaimStaleSend(txid, RESEND_GRACE);
      claim := if e.DbOk? then ClaimOwned else ClaimInFlight;
    }

    /** Re-queues a transaction for the delayed sender, unless its status never re-queues. */
    method QueueDelayed(txid: TxId) returns (r: QueueResult)
      modifies this`known
      ensures View() == OnQueue(old(View()), txid)
      ensures r.QueueNoRow? <==> txid !in old(known)
      ensures r.Queued? <==> txid in old(known) && !NeverRequeue(old(known)[txid].status)
      ensures r.QueueAlreadySent? ==> WasBroadcastStatus(old(known)[txid].status) || old(known)[txid].status.KSending?
      ensures r.QueueRefused? ==> r.status == old(known)[txid].status && NeverRequeue(r.status)
                                  && !WasBroadcastStatus(r.status) && !r.status.KSending?
    {
      if txid !in known { return QueueNoRow; }
      var k := known[txid];
      if !NeverRequeue(k.status) {
        known := known[txid := Stamp(k, KUnsent, clock)];
        return Queued;
      }
      if WasBroadcastStatus(k.status) || k.status.KSending? { return QueueAlreadySent; }
      return QueueRefused(k.status);
    }

    // ---- signing ----------------------------------------------------------------

    method PinReservation(ref: Ref)
      requires ref in txs
      modifies this`rows, this`pinnedRefs
      ensures View() == OnPin(old(View()), ref)
    {
      rows := SetPinned(rows, txs[ref].user, ref, true);
      pinnedRefs := pinnedRefs + {ref};
    }

    /** Mints the change of a signed transaction: what exists with the same identity is left as it is. */
    method MintChange(user: int, change: seq<ChangeOut>) returns (ok: bool)
      modifies this`rows
      ensures rows == MintRows(old(rows), user, change)
      ensures ok <==> !Clashes(old(rows), user, change)
    {
      ok := true;
      assert change[0..] == change;
      for i := 0 to |change|
        invariant MintRows(rows, user, change[i..]) == MintRows(old(rows), user, change)
        invariant Clashes(old(rows), user, change) <==> !ok || Clashes(rows, user, change[i..])
      {
        assert change[i..][1..] == change[i + 1..];
        if change[i].op in rows {
          if !Identical(rows[change[i].op], user, change[i]) { ok := false; }
        } else {
          rows := rows[change[i].op := Minted(user, change[i])];
        }
      }
    }

    /** The signer's metadata commit. */
    method StoreSigned(ref: Ref, txid: TxId, inputs: seq<Outpoint>, mode: SendMode)
      requires CanSign(View(), ref, txid)
      modifies this`txs, this`known
      ensures View() == OnSign(old(View()), ref, txid, inputs, mode)
    {
      var (txStatus, kStatus) := NewStatuses(mode);
      txs := txs[ref := txs[ref].(txid := Some(txid), status := txStatus)];
      known := known[txid := if txid in known then Stamp(known[txid], kStatus, clock)
                             else KnownTx(kStatus, inputs, false, clock)];
    }

    /**
     Persists a signed transaction: the pin commits first, the change is minted, and
     the metadata commits last. A refusal or a clash leaves the coin writes behind and
     nothing broadcastable.
     */
    method ProcessNewTx(ref: Ref, txid: TxId, inputs: seq<Outpoint>, mode: SendMode, change: seq<ChangeOut>)
      returns (e: DbError)
      modifies this`rows, this`pinnedRefs, this`txs, this`known
      ensures e.DbNotFound? <==> ref !in old(txs)
      ensures !Signable(old(View()), ref, txid) ==> View() == old(View())
      ensures Signable(old(View()), ref, txid) ==>
                var pinned := OnPin(old(View()), ref);
                var minted := pinned.(rows := MintRows(pinned.rows, old(txs)[ref].user, change));
                && (e.DbOk? <==> CanSign(pinned, ref, txid) && !Clashes(pinned.rows, old(txs)[ref].user, change))
                && View() == (if !CanSign(pinned, ref, txid) then pinned
                              else if e.DbOk? then OnSign(minted, ref, txid, inputs, mode) else minted)
    {
      if ref !in txs { return DbNotFound; }
      var row := txs[ref];
      if !row.status.Unsigned? && !row.status.Unprocessed? { return DbSkipped; }
      if row.txid.Some? && row.txid.value != txid { return DbMismatch; }
      PinReservation(ref);
      if txid in known && NeverRequeue(known[txid].status) { return DbSkipped; }
      var ok := MintChange(row.user, change);
      if !ok { return DbClash; }
      StoreSigned(ref, txid, inputs, mode);
      return DbOk;
    }

    // ---- abort --------------------------------------------------------------------

    /** The metadata half of an abort: both gates in one commit, with the release intent. */
    method FenceAborted(ref: Ref, snapshot: Option<TxId>) returns (e: AbortError)
      modifies this`txs, this`known, this`intents
      ensures e.AbortOk? <==> CanFence(old(View()), ref, snapshot)
      ensures e.LostToSend? ==> (snapshot.Some? && snapshot.value in old(known)
                                 && !CanLeavePreBroadcast(old(known)[snapshot.value]))
      ensures View() == OnFence(old(View()), ref, snapshot)
    {
      if ref !in txs || !Abortable(txs[ref].status) { return NotAbortable; }
      if snapshot.Some? && snapshot.value in known {
        var k := known[snapshot.value];
        if !PreBroadcast(k.status) || k.wasBroadcast { return LostToSend; }
        known := known[snapshot.value := Stamp(k, KAborted, clock)];
      }
      txs := txs[ref := txs[ref].(status := Aborted)];
      intents := intents + {ref};
      return AbortOk;
    }

    /** Lifts the pin of an aborted action. */
    method Unpin(ref: Ref)
      requires MayFree(View(), ref)
      modifies this`rows
      ensures View() == OnUnpin(old(View()), ref)
    {
      rows := SetPinned(rows, txs[ref].user, ref, false);
    }

    /** Frees the coins of an aborted action whose pin was lifted. */
    method Release(ref: Ref)
      requires MayFree(View(), ref)
      modifies this`rows, this`freed
      ensures View() == OnFree(old(View()), ref)
    {
      freed := freed + FreeableCoins(rows, txs[ref].user, ref);
      rows := ReleaseReservation(rows, txs[ref].user, ref);
    }

    method RemoveMinted(ops: seq<Outpoint>)
      modifies this`rows
      ensures View() == OnRemove(old(View()), ops)
    {
      rows := RemoveByMintTx(rows, ops);
    }

    /**
     The split-store abort: fence and intent in one commit, the inventory half
     afterwards and best effort, stopping after `steps` store calls. Whatever is
     left undone, the residue is a fenced action, and with nothing left undone none
     of its coins is held.
     */
    method AbortViaOutbox(ref: Ref, snapshot: Option<TxId>, change: seq<Outpoint>, steps: nat) returns (e: AbortError)
      modifies this`txs, this`known, this`intents, this`rows, this`freed
      ensures e.AbortOk? <==> CanFence(old(View()), ref, snapshot)
      ensures !e.AbortOk? ==> View() == old(View())
      ensures e.AbortOk? ==> View() == AfterAbort(old(View()), ref, snapshot, change, steps)
    {
      e := FenceAborted(ref, snapshot);
      if !e.AbortOk? || steps == 0 { return; }
      Unpin(ref);
      if steps == 1 { return; }
      Release(ref);
      if steps == 2 { return; }
      RemoveMinted(if snapshot.Some? then change else []);
    }

    /** The sweep looks the reference's row up, and remembers that there is none. */
    method FindSweptRow(ref: Ref) returns (row: Option<TxRow>)
      modifies this`swept
      ensures View() == OnSweepRead(old(View()), ref)
      ensures row == if ref in txs then Some(txs[ref]) else None
    {
      if ref in txs { return Some(txs[ref]); }
      swept := swept + {ref};
      return None;
    }

    /** What the sweep does to an orphan, with whatever happened since it looked: a pinned reservation is left alone. */
    method ReleaseOrphan(ref: Ref, user: int) returns (released: bool)
      requires ref != "" && ref in swept
      modifies this`rows, this`swept
      ensures released <==> !HoldsPinned(old(rows), user, ref)
      ensures View() == if released then OnSweepRelease(old(View()), ref, user) else old(View())
    {
      if HoldsPinned(rows, user, ref) { return false; }
      rows := ReleaseReservation(rows, user, ref);
      swept := swept - {ref};
      return true;
    }

    /** The stale-reservation sweep of one reference, undisturbed: nothing with a row is freed unfenced. */
    method SweepStaleReservation(ref: Ref, user: int, change: seq<Outpoint>) returns (o: SweepOutcome)
      requires ref != ""
      modifies this`txs, this`known, this`intents, this`rows, this`freed, this`swept
      ensures o.SweptOrphan? <==> ref !in old(txs) && !HoldsPinned(old(rows), user, ref)
      ensures o.SweptByHeal? <==> ref in old(txs) && old(txs)[ref].status.Aborted?
      ensures o.SweptByAbort? <==> (ref in old(txs) && (old(txs)[ref].status.Unsigned? || old(txs)[ref].status.NoSend?)
                                    && CanFence(old(View()), ref, old(txs)[ref].txid))
      ensures var read := OnSweepRead(old(View()), ref);
              View() == match o
                        case SweptOrphan => OnSweepRelease(read, ref, user)
                        case SweptByHeal => OnFree(OnUnpin(read, ref), ref)
                        case SweptByAbort => AfterAbort(read, ref, old(txs)[ref].txid, change, 3)
                        case SweptSkipped => read
    {
      var row := FindSweptRow(ref);
      if row.None? {
        var released := ReleaseOrphan(ref, user);
        return if released then SweptOrphan else SweptSkipped;
      }
      match row.value.status {
        case Unsigned | NoSend =>
          var e := AbortViaOutbox(ref, row.value.txid, change, 3);
          return if e.AbortOk? then SweptByAbort else SweptSkipped;
        case Aborted =>
          Unpin(ref);
          Release(ref);
          return SweptByHeal;
        case _ => return SweptSkipped;
      }
    }

    // ---- the accepted broadcast -----------------------------------------------------

    /** The store's fact-mode spend batch. `broken` is a call-level failure that rolled the batch back. */
    method Spend(ops: seq<Outpoint>, spender: TxId, faults: map<Outpoint, Fault>, broken: bool)
      returns (top: TopError, verdict: seq<SpendVerdict>)
      modifies this`rows
      ensures |verdict| == |ops|
      ensures forall i :: 0 <= i < |ops| ==> verdict[i] == VerdictOf(old(rows), spender, ops[i], faults)
      ensures broken ==> rows == old(rows) && top.TopOther?
      ensures !broken ==> rows == SpendClean(old(rows), spender, ops, faults)
      ensures !broken ==> top == if AllRecorded(verdict) then TopNone else TopBatch
    {
      var now;
      now, verdict := SpendEach(rows, ops, spender, faults);
      if broken { return TopOther, verdict; }
      rows := now;
      top := if forall i :: 0 <= i < |verdict| ==> verdict[i].Recorded? then TopNone else TopBatch;
    }

    /**
     Records an accepted broadcast's spends and classifies the verdicts: the only
     failure that may be passed over is a batch whose every failure is a missing row.
     */
    method SpendReservedInputs(txid: TxId, ops: seq<Outpoint>, reference: Ref,
                               faults: map<Outpoint, Fault>, broken: bool) returns (ok: bool)
      modifies this`rows
      ensures ok <==> reference != "" && (ops == [] || SpendableNow(old(rows), txid, ops, faults, broken))
      ensures ok ==> rows == SpendAll(old(rows), txid, ops)
      ensures ok ==> forall op :: op in ops ==> SpendSucceeds(old(rows), txid, op)
      ensures OnlySpentBy(old(rows), rows, txid)
    {
      if reference == "" { return false; }
      if ops == [] { return true; }
      var top, verdict := Spend(ops, txid, faults, broken);
      if top.TopNone? {
        return true;
      }
      var failed, tolerated := 0, 0;
      var fatal, contended := false, false;
      for i := 0 to |ops|
        invariant 0 <= tolerated <= failed <= i
        invariant failed == 0 <==> forall j :: 0 <= j < i ==> verdict[j].Recorded?
        invariant failed == tolerated <==> forall j :: 0 <= j < i ==> verdict[j].Recorded? || verdict[j].NotFound?
        invariant fatal || contended <==> failed > tolerated
      {
        match verdict[i] {
          case Recorded =>
          case NotFound => failed := failed + 1; tolerated := tolerated + 1;
          case SpentByOther(_) => failed := failed + 1; fatal := true;
          case Contended => failed := failed + 1; contended := true;
          case ItemError => failed := failed + 1; fatal := true;
        }
      }
      if fatal || contended { return false; }
      ok := top.TopBatch? && failed > 0 && failed == tolerated;
    }

    /** Spends first, statuses second; an error leaves the metadata as it was. */
    method ApplyAcceptedBroadcast(txid: TxId, faults: map<Outpoint, Fault>, broken: bool) returns (ok: bool)
      requires txid in known && txid in posted
      modifies this`rows, this`txs, this`known, this`verdicts, this`accepted
      ensures ok ==> Acceptable(old(View()), txid) && View() == Accept(old(View()), txid)
      ensures !ok ==> View() == old(View()).(rows := rows) && OnlySpentBy(old(rows), rows, txid)
      ensures "" !in old(txs) ==>
                (ok <==> ((exists r :: r in old(txs) && old(txs)[r].txid == Some(txid))
                          && (old(known)[txid].inputs == [] || SpendableNow(old(rows), txid, old(known)[txid].inputs, faults, broken))))
    {
      if !exists r :: r in txs && txs[r].txid == Some(txid) { return false; }
      var reference :| reference in txs && txs[reference].txid == Some(txid);
      ok := RecordSpends(txid, reference, faults, broken);
      if ok { CommitAccepted(txid); }
    }

    /** The spends of an accepted broadcast, remembered as verdicts. */
    method RecordSpends(txid: TxId, reference: Ref, faults: map<Outpoint, Fault>, broken: bool) returns (ok: bool)
      requires txid in known && txid in posted && reference in txs && txs[reference].txid == Some(txid)
      modifies this`rows, this`verdicts
      ensures ok <==> reference != "" && (known[txid].inputs == [] || SpendableNow(old(rows), txid, known[txid].inputs, faults, broken))
      ensures ok ==> Acceptable(old(View()), txid) && View() == Run(old(View()), SpendItems(txid, known[txid].inputs))
      ensures ok ==> CanAccept(View(), txid)
      ensures !ok ==> View() == old(View()).(rows := rows) && OnlySpentBy(old(rows), rows, txid)
    {
      var inputs := known[txid].inputs;
      ok := SpendReservedInputs(txid, inputs, reference, faults, broken);
      if !ok { return; }
      assert Acceptable(old(View()), txid);
      SpendItemsSpendAll(old(View()), txid, inputs);
      verdicts := verdicts + set op | op in inputs :: (txid, op);
    }

    /** The accept's unit of work on the metadata. */
    method CommitAccepted(txid: TxId)
      requires CanAccept(View(), txid)
      modifies this`txs, this`known, this`accepted
      ensures View() == OnAccept(old(View()), txid)
    {
      var k := known[txid];
      txs := MoveTxRows(txs, txid, Unproven, ACCEPT_FROM);
      if !WasBroadcastStatus(k.status) {
        known := known[txid := Stamp(k, KUnconfirmed, clock)];
      }
      accepted := accepted + {txid};
    }

    /** A final rejection: the minted change goes, the metadata commits after; no input is freed. */
    method CommitRejected(txid: TxId, change: seq<Outpoint>)
      requires txid in known && txid in posted
      modifies this`rows, this`txs, this`known
      ensures View() == OnReject(OnRemove(old(View()), change), txid)
    {
      rows := RemoveByMintTx(rows, change);
      txs := MoveTxRows(txs, txid, Failed, REJECT_FROM);
      known := known[txid := Stamp(known[txid], KSuspectFailed, clock)];
    }

    /** Commits the oracle's answer to a POST. */
    method CommitOutcome(txid: TxId, outcome: PostOutcome, change: seq<Outpoint>, faults: map<Outpoint, Fault>, broken: bool)
      returns (r: SendResult)
      requires txid in known && txid in posted
      modifies this`rows, this`txs, this`known, this`verdicts, this`accepted
      ensures !r.SendRefused?
      ensures r.SendLeft? ==> !outcome.PostRejected? && View() == old(View()).(rows := rows) && OnlySpentBy(old(rows), rows, txid)
      ensures r.SendFailed? ==> outcome.PostRejected? && View() == OnReject(OnRemove(old(View()), change), txid)
      ensures r.SendApplied? ==> outcome.PostAccepted? && Acceptable(old(View()), txid) && View() == Accept(old(View()), txid)
    {
      match outcome {
        case PostServiceError => return SendLeft;
        case PostRejected =>
          CommitRejected(txid, change);
          return SendFailed;
        case PostAccepted =>
          var ok := ApplyAcceptedBroadcast(txid, faults, broken);
          return if ok then SendApplied else SendLeft;
      }
    }

    /** Takes the right to POST and hands the bytes over: nothing is posted without an owned claim. */
    method ClaimAndPost(txid: TxId) returns (mine: bool)
      modifies this`known, this`owned, this`claims, this`posted, this`posts
      ensures mine <==> txid in old(known) && (CanLeavePreBroadcast(old(known)[txid]) || CanReclaim(old(View()), txid))
      ensures !mine ==> View() == old(View())
      ensures mine ==> View() == OnPost(if CanReclaim(old(View()), txid) then OnReclaim(old(View()), txid)
                                       else OnClaim(old(View()), txid), txid, |Owned(old(View()), txid)|)
    {
      if txid !in known { return false; }
      var claim := ClaimForBroadcast(txid, known[txid].status);
      mine := claim.ClaimOwned?;
      if mine {
        posted, posts := posted + {txid}, posts + {(txid, |Owned(View(), txid)| - 1)};
      }
    }

    /** Claims, POSTs and commits the outcome. */
    method BroadcastOne(txid: TxId, outcome: PostOutcome, change: seq<Outpoint>, faults: map<Outpoint, Fault>, broken: bool)
      returns (r: SendResult)
      modifies this`known, this`owned, this`claims, this`posted, this`posts, this`rows, this`txs, this`verdicts,
               this`accepted
      ensures r.SendRefused? ==> View() == old(View())
      ensures r.SendRefused? <==> (txid !in old(known) ||
                !(CanLeavePreBroadcast(old(known)[txid]) || CanReclaim(old(View()), txid)))
      ensures r.SendLeft? ==> txid in known && known[txid].status.KSending? && txs == old(txs) && OnlySpentBy(old(rows), rows, txid)
      ensures r.SendFailed? ==> txid in known && known[txid].status.KSuspectFailed?
                                && rows == RemoveByMintTx(old(rows), change)
      ensures r.SendApplied? ==> txid in known && known[txid].status.KUnconfirmed?
                                 && rows == SpendAll(old(rows), txid, old(known)[txid].inputs)
    {
      var mine := ClaimAndPost(txid);
      if !mine { return SendRefused; }
      ghost var s := View();
      r := CommitOutcome(txid, outcome, change, faults, broken);
      if r.SendApplied? { AcceptOutcome(s, txid); }
    }
  }

  /** The signer's checks on the row it read, before the unit of work. */
  predicate Signable(s: State, ref: Ref, txid: TxId) {
    && ref in s.txs
    && (s.txs[ref].status.Unsigned? || s.txs[ref].status.Unprocessed?)
    && (s.txs[ref].txid.None? || s.txs[ref].txid == Some(txid))
  }

  predicate HoldsPinned(rows: Rows, user: int, ref: Ref) {
    exists op :: op in rows && HeldBy(rows[op], user, ref) && rows[op].pinned
  }

  /** A freshly minted change coin. */
  function Minted(user: int, o: ChangeOut): Coin {
    Coin(user, o.basket, o.satoshis, TierSending, "", false, None, false)
  }

  predicate Identical(c: Coin, user: int, o: ChangeOut) {
    c.user == user && c.basket == o.basket && c.satoshis == o.satoshis
  }

  function MintRows(rows: Rows, user: int, change: seq<ChangeOut>): Rows
    decreases |change|
  {
    if change == [] then rows
    else MintRows(if change[0].op in rows then rows else rows[change[0].op := Minted(user, change[0])], user, change[1..])
  }

  /** Some output meets a coin of another identity. */
  predicate Clashes(rows: Rows, user: int, change: seq<ChangeOut>)
    decreases |change|
  {
    if change == [] then false
    else if change[0].op in rows
    then !Identical(rows[change[0].op], user, change[0]) || Clashes(rows, user, change[1..])
    else Clashes(rows[change[0].op := Minted(user, change[0])], user, change[1..])
  }

  function MintActions(user: int, change: seq<ChangeOut>): seq<Action> {
    seq(|change|, i requires 0 <= i < |change| => Coins(Mint(change[i].op, Minted(user, change[i]))))
  }

  /** Minting change is a run of mint steps. */
  lemma {:induction false} MintRowsIsRun(s: State, user: int, change: seq<ChangeOut>)
    ensures Run(s, MintActions(user, change)) == s.(rows := MintRows(s.rows, user, change))
    decreases |change|
  {
    if change != [] {
      assert MintActions(user, change)[1..] == MintActions(user, change[1..]);
      var s1 := OnMint(s, change[0].op, Minted(user, change[0]));
      assert s1 == s.(rows := if change[0].op in s.rows then s.rows else s.rows[change[0].op := Minted(user, change[0])]);
      MintRowsIsRun(s1, user, change[1..]);
    }
  }

  /** What an abort has done after its fence and `steps` further store calls. */
  function AfterAbort(s: State, ref: Ref, snapshot: Option<TxId>, change: seq<Outpoint>, steps: nat): State {
    var s1 := OnFence(s, ref, snapshot);
    if steps == 0 then s1 else
    var s2 := OnUnpin(s1, ref);
    if steps == 1 then s2 else
    var s3 := OnFree(s2, ref);
    if steps == 2 then s3 else OnRemove(s3, if snapshot.Some? then change else [])
  }

  /** Wherever an abort stopped, its bytes are fenced and each of its coins is either still held or free. */
  lemma AbortResidue(s: State, ref: Ref, snapshot: Option<TxId>, change: seq<Outpoint>, steps: nat, op: Outpoint)
    requires CanFence(s, ref, snapshot) && ref != ""
    requires op in s.rows && HeldBy(s.rows[op], s.txs[ref].user, ref)
    ensures var s' := AfterAbort(s, ref, snapshot, change, steps);
            && ref in s'.txs && s'.txs[ref].status.Aborted? && ref in s'.intents
            && (snapshot.Some? && snapshot.value in s.known ==>
                  snapshot.value in s'.known && s'.known[snapshot.value].status.KAborted?)
            && (steps < 2 ==> op in s'.rows && HeldBy(s'.rows[op], s.txs[ref].user, ref))
            && (steps >= 2 ==> (op in s'.rows ==> s'.rows[op].reservedBy == "") && (op !in change ==> op in s'.rows))
  {
    var s1 := OnFence(s, ref, snapshot);
    assert s1 == FenceStep(s, ref, snapshot);
    if steps >= 1 { UnpinStep(s1, ref, op); }
    var s2 := OnUnpin(s1, ref);
    if steps >= 2 { FreeStep(s2, ref, op); }
    var s3 := OnFree(s2, ref);
    var gone := if snapshot.Some? then change else [];
    if steps >= 3 { assert OnRemove(s3, gone) == s3.(rows := RemoveByMintTx(s3.rows, gone)); }
  }

  ghost predicate AllRecorded(verdict: seq<SpendVerdict>) {
    forall i :: 0 <= i < |verdict| ==> verdict[i].Recorded?
  }

  function FaultOf(faults: map<Outpoint, Fault>, op: Outpoint): Fault {
    if op in faults then faults[op] else NoFault
  }

  function VerdictOf(rows: Rows, spender: TxId, op: Outpoint, faults: map<Outpoint, Fault>): SpendVerdict {
    Verdict(rows, spender, op, FaultOf(faults, op))
  }

  /** What the store says of one spend: the recorded spender is the only arbiter. */
  function Verdict(rows: Rows, spender: TxId, op: Outpoint, fault: Fault): SpendVerdict {
    match fault
    case ContentionFault => Contended
    case BackendFault => ItemError
    case NoFault =>
      if op !in rows then NotFound
      else if rows[op].spentBy.Some? && rows[op].spentBy.value != spender then SpentByOther(rows[op].spentBy.value)
      else Recorded
  }

  /** The batch applied item by item: each clean item is recorded. */
  function SpendClean(rows: Rows, spender: TxId, ops: seq<Outpoint>, faults: map<Outpoint, Fault>): Rows {
    map op | op in rows :: if op in ops && FaultOf(faults, op).NoFault? then SpendCoin(rows[op], spender) else rows[op]
  }

  /** The items of a spend batch, one after the other. */
  method SpendEach(rows: Rows, ops: seq<Outpoint>, spender: TxId, faults: map<Outpoint, Fault>)
    returns (now: Rows, verdict: seq<SpendVerdict>)
    ensures |verdict| == |ops| && now == SpendClean(rows, spender, ops, faults)
    ensures forall i :: 0 <= i < |ops| ==> verdict[i] == VerdictOf(rows, spender, ops[i], faults)
  {
    now, verdict := rows, [];
    for i := 0 to |ops|
      invariant |verdict| == i && now == SpendClean(rows, spender, ops[..i], faults)
      invariant forall j :: 0 <= j < i ==> verdict[j] == VerdictOf(rows, spender, ops[j], faults)
    {
      SpendCleanNext(rows, spender, ops, faults, i);
      var v := VerdictOf(now, spender, ops[i], faults);
      if v.Recorded? { now := SpendFact(now, spender, ops[i]); }
      verdict := verdict + [v];
    }
    assert ops[..|ops|] == ops;
  }

  lemma SpendCleanNext(rows: Rows, spender: TxId, ops: seq<Outpoint>, faults: map<Outpoint, Fault>, i: nat)
    requires i < |ops|
    ensures var now := SpendClean(rows, spender, ops[..i], faults);
            var v := VerdictOf(now, spender, ops[i], faults);
            && v == VerdictOf(rows, spender, ops[i], faults)
            && SpendClean(rows, spender, ops[..i + 1], faults) ==
               if v.Recorded? then SpendFact(now, spender, ops[i]) else now
  {
    assert ops[..i + 1] == ops[..i] + [ops[i]];
  }

  /** Every input can be recorded: nothing failed below, and no other transaction spent it. */
  ghost predicate SpendableNow(rows: Rows, txid: TxId, ops: seq<Outpoint>, faults: map<Outpoint, Fault>, broken: bool) {
    !broken && forall op :: op in ops ==> FaultOf(faults, op).NoFault? && SpendSucceeds(rows, txid, op)
  }

  /** The only change to the inventory is unspent coins recorded as spent by `txid`. */
  ghost predicate OnlySpentBy(before: Rows, after: Rows, txid: TxId) {
    && before.Keys == after.Keys
    && forall op :: op in before ==> after[op] == before[op] || after[op] == SpendCoin(before[op], txid)
  }
}
