/**
 The abort fence over whole runs: an action whose coins were given back is never
 handed to the network, before or after.
 */
module AbortFence {
  import opened Domain
  import opened Inventory
  import opened Protocol

  /** No further claim can be won. */
  ghost predicate Closed(s: State, txid: TxId) {
    txid in s.known && NeverRequeue(s.known[txid].status) && !s.known[txid].status.KSending?
  }

  /** Nobody can hand these bytes to the network, now or later. */
  ghost predicate Unsendable(s: State, txid: TxId) {
    Closed(s, txid) && !Won(s, txid) && txid !in s.posted
  }

  /** The promise of the fence: an aborted action's bytes are unsendable. */
  ghost predicate AbortSafe(s: State) {
    forall r :: r in s.txs && s.txs[r].status.Aborted? && s.txs[r].txid.Some? ==> Unsendable(s, s.txs[r].txid.value)
  }

  ghost predicate RowsKnown(s: State) {
    forall r :: r in s.txs && s.txs[r].txid.Some? ==> s.txs[r].txid.value in s.known
  }

  /** Claimed bytes are never queued again and never fenced; posted ones were claimed; finalised ones are not being sent. */
  ghost predicate ClaimedOrder(s: State, t: TxId) {
    && (t in s.owned ==> t in s.known && NeverRequeue(s.known[t].status) && !s.known[t].status.KAborted?)
    && (t in s.posted ==> Won(s, t))
    && (t in s.finalised ==> t in s.known && NeverRequeue(s.known[t].status) && !s.known[t].status.KSending?)
  }

  ghost predicate SendOrder(s: State) {
    RowsKnown(s) && forall t :: ClaimedOrder(s, t)
  }

  /** Only aborted actions are ever freed, and only after their fence. */
  ghost predicate FreedAborted(s: State) {
    && (forall r :: r in s.intents ==> r in s.txs && s.txs[r].status.Aborted?)
    && (forall p :: p in s.freed ==> p.0 in s.txs && s.txs[p.0].status.Aborted?)
  }

  /** The abort's snapshot carries the row's txid when its fence commits. */
  ghost predicate Faithful(s: State, a: Action) {
    a.Meta? && a.m.Fence? && a.m.ref in s.txs ==> a.m.snapshot == s.txs[a.m.ref].txid
  }

  ghost predicate FaithfulRun(s: State, run: seq<Action>)
    decreases |run|
  {
    run == [] || (Faithful(s, run[0]) && FaithfulRun(Apply(s, run[0]), run[1..]))
  }

  lemma MetaRowsKnown(s: State, m: MetaWrite)
    requires RowsKnown(s)
    ensures RowsKnown(ApplyMeta(s, m))
  {
  }

  lemma MetaClaimedOrder(s: State, m: MetaWrite, t: TxId)
    requires ClaimedOrder(s, t)
    ensures ClaimedOrder(ApplyMeta(s, m), t)
  {
  }

  lemma StepSendOrder(s: State, a: Action)
    requires SendOrder(s)
    ensures SendOrder(Apply(s, a))
  {
    if a.Meta? { MetaRowsKnown(s, a.m); }
    forall t ensures ClaimedOrder(Apply(s, a), t) {
      assert ClaimedOrder(s, t);
      if a.Meta? { MetaClaimedOrder(s, a.m, t); }
    }
  }

  lemma MetaUnsendable(s: State, m: MetaWrite, txid: TxId)
    requires SendOrder(s) && Unsendable(s, txid)
    ensures Unsendable(ApplyMeta(s, m), txid)
  {
    assert ClaimedOrder(s, txid);
  }

  /** Once nobody can send a transaction, nothing makes it sendable again. */
  lemma UnsendableStays(s: State, a: Action, txid: TxId)
    requires SendOrder(s) && Unsendable(s, txid)
    ensures Unsendable(Apply(s, a), txid)
  {
    match a
    case Meta(m) => MetaUnsendable(s, m, txid);
    case _ =>
  }

  /** An aborted row was aborted before this commit, or this is its fence; its txid is fixed either way. */
  lemma AbortedRowOrigin(s: State, m: MetaWrite, r: Ref)
    requires r in ApplyMeta(s, m).txs && ApplyMeta(s, m).txs[r].status.Aborted?
    ensures r in s.txs && s.txs[r].txid == ApplyMeta(s, m).txs[r].txid
    ensures s.txs[r].status.Aborted? || (m.Fence? && m.ref == r && CanFence(s, r, m.snapshot))
  {
  }

  /** A fence that saw the row's txid leaves the bytes unsendable. */
  lemma FencedIsUnsendable(s: State, r: Ref, txid: TxId)
    requires SendOrder(s) && CanFence(s, r, Some(txid)) && s.txs[r].txid == Some(txid)
    ensures Unsendable(OnFence(s, r, Some(txid)), txid)
  {
    assert ClaimedOrder(s, txid);
  }

  lemma StepAbortSafe(s: State, a: Action)
    requires SendOrder(s) && AbortSafe(s) && Faithful(s, a)
    ensures AbortSafe(Apply(s, a))
  {
    var s' := Apply(s, a);
    forall r | r in s'.txs && s'.txs[r].status.Aborted? && s'.txs[r].txid.Some?
      ensures Unsendable(s', s'.txs[r].txid.value)
    {
      if a.Meta? { AbortedRowOrigin(s, a.m, r); }
      if s.txs[r].status.Aborted? {
        UnsendableStays(s, a, s.txs[r].txid.value);
      } else {
        FencedIsUnsendable(s, r, s.txs[r].txid.value);
      }
    }
  }

  /** An aborted row stays as it is. */
  lemma MetaKeepsAborted(s: State, m: MetaWrite, r: Ref)
    requires r in s.txs && s.txs[r].status.Aborted?
    ensures r in ApplyMeta(s, m).txs && ApplyMeta(s, m).txs[r] == s.txs[r]
  {
  }

  lemma AbortedStays(s: State, a: Action, r: Ref)
    requires r in s.txs && s.txs[r].status.Aborted?
    ensures r in Apply(s, a).txs && Apply(s, a).txs[r] == s.txs[r]
  {
    match a
    case Meta(m) => MetaKeepsAborted(s, m, r);
    case _ =>
  }

  lemma IntentOrigin(s: State, m: MetaWrite, r: Ref)
    requires r in ApplyMeta(s, m).intents
    ensures r in s.intents || (r in ApplyMeta(s, m).txs && ApplyMeta(s, m).txs[r].status.Aborted?)
  {
  }

  lemma FreedOrigin(s: State, c: CoinWrite, p: (Ref, Outpoint))
    requires p in ApplyCoins(s, c).freed
    ensures p in s.freed || MayFree(s, p.0)
  {
  }

  lemma StepFreedAborted(s: State, a: Action)
    requires FreedAborted(s)
    ensures FreedAborted(Apply(s, a))
  {
    var s' := Apply(s, a);
    forall r | r in s'.intents ensures r in s'.txs && s'.txs[r].status.Aborted? {
      if a.Meta? { IntentOrigin(s, a.m, r); }
      if r in s.intents { AbortedStays(s, a, r); }
    }
    forall p | p in s'.freed ensures p.0 in s'.txs && s'.txs[p.0].status.Aborted? {
      if a.Coins? { FreedOrigin(s, a.c, p); }
      AbortedStays(s, a, p.0);
    }
  }

  ghost predicate AbortInv(s: State) {
    SendOrder(s) && AbortSafe(s) && FreedAborted(s)
  }

  lemma {:induction false} RunAbortInv(s: State, run: seq<Action>)
    requires AbortInv(s) && FaithfulRun(s, run)
    ensures AbortInv(Run(s, run))
    decreases |run|
  {
    if run != [] {
      StepSendOrder(s, run[0]);
      StepAbortSafe(s, run[0]);
      StepFreedAborted(s, run[0]);
      RunAbortInv(Apply(s, run[0]), run[1..]);
    }
  }

  /**
   In every run whose fences saw the row's txid, bytes of an action whose coins an
   abort gave back were never handed to the network, and no process holds the right
   to hand them over.
   */
  lemma GivenBackNeverPosted(s: State, run: seq<Action>, p: (Ref, Outpoint), txid: TxId)
    requires Init(s) && FaithfulRun(s, run)
    requires p in Run(s, run).freed
    requires p.0 in Run(s, run).txs && Run(s, run).txs[p.0].txid == Some(txid)
    ensures Run(s, run).txs[p.0].status.Aborted?
    ensures Unsendable(Run(s, run), txid)
  {
    RunAbortInv(s, run);
  }

  /**
   Exactly when a fence keeps the promise: its snapshot is the row's txid, or the
   row's bytes were unsendable already.
   */
  lemma FenceSafeIff(s: State, ref: Ref, snapshot: Option<TxId>)
    requires SendOrder(s) && AbortSafe(s) && CanFence(s, ref, snapshot)
    requires s.txs[ref].txid.Some?
    ensures AbortSafe(Apply(s, Meta(Fence(ref, snapshot)))) <==>
            (snapshot == s.txs[ref].txid || Unsendable(s, s.txs[ref].txid.value))
  {
    var s' := Apply(s, Meta(Fence(ref, snapshot)));
    var t := s.txs[ref].txid.value;
    if snapshot == s.txs[ref].txid {
      StepAbortSafe(s, Meta(Fence(ref, snapshot)));
    } else if Unsendable(s, t) {
      forall r | r in s'.txs && s'.txs[r].status.Aborted? && s'.txs[r].txid.Some?
        ensures Unsendable(s', s'.txs[r].txid.value)
      {
        UnsendableStays(s, Meta(Fence(ref, snapshot)), s'.txs[r].txid.value);
      }
    } else {
      assert s'.txs[ref].status.Aborted?;
      assert !Unsendable(s', t);
    }
  }

  // ---- a claim that outlives the transaction ---------------------------------------

  /** Every hand-over used a won claim of its own. */
  ghost predicate PostsBacked(s: State) {
    forall p :: p in s.posts ==> p.1 < |Owned(s, p.0)|
  }

  lemma MetaKeepsOwned(s: State, m: MetaWrite, t: TxId)
    ensures |Owned(s, t)| <= |Owned(ApplyMeta(s, m), t)| && ApplyMeta(s, m).posts == s.posts
  {
  }

  lemma StepPostsBacked(s: State, a: Action)
    requires PostsBacked(s)
    ensures PostsBacked(Apply(s, a))
  {
    forall p | p in Apply(s, a).posts ensures p.1 < |Owned(Apply(s, a), p.0)| {
      if a.Meta? { MetaKeepsOwned(s, a.m, p.0); }
    }
  }

  lemma {:induction false} RunPostsBacked(s: State, run: seq<Action>)
    requires PostsBacked(s)
    ensures PostsBacked(Run(s, run))
    decreases |run|
  {
    if run != [] {
      StepPostsBacked(s, run[0]);
      RunPostsBacked(Apply(s, run[0]), run[1..]);
    }
  }

  function PostsOf(s: State, txid: TxId): set<(TxId, nat)> {
    set p | p in s.posts && p.0 == txid
  }

  lemma {:induction false} CountBelow(ps: set<(TxId, nat)>, txid: TxId, n: nat)
    requires forall p :: p in ps ==> p.0 == txid && p.1 < n
    ensures |ps| <= n
    decreases n
  {
    if n == 0 {
      assert ps == {};
    } else {
      var rest := ps - {(txid, n - 1)};
      CountBelow(rest, txid, n - 1);
      assert ps <= rest + {(txid, n - 1)};
      if (txid, n - 1) in ps { assert ps == rest + {(txid, n - 1)}; } else { assert ps == rest; }
    }
  }

  /** In every run, a transaction is handed over at most as often as a claim on it was won. */
  lemma PostsNeverExceedClaims(s: State, run: seq<Action>, txid: TxId)
    requires Init(s)
    ensures |PostsOf(Run(s, run), txid)| <= |Owned(Run(s, run), txid)|
  {
    RunPostsBacked(s, run);
    CountBelow(PostsOf(Run(s, run), txid), txid, |Owned(Run(s, run), txid)|);
  }

  lemma ClosedStays(s: State, m: MetaWrite, txid: TxId)
    requires Closed(s, txid)
    ensures Closed(ApplyMeta(s, m), txid)
  {
  }

  lemma ClosedKeepsOwned(s: State, m: MetaWrite, txid: TxId)
    requires Closed(s, txid)
    ensures Owned(ApplyMeta(s, m), txid) == Owned(s, txid)
  {
  }

  lemma {:induction false} RunClosed(s: State, run: seq<Action>, txid: TxId)
    requires Closed(s, txid)
    ensures Closed(Run(s, run), txid) && Owned(Run(s, run), txid) == Owned(s, txid)
    decreases |run|
  {
    if run != [] {
      if run[0].Meta? {
        ClosedStays(s, run[0].m, txid);
        ClosedKeepsOwned(s, run[0].m, txid);
      }
      RunClosed(Apply(s, run[0]), run[1..], txid);
    }
  }

  lemma {:induction false} RunSendOrder(s: State, run: seq<Action>)
    requires SendOrder(s)
    ensures SendOrder(Run(s, run))
    decreases |run|
  {
    if run != [] {
      StepSendOrder(s, run[0]);
      RunSendOrder(Apply(s, run[0]), run[1..]);
    }
  }

  /** Some continuation hands the bytes over once more. */
  ghost predicate PostedAgain(s: State, txid: TxId, more: seq<Action>) {
    exists n :: (txid, n) in Run(s, more).posts && (txid, n) !in s.posts
  }

  /** A won claim that has not been used. */
  ghost predicate UnusedClaim(s: State, txid: TxId) {
    exists n: nat :: n < |Owned(s, txid)| && (txid, n) !in s.posts
  }

  /**
   A finalised transaction, whose inputs the reconciler gives back, can be handed to
   the network once more exactly when a claim on it was won and not used, whether or
   not another sender handed it over before.
   */
  lemma LatePostIff(s: State, run: seq<Action>, txid: TxId)
    requires Init(s) && txid in Run(s, run).finalised
    ensures (exists more :: PostedAgain(Run(s, run), txid, more)) <==> UnusedClaim(Run(s, run), txid)
  {
    RunSendOrder(s, run);
    RunPostsBacked(s, run);
    var s1 := Run(s, run);
    assert ClaimedOrder(s1, txid);
    if UnusedClaim(s1, txid) {
      var n: nat :| n < |Owned(s1, txid)| && (txid, n) !in s1.posts;
      RunSnoc(s1, [], Post(txid, n));
      assert [] + [Post(txid, n)] == [Post(txid, n)];
      assert (txid, n) in Run(s1, [Post(txid, n)]).posts;
      assert PostedAgain(s1, txid, [Post(txid, n)]);
    }
    forall more | PostedAgain(s1, txid, more) ensures UnusedClaim(s1, txid) {
      RunClosed(s1, more, txid);
      RunPostsBacked(s1, more);
    }
  }

  /** One sender claims and stalls; a second takes the claim over after the grace, sends and is rejected. */
  function TakenOver(s: State, txid: TxId): State {
    var claimed := OnClaim(s, txid);
    OnReject(OnPost(OnReclaim(claimed.(clock := claimed.clock + RESEND_GRACE), txid), txid, |Owned(s, txid)| + 1), txid)
  }

  lemma TakenOverIs(s: State, txid: TxId)
    requires txid in s.known && CanLeavePreBroadcast(s.known[txid])
    ensures var s' := TakenOver(s, txid);
            && txid in s'.posted && s'.posts == s.posts + {(txid, |Owned(s, txid)| + 1)} && s'.rows == s.rows
            && |Owned(s', txid)| == |Owned(s, txid)| + 2
            && txid in s'.known && s'.known[txid].status.KSuspectFailed? && s'.known[txid].inputs == s.known[txid].inputs
            && s'.txs == MoveTxRows(s.txs, txid, Failed, REJECT_FROM)
  {
    var s1 := OnClaim(s, txid);
    assert s1 == WinClaim(s, txid, true);
    var s2 := s1.(clock := s1.clock + RESEND_GRACE);
    assert CanReclaim(s2, txid) && OnReclaim(s2, txid) == WinClaim(s2, txid, false);
  }

  /** It happens: after the rejection the coin is given back, and then the first sender hands the bytes over. */
  lemma LatePostSpendsFreedCoin(s: State, op: Outpoint, ref: Ref, txid: TxId)
    requires SignedDelayed(s, ref, txid, op) && ref != "" && op in s.known[txid].inputs && PostsBacked(s)
    ensures var freed := OnReleaseHeld(OnFinalise(TakenOver(s, txid), txid, KInvalid), txid, ref, [op]);
            var s' := OnPost(freed, txid, |Owned(s, txid)|);
            && txid in freed.posted && op in freed.rows && Claimable(freed.rows[op])
            && txid in freed.known && op in freed.known[txid].inputs
            && (txid, |Owned(s, txid)|) in s'.posts && (txid, |Owned(s, txid)|) !in freed.posts
  {
    TakenOverIs(s, txid);
    ReleasedAfterReject(TakenOver(s, txid), op, ref, txid);
  }

  lemma ReleasedAfterReject(s: State, op: Outpoint, ref: Ref, txid: TxId)
    requires ref != "" && ref in s.txs && s.txs[ref].txid == Some(txid)
    requires txid in s.known && s.known[txid].status.KSuspectFailed? && op in s.known[txid].inputs
    requires op in s.rows && s.rows[op].reservedBy == ref && s.rows[op].spentBy.None? && !s.rows[op].frozen
    ensures var freed := OnReleaseHeld(OnFinalise(s, txid, KInvalid), txid, ref, [op]);
            && freed.posted == s.posted && freed.posts == s.posts && freed.owned == s.owned
            && op in freed.rows && Claimable(freed.rows[op])
            && txid in freed.known && freed.known[txid].inputs == s.known[txid].inputs
  {
    var s1 := OnFinalise(s, txid, KInvalid);
    assert txid in s1.finalised && Spends(s1, txid, [op]) && s1.txs[ref].txid == Some(txid);
  }

  /** A signed, delayed action that holds one coin. */
  ghost predicate SignedDelayed(s: State, ref: Ref, txid: TxId, op: Outpoint) {
    && ref in s.txs && s.txs[ref].status.Unprocessed? && s.txs[ref].txid == Some(txid)
    && txid in s.known && s.known[txid].status.KUnsent? && !s.known[txid].wasBroadcast
    && op in s.rows && HeldBy(s.rows[op], s.txs[ref].user, ref) && !s.rows[op].frozen
  }

  lemma ReservingRun(s: State, op: Outpoint, ref: Ref)
    requires Init(s) && ref != "" && op in s.rows && !s.rows[op].frozen
    ensures var user := s.rows[op].user;
            Run(s, [Coins(Reserve(ref, user, op))] + [Meta(InsertTx(ref, user))]) ==
            s.(rows := s.rows[op := s.rows[op].(reservedBy := ref)], txs := map[ref := TxRow(user, Unsigned, None)],
               held := {(ref, op)})
  {
    var user := s.rows[op].user;
    RunSnoc(s, [], Coins(Reserve(ref, user, op)));
    assert [] + [Coins(Reserve(ref, user, op))] == [Coins(Reserve(ref, user, op))];
    RunSnoc(s, [Coins(Reserve(ref, user, op))], Meta(InsertTx(ref, user)));
  }

  lemma SigningRunSigns(s: State, op: Outpoint, ref: Ref, txid: TxId)
    requires Init(s) && ref != "" && op in s.rows && !s.rows[op].frozen
    ensures var user := s.rows[op].user;
            SignedDelayed(Run(s, [Coins(Reserve(ref, user, op))] + [Meta(InsertTx(ref, user))] + [Coins(Pin(ref))]
                                 + [Meta(Sign(ref, txid, [op], ModeDelayed))]), ref, txid, op)
  {
    var user := s.rows[op].user;
    var run := [Coins(Reserve(ref, user, op))] + [Meta(InsertTx(ref, user))];
    ReservingRun(s, op, ref);
    RunSnoc(s, run, Coins(Pin(ref)));
    RunSnoc(s, run + [Coins(Pin(ref))], Meta(Sign(ref, txid, [op], ModeDelayed)));
    var pinned := Run(s, run + [Coins(Pin(ref))]);
    assert CanSign(pinned, ref, txid) && HeldBy(pinned.rows[op], user, ref);
  }

  /**
   Without the snapshot hypothesis the promise fails: an abort that read the row
   before it was signed fences nothing and gives the coin back, and the bytes are
   then sent.
   */
  lemma StaleSnapshotFreesSentCoins(s: State, op: Outpoint, ref: Ref, txid: TxId)
    requires SignedDelayed(s, ref, txid, op) && ref != ""
    ensures var s' := Run(s, [Meta(Fence(ref, None))] + [Coins(AbortUnpin(ref))] + [Coins(AbortFree(ref))] + [Meta(Claim(txid))]
                         + [Post(txid, |Owned(s, txid)|)]);
            && (ref, op) in s'.freed && op in s'.rows && Claimable(s'.rows[op])
            && ref in s'.txs && s'.txs[ref].txid == Some(txid) && txid in s'.posted
  {
    var r3 := [Meta(Fence(ref, None))] + [Coins(AbortUnpin(ref))] + [Coins(AbortFree(ref))];
    AbortRunIs(s, ref, None);
    StaleAbortFrees(s, op, ref, txid);
    RunSnoc(s, r3, Meta(Claim(txid)));
    RunSnoc(s, r3 + [Meta(Claim(txid))], Post(txid, |Owned(s, txid)|));
  }

  /** An abort's three store calls as one run. */
  lemma AbortRunIs(s: State, ref: Ref, snapshot: Option<TxId>)
    ensures Run(s, [Meta(Fence(ref, snapshot))] + [Coins(AbortUnpin(ref))] + [Coins(AbortFree(ref))]) ==
            OnFree(OnUnpin(OnFence(s, ref, snapshot), ref), ref)
  {
    RunOfThree(s, Meta(Fence(ref, snapshot)), Coins(AbortUnpin(ref)), Coins(AbortFree(ref)));
  }

  lemma StaleAbortFrees(s: State, op: Outpoint, ref: Ref, txid: TxId)
    requires SignedDelayed(s, ref, txid, op) && ref != ""
    ensures var s' := OnFree(OnUnpin(OnFence(s, ref, None), ref), ref);
            && (ref, op) in s'.freed && op in s'.rows && Claimable(s'.rows[op])
            && ref in s'.txs && s'.txs[ref].txid == Some(txid)
            && txid in s'.known && s'.known[txid] == s.known[txid] && s'.owned == s.owned
  {
    var s1 := OnFence(s, ref, None);
    assert s1 == FenceStep(s, ref, None);
    UnpinStep(s1, ref, op);
    FreeStep(OnUnpin(s1, ref), ref, op);
  }
}
