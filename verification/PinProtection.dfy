/**
 Coins and sendable bytes over whole runs: a coin that an action held when its row was
 inserted stays with it until the action is fenced, unless its own transaction is
 finally dead, another transaction's recorded spend of it is settled, or the coin
 itself is gone from the chain.
 */
module PinProtection {
  import opened Domain
  import opened Inventory
  import opened Protocol
  import opened AbortFence

  /** Holder, coin and recorded spender. */
  type SpendRecord = (Ref, Outpoint, TxId)

  function Recorded(s: State): set<SpendRecord> {
    set op | op in s.rows && s.rows[op].spentBy.Some? :: (s.rows[op].reservedBy, op, s.rows[op].spentBy.value)
  }

  /** Every spend record that any state of the run shows. */
  function EverRecorded(s: State, run: seq<Action>): set<SpendRecord>
    decreases |run|
  {
    Recorded(s) + if run == [] then {} else EverRecorded(Apply(s, run[0]), run[1..])
  }

  /** The bytes the action is bound to spend the coin and are finally dead. */
  predicate OwnDead(s: State, r: Ref, op: Outpoint) {
    && r in s.txs && s.txs[r].txid.Some? && s.txs[r].txid.value in s.finalised
    && s.txs[r].txid.value in s.known && op in s.known[s.txs[r].txid.value].inputs
  }

  /** The coin is spent by a proven transaction, or its source is dead. */
  ghost predicate CoinGone(s: State, op: Outpoint) {
    SourceGone(s, op) || exists t :: t in s.known && op in s.known[t].inputs && t in s.proven
  }

  /** Why a coin may leave an action that was never fenced. `past` is what was ever recorded spent. */
  ghost predicate Settled(s: State, past: set<SpendRecord>, r: Ref, op: Outpoint) {
    OwnDead(s, r, op) || CoinGone(s, op) || exists t :: t in s.finalised && (r, op, t) in past
  }

  /** The coin is under the action: spent on record, or held, and pinned once the signer has pinned. */
  ghost predicate KeepsCoin(s: State, r: Ref, op: Outpoint) {
    && r in s.txs && op in s.rows && s.rows[op].reservedBy == r
    && (s.rows[op].spentBy.Some? || (s.rows[op].user == s.txs[r].user && (r in s.pinnedRefs ==> s.rows[op].pinned)))
  }

  ghost predicate Promise(s: State, past: set<SpendRecord>, p: (Ref, Outpoint)) {
    p.0 in s.txs && (s.txs[p.0].status.Aborted? || Settled(s, past, p.0, p.1) || KeepsCoin(s, p.0, p.1))
  }

  /** What holds of every coin: its pin has a signer, its holder's row lists it. */
  ghost predicate CoinOk(s: State, op: Outpoint) {
    op in s.rows ==>
      var c := s.rows[op];
      && (c.pinned ==> c.reservedBy in s.pinnedRefs)
      && (c.reservedBy in s.txs && c.spentBy.None? && c.user == s.txs[c.reservedBy].user ==> (c.reservedBy, op) in s.held)
  }

  ghost predicate RefsOk(s: State) {
    && "" !in s.txs && (forall r :: r in s.pinnedRefs ==> r in s.txs)
    && (forall r :: r in s.intents ==> r in s.txs && s.txs[r].status.Aborted?)
  }

  ghost predicate HoldInv(s: State, past: set<SpendRecord>) {
    && RefsOk(s) && Recorded(s) <= past
    && (forall op :: CoinOk(s, op)) && forall p :: p in s.held ==> Promise(s, past, p)
  }

  /**
   A release of the whole reservation would take a coin from a live action: its row is
   there and not fenced, its signer has not pinned, and it holds an unsettled coin.
   */
  ghost predicate LosesCoin(s: State, past: set<SpendRecord>, ref: Ref, user: int) {
    && ref in s.txs && !s.txs[ref].status.Aborted? && ref !in s.pinnedRefs && user == s.txs[ref].user
    && exists op :: op in s.rows && HeldBy(s.rows[op], user, ref) && !Settled(s, past, ref, op)
  }

  /** For the sweep: it read the reference as having no row, and the row was inserted since. */
  ghost predicate SweepLoses(s: State, past: set<SpendRecord>, ref: Ref, user: int) {
    ref in s.swept && LosesCoin(s, past, ref, user)
  }

  /** Neither the sweep nor a failed action's compensation releases behind a live row. */
  ghost predicate InTime(s: State, past: set<SpendRecord>, a: Action) {
    a.Coins? ==>
      && (a.c.SweepRelease? ==> !SweepLoses(s, past, a.c.ref, a.c.user))
      && (a.c.Compensate? ==> !LosesCoin(s, past, a.c.ref, a.c.user))
  }

  ghost predicate InTimeRun(s: State, past: set<SpendRecord>, run: seq<Action>)
    decreases |run|
  {
    run == [] || (InTime(s, past, run[0]) && InTimeRun(Apply(s, run[0]), past + Recorded(Apply(s, run[0])), run[1..]))
  }

  // ---- steps ---------------------------------------------------------------------------

  lemma MetaRefsOk(s: State, m: MetaWrite)
    requires RefsOk(s)
    ensures RefsOk(ApplyMeta(s, m))
  {
    var s' := ApplyMeta(s, m);
    forall r | r in s'.intents ensures r in s'.txs && s'.txs[r].status.Aborted? {
      IntentOrigin(s, m, r);
      if r in s.intents { MetaKeepsAborted(s, m, r); }
    }
    forall r | r in s.txs ensures r in s'.txs { RowStays(s, m, r); }
  }

  lemma SettledStays(s: State, past: set<SpendRecord>, more: set<SpendRecord>, a: Action, r: Ref, op: Outpoint)
    requires Settled(s, past, r, op) && past <= more
    ensures Settled(Apply(s, a), more, r, op)
  {
    if a.Meta? { FinalisedGrows(s, a.m); }
    if OwnDead(s, r, op) {
      if a.Meta? {
        RowStays(s, a.m, r);
        KnownStays(s, a.m, s.txs[r].txid.value);
      }
      assert OwnDead(Apply(s, a), r, op);
    } else if CoinGone(s, op) && !SourceGone(s, op) {
      var t :| t in s.known && op in s.known[t].inputs && t in s.proven;
      if a.Meta? { KnownStays(s, a.m, t); }
      assert op in Apply(s, a).known[t].inputs;
    }
  }

  lemma CoinsRefsOk(s: State, c: CoinWrite)
    requires RefsOk(s)
    ensures RefsOk(ApplyCoins(s, c))
  {
  }

  lemma CoinsCoinOk(s: State, c: CoinWrite, op: Outpoint)
    requires RefsOk(s) && CoinOk(s, op)
    ensures CoinOk(ApplyCoins(s, c), op)
  {
  }

  lemma InsertLists(s: State, ref: Ref, user: int, op: Outpoint)
    requires RefsOk(s) && CoinOk(s, op)
    ensures CoinOk(OnInsert(s, ref, user), op)
  {
  }

  lemma MetaHeld(s: State, m: MetaWrite)
    requires !m.InsertTx?
    ensures ApplyMeta(s, m).held == s.held && ApplyMeta(s, m).txs.Keys == s.txs.Keys
  {
  }

  lemma MetaCoinOk(s: State, m: MetaWrite, op: Outpoint)
    requires RefsOk(s) && CoinOk(s, op)
    ensures CoinOk(ApplyMeta(s, m), op)
  {
    if m.InsertTx? {
      InsertLists(s, m.ref, m.user, op);
    } else if op in s.rows {
      MetaHeld(s, m);
      var c := s.rows[op];
      if c.reservedBy in s.txs { RowStays(s, m, c.reservedBy); }
    }
  }

  lemma MetaPromise(s: State, past: set<SpendRecord>, more: set<SpendRecord>, m: MetaWrite, p: (Ref, Outpoint))
    requires RefsOk(s) && p in s.held && Promise(s, past, p) && past <= more
    ensures Promise(ApplyMeta(s, m), more, p)
  {
    RowStays(s, m, p.0);
    if s.txs[p.0].status.Aborted? { MetaKeepsAborted(s, m, p.0); }
    else if Settled(s, past, p.0, p.1) { SettledStays(s, past, more, Meta(m), p.0, p.1); }
  }

  /** A coin newly listed by an insert is under its action. */
  lemma InsertPromises(s: State, more: set<SpendRecord>, m: MetaWrite, p: (Ref, Outpoint))
    requires RefsOk(s) && p in ApplyMeta(s, m).held && p !in s.held
    ensures Promise(ApplyMeta(s, m), more, p)
  {
    if !m.InsertTx? {
      MetaHeld(s, m);
    } else {
      assert p in HeldCoins(s.rows, m.user, m.ref);
    }
  }

  /** Who can take an unsettled coin from an action that is not fenced: only the sweep and a compensation. */
  lemma CoinsKeepCoin(s: State, past: set<SpendRecord>, c: CoinWrite, r: Ref, op: Outpoint)
    requires RefsOk(s) && CoinOk(s, op) && Recorded(s) <= past
    requires KeepsCoin(s, r, op) && !s.txs[r].status.Aborted? && !Settled(s, past, r, op)
    requires c.SweepRelease? || c.Compensate? ==> c.ref != r || c.user != s.txs[r].user || r in s.pinnedRefs
    ensures KeepsCoin(ApplyCoins(s, c), r, op)
  {
    if c.ReleaseSpent? && s.rows[op].spentBy == Some(c.txid) {
      assert (r, op, c.txid) in Recorded(s);
    }
  }

  lemma CoinsPromise(s: State, past: set<SpendRecord>, more: set<SpendRecord>, c: CoinWrite, p: (Ref, Outpoint))
    requires RefsOk(s) && CoinOk(s, p.1) && Recorded(s) <= past <= more && Promise(s, past, p) && InTime(s, past, Coins(c))
    ensures Promise(ApplyCoins(s, c), more, p)
  {
    if Settled(s, past, p.0, p.1) {
      SettledStays(s, past, more, Coins(c), p.0, p.1);
    } else if !s.txs[p.0].status.Aborted? {
      if (c.SweepRelease? || c.Compensate?) && c.ref == p.0 && c.user == s.txs[p.0].user && p.0 !in s.pinnedRefs {
        if s.rows[p.1].spentBy.None? && (c.Compensate? || c.ref in s.swept) {
          assert LosesCoin(s, past, c.ref, c.user);
          assert false;
        }
      } else {
        CoinsKeepCoin(s, past, c, p.0, p.1);
      }
    }
  }

  lemma StepCoinsOk(s: State, a: Action)
    requires RefsOk(s) && forall op :: CoinOk(s, op)
    ensures RefsOk(Apply(s, a)) && forall op :: CoinOk(Apply(s, a), op)
  {
    if a.Meta? { MetaRefsOk(s, a.m); }
    if a.Coins? { CoinsRefsOk(s, a.c); }
    forall op ensures CoinOk(Apply(s, a), op) {
      assert CoinOk(s, op);
      if a.Meta? { MetaCoinOk(s, a.m, op); }
      if a.Coins? { CoinsCoinOk(s, a.c, op); }
    }
  }

  lemma StepHoldInv(s: State, past: set<SpendRecord>, a: Action)
    requires HoldInv(s, past) && InTime(s, past, a)
    ensures HoldInv(Apply(s, a), past + Recorded(Apply(s, a)))
  {
    var more := past + Recorded(Apply(s, a));
    StepCoinsOk(s, a);
    forall p | p in Apply(s, a).held ensures Promise(Apply(s, a), more, p) {
      assert CoinOk(s, p.1);
      if p !in s.held { InsertPromises(s, more, a.m, p); }
      else if a.Meta? { MetaPromise(s, past, more, a.m, p); }
      else if a.Coins? { CoinsPromise(s, past, more, a.c, p); }
      else if Settled(s, past, p.0, p.1) { SettledStays(s, past, more, a, p.0, p.1); }
    }
  }

  lemma {:induction false} RunHoldInv(s: State, past: set<SpendRecord>, run: seq<Action>)
    requires HoldInv(s, past) && InTimeRun(s, past, run)
    ensures HoldInv(Run(s, run), past + EverRecorded(s, run))
    decreases |run|
  {
    if run == [] {
      assert past + EverRecorded(s, run) == past;
    } else {
      var s1 := Apply(s, run[0]);
      StepHoldInv(s, past, run[0]);
      RunHoldInv(s1, past + Recorded(s1), run[1..]);
      NowIsRecorded(s1, run[1..]);
      assert past + Recorded(s1) + EverRecorded(s1, run[1..]) == past + EverRecorded(s, run);
    }
  }

  lemma NowIsRecorded(s: State, run: seq<Action>)
    ensures Recorded(s) <= EverRecorded(s, run)
  {
  }

  // ---- every run -------------------------------------------------------------------------

  /**
   In every run whose releases come in time, a coin held when the action's row was
   inserted stays with the action until its fence, or until it is settled.
   */
  lemma HeldUntilFence(s: State, run: seq<Action>, p: (Ref, Outpoint))
    requires Init(s) && InTimeRun(s, {}, run) && p in Run(s, run).held
    ensures p.0 in Run(s, run).txs
    ensures || Run(s, run).txs[p.0].status.Aborted? || Settled(Run(s, run), EverRecorded(s, run), p.0, p.1)
            || KeepsCoin(Run(s, run), p.0, p.1)
  {
    assert Recorded(s) == {};
    RunHoldInv(s, {}, run);
    assert {} + EverRecorded(s, run) == EverRecorded(s, run);
    assert Promise(Run(s, run), EverRecorded(s, run), p);
  }

  /** Never freed coins behind sendable bytes, unless the coin is settled. */
  lemma SendableBytesKeepTheirCoins(s: State, run: seq<Action>, p: (Ref, Outpoint), txid: TxId)
    requires Init(s) && FaithfulRun(s, run) && InTimeRun(s, {}, run)
    requires p in Run(s, run).held && p.0 in Run(s, run).txs && Run(s, run).txs[p.0].txid == Some(txid)
    requires !Unsendable(Run(s, run), txid) && !Settled(Run(s, run), EverRecorded(s, run), p.0, p.1)
    ensures KeepsCoin(Run(s, run), p.0, p.1)
    ensures !Claimable(Run(s, run).rows[p.1])
  {
    RunAbortInv(s, run);
    HeldUntilFence(s, run, p);
    assert Recorded(s) == {};
    RunHoldInv(s, {}, run);
  }

  /** The condition on the sweep is exact. */
  lemma SweepKeepsPromiseIff(s: State, past: set<SpendRecord>, ref: Ref, user: int)
    requires HoldInv(s, past)
    ensures var s' := Apply(s, Coins(SweepRelease(ref, user)));
            HoldInv(s', past + Recorded(s')) <==> !SweepLoses(s, past, ref, user)
  {
    if SweepLoses(s, past, ref, user) {
      ReleaseBreaksPromise(s, OnSweepRelease(s, ref, user), past, ref, user);
    } else {
      StepHoldInv(s, past, Coins(SweepRelease(ref, user)));
    }
  }

  /** So is the one on the compensation. */
  lemma CompensateKeepsPromiseIff(s: State, past: set<SpendRecord>, ref: Ref, user: int)
    requires HoldInv(s, past)
    ensures var s' := Apply(s, Coins(Compensate(ref, user)));
            HoldInv(s', past + Recorded(s')) <==> !LosesCoin(s, past, ref, user)
  {
    if LosesCoin(s, past, ref, user) {
      ReleaseBreaksPromise(s, OnCompensate(s, ref, user), past, ref, user);
    } else {
      StepHoldInv(s, past, Coins(Compensate(ref, user)));
    }
  }

  lemma ReleaseBreaksPromise(s: State, s': State, past: set<SpendRecord>, ref: Ref, user: int)
    requires HoldInv(s, past) && LosesCoin(s, past, ref, user)
    requires SameMetadata(s, s') && s'.rows == ReleaseReservation(s.rows, user, ref)
    ensures !HoldInv(s', past + Recorded(s'))
  {
    var op :| op in s.rows && HeldBy(s.rows[op], user, ref) && !Settled(s, past, ref, op);
    assert CoinOk(s, op);
    assert (ref, op) in s'.held && s'.rows[op].reservedBy == "";
    assert past + Recorded(s') == past by { ReleaseRecordsNothing(s, s', user, ref); }
    assert !Settled(s', past, ref, op);
    assert !Promise(s', past, (ref, op));
  }

  lemma ReleaseRecordsNothing(s: State, s': State, user: int, ref: Ref)
    requires s'.rows == ReleaseReservation(s.rows, user, ref)
    ensures Recorded(s') <= Recorded(s)
  {
  }

  /** After a commit whose answer was lost, the compensation frees the coins of a live, unsigned row. */
  lemma LostAnswerFreesCoin(s: State, op: Outpoint, ref: Ref)
    requires Init(s) && ref != "" && op in s.rows && !s.rows[op].frozen
    ensures var user := s.rows[op].user;
            var s' := OnCompensate(OnInsert(OnReserve(s, ref, user, op), ref, user), ref, user);
            && ref in s'.txs && s'.txs[ref].status.Unsigned? && (ref, op) in s'.held
            && op in s'.rows && Claimable(s'.rows[op])
  {
    var user := s.rows[op].user;
    var s1 := OnReserve(s, ref, user, op);
    assert HeldBy(s1.rows[op], user, ref);
    assert (ref, op) in HeldCoins(s1.rows, user, ref);
  }

  /**
   The race: the sweep reads the reference while the action is still being created,
   the row is inserted, the sweep releases, and the action is signed and sent over a
   coin that is free for the taking.
   */
  lemma SweepRaceFreesSentCoin(s: State, op: Outpoint, ref: Ref, txid: TxId)
    requires Init(s) && ref != "" && op in s.rows && !s.rows[op].frozen
    ensures var user := s.rows[op].user;
            var s' := OnPost(OnClaim(OnSign(OnPin(OnSweepRelease(OnInsert(OnSweepRead(OnReserve(s, ref, user, op), ref), ref, user),
                      ref, user), ref), ref, txid, [op], ModeDelayed), txid), txid, 0);
            && op in s'.rows && Claimable(s'.rows[op]) && txid in s'.posted
            && txid in s'.known && op in s'.known[txid].inputs
  {
    var user := s.rows[op].user;
    var s1 := OnSweepRead(OnReserve(s, ref, user, op), ref);
    assert ref in s1.swept && s1.txs == map[] && HeldBy(s1.rows[op], user, ref);
    var s2 := OnSweepRelease(OnInsert(s1, ref, user), ref, user);
    assert s2.txs == map[ref := TxRow(user, Unsigned, None)] && Claimable(s2.rows[op]) && s2.known == map[];
    var s3 := OnPin(s2, ref);
    assert Claimable(s3.rows[op]) && CanSign(s3, ref, txid);
    var s4 := OnSign(s3, ref, txid, [op], ModeDelayed);
    assert s4.known[txid] == KnownTx(KUnsent, [op], false, s3.clock);
    var s5 := OnClaim(s4, txid);
    assert s5 == WinClaim(s4, txid, true);
  }
}
