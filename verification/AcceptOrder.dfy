/**
 An accepted broadcast: the spends are recorded first and the statuses move
 second, so a crash or an error at any point leaves either nothing to redo or a
 transaction that a re-drive takes to the same final state.
 */
module AcceptOrder {
  import opened Domain
  import opened Inventory
  import opened Protocol

  // ---- every run -------------------------------------------------------------

  /** Where a spend call reported success and the spender was not finalised, the inventory does not say otherwise. */
  ghost predicate VerdictHolds(s: State, p: (TxId, Outpoint)) {
    p.1 in s.rows && p.0 !in s.finalised ==> s.rows[p.1].spentBy == Some(p.0)
  }

  ghost predicate AcceptedAfterSpend(s: State, t: TxId) {
    t in s.accepted ==> t in s.known && forall op :: op in s.known[t].inputs ==> (t, op) in s.verdicts
  }

  ghost predicate AcceptInv(s: State) {
    && (forall p :: p in s.verdicts ==> VerdictHolds(s, p))
    && (forall t :: AcceptedAfterSpend(s, t))
    && (forall t :: t in s.finalised ==> t in s.known)
  }

  /** A mint never creates a coin that an accepted transaction was told to be external. */
  ghost predicate FreshMint(s: State, a: Action) {
    a.Coins? && a.c.Mint? && a.c.op !in s.rows ==> forall p :: p in s.verdicts ==> p.1 != a.c.op
  }

  ghost predicate FreshRun(s: State, run: seq<Action>)
    decreases |run|
  {
    run == [] || (FreshMint(s, run[0]) && FreshRun(Apply(s, run[0]), run[1..]))
  }

  lemma CoinsVerdict(s: State, c: CoinWrite, p: (TxId, Outpoint))
    requires p in s.verdicts ==> VerdictHolds(s, p)
    requires p in s.verdicts && c.Mint? && c.op !in s.rows ==> p.1 != c.op
    ensures p in ApplyCoins(s, c).verdicts ==> VerdictHolds(ApplyCoins(s, c), p)
  {
  }

  lemma CoinsVerdictsGrow(s: State, c: CoinWrite)
    ensures s.verdicts <= ApplyCoins(s, c).verdicts
  {
  }

  lemma MetaAccepted(s: State, m: MetaWrite, t: TxId)
    requires AcceptedAfterSpend(s, t)
    ensures AcceptedAfterSpend(ApplyMeta(s, m), t)
  {
  }

  lemma FinalisedKnown(s: State, m: MetaWrite, t: TxId)
    requires (t in s.finalised ==> t in s.known) && t in ApplyMeta(s, m).finalised
    ensures t in ApplyMeta(s, m).known
  {
  }

  lemma StepAcceptInv(s: State, a: Action)
    requires AcceptInv(s) && FreshMint(s, a)
    ensures AcceptInv(Apply(s, a))
  {
    var s' := Apply(s, a);
    if a.Meta? { FinalisedGrows(s, a.m); }
    if a.Coins? { CoinsVerdictsGrow(s, a.c); }
    forall p | p in s'.verdicts ensures VerdictHolds(s', p) {
      if a.Coins? { CoinsVerdict(s, a.c, p); }
    }
    forall t ensures AcceptedAfterSpend(s', t) {
      assert AcceptedAfterSpend(s, t);
      if a.Meta? { MetaAccepted(s, a.m, t); }
    }
    forall t | t in s'.finalised ensures t in s'.known {
      if a.Meta? { FinalisedKnown(s, a.m, t); }
    }
  }

  lemma {:induction false} RunAcceptInv(s: State, run: seq<Action>)
    requires AcceptInv(s) && FreshRun(s, run)
    ensures AcceptInv(Run(s, run))
    decreases |run|
  {
    if run != [] {
      StepAcceptInv(s, run[0]);
      RunAcceptInv(Apply(s, run[0]), run[1..]);
    }
  }

  /** Every inventory-held input of a transaction is recorded spent by it. */
  ghost predicate InputsSpent(s: State, txid: TxId) {
    txid in s.known && forall op :: op in s.known[txid].inputs && op in s.rows ==> s.rows[op].spentBy == Some(txid)
  }

  /** A transaction an accept moved on, and no reconciler finalised, has every inventory-held input recorded spent by it. */
  lemma AcceptedInputsAreSpent(s: State, run: seq<Action>, txid: TxId)
    requires Init(s) && FreshRun(s, run)
    requires txid in Run(s, run).accepted && txid !in Run(s, run).finalised
    ensures InputsSpent(Run(s, run), txid)
  {
    RunAcceptInv(s, run);
    var s' := Run(s, run);
    assert AcceptedAfterSpend(s', txid);
    forall op | op in s'.known[txid].inputs && op in s'.rows ensures s'.rows[op].spentBy == Some(txid) {
      assert VerdictHolds(s', (txid, op));
    }
  }

  /** The two writes that can break it: a mint of an input, and the reconciler's UNSPEND of one. */
  ghost predicate BreaksInputs(s: State, a: Action, txid: TxId)
    requires txid in s.known
  {
    && a.Coins?
    && (|| (a.c.Mint? && a.c.op in s.known[txid].inputs && OnMint(s, a.c.op, a.c.coin) != s)
        || (a.c.ReleaseSpent? && a.c.txid == txid && txid in s.finalised && Spends(s, txid, a.c.ops)
            && exists op :: op in a.c.ops && op in s.rows))
  }

  lemma CoinsInputsSpentIff(s: State, c: CoinWrite, txid: TxId)
    requires InputsSpent(s, txid)
    ensures InputsSpent(ApplyCoins(s, c), txid) <==> !BreaksInputs(s, Coins(c), txid)
  {
    if BreaksInputs(s, Coins(c), txid) {
      var op := if c.Mint? then c.op else OpOf(c.ops, s.rows);
      assert op in s.known[txid].inputs && op in ApplyCoins(s, c).rows && ApplyCoins(s, c).rows[op].spentBy.None?;
    }
  }

  ghost function OpOf(ops: seq<Outpoint>, rows: Rows): Outpoint
    requires exists op :: op in ops && op in rows
    ensures OpOf(ops, rows) in ops && OpOf(ops, rows) in rows
  {
    var op :| op in ops && op in rows;
    op
  }

  /** Exactly which writes end the promise, over every action of the machine. */
  lemma InputsSpentIff(s: State, a: Action, txid: TxId)
    requires InputsSpent(s, txid)
    ensures InputsSpent(Apply(s, a), txid) <==> !BreaksInputs(s, a, txid)
  {
    if a.Coins? { CoinsInputsSpentIff(s, a.c, txid); }
    if a.Meta? { StaysKnown(s, a, txid); }
  }

  // ---- re-driving an interrupted accept ---------------------------------------

  function SpendAll(rows: Rows, txid: TxId, ops: seq<Outpoint>): Rows {
    map op | op in rows :: if op in ops then SpendCoin(rows[op], txid) else rows[op]
  }

  function SpendItems(txid: TxId, ops: seq<Outpoint>): seq<Action> {
    seq(|ops|, i requires 0 <= i < |ops| => Coins(SpendItem(txid, ops[i])))
  }

  /** One uninterrupted accept: spend every input, then commit the statuses. */
  function Accept(s: State, txid: TxId): State
    requires txid in s.known
  {
    Apply(Run(s, SpendItems(txid, s.known[txid].inputs)), Meta(AcceptCommit(txid)))
  }

  /** The transaction is on the network, has a row, and no other transaction spent its inputs. */
  ghost predicate Acceptable(s: State, txid: TxId) {
    && txid in s.posted && txid in s.known
    && (exists r :: r in s.txs && s.txs[r].txid == Some(txid))
    && (forall op :: op in s.known[txid].inputs ==> SpendSucceeds(s.rows, txid, op))
  }

  lemma SpentSet(verdicts: set<(TxId, Outpoint)>, txid: TxId, ops: seq<Outpoint>)
    requires ops != []
    ensures verdicts + {(txid, ops[0])} + (set op | op in ops[1..] :: (txid, op)) ==
            verdicts + set op | op in ops :: (txid, op)
  {
    assert ops == [ops[0]] + ops[1..];
  }

  lemma SpendOneOfAll(s: State, txid: TxId, op: Outpoint, rest: seq<Outpoint>)
    requires Acceptable(s, txid) && op in s.known[txid].inputs
    ensures var s' := Apply(s, Coins(SpendItem(txid, op)));
            && Acceptable(s', txid)
            && s' == s.(rows := s'.rows, verdicts := s.verdicts + {(txid, op)})
            && SpendAll(s'.rows, txid, rest) == SpendAll(s.rows, txid, [op] + rest)
  {
  }

  lemma {:induction false} SpendItemsSpendAll(s: State, txid: TxId, ops: seq<Outpoint>)
    requires Acceptable(s, txid) && forall op :: op in ops ==> op in s.known[txid].inputs
    ensures Run(s, SpendItems(txid, ops)) ==
            s.(rows := SpendAll(s.rows, txid, ops), verdicts := s.verdicts + set op | op in ops :: (txid, op))
    decreases |ops|
  {
    if ops == [] {
      assert SpendAll(s.rows, txid, ops) == s.rows;
      assert s.verdicts + (set op | op in ops :: (txid, op)) == s.verdicts;
    } else {
      var s1 := Apply(s, Coins(SpendItem(txid, ops[0])));
      SpendOneOfAll(s, txid, ops[0], ops[1..]);
      SpendItemsSpendAll(s1, txid, ops[1..]);
      assert SpendItems(txid, ops)[1..] == SpendItems(txid, ops[1..]);
      assert ops == [ops[0]] + ops[1..];
      SpentSet(s.verdicts, txid, ops);
    }
  }

  /** What an uninterrupted accept comes to. */
  lemma AcceptOutcome(s: State, txid: TxId)
    requires Acceptable(s, txid)
    ensures Accept(s, txid).rows == SpendAll(s.rows, txid, s.known[txid].inputs)
    ensures Accept(s, txid).txs == MoveTxRows(s.txs, txid, Unproven, ACCEPT_FROM)
    ensures txid in Accept(s, txid).known && WasBroadcastStatus(Accept(s, txid).known[txid].status)
    ensures Accept(s, txid).known[txid].status ==
            if WasBroadcastStatus(s.known[txid].status) then s.known[txid].status else KUnconfirmed
  {
    SpendItemsSpendAll(s, txid, s.known[txid].inputs);
    var s1 := Run(s, SpendItems(txid, s.known[txid].inputs));
    assert CanAccept(s1, txid);
  }

  /** What may happen between a crashed accept and its re-drive. */
  predicate Interruption(txid: TxId, a: Action) {
    || (a.Post? && a.txid == txid) || a == Meta(Reclaim(txid)) || a.Tick?
    || (a.Coins? && a.c.SpendItem? && a.c.txid == txid)
  }

  lemma InterruptionStep(s: State, txid: TxId, a: Action)
    requires Acceptable(s, txid) && Interruption(txid, a)
    ensures var s' := Apply(s, a);
            && Acceptable(s', txid) && s'.txs == s.txs
            && s'.known[txid].status == s.known[txid].status && s'.known[txid].inputs == s.known[txid].inputs
            && SpendAll(s'.rows, txid, s.known[txid].inputs) == SpendAll(s.rows, txid, s.known[txid].inputs)
  {
    StaysAcceptable(s, txid, a);
  }

  /** A re-drive after any interruption ends with the inventory, rows and status of the uninterrupted accept. */
  lemma {:induction false} ReDriveConverges(s: State, txid: TxId, mid: seq<Action>)
    requires Acceptable(s, txid) && forall a :: a in mid ==> Interruption(txid, a)
    ensures Acceptable(Run(s, mid), txid)
    ensures txid in Accept(s, txid).known && txid in Accept(Run(s, mid), txid).known
    ensures Accept(Run(s, mid), txid).rows == Accept(s, txid).rows
    ensures Accept(Run(s, mid), txid).txs == Accept(s, txid).txs
    ensures Accept(Run(s, mid), txid).known[txid].status == Accept(s, txid).known[txid].status
    decreases |mid|
  {
    AcceptOutcome(s, txid);
    if mid != [] {
      var s1 := Apply(s, mid[0]);
      InterruptionStep(s, txid, mid[0]);
      AcceptOutcome(s1, txid);
      ReDriveConverges(s1, txid, mid[1..]);
    }
  }

  // ---- re-driving after anything -------------------------------------------------

  /** The action records no other transaction's spend of these inputs. */
  predicate NoRival(txid: TxId, inputs: seq<Outpoint>, a: Action) {
    a.Coins? && a.c.SpendItem? && a.c.txid != txid ==> a.c.op !in inputs
  }

  lemma StaysKnown(s: State, a: Action, txid: TxId)
    requires txid in s.known
    ensures txid in Apply(s, a).known && Apply(s, a).known[txid].inputs == s.known[txid].inputs
  {
    if a.Meta? { KnownStays(s, a.m, txid); }
  }

  lemma InputsStayFree(s: State, c: CoinWrite, txid: TxId, op: Outpoint)
    requires SpendSucceeds(s.rows, txid, op) && (c.SpendItem? && c.txid != txid ==> c.op != op)
    ensures SpendSucceeds(ApplyCoins(s, c).rows, txid, op)
  {
  }

  lemma StaysAcceptable(s: State, txid: TxId, a: Action)
    requires Acceptable(s, txid) && NoRival(txid, s.known[txid].inputs, a)
    ensures Acceptable(Apply(s, a), txid) && Apply(s, a).known[txid].inputs == s.known[txid].inputs
  {
    var r :| r in s.txs && s.txs[r].txid == Some(txid);
    if a.Meta? { RowStays(s, a.m, r); }
    StaysKnown(s, a, txid);
    forall op | op in s.known[txid].inputs ensures SpendSucceeds(Apply(s, a).rows, txid, op) {
      if a.Coins? { InputsStayFree(s, a.c, txid, op); }
    }
  }

  /**
   Whatever happens between an interrupted accept and its re-drive, short of another
   transaction being recorded as the spender of an input, the re-drive completes:
   every inventory-held input is spent by the transaction, which is at a broadcast
   status.
   */
  lemma {:induction false} ReDriveCompletes(s: State, txid: TxId, mid: seq<Action>)
    requires Acceptable(s, txid) && forall a :: a in mid ==> NoRival(txid, s.known[txid].inputs, a)
    ensures Acceptable(Run(s, mid), txid)
    ensures var s' := Accept(Run(s, mid), txid);
            && txid in s'.known && WasBroadcastStatus(s'.known[txid].status)
            && s'.rows == SpendAll(Run(s, mid).rows, txid, s.known[txid].inputs)
            && forall op :: op in s.known[txid].inputs && op in s'.rows ==> s'.rows[op].spentBy == Some(txid)
    decreases |mid|
  {
    if mid == [] {
      AcceptOutcome(s, txid);
    } else {
      StaysAcceptable(s, txid, mid[0]);
      ReDriveCompletes(Apply(s, mid[0]), txid, mid[1..]);
    }
  }
}
