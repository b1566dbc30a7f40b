/**
 A verified-dead release: the direct, shared-database application of a plan, and its
 split-store form as outbox operations. An operation is one write to the inventory,
 except the removal of minted change, whose cascade is a second write, to the metadata.
 The writes may run in any order and any number of times.
 */
module ReleaseReplay {
  import opened Domain
  import opened Inventory

  datatype Stores = Stores(rows: Rows, known: map<TxId, KnownStatus>)

  datatype Plan = Plan(
    txid: TxId,
    refs: seq<Ref>,
    funding: seq<Outpoint>,        // inputs whose source transaction is not dead
    phantom: seq<Outpoint>,     // inputs whose source transaction is dead
    change: seq<Outpoint>)

  datatype ReleaseOp =
    | OpUnspend(spender: TxId, ops: seq<Outpoint>)
    | OpRelease(reservation: Ref, ops: seq<Outpoint>)
    | OpRemovePhantom(ops: seq<Outpoint>)
    | OpRemoveMinted(ops: seq<Outpoint>)
    | OpCascade(ops: seq<Outpoint>)

  /** A transaction's own outputs are never among its inputs, and no input is both real and phantom. */
  ghost predicate Separate(plan: Plan) {
    && (forall op :: op in plan.funding ==> op !in plan.phantom && op !in plan.change)
    && (forall op :: op in plan.phantom ==> op !in plan.change)
  }

  // ---- one operation --------------------------------------------------------

  /** A child is queued again unless it is proven, queued already or finally dead. */
  predicate Cascades(k: KnownStatus) {
    !k.KCompleted? && !k.KSuspectFailed? && !k.KStuck? && !TerminalFailure(k)
  }

  function CascadeChildren(known: map<TxId, KnownStatus>, children: set<TxId>): map<TxId, KnownStatus> {
    map t | t in known :: if t in children && Cascades(known[t]) then KSuspectFailed else known[t]
  }

  function Exec(s: Stores, o: ReleaseOp): Stores {
    match o
    case OpUnspend(t, ops) => s.(rows := Unfreeze(Unspend(s.rows, t, ops), ops))
    case OpRelease(r, ops) => if r == "" then s else s.(rows := ReleaseOutpoints(s.rows, r, ops))
    case OpRemovePhantom(ops) => s.(rows := Remove(s.rows, ops))
    case OpRemoveMinted(ops) => s.(rows := RemoveByMintTx(s.rows, ops))
    case OpCascade(ops) => s.(known := CascadeChildren(s.known, AlreadySpentBy(s.rows, ops)))
  }

  function ExecAll(s: Stores, run: seq<ReleaseOp>): Stores
    decreases |run|
  {
    if run == [] then s else ExecAll(Exec(s, run[0]), run[1..])
  }

  lemma {:induction false} ExecConcat(s: Stores, run: seq<ReleaseOp>, more: seq<ReleaseOp>)
    ensures ExecAll(s, run + more) == ExecAll(ExecAll(s, run), more)
    decreases |run|
  {
    if run == [] {
      assert run + more == more;
    } else {
      assert (run + more)[1..] == run[1..] + more;
      ExecConcat(Exec(s, run[0]), run[1..], more);
    }
  }

  /** The writes of an outbox row. */
  function Writes(o: ReleaseOp): seq<ReleaseOp> {
    if o.OpRemoveMinted? then [o, OpCascade(o.ops)] else [o]
  }

  /** Whether `o` is one of the plan's writes (the ones with nothing to do included). */
  predicate OfPlan(plan: Plan, o: ReleaseOp) {
    match o
    case OpUnspend(t, ops) => t == plan.txid && ops == plan.funding
    case OpRelease(r, ops) => r in plan.refs && ops == plan.funding
    case OpRemovePhantom(ops) => ops == plan.phantom
    case OpRemoveMinted(ops) => ops == plan.change
    case OpCascade(ops) => ops == plan.change
  }

  // ---- what a release comes to -----------------------------------------------

  predicate Gone(plan: Plan, op: Outpoint, c: Coin) {
    op in plan.phantom || (op in plan.change && c.reservedBy == "" && c.spentBy.None?)
  }

  /** A real input: freed when the dead transaction holds or spent it, and never left frozen. */
  function FinalCoin(plan: Plan, c: Coin): Coin {
    if c.spentBy == Some(plan.txid) || (c.spentBy.None? && c.reservedBy != "" && c.reservedBy in plan.refs)
    then c.(reservedBy := "", pinned := false, spentBy := None, frozen := false)
    else c.(frozen := false)
  }

  function Final(plan: Plan, s: Stores): Stores {
    Stores(
      map op | op in s.rows && !Gone(plan, op, s.rows[op]) ::
        if op in plan.funding then FinalCoin(plan, s.rows[op]) else s.rows[op],
      CascadeChildren(s.known, AlreadySpentBy(s.rows, plan.change)))
  }

  /** The operation has nothing left to do. */
  ghost predicate Settled(s: Stores, o: ReleaseOp) {
    match o
    case OpUnspend(t, ops) =>
      forall op :: op in ops && op in s.rows ==> s.rows[op].spentBy != Some(t) && !s.rows[op].frozen
    case OpRelease(r, ops) =>
      r != "" ==> forall op :: op in ops && op in s.rows && s.rows[op].spentBy.None? ==> s.rows[op].reservedBy != r
    case OpRemovePhantom(ops) =>
      forall op :: op in ops ==> op !in s.rows
    case OpRemoveMinted(ops) =>
      forall op :: op in ops && op in s.rows ==> s.rows[op].reservedBy != "" || s.rows[op].spentBy.Some?
    case OpCascade(ops) =>
      forall t :: t in AlreadySpentBy(s.rows, ops) && t in s.known ==> !Cascades(s.known[t])
  }

  lemma ExecSettles(s: Stores, o: ReleaseOp)
    ensures Settled(Exec(s, o), o)
  {
  }

  lemma SettledStays(plan: Plan, s: Stores, o: ReleaseOp, done: ReleaseOp)
    requires Separate(plan) && OfPlan(plan, o) && OfPlan(plan, done) && Settled(s, done)
    ensures Settled(Exec(s, o), done)
  {
    if done.OpCascade? { ChangeSpendersStay(plan, s, o); }
  }

  lemma ChangeSpendersStay(plan: Plan, s: Stores, o: ReleaseOp)
    requires Separate(plan) && OfPlan(plan, o)
    ensures AlreadySpentBy(Exec(s, o).rows, plan.change) == AlreadySpentBy(s.rows, plan.change)
  {
    var rows, rows' := s.rows, Exec(s, o).rows;
    forall op | op in plan.change
      ensures (op in rows && rows[op].spentBy.Some?) <==> (op in rows' && rows'[op].spentBy.Some?)
      ensures op in rows && rows[op].spentBy.Some? ==> rows[op] == rows'[op]
    {
    }
    forall t | t in AlreadySpentBy(rows, plan.change) ensures t in AlreadySpentBy(rows', plan.change) {
      var op :| op in plan.change && op in rows && rows[op].spentBy.Some? && rows[op].spentBy.value == t;
      assert rows'[op].spentBy.value == t;
    }
    forall t | t in AlreadySpentBy(rows', plan.change) ensures t in AlreadySpentBy(rows, plan.change) {
      var op :| op in plan.change && op in rows' && rows'[op].spentBy.Some? && rows'[op].spentBy.value == t;
      assert rows[op].spentBy.value == t;
    }
  }

  lemma StepKeepsFinal(plan: Plan, s: Stores, o: ReleaseOp)
    requires Separate(plan) && OfPlan(plan, o)
    ensures Final(plan, Exec(s, o)) == Final(plan, s)
  {
    ChangeSpendersStay(plan, s, o);
    StepKeepsFinalRows(plan, s, o);
    assert Final(plan, Exec(s, o)).known == Final(plan, s).known;
  }

  lemma StepKeepsFinalRows(plan: Plan, s: Stores, o: ReleaseOp)
    requires Separate(plan) && OfPlan(plan, o)
    ensures Final(plan, Exec(s, o)).rows == Final(plan, s).rows
  {
  }

  /** Once every operation of the plan has run, the stores are final. */
  lemma AllSettledIsFinal(plan: Plan, s: Stores)
    requires Settled(s, OpUnspend(plan.txid, plan.funding))
    requires forall r :: r in plan.refs ==> Settled(s, OpRelease(r, plan.funding))
    requires Settled(s, OpRemovePhantom(plan.phantom)) && Settled(s, OpRemoveMinted(plan.change))
    requires Settled(s, OpCascade(plan.change))
    ensures Final(plan, s) == s
  {
    assert forall op :: op in s.rows ==> !Gone(plan, op, s.rows[op]);
    assert forall op :: op in s.rows && op in plan.funding ==> FinalCoin(plan, s.rows[op]) == s.rows[op];
  }

  lemma {:induction false} RunSettles(plan: Plan, s: Stores, run: seq<ReleaseOp>, done: ReleaseOp)
    requires Separate(plan) && (forall o :: o in run ==> OfPlan(plan, o)) && OfPlan(plan, done)
    requires done in run || Settled(s, done)
    ensures Settled(ExecAll(s, run), done)
    decreases |run|
  {
    if run != [] {
      if run[0] == done {
        ExecSettles(s, done);
      } else if done !in run[1..] {
        SettledStays(plan, s, run[0], done);
      }
      RunSettles(plan, Exec(s, run[0]), run[1..], done);
    }
  }

  lemma {:induction false} RunKeepsFinal(plan: Plan, s: Stores, run: seq<ReleaseOp>)
    requires Separate(plan) && forall o :: o in run ==> OfPlan(plan, o)
    ensures Final(plan, ExecAll(s, run)) == Final(plan, s)
    decreases |run|
  {
    if run != [] {
      StepKeepsFinal(plan, s, run[0]);
      RunKeepsFinal(plan, Exec(s, run[0]), run[1..]);
    }
  }

  // ---- the outbox form ---------------------------------------------------------

  /** The operations a plan enqueues: empty ones are left out. */
  function OutboxOps(plan: Plan): seq<ReleaseOp> {
    (if plan.funding == [] then []
     else [OpUnspend(plan.txid, plan.funding)]
          + seq(|plan.refs|, i requires 0 <= i < |plan.refs| => OpRelease(plan.refs[i], plan.funding)))
    + (if plan.phantom == [] then [] else [OpRemovePhantom(plan.phantom)])
    + (if plan.change == [] then [] else [OpRemoveMinted(plan.change)])
  }

  lemma OutboxOpsOfPlan(plan: Plan, o: ReleaseOp)
    ensures o in OutboxOps(plan) <==> (OfPlan(plan, o) && o.ops != [] && !o.OpCascade?)
  {
    if OfPlan(plan, o) && o.ops != [] && o.OpRelease? {
      var i :| 0 <= i < |plan.refs| && plan.refs[i] == o.reservation;
      assert OutboxOps(plan)[1 + i] == o;
    } else if OfPlan(plan, o) && o.OpUnspend? && o.ops != [] {
      assert OutboxOps(plan)[0] == o;
    }
  }

  /** Every write of the outbox row is in the run. */
  ghost predicate Done(run: seq<ReleaseOp>, o: ReleaseOp) {
    forall w :: w in Writes(o) ==> w in run
  }

  /**
   The writes of a plan's outbox rows in any order, each at least once and any number
   of times, also when the inventory half of a row ran and its metadata half was rolled
   back and came later, give the final stores of the release.
   */
  lemma ReplayIsFinal(plan: Plan, s: Stores, run: seq<ReleaseOp>)
    requires Separate(plan) && (forall w :: w in run ==> OfPlan(plan, w))
    requires forall o :: o in OutboxOps(plan) ==> Done(run, o)
    ensures ExecAll(s, run) == Final(plan, s)
  {
    var s' := ExecAll(s, run);
    RunKeepsFinal(plan, s, run);
    forall w | OfPlan(plan, w) && w.ops != [] ensures Settled(s', w) {
      var o := if w.OpCascade? then OpRemoveMinted(w.ops) else w;
      OutboxOpsOfPlan(plan, o);
      assert w in Writes(o) && Done(run, o);
      RunSettles(plan, s, run, w);
    }
    assert Settled(s', OpRemovePhantom(plan.phantom)) && Settled(s', OpRemoveMinted(plan.change));
    assert plan.change == [] ==> AlreadySpentBy(s'.rows, plan.change) == {};
    assert Settled(s', OpCascade(plan.change));
    AllSettledIsFinal(plan, s');
  }

  /** The key an operation is enqueued under: its kind and, for releases, its position among the references. */
  function OutboxKey(plan: Plan, i: nat): (string, nat)
    requires i < |OutboxOps(plan)|
  {
    var o := OutboxOps(plan)[i];
    match o
    case OpUnspend(_, _) => ("UNSPEND", 0)
    case OpRelease(_, _) => ("RELEASE_RESV", i - 1)
    case OpRemovePhantom(_) => ("REMOVE_PHANTOM", 0)
    case OpRemoveMinted(_) => ("REMOVE_MINTED", 0)
  }

  /** No two operations of a plan share a key, so the enqueue's deduplication drops none of them. */
  lemma KeysAreDistinct(plan: Plan, i: nat, j: nat)
    requires i < j < |OutboxOps(plan)|
    ensures OutboxKey(plan, i) != OutboxKey(plan, j)
  {
  }
}
