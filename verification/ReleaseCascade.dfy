/**
 Runs of releases over a shared database: parents and children die in any order,
 among claims, spends, mints, suspicions and recoveries. No coin created by a
 finally dead transaction is ever free for the taking.
 */
module ReleaseCascade {
  import opened Domain
  import opened Inventory
  import opened ReleaseReplay
  import opened Reconciler

  datatype World = World(
    st: Stores,
    inputs: map<TxId, seq<Outpoint>>,      // what each known transaction spends
    minted: map<TxId, seq<Outpoint>>)      // the change recorded for each transaction

  datatype Event =
    | ReleaseDead(plan: Plan, inputs: seq<Outpoint>, terminal: KnownStatus)
    | MarkSuspect(txid: TxId)
    | Settle(txid: TxId, to: KnownStatus)          // stuck, recovered, or any other status that is not a final failure
    | Reserve(op: Outpoint, ref: Ref)
    | RecordSpend(txid: TxId, op: Outpoint)
    | MintChange(op: Outpoint, coin: Coin)
    | AbortAction(user: int, ref: Ref)

  function Minted(w: World, t: TxId): seq<Outpoint> {
    if t in w.minted then w.minted[t] else []
  }

  predicate Free(c: Coin) {
    c.reservedBy == "" && c.spentBy.None?
  }

  predicate SourceFailed(known: map<TxId, KnownStatus>, op: Outpoint) {
    op.txid in known && TerminalFailure(known[op.txid])
  }

  /** The plan of a suspect: some of its inputs, partitioned, and all its recorded change. */
  ghost predicate PlanFor(w: World, plan: Plan, inputs: seq<Outpoint>) {
    && plan.txid in w.inputs && (forall op :: op in inputs ==> op in w.inputs[plan.txid])
    && Partitioned(w.st.known, inputs, plan) && plan.change == Minted(w, plan.txid)
  }

  ghost function Step(w: World, e: Event): World {
    match e
    case ReleaseDead(plan, inputs, terminal) =>
      if PlanFor(w, plan, inputs) && TerminalFailure(terminal)
         && plan.txid in w.st.known && w.st.known[plan.txid].KSuspectFailed?
      then w.(st := Final(plan, w.st.(known := w.st.known[plan.txid := terminal]))) else w
    case MarkSuspect(t) =>
      if t in w.st.known then w.(st := w.st.(known := w.st.known[t := KSuspectFailed])) else w
    case Settle(t, to) =>
      if t in w.st.known && !TerminalFailure(to) then w.(st := w.st.(known := w.st.known[t := to])) else w
    case Reserve(op, ref) =>
      if ref != "" && op in w.st.rows && Claimable(w.st.rows[op])
      then w.(st := w.st.(rows := w.st.rows[op := w.st.rows[op].(reservedBy := ref)])) else w
    case RecordSpend(t, op) => w.(st := w.st.(rows := SpendFact(w.st.rows, t, op)))
    case MintChange(op, c) =>
      if op in w.st.rows || SourceFailed(w.st.known, op) then w
      else w.(st := w.st.(rows := w.st.rows[op := c]), minted := w.minted[op.txid := Minted(w, op.txid) + [op]])
    case AbortAction(user, ref) =>
      w.(st := w.st.(rows := ReleaseReservation(SetPinned(w.st.rows, user, ref, false), user, ref)))
  }

  ghost function RunAll(w: World, run: seq<Event>): World
    decreases |run|
  {
    if run == [] then w else RunAll(Step(w, run[0]), run[1..])
  }

  /** A transaction never spends its own outputs, and every coin is recorded change of its source. */
  ghost predicate WellFormed(w: World) {
    && (forall t, op :: t in w.inputs && op in w.inputs[t] ==> op.txid != t)
    && (forall t, op :: t in w.minted && op in w.minted[t] ==> op.txid == t)
    && (forall op :: op in w.st.rows ==> op in Minted(w, op.txid))
  }

  /** No coin of a finally dead transaction is free. */
  ghost predicate NoPhantomFree(w: World) {
    forall op :: op in w.st.rows && SourceFailed(w.st.known, op) ==> !Free(w.st.rows[op])
  }

  /** An abort gives back no coin whose source has finally died. */
  ghost predicate HoldsNoPhantom(w: World, e: Event) {
    e.AbortAction? ==> forall op :: op in w.st.rows && HeldBy(w.st.rows[op], e.user, e.ref) ==> !SourceFailed(w.st.known, op)
  }

  ghost predicate CleanRun(w: World, run: seq<Event>)
    decreases |run|
  {
    run == [] || (HoldsNoPhantom(w, run[0]) && CleanRun(Step(w, run[0]), run[1..]))
  }

  lemma PlanIsSeparate(w: World, plan: Plan, inputs: seq<Outpoint>)
    requires WellFormed(w) && PlanFor(w, plan, inputs)
    ensures Separate(plan)
    ensures forall op :: op in plan.change ==> op.txid == plan.txid
    ensures forall op :: op in plan.funding || op in plan.phantom ==> op.txid != plan.txid
  {
  }

  /** One release: what it frees has a living source, what its own change leaves is held or spent. */
  lemma ReleaseKeeps(w: World, plan: Plan, inputs: seq<Outpoint>, terminal: KnownStatus)
    requires WellFormed(w) && NoPhantomFree(w) && PlanFor(w, plan, inputs) && TerminalFailure(terminal)
    requires plan.txid in w.st.known && w.st.known[plan.txid].KSuspectFailed?
    ensures NoPhantomFree(Step(w, ReleaseDead(plan, inputs, terminal)))
  {
    PlanIsSeparate(w, plan, inputs);
    var st0 := w.st.(known := w.st.known[plan.txid := terminal]);
    var st := Final(plan, st0);
    forall op | op in st.rows && SourceFailed(st.known, op) ensures !Free(st.rows[op]) {
      assert SourceFailed(st0.known, op);
      if op.txid == plan.txid {
        assert op in plan.change && !Gone(plan, op, w.st.rows[op]);
      } else {
        assert SourceFailed(w.st.known, op) && SourceDead(w.st.known, op);
        assert op !in plan.funding && op !in plan.phantom;
      }
    }
  }

  lemma StepKeepsWellFormed(w: World, e: Event)
    requires WellFormed(w)
    ensures WellFormed(Step(w, e))
  {
  }

  lemma StepKeepsNoPhantom(w: World, e: Event)
    requires WellFormed(w) && NoPhantomFree(w) && HoldsNoPhantom(w, e)
    ensures NoPhantomFree(Step(w, e))
  {
    if e.ReleaseDead? && Step(w, e) != w {
      ReleaseKeeps(w, e.plan, e.inputs, e.terminal);
    }
  }

  /** In every run, no free coin has a source that is invalidTx or doubleSpend. */
  lemma {:induction false} NoFreePhantomEver(w: World, run: seq<Event>)
    requires WellFormed(w) && NoPhantomFree(w) && CleanRun(w, run)
    ensures NoPhantomFree(RunAll(w, run))
    decreases |run|
  {
    if run != [] {
      StepKeepsWellFormed(w, run[0]);
      StepKeepsNoPhantom(w, run[0]);
      NoFreePhantomEver(Step(w, run[0]), run[1..]);
    }
  }

  /** The condition on aborts is exact: one that holds a dead source's coin sets it free. */
  lemma AbortKeepsNoPhantomIff(w: World, user: int, ref: Ref)
    requires WellFormed(w) && NoPhantomFree(w)
    ensures NoPhantomFree(Step(w, AbortAction(user, ref))) <==> HoldsNoPhantom(w, AbortAction(user, ref))
  {
    var w' := Step(w, AbortAction(user, ref));
    if op :| op in w.st.rows && HeldBy(w.st.rows[op], user, ref) && SourceFailed(w.st.known, op) {
      if ref != "" {
        assert Free(w'.st.rows[op]);
      }
    } else {
      StepKeepsNoPhantom(w, AbortAction(user, ref));
    }
  }

  /** It happens: change claimed by an unsigned action survives its parent's release and is freed by the abort. */
  lemma AbortFreesPhantom(w: World, plan: Plan, inputs: seq<Outpoint>, terminal: KnownStatus, op: Outpoint, ref: Ref)
    requires WellFormed(w) && PlanFor(w, plan, inputs) && TerminalFailure(terminal) && op in plan.change && ref != ""
    requires plan.txid in w.st.known && w.st.known[plan.txid].KSuspectFailed?
    requires op in w.st.rows && HeldBy(w.st.rows[op], w.st.rows[op].user, ref) && !w.st.rows[op].frozen
    ensures var user := w.st.rows[op].user;
            var w' := Step(Step(w, ReleaseDead(plan, inputs, terminal)), AbortAction(user, ref));
            op in w'.st.rows && Claimable(w'.st.rows[op]) && SourceFailed(w'.st.known, op)
  {
    PlanIsSeparate(w, plan, inputs);
    var w1 := Step(w, ReleaseDead(plan, inputs, terminal));
    assert op in w1.st.rows && w1.st.rows[op] == w.st.rows[op];
    assert w1.st.known[plan.txid] == terminal;
  }

  /** A release leaves every child that spent its change proven, queued, or finally dead. */
  lemma ReleaseQueuesChildren(w: World, plan: Plan, inputs: seq<Outpoint>, terminal: KnownStatus, op: Outpoint, child: TxId)
    requires WellFormed(w) && PlanFor(w, plan, inputs) && TerminalFailure(terminal)
    requires plan.txid in w.st.known && w.st.known[plan.txid].KSuspectFailed?
    ensures var st := Step(w, ReleaseDead(plan, inputs, terminal)).st;
            op in st.rows && op.txid == plan.txid && st.rows[op].spentBy == Some(child) && child in st.known
            ==> !Cascades(st.known[child])
  {
    PlanIsSeparate(w, plan, inputs);
    var st := Step(w, ReleaseDead(plan, inputs, terminal)).st;
    if op in st.rows && op.txid == plan.txid && st.rows[op].spentBy == Some(child) {
      assert op in plan.change && w.st.rows[op].spentBy == Some(child);
      assert child in AlreadySpentBy(w.st.rows, plan.change);
    }
  }
}
