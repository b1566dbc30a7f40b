/**
 The verified-dead release as the reconciler performs it: building the plan,
 applying it in one shared-database transaction, or committing it to the outbox
 and replaying the outbox until it is empty.
 */
module Reconciler {
  import opened Domain
  import opened Inventory
  import opened ReleaseReplay

  const MAX_OUTBOX_ATTEMPTS: nat := 10

  /** The outbox's primary key: transaction, kind of operation, chunk. */
  type Key = (TxId, string, nat)

  datatype Owing = Owing(op: ReleaseOp, attempts: nat)

  /** A source transaction that is finally dead, so that its outputs never existed. */
  predicate SourceDead(known: map<TxId, KnownStatus>, op: Outpoint) {
    op.txid in known && (TerminalFailure(known[op.txid]) || known[op.txid].KStuck?)
  }

  /** The partition of the inputs to release. */
  ghost predicate Partitioned(known: map<TxId, KnownStatus>, inputs: seq<Outpoint>, plan: Plan) {
    && (forall op :: op in plan.funding <==> op in inputs && !SourceDead(known, op))
    && (forall op :: op in plan.phantom <==> op in inputs && SourceDead(known, op))
  }

  /** A row of the outbox still stands for this operation. */
  ghost predicate Owed(outbox: map<Key, Owing>, txid: TxId, o: ReleaseOp) {
    exists k :: k in outbox && k.0 == txid && outbox[k].op == o
  }

  /** A row that is not parked and whose operation the executor knows. */
  predicate Runnable(outbox: map<Key, Owing>, k: Key) {
    k in outbox && outbox[k].attempts < MAX_OUTBOX_ATTEMPTS && !outbox[k].op.OpCascade?
  }

  function KeyOf(plan: Plan, i: nat): Key
    requires i < |OutboxOps(plan)|
  {
    (plan.txid, OutboxKey(plan, i).0, OutboxKey(plan, i).1)
  }

  /** The rows that a release of the plan writes to the outbox. */
  function PlanRows(plan: Plan): (batch: seq<(Key, ReleaseOp)>)
    ensures |batch| == |OutboxOps(plan)|
    ensures forall i :: 0 <= i < |batch| ==> batch[i] == (KeyOf(plan, i), OutboxOps(plan)[i])
    ensures forall b :: b in batch ==> b.0.0 == plan.txid && !b.1.OpCascade?
  {
    seq(|OutboxOps(plan)|, i requires 0 <= i < |OutboxOps(plan)| => (KeyOf(plan, i), OutboxOps(plan)[i]))
  }

  ghost predicate AllQueued(outbox: map<Key, Owing>, plan: Plan) {
    forall i :: 0 <= i < |OutboxOps(plan)| ==> KeyOf(plan, i) in outbox && outbox[KeyOf(plan, i)].op == OutboxOps(plan)[i]
  }

  function ChildSet(children: seq<TxId>): set<TxId> {
    set t | t in children
  }

  class Store {
    var rows: Rows
    var known: map<TxId, KnownStatus>
    var refs: map<TxId, seq<Ref>>             // references of the transaction rows carrying a txid
    var change: map<TxId, seq<Outpoint>>      // change outputs recorded for a txid
    var outbox: map<Key, Owing>
    ghost var ran: seq<ReleaseOp>             // writes made since the plan was committed

    ghost function Now(): Stores
      reads this
    {
      Stores(rows, known)
    }

    /** The plan was committed on stores `s0`; what has been written, and what is still owed. */
    ghost predicate Replaying(plan: Plan, s0: Stores)
      reads this
    {
      && Now() == ExecAll(s0, ran)
      && forall o :: o in OutboxOps(plan) ==> Done(ran, o) || Owed(outbox, plan.txid, o)
    }

    method BuildReleasePlan(txid: TxId, inputs: seq<Outpoint>) returns (plan: Plan)
      ensures plan.txid == txid && Partitioned(known, inputs, plan)
      ensures plan.refs == (if txid in refs then refs[txid] else [])
      ensures plan.change == (if txid in change then change[txid] else [])
      ensures (forall op :: op in inputs ==> op.txid != txid) && (forall op :: op in plan.change ==> op.txid == txid)
              ==> Separate(plan)
    {
      var funding: seq<Outpoint>, phantom: seq<Outpoint> := [], [];
      for i := 0 to |inputs|
        invariant forall op :: op in funding <==> op in inputs[..i] && !SourceDead(known, op)
        invariant forall op :: op in phantom <==> op in inputs[..i] && SourceDead(known, op)
      {
        assert inputs[..i + 1] == inputs[..i] + [inputs[i]];
        if SourceDead(known, inputs[i]) {
          phantom := phantom + [inputs[i]];
        } else {
          funding := funding + [inputs[i]];
        }
      }
      assert inputs[..|inputs|] == inputs;
      plan := Plan(txid, if txid in refs then refs[txid] else [], funding, phantom,
                   if txid in change then change[txid] else []);
    }

    /** The no-double-release gate: only a suspect can be finalised. */
    method Gate(txid: TxId, terminal: KnownStatus) returns (won: bool)
      modifies this`known
      ensures won <==> txid in old(known) && old(known)[txid].KSuspectFailed?
      ensures known == if won then old(known)[txid := terminal] else old(known)
    {
      won := txid in known && known[txid].KSuspectFailed?;
      if won { known := known[txid := terminal]; }
    }

    /** Queues the children that spent removed change. */
    method Cascade(children: seq<TxId>) returns (n: nat)
      modifies this`known
      ensures known == CascadeChildren(old(known), ChildSet(children))
      ensures n == 0 ==> known == old(known)
    {
      n := 0;
      var before := known;
      assert known == CascadeChildren(before, ChildSet(children[..0]));
      for i := 0 to |children|
        invariant known == CascadeChildren(before, ChildSet(children[..i]))
        invariant n == 0 ==> known == before
      {
        assert children[..i + 1] == children[..i] + [children[i]];
        var t := children[i];
        if t in known && Cascades(known[t]) {
          known := known[t := KSuspectFailed];
          n := n + 1;
        }
        assert known == CascadeChildren(before, ChildSet(children[..i + 1]));
      }
      assert children[..|children|] == children;
    }

    /** Executes one outbox row, or the same operation directly: the inventory write, and for removed change the cascade. */
    method ExecuteOp(o: ReleaseOp) returns (cascaded: nat)
      requires !o.OpCascade?
      modifies this`rows, this`known
      ensures Now() == ExecAll(old(Now()), Writes(o))
      ensures rows == Exec(old(Now()), o).rows
    {
      WritesAre(Now(), o);
      cascaded := 0;
      match o {
        case OpUnspend(t, ops) =>
          rows := Unfreeze(Unspend(rows, t, ops), ops);
        case OpRelease(r, ops) =>
          if r != "" { rows := ReleaseOutpoints(rows, r, ops); }
        case OpRemovePhantom(ops) =>
          rows := Remove(rows, ops);
        case OpRemoveMinted(ops) =>
          var report := SpendersOf(ops);
          RemovalKeepsSpenders(rows, ops);
          rows := RemoveByMintTx(rows, ops);
          cascaded := Cascade(report);
      }
    }

    /** The report of a removal: the spenders of the outputs it had to keep. */
    method SpendersOf(ops: seq<Outpoint>) returns (children: seq<TxId>)
      ensures ChildSet(children) == AlreadySpentBy(rows, ops)
    {
      children := [];
      for i := 0 to |ops|
        invariant ChildSet(children) == AlreadySpentBy(rows, ops[..i])
      {
        assert ops[..i + 1] == ops[..i] + [ops[i]];
        ghost var upto := AlreadySpentBy(rows, ops[..i]);
        if ops[i] in rows && rows[ops[i]].spentBy.Some? {
          children := children + [rows[ops[i]].spentBy.value];
          assert AlreadySpentBy(rows, ops[..i + 1]) == upto + {rows[ops[i]].spentBy.value};
        } else {
          assert AlreadySpentBy(rows, ops[..i + 1]) == upto;
        }
      }
      assert ops[..|ops|] == ops;
    }

    /** Shared database: gate and every operation in one transaction. */
    method ReleaseDirect(plan: Plan, terminal: KnownStatus) returns (released: bool, cascaded: nat)
      requires Separate(plan)
      modifies this`rows, this`known
      ensures released <==> plan.txid in old(known) && old(known)[plan.txid].KSuspectFailed?
      ensures !released ==> Now() == old(Now())
      ensures released ==> Now() == Final(plan, Stores(old(rows), old(known)[plan.txid := terminal]))
    {
      released := Gate(plan.txid, terminal);
      cascaded := 0;
      if !released { return; }
      ghost var s := Now();
      ghost var run := DirectRun(plan, |plan.refs|);
      assert ExecAll(s, []) == s;
      var _ := ExecuteOp(OpUnspend(plan.txid, plan.funding));
      ReleaseEach(plan, s);
      ExecConcat(s, run, Writes(OpRemovePhantom(plan.phantom)));
      var _ := ExecuteOp(OpRemovePhantom(plan.phantom));
      run := run + Writes(OpRemovePhantom(plan.phantom));
      ExecConcat(s, run, Writes(OpRemoveMinted(plan.change)));
      cascaded := ExecuteOp(OpRemoveMinted(plan.change));
      run := run + Writes(OpRemoveMinted(plan.change));
      DirectRunIsWhole(plan);
      ReplayIsFinal(plan, s, run);
    }

    /** Lifts the reservation of every reference of the dead transaction. */
    method ReleaseEach(plan: Plan, ghost s: Stores)
      requires Now() == ExecAll(s, DirectRun(plan, 0))
      modifies this`rows, this`known
      ensures Now() == ExecAll(s, DirectRun(plan, |plan.refs|))
    {
      for i := 0 to |plan.refs|
        invariant Now() == ExecAll(s, DirectRun(plan, i))
      {
        var o := OpRelease(plan.refs[i], plan.funding);
        ExecConcat(s, DirectRun(plan, i), [o]);
        assert DirectRun(plan, i + 1) == DirectRun(plan, i) + [o];
        var _ := ExecuteOp(o);
      }
    }

    /** Records an operation to replay; a key that is taken keeps its row. */
    method Enqueue(key: Key, o: ReleaseOp)
      modifies this`outbox
      ensures key in outbox && forall k :: k in old(outbox) ==> k in outbox && outbox[k] == old(outbox)[k]
      ensures outbox.Keys == old(outbox).Keys + {key}
      ensures outbox[key].op == o <==> (key in old(outbox) ==> old(outbox)[key].op == o)
    {
      if key !in outbox { outbox := outbox[key := Owing(o, 0)]; }
    }

    /** Records every operation of a plan. With no older row of its transaction, each has a row of its own. */
    method EnqueueAll(plan: Plan)
      modifies this`outbox
      ensures forall k :: k in old(outbox) ==> k in outbox && outbox[k] == old(outbox)[k]
      ensures (forall k :: k in old(outbox) ==> k.0 != plan.txid) ==> AllQueued(outbox, plan)
    {
      ghost var alone := forall k :: k in old(outbox) ==> k.0 != plan.txid;
      var ops := OutboxOps(plan);
      for i := 0 to |ops|
        invariant forall k :: k in old(outbox) ==> k in outbox && outbox[k] == old(outbox)[k]
        invariant forall k :: k in outbox ==> k in old(outbox) || exists j :: 0 <= j < i && k == KeyOf(plan, j)
        invariant alone ==> forall j :: 0 <= j < i ==> KeyOf(plan, j) in outbox && outbox[KeyOf(plan, j)].op == ops[j]
      {
        forall j | 0 <= j < i ensures KeyOf(plan, j) != KeyOf(plan, i) { KeysAreDistinct(plan, j, i); }
        Enqueue(KeyOf(plan, i), ops[i]);
      }
    }

    /**
     Split stores: gate and durable intent in one commit, then one inline attempt at
     each operation, whose own commit may fail. With no older row of this transaction
     in the outbox, every operation is done or still owed.
     */
    method ReleaseViaOutbox(plan: Plan, terminal: KnownStatus, fails: set<Key>, commits: bool) returns (released: bool)
      modifies this`rows, this`known, this`outbox, this`ran
      ensures released <==> plan.txid in old(known) && old(known)[plan.txid].KSuspectFailed?
      ensures !released ==> Now() == old(Now()) && outbox == old(outbox)
      ensures released ==> Now() == ExecAll(Stores(old(rows), old(known)[plan.txid := terminal]), ran)
      ensures released && (forall k :: k in old(outbox) ==> k.0 != plan.txid)
              ==> Replaying(plan, Stores(old(rows), old(known)[plan.txid := terminal]))
      ensures released ==> forall k :: k in old(outbox) && k.0 != plan.txid ==> k in outbox && outbox[k] == old(outbox)[k]
    {
      released := Gate(plan.txid, terminal);
      if !released { return; }
      ghost var s0 := Now();
      EnqueueAll(plan);
      ran := [];
      ghost var queued := outbox;
      RunRows(PlanRows(plan), fails, commits, s0);
      if forall k :: k in old(outbox) ==> k.0 != plan.txid {
        PlanAccounted(plan, queued, outbox, ran);
      }
    }

    /** The drain worker: the pending rows of the outbox in some order, in one commit that may fail. */
    method DrainOutbox(ghost plan: Plan, ghost s0: Stores, order: seq<Key>, fails: set<Key>, commits: bool)
      requires Replaying(plan, s0)
      modifies this`rows, this`known, this`outbox, this`ran
      ensures Replaying(plan, s0)
      ensures !commits ==> known == old(known) && outbox == old(outbox)
      ensures commits ==> forall k :: k in order && k !in fails && Runnable(old(outbox), k) ==> k !in outbox
    {
      var batch: seq<(Key, ReleaseOp)> := [];
      for i := 0 to |order|
        invariant forall b :: b in batch ==> b.0 in outbox && outbox[b.0].op == b.1 && !b.1.OpCascade?
        invariant forall j :: 0 <= j < i && Runnable(outbox, order[j]) ==> (order[j], outbox[order[j]].op) in batch
      {
        var k := order[i];
        if Runnable(outbox, k) {
          batch := batch + [(k, outbox[k].op)];
        }
      }
      ghost var before := outbox;
      RunRows(batch, fails, commits, s0);
      forall o | o in OutboxOps(plan) ensures Done(ran, o) || Owed(outbox, plan.txid, o) {
        if !Done(ran, o) {
          assert !Done(old(ran), o);
          var k :| k in before && k.0 == plan.txid && before[k].op == o;
          assert k in outbox && outbox[k].op == o;
        }
      }
    }

    /**
     Runs outbox rows: one that succeeds goes, one that fails stays with its counter
     bumped. If the commit fails, the metadata and the outbox are as before and the
     inventory writes stay.
     */
    method RunRows(batch: seq<(Key, ReleaseOp)>, fails: set<Key>, commits: bool, ghost s0: Stores)
      requires Now() == ExecAll(s0, ran) && forall b :: b in batch ==> !b.1.OpCascade?
      modifies this`rows, this`known, this`outbox, this`ran
      ensures Now() == ExecAll(s0, ran) && forall w :: w in old(ran) ==> w in ran
      ensures !commits ==> known == old(known) && outbox == old(outbox)
      ensures commits ==> forall b :: b in batch && b.0 !in fails ==> b.0 !in outbox
      ensures RowsAccounted(old(outbox), outbox, batch, ran)
    {
      ghost var torn := ran;
      var knownBefore, outboxBefore := known, outbox;
      for i := 0 to |batch|
        invariant Now() == ExecAll(s0, ran) && forall w :: w in old(ran) ==> w in ran
        invariant Stores(rows, knownBefore) == ExecAll(s0, torn) && forall w :: w in old(ran) ==> w in torn
        invariant forall j :: 0 <= j < i && batch[j].0 !in fails ==> batch[j].0 !in outbox
        invariant RowsAccounted(outboxBefore, outbox, batch, ran)
      {
        var (key, o) := batch[i];
        assert batch[i] in batch;
        if key in fails {
          if key in outbox { outbox := outbox[key := outbox[key].(attempts := outbox[key].attempts + 1)]; }
        } else {
          ExecConcat(s0, ran, Writes(o));
          ExecConcat(s0, torn, [o]);
          TornRows(Now(), knownBefore, o);
          RowDone(outboxBefore, outbox, batch, ran, i);
          ran, torn := ran + Writes(o), torn + [o];
          var _ := ExecuteOp(o);
          outbox := outbox - {key};
        }
      }
      if !commits {
        known, outbox := knownBefore, outboxBefore;
        ran := torn;
      }
    }
  }

  /** Every row is still there with its operation, or was run; rows outside the batch are untouched. */
  ghost predicate RowsAccounted(before: map<Key, Owing>, after: map<Key, Owing>, batch: seq<(Key, ReleaseOp)>, ran: seq<ReleaseOp>) {
    && (forall k :: k in after ==> k in before && after[k].op == before[k].op)
    && (forall k :: k in before && k !in after ==> exists b :: b in batch && b.0 == k && Done(ran, b.1))
    && (forall k :: k in before && (forall b :: b in batch ==> b.0 != k) ==> k in after && after[k] == before[k])
  }

  lemma RowDone(before: map<Key, Owing>, after: map<Key, Owing>, batch: seq<(Key, ReleaseOp)>, ran: seq<ReleaseOp>, i: nat)
    requires i < |batch| && RowsAccounted(before, after, batch, ran)
    ensures RowsAccounted(before, after - {batch[i].0}, batch, ran + Writes(batch[i].1))
  {
    var more := ran + Writes(batch[i].1);
    assert batch[i] in batch && Done(more, batch[i].1);
    forall k | k in before && k !in after - {batch[i].0} ensures exists b :: b in batch && b.0 == k && Done(more, b.1) {
      if k in after {
        assert batch[i].0 == k;
      } else {
        var b :| b in batch && b.0 == k && Done(ran, b.1);
        assert Done(more, b.1);
      }
    }
  }

  lemma PlanAccounted(plan: Plan, queued: map<Key, Owing>, outbox: map<Key, Owing>, ran: seq<ReleaseOp>)
    requires AllQueued(queued, plan) && RowsAccounted(queued, outbox, PlanRows(plan), ran)
    ensures forall o :: o in OutboxOps(plan) ==> Done(ran, o) || Owed(outbox, plan.txid, o)
  {
    var ops, batch := OutboxOps(plan), PlanRows(plan);
    forall o | o in ops ensures Done(ran, o) || Owed(outbox, plan.txid, o) {
      var i :| 0 <= i < |ops| && ops[i] == o;
      if KeyOf(plan, i) in outbox {
        assert outbox[KeyOf(plan, i)].op == o;
      } else {
        var b :| b in batch && b.0 == KeyOf(plan, i) && Done(ran, b.1);
        var j :| 0 <= j < |ops| && b == batch[j];
        if j < i { KeysAreDistinct(plan, j, i); }
        if i < j { KeysAreDistinct(plan, i, j); }
      }
    }
  }

  /** The writes of the direct release up to its first `n` references. */
  ghost function DirectRun(plan: Plan, n: nat): seq<ReleaseOp>
    requires n <= |plan.refs|
  {
    [OpUnspend(plan.txid, plan.funding)] + seq(n, i requires 0 <= i < n => OpRelease(plan.refs[i], plan.funding))
  }

  lemma DirectRunIsWhole(plan: Plan)
    ensures var run := DirectRun(plan, |plan.refs|) + Writes(OpRemovePhantom(plan.phantom)) + Writes(OpRemoveMinted(plan.change));
            && (forall w :: w in run ==> OfPlan(plan, w))
            && forall o :: o in OutboxOps(plan) ==> Done(run, o)
  {
    var run := DirectRun(plan, |plan.refs|) + Writes(OpRemovePhantom(plan.phantom)) + Writes(OpRemoveMinted(plan.change));
    forall o | o in OutboxOps(plan) ensures Done(run, o) {
      OutboxOpsOfPlan(plan, o);
      if o.OpRelease? {
        var i :| 0 <= i < |plan.refs| && plan.refs[i] == o.reservation;
        assert run[1 + i] == o;
      } else if o.OpUnspend? {
        assert run[0] == o;
      }
    }
  }

  lemma WritesAre(s: Stores, o: ReleaseOp)
    ensures ExecAll(s, Writes(o)) == if o.OpRemoveMinted? then Exec(Exec(s, o), OpCascade(o.ops)) else Exec(s, o)
  {
    assert [o][1..] == [];
    if o.OpRemoveMinted? {
      assert Writes(o)[1..] == [OpCascade(o.ops)];
      assert [OpCascade(o.ops)][1..] == [];
      assert ExecAll(Exec(s, o), [OpCascade(o.ops)]) == ExecAll(Exec(Exec(s, o), OpCascade(o.ops)), []);
    }
  }

  /** A removal keeps every spent output, so its report can be made before or after it. */
  lemma RemovalKeepsSpenders(rows: Rows, ops: seq<Outpoint>)
    ensures AlreadySpentBy(RemoveByMintTx(rows, ops), ops) == AlreadySpentBy(rows, ops)
  {
    var rows' := RemoveByMintTx(rows, ops);
    forall t | t in AlreadySpentBy(rows, ops) ensures t in AlreadySpentBy(rows', ops) {
      var op :| op in ops && op in rows && rows[op].spentBy.Some? && rows[op].spentBy.value == t;
      assert op in rows' && rows'[op] == rows[op];
    }
  }

  /** The inventory write of a row does not depend on the metadata. */
  lemma TornRows(s: Stores, known: map<TxId, KnownStatus>, o: ReleaseOp)
    requires !o.OpCascade?
    ensures ExecAll(Stores(s.rows, known), [o]) == Stores(Exec(s, o).rows, known)
  {
    assert [o][1..] == [];
  }

  /**
   With nothing of the plan owed any more and nobody else's writes in between, the
   split-store release equals the direct one.
   */
  lemma DrainedIsDirect(store: Store, plan: Plan, s0: Stores)
    requires Separate(plan) && store.Replaying(plan, s0)
    requires forall o :: o in OutboxOps(plan) ==> !Owed(store.outbox, plan.txid, o)
    requires forall w :: w in store.ran ==> OfPlan(plan, w)
    ensures store.Now() == Final(plan, s0)
  {
    ReplayIsFinal(plan, s0, store.ran);
  }
}
