/**
 Sharded apply: a batch is split over workers by txid, and the workers run in any
 interleaving. For any update rule that looks at one transaction at a time, the
 outcome is that of applying the batch in arrival order.
 */
module Sharding {
  import opened Domain
  import opened Wire

  datatype Record = Record(txid: TxId, status: Status)

  const APPLY_BATCH_MAX: nat := 512

  /** A per-transaction update rule over states of any type. */
  type Rule<!V> = (Option<V>, Record) -> Option<V>

  function Put<V>(st: map<TxId, V>, t: TxId, v: Option<V>): map<TxId, V> {
    if v.Some? then st[t := v.value] else map u | u in st && u != t :: st[u]
  }

  function Get<V>(st: map<TxId, V>, t: TxId): Option<V> {
    if t in st then Some(st[t]) else None
  }

  function ApplyAll<V>(rule: Rule<V>, st: map<TxId, V>, recs: seq<Record>): map<TxId, V>
    decreases |recs|
  {
    if recs == [] then st
    else ApplyAll(rule, Put(st, recs[0].txid, rule(Get(st, recs[0].txid), recs[0])), recs[1..])
  }

  // ---- sub-batches ------------------------------------------------------------

  function OfTx(recs: seq<Record>, t: TxId): seq<Record>
    decreases |recs|
  {
    if recs == [] then []
    else (if recs[0].txid == t then [recs[0]] else []) + OfTx(recs[1..], t)
  }

  /** The records a routing of txids sends to shard `i`. */
  function OfShard(recs: seq<Record>, route: TxId -> nat, i: nat): seq<Record>
    decreases |recs|
  {
    if recs == [] then []
    else (if route(recs[0].txid) == i then [recs[0]] else []) + OfShard(recs[1..], route, i)
  }

  function Fold<V>(rule: Rule<V>, v: Option<V>, recs: seq<Record>): Option<V>
    decreases |recs|
  {
    if recs == [] then v else Fold(rule, rule(v, recs[0]), recs[1..])
  }

  /** What the batch does to a transaction depends only on that transaction's records. */
  lemma {:induction false} ApplyIsPerTx<V>(rule: Rule<V>, st: map<TxId, V>, recs: seq<Record>, t: TxId)
    ensures Get(ApplyAll(rule, st, recs), t) == Fold(rule, Get(st, t), OfTx(recs, t))
    decreases |recs|
  {
    if recs != [] {
      var st1 := Put(st, recs[0].txid, rule(Get(st, recs[0].txid), recs[0]));
      ApplyIsPerTx(rule, st1, recs[1..], t);
      if recs[0].txid == t {
        assert OfTx(recs, t)[1..] == OfTx(recs[1..], t);
      } else {
        assert OfTx(recs, t) == OfTx(recs[1..], t);
        assert Get(st1, t) == Get(st, t);
      }
    }
  }

  /** A transaction's records all lie in its shard, in arrival order. */
  lemma {:induction false} OfTxOfShard(recs: seq<Record>, route: TxId -> nat, t: TxId)
    ensures OfTx(OfShard(recs, route, route(t)), t) == OfTx(recs, t)
    decreases |recs|
  {
    if recs != [] {
      OfTxOfShard(recs[1..], route, t);
      var i := route(t);
      if route(recs[0].txid) == i {
        assert OfShard(recs, route, i)[1..] == OfShard(recs[1..], route, i);
        assert OfShard(recs, route, i)[0] == recs[0];
      } else {
        assert OfShard(recs, route, i) == OfShard(recs[1..], route, i);
        assert recs[0].txid != t;
      }
    }
  }

  /** The order in which the workers' records reached the store: each shard's own order, a failed shard's none. */
  ghost predicate Interleaves(run: seq<Record>, recs: seq<Record>, route: TxId -> nat, failed: set<nat>) {
    forall i :: OfShard(run, route, i) == if i in failed then [] else OfShard(recs, route, i)
  }

  /**
   Sharded apply, for every batch, routing, update rule and interleaving: a
   transaction in a shard that succeeded ends as in arrival order, one in a failed
   shard ends as it began.
   */
  lemma ShardedIsSequential<V>(rule: Rule<V>, st: map<TxId, V>, recs: seq<Record>, route: TxId -> nat,
                               failed: set<nat>, run: seq<Record>, t: TxId)
    requires Interleaves(run, recs, route, failed)
    ensures Get(ApplyAll(rule, st, run), t) ==
            if route(t) in failed then Get(st, t) else Get(ApplyAll(rule, st, recs), t)
  {
    var i := route(t);
    assert OfShard(run, route, i) == if i in failed then [] else OfShard(recs, route, i);
    ApplyIsPerTx(rule, st, run, t);
    ApplyIsPerTx(rule, st, recs, t);
    OfTxOfShard(run, route, t);
    OfTxOfShard(recs, route, t);
  }

  // ---- the split ----------------------------------------------------------------

  /** FNV-1a, 32 bits. */
  function Fnv1a(s: string, h: bv32): bv32
    decreases |s|
  {
    if s == [] then h else Fnv1a(s[1..], (h ^ ((s[0] as int % 256) as bv32)) * 16777619)
  }

  function ShardOf(txid: TxId, width: nat): (i: nat)
    requires width > 0
    ensures i < width
  {
    (Fnv1a(txid, 2166136261) as int) % width
  }

  lemma {:induction false} OfShardSnoc(recs: seq<Record>, r: Record, route: TxId -> nat, i: nat)
    ensures OfShard(recs + [r], route, i) == OfShard(recs, route, i) + if route(r.txid) == i then [r] else []
    decreases |recs|
  {
    if recs == [] {
      assert recs + [r] == [r];
      assert OfShard([r][1..], route, i) == [];
    } else {
      assert (recs + [r])[1..] == recs[1..] + [r];
      OfShardSnoc(recs[1..], r, route, i);
    }
  }

  function Routing(width: nat): TxId -> nat
    requires width > 0
  {
    t => ShardOf(t, width)
  }

  /** The work handed out: the whole batch in one piece when it is small, else one piece per shard. */
  method SplitRecords(recs: seq<Record>, width: nat) returns (shards: seq<seq<Record>>)
    requires width > 0
    ensures recs == [] ==> shards == []
    ensures recs != [] && (|recs| <= APPLY_BATCH_MAX / width || width <= 1) ==> shards == [recs]
    ensures width > 1 && |recs| > APPLY_BATCH_MAX / width ==>
              && |shards| == width
              && forall i :: 0 <= i < width ==> shards[i] == OfShard(recs, Routing(width), i)
  {
    if recs == [] { return []; }
    if |recs| <= APPLY_BATCH_MAX / width || width <= 1 { return [recs]; }
    var route := Routing(width);
    shards := seq(width, _ => []);
    for k := 0 to |recs|
      invariant |shards| == width
      invariant forall i :: 0 <= i < width ==> shards[i] == OfShard(recs[..k], route, i)
    {
      var s := route(recs[k].txid);
      forall i | 0 <= i < width
        ensures OfShard(recs[..k + 1], route, i) == OfShard(recs[..k], route, i) + if s == i then [recs[k]] else []
      {
        assert recs[..k + 1] == recs[..k] + [recs[k]];
        OfShardSnoc(recs[..k], recs[k], route, i);
      }
      shards := shards[s := shards[s] + [recs[k]]];
    }
    assert recs[..|recs|] == recs;
  }

  /** With known statuses, a MINED record in a shard that succeeded ends its transaction MINED or IMMUTABLE. */
  lemma MinedInBatchEndsConfirmed(st: map<TxId, Status>, recs: seq<Record>, route: TxId -> nat,
                                  failed: set<nat>, run: seq<Record>, t: TxId)
    requires Interleaves(run, recs, route, failed) && route(t) !in failed
    requires Record(t, Mined) in recs && forall r :: r in recs ==> !r.status.Other?
    ensures IsConfirmed(Get(ApplyAll((v, r: Record) => Supersede(v, r.status), st, run), t))
  {
    var rule := (v: Option<Status>, r: Record) => Supersede(v, r.status);
    ShardedIsSequential(rule, st, recs, route, failed, run, t);
    ApplyIsPerTx(rule, st, recs, t);
    var mine := OfTx(recs, t);
    OfTxMembers(recs, t);
    FoldIsSupersedeAll(Get(st, t), mine);
    assert StatusesOf(mine)[IndexOf(mine, Record(t, Mined))] == Mined;
    MinedBatchEndsConfirmed(Get(st, t), StatusesOf(mine));
  }

  function StatusesOf(recs: seq<Record>): seq<Status> {
    seq(|recs|, i requires 0 <= i < |recs| => recs[i].status)
  }

  ghost function IndexOf(recs: seq<Record>, r: Record): nat
    requires r in recs
    ensures IndexOf(recs, r) < |recs| && recs[IndexOf(recs, r)] == r
  {
    var i :| 0 <= i < |recs| && recs[i] == r;
    i
  }

  lemma {:induction false} OfTxMembers(recs: seq<Record>, t: TxId)
    ensures forall r :: r in OfTx(recs, t) <==> r in recs && r.txid == t
    decreases |recs|
  {
    if recs != [] {
      OfTxMembers(recs[1..], t);
      assert recs == [recs[0]] + recs[1..];
    }
  }

  lemma {:induction false} FoldIsSupersedeAll(v: Option<Status>, recs: seq<Record>)
    ensures Fold((o, r: Record) => Supersede(o, r.status), v, recs) == SupersedeAll(v, StatusesOf(recs))
    decreases |recs|
  {
    if recs != [] {
      FoldIsSupersedeAll(Supersede(v, recs[0].status), recs[1..]);
      assert StatusesOf(recs)[1..] == StatusesOf(recs[1..]);
    }
  }
}
