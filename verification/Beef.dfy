/**
 The ancestry walk that assembles a BEEF: a depth-bounded recursion over a shared,
 growing set of transactions, stopping at proven ones and at transactions the caller
 says it holds.
 */
module Beef {
  import opened Domain

  datatype Proof = Proven | NotProven | ProofError

  /** What the two sources answer for a txid. */
  datatype Lookup = Missing | Tx(inputs: seq<Option<TxId>>, proof: Proof)

  type Graph = map<TxId, Lookup>

  datatype Entry = Full(inputs: seq<Option<TxId>>, proven: bool) | TxidOnly

  type Entries = map<TxId, Entry>

  predicate Unproven(e: Entry) {
    e.Full? && !e.proven
  }

  /** The sources of an unproven transaction are all in the set. */
  predicate SourcesIn(entries: Entries, e: Entry) {
    Unproven(e) ==> forall i :: 0 <= i < |e.inputs| && e.inputs[i].Some? ==> e.inputs[i].value in entries
  }

  /** `b` is an ancestor of `a` at most `n` unproven transactions away. */
  ghost predicate Ancestor(g: Graph, a: TxId, b: TxId, n: nat)
    decreases n
  {
    a == b || (n > 0 && a in g && g[a].Tx? && g[a].proof.NotProven?
               && exists i :: 0 <= i < |g[a].inputs| && g[a].inputs[i].Some? && Ancestor(g, g[a].inputs[i].value, b, n - 1))
  }

  /** Everything the walk can need is available, and no chain of unproven transactions is longer than `n`. */
  ghost predicate Available(g: Graph, known: set<TxId>, t: TxId, n: nat)
    decreases n
  {
    && t in g && g[t].Tx? && !g[t].proof.ProofError?
    && (g[t].proof.Proven? || forall i :: 0 <= i < |g[t].inputs| && g[t].inputs[i].Some? ==>
          g[t].inputs[i].value in known || (n > 0 && Available(g, known, g[t].inputs[i].value, n - 1)))
  }

  /** Only growth: a full transaction stays as it is. */
  ghost predicate Extends(before: Entries, after: Entries) {
    forall t :: t in before ==> t in after && (before[t].Full? ==> after[t] == before[t])
  }

  /** An entry is what its source said, or a stub the caller asked for. */
  ghost predicate Honest(g: Graph, known: set<TxId>, t: TxId, e: Entry) {
    match e
    case TxidOnly => t in known
    case Full(inputs, proven) => t in g && g[t].Tx? && g[t].inputs == inputs && !g[t].proof.ProofError? && proven == g[t].proof.Proven?
  }

  ghost predicate AllHonest(g: Graph, known: set<TxId>, entries: Entries) {
    forall t :: t in entries ==> Honest(g, known, t, entries[t])
  }

  /** What a walk from `txid` may add: complete transactions among its ancestors, and stubs. */
  ghost predicate Added(g: Graph, before: Entries, after: Entries, txid: TxId, n: nat) {
    forall t :: t in after && after[t].Full? && !(t in before && before[t].Full?) ==>
      SourcesIn(after, after[t]) && Ancestor(g, txid, t, n)
  }

  lemma SourcesStay(before: Entries, after: Entries, e: Entry)
    requires Extends(before, after) && SourcesIn(before, e)
    ensures SourcesIn(after, e)
  {
  }

  /** One more step up keeps an ancestor an ancestor. */
  lemma AncestorStep(g: Graph, a: TxId, i: nat, t: TxId, n: nat)
    requires a in g && g[a].Tx? && g[a].proof.NotProven? && i < |g[a].inputs| && g[a].inputs[i].Some?
    requires Ancestor(g, g[a].inputs[i].value, t, n)
    ensures Ancestor(g, a, t, n + 1)
  {
  }

  class Bundle {
    var entries: Entries
    const maxDepth: nat

    constructor (maxDepth: nat)
      ensures entries == map[] && this.maxDepth == maxDepth
    {
      entries := map[];
      this.maxDepth := maxDepth;
    }

    /** Adds `txid` and the ancestry it needs, or fails. */
    method Walk(g: Graph, txid: TxId, known: set<TxId>, depth: nat) returns (ok: bool)
      requires depth <= maxDepth + 1 && AllHonest(g, known, entries)
      modifies this
      ensures Extends(old(entries), entries) && AllHonest(g, known, entries)
      ensures ok ==> depth <= maxDepth && txid in entries && entries[txid].Full?
      ensures ok ==> Added(g, old(entries), entries, txid, maxDepth - depth)
      ensures depth <= maxDepth && Available(g, known, txid, maxDepth - depth) ==> ok
      decreases maxDepth + 1 - depth
    {
      if depth > maxDepth { return false; }
      if txid in entries && entries[txid].Full? { return true; }
      if txid !in g || g[txid].Missing? || g[txid].proof.ProofError? { return false; }
      var tx := g[txid];
      entries := entries[txid := Full(tx.inputs, tx.proof.Proven?)];
      if tx.proof.Proven? { return true; }
      ok := WalkInputs(g, txid, tx.inputs, known, depth, old(entries));
    }

    /** The inputs of an unproven transaction that was just added. */
    method WalkInputs(g: Graph, txid: TxId, inputs: seq<Option<TxId>>, known: set<TxId>, depth: nat, ghost before: Entries)
      returns (ok: bool)
      requires depth <= maxDepth && AllHonest(g, known, entries)
      requires txid in g && g[txid] == Tx(inputs, NotProven)
      requires txid in entries && entries[txid] == Full(inputs, false)
      requires entries == before[txid := Full(inputs, false)] && !(txid in before && before[txid].Full?)
      modifies this
      ensures Extends(old(entries), entries) && AllHonest(g, known, entries)
      ensures ok ==> Added(g, before, entries, txid, maxDepth - depth)
      ensures Available(g, known, txid, maxDepth - depth) ==> ok
      decreases maxDepth + 1 - depth, 0
    {
      for i := 0 to |inputs|
        invariant Extends(old(entries), entries) && AllHonest(g, known, entries)
        invariant forall k :: 0 <= k < i && inputs[k].Some? ==> inputs[k].value in entries
        invariant AddedBelow(g, before, entries, txid, maxDepth - depth)
      {
        if inputs[i].None? { continue; }
        var source := inputs[i].value;
        if source in entries { continue; }
        ghost var mid := entries;
        if source in known {
          entries := entries[source := TxidOnly];
          StubKeepsAdded(g, before, mid, source, txid, maxDepth - depth);
          continue;
        }
        ok := Walk(g, source, known, depth + 1);
        if !ok { return false; }
        WalkKeepsAdded(g, before, mid, entries, txid, i, maxDepth - depth);
      }
      ok := true;
    }
  }

  /** As Added, leaving aside the transaction whose inputs are being walked. */
  ghost predicate AddedBelow(g: Graph, before: Entries, after: Entries, txid: TxId, n: nat) {
    forall t :: t in after && after[t].Full? && !(t in before && before[t].Full?) && t != txid ==>
      SourcesIn(after, after[t]) && Ancestor(g, txid, t, n)
  }

  lemma StubKeepsAdded(g: Graph, before: Entries, mid: Entries, stub: TxId, txid: TxId, n: nat)
    requires AddedBelow(g, before, mid, txid, n) && stub !in mid
    ensures AddedBelow(g, before, mid[stub := TxidOnly], txid, n)
  {
  }

  lemma WalkKeepsAdded(g: Graph, before: Entries, mid: Entries, after: Entries, txid: TxId, i: nat, n: nat)
    requires AddedBelow(g, before, mid, txid, n) && Extends(mid, after) && n > 0
    requires txid in g && g[txid].Tx? && g[txid].proof.NotProven? && i < |g[txid].inputs| && g[txid].inputs[i].Some?
    requires Added(g, mid, after, g[txid].inputs[i].value, n - 1)
    ensures AddedBelow(g, before, after, txid, n)
  {
    forall t | t in after && after[t].Full? && !(t in before && before[t].Full?) && t != txid
      ensures SourcesIn(after, after[t]) && Ancestor(g, txid, t, n)
    {
      if t in mid && mid[t].Full? {
        SourcesStay(mid, after, mid[t]);
      } else {
        AncestorStep(g, txid, i, t, n - 1);
      }
    }
  }

  /**
   The assembled BEEF: every unproven transaction in it has all its sources in it,
   every full transaction is an ancestor of the root through unproven ones within the
   depth bound, and only txids the caller holds are stubs. It is assembled whenever
   everything it can need is available within the bound.
   */
  method GetBEEF(g: Graph, txid: TxId, knownTxids: seq<TxId>, maxDepth: nat) returns (r: Option<Entries>)
    ensures Available(g, (set k | k in knownTxids), txid, maxDepth) ==> r.Some?
    ensures r.Some? ==> txid in r.value && r.value[txid].Full?
    ensures r.Some? ==> forall t :: t in r.value && r.value[t].Full? ==>
                          SourcesIn(r.value, r.value[t]) && Ancestor(g, txid, t, maxDepth)
    ensures r.Some? ==> forall t :: t in r.value ==> Honest(g, (set k | k in knownTxids), t, r.value[t])
  {
    var b := new Bundle(maxDepth);
    var known := set k | k in knownTxids;
    var ok := b.Walk(g, txid, known, 0);
    r := if ok then Some(b.entries) else None;
  }
}
