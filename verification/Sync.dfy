/**
 Storage-to-storage sync as a round trip of inventory: a chunk carries the source's
 baskets, transactions and outputs with each change coin's live spend state, and a
 fresh target rebuilds from it exactly the source's live change coins.
 */
module Sync {
  import opened Domain
  import opened Inventory

  datatype TxRow = TxRow(id: nat, reference: Ref, updatedAt: int)

  datatype OutputRow = OutputRow(
    txRow: nat, txid: Option<TxId>, vout: nat, satoshis: nat, basket: Option<string>,
    change: bool, spentBy: Option<nat>, updatedAt: int)

  datatype Source = Source(baskets: seq<string>, txs: seq<TxRow>, outputs: seq<OutputRow>, rows: Rows)

  datatype ShippedOutput = ShippedOutput(
    txRow: nat, txid: Option<TxId>, vout: nat, satoshis: nat, basketId: Option<nat>,
    change: bool, spentBy: Option<nat>, spendable: bool)

  datatype Chunk = Chunk(baskets: seq<(nat, string)>, txs: seq<TxRow>, outputs: seq<ShippedOutput>)

  // ---- reading a chunk out of the source ------------------------------------------

  predicate SinceMatch(since: Option<int>, updatedAt: int) {
    since.None? || updatedAt >= since.value
  }

  /** Spendable at the source: in the inventory, unreserved, unspent and not frozen. */
  predicate Spendable(rows: Rows, txid: Option<TxId>, vout: nat) {
    txid.Some? && Outpoint(txid.value, vout) in rows && Claimable(rows[Outpoint(txid.value, vout)])
  }

  /** The synthetic id of a basket within a chunk. */
  function BasketId(names: seq<string>, name: string): (id: Option<nat>)
    ensures id.Some? <==> name in names
    ensures id.Some? ==> 1 <= id.value <= |names| && names[id.value - 1] == name
    decreases |names|
  {
    if names == [] then None
    else if names[|names| - 1] == name then Some(|names|)
    else BasketId(names[..|names| - 1], name)
  }

  function Shipped(src: Source, o: OutputRow): ShippedOutput {
    ShippedOutput(o.txRow, o.txid, o.vout, o.satoshis,
                  if o.basket.Some? then BasketId(src.baskets, o.basket.value) else None,
                  o.change, o.spentBy, o.change && Spendable(src.rows, o.txid, o.vout))
  }

  function ShippedAll(src: Source, outputs: seq<OutputRow>, since: Option<int>): seq<ShippedOutput>
    decreases |outputs|
  {
    if outputs == [] then []
    else
      var last := outputs[|outputs| - 1];
      ShippedAll(src, outputs[..|outputs| - 1], since) + if SinceMatch(since, last.updatedAt) then [Shipped(src, last)] else []
  }

  function RecentTxs(txs: seq<TxRow>, since: Option<int>): seq<TxRow>
    decreases |txs|
  {
    if txs == [] then []
    else
      var last := txs[|txs| - 1];
      RecentTxs(txs[..|txs| - 1], since) + if SinceMatch(since, last.updatedAt) then [last] else []
  }

  function Numbered(names: seq<string>): seq<(nat, string)> {
    seq(|names|, i requires 0 <= i < |names| => (i + 1, names[i]))
  }

  function ChunkOf(src: Source, since: Option<int>): Chunk {
    Chunk(Numbered(src.baskets), RecentTxs(src.txs, since), ShippedAll(src, src.outputs, since))
  }

  method IndexBaskets(names: seq<string>) returns (baskets: seq<(nat, string)>, nameToId: map<string, nat>)
    ensures baskets == Numbered(names)
    ensures forall name :: name in nameToId <==> name in names
    ensures forall name :: name in nameToId ==> BasketId(names, name) == Some(nameToId[name])
  {
    baskets, nameToId := [], map[];
    for i := 0 to |names|
      invariant baskets == Numbered(names[..i])
      invariant forall name :: name in nameToId <==> name in names[..i]
      invariant forall name :: name in nameToId ==> BasketId(names[..i], name) == Some(nameToId[name])
    {
      assert names[..i + 1] == names[..i] + [names[i]];
      assert names[..i + 1][..i] == names[..i];
      baskets := baskets + [(i + 1, names[i])];
      nameToId := nameToId[names[i] := i + 1];
    }
    assert names[..|names|] == names;
  }

  method TakeTxs(rows: seq<TxRow>, since: Option<int>) returns (txs: seq<TxRow>)
    ensures txs == RecentTxs(rows, since)
  {
    txs := [];
    for i := 0 to |rows|
      invariant txs == RecentTxs(rows[..i], since)
    {
      assert rows[..i + 1][..i] == rows[..i];
      if !SinceMatch(since, rows[i].updatedAt) { continue; }
      txs := txs + [rows[i]];
    }
    assert rows[..|rows|] == rows;
  }

  method ShipOutputs(src: Source, nameToId: map<string, nat>, since: Option<int>) returns (outputs: seq<ShippedOutput>)
    requires forall name :: name in nameToId <==> name in src.baskets
    requires forall name :: name in nameToId ==> BasketId(src.baskets, name) == Some(nameToId[name])
    ensures outputs == ShippedAll(src, src.outputs, since)
  {
    outputs := [];
    for i := 0 to |src.outputs|
      invariant outputs == ShippedAll(src, src.outputs[..i], since)
    {
      assert src.outputs[..i + 1][..i] == src.outputs[..i];
      var o := src.outputs[i];
      if !SinceMatch(since, o.updatedAt) { continue; }
      var id: Option<nat> := None;
      if o.basket.Some? && o.basket.value in nameToId { id := Some(nameToId[o.basket.value]); }
      var shipped := ShippedOutput(o.txRow, o.txid, o.vout, o.satoshis, id, o.change, o.spentBy,
                                   o.change && Spendable(src.rows, o.txid, o.vout));
      assert shipped == Shipped(src, o);
      outputs := outputs + [shipped];
    }
    assert src.outputs[..|src.outputs|] == src.outputs;
  }

  method GetSyncChunk(src: Source, since: Option<int>) returns (chunk: Chunk)
    ensures chunk == ChunkOf(src, since)
  {
    var baskets, nameToId := IndexBaskets(src.baskets);
    var txs := TakeTxs(src.txs, since);
    var outputs := ShipOutputs(src, nameToId, since);
    chunk := Chunk(baskets, txs, outputs);
  }

  // ---- applying a chunk to a target --------------------------------------------------

  datatype StoredOutput = StoredOutput(txRow: nat, vout: nat, satoshis: nat, basket: string, spentBy: Option<nat>)

  /** The target's metadata, which a failed attempt rolls back. */
  datatype Meta = Meta(refs: map<Ref, nat>, nextId: nat, outputs: seq<StoredOutput>)

  datatype Report = Report(inserts: nat, updates: nat, minted: nat, candidates: nat, skipped: nat)

  /** One attempt in progress. */
  datatype Attempt = Attempt(meta: Meta, rows: Rows, oldToNew: map<nat, nat>, report: Report)

  /** An attempt that went through, or the coin it clashed with and the inventory it leaves behind. */
  datatype Outcome = Applied(a: Attempt) | Conflict(op: Outpoint, left: Rows)

  function Begin(meta: Meta, rows: Rows): Attempt {
    Attempt(meta, rows, map[], Report(0, 0, 0, 0, 0))
  }

  function WithTx(a: Attempt, t: TxRow): Attempt {
    if t.reference in a.meta.refs then a.(report := a.report.(updates := a.report.updates + 1))
    else a.(meta := a.meta.(refs := a.meta.refs[t.reference := a.meta.nextId], nextId := a.meta.nextId + 1),
            oldToNew := a.oldToNew[t.id := a.meta.nextId],
            report := a.report.(inserts := a.report.inserts + 1))
  }

  function WithTxs(a: Attempt, txs: seq<TxRow>): Attempt
    decreases |txs|
  {
    if txs == [] then a else WithTxs(WithTx(a, txs[0]), txs[1..])
  }

  function IdToName(baskets: seq<(nat, string)>): map<nat, string>
    decreases |baskets|
  {
    if baskets == [] then map[]
    else IdToName(baskets[..|baskets| - 1])[baskets[|baskets| - 1].0 := baskets[|baskets| - 1].1]
  }

  function BasketFor(names: map<nat, string>, id: Option<nat>, fallback: string): string {
    if id.Some? && id.value in names && names[id.value] != "" then names[id.value] else fallback
  }

  /** The coin a live change output is rebuilt as. */
  function Rebuilt(user: int, basket: string, satoshis: nat): Coin {
    Coin(user, basket, satoshis, TierMined, "", false, None, false)
  }

  predicate Live(o: ShippedOutput) {
    o.change && o.txid.Some? && o.spendable && o.spentBy.None?
  }

  predicate SameIdentity(a: Coin, b: Coin) {
    a.user == b.user && a.basket == b.basket && a.satoshis == b.satoshis
  }

  /** What the target is, apart from its stores. */
  datatype Site = Site(user: int, fallback: string, names: map<nat, string>)

  function CoinOf(site: Site, o: ShippedOutput): Coin {
    Rebuilt(site.user, BasketFor(site.names, o.basketId, site.fallback), o.satoshis)
  }

  function PlaceOf(o: ShippedOutput): Outpoint
    requires o.txid.Some?
  {
    Outpoint(o.txid.value, o.vout)
  }

  function Counted(a: Attempt, o: ShippedOutput): Report {
    if o.change && o.txid.Some? then a.report.(candidates := a.report.candidates + 1) else a.report
  }

  function WithOutput(site: Site, a: Attempt, o: ShippedOutput): Outcome {
    var r := Counted(a, o);
    if o.txRow !in a.oldToNew then Applied(a.(report := r.(skipped := r.skipped + 1)))
    else
      var spentBy := if o.spentBy.Some? && o.spentBy.value in a.oldToNew then Some(a.oldToNew[o.spentBy.value]) else None;
      var stored := StoredOutput(a.oldToNew[o.txRow], o.vout, o.satoshis, BasketFor(site.names, o.basketId, site.fallback), spentBy);
      var meta := a.meta.(outputs := a.meta.outputs + [stored]);
      if !Live(o) then Applied(a.(meta := meta, report := r.(inserts := r.inserts + 1)))
      else if PlaceOf(o) in a.rows && !SameIdentity(a.rows[PlaceOf(o)], CoinOf(site, o)) then Conflict(PlaceOf(o), a.rows)
      else Applied(Attempt(meta,
                           if PlaceOf(o) in a.rows then a.rows else a.rows[PlaceOf(o) := CoinOf(site, o)],
                           a.oldToNew, r.(inserts := r.inserts + 1, minted := r.minted + 1)))
  }

  function WithOutputs(site: Site, a: Attempt, outputs: seq<ShippedOutput>): Outcome
    decreases |outputs|
  {
    if outputs == [] then Applied(a)
    else
      var next := WithOutput(site, a, outputs[0]);
      if next.Conflict? then next else WithOutputs(site, next.a, outputs[1..])
  }

  function SiteOf(user: int, fallback: string, chunk: Chunk): Site {
    Site(user, fallback, IdToName(chunk.baskets))
  }

  function Processed(user: int, fallback: string, meta: Meta, rows: Rows, chunk: Chunk): Outcome {
    WithOutputs(SiteOf(user, fallback, chunk), WithTxs(Begin(meta, rows), chunk.txs), chunk.outputs)
  }

  class Target {
    var meta: Meta
    var rows: Rows

    /** One committed attempt: the metadata commits as a whole, the mints as they come. */
    method ProcessSyncChunk(user: int, fallback: string, chunk: Chunk) returns (report: Option<Report>)
      modifies this
      ensures var p := Processed(user, fallback, old(meta), old(rows), chunk);
              && (report.Some? <==> p.Applied?)
              && (p.Applied? ==> report == Some(p.a.report) && meta == p.a.meta && rows == p.a.rows)
              && (p.Conflict? ==> meta == old(meta) && rows == p.left)
    {
      var names: map<nat, string> := map[];
      for i := 0 to |chunk.baskets|
        invariant names == IdToName(chunk.baskets[..i])
      {
        assert chunk.baskets[..i + 1][..i] == chunk.baskets[..i];
        names := names[chunk.baskets[i].0 := chunk.baskets[i].1];
      }
      assert chunk.baskets[..|chunk.baskets|] == chunk.baskets;
      var site := Site(user, fallback, names);

      var a := Begin(meta, rows);
      assert chunk.txs[0..] == chunk.txs;
      for i := 0 to |chunk.txs|
        invariant meta == old(meta) && rows == old(rows) && a.rows == rows
        invariant WithTxs(a, chunk.txs[i..]) == WithTxs(Begin(meta, rows), chunk.txs)
      {
        assert chunk.txs[i..][1..] == chunk.txs[i + 1..];
        a := WithTx(a, chunk.txs[i]);
      }
      assert chunk.outputs[0..] == chunk.outputs;
      for i := 0 to |chunk.outputs|
        invariant meta == old(meta) && rows == a.rows
        invariant WithOutputs(site, a, chunk.outputs[i..]) == Processed(user, fallback, old(meta), old(rows), chunk)
      {
        assert chunk.outputs[i..][1..] == chunk.outputs[i + 1..];
        var next := WithOutput(site, a, chunk.outputs[i]);
        if next.Conflict? { return None; }
        a := next.a;
        rows := a.rows;
      }
      meta := a.meta;
      return Some(a.report);
    }
  }

  // ---- a fresh target ------------------------------------------------------------------

  ghost predicate DistinctRefs(txs: seq<TxRow>) {
    forall i, j :: 0 <= i < j < |txs| ==> txs[i].reference != txs[j].reference
  }

  ghost predicate DistinctPlaces(outputs: seq<ShippedOutput>) {
    forall i, j :: 0 <= i < j < |outputs| && outputs[i].txid.Some? && outputs[j].txid.Some?
                   ==> PlaceOf(outputs[i]) != PlaceOf(outputs[j])
  }

  ghost predicate ParentsListed(outputs: seq<ShippedOutput>, oldToNew: map<nat, nat>) {
    forall o :: o in outputs ==> o.txRow in oldToNew
  }

  /** On a target without their references, every transaction is inserted and translated. */
  lemma {:induction false} AllInserted(a: Attempt, txs: seq<TxRow>)
    requires DistinctRefs(txs) && forall t :: t in txs ==> t.reference !in a.meta.refs
    ensures var b := WithTxs(a, txs);
            && b.rows == a.rows && b.report == a.report.(inserts := a.report.inserts + |txs|)
            && (forall t :: t in txs ==> t.id in b.oldToNew && t.reference in b.meta.refs)
            && (forall id :: id in a.oldToNew ==> id in b.oldToNew)
            && (forall r :: r in a.meta.refs ==> r in b.meta.refs)
    decreases |txs|
  {
    if txs != [] {
      assert txs == [txs[0]] + txs[1..];
      forall t | t in txs[1..] ensures t.reference != txs[0].reference {
        var i :| 0 <= i < |txs[1..]| && txs[1..][i] == t;
        assert txs[i + 1] == t;
      }
      AllInserted(WithTx(a, txs[0]), txs[1..]);
    }
  }

  function CountLive(outputs: seq<ShippedOutput>): nat
    decreases |outputs|
  {
    if outputs == [] then 0 else (if Live(outputs[0]) then 1 else 0) + CountLive(outputs[1..])
  }

  /** The inventory a list of outputs amounts to. */
  function LiveCoins(site: Site, outputs: seq<ShippedOutput>): Rows
    decreases |outputs|
  {
    if outputs == [] then map[]
    else
      var rest := LiveCoins(site, outputs[1..]);
      if Live(outputs[0]) then rest[PlaceOf(outputs[0]) := CoinOf(site, outputs[0])] else rest
  }

  lemma {:induction false} LiveCoinsAre(site: Site, outputs: seq<ShippedOutput>)
    requires DistinctPlaces(outputs)
    ensures forall op :: op in LiveCoins(site, outputs) <==> exists o :: o in outputs && Live(o) && PlaceOf(o) == op
    ensures forall o :: o in outputs && Live(o) ==> LiveCoins(site, outputs)[PlaceOf(o)] == CoinOf(site, o)
    decreases |outputs|
  {
    if outputs != [] {
      assert outputs == [outputs[0]] + outputs[1..];
      forall o | o in outputs[1..] && o.txid.Some? && outputs[0].txid.Some? ensures PlaceOf(o) != PlaceOf(outputs[0]) {
        var i :| 0 <= i < |outputs[1..]| && outputs[1..][i] == o;
        assert outputs[i + 1] == o;
      }
      LiveCoinsAre(site, outputs[1..]);
    }
  }

  /** Every coin already at the place of a live output is that output's coin, whatever has become of it. */
  ghost predicate Agrees(site: Site, rows: Rows, outputs: seq<ShippedOutput>) {
    forall o :: o in outputs && Live(o) && PlaceOf(o) in rows ==> SameIdentity(rows[PlaceOf(o)], CoinOf(site, o))
  }

  lemma TailDistinct(outputs: seq<ShippedOutput>)
    requires DistinctPlaces(outputs) && outputs != []
    ensures DistinctPlaces(outputs[1..])
    ensures forall o :: o in outputs[1..] && o.txid.Some? && outputs[0].txid.Some? ==> PlaceOf(o) != PlaceOf(outputs[0])
  {
    var rest := outputs[1..];
    forall o | o in rest && o.txid.Some? && outputs[0].txid.Some? ensures PlaceOf(o) != PlaceOf(outputs[0]) {
      var i :| 0 <= i < |rest| && rest[i] == o;
      assert outputs[i + 1] == o;
    }
    forall i, j | 0 <= i < j < |rest| && rest[i].txid.Some? && rest[j].txid.Some? ensures PlaceOf(rest[i]) != PlaceOf(rest[j]) {
      assert rest[i] == outputs[i + 1] && rest[j] == outputs[j + 1];
    }
  }

  /** One output on a target that holds its parent. A coin already at its place stays as it is. */
  lemma OneApplied(site: Site, a: Attempt, o: ShippedOutput)
    requires o.txRow in a.oldToNew
    ensures var p := WithOutput(site, a, o);
            && (p.Applied? <==> (Live(o) && PlaceOf(o) in a.rows ==> SameIdentity(a.rows[PlaceOf(o)], CoinOf(site, o))))
            && (p.Applied? ==>
                  && p.a.rows == (if Live(o) && PlaceOf(o) !in a.rows then a.rows[PlaceOf(o) := CoinOf(site, o)] else a.rows)
                  && p.a.meta.refs == a.meta.refs && p.a.oldToNew == a.oldToNew
                  && p.a.report.inserts == a.report.inserts + 1 && p.a.report.updates == a.report.updates
                  && p.a.report.minted == a.report.minted + (if Live(o) then 1 else 0)
                  && p.a.report.skipped == a.report.skipped)
  {
  }

  /** Minting the first output and then the rest is minting them all; what is there wins. */
  lemma FirstThenRest(site: Site, rows: Rows, outputs: seq<ShippedOutput>)
    requires outputs != [] && DistinctPlaces(outputs)
    ensures var o := outputs[0];
            var next := if Live(o) && PlaceOf(o) !in rows then rows[PlaceOf(o) := CoinOf(site, o)] else rows;
            LiveCoins(site, outputs[1..]) + next == LiveCoins(site, outputs) + rows
  {
    TailDistinct(outputs);
    LiveCoinsAre(site, outputs[1..]);
  }

  /** Taking the first output out of the question. */
  lemma AgreesStep(site: Site, rows: Rows, next: Rows, outputs: seq<ShippedOutput>)
    requires outputs != [] && DistinctPlaces(outputs)
    requires var o := outputs[0];
             next == if Live(o) && PlaceOf(o) !in rows then rows[PlaceOf(o) := CoinOf(site, o)] else rows
    ensures var o := outputs[0];
            Agrees(site, rows, outputs) <==>
            Agrees(site, next, outputs[1..]) && (Live(o) && PlaceOf(o) in rows ==> SameIdentity(rows[PlaceOf(o)], CoinOf(site, o)))
  {
    TailDistinct(outputs);
    assert outputs == [outputs[0]] + outputs[1..];
  }

  /** A chunk goes through exactly when the coins already there agree; then the missing ones are minted. */
  lemma {:induction false} OutputsApplied(site: Site, a: Attempt, outputs: seq<ShippedOutput>)
    requires ParentsListed(outputs, a.oldToNew) && DistinctPlaces(outputs)
    ensures var p := WithOutputs(site, a, outputs);
            && (p.Applied? <==> Agrees(site, a.rows, outputs))
            && (p.Applied? ==>
                  && p.a.rows == LiveCoins(site, outputs) + a.rows
                  && p.a.meta.refs == a.meta.refs && p.a.oldToNew == a.oldToNew
                  && p.a.report.inserts == a.report.inserts + |outputs| && p.a.report.updates == a.report.updates
                  && p.a.report.minted == a.report.minted + CountLive(outputs)
                  && p.a.report.skipped == a.report.skipped)
    decreases |outputs|
  {
    if outputs != [] {
      var o, rest := outputs[0], outputs[1..];
      assert o in outputs && forall o :: o in rest ==> o in outputs;
      OneApplied(site, a, o);
      TailDistinct(outputs);
      AgreesStep(site, a.rows, if Live(o) && PlaceOf(o) !in a.rows then a.rows[PlaceOf(o) := CoinOf(site, o)] else a.rows, outputs);
      if WithOutput(site, a, o).Applied? {
        OutputsApplied(site, WithOutput(site, a, o).a, rest);
        FirstThenRest(site, a.rows, outputs);
      }
    }
  }

  /** A conflict at one output leaves the coins of the outputs before it behind. */
  lemma {:induction false} ConflictLeaves(site: Site, a: Attempt, outputs: seq<ShippedOutput>) returns (k: nat)
    requires ParentsListed(outputs, a.oldToNew) && DistinctPlaces(outputs) && WithOutputs(site, a, outputs).Conflict?
    ensures k < |outputs| && Live(outputs[k]) && Agrees(site, a.rows, outputs[..k])
    ensures var p := WithOutputs(site, a, outputs);
            && p.op == PlaceOf(outputs[k]) && p.op in a.rows && !SameIdentity(a.rows[p.op], CoinOf(site, outputs[k]))
            && p.left == LiveCoins(site, outputs[..k]) + a.rows
    decreases |outputs|
  {
    var o, rest := outputs[0], outputs[1..];
    assert o in outputs && forall o :: o in rest ==> o in outputs;
    OneApplied(site, a, o);
    if WithOutput(site, a, o).Conflict? {
      k := 0;
      assert LiveCoins(site, outputs[..0]) == map[];
      assert LiveCoins(site, outputs[..0]) + a.rows == a.rows;
    } else {
      TailDistinct(outputs);
      var b := WithOutput(site, a, o).a;
      var n := ConflictLeaves(site, b, rest);
      k := n + 1;
      assert outputs[..k][0] == o && outputs[..k][1..] == rest[..n];
      AgreesStep(site, a.rows, b.rows, outputs[..k]);
      FirstThenRest(site, a.rows, outputs[..k]);
      assert rest[n] == outputs[k];
    }
  }

  /** The same counts. */
  predicate SameCounts(p: Report, q: Report) {
    p.inserts == q.inserts && p.updates == q.updates && p.minted == q.minted && p.skipped == q.skipped
  }

  /** None of the chunk's transactions is known to the target, and every output comes with its own. */
  ghost predicate NewTo(meta: Meta, chunk: Chunk) {
    && DistinctRefs(chunk.txs) && DistinctPlaces(chunk.outputs)
    && (forall t :: t in chunk.txs ==> t.reference !in meta.refs)
    && (forall o :: o in chunk.outputs ==> exists t :: t in chunk.txs && t.id == o.txRow)
  }

  /**
   A chunk of new transactions goes through exactly when the coins already in the
   inventory agree with it. Then they stay as they are, the missing ones are minted,
   and the counts do not depend on which were there.
   */
  lemma NewChunkApplied(user: int, fallback: string, meta: Meta, rows: Rows, chunk: Chunk)
    requires NewTo(meta, chunk)
    ensures var p := Processed(user, fallback, meta, rows, chunk);
            && (p.Applied? <==> Agrees(SiteOf(user, fallback, chunk), rows, chunk.outputs))
            && (p.Applied? ==>
                  && p.a.rows == LiveCoins(SiteOf(user, fallback, chunk), chunk.outputs) + rows
                  && p.a.report.inserts == |chunk.txs| + |chunk.outputs| && p.a.report.updates == 0
                  && p.a.report.minted == CountLive(chunk.outputs) && p.a.report.skipped == 0
                  && forall t :: t in chunk.txs ==> t.reference in p.a.meta.refs)
  {
    AllInserted(Begin(meta, rows), chunk.txs);
    OutputsApplied(SiteOf(user, fallback, chunk), WithTxs(Begin(meta, rows), chunk.txs), chunk.outputs);
  }

  /** A fresh target ends with exactly the chunk's live coins, and reports every row it inserted. */
  lemma FreshTarget(user: int, fallback: string, meta: Meta, chunk: Chunk)
    requires NewTo(meta, chunk)
    ensures var p := Processed(user, fallback, meta, map[], chunk);
            && p.Applied? && p.a.rows == LiveCoins(SiteOf(user, fallback, chunk), chunk.outputs)
            && p.a.report.inserts == |chunk.txs| + |chunk.outputs| && p.a.report.updates == 0
            && p.a.report.minted == CountLive(chunk.outputs) && p.a.report.skipped == 0
            && forall t :: t in chunk.txs ==> t.reference in p.a.meta.refs
  {
    var rows: Rows := map[];
    NewChunkApplied(user, fallback, meta, rows, chunk);
    var live := LiveCoins(SiteOf(user, fallback, chunk), chunk.outputs);
    assert live + rows == live;
  }

  /**
   What others may have done with the coins an attempt left behind: claimed, pinned,
   spent, frozen or removed them, and anything at all with coins the chunk does not name.
   */
  ghost predicate UsedSince(left: Rows, now: Rows, planned: Rows) {
    forall op :: op in now && op in planned ==> op in left && SameIdentity(now[op], left[op])
  }

  /**
   An attempt that minted part of the chunk and was rolled back, with its coins used
   by anybody since: the retry goes through, keeps every coin as it is now, mints the
   missing ones, and counts what an undisturbed attempt would have counted.
   */
  lemma RetryReportsTheSame(user: int, fallback: string, meta: Meta, rows: Rows, chunk: Chunk, k: nat, now: Rows)
    requires k <= |chunk.outputs| && NewTo(meta, chunk) && Processed(user, fallback, meta, rows, chunk).Applied?
    requires var site := SiteOf(user, fallback, chunk);
             UsedSince(LiveCoins(site, chunk.outputs[..k]) + rows, now, LiveCoins(site, chunk.outputs))
    ensures var site := SiteOf(user, fallback, chunk);
            var left := Processed(user, fallback, meta, rows, chunk.(outputs := chunk.outputs[..k]));
            var retry := Processed(user, fallback, meta, now, chunk);
            && left.Applied? && left.a.rows == LiveCoins(site, chunk.outputs[..k]) + rows
            && retry.Applied? && retry.a.rows == LiveCoins(site, chunk.outputs) + now
            && SameCounts(retry.a.report, Processed(user, fallback, meta, rows, chunk).a.report)
  {
    var part := chunk.(outputs := chunk.outputs[..k]);
    var site := SiteOf(user, fallback, chunk);
    assert forall o :: o in part.outputs ==> o in chunk.outputs;
    NewChunkApplied(user, fallback, meta, rows, chunk);
    NewChunkApplied(user, fallback, meta, rows, part);
    LeftBehindAgrees(site, rows, chunk.outputs, k, now);
    NewChunkApplied(user, fallback, meta, now, chunk);
  }

  lemma LeftBehindAgrees(site: Site, rows: Rows, outputs: seq<ShippedOutput>, k: nat, now: Rows)
    requires k <= |outputs| && DistinctPlaces(outputs) && Agrees(site, rows, outputs)
    requires UsedSince(LiveCoins(site, outputs[..k]) + rows, now, LiveCoins(site, outputs))
    ensures Agrees(site, now, outputs)
  {
    var part := outputs[..k];
    LiveCoinsAre(site, outputs);
    LiveCoinsAre(site, part);
    forall o | o in outputs && Live(o) && PlaceOf(o) in now ensures SameIdentity(now[PlaceOf(o)], CoinOf(site, o)) {
      if PlaceOf(o) !in rows {
        var q :| q in part && Live(q) && PlaceOf(q) == PlaceOf(o);
        SamePlaceSameOutput(outputs, q, o);
      }
    }
  }

  lemma SamePlaceSameOutput(outputs: seq<ShippedOutput>, a: ShippedOutput, b: ShippedOutput)
    requires DistinctPlaces(outputs) && a in outputs && b in outputs
    requires a.txid.Some? && b.txid.Some? && PlaceOf(a) == PlaceOf(b)
    ensures a == b
  {
    var i :| 0 <= i < |outputs| && outputs[i] == a;
    var j :| 0 <= j < |outputs| && outputs[j] == b;
  }

  // ---- the same chunk again ----------------------------------------------------------------

  lemma {:induction false} NoneInserted(a: Attempt, txs: seq<TxRow>)
    requires forall t :: t in txs ==> t.reference in a.meta.refs
    ensures WithTxs(a, txs) == a.(report := a.report.(updates := a.report.updates + |txs|))
    decreases |txs|
  {
    if txs != [] {
      assert txs == [txs[0]] + txs[1..];
      NoneInserted(WithTx(a, txs[0]), txs[1..]);
    }
  }

  lemma {:induction false} AllSkipped(site: Site, a: Attempt, outputs: seq<ShippedOutput>)
    requires a.oldToNew == map[]
    ensures var p := WithOutputs(site, a, outputs);
            && p.Applied? && p.a.meta == a.meta && p.a.rows == a.rows
            && p.a.report.inserts == a.report.inserts && p.a.report.updates == a.report.updates
            && p.a.report.minted == a.report.minted && p.a.report.skipped == a.report.skipped + |outputs|
    decreases |outputs|
  {
    if outputs != [] {
      AllSkipped(site, WithOutput(site, a, outputs[0]).a, outputs[1..]);
    }
  }

  /** Processing a chunk whose transactions the target already holds changes nothing and mints nothing. */
  lemma AgainChangesNothing(user: int, fallback: string, meta: Meta, rows: Rows, chunk: Chunk)
    requires forall t :: t in chunk.txs ==> t.reference in meta.refs
    ensures var p := Processed(user, fallback, meta, rows, chunk);
            && p.Applied? && p.a.meta == meta && p.a.rows == rows
            && p.a.report.inserts == 0 && p.a.report.minted == 0 && p.a.report.updates == |chunk.txs|
            && p.a.report.skipped == |chunk.outputs|
  {
    NoneInserted(Begin(meta, rows), chunk.txs);
    AllSkipped(SiteOf(user, fallback, chunk), WithTxs(Begin(meta, rows), chunk.txs), chunk.outputs);
  }

  // ---- the round trip ------------------------------------------------------------------------

  lemma {:induction false} FullChunk(src: Source, txs: seq<TxRow>, outputs: seq<OutputRow>)
    ensures RecentTxs(txs, None) == txs
    ensures |ShippedAll(src, outputs, None)| == |outputs|
    ensures forall i :: 0 <= i < |outputs| ==> ShippedAll(src, outputs, None)[i] == Shipped(src, outputs[i])
    decreases |txs| + |outputs|
  {
    if txs != [] {
      FullChunk(src, txs[..|txs| - 1], []);
      assert txs == txs[..|txs| - 1] + [txs[|txs| - 1]];
    }
    if outputs != [] { FullChunk(src, [], outputs[..|outputs| - 1]); }
  }

  lemma {:induction false} NamesRoundTrip(names: seq<string>)
    ensures forall id :: id in IdToName(Numbered(names)) <==> 1 <= id <= |names|
    ensures forall id :: 1 <= id <= |names| ==> IdToName(Numbered(names))[id] == names[id - 1]
    decreases |names|
  {
    if names != [] {
      assert Numbered(names)[..|names| - 1] == Numbered(names[..|names| - 1]);
      NamesRoundTrip(names[..|names| - 1]);
    }
  }

  /** A live change coin of the source: its output row is change with no recorded spender, and the coin is claimable. */
  predicate SourceLive(src: Source, o: OutputRow) {
    o.change && o.spentBy.None? && Spendable(src.rows, o.txid, o.vout)
  }

  ghost predicate WellListed(src: Source) {
    && DistinctRefs(src.txs)
    && (forall o :: o in src.outputs ==> exists t :: t in src.txs && t.id == o.txRow)
    && (forall o :: o in src.outputs && o.basket.Some? ==> o.basket.value in src.baskets && o.basket.value != "")
    && (forall i, j :: 0 <= i < j < |src.outputs| && src.outputs[i].txid.Some? && src.outputs[j].txid.Some?
          ==> (src.outputs[i].txid, src.outputs[i].vout) != (src.outputs[j].txid, src.outputs[j].vout))
  }

  /** The basket keeps its name on the way through the chunk. */
  lemma BasketRoundTrip(src: Source, fallback: string, o: OutputRow)
    requires o.basket.Some? ==> o.basket.value in src.baskets && o.basket.value != ""
    ensures BasketFor(IdToName(Numbered(src.baskets)), Shipped(src, o).basketId, fallback) ==
            if o.basket.Some? then o.basket.value else fallback
  {
    NamesRoundTrip(src.baskets);
  }

  /** A full chunk lists every output with its parent, each at a place of its own. */
  lemma ChunkIsListed(src: Source)
    requires WellListed(src)
    ensures var chunk := ChunkOf(src, None);
            && chunk.txs == src.txs && |chunk.outputs| == |src.outputs| && DistinctPlaces(chunk.outputs)
            && (forall i :: 0 <= i < |src.outputs| ==> chunk.outputs[i] == Shipped(src, src.outputs[i]))
            && (forall o :: o in chunk.outputs ==> exists t :: t in chunk.txs && t.id == o.txRow)
  {
    var chunk := ChunkOf(src, None);
    FullChunk(src, src.txs, src.outputs);
    forall i, j | 0 <= i < j < |chunk.outputs| && chunk.outputs[i].txid.Some? && chunk.outputs[j].txid.Some?
      ensures PlaceOf(chunk.outputs[i]) != PlaceOf(chunk.outputs[j])
    {
      assert (src.outputs[i].txid, src.outputs[i].vout) != (src.outputs[j].txid, src.outputs[j].vout);
    }
    forall o | o in chunk.outputs ensures exists t :: t in chunk.txs && t.id == o.txRow {
      var i :| 0 <= i < |chunk.outputs| && chunk.outputs[i] == o;
      assert src.outputs[i] in src.outputs;
    }
  }

  /** What one source output amounts to in the rebuilt inventory. */
  lemma OneRoundTrip(src: Source, user: int, fallback: string, i: nat)
    requires WellListed(src) && i < |src.outputs|
    ensures var chunk := ChunkOf(src, None);
            var o := src.outputs[i];
            && i < |chunk.outputs| && (Live(chunk.outputs[i]) <==> SourceLive(src, o))
            && (SourceLive(src, o) ==>
                  && PlaceOf(chunk.outputs[i]) == Outpoint(o.txid.value, o.vout)
                  && CoinOf(SiteOf(user, fallback, chunk), chunk.outputs[i]) ==
                     Rebuilt(user, if o.basket.Some? then o.basket.value else fallback, o.satoshis))
  {
    ChunkIsListed(src);
    assert src.outputs[i] in src.outputs;
    BasketRoundTrip(src, fallback, src.outputs[i]);
  }

  function SourcePlace(o: OutputRow): Outpoint
    requires o.txid.Some?
  {
    Outpoint(o.txid.value, o.vout)
  }

  /** The coin the target should hold for a source output: same value, same basket name, free to claim. */
  function Mirror(user: int, fallback: string, o: OutputRow): Coin {
    Rebuilt(user, if o.basket.Some? then o.basket.value else fallback, o.satoshis)
  }

  /** The inventory is exactly the source's live change coins. */
  ghost predicate Mirrors(src: Source, user: int, fallback: string, rows: Rows) {
    && (forall i :: 0 <= i < |src.outputs| && SourceLive(src, src.outputs[i]) ==>
          SourcePlace(src.outputs[i]) in rows && rows[SourcePlace(src.outputs[i])] == Mirror(user, fallback, src.outputs[i]))
    && (forall op :: op in rows ==>
          exists i :: 0 <= i < |src.outputs| && SourceLive(src, src.outputs[i]) && SourcePlace(src.outputs[i]) == op)
  }

  lemma LiveCoinsMirror(src: Source, user: int, fallback: string)
    requires WellListed(src)
    ensures var chunk := ChunkOf(src, None);
            Mirrors(src, user, fallback, LiveCoins(SiteOf(user, fallback, chunk), chunk.outputs))
  {
    var rows := LiveCoins(SiteOf(user, fallback, ChunkOf(src, None)), ChunkOf(src, None).outputs);
    forall i | 0 <= i < |src.outputs| && SourceLive(src, src.outputs[i])
      ensures SourcePlace(src.outputs[i]) in rows
      ensures rows[SourcePlace(src.outputs[i])] == Mirror(user, fallback, src.outputs[i])
    {
      MirroredOne(src, user, fallback, i);
    }
    forall op | op in rows
      ensures exists i :: 0 <= i < |src.outputs| && SourceLive(src, src.outputs[i]) && SourcePlace(src.outputs[i]) == op
    {
      var i := MirrorOrigin(src, user, fallback, op);
    }
  }

  lemma MirroredOne(src: Source, user: int, fallback: string, i: nat)
    requires WellListed(src) && i < |src.outputs| && SourceLive(src, src.outputs[i])
    ensures var rows := LiveCoins(SiteOf(user, fallback, ChunkOf(src, None)), ChunkOf(src, None).outputs);
            SourcePlace(src.outputs[i]) in rows && rows[SourcePlace(src.outputs[i])] == Mirror(user, fallback, src.outputs[i])
  {
    var chunk := ChunkOf(src, None);
    ChunkIsListed(src);
    LiveCoinsAre(SiteOf(user, fallback, chunk), chunk.outputs);
    OneRoundTrip(src, user, fallback, i);
    assert chunk.outputs[i] in chunk.outputs;
  }

  lemma MirrorOrigin(src: Source, user: int, fallback: string, op: Outpoint) returns (i: nat)
    requires WellListed(src)
    requires op in LiveCoins(SiteOf(user, fallback, ChunkOf(src, None)), ChunkOf(src, None).outputs)
    ensures i < |src.outputs| && SourceLive(src, src.outputs[i]) && SourcePlace(src.outputs[i]) == op
  {
    var chunk := ChunkOf(src, None);
    ChunkIsListed(src);
    LiveCoinsAre(SiteOf(user, fallback, chunk), chunk.outputs);
    var o :| o in chunk.outputs && Live(o) && PlaceOf(o) == op;
    i :| 0 <= i < |chunk.outputs| && chunk.outputs[i] == o;
    OneRoundTrip(src, user, fallback, i);
  }

  /** A full chunk processed into a fresh target yields as inventory exactly the source's live change coins. */
  lemma SyncRoundTrip(src: Source, user: int, fallback: string, meta: Meta)
    requires WellListed(src) && forall t :: t in src.txs ==> t.reference !in meta.refs
    ensures Processed(user, fallback, meta, map[], ChunkOf(src, None)).Applied?
    ensures Mirrors(src, user, fallback, Processed(user, fallback, meta, map[], ChunkOf(src, None)).a.rows)
  {
    ChunkIsListed(src);
    FreshTarget(user, fallback, meta, ChunkOf(src, None));
    LiveCoinsMirror(src, user, fallback);
  }
}
