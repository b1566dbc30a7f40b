/**
 The partial release after a spend conflict: which inputs of a dead transaction may
 return to the pool when competitors are known to have spent some of them. The
 oracle and the local ledger are read several times in one pass; both are one fixed
 answer per txid here.
 */
module SpendConflict {
  import opened Domain
  import opened Wire

  /** A stored or reported raw transaction. */
  datatype RawTx = Absent | Unparseable | Parsed(inputs: seq<Option<Outpoint>>)

  datatype Answer = NoAnswer | Answer(status: Status, raw: RawTx)

  /** One pass's fixed view of the outside: the oracle's records and the local ledger. */
  datatype View = View(oracle: map<TxId, Answer>, ledger: map<TxId, RawTx>)

  /** What the record of the suspect asserts. */
  datatype Evidence = Evidence(
    recorded: seq<TxId>,         // competitors in the live record
    remembered: seq<TxId>,       // competitors stored with the suspect
    spent: set<Outpoint>,        // outpoints the text names as spent
    spenders: seq<TxId>)         // spenders the text names

  datatype Reason = UnreadableWinner | NothingSpent | ForeignOutpoint | UnresolvedWinner

  datatype Decision = Defer(reason: Reason) | ReleaseInputs(inputs: seq<Outpoint>)

  // ---- what each competitor amounts to -----------------------------------------

  function Ask(v: View, t: TxId): Answer {
    if t in v.oracle then v.oracle[t] else NoAnswer
  }

  function Local(v: View, t: TxId): RawTx {
    if t in v.ledger then v.ledger[t] else Absent
  }

  predicate ConfirmedBy(v: View, t: TxId) {
    Ask(v, t).Answer? && Confirmed(Ask(v, t).status)
  }

  predicate UnreadableConfirmed(v: View, t: TxId) {
    ConfirmedBy(v, t) && !Ask(v, t).raw.Parsed?
  }

  /** The outpoints a readable transaction consumes. */
  function Consumed(raw: RawTx): set<Outpoint>
    requires raw.Parsed?
  {
    set i | 0 <= i < |raw.inputs| && raw.inputs[i].Some? :: raw.inputs[i].value
  }

  /** Named by the text, or consumed by a confirmed or locally readable spender. */
  ghost predicate ProvenSpent(v: View, ev: Evidence, spenders: set<TxId>, op: Outpoint) {
    || op in ev.spent
    || (exists t :: t in spenders && ConfirmedBy(v, t) && Ask(v, t).raw.Parsed? && op in Consumed(Ask(v, t).raw))
    || (exists t :: t in spenders && Local(v, t).Parsed? && op in Consumed(Local(v, t)))
  }

  /** Some spender's consumption is known. */
  ghost predicate Resolved(v: View, spenders: set<TxId>) {
    exists t :: t in spenders && ((ConfirmedBy(v, t) && Ask(v, t).raw.Parsed?) || Local(v, t).Parsed?)
  }

  // ---- merging the competitors ---------------------------------------------------

  predicate Blank(c: char) {
    c == ' ' || c == '\t' || c == '\n' || c == '\r'
  }

  function TrimLeft(s: string): string
    decreases |s|
  {
    if s != [] && Blank(s[0]) then TrimLeft(s[1..]) else s
  }

  function TrimRight(s: string): string
    decreases |s|
  {
    if s != [] && Blank(s[|s| - 1]) then TrimRight(s[..|s| - 1]) else s
  }

  function Lower(s: string): string {
    seq(|s|, i requires 0 <= i < |s| => if 'A' <= s[i] <= 'Z' then (s[i] as int + 32) as char else s[i])
  }

  function Canonical(id: string): TxId {
    Lower(TrimRight(TrimLeft(id)))
  }

  /** The spenders a list of ids names. */
  function SpendersIn(ids: seq<string>): set<TxId> {
    set id | id in ids && Canonical(id) != "" :: Canonical(id)
  }

  /** Canonical, non-empty, without repetition. */
  ghost predicate Merged(ids: seq<string>, merged: seq<TxId>) {
    Distinct(merged) && forall t :: t in merged <==> t in SpendersIn(ids)
  }

  method MergeSpenders(competing: seq<string>, fromExtra: seq<string>) returns (merged: seq<TxId>)
    ensures Merged(competing + fromExtra, merged)
  {
    merged := [];
    var all := competing + fromExtra;
    for i := 0 to |all|
      invariant Distinct(merged)
      invariant forall t :: t in merged <==> t != "" && exists k :: 0 <= k < i && Canonical(all[k]) == t
    {
      var id := Canonical(all[i]);
      if id != "" && id !in merged {
        merged := merged + [id];
      }
    }
    forall t ensures t in merged <==> t in SpendersIn(all) {
      if t in merged {
        var k :| 0 <= k < |all| && Canonical(all[k]) == t;
        assert all[k] in all;
      }
    }
  }

  // ---- reading the competitors ------------------------------------------------------

  method HasConfirmedUnreadableWinner(v: View, spenders: seq<TxId>) returns (found: bool)
    ensures found <==> exists t :: t in spenders && UnreadableConfirmed(v, t)
  {
    for i := 0 to |spenders|
      invariant forall k :: 0 <= k < i ==> !UnreadableConfirmed(v, spenders[k])
    {
      var a := Ask(v, spenders[i]);
      if a.NoAnswer? || !Confirmed(a.status) { continue; }
      if !a.raw.Parsed? {
        assert UnreadableConfirmed(v, spenders[i]);
        return true;
      }
    }
    return false;
  }

  method InputsOf(raw: RawTx) returns (consumed: set<Outpoint>)
    requires raw.Parsed?
    ensures consumed == Consumed(raw)
  {
    consumed := {};
    for i := 0 to |raw.inputs|
      invariant consumed == set k | 0 <= k < i && raw.inputs[k].Some? :: raw.inputs[k].value
    {
      if raw.inputs[i].Some? {
        consumed := consumed + {raw.inputs[i].value};
      }
    }
  }

  /** The union over every confirmed winner; none at all as soon as one of them is unreadable. */
  method FindWinnerInputs(v: View, spenders: seq<TxId>) returns (consumed: set<Outpoint>, ok: bool)
    ensures ok <==> && (exists t :: t in spenders && ConfirmedBy(v, t))
                    && (forall t :: t in spenders ==> !UnreadableConfirmed(v, t))
    ensures ok ==> forall op :: op in consumed <==>
                     exists t :: t in spenders && ConfirmedBy(v, t) && Ask(v, t).raw.Parsed? && op in Consumed(Ask(v, t).raw)
  {
    consumed, ok := {}, false;
    for i := 0 to |spenders|
      invariant forall k :: 0 <= k < i ==> !UnreadableConfirmed(v, spenders[k])
      invariant ok <==> exists k :: 0 <= k < i && ConfirmedBy(v, spenders[k])
      invariant forall op :: op in consumed <==>
                  exists k :: 0 <= k < i && ConfirmedBy(v, spenders[k]) && op in Consumed(Ask(v, spenders[k]).raw)
    {
      var a := Ask(v, spenders[i]);
      if a.NoAnswer? || !Confirmed(a.status) { continue; }
      if !a.raw.Parsed? {
        assert UnreadableConfirmed(v, spenders[i]);
        return {}, false;
      }
      ok := true;
      var more := InputsOf(a.raw);
      consumed := consumed + more;
    }
  }

  /** The union over every spender whose bytes are in the local ledger. */
  method LocalWinnerInputs(v: View, spenders: seq<TxId>) returns (consumed: set<Outpoint>, ok: bool)
    ensures ok <==> exists t :: t in spenders && Local(v, t).Parsed?
    ensures forall op :: op in consumed <==> exists t :: t in spenders && Local(v, t).Parsed? && op in Consumed(Local(v, t))
  {
    consumed, ok := {}, false;
    for i := 0 to |spenders|
      invariant ok <==> exists k :: 0 <= k < i && Local(v, spenders[k]).Parsed?
      invariant forall op :: op in consumed <==>
                  exists k :: 0 <= k < i && Local(v, spenders[k]).Parsed? && op in Consumed(Local(v, spenders[k]))
    {
      var raw := Local(v, spenders[i]);
      if !raw.Parsed? { continue; }
      ok := true;
      var more := InputsOf(raw);
      consumed := consumed + more;
    }
  }

  // ---- the decision ------------------------------------------------------------------

  function Kept(all: seq<Outpoint>, spent: set<Outpoint>): seq<Outpoint> {
    if all == [] then []
    else (if all[0] in spent then [] else [all[0]]) + Kept(all[1..], spent)
  }

  lemma {:induction false} KeptSnoc(all: seq<Outpoint>, op: Outpoint, spent: set<Outpoint>)
    ensures Kept(all + [op], spent) == Kept(all, spent) + if op in spent then [] else [op]
    decreases |all|
  {
    if all == [] {
      assert all + [op] == [op];
      assert Kept([op][1..], spent) == [];
    } else {
      var more := all + [op];
      assert more[0] == all[0] && more[1..] == all[1..] + [op];
      KeptSnoc(all[1..], op, spent);
      var first := if all[0] in spent then [] else [all[0]];
      assert Kept(more, spent) == first + Kept(more[1..], spent);
    }
  }

  lemma {:induction false} KeptMembers(all: seq<Outpoint>, spent: set<Outpoint>)
    ensures forall op :: op in Kept(all, spent) <==> op in all && op !in spent
    decreases |all|
  {
    if all != [] {
      KeptMembers(all[1..], spent);
      assert all == [all[0]] + all[1..];
    }
  }

  method FilterReleaseInputs(all: seq<Outpoint>, spent: set<Outpoint>) returns (release: seq<Outpoint>, held: nat)
    ensures release == Kept(all, spent) && held == |all| - |release|
    ensures held == 0 <==> forall op :: op in all ==> op !in spent
  {
    release, held := [], 0;
    for i := 0 to |all|
      invariant release == Kept(all[..i], spent) && held + |release| == i
      invariant held == 0 <==> forall k :: 0 <= k < i ==> all[k] !in spent
    {
      assert all[..i + 1] == all[..i] + [all[i]];
      KeptSnoc(all[..i], all[i], spent);
      if all[i] in spent {
        held := held + 1;
      } else {
        release := release + [all[i]];
      }
    }
    assert all[..|all|] == all;
  }

  function Competing(ev: Evidence): seq<TxId> {
    if ev.recorded == [] then ev.remembered else ev.recorded
  }

  /** Every spender the record or its text names. */
  function Spenders(ev: Evidence): set<TxId> {
    SpendersIn(Competing(ev) + ev.spenders)
  }

  ghost predicate SomeUnreadable(v: View, spenders: set<TxId>) {
    exists t :: t in spenders && UnreadableConfirmed(v, t)
  }

  ghost predicate SomeOwnSpent(v: View, ev: Evidence, spenders: set<TxId>, all: seq<Outpoint>) {
    exists op :: op in all && ProvenSpent(v, ev, spenders, op)
  }

  ghost predicate AllSpent(v: View, ev: Evidence, spenders: set<TxId>, all: seq<Outpoint>) {
    forall op :: op in all ==> ProvenSpent(v, ev, spenders, op)
  }

  /** The outpoints proven spent, as a set. */
  function SpentOf(v: View, ev: Evidence): set<Outpoint> {
    ev.spent
    + (set t, op | t in Spenders(ev) && ConfirmedBy(v, t) && Ask(v, t).raw.Parsed? && op in Consumed(Ask(v, t).raw) :: op)
    + (set t, op | t in Spenders(ev) && Local(v, t).Parsed? && op in Consumed(Local(v, t)) :: op)
  }

  lemma SpentOfIs(v: View, ev: Evidence)
    ensures forall op :: op in SpentOf(v, ev) <==> ProvenSpent(v, ev, Spenders(ev), op)
  {
  }

  /** The decision as a value. */
  ghost function Decide(v: View, ev: Evidence, all: seq<Outpoint>): Decision {
    if SomeUnreadable(v, Spenders(ev)) then Defer(UnreadableWinner)
    else if SpentOf(v, ev) == {} then Defer(NothingSpent)
    else if forall op :: op in all ==> op !in SpentOf(v, ev) then Defer(ForeignOutpoint)
    else if !Resolved(v, Spenders(ev)) && Kept(all, SpentOf(v, ev)) != [] then Defer(UnresolvedWinner)
    else ReleaseInputs(Kept(all, SpentOf(v, ev)))
  }

  /**
   Exactly when inputs are released, and which: every confirmed spender must be
   readable, some own input must be proven spent, and either some spender's
   consumption is known or nothing is left to release. What is released is every
   own input that is not proven spent.
   */
  lemma DecideIff(v: View, ev: Evidence, all: seq<Outpoint>)
    ensures var d := Decide(v, ev, all);
            && (d.ReleaseInputs? <==>
                && !SomeUnreadable(v, Spenders(ev)) && SomeOwnSpent(v, ev, Spenders(ev), all)
                && (Resolved(v, Spenders(ev)) || AllSpent(v, ev, Spenders(ev), all)))
            && (d.ReleaseInputs? ==> forall op :: op in d.inputs <==> op in all && !ProvenSpent(v, ev, Spenders(ev), op))
  {
    SpentOfIs(v, ev);
    var spent := SpentOf(v, ev);
    KeptMembers(all, spent);
    if Kept(all, spent) != [] { assert Kept(all, spent)[0] in Kept(all, spent); }
  }

  method ReleaseSpendConflict(v: View, ev: Evidence, all: seq<Outpoint>) returns (d: Decision)
    ensures d == Decide(v, ev, all)
    ensures d.ReleaseInputs? <==>
            && !SomeUnreadable(v, Spenders(ev)) && SomeOwnSpent(v, ev, Spenders(ev), all)
            && (Resolved(v, Spenders(ev)) || AllSpent(v, ev, Spenders(ev), all))
    ensures d.ReleaseInputs? ==> forall op :: op in d.inputs <==> op in all && !ProvenSpent(v, ev, Spenders(ev), op)
  {
    DecideIff(v, ev, all);
    SpentOfIs(v, ev);
    var merged := MergeSpenders(Competing(ev), ev.spenders);
    var spent := ev.spent;
    var unreadable := HasConfirmedUnreadableWinner(v, merged);
    if unreadable { return Defer(UnreadableWinner); }

    var won, wonOk := FindWinnerInputs(v, merged);
    if wonOk { spent := spent + won; }
    var local, localOk := LocalWinnerInputs(v, merged);
    if localOk { spent := spent + local; }
    var resolved := wonOk || localOk;
    assert spent == SpentOf(v, ev);
    assert resolved <==> Resolved(v, Spenders(ev));

    if spent == {} { return Defer(NothingSpent); }
    var release, held := FilterReleaseInputs(all, spent);
    if held == 0 { return Defer(ForeignOutpoint); }
    if !resolved && release != [] { return Defer(UnresolvedWinner); }
    return ReleaseInputs(release);
  }
}
