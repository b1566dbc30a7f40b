/**
 Reserve before fund: concurrent CreateActions on split stores. Each names coins of
 its own, lets the funder claim more under the same token, and either persists or
 gives everything back. The funder retries a contended attempt after releasing the
 whole token.
 */
module CreateFlow {
  import opened Domain
  import opened Inventory

  datatype Phase = Funding | Live | Dead

  /** One CreateAction: what it named, and what its funder has allocated. */
  datatype Flow = Flow(user: int, phase: Phase, named: seq<Outpoint>, allocation: seq<Outpoint>)

  datatype World = World(rows: Rows, flows: map<Ref, Flow>, swept: set<Ref>)

  datatype Event =
    | Name(ref: Ref, user: int, ops: seq<Outpoint>)      // reserve the named inputs, all or nothing
    | FundClaim(ref: Ref, op: Outpoint)
    | FundGiveBack(ref: Ref, op: Outpoint)               // the unconsumed tail of a drained batch
    | FundRetry(ref: Ref)                                // contention: release the token and start over
    | Persist(ref: Ref)
    | Fail(ref: Ref)                                     // funding or persisting reported an error; the release succeeded
    | SweepRead(ref: Ref)                                // the reservation sweep finds no row
    | SweepRelease(ref: Ref, user: int)                  // and releases, whatever happened since

  predicate Reservable(rows: Rows, ref: Ref, user: int, op: Outpoint) {
    && op in rows && rows[op].user == user && rows[op].spentBy.None? && !rows[op].frozen
    && (rows[op].reservedBy == "" || rows[op].reservedBy == ref)
  }

  function Stamped(rows: Rows, ref: Ref, ops: seq<Outpoint>): Rows {
    map op | op in rows :: if op in ops then rows[op].(reservedBy := ref) else rows[op]
  }

  function Without(ops: seq<Outpoint>, op: Outpoint): seq<Outpoint> {
    if ops == [] then [] else (if ops[0] == op then [] else [ops[0]]) + Without(ops[1..], op)
  }

  ghost function Step(w: World, e: Event): World {
    match e
    case Name(ref, user, ops) =>
      // references are fresh: nothing was ever held under this one
      if ref == "" || ref in w.flows || (exists op :: op in w.rows && w.rows[op].reservedBy == ref)
         || !(forall op :: op in ops ==> Reservable(w.rows, ref, user, op)) then w
      else w.(rows := Stamped(w.rows, ref, ops), flows := w.flows[ref := Flow(user, Funding, ops, [])])
    case FundClaim(ref, op) =>
      if ref in w.flows && w.flows[ref].phase.Funding?
         && op in w.rows && w.rows[op].user == w.flows[ref].user && Claimable(w.rows[op])
      then w.(rows := w.rows[op := w.rows[op].(reservedBy := ref)],
              flows := w.flows[ref := w.flows[ref].(allocation := w.flows[ref].allocation + [op])])
      else w
    case FundGiveBack(ref, op) =>
      if ref in w.flows && w.flows[ref].phase.Funding? && op in w.flows[ref].allocation
      then w.(rows := ReleaseOutpoints(w.rows, ref, [op]),
              flows := w.flows[ref := w.flows[ref].(allocation := Without(w.flows[ref].allocation, op))])
      else w
    case FundRetry(ref) =>
      if ref in w.flows && w.flows[ref].phase.Funding?
      then w.(rows := ReleaseReservation(w.rows, w.flows[ref].user, ref),
              flows := w.flows[ref := w.flows[ref].(allocation := [])])
      else w
    case Persist(ref) =>
      if ref in w.flows && w.flows[ref].phase.Funding?
      then w.(flows := w.flows[ref := w.flows[ref].(phase := Live)]) else w
    case Fail(ref) =>
      // also behind a row that was committed although its answer was lost
      if ref in w.flows
      then w.(rows := ReleaseReservation(w.rows, w.flows[ref].user, ref),
              flows := w.flows[ref := w.flows[ref].(phase := Dead)])
      else w
    case SweepRead(ref) =>
      if ref in w.flows && w.flows[ref].phase.Live? then w else w.(swept := w.swept + {ref})
    case SweepRelease(ref, user) =>
      if ref == "" || ref !in w.swept then w
      else w.(rows := ReleaseReservation(w.rows, user, ref), swept := w.swept - {ref})
  }

  ghost function RunAll(w: World, run: seq<Event>): World
    decreases |run|
  {
    if run == [] then w else RunAll(Step(w, run[0]), run[1..])
  }

  // ---- what is held ------------------------------------------------------------------

  /** A coin under a live or funding action is held by it, for its user, and not pinned yet. */
  predicate Holds(w: World, ref: Ref, op: Outpoint)
    requires ref in w.flows
  {
    op in w.rows && HeldBy(w.rows[op], w.flows[ref].user, ref) && !w.rows[op].pinned
  }

  ghost predicate AllocationHeld(w: World) {
    forall r, op :: r in w.flows && !w.flows[r].phase.Dead? && op in w.flows[r].allocation ==> Holds(w, r, op)
  }

  ghost predicate NamedHeld(w: World) {
    forall r, op :: r in w.flows && !w.flows[r].phase.Dead? && op in w.flows[r].named ==> Holds(w, r, op)
  }

  ghost predicate NamedApart(w: World) {
    forall r, op :: r in w.flows && !w.flows[r].phase.Dead? && op in w.flows[r].named ==> op !in w.flows[r].allocation
  }

  /** No allocation lists a coin twice. */
  ghost predicate AllocationDistinct(w: World) {
    forall r :: r in w.flows && !w.flows[r].phase.Dead? ==> Distinct(w.flows[r].allocation)
  }

  /** Whatever is reserved belongs to an action that is not dead, unpinned while it is being created. */
  ghost predicate NothingStray(w: World) {
    && "" !in w.flows
    && (forall op :: op in w.rows && w.rows[op].reservedBy in w.flows ==>
          && w.flows[w.rows[op].reservedBy].user == w.rows[op].user
          && !w.rows[op].pinned && w.rows[op].spentBy.None? && !w.flows[w.rows[op].reservedBy].phase.Dead?)
    && (forall op :: op in w.rows && w.rows[op].reservedBy == "" ==> !w.rows[op].pinned)
  }

  /** A retry loses what the caller named, so it must not happen to an action that named coins. */
  ghost predicate RetriesNothingNamed(w: World, e: Event) {
    e.FundRetry? && e.ref in w.flows && w.flows[e.ref].phase.Funding? ==> w.flows[e.ref].named == []
  }

  /** A sweep takes coins that an action in flight counts on. */
  predicate SweepTakes(w: World, e: Event) {
    && e.SweepRelease? && e.ref in w.swept && e.ref in w.flows && !w.flows[e.ref].phase.Dead?
    && e.user == w.flows[e.ref].user && (w.flows[e.ref].named != [] || w.flows[e.ref].allocation != [])
  }

  ghost predicate InTimeRun(w: World, run: seq<Event>)
    decreases |run|
  {
    run == [] || (!SweepTakes(w, run[0]) && InTimeRun(Step(w, run[0]), run[1..]))
  }

  ghost predicate QuietRun(w: World, run: seq<Event>)
    decreases |run|
  {
    run == [] || (RetriesNothingNamed(w, run[0]) && QuietRun(Step(w, run[0]), run[1..]))
  }

  lemma {:induction false} WithoutMembers(ops: seq<Outpoint>, op: Outpoint)
    ensures forall o :: o in Without(ops, op) <==> o in ops && o != op
    decreases |ops|
  {
    if ops != [] {
      WithoutMembers(ops[1..], op);
      assert ops == [ops[0]] + ops[1..];
    }
  }

  lemma {:induction false} WithoutDistinct(ops: seq<Outpoint>, op: Outpoint)
    requires Distinct(ops)
    ensures Distinct(Without(ops, op))
    decreases |ops|
  {
    if ops != [] {
      var rest := ops[1..];
      assert forall i :: 0 <= i < |rest| ==> rest[i] == ops[i + 1];
      WithoutDistinct(rest, op);
      WithoutMembers(rest, op);
      assert ops[0] !in Without(rest, op);
    }
  }

  ghost predicate Sound(w: World) {
    NothingStray(w) && AllocationHeld(w)
  }

  lemma StepNothingStray(w: World, e: Event)
    requires NothingStray(w)
    ensures NothingStray(Step(w, e))
  {
  }

  lemma StepAllocationHeld(w: World, e: Event)
    requires Sound(w) && !SweepTakes(w, e)
    ensures AllocationHeld(Step(w, e))
  {
    if e.FundGiveBack? && e.ref in w.flows { WithoutMembers(w.flows[e.ref].allocation, e.op); }
  }

  lemma StepSound(w: World, e: Event)
    requires Sound(w) && !SweepTakes(w, e)
    ensures Sound(Step(w, e))
  {
    StepNothingStray(w, e);
    StepAllocationHeld(w, e);
  }

  lemma StepDistinct(w: World, e: Event)
    requires Sound(w) && AllocationDistinct(w)
    ensures AllocationDistinct(Step(w, e))
  {
    if e.FundGiveBack? && e.ref in w.flows && w.flows[e.ref].phase.Funding? {
      WithoutDistinct(w.flows[e.ref].allocation, e.op);
    }
    if e.FundClaim? && e.ref in w.flows && e.op in w.flows[e.ref].allocation && w.flows[e.ref].phase.Funding? {
      assert Holds(w, e.ref, e.op);
    }
  }

  lemma StepNamedHeld(w: World, e: Event)
    requires Sound(w) && NamedHeld(w) && NamedApart(w) && RetriesNothingNamed(w, e) && !SweepTakes(w, e)
    ensures NamedHeld(Step(w, e))
  {
    if e.FundGiveBack? && e.ref in w.flows { WithoutMembers(w.flows[e.ref].allocation, e.op); }
  }

  lemma StepNamedApart(w: World, e: Event)
    requires Sound(w) && NamedHeld(w) && NamedApart(w)
    ensures NamedApart(Step(w, e))
  {
    if e.FundGiveBack? && e.ref in w.flows { WithoutMembers(w.flows[e.ref].allocation, e.op); }
  }

  lemma StepNamed(w: World, e: Event)
    requires Sound(w) && NamedHeld(w) && NamedApart(w) && RetriesNothingNamed(w, e) && !SweepTakes(w, e)
    ensures NamedHeld(Step(w, e)) && NamedApart(Step(w, e))
  {
    StepNamedHeld(w, e);
    StepNamedApart(w, e);
  }

  lemma {:induction false} RunSound(w: World, run: seq<Event>)
    requires Sound(w) && AllocationDistinct(w) && InTimeRun(w, run)
    ensures Sound(RunAll(w, run)) && AllocationDistinct(RunAll(w, run))
    decreases |run|
  {
    if run != [] {
      StepSound(w, run[0]);
      StepDistinct(w, run[0]);
      RunSound(Step(w, run[0]), run[1..]);
    }
  }

  lemma {:induction false} RunNamed(w: World, run: seq<Event>)
    requires Sound(w) && NamedHeld(w) && NamedApart(w) && InTimeRun(w, run) && QuietRun(w, run)
    ensures NamedHeld(RunAll(w, run)) && NamedApart(RunAll(w, run))
    decreases |run|
  {
    if run != [] {
      StepSound(w, run[0]);
      StepNamed(w, run[0]);
      RunNamed(Step(w, run[0]), run[1..]);
    }
  }

  lemma {:induction false} RunNothingStray(w: World, run: seq<Event>)
    requires NothingStray(w)
    ensures NothingStray(RunAll(w, run))
    decreases |run|
  {
    if run != [] {
      StepNothingStray(w, run[0]);
      RunNothingStray(Step(w, run[0]), run[1..]);
    }
  }

  /** No CreateAction yet, and no coin pinned without a reservation. */
  ghost predicate Start(w: World) {
    w.flows == map[] && forall op :: op in w.rows && w.rows[op].reservedBy == "" ==> !w.rows[op].pinned
  }

  predicate InputOf(w: World, ref: Ref, op: Outpoint)
    requires ref in w.flows
  {
    op in w.flows[ref].named || op in w.flows[ref].allocation
  }

  /**
   In every interleaving, sweeps included, in which no sweep takes an action's coins and
   no action that named coins retries its funding, two actions in flight share no wallet-owned input, and no action's funder claims a coin
   the caller named.
   */
  lemma InputsAreDisjoint(w: World, run: seq<Event>, a: Ref, b: Ref, op: Outpoint)
    requires Start(w) && InTimeRun(w, run) && QuietRun(w, run)
    requires a in RunAll(w, run).flows && b in RunAll(w, run).flows
    requires !RunAll(w, run).flows[a].phase.Dead? && !RunAll(w, run).flows[b].phase.Dead?
    requires InputOf(RunAll(w, run), a, op) && InputOf(RunAll(w, run), b, op)
    ensures a == b
    ensures !(op in RunAll(w, run).flows[a].named && op in RunAll(w, run).flows[a].allocation)
    ensures op in RunAll(w, run).rows && RunAll(w, run).rows[op].reservedBy == a
  {
    RunSound(w, run);
    RunNamed(w, run);
    assert Holds(RunAll(w, run), a, op) && Holds(RunAll(w, run), b, op);
  }

  /** In every interleaving in which no sweep takes an action's coins, two actions in flight share no allocated coin. */
  lemma AllocationsAreDisjoint(w: World, run: seq<Event>, a: Ref, b: Ref, op: Outpoint)
    requires Start(w) && InTimeRun(w, run) && a in RunAll(w, run).flows && b in RunAll(w, run).flows
    requires !RunAll(w, run).flows[a].phase.Dead? && !RunAll(w, run).flows[b].phase.Dead?
    requires op in RunAll(w, run).flows[a].allocation && op in RunAll(w, run).flows[b].allocation
    ensures a == b
  {
    RunSound(w, run);
    assert Holds(RunAll(w, run), a, op) && Holds(RunAll(w, run), b, op);
  }

  /** In every interleaving at all, a failed action whose release succeeded holds nothing. */
  lemma DeadHoldsNothing(w: World, run: seq<Event>, ref: Ref, op: Outpoint)
    requires Start(w) && ref in RunAll(w, run).flows && RunAll(w, run).flows[ref].phase.Dead?
    ensures op in RunAll(w, run).rows ==> RunAll(w, run).rows[op].reservedBy != ref
  {
    RunNothingStray(w, run);
  }

  /** The condition on the sweep is exact. */
  lemma SweepKeepsInputsIff(w: World, ref: Ref, user: int)
    requires Sound(w) && NamedHeld(w) && NamedApart(w)
    ensures var w' := Step(w, SweepRelease(ref, user));
            AllocationHeld(w') && NamedHeld(w') <==> !SweepTakes(w, SweepRelease(ref, user))
  {
    var e := SweepRelease(ref, user);
    var w' := Step(w, e);
    if SweepTakes(w, e) {
      var op := if w.flows[ref].named != [] then w.flows[ref].named[0] else w.flows[ref].allocation[0];
      assert Holds(w, ref, op);
      assert w'.rows[op].reservedBy == "";
      assert !Holds(w', ref, op);
    } else {
      StepAllocationHeld(w, e);
      StepNamedHeld(w, e);
    }
  }

  /** What then happens: the sweep looks during the funding and releases after the persist, and another action takes the coin. */
  lemma SweepSharesCoin(w: World, op: Outpoint, a: Ref, b: Ref)
    requires Start(w) && op in w.rows && Claimable(w.rows[op]) && a != "" && b != "" && a != b
    requires forall o :: o in w.rows ==> w.rows[o].reservedBy != a && w.rows[o].reservedBy != b
    ensures var user := w.rows[op].user;
            var live := Step(Step(Step(w, Name(a, user, [op])), SweepRead(a)), Persist(a));
            Step(Step(live, SweepRelease(a, user)), Name(b, user, [op])).flows ==
            map[a := Flow(user, Live, [op], []), b := Flow(user, Funding, [op], [])]
  {
    var user := w.rows[op].user;
    assert Reservable(w.rows, a, user, op);
    var named := Step(w, Name(a, user, [op]));
    assert named.flows == map[a := Flow(user, Funding, [op], [])] && HeldBy(named.rows[op], user, a) && !named.rows[op].pinned;
    var live := Step(Step(named, SweepRead(a)), Persist(a));
    assert live.flows == map[a := Flow(user, Live, [op], [])] && live.rows == named.rows && a in live.swept;
    var swept := Step(live, SweepRelease(a, user));
    assert Reservable(swept.rows, b, user, op);
    assert forall o :: o in swept.rows ==> swept.rows[o].reservedBy != b;
    assert swept.flows[b := Flow(user, Funding, [op], [])] ==
           map[a := Flow(user, Live, [op], []), b := Flow(user, Funding, [op], [])];
  }

  /** The condition is exact: a retry keeps the named coins held exactly when there are none. */
  lemma RetryKeepsNamedIff(w: World, ref: Ref)
    requires Sound(w) && NamedHeld(w) && ref in w.flows && w.flows[ref].phase.Funding?
    ensures NamedHeld(Step(w, FundRetry(ref))) <==> w.flows[ref].named == []
  {
    var w' := Step(w, FundRetry(ref));
    if w.flows[ref].named != [] {
      var op := w.flows[ref].named[0];
      assert Holds(w, ref, op);
      assert w'.rows[op].reservedBy == "";
      assert !Holds(w', ref, op);
    } else {
      forall r, op | r in w'.flows && !w'.flows[r].phase.Dead? && op in w'.flows[r].named ensures Holds(w', r, op) {
        assert r != ref && Holds(w, r, op);
      }
    }
  }

  /**
   What then happens: the retried funder may claim the caller's own coin a second
   time, or another action may take it while the first goes on to persist.
   */
  lemma RetryLosesNamedCoin(w: World, op: Outpoint, a: Ref, b: Ref)
    requires Start(w) && op in w.rows && Claimable(w.rows[op]) && a != "" && b != "" && a != b
    requires forall o :: o in w.rows ==> w.rows[o].reservedBy != a && w.rows[o].reservedBy != b
    ensures var user := w.rows[op].user;
            var retried := Step(Step(w, Name(a, user, [op])), FundRetry(a));
            && Step(retried, FundClaim(a, op)).flows == map[a := Flow(user, Funding, [op], [op])]
            && Step(Step(retried, Persist(a)), Name(b, user, [op])).flows ==
               map[a := Flow(user, Live, [op], []), b := Flow(user, Funding, [op], [])]
  {
    var user := w.rows[op].user;
    var named := Step(w, Name(a, user, [op]));
    assert Reservable(w.rows, a, user, op);
    assert named.flows == map[a := Flow(user, Funding, [op], [])];
    var retried := Step(named, FundRetry(a));
    assert retried.flows == map[a := Flow(user, Funding, [op], [])];
    assert Claimable(retried.rows[op]) && retried.rows[op].user == user;
    var live := Step(retried, Persist(a));
    assert live.rows == retried.rows && live.flows == map[a := Flow(user, Live, [op], [])];
    assert Reservable(live.rows, b, user, op);
    assert forall o :: o in live.rows ==> live.rows[o].reservedBy != b;
    assert [] + [op] == [op];
    assert Step(retried, FundClaim(a, op)).flows == map[a := Flow(user, Funding, [op], [op])];
    assert live.flows[b := Flow(user, Funding, [op], [])] ==
           map[a := Flow(user, Live, [op], []), b := Flow(user, Funding, [op], [])];
    assert Step(live, Name(b, user, [op])).flows == live.flows[b := Flow(user, Funding, [op], [])];
  }

  // ---- the store's half ---------------------------------------------------------------------

  /** One round of a pass: what the store would hand out, how much of it the collector takes, whether it breaks. */
  datatype Round = Round(claims: seq<Outpoint>, consumed: nat, broken: bool)

  datatype Attempt = Attempt(rounds: seq<Round>, outcome: Outcome)

  datatype Outcome = FundedOk | Contention | HardError

  const MAX_FUNDING_ATTEMPTS: nat := 3

  predicate Unbroken(rounds: seq<Round>) {
    forall r :: r in rounds ==> !r.broken
  }

  /** Nothing changed but claimable coins of the user, now reserved. */
  ghost predicate OnlyClaimed(before: Rows, after: Rows, ref: Ref, user: int) {
    && after.Keys == before.Keys
    && forall op :: op in after && after[op] != before[op] ==>
         Claimable(before[op]) && before[op].user == user && after[op] == before[op].(reservedBy := ref)
  }

  /** Claiming a batch and releasing its tail is claiming its head. */
  lemma TailGivenBack(rows: Rows, ref: Ref, batch: seq<Outpoint>, n: nat)
    requires ref != "" && n <= |batch| && Distinct(batch)
    requires forall op :: op in batch ==> op in rows && Claimable(rows[op]) && !rows[op].pinned
    ensures ReleaseOutpoints(Stamped(rows, ref, batch), ref, batch[n..]) == Stamped(rows, ref, batch[..n])
  {
    var after := ReleaseOutpoints(Stamped(rows, ref, batch), ref, batch[n..]);
    assert batch == batch[..n] + batch[n..];
    forall op | op in rows ensures after[op] == Stamped(rows, ref, batch[..n])[op] {
      if op in batch[n..] {
        assert op !in batch[..n];
      }
    }
  }

  class Coins {
    var rows: Rows

    /** No free coin is pinned. */
    ghost predicate Valid()
      reads this
    {
      forall op :: op in rows && rows[op].reservedBy == "" ==> !rows[op].pinned
    }

    /** All or nothing: classify every named coin first, then stamp. */
    method ReserveOutpoints(ref: Ref, user: int, ops: seq<Outpoint>) returns (ok: bool)
      requires Valid() && ref != ""
      modifies this
      ensures Valid()
      ensures ok <==> ops != [] && forall op :: op in ops ==> Reservable(old(rows), ref, user, op)
      ensures rows == if ok then Stamped(old(rows), ref, ops) else old(rows)
    {
      if ops == [] { return false; }
      var toStamp: seq<Outpoint> := [];
      for i := 0 to |ops|
        invariant rows == old(rows)
        invariant forall k :: 0 <= k < i ==> Reservable(rows, ref, user, ops[k])
        invariant forall op :: op in toStamp ==> op in ops && op in rows
        invariant forall k :: 0 <= k < i ==> rows[ops[k]].reservedBy == ref || ops[k] in toStamp
      {
        if !Reservable(rows, ref, user, ops[i]) { return false; }
        if rows[ops[i]].reservedBy != ref { toStamp := toStamp + [ops[i]]; }
      }
      var before := rows;
      assert Stamped(before, ref, toStamp[..0]) == before;
      for i := 0 to |toStamp|
        invariant rows == Stamped(before, ref, toStamp[..i])
      {
        assert toStamp[..i + 1] == toStamp[..i] + [toStamp[i]];
        rows := rows[toStamp[i] := rows[toStamp[i]].(reservedBy := ref)];
      }
      assert toStamp[..|toStamp|] == toStamp;
      ok := true;
    }

    /** Reserves a batch: the coins handed out that are still claimable. */
    method ClaimBatch(ref: Ref, user: int, claims: seq<Outpoint>) returns (batch: seq<Outpoint>)
      requires Valid() && ref != ""
      modifies this
      ensures Valid() && rows == Stamped(old(rows), ref, batch) && Distinct(batch)
      ensures forall op :: op in batch ==> op in old(rows) && Claimable(old(rows)[op]) && old(rows)[op].user == user
    {
      batch := [];
      var before := rows;
      assert Stamped(before, ref, []) == before;
      for i := 0 to |claims|
        invariant rows == Stamped(before, ref, batch) && Distinct(batch)
        invariant forall op :: op in batch ==> op in before && Claimable(before[op]) && before[op].user == user
      {
        var op := claims[i];
        if op in rows && rows[op].user == user && Claimable(rows[op]) {
          rows := rows[op := rows[op].(reservedBy := ref)];
          batch := batch + [op];
        }
      }
    }

    /** Claims a batch, keeps its head and gives the unconsumed tail back as it was. */
    method DrainBatch(ref: Ref, user: int, round: Round) returns (head: seq<Outpoint>)
      requires Valid() && ref != ""
      modifies this
      ensures Valid() && OnlyClaimed(old(rows), rows, ref, user)
      ensures !round.broken ==> rows == Stamped(old(rows), ref, head) && |head| <= round.consumed
      ensures forall op :: op in head ==> op in old(rows) && Claimable(old(rows)[op]) && old(rows)[op].user == user
    {
      var batch := ClaimBatch(ref, user, round.claims);
      var n := if round.consumed < |batch| then round.consumed else |batch|;
      head := batch[..n];
      if round.broken { return; }
      TailGivenBack(old(rows), ref, batch, n);
      rows := ReleaseOutpoints(rows, ref, batch[n..]);
    }

    /**
     One selection pass. A pass that does not break holds, beyond what was held before,
     exactly the coins it allocated.
     */
    method FundOnce(ref: Ref, user: int, attempt: Attempt) returns (taken: seq<Outpoint>, outcome: Outcome)
      requires Valid() && ref != ""
      modifies this
      ensures Valid() && OnlyClaimed(old(rows), rows, ref, user)
      ensures outcome == if Unbroken(attempt.rounds) then attempt.outcome else HardError
      ensures Unbroken(attempt.rounds) ==> rows == Stamped(old(rows), ref, taken)
      ensures forall op :: op in taken ==> op in old(rows) && Claimable(old(rows)[op]) && old(rows)[op].user == user
    {
      taken := [];
      var before := rows;
      assert Stamped(before, ref, []) == before;
      for i := 0 to |attempt.rounds|
        invariant Valid() && rows == Stamped(before, ref, taken)
        invariant Unbroken(attempt.rounds[..i])
        invariant forall op :: op in taken ==> op in before && Claimable(before[op]) && before[op].user == user
      {
        var head := DrainBatch(ref, user, attempt.rounds[i]);
        taken := taken + head;
        if attempt.rounds[i].broken {
          assert attempt.rounds[i] in attempt.rounds;
          return taken, HardError;
        }
      }
      assert attempt.rounds[..|attempt.rounds|] == attempt.rounds;
      outcome := attempt.outcome;
    }

    /**
     The funder: retries a contended pass after releasing the whole token, and
     releases it on any failure. What was held under the token before survives a
     first-pass success, and nothing else.
     */
    method Fund(ref: Ref, user: int, attempts: seq<Attempt>) returns (ok: bool, passes: nat, taken: seq<Outpoint>)
      requires Valid() && ref != "" && |attempts| == MAX_FUNDING_ATTEMPTS
      modifies this
      ensures Valid() && 1 <= passes <= MAX_FUNDING_ATTEMPTS
      ensures ok ==> forall op :: op in taken ==> op in rows && HeldBy(rows[op], user, ref)
      ensures ok && passes == 1 ==> rows == Stamped(old(rows), ref, taken)
      ensures ok && passes > 1 ==>
                forall op :: op in rows && HeldBy(rows[op], user, ref) && !rows[op].pinned ==> op in taken
      ensures !ok ==> forall op :: op in rows && HeldBy(rows[op], user, ref) ==> rows[op].pinned
    {
      passes := 0;
      while true
        invariant Valid() && 0 <= passes < MAX_FUNDING_ATTEMPTS
        invariant passes == 0 ==> rows == old(rows)
        invariant passes > 0 ==> forall op :: op in rows && HeldBy(rows[op], user, ref) ==> rows[op].pinned
        decreases MAX_FUNDING_ATTEMPTS - passes
      {
        var outcome;
        taken, outcome := FundOnce(ref, user, attempts[passes]);
        passes := passes + 1;
        if outcome.FundedOk? { return true, passes, taken; }
        rows := ReleaseReservation(rows, user, ref);
        if outcome.HardError? || passes == MAX_FUNDING_ATTEMPTS { return false, passes, []; }
      }
    }
  }
}
