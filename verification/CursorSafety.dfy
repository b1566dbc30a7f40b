/**
 The replay cursor over whole runs of the status stream: deliveries, batches that
 apply or fail, cursor writes that succeed or fail, reconnects and restarts. An event
 at or before the stored cursor was applied or given up, unless a connection made
 without a position left it out.
 */
module CursorSafety {
  import opened Domain
  import opened Cursor

  datatype System = System(
    tracker: Tracker,
    stored: EventId,          // the cursor in the database
    floor: EventId,           // where the current connection resumed
    queue: seq<int>,          // delivered, not yet in a batch
    processed: set<int>,      // put through a batch by this process
    applied: set<int>,        // applied at least once, ever
    forfeited: set<int>,      // left to the repair poll when a hold was given up
    seen: nat,                // events put through a batch, ever
    omitted: set<int>,        // earlier events the current connection does not replay
    missed: set<int>)         // events left out by a connection while the process did not have them, ever

  datatype Event =
    | Deliver(id: int)
    | Batch(k: nat, ok: bool, partly: set<int>, writeOk: bool)
    | Flush(writeOk: bool)
    | Reconnect(writeOk: bool, omit: set<int>)
    | Restart(loadOk: bool, omit: set<int>)

  function Ids(queue: seq<int>): seq<EventId> {
    seq(|queue|, i requires 0 <= i < |queue| => Stamp(queue[i]))
  }

  function SetOf(queue: seq<int>): set<int> {
    set i | 0 <= i < |queue| :: queue[i]
  }

  /** The events a hold was protecting when it was given up at its bound. */
  function GivenUp(t: Tracker): set<int> {
    if t.held < HOLD_MAX_EVENTS then {} else Protected(t)
  }

  function Protected(t: Tracker): set<int> {
    set k | k in t.unapplied && k.ByEvent? && k.id.Stamp? :: k.id.at
  }

  /** A process writes the cursor through its tracker: what it believes durable is what is stored. */
  function Written(s: System, t: Tracker): System {
    s.(tracker := t, stored := if t.durable != s.tracker.durable then t.durable else s.stored)
  }

  function BatchFails(s: System, batch: seq<int>, partly: set<int>): System {
    s.(tracker := HoldStep(s.tracker, Ids(batch)),
       forfeited := s.forfeited + GivenUp(Remembered(s.tracker, Ids(batch))),
       applied := s.applied + (SetOf(batch) * partly),
       processed := s.processed + SetOf(batch),
       seen := s.seen + |batch|)
  }

  function BatchApplies(s: System, batch: seq<int>): System {
    var c := Cleared(s.tracker, Ids(batch));
    s.(tracker := RecordStep(s.tracker, Ids(batch)),
       forfeited := s.forfeited + (if c.holding && c.unapplied != {} then GivenUp(c) else {}),
       applied := s.applied + SetOf(batch),
       processed := s.processed + SetOf(batch),
       seen := s.seen + |batch|)
  }

  /** What is applied, given up, or with the process. */
  function Had(s: System): set<int> {
    s.applied + s.forfeited + s.processed + SetOf(s.queue)
  }

  /** A connection resumes from a position. Made without one, it leaves out some of the earlier events. */
  function Connected(s: System, from: EventId, omit: set<int>): System {
    if from == NoId then s.(floor := from, omitted := omit, missed := s.missed + (omit - Had(s)))
    else s.(floor := from, omitted := {})
  }

  function Next(s: System, e: Event): System {
    match e
    case Deliver(id) => s.(queue := s.queue + [id])
    case Batch(k, ok, partly, writeOk) =>
      if k == 0 || k > |s.queue| then s
      else
        var batch := s.queue[..k];
        var s1 := s.(queue := s.queue[k..]);
        if !ok then BatchFails(s1, batch, partly)
        else
          var s2 := BatchApplies(s1, batch);
          if FlushDue(s1.tracker, Ids(batch)) then Written(s2, FlushStep(s2.tracker, writeOk)) else s2
    case Flush(writeOk) => Written(s, FlushStep(s.tracker, writeOk))
    case Reconnect(writeOk, omit) =>
      var s1 := Written(s, FlushStep(s.tracker, writeOk));
      Connected(s1, s1.tracker.durable, omit)
    case Restart(loadOk, omit) =>
      var loaded := if loadOk then s.stored else NoId;
      Connected(s.(tracker := Tracker(loaded, NoId, 0, false, {}, 0, 0), queue := [], processed := {}), loaded, omit)
  }

  function RunAll(s: System, run: seq<Event>): System
    decreases |run|
  {
    if run == [] then s else RunAll(Next(s, run[0]), run[1..])
  }

  // ---- the stream's promise ------------------------------------------------------

  predicate UpTo(x: int, p: EventId) {
    p.Stamp? && x <= p.at
  }

  /** Deliveries leave no gap above the position they resumed from, but for what the connection omits. Re-delivery is free. */
  ghost predicate NoGap(emitted: iset<int>, s: System, e: Event) {
    e.Deliver? ==>
      forall x :: x in emitted && x < e.id ==> UpTo(x, s.floor) || x in s.processed || x in s.queue || x in s.omitted
  }

  ghost predicate NoGapRun(emitted: iset<int>, s: System, run: seq<Event>)
    decreases |run|
  {
    run == [] || (NoGap(emitted, s, run[0]) && NoGapRun(emitted, Next(s, run[0]), run[1..]))
  }

  // ---- invariant -----------------------------------------------------------------

  /** Everything emitted up to `p` has been applied, was given up, or was left out. */
  ghost predicate Safe(emitted: iset<int>, s: System, p: EventId) {
    forall x :: x in emitted && UpTo(x, p) ==> x in s.applied || x in s.forfeited || x in s.missed
  }

  predicate Usable(p: EventId) {
    p.NoId? || p.Stamp?
  }

  ghost predicate Positions(emitted: iset<int>, s: System) {
    && Usable(s.stored) && Usable(s.floor) && Usable(s.tracker.durable) && Usable(s.tracker.pending)
    && Safe(emitted, s, s.stored) && Safe(emitted, s, s.floor)
    && Safe(emitted, s, s.tracker.durable) && Safe(emitted, s, s.tracker.pending)
  }

  /** What a batch left un-applied is held, and holding means something is. */
  ghost predicate HoldsUnapplied(s: System) {
    && (s.tracker.holding <==> s.tracker.unapplied != {})
    && (forall k :: k in s.tracker.unapplied ==> k.ByEvent? && k.id.Stamp? && k.id.at in s.processed)
    && (forall x :: x in s.processed ==> x in s.applied || x in s.forfeited || ByEvent(Stamp(x)) in s.tracker.unapplied)
  }

  ghost predicate QueueHasNoGap(emitted: iset<int>, s: System) {
    forall i, x :: 0 <= i < |s.queue| && x in emitted && x < s.queue[i] ==>
      x in s.applied || x in s.forfeited || x in s.missed || x in s.processed || x in s.queue[..i]
  }

  ghost predicate OmittedKnown(s: System) {
    forall x :: x in s.omitted ==> x in s.missed || x in Had(s)
  }

  ghost predicate Inv(emitted: iset<int>, s: System) {
    Positions(emitted, s) && HoldsUnapplied(s) && QueueHasNoGap(emitted, s) && OmittedKnown(s)
  }

  // ---- steps -----------------------------------------------------------------------

  lemma KeysOfIds(batch: seq<int>)
    ensures forall x :: ByEvent(Stamp(x)) in Keys(Ids(batch)) <==> x in SetOf(batch)
    ensures forall k :: k in Keys(Ids(batch)) ==> k.ByEvent? && k.id.Stamp?
    ensures batch != [] ==> Keys(Ids(batch)) != {} && Newest(Ids(batch)) == Stamp(batch[|batch| - 1])
  {
    forall x | x in SetOf(batch) ensures ByEvent(Stamp(x)) in Keys(Ids(batch)) {
      var i :| 0 <= i < |batch| && batch[i] == x;
      assert Ids(batch)[i] == Stamp(x);
    }
    if batch != [] {
      assert Ids(batch)[0] == Stamp(batch[0]);
      assert ByEvent(Stamp(batch[0])) in Keys(Ids(batch));
    }
  }

  lemma FailKeepsHold(s: System, batch: seq<int>, partly: set<int>)
    requires HoldsUnapplied(s) && batch != []
    ensures HoldsUnapplied(BatchFails(s, batch, partly))
  {
    KeysOfIds(batch);
    var mid := Remembered(s.tracker, Ids(batch));
    assert forall k :: k in mid.unapplied ==> k.id.at in Protected(mid);
    assert forall x :: ByEvent(Stamp(x)) in mid.unapplied ==> x in Protected(mid);
  }

  lemma ApplyKeepsHold(s: System, batch: seq<int>)
    requires HoldsUnapplied(s)
    ensures HoldsUnapplied(BatchApplies(s, batch))
  {
    KeysOfIds(batch);
    var c := Cleared(s.tracker, Ids(batch));
    assert forall x :: ByEvent(Stamp(x)) in c.unapplied ==> x in Protected(c);
  }

  /** The position moves only to a batch's last id, and only when nothing is left un-applied. */
  lemma ApplyKeepsPositions(emitted: iset<int>, s: System, queue: seq<int>, k: nat)
    requires 0 < k <= |queue| && s.queue == queue[k..]
    requires Positions(emitted, s) && HoldsUnapplied(s) && QueueHasNoGap(emitted, s.(queue := queue))
    ensures Positions(emitted, BatchApplies(s, queue[..k]))
  {
    var batch := queue[..k];
    KeysOfIds(batch);
    ApplyKeepsHold(s, batch);
    var s' := BatchApplies(s, batch);
    var newest := batch[k - 1];
    if s'.tracker.pending != s.tracker.pending {
      assert s'.tracker.pending == Stamp(newest) && s'.tracker.unapplied == {};
      forall x | x in emitted && x <= newest ensures x in s'.applied || x in s'.forfeited || x in s'.missed {
        assert queue[k - 1] == newest && queue[..k - 1] == batch[..k - 1];
        if x < newest && x in queue[..k - 1] {
          assert x in SetOf(batch);
        } else if x == newest {
          assert batch[k - 1] in SetOf(batch);
        }
      }
    }
  }

  lemma BatchKeepsQueue(emitted: iset<int>, s: System, s': System, queue: seq<int>, k: nat)
    requires 0 < k <= |queue| && QueueHasNoGap(emitted, s.(queue := queue)) && s'.queue == queue[k..]
    requires s.applied <= s'.applied && s.forfeited <= s'.forfeited && s'.processed == s.processed + SetOf(queue[..k])
    requires s'.missed == s.missed && s'.omitted == s.omitted && OmittedKnown(s.(queue := queue))
    ensures QueueHasNoGap(emitted, s') && OmittedKnown(s')
  {
    forall x | x in SetOf(queue) ensures x in SetOf(queue[..k]) || x in SetOf(queue[k..]) {
      var j :| 0 <= j < |queue| && queue[j] == x;
      if j < k { assert queue[..k][j] == x; } else { assert queue[k..][j - k] == x; }
    }
    forall i, x | 0 <= i < |s'.queue| && x in emitted && x < s'.queue[i]
      ensures x in s'.applied || x in s'.forfeited || x in s'.missed || x in s'.processed || x in s'.queue[..i]
    {
      assert s'.queue[i] == queue[k + i];
      if x in queue[..k + i] {
        var j :| 0 <= j < k + i && queue[j] == x;
        if j < k {
          assert queue[..k][j] in SetOf(queue[..k]);
        } else {
          assert s'.queue[..i][j - k] == x;
        }
      }
    }
  }

  lemma WrittenKeepsInv(emitted: iset<int>, s: System, writeOk: bool)
    requires Inv(emitted, s)
    ensures Inv(emitted, Written(s, FlushStep(s.tracker, writeOk)))
  {
    assert s.queue == Written(s, FlushStep(s.tracker, writeOk)).queue;
  }

  lemma BatchKeepsInv(emitted: iset<int>, s: System, k: nat, ok: bool, partly: set<int>, writeOk: bool)
    requires Inv(emitted, s)
    ensures Inv(emitted, Next(s, Batch(k, ok, partly, writeOk)))
  {
    if 0 < k <= |s.queue| {
      var batch, s1 := s.queue[..k], s.(queue := s.queue[k..]);
      assert s1.(queue := s.queue) == s;
      if !ok {
        var s2 := BatchFails(s1, batch, partly);
        FailKeepsHold(s1, batch, partly);
        BatchKeepsQueue(emitted, s1, s2, s.queue, k);
        assert Positions(emitted, s2);
      } else {
        var s2 := BatchApplies(s1, batch);
        ApplyKeepsHold(s1, batch);
        ApplyKeepsPositions(emitted, s1, s.queue, k);
        BatchKeepsQueue(emitted, s1, s2, s.queue, k);
        if FlushDue(s1.tracker, Ids(batch)) {
          WrittenKeepsInv(emitted, s2, writeOk);
        }
      }
    }
  }

  lemma StepKeepsInv(emitted: iset<int>, s: System, e: Event)
    requires Inv(emitted, s) && NoGap(emitted, s, e)
    ensures Inv(emitted, Next(s, e))
  {
    match e
    case Deliver(id) =>
      var s' := Next(s, e);
      forall i, x | 0 <= i < |s'.queue| && x in emitted && x < s'.queue[i]
        ensures x in s'.applied || x in s'.forfeited || x in s'.missed || x in s'.processed || x in s'.queue[..i]
      {
        assert s'.queue[..i] == if i < |s.queue| then s.queue[..i] else s.queue;
        if x in s.omitted && x in SetOf(s.queue) { assert x in s.queue; }
      }
      forall x | x in SetOf(s.queue) ensures x in SetOf(s'.queue) {
        var j :| 0 <= j < |s.queue| && s.queue[j] == x;
        assert s'.queue[j] == x;
      }
    case Batch(k, ok, partly, writeOk) => BatchKeepsInv(emitted, s, k, ok, partly, writeOk);
    case Flush(writeOk) => WrittenKeepsInv(emitted, s, writeOk);
    case Reconnect(writeOk, omit) =>
      WrittenKeepsInv(emitted, s, writeOk);
      assert s.queue == Next(s, e).queue;
    case Restart(_, _) =>
  }

  /** The first connection of a database without a cursor; it may leave out what was emitted before. */
  ghost predicate Start(s: System) {
    s == System(Tracker(NoId, NoId, 0, false, {}, 0, 0), NoId, NoId, [], {}, {}, {}, 0, s.omitted, s.omitted)
  }

  lemma {:induction false} RunKeepsInv(emitted: iset<int>, s: System, run: seq<Event>)
    requires Inv(emitted, s) && NoGapRun(emitted, s, run)
    ensures Inv(emitted, RunAll(s, run))
    decreases |run|
  {
    if run != [] {
      StepKeepsInv(emitted, s, run[0]);
      RunKeepsInv(emitted, Next(s, run[0]), run[1..]);
    }
  }

  /**
   In every run, an event at or before the stored cursor has been applied, or a hold on
   it was given up, or a connection made without a position left it out.
   */
  lemma SkippedWasLeftOut(emitted: iset<int>, s: System, run: seq<Event>, x: int)
    requires Start(s) && NoGapRun(emitted, s, run)
    requires x in emitted && UpTo(x, RunAll(s, run).stored)
    ensures x in RunAll(s, run).applied || x in RunAll(s, run).forfeited || x in RunAll(s, run).missed
  {
    RunKeepsInv(emitted, s, run);
  }

  predicate Connects(e: Event) {
    e.Restart? || e.Reconnect?
  }

  /** Every connection of the run resumes from a position. */
  ghost predicate ResumedRun(s: System, run: seq<Event>)
    decreases |run|
  {
    run == [] || ((Connects(run[0]) ==> Next(s, run[0]).floor != NoId) && ResumedRun(Next(s, run[0]), run[1..]))
  }

  lemma {:induction false} ResumedMissesNothing(s: System, run: seq<Event>)
    requires ResumedRun(s, run)
    ensures RunAll(s, run).missed == s.missed
    decreases |run|
  {
    if run != [] { ResumedMissesNothing(Next(s, run[0]), run[1..]); }
  }

  /**
   In every run whose connections after the first resume from a position, an event at
   or before the stored cursor, other than what the first connection left out, has been
   applied, or a hold on it was given up.
   */
  lemma NothingSkipped(emitted: iset<int>, s: System, run: seq<Event>, x: int)
    requires Start(s) && NoGapRun(emitted, s, run) && ResumedRun(s, run)
    requires x in emitted && x !in s.omitted && UpTo(x, RunAll(s, run).stored)
    ensures x in RunAll(s, run).applied || x in RunAll(s, run).forfeited
  {
    SkippedWasLeftOut(emitted, s, run, x);
    ResumedMissesNothing(s, run);
  }

  // ---- a hold is given up only at its bound -------------------------------------------

  ghost predicate BoundInv(s: System) {
    s.tracker.held <= s.seen && (s.forfeited != {} ==> s.seen >= HOLD_MAX_EVENTS)
  }

  lemma {:induction false} RunKeepsBound(s: System, run: seq<Event>)
    requires BoundInv(s)
    ensures BoundInv(RunAll(s, run))
    decreases |run|
  {
    if run != [] {
      assert forall batch: seq<int> :: |Ids(batch)| == |batch|;
      RunKeepsBound(Next(s, run[0]), run[1..]);
    }
  }

  /** With fewer events than the bound, nothing at or before the stored cursor is un-applied. */
  lemma NothingLostBelowBound(emitted: iset<int>, s: System, run: seq<Event>, x: int)
    requires Start(s) && NoGapRun(emitted, s, run)
    requires x in emitted && UpTo(x, RunAll(s, run).stored) && RunAll(s, run).seen < HOLD_MAX_EVENTS
    ensures x in RunAll(s, run).applied || x in RunAll(s, run).missed
    ensures ResumedRun(s, run) && x !in s.omitted ==> x in RunAll(s, run).applied
  {
    SkippedWasLeftOut(emitted, s, run, x);
    if ResumedRun(s, run) { ResumedMissesNothing(s, run); }
    RunKeepsBound(s, run);
  }

  // ---- exactly when a connection skips an event ---------------------------------------

  ghost predicate NoConnection(run: seq<Event>) {
    forall e :: e in run ==> !Connects(e)
  }

  predicate Skipped(s: System, x: int) {
    UpTo(x, s.stored) && x !in s.applied && x !in s.forfeited
  }

  /** A stream that has lost nothing so far goes on without a gap after `e`, and the cursor passes `x`. */
  ghost predicate SkipsAfter(emitted: iset<int>, s: System, e: Event, run: seq<Event>, x: int) {
    && Inv(emitted, s) && x in emitted
    && NoConnection(run) && NoGapRun(emitted, Next(s, e), run) && Skipped(RunAll(Next(s, e), run), x)
  }

  /** The connection was made without a position, and leaves out an event the process does not have. */
  predicate LeavesOut(s: System, e: Event, x: int)
    requires Connects(e)
  {
    Next(s, e).floor == NoId && x in e.omit && x !in Had(Next(s, e))
  }

  lemma {:induction false} NoConnectionKeepsMissed(s: System, run: seq<Event>)
    requires NoConnection(run)
    ensures RunAll(s, run).missed == s.missed
    decreases |run|
  {
    if run != [] {
      assert run[0] in run && !Connects(run[0]);
      NoConnectionKeepsMissed(Next(s, run[0]), run[1..]);
    }
  }

  function Deliveries(ids: seq<int>): seq<Event> {
    seq(|ids|, i requires 0 <= i < |ids| => Deliver(ids[i]))
  }

  lemma {:induction false} RunConcat(s: System, run: seq<Event>, more: seq<Event>)
    ensures RunAll(s, run + more) == RunAll(RunAll(s, run), more)
    decreases |run|
  {
    if run == [] {
      assert run + more == more;
    } else {
      assert (run + more)[1..] == run[1..] + more;
      RunConcat(Next(s, run[0]), run[1..], more);
    }
  }

  lemma {:induction false} NoGapConcat(emitted: iset<int>, s: System, run: seq<Event>, more: seq<Event>)
    ensures NoGapRun(emitted, s, run + more) <==> NoGapRun(emitted, s, run) && NoGapRun(emitted, RunAll(s, run), more)
    decreases |run|
  {
    if run == [] {
      assert run + more == more;
    } else {
      assert (run + more)[1..] == run[1..] + more;
      NoGapConcat(emitted, Next(s, run[0]), run[1..], more);
    }
  }

  lemma RunOfTwo(emitted: iset<int>, s: System, a: Event, b: Event)
    requires !a.Deliver? && !b.Deliver?
    ensures RunAll(s, [a, b]) == Next(Next(s, a), b) && NoGapRun(emitted, s, [a, b])
  {
    assert [a, b][1..] == [b] && [b][1..] == [];
    assert RunAll(s, [a, b]) == RunAll(Next(s, a), [b]) == RunAll(Next(Next(s, a), b), []);
    assert NoGapRun(emitted, Next(s, a), [b]);
  }

  /** With everything emitted left out, any deliveries are without a gap. */
  lemma {:induction false} Delivered(emitted: iset<int>, s: System, ids: seq<int>)
    requires forall x :: x in emitted ==> x in s.omitted
    ensures RunAll(s, Deliveries(ids)) == s.(queue := s.queue + ids)
    ensures NoGapRun(emitted, s, Deliveries(ids))
    decreases |ids|
  {
    if ids == [] {
      assert s.queue + ids == s.queue;
    } else {
      assert Deliveries(ids)[1..] == Deliveries(ids[1..]);
      Delivered(emitted, Next(s, Deliver(ids[0])), ids[1..]);
      assert s.queue + [ids[0]] + ids[1..] == s.queue + ids;
    }
  }

  lemma {:induction false} Listed(xs: set<int>) returns (ids: seq<int>)
    ensures SetOf(ids) == xs
    decreases |xs|
  {
    ids := [];
    if x :| x in xs {
      var rest := Listed(xs - {x});
      ids := rest + [x];
      forall y | y in xs ensures y in SetOf(ids) {
        if y == x {
          assert ids[|rest|] == x;
        } else {
          assert y in SetOf(rest);
          var i :| 0 <= i < |rest| && rest[i] == y;
          assert ids[i] == y;
        }
      }
      forall y | y in SetOf(ids) ensures y in xs {
        var i :| 0 <= i < |ids| && ids[i] == y;
        if i < |rest| { assert rest[i] in SetOf(rest); }
      }
    } else {
      assert SetOf([]) == {};
      assert forall y :: y in xs ==> y in SetOf([]);
    }
  }

  /** Applying a whole queue that holds every held event and ends in a new high id moves the cursor there. */
  lemma DrainMovesTo(s: System, y: int)
    requires HoldsUnapplied(s) && s.queue != [] && s.queue[|s.queue| - 1] == y
    requires forall x :: x in Protected(s.tracker) ==> x in SetOf(s.queue)
    requires !Less(Stamp(y), s.tracker.pending) && !Less(Stamp(y), s.tracker.durable)
    ensures var s' := Next(Next(s, Batch(|s.queue|, true, {}, true)), Flush(true));
            s'.stored == Stamp(y) || s.tracker.durable == Stamp(y)
    ensures var s' := Next(Next(s, Batch(|s.queue|, true, {}, true)), Flush(true));
            s'.applied == s.applied + SetOf(s.queue) && s'.forfeited == s.forfeited
  {
    var n := |s.queue|;
    assert s.queue[..n] == s.queue && s.queue[n..] == [];
    KeysOfIds(s.queue);
    var s1 := s.(queue := []);
    var c := Cleared(s.tracker, Ids(s.queue));
    forall k | k in s.tracker.unapplied ensures k in Keys(Ids(s.queue)) {
      assert k.id.at in Protected(s.tracker);
      assert ByEvent(Stamp(k.id.at)) in Keys(Ids(s.queue));
    }
    assert c.unapplied == {};
    var s2 := BatchApplies(s1, s.queue);
    assert s2.tracker.pending == Stamp(y) && s2.tracker.durable == s.tracker.durable;
    assert s2.stored == s.stored && s2.forfeited == s.forfeited;
  }

  /**
   Exactly when a connection lets the cursor pass an event for good: some gap-free
   continuation of some stream does, if and only if the connection was made without a
   position and leaves out an event the process does not have.
   */
  lemma SkipsIff(s: System, e: Event, x: int)
    requires Connects(e) && Inv(iset{x}, s) && x !in s.missed
    ensures (exists emitted, run :: SkipsAfter(emitted, s, e, run, x)) <==> LeavesOut(s, e, x)
  {
    if LeavesOut(s, e, x) {
      var run := SkippingRun(s, e, x);
      assert SkipsAfter(iset{x}, s, e, run, x);
    } else {
      forall emitted, run ensures !SkipsAfter(emitted, s, e, run, x) {
        if Inv(emitted, s) && x in emitted && NoConnection(run) && NoGapRun(emitted, Next(s, e), run) {
          StepKeepsInv(emitted, s, e);
          RunKeepsInv(emitted, Next(s, e), run);
          NoConnectionKeepsMissed(Next(s, e), run);
        }
      }
    }
  }

  /** The held events once more, then a later one: the batch applies and the cursor is written. */
  lemma SkippingRun(s: System, e: Event, x: int) returns (run: seq<Event>)
    requires Connects(e) && Inv(iset{x}, s) && x !in s.missed && LeavesOut(s, e, x)
    ensures SkipsAfter(iset{x}, s, e, run, x)
  {
    var s1 := Next(s, e);
    StepKeepsInv(iset{x}, s, e);
    var heldIds := Listed(Protected(s1.tracker));
    var ids := heldIds + [x + 1];
    var s2 := s1.(queue := s1.queue + ids);
    Delivered(iset{x}, s1, ids);
    var tail := [Batch(|s2.queue|, true, {}, true), Flush(true)];
    run := Deliveries(ids) + tail;
    RunConcat(s1, Deliveries(ids), tail);
    NoGapConcat(iset{x}, s1, Deliveries(ids), tail);
    RunOfTwo(iset{x}, s2, tail[0], tail[1]);
    QueueEnds(s1, s2, heldIds, x);
    DrainMovesTo(s2, x + 1);
  }

  lemma QueueEnds(s1: System, s2: System, heldIds: seq<int>, x: int)
    requires s2.queue == s1.queue + (heldIds + [x + 1]) && SetOf(heldIds) == Protected(s1.tracker)
    requires HoldsUnapplied(s1) && x !in Had(s1)
    ensures s2.queue[|s2.queue| - 1] == x + 1 && x !in SetOf(s2.queue)
    ensures forall y :: y in Protected(s1.tracker) ==> y in SetOf(s2.queue)
  {
    var n := |s1.queue|;
    forall i | 0 <= i < |s2.queue| ensures s2.queue[i] != x {
      if i < n {
        assert s1.queue[i] in SetOf(s1.queue);
      } else if i < n + |heldIds| {
        assert heldIds[i - n] in SetOf(heldIds);
      }
    }
    forall y | y in Protected(s1.tracker) ensures y in SetOf(s2.queue) {
      var i :| 0 <= i < |heldIds| && heldIds[i] == y;
      assert s2.queue[n + i] == y;
    }
  }

  /** One event delivered, applied and written, to a process that has nothing yet. */
  ghost predicate Alone(s: System) {
    s.tracker == Tracker(NoId, NoId, 0, false, {}, 0, 0) && s.queue == [] && s.processed == {} && s.floor == NoId
  }

  function OneEvent(y: int): seq<Event> {
    [Deliver(y), Batch(1, true, {}, true), Flush(true)]
  }

  lemma OneEventMovesTo(emitted: iset<int>, s: System, y: int)
    requires Alone(s) && forall x :: x in emitted && x < y ==> x in s.omitted
    ensures var s' := RunAll(s, OneEvent(y));
            s'.stored == Stamp(y) && s'.applied == s.applied + {y} && s'.forfeited == s.forfeited
    ensures NoGapRun(emitted, s, OneEvent(y)) && NoConnection(OneEvent(y))
  {
    var run := OneEvent(y);
    var s1 := Next(s, run[0]);
    assert s1.queue == [y];
    KeysOfIds([y]);
    assert s1.queue[..1] == [y] && s1.queue[1..] == [] && SetOf([y]) == {y};
    var s2 := Next(s1, run[1]);
    assert s2.tracker.pending == Stamp(y) && s2.tracker.durable == NoId;
    var s3 := Next(s2, run[2]);
    assert run[1..] == [run[1], run[2]] && run[1..][1..] == [run[2]] && run[1..][1..][1..] == [];
    assert RunAll(s, run) == RunAll(s1, run[1..]) == RunAll(s2, run[1..][1..]) == RunAll(s3, []);
    assert NoGapRun(emitted, s3, []) && NoGapRun(emitted, s2, [run[2]]) && NoGapRun(emitted, s1, run[1..]);
  }

  /** The failing family of a failed load: an event above the stored cursor is left out and the cursor passes it. */
  lemma FailedLoadSkips(s: System, x: int, y: int)
    requires s.stored.Stamp? && s.stored.at < x < y && x !in s.applied && x !in s.forfeited
    ensures var restarted := Next(s, Restart(false, {x}));
            && NoGapRun(iset{x, y}, restarted, OneEvent(y))
            && RunAll(restarted, OneEvent(y)).stored == Stamp(y) && Skipped(RunAll(restarted, OneEvent(y)), x)
  {
    OneEventMovesTo(iset{x, y}, Next(s, Restart(false, {x})), y);
  }

  /** The failing family without a fault in the load: the first batch fails, and the restart has no cursor to load. */
  lemma ColdRestartSkips(s: System, x: int, y: int)
    requires Start(s) && x < y
    ensures var s' := Next(Next(Next(s, Deliver(x)), Batch(1, false, {}, true)), Restart(true, {x}));
            && NoGapRun(iset{x, y}, s, [Deliver(x)]) && NoGapRun(iset{x, y}, s', OneEvent(y))
            && RunAll(s', OneEvent(y)).stored == Stamp(y) && Skipped(RunAll(s', OneEvent(y)), x)
  {
    var s1 := Next(s, Deliver(x));
    assert s1.queue == [x] && s1.queue[..1] == [x];
    KeysOfIds([x]);
    var s2 := Next(s1, Batch(1, false, {}, true));
    assert s2.stored == NoId && x !in s2.applied && x !in s2.forfeited;
    assert NoGapRun(iset{x, y}, s1, [Deliver(x)][1..]);
    OneEventMovesTo(iset{x, y}, Next(s2, Restart(true, {x})), y);
  }

  // ---- the cursor never moves back ------------------------------------------------------

  predicate AtMost(a: EventId, b: EventId) {
    a.NoId? || (a.Stamp? && b.Stamp? && a.at <= b.at)
  }

  /** The process started from the stored cursor, and owes only later positions. */
  ghost predicate InStep(s: System) {
    && Usable(s.tracker.durable) && Usable(s.tracker.pending) && s.tracker.durable == s.stored
    && (s.tracker.pending != NoId ==> AtMost(s.tracker.durable, s.tracker.pending))
  }

  predicate Loads(e: Event) {
    e.Restart? ==> e.loadOk
  }

  lemma BatchMovesForward(s: System, batch: seq<int>)
    requires InStep(s) && batch != []
    ensures InStep(BatchApplies(s, batch))
  {
    KeysOfIds(batch);
  }

  lemma StepMovesForward(s: System, e: Event)
    requires InStep(s) && Loads(e)
    ensures InStep(Next(s, e)) && AtMost(s.stored, Next(s, e).stored)
  {
    if e.Batch? && 0 < e.k <= |s.queue| {
      BatchMovesForward(s.(queue := s.queue[e.k..]), s.queue[..e.k]);
    }
  }

  /** While every restart loads its cursor, the stored cursor never decreases and never becomes empty again. */
  lemma {:induction false} CursorNeverMovesBack(s: System, run: seq<Event>)
    requires InStep(s) && forall e :: e in run ==> Loads(e)
    ensures InStep(RunAll(s, run)) && AtMost(s.stored, RunAll(s, run).stored)
    decreases |run|
  {
    if run != [] {
      StepMovesForward(s, run[0]);
      CursorNeverMovesBack(Next(s, run[0]), run[1..]);
    }
  }

  /** A restart keeps the process in step exactly when it loaded its cursor or there was none to load. */
  lemma RestartInStepIff(s: System, loadOk: bool, omit: set<int>)
    requires InStep(s)
    ensures InStep(Next(s, Restart(loadOk, omit))) <==> (loadOk || s.stored == NoId)
  {
  }

  ghost predicate NoRestart(run: seq<Event>) {
    forall e :: e in run ==> !e.Restart?
  }

  /** After a failed load, the first event delivered from before the stored cursor becomes the stored cursor. */
  lemma FailedLoadMovesBack(s: System, omit: set<int>, x: int)
    requires InStep(s) && s.stored.Stamp? && x < s.stored.at
    ensures var restarted := Next(s, Restart(false, omit));
            RunAll(restarted, OneEvent(x)).stored == Stamp(x) && NoGapRun(iset{x, s.stored.at}, restarted, OneEvent(x))
  {
    OneEventMovesTo(iset{x, s.stored.at}, Next(s, Restart(false, omit)), x);
  }

  /** A run without a restart and without a gap ends with a cursor before `stored`. */
  ghost predicate TakesBack(emitted: iset<int>, stored: EventId, s: System, run: seq<Event>) {
    NoRestart(run) && NoGapRun(emitted, s, run) && !AtMost(stored, RunAll(s, run).stored)
  }

  /**
   Exactly when the stored cursor can move back: some run without a further restart,
   with no gap in its deliveries, takes it back if and only if the restart failed to
   load a cursor that was there.
   */
  lemma MovesBackIff(s: System, loadOk: bool, omit: set<int>)
    requires InStep(s)
    ensures (exists emitted, run :: TakesBack(emitted, s.stored, Next(s, Restart(loadOk, omit)), run)) <==> (!loadOk && s.stored.Stamp?)
  {
    var restarted := Next(s, Restart(loadOk, omit));
    if !loadOk && s.stored.Stamp? {
      var x := s.stored.at - 1;
      FailedLoadMovesBack(s, omit, x);
      assert TakesBack(iset{x, s.stored.at}, s.stored, restarted, OneEvent(x));
    } else {
      RestartInStepIff(s, loadOk, omit);
      forall emitted, run ensures !TakesBack(emitted, s.stored, restarted, run) {
        if NoRestart(run) { CursorNeverMovesBack(restarted, run); }
      }
    }
  }
}
