/**
 The replay cursor of the status stream: a low-water mark that holds behind events
 a failed batch left un-applied. First its transitions as functions, then the
 tracker itself, whose methods are proved against them.
 */
module Cursor {
  import opened Domain

  /** An event id as received: absent, not a number, or a time stamp. */
  datatype EventId = NoId | Garbled(text: string) | Stamp(at: int)

  /** A held event, or a failed batch none of whose events carried an id. */
  datatype Key = ByEvent(id: EventId) | Untracked(n: nat)

  const FLUSH_BATCHES: nat := 64
  const HOLD_MAX_EVENTS: nat := 200000

  datatype Tracker = Tracker(
    durable: EventId,       // what the database holds
    pending: EventId,       // a safe position not yet written
    batches: nat,
    holding: bool,
    unapplied: set<Key>,
    held: nat,
    untracked: nat)

  predicate Less(a: EventId, b: EventId) {
    a.Stamp? && b.Stamp? && a.at < b.at
  }

  function Position(t: Tracker): EventId {
    if t.pending != NoId then t.pending else t.durable
  }

  function Newest(batch: seq<EventId>): EventId
    decreases |batch|
  {
    if batch == [] then NoId
    else if batch[|batch| - 1] != NoId then batch[|batch| - 1]
    else Newest(batch[..|batch| - 1])
  }

  function Keys(batch: seq<EventId>): set<Key> {
    set i | 0 <= i < |batch| && batch[i] != NoId :: ByEvent(batch[i])
  }

  function Released(t: Tracker): Tracker {
    t.(unapplied := {}, holding := false, held := 0, untracked := 0)
  }

  function ReleasedPastBound(t: Tracker): Tracker {
    if t.held < HOLD_MAX_EVENTS then t else Released(t)
  }

  /** A failed batch is remembered, and the cursor freezes. */
  function Remembered(t: Tracker, batch: seq<EventId>): Tracker {
    var lost := Keys(batch) == {};
    t.(unapplied := t.unapplied + (if lost then {Untracked(t.untracked + 1)} else Keys(batch)),
       untracked := t.untracked + if lost then 1 else 0,
       holding := true,
       held := t.held + |batch|)
  }

  function HoldStep(t: Tracker, batch: seq<EventId>): Tracker {
    ReleasedPastBound(Remembered(t, batch))
  }

  /** An applied batch clears its events from the hold. */
  function Cleared(t: Tracker, batch: seq<EventId>): Tracker {
    t.(unapplied := t.unapplied - Keys(batch), held := if t.holding then t.held + |batch| else t.held)
  }

  function Thawed(t: Tracker, batch: seq<EventId>): Tracker {
    var c := Cleared(t, batch);
    if !c.holding then c
    else if c.unapplied == {} then Released(c)
    else ReleasedPastBound(c)
  }

  function RecordStep(t: Tracker, batch: seq<EventId>): Tracker {
    var c := Thawed(t, batch);
    var newest := Newest(batch);
    if c.holding || newest == NoId || Less(newest, Position(c)) then c
    else c.(pending := newest, batches := c.batches + 1)
  }

  /** Whether the recorded batch makes a write due. */
  predicate FlushDue(t: Tracker, batch: seq<EventId>) {
    var c := Thawed(t, batch);
    var newest := Newest(batch);
    !c.holding && newest != NoId && !Less(newest, Position(c)) && c.batches + 1 >= FLUSH_BATCHES
  }

  function FlushStep(t: Tracker, writeOk: bool): Tracker {
    if t.pending == NoId || t.pending == t.durable then t.(batches := 0)
    else if !writeOk then t
    else t.(durable := t.pending, batches := 0)
  }

  class CursorTracker {
    var durable: EventId
    var pending: EventId
    var batches: nat
    var holding: bool
    var unapplied: set<Key>
    var held: nat
    var untracked: nat

    ghost function View(): Tracker
      reads this
    {
      Tracker(durable, pending, batches, holding, unapplied, held, untracked)
    }

    /** The tracker a process starts with, from the cursor it loaded. */
    constructor (loaded: EventId)
      ensures View() == Tracker(loaded, NoId, 0, false, {}, 0, 0)
    {
      durable, pending, batches := loaded, NoId, 0;
      holding, unapplied, held, untracked := false, {}, 0, 0;
    }

    method Hold(batch: seq<EventId>) returns (count: nat)
      modifies this
      ensures View() == HoldStep(old(View()), batch)
      ensures count == |unapplied|
    {
      var tracked := Remember(batch);
      if tracked == 0 {
        untracked := untracked + 1;
        unapplied := unapplied + {Untracked(untracked)};
      }
      holding := true;
      held := held + |batch|;
      ReleaseIfPastBound();
      count := |unapplied|;
    }

    /** Adds the ids of a failed batch to the held ones. */
    method Remember(batch: seq<EventId>) returns (tracked: nat)
      modifies this`unapplied
      ensures unapplied == old(unapplied) + Keys(batch)
      ensures tracked == 0 <==> Keys(batch) == {}
    {
      tracked := 0;
      assert Keys(batch[..0]) == {};
      for i := 0 to |batch|
        invariant unapplied == old(unapplied) + Keys(batch[..i])
        invariant tracked == 0 <==> Keys(batch[..i]) == {}
      {
        KeysSnoc(batch, i);
        if batch[i] != NoId {
          unapplied := unapplied + {ByEvent(batch[i])};
          tracked := tracked + 1;
        }
      }
      assert batch[..|batch|] == batch;
    }

    method ReleaseIfPastBound()
      modifies this
      ensures View() == ReleasedPastBound(old(View()))
    {
      if held < HOLD_MAX_EVENTS { return; }
      Release();
    }

    method Release()
      modifies this
      ensures View() == Released(old(View()))
    {
      unapplied, holding, held, untracked := {}, false, 0, 0;
    }

    method Record(batch: seq<EventId>, writeOk: bool)
      modifies this
      ensures View() == var t := RecordStep(old(View()), batch);
                        if FlushDue(old(View()), batch) then FlushStep(t, writeOk) else t
    {
      var newest := NewestEventId(batch);
      if unapplied != {} {
        ghost var before := unapplied;
        assert Keys(batch[..0]) == {};
        for i := 0 to |batch|
          invariant unapplied == before - Keys(batch[..i])
          invariant View() == old(View()).(unapplied := unapplied)
        {
          KeysSnoc(batch, i);
          unapplied := unapplied - if batch[i] != NoId then {ByEvent(batch[i])} else {};
        }
        assert batch[..|batch|] == batch;
      }
      if holding {
        held := held + |batch|;
        if unapplied == {} {
          Release();
        } else {
          ReleaseIfPastBound();
        }
        if holding { return; }
      }
      if newest == NoId { return; }
      if Less(newest, if pending != NoId then pending else durable) { return; }
      pending := newest;
      batches := batches + 1;
      if batches >= FLUSH_BATCHES { Flush(writeOk); }
    }

    method NewestEventId(batch: seq<EventId>) returns (id: EventId)
      ensures id == Newest(batch)
    {
      var i := |batch|;
      assert batch[..|batch|] == batch;
      while i > 0
        invariant 0 <= i <= |batch| && Newest(batch[..i]) == Newest(batch)
      {
        assert batch[..i][..i - 1] == batch[..i - 1];
        if batch[i - 1] != NoId { return batch[i - 1]; }
        i := i - 1;
      }
      return NoId;
    }

    method Flush(writeOk: bool)
      modifies this
      ensures View() == FlushStep(old(View()), writeOk)
    {
      if pending == NoId || pending == durable {
        batches := 0;
        return;
      }
      if !writeOk { return; }
      durable := pending;
      batches := 0;
    }

    /** The position a reconnect asks for. */
    method Resume(writeOk: bool) returns (from: EventId)
      modifies this
      ensures View() == FlushStep(old(View()), writeOk) && from == durable
    {
      Flush(writeOk);
      from := durable;
    }
  }

  lemma KeysSnoc(batch: seq<EventId>, i: nat)
    requires i < |batch|
    ensures Keys(batch[..i + 1]) == Keys(batch[..i]) + if batch[i] != NoId then {ByEvent(batch[i])} else {}
  {
    assert batch[..i + 1] == batch[..i] + [batch[i]];
    assert forall j :: 0 <= j < i ==> batch[..i + 1][j] == batch[..i][j];
  }
}
