/**
 The reconciler's passes over one suspect. A suspect is released on REJECTED only after
 an earlier pass also saw REJECTED, the grace before; what a release frees is decided by
 the spend-conflict rule where it applies. A pass loads the suspect's row first and acts
 on what it loaded; anything may happen to the row in between.
 */
module TwoPass {
  import opened Domain
  import opened Wire
  import opened SpendConflict

  datatype Row = Row(
    status: KnownStatus, since: Option<int>, stamp: Option<int>, cycle: nat,
    inputs: seq<Outpoint>,          // of the retained raw transaction
    competing: seq<TxId>)           // competitors stored when it was suspected

  /** The oracle's record of the suspect, its text already interpreted. */
  datatype Record = Record(status: Status, competing: seq<TxId>, textConflict: bool, spent: set<Outpoint>, spenders: seq<TxId>)

  datatype Verdict = NoRecord | Found(rec: Record)       // none: not found, error or empty answer

  predicate Recovered(s: Status) {
    s.SeenOnNetwork? || s.SeenMultipleNodes? || s.AcceptedByNetwork? || s.Mined? || s.Immutable?
  }

  datatype Limits = Limits(grace: int, maxQuarantine: int)

  // ---- one pass over one suspect ---------------------------------------------------

  /** Leaves the suspect, or escalates one that has sat past its quarantine. */
  function Left(row: Row, kt: Row, now: int, l: Limits): Row {
    if kt.since.Some? && now - kt.since.value >= l.maxQuarantine && row.status.KSuspectFailed?
    then row.(status := KStuck) else row
  }

  function Stamped(row: Row, now: int): Row {
    if row.status.KSuspectFailed? && row.stamp.None? then row.(stamp := Some(now)) else row
  }

  predicate SecondPass(kt: Row, now: int, l: Limits) {
    kt.stamp.Some? && now - kt.stamp.value >= l.grace
  }

  /** Whether the live record is of the spend-conflict class. */
  predicate ConflictClass(rec: Record) {
    rec.competing != [] || rec.textConflict
  }

  function EvidenceOf(kt: Row, rec: Record): Evidence {
    Evidence(rec.competing, kt.competing, rec.spent, rec.spenders)
  }

  /** The conflict rule decides: a double spend, or a second REJECTED of the conflict class. */
  predicate ByConflictRule(kt: Row, now: int, l: Limits, rec: Record) {
    rec.status.DoubleSpendAttempted? || (rec.status.Rejected? && SecondPass(kt, now, l) && ConflictClass(rec))
  }

  /** A second REJECTED outside the conflict class releases everything. */
  predicate PlainReject(kt: Row, now: int, l: Limits, rec: Record) {
    rec.status.Rejected? && SecondPass(kt, now, l) && !ConflictClass(rec)
  }

  /** The inputs a pass asks to free, before the gate on the row's status. */
  ghost function Asked(kt: Row, now: int, l: Limits, v: Verdict, view: View): Option<seq<Outpoint>> {
    if v.NoRecord? then None
    else if PlainReject(kt, now, l, v.rec) then Some(kt.inputs)
    else if ByConflictRule(kt, now, l, v.rec) && Decide(view, EvidenceOf(kt, v.rec), kt.inputs).ReleaseInputs?
    then Some(Decide(view, EvidenceOf(kt, v.rec), kt.inputs).inputs)
    else None
  }

  function Terminal(kt: Row, now: int, l: Limits, v: Verdict): KnownStatus {
    if v.Found? && PlainReject(kt, now, l, v.rec) then KInvalid else KDoubleSpend
  }

  /** The row after a pass that loaded `kt`; a recovered suspect is left to the status lifecycle. */
  ghost function Passed(row: Row, kt: Row, now: int, l: Limits, v: Verdict, view: View): Row {
    if Asked(kt, now, l, v, view).Some?
    then (if row.status.KSuspectFailed? then row.(status := Terminal(kt, now, l, v)) else row)
    else if v.NoRecord? then Left(row, kt, now, l)
    else if Recovered(v.rec.status) then row
    else if v.rec.status.Rejected? && kt.stamp.None? then Stamped(row, now)
    else if v.rec.status.Rejected? && !SecondPass(kt, now, l) then row
    else Left(row, kt, now, l)
  }

  /** What a pass frees. */
  ghost function Freed(row: Row, kt: Row, now: int, l: Limits, v: Verdict, view: View): seq<seq<Outpoint>> {
    if row.status.KSuspectFailed? && Asked(kt, now, l, v, view).Some? then [Asked(kt, now, l, v, view).value] else []
  }

  class Suspect {
    var status: KnownStatus
    var since: Option<int>
    var stamp: Option<int>
    ghost var cycle: nat
    var inputs: seq<Outpoint>
    var competing: seq<TxId>
    var released: seq<seq<Outpoint>>        // the inputs of each release

    ghost function Now(): Row
      reads this
    {
      Row(status, since, stamp, cycle, inputs, competing)
    }

    method TransitionSuspect(to: KnownStatus) returns (won: bool)
      modifies this`status
      ensures won <==> old(status).KSuspectFailed?
      ensures status == if won then to else old(status)
    {
      won := status.KSuspectFailed?;
      if won { status := to; }
    }

    method LeaveOrEscalate(kt: Row, now: int, l: Limits)
      modifies this`status
      ensures Now() == Left(old(Now()), kt, now, l)
    {
      if kt.since.Some? && now - kt.since.value >= l.maxQuarantine {
        var _ := TransitionSuspect(KStuck);
      }
    }

    method StampVerifiedRejected(now: int)
      modifies this`stamp
      ensures Now() == Stamped(old(Now()), now)
    {
      if status.KSuspectFailed? && stamp.None? { stamp := Some(now); }
    }

    /** The gate, then the release of exactly these inputs. */
    method ReleaseVerifiedDead(terminal: KnownStatus, ops: seq<Outpoint>)
      modifies this`status, this`released
      ensures Now() == if old(status).KSuspectFailed? then old(Now()).(status := terminal) else old(Now())
      ensures released == old(released) + if old(status).KSuspectFailed? then [ops] else []
    {
      var won := TransitionSuspect(terminal);
      if won { released := released + [ops]; }
    }

    /** The conflict rule on the evidence of record and row. */
    method ReleaseConflict(kt: Row, now: int, l: Limits, rec: Record, view: View)
      requires ByConflictRule(kt, now, l, rec)
      modifies this`status, this`released
      ensures Now() == Passed(old(Now()), kt, now, l, Found(rec), view)
      ensures released == old(released) + Freed(old(Now()), kt, now, l, Found(rec), view)
    {
      var d := ReleaseSpendConflict(view, EvidenceOf(kt, rec), kt.inputs);
      if d.ReleaseInputs? {
        ReleaseVerifiedDead(KDoubleSpend, d.inputs);
      } else {
        LeaveOrEscalate(kt, now, l);
      }
    }

    method HandleRejected(kt: Row, now: int, l: Limits, rec: Record, view: View)
      requires rec.status.Rejected?
      modifies this`status, this`stamp, this`released
      ensures Now() == Passed(old(Now()), kt, now, l, Found(rec), view)
      ensures released == old(released) + Freed(old(Now()), kt, now, l, Found(rec), view)
    {
      if kt.stamp.None? {
        StampVerifiedRejected(now);
      } else if now - kt.stamp.value >= l.grace {
        if rec.competing != [] || rec.textConflict {
          ReleaseConflict(kt, now, l, rec, view);
        } else {
          ReleaseVerifiedDead(KInvalid, kt.inputs);
        }
      }
    }

    method ReconcileSuspect(kt: Row, now: int, l: Limits, v: Verdict, view: View)
      modifies this`status, this`stamp, this`released
      ensures Now() == Passed(old(Now()), kt, now, l, v, view)
      ensures released == old(released) + Freed(old(Now()), kt, now, l, v, view)
    {
      if v.NoRecord? {
        LeaveOrEscalate(kt, now, l);
      } else if Recovered(v.rec.status) {
        return;
      } else if v.rec.status.Rejected? {
        HandleRejected(kt, now, l, v.rec, view);
      } else if v.rec.status.DoubleSpendAttempted? {
        ReleaseConflict(kt, now, l, v.rec, view);
      } else {
        LeaveOrEscalate(kt, now, l);
      }
    }
  }

  // ---- whole runs --------------------------------------------------------------------

  datatype State = State(
    now: int,
    row: Row,
    loaded: Option<Row>,
    saw: set<(nat, int)>,            // cycle and time of each pass that saw REJECTED
    freed: seq<Release>)

  /** A release: what the pass had loaded, what it was told, and what it freed. */
  datatype Release = Release(at: int, cycle: nat, kt: Row, rec: Record, view: View, inputs: seq<Outpoint>)

  datatype Event =
    | Tick(dt: nat)
    | MarkSuspect(competing: seq<TxId>)
    | Move(to: KnownStatus)          // any other writer of the row
    | Load
    | Act(v: Verdict, view: View)

  ghost function Step(l: Limits, s: State, e: Event): State {
    match e
    case Tick(dt) => s.(now := s.now + dt)
    case MarkSuspect(competing) => s.(row := Row(KSuspectFailed, Some(s.now), None, s.row.cycle + 1, s.row.inputs, competing))
    case Move(to) => if to.KSuspectFailed? then s else s.(row := s.row.(status := to))
    case Load =>
      if s.row.status.KSuspectFailed? && s.row.since.Some? && s.now - s.row.since.value >= l.grace
      then s.(loaded := Some(s.row)) else s
    case Act(v, view) =>
      if s.loaded.None? then s
      else
        var kt := s.loaded.value;
        s.(row := Passed(s.row, kt, s.now, l, v, view),
           loaded := None,
           saw := if v.Found? && v.rec.status.Rejected? then s.saw + {(s.row.cycle, s.now)} else s.saw,
           freed := if Freed(s.row, kt, s.now, l, v, view) == [] then s.freed
                    else s.freed + [Release(s.now, s.row.cycle, kt, v.rec, view, Freed(s.row, kt, s.now, l, v, view)[0])])
  }

  ghost function RunAll(l: Limits, s: State, run: seq<Event>): State
    decreases |run|
  {
    if run == [] then s else RunAll(l, Step(l, s, run[0]), run[1..])
  }

  ghost predicate Start(s: State) {
    s.row.stamp.None? && s.loaded.None? && s.saw == {} && s.freed == []
  }

  /** Every stamp anybody holds was put there by a pass that saw REJECTED then. */
  ghost predicate StampsSeen(s: State) {
    && (s.row.stamp.Some? ==> (s.row.cycle, s.row.stamp.value) in s.saw)
    && (s.loaded.Some? && s.loaded.value.stamp.Some? ==> (s.loaded.value.cycle, s.loaded.value.stamp.value) in s.saw)
    && (s.loaded.Some? ==> s.loaded.value.cycle <= s.row.cycle)
    && (forall p :: p in s.saw ==> p.0 <= if s.loaded.Some? then s.loaded.value.cycle else s.row.cycle)
  }

  /** A release rests on an earlier REJECTED pass, the grace before it, or on the conflict rule. */
  ghost predicate Backed(l: Limits, s: State, r: Release) {
    && (r.rec.status.Rejected? ==> && r.kt.stamp.Some? && (r.kt.cycle, r.kt.stamp.value) in s.saw
                                   && r.kt.stamp.value + l.grace <= r.at && r.kt.cycle <= r.cycle)
    && Asked(r.kt, r.at, l, Found(r.rec), r.view) == Some(r.inputs)
  }

  ghost predicate Inv(l: Limits, s: State) {
    StampsSeen(s) && forall r :: r in s.freed ==> Backed(l, s, r)
  }

  lemma StepKeepsInv(l: Limits, s: State, e: Event)
    requires Inv(l, s)
    ensures Inv(l, Step(l, s, e))
  {
    var s' := Step(l, s, e);
    forall r | r in s'.freed ensures Backed(l, s', r) {
      if r in s.freed { assert Backed(l, s, r); }
    }
  }

  lemma {:induction false} RunKeepsInv(l: Limits, s: State, run: seq<Event>)
    requires Inv(l, s)
    ensures Inv(l, RunAll(l, s, run))
    decreases |run|
  {
    if run != [] {
      StepKeepsInv(l, s, run[0]);
      RunKeepsInv(l, Step(l, s, run[0]), run[1..]);
    }
  }

  /** In every run, a release on REJECTED was preceded by a REJECTED pass at least the grace earlier. */
  lemma RejectedReleaseHasTwoPasses(l: Limits, s: State, run: seq<Event>, r: Release)
    requires Start(s) && r in RunAll(l, s, run).freed && r.rec.status.Rejected?
    ensures exists c, t :: (c, t) in RunAll(l, s, run).saw && t + l.grace <= r.at && c <= r.cycle
  {
    RunKeepsInv(l, s, run);
    assert Backed(l, RunAll(l, s, run), r);
  }

  /**
   In every run, under changing verdicts and views, a release was made on a second
   REJECTED or on a double spend; and unless it was a plain reject, every confirmed
   spender was readable, an own input was proven spent, a spender was resolved or
   nothing was freed, and what was freed are exactly the inputs that no named outpoint,
   confirmed spender or locally readable spender accounts for.
   */
  lemma ReleasesAreVerified(l: Limits, s: State, run: seq<Event>, r: Release)
    requires Start(s) && r in RunAll(l, s, run).freed
    ensures (r.rec.status.Rejected? && SecondPass(r.kt, r.at, l)) || r.rec.status.DoubleSpendAttempted?
    ensures PlainReject(r.kt, r.at, l, r.rec) ==> r.inputs == r.kt.inputs
    ensures !PlainReject(r.kt, r.at, l, r.rec) ==>
              var ev := EvidenceOf(r.kt, r.rec);
              && !SomeUnreadable(r.view, Spenders(ev)) && SomeOwnSpent(r.view, ev, Spenders(ev), r.kt.inputs)
              && (Resolved(r.view, Spenders(ev)) || r.inputs == [])
              && forall op :: op in r.inputs <==> op in r.kt.inputs && !ProvenSpent(r.view, ev, Spenders(ev), op)
  {
    RunKeepsInv(l, s, run);
    assert Backed(l, RunAll(l, s, run), r);
    DecideIff(r.view, EvidenceOf(r.kt, r.rec), r.kt.inputs);
    if r.inputs != [] { assert r.inputs[0] in r.inputs; }
  }

  // ---- the plain reject and stored competitors -------------------------------------------

  /** A loaded suspect, still suspect, about to be released on a second REJECTED outside the conflict class. */
  ghost predicate AboutToReject(l: Limits, s: State, rec: Record) {
    s.loaded.Some? && s.row.status.KSuspectFailed? && PlainReject(s.loaded.value, s.now, l, rec)
  }

  /** The release the pass makes. */
  ghost function Made(l: Limits, s: State, rec: Record, view: View): (r: Release)
    requires AboutToReject(l, s, rec)
    ensures Step(l, s, Act(Found(rec), view)).freed == s.freed + [r]
    ensures r.inputs == s.loaded.value.inputs
  {
    Step(l, s, Act(Found(rec), view)).freed[|s.freed|]
  }

  /** It frees an input that record, row, network and ledger prove spent. */
  ghost predicate FreesSpent(r: Release) {
    exists op :: op in r.inputs && ProvenSpent(r.view, EvidenceOf(r.kt, r.rec), Spenders(EvidenceOf(r.kt, r.rec)), op)
  }

  /**
   The plain reject looks at the live record alone. Whatever network and ledger say,
   its release frees no input proven spent, exactly when there are no inputs, or the
   competitors stored with the suspect and the text name no spender and the text names
   no own input.
   */
  lemma PlainRejectSafeIff(l: Limits, s: State, rec: Record)
    requires AboutToReject(l, s, rec)
    ensures var kt := s.loaded.value;
            (forall view :: !FreesSpent(Made(l, s, rec, view))) <==>
            (kt.inputs == [] || (Spenders(EvidenceOf(kt, rec)) == {} && forall op :: op in kt.inputs ==> op !in rec.spent))
  {
    var kt := s.loaded.value;
    var ev := EvidenceOf(kt, rec);
    if op :| op in kt.inputs && op in rec.spent {
      var r := Made(l, s, rec, View(map[], map[]));
      assert op in r.inputs && ProvenSpent(r.view, ev, Spenders(ev), op);
      assert FreesSpent(r);
    }
    if kt.inputs != [] && Spenders(ev) != {} {
      var t :| t in Spenders(ev);
      StoredCompetitorIgnored(l, s, rec, t);
    }
  }

  /** The network after which a competitor is mined and spends one outpoint. */
  function MinedOver(t: TxId, op: Outpoint): View {
    View(map[t := Answer(Mined, Parsed([Some(op)]))], map[])
  }

  /**
   The failing case: the live record names no competitor, the row remembers one, the
   competitor is mined over an input, and the pass frees that input.
   */
  lemma StoredCompetitorIgnored(l: Limits, s: State, rec: Record, t: TxId)
    requires AboutToReject(l, s, rec) && s.loaded.value.inputs != []
    requires t in Spenders(EvidenceOf(s.loaded.value, rec))
    ensures var op := s.loaded.value.inputs[0];
            var r := Made(l, s, rec, MinedOver(t, op));
            && rec.competing == [] && r in Step(l, s, Act(Found(rec), MinedOver(t, op))).freed && op in r.inputs
            && ProvenSpent(MinedOver(t, op), EvidenceOf(r.kt, r.rec), Spenders(EvidenceOf(r.kt, r.rec)), op) && FreesSpent(r)
  {
    var op := s.loaded.value.inputs[0];
    var raw := Parsed([Some(op)]);
    var r := Made(l, s, rec, MinedOver(t, op));
    assert raw.inputs[0].Some? && op in Consumed(raw);
    assert ConfirmedBy(r.view, t) && Ask(r.view, t).raw == raw;
    assert op in r.inputs && ProvenSpent(r.view, EvidenceOf(r.kt, r.rec), Spenders(EvidenceOf(r.kt, r.rec)), op);
  }

  // ---- the guard and the suspect cycle ------------------------------------------------

  /**
   A re-suspected transaction should start its two passes afresh. A release on
   REJECTED rests on a REJECTED pass of the row's present cycle, the grace before,
   exactly when the row was not suspected again between the load and the act.
   */
  lemma FreshCycleIff(l: Limits, s: State, v: Verdict, view: View)
    requires Inv(l, s) && s.loaded.Some? && v.Found? && v.rec.status.Rejected?
    requires Asked(s.loaded.value, s.now, l, v, view).Some?
    ensures (exists t :: (s.row.cycle, t) in s.saw && t + l.grace <= s.now) <==> s.loaded.value.cycle == s.row.cycle
  {
    var kt := s.loaded.value;
    if kt.cycle == s.row.cycle {
      assert (s.row.cycle, kt.stamp.value) in s.saw;
    }
  }

  /** It can fail: recovered and suspected again after the load, released on the first REJECTED of the new cycle. */
  lemma StaleLoadSkipsSecondPass(l: Limits, s: State, rec: Record, view: View)
    requires Inv(l, s) && s.loaded.Some? && s.loaded.value.cycle == s.row.cycle
    requires PlainReject(s.loaded.value, s.now, l, rec)
    ensures var s' := Step(l, Step(l, s, Move(KUnconfirmed)), MarkSuspect([]));
            && s'.row.stamp.None? && (forall p :: p in s'.saw ==> p.0 < s'.row.cycle)
            && Step(l, s', Act(Found(rec), view)).freed ==
               s.freed + [Release(s.now, s.row.cycle + 1, s.loaded.value, rec, view, s.loaded.value.inputs)]
  {
  }

  // ---- one release a cycle --------------------------------------------------------------

  ghost predicate OncePerCycle(s: State) {
    && (forall i, j :: 0 <= i < j < |s.freed| ==> s.freed[i].cycle < s.freed[j].cycle)
    && (forall r :: r in s.freed ==> r.cycle <= s.row.cycle && (r.cycle == s.row.cycle ==> !s.row.status.KSuspectFailed?))
  }

  lemma StepReleasesOnce(l: Limits, s: State, e: Event)
    requires OncePerCycle(s)
    ensures OncePerCycle(Step(l, s, e))
  {
    var s' := Step(l, s, e);
    if s'.freed != s.freed {
      forall r | r in s'.freed ensures r in s.freed || r == s'.freed[|s.freed|] {}
    }
  }

  /** In every run, two releases of a suspect lie in different suspect cycles. */
  lemma {:induction false} ReleasedOncePerCycle(l: Limits, s: State, run: seq<Event>)
    requires OncePerCycle(s)
    ensures OncePerCycle(RunAll(l, s, run))
    decreases |run|
  {
    if run != [] {
      StepReleasesOnce(l, s, run[0]);
      ReleasedOncePerCycle(l, Step(l, s, run[0]), run[1..]);
    }
  }
}
