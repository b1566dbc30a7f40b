/**
 Arcade's transaction statuses and the lattice that decides which status may
 overwrite which. The enumeration is open: a status outside it may overwrite
 anything.
 */
module Wire {
  import opened Domain

  datatype Status =
    | Unknown | Received | SentToNetwork | AcceptedByNetwork | SeenOnNetwork | SeenMultipleNodes
    | DoubleSpendAttempted | Rejected | PendingRetry | StumpProcessing | Mined | Immutable
    | Other(name: string)

  predicate Confirmed(s: Status) {
    s.Mined? || s.Immutable?
  }

  function DisallowedPrevious(s: Status): set<Status> {
    match s
    case Unknown | Received =>
      {SentToNetwork, AcceptedByNetwork, SeenOnNetwork, SeenMultipleNodes, PendingRetry, StumpProcessing,
       Rejected, DoubleSpendAttempted, Mined, Immutable}
    case SentToNetwork =>
      {SentToNetwork, AcceptedByNetwork, SeenOnNetwork, SeenMultipleNodes, Rejected, DoubleSpendAttempted, Mined, Immutable}
    case AcceptedByNetwork =>
      {AcceptedByNetwork, SeenOnNetwork, SeenMultipleNodes, DoubleSpendAttempted, Mined, Immutable}
    case SeenOnNetwork =>
      {SeenOnNetwork, SeenMultipleNodes, PendingRetry, DoubleSpendAttempted, Mined, Immutable}
    case SeenMultipleNodes =>
      {SeenMultipleNodes, PendingRetry, DoubleSpendAttempted, Mined, Immutable}
    case PendingRetry =>
      {SeenOnNetwork, SeenMultipleNodes, Rejected, DoubleSpendAttempted, Mined, Immutable}
    case StumpProcessing =>
      {Rejected, DoubleSpendAttempted, Mined, Immutable}
    case Rejected | DoubleSpendAttempted => {Mined, Immutable}
    case Mined => {Immutable}
    case Immutable => {}
    case Other(_) => {}
  }

  predicate CanSupersede(s: Status, prev: Option<Status>) {
    prev.None? || prev.value == s || prev.value !in DisallowedPrevious(s)
  }

  /** The recorded status after one more record. */
  function Supersede(prev: Option<Status>, s: Status): Option<Status> {
    if CanSupersede(s, prev) then Some(s) else prev
  }

  function SupersedeAll(prev: Option<Status>, statuses: seq<Status>): Option<Status>
    decreases |statuses|
  {
    if statuses == [] then prev else SupersedeAll(Supersede(prev, statuses[0]), statuses[1..])
  }

  predicate IsConfirmed(o: Option<Status>) {
    o.Some? && Confirmed(o.value)
  }

  /** A confirmation with no status outside the enumeration after it. */
  ghost predicate Confirms(statuses: seq<Status>) {
    exists i :: 0 <= i < |statuses| && Confirmed(statuses[i]) && forall j :: i < j < |statuses| ==> !statuses[j].Other?
  }

  lemma ConfirmsTail(statuses: seq<Status>)
    requires statuses != []
    ensures Confirms(statuses) <==>
            (Confirms(statuses[1..]) || (Confirmed(statuses[0]) && forall s :: s in statuses[1..] ==> !s.Other?))
  {
    var rest := statuses[1..];
    if Confirms(statuses) {
      var i :| 0 <= i < |statuses| && Confirmed(statuses[i]) && forall j :: i < j < |statuses| ==> !statuses[j].Other?;
      if i == 0 {
        forall s | s in rest ensures !s.Other? {
          var j :| 0 <= j < |rest| && rest[j] == s;
          assert statuses[j + 1] == s;
        }
      } else {
        assert Confirmed(rest[i - 1]) && forall j :: i - 1 < j < |rest| ==> rest[j] == statuses[j + 1];
      }
    }
    if Confirms(rest) {
      var i :| 0 <= i < |rest| && Confirmed(rest[i]) && forall j :: i < j < |rest| ==> !rest[j].Other?;
      assert Confirmed(statuses[i + 1]) && forall j :: i + 1 < j < |statuses| ==> statuses[j] == rest[j - 1];
    }
    if Confirmed(statuses[0]) && forall s :: s in rest ==> !s.Other? {
      assert forall j :: 0 < j < |statuses| ==> statuses[j] == rest[j - 1];
    }
  }

  /**
   Exactly when a batch leaves a transaction confirmed: it holds a confirmation that
   no foreign status follows, or it was confirmed before and the batch holds no
   foreign status.
   */
  lemma {:induction false} EndsConfirmedIff(prev: Option<Status>, statuses: seq<Status>)
    ensures IsConfirmed(SupersedeAll(prev, statuses)) <==>
            (Confirms(statuses) || (IsConfirmed(prev) && forall s :: s in statuses ==> !s.Other?))
    decreases |statuses|
  {
    if statuses != [] {
      ConfirmsTail(statuses);
      EndsConfirmedIff(Supersede(prev, statuses[0]), statuses[1..]);
      assert statuses == [statuses[0]] + statuses[1..];
    }
  }

  /** A transaction with a MINED record among known statuses ends MINED or IMMUTABLE. */
  lemma MinedBatchEndsConfirmed(prev: Option<Status>, statuses: seq<Status>)
    requires Mined in statuses && forall s :: s in statuses ==> !s.Other?
    ensures IsConfirmed(SupersedeAll(prev, statuses))
  {
    EndsConfirmedIff(prev, statuses);
  }

  /** Applying a window twice is not applying it once. */
  lemma WindowReplayDiffers()
    ensures var window := [SeenOnNetwork, SentToNetwork];
            var once := SupersedeAll(Some(PendingRetry), window);
            once == Some(SentToNetwork) && SupersedeAll(once, window) == Some(SeenOnNetwork)
  {
    var window := [SeenOnNetwork, SentToNetwork];
    assert window[1..] == [SentToNetwork];
    assert window[1..][1..] == [];
    assert SupersedeAll(Some(PendingRetry), window) == SupersedeAll(Some(PendingRetry), window[1..]);
    assert SupersedeAll(Some(SentToNetwork), window) == SupersedeAll(Some(SeenOnNetwork), window[1..]);
  }
}
