/**
 The circuit breaker around Broadcast, under every interleaving of its critical
 sections: a permission check that may start a health probe, the return of a probe,
 and the recording of failures and successes.
 */
module Breaker {

  datatype Permission = Permit | Refuse | Probe

  datatype Config = Config(threshold: nat, probeInterval: int)

  class CircuitBreaker {
    const cfg: Config
    var consecutiveFailures: nat
    var open: bool
    var lastProbe: int
    ghost var probing: nat           // probes started and not returned
    ghost var probes: seq<int>       // when each probe started

    ghost function View(now: int): State
      reads this
    {
      State(now, consecutiveFailures, open, lastProbe, probing, probes)
    }

    constructor (cfg: Config, epoch: int)
      ensures this.cfg == cfg && View(epoch) == State(epoch, 0, false, epoch, 0, [])
    {
      this.cfg := cfg;
      consecutiveFailures, open, lastProbe, probing, probes := 0, false, epoch, 0, [];
    }

    /** The first critical section of allow; the clock is read twice in it. */
    method Check(ctxDead: bool, now: int, later: int) returns (p: Permission)
      requires now <= later
      modifies this`lastProbe, this`probing, this`probes
      ensures View(later) == Step(cfg, old(View(now)), Checked(ctxDead, now, later))
      ensures p == if cfg.threshold == 0 || !open then Permit
                   else if ctxDead || now - old(lastProbe) < cfg.probeInterval then Refuse else Probe
    {
      if cfg.threshold == 0 { return Permit; }
      if !open { return Permit; }
      if ctxDead || now - lastProbe < cfg.probeInterval { return Refuse; }
      lastProbe := later;
      probing, probes := probing + 1, probes + [later];
      return Probe;
    }

    /** The second critical section: a probe has returned. */
    method ProbeReturned(healthy: bool, now: int) returns (ok: bool)
      requires probing > 0
      modifies this`open, this`consecutiveFailures, this`probing
      ensures View(now) == Step(cfg, old(View(now)), Returned(healthy, now))
      ensures ok == healthy
    {
      probing := probing - 1;
      if healthy {
        open, consecutiveFailures := false, 0;
        return true;
      }
      return false;
    }

    method RecordFailure(now: int)
      modifies this`open, this`consecutiveFailures, this`lastProbe
      ensures View(now) == Step(cfg, old(View(now)), Failed(now))
    {
      if cfg.threshold == 0 { return; }
      consecutiveFailures := consecutiveFailures + 1;
      if consecutiveFailures >= cfg.threshold && !open {
        open := true;
        lastProbe := now;
      }
    }

    method RecordSuccess(now: int)
      modifies this`open, this`consecutiveFailures
      ensures View(now) == Step(cfg, old(View(now)), Succeeded(now))
    {
      if cfg.threshold == 0 { return; }
      consecutiveFailures, open := 0, false;
    }
  }

  // ---- runs ---------------------------------------------------------------------------

  datatype State = State(now: int, failures: nat, open: bool, lastProbe: int, probing: nat, probes: seq<int>)

  /** One critical section of some caller. */
  datatype Event =
    | Checked(ctxDead: bool, at: int, later: int)
    | Returned(healthy: bool, at: int)
    | Failed(at: int)
    | Succeeded(at: int)

  function Step(cfg: Config, s: State, e: Event): State {
    match e
    case Checked(ctxDead, at, later) =>
      var t := s.(now := later);
      if cfg.threshold == 0 || !s.open || ctxDead || at - s.lastProbe < cfg.probeInterval then t
      else t.(lastProbe := later, probing := s.probing + 1, probes := s.probes + [later])
    case Returned(healthy, at) =>
      var t := s.(now := at);
      if s.probing == 0 then t
      else if healthy then t.(probing := s.probing - 1, open := false, failures := 0)
      else t.(probing := s.probing - 1)
    case Failed(at) =>
      var t := s.(now := at);
      if cfg.threshold == 0 then t
      else if s.failures + 1 >= cfg.threshold && !s.open
      then t.(failures := s.failures + 1, open := true, lastProbe := at)
      else t.(failures := s.failures + 1)
    case Succeeded(at) =>
      var t := s.(now := at);
      if cfg.threshold == 0 then t else t.(failures := 0, open := false)
  }

  function RunAll(cfg: Config, s: State, run: seq<Event>): State
    decreases |run|
  {
    if run == [] then s else RunAll(cfg, Step(cfg, s, run[0]), run[1..])
  }

  /** The clock never runs back. */
  predicate InTime(s: State, e: Event) {
    s.now <= e.at && (e.Checked? ==> e.at <= e.later)
  }

  ghost predicate Monotone(cfg: Config, s: State, run: seq<Event>)
    decreases |run|
  {
    run == [] || (InTime(s, run[0]) && Monotone(cfg, Step(cfg, s, run[0]), run[1..]))
  }

  ghost predicate Start(s: State) {
    s.failures == 0 && !s.open && s.lastProbe <= s.now && s.probing == 0 && s.probes == []
  }

  // ---- open exactly behind a streak of failures -------------------------------------------

  /** Whether an event ends a streak: a success, or the return of a healthy probe. */
  predicate Resets(s: State, e: Event) {
    e.Succeeded? || (e.Returned? && e.healthy && s.probing > 0)
  }

  /** The failures since the last reset, counted over the run. */
  function Streak(cfg: Config, s: State, run: seq<Event>, soFar: nat): nat
    decreases |run|
  {
    if run == [] then soFar
    else Streak(cfg, Step(cfg, s, run[0]), run[1..],
                if Resets(s, run[0]) then 0 else if run[0].Failed? then soFar + 1 else soFar)
  }

  ghost predicate OpenInv(cfg: Config, s: State) {
    s.open <==> cfg.threshold > 0 && s.failures >= cfg.threshold
  }

  lemma {:induction false} OpenAtThreshold(cfg: Config, s: State, run: seq<Event>)
    requires OpenInv(cfg, s) && cfg.threshold > 0
    ensures OpenInv(cfg, RunAll(cfg, s, run))
    ensures RunAll(cfg, s, run).failures == Streak(cfg, s, run, s.failures)
    decreases |run|
  {
    if run != [] {
      OpenAtThreshold(cfg, Step(cfg, s, run[0]), run[1..]);
    }
  }

  lemma {:induction false} DisabledNeverOpens(cfg: Config, s: State, run: seq<Event>)
    requires cfg.threshold == 0 && !s.open && s.probes == [] && s.probing == 0
    ensures !RunAll(cfg, s, run).open && RunAll(cfg, s, run).probes == []
    decreases |run|
  {
    if run != [] {
      DisabledNeverOpens(cfg, Step(cfg, s, run[0]), run[1..]);
    }
  }

  /** In every run, the breaker is open exactly when the threshold is not zero and that many failures passed with no reset. */
  lemma OpenExactlyBehindStreak(cfg: Config, s: State, run: seq<Event>)
    requires Start(s)
    ensures RunAll(cfg, s, run).open <==> cfg.threshold > 0 && Streak(cfg, s, run, 0) >= cfg.threshold
  {
    if cfg.threshold > 0 {
      OpenAtThreshold(cfg, s, run);
    } else {
      DisabledNeverOpens(cfg, s, run);
    }
  }

  // ---- probes are throttled ------------------------------------------------------------------

  ghost predicate Spaced(cfg: Config, probes: seq<int>) {
    forall i, j :: 0 <= i < j < |probes| ==> probes[j] - probes[i] >= cfg.probeInterval
  }

  ghost predicate ProbeInv(cfg: Config, s: State) {
    && Spaced(cfg, s.probes)
    && (forall p :: p in s.probes ==> p <= s.lastProbe)
    && s.lastProbe <= s.now
  }

  lemma StepKeepsProbes(cfg: Config, s: State, e: Event)
    requires ProbeInv(cfg, s) && InTime(s, e)
    ensures ProbeInv(cfg, Step(cfg, s, e))
  {
    var s' := Step(cfg, s, e);
    if s'.probes != s.probes {
      forall i, j | 0 <= i < j < |s'.probes| ensures s'.probes[j] - s'.probes[i] >= cfg.probeInterval {
        assert s'.probes[i] == s.probes[i] && s.probes[i] in s.probes;
      }
    }
  }

  lemma {:induction false} RunKeepsProbes(cfg: Config, s: State, run: seq<Event>)
    requires ProbeInv(cfg, s) && Monotone(cfg, s, run)
    ensures ProbeInv(cfg, RunAll(cfg, s, run))
    decreases |run|
  {
    if run != [] {
      StepKeepsProbes(cfg, s, run[0]);
      RunKeepsProbes(cfg, Step(cfg, s, run[0]), run[1..]);
    }
  }

  /** In every run with a monotone clock, any two probes start at least the interval apart. */
  lemma ProbesAreSpaced(cfg: Config, s: State, run: seq<Event>)
    requires Start(s) && Monotone(cfg, s, run)
    ensures Spaced(cfg, RunAll(cfg, s, run).probes)
  {
    RunKeepsProbes(cfg, s, run);
  }
}
