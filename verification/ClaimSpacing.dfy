/**
 The send claim over whole runs: the plain claim of a txid is won at most once,
 and any two owned verdicts lie at least the resend grace apart.
 */
module ClaimSpacing {
  import opened Domain
  import opened Inventory
  import opened Protocol

  ghost predicate Spaced(times: seq<int>) {
    forall i, j :: 0 <= i < j < |times| ==> times[j] - times[i] >= RESEND_GRACE
  }

  ghost predicate ClaimOk(s: State, t: TxId) {
    && (t in s.known ==> s.known[t].updatedAt <= s.clock && (s.known[t].status.KSending? ==> t in s.owned))
    && (t in s.owned <==> t in s.claims)
    && (t in s.owned ==>
          && s.claims[t] == 1
          && t in s.known && NeverRequeue(s.known[t].status)
          && s.owned[t] != [] && Spaced(s.owned[t])
          && s.owned[t][|s.owned[t]| - 1] <= s.known[t].updatedAt)
  }

  ghost predicate ClaimInv(s: State) {
    forall t: TxId :: ClaimOk(s, t)
  }

  /** A later verdict keeps the spacing when it follows the last one by the grace. */
  lemma SpacedAppend(times: seq<int>, now: int)
    requires Spaced(times) && (times != [] ==> times[|times| - 1] <= now - RESEND_GRACE)
    ensures Spaced(times + [now])
  {
  }

  lemma MetaClaimOk(s: State, m: MetaWrite, t: TxId)
    requires ClaimOk(s, t)
    ensures ClaimOk(ApplyMeta(s, m), t)
  {
    if m.Reclaim? && m.txid == t && CanReclaim(s, t) {
      SpacedAppend(s.owned[t], s.clock);
    }
  }

  lemma StepClaimOk(s: State, a: Action, t: TxId)
    requires ClaimOk(s, t)
    ensures ClaimOk(Apply(s, a), t)
  {
    if a.Meta? { MetaClaimOk(s, a.m, t); }
  }

  lemma {:induction false} RunClaimInv(s: State, run: seq<Action>)
    requires ClaimInv(s)
    ensures ClaimInv(Run(s, run))
    decreases |run|
  {
    if run != [] {
      forall t: TxId ensures ClaimOk(Apply(s, run[0]), t) {
        StepClaimOk(s, run[0], t);
      }
      RunClaimInv(Apply(s, run[0]), run[1..]);
    }
  }

  lemma OwnedVerdictsAreSpaced(s: State, run: seq<Action>, txid: TxId)
    requires Init(s)
    ensures Claims(Run(s, run), txid) <= 1
    ensures Spaced(Owned(Run(s, run), txid))
    ensures Owned(Run(s, run), txid) != [] ==> Claims(Run(s, run), txid) == 1
  {
    RunClaimInv(s, run);
    assert ClaimOk(Run(s, run), txid);
  }
}
