/** The recovery sweep: unknown bets become final only on an authoritative provider's word. */
module UnknownRecovery {
  import opened Bets
  import opened Outcomes

  datatype Status = ByCashOut | ByLoss | ByFailure

  /** The provider's answer for one bet; an absent status means that nothing is established. */
  datatype Evidence = Threw | Evidence(status: Option<Status>, cashOutMultiplier: Option<real>)

  /** What surrounds one sweep: the rounds on record, the provider if one is configured, the bets
      whose update fails, and whether the query and the warning event get through. */
  datatype Surroundings = Surroundings(
    rounds: set<nat>, provider: Option<nat -> Evidence>, updateFails: set<nat>, queryOk: bool, emitOk: bool)

  datatype SweepResult = SweepResult(
    totalUnknown: nat, resolved: nat, manualReviewRequired: nat, stillUnknown: nat, results: seq<bool>)

  /** A bet that the sweep may settle. */
  predicate Confirmed(env: Surroundings, id: nat, bet: Bet) {
    && bet.roundId.Some? && bet.roundId.value in env.rounds && env.provider.Some?
    && env.provider.value(id).Evidence? && env.provider.value(id).status.Some?
    && id !in env.updateFails
  }

  function CashOutPnl(stake: real, multiplier: real): real {
    RoundCents(stake * multiplier - stake)
  }

  /** The bet that the provider's status makes of it. */
  function Settled(env: Surroundings, id: nat, bet: Bet): Bet
    requires Confirmed(env, id, bet)
  {
    var e := env.provider.value(id);
    match e.status.value
    case ByCashOut =>
      var pnl := if e.cashOutMultiplier.None? then 0.0
                 else CashOutPnl(bet.stake, e.cashOutMultiplier.value);
      bet.(state := CashedOut, multiplier := e.cashOutMultiplier, pnl := Some(pnl))
    case ByLoss => bet.(state := Lost, multiplier := None, pnl := Some(-bet.stake))
    case ByFailure => bet.(state := FailedBet, multiplier := None, pnl := Some(0.0))
  }

  function Recovered(env: Surroundings, id: nat, bet: Bet): Bet {
    if Confirmed(env, id, bet) then Settled(env, id, bet) else bet
  }

  ghost predicate AllConfirmed(env: Surroundings, bets: seq<Bet>, ids: seq<nat>) {
    forall m | 0 <= m < |ids| :: ids[m] < |bets| && Confirmed(env, ids[m], bets[ids[m]])
  }

  /** Only confirmed bets change, and they become what the provider said. */
  ghost predicate Swept(env: Surroundings, before: seq<Bet>, after: seq<Bet>, ids: seq<nat>) {
    && |after| == |before|
    && forall i | 0 <= i < |before| :: after[i] == if i in ids then Recovered(env, i, before[i]) else before[i]
  }

  ghost predicate Ascending(ids: seq<nat>) {
    forall m, n | 0 <= m < n < |ids| :: ids[m] < ids[n]
  }

  predicate Listed(bets: seq<Bet>, ids: seq<nat>) {
    forall m | 0 <= m < |ids| :: ids[m] < |bets| && bets[ids[m]].state.Unknown?
  }

  /** The bets, the results and the counter after the first `k` of the list. */
  ghost function BetsAfter(env: Surroundings, bets: seq<Bet>, ids: seq<nat>, k: nat): (after: seq<Bet>)
    requires Listed(bets, ids) && k <= |ids|
    ensures |after| == |bets|
  {
    if k == 0 then bets
    else BetsAfter(env, bets, ids, k - 1)[ids[k - 1] := Recovered(env, ids[k - 1], bets[ids[k - 1]])]
  }

  function ResultsAfter(env: Surroundings, bets: seq<Bet>, ids: seq<nat>, k: nat): (results: seq<bool>)
    requires Listed(bets, ids) && k <= |ids|
    ensures |results| == k
    ensures forall m | 0 <= m < k :: results[m] == Confirmed(env, ids[m], bets[ids[m]])
  {
    if k == 0 then [] else ResultsAfter(env, bets, ids, k - 1) + [Confirmed(env, ids[k - 1], bets[ids[k - 1]])]
  }

  function ResolvedAfter(env: Surroundings, bets: seq<Bet>, ids: seq<nat>, k: nat): (n: nat)
    requires Listed(bets, ids) && k <= |ids|
    ensures n <= k
  {
    if k == 0 then 0
    else ResolvedAfter(env, bets, ids, k - 1) + if Confirmed(env, ids[k - 1], bets[ids[k - 1]]) then 1 else 0
  }

  /** Bets later in the list, and bets not in it, are untouched so far. */
  lemma {:induction false} LaterUntouched(env: Surroundings, bets: seq<Bet>, ids: seq<nat>, k: nat, i: nat)
    requires Listed(bets, ids) && k <= |ids| && i < |bets| && i !in ids[..k]
    ensures BetsAfter(env, bets, ids, k)[i] == bets[i]
  {
    if k > 0 {
      assert ids[..k] == ids[..k - 1] + [ids[k - 1]];
      LaterUntouched(env, bets, ids, k - 1, i);
    }
  }

  lemma NextUntouched(env: Surroundings, bets: seq<Bet>, ids: seq<nat>, k: nat)
    requires Listed(bets, ids) && Ascending(ids) && k < |ids|
    ensures BetsAfter(env, bets, ids, k)[ids[k]] == bets[ids[k]]
  {
    assert forall m | 0 <= m < k :: ids[m] != ids[k];
    LaterUntouched(env, bets, ids, k, ids[k]);
  }

  lemma {:induction false} BetsAfterSwept(env: Surroundings, bets: seq<Bet>, ids: seq<nat>, k: nat)
    requires Listed(bets, ids) && Ascending(ids) && k <= |ids|
    ensures Swept(env, bets, BetsAfter(env, bets, ids, k), ids[..k])
  {
    if k > 0 {
      assert ids[..k] == ids[..k - 1] + [ids[k - 1]];
      assert forall m | 0 <= m < k - 1 :: ids[m] != ids[k - 1];
      BetsAfterSwept(env, bets, ids, k - 1);
    }
  }

  lemma {:induction false} CountAfter(env: Surroundings, bets: seq<Bet>, ids: seq<nat>, k: nat)
    requires Listed(bets, ids) && Ascending(ids) && k <= |ids|
    ensures UnknownCount(BetsAfter(env, bets, ids, k)) + ResolvedAfter(env, bets, ids, k) == UnknownCount(bets)
  {
    if k > 0 {
      CountAfter(env, bets, ids, k - 1);
      NextUntouched(env, bets, ids, k - 1);
      CountUpdate(BetsAfter(env, bets, ids, k - 1), ids[k - 1], Recovered(env, ids[k - 1], bets[ids[k - 1]]), |bets|);
    }
  }

  lemma {:induction false} AllResolvedIff(env: Surroundings, bets: seq<Bet>, ids: seq<nat>, k: nat)
    requires Listed(bets, ids) && k <= |ids|
    ensures ResolvedAfter(env, bets, ids, k) == k <==> forall m | 0 <= m < k :: Confirmed(env, ids[m], bets[ids[m]])
  {
    if k > 0 {
      AllResolvedIff(env, bets, ids, k - 1);
    }
  }

  class UnknownStateRecovery {
    const repo: BetRepository
    const maxBetsPerSweep: nat
    var isReconciling: bool

    constructor (repo: BetRepository, maxBetsPerSweep: nat)
      ensures this.repo == repo && this.maxBetsPerSweep == maxBetsPerSweep && !isReconciling
    {
      this.repo, this.maxBetsPerSweep, isReconciling := repo, maxBetsPerSweep, false;
    }

    method RecoverBet(id: nat, env: Surroundings) returns (resolved: bool)
      requires id < |repo.bets| && repo.bets[id].state.Unknown?
      modifies repo
      ensures resolved == Confirmed(env, id, old(repo.bets)[id])
      ensures repo.bets == old(repo.bets)[id := Recovered(env, id, old(repo.bets)[id])]
      ensures UnknownCount(repo.bets) + (if resolved then 1 else 0) == UnknownCount(old(repo.bets))
    {
      var bet := repo.bets[id];
      if bet.roundId.None? {
        return false;
      }
      if bet.roundId.value !in env.rounds {
        return false;
      }
      if env.provider.None? {
        return false;
      }
      var evidence := env.provider.value(id);
      if evidence.Threw? || evidence.status.None? {
        return false;
      }
      if id in env.updateFails {
        return false;
      }
      var newState, multiplier, pnl := FailedBet, None, 0.0;
      if evidence.status.value == ByCashOut {
        newState, multiplier := CashedOut, evidence.cashOutMultiplier;
        if multiplier.Some? {
          pnl := CashOutPnl(bet.stake, multiplier.value);
        }
      } else if evidence.status.value == ByLoss {
        newState, pnl := Lost, -bet.stake;
      }
      var settled := bet.(state := newState, multiplier := multiplier, pnl := Some(pnl));
      assert settled == Settled(env, id, bet);
      CountUpdate(repo.bets, id, settled, |repo.bets|);
      repo.bets := repo.bets[id := settled];
      return true;
    }

    /** The loop of the sweep. */
    method RecoverEach(ids: seq<nat>, env: Surroundings) returns (results: seq<bool>, resolved: nat)
      requires Listed(repo.bets, ids) && Ascending(ids)
      modifies repo
      ensures repo.bets == BetsAfter(env, old(repo.bets), ids, |ids|)
      ensures results == ResultsAfter(env, old(repo.bets), ids, |ids|)
      ensures resolved == ResolvedAfter(env, old(repo.bets), ids, |ids|)
    {
      ghost var before := repo.bets;
      results, resolved := [], 0;
      for k := 0 to |ids|
        invariant repo.bets == BetsAfter(env, before, ids, k)
        invariant results == ResultsAfter(env, before, ids, k)
        invariant resolved == ResolvedAfter(env, before, ids, k)
      {
        NextUntouched(env, before, ids, k);
        var one := RecoverBet(ids[k], env);
        results := results + [one];
        if one {
          resolved := resolved + 1;
        }
      }
    }

    method RecoverAll(ids: seq<nat>, env: Surroundings) returns (results: seq<bool>, resolved: nat)
      requires Listed(repo.bets, ids) && Ascending(ids)
      modifies repo
      ensures Swept(env, old(repo.bets), repo.bets, ids)
      ensures |results| == |ids| && resolved <= |ids|
      ensures forall m | 0 <= m < |ids| :: results[m] == Confirmed(env, ids[m], old(repo.bets)[ids[m]])
      ensures resolved == |ids| <==> AllConfirmed(env, old(repo.bets), ids)
      ensures UnknownCount(repo.bets) + resolved == UnknownCount(old(repo.bets))
    {
      ghost var before := repo.bets;
      BetsAfterSwept(env, before, ids, |ids|);
      CountAfter(env, before, ids, |ids|);
      AllResolvedIff(env, before, ids, |ids|);
      assert ids[..|ids|] == ids;
      results, resolved := RecoverEach(ids, env);
    }

    /** One completed sweep. A sweep that finds another one running reports nothing. */
    method RunRecoverySweep(env: Surroundings) returns (r: Result<SweepResult, string>)
      modifies this, repo
      ensures isReconciling == old(isReconciling)
      ensures old(isReconciling) ==> repo.bets == old(repo.bets) && r == Ok(SweepResult(0, 0, 0, 0, []))
      ensures !old(isReconciling) && !env.queryOk ==> repo.bets == old(repo.bets) && r.Err?
      ensures !old(isReconciling) && env.queryOk ==>
                Swept(env, old(repo.bets), repo.bets, FindUnknown(old(repo.bets), maxBetsPerSweep))
      ensures !old(isReconciling) && r.Ok? ==>
                && env.queryOk
                && r.value.totalUnknown == |FindUnknown(old(repo.bets), maxBetsPerSweep)|
                && r.value.resolved + r.value.stillUnknown == r.value.totalUnknown == |r.value.results|
                && r.value.manualReviewRequired == r.value.stillUnknown
                && UnknownCount(repo.bets) + r.value.resolved == UnknownCount(old(repo.bets))
      ensures !old(isReconciling) ==>
                var all := AllConfirmed(env, old(repo.bets), FindUnknown(old(repo.bets), maxBetsPerSweep));
                && (r.Ok? <==> env.queryOk && (all || env.emitOk))
                && (r.Ok? ==> (r.value.stillUnknown == 0 <==> all))
    {
      if isReconciling {
        return Ok(SweepResult(0, 0, 0, 0, []));
      }
      isReconciling := true;
      if !env.queryOk {
        isReconciling := false;
        return Err("Recovery sweep failed");
      }
      var ids := FindUnknown(repo.bets, maxBetsPerSweep);
      var results, resolved := RecoverAll(ids, env);
      var manualReviewRequired := |results| - resolved;
      isReconciling := false;
      if manualReviewRequired > 0 && !env.emitOk {
        return Err("Recovery sweep failed");
      }
      return Ok(SweepResult(|ids|, resolved, manualReviewRequired, manualReviewRequired, results));
    }

    /** An operator settles one bet, if it is unknown. */
    method ManualResolve(id: nat, newState: BetState, pnl: real, multiplier: Option<real>)
      returns (r: Result<bool, string>)
      requires newState == CashedOut || newState == Lost || newState == Reconciled
      modifies repo
      ensures r.Ok? <==> id < |old(repo.bets)| && old(repo.bets)[id].state.Unknown?
      ensures r.Ok? ==>
                var bet := old(repo.bets)[id];
                repo.bets ==
                old(repo.bets)[id := bet.(state := newState, multiplier := multiplier, pnl := Some(pnl))]
      ensures r.Ok? ==> UnknownCount(repo.bets) + 1 == UnknownCount(old(repo.bets))
      ensures r.Err? ==> repo.bets == old(repo.bets)
    {
      if |repo.bets| <= id {
        return Err("MANUAL_RESOLVE_NOT_FOUND");
      }
      var bet := repo.bets[id];
      if !bet.state.Unknown? {
        return Err("MANUAL_RESOLVE_INVALID_STATE");
      }
      CountUpdate(repo.bets, id, bet.(state := newState, multiplier := multiplier, pnl := Some(pnl)), |repo.bets|);
      repo.bets := repo.bets[id := bet.(state := newState, multiplier := multiplier, pnl := Some(pnl))];
      return Ok(true);
    }
  }

  /** A bet leaves the unknown state in a sweep only with the state the provider gave for it. */
  lemma OnlyEvidenceSettles(env: Surroundings, before: seq<Bet>, after: seq<Bet>, ids: seq<nat>, i: nat)
    requires Swept(env, before, after, ids) && i < |before| && after[i] != before[i]
    ensures i in ids && env.provider.Some? && env.provider.value(i).Evidence?
    ensures var e := env.provider.value(i);
            && (e.status == Some(ByCashOut) <==> after[i].state == CashedOut)
            && (e.status == Some(ByLoss) <==> after[i].state == Lost)
            && (e.status == Some(ByFailure) <==> after[i].state == FailedBet)
    ensures after[i].state == Lost ==> after[i].pnl == Some(-before[i].stake)
    ensures after[i].state == FailedBet ==> after[i].pnl == Some(0.0)
    ensures after[i].state == CashedOut ==>
              && after[i].multiplier == env.provider.value(i).cashOutMultiplier && after[i].pnl.Some?
              && CashOutPays(before[i].stake, after[i].multiplier, after[i].pnl.value)
    ensures after[i].stake == before[i].stake && after[i].balanceBefore == before[i].balanceBefore
  {
    if after[i].multiplier.Some? {
      RoundCentsNear(before[i].stake * after[i].multiplier.value - before[i].stake);
    }
  }

  /** And it does leave it exactly if its round is on record, a provider answers with a status, and the
      update goes through. */
  lemma EvidenceSettlesIff(env: Surroundings, before: seq<Bet>, after: seq<Bet>, ids: seq<nat>, i: nat)
    requires Swept(env, before, after, ids) && i < |before| && i in ids && before[i].state.Unknown?
    ensures !after[i].state.Unknown? <==>
            && i !in env.updateFails && env.provider.Some?
            && (exists round <- env.rounds :: before[i].roundId == Some(round))
            && exists status, multiplier :: env.provider.value(i) == Evidence(Some(status), multiplier)
  {
    if Confirmed(env, i, before[i]) {
      var e := env.provider.value(i);
      assert before[i].roundId == Some(before[i].roundId.value);
      assert e == Evidence(Some(e.status.value), e.cashOutMultiplier);
    }
  }

  /** The profit of a cash-out: the stake times the multiplier less the stake, up to half a cent; nothing
      where no multiplier is known. */
  predicate CashOutPays(stake: real, multiplier: Option<real>, pnl: real) {
    match multiplier
    case Some(m) => -0.005 <= pnl - (stake * m - stake) <= 0.005
    case None => pnl == 0.0
  }
}
