/** The recovery manager: count, sweep, reconcile, and decide whether betting may resume. */
module Recovery {
  import opened Balance
  import opened Bets
  import opened Outcomes
  import opened UnknownRecovery

  datatype Phase = Idle | Checking | ReconcilingBets | ReconcilingBalance | Resuming | FailedPhase

  datatype Config = Config(haltDuringRecovery: bool, requireZeroUnknown: bool, requireReconciliation: bool)

  const DEFAULT_CONFIG := Config(true, true, true)

  datatype RecoveryResult = RecoveryResult(
    phase: Phase, betRecovery: Option<SweepResult>, balance: Option<Reconciliation>, canResume: bool,
    errors: seq<string>)

  /** What surrounds one recovery: its own count query and its two events may fail, beside what
      surrounds the sweep and the reconciliation. */
  datatype Conditions = Conditions(countOk: bool, pauseOk: bool, resumeOk: bool, sweep: Surroundings, reading: Reading)

  /** Whether the conditions for resuming are met. */
  function EvaluateResumption(cfg: Config, betRecovery: Option<SweepResult>, balance: Option<Reconciliation>,
                              errors: seq<string>): bool
  {
    if |errors| > 0 then false
    else if cfg.requireZeroUnknown && betRecovery.Some? && betRecovery.value.stillUnknown > 0 then false
    else if cfg.requireReconciliation && balance.Some? && !balance.value.reconciled then false
    else true
  }

  /** JavaScript's falsy or blank text, over ASCII white space. */
  predicate Blank(s: string) {
    forall c | c in s :: c == ' ' || c == '\t' || c == '\n' || c == '\r'
  }

  class RecoveryManager {
    const config: Config
    const repo: BetRepository
    const sweeper: UnknownStateRecovery
    const balance: BalanceReconciliation
    var phase: Phase
    var halted: bool
    var lastResult: Option<RecoveryResult>

    predicate IsHalted()
      reads this
    {
      halted || phase != Idle
    }

    /** The parts share one repository. */
    ghost predicate Ready() {
      sweeper.repo == repo && balance.repo == repo
    }

    /** How many bets a sweep started now can take: none while another one is running. */
    function Reach(): nat
      reads sweeper
    {
      if sweeper.isReconciling then 0 else sweeper.maxBetsPerSweep
    }

    constructor (config: Config, repo: BetRepository, sweeper: UnknownStateRecovery, balance: BalanceReconciliation)
      ensures this.config == config && this.repo == repo && this.sweeper == sweeper && this.balance == balance
      ensures !IsHalted() && lastResult == None
    {
      this.config, this.repo, this.sweeper, this.balance := config, repo, sweeper, balance;
      phase, halted, lastResult := Idle, false, None;
    }

    method Fail(message: string) returns (result: RecoveryResult)
      modifies this
      ensures halted && phase == FailedPhase && lastResult == Some(result)
      ensures result == RecoveryResult(FailedPhase, None, None, false, [message])
    {
      phase, halted := FailedPhase, true;
      result := RecoveryResult(FailedPhase, None, None, false, [message]);
      lastResult := Some(result);
    }

    /** The sweep with its error, if unknown bets were counted. A sweep that finds another one running
        reports no unknown bet. */
    method SweepIfNeeded(unknownCount: nat, env: Surroundings)
      returns (betRecovery: Option<SweepResult>, errors: seq<string>)
      requires Ready() && unknownCount == UnknownCount(repo.bets)
      modifies this`phase, repo, sweeper
      ensures sweeper.isReconciling == old(sweeper.isReconciling) && |errors| <= 1
      ensures var busy, limit := old(sweeper.isReconciling), sweeper.maxBetsPerSweep;
              && (errors == [] <==> unknownCount == 0 || SweepEnds(old(repo.bets), busy, limit, env))
              && (errors == [] ==>
                    ((betRecovery.Some? ==> betRecovery.value.stillUnknown == 0) <==>
                     unknownCount == 0 || SweepClears(old(repo.bets), busy, limit, env)))
      ensures unknownCount == 0 ==> repo.bets == old(repo.bets) && betRecovery == None
      ensures errors == [] && (betRecovery.Some? ==> betRecovery.value.stillUnknown == 0) ==>
                UnknownCount(repo.bets) + AtMost(unknownCount, old(Reach())) == unknownCount
      ensures |repo.bets| == |old(repo.bets)|
      ensures forall i | 0 <= i < |repo.bets| :: OnlyConfirmed(env, i, old(repo.bets)[i], repo.bets[i])
    {
      betRecovery, errors := None, [];
      if unknownCount > 0 {
        phase := ReconcilingBets;
        var r := sweeper.RunRecoverySweep(env);
        if r.Err? {
          errors := ["Bet recovery failed"];
        } else {
          betRecovery := Some(r.value);
        }
      }
    }

    /** The reconciliation, with its error after those there are. */
    method ReconcileBalance(reading: Reading, before: seq<string>)
      returns (result: Option<Reconciliation>, errors: seq<string>)
      requires Ready()
      modifies this`phase, balance
      ensures errors == [] <==>
                && before == [] && reading.queriesOk
                && (balance.Mismatch(reading) ==> balance.Alerts(reading, old(balance.consecutiveMismatches) + 1))
      ensures errors == [] ==>
                && result.Some?
                && (result.value.reconciled <==>
                      && reading.current.Some? && !balance.Mismatch(reading)
                      && Unresolved(repo.bets, reading.countOk) == 0)
    {
      phase := ReconcilingBalance;
      var r := balance.Reconcile(reading);
      if r.Err? {
        return None, before + ["Balance reconciliation failed"];
      }
      return Some(r.value), before;
    }

    /** A whole recovery. Betting resumes exactly if no step failed and, as far as the configuration
        asks for it, every bet that the sweep took was confirmed and the balance is reconciled. */
    method RunRecovery(env: Conditions) returns (result: RecoveryResult)
      requires Ready()
      modifies this, repo, sweeper, balance
      ensures sweeper.isReconciling == old(sweeper.isReconciling) && lastResult == Some(result)
      ensures halted == !result.canResume && (phase == Idle <==> result.canResume)
      ensures !IsHalted() <==>
                && Clears(config, old(repo.bets), old(sweeper.isReconciling), sweeper.maxBetsPerSweep, env)
                && env.reading.queriesOk
                && (balance.Mismatch(env.reading) ==>
                      balance.Alerts(env.reading, old(balance.consecutiveMismatches) + 1))
                && (config.requireReconciliation ==>
                      && env.reading.current.Some? && !balance.Mismatch(env.reading)
                      && Unresolved(repo.bets, env.reading.countOk) == 0)
      ensures config == DEFAULT_CONFIG && !IsHalted() ==>
                && UnknownCount(repo.bets) + AtMost(UnknownCount(old(repo.bets)), old(Reach())) ==
                   UnknownCount(old(repo.bets))
                && (UnknownCount(repo.bets) == 0 <==>
                      env.reading.countOk || UnknownCount(old(repo.bets)) <= old(Reach()))
      ensures |repo.bets| == |old(repo.bets)|
      ensures forall i | 0 <= i < |repo.bets| :: OnlyConfirmed(env.sweep, i, old(repo.bets)[i], repo.bets[i])
    {
      phase := Checking;
      if !env.countOk {
        result := Fail("count failed");
        return;
      }
      var unknownCount := UnknownCount(repo.bets);
      if unknownCount > 0 && config.haltDuringRecovery {
        halted := true;
        if !env.pauseOk {
          result := Fail("pause event failed");
          return;
        }
      }
      var betRecovery, errors := SweepIfNeeded(unknownCount, env.sweep);
      var balanceReconciliation;
      balanceReconciliation, errors := ReconcileBalance(env.reading, errors);
      phase := Resuming;
      result := Conclude(betRecovery, balanceReconciliation, errors, env.resumeOk);
    }

    /** The decision and what follows from it. */
    method Conclude(betRecovery: Option<SweepResult>, balanceReconciliation: Option<Reconciliation>,
                    errors: seq<string>, resumeOk: bool)
      returns (result: RecoveryResult)
      modifies this
      ensures lastResult == Some(result)
      ensures halted == !result.canResume && (phase == Idle <==> result.canResume)
      ensures result.canResume <==>
              EvaluateResumption(config, betRecovery, balanceReconciliation, errors) && resumeOk
    {
      var canResume := EvaluateResumption(config, betRecovery, balanceReconciliation, errors);
      if canResume {
        halted := false;
        if !resumeOk {
          result := Fail("resume event failed");
          return;
        }
      } else {
        halted := true;
      }
      phase := if canResume then Idle else FailedPhase;
      result := RecoveryResult(phase, betRecovery, balanceReconciliation, canResume, errors);
      lastResult := Some(result);
    }

    /** An operator resumes betting; the events come after the decision, so their failure reaches
        the operator but does not undo it. */
    method ForceResume(operatorId: string, reason: string, countOk: bool, eventsOk: bool)
      returns (r: Result<bool, string>)
      modifies this
      ensures var granted := operatorId != "" && !Blank(reason) && countOk && UnknownCount(repo.bets) == 0;
              && (granted ==> !halted && phase == Idle && (r.Ok? <==> eventsOk))
              && (!granted ==> r.Err? && halted == old(halted) && phase == old(phase))
      ensures r.Ok? ==> operatorId != "" && exists c <- reason :: c != ' ' && c != '\t' && c != '\n' && c != '\r'
      ensures lastResult == old(lastResult)
    {
      if operatorId == "" || Blank(reason) {
        return Err("forceResume requires operatorId and reason");
      }
      if !countOk {
        return Err("count failed");
      }
      if UnknownCount(repo.bets) > 0 {
        return Err("Cannot force resume while UNKNOWN bets remain");
      }
      halted, phase := false, Idle;
      if !eventsOk {
        return Err("event failed");
      }
      return Ok(true);
    }
  }

  /** A bet is as it was, or is what its confirmed evidence makes of it. */
  ghost predicate OnlyConfirmed(env: Surroundings, i: nat, before: Bet, after: Bet) {
    after == before || (Confirmed(env, i, before) && after == Settled(env, i, before))
  }

  /** The sweep reports no bet left: it runs through and every bet it takes is confirmed, or another
      sweep is running and it does nothing. */
  ghost predicate SweepClears(bets: seq<Bet>, busy: bool, limit: nat, env: Surroundings) {
    busy || (env.queryOk && AllConfirmed(env, bets, FindUnknown(bets, limit)))
  }

  /** The sweep ends without an error; its warning about bets left over may be lost. */
  ghost predicate SweepEnds(bets: seq<Bet>, busy: bool, limit: nat, env: Surroundings) {
    SweepClears(bets, busy, limit, env) || (env.queryOk && env.emitOk)
  }

  /** Nothing before the balance check keeps betting halted. */
  ghost predicate Clears(cfg: Config, bets: seq<Bet>, busy: bool, limit: nat, env: Conditions) {
    && env.countOk && env.resumeOk
    && (UnknownCount(bets) == 0 ||
        (&& (cfg.haltDuringRecovery ==> env.pauseOk)
         && (if cfg.requireZeroUnknown then SweepClears(bets, busy, limit, env.sweep)
             else SweepEnds(bets, busy, limit, env.sweep))))
  }

  // ------------------------------------------------------------------ resuming with unknown bets left

  lemma {:induction false} AllUnknown(bets: seq<Bet>, k: nat)
    requires k <= |bets| && forall i | 0 <= i < k :: bets[i].state.Unknown?
    ensures CountUnknown(bets, k) == k
  {
    if k > 0 {
      AllUnknown(bets, k - 1);
    }
  }

  lemma {:induction false} InStateSize(bets: seq<Bet>, state: BetState, k: nat)
    requires k <= |bets|
    ensures |InState(bets, state, k)| <= k
  {
    if k > 0 {
      InStateSize(bets, state, k - 1);
    }
  }

  /** Without any known balance the observed balance is the expected one, and matches itself. */
  lemma NoBaselineMatches(bets: seq<Bet>, current: real)
    requires |bets| <= 1_000 && forall i | 0 <= i < |bets| :: bets[i].balanceBefore.None?
    ensures Matches(DEFAULT_TOLERANCE, current, Expected(bets, Paging, Some(current)))
  {
    InStateSize(bets, CashedOut, |bets|);
    InStateSize(bets, Lost, |bets|);
    InStateSize(bets, FailedBet, |bets|);
    InStateSize(bets, Reconciled, |bets|);
    BaselineIsChosen(bets);
    assert ChosenBet(bets) == None;
    MatchesIff(current, current);
  }

  function UnknownBet(): Bet {
    Bet(Some(0), 1.0, Unknown, None, None, None)
  }

  /** A provider that confirms every bet as failed. */
  function ConfirmsAll(): Surroundings {
    Surroundings({0}, Some((id: nat) => Evidence(Some(ByFailure), None)), {}, true, true)
  }

  /** Everything works but the count query of the reconciliation. */
  function CountFails(sweep: Surroundings): Conditions {
    Conditions(true, true, true, sweep, Reading(Paging, true, false, Some(100.0), true, true))
  }

  lemma ManyClear(bets: seq<Bet>, limit: nat)
    requires forall i | 0 <= i < |bets| :: bets[i] == UnknownBet()
    ensures UnknownCount(bets) == |bets| && Clears(DEFAULT_CONFIG, bets, false, limit, CountFails(ConfirmsAll()))
  {
    AllUnknown(bets, |bets|);
  }

  /** No bet of these ever has a known balance, swept or not, so the balance matches. */
  lemma StillMatches(env: Surroundings, before: seq<Bet>, after: seq<Bet>)
    requires |after| == |before| <= 1_000 && forall i | 0 <= i < |before| :: before[i] == UnknownBet()
    requires forall i | 0 <= i < |after| :: OnlyConfirmed(env, i, before[i], after[i])
    ensures Matches(DEFAULT_TOLERANCE, 100.0, Expected(after, Paging, Some(100.0)))
  {
    forall i | 0 <= i < |after| ensures after[i].balanceBefore.None? {
      assert OnlyConfirmed(env, i, before[i], after[i]);
    }
    NoBaselineMatches(after, 100.0);
  }

  /** Fifty-one unknown bets, a sweep of fifty that settles them all, and a count query that fails
      during the reconciliation: with every default setting betting resumes with one bet unknown. */
  method ResumesWithUnknownLeft() returns (manager: RecoveryManager)
    ensures manager.config == DEFAULT_CONFIG && manager.sweeper.maxBetsPerSweep == 50
    ensures !manager.IsHalted() && UnknownCount(manager.repo.bets) == 1
  {
    var repo := new BetRepository(seq(51, i => UnknownBet()));
    ghost var before := repo.bets;
    ManyClear(before, 50);
    var sweeper := new UnknownStateRecovery(repo, 50);
    var balance := new BalanceReconciliation(repo, ReconcileConfig(DEFAULT_TOLERANCE, true, true));
    manager := new RecoveryManager(DEFAULT_CONFIG, repo, sweeper, balance);
    var result := manager.RunRecovery(CountFails(ConfirmsAll()));
    StillMatches(ConfirmsAll(), before, repo.bets);
  }

  /** With another sweep running, one unknown bet and the same failing count query are enough. */
  method ResumesDuringAnotherSweep() returns (manager: RecoveryManager)
    ensures manager.config == DEFAULT_CONFIG && manager.sweeper.isReconciling
    ensures !manager.IsHalted() && UnknownCount(manager.repo.bets) == 1
  {
    var repo := new BetRepository([UnknownBet()]);
    ghost var before := repo.bets;
    AllUnknown(before, 1);
    var sweeper := new UnknownStateRecovery(repo, 50);
    sweeper.isReconciling := true;
    var balance := new BalanceReconciliation(repo, ReconcileConfig(DEFAULT_TOLERANCE, true, true));
    manager := new RecoveryManager(DEFAULT_CONFIG, repo, sweeper, balance);
    var result := manager.RunRecovery(CountFails(ConfirmsAll()));
    StillMatches(ConfirmsAll(), before, repo.bets);
  }
}
