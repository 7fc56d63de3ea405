/** The drift guard: it compares the reported hot-wallet balance with the operator's and halts once
    they are more than a threshold apart. A check awaits two readings, so checks may overlap. */
module DriftGuard {
  import opened Outcomes
  import opened Journal
  import opened Settlement
  import opened SettlementSafety
  import opened SettlementRuns

  function Distance(a: int, b: int): (d: nat)
    ensures a - b <= d && b - a <= d && (d == a - b || d == b - a)
  {
    if a <= b then b - a else a - b
  }

  /** Whether the guard is tripped, how often it halted and how many checks are under way. */
  datatype Guard = Guard(tripped: bool, halts: nat, open: nat)

  /** A check starts by returning at once if the guard is tripped. */
  function AfterBegin(g: Guard): Guard {
    if g.tripped then g else g.(open := g.open + 1)
  }

  /** It ends with the two balances, or with none where a reading failed. */
  function AfterEnd(g: Guard, threshold: int, ledger: int, remote: Option<int>): Guard
    requires g.open > 0
  {
    if remote.Some? && Distance(ledger, remote.value) > threshold then Guard(true, g.halts + 1, g.open - 1)
    else g.(open := g.open - 1)
  }

  /** The direct comparison of two given balances, on a tripped guard too. */
  function AfterEvaluate(g: Guard, threshold: int, ledger: int, remote: int): Guard {
    if Distance(ledger, remote) > threshold then g.(tripped := true, halts := g.halts + 1) else g
  }

  class BalanceDriftGuard {
    const threshold: int
    var tripped: bool
    var halts: nat
    ghost var open: nat

    ghost function State(): Guard
      reads this
    {
      Guard(tripped, halts, open)
    }

    constructor (threshold: int)
      ensures this.threshold == threshold && State() == Guard(false, 0, 0)
    {
      this.threshold := threshold;
      tripped, halts, open := false, 0, 0;
    }

    method BeginCheck() returns (goesOn: bool)
      modifies this
      ensures State() == AfterBegin(old(State())) && goesOn == !old(tripped)
    {
      if tripped {
        return false;
      }
      open := open + 1;
      return true;
    }

    /** The verdict with its delta; none where a reading failed and the check rejects. */
    method EndCheck(db: Db, remote: Option<int>) returns (r: Option<(bool, nat)>)
      requires open > 0
      modifies this
      ensures State() == AfterEnd(old(State()), threshold, GetAccountBalance(db, HotWallet), remote)
      ensures r.None? <==> remote.None?
      ensures tripped == (old(tripped) || (r.Some? && !r.value.0))
      ensures halts == old(halts) + if r.Some? && !r.value.0 then 1 else 0
      ensures r.Some? ==>
                && r.value.1 == Distance(GetAccountBalance(db, HotWallet), remote.value)
                && (r.value.0 <==> r.value.1 <= threshold)
    {
      open := open - 1;
      if remote.None? {
        return None;
      }
      var ledger := GetAccountBalance(db, HotWallet);
      var delta := Distance(ledger, remote.value);
      if delta > threshold {
        tripped, halts := true, halts + 1;
        return Some((false, delta));
      }
      return Some((true, delta));
    }

    method Evaluate(ledgerBalance: int, remoteBalance: int) returns (ok: bool)
      modifies this
      ensures State() == AfterEvaluate(old(State()), threshold, ledgerBalance, remoteBalance)
      ensures ok <==> -threshold <= ledgerBalance - remoteBalance <= threshold
      ensures tripped == (old(tripped) || !ok) && halts == old(halts) + if ok then 0 else 1
    {
      var delta := Distance(ledgerBalance, remoteBalance);
      if delta > threshold {
        tripped, halts := true, halts + 1;
        return false;
      }
      return true;
    }
  }

  // ------------------------------------------------------------------ every run

  datatype GuardEvent = Ledger(e: Event) | Begins | Ends(remote: Option<int>) | Evaluates(ours: int, theirs: int)

  /** What was compared: by a check, with the reported balance, or by a caller, with its own. */
  datatype Comparison = ByCheck(remote: int) | ByCaller(ledger: int, remote: int)

  datatype System = System(db: Db, guard: Guard, compared: seq<Comparison>)

  /** A check ends only if one is under way. */
  function StepSystem(s: System, threshold: int, e: GuardEvent): System {
    match e
    case Ledger(event) => s.(db := Step(s.db, event))
    case Begins => s.(guard := AfterBegin(s.guard))
    case Ends(remote) =>
      if s.guard.open == 0 then s
      else s.(guard := AfterEnd(s.guard, threshold, GetAccountBalance(s.db, HotWallet), remote),
              compared := if remote.Some? then s.compared + [ByCheck(remote.value)] else s.compared)
    case Evaluates(ours, theirs) =>
      s.(guard := AfterEvaluate(s.guard, threshold, ours, theirs),
         compared := s.compared + [ByCaller(ours, theirs)])
  }

  function RunSystem(s: System, threshold: int, es: seq<GuardEvent>): System
    decreases |es|
  {
    if es == [] then s else RunSystem(StepSystem(s, threshold, es[0]), threshold, es[1..])
  }

  /** A check is alarming if the remote balance is further than the threshold from zero, a caller's
      comparison if its two balances are further apart. */
  predicate Alarming(c: Comparison, threshold: int) {
    match c
    case ByCheck(remote) => Distance(0, remote) > threshold
    case ByCaller(ledger, remote) => Distance(ledger, remote) > threshold
  }

  function Alarms(compared: seq<Comparison>, threshold: int): nat {
    if compared == [] then 0
    else
      Alarms(compared[..|compared| - 1], threshold)
      + if Alarming(compared[|compared| - 1], threshold) then 1 else 0
  }

  lemma AlarmsSnoc(compared: seq<Comparison>, c: Comparison, threshold: int)
    ensures Alarms(compared + [c], threshold) == Alarms(compared, threshold) + if Alarming(c, threshold) then 1 else 0
  {
    assert (compared + [c])[..|compared|] == compared;
  }

  /** The guard halted for each alarming comparison, and the reported balance is zero. */
  ghost predicate Explained(s: System, threshold: int) {
    && Inv(s.db) && GetAccountBalance(s.db, HotWallet) == 0
    && s.guard.halts == Alarms(s.compared, threshold) && (s.guard.tripped <==> s.guard.halts > 0)
  }

  lemma StepExplained(s: System, threshold: int, e: GuardEvent)
    requires Explained(s, threshold)
    ensures Explained(StepSystem(s, threshold, e), threshold)
  {
    match e
    case Ledger(event) => StepKeeps(s.db, event);
    case Begins =>
    case Ends(remote) =>
      if remote.Some? {
        AlarmsSnoc(s.compared, ByCheck(remote.value), threshold);
      }
    case Evaluates(ours, theirs) => AlarmsSnoc(s.compared, ByCaller(ours, theirs), threshold);
  }

  lemma {:induction false} RunExplained(s: System, threshold: int, es: seq<GuardEvent>)
    requires Explained(s, threshold)
    ensures Explained(RunSystem(s, threshold, es), threshold)
    decreases |es|
  {
    if es != [] {
      StepExplained(s, threshold, es[0]);
      RunExplained(StepSystem(s, threshold, es[0]), threshold, es[1..]);
    }
  }

  function Fresh(guarded: bool): System {
    System(EmptyDb(guarded), Guard(false, 0, 0), [])
  }

  /** From empty tables the guard has halted exactly as often as a check compared a remote balance
      further than the threshold from zero, or a caller two balances further apart, whatever was
      wagered, won or lost in between. */
  lemma HaltsOnRemoteAlone(guarded: bool, threshold: int, es: seq<GuardEvent>)
    ensures var s := RunSystem(Fresh(guarded), threshold, es);
            s.guard.halts == Alarms(s.compared, threshold) && (s.guard.tripped <==> s.guard.halts > 0)
  {
    RunExplained(Fresh(guarded), threshold, es);
  }

  /** No check starts while another is under way. */
  predicate OneAtATime(s: System, threshold: int, es: seq<GuardEvent>)
    decreases |es|
  {
    es != [] ==>
      (es[0].Begins? ==> s.guard.open == 0) && OneAtATime(StepSystem(s, threshold, es[0]), threshold, es[1..])
  }

  /** The alarming comparisons that callers make in a run. */
  function CallerAlarms(es: seq<GuardEvent>, threshold: int): nat {
    if es == [] then 0
    else
      CallerAlarms(es[1..], threshold)
      + if es[0].Evaluates? && Distance(es[0].ours, es[0].theirs) > threshold then 1 else 0
  }

  lemma {:induction false} SingleChecksHaltOnce(s: System, threshold: int, es: seq<GuardEvent>)
    requires OneAtATime(s, threshold, es) && s.guard.open <= 1
    ensures s.guard.halts + CallerAlarms(es, threshold) <= RunSystem(s, threshold, es).guard.halts <=
            s.guard.halts + CallerAlarms(es, threshold) + if s.guard.tripped && s.guard.open == 0 then 0 else 1
    decreases |es|
  {
    if es != [] {
      SingleChecksHaltOnce(StepSystem(s, threshold, es[0]), threshold, es[1..]);
    }
  }

  /** Where checks do not overlap they halt at most once, beside the direct comparisons, each of which
      halts if it is alarming, even on a tripped guard. */
  lemma HaltsOnce(guarded: bool, threshold: int, es: seq<GuardEvent>)
    requires OneAtATime(Fresh(guarded), threshold, es)
    ensures var halts := RunSystem(Fresh(guarded), threshold, es).guard.halts;
            CallerAlarms(es, threshold) <= halts <= CallerAlarms(es, threshold) + 1
  {
    SingleChecksHaltOnce(Fresh(guarded), threshold, es);
  }

  lemma RunOn(s: System, threshold: int, e: GuardEvent, es: seq<GuardEvent>)
    ensures RunSystem(s, threshold, [e] + es) == RunSystem(StepSystem(s, threshold, e), threshold, es)
  {
    assert ([e] + es)[1..] == es;
  }

  /** Two checks that overlap can both halt. */
  lemma OverlappingChecksHaltTwice(guarded: bool, threshold: nat)
    ensures var far := Ends(Some(threshold + 1));
            RunSystem(Fresh(guarded), threshold, [Begins] + ([Begins] + ([far] + ([far] + [])))).guard.halts == 2
  {
    var far := Ends(Some(threshold + 1));
    var s2 := Fresh(guarded).(guard := Guard(false, 0, 2));
    RunOn(Fresh(guarded), threshold, Begins, [Begins] + ([far] + ([far] + [])));
    RunOn(StepSystem(Fresh(guarded), threshold, Begins), threshold, Begins, [far] + ([far] + []));
    RunOn(s2, threshold, far, [far] + []);
    RunOn(StepSystem(s2, threshold, far), threshold, far, []);
  }

  /** On any reachable tables the guard decides as one that reads the journal would, for every remote
      balance, exactly when the journal's hot wallet is at zero. */
  lemma GuardAgreesIff(guarded: bool, events: seq<Event>, threshold: nat)
    ensures var db := Run(EmptyDb(guarded), events);
            var wallet := Balance(db.journal, HotWallet);
            (forall remote: int :: Distance(GetAccountBalance(db, HotWallet), remote) > threshold <==>
                              Distance(wallet, remote) > threshold) <==> wallet == 0
  {
    ReportedBalanceIff(guarded, events, HotWallet);
    var wallet := Balance(Run(EmptyDb(guarded), events).journal, HotWallet);
    var remote := if wallet > 0 then wallet + threshold else wallet - threshold;
    assert wallet != 0 ==> Distance(0, remote) > threshold && Distance(wallet, remote) == threshold;
  }
}
