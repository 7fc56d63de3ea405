/** The cash-out monitor of one bet: ticks, the crash, an abort, the adapter's two replies and the
    safety timeout arrive in any order, and the first to settle the bet wins. */
module CashOut {
  import opened Outcomes

  /** The adapter's answer to the cash-out request. */
  datatype RequestReply = Accepted | Rejected | RequestThrew(message: string)

  /** How the confirmation settles; running into its own timeout is one of the throws. */
  datatype Confirmation =
    | Confirmed(success: bool, multiplier: Option<real>, pnl: Option<real>, error: Option<string>)
    | ConfirmationThrew(message: string)

  datatype Event =
    | Tick(multiplier: real)
    | Crash
    | Abort
    | Reply(reply: RequestReply)
    | Confirm(confirmation: Confirmation)
    | SafetyTimeout

  datatype Verdict = CashedOut(pnl: real, multiplier: Option<real>) | Lost | Failed(error: string) | Unknown

  /** Where the one execution of the cash-out stands. */
  datatype Phase = NotStarted | Requesting | Confirming | Finished

  datatype State = State(
    triggeredAt: Option<real>, confirmed: bool, error: Option<string>,
    aborted: bool, inFlight: bool, phase: Phase, requests: nat, verdicts: seq<Verdict>)
  {
    predicate Triggered() {
      triggeredAt.Some?
    }

    predicate Resolved() {
      verdicts != []
    }

    predicate IsComplete() {
      confirmed || error.Some?
    }
  }

  const INITIAL := State(None, false, None, false, false, NotStarted, 0, [])

  const REJECTED := "Cash-out request was rejected by adapter"
  const FAILED := "Cash-out failed"

  // ------------------------------------------------------------------ one event

  function ResolveOnce(s: State, v: Verdict): State {
    if s.Resolved() then s else s.(verdicts := [v])
  }

  function OnTick(target: real, s: State, m: real): State {
    if s.Resolved() || s.aborted then s
    else if m >= target && !s.inFlight && !s.Triggered() then
      s.(triggeredAt := Some(m), inFlight := true, phase := Requesting, requests := s.requests + 1)
    else s
  }

  function OnCrash(s: State): State {
    if s.Resolved() || s.inFlight || s.Triggered() then s else ResolveOnce(s, Lost)
  }

  /** The execution of the cash-out ends in a failure. */
  function FailWith(s: State, message: string): State {
    if s.Resolved() then s.(phase := Finished)
    else ResolveOnce(s.(phase := Finished, error := Some(message)), Failed(message))
  }

  function OnReply(s: State, r: RequestReply): State {
    if s.phase != Requesting then s
    else match r
      case Accepted => s.(phase := Confirming)
      case Rejected => FailWith(s, REJECTED)
      case RequestThrew(m) => FailWith(s, m)
  }

  function OnConfirm(s: State, c: Confirmation): State {
    if s.phase != Confirming then s
    else match c
      case ConfirmationThrew(m) => FailWith(s, m)
      case Confirmed(success, multiplier, pnl, error) =>
        if !success then FailWith(s, error.GetOr(FAILED))
        else if s.Resolved() then s.(phase := Finished)
        else ResolveOnce(s.(phase := Finished, confirmed := true), CashedOut(pnl.GetOr(0.0), multiplier))
  }

  function Step(target: real, s: State, e: Event): State {
    match e
    case Tick(m) => OnTick(target, s, m)
    case Crash => OnCrash(s)
    case Abort => s.(aborted := true)
    case Reply(r) => OnReply(s, r)
    case Confirm(c) => OnConfirm(s, c)
    case SafetyTimeout => ResolveOnce(s, Unknown)
  }

  /** The state after the first `k` events. */
  function After(target: real, es: seq<Event>, k: nat): State
    requires k <= |es|
  {
    if k == 0 then INITIAL else Step(target, After(target, es, k - 1), es[k - 1])
  }

  /** The controller; its callbacks are the steps. `requests` and `verdicts` record what left it. */
  class CashOutController {
    const targetMultiplier: real
    var triggered: bool
    var triggeredAtMultiplier: Option<real>
    var confirmed: bool
    var error: Option<string>
    var aborted: bool
    var cashOutInFlight: bool
    var resolved: bool
    var phase: Phase
    ghost var requests: nat
    ghost var verdicts: seq<Verdict>

    ghost predicate Valid()
      reads this
    {
      triggered == triggeredAtMultiplier.Some? && resolved == (verdicts != [])
    }

    ghost function Now(): State
      reads this
    {
      State(triggeredAtMultiplier, confirmed, error, aborted, cashOutInFlight, phase, requests, verdicts)
    }

    constructor (targetMultiplier: real)
      ensures Valid() && this.targetMultiplier == targetMultiplier && Now() == INITIAL
    {
      this.targetMultiplier := targetMultiplier;
      triggered, triggeredAtMultiplier, confirmed, error := false, None, false, None;
      aborted, cashOutInFlight, resolved, phase := false, false, false, NotStarted;
      requests, verdicts := 0, [];
    }

    method Resolve(v: Verdict)
      requires Valid()
      modifies this`resolved, this`verdicts
      ensures Valid() && Now() == ResolveOnce(old(Now()), v)
    {
      if resolved {
        return;
      }
      resolved := true;
      verdicts := verdicts + [v];
    }

    method HandleTick(multiplier: real)
      requires Valid()
      modifies this
      ensures Valid() && Now() == Step(targetMultiplier, old(Now()), Tick(multiplier))
    {
      if resolved || aborted {
        return;
      }
      if multiplier >= targetMultiplier && !cashOutInFlight && !triggered {
        cashOutInFlight := true;
        triggered, triggeredAtMultiplier := true, Some(multiplier);
        phase, requests := Requesting, requests + 1;
      }
    }

    method HandleCrash()
      requires Valid()
      modifies this
      ensures Valid() && Now() == Step(targetMultiplier, old(Now()), Crash)
    {
      if resolved {
        return;
      }
      if cashOutInFlight {
        return;
      }
      if !triggered {
        Resolve(Lost);
      }
    }

    method AbortMonitoring()
      requires Valid()
      modifies this
      ensures Valid() && Now() == Step(targetMultiplier, old(Now()), Abort)
    {
      aborted := true;
    }

    method Fail(message: string)
      requires Valid()
      modifies this
      ensures Valid() && Now() == FailWith(old(Now()), message)
    {
      phase := Finished;
      if resolved {
        return;
      }
      error := Some(message);
      Resolve(Failed(message));
    }

    method HandleReply(r: RequestReply)
      requires Valid()
      modifies this
      ensures Valid() && Now() == Step(targetMultiplier, old(Now()), Reply(r))
    {
      if phase != Requesting {
        return;
      }
      match r {
        case Accepted => phase := Confirming;
        case Rejected => Fail(REJECTED);
        case RequestThrew(m) => Fail(m);
      }
    }

    method HandleConfirmation(c: Confirmation)
      requires Valid()
      modifies this
      ensures Valid() && Now() == Step(targetMultiplier, old(Now()), Confirm(c))
    {
      if phase != Confirming {
        return;
      }
      match c {
        case ConfirmationThrew(m) => Fail(m);
        case Confirmed(success, multiplier, pnl, e) =>
          if !success {
            Fail(e.GetOr(FAILED));
          } else {
            phase := Finished;
            if resolved {
              return;
            }
            confirmed := true;
            Resolve(CashedOut(pnl.GetOr(0.0), multiplier));
          }
      }
    }

    method HandleSafetyTimeout()
      requires Valid()
      modifies this
      ensures Valid() && Now() == Step(targetMultiplier, old(Now()), SafetyTimeout)
    {
      if !resolved {
        Resolve(Unknown);
      }
    }
  }

  // ------------------------------------------------------------------ every run

  ghost predicate Inv(target: real, s: State) {
    && |s.verdicts| <= 1
    && s.requests == (if s.Triggered() then 1 else 0)
    && (s.Triggered() <==> s.inFlight) && (s.Triggered() <==> s.phase != NotStarted)
    && (s.Triggered() ==> s.triggeredAt.value >= target)
    && (s.phase == Finished ==> s.Resolved())
    && (s.IsComplete() <==> s.Resolved() && (s.verdicts[0].CashedOut? || s.verdicts[0].Failed?))
    && (s.Resolved() && s.verdicts[0] == Lost ==> !s.Triggered())
    && (s.Resolved() && (s.verdicts[0].CashedOut? || s.verdicts[0].Failed?) ==> s.phase == Finished)
  }

  lemma StepKeeps(target: real, s: State, e: Event)
    requires Inv(target, s)
    ensures Inv(target, Step(target, s, e))
  {
    match e
    case Reply(r) =>
    case Confirm(c) =>
    case _ =>
  }

  /** At most one request and one verdict in any run; a cash-out verdict was triggered at or over
      the target; a lost bet has sent no request, then or later; and `isComplete` reports only the
      verdicts that the cash-out itself produced, not a lost or timed-out bet. */
  lemma {:induction false} EveryRun(target: real, es: seq<Event>, k: nat)
    requires k <= |es|
    ensures Inv(target, After(target, es, k))
  {
    if k > 0 {
      EveryRun(target, es, k - 1);
      StepKeeps(target, After(target, es, k - 1), es[k - 1]);
    }
  }

  lemma StepStands(target: real, s: State, e: Event)
    ensures s.Resolved() ==> Step(target, s, e).verdicts == s.verdicts
    ensures s.requests <= Step(target, s, e).requests
  {
    match e
    case Reply(r) =>
    case Confirm(c) =>
    case _ =>
  }

  /** A delivered verdict never changes, and a request is never taken back. */
  lemma {:induction false} VerdictsStand(target: real, es: seq<Event>, k: nat, m: nat)
    requires k <= m <= |es|
    ensures After(target, es, k).Resolved() ==> After(target, es, m).verdicts == After(target, es, k).verdicts
    ensures After(target, es, k).requests <= After(target, es, m).requests
    decreases m
  {
    if k < m {
      VerdictsStand(target, es, k, m - 1);
      StepStands(target, After(target, es, m - 1), es[m - 1]);
    }
  }

  lemma TimeoutResolves(target: real, es: seq<Event>, k: nat)
    requires k < |es| && es[k] == SafetyTimeout
    ensures |After(target, es, |es|).verdicts| == 1
  {
    assert After(target, es, k + 1) == Step(target, After(target, es, k), SafetyTimeout);
    VerdictsStand(target, es, k + 1, |es|);
    EveryRun(target, es, |es|);
  }

  // ------------------------------------------------------------------ what decides the verdict

  predicate Hits(target: real, e: Event) {
    e.Tick? && e.multiplier >= target
  }

  /** The first tick at or over the target, with nothing before it that stops the monitor. */
  ghost predicate TriggersAt(target: real, es: seq<Event>, i: nat) {
    && i < |es| && Hits(target, es[i])
    && forall j | 0 <= j < i :: !Hits(target, es[j]) && !es[j].Abort? && !es[j].Crash? && !es[j].SafetyTimeout?
  }

  ghost predicate TriggeredBefore(target: real, es: seq<Event>, k: nat) {
    exists i | 0 <= i < k :: TriggersAt(target, es, i)
  }

  /** The reply to the request that tick `i` sent. */
  ghost predicate RepliesAt(target: real, es: seq<Event>, i: nat, j: nat) {
    TriggersAt(target, es, i) && i < j < |es| && es[j].Reply? && forall m | i < m < j :: !es[m].Reply?
  }

  ghost predicate NoTimeout(es: seq<Event>, k: nat)
    requires k <= |es|
  {
    forall j | 0 <= j < k :: !es[j].SafetyTimeout?
  }

  ghost predicate NoCrash(es: seq<Event>, k: nat)
    requires k <= |es|
  {
    forall j | 0 <= j < k :: !es[j].Crash?
  }

  ghost predicate NoAbort(es: seq<Event>, k: nat)
    requires k <= |es|
  {
    forall j | 0 <= j < k :: !es[j].Abort?
  }

  /** What the flags say about the events so far. */
  ghost predicate FlagsMean(target: real, es: seq<Event>, k: nat, s: State)
    requires k <= |es|
  {
    && (s.aborted <==> !NoAbort(es, k))
    && (s.Triggered() <==> TriggeredBefore(target, es, k))
    && (forall i | 0 <= i < k && TriggersAt(target, es, i) :: s.triggeredAt == Some(es[i].multiplier))
    && (!s.Triggered() ==> (s.Resolved() <==> !NoTimeout(es, k) || !NoCrash(es, k)))
    && (!s.Triggered() && !s.Resolved() && !s.aborted ==> forall j | 0 <= j < k :: !Hits(target, es[j]))
  }

  lemma {:induction false} FlagsOfRun(target: real, es: seq<Event>, k: nat)
    requires k <= |es|
    ensures FlagsMean(target, es, k, After(target, es, k))
  {
    if k > 0 {
      FlagsOfRun(target, es, k - 1);
      EveryRun(target, es, k - 1);
      FlagsStep(target, es, k - 1, After(target, es, k - 1));
    }
  }

  lemma FlagsStep(target: real, es: seq<Event>, k: nat, s: State)
    requires k < |es| && Inv(target, s) && FlagsMean(target, es, k, s)
    ensures FlagsMean(target, es, k + 1, Step(target, s, es[k]))
  {
    assert TriggeredBefore(target, es, k + 1) <==> TriggeredBefore(target, es, k) || TriggersAt(target, es, k);
    assert NoAbort(es, k + 1) <==> NoAbort(es, k) && !es[k].Abort?;
    assert NoCrash(es, k + 1) <==> NoCrash(es, k) && !es[k].Crash?;
    assert NoTimeout(es, k + 1) <==> NoTimeout(es, k) && !es[k].SafetyTimeout?;
  }

  /** A request leaves exactly when some tick reaches the target before any abort, crash or timeout, and
      it records that tick's multiplier. */
  lemma RequestedIff(target: real, es: seq<Event>)
    ensures forall i | 0 <= i < |es| && TriggersAt(target, es, i) ::
              After(target, es, |es|).triggeredAt == Some(es[i].multiplier)
    ensures After(target, es, |es|).requests == (if TriggeredBefore(target, es, |es|) then 1 else 0)
  {
    EveryRun(target, es, |es|);
    FlagsOfRun(target, es, |es|);
  }

  /** The bet is lost exactly when a crash comes before any timeout and with no request sent. */
  ghost predicate LosesAt(target: real, es: seq<Event>, c: nat) {
    c < |es| && es[c].Crash? && NoTimeout(es, c) && !TriggeredBefore(target, es, c)
  }

  lemma {:induction false} LostIff(target: real, es: seq<Event>, k: nat)
    requires k <= |es|
    ensures After(target, es, k).verdicts == [Lost] <==> exists c | 0 <= c < k :: LosesAt(target, es, c)
  {
    if k > 0 {
      LostIff(target, es, k - 1);
      EveryRun(target, es, k - 1);
      FlagsOfRun(target, es, k - 1);
      var s := After(target, es, k - 1);
      if LosesAt(target, es, k - 1) {
        if s.Resolved() {
          var c :| 0 <= c < k - 1 && es[c].Crash?;
          assert LosesAt(target, es, c) by {
            assert !TriggeredBefore(target, es, c);
          }
        }
      }
      assert Step(target, s, es[k - 1]).verdicts == [Lost] ==>
          s.verdicts == [Lost] || LosesAt(target, es, k - 1);
    }
  }

  // ------------------------------------------------------------------ the cash-out verdict

  /** Tick `i` sent the request, and no reply has come before `k`. */
  ghost predicate AwaitsReply(target: real, es: seq<Event>, k: nat, i: nat)
    requires k <= |es|
  {
    i < k && TriggersAt(target, es, i) && forall m | i < m < k :: !es[m].Reply?
  }

  /** Reply `j` accepted the request of tick `i`, and no confirmation has come before `k`. */
  ghost predicate AwaitsConfirmation(target: real, es: seq<Event>, k: nat, i: nat, j: nat)
    requires k <= |es|
  {
    j < k && RepliesAt(target, es, i, j) && es[j].reply == Accepted && forall m | j < m < k :: !es[m].Confirm?
  }

  /** Which event leads into each phase. */
  lemma PhaseStep(target: real, s: State, e: Event)
    requires Inv(target, s)
    ensures Step(target, s, e).phase == Requesting ==>
              (s.phase == Requesting && !e.Reply?) ||
              (Hits(target, e) && !s.Triggered() && !s.Resolved() && !s.aborted)
    ensures Step(target, s, e).phase == Confirming ==>
              (s.phase == Confirming && !e.Confirm?) || (s.phase == Requesting && e == Reply(Accepted))
  {
    match e
    case Reply(r) =>
    case Confirm(c) =>
    case _ =>
  }

  lemma {:induction false} RequestingSince(target: real, es: seq<Event>, k: nat) returns (i: nat)
    requires k <= |es| && After(target, es, k).phase == Requesting
    ensures AwaitsReply(target, es, k, i)
  {
    EveryRun(target, es, k - 1);
    PhaseStep(target, After(target, es, k - 1), es[k - 1]);
    if After(target, es, k - 1).phase == Requesting {
      i := RequestingSince(target, es, k - 1);
    } else {
      i := k - 1;
      FlagsOfRun(target, es, i);
      assert TriggersAt(target, es, i);
    }
  }

  lemma {:induction false} ReplyAwaited(target: real, es: seq<Event>, k: nat, i: nat)
    requires k <= |es| && AwaitsReply(target, es, k, i)
    ensures After(target, es, k).phase == Requesting
  {
    if i < k - 1 {
      ReplyAwaited(target, es, k - 1, i);
    } else {
      FlagsOfRun(target, es, i);
      EveryRun(target, es, i);
      assert !TriggeredBefore(target, es, i);
    }
  }

  lemma {:induction false} ConfirmingSince(target: real, es: seq<Event>, k: nat) returns (i: nat, j: nat)
    requires k <= |es| && After(target, es, k).phase == Confirming
    ensures AwaitsConfirmation(target, es, k, i, j)
  {
    EveryRun(target, es, k - 1);
    PhaseStep(target, After(target, es, k - 1), es[k - 1]);
    if After(target, es, k - 1).phase == Confirming {
      i, j := ConfirmingSince(target, es, k - 1);
    } else {
      i := RequestingSince(target, es, k - 1);
      j := k - 1;
    }
  }

  lemma {:induction false} ConfirmationAwaited(target: real, es: seq<Event>, k: nat, i: nat, j: nat)
    requires k <= |es| && AwaitsConfirmation(target, es, k, i, j)
    ensures After(target, es, k).phase == Confirming
  {
    if j < k - 1 {
      ConfirmationAwaited(target, es, k - 1, i, j);
      EveryRun(target, es, k - 1);
    } else {
      ReplyAwaited(target, es, j, i);
    }
  }

  /** Confirmation `c` answers the accepted request of tick `i`, reports success, and no timeout
      came before it. Crashes and aborts after tick `i` do not matter. */
  ghost predicate CashesOutAt(target: real, es: seq<Event>, i: nat, j: nat, c: nat) {
    && c < |es| && AwaitsConfirmation(target, es, c, i, j)
    && es[c].Confirm? && es[c].confirmation.Confirmed? && es[c].confirmation.success
    && NoTimeout(es, c)
  }

  ghost predicate CashesOutBefore(target: real, es: seq<Event>, k: nat) {
    exists i, j, c | 0 <= i < j < c < k :: CashesOutAt(target, es, i, j, c)
  }

  /** With the request sent and no timeout yet, only the cash-out itself can have resolved the bet. */
  lemma {:induction false} UnresolvedWhileWaiting(target: real, es: seq<Event>, k: nat)
    requires k <= |es| && NoTimeout(es, k)
    requires After(target, es, k).phase == Requesting || After(target, es, k).phase == Confirming
    ensures !After(target, es, k).Resolved()
  {
    var s := After(target, es, k - 1);
    EveryRun(target, es, k - 1);
    if s.phase == Requesting || s.phase == Confirming {
      assert NoTimeout(es, k - 1);
      UnresolvedWhileWaiting(target, es, k - 1);
    }
    WaitingStep(target, s, es[k - 1]);
  }

  lemma WaitingStep(target: real, s: State, e: Event)
    requires Inv(target, s) && !e.SafetyTimeout?
    requires s.phase == Requesting || s.phase == Confirming ==> !s.Resolved()
    ensures var s' := Step(target, s, e); s'.phase == Requesting || s'.phase == Confirming ==> !s'.Resolved()
  {
    match e
    case Reply(r) =>
    case Confirm(c) =>
    case _ =>
  }

  /** A confirmation with success and no timeout before it delivers its own multiplier and profit. */
  lemma CashesOut(target: real, es: seq<Event>, i: nat, j: nat, c: nat, k: nat)
    requires CashesOutAt(target, es, i, j, c) && c < k <= |es|
    ensures After(target, es, k).verdicts ==
            [CashedOut(es[c].confirmation.pnl.GetOr(0.0), es[c].confirmation.multiplier)]
    ensures es[i].multiplier >= target
  {
    ConfirmationAwaited(target, es, c, i, j);
    UnresolvedWhileWaiting(target, es, c);
    assert After(target, es, c + 1) == Step(target, After(target, es, c), es[c]);
    VerdictsStand(target, es, c + 1, k);
  }

  lemma CashOutStep(target: real, s: State, e: Event)
    requires !s.Resolved() && Step(target, s, e).Resolved() && Step(target, s, e).verdicts[0].CashedOut?
    ensures s.phase == Confirming && e.Confirm? && e.confirmation.Confirmed? && e.confirmation.success
  {
    match e
    case Reply(r) =>
    case Confirm(c) =>
    case _ =>
  }

  /** Only such a confirmation delivers the verdict. */
  lemma {:induction false} CashedOutHow(target: real, es: seq<Event>, k: nat) returns (i: nat, j: nat, c: nat)
    requires k <= |es| && After(target, es, k).Resolved() && After(target, es, k).verdicts[0].CashedOut?
    ensures c < k && CashesOutAt(target, es, i, j, c)
  {
    if After(target, es, k - 1).Resolved() {
      StepStands(target, After(target, es, k - 1), es[k - 1]);
      i, j, c := CashedOutHow(target, es, k - 1);
    } else {
      CashOutStep(target, After(target, es, k - 1), es[k - 1]);
      i, j := ConfirmingSince(target, es, k - 1);
      NoTimeoutYet(target, es, k - 1);
      c := k - 1;
    }
  }

  /** The bet is cashed out exactly when the target was reached in time, the request was accepted,
      and the first confirmation after that was a success before the timeout. */
  lemma CashedOutIff(target: real, es: seq<Event>, k: nat)
    requires k <= |es|
    ensures (After(target, es, k).Resolved() && After(target, es, k).verdicts[0].CashedOut?) <==>
            CashesOutBefore(target, es, k)
  {
    if After(target, es, k).Resolved() && After(target, es, k).verdicts[0].CashedOut? {
      var i, j, c := CashedOutHow(target, es, k);
    }
    if CashesOutBefore(target, es, k) {
      var i, j, c :| 0 <= i < j < c < k && CashesOutAt(target, es, i, j, c);
      CashesOut(target, es, i, j, c, k);
    }
  }

  lemma NoTimeoutYet(target: real, es: seq<Event>, k: nat)
    requires k <= |es| && !After(target, es, k).Resolved()
    ensures NoTimeout(es, k)
  {
    forall m | 0 <= m < k ensures !es[m].SafetyTimeout? {
      VerdictsStand(target, es, m + 1, k);
      assert After(target, es, m + 1) == Step(target, After(target, es, m), es[m]);
    }
  }

  // ------------------------------------------------------------------ the failure and the unknown verdict

  /** The message with which a reply fails the cash-out. */
  function ReplyError(r: RequestReply): Option<string> {
    match r
    case Accepted => None
    case Rejected => Some(REJECTED)
    case RequestThrew(m) => Some(m)
  }

  /** The message with which a confirmation fails it. */
  function ConfirmationError(c: Confirmation): Option<string> {
    match c
    case Confirmed(success, _, _, error) => if success then None else Some(error.GetOr(FAILED))
    case ConfirmationThrew(m) => Some(m)
  }

  /** Event `f` is the reply to the request of tick `i`, or the confirmation of its acceptance `j`; it
      brings an error, and no timeout came before it. */
  ghost predicate FailsAt(target: real, es: seq<Event>, i: nat, j: nat, f: nat) {
    && f < |es| && NoTimeout(es, f)
    && ((es[f].Reply? && AwaitsReply(target, es, f, i) && ReplyError(es[f].reply).Some?) ||
        (es[f].Confirm? && AwaitsConfirmation(target, es, f, i, j) && ConfirmationError(es[f].confirmation).Some?))
  }

  /** The error that a reply or confirmation brings. */
  function ErrorOf(e: Event): string {
    if e.Reply? then ReplyError(e.reply).GetOr("")
    else if e.Confirm? then ConfirmationError(e.confirmation).GetOr("")
    else ""
  }

  ghost predicate FailsBefore(target: real, es: seq<Event>, k: nat) {
    exists i: nat, j: nat, f: nat | f < k :: FailsAt(target, es, i, j, f)
  }

  /** Such an event delivers its own error. */
  lemma Fails(target: real, es: seq<Event>, i: nat, j: nat, f: nat, k: nat)
    requires FailsAt(target, es, i, j, f) && f < k <= |es|
    ensures After(target, es, k).verdicts == [Failed(ErrorOf(es[f]))]
  {
    if es[f].Reply? {
      ReplyAwaited(target, es, f, i);
    } else {
      ConfirmationAwaited(target, es, f, i, j);
    }
    UnresolvedWhileWaiting(target, es, f);
    assert After(target, es, f + 1) == Step(target, After(target, es, f), es[f]);
    VerdictsStand(target, es, f + 1, k);
  }

  lemma FailureStep(target: real, s: State, e: Event)
    requires !s.Resolved() && Step(target, s, e).Resolved() && Step(target, s, e).verdicts[0].Failed?
    ensures (s.phase == Requesting && e.Reply? && ReplyError(e.reply).Some?) ||
            (s.phase == Confirming && e.Confirm? && ConfirmationError(e.confirmation).Some?)
  {
    match e
    case Reply(r) =>
    case Confirm(c) =>
    case _ =>
  }

  lemma {:induction false} FailedHow(target: real, es: seq<Event>, k: nat) returns (i: nat, j: nat, f: nat)
    requires k <= |es| && After(target, es, k).Resolved() && After(target, es, k).verdicts[0].Failed?
    ensures f < k && FailsAt(target, es, i, j, f)
  {
    var s := After(target, es, k - 1);
    if s.Resolved() {
      StepStands(target, s, es[k - 1]);
      i, j, f := FailedHow(target, es, k - 1);
    } else {
      FailureStep(target, s, es[k - 1]);
      NoTimeoutYet(target, es, k - 1);
      f := k - 1;
      if s.phase == Requesting {
        i := RequestingSince(target, es, f);
        j := 0;
      } else {
        i, j := ConfirmingSince(target, es, f);
      }
    }
  }

  /** The bet fails exactly when the request that reached the target in time was refused or threw, or
      the first confirmation of its acceptance reported an error or threw, before the timeout. */
  lemma FailedIff(target: real, es: seq<Event>, k: nat)
    requires k <= |es|
    ensures (After(target, es, k).Resolved() && After(target, es, k).verdicts[0].Failed?) <==>
            FailsBefore(target, es, k)
  {
    if After(target, es, k).Resolved() && After(target, es, k).verdicts[0].Failed? {
      var i, j, f := FailedHow(target, es, k);
    }
    if FailsBefore(target, es, k) {
      var i: nat, j: nat, f: nat :| f < k && FailsAt(target, es, i, j, f);
      Fails(target, es, i, j, f, k);
    }
  }

  ghost predicate LosesBefore(target: real, es: seq<Event>, k: nat) {
    exists c | 0 <= c < k :: LosesAt(target, es, c)
  }

  /** The first timeout, with nothing before it that settles the bet. */
  ghost predicate TimesOutAt(target: real, es: seq<Event>, t: nat) {
    && t < |es| && es[t].SafetyTimeout? && NoTimeout(es, t)
    && !LosesBefore(target, es, t) && !CashesOutBefore(target, es, t) && !FailsBefore(target, es, t)
  }

  ghost predicate TimesOutBefore(target: real, es: seq<Event>, k: nat) {
    exists t | 0 <= t < k :: TimesOutAt(target, es, t)
  }

  lemma UnknownStep(target: real, s: State, e: Event)
    requires !s.Resolved() && Step(target, s, e).verdicts == [Unknown]
    ensures e.SafetyTimeout?
  {
    match e
    case Reply(r) =>
    case Confirm(c) =>
    case _ =>
  }

  /** The three other verdicts up to `k`, by their conditions. */
  lemma OtherVerdicts(target: real, es: seq<Event>, k: nat)
    requires k <= |es|
    ensures var s := After(target, es, k);
            && |s.verdicts| <= 1
            && (LosesBefore(target, es, k) <==> s.Resolved() && s.verdicts[0].Lost?)
            && (CashesOutBefore(target, es, k) <==> s.Resolved() && s.verdicts[0].CashedOut?)
            && (FailsBefore(target, es, k) <==> s.Resolved() && s.verdicts[0].Failed?)
  {
    EveryRun(target, es, k);
    LostIff(target, es, k);
    CashedOutIff(target, es, k);
    FailedIff(target, es, k);
  }

  lemma {:induction false} UnknownHow(target: real, es: seq<Event>, k: nat) returns (t: nat)
    requires k <= |es| && After(target, es, k).verdicts == [Unknown]
    ensures t < k && TimesOutAt(target, es, t)
  {
    var s := After(target, es, k - 1);
    if s.Resolved() {
      StepStands(target, s, es[k - 1]);
      t := UnknownHow(target, es, k - 1);
    } else {
      UnknownStep(target, s, es[k - 1]);
      NoTimeoutYet(target, es, k - 1);
      OtherVerdicts(target, es, k - 1);
      t := k - 1;
    }
  }

  lemma UnresolvedAt(target: real, es: seq<Event>, t: nat)
    requires TimesOutAt(target, es, t)
    ensures !After(target, es, t).Resolved()
  {
    OtherVerdicts(target, es, t);
    if After(target, es, t).verdicts == [Unknown] {
      var earlier := UnknownHow(target, es, t);
    }
  }

  /** The verdict is unknown exactly when the first timeout finds the bet unsettled. */
  lemma UnknownIff(target: real, es: seq<Event>, k: nat)
    requires k <= |es|
    ensures After(target, es, k).verdicts == [Unknown] <==> TimesOutBefore(target, es, k)
  {
    if After(target, es, k).verdicts == [Unknown] {
      var t := UnknownHow(target, es, k);
    }
    if TimesOutBefore(target, es, k) {
      var t :| 0 <= t < k && TimesOutAt(target, es, t);
      UnresolvedAt(target, es, t);
      assert After(target, es, t + 1) == Step(target, After(target, es, t), es[t]);
      VerdictsStand(target, es, t + 1, k);
    }
  }

  /** The four conditions partition the resolved runs. */
  lemma VerdictsPartition(target: real, es: seq<Event>, k: nat)
    requires k <= |es|
    ensures var lost, cashedOut := LosesBefore(target, es, k), CashesOutBefore(target, es, k);
            var failed, unknown := FailsBefore(target, es, k), TimesOutBefore(target, es, k);
            && (After(target, es, k).Resolved() <==> lost || cashedOut || failed || unknown)
            && !(lost && (cashedOut || failed || unknown))
            && !(cashedOut && (failed || unknown))
            && !(failed && unknown)
  {
    OtherVerdicts(target, es, k);
    UnknownIff(target, es, k);
  }
}
