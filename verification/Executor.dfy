/** Bet placement: the in-memory idempotency store and the retrying executor above it. The
    adapter is an oracle that answers each attempt. The executor's mutex makes calls take
    effect one at a time, so a run is a sequence of calls. */
module Executor {
  import opened Outcomes

  // ------------------------------------------------------------------ idempotency store

  datatype KeyStatus = PENDING | COMPLETED | FAILED | UNKNOWN

  datatype Record = Record(status: KeyStatus, betId: string)

  type Store = map<string, Record>

  function GenerateKey(sessionId: string, roundId: string): string {
    sessionId + ":" + roundId
  }

  /** The key does not separate every pair: a colon may belong to either half. */
  lemma KeysCanCollide()
    ensures GenerateKey("a:b", "c") == GenerateKey("a", "b:c")
  {
  }

  /** Two different session ids share a key for some rounds exactly when one of them, followed by a
      colon, begins the other. */
  lemma KeysCollideIff(s: string, s': string)
    requires s != s'
    ensures (exists r, r' :: GenerateKey(s, r) == GenerateKey(s', r')) <==> s + ":" <= s' || s' + ":" <= s
  {
    forall r, r' | GenerateKey(s, r) == GenerateKey(s', r') ensures s + ":" <= s' || s' + ":" <= s {
      SharedKeyNests(s, r, s', r');
    }
    if s + ":" <= s' {
      NestedKeysShare(s, s');
    }
    if s' + ":" <= s {
      NestedKeysShare(s', s);
    }
  }

  lemma SharedKeyNests(s: string, r: string, s': string, r': string)
    requires s != s' && GenerateKey(s, r) == GenerateKey(s', r')
    ensures s + ":" <= s' || s' + ":" <= s
  {
    var k := GenerateKey(s, r);
    assert k[..|s|] == s && k[..|s'|] == s' && k[|s|] == ':' && k[|s'|] == ':';
    if |s| < |s'| {
      assert s' == k[..|s'|] && (s + ":") == k[..|s| + 1];
    } else if |s'| < |s| {
      assert s == k[..|s|] && (s' + ":") == k[..|s'| + 1];
    }
  }

  lemma NestedKeysShare(s: string, s': string)
    requires s + ":" <= s'
    ensures exists r, r' :: GenerateKey(s, r) == GenerateKey(s', r')
  {
    var rest := s'[|s| + 1..];
    assert s' == s + ":" + rest;
    assert GenerateKey(s, rest + ":") == GenerateKey(s', "");
  }

  /** In particular session ids without a colon are told apart, whatever the round ids are. */
  lemma KeysSeparate(s: string, r: string, s': string, r': string)
    requires ':' !in s && ':' !in s' && GenerateKey(s, r) == GenerateKey(s', r')
    ensures s == s' && r == r'
  {
    NoNesting(s, s');
    NoNesting(s', s);
    if s != s' {
      SharedKeyNests(s, r, s', r');
    }
    RoundsSeparate(s, r, r');
  }

  lemma NoNesting(s: string, s': string)
    requires ':' !in s'
    ensures !(s + ":" <= s')
  {
    if |s| < |s'| {
      assert s'[|s|] in s' && s'[|s|] != (s + ":")[|s|];
    }
  }

  /** With one session id, keys differ whenever the rounds do. */
  lemma RoundsSeparate(s: string, r: string, r': string)
    ensures GenerateKey(s, r) == GenerateKey(s, r') <==> r == r'
  {
    assert GenerateKey(s, r)[|s| + 1..] == r && GenerateKey(s, r')[|s| + 1..] == r';
  }

  class InMemoryIdempotencyStore {
    var store: Store

    constructor ()
      ensures store == map[]
    {
      store := map[];
    }

    method Reserve(sessionId: string, roundId: string, betId: string) returns (ok: bool)
      modifies this
      ensures var key := GenerateKey(sessionId, roundId);
              && ok == (key !in old(store))
              && store == if ok then old(store)[key := Record(PENDING, betId)] else old(store)
    {
      var key := GenerateKey(sessionId, roundId);
      if key in store {
        return false;
      }
      store := store[key := Record(PENDING, betId)];
      return true;
    }

    /** complete, fail and markUnknown: set the status of an existing record. */
    method SetStatus(sessionId: string, roundId: string, status: KeyStatus)
      modifies this
      ensures store == Marked(old(store), GenerateKey(sessionId, roundId), status)
    {
      var key := GenerateKey(sessionId, roundId);
      if key in store {
        store := store[key := store[key].(status := status)];
      }
    }
  }

  function Marked(store: Store, key: string, status: KeyStatus): Store {
    if key in store then store[key := store[key].(status := status)] else store
  }

  // ------------------------------------------------------------------ one placement

  datatype SubmitReply = Accepted | Rejected | SubmitThrew(message: string)

  /** `ConfirmThrew` covers both the adapter's own errors and the executor's timeout, which is
      the error "Bet confirmation timed out". */
  datatype ConfirmReply = Confirmed | NotConfirmed | ConfirmThrew(message: string)

  datatype Reply = Reply(submit: SubmitReply, confirm: ConfirmReply)

  datatype BetState = CONFIRMED_BET | FAILED_BET | UNKNOWN_BET

  datatype PlaceBetRequest = PlaceBetRequest(sessionId: string, roundId: string, betId: string, dryRun: bool)

  /** `submits` is the number of submitBet calls made. */
  datatype Execution = Execution(placed: bool, state: BetState, blocked: bool, retryCount: int, submits: nat)

  function Lower(c: char): char {
    if 'A' <= c <= 'Z' then c - 'A' + 'a' else c
  }

  function LowerAll(s: string): (r: string)
    ensures |r| == |s| && forall i | 0 <= i < |s| :: r[i] == Lower(s[i])
  {
    seq(|s|, i requires 0 <= i < |s| => Lower(s[i]))
  }

  const TIMED_OUT := "timed out"

  /** The pattern /timed out/i. */
  predicate MentionsTimeout(message: string) {
    exists i: nat | i <= |message| :: MatchesAt(message, i)
  }

  predicate MatchesAt(message: string, i: nat)
    requires i <= |message|
  {
    i + |TIMED_OUT| <= |message| && LowerAll(message[i..i + |TIMED_OUT|]) == TIMED_OUT
  }

  /** Nine characters that spell "timed out" in small or capital letters. */
  predicate SpellsTimedOut(x: string) {
    |x| == 9 && forall k | 0 <= k < 9 :: x[k] == "timed out"[k] || x[k] == "TIMED OUT"[k]
  }

  /** The message contains them. */
  ghost predicate SaysTimedOut(message: string) {
    exists a: string, x: string, b: string :: SpellsTimedOut(x) && message == a + x + b
  }

  lemma LowersToTimedOut(x: string)
    requires |x| == 9
    ensures LowerAll(x) == TIMED_OUT <==> SpellsTimedOut(x)
  {
    assert forall k | 0 <= k < 9 :: LowerAll(x)[k] == Lower(x[k]);
    LowerIff();
    if SpellsTimedOut(x) {
      forall k | 0 <= k < 9 ensures LowerAll(x)[k] == TIMED_OUT[k] {
        assert x[k] == "timed out"[k] || x[k] == "TIMED OUT"[k];
      }
    }
  }

  lemma LowerIff()
    ensures forall c: char, k | 0 <= k < 9 :: Lower(c) == TIMED_OUT[k] <==> c == "timed out"[k] || c == "TIMED OUT"[k]
  {
  }

  /** The pattern matches exactly the messages that contain the words, in letters of either case. */
  lemma MentionsTimeoutIff(message: string)
    ensures MentionsTimeout(message) <==> SaysTimedOut(message)
  {
    if MentionsTimeout(message) {
      var i: nat :| i <= |message| && MatchesAt(message, i);
      var x := message[i..i + |TIMED_OUT|];
      LowersToTimedOut(x);
      assert message == message[..i] + x + message[i + 9..];
    }
    if SaysTimedOut(message) {
      var a: string, x: string, b: string :| SpellsTimedOut(x) && message == a + x + b;
      LowersToTimedOut(x);
      assert message[|a|..|a| + 9] == x;
      assert MatchesAt(message, |a|);
    }
  }

  /** The executor's own timeout error is recognised. */
  lemma OwnTimeoutRecognised()
    ensures MentionsTimeout("Bet confirmation timed out")
  {
    assert MatchesAt("Bet confirmation timed out", 17);
  }

  /** The attempt ended in an error after an accepted submission, and not by timeout. */
  predicate Uncertain(reply: Reply) {
    reply.submit.Accepted? && reply.confirm.ConfirmThrew? && !MentionsTimeout(reply.confirm.message)
  }

  predicate Success(reply: Reply) {
    reply.submit.Accepted? && reply.confirm.Confirmed?
  }

  /** Everything else is retried while attempts remain. */
  predicate Retryable(reply: Reply) {
    !Success(reply) && !Uncertain(reply)
  }

  /** How many attempts are made: up to and including the first that is not retryable. */
  function Attempts(replies: nat -> Reply, k: nat, max: int): (n: nat)
    ensures k <= max ==> k < n <= max + 1
    ensures k > max ==> n == k
    decreases max - k + 1
  {
    if k > max then k
    else if Retryable(replies(k)) then Attempts(replies, k + 1, max)
    else k + 1
  }

  class BetExecutor {
    const maxPlacementRetries: int
    const idempotency: InMemoryIdempotencyStore

    constructor (maxPlacementRetries: int, idempotency: InMemoryIdempotencyStore)
      ensures this.maxPlacementRetries == maxPlacementRetries && this.idempotency == idempotency
    {
      this.maxPlacementRetries, this.idempotency := maxPlacementRetries, idempotency;
    }

    method PlaceBet(request: PlaceBetRequest, replies: nat -> Reply) returns (r: Execution)
      modifies idempotency
      ensures idempotency.store == Place(old(idempotency.store), maxPlacementRetries, request, replies).0
      ensures r == Place(old(idempotency.store), maxPlacementRetries, request, replies).1
      ensures GenerateKey(request.sessionId, request.roundId) !in old(idempotency.store) && !request.dryRun &&
              maxPlacementRetries >= 0 ==>
                && (LeavesOpen(replies(0)) ==> r.state == UNKNOWN_BET && r.submits == 1)
                && (replies(0).submit.Accepted? && replies(0).confirm.Confirmed? ==>
                      r.state == CONFIRMED_BET && r.submits == 1)
                && (LetsRetry(replies(0)) && maxPlacementRetries >= 1 ==> r.submits >= 2)
    {
      ReplyMeaning(replies(0));
      if maxPlacementRetries >= 0 {
        FirstReplyDecides(maxPlacementRetries, replies);
      }
      var key := GenerateKey(request.sessionId, request.roundId);
      var reserved := idempotency.Reserve(request.sessionId, request.roundId, request.betId);
      if !reserved {
        return Execution(false, FAILED_BET, true, 0, 0);
      }
      if request.dryRun {
        idempotency.SetStatus(request.sessionId, request.roundId, COMPLETED);
        return Execution(true, CONFIRMED_BET, false, 0, 0);
      }
      var reservedStore := idempotency.store;
      var retryCount := 0;
      var sideEffect := false;
      var submits: nat := 0;
      var attempt: nat := 0;
      while attempt <= maxPlacementRetries
        invariant idempotency.store == reservedStore
        invariant submits == attempt && !sideEffect
        invariant attempt <= maxPlacementRetries + 1 || (maxPlacementRetries < 0 && attempt == 0)
        invariant retryCount == if attempt == 0 then 0 else attempt - 1
        invariant forall j: nat | j < attempt :: Retryable(replies(j))
        invariant Attempts(replies, 0, maxPlacementRetries) == Attempts(replies, attempt, maxPlacementRetries)
        decreases maxPlacementRetries - attempt
      {
        if attempt > 0 {
          if sideEffect {
            break;
          }
          retryCount := attempt;
        }
        var reply := replies(attempt);
        submits := submits + 1;
        match reply.submit {
          case Accepted =>
            sideEffect := true;
            match reply.confirm {
              case Confirmed =>
                idempotency.SetStatus(request.sessionId, request.roundId, COMPLETED);
                return Execution(true, CONFIRMED_BET, false, retryCount, submits);
              case NotConfirmed =>
                sideEffect := false;
              case ConfirmThrew(message) =>
                if MentionsTimeout(message) {
                  sideEffect := false;
                }
            }
          case Rejected =>
          case SubmitThrew(_) =>
        }
        if sideEffect {
          break;
        }
        attempt := attempt + 1;
      }
      if sideEffect {
        idempotency.SetStatus(request.sessionId, request.roundId, UNKNOWN);
        return Execution(false, UNKNOWN_BET, false, retryCount, submits);
      }
      assert attempt > 0 ==> Retryable(replies(attempt - 1));
      idempotency.SetStatus(request.sessionId, request.roundId, FAILED);
      return Execution(false, FAILED_BET, false, retryCount, submits);
    }
  }

  /** What one call does to the store and returns. */
  function Place(store: Store, max: int, request: PlaceBetRequest, replies: nat -> Reply): (Store, Execution) {
    var key := GenerateKey(request.sessionId, request.roundId);
    if key in store then (store, Execution(false, FAILED_BET, true, 0, 0))
    else if request.dryRun then
      (store[key := Record(COMPLETED, request.betId)], Execution(true, CONFIRMED_BET, false, 0, 0))
    else
      var n := Attempts(replies, 0, max);
      var retryCount := if n == 0 then 0 else n - 1;
      if n > 0 && Success(replies(n - 1)) then
        (store[key := Record(COMPLETED, request.betId)], Execution(true, CONFIRMED_BET, false, retryCount, n))
      else if n > 0 && Uncertain(replies(n - 1)) then
        (store[key := Record(UNKNOWN, request.betId)], Execution(false, UNKNOWN_BET, false, retryCount, n))
      else
        (store[key := Record(FAILED, request.betId)], Execution(false, FAILED_BET, false, retryCount, n))
  }

  // ------------------------------------------------------------------ what a result means

  /** Every attempt before the last was retryable, and the last is not unless attempts ran out. */
  lemma {:induction false} AttemptsStopAtFirst(replies: nat -> Reply, k: nat, max: int)
    ensures var n := Attempts(replies, k, max);
            && (forall j: nat | k <= j && j + 1 < n :: Retryable(replies(j)))
            && (k <= max && n <= max ==> !Retryable(replies(n - 1)))
    decreases max - k + 1
  {
    if k <= max && Retryable(replies(k)) {
      AttemptsStopAtFirst(replies, k + 1, max);
    }
  }

  /** The submission was accepted, and its confirmation failed with an error that says nothing of a
      timeout: nobody knows what became of the bet. */
  ghost predicate LeavesOpen(reply: Reply) {
    reply.submit.Accepted? && reply.confirm.ConfirmThrew? && !SaysTimedOut(reply.confirm.message)
  }

  /** The submission was not accepted, or its confirmation said no or timed out. */
  ghost predicate LetsRetry(reply: Reply) {
    || !reply.submit.Accepted?
    || reply.confirm.NotConfirmed?
    || (reply.confirm.ConfirmThrew? && SaysTimedOut(reply.confirm.message))
  }

  lemma ReplyMeaning(reply: Reply)
    ensures Uncertain(reply) <==> LeavesOpen(reply)
    ensures Retryable(reply) <==> LetsRetry(reply)
  {
    if reply.confirm.ConfirmThrew? {
      MentionsTimeoutIff(reply.confirm.message);
    }
  }

  /** The first reply ends the call or lets it go on. */
  lemma FirstReplyDecides(max: int, replies: nat -> Reply)
    requires max >= 0
    ensures LeavesOpen(replies(0)) ==> Attempts(replies, 0, max) == 1 && Uncertain(replies(0))
    ensures LetsRetry(replies(0)) && max >= 1 ==> Attempts(replies, 0, max) >= 2
  {
    ReplyMeaning(replies(0));
  }

  predicate Agrees(state: BetState, status: KeyStatus) {
    match state
    case CONFIRMED_BET => status == COMPLETED
    case FAILED_BET => status == FAILED
    case UNKNOWN_BET => status == UNKNOWN
  }

  /** The number of submits, the classification of the last one, and the stored record. */
  lemma PlacementMeaning(store: Store, max: int, request: PlaceBetRequest, replies: nat -> Reply)
    requires GenerateKey(request.sessionId, request.roundId) !in store && !request.dryRun
    ensures var (store', r) := Place(store, max, request, replies);
            var key := GenerateKey(request.sessionId, request.roundId);
            && (max < 0 ==> r.submits == r.retryCount == 0 && r.state == FAILED_BET)
            && (max >= 0 ==>
                  && r.submits == r.retryCount + 1 && r.submits <= max + 1
                  && (r.state == UNKNOWN_BET <==> LeavesOpen(replies(r.submits - 1)))
                  && (r.state == CONFIRMED_BET <==>
                        replies(r.submits - 1).submit.Accepted? && replies(r.submits - 1).confirm.Confirmed?)
                  && (r.state == FAILED_BET ==> r.submits == max + 1))
            && (r.placed <==> r.state == CONFIRMED_BET) && !r.blocked
            && (forall j: nat | j + 1 < r.submits :: LetsRetry(replies(j)))
            && key in store' && Agrees(r.state, store'[key].status) && store'[key].betId == request.betId
            && store' - {key} == store
  {
    AttemptsStopAtFirst(replies, 0, max);
    var key := GenerateKey(request.sessionId, request.roundId);
    var (store', r) := Place(store, max, request, replies);
    assert store' - {key} == store;
    if r.submits > 0 {
      ReplyMeaning(replies(r.submits - 1));
    }
    forall j: nat | j + 1 < r.submits ensures LetsRetry(replies(j)) {
      ReplyMeaning(replies(j));
    }
  }

  /** A network error after an accepted submission is never followed by another submission. */
  lemma SocketHangUpStaysOpen(store: Store, max: int, request: PlaceBetRequest, replies: nat -> Reply)
    requires GenerateKey(request.sessionId, request.roundId) !in store && !request.dryRun && max >= 0
    requires replies(0) == Reply(Accepted, ConfirmThrew("socket hang up"))
    ensures var (store', r) := Place(store, max, request, replies);
            r.submits == 1 && r.state == UNKNOWN_BET
  {
    HangUpIsNoTimeout();
    FirstReplyDecides(max, replies);
  }

  /** A call whose key is recorded is blocked and changes nothing; a dry run is confirmed and recorded
      without any submission. */
  lemma NoSubmission(store: Store, max: int, request: PlaceBetRequest, replies: nat -> Reply)
    requires GenerateKey(request.sessionId, request.roundId) in store || request.dryRun
    ensures var (store', r) := Place(store, max, request, replies);
            var key := GenerateKey(request.sessionId, request.roundId);
            && r.submits == 0 && r.retryCount == 0 && r.blocked == (key in store) && r.placed == !r.blocked
            && r.state == (if r.blocked then FAILED_BET else CONFIRMED_BET)
            && store' == if r.blocked then store else store[key := Record(COMPLETED, request.betId)]
  {
  }

  lemma HangUpIsNoTimeout()
    ensures !SaysTimedOut("socket hang up")
  {
    forall a: string, x: string, b: string | "socket hang up" == a + x + b ensures !SpellsTimedOut(x) {
      HangUpPart(a, x, b);
    }
  }

  /** Where the word would stand, its second letter is none of i and I. */
  lemma HangUpPart(a: string, x: string, b: string)
    requires "socket hang up" == a + x + b
    ensures !SpellsTimedOut(x)
  {
    if |x| == 9 {
      var message := "socket hang up";
      assert x[1] == message[|a| + 1] && |a| <= 5;
      assert x[1] in "ocket ";
    }
  }

  /** Two of the first `n` submissions were accepted. */
  ghost predicate TwoAccepted(replies: nat -> Reply, n: nat) {
    exists j: nat, k: nat | j < k < n :: replies(j).submit.Accepted? && replies(k).submit.Accepted?
  }

  /** The header promises one physical bet per round. Within one call that holds against every
      adapter exactly when retries are switched off: an accepted bet whose confirmation says no
      or times out is submitted again. */
  lemma OneAcceptedSubmissionIffNoRetries(max: int)
    ensures (forall replies: nat -> Reply :: !TwoAccepted(replies, Attempts(replies, 0, max))) <==> max <= 0
  {
    if max >= 1 {
      var slow: nat -> Reply := k => Reply(Accepted, NotConfirmed);
      SlowAdapterExhausts(max, 0);
      assert slow(0).submit.Accepted? && slow(1).submit.Accepted?;
      assert TwoAccepted(slow, Attempts(slow, 0, max));
    }
  }

  lemma {:induction false} SlowAdapterExhausts(max: int, k: nat)
    requires k <= max + 1
    ensures Attempts((_: nat) => Reply(Accepted, NotConfirmed), k, max) == max + 1
    decreases max - k + 1
  {
    if k <= max {
      SlowAdapterExhausts(max, k + 1);
    }
  }

  // ------------------------------------------------------------------ runs of calls

  datatype Call = Call(request: PlaceBetRequest, replies: nat -> Reply)

  function KeyOf(c: Call): string {
    GenerateKey(c.request.sessionId, c.request.roundId)
  }

  function RunStore(store: Store, max: int, calls: seq<Call>): Store
    decreases |calls|
  {
    if calls == [] then store
    else RunStore(Place(store, max, calls[0].request, calls[0].replies).0, max, calls[1..])
  }

  /** The result of each call of a run. */
  function RunResults(store: Store, max: int, calls: seq<Call>): (rs: seq<Execution>)
    ensures |rs| == |calls|
    decreases |calls|
  {
    if calls == [] then []
    else
      var (store', r) := Place(store, max, calls[0].request, calls[0].replies);
      [r] + RunResults(store', max, calls[1..])
  }

  /** Once a key is recorded, every later call with it is blocked and the record never changes. */
  lemma {:induction false} RecordedKeysBlock(store: Store, max: int, calls: seq<Call>, key: string)
    requires key in store
    ensures var rs := RunResults(store, max, calls);
            forall i | 0 <= i < |calls| && KeyOf(calls[i]) == key :: rs[i].blocked && rs[i].submits == 0
    ensures key in RunStore(store, max, calls) && RunStore(store, max, calls)[key] == store[key]
    decreases |calls|
  {
    if calls != [] {
      var store' := Place(store, max, calls[0].request, calls[0].replies).0;
      RecordedKeysBlock(store', max, calls[1..], key);
    }
  }

  /** Of any two calls with the same session and round, the later one submits nothing. */
  lemma {:induction false} AtMostOneCallSubmits(store: Store, max: int, calls: seq<Call>, i: nat, j: nat)
    requires i < j < |calls| && KeyOf(calls[i]) == KeyOf(calls[j])
    ensures var rs := RunResults(store, max, calls); rs[j].blocked && rs[j].submits == 0
    decreases |calls|
  {
    var store' := Place(store, max, calls[0].request, calls[0].replies).0;
    if i == 0 {
      RecordedKeysBlock(store', max, calls[1..], KeyOf(calls[0]));
      assert KeyOf(calls[1..][j - 1]) == KeyOf(calls[0]);
    } else {
      AtMostOneCallSubmits(store', max, calls[1..], i - 1, j - 1);
    }
  }

  /** At the end of a run the record of every call that was let through agrees with what that
      call returned. */
  lemma {:induction false} RecordsAgreeWithResults(store: Store, max: int, calls: seq<Call>, i: nat)
    requires i < |calls|
    requires !RunResults(store, max, calls)[i].blocked
    ensures var final := RunStore(store, max, calls);
            && KeyOf(calls[i]) in final
            && Agrees(RunResults(store, max, calls)[i].state, final[KeyOf(calls[i])].status)
            && final[KeyOf(calls[i])].betId == calls[i].request.betId
    decreases |calls|
  {
    var store' := Place(store, max, calls[0].request, calls[0].replies).0;
    if i == 0 {
      RecordedKeysBlock(store', max, calls[1..], KeyOf(calls[0]));
    } else {
      RecordsAgreeWithResults(store', max, calls[1..], i - 1);
    }
  }
}
