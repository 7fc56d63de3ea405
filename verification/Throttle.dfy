/** The notification throttle: per-severity rate limits, debounced batches and duplicate removal,
    with sends in flight as separate steps. */
module Throttle {
  import opened Notifications

  datatype Policy = Policy(
    severity: Severity, maxPerMinute: int, maxPerHour: int, debounceMs: nat, batchWindowMs: nat, dropDuplicates: bool)
  {
    predicate Immediate() {
      debounceMs == 0 && batchWindowMs == 0
    }
  }

  datatype Channel = Channel(count: nat, windowStart: int, lastSent: int, pending: seq<Notification>, timer: bool)

  /** A batch handed to the transport whose outcome is not known yet. */
  datatype Send = Send(severity: Severity, batch: seq<Notification>)

  /** Where notifications ended up so far. */
  datatype Log = Log(
    submitted: multiset<Notification>, delivered: multiset<Notification>, dropped: multiset<Notification>,
    raised: multiset<Notification>, duplicates: multiset<Notification>)

  datatype State = State(channels: map<Severity, Channel>, stopped: bool, inFlight: seq<Send>, log: Log)

  const HOUR_MS := 3_600_000
  const MINUTE_MS := 60_000

  function Min(a: int, b: int): int {
    if a <= b then a else b
  }

  function Max(a: int, b: int): (m: int)
    ensures m >= a && m >= b && (m == a || m == b)
  {
    if a >= b then a else b
  }

  function CeilDiv(a: nat, b: nat): nat
    requires b > 0
  {
    (a + b - 1) / b
  }

  // ------------------------------------------------------------------ the rate check

  function MinuteCount(ch: Channel, now: int): nat {
    if ch.lastSent > now - MINUTE_MS then
      Min(ch.count, CeilDiv(ch.count * MINUTE_MS, Max(now - ch.windowStart, MINUTE_MS)))
    else 0
  }

  /** The window that the check leaves behind. */
  function Window(ch: Channel, now: int): Channel {
    if now - ch.windowStart > HOUR_MS then ch.(count := 0, windowStart := now) else ch
  }

  predicate WithinLimits(ch: Channel, p: Policy, now: int) {
    && MinuteCount(ch, now) + |ch.pending| < p.maxPerMinute
    && ch.count + |ch.pending| < p.maxPerHour
  }

  /** The per-minute limit is an average over the age of the hour window: the check passes exactly
      when there is room beside what is pending and, if anything was sent within the last minute,
      the count stays within that room for every minute of the age, however recent the sends were. */
  lemma MinuteLimitIsAnAverage(ch: Channel, p: Policy, now: int)
    ensures MinuteCount(ch, now) + |ch.pending| < p.maxPerMinute <==>
            && |ch.pending| < p.maxPerMinute
            && (ch.lastSent > now - 60_000 ==>
                  ch.count * 60_000 <= (p.maxPerMinute - 1 - |ch.pending|) * Max(now - ch.windowStart, 60_000))
  {
    var room := p.maxPerMinute - 1 - |ch.pending|;
    if room >= 0 && ch.lastSent > now - MINUTE_MS {
      EstimateUnder(ch.count, Max(now - ch.windowStart, MINUTE_MS), room);
    }
  }

  lemma EstimateUnder(count: nat, age: nat, m: nat)
    requires age >= MINUTE_MS
    ensures Min(count, CeilDiv(count * MINUTE_MS, age)) <= m <==> count * MINUTE_MS <= m * age
  {
    CeilAtMost(count * MINUTE_MS, age, m);
    if count <= m {
      Product(count, m, MINUTE_MS, age);
    }
  }

  lemma Product(a: nat, b: nat, c: nat, d: nat)
    requires a <= b && c <= d
    ensures a * c <= b * d
  {
    assert a * c <= b * c;
    assert b * c <= b * d;
  }

  lemma CeilAtMost(a: nat, b: nat, m: nat)
    requires b > 0
    ensures CeilDiv(a, b) <= m <==> a <= m * b
  {
    var q := CeilDiv(a, b);
    assert q * b <= a + b - 1 < q * b + b;
    if q <= m {
      assert q * b <= m * b;
    } else {
      assert q * b >= (m + 1) * b == m * b + b;
    }
  }

  // ------------------------------------------------------------------ the steps

  function Drop(s: State, ns: seq<Notification>): State {
    s.(log := s.log.(dropped := s.log.dropped + multiset(ns)))
  }

  ghost function ToSend(p: Policy, batch: seq<Notification>): seq<Notification> {
    if p.dropDuplicates then Dedup(batch) else batch
  }

  ghost function Flush(ps: map<Severity, Policy>, s: State, sev: Severity): State
    requires sev in s.channels && sev in ps
  {
    var batch := s.channels[sev].pending;
    if batch == [] then s
    else
      var sent := ToSend(ps[sev], batch);
      s.(channels := s.channels[sev := s.channels[sev].(pending := [])],
         inFlight := s.inFlight + [Send(sev, sent)],
         log := s.log.(duplicates := s.log.duplicates + (multiset(batch) - multiset(sent))))
  }

  ghost function Enqueue(ps: map<Severity, Policy>, s: State, n: Notification): State
    requires n.severity in s.channels && n.severity in ps
  {
    var ch := s.channels[n.severity];
    if ps[n.severity].Immediate() then
      Flush(ps, s.(channels := s.channels[n.severity := ch.(pending := ch.pending + [n])]), n.severity)
    else s.(channels := s.channels[n.severity := ch.(pending := ch.pending + [n], timer := true)])
  }

  ghost function Submit(ps: map<Severity, Policy>, s: State, n: Notification, now: int): State
    requires s.channels.Keys == ps.Keys
  {
    var s1 := s.(log := s.log.(submitted := s.log.submitted + multiset{n}));
    if s.stopped || n.severity !in ps then Drop(s1, [n])
    else if n.severity == Critical then s1.(inFlight := s.inFlight + [Send(Critical, [n])])
    else
      var ch := Window(s.channels[n.severity], now);
      var s2 := s1.(channels := s.channels[n.severity := ch]);
      if WithinLimits(ch, ps[n.severity], now) then Enqueue(ps, s2, n) else Drop(s2, [n])
  }

  /** Room for one more: the count of the hour, or of a new hour where the old one is over, and what is
      pending stay under both limits. */
  ghost predicate HasRoom(ch: Channel, p: Policy, now: int) {
    var lapsed := now - ch.windowStart > 3_600_000;
    var count, start := if lapsed then 0 else ch.count, if lapsed then now else ch.windowStart;
    && |ch.pending| < p.maxPerMinute && count + |ch.pending| < p.maxPerHour
    && (ch.lastSent > now - 60_000 ==>
          count * 60_000 <= (p.maxPerMinute - 1 - |ch.pending|) * Max(now - start, 60_000))
  }

  /** What the engine takes: anything critical that it has a policy for, and else what there is room for. */
  ghost predicate Admits(ps: map<Severity, Policy>, s: State, n: Notification, now: int)
    requires s.channels.Keys == ps.Keys
  {
    && !s.stopped && n.severity in ps
    && (n.severity == Critical || HasRoom(s.channels[n.severity], ps[n.severity], now))
  }

  ghost function PendingAt(s: State, sev: Severity): seq<Notification>
    requires sev in s.channels
  {
    s.channels[sev].pending
  }

  lemma RoomIsWithin(ch: Channel, p: Policy, now: int)
    ensures WithinLimits(Window(ch, now), p, now) <==> HasRoom(ch, p, now)
  {
    MinuteLimitIsAnAverage(Window(ch, now), p, now);
  }

  /** A submission is dropped exactly if the engine does not accept it. An accepted one is sent at once
      if it is critical or its policy has no delay, the pending ones with it, and else waits behind a timer. */
  lemma SubmitMeans(ps: map<Severity, Policy>, s: State, n: Notification, now: int, s': State)
    requires s.channels.Keys == ps.Keys && s' == Submit(ps, s, n, now)
    ensures s'.log.dropped == s.log.dropped + (if Admits(ps, s, n, now) then multiset{} else multiset{n})
    ensures forall t | t in ps && (t != n.severity || t == Critical || !Admits(ps, s, n, now)) ::
              PendingAt(s', t) == PendingAt(s, t)
    ensures !Admits(ps, s, n, now) ==> s'.inFlight == s.inFlight
    ensures Admits(ps, s, n, now) && n.severity == Critical ==> s'.inFlight == s.inFlight + [Send(Critical, [n])]
    ensures Admits(ps, s, n, now) && n.severity != Critical ==>
              var p, waiting := ps[n.severity], PendingAt(s, n.severity) + [n];
              if p.debounceMs == 0 && p.batchWindowMs == 0 then
                s'.inFlight == s.inFlight + [Send(n.severity, ToSend(p, waiting))] && PendingAt(s', n.severity) == []
              else
                && s'.inFlight == s.inFlight && s'.channels[n.severity].timer
                && PendingAt(s', n.severity) == waiting
  {
    if n.severity in ps {
      RoomIsWithin(s.channels[n.severity], ps[n.severity], now);
    }
  }

  function RemoveAt<T>(s: seq<T>, i: nat): seq<T>
    requires i < |s|
  {
    s[..i] + s[i + 1..]
  }

  function Deliver(s: State, send: Send, now: int): State
    requires send.severity in s.channels
  {
    var ch := s.channels[send.severity];
    s.(channels := s.channels[send.severity := ch.(count := ch.count + |send.batch|, lastSent := now)],
       log := s.log.(delivered := s.log.delivered + multiset(send.batch)))
  }

  /** The transport answers for one batch: success counts it, a failure raises a critical
      notification to its submitter and drops any other batch. */
  function Finish(s: State, i: nat, ok: bool, now: int): State
    requires i < |s.inFlight| && s.inFlight[i].severity in s.channels
  {
    var send := s.inFlight[i];
    var rest := s.(inFlight := RemoveAt(s.inFlight, i));
    if ok then Deliver(rest, send, now)
    else if send.severity == Critical then rest.(log := s.log.(raised := s.log.raised + multiset(send.batch)))
    else Drop(rest, send.batch)
  }

  function PendingOf(channels: map<Severity, Channel>, sev: Severity): multiset<Notification> {
    if sev in channels then multiset(channels[sev].pending) else multiset{}
  }

  function AllPending(channels: map<Severity, Channel>): multiset<Notification> {
    PendingOf(channels, Critical) + PendingOf(channels, Warning) +
    PendingOf(channels, Info) + PendingOf(channels, Debug)
  }

  function Cleared(ch: Channel): Channel {
    ch.(pending := [], timer := false)
  }

  function Stop(s: State): State {
    s.(stopped := true,
       channels := map sev | sev in s.channels :: Cleared(s.channels[sev]),
       log := s.log.(dropped := s.log.dropped + AllPending(s.channels)))
  }

  function CountIn(ns: seq<Notification>, n: Notification): nat {
    multiset(ns)[n]
  }

  function CountPending(channels: map<Severity, Channel>, sev: Severity, n: Notification): nat {
    if sev in channels then CountIn(channels[sev].pending, n) else 0
  }

  /** How often `n` is pending. */
  function PendingCount(channels: map<Severity, Channel>, n: Notification): nat {
    CountPending(channels, Critical, n) + CountPending(channels, Warning, n) +
    CountPending(channels, Info, n) + CountPending(channels, Debug, n)
  }

  lemma AllPendingCounts(channels: map<Severity, Channel>, n: Notification)
    ensures AllPending(channels)[n] == PendingCount(channels, n)
  {
  }

  lemma ReplaceOne(channels: map<Severity, Channel>, sev: Severity, ch: Channel, n: Notification)
    requires sev in channels
    ensures PendingCount(channels[sev := ch], n) + CountIn(channels[sev].pending, n) ==
            PendingCount(channels, n) + CountIn(ch.pending, n)
  {
    match sev { case _ => }
  }

  class ThrottleEngine {
    const policies: map<Severity, Policy>
    var states: map<Severity, Channel>
    var stopped: bool
    var inFlight: seq<Send>
    ghost var log: Log

    ghost function Now(): State
      reads this
    {
      State(states, stopped, inFlight, log)
    }

    ghost predicate Valid()
      reads this
    {
      Shape(policies, Now())
    }

    constructor (policies: map<Severity, Policy>, now: int)
      ensures Valid() && this.policies == policies && Now() == Start(policies, now)
    {
      this.policies := policies;
      states := map sev | sev in policies :: Channel(0, now, 0, [], false);
      stopped, inFlight := false, [];
      log := Log(multiset{}, multiset{}, multiset{}, multiset{}, multiset{});
    }

    method CheckRateLimit(sev: Severity, now: int) returns (ok: bool)
      requires sev in states && sev in policies
      modifies this`states
      ensures states == old(states)[sev := Window(old(states)[sev], now)]
      ensures ok == WithinLimits(states[sev], policies[sev], now)
      ensures var ch, ch' := old(states)[sev], states[sev];
              ch' == if now - ch.windowStart > 3_600_000 then ch.(count := 0, windowStart := now) else ch
    {
      var policy := policies[sev];
      var state := states[sev];
      if now - state.windowStart > HOUR_MS {
        state := state.(count := 0, windowStart := now);
      }
      states := states[sev := state];
      var totalInFlight := state.count + |state.pending|;
      var minuteCount := MinuteCount(state, now) + |state.pending|;
      if minuteCount >= policy.maxPerMinute {
        return false;
      }
      if totalInFlight >= policy.maxPerHour {
        return false;
      }
      return true;
    }

    /** The part of a flush before the transport is awaited. A batch of at least one always leaves
        at least one after the duplicates are gone, so there is always something to send. */
    method BeginFlush(sev: Severity)
      requires sev in states && sev in policies
      modifies this
      ensures Now() == Flush(policies, old(Now()), sev)
    {
      if |states[sev].pending| == 0 {
        return;
      }
      var batch := states[sev].pending;
      states := states[sev := states[sev].(pending := [])];
      var toSend := batch;
      if policies[sev].dropDuplicates {
        toSend := Deduplicate(batch);
      }
      log := log.(duplicates := log.duplicates + (multiset(batch) - multiset(toSend)));
      inFlight := inFlight + [Send(sev, toSend)];
    }

    /** A submission up to the point where it awaits the transport, if it does. */
    method SubmitNotification(n: Notification, now: int)
      requires Valid()
      modifies this
      ensures Now() == Submit(policies, old(Now()), n, now) && Valid()
    {
      SubmitKeepsShape(policies, Now(), n, now);
      log := log.(submitted := log.submitted + multiset{n});
      if stopped {
        log := log.(dropped := log.dropped + multiset([n]));
        return;
      }
      if n.severity !in policies {
        log := log.(dropped := log.dropped + multiset([n]));
        return;
      }
      if n.severity == Critical {
        inFlight := inFlight + [Send(Critical, [n])];
        return;
      }
      var ok := CheckRateLimit(n.severity, now);
      if !ok {
        log := log.(dropped := log.dropped + multiset([n]));
        return;
      }
      var state := states[n.severity];
      states := states[n.severity := state.(pending := state.pending + [n])];
      var policy := policies[n.severity];
      if policy.debounceMs == 0 && policy.batchWindowMs == 0 {
        BeginFlush(n.severity);
      } else if !states[n.severity].timer {
        states := states[n.severity := states[n.severity].(timer := true)];
      }
    }

    method TimerFires(sev: Severity)
      requires Valid() && sev in states && states[sev].timer
      modifies this
      ensures Now() == Step(policies, old(Now()), Fires(sev)) && Valid()
    {
      StepKeepsShape(policies, Now(), Fires(sev));
      states := states[sev := states[sev].(timer := false)];
      BeginFlush(sev);
    }

    method FinishSend(i: nat, ok: bool, now: int)
      requires Valid() && i < |inFlight|
      modifies this
      ensures Now() == Finish(old(Now()), i, ok, now) && Valid()
    {
      ghost var after := Finish(Now(), i, ok, now);
      FinishKeepsShape(policies, Now(), i, ok, now);
      var send := inFlight[i];
      inFlight := inFlight[..i] + inFlight[i + 1..];
      if ok {
        var state := states[send.severity];
        states := states[send.severity := state.(count := state.count + |send.batch|, lastSent := now)];
        log := log.(delivered := log.delivered + multiset(send.batch));
      } else if send.severity == Critical {
        log := log.(raised := log.raised + multiset(send.batch));
      } else {
        log := log.(dropped := log.dropped + multiset(send.batch));
      }
      assert Now() == after;
    }

    /** The loop of `stop`: every channel loses its timer and what it held. */
    method ClearChannels()
      modifies this`states, this`log
      ensures states == map sev | sev in old(states) :: Cleared(old(states)[sev])
      ensures log == old(log).(dropped := old(log).dropped + AllPending(old(states)))
    {
      ghost var before, dropped := states, log.dropped;
      var todo := states.Keys;
      while todo != {}
        invariant todo <= states.Keys == before.Keys
        invariant PartlyCleared(before, states, todo)
        invariant Conserved(dropped, before, log.dropped, states)
        invariant log == old(log).(dropped := log.dropped)
        decreases |todo|
      {
        var sev :| sev in todo;
        ConservedStep(dropped, before, log.dropped, states, sev);
        log := log.(dropped := log.dropped + multiset(states[sev].pending));
        states := states[sev := states[sev].(pending := [], timer := false)];
        todo := todo - {sev};
      }
      NothingPending(dropped, before, log.dropped, states);
    }

    method StopEngine()
      modifies this
      ensures Now() == Stop(old(Now()))
    {
      stopped := true;
      ClearChannels();
    }
  }

  ghost predicate PartlyCleared(before: map<Severity, Channel>, after: map<Severity, Channel>, todo: set<Severity>)
    requires before.Keys == after.Keys
  {
    forall sev | sev in after :: after[sev] == if sev in todo then before[sev] else Cleared(before[sev])
  }

  ghost predicate Conserved(dropped: multiset<Notification>, channels: map<Severity, Channel>,
                            dropped': multiset<Notification>, channels': map<Severity, Channel>)
  {
    forall n :: dropped'[n] + PendingCount(channels', n) == dropped[n] + PendingCount(channels, n)
  }

  lemma ConservedStep(dropped: multiset<Notification>, channels: map<Severity, Channel>,
                      dropped': multiset<Notification>, channels': map<Severity, Channel>, sev: Severity)
    requires sev in channels' && Conserved(dropped, channels, dropped', channels')
    ensures Conserved(dropped, channels, dropped' + multiset(channels'[sev].pending),
                      channels'[sev := Cleared(channels'[sev])])
  {
    forall n ensures (dropped' + multiset(channels'[sev].pending))[n] +
                     PendingCount(channels'[sev := Cleared(channels'[sev])], n) ==
                     dropped[n] + PendingCount(channels, n) {
      ReplaceOne(channels', sev, Cleared(channels'[sev]), n);
      assert CountIn([], n) == 0;
    }
  }

  lemma NothingPending(dropped: multiset<Notification>, channels: map<Severity, Channel>,
                       dropped': multiset<Notification>, channels': map<Severity, Channel>)
    requires Conserved(dropped, channels, dropped', channels')
    requires forall sev | sev in channels' :: channels'[sev].pending == []
    ensures dropped' == dropped + AllPending(channels)
  {
    forall n ensures dropped'[n] == (dropped + AllPending(channels))[n] {
      AllPendingCounts(channels, n);
      assert PendingCount(channels', n) == 0;
    }
  }

  // ------------------------------------------------------------------ every run

  datatype Event =
    | Submits(n: Notification, now: int)
    | Fires(sev: Severity)
    | Flushes(sev: Severity)
    | Finishes(i: nat, ok: bool, now: int)
    | Stops

  ghost function Start(ps: map<Severity, Policy>, now: int): State {
    State(map sev | sev in ps :: Channel(0, now, 0, [], false), false, [],
          Log(multiset{}, multiset{}, multiset{}, multiset{}, multiset{}))
  }

  /** No channel holds or batches more than both limits allow. */
  function Cap(p: Policy): nat {
    Max(0, Min(p.maxPerMinute, p.maxPerHour))
  }

  /** A channel that is about to be flushed: what it holds needs no timer yet. */
  ghost predicate Flushable(p: Policy, sev: Severity, ch: Channel, stopped: bool) {
    |ch.pending| <= Cap(p) && (ch.pending != [] ==> sev != Critical) && (stopped ==> !ch.timer)
  }

  ghost predicate ChannelShape(p: Policy, sev: Severity, ch: Channel, stopped: bool) {
    Flushable(p, sev, ch, stopped) && (ch.pending != [] ==> ch.timer && !p.Immediate())
  }

  ghost predicate SendShape(ps: map<Severity, Policy>, send: Send) {
    && send.severity in ps && send.batch != []
    && (if send.severity == Critical then |send.batch| == 1 else |send.batch| <= Cap(ps[send.severity]))
  }

  ghost predicate SendsShape(ps: map<Severity, Policy>, sends: seq<Send>) {
    forall i | 0 <= i < |sends| :: SendShape(ps, sends[i])
  }

  /** Pending notifications of a severity that is not sent at once wait behind a live timer, no
      channel or batch exceeds its cap, and a stopped engine has no timer. */
  ghost predicate Shape(ps: map<Severity, Policy>, s: State) {
    && s.channels.Keys == ps.Keys
    && (forall sev | sev in ps :: ChannelShape(ps[sev], sev, s.channels[sev], s.stopped))
    && SendsShape(ps, s.inFlight)
    && (s.stopped ==> forall sev | sev in ps :: s.channels[sev].pending == [])
  }

  /** The same with channel `sev` about to be flushed. */
  ghost predicate ShapeBefore(ps: map<Severity, Policy>, s: State, sev: Severity) {
    && s.channels.Keys == ps.Keys && sev in ps
    && (forall t | t in ps && t != sev :: ChannelShape(ps[t], t, s.channels[t], s.stopped))
    && Flushable(ps[sev], sev, s.channels[sev], s.stopped)
    && SendsShape(ps, s.inFlight)
    && (s.stopped ==> forall t | t in ps :: s.channels[t].pending == [])
  }

  lemma ToSendPart(p: Policy, batch: seq<Notification>)
    ensures multiset(ToSend(p, batch)) <= multiset(batch)
    ensures |ToSend(p, batch)| <= |batch| && (batch != [] ==> ToSend(p, batch) != [])
  {
    DedupIsPart(batch, Keys(batch), |batch|);
    assert batch[..|batch|] == batch;
    if batch != [] {
      DedupCoversKeys(batch, 0);
    }
  }

  lemma FlushKeepsShape(ps: map<Severity, Policy>, s: State, sev: Severity)
    requires ShapeBefore(ps, s, sev)
    ensures Shape(ps, Flush(ps, s, sev))
  {
    ToSendPart(ps[sev], s.channels[sev].pending);
  }

  lemma EnqueueKeepsShape(ps: map<Severity, Policy>, s: State, n: Notification, now: int)
    requires Shape(ps, s) && !s.stopped && n.severity in ps && n.severity != Critical
    requires WithinLimits(s.channels[n.severity], ps[n.severity], now)
    ensures Shape(ps, Enqueue(ps, s, n))
  {
    var ch := s.channels[n.severity];
    assert |ch.pending| + 1 <= Cap(ps[n.severity]);
    if ps[n.severity].Immediate() {
      FlushKeepsShape(ps, s.(channels := s.channels[n.severity := ch.(pending := ch.pending + [n])]), n.severity);
    }
  }

  lemma SubmitKeepsShape(ps: map<Severity, Policy>, s: State, n: Notification, now: int)
    requires Shape(ps, s)
    ensures Shape(ps, Submit(ps, s, n, now))
  {
    if !s.stopped && n.severity in ps && n.severity != Critical {
      var ch := Window(s.channels[n.severity], now);
      var s2 := s.(channels := s.channels[n.severity := ch], log := s.log.(submitted := s.log.submitted + multiset{n}));
      assert Shape(ps, s2);
      if WithinLimits(ch, ps[n.severity], now) {
        EnqueueKeepsShape(ps, s2, n, now);
      }
    }
  }

  lemma FinishKeepsShape(ps: map<Severity, Policy>, s: State, i: nat, ok: bool, now: int)
    requires Shape(ps, s) && i < |s.inFlight|
    ensures Shape(ps, Finish(s, i, ok, now))
  {
    RemoveKeepsSends(ps, s.inFlight, i);
    assert SendShape(ps, s.inFlight[i]);
  }

  lemma RemoveKeepsSends(ps: map<Severity, Policy>, sends: seq<Send>, i: nat)
    requires i < |sends| && SendsShape(ps, sends)
    ensures SendsShape(ps, RemoveAt(sends, i))
  {
    var rest := RemoveAt(sends, i);
    assert forall j | 0 <= j < |rest| :: rest[j] == sends[if j < i then j else j + 1];
  }

  // ------------------------------------------------------------------ nothing is lost

  ghost function CountTo(sends: seq<Send>, n: Notification, k: nat): nat
    requires k <= |sends|
  {
    if k == 0 then 0 else CountTo(sends, n, k - 1) + CountIn(sends[k - 1].batch, n)
  }

  ghost function FlightCount(sends: seq<Send>, n: Notification): nat {
    CountTo(sends, n, |sends|)
  }

  lemma {:induction false} CountToAgrees(a: seq<Send>, b: seq<Send>, n: Notification, k: nat)
    requires k <= |a| && k <= |b| && forall i | 0 <= i < k :: a[i] == b[i]
    ensures CountTo(a, n, k) == CountTo(b, n, k)
  {
    if k > 0 {
      CountToAgrees(a, b, n, k - 1);
    }
  }

  lemma FlightAppend(sends: seq<Send>, send: Send, n: Notification)
    ensures FlightCount(sends + [send], n) == FlightCount(sends, n) + CountIn(send.batch, n)
  {
    CountToAgrees(sends, sends + [send], n, |sends|);
  }

  lemma {:induction false} FlightRemove(sends: seq<Send>, i: nat, n: Notification, k: nat)
    requires i < k <= |sends|
    ensures CountTo(RemoveAt(sends, i), n, k - 1) + CountIn(sends[i].batch, n) == CountTo(sends, n, k)
  {
    if i == k - 1 {
      CountToAgrees(sends, RemoveAt(sends, i), n, i);
    } else {
      FlightRemove(sends, i, n, k - 1);
      assert RemoveAt(sends, i)[k - 2] == sends[k - 1];
    }
  }

  /** Where the copies of `n` are. */
  ghost function Accounted(s: State, n: Notification): nat {
    Placed(s.log, n) + PendingCount(s.channels, n) + FlightCount(s.inFlight, n)
  }

  ghost function Placed(log: Log, n: Notification): nat {
    log.delivered[n] + log.dropped[n] + log.raised[n] + log.duplicates[n]
  }

  lemma FlushConserves(ps: map<Severity, Policy>, s: State, sev: Severity, n: Notification)
    requires sev in s.channels && sev in ps
    ensures Accounted(Flush(ps, s, sev), n) == Accounted(s, n)
    ensures Flush(ps, s, sev).log.submitted == s.log.submitted
  {
    var batch, s' := s.channels[sev].pending, Flush(ps, s, sev);
    if batch != [] {
      var sent := ToSend(ps[sev], batch);
      EmptyCount(n);
      ReplaceOne(s.channels, sev, s.channels[sev].(pending := []), n);
      assert PendingCount(s'.channels, n) + CountIn(batch, n) == PendingCount(s.channels, n);
      FlightAppend(s.inFlight, Send(sev, sent), n);
      assert FlightCount(s'.inFlight, n) == FlightCount(s.inFlight, n) + CountIn(sent, n);
      Repeated(ps[sev], batch, n);
      assert Placed(s'.log, n) == Placed(s.log, n) + CountIn(batch, n) - CountIn(sent, n);
    }
  }

  lemma EmptyCount(n: Notification)
    ensures CountIn([], n) == 0
  {
  }

  lemma Repeated(p: Policy, batch: seq<Notification>, n: Notification)
    ensures (multiset(batch) - multiset(ToSend(p, batch)))[n] == CountIn(batch, n) - CountIn(ToSend(p, batch), n)
  {
    ToSendPart(p, batch);
  }

  lemma SameCount(n: Notification, m: Notification, ns: seq<Notification>)
    ensures CountIn(ns + [m], n) == CountIn(ns, n) + (if n == m then 1 else 0)
    ensures CountIn([m], n) == (if n == m then 1 else 0)
  {
  }

  lemma EnqueueConserves(ps: map<Severity, Policy>, s: State, m: Notification, n: Notification)
    requires m.severity in s.channels && m.severity in ps
    ensures Accounted(Enqueue(ps, s, m), n) == Accounted(s, n) + (if n == m then 1 else 0)
    ensures Enqueue(ps, s, m).log.submitted == s.log.submitted
  {
    var ch := s.channels[m.severity];
    SameCount(n, m, ch.pending);
    ReplaceOne(s.channels, m.severity, ch.(pending := ch.pending + [m]), n);
    ReplaceOne(s.channels, m.severity, ch.(pending := ch.pending + [m], timer := true), n);
    if ps[m.severity].Immediate() {
      FlushConserves(ps, s.(channels := s.channels[m.severity := ch.(pending := ch.pending + [m])]), m.severity, n);
    }
  }

  lemma DropCounts(s: State, ns: seq<Notification>, n: Notification)
    ensures Accounted(Drop(s, ns), n) == Accounted(s, n) + CountIn(ns, n)
  {
  }

  lemma SubmitConserves(ps: map<Severity, Policy>, s: State, m: Notification, now: int, n: Notification)
    requires s.channels.Keys == ps.Keys
    ensures Accounted(Submit(ps, s, m, now), n) - Accounted(s, n) ==
            Submit(ps, s, m, now).log.submitted[n] - s.log.submitted[n]
  {
    var s1 := s.(log := s.log.(submitted := s.log.submitted + multiset{m}));
    SameCount(n, m, []);
    if s.stopped || m.severity !in ps {
      DropCounts(s1, [m], n);
    } else if m.severity == Critical {
      FlightAppend(s.inFlight, Send(Critical, [m]), n);
    } else {
      var ch := Window(s.channels[m.severity], now);
      ReplaceOne(s.channels, m.severity, ch, n);
      var s2 := s1.(channels := s.channels[m.severity := ch]);
      if WithinLimits(ch, ps[m.severity], now) {
        EnqueueConserves(ps, s2, m, n);
      } else {
        DropCounts(s2, [m], n);
      }
    }
  }

  lemma FinishConserves(s: State, i: nat, ok: bool, now: int, n: Notification)
    requires i < |s.inFlight| && s.inFlight[i].severity in s.channels
    ensures Accounted(Finish(s, i, ok, now), n) == Accounted(s, n)
    ensures Finish(s, i, ok, now).log.submitted == s.log.submitted
  {
    var send := s.inFlight[i];
    var rest := s.(inFlight := RemoveAt(s.inFlight, i));
    FlightRemove(s.inFlight, i, n, |s.inFlight|);
    assert FlightCount(rest.inFlight, n) + CountIn(send.batch, n) == FlightCount(s.inFlight, n);
    if ok {
      DeliverCounts(rest, send, now, n);
    } else if send.severity == Critical {
      RaiseCounts(rest, send.batch, n);
    } else {
      DropCounts(rest, send.batch, n);
    }
  }

  lemma DeliverCounts(s: State, send: Send, now: int, n: Notification)
    requires send.severity in s.channels
    ensures Accounted(Deliver(s, send, now), n) == Accounted(s, n) + CountIn(send.batch, n)
  {
    var channels, channels' := s.channels, Deliver(s, send, now).channels;
    assert PendingCount(channels', n) == PendingCount(channels, n) by {
      ReplaceOne(channels, send.severity, channels'[send.severity], n);
    }
    assert Placed(Deliver(s, send, now).log, n) == Placed(s.log, n) + CountIn(send.batch, n);
  }

  lemma RaiseCounts(s: State, ns: seq<Notification>, n: Notification)
    ensures Accounted(s.(log := s.log.(raised := s.log.raised + multiset(ns))), n) == Accounted(s, n) + CountIn(ns, n)
  {
  }

  lemma StopConserves(s: State, n: Notification)
    ensures Accounted(Stop(s), n) == Accounted(s, n)
    ensures Stop(s).log.submitted == s.log.submitted
  {
    AllPendingCounts(s.channels, n);
    assert CountIn([], n) == 0;
  }

  // ------------------------------------------------------------------ events and runs

  /** A timer fires only while it is live, and the transport answers only for a send in flight. */
  ghost function Step(ps: map<Severity, Policy>, s: State, e: Event): (s': State)
    requires s.channels.Keys == ps.Keys
    ensures s'.channels.Keys == ps.Keys
  {
    match e
    case Submits(n, now) => Submit(ps, s, n, now)
    case Fires(sev) =>
      if sev in ps && s.channels[sev].timer then
        Flush(ps, s.(channels := s.channels[sev := s.channels[sev].(timer := false)]), sev)
      else s
    case Flushes(sev) => if sev in ps then Flush(ps, s, sev) else s
    case Finishes(i, ok, now) =>
      if i < |s.inFlight| && s.inFlight[i].severity in ps then Finish(s, i, ok, now) else s
    case Stops => Stop(s)
  }

  lemma StepKeepsShape(ps: map<Severity, Policy>, s: State, e: Event)
    requires Shape(ps, s)
    ensures Shape(ps, Step(ps, s, e))
  {
    match e
    case Submits(n, now) => SubmitKeepsShape(ps, s, n, now);
    case Fires(sev) =>
      if sev in ps && s.channels[sev].timer {
        FlushKeepsShape(ps, s.(channels := s.channels[sev := s.channels[sev].(timer := false)]), sev);
      }
    case Flushes(sev) =>
      if sev in ps {
        FlushKeepsShape(ps, s, sev);
      }
    case Finishes(i, ok, now) =>
      if i < |s.inFlight| {
        FinishKeepsShape(ps, s, i, ok, now);
      }
    case Stops =>
  }

  /** Submitted copies of `n` that are nowhere. */
  ghost function Missing(s: State, n: Notification): int {
    s.log.submitted[n] - Accounted(s, n)
  }

  lemma StepConserves(ps: map<Severity, Policy>, s: State, e: Event, n: Notification)
    requires s.channels.Keys == ps.Keys
    ensures Missing(Step(ps, s, e), n) == Missing(s, n)
  {
    match e
    case Submits(m, now) => SubmitConserves(ps, s, m, now, n);
    case Fires(sev) =>
      if sev in ps && s.channels[sev].timer {
        var ch := s.channels[sev].(timer := false);
        ReplaceOne(s.channels, sev, ch, n);
        FlushConserves(ps, s.(channels := s.channels[sev := ch]), sev, n);
      }
    case Flushes(sev) =>
      if sev in ps {
        FlushConserves(ps, s, sev, n);
      }
    case Finishes(i, ok, now) =>
      if i < |s.inFlight| && s.inFlight[i].severity in ps {
        FinishConserves(s, i, ok, now, n);
      }
    case Stops => StopConserves(s, n);
  }

  ghost function RunAll(ps: map<Severity, Policy>, s: State, es: seq<Event>): (s': State)
    requires s.channels.Keys == ps.Keys
    ensures s'.channels.Keys == ps.Keys
    decreases |es|
  {
    if es == [] then s else RunAll(ps, Step(ps, s, es[0]), es[1..])
  }

  lemma {:induction false} RunKeeps(ps: map<Severity, Policy>, s: State, es: seq<Event>, n: Notification)
    requires Shape(ps, s) && Missing(s, n) == 0
    ensures Shape(ps, RunAll(ps, s, es)) && Missing(RunAll(ps, s, es), n) == 0
    decreases |es|
  {
    if es != [] {
      StepKeepsShape(ps, s, es[0]);
      StepConserves(ps, s, es[0], n);
      RunKeeps(ps, Step(ps, s, es[0]), es[1..], n);
    }
  }

  lemma StartCounts(ps: map<Severity, Policy>, start: int, n: Notification)
    ensures Shape(ps, Start(ps, start)) && Missing(Start(ps, start), n) == 0
  {
    EmptyCount(n);
  }

  /** In every state of every run, every copy that was submitted is in exactly one place: delivered,
      dropped, raised to its submitter, discarded as a repetition, pending or in flight. */
  lemma ReachableAccounts(ps: map<Severity, Policy>, start: int, es: seq<Event>, n: Notification)
    ensures var s := RunAll(ps, Start(ps, start), es);
            && Shape(ps, s)
            && s.log.submitted[n] == s.log.delivered[n] + s.log.dropped[n] + s.log.raised[n] + s.log.duplicates[n] +
                                     PendingCount(s.channels, n) + FlightCount(s.inFlight, n)
  {
    StartCounts(ps, start, n);
    RunKeeps(ps, Start(ps, start), es, n);
  }

  lemma FinishDelivers(s: State, i: nat, ok: bool, now: int, n: Notification)
    requires i < |s.inFlight| && s.inFlight[i].severity in s.channels
    ensures var s' := Finish(s, i, ok, now);
            && s'.stopped == s.stopped && s'.inFlight == RemoveAt(s.inFlight, i)
            && s'.log.delivered[n] == s.log.delivered[n] + if ok then CountIn(s.inFlight[i].batch, n) else 0
  {
  }

  /** An answer, case by case: a success is delivered and counted, a failure raised if it is critical and
      else dropped. */
  lemma FinishMeans(s: State, i: nat, ok: bool, now: int, s': State)
    requires i < |s.inFlight| && s.inFlight[i].severity in s.channels && s' == Finish(s, i, ok, now)
    ensures var send := s.inFlight[i];
            var batch, ch, ch' := multiset(send.batch), s.channels[send.severity], s'.channels[send.severity];
            && s'.log.delivered == s.log.delivered + (if ok then batch else multiset{})
            && s'.log.raised == s.log.raised + (if !ok && send.severity == Critical then batch else multiset{})
            && s'.log.dropped == s.log.dropped + (if ok || send.severity == Critical then multiset{} else batch)
            && ch' == if ok then ch.(count := ch.count + |send.batch|, lastSent := now) else ch
  {
  }

  /** The copies of `n` that are delivered or may still be. */
  ghost function Deliverable(s: State, n: Notification): nat {
    s.log.delivered[n] + FlightCount(s.inFlight, n)
  }

  /** Only answers from the transport do anything to a stopped engine's sends. */
  lemma StoppedIsIdle(ps: map<Severity, Policy>, s: State, e: Event, s': State)
    requires Shape(ps, s) && s.stopped && !e.Finishes? && s' == Step(ps, s, e)
    ensures s'.stopped && s'.inFlight == s.inFlight && s'.log.delivered == s.log.delivered
  {
    match e
    case Fires(sev) => assert sev in ps ==> ChannelShape(ps[sev], sev, s.channels[sev], true);
    case Flushes(sev) => assert sev in ps ==> s.channels[sev].pending == [];
    case _ =>
  }

  lemma StoppedStep(ps: map<Severity, Policy>, s: State, e: Event, s': State, n: Notification)
    requires Shape(ps, s) && s.stopped && s' == Step(ps, s, e)
    ensures s'.stopped && Deliverable(s', n) <= Deliverable(s, n)
  {
    if e.Finishes? {
      if e.i < |s.inFlight| {
        assert SendShape(ps, s.inFlight[e.i]);
        FlightRemove(s.inFlight, e.i, n, |s.inFlight|);
        FinishDelivers(s, e.i, e.ok, e.now, n);
      }
    } else {
      StoppedIsIdle(ps, s, e, s');
    }
  }

  /** After a stop nothing starts, whatever follows: what is delivered later was already in flight. */
  lemma {:induction false} StoppedStaysQuiet(ps: map<Severity, Policy>, s: State, es: seq<Event>, n: Notification)
    requires Shape(ps, s) && s.stopped
    ensures var s' := RunAll(ps, s, es);
            s'.stopped && s'.log.delivered[n] <= s.log.delivered[n] + FlightCount(s.inFlight, n)
    ensures Deliverable(RunAll(ps, s, es), n) <= Deliverable(s, n)
    decreases |es|
  {
    if es != [] {
      var s1 := Step(ps, s, es[0]);
      StepKeepsShape(ps, s, es[0]);
      StoppedStep(ps, s, es[0], s1, n);
      StoppedStaysQuiet(ps, s1, es[1..], n);
    }
  }

  /** Stopping is final: whatever follows, what is delivered later was in flight at the stop. */
  lemma NothingStartsAfterStop(ps: map<Severity, Policy>, s: State, es: seq<Event>, n: Notification)
    requires Shape(ps, s)
    ensures var s' := RunAll(ps, Step(ps, s, Stops), es);
            s'.stopped && s'.log.delivered[n] <= s.log.delivered[n] + FlightCount(s.inFlight, n)
  {
    StepKeepsShape(ps, s, Stops);
    StoppedStaysQuiet(ps, Step(ps, s, Stops), es, n);
  }
}
