/** Deliveries in time: when every interval of a given width, such as a minute, stays within a limit,
    and a run that the engine's per-minute check lets through. */
module ThrottleIntervals {
  import opened Notifications
  import opened Throttle
  import opened ThrottleLimits

  /** So many notifications of one severity, delivered together. */
  datatype Delivery = Delivery(at: int, size: nat)

  /** The engine with a clock and the log of the deliveries of one severity. */
  datatype Timed = Timed(state: State, clock: int, sent: seq<Delivery>)

  function TimeOf(e: Event, clock: int): int {
    if e.Submits? || e.Finishes? then e.now else clock
  }

  ghost function TimedStep(ps: map<Severity, Policy>, t: Timed, e: Event, sev: Severity): (t': Timed)
    requires t.state.channels.Keys == ps.Keys
    ensures t'.state.channels.Keys == ps.Keys
  {
    Timed(Step(ps, t.state, e), TimeOf(e, t.clock), Logged(t.sent, TimeOf(e, t.clock), Delivers(t.state, e, sev)))
  }

  function Logged(sent: seq<Delivery>, at: int, size: nat): seq<Delivery> {
    if size > 0 then sent + [Delivery(at, size)] else sent
  }

  /** How many of the first `k` deliveries, by size, fall after `from` and not after `to`. */
  function SentTo(sent: seq<Delivery>, k: nat, from: int, to: int): nat
    requires k <= |sent|
  {
    if k == 0 then 0
    else SentTo(sent, k - 1, from, to) + if from < sent[k - 1].at <= to then sent[k - 1].size else 0
  }

  function SentIn(sent: seq<Delivery>, from: int, to: int): nat {
    SentTo(sent, |sent|, from, to)
  }

  lemma {:induction false} SentPrefix(sent: seq<Delivery>, more: seq<Delivery>, k: nat, from: int, to: int)
    requires k <= |sent|
    ensures SentTo(sent + more, k, from, to) == SentTo(sent, k, from, to)
  {
    if k > 0 {
      SentPrefix(sent, more, k - 1, from, to);
    }
  }

  lemma SentSnoc(sent: seq<Delivery>, d: Delivery, from: int, to: int)
    ensures SentIn(sent + [d], from, to) == SentIn(sent, from, to) + if from < d.at <= to then d.size else 0
  {
    SentPrefix(sent, [d], |sent|, from, to);
  }

  /** How many notifications were delivered in the interval of the given width that ends at `now`. */
  function Last(sent: seq<Delivery>, width: nat, now: int): nat {
    SentIn(sent, now - width, now)
  }

  ghost predicate Past(sent: seq<Delivery>, clock: int) {
    forall i | 0 <= i < |sent| :: sent[i].at <= clock
  }

  /** Seen from later, or from a later start, an interval holds no more. */
  lemma {:induction false} SentShrinks(sent: seq<Delivery>, k: nat, clock: int,
                                       from: int, to: int, from': int, to': int)
    requires k <= |sent| && Past(sent, clock) && clock <= to && from <= from'
    ensures SentTo(sent, k, from', to') <= SentTo(sent, k, from, to)
  {
    if k > 0 {
      SentShrinks(sent, k - 1, clock, from, to, from', to');
    }
  }

  /** No interval of the width holds more than the limit. */
  ghost predicate Bounded(sent: seq<Delivery>, width: nat, limit: int) {
    forall to :: Last(sent, width, to) <= limit
  }

  /** Deliveries of the last `width` milliseconds, and what may still be delivered. */
  ghost function RecentLoad(ps: map<Severity, Policy>, t: Timed, width: nat, sev: Severity): nat
    requires sev in t.state.channels && sev in ps
  {
    Last(t.sent, width, t.clock) + Waiting(ps, t.state, sev)
  }

  /** An accepted submission fits the interval that ends with it. */
  ghost predicate UnderRecent(ps: map<Severity, Policy>, t: Timed, e: Event, width: nat, sev: Severity, limit: int)
    requires t.state.channels.Keys == ps.Keys && sev in ps
  {
    Accepts(ps, t.state, e, sev) ==> Last(t.sent, width, e.now) + WaitingWith(ps, t.state, sev, e.n) <= limit
  }

  /** Time does not run backwards. */
  predicate InOrder(t: Timed, e: Event) {
    t.clock <= TimeOf(e, t.clock)
  }

  ghost predicate TimedOk(ps: map<Severity, Policy>, t: Timed) {
    Shape(ps, t.state) && Past(t.sent, t.clock)
  }

  lemma LogStep(sent: seq<Delivery>, clock: int, at: int, size: nat, width: nat)
    requires Past(sent, clock) && clock <= at && width > 0
    ensures Past(Logged(sent, at, size), at)
    ensures Last(Logged(sent, at, size), width, at) == Last(sent, width, at) + size
    ensures Last(sent, width, at) <= Last(sent, width, clock)
  {
    SentShrinks(sent, |sent|, clock, clock - width, clock, at - width, at);
    SentSnoc(sent, Delivery(at, size), at - width, at);
  }

  lemma StepRecent(ps: map<Severity, Policy>, t: Timed, e: Event, t': Timed, width: nat, sev: Severity, limit: int)
    requires TimedOk(ps, t) && InOrder(t, e) && sev in ps && sev != Critical && width > 0
    requires t' == TimedStep(ps, t, e, sev) && RecentLoad(ps, t, width, sev) <= limit
    ensures TimedOk(ps, t')
    ensures RecentLoad(ps, t', width, sev) <= limit <==> UnderRecent(ps, t, e, width, sev, limit)
  {
    StepKeepsShape(ps, t.state, e);
    StepMoves(ps, t.state, e, t'.state, sev);
    LogStep(t.sent, t.clock, t'.clock, Delivers(t.state, e, sev), width);
  }

  /** A delivery stays within every interval if it stays within the one that ends with it. */
  lemma StepBounded(sent: seq<Delivery>, clock: int, at: int, size: nat, width: nat, limit: int)
    requires Past(sent, clock) && clock <= at && Bounded(sent, width, limit)
    requires Last(Logged(sent, at, size), width, at) <= limit
    ensures Bounded(Logged(sent, at, size), width, limit)
  {
    var sent' := Logged(sent, at, size);
    forall to ensures Last(sent', width, to) <= limit {
      assert Last(sent, width, to) <= limit;
      if at <= to {
        SentShrinks(sent', |sent'|, at, at - width, at, to - width, to);
      } else {
        SentSnoc(sent, Delivery(at, size), to - width, to);
      }
    }
  }

  ghost function TimedRun(ps: map<Severity, Policy>, t: Timed, es: seq<Event>, sev: Severity): (t': Timed)
    requires t.state.channels.Keys == ps.Keys
    ensures t'.state.channels.Keys == ps.Keys
    decreases |es|
  {
    if es == [] then t else TimedRun(ps, TimedStep(ps, t, es[0], sev), es[1..], sev)
  }

  ghost predicate OrderedRun(ps: map<Severity, Policy>, t: Timed, es: seq<Event>, sev: Severity)
    requires t.state.channels.Keys == ps.Keys
    decreases |es|
  {
    es != [] ==> InOrder(t, es[0]) && OrderedRun(ps, TimedStep(ps, t, es[0], sev), es[1..], sev)
  }

  ghost predicate AcceptsUnderRecent(ps: map<Severity, Policy>, t: Timed, es: seq<Event>, width: nat, sev: Severity,
                                     limit: int)
    requires t.state.channels.Keys == ps.Keys && sev in ps
    decreases |es|
  {
    es != [] ==>
      && UnderRecent(ps, t, es[0], width, sev, limit)
      && AcceptsUnderRecent(ps, TimedStep(ps, t, es[0], sev), es[1..], width, sev, limit)
  }

  ghost predicate RecentStays(ps: map<Severity, Policy>, t: Timed, es: seq<Event>, width: nat, sev: Severity,
                              limit: int)
    requires t.state.channels.Keys == ps.Keys && sev in ps
    decreases |es|
  {
    && RecentLoad(ps, t, width, sev) <= limit
    && (es != [] ==> RecentStays(ps, TimedStep(ps, t, es[0], sev), es[1..], width, sev, limit))
  }

  /** The recent load stays within a limit along a run exactly when it does so with every accepted
      submission. */
  lemma {:induction false} RecentStaysIff(ps: map<Severity, Policy>, t: Timed, es: seq<Event>, width: nat,
                                          sev: Severity, limit: int)
    requires TimedOk(ps, t) && OrderedRun(ps, t, es, sev) && sev in ps && sev != Critical && width > 0
    requires RecentLoad(ps, t, width, sev) <= limit
    ensures RecentStays(ps, t, es, width, sev, limit) <==> AcceptsUnderRecent(ps, t, es, width, sev, limit)
    decreases |es|
  {
    if es != [] {
      var t' := TimedStep(ps, t, es[0], sev);
      StepRecent(ps, t, es[0], t', width, sev, limit);
      if UnderRecent(ps, t, es[0], width, sev, limit) {
        RecentStaysIff(ps, t', es[1..], width, sev, limit);
      }
    }
  }

  /** If the recent load fits the limit with every accepted submission, no interval of that width, a
      minute or any other, ever holds more deliveries than the limit. */
  lemma {:induction false} IntervalsBounded(ps: map<Severity, Policy>, t: Timed, es: seq<Event>, width: nat,
                                            sev: Severity, limit: int)
    requires TimedOk(ps, t) && OrderedRun(ps, t, es, sev) && sev in ps && sev != Critical && width > 0
    requires Bounded(t.sent, width, limit) && RecentLoad(ps, t, width, sev) <= limit
    requires AcceptsUnderRecent(ps, t, es, width, sev, limit)
    ensures Bounded(TimedRun(ps, t, es, sev).sent, width, limit)
    decreases |es|
  {
    if es != [] {
      var t' := TimedStep(ps, t, es[0], sev);
      StepRecent(ps, t, es[0], t', width, sev, limit);
      StepBounded(t.sent, t.clock, t'.clock, Delivers(t.state, es[0], sev), width, limit);
      IntervalsBounded(ps, t', es[1..], width, sev, limit);
    }
  }

  ghost function Fresh(ps: map<Severity, Policy>, start: int): Timed {
    Timed(Start(ps, start), start, [])
  }

  // ------------------------------------------------------------------ the condition is exact

  lemma FinishStep(ps: map<Severity, Policy>, t: Timed, t': Timed, width: nat, sev: Severity)
    requires TimedOk(ps, t) && sev in ps && width > 0 && t.state.inFlight != []
    requires t' == TimedStep(ps, t, Finishes(0, true, t.clock), sev)
    ensures TimedOk(ps, t') && t'.clock == t.clock && |t'.state.inFlight| == |t.state.inFlight| - 1
    ensures Last(t'.sent, width, t.clock) + FlightSize(t'.state.inFlight, sev) ==
            Last(t.sent, width, t.clock) + FlightSize(t.state.inFlight, sev)
  {
    FinishesFirst(ps, t.state, t.clock, t'.state, sev);
    LogStep(t.sent, t.clock, t.clock, SizeOf(t.state.inFlight[0], sev), width);
  }

  lemma {:induction false} FinishAllDelivers(ps: map<Severity, Policy>, t: Timed, width: nat, sev: Severity)
    requires TimedOk(ps, t) && sev in ps && width > 0
    ensures var es := FinishAll(|t.state.inFlight|, t.clock);
            && OrderedRun(ps, t, es, sev)
            && Last(TimedRun(ps, t, es, sev).sent, width, t.clock) ==
               Last(t.sent, width, t.clock) + FlightSize(t.state.inFlight, sev)
    decreases |t.state.inFlight|
  {
    if t.state.inFlight != [] {
      var t' := TimedStep(ps, t, Finishes(0, true, t.clock), sev);
      FinishStep(ps, t, t', width, sev);
      assert FinishAll(|t.state.inFlight|, t.clock)[1..] == FinishAll(|t'.state.inFlight|, t.clock);
      FinishAllDelivers(ps, t', width, sev);
    }
  }

  /** The whole recent load can be delivered at this very moment. */
  lemma RecentIsDelivered(ps: map<Severity, Policy>, t: Timed, width: nat, sev: Severity) returns (es: seq<Event>)
    requires TimedOk(ps, t) && sev in ps && sev != Critical && width > 0
    ensures NoSubmissions(es) && OrderedRun(ps, t, es, sev)
    ensures Last(TimedRun(ps, t, es, sev).sent, width, t.clock) == RecentLoad(ps, t, width, sev)
  {
    var t' := TimedStep(ps, t, Flushes(sev), sev);
    FlushWaits(ps, t.state, sev, sev);
    StepKeepsShape(ps, t.state, Flushes(sev));
    FinishAllDelivers(ps, t', width, sev);
    var finishes := FinishAll(|t'.state.inFlight|, t.clock);
    es := [Flushes(sev)] + finishes;
    assert es[1..] == finishes;
  }

  lemma {:induction false} NothingAccepted(ps: map<Severity, Policy>, t: Timed, es: seq<Event>, width: nat,
                                           sev: Severity, limit: int)
    requires t.state.channels.Keys == ps.Keys && sev in ps && NoSubmissions(es)
    ensures AcceptsUnderRecent(ps, t, es, width, sev, limit)
    decreases |es|
  {
    if es != [] {
      assert es[0] in es;
      NothingAccepted(ps, TimedStep(ps, t, es[0], sev), es[1..], width, sev, limit);
    }
  }

  /** What is already accepted can push some interval over a limit exactly when the recent load is
      over it: no acceptance beyond the condition is safe. */
  lemma IntervalLimitIff(ps: map<Severity, Policy>, t: Timed, width: nat, sev: Severity, limit: int)
    requires TimedOk(ps, t) && sev in ps && sev != Critical && width > 0
    requires Bounded(t.sent, width, limit)
    ensures (exists es :: NoSubmissions(es) && OrderedRun(ps, t, es, sev) &&
                          !Bounded(TimedRun(ps, t, es, sev).sent, width, limit)) <==>
            RecentLoad(ps, t, width, sev) > limit
  {
    if RecentLoad(ps, t, width, sev) > limit {
      var es := RecentIsDelivered(ps, t, width, sev);
      assert Last(TimedRun(ps, t, es, sev).sent, width, t.clock) > limit;
    } else {
      forall es | NoSubmissions(es) && OrderedRun(ps, t, es, sev)
        ensures Bounded(TimedRun(ps, t, es, sev).sent, width, limit)
      {
        NothingAccepted(ps, t, es, width, sev, limit);
        IntervalsBounded(ps, t, es, width, sev, limit);
      }
    }
  }

  // ------------------------------------------------------------------ three in a minute of two

  /** Fifty minutes into the hour window. */
  const LATE := 3_000_000

  ghost predicate Idle(t: Timed, count: nat, lastSent: int) {
    && Warning in t.state.channels && t.state.channels[Warning] == Channel(count, 0, lastSent, [], false)
    && t.state.inFlight == [] && !t.state.stopped && t.clock <= LATE
  }

  function TwoAMinute(): map<Severity, Policy> {
    map[Warning := Policy(Warning, 2, 100, 0, 0, false)]
  }

  /** Late in the window the estimate for one or two recent deliveries is one. */
  lemma LateEstimate(count: nat, lastSent: int)
    requires count <= 2 && (count == 0 ==> lastSent == 0)
    ensures WithinLimits(Channel(count, 0, lastSent, [], false), TwoAMinute()[Warning], LATE)
  {
    assert CeilDiv(60_000, LATE) == 1 && CeilDiv(120_000, LATE) == 1;
  }

  lemma DeliversOne(t: Timed, n: Notification, count: nat, lastSent: int)
    requires t.state.channels.Keys == TwoAMinute().Keys && Idle(t, count, lastSent) && n.severity == Warning
    requires count <= 2 && (count == 0 ==> lastSent == 0)
    ensures var t1 := TimedStep(TwoAMinute(), t, Submits(n, LATE), Warning);
            var t2 := TimedStep(TwoAMinute(), t1, Finishes(0, true, LATE), Warning);
            && InOrder(t, Submits(n, LATE)) && InOrder(t1, Finishes(0, true, LATE))
            && Idle(t2, count + 1, LATE) && t2.sent == t.sent + [Delivery(LATE, 1)]
  {
    var ps := TwoAMinute();
    LateEstimate(count, lastSent);
    var t1 := TimedStep(ps, t, Submits(n, LATE), Warning);
    assert [] + [n] == [n];
    assert t1.state.inFlight == [Send(Warning, [n])] && t1.state.channels[Warning] == t.state.channels[Warning];
    assert RemoveAt(t1.state.inFlight, 0) == [];
  }

  lemma TimedCons(ps: map<Severity, Policy>, t: Timed, e: Event, es: seq<Event>, sev: Severity)
    requires t.state.channels.Keys == ps.Keys
    ensures TimedRun(ps, t, [e] + es, sev) == TimedRun(ps, TimedStep(ps, t, e, sev), es, sev)
    ensures OrderedRun(ps, t, [e] + es, sev) <==>
            InOrder(t, e) && OrderedRun(ps, TimedStep(ps, t, e, sev), es, sev)
  {
    assert ([e] + es)[1..] == es;
  }

  /** A submission and its delivery. */
  function Sent(n: Notification): seq<Event> {
    [Submits(n, LATE), Finishes(0, true, LATE)]
  }

  lemma SentThen(t: Timed, n: Notification, count: nat, lastSent: int, es: seq<Event>) returns (t': Timed)
    requires t.state.channels.Keys == TwoAMinute().Keys && Idle(t, count, lastSent) && n.severity == Warning
    requires count <= 2 && (count == 0 ==> lastSent == 0)
    ensures t'.state.channels.Keys == TwoAMinute().Keys && Idle(t', count + 1, LATE)
    ensures t'.sent == t.sent + [Delivery(LATE, 1)]
    ensures TimedRun(TwoAMinute(), t, Sent(n) + es, Warning) == TimedRun(TwoAMinute(), t', es, Warning)
    ensures OrderedRun(TwoAMinute(), t', es, Warning) ==> OrderedRun(TwoAMinute(), t, Sent(n) + es, Warning)
  {
    var ps := TwoAMinute();
    DeliversOne(t, n, count, lastSent);
    var t1 := TimedStep(ps, t, Submits(n, LATE), Warning);
    t' := TimedStep(ps, t1, Finishes(0, true, LATE), Warning);
    assert Sent(n) + es == [Submits(n, LATE)] + ([Finishes(0, true, LATE)] + es);
    TimedCons(ps, t, Submits(n, LATE), [Finishes(0, true, LATE)] + es, Warning);
    TimedCons(ps, t1, Finishes(0, true, LATE), es, Warning);
  }

  function Burst(a: Notification, b: Notification, c: Notification): seq<Event> {
    Sent(a) + (Sent(b) + (Sent(c) + []))
  }

  lemma ThreeAtOnce(sent: seq<Delivery>, d: Delivery)
    requires d == Delivery(LATE, 1) && sent == [] + [d] + [d] + [d]
    ensures Last(sent, MINUTE_MS, LATE) == 3
  {
    SentSnoc([], d, LATE - MINUTE_MS, LATE);
    SentSnoc([] + [d], d, LATE - MINUTE_MS, LATE);
    SentSnoc([] + [d] + [d], d, LATE - MINUTE_MS, LATE);
  }

  lemma BurstRuns(a: Notification, b: Notification, c: Notification, t0: Timed) returns (t: Timed)
    requires a.severity == b.severity == c.severity == Warning
    requires t0 == Fresh(TwoAMinute(), 0)
    ensures t == TimedRun(TwoAMinute(), t0, Burst(a, b, c), Warning)
    ensures OrderedRun(TwoAMinute(), t0, Burst(a, b, c), Warning)
    ensures Last(t.sent, MINUTE_MS, LATE) == 3
  {
    assert Idle(t0, 0, 0);
    var t1 := SentThen(t0, a, 0, 0, Sent(b) + (Sent(c) + []));
    var t2 := SentThen(t1, b, 1, LATE, Sent(c) + []);
    t := SentThen(t2, c, 2, LATE, []);
    ThreeAtOnce(t.sent, Delivery(LATE, 1));
  }

  /** With a limit of two a minute, three are accepted and delivered within one millisecond, although
      no send overlaps a submission: the estimate spreads them over the fifty minutes before. */
  lemma BurstPassesMinuteLimit(a: Notification, b: Notification, c: Notification)
    requires a.severity == b.severity == c.severity == Warning
    ensures var t0 := Fresh(TwoAMinute(), 0);
            && OrderedRun(TwoAMinute(), t0, Burst(a, b, c), Warning)
            && !Bounded(TimedRun(TwoAMinute(), t0, Burst(a, b, c), Warning).sent, MINUTE_MS, 2)
            && TwoAMinute()[Warning].maxPerMinute == 2
  {
    var t := BurstRuns(a, b, c, Fresh(TwoAMinute(), 0));
    assert Last(t.sent, MINUTE_MS, LATE) > 2;
  }
}
