/** What the throttle's limits promise over whole runs: exactly which accepted submissions keep an
    hour window, or any interval of time, within its limit. */
module ThrottleLimits {
  import opened Notifications
  import opened Throttle

  // ------------------------------------------------------------------ what waits and what flies

  function SizeOf(send: Send, sev: Severity): nat {
    if send.severity == sev then |send.batch| else 0
  }

  function SizeTo(sends: seq<Send>, sev: Severity, k: nat): nat
    requires k <= |sends|
  {
    if k == 0 then 0 else SizeTo(sends, sev, k - 1) + SizeOf(sends[k - 1], sev)
  }

  /** The notifications of one severity that are in flight. */
  function FlightSize(sends: seq<Send>, sev: Severity): nat {
    SizeTo(sends, sev, |sends|)
  }

  lemma {:induction false} SizeAgrees(a: seq<Send>, b: seq<Send>, sev: Severity, k: nat)
    requires k <= |a| && k <= |b| && forall i | 0 <= i < k :: a[i] == b[i]
    ensures SizeTo(a, sev, k) == SizeTo(b, sev, k)
  {
    if k > 0 {
      SizeAgrees(a, b, sev, k - 1);
    }
  }

  lemma SizeAppend(sends: seq<Send>, send: Send, sev: Severity)
    ensures FlightSize(sends + [send], sev) == FlightSize(sends, sev) + SizeOf(send, sev)
  {
    SizeAgrees(sends, sends + [send], sev, |sends|);
  }

  lemma {:induction false} SizeRemove(sends: seq<Send>, i: nat, sev: Severity, k: nat)
    requires i < k <= |sends|
    ensures SizeTo(RemoveAt(sends, i), sev, k - 1) + SizeOf(sends[i], sev) == SizeTo(sends, sev, k)
  {
    if i == k - 1 {
      SizeAgrees(sends, RemoveAt(sends, i), sev, i);
    } else {
      SizeRemove(sends, i, sev, k - 1);
      assert RemoveAt(sends, i)[k - 2] == sends[k - 1];
    }
  }

  /** How many of `ns` a flush would send: all of them, or one of each key. */
  ghost function Sendable(p: Policy, ns: seq<Notification>): nat {
    |ToSend(p, ns)|
  }

  /** Accepted and still to be delivered: what a flush would send, and what is in flight. */
  ghost function Waiting(ps: map<Severity, Policy>, s: State, sev: Severity): nat
    requires sev in s.channels && sev in ps
  {
    Sendable(ps[sev], s.channels[sev].pending) + FlightSize(s.inFlight, sev)
  }

  /** The same once `n` is pending too. A repetition that the flush will discard adds nothing. */
  ghost function WaitingWith(ps: map<Severity, Policy>, s: State, sev: Severity, n: Notification): nat
    requires sev in s.channels && sev in ps
  {
    Sendable(ps[sev], s.channels[sev].pending + [n]) + FlightSize(s.inFlight, sev)
  }

  /** The submission passes the engine's own check. */
  predicate Accepts(ps: map<Severity, Policy>, s: State, e: Event, sev: Severity)
    requires s.channels.Keys == ps.Keys && sev in ps
  {
    && e.Submits? && e.n.severity == sev && !s.stopped && sev != Critical
    && WithinLimits(Window(s.channels[sev], e.now), ps[sev], e.now)
  }

  /** How many notifications of the severity the event delivers. */
  function Delivers(s: State, e: Event, sev: Severity): nat {
    if e.Finishes? && e.ok && e.i < |s.inFlight| then SizeOf(s.inFlight[e.i], sev) else 0
  }

  /** The count an event starts from: a submission may have reset a lapsed window. */
  function CountBefore(s: State, e: Event, sev: Severity): nat
    requires sev in s.channels
  {
    if e.Submits? && e.n.severity == sev then Window(s.channels[sev], e.now).count else s.channels[sev].count
  }

  lemma FlushWaits(ps: map<Severity, Policy>, s: State, t: Severity, sev: Severity)
    requires t in s.channels && t in ps && sev in s.channels && sev in ps
    ensures var s' := Flush(ps, s, t);
            && sev in s'.channels && s'.channels[sev].count == s.channels[sev].count
            && Waiting(ps, s', sev) == Waiting(ps, s, sev)
  {
    var batch := s.channels[t].pending;
    SizeAppend(s.inFlight, Send(t, ToSend(ps[t], batch)), sev);
    assert Sendable(ps[t], []) == 0;
  }

  /** The channel of `sev` takes `n` in. */
  lemma HoldWaits(ps: map<Severity, Policy>, s: State, n: Notification, ch: Channel, sev: Severity)
    requires n.severity in s.channels && n.severity in ps && sev in s.channels && sev in ps
    requires ch.pending == s.channels[n.severity].pending + [n] && ch.count == s.channels[n.severity].count
    ensures var s' := s.(channels := s.channels[n.severity := ch]);
            && s'.channels[sev].count == s.channels[sev].count
            && Waiting(ps, s', sev) == if n.severity == sev then WaitingWith(ps, s, sev, n) else Waiting(ps, s, sev)
  {
  }

  lemma EnqueueWaits(ps: map<Severity, Policy>, s: State, n: Notification, sev: Severity)
    requires n.severity in s.channels && n.severity in ps && sev in s.channels && sev in ps
    ensures var s' := Enqueue(ps, s, n);
            && sev in s'.channels && s'.channels[sev].count == s.channels[sev].count
            && Waiting(ps, s', sev) == if n.severity == sev then WaitingWith(ps, s, sev, n) else Waiting(ps, s, sev)
  {
    var ch := s.channels[n.severity].(pending := s.channels[n.severity].pending + [n]);
    if ps[n.severity].Immediate() {
      HoldWaits(ps, s, n, ch, sev);
      FlushWaits(ps, s.(channels := s.channels[n.severity := ch]), n.severity, sev);
    } else {
      HoldWaits(ps, s, n, ch.(timer := true), sev);
    }
  }

  lemma ChannelWaits(ps: map<Severity, Policy>, s: State, t: Severity, ch: Channel, log: Log, sev: Severity)
    requires t in s.channels && sev in s.channels && sev in ps && ch.pending == s.channels[t].pending
    ensures var s' := s.(channels := s.channels[t := ch], log := log);
            && Waiting(ps, s', sev) == Waiting(ps, s, sev)
            && forall n :: WaitingWith(ps, s', sev, n) == WaitingWith(ps, s, sev, n)
  {
  }

  lemma SubmitWaits(ps: map<Severity, Policy>, s: State, n: Notification, now: int, s': State, sev: Severity)
    requires Shape(ps, s) && sev in ps && sev != Critical && s' == Submit(ps, s, n, now)
    ensures sev in s'.channels
    ensures var accepted := Accepts(ps, s, Submits(n, now), sev);
            && Waiting(ps, s', sev) == (if accepted then WaitingWith(ps, s, sev, n) else Waiting(ps, s, sev))
            && (accepted ==> s'.channels[sev].count == CountBefore(s, Submits(n, now), sev))
    ensures s'.channels[sev].count <= s.channels[sev].count
  {
    var log := s.log.(submitted := s.log.submitted + multiset{n});
    if !s.stopped && n.severity == Critical {
      SizeAppend(s.inFlight, Send(Critical, [n]), sev);
    } else if !s.stopped && n.severity in ps {
      var ch := Window(s.channels[n.severity], now);
      ChannelWaits(ps, s, n.severity, ch, log, sev);
      if WithinLimits(ch, ps[n.severity], now) {
        EnqueueWaits(ps, s.(channels := s.channels[n.severity := ch], log := log), n, sev);
      }
    }
  }

  lemma FinishWaits(ps: map<Severity, Policy>, s: State, i: nat, ok: bool, now: int, sev: Severity)
    requires i < |s.inFlight| && s.inFlight[i].severity in s.channels && sev in s.channels && sev in ps
    ensures var s' := Finish(s, i, ok, now);
            && sev in s'.channels && Waiting(ps, s', sev) + SizeOf(s.inFlight[i], sev) == Waiting(ps, s, sev)
            && s'.channels[sev].count == s.channels[sev].count + if ok then SizeOf(s.inFlight[i], sev) else 0
  {
    SizeRemove(s.inFlight, i, sev, |s.inFlight|);
    var s' := Finish(s, i, ok, now);
    assert s'.inFlight == RemoveAt(s.inFlight, i) && s'.channels[sev].pending == s.channels[sev].pending;
  }

  lemma FireWaits(ps: map<Severity, Policy>, s: State, t: Severity, s': State, sev: Severity)
    requires Shape(ps, s) && sev in ps && s' == Step(ps, s, Fires(t))
    ensures sev in s'.channels && Waiting(ps, s', sev) <= Waiting(ps, s, sev)
    ensures s'.channels[sev].count == s.channels[sev].count
  {
    if t in ps && s.channels[t].timer {
      var s1 := s.(channels := s.channels[t := s.channels[t].(timer := false)]);
      assert Waiting(ps, s1, sev) == Waiting(ps, s, sev);
      FlushWaits(ps, s1, t, sev);
    }
  }

  lemma StopWaits(ps: map<Severity, Policy>, s: State, sev: Severity)
    requires sev in s.channels && sev in ps
    ensures sev in Stop(s).channels && Waiting(ps, Stop(s), sev) <= Waiting(ps, s, sev)
    ensures Stop(s).channels[sev].count == s.channels[sev].count
  {
    assert Sendable(ps[sev], []) == 0;
  }

  lemma SettleWaits(ps: map<Severity, Policy>, s: State, i: nat, ok: bool, now: int, s': State, sev: Severity)
    requires Shape(ps, s) && sev in ps && s' == Step(ps, s, Finishes(i, ok, now))
    ensures sev in s'.channels && Waiting(ps, s', sev) + Delivers(s, Finishes(i, ok, now), sev) <= Waiting(ps, s, sev)
    ensures s'.channels[sev].count == s.channels[sev].count + Delivers(s, Finishes(i, ok, now), sev)
  {
    if i < |s.inFlight| {
      assert SendShape(ps, s.inFlight[i]);
      FinishWaits(ps, s, i, ok, now, sev);
    }
  }

  /** What one event does to the count and to what waits. */
  ghost predicate Moves(ps: map<Severity, Policy>, s: State, e: Event, s': State, sev: Severity)
    requires s.channels.Keys == ps.Keys && sev in ps
  {
    && sev in s'.channels
    && (Accepts(ps, s, e, sev) ==>
          Waiting(ps, s', sev) == WaitingWith(ps, s, sev, e.n) && s'.channels[sev].count == CountBefore(s, e, sev))
    && (!Accepts(ps, s, e, sev) ==>
          && Waiting(ps, s', sev) + Delivers(s, e, sev) <= Waiting(ps, s, sev)
          && s'.channels[sev].count <= s.channels[sev].count + Delivers(s, e, sev))
  }

  lemma StepMoves(ps: map<Severity, Policy>, s: State, e: Event, s': State, sev: Severity)
    requires Shape(ps, s) && sev in ps && sev != Critical && s' == Step(ps, s, e)
    ensures Moves(ps, s, e, s', sev)
  {
    match e
    case Submits(n, now) => SubmitWaits(ps, s, n, now, s', sev);
    case Fires(t) => FireWaits(ps, s, t, s', sev);
    case Flushes(t) =>
      if t in ps {
        FlushWaits(ps, s, t, sev);
      }
    case Finishes(i, ok, now) => SettleWaits(ps, s, i, ok, now, s', sev);
    case Stops => StopWaits(ps, s, sev);
  }

  // ------------------------------------------------------------------ the hourly limit

  /** What the window has counted, and what it may still count. */
  ghost function Load(ps: map<Severity, Policy>, s: State, sev: Severity): nat
    requires sev in s.channels && sev in ps
  {
    s.channels[sev].count + Waiting(ps, s, sev)
  }

  /** An accepted submission fits once sends in flight are counted too. */
  ghost predicate UnderLoad(ps: map<Severity, Policy>, s: State, e: Event, sev: Severity, limit: int)
    requires s.channels.Keys == ps.Keys && sev in ps
  {
    Accepts(ps, s, e, sev) ==> CountBefore(s, e, sev) + WaitingWith(ps, s, sev, e.n) <= limit
  }

  lemma StepLoad(ps: map<Severity, Policy>, s: State, e: Event, s': State, sev: Severity, limit: int)
    requires Shape(ps, s) && sev in ps && sev != Critical && s' == Step(ps, s, e) && Load(ps, s, sev) <= limit
    ensures sev in s'.channels && (Load(ps, s', sev) <= limit <==> UnderLoad(ps, s, e, sev, limit))
  {
    StepMoves(ps, s, e, s', sev);
  }

  ghost predicate LoadStays(ps: map<Severity, Policy>, s: State, es: seq<Event>, sev: Severity, limit: int)
    requires s.channels.Keys == ps.Keys && sev in ps
    decreases |es|
  {
    Load(ps, s, sev) <= limit && (es != [] ==> LoadStays(ps, Step(ps, s, es[0]), es[1..], sev, limit))
  }

  ghost predicate AcceptsUnderLoad(ps: map<Severity, Policy>, s: State, es: seq<Event>, sev: Severity, limit: int)
    requires s.channels.Keys == ps.Keys && sev in ps
    decreases |es|
  {
    es != [] ==>
      UnderLoad(ps, s, es[0], sev, limit) && AcceptsUnderLoad(ps, Step(ps, s, es[0]), es[1..], sev, limit)
  }

  /** The load stays within a limit in every state of a run exactly when it does so with every
      accepted submission. */
  lemma {:induction false} LoadStaysIff(ps: map<Severity, Policy>, s: State, es: seq<Event>, sev: Severity, limit: int)
    requires Shape(ps, s) && sev in ps && sev != Critical && Load(ps, s, sev) <= limit
    ensures LoadStays(ps, s, es, sev, limit) <==> AcceptsUnderLoad(ps, s, es, sev, limit)
    decreases |es|
  {
    if es != [] {
      var s' := Step(ps, s, es[0]);
      StepKeepsShape(ps, s, es[0]);
      StepLoad(ps, s, es[0], s', sev, limit);
      if UnderLoad(ps, s, es[0], sev, limit) {
        LoadStaysIff(ps, s', es[1..], sev, limit);
      }
    }
  }

  ghost function CountAfter(ps: map<Severity, Policy>, s: State, es: seq<Event>, sev: Severity): nat
    requires s.channels.Keys == ps.Keys && sev in ps
  {
    RunAll(ps, s, es).channels[sev].count
  }

  /** If the load fits the limit with every accepted submission, no window ever counts more
      deliveries than the limit: overlapping sends included. */
  lemma {:induction false} HourlyLimitHolds(ps: map<Severity, Policy>, s: State, es: seq<Event>, sev: Severity,
                                            limit: int)
    requires Shape(ps, s) && sev in ps && sev != Critical && Load(ps, s, sev) <= limit
    requires AcceptsUnderLoad(ps, s, es, sev, limit)
    ensures CountAfter(ps, s, es, sev) <= limit
    decreases |es|
  {
    if es != [] {
      var s' := Step(ps, s, es[0]);
      StepKeepsShape(ps, s, es[0]);
      StepLoad(ps, s, es[0], s', sev, limit);
      HourlyLimitHolds(ps, s', es[1..], sev, limit);
    }
  }

  /** The transport confirms the oldest send `n` times. */
  function FinishAll(n: nat, now: int): seq<Event> {
    seq(n, _ => Finishes(0, true, now))
  }

  lemma FinishesFirst(ps: map<Severity, Policy>, s: State, now: int, s': State, sev: Severity)
    requires Shape(ps, s) && sev in ps && s.inFlight != [] && s' == Step(ps, s, Finishes(0, true, now))
    ensures Shape(ps, s') && |s'.inFlight| == |s.inFlight| - 1
    ensures s'.channels[sev].count == s.channels[sev].count + SizeOf(s.inFlight[0], sev)
    ensures FlightSize(s'.inFlight, sev) + SizeOf(s.inFlight[0], sev) == FlightSize(s.inFlight, sev)
  {
    assert SendShape(ps, s.inFlight[0]);
    FinishKeepsShape(ps, s, 0, true, now);
    FinishWaits(ps, s, 0, true, now, sev);
    SizeRemove(s.inFlight, 0, sev, |s.inFlight|);
  }

  lemma {:induction false} FinishAllCounts(ps: map<Severity, Policy>, s: State, sev: Severity, now: int)
    requires Shape(ps, s) && sev in ps
    ensures CountAfter(ps, s, FinishAll(|s.inFlight|, now), sev) == s.channels[sev].count + FlightSize(s.inFlight, sev)
    decreases |s.inFlight|
  {
    if s.inFlight != [] {
      var s' := Step(ps, s, Finishes(0, true, now));
      FinishesFirst(ps, s, now, s', sev);
      assert FinishAll(|s.inFlight|, now)[1..] == FinishAll(|s'.inFlight|, now);
      FinishAllCounts(ps, s', sev, now);
    }
  }

  predicate NoSubmissions(es: seq<Event>) {
    forall e <- es :: !e.Submits?
  }

  /** A whole load can be counted within the same window: flush, and let every send succeed. */
  lemma LoadIsCounted(ps: map<Severity, Policy>, s: State, sev: Severity, now: int) returns (es: seq<Event>)
    requires Shape(ps, s) && sev in ps && sev != Critical
    ensures NoSubmissions(es) && CountAfter(ps, s, es, sev) == Load(ps, s, sev)
  {
    var s' := Flush(ps, s, sev);
    FlushWaits(ps, s, sev, sev);
    StepKeepsShape(ps, s, Flushes(sev));
    FinishAllCounts(ps, s', sev, now);
    var finishes := FinishAll(|s'.inFlight|, now);
    es := [Flushes(sev)] + finishes;
    assert es[1..] == finishes;
  }

  lemma {:induction false} CountWithinLoad(ps: map<Severity, Policy>, s: State, es: seq<Event>, sev: Severity)
    requires Shape(ps, s) && sev in ps && sev != Critical && NoSubmissions(es)
    ensures CountAfter(ps, s, es, sev) <= Load(ps, s, sev)
    decreases |es|
  {
    if es != [] {
      var s' := Step(ps, s, es[0]);
      StepKeepsShape(ps, s, es[0]);
      assert !Accepts(ps, s, es[0], sev);
      StepMoves(ps, s, es[0], s', sev);
      CountWithinLoad(ps, s', es[1..], sev);
    }
  }

  /** What is already accepted can push the window's count over a limit exactly when the load is
      over it, whether repetitions are discarded or not. */
  lemma HourlyLimitIff(ps: map<Severity, Policy>, s: State, sev: Severity, limit: int)
    requires Shape(ps, s) && sev in ps && sev != Critical
    ensures (exists es :: NoSubmissions(es) && CountAfter(ps, s, es, sev) > limit) <==> Load(ps, s, sev) > limit
  {
    if Load(ps, s, sev) > limit {
      var es := LoadIsCounted(ps, s, sev, 0);
      assert NoSubmissions(es) && CountAfter(ps, s, es, sev) > limit;
    }
    forall es | NoSubmissions(es) && CountAfter(ps, s, es, sev) > limit ensures Load(ps, s, sev) > limit {
      CountWithinLoad(ps, s, es, sev);
    }
  }

  /** Nobody submits to a severity while one of its sends is in flight. */
  ghost predicate NoOverlap(s: State, e: Event) {
    e.Submits? ==> forall i | 0 <= i < |s.inFlight| :: s.inFlight[i].severity != e.n.severity
  }

  ghost predicate NeverOverlaps(ps: map<Severity, Policy>, s: State, es: seq<Event>)
    requires s.channels.Keys == ps.Keys
    decreases |es|
  {
    es == [] || (NoOverlap(s, es[0]) && NeverOverlaps(ps, Step(ps, s, es[0]), es[1..]))
  }

  lemma {:induction false} NothingFlies(sends: seq<Send>, sev: Severity, k: nat)
    requires k <= |sends| && forall i | 0 <= i < k :: sends[i].severity != sev
    ensures SizeTo(sends, sev, k) == 0
  {
    if k > 0 {
      NothingFlies(sends, sev, k - 1);
    }
  }

  /** The engine's own check is enough where no submission overlaps a send of its severity. */
  lemma {:induction false} NoOverlapIsUnderLoad(ps: map<Severity, Policy>, s: State, es: seq<Event>, sev: Severity)
    requires s.channels.Keys == ps.Keys && sev in ps && NeverOverlaps(ps, s, es)
    ensures AcceptsUnderLoad(ps, s, es, sev, ps[sev].maxPerHour)
    decreases |es|
  {
    if es != [] {
      if Accepts(ps, s, es[0], sev) {
        NothingFlies(s.inFlight, sev, |s.inFlight|);
        ToSendPart(ps[sev], s.channels[sev].pending + [es[0].n]);
      }
      NoOverlapIsUnderLoad(ps, Step(ps, s, es[0]), es[1..], sev);
    }
  }

  /** With an overlap a limit of one an hour lets two through: neither submission sees the other's
      send while it is in flight. */
  lemma OverlapPassesHourLimit(a: Notification, b: Notification, ps: map<Severity, Policy>)
    requires a.severity == b.severity == Warning
    requires ps == map[Warning := Policy(Warning, 10, 1, 0, 0, false)]
    ensures var es := [Submits(a, 0), Submits(b, 1)] + ([Finishes(0, true, 2), Finishes(0, true, 3)] + []);
            CountAfter(ps, Start(ps, 0), es, Warning) == 2 > ps[Warning].maxPerHour
  {
    var s0 := Start(ps, 0);
    var s2 := BothSubmitted(ps, s0, a, b);
    var s4 := BothFinished(ps, s2, Send(Warning, [a]), Send(Warning, [b]));
    RunOfTwo(ps, s0, Submits(a, 0), Submits(b, 1), s2, [Finishes(0, true, 2), Finishes(0, true, 3)] + []);
    RunOfTwo(ps, s2, Finishes(0, true, 2), Finishes(0, true, 3), s4, []);
  }

  lemma BothSubmitted(ps: map<Severity, Policy>, s: State, a: Notification, b: Notification) returns (s2: State)
    requires ps == map[Warning := Policy(Warning, 10, 1, 0, 0, false)] && s == Start(ps, 0)
    requires a.severity == b.severity == Warning
    ensures s.channels.Keys == ps.Keys && s2 == Step(ps, Step(ps, s, Submits(a, 0)), Submits(b, 1))
    ensures s2.channels.Keys == ps.Keys && s2.channels[Warning].count == 0
    ensures s2.inFlight == [Send(Warning, [a]), Send(Warning, [b])]
  {
    PassesWhenIdle(ps, s, a, 0);
    var s1 := Step(ps, s, Submits(a, 0));
    PassesWhenIdle(ps, s1, b, 1);
    s2 := Step(ps, s1, Submits(b, 1));
  }

  lemma BothFinished(ps: map<Severity, Policy>, s: State, first: Send, second: Send) returns (s2: State)
    requires s.channels.Keys == ps.Keys && s.inFlight == [first, second]
    requires first.severity == second.severity && first.severity in ps
    ensures s2 == Step(ps, Step(ps, s, Finishes(0, true, 2)), Finishes(0, true, 3))
    ensures s2.channels.Keys == ps.Keys
    ensures s2.channels[first.severity].count == s.channels[first.severity].count + |first.batch| + |second.batch|
  {
    CountsFirst(ps, s, first, [second], 2);
    var s1 := Step(ps, s, Finishes(0, true, 2));
    CountsFirst(ps, s1, second, [], 3);
    s2 := Step(ps, s1, Finishes(0, true, 3));
  }

  lemma PassesWhenIdle(ps: map<Severity, Policy>, s: State, n: Notification, now: nat)
    requires ps == map[Warning := Policy(Warning, 10, 1, 0, 0, false)] && s.channels.Keys == ps.Keys
    requires n.severity == Warning && !s.stopped && now < 2
    requires s.channels[Warning] == Channel(0, 0, 0, [], false)
    ensures Submit(ps, s, n, now).inFlight == s.inFlight + [Send(Warning, [n])]
    ensures Submit(ps, s, n, now).channels[Warning] == Channel(0, 0, 0, [], false)
    ensures !Submit(ps, s, n, now).stopped
  {
    var ch := s.channels[Warning];
    assert Window(ch, now) == ch && WithinLimits(ch, ps[Warning], now);
    assert [] + [n] == [n];
  }

  lemma CountsFirst(ps: map<Severity, Policy>, s: State, send: Send, rest: seq<Send>, now: int)
    requires s.channels.Keys == ps.Keys && send.severity in ps && s.inFlight == [send] + rest
    ensures var s' := Step(ps, s, Finishes(0, true, now));
            s'.inFlight == rest && s'.channels[send.severity].count == s.channels[send.severity].count + |send.batch|
  {
    assert RemoveAt([send] + rest, 0) == rest;
  }

  lemma RunCons(ps: map<Severity, Policy>, s: State, e: Event, es: seq<Event>)
    requires s.channels.Keys == ps.Keys
    ensures RunAll(ps, s, [e] + es) == RunAll(ps, Step(ps, s, e), es)
  {
    assert ([e] + es)[1..] == es;
  }

  lemma RunOfTwo(ps: map<Severity, Policy>, s: State, e1: Event, e2: Event, s2: State, es: seq<Event>)
    requires s.channels.Keys == ps.Keys && s2 == Step(ps, Step(ps, s, e1), e2)
    ensures s2.channels.Keys == ps.Keys && RunAll(ps, s, [e1, e2] + es) == RunAll(ps, s2, es)
  {
    assert [e1, e2] + es == [e1] + ([e2] + es);
    RunCons(ps, s, e1, [e2] + es);
    RunCons(ps, Step(ps, s, e1), e2, es);
  }
}
