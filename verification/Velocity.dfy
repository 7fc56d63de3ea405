/** The action rate limiter: a pruned history of timestamps, per-minute and per-hour caps and a
    randomised minimum interval. Random draws and the clock are arguments. */
module Velocity {
  import opened Outcomes

  const MINUTE := 60_000
  const HOUR := 3_600_000

  datatype Config = Config(enabled: bool, maxPerMinute: int, maxPerHour: int, minInterval: int, maxInterval: int)

  datatype Reason = PerMinute | PerHour | MinInterval | HumanIdle

  datatype Decision = Allowed | Denied(waitMs: int, reason: Reason)

  /** How many of the first `k` timestamps are later than `c`. */
  function CountAfter(h: seq<int>, k: nat, c: int): (n: nat)
    requires k <= |h|
    ensures n <= k
  {
    if k == 0 then 0 else CountAfter(h, k - 1, c) + if h[k - 1] > c then 1 else 0
  }

  function Total(h: seq<int>, c: int): nat {
    CountAfter(h, |h|, c)
  }

  function InWindow(h: seq<int>, now: int, width: int): nat {
    Total(h, now - width)
  }

  /** history.filter(h => h.timestamp >= cutoff). */
  function KeepFrom(h: seq<int>, k: nat, cutoff: int): (r: seq<int>)
    requires k <= |h|
    ensures |r| <= k
  {
    if k == 0 then [] else KeepFrom(h, k - 1, cutoff) + if h[k - 1] >= cutoff then [h[k - 1]] else []
  }

  function Pruned(h: seq<int>, now: int): seq<int> {
    KeepFrom(h, |h|, now - HOUR)
  }

  /** The earliest of the timestamps later than `c`. */
  function Oldest(h: seq<int>, k: nat, c: int): (r: Option<int>)
    requires k <= |h|
    ensures r.Some? ==> r.value > c && exists i :: 0 <= i < k && h[i] == r.value
    ensures r.Some? ==> forall i | 0 <= i < k && h[i] > c :: r.value <= h[i]
    ensures r.None? ==> forall i | 0 <= i < k :: h[i] <= c
  {
    if k == 0 then None
    else
      var r := Oldest(h, k - 1, c);
      if h[k - 1] > c && (r.None? || h[k - 1] < r.value) then Some(h[k - 1]) else r
  }

  function Max(a: int, b: int): int {
    if a > b then a else b
  }

  function MinuteWait(h: seq<int>, now: int): int {
    var oldest := Oldest(h, |h|, now - MINUTE);
    if oldest.Some? then Max(1000, MINUTE - (now - oldest.value)) else MINUTE
  }

  /** The verdict on a history: `interval` is the draw between the two interval bounds, `idle`
      the length of an idle period if one is inserted. */
  function Decide(cfg: Config, h: seq<int>, lastActionAt: int, now: int, interval: int, idle: Option<int>): Decision {
    if !cfg.enabled then Allowed
    else if InWindow(h, now, MINUTE) >= cfg.maxPerMinute then Denied(MinuteWait(h, now), PerMinute)
    else if InWindow(h, now, HOUR) >= cfg.maxPerHour then Denied(30_000, PerHour)
    else if lastActionAt > 0 && now - lastActionAt < interval then Denied(interval - (now - lastActionAt), MinInterval)
    else if idle.Some? then Denied(idle.value, HumanIdle)
    else Allowed
  }

  class VelocityController {
    const config: Config
    var history: seq<int>
    var lastActionAt: int

    constructor (config: Config)
      ensures this.config == config && history == [] && lastActionAt == 0
    {
      this.config, history, lastActionAt := config, [], 0;
    }

    method Prune(now: int)
      modifies this`history
      ensures history == Pruned(old(history), now)
    {
      var kept: seq<int> := [];
      for i := 0 to |history|
        invariant kept == KeepFrom(history, i, now - HOUR)
      {
        if history[i] >= now - HOUR {
          kept := kept + [history[i]];
        }
      }
      history := kept;
    }

    method Acquire(now: int, interval: int, idle: Option<int>) returns (d: Decision)
      modifies this`history
      ensures history == if config.enabled then Pruned(old(history), now) else old(history)
      ensures d == Decide(config, history, lastActionAt, now, interval, idle)
    {
      if !config.enabled {
        return Allowed;
      }
      Prune(now);
      var lastMinute := InWindow(history, now, MINUTE);
      var lastHour := InWindow(history, now, HOUR);
      if lastMinute >= config.maxPerMinute {
        return Denied(MinuteWait(history, now), PerMinute);
      }
      if lastHour >= config.maxPerHour {
        return Denied(30_000, PerHour);
      }
      var elapsed := now - lastActionAt;
      if lastActionAt > 0 && elapsed < interval {
        return Denied(interval - elapsed, MinInterval);
      }
      return if idle.Some? then Denied(idle.value, HumanIdle) else Allowed;
    }

    method Record(now: int)
      modifies this
      ensures history == old(history) + [now] && lastActionAt == now
    {
      history := history + [now];
      lastActionAt := now;
    }
  }

  // ------------------------------------------------------------------ pruning

  lemma {:induction false} CountSnoc(h: seq<int>, t: int, c: int)
    ensures Total(h + [t], c) == Total(h, c) + if t > c then 1 else 0
  {
    CountPrefix(h, [t], |h|, c);
  }

  lemma {:induction false} CountPrefix(h: seq<int>, more: seq<int>, k: nat, c: int)
    requires k <= |h|
    ensures CountAfter(h + more, k, c) == CountAfter(h, k, c)
  {
    if k > 0 {
      CountPrefix(h, more, k - 1, c);
    }
  }

  lemma {:induction false} PruneKeepsCounts(h: seq<int>, k: nat, cutoff: int, c: int)
    requires k <= |h| && c >= cutoff - 1
    ensures Total(KeepFrom(h, k, cutoff), c) == CountAfter(h, k, c)
  {
    if k > 0 {
      PruneKeepsCounts(h, k - 1, cutoff, c);
      if h[k - 1] >= cutoff {
        CountSnoc(KeepFrom(h, k - 1, cutoff), h[k - 1], c);
      } else {
        assert KeepFrom(h, k, cutoff) == KeepFrom(h, k - 1, cutoff);
      }
    }
  }

  // ------------------------------------------------------------------ runs

  /** An acquire at `at`, and the record that follows an allowed one at `recordAt`. */
  datatype Action = Action(at: int, interval: int, idle: Option<int>, recordAt: int)

  /** The limiter with the unpruned log of every recorded action. */
  datatype Run = Run(history: seq<int>, lastActionAt: int, log: seq<int>, clock: int)

  const START := Run([], 0, [], 0)

  function StepRun(cfg: Config, r: Run, a: Action): Run {
    var h := if cfg.enabled then Pruned(r.history, a.at) else r.history;
    if Decide(cfg, h, r.lastActionAt, a.at, a.interval, a.idle).Allowed? then
      Run(h + [a.recordAt], a.recordAt, r.log + [a.recordAt], a.recordAt)
    else Run(h, r.lastActionAt, r.log, a.at)
  }

  function RunAll(cfg: Config, r: Run, actions: seq<Action>): Run
    decreases |actions|
  {
    if actions == [] then r else RunAll(cfg, StepRun(cfg, r, actions[0]), actions[1..])
  }

  /** Time does not run backwards and draws respect the configured interval. */
  predicate Proper(cfg: Config, clock: int, a: Action) {
    clock <= a.at <= a.recordAt && 0 < a.at && cfg.minInterval <= a.interval
  }

  ghost predicate ProperRun(cfg: Config, clock: int, actions: seq<Action>)
    decreases |actions|
  {
    actions != [] ==>
      && Proper(cfg, clock, actions[0])
      && ProperRun(cfg, actions[0].recordAt, actions[1..])
  }

  /** No window of the given width holds more than `max` actions. */
  ghost predicate Bounded(log: seq<int>, width: int, max: int) {
    forall i, j | 0 <= i <= j < |log| && log[j] - log[i] < width :: j - i + 1 <= max
  }

  ghost predicate SortedLog(log: seq<int>) {
    forall i, j | 0 <= i <= j < |log| :: log[i] <= log[j]
  }

  ghost predicate Spaced(log: seq<int>, gap: int) {
    forall i | 0 <= i && i + 1 < |log| :: log[i + 1] - log[i] >= gap
  }

  /** Both lists hold the same number of actions after any instant from `start` on. */
  ghost predicate Tracks(history: seq<int>, log: seq<int>, start: int) {
    forall c | c >= start :: Total(history, c) == Total(log, c)
  }

  ghost predicate Inv(cfg: Config, r: Run) {
    && SortedLog(r.log)
    && (forall i | 0 <= i < |r.log| :: 0 < r.log[i] <= r.clock)
    && r.lastActionAt == (if r.log == [] then 0 else r.log[|r.log| - 1])
    && Tracks(r.history, r.log, r.clock - HOUR)
    && Bounded(r.log, MINUTE, cfg.maxPerMinute)
    && Bounded(r.log, HOUR, cfg.maxPerHour)
    && Spaced(r.log, cfg.minInterval)
  }

  lemma {:induction false} SuffixCounted(log: seq<int>, i: nat, k: nat, c: int)
    requires SortedLog(log) && i < k <= |log| && log[i] > c
    ensures CountAfter(log, k, c) >= k - i
  {
    if i < k - 1 {
      SuffixCounted(log, i, k - 1, c);
    }
  }

  lemma BoundedSnoc(log: seq<int>, t: int, at: int, width: int, max: int)
    requires SortedLog(log) && Bounded(log, width, max) && at <= t && width > 0
    requires Total(log, at - width) < max
    ensures Bounded(log + [t], width, max)
  {
    var log' := log + [t];
    forall i, j | 0 <= i <= j < |log'| && log'[j] - log'[i] < width ensures j - i + 1 <= max {
      if j == |log| && i < |log| {
        SuffixCounted(log, i, |log|, at - width);
      }
    }
  }

  lemma PrunedTracks(history: seq<int>, log: seq<int>, clock: int, at: int)
    requires Tracks(history, log, clock - HOUR) && clock <= at
    ensures Tracks(Pruned(history, at), log, at - HOUR)
  {
    forall c | c >= at - HOUR ensures Total(Pruned(history, at), c) == Total(log, c) {
      PruneKeepsCounts(history, |history|, at - HOUR, c);
    }
  }

  lemma RecordTracks(history: seq<int>, log: seq<int>, start: int, t: int)
    requires Tracks(history, log, start)
    ensures Tracks(history + [t], log + [t], start)
  {
    forall c | c >= start ensures Total(history + [t], c) == Total(log + [t], c) {
      CountSnoc(history, t, c);
      CountSnoc(log, t, c);
    }
  }

  /** Counts above `c` and above a later `m` differ exactly when something lies between. */
  lemma {:induction false} CountGap(h: seq<int>, k: nat, c: int, m: int)
    requires k <= |h| && c <= m
    ensures CountAfter(h, k, m) <= CountAfter(h, k, c)
    ensures CountAfter(h, k, m) == CountAfter(h, k, c) <==> forall i | 0 <= i < k :: !(c < h[i] <= m)
  {
    if k > 0 {
      CountGap(h, k - 1, c, m);
    }
  }

  /** Lists that track each other have the same oldest action in any window. */
  lemma OldestTracks(a: seq<int>, b: seq<int>, start: int, c: int)
    requires Tracks(a, b, start) && Tracks(b, a, start) && c >= start
    ensures Oldest(a, |a|, c).Some? ==>
              Oldest(b, |b|, c).Some? && Oldest(b, |b|, c).value <= Oldest(a, |a|, c).value
  {
    var m := Oldest(a, |a|, c);
    if m.Some? {
      CountGap(a, |a|, c, m.value);
      CountGap(b, |b|, c, m.value);
      assert Total(a, c) == Total(b, c) && Total(a, m.value) == Total(b, m.value);
    }
  }

  lemma OldestEqual(a: seq<int>, b: seq<int>, start: int, c: int)
    requires Tracks(a, b, start) && c >= start
    ensures Oldest(a, |a|, c) == Oldest(b, |b|, c) && Total(a, c) == Total(b, c)
  {
    assert Tracks(b, a, start);
    OldestTracks(a, b, start, c);
    OldestTracks(b, a, start, c);
  }

  lemma SameCountsSameVerdict(cfg: Config, h: seq<int>, log: seq<int>, last: int, a: Action)
    requires InWindow(h, a.at, MINUTE) == InWindow(log, a.at, MINUTE)
    requires InWindow(h, a.at, HOUR) == InWindow(log, a.at, HOUR)
    requires Oldest(h, |h|, a.at - MINUTE) == Oldest(log, |log|, a.at - MINUTE)
    ensures Decide(cfg, h, last, a.at, a.interval, a.idle) == Decide(cfg, log, last, a.at, a.interval, a.idle)
  {
  }

  /** Pruning is invisible: the pruned history decides exactly as the full log does, down to the
      waiting time. */
  lemma PruningIsInvisible(cfg: Config, r: Run, a: Action)
    requires Inv(cfg, r) && r.clock <= a.at
    ensures Decide(cfg, Pruned(r.history, a.at), r.lastActionAt, a.at, a.interval, a.idle) ==
            Decide(cfg, r.log, r.lastActionAt, a.at, a.interval, a.idle)
  {
    PrunedDecides(cfg, r.history, r.log, r.clock, r.lastActionAt, a);
  }

  lemma PrunedDecides(cfg: Config, history: seq<int>, log: seq<int>, clock: int, last: int, a: Action)
    requires Tracks(history, log, clock - HOUR) && clock <= a.at
    ensures Decide(cfg, Pruned(history, a.at), last, a.at, a.interval, a.idle) ==
            Decide(cfg, log, last, a.at, a.interval, a.idle)
  {
    var h := Pruned(history, a.at);
    PrunedTracks(history, log, clock, a.at);
    OldestEqual(h, log, a.at - HOUR, a.at - MINUTE);
    OldestEqual(h, log, a.at - HOUR, a.at - HOUR);
    SameCountsSameVerdict(cfg, h, log, last, a);
  }

  lemma RecordedShape(log: seq<int>, t: int, gap: int)
    requires SortedLog(log) && Spaced(log, gap)
    requires log != [] ==> log[|log| - 1] <= t && t - log[|log| - 1] >= gap
    ensures SortedLog(log + [t]) && Spaced(log + [t], gap)
  {
    if log != [] {
      assert forall i | 0 <= i < |log| :: log[i] <= log[|log| - 1];
    }
  }

  lemma StepKeeps(cfg: Config, r: Run, a: Action)
    requires Inv(cfg, r) && cfg.enabled && Proper(cfg, r.clock, a)
    ensures Inv(cfg, StepRun(cfg, r, a)) && StepRun(cfg, r, a).clock <= a.recordAt
  {
    var h := Pruned(r.history, a.at);
    PrunedTracks(r.history, r.log, r.clock, a.at);
    if Decide(cfg, h, r.lastActionAt, a.at, a.interval, a.idle).Allowed? {
      assert InWindow(r.log, a.at, MINUTE) < cfg.maxPerMinute && InWindow(r.log, a.at, HOUR) < cfg.maxPerHour;
      BoundedSnoc(r.log, a.recordAt, a.at, MINUTE, cfg.maxPerMinute);
      BoundedSnoc(r.log, a.recordAt, a.at, HOUR, cfg.maxPerHour);
      RecordTracks(h, r.log, a.at - HOUR, a.recordAt);
      RecordedShape(r.log, a.recordAt, cfg.minInterval);
    }
  }

  lemma {:induction false} RunKeeps(cfg: Config, r: Run, clock: int, actions: seq<Action>)
    requires Inv(cfg, r) && cfg.enabled && r.clock <= clock && ProperRun(cfg, clock, actions)
    ensures Inv(cfg, RunAll(cfg, r, actions))
    decreases |actions|
  {
    if actions != [] {
      StepKeeps(cfg, r, actions[0]);
      RunKeeps(cfg, StepRun(cfg, r, actions[0]), actions[0].recordAt, actions[1..]);
    }
  }

  /** With limits enabled and every action recorded after its own allowed acquire, no 60 second
      window holds more than the per-minute cap, no hour more than the hourly cap, and actions
      are at least the minimum interval apart. */
  lemma LimitsHold(cfg: Config, actions: seq<Action>)
    requires cfg.enabled && ProperRun(cfg, 0, actions)
    ensures var log := RunAll(cfg, START, actions).log;
            && Bounded(log, MINUTE, cfg.maxPerMinute)
            && Bounded(log, HOUR, cfg.maxPerHour)
            && Spaced(log, cfg.minInterval)
  {
    RunKeeps(cfg, START, 0, actions);
  }

  // ------------------------------------------------------------------ waiting

  lemma {:induction false} CountBelow(log: seq<int>, k: nat, c: int, i: nat)
    requires SortedLog(log) && i <= k <= |log| && (i < |log| ==> forall j | 0 <= j < i :: log[j] <= c)
    requires i == |log| ==> forall j | 0 <= j < i :: log[j] <= c
    ensures CountAfter(log, k, c) <= k - i
  {
    if k > i {
      CountBelow(log, k - 1, c, i);
    } else if k > 0 {
      CountBelow(log, k - 1, c, i - 1);
    }
  }

  /** The log never holds more than the cap in the last minute, seen from any later time. */
  lemma MinuteCountCapped(cfg: Config, r: Run, now: int)
    requires Inv(cfg, r) && r.clock <= now && cfg.maxPerMinute >= 0
    ensures InWindow(r.log, now, MINUTE) <= cfg.maxPerMinute
  {
    var i := FirstAfter(r.log, now - MINUTE);
    CountBelow(r.log, |r.log|, now - MINUTE, i);
    if i < |r.log| {
      assert r.log[|r.log| - 1] - r.log[i] < MINUTE;
    }
  }

  function FirstAfter(log: seq<int>, c: int): (i: nat)
    ensures i <= |log|
    ensures forall j | 0 <= j < i :: log[j] <= c
    ensures i < |log| ==> log[i] > c
  {
    if log == [] || log[0] > c then 0
    else
      var i := FirstAfter(log[1..], c);
      assert forall j | 1 <= j < i + 1 :: log[j] == log[1..][j - 1];
      i + 1
  }

  /** The wait is measured from the first action still inside the window. */
  lemma OldestIsFirst(log: seq<int>, c: int)
    requires SortedLog(log) && Total(log, c) > 0
    ensures var i := FirstAfter(log, c); i < |log| && Oldest(log, |log|, c) == Some(log[i])
  {
    var i := FirstAfter(log, c);
    if i == |log| {
      CountBelow(log, |log|, c, |log|);
    }
  }

  lemma PrefixCounted(log: seq<int>, i: nat, c: int)
    requires SortedLog(log) && i < |log| && log[i] <= c
    ensures Total(log, c) <= |log| - (i + 1)
  {
    CountBelow(log, |log|, c, i + 1);
  }

  lemma MinuteClears(cfg: Config, r: Run, now: int, later: int)
    requires Inv(cfg, r) && cfg.maxPerMinute >= 1 && r.clock <= now
    requires InWindow(r.log, now, MINUTE) >= cfg.maxPerMinute
    requires later >= now + MinuteWait(r.log, now)
    ensures InWindow(r.log, later, MINUTE) < cfg.maxPerMinute
  {
    MinuteCountCapped(cfg, r, now);
    OldestIsFirst(r.log, now - MINUTE);
    var i := FirstAfter(r.log, now - MINUTE);
    SuffixCounted(r.log, i, |r.log|, now - MINUTE);
    assert r.log[i] <= later - MINUTE;
    PrefixCounted(r.log, i, later - MINUTE);
  }

  /** What an acquire answers in a state of the limiter. */
  function Verdict(cfg: Config, r: Run, a: Action): Decision {
    Decide(cfg, Pruned(r.history, a.at), r.lastActionAt, a.at, a.interval, a.idle)
  }

  /** After a per-minute denial, an acquire that waits the returned time is not denied for that reason
      again. */
  lemma WaitingClearsMinuteDenial(cfg: Config, r: Run, a: Action, later: Action)
    requires Inv(cfg, r) && cfg.enabled && cfg.maxPerMinute >= 1 && Proper(cfg, r.clock, a)
    requires Verdict(cfg, r, a).Denied? && Verdict(cfg, r, a).reason == PerMinute
    requires later.at >= a.at + Verdict(cfg, r, a).waitMs
    ensures var again := Verdict(cfg, StepRun(cfg, r, a), later);
            again.Denied? ==> again.reason != PerMinute
  {
    var r' := StepRun(cfg, r, a);
    PruningIsInvisible(cfg, r, a);
    StepKeeps(cfg, r, a);
    PruningIsInvisible(cfg, r', later);
    MinuteClears(cfg, r, a.at, later.at);
  }

  /** Fewer than `max` of the logged actions are later than `c`: the one `max` places from the end is not. */
  predicate Room(log: seq<int>, max: int, c: int) {
    max >= 1 && (|log| < max || log[|log| - max] <= c)
  }

  lemma RoomIsCount(log: seq<int>, max: int, c: int)
    requires SortedLog(log)
    ensures Room(log, max, c) <==> Total(log, c) < max
  {
    if 1 <= max <= |log| {
      if log[|log| - max] <= c {
        PrefixCounted(log, |log| - max, c);
      } else {
        SuffixCounted(log, |log| - max, |log|, c);
      }
    }
  }

  /** When an acquire is allowed, over the full log: with room in the last minute and in the last hour,
      with the drawn interval since the last action, and without an inserted idle period. */
  lemma AllowedIff(cfg: Config, r: Run, a: Action)
    requires Inv(cfg, r) && cfg.enabled && r.clock <= a.at
    ensures Verdict(cfg, r, a) == Allowed <==>
            && Room(r.log, cfg.maxPerMinute, a.at - 60_000)
            && Room(r.log, cfg.maxPerHour, a.at - 3_600_000)
            && (r.log == [] || a.at - r.log[|r.log| - 1] >= a.interval)
            && a.idle == None
  {
    PruningIsInvisible(cfg, r, a);
    RoomIsCount(r.log, cfg.maxPerMinute, a.at - 60_000);
    RoomIsCount(r.log, cfg.maxPerHour, a.at - 3_600_000);
  }

  /** `t` is the first action of the last minute. */
  ghost predicate FirstOfMinute(log: seq<int>, at: int, t: int) {
    t in log && t > at - 60_000 && forall u <- log :: u > at - 60_000 ==> t <= u
  }

  /** The wait lasts until the first action of the last minute leaves it, but a second at least. */
  ghost predicate WaitsForFirst(log: seq<int>, at: int, wait: int) {
    exists t :: FirstOfMinute(log, at, t) && at + wait == if t + 60_000 >= at + 1000 then t + 60_000 else at + 1000
  }

  lemma MinuteWaitMeans(log: seq<int>, at: int)
    requires SortedLog(log) && Total(log, at - 60_000) > 0
    ensures WaitsForFirst(log, at, MinuteWait(log, at))
  {
    OldestIsFirst(log, at - MINUTE);
    var t := log[FirstAfter(log, at - MINUTE)];
    assert FirstOfMinute(log, at, t);
  }

  /** Why an acquire is denied, in this order of precedence, and for how long: as above in the minute
      (with a cap of one or more); for half a minute in the hour; until the drawn interval has passed;
      for the idle period. */
  ghost predicate Explains(cfg: Config, log: seq<int>, a: Action, wait: int, reason: Reason) {
    var minute := Room(log, cfg.maxPerMinute, a.at - 60_000);
    var hour := Room(log, cfg.maxPerHour, a.at - 3_600_000);
    match reason
    case PerMinute => !minute && (cfg.maxPerMinute >= 1 ==> WaitsForFirst(log, a.at, wait))
    case PerHour => minute && !hour && wait == 30_000
    case MinInterval =>
      minute && hour && log != [] && a.at + wait == log[|log| - 1] + a.interval && wait > 0
    case HumanIdle =>
      minute && hour && a.idle == Some(wait) && (log == [] || a.at - log[|log| - 1] >= a.interval)
  }

  lemma DecisionMeans(cfg: Config, log: seq<int>, last: int, a: Action, wait: int, reason: Reason)
    requires SortedLog(log) && cfg.enabled && Decide(cfg, log, last, a.at, a.interval, a.idle) == Denied(wait, reason)
    requires if log == [] then last == 0 else last == log[|log| - 1] > 0
    ensures Explains(cfg, log, a, wait, reason)
  {
    RoomIsCount(log, cfg.maxPerMinute, a.at - 60_000);
    RoomIsCount(log, cfg.maxPerHour, a.at - 3_600_000);
    if reason == PerMinute && cfg.maxPerMinute >= 1 {
      MinuteWaitMeans(log, a.at);
    }
  }

  lemma DenialMeans(cfg: Config, r: Run, a: Action, wait: int, reason: Reason)
    requires Inv(cfg, r) && cfg.enabled && r.clock <= a.at && Verdict(cfg, r, a) == Denied(wait, reason)
    ensures Explains(cfg, r.log, a, wait, reason)
  {
    PruningIsInvisible(cfg, r, a);
    DecisionMeans(cfg, r.log, r.lastActionAt, a, wait, reason);
  }

  /** With either cap at zero or less, no run records anything: waiting does not help. */
  lemma {:induction false} NoCapNoAction(cfg: Config, r: Run, actions: seq<Action>)
    requires cfg.enabled && (cfg.maxPerMinute <= 0 || cfg.maxPerHour <= 0)
    ensures RunAll(cfg, r, actions).log == r.log
    decreases |actions|
  {
    if actions != [] {
      NoCapNoAction(cfg, StepRun(cfg, r, actions[0]), actions[1..]);
    }
  }

  /** Some run acts exactly when both caps are at least one. */
  lemma ActsIffBothCaps(cfg: Config)
    requires cfg.enabled
    ensures (exists actions :: RunAll(cfg, START, actions).log != []) <==> cfg.maxPerMinute >= 1 && cfg.maxPerHour >= 1
  {
    if cfg.maxPerMinute >= 1 && cfg.maxPerHour >= 1 {
      var a := Action(1, 0, None, 1);
      assert Pruned([], 1) == [];
      assert StepRun(cfg, START, a).log == [1];
      assert [a][1..] == [];
      assert RunAll(cfg, START, [a]).log == [1];
    } else {
      forall actions ensures RunAll(cfg, START, actions).log == [] {
        NoCapNoAction(cfg, START, actions);
      }
    }
  }
}
