/** The router's per-user command limit: a fixed one-minute window that restarts with the first
    command after it has lapsed. */
module CommandLimit {
  import opened Outcomes

  const WINDOW := 60_000
  const LIMIT := 30

  datatype Counter = Counter(count: int, windowStart: int)

  /** One command of one user: the new counter and the verdict. */
  function Check(entry: Option<Counter>, now: int): (Counter, bool) {
    if entry.None? || now - entry.value.windowStart > WINDOW then (Counter(1, now), true)
    else if entry.value.count >= LIMIT then (entry.value, false)
    else (entry.value.(count := entry.value.count + 1), true)
  }

  class RateLimiter {
    var commandCounts: map<int, Counter>

    constructor ()
      ensures commandCounts == map[]
    {
      commandCounts := map[];
    }

    method CheckRateLimit(userId: int, now: int) returns (ok: bool)
      modifies this
      ensures var entry := if userId in old(commandCounts) then Some(old(commandCounts)[userId]) else None;
              && commandCounts == old(commandCounts)[userId := Check(entry, now).0]
              && ok == Check(entry, now).1
    {
      if userId !in commandCounts || now - commandCounts[userId].windowStart > WINDOW {
        commandCounts := commandCounts[userId := Counter(1, now)];
        return true;
      }
      var entry := commandCounts[userId];
      if entry.count >= LIMIT {
        return false;
      }
      commandCounts := commandCounts[userId := entry.(count := entry.count + 1)];
      return true;
    }
  }

  // ------------------------------------------------------------------ runs of one user

  /** The counter and the times of the accepted commands. */
  datatype Run = Run(entry: Option<Counter>, accepted: seq<int>)

  function StepRun(r: Run, now: int): Run {
    var (entry, ok) := Check(r.entry, now);
    Run(Some(entry), if ok then r.accepted + [now] else r.accepted)
  }

  function RunAll(r: Run, times: seq<int>): Run
    decreases |times|
  {
    if times == [] then r else RunAll(StepRun(r, times[0]), times[1..])
  }

  ghost predicate Ascending(s: seq<int>) {
    forall i, j | 0 <= i <= j < |s| :: s[i] <= s[j]
  }

  /** Any 2 * LIMIT consecutive accepted commands span more than a window. */
  ghost predicate Spread(accepted: seq<int>) {
    forall i | 0 <= i && i + 2 * LIMIT - 1 < |accepted| :: accepted[i + 2 * LIMIT - 1] - accepted[i] > WINDOW
  }

  /** The accepted commands of the current window are the last `count`, the first of them opened
      it, and the window before it, if any, held at most LIMIT and began over a window earlier. */
  ghost predicate WindowOk(r: Run) {
    && (r.entry.None? ==> r.accepted == [])
    && (r.entry.Some? ==>
          var n, c := |r.accepted|, r.entry.value.count;
          && 1 <= c <= LIMIT && c <= n
          && r.accepted[n - c] == r.entry.value.windowStart
          && (n - c >= LIMIT ==> r.entry.value.windowStart - r.accepted[n - c - LIMIT] > WINDOW))
  }

  ghost predicate Inv(r: Run) {
    Ascending(r.accepted) && Spread(r.accepted) && WindowOk(r)
  }

  lemma SnocAscending(s: seq<int>, x: int)
    requires Ascending(s) && (s != [] ==> s[|s| - 1] <= x)
    ensures Ascending(s + [x])
  {
    var t := s + [x];
    forall i, j | 0 <= i <= j < |t| ensures t[i] <= t[j] {
      if j == |s| && i < j {
        assert s[i] <= s[|s| - 1];
      }
    }
  }

  lemma SnocSpread(s: seq<int>, x: int)
    requires Spread(s) && (|s| + 1 >= 2 * LIMIT ==> x - s[|s| + 1 - 2 * LIMIT] > WINDOW)
    ensures Spread(s + [x])
  {
  }

  /** The window's own entries after an accepted command. */
  lemma WindowGrows(r: Run, now: int)
    requires Inv(r) && Check(r.entry, now).1 && (r.accepted != [] ==> r.accepted[|r.accepted| - 1] <= now)
    ensures WindowOk(StepRun(r, now))
  {
    var n := |r.accepted|;
    if r.entry.Some? && now - r.entry.value.windowStart > WINDOW && n >= LIMIT {
      assert r.accepted[n - LIMIT] <= r.accepted[n - r.entry.value.count];
    }
  }

  lemma StepKeeps(r: Run, now: int)
    requires Inv(r)
    requires r.accepted != [] ==> r.accepted[|r.accepted| - 1] <= now
    ensures Inv(StepRun(r, now))
    ensures var a := StepRun(r, now).accepted; a != [] ==> a[|a| - 1] <= now
  {
    if Check(r.entry, now).1 {
      SnocAscending(r.accepted, now);
      if |r.accepted| + 1 >= 2 * LIMIT {
        SpreadAtEnd(r, now);
      }
      SnocSpread(r.accepted, now);
      WindowGrows(r, now);
    }
  }

  /** The newest 2 * LIMIT accepted commands span more than a window. */
  lemma SpreadAtEnd(r: Run, now: int)
    requires Inv(r) && Check(r.entry, now).1 && |r.accepted| + 1 >= 2 * LIMIT
    requires r.accepted[|r.accepted| - 1] <= now
    ensures now - r.accepted[|r.accepted| + 1 - 2 * LIMIT] > WINDOW
  {
    var n, c := |r.accepted|, r.entry.value.count;
    var first := n + 1 - 2 * LIMIT;
    if now - r.entry.value.windowStart > WINDOW {
      assert r.accepted[first] <= r.accepted[n - c];
    } else {
      assert c < LIMIT;
      assert r.accepted[first] <= r.accepted[n - c - LIMIT];
    }
  }

  lemma {:induction false} RunKeeps(r: Run, times: seq<int>)
    requires Inv(r) && Ascending(times)
    requires r.accepted != [] && times != [] ==> r.accepted[|r.accepted| - 1] <= times[0]
    ensures Inv(RunAll(r, times))
    decreases |times|
  {
    if times != [] {
      StepKeeps(r, times[0]);
      assert forall i | 0 <= i < |times[1..]| :: times[1..][i] == times[i + 1];
      RunKeeps(StepRun(r, times[0]), times[1..]);
    }
  }

  /** However commands arrive, no interval of 60 seconds contains more than 2 * 30 - 1 accepted
      ones: accepted commands i..j that lie within 60 seconds are at most 59. */
  lemma AtMostFiftyNine(times: seq<int>, i: nat, j: nat)
    requires Ascending(times)
    ensures var a := RunAll(Run(None, []), times).accepted;
            i <= j < |a| && a[j] - a[i] <= 60_000 ==> j - i + 1 <= 59
  {
    RunKeeps(Run(None, []), times);
    var a := RunAll(Run(None, []), times).accepted;
    if i <= j < |a| && j - i + 1 > 2 * LIMIT - 1 {
      assert a[i + 2 * LIMIT - 1] <= a[j];
    }
  }

  /** A command is refused only if 30 were accepted within the 60 seconds before it. */
  lemma RefusedAfterThirty(times: seq<int>, now: int)
    requires Ascending(times + [now])
    ensures var a := RunAll(Run(None, []), times).accepted;
            RunAll(Run(None, []), times + [now]).accepted == a ==> |a| >= 30 && now - a[|a| - 30] <= 60_000
  {
    assert forall i, j | 0 <= i <= j < |times| :: (times + [now])[i] == times[i] && (times + [now])[j] == times[j];
    RunKeeps(Run(None, []), times);
    RunConcat(Run(None, []), times, [now]);
  }

  // ------------------------------------------------------------------ the bound is reached

  /** `n` commands at time `t`. */
  function Burst(t: int, n: nat): (r: seq<int>)
    ensures |r| == n && forall k | 0 <= k < n :: r[k] == t
  {
    seq(n, _ => t)
  }

  lemma {:induction false} BurstAccepted(entry: Counter, accepted: seq<int>, t: int, n: nat)
    requires t - entry.windowStart <= WINDOW && entry.count + n <= LIMIT
    ensures RunAll(Run(Some(entry), accepted), Burst(t, n)) ==
            Run(Some(entry.(count := entry.count + n)), accepted + Burst(t, n))
    decreases n
  {
    if n > 0 {
      assert Burst(t, n)[1..] == Burst(t, n - 1);
      BurstAccepted(entry.(count := entry.count + 1), accepted + [t], t, n - 1);
      assert accepted + [t] + Burst(t, n - 1) == accepted + Burst(t, n);
    } else {
      assert accepted + Burst(t, 0) == accepted;
    }
  }

  lemma {:induction false} RunConcat(r: Run, a: seq<int>, b: seq<int>)
    ensures RunAll(r, a + b) == RunAll(RunAll(r, a), b)
    decreases |a|
  {
    if a == [] {
      assert a + b == b;
    } else {
      assert (a + b)[1..] == a[1..] + b;
      RunConcat(StepRun(r, a[0]), a[1..], b);
    }
  }

  /** A lapsed or missing window is opened and filled by a burst. */
  lemma WindowOpens(r: Run, t: int, n: nat)
    requires r.entry.None? || t - r.entry.value.windowStart > WINDOW
    requires 1 <= n <= LIMIT
    ensures RunAll(r, Burst(t, n)) == Run(Some(Counter(n, t)), r.accepted + Burst(t, n))
  {
    var burst, rest := Burst(t, n), Burst(t, n - 1);
    var opened1 := Run(Some(Counter(1, t)), r.accepted + [t]);
    assert burst[0] == t && burst[1..] == rest;
    assert StepRun(r, t) == opened1;
    BurstAccepted(Counter(1, t), r.accepted + [t], t, n - 1);
    assert r.accepted + [t] + rest == r.accepted + burst;
  }

  /** One command at 0, 29 at the last instant of that window and 30 just after it. */
  function Rush(): (times: seq<int>)
    ensures |times| == 2 * LIMIT
  {
    FirstWindow() + Burst(WINDOW + 1, LIMIT)
  }

  function FirstWindow(): seq<int> {
    Burst(0, 1) + Burst(WINDOW, LIMIT - 1)
  }

  lemma FirstWindowFills()
    ensures RunAll(Run(None, []), FirstWindow()) == Run(Some(Counter(LIMIT, 0)), FirstWindow())
  {
    var start := Run(None, []);
    RunConcat(start, Burst(0, 1), Burst(WINDOW, LIMIT - 1));
    WindowOpens(start, 0, 1);
    assert [] + Burst(0, 1) == Burst(0, 1);
    BurstAccepted(Counter(1, 0), Burst(0, 1), WINDOW, LIMIT - 1);
  }

  lemma RushAccepted()
    ensures RunAll(Run(None, []), Rush()).accepted == Rush()
  {
    FirstWindowFills();
    RunConcat(Run(None, []), FirstWindow(), Burst(WINDOW + 1, LIMIT));
    WindowOpens(Run(Some(Counter(LIMIT, 0)), FirstWindow()), WINDOW + 1, LIMIT);
  }

  /** When each command of the rush comes. */
  lemma RushTimes(i: nat)
    requires i < 2 * LIMIT
    ensures Rush()[i] == if i == 0 then 0 else if i < LIMIT then WINDOW else WINDOW + 1
  {
    assert Rush()[..LIMIT] == FirstWindow();
  }

  /** Fifty-nine is reached: all sixty are accepted, and the last 59 lie one millisecond apart. */
  lemma FiftyNineHappens()
    ensures Ascending(Rush()) && RunAll(Run(None, []), Rush()).accepted == Rush()
    ensures |Rush()| == 60 && Rush()[59] - Rush()[1] == 1
  {
    RushAccepted();
    forall i, j | 0 <= i <= j < |Rush()| ensures Rush()[i] <= Rush()[j] {
      RushTimes(i);
      RushTimes(j);
    }
  }
}
