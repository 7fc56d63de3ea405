/** The counters of a distributed mutex: sums over its calls in every run. */
module MutexMetrics {
  import opened DistributedMutex

  datatype Measure = Acquired | Failed | Contended | Freed

  function Weight(cfg: Config, m: Measure, owner: nat, call: Call): nat {
    if call.owner != owner then 0
    else match m
      case Acquired => if call.status.Held? then 1 else 0
      case Failed => if call.status.GaveUp? then 1 else 0
      case Contended =>
        (match call.status
         case Trying(attempt) => attempt
         case Waiting(attempt, _) => attempt
         case Held(_, _, contended, _, _) => contended
         case GaveUp => if 0 <= cfg.retryCount then cfg.retryCount + 1 else 0)
      case Freed => if call.status.Held? && call.status.freed then 1 else 0
  }

  function TotalTo(cfg: Config, m: Measure, owner: nat, calls: seq<Call>, k: nat): nat
    requires k <= |calls|
  {
    if k == 0 then 0 else TotalTo(cfg, m, owner, calls, k - 1) + Weight(cfg, m, owner, calls[k - 1])
  }

  /** The calls of one owner, added up. */
  function Total(cfg: Config, m: Measure, owner: nat, calls: seq<Call>): nat {
    TotalTo(cfg, m, owner, calls, |calls|)
  }

  lemma {:induction false} TotalAgrees(cfg: Config, m: Measure, owner: nat, a: seq<Call>, b: seq<Call>, k: nat)
    requires k <= |a| && k <= |b| && forall i | 0 <= i < k :: a[i] == b[i]
    ensures TotalTo(cfg, m, owner, a, k) == TotalTo(cfg, m, owner, b, k)
  {
    if k > 0 {
      TotalAgrees(cfg, m, owner, a, b, k - 1);
    }
  }

  lemma {:induction false} TotalUpdate(cfg: Config, m: Measure, owner: nat, calls: seq<Call>, i: nat, call: Call,
                                       k: nat)
    requires i < k <= |calls|
    ensures TotalTo(cfg, m, owner, calls[i := call], k) + Weight(cfg, m, owner, calls[i]) ==
            TotalTo(cfg, m, owner, calls, k) + Weight(cfg, m, owner, call)
  {
    if i == k - 1 {
      TotalAgrees(cfg, m, owner, calls, calls[i := call], i);
    } else {
      TotalUpdate(cfg, m, owner, calls, i, call, k - 1);
    }
  }

  function Metric(m: Metrics, of: Measure): nat {
    match of
    case Acquired => m.acquisitions
    case Failed => m.failures
    case Contended => m.contentions
    case Freed => m.releases
  }

  /** A counter of one owner is the sum over its calls; releases only count so in the local form. */
  ghost predicate Counted(cfg: Config, w: World, m: Measure, owner: nat) {
    (m.Freed? ==> !cfg.redis) ==> Metric(MetricsOf(w, owner), m) == Total(cfg, m, owner, w.calls)
  }

  lemma CallChanges(cfg: Config, w: World, w': World, c: nat, m: Measure, owner: nat)
    requires c < |w.calls| && Counted(cfg, w, m, owner)
    requires |w'.calls| == |w.calls| && w'.calls == w.calls[c := w'.calls[c]]
    requires (m.Freed? ==> !cfg.redis) ==>
               Metric(MetricsOf(w', owner), m) + Weight(cfg, m, owner, w.calls[c]) ==
               Metric(MetricsOf(w, owner), m) + Weight(cfg, m, owner, w'.calls[c])
    ensures Counted(cfg, w', m, owner)
  {
    TotalUpdate(cfg, m, owner, w.calls, c, w'.calls[c], |w.calls|);
  }

  /** An attempt moves each counter as it moves the weight of its call. */
  lemma AttemptWeighs(cfg: Config, call: Call, after: Call, x: Metrics, m: Measure)
    requires call.status.Trying? || call.status.Waiting?
    requires call.status.attempt <= cfg.retryCount
    requires after == NextTry(cfg, call, call.status.attempt) ||
             (exists p, e :: after == Obtained(call, p, e, call.status.attempt)) ||
             (exists r :: after == call.(status := Waiting(call.status.attempt, r)))
    ensures Metric(MetricsAfterAttempt(x, after), m) + Weight(cfg, m, call.owner, call) ==
            Metric(x, m) + Weight(cfg, m, call.owner, after)
  {
  }

  lemma SendCounts(cfg: Config, w: World, c: nat, arrives: bool, m: Measure, owner: nat)
    requires Inv(cfg, w) && Counted(cfg, w, m, owner) && c < |w.calls| && w.calls[c].status.Trying?
    ensures Counted(cfg, Step(cfg, w, Sends(c, arrives)), m, owner)
  {
    var w', call := Step(cfg, w, Sends(c, arrives)), w.calls[c];
    assert CallAgrees(cfg, TablesOf(w, call.owner), call, c, w.now);
    AttemptWeighs(cfg, call, w'.calls[c], MetricsOf(w, call.owner), m);
    CallChanges(cfg, w, w', c, m, owner);
  }

  lemma HearCounts(cfg: Config, w: World, c: nat, heard: bool, m: Measure, owner: nat)
    requires Inv(cfg, w) && Counted(cfg, w, m, owner) && c < |w.calls| && w.calls[c].status.Waiting?
    ensures Counted(cfg, Step(cfg, w, Hears(c, heard)), m, owner)
  {
    var w', call := Step(cfg, w, Hears(c, heard)), w.calls[c];
    assert CallAgrees(cfg, TablesOf(w, call.owner), call, c, w.now);
    AttemptWeighs(cfg, call, w'.calls[c], MetricsOf(w, call.owner), m);
    CallChanges(cfg, w, w', c, m, owner);
  }

  lemma ReleaseCounts(cfg: Config, w: World, c: nat, d: Delivery, m: Measure, owner: nat)
    requires Inv(cfg, w) && Counted(cfg, w, m, owner) && c < |w.calls| && w.calls[c].status.Held?
    ensures Counted(cfg, Step(cfg, w, Releases(c, d)), m, owner)
  {
    InvAgrees(cfg, w, c);
    CallChanges(cfg, w, Step(cfg, w, Releases(c, d)), c, m, owner);
  }

  lemma StepCounts(cfg: Config, w: World, e: Event, m: Measure, owner: nat)
    requires Inv(cfg, w) && Counted(cfg, w, m, owner)
    ensures Counted(cfg, Step(cfg, w, e), m, owner)
  {
    match e
    case Acquires(o, resource) =>
      TotalAgrees(cfg, m, owner, w.calls, Step(cfg, w, e).calls, |w.calls|);
    case Sends(c, arrives) =>
      if c < |w.calls| && w.calls[c].status.Trying? {
        SendCounts(cfg, w, c, arrives, m, owner);
      }
    case Hears(c, heard) =>
      if c < |w.calls| && w.calls[c].status.Waiting? {
        HearCounts(cfg, w, c, heard, m, owner);
      }
    case Releases(c, d) =>
      if c < |w.calls| && w.calls[c].status.Held? {
        ReleaseCounts(cfg, w, c, d, m, owner);
      }
    case Waits(ms) =>
  }

  lemma {:induction false} RunCounts(cfg: Config, w: World, es: seq<Event>, m: Measure, owner: nat)
    requires Inv(cfg, w) && Counted(cfg, w, m, owner)
    ensures Counted(cfg, RunAll(cfg, w, es), m, owner)
    decreases |es|
  {
    if es != [] {
      StepKeeps(cfg, w, es[0]);
      StepCounts(cfg, w, es[0], m, owner);
      RunCounts(cfg, Step(cfg, w, es[0]), es[1..], m, owner);
    }
  }

  function CompletedTo(owner: nat, calls: seq<Call>, k: nat): nat
    requires k <= |calls|
  {
    if k == 0 then 0
    else CompletedTo(owner, calls, k - 1) + if calls[k - 1].owner == owner && calls[k - 1].Done() then 1 else 0
  }

  lemma {:induction false} CompletedSplits(cfg: Config, owner: nat, calls: seq<Call>, k: nat)
    requires k <= |calls|
    ensures CompletedTo(owner, calls, k) ==
            TotalTo(cfg, Acquired, owner, calls, k) + TotalTo(cfg, Failed, owner, calls, k)
    ensures TotalTo(cfg, Freed, owner, calls, k) <= TotalTo(cfg, Acquired, owner, calls, k)
  {
    if k > 0 {
      CompletedSplits(cfg, owner, calls, k - 1);
    }
  }

  lemma FailureWeighs(cfg: Config, owner: nat, call: Call)
    requires 0 <= cfg.retryCount
    ensures Weight(cfg, Failed, owner, call) == 0 ||
            (Weight(cfg, Failed, owner, call) == 1 && Weight(cfg, Contended, owner, call) == cfg.retryCount + 1)
  {
  }

  lemma OneMoreTimes(n: nat, f: nat)
    ensures n * (f + 1) == n * f + n
  {
  }

  lemma {:induction false} FailuresContend(cfg: Config, owner: nat, calls: seq<Call>, k: nat)
    requires k <= |calls| && 0 <= cfg.retryCount
    ensures (cfg.retryCount + 1) * TotalTo(cfg, Failed, owner, calls, k) <= TotalTo(cfg, Contended, owner, calls, k)
  {
    if k > 0 {
      FailuresContend(cfg, owner, calls, k - 1);
      var failed, weight := TotalTo(cfg, Failed, owner, calls, k - 1), Weight(cfg, Failed, owner, calls[k - 1]);
      assert TotalTo(cfg, Failed, owner, calls, k) == failed + weight;
      FailureWeighs(cfg, owner, calls[k - 1]);
      OneMoreTimes(cfg.retryCount + 1, failed);
    }
  }

  /** Acquisitions and failures of a mutex add up to its completed calls, every failure has seen
      `retryCount + 1` contended attempts, and the local form releases no more than it acquired. */
  lemma MetricsAddUp(cfg: Config, es: seq<Event>, owner: nat)
    ensures var w := RunAll(cfg, EMPTY, es); var m := MetricsOf(w, owner);
            && m.acquisitions + m.failures == CompletedTo(owner, w.calls, |w.calls|)
            && (0 <= cfg.retryCount ==> (cfg.retryCount + 1) * m.failures <= m.contentions)
            && (!cfg.redis ==> m.releases <= m.acquisitions)
  {
    EmptyInv(cfg);
    RunCounts(cfg, EMPTY, es, Acquired, owner);
    RunCounts(cfg, EMPTY, es, Failed, owner);
    RunCounts(cfg, EMPTY, es, Contended, owner);
    RunCounts(cfg, EMPTY, es, Freed, owner);
    var w := RunAll(cfg, EMPTY, es);
    CompletedSplits(cfg, owner, w.calls, |w.calls|);
    if 0 <= cfg.retryCount {
      FailuresContend(cfg, owner, w.calls, |w.calls|);
    }
  }

  /** The Redis form counts a release again each time it is called, though only the first can have
      freed anything: its releases are not bounded by its acquisitions. */
  lemma RedisCountsRepeatedReleases(cfg: Config, w: World, c: nat)
    requires Inv(cfg, w) && c < |w.calls| && w.calls[c].status.Held?
    requires w.calls[c].status.place.Shared? && w.calls[c].status.freed
    ensures var w' := Step(cfg, w, Releases(c, Heard)); var owner := w.calls[c].owner;
            w'.shared == w.shared && MetricsOf(w', owner).releases == MetricsOf(w, owner).releases + 1
  {
    InvAgrees(cfg, w, c);
    var t, r := TablesOf(w, w.calls[c].owner), w.calls[c].resource;
    assert !(r in t.At(Shared) && t.At(Shared)[r].token == c);
  }
}
