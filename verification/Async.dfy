/** The FIFO mutex, the counting semaphore and the promise pool built on it. A promise is a
    waiter's number; resuming a waiter is a separate event, so every schedule is covered. */
module Async {
  import opened Outcomes

  // ------------------------------------------------------------------ mutex

  /** A mutex with its history: who holds it, the order of arrivals and the order of grants. */
  datatype MutexRun = MutexRun(locked: bool, queue: seq<nat>, holder: Option<nat>, arrivals: seq<nat>, grants: seq<nat>)

  datatype MutexEvent = Arrive(caller: nat) | HolderReleases

  function MutexStep(m: MutexRun, e: MutexEvent): MutexRun {
    match e
    case Arrive(caller) =>
      var m' := m.(arrivals := m.arrivals + [caller]);
      if !m.locked then m'.(locked := true, holder := Some(caller), grants := m.grants + [caller])
      else m'.(queue := m.queue + [caller])
    case HolderReleases =>
      if m.holder.None? then m
      else if m.queue != [] then
        m.(queue := m.queue[1..], holder := Some(m.queue[0]), grants := m.grants + [m.queue[0]])
      else m.(locked := false, holder := None)
  }

  function RunMutex(m: MutexRun, events: seq<MutexEvent>): MutexRun
    decreases |events|
  {
    if events == [] then m else RunMutex(MutexStep(m, events[0]), events[1..])
  }

  const UNLOCKED := MutexRun(false, [], None, [], [])

  ghost predicate MutexInv(m: MutexRun) {
    && m.arrivals == m.grants + m.queue
    && (m.locked <==> m.holder.Some?)
    && (!m.locked ==> m.queue == [])
    && (m.holder.Some? ==> m.grants != [] && m.holder.value == m.grants[|m.grants| - 1])
  }

  /** `holder`, `arrivals` and `grants` record the history that the fields do not keep. */
  class Mutex {
    var locked: bool
    var queue: seq<nat>
    ghost var holder: Option<nat>
    ghost var arrivals: seq<nat>
    ghost var grants: seq<nat>

    ghost function Now(): MutexRun
      reads this
    {
      MutexRun(locked, queue, holder, arrivals, grants)
    }

    ghost predicate Valid()
      reads this
    {
      MutexInv(Now())
    }

    constructor ()
      ensures Valid() && Now() == UNLOCKED
    {
      locked, queue := false, [];
      holder, arrivals, grants := None, [], [];
    }

    /** True if the caller holds the lock on return, false if it waits in the queue. */
    method Acquire(caller: nat) returns (granted: bool)
      requires Valid()
      modifies this
      ensures Valid() && Now() == MutexStep(old(Now()), Arrive(caller))
      ensures granted <==> !old(locked)
      ensures locked && queue == old(queue) + if granted then [] else [caller]
    {
      arrivals := arrivals + [caller];
      if !locked {
        locked := true;
        holder, grants := Some(caller), grants + [caller];
        return true;
      }
      queue := queue + [caller];
      return false;
    }

    /** The waiter resumed, if any; the lock passes to it without being opened. */
    method Release() returns (next: Option<nat>)
      requires Valid()
      modifies this
      ensures Valid() && Now() == MutexStep(old(Now()), HolderReleases)
      ensures old(queue) == [] ==> next == None && !locked && queue == []
      ensures old(queue) != [] ==> next == Some(old(queue)[0]) && locked == old(locked) && queue == old(queue)[1..]
    {
      if |queue| > 0 {
        next := Some(queue[0]);
        holder, grants := next, grants + [queue[0]];
        queue := queue[1..];
      } else {
        next := None;
        locked, holder := false, None;
      }
    }
  }

  lemma {:induction false} MutexRunKeeps(m: MutexRun, events: seq<MutexEvent>)
    requires MutexInv(m)
    ensures MutexInv(RunMutex(m, events))
    decreases |events|
  {
    if events != [] {
      MutexRunKeeps(MutexStep(m, events[0]), events[1..]);
    }
  }

  /** Along every run in which only the holder releases: one holder while locked, none
      otherwise, and the lock is granted in exactly the order of arrival. */
  lemma MutexIsFifo(events: seq<MutexEvent>)
    ensures var m := RunMutex(UNLOCKED, events);
            && (m.locked <==> m.holder.Some?)
            && m.grants <= m.arrivals
            && m.queue == m.arrivals[|m.grants|..]
            && (m.holder.Some? ==> m.grants != [] && m.holder.value == m.arrivals[|m.grants| - 1])
            && (!m.locked ==> m.grants == m.arrivals)
  {
    MutexRunKeeps(UNLOCKED, events);
  }

  // ------------------------------------------------------------------ semaphore

  class Semaphore {
    var permits: int
    var queue: seq<nat>

    constructor (permits: int)
      ensures this.permits == permits && queue == []
    {
      this.permits, queue := permits, [];
    }

    method Acquire(caller: nat) returns (granted: bool)
      modifies this
      ensures granted == (old(permits) > 0)
      ensures permits == if granted then old(permits) - 1 else old(permits)
      ensures queue == if granted then old(queue) else old(queue) + [caller]
    {
      if permits > 0 {
        permits := permits - 1;
        return true;
      }
      queue := queue + [caller];
      return false;
    }

    method Release() returns (next: Option<nat>)
      modifies this
      ensures old(queue) == [] ==> next == None && permits == old(permits) + 1 && queue == []
      ensures old(queue) != [] ==> next == Some(old(queue)[0]) && queue == old(queue)[1..] && permits == old(permits)
    {
      if |queue| > 0 {
        next := Some(queue[0]);
        queue := queue[1..];
      } else {
        next := None;
        permits := permits + 1;
      }
    }
  }

  // ------------------------------------------------------------------ promise pool

  /** Where the async body of one item is. */
  datatype Phase = Waiting | Granted | Running | Done | Rejected

  datatype Pool<R> = Pool(permits: int, queue: seq<nat>, phases: seq<Phase>, results: seq<Option<R>>)

  /** Begin resumes a granted body, which calls fn; Finish and Reject settle that call. */
  datatype PoolEvent = Begin(i: nat) | Finish(i: nat) | Reject(i: nat)

  /** The next body runs up to its `acquire`. */
  function Admit<R>(p: Pool<R>): Pool<R> {
    if p.permits > 0 then Pool(p.permits - 1, p.queue, p.phases + [Granted], p.results + [None])
    else Pool(p.permits, p.queue + [|p.phases|], p.phases + [Waiting], p.results + [None])
  }

  /** The state after the first `n` bodies have run up to their `acquire`. */
  function Launch<R>(concurrency: int, n: nat): Pool<R> {
    if n == 0 then Pool(concurrency, [], [], []) else Admit(Launch<R>(concurrency, n - 1))
  }

  function Handoff<R>(p: Pool<R>): Pool<R> {
    if p.queue == [] then p.(permits := p.permits + 1)
    else if p.queue[0] >= |p.phases| then p
    else p.(queue := p.queue[1..], phases := p.phases[p.queue[0] := Granted])
  }

  predicate Enabled<R>(p: Pool<R>, e: PoolEvent) {
    e.i < |p.phases| && e.i < |p.results| && p.phases[e.i] == if e.Begin? then Granted else Running
  }

  /** `out(i)` is fn(items[i], i). */
  function PoolStep<R>(p: Pool<R>, e: PoolEvent, out: nat -> R): Pool<R> {
    if !Enabled(p, e) then p
    else match e
      case Begin(i) => p.(phases := p.phases[i := Running])
      case Finish(i) => Handoff(p.(phases := p.phases[i := Done], results := p.results[i := Some(out(i))]))
      case Reject(i) => Handoff(p.(phases := p.phases[i := Rejected]))
  }

  function RunPool<R>(p: Pool<R>, events: seq<PoolEvent>, out: nat -> R): Pool<R>
    decreases |events|
  {
    if events == [] then p else RunPool(PoolStep(p, events[0], out), events[1..], out)
  }

  predicate Holds(ph: Phase) {
    ph == Granted || ph == Running
  }

  function HoldWeight(ph: Phase): nat {
    if Holds(ph) then 1 else 0
  }

  function RunWeight(ph: Phase): nat {
    if ph == Running then 1 else 0
  }

  function WaitWeight(ph: Phase): nat {
    if ph == Waiting then 1 else 0
  }

  /** An upper bound on the events a body still has before it. */
  function Weight(ph: Phase): nat {
    match ph
    case Waiting => 3
    case Granted => 2
    case Running => 1
    case _ => 0
  }

  /** Sum of a weight over the first `k` bodies. */
  function Tally(phases: seq<Phase>, k: nat, w: Phase -> nat): nat
    requires k <= |phases|
  {
    if k == 0 then 0 else Tally(phases, k - 1, w) + w(phases[k - 1])
  }

  function Holders(phases: seq<Phase>): nat {
    Tally(phases, |phases|, HoldWeight)
  }

  function RunningCount(phases: seq<Phase>): nat {
    Tally(phases, |phases|, RunWeight)
  }

  function WaitingCount(phases: seq<Phase>): nat {
    Tally(phases, |phases|, WaitWeight)
  }

  function Work(phases: seq<Phase>): nat {
    Tally(phases, |phases|, Weight)
  }

  /** Permits taken are held by bodies, and none is free while a body waits. */
  ghost predicate PermitsOk(permits: int, queue: seq<nat>, phases: seq<Phase>, concurrency: int) {
    && permits + Holders(phases) == concurrency
    && (permits >= 0 || Holders(phases) == 0)
    && (queue != [] ==> permits <= 0)
  }

  /** The queue holds exactly the waiting bodies, once each. */
  ghost predicate QueueOk(queue: seq<nat>, phases: seq<Phase>) {
    && (forall k | 0 <= k < |queue| :: queue[k] < |phases| && phases[queue[k]] == Waiting)
    && (forall k, l | 0 <= k < l < |queue| :: queue[k] != queue[l])
    && |queue| == WaitingCount(phases)
  }

  /** A body that is done has its own result, any other has none. */
  ghost predicate ResultsOk<R>(phases: seq<Phase>, results: seq<Option<R>>, out: nat -> R) {
    && |results| == |phases|
    && (forall i | 0 <= i < |phases| :: results[i] == if phases[i] == Done then Some(out(i)) else None)
  }

  ghost predicate PoolInv<R>(p: Pool<R>, concurrency: int, out: nat -> R) {
    && PermitsOk(p.permits, p.queue, p.phases, concurrency)
    && QueueOk(p.queue, p.phases)
    && ResultsOk(p.phases, p.results, out)
  }

  lemma {:induction false} TallyUpdate(phases: seq<Phase>, i: nat, ph: Phase, k: nat, w: Phase -> nat)
    requires i < |phases| && k <= |phases|
    ensures Tally(phases[i := ph], k, w) == Tally(phases, k, w) + if i < k then w(ph) - w(phases[i]) else 0
  {
    if k > 0 {
      TallyUpdate(phases, i, ph, k - 1, w);
    }
  }

  lemma {:induction false} TallyGrow(phases: seq<Phase>, ph: Phase, k: nat, w: Phase -> nat)
    requires k <= |phases|
    ensures Tally(phases + [ph], k, w) == Tally(phases, k, w)
  {
    if k > 0 {
      TallyGrow(phases, ph, k - 1, w);
    }
  }

  lemma {:induction false} TallyAtLeast(phases: seq<Phase>, i: nat, k: nat, w: Phase -> nat)
    requires i < k <= |phases|
    ensures Tally(phases, k, w) >= w(phases[i])
  {
    if i < k - 1 {
      TallyAtLeast(phases, i, k - 1, w);
    }
  }

  lemma PhaseUpdate(phases: seq<Phase>, i: nat, ph: Phase)
    requires i < |phases|
    ensures var phases' := phases[i := ph];
            && Holders(phases') == Holders(phases) + HoldWeight(ph) - HoldWeight(phases[i])
            && WaitingCount(phases') == WaitingCount(phases) + WaitWeight(ph) - WaitWeight(phases[i])
            && Work(phases') == Work(phases) + Weight(ph) - Weight(phases[i])
  {
    TallyUpdate(phases, i, ph, |phases|, HoldWeight);
    TallyUpdate(phases, i, ph, |phases|, WaitWeight);
    TallyUpdate(phases, i, ph, |phases|, Weight);
  }

  lemma QueueGrows(queue: seq<nat>, phases: seq<Phase>, ph: Phase)
    requires QueueOk(queue, phases)
    ensures ph == Waiting ==> QueueOk(queue + [|phases|], phases + [ph])
    ensures ph != Waiting ==> QueueOk(queue, phases + [ph])
  {
    TallyGrow(phases, ph, |phases|, WaitWeight);
  }

  lemma HoldersGrow(phases: seq<Phase>, ph: Phase)
    ensures Holders(phases + [ph]) == Holders(phases) + HoldWeight(ph)
  {
    TallyGrow(phases, ph, |phases|, HoldWeight);
  }

  lemma ResultsGrow<R>(phases: seq<Phase>, results: seq<Option<R>>, ph: Phase, out: nat -> R)
    requires ResultsOk(phases, results, out) && ph != Done
    ensures ResultsOk(phases + [ph], results + [None], out)
  {
  }

  lemma AdmitKeeps<R>(p: Pool<R>, concurrency: int, out: nat -> R)
    requires PoolInv(p, concurrency, out)
    ensures PoolInv(Admit(p), concurrency, out) && |Admit(p).phases| == |p.phases| + 1
  {
    var ph := if p.permits > 0 then Granted else Waiting;
    HoldersGrow(p.phases, ph);
    QueueGrows(p.queue, p.phases, ph);
    ResultsGrow(p.phases, p.results, ph, out);
  }

  lemma {:induction false} LaunchInv<R>(concurrency: int, n: nat, out: nat -> R)
    ensures PoolInv(Launch<R>(concurrency, n), concurrency, out) && |Launch<R>(concurrency, n).phases| == n
  {
    if n > 0 {
      LaunchInv(concurrency, n - 1, out);
      AdmitKeeps(Launch<R>(concurrency, n - 1), concurrency, out);
    }
  }

  /** A body that is not waiting may move on without disturbing the queue. */
  lemma QueueUndisturbed(queue: seq<nat>, phases: seq<Phase>, i: nat, ph: Phase)
    requires QueueOk(queue, phases) && i < |phases| && phases[i] != Waiting && ph != Waiting
    ensures QueueOk(queue, phases[i := ph])
  {
    PhaseUpdate(phases, i, ph);
  }

  lemma QueueShifts(queue: seq<nat>, phases: seq<Phase>)
    requires QueueOk(queue, phases) && queue != []
    ensures QueueOk(queue[1..], phases[queue[0] := Granted])
  {
    PhaseUpdate(phases, queue[0], Granted);
  }

  /** Releasing a permit after a body has settled. */
  lemma HandoffKeeps<R>(p: Pool<R>, concurrency: int, out: nat -> R)
    requires PermitsOk(p.permits, p.queue, p.phases, concurrency - 1) && concurrency >= 1
    requires QueueOk(p.queue, p.phases) && ResultsOk(p.phases, p.results, out)
    ensures PoolInv(Handoff(p), concurrency, out)
    ensures Work(Handoff(p).phases) <= Work(p.phases)
    ensures |Handoff(p).phases| == |p.phases|
  {
    if p.queue != [] {
      PhaseUpdate(p.phases, p.queue[0], Granted);
      QueueShifts(p.queue, p.phases);
    }
  }

  lemma SettleKeeps<R>(p: Pool<R>, i: nat, ph: Phase, results: seq<Option<R>>, concurrency: int, out: nat -> R)
    requires PoolInv(p, concurrency, out) && i < |p.phases| && p.phases[i] == Running && Settled(ph)
    requires ResultsOk(p.phases[i := ph], results, out)
    ensures var p' := Handoff(p.(phases := p.phases[i := ph], results := results));
            PoolInv(p', concurrency, out) && Work(p'.phases) < Work(p.phases) && |p'.phases| == |p.phases|
  {
    PhaseUpdate(p.phases, i, ph);
    QueueUndisturbed(p.queue, p.phases, i, ph);
    TallyAtLeast(p.phases, i, |p.phases|, HoldWeight);
    HandoffKeeps(p.(phases := p.phases[i := ph], results := results), concurrency, out);
  }

  /** Every enabled event keeps the invariant and uses up work. */
  lemma PoolStepKeeps<R>(p: Pool<R>, e: PoolEvent, concurrency: int, out: nat -> R)
    requires PoolInv(p, concurrency, out)
    ensures PoolInv(PoolStep(p, e, out), concurrency, out)
    ensures |PoolStep(p, e, out).phases| == |p.phases|
    ensures Enabled(p, e) ==> Work(PoolStep(p, e, out).phases) < Work(p.phases)
  {
    if Enabled(p, e) {
      match e
      case Begin(i) =>
        PhaseUpdate(p.phases, i, Running);
        QueueUndisturbed(p.queue, p.phases, i, Running);
      case Finish(i) =>
        SettleKeeps(p, i, Done, p.results[i := Some(out(i))], concurrency, out);
      case Reject(i) =>
        SettleKeeps(p, i, Rejected, p.results, concurrency, out);
    }
  }

  lemma {:induction false} RunPoolKeeps<R>(p: Pool<R>, events: seq<PoolEvent>, concurrency: int, out: nat -> R)
    requires PoolInv(p, concurrency, out)
    ensures PoolInv(RunPool(p, events, out), concurrency, out) && |RunPool(p, events, out).phases| == |p.phases|
    decreases |events|
  {
    if events != [] {
      PoolStepKeeps(p, events[0], concurrency, out);
      RunPoolKeeps(PoolStep(p, events[0], out), events[1..], concurrency, out);
    }
  }

  lemma {:induction false} RunningAreHolders(phases: seq<Phase>, k: nat)
    requires k <= |phases|
    ensures Tally(phases, k, RunWeight) <= Tally(phases, k, HoldWeight)
  {
    if k > 0 {
      RunningAreHolders(phases, k - 1);
    }
  }

  /** For every schedule, rejections included: permits and holders add up, a waiting body means
      no free permit, at most `concurrency` bodies run at once, and every result is its own. */
  lemma PoolIsBounded<R>(n: nat, concurrency: nat, events: seq<PoolEvent>, out: nat -> R)
    ensures var p := RunPool(Launch<R>(concurrency, n), events, out);
            && |p.phases| == n && |p.results| == n
            && p.permits + Holders(p.phases) == concurrency
            && (p.queue != [] ==> p.permits == 0)
            && RunningCount(p.phases) <= concurrency
            && forall i | 0 <= i < n :: p.results[i] == if p.phases[i] == Done then Some(out(i)) else None
  {
    LaunchInv(concurrency, n, out);
    RunPoolKeeps(Launch<R>(concurrency, n), events, concurrency, out);
    RunningAreHolders(RunPool(Launch<R>(concurrency, n), events, out).phases, n);
  }

  lemma {:induction false} HolderExists(phases: seq<Phase>, k: nat)
    requires k <= |phases| && Tally(phases, k, HoldWeight) > 0
    ensures exists i :: 0 <= i < k && Holds(phases[i])
  {
    if !Holds(phases[k - 1]) {
      HolderExists(phases, k - 1);
    }
  }

  predicate Settled(ph: Phase) {
    ph == Done || ph == Rejected
  }

  /** With at least one permit a pool never gets stuck: while some body is not settled, some
      event is enabled. With the strict decrease of Work every maximal schedule settles all. */
  lemma PoolNeverStuck<R>(p: Pool<R>, concurrency: int, out: nat -> R)
    requires PoolInv(p, concurrency, out) && concurrency >= 1
    requires exists i :: 0 <= i < |p.phases| && !Settled(p.phases[i])
    ensures exists e :: Enabled(p, e) && !e.Reject?
  {
    if Holders(p.phases) == 0 {
      var i :| 0 <= i < |p.phases| && !Settled(p.phases[i]);
      if Holds(p.phases[i]) {
        TallyAtLeast(p.phases, i, |p.phases|, HoldWeight);
      } else {
        TallyAtLeast(p.phases, i, |p.phases|, WaitWeight);
      }
    } else {
      HolderExists(p.phases, |p.phases|);
      var i :| 0 <= i < |p.phases| && Holds(p.phases[i]);
      assert Enabled(p, if p.phases[i] == Granted then Begin(i) else Finish(i));
    }
  }

  /** Completion needs exactly that: a launched pool of at least one item has an enabled event
      if and only if concurrency is at least one. */
  lemma LaunchProgressesIff<R>(n: nat, concurrency: int, out: nat -> R)
    requires n > 0
    ensures (exists e :: Enabled(Launch<R>(concurrency, n), e)) <==> concurrency >= 1
  {
    LaunchInv(concurrency, n, out);
    var p := Launch<R>(concurrency, n);
    if concurrency >= 1 {
      LaunchUnsettled<R>(concurrency, n);
      assert !Settled(p.phases[0]);
      PoolNeverStuck(p, concurrency, out);
    } else {
      LaunchUnsettled<R>(concurrency, n);
    }
  }

  lemma {:induction false} LaunchUnsettled<R>(concurrency: int, n: nat)
    ensures var p := Launch<R>(concurrency, n);
            && |p.phases| == n
            && (forall i | 0 <= i < n :: p.phases[i] == Waiting || p.phases[i] == Granted)
            && (concurrency <= 0 ==> p.permits == concurrency && forall i | 0 <= i < n :: p.phases[i] == Waiting)
  {
    if n > 0 {
      LaunchUnsettled<R>(concurrency, n - 1);
    }
  }

  function EnabledBodies(phases: seq<Phase>, k: nat): (ids: seq<nat>)
    requires k <= |phases|
    ensures forall i <- ids :: i < |phases| && Holds(phases[i])
    ensures ids == [] ==> forall i | 0 <= i < k :: !Holds(phases[i])
  {
    if k == 0 then []
    else EnabledBodies(phases, k - 1) + if Holds(phases[k - 1]) then [k - 1] else []
  }

  /** items.map runs every body up to its `acquire`, in index order. */
  method LaunchAll<R>(n: nat, concurrency: int) returns (sem: Semaphore, phases: seq<Phase>, results: seq<Option<R>>)
    ensures fresh(sem)
    ensures Pool(sem.permits, sem.queue, phases, results) == Launch<R>(concurrency, n)
  {
    sem := new Semaphore(concurrency);
    phases, results := [], [];
    for i := 0 to n
      invariant fresh(sem) && |phases| == i
      invariant Pool(sem.permits, sem.queue, phases, results) == Launch<R>(concurrency, i)
    {
      var granted := sem.Acquire(i);
      phases := phases + [if granted then Granted else Waiting];
      results := results + [None];
    }
  }

  /** Resume the body of item `i`: a granted one calls fn, a running one stores its value and
      releases its permit. */
  method Resume<R>(sem: Semaphore, phases: seq<Phase>, results: seq<Option<R>>, i: nat, value: R, ghost out: nat -> R)
    returns (phases': seq<Phase>, results': seq<Option<R>>)
    requires i < |phases| && |results| == |phases| && Holds(phases[i]) && value == out(i)
    requires forall k | 0 <= k < |sem.queue| :: sem.queue[k] < |phases|
    modifies sem
    ensures Pool(sem.permits, sem.queue, phases', results') ==
            PoolStep(Pool(old(sem.permits), old(sem.queue), phases, results), ResumeEvent(phases, i), out)
  {
    if phases[i] == Granted {
      return phases[i := Running], results;
    }
    results' := results[i := Some(value)];
    phases' := phases[i := Done];
    var next := sem.Release();
    if next.Some? {
      phases' := phases'[next.value := Granted];
    }
  }

  function ResumeEvent(phases: seq<Phase>, i: nat): PoolEvent
    requires i < |phases|
  {
    if phases[i] == Granted then Begin(i) else Finish(i)
  }

  /** When nothing can move and nothing was rejected, every body is done. */
  lemma QuietMeansDone<R>(p: Pool<R>, concurrency: int, out: nat -> R)
    requires PoolInv(p, concurrency, out) && concurrency >= 1
    requires forall i | 0 <= i < |p.phases| :: !Holds(p.phases[i]) && p.phases[i] != Rejected
    ensures forall i | 0 <= i < |p.phases| :: p.results[i] == Some(out(i))
  {
    if exists i :: 0 <= i < |p.phases| && !Settled(p.phases[i]) {
      PoolNeverStuck(p, concurrency, out);
    }
  }

  ghost predicate NoneRejected(phases: seq<Phase>) {
    forall i | 0 <= i < |phases| :: phases[i] != Rejected
  }

  lemma StepRejectsNone<R>(p: Pool<R>, e: PoolEvent, out: nat -> R)
    requires NoneRejected(p.phases) && !e.Reject?
    ensures NoneRejected(PoolStep(p, e, out).phases)
  {
  }

  /** One turn of the scheduler. */
  method Turn<R>(sem: Semaphore, phases: seq<Phase>, results: seq<Option<R>>, i: nat, value: R,
                 ghost concurrency: int, ghost out: nat -> R)
    returns (phases': seq<Phase>, results': seq<Option<R>>)
    requires i < |phases| && Holds(phases[i]) && value == out(i) && NoneRejected(phases)
    requires PoolInv(Pool(sem.permits, sem.queue, phases, results), concurrency, out)
    modifies sem
    ensures PoolInv(Pool(sem.permits, sem.queue, phases', results'), concurrency, out)
    ensures |phases'| == |phases| && NoneRejected(phases') && Work(phases') < Work(phases)
  {
    ghost var p := Pool(sem.permits, sem.queue, phases, results);
    StepRejectsNone(p, ResumeEvent(phases, i), out);
    PoolStepKeeps(p, ResumeEvent(phases, i), concurrency, out);
    phases', results' := Resume(sem, phases, results, i, value, out);
  }

  /** The pool itself, under any scheduler: at each turn any body that can move is resumed. Every
      call settles successfully, and the results are those of a plain map. */
  method PromisePool<T, R>(items: seq<T>, concurrency: int, fn: (T, nat) -> R) returns (results: seq<Option<R>>)
    requires concurrency >= 1 || items == []
    ensures |results| == |items|
    ensures forall i | 0 <= i < |items| :: results[i] == Some(fn(items[i], i))
  {
    var n := |items|;
    if n == 0 {
      return [];
    }
    ghost var out: nat -> R := (i: nat) => if i < |items| then fn(items[i], i) else fn(items[0], 0);
    LaunchInv(concurrency, n, out);
    LaunchUnsettled<R>(concurrency, n);
    var sem, phases, res := LaunchAll<R>(n, concurrency);
    var enabled := EnabledBodies(phases, n);
    while enabled != []
      invariant fresh(sem) && |phases| == n && enabled == EnabledBodies(phases, n)
      invariant PoolInv(Pool(sem.permits, sem.queue, phases, res), concurrency, out)
      invariant NoneRejected(phases)
      decreases Work(phases)
    {
      assert enabled[0] in enabled;
      var i :| i in enabled;
      phases, res := Turn(sem, phases, res, i, fn(items[i], i), concurrency, out);
      enabled := EnabledBodies(phases, n);
    }
    QuietMeansDone(Pool(sem.permits, sem.queue, phases, res), concurrency, out);
    results := res;
  }
}
