/** The single-active-instance lock: one Redis key with an expiry, a heartbeat that renews it,
    and instances that only know what their last reply told them. */
module InstanceLock {
  import opened Outcomes

  /** The key's value is identified with the owner's token. */
  datatype Lease = Lease(token: nat, expiresAt: int)

  /** What one process knows, and what is under way. `renewedAt` is when Redis last accepted its SET
      or PEXPIRE, `claimed` that it has not deleted its key since; `releasing` is true between
      sending the release and processing its reply. `asked` and `refused` count replies still to
      come: of SETs that were granted, and of heartbeats that were refused. */
  datatype Inst = Inst(
    held: bool, timerOn: bool, releasing: bool, renewedAt: int, claimed: bool, asked: nat, refused: nat)

  predicate Live(key: Option<Lease>, now: int) {
    key.Some? && now < key.value.expiresAt
  }

  predicate Owns(key: Option<Lease>, now: int, token: nat) {
    Live(key, now) && key.value.token == token
  }

  // ------------------------------------------------------------------ one instance, one key

  /** SET key token PX ttl NX, up to its reply. */
  function SetSend(ttl: nat, now: int, token: nat, key: Option<Lease>, inst: Inst): (Option<Lease>, Inst) {
    if Live(key, now) then (key, inst)
    else (Some(Lease(token, now + ttl)), inst.(renewedAt := now, claimed := true, asked := inst.asked + 1))
  }

  /** The reply to a granted SET; a refused one changes nothing. */
  function SetDone(inst: Inst): Inst {
    if inst.asked == 0 then inst else inst.(held := true, timerOn := true, asked := inst.asked - 1)
  }

  /** The heartbeat script, up to its reply: PEXPIRE only if the key still carries the token. */
  function BeatSend(ttl: nat, now: int, token: nat, key: Option<Lease>, inst: Inst): (Option<Lease>, Inst) {
    if !inst.held then (key, inst)
    else if Owns(key, now, token) then (Some(Lease(token, now + ttl)), inst.(renewedAt := now))
    else (key, inst.(refused := inst.refused + 1))
  }

  /** The reply to a refused heartbeat; an accepted one changes nothing. */
  function BeatDone(inst: Inst): Inst {
    if inst.refused == 0 then inst else inst.(held := false, refused := inst.refused - 1)
  }

  /** The release up to its reply: DEL only if the key still carries the token. `reaches` is
      false when the command fails before it gets to Redis. */
  function ReleaseSend(now: int, token: nat, key: Option<Lease>, inst: Inst, reaches: bool): (Option<Lease>, Inst) {
    if !inst.held then (key, inst.(timerOn := false))
    else if reaches && Owns(key, now, token) then
      (None, inst.(timerOn := false, releasing := true, claimed := false))
    else (key, inst.(timerOn := false, releasing := true))
  }

  function ReleaseDone(inst: Inst): Inst {
    if inst.releasing then inst.(held := false, releasing := false) else inst
  }

  class RedisKey {
    var lease: Option<Lease>

    constructor ()
      ensures lease == None
    {
      lease := None;
    }
  }

  /** The lock object of one process. `now` is the server's clock at the command. */
  class Lock {
    const ttlMs: nat
    const token: nat
    const redis: RedisKey
    var held: bool
    var timerOn: bool
    var releasing: bool
    ghost var renewedAt: int
    ghost var claimed: bool
    ghost var asked: nat
    ghost var refused: nat

    ghost function State(): Inst
      reads this
    {
      Inst(held, timerOn, releasing, renewedAt, claimed, asked, refused)
    }

    constructor (ttlMs: nat, token: nat, redis: RedisKey)
      ensures this.ttlMs == ttlMs && this.token == token && this.redis == redis
      ensures State() == Inst(false, false, false, 0, false, 0, 0)
    {
      this.ttlMs, this.token, this.redis := ttlMs, token, redis;
      held, timerOn, releasing := false, false, false;
      renewedAt, claimed, asked, refused := 0, false, 0, 0;
    }

    /** The SET of tryAcquire. Its reply may come at any later time, or never. */
    method SendAcquire(now: int) returns (granted: bool)
      modifies this, redis
      ensures (redis.lease, State()) == SetSend(ttlMs, now, token, old(redis.lease), old(State()))
      ensures granted == !Live(old(redis.lease), now)
      ensures redis.lease == if granted then Some(Lease(token, now + ttlMs)) else old(redis.lease)
      ensures held == old(held) && timerOn == old(timerOn) && asked == old(asked) + if granted then 1 else 0
    {
      granted := !Live(redis.lease, now);
      if granted {
        redis.lease := Some(Lease(token, now + ttlMs));
        renewedAt, claimed, asked := now, true, asked + 1;
      }
    }

    /** The rest of tryAcquire, once the reply is there. */
    method FinishAcquire(granted: bool) returns (ok: bool)
      requires granted ==> asked > 0
      modifies this
      ensures State() == (if granted then SetDone(old(State())) else old(State())) && ok == granted
      ensures granted ==> held && timerOn && asked == old(asked) - 1
    {
      if !granted {
        return false;
      }
      asked := asked - 1;
      held := true;
      if !timerOn {
        timerOn := true;
      }
      return true;
    }

    /** The script of refresh. Its reply may come at any later time, or never. */
    method SendBeat(now: int) returns (accepted: bool)
      modifies this, redis
      ensures (redis.lease, State()) == BeatSend(ttlMs, now, token, old(redis.lease), old(State()))
      ensures accepted == (!held || Owns(old(redis.lease), now, token))
      ensures held == old(held) && refused == old(refused) + if accepted then 0 else 1
      ensures redis.lease == if held && accepted then Some(Lease(token, now + ttlMs)) else old(redis.lease)
    {
      if !held {
        return true;
      }
      accepted := Owns(redis.lease, now, token);
      if accepted {
        redis.lease := Some(Lease(token, now + ttlMs));
        renewedAt := now;
      } else {
        refused := refused + 1;
      }
    }

    method FinishBeat(accepted: bool)
      requires !accepted ==> refused > 0
      modifies this
      ensures State() == if accepted then old(State()) else BeatDone(old(State()))
      ensures !accepted ==> !held && timerOn == old(timerOn) && refused == old(refused) - 1
    {
      if !accepted {
        held, refused := false, refused - 1;
      }
    }

    method SendRelease(now: int, reaches: bool)
      modifies this, redis
      ensures (redis.lease, State()) == ReleaseSend(now, token, old(redis.lease), old(State()), reaches)
      ensures !timerOn && held == old(held) && releasing == (held || old(releasing))
      ensures redis.lease == if held && reaches && Owns(old(redis.lease), now, token) then None else old(redis.lease)
    {
      if timerOn {
        timerOn := false;
      }
      if !held {
        return;
      }
      releasing := true;
      if reaches && Owns(redis.lease, now, token) {
        redis.lease, claimed := None, false;
      }
    }

    method FinishRelease()
      modifies this
      ensures State() == ReleaseDone(old(State()))
      ensures !releasing && timerOn == old(timerOn) && held == (old(held) && !old(releasing))
    {
      if releasing {
        held, releasing := false, false;
      }
    }
  }

  // ------------------------------------------------------------------ many instances

  /** Instance `i` has token `i`. A command and the processing of its reply are two events, with
      anything in between; Acquire and Beat are the two at once, and BeatLost is a heartbeat that fails
      before it has any effect. A reply that is never processed is lost. */
  datatype World = World(now: int, key: Option<Lease>, insts: seq<Inst>)

  datatype Event =
    | Advance(dt: nat)
    | Acquire(i: nat)
    | AcquireSent(i: nat)
    | AcquireHeard(i: nat)
    | Beat(i: nat)
    | BeatSent(i: nat)
    | BeatHeard(i: nat)
    | BeatLost(i: nat)
    | SendRelease(i: nat, reaches: bool)
    | FinishRelease(i: nat)

  /** A command of instance `i`, on the key and on what it knows. */
  function Command(ttl: nat, now: int, key: Option<Lease>, inst: Inst, e: Event): (Option<Lease>, Inst)
    requires !e.Advance?
  {
    match e
    case Acquire(i) =>
      var (key', inst') := SetSend(ttl, now, i, key, inst);
      (key', if Live(key, now) then inst' else SetDone(inst'))
    case AcquireSent(i) => SetSend(ttl, now, i, key, inst)
    case AcquireHeard(_) => (key, SetDone(inst))
    case Beat(i) =>
      var (key', inst') := BeatSend(ttl, now, i, key, inst);
      (key', if inst.held && !Owns(key, now, i) then BeatDone(inst') else inst')
    case BeatSent(i) => BeatSend(ttl, now, i, key, inst)
    case BeatHeard(_) => (key, BeatDone(inst))
    case BeatLost(_) => (key, inst)
    case SendRelease(i, reaches) => ReleaseSend(now, i, key, inst, reaches)
    case FinishRelease(_) => (key, ReleaseDone(inst))
  }

  function Step(ttl: nat, w: World, e: Event): World {
    if e.Advance? then w.(now := w.now + e.dt)
    else if e.i >= |w.insts| then w
    else
      var (key, inst) := Command(ttl, w.now, w.key, w.insts[e.i], e);
      w.(key := key, insts := w.insts[e.i := inst])
  }

  function Run(ttl: nat, w: World, events: seq<Event>): World
    decreases |events|
  {
    if events == [] then w else Run(ttl, Step(ttl, w, events[0]), events[1..])
  }

  function Start(now: int, n: nat): World {
    World(now, None, seq(n, _ => Inst(false, false, false, now, false, 0, 0)))
  }

  /** The instance believes it is the active one and has not begun to give that up. */
  predicate Active(w: World, i: nat) {
    i < |w.insts| && w.insts[i].held && !w.insts[i].releasing
  }

  /** isHeld(): it stays true until the reply to the release has been processed. */
  predicate Held(w: World, i: nat) {
    i < |w.insts| && w.insts[i].held
  }

  /** The instance is held and has renewed within the last TTL. */
  predicate Renewed(ttl: nat, w: World, i: nat) {
    Held(w, i) && w.now < w.insts[i].renewedAt + ttl
  }

  /** A key with the token of instance `i` is its claim, with the expiry of its last renewal; and a claim
      that was renewed within the last TTL is the key. */
  predicate Agrees(ttl: nat, now: int, key: Option<Lease>, i: nat, inst: Inst) {
    && inst.renewedAt <= now
    && (key.Some? && key.value.token == i ==> inst.claimed && key.value.expiresAt == inst.renewedAt + ttl)
    && (inst.claimed && now < inst.renewedAt + ttl ==> key.Some? && key.value.token == i)
  }

  ghost predicate Inv(ttl: nat, w: World) {
    && (forall i | 0 <= i < |w.insts| :: Agrees(ttl, w.now, w.key, i, w.insts[i]))
    && (w.key.Some? ==> w.key.value.token < |w.insts|)
  }

  /** A command leaves the key alone, or it acts on a dead key or on the own one. */
  lemma CommandAgrees(ttl: nat, now: int, key: Option<Lease>, inst: Inst, e: Event, key': Option<Lease>, inst': Inst)
    requires !e.Advance? && Agrees(ttl, now, key, e.i, inst) && (key', inst') == Command(ttl, now, key, inst, e)
    ensures Agrees(ttl, now, key', e.i, inst')
    ensures key' == key || !Live(key, now) || key.value.token == e.i
    ensures key' == key || key' == None || key'.value.token == e.i
  {
  }

  lemma StepKeepsInv(ttl: nat, w: World, e: Event)
    requires Inv(ttl, w)
    ensures Inv(ttl, Step(ttl, w, e))
  {
    if !e.Advance? && e.i < |w.insts| {
      var (key, inst) := Command(ttl, w.now, w.key, w.insts[e.i], e);
      CommandAgrees(ttl, w.now, w.key, w.insts[e.i], e, key, inst);
    }
  }

  lemma {:induction false} RunKeepsInv(ttl: nat, w: World, events: seq<Event>)
    requires Inv(ttl, w)
    ensures Inv(ttl, Run(ttl, w, events))
    decreases |events|
  {
    if events != [] {
      StepKeepsInv(ttl, w, events[0]);
      RunKeepsInv(ttl, Step(ttl, w, events[0]), events[1..]);
    }
  }

  /** The instance deletes its key while a granted SET of its own has not been answered yet. */
  predicate Hasty(w: World, e: Event) {
    && e.SendRelease? && e.reaches && Held(w, e.i) && Owns(w.key, w.now, e.i)
    && w.insts[e.i].asked > 0
  }

  predicate NeverHasty(ttl: nat, w: World, events: seq<Event>)
    decreases |events|
  {
    events != [] ==> !Hasty(w, events[0]) && NeverHasty(ttl, Step(ttl, w, events[0]), events[1..])
  }

  /** Who is held and not being released has a claim, and so has who waits for a granted SET. */
  ghost predicate Claims(w: World) {
    forall i | 0 <= i < |w.insts| ::
      && (w.insts[i].held ==> w.insts[i].claimed || w.insts[i].releasing)
      && (w.insts[i].asked > 0 ==> w.insts[i].claimed)
  }

  lemma StepKeepsClaims(ttl: nat, w: World, e: Event)
    requires Claims(w) && !Hasty(w, e)
    ensures Claims(Step(ttl, w, e))
  {
  }

  lemma {:induction false} RunKeepsClaims(ttl: nat, w: World, events: seq<Event>)
    requires Claims(w) && NeverHasty(ttl, w, events)
    ensures Claims(Run(ttl, w, events))
    decreases |events|
  {
    if events != [] {
      StepKeepsClaims(ttl, w, events[0]);
      RunKeepsClaims(ttl, Step(ttl, w, events[0]), events[1..]);
    }
  }

  /** With no assumption on timing, with late and lost replies: of two held instances that have both
      renewed within the last TTL one is being released, and the one that is not being released owns
      the live key; unless some instance released while a SET of its own was unanswered. */
  lemma OneFreshHolder(ttl: nat, now: int, n: nat, events: seq<Event>, i: nat, j: nat)
    requires NeverHasty(ttl, Start(now, n), events)
    ensures var w := Run(ttl, Start(now, n), events);
            && (Renewed(ttl, w, i) && Renewed(ttl, w, j) && i != j ==> w.insts[i].releasing || w.insts[j].releasing)
            && (Renewed(ttl, w, i) && !w.insts[i].releasing ==> Owns(w.key, w.now, i))
  {
    RunKeepsInv(ttl, Start(now, n), events);
    RunKeepsClaims(ttl, Start(now, n), events);
  }

  lemma RunOfFour(ttl: nat, w: World, a: Event, b: Event, c: Event, d: Event)
    ensures Run(ttl, w, [a, b, c, d]) == Step(ttl, Step(ttl, Step(ttl, Step(ttl, w, a), b), c), d)
  {
    var w1 := Step(ttl, w, a);
    var w2 := Step(ttl, w1, b);
    var w3 := Step(ttl, w2, c);
    assert [a, b, c, d][1..] == [b, c, d] && [b, c, d][1..] == [c, d] && [c, d][1..] == [d];
    assert Run(ttl, w3, [d]) == Run(ttl, Step(ttl, w3, d), []);
    assert Run(ttl, w2, [c, d]) == Run(ttl, w3, [d]) && Run(ttl, w1, [b, c, d]) == Run(ttl, w2, [c, d]);
  }

  /** That exception is exact: after any hasty release the late reply makes its instance held again,
      beside another that has taken the lock, both renewed and neither being released. */
  lemma LateReplyRevives(ttl: nat, w: World, i: nat, j: nat)
    requires Inv(ttl, w) && Hasty(w, SendRelease(i, true)) && i != j && j < |w.insts|
    requires !w.insts[j].releasing && ttl > 0
    ensures var events := [SendRelease(i, true), FinishRelease(i), Acquire(j), AcquireHeard(i)];
            var w' := Run(ttl, w, events);
            && Renewed(ttl, w', i) && Active(w', i) && Renewed(ttl, w', j) && Active(w', j)
  {
    var w1 := Step(ttl, w, SendRelease(i, true));
    var w2 := Step(ttl, w1, FinishRelease(i));
    var w3 := Step(ttl, w2, Acquire(j));
    var w4 := Step(ttl, w3, AcquireHeard(i));
    assert w3.insts[j].held && w3.insts[j].renewedAt == w.now && w3.insts[i].asked > 0;
    assert w4.insts[i].held && w4.insts[j] == w3.insts[j];
    RunOfFour(ttl, w, SendRelease(i, true), FinishRelease(i), Acquire(j), AcquireHeard(i));
  }

  /** And it is reachable: an instance asks again before the first answer has come. */
  lemma HastyHappens(ttl: nat, now: int, n: nat)
    requires ttl > 0 && n > 0
    ensures var events := [AcquireSent(0), Advance(ttl), AcquireSent(0), AcquireHeard(0)];
            Hasty(Run(ttl, Start(now, n), events), SendRelease(0, true))
  {
    RunOfFour(ttl, Start(now, n), AcquireSent(0), Advance(ttl), AcquireSent(0), AcquireHeard(0));
  }

  // ------------------------------------------------------------------ timely heartbeats

  /** Every active instance has renewed within the last `hb` milliseconds. */
  ghost predicate Timely(hb: nat, w: World) {
    forall i | 0 <= i < |w.insts| && Active(w, i) :: w.now <= w.insts[i].renewedAt + hb
  }

  ghost predicate TimelyRun(ttl: nat, hb: nat, w: World, events: seq<Event>)
    decreases |events|
  {
    Timely(hb, w) && (events != [] ==> TimelyRun(ttl, hb, Step(ttl, w, events[0]), events[1..]))
  }

  /** With timely heartbeats shorter than the TTL, of two held instances one is being released; the
      one that is not owns the live key, and its next heartbeat does not lose it. */
  lemma {:induction false} TimelyMeansExclusive(ttl: nat, hb: nat, w: World, events: seq<Event>, i: nat, j: nat)
    requires hb < ttl && Inv(ttl, w) && Claims(w) && TimelyRun(ttl, hb, w, events) && NeverHasty(ttl, w, events)
    ensures var w' := Run(ttl, w, events);
            && (Held(w', i) && Held(w', j) && i != j ==> w'.insts[i].releasing || w'.insts[j].releasing)
            && (Active(w', i) ==> Owns(w'.key, w'.now, i) && Active(Step(ttl, w', Beat(i)), i))
    decreases |events|
  {
    if events == [] {
      assert Active(w, i) ==> Owns(w.key, w.now, i);
      assert Active(w, j) ==> Owns(w.key, w.now, j);
    } else {
      StepKeepsInv(ttl, w, events[0]);
      StepKeepsClaims(ttl, w, events[0]);
      TimelyMeansExclusive(ttl, hb, Step(ttl, w, events[0]), events[1..], i, j);
    }
  }

  // ------------------------------------------------------------------ what a heartbeat is worth

  /** The instance sends no release that reaches Redis. */
  predicate KeepsLock(events: seq<Event>, i: nat) {
    forall e <- events :: e.SendRelease? && e.i == i ==> !e.reaches
  }

  /** The key is the instance's for as long as `until`. */
  predicate OwnsUntil(w: World, i: nat, until: int) {
    w.now < until ==> Owns(w.key, w.now, i) && w.key.value.expiresAt >= until
  }

  lemma StepKeepsKey(ttl: nat, w: World, e: Event, i: nat, until: int)
    requires OwnsUntil(w, i, until) && until <= w.now + ttl
    requires e.SendRelease? && e.i == i ==> !e.reaches
    ensures OwnsUntil(Step(ttl, w, e), i, until) && until <= Step(ttl, w, e).now + ttl
  {
  }

  lemma {:induction false} RunKeepsKey(ttl: nat, w: World, events: seq<Event>, i: nat, until: int)
    requires OwnsUntil(w, i, until) && until <= w.now + ttl && KeepsLock(events, i)
    ensures OwnsUntil(Run(ttl, w, events), i, until)
    decreases |events|
  {
    if events != [] {
      StepKeepsKey(ttl, w, events[0], i, until);
      RunKeepsKey(ttl, Step(ttl, w, events[0]), events[1..], i, until);
    }
  }

  /** After a heartbeat with the key owned, heard or not, the key stays with the instance for a whole TTL,
      whatever happens, unless the instance itself releases it. */
  lemma BeatHoldsForTtl(ttl: nat, w: World, beat: Event, events: seq<Event>, i: nat)
    requires Held(w, i) && Owns(w.key, w.now, i) && (beat == Beat(i) || beat == BeatSent(i))
    requires KeepsLock(events, i)
    ensures var w' := Run(ttl, Step(ttl, w, beat), events);
            w'.now < w.now + ttl ==> Owns(w'.key, w'.now, i)
  {
    RunKeepsKey(ttl, Step(ttl, w, beat), events, i, w.now + ttl);
  }

  /** The same after an acquisition. */
  lemma AcquireHoldsForTtl(ttl: nat, w: World, acquire: Event, events: seq<Event>, i: nat)
    requires i < |w.insts| && !Live(w.key, w.now) && (acquire == Acquire(i) || acquire == AcquireSent(i))
    requires KeepsLock(events, i)
    ensures var w' := Run(ttl, Step(ttl, w, acquire), events);
            w'.now < w.now + ttl ==> Owns(w'.key, w'.now, i)
  {
    RunKeepsKey(ttl, Step(ttl, w, acquire), events, i, w.now + ttl);
  }

  // ------------------------------------------------------------------ giving the lock up

  /** The instance processes no reply to a SET of its own. */
  predicate AsksNoMore(events: seq<Event>, i: nat) {
    forall e <- events :: e.Acquire? || e.AcquireHeard? ==> e.i != i
  }

  lemma {:induction false} StaysLost(ttl: nat, w: World, events: seq<Event>, i: nat)
    requires !Held(w, i) && AsksNoMore(events, i)
    ensures !Held(Run(ttl, w, events), i)
    decreases |events|
  {
    if events != [] {
      StaysLost(ttl, Step(ttl, w, events[0]), events[1..], i);
    }
  }

  /** A heartbeat that finds the key gone or taken, once its reply is heard, makes the instance give the
      lock up, until a SET of its own is granted; and it does not touch the key. */
  lemma RefusalEndsTheLock(ttl: nat, w: World, events: seq<Event>, i: nat)
    requires Held(w, i) && !Owns(w.key, w.now, i) && AsksNoMore(events, i)
    ensures !Held(Run(ttl, Step(ttl, w, Beat(i)), events), i) && Step(ttl, w, Beat(i)).key == w.key
    ensures !Held(Run(ttl, Step(ttl, Step(ttl, w, BeatSent(i)), BeatHeard(i)), events), i)
  {
    StaysLost(ttl, Step(ttl, w, Beat(i)), events, i);
    StaysLost(ttl, Step(ttl, Step(ttl, w, BeatSent(i)), BeatHeard(i)), events, i);
  }

  /** A release that reaches Redis frees the lock for any other instance at once, and when its reply is
      heard the releasing instance has given the lock up, until a SET of its own is granted. */
  lemma ReleaseEndsTheLock(ttl: nat, w: World, events: seq<Event>, i: nat, j: nat)
    requires Held(w, i) && Owns(w.key, w.now, i) && AsksNoMore(events, i) && ttl > 0
    requires i != j && j < |w.insts|
    ensures var w1 := Step(ttl, w, SendRelease(i, true));
            && Held(w1, i) && !Active(w1, i)
            && Owns(Step(ttl, w1, Acquire(j)).key, w.now, j) && Held(Step(ttl, w1, Acquire(j)), j)
            && !Held(Run(ttl, Step(ttl, w1, FinishRelease(i)), events), i)
  {
    var w1 := Step(ttl, w, SendRelease(i, true));
    StaysLost(ttl, Step(ttl, w1, FinishRelease(i)), events, i);
  }

  // ------------------------------------------------------------------ timing by events alone

  /** The event is a sign of life of its instance: a heartbeat of an active one, or a SET on a dead key. */
  predicate SignOfLife(w: World, e: Event) {
    || ((e.Beat? || e.BeatSent?) && Active(w, e.i))
    || ((e.Acquire? || e.AcquireSent?) && e.i < |w.insts| && !Live(w.key, w.now))
  }

  /** When each instance gave its last sign of life. */
  function Signs(w: World, signs: seq<int>, e: Event): (signs': seq<int>)
    requires |signs| == |w.insts|
    ensures |signs'| == |signs|
  {
    if SignOfLife(w, e) then signs[e.i := w.now] else signs
  }

  lemma StepKeepsCount(ttl: nat, w: World, e: Event)
    ensures |Step(ttl, w, e).insts| == |w.insts|
  {
  }

  /** At every moment each active instance has given a sign of life within the last `hb` milliseconds. */
  ghost predicate BeatsInTime(ttl: nat, hb: nat, w: World, signs: seq<int>, events: seq<Event>)
    requires |signs| == |w.insts|
    decreases |events|
  {
    StepKeepsCount(ttl, w, if events == [] then Advance(0) else events[0]);
    && (forall i | 0 <= i < |w.insts| && Active(w, i) :: w.now <= signs[i] + hb)
    && (events != [] ==>
          BeatsInTime(ttl, hb, Step(ttl, w, events[0]), Signs(w, signs, events[0]), events[1..]))
  }

  /** A sign of life is a renewal. */
  ghost predicate SignsRenew(w: World, signs: seq<int>)
    requires |signs| == |w.insts|
  {
    forall i | 0 <= i < |w.insts| :: signs[i] <= w.insts[i].renewedAt
  }

  lemma StepRenews(ttl: nat, hb: nat, w: World, signs: seq<int>, e: Event)
    requires hb < ttl && Inv(ttl, w) && Claims(w) && |signs| == |w.insts| && SignsRenew(w, signs)
    requires forall i | 0 <= i < |w.insts| && Active(w, i) :: w.now <= signs[i] + hb
    ensures |Step(ttl, w, e).insts| == |w.insts| && SignsRenew(Step(ttl, w, e), Signs(w, signs, e))
  {
    if SignOfLife(w, e) {
      assert Agrees(ttl, w.now, w.key, e.i, w.insts[e.i]);
    }
  }

  lemma {:induction false} BeatsMakeTimely(ttl: nat, hb: nat, w: World, signs: seq<int>, events: seq<Event>)
    requires hb < ttl && Inv(ttl, w) && Claims(w) && NeverHasty(ttl, w, events)
    requires |signs| == |w.insts| && SignsRenew(w, signs) && BeatsInTime(ttl, hb, w, signs, events)
    ensures TimelyRun(ttl, hb, w, events)
    decreases |events|
  {
    if events != [] {
      StepKeepsInv(ttl, w, events[0]);
      StepKeepsClaims(ttl, w, events[0]);
      StepRenews(ttl, hb, w, signs, events[0]);
      BeatsMakeTimely(ttl, hb, Step(ttl, w, events[0]), Signs(w, signs, events[0]), events[1..]);
    }
  }

  /** With the timing on the events alone: if from the start every active instance sends a heartbeat, or
      has acquired, within every `hb` milliseconds, and `hb` is less than the TTL, then of two held
      instances one is being released, and the one that is not owns the live key. */
  lemma BeatsMeanExclusive(ttl: nat, hb: nat, now: int, n: nat, events: seq<Event>, i: nat, j: nat)
    requires hb < ttl && NeverHasty(ttl, Start(now, n), events)
    requires BeatsInTime(ttl, hb, Start(now, n), seq(n, _ => now), events)
    ensures var w := Run(ttl, Start(now, n), events);
            && (Held(w, i) && Held(w, j) && i != j ==> w.insts[i].releasing || w.insts[j].releasing)
            && (Active(w, i) ==> Owns(w.key, w.now, i) && Active(Step(ttl, w, Beat(i)), i))
  {
    BeatsMakeTimely(ttl, hb, Start(now, n), seq(n, _ => now), events);
    TimelyMeansExclusive(ttl, hb, Start(now, n), events, i, j);
  }

  /** The release is a real exception: the key is deleted before the holder stops being held, so for
      that moment two instances are held, both just renewed, in a timely run. */
  lemma ReleaseOverlaps(ttl: nat, hb: nat, now: int)
    requires ttl > 0
    ensures var events := [Acquire(0), SendRelease(0, true), Acquire(1)];
            var w := Run(ttl, Start(now, 2), events);
            && TimelyRun(ttl, hb, Start(now, 2), events)
            && Renewed(ttl, w, 0) && Renewed(ttl, w, 1) && w.insts[0].releasing && !w.insts[1].releasing
  {
    var w0 := Start(now, 2);
    var w1 := Step(ttl, w0, Acquire(0));
    var w2 := Step(ttl, w1, SendRelease(0, true));
    var w3 := Step(ttl, w2, Acquire(1));
    var e2: seq<Event> := [Acquire(1)];
    var e1 := [SendRelease(0, true), Acquire(1)];
    var e0 := [Acquire(0), SendRelease(0, true), Acquire(1)];
    assert e0[1..] == e1 && e1[1..] == e2 && e2[1..] == [];
    assert Run(ttl, w3, []) == w3 && Run(ttl, w2, e2) == w3 && Run(ttl, w1, e1) == w3;
    assert TimelyRun(ttl, hb, w3, []) && TimelyRun(ttl, hb, w2, e2) && TimelyRun(ttl, hb, w1, e1);
  }

  /** The bound is exact: with a heartbeat as long as the TTL or longer, a timely run exists in
      which two instances are active at once. */
  lemma SlowHeartbeatAllowsTwo(ttl: nat, hb: nat, now: int)
    requires hb >= ttl
    ensures var events := [Acquire(0), Advance(ttl), Acquire(1)];
            var w := Run(ttl, Start(now, 2), events);
            TimelyRun(ttl, hb, Start(now, 2), events) && Active(w, 0) && Active(w, 1)
  {
    var w0 := Start(now, 2);
    var w1 := Step(ttl, w0, Acquire(0));
    var w2 := Step(ttl, w1, Advance(ttl));
    var w3 := Step(ttl, w2, Acquire(1));
    var e2: seq<Event> := [Acquire(1)];
    var e1 := [Advance(ttl), Acquire(1)];
    var e0 := [Acquire(0), Advance(ttl), Acquire(1)];
    assert e0[1..] == e1 && e1[1..] == e2 && e2[1..] == [];
    assert Run(ttl, w3, []) == w3 && Run(ttl, w2, e2) == w3 && Run(ttl, w1, e1) == w3;
    assert TimelyRun(ttl, hb, w3, []) && TimelyRun(ttl, hb, w2, e2) && TimelyRun(ttl, hb, w1, e1);
  }

  // ------------------------------------------------------------------ other owners, recovery

  /** No event of instance `i` other than a successful acquisition of a dead key, and no passing
      of time, changes a key that carries another token. */
  lemma ForeignKeyUntouched(ttl: nat, w: World, e: Event, owner: nat)
    requires Owns(w.key, w.now, owner)
    requires e.Advance? || e.i != owner
    ensures Step(ttl, w, e).key == w.key
    ensures owner < |w.insts| ==> owner < |Step(ttl, w, e).insts| && Step(ttl, w, e).insts[owner] == w.insts[owner]
  {
  }

  /** Refresh and release leave even a dead key of another token alone. */
  lemma RefreshAndReleaseOwnOnly(ttl: nat, w: World, e: Event)
    requires w.key.Some? && !e.Advance? && !e.Acquire? && !e.AcquireSent? && e.i != w.key.value.token
    ensures Step(ttl, w, e).key == w.key
  {
  }

  /** Whatever happened before, once a TTL passes with no renewal any instance can take over. */
  lemma TakeoverAfterTtl(ttl: nat, now: int, n: nat, events: seq<Event>, i: nat)
    requires i < n && 0 < ttl
    ensures var w := Run(ttl, Start(now, n), events);
            var w' := Step(ttl, Step(ttl, w, Advance(ttl)), Acquire(i));
            |w'.insts| == n && w'.insts[i].held && Owns(w'.key, w'.now, i)
  {
    RunKeepsInv(ttl, Start(now, n), events);
    InstancesKept(ttl, Start(now, n), events);
    var w := Run(ttl, Start(now, n), events);
    assert w.key.Some? ==> Agrees(ttl, w.now, w.key, w.key.value.token, w.insts[w.key.value.token]);
    assert !Live(w.key, w.now + ttl);
  }

  lemma {:induction false} InstancesKept(ttl: nat, w: World, events: seq<Event>)
    ensures |Run(ttl, w, events).insts| == |w.insts|
    decreases |events|
  {
    if events != [] {
      InstancesKept(ttl, Step(ttl, w, events[0]), events[1..]);
    }
  }
}
