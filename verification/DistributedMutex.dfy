/** The token-and-expiry mutex: several mutex objects share a Redis table, and each has a table of its
    own to fall back on. Acquiring calls retry, and every command, reply, attempt and release is one
    step between which anything else may happen. */
module DistributedMutex {

  /** `redis`: a client is configured; `fallback`: locking in memory is allowed. */
  datatype Config = Config(redis: bool, fallback: bool, lockTimeoutMs: int, retryCount: int)

  datatype Lease = Lease(token: nat, expiresAt: int)

  /** The table in Redis that all objects share, and the one in memory of a single object. */
  datatype Place = Shared | Own

  datatype Tables = Tables(shared: map<nat, Lease>, own: map<nat, Lease>)
  {
    function At(place: Place): map<nat, Lease> {
      if place.Shared? then shared else own
    }

    function With(place: Place, locks: map<nat, Lease>): Tables {
      if place.Shared? then Tables(locks, own) else Tables(shared, locks)
    }
  }

  /** What Redis made of a SET, `Nothing` if it never got there. */
  datatype Reply = Granted(expiresAt: int) | Refused | Nothing

  /** A handle is `released` once its holder called release, `freed` if that removed its lease. */
  datatype Status =
    | Trying(attempt: nat)
    | Waiting(attempt: nat, reply: Reply)
    | Held(place: Place, expiresAt: int, contended: nat, released: bool, freed: bool)
    | GaveUp

  datatype Call = Call(owner: nat, resource: nat, status: Status)
  {
    predicate Done() {
      status.Held? || status.GaveUp?
    }
  }

  datatype Metrics = Metrics(acquisitions: nat, failures: nat, contentions: nat, releases: nat)

  const ZERO := Metrics(0, 0, 0, 0)

  /** A release in Redis is executed and answered, executed with its answer lost, or never executed. */
  datatype Delivery = Heard | Unheard | Undelivered

  // ------------------------------------------------------------------ the atomic steps

  predicate Free(locks: map<nat, Lease>, resource: nat, now: int) {
    resource !in locks || locks[resource].expiresAt <= now
  }

  /** An attempt that got no lease. */
  function NextTry(cfg: Config, call: Call, attempt: nat): Call {
    call.(status := if attempt < cfg.retryCount then Trying(attempt + 1) else GaveUp)
  }

  function Obtained(call: Call, place: Place, expiresAt: int, attempt: nat): Call {
    call.(status := Held(place, expiresAt, attempt, false, false))
  }

  /** tryAcquireLocal, where it is allowed. */
  function LocalAttempt(cfg: Config, t: Tables, call: Call, token: nat, now: int, attempt: nat): (Tables, Call) {
    if cfg.fallback && Free(t.own, call.resource, now) then
      (t.With(Own, t.own[call.resource := Lease(token, now + cfg.lockTimeoutMs)]),
       Obtained(call, Own, now + cfg.lockTimeoutMs, attempt))
    else (t, NextTry(cfg, call, attempt))
  }

  /** The first half of an attempt: the SET, or without Redis the local table at once. */
  function Sent(cfg: Config, t: Tables, call: Call, token: nat, now: int, arrives: bool): (Tables, Call)
    requires call.status.Trying?
  {
    var attempt, expiresAt := call.status.attempt, now + cfg.lockTimeoutMs;
    if !cfg.redis then LocalAttempt(cfg, t, call, token, now, attempt)
    else if !arrives then (t, call.(status := Waiting(attempt, Nothing)))
    else if !Free(t.shared, call.resource, now) then (t, call.(status := Waiting(attempt, Refused)))
    else
      (t.With(Shared, t.shared[call.resource := Lease(token, expiresAt)]),
       call.(status := Waiting(attempt, Granted(expiresAt))))
  }

  /** The second half: the reply is there, or the command has failed. */
  function Answered(cfg: Config, t: Tables, call: Call, token: nat, now: int, heard: bool): (Tables, Call)
    requires call.status.Waiting?
  {
    var attempt, reply := call.status.attempt, call.status.reply;
    if !heard || reply.Nothing? then LocalAttempt(cfg, t, call, token, now, attempt)
    else if reply.Refused? then (t, NextTry(cfg, call, attempt))
    else (t, Obtained(call, Shared, reply.expiresAt, attempt))
  }

  /** What an attempt that ends as `after` adds to the counters. */
  function MetricsAfterAttempt(m: Metrics, after: Call): Metrics {
    if after.status.Waiting? then m
    else if after.status.Held? then m.(acquisitions := m.acquisitions + 1)
    else m.(contentions := m.contentions + 1, failures := m.failures + if after.status.GaveUp? then 1 else 0)
  }

  /** The table still carries the token; an expired Redis key is gone, a local entry is not. */
  predicate Carries(t: Tables, place: Place, resource: nat, token: nat, now: int) {
    && resource in t.At(place) && t.At(place)[resource].token == token
    && (place.Shared? ==> now < t.shared[resource].expiresAt)
  }

  predicate Frees(t: Tables, call: Call, token: nat, now: int, d: Delivery)
    requires call.status.Held?
  {
    Carries(t, call.status.place, call.resource, token, now) && (call.status.place.Shared? ==> !d.Undelivered?)
  }

  function Released(t: Tables, call: Call, token: nat, now: int, d: Delivery): (Tables, Call)
    requires call.status.Held?
  {
    var place, frees := call.status.place, Frees(t, call, token, now, d);
    (if frees then t.With(place, t.At(place) - {call.resource}) else t,
     call.(status := call.status.(released := true, freed := call.status.freed || frees)))
  }

  /** The Redis form counts every release that is answered, the local one only its own. */
  function MetricsAfterRelease(m: Metrics, t: Tables, call: Call, token: nat, now: int, d: Delivery): Metrics
    requires call.status.Held?
  {
    if (if call.status.place.Shared? then d.Heard? else Frees(t, call, token, now, d)) then
      m.(releases := m.releases + 1)
    else m
  }

  function Begun(cfg: Config, owner: nat, resource: nat): Call {
    Call(owner, resource, if 0 <= cfg.retryCount then Trying(0) else GaveUp)
  }

  function MetricsAfterBegin(cfg: Config, m: Metrics): Metrics {
    if 0 <= cfg.retryCount then m else m.(failures := m.failures + 1)
  }

  class RedisTable {
    var locks: map<nat, Lease>

    constructor ()
      ensures locks == map[]
    {
      locks := map[];
    }
  }

  /** One mutex object. The loop of `acquire` awaits Redis and sleeps between attempts, so it is cut
      there: the call carries the attempt number and the reply to come. */
  class Mutex {
    const cfg: Config
    const redis: RedisTable
    var localLocks: map<nat, Lease>
    var acquisitions: nat
    var failures: nat
    var contentions: nat
    var releases: nat

    ghost function Counters(): Metrics
      reads this
    {
      Metrics(acquisitions, failures, contentions, releases)
    }

    ghost function Locks(): Tables
      reads this, redis
    {
      Tables(redis.locks, localLocks)
    }

    constructor (cfg: Config, redis: RedisTable)
      ensures this.cfg == cfg && this.redis == redis && localLocks == map[] && Counters() == ZERO
    {
      this.cfg, this.redis, localLocks := cfg, redis, map[];
      acquisitions, failures, contentions, releases := 0, 0, 0, 0;
    }

    method Begin(owner: nat, resource: nat) returns (call: Call)
      modifies this`failures
      ensures call == Begun(cfg, owner, resource)
      ensures Counters() == MetricsAfterBegin(cfg, old(Counters()))
    {
      if 0 <= cfg.retryCount {
        return Call(owner, resource, Trying(0));
      }
      failures := failures + 1;
      return Call(owner, resource, GaveUp);
    }

    method TryAcquireLocal(resource: nat, token: nat, now: int) returns (ok: bool)
      modifies this`localLocks
      ensures ok == (resource !in old(localLocks) || old(localLocks)[resource].expiresAt <= now)
      ensures localLocks == if ok then old(localLocks)[resource := Lease(token, now + cfg.lockTimeoutMs)]
                            else old(localLocks)
    {
      if resource in localLocks && localLocks[resource].expiresAt <= now {
        localLocks := localLocks - {resource};
      } else if resource in localLocks {
        return false;
      }
      localLocks := localLocks[resource := Lease(token, now + cfg.lockTimeoutMs)];
      return true;
    }

    /** The end of an attempt without a lease. */
    method Contend(call: Call, attempt: nat) returns (after: Call)
      modifies this`contentions, this`failures
      ensures after == NextTry(cfg, call, attempt)
      ensures Counters() == MetricsAfterAttempt(old(Counters()), after)
    {
      contentions := contentions + 1;
      if attempt < cfg.retryCount {
        return call.(status := Trying(attempt + 1));
      }
      failures := failures + 1;
      return call.(status := GaveUp);
    }

    method FallBack(call: Call, token: nat, now: int, attempt: nat) returns (after: Call)
      modifies this
      ensures (Locks(), after) == LocalAttempt(cfg, old(Locks()), call, token, now, attempt)
      ensures Counters() == MetricsAfterAttempt(old(Counters()), after)
    {
      if cfg.fallback {
        var ok := TryAcquireLocal(call.resource, token, now);
        if ok {
          acquisitions := acquisitions + 1;
          return call.(status := Held(Own, now + cfg.lockTimeoutMs, attempt, false, false));
        }
      }
      after := Contend(call, attempt);
    }

    /** An attempt up to the reply to its SET, or all of it where there is no Redis. */
    method Send(call: Call, token: nat, now: int, arrives: bool) returns (after: Call)
      requires call.status.Trying?
      modifies this, redis
      ensures (Locks(), after) == Sent(cfg, old(Locks()), call, token, now, arrives)
      ensures cfg.redis && arrives ==>
                var free := call.resource !in old(redis.locks) || old(redis.locks)[call.resource].expiresAt <= now;
                after.status.Waiting? && after.status.reply ==
                                         if free then Granted(now + cfg.lockTimeoutMs) else Refused
      ensures Counters() == MetricsAfterAttempt(old(Counters()), after)
    {
      var attempt := call.status.attempt;
      if !cfg.redis {
        after := FallBack(call, token, now, attempt);
        return;
      }
      if !arrives {
        return call.(status := Waiting(attempt, Nothing));
      }
      if call.resource in redis.locks && now < redis.locks[call.resource].expiresAt {
        return call.(status := Waiting(attempt, Refused));
      }
      redis.locks := redis.locks[call.resource := Lease(token, now + cfg.lockTimeoutMs)];
      return call.(status := Waiting(attempt, Granted(now + cfg.lockTimeoutMs)));
    }

    /** The rest of it, once the command is answered or has failed. */
    method Hear(call: Call, token: nat, now: int, heard: bool) returns (after: Call)
      requires call.status.Waiting?
      modifies this
      ensures (Locks(), after) == Answered(cfg, old(Locks()), call, token, now, heard)
      ensures Counters() == MetricsAfterAttempt(old(Counters()), after)
    {
      var attempt := call.status.attempt;
      if heard && call.status.reply.Granted? {
        acquisitions := acquisitions + 1;
        return call.(status := Held(Shared, call.status.reply.expiresAt, attempt, false, false));
      }
      if heard && call.status.reply.Refused? {
        after := Contend(call, attempt);
        return;
      }
      after := FallBack(call, token, now, attempt);
    }

    method ReleaseLocal(resource: nat, token: nat) returns (freed: bool)
      modifies this`localLocks, this`releases
      ensures freed == (resource in old(localLocks) && old(localLocks)[resource].token == token)
      ensures localLocks == if freed then old(localLocks) - {resource} else old(localLocks)
      ensures releases == old(releases) + if freed then 1 else 0
    {
      if resource in localLocks && localLocks[resource].token == token {
        localLocks := localLocks - {resource};
        releases := releases + 1;
        return true;
      }
      return false;
    }

    method Release(call: Call, token: nat, now: int, d: Delivery) returns (after: Call)
      requires call.status.Held?
      modifies this, redis
      ensures (Locks(), after) == Released(old(Locks()), call, token, now, d)
      ensures call.status.place.Shared? ==>
                (redis.locks != old(redis.locks) <==>
                   && !d.Undelivered? && call.resource in old(redis.locks)
                   && old(redis.locks)[call.resource].token == token && now < old(redis.locks)[call.resource].expiresAt)
      ensures Counters() == MetricsAfterRelease(old(Counters()), old(Locks()), call, token, now, d)
    {
      var freed := false;
      if call.status.place.Own? {
        freed := ReleaseLocal(call.resource, token);
      } else if !d.Undelivered? {
        freed := call.resource in redis.locks && redis.locks[call.resource].token == token
                 && now < redis.locks[call.resource].expiresAt;
        if freed {
          redis.locks := redis.locks - {call.resource};
        }
        if d.Heard? {
          releases := releases + 1;
        }
      }
      after := call.(status := call.status.(released := true, freed := call.status.freed || freed));
    }
  }

  // ------------------------------------------------------------------ runs

  /** A call's token is its position: tokens are fresh. */
  datatype World = World(
    now: int, shared: map<nat, Lease>, owns: map<nat, map<nat, Lease>>, calls: seq<Call>, metrics: map<nat, Metrics>)

  datatype Event =
    | Acquires(owner: nat, resource: nat)
    | Sends(c: nat, arrives: bool)
    | Hears(c: nat, heard: bool)
    | Releases(c: nat, d: Delivery)
    | Waits(ms: nat)

  const EMPTY := World(0, map[], map[], [], map[])

  function MetricsOf(w: World, owner: nat): Metrics {
    if owner in w.metrics then w.metrics[owner] else ZERO
  }

  function TablesOf(w: World, owner: nat): Tables {
    Tables(w.shared, if owner in w.owns then w.owns[owner] else map[])
  }

  /** Call `c` becomes `after`, with the tables and counters of its owner. */
  function Change(w: World, c: nat, t: Tables, after: Call, m: Metrics): World
    requires c < |w.calls|
  {
    var owner := w.calls[c].owner;
    w.(shared := t.shared, owns := w.owns[owner := t.own], calls := w.calls[c := after],
       metrics := w.metrics[owner := m])
  }

  function Step(cfg: Config, w: World, e: Event): World {
    match e
    case Acquires(owner, resource) =>
      w.(calls := w.calls + [Begun(cfg, owner, resource)],
         metrics := w.metrics[owner := MetricsAfterBegin(cfg, MetricsOf(w, owner))])
    case Sends(c, arrives) =>
      if c < |w.calls| && w.calls[c].status.Trying? then
        var (t, after) := Sent(cfg, TablesOf(w, w.calls[c].owner), w.calls[c], c, w.now, arrives);
        Change(w, c, t, after, MetricsAfterAttempt(MetricsOf(w, w.calls[c].owner), after))
      else w
    case Hears(c, heard) =>
      if c < |w.calls| && w.calls[c].status.Waiting? then
        var (t, after) := Answered(cfg, TablesOf(w, w.calls[c].owner), w.calls[c], c, w.now, heard);
        Change(w, c, t, after, MetricsAfterAttempt(MetricsOf(w, w.calls[c].owner), after))
      else w
    case Releases(c, d) =>
      if c < |w.calls| && w.calls[c].status.Held? then
        var t := TablesOf(w, w.calls[c].owner);
        var (t', after) := Released(t, w.calls[c], c, w.now, d);
        Change(w, c, t', after, MetricsAfterRelease(MetricsOf(w, w.calls[c].owner), t, w.calls[c], c, w.now, d))
      else w
    case Waits(ms) => w.(now := w.now + ms)
  }

  function RunAll(cfg: Config, w: World, es: seq<Event>): World
    decreases |es|
  {
    if es == [] then w else RunAll(cfg, Step(cfg, w, es[0]), es[1..])
  }

  // ------------------------------------------------------------------ exclusion

  /** Handle `c` is neither released nor expired. */
  predicate Active(w: World, c: nat) {
    c < |w.calls| && w.calls[c].status.Held? && !w.calls[c].status.released && w.now < w.calls[c].status.expiresAt
  }

  /** A lease that is in the table with this token and expiry. */
  predicate Leased(locks: map<nat, Lease>, resource: nat, token: nat, expiresAt: int) {
    resource in locks && locks[resource] == Lease(token, expiresAt)
  }

  /** What the tables hold of one call: the lease of an active handle, and that of a granted SET whose
      reply is still to come. */
  predicate CallAgrees(cfg: Config, t: Tables, call: Call, c: nat, now: int) {
    match call.status
    case Trying(attempt) => attempt <= cfg.retryCount
    case Waiting(attempt, reply) =>
      && attempt <= cfg.retryCount && cfg.redis
      && (reply.Granted? ==>
            && reply.expiresAt <= now + cfg.lockTimeoutMs
            && (now < reply.expiresAt ==> Leased(t.shared, call.resource, c, reply.expiresAt)))
    case Held(place, expiresAt, _, released, _) =>
      && 0 <= cfg.retryCount && expiresAt <= now + cfg.lockTimeoutMs
      && (if place.Shared? then cfg.redis else cfg.fallback)
      && (!released && now < expiresAt ==> Leased(t.At(place), call.resource, c, expiresAt))
    case GaveUp => true
  }

  /** A lease with the token of this call: of its handle, of its granted SET, or of one whose reply was
      lost. A lease in memory always belongs to a handle. */
  predicate LeaseAgrees(call: Call, place: Place, resource: nat, lease: Lease) {
    && call.resource == resource
    && (place.Own? ==> call.status.Held? && call.status.place.Own?)
    && match call.status
       case Held(p, expiresAt, _, _, freed) => p == place ==> expiresAt == lease.expiresAt && !freed
       case Waiting(_, reply) => reply.Granted? ==> reply.expiresAt == lease.expiresAt
       case _ => true
  }

  ghost predicate LeasesAgree(calls: seq<Call>, locks: map<nat, Lease>, place: Place) {
    forall r | r in locks ::
      locks[r].token < |calls| && LeaseAgrees(calls[locks[r].token], place, r, locks[r])
  }

  ghost predicate OwnedBy(calls: seq<Call>, locks: map<nat, Lease>, owner: nat) {
    forall r | r in locks :: locks[r].token < |calls| && calls[locks[r].token].owner == owner
  }

  ghost predicate Inv(cfg: Config, w: World) {
    && (forall c | 0 <= c < |w.calls| :: CallAgrees(cfg, TablesOf(w, w.calls[c].owner), w.calls[c], c, w.now))
    && LeasesAgree(w.calls, w.shared, Shared)
    && (forall o | o in w.owns :: LeasesAgree(w.calls, w.owns[o], Own) && OwnedBy(w.calls, w.owns[o], o))
  }

  /** The same for one call alone. */
  ghost predicate Agrees(cfg: Config, t: Tables, call: Call, c: nat, now: int) {
    && CallAgrees(cfg, t, call, c, now)
    && (forall p: Place, r | r in t.At(p) && t.At(p)[r].token == c :: LeaseAgrees(call, p, r, t.At(p)[r]))
  }

  /** A table changes for one resource at most: a free place is taken, or an own lease is removed. */
  ghost predicate Touches(locks: map<nat, Lease>, locks': map<nat, Lease>, resource: nat, c: nat, now: int) {
    || locks' == locks
    || (Free(locks, resource, now) && resource in locks' && locks'[resource].token == c
        && locks' == locks[resource := locks'[resource]])
    || (resource in locks && locks[resource].token == c && locks' == locks - {resource})
  }

  /** One step of call `c`: the call agrees with its tables, and the rest of them is as it was. */
  ghost predicate Moves(cfg: Config, t: Tables, call: Call, t': Tables, call': Call, c: nat, now: int) {
    && Agrees(cfg, t', call', c, now)
    && call'.owner == call.owner && call'.resource == call.resource
    && Touches(t.shared, t'.shared, call.resource, c, now) && Touches(t.own, t'.own, call.resource, c, now)
  }

  lemma LocalMoves(cfg: Config, t: Tables, call: Call, c: nat, now: int, attempt: nat, t': Tables, call': Call)
    requires Agrees(cfg, t, call, c, now) && !call.status.Held? && attempt <= cfg.retryCount
    requires (t', call') == LocalAttempt(cfg, t, call, c, now, attempt)
    ensures Moves(cfg, t, call, t', call', c, now)
  {
    forall p: Place, r | r in t'.At(p) && t'.At(p)[r].token == c ensures LeaseAgrees(call', p, r, t'.At(p)[r]) {
      assert r in t.At(p) && t.At(p)[r].token == c ==> LeaseAgrees(call, p, r, t.At(p)[r]);
    }
  }

  lemma SendMoves(cfg: Config, t: Tables, call: Call, c: nat, now: int, arrives: bool, t': Tables, call': Call)
    requires Agrees(cfg, t, call, c, now) && call.status.Trying?
    requires (t', call') == Sent(cfg, t, call, c, now, arrives)
    ensures Moves(cfg, t, call, t', call', c, now)
  {
    if !cfg.redis {
      LocalMoves(cfg, t, call, c, now, call.status.attempt, t', call');
    } else {
      forall p: Place, r | r in t'.At(p) && t'.At(p)[r].token == c ensures LeaseAgrees(call', p, r, t'.At(p)[r]) {
        assert r in t.At(p) && t.At(p)[r].token == c ==> LeaseAgrees(call, p, r, t.At(p)[r]);
      }
    }
  }

  lemma HearMoves(cfg: Config, t: Tables, call: Call, c: nat, now: int, heard: bool, t': Tables, call': Call)
    requires Agrees(cfg, t, call, c, now) && call.status.Waiting?
    requires (t', call') == Answered(cfg, t, call, c, now, heard)
    ensures Moves(cfg, t, call, t', call', c, now)
  {
    if !heard || call.status.reply.Nothing? {
      LocalMoves(cfg, t, call, c, now, call.status.attempt, t', call');
    } else {
      forall p: Place, r | r in t'.At(p) && t'.At(p)[r].token == c ensures LeaseAgrees(call', p, r, t'.At(p)[r]) {
        assert LeaseAgrees(call, p, r, t.At(p)[r]);
      }
    }
  }

  lemma ReleaseMoves(cfg: Config, t: Tables, call: Call, c: nat, now: int, d: Delivery, t': Tables, call': Call)
    requires Agrees(cfg, t, call, c, now) && call.status.Held?
    requires (t', call') == Released(t, call, c, now, d)
    ensures Moves(cfg, t, call, t', call', c, now)
  {
    forall p: Place, r | r in t'.At(p) && t'.At(p)[r].token == c ensures LeaseAgrees(call', p, r, t'.At(p)[r]) {
      assert LeaseAgrees(call, p, r, t.At(p)[r]);
    }
  }

  lemma InvAgrees(cfg: Config, w: World, c: nat)
    requires Inv(cfg, w) && c < |w.calls|
    ensures Agrees(cfg, TablesOf(w, w.calls[c].owner), w.calls[c], c, w.now)
  {
    var owner := w.calls[c].owner;
    var t := TablesOf(w, owner);
    forall p: Place, r | r in t.At(p) && t.At(p)[r].token == c ensures LeaseAgrees(w.calls[c], p, r, t.At(p)[r]) {
      assert p.Own? ==> owner in w.owns && LeasesAgree(w.calls, w.owns[owner], Own);
    }
  }

  lemma LeaseStays(locks: map<nat, Lease>, locks': map<nat, Lease>, resource: nat, c: nat, now: int, r: nat,
                   other: nat, expiresAt: int)
    requires Touches(locks, locks', resource, c, now) && other != c && now < expiresAt
    requires Leased(locks, r, other, expiresAt)
    ensures Leased(locks', r, other, expiresAt)
  {
  }

  lemma OthersAgree(cfg: Config, w: World, c: nat, t': Tables, call': Call, i: nat)
    requires Inv(cfg, w) && c < |w.calls| && i < |w.calls| && i != c
    requires Moves(cfg, TablesOf(w, w.calls[c].owner), w.calls[c], t', call', c, w.now)
    ensures var t := if w.calls[i].owner == w.calls[c].owner then t'
                     else Tables(t'.shared, TablesOf(w, w.calls[i].owner).own);
            CallAgrees(cfg, t, w.calls[i], i, w.now)
  {
    var t, r := TablesOf(w, w.calls[c].owner), w.calls[c].resource;
    assert CallAgrees(cfg, TablesOf(w, w.calls[i].owner), w.calls[i], i, w.now);
    match w.calls[i].status
    case Waiting(_, reply) =>
      if reply.Granted? && w.now < reply.expiresAt {
        LeaseStays(t.shared, t'.shared, r, c, w.now, w.calls[i].resource, i, reply.expiresAt);
      }
    case Held(place, expiresAt, _, released, _) =>
      if !released && w.now < expiresAt && (place.Shared? || w.calls[i].owner == w.calls[c].owner) {
        LeaseStays(t.At(place), t'.At(place), r, c, w.now, w.calls[i].resource, i, expiresAt);
      }
    case _ =>
  }

  lemma TableAgrees(calls: seq<Call>, c: nat, call': Call, locks: map<nat, Lease>, locks': map<nat, Lease>,
                    place: Place, now: int)
    requires c < |calls| && LeasesAgree(calls, locks, place)
    requires Touches(locks, locks', calls[c].resource, c, now)
    requires forall r | r in locks' && locks'[r].token == c :: LeaseAgrees(call', place, r, locks'[r])
    ensures LeasesAgree(calls[c := call'], locks', place)
  {
    forall r | r in locks'
      ensures locks'[r].token < |calls| && LeaseAgrees(calls[c := call'][locks'[r].token], place, r, locks'[r])
    {
      assert locks'[r].token != c ==> r in locks && locks'[r] == locks[r];
    }
  }

  lemma ChangeKeeps(cfg: Config, w: World, c: nat, t': Tables, call': Call, m: Metrics)
    requires Inv(cfg, w) && c < |w.calls|
    requires Moves(cfg, TablesOf(w, w.calls[c].owner), w.calls[c], t', call', c, w.now)
    ensures Inv(cfg, Change(w, c, t', call', m))
  {
    var owner, w' := w.calls[c].owner, Change(w, c, t', call', m);
    forall i | 0 <= i < |w'.calls|
      ensures CallAgrees(cfg, TablesOf(w', w'.calls[i].owner), w'.calls[i], i, w'.now)
    {
      if i != c {
        OthersAgree(cfg, w, c, t', call', i);
      }
    }
    assert forall r | r in t'.shared && t'.At(Shared)[r].token == c :: LeaseAgrees(call', Shared, r, t'.At(Shared)[r]);
    TableAgrees(w.calls, c, call', w.shared, t'.shared, Shared, w.now);
    forall o | o in w'.owns ensures LeasesAgree(w'.calls, w'.owns[o], Own) && OwnedBy(w'.calls, w'.owns[o], o) {
      OwnTableAgrees(cfg, w, c, t', call', o);
    }
  }

  lemma TableOwned(calls: seq<Call>, c: nat, call': Call, locks: map<nat, Lease>, locks': map<nat, Lease>,
                   resource: nat, o: nat, now: int)
    requires c < |calls| && OwnedBy(calls, locks, o) && calls[c].owner == call'.owner == o
    requires Touches(locks, locks', resource, c, now)
    ensures OwnedBy(calls[c := call'], locks', o)
  {
    forall r | r in locks' ensures locks'[r].token < |calls| && calls[c := call'][locks'[r].token].owner == o {
      assert locks'[r].token != c ==> r in locks && locks'[r] == locks[r];
    }
  }

  lemma OwnTableAgrees(cfg: Config, w: World, c: nat, t': Tables, call': Call, o: nat)
    requires Inv(cfg, w) && c < |w.calls|
    requires Moves(cfg, TablesOf(w, w.calls[c].owner), w.calls[c], t', call', c, w.now)
    requires o == w.calls[c].owner || o in w.owns
    ensures var locks := if o == w.calls[c].owner then t'.own else w.owns[o];
            LeasesAgree(w.calls[c := call'], locks, Own) && OwnedBy(w.calls[c := call'], locks, o)
  {
    if o == w.calls[c].owner {
      var own := TablesOf(w, o).own;
      assert LeasesAgree(w.calls, own, Own) && OwnedBy(w.calls, own, o);
      assert forall r | r in t'.own && t'.At(Own)[r].token == c :: LeaseAgrees(call', Own, r, t'.At(Own)[r]);
      TableAgrees(w.calls, c, call', own, t'.own, Own, w.now);
      TableOwned(w.calls, c, call', own, t'.own, w.calls[c].resource, o, w.now);
    } else {
      OtherTableAgrees(w.calls, c, call', w.owns[o], o);
    }
  }

  lemma OtherTableAgrees(calls: seq<Call>, c: nat, call': Call, locks: map<nat, Lease>, o: nat)
    requires c < |calls| && calls[c].owner != o && LeasesAgree(calls, locks, Own) && OwnedBy(calls, locks, o)
    ensures LeasesAgree(calls[c := call'], locks, Own) && OwnedBy(calls[c := call'], locks, o)
  {
    assert forall r | r in locks :: locks[r].token != c;
  }

  lemma StepKeeps(cfg: Config, w: World, e: Event)
    requires Inv(cfg, w)
    ensures Inv(cfg, Step(cfg, w, e))
  {
    match e
    case Acquires(owner, resource) => AcquireKeeps(cfg, w, owner, resource);
    case Sends(c, arrives) =>
      if c < |w.calls| && w.calls[c].status.Trying? {
        InvAgrees(cfg, w, c);
        var t := TablesOf(w, w.calls[c].owner);
        var (t', after) := Sent(cfg, t, w.calls[c], c, w.now, arrives);
        SendMoves(cfg, t, w.calls[c], c, w.now, arrives, t', after);
        ChangeKeeps(cfg, w, c, t', after, MetricsAfterAttempt(MetricsOf(w, w.calls[c].owner), after));
      }
    case Hears(c, heard) =>
      if c < |w.calls| && w.calls[c].status.Waiting? {
        InvAgrees(cfg, w, c);
        var t := TablesOf(w, w.calls[c].owner);
        var (t', after) := Answered(cfg, t, w.calls[c], c, w.now, heard);
        HearMoves(cfg, t, w.calls[c], c, w.now, heard, t', after);
        ChangeKeeps(cfg, w, c, t', after, MetricsAfterAttempt(MetricsOf(w, w.calls[c].owner), after));
      }
    case Releases(c, d) =>
      if c < |w.calls| && w.calls[c].status.Held? {
        ReleaseStepKeeps(cfg, w, c, d);
      }
    case Waits(ms) => WaitKeeps(cfg, w, ms);
  }

  lemma ReleaseStepKeeps(cfg: Config, w: World, c: nat, d: Delivery)
    requires Inv(cfg, w) && c < |w.calls| && w.calls[c].status.Held?
    ensures Inv(cfg, Step(cfg, w, Releases(c, d)))
  {
    InvAgrees(cfg, w, c);
    var t := TablesOf(w, w.calls[c].owner);
    var (t', after) := Released(t, w.calls[c], c, w.now, d);
    ReleaseMoves(cfg, t, w.calls[c], c, w.now, d, t', after);
    ChangeKeeps(cfg, w, c, t', after,
                MetricsAfterRelease(MetricsOf(w, w.calls[c].owner), t, w.calls[c], c, w.now, d));
  }

  lemma AcquireKeeps(cfg: Config, w: World, owner: nat, resource: nat)
    requires Inv(cfg, w)
    ensures Inv(cfg, Step(cfg, w, Acquires(owner, resource)))
  {
    var w' := Step(cfg, w, Acquires(owner, resource));
    assert forall r | r in w.shared :: w.shared[r].token < |w.calls|;
    forall o | o in w'.owns ensures LeasesAgree(w'.calls, w'.owns[o], Own) && OwnedBy(w'.calls, w'.owns[o], o) {
      assert OwnedBy(w.calls, w.owns[o], o);
    }
  }

  lemma WaitKeeps(cfg: Config, w: World, ms: nat)
    requires Inv(cfg, w)
    ensures Inv(cfg, Step(cfg, w, Waits(ms)))
  {
    var w' := Step(cfg, w, Waits(ms));
    forall c | 0 <= c < |w'.calls|
      ensures CallAgrees(cfg, TablesOf(w', w'.calls[c].owner), w'.calls[c], c, w'.now)
    {
      assert CallAgrees(cfg, TablesOf(w, w.calls[c].owner), w.calls[c], c, w.now);
    }
  }

  lemma {:induction false} RunKeeps(cfg: Config, w: World, es: seq<Event>)
    requires Inv(cfg, w)
    ensures Inv(cfg, RunAll(cfg, w, es))
    decreases |es|
  {
    if es != [] {
      StepKeeps(cfg, w, es[0]);
      RunKeeps(cfg, Step(cfg, w, es[0]), es[1..]);
    }
  }

  lemma EmptyInv(cfg: Config)
    ensures Inv(cfg, EMPTY)
  {
  }

  /** Two handles with their leases in one table. */
  predicate SameTable(a: Call, b: Call)
    requires a.status.Held? && b.status.Held?
  {
    a.status.place == b.status.place && (a.status.place.Own? ==> a.owner == b.owner)
  }

  /** In every reachable state at most one handle of a resource is unexpired and unreleased in each
      table, however commands, replies, lapses and late releases interleave. */
  lemma AtMostOnePerTable(cfg: Config, es: seq<Event>, c: nat, d: nat)
    ensures var w := RunAll(cfg, EMPTY, es);
            && (Active(w, c) && Active(w, d) && w.calls[c].resource == w.calls[d].resource ==>
                  c == d || !SameTable(w.calls[c], w.calls[d]))
            && (Active(w, c) ==> Leased(TablesOf(w, w.calls[c].owner).At(w.calls[c].status.place),
                                        w.calls[c].resource, c, w.calls[c].status.expiresAt))
  {
    EmptyInv(cfg);
    RunKeeps(cfg, EMPTY, es);
    var w := RunAll(cfg, EMPTY, es);
    assert Active(w, c) ==> CallAgrees(cfg, TablesOf(w, w.calls[c].owner), w.calls[c], c, w.now);
    assert Active(w, d) ==> CallAgrees(cfg, TablesOf(w, w.calls[d].owner), w.calls[d], d, w.now);
  }

  /** At most one handle of each resource is active. */
  ghost predicate Exclusive(w: World) {
    forall c: nat, d: nat | Active(w, c) && Active(w, d) && w.calls[c].resource == w.calls[d].resource :: c == d
  }

  /** Two objects whose Redis does not answer both fall back on their own memory. */
  function BothFallBack(): seq<Event> {
    [Acquires(0, 0), Acquires(1, 0), Sends(0, false), Hears(0, false), Sends(1, false), Hears(1, false)]
  }

  lemma RunOn(cfg: Config, w: World, e: Event, es: seq<Event>)
    ensures RunAll(cfg, w, [e] + es) == RunAll(cfg, Step(cfg, w, e), es)
  {
    assert ([e] + es)[1..] == es;
  }

  /** An attempt of a call that finds its own table free, with no answer from Redis, is a handle. */
  lemma FallsBack(cfg: Config, w: World, c: nat, w': World)
    requires cfg.fallback && c < |w.calls| && w.calls[c].status == Trying(0)
    requires Free(TablesOf(w, w.calls[c].owner).own, w.calls[c].resource, w.now)
    requires w' == Step(cfg, Step(cfg, w, Sends(c, false)), Hears(c, false))
    ensures |w'.calls| == |w.calls| && w'.now == w.now
    ensures w'.calls[c] == Obtained(w.calls[c], Own, w.now + cfg.lockTimeoutMs, 0)
    ensures forall i | 0 <= i < |w.calls| && i != c :: w'.calls[i] == w.calls[i]
    ensures forall o | o != w.calls[c].owner :: TablesOf(w', o).own == TablesOf(w, o).own
  {
    var w1 := Step(cfg, w, Sends(c, false));
    assert !cfg.redis ==> w' == w1;
    assert cfg.redis ==> w1.calls[c].status == Waiting(0, Nothing) && w1.shared == w.shared;
  }

  lemma FallBacksOverlap(cfg: Config)
    requires cfg.fallback && cfg.lockTimeoutMs > 0 && cfg.retryCount >= 0
    ensures !Exclusive(RunAll(cfg, EMPTY, BothFallBack()))
  {
    var w1 := Step(cfg, EMPTY, Acquires(0, 0));
    var w2 := Step(cfg, w1, Acquires(1, 0));
    var w3 := Step(cfg, Step(cfg, w2, Sends(0, false)), Hears(0, false));
    var w4 := Step(cfg, Step(cfg, w3, Sends(1, false)), Hears(1, false));
    FallsBack(cfg, w2, 0, w3);
    FallsBack(cfg, w3, 1, w4);
    var e4: seq<Event> := [];
    var e3 := [Sends(1, false)] + ([Hears(1, false)] + e4);
    var e2 := [Sends(0, false)] + ([Hears(0, false)] + e3);
    assert BothFallBack() == [Acquires(0, 0)] + ([Acquires(1, 0)] + e2);
    RunOn(cfg, EMPTY, Acquires(0, 0), [Acquires(1, 0)] + e2);
    RunOn(cfg, w1, Acquires(1, 0), e2);
    RunOn(cfg, w2, Sends(0, false), [Hears(0, false)] + e3);
    RunOn(cfg, Step(cfg, w2, Sends(0, false)), Hears(0, false), e3);
    RunOn(cfg, w3, Sends(1, false), [Hears(1, false)] + e4);
    RunOn(cfg, Step(cfg, w3, Sends(1, false)), Hears(1, false), e4);
    assert Active(w4, 0) && Active(w4, 1);
  }

  /** The mutex excludes in every run exactly if it may not fall back on memory, or never grants a
      lease that lasts. */
  lemma ExclusiveIff(cfg: Config)
    ensures (forall es :: Exclusive(RunAll(cfg, EMPTY, es))) <==>
            !cfg.fallback || cfg.lockTimeoutMs <= 0 || cfg.retryCount < 0
  {
    if cfg.fallback && cfg.lockTimeoutMs > 0 && cfg.retryCount >= 0 {
      FallBacksOverlap(cfg);
    } else {
      forall es ensures Exclusive(RunAll(cfg, EMPTY, es)) {
        RunExclusive(cfg, es);
      }
    }
  }

  lemma RunExclusive(cfg: Config, es: seq<Event>)
    requires !cfg.fallback || cfg.lockTimeoutMs <= 0 || cfg.retryCount < 0
    ensures Exclusive(RunAll(cfg, EMPTY, es))
  {
    var w := RunAll(cfg, EMPTY, es);
    EmptyInv(cfg);
    RunKeeps(cfg, EMPTY, es);
    forall c: nat, d: nat | Active(w, c) && Active(w, d) && w.calls[c].resource == w.calls[d].resource
      ensures c == d
    {
      assert CallAgrees(cfg, TablesOf(w, w.calls[c].owner), w.calls[c], c, w.now);
      assert CallAgrees(cfg, TablesOf(w, w.calls[d].owner), w.calls[d], d, w.now);
    }
  }

  /** A release that reaches its table frees the resource: the next caller that tries there is granted. */
  lemma ReleaseFrees(cfg: Config, w: World, c: nat, d: Delivery, next: nat)
    requires Inv(cfg, w) && Active(w, c) && !d.Undelivered?
    requires next < |w.calls| && w.calls[next].status.Trying? && w.calls[next].resource == w.calls[c].resource
    requires w.calls[c].status.place.Own? ==> !cfg.redis && w.calls[next].owner == w.calls[c].owner
    ensures var w1 := Step(cfg, w, Releases(c, d));
            var w2 := Step(cfg, Step(cfg, w1, Sends(next, true)), Hears(next, true));
            && next < |w2.calls| && w2.calls[next].status.Held? && !w2.calls[next].status.released
            && w2.calls[next].status.expiresAt == w.now + cfg.lockTimeoutMs
            && SameTable(w.calls[c], w2.calls[next])
  {
    InvAgrees(cfg, w, c);
    var w1 := Step(cfg, w, Releases(c, d));
    ReleasedIsFree(cfg, w, c, d, w1);
    SendTakesFree(cfg, w1, next, w.calls[c].status.place);
  }

  lemma ReleasedIsFree(cfg: Config, w: World, c: nat, d: Delivery, w1: World)
    requires Inv(cfg, w) && Active(w, c) && !d.Undelivered? && w1 == Step(cfg, w, Releases(c, d))
    ensures w1.now == w.now && |w1.calls| == |w.calls|
    ensures forall i | 0 <= i < |w.calls| && i != c :: w1.calls[i] == w.calls[i]
    ensures Free(TablesOf(w1, w.calls[c].owner).At(w.calls[c].status.place), w.calls[c].resource, w1.now)
  {
    InvAgrees(cfg, w, c);
  }

  lemma SendTakesFree(cfg: Config, w: World, c: nat, place: Place)
    requires c < |w.calls| && w.calls[c].status.Trying?
    requires if place.Shared? then cfg.redis else !cfg.redis && cfg.fallback
    requires Free(TablesOf(w, w.calls[c].owner).At(place), w.calls[c].resource, w.now)
    ensures var w2 := Step(cfg, Step(cfg, w, Sends(c, true)), Hears(c, true));
            && |w2.calls| == |w.calls|
            && w2.calls[c] == Obtained(w.calls[c], place, w.now + cfg.lockTimeoutMs, w.calls[c].status.attempt)
  {
  }

  /** Releasing a handle leaves every other handle's lease in place, and frees at most its own. */
  lemma ReleaseSparesOthers(cfg: Config, w: World, c: nat, d: Delivery, other: nat)
    requires Inv(cfg, w) && c != other && Active(w, other)
    ensures var w' := Step(cfg, w, Releases(c, d));
            && Active(w', other)
            && Leased(TablesOf(w', w.calls[other].owner).At(w.calls[other].status.place),
                      w.calls[other].resource, other, w.calls[other].status.expiresAt)
  {
    var w' := Step(cfg, w, Releases(c, d));
    StepKeeps(cfg, w, Releases(c, d));
    assert CallAgrees(cfg, TablesOf(w', w'.calls[other].owner), w'.calls[other], other, w'.now);
  }
}
