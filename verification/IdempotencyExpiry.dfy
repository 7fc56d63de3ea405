/** The idempotency store in Redis: every record carries an expiry, and a key blocks only while its
    record lives. Calls of any number of processes interleave, one command at a time. */
module IdempotencyExpiry {
  import opened Executor

  const FAIL_TTL_MS := 60_000
  const UNKNOWN_TTL_MS := 1_800_000

  /** A bet's id is the position of its call. */
  datatype Entry = Entry(status: KeyStatus, bet: nat, expiresAt: int)

  /** How long a record of this status is kept. */
  function TtlOf(ttlMs: nat, status: KeyStatus): nat {
    match status
    case FAILED => if ttlMs < FAIL_TTL_MS then ttlMs else FAIL_TTL_MS
    case UNKNOWN => if ttlMs > UNKNOWN_TTL_MS then ttlMs else UNKNOWN_TTL_MS
    case _ => ttlMs
  }

  predicate Live(keys: map<string, Entry>, key: string, now: int) {
    key in keys && now < keys[key].expiresAt
  }

  /** A command is executed and answered, executed with its answer lost, or never executed. */
  datatype Delivery = Heard | Unheard | Undelivered

  /** SET key NX PX: whether it is set, and what the caller is told. A failure counts as a refusal. */
  predicate Reserves(keys: map<string, Entry>, key: string, now: int, d: Delivery) {
    !d.Undelivered? && !Live(keys, key, now)
  }

  class RedisIdempotencyStore {
    const ttlMs: nat
    var keys: map<string, Entry>

    constructor (ttlMs: nat)
      ensures this.ttlMs == ttlMs && keys == map[]
    {
      this.ttlMs, keys := ttlMs, map[];
    }

    method Reserve(key: string, bet: nat, now: int, d: Delivery) returns (ok: bool)
      modifies this
      ensures keys == if Reserves(old(keys), key, now, d)
                      then old(keys)[key := Entry(PENDING, bet, now + ttlMs)] else old(keys)
      ensures ok == (Reserves(old(keys), key, now, d) && d.Heard?)
    {
      if d.Undelivered? {
        return false;
      }
      if key in keys && now < keys[key].expiresAt {
        return false;
      }
      keys := keys[key := Entry(PENDING, bet, now + ttlMs)];
      return d.Heard?;
    }

    /** The first half of complete, fail and markUnknown: read the record, if it is still there. */
    method Read(key: string, now: int, d: Delivery) returns (existing: seq<Entry>)
      ensures existing == if d.Heard? && Live(keys, key, now) then [keys[key]] else []
    {
      if !d.Heard? || key !in keys || keys[key].expiresAt <= now {
        return [];
      }
      return [keys[key]];
    }

    /** The second half: write it back with the new status and a new expiry, whatever is there now. */
    method Write(key: string, existing: Entry, status: KeyStatus, now: int, d: Delivery)
      modifies this
      ensures keys == if d.Undelivered? then old(keys)
                      else old(keys)[key := Entry(status, existing.bet, now + TtlOf(ttlMs, status))]
    {
      if !d.Undelivered? {
        keys := keys[key := Entry(status, existing.bet, now + TtlOf(ttlMs, status))];
      }
    }
  }

  // ------------------------------------------------------------------ runs

  /** What was written last, and when. */
  datatype Written = Written(status: KeyStatus, at: int)

  /** One call: `reserved` if its SET took the key, `admitted` if it was told so and goes on to submit;
      then what it read, and the record it wrote last. */
  datatype Placing = Placing(
    key: string, reserved: bool, admitted: bool, since: int, found: seq<Entry>, status: KeyStatus, last: Written,
    done: bool)

  datatype World = World(now: int, keys: map<string, Entry>, calls: seq<Placing>)

  datatype Event =
    | Begins(key: string, d: Delivery)
    | Reads(c: nat, status: KeyStatus, d: Delivery)
    | Writes(c: nat, d: Delivery)
    | Waits(ms: nat)

  const EMPTY := World(0, map[], [])

  predicate MayRead(w: World, c: nat) {
    c < |w.calls| && w.calls[c].admitted && !w.calls[c].done && w.calls[c].found == []
  }

  predicate MayWrite(w: World, c: nat) {
    c < |w.calls| && w.calls[c].admitted && !w.calls[c].done && |w.calls[c].found| == 1
  }

  function Step(ttlMs: nat, w: World, e: Event): World {
    match e
    case Begins(key, d) =>
      var c, reserved := |w.calls|, Reserves(w.keys, key, w.now, d);
      w.(keys := if reserved then w.keys[key := Entry(PENDING, c, w.now + ttlMs)] else w.keys,
         calls := w.calls + [Placing(key, reserved, reserved && d.Heard?, w.now, [], PENDING, Written(PENDING, w.now),
                                     false)])
    case Reads(c, status, d) =>
      if !MayRead(w, c) then w
      else
        var call := w.calls[c];
        var found := if d.Heard? && Live(w.keys, call.key, w.now) then [w.keys[call.key]] else [];
        w.(calls := w.calls[c := call.(found := found, status := status, done := found == [])])
    case Writes(c, d) =>
      if !MayWrite(w, c) then w
      else
        var call := w.calls[c];
        var entry := Entry(call.status, call.found[0].bet, w.now + TtlOf(ttlMs, call.status));
        if d.Undelivered? then w.(calls := w.calls[c := call.(done := true)])
        else
          w.(keys := w.keys[call.key := entry],
             calls := w.calls[c := call.(done := true, last := Written(call.status, w.now))])
    case Waits(ms) => w.(now := w.now + ms)
  }

  function RunAll(ttlMs: nat, w: World, es: seq<Event>): World
    decreases |es|
  {
    if es == [] then w else RunAll(ttlMs, Step(ttlMs, w, es[0]), es[1..])
  }

  /** A call writes at most once: its write, or a read that finds nothing, is the last thing it does. */
  lemma OneWritePerCall(ttlMs: nat, w: World, e: Event, later: Event)
    requires (e.Writes? && MayWrite(w, e.c)) || (e.Reads? && MayRead(w, e.c))
    requires e.Reads? ==> !e.d.Heard? || !Live(w.keys, w.calls[e.c].key, w.now)
    requires (later.Reads? || later.Writes?) && later.c == e.c
    ensures Step(ttlMs, Step(ttlMs, w, e), later) == Step(ttlMs, w, e)
  {
  }

  /** When the record that the call wrote last lapses. */
  function Until(ttlMs: nat, call: Placing): int {
    call.last.at + TtlOf(ttlMs, call.last.status)
  }

  /** A write that takes effect although the record that it read, or the live record that it overwrites,
      is another call's: the store does not compare. */
  predicate Foreign(w: World, e: Event) {
    && e.Writes? && MayWrite(w, e.c) && !e.d.Undelivered?
    && (w.calls[e.c].found[0].bet != e.c ||
        (Live(w.keys, w.calls[e.c].key, w.now) && w.keys[w.calls[e.c].key].bet != e.c))
  }

  predicate NeverForeign(ttlMs: nat, w: World, es: seq<Event>)
    decreases |es|
  {
    es != [] ==> !Foreign(w, es[0]) && NeverForeign(ttlMs, Step(ttlMs, w, es[0]), es[1..])
  }

  /** While the record that a call wrote last has not lapsed, the call's key is its own. */
  predicate Holds(ttlMs: nat, w: World, c: nat)
    requires c < |w.calls|
  {
    var call := w.calls[c];
    && call.since <= call.last.at <= w.now && (call.admitted ==> call.reserved)
    && (call.reserved && w.now < Until(ttlMs, call) ==>
          call.key in w.keys && w.keys[call.key].bet == c && w.keys[call.key].expiresAt == Until(ttlMs, call))
  }

  ghost predicate EntryHeld(ttlMs: nat, w: World, key: string)
    requires key in w.keys
  {
    var c := w.keys[key].bet;
    && c < |w.calls| && w.calls[c].reserved && w.calls[c].key == key
    && w.keys[key].expiresAt == Until(ttlMs, w.calls[c])
  }

  /** Every record is that of the call it names, and every call whose record should live has it. */
  ghost predicate Inv(ttlMs: nat, w: World) {
    && (forall c | 0 <= c < |w.calls| :: Holds(ttlMs, w, c))
    && (forall key | key in w.keys :: EntryHeld(ttlMs, w, key))
  }

  lemma BeginKeeps(ttlMs: nat, w: World, key: string, d: Delivery)
    requires Inv(ttlMs, w)
    ensures Inv(ttlMs, Step(ttlMs, w, Begins(key, d)))
  {
    var w' := Step(ttlMs, w, Begins(key, d));
    forall c | 0 <= c < |w'.calls| ensures Holds(ttlMs, w', c) {
      assert c < |w.calls| ==> Holds(ttlMs, w, c);
    }
    forall k | k in w'.keys ensures EntryHeld(ttlMs, w', k) {
      assert k in w.keys ==> EntryHeld(ttlMs, w, k);
    }
  }

  lemma ReadKeeps(ttlMs: nat, w: World, c: nat, status: KeyStatus, d: Delivery)
    requires Inv(ttlMs, w)
    ensures Inv(ttlMs, Step(ttlMs, w, Reads(c, status, d)))
  {
    var w' := Step(ttlMs, w, Reads(c, status, d));
    forall i | 0 <= i < |w'.calls| ensures Holds(ttlMs, w', i) {
      assert Holds(ttlMs, w, i);
    }
    forall k | k in w'.keys ensures EntryHeld(ttlMs, w', k) {
      assert EntryHeld(ttlMs, w, k);
    }
  }

  lemma WriteKeeps(ttlMs: nat, w: World, c: nat, d: Delivery)
    requires Inv(ttlMs, w) && !Foreign(w, Writes(c, d))
    ensures Inv(ttlMs, Step(ttlMs, w, Writes(c, d)))
  {
    var w' := Step(ttlMs, w, Writes(c, d));
    assert c < |w.calls| ==> Holds(ttlMs, w, c);
    forall i | 0 <= i < |w'.calls| ensures Holds(ttlMs, w', i) {
      assert Holds(ttlMs, w, i);
    }
    forall k | k in w'.keys ensures EntryHeld(ttlMs, w', k) {
      assert k in w.keys ==> EntryHeld(ttlMs, w, k);
    }
  }

  lemma WaitKeeps(ttlMs: nat, w: World, ms: nat)
    requires Inv(ttlMs, w)
    ensures Inv(ttlMs, Step(ttlMs, w, Waits(ms)))
  {
    var w' := Step(ttlMs, w, Waits(ms));
    forall i | 0 <= i < |w'.calls| ensures Holds(ttlMs, w', i) {
      assert Holds(ttlMs, w, i);
    }
    forall k | k in w'.keys ensures EntryHeld(ttlMs, w', k) {
      assert EntryHeld(ttlMs, w, k);
    }
  }

  lemma StepKeeps(ttlMs: nat, w: World, e: Event)
    requires Inv(ttlMs, w) && !Foreign(w, e)
    ensures Inv(ttlMs, Step(ttlMs, w, e))
  {
    match e
    case Begins(key, d) => BeginKeeps(ttlMs, w, key, d);
    case Reads(c, status, d) => ReadKeeps(ttlMs, w, c, status, d);
    case Writes(c, d) => WriteKeeps(ttlMs, w, c, d);
    case Waits(ms) => WaitKeeps(ttlMs, w, ms);
  }

  lemma ForeignBreaks(ttlMs: nat, w: World, e: Event, w': World)
    requires ttlMs > 0 && Inv(ttlMs, w) && Foreign(w, e) && w' == Step(ttlMs, w, e)
    ensures !Inv(ttlMs, w')
  {
    var key := w.calls[e.c].key;
    assert Holds(ttlMs, w, e.c);
    assert |w'.calls| == |w.calls| && w'.calls[e.c].reserved && w'.now < Until(ttlMs, w'.calls[e.c]);
    if w.calls[e.c].found[0].bet != e.c {
      assert !Holds(ttlMs, w', e.c);
    } else {
      assert EntryHeld(ttlMs, w, key);
      assert !Holds(ttlMs, w', w.keys[key].bet);
    }
  }

  /** A step keeps the records with their calls exactly when it is not a foreign write. */
  lemma StepKeepsIff(ttlMs: nat, w: World, e: Event)
    requires ttlMs > 0 && Inv(ttlMs, w)
    ensures Inv(ttlMs, Step(ttlMs, w, e)) <==> !Foreign(w, e)
  {
    if Foreign(w, e) {
      ForeignBreaks(ttlMs, w, e, Step(ttlMs, w, e));
    } else {
      StepKeeps(ttlMs, w, e);
    }
  }

  lemma {:induction false} RunKeeps(ttlMs: nat, w: World, es: seq<Event>)
    requires Inv(ttlMs, w) && NeverForeign(ttlMs, w, es)
    ensures Inv(ttlMs, RunAll(ttlMs, w, es))
    decreases |es|
  {
    if es != [] {
      StepKeeps(ttlMs, w, es[0]);
      RunKeeps(ttlMs, Step(ttlMs, w, es[0]), es[1..]);
    }
  }

  ghost predicate StaysHeld(ttlMs: nat, w: World, es: seq<Event>)
    decreases |es|
  {
    Inv(ttlMs, w) && (es != [] ==> StaysHeld(ttlMs, Step(ttlMs, w, es[0]), es[1..]))
  }

  /** The records stay with their calls in every state of a run exactly when no write of it is foreign. */
  lemma {:induction false} StaysHeldIff(ttlMs: nat, w: World, es: seq<Event>)
    requires ttlMs > 0 && Inv(ttlMs, w)
    ensures StaysHeld(ttlMs, w, es) <==> NeverForeign(ttlMs, w, es)
    decreases |es|
  {
    if es != [] {
      StepKeepsIff(ttlMs, w, es[0]);
      if !Foreign(w, es[0]) {
        StaysHeldIff(ttlMs, Step(ttlMs, w, es[0]), es[1..]);
      }
    }
  }

  // ------------------------------------------------------------------ who is let through

  /** The reservation is admitted, and the call goes on to submit. */
  predicate Admits(ttlMs: nat, w: World, key: string) {
    Step(ttlMs, w, Begins(key, Heard)).calls[|w.calls|].admitted
  }

  /** So long does a record live after its last write: the TTL; a failed one for a minute at most; an
      unknown one for half an hour at least. */
  predicate HasLapsed(ttlMs: nat, last: Written, now: int) {
    match last.status
    case FAILED => now >= last.at + ttlMs || now >= last.at + 60_000
    case UNKNOWN => now >= last.at + ttlMs && now >= last.at + 1_800_000
    case _ => now >= last.at + ttlMs
  }

  /** The records of all earlier calls with this key have lapsed. */
  ghost predicate AllLapsed(ttlMs: nat, w: World, key: string) {
    forall c | 0 <= c < |w.calls| && w.calls[c].reserved && w.calls[c].key == key ::
      HasLapsed(ttlMs, w.calls[c].last, w.now)
  }

  lemma LapsedIsUntil(ttlMs: nat, call: Placing, now: int)
    ensures HasLapsed(ttlMs, call.last, now) <==> Until(ttlMs, call) <= now
  {
  }

  lemma InvAdmits(ttlMs: nat, w: World, key: string)
    requires Inv(ttlMs, w)
    ensures Admits(ttlMs, w, key) <==> AllLapsed(ttlMs, w, key)
  {
    if key in w.keys {
      assert EntryHeld(ttlMs, w, key);
      LapsedIsUntil(ttlMs, w.calls[w.keys[key].bet], w.now);
    }
    forall c | 0 <= c < |w.calls| && w.calls[c].reserved && w.calls[c].key == key && Admits(ttlMs, w, key)
      ensures HasLapsed(ttlMs, w.calls[c].last, w.now)
    {
      assert Holds(ttlMs, w, c);
      LapsedIsUntil(ttlMs, w.calls[c], w.now);
    }
  }

  /** In every run without a foreign write, a call is let through exactly when the record of every
      earlier call with its key has lapsed: a confirmed bet blocks its round for the TTL, a failed one
      for a minute at most and an unknown one for half an hour at least, counted from the write. */
  lemma AdmittedIff(ttlMs: nat, es: seq<Event>, key: string)
    requires NeverForeign(ttlMs, EMPTY, es)
    ensures Admits(ttlMs, RunAll(ttlMs, EMPTY, es), key) <==> AllLapsed(ttlMs, RunAll(ttlMs, EMPTY, es), key)
  {
    RunKeeps(ttlMs, EMPTY, es);
    InvAdmits(ttlMs, RunAll(ttlMs, EMPTY, es), key);
  }

  /** The records that two calls wrote last do not live at the same time, and what the earlier one had
      written before the later one began had lapsed by then. */
  predicate Apart(ttlMs: nat, a: Placing, b: Placing) {
    && (Until(ttlMs, a) <= b.last.at || Until(ttlMs, b) <= a.last.at)
    && (a.last.at < b.since ==> Until(ttlMs, a) <= b.since)
  }

  ghost predicate AllApart(ttlMs: nat, w: World) {
    forall c, d | 0 <= c < d < |w.calls| && w.calls[c].reserved && w.calls[d].reserved &&
                  w.calls[c].key == w.calls[d].key ::
      Apart(ttlMs, w.calls[c], w.calls[d])
  }

  lemma BeginApart(ttlMs: nat, w: World, key: string, d: Delivery)
    requires Inv(ttlMs, w) && AllApart(ttlMs, w)
    ensures AllApart(ttlMs, Step(ttlMs, w, Begins(key, d)))
  {
    InvAdmits(ttlMs, w, key);
    assert forall c | 0 <= c < |w.calls| :: Holds(ttlMs, w, c);
  }

  lemma WriteApart(ttlMs: nat, w: World, c: nat, d: Delivery)
    requires Inv(ttlMs, w) && AllApart(ttlMs, w) && !Foreign(w, Writes(c, d))
    ensures AllApart(ttlMs, Step(ttlMs, w, Writes(c, d)))
  {
    if MayWrite(w, c) && !d.Undelivered? {
      forall i | 0 <= i < |w.calls| && i != c && w.calls[i].reserved && w.calls[i].key == w.calls[c].key
        ensures w.calls[i].since <= w.now && Until(ttlMs, w.calls[i]) <= w.now
      {
        assert Holds(ttlMs, w, i);
      }
    }
  }

  lemma StepApart(ttlMs: nat, w: World, e: Event)
    requires Inv(ttlMs, w) && AllApart(ttlMs, w) && !Foreign(w, e)
    ensures AllApart(ttlMs, Step(ttlMs, w, e))
  {
    match e
    case Begins(key, d) => BeginApart(ttlMs, w, key, d);
    case Reads(c, status, d) =>
    case Writes(c, d) => WriteApart(ttlMs, w, c, d);
    case Waits(ms) =>
  }

  lemma {:induction false} RunApart(ttlMs: nat, w: World, es: seq<Event>)
    requires Inv(ttlMs, w) && AllApart(ttlMs, w) && NeverForeign(ttlMs, w, es)
    ensures AllApart(ttlMs, RunAll(ttlMs, w, es))
    decreases |es|
  {
    if es != [] {
      StepKeeps(ttlMs, w, es[0]);
      StepApart(ttlMs, w, es[0]);
      RunApart(ttlMs, Step(ttlMs, w, es[0]), es[1..]);
    }
  }

  /** So in every such run two calls that both submitted for one round are apart. */
  lemma AdmittedAreApart(ttlMs: nat, es: seq<Event>, c: nat, d: nat)
    requires NeverForeign(ttlMs, EMPTY, es)
    ensures var w := RunAll(ttlMs, EMPTY, es);
            c < d < |w.calls| && w.calls[c].admitted && w.calls[d].admitted && w.calls[c].key == w.calls[d].key ==>
              Apart(ttlMs, w.calls[c], w.calls[d])
  {
    RunApart(ttlMs, EMPTY, es);
    RunKeeps(ttlMs, EMPTY, es);
    var w := RunAll(ttlMs, EMPTY, es);
    if c < d < |w.calls| {
      assert Holds(ttlMs, w, c) && Holds(ttlMs, w, d);
    }
  }

  // ------------------------------------------------------------------ calls that write in time

  /** A call writes its outcome while its reservation still lives. */
  predicate Prompt(ttlMs: nat, w: World, e: Event) {
    e.Writes? && MayWrite(w, e.c) && !e.d.Undelivered? ==> w.now < Until(ttlMs, w.calls[e.c])
  }

  predicate PromptRun(ttlMs: nat, w: World, es: seq<Event>)
    decreases |es|
  {
    es != [] ==> Prompt(ttlMs, w, es[0]) && PromptRun(ttlMs, Step(ttlMs, w, es[0]), es[1..])
  }

  /** What a call has read is its own record, as long as that lives. */
  ghost predicate FoundOwn(ttlMs: nat, w: World) {
    forall c | 0 <= c < |w.calls| && w.calls[c].reserved && w.now < Until(ttlMs, w.calls[c]) && !w.calls[c].done ::
      forall f <- w.calls[c].found :: f.bet == c
  }

  lemma PromptStep(ttlMs: nat, w: World, e: Event)
    requires Inv(ttlMs, w) && FoundOwn(ttlMs, w) && Prompt(ttlMs, w, e)
    ensures !Foreign(w, e) && FoundOwn(ttlMs, Step(ttlMs, w, e))
  {
    if (e.Writes? || e.Reads?) && e.c < |w.calls| {
      assert Holds(ttlMs, w, e.c);
    }
  }

  /** A run in which every call writes within the life of its reservation has no foreign write. */
  lemma {:induction false} PromptIsNeverForeign(ttlMs: nat, w: World, es: seq<Event>)
    requires Inv(ttlMs, w) && FoundOwn(ttlMs, w) && PromptRun(ttlMs, w, es)
    ensures NeverForeign(ttlMs, w, es)
    decreases |es|
  {
    if es != [] {
      PromptStep(ttlMs, w, es[0]);
      StepKeeps(ttlMs, w, es[0]);
      PromptIsNeverForeign(ttlMs, Step(ttlMs, w, es[0]), es[1..]);
    }
  }

  // ------------------------------------------------------------------ what goes wrong

  lemma RunOn(ttlMs: nat, w: World, e: Event, es: seq<Event>)
    ensures RunAll(ttlMs, w, [e] + es) == RunAll(ttlMs, Step(ttlMs, w, e), es)
    ensures PromptRun(ttlMs, w, [e] + es) <==> Prompt(ttlMs, w, e) && PromptRun(ttlMs, Step(ttlMs, w, e), es)
  {
    assert ([e] + es)[1..] == es;
  }

  /** One bet per round is therefore not for ever: a bet that was placed and recorded in time does not
      stop the same round from being placed again a TTL later. */
  lemma PlacedAgainAfterTtl(ttlMs: nat, key: string)
    requires ttlMs > 0
    ensures var recorded := [Reads(0, COMPLETED, Heard)] + ([Writes(0, Heard)] + ([Waits(ttlMs)] + []));
            var es := [Begins(key, Heard)] + recorded;
            var w := RunAll(ttlMs, EMPTY, es);
            && PromptRun(ttlMs, EMPTY, es) && key in w.keys && w.keys[key].status == COMPLETED && Admits(ttlMs, w, key)
  {
    var w1 := Step(ttlMs, EMPTY, Begins(key, Heard));
    var w2 := Step(ttlMs, w1, Reads(0, COMPLETED, Heard));
    var w3 := Step(ttlMs, w2, Writes(0, Heard));
    var e3: seq<Event> := [Waits(ttlMs)] + [];
    RunOn(ttlMs, EMPTY, Begins(key, Heard), [Reads(0, COMPLETED, Heard)] + ([Writes(0, Heard)] + e3));
    RunOn(ttlMs, w1, Reads(0, COMPLETED, Heard), [Writes(0, Heard)] + e3);
    RunOn(ttlMs, w2, Writes(0, Heard), e3);
    RunOn(ttlMs, w3, Waits(ttlMs), []);
  }

  /** And a call that is slower than the TTL does not even block while it is placing. */
  lemma SlowCallOverlaps(ttlMs: nat, key: string)
    ensures var es := [Begins(key, Heard)] + ([Waits(ttlMs)] + ([Begins(key, Heard)] + []));
            var w := RunAll(ttlMs, EMPTY, es);
            |w.calls| == 2 && w.calls[0].admitted && w.calls[1].admitted && !w.calls[0].done && !w.calls[1].done
  {
    var w1 := Step(ttlMs, EMPTY, Begins(key, Heard));
    var w2 := Step(ttlMs, w1, Waits(ttlMs));
    RunOn(ttlMs, EMPTY, Begins(key, Heard), [Waits(ttlMs)] + ([Begins(key, Heard)] + []));
    RunOn(ttlMs, w1, Waits(ttlMs), [Begins(key, Heard)] + []);
    RunOn(ttlMs, w2, Begins(key, Heard), []);
  }

  /** A call reads and writes its outcome. */
  function Records(c: nat, status: KeyStatus): seq<Event> {
    [Reads(c, status, Heard)] + ([Writes(c, Heard)] + [])
  }

  lemma RecordsOn(ttlMs: nat, w: World, c: nat, status: KeyStatus, es: seq<Event>, w': World)
    requires w' == Step(ttlMs, Step(ttlMs, w, Reads(c, status, Heard)), Writes(c, Heard))
    ensures RunAll(ttlMs, w, Records(c, status) + es) == RunAll(ttlMs, w', es)
  {
    assert Records(c, status) + es == [Reads(c, status, Heard)] + ([Writes(c, Heard)] + es);
    RunOn(ttlMs, w, Reads(c, status, Heard), [Writes(c, Heard)] + es);
    RunOn(ttlMs, Step(ttlMs, w, Reads(c, status, Heard)), Writes(c, Heard), es);
  }

  /** A slow call lets its round lapse, a second one places it and records it as COMPLETED. */
  function Overtaken(ttlMs: nat, key: string): seq<Event> {
    [Begins(key, Heard)] + ([Waits(ttlMs)] + ([Begins(key, Heard)] + (Records(1, COMPLETED) + [])))
  }

  lemma OvertakenState(ttlMs: nat, key: string, es: seq<Event>) returns (w: World)
    requires ttlMs > 0
    ensures w.now == ttlMs && |w.calls| == 2 && w.keys == map[key := Entry(COMPLETED, 1, 2 * ttlMs)]
    ensures w.calls[0] == Placing(key, true, true, 0, [], PENDING, Written(PENDING, 0), false)
    ensures w.calls[1].key == key && w.calls[1].reserved && w.calls[1].last == Written(COMPLETED, ttlMs)
    ensures RunAll(ttlMs, EMPTY, Overtaken(ttlMs, key) + es) == RunAll(ttlMs, w, es)
  {
    var w1 := Step(ttlMs, EMPTY, Begins(key, Heard));
    var w2 := Step(ttlMs, w1, Waits(ttlMs));
    var w3 := Step(ttlMs, w2, Begins(key, Heard));
    w := Step(ttlMs, Step(ttlMs, w3, Reads(1, COMPLETED, Heard)), Writes(1, Heard));
    var rest := Records(1, COMPLETED) + es;
    assert Overtaken(ttlMs, key) + es == [Begins(key, Heard)] + ([Waits(ttlMs)] + ([Begins(key, Heard)] + rest));
    RunOn(ttlMs, EMPTY, Begins(key, Heard), [Waits(ttlMs)] + ([Begins(key, Heard)] + rest));
    RunOn(ttlMs, w1, Waits(ttlMs), [Begins(key, Heard)] + rest);
    RunOn(ttlMs, w2, Begins(key, Heard), rest);
    RecordsOn(ttlMs, w3, 1, COMPLETED, es, w);
  }

  /** A foreign write shortens the life of another's record: the slow call reads the record of the
      placed bet and writes it back as FAILED, and a minute later the placed round is let through
      again, with the rest of the TTL still to go. */
  lemma ForeignWriteReopens(ttlMs: nat, key: string)
    requires ttlMs > FAIL_TTL_MS
    ensures var late := Records(0, FAILED) + ([Waits(FAIL_TTL_MS)] + []);
            var w := RunAll(ttlMs, EMPTY, Overtaken(ttlMs, key) + late);
            && |w.calls| == 2 && w.calls[1].key == key && w.calls[1].reserved && w.calls[1].last.status == COMPLETED
            && Admits(ttlMs, w, key) && Until(ttlMs, w.calls[1]) - w.now == ttlMs - FAIL_TTL_MS
  {
    var wait: seq<Event> := [Waits(FAIL_TTL_MS)] + [];
    var w0 := OvertakenState(ttlMs, key, Records(0, FAILED) + wait);
    var w1 := Step(ttlMs, Step(ttlMs, w0, Reads(0, FAILED, Heard)), Writes(0, Heard));
    RecordsOn(ttlMs, w0, 0, FAILED, wait, w1);
    RunOn(ttlMs, w1, Waits(FAIL_TTL_MS), []);
  }
}
