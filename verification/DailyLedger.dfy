/** The daily entry ledgers: slots reserved, confirmed and released under a daily cap. The
    in-memory ledger of in-memory-daily-ledger.ts is the reference; the transactional ledger of
    daily-entries.ts and its in-memory twin are compared with it. Each operation runs under a
    lock or in a serializable transaction, so an interleaving is a sequence of operations. */
module DailyLedger {
  import opened Outcomes

  datatype SlotStatus = RESERVED | CONFIRMED | RELEASED

  datatype Slot = Slot(betId: string, slotNumber: int, status: SlotStatus)

  /** One day: the two counters and the slots in order of reservation. */
  datatype Day = Day(confirmed: int, reserved: int, slots: seq<Slot>)

  const EMPTY_DAY := Day(0, 0, [])

  function Count(slots: seq<Slot>, status: SlotStatus): nat {
    if slots == [] then 0
    else Count(slots[..|slots| - 1], status) + if slots[|slots| - 1].status == status then 1 else 0
  }

  /** Math.max(0, n - 1) and GREATEST(n - 1, 0). */
  function Less(n: int): int {
    if n >= 1 then n - 1 else 0
  }

  /** The first slot of a bet, in any of the given statuses. */
  function FindSlot(slots: seq<Slot>, betId: string, statuses: set<SlotStatus>): (r: Option<nat>)
    ensures r.Some? ==> r.value < |slots| && slots[r.value].betId == betId && slots[r.value].status in statuses
    ensures r.Some? ==> forall j | 0 <= j < r.value :: !(slots[j].betId == betId && slots[j].status in statuses)
    ensures r.None? ==> forall j | 0 <= j < |slots| :: !(slots[j].betId == betId && slots[j].status in statuses)
  {
    if slots == [] then None
    else
      var r := FindSlot(slots[..|slots| - 1], betId, statuses);
      if r.Some? then r
      else if slots[|slots| - 1].betId == betId && slots[|slots| - 1].status in statuses then Some(|slots| - 1)
      else None
  }

  const ANY_STATUS := {RESERVED, CONFIRMED, RELEASED}

  // ------------------------------------------------------------------ the operations

  datatype Op = Reserve(betId: string) | Confirm(betId: string) | Release(betId: string)

  /** All three ledgers reserve alike. */
  function ReserveOn(max: int, day: Day, betId: string): Day {
    var active := day.confirmed + day.reserved;
    if active >= max then day
    else day.(reserved := day.reserved + 1, slots := day.slots + [Slot(betId, active + 1, RESERVED)])
  }

  function WithStatus(day: Day, i: nat, status: SlotStatus): Day
    requires i < |day.slots|
  {
    day.(slots := day.slots[i := day.slots[i].(status := status)])
  }

  /** The reference ledger: only a RESERVED slot can be confirmed or released. */
  function StrictStep(max: int, day: Day, op: Op): Day {
    match op
    case Reserve(betId) => ReserveOn(max, day, betId)
    case Confirm(betId) =>
      (match FindSlot(day.slots, betId, {RESERVED})
       case None => day
       case Some(i) => WithStatus(day, i, CONFIRMED).(reserved := Less(day.reserved), confirmed := day.confirmed + 1))
    case Release(betId) =>
      (match FindSlot(day.slots, betId, {RESERVED})
       case None => day
       case Some(i) => WithStatus(day, i, RELEASED).(reserved := Less(day.reserved)))
  }

  /** The transactional ledger: it picks the bet's entry whatever its status, refuses to
      confirm a released one, and releases a confirmed one by lowering both counters. */
  function TxStep(max: int, day: Day, op: Op): Day {
    match op
    case Reserve(betId) => ReserveOn(max, day, betId)
    case Confirm(betId) =>
      (match FindSlot(day.slots, betId, ANY_STATUS)
       case None => day
       case Some(i) =>
         if day.slots[i].status != RESERVED then day
         else WithStatus(day, i, CONFIRMED).(confirmed := day.confirmed + 1, reserved := Less(day.reserved)))
    case Release(betId) => ReleaseAny(day, betId)
  }

  function ReleaseAny(day: Day, betId: string): Day {
    match FindSlot(day.slots, betId, ANY_STATUS)
    case None => day
    case Some(i) =>
      if day.slots[i].status == RELEASED then day
      else WithStatus(day, i, RELEASED).(
        reserved := Less(day.reserved),
        confirmed := if day.slots[i].status == CONFIRMED then Less(day.confirmed) else day.confirmed)
  }

  /** The in-memory twin in daily-entries.ts: it confirms anything not yet confirmed. */
  function LooseStep(max: int, day: Day, op: Op): Day {
    match op
    case Reserve(betId) => ReserveOn(max, day, betId)
    case Confirm(betId) =>
      (match FindSlot(day.slots, betId, ANY_STATUS)
       case None => day
       case Some(i) =>
         if day.slots[i].status == CONFIRMED then day
         else WithStatus(day, i, CONFIRMED).(confirmed := day.confirmed + 1, reserved := Less(day.reserved)))
    case Release(betId) => ReleaseAny(day, betId)
  }

  // ------------------------------------------------------------------ accuracy

  /** The counters count the slots. */
  ghost predicate Accurate(day: Day) {
    day.reserved == Count(day.slots, RESERVED) && day.confirmed == Count(day.slots, CONFIRMED)
  }

  /** Accurate, and no more active slots than the cap. */
  ghost predicate Inv(max: int, day: Day) {
    Accurate(day) && (day.slots != [] ==> day.confirmed + day.reserved <= max)
  }

  lemma {:induction false} CountUpdate(slots: seq<Slot>, i: nat, s: SlotStatus, status: SlotStatus)
    requires i < |slots|
    ensures Count(slots[i := slots[i].(status := s)], status) ==
            Count(slots, status)
            - (if slots[i].status == status then 1 else 0) + (if s == status then 1 else 0)
  {
    var updated := slots[i := slots[i].(status := s)];
    var n := |slots| - 1;
    if i == n {
      assert updated[..n] == slots[..n];
    } else {
      assert updated[..n] == slots[..n][i := slots[i].(status := s)];
      CountUpdate(slots[..n], i, s, status);
    }
  }

  lemma {:induction false} CountPositive(slots: seq<Slot>, i: nat)
    requires i < |slots|
    ensures Count(slots, slots[i].status) >= 1
  {
    if i < |slots| - 1 {
      CountPositive(slots[..|slots| - 1], i);
    }
  }

  lemma CountUpdateAll(slots: seq<Slot>, i: nat, s: SlotStatus)
    requires i < |slots|
    ensures forall status ::
              Count(slots[i := slots[i].(status := s)], status) ==
              Count(slots, status) - (if slots[i].status == status then 1 else 0) + (if s == status then 1 else 0)
  {
    forall status ensures Count(slots[i := slots[i].(status := s)], status) ==
              Count(slots, status) - (if slots[i].status == status then 1 else 0) + (if s == status then 1 else 0)
    {
      CountUpdate(slots, i, s, status);
    }
  }

  lemma ReserveKeeps(max: int, day: Day, betId: string)
    requires Inv(max, day)
    ensures Inv(max, ReserveOn(max, day, betId))
  {
    var slot := Slot(betId, day.confirmed + day.reserved + 1, RESERVED);
    assert (day.slots + [slot])[..|day.slots|] == day.slots;
  }

  /** The clamp never bites: where the reference ledger subtracts one, the counter is positive. */
  lemma StrictKeeps(max: int, day: Day, op: Op)
    requires Inv(max, day)
    ensures Inv(max, StrictStep(max, day, op))
    ensures !op.Reserve? && FindSlot(day.slots, op.betId, {RESERVED}).Some? ==> day.reserved >= 1
  {
    match op
    case Reserve(betId) => ReserveKeeps(max, day, betId);
    case _ =>
      var found := FindSlot(day.slots, op.betId, {RESERVED});
      if found.Some? {
        CountPositive(day.slots, found.value);
        CountUpdateAll(day.slots, found.value, if op.Confirm? then CONFIRMED else RELEASED);
      }
  }

  /** Slot by slot, what the reference ledger does: only the first RESERVED slot of the bet moves. */
  lemma StrictMeans(max: int, day: Day, op: Op, i: nat)
    requires i < |day.slots|
    ensures var s, slots := day.slots[i], StrictStep(max, day, op).slots;
            var first := && s.betId == op.betId && s.status == RESERVED
                         && forall j | 0 <= j < i :: day.slots[j].betId != op.betId || day.slots[j].status != RESERVED;
            && |slots| == |day.slots| + (if op.Reserve? && day.confirmed + day.reserved < max then 1 else 0)
            && slots[i] == if op.Confirm? && first then s.(status := CONFIRMED)
                           else if op.Release? && first then s.(status := RELEASED) else s
  {
  }

  function Run(step: (Day, Op) -> Day, day: Day, ops: seq<Op>): Day
    decreases |ops|
  {
    if ops == [] then day else Run(step, step(day, ops[0]), ops[1..])
  }

  function Strict(max: int): (Day, Op) -> Day {
    (day: Day, op: Op) => StrictStep(max, day, op)
  }

  function Tx(max: int): (Day, Op) -> Day {
    (day: Day, op: Op) => TxStep(max, day, op)
  }

  lemma {:induction false} StrictRunKeeps(max: int, day: Day, ops: seq<Op>)
    requires Inv(max, day)
    ensures Inv(max, Run(Strict(max), day, ops))
    decreases |ops|
  {
    if ops != [] {
      StrictKeeps(max, day, ops[0]);
      StrictRunKeeps(max, StrictStep(max, day, ops[0]), ops[1..]);
    }
  }

  /** In every interleaving on the reference ledger the counters are the slot counts and the
      number of reserved and confirmed slots never exceeds the cap. */
  lemma ReferenceLedgerIsExact(max: nat, ops: seq<Op>)
    ensures var day := Run(Strict(max), EMPTY_DAY, ops);
            && day.reserved == Count(day.slots, RESERVED)
            && day.confirmed == Count(day.slots, CONFIRMED)
            && Count(day.slots, RESERVED) + Count(day.slots, CONFIRMED) <= max
  {
    StrictRunKeeps(max, EMPTY_DAY, ops);
  }

  // ------------------------------------------------------------------ the transactional ledger

  ghost predicate DistinctBets(slots: seq<Slot>) {
    forall i, j | 0 <= i < j < |slots| :: slots[i].betId != slots[j].betId
  }

  predicate Known(day: Day, betId: string) {
    FindSlot(day.slots, betId, ANY_STATUS).Some?
  }

  /** No bet is reserved twice, and a release only meets a RESERVED or RELEASED entry. */
  predicate Disciplined(day: Day, op: Op) {
    match op
    case Reserve(betId) => !Known(day, betId)
    case Confirm(_) => true
    case Release(betId) => FindSlot(day.slots, betId, {CONFIRMED}).None?
  }

  ghost predicate DisciplinedRun(max: int, day: Day, ops: seq<Op>)
    decreases |ops|
  {
    ops != [] ==> Disciplined(day, ops[0]) && DisciplinedRun(max, TxStep(max, day, ops[0]), ops[1..])
  }

  lemma EveryStatus(s: SlotStatus)
    ensures s in ANY_STATUS
  {
    match s
    case RESERVED =>
    case CONFIRMED =>
    case RELEASED =>
  }

  lemma DistinctFind(day: Day, betId: string, status: SlotStatus)
    requires DistinctBets(day.slots)
    ensures FindSlot(day.slots, betId, {status}).Some? ==>
              FindSlot(day.slots, betId, ANY_STATUS) == FindSlot(day.slots, betId, {status})
    ensures Known(day, betId) && day.slots[FindSlot(day.slots, betId, ANY_STATUS).value].status == status ==>
              FindSlot(day.slots, betId, {status}) == FindSlot(day.slots, betId, ANY_STATUS)
  {
  }

  lemma DisciplinedStepAgrees(max: int, day: Day, op: Op)
    requires DistinctBets(day.slots) && Disciplined(day, op)
    ensures TxStep(max, day, op) == StrictStep(max, day, op)
    ensures DistinctBets(TxStep(max, day, op).slots)
  {
    DistinctFind(day, op.betId, RESERVED);
    DistinctFind(day, op.betId, CONFIRMED);
    forall j | 0 <= j < |day.slots| ensures day.slots[j].status in ANY_STATUS {
      EveryStatus(day.slots[j].status);
    }
  }

  /** On disciplined runs the transactional ledger and the reference ledger are the same:
      slots, statuses and both counters. */
  lemma {:induction false} TransactionalSimulatesReference(max: int, day: Day, ops: seq<Op>)
    requires DistinctBets(day.slots) && DisciplinedRun(max, day, ops)
    ensures Run(Tx(max), day, ops) == Run(Strict(max), day, ops)
    decreases |ops|
  {
    if ops != [] {
      DisciplinedStepAgrees(max, day, ops[0]);
      TransactionalSimulatesReference(max, TxStep(max, day, ops[0]), ops[1..]);
    }
  }

  /** A release that meets a CONFIRMED entry while some entry is still RESERVED. */
  predicate Drifts(day: Day, op: Op) {
    && op.Release?
    && FindSlot(day.slots, op.betId, ANY_STATUS).Some?
    && day.slots[FindSlot(day.slots, op.betId, ANY_STATUS).value].status == CONFIRMED
    && day.reserved > 0
  }

  /** Exactly when one step of the transactional ledger keeps its counters right. */
  lemma TransactionalStepAccuracy(max: int, day: Day, op: Op)
    requires Accurate(day)
    ensures Accurate(TxStep(max, day, op)) <==> !Drifts(day, op)
  {
    if op.Reserve? {
      assert (day.slots + [Slot(op.betId, day.confirmed + day.reserved + 1, RESERVED)])[..|day.slots|] == day.slots;
    } else {
      var found := FindSlot(day.slots, op.betId, ANY_STATUS);
      if found.Some? {
        CountPositive(day.slots, found.value);
        CountUpdateAll(day.slots, found.value, CONFIRMED);
        CountUpdateAll(day.slots, found.value, RELEASED);
      }
    }
  }

  /** From an exact day under the cap, one step stays exact and under the cap exactly when it
      does not drift. */
  lemma TransactionalStepIsExactIff(max: int, day: Day, op: Op)
    requires Inv(max, day)
    ensures Inv(max, TxStep(max, day, op)) <==> !Drifts(day, op)
  {
    TransactionalStepAccuracy(max, day, op);
    if !op.Reserve? {
      var found := FindSlot(day.slots, op.betId, ANY_STATUS);
      if found.Some? {
        CountPositive(day.slots, found.value);
      }
    }
  }

  /** Every state along a run is exact and under the cap. */
  ghost predicate StaysExact(step: (Day, Op) -> Day, max: int, day: Day, ops: seq<Op>)
    decreases |ops|
  {
    Inv(max, day) && (ops != [] ==> StaysExact(step, max, step(day, ops[0]), ops[1..]))
  }

  predicate NeverDrifts(max: int, day: Day, ops: seq<Op>)
    decreases |ops|
  {
    ops != [] ==> !Drifts(day, ops[0]) && NeverDrifts(max, TxStep(max, day, ops[0]), ops[1..])
  }

  /** Any run of the transactional ledger, repeated bet ids included: counters and cap are right in
      every state exactly when no release meets a CONFIRMED entry while another is RESERVED. */
  lemma {:induction false} TransactionalRunIsExactIff(max: int, day: Day, ops: seq<Op>)
    requires Inv(max, day)
    ensures StaysExact(Tx(max), max, day, ops) <==> NeverDrifts(max, day, ops)
    decreases |ops|
  {
    if ops != [] {
      TransactionalStepIsExactIff(max, day, ops[0]);
      if !Drifts(day, ops[0]) {
        TransactionalRunIsExactIff(max, TxStep(max, day, ops[0]), ops[1..]);
      }
    }
  }

  function ActiveSlots(day: Day): nat {
    Count(day.slots, RESERVED) + Count(day.slots, CONFIRMED)
  }

  /** `n` reservations of one bet. */
  function Reserves(betId: string, n: nat): seq<Op> {
    seq(n, _ => Reserve(betId))
  }

  lemma ReserveAddsOne(max: int, day: Day, betId: string)
    requires day.confirmed + day.reserved < max
    ensures var day' := ReserveOn(max, day, betId);
            && day'.confirmed + day'.reserved == day.confirmed + day.reserved + 1
            && ActiveSlots(day') == ActiveSlots(day) + 1
  {
    var slot := Slot(betId, day.confirmed + day.reserved + 1, RESERVED);
    assert (day.slots + [slot])[..|day.slots|] == day.slots;
  }

  /** Reservations fill the day until the counters, not the slots, reach the cap. */
  lemma {:induction false} ReservesFill(max: int, day: Day, betId: string, n: nat)
    requires day.confirmed + day.reserved + n == max
    ensures ActiveSlots(Run(Tx(max), day, Reserves(betId, n))) == ActiveSlots(day) + n
    decreases n
  {
    if n > 0 {
      ReserveAddsOne(max, day, betId);
      assert Reserves(betId, n)[1..] == Reserves(betId, n - 1);
      ReservesFill(max, ReserveOn(max, day, betId), betId, n - 1);
    }
  }

  /** No drift is harmless: reservations alone then fill the day beyond its cap. */
  lemma EveryDriftOverfills(max: int, day: Day, op: Op, betId: string)
    requires Inv(max, day) && Drifts(day, op)
    ensures var n := max - (day.confirmed + day.reserved - 2);
            && n >= 0
            && ActiveSlots(Run(Tx(max), TxStep(max, day, op), Reserves(betId, n))) == max + 1
  {
    var found := FindSlot(day.slots, op.betId, ANY_STATUS).value;
    CountPositive(day.slots, found);
    CountUpdateAll(day.slots, found, RELEASED);
    var n := max - (day.confirmed + day.reserved - 2);
    ReservesFill(max, TxStep(max, day, op), betId, n);
  }

  // ------------------------------------------------------------------ the in-memory twin

  /** The twin confirms an entry that was released. */
  predicate MeetsReleased(day: Day, op: Op) {
    && op.Confirm?
    && FindSlot(day.slots, op.betId, ANY_STATUS).Some?
    && day.slots[FindSlot(day.slots, op.betId, ANY_STATUS).value].status == RELEASED
  }

  /** Its own drift: it does so while others are reserved. */
  predicate Revives(day: Day, op: Op) {
    MeetsReleased(day, op) && day.reserved > 0
  }

  lemma LooseStepAccuracy(max: int, day: Day, op: Op)
    requires Accurate(day)
    ensures Accurate(LooseStep(max, day, op)) <==> !Drifts(day, op) && !Revives(day, op)
  {
    if op.Confirm? {
      var found := FindSlot(day.slots, op.betId, ANY_STATUS);
      if found.Some? {
        CountPositive(day.slots, found.value);
        CountUpdateAll(day.slots, found.value, CONFIRMED);
      }
    } else {
      TransactionalStepAccuracy(max, day, op);
    }
  }

  /** Confirming a released entry breaks the counters if others are reserved, and the cap if the
      confirmed ones fill it: confirm has no test of the cap. */
  predicate Overconfirms(max: int, day: Day, op: Op) {
    MeetsReleased(day, op) && (day.reserved > 0 || day.confirmed >= max)
  }

  /** From an exact day under the cap, a step of the twin stays so exactly when it neither drifts
      nor overconfirms. */
  lemma LooseStepIsExactIff(max: int, day: Day, op: Op)
    requires Inv(max, day)
    ensures Inv(max, LooseStep(max, day, op)) <==> !Drifts(day, op) && !Overconfirms(max, day, op)
  {
    if op.Confirm? {
      LooseStepAccuracy(max, day, op);
      var found := FindSlot(day.slots, op.betId, ANY_STATUS);
      if found.Some? {
        CountPositive(day.slots, found.value);
      }
    } else {
      TransactionalStepIsExactIff(max, day, op);
    }
  }

  function Loose(max: int): (Day, Op) -> Day {
    (day: Day, op: Op) => LooseStep(max, day, op)
  }

  predicate NeverLoose(max: int, day: Day, ops: seq<Op>)
    decreases |ops|
  {
    ops != [] ==>
      && !Drifts(day, ops[0]) && !Overconfirms(max, day, ops[0])
      && NeverLoose(max, LooseStep(max, day, ops[0]), ops[1..])
  }

  /** The same over any run of the twin. */
  lemma {:induction false} LooseRunIsExactIff(max: int, day: Day, ops: seq<Op>)
    requires Inv(max, day)
    ensures StaysExact(Loose(max), max, day, ops) <==> NeverLoose(max, day, ops)
    decreases |ops|
  {
    if ops != [] {
      LooseStepIsExactIff(max, day, ops[0]);
      if !Drifts(day, ops[0]) && !Overconfirms(max, day, ops[0]) {
        LooseRunIsExactIff(max, LooseStep(max, day, ops[0]), ops[1..]);
      }
    }
  }

  /** Two entries of one day that is otherwise empty. */
  function TwoEntries(confirmed: int, reserved: int, a: SlotStatus, b: SlotStatus): Day {
    Day(confirmed, reserved, [Slot("a", 1, a), Slot("b", 1, b)])
  }

  lemma FindTwo(day: Day, a: SlotStatus, b: SlotStatus)
    requires day.slots == [Slot("a", 1, a), Slot("b", 1, b)]
    ensures FindSlot(day.slots, "a", ANY_STATUS) == Some(0) && FindSlot(day.slots, "b", ANY_STATUS) == Some(1)
    ensures forall status :: Count(day.slots, status) == (if a == status then 1 else 0) + (if b == status then 1 else 0)
  {
    EveryStatus(a);
    EveryStatus(b);
    assert day.slots[..1] == [Slot("a", 1, a)] && [Slot("a", 1, a)][..0] == [];
    assert day.slots[0].betId == "a" && day.slots[1].betId == "b";
    forall status ensures Count(day.slots, status) == (if a == status then 1 else 0) + (if b == status then 1 else 0) {
      assert Count([Slot("a", 1, a)], status) == if a == status then 1 else 0;
    }
  }

  lemma FindOne(slot: Slot)
    ensures FindSlot([slot], slot.betId, ANY_STATUS) == Some(0)
  {
    EveryStatus(slot.status);
    assert [slot][..0] == [] && [slot][0] == slot;
  }

  lemma ReserveIntoEmpty(max: int)
    requires max >= 1
    ensures LooseStep(max, EMPTY_DAY, Reserve("a")) == Day(0, 1, [Slot("a", 1, RESERVED)])
  {
    assert [] + [Slot("a", 1, RESERVED)] == [Slot("a", 1, RESERVED)];
  }

  lemma ReleaseOnly(max: int)
    ensures LooseStep(max, Day(0, 1, [Slot("a", 1, RESERVED)]), Release("a")) == Day(0, 0, [Slot("a", 1, RELEASED)])
  {
    FindOne(Slot("a", 1, RESERVED));
    assert [Slot("a", 1, RESERVED)][0 := Slot("a", 1, RELEASED)] == [Slot("a", 1, RELEASED)];
  }

  /** Reserve a, release it, and reserve b in its place. */
  lemma TwinReuses(max: int)
    requires max >= 1
    ensures LooseStep(max, LooseStep(max, LooseStep(max, EMPTY_DAY, Reserve("a")), Release("a")), Reserve("b"))
            == TwoEntries(0, 1, RELEASED, RESERVED)
  {
    ReserveIntoEmpty(max);
    ReleaseOnly(max);
    assert [Slot("a", 1, RELEASED)] + [Slot("b", 1, RESERVED)] == TwoEntries(0, 1, RELEASED, RESERVED).slots;
  }

  lemma TwinConfirms(max: int)
    ensures LooseStep(max, TwoEntries(0, 1, RELEASED, RESERVED), Confirm("b")) == TwoEntries(1, 0, RELEASED, CONFIRMED)
    ensures LooseStep(max, TwoEntries(1, 0, RELEASED, CONFIRMED), Confirm("a")) ==
            TwoEntries(2, 0, CONFIRMED, CONFIRMED)
  {
    FindTwo(TwoEntries(0, 1, RELEASED, RESERVED), RELEASED, RESERVED);
    FindTwo(TwoEntries(1, 0, RELEASED, CONFIRMED), RELEASED, CONFIRMED);
  }

  const REVIVING := [Reserve("a"), Release("a"), Reserve("b"), Confirm("a")]

  /** A released entry is confirmed while another is reserved: the counter then misses that one. */
  lemma RevivingHappens()
    ensures var day := Run(Loose(1), EMPTY_DAY, REVIVING[..3]);
            Revives(day, REVIVING[3]) && Accurate(day) && !Accurate(LooseStep(1, day, REVIVING[3]))
  {
    TwinReuses(1);
    RunThree(Loose(1), EMPTY_DAY, REVIVING[..3]);
    var day := TwoEntries(0, 1, RELEASED, RESERVED);
    FindTwo(day, RELEASED, RESERVED);
    LooseStepAccuracy(1, day, Confirm("a"));
  }

  const TWIN_OPS := [Reserve("a"), Release("a"), Reserve("b"), Confirm("b"), Confirm("a")]

  /** The twin exceeds a cap of one with every counter right: no step drifts or revives, and two
      entries end CONFIRMED. */
  lemma TwinExceedsTheCap()
    ensures var d3 := Run(Loose(1), EMPTY_DAY, TWIN_OPS[..3]);
            var d4 := LooseStep(1, d3, TWIN_OPS[3]);
            var d5 := LooseStep(1, d4, TWIN_OPS[4]);
            && !Drifts(d3, TWIN_OPS[3]) && !Revives(d3, TWIN_OPS[3])
            && !Drifts(d4, TWIN_OPS[4]) && !Revives(d4, TWIN_OPS[4])
            && Accurate(d3) && Accurate(d4) && Accurate(d5) && Count(d5.slots, CONFIRMED) == 2
  {
    TwinReuses(1);
    RunThree(Loose(1), EMPTY_DAY, TWIN_OPS[..3]);
    var d3, d4 := TwoEntries(0, 1, RELEASED, RESERVED), TwoEntries(1, 0, RELEASED, CONFIRMED);
    FindTwo(d3, RELEASED, RESERVED);
    FindTwo(d4, RELEASED, CONFIRMED);
    FindTwo(TwoEntries(2, 0, CONFIRMED, CONFIRMED), CONFIRMED, CONFIRMED);
    TwinConfirms(1);
  }

  lemma RunThree(step: (Day, Op) -> Day, day: Day, ops: seq<Op>)
    requires |ops| == 3
    ensures Run(step, day, ops) == step(step(step(day, ops[0]), ops[1]), ops[2])
  {
    var d1 := step(day, ops[0]);
    var d2 := step(d1, ops[1]);
    assert ops[1..][1..] == ops[2..] && ops[2..][1..] == [];
    RunOne(step, day, ops);
    RunOne(step, d1, ops[1..]);
    RunOne(step, d2, ops[2..]);
  }

  // ------------------------------------------------------------------ what the drift costs

  const DRIFT_OPS := [Reserve("a"), Reserve("b"), Confirm("b"), Release("b"), Reserve("c"), Reserve("d")]

  const SLOT_A := Slot("a", 1, RESERVED)
  const DRIFTED := Day(0, 0, [SLOT_A, Slot("b", 2, RELEASED)])
  const OVERFULL := Day(0, 2, [SLOT_A, Slot("b", 2, RELEASED), Slot("c", 1, RESERVED), Slot("d", 2, RESERVED)])

  lemma DriftFirstHalf()
    ensures var d2 := TxStep(2, TxStep(2, EMPTY_DAY, DRIFT_OPS[0]), DRIFT_OPS[1]);
            TxStep(2, TxStep(2, d2, DRIFT_OPS[2]), DRIFT_OPS[3]) == DRIFTED
  {
    var d1, d2 := Day(0, 1, [SLOT_A]), Day(0, 2, [SLOT_A, Slot("b", 2, RESERVED)]);
    var d3 := Day(1, 1, [SLOT_A, Slot("b", 2, CONFIRMED)]);
    assert TxStep(2, EMPTY_DAY, Reserve("a")) == d1 && TxStep(2, d1, Reserve("b")) == d2;
    assert FindSlot([SLOT_A], "b", ANY_STATUS) == None;
    assert d2.slots[..1] == [SLOT_A] && FindSlot(d2.slots, "b", ANY_STATUS) == Some(1);
    assert TxStep(2, d2, Confirm("b")) == d3;
    assert d3.slots[..1] == [SLOT_A] && FindSlot(d3.slots, "b", ANY_STATUS) == Some(1);
  }

  lemma DriftSecondHalf()
    ensures TxStep(2, TxStep(2, DRIFTED, DRIFT_OPS[4]), DRIFT_OPS[5]) == OVERFULL
    ensures Count(OVERFULL.slots, RESERVED) == 3
  {
    var d5 := Day(0, 1, DRIFTED.slots + [Slot("c", 1, RESERVED)]);
    assert TxStep(2, DRIFTED, Reserve("c")) == d5;
    assert OVERFULL.slots[..3] == d5.slots && d5.slots[..2] == DRIFTED.slots && DRIFTED.slots[..1] == [SLOT_A];
    assert Count([SLOT_A], RESERVED) == 1 && Count(DRIFTED.slots, RESERVED) == 1 && Count(d5.slots, RESERVED) == 2;
  }

  lemma RunOne(step: (Day, Op) -> Day, day: Day, ops: seq<Op>)
    requires ops != []
    ensures Run(step, day, ops) == Run(step, step(day, ops[0]), ops[1..])
  {
  }

  /** What the drift costs: with a cap of two, three slots end up reserved. */
  lemma DriftBreaksTheCap()
    ensures Count(Run(Tx(2), EMPTY_DAY, DRIFT_OPS).slots, RESERVED) == 3
  {
    var s, o := Tx(2), DRIFT_OPS;
    DriftFirstHalf();
    DriftSecondHalf();
    var d1 := s(EMPTY_DAY, o[0]);
    var d2 := s(d1, o[1]);
    var d3 := s(d2, o[2]);
    var d5 := s(DRIFTED, o[4]);
    RunOne(s, EMPTY_DAY, o);
    RunOne(s, d1, o[1..]);
    RunOne(s, d2, o[2..]);
    RunOne(s, d3, o[3..]);
    RunOne(s, DRIFTED, o[4..]);
    RunOne(s, d5, o[5..]);
    assert o[1..][1..] == o[2..] && o[2..][1..] == o[3..] && o[3..][1..] == o[4..];
    assert o[4..][1..] == o[5..] && o[5..][1..] == [];
  }

  // ------------------------------------------------------------------ the objects

  function DayOf(days: map<string, Day>, key: string): Day {
    if key in days then days[key] else EMPTY_DAY
  }

  /** The reference ledger. */
  class InMemoryDailyEntryLedger {
    const maxEntries: int
    var days: map<string, Day>

    constructor (maxEntries: int)
      ensures this.maxEntries == maxEntries && days == map[]
    {
      this.maxEntries, days := maxEntries, map[];
    }

    method ReserveSlot(dailyKey: string, betId: string) returns (success: bool)
      modifies this`days
      ensures days == old(days)[dailyKey := StrictStep(maxEntries, DayOf(old(days), dailyKey), Reserve(betId))]
      ensures var before, after := DayOf(old(days), dailyKey), DayOf(days, dailyKey);
              && success == (before.confirmed + before.reserved < maxEntries)
              && (success ==>
                    after.slots == before.slots + [Slot(betId, before.confirmed + before.reserved + 1, RESERVED)])
    {
      var day := DayOf(days, dailyKey);
      var active := day.confirmed + day.reserved;
      success := active < maxEntries;
      if success {
        day := day.(slots := day.slots + [Slot(betId, active + 1, RESERVED)]);
        day := day.(reserved := day.reserved + 1);
      }
      days := days[dailyKey := day];
    }

    method ConfirmSlot(dailyKey: string, betId: string) returns (ok: bool)
      modifies this`days
      ensures days == old(days)[dailyKey := StrictStep(maxEntries, DayOf(old(days), dailyKey), Confirm(betId))]
      ensures ok == FindSlot(DayOf(old(days), dailyKey).slots, betId, {RESERVED}).Some?
    {
      var day := DayOf(days, dailyKey);
      var found := FindSlot(day.slots, betId, {RESERVED});
      ok := found.Some?;
      if ok {
        day := WithStatus(day, found.value, CONFIRMED);
        day := day.(reserved := Less(day.reserved), confirmed := day.confirmed + 1);
      }
      days := days[dailyKey := day];
    }

    method ReleaseSlot(dailyKey: string, betId: string) returns (ok: bool)
      modifies this`days
      ensures days == old(days)[dailyKey := StrictStep(maxEntries, DayOf(old(days), dailyKey), Release(betId))]
      ensures ok == FindSlot(DayOf(old(days), dailyKey).slots, betId, {RESERVED}).Some?
    {
      var day := DayOf(days, dailyKey);
      var found := FindSlot(day.slots, betId, {RESERVED});
      ok := found.Some?;
      if ok {
        day := WithStatus(day, found.value, RELEASED);
        day := day.(reserved := Less(day.reserved));
      }
      days := days[dailyKey := day];
    }
  }

  /** How one attempt at a transaction ends: aborted with its first statement or later, or broken; Lost
      commits and still reports an error. */
  datatype Fault = Clean | AbortedAtStart | Aborted | Broken | Lost

  const MAX_ATTEMPTS := 3

  predicate Aborts(fault: Fault) {
    fault.AbortedAtStart? || fault.Aborted?
  }

  /** confirm raises for an entry that is missing or released. */
  predicate Refused(day: Day, op: Op) {
    op.Confirm? &&
    (var found := FindSlot(day.slots, op.betId, ANY_STATUS);
     found.None? || day.slots[found.value].status == RELEASED)
  }

  /** The bet has no entry, or its first one was released. */
  predicate Unconfirmable(day: Day, betId: string) {
    forall i | 0 <= i < |day.slots| && day.slots[i].betId == betId ::
      || day.slots[i].status == RELEASED
      || exists j | 0 <= j < i :: day.slots[j].betId == betId
  }

  /** Only a confirm is ever refused, and then for that reason. */
  lemma RefusedIff(day: Day, op: Op)
    ensures Refused(day, op) <==> op.Confirm? && Unconfirmable(day, op.betId)
  {
    var found := FindSlot(day.slots, op.betId, ANY_STATUS);
    forall s: SlotStatus ensures s in ANY_STATUS {
      EveryStatus(s);
    }
    if found.Some? {
      assert day.slots[found.value].betId == op.betId;
    }
  }

  /** One attempt: the day it leaves, whether it reports success, and whether it may be retried. */
  function Attempt(max: int, day: Day, op: Op, fault: Fault): (Day, bool, bool) {
    if fault.AbortedAtStart? then (day, false, true)
    else if Refused(day, op) then (day, false, false)
    else (if fault.Clean? || fault.Lost? then TxStep(max, day, op) else day, fault.Clean?, fault.Aborted?)
  }

  /** The retry loop from attempt `k` on; `gaps(k)` are the operations of others before the next one. */
  function PerformAmong(max: int, day: Day, op: Op, faults: nat -> Fault, gaps: nat -> seq<Op>, k: nat): (Day, bool)
    requires k < MAX_ATTEMPTS
    decreases MAX_ATTEMPTS - k
  {
    var (day', ok, retry) := Attempt(max, day, op, faults(k));
    if retry && k + 1 < MAX_ATTEMPTS then
      PerformAmong(max, Run(Tx(max), day', gaps(k)), op, faults, gaps, k + 1)
    else (day', ok)
  }

  /** The gaps from `k` on, up to but excluding `n`. */
  function GapsTo(gaps: nat -> seq<Op>, k: nat, n: nat): seq<Op>
    requires k <= n
    decreases n - k
  {
    if k == n then [] else gaps(k) + GapsTo(gaps, k + 1, n)
  }

  lemma {:induction false} RunConcat(step: (Day, Op) -> Day, day: Day, a: seq<Op>, b: seq<Op>)
    ensures Run(step, day, a + b) == Run(step, Run(step, day, a), b)
    decreases |a|
  {
    if a == [] {
      assert a + b == b;
    } else {
      assert (a + b)[1..] == a[1..] + b;
      RunConcat(step, step(day, a[0]), a[1..], b);
    }
  }

  function NoGaps(k: nat): seq<Op> {
    []
  }

  /** The operation itself, if an attempt of it committed. */
  function Effect(op: Op, committed: bool): seq<Op> {
    if committed then [op] else []
  }

  /** An operation among those of others is a run: the others' operations before its last attempt, and
      then it takes effect once or not at all. Success means once, and then it was not refused. So
      everything proved of runs holds of interleaved and retried operations. */
  lemma {:induction false} PerformAmongIsRun(max: int, day: Day, op: Op, faults: nat -> Fault, gaps: nat -> seq<Op>,
                                             k: nat) returns (n: nat, committed: bool)
    requires k < 3
    ensures k <= n < 3
    ensures var (day', ok) := PerformAmong(max, day, op, faults, gaps, k);
            && Run(Tx(max), day, GapsTo(gaps, k, n) + Effect(op, committed)) == day'
            && (ok ==> committed)
            && (committed ==>
                  !(op.Confirm? && Unconfirmable(Run(Tx(max), day, GapsTo(gaps, k, n)), op.betId)))
    decreases MAX_ATTEMPTS - k
  {
    var (day1, ok, retry) := Attempt(max, day, op, faults(k));
    if retry && k + 1 < MAX_ATTEMPTS {
      var day2 := Run(Tx(max), day1, gaps(k));
      n, committed := PerformAmongIsRun(max, day2, op, faults, gaps, k + 1);
      var rest := GapsTo(gaps, k + 1, n);
      RunConcat(Tx(max), day, gaps(k), rest);
      RunConcat(Tx(max), day, gaps(k), rest + Effect(op, committed));
      assert gaps(k) + rest + Effect(op, committed) == gaps(k) + (rest + Effect(op, committed));
    } else {
      n, committed := k, !Refused(day, op) && (faults(k).Clean? || faults(k).Lost?);
      assert [] + Effect(op, committed) == Effect(op, committed);
      RefusedIff(day, op);
      if committed {
        assert Run(Tx(max), day, [op]) == Run(Tx(max), TxStep(max, day, op), []);
      }
    }
  }

  /** From attempt `k` on: aborted attempts and then a clean one, before attempts run out. */
  predicate CleanAfterAborts(faults: nat -> Fault, k: nat)
    decreases MAX_ATTEMPTS - k
  {
    k < MAX_ATTEMPTS && (faults(k).Clean? || (Aborts(faults(k)) && CleanAfterAborts(faults, k + 1)))
  }

  /** One of the three attempts is clean, and every one before it was aborted. */
  ghost predicate CleanOfThree(faults: nat -> Fault) {
    exists n: nat | n < 3 ::
      faults(n) == Clean && forall j: nat | j < n :: faults(j) == AbortedAtStart || faults(j) == Aborted
  }

  lemma CleanOfThreeIff(faults: nat -> Fault)
    ensures CleanAfterAborts(faults, 0) <==> CleanOfThree(faults)
  {
    assert CleanAfterAborts(faults, 2) == faults(2).Clean?;
    assert CleanAfterAborts(faults, 1) == (faults(1).Clean? || (Aborts(faults(1)) && CleanAfterAborts(faults, 2)));
  }

  /** The transactional ledger of one day, with its retry loop: 40001 (Aborted) is retried
      until the third attempt, everything else is raised. */
  class DailyEntryLedger {
    const maxEntries: int
    var day: Day

    constructor (maxEntries: int)
      ensures this.maxEntries == maxEntries && day == EMPTY_DAY
    {
      this.maxEntries, day := maxEntries, EMPTY_DAY;
    }

    /** One attempt. The body raises for a missing or released entry on confirm. */
    method Once(op: Op, fault: Fault) returns (ok: bool, retry: bool)
      modifies this`day
      ensures (day, ok, retry) == Attempt(maxEntries, old(day), op, fault)
    {
      if fault.AbortedAtStart? {
        return false, true;
      }
      var work := day;
      var found := FindSlot(work.slots, op.betId, ANY_STATUS);
      match op {
        case Reserve(betId) =>
          var active := work.confirmed + work.reserved;
          if active < maxEntries {
            work := work.(slots := work.slots + [Slot(betId, active + 1, RESERVED)]);
            work := work.(reserved := work.reserved + 1);
          }
        case Confirm(_) =>
          if found.None? {
            return false, false;
          }
          if work.slots[found.value].status == RELEASED {
            return false, false;
          }
          if work.slots[found.value].status == RESERVED {
            work := WithStatus(work, found.value, CONFIRMED);
            work := work.(confirmed := work.confirmed + 1, reserved := Less(work.reserved));
          }
        case Release(_) =>
          if found.Some? && work.slots[found.value].status != RELEASED {
            var wasConfirmed := work.slots[found.value].status == CONFIRMED;
            work := WithStatus(work, found.value, RELEASED);
            work := work.(reserved := Less(work.reserved));
            if wasConfirmed {
              work := work.(confirmed := Less(work.confirmed));
            }
          }
      }
      if fault.Clean? || fault.Lost? {
        day := work;
      }
      return fault.Clean?, fault.Aborted?;
    }

    /** Any faults on the three attempts, with nothing in between: the operation takes effect once or not
        at all, and success means once. */
    method Perform(op: Op, faults: nat -> Fault) returns (ok: bool)
      modifies this`day
      ensures day == old(day) || day == TxStep(maxEntries, old(day), op)
      ensures ok ==> day == TxStep(maxEntries, old(day), op)
      ensures ok <==> !(op.Confirm? && Unconfirmable(old(day), op.betId)) && CleanOfThree(faults)
      ensures (day, ok) == PerformAmong(maxEntries, old(day), op, faults, NoGaps, 0)
    {
      RefusedIff(day, op);
      CleanOfThreeIff(faults);
      var attempt := 0;
      var retry := true;
      ok := false;
      while retry && attempt < MAX_ATTEMPTS
        invariant 0 <= attempt <= MAX_ATTEMPTS
        invariant retry ==> day == old(day) && !ok
        invariant day == old(day) || day == TxStep(maxEntries, old(day), op)
        invariant ok ==> day == TxStep(maxEntries, old(day), op)
        invariant retry && !Refused(old(day), op) ==> CleanAfterAborts(faults, 0) == CleanAfterAborts(faults, attempt)
        invariant !retry && !Refused(old(day), op) ==> ok == CleanAfterAborts(faults, 0)
        invariant Refused(old(day), op) ==> !ok
        invariant PerformAmong(maxEntries, old(day), op, faults, NoGaps, 0) ==
                  if retry && attempt < MAX_ATTEMPTS then PerformAmong(maxEntries, day, op, faults, NoGaps, attempt)
                  else (day, ok)
        decreases MAX_ATTEMPTS - attempt
      {
        ok, retry := Once(op, faults(attempt));
        attempt := attempt + 1;
      }
    }
  }

  /** The in-memory twin of the transactional ledger. */
  class InMemoryTwin {
    const maxEntries: int
    var day: Day

    constructor (maxEntries: int)
      ensures this.maxEntries == maxEntries && day == EMPTY_DAY
    {
      this.maxEntries, day := maxEntries, EMPTY_DAY;
    }

    method ConfirmEntry(betId: string)
      modifies this`day
      ensures day == LooseStep(maxEntries, old(day), Confirm(betId))
    {
      var found := FindSlot(day.slots, betId, ANY_STATUS);
      if found.None? || day.slots[found.value].status == CONFIRMED {
        return;
      }
      day := WithStatus(day, found.value, CONFIRMED);
      day := day.(confirmed := day.confirmed + 1);
      day := day.(reserved := Less(day.reserved));
    }

    method ReleaseEntry(betId: string)
      modifies this`day
      ensures day == LooseStep(maxEntries, old(day), Release(betId))
    {
      var found := FindSlot(day.slots, betId, ANY_STATUS);
      if found.None? || day.slots[found.value].status == RELEASED {
        return;
      }
      var wasConfirmed := day.slots[found.value].status == CONFIRMED;
      day := WithStatus(day, found.value, RELEASED);
      day := day.(reserved := Less(day.reserved));
      if wasConfirmed {
        day := day.(confirmed := Less(day.confirmed));
      }
    }
  }
}
