/** The slot numbers of a day's entries: when those of the active ones are distinct. */
module DailySlots {
  import opened DailyLedger
  import opened Outcomes

  predicate IsActive(slot: Slot) {
    slot.status != RELEASED
  }

  ghost predicate DistinctNumbers(slots: seq<Slot>) {
    forall i, j | 0 <= i < j < |slots| && IsActive(slots[i]) && IsActive(slots[j]) ::
      slots[i].slotNumber != slots[j].slotNumber
  }

  ghost predicate NumbersWithin(slots: seq<Slot>, n: int) {
    forall i | 0 <= i < |slots| && IsActive(slots[i]) :: 1 <= slots[i].slotNumber <= n
  }

  /** The active entries are numbered from one to their count, each number once. */
  ghost predicate Numbered(day: Day) {
    DistinctNumbers(day.slots) && NumbersWithin(day.slots, day.confirmed + day.reserved)
  }

  function ActiveNumbers(slots: seq<Slot>): set<int> {
    if slots == [] then {}
    else
      var front, last := slots[..|slots| - 1], slots[|slots| - 1];
      ActiveNumbers(front) + if IsActive(last) then {last.slotNumber} else {}
  }

  lemma {:induction false} ActiveNumbersAre(slots: seq<Slot>, x: int)
    ensures x in ActiveNumbers(slots) <==> exists i | 0 <= i < |slots| :: IsActive(slots[i]) && slots[i].slotNumber == x
  {
    if slots != [] {
      var front := slots[..|slots| - 1];
      ActiveNumbersAre(front, x);
      assert forall i | 0 <= i < |front| :: front[i] == slots[i];
      if IsActive(slots[|slots| - 1]) && slots[|slots| - 1].slotNumber == x {
        assert x in ActiveNumbers(slots);
      }
    }
  }

  /** Distinct numbers are as many as there are active entries. */
  lemma {:induction false} NumbersCount(slots: seq<Slot>)
    requires DistinctNumbers(slots)
    ensures |ActiveNumbers(slots)| == Count(slots, RESERVED) + Count(slots, CONFIRMED)
  {
    if slots != [] {
      var front, last := slots[..|slots| - 1], slots[|slots| - 1];
      assert forall i | 0 <= i < |front| :: front[i] == slots[i];
      NumbersCount(front);
      ActiveNumbersAre(front, last.slotNumber);
      if IsActive(last) {
        assert last.slotNumber !in ActiveNumbers(front);
      }
    }
  }

  lemma {:induction false} AtMostBound(s: set<int>, m: nat)
    requires forall x <- s :: 1 <= x <= m
    ensures |s| <= m
    decreases m
  {
    if m > 0 {
      AtMostBound(s - {m}, m - 1);
    } else {
      forall x ensures x !in s {
      }
      assert s == {};
    }
  }

  /** So distinct numbers within a bound are no more than it. */
  lemma ActiveWithin(slots: seq<Slot>, m: nat)
    requires DistinctNumbers(slots) && NumbersWithin(slots, m)
    ensures Count(slots, RESERVED) + Count(slots, CONFIRMED) <= m
  {
    forall x | x in ActiveNumbers(slots) ensures 1 <= x <= m {
      ActiveNumbersAre(slots, x);
    }
    NumbersCount(slots);
    AtMostBound(ActiveNumbers(slots), m);
  }

  /** Where all numbers are used, the highest one is. */
  lemma HighestIsUsed(day: Day) returns (i: nat)
    requires Accurate(day) && Numbered(day) && day.confirmed + day.reserved > 0
    ensures i < |day.slots| && IsActive(day.slots[i]) && day.slots[i].slotNumber == day.confirmed + day.reserved
  {
    var n := day.confirmed + day.reserved;
    if forall j | 0 <= j < |day.slots| && IsActive(day.slots[j]) :: day.slots[j].slotNumber != n {
      ActiveWithin(day.slots, n - 1);
      assert false;
    }
    i :| 0 <= i < |day.slots| && IsActive(day.slots[i]) && day.slots[i].slotNumber == n;
  }

  /** A release of an active entry that is not the highest, or that drifts. */
  predicate LeavesGap(day: Day, op: Op) {
    && op.Release?
    && FindSlot(day.slots, op.betId, ANY_STATUS).Some?
    && var slot := day.slots[FindSlot(day.slots, op.betId, ANY_STATUS).value];
       IsActive(slot) && (Drifts(day, op) || slot.slotNumber != day.confirmed + day.reserved)
  }

  lemma ReserveNumbers(max: int, day: Day, betId: string)
    requires Inv(max, day) && Numbered(day)
    ensures Numbered(ReserveOn(max, day, betId))
  {
  }

  lemma ConfirmNumbers(max: int, day: Day, betId: string)
    requires Inv(max, day) && Numbered(day)
    ensures Numbered(TxStep(max, day, Confirm(betId)))
  {
    var found := FindSlot(day.slots, betId, ANY_STATUS);
    if found.Some? {
      CountPositive(day.slots, found.value);
    }
  }

  lemma ReleaseNumbersIff(max: int, day: Day, betId: string, i: nat)
    requires Inv(max, day) && Numbered(day) && i < |day.slots| && IsActive(day.slots[i])
    requires FindSlot(day.slots, betId, ANY_STATUS) == Some(i)
    ensures Numbered(ReleaseAny(day, betId)) <==> !LeavesGap(day, Release(betId))
  {
    var n, day' := day.confirmed + day.reserved, ReleaseAny(day, betId);
    EveryStatus(day.slots[i].status);
    CountPositive(day.slots, i);
    CountUpdateAll(day.slots, i, RELEASED);
    assert day'.slots == day.slots[i := day.slots[i].(status := RELEASED)];
    if LeavesGap(day, Release(betId)) && Numbered(day') {
      if Drifts(day, Release(betId)) {
        ActiveWithin(day'.slots, n - 2);
      } else {
        forall j | 0 <= j < |day.slots| && IsActive(day.slots[j]) ensures 1 <= day.slots[j].slotNumber <= n - 1 {
          assert j != i ==> day'.slots[j] == day.slots[j];
        }
        ActiveWithin(day.slots, n - 1);
      }
      assert false;
    }
  }

  /** One step keeps the numbers of the active entries exactly when it leaves no gap. */
  lemma NumbersStepIff(max: int, day: Day, op: Op)
    requires Inv(max, day) && Numbered(day)
    ensures Inv(max, TxStep(max, day, op)) && Numbered(TxStep(max, day, op)) <==> !LeavesGap(day, op)
  {
    TransactionalStepIsExactIff(max, day, op);
    match op
    case Reserve(betId) => ReserveNumbers(max, day, betId);
    case Confirm(betId) => ConfirmNumbers(max, day, betId);
    case Release(betId) =>
      var found := FindSlot(day.slots, betId, ANY_STATUS);
      if found.Some? && IsActive(day.slots[found.value]) {
        ReleaseNumbersIff(max, day, betId, found.value);
      }
  }

  ghost predicate StaysNumbered(max: int, day: Day, ops: seq<Op>)
    decreases |ops|
  {
    Inv(max, day) && Numbered(day) && (ops != [] ==> StaysNumbered(max, TxStep(max, day, ops[0]), ops[1..]))
  }

  predicate NeverLeavesGap(max: int, day: Day, ops: seq<Op>)
    decreases |ops|
  {
    ops != [] ==> !LeavesGap(day, ops[0]) && NeverLeavesGap(max, TxStep(max, day, ops[0]), ops[1..])
  }

  /** Over any run the active entries are numbered from one to their count, each number once, in every
      state exactly when each release of an active entry meets the highest one and does not drift. */
  lemma {:induction false} NumbersIff(max: int, day: Day, ops: seq<Op>)
    requires Inv(max, day) && Numbered(day)
    ensures StaysNumbered(max, day, ops) <==> NeverLeavesGap(max, day, ops)
    decreases |ops|
  {
    if ops != [] {
      NumbersStepIff(max, day, ops[0]);
      if !LeavesGap(day, ops[0]) {
        NumbersIff(max, TxStep(max, day, ops[0]), ops[1..]);
      }
    }
  }

  /** No gap is harmless: after one, unless it drifts, the very next reservation goes through and repeats
      the number of an active entry. */
  lemma EveryGapRepeats(max: int, day: Day, op: Op, betId: string) returns (i: nat)
    requires Inv(max, day) && Numbered(day) && LeavesGap(day, op) && !Drifts(day, op)
    ensures var slots := TxStep(max, TxStep(max, day, op), Reserve(betId)).slots;
            && i < |day.slots| && |slots| == |day.slots| + 1
            && IsActive(slots[i]) && IsActive(slots[|day.slots|])
            && slots[i].slotNumber == slots[|day.slots|].slotNumber
  {
    var found := FindSlot(day.slots, op.betId, ANY_STATUS).value;
    CountPositive(day.slots, found);
    i := HighestIsUsed(day);
  }

  /** Such a release is reachable: two reservations, and the first is released. */
  lemma GapHappens(max: int)
    requires max >= 2
    ensures var day := TxStep(max, TxStep(max, EMPTY_DAY, Reserve("a")), Reserve("b"));
            Inv(max, day) && Numbered(day) && LeavesGap(day, Release("a")) && !Drifts(day, Release("a"))
  {
    var d1 := TxStep(max, EMPTY_DAY, Reserve("a"));
    var d2 := TxStep(max, d1, Reserve("b"));
    NumbersStepIff(max, EMPTY_DAY, Reserve("a"));
    NumbersStepIff(max, d1, Reserve("b"));
    assert d2.slots == [Slot("a", 1, RESERVED), Slot("b", 2, RESERVED)];
    EveryStatus(RESERVED);
    assert d2.slots[0].betId == "a";
    assert FindSlot(d2.slots, "a", ANY_STATUS) == Some(0);
  }
}
