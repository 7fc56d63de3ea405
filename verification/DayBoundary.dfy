/** The next day boundary: a scan in quarter-hour steps and a binary refinement, over any function
    from instants (epoch milliseconds) to day keys. */
module DayBoundary {

  const STEP := 900_000
  const MAX_STEPS := 100
  const RESOLUTION := 1_000
  const DAY_MS := 86_400_000

  predicate ChangedAfter(key: int -> string, date: int, i: int) {
    key(date + i * STEP) != key(date)
  }

  /** The first step in which the scan sees a change. */
  ghost predicate FirstChange(key: int -> string, date: int, i: int) {
    1 <= i <= MAX_STEPS && ChangedAfter(key, date, i) && forall j | 1 <= j < i :: !ChangedAfter(key, date, j)
  }

  /** The key changes once in the scanned range, at `b`, and stays changed. */
  ghost predicate ChangesOnceAt(key: int -> string, date: int, b: int) {
    && date < b <= date + 90_000_000
    && (forall t | date <= t < b :: key(t) == key(date))
    && (forall t | b <= t <= date + 90_000_000 :: key(t) != key(date))
  }

  function NextUtcMidnight(date: int): int {
    (date / DAY_MS + 1) * DAY_MS
  }

  /** The narrowest and the widest interval after `k` halvings of one step. */
  function Narrowest(k: nat): int {
    if k == 0 then STEP else Narrowest(k - 1) / 2
  }

  function Widest(k: nat): int {
    if k == 0 then STEP else (Widest(k - 1) + 1) / 2
  }

  lemma {:induction false} WidthAtTen()
    ensures Narrowest(9) > RESOLUTION >= Widest(10)
  {
    assert Narrowest(1) == 450_000 == Widest(1);
    assert Narrowest(2) == 225_000 == Widest(2);
    assert Narrowest(3) == 112_500 == Widest(3);
    assert Narrowest(4) == 56_250 == Widest(4);
    assert Narrowest(5) == 28_125 == Widest(5);
    assert Narrowest(6) == 14_062 && Widest(6) == 14_063;
    assert Narrowest(7) == 7_031 && Widest(7) == 7_032;
    assert Narrowest(8) == 3_515 && Widest(8) == 3_516;
    assert Narrowest(9) == 1_757 && Widest(9) == 1_758;
  }

  lemma {:induction false} WidthsShrink(j: nat, k: nat)
    requires j <= k
    ensures Narrowest(k) <= Narrowest(j) && Widest(k) <= Widest(j) && 1 <= Widest(k) && 0 <= Narrowest(k)
    decreases k
  {
    if j < k {
      WidthsShrink(j, k - 1);
    } else if k > 0 {
      WidthsShrink(k - 1, k - 1);
    }
  }

  /** The refinement of one step always takes exactly ten halvings. */
  method Refine(key: int -> string, currentKey: string, from: int) returns (hi: int, lo: int, ghost halvings: nat)
    requires key(from) == currentKey != key(from + 900_000)
    ensures from <= lo < hi <= from + 900_000 && hi - lo <= 1_000
    ensures key(lo) == currentKey != key(hi)
    ensures halvings == 10
  {
    lo, hi := from, from + STEP;
    halvings := 0;
    WidthAtTen();
    while hi - lo > RESOLUTION
      invariant from <= lo < hi <= from + STEP
      invariant key(lo) == currentKey != key(hi)
      invariant halvings <= 10 && Narrowest(halvings) <= hi - lo <= Widest(halvings)
      decreases hi - lo
    {
      var mid := (lo + hi) / 2;
      if key(mid) == currentKey {
        lo := mid;
      } else {
        hi := mid;
      }
      halvings := halvings + 1;
    }
    if halvings <= 9 {
      WidthsShrink(halvings, 9);
    }
  }

  method GetNextDayBoundaryMs(date: int, key: int -> string) returns (boundary: int)
    ensures boundary > date
    ensures (exists i | 1 <= i <= 100 :: key(date + i * 900_000) != key(date)) ==>
              && boundary <= date + 90_000_000 && key(boundary) != key(date)
              && exists t | boundary - 1_000 <= t < boundary :: key(t) == key(date)
    ensures forall i | 1 <= i <= 100 && key(date + i * 900_000) != key(date) :: boundary <= date + i * 900_000
    ensures forall i | FirstChange(key, date, i) :: date + (i - 1) * 900_000 < boundary <= date + i * 900_000
    ensures forall b | ChangesOnceAt(key, date, b) :: b <= boundary < b + 1_000
    ensures (forall i | 1 <= i <= 100 :: key(date + i * 900_000) == key(date)) ==>
              boundary % 86_400_000 == 0 && date < boundary <= date + 86_400_000
  {
    var currentKey := key(date);
    var t := date;
    for i := 0 to MAX_STEPS
      invariant t == date + i * STEP && key(t) == currentKey
      invariant forall j | 1 <= j <= i :: !ChangedAfter(key, date, j)
    {
      t := t + STEP;
      assert t == date + (i + 1) * 900_000;
      if key(t) != currentKey {
        assert ChangedAfter(key, date, i + 1);
        var lo;
        ghost var halvings;
        boundary, lo, halvings := Refine(key, currentKey, t - STEP);
        assert boundary - RESOLUTION <= lo < boundary && key(lo) == key(date);
        forall j | 1 <= j <= 100 && key(date + j * 900_000) != key(date) ensures boundary <= date + j * 900_000 {
          assert ChangedAfter(key, date, j);
        }
        return;
      }
      assert !ChangedAfter(key, date, i + 1);
    }
    boundary := NextUtcMidnight(date);
    forall j | 1 <= j <= 100 ensures key(date + j * 900_000) == key(date) {
      assert !ChangedAfter(key, date, j);
    }
    assert !ChangedAfter(key, date, MAX_STEPS);
    forall b: int ensures !ChangesOnceAt(key, date, b) {
      assert key(date + MAX_STEPS * STEP) == key(date);
    }
  }

  method MsUntilDayBoundary(date: int, key: int -> string) returns (ms: int)
    ensures ms > 0
    ensures forall b | ChangesOnceAt(key, date, b) :: b - date <= ms < b - date + 1_000
  {
    var next := GetNextDayBoundaryMs(date, key);
    ms := if next - date > 0 then next - date else 0;
  }
}
