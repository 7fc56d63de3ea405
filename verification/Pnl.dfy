/** Profit-and-loss statistics: one-pass drawdown, equity curve and streaks against their
    definitions over all pairs and all contiguous runs. Amounts are reals. */
module Pnl {

  datatype Outcome = Win | Loss | FailedBet | UnknownBet

  datatype PnlEntry = PnlEntry(betId: nat, outcome: Outcome, pnl: real)

  datatype EquityPoint = EquityPoint(betId: nat, cumulativePnl: real, peakPnl: real, currentDrawdown: real)

  predicate Counts(e: PnlEntry) {
    e.outcome == Win || e.outcome == Loss
  }

  function Max(a: real, b: real): real {
    if a >= b then a else b
  }

  function MaxInt(a: nat, b: nat): nat {
    if a >= b then a else b
  }

  // ------------------------------------------------------------------ definitions

  function Delta(e: PnlEntry): real {
    if Counts(e) then e.pnl else 0.0
  }

  function Equity(es: seq<PnlEntry>, k: nat): real
    requires k <= |es|
  {
    if k == 0 then 0.0 else Equity(es, k - 1) + Delta(es[k - 1])
  }

  /** The equities before any entry and after each; failed and unknown bets do not move them. */
  function Equities(es: seq<PnlEntry>): (eq: seq<real>)
    ensures |eq| == |es| + 1 && eq[0] == 0.0
    ensures forall k | 0 <= k <= |es| :: eq[k] == Equity(es, k)
  {
    seq(|es| + 1, k requires 0 <= k <= |es| => Equity(es, k))
  }

  /** The highest of the equities 0..k. */
  ghost predicate IsPeak(eq: seq<real>, k: nat, p: real)
    requires k < |eq|
  {
    && (forall i | 0 <= i <= k :: eq[i] <= p)
    && (exists i :: 0 <= i <= k && eq[i] == p)
  }

  /** The largest fall from an equity to a later one, among the equities 0..k. */
  ghost predicate IsMaxDrawdown(eq: seq<real>, k: nat, d: real)
    requires k < |eq|
  {
    && (forall i, j | 0 <= i <= j <= k :: eq[i] - eq[j] <= d)
    && (exists i, j :: 0 <= i <= j <= k && eq[i] - eq[j] == d)
  }

  lemma MaxDrawdownUnique(eq: seq<real>, k: nat, d: real, d': real)
    requires k < |eq| && IsMaxDrawdown(eq, k, d) && IsMaxDrawdown(eq, k, d')
    ensures d == d' >= 0.0
  {
    assert eq[0] - eq[0] <= d;
  }

  ghost predicate AllAre(es: seq<PnlEntry>, i: int, j: int, o: Outcome)
    requires 0 <= i <= j <= |es|
  {
    forall k | i <= k < j :: es[k].outcome == o
  }

  /** The length of the longest contiguous run of one outcome among the first `k` entries. */
  ghost predicate IsLongestRun(es: seq<PnlEntry>, k: nat, o: Outcome, m: nat)
    requires k <= |es|
  {
    && (forall i, j | 0 <= i <= j <= k && AllAre(es, i, j, o) :: j - i <= m)
    && (exists i, j :: 0 <= i <= j <= k && j - i == m && AllAre(es, i, j, o))
  }

  /** The run of one outcome that ends at `k` has exactly `m` entries. */
  ghost predicate IsTrailingRun(es: seq<PnlEntry>, k: nat, o: Outcome, m: nat)
    requires k <= |es|
  {
    m <= k && AllAre(es, k - m, k, o) && (m < k ==> es[k - m - 1].outcome != o)
  }

  function CountOf(es: seq<PnlEntry>, k: nat, o: Outcome): nat
    requires k <= |es|
  {
    if k == 0 then 0 else CountOf(es, k - 1, o) + if es[k - 1].outcome == o then 1 else 0
  }

  function SumOf(es: seq<PnlEntry>, k: nat, o: Outcome): real
    requires k <= |es|
  {
    if k == 0 then 0.0 else SumOf(es, k - 1, o) + if es[k - 1].outcome == o then es[k - 1].pnl else 0.0
  }

  // ------------------------------------------------------------------ drawdown

  lemma PeakExtends(eq: seq<real>, k: nat, peak: real, peak': real)
    requires 0 < k < |eq| && IsPeak(eq, k - 1, peak) && peak' == Max(peak, eq[k])
    ensures IsPeak(eq, k, peak')
  {
    var p :| 0 <= p < k && eq[p] == peak;
    assert eq[if peak >= eq[k] then p else k] == peak';
  }

  /** A new equity: the old maximum stands, or the fall from the peak to it is the new one. */
  lemma DrawdownExtends(eq: seq<real>, k: nat, peak': real, d: real, d': real)
    requires 0 < k < |eq| && IsPeak(eq, k, peak') && IsMaxDrawdown(eq, k - 1, d)
    requires d' == Max(d, peak' - eq[k])
    ensures IsMaxDrawdown(eq, k, d')
  {
    forall i, j | 0 <= i <= j <= k ensures eq[i] - eq[j] <= d' {
      if j == k {
        assert eq[i] <= peak';
      }
    }
    if d >= peak' - eq[k] {
      var i, j :| 0 <= i <= j < k && eq[i] - eq[j] == d;
      assert eq[i] - eq[j] == d';
    } else {
      var i :| 0 <= i <= k && eq[i] == peak';
      assert eq[i] - eq[k] == d';
    }
  }

  lemma DrawdownStarts(eq: seq<real>)
    requires |eq| > 0 && eq[0] == 0.0
    ensures IsPeak(eq, 0, 0.0) && IsMaxDrawdown(eq, 0, 0.0)
  {
    assert eq[0] - eq[0] == 0.0;
  }

  /** The peak and the largest drawdown as the loops carry them. */
  function PeakTo(es: seq<PnlEntry>, k: nat): real
    requires k <= |es|
  {
    if k == 0 then 0.0 else Max(PeakTo(es, k - 1), Equity(es, k))
  }

  function FallTo(es: seq<PnlEntry>, k: nat): real
    requires k <= |es|
  {
    if k == 0 then 0.0 else Max(FallTo(es, k - 1), PeakTo(es, k) - Equity(es, k))
  }

  lemma {:induction false} PeakToIsPeak(es: seq<PnlEntry>, k: nat)
    requires k <= |es|
    ensures IsPeak(Equities(es), k, PeakTo(es, k))
  {
    if k == 0 {
      DrawdownStarts(Equities(es));
    } else {
      PeakToIsPeak(es, k - 1);
      PeakExtends(Equities(es), k, PeakTo(es, k - 1), PeakTo(es, k));
    }
  }

  /** The one-pass value is the maximum over all pairs. */
  lemma {:induction false} FallToIsMaxDrawdown(es: seq<PnlEntry>, k: nat)
    requires k <= |es|
    ensures IsMaxDrawdown(Equities(es), k, FallTo(es, k))
  {
    if k == 0 {
      DrawdownStarts(Equities(es));
    } else {
      PeakToIsPeak(es, k);
      FallToIsMaxDrawdown(es, k - 1);
      DrawdownExtends(Equities(es), k, PeakTo(es, k), FallTo(es, k - 1), FallTo(es, k));
    }
  }

  method ComputeDrawdown(es: seq<PnlEntry>) returns (maxDrawdown: real, currentDrawdown: real)
    ensures maxDrawdown == FallTo(es, |es|)
    ensures currentDrawdown == PeakTo(es, |es|) - Equity(es, |es|)
  {
    var cumulativePnl, peakPnl := 0.0, 0.0;
    maxDrawdown := 0.0;
    for k := 0 to |es|
      invariant cumulativePnl == Equity(es, k)
      invariant peakPnl == PeakTo(es, k)
      invariant maxDrawdown == FallTo(es, k)
    {
      if Counts(es[k]) {
        cumulativePnl := cumulativePnl + es[k].pnl;
      }
      peakPnl := Max(peakPnl, cumulativePnl);
      var drawdown := peakPnl - cumulativePnl;
      maxDrawdown := Max(maxDrawdown, drawdown);
    }
    currentDrawdown := peakPnl - cumulativePnl;
  }

  /** A point of the curve: the equity after its entry, the peak so far and the fall from it. */
  function PointAt(es: seq<PnlEntry>, k: nat): EquityPoint
    requires k < |es|
  {
    EquityPoint(es[k].betId, Equity(es, k + 1), PeakTo(es, k + 1), PeakTo(es, k + 1) - Equity(es, k + 1))
  }

  predicate IsCurve(es: seq<PnlEntry>, curve: seq<EquityPoint>) {
    |curve| == |es| && forall i | 0 <= i < |es| :: curve[i] == PointAt(es, i)
  }

  method BuildEquityCurve(es: seq<PnlEntry>) returns (curve: seq<EquityPoint>)
    ensures IsCurve(es, curve)
  {
    curve := [];
    var cumulativePnl, peakPnl := 0.0, 0.0;
    for k := 0 to |es|
      invariant cumulativePnl == Equity(es, k) && peakPnl == PeakTo(es, k)
      invariant |curve| == k && forall i | 0 <= i < k :: curve[i] == PointAt(es, i)
    {
      if Counts(es[k]) {
        cumulativePnl := cumulativePnl + es[k].pnl;
      }
      peakPnl := Max(peakPnl, cumulativePnl);
      curve := curve + [EquityPoint(es[k].betId, cumulativePnl, peakPnl, peakPnl - cumulativePnl)];
    }
  }

  /** Math.max over the points' drawdowns, and the last one. */
  method ComputeDrawdownFromCurve(curve: seq<EquityPoint>) returns (maxDrawdown: real, currentDrawdown: real)
    ensures curve == [] ==> maxDrawdown == 0.0 && currentDrawdown == 0.0
    ensures curve != [] ==> IsLargest(curve, maxDrawdown) && currentDrawdown == curve[|curve| - 1].currentDrawdown
  {
    if curve == [] {
      return 0.0, 0.0;
    }
    maxDrawdown := curve[0].currentDrawdown;
    for k := 1 to |curve|
      invariant IsLargest(curve[..k], maxDrawdown)
    {
      LargestExtends(curve, k, maxDrawdown);
      maxDrawdown := Max(maxDrawdown, curve[k].currentDrawdown);
    }
    assert curve[..|curve|] == curve;
    currentDrawdown := curve[|curve| - 1].currentDrawdown;
  }

  ghost predicate IsLargest(curve: seq<EquityPoint>, d: real) {
    && (forall i | 0 <= i < |curve| :: curve[i].currentDrawdown <= d)
    && (exists i :: 0 <= i < |curve| && curve[i].currentDrawdown == d)
  }

  lemma LargestExtends(curve: seq<EquityPoint>, k: nat, d: real)
    requires k < |curve| && IsLargest(curve[..k], d)
    ensures IsLargest(curve[..k + 1], Max(d, curve[k].currentDrawdown))
  {
    var i :| 0 <= i < k && curve[..k][i].currentDrawdown == d;
    assert curve[..k + 1][i].currentDrawdown == d && curve[..k + 1][k] == curve[k];
    assert forall j | 0 <= j < k :: curve[..k + 1][j] == curve[..k][j];
  }

  /** The largest drawdown on the curve is the largest fall over all pairs. */
  lemma CurveDrawdownIsMaxDrawdown(es: seq<PnlEntry>, curve: seq<EquityPoint>, d: real)
    requires es != [] && IsCurve(es, curve) && IsLargest(curve, d)
    ensures IsMaxDrawdown(Equities(es), |es|, d)
  {
    var eq := Equities(es);
    forall i, j | 0 <= i <= j <= |es| ensures eq[i] - eq[j] <= d {
      var m := if j == 0 then 0 else j - 1;
      PeakToIsPeak(es, m + 1);
      assert curve[m] == PointAt(es, m);
      assert eq[i] <= PeakTo(es, m + 1) && eq[m + 1] <= PeakTo(es, m + 1);
    }
    var k :| 0 <= k < |curve| && curve[k].currentDrawdown == d;
    PeakToIsPeak(es, k + 1);
    var p :| 0 <= p <= k + 1 && eq[p] == PeakTo(es, k + 1);
    assert eq[p] - eq[k + 1] == d;
  }

  /** The drawdown of the entries and the drawdown of their curve are one number, and the final
      curve value is the equity. */
  method DrawdownBothWays(es: seq<PnlEntry>) returns (direct: real, viaCurve: real)
    ensures direct == viaCurve && IsMaxDrawdown(Equities(es), |es|, direct)
  {
    var current;
    direct, current := ComputeDrawdown(es);
    FallToIsMaxDrawdown(es, |es|);
    var curve := BuildEquityCurve(es);
    viaCurve, current := ComputeDrawdownFromCurve(curve);
    if es == [] {
      DrawdownStarts(Equities(es));
    } else {
      CurveDrawdownIsMaxDrawdown(es, curve, viaCurve);
    }
    MaxDrawdownUnique(Equities(es), |es|, direct, viaCurve);
  }

  // ------------------------------------------------------------------ streaks

  lemma RunGrows(es: seq<PnlEntry>, k: nat, o: Outcome, longest: nat, current: nat)
    requires k < |es| && es[k].outcome == o
    requires IsLongestRun(es, k, o, longest) && IsTrailingRun(es, k, o, current)
    ensures IsTrailingRun(es, k + 1, o, current + 1)
    ensures IsLongestRun(es, k + 1, o, MaxInt(longest, current + 1))
  {
    var m := MaxInt(longest, current + 1);
    assert current < k ==> es[k - current - 1].outcome != o;
    forall i, j | 0 <= i <= j <= k + 1 && AllAre(es, i, j, o) ensures j - i <= m {
      if j <= k {
        assert AllAre(es, i, j, o);
      }
    }
    if longest >= current + 1 {
      var i, j :| 0 <= i <= j <= k && j - i == longest && AllAre(es, i, j, o);
      assert AllAre(es, i, j, o) && j - i == m;
    } else {
      assert AllAre(es, k - current, k + 1, o);
    }
  }

  lemma RunBreaks(es: seq<PnlEntry>, k: nat, o: Outcome, longest: nat)
    requires k < |es| && es[k].outcome != o && IsLongestRun(es, k, o, longest)
    ensures IsTrailingRun(es, k + 1, o, 0)
    ensures IsLongestRun(es, k + 1, o, longest)
  {
    assert AllAre(es, k, k, o);
    forall i, j | 0 <= i <= j <= k + 1 && AllAre(es, i, j, o) ensures j - i <= longest {
      if j <= k {
        assert AllAre(es, i, j, o);
      }
    }
    var i, j :| 0 <= i <= j <= k && j - i == longest && AllAre(es, i, j, o);
    assert AllAre(es, i, j, o);
  }

  lemma RunsStart(es: seq<PnlEntry>, o: Outcome)
    ensures IsLongestRun(es, 0, o, 0) && IsTrailingRun(es, 0, o, 0)
  {
    assert AllAre(es, 0, 0, o);
  }

  // ------------------------------------------------------------------ summary

  datatype StreakType = WinStreak | LossStreak | NoStreak

  datatype PnlSummary = PnlSummary(
    totalBets: nat, wins: nat, losses: nat, failed: nat, unknown: nat,
    grossProfit: real, grossLoss: real, netPnl: real, hitRate: real,
    maxDrawdown: real, currentDrawdown: real, expectedValue: real,
    winStreakMax: nat, lossStreakMax: nat, currentStreak: nat, currentStreakType: StreakType)

  lemma {:induction false} EquitySplits(es: seq<PnlEntry>, k: nat)
    requires k <= |es|
    ensures Equity(es, k) == SumOf(es, k, Win) + SumOf(es, k, Loss)
    ensures k == CountOf(es, k, Win) + CountOf(es, k, Loss) + CountOf(es, k, FailedBet) + CountOf(es, k, UnknownBet)
  {
    if k > 0 {
      EquitySplits(es, k - 1);
    }
  }

  function HitRate(wins: nat, losses: nat): (rate: real)
    ensures wins == 0 ==> rate == 0.0
  {
    if wins + losses > 0 then wins as real / (wins + losses) as real else 0.0
  }

  class PnlCalculator {
    const stake: real
    const target: real

    constructor (stake: real, target: real)
      ensures this.stake == stake && this.target == target
    {
      this.stake, this.target := stake, target;
    }

    function WinProfit(): real {
      stake * (target - 1.0)
    }

    function LossAmount(): real {
      -stake
    }

    function ExpectedValue(hitRate: real): real {
      stake * (hitRate * target - 1.0)
    }

    /** The expected value times the number of bets. */
    function ExpectedNet(bets: nat, hitRate: real): real {
      bets as real * ExpectedValue(hitRate)
    }

    method ComputeStreaks(es: seq<PnlEntry>)
      returns (winMax: nat, lossMax: nat, currentWin: nat, currentLoss: nat)
      ensures IsLongestRun(es, |es|, Win, winMax) && IsLongestRun(es, |es|, Loss, lossMax)
      ensures IsTrailingRun(es, |es|, Win, currentWin) && IsTrailingRun(es, |es|, Loss, currentLoss)
    {
      winMax, lossMax, currentWin, currentLoss := 0, 0, 0, 0;
      RunsStart(es, Win);
      RunsStart(es, Loss);
      for k := 0 to |es|
        invariant IsLongestRun(es, k, Win, winMax) && IsLongestRun(es, k, Loss, lossMax)
        invariant IsTrailingRun(es, k, Win, currentWin) && IsTrailingRun(es, k, Loss, currentLoss)
      {
        match es[k].outcome {
          case Win =>
            RunGrows(es, k, Win, winMax, currentWin);
            RunBreaks(es, k, Loss, lossMax);
            currentWin, currentLoss := currentWin + 1, 0;
            winMax := MaxInt(winMax, currentWin);
          case Loss =>
            RunGrows(es, k, Loss, lossMax, currentLoss);
            RunBreaks(es, k, Win, winMax);
            currentLoss, currentWin := currentLoss + 1, 0;
            lossMax := MaxInt(lossMax, currentLoss);
          case _ =>
            RunBreaks(es, k, Win, winMax);
            RunBreaks(es, k, Loss, lossMax);
            currentWin, currentLoss := 0, 0;
        }
      }
    }

    method ComputeTotals(es: seq<PnlEntry>)
      returns (wins: nat, losses: nat, failed: nat, unknown: nat, grossProfit: real, grossLoss: real)
      ensures wins == CountOf(es, |es|, Win) && losses == CountOf(es, |es|, Loss)
      ensures failed == CountOf(es, |es|, FailedBet) && unknown == CountOf(es, |es|, UnknownBet)
      ensures grossProfit == SumOf(es, |es|, Win) && grossLoss == SumOf(es, |es|, Loss)
    {
      wins, losses, failed, unknown, grossProfit, grossLoss := 0, 0, 0, 0, 0.0, 0.0;
      for k := 0 to |es|
        invariant wins == CountOf(es, k, Win) && losses == CountOf(es, k, Loss)
        invariant failed == CountOf(es, k, FailedBet) && unknown == CountOf(es, k, UnknownBet)
        invariant grossProfit == SumOf(es, k, Win) && grossLoss == SumOf(es, k, Loss)
      {
        match es[k].outcome {
          case Win =>
            wins := wins + 1;
            grossProfit := grossProfit + es[k].pnl;
          case Loss =>
            losses := losses + 1;
            grossLoss := grossLoss + es[k].pnl;
          case FailedBet => failed := failed + 1;
          case UnknownBet => unknown := unknown + 1;
        }
      }
    }

    /** The whole summary; the source's one loop over the entries is split in two here. */
    method ComputeSummary(es: seq<PnlEntry>) returns (s: PnlSummary)
      ensures s.totalBets == |es| == s.wins + s.losses + s.failed + s.unknown
      ensures s.wins == CountOf(es, |es|, Win) && s.losses == CountOf(es, |es|, Loss)
      ensures s.netPnl == s.grossProfit + s.grossLoss == Equity(es, |es|)
      ensures s.maxDrawdown == FallTo(es, |es|)
      ensures s.netPnl + s.currentDrawdown == PeakTo(es, |es|)
      ensures IsLongestRun(es, |es|, Win, s.winStreakMax) && IsLongestRun(es, |es|, Loss, s.lossStreakMax)
      ensures s.currentStreakType == WinStreak ==> s.currentStreak > 0 && IsTrailingRun(es, |es|, Win, s.currentStreak)
      ensures s.currentStreakType == LossStreak ==>
                s.currentStreak > 0 && IsTrailingRun(es, |es|, Loss, s.currentStreak)
      ensures s.currentStreakType == NoStreak ==> s.currentStreak == 0 && (es != [] ==> !Counts(es[|es| - 1]))
      ensures s.hitRate == HitRate(s.wins, s.losses)
      ensures s.expectedValue == if es == [] then 0.0 else ExpectedValue(s.hitRate)
    {
      EquitySplits(es, |es|);
      if es == [] {
        RunsStart(es, Win);
        RunsStart(es, Loss);
        return PnlSummary(0, 0, 0, 0, 0, 0.0, 0.0, 0.0, 0.0, 0.0, 0.0, 0.0, 0, 0, 0, NoStreak);
      }
      var wins, losses, failed, unknown, grossProfit, grossLoss := ComputeTotals(es);
      var winMax, lossMax, currentWin, currentLoss := ComputeStreaks(es);
      var maxDrawdown, currentDrawdown := ComputeDrawdown(es);
      var hitRate := HitRate(wins, losses);
      var kind := if currentWin > 0 then WinStreak else if currentLoss > 0 then LossStreak else NoStreak;
      var current := if currentWin > 0 then currentWin else currentLoss;
      s := PnlSummary(|es|, wins, losses, failed, unknown, grossProfit, grossLoss, grossProfit + grossLoss, hitRate,
                      maxDrawdown, currentDrawdown, ExpectedValue(hitRate), winMax, lossMax, current, kind);
    }

    /** The entries a dry run makes of observed crash points. */
    ghost predicate IsDryRun(crashPoints: seq<real>, es: seq<PnlEntry>) {
      && |es| == |crashPoints|
      && forall i | 0 <= i < |es| ::
           if crashPoints[i] >= target then es[i].outcome == Win && es[i].pnl == WinProfit()
           else es[i].outcome == Loss && es[i].pnl == LossAmount()
    }

    method DryRunEntries(crashPoints: seq<real>) returns (es: seq<PnlEntry>)
      ensures IsDryRun(crashPoints, es)
    {
      es := seq(|crashPoints|, i requires 0 <= i < |crashPoints| =>
        if crashPoints[i] >= target then PnlEntry(i, Win, WinProfit()) else PnlEntry(i, Loss, LossAmount()));
    }

    method SimulateDryRun(crashPoints: seq<real>) returns (s: PnlSummary)
      ensures crashPoints != [] ==> s.netPnl == ExpectedNet(|crashPoints|, s.hitRate)
      ensures s.totalBets == |crashPoints| == s.wins + s.losses
      ensures s.wins == CountAtLeast(crashPoints, |crashPoints|, target)
    {
      var es := DryRunEntries(crashPoints);
      s := ComputeSummary(es);
      DryRunCounts(crashPoints, es, |es|);
      if crashPoints != [] {
        DryRunNet(crashPoints, es, s.wins, s.losses);
      }
    }

    lemma {:induction false} DryRunCounts(crashPoints: seq<real>, es: seq<PnlEntry>, k: nat)
      requires IsDryRun(crashPoints, es) && k <= |es|
      ensures CountOf(es, k, Win) == CountAtLeast(crashPoints, k, target)
      ensures CountOf(es, k, Win) + CountOf(es, k, Loss) == k
    {
      if k > 0 {
        DryRunCounts(crashPoints, es, k - 1);
      }
    }

    /** The net result of a non-empty dry run is exactly n times the expected value at its hit rate. */
    lemma DryRunNet(crashPoints: seq<real>, es: seq<PnlEntry>, wins: nat, losses: nat)
      requires IsDryRun(crashPoints, es) && es != []
      requires wins == CountOf(es, |es|, Win) && losses == CountOf(es, |es|, Loss)
      ensures Equity(es, |es|) == ExpectedNet(|crashPoints|, HitRate(wins, losses))
    {
      DryRunCounts(crashPoints, es, |es|);
      DryRunEquity(crashPoints, es, |es|);
      MixedIsExpected(wins, losses);
    }

    /** Wins at the win profit and losses at the stake add up to n times the expected value. */
    lemma MixedIsExpected(wins: nat, losses: nat)
      requires wins + losses > 0
      ensures Mixed(WinProfit(), LossAmount(), wins, losses) == ExpectedNet(wins + losses, HitRate(wins, losses))
    {
      var n := (wins + losses) as real;
      assert n == wins as real + losses as real;
      RateTimesCount(wins as real, n, HitRate(wins, losses));
      ExpectedIdentity(stake, target, wins as real, losses as real, n, HitRate(wins, losses));
    }

    lemma {:induction false} DryRunEquity(crashPoints: seq<real>, es: seq<PnlEntry>, k: nat)
      requires IsDryRun(crashPoints, es) && k <= |es|
      ensures Equity(es, k) == Mixed(WinProfit(), LossAmount(), CountOf(es, k, Win), CountOf(es, k, Loss))
    {
      MixedGrows(WinProfit(), LossAmount(), 0, 0);
      if k > 0 {
        DryRunEquity(crashPoints, es, k - 1);
        MixedGrows(WinProfit(), LossAmount(), CountOf(es, k - 1, Win), CountOf(es, k - 1, Loss));
      }
    }
  }

  /** The net result of `wins` bets at `profit` and `losses` bets at `loss`. */
  function Mixed(profit: real, loss: real, wins: nat, losses: nat): real {
    wins as real * profit + losses as real * loss
  }

  lemma MixedGrows(profit: real, loss: real, wins: nat, losses: nat)
    ensures Mixed(profit, loss, 0, 0) == 0.0
    ensures Mixed(profit, loss, wins + 1, losses) == Mixed(profit, loss, wins, losses) + profit
    ensures Mixed(profit, loss, wins, losses + 1) == Mixed(profit, loss, wins, losses) + loss
  {
    OneMore(wins, profit);
    OneMore(losses, loss);
  }

  lemma OneMore(n: nat, x: real)
    ensures (n + 1) as real * x == n as real * x + x
  {
    assert (n + 1) as real == n as real + 1.0;
  }

  lemma RateTimesCount(w: real, n: real, rate: real)
    requires n > 0.0 && rate == w / n
    ensures n * rate == w
  {
  }

  lemma ExpectedIdentity(stake: real, target: real, w: real, l: real, n: real, rate: real)
    requires n == w + l && n * rate == w
    ensures w * (stake * (target - 1.0)) + l * (-stake) == n * (stake * (rate * target - 1.0))
  {
    calc {
      n * (stake * (rate * target - 1.0));
      stake * ((n * rate) * target - n);
      stake * (w * target - (w + l));
      w * (stake * (target - 1.0)) + l * (-stake);
    }
  }

  function CountAtLeast(xs: seq<real>, k: nat, t: real): nat
    requires k <= |xs|
  {
    if k == 0 then 0 else CountAtLeast(xs, k - 1, t) + if xs[k - 1] >= t then 1 else 0
  }
}
