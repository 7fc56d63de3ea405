/** Balance reconciliation: the expected balance from the settled bets, page by page, the comparison
    with the observed one, and the count of consecutive mismatches. */
module Balance {
  import opened Bets
  import opened Outcomes

  const PAGE_SIZE := 1_000
  const SAFETY_STOP := 1_000_000
  /** The pages of offsets 0 to the safety stop. */
  const MAX_PAGES := 1_001

  /** The bets of one state, oldest first. */
  function InState(bets: seq<Bet>, state: BetState, k: nat): seq<Bet>
    requires k <= |bets|
  {
    if k == 0 then []
    else if bets[k - 1].state == state then InState(bets, state, k - 1) + [bets[k - 1]]
    else InState(bets, state, k - 1)
  }

  function Pnl(bet: Bet): real {
    bet.pnl.GetOr(0.0)
  }

  function SumTo(rows: seq<Bet>, k: nat): real
    requires k <= |rows|
  {
    if k == 0 then 0.0 else SumTo(rows, k - 1) + Pnl(rows[k - 1])
  }

  /** The first known balance among the first `k`. */
  function FirstBalance(rows: seq<Bet>, k: nat): Option<real>
    requires k <= |rows|
  {
    if k == 0 then None
    else if FirstBalance(rows, k - 1).Some? then FirstBalance(rows, k - 1)
    else rows[k - 1].balanceBefore
  }

  function OrElse(a: Option<real>, b: Option<real>): Option<real> {
    if a.Some? then a else b
  }

  function AtMost(n: nat, limit: nat): nat {
    if n <= limit then n else limit
  }

  /** One page: a paging repository honours the offset, any other returns its first rows again. */
  function Page(rows: seq<Bet>, paged: bool, offset: nat): seq<Bet> {
    if !paged then rows[..AtMost(|rows|, PAGE_SIZE)]
    else if |rows| <= offset then []
    else rows[offset..offset + AtMost(|rows| - offset, PAGE_SIZE)]
  }

  /** How many rows of one state the loop reads, each once, from a paging repository. */
  function Reached(n: nat): nat {
    AtMost(n, MAX_PAGES * PAGE_SIZE)
  }

  /** What the loop adds up for one state. Without paging, a full first page is added once for
      every page up to the safety stop. */
  function StateTotal(rows: seq<Bet>, paged: bool): real {
    if paged then SumTo(rows, Reached(|rows|))
    else if |rows| < PAGE_SIZE then SumTo(rows, |rows|)
    else MAX_PAGES as real * SumTo(rows, PAGE_SIZE)
  }

  function StateBalance(rows: seq<Bet>, paged: bool): Option<real> {
    FirstBalance(rows, if paged then Reached(|rows|) else AtMost(|rows|, PAGE_SIZE))
  }

  lemma {:induction false} SumShift(rows: seq<Bet>, offset: nat, page: seq<Bet>, k: nat)
    requires k <= |page| && offset + |page| <= |rows| && page == rows[offset..offset + |page|]
    ensures SumTo(rows, offset) + SumTo(page, k) == SumTo(rows, offset + k)
    ensures OrElse(FirstBalance(rows, offset), FirstBalance(page, k)) == FirstBalance(rows, offset + k)
  {
    if k > 0 {
      SumShift(rows, offset, page, k - 1);
      assert page[k - 1] == rows[offset + k - 1];
    }
  }

  lemma {:induction false} SumPrefix(rows: seq<Bet>, n: nat, k: nat)
    requires k <= n <= |rows|
    ensures SumTo(rows[..n], k) == SumTo(rows, k)
    ensures FirstBalance(rows[..n], k) == FirstBalance(rows, k)
  {
    if k > 0 {
      SumPrefix(rows, n, k - 1);
    }
  }

  method AddPage(total: real, baseline: Option<real>, page: seq<Bet>) returns (total': real, baseline': Option<real>)
    ensures total' == total + SumTo(page, |page|)
    ensures baseline' == OrElse(baseline, FirstBalance(page, |page|))
  {
    total', baseline' := total, baseline;
    for k := 0 to |page|
      invariant total' == total + SumTo(page, k)
      invariant baseline' == OrElse(baseline, FirstBalance(page, k))
    {
      if page[k].pnl.Some? {
        total' := total' + page[k].pnl.value;
      }
      if baseline'.None? && page[k].balanceBefore.Some? {
        baseline' := page[k].balanceBefore;
      }
    }
  }

  /** The loop over one state from a repository that pages. */
  method AddPagedState(total: real, baseline: Option<real>, rows: seq<Bet>)
    returns (total': real, baseline': Option<real>)
    ensures total' == total + StateTotal(rows, true)
    ensures baseline' == OrElse(baseline, StateBalance(rows, true))
  {
    total', baseline' := total, baseline;
    var offset := 0;
    while true
      invariant offset % PAGE_SIZE == 0 && offset <= SAFETY_STOP
      invariant offset > 0 ==> offset <= |rows|
      invariant total' == total + SumTo(rows, offset)
      invariant baseline' == OrElse(baseline, FirstBalance(rows, offset))
      decreases SAFETY_STOP - offset
    {
      var page := Page(rows, true, offset);
      if |page| == 0 {
        break;
      }
      SumShift(rows, offset, page, |page|);
      total', baseline' := AddPage(total', baseline', page);
      offset := offset + |page|;
      if |page| < PAGE_SIZE {
        break;
      }
      if offset > SAFETY_STOP {
        break;
      }
    }
  }

  /** The same loop over a repository that ignores the offset. */
  method AddUnpagedState(total: real, baseline: Option<real>, rows: seq<Bet>)
    returns (total': real, baseline': Option<real>)
    ensures total' == total + StateTotal(rows, false)
    ensures baseline' == OrElse(baseline, StateBalance(rows, false))
  {
    total', baseline' := total, baseline;
    var offset, pages := 0, 0;
    var page := Page(rows, false, 0);
    SumPrefix(rows, |page|, |page|);
    while true
      invariant offset == pages * PAGE_SIZE && pages <= 1_000
      invariant pages > 0 ==> |page| == PAGE_SIZE
      invariant total' == total + pages as real * SumTo(page, |page|)
      invariant baseline' == OrElse(baseline, if pages == 0 then None else FirstBalance(page, |page|))
      decreases SAFETY_STOP - offset
    {
      if |page| == 0 {
        break;
      }
      OneMorePage(pages, SumTo(page, |page|));
      total', baseline' := AddPage(total', baseline', page);
      if |page| < PAGE_SIZE {
        break;
      }
      offset, pages := offset + PAGE_SIZE, pages + 1;
      if offset > SAFETY_STOP {
        break;
      }
    }
  }

  lemma OneMorePage(pages: nat, sum: real)
    ensures (pages + 1) as real * sum == pages as real * sum + sum
  {
    assert (pages + 1) as real == pages as real + 1.0;
  }

  // ------------------------------------------------------------------ the expected balance

  function Rows(bets: seq<Bet>, state: BetState): seq<Bet> {
    InState(bets, state, |bets|)
  }

  function LoopTotal(bets: seq<Bet>, paged: bool): real {
    StateTotal(Rows(bets, CashedOut), paged) + StateTotal(Rows(bets, Lost), paged) +
    StateTotal(Rows(bets, FailedBet), paged) + StateTotal(Rows(bets, Reconciled), paged)
  }

  /** The baseline comes from the first listed state that has one. */
  function LoopBaseline(bets: seq<Bet>, paged: bool): Option<real> {
    OrElse(OrElse(OrElse(StateBalance(Rows(bets, CashedOut), paged), StateBalance(Rows(bets, Lost), paged)),
                  StateBalance(Rows(bets, FailedBet), paged)), StateBalance(Rows(bets, Reconciled), paged))
  }

  /** A balance snapshot; bets from position `taken` on were created after it. */
  datatype Snapshot = Snapshot(balance: real, taken: nat)

  /** Where the expected balance comes from: the aggregate query over the database with its latest
      snapshot, or the loop over a repository that honours offsets or ignores them. */
  datatype Source = Aggregate(snapshot: Option<Snapshot>) | Paging | NoPaging

  predicate IsSettled(state: BetState) {
    state == CashedOut || state == Lost || state == FailedBet || state == Reconciled
  }

  /** The profit and loss of the settled bets among positions `from` to `k`, each once. */
  function SettledFrom(bets: seq<Bet>, from: nat, k: nat): real
    requires k <= |bets|
  {
    if k == 0 then 0.0
    else SettledFrom(bets, from, k - 1) + if from < k && IsSettled(bets[k - 1].state) then Pnl(bets[k - 1]) else 0.0
  }

  function SettledPnl(bets: seq<Bet>, k: nat): real
    requires k <= |bets|
  {
    SettledFrom(bets, 0, k)
  }

  /** The newest known balance among the first `k` bets. */
  function LatestBalance(bets: seq<Bet>, k: nat): Option<real>
    requires k <= |bets|
  {
    if k == 0 then None
    else if bets[k - 1].balanceBefore.Some? then bets[k - 1].balanceBefore
    else LatestBalance(bets, k - 1)
  }

  /** The aggregate's row: the snapshot and what was settled after it, or without one the newest
      known balance and everything ever settled. */
  function AggregateRow(bets: seq<Bet>, snapshot: Option<Snapshot>): (Option<real>, real) {
    match snapshot
    case Some(snap) => (Some(snap.balance), SettledFrom(bets, snap.taken, |bets|))
    case None => (LatestBalance(bets, |bets|), SettledPnl(bets, |bets|))
  }

  function BaselineAndTotal(bets: seq<Bet>, source: Source): (Option<real>, real) {
    match source
    case Aggregate(snapshot) => AggregateRow(bets, snapshot)
    case _ => (LoopBaseline(bets, source.Paging?), LoopTotal(bets, source.Paging?))
  }

  function Expected(bets: seq<Bet>, source: Source, current: Option<real>): real {
    match BaselineAndTotal(bets, source)
    case (None, _) => current.GetOr(0.0)
    case (Some(baseline), total) => RoundCents(baseline + total)
  }

  method AddState(total: real, baseline: Option<real>, bets: seq<Bet>, state: BetState, paged: bool)
    returns (total': real, baseline': Option<real>)
    ensures total' == total + StateTotal(Rows(bets, state), paged)
    ensures baseline' == OrElse(baseline, StateBalance(Rows(bets, state), paged))
  {
    if paged {
      total', baseline' := AddPagedState(total, baseline, Rows(bets, state));
    } else {
      total', baseline' := AddUnpagedState(total, baseline, Rows(bets, state));
    }
  }

  function SumIn(bets: seq<Bet>, state: BetState, k: nat): real
    requires k <= |bets|
  {
    SumTo(InState(bets, state, k), |InState(bets, state, k)|)
  }

  lemma SumInStep(bets: seq<Bet>, state: BetState, k: nat)
    requires 0 < k <= |bets|
    ensures SumIn(bets, state, k) ==
            SumIn(bets, state, k - 1) + if bets[k - 1].state == state then Pnl(bets[k - 1]) else 0.0
  {
    if bets[k - 1].state == state {
      var before := InState(bets, state, k - 1);
      SumPrefix(before + [bets[k - 1]], |before|, |before|);
      assert (before + [bets[k - 1]])[..|before|] == before;
    }
  }

  lemma {:induction false} StatesPartition(bets: seq<Bet>, k: nat)
    requires k <= |bets|
    ensures SettledPnl(bets, k) ==
            SumIn(bets, CashedOut, k) + SumIn(bets, Lost, k) + SumIn(bets, FailedBet, k) + SumIn(bets, Reconciled, k)
  {
    if k > 0 {
      StatesPartition(bets, k - 1);
      SumInStep(bets, CashedOut, k);
      SumInStep(bets, Lost, k);
      SumInStep(bets, FailedBet, k);
      SumInStep(bets, Reconciled, k);
    }
  }

  predicate WithinPages(bets: seq<Bet>, state: BetState) {
    |Rows(bets, state)| <= 1_001_000
  }

  predicate AllWithinPages(bets: seq<Bet>) {
    && WithinPages(bets, CashedOut) && WithinPages(bets, Lost)
    && WithinPages(bets, FailedBet) && WithinPages(bets, Reconciled)
  }

  /** A paging repository of at most 1,001,000 bets per state is summed completely, whatever the
      page boundaries; beyond that the first 1,001,000 of the state are. */
  lemma PagesSumEverything(bets: seq<Bet>)
    requires AllWithinPages(bets)
    ensures LoopTotal(bets, true) == SettledPnl(bets, |bets|)
  {
    StatesPartition(bets, |bets|);
  }

  lemma PagesStop(rows: seq<Bet>)
    requires |rows| > 1_001_000
    ensures StateTotal(rows, true) == SumTo(rows, 1_001_000)
  {
  }

  /** One more bet adds its profit and loss if it is settled and that is known. */
  lemma SettledSnoc(bets: seq<Bet>, bet: Bet)
    ensures SettledPnl(bets + [bet], |bets| + 1) ==
            SettledPnl(bets, |bets|) + if IsSettled(bet.state) && bet.pnl.Some? then bet.pnl.value else 0.0
  {
    SettledPrefix(bets, [bet], |bets|);
  }

  lemma {:induction false} SettledPrefix(bets: seq<Bet>, more: seq<Bet>, k: nat)
    requires k <= |bets|
    ensures SettledPnl(bets + more, k) == SettledPnl(bets, k)
  {
    if k > 0 {
      SettledPrefix(bets, more, k - 1);
    }
  }

  /** Without paging the sum is right for states of less than a page; from a full page on only the
      first page matters, whatever the rest of the state is. */
  lemma UnpagedTotal(rows: seq<Bet>, others: seq<Bet>)
    ensures |rows| < 1_000 ==> StateTotal(rows, false) == SumTo(rows, |rows|)
    ensures |rows| >= 1_000 ==> StateTotal(rows, false) == 1001.0 * SumTo(rows, 1_000)
    ensures |rows| >= 1_000 && |others| >= 1_000 && rows[..1_000] == others[..1_000] ==>
              StateTotal(rows, false) == StateTotal(others, false)
  {
    if |rows| >= PAGE_SIZE && |others| >= PAGE_SIZE && rows[..PAGE_SIZE] == others[..PAGE_SIZE] {
      SumPrefix(rows, PAGE_SIZE, PAGE_SIZE);
      SumPrefix(others, PAGE_SIZE, PAGE_SIZE);
    }
  }

  // ------------------------------------------------------------------ when the sum is the balance

  /** The account after all settled bets. */
  function TrueBalance(bets: seq<Bet>, start: real): real {
    start + SettledPnl(bets, |bets|)
  }

  lemma {:induction false} SettledSplits(bets: seq<Bet>, from: nat, k: nat)
    requires k <= |bets|
    ensures SettledPnl(bets, k) == SettledPnl(bets, AtMost(k, from)) + SettledFrom(bets, from, k)
  {
    if k > 0 {
      SettledSplits(bets, from, k - 1);
    }
  }

  /** Every known balance is what the account held when its bet was created: `past[i]` are the bets
      as they stood then. */
  ghost predicate Consistent(bets: seq<Bet>, past: seq<seq<Bet>>, start: real) {
    && |past| == |bets|
    && forall i | 0 <= i < |bets| && bets[i].balanceBefore.Some? ::
         bets[i].balanceBefore.value == TrueBalance(past[i], start)
  }

  /** The bets `now` have developed from `before`: what was settled stays as it was. */
  ghost predicate Develops(before: seq<Bet>, now: seq<Bet>) {
    && |before| <= |now|
    && forall i | 0 <= i < |before| && IsSettled(before[i].state) :: now[i] == before[i]
  }

  /** The profit and loss of the first `k` bets that were open before and are settled now. */
  function SettledSince(before: seq<Bet>, now: seq<Bet>, k: nat): real
    requires k <= |before| && k <= |now|
  {
    if k == 0 then 0.0
    else
      SettledSince(before, now, k - 1) +
      if !IsSettled(before[k - 1].state) && IsSettled(now[k - 1].state) then Pnl(now[k - 1]) else 0.0
  }

  lemma {:induction false} SettledGrows(before: seq<Bet>, now: seq<Bet>, k: nat)
    requires Develops(before, now) && k <= |before|
    ensures SettledPnl(now, k) == SettledPnl(before, k) + SettledSince(before, now, k)
  {
    if k > 0 {
      SettledGrows(before, now, k - 1);
    }
  }

  /** A snapshot of the true balance misses exactly the bets that were open when it was captured and
      have been settled since: the aggregate is right exactly when those net to nothing. */
  lemma SnapshotIsExactIff(before: seq<Bet>, now: seq<Bet>, start: real)
    requires Develops(before, now)
    ensures var (baseline, total) := AggregateRow(now, Some(Snapshot(TrueBalance(before, start), |before|)));
            && baseline.Some?
            && TrueBalance(now, start) - (baseline.value + total) == SettledSince(before, now, |before|)
            && (baseline.value + total == TrueBalance(now, start) <==> SettledSince(before, now, |before|) == 0.0)
  {
    SettledSplits(now, |before|, |now|);
    SettledGrows(before, now, |before|);
  }

  /** A bet is open at the snapshot of 100 and then wins 5: the aggregate stays at 100, the account
      holds 105. */
  lemma SnapshotMissesOpenBet()
    ensures var before := [Bet(None, 10.0, Open, None, None, Some(100.0))];
            var now := [Bet(None, 10.0, CashedOut, Some(5.0), None, Some(100.0))];
            && Develops(before, now) && TrueBalance(before, 100.0) == 100.0 && TrueBalance(now, 100.0) == 105.0
            && AggregateRow(now, Some(Snapshot(100.0, 1))) == (Some(100.0), 0.0)
  {
    var before := [Bet(None, 10.0, Open, None, None, Some(100.0))];
    var now := [Bet(None, 10.0, CashedOut, Some(5.0), None, Some(100.0))];
    assert SettledFrom(before, 0, 1) == 0.0 && SettledFrom(now, 0, 1) == 5.0 && SettledFrom(now, 1, 1) == 0.0;
  }

  /** The newest bet with a known balance. */
  lemma {:induction false} LatestIsKnown(bets: seq<Bet>, k: nat) returns (i: nat)
    requires k <= |bets| && LatestBalance(bets, k).Some?
    ensures i < k && bets[i].balanceBefore == LatestBalance(bets, k)
    ensures forall j | i < j < k :: bets[j].balanceBefore.None?
  {
    if bets[k - 1].balanceBefore.Some? {
      i := k - 1;
    } else {
      i := LatestIsKnown(bets, k - 1);
    }
  }

  /** Without a snapshot everything settled by the time of the newest bet is counted twice, once in its
      balance and once in the sum: the aggregate is right exactly when that nets to nothing. */
  lemma NoSnapshotIsExactIff(bets: seq<Bet>, past: seq<seq<Bet>>, start: real) returns (i: nat)
    requires Consistent(bets, past, start) && LatestBalance(bets, |bets|).Some?
    ensures i < |bets| && bets[i].balanceBefore.Some? && forall j | i < j < |bets| :: bets[j].balanceBefore.None?
    ensures var (baseline, total) := AggregateRow(bets, None);
            && baseline.Some?
            && (baseline.value + total == TrueBalance(bets, start) <==> SettledPnl(past[i], |past[i]|) == 0.0)
  {
    i := LatestIsKnown(bets, |bets|);
  }

  /** A win of 5 and a later bet at 105: the aggregate expects 110 of an account that holds 105. */
  lemma NoSnapshotCountsTwice()
    ensures var bets := [Bet(None, 10.0, CashedOut, Some(5.0), None, Some(100.0)),
                         Bet(None, 10.0, Open, None, None, Some(105.0))];
            && Consistent(bets, [[], bets[..1]], 100.0) && TrueBalance(bets, 100.0) == 105.0
            && AggregateRow(bets, None) == (Some(105.0), 5.0)
  {
    var bets := [Bet(None, 10.0, CashedOut, Some(5.0), None, Some(100.0)),
                 Bet(None, 10.0, Open, None, None, Some(105.0))];
    assert SettledFrom(bets, 0, 1) == 5.0 && SettledFrom(bets, 0, 2) == 5.0;
    assert SettledFrom(bets[..1], 0, 1) == 5.0;
  }

  // ------------------------------------------------------------------ which balance is the baseline

  predicate Known(bet: Bet, states: set<BetState>) {
    bet.state in states && bet.balanceBefore.Some?
  }

  /** The first bet of these states with a known balance. */
  function FirstKnown(bets: seq<Bet>, states: set<BetState>, k: nat): (r: Option<nat>)
    requires k <= |bets|
    ensures r.Some? ==> r.value < k && Known(bets[r.value], states)
    ensures r.Some? ==> forall i | 0 <= i < r.value :: !Known(bets[i], states)
    ensures r.None? ==> forall i | 0 <= i < k :: !Known(bets[i], states)
  {
    if k == 0 then None
    else if FirstKnown(bets, states, k - 1).Some? then FirstKnown(bets, states, k - 1)
    else if Known(bets[k - 1], states) then Some(k - 1)
    else None
  }

  function FirstKnownIn(bets: seq<Bet>, states: set<BetState>): Option<nat> {
    FirstKnown(bets, states, |bets|)
  }

  function PositionOrElse(a: Option<nat>, b: Option<nat>): Option<nat> {
    if a.Some? then a else b
  }

  /** The bet whose balance the loop takes. */
  function ChosenBet(bets: seq<Bet>): Option<nat> {
    PositionOrElse(PositionOrElse(PositionOrElse(FirstKnownIn(bets, {CashedOut}), FirstKnownIn(bets, {Lost})),
                                  FirstKnownIn(bets, {FailedBet})), FirstKnownIn(bets, {Reconciled}))
  }

  function EarliestBet(bets: seq<Bet>): Option<nat> {
    FirstKnownIn(bets, {CashedOut, Lost, FailedBet, Reconciled})
  }

  function BalanceAt(bets: seq<Bet>, i: Option<nat>): Option<real>
    requires i.Some? ==> i.value < |bets|
  {
    if i.None? then None else bets[i.value].balanceBefore
  }

  lemma {:induction false} FirstBalanceIsFirstKnown(bets: seq<Bet>, state: BetState, k: nat)
    requires k <= |bets|
    ensures FirstBalance(InState(bets, state, k), |InState(bets, state, k)|) ==
            BalanceAt(bets, FirstKnown(bets, {state}, k))
  {
    if k > 0 {
      FirstBalanceIsFirstKnown(bets, state, k - 1);
      if bets[k - 1].state == state {
        var before := InState(bets, state, k - 1);
        SumPrefix(before + [bets[k - 1]], |before|, |before|);
        assert (before + [bets[k - 1]])[..|before|] == before;
      }
    }
  }

  lemma BaselineIsChosen(bets: seq<Bet>)
    requires AllWithinPages(bets)
    ensures LoopBaseline(bets, true) == BalanceAt(bets, ChosenBet(bets))
  {
    FirstBalanceIsFirstKnown(bets, CashedOut, |bets|);
    FirstBalanceIsFirstKnown(bets, Lost, |bets|);
    FirstBalanceIsFirstKnown(bets, FailedBet, |bets|);
    FirstBalanceIsFirstKnown(bets, Reconciled, |bets|);
  }

  function Priority(state: BetState): nat {
    match state
    case CashedOut => 0
    case Lost => 1
    case FailedBet => 2
    case Reconciled => 3
    case _ => 4
  }

  /** The baseline is that of the earliest settled bet exactly when no bet of a state listed before
      that bet's own has a known balance; the design asks for the earliest in every case. */
  lemma BaselineIsEarliestIff(bets: seq<Bet>)
    requires EarliestBet(bets).Some?
    ensures ChosenBet(bets) == EarliestBet(bets) <==>
            forall i | 0 <= i < |bets| && bets[i].balanceBefore.Some? ::
              Priority(bets[EarliestBet(bets).value].state) <= Priority(bets[i].state)
  {
    var e := EarliestBet(bets).value;
    var c := ChosenBet(bets);
    assert forall i | 0 <= i < e :: !Known(bets[i], {CashedOut, Lost, FailedBet, Reconciled});
    assert FirstKnownIn(bets, {bets[e].state}) == Some(e);
  }

  /** The paged loop is right exactly when nothing was settled, on balance, by the time of the bet whose
      balance it starts from. */
  lemma PagingIsExactIff(bets: seq<Bet>, past: seq<seq<Bet>>, start: real)
    requires Consistent(bets, past, start) && ChosenBet(bets).Some?
    requires AllWithinPages(bets)
    ensures var (baseline, total) := BaselineAndTotal(bets, Paging);
            var earlier := past[ChosenBet(bets).value];
            && baseline.Some?
            && (baseline.value + total == TrueBalance(bets, start) <==> SettledPnl(earlier, |earlier|) == 0.0)
  {
    PagesSumEverything(bets);
    BaselineIsChosen(bets);
  }

  /** A loss at 100 and then a win at 90: the loop starts from 90, and reports 85 instead of 95. */
  lemma BaselineCanBeLater()
    ensures var bets := [Bet(None, 10.0, Lost, Some(-10.0), None, Some(100.0)),
                         Bet(None, 10.0, CashedOut, Some(5.0), None, Some(90.0))];
            && ChosenBet(bets) == Some(1) && EarliestBet(bets) == Some(0)
            && LoopBaseline(bets, true) == Some(90.0) && SettledPnl(bets, 2) == -5.0
  {
    var a := Bet(None, 10.0, Lost, Some(-10.0), None, Some(100.0));
    var b := Bet(None, 10.0, CashedOut, Some(5.0), None, Some(90.0));
    var bets := [a, b];
    assert InState(bets, CashedOut, 1) == [] && InState(bets, CashedOut, 2) == [b];
    assert FirstBalance([b], 1) == Some(90.0) by {
      assert FirstBalance([b], 0) == None;
    }
    assert SettledFrom(bets, 0, 1) == -10.0;
  }

  // ------------------------------------------------------------------ what the source's figures come to

  /** `x` is the balance that the figures of the source add up to: the account as the snapshot had it
      and everything settled of the bets created since; without a snapshot the newest known balance and
      everything settled; page by page the chosen bet's balance and everything settled. */
  ghost predicate ComesTo(bets: seq<Bet>, source: Source, x: real) {
    match source
    case Aggregate(Some(snap)) =>
      exists before, start :: SnapshotOf(snap, before, start) && Develops(before, bets) &&
                              x == TrueBalance(bets, start) - SettledSince(before, bets, |before|)
    case Aggregate(None) =>
      exists i | 0 <= i < |bets| && bets[i].balanceBefore.Some? ::
        && (forall j | i < j < |bets| :: bets[j].balanceBefore.None?)
        && x == bets[i].balanceBefore.value + SettledPnl(bets, |bets|)
    case Paging =>
      && ChosenBet(bets).Some? && AllWithinPages(bets)
      && x == bets[ChosenBet(bets).value].balanceBefore.value + SettledPnl(bets, |bets|)
    case NoPaging => false
  }

  /** The snapshot was taken of these bets, on an account that started with `start`. */
  ghost predicate SnapshotOf(snap: Snapshot, before: seq<Bet>, start: real) {
    snap.taken == |before| && snap.balance == TrueBalance(before, start)
  }

  /** Equal up to the rounding to cents. */
  predicate Near(x: real, y: real) {
    -0.005 <= x - y <= 0.005
  }

  lemma {:induction false} LatestIsUnique(bets: seq<Bet>, k: nat, i: nat)
    requires i < k <= |bets| && bets[i].balanceBefore.Some?
    requires forall j | i < j < k :: bets[j].balanceBefore.None?
    ensures LatestBalance(bets, k) == bets[i].balanceBefore
  {
    if i < k - 1 {
      LatestIsUnique(bets, k - 1, i);
    }
  }

  lemma ComesToIsSum(bets: seq<Bet>, source: Source, x: real)
    requires ComesTo(bets, source, x)
    ensures var (baseline, total) := BaselineAndTotal(bets, source);
            baseline.Some? && x == baseline.value + total
  {
    match source
    case Aggregate(Some(snap)) =>
      var before, start :| SnapshotOf(snap, before, start) && Develops(before, bets) &&
                           x == TrueBalance(bets, start) - SettledSince(before, bets, |before|);
      assert snap == Snapshot(TrueBalance(before, start), |before|);
      SnapshotIsExactIff(before, bets, start);
    case Aggregate(None) =>
      var i :| 0 <= i < |bets| && bets[i].balanceBefore.Some?
        && (forall j | i < j < |bets| :: bets[j].balanceBefore.None?)
        && x == bets[i].balanceBefore.value + SettledPnl(bets, |bets|);
      LatestIsUnique(bets, |bets|, i);
    case Paging =>
      PagesSumEverything(bets);
      BaselineIsChosen(bets);
    case NoPaging =>
  }

  lemma {:induction false} NoneKnown(rows: seq<Bet>, k: nat)
    requires k <= |rows| && forall i | 0 <= i < |rows| :: rows[i].balanceBefore.None?
    ensures FirstBalance(rows, k) == None && LatestBalance(rows, k) == None
  {
    if k > 0 {
      NoneKnown(rows, k - 1);
    }
  }

  lemma {:induction false} InStateMembers(bets: seq<Bet>, state: BetState, k: nat)
    requires k <= |bets| && forall i | 0 <= i < |bets| :: bets[i].balanceBefore.None?
    ensures forall i | 0 <= i < |InState(bets, state, k)| :: InState(bets, state, k)[i].balanceBefore.None?
    ensures forall n | 0 <= n <= |InState(bets, state, k)| :: FirstBalance(InState(bets, state, k), n) == None
  {
    if k > 0 {
      InStateMembers(bets, state, k - 1);
    }
    forall n | 0 <= n <= |InState(bets, state, k)| ensures FirstBalance(InState(bets, state, k), n) == None {
      NoneKnown(InState(bets, state, k), n);
    }
  }

  /** Neither a snapshot nor any bet knows a balance. */
  ghost predicate NothingKnown(bets: seq<Bet>, source: Source) {
    && (source.Aggregate? ==> source.snapshot.None?)
    && forall i | 0 <= i < |bets| :: bets[i].balanceBefore.None?
  }

  /** Then the observed balance stands for the expected one, and nothing for an unknown one. */
  lemma NothingKnownExpects(bets: seq<Bet>, source: Source, current: Option<real>)
    requires NothingKnown(bets, source)
    ensures Expected(bets, source, current) == if current.Some? then current.value else 0.0
  {
    NoneKnown(bets, |bets|);
    InStateMembers(bets, CashedOut, |bets|);
    InStateMembers(bets, Lost, |bets|);
    InStateMembers(bets, FailedBet, |bets|);
    InStateMembers(bets, Reconciled, |bets|);
  }

  lemma ExpectedIsNear(bets: seq<Bet>, source: Source, current: Option<real>, x: real)
    requires ComesTo(bets, source, x)
    ensures Near(Expected(bets, source, current), x)
  {
    ComesToIsSum(bets, source, x);
    RoundCentsNear(x);
  }

  method ComputeExpectedBalance(bets: seq<Bet>, source: Source, current: Option<real>, queriesOk: bool)
    returns (r: Result<real, string>)
    ensures r.Ok? <==> queriesOk
    ensures r.Ok? ==> r.value == Expected(bets, source, current)
    ensures r.Ok? ==> forall x | ComesTo(bets, source, x) :: Near(r.value, x)
    ensures r.Ok? && NothingKnown(bets, source) ==> r.value == if current.Some? then current.value else 0.0
  {
    if NothingKnown(bets, source) {
      NothingKnownExpects(bets, source, current);
    }
    forall x | ComesTo(bets, source, x) ensures Near(Expected(bets, source, current), x) {
      ExpectedIsNear(bets, source, current, x);
    }
    if !queriesOk {
      return Err("RECONCILE_COMPUTE_FAILED");
    }
    var total, baseline := 0.0, None;
    if source.Aggregate? {
      var row := AggregateRow(bets, source.snapshot);
      baseline, total := row.0, row.1;
    } else {
      total, baseline := AddState(0.0, None, bets, CashedOut, source.Paging?);
      total, baseline := AddState(total, baseline, bets, Lost, source.Paging?);
      total, baseline := AddState(total, baseline, bets, FailedBet, source.Paging?);
      total, baseline := AddState(total, baseline, bets, Reconciled, source.Paging?);
    }
    if baseline.None? {
      return Ok(current.GetOr(0.0));
    }
    return Ok(RoundCents(baseline.value + total));
  }

  // ------------------------------------------------------------------ the comparison

  datatype ReconcileConfig = ReconcileConfig(tolerance: real, emitAlerts: bool, haltOnMismatch: bool)

  const DEFAULT_TOLERANCE := 0.01
  const MAX_CONSECUTIVE := 3

  datatype Reconciliation = Reconciliation(
    reconciled: bool, expected: real, actual: Option<real>, difference: Option<real>, withinTolerance: bool,
    unresolvedBets: nat, alertSent: bool)

  /** What surrounds one reconciliation: the source of the expected balance, the queries for the balance
      and for the count may fail, and so may the two events. */
  datatype Reading = Reading(
    source: Source, queriesOk: bool, countOk: bool, current: Option<real>, alertOk: bool, pauseOk: bool)

  function Abs(x: real): real {
    if x < 0.0 then -x else x
  }

  predicate Matches(tolerance: real, actual: real, expected: real) {
    Abs(RoundCents(actual - expected)) <= tolerance
  }

  /** Rounding widens the default tolerance of a cent to a cent and a half, up to but not including
      the upper end. */
  lemma MatchesIff(actual: real, expected: real)
    ensures Matches(DEFAULT_TOLERANCE, actual, expected) <==> -0.015 <= actual - expected < 0.015
  {
    var d := (actual - expected) * 100.0 + 0.5;
    var n := d.Floor;
    assert n as real <= d < n as real + 1.0;
    assert RoundCents(actual - expected) * 100.0 == n as real;
    assert Matches(DEFAULT_TOLERANCE, actual, expected) <==> -1 <= n <= 1;
  }

  /** Rounding twice moves a difference by a cent at most: an account within less than a cent of what the
      figures come to matches, and one that is more than two cents off does not. */
  lemma MatchesTruth(bets: seq<Bet>, source: Source, actual: real, x: real)
    requires ComesTo(bets, source, x)
    ensures var expected := Expected(bets, source, Some(actual));
            && (-0.01 < actual - x < 0.01 ==> Matches(DEFAULT_TOLERANCE, actual, expected))
            && (actual - x < -0.02 || actual - x > 0.02 ==> !Matches(DEFAULT_TOLERANCE, actual, expected))
  {
    ExpectedIsNear(bets, source, Some(actual), x);
    MatchesIff(actual, Expected(bets, source, Some(actual)));
  }

  function Unresolved(bets: seq<Bet>, countOk: bool): nat {
    if countOk then UnknownCount(bets) else 0
  }

  class BalanceReconciliation {
    const repo: BetRepository
    const config: ReconcileConfig
    var consecutiveMismatches: nat
    var lastResult: Option<Reconciliation>

    constructor (repo: BetRepository, config: ReconcileConfig)
      ensures this.repo == repo && this.config == config && consecutiveMismatches == 0 && lastResult == None
    {
      this.repo, this.config, consecutiveMismatches, lastResult := repo, config, 0, None;
    }

    predicate ShouldHalt()
      reads this
    {
      consecutiveMismatches >= MAX_CONSECUTIVE
    }

    /** A balance was observed and does not match. */
    ghost predicate Mismatch(env: Reading)
      reads repo
    {
      && env.current.Some?
      && !Matches(config.tolerance, env.current.value, Expected(repo.bets, env.source, env.current))
    }

    /** The events of a mismatch, the given one in a row, go through. */
    predicate Alerts(env: Reading, mismatches: nat) {
      && (config.emitAlerts ==> env.alertOk)
      && (config.haltOnMismatch && mismatches >= MAX_CONSECUTIVE ==> env.pauseOk)
    }

    method CountUnresolvedBets(countOk: bool) returns (n: nat)
      ensures n == Unresolved(repo.bets, countOk)
    {
      n := if countOk then UnknownCount(repo.bets) else 0;
    }

    /** The alert and, after three mismatches in a row, the pause; either event can fail. */
    method HandleMismatch(env: Reading) returns (r: Result<bool, string>)
      ensures r.Ok? <==> Alerts(env, consecutiveMismatches)
      ensures r.Ok? ==> r.value == config.emitAlerts
    {
      if config.emitAlerts && !env.alertOk {
        return Err("alert failed");
      }
      if config.haltOnMismatch && ShouldHalt() && !env.pauseOk {
        return Err("pause failed");
      }
      return Ok(config.emitAlerts);
    }

    /** Reconciled exactly when the balance matches and the count query reported no unknown bet; a
        failed count reports none. Mismatches in a row are counted until a match. */
    method Reconcile(env: Reading) returns (r: Result<Reconciliation, string>)
      modifies this
      ensures r.Ok? ==>
                && env.queriesOk && lastResult == Some(r.value)
                && r.value.expected == Expected(repo.bets, env.source, env.current) && r.value.actual == env.current
                && r.value.unresolvedBets == Unresolved(repo.bets, env.countOk)
                && (r.value.withinTolerance <==>
                      env.current.Some? && Matches(config.tolerance, env.current.value, r.value.expected))
                && (r.value.reconciled <==> r.value.withinTolerance && r.value.unresolvedBets == 0)
      ensures r.Err? ==> lastResult == old(lastResult)
      ensures r.Ok? && r.value.withinTolerance ==> consecutiveMismatches == 0
      ensures !env.queriesOk || env.current.None? ==> consecutiveMismatches == old(consecutiveMismatches)
      ensures env.queriesOk && Mismatch(env) ==> consecutiveMismatches == old(consecutiveMismatches) + 1
      ensures r.Ok? <==> env.queriesOk && (Mismatch(env) ==> Alerts(env, old(consecutiveMismatches) + 1))
      ensures env.queriesOk && Mismatch(env) ==>
                (r.Ok? <==>
                   && (config.emitAlerts ==> env.alertOk)
                   && (config.haltOnMismatch && old(consecutiveMismatches) >= 2 ==> env.pauseOk))
      ensures r.Ok? && env.current.Some? && config.tolerance == DEFAULT_TOLERANCE ==>
                forall x | ComesTo(repo.bets, env.source, x) ::
                  && (-0.01 < env.current.value - x < 0.01 ==> r.value.withinTolerance)
                  && (env.current.value - x < -0.02 || env.current.value - x > 0.02 ==> !r.value.withinTolerance)
    {
      forall x | env.current.Some? && ComesTo(repo.bets, env.source, x)
        ensures var expected := Expected(repo.bets, env.source, env.current);
                && (-0.01 < env.current.value - x < 0.01 ==>
                      Matches(DEFAULT_TOLERANCE, env.current.value, expected))
                && (env.current.value - x < -0.02 || env.current.value - x > 0.02 ==>
                      !Matches(DEFAULT_TOLERANCE, env.current.value, expected))
      {
        MatchesTruth(repo.bets, env.source, env.current.value, x);
      }
      var expected := ComputeExpectedBalance(repo.bets, env.source, env.current, env.queriesOk);
      if expected.Err? {
        return Err(expected.error);
      }
      if env.current.None? {
        var unresolved := CountUnresolvedBets(env.countOk);
        var result := Reconciliation(false, expected.value, None, None, false, unresolved, false);
        lastResult := Some(result);
        return Ok(result);
      }
      var difference := RoundCents(env.current.value - expected.value);
      var withinTolerance := Abs(difference) <= config.tolerance;
      var unresolvedBets := CountUnresolvedBets(env.countOk);
      var result := Reconciliation(withinTolerance && unresolvedBets == 0, expected.value, env.current,
                                   Some(difference), withinTolerance, unresolvedBets, false);
      if !withinTolerance {
        consecutiveMismatches := consecutiveMismatches + 1;
        var alert := HandleMismatch(env);
        if alert.Err? {
          return Err(alert.error);
        }
        result := result.(alertSent := alert.value);
      } else {
        consecutiveMismatches := 0;
      }
      lastResult := Some(result);
      return Ok(result);
    }
  }
}
