/** Whole runs of the settlement system: engine calls, the background reconciler and the boot
    pass in any interleaving, under any faults. */
module SettlementRuns {
  import opened Outcomes
  import opened Journal
  import opened Settlement
  import opened SettlementSafety

  datatype EvidenceStatus = EvWin | EvLoss | EvVoid | EvPending | EvUnknown

  /** What the evidence provider did for one order. */
  datatype Reply =
    | NoEvidence
    | Threw
    | Evidence(status: EvidenceStatus, grossPayout: Option<int>, multiplier: Option<int>)

  /** A row as the worker's SELECT returned it; its status may be stale when it is used. */
  datatype Row = Row(clientOrderId: string, status: Status, wager: int)

  datatype Item = ItemSettled | ItemVoided | ItemReconciling | ItemSkipped | ItemFailed

  datatype Worker = Reconciler | Boot

  predicate Decisive(reply: Reply) {
    reply.Evidence? && reply.status in {EvWin, EvLoss, EvVoid}
  }

  function DecidedStatus(reply: Reply): SettlementStatus
    requires Decisive(reply)
  {
    match reply.status
    case EvWin => WIN
    case EvLoss => LOSS
    case _ => VOID
  }

  /** The payload both workers build: missing payouts default to the wager for WIN and VOID
      and to nothing for LOSS, multipliers are raised to 1. */
  function PayloadFor(row: Row, reply: Reply): SettlementPayload
    requires Decisive(reply)
  {
    var gross := if reply.grossPayout.Some? then reply.grossPayout.value
                 else if reply.status in {EvWin, EvVoid} then row.wager else 0;
    var multiplier := if reply.multiplier.Some? && reply.multiplier.value > ONE then reply.multiplier.value else ONE;
    SettlementPayload(row.clientOrderId, DecidedStatus(reply), gross, multiplier)
  }

  /** One row of a worker's batch. The reconciler leaves a RECONCILING row without evidence
      alone; the boot pass marks every row without decisive evidence. */
  function WorkItem(db: Db, worker: Worker, row: Row, reply: Reply, faults: seq<Fault>): (Db, Item) {
    if reply.Threw? then (db, ItemFailed)
    else if Decisive(reply) then
      var (db', r) := SettleOrderTx(db, PayloadFor(row, reply), faults);
      (db', if r.Err? then ItemFailed
            else if worker == Reconciler && reply.status == EvVoid then ItemVoided else ItemSettled)
    else if worker == Reconciler && row.status == Reconciling && !(reply.Evidence? && reply.status == EvPending) then
      (db, ItemSkipped)
    else
      var (db', ok) := MarkReconciling(db, row.clientOrderId);
      (db', if ok then ItemReconciling else ItemFailed)
  }

  /** A call with all its retries, or one attempt of a call, which others may follow before the next:
      a run of attempts is an interleaving of retry loops. */
  datatype Event =
    | CreateIntent(intent: CreateOrderIntent, faults: seq<Fault>)
    | Dispatch(cid: string)
    | Suspend(cid: string)
    | Settle(payload: SettlementPayload, faults: seq<Fault>)
    | Work(worker: Worker, row: Row, reply: Reply, faults: seq<Fault>)
    | TryIntent(intent: CreateOrderIntent, fault: Fault)
    | TrySettle(payload: SettlementPayload, fault: Fault)
    | TryWork(row: Row, reply: Reply, fault: Fault)

  function Step(db: Db, e: Event): Db {
    match e
    case CreateIntent(intent, faults) => CreateOrderIntentTx(db, intent, faults).0
    case Dispatch(cid) => MarkDispatched(db, cid).0
    case Suspend(cid) => MarkReconciling(db, cid).0
    case Settle(p, faults) => SettleOrderTx(db, p, faults).0
    case Work(worker, row, reply, faults) => WorkItem(db, worker, row, reply, faults).0
    case TryIntent(intent, fault) => Attempt(db, IntentBody(db, intent), fault).0
    case TrySettle(p, fault) => Attempt(db, SettleBody(db, p), fault).0
    case TryWork(row, reply, fault) =>
      if Decisive(reply) then Attempt(db, SettleBody(db, PayloadFor(row, reply)), fault).0 else db
  }

  function Run(db: Db, events: seq<Event>): Db
    decreases |events|
  {
    if events == [] then db
    else Run(Step(db, events[0]), events[1..])
  }

  lemma {:induction false} RunSnoc(db: Db, events: seq<Event>, e: Event)
    ensures Run(db, events + [e]) == Step(Run(db, events), e)
    decreases |events|
  {
    if events == [] {
      assert [] + [e] == [e];
      assert Run(Step(db, e), [e][1..]) == Step(db, e);
    } else {
      assert (events + [e])[1..] == events[1..] + [e];
      RunSnoc(Step(db, events[0]), events[1..], e);
    }
  }

  lemma {:induction false} RunConcat(db: Db, a: seq<Event>, b: seq<Event>)
    ensures Run(db, a + b) == Run(Run(db, a), b)
    decreases |a|
  {
    if a == [] {
      assert a + b == b;
    } else {
      assert (a + b)[1..] == a[1..] + b;
      RunConcat(Step(db, a[0]), a[1..], b);
    }
  }

  /** Empty tables, with the cache as the migration seeds it. */
  function EmptyDb(guarded: bool): Db {
    Db([], [], guarded, map[HotWallet := 0, Unsettled := 0, RealizedPnl := 0])
  }

  lemma SettleTxKeeps(db: Db, p: SettlementPayload, faults: seq<Fault>)
    requires Inv(db)
    ensures var db' := SettleOrderTx(db, p, faults).0; Inv(db') && Follows(db, db')
  {
    SettleOrderAtMostOnce(db, p, faults);
    SettleMoves(db, p, SettleOrderTx(db, p, faults).0);
  }

  /** The payload an event settles with, and the intent it records. */
  function PayloadOf(e: Event): Option<SettlementPayload> {
    match e
    case Settle(p, _) => Some(p)
    case TrySettle(p, _) => Some(p)
    case Work(_, row, reply, _) => if Decisive(reply) then Some(PayloadFor(row, reply)) else None
    case TryWork(row, reply, _) => if Decisive(reply) then Some(PayloadFor(row, reply)) else None
    case _ => None
  }

  function IntentOf(e: Event): Option<CreateOrderIntent> {
    match e
    case CreateIntent(intent, _) => Some(intent)
    case TryIntent(intent, _) => Some(intent)
    case _ => None
  }

  ghost predicate Marks(db: Db, cid: string, db': Db) {
    db' == db || db' == MarkDispatched(db, cid).0 || db' == MarkReconciling(db, cid).0
  }

  /** The order that an event without payload and intent marks, if any. */
  function Marked(e: Event): string {
    match e
    case Dispatch(cid) => cid
    case Suspend(cid) => cid
    case Work(_, row, _, _) => row.clientOrderId
    case _ => ""
  }

  /** An event settles once or not at all, records one intent or none, or marks an order. */
  lemma StepSettles(db: Db, e: Event, db': Db)
    requires Inv(db) && PayloadOf(e).Some? && db' == Step(db, e)
    ensures db' == db || db' == Effect(db, SettleBody(db, PayloadOf(e).value))
  {
    match e
    case Settle(p, faults) => SettleOrderAtMostOnce(db, p, faults);
    case Work(worker, row, reply, faults) => SettleOrderAtMostOnce(db, PayloadFor(row, reply), faults);
    case _ =>
  }

  lemma StepRecords(db: Db, e: Event, db': Db)
    requires Inv(db) && IntentOf(e).Some? && db' == Step(db, e)
    ensures db' == db || db' == Effect(db, IntentBody(db, IntentOf(e).value))
  {
    match e
    case CreateIntent(intent, faults) => CreateOrderIntentAtMostOnce(db, intent, faults);
    case _ =>
  }

  lemma StepMarks(db: Db, e: Event, db': Db)
    requires PayloadOf(e).None? && IntentOf(e).None? && db' == Step(db, e)
    ensures Marks(db, Marked(e), db')
  {
  }

  ghost predicate Advances(db: Db, db': Db) {
    Inv(db') && Follows(db, db')
  }

  lemma SettleMoves(db: Db, p: SettlementPayload, db': Db)
    requires Inv(db) && (db' == db || db' == Effect(db, SettleBody(db, p)))
    ensures Advances(db, db') && |db'.orders| == |db.orders|
    ensures forall i | 0 <= i < |db.orders| && IsFinal(db'.orders[i].status) && !IsFinal(db.orders[i].status) ::
              && db.orders[i].clientOrderId == p.clientOrderId
              && db'.orders[i].status == FinalStatus(p.status) && db'.orders[i].grossPayout == p.grossPayout
  {
    SettleResult(db, p);
    SettleFollows(db, p);
  }

  lemma IntentMoves(db: Db, intent: CreateOrderIntent, db': Db)
    requires Inv(db) && (db' == db || db' == Effect(db, IntentBody(db, intent)))
    ensures Advances(db, db') && db.orders <= db'.orders
    ensures forall i | |db.orders| <= i < |db'.orders| :: db'.orders[i].status == OrderIntent
  {
    IntentResult(db, intent);
    IntentFollows(db, intent);
  }

  /** No order is added or made final, and the journal stays. */
  ghost predicate OnlyMarked(db: Db, db': Db) {
    && |db'.orders| == |db.orders| && db'.journal == db.journal
    && forall i | 0 <= i < |db.orders| && IsFinal(db'.orders[i].status) :: IsFinal(db.orders[i].status)
  }

  lemma DispatchOnlyMarks(db: Db, cid: string)
    ensures OnlyMarked(db, MarkDispatched(db, cid).0)
  {
  }

  lemma SuspendOnlyMarks(db: Db, cid: string)
    ensures OnlyMarked(db, MarkReconciling(db, cid).0)
  {
  }

  lemma MarkMoves(db: Db, cid: string, db': Db)
    requires Inv(db) && Marks(db, cid, db')
    ensures Advances(db, db') && OnlyMarked(db, db')
  {
    if db' != db {
      MarkKeepsInv(db, cid);
      MarkFollows(db, cid);
      DispatchOnlyMarks(db, cid);
      SuspendOnlyMarks(db, cid);
    }
  }

  lemma StepKeeps(db: Db, e: Event)
    requires Inv(db)
    ensures Inv(Step(db, e)) && Follows(db, Step(db, e))
  {
    var db' := Step(db, e);
    if PayloadOf(e).Some? {
      StepSettles(db, e, db');
      SettleMoves(db, PayloadOf(e).value, db');
    } else if IntentOf(e).Some? {
      StepRecords(db, e, db');
      IntentMoves(db, IntentOf(e).value, db');
    } else {
      StepMarks(db, e, db');
      MarkMoves(db, Marked(e), db');
    }
  }

  /** Along any run the invariant holds, rows keep their identity and wager, ranks never fall,
      final rows and their journal lines are frozen, the journal is append-only and the balance
      cache stays as it was. */
  lemma {:induction false} RunKeeps(db: Db, events: seq<Event>)
    requires Inv(db)
    ensures Inv(Run(db, events)) && Follows(db, Run(db, events))
    decreases |events|
  {
    if events != [] {
      StepKeeps(db, events[0]);
      RunKeeps(Step(db, events[0]), events[1..]);
      FollowsTransitive(db, Step(db, events[0]), Run(db, events));
    }
  }

  /** In every state reachable from empty tables the three accounts agree with the order
      table, and each order's journal is exactly one intent pair and, if the order is final,
      the closing lines of one settlement. */
  lemma ReachableAccounts(guarded: bool, events: seq<Event>)
    ensures var db := Run(EmptyDb(guarded), events);
            && Balance(db.journal, Unsettled) == SumOrders(db.orders, Exposure)
            && -Balance(db.journal, RealizedPnl) == SumOrders(db.orders, RealizedOf)
            && Balance(db.journal, HotWallet) + Balance(db.journal, Unsettled) == -Balance(db.journal, RealizedPnl)
            && UniqueIds(db.orders)
            && forall i | 0 <= i < |db.orders| ::
                 var es := EntriesOf(db.journal, i);
                 es == ExpectedEntries(i, db.orders[i]) && Booked(es, db.orders[i])
  {
    RunKeeps(EmptyDb(guarded), events);
    AccountsMatchOrders(Run(EmptyDb(guarded), events));
    forall i | 0 <= i < |Run(EmptyDb(guarded), events).orders|
      ensures var o := Run(EmptyDb(guarded), events).orders[i]; Booked(ExpectedEntries(i, o), o)
    {
      OrderContribution(i, Run(EmptyDb(guarded), events).orders[i]);
    }
  }

  /** What getAccountBalance reports is the journal's balance exactly when that is zero: nothing
      writes the cache that it reads. */
  lemma ReportedBalanceIff(guarded: bool, events: seq<Event>, account: Account)
    ensures var db := Run(EmptyDb(guarded), events);
            && GetAccountBalance(db, account) == 0
            && (GetAccountBalance(db, account) == Balance(db.journal, account) <==> Balance(db.journal, account) == 0)
  {
    RunKeeps(EmptyDb(guarded), events);
  }

  lemma RunOne(db: Db, e: Event)
    ensures Run(db, [e]) == Step(db, e)
  {
    assert Run(Step(db, e), [e][1..]) == Step(db, e);
  }

  lemma FirstIntent(guarded: bool, intent: CreateOrderIntent)
    requires intent.wagerAmount >= 0
    ensures Step(EmptyDb(guarded), CreateIntent(intent, [])) == WithIntent(EmptyDb(guarded), intent)
  {
    NewIntentResult(EmptyDb(guarded), intent);
    assert FaultAt([], 0) == Clean;
  }

  /** What is reported, and what the journal says. */
  ghost predicate Reports(db: Db, account: Account, reported: int, balance: int) {
    GetAccountBalance(db, account) == reported && Balance(db.journal, account) == balance
  }

  lemma PairReports(w: int)
    ensures Balance(IntentLines(0, w), HotWallet) == -w && Balance(IntentLines(0, w), Unsettled) == w
  {
    PairMoves(0, Unsettled, HotWallet, w);
  }

  lemma FirstIntentReports(guarded: bool, intent: CreateOrderIntent, db: Db)
    requires db == WithIntent(EmptyDb(guarded), intent)
    ensures Reports(db, HotWallet, 0, -intent.wagerAmount) && Reports(db, Unsettled, 0, intent.wagerAmount)
  {
    PairReports(intent.wagerAmount);
    assert db.journal == [] + IntentLines(0, intent.wagerAmount) == IntentLines(0, intent.wagerAmount);
  }

  /** One intent locks its wager: the hot wallet is down by it, and the reported balance stays zero. */
  lemma IntentNotReported(guarded: bool, intent: CreateOrderIntent)
    requires intent.wagerAmount > 0
    ensures var db := Run(EmptyDb(guarded), [CreateIntent(intent, [])]);
            Reports(db, HotWallet, 0, -intent.wagerAmount) && Reports(db, Unsettled, 0, intent.wagerAmount)
  {
    RunOne(EmptyDb(guarded), CreateIntent(intent, []));
    FirstIntent(guarded, intent);
    FirstIntentReports(guarded, intent, Run(EmptyDb(guarded), [CreateIntent(intent, [])]));
  }

  // ------------------------------------------------------------------ evidence

  /** A direct call of settleOrder, whole or one attempt. */
  predicate Direct(e: Event) {
    e.Settle? || e.TrySettle?
  }

  /** The status that the provider's verdict stands for. */
  predicate Means(verdict: EvidenceStatus, status: Status) {
    match verdict
    case EvWin => status == SettledWin
    case EvLoss => status == SettledLoss
    case EvVoid => status == Void
    case _ => false
  }

  /** The payout is the reply's own; without one it is the row's wager for a WIN or VOID and nothing for
      a LOSS. */
  predicate Pays(reply: Reply, wager: int, gross: int)
    requires reply.Evidence?
  {
    && (reply.grossPayout.Some? ==> gross == reply.grossPayout.value)
    && (reply.grossPayout.None? && reply.status != EvLoss ==> gross == wager)
    && (reply.grossPayout.None? && reply.status == EvLoss ==> gross == 0)
  }

  /** The event is a worker acting on decisive evidence for this order, with this payout. */
  predicate Proves(e: Event, cid: string, status: Status, gross: int) {
    && (e.Work? || e.TryWork?) && e.row.clientOrderId == cid
    && e.reply.Evidence? && Means(e.reply.status, status) && Pays(e.reply, e.row.wager, gross)
  }

  /** A step that makes an order final, other than a direct settleOrder call, carries the
      provider's own verdict and payout for that order. */
  lemma StepNeedsEvidence(db: Db, e: Event, db': Db, i: nat)
    requires Inv(db) && i < |db.orders| && !Direct(e) && db' == Step(db, e)
    ensures |db.orders| <= |db'.orders|
    ensures IsFinal(db'.orders[i].status) && !IsFinal(db.orders[i].status) ==>
              Proves(e, db.orders[i].clientOrderId, db'.orders[i].status, db'.orders[i].grossPayout)
  {
    if PayloadOf(e).Some? {
      StepSettles(db, e, db');
      SettleMoves(db, PayloadOf(e).value, db');
    } else if IntentOf(e).Some? {
      StepRecords(db, e, db');
      IntentMoves(db, IntentOf(e).value, db');
    } else {
      StepMarks(db, e, db');
      MarkMoves(db, Marked(e), db');
    }
  }

  /** Over any interleaving of intents, dispatches, reconciler items and boot items, an order
      that is final at the end and was not at the start was proved so by the provider, payout included. */
  lemma {:induction false} FinalOnlyByEvidence(db: Db, events: seq<Event>, i: nat)
    requires Inv(db) && i < |db.orders| && !IsFinal(db.orders[i].status)
    requires forall e <- events :: !Direct(e)
    ensures |db.orders| <= |Run(db, events).orders|
    ensures var o := Run(db, events).orders[i];
            IsFinal(o.status) ==> exists e :: e in events && Proves(e, o.clientOrderId, o.status, o.grossPayout)
    decreases |events|
  {
    RunKeeps(db, events);
    if events != [] {
      var db1 := Step(db, events[0]);
      StepKeeps(db, events[0]);
      StepNeedsEvidence(db, events[0], db1, i);
      RunKeeps(db1, events[1..]);
      if IsFinal(db1.orders[i].status) {
        var o := Run(db, events).orders[i];
        assert Proves(events[0], o.clientOrderId, o.status, o.grossPayout);
      } else {
        FinalOnlyByEvidence(db1, events[1..], i);
      }
    }
  }

  /** The same for orders created during the run. */
  lemma {:induction false} BornFinalOnlyByEvidence(db: Db, events: seq<Event>, i: nat)
    requires Inv(db) && i < |Run(db, events).orders| && |db.orders| <= i
    requires forall e <- events :: !Direct(e)
    ensures var o := Run(db, events).orders[i];
            IsFinal(o.status) ==> exists e :: e in events && Proves(e, o.clientOrderId, o.status, o.grossPayout)
    decreases |events|
  {
    if events != [] {
      var db1 := Step(db, events[0]);
      StepKeeps(db, events[0]);
      if i < |db1.orders| {
        BornOpen(db, events[0], db1, i);
        FinalOnlyByEvidence(db1, events[1..], i);
      } else {
        BornFinalOnlyByEvidence(db1, events[1..], i);
      }
    }
  }

  lemma BornOpen(db: Db, e: Event, db': Db, i: nat)
    requires Inv(db) && db' == Step(db, e) && |db.orders| <= i < |db'.orders|
    ensures db'.orders[i].status == OrderIntent
  {
    if PayloadOf(e).Some? {
      StepSettles(db, e, db');
      SettleMoves(db, PayloadOf(e).value, db');
    } else if IntentOf(e).Some? {
      StepRecords(db, e, db');
      IntentMoves(db, IntentOf(e).value, db');
    } else {
      StepMarks(db, e, db');
      MarkMoves(db, Marked(e), db');
    }
  }

  lemma EvenWinMoves(db: Db, id: nat, wager: int)
    ensures Balance(db.journal + WinLines(id, wager, wager), RealizedPnl) == Balance(db.journal, RealizedPnl)
  {
    WinMoves(id, wager, wager);
    BalanceConcat(db.journal, WinLines(id, wager, wager), RealizedPnl);
  }

  /** A worker whose row has the table's wager books a WIN without a payout as an even one. */
  lemma WinWithoutPayoutIsEven(db: Db, e: Event, db': Db)
    requires Inv(db) && (e.Work? || e.TryWork?) && db' == Step(db, e)
    requires e.reply.Evidence? && e.reply.status == EvWin && e.reply.grossPayout == None
    requires forall o <- db.orders :: o.clientOrderId == e.row.clientOrderId ==> o.wager == e.row.wager
    ensures Balance(db'.journal, RealizedPnl) == Balance(db.journal, RealizedPnl)
  {
    StepSettles(db, e, db');
    SettleResult(db, PayloadOf(e).value);
    if db' != db {
      var id := Find(db.orders, e.row.clientOrderId).value;
      assert db.orders[id] in db.orders;
      EvenWinMoves(db, id, e.row.wager);
    }
  }

  /** With decisive evidence, any multiplier and a payout that is missing or at least zero, an item with
      no fault settles exactly the known orders that the trigger, where installed, lets become final. */
  lemma DecisiveItemSettles(db: Db, worker: Worker, row: Row, reply: Reply)
    requires Inv(db) && row.clientOrderId != "" && row.wager >= 0
    requires reply.Evidence? && (reply.status == EvWin || reply.status == EvLoss || reply.status == EvVoid)
    requires reply.grossPayout.Some? ==> reply.grossPayout.value >= 0
    ensures var found, item := Find(db.orders, row.clientOrderId), WorkItem(db, worker, row, reply, []).1;
            && (item == ItemSettled || item == ItemVoided <==>
                  found.Some? && (db.guarded ==> db.orders[found.value].status !in {OrderIntent, Failed}))
            && (item == ItemVoided ==> worker == Reconciler && reply.status == EvVoid)
            && (item == ItemSettled ==> worker == Boot || reply.status != EvVoid)
  {
    SettleAccepts(db, PayloadFor(row, reply));
    SettleResult(db, PayloadFor(row, reply));
    assert FaultAt([], 0) == Clean;
  }

  /** The reconciler has nothing to do: a RECONCILING row, and still no verdict or an unknown one. */
  predicate StillWaiting(worker: Worker, row: Row, reply: Reply) {
    && worker == Reconciler && row.status == Reconciling
    && (reply.NoEvidence? || (reply.Evidence? && reply.status == EvUnknown))
  }

  /** An item without a verdict: a provider that threw and an order still waiting change nothing; otherwise
      an open order becomes RECONCILING, unless it was never dispatched and the trigger is installed. */
  lemma UndecidedItem(db: Db, worker: Worker, row: Row, reply: Reply, faults: seq<Fault>, i: nat)
    requires UniqueIds(db.orders) && i < |db.orders| && db.orders[i].clientOrderId == row.clientOrderId
    requires reply.Evidence? ==> reply.status == EvPending || reply.status == EvUnknown
    ensures var (db', item) := WorkItem(db, worker, row, reply, faults);
            var o := db.orders[i];
            && db'.journal == db.journal && |db'.orders| == |db.orders|
            && (reply.Threw? ==> db' == db && item == ItemFailed)
            && (StillWaiting(worker, row, reply) ==> db' == db && item == ItemSkipped)
            && (!reply.Threw? && !StillWaiting(worker, row, reply) ==>
                  && item == (if db.guarded && o.status == OrderIntent then ItemFailed else ItemReconciling)
                  && db'.orders[i] == if o.status == Dispatched || o.status == PendingSettlement ||
                                         (o.status == OrderIntent && !db.guarded)
                                      then o.(status := Reconciling) else o)
  {
    MarkResult(db, row.clientOrderId, i);
  }

  /** Without decisive evidence the workers never touch the journal. */
  lemma {:induction false} NoEvidenceNoEntries(db: Db, events: seq<Event>)
    requires forall e <- events :: (e.Work? || e.TryWork?) && !Decisive(e.reply)
    ensures Run(db, events).journal == db.journal
    decreases |events|
  {
    if events != [] {
      assert events[0] in events;
      assert Step(db, events[0]).journal == db.journal;
      NoEvidenceNoEntries(Step(db, events[0]), events[1..]);
    }
  }
}
