/** The engine and its two workers as the source has them: objects that change tables step by
    step, roll back on errors and retry. Each method is tied to the functions of Settlement
    and SettlementRuns, whose properties are proved there. */
module SettlementEngine {
  import opened Outcomes
  import opened Journal
  import opened Settlement
  import opened SettlementSafety
  import opened SettlementRuns

  class Engine {
    var orders: seq<Order>
    var journal: seq<Entry>
    const guarded: bool
    var cache: map<Account, int>

    function Tables(): Db
      reads this
    {
      Db(orders, journal, guarded, cache)
    }

    constructor (guarded: bool)
      ensures Tables() == EmptyDb(guarded)
    {
      this.guarded := guarded;
      orders, journal, cache := [], [], map[HotWallet := 0, Unsettled := 0, RealizedPnl := 0];
    }

    method Insert(orderId: nat, account: Account, debit: int, credit: int) returns (e: Option<DbError>)
      modifies this`journal
      ensures var r := InsertEntry(old(Tables()), orderId, account, debit, credit);
              if r.Ok? then e.None? && Tables() == r.value
              else e == Some(r.error) && Tables() == old(Tables())
    {
      if debit == 0 && credit == 0 {
        return None;
      }
      if debit < 0 || credit < 0 || (debit != 0 && credit != 0) {
        return Some(ConstraintViolation);
      }
      journal := journal + [Entry(orderId, account, debit, credit)];
      return None;
    }

    method Rollback(snapshot: Db)
      requires snapshot.guarded == guarded && snapshot.cache == cache
      modifies this`orders, this`journal
      ensures Tables() == snapshot
    {
      orders, journal := snapshot.orders, snapshot.journal;
    }

    method CreateOrderIntentOnce(intent: CreateOrderIntent, fault: Fault) returns (r: Result<nat, DbError>)
      modifies this`orders, this`journal
      ensures (Tables(), r) == Attempt(old(Tables()), IntentBody(old(Tables()), intent), fault)
    {
      var snapshot := Tables();
      IntentNeverParses(snapshot, intent);
      if fault.AtSelect? {
        return Err(fault.e);
      }
      var existing := Find(orders, intent.clientOrderId);
      if existing.Some? {
        return if fault.Clean? then Ok(existing.value) else Err(fault.e);
      }
      var id := |orders|;
      orders := orders + [Order(intent.clientOrderId, intent.wagerAmount, OrderIntent, 0, intent.now)];
      var e := Insert(id, Unsettled, intent.wagerAmount, 0);
      if e.None? {
        e := Insert(id, HotWallet, 0, intent.wagerAmount);
      }
      if e.None? && !Balanced(Tables(), id) {
        e := Some(LedgerImbalance);
      }
      if e.Some? {
        Rollback(snapshot);
        return Err(e.value);
      }
      if fault.AtCommit? {
        Rollback(snapshot);
        return Err(fault.e);
      }
      return if fault.AckLost? then Err(fault.e) else Ok(id);
    }

    method CreateOrderIntent(intent: CreateOrderIntent, faults: seq<Fault>) returns (r: Result<nat, DbError>)
      modifies this`orders, this`journal
      ensures (Tables(), r) == CreateOrderIntentTx(old(Tables()), intent, faults)
    {
      ghost var body := (d: Db) => IntentBody(d, intent);
      var k := 0;
      r := CreateOrderIntentOnce(intent, FaultAt(faults, k));
      while r.Err? && r.error == SerializationFailure && k < MAX_RETRIES
        invariant k <= MAX_RETRIES
        invariant CreateOrderIntentTx(old(Tables()), intent, faults) ==
                  if r.Err? && r.error == SerializationFailure && k < MAX_RETRIES
                  then WithRetry(Tables(), body, faults, k + 1) else (Tables(), r)
        decreases MAX_RETRIES - k
      {
        k := k + 1;
        r := CreateOrderIntentOnce(intent, FaultAt(faults, k));
      }
    }

    method InsertSettlementLines(id: nat, wager: int, status: SettlementStatus, gross: int) returns (e: Option<DbError>)
      modifies this`journal
      ensures orders == old(orders)
      ensures var r := InsertSettlement(old(Tables()), id, wager, status, gross);
              if r.Ok? then e.None? && Tables() == r.value else e == Some(r.error)
    {
      match status {
        case VOID =>
          e := Insert(id, HotWallet, wager, 0);
          if e.None? {
            e := Insert(id, Unsettled, 0, wager);
          }
        case LOSS =>
          e := Insert(id, RealizedPnl, wager, 0);
          if e.None? {
            e := Insert(id, Unsettled, 0, wager);
          }
        case WIN =>
          e := None;
          if gross > 0 {
            e := Insert(id, HotWallet, gross, 0);
          }
          if e.None? {
            e := Insert(id, Unsettled, 0, wager);
          }
          var netPnl := gross - wager;
          if e.None? && netPnl > 0 {
            e := Insert(id, RealizedPnl, 0, netPnl);
          } else if e.None? && netPnl < 0 {
            e := Insert(id, RealizedPnl, -netPnl, 0);
          }
      }
    }

    method SettleOrderOnce(p: SettlementPayload, fault: Fault) returns (r: Result<SettleOutcome, DbError>)
      modifies this`orders, this`journal
      ensures (Tables(), r) == Attempt(old(Tables()), SettleBody(old(Tables()), p), fault)
    {
      var snapshot := Tables();
      if !ValidPayload(p) {
        return Err(InvalidPayload);
      }
      SettleParses(snapshot, p);
      if fault.AtSelect? {
        return Err(fault.e);
      }
      var found := Find(orders, p.clientOrderId);
      if found.None? {
        return Err(OrderNotFound);
      }
      var id := found.value;
      if IsFinal(orders[id].status) {
        return if fault.Clean? then Ok(AlreadyFinal) else Err(fault.e);
      }
      var e := InsertSettlementLines(id, orders[id].wager, p.status, p.grossPayout);
      if e.None? && !Balanced(Tables(), id) {
        e := Some(LedgerImbalance);
      }
      if e.None? && guarded && !TriggerAllows(orders[id].status, FinalStatus(p.status)) {
        e := Some(InvalidTransition);
      }
      if e.Some? {
        Rollback(snapshot);
        return Err(e.value);
      }
      orders := orders[id := orders[id].(status := FinalStatus(p.status), grossPayout := p.grossPayout)];
      if fault.AtCommit? {
        Rollback(snapshot);
        return Err(fault.e);
      }
      return if fault.AckLost? then Err(fault.e) else Ok(SettledNow);
    }

    method SettleOrder(p: SettlementPayload, faults: seq<Fault>) returns (r: Result<SettleOutcome, DbError>)
      modifies this`orders, this`journal
      ensures (Tables(), r) == SettleOrderTx(old(Tables()), p, faults)
    {
      ghost var body := (d: Db) => SettleBody(d, p);
      var k := 0;
      r := SettleOrderOnce(p, FaultAt(faults, k));
      while r.Err? && r.error == SerializationFailure && k < MAX_RETRIES
        invariant k <= MAX_RETRIES
        invariant SettleOrderTx(old(Tables()), p, faults) ==
                  if r.Err? && r.error == SerializationFailure && k < MAX_RETRIES
                  then WithRetry(Tables(), body, faults, k + 1) else (Tables(), r)
        decreases MAX_RETRIES - k
      {
        k := k + 1;
        r := SettleOrderOnce(p, FaultAt(faults, k));
      }
    }

    /** An UPDATE of one status; `ok` is false when the trigger raised. */
    method UpdateStatus(cid: string, from: set<Status>, to: Status) returns (ok: bool)
      modifies this`orders
      ensures var found := Find(old(orders), cid);
              if found.None? || old(orders)[found.value].status !in from then ok && orders == old(orders)
              else if guarded && !TriggerAllows(old(orders)[found.value].status, to) then !ok && orders == old(orders)
              else ok && orders == old(orders)[found.value := old(orders)[found.value].(status := to)]
    {
      var found := Find(orders, cid);
      if found.None? || orders[found.value].status !in from {
        return true;
      }
      if guarded && !TriggerAllows(orders[found.value].status, to) {
        return false;
      }
      orders := orders[found.value := orders[found.value].(status := to)];
      return true;
    }

    method MarkOrderDispatched(cid: string) returns (ok: bool)
      modifies this`orders
      ensures (Tables(), ok) == MarkDispatched(old(Tables()), cid)
    {
      ok := UpdateStatus(cid, {OrderIntent}, Dispatched);
    }

    method MarkOrderReconciling(cid: string) returns (ok: bool)
      modifies this`orders
      ensures (Tables(), ok) == MarkReconciling(old(Tables()), cid)
    {
      ok := UpdateStatus(cid, {Dispatched, PendingSettlement, OrderIntent}, Reconciling);
    }

    /** One row of a worker's batch, with the provider's reply. */
    method Handle(worker: Worker, row: Row, reply: Reply, faults: seq<Fault>) returns (item: Item)
      modifies this`orders, this`journal
      ensures (Tables(), item) == WorkItem(old(Tables()), worker, row, reply, faults)
    {
      if reply.Threw? {
        return ItemFailed;
      }
      if Decisive(reply) {
        var r := SettleOrder(PayloadFor(row, reply), faults);
        if r.Err? {
          return ItemFailed;
        }
        return if worker == Reconciler && reply.status == EvVoid then ItemVoided else ItemSettled;
      }
      if worker == Reconciler && row.status == Reconciling && !(reply.Evidence? && reply.status == EvPending) {
        return ItemSkipped;
      }
      var ok := MarkOrderReconciling(row.clientOrderId);
      return if ok then ItemReconciling else ItemFailed;
    }
  }

  lemma IntentNeverParses(db: Db, intent: CreateOrderIntent)
    ensures IntentBody(db, intent) != Err(InvalidPayload)
  {
  }

  lemma SettleParses(db: Db, p: SettlementPayload)
    requires ValidPayload(p)
    ensures SettleBody(db, p) != Err(InvalidPayload)
  {
  }

  // ------------------------------------------------------------------ the workers

  /** The worker's SELECT: rows in table order with an open status, old enough if asked. */
  function OpenRows(orders: seq<Order>, statuses: set<Status>, before: Option<int>): (rows: seq<Row>)
    ensures |rows| <= |orders|
  {
    if orders == [] then []
    else
      var o := orders[|orders| - 1];
      OpenRows(orders[..|orders| - 1], statuses, before) +
      if o.status in statuses && (before.Some? ==> o.createdAt < before.value)
      then [Row(o.clientOrderId, o.status, o.wager)] else []
  }

  function Limited(rows: seq<Row>, limit: nat): (r: seq<Row>)
    ensures r <= rows && (r == rows || |r| == limit) && |r| <= limit
  {
    if |rows| <= limit then rows else rows[..limit]
  }

  /** The rows are those of the selected orders, in the order of the table: `at` says where each one is. */
  ghost predicate Selects(rows: seq<Row>, orders: seq<Order>, at: seq<nat>, statuses: set<Status>, before: Option<int>)
  {
    && |at| == |rows|
    && (forall m, n | 0 <= m < n < |at| :: at[m] < at[n])
    && (forall m | 0 <= m < |at| :: at[m] < |orders| && rows[m] == RowOf(orders[at[m]]))
    && forall i: nat | i < |orders| :: i in at <==> Asked(orders[i], statuses, before)
  }

  function RowOf(o: Order): Row {
    Row(o.clientOrderId, o.status, o.wager)
  }

  predicate Asked(o: Order, statuses: set<Status>, before: Option<int>) {
    o.status in statuses && (before == None || o.createdAt < before.value)
  }

  lemma SelectsSkip(rows: seq<Row>, front: seq<Order>, at: seq<nat>, o: Order, statuses: set<Status>,
                    before: Option<int>)
    requires Selects(rows, front, at, statuses, before) && !Asked(o, statuses, before)
    ensures Selects(rows, front + [o], at, statuses, before)
  {
    assert forall i | i in at :: i < |front|;
  }

  lemma SelectsTake(rows: seq<Row>, front: seq<Order>, at: seq<nat>, o: Order, statuses: set<Status>,
                    before: Option<int>)
    requires Selects(rows, front, at, statuses, before) && Asked(o, statuses, before)
    ensures Selects(rows + [RowOf(o)], front + [o], at + [|front|], statuses, before)
  {
    var orders, at' := front + [o], at + [|front|];
    forall i: nat | i < |orders| ensures i in at' <==> Asked(orders[i], statuses, before) {
      assert i in at' <==> i in at || i == |front|;
    }
  }

  /** The worker's SELECT finds exactly the orders it asks for. */
  lemma {:induction false} OpenRowsSelect(orders: seq<Order>, statuses: set<Status>, before: Option<int>)
    returns (at: seq<nat>)
    ensures Selects(OpenRows(orders, statuses, before), orders, at, statuses, before)
  {
    if orders == [] {
      at := [];
    } else {
      var front, o := orders[..|orders| - 1], orders[|orders| - 1];
      assert orders == front + [o];
      at := OpenRowsSelect(front, statuses, before);
      if Asked(o, statuses, before) {
        SelectsTake(OpenRows(front, statuses, before), front, at, o, statuses, before);
        at := at + [|front|];
      } else {
        SelectsSkip(OpenRows(front, statuses, before), front, at, o, statuses, before);
        assert OpenRows(orders, statuses, before) == OpenRows(front, statuses, before);
      }
    }
  }

  /** What both workers look for. */
  const OPEN_STATUSES := {Dispatched, PendingSettlement, Reconciling, OrderIntent}

  lemma OpenStatuses(s: Status)
    ensures s in OPEN_STATUSES <==> s != SettledWin && s != SettledLoss && s != Void && s != Failed
  {
  }

  /** The first `n` rows of a batch, one after the other. */
  function WorkRows(db: Db, worker: Worker, rows: seq<Row>, replies: nat -> Reply, faults: nat -> seq<Fault>,
                    n: nat): (Db, seq<Item>)
    requires n <= |rows|
  {
    if n == 0 then (db, [])
    else
      var (d, items) := WorkRows(db, worker, rows, replies, faults, n - 1);
      var (d', item) := WorkItem(d, worker, rows[n - 1], replies(n - 1), faults(n - 1));
      (d', items + [item])
  }

  function CountItems(items: seq<Item>, kind: Item): nat {
    if items == [] then 0
    else CountItems(items[..|items| - 1], kind) + if items[|items| - 1] == kind then 1 else 0
  }

  datatype TickResult = TickResult(processed: nat, voided: nat, settled: nat, reconciling: nat)

  /** One reconciler tick. Every selected row is processed; a row counts as settled, voided or
      marked exactly when its own step ended so. */
  method Tick(engine: Engine, now: int, deadline: int, batchSize: nat, replies: nat -> Reply, faults: nat -> seq<Fault>)
    returns (r: TickResult, ghost items: seq<Item>)
    modifies engine
    ensures var rows := Limited(OpenRows(old(engine.orders), OPEN_STATUSES, Some(now - deadline)), batchSize);
            && (engine.Tables(), items) == WorkRows(old(engine.Tables()), Reconciler, rows, replies, faults, |rows|)
            && r.processed == |rows| <= batchSize
    ensures r.voided == CountItems(items, ItemVoided)
    ensures r.settled == CountItems(items, ItemSettled)
    ensures r.reconciling == CountItems(items, ItemReconciling)
  {
    var rows := Limited(OpenRows(engine.orders, OPEN_STATUSES, Some(now - deadline)), batchSize);
    var voided, settled, reconciling := 0, 0, 0;
    items := [];
    for k := 0 to |rows|
      invariant (engine.Tables(), items) == WorkRows(old(engine.Tables()), Reconciler, rows, replies, faults, k)
      invariant voided == CountItems(items, ItemVoided)
      invariant settled == CountItems(items, ItemSettled)
      invariant reconciling == CountItems(items, ItemReconciling)
    {
      var item := engine.Handle(Reconciler, rows[k], replies(k), faults(k));
      items := items + [item];
      match item {
        case ItemVoided => voided := voided + 1;
        case ItemSettled => settled := settled + 1;
        case ItemReconciling => reconciling := reconciling + 1;
        case _ =>
      }
    }
    r := TickResult(|rows|, voided, settled, reconciling);
  }

  datatype BootReconcileResult = BootReconcileResult(open: nat, settled: nat, voided: nat, stillOpen: nat, errors: nat)

  /** The boot pass: every open row is settled, still open or an error, and never voided in the
      counters (a VOID verdict counts as settled). */
  method BootReconcileOpenOrders(engine: Engine, limit: nat, replies: nat -> Reply, faults: nat -> seq<Fault>)
    returns (r: BootReconcileResult, ghost items: seq<Item>)
    modifies engine
    ensures var rows := Limited(OpenRows(old(engine.orders), OPEN_STATUSES, None), limit);
            && (engine.Tables(), items) == WorkRows(old(engine.Tables()), Boot, rows, replies, faults, |rows|)
            && r.open == |rows| <= limit
    ensures r.open == r.settled + r.stillOpen + r.errors
    ensures r.settled == CountItems(items, ItemSettled)
    ensures r.stillOpen == CountItems(items, ItemReconciling)
    ensures r.errors == CountItems(items, ItemFailed)
    ensures r.voided == 0
  {
    var rows := Limited(OpenRows(engine.orders, OPEN_STATUSES, None), limit);
    var settled, stillOpen, errors := 0, 0, 0;
    items := [];
    for k := 0 to |rows|
      invariant (engine.Tables(), items) == WorkRows(old(engine.Tables()), Boot, rows, replies, faults, k)
      invariant settled == CountItems(items, ItemSettled)
      invariant stillOpen == CountItems(items, ItemReconciling)
      invariant errors == CountItems(items, ItemFailed)
      invariant k == settled + stillOpen + errors
    {
      var item := engine.Handle(Boot, rows[k], replies(k), faults(k));
      items := items + [item];
      match item {
        case ItemSettled => settled := settled + 1;
        case ItemReconciling => stillOpen := stillOpen + 1;
        case _ => errors := errors + 1;
      }
    }
    r := BootReconcileResult(|rows|, settled, 0, stillOpen, errors);
  }

  // ------------------------------------------------------------------ batches are runs

  function BatchEvents(worker: Worker, rows: seq<Row>, replies: nat -> Reply, faults: nat -> seq<Fault>,
                       n: nat): seq<Event>
    requires n <= |rows|
  {
    if n == 0 then []
    else BatchEvents(worker, rows, replies, faults, n - 1) + [Work(worker, rows[n - 1], replies(n - 1), faults(n - 1))]
  }

  /** A batch is a run of work events, so everything proved of runs holds of ticks and passes. */
  lemma {:induction false} BatchIsRun(db: Db, worker: Worker, rows: seq<Row>, replies: nat -> Reply,
                                      faults: nat -> seq<Fault>, n: nat)
    requires n <= |rows|
    ensures WorkRows(db, worker, rows, replies, faults, n).0 == Run(db, BatchEvents(worker, rows, replies, faults, n))
  {
    if n > 0 {
      BatchIsRun(db, worker, rows, replies, faults, n - 1);
      RunSnoc(db, BatchEvents(worker, rows, replies, faults, n - 1),
              Work(worker, rows[n - 1], replies(n - 1), faults(n - 1)));
    }
  }

  lemma {:induction false} ItemsCount(db: Db, worker: Worker, rows: seq<Row>, replies: nat -> Reply,
                                      faults: nat -> seq<Fault>, n: nat)
    requires n <= |rows|
    ensures |WorkRows(db, worker, rows, replies, faults, n).1| == n
  {
    if n > 0 {
      ItemsCount(db, worker, rows, replies, faults, n - 1);
    }
  }

  /** A settle call that reports success leaves its order final. */
  lemma SettledIsFinal(db: Db, p: SettlementPayload, faults: seq<Fault>, i: nat)
    requires Inv(db) && i < |db.orders| && db.orders[i].clientOrderId == p.clientOrderId
    requires SettleOrderTx(db, p, faults).1.Ok?
    ensures var db' := SettleOrderTx(db, p, faults).0; i < |db'.orders| && IsFinal(db'.orders[i].status)
  {
    FindUnique(db.orders, i);
    SettleOrderAtMostOnce(db, p, faults);
    SettleResult(db, p);
  }

  /** A mark that the trigger let through leaves its order RECONCILING or later. */
  lemma MarkedRank(db: Db, cid: string, i: nat)
    requires UniqueIds(db.orders) && i < |db.orders| && db.orders[i].clientOrderId == cid
    requires MarkReconciling(db, cid).1
    ensures var db' := MarkReconciling(db, cid).0; i < |db'.orders| && Rank(db'.orders[i].status) >= 2
  {
    FindUnique(db.orders, i);
  }

  /** A boot item that did not fail leaves its order RECONCILING or final. */
  lemma BootItemAdvances(db: Db, row: Row, reply: Reply, faults: seq<Fault>, i: nat)
    requires Inv(db) && i < |db.orders| && db.orders[i].clientOrderId == row.clientOrderId
    requires WorkItem(db, Boot, row, reply, faults).1 != ItemFailed
    ensures i < |WorkItem(db, Boot, row, reply, faults).0.orders|
    ensures Rank(WorkItem(db, Boot, row, reply, faults).0.orders[i].status) >= 2
  {
    if Decisive(reply) {
      SettledIsFinal(db, PayloadFor(row, reply), faults, i);
    } else {
      MarkedRank(db, row.clientOrderId, i);
    }
  }

  lemma BatchKeeps(db: Db, worker: Worker, rows: seq<Row>, replies: nat -> Reply, faults: nat -> seq<Fault>, n: nat)
    requires Inv(db) && n <= |rows|
    ensures var db' := WorkRows(db, worker, rows, replies, faults, n).0; Inv(db') && Follows(db, db')
  {
    BatchIsRun(db, worker, rows, replies, faults, n);
    RunKeeps(db, BatchEvents(worker, rows, replies, faults, n));
  }

  lemma WorkItemFollows(db: Db, worker: Worker, row: Row, reply: Reply, faults: seq<Fault>)
    requires Inv(db)
    ensures Follows(db, WorkItem(db, worker, row, reply, faults).0)
  {
    if Decisive(reply) {
      SettleTxKeeps(db, PayloadFor(row, reply), faults);
    }
    MarkFollows(db, row.clientOrderId);
  }

  /** One more boot item: no rank falls, and the item's own order is RECONCILING or final unless
      the item failed. */
  lemma BootStep(db: Db, row: Row, reply: Reply, faults: seq<Fault>, db': Db, item: Item, i: nat)
    requires Inv(db) && i < |db.orders| && (db', item) == WorkItem(db, Boot, row, reply, faults)
    ensures i < |db'.orders| && Rank(db.orders[i].status) <= Rank(db'.orders[i].status)
    ensures db.orders[i].clientOrderId == row.clientOrderId && item != ItemFailed ==> Rank(db'.orders[i].status) >= 2
  {
    WorkItemFollows(db, Boot, row, reply, faults);
    if db.orders[i].clientOrderId == row.clientOrderId && item != ItemFailed {
      BootItemAdvances(db, row, reply, faults, i);
    }
  }

  lemma {:induction false} BatchPrefix(worker: Worker, rows: seq<Row>, replies: nat -> Reply, faults: nat -> seq<Fault>,
                                       m: nat, n: nat)
    requires m <= n <= |rows|
    ensures |BatchEvents(worker, rows, replies, faults, n)| == n
    ensures BatchEvents(worker, rows, replies, faults, m) <= BatchEvents(worker, rows, replies, faults, n)
  {
    if m < n {
      BatchPrefix(worker, rows, replies, faults, m, n - 1);
    } else if n > 0 {
      BatchPrefix(worker, rows, replies, faults, n - 1, n - 1);
    }
  }

  /** The rows after the first `m` only move the tables forward. */
  lemma TailFollows(db: Db, worker: Worker, rows: seq<Row>, replies: nat -> Reply, faults: nat -> seq<Fault>,
                    m: nat, n: nat)
    requires Inv(db) && m <= n <= |rows|
    ensures Follows(WorkRows(db, worker, rows, replies, faults, m).0, WorkRows(db, worker, rows, replies, faults, n).0)
  {
    var first, all := BatchEvents(worker, rows, replies, faults, m), BatchEvents(worker, rows, replies, faults, n);
    BatchIsRun(db, worker, rows, replies, faults, m);
    BatchIsRun(db, worker, rows, replies, faults, n);
    BatchPrefix(worker, rows, replies, faults, m, n);
    assert all == first + all[|first|..];
    RunConcat(db, first, all[|first|..]);
    RunKeeps(db, first);
    RunKeeps(Run(db, first), all[|first|..]);
  }

  lemma WorkRowsSnoc(db: Db, worker: Worker, rows: seq<Row>, replies: nat -> Reply, faults: nat -> seq<Fault>, n: nat)
    requires 0 < n <= |rows|
    ensures var (d, items) := WorkRows(db, worker, rows, replies, faults, n - 1);
            WorkRows(db, worker, rows, replies, faults, n).1 ==
            items + [WorkItem(d, worker, rows[n - 1], replies(n - 1), faults(n - 1)).1]
  {
  }

  lemma {:induction false} ItemStays(db: Db, worker: Worker, rows: seq<Row>, replies: nat -> Reply,
                                     faults: nat -> seq<Fault>, k: nat, n: nat)
    requires k < n <= |rows|
    ensures |WorkRows(db, worker, rows, replies, faults, n).1| == n
    ensures var d := WorkRows(db, worker, rows, replies, faults, k).0;
            WorkRows(db, worker, rows, replies, faults, n).1[k] ==
            WorkItem(d, worker, rows[k], replies(k), faults(k)).1
  {
    ItemsCount(db, worker, rows, replies, faults, n - 1);
    WorkRowsSnoc(db, worker, rows, replies, faults, n);
    if k < n - 1 {
      ItemStays(db, worker, rows, replies, faults, k, n - 1);
    }
  }

  lemma FollowingRank(a: Db, b: Db, i: nat)
    requires Follows(a, b) && i < |a.orders|
    ensures i < |b.orders| && Rank(a.orders[i].status) <= Rank(b.orders[i].status)
  {
  }

  /** After a boot pass no selected order is left in an earlier status, except where its item
      failed: what no evidence decides is RECONCILING, never VOID. */
  lemma BootPassAdvances(db: Db, rows: seq<Row>, replies: nat -> Reply, faults: nat -> seq<Fault>,
                         n: nat, k: nat, i: nat, db': Db, items: seq<Item>)
    requires Inv(db) && k < n <= |rows|
    requires i < |db.orders| && db.orders[i].clientOrderId == rows[k].clientOrderId
    requires (db', items) == WorkRows(db, Boot, rows, replies, faults, n)
    ensures i < |db'.orders| && |items| == n && (items[k] != ItemFailed ==> Rank(db'.orders[i].status) >= 2)
  {
    var d := WorkRows(db, Boot, rows, replies, faults, k).0;
    var next := WorkRows(db, Boot, rows, replies, faults, k + 1).0;
    BatchKeeps(db, Boot, rows, replies, faults, k);
    ItemStays(db, Boot, rows, replies, faults, k, n);
    BootStep(d, rows[k], replies(k), faults(k), next, items[k], i);
    TailFollows(db, Boot, rows, replies, faults, k + 1, n);
    FollowingRank(next, db', i);
  }

  lemma RunAround(db: Db, before: seq<Event>, d: Db, e: Event, d': Db, after: seq<Event>)
    requires d == Run(db, before) && d' == Step(d, e)
    ensures Run(db, before + ([e] + after)) == Run(d', after)
  {
    RunConcat(db, before, [e] + after);
    assert ([e] + after)[1..] == after;
  }

  /** Order `i` is there and RECONCILING or final. */
  ghost predicate Taken(db: Db, i: nat) {
    i < |db.orders| && Rank(db.orders[i].status) >= 2
  }

  lemma TakenStays(db: Db, events: seq<Event>, i: nat)
    requires Inv(db) && Taken(db, i)
    ensures Taken(Run(db, events), i)
  {
    RunKeeps(db, events);
  }

  lemma ItemKeepsInv(d: Db, worker: Worker, row: Row, reply: Reply, faults: seq<Fault>)
    requires Inv(d)
    ensures Inv(WorkItem(d, worker, row, reply, faults).0)
  {
    if Decisive(reply) {
      SettleTxKeeps(d, PayloadFor(row, reply), faults);
    }
    MarkKeepsInv(d, row.clientOrderId);
  }

  lemma BootItemTakes(d: Db, row: Row, reply: Reply, faults: seq<Fault>, d': Db, item: Item, i: nat)
    requires Inv(d) && (d', item) == WorkItem(d, Boot, row, reply, faults) && item != ItemFailed
    requires i < |d.orders| && d.orders[i].clientOrderId == row.clientOrderId
    ensures Inv(d') && Taken(d', i)
  {
    ItemKeepsInv(d, Boot, row, reply, faults);
    BootStep(d, row, reply, faults, d', item, i);
  }

  lemma ItemIsStep(d: Db, row: Row, reply: Reply, faults: seq<Fault>, d': Db, item: Item)
    requires (d', item) == WorkItem(d, Boot, row, reply, faults)
    ensures d' == Step(d, Work(Boot, row, reply, faults))
  {
  }

  lemma RunReaches(db: Db, before: seq<Event>, d: Db)
    requires Inv(db) && d == Run(db, before)
    ensures Inv(d)
  {
    RunKeeps(db, before);
  }

  /** Other calls may come between the items of a pass: whatever runs before and after it, a boot item
      that did not fail leaves its order RECONCILING or final for good. */
  lemma BootItemLasts(db: Db, before: seq<Event>, row: Row, reply: Reply, faults: seq<Fault>, after: seq<Event>,
                      d: Db, d': Db, item: Item, i: nat)
    requires Inv(db) && d == Run(db, before) && (d', item) == WorkItem(d, Boot, row, reply, faults)
    requires i < |d.orders| && d.orders[i].clientOrderId == row.clientOrderId && item != ItemFailed
    ensures Taken(Run(db, before + ([Work(Boot, row, reply, faults)] + after)), i)
  {
    RunReaches(db, before, d);
    BootItemTakes(d, row, reply, faults, d', item, i);
    TakenStays(d', after, i);
    ItemIsStep(d, row, reply, faults, d', item);
    RunAround(db, before, d, Work(Boot, row, reply, faults), d', after);
  }
}
