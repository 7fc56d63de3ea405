/** The settlement engine: what one transaction does, what faults and retries make of it,
    and what every reachable ledger satisfies. */
module Settlement {
  import opened Outcomes
  import opened Journal

  /** Why a call rejects. SerializationFailure is SQLSTATE 40001, the only retried one. */
  datatype DbError =
    | SerializationFailure
    | ConnectionLost
    | ConstraintViolation
    | InvalidTransition
    | LedgerImbalance
    | OrderNotFound
    | InvalidPayload

  datatype CreateOrderIntent = CreateOrderIntent(clientOrderId: string, wagerAmount: int, now: int)

  datatype SettlementStatus = WIN | LOSS | VOID

  datatype SettlementPayload = SettlementPayload(
    clientOrderId: string, status: SettlementStatus, grossPayout: int, multiplier: int)

  datatype SettleOutcome = SettledNow | AlreadyFinal

  /** What the database does to one attempt at a transaction. AckLost commits and then
      reports an error, as a connection that drops after COMMIT does. */
  datatype Fault = Clean | AtSelect(e: DbError) | AtCommit(e: DbError) | AckLost(e: DbError)

  /** 1.0 in units of 1e-8. */
  const ONE := 100_000_000

  const MAX_RETRIES := 4

  // ------------------------------------------------------------------ one transaction

  function Find(orders: seq<Order>, cid: string): (r: Option<nat>)
    ensures r.Some? ==> r.value < |orders| && orders[r.value].clientOrderId == cid
    ensures r.None? ==> forall o <- orders :: o.clientOrderId != cid
  {
    if orders == [] then None
    else
      var r := Find(orders[..|orders| - 1], cid);
      if r.Some? then r
      else if orders[|orders| - 1].clientOrderId == cid then Some(|orders| - 1)
      else None
  }

  /** Lines with neither side are skipped; the table's CHECKs refuse negative amounts. */
  function InsertEntry(db: Db, orderId: nat, account: Account, debit: int, credit: int): (r: Result<Db, DbError>)
    ensures r.Ok? ==> r.value.orders == db.orders && db.journal <= r.value.journal
  {
    if debit == 0 && credit == 0 then Ok(db)
    else if debit < 0 || credit < 0 || (debit != 0 && credit != 0) then Err(ConstraintViolation)
    else Ok(db.(journal := db.journal + [Entry(orderId, account, debit, credit)]))
  }

  /** The check tolerates 1e-8, one unit. */
  predicate Balanced(db: Db, orderId: nat) {
    var es := EntriesOf(db.journal, orderId);
    -1 <= TotalDebit(es) - TotalCredit(es) <= 1
  }

  function IntentBody(db: Db, intent: CreateOrderIntent): Result<(Db, nat), DbError> {
    match Find(db.orders, intent.clientOrderId)
    case Some(id) => Ok((db, id))
    case None =>
      var id := |db.orders|;
      var row := Order(intent.clientOrderId, intent.wagerAmount, OrderIntent, 0, intent.now);
      var db1 := db.(orders := db.orders + [row]);
      var db2 :- InsertEntry(db1, id, Unsettled, intent.wagerAmount, 0);
      var db3 :- InsertEntry(db2, id, HotWallet, 0, intent.wagerAmount);
      if Balanced(db3, id) then Ok((db3, id)) else Err(LedgerImbalance)
  }

  predicate ValidPayload(p: SettlementPayload) {
    p.clientOrderId != "" && p.grossPayout >= 0 && p.multiplier >= ONE
  }

  function FinalStatus(s: SettlementStatus): Status {
    match s
    case WIN => SettledWin
    case LOSS => SettledLoss
    case VOID => Void
  }

  /** The trigger's transition table. */
  predicate TriggerAllows(from: Status, to: Status) {
    || from == to
    || (from == OrderIntent && to in {Dispatched, Failed})
    || (from == Dispatched && to in {PendingSettlement, Reconciling, SettledWin, SettledLoss, Void, Failed})
    || (from == PendingSettlement && to in {SettledWin, SettledLoss, Void, Reconciling})
    || (from == Reconciling && to in {SettledWin, SettledLoss, Void, Failed})
  }

  function SetStatus(db: Db, id: nat, status: Status, gross: int): Result<Db, DbError>
    requires id < |db.orders|
  {
    if db.guarded && !TriggerAllows(db.orders[id].status, status) then Err(InvalidTransition)
    else Ok(db.(orders := db.orders[id := db.orders[id].(status := status, grossPayout := gross)]))
  }

  /** The lines written on settlement, branch by branch. */
  function InsertSettlement(db: Db, id: nat, wager: int, status: SettlementStatus, gross: int): (r: Result<Db, DbError>)
    ensures r.Ok? ==> r.value.orders == db.orders && db.journal <= r.value.journal
  {
    match status
    case VOID =>
      var db1 :- InsertEntry(db, id, HotWallet, wager, 0);
      InsertEntry(db1, id, Unsettled, 0, wager)
    case LOSS =>
      var db1 :- InsertEntry(db, id, RealizedPnl, wager, 0);
      InsertEntry(db1, id, Unsettled, 0, wager)
    case WIN =>
      var paid := if gross > 0 then InsertEntry(db, id, HotWallet, gross, 0) else Ok(db);
      if paid.Err? then paid
      else
        var db2 :- InsertEntry(paid.value, id, Unsettled, 0, wager);
        var netPnl := gross - wager;
        if netPnl > 0 then InsertEntry(db2, id, RealizedPnl, 0, netPnl)
        else if netPnl < 0 then InsertEntry(db2, id, RealizedPnl, -netPnl, 0)
        else Ok(db2)
  }

  function SettleBody(db: Db, p: SettlementPayload): Result<(Db, SettleOutcome), DbError> {
    if !ValidPayload(p) then Err(InvalidPayload)
    else match Find(db.orders, p.clientOrderId)
      case None => Err(OrderNotFound)
      case Some(id) =>
        if IsFinal(db.orders[id].status) then Ok((db, AlreadyFinal))
        else
          var db1 :- InsertSettlement(db, id, db.orders[id].wager, p.status, p.grossPayout);
          if !Balanced(db1, id) then Err(LedgerImbalance)
          else
            var db2 :- SetStatus(db1, id, FinalStatus(p.status), p.grossPayout);
            Ok((db2, SettledNow))
  }

  // ------------------------------------------------------------------ faults and retries

  /** Where a transaction leaves the tables if it commits. */
  function Effect<T>(db: Db, body: Result<(Db, T), DbError>): Db {
    if body.Ok? then body.value.0 else db
  }

  function Attempt<T>(db: Db, body: Result<(Db, T), DbError>, fault: Fault): (Db, Result<T, DbError>) {
    match fault
    case AtSelect(e) => (db, if body.Err? && body.error == InvalidPayload then Err(InvalidPayload) else Err(e))
    case AtCommit(e) => (db, if body.Err? then Err(body.error) else Err(e))
    case AckLost(e) => (Effect(db, body), if body.Err? then Err(body.error) else Err(e))
    case Clean => (Effect(db, body), if body.Err? then Err(body.error) else Ok(body.value.1))
  }

  function FaultAt(faults: seq<Fault>, k: nat): Fault {
    if k < |faults| then faults[k] else Clean
  }

  /** withRetry from attempt number `k` on: only 40001 is retried, four times at most. */
  function WithRetry<T>(db: Db, body: Db -> Result<(Db, T), DbError>, faults: seq<Fault>, k: nat)
    : (Db, Result<T, DbError>)
    requires k <= MAX_RETRIES
    decreases MAX_RETRIES - k
  {
    var (db', r) := Attempt(db, body(db), FaultAt(faults, k));
    if r.Err? && r.error == SerializationFailure && k < MAX_RETRIES then WithRetry(db', body, faults, k + 1)
    else (db', r)
  }

  function CreateOrderIntentTx(db: Db, intent: CreateOrderIntent, faults: seq<Fault>): (Db, Result<nat, DbError>) {
    WithRetry(db, (d: Db) => IntentBody(d, intent), faults, 0)
  }

  function SettleOrderTx(db: Db, p: SettlementPayload, faults: seq<Fault>): (Db, Result<SettleOutcome, DbError>) {
    WithRetry(db, (d: Db) => SettleBody(d, p), faults, 0)
  }

  /** UPDATE ... SET status = 'DISPATCHED' WHERE ... status = 'ORDER_INTENT'. */
  function MarkDispatched(db: Db, cid: string): (Db, bool) {
    match Find(db.orders, cid)
    case None => (db, true)
    case Some(id) =>
      if db.orders[id].status != OrderIntent then (db, true)
      else match SetStatus(db, id, Dispatched, db.orders[id].grossPayout)
        case Ok(db') => (db', true)
        case Err(_) => (db, false)
  }

  /** The second component is false when the trigger raised. */
  function MarkReconciling(db: Db, cid: string): (Db, bool) {
    match Find(db.orders, cid)
    case None => (db, true)
    case Some(id) =>
      if db.orders[id].status !in {OrderIntent, Dispatched, PendingSettlement} then (db, true)
      else match SetStatus(db, id, Reconciling, db.orders[id].grossPayout)
        case Ok(db') => (db', true)
        case Err(_) => (db, false)
  }

  // ------------------------------------------------------------------ the accounting model

  function Line(id: nat, account: Account, debit: int, credit: int): seq<Entry> {
    if debit == 0 && credit == 0 then [] else [Entry(id, account, debit, credit)]
  }

  function IntentLines(id: nat, wager: int): seq<Entry> {
    Line(id, Unsettled, wager, 0) + Line(id, HotWallet, 0, wager)
  }

  function LossLines(id: nat, wager: int): seq<Entry> {
    Line(id, RealizedPnl, wager, 0) + Line(id, Unsettled, 0, wager)
  }

  function VoidLines(id: nat, wager: int): seq<Entry> {
    Line(id, HotWallet, wager, 0) + Line(id, Unsettled, 0, wager)
  }

  function WinLines(id: nat, wager: int, gross: int): seq<Entry> {
    Line(id, HotWallet, gross, 0) + Line(id, Unsettled, 0, wager)
    + Line(id, RealizedPnl, if gross < wager then wager - gross else 0, if gross > wager then gross - wager else 0)
  }

  function ClosingLines(id: nat, wager: int, gross: int, status: Status): seq<Entry> {
    match status
    case SettledWin => WinLines(id, wager, gross)
    case SettledLoss => LossLines(id, wager)
    case Void => VoidLines(id, wager)
    case _ => []
  }

  /** The journal an order must have, read off its row alone: one intent pair, then the
      closing lines of the one settlement if it is final. */
  function ExpectedEntries(id: nat, o: Order): seq<Entry> {
    IntentLines(id, o.wager) + ClosingLines(id, o.wager, o.grossPayout, o.status)
  }

  ghost predicate UniqueIds(orders: seq<Order>) {
    forall i, j | 0 <= i < j < |orders| :: orders[i].clientOrderId != orders[j].clientOrderId
  }

  ghost predicate Inv(db: Db) {
    && UniqueIds(db.orders)
    && (forall o <- db.orders :: o.wager >= 0 && o.grossPayout >= 0)
    && (forall e <- db.journal :: e.orderId < |db.orders|)
    && (forall i | 0 <= i < |db.orders| :: EntriesOf(db.journal, i) == ExpectedEntries(i, db.orders[i]))
  }

  function Exposure(o: Order): int {
    if IsFinal(o.status) then 0 else o.wager
  }

  function RealizedOf(o: Order): int {
    if o.status == SettledWin then o.grossPayout - o.wager
    else if o.status == SettledLoss then -o.wager
    else 0
  }

  function NegRealizedOf(o: Order): int {
    -RealizedOf(o)
  }

  function WalletOf(o: Order): int {
    RealizedOf(o) - Exposure(o)
  }

  lemma LineTotals(id: nat, account: Account, d: int, c: int)
    ensures Balance(Line(id, account, d, c), account) == d - c
    ensures forall a | a != account :: Balance(Line(id, account, d, c), a) == 0
    ensures TotalDebit(Line(id, account, d, c)) == d
    ensures TotalCredit(Line(id, account, d, c)) == c
  {
  }

  lemma {:induction false} TotalsConcat(a: seq<Entry>, b: seq<Entry>)
    ensures TotalDebit(a + b) == TotalDebit(a) + TotalDebit(b)
    ensures TotalCredit(a + b) == TotalCredit(a) + TotalCredit(b)
  {
    if b == [] {
      assert a + b == a;
    } else {
      assert (a + b)[..|a + b| - 1] == a + b[..|b| - 1];
      TotalsConcat(a, b[..|b| - 1]);
    }
  }

  /** Balances and totals of two lists put one after the other. */
  lemma AppendTotals(a: seq<Entry>, b: seq<Entry>)
    ensures forall x :: Balance(a + b, x) == Balance(a, x) + Balance(b, x)
    ensures TotalDebit(a + b) == TotalDebit(a) + TotalDebit(b)
    ensures TotalCredit(a + b) == TotalCredit(a) + TotalCredit(b)
  {
    TotalsConcat(a, b);
    forall x ensures Balance(a + b, x) == Balance(a, x) + Balance(b, x) {
      BalanceConcat(a, b, x);
    }
  }

  /** A list of lines balances and moves the three accounts by the given amounts. */
  ghost predicate Moves(es: seq<Entry>, unsettled: int, wallet: int, pnl: int) {
    && Balance(es, Unsettled) == unsettled
    && Balance(es, HotWallet) == wallet
    && Balance(es, RealizedPnl) == pnl
    && TotalDebit(es) == TotalCredit(es)
  }

  lemma PairMoves(id: nat, a: Account, b: Account, w: int)
    requires a != b
    ensures var es := Line(id, a, w, 0) + Line(id, b, 0, w);
            && Balance(es, a) == w && Balance(es, b) == -w && (forall x | x != a && x != b :: Balance(es, x) == 0)
            && TotalDebit(es) == TotalCredit(es)
  {
    LineTotals(id, a, w, 0);
    LineTotals(id, b, 0, w);
    AppendTotals(Line(id, a, w, 0), Line(id, b, 0, w));
  }

  lemma MovesConcat(a: seq<Entry>, b: seq<Entry>, u: int, w: int, p: int, u': int, w': int, p': int)
    requires Balance(a, Unsettled) == u && Balance(a, HotWallet) == w && Balance(a, RealizedPnl) == p
    requires Balance(b, Unsettled) == u' && Balance(b, HotWallet) == w' && Balance(b, RealizedPnl) == p'
    requires TotalDebit(a) + TotalDebit(b) == TotalCredit(a) + TotalCredit(b)
    ensures Moves(a + b, u + u', w + w', p + p')
  {
    AppendTotals(a, b);
  }

  lemma WinMoves(id: nat, wager: int, gross: int)
    ensures Moves(WinLines(id, wager, gross), -wager, gross, wager - gross)
  {
    var d := if gross < wager then wager - gross else 0;
    var c := if gross > wager then gross - wager else 0;
    var l1, l2, l3 := Line(id, HotWallet, gross, 0), Line(id, Unsettled, 0, wager), Line(id, RealizedPnl, d, c);
    assert Balance(l1 + l2, Unsettled) == -wager && Balance(l1 + l2, HotWallet) == gross
      && Balance(l1 + l2, RealizedPnl) == 0 && TotalDebit(l1 + l2) == gross && TotalCredit(l1 + l2) == wager by {
      LineTotals(id, HotWallet, gross, 0);
      LineTotals(id, Unsettled, 0, wager);
      AppendTotals(l1, l2);
    }
    LineTotals(id, RealizedPnl, d, c);
    MovesConcat(l1 + l2, l3, -wager, gross, 0, 0, 0, wager - gross);
  }

  /** What the lines of one order come to: its wager locked while it is open, and once it is settled
      the payout less the wager, in the wallet and as realized result. */
  ghost predicate Booked(es: seq<Entry>, o: Order) {
    match o.status
    case SettledWin => Moves(es, 0, o.grossPayout - o.wager, o.wager - o.grossPayout)
    case SettledLoss => Moves(es, 0, -o.wager, o.wager)
    case Void => Moves(es, 0, 0, 0)
    case _ => Moves(es, o.wager, -o.wager, 0)
  }

  /** What one order contributes to each account, and that its own lines balance exactly. */
  lemma OrderContribution(id: nat, o: Order)
    ensures Booked(ExpectedEntries(id, o), o)
  {
    PairMoves(id, Unsettled, HotWallet, o.wager);
    PairMoves(id, RealizedPnl, Unsettled, o.wager);
    PairMoves(id, HotWallet, Unsettled, o.wager);
    WinMoves(id, o.wager, o.grossPayout);
    AppendTotals(IntentLines(id, o.wager), ClosingLines(id, o.wager, o.grossPayout, o.status));
  }

  lemma BookedMoves(es: seq<Entry>, o: Order)
    requires Booked(es, o)
    ensures Moves(es, Exposure(o), WalletOf(o), NegRealizedOf(o))
  {
  }

  lemma {:induction false} SumCombines(orders: seq<Order>)
    ensures SumOrders(orders, WalletOf) + SumOrders(orders, Exposure) == SumOrders(orders, RealizedOf)
    ensures SumOrders(orders, NegRealizedOf) == -SumOrders(orders, RealizedOf)
  {
    if orders != [] {
      SumCombines(orders[..|orders| - 1]);
    }
  }

  /** The three account identities, and that every order's lines balance to the unit. */
  lemma AccountsMatchOrders(db: Db)
    requires Inv(db)
    ensures Balance(db.journal, Unsettled) == SumOrders(db.orders, Exposure)
    ensures -Balance(db.journal, RealizedPnl) == SumOrders(db.orders, RealizedOf)
    ensures Balance(db.journal, HotWallet) + Balance(db.journal, Unsettled) == -Balance(db.journal, RealizedPnl)
    ensures forall i | 0 <= i < |db.orders| ::
              var es := EntriesOf(db.journal, i); TotalDebit(es) == TotalCredit(es)
  {
    var n := |db.orders|;
    forall i | 0 <= i < n
      ensures var o := db.orders[i]; Moves(EntriesOf(db.journal, i), Exposure(o), WalletOf(o), NegRealizedOf(o))
    {
      OrderContribution(i, db.orders[i]);
      BookedMoves(EntriesOf(db.journal, i), db.orders[i]);
    }
    BalanceBySlices(db.journal, Unsettled, n);
    BalanceBySlices(db.journal, HotWallet, n);
    BalanceBySlices(db.journal, RealizedPnl, n);
    SlicesFollowTable(db.journal, Unsettled, db.orders, Exposure);
    SlicesFollowTable(db.journal, HotWallet, db.orders, WalletOf);
    SlicesFollowTable(db.journal, RealizedPnl, db.orders, NegRealizedOf);
    SumCombines(db.orders);
  }
}
