/** The tables of the settlement schema: orders, and an append-only double-entry journal.
    Amounts are integers in units of 1e-8, the precision the engine writes. */
module Journal {

  datatype Account = HotWallet | Unsettled | RealizedPnl

  datatype Entry = Entry(orderId: nat, account: Account, debit: int, credit: int)

  datatype Status =
    | OrderIntent | Dispatched | PendingSettlement | Reconciling
    | SettledWin | SettledLoss | Void | Failed

  /** A row of settlement_orders. The order id is the row's position in the table. */
  datatype Order = Order(clientOrderId: string, wager: int, status: Status, grossPayout: int, createdAt: int)

  /** `guarded` says whether the schema's transition trigger is installed; `cache` is the table
      ledger_balance_cache. */
  datatype Db = Db(orders: seq<Order>, journal: seq<Entry>, guarded: bool, cache: map<Account, int>)

  /** getAccountBalance: it reads the cache, not the journal. */
  function GetAccountBalance(db: Db, account: Account): int {
    if account in db.cache then db.cache[account] else 0
  }

  /** The statuses settleOrder refuses to leave. */
  predicate IsFinal(s: Status) {
    s in {SettledWin, SettledLoss, Void}
  }

  /** How far an order has come: RECONCILING and beyond from two on, final at three. */
  function Rank(s: Status): (rank: nat)
    ensures rank == 0 <==> s == OrderIntent
    ensures rank >= 2 <==> s != OrderIntent && s != Dispatched && s != PendingSettlement
    ensures rank >= 3 <==> s == SettledWin || s == SettledLoss || s == Void
  {
    match s
    case OrderIntent => 0
    case Dispatched | PendingSettlement => 1
    case Reconciling | Failed => 2
    case SettledWin | SettledLoss | Void => 3
  }

  /** The journal lines of one order, in order. */
  function EntriesOf(journal: seq<Entry>, id: nat): (es: seq<Entry>) {
    if journal == [] then []
    else
      var front := EntriesOf(journal[..|journal| - 1], id);
      var last := journal[|journal| - 1];
      if last.orderId == id then front + [last] else front
  }

  /** Sum of debit minus credit over one account. */
  function Balance(journal: seq<Entry>, account: Account): int {
    if journal == [] then 0
    else
      var last := journal[|journal| - 1];
      Balance(journal[..|journal| - 1], account)
      + if last.account == account then last.debit - last.credit else 0
  }

  function TotalDebit(journal: seq<Entry>): int {
    if journal == [] then 0
    else TotalDebit(journal[..|journal| - 1]) + journal[|journal| - 1].debit
  }

  function TotalCredit(journal: seq<Entry>): int {
    if journal == [] then 0
    else TotalCredit(journal[..|journal| - 1]) + journal[|journal| - 1].credit
  }

  /** Sum of a quantity over the order table. */
  function SumOrders(orders: seq<Order>, f: Order -> int): int {
    if orders == [] then 0
    else SumOrders(orders[..|orders| - 1], f) + f(orders[|orders| - 1])
  }

  /** Sum over ids below `n` of the per-order balance of one account. */
  function SumSlices(journal: seq<Entry>, account: Account, n: nat): int {
    if n == 0 then 0
    else SumSlices(journal, account, n - 1) + Balance(EntriesOf(journal, n - 1), account)
  }

  lemma {:induction false} EntriesOfConcat(a: seq<Entry>, b: seq<Entry>, id: nat)
    ensures EntriesOf(a + b, id) == EntriesOf(a, id) + EntriesOf(b, id)
  {
    if b == [] {
      assert a + b == a;
    } else {
      assert (a + b)[..|a + b| - 1] == a + b[..|b| - 1];
      EntriesOfConcat(a, b[..|b| - 1], id);
    }
  }

  lemma {:induction false} BalanceConcat(a: seq<Entry>, b: seq<Entry>, account: Account)
    ensures Balance(a + b, account) == Balance(a, account) + Balance(b, account)
  {
    if b == [] {
      assert a + b == a;
    } else {
      assert (a + b)[..|a + b| - 1] == a + b[..|b| - 1];
      BalanceConcat(a, b[..|b| - 1], account);
    }
  }

  lemma {:induction false} EntriesOfForeign(journal: seq<Entry>, id: nat)
    requires forall e <- journal :: e.orderId != id
    ensures EntriesOf(journal, id) == []
  {
    if journal != [] {
      EntriesOfForeign(journal[..|journal| - 1], id);
    }
  }

  lemma {:induction false} EntriesOfOwn(journal: seq<Entry>, id: nat)
    requires forall e <- journal :: e.orderId == id
    ensures EntriesOf(journal, id) == journal
  {
    if journal != [] {
      EntriesOfOwn(journal[..|journal| - 1], id);
    }
  }

  lemma {:induction false} SumSlicesEmpty(account: Account, n: nat)
    ensures SumSlices([], account, n) == 0
  {
    if n > 0 {
      SumSlicesEmpty(account, n - 1);
    }
  }

  lemma {:induction false} SumSlicesSnoc(journal: seq<Entry>, e: Entry, account: Account, n: nat)
    ensures SumSlices(journal + [e], account, n) ==
            SumSlices(journal, account, n)
            + if e.orderId < n && e.account == account then e.debit - e.credit else 0
  {
    if n > 0 {
      SumSlicesSnoc(journal, e, account, n - 1);
      EntriesOfConcat(journal, [e], n - 1);
      BalanceConcat(EntriesOf(journal, n - 1), EntriesOf([e], n - 1), account);
    }
  }

  /** An account's balance splits over the orders: no line is lost or counted twice. */
  lemma {:induction false} BalanceBySlices(journal: seq<Entry>, account: Account, n: nat)
    requires forall e <- journal :: e.orderId < n
    ensures Balance(journal, account) == SumSlices(journal, account, n)
  {
    if journal == [] {
      SumSlicesEmpty(account, n);
    } else {
      var front, last := journal[..|journal| - 1], journal[|journal| - 1];
      assert journal == front + [last];
      BalanceBySlices(front, account, n);
      SumSlicesSnoc(front, last, account, n);
    }
  }

  /** Per-order balances that agree with `f` row by row add up to the table's sum of `f`. */
  lemma {:induction false} SlicesFollowTable(journal: seq<Entry>, account: Account, orders: seq<Order>, f: Order -> int)
    requires forall i | 0 <= i < |orders| :: Balance(EntriesOf(journal, i), account) == f(orders[i])
    ensures SumSlices(journal, account, |orders|) == SumOrders(orders, f)
  {
    if orders != [] {
      var front := orders[..|orders| - 1];
      assert forall i | 0 <= i < |front| :: front[i] == orders[i];
      SlicesFollowTable(journal, account, front, f);
    }
  }
}
