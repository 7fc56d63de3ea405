/** What transactions, faults and retries keep: the ledger invariant, exactly-once entries,
    and a status that only moves forward. */
module SettlementSafety {
  import opened Outcomes
  import opened Journal
  import opened Settlement

  // ------------------------------------------------------------------ lookups

  /** Under unique ids the lookup returns the only row with that client order id. */
  lemma {:induction false} FindUnique(orders: seq<Order>, id: nat)
    requires UniqueIds(orders) && id < |orders|
    ensures Find(orders, orders[id].clientOrderId) == Some(id)
  {
    var r := Find(orders, orders[id].clientOrderId);
    assert orders[id] in orders;
    assert r.Some?;
  }

  // ------------------------------------------------------------------ one transaction

  lemma LinesBelongTo(id: nat, o: Order)
    ensures forall e <- IntentLines(id, o.wager) :: e.orderId == id
    ensures forall e <- ClosingLines(id, o.wager, o.grossPayout, o.status) :: e.orderId == id
  {
  }

  function Append(db: Db, lines: seq<Entry>): Db {
    db.(journal := db.journal + lines)
  }

  lemma AppendTwice(db: Db, a: seq<Entry>, b: seq<Entry>)
    ensures Append(Append(db, a), b) == Append(db, a + b)
  {
    assert db.journal + a + b == db.journal + (a + b);
  }

  lemma InsertWritesLine(db: Db, id: nat, account: Account, debit: int, credit: int)
    requires debit >= 0 && credit >= 0 && (debit == 0 || credit == 0)
    ensures InsertEntry(db, id, account, debit, credit) == Ok(Append(db, Line(id, account, debit, credit)))
  {
    assert db.journal + [] == db.journal;
  }

  /** Every branch of the settlement writes exactly its closing lines and never violates a CHECK. */
  lemma SettlementWritesClosing(db: Db, id: nat, wager: int, status: SettlementStatus, gross: int)
    requires wager >= 0 && gross >= 0
    ensures InsertSettlement(db, id, wager, status, gross) ==
            Ok(Append(db, ClosingLines(id, wager, gross, FinalStatus(status))))
  {
    var close := Line(id, Unsettled, 0, wager);
    match status
    case VOID =>
      var refund := Line(id, HotWallet, wager, 0);
      InsertWritesLine(db, id, HotWallet, wager, 0);
      InsertWritesLine(Append(db, refund), id, Unsettled, 0, wager);
      AppendTwice(db, refund, close);
    case LOSS =>
      var loss := Line(id, RealizedPnl, wager, 0);
      InsertWritesLine(db, id, RealizedPnl, wager, 0);
      InsertWritesLine(Append(db, loss), id, Unsettled, 0, wager);
      AppendTwice(db, loss, close);
    case WIN =>
      var payout := Line(id, HotWallet, gross, 0);
      var d := if gross < wager then wager - gross else 0;
      var c := if gross > wager then gross - wager else 0;
      InsertWritesLine(db, id, HotWallet, gross, 0);
      InsertWritesLine(Append(db, payout), id, Unsettled, 0, wager);
      AppendTwice(db, payout, close);
      InsertWritesLine(Append(db, payout + close), id, RealizedPnl, d, c);
      AppendTwice(db, payout + close, Line(id, RealizedPnl, d, c));
  }

  /** Appending lines of one order changes that order's slice only. */
  lemma SlicesAfterAppend(journal: seq<Entry>, lines: seq<Entry>, id: nat)
    requires forall e <- lines :: e.orderId == id
    ensures EntriesOf(journal + lines, id) == EntriesOf(journal, id) + lines
    ensures forall j: nat | j != id :: EntriesOf(journal + lines, j) == EntriesOf(journal, j)
  {
    EntriesOfConcat(journal, lines, id);
    EntriesOfOwn(lines, id);
    forall j: nat | j != id ensures EntriesOf(journal + lines, j) == EntriesOf(journal, j) {
      EntriesOfConcat(journal, lines, j);
      EntriesOfForeign(lines, j);
    }
  }

  /** The tables after an intent for an unknown id. */
  function WithIntent(db: Db, intent: CreateOrderIntent): Db {
    var row := Order(intent.clientOrderId, intent.wagerAmount, OrderIntent, 0, intent.now);
    db.(orders := db.orders + [row], journal := db.journal + IntentLines(|db.orders|, intent.wagerAmount))
  }

  /** Each order's slice after an intent: the new order has its pair, the others keep theirs. */
  lemma WithIntentSlices(db: Db, intent: CreateOrderIntent, i: nat)
    requires Inv(db) && intent.wagerAmount >= 0 && i <= |db.orders|
    ensures EntriesOf(WithIntent(db, intent).journal, i) == ExpectedEntries(i, WithIntent(db, intent).orders[i])
    ensures i == |db.orders| ==>
              EntriesOf(WithIntent(db, intent).journal, i) == IntentLines(i, intent.wagerAmount)
  {
    var id, db' := |db.orders|, WithIntent(db, intent);
    var lines := IntentLines(id, intent.wagerAmount);
    LinesBelongTo(id, db'.orders[id]);
    SlicesAfterAppend(db.journal, lines, id);
    if i == id {
      EntriesOfForeign(db.journal, id);
      assert [] + lines == lines;
      assert ExpectedEntries(id, db'.orders[id]) == lines;
    }
  }

  lemma WithIntentTable(db: Db, intent: CreateOrderIntent)
    requires Inv(db) && Find(db.orders, intent.clientOrderId).None? && intent.wagerAmount >= 0
    ensures var db' := WithIntent(db, intent);
            && UniqueIds(db'.orders) && (forall e <- db'.journal :: e.orderId < |db'.orders|)
            && (forall o <- db'.orders :: o.wager >= 0 && o.grossPayout >= 0)
  {
    var id, db' := |db.orders|, WithIntent(db, intent);
    LinesBelongTo(id, db'.orders[id]);
    assert forall o <- db.orders :: o.clientOrderId != intent.clientOrderId;
  }

  lemma WithIntentInv(db: Db, intent: CreateOrderIntent)
    requires Inv(db) && Find(db.orders, intent.clientOrderId).None? && intent.wagerAmount >= 0
    ensures Inv(WithIntent(db, intent))
    ensures EntriesOf(WithIntent(db, intent).journal, |db.orders|) == IntentLines(|db.orders|, intent.wagerAmount)
  {
    WithIntentTable(db, intent);
    WithIntentSlices(db, intent, |db.orders|);
    forall i | 0 <= i < |WithIntent(db, intent).orders|
      ensures EntriesOf(WithIntent(db, intent).journal, i) == ExpectedEntries(i, WithIntent(db, intent).orders[i])
    {
      WithIntentSlices(db, intent, i);
    }
  }

  lemma NewIntentResult(db: Db, intent: CreateOrderIntent)
    requires Inv(db) && Find(db.orders, intent.clientOrderId).None? && intent.wagerAmount >= 0
    ensures IntentBody(db, intent) == Ok((WithIntent(db, intent), |db.orders|))
  {
    var id, w, db' := |db.orders|, intent.wagerAmount, WithIntent(db, intent);
    var db1 := db.(orders := db'.orders);
    var open, lock := Line(id, Unsettled, w, 0), Line(id, HotWallet, 0, w);
    InsertWritesLine(db1, id, Unsettled, w, 0);
    InsertWritesLine(Append(db1, open), id, HotWallet, 0, w);
    AppendTwice(db1, open, lock);
    assert db' == Append(db1, open + lock);
    assert Balanced(db', id) by {
      WithIntentInv(db, intent);
      PairMoves(id, Unsettled, HotWallet, w);
    }
  }

  /** createOrderIntent in every case: a known id is returned untouched, a negative wager is
      refused by the table, anything else gets one row and one balanced pair. */
  lemma IntentResult(db: Db, intent: CreateOrderIntent)
    requires Inv(db)
    ensures var found := Find(db.orders, intent.clientOrderId);
            IntentBody(db, intent) ==
              if found.Some? then Ok((db, found.value))
              else if intent.wagerAmount < 0 then Err(ConstraintViolation)
              else Ok((WithIntent(db, intent), |db.orders|))
    ensures Inv(Effect(db, IntentBody(db, intent)))
    ensures Find(db.orders, intent.clientOrderId).None? && intent.wagerAmount >= 0 ==>
              Effect(db, IntentBody(db, intent)).orders ==
              db.orders + [Order(intent.clientOrderId, intent.wagerAmount, OrderIntent, 0, intent.now)]
  {
    if Find(db.orders, intent.clientOrderId).None? && intent.wagerAmount >= 0 {
      NewIntentResult(db, intent);
      WithIntentInv(db, intent);
    }
  }

  /** The tables after a settlement of order `id`. */
  function WithSettlement(db: Db, id: nat, status: Status, gross: int): Db
    requires id < |db.orders|
  {
    var o := db.orders[id];
    db.(orders := db.orders[id := o.(status := status, grossPayout := gross)],
        journal := db.journal + ClosingLines(id, o.wager, gross, status))
  }

  lemma WithSettlementInv(db: Db, id: nat, status: Status, gross: int)
    requires Inv(db) && id < |db.orders| && !IsFinal(db.orders[id].status) && gross >= 0
    ensures Inv(WithSettlement(db, id, status, gross))
  {
    var o, db' := db.orders[id], WithSettlement(db, id, status, gross);
    var lines := ClosingLines(id, o.wager, gross, status);
    LinesBelongTo(id, db'.orders[id]);
    SlicesAfterAppend(db.journal, lines, id);
    forall i | 0 <= i < |db'.orders|
      ensures EntriesOf(db'.journal, i) == ExpectedEntries(i, db'.orders[i])
    {
      if i == id {
        assert ExpectedEntries(id, o) == IntentLines(id, o.wager);
      }
    }
  }

  /** Whether the trigger, where installed, lets this order become final. */
  predicate MaySettle(db: Db, id: nat, status: Status)
    requires id < |db.orders|
  {
    db.guarded ==> TriggerAllows(db.orders[id].status, status)
  }

  lemma OpenSettleResult(db: Db, p: SettlementPayload, id: nat)
    requires Inv(db) && ValidPayload(p) && Find(db.orders, p.clientOrderId) == Some(id)
    requires !IsFinal(db.orders[id].status)
    ensures SettleBody(db, p) ==
              if !MaySettle(db, id, FinalStatus(p.status)) then Err(InvalidTransition)
              else Ok((WithSettlement(db, id, FinalStatus(p.status), p.grossPayout), SettledNow))
  {
    var status, gross := FinalStatus(p.status), p.grossPayout;
    var o := db.orders[id];
    assert o in db.orders;
    SettlementWritesClosing(db, id, o.wager, p.status, gross);
    var lines := ClosingLines(id, o.wager, gross, status);
    var db1 := Append(db, lines);
    assert Balanced(db1, id) by {
      var db' := WithSettlement(db, id, status, gross);
      WithSettlementInv(db, id, status, gross);
      OrderContribution(id, db'.orders[id]);
      assert EntriesOf(db1.journal, id) == ExpectedEntries(id, db'.orders[id]);
    }
  }

  /** settleOrder in every case. The balance check and the CHECKs never refuse; with the
      trigger installed an order that was never dispatched is. */
  lemma SettleResult(db: Db, p: SettlementPayload)
    requires Inv(db)
    ensures var found := Find(db.orders, p.clientOrderId);
            SettleBody(db, p) ==
              if !ValidPayload(p) then Err(InvalidPayload)
              else if found.None? then Err(OrderNotFound)
              else if IsFinal(db.orders[found.value].status) then Ok((db, AlreadyFinal))
              else if !MaySettle(db, found.value, FinalStatus(p.status)) then Err(InvalidTransition)
              else Ok((WithSettlement(db, found.value, FinalStatus(p.status), p.grossPayout), SettledNow))
    ensures Inv(Effect(db, SettleBody(db, p)))
  {
    var found := Find(db.orders, p.clientOrderId);
    if ValidPayload(p) && found.Some? && !IsFinal(db.orders[found.value].status) {
      OpenSettleResult(db, p, found.value);
      WithSettlementInv(db, found.value, FinalStatus(p.status), p.grossPayout);
    }
  }

  /** When settleOrder accepts: exactly for a valid payload of a known order, unless the trigger
      is installed and the order is still ORDER_INTENT (or FAILED). The engine itself has no
      such restriction. */
  lemma SettleAccepts(db: Db, p: SettlementPayload)
    requires Inv(db)
    ensures SettleBody(db, p).Ok? <==>
              && p.clientOrderId != "" && p.grossPayout >= 0 && p.multiplier >= 100_000_000
              && Find(db.orders, p.clientOrderId).Some?
              && (db.guarded ==> db.orders[Find(db.orders, p.clientOrderId).value].status !in {OrderIntent, Failed})
  {
    SettleResult(db, p);
    var found := Find(db.orders, p.clientOrderId);
    if found.Some? {
      TriggerLetsFinish(db.orders[found.value].status, p.status);
    }
  }

  lemma TriggerLetsFinish(from: Status, status: SettlementStatus)
    ensures IsFinal(from) || (TriggerAllows(from, FinalStatus(status)) <==> from !in {OrderIntent, Failed})
  {
  }

  /** Both marks, order by order: which one moves, and whether the trigger, where installed, lets it. An
      order that was never dispatched cannot be marked RECONCILING under the trigger. */
  lemma MarkResult(db: Db, cid: string, i: nat)
    requires UniqueIds(db.orders) && i < |db.orders|
    ensures var (db', ok) := MarkDispatched(db, cid);
            && ok && db'.journal == db.journal && |db'.orders| == |db.orders|
            && db'.orders[i] == if db.orders[i].clientOrderId == cid && db.orders[i].status == OrderIntent
                                then db.orders[i].(status := Dispatched) else db.orders[i]
    ensures var (db', ok) := MarkReconciling(db, cid);
            var o := db.orders[i];
            && db'.journal == db.journal && |db'.orders| == |db.orders|
            && (o.clientOrderId == cid ==> ok == !(db.guarded && o.status == OrderIntent))
            && db'.orders[i] == if && o.clientOrderId == cid
                                   && (o.status == Dispatched || o.status == PendingSettlement ||
                                       (o.status == OrderIntent && !db.guarded))
                                then o.(status := Reconciling) else o
  {
    FindUnique(db.orders, i);
  }

  lemma OpenStatusInv(db: Db, id: nat, status: Status)
    requires Inv(db) && id < |db.orders| && !IsFinal(db.orders[id].status) && !IsFinal(status)
    ensures Inv(db.(orders := db.orders[id := db.orders[id].(status := status)]))
  {
    var db' := db.(orders := db.orders[id := db.orders[id].(status := status)]);
    forall i | 0 <= i < |db'.orders|
      ensures EntriesOf(db'.journal, i) == ExpectedEntries(i, db'.orders[i])
    {
      assert EntriesOf(db.journal, i) == ExpectedEntries(i, db.orders[i]);
    }
  }

  lemma MarkKeepsInv(db: Db, cid: string)
    requires Inv(db)
    ensures Inv(MarkDispatched(db, cid).0) && Inv(MarkReconciling(db, cid).0)
  {
    var found := Find(db.orders, cid);
    if found.Some? && !IsFinal(db.orders[found.value].status) {
      OpenStatusInv(db, found.value, Dispatched);
      OpenStatusInv(db, found.value, Reconciling);
    }
  }

  // ------------------------------------------------------------------ retries

  /** Running a settlement a second time changes nothing: the order is final. */
  lemma SettleIdempotent(db: Db, p: SettlementPayload)
    requires Inv(db) && SettleBody(db, p).Ok?
    ensures var db' := SettleBody(db, p).value.0;
            SettleBody(db', p) == Ok((db', AlreadyFinal))
  {
    SettleResult(db, p);
    var db' := SettleBody(db, p).value.0;
    SettleResult(db', p);
    FindUnique(db'.orders, Find(db.orders, p.clientOrderId).value);
  }

  /** Running an intent a second time returns the same order id and changes nothing. */
  lemma IntentIdempotent(db: Db, intent: CreateOrderIntent)
    requires Inv(db) && IntentBody(db, intent).Ok?
    ensures var (db', id) := IntentBody(db, intent).value;
            IntentBody(db', intent) == Ok((db', id)) && Find(db'.orders, intent.clientOrderId) == Some(id)
  {
    IntentResult(db, intent);
    var (db', id) := IntentBody(db, intent).value;
    IntentResult(db', intent);
    FindUnique(db'.orders, id);
  }

  /** Whatever faults strike, a retried transaction whose repetition is a no-op leaves either the
      tables it found or the tables one clean run leaves; success means the latter. Here the
      attempts follow each other directly; SettlementRetries lets anything happen in between. */
  lemma {:induction false} RetryAtMostOnce<T>(db: Db, body: Db -> Result<(Db, T), DbError>, faults: seq<Fault>, k: nat)
    requires k <= MAX_RETRIES
    requires body(db).Ok? ==> body(body(db).value.0).Ok? && body(body(db).value.0).value.0 == body(db).value.0
    ensures var (db', r) := WithRetry(db, body, faults, k);
            && (db' == db || db' == Effect(db, body(db)))
            && (r.Ok? ==> body(db).Ok? && db' == Effect(db, body(db)))
            && (r.Ok? ==> r.value == body(db).value.1 || r.value == body(Effect(db, body(db))).value.1)
    decreases MAX_RETRIES - k
  {
    var (db1, r) := Attempt(db, body(db), FaultAt(faults, k));
    if r.Err? && r.error == SerializationFailure && k < MAX_RETRIES {
      RetryAtMostOnce(db1, body, faults, k + 1);
    }
  }

  /** settleOrder under any faults: nothing happens, or exactly one settlement does. */
  lemma SettleOrderAtMostOnce(db: Db, p: SettlementPayload, faults: seq<Fault>)
    requires Inv(db)
    ensures var (db', r) := SettleOrderTx(db, p, faults);
            && (db' == db || db' == Effect(db, SettleBody(db, p)))
            && (r.Ok? ==> SettleBody(db, p).Ok? && db' == Effect(db, SettleBody(db, p)))
  {
    if SettleBody(db, p).Ok? {
      SettleIdempotent(db, p);
    }
    RetryAtMostOnce(db, (d: Db) => SettleBody(d, p), faults, 0);
  }

  /** createOrderIntent under any faults: nothing happens, or exactly one intent is recorded;
      success returns the id of the one row with that client order id. */
  lemma CreateOrderIntentAtMostOnce(db: Db, intent: CreateOrderIntent, faults: seq<Fault>)
    requires Inv(db)
    ensures var (db', r) := CreateOrderIntentTx(db, intent, faults);
            && (db' == db || db' == Effect(db, IntentBody(db, intent)))
            && (r.Ok? ==> db' == Effect(db, IntentBody(db, intent))
                          && Find(db'.orders, intent.clientOrderId) == Some(r.value))
  {
    if IntentBody(db, intent).Ok? {
      IntentIdempotent(db, intent);
    }
    RetryAtMostOnce(db, (d: Db) => IntentBody(d, intent), faults, 0);
  }

  predicate IsAbort(fault: Fault) {
    fault == AtSelect(SerializationFailure) || fault == AtCommit(SerializationFailure)
  }

  /** The fifth aborted attempt is the last: the call fails with that error and changes nothing. */
  lemma {:induction false} FiveAbortsFail<T>(db: Db, body: Db -> Result<(Db, T), DbError>, faults: seq<Fault>, k: nat)
    requires k <= 4 && body(db).Ok? && forall j | k <= j <= 4 :: IsAbort(FaultAt(faults, j))
    ensures WithRetry(db, body, faults, k) == (db, Err(SerializationFailure))
    decreases 4 - k
  {
    assert IsAbort(FaultAt(faults, k));
    if k < 4 {
      FiveAbortsFail(db, body, faults, k + 1);
    }
  }

  /** Serialization failures are absorbed: up to four aborted attempts and then a clean one
      give exactly what the clean one gives. */
  lemma {:induction false} RetriesAbsorbAborts<T>(db: Db, body: Db -> Result<(Db, T), DbError>, faults: seq<Fault>,
                                                  k: nat, n: nat)
    requires k <= n <= 4 && body(db).Ok? && FaultAt(faults, n) == Clean
    requires forall j | k <= j < n :: IsAbort(FaultAt(faults, j))
    ensures WithRetry(db, body, faults, k) == (body(db).value.0, Ok(body(db).value.1))
    decreases n - k
  {
    if k < n {
      RetriesAbsorbAborts(db, body, faults, k + 1, n);
    }
  }

  // ------------------------------------------------------------------ moving forward

  /** `b` may follow `a`: rows keep their identity, ranks never fall, final rows and their
      journal lines are frozen, the journal only grows and the balance cache stays. */
  ghost predicate Follows(a: Db, b: Db) {
    && |a.orders| <= |b.orders|
    && a.journal <= b.journal
    && a.guarded == b.guarded && a.cache == b.cache
    && forall i | 0 <= i < |a.orders| ::
         var o, o' := a.orders[i], b.orders[i];
         && o'.clientOrderId == o.clientOrderId && o'.wager == o.wager && o'.createdAt == o.createdAt
         && Rank(o.status) <= Rank(o'.status)
         && (IsFinal(o.status) ==> o' == o && EntriesOf(b.journal, i) == EntriesOf(a.journal, i))
  }

  lemma FollowsTransitive(a: Db, b: Db, c: Db)
    requires Follows(a, b) && Follows(b, c)
    ensures Follows(a, c)
  {
  }

  lemma WithSettlementFollows(db: Db, id: nat, status: Status, gross: int)
    requires id < |db.orders| && !IsFinal(db.orders[id].status) && IsFinal(status)
    ensures Follows(db, WithSettlement(db, id, status, gross))
  {
    var o := db.orders[id];
    LinesBelongTo(id, o.(status := status, grossPayout := gross));
    SlicesAfterAppend(db.journal, ClosingLines(id, o.wager, gross, status), id);
  }

  lemma SettleFollows(db: Db, p: SettlementPayload)
    requires Inv(db)
    ensures Follows(db, Effect(db, SettleBody(db, p)))
  {
    SettleResult(db, p);
    var found := Find(db.orders, p.clientOrderId);
    if SettleBody(db, p).Ok? && !IsFinal(db.orders[found.value].status) {
      WithSettlementFollows(db, found.value, FinalStatus(p.status), p.grossPayout);
    }
  }

  lemma WithIntentFollows(db: Db, intent: CreateOrderIntent)
    ensures Follows(db, WithIntent(db, intent))
  {
    LinesBelongTo(|db.orders|, WithIntent(db, intent).orders[|db.orders|]);
    SlicesAfterAppend(db.journal, IntentLines(|db.orders|, intent.wagerAmount), |db.orders|);
  }

  lemma IntentFollows(db: Db, intent: CreateOrderIntent)
    requires Inv(db)
    ensures Follows(db, Effect(db, IntentBody(db, intent)))
  {
    IntentResult(db, intent);
    WithIntentFollows(db, intent);
  }

  lemma StatusFollows(db: Db, id: nat, status: Status)
    requires id < |db.orders| && !IsFinal(db.orders[id].status) && Rank(db.orders[id].status) <= Rank(status)
    ensures Follows(db, db.(orders := db.orders[id := db.orders[id].(status := status)]))
  {
  }

  lemma MarkFollows(db: Db, cid: string)
    ensures Follows(db, MarkDispatched(db, cid).0) && Follows(db, MarkReconciling(db, cid).0)
  {
    var found := Find(db.orders, cid);
    if found.Some? {
      if db.orders[found.value].status == OrderIntent {
        StatusFollows(db, found.value, Dispatched);
      }
      if db.orders[found.value].status in {OrderIntent, Dispatched, PendingSettlement} {
        StatusFollows(db, found.value, Reconciling);
      }
    }
  }
}
