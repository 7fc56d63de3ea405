/** A retried call among others: between two of its attempts any number of events may happen, single
    attempts of other calls included. */
module SettlementRetries {
  import opened Outcomes
  import opened Journal
  import opened Settlement
  import opened SettlementSafety
  import opened SettlementRuns

  predicate Retries<T>(r: Result<T, DbError>, k: nat) {
    r.Err? && r.error == SerializationFailure && k < MAX_RETRIES
  }

  /** withRetry from attempt number `k` on; `gaps(k)` is what happens before attempt `k + 1`. */
  function RetryAmong<T>(db: Db, body: Db -> Result<(Db, T), DbError>, faults: seq<Fault>, gaps: nat -> seq<Event>,
                         k: nat)
    : (Db, Result<T, DbError>)
    requires k <= MAX_RETRIES
    decreases MAX_RETRIES - k
  {
    var (db', r) := Attempt(db, body(db), FaultAt(faults, k));
    if Retries(r, k) then RetryAmong(Run(db', gaps(k)), body, faults, gaps, k + 1) else (db', r)
  }

  /** How many of the call's own attempts changed the tables. */
  function Writes<T(==)>(db: Db, body: Db -> Result<(Db, T), DbError>, faults: seq<Fault>, gaps: nat -> seq<Event>,
                         k: nat): nat
    requires k <= MAX_RETRIES
    decreases MAX_RETRIES - k
  {
    var (db', r) := Attempt(db, body(db), FaultAt(faults, k));
    (if db' != db then 1 else 0) + if Retries(r, k) then Writes(Run(db', gaps(k)), body, faults, gaps, k + 1) else 0
  }

  /** Where nothing happens in between this is the retry loop on its own. */
  lemma {:induction false} QuietGaps<T>(db: Db, body: Db -> Result<(Db, T), DbError>, faults: seq<Fault>,
                                        gaps: nat -> seq<Event>, k: nat)
    requires k <= MAX_RETRIES && forall j :: gaps(j) == []
    ensures RetryAmong(db, body, faults, gaps, k) == WithRetry(db, body, faults, k)
    decreases MAX_RETRIES - k
  {
    var (db', r) := Attempt(db, body(db), FaultAt(faults, k));
    if Retries(r, k) {
      QuietGaps(db', body, faults, gaps, k + 1);
    }
  }

  /** The transaction keeps the tables in order and moves them forward. */
  ghost predicate Steady<T(!new)>(body: Db -> Result<(Db, T), DbError>) {
    forall d | Inv(d) && body(d).Ok? :: Advances(d, body(d).value.0)
  }

  /** Repeating the transaction would change nothing. */
  predicate Done<T>(db: Db, body: Db -> Result<(Db, T), DbError>) {
    body(db).Ok? && body(db).value.0 == db
  }

  /** Once it has committed it stays done, whatever follows. */
  ghost predicate Lasting<T(!new)>(body: Db -> Result<(Db, T), DbError>) {
    forall d, d' | Inv(d) && Inv(d') && body(d).Ok? && Follows(body(d).value.0, d') :: Done(d', body)
  }

  lemma FollowsItself(db: Db)
    ensures Follows(db, db)
  {
  }

  /** One attempt: it moves the tables forward, and if it changed them the call is done. */
  lemma AttemptMoves<T(!new)>(db: Db, body: Db -> Result<(Db, T), DbError>, fault: Fault,
                              db': Db, r: Result<T, DbError>)
    requires Inv(db) && Steady(body) && Lasting(body) && (db', r) == Attempt(db, body(db), fault)
    ensures Advances(db, db') && (db' != db || Done(db, body) || r.Ok? ==> Done(db', body))
    ensures Done(db, body) ==> db' == db
    ensures r.Ok? ==> body(db) == Ok((db', r.value))
  {
    FollowsItself(db');
  }

  lemma StaysDone<T(!new)>(db: Db, body: Db -> Result<(Db, T), DbError>, db': Db)
    requires Inv(db) && Advances(db, db') && Lasting(body) && Done(db, body)
    ensures Done(db', body)
  {
  }

  /** Whatever faults strike and whatever else happens in between, the call changes the tables at
      most once, and once it has it stays done; the tables only move forward; and success is the
      answer of a transaction on the tables as they were then. */
  lemma {:induction false} RetryAmongAtMostOnce<T(!new)>(db: Db, body: Db -> Result<(Db, T), DbError>,
                                                         faults: seq<Fault>, gaps: nat -> seq<Event>, k: nat)
    requires Inv(db) && Steady(body) && Lasting(body) && k <= MAX_RETRIES
    ensures var (db', r) := RetryAmong(db, body, faults, gaps, k);
            && Advances(db, db')
            && (Writes(db, body, faults, gaps, k) == 1 || r.Ok? ==> Done(db', body))
            && (r.Ok? ==> exists d :: Advances(db, d) && body(d) == Ok((db', r.value)))
    ensures Writes(db, body, faults, gaps, k) <= if Done(db, body) then 0 else 1
    decreases MAX_RETRIES - k
  {
    var (db1, r) := Attempt(db, body(db), FaultAt(faults, k));
    AttemptMoves(db, body, FaultAt(faults, k), db1, r);
    if Retries(r, k) {
      var db2 := Run(db1, gaps(k));
      RunKeeps(db1, gaps(k));
      if Done(db1, body) {
        StaysDone(db1, body, db2);
      }
      RetryAmongAtMostOnce(db2, body, faults, gaps, k + 1);
      FollowsTransitive(db, db1, db2);
      AdvancesOn(db, db2, body, RetryAmong(db2, body, faults, gaps, k + 1).0);
    } else {
      FollowsItself(db);
    }
  }

  lemma AdvancesOn<T(!new)>(a: Db, b: Db, body: Db -> Result<(Db, T), DbError>, c: Db)
    requires Follows(a, b) && Advances(b, c)
    ensures Advances(a, c)
    ensures forall d | Advances(b, d) :: Advances(a, d)
  {
    FollowsTransitive(a, b, c);
    forall d | Advances(b, d) ensures Advances(a, d) {
      FollowsTransitive(a, b, d);
    }
  }

  // ------------------------------------------------------------------ the two calls

  lemma SettleIsSteady(p: SettlementPayload)
    ensures Steady((d: Db) => SettleBody(d, p))
  {
    forall d | Inv(d) && SettleBody(d, p).Ok? ensures Advances(d, SettleBody(d, p).value.0) {
      SettleMoves(d, p, SettleBody(d, p).value.0);
    }
  }

  lemma SettleLasts(p: SettlementPayload, d: Db, d': Db)
    requires Inv(d) && Inv(d') && SettleBody(d, p).Ok? && Follows(SettleBody(d, p).value.0, d')
    ensures SettleBody(d', p) == Ok((d', AlreadyFinal))
  {
    SettleResult(d, p);
    var id := Find(d.orders, p.clientOrderId).value;
    FindUnique(d'.orders, id);
  }

  lemma SettleIsLasting(p: SettlementPayload)
    ensures Lasting((d: Db) => SettleBody(d, p))
  {
    forall d, d' | Inv(d) && Inv(d') && SettleBody(d, p).Ok? && Follows(SettleBody(d, p).value.0, d')
      ensures SettleBody(d', p).Ok? && SettleBody(d', p).value.0 == d'
    {
      SettleLasts(p, d, d');
    }
  }

  /** settleOrder among any other calls: at most one of its attempts settles, a reported success
      leaves the order final, and if it says that it settled now the order carries its verdict. */
  lemma SettleAmongOthers(db: Db, p: SettlementPayload, faults: seq<Fault>, gaps: nat -> seq<Event>)
    requires Inv(db)
    ensures var body := (d: Db) => SettleBody(d, p);
            var (db', r) := RetryAmong(db, body, faults, gaps, 0);
            && Advances(db, db') && Writes(db, body, faults, gaps, 0) <= 1
            && (r.Ok? ==>
                  var found := Find(db'.orders, p.clientOrderId);
                  && found.Some? && IsFinal(db'.orders[found.value].status)
                  && (r.value == SettledNow ==>
                        && db'.orders[found.value].status == FinalStatus(p.status)
                        && db'.orders[found.value].grossPayout == p.grossPayout))
  {
    var body := (d: Db) => SettleBody(d, p);
    SettleIsSteady(p);
    SettleIsLasting(p);
    RetryAmongAtMostOnce(db, body, faults, gaps, 0);
    var (db', r) := RetryAmong(db, body, faults, gaps, 0);
    if r.Ok? {
      var d :| Advances(db, d) && body(d) == Ok((db', r.value));
      SettledResult(d, p, db', r.value);
    }
  }

  lemma SettledResult(db: Db, p: SettlementPayload, db': Db, outcome: SettleOutcome)
    requires Inv(db) && SettleBody(db, p) == Ok((db', outcome))
    ensures var found := Find(db'.orders, p.clientOrderId);
            && found.Some? && IsFinal(db'.orders[found.value].status)
            && (outcome == SettledNow ==>
                  && db'.orders[found.value].status == FinalStatus(p.status)
                  && db'.orders[found.value].grossPayout == p.grossPayout)
  {
    SettleResult(db, p);
    FindUnique(db'.orders, Find(db.orders, p.clientOrderId).value);
  }

  lemma IntentIsSteady(intent: CreateOrderIntent)
    ensures Steady((d: Db) => IntentBody(d, intent))
  {
    forall d | Inv(d) && IntentBody(d, intent).Ok? ensures Advances(d, IntentBody(d, intent).value.0) {
      IntentMoves(d, intent, IntentBody(d, intent).value.0);
    }
  }

  lemma IntentLasts(intent: CreateOrderIntent, d: Db, d': Db)
    requires Inv(d) && Inv(d') && IntentBody(d, intent).Ok? && Follows(IntentBody(d, intent).value.0, d')
    ensures IntentBody(d', intent) == Ok((d', IntentBody(d, intent).value.1))
    ensures Find(d'.orders, intent.clientOrderId) == Some(IntentBody(d, intent).value.1)
  {
    IntentResult(d, intent);
    FindUnique(d'.orders, IntentBody(d, intent).value.1);
  }

  lemma IntentIsLasting(intent: CreateOrderIntent)
    ensures Lasting((d: Db) => IntentBody(d, intent))
  {
    forall d, d' | Inv(d) && Inv(d') && IntentBody(d, intent).Ok? && Follows(IntentBody(d, intent).value.0, d')
      ensures IntentBody(d', intent).Ok? && IntentBody(d', intent).value.0 == d'
    {
      IntentLasts(intent, d, d');
    }
  }

  /** createOrderIntent among any other calls: at most one of its attempts records an intent, and a
      reported success returns the id of the one row with that client order id. */
  lemma IntentAmongOthers(db: Db, intent: CreateOrderIntent, faults: seq<Fault>, gaps: nat -> seq<Event>)
    requires Inv(db)
    ensures var body := (d: Db) => IntentBody(d, intent);
            var (db', r) := RetryAmong(db, body, faults, gaps, 0);
            && Advances(db, db') && Writes(db, body, faults, gaps, 0) <= 1
            && (r.Ok? ==> Find(db'.orders, intent.clientOrderId) == Some(r.value))
  {
    var body := (d: Db) => IntentBody(d, intent);
    IntentIsSteady(intent);
    IntentIsLasting(intent);
    RetryAmongAtMostOnce(db, body, faults, gaps, 0);
    var (db', r) := RetryAmong(db, body, faults, gaps, 0);
    if r.Ok? {
      var d :| Advances(db, d) && body(d) == Ok((db', r.value));
      FollowsItself(db');
      IntentLasts(intent, d, db');
    }
  }

  // ------------------------------------------------------------------ interleavings are runs

  lemma RunThen(db: Db, e: Event, gap: seq<Event>, rest: seq<Event>)
    ensures Run(db, [e] + gap + rest) == Run(Run(Step(db, e), gap), rest)
  {
    assert [e] + gap + rest == [e] + (gap + rest);
    assert ([e] + (gap + rest))[1..] == gap + rest;
    RunConcat(Step(db, e), gap, rest);
  }

  ghost predicate InGaps(gaps: nat -> seq<Event>, e: Event) {
    exists k :: e in gaps(k)
  }

  /** A settlement among other calls is a run of its attempts and what lies between them, so
      everything proved of runs holds of it. */
  lemma {:induction false} SettleAmongIsRun(db: Db, p: SettlementPayload, faults: seq<Fault>,
                                            gaps: nat -> seq<Event>, k: nat) returns (es: seq<Event>)
    requires k <= MAX_RETRIES
    ensures Run(db, es) == RetryAmong(db, (d: Db) => SettleBody(d, p), faults, gaps, k).0
    ensures forall e <- es :: (e.TrySettle? && e.payload == p) || InGaps(gaps, e)
    decreases MAX_RETRIES - k
  {
    var e := TrySettle(p, FaultAt(faults, k));
    var (db1, r) := Attempt(db, SettleBody(db, p), FaultAt(faults, k));
    assert Step(db, e) == db1;
    if Retries(r, k) {
      var rest := SettleAmongIsRun(Run(db1, gaps(k)), p, faults, gaps, k + 1);
      es := [e] + gaps(k) + rest;
      RunThen(db, e, gaps(k), rest);
    } else {
      es := [e];
      assert Run(db, [e]) == Run(Step(db, e), []);
    }
  }

  /** So is an intent among other calls. */
  lemma {:induction false} IntentAmongIsRun(db: Db, intent: CreateOrderIntent, faults: seq<Fault>,
                                            gaps: nat -> seq<Event>, k: nat) returns (es: seq<Event>)
    requires k <= MAX_RETRIES
    ensures Run(db, es) == RetryAmong(db, (d: Db) => IntentBody(d, intent), faults, gaps, k).0
    ensures forall e <- es :: (e.TryIntent? && e.intent == intent) || InGaps(gaps, e)
    decreases MAX_RETRIES - k
  {
    var e := TryIntent(intent, FaultAt(faults, k));
    var (db1, r) := Attempt(db, IntentBody(db, intent), FaultAt(faults, k));
    assert Step(db, e) == db1;
    if Retries(r, k) {
      var rest := IntentAmongIsRun(Run(db1, gaps(k)), intent, faults, gaps, k + 1);
      es := [e] + gaps(k) + rest;
      RunThen(db, e, gaps(k), rest);
    } else {
      es := [e];
      assert Run(db, [e]) == Run(Step(db, e), []);
    }
  }
}
