/**
 What a delivery can cost over a whole run: its attempts are the claims the run granted it, its budget sessions
 are one plus its human renewals, and every other change of it spends a finite measure.
 */
module AlertBudgets {
  import opened Common
  import opened Incidents
  import opened AlertModel
  import opened AlertProtocol

  // ---------------------------------------------------------------- events of a run

  predicate Claims(db: AlertDb, tx: Tx, id: Id) {
    && tx.ClaimTx?
    && var result := Claim(db, tx.ref, tx.grant, tx.transport, tx.preview, tx.now).1;
    result.Claimed? && result.id == id
  }

  predicate Renews(db: AlertDb, tx: Tx, id: Id) {
    tx.RenewTx? && tx.id == id && Renew(db, id, tx.grant, tx.expected, tx.reason, tx.now).Ok?
  }

  ghost function ClaimCount(db: AlertDb, txs: seq<Tx>, id: Id): nat
    decreases |txs|
  {
    if txs == [] then 0 else
      var n := |txs| - 1;
      ClaimCount(db, txs[..n], id) + (if Claims(RunTx(db, txs[..n]), txs[n], id) then 1 else 0)
  }

  ghost function RenewalCount(db: AlertDb, txs: seq<Tx>, id: Id): nat
    decreases |txs|
  {
    if txs == [] then 0 else
      var n := |txs| - 1;
      RenewalCount(db, txs[..n], id) + (if Renews(RunTx(db, txs[..n]), txs[n], id) then 1 else 0)
  }

  function Sessions(db: AlertDb, id: Id): nat {
    SessionCount(db.budgets, id, db.nextId)
  }

  // ---------------------------------------------------------------- one transaction, one delivery

  ghost predicate Untouched(db: AlertDb, db': AlertDb, id: Id) {
    && id in db.deliveries && id in db'.deliveries && db'.deliveries[id] == db.deliveries[id]
    && db.deliveries[id].session in db.budgets && db.deliveries[id].session in db'.budgets
    && db'.budgets[db.deliveries[id].session].attempts == db.budgets[db.deliveries[id].session].attempts
    && db'.budgets[db.deliveries[id].session].maxAttempts == db.budgets[db.deliveries[id].session].maxAttempts
    && Sessions(db', id) == Sessions(db, id)
  }

  /** A change within the same budget session: one more version, and strictly less left to spend. */
  ghost predicate Spends(db: AlertDb, db': AlertDb, id: Id) {
    && id in db.deliveries && id in db'.deliveries
    && var d, d' := db.deliveries[id], db'.deliveries[id];
    && d.session in db.budgets && d.session in db'.budgets
    && d'.session == d.session && d'.version == d.version + 1
    && Measure(d', db'.budgets[d.session]) < Measure(d, db.budgets[d.session])
    && Sessions(db', id) == Sessions(db, id)
  }

  ghost predicate Queried(db: AlertDb, db': AlertDb, id: Id) {
    && id in db.deliveries && id in db'.deliveries
    && db'.deliveries[id] == db.deliveries[id].(queries := db.deliveries[id].queries + 1)
    && db'.budgets == db.budgets && Sessions(db', id) == Sessions(db, id)
  }

  ghost predicate Renewed(db: AlertDb, db': AlertDb, id: Id) {
    && id in db.deliveries && id in db'.deliveries
    && db.deliveries[id].state == Exhausted && db'.deliveries[id].state == Pending
    && db'.deliveries[id].version == db.deliveries[id].version + 1
    && db'.deliveries[id].totalAttempts == db.deliveries[id].totalAttempts
    && Sessions(db', id) == Sessions(db, id) + 1
  }

  ghost predicate Born(db: AlertDb, db': AlertDb, id: Id) {
    && id !in db.deliveries && id in db'.deliveries
    && db'.deliveries[id].totalAttempts == 0 && db'.deliveries[id].version == 0 && Sessions(db', id) == 1
  }

  lemma RewriteEffect(db: AlertDb, i: Id, d: Delivery, b: Budget, nextId: Id, id: Id)
    requires Shape(db) && i in db.deliveries && DeliveryOk(db, i) && GoodRewrite(db, i, d, b, nextId)
    requires id in db.deliveries
    ensures id in Rewrite(db, i, d, b, nextId).deliveries
    ensures id != i ==> Untouched(db, Rewrite(db, i, d, b, nextId), id)
    ensures Sessions(Rewrite(db, i, d, b, nextId), id) == Sessions(db, id)
  {
    var db' := Rewrite(db, i, d, b, nextId);
    assert DeliveryOk(db, id);
    BudgetsBelow(db);
    hide Shape, LocalOk;
    CountSame(db.budgets, db'.budgets, id, db.nextId);
    SumBeyond(db'.budgets, id, db.nextId, nextId);
  }

  lemma SweepSessions(db: AlertDb, now: Time, id: Id)
    requires Shape(db) && id in db.deliveries
    ensures Sessions(Sweep(db, now), id) == Sessions(db, id)
    ensures db.deliveries[id].session in db.budgets && StateAgrees(db.deliveries[id].state, db.budgets[db.deliveries[id].session].state)
  {
    assert DeliveryOk(db, id);
    SweepBudgets(db, now);
    SweepIds(db, now);
    hide Shape, Sweep;
    CountSame(db.budgets, Sweep(db, now).budgets, id, db.nextId);
  }

  lemma SweptMeasure(budgets: map<Id, Budget>, d: Delivery, b: Budget, b': Budget, now: Time)
    requires d.session in budgets && budgets[d.session] == b && b'.attempts == b.attempts && b'.maxAttempts == b.maxAttempts
    ensures
      var d' := SweptDelivery(budgets, d, now);
      && d'.session == d.session && d'.totalAttempts == d.totalAttempts
      && (d' == d || (d'.state != Pending && d'.version == d.version + 1 && Measure(d', b') < Measure(d, b)))
  {
  }

  lemma SweepEffect(db: AlertDb, now: Time, id: Id)
    requires Shape(db) && id in db.deliveries
    ensures id in Sweep(db, now).deliveries && (Untouched(db, Sweep(db, now), id) || Spends(db, Sweep(db, now), id))
    ensures Sweep(db, now).deliveries[id].totalAttempts == db.deliveries[id].totalAttempts
    ensures Sweep(db, now).deliveries[id].state == Pending ==> Untouched(db, Sweep(db, now), id)
  {
    SweepSessions(db, now, id);
    SweepBudgets(db, now);
    SweepIds(db, now);
    var sid := db.deliveries[id].session;
    SweptMeasure(db.budgets, db.deliveries[id], db.budgets[sid], Sweep(db, now).budgets[sid], now);
    hide Shape, Sweep, Sessions, SweptDelivery, Measure, StateAgrees;
  }

  lemma ExhaustEffect(db: AlertDb, i: Id, id: Id)
    requires Shape(db) && i in db.deliveries && db.deliveries[i].state == Pending && id in db.deliveries
    ensures if id == i then Spends(db, ExhaustInPlace(db, i), id) else Untouched(db, ExhaustInPlace(db, i), id)
    ensures ExhaustInPlace(db, i).deliveries[id].totalAttempts == db.deliveries[id].totalAttempts
  {
    assert DeliveryOk(db, i);
    ExhaustRewrites(db, i);
    RewriteEffect(db, i, ExhaustInPlace(db, i).deliveries[i], db.budgets[db.deliveries[i].session], db.nextId, id);
  }

  lemma TakeClaimEffect(db: AlertDb, i: Id, now: Time, id: Id)
    requires Shape(db) && i in db.deliveries && DeliveryOk(db, i) && db.deliveries[i].state == Pending && id in db.deliveries
    requires db.budgets[db.deliveries[i].session].attempts < MAX_ATTEMPTS
    ensures if id == i then Spends(db, TakeClaim(db, i, now), id) else Untouched(db, TakeClaim(db, i, now), id)
    ensures TakeClaim(db, i, now).deliveries[id].totalAttempts == db.deliveries[id].totalAttempts + (if id == i then 1 else 0)
  {
    TakeClaimRewrites(db, i, now);
    var db' := TakeClaim(db, i, now);
    RewriteEffect(db, i, db'.deliveries[i], db'.budgets[db.deliveries[i].session], db.nextId + 1, id);
  }

  /** The effect a transaction had on a delivery that existed before it. */
  ghost predicate Effect(db: AlertDb, db': AlertDb, id: Id, claimed: bool, renewed: bool) {
    && id in db.deliveries && id in db'.deliveries
    && db'.deliveries[id].totalAttempts == db.deliveries[id].totalAttempts + (if claimed then 1 else 0)
    && if renewed then Renewed(db, db', id)
       else Untouched(db, db', id) || Spends(db, db', id) || Queried(db, db', id)
  }

  lemma ClaimEffect(db: AlertDb, ref: DestRef, grant: Option<Grant>, transport: string, preview: Option<Id>, now: Time, id: Id)
    requires Books(db) && id in db.deliveries
    ensures
      var (after, result) := Claim(db, ref, grant, transport, preview, now);
      Effect(db, after, id, result.Claimed? && result.id == id, false)
  {
    var (after, result) := Claim(db, ref, grant, transport, preview, now);
    ClaimCases(db, ref, grant, transport, preview, now);
    BooksShape(db);
    DidEffect(db, now, after, result, id);
  }

  lemma DidEffect(db: AlertDb, now: Time, after: AlertDb, result: ClaimResult, id: Id)
    requires Books(db) && Shape(db) && id in db.deliveries && ClaimDid(db, now, after, result)
    ensures Effect(db, after, id, result.Claimed? && result.id == id, false)
  {
    hide *;
    var db1 := Sweep(db, now);
    SweepKeepsBooks(db, now);
    BooksShape(db1);
    SweepEffect(db, now, id);
    DidCases(db, now, after, result);
    match result
    case FoundExhausted(i) =>
      ExhaustEffect(db1, i, id);
      Compose(db, db1, after, id, i, false);
    case Claimed(i, _, _) =>
      SweepIds(db, now);
      SweptHasRoom(db, now, i);
      TakeClaimEffect(db1, i, now, id);
      Compose(db, db1, after, id, i, true);
    case Refused(_) => SelfEffect(db, id);
    case CapacityPaused => WeakEffect(db, db1, id);
    case NoEligibleDelivery => WeakEffect(db, db1, id);
  }

  lemma WeakEffect(db: AlertDb, db': AlertDb, id: Id)
    requires Untouched(db, db', id) || Spends(db, db', id)
    requires id in db.deliveries && id in db'.deliveries && db'.deliveries[id].totalAttempts == db.deliveries[id].totalAttempts
    ensures Effect(db, db', id, false, false)
  {
    hide Sessions;
  }

  lemma SelfEffect(db: AlertDb, id: Id)
    requires Shape(db) && id in db.deliveries
    ensures Effect(db, db, id, false, false)
  {
    assert DeliveryOk(db, id);
  }

  lemma Compose(a: AlertDb, b: AlertDb, c: AlertDb, id: Id, i: Id, claimed: bool)
    requires Untouched(a, b, id) || Spends(a, b, id)
    requires id == i ==> Untouched(a, b, id)
    requires if id == i then Spends(b, c, id) else Untouched(b, c, id)
    requires id in a.deliveries && id in b.deliveries && id in c.deliveries
    requires b.deliveries[id].totalAttempts == a.deliveries[id].totalAttempts
    requires c.deliveries[id].totalAttempts == b.deliveries[id].totalAttempts + (if claimed && id == i then 1 else 0)
    ensures Effect(a, c, id, claimed && i == id, false)
  {
    hide Sessions;
  }

  lemma UntouchedSelf(db: AlertDb, id: Id)
    requires id in db.deliveries && db.deliveries[id].session in db.budgets
    ensures Untouched(db, db, id)
  {
  }

  lemma FinishEffect(db: AlertDb, i: Id, token: Id, version: nat, outcome: Outcome, factor: real, now: Time, id: Id)
    requires Shape(db) && id in db.deliveries && Finish(db, i, token, version, outcome, factor, now).Ok?
    ensures Effect(db, Finish(db, i, token, version, outcome, factor, now).value, id, false, false)
  {
    FinishRewrites(db, i, token, version, outcome, factor, now);
    var db' := Finish(db, i, token, version, outcome, factor, now).value;
    RewriteEffect(db, i, db'.deliveries[i], db'.budgets[db.deliveries[i].session], db.nextId, id);
    FinishSpends(db, i, token, version, outcome, factor, now);
    assert DeliveryOk(db, id);
    hide Finish, Shape;
  }

  lemma FinishSpends(db: AlertDb, i: Id, token: Id, version: nat, outcome: Outcome, factor: real, now: Time)
    requires Finish(db, i, token, version, outcome, factor, now).Ok?
    ensures
      var db' := Finish(db, i, token, version, outcome, factor, now).value;
      && i in db.deliveries && i in db'.deliveries
      && var d, d' := db.deliveries[i], db'.deliveries[i];
      && d'.session == d.session && d.session in db.budgets && d.session in db'.budgets
      && d'.totalAttempts == d.totalAttempts
      && Measure(d', db'.budgets[d.session]) < Measure(d, db.budgets[d.session])
  {
  }

  lemma AnswerEffect(db: AlertDb, i: Id, expected: nat, answer: Option<Outcome>, checkNow: Time, dueNow: Time, id: Id)
    requires Shape(db) && id in db.deliveries && Definite(answer) && ApplyAnswer(db, i, expected, answer, checkNow, dueNow).Ok?
    ensures Effect(db, ApplyAnswer(db, i, expected, answer, checkNow, dueNow).value, id, false, false)
  {
    AnswerRewrites(db, i, expected, answer, checkNow, dueNow);
    var db' := ApplyAnswer(db, i, expected, answer, checkNow, dueNow).value;
    RewriteEffect(db, i, db'.deliveries[i], db'.budgets[db.deliveries[i].session], db.nextId, id);
    assert DeliveryOk(db, id);
  }

  lemma QueryEffect(db: AlertDb, i: Id, grant: Option<Grant>, expected: nat, transport: string, id: Id)
    requires Shape(db) && id in db.deliveries && CountQuery(db, i, grant, expected, transport).Ok?
    ensures Effect(db, CountQuery(db, i, grant, expected, transport).value, id, false, false)
  {
    assert DeliveryOk(db, id);
  }

  lemma RenewEffect(db: AlertDb, i: Id, now: Time, id: Id)
    requires Shape(db) && id in db.deliveries && i in db.deliveries && DeliveryOk(db, i) && db.deliveries[i].state == Exhausted
    ensures Effect(db, RenewBudget(db, i, now), id, false, id == i)
  {
    hide Shape, LocalOk;
    ShapeRow(db, id);
    BudgetsBelow(db);
    var sid := db.deliveries[i].session;
    var closed := db.budgets[sid := db.budgets[sid].(state := Closed(Exhausted))];
    CountSame(db.budgets, closed, id, db.nextId);
    AddBudget(closed, db.nextId, NewBudget(i, true, now), id, db.nextId);
  }

  /** Enqueueing leaves every delivery alone and starts the new ones with nothing spent. */
  ghost predicate Grows(db: AlertDb, db': AlertDb) {
    && (forall id | id in db.deliveries :: Untouched(db, db', id))
    && (forall id | id in db'.deliveries && id !in db.deliveries :: Born(db, db', id))
  }

  lemma InsertLeaves(db: AlertDb, incident: Id, ref: DestRef, human: bool, now: Time, id: Id)
    requires Shape(db) && incident in db.incidents.rows && ref in db.dests && id in db.deliveries
    ensures Untouched(db, InsertDelivery(db, incident, ref, human, now), id)
  {
    assert DeliveryOk(db, id);
    BudgetsBelow(db);
    AddBudget(db.budgets, db.nextId + 1, NewBudget(db.nextId, human, now), id, db.nextId);
    hide Shape, LocalOk, EpisodeOf;
  }

  lemma InsertBears(db: AlertDb, incident: Id, ref: DestRef, human: bool, now: Time)
    requires Shape(db) && incident in db.incidents.rows && ref in db.dests
    ensures Born(db, InsertDelivery(db, incident, ref, human, now), db.nextId)
  {
    BudgetsBelow(db);
    FreshId(db);
    NoBudgets(db, db.nextId);
    AddBudget(db.budgets, db.nextId + 1, NewBudget(db.nextId, human, now), db.nextId, db.nextId);
    hide Shape, EpisodeOf;
  }

  lemma InsertGrows(db: AlertDb, incident: Id, ref: DestRef, human: bool, now: Time)
    requires Books(db) && incident in db.incidents.rows && ref in db.dests
    ensures Grows(db, InsertDelivery(db, incident, ref, human, now))
  {
    BooksShape(db);
    InsertBears(db, incident, ref, human, now);
    hide Books, Shape, Untouched, Born, EpisodeOf;
    forall id | id in db.deliveries ensures Untouched(db, InsertDelivery(db, incident, ref, human, now), id) {
      InsertLeaves(db, incident, ref, human, now, id);
    }
  }

  lemma FreshId(db: AlertDb)
    requires Shape(db)
    ensures db.nextId !in db.deliveries
  {
    assert forall id | id in db.deliveries :: DeliveryOk(db, id);
  }

  lemma EnqueueGrows(db: AlertDb, id: Id, ref: DestRef, human: bool, now: Time, bytes: Payload -> nat)
    requires Books(db) && EnqueueCurrent(db, id, ref, human, now, bytes).Ok?
    ensures Grows(db, EnqueueCurrent(db, id, ref, human, now, bytes).value)
  {
    GrowsSelf(db);
    if id in db.incidents.rows && ref in db.dests {
      InsertGrows(db, id, ref, human, now);
    }
  }

  lemma GrowsSelf(db: AlertDb)
    requires Books(db)
    ensures Grows(db, db)
  {
    forall id | id in db.deliveries ensures Untouched(db, db, id) {
      assert DeliveryOk(db, id);
    }
  }

  lemma GrowsTransitive(a: AlertDb, b: AlertDb, c: AlertDb)
    requires Grows(a, b) && Grows(b, c)
    ensures Grows(a, c)
  {
    forall id | id in a.deliveries ensures Untouched(a, c, id) {
      assert Untouched(a, b, id) && Untouched(b, c, id);
    }
    forall id | id in c.deliveries && id !in a.deliveries ensures Born(a, c, id) {
      if id in b.deliveries { assert Born(a, b, id) && Untouched(b, c, id); } else { assert Born(b, c, id); }
    }
  }

  lemma {:induction false} ProcessGrows(db: AlertDb, ref: DestRef, batch: seq<DueRow>, clock: nat -> Time, human: bool,
                                        bytes: Payload -> nat)
    requires Books(db) && ProcessRows(db, ref, batch, clock, human, bytes).Ok?
    ensures Grows(db, ProcessRows(db, ref, batch, clock, human, bytes).value)
    decreases |batch|
  {
    GrowsSelf(db);
    if batch != [] {
      hide Books, Grows;
      var last := |batch| - 1;
      ProcessGrows(db, ref, batch[..last], clock, human, bytes);
      ProcessKeepsBooks(db, ref, batch[..last], clock, human, bytes);
      var db1 := ProcessRows(db, ref, batch[..last], clock, human, bytes).value;
      EnqueueGrows(db1, batch[last].incident, ref, human, clock(last), bytes);
      var db2 := EnqueueCurrent(db1, batch[last].incident, ref, human, clock(last), bytes).value;
      GrowsTransitive(db, db1, db2);
      GrowsFrame(db, db2, WithReceipt(db2, ref, batch[last].revision));
    }
  }

  lemma GrowsFrame(db: AlertDb, a: AlertDb, b: AlertDb)
    requires Grows(db, a) && b.deliveries == a.deliveries && b.budgets == a.budgets && b.nextId == a.nextId
    ensures Grows(db, b)
  {
    forall id | id in db.deliveries ensures Untouched(db, b, id) {
      assert Untouched(db, a, id);
    }
    forall id | id in b.deliveries && id !in db.deliveries ensures Born(db, b, id) {
      assert Born(db, a, id);
    }
  }

  /** Each transaction moves a delivery one version at most; unless a human renews it, a move spends its measure. */
  lemma TxEffect(db: AlertDb, tx: Tx, id: Id)
    requires Books(db) && id in db.deliveries
    ensures Effect(db, ExecTx(db, tx), id, Claims(db, tx, id), Renews(db, tx, id))
  {
    hide Books, Shape, Claim, Finish, ApplyAnswer, CountQuery, ProcessRows, Apply, Renewed, Spends, Queried;
    BooksShape(db);
    ShapeRow(db, id);
    UntouchedSelf(db, id);
    match tx
    case ConfigureTx(ref, config, grant) => assert Untouched(db, ExecTx(db, tx), id);
    case IncidentTx(update, now) => assert Untouched(db, ExecTx(db, tx), id);
    case ReconcileTx(ref, grant, limit, batch, clock, bytes) =>
      if Reconcile(db, ref, grant, limit, batch, clock, bytes).Ok? {
        ProcessGrows(db, ref, batch, clock, grant.value.human, bytes);
      }
    case ClaimTx(ref, grant, transport, preview, now) => ClaimEffect(db, ref, grant, transport, preview, now, id);
    case FinishTx(i, token, version, outcome, factor, now) =>
      if Finish(db, i, token, version, outcome, factor, now).Ok? {
        FinishEffect(db, i, token, version, outcome, factor, now, id);
      }
    case RenewTx(i, grant, expected, reason, now) =>
      if Renew(db, i, grant, expected, reason, now).Ok? {
        RenewOk(db, i);
        RenewEffect(db, i, now, id);
      }
    case QueryTx(i, grant, expected, transport) =>
      if CountQuery(db, i, grant, expected, transport).Ok? {
        QueryEffect(db, i, grant, expected, transport, id);
      }
    case AnswerTx(i, expected, answer, checkNow, dueNow) =>
      if Definite(answer) && ApplyAnswer(db, i, expected, answer, checkNow, dueNow).Ok? {
        AnswerEffect(db, i, expected, answer, checkNow, dueNow, id);
      } else {
        IndefiniteAnswer(db, i, expected, answer, checkNow, dueNow);
      }
  }

  /** Only a reconciliation creates deliveries. */
  lemma TxBirth(db: AlertDb, tx: Tx, id: Id)
    requires Books(db) && id !in db.deliveries
    ensures !Claims(db, tx, id) && !Renews(db, tx, id)
    ensures id in ExecTx(db, tx).deliveries ==> Born(db, ExecTx(db, tx), id)
  {
    hide Books, ProcessRows, Apply;
    if tx.ClaimTx? {
      ClaimCases(db, tx.ref, tx.grant, tx.transport, tx.preview, tx.now);
      SweepIds(db, tx.now);
    } else if tx.ReconcileTx? && Reconcile(db, tx.ref, tx.grant, tx.limit, tx.batch, tx.clock, tx.bytes).Ok? {
      ProcessGrows(db, tx.ref, tx.batch, tx.clock, tx.grant.value.human, tx.bytes);
    }
  }

  // ---------------------------------------------------------------- whole runs

  ghost predicate Tally(db: AlertDb, id: Id, claims: nat, renewals: nat) {
    if id in db.deliveries then db.deliveries[id].totalAttempts == claims && Sessions(db, id) == 1 + renewals
    else claims == 0 && renewals == 0
  }

  lemma EmptyBooks(incidents: IncidentDb)
    ensures Books(EmptyOutbox(incidents))
  {
  }

  lemma TallyStep(db: AlertDb, tx: Tx, id: Id, claims: nat, renewals: nat)
    requires Books(db) && Tally(db, id, claims, renewals)
    ensures Tally(ExecTx(db, tx), id, claims + (if Claims(db, tx, id) then 1 else 0), renewals + (if Renews(db, tx, id) then 1 else 0))
  {
    hide Books, ExecTx, Claims, Renews;
    if id in db.deliveries {
      TxEffect(db, tx, id);
    } else {
      TxBirth(db, tx, id);
    }
  }

  lemma {:induction false} RunTallies(incidents: IncidentDb, txs: seq<Tx>, id: Id)
    ensures Books(RunTx(EmptyOutbox(incidents), txs))
    ensures Tally(RunTx(EmptyOutbox(incidents), txs), id, ClaimCount(EmptyOutbox(incidents), txs, id), RenewalCount(EmptyOutbox(incidents), txs, id))
    decreases |txs|
  {
    hide Books, Claims, Renews, ExecTx;
    var db := EmptyOutbox(incidents);
    EmptyBooks(incidents);
    RunKeepsBooks(db, txs);
    if txs != [] {
      var n := |txs| - 1;
      RunTallies(incidents, txs[..n], id);
      TallyStep(RunTx(db, txs[..n]), txs[n], id, ClaimCount(db, txs[..n], id), RenewalCount(db, txs[..n], id));
    }
  }

  /**
   The budget of a delivery over any run from an empty outbox, whatever the clocks read: its recorded attempts are
   the claims it was granted, they equal the sum over its sessions, each session spent at most 128, it was claimed at
   most 128 times per session, queried at most 8 times in all, and changed at most 513 times before any renewal.
   */
  lemma BudgetConservation(incidents: IncidentDb, txs: seq<Tx>, id: Id)
    requires id in RunTx(EmptyOutbox(incidents), txs).deliveries
    ensures
      var db := RunTx(EmptyOutbox(incidents), txs);
      var renewals := RenewalCount(EmptyOutbox(incidents), txs, id);
      && db.deliveries[id].totalAttempts == ClaimCount(EmptyOutbox(incidents), txs, id)
      && db.deliveries[id].totalAttempts == AttemptSum(db.budgets, id, db.nextId)
      && db.deliveries[id].totalAttempts <= MAX_ATTEMPTS * (1 + renewals)
      && db.deliveries[id].queries <= MAX_QUERIES
      && db.deliveries[id].version <= 513 + 514 * renewals
      && (forall sid | sid in db.budgets && db.budgets[sid].delivery == id ::
            && db.budgets[sid].attempts <= MAX_ATTEMPTS
            && (sid != db.deliveries[id].session ==> db.budgets[sid].state == Closed(Exhausted)))
  {
    var db := RunTx(EmptyOutbox(incidents), txs);
    RunTallies(incidents, txs, id);
    BooksSay(db, id);
  }

  lemma BooksSay(db: AlertDb, id: Id)
    requires Books(db) && id in db.deliveries
    ensures db.deliveries[id].totalAttempts == AttemptSum(db.budgets, id, db.nextId)
    ensures Sessions(db, id) >= 1 && db.deliveries[id].totalAttempts <= MAX_ATTEMPTS * Sessions(db, id)
    ensures db.deliveries[id].queries <= MAX_QUERIES
    ensures db.deliveries[id].version <= 513 + 514 * (Sessions(db, id) - 1)
    ensures forall sid | sid in db.budgets && db.budgets[sid].delivery == id ::
              && db.budgets[sid].attempts <= MAX_ATTEMPTS
              && (sid != db.deliveries[id].session ==> db.budgets[sid].state == Closed(Exhausted))
  {
    assert DeliveryOk(db, id) && AccountOk(db, id);
    forall sid | sid in db.budgets
      ensures db.budgets[sid].attempts <= MAX_ATTEMPTS
      ensures db.budgets[sid].delivery == id && sid != db.deliveries[id].session ==> db.budgets[sid].state == Closed(Exhausted)
    {
      assert BudgetOk(db, sid);
    }
    SumBound(db.budgets, id, db.nextId);
  }
}
