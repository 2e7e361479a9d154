/**
 The one disagreement between a delivery and its session. A claim that finds its delivery with less than five seconds
 left exhausts the delivery and leaves the session ACTIVE; exactly that makes the two disagree, and exactly the next
 dispatch that gets past its checks, or a renewal, ends it.
 */
module AlertLag {
  import opened Common
  import opened Incidents
  import opened AlertModel
  import opened AlertProtocol
  import opened AlertBudgets

  predicate Lags(db: AlertDb, id: Id) {
    && id in db.deliveries && db.deliveries[id].state == Exhausted && db.deliveries[id].session in db.budgets
    && db.budgets[db.deliveries[id].session].state == Active
  }

  /** A claim that gets past authorization, destination and transport, and so sweeps. */
  predicate Opens(db: AlertDb, tx: Tx) {
    tx.ClaimTx? && !Claim(db, tx.ref, tx.grant, tx.transport, tx.preview, tx.now).1.Refused?
  }

  /** Such a claim that finds room in flight and its previewed delivery still eligible. */
  predicate Selects(db: AlertDb, tx: Tx, id: Id) {
    && Opens(db, tx) && tx.preview == Some(id)
    && !Claim(db, tx.ref, tx.grant, tx.transport, tx.preview, tx.now).1.CapacityPaused?
    && Eligible(Sweep(db, tx.now), id, tx.ref, tx.now)
  }

  predicate TooLate(db: AlertDb, id: Id, now: Time) {
    && id in db.deliveries && db.deliveries[id].session in db.budgets
    && db.budgets[db.deliveries[id].session].deadline - now < 5.0
  }

  // ---------------------------------------------------------------- what ends it, and what leaves it

  /** After a sweep no session lags. */
  lemma SweepEndsLag(db: AlertDb, now: Time, id: Id)
    requires Shape(db)
    ensures !Lags(Sweep(db, now), id)
  {
    SweepIds(db, now);
    if id in db.deliveries {
      assert DeliveryOk(db, id);
      SweepLocal(db, now, db.deliveries[id].session);
      SweptSession(db.budgets, db.deliveries[id], now);
    }
    hide Sweep, Shape, SweptDelivery;
  }

  ghost predicate SameRow(db: AlertDb, db': AlertDb, id: Id) {
    && (id in db.deliveries <==> id in db'.deliveries)
    && (id in db.deliveries ==>
          && db'.deliveries[id].state == db.deliveries[id].state && db'.deliveries[id].session == db.deliveries[id].session
          && db.deliveries[id].session in db.budgets && db.deliveries[id].session in db'.budgets
          && db'.budgets[db.deliveries[id].session].state == db.budgets[db.deliveries[id].session].state)
  }

  lemma SameRowSameLag(db: AlertDb, db': AlertDb, id: Id)
    requires SameRow(db, db', id)
    ensures Lags(db', id) <==> Lags(db, id)
  {
  }

  /** Rewriting one delivery and its session leaves the rows of the others. */
  lemma RewriteLeaves(db: AlertDb, i: Id, d: Delivery, b: Budget, nextId: Id, id: Id)
    requires Shape(db) && i in db.deliveries && DeliveryOk(db, i) && id != i
    ensures SameRow(db, Rewrite(db, i, d, b, nextId), id)
  {
    if id in db.deliveries { assert DeliveryOk(db, id); }
    hide Shape, LocalOk;
  }

  // ---------------------------------------------------------------- the claim

  lemma DeadlineSwept(db: AlertDb, now: Time, id: Id)
    requires Shape(db) && id in db.deliveries
    ensures TooLate(Sweep(db, now), id, now) <==> TooLate(db, id, now)
    ensures id in Sweep(db, now).deliveries && Sweep(db, now).deliveries[id].session in Sweep(db, now).budgets
  {
    assert DeliveryOk(db, id);
    SweepIds(db, now);
    SweepLocal(db, now, db.deliveries[id].session);
    SweptSession(db.budgets, db.deliveries[id], now);
    SweptBudgetKeeps(SweptDelivery(db.budgets, db.deliveries[id], now), db.budgets[db.deliveries[id].session]);
    hide Sweep, Shape, SweptDelivery, LocalOk;
  }

  /** An eligible delivery carries the configuration of its destination: only time can be short. */
  lemma SelectedConfig(db: AlertDb, now: Time, id: Id)
    requires Shape(db) && id in Sweep(db, now).deliveries
    ensures id in db.deliveries && Sweep(db, now).deliveries[id].dest in Sweep(db, now).dests
    ensures Sweep(db, now).deliveries[id].config == Sweep(db, now).dests[Sweep(db, now).deliveries[id].dest].config
  {
    SweepIds(db, now);
    SweepKeepsDelivery(db, now, id);
    hide Sweep, Shape, LocalOk;
  }

  lemma SelectedBranch(db: AlertDb, tx: Tx, id: Id)
    requires Selects(db, tx, id) && id in Sweep(db, tx.now).deliveries
    requires tx.ref in Sweep(db, tx.now).dests
    requires Sweep(db, tx.now).deliveries[id].config == Sweep(db, tx.now).dests[tx.ref].config
    ensures
      var db1 := Sweep(db, tx.now);
      ExecTx(db, tx) == if TooLate(db1, id, tx.now) then ExhaustInPlace(db1, id) else TakeClaim(db1, id, tx.now)
  {
    hide Sweep, InFlightAll, InFlightFor, ExhaustInPlace, TakeClaim;
  }

  /**
   A claim that passes its checks and selects a delivery leaves it exhausted with an ACTIVE session exactly when the
   session has less than five seconds left; otherwise it takes the claim.
   */
  lemma ClaimLagsIff(db: AlertDb, tx: Tx, id: Id)
    requires Books(db) && Selects(db, tx, id)
    ensures Lags(ExecTx(db, tx), id) <==> TooLate(db, id, tx.now)
    ensures !TooLate(db, id, tx.now) ==> Claims(db, tx, id)
  {
    hide Sweep, Shape, Books, ExecTx, Selects, Claims, LocalOk;
    BooksShape(db);
    SelectedFacts(db, tx, id);
    SelectedConfig(db, tx.now, id);
    SelectedBranch(db, tx, id);
    DeadlineSwept(db, tx.now, id);
    SelectedClaims(db, tx, id);
    SweepKeepsDelivery(db, tx.now, id);
    PendingIsActive(Sweep(db, tx.now), id);
  }

  lemma PendingIsActive(db: AlertDb, id: Id)
    requires id in db.deliveries && DeliveryOk(db, id) && db.deliveries[id].state == Pending
    ensures db.deliveries[id].session in db.budgets && db.budgets[db.deliveries[id].session].state == Active
  {
  }

  lemma SelectedFacts(db: AlertDb, tx: Tx, id: Id)
    requires Selects(db, tx, id)
    ensures tx.ClaimTx? && id in Sweep(db, tx.now).deliveries && Sweep(db, tx.now).deliveries[id].dest == tx.ref
    ensures Sweep(db, tx.now).deliveries[id].state == Pending && id in db.deliveries
  {
    SweepIds(db, tx.now);
    hide Sweep, Claim;
  }

  lemma SelectedClaims(db: AlertDb, tx: Tx, id: Id)
    requires Selects(db, tx, id) && id in Sweep(db, tx.now).deliveries
    requires tx.ref in Sweep(db, tx.now).dests
    requires Sweep(db, tx.now).deliveries[id].config == Sweep(db, tx.now).dests[tx.ref].config
    ensures !TooLate(Sweep(db, tx.now), id, tx.now) ==> Claims(db, tx, id)
  {
    hide Sweep, InFlightAll, InFlightFor, ExhaustInPlace, TakeClaim;
  }

  /** A claim that opens but does not select the delivery leaves no lag of it. */
  lemma UnselectedEndsLag(db: AlertDb, tx: Tx, id: Id)
    requires Books(db) && Opens(db, tx) && !Selects(db, tx, id)
    ensures !Lags(ExecTx(db, tx), id)
  {
    BooksShape(db);
    SweepEndsLag(db, tx.now, id);
    SweepKeepsShape(db, tx.now);
    var db1 := Sweep(db, tx.now);
    OpenedCases(db, tx, id);
    hide Sweep, Shape, Books, Opens, Selects, ExecTx, Lags;
    if ExecTx(db, tx) != db1 {
      var i := tx.preview.value;
      ShapeRow(db1, i);
      if ExecTx(db, tx) == ExhaustInPlace(db1, i) {
        ExhaustIsRewrite(db1, i);
        RewriteLeaves(db1, i, ExhaustInPlace(db1, i).deliveries[i], db1.budgets[db1.deliveries[i].session], db1.nextId, id);
      } else {
        TakeIsRewrite(db1, i, tx.now);
        RewriteLeaves(db1, i, TakeClaim(db1, i, tx.now).deliveries[i], TakeClaim(db1, i, tx.now).budgets[db1.deliveries[i].session],
                      db1.nextId + 1, id);
      }
      SameRowSameLag(db1, ExecTx(db, tx), id);
    }
  }

  lemma ExhaustIsRewrite(db: AlertDb, i: Id)
    requires i in db.deliveries && db.deliveries[i].session in db.budgets
    ensures ExhaustInPlace(db, i) == Rewrite(db, i, ExhaustInPlace(db, i).deliveries[i], db.budgets[db.deliveries[i].session], db.nextId)
  {
    assert db.budgets[db.deliveries[i].session := db.budgets[db.deliveries[i].session]] == db.budgets;
  }

  lemma TakeIsRewrite(db: AlertDb, i: Id, now: Time)
    requires i in db.deliveries && db.deliveries[i].session in db.budgets
    ensures db.deliveries[i].session in TakeClaim(db, i, now).budgets
    ensures TakeClaim(db, i, now) ==
              Rewrite(db, i, TakeClaim(db, i, now).deliveries[i], TakeClaim(db, i, now).budgets[db.deliveries[i].session], db.nextId + 1)
  {
  }

  lemma OpenedCases(db: AlertDb, tx: Tx, id: Id)
    requires Opens(db, tx) && !Selects(db, tx, id)
    ensures tx.ClaimTx?
    ensures
      var db1 := Sweep(db, tx.now);
      || ExecTx(db, tx) == db1
      || (&& tx.preview.Some? && tx.preview.value != id && tx.preview.value in db1.deliveries
          && db1.deliveries[tx.preview.value].session in db1.budgets
          && (ExecTx(db, tx) == ExhaustInPlace(db1, tx.preview.value) || ExecTx(db, tx) == TakeClaim(db1, tx.preview.value, tx.now)))
  {
    hide Sweep, InFlightAll, InFlightFor, ExhaustInPlace, TakeClaim;
  }

  lemma RefusedKeeps(db: AlertDb, tx: Tx)
    requires tx.ClaimTx? && !Opens(db, tx)
    ensures ExecTx(db, tx) == db
  {
    hide Sweep, InFlightAll, InFlightFor, ExhaustInPlace, TakeClaim;
  }

  // ---------------------------------------------------------------- the other transactions

  /** Rows and sessions of before stay as they are; what is new is pending. */
  ghost predicate OnlyEnqueues(db: AlertDb, db': AlertDb) {
    && (forall sid | sid in db.budgets :: sid in db'.budgets && db'.budgets[sid] == db.budgets[sid])
    && (forall id | id in db.deliveries :: id in db'.deliveries && db'.deliveries[id] == db.deliveries[id])
    && (forall id | id in db'.deliveries && id !in db.deliveries :: db'.deliveries[id].state == Pending)
  }

  lemma InsertLeaves(db: AlertDb, incident: Id, ref: DestRef, human: bool, now: Time)
    requires incident in db.incidents.rows && ref in db.dests
    requires db.nextId !in db.deliveries && forall sid | sid in db.budgets :: sid < db.nextId
    ensures OnlyEnqueues(db, InsertDelivery(db, incident, ref, human, now))
  {
    hide EpisodeOf;
  }

  lemma StaysEnqueued(db: AlertDb)
    ensures OnlyEnqueues(db, db)
  {
  }

  lemma EnqueueLeaves(db: AlertDb, incident: Id, ref: DestRef, human: bool, now: Time, bytes: Payload -> nat)
    requires Books(db) && EnqueueCurrent(db, incident, ref, human, now, bytes).Ok?
    ensures OnlyEnqueues(db, EnqueueCurrent(db, incident, ref, human, now, bytes).value)
  {
    BooksShape(db);
    BudgetsBelow(db);
    FreshId(db);
    StaysEnqueued(db);
    if incident in db.incidents.rows && ref in db.dests {
      InsertLeaves(db, incident, ref, human, now);
    }
    hide Books, Shape, Exempt, Alerted, OutboxFull, OnlyEnqueues, InsertDelivery;
  }

  lemma EnqueuesThen(a: AlertDb, b: AlertDb, c: AlertDb)
    requires OnlyEnqueues(a, b) && OnlyEnqueues(b, c)
    ensures OnlyEnqueues(a, c)
  {
  }

  lemma {:induction false} ProcessLeaves(db: AlertDb, ref: DestRef, batch: seq<DueRow>, clock: nat -> Time, human: bool,
                                         bytes: Payload -> nat)
    requires Books(db) && ProcessRows(db, ref, batch, clock, human, bytes).Ok?
    ensures OnlyEnqueues(db, ProcessRows(db, ref, batch, clock, human, bytes).value)
    decreases |batch|
  {
    if batch != [] {
      hide Books, OnlyEnqueues, EnqueueCurrent;
      var last := |batch| - 1;
      ProcessLeaves(db, ref, batch[..last], clock, human, bytes);
      ProcessKeepsBooks(db, ref, batch[..last], clock, human, bytes);
      var db1 := ProcessRows(db, ref, batch[..last], clock, human, bytes).value;
      EnqueueLeaves(db1, batch[last].incident, ref, human, clock(last), bytes);
      var db2 := EnqueueCurrent(db1, batch[last].incident, ref, human, clock(last), bytes).value;
      ReceiptLeaves(db2, ref, batch[last].revision);
      EnqueuesThen(db, db1, db2);
      EnqueuesThen(db, db2, WithReceipt(db2, ref, batch[last].revision));
    }
  }

  lemma ReceiptLeaves(db: AlertDb, ref: DestRef, r: int)
    ensures OnlyEnqueues(db, WithReceipt(db, ref, r))
  {
  }

  lemma GrowthLeavesLag(db: AlertDb, db': AlertDb, id: Id)
    requires Shape(db) && OnlyEnqueues(db, db')
    ensures Lags(db', id) <==> Lags(db, id)
  {
    if id in db.deliveries { assert DeliveryOk(db, id); }
    hide Shape;
  }

  lemma ReconcileLeavesLag(db: AlertDb, tx: Tx, id: Id)
    requires Books(db) && tx.ReconcileTx?
    ensures Lags(ExecTx(db, tx), id) <==> Lags(db, id)
  {
    BooksShape(db);
    hide Books, Shape, ProcessRows, Lags;
    if Reconcile(db, tx.ref, tx.grant, tx.limit, tx.batch, tx.clock, tx.bytes).Ok? {
      ProcessLeaves(db, tx.ref, tx.batch, tx.clock, tx.grant.value.human, tx.bytes);
      GrowthLeavesLag(db, ExecTx(db, tx), id);
    }
  }

  lemma FinishLeavesLag(db: AlertDb, i: Id, token: Id, version: nat, outcome: Outcome, factor: real, now: Time, id: Id)
    requires Shape(db)
    ensures Lags(Kept(db, Finish(db, i, token, version, outcome, factor, now)), id) <==> Lags(db, id)
  {
    var r := Finish(db, i, token, version, outcome, factor, now);
    if r.Ok? {
      FinishIs(db, i, token, version, outcome, factor, now);
      ShapeRow(db, i);
      if id != i {
        hide Finish, Shape, Lags;
        RewriteLeaves(db, i, r.value.deliveries[i], r.value.budgets[db.deliveries[i].session], db.nextId, id);
        SameRowSameLag(db, r.value, id);
      } else {
        hide Finish, Shape;
      }
    }
  }

  lemma AnswerLeavesLag(db: AlertDb, i: Id, expected: nat, answer: Option<Outcome>, checkNow: Time, dueNow: Time, id: Id)
    requires Shape(db)
    ensures Lags(Kept(db, ApplyAnswer(db, i, expected, answer, checkNow, dueNow)), id) <==> Lags(db, id)
  {
    var r := ApplyAnswer(db, i, expected, answer, checkNow, dueNow);
    if r.Ok? && Definite(answer) && id != i {
      AnswerRewrites(db, i, expected, answer, checkNow, dueNow);
      hide ApplyAnswer, Shape, Lags;
      RewriteLeaves(db, i, r.value.deliveries[i], r.value.budgets[db.deliveries[i].session], db.nextId, id);
      SameRowSameLag(db, r.value, id);
    } else {
      hide Shape;
    }
  }

  lemma QueryLeavesLag(db: AlertDb, i: Id, grant: Option<Grant>, expected: nat, transport: string, id: Id)
    ensures Lags(Kept(db, CountQuery(db, i, grant, expected, transport)), id) <==> Lags(db, id)
  {
  }

  /** A renewal ends the lag of the delivery it renews, and touches no other. */
  lemma RenewLeavesLag(db: AlertDb, tx: Tx, id: Id)
    requires Shape(db) && tx.RenewTx?
    ensures Lags(ExecTx(db, tx), id) <==> Lags(db, id) && !Renews(db, tx, id)
  {
    if Renew(db, tx.id, tx.grant, tx.expected, tx.reason, tx.now).Ok? {
      ShapeRow(db, tx.id);
      RenewRows(db, tx.id, tx.now, id);
      hide Shape;
    }
  }

  lemma RenewRows(db: AlertDb, i: Id, now: Time, id: Id)
    requires Shape(db) && i in db.deliveries && DeliveryOk(db, i)
    ensures !Lags(RenewBudget(db, i, now), i) && (id != i ==> (Lags(RenewBudget(db, i, now), id) <==> Lags(db, id)))
  {
    if id in db.deliveries { assert DeliveryOk(db, id); }
    hide Shape, LocalOk;
  }

  /**
   Exactly when a delivery is exhausted with an ACTIVE session, after any transaction: a claim that selected it found
   less than five seconds left, or it was so before and the transaction neither opened a dispatch nor renewed it.
   */
  lemma ExhaustedSessionLags(db: AlertDb, tx: Tx, id: Id)
    requires Books(db)
    ensures Lags(ExecTx(db, tx), id) <==>
              || (Selects(db, tx, id) && TooLate(db, id, tx.now))
              || (Lags(db, id) && !Opens(db, tx) && !Renews(db, tx, id))
  {
    BooksShape(db);
    if tx.ClaimTx? {
      if !Opens(db, tx) {
        RefusedKeeps(db, tx);
      } else if Selects(db, tx, id) {
        ClaimLagsIff(db, tx, id);
      } else {
        UnselectedEndsLag(db, tx, id);
      }
    } else {
      OtherTxLags(db, tx, id);
    }
    hide Books, Shape, Lags, ExecTx, TooLate, Claim;
  }

  lemma ConfigLeavesLag(db: AlertDb, tx: Tx, id: Id)
    requires tx.ConfigureTx? || tx.IncidentTx?
    ensures Lags(ExecTx(db, tx), id) <==> Lags(db, id)
  {
    hide Apply, Refusal;
  }

  lemma OtherTxLags(db: AlertDb, tx: Tx, id: Id)
    requires Books(db) && Shape(db) && !tx.ClaimTx?
    ensures Lags(ExecTx(db, tx), id) <==> Lags(db, id) && !Renews(db, tx, id)
  {
    hide Books, Shape, Lags, Renews, Finish, CountQuery, ApplyAnswer, Reconcile, Configure, Renew, Claim, Apply;
    if !tx.RenewTx? { NotRenewing(db, tx, id); }
    match tx
    case ReconcileTx(_, _, _, _, _, _) => ReconcileLeavesLag(db, tx, id);
    case RenewTx(_, _, _, _, _) => RenewLeavesLag(db, tx, id);
    case FinishTx(i, token, version, outcome, factor, now) => FinishLeavesLag(db, i, token, version, outcome, factor, now, id);
    case QueryTx(i, grant, expected, transport) => QueryLeavesLag(db, i, grant, expected, transport, id);
    case AnswerTx(i, expected, answer, checkNow, dueNow) => AnswerLeavesLag(db, i, expected, answer, checkNow, dueNow, id);
    case _ => ConfigLeavesLag(db, tx, id);
  }

  lemma NotRenewing(db: AlertDb, tx: Tx, id: Id)
    requires !tx.RenewTx?
    ensures !Renews(db, tx, id)
  {
  }
}
