/**
 Renewing a budget reads its delivery twice: once to authorize, and again inside the transaction. Whatever runs in
 between, the outcome is that of a renewal which reads once, inside.
 */
module AlertRenewal {
  import opened Common
  import opened AlertModel
  import opened AlertProtocol
  import opened AlertBudgets
  import opened AlertCoverage

  /** No delivery or destination is lost, and none changes hands. */
  ghost predicate Endures(db: AlertDb, db': AlertDb) {
    && (forall id | id in db.deliveries :: id in db'.deliveries && db'.deliveries[id].dest == db.deliveries[id].dest)
    && (forall ref | ref in db.dests :: ref in db'.dests && db'.dests[ref] == db.dests[ref])
  }

  lemma IdentityEndures(db: AlertDb, db': AlertDb)
    requires KeepsIdentity(db, db')
    ensures Endures(db, db')
  {
    forall id | id in db.deliveries ensures id in db'.deliveries && db'.deliveries[id].dest == db.deliveries[id].dest {
      assert SameIdentity(db.deliveries[id], db'.deliveries[id]);
    }
  }

  lemma {:induction false} ProcessDests(db: AlertDb, ref: DestRef, batch: seq<DueRow>, clock: nat -> Time, human: bool, bytes: Payload -> nat)
    requires ProcessRows(db, ref, batch, clock, human, bytes).Ok?
    ensures ProcessRows(db, ref, batch, clock, human, bytes).value.dests == db.dests
    decreases |batch|
  {
    if batch != [] {
      hide Exempt, Alerted, OutboxFull, EpisodeOf;
      ProcessDests(db, ref, batch[..|batch| - 1], clock, human, bytes);
    }
  }

  lemma GrowthEndures(db: AlertDb, db': AlertDb)
    requires Grows(db, db') && db'.dests == db.dests
    ensures Endures(db, db')
  {
    forall id | id in db.deliveries ensures id in db'.deliveries && db'.deliveries[id].dest == db.deliveries[id].dest {
      assert Untouched(db, db', id);
    }
  }

  lemma ReconcileEndures(db: AlertDb, tx: Tx)
    requires Books(db) && tx.ReconcileTx?
    ensures Endures(db, ExecTx(db, tx))
  {
    hide Books, ProcessRows, Grows, Refusal;
    if Reconcile(db, tx.ref, tx.grant, tx.limit, tx.batch, tx.clock, tx.bytes).Ok? {
      var human := Reconciler(db, tx);
      ProcessGrows(db, tx.ref, tx.batch, tx.clock, human, tx.bytes);
      ProcessDests(db, tx.ref, tx.batch, tx.clock, human, tx.bytes);
      GrowthEndures(db, ExecTx(db, tx));
    }
  }

  /** A reconciliation that commits was granted to somebody, and processed its rows in that name. */
  lemma Reconciler(db: AlertDb, tx: Tx) returns (human: bool)
    requires tx.ReconcileTx? && Reconcile(db, tx.ref, tx.grant, tx.limit, tx.batch, tx.clock, tx.bytes).Ok?
    ensures ProcessRows(db, tx.ref, tx.batch, tx.clock, human, tx.bytes).Ok?
    ensures ExecTx(db, tx) == ProcessRows(db, tx.ref, tx.batch, tx.clock, human, tx.bytes).value
  {
    hide ProcessRows;
    human := tx.grant.value.human;
  }

  lemma ConfigureEndures(db: AlertDb, ref: DestRef, config: Config, grant: Option<Grant>)
    ensures Endures(db, Kept(db, Configure(db, ref, config, grant)))
  {
    hide Refusal;
  }

  lemma TxEndures(db: AlertDb, tx: Tx)
    requires Books(db)
    ensures Endures(db, ExecTx(db, tx))
  {
    hide Books, Endures, KeepsIdentity, Configure, Claim, Finish, Renew, CountQuery, ApplyAnswer;
    match tx
    case ConfigureTx(ref, config, grant) => ConfigureEndures(db, ref, config, grant);
    case IncidentTx(update, now) => IncidentEndures(db, tx);
    case ReconcileTx(_, _, _, _, _, _) => ReconcileEndures(db, tx);
    case ClaimTx(ref, grant, transport, preview, now) =>
      ClaimKeepsIdentity(db, ref, grant, transport, preview, now);
      IdentityEndures(db, ExecTx(db, tx));
    case FinishTx(id, token, version, outcome, factor, now) =>
      FinishKeepsIdentity(db, id, token, version, outcome, factor, now);
      IdentityEndures(db, ExecTx(db, tx));
    case RenewTx(id, grant, expected, reason, now) =>
      RenewKeepsIdentity(db, id, grant, expected, reason, now);
      IdentityEndures(db, ExecTx(db, tx));
    case QueryTx(id, grant, expected, transport) =>
      QueryKeepsIdentity(db, id, grant, expected, transport);
      IdentityEndures(db, ExecTx(db, tx));
    case AnswerTx(id, expected, answer, checkNow, dueNow) =>
      AnswerKeepsIdentity(db, id, expected, answer, checkNow, dueNow);
      IdentityEndures(db, ExecTx(db, tx));
  }

  lemma IncidentEndures(db: AlertDb, tx: Tx)
    requires tx.IncidentTx?
    ensures Endures(db, ExecTx(db, tx))
  {
  }

  lemma EnduresOn(a: AlertDb, b: AlertDb, c: AlertDb)
    requires Endures(a, b) && Endures(b, c)
    ensures Endures(a, c)
  {
  }

  lemma {:induction false} RunEndures(db: AlertDb, txs: seq<Tx>)
    requires Books(db)
    ensures Endures(db, RunTx(db, txs))
    decreases |txs|
  {
    if txs != [] {
      hide Books, Endures, ExecTx;
      var n := |txs| - 1;
      RunEndures(db, txs[..n]);
      RunKeepsBooks(db, txs[..n]);
      TxEndures(RunTx(db, txs[..n]), txs[n]);
      EnduresOn(db, RunTx(db, txs[..n]), RunTx(db, txs));
    }
  }

  // ---------------------------------------------------------------- the two reads

  /** `renew_exhausted_budget`: `first` is what the read before the lock saw, `db` the tables inside it. */
  function RenewAfter(first: AlertDb, db: AlertDb, id: Id, grant: Option<Grant>, expected: nat, reason: string, now: Time):
    Result<AlertDb, AlertError>
  {
    if id !in first.deliveries then Err(DeliveryNotFound)
    else if Refusal(first, first.deliveries[id].dest, grant, true).Some? then Err(Refusal(first, first.deliveries[id].dest, grant, true).value)
    else if !(1 <= |reason| <= 1000) then Err(IntentInvalid)
    else if id !in db.deliveries || db.deliveries[id].session !in db.budgets
         || db.deliveries[id].state != Exhausted || db.deliveries[id].version != expected then Err(RecoveryConflict)
    else Ok(RenewBudget(db, id, now))
  }

  /** Authorizing on the earlier read is authorizing on the tables as they are, whatever ran in between. */
  lemma RenewReadsAgree(first: AlertDb, txs: seq<Tx>, id: Id, grant: Option<Grant>, expected: nat, reason: string, now: Time)
    requires Books(first) && id in first.deliveries
    ensures RenewAfter(first, RunTx(first, txs), id, grant, expected, reason, now)
         == Renew(RunTx(first, txs), id, grant, expected, reason, now)
  {
    hide Books, RunTx, RenewBudget, Shape, LocalOk;
    var db := RunTx(first, txs);
    RunEndures(first, txs);
    RunKeepsBooks(first, txs);
    BooksShape(first);
    ShapeRow(first, id);
    BooksShape(db);
    ShapeRow(db, id);
  }
}
