/** The outbox's capacities: checked at one statement each, true of the tables after every transaction of every run. */
module AlertQuotas {
  import opened Common
  import opened Incidents
  import opened AlertModel
  import opened AlertProtocol

  ghost predicate Limits(db: AlertDb) {
    && |db.dests| <= 32 && |db.receipts| <= 200_000 && |db.deliveries| <= 4096
    && |Unaccepted(db)| <= 1024 && (forall ref :: |UnacceptedFor(db, ref)| <= 128)
    && |InFlightAll(db)| <= 16 && (forall ref :: |InFlightFor(db, ref)| <= 2)
  }

  lemma AtMostOneMore<T>(a: set<T>, b: set<T>, x: T)
    requires b <= a + {x}
    ensures |b| <= |a| + 1
  {
    SubsetSize(b, a + {x});
  }

  /** Nothing accepted is taken back, nothing new is in flight, and no delivery appears or moves. */
  ghost predicate Shrinks(db: AlertDb, db': AlertDb) {
    && db'.dests == db.dests && db'.receipts == db.receipts && db'.deliveries.Keys == db.deliveries.Keys
    && forall id | id in db.deliveries ::
         && db'.deliveries[id].dest == db.deliveries[id].dest
         && (db.deliveries[id].state == Accepted ==> db'.deliveries[id].state == Accepted)
         && (db'.deliveries[id].state == InFlight ==> db.deliveries[id].state == InFlight)
  }

  lemma ShrinksKeepsLimits(db: AlertDb, db': AlertDb)
    requires Limits(db) && Shrinks(db, db')
    ensures Limits(db')
  {
    assert |db'.deliveries| == |db.deliveries| by {
      KeysSize(db.deliveries);
      KeysSize(db'.deliveries);
    }
    SubsetSize(Unaccepted(db'), Unaccepted(db));
    SubsetSize(InFlightAll(db'), InFlightAll(db));
    forall ref ensures |UnacceptedFor(db', ref)| <= 128 && |InFlightFor(db', ref)| <= 2 {
      SubsetSize(UnacceptedFor(db', ref), UnacceptedFor(db, ref));
      SubsetSize(InFlightFor(db', ref), InFlightFor(db, ref));
    }
  }

  lemma KeysSize<T, U>(m: map<T, U>)
    ensures |m| == |m.Keys|
  {
  }

  lemma OneMoreKey<T, U>(m: map<T, U>, k: T, v: U)
    requires k !in m
    ensures |m[k := v]| == |m| + 1
  {
    assert m[k := v].Keys == m.Keys + {k};
    KeysSize(m);
    KeysSize(m[k := v]);
  }

  lemma SweepShrinks(db: AlertDb, now: Time)
    ensures Shrinks(db, Sweep(db, now))
  {
    SweepIds(db, now);
  }

  lemma ExhaustShrinks(db: AlertDb, id: Id)
    requires id in db.deliveries && db.deliveries[id].state == Pending
    ensures Shrinks(db, ExhaustInPlace(db, id))
  {
  }

  lemma FinishShrinks(db: AlertDb, id: Id, token: Id, version: nat, outcome: Outcome, factor: real, now: Time)
    ensures Shrinks(db, Kept(db, Finish(db, id, token, version, outcome, factor, now)))
  {
  }

  lemma RenewShrinks(db: AlertDb, id: Id, grant: Option<Grant>, expected: nat, reason: string, now: Time)
    ensures Shrinks(db, Kept(db, Renew(db, id, grant, expected, reason, now)))
  {
  }

  lemma QueryShrinks(db: AlertDb, id: Id, grant: Option<Grant>, expected: nat, transport: string)
    ensures Shrinks(db, Kept(db, CountQuery(db, id, grant, expected, transport)))
  {
  }

  lemma AnswerShrinks(db: AlertDb, id: Id, expected: nat, answer: Option<Outcome>, checkNow: Time, dueNow: Time)
    ensures Shrinks(db, Kept(db, ApplyAnswer(db, id, expected, answer, checkNow, dueNow)))
  {
  }

  lemma TakeClaimKeepsLimits(db: AlertDb, id: Id, now: Time)
    requires Limits(db) && id in db.deliveries && db.deliveries[id].session in db.budgets && db.deliveries[id].state == Pending
    requires |InFlightAll(db)| < 16 && |InFlightFor(db, db.deliveries[id].dest)| < 2
    ensures Limits(TakeClaim(db, id, now))
  {
    var db' := TakeClaim(db, id, now);
    assert db'.deliveries.Keys == db.deliveries.Keys;
    KeysSize(db.deliveries);
    KeysSize(db'.deliveries);
    SubsetSize(Unaccepted(db'), Unaccepted(db));
    AtMostOneMore(InFlightAll(db), InFlightAll(db'), id);
    forall ref ensures |UnacceptedFor(db', ref)| <= 128 && |InFlightFor(db', ref)| <= 2 {
      SubsetSize(UnacceptedFor(db', ref), UnacceptedFor(db, ref));
      AtMostOneMore(InFlightFor(db, ref), InFlightFor(db', ref), id);
      if ref != db.deliveries[id].dest { SubsetSize(InFlightFor(db', ref), InFlightFor(db, ref)); }
    }
  }

  lemma ClaimKeepsLimits(db: AlertDb, ref: DestRef, grant: Option<Grant>, transport: string, preview: Option<Id>, now: Time)
    requires Limits(db)
    ensures Limits(Claim(db, ref, grant, transport, preview, now).0)
  {
    ClaimCases(db, ref, grant, transport, preview, now);
    SweepShrinks(db, now);
    var db1 := Sweep(db, now);
    hide Sweep, Claim, TakeClaim, ExhaustInPlace, Limits, Shrinks, InFlightAll, InFlightFor;
    ShrinksKeepsLimits(db, db1);
    match Claim(db, ref, grant, transport, preview, now).1
    case FoundExhausted(id) =>
      ExhaustShrinks(db1, id);
      ShrinksKeepsLimits(db1, ExhaustInPlace(db1, id));
    case Claimed(id, _, _) => TakeClaimKeepsLimits(db1, id, now);
    case _ =>
  }

  lemma InsertKeepsFor(db: AlertDb, id: Id, ref: DestRef, human: bool, now: Time, r: DestRef)
    requires id in db.incidents.rows && ref in db.dests && db.nextId !in db.deliveries
    requires |UnacceptedFor(db, r)| <= 128 && |InFlightFor(db, r)| <= 2 && (r == ref ==> |UnacceptedFor(db, r)| < 128)
    ensures |UnacceptedFor(InsertDelivery(db, id, ref, human, now), r)| <= 128
    ensures |InFlightFor(InsertDelivery(db, id, ref, human, now), r)| <= 2
  {
    hide EpisodeOf;
    var db' := InsertDelivery(db, id, ref, human, now);
    AtMostOneMore(UnacceptedFor(db, r), UnacceptedFor(db', r), db.nextId);
    SubsetSize(InFlightFor(db', r), InFlightFor(db, r));
    if r != ref { SubsetSize(UnacceptedFor(db', r), UnacceptedFor(db, r)); }
  }

  lemma InsertIs(db: AlertDb, id: Id, ref: DestRef, human: bool, now: Time)
    requires id in db.incidents.rows && ref in db.dests
    ensures
      var db' := InsertDelivery(db, id, ref, human, now);
      && db.nextId in db'.deliveries && db'.deliveries == db.deliveries[db.nextId := db'.deliveries[db.nextId]]
      && db'.deliveries[db.nextId].state == Pending && db'.deliveries[db.nextId].dest == ref
  {
    hide EpisodeOf;
  }

  lemma InsertKeepsAll(db: AlertDb, id: Id, ref: DestRef, human: bool, now: Time)
    requires id in db.incidents.rows && ref in db.dests && db.nextId !in db.deliveries
    ensures |InsertDelivery(db, id, ref, human, now).deliveries| == |db.deliveries| + 1
    ensures |Unaccepted(InsertDelivery(db, id, ref, human, now))| <= |Unaccepted(db)| + 1
    ensures |InFlightAll(InsertDelivery(db, id, ref, human, now))| <= |InFlightAll(db)|
  {
    var db' := InsertDelivery(db, id, ref, human, now);
    InsertIs(db, id, ref, human, now);
    hide InsertDelivery;
    OneMoreKey(db.deliveries, db.nextId, db'.deliveries[db.nextId]);
    AtMostOneMore(Unaccepted(db), Unaccepted(db'), db.nextId);
    SubsetSize(InFlightAll(db'), InFlightAll(db));
  }

  lemma InsertKeepsLimits(db: AlertDb, id: Id, ref: DestRef, human: bool, now: Time)
    requires Limits(db) && id in db.incidents.rows && ref in db.dests && !OutboxFull(db, ref) && db.nextId !in db.deliveries
    ensures Limits(InsertDelivery(db, id, ref, human, now))
  {
    var db' := InsertDelivery(db, id, ref, human, now);
    assert db'.dests == db.dests && db'.receipts == db.receipts;
    NotFull(db, ref);
    InsertKeepsAll(db, id, ref, human, now);
    hide EpisodeOf, OutboxFull, InsertDelivery, Unaccepted, UnacceptedFor, InFlightAll, InFlightFor;
    forall r ensures |UnacceptedFor(db', r)| <= 128 && |InFlightFor(db', r)| <= 2 {
      InsertKeepsFor(db, id, ref, human, now, r);
    }
  }

  lemma NotFull(db: AlertDb, ref: DestRef)
    requires !OutboxFull(db, ref)
    ensures |db.deliveries| < 4096 && |Unaccepted(db)| < 1024 && |UnacceptedFor(db, ref)| < 128
  {
  }

  lemma EnqueueKeepsLimits(db: AlertDb, id: Id, ref: DestRef, human: bool, now: Time, bytes: Payload -> nat)
    requires Limits(db) && Books(db) && EnqueueCurrent(db, id, ref, human, now, bytes).Ok?
    ensures Limits(EnqueueCurrent(db, id, ref, human, now, bytes).value)
    ensures EnqueueCurrent(db, id, ref, human, now, bytes).value.receipts == db.receipts
  {
    hide Limits, Exempt, Alerted, OutboxFull;
    if EnqueueCurrent(db, id, ref, human, now, bytes).value != db {
      Unused(db);
      InsertKeepsLimits(db, id, ref, human, now);
    }
  }

  lemma Unused(db: AlertDb)
    requires Books(db)
    ensures db.nextId !in db.deliveries
  {
    assert forall id | id in db.deliveries :: DeliveryOk(db, id);
  }

  /** The counts depend on the deliveries alone. */
  lemma LimitsFrame(db: AlertDb, db': AlertDb)
    requires Limits(db) && db'.deliveries == db.deliveries && |db'.dests| <= 32 && |db'.receipts| <= 200_000
    ensures Limits(db')
  {
    assert Unaccepted(db') == Unaccepted(db) && InFlightAll(db') == InFlightAll(db);
    forall x ensures UnacceptedFor(db', x) == UnacceptedFor(db, x) && InFlightFor(db', x) == InFlightFor(db, x) {
    }
    hide Unaccepted, UnacceptedFor, InFlightAll, InFlightFor;
  }

  lemma ReceiptKeepsLimits(db: AlertDb, ref: DestRef, r: int)
    requires Limits(db) && |db.receipts| < 200_000
    ensures Limits(WithReceipt(db, ref, r)) && |WithReceipt(db, ref, r).receipts| <= |db.receipts| + 1
  {
    LimitsFrame(db, WithReceipt(db, ref, r));
  }

  lemma {:induction false} ProcessKeepsLimits(db: AlertDb, ref: DestRef, batch: seq<DueRow>, clock: nat -> Time, human: bool,
                                              bytes: Payload -> nat)
    requires Limits(db) && Books(db) && ProcessRows(db, ref, batch, clock, human, bytes).Ok?
    requires |db.receipts| + |batch| <= 200_000
    ensures Limits(ProcessRows(db, ref, batch, clock, human, bytes).value)
    ensures |ProcessRows(db, ref, batch, clock, human, bytes).value.receipts| <= |db.receipts| + |batch|
    decreases |batch|
  {
    if batch != [] {
      hide Limits, Books;
      var last := |batch| - 1;
      ProcessKeepsLimits(db, ref, batch[..last], clock, human, bytes);
      ProcessKeepsBooks(db, ref, batch[..last], clock, human, bytes);
      var db1 := ProcessRows(db, ref, batch[..last], clock, human, bytes).value;
      EnqueueKeepsLimits(db1, batch[last].incident, ref, human, clock(last), bytes);
      var db2 := EnqueueCurrent(db1, batch[last].incident, ref, human, clock(last), bytes).value;
      ReceiptKeepsLimits(db2, ref, batch[last].revision);
    }
  }

  lemma ConfigureAdmits(db: AlertDb, ref: DestRef, config: Config, grant: Option<Grant>)
    requires |db.dests| <= 32
    ensures
      var db' := Kept(db, Configure(db, ref, config, grant));
      |db'.dests| <= 32 && db'.deliveries == db.deliveries && db'.receipts == db.receipts
  {
    hide Refusal;
    if db.dests.Keys == Kept(db, Configure(db, ref, config, grant)).dests.Keys {
      KeysSize(db.dests);
      KeysSize(Kept(db, Configure(db, ref, config, grant)).dests);
    } else {
      OneMoreKey(db.dests, ref, Kept(db, Configure(db, ref, config, grant)).dests[ref]);
    }
  }

  lemma ConfigureKeepsLimits(db: AlertDb, ref: DestRef, config: Config, grant: Option<Grant>)
    requires Limits(db)
    ensures Limits(Kept(db, Configure(db, ref, config, grant)))
  {
    ConfigureAdmits(db, ref, config, grant);
    LimitsFrame(db, Kept(db, Configure(db, ref, config, grant)));
  }

  lemma TxKeepsLimits(db: AlertDb, tx: Tx)
    requires Limits(db) && Books(db) && Admissible(db, tx)
    ensures Limits(ExecTx(db, tx))
  {
    var db' := ExecTx(db, tx);
    hide Limits, Books, Shrinks, Claim, Finish, Renew, CountQuery, ApplyAnswer, ProcessRows, Configure, Apply, IsBatch;
    match tx
    case ConfigureTx(ref, config, grant) => ConfigureKeepsLimits(db, ref, config, grant);
    case IncidentTx(update, now) =>
      assert Shrinks(db, db') by { IncidentShrinks(db, db'); }
      ShrinksKeepsLimits(db, db');
    case ReconcileTx(ref, grant, limit, batch, clock, bytes) =>
      if Reconcile(db, ref, grant, limit, batch, clock, bytes).Ok? {
        BatchSize(db, ref, limit, batch);
        ProcessKeepsLimits(db, ref, batch, clock, grant.value.human, bytes);
      }
    case ClaimTx(ref, grant, transport, preview, now) => ClaimKeepsLimits(db, ref, grant, transport, preview, now);
    case FinishTx(id, token, version, outcome, factor, now) =>
      FinishShrinks(db, id, token, version, outcome, factor, now);
      ShrinksKeepsLimits(db, db');
    case RenewTx(id, grant, expected, reason, now) =>
      RenewShrinks(db, id, grant, expected, reason, now);
      ShrinksKeepsLimits(db, db');
    case QueryTx(id, grant, expected, transport) =>
      QueryShrinks(db, id, grant, expected, transport);
      ShrinksKeepsLimits(db, db');
    case AnswerTx(id, expected, answer, checkNow, dueNow) =>
      AnswerShrinks(db, id, expected, answer, checkNow, dueNow);
      ShrinksKeepsLimits(db, db');
  }

  lemma IncidentShrinks(db: AlertDb, db': AlertDb)
    requires db' == db.(incidents := db'.incidents)
    ensures Shrinks(db, db')
  {
  }

  lemma BatchSize(db: AlertDb, ref: DestRef, limit: nat, batch: seq<DueRow>)
    requires IsBatch(db, ref, limit, batch)
    ensures |batch| <= limit
  {
  }

  /** Every capacity holds after every run, whatever the clocks read and whatever was refused on the way. */
  lemma {:induction false} RunKeepsLimits(incidents: IncidentDb, txs: seq<Tx>)
    requires LegalTx(EmptyOutbox(incidents), txs)
    ensures Limits(RunTx(EmptyOutbox(incidents), txs))
    decreases |txs|
  {
    var db := EmptyOutbox(incidents);
    if txs == [] {
      EmptyLimits(incidents);
    } else {
      hide Limits, Books, Admissible, ExecTx;
      var n := |txs| - 1;
      RunKeepsLimits(incidents, txs[..n]);
      EmptyLimits(incidents);
      RunKeepsBooks(db, txs[..n]);
      TxKeepsLimits(RunTx(db, txs[..n]), txs[n]);
    }
  }

  lemma EmptyLimits(incidents: IncidentDb)
    ensures Limits(EmptyOutbox(incidents)) && Books(EmptyOutbox(incidents))
  {
    var db := EmptyOutbox(incidents);
    assert Unaccepted(db) == {} && InFlightAll(db) == {};
    forall x ensures |UnacceptedFor(db, x)| <= 128 && |InFlightFor(db, x)| <= 2 {
      assert UnacceptedFor(db, x) == {} && InFlightFor(db, x) == {};
    }
  }
}
