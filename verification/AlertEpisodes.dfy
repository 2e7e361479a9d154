/**
 Episodes and alerts. An episode is one stretch of an incident between closures; a destination hears of each phase of
 each episode once, and hears of a recovery only if it heard of the trouble.
 */
module AlertEpisodes {
  import opened Common
  import opened Incidents
  import opened AlertModel
  import opened AlertProtocol
  import opened AlertBudgets
  import opened AlertCoverage

  // ---------------------------------------------------------------- counting

  /** Entries that leave RESOLVED: the incident came back after it had been closed. */
  function Reopenings(states: seq<Lifecycle>): nat {
    if states == [] then 0 else
      var n := |states| - 1;
      Reopenings(states[..n]) + (if n > 0 && states[n] != Resolved && states[n - 1] == Resolved then 1 else 0)
  }

  lemma {:induction false} ClosuresAreReopenings(states: seq<Lifecycle>)
    requires states != []
    ensures Closures(states) == Reopenings(states) + (if states[|states| - 1] == Resolved then 1 else 0)
    decreases |states|
  {
    var n := |states| - 1;
    if n > 0 {
      ClosuresAreReopenings(states[..n]);
    }
  }

  lemma {:induction false} HistoryEnds(ledger: seq<Entry>, id: Id)
    requires id in Replay(ledger)
    ensures History(ledger, id) != []
    ensures History(ledger, id)[|History(ledger, id)| - 1] == Replay(ledger)[id].lifecycle
    decreases |ledger|
  {
    var shorter := ledger[..|ledger| - 1];
    if ledger[|ledger| - 1].incident != id {
      HistoryEnds(shorter, id);
      assert History(ledger, id) == History(shorter, id) + [];
    }
  }

  /** The window count gives one more than the number of times the incident came back after a closure. */
  lemma EpisodeCountsReopenings(db: AlertDb, id: Id)
    requires Valid(db.incidents) && id in db.incidents.rows
    ensures EpisodeOf(db, id) == 1 + Reopenings(History(db.incidents.ledger, id))
  {
    HistoryEnds(db.incidents.ledger, id);
    ClosuresAreReopenings(History(db.incidents.ledger, id));
  }

  /** A write that does not cross from RESOLVED to unresolved stays in the episode; one that does opens the next. */
  lemma EpisodeStep(db: AlertDb, u: Update, now: Time, id: Id)
    requires Valid(db.incidents) && id in db.incidents.rows
    ensures
      var db' := db.(incidents := Apply(db.incidents, u, now));
      && id in db'.incidents.rows
      && EpisodeOf(db', id) == EpisodeOf(db, id)
         + (if db.incidents.rows[id].lifecycle == Resolved && db'.incidents.rows[id].lifecycle != Resolved then 1 else 0)
  {
    var db' := db.(incidents := Apply(db.incidents, u, now));
    ApplyKeepsValid(db.incidents, u, now);
    ApplyWrites(db.incidents, u, now);
    EpisodeCountsReopenings(db, id);
    EpisodeCountsReopenings(db', id);
    hide Apply, Valid, EpisodeOf;
    if Apply(db.incidents, u, now) != db.incidents {
      var ledger := db.incidents.ledger;
      var e := db'.incidents.ledger[|ledger|];
      assert db'.incidents.ledger == ledger + [e];
      HistoryAppend(ledger, e, id);
      LastState(db, id);
      if e.incident == id {
        var states := History(ledger, id);
        assert (states + [e.body.lifecycle])[..|states|] == states;
      } else {
        assert History(ledger, id) + [] == History(ledger, id);
      }
    }
  }

  lemma LastState(db: AlertDb, id: Id)
    requires Valid(db.incidents) && id in db.incidents.rows
    ensures History(db.incidents.ledger, id) != []
    ensures History(db.incidents.ledger, id)[|History(db.incidents.ledger, id)| - 1] == db.incidents.rows[id].lifecycle
  {
    HistoryEnds(db.incidents.ledger, id);
  }

  // ---------------------------------------------------------------- one delivery for each phase of an episode

  ghost predicate SameAlert(a: Delivery, b: Delivery) {
    a.incident == b.incident && a.dest == b.dest && a.episode == b.episode && a.phase == b.phase
  }

  ghost predicate NoDuplicates(db: AlertDb) {
    forall a, b | a in db.deliveries && b in db.deliveries && SameAlert(db.deliveries[a], db.deliveries[b]) :: a == b
  }

  /** Why a delivery exists: its incident's episode has been reached, and a recovery has its trouble. */
  ghost predicate Justified(db: AlertDb, d: Delivery) {
    && d.incident in db.incidents.rows && d.episode <= EpisodeOf(db, d.incident)
    && d.payload.incident == d.incident && d.payload.episode == d.episode && d.payload.phase == d.phase
    && (d.phase == RecoveryPhase ==> HasSibling(db, d.incident, d.dest, d.episode))
    && (d.phase == CriticalPhase ==> d.payload.severity == Critical)
    && (d.phase == ProblemPhase ==> d.payload.severity != Critical)
    && (d.phase != RecoveryPhase ==> SeverityRank(d.payload.severity) >= SeverityRank(d.config.minimum))
  }

  ghost predicate AlertInv(db: AlertDb) {
    && Valid(db.incidents) && NoDuplicates(db)
    && forall x | x in db.deliveries :: Justified(db, db.deliveries[x])
  }

  lemma IdentityKeepsAlerts(db: AlertDb, db': AlertDb)
    requires AlertInv(db) && KeepsIdentity(db, db')
    ensures AlertInv(db')
  {
    forall x | x in db'.deliveries ensures Justified(db', db'.deliveries[x]) {
      var d := db.deliveries[x];
      assert Justified(db, d) && SameIdentity(d, db'.deliveries[x]);
      HasDeliverySame(db, db', d.incident, d.dest, d.episode, ProblemPhase);
      HasDeliverySame(db, db', d.incident, d.dest, d.episode, CriticalPhase);
    }
    assert forall a | a in db'.deliveries :: SameIdentity(db.deliveries[a], db'.deliveries[a]);
  }

  lemma ConfigureKeepsAlerts(db: AlertDb, db': AlertDb)
    requires AlertInv(db) && db' == db.(dests := db'.dests)
    ensures AlertInv(db')
  {
    forall x | x in db'.deliveries ensures Justified(db', db'.deliveries[x]) {
      var d := db.deliveries[x];
      assert Justified(db, d);
      assert forall phase :: HasDelivery(db', d.incident, d.dest, d.episode, phase) == HasDelivery(db, d.incident, d.dest, d.episode, phase);
    }
  }

  lemma IncidentKeepsAlerts(db: AlertDb, u: Update, now: Time)
    requires AlertInv(db)
    ensures AlertInv(db.(incidents := Apply(db.incidents, u, now)))
  {
    var db' := db.(incidents := Apply(db.incidents, u, now));
    ApplyKeepsValid(db.incidents, u, now);
    forall x | x in db'.deliveries ensures Justified(db', db'.deliveries[x]) {
      assert Justified(db, db.deliveries[x]);
      StaysJustified(db, u, now, db.deliveries[x]);
    }
  }

  lemma StaysJustified(db: AlertDb, u: Update, now: Time, d: Delivery)
    requires Valid(db.incidents) && Justified(db, d)
    ensures Justified(db.(incidents := Apply(db.incidents, u, now)), d)
  {
    hide EpisodeOf, Apply, Valid;
    EpisodeStep(db, u, now, d.incident);
    var db' := db.(incidents := Apply(db.incidents, u, now));
    assert forall phase :: HasDelivery(db', d.incident, d.dest, d.episode, phase) == HasDelivery(db, d.incident, d.dest, d.episode, phase);
  }

  lemma InsertJustified(db: AlertDb, id: Id, ref: DestRef, human: bool, now: Time, x: Id)
    requires id in db.incidents.rows && ref in db.dests && db.nextId !in db.deliveries && !Exempt(db, id, ref)
    requires x in db.deliveries ==> Justified(db, db.deliveries[x])
    requires x in InsertDelivery(db, id, ref, human, now).deliveries
    ensures Justified(InsertDelivery(db, id, ref, human, now), InsertDelivery(db, id, ref, human, now).deliveries[x])
  {
    var db' := InsertDelivery(db, id, ref, human, now);
    var d := db'.deliveries[x];
    assert EpisodeOf(db', id) == EpisodeOf(db, id);
    assert x in db.deliveries ==> EpisodeOf(db', d.incident) == EpisodeOf(db, d.incident);
    hide EpisodeOf, HasDelivery;
    if d.phase == RecoveryPhase {
      SiblingGrows(db, db', d.incident, d.dest, d.episode);
    }
  }

  lemma SiblingGrows(db: AlertDb, db': AlertDb, id: Id, ref: DestRef, episode: nat)
    requires HasSibling(db, id, ref, episode)
    requires forall d | d in db.deliveries :: d in db'.deliveries && db'.deliveries[d] == db.deliveries[d]
    ensures HasSibling(db', id, ref, episode)
  {
    if HasDelivery(db, id, ref, episode, ProblemPhase) {
      HasDeliveryGrows(db, db', id, ref, episode, ProblemPhase);
    } else {
      HasDeliveryGrows(db, db', id, ref, episode, CriticalPhase);
    }
  }

  lemma InsertKeepsAlerts(db: AlertDb, id: Id, ref: DestRef, human: bool, now: Time)
    requires AlertInv(db) && id in db.incidents.rows && ref in db.dests && db.nextId !in db.deliveries
    requires !Exempt(db, id, ref) && !Alerted(db, id, ref)
    ensures AlertInv(InsertDelivery(db, id, ref, human, now))
  {
    var db' := InsertDelivery(db, id, ref, human, now);
    forall x | x in db'.deliveries ensures Justified(db', db'.deliveries[x]) {
      InsertJustified(db, id, ref, human, now, x);
    }
    hide Justified, EpisodeOf, Exempt;
    forall a | a in db.deliveries ensures !SameAlert(db.deliveries[a], db'.deliveries[db.nextId]) {
      assert !HasDelivery(db, id, ref, EpisodeOf(db, id), PhaseOf(db.incidents.rows[id]));
    }
  }

  lemma EnqueueKeepsAlerts(db: AlertDb, id: Id, ref: DestRef, human: bool, now: Time, bytes: Payload -> nat)
    requires AlertInv(db) && Books(db) && EnqueueCurrent(db, id, ref, human, now, bytes).Ok?
    ensures AlertInv(EnqueueCurrent(db, id, ref, human, now, bytes).value)
  {
    hide AlertInv, Books, Shape, Exempt, Alerted, OutboxFull, InsertDelivery;
    BooksShape(db);
    FreshId(db);
    if !Exempt(db, id, ref) && !Alerted(db, id, ref) {
      InsertKeepsAlerts(db, id, ref, human, now);
    }
  }

  lemma {:induction false} ProcessKeepsAlerts(db: AlertDb, ref: DestRef, batch: seq<DueRow>, clock: nat -> Time, human: bool,
                                              bytes: Payload -> nat)
    requires AlertInv(db) && Books(db) && ProcessRows(db, ref, batch, clock, human, bytes).Ok?
    ensures AlertInv(ProcessRows(db, ref, batch, clock, human, bytes).value)
    decreases |batch|
  {
    if batch != [] {
      hide AlertInv, Books;
      var last := |batch| - 1;
      ProcessKeepsAlerts(db, ref, batch[..last], clock, human, bytes);
      ProcessKeepsBooks(db, ref, batch[..last], clock, human, bytes);
      var db1 := ProcessRows(db, ref, batch[..last], clock, human, bytes).value;
      EnqueueKeepsAlerts(db1, batch[last].incident, ref, human, clock(last), bytes);
      var db2 := EnqueueCurrent(db1, batch[last].incident, ref, human, clock(last), bytes).value;
      ReceiptKeepsAlerts(db2, ref, batch[last].revision);
    }
  }

  lemma ReceiptKeepsAlerts(db: AlertDb, ref: DestRef, r: int)
    requires AlertInv(db)
    ensures AlertInv(WithReceipt(db, ref, r))
  {
    var db' := WithReceipt(db, ref, r);
    forall x | x in db'.deliveries ensures Justified(db', db'.deliveries[x]) {
      var d := db.deliveries[x];
      assert Justified(db, d);
      assert forall phase :: HasDelivery(db', d.incident, d.dest, d.episode, phase) == HasDelivery(db, d.incident, d.dest, d.episode, phase);
    }
  }

  lemma TxKeepsAlerts(db: AlertDb, tx: Tx)
    requires AlertInv(db) && Books(db)
    ensures AlertInv(ExecTx(db, tx))
  {
    var db' := ExecTx(db, tx);
    hide AlertInv, Books, KeepsIdentity, Claim, Finish, Renew, CountQuery, ApplyAnswer, ProcessRows, Apply;
    match tx
    case ConfigureTx(ref, config, grant) => ConfigureKeepsAlerts(db, db');
    case IncidentTx(update, now) => IncidentKeepsAlerts(db, update, now);
    case ReconcileTx(ref, grant, limit, batch, clock, bytes) =>
      if Reconcile(db, ref, grant, limit, batch, clock, bytes).Ok? {
        ProcessKeepsAlerts(db, ref, batch, clock, grant.value.human, bytes);
      }
    case ClaimTx(ref, grant, transport, preview, now) =>
      ClaimKeepsIdentity(db, ref, grant, transport, preview, now);
      IdentityKeepsAlerts(db, db');
    case FinishTx(id, token, version, outcome, factor, now) =>
      FinishKeepsIdentity(db, id, token, version, outcome, factor, now);
      IdentityKeepsAlerts(db, db');
    case RenewTx(id, grant, expected, reason, now) =>
      RenewKeepsIdentity(db, id, grant, expected, reason, now);
      IdentityKeepsAlerts(db, db');
    case QueryTx(id, grant, expected, transport) =>
      QueryKeepsIdentity(db, id, grant, expected, transport);
      IdentityKeepsAlerts(db, db');
    case AnswerTx(id, expected, answer, checkNow, dueNow) =>
      AnswerKeepsIdentity(db, id, expected, answer, checkNow, dueNow);
      IdentityKeepsAlerts(db, db');
  }

  /**
   Over every run, repeated reports and repeated resolves included: a destination has one delivery for each phase of
   each episode of an incident, no delivery runs ahead of its incident, and each recovery has its problem.
   */
  lemma {:induction false} RunKeepsAlerts(incidents: IncidentDb, txs: seq<Tx>)
    requires Valid(incidents)
    ensures AlertInv(RunTx(EmptyOutbox(incidents), txs))
    decreases |txs|
  {
    var db := EmptyOutbox(incidents);
    if txs != [] {
      hide AlertInv, Books, ExecTx;
      var n := |txs| - 1;
      RunKeepsAlerts(incidents, txs[..n]);
      EmptyBooks(incidents);
      RunKeepsBooks(db, txs[..n]);
      TxKeepsAlerts(RunTx(db, txs[..n]), txs[n]);
    }
  }
}
