/** What a destination's minimum severity means for its alerts, with the severities named. */
module AlertSeverities {
  import opened Common
  import opened Incidents
  import opened AlertModel
  import opened AlertProtocol
  import opened AlertBudgets
  import opened AlertQuotas
  import opened AlertOutcomes
  import opened AlertCoverage
  import opened AlertEpisodes

  /** A destination with this minimum is to be alerted of an incident of this severity. */
  predicate Reaches(severity: Severity, minimum: Severity) {
    match minimum
    case Critical => severity == Critical
    case Error => severity == Critical || severity == Severity.Error
    case Warning => severity == Critical || severity == Severity.Error || severity == Warning
    case Info => true
  }

  lemma ReachesIs(severity: Severity, minimum: Severity)
    ensures SeverityRank(severity) >= SeverityRank(minimum) <==> Reaches(severity, minimum)
  {
  }

  /**
   Once a destination is drained, an unresolved Critical incident has its critical delivery whatever the minimum, an
   Error incident its problem delivery unless the minimum is Critical, and a Warning one if the minimum is Warning; and
   a resolved incident that was alerted in this episode has its recovery.
   */
  lemma DrainedByName(incidents: IncidentDb, txs: seq<Tx>, id: Id, ref: DestRef)
    requires Valid(incidents) && LegalTx(EmptyOutbox(incidents), txs)
    requires id in RunTx(EmptyOutbox(incidents), txs).incidents.rows && ref in RunTx(EmptyOutbox(incidents), txs).dests
    requires
      var db := RunTx(EmptyOutbox(incidents), txs);
      forall r | 1 <= r <= |db.incidents.ledger| :: (ref, r) in db.receipts
    ensures
      var db := RunTx(EmptyOutbox(incidents), txs);
      var row, minimum, episode := db.incidents.rows[id], db.dests[ref].config.minimum, EpisodeOf(db, id);
      && (row.lifecycle != Resolved && row.severity == Critical ==> Has(db, id, ref, episode, CriticalPhase))
      && (row.lifecycle != Resolved && row.severity == Severity.Error && minimum != Critical ==> Has(db, id, ref, episode, ProblemPhase))
      && (row.lifecycle != Resolved && row.severity == Warning && minimum != Critical && minimum != Severity.Error ==>
            Has(db, id, ref, episode, ProblemPhase))
      && (row.lifecycle == Resolved && (Has(db, id, ref, episode, ProblemPhase) || Has(db, id, ref, episode, CriticalPhase)) ==>
            Has(db, id, ref, episode, RecoveryPhase))
  {
    var db := RunTx(EmptyOutbox(incidents), txs);
    assert UnreceiptedSet(db, ref) == {};
    DrainedMeansAlerted(incidents, txs, id, ref);
    ReachesIs(db.incidents.rows[id].severity, db.dests[ref].config.minimum);
    forall phase ensures Has(db, id, ref, EpisodeOf(db, id), phase) <==> HasDelivery(db, id, ref, EpisodeOf(db, id), phase) {
      HasIs(db, id, ref, EpisodeOf(db, id), phase);
    }
    hide RunTx, LegalTx, Has, HasDelivery, EpisodeOf, Valid, UnreceiptedSet, SeverityRank;
  }

  /** And over every run, drained or not, no problem or critical alert is of anything less. */
  lemma NoneBelowMinimum(incidents: IncidentDb, txs: seq<Tx>, x: Id)
    requires Valid(incidents) && x in RunTx(EmptyOutbox(incidents), txs).deliveries
    ensures
      var db := RunTx(EmptyOutbox(incidents), txs);
      var d := db.deliveries[x];
      && d.dest in db.dests && d.config == db.dests[d.dest].config
      && (d.phase != RecoveryPhase && d.config.minimum == Critical ==> d.payload.severity == Critical && d.phase == CriticalPhase)
      && (d.phase != RecoveryPhase && d.config.minimum == Severity.Error ==>
            d.payload.severity == Critical || d.payload.severity == Severity.Error)
      && (d.phase != RecoveryPhase && d.config.minimum == Warning ==> d.payload.severity != Info)
      && (d.phase == CriticalPhase <==> d.phase != RecoveryPhase && d.payload.severity == Critical)
  {
    var db := RunTx(EmptyOutbox(incidents), txs);
    var d := db.deliveries[x];
    RunKeepsAlerts(incidents, txs);
    EmptyBooks(incidents);
    RunKeepsBooks(EmptyOutbox(incidents), txs);
    BooksShape(db);
    ShapeRow(db, x);
    JustifiedAt(db, x);
    ReachesIs(d.payload.severity, d.config.minimum);
    hide RunTx, Books, Shape, AlertInv, LocalOk, HasSibling, EpisodeOf, SeverityRank;
  }

  lemma JustifiedAt(db: AlertDb, x: Id)
    requires AlertInv(db) && x in db.deliveries
    ensures Justified(db, db.deliveries[x])
  {
  }

  /** A batch serves unresolved incidents before resolved ones, the more serious before the less, and then by revision. */
  lemma BatchInOrder(db: AlertDb, ref: DestRef, limit: nat, batch: seq<DueRow>, i: nat, j: nat)
    requires IsBatch(db, ref, limit, batch) && i < j < |batch|
    requires batch[i].incident in db.incidents.rows && batch[j].incident in db.incidents.rows
    ensures
      var a, b := db.incidents.rows[batch[i].incident], db.incidents.rows[batch[j].incident];
      && (a.lifecycle == Resolved ==> b.lifecycle == Resolved)
      && ((a.lifecycle == Resolved <==> b.lifecycle == Resolved) ==> !Milder(a.severity, b.severity))
      && ((a.lifecycle == Resolved <==> b.lifecycle == Resolved) && a.severity == b.severity ==> batch[i].revision < batch[j].revision)
  {
    var all: seq<DueRow> :| IsListing(RowOrder(db.incidents.rows), all, DueRows(db, ref))
                            && batch == if |all| <= limit then all else all[..limit];
    assert RowOrder(db.incidents.rows)(all[i], all[j]);
    RankIsSeverity(db.incidents.rows[batch[i].incident].severity, db.incidents.rows[batch[j].incident].severity);
  }

  /** The rows of a batch: incidents of the table with a transition not yet processed, each at its lowest such revision. */
  lemma BatchRow(db: AlertDb, ref: DestRef, limit: nat, batch: seq<DueRow>, row: DueRow)
    requires IsBatch(db, ref, limit, batch) && row in batch
    ensures row.incident in db.incidents.rows && 1 <= row.revision <= |db.incidents.ledger| && (ref, row.revision) !in db.receipts
    ensures db.incidents.ledger[row.revision - 1].incident == row.incident
    ensures forall r | 1 <= r < row.revision :: db.incidents.ledger[r - 1].incident == row.incident ==> (ref, r) in db.receipts
  {
    var all: seq<DueRow> :| IsListing(RowOrder(db.incidents.rows), all, DueRows(db, ref))
                            && batch == if |all| <= limit then all else all[..limit];
    assert row in all && row in DueRows(db, ref);
    assert forall r | r in UnreceiptedSet(db, ref) && At(db.incidents.ledger, r).incident == row.incident :: row.revision <= r;
    forall r | 1 <= r < row.revision ensures db.incidents.ledger[r - 1].incident == row.incident ==> (ref, r) in db.receipts {
      assert At(db.incidents.ledger, r) == db.incidents.ledger[r - 1];
    }
  }

  /** In every reachable state an incident has a transition not yet processed, or it is not one to be alerted any more. */
  lemma NoneForgotten(incidents: IncidentDb, txs: seq<Tx>, id: Id, ref: DestRef)
    requires Valid(incidents) && LegalTx(EmptyOutbox(incidents), txs)
    requires id in RunTx(EmptyOutbox(incidents), txs).incidents.rows && ref in RunTx(EmptyOutbox(incidents), txs).dests
    requires Wanted(RunTx(EmptyOutbox(incidents), txs), id, ref)
    ensures
      var db := RunTx(EmptyOutbox(incidents), txs);
      exists r :: 1 <= r <= |db.incidents.ledger| && (ref, r) !in db.receipts && At(db.incidents.ledger, r).incident == id
  {
    var db := RunTx(EmptyOutbox(incidents), txs);
    NoLostAlert(incidents, txs, id, ref);
    WantedIs(db, id, ref);
    hide RunTx, LegalTx, Valid, Wanted, Exempt, Alerted;
    var r :| r in UnreceiptedSet(db, ref) && At(db.incidents.ledger, r).incident == id;
  }

  /** The capacities, as counts over the tables, after every run. */
  lemma CapacitiesHold(incidents: IncidentDb, txs: seq<Tx>, ref: DestRef)
    requires LegalTx(EmptyOutbox(incidents), txs)
    ensures
      var db := RunTx(EmptyOutbox(incidents), txs);
      && |db.dests| <= 32 && |db.receipts| <= 200_000 && |db.deliveries| <= 4096
      && |set d | d in db.deliveries && db.deliveries[d].state != Accepted| <= 1024
      && |set d | d in db.deliveries && db.deliveries[d].state != Accepted && db.deliveries[d].dest == ref| <= 128
      && |set d | d in db.deliveries && db.deliveries[d].state == InFlight| <= 16
      && |set d | d in db.deliveries && db.deliveries[d].state == InFlight && db.deliveries[d].dest == ref| <= 2
  {
    var db := RunTx(EmptyOutbox(incidents), txs);
    RunKeepsLimits(incidents, txs);
    hide RunTx, LegalTx;
    assert (set d | d in db.deliveries && db.deliveries[d].state != Accepted) == Unaccepted(db);
    assert (set d | d in db.deliveries && db.deliveries[d].state != Accepted && db.deliveries[d].dest == ref) == UnacceptedFor(db, ref);
    assert (set d | d in db.deliveries && db.deliveries[d].state == InFlight) == InFlightAll(db);
    assert (set d | d in db.deliveries && db.deliveries[d].state == InFlight && db.deliveries[d].dest == ref) == InFlightFor(db, ref);
  }
}
