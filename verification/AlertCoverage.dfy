/**
 No alert is lost. Whatever is reported, dispatched, renewed or refused in between, every incident either still has
 a transition that the destination has no receipt for, or its present state is alerted or asks for no alert.
 */
module AlertCoverage {
  import opened Common
  import opened Incidents
  import opened AlertModel
  import opened AlertProtocol
  import opened AlertBudgets

  /** The incident has a transition that the destination has not processed. */
  ghost predicate Waiting(db: AlertDb, id: Id, ref: DestRef) {
    exists r :: r in UnreceiptedSet(db, ref) && At(db.incidents.ledger, r).incident == id
  }

  ghost predicate Covered(db: AlertDb, id: Id, ref: DestRef)
    requires id in db.incidents.rows && ref in db.dests
  {
    Waiting(db, id, ref) || Exempt(db, id, ref) || Alerted(db, id, ref)
  }

  ghost predicate ReceiptsKnown(db: AlertDb) {
    forall p | p in db.receipts :: p.0 in db.dests && 1 <= p.1 <= |db.incidents.ledger|
  }

  ghost predicate CoverInv(db: AlertDb) {
    && Valid(db.incidents) && ReceiptsKnown(db)
    && forall id, ref | id in db.incidents.rows && ref in db.dests :: Covered(db, id, ref)
  }

  // ---------------------------------------------------------------- transactions that only move deliveries along

  ghost predicate KeepsIdentity(db: AlertDb, db': AlertDb) {
    && db'.incidents == db.incidents && db'.dests == db.dests && db'.receipts == db.receipts
    && db'.deliveries.Keys == db.deliveries.Keys
    && forall d | d in db.deliveries :: SameIdentity(db.deliveries[d], db'.deliveries[d])
  }

  lemma HasDeliverySame(db: AlertDb, db': AlertDb, id: Id, ref: DestRef, episode: nat, phase: Phase)
    requires KeepsIdentity(db, db')
    ensures HasDelivery(db', id, ref, episode, phase) <==> HasDelivery(db, id, ref, episode, phase)
  {
    if HasDelivery(db, id, ref, episode, phase) {
      var d :| d in db.deliveries && db.deliveries[d].incident == id && db.deliveries[d].dest == ref
               && db.deliveries[d].episode == episode && db.deliveries[d].phase == phase;
      assert SameIdentity(db.deliveries[d], db'.deliveries[d]);
    }
    if HasDelivery(db', id, ref, episode, phase) {
      var d :| d in db'.deliveries && db'.deliveries[d].incident == id && db'.deliveries[d].dest == ref
               && db'.deliveries[d].episode == episode && db'.deliveries[d].phase == phase;
      assert SameIdentity(db.deliveries[d], db'.deliveries[d]);
    }
  }

  lemma IdentityKeepsCover(db: AlertDb, db': AlertDb)
    requires CoverInv(db) && KeepsIdentity(db, db')
    ensures CoverInv(db')
  {
    assert forall ref :: UnreceiptedSet(db', ref) == UnreceiptedSet(db, ref);
    forall id, ref | id in db'.incidents.rows && ref in db'.dests ensures Covered(db', id, ref) {
      assert Covered(db, id, ref);
      assert Waiting(db, id, ref) ==> Waiting(db', id, ref);
      var episode := EpisodeOf(db, id);
      HasDeliverySame(db, db', id, ref, episode, PhaseOf(db.incidents.rows[id]));
      HasDeliverySame(db, db', id, ref, episode, ProblemPhase);
      HasDeliverySame(db, db', id, ref, episode, CriticalPhase);
    }
  }

  lemma IdentityTransitive(a: AlertDb, b: AlertDb, c: AlertDb)
    requires KeepsIdentity(a, b) && KeepsIdentity(b, c)
    ensures KeepsIdentity(a, c)
  {
  }

  lemma SweepKeepsIdentity(db: AlertDb, now: Time)
    ensures KeepsIdentity(db, Sweep(db, now))
  {
    SweepIds(db, now);
  }

  lemma TakeClaimKeepsIdentity(db: AlertDb, id: Id, now: Time)
    requires id in db.deliveries && db.deliveries[id].session in db.budgets
    ensures KeepsIdentity(db, TakeClaim(db, id, now))
  {
  }

  lemma ExhaustKeepsIdentity(db: AlertDb, id: Id)
    requires id in db.deliveries
    ensures KeepsIdentity(db, ExhaustInPlace(db, id))
  {
  }

  lemma ClaimKeepsIdentity(db: AlertDb, ref: DestRef, grant: Option<Grant>, transport: string, preview: Option<Id>, now: Time)
    ensures KeepsIdentity(db, Claim(db, ref, grant, transport, preview, now).0)
  {
    ClaimCases(db, ref, grant, transport, preview, now);
    var (after, result) := Claim(db, ref, grant, transport, preview, now);
    DidCases(db, now, after, result);
    assert KeepsIdentity(db, db);
    hide *;
    var db1 := Sweep(db, now);
    SweepKeepsIdentity(db, now);
    if result.FoundExhausted? {
      ExhaustKeepsIdentity(db1, result.id);
      IdentityTransitive(db, db1, after);
    } else if result.Claimed? {
      TakeClaimKeepsIdentity(db1, result.id, now);
      IdentityTransitive(db, db1, after);
    }
  }

  lemma FinishKeepsIdentity(db: AlertDb, id: Id, token: Id, version: nat, outcome: Outcome, factor: real, now: Time)
    ensures KeepsIdentity(db, Kept(db, Finish(db, id, token, version, outcome, factor, now)))
  {
  }

  lemma RenewKeepsIdentity(db: AlertDb, id: Id, grant: Option<Grant>, expected: nat, reason: string, now: Time)
    ensures KeepsIdentity(db, Kept(db, Renew(db, id, grant, expected, reason, now)))
  {
  }

  lemma QueryKeepsIdentity(db: AlertDb, id: Id, grant: Option<Grant>, expected: nat, transport: string)
    ensures KeepsIdentity(db, Kept(db, CountQuery(db, id, grant, expected, transport)))
  {
  }

  lemma AnswerKeepsIdentity(db: AlertDb, id: Id, expected: nat, answer: Option<Outcome>, checkNow: Time, dueNow: Time)
    ensures KeepsIdentity(db, Kept(db, ApplyAnswer(db, id, expected, answer, checkNow, dueNow)))
  {
  }

  // ---------------------------------------------------------------- an incident write

  lemma HistoryAppend(ledger: seq<Entry>, e: Entry, id: Id)
    ensures History(ledger + [e], id) == History(ledger, id) + (if e.incident == id then [e.body.lifecycle] else [])
  {
    assert (ledger + [e])[..|ledger|] == ledger;
  }

  /** Each of the three incident writes appends one entry for one incident, or does nothing. */
  lemma ApplyWrites(db: IncidentDb, u: Update, now: Time)
    requires Valid(db)
    ensures
      var db' := Apply(db, u, now);
      || db' == db
      || (&& |db'.ledger| == |db.ledger| + 1 && db'.ledger[..|db.ledger|] == db.ledger
          && var e := db'.ledger[|db.ledger|];
          db'.rows == db.rows[e.incident := e.body])
  {
  }

  lemma WriteKeepsCover(db: AlertDb, db': AlertDb)
    requires CoverInv(db) && Valid(db'.incidents) && db' == db.(incidents := db'.incidents)
    requires |db'.incidents.ledger| == |db.incidents.ledger| + 1
    requires db'.incidents.ledger[..|db.incidents.ledger|] == db.incidents.ledger
    requires var e := db'.incidents.ledger[|db.incidents.ledger|]; db'.incidents.rows == db.incidents.rows[e.incident := e.body]
    ensures CoverInv(db')
  {
    hide Valid, HasDelivery;
    var n := |db.incidents.ledger|;
    var e := db'.incidents.ledger[n];
    assert db'.incidents.ledger == db.incidents.ledger + [e];
    forall id, ref | id in db'.incidents.rows && ref in db'.dests ensures Covered(db', id, ref) {
      if id == e.incident {
        assert n + 1 in UnreceiptedSet(db', ref) && At(db'.incidents.ledger, n + 1).incident == id;
      } else {
        assert Covered(db, id, ref);
        OthersStayCovered(db, db', e, id, ref);
      }
    }
  }

  lemma OthersStayCovered(db: AlertDb, db': AlertDb, e: Entry, id: Id, ref: DestRef)
    requires db' == db.(incidents := db'.incidents) && db'.incidents.ledger == db.incidents.ledger + [e]
    requires id != e.incident && id in db.incidents.rows && id in db'.incidents.rows
    requires db'.incidents.rows[id] == db.incidents.rows[id]
    requires ref in db.dests && Covered(db, id, ref)
    ensures Covered(db', id, ref)
  {
    HistoryAppend(db.incidents.ledger, e, id);
    if Waiting(db, id, ref) {
      var r :| r in UnreceiptedSet(db, ref) && At(db.incidents.ledger, r).incident == id;
      assert r in UnreceiptedSet(db', ref) && At(db'.incidents.ledger, r).incident == id;
    }
    assert History(db'.incidents.ledger, id) == History(db.incidents.ledger, id);
    assert EpisodeOf(db', id) == EpisodeOf(db, id);
    hide EpisodeOf;
    assert Exempt(db', id, ref) == Exempt(db, id, ref) && Alerted(db', id, ref) == Alerted(db, id, ref);
  }

  lemma IncidentKeepsCover(db: AlertDb, u: Update, now: Time)
    requires CoverInv(db)
    ensures CoverInv(db.(incidents := Apply(db.incidents, u, now)))
  {
    ApplyKeepsValid(db.incidents, u, now);
    ApplyWrites(db.incidents, u, now);
    hide Apply, CoverInv, Valid;
    InvValid(db);
    if Apply(db.incidents, u, now) == db.incidents {
      assert db.(incidents := Apply(db.incidents, u, now)) == db;
    } else {
      WriteKeepsCover(db, db.(incidents := Apply(db.incidents, u, now)));
    }
  }

  lemma InvValid(db: AlertDb)
    requires CoverInv(db)
    ensures Valid(db.incidents)
  {
  }

  // ---------------------------------------------------------------- a new destination

  lemma ConfigureKeepsCover(db: AlertDb, ref: DestRef, config: Config, grant: Option<Grant>)
    requires CoverInv(db)
    ensures CoverInv(Kept(db, Configure(db, ref, config, grant)))
  {
    var db' := Kept(db, Configure(db, ref, config, grant));
    ConfigureOnlyDests(db, ref, config, grant);
    hide Configure, Kept;
    forall id, x | id in db'.incidents.rows && x in db'.dests ensures Covered(db', id, x) {
      if x in db.dests {
        assert Covered(db, id, x);
        OldDestinationCovered(db, db', id, x);
      } else {
        ReplayTouches(db.incidents.ledger, id);
        var r :| 0 < r <= |db.incidents.ledger| && At(db.incidents.ledger, r).incident == id;
        assert (x, r) !in db.receipts;
        assert r in UnreceiptedSet(db', x);
      }
    }
  }

  lemma ConfigureOnlyDests(db: AlertDb, ref: DestRef, config: Config, grant: Option<Grant>)
    ensures
      var db' := Kept(db, Configure(db, ref, config, grant));
      && db' == db.(dests := db'.dests) && forall x | x in db.dests :: x in db'.dests && db'.dests[x] == db.dests[x]
  {
    hide Refusal;
  }

  lemma OldDestinationCovered(db: AlertDb, db': AlertDb, id: Id, x: DestRef)
    requires db' == db.(dests := db'.dests) && id in db.incidents.rows
    requires x in db.dests && x in db'.dests && db'.dests[x] == db.dests[x] && Covered(db, id, x)
    ensures Covered(db', id, x)
  {
    assert UnreceiptedSet(db', x) == UnreceiptedSet(db, x);
    assert Waiting(db, id, x) ==> Waiting(db', id, x);
    forall episode, phase ensures HasDelivery(db', id, x, episode, phase) == HasDelivery(db, id, x, episode, phase) {
    }
  }

  // ---------------------------------------------------------------- reconciliation

  lemma HasDeliveryGrows(db: AlertDb, db': AlertDb, id: Id, ref: DestRef, episode: nat, phase: Phase)
    requires HasDelivery(db, id, ref, episode, phase)
    requires forall d | d in db.deliveries :: d in db'.deliveries && db'.deliveries[d] == db.deliveries[d]
    ensures HasDelivery(db', id, ref, episode, phase)
  {
    var d :| d in db.deliveries && db.deliveries[d].incident == id && db.deliveries[d].dest == ref
             && db.deliveries[d].episode == episode && db.deliveries[d].phase == phase;
    assert db'.deliveries[d] == db.deliveries[d];
  }

  /** What an enqueue leaves behind for the incident it was called for, and for every other one. */
  lemma InsertCovers(db: AlertDb, id: Id, ref: DestRef, human: bool, now: Time, i: Id, x: DestRef)
    requires id in db.incidents.rows && ref in db.dests && db.nextId !in db.deliveries
    requires i in db.incidents.rows && x in db.dests
    ensures
      var db' := InsertDelivery(db, id, ref, human, now);
      && Alerted(db', id, ref)
      && (Covered(db, i, x) ==> Covered(db', i, x))
      && (Exempt(db, i, x) || Alerted(db, i, x) ==> Exempt(db', i, x) || Alerted(db', i, x))
  {
    var db' := InsertDelivery(db, id, ref, human, now);
    assert db'.deliveries[db.nextId].incident == id;
    assert EpisodeOf(db', id) == EpisodeOf(db, id) && EpisodeOf(db', i) == EpisodeOf(db, i);
    assert forall d | d in db.deliveries :: d in db'.deliveries && db'.deliveries[d] == db.deliveries[d];
    assert UnreceiptedSet(db', x) == UnreceiptedSet(db, x);
    assert Waiting(db, i, x) ==> Waiting(db', i, x);
    var episode := EpisodeOf(db, i);
    if Alerted(db, i, x) { HasDeliveryGrows(db, db', i, x, episode, PhaseOf(db.incidents.rows[i])); }
    if Exempt(db, i, x) && db.incidents.rows[i].lifecycle == Resolved {
      NoNewSibling(db, id, ref, human, now, i, x);
    }
  }

  /** A resolved incident gains no problem or critical delivery. */
  lemma NoNewSibling(db: AlertDb, id: Id, ref: DestRef, human: bool, now: Time, i: Id, x: DestRef)
    requires id in db.incidents.rows && ref in db.dests && db.nextId !in db.deliveries
    requires i in db.incidents.rows && db.incidents.rows[i].lifecycle == Resolved
    requires !HasSibling(db, i, x, EpisodeOf(db, i))
    ensures !HasSibling(InsertDelivery(db, id, ref, human, now), i, x, EpisodeOf(db, i))
  {
    var db' := InsertDelivery(db, id, ref, human, now);
    var episode := EpisodeOf(db, i);
    hide EpisodeOf;
    forall phase | phase == ProblemPhase || phase == CriticalPhase ensures !HasDelivery(db', i, x, episode, phase) {
      assert !HasDelivery(db, i, x, episode, phase);
      forall d | d in db'.deliveries && db'.deliveries[d].incident == i && db'.deliveries[d].phase == phase
        ensures d in db.deliveries && db'.deliveries[d] == db.deliveries[d]
      {
      }
    }
  }

  lemma EnqueueCovers(db: AlertDb, id: Id, ref: DestRef, human: bool, now: Time, bytes: Payload -> nat, i: Id, x: DestRef)
    requires EnqueueCurrent(db, id, ref, human, now, bytes).Ok? && db.nextId !in db.deliveries
    requires i in db.incidents.rows && x in db.dests
    ensures
      var db' := EnqueueCurrent(db, id, ref, human, now, bytes).value;
      && db'.incidents == db.incidents && db'.dests == db.dests && db'.receipts == db.receipts
      && id in db.incidents.rows && ref in db.dests
      && (Exempt(db', id, ref) || Alerted(db', id, ref))
      && (Covered(db, i, x) ==> Covered(db', i, x))
  {
    hide HasDelivery, EpisodeOf, OutboxFull, Waiting;
    if !(Exempt(db, id, ref) || Alerted(db, id, ref)) {
      InsertCovers(db, id, ref, human, now, i, x);
    }
  }

  lemma ReceiptKeepsCover(db: AlertDb, ref: DestRef, row: DueRow)
    requires CoverInv(db) && ref in db.dests && 1 <= row.revision <= |db.incidents.ledger|
    requires At(db.incidents.ledger, row.revision).incident == row.incident && row.incident in db.incidents.rows
    requires Exempt(db, row.incident, ref) || Alerted(db, row.incident, ref)
    ensures CoverInv(WithReceipt(db, ref, row.revision))
  {
    var db' := WithReceipt(db, ref, row.revision);
    forall id, x | id in db'.incidents.rows && x in db'.dests ensures Covered(db', id, x) {
      assert Covered(db, id, x);
      assert EpisodeOf(db', id) == EpisodeOf(db, id);
      assert forall episode, phase :: HasDelivery(db', id, x, episode, phase) == HasDelivery(db, id, x, episode, phase);
      if Waiting(db, id, x) && !(id == row.incident && x == ref) {
        var r :| r in UnreceiptedSet(db, x) && At(db.incidents.ledger, r).incident == id;
        assert r in UnreceiptedSet(db', x);
        assert Waiting(db', id, x);
      }
    }
  }

  /** The rows of a batch name ledger entries of the incidents they carry. */
  ghost predicate RowsOf(db: AlertDb, batch: seq<DueRow>) {
    forall k | 0 <= k < |batch| ::
      && 1 <= batch[k].revision <= |db.incidents.ledger|
      && At(db.incidents.ledger, batch[k].revision).incident == batch[k].incident
  }

  function Revisions(batch: seq<DueRow>): set<int> {
    set k | 0 <= k < |batch| :: batch[k].revision
  }

  lemma EnqueueKeepsCover(db: AlertDb, id: Id, ref: DestRef, human: bool, now: Time, bytes: Payload -> nat)
    requires CoverInv(db) && Books(db) && EnqueueCurrent(db, id, ref, human, now, bytes).Ok?
    ensures CoverInv(EnqueueCurrent(db, id, ref, human, now, bytes).value)
    ensures
      var db' := EnqueueCurrent(db, id, ref, human, now, bytes).value;
      && db'.incidents == db.incidents && db'.dests == db.dests && db'.receipts == db.receipts
      && id in db.incidents.rows && ref in db.dests
      && (Exempt(db', id, ref) || Alerted(db', id, ref))
  {
    var db' := EnqueueCurrent(db, id, ref, human, now, bytes).value;
    BooksShape(db);
    FreshId(db);
    assert id in db.incidents.rows && ref in db.dests;
    hide Books, Shape, EnqueueCurrent, Covered;
    EnqueueCovers(db, id, ref, human, now, bytes, id, ref);
    forall i, x | i in db'.incidents.rows && x in db'.dests ensures Covered(db', i, x) {
      EnqueueCovers(db, id, ref, human, now, bytes, i, x);
    }
  }

  lemma RowsShorter(db: AlertDb, batch: seq<DueRow>)
    requires batch != [] && RowsOf(db, batch)
    ensures RowsOf(db, batch[..|batch| - 1])
    ensures
      var last := batch[|batch| - 1];
      1 <= last.revision <= |db.incidents.ledger| && At(db.incidents.ledger, last.revision).incident == last.incident
  {
  }

  lemma {:induction false} ProcessKeepsCover(db: AlertDb, ref: DestRef, batch: seq<DueRow>, clock: nat -> Time, human: bool,
                                             bytes: Payload -> nat)
    requires CoverInv(db) && Books(db) && RowsOf(db, batch) && ProcessRows(db, ref, batch, clock, human, bytes).Ok?
    ensures
      var db' := ProcessRows(db, ref, batch, clock, human, bytes).value;
      && CoverInv(db') && db'.incidents == db.incidents && db'.dests == db.dests
      && db'.receipts == db.receipts + (set r | r in Revisions(batch) :: (ref, r))
    decreases |batch|
  {
    if batch == [] {
      assert (set r | r in Revisions(batch) :: (ref, r)) == {};
    } else {
      var last := |batch| - 1;
      var shorter := batch[..last];
      hide CoverInv, Books, RowsOf, EnqueueCurrent, Revisions;
      RowsShorter(db, batch);
      RevisionsAppend(batch);
      ProcessKeepsCover(db, ref, shorter, clock, human, bytes);
      ProcessKeepsBooks(db, ref, shorter, clock, human, bytes);
      var db1 := ProcessRows(db, ref, shorter, clock, human, bytes).value;
      EnqueueKeepsCover(db1, batch[last].incident, ref, human, clock(last), bytes);
      var db2 := EnqueueCurrent(db1, batch[last].incident, ref, human, clock(last), bytes).value;
      ReceiptKeepsCover(db2, ref, batch[last]);
      OneMoreReceipt(db.receipts, ref, Revisions(shorter), batch[last].revision);
    }
  }

  lemma OneMoreReceipt(receipts: set<(DestRef, int)>, ref: DestRef, done: set<int>, r: int)
    ensures receipts + (set q | q in done :: (ref, q)) + {(ref, r)} == receipts + (set q | q in done + {r} :: (ref, q))
  {
  }

  lemma RevisionsAppend(batch: seq<DueRow>)
    requires batch != []
    ensures Revisions(batch) == Revisions(batch[..|batch| - 1]) + {batch[|batch| - 1].revision}
  {
    var shorter := batch[..|batch| - 1];
    forall r | r in Revisions(batch) ensures r in Revisions(shorter) + {batch[|batch| - 1].revision} {
      var k :| 0 <= k < |batch| && batch[k].revision == r;
      if k < |shorter| { assert shorter[k].revision == r; }
    }
    forall r | r in Revisions(shorter) ensures r in Revisions(batch) {
      var k :| 0 <= k < |shorter| && shorter[k].revision == r;
      assert batch[k].revision == r;
    }
  }

  // ---------------------------------------------------------------- the batch

  lemma BatchIsDue(db: AlertDb, ref: DestRef, limit: nat, batch: seq<DueRow>)
    requires IsBatch(db, ref, limit, batch)
    ensures forall k | 0 <= k < |batch| :: batch[k] in DueRows(db, ref)
    ensures RowsOf(db, batch) && Revisions(batch) <= UnreceiptedSet(db, ref)
  {
    var all: seq<DueRow> :| IsListing(RowOrder(db.incidents.rows), all, DueRows(db, ref))
                            && batch == if |all| <= limit then all else all[..limit];
    forall k | 0 <= k < |batch| ensures batch[k] in DueRows(db, ref) {
      assert batch[k] == all[k] && all[k] in all;
    }
  }

  /** Some incident with an unprocessed transition heads the queue, as long as there is one. */
  lemma DueRowExists(db: AlertDb, ref: DestRef)
    requires Valid(db.incidents) && UnreceiptedSet(db, ref) != {}
    ensures DueRows(db, ref) != {}
  {
    var r0 :| r0 in UnreceiptedSet(db, ref);
    var r := LowestOf(db, ref, r0);
    assert At(db.incidents.ledger, r).incident in db.incidents.rows by {
      assert db.incidents.ledger[r - 1].incident in db.incidents.rows;
    }
    assert DueRow(r, At(db.incidents.ledger, r).incident) in DueRows(db, ref);
  }

  lemma {:induction false} LowestOf(db: AlertDb, ref: DestRef, r: int) returns (low: int)
    requires r in UnreceiptedSet(db, ref)
    ensures low in UnreceiptedSet(db, ref)
    ensures forall q | q in UnreceiptedSet(db, ref) && At(db.incidents.ledger, q).incident == At(db.incidents.ledger, low).incident :: low <= q
    decreases r
  {
    if q :| q in UnreceiptedSet(db, ref) && At(db.incidents.ledger, q).incident == At(db.incidents.ledger, r).incident && q < r {
      low := LowestOf(db, ref, q);
    } else {
      low := r;
    }
  }

  lemma BatchNonEmpty(db: AlertDb, ref: DestRef, limit: nat, batch: seq<DueRow>)
    requires IsBatch(db, ref, limit, batch) && limit >= 1 && DueRows(db, ref) != {}
    ensures batch != []
  {
    var all: seq<DueRow> :| IsListing(RowOrder(db.incidents.rows), all, DueRows(db, ref))
                            && batch == if |all| <= limit then all else all[..limit];
    var row :| row in DueRows(db, ref);
    assert row in all;
  }

  lemma ReceiptsShrink(db: AlertDb, db': AlertDb, ref: DestRef, done: set<int>)
    requires db'.incidents == db.incidents && db'.receipts == db.receipts + (set r | r in done :: (ref, r))
    ensures UnreceiptedSet(db', ref) == UnreceiptedSet(db, ref) - done
    ensures forall x | x != ref :: UnreceiptedSet(db', x) == UnreceiptedSet(db, x)
  {
  }

  /**
   A reconciliation that commits processes exactly the rows it selected: those revisions, all of them unprocessed
   before, are receipted and no others, and while anything is unprocessed at least one is. One that fails, at the
   receipt capacity, the outbox capacity or an oversized payload in the middle of its loop, changes nothing.
   */
  lemma ReconcileProgress(db: AlertDb, ref: DestRef, grant: Option<Grant>, limit: int, batch: seq<DueRow>,
                          clock: nat -> Time, bytes: Payload -> nat)
    requires CoverInv(db) && Books(db) && Admissible(db, ReconcileTx(ref, grant, limit, batch, clock, bytes))
    ensures
      var r := Reconcile(db, ref, grant, limit, batch, clock, bytes);
      var db' := ExecTx(db, ReconcileTx(ref, grant, limit, batch, clock, bytes));
      && (r.Err? ==> db' == db)
      && (r.Ok? ==>
            && UnreceiptedSet(db', ref) == UnreceiptedSet(db, ref) - Revisions(batch)
            && Revisions(batch) <= UnreceiptedSet(db, ref)
            && (UnreceiptedSet(db, ref) != {} ==> UnreceiptedSet(db', ref) < UnreceiptedSet(db, ref))
            && (forall x | x != ref :: UnreceiptedSet(db', x) == UnreceiptedSet(db, x)))
  {
    var r := Reconcile(db, ref, grant, limit, batch, clock, bytes);
    var db' := ExecTx(db, ReconcileTx(ref, grant, limit, batch, clock, bytes));
    InvValid(db);
    hide CoverInv, Books, IsBatch, Valid, RowsOf, DueRows, UnreceiptedSet, Revisions, ProcessRows, Refusal;
    if r.Ok? {
      BatchIsDue(db, ref, limit, batch);
      ProcessKeepsCover(db, ref, batch, clock, grant.value.human, bytes);
      ReceiptsShrink(db, db', ref, Revisions(batch));
      if UnreceiptedSet(db, ref) != {} {
        DueRowExists(db, ref);
        BatchNonEmpty(db, ref, limit, batch);
        FirstRevision(batch);
      }
    }
  }

  lemma FirstRevision(batch: seq<DueRow>)
    requires batch != []
    ensures batch[0].revision in Revisions(batch)
  {
  }

  // ---------------------------------------------------------------- every run

  lemma TxKeepsCover(db: AlertDb, tx: Tx)
    requires CoverInv(db) && Books(db) && Admissible(db, tx)
    ensures CoverInv(ExecTx(db, tx))
  {
    var db' := ExecTx(db, tx);
    hide CoverInv, Books, KeepsIdentity, Claim, Finish, Renew, CountQuery, ApplyAnswer, ProcessRows, Configure, Apply, IsBatch, RowsOf;
    match tx
    case ConfigureTx(ref, config, grant) => ConfigureKeepsCover(db, ref, config, grant);
    case IncidentTx(update, now) => IncidentKeepsCover(db, update, now);
    case ReconcileTx(ref, grant, limit, batch, clock, bytes) =>
      if Reconcile(db, ref, grant, limit, batch, clock, bytes).Ok? {
        BatchIsDue(db, ref, limit, batch);
        ProcessKeepsCover(db, ref, batch, clock, grant.value.human, bytes);
      }
    case ClaimTx(ref, grant, transport, preview, now) =>
      ClaimKeepsIdentity(db, ref, grant, transport, preview, now);
      IdentityKeepsCover(db, db');
    case FinishTx(id, token, version, outcome, factor, now) =>
      FinishKeepsIdentity(db, id, token, version, outcome, factor, now);
      IdentityKeepsCover(db, db');
    case RenewTx(id, grant, expected, reason, now) =>
      RenewKeepsIdentity(db, id, grant, expected, reason, now);
      IdentityKeepsCover(db, db');
    case QueryTx(id, grant, expected, transport) =>
      QueryKeepsIdentity(db, id, grant, expected, transport);
      IdentityKeepsCover(db, db');
    case AnswerTx(id, expected, answer, checkNow, dueNow) =>
      AnswerKeepsIdentity(db, id, expected, answer, checkNow, dueNow);
      IdentityKeepsCover(db, db');
  }

  lemma {:induction false} RunKeepsCover(incidents: IncidentDb, txs: seq<Tx>)
    requires Valid(incidents) && LegalTx(EmptyOutbox(incidents), txs)
    ensures CoverInv(RunTx(EmptyOutbox(incidents), txs)) && Books(RunTx(EmptyOutbox(incidents), txs))
    decreases |txs|
  {
    var db := EmptyOutbox(incidents);
    EmptyBooks(incidents);
    RunKeepsBooks(db, txs);
    if txs != [] {
      hide CoverInv, Books, Admissible, ExecTx;
      var n := |txs| - 1;
      RunKeepsCover(incidents, txs[..n]);
      TxKeepsCover(RunTx(db, txs[..n]), txs[n]);
    }
  }

  /** In every reachable state, an incident with nothing left to process is alerted, or asks for no alert. */
  lemma NoLostAlert(incidents: IncidentDb, txs: seq<Tx>, id: Id, ref: DestRef)
    requires Valid(incidents) && LegalTx(EmptyOutbox(incidents), txs)
    requires id in RunTx(EmptyOutbox(incidents), txs).incidents.rows && ref in RunTx(EmptyOutbox(incidents), txs).dests
    ensures Covered(RunTx(EmptyOutbox(incidents), txs), id, ref)
  {
    RunKeepsCover(incidents, txs);
  }

  /** Once drained, every unresolved incident at or above the minimum has a delivery for its present episode and phase. */
  lemma DrainedMeansAlerted(incidents: IncidentDb, txs: seq<Tx>, id: Id, ref: DestRef)
    requires Valid(incidents) && LegalTx(EmptyOutbox(incidents), txs)
    requires id in RunTx(EmptyOutbox(incidents), txs).incidents.rows && ref in RunTx(EmptyOutbox(incidents), txs).dests
    requires UnreceiptedSet(RunTx(EmptyOutbox(incidents), txs), ref) == {}
    ensures
      var db := RunTx(EmptyOutbox(incidents), txs);
      var row := db.incidents.rows[id];
      && (row.lifecycle != Resolved && SeverityRank(row.severity) >= SeverityRank(db.dests[ref].config.minimum) ==>
            HasDelivery(db, id, ref, EpisodeOf(db, id), if row.severity == Critical then CriticalPhase else ProblemPhase))
      && (row.lifecycle == Resolved && HasSibling(db, id, ref, EpisodeOf(db, id)) ==>
            HasDelivery(db, id, ref, EpisodeOf(db, id), RecoveryPhase))
  {
    RunKeepsCover(incidents, txs);
    var db := RunTx(EmptyOutbox(incidents), txs);
    hide RunTx, LegalTx, Books, HasDelivery, EpisodeOf, Valid;
    assert Covered(db, id, ref);
  }

  // ---------------------------------------------------------------- priority

  predicate IsCritical(db: AlertDb, row: DueRow) {
    row.incident in db.incidents.rows && db.incidents.rows[row.incident].lifecycle != Resolved
    && db.incidents.rows[row.incident].severity == Critical
  }

  lemma {:induction false} PrefixFits(q: seq<DueRow>, s: set<DueRow>)
    requires forall i | 0 <= i < |q| :: q[i] in s
    requires forall i, j | 0 <= i < j < |q| :: q[i] != q[j]
    ensures |q| <= |s|
  {
    if q != [] {
      PrefixFits(q[1..], s - {q[0]});
    }
  }

  /** Every row before a critical one is critical. */
  lemma CriticalsLead(db: AlertDb, all: seq<DueRow>, k: nat, criticals: set<DueRow>, ref: DestRef)
    requires IsListing(RowOrder(db.incidents.rows), all, DueRows(db, ref)) && k < |all| && IsCritical(db, all[k])
    requires criticals == set x | x in DueRows(db, ref) && IsCritical(db, x)
    ensures forall i | 0 <= i <= k :: all[i] in criticals
    ensures forall i, j | 0 <= i < j <= k :: all[i] != all[j]
  {
    forall i | 0 <= i <= k ensures all[i] in criticals {
      assert all[i] in all && all[i] in DueRows(db, ref);
      hide DueRows;
      assert i < k ==> RowOrder(db.incidents.rows)(all[i], all[k]);
    }
    hide DueRows;
    forall i, j | 0 <= i < j <= k ensures all[i] != all[j] {
      assert RowOrder(db.incidents.rows)(all[i], all[j]);
    }
  }

  lemma CriticalInPrefix(db: AlertDb, ref: DestRef, limit: nat, all: seq<DueRow>, k: nat, criticals: set<DueRow>)
    requires IsListing(RowOrder(db.incidents.rows), all, DueRows(db, ref)) && k < |all| && IsCritical(db, all[k])
    requires criticals == (set x | x in DueRows(db, ref) && IsCritical(db, x)) && |criticals| <= limit
    ensures k < limit
  {
    CriticalsLead(db, all, k, criticals, ref);
    PrefixFits(all[..k + 1], criticals);
  }

  /** Unresolved critical incidents are never crowded out: if they fit the limit, the batch holds all of them. */
  lemma CriticalFirst(db: AlertDb, ref: DestRef, limit: nat, batch: seq<DueRow>, row: DueRow)
    requires IsBatch(db, ref, limit, batch) && row in DueRows(db, ref) && IsCritical(db, row)
    requires |set x | x in DueRows(db, ref) && IsCritical(db, x)| <= limit
    ensures row in batch
  {
    hide DueRows, RowOrder, IsCritical;
    var all: seq<DueRow> :| IsListing(RowOrder(db.incidents.rows), all, DueRows(db, ref))
                            && batch == if |all| <= limit then all else all[..limit];
    assert row in all;
    hide IsListing;
    var k :| 0 <= k < |all| && all[k] == row;
    CriticalInPrefix(db, ref, limit, all, k, set x | x in DueRows(db, ref) && IsCritical(db, x));
    assert batch[k] == row;
  }
}
