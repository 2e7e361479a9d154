/**
 A run that shows denials have to be final: over a store with one open critical incident, configuring a destination,
 reconciling and claiming leave an attempt under way, from which `TrueDenialsAreNotEnough` goes on to two acceptances.
 */
module AlertWitness {
  import opened Common
  import opened Incidents
  import opened AlertModel
  import opened AlertProtocol
  import opened AlertQuotas
  import opened AlertSafety
  import opened AlertFinality

  const REPORT := Report("gateway", "GATEWAY_DOWN", Critical, None, "no traffic", None, None, true, RESTRICTED)
  const ROW := FirstRow(0, REPORT, 0.0)
  const STORE := IncidentDb(map[0 := ROW], [Entry(0, ROW)], 1)

  const REF := "mail://operators"
  const CONFIG := Config("operators", "smtp", "secret", "policy", Severity.Error)
  const CONSENT := Some(Grant(true, "tenant", "policy"))

  /** The store is what one accepted report makes of an empty one. */
  lemma StoreIsReported()
    ensures Apply(IncidentDb(map[], [], 0), OpenUpdate(REPORT), 0.0) == STORE && Valid(STORE)
  {
    var empty := IncidentDb(map[], [], 0);
    assert Replay([]) == map[];
    assert Valid(empty);
    ApplyKeepsValid(empty, OpenUpdate(REPORT), 0.0);
    hide Valid;
    assert Owner(empty, "gateway") == None;
  }

  // ---------------------------------------------------------------- configure and reconcile

  const CONFIGURED := EmptyOutbox(STORE).(dests := map[REF := Destination(CONFIG, "tenant")])

  const BATCH := [DueRow(1, 0)]

  const CONFIGURE := ConfigureTx(REF, CONFIG, CONSENT)
  const RECONCILE := ReconcileTx(REF, CONSENT, 64, BATCH, (k: nat) => 0.0, (p: Payload) => 0)

  lemma Configures()
    ensures ExecTx(EmptyOutbox(STORE), CONFIGURE) == CONFIGURED
  {
  }

  lemma OneDue()
    ensures DueRows(CONFIGURED, REF) == {DueRow(1, 0)}
  {
    assert UnreceiptedSet(CONFIGURED, REF) == {1};
    assert At(CONFIGURED.incidents.ledger, 1) == Entry(0, ROW);
  }

  lemma BatchIsSelected()
    ensures Admissible(CONFIGURED, RECONCILE)
  {
    OneDue();
    DueRowsOrdered(CONFIGURED, REF);
    assert IsListing(RowOrder(CONFIGURED.incidents.rows), BATCH, DueRows(CONFIGURED, REF));
    hide DueRows, RowOrder;
  }

  ghost function Enqueued(): AlertDb {
    WithReceipt(InsertDelivery(CONFIGURED, 0, REF, true, 0.0), REF, 1)
  }

  lemma Enqueues()
    ensures EnqueueCurrent(CONFIGURED, 0, REF, true, 0.0, (p: Payload) => 0) == Ok(InsertDelivery(CONFIGURED, 0, REF, true, 0.0))
  {
    hide EpisodeOf, InsertDelivery;
    assert Unaccepted(CONFIGURED) == {} && UnacceptedFor(CONFIGURED, REF) == {};
  }

  lemma Reconciles()
    ensures ExecTx(CONFIGURED, RECONCILE) == Enqueued()
  {
    Enqueues();
    hide EnqueueCurrent, InsertDelivery;
    assert BATCH[..0] == [];
    assert ProcessRows(CONFIGURED, REF, [], (k: nat) => 0.0, true, (p: Payload) => 0) == Ok(CONFIGURED);
  }

  lemma EnqueuedRow()
    ensures
      var db := Enqueued();
      && db.nextId == 2 && db.deliveries.Keys == {0} && db.budgets.Keys == {1} && db.dests == CONFIGURED.dests
      && db.deliveries[0].state == Pending && db.deliveries[0].nextDue == 0.0 && db.deliveries[0].session == 1
      && db.deliveries[0].dest == REF && db.deliveries[0].config == CONFIG && db.deliveries[0].queries == 0
      && db.deliveries[0].version == 0
      && db.budgets[1].attempts == 0 && db.budgets[1].maxAttempts == 128 && db.budgets[1].deadline == 86_400.0
  {
    hide EpisodeOf;
  }

  // ---------------------------------------------------------------- claim

  const CLAIM := ClaimStep(REF, CONSENT, "smtp", Some(0), 0.0)

  lemma NoneInFlight()
    ensures |InFlightAll(Enqueued())| == 0 && |InFlightFor(Enqueued(), REF)| == 0
  {
    EnqueuedRow();
    hide InsertDelivery;
    assert InFlightAll(Enqueued()) == {} && InFlightFor(Enqueued(), REF) == {};
  }

  lemma Consents()
    ensures Refusal(Enqueued(), REF, CONSENT, false).None?
  {
    EnqueuedRow();
    hide Enqueued;
  }

  lemma Claims()
    requires Books(Enqueued())
    ensures
      var result := Claim(Enqueued(), REF, CONSENT, "smtp", Some(0), 0.0).1;
      result.Claimed? && result.id == 0 && result.token == 2
  {
    EnqueuedRow();
    NoneInFlight();
    Consents();
    BooksShape(Enqueued());
    ShapeRow(Enqueued(), 0);
    hide *;
    ClaimSucceeds(Enqueued(), 0, CONSENT, "smtp", 0.0);
  }

  /** The world after the three steps, and what the claim wrote. */
  ghost predicate UnderWay(w: World) {
    && w.clock == 0.0 && w.db.deliveries.Keys == {0} && w.db.budgets.Keys == {1} && w.db.dests == CONFIGURED.dests
    && w.attempts.Keys == {2} && Current(w, 0, 2) && w.attempts[2].returned.None? && !w.attempts[2].accepted
    && w.attempts[2].lease == 10.0
    && var d, b := w.db.deliveries[0], w.db.budgets[1];
    && d.queries == 0 && d.session == 1 && d.dest == REF && d.config == CONFIG
    && b.attempts == 1 && b.maxAttempts == 128 && b.deadline == 86_400.0
  }

  lemma Constants()
    ensures CLAIM == ClaimStep(REF, CONSENT, "smtp", Some(0), 0.0)
    ensures CONFIGURE.ConfigureTx? && RECONCILE.ReconcileTx?
    ensures SETUP == [Admin(CONFIGURE), Admin(RECONCILE), CLAIM]
  {
  }

  lemma ClaimLeaves(w: World)
    requires w.db == Enqueued() && w.clock == 0.0 && w.attempts == map[] && Books(w.db)
    ensures Allowed(w, CLAIM) && UnderWay(Do(w, CLAIM))
  {
    hide *;
    Constants();
    EnqueuedRow();
    BooksShape(w.db);
    ShapeRow(w.db, 0);
    Claims();
    ClaimAllowed(w, CLAIM);
    var (after, result) := Claim(w.db, REF, CONSENT, "smtp", Some(0), 0.0);
    ClaimCases(w.db, REF, CONSENT, "smtp", Some(0), 0.0);
    ClaimFacts(w.db, 0.0, after, result);
    ClaimDo(w, CLAIM, after, result);
    SweepLeavesPending(w.db, 0, 0.0);
    SweepKeys(w.db, 0.0);
    Taken(w, Do(w, CLAIM), Sweep(w.db, 0.0));
  }

  lemma SweepKeys(db: AlertDb, now: Time)
    ensures Sweep(db, now).deliveries.Keys == db.deliveries.Keys && Sweep(db, now).budgets.Keys == db.budgets.Keys
    ensures Sweep(db, now).dests == db.dests && Sweep(db, now).nextId == db.nextId
  {
  }

  lemma Taken(w: World, w': World, db: AlertDb)
    requires w.clock == 0.0 && w.attempts == map[] && db.nextId == 2 && db.dests == CONFIGURED.dests
    requires db.deliveries.Keys == {0} && db.budgets.Keys == {1}
    requires
      var d, b := db.deliveries[0], db.budgets[1];
      && d.session == 1 && d.version == 0 && d.queries == 0 && d.dest == REF && d.config == CONFIG
      && b.attempts == 0 && b.maxAttempts == 128 && b.deadline == 86_400.0
    requires w' == w.(db := TakeClaim(db, 0, 0.0), attempts := w.attempts[2 := Started(TakeClaim(db, 0, 0.0), 0, 1, 0.0)], log := w'.log)
    ensures UnderWay(w')
  {
  }

  lemma SceneFrom(w: World)
    requires UnderWay(w) && Inv(w) && Limits(w.db)
    ensures Scene(w, 0, 2)
  {
    hide Inv, Limits;
  }

  lemma StillsClock(w: World)
    requires UnderWay(w)
    ensures w.clock == 0.0
  {
  }

  // ---------------------------------------------------------------- the run

  const SETUP := [Admin(CONFIGURE), Admin(RECONCILE), CLAIM]

  lemma AdminStep(w: World, tx: Tx)
    requires tx.ConfigureTx? || tx.ReconcileTx?
    ensures Allowed(w, Admin(tx)) && Do(w, Admin(tx)) == w.(db := ExecTx(w.db, tx))
  {
    hide ExecTx;
  }

  ghost function Prepared(): World
    requires Runs(Start(STORE, 0.0), [Admin(CONFIGURE), Admin(RECONCILE)])
  {
    Final(Start(STORE, 0.0), [Admin(CONFIGURE), Admin(RECONCILE)])
  }

  lemma Prepares()
    ensures Runs(Start(STORE, 0.0), [Admin(CONFIGURE), Admin(RECONCILE)])
    ensures Prepared() == Final(Start(STORE, 0.0), [Admin(CONFIGURE), Admin(RECONCILE)])
    ensures Prepared().db == Enqueued() && Prepared().clock == 0.0 && Prepared().attempts == map[]
    ensures Books(Prepared().db) && Limits(Prepared().db)
  {
    var w := Start(STORE, 0.0);
    StartIs();
    hide *;
    NoSteps(w);
    Constants();
    AdminStep(w, CONFIGURE);
    RunOneMore(w, [], Admin(CONFIGURE));
    assert [] + [Admin(CONFIGURE)] == [Admin(CONFIGURE)];
    Configures();
    var w1 := Final(w, [Admin(CONFIGURE)]);
    AdminStep(w1, RECONCILE);
    RunOneMore(w, [Admin(CONFIGURE)], Admin(RECONCILE));
    assert [Admin(CONFIGURE)] + [Admin(RECONCILE)] == [Admin(CONFIGURE), Admin(RECONCILE)];
    Reconciles();
    PreparedDef();
    BooksAndLimits();
  }

  lemma PreparedDef()
    requires Runs(Start(STORE, 0.0), [Admin(CONFIGURE), Admin(RECONCILE)])
    ensures Prepared() == Final(Start(STORE, 0.0), [Admin(CONFIGURE), Admin(RECONCILE)])
  {
  }

  lemma StartIs()
    ensures
      var w := Start(STORE, 0.0);
      w.db == EmptyOutbox(STORE) && w.clock == 0.0 && w.attempts == map[]
  {
  }

  lemma BooksAndLimits()
    ensures Books(Enqueued()) && Limits(Enqueued())
  {
    hide *;
    EmptyLimits(STORE);
    Configures();
    NothingToSelect();
    TxKeepsLimits(EmptyOutbox(STORE), CONFIGURE);
    TxKeepsBooks(EmptyOutbox(STORE), CONFIGURE);
    BatchIsSelected();
    Reconciles();
    TxKeepsLimits(CONFIGURED, RECONCILE);
    TxKeepsBooks(CONFIGURED, RECONCILE);
  }

  lemma NothingToSelect()
    ensures Admissible(EmptyOutbox(STORE), CONFIGURE)
  {
  }

  /** Configure, reconcile, claim: an attempt is under way, with budget, queries and time left for another. */
  lemma SceneIsReached()
    ensures Valid(STORE) && Runs(Start(STORE, 0.0), SETUP) && Scene(Final(Start(STORE, 0.0), SETUP), 0, 2)
    ensures Final(Start(STORE, 0.0), SETUP).clock == 0.0
  {
    hide *;
    Constants();
    StoreIsReported();
    var w := Start(STORE, 0.0);
    Prepares();
    var w2 := Prepared();
    ClaimLeaves(w2);
    RunOneMore(w, [Admin(CONFIGURE), Admin(RECONCILE)], CLAIM);
    assert [Admin(CONFIGURE), Admin(RECONCILE)] + [CLAIM] == SETUP;
    RunKeepsInv(STORE, 0.0, SETUP);
    ClaimKeepsAllLimits(w2);
    SceneFrom(Final(w, SETUP));
    StillsClock(Final(w, SETUP));
  }

  lemma ClaimKeepsAllLimits(w: World)
    requires Books(w.db) && Limits(w.db) && Allowed(w, CLAIM)
    ensures Limits(Do(w, CLAIM).db)
  {
    hide Books, Limits, Claim, Started;
    TxKeepsLimits(w.db, ClaimTx(REF, CONSENT, "smtp", Some(0), 0.0));
  }

  lemma {:induction false} RunsConcat(w: World, first: seq<Step>, second: seq<Step>)
    requires Runs(w, first) && Runs(Final(w, first), second)
    ensures Runs(w, first + second) && Final(w, first + second) == Final(Final(w, first), second)
    decreases |second|
  {
    hide Allowed, Do;
    if second == [] {
      assert first + second == first;
    } else {
      var n := |second| - 1;
      RunsConcat(w, first, second[..n]);
      RunOneMore(w, first + second[..n], second[n]);
      assert first + second == first + second[..n] + [second[n]];
    }
  }

  /** A reachable double acceptance: every step of the run is allowed, and each denial in it is true when it is given. */
  lemma DenialsMustBeFinal() returns (steps: seq<Step>)
    ensures Valid(STORE) && Runs(Start(STORE, 0.0), steps)
    ensures Final(Start(STORE, 0.0), steps).clock == 0.0 && !AcceptedAtMostOnce(Final(Start(STORE, 0.0), steps))
    ensures !DenialsHold(Start(STORE, 0.0), steps)
  {
    hide *;
    SceneIsReached();
    var more := TrueDenialsAreNotEnough(Final(Start(STORE, 0.0), SETUP), 0, 2);
    RunsConcat(Start(STORE, 0.0), SETUP, more);
    steps := SETUP + more;
    AtMostOnce(STORE, 0.0, steps);
  }
}
