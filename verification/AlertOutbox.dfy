/**
 The outbox object: its tables, and its operations as they update them. Each operation is one committed transaction,
 or for a dispatch two with the transport call between them, and each is proved to do to the tables exactly what its
 transaction function says, so what is proved of runs of transactions holds of runs of calls.
 */
module AlertOutbox {
  import opened Common
  import opened Incidents
  import opened AlertModel
  import opened AlertOutcomes

  datatype ReconcileReport = ReconcileReport(processed: nat, pending: bool)

  datatype SendReport = NothingSent(claim: ClaimResult) | Sent(id: Id, token: Id, state: DeliveryState)

  function PhaseRank(p: Phase): nat {
    match p case CriticalPhase => 0 case ProblemPhase => 1 case RecoveryPhase => 2
  }

  function Ready(deliveries: map<Id, Delivery>, ref: DestRef, now: Time): set<Id> {
    set d | d in deliveries && deliveries[d].dest == ref && deliveries[d].state == Pending && deliveries[d].nextDue <= now
  }

  /** Critical alerts first, then problems, then recoveries; among equals the longest due. */
  predicate NotAfter(a: Delivery, b: Delivery) {
    PhaseRank(a.phase) < PhaseRank(b.phase) || (a.phase == b.phase && a.nextDue <= b.nextDue)
  }

  predicate IsPreview(deliveries: map<Id, Delivery>, ref: DestRef, now: Time, preview: Option<Id>) {
    if preview.None? then Ready(deliveries, ref, now) == {}
    else
      preview.value in Ready(deliveries, ref, now) &&
      forall d | d in Ready(deliveries, ref, now) :: NotAfter(deliveries[preview.value], deliveries[d])
  }

  predicate DueFor(d: Delivery, ref: DestRef, now: Time) {
    d.dest == ref && d.state == Pending && d.nextDue <= now
  }

  /** A critical alert waits for no other phase, only a recovery waits for recoveries, and equals go by their due time. */
  predicate ServedBefore(a: Delivery, b: Delivery) {
    && (b.phase == CriticalPhase ==> a.phase == CriticalPhase)
    && (a.phase == RecoveryPhase ==> b.phase == RecoveryPhase)
    && (a.phase == b.phase ==> a.nextDue <= b.nextDue)
  }

  lemma PreviewNamed(deliveries: map<Id, Delivery>, ref: DestRef, now: Time, preview: Option<Id>)
    requires IsPreview(deliveries, ref, now, preview)
    ensures preview.None? <==> forall d | d in deliveries :: !DueFor(deliveries[d], ref, now)
    ensures preview.Some? ==>
              preview.value in deliveries && DueFor(deliveries[preview.value], ref, now) &&
              forall d | d in deliveries && DueFor(deliveries[d], ref, now) :: ServedBefore(deliveries[preview.value], deliveries[d])
  {
    forall d | d in deliveries ensures DueFor(deliveries[d], ref, now) <==> d in Ready(deliveries, ref, now) {
    }
  }

  // ---------------------------------------------------------------- the statements that open a dispatch

  function LeasesExpired(deliveries: map<Id, Delivery>, now: Time): map<Id, Delivery> {
    map d | d in deliveries ::
      if deliveries[d].state == InFlight && deliveries[d].leaseUntil.Some? && deliveries[d].leaseUntil.value <= now
      then deliveries[d].(state := Unknown, version := deliveries[d].version + 1, claim := None)
      else deliveries[d]
  }

  function BudgetsExpired(deliveries: map<Id, Delivery>, budgets: map<Id, Budget>, now: Time): map<Id, Delivery> {
    map d | d in deliveries ::
      if deliveries[d].state == Pending && deliveries[d].session in budgets
         && (budgets[deliveries[d].session].deadline <= now
             || budgets[deliveries[d].session].attempts >= budgets[deliveries[d].session].maxAttempts)
      then deliveries[d].(state := Exhausted, version := deliveries[d].version + 1)
      else deliveries[d]
  }

  function SessionsClosed(budgets: map<Id, Budget>, deliveries: map<Id, Delivery>, state: DeliveryState): map<Id, Budget> {
    map s | s in budgets :: if HeldBy(deliveries, s, state) then budgets[s].(state := Closed(state)) else budgets[s]
  }

  /** Run one after the other, the four statements are the sweep: no row is touched by both delivery updates. */
  lemma SweepByStatements(db: AlertDb, now: Time)
    ensures
      var deliveries := BudgetsExpired(LeasesExpired(db.deliveries, now), db.budgets, now);
      var budgets := SessionsClosed(SessionsClosed(db.budgets, deliveries, Exhausted), deliveries, Unknown);
      db.(deliveries := deliveries, budgets := budgets) == Sweep(db, now)
  {
    var deliveries := BudgetsExpired(LeasesExpired(db.deliveries, now), db.budgets, now);
    DeliveriesByStatements(db, now);
    hide HeldBy, BudgetsExpired, LeasesExpired;
    assert SessionsClosed(SessionsClosed(db.budgets, deliveries, Exhausted), deliveries, Unknown) == Sweep(db, now).budgets;
  }

  lemma DeliveriesByStatements(db: AlertDb, now: Time)
    ensures BudgetsExpired(LeasesExpired(db.deliveries, now), db.budgets, now) == Sweep(db, now).deliveries
  {
  }

  class Outbox {
    var incidents: IncidentDb
    var dests: map<DestRef, Destination>
    var receipts: set<(DestRef, int)>
    var deliveries: map<Id, Delivery>
    var budgets: map<Id, Budget>
    var nextId: Id

    function Db(): AlertDb
      reads this
    {
      AlertDb(incidents, dests, receipts, deliveries, budgets, nextId)
    }

    constructor (owner: IncidentDb)
      ensures Db() == EmptyOutbox(owner)
    {
      incidents, dests, receipts, deliveries, budgets, nextId := owner, map[], {}, map[], map[], 0;
    }

    /** Puts back what a transaction read when it began. */
    method Rollback(saved: AlertDb)
      modifies this
      ensures Db() == saved
    {
      incidents, dests, receipts := saved.incidents, saved.dests, saved.receipts;
      deliveries, budgets, nextId := saved.deliveries, saved.budgets, saved.nextId;
    }

    method ConfigureDestination(ref: DestRef, config: Config, grant: Option<Grant>) returns (r: Result<(), AlertError>)
      modifies this`dests
      ensures Db() == Kept(old(Db()), Configure(old(Db()), ref, config, grant))
      ensures r.Ok? <==> Configure(old(Db()), ref, config, grant).Ok?
      ensures r.Err? ==> r.error == Configure(old(Db()), ref, config, grant).error
    {
      if config.minimum == Info {
        return Err(DestinationInvalid);
      }
      var refusal := Refusal(Db(), ref, grant, true);
      if refusal.Some? {
        return Err(refusal.value);
      }
      if grant.value.policy != config.policy {
        return Err(PolicyUnproven);
      }
      if ref in dests {
        if dests[ref].config != config {
          return Err(IntentConflict);
        }
      } else {
        if |dests| >= 32 {
          return Err(DestinationCapacity);
        }
        dests := dests[ref := Destination(config, grant.value.tenant)];
      }
      r := Ok(());
    }

    /** Inserts one delivery with its first budget session, unless the incident asks for none or has it already. */
    method EnqueueIncident(id: Id, ref: DestRef, human: bool, now: Time, bytes: Payload -> nat) returns (r: Result<(), AlertError>)
      modifies this`deliveries, this`budgets, this`nextId
      ensures Db() == Kept(old(Db()), EnqueueCurrent(old(Db()), id, ref, human, now, bytes))
      ensures r.Ok? <==> EnqueueCurrent(old(Db()), id, ref, human, now, bytes).Ok?
      ensures r.Err? ==> r.error == EnqueueCurrent(old(Db()), id, ref, human, now, bytes).error
      ensures r.Ok? && id in incidents.rows && ref in dests ==>
                if Wanted(old(Db()), id, ref) then Inserted(old(Db()), Db(), id, ref, human, now) else Db() == old(Db())
      ensures id in incidents.rows && ref in dests ==>
                (r.Err? <==> Wanted(old(Db()), id, ref) && (Full(old(Db()), ref) || bytes(PayloadOf(old(Db()), id)) > 4096))
    {
      if id in incidents.rows && ref in dests {
        EnqueueOutcome(Db(), id, ref, human, now, bytes);
      }
      hide Wanted, Full, Inserted;
      hide EpisodeOf, HasDelivery, Exempt, Alerted, OutboxFull;
      var before := Db();
      if id !in incidents.rows || ref !in dests {
        return Err(IncidentMissing);
      }
      if Exempt(before, id, ref) || Alerted(before, id, ref) {
        return Ok(());
      }
      if OutboxFull(before, ref) {
        return Err(OutboxCapacity);
      }
      var payload := PayloadOf(before, id);
      if bytes(payload) > 4096 {
        return Err(PayloadCapacity);
      }
      var delivery, session := nextId, nextId + 1;
      deliveries := deliveries[delivery := Delivery(id, ref, payload.episode, payload.phase, payload, dests[ref].config,
                                                    Pending, 0, 0, now, None, None, "", session, 0)];
      budgets := budgets[session := NewBudget(delivery, human, now)];
      nextId := nextId + 2;
      r := Ok(());
    }

    /**
     One bounded reconciliation. The rows are selected once, then handled in order; a failure on any of them puts the
     tables back, receipts included.
     */
    method ReconcileOwnerTransitions(ref: DestRef, grant: Option<Grant>, limit: int, clock: nat -> Time, bytes: Payload -> nat)
      returns (r: Result<ReconcileReport, AlertError>, ghost batch: seq<DueRow>)
      modifies this
      ensures 1 <= limit <= 64 ==> IsBatch(old(Db()), ref, limit, batch)
      ensures Db() == Kept(old(Db()), Reconcile(old(Db()), ref, grant, limit, batch, clock, bytes))
      ensures r.Ok? <==> Reconcile(old(Db()), ref, grant, limit, batch, clock, bytes).Ok?
      ensures r.Err? ==> r.error == Reconcile(old(Db()), ref, grant, limit, batch, clock, bytes).error
      ensures r.Ok? ==> r.value.processed == |batch| && r.value.pending == (UnreceiptedSet(Db(), ref) != {})
    {
      batch := [];
      if !(1 <= limit <= 64) {
        return Err(ReconcileLimit), batch;
      }
      var saved := Db();
      var rows := SelectBatch(ref, limit);
      batch := rows;
      var refusal := Refusal(saved, ref, grant, false);
      if refusal.Some? {
        return Err(refusal.value), batch;
      }
      if ref !in dests {
        return Err(Unconfigured), batch;
      }
      if |receipts| + limit > 200_000 {
        return Err(ReceiptCapacity), batch;
      }
      hide IsBatch, Refusal;
      var failure := ProcessBatch(ref, rows, grant.value.human, clock, bytes);
      if failure.Some? {
        return Err(failure.value), batch;
      }
      r := Ok(ReconcileReport(|rows|, UnreceiptedSet(Db(), ref) != {}));
    }

    /** The loop over the selected rows: the first one that fails undoes them all. */
    method ProcessBatch(ref: DestRef, rows: seq<DueRow>, human: bool, clock: nat -> Time, bytes: Payload -> nat)
      returns (failure: Option<AlertError>)
      modifies this
      ensures
        match ProcessRows(old(Db()), ref, rows, clock, human, bytes)
        case Ok(db) => failure == None && Db() == db
        case Err(e) => failure == Some(e) && Db() == old(Db())
    {
      var saved := Db();
      hide EnqueueCurrent;
      for i := 0 to |rows|
        invariant ProcessRows(saved, ref, rows[..i], clock, human, bytes) == Ok(Db())
      {
        ghost var before := Db();
        assert rows[..i + 1][..i] == rows[..i] && rows[..i + 1][i] == rows[i];
        var done := EnqueueIncident(rows[i].incident, ref, human, clock(i), bytes);
        if done.Err? {
          FailureSpreads(saved, ref, rows, clock, human, bytes, i + 1);
          Rollback(saved);
          return Some(done.error);
        }
        receipts := receipts + {(ref, rows[i].revision)};
        assert Db() == WithReceipt(EnqueueCurrent(before, rows[i].incident, ref, human, clock(i), bytes).value, ref, rows[i].revision);
      }
      assert rows[..|rows|] == rows;
      failure := None;
    }

    method SelectBatch(ref: DestRef, limit: nat) returns (rows: seq<DueRow>)
      ensures IsBatch(Db(), ref, limit, rows)
    {
      DueRowsOrdered(Db(), ref);
      var all := OrderBy(DueRows(Db(), ref), RowOrder(incidents.rows));
      rows := if |all| <= limit then all else all[..limit];
    }

    /** The four set updates that open a dispatch. */
    method SweepExpired(now: Time)
      modifies this`deliveries, this`budgets
      ensures Db() == Sweep(old(Db()), now)
    {
      SweepByStatements(Db(), now);
      deliveries := LeasesExpired(deliveries, now);
      deliveries := BudgetsExpired(deliveries, budgets, now);
      budgets := SessionsClosed(budgets, deliveries, Exhausted);
      budgets := SessionsClosed(budgets, deliveries, Unknown);
    }

    /** The read outside the lock that picks which delivery to authorize. */
    method Preview(ref: DestRef, now: Time) returns (preview: Option<Id>)
      ensures IsPreview(deliveries, ref, now, preview)
      ensures preview.None? <==> forall d | d in deliveries :: !DueFor(deliveries[d], ref, now)
      ensures preview.Some? ==>
                preview.value in deliveries && DueFor(deliveries[preview.value], ref, now) &&
                forall d | d in deliveries && DueFor(deliveries[d], ref, now) :: ServedBefore(deliveries[preview.value], deliveries[d])
    {
      preview := None;
      var rest := Ready(deliveries, ref, now);
      while rest != {}
        invariant rest <= Ready(deliveries, ref, now)
        invariant preview.None? ==> rest == Ready(deliveries, ref, now)
        invariant preview.Some? ==>
                    preview.value in Ready(deliveries, ref, now) &&
                    forall d | d in Ready(deliveries, ref, now) - rest :: NotAfter(deliveries[preview.value], deliveries[d])
        decreases rest
      {
        var d :| d in rest;
        if preview.None? || !NotAfter(deliveries[preview.value], deliveries[d]) {
          preview := Some(d);
        }
        rest := rest - {d};
      }
      PreviewNamed(deliveries, ref, now, preview);
    }

    /** The claim transaction. */
    method ClaimDelivery(ref: DestRef, grant: Option<Grant>, transport: string, preview: Option<Id>, now: Time)
      returns (result: ClaimResult)
      modifies this
      ensures (Db(), result) == Claim(old(Db()), ref, grant, transport, preview, now)
    {
      hide Sweep, HeldBy, InFlightAll, InFlightFor;
      var refusal := Refusal(Db(), ref, grant, false);
      if refusal.Some? {
        return Refused(refusal.value);
      }
      if ref !in dests {
        return Refused(Unconfigured);
      }
      if transport != dests[ref].config.transport {
        return Refused(TransportUnproven);
      }
      SweepExpired(now);
      ghost var swept := Db();
      if |InFlightAll(Db())| >= 16 || |InFlightFor(Db(), ref)| >= 2 {
        return CapacityPaused;
      }
      if preview.None? || !Eligible(Db(), preview.value, ref, now) {
        return NoEligibleDelivery;
      }
      var id := preview.value;
      var d := deliveries[id];
      var b := budgets[d.session];
      if d.config != dests[ref].config || b.deadline - now < 5.0 {
        deliveries := deliveries[id := d.(state := Exhausted, version := d.version + 1)];
        return FoundExhausted(id);
      }
      var token := nextId;
      deliveries := deliveries[id := d.(state := InFlight, version := d.version + 1, totalAttempts := d.totalAttempts + 1,
                                        claim := Some(token), leaseUntil := Some(Earlier(now + 10.0, b.deadline)))];
      budgets := budgets[d.session := b.(attempts := b.attempts + 1)];
      nextId := nextId + 1;
      assert Db() == TakeClaim(swept, id, now);
      result := Claimed(id, token, d.version + 1);
    }

    /** The outcome transaction. */
    method FinishDelivery(id: Id, token: Id, version: nat, outcome: Outcome, factor: real, now: Time)
      returns (r: Result<DeliveryState, AlertError>)
      modifies this`deliveries, this`budgets
      ensures Db() == Kept(old(Db()), Finish(old(Db()), id, token, version, outcome, factor, now))
      ensures r.Ok? <==> Finish(old(Db()), id, token, version, outcome, factor, now).Ok?
      ensures r.Err? ==> r.error == Finish(old(Db()), id, token, version, outcome, factor, now).error
      ensures r.Ok? ==> id in deliveries && r.value == deliveries[id].state
      ensures r == Err(StaleDispatch) <==> !HoldsClaim(old(Db()), id, token, version, now)
      ensures HoldsClaim(old(Db()), id, token, version, now) ==>
                (r.Ok? <==> (outcome.kind == NotAccepted ==> 0.8 <= factor <= 1.2))
      ensures r.Ok? ==> Recorded(old(Db()), Db(), id, outcome, factor, now)
    {
      FinishOutcome(Db(), id, token, version, outcome, factor, now);
      hide Recorded;
      if !CurrentClaim(Db(), id, token, version, now) {
        return Err(StaleDispatch);
      }
      var d := deliveries[id];
      var b := budgets[d.session];
      var due, state := now, OutcomeState(outcome.kind);
      if state == Pending {
        if !(0.8 <= factor <= 1.2) {
          return Err(JitterInvalid);
        }
        due := now + RetryDelay(b.attempts, factor, outcome.retryAfter);
        if b.attempts >= b.maxAttempts || due + 5.0 >= b.deadline {
          state := Exhausted;
        }
      }
      hide Backoff, RetryDelay;
      deliveries := deliveries[id := d.(state := state, version := d.version + 1, nextDue := due, claim := None,
                                        leaseUntil := None, receipt := outcome.receipt)];
      if state != Pending {
        budgets := budgets[d.session := b.(state := Closed(state))];
      }
      r := Ok(state);
    }

    /**
     A whole dispatch with no other worker in between: pick, authorize, claim, send, record. `raw` is what the
     transport returned, or None if it raised.
     */
    method SendOnce(ref: DestRef, grant: Option<Grant>, deliveryGrant: Option<Grant>, transport: string, raw: Option<Outcome>,
                    factor: real, now: Time, later: Time)
      returns (r: Result<SendReport, AlertError>, ghost preview: Option<Id>)
      modifies this
      ensures Refusal(old(Db()), ref, grant, false).None? ==> IsPreview(old(deliveries), ref, now, preview)
      ensures Refusal(old(Db()), ref, grant, false).Some? ==> r == Err(Refusal(old(Db()), ref, grant, false).value)
      ensures
        Refusal(old(Db()), ref, grant, false).None? && (preview.Some? ==> Refusal(old(Db()), ref, deliveryGrant, false).None?) ==>
          var (db1, claim) := Claim(old(Db()), ref, grant, transport, preview, now);
          match claim
          case Claimed(id, token, version) =>
            && Db() == Kept(db1, Finish(db1, id, token, version, Sanitized(raw), factor, later))
            && (r.Ok? <==> Finish(db1, id, token, version, Sanitized(raw), factor, later).Ok?)
            && (r.Ok? ==> id in deliveries && r.value == Sent(id, token, deliveries[id].state))
          case Refused(e) => r == Err(e) && Db() == old(Db())
          case other => r == Ok(NothingSent(other)) && Db() == db1
      ensures
        Refusal(old(Db()), ref, grant, false).Some? || (preview.Some? && Refusal(old(Db()), ref, deliveryGrant, false).Some?) ==>
          r.Err? && Db() == old(Db())
      ensures
        Refusal(old(Db()), ref, grant, false).None? && preview.Some? && Refusal(old(Db()), ref, deliveryGrant, false).Some? ==>
          r == Err(Refusal(old(Db()), ref, deliveryGrant, false).value)
    {
      preview := None;
      var refusal := Refusal(Db(), ref, grant, false);
      if refusal.Some? {
        return Err(refusal.value), preview;
      }
      var picked := Preview(ref, now);
      preview := picked;
      if picked.Some? {
        refusal := Refusal(Db(), ref, deliveryGrant, false);
        if refusal.Some? {
          return Err(refusal.value), preview;
        }
      }
      hide Claim, Finish, Refusal, IsPreview;
      var claim := ClaimDelivery(ref, grant, transport, picked, now);
      match claim
      case Claimed(id, token, version) =>
        var state := FinishDelivery(id, token, version, Sanitized(raw), factor, later);
        r := if state.Ok? then Ok(Sent(id, token, state.value)) else Err(state.error);
      case Refused(e) =>
        RefusedChangesNothing(old(Db()), ref, grant, transport, picked, now);
        r := Err(e);
      case _ =>
        r := Ok(NothingSent(claim));
    }

    method RenewExhaustedBudget(id: Id, grant: Option<Grant>, expected: nat, reason: string, now: Time)
      returns (r: Result<Id, AlertError>)
      modifies this
      ensures Db() == Kept(old(Db()), Renew(old(Db()), id, grant, expected, reason, now))
      ensures r.Ok? <==> Renew(old(Db()), id, grant, expected, reason, now).Ok?
      ensures r.Err? ==> r.error == Renew(old(Db()), id, grant, expected, reason, now).error
      ensures r.Ok? ==> id in deliveries && deliveries[id].session == r.value
    {
      if id !in deliveries || deliveries[id].session !in budgets {
        return Err(DeliveryNotFound);
      }
      var d := deliveries[id];
      var refusal := Refusal(Db(), d.dest, grant, true);
      if refusal.Some? {
        return Err(refusal.value);
      }
      if !(1 <= |reason| <= 1000) {
        return Err(IntentInvalid);
      }
      if d.state != Exhausted || d.version != expected {
        return Err(RecoveryConflict);
      }
      var session := nextId;
      budgets := budgets[d.session := budgets[d.session].(state := Closed(Exhausted))];
      budgets := budgets[session := NewBudget(id, true, now)];
      deliveries := deliveries[id := d.(session := session, state := Pending, nextDue := now, version := d.version + 1)];
      nextId := nextId + 1;
      r := Ok(session);
    }

    /** The first half of `reconcile_ambiguous_delivery`, up to the query. */
    method CountAmbiguousQuery(id: Id, grant: Option<Grant>, expected: nat, transport: string) returns (r: Result<(), AlertError>)
      modifies this`deliveries
      ensures Db() == Kept(old(Db()), CountQuery(old(Db()), id, grant, expected, transport))
      ensures r.Ok? <==> CountQuery(old(Db()), id, grant, expected, transport).Ok?
      ensures r.Err? ==> r.error == CountQuery(old(Db()), id, grant, expected, transport).error
    {
      if id !in deliveries {
        return Err(DeliveryNotFound);
      }
      var d := deliveries[id];
      var refusal := Refusal(Db(), d.dest, grant, false);
      if refusal.Some? {
        return Err(refusal.value);
      }
      if d.dest !in dests || dests[d.dest].config.transport != transport {
        return Err(TransportUnproven);
      }
      if d.state != Unknown || d.version != expected {
        return Err(ReconciliationConflict);
      }
      if d.queries >= MAX_QUERIES {
        return Err(ControlExhausted);
      }
      deliveries := deliveries[id := d.(queries := d.queries + 1)];
      r := Ok(());
    }

    /** The second half: an indefinite answer leaves the delivery ambiguous. */
    method ApplyQueryAnswer(id: Id, expected: nat, answer: Option<Outcome>, checkNow: Time, dueNow: Time)
      returns (r: Result<DeliveryState, AlertError>)
      modifies this`deliveries, this`budgets
      ensures Db() == Kept(old(Db()), ApplyAnswer(old(Db()), id, expected, answer, checkNow, dueNow))
      ensures r.Ok? <==> ApplyAnswer(old(Db()), id, expected, answer, checkNow, dueNow).Ok?
      ensures r.Err? ==> r.error == ApplyAnswer(old(Db()), id, expected, answer, checkNow, dueNow).error
      ensures r.Ok? ==> if Definite(answer) then id in deliveries && r.value == deliveries[id].state else r.value == Unknown
    {
      if !Definite(answer) {
        return Ok(Unknown);
      }
      if id !in deliveries || deliveries[id].session !in budgets || deliveries[id].state != Unknown || deliveries[id].version != expected {
        return Err(ReconciliationConflict);
      }
      var d := deliveries[id];
      var b := budgets[d.session];
      var state := if answer.value.kind == ProviderAccepted then Accepted
                   else if b.attempts < b.maxAttempts && checkNow + 5.0 < b.deadline then Pending
                   else Exhausted;
      deliveries := deliveries[id := d.(state := state, version := d.version + 1, nextDue := dueNow, receipt := answer.value.receipt)];
      budgets := budgets[d.session := b.(state := if state == Pending then Active else Closed(state))];
      r := Ok(state);
    }
  }

  // ---------------------------------------------------------------- lemmas for the methods

  /** The loop stops at its first failing row with that row's error. */
  lemma {:induction false} FailureSpreads(db: AlertDb, ref: DestRef, rows: seq<DueRow>, clock: nat -> Time, human: bool,
                                          bytes: Payload -> nat, n: nat)
    requires n <= |rows| && ProcessRows(db, ref, rows[..n], clock, human, bytes).Err?
    ensures ProcessRows(db, ref, rows, clock, human, bytes) == ProcessRows(db, ref, rows[..n], clock, human, bytes)
    decreases |rows|
  {
    if n == |rows| {
      assert rows[..n] == rows;
    } else {
      var shorter := rows[..|rows| - 1];
      assert shorter[..n] == rows[..n];
      FailureSpreads(db, ref, shorter, clock, human, bytes, n);
    }
  }

  lemma RefusedChangesNothing(db: AlertDb, ref: DestRef, grant: Option<Grant>, transport: string, preview: Option<Id>, now: Time)
    requires Claim(db, ref, grant, transport, preview, now).1.Refused?
    ensures Claim(db, ref, grant, transport, preview, now).0 == db
  {
    hide Sweep, InFlightAll, InFlightFor;
  }

  /** A dispatch that nobody interleaves with, and that returns within its lease, is never fenced off. */
  lemma PromptFinishSucceeds(db: AlertDb, ref: DestRef, grant: Option<Grant>, transport: string, preview: Option<Id>, now: Time,
                             outcome: Outcome, factor: real, later: Time)
    requires Claim(db, ref, grant, transport, preview, now).1.Claimed?
    requires now <= later < now + 5.0 && 0.8 <= factor <= 1.2
    ensures
      var (db1, claim) := Claim(db, ref, grant, transport, preview, now);
      var r := Finish(db1, claim.id, claim.token, claim.version, outcome, factor, later);
      && r.Ok? && claim.id in r.value.deliveries
      && r.value.deliveries[claim.id].receipt == outcome.receipt
      && (outcome.kind == ProviderAccepted <==> r.value.deliveries[claim.id].state == Accepted)
      && (outcome.kind == Ambiguous <==> r.value.deliveries[claim.id].state == Unknown)
  {
    hide Sweep, InFlightAll, InFlightFor, RetryDelay;
  }
}
