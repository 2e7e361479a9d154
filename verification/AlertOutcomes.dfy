/**
 What each transaction of the outbox does, clause by clause and with the numbers written out: exactly when it commits,
 which error it gives otherwise, and what has changed afterwards.
 */
module AlertOutcomes {
  import opened Common
  import opened Incidents
  import opened AlertModel
  import opened AlertProtocol

  // ---------------------------------------------------------------- authorization and configuration

  /** Who is refused: nobody in particular, somebody from another tenant, or a service where a human is required. */
  lemma RefusalOutcome(db: AlertDb, ref: DestRef, grant: Option<Grant>, human: bool)
    ensures Refusal(db, ref, grant, human) == Some(Denied) <==> grant.None?
    ensures Refusal(db, ref, grant, human) == Some(TenantMismatch) <==>
              grant.Some? && ref in db.dests && db.dests[ref].tenant != grant.value.tenant
    ensures Refusal(db, ref, grant, human) == Some(HumanRequired) <==>
              && grant.Some? && (ref in db.dests ==> db.dests[ref].tenant == grant.value.tenant)
              && human && !grant.value.human
    ensures Refusal(db, ref, grant, human).None? <==>
              && grant.Some? && (ref in db.dests ==> db.dests[ref].tenant == grant.value.tenant)
              && (human ==> grant.value.human)
  {
  }

  /** A person of the tenant may act on the destination, under whatever policy. */
  predicate HumanOf(db: AlertDb, ref: DestRef, grant: Option<Grant>) {
    grant.Some? && grant.value.human && (ref in db.dests ==> db.dests[ref].tenant == grant.value.tenant)
  }

  lemma ConfigureErrors(db: AlertDb, ref: DestRef, config: Config, grant: Option<Grant>)
    ensures
      var r := Configure(db, ref, config, grant);
      && (r == Err(DestinationInvalid) <==> config.minimum !in {Warning, Severity.Error, Critical})
      && (config.minimum != Info && grant.None? ==> r == Err(Denied))
      && (config.minimum != Info && grant.Some? && ref in db.dests && db.dests[ref].tenant != grant.value.tenant ==>
            r == Err(TenantMismatch))
      && (config.minimum != Info && grant.Some? && (ref in db.dests ==> db.dests[ref].tenant == grant.value.tenant) ==>
            (!grant.value.human ==> r == Err(HumanRequired)))
  {
    RefusalOutcome(db, ref, grant, true);
    hide Refusal;
  }

  lemma ConfigureOutcome(db: AlertDb, ref: DestRef, config: Config, grant: Option<Grant>)
    requires config.minimum != Info && HumanOf(db, ref, grant)
    ensures
      var r, proven := Configure(db, ref, config, grant), grant.value.policy == config.policy;
      && (r == Err(PolicyUnproven) <==> !proven)
      && (r == Err(IntentConflict) <==> proven && ref in db.dests && db.dests[ref].config != config)
      && (r == Err(DestinationCapacity) <==> proven && ref !in db.dests && |db.dests| >= 32)
      && (r.Ok? <==> proven && if ref in db.dests then db.dests[ref].config == config else |db.dests| < 32)
      && (r.Ok? ==> r.value == if ref in db.dests then db else db.(dests := db.dests[ref := Destination(config, grant.value.tenant)]))
  {
    RefusalOutcome(db, ref, grant, true);
    hide Refusal;
  }

  // ---------------------------------------------------------------- enqueueing

  /** The alert that the present state of an incident asks for has been inserted already. */
  ghost predicate Has(db: AlertDb, incident: Id, ref: DestRef, episode: nat, phase: Phase) {
    exists d | d in db.deliveries ::
      && db.deliveries[d].incident == incident && db.deliveries[d].dest == ref
      && db.deliveries[d].episode == episode && db.deliveries[d].phase == phase
  }

  /** Whether an incident is to be alerted, with the severities named. */
  ghost predicate Wanted(db: AlertDb, id: Id, ref: DestRef)
    requires id in db.incidents.rows && ref in db.dests
  {
    var row, minimum, episode := db.incidents.rows[id], db.dests[ref].config.minimum, EpisodeOf(db, id);
    match row.lifecycle
    case Resolved =>
      && !Has(db, id, ref, episode, RecoveryPhase)
      && (Has(db, id, ref, episode, ProblemPhase) || Has(db, id, ref, episode, CriticalPhase))
    case _ =>
      && (match minimum
          case Critical => row.severity == Critical
          case Error => row.severity == Critical || row.severity == Severity.Error
          case Warning => row.severity != Info
          case Info => true)
      && !Has(db, id, ref, episode, if row.severity == Critical then CriticalPhase else ProblemPhase)
  }

  /** More than 4095 deliveries, or 1023 that are not accepted, or 127 of these for the destination. */
  ghost predicate Full(db: AlertDb, ref: DestRef) {
    || |db.deliveries| >= 4096
    || |set d | d in db.deliveries && db.deliveries[d].state != Accepted| >= 1024
    || |set d | d in db.deliveries && db.deliveries[d].state != Accepted && db.deliveries[d].dest == ref| >= 128
  }

  lemma HasIs(db: AlertDb, id: Id, ref: DestRef, episode: nat, phase: Phase)
    ensures Has(db, id, ref, episode, phase) <==> HasDelivery(db, id, ref, episode, phase)
  {
  }

  lemma WantedIs(db: AlertDb, id: Id, ref: DestRef)
    requires id in db.incidents.rows && ref in db.dests
    ensures Wanted(db, id, ref) <==> !Exempt(db, id, ref) && !Alerted(db, id, ref)
  {
    forall episode, phase ensures Has(db, id, ref, episode, phase) <==> HasDelivery(db, id, ref, episode, phase) {
      HasIs(db, id, ref, episode, phase);
    }
    hide Has, HasDelivery, EpisodeOf;
  }

  lemma FullIs(db: AlertDb, ref: DestRef)
    ensures Full(db, ref) <==> OutboxFull(db, ref)
  {
    assert (set d | d in db.deliveries && db.deliveries[d].state != Accepted) == Unaccepted(db);
    assert (set d | d in db.deliveries && db.deliveries[d].state != Accepted && db.deliveries[d].dest == ref) == UnacceptedFor(db, ref);
  }

  /** The payload: what the alert says of the incident as it stands. */
  lemma PayloadOutcome(db: AlertDb, id: Id)
    requires id in db.incidents.rows
    ensures
      var p, row := PayloadOf(db, id), db.incidents.rows[id];
      && p.incident == id && p.episode == EpisodeOf(db, id) && p.severity == row.severity
      && p.errorCode == row.errorCode && p.impact == row.impact
      && (p.phase == RecoveryPhase <==> row.lifecycle == Resolved)
      && (p.phase == CriticalPhase <==> row.lifecycle != Resolved && row.severity == Critical)
      && (p.phase == ProblemPhase <==> row.lifecycle != Resolved && row.severity != Critical)
  {
    hide EpisodeOf;
  }

  /** What an insertion adds: the delivery, due at once, and its first session of 128 attempts in 24 hours. */
  ghost predicate Inserted(db: AlertDb, db': AlertDb, id: Id, ref: DestRef, human: bool, now: Time)
    requires id in db.incidents.rows && ref in db.dests
  {
    && db.nextId in db'.deliveries && db'.deliveries == db.deliveries[db.nextId := db'.deliveries[db.nextId]]
    && db.nextId + 1 in db'.budgets && db'.budgets == db.budgets[db.nextId + 1 := db'.budgets[db.nextId + 1]]
    && db' == db.(deliveries := db'.deliveries, budgets := db'.budgets, nextId := db.nextId + 2)
    && var d, b, p := db'.deliveries[db.nextId], db'.budgets[db.nextId + 1], PayloadOf(db, id);
    && d.incident == id && d.dest == ref && d.episode == p.episode && d.phase == p.phase && d.payload == p
    && d.config == db.dests[ref].config && d.state == Pending && d.version == 0 && d.totalAttempts == 0 && d.nextDue == now
    && d.leaseUntil.None? && d.claim.None? && d.receipt == "" && d.session == db.nextId + 1 && d.queries == 0
    && b.delivery == db.nextId && b.human == human && b.startedAt == now && b.deadline == now + 86_400.0
    && b.maxAttempts == 128 && b.attempts == 0 && b.state == Active
  }

  lemma InsertOutcome(db: AlertDb, id: Id, ref: DestRef, human: bool, now: Time)
    requires id in db.incidents.rows && ref in db.dests
    ensures Inserted(db, InsertDelivery(db, id, ref, human, now), id, ref, human, now)
  {
    hide EpisodeOf;
  }

  lemma EnqueueOutcome(db: AlertDb, id: Id, ref: DestRef, human: bool, now: Time, bytes: Payload -> nat)
    requires id in db.incidents.rows && ref in db.dests
    ensures
      var r := EnqueueCurrent(db, id, ref, human, now, bytes);
      && (r == Err(OutboxCapacity) <==> Wanted(db, id, ref) && Full(db, ref))
      && (r == Err(PayloadCapacity) <==> Wanted(db, id, ref) && !Full(db, ref) && bytes(PayloadOf(db, id)) > 4096)
      && (r.Ok? <==> !Wanted(db, id, ref) || (!Full(db, ref) && bytes(PayloadOf(db, id)) <= 4096))
      && (!Wanted(db, id, ref) ==> r == Ok(db))
      && (r.Ok? && Wanted(db, id, ref) ==> Inserted(db, r.value, id, ref, human, now))
  {
    WantedIs(db, id, ref);
    FullIs(db, ref);
    InsertOutcome(db, id, ref, human, now);
    hide Wanted, Full, Exempt, Alerted, OutboxFull, InsertDelivery, Inserted, PayloadOf;
  }

  // ---------------------------------------------------------------- reconciliation

  lemma ReconcileOutcome(db: AlertDb, ref: DestRef, grant: Option<Grant>, limit: int, batch: seq<DueRow>, clock: nat -> Time,
                         bytes: Payload -> nat)
    ensures
      var r := Reconcile(db, ref, grant, limit, batch, clock, bytes);
      var asked := 1 <= limit <= 64;
      var may := grant.Some? && (ref in db.dests ==> db.dests[ref].tenant == grant.value.tenant);
      && (r == Err(ReconcileLimit) <==> !asked)
      && (asked && grant.None? ==> r == Err(Denied))
      && (asked && grant.Some? && !may ==> r == Err(TenantMismatch))
      && (asked && may && ref !in db.dests ==> r == Err(Unconfigured))
      && (asked && may && ref in db.dests && |db.receipts| + limit > 200_000 ==> r == Err(ReceiptCapacity))
      && (asked && may && ref in db.dests && |db.receipts| + limit <= 200_000 ==>
            r == ProcessRows(db, ref, batch, clock, grant.value.human, bytes))
  {
    RefusalOutcome(db, ref, grant, false);
    ProcessErrors(db, ref, batch, clock, if grant.Some? then grant.value.human else false, bytes);
    hide ProcessRows, Refusal;
  }

  /** The loop fails only for capacity, or for an incident or a destination that is not there. */
  lemma {:induction false} ProcessErrors(db: AlertDb, ref: DestRef, batch: seq<DueRow>, clock: nat -> Time, human: bool,
                                         bytes: Payload -> nat)
    ensures
      var r := ProcessRows(db, ref, batch, clock, human, bytes);
      r.Err? ==> r.error == OutboxCapacity || r.error == PayloadCapacity || r.error == IncidentMissing
    decreases |batch|
  {
    if batch != [] {
      hide Exempt, Alerted, OutboxFull, PayloadOf, InsertDelivery;
      ProcessErrors(db, ref, batch[..|batch| - 1], clock, human, bytes);
    }
  }

  // ---------------------------------------------------------------- the sweep

  /**
   What a dispatch does first to one delivery and its session: a lease that has run out makes it ambiguous, a spent
   session exhausts it; and the session of an ambiguous or exhausted delivery is closed as such.
   */
  lemma SweepOutcome(db: AlertDb, now: Time, id: Id)
    requires Shape(db) && id in db.deliveries
    ensures id in Sweep(db, now).deliveries && db.deliveries[id].session in Sweep(db, now).budgets
    ensures
      var d, d' := db.deliveries[id], Sweep(db, now).deliveries[id];
      var b, b' := db.budgets[d.session], Sweep(db, now).budgets[d.session];
      var expired := d.state == InFlight && d.leaseUntil.Some? && d.leaseUntil.value <= now;
      var spent := d.state == Pending && (b.deadline <= now || b.attempts >= b.maxAttempts);
      && (expired ==> d' == d.(state := Unknown, version := d.version + 1, claim := None))
      && (spent ==> d' == d.(state := Exhausted, version := d.version + 1))
      && (!expired && !spent ==> d' == d)
      && b' == b.(state := if d'.state == Unknown then Closed(Unknown) else if d'.state == Exhausted then Closed(Exhausted) else b.state)
  {
    ShapeRow(db, id);
    SweepLocal(db, now, db.deliveries[id].session);
    SweepIds(db, now);
    hide Sweep, Shape, LocalOk;
  }

  // ---------------------------------------------------------------- the claim

  ghost predicate Room(db: AlertDb, ref: DestRef) {
    && |set d | d in db.deliveries && db.deliveries[d].state == InFlight| < 16
    && |set d | d in db.deliveries && db.deliveries[d].state == InFlight && db.deliveries[d].dest == ref| < 2
  }

  lemma RoomIs(db: AlertDb, ref: DestRef)
    ensures Room(db, ref) <==> |InFlightAll(db)| < 16 && |InFlightFor(db, ref)| < 2
  {
    assert (set d | d in db.deliveries && db.deliveries[d].state == InFlight) == InFlightAll(db);
    assert (set d | d in db.deliveries && db.deliveries[d].state == InFlight && db.deliveries[d].dest == ref) == InFlightFor(db, ref);
  }

  /** The previewed delivery is still pending for this destination, and due. */
  predicate Selectable(db: AlertDb, preview: Option<Id>, ref: DestRef, now: Time) {
    && preview.Some? && preview.value in db.deliveries && db.deliveries[preview.value].session in db.budgets
    && db.deliveries[preview.value].dest == ref && db.deliveries[preview.value].state == Pending
    && db.deliveries[preview.value].nextDue <= now
  }

  /** The dispatch gets past its checks: a grant of the tenant, a configured destination, and its own transport. */
  predicate MayDispatch(db: AlertDb, ref: DestRef, grant: Option<Grant>, transport: string) {
    && grant.Some? && ref in db.dests && db.dests[ref].tenant == grant.value.tenant && db.dests[ref].config.transport == transport
  }

  /** What a claim writes: one version, one attempt, a fresh token, and a lease of ten seconds or to the deadline. */
  ghost predicate ClaimWrites(db: AlertDb, db': AlertDb, id: Id, token: Id, version: nat, now: Time)
    requires id in db.deliveries && db.deliveries[id].session in db.budgets
  {
    var d, b := db.deliveries[id], db.budgets[db.deliveries[id].session];
    && token == db.nextId && version == d.version + 1
    && id in db'.deliveries && d.session in db'.budgets
    && var d', b' := db'.deliveries[id], db'.budgets[d.session];
    && d'.state == InFlight && d'.version == version && d'.totalAttempts == d.totalAttempts + 1 && d'.claim == Some(token)
    && d'.leaseUntil == Some(if now + 10.0 <= b.deadline then now + 10.0 else b.deadline)
    && d' == d.(state := d'.state, version := d'.version, totalAttempts := d'.totalAttempts, claim := d'.claim, leaseUntil := d'.leaseUntil)
    && b' == b.(attempts := b.attempts + 1)
    && db' == db.(deliveries := db.deliveries[id := d'], budgets := db.budgets[d.session := b'], nextId := db.nextId + 1)
  }

  lemma TakeClaimWrites(db: AlertDb, id: Id, now: Time)
    requires id in db.deliveries && db.deliveries[id].session in db.budgets
    ensures ClaimWrites(db, TakeClaim(db, id, now), id, db.nextId, db.deliveries[id].version + 1, now)
  {
  }

  lemma ClaimRefusals(db: AlertDb, ref: DestRef, grant: Option<Grant>, transport: string, preview: Option<Id>, now: Time)
    ensures
      var (db', r) := Claim(db, ref, grant, transport, preview, now);
      && (r.Refused? <==> !MayDispatch(db, ref, grant, transport))
      && (r.Refused? ==> db' == db)
      && (r == Refused(Denied) <==> grant.None?)
      && (r == Refused(TenantMismatch) <==> grant.Some? && ref in db.dests && db.dests[ref].tenant != grant.value.tenant)
      && (r == Refused(Unconfigured) <==> grant.Some? && ref !in db.dests)
      && (r == Refused(TransportUnproven) <==>
            && grant.Some? && ref in db.dests && db.dests[ref].tenant == grant.value.tenant
            && db.dests[ref].config.transport != transport)
  {
    RefusalOutcome(db, ref, grant, false);
    hide Refusal, Sweep, InFlightAll, InFlightFor, Eligible, TakeClaim, ExhaustInPlace;
  }

  /** Past its checks, exactly what a claim finds after its sweep, and what it writes. */
  lemma ClaimOutcome(db: AlertDb, ref: DestRef, grant: Option<Grant>, transport: string, preview: Option<Id>, now: Time)
    requires MayDispatch(db, ref, grant, transport)
    ensures ref in Sweep(db, now).dests
    ensures
      var swept := Sweep(db, now);
      var (db', r) := Claim(db, ref, grant, transport, preview, now);
      && (r.CapacityPaused? <==> !Room(swept, ref))
      && (r.NoEligibleDelivery? <==> Room(swept, ref) && !Selectable(swept, preview, ref, now))
      && (r.CapacityPaused? || r.NoEligibleDelivery? ==> db' == swept)
      && (Room(swept, ref) && Selectable(swept, preview, ref, now) ==>
            var d, b := swept.deliveries[preview.value], swept.budgets[swept.deliveries[preview.value].session];
            && (r == FoundExhausted(preview.value) <==> d.config != swept.dests[ref].config || b.deadline - now < 5.0)
            && (r.Claimed? <==> d.config == swept.dests[ref].config && b.deadline - now >= 5.0)
            && (r.FoundExhausted? ==>
                  db' == swept.(deliveries := swept.deliveries[preview.value := d.(state := Exhausted, version := d.version + 1)]))
            && (r.Claimed? ==> r.id == preview.value && ClaimWrites(swept, db', r.id, r.token, r.version, now)))
  {
    hide Sweep, InFlightAll, InFlightFor, TakeClaim, ExhaustInPlace, Room, ClaimWrites;
    SweepIds(db, now);
    RoomIs(Sweep(db, now), ref);
    if Selectable(Sweep(db, now), preview, ref, now) { TakeClaimWrites(Sweep(db, now), preview.value, now); }
    ExhaustWrites(Sweep(db, now), preview);
  }

  lemma ExhaustWrites(db: AlertDb, preview: Option<Id>)
    ensures preview.Some? && preview.value in db.deliveries ==>
              var d := db.deliveries[preview.value];
              ExhaustInPlace(db, preview.value) ==
                db.(deliveries := db.deliveries[preview.value := d.(state := Exhausted, version := d.version + 1)])
  {
  }

  // ---------------------------------------------------------------- the outcome

  /** What counts as an outcome of the transport; anything else, and an exception, counts as ambiguous. */
  lemma SanitizedOutcome(raw: Option<Outcome>)
    ensures
      var well := && raw.Some? && 0 <= raw.value.retryAfter <= 86_400 && |raw.value.receipt| <= 200
                  && (raw.value.kind == ProviderAccepted ==> raw.value.receipt != "");
      && (well ==> Sanitized(raw) == raw.value)
      && (!well ==> Sanitized(raw).kind == Ambiguous && Sanitized(raw).receipt == "" && Sanitized(raw).retryAfter == 0)
  {
  }

  /** The wait before the next attempt: 5, 15, 60, 300 or 900 seconds, jittered, or what the provider asks if that is longer. */
  function WaitAfter(attempts: nat, factor: real, retryAfter: int): Time {
    var base := match attempts case 1 => 5.0 case 2 => 15.0 case 3 => 60.0 case 4 => 300.0 case _ => 900.0;
    if base * factor >= retryAfter as real then base * factor else retryAfter as real
  }

  lemma WaitIs(attempts: nat, factor: real, retryAfter: int)
    ensures RetryDelay(attempts, factor, retryAfter) == WaitAfter(attempts, factor, retryAfter)
  {
  }

  /** The claim is the delivery's own and its lease is not over. */
  predicate HoldsClaim(db: AlertDb, id: Id, token: Id, version: nat, now: Time) {
    && id in db.deliveries && db.deliveries[id].session in db.budgets
    && db.deliveries[id].state == InFlight && db.deliveries[id].claim == Some(token) && db.deliveries[id].version == version
    && db.deliveries[id].leaseUntil.Some? && now < db.deliveries[id].leaseUntil.value
  }

  predicate RetryDue(b: Budget, due: Time) {
    b.attempts < b.maxAttempts && due + 5.0 < b.deadline
  }

  /** What a recorded outcome makes of its delivery and its session. */
  ghost predicate Recorded(db: AlertDb, db': AlertDb, id: Id, outcome: Outcome, factor: real, now: Time)
    requires id in db.deliveries && db.deliveries[id].session in db.budgets
  {
    var d, b := db.deliveries[id], db.budgets[db.deliveries[id].session];
    && id in db'.deliveries && d.session in db'.budgets
    && var d', b' := db'.deliveries[id], db'.budgets[d.session];
    && db' == db.(deliveries := db.deliveries[id := d'], budgets := db.budgets[d.session := b'])
    && d' == d.(state := d'.state, version := d.version + 1, nextDue := d'.nextDue, claim := None, leaseUntil := None, receipt := outcome.receipt)
    && b' == b.(state := b'.state)
    && (if d'.state == Pending then b'.state == b.state else b'.state == Closed(d'.state))
    && match outcome.kind
       case ProviderAccepted => d'.state == Accepted && d'.nextDue == now
       case Permanent => d'.state == Paused && d'.nextDue == now
       case Ambiguous => d'.state == Unknown && d'.nextDue == now
       case NotAccepted =>
         && d'.nextDue == now + WaitAfter(b.attempts, factor, outcome.retryAfter)
         && (d'.state == Pending <==> RetryDue(b, d'.nextDue)) && (d'.state == Exhausted <==> !RetryDue(b, d'.nextDue))
  }

  lemma FinishOutcome(db: AlertDb, id: Id, token: Id, version: nat, outcome: Outcome, factor: real, now: Time)
    ensures
      var r := Finish(db, id, token, version, outcome, factor, now);
      var held, jitter := HoldsClaim(db, id, token, version, now), 0.8 <= factor <= 1.2;
      && (r == Err(StaleDispatch) <==> !held)
      && (r == Err(JitterInvalid) <==> held && outcome.kind == NotAccepted && !jitter)
      && (r.Ok? <==> held && (outcome.kind == NotAccepted ==> jitter))
      && (r.Ok? ==> Recorded(db, r.value, id, outcome, factor, now))
  {
    if HoldsClaim(db, id, token, version, now) {
      WaitIs(db.budgets[db.deliveries[id].session].attempts, factor, outcome.retryAfter);
    }
    hide RetryDelay, WaitAfter;
  }

  // ---------------------------------------------------------------- renewal and reconciliation of ambiguity

  /** A renewal opens a session of 128 attempts in 24 hours beside the old one, which it closes. */
  ghost predicate Renewal(db: AlertDb, db': AlertDb, id: Id, now: Time)
    requires id in db.deliveries && db.deliveries[id].session in db.budgets
  {
    var d := db.deliveries[id];
    && db.nextId in db'.budgets && d.session in db'.budgets && id in db'.deliveries
    && var b := db'.budgets[db.nextId];
    && b.delivery == id && b.human && b.startedAt == now && b.deadline == now + 86_400.0 && b.maxAttempts == 128
    && b.attempts == 0 && b.state == Active
    && db'.deliveries == db.deliveries[id := d.(session := db.nextId, state := Pending, nextDue := now, version := d.version + 1)]
    && db'.budgets == db.budgets[d.session := db.budgets[d.session].(state := Closed(Exhausted))][db.nextId := b]
    && db' == db.(deliveries := db'.deliveries, budgets := db'.budgets, nextId := db.nextId + 1)
  }

  lemma RenewOutcome(db: AlertDb, id: Id, grant: Option<Grant>, expected: nat, reason: string, now: Time)
    ensures
      var r := Renew(db, id, grant, expected, reason, now);
      var known := id in db.deliveries && db.deliveries[id].session in db.budgets;
      && (r == Err(DeliveryNotFound) <==> !known)
      && (known && grant.None? ==> r == Err(Denied))
      && (known && HumanOf(db, db.deliveries[id].dest, grant) ==>
            var d := db.deliveries[id];
            && (r == Err(IntentInvalid) <==> |reason| < 1 || |reason| > 1000)
            && (r == Err(RecoveryConflict) <==> 1 <= |reason| <= 1000 && !(d.state == Exhausted && d.version == expected))
            && (r.Ok? <==> 1 <= |reason| <= 1000 && d.state == Exhausted && d.version == expected))
      && (r.Ok? ==> known && HumanOf(db, db.deliveries[id].dest, grant) && Renewal(db, r.value, id, now))
  {
    if id in db.deliveries { RefusalOutcome(db, db.deliveries[id].dest, grant, true); }
    hide Refusal;
  }

  lemma QueryOutcome(db: AlertDb, id: Id, grant: Option<Grant>, expected: nat, transport: string)
    ensures
      var r := CountQuery(db, id, grant, expected, transport);
      && (r == Err(DeliveryNotFound) <==> id !in db.deliveries)
      && (id in db.deliveries && grant.None? ==> r == Err(Denied))
      && (id in db.deliveries && grant.Some? && db.deliveries[id].dest !in db.dests ==> r == Err(TransportUnproven))
      && (id in db.deliveries && grant.Some? && db.deliveries[id].dest in db.dests ==>
            var d, dest := db.deliveries[id], db.dests[db.deliveries[id].dest];
            && (r == Err(TenantMismatch) <==> dest.tenant != grant.value.tenant)
            && (dest.tenant == grant.value.tenant ==>
                  && (r == Err(TransportUnproven) <==> dest.config.transport != transport)
                  && (dest.config.transport == transport ==>
                        && (r == Err(ReconciliationConflict) <==> !(d.state == Unknown && d.version == expected))
                        && (r == Err(ControlExhausted) <==> d.state == Unknown && d.version == expected && d.queries >= 8)
                        && (r.Ok? <==> d.state == Unknown && d.version == expected && d.queries < 8))))
      && (r.Ok? ==> id in db.deliveries
                    && r.value == db.(deliveries := db.deliveries[id := db.deliveries[id].(queries := db.deliveries[id].queries + 1)]))
  {
    if id in db.deliveries { RefusalOutcome(db, db.deliveries[id].dest, grant, false); }
    hide Refusal;
  }

  /** What an answer settles a delivery to: only a receipt of the provider, or its denial, settles it. */
  ghost predicate SettledBy(db: AlertDb, db': AlertDb, id: Id, answer: Outcome, checkNow: Time, dueNow: Time)
    requires id in db.deliveries && db.deliveries[id].session in db.budgets
  {
    var d, b := db.deliveries[id], db.budgets[db.deliveries[id].session];
    && id in db'.deliveries && d.session in db'.budgets
    && var d', b' := db'.deliveries[id], db'.budgets[d.session];
    && db' == db.(deliveries := db.deliveries[id := d'], budgets := db.budgets[d.session := b'])
    && d' == d.(state := d'.state, version := d.version + 1, nextDue := dueNow, receipt := answer.receipt)
    && b' == b.(state := if d'.state == Pending then Active else Closed(d'.state))
    && (answer.kind == ProviderAccepted ==> d'.state == Accepted)
    && (answer.kind == NotAccepted ==>
          && (d'.state == Pending <==> b.attempts < b.maxAttempts && checkNow + 5.0 < b.deadline)
          && (d'.state == Exhausted <==> !(b.attempts < b.maxAttempts && checkNow + 5.0 < b.deadline)))
  }

  lemma AnswerOutcome(db: AlertDb, id: Id, expected: nat, answer: Option<Outcome>, checkNow: Time, dueNow: Time)
    ensures
      var r := ApplyAnswer(db, id, expected, answer, checkNow, dueNow);
      var definite := && answer.Some?
                      && (answer.value.kind == NotAccepted
                          || (answer.value.kind == ProviderAccepted && answer.value.receipt != "" && |answer.value.receipt| <= 200));
      var asked := && id in db.deliveries && db.deliveries[id].session in db.budgets
                   && db.deliveries[id].state == Unknown && db.deliveries[id].version == expected;
      && (!definite ==> r == Ok(db))
      && (definite ==> (r.Ok? <==> asked) && (!asked ==> r == Err(ReconciliationConflict)))
      && (definite && asked ==> SettledBy(db, r.value, id, answer.value, checkNow, dueNow))
  {
  }
}
