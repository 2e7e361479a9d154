/**
 The alert outbox (tools/operational_alert_outbox.py): its tables, and every committed transaction as a
 function of the tables, of the arguments, and of the clock readings the transaction makes. A refused
 transaction leaves the tables as they were. The configuration hash is the configuration itself.
 */
module AlertModel {
  import opened Common
  import opened Incidents

  type DestRef = string

  datatype DeliveryState = Pending | InFlight | Unknown | Accepted | Paused | Exhausted

  datatype Phase = ProblemPhase | CriticalPhase | RecoveryPhase

  datatype Config = Config(recipient: string, transport: string, secret: string, policy: string, minimum: Severity)

  datatype Destination = Destination(config: Config, tenant: string)

  datatype Payload = Payload(
    incident: Id, episode: nat, phase: Phase, severity: Severity, errorCode: Option<string>, impact: string)

  datatype Delivery = Delivery(
    incident: Id, dest: DestRef, episode: nat, phase: Phase, payload: Payload, config: Config,
    state: DeliveryState, version: nat, totalAttempts: nat, nextDue: Time,
    leaseUntil: Option<Time>, claim: Option<Id>, receipt: string, session: Id, queries: nat)

  /** A budget session is ACTIVE, or carries the delivery state it was closed with. */
  datatype BudgetState = Active | Closed(final: DeliveryState)

  datatype Budget = Budget(
    delivery: Id, human: bool, startedAt: Time, deadline: Time, maxAttempts: nat, attempts: nat, state: BudgetState)

  datatype AlertDb = AlertDb(
    incidents: IncidentDb, dests: map<DestRef, Destination>, receipts: set<(DestRef, int)>,
    deliveries: map<Id, Delivery>, budgets: map<Id, Budget>, nextId: Id)

  /** What the owner's authorization callback granted; its absence is a denial. */
  datatype Grant = Grant(human: bool, tenant: string, policy: string)

  datatype Kind = ProviderAccepted | NotAccepted | Permanent | Ambiguous

  datatype Outcome = Outcome(kind: Kind, receipt: string, retryAfter: int)

  datatype AlertError =
    | Denied | TenantMismatch | HumanRequired | DestinationInvalid | PolicyUnproven | IntentConflict
    | DestinationCapacity | Unconfigured | TransportUnproven | ReconcileLimit | ReceiptCapacity
    | OutboxCapacity | PayloadCapacity | IncidentMissing | StaleDispatch | JitterInvalid
    | DeliveryNotFound | IntentInvalid | RecoveryConflict | ReconciliationConflict | ControlExhausted

  const BUDGET_SECONDS: Time := 86_400.0
  const MAX_ATTEMPTS := 128
  const MAX_QUERIES := 8

  // ---------------------------------------------------------------- authorization and configuration

  function Refusal(db: AlertDb, ref: DestRef, grant: Option<Grant>, human: bool): Option<AlertError> {
    if grant.None? then Some(Denied)
    else if ref in db.dests && db.dests[ref].tenant != grant.value.tenant then Some(TenantMismatch)
    else if human && !grant.value.human then Some(HumanRequired)
    else None
  }

  function Configure(db: AlertDb, ref: DestRef, config: Config, grant: Option<Grant>): Result<AlertDb, AlertError> {
    if config.minimum == Info then Err(DestinationInvalid)
    else if Refusal(db, ref, grant, true).Some? then Err(Refusal(db, ref, grant, true).value)
    else if grant.value.policy != config.policy then Err(PolicyUnproven)
    else if ref in db.dests then
      if db.dests[ref].config == config then Ok(db) else Err(IntentConflict)
    else if |db.dests| >= 32 then Err(DestinationCapacity)
    else Ok(db.(dests := db.dests[ref := Destination(config, grant.value.tenant)]))
  }

  // ---------------------------------------------------------------- enqueueing from the incident history

  /** The lifecycle states an incident's ledger entries went through. */
  function History(ledger: seq<Entry>, id: Id): seq<Lifecycle> {
    if ledger == [] then [] else
      var last := ledger[|ledger| - 1];
      History(ledger[..|ledger| - 1], id) + (if last.incident == id then [last.body.lifecycle] else [])
  }

  /** The SQL window count: entries in RESOLVED whose predecessor, if any, was not. */
  function Closures(states: seq<Lifecycle>): nat {
    if states == [] then 0 else
      var n := |states| - 1;
      Closures(states[..n]) + (if states[n] == Resolved && (n == 0 || states[n - 1] != Resolved) then 1 else 0)
  }

  function EpisodeOf(db: AlertDb, id: Id): nat
    requires id in db.incidents.rows
  {
    Closures(History(db.incidents.ledger, id)) + (if db.incidents.rows[id].lifecycle == Resolved then 0 else 1)
  }

  function PhaseOf(row: Incident): Phase {
    if row.lifecycle == Resolved then RecoveryPhase
    else if row.severity == Critical then CriticalPhase
    else ProblemPhase
  }

  predicate HasDelivery(db: AlertDb, incident: Id, ref: DestRef, episode: nat, phase: Phase) {
    exists d | d in db.deliveries ::
      var x := db.deliveries[d];
      x.incident == incident && x.dest == ref && x.episode == episode && x.phase == phase
  }

  predicate HasSibling(db: AlertDb, incident: Id, ref: DestRef, episode: nat) {
    HasDelivery(db, incident, ref, episode, ProblemPhase) || HasDelivery(db, incident, ref, episode, CriticalPhase)
  }

  /** The incident as it stands asks for no alert: below the minimum, or a recovery nobody was told to expect. */
  predicate Exempt(db: AlertDb, id: Id, ref: DestRef)
    requires id in db.incidents.rows && ref in db.dests
  {
    var row := db.incidents.rows[id];
    if row.lifecycle == Resolved then !HasSibling(db, id, ref, EpisodeOf(db, id))
    else SeverityRank(row.severity) < SeverityRank(db.dests[ref].config.minimum)
  }

  predicate Alerted(db: AlertDb, id: Id, ref: DestRef)
    requires id in db.incidents.rows
  {
    HasDelivery(db, id, ref, EpisodeOf(db, id), PhaseOf(db.incidents.rows[id]))
  }

  function Unaccepted(db: AlertDb): set<Id> {
    set d | d in db.deliveries && db.deliveries[d].state != Accepted
  }

  function UnacceptedFor(db: AlertDb, ref: DestRef): set<Id> {
    set d | d in db.deliveries && db.deliveries[d].state != Accepted && db.deliveries[d].dest == ref
  }

  predicate OutboxFull(db: AlertDb, ref: DestRef) {
    |db.deliveries| >= 4096 || |Unaccepted(db)| >= 1024 || |UnacceptedFor(db, ref)| >= 128
  }

  function PayloadOf(db: AlertDb, id: Id): Payload
    requires id in db.incidents.rows
  {
    var row := db.incidents.rows[id];
    Payload(id, EpisodeOf(db, id), PhaseOf(row), row.severity, row.errorCode, row.impact)
  }

  function NewBudget(delivery: Id, human: bool, now: Time): Budget {
    Budget(delivery, human, now, now + BUDGET_SECONDS, MAX_ATTEMPTS, 0, Active)
  }

  function InsertDelivery(db: AlertDb, id: Id, ref: DestRef, human: bool, now: Time): AlertDb
    requires id in db.incidents.rows && ref in db.dests
  {
    var payload := PayloadOf(db, id);
    var d := Delivery(id, ref, payload.episode, payload.phase, payload, db.dests[ref].config, Pending, 0, 0, now,
                      None, None, "", db.nextId + 1, 0);
    db.(deliveries := db.deliveries[db.nextId := d],
        budgets := db.budgets[db.nextId + 1 := NewBudget(db.nextId, human, now)],
        nextId := db.nextId + 2)
  }

  /** `_enqueue_current`: `bytes` is the length of the encoded payload. */
  function EnqueueCurrent(db: AlertDb, id: Id, ref: DestRef, human: bool, now: Time, bytes: Payload -> nat):
    Result<AlertDb, AlertError>
  {
    if id !in db.incidents.rows || ref !in db.dests then Err(IncidentMissing)
    else if Exempt(db, id, ref) || Alerted(db, id, ref) then Ok(db)
    else if OutboxFull(db, ref) then Err(OutboxCapacity)
    else if bytes(PayloadOf(db, id)) > 4096 then Err(PayloadCapacity)
    else Ok(InsertDelivery(db, id, ref, human, now))
  }

  // ---------------------------------------------------------------- the reconciliation batch

  /** One selected row: an incident and its lowest revision without a receipt. */
  datatype DueRow = DueRow(revision: int, incident: Id)

  function UnreceiptedSet(db: AlertDb, ref: DestRef): set<int> {
    set r | 1 <= r <= |db.incidents.ledger| && (ref, r) !in db.receipts
  }

  function DueRows(db: AlertDb, ref: DestRef): set<DueRow> {
    set r | r in UnreceiptedSet(db, ref)
          && (forall q | q in UnreceiptedSet(db, ref) && At(db.incidents.ledger, q).incident == At(db.incidents.ledger, r).incident :: r <= q)
          && At(db.incidents.ledger, r).incident in db.incidents.rows
        :: DueRow(r, At(db.incidents.ledger, r).incident)
  }

  /** Unresolved incidents first, then by severity, then by revision. */
  predicate RowBefore(rows: map<Id, Incident>, a: DueRow, b: DueRow) {
    if a.incident !in rows || b.incident !in rows then a.revision < b.revision
    else if ResolvedRank(rows[a.incident].lifecycle) != ResolvedRank(rows[b.incident].lifecycle)
    then ResolvedRank(rows[a.incident].lifecycle) < ResolvedRank(rows[b.incident].lifecycle)
    else if SeverityRank(rows[a.incident].severity) != SeverityRank(rows[b.incident].severity)
    then SeverityRank(rows[a.incident].severity) > SeverityRank(rows[b.incident].severity)
    else a.revision < b.revision
  }

  function RowOrder(rows: map<Id, Incident>): (DueRow, DueRow) -> bool {
    (a, b) => RowBefore(rows, a, b)
  }

  /** Distinct rows carry distinct revisions, so the priority order never ties. */
  lemma DueRowsOrdered(db: AlertDb, ref: DestRef)
    ensures StrictTotalOrder(RowOrder(db.incidents.rows), DueRows(db, ref))
  {
    forall x, y | x in DueRows(db, ref) && y in DueRows(db, ref) && x != y
      ensures RowOrder(db.incidents.rows)(x, y) || RowOrder(db.incidents.rows)(y, x)
    {
      assert x.revision != y.revision;
    }
  }

  /** The rows a call processes: the first `limit` due rows in priority order. */
  ghost predicate IsBatch(db: AlertDb, ref: DestRef, limit: nat, batch: seq<DueRow>) {
    exists all: seq<DueRow> ::
      IsListing(RowOrder(db.incidents.rows), all, DueRows(db, ref)) && batch == if |all| <= limit then all else all[..limit]
  }

  function WithReceipt(db: AlertDb, ref: DestRef, r: int): AlertDb {
    db.(receipts := db.receipts + {(ref, r)})
  }

  /** The loop over the selected rows; each row reads the clock for itself. */
  function ProcessRows(db: AlertDb, ref: DestRef, batch: seq<DueRow>, clock: nat -> Time, human: bool, bytes: Payload -> nat):
    Result<AlertDb, AlertError>
    decreases |batch|
  {
    if batch == [] then Ok(db)
    else
      var last := |batch| - 1;
      match ProcessRows(db, ref, batch[..last], clock, human, bytes)
      case Err(e) => Err(e)
      case Ok(db1) =>
        match EnqueueCurrent(db1, batch[last].incident, ref, human, clock(last), bytes)
        case Err(e) => Err(e)
        case Ok(db2) => Ok(WithReceipt(db2, ref, batch[last].revision))
  }

  function Reconcile(db: AlertDb, ref: DestRef, grant: Option<Grant>, limit: int, batch: seq<DueRow>, clock: nat -> Time,
                     bytes: Payload -> nat): Result<AlertDb, AlertError>
  {
    if !(1 <= limit <= 64) then Err(ReconcileLimit)
    else if Refusal(db, ref, grant, false).Some? then Err(Refusal(db, ref, grant, false).value)
    else if ref !in db.dests then Err(Unconfigured)
    else if |db.receipts| + limit > 200_000 then Err(ReceiptCapacity)
    else ProcessRows(db, ref, batch, clock, grant.value.human, bytes)
  }

  // ---------------------------------------------------------------- dispatch: sweep and claim

  function SweptDelivery(budgets: map<Id, Budget>, d: Delivery, now: Time): Delivery {
    if d.state == InFlight && d.leaseUntil.Some? && d.leaseUntil.value <= now then
      d.(state := Unknown, version := d.version + 1, claim := None)
    else if d.state == Pending && d.session in budgets
         && (budgets[d.session].deadline <= now || budgets[d.session].attempts >= budgets[d.session].maxAttempts) then
      d.(state := Exhausted, version := d.version + 1)
    else d
  }

  predicate HeldBy(deliveries: map<Id, Delivery>, sid: Id, state: DeliveryState) {
    exists d | d in deliveries :: deliveries[d].session == sid && deliveries[d].state == state
  }

  /** The four updates that open every dispatch, in the order they run. */
  function Sweep(db: AlertDb, now: Time): AlertDb {
    var swept := map d | d in db.deliveries :: SweptDelivery(db.budgets, db.deliveries[d], now);
    var budgets := map sid | sid in db.budgets ::
                     if HeldBy(swept, sid, Unknown) then db.budgets[sid].(state := Closed(Unknown))
                     else if HeldBy(swept, sid, Exhausted) then db.budgets[sid].(state := Closed(Exhausted))
                     else db.budgets[sid];
    db.(deliveries := swept, budgets := budgets)
  }

  function InFlightAll(db: AlertDb): set<Id> {
    set d | d in db.deliveries && db.deliveries[d].state == InFlight
  }

  function InFlightFor(db: AlertDb, ref: DestRef): set<Id> {
    set d | d in db.deliveries && db.deliveries[d].state == InFlight && db.deliveries[d].dest == ref
  }

  datatype ClaimResult =
    | Refused(error: AlertError) | CapacityPaused | NoEligibleDelivery | FoundExhausted(id: Id)
    | Claimed(id: Id, token: Id, version: nat)

  predicate Eligible(db: AlertDb, id: Id, ref: DestRef, now: Time) {
    && id in db.deliveries && db.deliveries[id].dest == ref && db.deliveries[id].state == Pending
    && db.deliveries[id].nextDue <= now && db.deliveries[id].session in db.budgets
  }

  function Earlier(a: Time, b: Time): Time { if a <= b then a else b }

  /** The two updates of a successful claim. */
  function TakeClaim(db: AlertDb, id: Id, now: Time): AlertDb
    requires id in db.deliveries && db.deliveries[id].session in db.budgets
  {
    var d := db.deliveries[id];
    var b := db.budgets[d.session];
    db.(deliveries := db.deliveries[id := d.(state := InFlight, version := d.version + 1, totalAttempts := d.totalAttempts + 1,
                                             claim := Some(db.nextId), leaseUntil := Some(Earlier(now + 10.0, b.deadline)))],
        budgets := db.budgets[d.session := b.(attempts := b.attempts + 1)],
        nextId := db.nextId + 1)
  }

  /** The update of line 175: the delivery is exhausted, its budget session is left alone. */
  function ExhaustInPlace(db: AlertDb, id: Id): AlertDb
    requires id in db.deliveries
  {
    db.(deliveries := db.deliveries[id := db.deliveries[id].(state := Exhausted, version := db.deliveries[id].version + 1)])
  }

  /** The claim transaction of `send_once`; `preview` was chosen from an earlier read. */
  function Claim(db: AlertDb, ref: DestRef, grant: Option<Grant>, transport: string, preview: Option<Id>, now: Time):
    (AlertDb, ClaimResult)
  {
    if Refusal(db, ref, grant, false).Some? then (db, Refused(Refusal(db, ref, grant, false).value))
    else if ref !in db.dests then (db, Refused(Unconfigured))
    else if transport != db.dests[ref].config.transport then (db, Refused(TransportUnproven))
    else
      var db1 := Sweep(db, now);
      if |InFlightAll(db1)| >= 16 || |InFlightFor(db1, ref)| >= 2 then (db1, CapacityPaused)
      else if preview.None? || !Eligible(db1, preview.value, ref, now) then (db1, NoEligibleDelivery)
      else
        var id := preview.value;
        var d := db1.deliveries[id];
        if d.config != db1.dests[ref].config || db1.budgets[d.session].deadline - now < 5.0
        then (ExhaustInPlace(db1, id), FoundExhausted(id))
        else (TakeClaim(db1, id, now), Claimed(id, db1.nextId, d.version + 1))
  }

  // ---------------------------------------------------------------- dispatch: the outcome

  const AMBIGUOUS := Outcome(Ambiguous, "", 0)

  /** A raised or malformed outcome counts as ambiguous. */
  function Sanitized(raw: Option<Outcome>): Outcome {
    if raw.None? then AMBIGUOUS
    else if !(0 <= raw.value.retryAfter <= 86400) || |raw.value.receipt| > 200
         || (raw.value.kind == ProviderAccepted && raw.value.receipt == "") then AMBIGUOUS
    else raw.value
  }

  /** `BACKOFF[min(attempts - 1, 4)]`; index -1 is the last entry. */
  function Backoff(attempts: nat): Time {
    if attempts == 1 then 5.0 else if attempts == 2 then 15.0 else if attempts == 3 then 60.0
    else if attempts == 4 then 300.0 else 900.0
  }

  function RetryDelay(attempts: nat, factor: real, retryAfter: int): Time {
    Later(Backoff(attempts) * factor, retryAfter as real)
  }

  function OutcomeState(kind: Kind): DeliveryState {
    match kind case ProviderAccepted => Accepted case Permanent => Paused case Ambiguous => Unknown case NotAccepted => Pending
  }

  predicate CurrentClaim(db: AlertDb, id: Id, token: Id, version: nat, now: Time) {
    && id in db.deliveries && db.deliveries[id].session in db.budgets
    && db.deliveries[id].state == InFlight && db.deliveries[id].claim == Some(token)
    && db.deliveries[id].version == version
    && db.deliveries[id].leaseUntil.Some? && db.deliveries[id].leaseUntil.value > now
  }

  function SetState(db: AlertDb, id: Id, state: DeliveryState, due: Time, receipt: string): AlertDb
    requires id in db.deliveries
  {
    var d := db.deliveries[id];
    db.(deliveries := db.deliveries[id := d.(state := state, version := d.version + 1, nextDue := due,
                                             claim := None, leaseUntil := None, receipt := receipt)])
  }

  function CloseBudget(db: AlertDb, sid: Id, state: BudgetState): AlertDb
    requires sid in db.budgets
  {
    db.(budgets := db.budgets[sid := db.budgets[sid].(state := state)])
  }

  /** `_finish`: fenced by state, token, version and lease. */
  function Finish(db: AlertDb, id: Id, token: Id, version: nat, outcome: Outcome, factor: real, now: Time):
    Result<AlertDb, AlertError>
  {
    if !CurrentClaim(db, id, token, version, now) then Err(StaleDispatch)
    else
      var d := db.deliveries[id];
      var b := db.budgets[d.session];
      if outcome.kind == NotAccepted then
        if !(0.8 <= factor <= 1.2) then Err(JitterInvalid)
        else
          var due := now + RetryDelay(b.attempts, factor, outcome.retryAfter);
          if b.attempts >= b.maxAttempts || due + 5.0 >= b.deadline
          then Ok(CloseBudget(SetState(db, id, Exhausted, due, outcome.receipt), d.session, Closed(Exhausted)))
          else Ok(SetState(db, id, Pending, due, outcome.receipt))
      else
        var state := OutcomeState(outcome.kind);
        Ok(CloseBudget(SetState(db, id, state, now, outcome.receipt), d.session, Closed(state)))
  }

  // ---------------------------------------------------------------- renewal and reconciliation of ambiguity

  function RenewBudget(db: AlertDb, id: Id, now: Time): AlertDb
    requires id in db.deliveries && db.deliveries[id].session in db.budgets
  {
    var d := db.deliveries[id];
    db.(budgets := db.budgets[d.session := db.budgets[d.session].(state := Closed(Exhausted))]
                             [db.nextId := NewBudget(id, true, now)],
        deliveries := db.deliveries[id := d.(session := db.nextId, state := Pending, nextDue := now, version := d.version + 1)],
        nextId := db.nextId + 1)
  }

  function Renew(db: AlertDb, id: Id, grant: Option<Grant>, expected: nat, reason: string, now: Time):
    Result<AlertDb, AlertError>
  {
    if id !in db.deliveries || db.deliveries[id].session !in db.budgets then Err(DeliveryNotFound)
    else if Refusal(db, db.deliveries[id].dest, grant, true).Some? then Err(Refusal(db, db.deliveries[id].dest, grant, true).value)
    else if !(1 <= |reason| <= 1000) then Err(IntentInvalid)
    else if db.deliveries[id].state != Exhausted || db.deliveries[id].version != expected then Err(RecoveryConflict)
    else Ok(RenewBudget(db, id, now))
  }

  /** The first transaction of `reconcile_ambiguous_delivery`: count one authoritative query. */
  function CountQuery(db: AlertDb, id: Id, grant: Option<Grant>, expected: nat, transport: string): Result<AlertDb, AlertError> {
    if id !in db.deliveries then Err(DeliveryNotFound)
    else
      var d := db.deliveries[id];
      if Refusal(db, d.dest, grant, false).Some? then Err(Refusal(db, d.dest, grant, false).value)
      else if d.dest !in db.dests || db.dests[d.dest].config.transport != transport then Err(TransportUnproven)
      else if d.state != Unknown || d.version != expected then Err(ReconciliationConflict)
      else if d.queries >= MAX_QUERIES then Err(ControlExhausted)
      else Ok(db.(deliveries := db.deliveries[id := d.(queries := d.queries + 1)]))
  }

  /** Only a definite answer settles an ambiguous delivery. */
  predicate Definite(answer: Option<Outcome>) {
    && answer.Some?
    && (answer.value.kind == NotAccepted
        || (answer.value.kind == ProviderAccepted && 1 <= |answer.value.receipt| <= 200))
  }

  function SettledState(b: Budget, kind: Kind, now: Time): DeliveryState {
    if kind == ProviderAccepted then Accepted
    else if b.attempts < b.maxAttempts && now + 5.0 < b.deadline then Pending
    else Exhausted
  }

  function Settle(db: AlertDb, id: Id, state: DeliveryState, due: Time, receipt: string): AlertDb
    requires id in db.deliveries && db.deliveries[id].session in db.budgets
  {
    var d := db.deliveries[id];
    CloseBudget(db.(deliveries := db.deliveries[id := d.(state := state, version := d.version + 1, nextDue := due, receipt := receipt)]),
                d.session, if state == Pending then Active else Closed(state))
  }

  /** Its last transaction: the clock is read once for the deadline and once for the due time. */
  function ApplyAnswer(db: AlertDb, id: Id, expected: nat, answer: Option<Outcome>, checkNow: Time, dueNow: Time):
    Result<AlertDb, AlertError>
  {
    if !Definite(answer) then Ok(db)
    else if id !in db.deliveries || db.deliveries[id].session !in db.budgets
         || db.deliveries[id].state != Unknown || db.deliveries[id].version != expected then Err(ReconciliationConflict)
    else
      var b := db.budgets[db.deliveries[id].session];
      Ok(Settle(db, id, SettledState(b, answer.value.kind, checkNow), dueNow, answer.value.receipt))
  }

  // ---------------------------------------------------------------- transactions as data

  datatype Tx =
    | ConfigureTx(ref: DestRef, config: Config, grant: Option<Grant>)
    | IncidentTx(update: Update, now: Time)
    | ReconcileTx(ref: DestRef, grant: Option<Grant>, limit: int, batch: seq<DueRow>, clock: nat -> Time, bytes: Payload -> nat)
    | ClaimTx(ref: DestRef, grant: Option<Grant>, transport: string, preview: Option<Id>, now: Time)
    | FinishTx(id: Id, token: Id, version: nat, outcome: Outcome, factor: real, now: Time)
    | RenewTx(id: Id, grant: Option<Grant>, expected: nat, reason: string, now: Time)
    | QueryTx(id: Id, grant: Option<Grant>, expected: nat, transport: string)
    | AnswerTx(id: Id, expected: nat, answer: Option<Outcome>, checkNow: Time, dueNow: Time)

  /** The batch a reconciliation processes is the one its query selects. */
  ghost predicate Admissible(db: AlertDb, tx: Tx) {
    tx.ReconcileTx? && 1 <= tx.limit <= 64 ==> IsBatch(db, tx.ref, tx.limit, tx.batch)
  }

  function Kept(db: AlertDb, r: Result<AlertDb, AlertError>): AlertDb {
    if r.Ok? then r.value else db
  }

  ghost function ExecTx(db: AlertDb, tx: Tx): AlertDb {
    match tx
    case ConfigureTx(ref, config, grant) => Kept(db, Configure(db, ref, config, grant))
    case IncidentTx(update, now) => db.(incidents := Apply(db.incidents, update, now))
    case ReconcileTx(ref, grant, limit, batch, clock, bytes) => Kept(db, Reconcile(db, ref, grant, limit, batch, clock, bytes))
    case ClaimTx(ref, grant, transport, preview, now) => Claim(db, ref, grant, transport, preview, now).0
    case FinishTx(id, token, version, outcome, factor, now) => Kept(db, Finish(db, id, token, version, outcome, factor, now))
    case RenewTx(id, grant, expected, reason, now) => Kept(db, Renew(db, id, grant, expected, reason, now))
    case QueryTx(id, grant, expected, transport) => Kept(db, CountQuery(db, id, grant, expected, transport))
    case AnswerTx(id, expected, answer, checkNow, dueNow) => Kept(db, ApplyAnswer(db, id, expected, answer, checkNow, dueNow))
  }

  /** The tables after a run of transactions from `db`. */
  ghost function RunTx(db: AlertDb, txs: seq<Tx>): AlertDb
    decreases |txs|
  {
    if txs == [] then db else ExecTx(RunTx(db, txs[..|txs| - 1]), txs[|txs| - 1])
  }

  ghost predicate LegalTx(db: AlertDb, txs: seq<Tx>)
    decreases |txs|
  {
    txs == [] ||
    (LegalTx(db, txs[..|txs| - 1]) && Admissible(RunTx(db, txs[..|txs| - 1]), txs[|txs| - 1]))
  }

  /** An outbox over an incident store, before any destination is configured. */
  function EmptyOutbox(incidents: IncidentDb): AlertDb {
    AlertDb(incidents, map[], {}, map[], map[], 0)
  }
}
