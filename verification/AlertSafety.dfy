/**
 At-most-once acceptance. The outbox's tables, the attempts its workers have under way, the provider that may or may
 not accept each of them, and the queries put to that provider, as one state machine: claim, acceptance, return and
 finish of one attempt are separate steps that anything else may interleave with, or that a crash may leave undone.
 */
module AlertSafety {
  import opened Common
  import opened Incidents
  import opened AlertModel
  import opened AlertProtocol
  import opened AlertBudgets

  /** One call of the transport, named by the claim token it was made under. `returned` holds None for a raised error. */
  datatype Attempt = Attempt(
    delivery: Id, version: nat, claimedAt: Time, lease: Time, returned: Option<Option<Outcome>>, accepted: bool)

  /** One authoritative read, made for the delivery as it stood at `version`. */
  datatype Query = Query(delivery: Id, version: nat, answer: Option<Option<Outcome>>)

  datatype Event = Sent(delivery: Id) | NotAcceptedProof(delivery: Id)

  datatype World = World(
    db: AlertDb, clock: Time, attempts: map<Id, Attempt>, queries: map<Id, Query>, nextQuery: Id, log: seq<Event>)

  datatype Step =
    | Tick(delta: Time)
    | Admin(tx: Tx)
    | ClaimStep(ref: DestRef, grant: Option<Grant>, transport: string, preview: Option<Id>, now: Time)
    | ProviderAccepts(token: Id)
    | SendReturns(token: Id, raw: Option<Outcome>)
    | FinishStep(token: Id, factor: real, now: Time)
    | Ask(id: Id, grant: Option<Grant>, expected: nat, transport: string)
    | Answered(query: Id, answer: Option<Outcome>)
    | SettleStep(query: Id, checkNow: Time, dueNow: Time)

  predicate DeniesAcceptance(raw: Option<Outcome>) {
    raw.Some? && raw.value.kind == NotAccepted
  }

  /** An answered denial of the delivery covers the attempts made before the delivery stood as the query found it. */
  predicate Covers(q: Query, a: Attempt) {
    q.delivery == a.delivery && a.version < q.version && q.answer.Some? && DeniesAcceptance(q.answer.value)
  }

  /** The provider has said of this attempt that it was not accepted: by what the send returned, or to a query. */
  ghost predicate Disclaimed(w: World, t: Id)
    requires t in w.attempts
  {
    || (w.attempts[t].returned.Some? && DeniesAcceptance(w.attempts[t].returned.value))
    || exists q | q in w.queries :: Covers(w.queries[q], w.attempts[t])
  }

  /**
   What the world may do. An attempt may be accepted at any time after its claim, once: while its call runs, after the
   call raised or came back, after its lease. A denial, from the send or from a query, is true when it is given.
   */
  ghost predicate Allowed(w: World, s: Step) {
    match s
    case Tick(delta) => delta >= 0.0
    case Admin(tx) => tx.ConfigureTx? || tx.IncidentTx? || tx.ReconcileTx? || tx.RenewTx?
    case ClaimStep(_, _, _, _, _) => true
    case ProviderAccepts(token) => token in w.attempts && !w.attempts[token].accepted
    case SendReturns(token, raw) =>
      token in w.attempts && w.attempts[token].returned.None? && (DeniesAcceptance(raw) ==> !w.attempts[token].accepted)
    case FinishStep(token, _, _) => token in w.attempts && w.attempts[token].returned.Some?
    case Ask(_, _, _, _) => true
    case Answered(query, answer) =>
      && query in w.queries && w.queries[query].answer.None?
      && (forall t | t in w.attempts && Covers(w.queries[query].(answer := Some(answer)), w.attempts[t]) :: !w.attempts[t].accepted)
    case SettleStep(query, _, _) => query in w.queries && w.queries[query].answer.Some?
  }

  /** The attempt a claim starts: it holds the claim's lease. */
  function Started(db: AlertDb, id: Id, version: nat, now: Time): Attempt {
    Attempt(id, version, now, if id in db.deliveries && db.deliveries[id].leaseUntil.Some? then db.deliveries[id].leaseUntil.value else now,
            None, false)
  }

  ghost function Do(w: World, s: Step): World
    requires Allowed(w, s)
  {
    match s
    case Tick(delta) => w.(clock := w.clock + delta)
    case Admin(tx) => w.(db := ExecTx(w.db, tx))
    case ClaimStep(ref, grant, transport, preview, now) =>
      var (db', result) := Claim(w.db, ref, grant, transport, preview, now);
      if result.Claimed?
      then w.(db := db', attempts := w.attempts[result.token := Started(db', result.id, result.version, now)],
              log := w.log + [Sent(result.id)])
      else w.(db := db')
    case ProviderAccepts(token) => w.(attempts := w.attempts[token := w.attempts[token].(accepted := true)])
    case SendReturns(token, raw) => w.(attempts := w.attempts[token := w.attempts[token].(returned := Some(raw))])
    case FinishStep(token, factor, now) =>
      var a := w.attempts[token];
      var outcome := Sanitized(a.returned.value);
      var r := Finish(w.db, a.delivery, token, a.version, outcome, factor, now);
      if r.Ok? then w.(db := r.value, log := if outcome.kind == NotAccepted then w.log + [NotAcceptedProof(a.delivery)] else w.log)
      else w
    case Ask(id, grant, expected, transport) =>
      var r := CountQuery(w.db, id, grant, expected, transport);
      if r.Ok? then w.(db := r.value, queries := w.queries[w.nextQuery := Query(id, expected, None)], nextQuery := w.nextQuery + 1)
      else w
    case Answered(query, answer) => w.(queries := w.queries[query := w.queries[query].(answer := Some(answer))])
    case SettleStep(query, checkNow, dueNow) =>
      var q := w.queries[query];
      var r := ApplyAnswer(w.db, q.delivery, q.version, q.answer.value, checkNow, dueNow);
      if r.Ok? && Definite(q.answer.value)
      then w.(db := r.value, log := if DeniesAcceptance(q.answer.value) then w.log + [NotAcceptedProof(q.delivery)] else w.log)
      else w
  }

  ghost predicate Runs(w: World, steps: seq<Step>)
    decreases |steps|, 0
  {
    steps == [] || (Runs(w, steps[..|steps| - 1]) && Allowed(Final(w, steps[..|steps| - 1]), steps[|steps| - 1]))
  }

  ghost function Final(w: World, steps: seq<Step>): World
    requires Runs(w, steps)
    decreases |steps|, 1
  {
    if steps == [] then w else Do(Final(w, steps[..|steps| - 1]), steps[|steps| - 1])
  }

  /** Denials are final: no step of the run accepts an attempt that has been denied. */
  ghost predicate DenialsHold(w: World, steps: seq<Step>)
    requires Runs(w, steps)
    decreases |steps|
  {
    steps == [] ||
    var n := |steps| - 1;
    DenialsHold(w, steps[..n]) && (steps[n].ProviderAccepts? ==> !Disclaimed(Final(w, steps[..n]), steps[n].token))
  }

  function Start(incidents: IncidentDb, clock: Time): World {
    World(EmptyOutbox(incidents), clock, map[], map[], 0, [])
  }

  // ---------------------------------------------------------------- the claims about a world

  ghost predicate AcceptedAtMostOnce(w: World) {
    forall s, t | s in w.attempts && t in w.attempts && w.attempts[s].accepted && w.attempts[t].accepted
                  && w.attempts[s].delivery == w.attempts[t].delivery :: s == t
  }

  /** Between any two sends of one delivery lies a proof that it had not been accepted. */
  ghost predicate SendsSeparated(log: seq<Event>) {
    forall i, j | 0 <= i < j < |log| && log[i].Sent? && log[j] == log[i] ::
      exists k :: i < k < j && log[k] == NotAcceptedProof(log[i].delivery)
  }

  // ---------------------------------------------------------------- the invariant

  ghost predicate AttemptOk(w: World, t: Id)
    requires t in w.attempts
  {
    var a := w.attempts[t];
    && t < w.db.nextId && a.delivery in w.db.deliveries
    && a.claimedAt + 5.0 <= a.lease <= a.claimedAt + 10.0
    && (a.version < w.db.deliveries[a.delivery].version || Current(w, a.delivery, t))
  }

  ghost predicate Current(w: World, id: Id, t: Id)
    requires id in w.db.deliveries
  {
    && t in w.attempts && w.db.deliveries[id].state == InFlight && w.db.deliveries[id].claim == Some(t)
    && w.attempts[t].delivery == id && w.attempts[t].version == w.db.deliveries[id].version
    && w.db.deliveries[id].leaseUntil == Some(w.attempts[t].lease)
  }

  predicate Settled(state: DeliveryState) {
    state == Pending || state == Exhausted
  }

  /** At most one attempt of a delivery is undenied, and none is when the delivery may be sent again. */
  ghost predicate AttemptsAgree(w: World, id: Id)
    requires id in w.db.deliveries
  {
    var d := w.db.deliveries[id];
    && (d.state == InFlight ==> d.claim.Some? && Current(w, id, d.claim.value))
    && (forall t | t in w.attempts && w.attempts[t].delivery == id ::
          Settled(d.state) || (d.state == InFlight && d.claim != Some(t)) ==> Disclaimed(w, t))
    && (forall s, t | s in w.attempts && t in w.attempts && w.attempts[s].delivery == id && w.attempts[t].delivery == id
                      && !Disclaimed(w, s) && !Disclaimed(w, t) :: s == t)
  }

  ghost predicate Proven(log: seq<Event>, id: Id) {
    forall i | 0 <= i < |log| && log[i] == Sent(id) :: exists k :: i < k < |log| && log[k] == NotAcceptedProof(id)
  }

  ghost predicate LogAgrees(w: World, id: Id)
    requires id in w.db.deliveries
  {
    Settled(w.db.deliveries[id].state) ==> Proven(w.log, id)
  }

  ghost predicate QueryOk(w: World, q: Id)
    requires q in w.queries
  {
    var x := w.queries[q];
    x.delivery in w.db.deliveries && x.version <= w.db.deliveries[x.delivery].version
  }

  ghost predicate LogKnown(w: World) {
    forall i | 0 <= i < |w.log| :: w.log[i].delivery in w.db.deliveries
  }

  ghost predicate AllAttempts(w: World) {
    forall t | t in w.attempts :: AttemptOk(w, t)
  }

  ghost predicate AllDeliveries(w: World) {
    forall id | id in w.db.deliveries :: AttemptsAgree(w, id) && LogAgrees(w, id)
  }

  ghost predicate AllQueries(w: World) {
    forall q | q in w.queries :: q < w.nextQuery && QueryOk(w, q)
  }

  ghost predicate Inv(w: World) {
    Books(w.db) && AllAttempts(w) && AllDeliveries(w) && AllQueries(w) && LogKnown(w) && SendsSeparated(w.log)
  }

  // ---------------------------------------------------------------- changes of the tables alone

  /** How a step may move one delivery while the attempts stay as they are. */
  ghost predicate Moves(w: World, db': AlertDb, id: Id)
    requires id in w.db.deliveries && id in db'.deliveries
  {
    var d, d' := w.db.deliveries[id], db'.deliveries[id];
    if d'.version == d.version then
      d'.state == d.state && d'.claim == d.claim && d'.leaseUntil == d.leaseUntil
    else
      && d.version < d'.version && d'.state != InFlight
      && (Settled(d'.state) ==> Settled(d.state))
  }

  ghost predicate TablesMove(w: World, db': AlertDb) {
    && w.db.nextId <= db'.nextId
    && (forall id | id in w.db.deliveries :: id in db'.deliveries && Moves(w, db', id))
    && (forall id | id in db'.deliveries && id !in w.db.deliveries :: db'.deliveries[id].state == Pending)
  }

  lemma MoveKeepsAgreement(w: World, db': AlertDb, id: Id)
    requires id in w.db.deliveries && id in db'.deliveries && AttemptsAgree(w, id) && Moves(w, db', id)
    ensures AttemptsAgree(w.(db := db'), id)
  {
    SameDenied(w, w.(db := db'));
    hide Disclaimed;
  }

  /** Denial is a matter of the attempts and the queries alone. */
  lemma SameDenied(w: World, w': World)
    requires w'.attempts == w.attempts && w'.queries == w.queries
    ensures forall t | t in w.attempts :: Disclaimed(w', t) <==> Disclaimed(w, t)
  {
  }

  lemma NewKeepsAgreement(w: World, db': AlertDb, id: Id)
    requires id !in w.db.deliveries && id in db'.deliveries && db'.deliveries[id].state == Pending && LogKnown(w)
    requires forall t | t in w.attempts :: w.attempts[t].delivery in w.db.deliveries
    ensures AttemptsAgree(w.(db := db'), id) && LogAgrees(w.(db := db'), id)
  {
  }

  lemma TablesKeepDeliveries(w: World, db': AlertDb)
    requires AllDeliveries(w) && AllAttempts(w) && LogKnown(w) && TablesMove(w, db')
    ensures AllDeliveries(w.(db := db'))
  {
    var w' := w.(db := db');
    assert forall t | t in w.attempts :: AttemptOk(w, t);
    hide AllAttempts, AttemptsAgree, Proven;
    forall id | id in w'.db.deliveries ensures AttemptsAgree(w', id) && LogAgrees(w', id) {
      if id in w.db.deliveries {
        assert AttemptsAgree(w, id) && LogAgrees(w, id);
        MoveKeepsAgreement(w, db', id);
      } else {
        NewKeepsAgreement(w, db', id);
      }
    }
  }

  lemma TablesKeepRest(w: World, db': AlertDb)
    requires AllAttempts(w) && AllQueries(w) && LogKnown(w) && TablesMove(w, db')
    ensures AllAttempts(w.(db := db')) && AllQueries(w.(db := db')) && LogKnown(w.(db := db'))
  {
    var w' := w.(db := db');
    forall t | t in w'.attempts ensures AttemptOk(w', t) {
      assert AttemptOk(w, t);
      assert Moves(w, db', w.attempts[t].delivery);
    }
    hide AllAttempts;
    forall q | q in w'.queries ensures q < w'.nextQuery && QueryOk(w', q) {
      assert QueryOk(w, q);
      assert Moves(w, db', w.queries[q].delivery);
    }
  }

  lemma TablesKeepInv(w: World, db': AlertDb)
    requires Inv(w) && TablesMove(w, db') && Books(db')
    ensures Inv(w.(db := db'))
  {
    TablesKeepDeliveries(w, db');
    TablesKeepRest(w, db');
    hide Books, AllAttempts, AllDeliveries, AllQueries, SendsSeparated, TablesMove, LogKnown;
  }

  lemma SameTablesMove(w: World, db': AlertDb)
    requires db'.deliveries == w.db.deliveries && db'.nextId == w.db.nextId
    ensures TablesMove(w, db')
  {
  }

  lemma SweptLocally(budgets: map<Id, Budget>, d: Delivery, now: Time)
    ensures
      var d' := SweptDelivery(budgets, d, now);
      || d' == d
      || (d'.version == d.version + 1 && d'.state == Unknown && d.state == InFlight && d.leaseUntil.Some? && d.leaseUntil.value <= now)
      || (d'.version == d.version + 1 && d'.state == Exhausted && d.state == Pending)
  {
  }

  lemma SweptMoves(w: World, now: Time, id: Id)
    requires id in w.db.deliveries
    ensures id in Sweep(w.db, now).deliveries && Moves(w, Sweep(w.db, now), id)
  {
    SweepIds(w.db, now);
    SweptLocally(w.db.budgets, w.db.deliveries[id], now);
    hide Sweep, SweptDelivery;
  }

  lemma SweepMoves(w: World, now: Time)
    requires Books(w.db)
    ensures TablesMove(w, Sweep(w.db, now)) && Books(Sweep(w.db, now))
  {
    SweepIds(w.db, now);
    SweepKeepsBooks(w.db, now);
    BooksShape(w.db);
    hide Sweep, Moves, Books, Shape;
    forall id | id in w.db.deliveries ensures Moves(w, Sweep(w.db, now), id) {
      SweptMoves(w, now, id);
    }
  }

  lemma GrowthMoves(w: World, db': AlertDb)
    requires Grows(w.db, db') && w.db.nextId <= db'.nextId
    requires forall id | id in db'.deliveries && id !in w.db.deliveries :: db'.deliveries[id].state == Pending
    ensures TablesMove(w, db')
  {
    forall id | id in w.db.deliveries ensures id in db'.deliveries && Moves(w, db', id) {
      assert Untouched(w.db, db', id);
    }
  }

  lemma {:induction false} ProcessAddsPending(db: AlertDb, ref: DestRef, batch: seq<DueRow>, clock: nat -> Time, human: bool,
                                              bytes: Payload -> nat)
    requires Books(db) && ProcessRows(db, ref, batch, clock, human, bytes).Ok?
    ensures
      var db' := ProcessRows(db, ref, batch, clock, human, bytes).value;
      && db.nextId <= db'.nextId
      && forall id | id in db'.deliveries && id !in db.deliveries :: db'.deliveries[id].state == Pending
    decreases |batch|
  {
    if batch != [] {
      hide Books, EnqueueCurrent;
      var last := |batch| - 1;
      ProcessAddsPending(db, ref, batch[..last], clock, human, bytes);
      EnqueueAddsPending(ProcessRows(db, ref, batch[..last], clock, human, bytes).value, batch[last].incident, ref, human, clock(last), bytes);
    }
  }

  lemma EnqueueAddsPending(db: AlertDb, incident: Id, ref: DestRef, human: bool, now: Time, bytes: Payload -> nat)
    requires EnqueueCurrent(db, incident, ref, human, now, bytes).Ok?
    ensures
      var db' := EnqueueCurrent(db, incident, ref, human, now, bytes).value;
      && db.nextId <= db'.nextId
      && forall id | id in db'.deliveries && id !in db.deliveries :: db'.deliveries[id].state == Pending
  {
    hide Exempt, Alerted, OutboxFull, EpisodeOf;
  }

  lemma RenewMoves(w: World, id: Id, now: Time)
    requires id in w.db.deliveries && w.db.deliveries[id].session in w.db.budgets && w.db.deliveries[id].state == Exhausted
    ensures TablesMove(w, RenewBudget(w.db, id, now))
  {
  }

  lemma AdminKeepsInv(w: World, tx: Tx)
    requires Inv(w) && Allowed(w, Admin(tx))
    ensures Inv(Do(w, Admin(tx)))
  {
    var db' := ExecTx(w.db, tx);
    InvBooks(w);
    TxKeepsBooks(w.db, tx);
    SameTablesMove(w, w.db);
    hide Inv, Books, TablesMove, ProcessRows, Apply, Renew, Configure, Grows;
    match tx {
      case ConfigureTx(ref, config, grant) => ConfigureTables(w.db, ref, config, grant); SameTablesMove(w, db');
      case IncidentTx(update, now) => SameTablesMove(w, db');
      case ReconcileTx(ref, grant, limit, batch, clock, bytes) =>
        if Reconcile(w.db, ref, grant, limit, batch, clock, bytes).Ok? {
          ProcessGrows(w.db, ref, batch, clock, grant.value.human, bytes);
          ProcessAddsPending(w.db, ref, batch, clock, grant.value.human, bytes);
          GrowthMoves(w, db');
        }
      case RenewTx(id, grant, expected, reason, now) =>
        RenewTables(w, id, grant, expected, reason, now);
    }
    TablesKeepInv(w, db');
  }

  lemma RenewTables(w: World, id: Id, grant: Option<Grant>, expected: nat, reason: string, now: Time)
    ensures TablesMove(w, Kept(w.db, Renew(w.db, id, grant, expected, reason, now)))
  {
    SameTablesMove(w, w.db);
    if Renew(w.db, id, grant, expected, reason, now).Ok? {
      hide TablesMove, RenewBudget;
      RenewMoves(w, id, now);
    }
  }

  lemma ConfigureTables(db: AlertDb, ref: DestRef, config: Config, grant: Option<Grant>)
    ensures Kept(db, Configure(db, ref, config, grant)).deliveries == db.deliveries
    ensures Kept(db, Configure(db, ref, config, grant)).nextId == db.nextId
  {
  }

  lemma InvBooks(w: World)
    requires Inv(w)
    ensures Books(w.db) && Shape(w.db)
  {
  }

  // ---------------------------------------------------------------- claiming

  lemma ProvenAppend(log: seq<Event>, e: Event, id: Id)
    requires Proven(log, id) && (e.NotAcceptedProof? || e.delivery != id)
    ensures Proven(log + [e], id)
  {
    var log' := log + [e];
    forall i | 0 <= i < |log'| && log'[i] == Sent(id) ensures exists k :: i < k < |log'| && log'[k] == NotAcceptedProof(id) {
      var k :| i < k < |log| && log[k] == NotAcceptedProof(id);
      assert log'[k] == NotAcceptedProof(id);
    }
  }

  lemma ProofProves(log: seq<Event>, id: Id)
    ensures Proven(log + [NotAcceptedProof(id)], id)
  {
    var log' := log + [NotAcceptedProof(id)];
    assert log'[|log|] == NotAcceptedProof(id);
  }

  lemma SeparatedAppend(log: seq<Event>, e: Event)
    requires SendsSeparated(log) && (e.Sent? ==> Proven(log, e.delivery))
    ensures SendsSeparated(log + [e])
  {
    var log' := log + [e];
    forall i, j | 0 <= i < j < |log'| && log'[i].Sent? && log'[j] == log'[i]
      ensures exists k :: i < k < j && log'[k] == NotAcceptedProof(log'[i].delivery)
    {
      assert log[i] == log'[i];
      if j < |log| { assert log[j] == log[i]; }
      var k :| i < k < j && log[k] == NotAcceptedProof(log[i].delivery);
      assert log'[k] == log[k];
    }
  }

  /** A claim on a pending delivery starts an attempt of its own. */
  ghost predicate Took(w: World, w': World, id: Id) {
    var token := w.db.nextId;
    && id in w.db.deliveries && w.db.deliveries[id].state == Pending
    && w'.db.deliveries.Keys == w.db.deliveries.Keys && w'.db.nextId == token + 1
    && (forall i | i in w.db.deliveries && i != id :: w'.db.deliveries[i] == w.db.deliveries[i])
    && w'.db.deliveries[id].state == InFlight && w'.db.deliveries[id].version == w.db.deliveries[id].version + 1
    && token in w'.attempts && w'.attempts == w.attempts[token := w'.attempts[token]] && Current(w', id, token)
    && !w'.attempts[token].accepted && w'.attempts[token].returned.None?
    && w'.attempts[token].claimedAt + 5.0 <= w'.attempts[token].lease <= w'.attempts[token].claimedAt + 10.0
    && w'.clock == w.clock && w'.queries == w.queries && w'.nextQuery == w.nextQuery && w'.log == w.log + [Sent(id)]
  }

  lemma TokenIsNew(w: World)
    requires AllAttempts(w)
    ensures w.db.nextId !in w.attempts
  {
    assert forall t | t in w.attempts :: AttemptOk(w, t);
  }

  lemma TookAttempts(w: World, w': World, id: Id)
    requires AllAttempts(w) && Took(w, w', id)
    ensures AllAttempts(w')
  {
    TokenIsNew(w);
    forall t | t in w'.attempts ensures AttemptOk(w', t) {
      assert t in w.attempts ==> AttemptOk(w, t);
    }
  }

  lemma TookDelivery(w: World, w': World, id: Id, i: Id)
    requires Took(w, w', id) && w.db.nextId !in w.attempts
    requires i in w.db.deliveries && AttemptsAgree(w, i) && LogAgrees(w, i) && AttemptsAgree(w, id)
    ensures AttemptsAgree(w', i) && LogAgrees(w', i)
  {
    ClaimAgreement(w, w', i, id, w.db.nextId, w'.attempts[w.db.nextId]);
    hide AttemptsAgree, Proven;
    if i != id && Settled(w.db.deliveries[i].state) {
      ProvenAppend(w.log, Sent(id), i);
    }
  }

  lemma TookDeliveries(w: World, w': World, id: Id)
    requires AllDeliveries(w) && AllAttempts(w) && Took(w, w', id)
    ensures AllDeliveries(w')
  {
    TokenIsNew(w);
    hide AttemptsAgree, LogAgrees, AllAttempts;
    forall i | i in w'.db.deliveries ensures AttemptsAgree(w', i) && LogAgrees(w', i) {
      TookDelivery(w, w', id, i);
    }
  }

  lemma TookQueries(w: World, w': World, id: Id)
    requires AllQueries(w) && AllAttempts(w) && Took(w, w', id)
    ensures AllQueries(w')
  {
    TokenIsNew(w);
    hide AllAttempts;
    forall q | q in w'.queries ensures q < w'.nextQuery && QueryOk(w', q) {
      assert QueryOk(w, q);
    }
  }

  lemma TookLog(w: World, w': World, id: Id)
    requires AllDeliveries(w) && LogKnown(w) && SendsSeparated(w.log) && Took(w, w', id)
    ensures LogKnown(w') && SendsSeparated(w'.log)
  {
    assert LogAgrees(w, id);
    SeparatedAppend(w.log, Sent(id));
    hide SendsSeparated, AllDeliveries;
  }

  lemma TookKeepsInv(w: World, w': World, id: Id)
    requires Inv(w) && Took(w, w', id) && Books(w'.db)
    ensures Inv(w')
  {
    hide Books, AllAttempts, AllDeliveries, AllQueries, LogKnown, SendsSeparated, Took;
    TookAttempts(w, w', id);
    TookDeliveries(w, w', id);
    TookQueries(w, w', id);
    TookLog(w, w', id);
  }

  lemma TakeClaimTook(w: World, id: Id, now: Time)
    requires id in w.db.deliveries && w.db.deliveries[id].session in w.db.budgets && w.db.deliveries[id].state == Pending
    requires w.db.budgets[w.db.deliveries[id].session].deadline - now >= 5.0
    ensures
      var db' := TakeClaim(w.db, id, now);
      Took(w, w.(db := db', attempts := w.attempts[w.db.nextId := Started(db', id, w.db.deliveries[id].version + 1, now)],
                 log := w.log + [Sent(id)]), id)
  {
  }

  lemma ClaimAgreement(w: World, w': World, i: Id, id: Id, token: Id, a: Attempt)
    requires i in w.db.deliveries && id in w.db.deliveries && AttemptsAgree(w, i) && AttemptsAgree(w, id)
    requires w.db.deliveries[id].state == Pending && token !in w.attempts && w'.attempts == w.attempts[token := a]
    requires a.delivery == id && w'.queries == w.queries
    requires i in w'.db.deliveries && (i != id ==> w'.db.deliveries[i] == w.db.deliveries[i])
    requires id in w'.db.deliveries && w'.db.deliveries[id].state == InFlight && Current(w', id, token)
    ensures AttemptsAgree(w', i)
  {
    forall t | t in w.attempts ensures t in w'.attempts && (Disclaimed(w', t) <==> Disclaimed(w, t)) {
    }
    hide Disclaimed;
  }

  /** What a claim step does to the world, by the claim's result. */
  lemma ClaimDo(w: World, s: Step, after: AlertDb, result: ClaimResult)
    requires s.ClaimStep? && Allowed(w, s) && (after, result) == Claim(w.db, s.ref, s.grant, s.transport, s.preview, s.now)
    ensures result.Claimed? ==>
              Do(w, s) == w.(db := after, attempts := w.attempts[result.token := Started(after, result.id, result.version, s.now)],
                             log := w.log + [Sent(result.id)])
    ensures !result.Claimed? ==> Do(w, s) == w.(db := after)
  {
    hide Claim, Started;
  }

  lemma ClaimKeepsInv(w: World, s: Step)
    requires Inv(w) && s.ClaimStep? && Allowed(w, s)
    ensures Inv(Do(w, s))
  {
    hide *;
    InvBooks(w);
    var (after, result) := Claim(w.db, s.ref, s.grant, s.transport, s.preview, s.now);
    ClaimCases(w.db, s.ref, s.grant, s.transport, s.preview, s.now);
    ClaimKeepsBooks(w.db, s.ref, s.grant, s.transport, s.preview, s.now);
    ClaimDo(w, s, after, result);
    if result.Claimed? {
      ClaimedKeepsInv(w, s.now, after, result);
    } else {
      UnclaimedKeepsInv(w, s.now, after, result);
    }
  }

  lemma SweptInv(w: World, now: Time)
    requires Inv(w) && Books(w.db)
    ensures Inv(w.(db := Sweep(w.db, now)))
  {
    hide *;
    SweepMoves(w, now);
    TablesKeepInv(w, Sweep(w.db, now));
  }

  lemma FoundExhaustedKeepsInv(w: World, id: Id)
    requires Inv(w) && id in w.db.deliveries && w.db.deliveries[id].state == Pending && Books(ExhaustInPlace(w.db, id))
    ensures Inv(w.(db := ExhaustInPlace(w.db, id)))
  {
    hide *;
    ExhaustMoves(w, id);
    TablesKeepInv(w, ExhaustInPlace(w.db, id));
  }

  lemma TakeClaimKeepsInv(w: World, id: Id, now: Time)
    requires Inv(w) && id in w.db.deliveries && w.db.deliveries[id].session in w.db.budgets && w.db.deliveries[id].state == Pending
    requires Books(TakeClaim(w.db, id, now)) && w.db.budgets[w.db.deliveries[id].session].deadline - now >= 5.0
    ensures
      Inv(w.(db := TakeClaim(w.db, id, now),
             attempts := w.attempts[w.db.nextId := Started(TakeClaim(w.db, id, now), id, w.db.deliveries[id].version + 1, now)],
             log := w.log + [Sent(id)]))
  {
    hide *;
    TakeClaimTook(w, id, now);
    TookKeepsInv(w, w.(db := TakeClaim(w.db, id, now),
                       attempts := w.attempts[w.db.nextId := Started(TakeClaim(w.db, id, now), id, w.db.deliveries[id].version + 1, now)],
                       log := w.log + [Sent(id)]), id);
  }

  lemma ClaimedKeepsInv(w: World, now: Time, after: AlertDb, result: ClaimResult)
    requires Inv(w) && Books(w.db) && Books(after) && ClaimDid(w.db, now, after, result) && result.Claimed?
    ensures Inv(w.(db := after, attempts := w.attempts[result.token := Started(after, result.id, result.version, now)],
                   log := w.log + [Sent(result.id)]))
  {
    hide *;
    ClaimFacts(w.db, now, after, result);
    SweptInv(w, now);
    var w1 := w.(db := Sweep(w.db, now));
    TakeClaimKeepsInv(w1, result.id, now);
  }

  lemma UnclaimedKeepsInv(w: World, now: Time, after: AlertDb, result: ClaimResult)
    requires Inv(w) && Books(w.db) && Books(after) && ClaimDid(w.db, now, after, result) && !result.Claimed?
    ensures Inv(w.(db := after))
  {
    hide *;
    DidCases(w.db, now, after, result);
    SweptInv(w, now);
    var w1 := w.(db := Sweep(w.db, now));
    if result.FoundExhausted? {
      FoundExhaustedKeepsInv(w1, result.id);
    } else if result.Refused? {
      assert w.(db := after) == w;
    }
  }

  lemma ClaimFacts(db: AlertDb, now: Time, after: AlertDb, result: ClaimResult)
    requires ClaimDid(db, now, after, result) && result.Claimed?
    ensures
      var db1 := Sweep(db, now);
      var id := result.id;
      && id in db1.deliveries && db1.deliveries[id].session in db1.budgets && db1.deliveries[id].state == Pending
      && db1.deliveries[id].nextDue <= now && db1.budgets[db1.deliveries[id].session].deadline - now >= 5.0
      && after == TakeClaim(db1, id, now) && result.token == db1.nextId && result.version == db1.deliveries[id].version + 1
  {
    hide Sweep, TakeClaim, InFlightAll, InFlightFor;
  }

  lemma ExhaustMoves(w: World, id: Id)
    requires id in w.db.deliveries && w.db.deliveries[id].state == Pending
    ensures TablesMove(w, ExhaustInPlace(w.db, id))
  {
  }

  // ---------------------------------------------------------------- the transport and the provider

  /** An attempt changes in what came back, or in having been accepted; nothing else moves. */
  ghost predicate Changes(w: World, token: Id, a: Attempt) {
    && token in w.attempts
    && a == w.attempts[token].(returned := a.returned, accepted := a.accepted)
    && (w.attempts[token].returned.Some? ==> a.returned == w.attempts[token].returned)
  }

  lemma ChangeDenies(w: World, token: Id, a: Attempt)
    requires Changes(w, token, a)
    ensures forall t | t in w.attempts :: Disclaimed(w, t) ==> Disclaimed(w.(attempts := w.attempts[token := a]), t)
  {
    var w' := w.(attempts := w.attempts[token := a]);
    forall t | t in w.attempts && Disclaimed(w, t) ensures Disclaimed(w', t) {
      if q :| q in w.queries && Covers(w.queries[q], w.attempts[t]) {
        assert Covers(w'.queries[q], w'.attempts[t]);
      }
    }
  }

  lemma ChangeAttempts(w: World, token: Id, a: Attempt)
    requires AllAttempts(w) && Changes(w, token, a)
    ensures AllAttempts(w.(attempts := w.attempts[token := a]))
  {
    var w' := w.(attempts := w.attempts[token := a]);
    forall t | t in w'.attempts ensures AttemptOk(w', t) {
      assert AttemptOk(w, t);
    }
  }

  lemma ChangeDeliveries(w: World, token: Id, a: Attempt)
    requires AllDeliveries(w) && Changes(w, token, a)
    ensures AllDeliveries(w.(attempts := w.attempts[token := a]))
  {
    var w' := w.(attempts := w.attempts[token := a]);
    hide AttemptsAgree, Proven;
    forall i | i in w'.db.deliveries ensures AttemptsAgree(w', i) && LogAgrees(w', i) {
      assert AttemptsAgree(w, i) && LogAgrees(w, i);
      ChangeAgreement(w, token, a, i);
    }
  }

  lemma ChangeQueries(w: World, token: Id, a: Attempt)
    requires AllQueries(w)
    ensures AllQueries(w.(attempts := w.attempts[token := a]))
  {
    var w' := w.(attempts := w.attempts[token := a]);
    forall q | q in w'.queries ensures q < w'.nextQuery && QueryOk(w', q) {
      assert QueryOk(w, q);
    }
  }

  lemma AttemptChange(w: World, token: Id, a: Attempt)
    requires Inv(w) && Changes(w, token, a)
    ensures Inv(w.(attempts := w.attempts[token := a]))
  {
    ChangeAttempts(w, token, a);
    ChangeDeliveries(w, token, a);
    ChangeQueries(w, token, a);
    hide Books, AllAttempts, AllDeliveries, AllQueries, SendsSeparated, Changes;
  }

  lemma ChangeAgreement(w: World, token: Id, a: Attempt, i: Id)
    requires Changes(w, token, a) && i in w.db.deliveries && AttemptsAgree(w, i)
    ensures AttemptsAgree(w.(attempts := w.attempts[token := a]), i)
  {
    ChangeDenies(w, token, a);
    hide Disclaimed;
  }

  // ---------------------------------------------------------------- finishing an attempt

  /** One delivery leaves IN_FLIGHT or UNKNOWN for a state that its attempts justify. */
  ghost predicate Concludes(w: World, db': AlertDb, id: Id, proof: bool) {
    && id in w.db.deliveries && id in db'.deliveries && db'.nextId == w.db.nextId
    && db'.deliveries.Keys == w.db.deliveries.Keys
    && (forall i | i in w.db.deliveries && i != id :: db'.deliveries[i] == w.db.deliveries[i])
    && db'.deliveries[id].version == w.db.deliveries[id].version + 1
    && db'.deliveries[id].state != InFlight
    && (Settled(db'.deliveries[id].state) ==> proof)
    && (proof ==> forall t | t in w.attempts && w.attempts[t].delivery == id :: Disclaimed(w, t))
  }

  function Concluded(w: World, db': AlertDb, id: Id, proof: bool): World {
    w.(db := db', log := if proof then w.log + [NotAcceptedProof(id)] else w.log)
  }

  lemma ConcludeAttempts(w: World, db': AlertDb, id: Id, proof: bool)
    requires AllAttempts(w) && Concludes(w, db', id, proof)
    ensures AllAttempts(Concluded(w, db', id, proof))
  {
    var w' := Concluded(w, db', id, proof);
    forall t | t in w'.attempts ensures AttemptOk(w', t) {
      assert AttemptOk(w, t);
    }
  }

  lemma ConcludeDelivery(w: World, db': AlertDb, id: Id, proof: bool, i: Id)
    requires Concludes(w, db', id, proof) && i in w.db.deliveries && AttemptsAgree(w, i) && LogAgrees(w, i)
    ensures AttemptsAgree(Concluded(w, db', id, proof), i) && LogAgrees(Concluded(w, db', id, proof), i)
  {
    ConcludeAgreement(w, Concluded(w, db', id, proof), i, id, proof);
    hide AttemptsAgree, Proven;
    if Settled(db'.deliveries[i].state) {
      if i == id { ProofProves(w.log, id); } else if proof { ProvenAppend(w.log, NotAcceptedProof(id), i); }
    }
  }

  lemma ConcludeDeliveries(w: World, db': AlertDb, id: Id, proof: bool)
    requires AllDeliveries(w) && Concludes(w, db', id, proof)
    ensures AllDeliveries(Concluded(w, db', id, proof))
  {
    hide AttemptsAgree, LogAgrees;
    forall i | i in db'.deliveries
      ensures AttemptsAgree(Concluded(w, db', id, proof), i) && LogAgrees(Concluded(w, db', id, proof), i)
    {
      ConcludeDelivery(w, db', id, proof, i);
    }
  }

  lemma ConcludeQueries(w: World, db': AlertDb, id: Id, proof: bool)
    requires AllQueries(w) && Concludes(w, db', id, proof)
    ensures AllQueries(Concluded(w, db', id, proof))
  {
    var w' := Concluded(w, db', id, proof);
    forall q | q in w'.queries ensures q < w'.nextQuery && QueryOk(w', q) {
      assert QueryOk(w, q);
    }
  }

  lemma ConcludeLog(w: World, db': AlertDb, id: Id, proof: bool)
    requires LogKnown(w) && SendsSeparated(w.log) && Concludes(w, db', id, proof)
    ensures LogKnown(Concluded(w, db', id, proof)) && SendsSeparated(Concluded(w, db', id, proof).log)
  {
    SeparatedAppend(w.log, NotAcceptedProof(id));
    hide SendsSeparated;
  }

  lemma ConcludeKeepsInv(w: World, db': AlertDb, id: Id, proof: bool)
    requires Inv(w) && Concludes(w, db', id, proof) && Books(db')
    ensures Inv(Concluded(w, db', id, proof))
  {
    ConcludeAttempts(w, db', id, proof);
    ConcludeDeliveries(w, db', id, proof);
    ConcludeQueries(w, db', id, proof);
    ConcludeLog(w, db', id, proof);
    hide Books, AllAttempts, AllDeliveries, AllQueries, SendsSeparated, LogKnown, Concludes;
  }

  lemma ConcludeAgreement(w: World, w': World, i: Id, id: Id, proof: bool)
    requires Concludes(w, w'.db, id, proof) && w'.attempts == w.attempts && w'.queries == w.queries
    requires i in w.db.deliveries && AttemptsAgree(w, i)
    ensures i in w'.db.deliveries && AttemptsAgree(w', i)
  {
    SameDenied(w, w');
    hide Disclaimed;
  }

  /** What `_finish` wrote, if it was not fenced off. */
  lemma FinishWrote(db: AlertDb, id: Id, token: Id, version: nat, outcome: Outcome, factor: real, now: Time)
    requires Finish(db, id, token, version, outcome, factor, now).Ok?
    ensures
      var db' := Finish(db, id, token, version, outcome, factor, now).value;
      && id in db.deliveries && id in db'.deliveries
      && db.deliveries[id].state == InFlight && db.deliveries[id].claim == Some(token)
      && db'.deliveries.Keys == db.deliveries.Keys && db'.nextId == db.nextId
      && (forall i | i in db.deliveries && i != id :: db'.deliveries[i] == db.deliveries[i])
      && db'.deliveries[id].version == db.deliveries[id].version + 1 && db'.deliveries[id].state != InFlight
      && (Settled(db'.deliveries[id].state) <==> outcome.kind == NotAccepted)
  {
  }

  /** The attempt that holds the claim came back denied, so every attempt of its delivery is denied. */
  lemma HolderDenied(w: World, token: Id)
    requires AllDeliveries(w) && token in w.attempts && w.attempts[token].returned.Some?
    requires DeniesAcceptance(w.attempts[token].returned.value)
    requires w.attempts[token].delivery in w.db.deliveries
    requires w.db.deliveries[w.attempts[token].delivery].state == InFlight
    requires w.db.deliveries[w.attempts[token].delivery].claim == Some(token)
    ensures forall t | t in w.attempts && w.attempts[t].delivery == w.attempts[token].delivery :: Disclaimed(w, t)
  {
    assert AttemptsAgree(w, w.attempts[token].delivery);
    hide AllDeliveries;
    forall t | t in w.attempts && w.attempts[t].delivery == w.attempts[token].delivery ensures Disclaimed(w, t) {
    }
  }

  lemma FinishConcludes(w: World, s: Step)
    requires AllDeliveries(w) && s.FinishStep? && Allowed(w, s)
    ensures
      var a := w.attempts[s.token];
      var outcome := Sanitized(a.returned.value);
      var r := Finish(w.db, a.delivery, s.token, a.version, outcome, s.factor, s.now);
      r.Ok? ==> Concludes(w, r.value, a.delivery, outcome.kind == NotAccepted)
  {
    var a := w.attempts[s.token];
    var outcome := Sanitized(a.returned.value);
    var r := Finish(w.db, a.delivery, s.token, a.version, outcome, s.factor, s.now);
    SanitizedDenies(a.returned.value);
    hide Finish, AllDeliveries, Sanitized, Disclaimed;
    if r.Ok? {
      FinishWrote(w.db, a.delivery, s.token, a.version, outcome, s.factor, s.now);
      if outcome.kind == NotAccepted { HolderDenied(w, s.token); }
    }
  }

  lemma SanitizedDenies(raw: Option<Outcome>)
    ensures Sanitized(raw).kind == NotAccepted ==> DeniesAcceptance(raw)
  {
  }

  lemma FinishKeepsInv(w: World, s: Step)
    requires Inv(w) && s.FinishStep? && Allowed(w, s)
    ensures Inv(Do(w, s))
  {
    var a := w.attempts[s.token];
    var outcome := Sanitized(a.returned.value);
    var r := Finish(w.db, a.delivery, s.token, a.version, outcome, s.factor, s.now);
    FinishConcludes(w, s);
    InvBooks(w);
    hide Inv, Finish, Books, Shape, Accounts, Concludes, Sanitized;
    if r.Ok? {
      FinishKeepsBooks(w.db, a.delivery, s.token, a.version, outcome, s.factor, s.now);
      ConcludeKeepsInv(w, r.value, a.delivery, outcome.kind == NotAccepted);
    }
  }

  // ---------------------------------------------------------------- queries

  lemma AskWrote(w: World, id: Id, grant: Option<Grant>, expected: nat, transport: string)
    requires CountQuery(w.db, id, grant, expected, transport).Ok?
    ensures
      var db' := CountQuery(w.db, id, grant, expected, transport).value;
      && TablesMove(w, db')
      && QueryOk(w.(db := db', queries := w.queries[w.nextQuery := Query(id, expected, None)]), w.nextQuery)
  {
  }

  function Asked(w: World, db': AlertDb, x: Query): World {
    w.(db := db', queries := w.queries[w.nextQuery := x], nextQuery := w.nextQuery + 1)
  }

  lemma AskedKeepsInv(w: World, db': AlertDb, x: Query)
    requires Inv(w) && Books(db') && TablesMove(w, db')
    requires QueryOk(w.(db := db', queries := w.queries[w.nextQuery := x]), w.nextQuery)
    ensures Inv(Asked(w, db', x))
  {
    hide Inv, Books, TablesMove, QueryOk;
    TablesKeepInv(w, db');
    var w1 := w.(db := db');
    NextQueryIsNew(w1);
    QueryRecord(w1, w1.nextQuery, x);
    assert Asked(w, db', x) == w1.(queries := w1.queries[w1.nextQuery := x], nextQuery := w1.nextQuery + 1);
  }

  lemma NextQueryIsNew(w: World)
    requires Inv(w)
    ensures w.nextQuery !in w.queries
  {
    hide Books, AllAttempts, AllDeliveries, SendsSeparated;
  }

  lemma AskKeepsInv(w: World, s: Step)
    requires Inv(w) && s.Ask? && Allowed(w, s)
    ensures Inv(Do(w, s))
  {
    var r := CountQuery(w.db, s.id, s.grant, s.expected, s.transport);
    InvBooks(w);
    AskDo(w, s);
    hide *;
    if r.Ok? {
      QueryKeepsBooks(w.db, s.id, s.grant, s.expected, s.transport);
      AskWrote(w, s.id, s.grant, s.expected, s.transport);
      AskedKeepsInv(w, r.value, Query(s.id, s.expected, None));
    }
  }

  lemma AskDo(w: World, s: Step)
    requires s.Ask? && Allowed(w, s)
    ensures
      var r := CountQuery(w.db, s.id, s.grant, s.expected, s.transport);
      Do(w, s) == if r.Ok? then Asked(w, r.value, Query(s.id, s.expected, None)) else w
  {
    hide CountQuery;
  }

  /** A query is recorded, or its answer is: denials only grow. */
  lemma RecordDenies(w: World, w': World, query: Id)
    requires query in w'.queries && w'.attempts == w.attempts && w'.queries == w.queries[query := w'.queries[query]]
    requires (query in w.queries ==> w.queries[query].answer.None?)
    ensures forall t | t in w.attempts :: Disclaimed(w, t) ==> Disclaimed(w', t)
  {
    forall t | t in w.attempts && Disclaimed(w, t) ensures Disclaimed(w', t) {
      if q :| q in w.queries && Covers(w.queries[q], w.attempts[t]) {
        assert Covers(w'.queries[q], w'.attempts[t]);
      }
    }
  }

  lemma QueryRecord(w: World, query: Id, x: Query)
    requires Inv(w) && query <= w.nextQuery && QueryOk(w.(queries := w.queries[query := x]), query)
    requires query in w.queries ==> w.queries[query].answer.None?
    ensures Inv(w.(queries := w.queries[query := x], nextQuery := if query == w.nextQuery then query + 1 else w.nextQuery))
  {
    var w' := w.(queries := w.queries[query := x], nextQuery := if query == w.nextQuery then query + 1 else w.nextQuery);
    RecordDenies(w, w', query);
    hide Books, Disclaimed, SendsSeparated;
    RecordKeepsRest(w, w');
    RecordKeepsQueries(w, w', query);
    hide AllAttempts, AllDeliveries, AllQueries;
  }

  lemma RecordKeepsQueries(w: World, w': World, query: Id)
    requires AllQueries(w) && w'.db == w.db && query in w'.queries && w'.queries == w.queries[query := w'.queries[query]]
    requires QueryOk(w', query) && query < w'.nextQuery && w.nextQuery <= w'.nextQuery
    ensures AllQueries(w')
  {
    forall q | q in w'.queries ensures q < w'.nextQuery && QueryOk(w', q) {
      if q != query { assert QueryOk(w, q); }
    }
  }

  lemma RecordKeepsRest(w: World, w': World)
    requires AllAttempts(w) && AllDeliveries(w) && w' == w.(queries := w'.queries, nextQuery := w'.nextQuery)
    requires forall t | t in w.attempts :: Disclaimed(w, t) ==> Disclaimed(w', t)
    ensures AllAttempts(w') && AllDeliveries(w')
  {
    hide Disclaimed, Proven;
    forall t | t in w'.attempts ensures AttemptOk(w', t) { assert AttemptOk(w, t); }
    hide AllAttempts;
    forall i | i in w'.db.deliveries ensures AttemptsAgree(w', i) && LogAgrees(w', i) {
      assert AttemptsAgree(w, i) && LogAgrees(w, i);
    }
  }

  lemma AnsweredKeepsInv(w: World, s: Step)
    requires Inv(w) && s.Answered? && Allowed(w, s)
    ensures Inv(Do(w, s))
  {
    assert QueryOk(w, s.query);
    hide Inv;
    QueryRecord(w, s.query, w.queries[s.query].(answer := Some(s.answer)));
  }

  lemma AnswerWrote(db: AlertDb, id: Id, expected: nat, answer: Option<Outcome>, checkNow: Time, dueNow: Time)
    requires Definite(answer) && ApplyAnswer(db, id, expected, answer, checkNow, dueNow).Ok?
    ensures
      var db' := ApplyAnswer(db, id, expected, answer, checkNow, dueNow).value;
      && id in db.deliveries && id in db'.deliveries
      && db.deliveries[id].state == Unknown && db.deliveries[id].version == expected
      && db'.deliveries.Keys == db.deliveries.Keys && db'.nextId == db.nextId
      && (forall i | i in db.deliveries && i != id :: db'.deliveries[i] == db.deliveries[i])
      && db'.deliveries[id].version == db.deliveries[id].version + 1 && db'.deliveries[id].state != InFlight
      && (Settled(db'.deliveries[id].state) <==> DeniesAcceptance(answer))
  {
  }

  /** A denial given for an ambiguous delivery as it still stands covers every attempt of it. */
  lemma UnknownIsDenied(w: World, query: Id)
    requires AllAttempts(w) && query in w.queries && w.queries[query].answer.Some?
    requires DeniesAcceptance(w.queries[query].answer.value)
    requires w.queries[query].delivery in w.db.deliveries
    requires w.db.deliveries[w.queries[query].delivery].state == Unknown
    requires w.db.deliveries[w.queries[query].delivery].version == w.queries[query].version
    ensures forall t | t in w.attempts && w.attempts[t].delivery == w.queries[query].delivery :: Disclaimed(w, t)
  {
    forall t | t in w.attempts && w.attempts[t].delivery == w.queries[query].delivery ensures Disclaimed(w, t) {
      assert AttemptOk(w, t);
      assert Covers(w.queries[query], w.attempts[t]);
    }
  }

  lemma SettleConcludes(w: World, s: Step)
    requires AllAttempts(w) && s.SettleStep? && Allowed(w, s)
    ensures
      var q := w.queries[s.query];
      var r := ApplyAnswer(w.db, q.delivery, q.version, q.answer.value, s.checkNow, s.dueNow);
      r.Ok? && Definite(q.answer.value) ==> Concludes(w, r.value, q.delivery, DeniesAcceptance(q.answer.value))
  {
    var q := w.queries[s.query];
    hide ApplyAnswer, AllAttempts, Definite, Disclaimed;
    var r := ApplyAnswer(w.db, q.delivery, q.version, q.answer.value, s.checkNow, s.dueNow);
    if r.Ok? && Definite(q.answer.value) {
      AnswerWrote(w.db, q.delivery, q.version, q.answer.value, s.checkNow, s.dueNow);
      if DeniesAcceptance(q.answer.value) { UnknownIsDenied(w, s.query); }
    }
  }

  lemma SettleKeepsInv(w: World, s: Step)
    requires Inv(w) && s.SettleStep? && Allowed(w, s)
    ensures Inv(Do(w, s))
  {
    var q := w.queries[s.query];
    var r := ApplyAnswer(w.db, q.delivery, q.version, q.answer.value, s.checkNow, s.dueNow);
    SettleConcludes(w, s);
    InvBooks(w);
    hide Inv, ApplyAnswer, Books, Shape, Accounts, Concludes, Definite;
    if r.Ok? && Definite(q.answer.value) {
      AnswerKeepsBooks(w.db, q.delivery, q.version, q.answer.value, s.checkNow, s.dueNow);
      ConcludeKeepsInv(w, r.value, q.delivery, DeniesAcceptance(q.answer.value));
    }
  }

  // ---------------------------------------------------------------- every run

  lemma AttemptRow(w: World, t: Id)
    requires Inv(w) && t in w.attempts
    ensures AttemptOk(w, t) && AttemptsAgree(w, w.attempts[t].delivery)
  {
    hide Books, SendsSeparated, LogKnown, AllQueries, LogAgrees, Disclaimed;
    assert AttemptOk(w, t);
  }

  lemma TickKeepsInv(w: World, delta: Time)
    requires Inv(w)
    ensures Inv(w.(clock := w.clock + delta))
  {
    hide Books, Disclaimed, Proven, SendsSeparated, Settled;
    var w' := w.(clock := w.clock + delta);
    SameDenied(w, w');
    forall t | t in w'.attempts ensures AttemptOk(w', t) { assert AttemptOk(w, t); }
    forall i | i in w'.db.deliveries ensures AttemptsAgree(w', i) && LogAgrees(w', i) {
      assert AttemptsAgree(w, i) && LogAgrees(w, i);
    }
    forall q | q in w'.queries ensures q < w'.nextQuery && QueryOk(w', q) { assert QueryOk(w, q); }
  }

  lemma DoKeepsInv(w: World, s: Step)
    requires Inv(w) && Allowed(w, s)
    ensures Inv(Do(w, s))
  {
    hide Inv;
    match s
    case Tick(delta) => TickKeepsInv(w, delta);
    case Admin(tx) => AdminKeepsInv(w, tx);
    case ClaimStep(_, _, _, _, _) => ClaimKeepsInv(w, s);
    case ProviderAccepts(token) => AttemptChange(w, token, w.attempts[token].(accepted := true));
    case SendReturns(token, raw) => AttemptChange(w, token, w.attempts[token].(returned := Some(raw)));
    case FinishStep(_, _, _) => FinishKeepsInv(w, s);
    case Ask(_, _, _, _) => AskKeepsInv(w, s);
    case Answered(_, _) => AnsweredKeepsInv(w, s);
    case SettleStep(_, _, _) => SettleKeepsInv(w, s);
  }

  lemma StartInv(incidents: IncidentDb, clock: Time)
    ensures Inv(Start(incidents, clock))
  {
    EmptyBooks(incidents);
  }

  lemma {:induction false} RunKeepsInv(incidents: IncidentDb, clock: Time, steps: seq<Step>)
    requires Runs(Start(incidents, clock), steps)
    ensures Inv(Final(Start(incidents, clock), steps))
    decreases |steps|
  {
    hide Inv, Allowed, Do;
    StartInv(incidents, clock);
    if steps != [] {
      RunKeepsInv(incidents, clock, steps[..|steps| - 1]);
      DoKeepsInv(Final(Start(incidents, clock), steps[..|steps| - 1]), steps[|steps| - 1]);
    }
  }

  /** Over every run, at most one attempt of a delivery is undenied, and sends are separated by proofs. */
  lemma InvMeans(w: World)
    requires Inv(w)
    ensures SendsSeparated(w.log)
    ensures forall t | t in w.attempts :: w.attempts[t].claimedAt + 5.0 <= w.attempts[t].lease <= w.attempts[t].claimedAt + 10.0
    ensures forall s, t | s in w.attempts && t in w.attempts && w.attempts[s].delivery == w.attempts[t].delivery
                          && !Disclaimed(w, s) && !Disclaimed(w, t) :: s == t
  {
    hide Books, SendsSeparated, Disclaimed;
    forall s, t | s in w.attempts && t in w.attempts && w.attempts[s].delivery == w.attempts[t].delivery
                  && !Disclaimed(w, s) && !Disclaimed(w, t)
      ensures s == t
    {
      assert AttemptOk(w, s) && AttemptsAgree(w, w.attempts[s].delivery);
    }
    forall t | t in w.attempts
      ensures w.attempts[t].claimedAt + 5.0 <= w.attempts[t].lease <= w.attempts[t].claimedAt + 10.0
    {
      assert AttemptOk(w, t);
    }
  }

  // ---------------------------------------------------------------- acceptance

  ghost predicate DeniedUnaccepted(w: World) {
    forall t | t in w.attempts && w.attempts[t].accepted :: !Disclaimed(w, t)
  }

  /** The attempts and queries of before are still there as they were; what is new is unaccepted and unanswered. */
  ghost predicate OnlyAdds(w: World, w': World) {
    && (forall t | t in w'.attempts :: (t in w.attempts && w'.attempts[t] == w.attempts[t]) || !w'.attempts[t].accepted)
    && (forall q | q in w'.queries :: (q in w.queries && w'.queries[q] == w.queries[q]) || w'.queries[q].answer.None?)
  }

  lemma AddingKeepsUnaccepted(w: World, w': World)
    requires OnlyAdds(w, w') && DeniedUnaccepted(w)
    ensures DeniedUnaccepted(w')
  {
    forall t | t in w'.attempts && w'.attempts[t].accepted ensures !Disclaimed(w', t) {
      assert t in w.attempts && w'.attempts[t] == w.attempts[t] && !Disclaimed(w, t);
      forall q | q in w'.queries ensures !Covers(w'.queries[q], w'.attempts[t]) {
      }
    }
  }

  /** Tables, clocks and claims deny nothing and accept nothing. */
  lemma QuietStep(w: World, s: Step)
    requires Inv(w) && Allowed(w, s)
    requires !s.ProviderAccepts? && !s.SendReturns? && !s.Answered?
    ensures OnlyAdds(w, Do(w, s))
  {
    hide Inv, Claim, Finish, ApplyAnswer, CountQuery, ExecTx, Disclaimed;
    TokenFresh(w, s);
  }

  /** A claim's token and a new query's number are not in use. */
  lemma TokenFresh(w: World, s: Step)
    requires Inv(w)
    ensures w.nextQuery !in w.queries
    ensures s.ClaimStep? ==>
              var result := Claim(w.db, s.ref, s.grant, s.transport, s.preview, s.now).1;
              result.Claimed? ==> result.token !in w.attempts
  {
    NextQueryIsNew(w);
    InvTokens(w);
    if s.ClaimStep? {
      var (after, result) := Claim(w.db, s.ref, s.grant, s.transport, s.preview, s.now);
      ClaimCases(w.db, s.ref, s.grant, s.transport, s.preview, s.now);
      SweepIds(w.db, s.now);
      hide Inv, Claim, Sweep;
      if result.Claimed? { ClaimFacts(w.db, s.now, after, result); }
    }
  }

  lemma InvTokens(w: World)
    requires Inv(w)
    ensures w.db.nextId !in w.attempts
  {
    hide Books, AllDeliveries, AllQueries, SendsSeparated;
    TokenIsNew(w);
  }

  /** Only a denied attempt that is accepted all the same breaks the rule: denials are true when they are given. */
  lemma StepKeepsUnaccepted(w: World, s: Step)
    requires Inv(w) && Allowed(w, s) && DeniedUnaccepted(w)
    requires s.ProviderAccepts? ==> !Disclaimed(w, s.token)
    ensures DeniedUnaccepted(Do(w, s))
  {
    var w' := Do(w, s);
    match s
    case ProviderAccepts(token) => AcceptKeepsUnaccepted(w, token);
    case SendReturns(token, raw) => ReturnKeepsUnaccepted(w, token, raw);
    case Answered(query, answer) => AnswerKeepsUnaccepted(w, query, answer);
    case _ => QuietStep(w, s); AddingKeepsUnaccepted(w, w');
  }

  lemma AcceptKeepsUnaccepted(w: World, token: Id)
    requires DeniedUnaccepted(w) && token in w.attempts && !Disclaimed(w, token)
    ensures DeniedUnaccepted(w.(attempts := w.attempts[token := w.attempts[token].(accepted := true)]))
  {
    var w' := w.(attempts := w.attempts[token := w.attempts[token].(accepted := true)]);
    forall t | t in w'.attempts && w'.attempts[t].accepted ensures !Disclaimed(w', t) {
      assert !Disclaimed(w, t);
      assert forall q | q in w.queries :: Covers(w.queries[q], w'.attempts[t]) == Covers(w.queries[q], w.attempts[t]);
    }
  }

  lemma ReturnKeepsUnaccepted(w: World, token: Id, raw: Option<Outcome>)
    requires DeniedUnaccepted(w) && Allowed(w, SendReturns(token, raw))
    ensures DeniedUnaccepted(w.(attempts := w.attempts[token := w.attempts[token].(returned := Some(raw))]))
  {
    var w' := w.(attempts := w.attempts[token := w.attempts[token].(returned := Some(raw))]);
    forall t | t in w'.attempts && w'.attempts[t].accepted ensures !Disclaimed(w', t) {
      assert !Disclaimed(w, t);
      assert forall q | q in w.queries :: Covers(w.queries[q], w'.attempts[t]) == Covers(w.queries[q], w.attempts[t]);
    }
  }

  lemma AnswerKeepsUnaccepted(w: World, query: Id, answer: Option<Outcome>)
    requires DeniedUnaccepted(w) && Allowed(w, Answered(query, answer))
    ensures DeniedUnaccepted(w.(queries := w.queries[query := w.queries[query].(answer := Some(answer))]))
  {
    var w' := w.(queries := w.queries[query := w.queries[query].(answer := Some(answer))]);
    forall t | t in w'.attempts && w'.attempts[t].accepted ensures !Disclaimed(w', t) {
      assert !Disclaimed(w, t);
      forall q | q in w'.queries ensures !Covers(w'.queries[q], w'.attempts[t]) {
      }
    }
  }

  lemma {:induction false} RunKeepsUnaccepted(incidents: IncidentDb, clock: Time, steps: seq<Step>)
    requires Runs(Start(incidents, clock), steps) && DenialsHold(Start(incidents, clock), steps)
    ensures DeniedUnaccepted(Final(Start(incidents, clock), steps))
    decreases |steps|
  {
    if steps != [] {
      hide Inv, Allowed, Do, Disclaimed, DeniedUnaccepted;
      RunKeepsUnaccepted(incidents, clock, steps[..|steps| - 1]);
      RunKeepsInv(incidents, clock, steps[..|steps| - 1]);
      StepKeepsUnaccepted(Final(Start(incidents, clock), steps[..|steps| - 1]), steps[|steps| - 1]);
    }
  }

  lemma UndeniedIsUnique(w: World)
    requires Inv(w) && DeniedUnaccepted(w)
    ensures AcceptedAtMostOnce(w)
  {
    InvMeans(w);
    hide Inv, Disclaimed;
  }

  /**
   Over every interleaving of claims, acceptances, returns, finishes, sweeps, renewals, reconciliations and crashes,
   with acceptances possible at any time after the claim, even after the call raised and after the lease: if denials
   are final, the provider accepts each delivery at most once. Whether they are or not, any two sends of a delivery
   have a not-accepted proof between them, and every lease reaches five to ten seconds past its claim.
   */
  lemma AtMostOnce(incidents: IncidentDb, clock: Time, steps: seq<Step>)
    requires Runs(Start(incidents, clock), steps)
    ensures DenialsHold(Start(incidents, clock), steps) ==> AcceptedAtMostOnce(Final(Start(incidents, clock), steps))
    ensures SendsSeparated(Final(Start(incidents, clock), steps).log)
    ensures forall t | t in Final(Start(incidents, clock), steps).attempts ::
              var a := Final(Start(incidents, clock), steps).attempts[t];
              a.claimedAt + 5.0 <= a.lease <= a.claimedAt + 10.0
  {
    hide Inv, Disclaimed, Allowed, Do, AcceptedAtMostOnce, SendsSeparated, Runs, Final, DenialsHold;
    RunKeepsInv(incidents, clock, steps);
    InvMeans(Final(Start(incidents, clock), steps));
    if DenialsHold(Start(incidents, clock), steps) {
      RunKeepsUnaccepted(incidents, clock, steps);
      UndeniedIsUnique(Final(Start(incidents, clock), steps));
    }
  }

  /**
   The fence, in every reachable world: an attempt whose lease a dispatch has already expired, or whose delivery has
   been finished or claimed again, finishes with a stale-result error and changes nothing; and a finish that lands is
   of the one attempt that is not denied.
   */
  lemma LateFinishIsFenced(incidents: IncidentDb, clock: Time, steps: seq<Step>, s: Step)
    requires Runs(Start(incidents, clock), steps) && s.FinishStep?
    requires Allowed(Final(Start(incidents, clock), steps), s)
    ensures
      var w := Final(Start(incidents, clock), steps);
      var a := w.attempts[s.token];
      && a.delivery in w.db.deliveries
      && var d := w.db.deliveries[a.delivery];
      var r := Finish(w.db, a.delivery, s.token, a.version, Sanitized(a.returned.value), s.factor, s.now);
      && (d.version > a.version || s.now >= a.lease ==> r == Err(StaleDispatch) && Do(w, s) == w)
      && (r.Ok? ==> forall t | t in w.attempts && w.attempts[t].delivery == a.delivery && t != s.token :: Disclaimed(w, t))
  {
    RunKeepsInv(incidents, clock, steps);
    hide Inv, Runs, Final, Disclaimed;
    FenceHolds(Final(Start(incidents, clock), steps), s);
  }

  lemma FenceHolds(w: World, s: Step)
    requires Inv(w) && s.FinishStep? && Allowed(w, s)
    ensures
      var a := w.attempts[s.token];
      && a.delivery in w.db.deliveries
      && var d := w.db.deliveries[a.delivery];
      var r := Finish(w.db, a.delivery, s.token, a.version, Sanitized(a.returned.value), s.factor, s.now);
      && (d.version > a.version || s.now >= a.lease ==> r == Err(StaleDispatch) && Do(w, s) == w)
      && (r.Ok? ==> forall t | t in w.attempts && w.attempts[t].delivery == a.delivery && t != s.token :: Disclaimed(w, t))
  {
    hide Inv, Disclaimed, Settled;
    var a := w.attempts[s.token];
    AttemptRow(w, s.token);
    var r := Finish(w.db, a.delivery, s.token, a.version, Sanitized(a.returned.value), s.factor, s.now);
    if r.Ok? {
      forall t | t in w.attempts && w.attempts[t].delivery == a.delivery && t != s.token ensures Disclaimed(w, t) {
      }
    }
  }
}
