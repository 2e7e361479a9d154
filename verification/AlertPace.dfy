/**
 The pace of a budget session. As long as no ambiguous outcome of it is reconciled back to pending, the jittered
 backoff keeps its claims so far apart that the 24 hour deadline ends it before the 128 attempts are spent.
 */
module AlertPace {
  import opened Common
  import opened Incidents
  import opened AlertModel
  import opened AlertProtocol
  import opened AlertSafety

  /** The least time from the start of a session to its nth claim: 0.8 of each backoff before it. */
  function Wait(n: nat): Time {
    if n <= 1 then 0.0 else if n == 2 then 4.0 else if n == 3 then 16.0 else if n == 4 then 64.0
    else 304.0 + 720.0 * (n - 5) as real
  }

  /** A worker reads its clock for the outcome after it read it for the claim. */
  ghost predicate Ordered(w: World, s: Step) {
    s.FinishStep? && s.token in w.attempts ==> w.attempts[s.token].claimedAt <= s.now
  }

  ghost predicate OrderedRun(w: World, steps: seq<Step>)
    requires Runs(w, steps)
    decreases |steps|
  {
    steps == [] ||
    (OrderedRun(w, steps[..|steps| - 1]) && Ordered(Final(w, steps[..|steps| - 1]), steps[|steps| - 1]))
  }

  /** A settlement that committed and put its ambiguous delivery back to PENDING. */
  ghost predicate PutsBackPending(db: AlertDb, id: Id, expected: nat, answer: Option<Outcome>, checkNow: Time, dueNow: Time) {
    && Definite(answer) && ApplyAnswer(db, id, expected, answer, checkNow, dueNow).Ok?
    && id in db.deliveries && id in ApplyAnswer(db, id, expected, answer, checkNow, dueNow).value.deliveries
    && ApplyAnswer(db, id, expected, answer, checkNow, dueNow).value.deliveries[id].state == Pending
  }

  /** The session that a step put back to PENDING after an ambiguous outcome, if it did. */
  ghost function RearmedBy(w: World, s: Step): set<Id>
    requires Allowed(w, s)
  {
    if s.SettleStep?
       && var q := w.queries[s.query];
       PutsBackPending(w.db, q.delivery, q.version, q.answer.value, s.checkNow, s.dueNow)
    then {w.db.deliveries[w.queries[s.query].delivery].session} else {}
  }

  ghost function Rearmed(w: World, steps: seq<Step>): set<Id>
    requires Runs(w, steps)
    decreases |steps|
  {
    if steps == [] then {} else Rearmed(w, steps[..|steps| - 1]) + RearmedBy(Final(w, steps[..|steps| - 1]), steps[|steps| - 1])
  }

  // ---------------------------------------------------------------- invariant

  ghost predicate SpentOk(b: Budget) {
    b.attempts == 0 || Wait(b.attempts) + 5.0 <= BUDGET_SECONDS
  }

  ghost predicate DeliveryPaced(w: World, id: Id)
    requires id in w.db.deliveries
  {
    var d := w.db.deliveries[id];
    d.session in w.db.budgets &&
    var b := w.db.budgets[d.session];
    && (d.state == Pending ==> d.nextDue >= b.startedAt + Wait(b.attempts + 1))
    && (d.state == InFlight ==>
          d.claim.Some? && d.claim.value in w.attempts && w.attempts[d.claim.value].claimedAt >= b.startedAt + Wait(b.attempts))
  }

  ghost predicate Paced(w: World, rearmed: set<Id>) {
    && (forall id | id in w.db.deliveries && w.db.deliveries[id].session !in rearmed :: DeliveryPaced(w, id))
    && (forall sid | sid in w.db.budgets && sid !in rearmed :: SpentOk(w.db.budgets[sid]))
  }

  // ---------------------------------------------------------------- table changes that claim nothing

  ghost predicate PaceMove(db: AlertDb, db': AlertDb, id: Id)
    requires id in db'.deliveries
  {
    var d' := db'.deliveries[id];
    d'.session in db'.budgets &&
    (|| (d'.state != Pending && d'.state != InFlight)
     || (id in db.deliveries && d'.session in db.budgets && d'.session == db.deliveries[id].session
         && d'.state == db.deliveries[id].state && d'.nextDue == db.deliveries[id].nextDue && d'.claim == db.deliveries[id].claim)
     || (d'.state == Pending && d'.nextDue >= db'.budgets[d'.session].startedAt && db'.budgets[d'.session].attempts == 0))
  }

  ghost predicate Unspent(db: AlertDb, db': AlertDb) {
    && (forall sid | sid in db.budgets :: sid in db'.budgets && db'.budgets[sid].attempts == db.budgets[sid].attempts
                                          && db'.budgets[sid].startedAt == db.budgets[sid].startedAt)
    && (forall sid | sid in db'.budgets && sid !in db.budgets :: db'.budgets[sid].attempts == 0)
  }

  ghost predicate PaceMoves(db: AlertDb, db': AlertDb) {
    && Unspent(db, db')
    && (forall id | id in db'.deliveries :: PaceMove(db, db', id))
  }

  lemma MovesKeepPace(w: World, w': World, rearmed: set<Id>)
    requires Paced(w, rearmed) && PaceMoves(w.db, w'.db)
    requires forall t | t in w.attempts :: t in w'.attempts && w'.attempts[t].claimedAt == w.attempts[t].claimedAt
    ensures Paced(w', rearmed)
  {
    forall id | id in w'.db.deliveries && w'.db.deliveries[id].session !in rearmed ensures DeliveryPaced(w', id) {
      MoveKeepsPace(w, w', rearmed, id);
    }
  }

  lemma MoveKeepsPace(w: World, w': World, rearmed: set<Id>, id: Id)
    requires Paced(w, rearmed) && Unspent(w.db, w'.db) && id in w'.db.deliveries && PaceMove(w.db, w'.db, id)
    requires forall t | t in w.attempts :: t in w'.attempts && w'.attempts[t].claimedAt == w.attempts[t].claimedAt
    requires w'.db.deliveries[id].session !in rearmed
    ensures DeliveryPaced(w', id)
  {
    if id in w.db.deliveries && w.db.deliveries[id].session !in rearmed {
      assert DeliveryPaced(w, id);
    }
  }

  lemma PaceSame(db: AlertDb, db': AlertDb)
    requires Shape(db) && db'.deliveries == db.deliveries && db'.budgets == db.budgets
    ensures PaceMoves(db, db')
  {
    forall id | id in db'.deliveries ensures PaceMove(db, db', id) {
      assert DeliveryOk(db, id);
    }
  }

  lemma PaceTransitive(a: AlertDb, b: AlertDb, c: AlertDb)
    requires PaceMoves(a, b) && PaceMoves(b, c)
    ensures PaceMoves(a, c)
  {
    forall id | id in c.deliveries ensures PaceMove(a, c, id) {
      assert id in b.deliveries ==> PaceMove(a, b, id);
      assert PaceMove(b, c, id);
    }
  }

  lemma SweptPace(db: AlertDb, now: Time, id: Id)
    requires id in db.deliveries && db.deliveries[id].session in db.budgets
    ensures id in Sweep(db, now).deliveries && PaceMove(db, Sweep(db, now), id)
  {
    SweepIds(db, now);
    SweepBudgets(db, now);
    SweptLocally(db.budgets, db.deliveries[id], now);
    SweptSession(db.budgets, db.deliveries[id], now);
    hide Sweep, SweptDelivery;
  }

  lemma SweepPace(db: AlertDb, now: Time)
    requires Shape(db)
    ensures PaceMoves(db, Sweep(db, now))
  {
    SweepPaceBudgets(db, now);
    SweepIds(db, now);
    hide Sweep, PaceMove, Unspent;
    forall id | id in db.deliveries ensures PaceMove(db, Sweep(db, now), id) {
      assert DeliveryOk(db, id);
      SweptPace(db, now, id);
    }
  }

  lemma SweepPaceBudgets(db: AlertDb, now: Time)
    ensures Unspent(db, Sweep(db, now))
    ensures Sweep(db, now).budgets.Keys == db.budgets.Keys
  {
  }

  lemma InsertPace(db: AlertDb, incident: Id, ref: DestRef, human: bool, now: Time)
    requires Shape(db) && incident in db.incidents.rows && ref in db.dests
    ensures PaceMoves(db, InsertDelivery(db, incident, ref, human, now))
  {
    hide EpisodeOf, Shape, LocalOk;
    var db' := InsertDelivery(db, incident, ref, human, now);
    BudgetsBelow(db);
    forall id | id in db'.deliveries ensures PaceMove(db, db', id) {
      if id in db.deliveries { ShapeRow(db, id); }
    }
  }

  lemma EnqueuePace(db: AlertDb, incident: Id, ref: DestRef, human: bool, now: Time, bytes: Payload -> nat)
    requires Shape(db) && EnqueueCurrent(db, incident, ref, human, now, bytes).Ok?
    ensures PaceMoves(db, EnqueueCurrent(db, incident, ref, human, now, bytes).value)
  {
    PaceSame(db, db);
    hide PaceMoves, Shape, Exempt, Alerted, OutboxFull;
    if incident in db.incidents.rows && ref in db.dests {
      InsertPace(db, incident, ref, human, now);
    }
  }

  lemma {:induction false} ProcessPace(db: AlertDb, ref: DestRef, batch: seq<DueRow>, clock: nat -> Time, human: bool,
                                       bytes: Payload -> nat)
    requires Books(db) && ProcessRows(db, ref, batch, clock, human, bytes).Ok?
    ensures PaceMoves(db, ProcessRows(db, ref, batch, clock, human, bytes).value)
    decreases |batch|
  {
    BooksShape(db);
    PaceSame(db, db);
    if batch != [] {
      hide Books, Shape, PaceMoves;
      var last := |batch| - 1;
      ProcessPace(db, ref, batch[..last], clock, human, bytes);
      ProcessKeepsBooks(db, ref, batch[..last], clock, human, bytes);
      var db1 := ProcessRows(db, ref, batch[..last], clock, human, bytes).value;
      BooksShape(db1);
      EnqueuePace(db1, batch[last].incident, ref, human, clock(last), bytes);
      EnqueueKeepsBooks(db1, batch[last].incident, ref, human, clock(last), bytes);
      var db2 := EnqueueCurrent(db1, batch[last].incident, ref, human, clock(last), bytes).value;
      BooksShape(db2);
      PaceSame(db2, WithReceipt(db2, ref, batch[last].revision));
      PaceTransitive(db, db1, db2);
      PaceTransitive(db, db2, WithReceipt(db2, ref, batch[last].revision));
    }
  }

  lemma RenewPace(db: AlertDb, id: Id, now: Time)
    requires Shape(db) && id in db.deliveries && DeliveryOk(db, id)
    ensures PaceMoves(db, RenewBudget(db, id, now))
  {
    BudgetsBelow(db);
    forall i | i in db.deliveries ensures PaceMove(db, RenewBudget(db, id, now), i) {
      assert DeliveryOk(db, i);
    }
  }

  lemma AdminPace(db: AlertDb, tx: Tx)
    requires Books(db) && (tx.ConfigureTx? || tx.IncidentTx? || tx.ReconcileTx? || tx.RenewTx?)
    ensures PaceMoves(db, ExecTx(db, tx))
  {
    hide Books, Shape, PaceMoves, ProcessRows, Apply;
    BooksShape(db);
    PaceSame(db, db);
    match tx
    case ConfigureTx(ref, config, grant) => PaceSame(db, ExecTx(db, tx));
    case IncidentTx(update, now) => PaceSame(db, ExecTx(db, tx));
    case ReconcileTx(ref, grant, limit, batch, clock, bytes) =>
      if Reconcile(db, ref, grant, limit, batch, clock, bytes).Ok? {
        ProcessPace(db, ref, batch, clock, grant.value.human, bytes);
      }
    case RenewTx(id, grant, expected, reason, now) =>
      if Renew(db, id, grant, expected, reason, now).Ok? {
        RenewOk(db, id);
        RenewPace(db, id, now);
      }
  }

  lemma AskPace(db: AlertDb, id: Id, grant: Option<Grant>, expected: nat, transport: string)
    requires Shape(db)
    ensures PaceMoves(db, Kept(db, CountQuery(db, id, grant, expected, transport)))
  {
    var db' := Kept(db, CountQuery(db, id, grant, expected, transport));
    forall i | i in db'.deliveries ensures PaceMove(db, db', i) {
      assert DeliveryOk(db, i);
    }
  }

  lemma ExhaustPace(db: AlertDb, id: Id)
    requires Shape(db) && id in db.deliveries
    ensures PaceMoves(db, ExhaustInPlace(db, id))
  {
    forall i | i in db.deliveries ensures PaceMove(db, ExhaustInPlace(db, id), i) {
      assert DeliveryOk(db, i);
    }
  }

  // ---------------------------------------------------------------- claims

  lemma LateClaims(n: nat)
    requires n >= 125
    ensures Wait(n) >= 304.0 + 720.0 * 120.0
  {
    assert (n - 5) as real >= 120.0;
  }

  lemma ClaimInTime(n: nat)
    requires Wait(n) + 5.0 <= BUDGET_SECONDS
    ensures n <= 124
  {
    if n >= 125 {
      LateClaims(n);
    }
  }

  lemma PacedRow(w: World, id: Id, rearmed: set<Id>)
    requires Paced(w, rearmed) && id in w.db.deliveries && w.db.deliveries[id].session !in rearmed
    ensures DeliveryPaced(w, id)
  {
  }

  /** What a claim writes about the session it spends. */
  lemma TakeClaimPace(w: World, id: Id, now: Time, rearmed: set<Id>, a: Attempt)
    requires Paced(w, rearmed) && Shape(w.db) && id in w.db.deliveries && DeliveryOk(w.db, id) && w.db.deliveries[id].state == Pending
    requires w.db.deliveries[id].nextDue <= now && w.db.budgets[w.db.deliveries[id].session].deadline - now >= 5.0
    requires w.db.nextId !in w.attempts && a.claimedAt == now
    ensures w.db.deliveries[id].session !in rearmed ==>
              now >= w.db.budgets[w.db.deliveries[id].session].startedAt + Wait(w.db.budgets[w.db.deliveries[id].session].attempts + 1)
    ensures Paced(w.(db := TakeClaim(w.db, id, now), attempts := w.attempts[w.db.nextId := a]), rearmed)
  {
    hide Shape, LocalOk, SpentOk;
    var w' := w.(db := TakeClaim(w.db, id, now), attempts := w.attempts[w.db.nextId := a]);
    var sid := w.db.deliveries[id].session;
    if sid !in rearmed {
      PacedRow(w, id, rearmed);
      ClaimSpends(w.db, id, now);
    }
    forall i | i in w'.db.deliveries && w'.db.deliveries[i].session !in rearmed ensures DeliveryPaced(w', i) {
      PacedRow(w, i, rearmed);
      ShapeRow(w.db, i);
      if i != id { OtherRowPaced(w, w', id, i); }
    }
  }

  /** A claim made in time leaves its session's waits within the deadline. */
  lemma ClaimSpends(db: AlertDb, id: Id, now: Time)
    requires id in db.deliveries && DeliveryOk(db, id)
    requires
      var b := db.budgets[db.deliveries[id].session];
      now >= b.startedAt + Wait(b.attempts + 1) && b.deadline - now >= 5.0
    ensures db.deliveries[id].session in TakeClaim(db, id, now).budgets
    ensures SpentOk(TakeClaim(db, id, now).budgets[db.deliveries[id].session])
  {
    hide Wait;
  }

  lemma OtherRowPaced(w: World, w': World, id: Id, i: Id)
    requires id in w.db.deliveries && i in w.db.deliveries && i in w'.db.deliveries && i != id
    requires DeliveryOk(w.db, id) && DeliveryOk(w.db, i) && DeliveryPaced(w, i)
    requires w'.db.deliveries[i] == w.db.deliveries[i]
    requires forall sid | sid in w.db.budgets && sid != w.db.deliveries[id].session ::
               sid in w'.db.budgets && w'.db.budgets[sid] == w.db.budgets[sid]
    requires w.db.nextId !in w.attempts && forall t | t in w.attempts :: t in w'.attempts && w'.attempts[t] == w.attempts[t]
    ensures DeliveryPaced(w', i)
  {
    hide Wait, LocalOk;
  }

  lemma PacedFrame(w: World, w': World, rearmed: set<Id>)
    requires Paced(w, rearmed) && w'.db == w.db && w'.attempts == w.attempts
    ensures Paced(w', rearmed)
  {
    forall id | id in w'.db.deliveries && w'.db.deliveries[id].session !in rearmed ensures DeliveryPaced(w', id) {
      assert DeliveryPaced(w, id);
    }
  }

  lemma SweptWorld(w: World, now: Time, rearmed: set<Id>)
    requires Inv(w) && Paced(w, rearmed)
    ensures Inv(w.(db := Sweep(w.db, now))) && Shape(Sweep(w.db, now)) && Paced(w.(db := Sweep(w.db, now)), rearmed)
    ensures w.db.nextId !in w.attempts && Sweep(w.db, now).nextId == w.db.nextId
  {
    InvBooks(w);
    SweepMoves(w, now);
    SweepPace(w.db, now);
    SweepIds(w.db, now);
    hide Sweep, Paced, PaceMoves, TablesMove, Books, Shape;
    TablesKeepInv(w, Sweep(w.db, now));
    MovesKeepPace(w, w.(db := Sweep(w.db, now)), rearmed);
    BooksShape(Sweep(w.db, now));
    TokenIsNew(w);
  }

  lemma ClaimedPace(w: World, now: Time, after: AlertDb, result: ClaimResult, rearmed: set<Id>)
    requires Inv(w) && Paced(w, rearmed) && ClaimDid(w.db, now, after, result) && result.Claimed?
    ensures Paced(w.(db := after, attempts := w.attempts[result.token := Started(after, result.id, result.version, now)]), rearmed)
  {
    hide *;
    SweptWorld(w, now, rearmed);
    ClaimFacts(w.db, now, after, result);
    var w1 := w.(db := Sweep(w.db, now));
    ShapeRow(w1.db, result.id);
    StartedAt(after, result.id, result.version, now);
    TakeClaimPace(w1, result.id, now, rearmed, Started(after, result.id, result.version, now));
  }

  lemma StartedAt(db: AlertDb, id: Id, version: nat, now: Time)
    ensures Started(db, id, version, now).claimedAt == now
  {
  }

  lemma UnclaimedPace(w: World, now: Time, after: AlertDb, result: ClaimResult, rearmed: set<Id>)
    requires Inv(w) && Paced(w, rearmed) && ClaimDid(w.db, now, after, result) && !result.Claimed?
    ensures Paced(w.(db := after), rearmed)
  {
    hide *;
    SweptWorld(w, now, rearmed);
    DidCases(w.db, now, after, result);
    var w1 := w.(db := Sweep(w.db, now));
    if result.FoundExhausted? {
      ExhaustPace(w1.db, result.id);
      MovesKeepPace(w1, w1.(db := after), rearmed);
    } else if result.Refused? {
      assert w.(db := after) == w;
    }
  }

  lemma ClaimPace(w: World, s: Step, rearmed: set<Id>)
    requires Inv(w) && Paced(w, rearmed) && s.ClaimStep? && Allowed(w, s)
    ensures Paced(Do(w, s), rearmed)
  {
    hide *;
    var (after, result) := Claim(w.db, s.ref, s.grant, s.transport, s.preview, s.now);
    ClaimCases(w.db, s.ref, s.grant, s.transport, s.preview, s.now);
    ClaimDo(w, s, after, result);
    if result.Claimed? {
      ClaimedPace(w, s.now, after, result, rearmed);
      PacedFrame(w.(db := after, attempts := w.attempts[result.token := Started(after, result.id, result.version, s.now)]),
                 Do(w, s), rearmed);
    } else {
      UnclaimedPace(w, s.now, after, result, rearmed);
    }
  }

  // ---------------------------------------------------------------- outcomes

  lemma BackoffSpacing(n: nat, factor: real)
    requires n >= 1 && 0.8 <= factor
    ensures Wait(n) + Backoff(n) * factor >= Wait(n + 1)
  {
    assert Backoff(n) * factor >= Backoff(n) * 0.8;
  }

  lemma FinishDue(db: AlertDb, id: Id, token: Id, version: nat, outcome: Outcome, factor: real, now: Time)
    requires Finish(db, id, token, version, outcome, factor, now).Ok?
    ensures
      var db' := Finish(db, id, token, version, outcome, factor, now).value;
      && id in db.deliveries && db.deliveries[id].session in db.budgets && db'.deliveries.Keys == db.deliveries.Keys
      && db.deliveries[id].state == InFlight && db.deliveries[id].claim == Some(token)
      && (forall i | i in db.deliveries && i != id :: db'.deliveries[i] == db.deliveries[i])
      && db'.deliveries[id].session == db.deliveries[id].session && db'.deliveries[id].state != InFlight
      && db'.budgets.Keys == db.budgets.Keys
      && (forall sid | sid in db.budgets :: db'.budgets[sid] == db.budgets[sid].(state := db'.budgets[sid].state))
      && (db'.deliveries[id].state == Pending ==>
            0.8 <= factor && db'.deliveries[id].nextDue >= now + Backoff(db.budgets[db.deliveries[id].session].attempts) * factor)
  {
  }

  lemma FinishedPace(w: World, db': AlertDb, id: Id, rearmed: set<Id>)
    requires Paced(w, rearmed) && id in w.db.deliveries && db'.deliveries.Keys == w.db.deliveries.Keys
    requires forall i | i in w.db.deliveries && i != id :: db'.deliveries[i] == w.db.deliveries[i]
    requires db'.deliveries[id].session == w.db.deliveries[id].session && db'.deliveries[id].state != InFlight
    requires db'.budgets.Keys == w.db.budgets.Keys
    requires forall sid | sid in w.db.budgets :: db'.budgets[sid] == w.db.budgets[sid].(state := db'.budgets[sid].state)
    requires w.db.deliveries[id].session in w.db.budgets && w.db.deliveries[id].session !in rearmed && db'.deliveries[id].state == Pending ==>
               db'.deliveries[id].nextDue >= w.db.budgets[w.db.deliveries[id].session].startedAt
                                             + Wait(w.db.budgets[w.db.deliveries[id].session].attempts + 1)
    ensures Paced(w.(db := db'), rearmed)
  {
    hide Wait;
    var w' := w.(db := db');
    forall i | i in w'.db.deliveries && w'.db.deliveries[i].session !in rearmed ensures DeliveryPaced(w', i) {
      assert DeliveryPaced(w, i);
    }
  }

  lemma FinishPace(w: World, id: Id, token: Id, version: nat, outcome: Outcome, factor: real, now: Time, rearmed: set<Id>)
    requires Paced(w, rearmed) && Shape(w.db) && token in w.attempts && w.attempts[token].claimedAt <= now
    requires Finish(w.db, id, token, version, outcome, factor, now).Ok?
    ensures Paced(w.(db := Finish(w.db, id, token, version, outcome, factor, now).value), rearmed)
  {
    hide Finish, Backoff, Wait, Shape, Paced;
    FinishDue(w.db, id, token, version, outcome, factor, now);
    var db' := Finish(w.db, id, token, version, outcome, factor, now).value;
    ShapeRow(w.db, id);
    var d := w.db.deliveries[id];
    var n := w.db.budgets[d.session].attempts;
    if d.session !in rearmed && db'.deliveries[id].state == Pending {
      PacedRow(w, id, rearmed);
      BackoffSpacing(n, factor);
    }
    FinishedPace(w, db', id, rearmed);
  }

  lemma SpentSame(b: Budget, b': Budget)
    requires SpentOk(b) && b'.attempts == b.attempts
    ensures SpentOk(b')
  {
  }

  lemma SettlePace(w: World, id: Id, expected: nat, answer: Option<Outcome>, checkNow: Time, dueNow: Time, rearmed: set<Id>)
    requires Paced(w, rearmed) && Shape(w.db) && Definite(answer)
    requires ApplyAnswer(w.db, id, expected, answer, checkNow, dueNow).Ok?
    requires PutsBackPending(w.db, id, expected, answer, checkNow, dueNow) ==> w.db.deliveries[id].session in rearmed
    ensures Paced(w.(db := ApplyAnswer(w.db, id, expected, answer, checkNow, dueNow).value), rearmed)
  {
    var w' := w.(db := ApplyAnswer(w.db, id, expected, answer, checkNow, dueNow).value);
    hide Wait, Shape, SpentOk, LocalOk, Definite;
    forall i | i in w'.db.deliveries && w'.db.deliveries[i].session !in rearmed ensures DeliveryPaced(w', i) {
      PacedRow(w, i, rearmed);
      ShapeRow(w.db, i);
    }
    forall sid | sid in w'.db.budgets && sid !in rearmed ensures SpentOk(w'.db.budgets[sid]) {
      SpentSame(w.db.budgets[sid], w'.db.budgets[sid]);
    }
  }

  lemma MoreRearmed(w: World, a: set<Id>, b: set<Id>)
    requires Paced(w, a) && a <= b
    ensures Paced(w, b)
  {
  }

  // ---------------------------------------------------------------- every run

  lemma AttemptsPace(w: World, token: Id, a: Attempt, rearmed: set<Id>)
    requires Paced(w, rearmed) && Shape(w.db) && token in w.attempts && a.claimedAt == w.attempts[token].claimedAt
    ensures Paced(w.(attempts := w.attempts[token := a]), rearmed)
  {
    PaceSame(w.db, w.db);
    hide Shape, Paced, PaceMoves;
    MovesKeepPace(w, w.(attempts := w.attempts[token := a]), rearmed);
  }

  lemma AdminStepPace(w: World, tx: Tx, rearmed: set<Id>)
    requires Inv(w) && Allowed(w, Admin(tx)) && Paced(w, rearmed)
    ensures Paced(Do(w, Admin(tx)), rearmed)
  {
    InvBooks(w);
    hide Inv, Books, Shape, Paced, PaceMoves, ExecTx;
    AdminPace(w.db, tx);
    MovesKeepPace(w, Do(w, Admin(tx)), rearmed);
  }

  lemma AskStepPace(w: World, s: Step, rearmed: set<Id>)
    requires Inv(w) && Allowed(w, s) && Paced(w, rearmed) && s.Ask?
    ensures Paced(Do(w, s), rearmed)
  {
    InvBooks(w);
    hide Inv, Books, Shape, Paced, PaceMoves, CountQuery;
    AskPace(w.db, s.id, s.grant, s.expected, s.transport);
    MovesKeepPace(w, Do(w, s), rearmed);
  }

  lemma FinishStepPace(w: World, s: Step, rearmed: set<Id>)
    requires Inv(w) && Allowed(w, s) && Ordered(w, s) && Paced(w, rearmed) && s.FinishStep?
    ensures Paced(Do(w, s), rearmed)
  {
    InvBooks(w);
    hide Inv, Books, Shape, Paced, Finish, Sanitized;
    var a := w.attempts[s.token];
    var outcome := Sanitized(a.returned.value);
    var r := Finish(w.db, a.delivery, s.token, a.version, outcome, s.factor, s.now);
    if r.Ok? {
      FinishPace(w, a.delivery, s.token, a.version, outcome, s.factor, s.now, rearmed);
      PacedFrame(w.(db := r.value), Do(w, s), rearmed);
    }
  }

  lemma AttemptStepPace(w: World, s: Step, rearmed: set<Id>)
    requires Inv(w) && Allowed(w, s) && Paced(w, rearmed) && (s.ProviderAccepts? || s.SendReturns?)
    ensures Paced(Do(w, s), rearmed)
  {
    InvBooks(w);
    hide Inv, Books, Shape, Paced;
    match s
    case ProviderAccepts(token) => AttemptsPace(w, token, w.attempts[token].(accepted := true), rearmed);
    case SendReturns(token, raw) => AttemptsPace(w, token, w.attempts[token].(returned := Some(raw)), rearmed);
  }

  lemma DoKeepsPace(w: World, s: Step, rearmed: set<Id>)
    requires Inv(w) && Allowed(w, s) && Ordered(w, s) && Paced(w, rearmed)
    ensures Paced(Do(w, s), rearmed + RearmedBy(w, s))
  {
    var after := rearmed + RearmedBy(w, s);
    MoreRearmed(w, rearmed, after);
    hide Inv, Paced, RearmedBy, Allowed, Claim, Finish, ApplyAnswer, CountQuery, ExecTx, Ordered;
    match s
    case Tick(delta) => PacedFrame(w, Do(w, s), after);
    case Answered(_, _) => PacedFrame(w, Do(w, s), after);
    case Admin(tx) => AdminStepPace(w, tx, after);
    case Ask(_, _, _, _) => AskStepPace(w, s, after);
    case ClaimStep(_, _, _, _, _) => ClaimPace(w, s, after);
    case ProviderAccepts(_) => AttemptStepPace(w, s, after);
    case SendReturns(_, _) => AttemptStepPace(w, s, after);
    case FinishStep(_, _, _) => FinishStepPace(w, s, after);
    case SettleStep(_, _, _) => SettleStepPace(w, s, after);
  }

  lemma SettleStepPace(w: World, s: Step, after: set<Id>)
    requires Inv(w) && s.SettleStep? && Allowed(w, s) && Paced(w, after) && RearmedBy(w, s) <= after
    ensures Paced(Do(w, s), after)
  {
    var q := w.queries[s.query];
    var r := ApplyAnswer(w.db, q.delivery, q.version, q.answer.value, s.checkNow, s.dueNow);
    InvBooks(w);
    hide Inv, Books, Shape, Paced, ApplyAnswer, Definite, PutsBackPending;
    if r.Ok? && Definite(q.answer.value) {
      SettlePace(w, q.delivery, q.version, q.answer.value, s.checkNow, s.dueNow, after);
      PacedFrame(w.(db := r.value), Do(w, s), after);
    }
  }

  lemma {:induction false} RunKeepsPace(incidents: IncidentDb, clock: Time, steps: seq<Step>)
    requires Runs(Start(incidents, clock), steps) && OrderedRun(Start(incidents, clock), steps)
    ensures Paced(Final(Start(incidents, clock), steps), Rearmed(Start(incidents, clock), steps))
    decreases |steps|
  {
    var w0 := Start(incidents, clock);
    if steps != [] {
      hide Paced, Allowed, Do, Inv, Ordered;
      var before := steps[..|steps| - 1];
      RunKeepsPace(incidents, clock, before);
      RunKeepsInv(incidents, clock, before);
      DoKeepsPace(Final(w0, before), steps[|steps| - 1], Rearmed(w0, before));
    }
  }

  /**
   In every run, a session none of whose ambiguous outcomes was put back to pending is claimed at most 124 times:
   its deadline, not the cap of 128 attempts, is what ends it.
   */
  lemma DeadlineBindsFirst(incidents: IncidentDb, clock: Time, steps: seq<Step>, sid: Id)
    requires Runs(Start(incidents, clock), steps) && OrderedRun(Start(incidents, clock), steps)
    requires sid in Final(Start(incidents, clock), steps).db.budgets && sid !in Rearmed(Start(incidents, clock), steps)
    ensures Final(Start(incidents, clock), steps).db.budgets[sid].attempts <= 124
  {
    RunKeepsPace(incidents, clock, steps);
    var b := Final(Start(incidents, clock), steps).db.budgets[sid];
    assert SpentOk(b);
    if b.attempts > 0 { ClaimInTime(b.attempts); }
  }

  /** The nth claim of such a session: from the fifth on, 304 seconds and 720 more for each claim after it. */
  lemma NthClaimIsLate(incidents: IncidentDb, clock: Time, steps: seq<Step>, s: Step)
    requires Runs(Start(incidents, clock), steps) && OrderedRun(Start(incidents, clock), steps)
    requires s.ClaimStep? && Allowed(Final(Start(incidents, clock), steps), s)
    ensures
      var w := Final(Start(incidents, clock), steps);
      var (db', result) := Claim(w.db, s.ref, s.grant, s.transport, s.preview, s.now);
      result.Claimed? ==>
        && result.id in db'.deliveries && db'.deliveries[result.id].session in db'.budgets
        && var sid := db'.deliveries[result.id].session;
        var n := db'.budgets[sid].attempts;
        sid !in Rearmed(Start(incidents, clock), steps) && n >= 5 ==>
          s.now >= db'.budgets[sid].startedAt + 304.0 + 720.0 * (n - 5) as real
  {
    var w := Final(Start(incidents, clock), steps);
    var rearmed := Rearmed(Start(incidents, clock), steps);
    RunKeepsPace(incidents, clock, steps);
    RunKeepsInv(incidents, clock, steps);
    ClaimCases(w.db, s.ref, s.grant, s.transport, s.preview, s.now);
    var (db', result) := Claim(w.db, s.ref, s.grant, s.transport, s.preview, s.now);
    SweptWorld(w, s.now, rearmed);
    hide Inv, Paced, Claim, ClaimDid, Shape, Sweep, Final, Runs, Rearmed, OrderedRun;
    if result.Claimed? {
      ClaimFacts(w.db, s.now, db', result);
      var w1 := w.(db := Sweep(w.db, s.now));
      ShapeRow(w1.db, result.id);
      TakeClaimPace(w1, result.id, s.now, rearmed, Started(db', result.id, result.version, s.now));
    }
  }
}
