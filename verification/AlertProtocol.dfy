/**
 What every transaction of the outbox keeps: deliveries agree with their budget sessions, attempts are
 conserved, quotas hold, and each change of a delivery spends a finite measure. No property here needs
 anything of the clock: the readings may be any times at all.
 */
module AlertProtocol {
  import opened Common
  import opened Incidents
  import opened AlertModel

  // ---------------------------------------------------------------- shape

  ghost predicate StateAgrees(d: DeliveryState, b: BudgetState) {
    match d
    case Pending => b == Active
    case InFlight => b == Active
    case Exhausted => b == Active || b == Closed(Exhausted)
    case _ => b == Closed(d)
  }

  ghost predicate LocalOk(d: Delivery, b: Budget) {
    && StateAgrees(d.state, b.state)
    && d.queries <= MAX_QUERIES
    && (d.claim.Some? <==> d.state == InFlight)
    && (d.state == InFlight ==> d.leaseUntil.Some? && b.attempts >= 1)
    && b.maxAttempts == MAX_ATTEMPTS && b.attempts <= MAX_ATTEMPTS
    && b.deadline == b.startedAt + BUDGET_SECONDS
  }

  ghost predicate DeliveryOk(db: AlertDb, id: Id)
    requires id in db.deliveries
  {
    var d := db.deliveries[id];
    && id < db.nextId && d.session < db.nextId
    && d.session in db.budgets && db.budgets[d.session].delivery == id
    && LocalOk(d, db.budgets[d.session])
    && d.dest in db.dests && d.config == db.dests[d.dest].config
  }

  ghost predicate BudgetOk(db: AlertDb, sid: Id)
    requires sid in db.budgets
  {
    var b := db.budgets[sid];
    && sid < db.nextId && b.delivery in db.deliveries
    && b.maxAttempts == MAX_ATTEMPTS && b.attempts <= MAX_ATTEMPTS
    && b.deadline == b.startedAt + BUDGET_SECONDS
    && (db.deliveries[b.delivery].session != sid ==> b.state == Closed(Exhausted))
  }

  /** A delivery and its active session agree, and a session that is no longer active is closed as exhausted. */
  ghost predicate Shape(db: AlertDb) {
    && (forall id | id in db.deliveries :: DeliveryOk(db, id))
    && (forall sid | sid in db.budgets :: BudgetOk(db, sid))
  }

  // ---------------------------------------------------------------- accounting

  function AttemptsOf(budgets: map<Id, Budget>, id: Id, sid: Id): nat {
    if sid in budgets && budgets[sid].delivery == id then budgets[sid].attempts else 0
  }

  /** The attempts spent over all of a delivery's budget sessions with an id below `n`. */
  function AttemptSum(budgets: map<Id, Budget>, id: Id, n: nat): nat {
    if n == 0 then 0 else AttemptSum(budgets, id, n - 1) + AttemptsOf(budgets, id, n - 1)
  }

  function SessionCount(budgets: map<Id, Budget>, id: Id, n: nat): nat {
    if n == 0 then 0 else
      SessionCount(budgets, id, n - 1) + (if n - 1 in budgets && budgets[n - 1].delivery == id then 1 else 0)
  }

  function Rank(s: DeliveryState): nat {
    match s case InFlight => 3 case Unknown => 2 case Pending => 1 case _ => 0
  }

  /** What a delivery may still spend in its active session. */
  function Measure(d: Delivery, b: Budget): int {
    4 * (b.maxAttempts - b.attempts) + Rank(d.state)
  }

  ghost predicate AccountOk(db: AlertDb, id: Id)
    requires id in db.deliveries && db.deliveries[id].session in db.budgets
  {
    var d := db.deliveries[id];
    var sessions := SessionCount(db.budgets, id, db.nextId);
    && d.totalAttempts == AttemptSum(db.budgets, id, db.nextId)
    && sessions >= 1
    && d.version + Measure(d, db.budgets[d.session]) <= 513 + 514 * (sessions - 1)
  }

  ghost predicate Accounts(db: AlertDb)
    requires Shape(db)
  {
    forall id | id in db.deliveries :: AccountOk(db, id)
  }

  lemma {:induction false} SumSame(a: map<Id, Budget>, b: map<Id, Budget>, id: Id, n: nat)
    requires forall sid: Id | sid < n :: AttemptsOf(a, id, sid) == AttemptsOf(b, id, sid)
    ensures AttemptSum(a, id, n) == AttemptSum(b, id, n)
  {
    if n > 0 {
      SumSame(a, b, id, n - 1);
    }
  }

  lemma {:induction false} SumChange(a: map<Id, Budget>, id: Id, sid: Id, b: Budget, n: nat)
    requires sid in a && sid < n && a[sid].delivery == id && b.delivery == id
    ensures AttemptSum(a[sid := b], id, n) == AttemptSum(a, id, n) - a[sid].attempts + b.attempts
  {
    if sid == n - 1 {
      SumSame(a, a[sid := b], id, n - 1);
    } else {
      SumChange(a, id, sid, b, n - 1);
    }
  }

  lemma {:induction false} SumBeyond(a: map<Id, Budget>, id: Id, m: nat, n: nat)
    requires m <= n && forall sid | sid in a :: sid < m
    ensures AttemptSum(a, id, n) == AttemptSum(a, id, m) && SessionCount(a, id, n) == SessionCount(a, id, m)
    decreases n
  {
    if m < n {
      SumBeyond(a, id, m, n - 1);
    }
  }

  lemma {:induction false} CountSame(a: map<Id, Budget>, b: map<Id, Budget>, id: Id, n: nat)
    requires forall sid: Id | sid < n :: (sid in a && a[sid].delivery == id) <==> (sid in b && b[sid].delivery == id)
    ensures SessionCount(a, id, n) == SessionCount(b, id, n)
  {
    if n > 0 {
      CountSame(a, b, id, n - 1);
    }
  }

  lemma {:induction false} SumBound(a: map<Id, Budget>, id: Id, n: nat)
    requires forall sid | sid in a :: a[sid].attempts <= MAX_ATTEMPTS
    ensures AttemptSum(a, id, n) <= MAX_ATTEMPTS * SessionCount(a, id, n)
  {
    if n > 0 {
      SumBound(a, id, n - 1);
    }
  }

  // ---------------------------------------------------------------- one delivery changes

  /** A transaction that rewrites one delivery and its active budget session. */
  function Rewrite(db: AlertDb, id: Id, d: Delivery, b: Budget, nextId: Id): AlertDb
    requires id in db.deliveries
  {
    db.(deliveries := db.deliveries[id := d], budgets := db.budgets[db.deliveries[id].session := b], nextId := nextId)
  }

  ghost predicate SameIdentity(d: Delivery, d': Delivery) {
    && d'.incident == d.incident && d'.dest == d.dest && d'.episode == d.episode && d'.phase == d.phase
    && d'.payload == d.payload && d'.config == d.config
  }

  /** The local facts that make a rewrite legal. */
  ghost predicate GoodRewrite(db: AlertDb, id: Id, d: Delivery, b: Budget, nextId: Id)
    requires id in db.deliveries && db.deliveries[id].session in db.budgets
  {
    var old_d, old_b := db.deliveries[id], db.budgets[db.deliveries[id].session];
    && db.nextId <= nextId
    && SameIdentity(old_d, d) && d.session == old_d.session
    && b.delivery == old_b.delivery && LocalOk(d, b)
    && d.totalAttempts - old_d.totalAttempts == b.attempts - old_b.attempts
    && d.version + Measure(d, b) <= old_d.version + Measure(old_d, old_b)
  }

  lemma RewriteKeepsShape(db: AlertDb, id: Id, d: Delivery, b: Budget, nextId: Id)
    requires Shape(db) && id in db.deliveries && DeliveryOk(db, id) && GoodRewrite(db, id, d, b, nextId)
    ensures Shape(Rewrite(db, id, d, b, nextId))
  {
    var db' := Rewrite(db, id, d, b, nextId);
    forall i | i in db'.deliveries ensures DeliveryOk(db', i) {
      assert DeliveryOk(db, i);
    }
    forall sid | sid in db'.budgets ensures BudgetOk(db', sid) {
      assert BudgetOk(db, sid);
    }
  }

  lemma ReplaceBudget(a: map<Id, Budget>, sid: Id, b: Budget, i: Id, m: nat, n: nat)
    requires sid in a && b.delivery == a[sid].delivery && m <= n && forall s | s in a :: s < m
    ensures AttemptSum(a[sid := b], i, n) == AttemptSum(a, i, m) + (if a[sid].delivery == i then b.attempts - a[sid].attempts else 0)
    ensures SessionCount(a[sid := b], i, n) == SessionCount(a, i, m)
  {
    CountSame(a, a[sid := b], i, m);
    SumBeyond(a[sid := b], i, m, n);
    if a[sid].delivery == i {
      SumChange(a, i, sid, b, m);
    } else {
      SumSame(a, a[sid := b], i, m);
    }
  }

  lemma RewriteAccount(db: AlertDb, id: Id, d: Delivery, b: Budget, nextId: Id, i: Id)
    requires Shape(db) && id in db.deliveries && DeliveryOk(db, id)
    requires GoodRewrite(db, id, d, b, nextId) && i in db.deliveries && DeliveryOk(db, i) && AccountOk(db, i)
    ensures i in Rewrite(db, id, d, b, nextId).deliveries
    ensures Rewrite(db, id, d, b, nextId).deliveries[i].session in Rewrite(db, id, d, b, nextId).budgets
    ensures AccountOk(Rewrite(db, id, d, b, nextId), i)
  {
    BudgetsBelow(db);
    hide Shape, LocalOk, Measure, SameIdentity;
    ReplaceBudget(db.budgets, db.deliveries[id].session, b, i, db.nextId, nextId);
  }

  lemma RewriteKeepsAccounts(db: AlertDb, id: Id, d: Delivery, b: Budget, nextId: Id)
    requires Shape(db) && Accounts(db) && id in db.deliveries && DeliveryOk(db, id) && GoodRewrite(db, id, d, b, nextId)
    ensures Shape(Rewrite(db, id, d, b, nextId)) && Accounts(Rewrite(db, id, d, b, nextId))
  {
    RewriteKeepsShape(db, id, d, b, nextId);
    hide AccountOk, LocalOk, Measure, SameIdentity;
    forall i | i in Rewrite(db, id, d, b, nextId).deliveries ensures AccountOk(Rewrite(db, id, d, b, nextId), i) {
      assert DeliveryOk(db, i) && AccountOk(db, i);
      RewriteAccount(db, id, d, b, nextId, i);
    }
  }

  lemma ShapeRow(db: AlertDb, id: Id)
    requires Shape(db) && id in db.deliveries
    ensures DeliveryOk(db, id)
  {
  }

  lemma AccountRow(db: AlertDb, id: Id)
    requires Shape(db) && Accounts(db) && id in db.deliveries
    ensures db.deliveries[id].session in db.budgets && AccountOk(db, id)
  {
    ShapeRow(db, id);
  }

  lemma BudgetsBelow(db: AlertDb)
    requires Shape(db)
    ensures forall sid | sid in db.budgets :: sid < db.nextId
  {
    forall sid | sid in db.budgets ensures sid < db.nextId {
      assert BudgetOk(db, sid);
    }
  }

  // ---------------------------------------------------------------- the sweep

  /** Under the invariant, the sweep's set updates act on each delivery and its own session. */
  function SweptBudget(d: Delivery, b: Budget): Budget {
    if d.state == Unknown || d.state == Exhausted then b.(state := Closed(d.state)) else b
  }

  /** The session of a delivery names that delivery, so no other delivery holds it. */
  lemma OneHolder(db: AlertDb, sid: Id)
    requires Shape(db) && sid in db.budgets
    ensures db.budgets[sid].delivery in db.deliveries
    ensures forall i | i in db.deliveries && db.deliveries[i].session == sid :: i == db.budgets[sid].delivery
  {
    assert BudgetOk(db, sid);
    forall i | i in db.deliveries && db.deliveries[i].session == sid ensures i == db.budgets[sid].delivery {
      assert DeliveryOk(db, i);
    }
  }

  lemma HeldByOwner(deliveries: map<Id, Delivery>, sid: Id, owner: Id, state: DeliveryState)
    requires owner in deliveries && forall i | i in deliveries && deliveries[i].session == sid :: i == owner
    ensures HeldBy(deliveries, sid, state) <==> deliveries[owner].session == sid && deliveries[owner].state == state
  {
  }

  lemma SweptHolder(db: AlertDb, now: Time, sid: Id, state: DeliveryState)
    requires Shape(db) && sid in db.budgets
    ensures db.budgets[sid].delivery in db.deliveries
    ensures
      var d := db.deliveries[db.budgets[sid].delivery];
      HeldBy(Sweep(db, now).deliveries, sid, state) <==> d.session == sid && SweptDelivery(db.budgets, d, now).state == state
  {
    hide Shape, Sweep, HeldBy;
    OneHolder(db, sid);
    SweepIds(db, now);
    var swept := Sweep(db, now).deliveries;
    forall i | i in swept && swept[i].session == sid ensures i == db.budgets[sid].delivery {
      assert db.deliveries[i].session == sid;
    }
    HeldByOwner(swept, sid, db.budgets[sid].delivery, state);
  }

  lemma SweptBudgetIs(db: AlertDb, now: Time, sid: Id)
    requires sid in db.budgets
    ensures
      var swept := Sweep(db, now).deliveries;
      && sid in Sweep(db, now).budgets
      && Sweep(db, now).budgets[sid] ==
           if HeldBy(swept, sid, Unknown) then db.budgets[sid].(state := Closed(Unknown))
           else if HeldBy(swept, sid, Exhausted) then db.budgets[sid].(state := Closed(Exhausted))
           else db.budgets[sid]
  {
    hide HeldBy, SweptDelivery;
  }

  lemma SweepLocal(db: AlertDb, now: Time, sid: Id)
    requires Shape(db) && sid in db.budgets
    ensures sid in Sweep(db, now).budgets && db.budgets[sid].delivery in db.deliveries
    ensures
      var d := db.deliveries[db.budgets[sid].delivery];
      Sweep(db, now).budgets[sid] ==
        if d.session == sid then SweptBudget(SweptDelivery(db.budgets, d, now), db.budgets[sid]) else db.budgets[sid]
  {
    SweptBudgetIs(db, now, sid);
    SweptHolder(db, now, sid, Unknown);
    SweptHolder(db, now, sid, Exhausted);
    hide Shape, Sweep, HeldBy, SweptDelivery;
  }

  /** One delivery and its own session, swept together, still agree. */
  lemma SweptAgrees(budgets: map<Id, Budget>, d: Delivery, b: Budget, now: Time)
    requires d.session in budgets && budgets[d.session] == b && LocalOk(d, b)
    ensures
      var d' := SweptDelivery(budgets, d, now);
      && LocalOk(d', SweptBudget(d', b)) && SameIdentity(d, d') && d'.session == d.session
      && (d'.state == Pending ==> SweptBudget(d', b) == b && b.attempts < MAX_ATTEMPTS && b.deadline > now)
  {
  }

  lemma SweepKeepsDelivery(db: AlertDb, now: Time, id: Id)
    requires Shape(db) && id in db.deliveries
    ensures id in Sweep(db, now).deliveries && DeliveryOk(Sweep(db, now), id)
    ensures Sweep(db, now).deliveries[id].state == Pending ==>
              && Sweep(db, now).budgets[db.deliveries[id].session].attempts < MAX_ATTEMPTS
              && Sweep(db, now).budgets[db.deliveries[id].session].deadline > now
  {
    assert DeliveryOk(db, id);
    var sid := db.deliveries[id].session;
    SweepLocal(db, now, sid);
    SweepIds(db, now);
    SweptAgrees(db.budgets, db.deliveries[id], db.budgets[sid], now);
    hide Shape, Sweep, LocalOk, SweptDelivery, SweptBudget;
  }

  lemma SweptBudgetKeeps(d: Delivery, b: Budget)
    ensures SweptBudget(d, b) == b.(state := SweptBudget(d, b).state)
  {
  }

  lemma BudgetCarries(db: AlertDb, db': AlertDb, sid: Id)
    requires sid in db.budgets && BudgetOk(db, sid) && db'.nextId == db.nextId && sid in db'.budgets
    requires db'.budgets[sid] == db.budgets[sid].(state := db'.budgets[sid].state)
    requires
      var owner := db.budgets[sid].delivery;
      && owner in db.deliveries && owner in db'.deliveries && db'.deliveries[owner].session == db.deliveries[owner].session
      && (db.deliveries[owner].session != sid ==> db'.budgets[sid] == db.budgets[sid])
    ensures BudgetOk(db', sid)
  {
  }

  lemma SweptSession(budgets: map<Id, Budget>, d: Delivery, now: Time)
    ensures SweptDelivery(budgets, d, now).session == d.session
  {
  }

  lemma SweepKeepsBudget(db: AlertDb, now: Time, sid: Id)
    requires Shape(db) && sid in db.budgets
    ensures sid in Sweep(db, now).budgets && BudgetOk(Sweep(db, now), sid)
  {
    assert BudgetOk(db, sid);
    hide *;
    OneHolder(db, sid);
    var d := db.deliveries[db.budgets[sid].delivery];
    SweepLocal(db, now, sid);
    SweepIds(db, now);
    SweptBudgetKeeps(SweptDelivery(db.budgets, d, now), db.budgets[sid]);
    SweptSession(db.budgets, d, now);
    BudgetCarries(db, Sweep(db, now), sid);
  }

  lemma SweepKeepsShape(db: AlertDb, now: Time)
    requires Shape(db)
    ensures Shape(Sweep(db, now))
  {
    SweepIds(db, now);
    SweepBudgets(db, now);
    hide Sweep, DeliveryOk, BudgetOk;
    forall id | id in Sweep(db, now).deliveries ensures DeliveryOk(Sweep(db, now), id) {
      SweepKeepsDelivery(db, now, id);
    }
    forall sid | sid in Sweep(db, now).budgets ensures BudgetOk(Sweep(db, now), sid) {
      SweepKeepsBudget(db, now, sid);
    }
  }

  lemma SweepKeepsAccounts(db: AlertDb, now: Time)
    requires Shape(db) && Accounts(db)
    ensures Shape(Sweep(db, now)) && Accounts(Sweep(db, now))
  {
    SweepKeepsShape(db, now);
    SweepIds(db, now);
    hide Sweep, Shape, AccountOk;
    forall id | id in Sweep(db, now).deliveries ensures AccountOk(Sweep(db, now), id) {
      SweepAccount(db, now, id);
    }
  }

  lemma SweepBudgets(db: AlertDb, now: Time)
    ensures Sweep(db, now).budgets.Keys == db.budgets.Keys
    ensures forall sid | sid in db.budgets ::
              && Sweep(db, now).budgets[sid].delivery == db.budgets[sid].delivery
              && Sweep(db, now).budgets[sid].attempts == db.budgets[sid].attempts
              && Sweep(db, now).budgets[sid].maxAttempts == db.budgets[sid].maxAttempts
  {
    hide HeldBy, SweptDelivery;
  }

  lemma SweptSpends(budgets: map<Id, Budget>, d: Delivery, b: Budget, b': Budget, now: Time)
    requires b'.attempts == b.attempts && b'.maxAttempts == b.maxAttempts
    ensures
      var d' := SweptDelivery(budgets, d, now);
      d'.totalAttempts == d.totalAttempts && d'.session == d.session && d'.version + Measure(d', b') <= d.version + Measure(d, b)
  {
  }

  lemma SweepAccount(db: AlertDb, now: Time, id: Id)
    requires Shape(db) && Accounts(db) && id in db.deliveries
    ensures id in Sweep(db, now).deliveries && db.deliveries[id].session in Sweep(db, now).budgets
    ensures Sweep(db, now).deliveries[id].session == db.deliveries[id].session && AccountOk(Sweep(db, now), id)
  {
    hide Shape, Accounts, Sweep, SweptDelivery, Measure, LocalOk;
    var budgets' := Sweep(db, now).budgets;
    ShapeRow(db, id);
    AccountRow(db, id);
    var sid := db.deliveries[id].session;
    SweepBudgets(db, now);
    SweepIds(db, now);
    SweptSpends(db.budgets, db.deliveries[id], db.budgets[sid], budgets'[sid], now);
    SumSame(db.budgets, budgets', id, db.nextId);
    CountSame(db.budgets, budgets', id, db.nextId);
  }

  // ---------------------------------------------------------------- a new delivery, a new budget

  lemma InsertKeepsShape(db: AlertDb, id: Id, ref: DestRef, human: bool, now: Time)
    requires Shape(db) && id in db.incidents.rows && ref in db.dests
    ensures Shape(InsertDelivery(db, id, ref, human, now))
  {
    var db' := InsertDelivery(db, id, ref, human, now);
    forall i | i in db'.deliveries ensures DeliveryOk(db', i) {
      if i in db.deliveries { assert DeliveryOk(db, i); }
    }
    forall sid | sid in db'.budgets ensures BudgetOk(db', sid) {
      if sid in db.budgets { assert BudgetOk(db, sid); }
    }
  }

  /** A budget session with a new identifier adds its own attempts and one to the count of its delivery. */
  lemma AddBudget(a: map<Id, Budget>, k: Id, b: Budget, id: Id, n: nat)
    requires n <= k && forall sid | sid in a :: sid < n
    ensures AttemptSum(a[k := b], id, k + 1) == AttemptSum(a, id, n) + (if b.delivery == id then b.attempts else 0)
    ensures SessionCount(a[k := b], id, k + 1) == SessionCount(a, id, n) + (if b.delivery == id then 1 else 0)
  {
    SumBeyond(a, id, n, k);
    SumSame(a, a[k := b], id, k);
    CountSame(a, a[k := b], id, k);
  }

  lemma InsertAccount(db: AlertDb, id: Id, ref: DestRef, human: bool, now: Time, i: Id)
    requires Shape(db) && Accounts(db) && id in db.incidents.rows && ref in db.dests
    requires i in InsertDelivery(db, id, ref, human, now).deliveries
    ensures InsertDelivery(db, id, ref, human, now).deliveries[i].session in InsertDelivery(db, id, ref, human, now).budgets
    ensures AccountOk(InsertDelivery(db, id, ref, human, now), i)
  {
    BudgetsBelow(db);
    AddBudget(db.budgets, db.nextId + 1, NewBudget(db.nextId, human, now), i, db.nextId);
    if i in db.deliveries {
      assert AccountOk(db, i) && DeliveryOk(db, i);
    } else {
      NoBudgets(db, i);
    }
    hide Shape, Accounts, EpisodeOf;
  }

  lemma InsertKeepsAccounts(db: AlertDb, id: Id, ref: DestRef, human: bool, now: Time)
    requires Shape(db) && Accounts(db) && id in db.incidents.rows && ref in db.dests
    ensures Shape(InsertDelivery(db, id, ref, human, now)) && Accounts(InsertDelivery(db, id, ref, human, now))
  {
    InsertKeepsShape(db, id, ref, human, now);
    forall i | i in InsertDelivery(db, id, ref, human, now).deliveries
      ensures AccountOk(InsertDelivery(db, id, ref, human, now), i)
    {
      InsertAccount(db, id, ref, human, now, i);
    }
  }

  lemma {:induction false} NoneBelow(budgets: map<Id, Budget>, id: Id, n: nat)
    requires forall sid | sid in budgets :: budgets[sid].delivery != id
    ensures AttemptSum(budgets, id, n) == 0 && SessionCount(budgets, id, n) == 0
  {
    if n > 0 {
      NoneBelow(budgets, id, n - 1);
    }
  }

  lemma NoBudgets(db: AlertDb, id: Id)
    requires Shape(db) && id !in db.deliveries
    ensures AttemptSum(db.budgets, id, db.nextId) == 0 && SessionCount(db.budgets, id, db.nextId) == 0
  {
    forall sid | sid in db.budgets ensures db.budgets[sid].delivery != id {
      assert BudgetOk(db, sid);
    }
    NoneBelow(db.budgets, id, db.nextId);
  }

  lemma RenewKeepsShape(db: AlertDb, id: Id, now: Time)
    requires Shape(db) && id in db.deliveries && DeliveryOk(db, id) && db.deliveries[id].state == Exhausted
    ensures Shape(RenewBudget(db, id, now))
  {
    var db' := RenewBudget(db, id, now);
    forall i | i in db'.deliveries ensures DeliveryOk(db', i) {
      assert DeliveryOk(db, i);
    }
    forall sid | sid in db'.budgets ensures BudgetOk(db', sid) {
      if sid in db.budgets { assert BudgetOk(db, sid); }
    }
  }

  lemma RenewSums(a: map<Id, Budget>, sid: Id, b: Budget, added: Budget, i: Id, n: nat)
    requires sid in a && b.delivery == a[sid].delivery && b.attempts == a[sid].attempts && forall s | s in a :: s < n
    ensures AttemptSum(a[sid := b][n := added], i, n + 1) == AttemptSum(a, i, n) + (if added.delivery == i then added.attempts else 0)
    ensures SessionCount(a[sid := b][n := added], i, n + 1) == SessionCount(a, i, n) + (if added.delivery == i then 1 else 0)
  {
    SumSame(a, a[sid := b], i, n);
    CountSame(a, a[sid := b], i, n);
    AddBudget(a[sid := b], n, added, i, n);
  }

  lemma RenewAccount(db: AlertDb, id: Id, now: Time, i: Id)
    requires Shape(db) && Accounts(db) && id in db.deliveries && DeliveryOk(db, id) && db.deliveries[id].state == Exhausted
    requires i in db.deliveries
    ensures RenewBudget(db, id, now).deliveries[i].session in RenewBudget(db, id, now).budgets
    ensures AccountOk(RenewBudget(db, id, now), i)
  {
    hide Shape, Accounts, StateAgrees;
    ShapeRow(db, i);
    AccountRow(db, i);
    AccountRow(db, id);
    BudgetsBelow(db);
    var sid := db.deliveries[id].session;
    RenewSums(db.budgets, sid, db.budgets[sid].(state := Closed(Exhausted)), NewBudget(id, true, now), i, db.nextId);
  }

  lemma RenewKeepsAccounts(db: AlertDb, id: Id, now: Time)
    requires Shape(db) && Accounts(db) && id in db.deliveries && DeliveryOk(db, id) && db.deliveries[id].state == Exhausted
    ensures Shape(RenewBudget(db, id, now)) && Accounts(RenewBudget(db, id, now))
  {
    RenewKeepsShape(db, id, now);
    forall i | i in RenewBudget(db, id, now).deliveries ensures AccountOk(RenewBudget(db, id, now), i) {
      RenewAccount(db, id, now, i);
    }
  }

  // ---------------------------------------------------------------- each transaction is one of these

  lemma TakeClaimRewrites(db: AlertDb, id: Id, now: Time)
    requires Shape(db) && id in db.deliveries && DeliveryOk(db, id) && db.deliveries[id].state == Pending
    requires db.budgets[db.deliveries[id].session].attempts < MAX_ATTEMPTS
    ensures
      var db' := TakeClaim(db, id, now);
      var d, b := db'.deliveries[id], db'.budgets[db.deliveries[id].session];
      GoodRewrite(db, id, d, b, db.nextId + 1) && db' == Rewrite(db, id, d, b, db.nextId + 1)
  {
  }

  lemma ExhaustRewrites(db: AlertDb, id: Id)
    requires Shape(db) && id in db.deliveries && DeliveryOk(db, id) && db.deliveries[id].state == Pending
    ensures
      var db' := ExhaustInPlace(db, id);
      var d, b := db'.deliveries[id], db.budgets[db.deliveries[id].session];
      GoodRewrite(db, id, d, b, db.nextId) && db' == Rewrite(db, id, d, b, db.nextId)
  {
    var sid := db.deliveries[id].session;
    assert db.budgets[sid := db.budgets[sid]] == db.budgets;
  }

  /** What `_finish` writes: the delivery leaves its claim, and its session closes unless it is pending again. */
  lemma FinishIs(db: AlertDb, id: Id, token: Id, version: nat, outcome: Outcome, factor: real, now: Time)
    requires Finish(db, id, token, version, outcome, factor, now).Ok?
    ensures id in db.deliveries && db.deliveries[id].session in db.budgets && db.deliveries[id].state == InFlight
    ensures
      var db' := Finish(db, id, token, version, outcome, factor, now).value;
      var d, b := db.deliveries[id], db.budgets[db.deliveries[id].session];
      && id in db'.deliveries && d.session in db'.budgets
      && var d', b' := db'.deliveries[id], db'.budgets[d.session];
      && d' == d.(state := d'.state, version := d.version + 1, nextDue := d'.nextDue, claim := None, leaseUntil := None, receipt := d'.receipt)
      && d'.state != InFlight && b' == (if d'.state == Pending then b else b.(state := Closed(d'.state)))
      && db' == Rewrite(db, id, d', b', db.nextId)
  {
    hide RetryDelay, CurrentClaim;
    FinishHeld(db, id, token, version, outcome, factor, now);
    var sid := db.deliveries[id].session;
    assert db.budgets[sid := db.budgets[sid]] == db.budgets;
  }

  lemma FinishHeld(db: AlertDb, id: Id, token: Id, version: nat, outcome: Outcome, factor: real, now: Time)
    requires Finish(db, id, token, version, outcome, factor, now).Ok?
    ensures CurrentClaim(db, id, token, version, now)
    ensures id in db.deliveries && db.deliveries[id].session in db.budgets && db.deliveries[id].state == InFlight
  {
  }

  lemma FinishRewrites(db: AlertDb, id: Id, token: Id, version: nat, outcome: Outcome, factor: real, now: Time)
    requires Shape(db) && Finish(db, id, token, version, outcome, factor, now).Ok?
    ensures id in db.deliveries && DeliveryOk(db, id) && db.deliveries[id].state == InFlight
    ensures
      var db' := Finish(db, id, token, version, outcome, factor, now).value;
      && id in db'.deliveries && db.deliveries[id].session in db'.budgets
      && var d, b := db'.deliveries[id], db'.budgets[db.deliveries[id].session];
      && d.version == db.deliveries[id].version + 1 && d.state != InFlight
      && GoodRewrite(db, id, d, b, db.nextId) && db' == Rewrite(db, id, d, b, db.nextId)
  {
    FinishIs(db, id, token, version, outcome, factor, now);
    assert DeliveryOk(db, id);
    hide Shape, Finish, Rewrite;
  }

  lemma QueryRewrites(db: AlertDb, id: Id, grant: Option<Grant>, expected: nat, transport: string)
    requires Shape(db) && CountQuery(db, id, grant, expected, transport).Ok?
    ensures id in db.deliveries && DeliveryOk(db, id)
    ensures
      var db' := CountQuery(db, id, grant, expected, transport).value;
      && id in db'.deliveries
      && var d, b := db'.deliveries[id], db.budgets[db.deliveries[id].session];
      GoodRewrite(db, id, d, b, db.nextId) && db' == Rewrite(db, id, d, b, db.nextId)
  {
    assert DeliveryOk(db, id);
    var sid := db.deliveries[id].session;
    assert db.budgets[sid := db.budgets[sid]] == db.budgets;
  }

  lemma AnswerRewrites(db: AlertDb, id: Id, expected: nat, answer: Option<Outcome>, checkNow: Time, dueNow: Time)
    requires Shape(db) && Definite(answer) && ApplyAnswer(db, id, expected, answer, checkNow, dueNow).Ok?
    ensures id in db.deliveries && DeliveryOk(db, id)
    ensures
      var db' := ApplyAnswer(db, id, expected, answer, checkNow, dueNow).value;
      && id in db'.deliveries && db.deliveries[id].session in db'.budgets
      && var d, b := db'.deliveries[id], db'.budgets[db.deliveries[id].session];
      && d.version == db.deliveries[id].version + 1
      && GoodRewrite(db, id, d, b, db.nextId) && db' == Rewrite(db, id, d, b, db.nextId)
  {
    assert DeliveryOk(db, id);
  }

  // ---------------------------------------------------------------- shape and accounts over every run

  ghost predicate Books(db: AlertDb) {
    Shape(db) && Accounts(db)
  }

  lemma BooksShape(db: AlertDb)
    requires Books(db)
    ensures Shape(db)
  {
  }

  lemma SweptPendingHasBudget(db: AlertDb, now: Time, id: Id)
    requires Shape(db) && id in db.deliveries && Sweep(db, now).deliveries[id].state == Pending
    ensures DeliveryOk(Sweep(db, now), id)
    ensures Sweep(db, now).budgets[db.deliveries[id].session].attempts < MAX_ATTEMPTS
    ensures Sweep(db, now).budgets[db.deliveries[id].session].deadline > now
  {
    SweepKeepsDelivery(db, now, id);
    hide Shape, Sweep;
  }

  lemma ExhaustKeepsBooks(db: AlertDb, id: Id)
    requires Books(db) && id in db.deliveries && db.deliveries[id].state == Pending
    ensures Books(ExhaustInPlace(db, id))
  {
    assert DeliveryOk(db, id);
    ExhaustRewrites(db, id);
    RewriteKeepsAccounts(db, id, ExhaustInPlace(db, id).deliveries[id], db.budgets[db.deliveries[id].session], db.nextId);
  }

  lemma TakeClaimKeepsBooks(db: AlertDb, id: Id, now: Time)
    requires Books(db) && id in db.deliveries && DeliveryOk(db, id) && db.deliveries[id].state == Pending
    requires db.budgets[db.deliveries[id].session].attempts < MAX_ATTEMPTS
    ensures Books(TakeClaim(db, id, now))
  {
    hide Shape, Accounts, GoodRewrite, LocalOk;
    TakeClaimRewrites(db, id, now);
    var db' := TakeClaim(db, id, now);
    RewriteKeepsAccounts(db, id, db'.deliveries[id], db'.budgets[db.deliveries[id].session], db.nextId + 1);
  }

  /** What a claim transaction can have done, by its result. */
  ghost predicate ClaimDid(db: AlertDb, now: Time, after: AlertDb, result: ClaimResult) {
    var db1 := Sweep(db, now);
    match result
    case Refused(_) => after == db
    case CapacityPaused => after == db1
    case NoEligibleDelivery => after == db1
    case FoundExhausted(id) => id in db1.deliveries && db1.deliveries[id].state == Pending && after == ExhaustInPlace(db1, id)
    case Claimed(id, token, version) =>
      && id in db1.deliveries && db1.deliveries[id].state == Pending && db1.deliveries[id].session in db1.budgets
      && token == db1.nextId && version == db1.deliveries[id].version + 1
      && db1.deliveries[id].nextDue <= now && db1.budgets[db1.deliveries[id].session].deadline - now >= 5.0
      && |InFlightAll(db1)| < 16 && |InFlightFor(db1, db1.deliveries[id].dest)| < 2
      && after == TakeClaim(db1, id, now)
  }

  lemma ClaimCases(db: AlertDb, ref: DestRef, grant: Option<Grant>, transport: string, preview: Option<Id>, now: Time)
    ensures var (after, result) := Claim(db, ref, grant, transport, preview, now); ClaimDid(db, now, after, result)
  {
    hide Sweep, InFlightAll, InFlightFor, TakeClaim;
  }

  lemma DidCases(db: AlertDb, now: Time, after: AlertDb, result: ClaimResult)
    requires ClaimDid(db, now, after, result)
    ensures result.Refused? ==> after == db
    ensures result.CapacityPaused? || result.NoEligibleDelivery? ==> after == Sweep(db, now)
    ensures result.FoundExhausted? ==>
              && result.id in Sweep(db, now).deliveries && Sweep(db, now).deliveries[result.id].state == Pending
              && after == ExhaustInPlace(Sweep(db, now), result.id)
    ensures result.Claimed? ==>
              && result.id in Sweep(db, now).deliveries && Sweep(db, now).deliveries[result.id].state == Pending
              && Sweep(db, now).deliveries[result.id].session in Sweep(db, now).budgets
              && after == TakeClaim(Sweep(db, now), result.id, now)
  {
    hide Sweep, InFlightAll, InFlightFor, TakeClaim, ExhaustInPlace;
  }

  lemma SweptHasRoom(db: AlertDb, now: Time, i: Id)
    requires Shape(db) && i in db.deliveries && Sweep(db, now).deliveries[i].state == Pending
    ensures DeliveryOk(Sweep(db, now), i)
    ensures Sweep(db, now).budgets[Sweep(db, now).deliveries[i].session].attempts < MAX_ATTEMPTS
  {
    SweptPendingHasBudget(db, now, i);
  }

  lemma DidKeepsBooks(db: AlertDb, now: Time, after: AlertDb, result: ClaimResult)
    requires Books(db) && Shape(db) && ClaimDid(db, now, after, result)
    ensures Books(after)
  {
    hide *;
    var db1 := Sweep(db, now);
    SweepKeepsBooks(db, now);
    DidCases(db, now, after, result);
    if result.FoundExhausted? {
      ExhaustKeepsBooks(db1, result.id);
    } else if result.Claimed? {
      SweepIds(db, now);
      SweptHasRoom(db, now, result.id);
      TakeClaimKeepsBooks(db1, result.id, now);
    }
  }

  lemma ClaimKeepsBooks(db: AlertDb, ref: DestRef, grant: Option<Grant>, transport: string, preview: Option<Id>, now: Time)
    requires Books(db)
    ensures Books(Claim(db, ref, grant, transport, preview, now).0)
  {
    ClaimCases(db, ref, grant, transport, preview, now);
    BooksShape(db);
    hide *;
    var (after, result) := Claim(db, ref, grant, transport, preview, now);
    DidKeepsBooks(db, now, after, result);
  }

  lemma SweepKeepsBooks(db: AlertDb, now: Time)
    requires Books(db)
    ensures Books(Sweep(db, now))
  {
    SweepKeepsAccounts(db, now);
  }

  lemma SweepIds(db: AlertDb, now: Time)
    ensures Sweep(db, now).deliveries.Keys == db.deliveries.Keys
    ensures forall id | id in db.deliveries :: Sweep(db, now).deliveries[id] == SweptDelivery(db.budgets, db.deliveries[id], now)
    ensures Sweep(db, now).nextId == db.nextId && Sweep(db, now).dests == db.dests
    ensures Sweep(db, now).receipts == db.receipts && Sweep(db, now).incidents == db.incidents
  {
  }

  lemma EnqueueKeepsBooks(db: AlertDb, id: Id, ref: DestRef, human: bool, now: Time, bytes: Payload -> nat)
    requires Books(db) && EnqueueCurrent(db, id, ref, human, now, bytes).Ok?
    ensures Books(EnqueueCurrent(db, id, ref, human, now, bytes).value)
  {
    if id in db.incidents.rows && ref in db.dests {
      InsertKeepsAccounts(db, id, ref, human, now);
    }
  }

  /** The tables that the books do not mention may change freely. */
  lemma BooksFrame(db: AlertDb, db': AlertDb)
    requires Books(db) && db'.deliveries == db.deliveries && db'.budgets == db.budgets && db'.nextId == db.nextId
    requires forall ref | ref in db.dests :: ref in db'.dests && db'.dests[ref] == db.dests[ref]
    ensures Books(db')
  {
    forall id | id in db'.deliveries ensures DeliveryOk(db', id) {
      assert DeliveryOk(db, id);
    }
    forall sid | sid in db'.budgets ensures BudgetOk(db', sid) {
      assert BudgetOk(db, sid);
    }
    forall id | id in db'.deliveries ensures AccountOk(db', id) {
      assert AccountOk(db, id);
    }
  }

  lemma {:induction false} ProcessKeepsBooks(db: AlertDb, ref: DestRef, batch: seq<DueRow>, clock: nat -> Time, human: bool,
                                             bytes: Payload -> nat)
    requires Books(db) && ProcessRows(db, ref, batch, clock, human, bytes).Ok?
    ensures Books(ProcessRows(db, ref, batch, clock, human, bytes).value)
    decreases |batch|
  {
    if batch != [] {
      hide Books;
      var last := |batch| - 1;
      ProcessKeepsBooks(db, ref, batch[..last], clock, human, bytes);
      var db1 := ProcessRows(db, ref, batch[..last], clock, human, bytes).value;
      EnqueueKeepsBooks(db1, batch[last].incident, ref, human, clock(last), bytes);
      var db2 := EnqueueCurrent(db1, batch[last].incident, ref, human, clock(last), bytes).value;
      BooksFrame(db2, WithReceipt(db2, ref, batch[last].revision));
    }
  }

  lemma FinishKeepsBooks(db: AlertDb, id: Id, token: Id, version: nat, outcome: Outcome, factor: real, now: Time)
    requires Books(db) && Finish(db, id, token, version, outcome, factor, now).Ok?
    ensures Books(Finish(db, id, token, version, outcome, factor, now).value)
  {
    FinishRewrites(db, id, token, version, outcome, factor, now);
    var db' := Finish(db, id, token, version, outcome, factor, now).value;
    hide Finish, Shape, Accounts;
    RewriteKeepsAccounts(db, id, db'.deliveries[id], db'.budgets[db.deliveries[id].session], db.nextId);
  }

  lemma AnswerKeepsBooks(db: AlertDb, id: Id, expected: nat, answer: Option<Outcome>, checkNow: Time, dueNow: Time)
    requires Books(db) && Definite(answer) && ApplyAnswer(db, id, expected, answer, checkNow, dueNow).Ok?
    ensures Books(ApplyAnswer(db, id, expected, answer, checkNow, dueNow).value)
  {
    AnswerRewrites(db, id, expected, answer, checkNow, dueNow);
    var db' := ApplyAnswer(db, id, expected, answer, checkNow, dueNow).value;
    hide ApplyAnswer, Shape, Accounts;
    RewriteKeepsAccounts(db, id, db'.deliveries[id], db'.budgets[db.deliveries[id].session], db.nextId);
  }

  lemma QueryKeepsBooks(db: AlertDb, id: Id, grant: Option<Grant>, expected: nat, transport: string)
    requires Books(db) && CountQuery(db, id, grant, expected, transport).Ok?
    ensures Books(CountQuery(db, id, grant, expected, transport).value)
  {
    QueryRewrites(db, id, grant, expected, transport);
    var db' := CountQuery(db, id, grant, expected, transport).value;
    hide CountQuery, Shape, Accounts;
    RewriteKeepsAccounts(db, id, db'.deliveries[id], db.budgets[db.deliveries[id].session], db.nextId);
  }

  /** Every transaction keeps the books. */
  lemma TxKeepsBooks(db: AlertDb, tx: Tx)
    requires Books(db)
    ensures Books(ExecTx(db, tx))
  {
    hide Books, Claim, Finish, ApplyAnswer, CountQuery, ProcessRows, Apply;
    match tx
    case ConfigureTx(ref, config, grant) => BooksFrame(db, ExecTx(db, tx));
    case IncidentTx(update, now) => BooksFrame(db, ExecTx(db, tx));
    case ReconcileTx(ref, grant, limit, batch, clock, bytes) =>
      if Reconcile(db, ref, grant, limit, batch, clock, bytes).Ok? {
        ProcessKeepsBooks(db, ref, batch, clock, grant.value.human, bytes);
      }
    case ClaimTx(ref, grant, transport, preview, now) => ClaimKeepsBooks(db, ref, grant, transport, preview, now);
    case FinishTx(id, token, version, outcome, factor, now) =>
      if Finish(db, id, token, version, outcome, factor, now).Ok? {
        FinishKeepsBooks(db, id, token, version, outcome, factor, now);
      }
    case RenewTx(id, grant, expected, reason, now) =>
      if Renew(db, id, grant, expected, reason, now).Ok? {
        RenewOk(db, id);
        RenewKeepsAccountsBooks(db, id, now);
      }
    case QueryTx(id, grant, expected, transport) =>
      if CountQuery(db, id, grant, expected, transport).Ok? {
        QueryKeepsBooks(db, id, grant, expected, transport);
      }
    case AnswerTx(id, expected, answer, checkNow, dueNow) =>
      if Definite(answer) && ApplyAnswer(db, id, expected, answer, checkNow, dueNow).Ok? {
        AnswerKeepsBooks(db, id, expected, answer, checkNow, dueNow);
      } else {
        IndefiniteAnswer(db, id, expected, answer, checkNow, dueNow);
      }
  }

  lemma IndefiniteAnswer(db: AlertDb, id: Id, expected: nat, answer: Option<Outcome>, checkNow: Time, dueNow: Time)
    requires !(Definite(answer) && ApplyAnswer(db, id, expected, answer, checkNow, dueNow).Ok?)
    ensures Kept(db, ApplyAnswer(db, id, expected, answer, checkNow, dueNow)) == db
  {
  }

  lemma RenewOk(db: AlertDb, id: Id)
    requires Books(db) && id in db.deliveries
    ensures Shape(db) && DeliveryOk(db, id)
  {
  }

  lemma RenewKeepsAccountsBooks(db: AlertDb, id: Id, now: Time)
    requires Books(db) && id in db.deliveries && DeliveryOk(db, id) && db.deliveries[id].state == Exhausted
    ensures Books(RenewBudget(db, id, now))
  {
    RenewKeepsAccounts(db, id, now);
  }

  lemma {:induction false} RunKeepsBooks(db: AlertDb, txs: seq<Tx>)
    requires Books(db)
    ensures Books(RunTx(db, txs))
    decreases |txs|
  {
    hide Books;
    if txs != [] {
      RunKeepsBooks(db, txs[..|txs| - 1]);
      TxKeepsBooks(RunTx(db, txs[..|txs| - 1]), txs[|txs| - 1]);
    }
  }
}
