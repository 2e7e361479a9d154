/**
 When denials are final. They are if every attempt ends with its call or with its lease; and they have to be: where an
 attempt can still be accepted after its call raised, a denial that was true when given is followed by a second send.
 */
module AlertFinality {
  import opened Common
  import opened Incidents
  import opened AlertModel
  import opened AlertProtocol
  import opened AlertBudgets
  import opened AlertQuotas
  import opened AlertSafety

  // ---------------------------------------------------------------- attempts that end

  /** The call came back or raised, or its lease is over. */
  predicate Over(w: World, t: Id)
    requires t in w.attempts
  {
    w.attempts[t].returned.Some? || w.clock >= w.attempts[t].lease
  }

  /** An attempt is accepted only while its call runs and before its lease ends; no worker reads a future clock to claim. */
  ghost predicate EndsInTime(w: World, s: Step) {
    && (s.ProviderAccepts? && s.token in w.attempts ==> !Over(w, s.token))
    && (s.ClaimStep? ==> s.now <= w.clock)
  }

  ghost predicate EndsInTimeRun(w: World, steps: seq<Step>)
    requires Runs(w, steps)
    decreases |steps|
  {
    steps == [] ||
    (EndsInTimeRun(w, steps[..|steps| - 1]) && EndsInTime(Final(w, steps[..|steps| - 1]), steps[|steps| - 1]))
  }

  ghost predicate Holds(w: World, t: Id)
    requires t in w.attempts
  {
    w.attempts[t].delivery in w.db.deliveries && Current(w, w.attempts[t].delivery, t)
  }

  /** An attempt that is not over holds its delivery's claim, and no query was asked about a later version. */
  ghost predicate Ended(w: World) {
    && (forall t | t in w.attempts :: Holds(w, t) || Over(w, t))
    && (forall q, t | q in w.queries && t in w.attempts && w.queries[q].delivery == w.attempts[t].delivery
                      && w.attempts[t].version < w.queries[q].version :: Over(w, t))
  }

  ghost predicate AttemptKept(w: World, w': World, t: Id)
    requires t in w.attempts
  {
    && t in w'.attempts && w'.attempts[t].delivery == w.attempts[t].delivery && w'.attempts[t].version == w.attempts[t].version
    && (Over(w, t) ==> Over(w', t))
    && (Holds(w, t) ==> Holds(w', t) || Over(w', t))
  }

  ghost predicate QueryKept(w: World, w': World, q: Id)
    requires q in w.queries
  {
    q in w'.queries && w'.queries[q].delivery == w.queries[q].delivery && w'.queries[q].version == w.queries[q].version
  }

  /** A new attempt holds its claim, at a version that no query was asked about. */
  ghost predicate AttemptNew(w: World, w': World, t: Id)
    requires t in w'.attempts
  {
    && Holds(w', t)
    && forall q | q in w.queries && w.queries[q].delivery == w'.attempts[t].delivery :: w.queries[q].version < w'.attempts[t].version
  }

  /** A new query is about an ambiguous delivery. */
  ghost predicate QueryNew(w: World, w': World, q: Id)
    requires q in w'.queries
  {
    && w'.attempts == w.attempts && w'.queries[q].delivery in w.db.deliveries
    && w.db.deliveries[w'.queries[q].delivery].state == Unknown
  }

  /** What a step may do to the attempts and queries, so that none is lost or reopened. */
  ghost predicate KeepsEnds(w: World, w': World) {
    && (forall t | t in w.attempts :: AttemptKept(w, w', t))
    && (forall q | q in w.queries :: QueryKept(w, w', q))
    && (forall t | t in w'.attempts && t !in w.attempts :: AttemptNew(w, w', t))
    && (forall q | q in w'.queries && q !in w.queries :: QueryNew(w, w', q))
  }

  lemma NewerOver(w: World, w': World, q: Id, t: Id)
    requires Ended(w) && KeepsEnds(w, w') && q in w'.queries && t in w'.attempts
    requires w'.queries[q].delivery == w'.attempts[t].delivery && w'.attempts[t].version < w'.queries[q].version
    ensures Over(w', t)
  {
    assert q in w.queries ==> QueryKept(w, w', q);
    assert q !in w.queries ==> QueryNew(w, w', q);
    assert t in w.attempts ==> AttemptKept(w, w', t) && (Holds(w, t) || Over(w, t));
    assert t !in w.attempts ==> AttemptNew(w, w', t);
  }

  lemma KeepsEnded(w: World, w': World)
    requires Ended(w) && KeepsEnds(w, w')
    ensures Ended(w')
  {
    forall t | t in w'.attempts ensures Holds(w', t) || Over(w', t) {
      if t in w.attempts {
        assert AttemptKept(w, w', t) && (Holds(w, t) || Over(w, t));
      } else {
        assert AttemptNew(w, w', t);
      }
    }
    forall q, t | q in w'.queries && t in w'.attempts && w'.queries[q].delivery == w'.attempts[t].delivery
                  && w'.attempts[t].version < w'.queries[q].version
      ensures Over(w', t)
    {
      NewerOver(w, w', q, t);
    }
  }

  /** The tables change, and no claim is taken from an attempt that is not over. */
  lemma TablesKeepEnds(w: World, db': AlertDb)
    requires forall t | t in w.attempts && Holds(w, t) ::
               Over(w, t) || (w.attempts[t].delivery in db'.deliveries && SameClaim(w.db, db', w.attempts[t].delivery))
    ensures KeepsEnds(w, w.(db := db'))
  {
    var w' := w.(db := db');
    forall t | t in w.attempts ensures AttemptKept(w, w', t) {
      assert Over(w', t) <==> Over(w, t);
    }
  }

  ghost predicate SameClaim(db: AlertDb, db': AlertDb, id: Id)
    requires id in db'.deliveries
  {
    && id in db.deliveries
    && db'.deliveries[id].state == db.deliveries[id].state && db'.deliveries[id].claim == db.deliveries[id].claim
    && db'.deliveries[id].version == db.deliveries[id].version && db'.deliveries[id].leaseUntil == db.deliveries[id].leaseUntil
  }

  lemma AdminKeepsClaims(db: AlertDb, tx: Tx, id: Id)
    requires Books(db) && id in db.deliveries && db.deliveries[id].state == InFlight
    requires tx.ConfigureTx? || tx.IncidentTx? || tx.ReconcileTx? || tx.RenewTx?
    ensures id in ExecTx(db, tx).deliveries && SameClaim(db, ExecTx(db, tx), id)
  {
    hide Books, ProcessRows, Apply;
    if tx.ReconcileTx? && Reconcile(db, tx.ref, tx.grant, tx.limit, tx.batch, tx.clock, tx.bytes).Ok? {
      ProcessGrows(db, tx.ref, tx.batch, tx.clock, tx.grant.value.human, tx.bytes);
      GrownSame(db, ExecTx(db, tx), id);
    }
  }

  lemma GrownSame(db: AlertDb, db': AlertDb, id: Id)
    requires Grows(db, db') && id in db.deliveries
    ensures id in db'.deliveries && db'.deliveries[id] == db.deliveries[id]
  {
    assert Untouched(db, db', id);
  }

  lemma AdminKeepsEnds(w: World, tx: Tx)
    requires Inv(w) && Allowed(w, Admin(tx))
    ensures KeepsEnds(w, Do(w, Admin(tx)))
  {
    InvBooks(w);
    hide Inv, Books, Shape, ExecTx, SameClaim;
    forall t | t in w.attempts && Holds(w, t)
      ensures w.attempts[t].delivery in ExecTx(w.db, tx).deliveries && SameClaim(w.db, ExecTx(w.db, tx), w.attempts[t].delivery)
    {
      AdminKeepsClaims(w.db, tx, w.attempts[t].delivery);
    }
    TablesKeepEnds(w, ExecTx(w.db, tx));
  }

  /** A sweep takes claims only from leases that are over. */
  lemma SweepKeepsEnds(w: World, now: Time)
    requires now <= w.clock
    ensures KeepsEnds(w, w.(db := Sweep(w.db, now)))
  {
    SweepIds(w.db, now);
    hide Sweep;
    forall t | t in w.attempts && Holds(w, t)
      ensures Over(w, t) || (w.attempts[t].delivery in Sweep(w.db, now).deliveries && SameClaim(w.db, Sweep(w.db, now), w.attempts[t].delivery))
    {
      SweptLocally(w.db.budgets, w.db.deliveries[w.attempts[t].delivery], now);
    }
    TablesKeepEnds(w, Sweep(w.db, now));
  }

  lemma EndsTransitive(a: World, b: World, c: World)
    requires KeepsEnds(a, b) && KeepsEnds(b, c) && b.attempts == a.attempts && b.queries == a.queries && c.queries == a.queries
    requires b.clock == a.clock
    ensures KeepsEnds(a, c)
  {
    hide Holds;
    forall t | t in a.attempts ensures AttemptKept(a, c, t) {
      assert AttemptKept(a, b, t) && AttemptKept(b, c, t);
      assert Over(b, t) <==> Over(a, t);
    }
    forall q | q in a.queries ensures QueryKept(a, c, q) {
    }
    forall t | t in c.attempts && t !in a.attempts ensures AttemptNew(a, c, t) {
      assert AttemptNew(b, c, t);
    }
  }

  lemma TookHolds(w: World, w': World, id: Id, t: Id)
    requires Took(w, w', id) && w.db.nextId !in w.attempts && t in w.attempts && Holds(w, t)
    ensures t in w'.attempts && Holds(w', t)
  {
  }

  /** The new attempt holds its claim at a version no query has been asked about. */
  lemma TookIsNew(w: World, w': World, id: Id)
    requires Inv(w) && Took(w, w', id)
    ensures w.db.nextId in w'.attempts && w'.attempts == w.attempts[w.db.nextId := w'.attempts[w.db.nextId]]
    ensures w'.queries == w.queries && w'.clock == w.clock && AttemptNew(w, w', w.db.nextId)
  {
    InvQueries(w);
    hide Inv;
  }

  lemma TookKeepsEnds(w: World, w': World, id: Id)
    requires Inv(w) && Took(w, w', id)
    ensures KeepsEnds(w, w')
  {
    hide Inv, Took, Holds, AttemptNew;
    InvTokens(w);
    TookIsNew(w, w', id);
    forall t | t in w.attempts ensures AttemptKept(w, w', t) {
      if Holds(w, t) { TookHolds(w, w', id, t); }
    }
  }

  lemma InvQueries(w: World)
    requires Inv(w)
    ensures forall q | q in w.queries :: w.queries[q].delivery in w.db.deliveries
                                         && w.queries[q].version <= w.db.deliveries[w.queries[q].delivery].version
  {
    hide Books, AllAttempts, AllDeliveries, SendsSeparated;
    forall q | q in w.queries ensures w.queries[q].delivery in w.db.deliveries
                                      && w.queries[q].version <= w.db.deliveries[w.queries[q].delivery].version
    {
      assert QueryOk(w, q);
    }
  }

  lemma ExhaustKeepsEnds(w: World, id: Id)
    requires id in w.db.deliveries && w.db.deliveries[id].state == Pending
    ensures KeepsEnds(w, w.(db := ExhaustInPlace(w.db, id)))
  {
    TablesKeepEnds(w, ExhaustInPlace(w.db, id));
  }

  lemma SelfEnds(w: World)
    ensures KeepsEnds(w, w)
  {
  }

  lemma ClaimKeepsEnds(w: World, s: Step)
    requires Inv(w) && s.ClaimStep? && Allowed(w, s) && s.now <= w.clock
    ensures KeepsEnds(w, Do(w, s))
  {
    hide *;
    InvBooks(w);
    var (after, result) := Claim(w.db, s.ref, s.grant, s.transport, s.preview, s.now);
    ClaimCases(w.db, s.ref, s.grant, s.transport, s.preview, s.now);
    DidCases(w.db, s.now, after, result);
    ClaimDo(w, s, after, result);
    SweepKeepsEnds(w, s.now);
    SweptInv(w, s.now);
    var w1 := w.(db := Sweep(w.db, s.now));
    if result.Claimed? {
      ClaimFacts(w.db, s.now, after, result);
      TakeClaimTook(w1, result.id, s.now);
      TookKeepsEnds(w1, Do(w, s), result.id);
      TookKeepsQueries(w1, Do(w, s), result.id);
      EndsTransitive(w, w1, Do(w, s));
    } else if result.FoundExhausted? {
      ExhaustKeepsEnds(w1, result.id);
      EndsTransitive(w, w1, Do(w, s));
    } else if result.Refused? {
      SelfEnds(w);
      assert w.(db := after) == w;
    }
  }

  lemma TookKeepsQueries(w: World, w': World, id: Id)
    requires Took(w, w', id)
    ensures w'.queries == w.queries
  {
  }

  lemma FinishLeavesOthers(w: World, db': AlertDb, id: Id, token: Id, t: Id)
    requires t in w.attempts && token in w.attempts && Holds(w, t) && id in w.db.deliveries
    requires w.db.deliveries[id].claim == Some(token) && w.attempts[token].returned.Some?
    requires db'.deliveries.Keys == w.db.deliveries.Keys
    requires forall i | i in w.db.deliveries && i != id :: db'.deliveries[i] == w.db.deliveries[i]
    ensures Over(w, t) || (w.attempts[t].delivery in db'.deliveries && SameClaim(w.db, db', w.attempts[t].delivery))
  {
  }

  lemma FinishKeepsEnds(w: World, s: Step)
    requires s.FinishStep? && Allowed(w, s)
    ensures KeepsEnds(w, Do(w, s))
  {
    var a := w.attempts[s.token];
    var outcome := Sanitized(a.returned.value);
    var r := Finish(w.db, a.delivery, s.token, a.version, outcome, s.factor, s.now);
    SelfEnds(w);
    hide Finish, Sanitized, KeepsEnds, Holds, SameClaim, Over;
    if r.Ok? {
      FinishWrote(w.db, a.delivery, s.token, a.version, outcome, s.factor, s.now);
      forall t | t in w.attempts && Holds(w, t)
        ensures Over(w, t) || (w.attempts[t].delivery in r.value.deliveries && SameClaim(w.db, r.value, w.attempts[t].delivery))
      {
        FinishLeavesOthers(w, r.value, a.delivery, s.token, t);
      }
      TablesKeepEnds(w, r.value);
      LogOnly(w, w.(db := r.value), Do(w, s));
    }
  }

  lemma LogOnly(w: World, w1: World, w': World)
    requires KeepsEnds(w, w1) && w' == w1.(log := w'.log)
    ensures KeepsEnds(w, w')
  {
    forall t | t in w.attempts ensures AttemptKept(w, w', t) {
      assert AttemptKept(w, w1, t);
    }
    forall t | t in w'.attempts && t !in w.attempts ensures AttemptNew(w, w', t) {
      assert AttemptNew(w, w1, t);
    }
    forall q | q in w'.queries && q !in w.queries ensures QueryNew(w, w', q) {
      assert QueryNew(w, w1, q);
    }
  }

  lemma SettleKeepsEnds(w: World, s: Step)
    requires s.SettleStep? && Allowed(w, s)
    ensures KeepsEnds(w, Do(w, s))
  {
    var q := w.queries[s.query];
    var r := ApplyAnswer(w.db, q.delivery, q.version, q.answer.value, s.checkNow, s.dueNow);
    SelfEnds(w);
    hide ApplyAnswer, Definite, KeepsEnds;
    if r.Ok? && Definite(q.answer.value) {
      AnswerWrote(w.db, q.delivery, q.version, q.answer.value, s.checkNow, s.dueNow);
      TablesKeepEnds(w, r.value);
      LogOnly(w, w.(db := r.value), Do(w, s));
    }
  }

  /** Counting a query changes no claim. */
  lemma CountedSame(db: AlertDb, id: Id, grant: Option<Grant>, expected: nat, transport: string, i: Id)
    requires CountQuery(db, id, grant, expected, transport).Ok? && i in db.deliveries
    ensures
      var db' := CountQuery(db, id, grant, expected, transport).value;
      i in db'.deliveries && SameClaim(db, db', i)
  {
    hide Refusal;
  }

  lemma QueryAdded(w: World, w1: World, w': World, id: Id, expected: nat)
    requires KeepsEnds(w, w1) && w1 == w.(db := w1.db) && w.nextQuery !in w.queries
    requires id in w.db.deliveries && w.db.deliveries[id].state == Unknown
    requires w' == w1.(queries := w.queries[w.nextQuery := Query(id, expected, None)], nextQuery := w'.nextQuery)
    ensures KeepsEnds(w, w')
  {
    forall t | t in w.attempts ensures AttemptKept(w, w', t) {
      assert AttemptKept(w, w1, t);
    }
  }

  lemma AskKeepsEnds(w: World, s: Step)
    requires Inv(w) && s.Ask? && Allowed(w, s)
    ensures KeepsEnds(w, Do(w, s))
  {
    NextQueryIsNew(w);
    SelfEnds(w);
    hide Inv, KeepsEnds, CountQuery, SameClaim;
    var r := CountQuery(w.db, s.id, s.grant, s.expected, s.transport);
    if r.Ok? {
      forall t | t in w.attempts && Holds(w, t)
        ensures w.attempts[t].delivery in r.value.deliveries && SameClaim(w.db, r.value, w.attempts[t].delivery)
      {
        CountedSame(w.db, s.id, s.grant, s.expected, s.transport, w.attempts[t].delivery);
      }
      TablesKeepEnds(w, r.value);
      CountedId(w.db, s.id, s.grant, s.expected, s.transport);
      QueryAdded(w, w.(db := r.value), Do(w, s), s.id, s.expected);
    }
  }

  lemma CountedId(db: AlertDb, id: Id, grant: Option<Grant>, expected: nat, transport: string)
    requires CountQuery(db, id, grant, expected, transport).Ok?
    ensures id in db.deliveries && db.deliveries[id].state == Unknown
  {
    hide Refusal;
  }

  lemma CallKeepsEnds(w: World, s: Step)
    requires Allowed(w, s) && (s.Tick? || s.ProviderAccepts? || s.SendReturns? || s.Answered?)
    ensures KeepsEnds(w, Do(w, s))
  {
  }

  lemma StepKeepsEnds(w: World, s: Step)
    requires Inv(w) && Allowed(w, s) && EndsInTime(w, s)
    ensures KeepsEnds(w, Do(w, s))
  {
    hide Inv, Allowed, KeepsEnds, Do;
    match s
    case Admin(tx) => AdminKeepsEnds(w, tx);
    case ClaimStep(_, _, _, _, _) => ClaimKeepsEnds(w, s);
    case FinishStep(_, _, _) => FinishKeepsEnds(w, s);
    case SettleStep(_, _, _) => SettleKeepsEnds(w, s);
    case Ask(_, _, _, _) => AskKeepsEnds(w, s);
    case _ => CallKeepsEnds(w, s);
  }

  lemma UnendedIsUndenied(w: World, t: Id)
    requires Ended(w) && t in w.attempts && !Over(w, t)
    ensures !Disclaimed(w, t)
  {
    forall q | q in w.queries ensures !Covers(w.queries[q], w.attempts[t]) {
    }
  }

  lemma {:induction false} RunKeepsEnded(incidents: IncidentDb, clock: Time, steps: seq<Step>)
    requires Runs(Start(incidents, clock), steps) && EndsInTimeRun(Start(incidents, clock), steps)
    ensures Ended(Final(Start(incidents, clock), steps)) && DenialsHold(Start(incidents, clock), steps)
    decreases |steps|
  {
    if steps != [] {
      hide Inv, Allowed, Do, Disclaimed, Ended, KeepsEnds, Over;
      var w := Final(Start(incidents, clock), steps[..|steps| - 1]);
      var s := steps[|steps| - 1];
      RunKeepsEnded(incidents, clock, steps[..|steps| - 1]);
      RunKeepsInv(incidents, clock, steps[..|steps| - 1]);
      StepKeepsEnds(w, s);
      KeepsEnded(w, Do(w, s));
      if s.ProviderAccepts? {
        AcceptedExists(w, s);
        UnendedIsUndenied(w, s.token);
      }
    }
  }

  lemma AcceptedExists(w: World, s: Step)
    requires Allowed(w, s) && s.ProviderAccepts?
    ensures s.token in w.attempts
  {
  }

  /**
   The five second contract is enough: if every attempt ends with its call or its lease, which is at least five seconds
   after the claim, and a denial is true when it is given, then each delivery is accepted at most once.
   */
  lemma AtMostOnceIfAttemptsEnd(incidents: IncidentDb, clock: Time, steps: seq<Step>)
    requires Runs(Start(incidents, clock), steps) && EndsInTimeRun(Start(incidents, clock), steps)
    ensures AcceptedAtMostOnce(Final(Start(incidents, clock), steps))
  {
    hide *;
    RunKeepsEnded(incidents, clock, steps);
    AtMostOnce(incidents, clock, steps);
  }

  // ---------------------------------------------------------------- denials that are not final

  /** An attempt is under way that nobody has accepted, with budget, queries and time left for another. */
  ghost predicate Scene(w: World, id: Id, t: Id) {
    && Inv(w) && Limits(w.db) && id in w.db.deliveries && Current(w, id, t) && w.attempts[t].returned.None?
    && (forall u | u in w.attempts && w.attempts[u].delivery == id :: !w.attempts[u].accepted)
    && w.clock < w.attempts[t].lease
    && var d := w.db.deliveries[id];
    && d.queries < MAX_QUERIES && d.session in w.db.budgets && d.dest in w.db.dests && d.config == w.db.dests[d.dest].config
    && w.db.budgets[d.session].attempts < w.db.budgets[d.session].maxAttempts
    && w.clock + 5.0 < w.db.budgets[d.session].deadline
  }

  function Consent(w: World, id: Id): Option<Grant>
    requires id in w.db.deliveries && w.db.deliveries[id].dest in w.db.dests
  {
    Some(Grant(true, w.db.dests[w.db.deliveries[id].dest].tenant, ""))
  }

  function TransportOf(w: World, id: Id): string
    requires id in w.db.deliveries && w.db.deliveries[id].dest in w.db.dests
  {
    w.db.dests[w.db.deliveries[id].dest].config.transport
  }

  const DENIAL := Outcome(NotAccepted, "", 0)

  /**
   The world while the run goes on: the delivery's row and its session change, the attempt's call has raised, and the
   clock stands still, before the end of the lease.
   */
  ghost predicate Stage(w: World, x: World, id: Id, t: Id, state: DeliveryState, version: nat)
    requires id in w.db.deliveries && w.db.deliveries[id].session in w.db.budgets && t in w.attempts
  {
    && id in x.db.deliveries && w.db.deliveries[id].session in x.db.budgets
    && var d, b := w.db.deliveries[id], w.db.budgets[w.db.deliveries[id].session];
    && var d', b' := x.db.deliveries[id], x.db.budgets[d.session];
    && d' == d.(state := state, version := version, nextDue := w.clock, claim := None, leaseUntil := None, receipt := "", queries := d'.queries)
    && b' == b.(state := b'.state)
    && x.db == w.db.(deliveries := w.db.deliveries[id := d'], budgets := w.db.budgets[d.session := b'])
    && x.clock == w.clock && x.attempts == w.attempts[t := w.attempts[t].(returned := Some(None))]
  }

  lemma RunOneMore(w: World, steps: seq<Step>, s: Step)
    requires Runs(w, steps) && Allowed(Final(w, steps), s)
    ensures Runs(w, steps + [s]) && Final(w, steps + [s]) == Do(Final(w, steps), s)
  {
    assert (steps + [s])[..|steps|] == steps;
    hide Allowed, Do;
  }

  /** The call raises, and the delivery becomes ambiguous. */
  lemma Raise(w: World, x: World, id: Id, t: Id)
    requires Scene(w, id, t) && x == w.(attempts := w.attempts[t := w.attempts[t].(returned := Some(None))])
    ensures Allowed(x, FinishStep(t, 1.0, w.clock))
    ensures Stage(w, Do(x, FinishStep(t, 1.0, w.clock)), id, t, Unknown, w.db.deliveries[id].version + 1)
    ensures Do(x, FinishStep(t, 1.0, w.clock)).nextQuery == w.nextQuery && Do(x, FinishStep(t, 1.0, w.clock)).queries == w.queries
    ensures w.db.deliveries[id].queries == Do(x, FinishStep(t, 1.0, w.clock)).db.deliveries[id].queries
  {
    hide Inv, Limits;
    assert CurrentClaim(x.db, id, t, w.db.deliveries[id].version, w.clock);
  }

  /** The ambiguity is queried. */
  lemma Query1(w: World, x: World, id: Id, t: Id)
    requires Scene(w, id, t) && Stage(w, x, id, t, Unknown, w.db.deliveries[id].version + 1)
    requires x.db.deliveries[id].queries < MAX_QUERIES && x.nextQuery == w.nextQuery
    ensures
      var s := Ask(id, Consent(w, id), w.db.deliveries[id].version + 1, TransportOf(w, id));
      && Allowed(x, s) && Stage(w, Do(x, s), id, t, Unknown, w.db.deliveries[id].version + 1)
      && w.nextQuery in Do(x, s).queries && Do(x, s).queries[w.nextQuery] == Query(id, w.db.deliveries[id].version + 1, None)
  {
    hide Inv, Limits;
  }

  /** The answer is a denial, true as it is given, and puts the delivery back to pending. */
  lemma Deny(w: World, x: World, id: Id, t: Id)
    requires Scene(w, id, t) && Stage(w, x, id, t, Unknown, w.db.deliveries[id].version + 1)
    requires w.nextQuery in x.queries && x.queries[w.nextQuery] == Query(id, w.db.deliveries[id].version + 1, None)
    ensures
      var s := Answered(w.nextQuery, Some(DENIAL));
      && Allowed(x, s) && Stage(w, Do(x, s), id, t, Unknown, w.db.deliveries[id].version + 1)
      && w.nextQuery in Do(x, s).queries
      && Do(x, s).queries[w.nextQuery] == Query(id, w.db.deliveries[id].version + 1, Some(Some(DENIAL)))
  {
    hide Inv, Limits;
  }

  lemma Settle1(w: World, x: World, id: Id, t: Id)
    requires Scene(w, id, t) && Stage(w, x, id, t, Unknown, w.db.deliveries[id].version + 1)
    requires w.nextQuery in x.queries
    requires x.queries[w.nextQuery] == Query(id, w.db.deliveries[id].version + 1, Some(Some(DENIAL)))
    ensures
      var s := SettleStep(w.nextQuery, w.clock, w.clock);
      Allowed(x, s) && Stage(w, Do(x, s), id, t, Pending, w.db.deliveries[id].version + 2)
  {
    hide Inv, Limits;
  }

  lemma SweepLeavesRoom(db: AlertDb, ref: DestRef, now: Time)
    ensures |InFlightAll(Sweep(db, now))| <= |InFlightAll(db)| && |InFlightFor(Sweep(db, now), ref)| <= |InFlightFor(db, ref)|
  {
    SweepIds(db, now);
    hide Sweep;
    SubsetSize(InFlightAll(Sweep(db, now)), InFlightAll(db));
    SubsetSize(InFlightFor(Sweep(db, now), ref), InFlightFor(db, ref));
  }

  /** A sweep leaves alone a pending delivery that has budget and time. */
  lemma SweepLeavesPending(db: AlertDb, id: Id, now: Time)
    requires Shape(db) && id in db.deliveries && DeliveryOk(db, id) && db.deliveries[id].state == Pending
    requires
      var b := db.budgets[db.deliveries[id].session];
      b.attempts < b.maxAttempts && now < b.deadline
    ensures id in Sweep(db, now).deliveries && Sweep(db, now).deliveries[id] == db.deliveries[id]
    ensures db.deliveries[id].session in Sweep(db, now).budgets
    ensures Sweep(db, now).budgets[db.deliveries[id].session] == db.budgets[db.deliveries[id].session]
    ensures Sweep(db, now).dests == db.dests && Sweep(db, now).nextId == db.nextId
  {
    hide Sweep, Shape, LocalOk;
    SweepIds(db, now);
    SweepLocal(db, now, db.deliveries[id].session);
  }

  lemma ClaimGoes(db: AlertDb, db1: AlertDb, id: Id, ref: DestRef, grant: Option<Grant>, transport: string, now: Time)
    requires db1 == Sweep(db, now) && Refusal(db, ref, grant, false).None? && ref in db.dests && ref in db1.dests
    requires transport == db.dests[ref].config.transport && |InFlightAll(db1)| < 16 && |InFlightFor(db1, ref)| < 2
    requires Eligible(db1, id, ref, now) && db1.deliveries[id].config == db1.dests[ref].config
    requires db1.budgets[db1.deliveries[id].session].deadline - now >= 5.0
    ensures
      var result := Claim(db, ref, grant, transport, Some(id), now).1;
      result.Claimed? && result.id == id && result.token == db1.nextId
  {
    hide Sweep, InFlightAll, InFlightFor, TakeClaim, ExhaustInPlace, Refusal, Eligible;
  }

  /** A pending delivery that is due, with budget and time, room in flight and its own configuration, is claimed. */
  lemma ClaimSucceeds(db: AlertDb, id: Id, grant: Option<Grant>, transport: string, now: Time)
    requires Shape(db) && id in db.deliveries && DeliveryOk(db, id)
    requires db.deliveries[id].state == Pending && db.deliveries[id].nextDue <= now
    requires
      var d, b := db.deliveries[id], db.budgets[db.deliveries[id].session];
      && b.attempts < b.maxAttempts && now + 5.0 < b.deadline
      && transport == db.dests[d.dest].config.transport && Refusal(db, d.dest, grant, false).None?
      && |InFlightAll(db)| < 16 && |InFlightFor(db, d.dest)| < 2
    ensures
      var result := Claim(db, db.deliveries[id].dest, grant, transport, Some(id), now).1;
      result.Claimed? && result.id == id && result.token == db.nextId
  {
    SweepLeavesPending(db, id, now);
    SweepLeavesRoom(db, db.deliveries[id].dest, now);
    hide Sweep, Shape, InFlightAll, InFlightFor, LocalOk, Claim, Refusal;
    ClaimGoes(db, Sweep(db, now), id, db.deliveries[id].dest, grant, transport, now);
  }

  /** With the raised attempt no longer in flight, there is room for one. */
  lemma StageHasRoom(w: World, x: World, id: Id, t: Id, version: nat)
    requires Scene(w, id, t) && Stage(w, x, id, t, Pending, version)
    ensures |InFlightAll(x.db)| < 16 && |InFlightFor(x.db, w.db.deliveries[id].dest)| < 2
  {
    hide Inv;
    var ref := w.db.deliveries[id].dest;
    assert InFlightAll(x.db) == InFlightAll(w.db) - {id} && id in InFlightAll(w.db);
    assert InFlightFor(x.db, ref) == InFlightFor(w.db, ref) - {id} && id in InFlightFor(w.db, ref);
    assert |InFlightFor(w.db, ref)| <= 2;
  }

  lemma StageFacts(w: World, x: World, id: Id, t: Id)
    requires Scene(w, id, t) && Stage(w, x, id, t, Pending, w.db.deliveries[id].version + 2)
    ensures id in x.db.deliveries && x.db.nextId == w.db.nextId
    ensures
      var d := x.db.deliveries[id];
      && d.dest == w.db.deliveries[id].dest && d.state == Pending && d.nextDue <= w.clock && d.session in x.db.budgets
      && d.dest in x.db.dests && TransportOf(w, id) == x.db.dests[d.dest].config.transport
      && Refusal(x.db, d.dest, Consent(w, id), false).None?
      && x.db.budgets[d.session].attempts < x.db.budgets[d.session].maxAttempts
      && w.clock + 5.0 < x.db.budgets[d.session].deadline
  {
    hide Inv, Limits;
  }

  lemma StageClaims(w: World, x: World, id: Id, t: Id)
    requires Scene(w, id, t) && Stage(w, x, id, t, Pending, w.db.deliveries[id].version + 2) && Inv(x)
    ensures
      var result := Claim(x.db, w.db.deliveries[id].dest, Consent(w, id), TransportOf(w, id), Some(id), w.clock).1;
      result.Claimed? && result.id == id && result.token == w.db.nextId
  {
    hide *;
    StageStarts(w, id, t);
    StageHasRoom(w, x, id, t, w.db.deliveries[id].version + 2);
    StageFacts(w, x, id, t);
    InvBooks(x);
    ShapeRow(x.db, id);
    ClaimSucceeds(x.db, id, Consent(w, id), TransportOf(w, id), w.clock);
  }

  lemma StartedIs(db: AlertDb, id: Id, version: nat, now: Time)
    ensures Started(db, id, version, now).delivery == id && !Started(db, id, version, now).accepted
  {
  }

  lemma ClaimAllowed(x: World, s: Step)
    requires s.ClaimStep?
    ensures Allowed(x, s)
  {
  }

  /** The delivery is sent again, under a new claim. */
  lemma Resend(w: World, x: World, id: Id, t: Id)
    requires Scene(w, id, t) && Stage(w, x, id, t, Pending, w.db.deliveries[id].version + 2) && Inv(x)
    ensures
      var s := ClaimStep(w.db.deliveries[id].dest, Consent(w, id), TransportOf(w, id), Some(id), w.clock);
      && Allowed(x, s) && Do(x, s).clock == x.clock
      && w.db.nextId in Do(x, s).attempts && Do(x, s).attempts == x.attempts[w.db.nextId := Do(x, s).attempts[w.db.nextId]]
      && Do(x, s).attempts[w.db.nextId].delivery == id && !Do(x, s).attempts[w.db.nextId].accepted
  {
    hide *;
    StageStarts(w, id, t);
    var s := ClaimStep(w.db.deliveries[id].dest, Consent(w, id), TransportOf(w, id), Some(id), w.clock);
    StageClaims(w, x, id, t);
    ClaimAllowed(x, s);
    var (after, result) := Claim(x.db, s.ref, s.grant, s.transport, s.preview, s.now);
    ClaimDo(x, s, after, result);
    StartedIs(after, id, result.version, w.clock);
  }

  /** The run up to the second send: nothing in it was accepted, and the clock has not moved. */
  ghost predicate SentTwice(w: World, x: World, id: Id, t: Id) {
    && t != w.db.nextId && t in x.attempts && w.db.nextId in x.attempts && x.clock == w.clock
    && x.attempts[t].delivery == id && x.attempts[w.db.nextId].delivery == id
    && !x.attempts[t].accepted && !x.attempts[w.db.nextId].accepted
  }

  lemma BothAccepted(w: World, x: World, id: Id, t: Id)
    requires SentTwice(w, x, id, t)
    ensures Allowed(x, ProviderAccepts(t)) && Allowed(Do(x, ProviderAccepts(t)), ProviderAccepts(w.db.nextId))
    ensures
      var z := Do(Do(x, ProviderAccepts(t)), ProviderAccepts(w.db.nextId));
      z.clock == w.clock && !AcceptedAtMostOnce(z)
  {
    var z := Do(Do(x, ProviderAccepts(t)), ProviderAccepts(w.db.nextId));
    assert z.attempts[t].accepted && z.attempts[w.db.nextId].accepted && z.attempts[t].delivery == z.attempts[w.db.nextId].delivery;
  }

  lemma SceneFacts(w: World, id: Id, t: Id)
    requires Scene(w, id, t)
    ensures id in w.db.deliveries && w.db.deliveries[id].session in w.db.budgets && t in w.attempts
    ensures w.db.deliveries[id].dest in w.db.dests && Inv(w) && w.attempts[t].returned.None?
    ensures w.attempts[t].delivery == id && !w.attempts[t].accepted && w.db.deliveries[id].queries < MAX_QUERIES
  {
    hide Inv, Limits;
  }

  lemma RaiseAllowed(w: World, t: Id)
    requires t in w.attempts && w.attempts[t].returned.None?
    ensures Allowed(w, SendReturns(t, None))
    ensures Do(w, SendReturns(t, None)) == w.(attempts := w.attempts[t := w.attempts[t].(returned := Some(None))])
  {
  }

  lemma StageStarts(w: World, id: Id, t: Id)
    requires Scene(w, id, t)
    ensures id in w.db.deliveries && w.db.deliveries[id].session in w.db.budgets && t in w.attempts
    ensures w.db.deliveries[id].dest in w.db.dests
    ensures Allowed(w, SendReturns(t, None)) && Inv(w) && t != w.db.nextId
    ensures Do(w, SendReturns(t, None)) == w.(attempts := w.attempts[t := w.attempts[t].(returned := Some(None))])
    ensures w.attempts[t].delivery == id && !w.attempts[t].accepted && w.db.deliveries[id].queries < MAX_QUERIES
  {
    hide *;
    SceneFacts(w, id, t);
    InvTokens(w);
    RaiseAllowed(w, t);
  }

  /**
   Denials have to be final. From any world in which an attempt is under way, unaccepted, with budget left, there is a
   run of steps the world allows, all at one moment within the attempt's lease, that ends with the delivery accepted
   twice: the call raises, a query is answered with a true denial, the delivery is claimed again, and then both
   attempts are accepted. By `AtMostOnce`, what such a run lacks is that denials are final.
   */
  lemma TrueDenialsAreNotEnough(w: World, id: Id, t: Id) returns (steps: seq<Step>)
    requires Scene(w, id, t)
    ensures Runs(w, steps) && Final(w, steps).clock == w.clock && !AcceptedAtMostOnce(Final(w, steps))
  {
    hide *;
    StageStarts(w, id, t);
    var d := w.db.deliveries[id];
    NoSteps(w);
    var s1 := SendReturns(t, None);
    RunOneMore(w, [], s1);
    steps := [] + [s1];
    var s2 := FinishStep(t, 1.0, w.clock);
    Raise(w, Final(w, steps), id, t);
    RunOneMore(w, steps, s2);
    steps := steps + [s2];
    var s3 := Ask(id, Consent(w, id), d.version + 1, TransportOf(w, id));
    Query1(w, Final(w, steps), id, t);
    RunOneMore(w, steps, s3);
    steps := steps + [s3];
    var s4 := Answered(w.nextQuery, Some(DENIAL));
    Deny(w, Final(w, steps), id, t);
    RunOneMore(w, steps, s4);
    steps := steps + [s4];
    var s5 := SettleStep(w.nextQuery, w.clock, w.clock);
    Settle1(w, Final(w, steps), id, t);
    RunOneMore(w, steps, s5);
    steps := steps + [s5];
    RunsKeepInv(w, steps);
    StageAttempts(w, Final(w, steps), id, t);
    var s6 := ClaimStep(d.dest, Consent(w, id), TransportOf(w, id), Some(id), w.clock);
    Resend(w, Final(w, steps), id, t);
    RunOneMore(w, steps, s6);
    steps := steps + [s6];
    SentBoth(w, Final(w, steps), id, t);
    var s7, s8 := ProviderAccepts(t), ProviderAccepts(w.db.nextId);
    BothAccepted(w, Final(w, steps), id, t);
    RunOneMore(w, steps, s7);
    RunOneMore(w, steps + [s7], s8);
    steps := steps + [s7] + [s8];
  }

  lemma NoSteps(w: World)
    ensures Runs(w, []) && Final(w, []) == w
  {
  }

  lemma StageAttempts(w: World, x: World, id: Id, t: Id)
    requires Scene(w, id, t) && Stage(w, x, id, t, Pending, w.db.deliveries[id].version + 2)
    ensures t in x.attempts && x.attempts[t].delivery == id && !x.attempts[t].accepted && x.clock == w.clock
  {
    hide Inv, Limits;
  }

  lemma SentBoth(w: World, x: World, id: Id, t: Id)
    requires t != w.db.nextId && x.clock == w.clock && t in x.attempts && w.db.nextId in x.attempts
    requires x.attempts[t].delivery == id && x.attempts[w.db.nextId].delivery == id
    requires !x.attempts[t].accepted && !x.attempts[w.db.nextId].accepted
    ensures SentTwice(w, x, id, t)
  {
  }

  lemma {:induction false} RunsKeepInv(w: World, steps: seq<Step>)
    requires Inv(w) && Runs(w, steps)
    ensures Inv(Final(w, steps))
    decreases |steps|
  {
    if steps != [] {
      hide Inv, Allowed, Do;
      RunsKeepInv(w, steps[..|steps| - 1]);
      DoKeepsInv(Final(w, steps[..|steps| - 1]), steps[|steps| - 1]);
    }
  }
}
