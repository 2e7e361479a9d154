/**
 Refused attempts are retried: as long as the transport proves that it did not accept, and its jitter is the least, the
 delivery is claimed again and again, until its session has made all the 124 claims that `DeadlineBindsFirst` allows.
 */
module AlertRetry {
  import opened Common
  import opened AlertModel
  import opened AlertProtocol
  import opened AlertOutcomes
  import opened AlertSafety
  import opened AlertPace
  import opened AlertFinality
  import opened AlertWitness

  /** The one delivery waits for its next claim, the session having made `n`. */
  ghost predicate Waits(w: World, n: nat) {
    && w.db.deliveries.Keys == {0} && w.db.budgets.Keys == {1} && w.db.dests == CONFIGURED.dests
    && w.clock <= Wait(n + 1)
    && var d, b := w.db.deliveries[0], w.db.budgets[1];
    && d.state == Pending && d.session == 1 && d.dest == REF && d.config == CONFIG && d.nextDue == Wait(n + 1)
    && b.attempts == n && b.maxAttempts == 128 && b.deadline == 86_400.0
  }

  /** The claim of attempt `n + 1` is held, and the call is still running. */
  ghost predicate Sends(w: World, n: nat, token: Id) {
    && w.db.deliveries.Keys == {0} && w.db.budgets.Keys == {1} && w.db.dests == CONFIGURED.dests
    && w.clock == Wait(n + 1) && token in w.attempts && w.attempts[token].returned.None? && !w.attempts[token].accepted
    && w.attempts[token].delivery == 0 && w.attempts[token].claimedAt == Wait(n + 1)
    && var d, b := w.db.deliveries[0], w.db.budgets[1];
    && d.state == InFlight && d.claim == Some(token) && d.version == w.attempts[token].version
    && d.leaseUntil.Some? && d.leaseUntil.value > Wait(n + 1)
    && d.session == 1 && d.dest == REF && d.config == CONFIG
    && b.attempts == n + 1 && b.maxAttempts == 128 && b.deadline == 86_400.0
  }

  /** One attempt more, refused: wait until it is due, claim, be told that it was not accepted, and record it. */
  ghost function Round(w: World, n: nat): seq<Step> {
    [Tick(Wait(n + 1) - w.clock), ClaimStep(REF, CONSENT, "smtp", Some(0), Wait(n + 1)),
     SendReturns(w.db.nextId, Some(DENIAL)), FinishStep(w.db.nextId, 0.8, Wait(n + 1))]
  }

  lemma TickIs(w: World, delta: Time)
    requires delta >= 0.0
    ensures Allowed(w, Tick(delta)) && Do(w, Tick(delta)) == w.(clock := w.clock + delta)
  {
  }

  lemma WaitInTime(n: nat)
    requires n <= 123
    ensures Wait(n + 1) + 5.0 < 86_400.0 && Wait(n + 1) >= 0.0
  {
    if n + 1 >= 5 { assert (n + 1 - 5) as real <= 119.0; }
  }

  /** The least backoff leads exactly to the earliest time of the next claim. */
  lemma LeastBackoff(n: nat)
    ensures Wait(n + 1) + WaitAfter(n + 1, 0.8, 0) == Wait(n + 2)
  {
  }

  lemma WaitsHasRoom(w: World, n: nat)
    requires Waits(w, n)
    ensures |InFlightAll(w.db)| < 16 && |InFlightFor(w.db, REF)| < 2 && Refusal(w.db, REF, CONSENT, false).None?
  {
    assert InFlightAll(w.db) == {} && InFlightFor(w.db, REF) == {};
  }

  lemma WaitsIsClaimed(w: World, n: nat)
    requires Inv(w) && Waits(w, n) && n <= 123
    ensures
      var result := Claim(w.db, REF, CONSENT, "smtp", Some(0), Wait(n + 1)).1;
      result.Claimed? && result.id == 0 && result.token == w.db.nextId
  {
    InvBooks(w);
    BooksShape(w.db);
    ShapeRow(w.db, 0);
    WaitsHasRoom(w, n);
    WaitInTime(n);
    hide Inv, Shape, LocalOk, Wait, Claim, Refusal, InFlightAll, InFlightFor;
    ClaimSucceeds(w.db, 0, CONSENT, "smtp", Wait(n + 1));
  }

  lemma ClaimSends(w: World, n: nat)
    requires Inv(w) && Waits(w, n) && n <= 123 && w.clock == Wait(n + 1)
    ensures
      var s := ClaimStep(REF, CONSENT, "smtp", Some(0), Wait(n + 1));
      Allowed(w, s) && Sends(Do(w, s), n, w.db.nextId)
  {
    hide *;
    var s := ClaimStep(REF, CONSENT, "smtp", Some(0), Wait(n + 1));
    InvBooks(w);
    BooksShape(w.db);
    WaitsFacts(w, n);
    ShapeRow(w.db, 0);
    WaitInTime(n);
    WaitsIsClaimed(w, n);
    ClaimAllowed(w, s);
    var (after, result) := Claim(w.db, s.ref, s.grant, s.transport, s.preview, s.now);
    ClaimCases(w.db, s.ref, s.grant, s.transport, s.preview, s.now);
    ClaimFacts(w.db, s.now, after, result);
    ClaimDo(w, s, after, result);
    SweepLeavesPending(w.db, 0, s.now);
    SweepKeys(w.db, s.now);
    SentFrom(w, Do(w, s), Sweep(w.db, s.now), n);
  }

  lemma WaitsFacts(w: World, n: nat)
    requires Waits(w, n)
    ensures w.db.deliveries.Keys == {0} && w.db.budgets.Keys == {1}
    ensures
      var d, b := w.db.deliveries[0], w.db.budgets[1];
      && d.state == Pending && d.session == 1 && d.dest == REF
      && b.attempts == n && b.maxAttempts == 128 && b.deadline == 86_400.0
  {
    hide Wait;
  }

  lemma SentFrom(w: World, w': World, db: AlertDb, n: nat)
    requires Waits(w, n) && w.clock == Wait(n + 1) && Wait(n + 1) + 5.0 < 86_400.0
    requires db.deliveries.Keys == {0} && db.budgets.Keys == {1} && db.dests == w.db.dests && db.nextId == w.db.nextId
    requires db.deliveries[0] == w.db.deliveries[0] && db.budgets[1] == w.db.budgets[1]
    requires
      var now := Wait(n + 1);
      w' == w.(db := TakeClaim(db, 0, now), log := w'.log,
               attempts := w.attempts[w.db.nextId := Started(TakeClaim(db, 0, now), 0, db.deliveries[0].version + 1, now)])
    ensures Sends(w', n, w.db.nextId)
  {
    hide Wait;
  }

  lemma ReturnIs(w: World, token: Id)
    requires token in w.attempts && w.attempts[token].returned.None? && !w.attempts[token].accepted
    ensures Allowed(w, SendReturns(token, Some(DENIAL)))
    ensures Do(w, SendReturns(token, Some(DENIAL))) == w.(attempts := w.attempts[token := w.attempts[token].(returned := Some(Some(DENIAL)))])
  {
  }

  lemma FinishDo(w: World, token: Id, now: Time)
    requires token in w.attempts && w.attempts[token].returned == Some(Some(DENIAL))
    ensures Allowed(w, FinishStep(token, 0.8, now))
    ensures
      var r := Finish(w.db, w.attempts[token].delivery, token, w.attempts[token].version, DENIAL, 0.8, now);
      r.Ok? ==> Do(w, FinishStep(token, 0.8, now)).db == r.value && Do(w, FinishStep(token, 0.8, now)).clock == w.clock
  {
    SanitizedOutcome(Some(DENIAL));
    hide Finish, Sanitized;
  }

  /** The refusal of attempt `n + 1` puts the delivery back, due when attempt `n + 2` may be claimed at the earliest. */
  lemma RefusedWaits(w: World, w': World, n: nat, token: Id)
    requires Sends(w, n, token) && n <= 123
    requires w' == w.(attempts := w.attempts[token := w.attempts[token].(returned := Some(Some(DENIAL)))])
    ensures
      var s := FinishStep(token, 0.8, Wait(n + 1));
      && Allowed(w', s)
      && Do(w', s).db.budgets.Keys == {1} && Do(w', s).db.budgets[1].attempts == n + 1
      && (n < 123 ==> Waits(Do(w', s), n + 1))
  {
    FinishDo(w', token, Wait(n + 1));
    FinishOutcome(w'.db, 0, token, w.attempts[token].version, DENIAL, 0.8, Wait(n + 1));
    LeastBackoff(n);
    WaitInTime(n);
    if n < 123 { WaitInTime(n + 1); }
    WaitGrows(n);
    hide Finish, Wait, WaitAfter, Do, Allowed;
  }

  lemma WaitGrows(n: nat)
    ensures Wait(n + 1) <= Wait(n + 2)
  {
  }

  lemma WaitedIs(w: World, n: nat)
    requires Waits(w, n)
    ensures w.clock <= Wait(n + 1) && Waits(w.(clock := Wait(n + 1)), n)
  {
    hide Wait;
  }

  lemma SendsFacts(w: World, n: nat, token: Id)
    requires Sends(w, n, token)
    ensures token in w.attempts && w.attempts[token].returned.None? && !w.attempts[token].accepted
    ensures w.attempts[token].claimedAt == Wait(n + 1)
  {
    hide Wait;
  }

  lemma OneRound(w: World, n: nat)
    requires Inv(w) && Waits(w, n) && n <= 123
    ensures Runs(w, Round(w, n)) && Inv(Final(w, Round(w, n))) && OrderedRun(w, Round(w, n))
    ensures Final(w, Round(w, n)).db.budgets.Keys == {1} && Final(w, Round(w, n)).db.budgets[1].attempts == n + 1
    ensures n < 123 ==> Waits(Final(w, Round(w, n)), n + 1)
  {
    hide *;
    NoSteps(w);
    RoundIs(w, n);
    WaitedIs(w, n);
    var s1, s2 := Tick(Wait(n + 1) - w.clock), ClaimStep(REF, CONSENT, "smtp", Some(0), Wait(n + 1));
    var s3, s4 := SendReturns(w.db.nextId, Some(DENIAL)), FinishStep(w.db.nextId, 0.8, Wait(n + 1));
    TickIs(w, Wait(n + 1) - w.clock);
    NothingOrdered(w);
    OrderedIf(w, s1);
    OrderedMore(w, [], s1);
    RunOneMore(w, [], s1);
    assert [] + [s1] == [s1];
    RunsKeepInv(w, [s1]);
    var w1 := Final(w, [s1]);
    ClaimSends(w1, n);
    OrderedIf(w1, s2);
    OrderedMore(w, [s1], s2);
    RunOneMore(w, [s1], s2);
    var w2 := Final(w, [s1] + [s2]);
    SendsFacts(w2, n, w.db.nextId);
    ReturnIs(w2, w.db.nextId);
    OrderedIf(w2, s3);
    OrderedMore(w, [s1] + [s2], s3);
    RunOneMore(w, [s1] + [s2], s3);
    RefusedWaits(w2, Final(w, [s1] + [s2] + [s3]), n, w.db.nextId);
    OrderedIf(Final(w, [s1] + [s2] + [s3]), s4);
    OrderedMore(w, [s1] + [s2] + [s3], s4);
    RunOneMore(w, [s1] + [s2] + [s3], s4);
    assert [s1] + [s2] + [s3] + [s4] == Round(w, n);
    RunsKeepInv(w, Round(w, n));
  }

  lemma RoundIs(w: World, n: nat)
    ensures Round(w, n) == [Tick(Wait(n + 1) - w.clock), ClaimStep(REF, CONSENT, "smtp", Some(0), Wait(n + 1)),
                            SendReturns(w.db.nextId, Some(DENIAL)), FinishStep(w.db.nextId, 0.8, Wait(n + 1))]
  {
  }

  // ---------------------------------------------------------------- the run

  ghost predicate NoSettles(steps: seq<Step>) {
    forall i | 0 <= i < |steps| :: !steps[i].SettleStep?
  }

  lemma {:induction false} NothingRearmed(w: World, steps: seq<Step>)
    requires Runs(w, steps) && NoSettles(steps)
    ensures Rearmed(w, steps) == {}
    decreases |steps|
  {
    if steps != [] {
      hide Allowed, Do;
      NothingRearmed(w, steps[..|steps| - 1]);
    }
  }

  lemma OrderedMore(w: World, steps: seq<Step>, s: Step)
    requires Runs(w, steps) && OrderedRun(w, steps) && Allowed(Final(w, steps), s) && Ordered(Final(w, steps), s)
    ensures Runs(w, steps + [s]) && OrderedRun(w, steps + [s])
  {
    RunOneMore(w, steps, s);
    assert (steps + [s])[..|steps|] == steps;
    hide Allowed, Do, Ordered;
  }

  lemma {:induction false} OrderedConcat(w: World, first: seq<Step>, second: seq<Step>)
    requires Runs(w, first) && Runs(Final(w, first), second) && OrderedRun(w, first) && OrderedRun(Final(w, first), second)
    ensures Runs(w, first + second) && OrderedRun(w, first + second)
    decreases |second|
  {
    RunsConcat(w, first, second);
    if second == [] {
      assert first + second == first;
    } else {
      var n := |second| - 1;
      OrderedConcat(w, first, second[..n]);
      RunsConcat(w, first, second[..n]);
      hide Allowed, Do, Ordered;
      OrderedMore(w, first + second[..n], second[n]);
      assert first + second == first + second[..n] + [second[n]];
    }
  }

  lemma OrderedIf(w: World, s: Step)
    requires !s.FinishStep? || (s.token in w.attempts ==> w.attempts[s.token].claimedAt <= s.now)
    ensures Ordered(w, s)
  {
  }

  lemma NothingOrdered(w: World)
    ensures Runs(w, []) && OrderedRun(w, [])
  {
  }

  /** As many refused rounds as the deadline allows, one after the other. */
  lemma {:induction false} RefusedRounds(w: World, n: nat) returns (steps: seq<Step>)
    requires Inv(w) && Waits(w, 0) && n <= 124
    ensures Runs(w, steps) && Inv(Final(w, steps)) && OrderedRun(w, steps) && NoSettles(steps)
    ensures n <= 123 ==> Waits(Final(w, steps), n)
    ensures n > 0 ==> Final(w, steps).db.budgets.Keys == {1} && Final(w, steps).db.budgets[1].attempts == n
    decreases n
  {
    hide *;
    if n == 0 {
      NoSteps(w);
      NothingOrdered(w);
      NoneSettles([]);
      steps := [];
    } else {
      var before := RefusedRounds(w, n - 1);
      var x := Final(w, before);
      OneRound(x, n - 1);
      RunsConcat(w, before, Round(x, n - 1));
      OrderedConcat(w, before, Round(x, n - 1));
      RoundSettlesNone(before, x, n - 1);
      steps := before + Round(x, n - 1);
    }
  }

  lemma NoneSettles(steps: seq<Step>)
    requires steps == []
    ensures NoSettles(steps)
  {
  }

  lemma RoundSettlesNone(before: seq<Step>, w: World, n: nat)
    requires NoSettles(before)
    ensures NoSettles(before + Round(w, n))
  {
    hide Wait;
  }

  lemma FirstWaits(w: World)
    requires w.db == Enqueued() && w.clock == 0.0
    ensures Waits(w, 0)
  {
    EnqueuedRow();
    hide Enqueued;
  }

  lemma SetupSettlesNone(steps: seq<Step>)
    requires NoSettles(steps)
    ensures NoSettles([Admin(CONFIGURE), Admin(RECONCILE)] + steps)
  {
  }

  lemma SetupOrdered(w: World)
    ensures Runs(w, [Admin(CONFIGURE), Admin(RECONCILE)]) && OrderedRun(w, [Admin(CONFIGURE), Admin(RECONCILE)])
  {
    hide *;
    Constants();
    NoSteps(w);
    NothingOrdered(w);
    AdminStep(w, CONFIGURE);
    OrderedIf(w, Admin(CONFIGURE));
    OrderedMore(w, [], Admin(CONFIGURE));
    assert [] + [Admin(CONFIGURE)] == [Admin(CONFIGURE)];
    var w1 := Final(w, [Admin(CONFIGURE)]);
    AdminStep(w1, RECONCILE);
    OrderedIf(w1, Admin(RECONCILE));
    OrderedMore(w, [Admin(CONFIGURE)], Admin(RECONCILE));
    assert [Admin(CONFIGURE)] + [Admin(RECONCILE)] == [Admin(CONFIGURE), Admin(RECONCILE)];
  }

  /**
   The bound of `DeadlineBindsFirst` is reached: a run from an empty outbox, with ordered clock readings and no session
   put back from ambiguity, in which one session is refused and claimed again until it has made `n` claims, up to 124.
   */
  lemma RetriesHappen(n: nat) returns (steps: seq<Step>)
    requires 1 <= n <= 124
    ensures Runs(Start(STORE, 0.0), steps) && OrderedRun(Start(STORE, 0.0), steps) && Rearmed(Start(STORE, 0.0), steps) == {}
    ensures 1 in Final(Start(STORE, 0.0), steps).db.budgets && Final(Start(STORE, 0.0), steps).db.budgets[1].attempts == n
  {
    hide *;
    var w, setup := Start(STORE, 0.0), [Admin(CONFIGURE), Admin(RECONCILE)];
    Prepares();
    RunKeepsInv(STORE, 0.0, setup);
    var ready := Final(w, setup);
    FirstWaits(ready);
    var rounds := RefusedRounds(ready, n);
    RunsConcat(w, setup, rounds);
    SetupOrdered(w);
    OrderedConcat(w, setup, rounds);
    SetupSettlesNone(rounds);
    steps := setup + rounds;
    NothingRearmed(w, steps);
  }
}
