/**
 What the reads of a run have shown. A bookmark read is recorded by a transaction of its own, later than its cursor
 read. The record of a page says exactly what the answer recorded last was, so a bookmark is due exactly when the last
 recorded answer of every page was the whole page; and a client that follows next tokens through a run reads the
 captured list.
 */
module ReadHistory {
  import opened Common
  import opened Incidents
  import opened Cursor
  import opened Paging
  import opened Bookmarks

  // ---------------------------------------------------------------- the answer recorded last

  /** The step records an answer for page `p`. */
  ghost predicate Records(before: OwnerDb, step: Step, p: (Id, nat)) {
    && step.RecordStep? && Record(before, step.token, step.answer.partial).Ok?
    && before.cursors[step.token] == PageCursor(p.0, p.1)
  }

  /** The items of the answer that the run recorded last for page `p`. */
  ghost function LatestAnswer(db: OwnerDb, steps: seq<Step>, p: (Id, nat)): Option<seq<Incident>>
    decreases |steps|
  {
    if steps == [] then None else
      var n := |steps| - 1;
      if Records(Run(db, steps[..n]), steps[n], p) then Some(steps[n].answer.items) else LatestAnswer(db, steps[..n], p)
  }

  lemma {:induction false} VisibleWhole(items: seq<Incident>, authorize: Incident -> bool)
    ensures Visible(items, authorize) == items <==> forall x | x in items :: authorize(x)
    decreases |items|
  {
    VisibleAll(items, authorize);
    if items != [] && forall x | x in items :: authorize(x) {
      assert items == [items[0]] + items[1..];
      VisibleWhole(items[1..], authorize);
    }
  }

  /** The answer is what a policy shows of the page that the cursor stands on. */
  ghost predicate Stands(db: OwnerDb, token: Id, answer: PageResult, authorize: Incident -> bool) {
    && token in db.cursors && db.cursors[token].session in db.sessions
    && var s, position := db.sessions[db.cursors[token].session], db.cursors[token].position;
    && answer.items == Visible(Slice(s, position), authorize)
    && (answer.partial <==> |answer.items| != |Slice(s, position)| || s.historyGap)
  }

  lemma AnswerStands(before: OwnerDb, step: Step, token: Id, answer: PageResult)
    requires BookmarkInv(before) && Answers(before, step, token, answer)
    ensures step.PageStep? && Stands(before, token, answer, step.authorize) && token < before.nextId
  {
    hide Slice, Visible, PageDb, PageNext, Truncated;
  }

  lemma StillStands(before: OwnerDb, later: OwnerDb, token: Id, answer: PageResult, authorize: Incident -> bool)
    requires BookmarkInv(before) && Evolves(before, later) && Stands(before, token, answer, authorize) && token < before.nextId
    requires token in later.cursors && later.cursors[token].session in later.sessions
    ensures Stands(later, token, answer, authorize)
  {
    EvolvedSession(before, later, token);
    hide BookmarkInv, Evolves, Slice, Visible;
  }

  /** An answer given earlier in the run is still what its policy shows, as long as the session lives. */
  lemma GivenStands(db: OwnerDb, steps: seq<Step>, i: nat, token: Id, answer: PageResult)
    requires BookmarkInv(db) && Legal(db, steps) && i < |steps| && Answers(Run(db, steps[..i]), steps[i], token, answer)
    requires token in Run(db, steps).cursors && Run(db, steps).cursors[token].session in Run(db, steps).sessions
    ensures steps[i].PageStep? && Stands(Run(db, steps), token, answer, steps[i].authorize)
  {
    hide *;
    RunEvolves(db, steps, i, |steps|);
    assert steps[..|steps|] == steps;
    AnswerStands(Run(db, steps[..i]), steps[i], token, answer);
    StillStands(Run(db, steps[..i]), Run(db, steps), token, answer, steps[i].authorize);
  }

  /** A record says whether the answer was the whole page. */
  lemma RecordedAnswer(db: OwnerDb, step: Step, p: (Id, nat), authorize: Incident -> bool)
    requires BookmarkInv(db) && Records(db, step, p) && Stands(db, step.token, step.answer, authorize)
    ensures WellKeyed(db.incidents.ledger)
    ensures p.0 in db.sessions && p in Exec(db, step).pages && Exec(db, step).sessions == db.sessions
    ensures Exec(db, step).nextId == db.nextId
    ensures Exec(db, step).pages[p] <==> step.answer.items == Slice(db.sessions[p.0], p.1)
  {
    hide BookmarkInv, WellKeyed, Slice, Visible, FrameOf;
    InvKeyed(db);
    ScopeSound(db, p.0);
    VisibleAll(Slice(db.sessions[p.0], p.1), authorize);
    VisibleWhole(Slice(db.sessions[p.0], p.1), authorize);
  }

  lemma OtherRecord(db: OwnerDb, step: Step, p: (Id, nat))
    requires step.RecordStep? && !Records(db, step, p)
    ensures
      var after := Kept(db, Record(db, step.token, step.answer.partial));
      && (p in after.pages <==> p in db.pages) && (p in db.pages ==> after.pages[p] == db.pages[p])
  {
    hide FrameOf;
  }

  lemma QuietPagesStay(db: OwnerDb, step: Step, p: (Id, nat))
    requires BookmarkInv(db) && WellKeyed(db.incidents.ledger) && !step.RecordStep?
    requires p in db.pages && p.0 in Exec(db, step).sessions
    ensures p in Exec(db, step).pages
  {
    hide Exec, BookmarkInv, WellKeyed;
    InvPagesBelow(db);
    if step.CaptureStep? || step.StartStep? || step.ResumeStep? {
      CapturesKeepPages(db, step);
    } else {
      QuietStepsKeepPages(db, step);
    }
  }

  /** A step that records nothing for page `p` leaves its record alone, for as long as the session lives. */
  lemma StepKeepsRecord(db: OwnerDb, step: Step, p: (Id, nat))
    requires BookmarkInv(db) && !Records(db, step, p)
    ensures WellKeyed(db.incidents.ledger)
    ensures p in Exec(db, step).pages ==> p in db.pages && Exec(db, step).pages[p] == db.pages[p]
    ensures p in db.pages && p.0 in Exec(db, step).sessions ==> p in Exec(db, step).pages
  {
    InvKeyed(db);
    if step.RecordStep? {
      OtherRecord(db, step, p);
      hide BookmarkInv, WellKeyed, Records, Record;
    } else {
      hide BookmarkInv, WellKeyed, Records, Exec;
      if p in Exec(db, step).pages { OtherStepsKeepPages(db, step, p); }
      if p in db.pages && p.0 in Exec(db, step).sessions { QuietPagesStay(db, step, p); }
    }
  }

  lemma SessionStays(db: OwnerDb, later: OwnerDb, sid: Id)
    requires Evolves(db, later) && sid < db.nextId && sid in later.sessions
    ensures sid in db.sessions && later.sessions[sid] == db.sessions[sid]
  {
  }

  lemma PageHasSession(db: OwnerDb, p: (Id, nat))
    requires BookmarkInv(db)
    ensures p in db.pages ==> p.0 in db.sessions && p.0 < db.nextId
    ensures p.0 in db.sessions ==> p.0 < db.nextId
    ensures WellKeyed(db.incidents.ledger)
  {
    if p in db.pages { assert PageOk(db, p); }
  }

  /** The record of page `p` says what the answer recorded last was. */
  ghost predicate RecordTrue(after: OwnerDb, latest: Option<seq<Incident>>, p: (Id, nat)) {
    && (p in after.pages <==> latest.Some? && p.0 in after.sessions)
    && (p in after.pages ==> (after.pages[p] <==> latest.value == Slice(after.sessions[p.0], p.1)))
    && (latest.Some? ==> p.0 < after.nextId)
  }

  lemma OtherStepTrue(before: OwnerDb, step: Step, latest: Option<seq<Incident>>, p: (Id, nat))
    requires BookmarkInv(before) && Ready(before, step) && RecordTrue(before, latest, p) && !Records(before, step, p)
    ensures WellKeyed(before.incidents.ledger) && RecordTrue(Exec(before, step), latest, p)
  {
    hide BookmarkInv, WellKeyed, Ready, Exec, Evolves, Slice, Records;
    PageHasSession(before, p);
    var after := Exec(before, step);
    ExecKeepsInv(before, step);
    PageHasSession(after, p);
    StepKeepsRecord(before, step, p);
    EvolvesIds(before, after);
    if p.0 in after.sessions && p.0 < before.nextId { SessionStays(before, after, p.0); }
  }

  lemma RecordStepTrue(before: OwnerDb, step: Step, p: (Id, nat), authorize: Incident -> bool)
    requires BookmarkInv(before) && Records(before, step, p) && Stands(before, step.token, step.answer, authorize)
    ensures WellKeyed(before.incidents.ledger) && RecordTrue(Exec(before, step), Some(step.answer.items), p)
  {
    hide BookmarkInv, WellKeyed, Exec, Slice, Records, Stands;
    PageHasSession(before, p);
    RecordedAnswer(before, step, p, authorize);
  }

  lemma EvolvesIds(db: OwnerDb, later: OwnerDb)
    requires Evolves(db, later)
    ensures db.nextId <= later.nextId
  {
  }

  lemma LastOfRun(db: OwnerDb, steps: seq<Step>, p: (Id, nat))
    requires steps != []
    ensures
      var n := |steps| - 1;
      && (Records(Run(db, steps[..n]), steps[n], p) ==> steps[n].RecordStep? && LatestAnswer(db, steps, p) == Some(steps[n].answer.items))
      && (!Records(Run(db, steps[..n]), steps[n], p) ==> LatestAnswer(db, steps, p) == LatestAnswer(db, steps[..n], p))
  {
    hide Run, Record;
  }

  lemma NoSteps(db: OwnerDb, p: (Id, nat))
    requires db.pages == map[]
    ensures Run(db, []) == db && LatestAnswer(db, [], p) == None && RecordTrue(db, None, p)
  {
  }

  lemma RecordBacked(db: OwnerDb, steps: seq<Step>, step: Step, p: (Id, nat)) returns (i: nat)
    requires Backed(db, steps, step) && Records(Run(db, steps), step, p)
    ensures step.RecordStep? && i < |steps| && Answers(Run(db, steps[..i]), steps[i], step.token, step.answer)
    ensures step.token in Run(db, steps).cursors && Run(db, steps).cursors[step.token].session in Run(db, steps).sessions
  {
    hide Run, Answers, Opens, FrameOf;
    i :| 0 <= i < |steps| && Answers(Run(db, steps[..i]), steps[i], step.token, step.answer);
  }

  /**
   Over every run from an owner database without recorded pages, a page is on record exactly while its session lives and
   an answer has been recorded for it, and complete exactly when the answer recorded last was the whole page.
   */
  lemma {:induction false} RecordIsLatestAnswer(db: OwnerDb, steps: seq<Step>, p: (Id, nat))
    requires BookmarkInv(db) && db.pages == map[] && Legal(db, steps)
    ensures RecordTrue(Run(db, steps), LatestAnswer(db, steps, p), p)
    decreases |steps|
  {
    hide *;
    if steps == [] {
      NoSteps(db, p);
    } else {
      var n := |steps| - 1;
      LastAllowed(db, steps);
      LastOfRun(db, steps, p);
      var before := Run(db, steps[..n]);
      if Records(before, steps[n], p) {
        var i := RecordBacked(db, steps[..n], steps[n], p);
        GivenStands(db, steps[..n], i, steps[n].token, steps[n].answer);
        RecordStepTrue(before, steps[n], p, steps[..n][i].authorize);
      } else {
        RecordIsLatestAnswer(db, steps[..n], p);
        OtherStepTrue(before, steps[n], LatestAnswer(db, steps[..n], p), p);
      }
    }
  }

  /** Read `i` gave, and step `j` recorded, the answer that the run recorded last for page `p`. */
  ghost predicate Given(db: OwnerDb, steps: seq<Step>, i: nat, j: nat, p: (Id, nat)) {
    && i < j < |steps| && Records(Run(db, steps[..j]), steps[j], p)
    && Answers(Run(db, steps[..i]), steps[i], steps[j].token, steps[j].answer)
    && (forall k | j < k < |steps| :: !Records(Run(db, steps[..k]), steps[k], p))
    && LatestAnswer(db, steps, p) == Some(steps[j].answer.items)
  }

  lemma Prefixes(steps: seq<Step>, n: nat, i: nat)
    requires i < n <= |steps|
    ensures steps[..n][..i] == steps[..i] && steps[..n][i] == steps[i]
  {
  }

  lemma SomeStep(db: OwnerDb, steps: seq<Step>, p: (Id, nat))
    requires LatestAnswer(db, steps, p).Some?
    ensures steps != []
  {
  }

  lemma GivenLast(db: OwnerDb, steps: seq<Step>, i: nat, n: nat, p: (Id, nat))
    requires i < n && |steps| == n + 1 && Records(Run(db, steps[..n]), steps[n], p) && steps[n].RecordStep?
    requires Answers(Run(db, steps[..i]), steps[i], steps[n].token, steps[n].answer)
    ensures Given(db, steps, i, n, p)
  {
    hide Run, Answers, Records;
  }

  lemma GivenLonger(db: OwnerDb, steps: seq<Step>, i: nat, j: nat, p: (Id, nat))
    requires steps != [] && Given(db, steps[..|steps| - 1], i, j, p) && !Records(Run(db, steps[..|steps| - 1]), steps[|steps| - 1], p)
    ensures Given(db, steps, i, j, p)
  {
    hide Run, Answers, Records;
    var shorter := steps[..|steps| - 1];
    assert shorter[..j] == steps[..j] && shorter[..i] == steps[..i];
    forall k | j < k < |steps| ensures !Records(Run(db, steps[..k]), steps[k], p) {
      assert k < |shorter| ==> shorter[..k] == steps[..k] && shorter[k] == steps[k];
    }
  }

  /** The answer recorded last for a page was given by a read of the run. */
  lemma {:induction false} LatestWasGiven(db: OwnerDb, steps: seq<Step>, p: (Id, nat)) returns (i: nat, j: nat)
    requires BookmarkInv(db) && Legal(db, steps) && LatestAnswer(db, steps, p).Some?
    ensures Given(db, steps, i, j, p)
    decreases |steps|
  {
    hide *;
    SomeStep(db, steps, p);
    var n := |steps| - 1;
    LastAllowed(db, steps);
    LastOfRun(db, steps, p);
    if Records(Run(db, steps[..n]), steps[n], p) {
      i := RecordBacked(db, steps[..n], steps[n], p);
      j := n;
      Prefixes(steps, n, i);
      GivenLast(db, steps, i, n, p);
    } else {
      i, j := LatestWasGiven(db, steps[..n], p);
      GivenLonger(db, steps, i, j, p);
    }
  }

  /**
   Over every run: if a page is recorded complete, a read of the run returned the whole of it, and no answer has been
   recorded for the page since that one was.
   */
  lemma CompletePageWasReadUnredacted(db: OwnerDb, steps: seq<Step>, p: (Id, nat)) returns (i: nat, j: nat)
    requires BookmarkInv(db) && db.pages == map[] && Legal(db, steps)
    requires p in Run(db, steps).pages && Run(db, steps).pages[p]
    ensures Given(db, steps, i, j, p)
    ensures p.0 in Run(db, steps).sessions && steps[j].answer.items == Slice(Run(db, steps).sessions[p.0], p.1)
  {
    RecordIsLatestAnswer(db, steps, p);
    hide Run, Answers, Records, LatestAnswer, Slice, Legal, BookmarkInv;
    i, j := LatestWasGiven(db, steps, p);
  }

  // ---------------------------------------------------------------- an issued bookmark

  /** What a client holds that keeps the answer recorded last for each of the first `m` pages. */
  ghost function Held(db: OwnerDb, steps: seq<Step>, sid: Id, limit: nat, m: nat): seq<Incident> {
    if m == 0 then [] else
      var r := LatestAnswer(db, steps, (sid, PageStart(limit, m - 1)));
      Held(db, steps, sid, limit, m - 1) + (if r.Some? then r.value else [])
  }

  /** The answer recorded last for each of the first `m` pages was the whole page. */
  ghost predicate AllShown(db: OwnerDb, steps: seq<Step>, sid: Id, s: Session, m: nat) {
    forall k: nat | k < m :: LatestAnswer(db, steps, (sid, PageStart(s.limit, k))) == Some(Span(s, k))
  }

  lemma {:induction false} AllShownHeld(db: OwnerDb, steps: seq<Step>, sid: Id, s: Session, m: nat)
    requires AllShown(db, steps, sid, s, m)
    ensures Held(db, steps, sid, s.limit, m) == Spans(s, m)
    decreases m
  {
    if m > 0 {
      AllShownHeld(db, steps, sid, s, m - 1);
    }
  }

  lemma SpansCover(s: Session)
    requires s.limit > 0
    ensures Spans(s, PageCount(|s.items|, s.limit)) == s.items
  {
    var m := PageCount(|s.items|, s.limit);
    SpansArePrefix(s, m);
    PageCountIsCeiling(|s.items|, s.limit);
    PageStartIsProduct(s.limit, m);
  }

  lemma {:induction false} InsideCount(k: nat, n: nat, limit: nat)
    requires limit > 0 && k < PageCount(n, limit)
    ensures PageStart(limit, k) == 0 || PageStart(limit, k) < n
    decreases n
  {
    if k > 0 {
      InsideCount(k - 1, n - limit, limit);
      PageStartIsProduct(limit, k);
      PageStartIsProduct(limit, k - 1);
      assert k * limit == (k - 1) * limit + limit;
    }
  }

  lemma FullPages(sid: Id, s: Session, k: nat)
    requires s.limit > 0
    ensures (sid, PageStart(s.limit, k)) in AllPages(sid, |s.items|, s.limit) <==> k < PageCount(|s.items|, s.limit)
    ensures k < PageCount(|s.items|, s.limit) ==> Slice(s, PageStart(s.limit, k)) == Span(s, k)
  {
    FirstPagesAre(sid, s.limit, PageCount(|s.items|, s.limit));
    if k < PageCount(|s.items|, s.limit) {
      InsideCount(k, |s.items|, s.limit);
      SliceIsSpan(s, k);
    }
  }

  lemma ShownIsComplete(db: OwnerDb, steps: seq<Step>, sid: Id, k: nat)
    requires BookmarkInv(db) && db.pages == map[] && Legal(db, steps)
    requires sid in Run(db, steps).sessions && Run(db, steps).sessions[sid].limit > 0
    requires var s := Run(db, steps).sessions[sid]; k < PageCount(|s.items|, s.limit)
    ensures
      var s := Run(db, steps).sessions[sid];
      var p := (sid, PageStart(s.limit, k));
      p in CompletePages(Run(db, steps), sid) <==> LatestAnswer(db, steps, p) == Some(Span(s, k))
  {
    var s := Run(db, steps).sessions[sid];
    RecordIsLatestAnswer(db, steps, (sid, PageStart(s.limit, k)));
    FullPages(sid, s, k);
    hide BookmarkInv, Legal, Run, LatestAnswer, Slice, Span, PageStart;
  }

  lemma {:induction false} CoverageFrom(db: OwnerDb, steps: seq<Step>, sid: Id, s: Session, complete: set<(Id, nat)>)
    requires s.limit > 0
    requires forall k: nat | k < PageCount(|s.items|, s.limit) ::
               (sid, PageStart(s.limit, k)) in complete <==> LatestAnswer(db, steps, (sid, PageStart(s.limit, k))) == Some(Span(s, k))
    requires complete <= AllPages(sid, |s.items|, s.limit)
    ensures complete == AllPages(sid, |s.items|, s.limit) <==> AllShown(db, steps, sid, s, PageCount(|s.items|, s.limit))
  {
    var all, m := AllPages(sid, |s.items|, s.limit), PageCount(|s.items|, s.limit);
    FirstPagesAre(sid, s.limit, m);
    if AllShown(db, steps, sid, s, m) {
      forall p | p in all ensures p in complete {
        var k := FirstPagesOnly(sid, s.limit, m, p);
      }
    }
  }

  lemma {:induction false} FirstPagesOnly(sid: Id, limit: nat, m: nat, p: (Id, nat)) returns (k: nat)
    requires p in FirstPages(sid, limit, m)
    ensures k < m && p == (sid, PageStart(limit, k))
    decreases m
  {
    if p == (sid, PageStart(limit, m - 1)) {
      k := m - 1;
    } else {
      k := FirstPagesOnly(sid, limit, m - 1, p);
    }
  }

  /** In every run, the coverage count is reached exactly when the last recorded answer of every page was all of it. */
  lemma CoverageIsAllShown(db: OwnerDb, steps: seq<Step>, sid: Id)
    requires BookmarkInv(db) && db.pages == map[] && Legal(db, steps) && sid in Run(db, steps).scopes
    ensures sid in Run(db, steps).sessions && Run(db, steps).sessions[sid].limit > 0
    ensures
      var s := Run(db, steps).sessions[sid];
      |CompletePages(Run(db, steps), sid)| == Expected(Run(db, steps).scopes[sid].frame) <==>
        AllShown(db, steps, sid, s, PageCount(|s.items|, s.limit))
  {
    hide *;
    RunKeepsInv(db, steps);
    var now := Run(db, steps);
    CompleteInside(now, sid);
    CountIsCoverage(now, sid);
    var s := now.sessions[sid];
    forall k: nat | k < PageCount(|s.items|, s.limit)
      ensures (sid, PageStart(s.limit, k)) in CompletePages(now, sid)
         <==> LatestAnswer(db, steps, (sid, PageStart(s.limit, k))) == Some(Span(s, k))
    {
      ShownIsComplete(db, steps, sid, k);
    }
    CoverageFrom(db, steps, sid, s, CompletePages(now, sid));
  }

  /**
   A bookmark means the client was shown everything. In every run, an issue is refused for coverage exactly when the
   answer recorded last for some page was not the whole page; and when it is not refused, those answers put together are
   the captured list.
   */
  lemma IssueMeansAllShown(db: OwnerDb, steps: seq<Step>, sid: Id, now: Time, reuse: Option<Id>, drop: Option<Id>)
    requires BookmarkInv(db) && db.pages == map[] && Legal(db, steps) && sid in Run(db, steps).scopes
    ensures sid in Run(db, steps).sessions && Run(db, steps).sessions[sid].limit > 0
    ensures
      var s := Run(db, steps).sessions[sid];
      var m := PageCount(|s.items|, s.limit);
      && (Issue(Run(db, steps), sid, now, reuse, drop) == Err(CoverageIncomplete) <==> !AllShown(db, steps, sid, s, m))
      && (Issue(Run(db, steps), sid, now, reuse, drop).Ok? ==> Held(db, steps, sid, s.limit, m) == s.items)
  {
    CoverageIsAllShown(db, steps, sid);
    RunKeepsInv(db, steps);
    CompleteInside(Run(db, steps), sid);
    var s := Run(db, steps).sessions[sid];
    IssueRefusals(Run(db, steps), sid, now, reuse, drop);
    hide *;
    if AllShown(db, steps, sid, s, PageCount(|s.items|, s.limit)) {
      AllShownHeld(db, steps, sid, s, PageCount(|s.items|, s.limit));
      SpansCover(s);
    }
  }

  lemma IssueRefusals(db: OwnerDb, sid: Id, now: Time, reuse: Option<Id>, drop: Option<Id>)
    requires sid in db.sessions && sid in db.scopes && db.scopes[sid].frame == FrameOf(db.sessions[sid])
    ensures Issue(db, sid, now, reuse, drop) == Err(CoverageIncomplete)
       <==> |CompletePages(db, sid)| != Expected(db.scopes[sid].frame)
    ensures Issue(db, sid, now, reuse, drop).Ok? ==> |CompletePages(db, sid)| == Expected(db.scopes[sid].frame)
  {
  }

  // ---------------------------------------------------------------- following next tokens through a run

  /** A cursor read that was answered. */
  ghost predicate Answered(before: OwnerDb, step: Step) {
    step.PageStep? && Page(before, step.token, step.identity, step.policy, step.authorize, step.now).Ok?
  }

  ghost function Answer(before: OwnerDb, step: Step): PageResult
    requires Answered(before, step)
  {
    Page(before, step.token, step.identity, step.policy, step.authorize, step.now).value.1
  }

  lemma AnswerIsPage(before: OwnerDb, step: Step)
    requires WellKeyed(before.incidents.ledger) && Answered(before, step)
    ensures Page(before, step.token, step.identity, step.policy, step.authorize, step.now).Ok?
    ensures Page(before, step.token, step.identity, step.policy, step.authorize, step.now).value == (Exec(before, step), Answer(before, step))
  {
    hide WellKeyed, PageDb, PageNext, Truncated, Slice, Visible;
  }

  /** The read at step `i` of a run, as a visit. */
  ghost function VisitAt(db: OwnerDb, steps: seq<Step>, i: nat): Visit
    requires i < |steps| && steps[i].PageStep?
  {
    Visit(Run(db, steps[..i]), steps[i].token, steps[i].authorize, steps[i].now)
  }

  /** Step `i` is an answered read of this client. */
  ghost predicate ReadAt(db: OwnerDb, steps: seq<Step>, i: nat, identity: Identity, policy: string) {
    && i < |steps| && Answered(Run(db, steps[..i]), steps[i])
    && steps[i].identity == identity && steps[i].policy == policy
  }

  /** At these steps of the run, a client starts at a first page and follows every next token until there is none. */
  ghost predicate RunWalk(db: OwnerDb, steps: seq<Step>, stops: seq<nat>, identity: Identity, policy: string) {
    && stops != []
    && (forall i | 0 <= i < |stops| :: ReadAt(db, steps, stops[i], identity, policy))
    && var first := Run(db, steps[..stops[0]]);
    && steps[stops[0]].token in first.cursors && first.cursors[steps[stops[0]].token].position == 0
    && (forall i | 0 <= i < |stops| - 1 ::
          && stops[i] < stops[i + 1]
          && Answer(Run(db, steps[..stops[i]]), steps[stops[i]]).next == Some(steps[stops[i + 1]].token))
    && Answer(Run(db, steps[..stops[|stops| - 1]]), steps[stops[|stops| - 1]]).next == None
  }

  ghost function Visits(db: OwnerDb, steps: seq<Step>, stops: seq<nat>, identity: Identity, policy: string): seq<Visit>
    requires forall i | 0 <= i < |stops| :: ReadAt(db, steps, stops[i], identity, policy)
  {
    seq(|stops|, i requires 0 <= i < |stops| => assert ReadAt(db, steps, stops[i], identity, policy); VisitAt(db, steps, stops[i]))
  }

  lemma VisitIsOk(db: OwnerDb, steps: seq<Step>, i: nat, identity: Identity, policy: string)
    requires BookmarkInv(db) && Legal(db, steps) && ReadAt(db, steps, i, identity, policy)
    ensures
      var v := VisitAt(db, steps, i);
      && VisitOk(v, identity, policy)
      && ReturnedBy(v, identity, policy) == Answer(v.db, steps[i]).items
      && v.token in v.db.cursors && v.db.cursors[v.token].session in v.db.sessions
      && PageNext(v.db, VisitCursor(v)) == Answer(v.db, steps[i]).next
      && Evolves(PageDb(v.db, VisitCursor(v)), Run(db, steps[..i + 1])) && KeysFresh(PageDb(v.db, VisitCursor(v)))
  {
    hide Run, BookmarkInv, Evolves, Page, PageDb, PageNext, Legal, Exec, Ready, Backed, KeysFresh, CursorInv, WellKeyed;
    RunAt(db, steps, i);
    var v := VisitAt(db, steps, i);
    AnswerIsPage(v.db, steps[i]);
    PageAnswer(v.db, v.token, identity, policy, v.authorize, v.now);
    InvParts(v.db);
    InvCursor(v.db, v.token);
    PageKeepsBookmarks(v.db, v.db.cursors[v.token]);
    InvFresh(PageDb(v.db, v.db.cursors[v.token]));
    EvolvesReflexive(Run(db, steps[..i + 1]));
  }

  lemma InvParts(db: OwnerDb)
    requires BookmarkInv(db)
    ensures CursorInv(db) && KeysFresh(db)
  {
    InvFresh(db);
  }

  lemma PageAnswer(db: OwnerDb, token: Id, identity: Identity, policy: string, authorize: Incident -> bool, now: Time)
    requires Page(db, token, identity, policy, authorize, now).Ok?
    ensures token in db.cursors && db.cursors[token].session in db.sessions
    ensures
      var (after, answer) := Page(db, token, identity, policy, authorize, now).value;
      after == PageDb(db, db.cursors[token]) && answer.next == PageNext(db, db.cursors[token])
  {
    hide PageDb, PageNext, Truncated, Slice, Visible;
  }

  lemma VisitsFollow(db: OwnerDb, steps: seq<Step>, i: nat, j: nat, identity: Identity, policy: string)
    requires BookmarkInv(db) && Legal(db, steps) && i < j
    requires ReadAt(db, steps, i, identity, policy) && ReadAt(db, steps, j, identity, policy)
    requires Answer(Run(db, steps[..i]), steps[i]).next == Some(steps[j].token)
    ensures VisitOk(VisitAt(db, steps, i), identity, policy)
    ensures Follows(VisitAt(db, steps, i), VisitAt(db, steps, j))
  {
    VisitIsOk(db, steps, i, identity, policy);
    RunEvolves(db, steps, i + 1, j);
    var v := VisitAt(db, steps, i);
    EvolvesTransitive(PageDb(v.db, VisitCursor(v)), Run(db, steps[..i + 1]), Run(db, steps[..j]));
    hide Run, BookmarkInv, Evolves, Page, PageDb, PageNext, Legal, KeysFresh, CursorInv, Answer, Answered, VisitOk;
  }

  lemma VisitsAre(db: OwnerDb, steps: seq<Step>, stops: seq<nat>, i: nat, identity: Identity, policy: string)
    requires BookmarkInv(db) && Legal(db, steps) && RunWalk(db, steps, stops, identity, policy) && i < |stops|
    ensures
      var visits := Visits(db, steps, stops, identity, policy);
      && |visits| == |stops| && ReadAt(db, steps, stops[i], identity, policy)
      && visits[i] == VisitAt(db, steps, stops[i])
      && visits[i].db == Run(db, steps[..stops[i]]) && visits[i].token == steps[stops[i]].token
    ensures
      i + 1 < |stops| ==>
        && stops[i] < stops[i + 1] && ReadAt(db, steps, stops[i + 1], identity, policy)
        && Answer(Run(db, steps[..stops[i]]), steps[stops[i]]).next == Some(steps[stops[i + 1]].token)
        && Visits(db, steps, stops, identity, policy)[i + 1] == VisitAt(db, steps, stops[i + 1])
  {
    hide BookmarkInv, Legal, Run, Answer, Answered;
  }

  lemma WalkEnd(db: OwnerDb, steps: seq<Step>, stops: seq<nat>, identity: Identity, policy: string)
    requires RunWalk(db, steps, stops, identity, policy)
    ensures stops != [] && ReadAt(db, steps, stops[0], identity, policy) && ReadAt(db, steps, stops[|stops| - 1], identity, policy)
    ensures
      var first := Run(db, steps[..stops[0]]);
      steps[stops[0]].token in first.cursors && first.cursors[steps[stops[0]].token].position == 0
    ensures Answer(Run(db, steps[..stops[|stops| - 1]]), steps[stops[|stops| - 1]]).next == None
  {
    hide Run, Answer, Answered;
  }

  lemma WalkFrom(visits: seq<Visit>, identity: Identity, policy: string)
    requires visits != [] && forall i | 0 <= i < |visits| :: VisitOk(visits[i], identity, policy)
    requires forall i | 0 <= i < |visits| ::
               visits[i].token in visits[i].db.cursors && visits[i].db.cursors[visits[i].token].session in visits[i].db.sessions
    requires VisitCursor(visits[0]).position == 0
    requires forall i | 0 <= i < |visits| - 1 :: Follows(visits[i], visits[i + 1])
    requires PageNext(visits[|visits| - 1].db, VisitCursor(visits[|visits| - 1])).None?
    ensures Walk(visits, identity, policy)
  {
    hide VisitOk, Follows, PageNext;
  }

  lemma OneVisit(db: OwnerDb, steps: seq<Step>, stops: seq<nat>, i: nat, identity: Identity, policy: string)
    requires BookmarkInv(db) && Legal(db, steps) && RunWalk(db, steps, stops, identity, policy) && i < |stops|
    ensures |Visits(db, steps, stops, identity, policy)| == |stops|
    ensures
      var v := Visits(db, steps, stops, identity, policy)[i];
      && VisitOk(v, identity, policy) && v.token in v.db.cursors && v.db.cursors[v.token].session in v.db.sessions
      && v.db == Run(db, steps[..stops[i]]) && v.token == steps[stops[i]].token
      && ReadAt(db, steps, stops[i], identity, policy)
      && PageNext(v.db, VisitCursor(v)) == Answer(v.db, steps[stops[i]]).next
  {
    VisitsAre(db, steps, stops, i, identity, policy);
    VisitIsOk(db, steps, stops[i], identity, policy);
    hide *;
  }

  lemma OneFollow(db: OwnerDb, steps: seq<Step>, stops: seq<nat>, i: nat, identity: Identity, policy: string)
    requires BookmarkInv(db) && Legal(db, steps) && RunWalk(db, steps, stops, identity, policy) && i < |stops| - 1
    ensures |Visits(db, steps, stops, identity, policy)| == |stops|
    ensures VisitOk(Visits(db, steps, stops, identity, policy)[i], identity, policy)
    ensures Follows(Visits(db, steps, stops, identity, policy)[i], Visits(db, steps, stops, identity, policy)[i + 1])
  {
    VisitsAre(db, steps, stops, i, identity, policy);
    VisitsFollow(db, steps, stops[i], stops[i + 1], identity, policy);
    hide *;
  }

  lemma AllRead(db: OwnerDb, steps: seq<Step>, stops: seq<nat>, identity: Identity, policy: string)
    requires RunWalk(db, steps, stops, identity, policy)
    ensures forall i | 0 <= i < |stops| :: ReadAt(db, steps, stops[i], identity, policy)
  {
    hide Run, Answer, Answered, ReadAt;
  }

  lemma RunWalkIsWalk(db: OwnerDb, steps: seq<Step>, stops: seq<nat>, identity: Identity, policy: string)
    requires BookmarkInv(db) && Legal(db, steps) && RunWalk(db, steps, stops, identity, policy)
    ensures Walk(Visits(db, steps, stops, identity, policy), identity, policy)
  {
    hide *;
    WalkEnd(db, steps, stops, identity, policy);
    AllRead(db, steps, stops, identity, policy);
    var visits := Visits(db, steps, stops, identity, policy);
    OneVisit(db, steps, stops, 0, identity, policy);
    forall i | 0 <= i < |visits|
      ensures VisitOk(visits[i], identity, policy)
      ensures visits[i].token in visits[i].db.cursors && visits[i].db.cursors[visits[i].token].session in visits[i].db.sessions
    {
      OneVisit(db, steps, stops, i, identity, policy);
    }
    forall i | 0 <= i < |visits| - 1 ensures Follows(visits[i], visits[i + 1]) {
      OneFollow(db, steps, stops, i, identity, policy);
    }
    OneVisit(db, steps, stops, |stops| - 1, identity, policy);
    CursorOf(visits[0]);
    WalkFrom(visits, identity, policy);
  }

  lemma CursorOf(v: Visit)
    requires v.token in v.db.cursors
    ensures VisitCursor(v) == v.db.cursors[v.token]
  {
  }

  /**
   Paging over a run: whatever else the run does between the reads, following next tokens takes
   `max(1, ceil(n / limit))` reads, at most 200, each answer is what the policy of that read shows of its page, and the
   pages put together are the captured list.
   */
  lemma RunPagingIsExact(db: OwnerDb, steps: seq<Step>, stops: seq<nat>, identity: Identity, policy: string) returns (s: Session)
    requires BookmarkInv(db) && Legal(db, steps) && RunWalk(db, steps, stops, identity, policy)
    ensures
      var first := Run(db, steps[..stops[0]]);
      && first.cursors[steps[stops[0]].token].session in first.sessions
      && s == first.sessions[first.cursors[steps[stops[0]].token].session]
    ensures s.limit > 0 && |stops| == PageCount(|s.items|, s.limit) <= 200
    ensures forall i | 0 <= i < |stops| ::
              Answer(Run(db, steps[..stops[i]]), steps[stops[i]]).items == Visible(Span(s, i), steps[stops[i]].authorize)
    ensures Spans(s, |stops|) == s.items
  {
    var visits := Visits(db, steps, stops, identity, policy);
    RunWalkIsWalk(db, steps, stops, identity, policy);
    WalkEnd(db, steps, stops, identity, policy);
    VisitsAre(db, steps, stops, 0, identity, policy);
    PagingIsExact(visits, identity, policy);
    VisitIsOk(db, steps, stops[0], identity, policy);
    s := WalkSession(visits);
    hide *;
    forall i | 0 <= i < |stops|
      ensures ReadAt(db, steps, stops[i], identity, policy)
      ensures Answer(Run(db, steps[..stops[i]]), steps[stops[i]]).items == Visible(Span(s, i), steps[stops[i]].authorize)
    {
      VisitsAre(db, steps, stops, i, identity, policy);
      VisitIsOk(db, steps, stops[i], identity, policy);
      VisitFields(db, steps, stops[i], identity, policy);
    }
  }

  lemma VisitFields(db: OwnerDb, steps: seq<Step>, i: nat, identity: Identity, policy: string)
    requires ReadAt(db, steps, i, identity, policy)
    ensures VisitAt(db, steps, i).db == Run(db, steps[..i]) && VisitAt(db, steps, i).authorize == steps[i].authorize
  {
    hide Run, Answered;
  }

  /** In a run, two answered reads of one token give the same next token, under whatever policies. */
  lemma RunReReadGivesSameNext(db: OwnerDb, steps: seq<Step>, i: nat, j: nat, identity: Identity, policy: string)
    requires BookmarkInv(db) && Legal(db, steps) && i < j
    requires ReadAt(db, steps, i, identity, policy) && ReadAt(db, steps, j, identity, policy) && steps[j].token == steps[i].token
    ensures
      var first, again := Answer(Run(db, steps[..i]), steps[i]), Answer(Run(db, steps[..j]), steps[j]);
      again.next == first.next && again.truncated == first.truncated && again.session == first.session
  {
    VisitIsOk(db, steps, i, identity, policy);
    VisitIsOk(db, steps, j, identity, policy);
    RunEvolves(db, steps, i + 1, j);
    var v, w := VisitAt(db, steps, i), VisitAt(db, steps, j);
    EvolvesTransitive(PageDb(v.db, VisitCursor(v)), Run(db, steps[..i + 1]), w.db);
    RunAt(db, steps, i);
    RunAt(db, steps, j);
    AnswerIsPage(v.db, steps[i]);
    AnswerIsPage(w.db, steps[j]);
    PageAnswer(v.db, v.token, identity, policy, v.authorize, v.now);
    hide Run, BookmarkInv, Evolves, Page, PageDb, PageNext, Legal, KeysFresh, CursorInv, Answer, Answered, Exec, Allowed, WellKeyed;
    ReReadGivesSameNext(v.db, w.db, v.token, identity, policy, v.authorize, w.authorize, v.now, w.now);
  }

  // ---------------------------------------------------------------- a late record

  lemma OneMoreStep(db: OwnerDb, steps: seq<Step>, step: Step)
    requires BookmarkInv(db) && Legal(db, steps) && Allowed(Run(db, steps), step) && Backed(db, steps, step)
    ensures Legal(db, steps + [step]) && WellKeyed(Run(db, steps).incidents.ledger)
    ensures Run(db, steps + [step]) == Exec(Run(db, steps), step)
  {
    hide BookmarkInv, Allowed, Backed, Exec, Evolves, WellKeyed;
    assert (steps + [step])[..|steps|] == steps;
    RunKeepsInv(db, steps);
    InvKeyed(Run(db, steps));
  }

  /** A read of a live page is answered, with what its policy shows. */
  lemma LiveAnswer(db: OwnerDb, token: Id, identity: Identity, policy: string, authorize: Incident -> bool, now: Time)
    requires BookmarkInv(db) && PageGuard(db, token, identity, policy, now).None?
    ensures
      var step := PageStep(token, identity, policy, authorize, now);
      && WellKeyed(db.incidents.ledger) && Answered(db, step) && Answers(db, step, token, Answer(db, step)) && Allowed(db, step)
      && Stands(db, token, Answer(db, step), authorize)
      && PageGuard(Exec(db, step), token, identity, policy, now).None?
      && SamePage(db, Exec(db, step), token)
  {
    InvKeyed(db);
    PageEvolvesInv(db, db.cursors[token]);
    KeepsToken(db, token);
    hide BookmarkInv, WellKeyed, Slice, Visible, PageDb, PageNext, Truncated;
  }

  ghost predicate SamePage(db: OwnerDb, db': OwnerDb, token: Id)
    requires token in db.cursors
  {
    token in db'.cursors && db'.cursors[token] == db.cursors[token] && db'.sessions == db.sessions && db'.scopes == db.scopes
  }

  lemma RecordLive(db: OwnerDb, token: Id, answer: PageResult)
    requires BookmarkInv(db) && token in db.cursors && db.cursors[token].session in db.scopes
    ensures
      var step, c := RecordStep(token, answer), db.cursors[token];
      && WellKeyed(db.incidents.ledger) && Allowed(db, step) && Records(db, step, (c.session, c.position))
      && SamePage(db, Exec(db, step), token)
  {
    InvKeyed(db);
    ScopeHasFrame(db, db.cursors[token].session);
    hide BookmarkInv, WellKeyed, FrameOf;
  }

  lemma ScopeHasFrame(db: OwnerDb, sid: Id)
    requires BookmarkInv(db) && sid in db.scopes
    ensures sid in db.sessions && db.scopes[sid].frame == FrameOf(db.sessions[sid])
  {
    assert ScopeOk(db, sid, db.scopes[sid]);
  }

  lemma SamePageStands(db: OwnerDb, db': OwnerDb, token: Id, answer: PageResult, authorize: Incident -> bool)
    requires Stands(db, token, answer, authorize) && SamePage(db, db', token)
    ensures Stands(db', token, answer, authorize)
  {
    hide Slice, Visible;
  }

  lemma SamePageChain(a: OwnerDb, b: OwnerDb, c: OwnerDb, token: Id)
    requires token in a.cursors && SamePage(a, b, token) && SamePage(b, c, token)
    ensures SamePage(a, c, token)
  {
  }

  lemma GivenBacks(db: OwnerDb, steps: seq<Step>, i: nat, token: Id, answer: PageResult)
    requires i < |steps| && Answers(Run(db, steps[..i]), steps[i], token, answer)
    ensures Backed(db, steps, RecordStep(token, answer))
  {
    hide Run, Answers;
  }

  lemma EmptyRun(db: OwnerDb)
    ensures Legal(db, []) && Run(db, []) == db
  {
  }

  lemma GuardedPage(db: OwnerDb, token: Id, identity: Identity, policy: string, now: Time)
    requires PageGuard(db, token, identity, policy, now).None?
    ensures token in db.cursors && db.cursors[token].session in db.sessions
  {
  }

  lemma SamePageFacts(db: OwnerDb, db': OwnerDb, token: Id)
    requires token in db.cursors && SamePage(db, db', token)
    ensures token in db'.cursors && db'.cursors[token] == db.cursors[token] && db'.sessions == db.sessions && db'.scopes == db.scopes
  {
  }

  lemma AllOrNothing(s: Session, position: nat, all: Incident -> bool, none: Incident -> bool, whole: PageResult, empty: PageResult)
    requires (forall x :: all(x)) && (forall x :: !none(x))
    requires whole.items == Visible(Slice(s, position), all) && empty.items == Visible(Slice(s, position), none)
    ensures whole.items == Slice(s, position) && empty.items == []
  {
    VisibleWhole(Slice(s, position), all);
    NoneVisible(Slice(s, position), none);
  }

  lemma {:induction false} NoneVisible(items: seq<Incident>, none: Incident -> bool)
    requires forall x :: !none(x)
    ensures Visible(items, none) == []
    decreases |items|
  {
    if items != [] {
      NoneVisible(items[1..], none);
    }
  }

  lemma StandsItems(db: OwnerDb, token: Id, answer: PageResult, authorize: Incident -> bool)
    requires Stands(db, token, answer, authorize)
    ensures token in db.cursors && db.cursors[token].session in db.sessions
    ensures answer.items == Visible(Slice(db.sessions[db.cursors[token].session], db.cursors[token].position), authorize)
  {
  }

  /** The page was read whole, then read with nothing shown; the second answer is recorded first, the first one last. */
  ghost predicate LateRecord(db: OwnerDb, steps: seq<Step>, token: Id) {
    && |steps| == 4 && Legal(db, steps)
    && Answered(Run(db, steps[..0]), steps[0]) && Answered(Run(db, steps[..1]), steps[1])
    && steps[0].token == token && steps[1].token == token
    && Answer(Run(db, steps[..1]), steps[1]).items == []
    && steps[2] == RecordStep(token, Answer(Run(db, steps[..1]), steps[1]))
    && steps[3] == RecordStep(token, Answer(Run(db, steps[..0]), steps[0]))
  }

  /**
   A page can be on record as complete although its latest read showed nothing of it: a read and its record are two
   transactions, so the record of an earlier, unredacted read may come last. That is so for every page of a live, scoped
   session; exactly what the record says is `RecordIsLatestAnswer`.
   */
  lemma LateRecordHidesRedaction(db: OwnerDb, token: Id, identity: Identity, policy: string, now: Time) returns (steps: seq<Step>)
    requires BookmarkInv(db) && PageGuard(db, token, identity, policy, now).None?
    requires db.cursors[token].session in db.scopes
    ensures LateRecord(db, steps, token)
    ensures
      var p := (db.cursors[token].session, db.cursors[token].position);
      p in Run(db, steps).pages && Run(db, steps).pages[p]
  {
    hide *;
    GuardedPage(db, token, identity, policy, now);
    var all, none := (x: Incident) => true, (x: Incident) => false;
    EmptyRun(db);
    var s1 := PageStep(token, identity, policy, all, now);
    LiveAnswer(db, token, identity, policy, all, now);
    var a1 := Answer(db, s1);
    NoBacking(db, [], s1);
    OneMoreStep(db, [], s1);
    var db1 := Exec(db, s1);
    SamePageFacts(db, db1, token);
    assert [] + [s1] == [s1];
    RunKeepsInv(db, [s1]);
    var s2 := PageStep(token, identity, policy, none, now);
    LiveAnswer(db1, token, identity, policy, none, now);
    var a2 := Answer(db1, s2);
    NoBacking(db, [s1], s2);
    OneMoreStep(db, [s1], s2);
    var db2 := Exec(db1, s2);
    SamePageFacts(db1, db2, token);
    var both := [s1] + [s2];
    RunKeepsInv(db, both);
    assert both[..0] == [] && both[..1] == [s1];
    GivenBacks(db, both, 1, token, a2);
    RecordLive(db2, token, a2);
    var s3 := RecordStep(token, a2);
    OneMoreStep(db, both, s3);
    var db3 := Exec(db2, s3);
    SamePageFacts(db2, db3, token);
    var three := both + [s3];
    RunKeepsInv(db, three);
    assert three[..0] == [] && three[..1] == [s1];
    GivenBacks(db, three, 0, token, a1);
    RecordLive(db3, token, a1);
    var s4 := RecordStep(token, a1);
    OneMoreStep(db, three, s4);
    steps := three + [s4];
    assert steps[..0] == [] && steps[..1] == [s1];
    StandsItems(db, token, a1, all);
    StandsItems(db1, token, a2, none);
    var c := db.cursors[token];
    AllOrNothing(db.sessions[c.session], c.position, all, none, a1, a2);
    SamePageChain(db, db1, db2, token);
    SamePageChain(db, db2, db3, token);
    SamePageStands(db, db3, token, a1, all);
    RecordedAnswer(db3, s4, (c.session, c.position), all);
    LateRecordIs(db, steps, token);
  }

  lemma NoBacking(db: OwnerDb, steps: seq<Step>, step: Step)
    requires step.PageStep?
    ensures Backed(db, steps, step)
  {
  }

  lemma LateRecordIs(db: OwnerDb, steps: seq<Step>, token: Id)
    requires |steps| == 4 && Legal(db, steps)
    requires Answered(Run(db, steps[..0]), steps[0]) && Answered(Run(db, steps[..1]), steps[1])
    requires steps[0].PageStep? && steps[1].PageStep? && steps[0].token == token && steps[1].token == token
    requires Answer(Run(db, steps[..1]), steps[1]).items == []
    requires steps[2] == RecordStep(token, Answer(Run(db, steps[..1]), steps[1]))
    requires steps[3] == RecordStep(token, Answer(Run(db, steps[..0]), steps[0]))
    ensures LateRecord(db, steps, token)
  {
    hide Run, Legal, Answered, Answer;
  }
}
