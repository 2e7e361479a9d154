/**
 A client that starts once and then resumes from each bookmark it is issued: folding every snapshot it
 captured gives the whole incident table as of its last watermark, however the database moved meanwhile.
 */
module Chain {
  import opened Common
  import opened Incidents
  import opened Cursor
  import opened Paging
  import opened CatchUp
  import opened Bookmarks
  import opened ReadHistory

  /** One round: the capture made at `before`, later bound, and the bookmark issued for it later still, at `at`. */
  datatype Round = Round(before: OwnerDb, capture: Step, at: OwnerDb, now: Time, reuse: Option<Id>, drop: Option<Id>)

  ghost predicate CaptureDone(r: Round)
    requires WellKeyed(r.before.incidents.ledger)
  {
    match r.capture
    case StartStep(state, limit, identity, policy, now, evict) =>
      state.None? && Start(r.before, state, limit, identity, policy, now, evict).Ok?
    case ResumeStep(token, limit, identity, policy, now, evict) =>
      Resume(r.before, token, limit, identity, policy, now, evict).Ok?
    case _ => false
  }

  ghost function RoundParent(r: Round): Option<Id> {
    if r.capture.ResumeStep? then Some(r.capture.token) else None
  }

  ghost function RoundBound(r: Round): Option<nat> {
    if r.capture.ResumeStep? then Some(RoundLower(r)) else None
  }

  /** The session is bound to the filter and the bound that it was captured with. */
  ghost predicate BoundAsCaptured(r: Round) {
    && r.before.nextId in r.at.scopes
    && r.at.scopes[r.before.nextId].state == RoundState(r) && Lower(r.at.scopes[r.before.nextId]) == RoundLower(r)
  }

  ghost function Issued(r: Round): Result<(OwnerDb, Id), CursorError> {
    Issue(r.at, r.before.nextId, r.now, r.reuse, r.drop)
  }

  /** The round's capture committed and was bound, and its session was later read completely enough to be issued a bookmark. */
  ghost predicate RoundOk(r: Round) {
    && BookmarkInv(r.before) && BookmarkInv(r.at)
    && CaptureDone(r)
    && Evolves(Exec(r.before, r.capture), r.at) && BoundAsCaptured(r)
    && Issued(r).Ok? && ReuseChoice(r.at, r.before.nextId, r.now, r.reuse)
  }

  /** `b` resumes, after anything else, from the bookmark that `a` was issued. */
  ghost predicate Continues(a: Round, b: Round)
    requires Issued(a).Ok?
  {
    && Evolves(Issued(a).value.0, b.before)
    && b.capture.ResumeStep? && b.capture.token == Issued(a).value.1
  }

  ghost predicate ClientChain(rounds: seq<Round>) {
    && rounds != []
    && (forall i | 0 <= i < |rounds| :: RoundOk(rounds[i]))
    && rounds[0].capture.StartStep?
    && (forall i | 0 <= i < |rounds| - 1 :: Continues(rounds[i], rounds[i + 1]))
  }

  /** The items of a round's session: by `PagingIsExact`, what reading all its pages returns. */
  ghost function RoundItems(r: Round): seq<Incident> {
    if r.before.nextId in r.at.sessions then r.at.sessions[r.before.nextId].items else []
  }

  /** What the client has after `n` rounds. */
  ghost function Folded(rounds: seq<Round>, n: nat): map<Id, Incident>
    requires n <= |rounds|
  {
    if n == 0 then map[] else Overlay(Folded(rounds, n - 1), RoundItems(rounds[n - 1]))
  }

  ghost function RoundLower(r: Round): nat {
    if r.capture.ResumeStep? && r.capture.token in r.before.bookmarks then r.before.bookmarks[r.capture.token].watermark else 0
  }

  ghost function RoundState(r: Round): Option<Lifecycle> {
    if r.capture.ResumeStep? && r.capture.token in r.before.bookmarks then r.before.bookmarks[r.capture.token].state else None
  }

  /** What a round holds when its bookmark is issued. */
  lemma RoundHolds(r: Round)
    requires RoundOk(r)
    ensures r.before.nextId in r.at.sessions
    ensures RoundLower(r) <= |r.before.incidents.ledger| && WellKeyed(r.before.incidents.ledger)
    ensures
      var ledger := r.before.incidents.ledger;
      IsListing(Before, RoundItems(r), Captured(ledger, |ledger|, StateFilter(RoundState(r)), RoundLower(r)))
    ensures Issued(r).value.1 in Issued(r).value.0.bookmarks
    ensures Issued(r).value.0.bookmarks[Issued(r).value.1].watermark == |r.before.incidents.ledger|
    ensures Issued(r).value.0.bookmarks[Issued(r).value.1].state == RoundState(r)
    ensures r.before.incidents.ledger <= Issued(r).value.0.incidents.ledger
    ensures Issued(r).value.1 < Issued(r).value.0.nextId
  {
    hide BookmarkInv, Evolves, Issue, Captured, IsListing, ReuseChoice, Exec, CaptureDone, OpenedAs;
    var sid := r.before.nextId;
    InvKeyed(r.before);
    CaptureCommits(r);
    IssuedSession(r);
    var after := Exec(r.before, r.capture);
    OpenedFacts(r.before, after, sid + 1, RoundState(r), RoundParent(r), RoundBound(r));
    SessionCarried(after, r.at, sid);
    IssueMarksBoundary(r.at, sid, r.now, r.reuse, r.drop);
    IssuedGrows(r, after);
    TokenBelow(Issued(r).value.0, Issued(r).value.1);
  }

  lemma IssuedSession(r: Round)
    requires Issued(r).Ok?
    ensures r.before.nextId in r.at.sessions && r.before.nextId in r.at.scopes
  {
  }

  lemma IssuedGrows(r: Round, after: OwnerDb)
    requires Issued(r).Ok? && Evolves(after, r.at) && Evolves(r.at, Issued(r).value.0) && after.incidents == r.before.incidents
    ensures r.before.incidents.ledger <= Issued(r).value.0.incidents.ledger
  {
    hide Issue;
  }

  lemma OpenedFacts(before: OwnerDb, after: OwnerDb, token: Id, state: Option<Lifecycle>, parent: Option<Id>, lower: Option<nat>)
    requires OpenedAs(before, after, token, state, parent, lower)
    ensures
      var lo := if lower.Some? then lower.value else 0;
      && after.incidents == before.incidents && BookmarkInv(after) && before.nextId in after.sessions && before.nextId < after.nextId
      && after.sessions[before.nextId].watermark == |before.incidents.ledger| && lo <= |before.incidents.ledger|
      && WellKeyed(before.incidents.ledger)
      && IsListing(Before, after.sessions[before.nextId].items,
                   Captured(before.incidents.ledger, |before.incidents.ledger|, StateFilter(state), lo))
  {
    InvKeyed(after);
    hide BookmarkInv, Evolves, Captured, IsListing;
  }

  lemma TokenBelow(db: OwnerDb, t: Id)
    requires BookmarkInv(db) && t in db.bookmarks
    ensures t < db.nextId && db.bookmarks[t].watermark <= Watermark(db)
  {
    assert BookmarkOk(db, t, db.bookmarks[t]);
  }

  lemma SessionCarried(db: OwnerDb, later: OwnerDb, sid: Id)
    requires Evolves(db, later) && sid in db.sessions && sid < db.nextId && sid in later.sessions
    ensures later.sessions[sid] == db.sessions[sid]
    ensures db.incidents.ledger <= later.incidents.ledger
  {
  }

  lemma CaptureCommits(r: Round)
    requires BookmarkInv(r.before) && WellKeyed(r.before.incidents.ledger) && CaptureDone(r)
    ensures OpenedAs(r.before, Exec(r.before, r.capture), r.before.nextId + 1, RoundState(r), RoundParent(r), RoundBound(r))
  {
    CaptureOpened(r);
    hide BookmarkInv, Evolves, Capture, OpenedAs, Exec;
    OpensAs(r.before, r.capture, r.before.nextId + 1, RoundState(r), RoundParent(r), RoundBound(r));
  }

  lemma CaptureOpened(r: Round)
    requires BookmarkInv(r.before) && WellKeyed(r.before.incidents.ledger) && CaptureDone(r)
    ensures Opens(r.before, r.capture, r.before.nextId + 1, RoundState(r), RoundParent(r), RoundBound(r))
  {
    hide BookmarkInv, Capture, WellKeyed;
    match r.capture
    case StartStep(state, limit, identity, policy, now, evict) =>
      CaptureToken(r.before, StateFilter(state), limit, None, identity, policy, now, evict);
    case ResumeStep(token, limit, identity, policy, now, evict) =>
      var b := r.before.bookmarks[token];
      CaptureToken(r.before, StateFilter(b.state), limit, Some(b.watermark), identity, policy, now, evict);
    case _ =>
  }

  /** The next round's lower bound is exactly the previous round's watermark. */
  lemma RoundsMeet(a: Round, b: Round)
    requires RoundOk(a) && RoundOk(b) && Continues(a, b)
    ensures RoundLower(b) == |a.before.incidents.ledger| && RoundState(b) == RoundState(a)
    ensures a.before.incidents.ledger <= b.before.incidents.ledger
  {
    RoundHolds(a);
    var token := Issued(a).value.1;
    ResumedTokenExists(b);
    assert b.before.bookmarks[token] == Issued(a).value.0.bookmarks[token];
  }

  lemma ResumedTokenExists(b: Round)
    requires BookmarkInv(b.before) && CaptureDone(b) && b.capture.ResumeStep?
    ensures b.capture.token in b.before.bookmarks
  {
  }

  /**
   Catch-up loses nothing over any chain: after any number of start, resume, ..., resume rounds, with any
   other activity in between, what the client folded together is the table as of its last watermark.
   */
  lemma {:induction false} ChainFoldsToSnapshot(rounds: seq<Round>, n: nat)
    requires ClientChain(rounds) && 0 < n <= |rounds|
    ensures RoundState(rounds[n - 1]).None?
    ensures Folded(rounds, n) == Replay(rounds[n - 1].before.incidents.ledger)
    decreases n
  {
    hide *;
    NoFilter();
    RoundOfChain(rounds, n - 1);
    FoldOne(rounds, n);
    var r := rounds[n - 1];
    RoundHolds(r);
    var ledger := r.before.incidents.ledger;
    assert ledger[..|ledger|] == ledger;
    if n == 1 {
      FirstRound(rounds);
    } else {
      RoundOfChain(rounds, n - 2);
      ChainFoldsToSnapshot(rounds, n - 1);
      RoundsMeet(rounds[n - 2], r);
      assert ledger[..RoundLower(r)] == rounds[n - 2].before.incidents.ledger;
    }
    CatchUpLosesNothing(ledger, RoundLower(r), |ledger|, RoundItems(r));
  }

  lemma NoFilter()
    ensures StateFilter(None) == EVERYTHING
  {
  }

  lemma FoldOne(rounds: seq<Round>, n: nat)
    requires 0 < n <= |rounds|
    ensures Folded(rounds, n) == Overlay(Folded(rounds, n - 1), RoundItems(rounds[n - 1]))
  {
  }

  lemma RoundOfChain(rounds: seq<Round>, i: nat)
    requires ClientChain(rounds) && i < |rounds|
    ensures RoundOk(rounds[i])
    ensures i + 1 < |rounds| ==> Continues(rounds[i], rounds[i + 1])
  {
  }

  lemma FirstRound(rounds: seq<Round>)
    requires ClientChain(rounds)
    ensures RoundLower(rounds[0]) == 0 && RoundState(rounds[0]).None?
    ensures Replay(rounds[0].before.incidents.ledger[..0]) == map[]
    ensures Folded(rounds, 0) == map[]
  {
    assert rounds[0].capture.StartStep?;
    hide ClientChain, RoundOk, Continues;
  }

  // ---------------------------------------------------------------- the chain of one client in a run

  /** Where in a run one round of the client begins, with its capture, is bound, and ends, with the issue of its bookmark. */
  datatype Leg = Leg(capture: nat, bind: nat, issue: nat)

  ghost function RoundAt(db: OwnerDb, steps: seq<Step>, leg: Leg): Round
    requires leg.capture < |steps| && leg.issue < |steps| && steps[leg.issue].IssueStep?
  {
    Round(Run(db, steps[..leg.capture]), steps[leg.capture], Run(db, steps[..leg.issue]),
          steps[leg.issue].now, steps[leg.issue].reuse, steps[leg.issue].drop)
  }

  /** A start or resume of the run, the binding of its session, and later the issue of a bookmark for it. */
  ghost predicate LegOk(db: OwnerDb, steps: seq<Step>, leg: Leg) {
    && leg.capture < leg.bind < leg.issue < |steps| && steps[leg.issue].IssueStep?
    && steps[leg.issue].sid == Run(db, steps[..leg.capture]).nextId
    && WellKeyed(Run(db, steps[..leg.capture]).incidents.ledger)
    && CaptureDone(RoundAt(db, steps, leg))
    && Binds(db, steps, leg)
    && Issued(RoundAt(db, steps, leg)).Ok?
  }

  /** The leg binds the session its capture opened, to what it was captured with. */
  ghost predicate Binds(db: OwnerDb, steps: seq<Step>, leg: Leg)
    requires leg.capture < leg.bind < leg.issue < |steps| && steps[leg.issue].IssueStep?
  {
    var r, before := RoundAt(db, steps, leg), Run(db, steps[..leg.bind]);
    && steps[leg.bind] == BindStep(r.before.nextId + 1, RoundState(r), RoundParent(r), RoundBound(r))
    && Bind(before, r.before.nextId + 1, RoundState(r), RoundParent(r), RoundBound(r)).Ok?
    && before.cursors[r.before.nextId + 1].session == r.before.nextId
  }

  /** The client starts once, and each later round resumes from the bookmark of the one before. */
  ghost predicate ClientLegs(db: OwnerDb, steps: seq<Step>, legs: seq<Leg>) {
    && legs != []
    && (forall i | 0 <= i < |legs| :: LegOk(db, steps, legs[i]))
    && steps[legs[0].capture].StartStep?
    && (forall i | 0 <= i < |legs| - 1 :: LegsMeet(db, steps, legs[i], legs[i + 1]))
  }

  ghost predicate LegsMeet(db: OwnerDb, steps: seq<Step>, a: Leg, b: Leg)
    requires LegOk(db, steps, a) && b.capture < |steps|
  {
    && a.issue < b.capture && steps[b.capture].ResumeStep?
    && steps[b.capture].token == Issued(RoundAt(db, steps, a)).value.1
  }

  /** What the client holds of a round when its bookmark is issued: the answer recorded last for each page. */
  ghost function LegItems(db: OwnerDb, steps: seq<Step>, leg: Leg): seq<Incident>
    requires leg.capture < leg.issue < |steps|
  {
    var at := Run(db, steps[..leg.issue]);
    var sid := Run(db, steps[..leg.capture]).nextId;
    if sid in at.sessions && at.sessions[sid].limit > 0
    then Held(db, steps[..leg.issue], sid, at.sessions[sid].limit, PageCount(|at.sessions[sid].items|, at.sessions[sid].limit))
    else []
  }

  /** What the client has after `n` rounds, folded from the answers it was given. */
  ghost function FoldedAnswers(db: OwnerDb, steps: seq<Step>, legs: seq<Leg>, n: nat): map<Id, Incident>
    requires n <= |legs| && forall i | 0 <= i < |legs| :: LegOk(db, steps, legs[i])
  {
    if n == 0 then map[] else Overlay(FoldedAnswers(db, steps, legs, n - 1), LegItems(db, steps, legs[n - 1]))
  }

  lemma IssueScoped(db: OwnerDb, sid: Id, now: Time, reuse: Option<Id>, drop: Option<Id>)
    requires Issue(db, sid, now, reuse, drop).Ok?
    ensures sid in db.sessions && sid in db.scopes
  {
  }

  lemma StepReuse(db: OwnerDb, step: Step)
    requires step.IssueStep? && Ready(db, step) && step.sid in db.sessions && step.sid in db.scopes
    ensures ReuseChoice(db, step.sid, step.now, step.reuse)
    ensures Issue(db, step.sid, step.now, step.reuse, step.drop).Ok? ==>
              WellKeyed(db.incidents.ledger) ==>
                Exec(db, step) == Issue(db, step.sid, step.now, step.reuse, step.drop).value.0
  {
  }

  lemma LegFacts(db: OwnerDb, steps: seq<Step>, leg: Leg)
    requires LegOk(db, steps, leg)
    ensures leg.capture < leg.bind < leg.issue < |steps| && steps[leg.issue].IssueStep? && Binds(db, steps, leg)
    ensures
      var r := RoundAt(db, steps, leg);
      && r.before == Run(db, steps[..leg.capture]) && r.capture == steps[leg.capture] && r.at == Run(db, steps[..leg.issue])
      && r.now == steps[leg.issue].now && r.reuse == steps[leg.issue].reuse && r.drop == steps[leg.issue].drop
      && steps[leg.issue].sid == r.before.nextId && WellKeyed(r.before.incidents.ledger) && CaptureDone(r)
      && Issued(r) == Issue(r.at, r.before.nextId, r.now, r.reuse, r.drop) && Issued(r).Ok?
  {
    hide CaptureDone, Run, WellKeyed, Issue;
  }

  lemma RoundFrom(r: Round)
    requires BookmarkInv(r.before) && BookmarkInv(r.at) && WellKeyed(r.before.incidents.ledger) && CaptureDone(r)
    requires Evolves(Exec(r.before, r.capture), r.at) && BoundAsCaptured(r)
    requires Issued(r).Ok? && r.before.nextId in r.at.sessions && r.before.nextId in r.at.scopes
    requires ReuseChoice(r.at, r.before.nextId, r.now, r.reuse)
    ensures RoundOk(r)
  {
    hide BookmarkInv, CaptureDone, Evolves, Exec, Issued, ReuseChoice, WellKeyed, BoundAsCaptured;
  }

  lemma BindBinds(db: OwnerDb, steps: seq<Step>, leg: Leg)
    requires leg.capture < leg.bind < leg.issue < |steps| && steps[leg.issue].IssueStep? && Binds(db, steps, leg)
    requires WellKeyed(Run(db, steps[..leg.bind]).incidents.ledger)
    ensures
      var r, after := RoundAt(db, steps, leg), Exec(Run(db, steps[..leg.bind]), steps[leg.bind]);
      && r.before.nextId in after.scopes
      && after.scopes[r.before.nextId].state == RoundState(r) && Lower(after.scopes[r.before.nextId]) == RoundLower(r)
  {
    hide Run, WellKeyed, FrameOf;
  }

  lemma ScopeCarried(after: OwnerDb, r: Round)
    requires Evolves(after, r.at) && r.before.nextId in r.at.sessions && r.before.nextId in after.scopes
    requires after.scopes[r.before.nextId].state == RoundState(r) && Lower(after.scopes[r.before.nextId]) == RoundLower(r)
    ensures BoundAsCaptured(r)
  {
  }

  lemma LegItemsAre(db: OwnerDb, steps: seq<Step>, leg: Leg, r: Round)
    requires leg.capture < leg.issue < |steps| && r.before == Run(db, steps[..leg.capture]) && r.at == Run(db, steps[..leg.issue])
    requires r.before.nextId in r.at.sessions && r.at.sessions[r.before.nextId].limit > 0
    requires
      var s := r.at.sessions[r.before.nextId];
      Held(db, steps[..leg.issue], r.before.nextId, s.limit, PageCount(|s.items|, s.limit)) == s.items
    ensures LegItems(db, steps, leg) == RoundItems(r)
  {
    hide Run, Held, PageCount;
  }

  /** A leg is a round, and what the client was given in it is what the round's session holds. */
  lemma LegIsRound(db: OwnerDb, steps: seq<Step>, leg: Leg)
    requires BookmarkInv(db) && db.pages == map[] && Legal(db, steps) && LegOk(db, steps, leg)
    ensures RoundOk(RoundAt(db, steps, leg))
    ensures LegItems(db, steps, leg) == RoundItems(RoundAt(db, steps, leg))
    ensures Run(db, steps[..leg.issue + 1]) == Issued(RoundAt(db, steps, leg)).value.0
  {
    hide *;
    LegFacts(db, steps, leg);
    var r := RoundAt(db, steps, leg);
    RunAt(db, steps, leg.capture);
    RunAt(db, steps, leg.issue);
    RunEvolves(db, steps, leg.capture + 1, leg.issue);
    IssueScoped(r.at, r.before.nextId, r.now, r.reuse, r.drop);
    StepReuse(r.at, steps[leg.issue]);
    RunAt(db, steps, leg.bind);
    BindBinds(db, steps, leg);
    RunEvolves(db, steps, leg.bind + 1, leg.issue);
    ScopeCarried(Run(db, steps[..leg.bind + 1]), r);
    RoundFrom(r);
    LegalPrefix(db, steps, leg.issue);
    IssueMeansAllShown(db, steps[..leg.issue], r.before.nextId, r.now, r.reuse, r.drop);
    LegItemsAre(db, steps, leg, r);
  }

  lemma MeetFacts(db: OwnerDb, steps: seq<Step>, a: Leg, b: Leg)
    requires LegOk(db, steps, a) && b.capture < |steps| && LegsMeet(db, steps, a, b)
    ensures a.issue < b.capture && steps[b.capture].ResumeStep?
    ensures Issued(RoundAt(db, steps, a)).Ok? && steps[b.capture].token == Issued(RoundAt(db, steps, a)).value.1
  {
    hide Issued, CaptureDone, Run, WellKeyed;
  }

  lemma ContinuesFrom(a: Round, b: Round)
    requires Issued(a).Ok? && Evolves(Issued(a).value.0, b.before)
    requires b.capture.ResumeStep? && b.capture.token == Issued(a).value.1
    ensures Continues(a, b)
  {
    hide Issued, Evolves;
  }

  lemma LegsContinue(db: OwnerDb, steps: seq<Step>, a: Leg, b: Leg)
    requires BookmarkInv(db) && db.pages == map[] && Legal(db, steps)
    requires LegOk(db, steps, a) && LegOk(db, steps, b) && LegsMeet(db, steps, a, b)
    ensures Issued(RoundAt(db, steps, a)).Ok? && Continues(RoundAt(db, steps, a), RoundAt(db, steps, b))
  {
    hide *;
    LegFacts(db, steps, a);
    LegFacts(db, steps, b);
    MeetFacts(db, steps, a, b);
    LegIsRound(db, steps, a);
    RunEvolves(db, steps, a.issue + 1, b.capture);
    ContinuesFrom(RoundAt(db, steps, a), RoundAt(db, steps, b));
  }

  ghost function Rounds(db: OwnerDb, steps: seq<Step>, legs: seq<Leg>): seq<Round>
    requires forall i | 0 <= i < |legs| :: LegOk(db, steps, legs[i])
  {
    seq(|legs|, i requires 0 <= i < |legs| => assert LegOk(db, steps, legs[i]); RoundAt(db, steps, legs[i]))
  }

  lemma RoundIs(db: OwnerDb, steps: seq<Step>, legs: seq<Leg>, i: nat)
    requires ClientLegs(db, steps, legs) && i < |legs|
    ensures LegOk(db, steps, legs[i]) && |Rounds(db, steps, legs)| == |legs|
    ensures Rounds(db, steps, legs)[i] == RoundAt(db, steps, legs[i])
    ensures i + 1 < |legs| ==> LegOk(db, steps, legs[i + 1]) && LegsMeet(db, steps, legs[i], legs[i + 1])
    ensures steps[legs[0].capture].StartStep?
  {
    assert LegOk(db, steps, legs[0]);
    hide LegOk, LegsMeet;
  }

  lemma LegsStart(db: OwnerDb, steps: seq<Step>, legs: seq<Leg>)
    requires ClientLegs(db, steps, legs)
    ensures legs != [] && forall i | 0 <= i < |legs| :: LegOk(db, steps, legs[i])
  {
    hide LegOk, LegsMeet;
  }

  lemma RoundIssued(r: Round)
    requires RoundOk(r)
    ensures Issued(r).Ok?
  {
    hide Issued, CaptureDone, Evolves, BookmarkInv;
  }

  lemma ChainFrom(rounds: seq<Round>)
    requires rounds != [] && forall i | 0 <= i < |rounds| :: RoundOk(rounds[i]) && Issued(rounds[i]).Ok?
    requires rounds[0].capture.StartStep?
    requires forall i | 0 <= i < |rounds| - 1 :: Continues(rounds[i], rounds[i + 1])
    ensures ClientChain(rounds)
  {
    hide Issued, RoundOk, Continues;
  }

  lemma LegsAreRounds(db: OwnerDb, steps: seq<Step>, legs: seq<Leg>)
    requires BookmarkInv(db) && db.pages == map[] && Legal(db, steps) && ClientLegs(db, steps, legs)
    ensures forall i | 0 <= i < |legs| :: LegOk(db, steps, legs[i])
    ensures ClientChain(Rounds(db, steps, legs))
  {
    hide *;
    LegsStart(db, steps, legs);
    var rounds := Rounds(db, steps, legs);
    RoundIs(db, steps, legs, 0);
    LegFacts(db, steps, legs[0]);
    forall i | 0 <= i < |rounds| ensures RoundOk(rounds[i]) && Issued(rounds[i]).Ok? {
      RoundIs(db, steps, legs, i);
      LegIsRound(db, steps, legs[i]);
      RoundIssued(rounds[i]);
    }
    forall i | 0 <= i < |rounds| - 1 ensures Continues(rounds[i], rounds[i + 1]) {
      RoundIs(db, steps, legs, i);
      RoundIs(db, steps, legs, i + 1);
      LegsContinue(db, steps, legs[i], legs[i + 1]);
    }
    ChainFrom(rounds);
  }

  lemma FoldStep(db: OwnerDb, steps: seq<Step>, legs: seq<Leg>, n: nat)
    requires n <= |legs| && forall i | 0 <= i < |legs| :: LegOk(db, steps, legs[i])
    ensures n == 0 ==> FoldedAnswers(db, steps, legs, n) == map[] && Folded(Rounds(db, steps, legs), n) == map[]
    ensures n > 0 ==> LegOk(db, steps, legs[n - 1])
    ensures n > 0 ==> FoldedAnswers(db, steps, legs, n) == Overlay(FoldedAnswers(db, steps, legs, n - 1), LegItems(db, steps, legs[n - 1]))
  {
    assert n > 0 ==> LegOk(db, steps, legs[n - 1]);
    hide LegOk, LegItems, Overlay;
  }

  lemma {:induction false} AnswersAreRounds(db: OwnerDb, steps: seq<Step>, legs: seq<Leg>, n: nat)
    requires BookmarkInv(db) && db.pages == map[] && Legal(db, steps) && ClientLegs(db, steps, legs) && n <= |legs|
    ensures forall i | 0 <= i < |legs| :: LegOk(db, steps, legs[i])
    ensures FoldedAnswers(db, steps, legs, n) == Folded(Rounds(db, steps, legs), n)
    decreases n
  {
    hide *;
    LegsStart(db, steps, legs);
    FoldStep(db, steps, legs, n);
    if n > 0 {
      AnswersAreRounds(db, steps, legs, n - 1);
      LegIsRound(db, steps, legs[n - 1]);
      RoundIs(db, steps, legs, n - 1);
      FoldOne(Rounds(db, steps, legs), n);
    }
  }

  /**
   Catch-up loses nothing, as the client sees it. In every run, whatever the row policies did meanwhile: a client that
   starts, resumes from each bookmark it is issued, and keeps the answer recorded last for every page, holds, folded together,
   the incident table as of its last capture.
   */
  lemma RunChainIsTable(db: OwnerDb, steps: seq<Step>, legs: seq<Leg>, n: nat)
    requires BookmarkInv(db) && db.pages == map[] && Legal(db, steps) && ClientLegs(db, steps, legs) && 0 < n <= |legs|
    ensures FoldedAnswers(db, steps, legs, n) == Run(db, steps[..legs[n - 1].capture]).incidents.rows
  {
    hide *;
    LegsStart(db, steps, legs);
    LegsAreRounds(db, steps, legs);
    AnswersAreRounds(db, steps, legs, n);
    RoundIs(db, steps, legs, n - 1);
    LegFacts(db, steps, legs[n - 1]);
    ChainFoldsToSnapshot(Rounds(db, steps, legs), n);
    RunAt(db, steps, legs[n - 1].capture);
    TableIsReplay(Run(db, steps[..legs[n - 1].capture]));
  }

  lemma TableIsReplay(db: OwnerDb)
    requires BookmarkInv(db)
    ensures db.incidents.rows == Replay(db.incidents.ledger)
  {
  }
}
