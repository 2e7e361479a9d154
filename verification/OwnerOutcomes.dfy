/**
 What each transaction of the owner database does, clause by clause and with the numbers written out: who may read and
 resume, what a capture stores, when a bookmark is issued and what it says, and which error is given otherwise.
 */
module OwnerOutcomes {
  import opened Common
  import opened Incidents
  import opened Cursor
  import opened Paging
  import opened Bookmarks

  // ---------------------------------------------------------------- the page read

  /** The caller may read the cursor: it is stored, its session is live, and the caller is whoever captured it. */
  predicate MayRead(db: OwnerDb, token: Id, identity: Identity, policy: string, now: Time) {
    && token in db.cursors && db.cursors[token].session in db.sessions
    && db.sessions[db.cursors[token].session].identity == identity
    && db.sessions[db.cursors[token].session].policy == policy
    && now < db.sessions[db.cursors[token].session].expiresAt
  }

  /** What it is told if it may not: nothing at all of other people's cursors. */
  predicate ReadRefusal(db: OwnerDb, token: Id, identity: Identity, policy: string, now: Time, e: CursorError) {
    if token !in db.cursors || db.cursors[token].session !in db.sessions
       || db.sessions[db.cursors[token].session].identity != identity then e == CursorNotFound
    else if db.sessions[db.cursors[token].session].policy != policy then e == CursorPolicyChanged
    else e == CursorExpired
  }

  /** The answer: what the row policy shows of `limit` items from the cursor's position, and whether that is all of them. */
  ghost predicate Answer(db: OwnerDb, token: Id, authorize: Incident -> bool, answer: PageResult)
    requires token in db.cursors && db.cursors[token].session in db.sessions
  {
    var c, s := db.cursors[token], db.sessions[db.cursors[token].session];
    var end := if c.position + s.limit < |s.items| then c.position + s.limit else |s.items|;
    var page := if c.position < end then s.items[c.position..end] else [];
    && answer.items == Visible(page, authorize) && answer.session == c.session
    && (answer.partial <==> s.historyGap || exists x | x in page :: !authorize(x))
    && (answer.truncated <==> c.position + |page| < |s.items|)
    && (answer.next.Some? <==> answer.truncated)
  }

  lemma PageOutcome(db: OwnerDb, token: Id, identity: Identity, policy: string, authorize: Incident -> bool, now: Time)
    ensures
      var r := Page(db, token, identity, policy, authorize, now);
      && (r.Ok? <==> MayRead(db, token, identity, policy, now))
      && (r.Err? ==> ReadRefusal(db, token, identity, policy, now, r.error))
      && (r.Ok? ==> Answer(db, token, authorize, r.value.1))
  {
    hide PageDb, PageNext, Truncated, Slice, Visible, Answer;
    if Page(db, token, identity, policy, authorize, now).Ok? {
      AnswerIs(db, token, authorize, Page(db, token, identity, policy, authorize, now).value.1);
    }
  }

  lemma AnswerIs(db: OwnerDb, token: Id, authorize: Incident -> bool, answer: PageResult)
    requires token in db.cursors && db.cursors[token].session in db.sessions
    requires
      var c, s := db.cursors[token], db.sessions[db.cursors[token].session];
      var items := Slice(s, c.position);
      answer == PageResult(Visible(items, authorize), |Visible(items, authorize)| != |items| || s.historyGap, Truncated(db, c),
                           c.session, PageNext(db, c))
    ensures Answer(db, token, authorize, answer)
  {
    hide FollowingCursor, Visible;
    VisibleAll(Slice(db.sessions[db.cursors[token].session], db.cursors[token].position), authorize);
  }

  /** A row policy shows exactly the items it is true of, one by one and in order. */
  lemma ShownItems(a: seq<Incident>, x: Incident, b: seq<Incident>, authorize: Incident -> bool)
    ensures Visible(a + [x] + b, authorize) == Visible(a, authorize) + (if authorize(x) then [x] else []) + Visible(b, authorize)
    ensures Visible([], authorize) == []
  {
    VisibleConcat(a + [x], b, authorize);
    VisibleConcat(a, [x], authorize);
    assert [x][1..] == [];
  }

  // ---------------------------------------------------------------- the capture

  /** There is no room for another session: 4096 in all, 128 of the tenant, 16 of the principal. */
  ghost predicate NoSessionLeft(db: OwnerDb, identity: Identity) {
    || |db.sessions| >= 4096
    || |set sid | sid in db.sessions && db.sessions[sid].identity.tenant == identity.tenant| >= 128
    || |set sid | sid in db.sessions && db.sessions[sid].identity.tenant == identity.tenant
                  && db.sessions[sid].identity.principal == identity.principal| >= 16
  }

  /** So many items fit: 20,000, two hundred pages, 200,000 with all other sessions, 64,000 with those of the tenant. */
  predicate Fits(db: OwnerDb, n: int, identity: Identity, limit: nat) {
    && n <= 20_000 && n <= limit * 200
    && n + ItemSum(db.sessions, db.nextId, None) <= 200_000
    && n + ItemSum(db.sessions, db.nextId, Some(identity.tenant)) <= 64_000
  }

  lemma NoSessionLeftIs(db: OwnerDb, identity: Identity)
    ensures NoSessionLeft(db, identity) <==> SessionsFull(db.sessions, identity)
  {
    assert (set sid | sid in db.sessions && db.sessions[sid].identity.tenant == identity.tenant) == TenantSessions(db.sessions, identity.tenant);
    assert (set sid | sid in db.sessions && db.sessions[sid].identity.tenant == identity.tenant
                      && db.sessions[sid].identity.principal == identity.principal)
        == PrincipalSessions(db.sessions, identity.tenant, identity.principal);
  }

  lemma FitsIs(db: OwnerDb, n: int, identity: Identity, limit: nat)
    ensures n <= Available(db.sessions, db.nextId, identity, limit) <==> Fits(db, n, identity, limit)
  {
    hide ItemSum;
  }

  /** What a capture stores: half an hour of the selected items as of the present end of the ledger, read from its start. */
  ghost predicate Stored(db: OwnerDb, db': OwnerDb, token: Id, f: Filter, limit: nat, lower: nat, identity: Identity, policy: string, now: Time)
    requires WellKeyed(db.incidents.ledger)
  {
    && token == db.nextId + 1 && db.nextId in db'.sessions
    && var s := db'.sessions[db.nextId];
    && s.identity == identity && s.policy == policy && s.limit == limit && s.createdAt == now && s.expiresAt == now + 1800.0
    && (s.historyGap <==> f.since.Some? && f.since.value < db.baselineAt)
    && s.watermark == |db.incidents.ledger| && s.items == CaptureItems(db.incidents.ledger, f, lower)
    && db' == db.(sessions := db.sessions[db.nextId := s], cursors := db.cursors[token := PageCursor(db.nextId, 0)], nextId := db.nextId + 2)
  }

  lemma InsertStores(db: OwnerDb, f: Filter, limit: nat, lower: nat, identity: Identity, policy: string, now: Time)
    requires WellKeyed(db.incidents.ledger)
    ensures Stored(db, InsertSession(db, NewSession(db, f, limit, identity, policy, now, CaptureItems(db.incidents.ledger, f, lower))),
                   db.nextId + 1, f, limit, lower, identity, policy, now)
  {
    hide CaptureItems, WellKeyed;
  }

  /** Once an expired session has gone, exactly when a capture is stored, and what it is refused for otherwise. */
  lemma AdmitOutcome(db: OwnerDb, f: Filter, limit: nat, lower: Option<nat>, identity: Identity, policy: string, now: Time)
    requires WellKeyed(db.incidents.ledger)
    ensures
      var r, from := Admit(db, f, limit, lower, identity, policy, now), if lower.Some? then lower.value else 0;
      var n := |CaptureItems(db.incidents.ledger, f, from)|;
      && (r == Err(SessionCapacity) <==> NoSessionLeft(db, identity))
      && (r == Err(PublicationConflict) <==>
            !NoSessionLeft(db, identity) && Fits(db, 0, identity, limit) && from > |db.incidents.ledger|)
      && (r == Err(ItemCapacity) <==>
            !NoSessionLeft(db, identity)
            && (!Fits(db, 0, identity, limit) || (from <= |db.incidents.ledger| && !Fits(db, n, identity, limit))))
      && (r.Ok? <==>
            && !NoSessionLeft(db, identity) && from <= |db.incidents.ledger| && Fits(db, 0, identity, limit)
            && Fits(db, n, identity, limit) && 1 <= limit <= 100)
      && (r.Ok? ==> Stored(db, r.value.0, r.value.1, f, limit, from, identity, policy, now))
  {
    var from := if lower.Some? then lower.value else 0;
    NoSessionLeftIs(db, identity);
    FitsIs(db, 0, identity, limit);
    FitsIs(db, |CaptureItems(db.incidents.ledger, f, from)|, identity, limit);
    InsertStores(db, f, limit, from, identity, policy, now);
    hide WellKeyed, CaptureItems, SessionsFull, Available, NoSessionLeft, Fits, Stored, InsertSession, NewSession;
  }

  /** The cleanup before a capture takes one session with its cursors, its scope and its records, and nothing else. */
  lemma DropOutcome(db: OwnerDb, e: Id)
    ensures
      var db' := DropSession(db, Some(e));
      && DropSession(db, None) == db
      && (forall sid :: sid in db'.sessions <==> sid in db.sessions && sid != e)
      && (forall sid | sid in db'.sessions :: db'.sessions[sid] == db.sessions[sid])
      && (forall t :: t in db'.cursors <==> t in db.cursors && db.cursors[t].session != e)
      && (forall t | t in db'.cursors :: db'.cursors[t] == db.cursors[t])
      && (forall sid :: sid in db'.scopes <==> sid in db.scopes && sid != e)
      && (forall sid | sid in db'.scopes :: db'.scopes[sid] == db.scopes[sid])
      && (forall p :: p in db'.pages <==> p in db.pages && p.0 != e)
      && (forall p | p in db'.pages :: db'.pages[p] == db.pages[p])
      && db'.bookmarks == db.bookmarks && db'.incidents == db.incidents && db'.floor == db.floor && db'.nextId == db.nextId
  {
  }

  /** A capture makes room first, by the session it evicts; what it is refused for after that leaves everything as it was. */
  lemma CaptureOutcome(db: OwnerDb, f: Filter, limit: nat, lower: Option<nat>, identity: Identity, policy: string, now: Time,
                       evict: Option<Id>)
    requires WellKeyed(db.incidents.ledger)
    ensures
      var r := Capture(db, f, limit, lower, identity, policy, now, evict);
      var room, from := DropSession(db, evict), if lower.Some? then lower.value else 0;
      && (evict.Some? ==> evict.value !in room.sessions)
      && (r.Ok? ==> from <= |db.incidents.ledger| && Stored(room, r.value.0, r.value.1, f, limit, from, identity, policy, now))
      && (r.Ok? ==> |r.value.0.sessions[room.nextId].items| <= limit * 200 && |r.value.0.sessions[room.nextId].items| <= 20_000)
      && (r.Ok? && evict.Some? ==> evict.value !in r.value.0.sessions || evict.value == room.nextId)
      && (r == Err(SessionCapacity) <==> NoSessionLeft(room, identity))
  {
    var room := DropSession(db, evict);
    AdmitOutcome(room, f, limit, lower, identity, policy, now);
    hide Admit, NoSessionLeft, WellKeyed, CaptureItems, ItemSum;
  }

  // ---------------------------------------------------------------- resuming

  /** A resume: the bookmark of the same claims, whatever the login, under the same policy, live, and not below the floor. */
  lemma ResumeOutcome(db: OwnerDb, token: Id, limit: nat, identity: Identity, policy: string, now: Time, evict: Option<Id>)
    requires WellKeyed(db.incidents.ledger)
    ensures
      var r := Resume(db, token, limit, identity, policy, now, evict);
      var mine := token in db.bookmarks && db.bookmarks[token].identity == identity.(context := "");
      && (!mine ==> r == Err(BookmarkNotFound))
      && (mine && db.bookmarks[token].policy != policy ==> r == Err(BookmarkPolicyChanged))
      && (mine && db.bookmarks[token].policy == policy && !(now < db.bookmarks[token].expiresAt && db.floor <= db.bookmarks[token].watermark) ==>
            r == Err(BookmarkHistoryGap))
      && (mine && db.bookmarks[token].policy == policy && now < db.bookmarks[token].expiresAt && db.floor <= db.bookmarks[token].watermark ==>
            var b := db.bookmarks[token];
            r == Capture(db, Filter(b.state, None), limit, Some(b.watermark), identity, policy, now, evict))
  {
    hide Capture, WellKeyed;
  }

  lemma StartOutcome(db: OwnerDb, state: Option<Lifecycle>, limit: nat, identity: Identity, policy: string, now: Time, evict: Option<Id>)
    requires WellKeyed(db.incidents.ledger)
    ensures Start(db, state, limit, identity, policy, now, evict)
         == Capture(db, Filter(state, None), limit, None, identity, policy, now, evict)
  {
  }

  // ---------------------------------------------------------------- scope and record

  lemma BindOutcome(db: OwnerDb, token: Id, state: Option<Lifecycle>, parent: Option<Id>, lower: Option<nat>)
    ensures
      var r := Bind(db, token, state, parent, lower);
      && (r.Ok? <==> token in db.cursors && db.cursors[token].session in db.sessions && db.cursors[token].session !in db.scopes)
      && (r.Err? ==> r.error == ScopeRefused)
      && (r.Ok? ==>
            var sid, s := db.cursors[token].session, db.sessions[db.cursors[token].session];
            && sid in r.value.scopes && r.value == db.(scopes := db.scopes[sid := r.value.scopes[sid]])
            && var x := r.value.scopes[sid];
            && x.state == state && x.parent == parent && x.parentWatermark == lower
            && x.frame == Frame(s.identity, s.policy, s.limit, s.createdAt, s.expiresAt, s.historyGap, s.watermark, |s.items|))
  {
  }

  lemma RecordOutcome(db: OwnerDb, token: Id, partial: bool)
    requires BookmarkInv(db)
    ensures
      var r := Record(db, token, partial);
      && (r.Ok? <==> token in db.cursors && db.cursors[token].session in db.sessions && db.cursors[token].session in db.scopes)
      && (r.Err? ==> r.error == ScopeNotFound)
      && (r.Ok? ==> r.value == db.(pages := db.pages[(db.cursors[token].session, db.cursors[token].position) := !partial]))
  {
    if token in db.cursors && db.cursors[token].session in db.scopes {
      assert ScopeOk(db, db.cursors[token].session, db.scopes[db.cursors[token].session]);
    }
    hide CursorInv, BookmarkQuota, Captured, IsListing;
  }

  // ---------------------------------------------------------------- issuing

  /** The bookmark marks this session's boundary for the same claims and policy, is live, and has the same parent or is it. */
  predicate Equivalent(db: OwnerDb, t: Id, sid: Id, now: Time)
    requires sid in db.sessions && sid in db.scopes && t in db.bookmarks
  {
    var s, scope, b := db.sessions[sid], db.scopes[sid], db.bookmarks[t];
    && b.identity == s.identity.(context := "") && b.policy == s.policy && b.state == scope.state && b.watermark == s.watermark
    && now < b.expiresAt
    && (scope.parent == Some(t) || (scope.parent.None? && b.parent.None?))
  }

  /** Which bookmark an issue returns again: the session's own, else the oldest equivalent one, else none. */
  lemma ReuseOutcome(db: OwnerDb, sid: Id, now: Time, reuse: Option<Id>)
    requires sid in db.sessions && sid in db.scopes && ReuseChoice(db, sid, now, reuse)
    ensures reuse.Some? ==> reuse.value in db.bookmarks
    ensures
      var own := exists t :: t in db.bookmarks && db.bookmarks[t].session == sid;
      && (own ==> reuse.Some? && db.bookmarks[reuse.value].session == sid)
      && (!own && reuse.Some? ==>
            && Equivalent(db, reuse.value, sid, now)
            && forall t | t in db.bookmarks && Equivalent(db, t, sid, now) :: db.bookmarks[reuse.value].createdAt <= db.bookmarks[t].createdAt)
      && (!own && reuse.None? ==> forall t | t in db.bookmarks :: !Equivalent(db, t, sid, now))
  {
    forall t | t in db.bookmarks ensures Equivalent(db, t, sid, now) <==> SameBoundary(db, t, sid, now) {
    }
    hide SameBoundary, Equivalent;
    if t :| t in db.bookmarks && db.bookmarks[t].session == sid {
      assert Reusable(db, t, sid, now);
    } else if reuse.None? {
      NoneReusable(db, sid, now);
    }
  }

  /** Among equivalent bookmarks one is the oldest, so if none is reusable there is none. */
  lemma NoneReusable(db: OwnerDb, sid: Id, now: Time)
    requires sid in db.sessions && sid in db.scopes && forall t | t in db.bookmarks :: !Reusable(db, t, sid, now)
    ensures forall t | t in db.bookmarks :: !SameBoundary(db, t, sid, now)
  {
    var same := set t | t in db.bookmarks && SameBoundary(db, t, sid, now);
    forall t | t in db.bookmarks ensures db.bookmarks[t].session != sid {
      assert !Reusable(db, t, sid, now);
    }
    if same != {} {
      var oldest := Oldest(db.bookmarks, same);
      OldestReusable(db, oldest, sid, now);
      assert false;
    }
    forall t | t in db.bookmarks ensures !SameBoundary(db, t, sid, now) {
      assert t !in same;
    }
  }

  lemma OldestReusable(db: OwnerDb, t: Id, sid: Id, now: Time)
    requires sid in db.sessions && sid in db.scopes && t in db.bookmarks && SameBoundary(db, t, sid, now)
    requires forall u | u in db.bookmarks :: db.bookmarks[u].session != sid
    requires forall u | u in db.bookmarks && SameBoundary(db, u, sid, now) :: db.bookmarks[t].createdAt <= db.bookmarks[u].createdAt
    ensures Reusable(db, t, sid, now)
  {
    hide SameBoundary;
  }

  lemma {:induction false} Oldest(bookmarks: map<Id, Bookmark>, s: set<Id>) returns (t: Id)
    requires s != {} && s <= bookmarks.Keys
    ensures t in s && forall u | u in s :: bookmarks[t].createdAt <= bookmarks[u].createdAt
    decreases |s|
  {
    t :| t in s;
    if s != {t} {
      var u := Oldest(bookmarks, s - {t});
      if bookmarks[u].createdAt <= bookmarks[t].createdAt { t := u; }
    }
  }

  /** There is no room for another bookmark: 32,768 in all, 4096 of the tenant, 512 of the principal. */
  ghost predicate NoBookmarkLeft(bookmarks: map<Id, Bookmark>, identity: Identity) {
    || |bookmarks| >= 32_768
    || |set t | t in bookmarks && bookmarks[t].identity.tenant == identity.tenant| >= 4096
    || |set t | t in bookmarks && bookmarks[t].identity.tenant == identity.tenant
                && bookmarks[t].identity.principal == identity.principal| >= 512
  }

  lemma NoBookmarkLeftIs(bookmarks: map<Id, Bookmark>, identity: Identity)
    ensures NoBookmarkLeft(bookmarks, identity) <==> BookmarksFull(bookmarks, identity)
  {
    assert (set t | t in bookmarks && bookmarks[t].identity.tenant == identity.tenant) == TenantBookmarks(bookmarks, identity.tenant);
    assert (set t | t in bookmarks && bookmarks[t].identity.tenant == identity.tenant && bookmarks[t].identity.principal == identity.principal)
        == PrincipalBookmarks(bookmarks, identity.tenant, identity.principal);
  }

  /** The new bookmark: ninety days for the claims of the session, at its watermark, with its filter and its parent. */
  ghost predicate Issued(db: OwnerDb, db': OwnerDb, token: Id, sid: Id, now: Time, kept: map<Id, Bookmark>)
    requires sid in db.sessions && sid in db.scopes
  {
    var s, scope := db.sessions[sid], db.scopes[sid];
    && token == db.nextId && token in db'.bookmarks
    && var b := db'.bookmarks[token];
    && b.session == sid && b.identity == s.identity.(context := "") && b.policy == s.policy && b.state == scope.state
    && b.watermark == s.watermark && b.parent == scope.parent && b.createdAt == now && b.expiresAt == now + 7_776_000.0
    && db' == db.(bookmarks := kept[token := b], nextId := db.nextId + 1)
  }

  /** All pages of the session are on record as complete. */
  ghost predicate CompleteCoverage(db: OwnerDb, sid: Id)
    requires sid in db.sessions && db.sessions[sid].limit > 0
  {
    |set p | p in db.pages && p.0 == sid && db.pages[p]| == PageCount(|db.sessions[sid].items|, db.sessions[sid].limit)
  }

  lemma CoverageIs(db: OwnerDb, sid: Id)
    requires BookmarkInv(db) && sid in db.sessions && sid in db.scopes
    ensures db.sessions[sid].limit > 0 && db.scopes[sid].frame == FrameOf(db.sessions[sid])
    ensures CompleteCoverage(db, sid) <==> |CompletePages(db, sid)| == Expected(db.scopes[sid].frame)
  {
    BoundFrame(db, sid);
    assert (set p | p in db.pages && p.0 == sid && db.pages[p]) == CompletePages(db, sid);
    hide BookmarkInv, PageCount;
  }

  lemma IssueUnbound(db: OwnerDb, sid: Id, now: Time, reuse: Option<Id>, drop: Option<Id>)
    requires BookmarkInv(db)
    ensures Issue(db, sid, now, reuse, drop) == Err(CaptureChanged) <==> sid !in db.sessions || sid !in db.scopes
  {
    if sid in db.sessions && sid in db.scopes { BoundFrame(db, sid); }
    hide BookmarkInv, PageCount, CompletePages, BookmarksFull, FrameOf, Expected, InsertBookmark, NewBookmark;
  }

  /** Exactly when a bookmark is issued, and what an issue is refused for otherwise, one condition after the other. */
  lemma IssueOutcome(db: OwnerDb, sid: Id, now: Time, reuse: Option<Id>, drop: Option<Id>)
    requires BookmarkInv(db) && sid in db.sessions && sid in db.scopes
    ensures db.sessions[sid].limit > 0
    ensures
      var r, s, covered := Issue(db, sid, now, reuse, drop), db.sessions[sid], CompleteCoverage(db, sid);
      var kept := if drop.Some? then db.bookmarks - {drop.value} else db.bookmarks;
      && (r == Err(CoverageIncomplete) <==> !covered)
      && (r == Err(SnapshotExpired) <==> covered && s.expiresAt <= now)
      && (covered && now < s.expiresAt && reuse.Some? ==> r == Ok((db, reuse.value)))
      && (r == Err(BookmarkCapacity) <==> covered && now < s.expiresAt && reuse.None? && NoBookmarkLeft(kept, s.identity))
      && (covered && now < s.expiresAt && reuse.None? && !NoBookmarkLeft(kept, s.identity) ==>
            r.Ok? && Issued(db, r.value.0, r.value.1, sid, now, kept))
  {
    hide BookmarkInv, CompleteCoverage, CompletePages, Expected, BookmarksFull, NoBookmarkLeft, FrameOf;
    CoverageIs(db, sid);
    NoBookmarkLeftIs(if drop.Some? then db.bookmarks - {drop.value} else db.bookmarks, db.sessions[sid].identity);
  }

  lemma BoundFrame(db: OwnerDb, sid: Id)
    requires BookmarkInv(db) && sid in db.sessions && sid in db.scopes
    ensures db.sessions[sid].limit > 0 && db.scopes[sid].frame == FrameOf(db.sessions[sid])
    ensures Expected(db.scopes[sid].frame) == PageCount(|db.sessions[sid].items|, db.sessions[sid].limit)
  {
    CompleteInside(db, sid);
    hide BookmarkInv, PageCount;
  }

  // ---------------------------------------------------------------- who reads, over every run

  /** The step stored a session, for this identity and under this policy. */
  ghost predicate Captures(before: OwnerDb, step: Step, identity: Identity, policy: string) {
    WellKeyed(before.incidents.ledger) &&
    match step
    case CaptureStep(f, limit, i, p, now, evict) =>
      i == identity && p == policy && Capture(before, f, limit, None, i, p, now, evict).Ok?
    case StartStep(state, limit, i, p, now, evict) =>
      i == identity && p == policy && Start(before, state, limit, i, p, now, evict).Ok?
    case ResumeStep(token, limit, i, p, now, evict) =>
      && i == identity && p == policy && Resume(before, token, limit, i, p, now, evict).Ok?
      && token in before.bookmarks && before.bookmarks[token].identity == identity.(context := "") && before.bookmarks[token].policy == policy
    case _ => false
  }

  lemma CaptureAddsOne(db: OwnerDb, f: Filter, limit: nat, lower: Option<nat>, identity: Identity, policy: string, now: Time, evict: Option<Id>)
    requires WellKeyed(db.incidents.ledger) && Capture(db, f, limit, lower, identity, policy, now, evict).Ok?
    ensures
      var after := Capture(db, f, limit, lower, identity, policy, now, evict).value.0;
      && db.nextId in after.sessions && after.sessions[db.nextId].identity == identity && after.sessions[db.nextId].policy == policy
      && forall sid | sid in after.sessions && sid != db.nextId :: sid in db.sessions && after.sessions[sid] == db.sessions[sid]
  {
    hide WellKeyed, CaptureItems, SessionsFull, Available;
  }

  /** A session is there from before, or the step stored it. */
  lemma StepSessions(db: OwnerDb, step: Step, sid: Id)
    requires BookmarkInv(db) && Ready(db, step)
    ensures WellKeyed(db.incidents.ledger)
    ensures
      sid in Exec(db, step).sessions ==>
        || (sid in db.sessions && Exec(db, step).sessions[sid] == db.sessions[sid])
        || (sid == db.nextId && Captures(db, step, Exec(db, step).sessions[sid].identity, Exec(db, step).sessions[sid].policy))
  {
    hide BookmarkInv, Ready, WellKeyed, Capture, Bind, Record, Issue, Page, Apply, Kept, Committed;
    InvKeyed(db);
    if step.CaptureStep? || step.StartStep? || step.ResumeStep? {
      CaptureStepSessions(db, step, sid);
    } else {
      QuietSessions(db, step);
    }
  }

  lemma CaptureStepSessions(db: OwnerDb, step: Step, sid: Id)
    requires WellKeyed(db.incidents.ledger) && (step.CaptureStep? || step.StartStep? || step.ResumeStep?)
    ensures
      sid in Exec(db, step).sessions ==>
        || (sid in db.sessions && Exec(db, step).sessions[sid] == db.sessions[sid])
        || (sid == db.nextId && Captures(db, step, Exec(db, step).sessions[sid].identity, Exec(db, step).sessions[sid].policy))
  {
    hide WellKeyed, Capture;
    match step
    case CaptureStep(f, limit, identity, policy, now, evict) =>
      if Capture(db, f, limit, None, identity, policy, now, evict).Ok? {
        CaptureAddsOne(db, f, limit, None, identity, policy, now, evict);
      }
    case StartStep(state, limit, identity, policy, now, evict) =>
      if Start(db, state, limit, identity, policy, now, evict).Ok? {
        CaptureAddsOne(db, StateFilter(state), limit, None, identity, policy, now, evict);
      }
    case ResumeStep(token, limit, identity, policy, now, evict) =>
      if Resume(db, token, limit, identity, policy, now, evict).Ok? {
        var b := db.bookmarks[token];
        CaptureAddsOne(db, StateFilter(b.state), limit, Some(b.watermark), identity, policy, now, evict);
      }
  }

  lemma QuietSessions(db: OwnerDb, step: Step)
    requires BookmarkInv(db) && WellKeyed(db.incidents.ledger) && !step.CaptureStep? && !step.StartStep? && !step.ResumeStep?
    ensures Exec(db, step).sessions == db.sessions
  {
    hide BookmarkInv, WellKeyed, Apply, PageDb, FrameOf, BookmarksFull, CompletePages, Expected;
    match step
    case PageStep(token, identity, policy, authorize, now) =>
      if Page(db, token, identity, policy, authorize, now).Ok? {
        PageEvolvesInv(db, db.cursors[token]);
      }
    case _ =>
  }

  /** The session was stored by step `i` of the run, and belongs to whoever made that step. */
  ghost predicate StoredBy(db: OwnerDb, steps: seq<Step>, i: nat, sid: Id, s: Session) {
    i < |steps| && Run(db, steps[..i]).nextId == sid && Captures(Run(db, steps[..i]), steps[i], s.identity, s.policy)
  }

  lemma StoredLonger(db: OwnerDb, steps: seq<Step>, n: nat, i: nat, sid: Id, s: Session)
    requires n <= |steps| && StoredBy(db, steps[..n], i, sid, s)
    ensures StoredBy(db, steps, i, sid, s)
  {
    assert steps[..n][..i] == steps[..i];
    hide Run, Captures;
  }

  lemma {:induction false} SessionsAreStored(db: OwnerDb, steps: seq<Step>, sid: Id) returns (i: nat)
    requires BookmarkInv(db) && db.sessions == map[] && Legal(db, steps) && sid in Run(db, steps).sessions
    ensures StoredBy(db, steps, i, sid, Run(db, steps).sessions[sid])
    decreases |steps|
  {
    hide *;
    SomeSteps(db, steps, sid);
    var n := |steps| - 1;
    LastAllowed(db, steps);
    StepSessions(Run(db, steps[..n]), steps[n], sid);
    if sid in Run(db, steps[..n]).sessions && Run(db, steps).sessions[sid] == Run(db, steps[..n]).sessions[sid] {
      i := SessionsAreStored(db, steps[..n], sid);
      StoredLonger(db, steps, n, i, sid, Run(db, steps).sessions[sid]);
    } else {
      i := n;
      StoredNow(db, steps, sid, Run(db, steps).sessions[sid]);
    }
  }

  lemma SomeSteps(db: OwnerDb, steps: seq<Step>, sid: Id)
    requires db.sessions == map[] && sid in Run(db, steps).sessions
    ensures steps != []
  {
  }

  lemma StoredNow(db: OwnerDb, steps: seq<Step>, sid: Id, s: Session)
    requires steps != []
    requires
      var n := |steps| - 1;
      Run(db, steps[..n]).nextId == sid && Captures(Run(db, steps[..n]), steps[n], s.identity, s.policy)
    ensures StoredBy(db, steps, |steps| - 1, sid, s)
  {
    hide Run, Captures;
  }

  /**
   Nobody reads another's snapshot. Over every run, an answered read of a token is by the identity, and under the policy,
   of the capture, start or resume of the run that stored its session; and whoever made that by resuming a bookmark has
   the claims the bookmark was issued to.
   */
  lemma ReadersAreOwners(db: OwnerDb, steps: seq<Step>, token: Id, identity: Identity, policy: string, authorize: Incident -> bool, now: Time)
    returns (i: nat)
    requires BookmarkInv(db) && db.sessions == map[] && Legal(db, steps)
    requires Page(Run(db, steps), token, identity, policy, authorize, now).Ok?
    ensures token in Run(db, steps).cursors && i < |steps|
    ensures Run(db, steps[..i]).nextId == Run(db, steps).cursors[token].session
    ensures Captures(Run(db, steps[..i]), steps[i], identity, policy)
  {
    PageOutcome(Run(db, steps), token, identity, policy, authorize, now);
    hide Run, Page, Legal, BookmarkInv, Captures, Answer;
    i := SessionsAreStored(db, steps, Run(db, steps).cursors[token].session);
  }
}
