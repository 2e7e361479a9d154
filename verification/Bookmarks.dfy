/**
 Publication bookmarks (tools/operational_bookmarks.py): a snapshot or catch-up read page by page, a
 bookmark issued only for complete coverage, and the whole owner database as a machine whose steps are
 the committed transactions of the incident store, the cursors and the bookmarks.
 */
module Bookmarks {
  import opened Common
  import opened Incidents
  import opened Cursor
  import opened Paging
  import opened CatchUp

  const BOOKMARK_SECONDS: Time := 7_776_000.0  // 90 days

  /** A bookmark is bound to the identity without its login context. */
  function Stable(i: Identity): Identity { i.(context := "") }

  function FrameOf(s: Session): Frame {
    Frame(s.identity, s.policy, s.limit, s.createdAt, s.expiresAt, s.historyGap, s.watermark, |s.items|)
  }

  function StateFilter(state: Option<Lifecycle>): Filter { Filter(state, None) }

  function Lower(scope: Scope): nat {
    if scope.parentWatermark.Some? then scope.parentWatermark.value else 0
  }

  // ---------------------------------------------------------------- start and resume

  function AddScope(db: OwnerDb, sid: Id, scope: Scope): OwnerDb {
    db.(scopes := db.scopes[sid := scope])
  }

  function NewScope(s: Session, state: Option<Lifecycle>, parent: Option<Id>, lower: Option<nat>): Scope {
    Scope(state, parent, lower, FrameOf(s))
  }

  /** `_scope`: a transaction of its own, which binds a session to its filter and its parent bookmark, once. */
  function Bind(db: OwnerDb, token: Id, state: Option<Lifecycle>, parent: Option<Id>, lower: Option<nat>): Result<OwnerDb, CursorError> {
    if token !in db.cursors || db.cursors[token].session !in db.sessions || db.cursors[token].session in db.scopes then Err(ScopeRefused)
    else
      var sid := db.cursors[token].session;
      Ok(AddScope(db, sid, NewScope(db.sessions[sid], state, parent, lower)))
  }

  /** The capture of a start. */
  ghost function Start(db: OwnerDb, state: Option<Lifecycle>, limit: nat, identity: Identity, policy: string, now: Time,
                       evict: Option<Id>): Result<(OwnerDb, Id), CursorError>
    requires WellKeyed(db.incidents.ledger)
  {
    Capture(db, StateFilter(state), limit, None, identity, policy, now, evict)
  }

  function ResumeGuard(db: OwnerDb, token: Id, identity: Identity, policy: string, now: Time): Option<CursorError> {
    if token !in db.bookmarks || db.bookmarks[token].identity != Stable(identity) then Some(BookmarkNotFound)
    else if db.bookmarks[token].policy != policy then Some(BookmarkPolicyChanged)
    else if db.bookmarks[token].expiresAt <= now || db.bookmarks[token].watermark < db.floor then Some(BookmarkHistoryGap)
    else None
  }

  /** The guards and the capture of a resume. */
  ghost function Resume(db: OwnerDb, token: Id, limit: nat, identity: Identity, policy: string, now: Time,
                        evict: Option<Id>): Result<(OwnerDb, Id), CursorError>
    requires WellKeyed(db.incidents.ledger)
  {
    if ResumeGuard(db, token, identity, policy, now).Some? then Err(ResumeGuard(db, token, identity, policy, now).value)
    else
      var b := db.bookmarks[token];
      Capture(db, StateFilter(b.state), limit, Some(b.watermark), identity, policy, now, evict)
  }

  // ---------------------------------------------------------------- recording a read

  function RecordPage(db: OwnerDb, sid: Id, position: nat, complete: bool): OwnerDb {
    db.(pages := db.pages[(sid, position) := complete])
  }

  /** The transaction that records a bookmark read, complete or not, some time after its cursor read. */
  function Record(db: OwnerDb, token: Id, partial: bool): Result<OwnerDb, CursorError> {
    if token !in db.cursors || db.cursors[token].session !in db.sessions || db.cursors[token].session !in db.scopes
    then Err(ScopeNotFound)
    else
      var c := db.cursors[token];
      if db.scopes[c.session].frame != FrameOf(db.sessions[c.session]) then Err(CaptureChanged)
      else Ok(RecordPage(db, c.session, c.position, !partial))
  }

  /** A bookmark page that nothing interrupts: the cursor read, which commits first, and its record. */
  ghost function ReadPage(db: OwnerDb, token: Id, identity: Identity, policy: string, authorize: Incident -> bool, now: Time):
    (OwnerDb, Result<PageResult, CursorError>)
  {
    match Page(db, token, identity, policy, authorize, now)
    case Err(e) => (db, Err(e))
    case Ok((db1, result)) =>
      match Record(db1, token, result.partial)
      case Err(e) => (db1, Err(e))
      case Ok(db2) => (db2, Ok(result))
  }

  // ---------------------------------------------------------------- issuing a bookmark

  function CompletePages(db: OwnerDb, sid: Id): set<(Id, nat)> {
    set p | p in db.pages && p.0 == sid && db.pages[p]
  }

  function Expected(frame: Frame): nat {
    if frame.limit == 0 then 0 else PageCount(frame.itemCount, frame.limit)
  }

  predicate SameBoundary(db: OwnerDb, t: Id, sid: Id, now: Time)
    requires sid in db.sessions && sid in db.scopes && t in db.bookmarks
  {
    var s, scope, b := db.sessions[sid], db.scopes[sid], db.bookmarks[t];
    && b.identity == Stable(s.identity) && b.policy == s.policy && b.state == scope.state
    && b.watermark == s.watermark && b.expiresAt > now
    && ((scope.parent.None? && b.parent.None?) || scope.parent == Some(t))
  }

  /** An earlier bookmark to return instead of a new one: this session's own, else an equivalent one. */
  predicate Reusable(db: OwnerDb, t: Id, sid: Id, now: Time)
    requires sid in db.sessions && sid in db.scopes
  {
    t in db.bookmarks
    && (db.bookmarks[t].session == sid
        || ((forall u | u in db.bookmarks :: db.bookmarks[u].session != sid)
            && SameBoundary(db, t, sid, now)
            && forall u | u in db.bookmarks && SameBoundary(db, u, sid, now) ::
                 db.bookmarks[t].createdAt <= db.bookmarks[u].createdAt))
  }

  ghost predicate ReuseChoice(db: OwnerDb, sid: Id, now: Time, reuse: Option<Id>)
    requires sid in db.sessions && sid in db.scopes
  {
    match reuse
    case Some(t) => Reusable(db, t, sid, now)
    case None => forall t | t in db.bookmarks :: !Reusable(db, t, sid, now)
  }

  ghost predicate CleanupChoice(db: OwnerDb, now: Time, drop: Option<Id>) {
    match drop
    case None => forall t | t in db.bookmarks :: db.bookmarks[t].expiresAt > now
    case Some(d) => d in db.bookmarks && db.bookmarks[d].expiresAt <= now
                    && forall t | t in db.bookmarks :: db.bookmarks[d].expiresAt <= db.bookmarks[t].expiresAt
  }

  function DropBookmark(db: OwnerDb, drop: Option<Id>): OwnerDb {
    if drop.None? then db else db.(bookmarks := db.bookmarks - {drop.value})
  }

  function TenantBookmarks(bookmarks: map<Id, Bookmark>, tenant: string): set<Id> {
    set t | t in bookmarks && bookmarks[t].identity.tenant == tenant
  }

  function PrincipalBookmarks(bookmarks: map<Id, Bookmark>, tenant: string, principal: string): set<Id> {
    set t | t in bookmarks && bookmarks[t].identity.tenant == tenant && bookmarks[t].identity.principal == principal
  }

  predicate BookmarksFull(bookmarks: map<Id, Bookmark>, identity: Identity) {
    || |bookmarks| >= 32768
    || |TenantBookmarks(bookmarks, identity.tenant)| >= 4096
    || |PrincipalBookmarks(bookmarks, identity.tenant, identity.principal)| >= 512
  }

  function NewBookmark(db: OwnerDb, sid: Id, now: Time): Bookmark
    requires sid in db.sessions && sid in db.scopes
  {
    var s, scope := db.sessions[sid], db.scopes[sid];
    Bookmark(sid, Stable(s.identity), s.policy, scope.state, s.watermark, scope.parent, now, now + BOOKMARK_SECONDS)
  }

  function InsertBookmark(db: OwnerDb, b: Bookmark): OwnerDb {
    db.(bookmarks := db.bookmarks[db.nextId := b], nextId := db.nextId + 1)
  }

  /** `_issue`: everything is checked again inside the transaction that inserts the bookmark. */
  function Issue(db: OwnerDb, sid: Id, now: Time, reuse: Option<Id>, drop: Option<Id>): Result<(OwnerDb, Id), CursorError> {
    if sid !in db.sessions || sid !in db.scopes || db.scopes[sid].frame != FrameOf(db.sessions[sid]) then Err(CaptureChanged)
    else if |CompletePages(db, sid)| != Expected(db.scopes[sid].frame) then Err(CoverageIncomplete)
    else if db.sessions[sid].expiresAt <= now then Err(SnapshotExpired)
    else if reuse.Some? then Ok((db, reuse.value))
    else
      var db1 := DropBookmark(db, drop);
      if BookmarksFull(db1.bookmarks, db.sessions[sid].identity) then Err(BookmarkCapacity)
      else Ok((InsertBookmark(db1, NewBookmark(db, sid, now)), db1.nextId))
  }

  // ---------------------------------------------------------------- the machine

  datatype Step =
    | IncidentStep(update: Update, now: Time)
    | CaptureStep(f: Filter, limit: nat, identity: Identity, policy: string, now: Time, evict: Option<Id>)
    | StartStep(state: Option<Lifecycle>, limit: nat, identity: Identity, policy: string, now: Time, evict: Option<Id>)
    | ResumeStep(token: Id, limit: nat, identity: Identity, policy: string, now: Time, evict: Option<Id>)
    | PageStep(token: Id, identity: Identity, policy: string, authorize: Incident -> bool, now: Time)
    | BindStep(token: Id, state: Option<Lifecycle>, parent: Option<Id>, parentWatermark: Option<nat>)
    | RecordStep(token: Id, answer: PageResult)
    | IssueStep(sid: Id, now: Time, reuse: Option<Id>, drop: Option<Id>)
    | FloorStep(revision: nat)

  ghost predicate Allowed(db: OwnerDb, step: Step) {
    match step
    case CaptureStep(_, _, _, _, now, evict) => EvictionChoice(db, now, evict)
    case StartStep(_, _, _, _, now, evict) => EvictionChoice(db, now, evict)
    case ResumeStep(_, _, _, _, now, evict) => EvictionChoice(db, now, evict)
    case IssueStep(sid, now, reuse, drop) =>
      (sid in db.sessions && sid in db.scopes ==> ReuseChoice(db, sid, now, reuse)) && CleanupChoice(db, now, drop)
    case _ => true
  }

  ghost function Committed(db: OwnerDb, r: Result<(OwnerDb, Id), CursorError>): OwnerDb {
    if r.Ok? then r.value.0 else db
  }

  function Kept(db: OwnerDb, r: Result<OwnerDb, CursorError>): OwnerDb {
    if r.Ok? then r.value else db
  }

  /** One step; a rejected transaction rolls back. */
  ghost function Exec(db: OwnerDb, step: Step): OwnerDb
    requires WellKeyed(db.incidents.ledger)
  {
    match step
    case IncidentStep(u, now) => db.(incidents := Apply(db.incidents, u, now))
    case CaptureStep(f, limit, identity, policy, now, evict) =>
      Committed(db, Capture(db, f, limit, None, identity, policy, now, evict))
    case StartStep(state, limit, identity, policy, now, evict) =>
      Committed(db, Start(db, state, limit, identity, policy, now, evict))
    case ResumeStep(token, limit, identity, policy, now, evict) =>
      Committed(db, Resume(db, token, limit, identity, policy, now, evict))
    case PageStep(token, identity, policy, authorize, now) =>
      var r := Page(db, token, identity, policy, authorize, now);
      if r.Ok? then r.value.0 else db
    case BindStep(token, state, parent, lower) => Kept(db, Bind(db, token, state, parent, lower))
    case RecordStep(token, answer) => Kept(db, Record(db, token, answer.partial))
    case IssueStep(sid, now, reuse, drop) => Committed(db, Issue(db, sid, now, reuse, drop))
    case FloorStep(revision) => if revision < db.floor then db else db.(floor := revision)
  }

  /** The database after a run; `Run(db, steps[..k])` is its state before step `k`. */
  ghost function Run(db: OwnerDb, steps: seq<Step>): OwnerDb
    decreases |steps|
  {
    if steps == [] then db else
      var before := Run(db, steps[..|steps| - 1]);
      if WellKeyed(before.incidents.ledger) then Exec(before, steps[|steps| - 1]) else before
  }

  /** The step is the capture of a start or resume that returned `token`, made with this filter, parent and lower bound. */
  ghost predicate Opens(before: OwnerDb, step: Step, token: Id, state: Option<Lifecycle>, parent: Option<Id>, lower: Option<nat>) {
    WellKeyed(before.incidents.ledger) &&
    match step
    case StartStep(state', limit, identity, policy, now, evict) =>
      && Start(before, state', limit, identity, policy, now, evict).Ok?
      && Start(before, state', limit, identity, policy, now, evict).value.1 == token
      && state' == state && parent.None? && lower.None?
    case ResumeStep(b, limit, identity, policy, now, evict) =>
      && Resume(before, b, limit, identity, policy, now, evict).Ok?
      && Resume(before, b, limit, identity, policy, now, evict).value.1 == token
      && parent == Some(b) && before.bookmarks[b].state == state && lower == Some(before.bookmarks[b].watermark)
    case _ => false
  }

  /** The step is a cursor read of `token` that gave this answer. */
  ghost predicate Answers(before: OwnerDb, step: Step, token: Id, answer: PageResult) {
    && step.PageStep? && step.token == token
    && Page(before, token, step.identity, step.policy, step.authorize, step.now).Ok?
    && Page(before, token, step.identity, step.policy, step.authorize, step.now).value.1 == answer
  }

  /** What a later transaction of one call carries over from an earlier one: the capture it binds, the answer it records. */
  ghost predicate Backed(db: OwnerDb, steps: seq<Step>, step: Step) {
    match step
    case BindStep(token, state, parent, lower) =>
      exists i | 0 <= i < |steps| :: Opens(Run(db, steps[..i]), steps[i], token, state, parent, lower)
    case RecordStep(token, answer) =>
      exists i | 0 <= i < |steps| :: Answers(Run(db, steps[..i]), steps[i], token, answer)
    case _ => true
  }

  ghost predicate Legal(db: OwnerDb, steps: seq<Step>)
    decreases |steps|
  {
    steps == [] ||
    var n := |steps| - 1;
    Legal(db, steps[..n]) && Allowed(Run(db, steps[..n]), steps[n]) && Backed(db, steps[..n], steps[n])
  }

  // ---------------------------------------------------------------- the invariant

  ghost predicate ScopeOk(db: OwnerDb, sid: Id, scope: Scope) {
    && sid in db.sessions
    && var s := db.sessions[sid];
    && scope.frame == FrameOf(s) && !s.historyGap
    && Lower(scope) <= s.watermark <= Watermark(db)
    && IsListing(Before, s.items, Captured(db.incidents.ledger, s.watermark, StateFilter(scope.state), Lower(scope)))
    && (scope.parent.Some? <==> scope.parentWatermark.Some?)
    && (scope.parent.Some? ==> scope.parent.value < db.nextId)
    && (scope.parent.Some? && scope.parent.value in db.bookmarks ==>
          var b := db.bookmarks[scope.parent.value];
          Some(b.watermark) == scope.parentWatermark && b.state == scope.state)
  }

  ghost predicate PageOk(db: OwnerDb, p: (Id, nat)) {
    && p.0 in db.scopes && p.0 in db.sessions
    && CursorOk(db, PageCursor(p.0, p.1))
  }

  ghost predicate BookmarkOk(db: OwnerDb, t: Id, b: Bookmark) {
    && t < db.nextId && b.watermark <= Watermark(db)
    && b.session < db.nextId
    && (b.session in db.sessions ==>
          && b.session in db.scopes
          && b.watermark == db.sessions[b.session].watermark && b.state == db.scopes[b.session].state)
  }

  ghost predicate TablesOk(db: OwnerDb) {
    && (forall sid | sid in db.scopes :: ScopeOk(db, sid, db.scopes[sid]))
    && (forall p | p in db.pages :: PageOk(db, p))
    && (forall t | t in db.bookmarks :: BookmarkOk(db, t, db.bookmarks[t]))
  }

  ghost predicate BookmarkQuota(bookmarks: map<Id, Bookmark>) {
    && |bookmarks| <= 32768
    && (forall tenant :: |TenantBookmarks(bookmarks, tenant)| <= 4096)
    && (forall tenant, principal :: |PrincipalBookmarks(bookmarks, tenant, principal)| <= 512)
  }

  ghost predicate BookmarkInv(db: OwnerDb) {
    CursorInv(db) && TablesOk(db) && BookmarkQuota(db.bookmarks)
  }

  lemma InvFresh(db: OwnerDb)
    requires BookmarkInv(db)
    ensures KeysFresh(db)
  {
    forall sid | sid in db.scopes ensures sid < db.nextId {
      assert ScopeOk(db, sid, db.scopes[sid]);
    }
    forall t | t in db.cursors ensures db.cursors[t].session < db.nextId {
      assert CursorOk(db, db.cursors[t]);
    }
    forall t | t in db.bookmarks ensures t < db.nextId {
      assert BookmarkOk(db, t, db.bookmarks[t]);
    }
  }

  /** An empty database over any store that has only its baseline satisfies the invariant. */
  function Fresh(incidents: IncidentDb, baselineAt: Time): OwnerDb {
    OwnerDb(incidents, baselineAt, map[], map[], map[], map[], map[], 0, 0)
  }

  lemma FreshInv(incidents: IncidentDb, baselineAt: Time)
    requires Valid(incidents)
    ensures BookmarkInv(Fresh(incidents, baselineAt))
  {
    var db := Fresh(incidents, baselineAt);
    assert ItemSum(db.sessions, 0, None) == 0;
    assert forall tenant :: ItemSum(db.sessions, 0, Some(tenant)) == 0;
    assert forall tenant :: TenantSessions(db.sessions, tenant) == {};
    assert forall tenant, principal :: PrincipalSessions(db.sessions, tenant, principal) == {};
    assert forall tenant :: TenantBookmarks(db.bookmarks, tenant) == {};
    assert forall tenant, principal :: PrincipalBookmarks(db.bookmarks, tenant, principal) == {};
  }

  // ---------------------------------------------------------------- each transaction keeps the invariant

  lemma IncidentKeepsInv(db: OwnerDb, u: Update, now: Time)
    requires BookmarkInv(db)
    ensures BookmarkInv(db.(incidents := Apply(db.incidents, u, now)))
    ensures Evolves(db, db.(incidents := Apply(db.incidents, u, now)))
  {
    ApplyKeepsValid(db.incidents, u, now);
    GrownLedgerKeepsInv(db, Apply(db.incidents, u, now));
  }

  lemma GrownLedgerKeepsInv(db: OwnerDb, incidents: IncidentDb)
    requires BookmarkInv(db) && Valid(incidents) && db.incidents.ledger <= incidents.ledger
    ensures BookmarkInv(db.(incidents := incidents))
  {
    var db' := db.(incidents := incidents);
    GrownLedgerKeepsCursors(db, incidents);
    forall sid | sid in db'.scopes ensures ScopeOk(db', sid, db'.scopes[sid]) {
      var scope := db.scopes[sid];
      assert ScopeOk(db, sid, scope);
      CapturedStable(db.incidents.ledger, incidents.ledger, db.sessions[sid].watermark, StateFilter(scope.state), Lower(scope));
    }
    forall p | p in db'.pages ensures PageOk(db', p) {
      assert PageOk(db, p);
    }
    forall t | t in db'.bookmarks ensures BookmarkOk(db', t, db'.bookmarks[t]) {
      assert BookmarkOk(db, t, db.bookmarks[t]);
    }
  }

  lemma GrownLedgerKeepsCursors(db: OwnerDb, incidents: IncidentDb)
    requires CursorInv(db) && Valid(incidents) && db.incidents.ledger <= incidents.ledger
    ensures CursorInv(db.(incidents := incidents))
  {
    var db' := db.(incidents := incidents);
    assert Quotas(db');
    forall sid | sid in db'.sessions ensures SessionOk(db', db'.sessions[sid]) {
      assert SessionOk(db, db.sessions[sid]);
    }
    forall t | t in db'.cursors ensures CursorOk(db', db'.cursors[t]) {
      assert CursorOk(db, db.cursors[t]);
    }
  }

  lemma DropSessionKeepsTables(db: OwnerDb, evict: Option<Id>)
    requires TablesOk(db)
    ensures TablesOk(DropSession(db, evict)) && DropSession(db, evict).bookmarks == db.bookmarks
  {
    var db' := DropSession(db, evict);
    forall sid | sid in db'.scopes ensures ScopeOk(db', sid, db'.scopes[sid]) {
      assert ScopeOk(db, sid, db.scopes[sid]);
    }
    forall p | p in db'.pages ensures PageOk(db', p) {
      assert PageOk(db, p);
    }
    forall t | t in db'.bookmarks ensures BookmarkOk(db', t, db'.bookmarks[t]) {
      assert BookmarkOk(db, t, db.bookmarks[t]);
    }
  }

  lemma DropSessionKeepsInv(db: OwnerDb, evict: Option<Id>)
    requires BookmarkInv(db)
    ensures BookmarkInv(DropSession(db, evict))
  {
    hide CursorInv, TablesOk, BookmarkQuota, DropSession;
    DropKeepsInv(db, evict);
    DropSessionKeepsTables(db, evict);
  }

  lemma InsertSessionKeepsTables(db: OwnerDb, s: Session)
    requires TablesOk(db) && forall sid | sid in db.sessions :: sid < db.nextId
    ensures TablesOk(InsertSession(db, s))
  {
    var db' := InsertSession(db, s);
    forall sid | sid in db'.scopes ensures ScopeOk(db', sid, db'.scopes[sid]) {
      assert ScopeOk(db, sid, db.scopes[sid]);
    }
    forall p | p in db'.pages ensures PageOk(db', p) {
      assert PageOk(db, p);
    }
    forall t | t in db'.bookmarks ensures BookmarkOk(db', t, db'.bookmarks[t]) {
      assert BookmarkOk(db, t, db.bookmarks[t]);
    }
  }

  lemma InsertSessionKeepsInv(db: OwnerDb, s: Session)
    requires BookmarkInv(db) && SessionOk(db, s)
    requires !SessionsFull(db.sessions, s.identity) && |s.items| <= Available(db.sessions, db.nextId, s.identity, s.limit)
    ensures BookmarkInv(InsertSession(db, s))
  {
    SessionsBelow(db);
    hide CursorInv, TablesOk, InsertSession, SessionOk, SessionsFull, Available;
    InsertKeepsInv(db, s);
    InsertSessionKeepsTables(db, s);
  }

  lemma SessionsBelow(db: OwnerDb)
    requires CursorInv(db)
    ensures forall sid | sid in db.sessions :: sid < db.nextId
  {
  }

  lemma InvKeyed(db: OwnerDb)
    requires BookmarkInv(db)
    ensures WellKeyed(db.incidents.ledger)
  {
  }

  lemma ItemsListed(ledger: seq<Entry>, f: Filter, lower: nat)
    requires WellKeyed(ledger)
    ensures IsListing(Before, CaptureItems(ledger, f, lower), Captured(ledger, |ledger|, f, lower))
  {
    CapturedDistinct(ledger, |ledger|, f, lower);
    PriorityIsTotal(Captured(ledger, |ledger|, f, lower));
  }

  lemma AdmitKeepsInv(db: OwnerDb, f: Filter, limit: nat, lower: Option<nat>, identity: Identity, policy: string, now: Time)
    requires BookmarkInv(db) && Admit(db, f, limit, lower, identity, policy, now).Ok?
    ensures BookmarkInv(Admit(db, f, limit, lower, identity, policy, now).value.0)
  {
    var items := CaptureItems(db.incidents.ledger, f, if lower.Some? then lower.value else 0);
    InsertSessionKeepsInv(db, NewSession(db, f, limit, identity, policy, now, items));
  }

  ghost predicate CaptureShape(db: OwnerDb, f: Filter, limit: nat, lower: Option<nat>, identity: Identity, policy: string,
                               evict: Option<Id>, db': OwnerDb, token: Id) {
    && token in db'.cursors && db'.cursors[token] == PageCursor(db.nextId, 0)
    && db'.incidents == db.incidents && db'.bookmarks == DropSession(db, evict).bookmarks
    && db.nextId in db'.sessions && db.nextId !in db'.scopes
    && StoredAs(db, f, limit, lower, identity, policy, db'.sessions[db.nextId])
  }

  lemma AdmitResult(db: OwnerDb, f: Filter, limit: nat, lower: Option<nat>, identity: Identity, policy: string,
                    now: Time, evict: Option<Id>)
    requires WellKeyed(db.incidents.ledger)
    requires Capture(db, f, limit, lower, identity, policy, now, evict).Ok?
    ensures
      var lo := if lower.Some? then lower.value else 0;
      var dropped := DropSession(db, evict);
      && lo <= Watermark(db) && dropped.nextId == db.nextId && dropped.incidents == db.incidents && dropped.scopes.Keys <= db.scopes.Keys
      && Capture(db, f, limit, lower, identity, policy, now, evict).value ==
           (InsertSession(dropped, NewSession(dropped, f, limit, identity, policy, now, CaptureItems(db.incidents.ledger, f, lo))),
            db.nextId + 1)
  {
    hide WellKeyed, CaptureItems, InsertSession, NewSession, SessionsFull, Available;
  }

  lemma InsertedShape(db: OwnerDb, dropped: OwnerDb, f: Filter, limit: nat, lower: Option<nat>, identity: Identity,
                      policy: string, now: Time, evict: Option<Id>, items: seq<Incident>)
    requires dropped == DropSession(db, evict) && dropped.nextId == db.nextId && dropped.incidents == db.incidents
    requires db.nextId !in dropped.scopes
    requires var lo := if lower.Some? then lower.value else 0;
      lo <= Watermark(db) && IsListing(Before, items, Captured(db.incidents.ledger, Watermark(db), f, lo))
    ensures CaptureShape(db, f, limit, lower, identity, policy, evict,
                         InsertSession(dropped, NewSession(dropped, f, limit, identity, policy, now, items)), db.nextId + 1)
  {
    hide Captured, IsListing, DropSession;
  }

  lemma AdmitShape(db: OwnerDb, f: Filter, limit: nat, lower: Option<nat>, identity: Identity, policy: string,
                   now: Time, evict: Option<Id>)
    requires WellKeyed(db.incidents.ledger) && db.nextId !in db.scopes
    requires Capture(db, f, limit, lower, identity, policy, now, evict).Ok?
    ensures CaptureShape(db, f, limit, lower, identity, policy, evict,
                         Capture(db, f, limit, lower, identity, policy, now, evict).value.0,
                         Capture(db, f, limit, lower, identity, policy, now, evict).value.1)
  {
    hide *;
    AdmitResult(db, f, limit, lower, identity, policy, now, evict);
    WatermarkIs(db);
    var lo := if lower.Some? then lower.value else 0;
    ItemsListed(db.incidents.ledger, f, lo);
    var items := CaptureItems(db.incidents.ledger, f, lo);
    InsertedShape(db, DropSession(db, evict), f, limit, lower, identity, policy, now, evict, items);
  }

  lemma WatermarkIs(db: OwnerDb)
    ensures Watermark(db) == |db.incidents.ledger|
  {
  }

  /** What a successful capture has stored. */
  lemma CaptureStores(db: OwnerDb, f: Filter, limit: nat, lower: Option<nat>, identity: Identity, policy: string,
                      now: Time, evict: Option<Id>)
    requires BookmarkInv(db)
    requires Capture(db, f, limit, lower, identity, policy, now, evict).Ok?
    ensures
      var (db', token) := Capture(db, f, limit, lower, identity, policy, now, evict).value;
      BookmarkInv(db') && Evolves(db, db') && CaptureShape(db, f, limit, lower, identity, policy, evict, db', token)
  {
    DropSessionKeepsInv(db, evict);
    InvFresh(db);
    AdmitKeepsInv(DropSession(db, evict), f, limit, lower, identity, policy, now);
    CaptureEvolves(db, f, limit, lower, identity, policy, now, evict);
    hide CursorInv, Evolves, WellKeyed, Admit, ScopeOk, PageOk, BookmarkOk, CaptureShape;
    AdmitShape(db, f, limit, lower, identity, policy, now, evict);
  }

  /** A stored session holds the listing of its capture at the watermark it records. */
  ghost predicate StoredAs(db: OwnerDb, f: Filter, limit: nat, lower: Option<nat>, identity: Identity, policy: string, s: Session) {
    var lo := if lower.Some? then lower.value else 0;
    && lo <= Watermark(db)
    && s.identity == identity && s.policy == policy && s.limit == limit && s.watermark == Watermark(db)
    && (f.since.None? ==> !s.historyGap)
    && IsListing(Before, s.items, Captured(db.incidents.ledger, Watermark(db), f, lo))
  }

  /** Transactions that write only the bookmark tables leave the cursor invariant alone. */
  lemma CursorFrame(db: OwnerDb, db': OwnerDb)
    requires CursorInv(db) && db.nextId <= db'.nextId
    requires db'.incidents == db.incidents && db'.sessions == db.sessions && db'.cursors == db.cursors
    ensures CursorInv(db')
  {
    assert ItemQuota(db') by {
      ItemSumBeyond(db.sessions, db.nextId, db'.nextId, None);
      forall tenant ensures ItemSum(db'.sessions, db'.nextId, Some(tenant)) <= 64_000 {
        ItemSumBeyond(db.sessions, db.nextId, db'.nextId, Some(tenant));
      }
    }
    assert CountQuota(db');
    forall s | s in db'.sessions ensures s < db'.nextId && SessionOk(db', db'.sessions[s]) {
      assert SessionOk(db, db.sessions[s]);
    }
    forall t | t in db'.cursors ensures t < db'.nextId && CursorOk(db', db'.cursors[t]) {
      assert CursorOk(db, db.cursors[t]);
    }
  }

  lemma AddScopeKeepsTables(db: OwnerDb, sid: Id, scope: Scope)
    requires TablesOk(db) && sid !in db.scopes && ScopeOk(db, sid, scope)
    requires forall t | t in db.bookmarks :: db.bookmarks[t].session != sid
    ensures TablesOk(AddScope(db, sid, scope))
  {
    hide Captured, Before, IsListing, FrameOf, CursorOk;
    var db' := AddScope(db, sid, scope);
    forall s | s in db'.scopes ensures ScopeOk(db', s, db'.scopes[s]) {
      assert ScopeOk(db, s, db'.scopes[s]);
    }
    forall p | p in db'.pages ensures PageOk(db', p) {
      assert PageOk(db, p);
      SameCursorOk(db, db', PageCursor(p.0, p.1));
    }
    forall t | t in db'.bookmarks ensures BookmarkOk(db', t, db'.bookmarks[t]) {
      assert BookmarkOk(db, t, db.bookmarks[t]);
    }
  }

  lemma SameCursorOk(db: OwnerDb, db': OwnerDb, c: PageCursor)
    requires CursorOk(db, c) && db'.sessions == db.sessions
    ensures CursorOk(db', c)
  {
  }

  lemma AddScopeKeepsInv(db: OwnerDb, sid: Id, scope: Scope)
    requires BookmarkInv(db) && sid !in db.scopes && ScopeOk(db, sid, scope)
    requires forall t | t in db.bookmarks :: db.bookmarks[t].session != sid
    ensures BookmarkInv(AddScope(db, sid, scope))
  {
    hide CursorInv, TablesOk, BookmarkQuota, ScopeOk;
    CursorFrame(db, AddScope(db, sid, scope));
    AddScopeKeepsTables(db, sid, scope);
  }

  /** Writing cursors alone leaves the other tables alone. */
  lemma TablesFrame(db: OwnerDb, db': OwnerDb)
    requires TablesOk(db) && db' == db.(cursors := db'.cursors, nextId := db'.nextId) && db.nextId <= db'.nextId
    ensures TablesOk(db')
  {
    hide Captured, Before, IsListing, FrameOf;
    forall s | s in db'.scopes ensures ScopeOk(db', s, db'.scopes[s]) {
      assert ScopeOk(db, s, db.scopes[s]);
    }
    forall p | p in db'.pages ensures PageOk(db', p) {
      assert PageOk(db, p);
    }
    forall t | t in db'.bookmarks ensures BookmarkOk(db', t, db'.bookmarks[t]) {
      assert BookmarkOk(db, t, db.bookmarks[t]);
    }
  }

  lemma CursorsBelow(db: OwnerDb)
    requires CursorInv(db)
    ensures forall t | t in db.cursors :: t < db.nextId
  {
  }

  lemma FollowingCursorKeepsBookmarks(db: OwnerDb, sid: Id, position: nat)
    requires BookmarkInv(db) && CursorOk(db, PageCursor(sid, position))
    ensures BookmarkInv(FollowingCursor(db, sid, position).0)
  {
    hide CursorInv, TablesOk, FollowingCursor, BookmarkQuota;
    CursorsBelow(db);
    FollowingCursorKeepsInv(db, sid, position);
    FollowingCursorEvolves(db, sid, position);
    TablesFrame(db, FollowingCursor(db, sid, position).0);
  }

  lemma NextPositionOk(db: OwnerDb, c: PageCursor)
    requires CursorInv(db) && CursorOk(db, c) && Truncated(db, c)
    ensures CursorOk(db, PageCursor(c.session, NextPosition(db, c)))
  {
    var s := db.sessions[c.session];
    SliceEnds(s, c.position);
    var k: nat :| PageStart(s.limit, k) == c.position;
    assert PageStart(s.limit, k + 1) == c.position + s.limit;
    assert NextPosition(db, c) == c.position + s.limit;
  }

  lemma PageKeepsBookmarks(db: OwnerDb, c: PageCursor)
    requires BookmarkInv(db) && CursorOk(db, c)
    ensures BookmarkInv(PageDb(db, c)) && Evolves(db, PageDb(db, c))
  {
    PageEvolves(db, c);
    if Truncated(db, c) {
      NextPositionOk(db, c);
      FollowingCursorKeepsBookmarks(db, c.session, NextPosition(db, c));
      assert PageDb(db, c) == FollowingCursor(db, c.session, NextPosition(db, c)).0;
    }
  }

  lemma RecordKeepsInv(db: OwnerDb, sid: Id, position: nat, complete: bool)
    requires BookmarkInv(db) && PageOk(db, (sid, position))
    ensures BookmarkInv(RecordPage(db, sid, position, complete)) && Evolves(db, RecordPage(db, sid, position, complete))
  {
    var db' := RecordPage(db, sid, position, complete);
    CursorFrame(db, db');
    forall s | s in db'.scopes ensures ScopeOk(db', s, db'.scopes[s]) {
      assert ScopeOk(db, s, db.scopes[s]);
    }
    forall p | p in db'.pages ensures PageOk(db', p) {
      assert p != (sid, position) ==> PageOk(db, p);
    }
    forall t | t in db'.bookmarks ensures BookmarkOk(db', t, db'.bookmarks[t]) {
      assert BookmarkOk(db, t, db.bookmarks[t]);
    }
  }

  lemma SmallerQuota(a: map<Id, Bookmark>, b: map<Id, Bookmark>)
    requires BookmarkQuota(a) && b.Keys <= a.Keys && forall t | t in b :: b[t] == a[t]
    ensures BookmarkQuota(b)
  {
    SubsetSize(b.Keys, a.Keys);
    forall tenant ensures |TenantBookmarks(b, tenant)| <= 4096 {
      SubsetSize(TenantBookmarks(b, tenant), TenantBookmarks(a, tenant));
    }
    forall tenant, principal ensures |PrincipalBookmarks(b, tenant, principal)| <= 512 {
      SubsetSize(PrincipalBookmarks(b, tenant, principal), PrincipalBookmarks(a, tenant, principal));
    }
  }

  lemma TenantAdded(bookmarks: map<Id, Bookmark>, t: Id, b: Bookmark, tenant: string)
    requires t !in bookmarks
    ensures |TenantBookmarks(bookmarks[t := b], tenant)|
         == |TenantBookmarks(bookmarks, tenant)| + (if tenant == b.identity.tenant then 1 else 0)
  {
    var before := TenantBookmarks(bookmarks, tenant);
    assert TenantBookmarks(bookmarks[t := b], tenant) == if tenant == b.identity.tenant then before + {t} else before;
  }

  lemma PrincipalAdded(bookmarks: map<Id, Bookmark>, t: Id, b: Bookmark, tenant: string, principal: string)
    requires t !in bookmarks
    ensures |PrincipalBookmarks(bookmarks[t := b], tenant, principal)| == |PrincipalBookmarks(bookmarks, tenant, principal)|
          + (if tenant == b.identity.tenant && principal == b.identity.principal then 1 else 0)
  {
    var before := PrincipalBookmarks(bookmarks, tenant, principal);
    assert PrincipalBookmarks(bookmarks[t := b], tenant, principal)
        == if tenant == b.identity.tenant && principal == b.identity.principal then before + {t} else before;
  }

  lemma InsertKeepsQuota(bookmarks: map<Id, Bookmark>, t: Id, b: Bookmark)
    requires BookmarkQuota(bookmarks) && t !in bookmarks && !BookmarksFull(bookmarks, b.identity)
    ensures BookmarkQuota(bookmarks[t := b])
  {
    var after := bookmarks[t := b];
    assert after.Keys == bookmarks.Keys + {t};
    hide TenantBookmarks, PrincipalBookmarks;
    forall tenant ensures |TenantBookmarks(after, tenant)| <= 4096 {
      TenantAdded(bookmarks, t, b, tenant);
    }
    forall tenant, principal ensures |PrincipalBookmarks(after, tenant, principal)| <= 512 {
      PrincipalAdded(bookmarks, t, b, tenant, principal);
    }
  }

  lemma BookmarkTableKeepsInv(db: OwnerDb, bookmarks: map<Id, Bookmark>, nextId: Id)
    requires BookmarkInv(db) && db.nextId <= nextId && BookmarkQuota(bookmarks)
    requires forall t | t in bookmarks :: BookmarkOk(db.(nextId := nextId), t, bookmarks[t])
    requires forall t | t in bookmarks && t in db.bookmarks :: bookmarks[t] == db.bookmarks[t]
    requires forall t | t in bookmarks && t !in db.bookmarks :: t >= db.nextId
    ensures BookmarkInv(db.(bookmarks := bookmarks, nextId := nextId))
    ensures Evolves(db, db.(bookmarks := bookmarks, nextId := nextId))
  {
    hide CursorInv, BookmarkQuota;
    var db' := db.(bookmarks := bookmarks, nextId := nextId);
    SessionsBelow(db);
    CursorFrame(db, db');
    forall s | s in db'.scopes ensures ScopeOk(db', s, db'.scopes[s]) {
      var scope := db.scopes[s];
      assert ScopeOk(db, s, scope);
    }
    forall p | p in db'.pages ensures PageOk(db', p) {
      assert PageOk(db, p);
    }
    forall t | t in db'.bookmarks ensures BookmarkOk(db', t, db'.bookmarks[t]) {
      assert BookmarkOk(db.(nextId := nextId), t, bookmarks[t]);
    }
  }

  /** The cursor's session, if it can still be bound, holds the capture with this filter and bound. */
  ghost predicate Bindable(db: OwnerDb, token: Id, state: Option<Lifecycle>, parent: Option<Id>, lower: Option<nat>) {
    Bind(db, token, state, parent, lower).Ok? ==>
      var sid := db.cursors[token].session;
      ScopeOk(db, sid, NewScope(db.sessions[sid], state, parent, lower))
  }

  lemma Unbound(db: OwnerDb, sid: Id)
    requires BookmarkInv(db) && sid in db.sessions && sid !in db.scopes
    ensures forall t | t in db.bookmarks :: db.bookmarks[t].session != sid
  {
    forall t | t in db.bookmarks ensures db.bookmarks[t].session != sid {
      assert BookmarkOk(db, t, db.bookmarks[t]);
    }
  }

  lemma AddScopeEvolves(db: OwnerDb, sid: Id, scope: Scope)
    requires sid !in db.scopes
    ensures Evolves(db, AddScope(db, sid, scope))
  {
  }

  lemma BindKeepsInv(db: OwnerDb, token: Id, state: Option<Lifecycle>, parent: Option<Id>, lower: Option<nat>)
    requires BookmarkInv(db) && Bindable(db, token, state, parent, lower) && Bind(db, token, state, parent, lower).Ok?
    ensures BookmarkInv(Bind(db, token, state, parent, lower).value) && Evolves(db, Bind(db, token, state, parent, lower).value)
  {
    hide BookmarkInv, ScopeOk, Evolves, NewScope, AddScope;
    var sid := db.cursors[token].session;
    Unbound(db, sid);
    AddScopeKeepsInv(db, sid, NewScope(db.sessions[sid], state, parent, lower));
    AddScopeEvolves(db, sid, NewScope(db.sessions[sid], state, parent, lower));
  }

  /** What a start or resume captured: `first` is the token of its first page, `after` the database it left. */
  ghost predicate OpenedAs(before: OwnerDb, after: OwnerDb, token: Id, state: Option<Lifecycle>, parent: Option<Id>, lower: Option<nat>) {
    && BookmarkInv(after) && Evolves(before, after) && after.incidents == before.incidents
    && token == before.nextId + 1 && token in after.cursors && after.cursors[token] == PageCursor(before.nextId, 0)
    && before.nextId in after.sessions && before.nextId < after.nextId && token < after.nextId
    && var s := after.sessions[before.nextId];
    && s.watermark == Watermark(before) && !s.historyGap
    && var lo := if lower.Some? then lower.value else 0;
    && lo <= Watermark(before)
    && IsListing(Before, s.items, Captured(before.incidents.ledger, Watermark(before), StateFilter(state), lo))
    && (parent.Some? <==> lower.Some?)
    && (parent.Some? ==> && parent.value in before.bookmarks && parent.value < before.nextId
                         && before.bookmarks[parent.value].state == state && Some(before.bookmarks[parent.value].watermark) == lower)
  }

  lemma CaptureOpens(db: OwnerDb, state: Option<Lifecycle>, limit: nat, lower: Option<nat>, identity: Identity, policy: string,
                     now: Time, evict: Option<Id>)
    requires BookmarkInv(db)
    requires Capture(db, StateFilter(state), limit, lower, identity, policy, now, evict).Ok?
    ensures
      var (after, token) := Capture(db, StateFilter(state), limit, lower, identity, policy, now, evict).value;
      && BookmarkInv(after) && Evolves(db, after) && after.incidents == db.incidents
      && token == db.nextId + 1 && token in after.cursors && after.cursors[token] == PageCursor(db.nextId, 0)
      && db.nextId in after.sessions && token < after.nextId
      && StoredAs(db, StateFilter(state), limit, lower, identity, policy, after.sessions[db.nextId])
  {
    hide BookmarkInv, Evolves, Capture, StoredAs;
    InvKeyed(db);
    CaptureStores(db, StateFilter(state), limit, lower, identity, policy, now, evict);
    CaptureToken(db, StateFilter(state), limit, lower, identity, policy, now, evict);
  }

  lemma CaptureToken(db: OwnerDb, f: Filter, limit: nat, lower: Option<nat>, identity: Identity, policy: string, now: Time, evict: Option<Id>)
    requires WellKeyed(db.incidents.ledger)
    requires Capture(db, f, limit, lower, identity, policy, now, evict).Ok?
    ensures
      var (after, token) := Capture(db, f, limit, lower, identity, policy, now, evict).value;
      token == db.nextId + 1 && token < after.nextId
  {
    hide WellKeyed, CaptureItems, SessionsFull, Available, NewSession;
  }

  lemma OpensAs(before: OwnerDb, step: Step, token: Id, state: Option<Lifecycle>, parent: Option<Id>, lower: Option<nat>)
    requires BookmarkInv(before) && Opens(before, step, token, state, parent, lower)
    ensures OpenedAs(before, Exec(before, step), token, state, parent, lower)
  {
    hide BookmarkInv, Evolves, Capture, WellKeyed, IsListing, Captured;
    match step
    case StartStep(_, limit, identity, policy, now, evict) =>
      CaptureOpens(before, state, limit, None, identity, policy, now, evict);
    case ResumeStep(b, limit, identity, policy, now, evict) =>
      CaptureOpens(before, state, limit, lower, identity, policy, now, evict);
      BookmarkBelow(before, b);
  }

  lemma BookmarkBelow(db: OwnerDb, t: Id)
    requires BookmarkInv(db) && t in db.bookmarks
    ensures t < db.nextId
  {
    assert BookmarkOk(db, t, db.bookmarks[t]);
  }

  lemma OpenedParent(before: OwnerDb, after: OwnerDb, later: OwnerDb, token: Id, state: Option<Lifecycle>, parent: Option<Id>,
                     lower: Option<nat>)
    requires OpenedAs(before, after, token, state, parent, lower) && Evolves(before, later)
    ensures parent.Some? <==> lower.Some?
    ensures parent.Some? ==> parent.value < later.nextId
    ensures parent.Some? && parent.value in later.bookmarks ==>
              later.bookmarks[parent.value].state == state && Some(later.bookmarks[parent.value].watermark) == lower
  {
    hide BookmarkInv, Captured, IsListing;
  }

  lemma OpenedSession(before: OwnerDb, after: OwnerDb, later: OwnerDb, token: Id, state: Option<Lifecycle>, parent: Option<Id>,
                      lower: Option<nat>)
    requires OpenedAs(before, after, token, state, parent, lower)
    requires BookmarkInv(later) && Evolves(after, later) && Evolves(before, later)
    requires token in later.cursors && later.cursors[token].session in later.sessions
    ensures later.cursors[token] == PageCursor(before.nextId, 0)
    ensures
      var s := later.sessions[before.nextId];
      var lo := if lower.Some? then lower.value else 0;
      && !s.historyGap && lo <= s.watermark <= Watermark(later)
      && IsListing(Before, s.items, Captured(later.incidents.ledger, s.watermark, StateFilter(state), lo))
  {
    hide BookmarkInv, Captured, IsListing;
    EvolvedSession(after, later, token);
    InvKeyed(later);
    var lo := if lower.Some? then lower.value else 0;
    CapturedStable(before.incidents.ledger, later.incidents.ledger, Watermark(before), StateFilter(state), lo);
  }

  /** A capture can be bound at any later time. */
  lemma OpenedIsBindable(before: OwnerDb, after: OwnerDb, later: OwnerDb, token: Id, state: Option<Lifecycle>, parent: Option<Id>,
                         lower: Option<nat>)
    requires OpenedAs(before, after, token, state, parent, lower)
    requires BookmarkInv(later) && Evolves(after, later) && Evolves(before, later)
    ensures Bindable(later, token, state, parent, lower)
  {
    hide OpenedAs, BookmarkInv, Evolves, Captured, IsListing, FrameOf, AddScope;
    if Bind(later, token, state, parent, lower).Ok? {
      OpenedSession(before, after, later, token, state, parent, lower);
      OpenedParent(before, after, later, token, state, parent, lower);
    }
  }

  lemma EvolvedSession(db: OwnerDb, later: OwnerDb, token: Id)
    requires BookmarkInv(db) && Evolves(db, later) && token in db.cursors && token < db.nextId && token in later.cursors
    requires later.cursors[token].session in later.sessions
    ensures later.cursors[token] == db.cursors[token]
    ensures db.cursors[token].session in db.sessions
    ensures later.sessions[db.cursors[token].session] == db.sessions[db.cursors[token].session]
  {
    assert CursorOk(db, db.cursors[token]);
  }

  /** A recorded read writes what the cursor read writes, and perhaps the record. */
  lemma ReadPageIs(db: OwnerDb, token: Id, identity: Identity, policy: string, authorize: Incident -> bool, now: Time)
    ensures
      match Page(db, token, identity, policy, authorize, now)
      case Err(e) => ReadPage(db, token, identity, policy, authorize, now) == (db, Err(e))
      case Ok((db1, page)) =>
        && token in db.cursors && db.cursors[token].session in db.sessions && page.session == db.cursors[token].session
        && db1 == PageDb(db, db.cursors[token])
        && ReadPage(db, token, identity, policy, authorize, now) ==
             match Record(db1, token, page.partial)
             case Err(e) => (db1, Err(e))
             case Ok(db2) => (db2, Ok(page))
  {
    hide PageDb, PageNext, Slice, Visible, Truncated, Record;
  }

  lemma RecordIs(db: OwnerDb, token: Id, partial: bool)
    requires BookmarkInv(db) && Record(db, token, partial).Ok?
    ensures token in db.cursors && CursorOk(db, db.cursors[token])
    ensures PageOk(db, (db.cursors[token].session, db.cursors[token].position))
    ensures Record(db, token, partial).value == RecordPage(db, db.cursors[token].session, db.cursors[token].position, !partial)
  {
    assert CursorOk(db, db.cursors[token]);
  }

  lemma RecordStepKeepsInv(db: OwnerDb, token: Id, partial: bool)
    requires BookmarkInv(db)
    ensures BookmarkInv(Kept(db, Record(db, token, partial))) && Evolves(db, Kept(db, Record(db, token, partial)))
  {
    hide BookmarkInv, Evolves, Record, PageOk, CursorOk;
    EvolvesReflexive(db);
    if Record(db, token, partial).Ok? {
      RecordIs(db, token, partial);
      RecordKeepsInv(db, db.cursors[token].session, db.cursors[token].position, !partial);
    }
  }

  lemma DropBookmarkKeepsInv(db: OwnerDb, drop: Option<Id>)
    requires BookmarkInv(db)
    ensures BookmarkInv(DropBookmark(db, drop)) && Evolves(db, DropBookmark(db, drop))
  {
    if drop.Some? {
      SmallerQuota(db.bookmarks, db.bookmarks - {drop.value});
      BookmarkTableKeepsInv(db, db.bookmarks - {drop.value}, db.nextId);
      assert DropBookmark(db, drop) == db.(bookmarks := db.bookmarks - {drop.value}, nextId := db.nextId);
    }
  }

  lemma InsertBookmarkKeepsInv(db: OwnerDb, b: Bookmark)
    requires BookmarkInv(db) && BookmarkOk(db.(nextId := db.nextId + 1), db.nextId, b)
    requires !BookmarksFull(db.bookmarks, b.identity)
    ensures BookmarkInv(InsertBookmark(db, b))
    ensures Evolves(db, InsertBookmark(db, b))
  {
    hide CursorInv, ScopeOk, PageOk, BookmarkQuota, BookmarksFull;
    var bookmarks' := db.bookmarks[db.nextId := b];
    forall t | t in bookmarks' ensures BookmarkOk(db.(nextId := db.nextId + 1), t, bookmarks'[t]) {
      assert t != db.nextId ==> BookmarkOk(db, t, db.bookmarks[t]);
    }
    forall t | t in db.bookmarks ensures t < db.nextId {
      assert BookmarkOk(db, t, db.bookmarks[t]);
    }
    InsertKeepsQuota(db.bookmarks, db.nextId, b);
    BookmarkTableKeepsInv(db, bookmarks', db.nextId + 1);
  }

  lemma SessionBelow(db: OwnerDb, sid: Id)
    requires BookmarkInv(db) && sid in db.scopes
    ensures sid < db.nextId && ScopeOk(db, sid, db.scopes[sid])
  {
  }

  lemma NewBookmarkOk(db: OwnerDb, db1: OwnerDb, sid: Id, now: Time)
    requires BookmarkInv(db) && sid in db.sessions && sid in db.scopes
    requires db1 == db.(bookmarks := db1.bookmarks)
    ensures BookmarkOk(db1.(nextId := db1.nextId + 1), db1.nextId, NewBookmark(db, sid, now))
  {
    SessionBelow(db, sid);
    hide CursorInv, BookmarkQuota;
  }

  lemma IssueNewKeepsInv(db: OwnerDb, sid: Id, now: Time, drop: Option<Id>)
    requires BookmarkInv(db) && sid in db.sessions && sid in db.scopes
    requires !BookmarksFull(DropBookmark(db, drop).bookmarks, db.sessions[sid].identity)
    ensures BookmarkInv(InsertBookmark(DropBookmark(db, drop), NewBookmark(db, sid, now)))
    ensures Evolves(db, InsertBookmark(DropBookmark(db, drop), NewBookmark(db, sid, now)))
  {
    var db1, b := DropBookmark(db, drop), NewBookmark(db, sid, now);
    assert db1 == db.(bookmarks := db1.bookmarks);
    assert b.identity.tenant == db.sessions[sid].identity.tenant && b.identity.principal == db.sessions[sid].identity.principal;
    hide BookmarkInv, Evolves, DropBookmark, NewBookmark, BookmarkOk, InsertBookmark, BookmarkQuota;
    DropBookmarkKeepsInv(db, drop);
    InvFresh(db);
    NewBookmarkOk(db, db1, sid, now);
    InsertBookmarkKeepsInv(db1, b);
    EvolvesTransitive(db, db1, InsertBookmark(db1, b));
  }

  /** Issuing keeps the invariant, and the token it returns marks exactly this session's boundary. */
  lemma IssueMarksBoundary(db: OwnerDb, sid: Id, now: Time, reuse: Option<Id>, drop: Option<Id>)
    requires BookmarkInv(db) && Issue(db, sid, now, reuse, drop).Ok?
    requires ReuseChoice(db, sid, now, reuse)
    ensures
      var (db', token) := Issue(db, sid, now, reuse, drop).value;
      && BookmarkInv(db') && Evolves(db, db')
      && token in db'.bookmarks && db'.incidents == db.incidents
      && db'.bookmarks[token].watermark == db.sessions[sid].watermark
      && db'.bookmarks[token].state == db.scopes[sid].state
  {
    EvolvesReflexive(db);
    hide CursorInv, Evolves, PageOk;
    if reuse.Some? {
      assert BookmarkOk(db, reuse.value, db.bookmarks[reuse.value]);
    } else {
      IssueNewKeepsInv(db, sid, now, drop);
    }
  }

  lemma EvolvesReflexive(db: OwnerDb)
    ensures Evolves(db, db)
  {
  }

  lemma InvCursor(db: OwnerDb, token: Id)
    requires BookmarkInv(db) && token in db.cursors
    ensures CursorOk(db, db.cursors[token])
  {
  }

  lemma CaptureStepsKeepInv(db: OwnerDb, step: Step)
    requires BookmarkInv(db) && WellKeyed(db.incidents.ledger) && (step.CaptureStep? || step.StartStep? || step.ResumeStep?)
    ensures BookmarkInv(Exec(db, step)) && Evolves(db, Exec(db, step))
  {
    EvolvesReflexive(db);
    hide BookmarkInv, Evolves, Capture, Page, Issue, Apply, WellKeyed;
    match step
    case CaptureStep(f, limit, identity, policy, now, evict) =>
      if Capture(db, f, limit, None, identity, policy, now, evict).Ok? {
        CaptureStores(db, f, limit, None, identity, policy, now, evict);
      }
    case StartStep(state, limit, identity, policy, now, evict) =>
      if Start(db, state, limit, identity, policy, now, evict).Ok? {
        CaptureStores(db, StateFilter(state), limit, None, identity, policy, now, evict);
      }
    case ResumeStep(token, limit, identity, policy, now, evict) =>
      if Resume(db, token, limit, identity, policy, now, evict).Ok? {
        var b := db.bookmarks[token];
        CaptureStores(db, StateFilter(b.state), limit, Some(b.watermark), identity, policy, now, evict);
      }
  }

  /** What a step needs: the choices are made as the code makes them, and a scope is bound to its own capture. */
  ghost predicate Ready(db: OwnerDb, step: Step) {
    && Allowed(db, step)
    && (step.BindStep? ==> Bindable(db, step.token, step.state, step.parent, step.parentWatermark))
  }

  lemma QuietStepsKeepInv(db: OwnerDb, step: Step)
    requires BookmarkInv(db) && WellKeyed(db.incidents.ledger) && Ready(db, step)
    requires !step.CaptureStep? && !step.StartStep? && !step.ResumeStep?
    ensures BookmarkInv(Exec(db, step)) && Evolves(db, Exec(db, step))
  {
    EvolvesReflexive(db);
    hide BookmarkInv, Evolves, Capture, Bind, Record, Issue, Apply, WellKeyed, Bindable, EvictionChoice, CleanupChoice, ReuseChoice;
    match step
    case IncidentStep(u, now) => IncidentKeepsInv(db, u, now);
    case PageStep(token, identity, policy, authorize, now) =>
      if Page(db, token, identity, policy, authorize, now).Ok? {
        InvCursor(db, token);
        PageKeepsBookmarks(db, db.cursors[token]);
      }
    case BindStep(token, state, parent, lower) =>
      if Bind(db, token, state, parent, lower).Ok? {
        BindKeepsInv(db, token, state, parent, lower);
      }
    case RecordStep(token, answer) => RecordStepKeepsInv(db, token, answer.partial);
    case IssueStep(sid, now, reuse, drop) =>
      if Issue(db, sid, now, reuse, drop).Ok? {
        IssueHadSession(db, sid, now, reuse, drop);
        IssueMarksBoundary(db, sid, now, reuse, drop);
      }
    case FloorStep(revision) =>
      if db.floor <= revision {
        FloorKeepsInv(db, revision);
      }
  }

  lemma IssueHadSession(db: OwnerDb, sid: Id, now: Time, reuse: Option<Id>, drop: Option<Id>)
    requires Issue(db, sid, now, reuse, drop).Ok?
    ensures sid in db.sessions && sid in db.scopes
  {
  }

  /** Every transaction, committed or rolled back, keeps the invariant and only lets the database evolve. */
  lemma ExecKeepsInv(db: OwnerDb, step: Step)
    requires BookmarkInv(db) && Ready(db, step)
    ensures WellKeyed(db.incidents.ledger) && BookmarkInv(Exec(db, step)) && Evolves(db, Exec(db, step))
  {
    InvKeyed(db);
    hide *;
    if step.CaptureStep? || step.StartStep? || step.ResumeStep? {
      CaptureStepsKeepInv(db, step);
    } else {
      QuietStepsKeepInv(db, step);
    }
  }

  lemma FloorKeepsInv(db: OwnerDb, revision: nat)
    requires BookmarkInv(db) && db.floor <= revision
    ensures BookmarkInv(db.(floor := revision)) && Evolves(db, db.(floor := revision))
  {
    var db' := db.(floor := revision);
    CursorFrame(db, db');
    forall s | s in db'.scopes ensures ScopeOk(db', s, db'.scopes[s]) {
      assert ScopeOk(db, s, db.scopes[s]);
    }
    forall p | p in db'.pages ensures PageOk(db', p) {
      assert PageOk(db, p);
    }
    forall t | t in db'.bookmarks ensures BookmarkOk(db', t, db'.bookmarks[t]) {
      assert BookmarkOk(db, t, db.bookmarks[t]);
    }
  }

  /** Every database of the run keeps the invariant, and the last one evolved from it. */
  ghost predicate AllKept(db: OwnerDb, steps: seq<Step>) {
    forall i | 0 <= i <= |steps| :: KeptSince(db, steps, i)
  }

  ghost predicate KeptSince(db: OwnerDb, steps: seq<Step>, i: nat)
    requires i <= |steps|
  {
    BookmarkInv(Run(db, steps[..i])) && Evolves(Run(db, steps[..i]), Run(db, steps))
  }

  lemma NothingRun(db: OwnerDb)
    requires BookmarkInv(db)
    ensures AllKept(db, [])
  {
    EvolvesReflexive(db);
    hide BookmarkInv, Evolves;
  }

  lemma LastLegal(db: OwnerDb, steps: seq<Step>)
    requires Legal(db, steps) && steps != []
    ensures
      var n := |steps| - 1;
      Legal(db, steps[..n]) && Allowed(Run(db, steps[..n]), steps[n]) && Backed(db, steps[..n], steps[n])
  {
    hide Allowed, Backed, Run;
  }

  lemma LastRun(db: OwnerDb, steps: seq<Step>)
    requires steps != [] && WellKeyed(Run(db, steps[..|steps| - 1]).incidents.ledger)
    ensures Run(db, steps) == Exec(Run(db, steps[..|steps| - 1]), steps[|steps| - 1])
  {
    hide Exec;
  }

  lemma KeptAt(db: OwnerDb, steps: seq<Step>, i: nat)
    requires AllKept(db, steps) && i <= |steps|
    ensures BookmarkInv(Run(db, steps[..i])) && Evolves(Run(db, steps[..i]), Run(db, steps)) && BookmarkInv(Run(db, steps))
  {
    assert KeptSince(db, steps, i) && KeptSince(db, steps, |steps|);
    assert steps[..|steps|] == steps;
    hide BookmarkInv, Evolves, Run;
  }

  /** What a scope is bound to was captured earlier in the run, and is there still. */
  lemma BackedIsReady(db: OwnerDb, steps: seq<Step>, step: Step)
    requires AllKept(db, steps) && Allowed(Run(db, steps), step) && Backed(db, steps, step)
    ensures Ready(Run(db, steps), step)
  {
    hide AllKept, Allowed, Opens, Answers, Run, Bindable;
    if step.BindStep? {
      var i :| 0 <= i < |steps| && Opens(Run(db, steps[..i]), steps[i], step.token, step.state, step.parent, step.parentWatermark);
      OpensIsBindable(db, steps, i, step.token, step.state, step.parent, step.parentWatermark);
    }
  }

  lemma OpensIsBindable(db: OwnerDb, steps: seq<Step>, i: nat, token: Id, state: Option<Lifecycle>, parent: Option<Id>, lower: Option<nat>)
    requires AllKept(db, steps) && i < |steps| && Opens(Run(db, steps[..i]), steps[i], token, state, parent, lower)
    ensures Bindable(Run(db, steps), token, state, parent, lower)
  {
    hide *;
    KeptAt(db, steps, i);
    KeptAt(db, steps, i + 1);
    InvKeyed(Run(db, steps[..i]));
    assert steps[..i + 1][..i] == steps[..i];
    LastRun(db, steps[..i + 1]);
    OpensAs(Run(db, steps[..i]), steps[i], token, state, parent, lower);
    OpenedIsBindable(Run(db, steps[..i]), Run(db, steps[..i + 1]), Run(db, steps), token, state, parent, lower);
  }

  lemma KeptFrom(db: OwnerDb, steps: seq<Step>, i: nat)
    requires i <= |steps| && BookmarkInv(Run(db, steps[..i])) && Evolves(Run(db, steps[..i]), Run(db, steps))
    ensures KeptSince(db, steps, i)
  {
    hide BookmarkInv, Evolves, Run;
  }

  lemma OneMoreKept(db: OwnerDb, steps: seq<Step>, i: nat)
    requires steps != [] && AllKept(db, steps[..|steps| - 1]) && i <= |steps|
    requires BookmarkInv(Run(db, steps)) && Evolves(Run(db, steps[..|steps| - 1]), Run(db, steps))
    ensures KeptSince(db, steps, i)
  {
    hide *;
    var shorter := steps[..|steps| - 1];
    if i < |steps| {
      KeptAt(db, shorter, i);
      assert shorter[..i] == steps[..i];
      InvFresh(Run(db, steps[..i]));
      EvolvesTransitive(Run(db, steps[..i]), Run(db, shorter), Run(db, steps));
    } else {
      assert steps[..i] == steps;
      EvolvesReflexive(Run(db, steps));
    }
    KeptFrom(db, steps, i);
  }

  lemma {:induction false} RunKeepsAll(db: OwnerDb, steps: seq<Step>)
    requires BookmarkInv(db) && Legal(db, steps)
    ensures AllKept(db, steps)
    decreases |steps|
  {
    hide BookmarkInv, Legal, Run, Allowed, Backed, Ready, Exec, Evolves, KeptSince, WellKeyed;
    if steps == [] {
      NothingRun(db);
    } else {
      var shorter := steps[..|steps| - 1];
      LastLegal(db, steps);
      RunKeepsAll(db, shorter);
      BackedIsReady(db, shorter, steps[|steps| - 1]);
      KeptAt(db, shorter, |shorter|);
      ExecKeepsInv(Run(db, shorter), steps[|steps| - 1]);
      LastRun(db, steps);
      forall i | 0 <= i <= |steps| ensures KeptSince(db, steps, i) {
        OneMoreKept(db, steps, i);
      }
    }
  }

  /**
   Over every run: the ledger replays to the table, every quota holds, every cursor sits on a page start,
   every scoped session holds exactly its capture, and what was live is unchanged while it lives.
   */
  lemma RunKeepsInv(db: OwnerDb, steps: seq<Step>)
    requires BookmarkInv(db) && Legal(db, steps)
    ensures BookmarkInv(Run(db, steps)) && Evolves(db, Run(db, steps))
  {
    RunKeepsAll(db, steps);
    KeptAt(db, steps, 0);
    assert Run(db, steps[..0]) == db;
    hide BookmarkInv, Evolves;
  }

  lemma {:induction false} LegalPrefix(db: OwnerDb, steps: seq<Step>, i: nat)
    requires Legal(db, steps) && i <= |steps|
    ensures Legal(db, steps[..i])
    decreases |steps|
  {
    hide Allowed, Backed, Run;
    if i < |steps| {
      LegalPrefix(db, steps[..|steps| - 1], i);
      assert steps[..|steps| - 1][..i] == steps[..i];
    } else {
      assert steps[..i] == steps;
    }
  }

  lemma LastAllowed(db: OwnerDb, steps: seq<Step>)
    requires BookmarkInv(db) && Legal(db, steps) && steps != []
    ensures
      var n := |steps| - 1;
      && Legal(db, steps[..n]) && Ready(Run(db, steps[..n]), steps[n]) && Backed(db, steps[..n], steps[n])
      && BookmarkInv(Run(db, steps[..n])) && WellKeyed(Run(db, steps[..n]).incidents.ledger)
      && Run(db, steps) == Exec(Run(db, steps[..n]), steps[n])
  {
    hide *;
    var n := |steps| - 1;
    LastLegal(db, steps);
    RunKeepsAll(db, steps[..n]);
    KeptAt(db, steps[..n], n);
    BackedIsReady(db, steps[..n], steps[n]);
    InvKeyed(Run(db, steps[..n]));
    LastRun(db, steps);
  }

  /** The database before step `i` of a run, the step, and the database after it. */
  lemma RunAt(db: OwnerDb, steps: seq<Step>, i: nat)
    requires BookmarkInv(db) && Legal(db, steps) && i < |steps|
    ensures BookmarkInv(Run(db, steps[..i])) && WellKeyed(Run(db, steps[..i]).incidents.ledger)
    ensures Ready(Run(db, steps[..i]), steps[i]) && Backed(db, steps[..i], steps[i])
    ensures Run(db, steps[..i + 1]) == Exec(Run(db, steps[..i]), steps[i])
  {
    hide *;
    LegalPrefix(db, steps, i + 1);
    assert steps[..i + 1][..i] == steps[..i];
    LastAllowed(db, steps[..i + 1]);
  }

  lemma RunEvolves(db: OwnerDb, steps: seq<Step>, i: nat, j: nat)
    requires BookmarkInv(db) && Legal(db, steps) && i <= j <= |steps|
    ensures Evolves(Run(db, steps[..i]), Run(db, steps[..j])) && BookmarkInv(Run(db, steps[..i])) && BookmarkInv(Run(db, steps[..j]))
  {
    hide *;
    LegalPrefix(db, steps, j);
    RunKeepsAll(db, steps[..j]);
    KeptAt(db, steps[..j], i);
    assert steps[..j][..i] == steps[..i];
  }

  // ---------------------------------------------------------------- coverage

  /** The page that item `i` lies on. */
  function PageOf(i: nat, limit: nat): nat
    requires limit > 0
    decreases i
  {
    if i < limit then 0 else 1 + PageOf(i - limit, limit)
  }

  lemma {:induction false} PageOfBounds(i: nat, n: nat, limit: nat)
    requires limit > 0 && i < n
    ensures PageOf(i, limit) < PageCount(n, limit)
    ensures PageStart(limit, PageOf(i, limit)) <= i < PageStart(limit, PageOf(i, limit)) + limit
    decreases i
  {
    if i >= limit {
      PageOfBounds(i - limit, n - limit, limit);
      var k := PageOf(i - limit, limit);
      PageStartIsProduct(limit, k);
      PageStartIsProduct(limit, k + 1);
    }
  }

  /** The positions of the first `m` pages of a session: 0, limit, 2 * limit, and so on. */
  function FirstPages(sid: Id, limit: nat, m: nat): set<(Id, nat)> {
    if m == 0 then {} else FirstPages(sid, limit, m - 1) + {(sid, PageStart(limit, m - 1))}
  }

  /** All the positions a full read of `n` items visits. */
  function AllPages(sid: Id, n: nat, limit: nat): set<(Id, nat)>
    requires limit > 0
  {
    FirstPages(sid, limit, PageCount(n, limit))
  }

  lemma {:induction false} FirstPagesAre(sid: Id, limit: nat, m: nat)
    requires limit > 0
    ensures |FirstPages(sid, limit, m)| == m
    ensures forall k: nat :: (sid, PageStart(limit, k)) in FirstPages(sid, limit, m) <==> k < m
    decreases m
  {
    if m > 0 {
      FirstPagesAre(sid, limit, m - 1);
      forall k: nat ensures PageStart(limit, k) == PageStart(limit, m - 1) <==> k == m - 1 {
        StartsIncrease(limit, k, m - 1);
        StartsIncrease(limit, m - 1, k);
      }
    }
  }

  lemma {:induction false} StartsIncrease(limit: nat, j: nat, k: nat)
    requires limit > 0
    ensures j < k ==> PageStart(limit, j) < PageStart(limit, k)
    decreases k
  {
    if j < k {
      StartsIncrease(limit, j, k - 1);
    }
  }

  lemma PositionInside(k: nat, n: nat, limit: nat)
    requires limit > 0 && (PageStart(limit, k) == 0 || PageStart(limit, k) < n)
    ensures k < PageCount(n, limit)
  {
    PageCountIsCeiling(n, limit);
    PageStartIsProduct(limit, PageCount(n, limit));
    StartsIncrease(limit, 0, k);
    StartsIncrease(limit, PageCount(n, limit), k);
  }

  lemma {:induction false} SubsetOfSameSize<T>(a: set<T>, b: set<T>)
    requires a <= b && |a| == |b|
    ensures a == b
  {
    if a != b {
      var x :| x in b && x !in a;
      SubsetSize(a, b - {x});
    }
  }

  lemma CompleteInside(db: OwnerDb, sid: Id)
    requires BookmarkInv(db) && sid in db.scopes
    ensures sid in db.sessions && db.sessions[sid].limit > 0 && db.scopes[sid].frame == FrameOf(db.sessions[sid])
    ensures CompletePages(db, sid) <= AllPages(sid, |db.sessions[sid].items|, db.sessions[sid].limit)
  {
    assert ScopeOk(db, sid, db.scopes[sid]);
    var s := db.sessions[sid];
    assert SessionOk(db, s);
    var n, limit := |s.items|, s.limit;
    FirstPagesAre(sid, limit, PageCount(n, limit));
    forall p | p in CompletePages(db, sid) ensures p in AllPages(sid, n, limit) {
      assert PageOk(db, p);
      var k: nat :| PageStart(limit, k) == p.1;
      PositionInside(k, n, limit);
    }
  }

  /** Recorded reads can only sit on real page positions, so counting them is enough: the count reaches
      the expected number exactly when every page of the snapshot is recorded complete. */
  lemma CountIsCoverage(db: OwnerDb, sid: Id)
    requires BookmarkInv(db) && sid in db.scopes
    ensures sid in db.sessions && db.sessions[sid].limit > 0
    ensures |CompletePages(db, sid)| == Expected(db.scopes[sid].frame)
       <==> CompletePages(db, sid) == AllPages(sid, |db.sessions[sid].items|, db.sessions[sid].limit)
  {
    CompleteInside(db, sid);
    var n, limit := |db.sessions[sid].items|, db.sessions[sid].limit;
    FirstPagesAre(sid, limit, PageCount(n, limit));
    hide BookmarkInv, CompletePages, FirstPages;
    if |CompletePages(db, sid)| == PageCount(n, limit) {
      SubsetOfSameSize(CompletePages(db, sid), AllPages(sid, n, limit));
    }
  }

  /** A bookmark is issued only for full coverage: every captured item lies on a page recorded complete. */
  lemma IssueNeedsFullCoverage(db: OwnerDb, sid: Id, now: Time, reuse: Option<Id>, drop: Option<Id>)
    requires BookmarkInv(db) && Issue(db, sid, now, reuse, drop).Ok?
    ensures sid in db.sessions && db.sessions[sid].limit > 0
    ensures forall i | 0 <= i < |db.sessions[sid].items| ::
              var p := (sid, PageStart(db.sessions[sid].limit, PageOf(i, db.sessions[sid].limit)));
              p in db.pages && db.pages[p]
  {
    CountIsCoverage(db, sid);
    var n, limit := |db.sessions[sid].items|, db.sessions[sid].limit;
    forall i | 0 <= i < n
      ensures (sid, PageStart(limit, PageOf(i, limit))) in CompletePages(db, sid)
    {
      PageOfBounds(i, n, limit);
      FirstPagesAre(sid, limit, PageCount(n, limit));
      assert (sid, PageStart(limit, PageOf(i, limit))) in AllPages(sid, n, limit);
    }
  }

  lemma {:induction false} VisibleAll(items: seq<Incident>, authorize: Incident -> bool)
    ensures |Visible(items, authorize)| <= |items|
    ensures |Visible(items, authorize)| == |items| <==> forall x | x in items :: authorize(x)
    decreases |items|
  {
    if items != [] {
      VisibleAll(items[1..], authorize);
      assert items == [items[0]] + items[1..];
    }
  }

  /** What one recorded read means: complete exactly when the current policy showed every item of the page. */
  lemma ReadRecordsRedaction(db: OwnerDb, token: Id, identity: Identity, policy: string, authorize: Incident -> bool, now: Time)
    requires BookmarkInv(db)
    requires ReadPage(db, token, identity, policy, authorize, now).1.Ok?
    ensures token in db.cursors && db.cursors[token].session in db.sessions
    ensures
      var db' := ReadPage(db, token, identity, policy, authorize, now).0;
      var c := db.cursors[token];
      && (c.session, c.position) in db'.pages
      && (db'.pages[(c.session, c.position)] <==>
            forall x | x in Slice(db.sessions[c.session], c.position) :: authorize(x))
      && forall p | p in db.pages && p != (c.session, c.position) :: p in db'.pages && db'.pages[p] == db.pages[p]
  {
    hide BookmarkInv, Slice, Visible, PageDb, PageNext, Truncated, FrameOf;
    ReadPageIs(db, token, identity, policy, authorize, now);
    var c := db.cursors[token];
    var items := Slice(db.sessions[c.session], c.position);
    PageEvolvesInv(db, c);
    KeepsToken(db, token);
    ScopeSound(db, c.session);
    VisibleAll(items, authorize);
  }

  lemma KeepsToken(db: OwnerDb, token: Id)
    requires BookmarkInv(db) && token in db.cursors && db.cursors[token].session in db.sessions
    ensures
      var after := PageDb(db, db.cursors[token]);
      token in after.cursors && after.cursors[token] == db.cursors[token]
  {
    PageEvolves(db, db.cursors[token]);
  }

  lemma ScopeSound(db: OwnerDb, sid: Id)
    requires BookmarkInv(db)
    ensures sid in db.scopes && sid in db.sessions ==> !db.sessions[sid].historyGap
  {
    if sid in db.scopes { assert ScopeOk(db, sid, db.scopes[sid]); }
  }

  lemma PageEvolvesInv(db: OwnerDb, c: PageCursor)
    requires BookmarkInv(db) && c.session in db.sessions
    ensures PageDb(db, c) == db.(cursors := PageDb(db, c).cursors, nextId := PageDb(db, c).nextId)
  {
    PageEvolves(db, c);
  }

  /** A capture records no page of its own; the eviction it makes takes away those of the evicted session. */
  ghost predicate PagesKept(db: OwnerDb, db': OwnerDb) {
    && db'.bookmarks == db.bookmarks
    && (forall p | p in db'.pages :: p in db.pages && db'.pages[p] == db.pages[p])
    && (forall p | p in db.pages && p.0 in db'.sessions :: p in db'.pages)
  }

  ghost predicate PagesBelow(db: OwnerDb) {
    forall p | p in db.pages :: p.0 < db.nextId
  }

  lemma InvPagesBelow(db: OwnerDb)
    requires BookmarkInv(db)
    ensures PagesBelow(db)
  {
    forall p | p in db.pages ensures p.0 < db.nextId {
      assert PageOk(db, p);
    }
  }

  lemma CapturePages(db: OwnerDb, f: Filter, limit: nat, lower: Option<nat>, identity: Identity, policy: string,
                     now: Time, evict: Option<Id>)
    requires WellKeyed(db.incidents.ledger) && PagesBelow(db)
    requires Capture(db, f, limit, lower, identity, policy, now, evict).Ok?
    ensures PagesKept(db, Capture(db, f, limit, lower, identity, policy, now, evict).value.0)
  {
    hide WellKeyed, CaptureItems, Available, SessionsFull;
  }

  lemma CapturesKeepPages(db: OwnerDb, step: Step)
    requires WellKeyed(db.incidents.ledger) && PagesBelow(db) && (step.CaptureStep? || step.StartStep? || step.ResumeStep?)
    ensures PagesKept(db, Exec(db, step))
  {
    assert PagesKept(db, db);
    hide PagesBelow, WellKeyed, Capture, Bind, Record, Page, Issue, Apply, PagesKept;
    match step
    case CaptureStep(f, limit, identity, policy, now, evict) =>
      if Capture(db, f, limit, None, identity, policy, now, evict).Ok? {
        CapturePages(db, f, limit, None, identity, policy, now, evict);
      }
    case StartStep(state, limit, identity, policy, now, evict) =>
      if Start(db, state, limit, identity, policy, now, evict).Ok? {
        CapturePages(db, StateFilter(state), limit, None, identity, policy, now, evict);
      }
    case ResumeStep(token, limit, identity, policy, now, evict) =>
      if Resume(db, token, limit, identity, policy, now, evict).Ok? {
        var b := db.bookmarks[token];
        CapturePages(db, StateFilter(b.state), limit, Some(b.watermark), identity, policy, now, evict);
      }
  }

  lemma PageKeepsPages(db: OwnerDb, token: Id, identity: Identity, policy: string, authorize: Incident -> bool, now: Time)
    requires BookmarkInv(db) && Page(db, token, identity, policy, authorize, now).Ok?
    ensures PagesKept(db, Page(db, token, identity, policy, authorize, now).value.0)
  {
    PageEvolvesInv(db, db.cursors[token]);
    hide BookmarkInv, PageDb, PageNext;
  }

  lemma IssueKeepsPages(db: OwnerDb, sid: Id, now: Time, reuse: Option<Id>, drop: Option<Id>)
    requires Issue(db, sid, now, reuse, drop).Ok?
    ensures Issue(db, sid, now, reuse, drop).value.0.pages == db.pages
  {
  }

  lemma OtherStepsKeepPages(db: OwnerDb, step: Step, p: (Id, nat))
    requires BookmarkInv(db) && !step.RecordStep? && WellKeyed(db.incidents.ledger)
    requires p in Exec(db, step).pages
    ensures p in db.pages && Exec(db, step).pages[p] == db.pages[p]
  {
    InvPagesBelow(db);
    if step.CaptureStep? || step.StartStep? || step.ResumeStep? {
      CapturesKeepPages(db, step);
    } else {
      QuietStepsKeepPages(db, step);
    }
    hide Exec, BookmarkInv, WellKeyed;
  }

  lemma BindKeepsPages(db: OwnerDb, token: Id, state: Option<Lifecycle>, parent: Option<Id>, lower: Option<nat>)
    requires Bind(db, token, state, parent, lower).Ok?
    ensures Bind(db, token, state, parent, lower).value.pages == db.pages
    ensures Bind(db, token, state, parent, lower).value.bookmarks == db.bookmarks
  {
  }

  lemma QuietStepsKeepPages(db: OwnerDb, step: Step)
    requires BookmarkInv(db) && WellKeyed(db.incidents.ledger) && !step.RecordStep?
    requires !step.CaptureStep? && !step.StartStep? && !step.ResumeStep?
    ensures Exec(db, step).pages == db.pages || PagesKept(db, Exec(db, step))
  {
    hide BookmarkInv, WellKeyed, Capture, Bind, Record, Page, Issue, Apply, PagesKept;
    match step
    case PageStep(token, identity, policy, authorize, now) =>
      if Page(db, token, identity, policy, authorize, now).Ok? {
        PageKeepsPages(db, token, identity, policy, authorize, now);
      }
    case BindStep(token, state, parent, lower) =>
      if Bind(db, token, state, parent, lower).Ok? {
        BindKeepsPages(db, token, state, parent, lower);
      }
    case IssueStep(sid, now, reuse, drop) =>
      if Issue(db, sid, now, reuse, drop).Ok? {
        IssueKeepsPages(db, sid, now, reuse, drop);
      }
    case _ =>
  }

  // ---------------------------------------------------------------- agreement, retention, resumption

  /** With the same filter, a capture taken now stores the same items in the same order as the whole of
      `list_incidents`; a shorter list is a prefix of it. */
  lemma CaptureAgreesWithList(db: OwnerDb, f: Filter, limit: nat, identity: Identity, policy: string, now: Time,
                              evict: Option<Id>, all: seq<Incident>)
    requires BookmarkInv(db) && IsListing(Before, all, Listed(db.incidents.rows, f))
    requires Capture(db, f, limit, None, identity, policy, now, evict).Ok?
    ensures
      var db' := Capture(db, f, limit, None, identity, policy, now, evict).value.0;
      db.nextId in db'.sessions && db'.sessions[db.nextId].items == all
  {
    InvKeyed(db);
    TableAgrees(db.incidents, f, all);
    CaptureStores(db, f, limit, None, identity, policy, now, evict);
    hide BookmarkInv, Evolves, Capture, IsListing, Captured, Listed;
    var items := Capture(db, f, limit, None, identity, policy, now, evict).value.0.sessions[db.nextId].items;
    SameListing(db.incidents.ledger, f, items, all);
  }

  lemma TableAgrees(incidents: IncidentDb, f: Filter, all: seq<Incident>)
    requires Valid(incidents) && IsListing(Before, all, Listed(incidents.rows, f))
    ensures IsListing(Before, all, Captured(incidents.ledger, |incidents.ledger|, f, 0))
  {
    CaptureNowIsTable(incidents, f);
  }

  lemma SameListing(ledger: seq<Entry>, f: Filter, items: seq<Incident>, all: seq<Incident>)
    requires WellKeyed(ledger)
    requires IsListing(Before, items, Captured(ledger, |ledger|, f, 0)) && IsListing(Before, all, Captured(ledger, |ledger|, f, 0))
    ensures items == all
  {
    CapturedDistinct(ledger, |ledger|, f, 0);
    PriorityIsTotal(Captured(ledger, |ledger|, f, 0));
    ListingIsUnique(Before, items, all, Captured(ledger, |ledger|, f, 0));
  }

  /** No issue in the run happens at or after the time `expiry`. */
  ghost predicate IssuesBefore(steps: seq<Step>, expiry: Time) {
    forall i | 0 <= i < |steps| :: steps[i].IssueStep? ==> steps[i].now < expiry
  }

  lemma IssueKeepsLive(db: OwnerDb, sid: Id, now: Time, reuse: Option<Id>, drop: Option<Id>, t: Id)
    requires t in db.bookmarks && now < db.bookmarks[t].expiresAt && CleanupChoice(db, now, drop)
    requires Issue(db, sid, now, reuse, drop).Ok?
    ensures t in Issue(db, sid, now, reuse, drop).value.0.bookmarks
  {
  }

  lemma RecordKeepsBookmarks(db: OwnerDb, token: Id, partial: bool)
    ensures Kept(db, Record(db, token, partial)).bookmarks == db.bookmarks
  {
  }

  lemma StepKeepsLiveBookmark(db: OwnerDb, step: Step, t: Id)
    requires BookmarkInv(db) && Allowed(db, step) && t in db.bookmarks
    requires step.IssueStep? ==> step.now < db.bookmarks[t].expiresAt
    ensures WellKeyed(db.incidents.ledger) && t in Exec(db, step).bookmarks
  {
    InvKeyed(db);
    InvPagesBelow(db);
    hide PagesBelow, BookmarkInv, Apply, WellKeyed, Capture, Bind, Record, Page, Issue, EvictionChoice, CleanupChoice, ReuseChoice;
    match step
    case PageStep(token, identity, policy, authorize, now) =>
      if Page(db, token, identity, policy, authorize, now).Ok? {
        PageKeepsPages(db, token, identity, policy, authorize, now);
      }
    case BindStep(token, state, parent, lower) =>
      if Bind(db, token, state, parent, lower).Ok? {
        BindKeepsPages(db, token, state, parent, lower);
      }
    case RecordStep(token, answer) => RecordKeepsBookmarks(db, token, answer.partial);
    case IssueStep(sid, now, reuse, drop) =>
      if Issue(db, sid, now, reuse, drop).Ok? {
        IssueKeepsLive(db, sid, now, reuse, drop, t);
      }
    case IncidentStep(_, _) =>
    case FloorStep(_) =>
    case _ => CapturesKeepPages(db, step);
  }

  /** A live bookmark is never deleted or changed: it stays, whole, through every run that ends before it expires. */
  lemma {:induction false} LiveBookmarkStays(db: OwnerDb, steps: seq<Step>, t: Id)
    requires BookmarkInv(db) && Legal(db, steps) && t in db.bookmarks
    requires IssuesBefore(steps, db.bookmarks[t].expiresAt)
    ensures t in Run(db, steps).bookmarks && Run(db, steps).bookmarks[t] == db.bookmarks[t]
    decreases |steps|
  {
    RunKeepsInv(db, steps);
    BookmarkUnchanged(db, Run(db, steps), t);
    if steps != [] {
      var shorter := steps[..|steps| - 1];
      LastAllowed(db, steps);
      hide *;
      IssuesBeforeShorter(steps, db.bookmarks[t].expiresAt);
      LiveBookmarkStays(db, shorter, t);
      RunKeepsInv(db, shorter);
      StepKeepsLiveBookmark(Run(db, shorter), steps[|steps| - 1], t);
    }
  }

  lemma BookmarkUnchanged(db: OwnerDb, later: OwnerDb, t: Id)
    requires BookmarkInv(db) && Evolves(db, later) && t in db.bookmarks
    ensures t in later.bookmarks ==> later.bookmarks[t] == db.bookmarks[t]
  {
    assert BookmarkOk(db, t, db.bookmarks[t]);
  }

  lemma IssuesBeforeShorter(steps: seq<Step>, expiry: Time)
    requires steps != [] && IssuesBefore(steps, expiry)
    ensures IssuesBefore(steps[..|steps| - 1], expiry)
    ensures steps[|steps| - 1].IssueStep? ==> steps[|steps| - 1].now < expiry
  {
  }

  /** Resuming a bookmark that passes its guards can fail only for want of capacity, never for its history. */
  lemma ResumeFailsOnlyOnCapacity(db: OwnerDb, token: Id, limit: nat, identity: Identity, policy: string, now: Time, evict: Option<Id>)
    requires BookmarkInv(db) && 1 <= limit <= 100 && ResumeGuard(db, token, identity, policy, now).None?
    ensures
      var r := Resume(db, token, limit, identity, policy, now, evict);
      r.Err? ==> r.error == SessionCapacity || r.error == ItemCapacity
  {
    assert BookmarkOk(db, token, db.bookmarks[token]);
    hide CursorInv, CaptureItems, SessionsFull, Available;
  }
}
