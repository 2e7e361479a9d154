/**
 Owner snapshots and page cursors (tools/operational_cursor.py), over one database value that also
 holds the bookmark tables, since deleting a session cascades into them. Each function below is one
 committed transaction; an error leaves the database as it was.
 */
module Cursor {
  import opened Common
  import opened Incidents

  const MAX_ITEMS := 20_000
  const SESSION_SECONDS: Time := 1800.0

  /** The claims a bookmark is bound to; `context` is the rest of the identity (login, authentication). */
  datatype Identity = Identity(principal: string, tenant: string, actor: string, workload: string, issuer: string,
                               audience: string, context: string)

  datatype Session = Session(
    identity: Identity, policy: string, limit: nat, createdAt: Time, expiresAt: Time,
    historyGap: bool, watermark: nat, items: seq<Incident>)

  datatype PageCursor = PageCursor(session: Id, position: nat)

  /** The session fields that `_frame_digest` covers. */
  datatype Frame = Frame(
    identity: Identity, policy: string, limit: nat, createdAt: Time, expiresAt: Time,
    historyGap: bool, watermark: nat, itemCount: nat)

  datatype Scope = Scope(state: Option<Lifecycle>, parent: Option<Id>, parentWatermark: Option<nat>, frame: Frame)

  datatype Bookmark = Bookmark(
    session: Id, identity: Identity, policy: string, state: Option<Lifecycle>, watermark: nat,
    parent: Option<Id>, createdAt: Time, expiresAt: Time)

  datatype OwnerDb = OwnerDb(
    incidents: IncidentDb, baselineAt: Time,
    sessions: map<Id, Session>, cursors: map<Id, PageCursor>,
    scopes: map<Id, Scope>, pages: map<(Id, nat), bool>,
    bookmarks: map<Id, Bookmark>, floor: nat, nextId: Id)

  datatype CursorError =
    | CursorNotFound | CursorPolicyChanged | CursorExpired
    | SessionCapacity | ItemCapacity | LimitInvalid | PublicationConflict
    | ScopeNotFound | ScopeRefused | CaptureChanged | CoverageIncomplete | SnapshotExpired
    | BookmarkNotFound | BookmarkPolicyChanged | BookmarkHistoryGap | BookmarkCapacity

  datatype PageResult = PageResult(
    items: seq<Incident>, partial: bool, truncated: bool, session: Id, next: Option<Id>)

  // ---------------------------------------------------------------- quotas

  function Holds(sessions: map<Id, Session>, sid: Id, tenant: Option<string>): nat {
    if sid in sessions && (tenant.None? || sessions[sid].identity.tenant == tenant.value)
    then |sessions[sid].items| else 0
  }

  /** `sum(item_count)` over the sessions with an id below `n`, of one tenant or of all. */
  function ItemSum(sessions: map<Id, Session>, n: nat, tenant: Option<string>): nat {
    if n == 0 then 0 else ItemSum(sessions, n - 1, tenant) + Holds(sessions, n - 1, tenant)
  }

  function TenantSessions(sessions: map<Id, Session>, tenant: string): set<Id> {
    set sid | sid in sessions && sessions[sid].identity.tenant == tenant
  }

  function PrincipalSessions(sessions: map<Id, Session>, tenant: string, principal: string): set<Id> {
    set sid | sid in sessions && sessions[sid].identity.tenant == tenant && sessions[sid].identity.principal == principal
  }

  lemma {:induction false} ItemSumMonotone(a: map<Id, Session>, b: map<Id, Session>, n: nat, tenant: Option<string>)
    requires forall sid: Id | sid < n :: Holds(a, sid, tenant) <= Holds(b, sid, tenant)
    ensures ItemSum(a, n, tenant) <= ItemSum(b, n, tenant)
  {
    if n > 0 {
      ItemSumMonotone(a, b, n - 1, tenant);
    }
  }

  lemma {:induction false} ItemSumBeyond(sessions: map<Id, Session>, m: nat, n: nat, tenant: Option<string>)
    requires m <= n && forall sid | sid in sessions :: sid < m
    ensures ItemSum(sessions, n, tenant) == ItemSum(sessions, m, tenant)
    decreases n
  {
    if m < n {
      ItemSumBeyond(sessions, m, n - 1, tenant);
    }
  }

  // ---------------------------------------------------------------- capture

  predicate Expired(db: OwnerDb, sid: Id, now: Time) {
    sid in db.sessions && db.sessions[sid].expiresAt <= now
  }

  /** The one session a capture cleans up: the earliest expired, if any has expired. */
  ghost predicate EvictionChoice(db: OwnerDb, now: Time, evict: Option<Id>) {
    match evict
    case None => forall sid | sid in db.sessions :: !Expired(db, sid, now)
    case Some(e) => Expired(db, e, now)
                    && forall sid | Expired(db, sid, now) :: db.sessions[e].expiresAt <= db.sessions[sid].expiresAt
  }

  /** Deleting a session cascades to its cursors, its scope and its recorded pages. */
  function DropSession(db: OwnerDb, evict: Option<Id>): OwnerDb {
    if evict.None? then db
    else
      var e := evict.value;
      db.(sessions := db.sessions - {e},
          cursors := map t | t in db.cursors && db.cursors[t].session != e :: db.cursors[t],
          scopes := db.scopes - {e},
          pages := map p | p in db.pages && p.0 != e :: db.pages[p])
  }

  function Min(a: int, b: int): int { if a < b then a else b }

  /** How many items one more session may hold; negative when a quota is overrun. */
  function Available(sessions: map<Id, Session>, nextId: Id, identity: Identity, limit: nat): int {
    Min(Min(MAX_ITEMS, limit * 200),
        Min(200_000 - ItemSum(sessions, nextId, None), 64_000 - ItemSum(sessions, nextId, Some(identity.tenant))))
  }

  predicate SessionsFull(sessions: map<Id, Session>, identity: Identity) {
    || |sessions| >= 4096
    || |TenantSessions(sessions, identity.tenant)| >= 128
    || |PrincipalSessions(sessions, identity.tenant, identity.principal)| >= 16
  }

  function Watermark(db: OwnerDb): nat { |db.incidents.ledger| }

  /** What the capture query returns, in order, at the present watermark. */
  ghost function CaptureItems(ledger: seq<Entry>, f: Filter, lower: nat): seq<Incident>
    requires WellKeyed(ledger)
  {
    CapturedDistinct(ledger, |ledger|, f, lower);
    PriorityIsTotal(Captured(ledger, |ledger|, f, lower));
    Enumerate(Before, Captured(ledger, |ledger|, f, lower))
  }

  function NewSession(db: OwnerDb, f: Filter, limit: nat, identity: Identity, policy: string, now: Time,
                      items: seq<Incident>): Session {
    Session(identity, policy, limit, now, now + SESSION_SECONDS,
            f.since.Some? && f.since.value < db.baselineAt, Watermark(db), items)
  }

  function InsertSession(db: OwnerDb, s: Session): OwnerDb {
    db.(sessions := db.sessions[db.nextId := s],
        cursors := db.cursors[db.nextId + 1 := PageCursor(db.nextId, 0)],
        nextId := db.nextId + 2)
  }

  /** The quota checks and the inserts of `_capture`. */
  ghost function Admit(db: OwnerDb, f: Filter, limit: nat, lower: Option<nat>, identity: Identity, policy: string,
                       now: Time): Result<(OwnerDb, Id), CursorError>
    requires WellKeyed(db.incidents.ledger)
  {
    if SessionsFull(db.sessions, identity) then Err(SessionCapacity)
    else if Available(db.sessions, db.nextId, identity, limit) < 0 then Err(ItemCapacity)
    else if lower.Some? && lower.value > Watermark(db) then Err(PublicationConflict)
    else
      var items := CaptureItems(db.incidents.ledger, f, if lower.Some? then lower.value else 0);
      if |items| > Available(db.sessions, db.nextId, identity, limit) then Err(ItemCapacity)
      else if !(1 <= limit <= 100) then Err(LimitInvalid)
      else Ok((InsertSession(db, NewSession(db, f, limit, identity, policy, now, items)), db.nextId + 1))
  }

  /** `_capture`: evict one expired session, check the quotas, store the snapshot and its first cursor. */
  ghost function Capture(db: OwnerDb, f: Filter, limit: nat, lower: Option<nat>, identity: Identity, policy: string,
                         now: Time, evict: Option<Id>): Result<(OwnerDb, Id), CursorError>
    requires WellKeyed(db.incidents.ledger)
  {
    Admit(DropSession(db, evict), f, limit, lower, identity, policy, now)
  }

  // ---------------------------------------------------------------- paging

  function Visible(items: seq<Incident>, authorize: Incident -> bool): seq<Incident> {
    if items == [] then []
    else (if authorize(items[0]) then [items[0]] else []) + Visible(items[1..], authorize)
  }

  function Slice(s: Session, position: nat): seq<Incident> {
    if position >= |s.items| then [] else s.items[position..Min(position + s.limit, |s.items|)]
  }

  ghost function CursorAt(db: OwnerDb, sid: Id, position: nat): Option<Id> {
    if exists t :: t in db.cursors && db.cursors[t] == PageCursor(sid, position)
    then var t :| t in db.cursors && db.cursors[t] == PageCursor(sid, position); Some(t)
    else None
  }

  function PageGuard(db: OwnerDb, token: Id, identity: Identity, policy: string, now: Time): Option<CursorError> {
    if token !in db.cursors || db.cursors[token].session !in db.sessions then Some(CursorNotFound)
    else
      var s := db.sessions[db.cursors[token].session];
      if s.identity != identity then Some(CursorNotFound)
      else if s.policy != policy then Some(CursorPolicyChanged)
      else if s.expiresAt <= now then Some(CursorExpired)
      else None
  }

  /** `insert ... on conflict(session_id,position) do nothing`, then read the token back. */
  ghost function FollowingCursor(db: OwnerDb, sid: Id, position: nat): (OwnerDb, Id) {
    if CursorAt(db, sid, position).Some? then (db, CursorAt(db, sid, position).value)
    else (db.(cursors := db.cursors[db.nextId := PageCursor(sid, position)], nextId := db.nextId + 1), db.nextId)
  }

  /** Where a read at cursor `c` stops. */
  function NextPosition(db: OwnerDb, c: PageCursor): nat
    requires c.session in db.sessions
  {
    c.position + |Slice(db.sessions[c.session], c.position)|
  }

  predicate Truncated(db: OwnerDb, c: PageCursor)
    requires c.session in db.sessions
  {
    NextPosition(db, c) < |db.sessions[c.session].items|
  }

  /** What a read writes: when more remains, the cursor that follows. */
  ghost function PageDb(db: OwnerDb, c: PageCursor): OwnerDb
    requires c.session in db.sessions
  {
    if Truncated(db, c) then FollowingCursor(db, c.session, NextPosition(db, c)).0 else db
  }

  ghost function PageNext(db: OwnerDb, c: PageCursor): Option<Id>
    requires c.session in db.sessions
  {
    if Truncated(db, c) then Some(FollowingCursor(db, c.session, NextPosition(db, c)).1) else None
  }

  /** `page`: read one slice and, when more remains, find or create the cursor that follows it. */
  ghost function Page(db: OwnerDb, token: Id, identity: Identity, policy: string, authorize: Incident -> bool, now: Time):
    Result<(OwnerDb, PageResult), CursorError>
  {
    if PageGuard(db, token, identity, policy, now).Some? then Err(PageGuard(db, token, identity, policy, now).value)
    else
      var c := db.cursors[token];
      var s := db.sessions[c.session];
      var items := Slice(s, c.position);
      var visible := Visible(items, authorize);
      Ok((PageDb(db, c),
          PageResult(visible, |visible| != |items| || s.historyGap, Truncated(db, c), c.session, PageNext(db, c))))
  }

  // ---------------------------------------------------------------- the state invariant

  ghost predicate SessionOk(db: OwnerDb, s: Session) {
    && 1 <= s.limit <= 100
    && |s.items| <= s.limit * 200 && |s.items| <= MAX_ITEMS
    && s.watermark <= Watermark(db)
  }

  ghost predicate CursorOk(db: OwnerDb, c: PageCursor) {
    && c.session in db.sessions
    && IsPageStart(db.sessions[c.session].limit, c.position)
    && (c.position == 0 || c.position < |db.sessions[c.session].items|)
  }

  /** The position of page `k`, counting from 0. */
  function PageStart(limit: nat, k: nat): nat {
    if k == 0 then 0 else PageStart(limit, k - 1) + limit
  }

  ghost predicate IsPageStart(limit: nat, position: nat) {
    exists k: nat :: PageStart(limit, k) == position
  }

  ghost predicate Quotas(db: OwnerDb) {
    ItemQuota(db) && CountQuota(db)
  }

  ghost predicate ItemQuota(db: OwnerDb) {
    && ItemSum(db.sessions, db.nextId, None) <= 200_000
    && (forall tenant :: ItemSum(db.sessions, db.nextId, Some(tenant)) <= 64_000)
  }

  ghost predicate CountQuota(db: OwnerDb) {
    && |db.sessions| <= 4096
    && (forall tenant :: |TenantSessions(db.sessions, tenant)| <= 128)
    && (forall tenant, principal :: |PrincipalSessions(db.sessions, tenant, principal)| <= 16)
  }

  ghost predicate CursorsUnique(db: OwnerDb) {
    forall t, u | t in db.cursors && u in db.cursors && db.cursors[t] == db.cursors[u] :: t == u
  }

  ghost predicate CursorInv(db: OwnerDb) {
    && Valid(db.incidents)
    && (forall sid | sid in db.sessions :: sid < db.nextId && SessionOk(db, db.sessions[sid]))
    && (forall t | t in db.cursors :: t < db.nextId && CursorOk(db, db.cursors[t]))
    && CursorsUnique(db)
    && Quotas(db)
  }

  lemma DropKeepsItems(db: OwnerDb, evict: Option<Id>)
    requires ItemQuota(db)
    ensures ItemQuota(DropSession(db, evict))
  {
    var db1 := DropSession(db, evict);
    ItemSumMonotone(db1.sessions, db.sessions, db.nextId, None);
    forall tenant ensures ItemSum(db1.sessions, db.nextId, Some(tenant)) <= 64_000 {
      ItemSumMonotone(db1.sessions, db.sessions, db.nextId, Some(tenant));
    }
  }

  lemma DropKeepsCounts(db: OwnerDb, evict: Option<Id>)
    requires CountQuota(db)
    ensures CountQuota(DropSession(db, evict))
  {
    var db1 := DropSession(db, evict);
    SubsetSize(db1.sessions.Keys, db.sessions.Keys);
    forall tenant ensures |TenantSessions(db1.sessions, tenant)| <= 128 {
      SubsetSize(TenantSessions(db1.sessions, tenant), TenantSessions(db.sessions, tenant));
    }
    forall tenant, principal ensures |PrincipalSessions(db1.sessions, tenant, principal)| <= 16 {
      SubsetSize(PrincipalSessions(db1.sessions, tenant, principal), PrincipalSessions(db.sessions, tenant, principal));
    }
  }

  lemma DropKeepsQuotas(db: OwnerDb, evict: Option<Id>)
    requires Quotas(db)
    ensures Quotas(DropSession(db, evict))
  {
    DropKeepsItems(db, evict);
    DropKeepsCounts(db, evict);
  }

  lemma DropKeepsInv(db: OwnerDb, evict: Option<Id>)
    requires CursorInv(db)
    ensures CursorInv(DropSession(db, evict))
  {
    DropKeepsQuotas(db, evict);
  }

  lemma {:induction false} ItemSumInsert(db: OwnerDb, s: Session, tenant: Option<string>)
    requires forall sid | sid in db.sessions :: sid < db.nextId
    ensures ItemSum(InsertSession(db, s).sessions, db.nextId + 2, tenant)
         == ItemSum(db.sessions, db.nextId, tenant)
          + (if tenant.None? || s.identity.tenant == tenant.value then |s.items| else 0)
  {
    var after := InsertSession(db, s).sessions;
    ItemSumMonotone(after, db.sessions, db.nextId, tenant);
    ItemSumMonotone(db.sessions, after, db.nextId, tenant);
    assert ItemSum(after, db.nextId + 2, tenant) == ItemSum(after, db.nextId + 1, tenant) + Holds(after, db.nextId + 1, tenant);
    assert ItemSum(after, db.nextId + 1, tenant) == ItemSum(after, db.nextId, tenant) + Holds(after, db.nextId, tenant);
  }

  lemma InsertKeepsItemQuota(db: OwnerDb, s: Session)
    requires ItemQuota(db) && forall sid | sid in db.sessions :: sid < db.nextId
    requires |s.items| <= Available(db.sessions, db.nextId, s.identity, s.limit)
    ensures ItemQuota(InsertSession(db, s))
  {
    ItemSumInsert(db, s, None);
    forall tenant ensures ItemSum(InsertSession(db, s).sessions, db.nextId + 2, Some(tenant)) <= 64_000 {
      ItemSumInsert(db, s, Some(tenant));
    }
  }

  lemma TenantInsert(sessions: map<Id, Session>, sid: Id, s: Session, tenant: string)
    requires sid !in sessions
    ensures |TenantSessions(sessions[sid := s], tenant)|
         == |TenantSessions(sessions, tenant)| + (if tenant == s.identity.tenant then 1 else 0)
  {
    var before := TenantSessions(sessions, tenant);
    assert TenantSessions(sessions[sid := s], tenant) == if tenant == s.identity.tenant then before + {sid} else before;
  }

  lemma PrincipalInsert(sessions: map<Id, Session>, sid: Id, s: Session, tenant: string, principal: string)
    requires sid !in sessions
    ensures |PrincipalSessions(sessions[sid := s], tenant, principal)| == |PrincipalSessions(sessions, tenant, principal)|
          + (if tenant == s.identity.tenant && principal == s.identity.principal then 1 else 0)
  {
    var before := PrincipalSessions(sessions, tenant, principal);
    assert PrincipalSessions(sessions[sid := s], tenant, principal)
        == if tenant == s.identity.tenant && principal == s.identity.principal then before + {sid} else before;
  }

  lemma InsertKeepsCountQuota(db: OwnerDb, s: Session)
    requires CountQuota(db) && forall sid | sid in db.sessions :: sid < db.nextId
    requires !SessionsFull(db.sessions, s.identity)
    ensures CountQuota(InsertSession(db, s))
  {
    var after := InsertSession(db, s).sessions;
    assert after.Keys == db.sessions.Keys + {db.nextId};
    forall tenant ensures |TenantSessions(after, tenant)| <= 128 {
      TenantInsert(db.sessions, db.nextId, s, tenant);
    }
    forall tenant, principal ensures |PrincipalSessions(after, tenant, principal)| <= 16 {
      PrincipalInsert(db.sessions, db.nextId, s, tenant, principal);
    }
  }

  lemma InsertKeepsCursors(db: OwnerDb, s: Session)
    requires CursorInv(db)
    ensures forall t | t in InsertSession(db, s).cursors ::
              t < db.nextId + 2 && CursorOk(InsertSession(db, s), InsertSession(db, s).cursors[t])
    ensures CursorsUnique(InsertSession(db, s))
  {
    hide Quotas, Valid, SessionOk;
    var db' := InsertSession(db, s);
    assert PageStart(s.limit, 0) == 0;
    forall t | t in db'.cursors ensures t < db'.nextId && CursorOk(db', db'.cursors[t]) {
      if t in db.cursors {
        assert CursorOk(db, db.cursors[t]);
      }
    }
    forall t, u | t in db'.cursors && u in db'.cursors && db'.cursors[t] == db'.cursors[u] ensures t == u {
      assert t in db.cursors ==> CursorOk(db, db.cursors[t]);
      assert u in db.cursors ==> CursorOk(db, db.cursors[u]);
    }
  }

  lemma InsertKeepsInv(db: OwnerDb, s: Session)
    requires CursorInv(db) && SessionOk(db, s)
    requires !SessionsFull(db.sessions, s.identity) && |s.items| <= Available(db.sessions, db.nextId, s.identity, s.limit)
    ensures CursorInv(InsertSession(db, s))
  {
    hide ItemQuota, CountQuota, Valid, CursorsUnique, CursorOk, SessionsFull, Available;
    InsertKeepsItemQuota(db, s);
    InsertKeepsCountQuota(db, s);
    InsertKeepsCursors(db, s);
  }

  /** A successful capture keeps every session, item and cursor quota. */
  lemma CaptureKeepsInv(db: OwnerDb, f: Filter, limit: nat, lower: Option<nat>, identity: Identity, policy: string,
                        now: Time, evict: Option<Id>)
    requires CursorInv(db)
    requires Capture(db, f, limit, lower, identity, policy, now, evict).Ok?
    ensures CursorInv(Capture(db, f, limit, lower, identity, policy, now, evict).value.0)
  {
    var db1 := DropSession(db, evict);
    DropKeepsInv(db, evict);
    var items := CaptureItems(db.incidents.ledger, f, if lower.Some? then lower.value else 0);
    var s := NewSession(db1, f, limit, identity, policy, now, items);
    InsertKeepsInv(db1, s);
  }

  lemma FollowingCursorKeepsInv(db: OwnerDb, sid: Id, position: nat)
    requires CursorInv(db) && CursorOk(db, PageCursor(sid, position))
    ensures CursorInv(FollowingCursor(db, sid, position).0)
  {
    var db' := FollowingCursor(db, sid, position).0;
    if db' != db {
      ItemSumBeyond(db.sessions, db.nextId, db'.nextId, None);
      forall tenant ensures ItemSum(db'.sessions, db'.nextId, Some(tenant)) <= 64_000 {
        ItemSumBeyond(db.sessions, db.nextId, db'.nextId, Some(tenant));
      }
      forall t | t in db'.cursors ensures t < db'.nextId && CursorOk(db', db'.cursors[t]) {
        assert CursorOk(db, if t in db.cursors then db.cursors[t] else PageCursor(sid, position));
      }
    }
  }

  /** Where a page's read ends: at the next page start, or at the end of the items. */
  lemma SliceEnds(s: Session, position: nat)
    requires position == 0 || position < |s.items|
    ensures position + |Slice(s, position)| == Min(position + s.limit, |s.items|)
  {
  }

  /** Paging creates only cursors at page starts inside the items. */
  lemma PageKeepsInv(db: OwnerDb, c: PageCursor)
    requires CursorInv(db) && CursorOk(db, c)
    ensures CursorInv(PageDb(db, c))
  {
    var s := db.sessions[c.session];
    SliceEnds(s, c.position);
    if Truncated(db, c) {
      var k: nat :| PageStart(s.limit, k) == c.position;
      assert PageStart(s.limit, k + 1) == c.position + s.limit;
      assert NextPosition(db, c) == c.position + s.limit;
      FollowingCursorKeepsInv(db, c.session, NextPosition(db, c));
      assert PageDb(db, c) == FollowingCursor(db, c.session, NextPosition(db, c)).0;
    }
  }
}
