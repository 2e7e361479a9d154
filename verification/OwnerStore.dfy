/** The owner database as an object whose methods run one transaction each and change its tables in place. */
module OwnerStore {
  import opened Common
  import opened Incidents
  import opened Cursor
  import opened Paging
  import opened Bookmarks
  import opened OwnerOutcomes

  /** Every page of the session is recorded complete. */
  predicate Covered(db: OwnerDb, sid: Id) {
    sid in db.scopes && |CompletePages(db, sid)| == Expected(db.scopes[sid].frame)
  }

  /** A whole bookmark read: the page, its record, and with the last page of a fully covered session its bookmark. */
  ghost function Serve(db: OwnerDb, token: Id, identity: Identity, policy: string, authorize: Incident -> bool, now: Time,
                       issueNow: Time, reuse: Option<Id>, drop: Option<Id>): (OwnerDb, Result<(PageResult, Option<Id>), CursorError>)
  {
    match ReadPage(db, token, identity, policy, authorize, now)
    case (db1, Err(e)) => (db1, Err(e))
    case (db1, Ok(page)) =>
      if page.truncated || page.partial || !Covered(db1, page.session) then (db1, Ok((page, None)))
      else
        match Issue(db1, page.session, issueNow, reuse, drop)
        case Ok((db2, t)) => (db2, Ok((page, Some(t))))
        case Err(e) => (db1, Err(e))
  }

  /** The choices an issue makes, where it is made. */
  ghost predicate IssueChoices(db: OwnerDb, sid: Id, now: Time, reuse: Option<Id>, drop: Option<Id>) {
    CleanupChoice(db, now, drop) && (sid in db.sessions && sid in db.scopes ==> ReuseChoice(db, sid, now, reuse))
  }

  /** What start and resume do after their capture: bind its scope, then serve the first page. */
  ghost function BindAndServe(db: OwnerDb, token: Id, state: Option<Lifecycle>, parent: Option<Id>, lower: Option<nat>,
                              identity: Identity, policy: string, authorize: Incident -> bool, now: Time,
                              issueNow: Time, reuse: Option<Id>, drop: Option<Id>): (OwnerDb, Result<(PageResult, Option<Id>), CursorError>)
  {
    match Bind(db, token, state, parent, lower)
    case Err(e) => (db, Err(e))
    case Ok(db1) => Serve(db1, token, identity, policy, authorize, now, issueNow, reuse, drop)
  }

  lemma ReadExec(db: OwnerDb, token: Id, identity: Identity, policy: string, authorize: Incident -> bool, now: Time)
    requires BookmarkInv(db)
    ensures WellKeyed(db.incidents.ledger)
    ensures
      match Page(db, token, identity, policy, authorize, now)
      case Err(_) => ReadPage(db, token, identity, policy, authorize, now).0 == db
      case Ok((db1, page)) =>
        && Exec(db, PageStep(token, identity, policy, authorize, now)) == db1 && BookmarkInv(db1) && WellKeyed(db1.incidents.ledger)
        && ReadPage(db, token, identity, policy, authorize, now).0 == Exec(db1, RecordStep(token, page))
        && (ReadPage(db, token, identity, policy, authorize, now).1.Ok? ==>
              ReadPage(db, token, identity, policy, authorize, now).1.value == page)
        && BookmarkInv(Exec(db1, RecordStep(token, page)))
  {
    hide BookmarkInv, WellKeyed, Record, Page, ReadPage, PageDb;
    InvKeyed(db);
    ReadPageIs(db, token, identity, policy, authorize, now);
    if Page(db, token, identity, policy, authorize, now).Ok? {
      var (db1, page) := Page(db, token, identity, policy, authorize, now).value;
      InvCursor(db, token);
      PageKeepsBookmarks(db, db.cursors[token]);
      InvKeyed(db1);
      RecordStepKeepsInv(db1, token, page.partial);
    }
  }

  lemma IssueExec(db: OwnerDb, sid: Id, now: Time, reuse: Option<Id>, drop: Option<Id>)
    requires BookmarkInv(db)
    ensures WellKeyed(db.incidents.ledger)
    ensures Exec(db, IssueStep(sid, now, reuse, drop)) == Committed(db, Issue(db, sid, now, reuse, drop))
  {
    InvKeyed(db);
    hide BookmarkInv, WellKeyed, Issue;
  }

  lemma ServeCases(db: OwnerDb, token: Id, identity: Identity, policy: string, authorize: Incident -> bool, now: Time,
                   issueNow: Time, reuse: Option<Id>, drop: Option<Id>)
    ensures
      var (db1, r) := ReadPage(db, token, identity, policy, authorize, now);
      var db' := Serve(db, token, identity, policy, authorize, now, issueNow, reuse, drop).0;
      db' == db1 || (r.Ok? && db' == Committed(db1, Issue(db1, r.value.session, issueNow, reuse, drop)))
  {
    hide ReadPage, Issue, Covered;
  }

  lemma RefusedRead(db: OwnerDb, token: Id, identity: Identity, policy: string, authorize: Incident -> bool, now: Time)
    requires Page(db, token, identity, policy, authorize, now).Err?
    ensures ReadPage(db, token, identity, policy, authorize, now).1.Err?
  {
    hide Record;
  }

  /** A whole bookmark read is a read step of the machine, then a record step, then at most one issue step. */
  lemma ServeIsSteps(db: OwnerDb, token: Id, identity: Identity, policy: string, authorize: Incident -> bool, now: Time,
                     issueNow: Time, reuse: Option<Id>, drop: Option<Id>)
    requires BookmarkInv(db)
    ensures WellKeyed(db.incidents.ledger)
    ensures
      var db' := Serve(db, token, identity, policy, authorize, now, issueNow, reuse, drop).0;
      match Page(db, token, identity, policy, authorize, now)
      case Err(_) => db' == db
      case Ok((_, page)) =>
        var read := Exec(db, PageStep(token, identity, policy, authorize, now));
        && WellKeyed(read.incidents.ledger)
        && var recorded := Exec(read, RecordStep(token, page));
        && WellKeyed(recorded.incidents.ledger)
        && (db' == recorded || db' == Exec(recorded, IssueStep(page.session, issueNow, reuse, drop)))
  {
    hide *;
    ReadExec(db, token, identity, policy, authorize, now);
    ServeCases(db, token, identity, policy, authorize, now, issueNow, reuse, drop);
    var (db1, r) := ReadPage(db, token, identity, policy, authorize, now);
    if Page(db, token, identity, policy, authorize, now).Ok? {
      InvKeyed(db1);
      if r.Ok? { IssueExec(db1, r.value.session, issueNow, reuse, drop); }
    } else {
      RefusedRead(db, token, identity, policy, authorize, now);
    }
  }

  /** What start and resume bind: the session of the token, once, to the filter, the parent and the bound they were given. */
  lemma OpenOutcome(db: OwnerDb, token: Id, state: Option<Lifecycle>, parent: Option<Id>, lower: Option<nat>,
                    identity: Identity, policy: string, authorize: Incident -> bool, now: Time,
                    issueNow: Time, reuse: Option<Id>, drop: Option<Id>)
    ensures
      var result := BindAndServe(db, token, state, parent, lower, identity, policy, authorize, now, issueNow, reuse, drop);
      if token !in db.cursors || db.cursors[token].session !in db.sessions || db.cursors[token].session in db.scopes
      then result == (db, Err(ScopeRefused))
      else
        var sid := db.cursors[token].session;
        var bound := db.(scopes := db.scopes[sid := Scope(state, parent, lower, FrameOf(db.sessions[sid]))]);
        result == Serve(bound, token, identity, policy, authorize, now, issueNow, reuse, drop)
  {
    hide Serve, FrameOf;
  }

  /** A bookmark comes with a page exactly if that was the last one, wholly shown, and now all pages are on record as complete. */
  lemma ServeOutcome(db: OwnerDb, token: Id, identity: Identity, policy: string, authorize: Incident -> bool, now: Time,
                     issueNow: Time, reuse: Option<Id>, drop: Option<Id>)
    requires BookmarkInv(db)
    ensures
      var (db', r) := Serve(db, token, identity, policy, authorize, now, issueNow, reuse, drop);
      match Page(db, token, identity, policy, authorize, now)
      case Err(e) => db' == db && r == Err(e)
      case Ok((read, page)) =>
        && token in db.cursors && page.session == db.cursors[token].session && page.session in read.sessions
        && if page.session !in read.scopes then db' == read && r == Err(ScopeNotFound)
           else
             var recorded := read.(pages := read.pages[(page.session, db.cursors[token].position) := !page.partial]);
             && recorded.sessions[page.session].limit > 0
             && var whole := page.next.None? && !page.partial && CompleteCoverage(recorded, page.session);
             if whole then
               match Issue(recorded, page.session, issueNow, reuse, drop)
               case Ok((issued, t)) => db' == issued && r == Ok((page, Some(t)))
               case Err(e) => db' == recorded && r == Err(e)
             else db' == recorded && r == Ok((page, None))
  {
    hide BookmarkInv, Issue, Page, Record, CompleteCoverage, CompletePages, Expected, FrameOf, WellKeyed;
    PageOutcome(db, token, identity, policy, authorize, now);
    if Page(db, token, identity, policy, authorize, now).Ok? {
      ReadExec(db, token, identity, policy, authorize, now);
      var (read, page) := Page(db, token, identity, policy, authorize, now).value;
      PageKeepsToken(db, token, identity, policy, authorize, now);
      RecordOutcome(read, token, page.partial);
      if page.session in read.scopes {
        var recorded := read.(pages := read.pages[(page.session, db.cursors[token].position) := !page.partial]);
        CoverageIs(recorded, page.session);
      }
    }
  }

  lemma PageKeepsToken(db: OwnerDb, token: Id, identity: Identity, policy: string, authorize: Incident -> bool, now: Time)
    requires BookmarkInv(db) && Page(db, token, identity, policy, authorize, now).Ok?
    ensures
      var (read, page) := Page(db, token, identity, policy, authorize, now).value;
      && token in db.cursors && token in read.cursors && read.cursors[token] == db.cursors[token]
      && page.session == db.cursors[token].session && page.session in read.sessions && (page.truncated <==> page.next.Some?)
      && BookmarkInv(read)
  {
    PageOutcome(db, token, identity, policy, authorize, now);
    InvCursor(db, token);
    PageKeepsBookmarks(db, db.cursors[token]);
    hide BookmarkInv;
  }

  /** What a start or resume has just captured can be bound. */
  lemma StartBindable(db: OwnerDb, state: Option<Lifecycle>, limit: nat, identity: Identity, policy: string, now: Time, evict: Option<Id>)
    requires BookmarkInv(db) && WellKeyed(db.incidents.ledger) && Start(db, state, limit, identity, policy, now, evict).Ok?
    ensures
      var (after, token) := Start(db, state, limit, identity, policy, now, evict).value;
      BookmarkInv(after) && Bindable(after, token, state, None, None)
  {
    hide BookmarkInv, Evolves, WellKeyed, Capture, OpenedAs, Bindable;
    var step := StartStep(state, limit, identity, policy, now, evict);
    JustOpened(db, step, Start(db, state, limit, identity, policy, now, evict).value.1, state, None, None);
  }

  lemma ResumeBindable(db: OwnerDb, token: Id, limit: nat, identity: Identity, policy: string, now: Time, evict: Option<Id>)
    requires BookmarkInv(db) && WellKeyed(db.incidents.ledger) && Resume(db, token, limit, identity, policy, now, evict).Ok?
    ensures
      var (after, first) := Resume(db, token, limit, identity, policy, now, evict).value;
      var b := db.bookmarks[token];
      BookmarkInv(after) && Bindable(after, first, b.state, Some(token), Some(b.watermark))
  {
    hide BookmarkInv, Evolves, WellKeyed, Capture, OpenedAs, Bindable;
    var b := db.bookmarks[token];
    var step := ResumeStep(token, limit, identity, policy, now, evict);
    JustOpened(db, step, Resume(db, token, limit, identity, policy, now, evict).value.1, b.state, Some(token), Some(b.watermark));
  }

  lemma JustOpened(db: OwnerDb, step: Step, token: Id, state: Option<Lifecycle>, parent: Option<Id>, lower: Option<nat>)
    requires BookmarkInv(db) && Opens(db, step, token, state, parent, lower)
    ensures WellKeyed(db.incidents.ledger)
    ensures BookmarkInv(Exec(db, step)) && Bindable(Exec(db, step), token, state, parent, lower)
  {
    InvKeyed(db);
    OpensAs(db, step, token, state, parent, lower);
    EvolvesReflexive(Exec(db, step));
    hide BookmarkInv, Evolves, WellKeyed, Exec, Opens, Bindable, Captured, IsListing;
    OpenedIsBindable(db, Exec(db, step), Exec(db, step), token, state, parent, lower);
  }

  class OwnerTables {
    const incidents: IncidentStore
    const baselineAt: Time
    var sessions: map<Id, Session>
    var cursors: map<Id, PageCursor>
    var scopes: map<Id, Scope>
    var pages: map<(Id, nat), bool>
    var bookmarks: map<Id, Bookmark>
    var floor: nat
    var nextId: Id

    ghost function Db(): OwnerDb
      reads this, incidents
    {
      OwnerDb(incidents.Db(), baselineAt, sessions, cursors, scopes, pages, bookmarks, floor, nextId)
    }

    constructor (store: IncidentStore, now: Time)
      requires Incidents.Valid(store.Db())
      ensures incidents == store && Db() == Fresh(store.Db(), now) && BookmarkInv(Db())
    {
      incidents, baselineAt := store, now;
      sessions, cursors, scopes, pages, bookmarks, floor, nextId := map[], map[], map[], map[], map[], 0, 0;
      new;
      FreshInv(store.Db(), now);
    }

    method EarliestExpired(now: Time) returns (evict: Option<Id>)
      ensures EvictionChoice(Db(), now, evict)
      ensures evict.None? <==> forall sid | sid in sessions :: now < sessions[sid].expiresAt
      ensures evict.Some? ==>
                evict.value in sessions && sessions[evict.value].expiresAt <= now &&
                forall sid | sid in sessions :: sessions[evict.value].expiresAt <= sessions[sid].expiresAt
    {
      evict := None;
      var rest := sessions.Keys;
      while rest != {}
        invariant rest <= sessions.Keys
        invariant evict.None? ==> forall sid | sid in sessions.Keys - rest :: sessions[sid].expiresAt > now
        invariant evict.Some? ==> evict.value in sessions && sessions[evict.value].expiresAt <= now
        invariant evict.Some? ==> forall sid | sid in sessions.Keys - rest && sessions[sid].expiresAt <= now ::
                                    sessions[evict.value].expiresAt <= sessions[sid].expiresAt
        decreases rest
      {
        var sid :| sid in rest;
        if sessions[sid].expiresAt <= now && (evict.None? || sessions[sid].expiresAt < sessions[evict.value].expiresAt) {
          evict := Some(sid);
        }
        rest := rest - {sid};
      }
    }

    /** `_capture`, with everything rolled back when a quota or a bound refuses it. */
    method CaptureSnapshot(f: Filter, limit: nat, lower: Option<nat>, identity: Identity, policy: string, now: Time)
      returns (result: Result<Id, CursorError>, ghost evict: Option<Id>)
      requires BookmarkInv(Db())
      modifies this
      ensures BookmarkInv(Db()) && EvictionChoice(old(Db()), now, evict)
      ensures
        match Capture(old(Db()), f, limit, lower, identity, policy, now, evict)
        case Ok((db, token)) => Db() == db && result == Ok(token)
        case Err(e) => Db() == old(Db()) && result == Err(e)
    {
      ghost var before := Db();
      InvKeyed(before);
      result, evict := CaptureTables(f, limit, lower, identity, policy, now);
      hide EvictionChoice, CursorInv;
      if result.Ok? {
        CaptureStores(before, f, limit, lower, identity, policy, now, evict);
      }
    }

    method CaptureTables(f: Filter, limit: nat, lower: Option<nat>, identity: Identity, policy: string, now: Time)
      returns (result: Result<Id, CursorError>, ghost evict: Option<Id>)
      requires WellKeyed(Db().incidents.ledger)
      modifies this
      ensures EvictionChoice(old(Db()), now, evict)
      ensures
        match Capture(old(Db()), f, limit, lower, identity, policy, now, evict)
        case Ok((db, token)) => Db() == db && result == Ok(token)
        case Err(e) => Db() == old(Db()) && result == Err(e)
    {
      var choice := EarliestExpired(now);
      evict := choice;
      hide EvictionChoice, WellKeyed, Admit;
      var sessions0, cursors0, scopes0, pages0 := sessions, cursors, scopes, pages;
      Evict(choice);
      result := AdmitSession(f, limit, lower, identity, policy, now);
      if result.Err? {
        sessions, cursors, scopes, pages := sessions0, cursors0, scopes0, pages0;
      }
    }

    /** Deletes a session; the foreign keys cascade. */
    method Evict(choice: Option<Id>)
      modifies this`sessions, this`cursors, this`scopes, this`pages
      ensures Db() == DropSession(old(Db()), choice)
    {
      if choice.Some? {
        var e := choice.value;
        sessions := sessions - {e};
        cursors := map t | t in cursors && cursors[t].session != e :: cursors[t];
        scopes := scopes - {e};
        pages := map p | p in pages && p.0 != e :: pages[p];
      }
    }

    method AdmitSession(f: Filter, limit: nat, lower: Option<nat>, identity: Identity, policy: string, now: Time)
      returns (result: Result<Id, CursorError>)
      requires WellKeyed(Db().incidents.ledger)
      modifies this`sessions, this`cursors, this`nextId
      ensures
        match Admit(old(Db()), f, limit, lower, identity, policy, now)
        case Ok((db, token)) => Db() == db && result == Ok(token)
        case Err(e) => Db() == old(Db()) && result == Err(e)
    {
      hide SessionsFull, Available, WellKeyed, CaptureItems, InsertSession, NewSession;
      if SessionsFull(sessions, identity) {
        return Err(SessionCapacity);
      }
      var available := Available(sessions, nextId, identity, limit);
      if available < 0 {
        return Err(ItemCapacity);
      }
      var watermark := |incidents.ledger|;
      if lower.Some? && lower.value > watermark {
        return Err(PublicationConflict);
      }
      var items := QueryItems(f, if lower.Some? then lower.value else 0);
      if |items| > available {
        return Err(ItemCapacity);
      }
      if limit < 1 || limit > 100 {
        return Err(LimitInvalid);
      }
      var token := StoreSession(f, limit, identity, policy, now, items);
      result := Ok(token);
    }

    /** The three inserts of a capture. */
    method StoreSession(f: Filter, limit: nat, identity: Identity, policy: string, now: Time, items: seq<Incident>)
      returns (token: Id)
      modifies this`sessions, this`cursors, this`nextId
      ensures Db() == InsertSession(old(Db()), NewSession(old(Db()), f, limit, identity, policy, now, items))
      ensures token == old(nextId) + 1
    {
      var gap := f.since.Some? && f.since.value < baselineAt;
      var watermark := |incidents.ledger|;
      sessions := sessions[nextId := Session(identity, policy, limit, now, now + SESSION_SECONDS, gap, watermark, items)];
      cursors := cursors[nextId + 1 := PageCursor(nextId, 0)];
      token := nextId + 1;
      nextId := nextId + 2;
    }

    /** The capture query: select, order, list. */
    method QueryItems(f: Filter, bound: nat) returns (items: seq<Incident>)
      requires WellKeyed(incidents.ledger)
      ensures items == CaptureItems(incidents.ledger, f, bound)
    {
      var selected := Captured(incidents.ledger, |incidents.ledger|, f, bound);
      CapturedDistinct(incidents.ledger, |incidents.ledger|, f, bound);
      PriorityIsTotal(selected);
      items := OrderBy(selected, Before);
      ListingIsUnique(Before, items, CaptureItems(incidents.ledger, f, bound), selected);
    }

    method FindCursor(sid: Id, position: nat) returns (found: Option<Id>)
      requires CursorsUnique(Db())
      ensures found == CursorAt(Db(), sid, position)
    {
      var rest := cursors.Keys;
      found := None;
      while rest != {}
        invariant rest <= cursors.Keys
        invariant forall t | t in cursors.Keys - rest :: cursors[t] != PageCursor(sid, position)
        decreases rest
      {
        var t :| t in rest;
        if cursors[t] == PageCursor(sid, position) {
          assert Db().cursors[t] == PageCursor(sid, position);
          return Some(t);
        }
        rest := rest - {t};
      }
    }

    /** `page`: a plain cursor read. */
    method ReadCursorPage(token: Id, identity: Identity, policy: string, authorize: Incident -> bool, now: Time)
      returns (result: Result<PageResult, CursorError>)
      requires BookmarkInv(Db())
      modifies this`cursors, this`nextId
      ensures BookmarkInv(Db())
      ensures
        match Page(old(Db()), token, identity, policy, authorize, now)
        case Ok((db, page)) => Db() == db && result == Ok(page)
        case Err(e) => Db() == old(Db()) && result == Err(e)
      ensures result.Ok? <==> MayRead(old(Db()), token, identity, policy, now)
      ensures result.Err? ==> ReadRefusal(old(Db()), token, identity, policy, now, result.error)
      ensures result.Ok? ==> Answer(old(Db()), token, authorize, result.value)
    {
      ghost var before := Db();
      PageOutcome(before, token, identity, policy, authorize, now);
      hide MayRead, ReadRefusal, Answer;
      assert CursorsUnique(before);
      result := ReadCursorTables(token, identity, policy, authorize, now);
      hide CursorInv, PageDb;
      if result.Ok? {
        InvCursor(before, token);
        PageKeepsBookmarks(before, before.cursors[token]);
      }
    }

    method ReadCursorTables(token: Id, identity: Identity, policy: string, authorize: Incident -> bool, now: Time)
      returns (result: Result<PageResult, CursorError>)
      requires CursorsUnique(Db())
      modifies this`cursors, this`nextId
      ensures
        match Page(old(Db()), token, identity, policy, authorize, now)
        case Ok((db, page)) => Db() == db && result == Ok(page)
        case Err(e) => Db() == old(Db()) && result == Err(e)
    {
      if token !in cursors || cursors[token].session !in sessions {
        return Err(CursorNotFound);
      }
      var c := cursors[token];
      var s := sessions[c.session];
      if s.identity != identity {
        return Err(CursorNotFound);
      }
      if s.policy != policy {
        return Err(CursorPolicyChanged);
      }
      if s.expiresAt <= now {
        return Err(CursorExpired);
      }
      var items := Slice(s, c.position);
      var visible := Visible(items, authorize);
      var partial := |visible| != |items| || s.historyGap;
      var next := c.position + |items|;
      if next >= |s.items| {
        return Ok(PageResult(visible, partial, false, c.session, None));
      }
      var follower := FindCursor(c.session, next);
      if follower.None? {
        follower := Some(nextId);
        cursors := cursors[nextId := PageCursor(c.session, next)];
        nextId := nextId + 1;
      }
      result := Ok(PageResult(visible, partial, true, c.session, follower));
    }

    /** `PublicationBookmarks.page`: read, record, and issue the bookmark with the last page of a covered session. */
    method ReadBookmarkPage(token: Id, identity: Identity, policy: string, authorize: Incident -> bool, now: Time, issueNow: Time)
      returns (result: Result<(PageResult, Option<Id>), CursorError>, ghost reuse: Option<Id>, ghost drop: Option<Id>)
      requires BookmarkInv(Db())
      modifies this
      ensures BookmarkInv(Db())
      ensures (Db(), result) == Serve(old(Db()), token, identity, policy, authorize, now, issueNow, reuse, drop)
      ensures result.Ok? && result.value.1.Some? ==>
                IssueChoices(ReadPage(old(Db()), token, identity, policy, authorize, now).0, result.value.0.session, issueNow, reuse, drop)
    {
      hide BookmarkInv, ReadPage, Issue, ReuseChoice, CleanupChoice, Covered;
      reuse, drop := None, None;
      var read := RecordedRead(token, identity, policy, authorize, now);
      if read.Err? {
        return Err(read.error), reuse, drop;
      }
      var page := read.value;
      if page.truncated || page.partial || !IsCovered(page.session) {
        return Ok((page, None)), reuse, drop;
      }
      var token';
      token', reuse, drop := IssueBookmark(page.session, issueNow);
      if token'.Err? {
        return Err(token'.error), reuse, drop;
      }
      result := Ok((page, Some(token'.value)));
    }

    function IsCovered(sid: Id): bool
      reads this, incidents
      ensures IsCovered(sid) == Covered(Db(), sid)
    {
      sid in scopes && |set p | p in pages && p.0 == sid && pages[p]| == Expected(scopes[sid].frame)
    }

    /** A bookmark read that nothing interrupts: the cursor read, then its record. */
    method RecordedRead(token: Id, identity: Identity, policy: string, authorize: Incident -> bool, now: Time)
      returns (result: Result<PageResult, CursorError>)
      requires BookmarkInv(Db())
      modifies this
      ensures BookmarkInv(Db())
      ensures (Db(), result) == ReadPage(old(Db()), token, identity, policy, authorize, now)
    {
      hide BookmarkInv, Page, ReadPage, Record, PageDb;
      ReadPageIs(Db(), token, identity, policy, authorize, now);
      result := ReadCursorPage(token, identity, policy, authorize, now);
      if result.Ok? {
        var refused := RecordRead(token, result.value.partial);
        if refused.Some? {
          result := Err(refused.value);
        }
      }
    }

    /** The record of a bookmark read: its scope is checked, and its completeness replaces what was on record. */
    method RecordRead(token: Id, partial: bool) returns (error: Option<CursorError>)
      requires BookmarkInv(Db())
      modifies this`pages
      ensures BookmarkInv(Db())
      ensures
        match Record(old(Db()), token, partial)
        case Ok(db) => Db() == db && error.None?
        case Err(e) => Db() == old(Db()) && error == Some(e)
    {
      RecordStepKeepsInv(Db(), token, partial);
      hide BookmarkInv, FrameOf, Evolves;
      if token !in cursors || cursors[token].session !in sessions || cursors[token].session !in scopes {
        return Some(ScopeNotFound);
      }
      var c := cursors[token];
      if scopes[c.session].frame != FrameOf(sessions[c.session]) {
        return Some(CaptureChanged);
      }
      pages := pages[(c.session, c.position) := !partial];
      error := None;
    }

    method AnyReusable(sid: Id, now: Time) returns (reuse: Option<Id>)
      requires sid in sessions && sid in scopes
      ensures ReuseChoice(Db(), sid, now, reuse)
    {
      reuse := None;
      var rest := bookmarks.Keys;
      while rest != {}
        invariant rest <= bookmarks.Keys
        invariant forall t | t in bookmarks.Keys - rest :: !Reusable(Db(), t, sid, now)
        decreases rest
      {
        var t :| t in rest;
        var others := forall u | u in bookmarks :: bookmarks[u].session != sid;
        var s, scope := sessions[sid], scopes[sid];
        var same := map u | u in bookmarks ::
                      && bookmarks[u].identity == Stable(s.identity) && bookmarks[u].policy == s.policy
                      && bookmarks[u].state == scope.state
                      && bookmarks[u].watermark == s.watermark && bookmarks[u].expiresAt > now
                      && ((scope.parent.None? && bookmarks[u].parent.None?) || scope.parent == Some(u));
        assert forall u | u in bookmarks :: same[u] == SameBoundary(Db(), u, sid, now);
        if bookmarks[t].session == sid
           || (others && same[t] && forall u | u in bookmarks && same[u] :: bookmarks[t].createdAt <= bookmarks[u].createdAt) {
          return Some(t);
        }
        rest := rest - {t};
      }
    }

    method ExpiredBookmark(now: Time) returns (drop: Option<Id>)
      ensures CleanupChoice(Db(), now, drop)
      ensures drop.None? <==> forall t | t in bookmarks :: now < bookmarks[t].expiresAt
      ensures drop.Some? ==>
                drop.value in bookmarks && bookmarks[drop.value].expiresAt <= now &&
                forall t | t in bookmarks :: bookmarks[drop.value].expiresAt <= bookmarks[t].expiresAt
    {
      drop := None;
      var rest := bookmarks.Keys;
      while rest != {}
        invariant rest <= bookmarks.Keys
        invariant drop.None? ==> forall t | t in bookmarks.Keys - rest :: bookmarks[t].expiresAt > now
        invariant drop.Some? ==> drop.value in bookmarks && bookmarks[drop.value].expiresAt <= now
        invariant drop.Some? ==> forall t | t in bookmarks.Keys - rest :: bookmarks[drop.value].expiresAt <= bookmarks[t].expiresAt
        decreases rest
      {
        var t :| t in rest;
        if bookmarks[t].expiresAt <= now && (drop.None? || bookmarks[t].expiresAt < bookmarks[drop.value].expiresAt) {
          drop := Some(t);
        }
        rest := rest - {t};
      }
    }

    /** `_issue`: returns an earlier bookmark of the same boundary, or inserts a new one. */
    method IssueBookmark(sid: Id, now: Time) returns (result: Result<Id, CursorError>, ghost reuse: Option<Id>, ghost drop: Option<Id>)
      requires BookmarkInv(Db())
      modifies this`bookmarks, this`nextId
      ensures BookmarkInv(Db()) && CleanupChoice(old(Db()), now, drop)
      ensures sid in sessions && sid in scopes ==> ReuseChoice(old(Db()), sid, now, reuse)
      ensures
        match Issue(old(Db()), sid, now, reuse, drop)
        case Ok((db, token)) => Db() == db && result == Ok(token)
        case Err(e) => Db() == old(Db()) && result == Err(e)
    {
      ghost var before := Db();
      result, reuse, drop := IssueTables(sid, now);
      hide CursorInv, ReuseChoice, CleanupChoice;
      if result.Ok? {
        IssueMarksBoundary(before, sid, now, reuse, drop);
      }
    }

    method IssueTables(sid: Id, now: Time) returns (result: Result<Id, CursorError>, ghost reuse: Option<Id>, ghost drop: Option<Id>)
      modifies this`bookmarks, this`nextId
      ensures CleanupChoice(old(Db()), now, drop)
      ensures sid in sessions && sid in scopes ==> ReuseChoice(old(Db()), sid, now, reuse)
      ensures
        match Issue(old(Db()), sid, now, reuse, drop)
        case Ok((db, token)) => Db() == db && result == Ok(token)
        case Err(e) => Db() == old(Db()) && result == Err(e)
    {
      var victim := ExpiredBookmark(now);
      reuse, drop := None, victim;
      if sid !in sessions || sid !in scopes {
        return Err(CaptureChanged), reuse, drop;
      }
      var earlier := AnyReusable(sid, now);
      reuse := earlier;
      var complete := set p | p in pages && p.0 == sid && pages[p];
      assert complete == CompletePages(Db(), sid);
      hide ReuseChoice, CleanupChoice, PageCount, CompletePages, BookmarksFull, InsertBookmark, NewBookmark, DropBookmark, Expected, FrameOf;
      if scopes[sid].frame != FrameOf(sessions[sid]) {
        return Err(CaptureChanged), reuse, drop;
      }
      if |complete| != Expected(scopes[sid].frame) {
        return Err(CoverageIncomplete), reuse, drop;
      }
      var s := sessions[sid];
      if s.expiresAt <= now {
        return Err(SnapshotExpired), reuse, drop;
      }
      if earlier.Some? {
        return Ok(earlier.value), reuse, drop;
      }
      result := InsertFresh(sid, now, victim);
    }

    /** The cleanup, the quotas and the insert of an issue. */
    method InsertFresh(sid: Id, now: Time, victim: Option<Id>) returns (result: Result<Id, CursorError>)
      requires sid in sessions && sid in scopes
      modifies this`bookmarks, this`nextId
      ensures
        var db1 := DropBookmark(old(Db()), victim);
        if BookmarksFull(db1.bookmarks, sessions[sid].identity) then result == Err(BookmarkCapacity) && Db() == old(Db())
        else result == Ok(db1.nextId) && Db() == InsertBookmark(db1, NewBookmark(old(Db()), sid, now))
    {
      var s, scope := sessions[sid], scopes[sid];
      var kept := if victim.Some? then bookmarks - {victim.value} else bookmarks;
      assert DropBookmark(Db(), victim) == Db().(bookmarks := kept);
      if BookmarksFull(kept, s.identity) {
        return Err(BookmarkCapacity);
      }
      bookmarks := kept[nextId := Bookmark(sid, Stable(s.identity), s.policy, scope.state, s.watermark, scope.parent,
                                           now, now + BOOKMARK_SECONDS)];
      result := Ok(nextId);
      nextId := nextId + 1;
    }

    /** `start`: capture, bind the scope, and serve the first page. */
    method StartSnapshot(state: Option<Lifecycle>, limit: nat, identity: Identity, policy: string, authorize: Incident -> bool,
                         now: Time, readNow: Time, issueNow: Time)
      returns (result: Result<(PageResult, Option<Id>), CursorError>, ghost evict: Option<Id>, ghost reuse: Option<Id>, ghost drop: Option<Id>)
      requires BookmarkInv(Db())
      modifies this
      ensures BookmarkInv(Db()) && EvictionChoice(old(Db()), now, evict)
      ensures
        match Start(old(Db()), state, limit, identity, policy, now, evict)
        case Ok((db, token)) =>
          (Db(), result) == BindAndServe(db, token, state, None, None, identity, policy, authorize, readNow, issueNow, reuse, drop)
        case Err(e) => Db() == old(Db()) && result == Err(e)
    {
      hide BookmarkInv, Capture, EvictionChoice, WellKeyed, BindAndServe, Bindable;
      ghost var before := Db();
      InvKeyed(before);
      reuse, drop := None, None;
      var first;
      first, evict := CaptureSnapshot(StateFilter(state), limit, None, identity, policy, now);
      if first.Err? {
        return Err(first.error), evict, reuse, drop;
      }
      StartBindable(before, state, limit, identity, policy, now, evict);
      result, reuse, drop := OpenFirstPage(first.value, state, None, None, identity, policy, authorize, readNow, issueNow);
    }

    /** `resume`: the capture is bounded below by the bookmark's watermark; then its scope and its first page. */
    method ResumeSnapshot(token: Id, limit: nat, identity: Identity, policy: string, authorize: Incident -> bool,
                          now: Time, readNow: Time, issueNow: Time)
      returns (result: Result<(PageResult, Option<Id>), CursorError>, ghost evict: Option<Id>, ghost reuse: Option<Id>, ghost drop: Option<Id>)
      requires BookmarkInv(Db())
      modifies this
      ensures BookmarkInv(Db())
      ensures ResumeGuard(old(Db()), token, identity, policy, now).None? ==> EvictionChoice(old(Db()), now, evict)
      ensures
        match Resume(old(Db()), token, limit, identity, policy, now, evict)
        case Ok((db, first)) =>
          var b := old(Db()).bookmarks[token];
          (Db(), result) == BindAndServe(db, first, b.state, Some(token), Some(b.watermark), identity, policy, authorize,
                                         readNow, issueNow, reuse, drop)
        case Err(e) => Db() == old(Db()) && result == Err(e)
    {
      hide BookmarkInv, Capture, EvictionChoice, WellKeyed, BindAndServe, Bindable;
      ghost var before := Db();
      InvKeyed(before);
      evict, reuse, drop := None, None, None;
      if token !in bookmarks || bookmarks[token].identity != Stable(identity) {
        return Err(BookmarkNotFound), evict, reuse, drop;
      }
      var b := bookmarks[token];
      if b.policy != policy {
        return Err(BookmarkPolicyChanged), evict, reuse, drop;
      }
      if b.expiresAt <= now || b.watermark < floor {
        return Err(BookmarkHistoryGap), evict, reuse, drop;
      }
      var first;
      first, evict := CaptureSnapshot(StateFilter(b.state), limit, Some(b.watermark), identity, policy, now);
      if first.Err? {
        return Err(first.error), evict, reuse, drop;
      }
      ResumeBindable(before, token, limit, identity, policy, now, evict);
      result, reuse, drop := OpenFirstPage(first.value, b.state, Some(token), Some(b.watermark), identity, policy, authorize, readNow, issueNow);
    }

    method OpenFirstPage(token: Id, state: Option<Lifecycle>, parent: Option<Id>, lower: Option<nat>, identity: Identity, policy: string,
                         authorize: Incident -> bool, now: Time, issueNow: Time)
      returns (result: Result<(PageResult, Option<Id>), CursorError>, ghost reuse: Option<Id>, ghost drop: Option<Id>)
      requires BookmarkInv(Db()) && Bindable(Db(), token, state, parent, lower)
      modifies this
      ensures BookmarkInv(Db())
      ensures (Db(), result) ==
                BindAndServe(old(Db()), token, state, parent, lower, identity, policy, authorize, now, issueNow, reuse, drop)
    {
      hide BookmarkInv, Bind, Serve, Bindable, IssueChoices, ReadPage;
      reuse, drop := None, None;
      var refused := BindScope(token, state, parent, lower);
      if refused.Some? {
        return Err(refused.value), reuse, drop;
      }
      result, reuse, drop := ReadBookmarkPage(token, identity, policy, authorize, now, issueNow);
    }

    /** `_scope`: the capture's filter, parent and frame, recorded once. */
    method BindScope(token: Id, state: Option<Lifecycle>, parent: Option<Id>, lower: Option<nat>) returns (error: Option<CursorError>)
      requires BookmarkInv(Db()) && Bindable(Db(), token, state, parent, lower)
      modifies this`scopes
      ensures BookmarkInv(Db())
      ensures
        match Bind(old(Db()), token, state, parent, lower)
        case Ok(db) => Db() == db && error.None?
        case Err(e) => Db() == old(Db()) && error == Some(e)
    {
      if Bind(Db(), token, state, parent, lower).Ok? {
        BindKeepsInv(Db(), token, state, parent, lower);
      }
      hide BookmarkInv, FrameOf, Evolves, Bindable;
      if token !in cursors || cursors[token].session !in sessions || cursors[token].session in scopes {
        return Some(ScopeRefused);
      }
      var sid := cursors[token].session;
      scopes := scopes[sid := Scope(state, parent, lower, FrameOf(sessions[sid]))];
      error := None;
    }
  }
}
