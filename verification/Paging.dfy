/**
 Paging is exact under interleaving: whatever else the store does between two reads, following
 `nextCursor` from a snapshot's first cursor yields the captured list, once and in order.
 */
module Paging {
  import opened Common
  import opened Incidents
  import opened Cursor

  /** `max(1, ceil(n / limit))`, by taking one page at a time. */
  function PageCount(n: nat, limit: nat): nat
    requires limit > 0
    decreases n
  {
    if n <= limit then 1 else 1 + PageCount(n - limit, limit)
  }

  lemma {:induction false} PageStartIsProduct(limit: nat, k: nat)
    ensures PageStart(limit, k) == k * limit
    decreases k
  {
    if k > 0 {
      PageStartIsProduct(limit, k - 1);
    }
  }

  /** `PageCount` is the least k >= 1 with n <= k * limit, that is, `max(1, ceil(n / limit))`. */
  lemma {:induction false} PageCountIsCeiling(n: nat, limit: nat)
    requires limit > 0
    ensures PageCount(n, limit) >= 1
    ensures n <= PageCount(n, limit) * limit
    ensures n > 0 ==> (PageCount(n, limit) - 1) * limit < n
    decreases n
  {
    if n > limit {
      PageCountIsCeiling(n - limit, limit);
      assert PageCount(n, limit) * limit == PageCount(n - limit, limit) * limit + limit;
    }
  }

  lemma {:induction false} PageCountFromStarts(n: nat, limit: nat, m: nat)
    requires limit > 0 && m >= 1 && n <= PageStart(limit, m)
    requires m > 1 ==> PageStart(limit, m - 1) < n
    ensures PageCount(n, limit) == m
    decreases m
  {
    if m == 1 {
      assert PageStart(limit, 1) == PageStart(limit, 0) + limit;
    } else {
      PageStartIsProduct(limit, m);
      PageStartIsProduct(limit, m - 1);
      PageStartIsProduct(limit, m - 2);
      assert m * limit == (m - 1) * limit + limit && (m - 1) * limit == (m - 2) * limit + limit;
      assert PageStart(limit, m - 2) >= 0;
      PageCountFromStarts(n - limit, limit, m - 1);
    }
  }

  lemma {:induction false} VisibleConcat(a: seq<Incident>, b: seq<Incident>, authorize: Incident -> bool)
    ensures Visible(a + b, authorize) == Visible(a, authorize) + Visible(b, authorize)
    decreases |a|
  {
    if a == [] {
      assert a + b == b;
    } else {
      var head := if authorize(a[0]) then [a[0]] else [];
      assert (a + b)[0] == a[0] && (a + b)[1..] == a[1..] + b;
      assert Visible(a + b, authorize) == head + Visible(a[1..] + b, authorize);
      VisibleConcat(a[1..], b, authorize);
      assert Visible(a, authorize) == head + Visible(a[1..], authorize);
    }
  }

  // ---------------------------------------------------------------- what no step can change

  /**
   How any later database relates to an earlier one: the ledger only grows, a live session is
   unchanged, its cursors and scope are unchanged, and no identifier is used twice.
   */
  ghost predicate Evolves(db: OwnerDb, db': OwnerDb) {
    && db.nextId <= db'.nextId
    && db.incidents.ledger <= db'.incidents.ledger
    && (forall sid | sid in db'.sessions && sid < db.nextId :: sid in db.sessions && db'.sessions[sid] == db.sessions[sid])
    && (forall t | t in db.cursors && db.cursors[t].session in db'.sessions ::
          t in db'.cursors && db'.cursors[t] == db.cursors[t])
    && (forall t | t in db'.cursors && t < db.nextId :: t in db.cursors && db'.cursors[t] == db.cursors[t])
    && (forall sid | sid in db.scopes && sid in db'.sessions :: sid in db'.scopes && db'.scopes[sid] == db.scopes[sid])
    && (forall t | t in db'.bookmarks && t < db.nextId :: t in db.bookmarks && db'.bookmarks[t] == db.bookmarks[t])
    && db.floor <= db'.floor
  }

  ghost predicate KeysFresh(db: OwnerDb) {
    && (forall sid | sid in db.sessions :: sid < db.nextId)
    && (forall sid | sid in db.scopes :: sid < db.nextId)
    && (forall t | t in db.cursors :: db.cursors[t].session < db.nextId)
    && (forall t | t in db.bookmarks :: t < db.nextId)
  }

  lemma EvolvesTransitive(a: OwnerDb, b: OwnerDb, c: OwnerDb)
    requires KeysFresh(a) && Evolves(a, b) && Evolves(b, c)
    ensures Evolves(a, c)
  {
  }

  lemma DropEvolves(db: OwnerDb, evict: Option<Id>)
    ensures Evolves(db, DropSession(db, evict))
  {
  }

  lemma InsertEvolves(db: OwnerDb, s: Session)
    requires KeysFresh(db) && forall t | t in db.cursors :: t < db.nextId
    ensures Evolves(db, InsertSession(db, s))
  {
  }

  lemma DropFacts(db: OwnerDb, evict: Option<Id>)
    requires CursorInv(db) && KeysFresh(db)
    ensures
      var db1 := DropSession(db, evict);
      && WellKeyed(db.incidents.ledger) && db1.incidents == db.incidents
      && KeysFresh(db1) && forall t | t in db1.cursors :: t < db1.nextId
  {
    hide Quotas, CursorsUnique, CursorOk, SessionOk;
  }

  lemma CaptureEvolves(db: OwnerDb, f: Filter, limit: nat, lower: Option<nat>, identity: Identity, policy: string,
                       now: Time, evict: Option<Id>)
    requires CursorInv(db) && KeysFresh(db)
    requires Capture(db, f, limit, lower, identity, policy, now, evict).Ok?
    ensures Evolves(db, Capture(db, f, limit, lower, identity, policy, now, evict).value.0)
  {
    hide CursorInv, CaptureItems, Available, SessionsFull, Evolves, DropSession, InsertSession, NewSession, WellKeyed;
    var db1 := DropSession(db, evict);
    DropEvolves(db, evict);
    DropFacts(db, evict);
    var items := CaptureItems(db1.incidents.ledger, f, if lower.Some? then lower.value else 0);
    var s := NewSession(db1, f, limit, identity, policy, now, items);
    InsertEvolves(db1, s);
    EvolvesTransitive(db, db1, InsertSession(db1, s));
  }

  lemma FollowingCursorEvolves(db: OwnerDb, sid: Id, position: nat)
    requires forall t | t in db.cursors :: t < db.nextId
    ensures
      var (db', t) := FollowingCursor(db, sid, position);
      && Evolves(db, db') && db' == db.(cursors := db'.cursors, nextId := db'.nextId)
      && t in db'.cursors && db'.cursors[t] == PageCursor(sid, position)
  {
  }

  lemma PageEvolves(db: OwnerDb, c: PageCursor)
    requires c.session in db.sessions
    requires forall t | t in db.cursors :: t < db.nextId
    ensures Evolves(db, PageDb(db, c))
    ensures PageDb(db, c) == db.(cursors := PageDb(db, c).cursors, nextId := PageDb(db, c).nextId)
    ensures PageNext(db, c).Some? ==>
              PageNext(db, c).value in PageDb(db, c).cursors
              && PageDb(db, c).cursors[PageNext(db, c).value] == PageCursor(c.session, NextPosition(db, c))
  {
    FollowingCursorEvolves(db, c.session, NextPosition(db, c));
  }

  // ---------------------------------------------------------------- one read

  /** The items of page `k`. */
  function Span(s: Session, k: nat): seq<Incident> {
    var from, to := Min(PageStart(s.limit, k), |s.items|), Min(PageStart(s.limit, k + 1), |s.items|);
    if from <= to then s.items[from..to] else []
  }

  lemma SliceIsSpan(s: Session, k: nat)
    requires PageStart(s.limit, k) == 0 || PageStart(s.limit, k) < |s.items|
    ensures Slice(s, PageStart(s.limit, k)) == Span(s, k)
    ensures PageStart(s.limit, k) + |Span(s, k)| == Min(PageStart(s.limit, k + 1), |s.items|)
  {
    SliceEnds(s, PageStart(s.limit, k));
    assert PageStart(s.limit, k + 1) == PageStart(s.limit, k) + s.limit;
  }

  /** A read returns the page at its cursor; its next cursor is the following page start, if any remains. */
  lemma PageReads(db: OwnerDb, token: Id, identity: Identity, policy: string, authorize: Incident -> bool, now: Time, k: nat)
    requires CursorInv(db)
    requires Page(db, token, identity, policy, authorize, now).Ok?
    requires db.cursors[token].position == PageStart(db.sessions[db.cursors[token].session].limit, k)
    ensures Page(db, token, identity, policy, authorize, now).value.1.items
         == Visible(Span(db.sessions[db.cursors[token].session], k), authorize)
    ensures PageNext(db, db.cursors[token]).Some? <==>
              PageStart(db.sessions[db.cursors[token].session].limit, k + 1) < |db.sessions[db.cursors[token].session].items|
    ensures PageNext(db, db.cursors[token]).Some? ==>
              NextPosition(db, db.cursors[token]) == PageStart(db.sessions[db.cursors[token].session].limit, k + 1)
  {
    assert CursorOk(db, db.cursors[token]);
    SliceIsSpan(db.sessions[db.cursors[token].session], k);
  }

  lemma CursorAtIs(db: OwnerDb, t: Id)
    requires t in db.cursors && CursorsUnique(db)
    ensures CursorAt(db, db.cursors[t].session, db.cursors[t].position) == Some(t)
  {
    var c := db.cursors[t];
    assert c == PageCursor(c.session, c.position);
  }

  /** Reading the same cursor again, any time later and under any other row policy, gives the same next token. */
  lemma ReReadGivesSameNext(db: OwnerDb, later: OwnerDb, token: Id, identity: Identity, policy: string,
                            authorize: Incident -> bool, authorize': Incident -> bool, now: Time, now': Time)
    requires CursorInv(db) && KeysFresh(db) && CursorInv(later)
    requires Page(db, token, identity, policy, authorize, now).Ok?
    requires Evolves(Page(db, token, identity, policy, authorize, now).value.0, later)
    requires Page(later, token, identity, policy, authorize', now').Ok?
    ensures
      var first, again := Page(db, token, identity, policy, authorize, now).value.1, Page(later, token, identity, policy, authorize', now').value.1;
      && again.next == first.next && again.truncated == first.truncated && again.session == first.session
      && (authorize' == authorize ==> again == first)
  {
    hide CursorInv, KeysFresh, Evolves, PageDb, PageNext, Truncated, Slice, Visible;
    var c := db.cursors[token];
    SameNext(db, later, token);
  }

  lemma NextFacts(db: OwnerDb, c: PageCursor)
    requires CursorInv(db) && KeysFresh(db) && c in db.cursors.Values && c.session in db.sessions
    ensures CursorInv(PageDb(db, c)) && Evolves(db, PageDb(db, c))
    ensures PageDb(db, c).sessions == db.sessions
    ensures PageNext(db, c).Some? <==> Truncated(db, c)
    ensures Truncated(db, c) ==>
              && PageNext(db, c).value in PageDb(db, c).cursors
              && PageDb(db, c).cursors[PageNext(db, c).value] == PageCursor(c.session, NextPosition(db, c))
  {
    hide Slice;
    PageEvolves(db, c);
    PageKeepsInv(db, c);
  }

  lemma PageNextIs(db: OwnerDb, c: PageCursor, t: Id)
    requires CursorInv(db) && c.session in db.sessions && Truncated(db, c)
    requires t in db.cursors && db.cursors[t] == PageCursor(c.session, NextPosition(db, c))
    ensures PageNext(db, c) == Some(t)
  {
    CursorAtIs(db, t);
    hide CursorInv, CursorAt, Truncated, NextPosition;
  }

  lemma NextIffTruncated(db: OwnerDb, c: PageCursor)
    requires c.session in db.sessions
    ensures PageNext(db, c).Some? <==> Truncated(db, c)
  {
    hide Truncated;
  }

  lemma SameCursor(db: OwnerDb, later: OwnerDb, token: Id)
    requires CursorInv(db) && Evolves(db, later) && token in db.cursors && token in later.cursors
    ensures later.cursors[token] == db.cursors[token]
  {
  }

  /** A cursor read again, while its session lives, has the same following token. */
  lemma SameNext(db: OwnerDb, later: OwnerDb, token: Id)
    requires CursorInv(db) && KeysFresh(db) && CursorInv(later)
    requires token in db.cursors && db.cursors[token].session in db.sessions
    requires token in later.cursors && later.cursors[token].session in later.sessions
    requires Evolves(PageDb(db, db.cursors[token]), later)
    ensures token in later.cursors && later.cursors[token] == db.cursors[token]
    ensures later.sessions[db.cursors[token].session] == db.sessions[db.cursors[token].session]
    ensures PageNext(later, db.cursors[token]) == PageNext(db, db.cursors[token])
    ensures Truncated(later, db.cursors[token]) == Truncated(db, db.cursors[token])
  {
    hide CursorInv, KeysFresh, Evolves, PageDb, PageNext, Slice;
    var c := db.cursors[token];
    NextFacts(db, c);
    EvolvesTransitive(db, PageDb(db, c), later);
    SameCursor(db, later, token);
    CursorSurvives(db, later, token);
    NextIffTruncated(later, c);
    if Truncated(db, c) {
      var t := PageNext(db, c).value;
      CursorSurvives(PageDb(db, c), later, t);
      PageNextIs(later, c, t);
    }
  }

  lemma CursorSurvives(db: OwnerDb, later: OwnerDb, token: Id)
    requires CursorInv(db) && CursorInv(later) && Evolves(db, later)
    requires token in db.cursors && db.cursors[token].session in later.sessions
    ensures token in later.cursors && later.cursors[token] == db.cursors[token]
    ensures later.sessions[db.cursors[token].session] == db.sessions[db.cursors[token].session]
  {
  }

  // ---------------------------------------------------------------- a whole walk

  /** One read by a client: the database it found, the token it sent, the row policy of that moment, and when. */
  datatype Visit = Visit(db: OwnerDb, token: Id, authorize: Incident -> bool, now: Time)

  ghost predicate VisitOk(v: Visit, identity: Identity, policy: string) {
    && CursorInv(v.db) && KeysFresh(v.db)
    && Page(v.db, v.token, identity, policy, v.authorize, v.now).Ok?
  }

  ghost function VisitCursor(v: Visit): PageCursor
    requires v.token in v.db.cursors
  {
    v.db.cursors[v.token]
  }

  /** The items a read returned. */
  ghost function ReturnedBy(v: Visit, identity: Identity, policy: string): seq<Incident>
    requires VisitOk(v, identity, policy)
  {
    Page(v.db, v.token, identity, policy, v.authorize, v.now).value.1.items
  }

  /** `b` follows the next cursor that `a` was given, after anything else happened in between. */
  ghost predicate Follows(a: Visit, b: Visit)
    requires a.token in a.db.cursors && a.db.cursors[a.token].session in a.db.sessions
  {
    && PageNext(a.db, VisitCursor(a)) == Some(b.token)
    && Evolves(PageDb(a.db, VisitCursor(a)), b.db)
  }

  /** A client starts at the first page and follows every next cursor until there is none. */
  ghost predicate Walk(visits: seq<Visit>, identity: Identity, policy: string) {
    && visits != []
    && (forall i | 0 <= i < |visits| :: VisitOk(visits[i], identity, policy))
    && VisitCursor(visits[0]).position == 0
    && (forall i | 0 <= i < |visits| - 1 :: Follows(visits[i], visits[i + 1]))
    && PageNext(visits[|visits| - 1].db, VisitCursor(visits[|visits| - 1])).None?
  }

  ghost function WalkSession(visits: seq<Visit>): Session
    requires visits != [] && visits[0].token in visits[0].db.cursors
    requires visits[0].db.cursors[visits[0].token].session in visits[0].db.sessions
  {
    visits[0].db.sessions[visits[0].db.cursors[visits[0].token].session]
  }

  /** Everything the first `m` reads returned. */
  ghost function Returned(visits: seq<Visit>, m: nat, identity: Identity, policy: string): seq<Incident>
    requires m <= |visits| && forall i | 0 <= i < |visits| :: VisitOk(visits[i], identity, policy)
  {
    if m == 0 then [] else Returned(visits, m - 1, identity, policy) + ReturnedBy(visits[m - 1], identity, policy)
  }

  lemma {:induction false} WalkPosition(visits: seq<Visit>, i: nat, identity: Identity, policy: string)
    requires Walk(visits, identity, policy) && i < |visits|
    ensures VisitCursor(visits[i]) == PageCursor(VisitCursor(visits[0]).session, PageStart(WalkSession(visits).limit, i))
    ensures visits[i].db.sessions[VisitCursor(visits[i]).session] == WalkSession(visits)
    ensures i > 0 ==> PageStart(WalkSession(visits).limit, i) < |WalkSession(visits).items|
    decreases i
  {
    assert VisitOk(visits[i], identity, policy);
    if i > 0 {
      WalkPosition(visits, i - 1, identity, policy);
      var a, b := visits[i - 1], visits[i];
      assert VisitOk(a, identity, policy) && Follows(a, b);
      var c := VisitCursor(a);
      PageReads(a.db, a.token, identity, policy, a.authorize, a.now, i - 1);
      PageEvolves(a.db, c);
      assert PageNext(a.db, c).Some?;
      assert PageDb(a.db, c).cursors[b.token] == PageCursor(c.session, PageStart(WalkSession(visits).limit, i));
      NextTokenSurvives(a, b, identity, policy);
    }
  }

  lemma NextTokenSurvives(a: Visit, b: Visit, identity: Identity, policy: string)
    requires VisitOk(a, identity, policy) && VisitOk(b, identity, policy) && Follows(a, b)
    ensures b.token in PageDb(a.db, VisitCursor(a)).cursors
    ensures b.db.cursors[b.token] == PageDb(a.db, VisitCursor(a)).cursors[b.token]
    ensures b.db.sessions[b.db.cursors[b.token].session] == a.db.sessions[VisitCursor(a).session]
  {
    var c := VisitCursor(a);
    PageEvolves(a.db, c);
    assert CursorOk(a.db, c);
    PageKeepsInv(a.db, c);
    var mid := PageDb(a.db, c);
    assert b.token in mid.cursors && b.token < mid.nextId;
    assert b.token in b.db.cursors;
    assert b.db.cursors[b.token] == mid.cursors[b.token];
    assert mid.cursors[b.token].session == c.session;
    assert c.session < mid.nextId;
  }

  /** The pages of a session put together. */
  function Spans(s: Session, m: nat): seq<Incident> {
    if m == 0 then [] else Spans(s, m - 1) + Span(s, m - 1)
  }

  lemma SpanIs(s: Session, k: nat)
    ensures
      var from, to := Min(PageStart(s.limit, k), |s.items|), Min(PageStart(s.limit, k + 1), |s.items|);
      from <= to && s.items[..to] == s.items[..from] + Span(s, k)
  {
  }

  lemma {:induction false} SpansArePrefix(s: Session, m: nat)
    ensures Spans(s, m) == s.items[..Min(PageStart(s.limit, m), |s.items|)]
    decreases m
  {
    if m > 0 {
      hide Span;
      SpansArePrefix(s, m - 1);
      SpanIs(s, m - 1);
    }
  }

  lemma {:induction false} VisibleSame(items: seq<Incident>, a: Incident -> bool, b: Incident -> bool)
    requires forall x | x in items :: a(x) == b(x)
    ensures Visible(items, a) == Visible(items, b)
    decreases |items|
  {
    if items != [] {
      assert items[0] in items;
      forall x | x in items[1..] ensures a(x) == b(x) {
        assert x in items;
      }
      VisibleSame(items[1..], a, b);
    }
  }

  /** The reads of a walk agree with one policy on the items of the pages they read. */
  ghost predicate ShownBy(visits: seq<Visit>, s: Session, shown: Incident -> bool) {
    forall i: nat, x | i < |visits| && x in Span(s, i) :: visits[i].authorize(x) == shown(x)
  }

  lemma {:induction false} ReturnedPrefix(visits: seq<Visit>, m: nat, identity: Identity, policy: string, shown: Incident -> bool)
    requires Walk(visits, identity, policy) && m <= |visits| && ShownBy(visits, WalkSession(visits), shown)
    ensures Returned(visits, m, identity, policy) == Visible(Spans(WalkSession(visits), m), shown)
    decreases m
  {
    if m > 0 {
      ReturnedPrefix(visits, m - 1, identity, policy, shown);
      ReturnedOne(visits, m - 1, identity, policy);
      var s := WalkSession(visits);
      VisibleSame(Span(s, m - 1), visits[m - 1].authorize, shown);
      VisibleConcat(Spans(s, m - 1), Span(s, m - 1), shown);
    }
  }

  lemma ReturnedOne(visits: seq<Visit>, i: nat, identity: Identity, policy: string)
    requires Walk(visits, identity, policy) && i < |visits|
    ensures VisitOk(visits[i], identity, policy)
    ensures ReturnedBy(visits[i], identity, policy) == Visible(Span(WalkSession(visits), i), visits[i].authorize)
  {
    WalkPosition(visits, i, identity, policy);
    var v := visits[i];
    assert VisitOk(v, identity, policy);
    PageReads(v.db, v.token, identity, policy, v.authorize, v.now, i);
  }

  lemma WalkEnds(visits: seq<Visit>, identity: Identity, policy: string)
    requires Walk(visits, identity, policy)
    ensures 1 <= WalkSession(visits).limit && |WalkSession(visits).items| <= WalkSession(visits).limit * 200
    ensures |WalkSession(visits).items| <= PageStart(WalkSession(visits).limit, |visits|)
    ensures |visits| > 1 ==> PageStart(WalkSession(visits).limit, |visits| - 1) < |WalkSession(visits).items|
  {
    assert VisitOk(visits[0], identity, policy);
    assert SessionOk(visits[0].db, WalkSession(visits));
    WalkPosition(visits, |visits| - 1, identity, policy);
    var v := visits[|visits| - 1];
    assert VisitOk(v, identity, policy);
    PageReads(v.db, v.token, identity, policy, v.authorize, v.now, |visits| - 1);
  }

  lemma AtMost200Pages(n: nat, limit: nat)
    requires limit > 0 && n <= limit * 200
    ensures PageCount(n, limit) <= 200
  {
    PageCountIsCeiling(n, limit);
    ProductMonotone(200, PageCount(n, limit) - 1, limit);
  }

  lemma ProductMonotone(a: int, b: int, k: nat)
    ensures a <= b ==> a * k <= b * k
  {
    assert (b - a) * k == b * k - a * k;
  }

  lemma WalkLength(visits: seq<Visit>, identity: Identity, policy: string)
    requires Walk(visits, identity, policy)
    ensures WalkSession(visits).limit > 0
    ensures |visits| == PageCount(|WalkSession(visits).items|, WalkSession(visits).limit) <= 200
    ensures Spans(WalkSession(visits), |visits|) == WalkSession(visits).items
  {
    var s := WalkSession(visits);
    hide *;
    WalkEnds(visits, identity, policy);
    SpansArePrefix(s, |visits|);
    PageCountFromStarts(|s.items|, s.limit, |visits|);
    AtMost200Pages(|s.items|, s.limit);
    MinOf(PageStart(s.limit, |visits|), |s.items|);
  }

  lemma MinOf(a: nat, b: nat)
    requires b <= a
    ensures Min(a, b) == b
  {
  }

  /**
   Paging is exact. A walk of any session, with any interleaving between its reads, makes
   `max(1, ceil(n / limit))` reads, at most 200; each read returns what its own row policy shows of its page, and the
   pages put together are exactly the captured items, in captured order.
   */
  lemma PagingIsExact(visits: seq<Visit>, identity: Identity, policy: string)
    requires Walk(visits, identity, policy)
    ensures WalkSession(visits).limit > 0
    ensures |visits| == PageCount(|WalkSession(visits).items|, WalkSession(visits).limit) <= 200
    ensures forall i | 0 <= i < |visits| ::
              ReturnedBy(visits[i], identity, policy) == Visible(Span(WalkSession(visits), i), visits[i].authorize)
    ensures Spans(WalkSession(visits), |visits|) == WalkSession(visits).items
  {
    WalkLength(visits, identity, policy);
    hide Spans, Span, Visible, PageCount, ReturnedBy;
    forall i | 0 <= i < |visits|
      ensures ReturnedBy(visits[i], identity, policy) == Visible(Span(WalkSession(visits), i), visits[i].authorize)
    {
      ReturnedOne(visits, i, identity, policy);
    }
  }

  /** A walk whose reads agree with one policy returns, all in all, what that policy shows of the captured list. */
  lemma SteadyPagingIsExact(visits: seq<Visit>, identity: Identity, policy: string, shown: Incident -> bool)
    requires Walk(visits, identity, policy) && ShownBy(visits, WalkSession(visits), shown)
    ensures Returned(visits, |visits|, identity, policy) == Visible(WalkSession(visits).items, shown)
  {
    WalkLength(visits, identity, policy);
    ReturnedPrefix(visits, |visits|, identity, policy, shown);
  }
}
