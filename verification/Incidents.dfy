/**
 The Gateway's incident table, its append-only ledger, and the order in which incidents are listed.
 Every insert or update of the table appends the whole new row to the ledger (the two triggers of
 tools/operational_cursor.py); nothing removes or rewrites a ledger entry. A revision `r` is the
 entry at index `r - 1`.
 */
module Incidents {
  import opened Common

  datatype Lifecycle = Opened | Recovering | Resolved

  datatype Severity = Info | Warning | Error | Critical

  datatype Incident = Incident(
    id: Id, dedupKey: string, eventType: string, lifecycle: Lifecycle, severity: Severity,
    firstSeen: Time, lastSeen: Time, resolvedAt: Option<Time>,
    correlation: Option<string>, endpoint: Option<string>, errorCode: Option<string>,
    impact: string, actionRequired: bool, occurrences: nat)

  /** The arguments of `open_incident`. */
  datatype Report = Report(
    dedupKey: string, eventType: string, severity: Severity, errorCode: Option<string>, impact: string,
    correlation: Option<string>, endpoint: Option<string>, actionRequired: bool, visibility: string)

  const RESTRICTED := "RESTRICTED_OPERATIONAL"

  datatype Entry = Entry(incident: Id, body: Incident)

  datatype IncidentDb = IncidentDb(rows: map<Id, Incident>, ledger: seq<Entry>, nextId: Id)

  datatype IncidentError = IdentityMissing | VisibilityRefused | LimitOutOfRange

  /** A state filter and a lower bound on `last_seen_at`; both optional. */
  datatype Filter = Filter(state: Option<Lifecycle>, since: Option<Time>)

  const EVERYTHING := Filter(None, None)

  // ---------------------------------------------------------------- listing order

  function SeverityRank(s: Severity): nat {
    match s case Info => 1 case Warning => 2 case Error => 3 case Critical => 4
  }

  function ResolvedRank(s: Lifecycle): nat {
    if s == Resolved then 1 else 0
  }

  /** Unresolved first, then most severe, then action required, then most recent, then by id. */
  predicate Before(a: Incident, b: Incident) {
    if ResolvedRank(a.lifecycle) != ResolvedRank(b.lifecycle) then ResolvedRank(a.lifecycle) < ResolvedRank(b.lifecycle)
    else if SeverityRank(a.severity) != SeverityRank(b.severity) then SeverityRank(a.severity) > SeverityRank(b.severity)
    else if a.actionRequired != b.actionRequired then a.actionRequired
    else if a.lastSeen != b.lastSeen then a.lastSeen > b.lastSeen
    else a.id < b.id
  }

  ghost predicate DistinctIds(s: set<Incident>) {
    forall a, b | a in s && b in s && a.id == b.id :: a == b
  }

  /** The listing order never ties, so a result set has exactly one listing. */
  lemma PriorityIsTotal(s: set<Incident>)
    requires DistinctIds(s)
    ensures StrictTotalOrder(Before, s)
  {
    forall x, y | x in s && y in s && x != y ensures Before(x, y) || Before(y, x) {
      assert x.id != y.id;
    }
  }

  /** `a` is less serious than `b`, the severities named. */
  predicate Milder(a: Severity, b: Severity) {
    match b
    case Critical => a != Critical
    case Error => a == Warning || a == Info
    case Warning => a == Info
    case Info => false
  }

  lemma RankIsSeverity(a: Severity, b: Severity)
    ensures SeverityRank(a) < SeverityRank(b) <==> Milder(a, b)
  {
  }

  /** In a listing, resolved rows come last, then the more serious come first, then those that need action, then the latest. */
  lemma ListedInOrder(q: seq<Incident>, s: set<Incident>, i: nat, j: nat)
    requires IsListing(Before, q, s) && i < j < |q|
    ensures q[i].lifecycle == Resolved ==> q[j].lifecycle == Resolved
    ensures (q[i].lifecycle == Resolved <==> q[j].lifecycle == Resolved) ==> !Milder(q[i].severity, q[j].severity)
    ensures
      (q[i].lifecycle == Resolved <==> q[j].lifecycle == Resolved) && q[i].severity == q[j].severity ==>
        && (q[j].actionRequired ==> q[i].actionRequired)
        && (q[i].actionRequired == q[j].actionRequired ==> q[j].lastSeen <= q[i].lastSeen)
        && (q[i].actionRequired == q[j].actionRequired && q[i].lastSeen == q[j].lastSeen ==> q[i].id < q[j].id)
  {
    assert Before(q[i], q[j]);
    RankIsSeverity(q[i].severity, q[j].severity);
  }

  predicate Matches(f: Filter, x: Incident) {
    && (f.state.Some? ==> x.lifecycle == f.state.value)
    && (f.since.Some? ==> x.lastSeen >= f.since.value)
  }

  // ---------------------------------------------------------------- table writes

  ghost function Owner(db: IncidentDb, key: string): Option<Id> {
    if exists id :: id in db.rows && db.rows[id].dedupKey == key
    then var id :| id in db.rows && db.rows[id].dedupKey == key; Some(id)
    else None
  }

  /** A row write together with its trigger. */
  function Write(db: IncidentDb, row: Incident): IncidentDb {
    db.(rows := db.rows[row.id := row], ledger := db.ledger + [Entry(row.id, row)])
  }

  function Coalesce<T>(a: Option<T>, b: Option<T>): Option<T> {
    if a.Some? then a else b
  }

  function FirstRow(id: Id, r: Report, now: Time): Incident {
    Incident(id, r.dedupKey, r.eventType, Opened, r.severity, now, now, None,
             r.correlation, r.endpoint, r.errorCode, r.impact, r.actionRequired, 1)
  }

  function MergedRow(row: Incident, r: Report, now: Time): Incident {
    row.(eventType := r.eventType, lifecycle := Opened, severity := r.severity,
         lastSeen := Later(row.lastSeen, now), resolvedAt := None,
         correlation := Coalesce(r.correlation, row.correlation), endpoint := Coalesce(r.endpoint, row.endpoint),
         errorCode := r.errorCode, impact := r.impact, actionRequired := r.actionRequired,
         occurrences := row.occurrences + 1)
  }

  function RecoveringRow(row: Incident, impact: string, now: Time): Incident {
    row.(lifecycle := Recovering, lastSeen := Later(row.lastSeen, now), resolvedAt := None,
         impact := impact, actionRequired := false)
  }

  function ResolvedRow(row: Incident, impact: string, now: Time): Incident {
    row.(lifecycle := Resolved, lastSeen := Later(row.lastSeen, now), resolvedAt := Some(Later(row.lastSeen, now)),
         impact := impact, actionRequired := false)
  }

  predicate ReportIdentified(r: Report) {
    r.dedupKey != "" && r.eventType != "" && r.impact != ""
  }

  predicate ReportAccepted(r: Report) {
    ReportIdentified(r) && r.visibility == RESTRICTED
  }

  /** The three table writes of `SQLiteOperationalIncidentStore`. */
  datatype Update =
    | OpenUpdate(report: Report)
    | RecoveringUpdate(key: string, impact: string)
    | ResolveUpdate(key: string, impact: string)

  ghost function Apply(db: IncidentDb, u: Update, now: Time): IncidentDb {
    match u
    case OpenUpdate(r) =>
      if !ReportAccepted(r) then db
      else if Owner(db, r.dedupKey).Some? then Write(db, MergedRow(db.rows[Owner(db, r.dedupKey).value], r, now))
      else Write(db.(nextId := db.nextId + 1), FirstRow(db.nextId, r, now))
    case RecoveringUpdate(key, impact) =>
      if Owner(db, key).Some? then Write(db, RecoveringRow(db.rows[Owner(db, key).value], impact, now)) else db
    case ResolveUpdate(key, impact) =>
      if Owner(db, key).Some? then Write(db, ResolvedRow(db.rows[Owner(db, key).value], impact, now)) else db
  }

  /** Which rows a filter lets through. */
  lemma FilterOutcome(f: Filter, x: Incident)
    ensures Matches(f, x) <==>
              && (f.state.None? || f.state == Some(x.lifecycle))
              && (f.since.None? || f.since.value <= x.lastSeen)
  {
  }

  /** What a report does, field by field: a first row, or one more occurrence on the row that has the key. */
  lemma OpenOutcome(db: IncidentDb, r: Report, now: Time)
    requires Valid(db)
    ensures
      var accepted := r.dedupKey != "" && r.eventType != "" && r.impact != "" && r.visibility == "RESTRICTED_OPERATIONAL";
      var db' := Apply(db, OpenUpdate(r), now);
      && (!accepted ==> db' == db)
      && (accepted && (forall id | id in db.rows :: db.rows[id].dedupKey != r.dedupKey) ==>
            var row := Incident(db.nextId, r.dedupKey, r.eventType, Opened, r.severity, now, now, None, r.correlation, r.endpoint,
                                r.errorCode, r.impact, r.actionRequired, 1);
            && db'.rows == db.rows[db.nextId := row] && db'.ledger == db.ledger + [Entry(db.nextId, row)] && db'.nextId == db.nextId + 1)
      && (accepted ==>
            forall id | id in db.rows && db.rows[id].dedupKey == r.dedupKey ::
              var was := db.rows[id];
              var row := Incident(id, was.dedupKey, r.eventType, Opened, r.severity, was.firstSeen,
                                  if was.lastSeen < now then now else was.lastSeen, None,
                                  if r.correlation.Some? then r.correlation else was.correlation,
                                  if r.endpoint.Some? then r.endpoint else was.endpoint,
                                  r.errorCode, r.impact, r.actionRequired, was.occurrences + 1);
              db'.rows == db.rows[id := row] && db'.ledger == db.ledger + [Entry(id, row)] && db'.nextId == db.nextId)
  {
    OwnerFacts(db, r.dedupKey);
    hide Replay, WellKeyed, Precedes, Owner;
  }

  lemma OwnerFacts(db: IncidentDb, key: string)
    requires Valid(db)
    ensures Owner(db, key).Some? ==> Owner(db, key).value in db.rows && db.rows[Owner(db, key).value].dedupKey == key
    ensures forall id | id in db.rows && db.rows[id].dedupKey == key :: Owner(db, key) == Some(id)
  {
    hide Replay, WellKeyed, Precedes;
  }

  /** What recovering and resolving do to the row that has the key, and that they do nothing if there is none. */
  lemma RecoverOutcome(db: IncidentDb, key: string, impact: string, now: Time)
    requires Valid(db)
    ensures
      var recovered, resolved := Apply(db, RecoveringUpdate(key, impact), now), Apply(db, ResolveUpdate(key, impact), now);
      && ((forall id | id in db.rows :: db.rows[id].dedupKey != key) ==> recovered == db && resolved == db)
      && forall id | id in db.rows && db.rows[id].dedupKey == key ::
           var was := db.rows[id];
           var seen := if was.lastSeen < now then now else was.lastSeen;
           var a := was.(lifecycle := Recovering, lastSeen := seen, resolvedAt := None, impact := impact, actionRequired := false);
           var b := was.(lifecycle := Resolved, lastSeen := seen, resolvedAt := Some(seen), impact := impact, actionRequired := false);
           && recovered == db.(rows := db.rows[id := a], ledger := db.ledger + [Entry(id, a)])
           && resolved == db.(rows := db.rows[id := b], ledger := db.ledger + [Entry(id, b)])
  {
    OwnerFacts(db, key);
    hide Replay, WellKeyed, Precedes, Owner;
    assert forall id | id in db.rows && db.rows[id].dedupKey == key :: db.rows[id].id == id;
  }

  // ---------------------------------------------------------------- what the ledger says

  /** The table a reader would rebuild by replaying the ledger from its start. */
  function Replay(ledger: seq<Entry>): map<Id, Incident> {
    if ledger == [] then map[]
    else
      var last := ledger[|ledger| - 1];
      Replay(ledger[..|ledger| - 1])[last.incident := last.body]
  }

  /** The ledger entry with revision `r`. */
  function At(ledger: seq<Entry>, r: int): Entry
    requires 1 <= r <= |ledger|
  {
    ledger[r - 1]
  }

  /** Revision `r` is the highest revision of its incident not above `w`. */
  predicate LatestAt(ledger: seq<Entry>, w: nat, r: int)
    requires w <= |ledger|
  {
    1 <= r <= w && forall k | r < k <= w :: At(ledger, k).incident != At(ledger, r).incident
  }

  /** The revisions the capture query selects: latest at the watermark, filtered, above the lower bound. */
  function Selected(ledger: seq<Entry>, w: nat, f: Filter, lower: nat): set<int>
    requires w <= |ledger|
  {
    set r | 1 <= r <= w && LatestAt(ledger, w, r) && Matches(f, At(ledger, r).body) && r > lower
  }

  function Captured(ledger: seq<Entry>, w: nat, f: Filter, lower: nat): set<Incident>
    requires w <= |ledger|
  {
    set r | r in Selected(ledger, w, f, lower) :: At(ledger, r).body
  }

  ghost predicate WellKeyed(ledger: seq<Entry>) {
    forall e | e in ledger :: e.body.id == e.incident
  }

  ghost predicate Touched(ledger: seq<Entry>, lower: nat, w: nat, id: Id)
    requires w <= |ledger|
  {
    exists r :: lower < r <= w && At(ledger, r).incident == id
  }

  /** The state invariant: the ledger replays to exactly the table, and history never runs backwards. */
  ghost predicate Valid(db: IncidentDb) {
    && (forall id | id in db.rows :: db.rows[id].id == id && id < db.nextId)
    && (forall a, b | a in db.rows && b in db.rows && db.rows[a].dedupKey == db.rows[b].dedupKey :: a == b)
    && WellKeyed(db.ledger)
    && Replay(db.ledger) == db.rows
    && (forall i | 0 <= i < |db.ledger| ::
          var e := db.ledger[i];
          e.incident in db.rows && Precedes(e.body, db.rows[e.incident]))
  }

  /** How an earlier row of an incident relates to any later one. */
  ghost predicate Precedes(a: Incident, b: Incident) {
    && a.dedupKey == b.dedupKey && a.firstSeen == b.firstSeen
    && a.lastSeen <= b.lastSeen && a.occurrences <= b.occurrences
  }

  lemma ReplayAppend(ledger: seq<Entry>, e: Entry)
    ensures Replay(ledger + [e]) == Replay(ledger)[e.incident := e.body]
  {
    assert (ledger + [e])[..|ledger|] == ledger;
  }

  lemma WriteKeepsValid(db: IncidentDb, row: Incident)
    requires Valid(db)
    requires row.id < db.nextId
    requires row.id in db.rows ==> Precedes(db.rows[row.id], row)
    requires row.id !in db.rows ==> forall id | id in db.rows :: db.rows[id].dedupKey != row.dedupKey
    ensures Valid(Write(db, row))
  {
    var db' := Write(db, row);
    ReplayAppend(db.ledger, Entry(row.id, row));
    forall i | 0 <= i < |db'.ledger|
      ensures db'.ledger[i].incident in db'.rows && Precedes(db'.ledger[i].body, db'.rows[db'.ledger[i].incident])
    {
      if i < |db.ledger| {
        assert db'.ledger[i] == db.ledger[i];
      }
    }
    forall a, b | a in db'.rows && b in db'.rows && db'.rows[a].dedupKey == db'.rows[b].dedupKey ensures a == b {
      if row.id in db.rows {
        assert db.rows[row.id].dedupKey == row.dedupKey;
      }
    }
  }

  /** Opening, recovering and resolving keep the ledger a faithful history of the table. */
  lemma ApplyKeepsValid(db: IncidentDb, u: Update, now: Time)
    requires Valid(db)
    ensures Valid(Apply(db, u, now))
    ensures db.ledger <= Apply(db, u, now).ledger
    ensures db.rows.Keys <= Apply(db, u, now).rows.Keys
  {
    var key := match u case OpenUpdate(r) => r.dedupKey case RecoveringUpdate(k, _) => k case ResolveUpdate(k, _) => k;
    if Owner(db, key).Some? {
      var row := db.rows[Owner(db, key).value];
      match u {
        case OpenUpdate(r) => if ReportAccepted(r) { WriteKeepsValid(db, MergedRow(row, r, now)); }
        case RecoveringUpdate(_, impact) => WriteKeepsValid(db, RecoveringRow(row, impact, now));
        case ResolveUpdate(_, impact) => WriteKeepsValid(db, ResolvedRow(row, impact, now));
      }
    } else if u.OpenUpdate? && ReportAccepted(u.report) {
      var db1 := db.(nextId := db.nextId + 1);
      assert Valid(db1);
      WriteKeepsValid(db1, FirstRow(db.nextId, u.report, now));
    }
  }

  /** Replay and the "highest revision per incident" join of the capture query pick the same rows. */
  lemma {:induction false} LatestIsReplay(ledger: seq<Entry>, r: int)
    requires LatestAt(ledger, |ledger|, r)
    ensures At(ledger, r).incident in Replay(ledger)
    ensures Replay(ledger)[At(ledger, r).incident] == At(ledger, r).body
    decreases |ledger|
  {
    if r < |ledger| {
      var shorter := ledger[..|ledger| - 1];
      assert forall k | r < k <= |shorter| :: At(shorter, k) == At(ledger, k);
      LatestIsReplay(shorter, r);
      assert At(ledger, |ledger|).incident != At(ledger, r).incident;
    }
  }

  lemma {:induction false} ReplayHasLatest(ledger: seq<Entry>, id: Id) returns (r: int)
    requires id in Replay(ledger)
    ensures LatestAt(ledger, |ledger|, r) && At(ledger, r).incident == id
    ensures Replay(ledger)[id] == At(ledger, r).body
    decreases |ledger|
  {
    if ledger[|ledger| - 1].incident == id {
      r := |ledger|;
    } else {
      var shorter := ledger[..|ledger| - 1];
      r := ReplayHasLatest(shorter, id);
      assert forall k | r < k < |ledger| :: At(ledger, k) == At(shorter, k);
    }
  }

  lemma LatestInPrefix(ledger: seq<Entry>, w: nat, r: int)
    requires w <= |ledger|
    ensures LatestAt(ledger, w, r) <==> LatestAt(ledger[..w], w, r)
  {
    if 1 <= r <= w {
      assert forall k | 1 <= k <= w :: At(ledger[..w], k) == At(ledger, k);
      if LatestAt(ledger[..w], w, r) {
        forall k | r < k <= w ensures At(ledger, k).incident != At(ledger, r).incident {
          assert At(ledger[..w], k).incident != At(ledger[..w], r).incident;
        }
      }
    }
  }

  /** A captured item is the incident as of the watermark, and it changed above the lower bound. */
  lemma CapturedExactly(ledger: seq<Entry>, w: nat, f: Filter, lower: nat, x: Incident)
    requires w <= |ledger| && WellKeyed(ledger)
    ensures x in Captured(ledger, w, f, lower) <==>
            && x.id in Replay(ledger[..w]) && Replay(ledger[..w])[x.id] == x
            && Matches(f, x) && Touched(ledger, lower, w, x.id)
  {
    var prefix := ledger[..w];
    if x in Captured(ledger, w, f, lower) {
      var r :| r in Selected(ledger, w, f, lower) && At(ledger, r).body == x;
      LatestInPrefix(ledger, w, r);
      assert At(prefix, r) == At(ledger, r);
      assert At(ledger, r) in ledger;
      LatestIsReplay(prefix, r);
    }
    if x.id in Replay(prefix) && Replay(prefix)[x.id] == x && Matches(f, x) && Touched(ledger, lower, w, x.id) {
      var r := ReplayHasLatest(prefix, x.id);
      LatestInPrefix(ledger, w, r);
      assert At(prefix, r) == At(ledger, r);
      var t :| lower < t <= w && At(ledger, t).incident == x.id;
      assert t <= r;
      assert r in Selected(ledger, w, f, lower);
    }
  }

  lemma CapturedDistinct(ledger: seq<Entry>, w: nat, f: Filter, lower: nat)
    requires w <= |ledger| && WellKeyed(ledger)
    ensures DistinctIds(Captured(ledger, w, f, lower))
  {
    forall a, b | a in Captured(ledger, w, f, lower) && b in Captured(ledger, w, f, lower) && a.id == b.id
      ensures a == b
    {
      CapturedExactly(ledger, w, f, lower, a);
      CapturedExactly(ledger, w, f, lower, b);
    }
  }

  function Listed(rows: map<Id, Incident>, f: Filter): set<Incident> {
    set id | id in rows && Matches(f, rows[id]) :: rows[id]
  }

  lemma {:induction false} ReplayTouches(ledger: seq<Entry>, id: Id)
    ensures id in Replay(ledger) <==> Touched(ledger, 0, |ledger|, id)
    decreases |ledger|
  {
    if ledger != [] {
      var shorter := ledger[..|ledger| - 1];
      ReplayTouches(shorter, id);
      if Touched(shorter, 0, |shorter|, id) {
        var r :| 0 < r <= |shorter| && At(shorter, r).incident == id;
        assert At(ledger, r).incident == id;
      }
      if Touched(ledger, 0, |ledger|, id) && ledger[|ledger| - 1].incident != id {
        var r :| 0 < r <= |ledger| && At(ledger, r).incident == id;
        assert At(shorter, r).incident == id;
      }
      if ledger[|ledger| - 1].incident == id {
        assert At(ledger, |ledger|).incident == id;
      }
    }
  }

  /** A capture with no lower bound, taken now, holds exactly the rows that `list_incidents` selects. */
  lemma CaptureNowIsTable(db: IncidentDb, f: Filter)
    requires Valid(db)
    ensures Captured(db.ledger, |db.ledger|, f, 0) == Listed(db.rows, f)
  {
    assert db.ledger[..|db.ledger|] == db.ledger;
    forall x ensures x in Captured(db.ledger, |db.ledger|, f, 0) <==> x in Listed(db.rows, f) {
      CapturedExactly(db.ledger, |db.ledger|, f, 0, x);
      ReplayTouches(db.ledger, x.id);
    }
  }

  // ---------------------------------------------------------------- the store object

  /** The store once the first `n` of its pre-existing rows have their baseline entries. */
  ghost function Baseline(existing: seq<Incident>, n: nat, firstFreeId: Id): IncidentDb
    requires n <= |existing|
  {
    if n == 0 then IncidentDb(map[], [], firstFreeId) else Write(Baseline(existing, n - 1, firstFreeId), existing[n - 1])
  }

  ghost predicate AmongFirst(existing: seq<Incident>, n: nat, row: Incident) {
    exists k :: 0 <= k < n <= |existing| && existing[k] == row
  }

  lemma {:induction false} BaselineIs(existing: seq<Incident>, n: nat, firstFreeId: Id)
    requires n <= |existing|
    ensures
      var db := Baseline(existing, n, firstFreeId);
      && db.nextId == firstFreeId && |db.ledger| == n
      && (forall k | 0 <= k < n :: db.ledger[k] == Entry(existing[k].id, existing[k]))
      && (forall id | id in db.rows :: AmongFirst(existing, n, db.rows[id]) && db.rows[id].id == id)
    decreases n
  {
    if n > 0 {
      BaselineIs(existing, n - 1, firstFreeId);
      var before, db := Baseline(existing, n - 1, firstFreeId), Baseline(existing, n, firstFreeId);
      forall id | id in db.rows ensures AmongFirst(existing, n, db.rows[id]) && db.rows[id].id == id {
        if id == existing[n - 1].id {
          assert existing[n - 1] == db.rows[id];
        } else {
          assert AmongFirst(existing, n - 1, before.rows[id]);
        }
      }
    }
  }

  ghost predicate DistinctRows(existing: seq<Incident>, firstFreeId: Id) {
    && (forall i | 0 <= i < |existing| :: existing[i].id < firstFreeId)
    && (forall i, j | 0 <= i < j < |existing| ::
          existing[i].id != existing[j].id && existing[i].dedupKey != existing[j].dedupKey)
  }

  lemma NextIsNew(existing: seq<Incident>, n: nat, firstFreeId: Id, row: Incident)
    requires DistinctRows(existing, firstFreeId) && n < |existing| && AmongFirst(existing, n, row)
    ensures row.id != existing[n].id && row.dedupKey != existing[n].dedupKey && existing[n].id < firstFreeId
  {
  }

  lemma BaselineGrows(existing: seq<Incident>, n: nat, firstFreeId: Id)
    requires n <= |existing| && DistinctRows(existing, firstFreeId)
    ensures n == 0 ==> Valid(Baseline(existing, n, firstFreeId))
    ensures n > 0 ==> Baseline(existing, n, firstFreeId) == Write(Baseline(existing, n - 1, firstFreeId), existing[n - 1])
    ensures n > 0 ==> existing[n - 1].id < firstFreeId
  {
    assert Replay([]) == map[];
    hide Write;
  }

  lemma {:induction false} BaselineValid(existing: seq<Incident>, n: nat, firstFreeId: Id)
    requires n <= |existing| && DistinctRows(existing, firstFreeId)
    ensures Valid(Baseline(existing, n, firstFreeId))
    decreases n
  {
    hide *;
    BaselineGrows(existing, n, firstFreeId);
    if n > 0 {
      BaselineValid(existing, n - 1, firstFreeId);
      BaselineIs(existing, n - 1, firstFreeId);
      var db, row := Baseline(existing, n - 1, firstFreeId), existing[n - 1];
      forall id | id in db.rows ensures id != row.id && db.rows[id].dedupKey != row.dedupKey {
        NextIsNew(existing, n - 1, firstFreeId, db.rows[id]);
      }
      assert row.id !in db.rows;
      WriteKeepsValid(db, row);
    }
  }

  /** In a valid table the owner of a key is the one row that carries it. */
  lemma OwnerIs(db: IncidentDb, key: string, found: Option<Id>)
    requires Valid(db)
    requires found.Some? ==> found.value in db.rows && db.rows[found.value].dedupKey == key
    requires found.None? ==> forall id | id in db.rows :: db.rows[id].dedupKey != key
    ensures Owner(db, key) == found
  {
    hide Replay, WellKeyed, Precedes;
  }

  class IncidentStore {
    var rows: map<Id, Incident>
    var ledger: seq<Entry>
    var nextId: Id

    ghost function Db(): IncidentDb
      reads this
    {
      IncidentDb(rows, ledger, nextId)
    }

    /** Opens a store over pre-existing rows: each becomes its own baseline ledger entry. */
    constructor (existing: seq<Incident>, firstFreeId: Id)
      requires DistinctRows(existing, firstFreeId)
      ensures Valid(Db())
      ensures |ledger| == |existing| && forall i | 0 <= i < |existing| :: ledger[i] == Entry(existing[i].id, existing[i])
    {
      rows, ledger, nextId := map[], [], firstFreeId;
      new;
      for i := 0 to |existing|
        invariant nextId == firstFreeId && Db() == Baseline(existing, i, firstFreeId)
      {
        rows := rows[existing[i].id := existing[i]];
        ledger := ledger + [Entry(existing[i].id, existing[i])];
      }
      BaselineValid(existing, |existing|, firstFreeId);
      BaselineIs(existing, |existing|, firstFreeId);
    }

    method FindByKey(key: string) returns (found: Option<Id>)
      ensures found.Some? ==> found.value in rows && rows[found.value].dedupKey == key
      ensures found.None? ==> forall id | id in rows :: rows[id].dedupKey != key
    {
      var rest := rows.Keys;
      while rest != {}
        invariant rest <= rows.Keys
        invariant forall id | id in rows.Keys - rest :: rows[id].dedupKey != key
        decreases rest
      {
        var id :| id in rest;
        if rows[id].dedupKey == key {
          return Some(id);
        }
        rest := rest - {id};
      }
      found := None;
    }

    method OpenIncident(report: Report, now: Time) returns (result: Result<Incident, IncidentError>)
      requires Valid(Db())
      modifies this
      ensures Db() == Apply(old(Db()), OpenUpdate(report), now)
      ensures Valid(Db())
      ensures result.Ok? <==> ReportAccepted(report)
      ensures result == Err(IdentityMissing) <==> !ReportIdentified(report)
      ensures result == Err(VisibilityRefused) <==> ReportIdentified(report) && report.visibility != RESTRICTED
      ensures result.Ok? ==> result.value.id in rows && rows[result.value.id] == result.value
      ensures result.Ok? ==> result.value.dedupKey == report.dedupKey && result.value.lifecycle == Opened
    {
      ApplyKeepsValid(Db(), OpenUpdate(report), now);
      if report.dedupKey == "" || report.eventType == "" || report.impact == "" {
        return Err(IdentityMissing);
      }
      if report.visibility != RESTRICTED {
        return Err(VisibilityRefused);
      }
      var owner := FindByKey(report.dedupKey);
      OwnerIs(Db(), report.dedupKey, owner);
      hide Valid, Owner;
      var row;
      if owner.Some? {
        row := MergedRow(rows[owner.value], report, now);
      } else {
        row := FirstRow(nextId, report, now);
        nextId := nextId + 1;
      }
      rows := rows[row.id := row];
      ledger := ledger + [Entry(row.id, row)];
      result := Ok(row);
    }

    method MarkRecovering(key: string, impact: string, now: Time) returns (row: Option<Incident>)
      requires Valid(Db())
      modifies this
      ensures Db() == Apply(old(Db()), RecoveringUpdate(key, impact), now)
      ensures Valid(Db())
      ensures row.None? ==> Db() == old(Db())
    {
      ApplyKeepsValid(Db(), RecoveringUpdate(key, impact), now);
      var owner := FindByKey(key);
      OwnerIs(Db(), key, owner);
      hide Valid, Owner;
      if owner.None? {
        return None;
      }
      var updated := RecoveringRow(rows[owner.value], impact, now);
      rows := rows[updated.id := updated];
      ledger := ledger + [Entry(updated.id, updated)];
      row := Some(updated);
    }

    method ResolveIncident(key: string, impact: string, now: Time) returns (row: Option<Incident>)
      requires Valid(Db())
      modifies this
      ensures Db() == Apply(old(Db()), ResolveUpdate(key, impact), now)
      ensures Valid(Db())
      ensures row.None? ==> Db() == old(Db())
      ensures row.Some? ==> row.value.lifecycle == Resolved && row.value.resolvedAt == Some(row.value.lastSeen)
    {
      ApplyKeepsValid(Db(), ResolveUpdate(key, impact), now);
      var owner := FindByKey(key);
      OwnerIs(Db(), key, owner);
      hide Valid, Owner;
      if owner.None? {
        return None;
      }
      var updated := ResolvedRow(rows[owner.value], impact, now);
      rows := rows[updated.id := updated];
      ledger := ledger + [Entry(updated.id, updated)];
      row := Some(updated);
    }

    /** `list_incidents`: the first `limit` selected rows in priority order. */
    method ListIncidents(f: Filter, limit: int) returns (result: Result<seq<Incident>, IncidentError>, ghost all: seq<Incident>)
      requires Valid(Db())
      ensures result.Ok? <==> 1 <= limit <= 200
      ensures result.Ok? ==> IsListing(Before, all, Listed(rows, f))
      ensures result.Ok? ==> result.value == if |all| <= limit then all else all[..limit]
    {
      all := [];
      if limit < 1 || limit > 200 {
        return Err(LimitOutOfRange), all;
      }
      var selected := set id | id in rows && Matches(f, rows[id]) :: rows[id];
      PriorityIsTotal(selected);
      var q := OrderBy(selected, Before);
      all := q;
      result := Ok(if |q| <= limit then q else q[..limit]);
    }
  }
}
