/**
 The APISIX route table behind its Admin API, and what restoring a snapshot of it does. A write may take effect and
 report an error, or be answered without effect; only some status codes count as confirmation.
 */
module Routes {
  import opened Common

  type Config = map<string, string>

  /** A route to install: its configured fields include its id. */
  datatype Route = Route(id: string, uri: string, verb: string, fields: Config)

  type Table = map<string, Config>

  /** `code` is None when the call raised. */
  datatype WriteReply = WriteReply(takesEffect: bool, code: Option<int>)

  datatype ReadReply = TruthfulRead | OtherRead(code: Option<int>, doc: Doc)

  /** The answers a snapshot takes: the route as it is, or any other document or absence the server reports. */
  predicate Readable(reply: ReadReply) {
    reply.TruthfulRead? || reply.code == Some(200) || reply.code == Some(404)
  }

  /** A response document: an object whose `value` member may be another object. */
  datatype Doc = Doc(fields: Config, value: Option<Doc>)

  const TIMES := {"create_time", "update_time"}

  /** Unwraps up to two `value` envelopes and drops the server's timestamps. */
  function RouteValue(doc: Doc): Config {
    var outer := if doc.value.Some? then doc.value.value else doc;
    var inner := if outer.value.Some? then outer.value.value else outer;
    inner.fields - TIMES
  }

  /** The server's answer to reading a route: one envelope, or two for older Admin APIs, and its timestamps. */
  function Envelope(config: Config, created: string, updated: string, twice: bool): Doc {
    var stored := Doc(config["create_time" := created]["update_time" := updated], None);
    if twice then Doc(map[], Some(Doc(map[], Some(stored)))) else Doc(map[], Some(stored))
  }

  /** Reading back loses nothing the client configured, however the server wraps it. */
  lemma RouteValueOfEnvelope(config: Config, created: string, updated: string, twice: bool)
    requires config.Keys !! TIMES
    ensures RouteValue(Envelope(config, created, updated, twice)) == config
    ensures RouteValue(Doc(config["create_time" := created]["update_time" := updated], None)) == config
  {
    assert (config["create_time" := created]["update_time" := updated] - TIMES).Keys == config.Keys;
  }

  function Lookup(t: Table, id: string): Option<Config> {
    if id in t then Some(t[id]) else None
  }

  /** The server completes a route with its defaults. */
  function Fill(defaults: Config, c: Config): Config {
    defaults + c
  }

  function PutEffect(t: Table, defaults: Config, id: string, c: Config, reply: WriteReply): Table {
    if reply.takesEffect then t[id := Fill(defaults, c)] else t
  }

  function DeleteEffect(t: Table, id: string, reply: WriteReply): Table {
    if reply.takesEffect then t - {id} else t
  }

  /** What the server may hold: completed routes without timestamps of their own. */
  ghost predicate Stored(t: Table, defaults: Config) {
    forall id | id in t :: Fill(defaults, t[id]) == t[id] && t[id].Keys !! TIMES
  }

  ghost predicate Carries(t: Table, route: Route) {
    forall k | k in route.fields :: route.id in t && k in t[route.id] && t[route.id][k] == route.fields[k]
  }

  // ---------------------------------------------------------------- restoring a snapshot

  type Snapshot = map<string, Option<Config>>

  /** An empty object is falsy, so it is deleted like an absent route. */
  predicate PutsBack(old_value: Option<Config>) {
    old_value.Some? && old_value.value != map[]
  }

  function RestoreOne(t: Table, defaults: Config, id: string, old_value: Option<Config>, reply: WriteReply): Table {
    if PutsBack(old_value) then PutEffect(t, defaults, id, old_value.value, reply) else DeleteEffect(t, id, reply)
  }

  predicate Confirmed(reply: WriteReply) {
    reply.code.Some? && reply.code.value in {200, 201, 204, 404}
  }

  /** The restore loop: every id in order, whatever became of the ones before; the unconfirmed ones are collected. */
  function RestoreAll(t: Table, defaults: Config, ids: seq<string>, previous: Snapshot, replies: nat -> WriteReply, start: nat):
    (Table, seq<string>)
    requires forall id | id in ids :: id in previous
    decreases |ids|
  {
    if ids == [] then (t, []) else
      var n := |ids| - 1;
      var (before, failures) := RestoreAll(t, defaults, ids[..n], previous, replies, start);
      (RestoreOne(before, defaults, ids[n], previous[ids[n]], replies(start + n)),
       if Confirmed(replies(start + n)) then failures else failures + [ids[n]])
  }

  /** Some restore of the id took effect. */
  ghost predicate Effective(ids: seq<string>, replies: nat -> WriteReply, start: nat, id: string) {
    exists k :: 0 <= k < |ids| && ids[k] == id && replies(start + k).takesEffect
  }

  function Target(defaults: Config, old_value: Option<Config>): Option<Config> {
    if PutsBack(old_value) then Some(Fill(defaults, old_value.value)) else None
  }

  /** Restoring decides each id by itself: it reaches its target if any of its restores took effect, else it stays. */
  lemma {:induction false} RestoreDecidesEach(t: Table, defaults: Config, ids: seq<string>, previous: Snapshot,
                                              replies: nat -> WriteReply, start: nat, id: string)
    requires forall i | i in ids :: i in previous
    ensures
      Lookup(RestoreAll(t, defaults, ids, previous, replies, start).0, id) ==
        if Effective(ids, replies, start, id) then Target(defaults, previous[id]) else Lookup(t, id)
    decreases |ids|
  {
    if ids != [] {
      var n := |ids| - 1;
      RestoreDecidesEach(t, defaults, ids[..n], previous, replies, start, id);
      OneMoreEffective(ids, replies, start, id);
      hide Effective;
    }
  }

  lemma OneMoreEffective(ids: seq<string>, replies: nat -> WriteReply, start: nat, id: string)
    requires ids != []
    ensures
      var n := |ids| - 1;
      Effective(ids, replies, start, id) <==>
        Effective(ids[..n], replies, start, id) || (ids[n] == id && replies(start + n).takesEffect)
  {
    var n := |ids| - 1;
    if Effective(ids[..n], replies, start, id) {
      var k :| 0 <= k < n && ids[..n][k] == id && replies(start + k).takesEffect;
      assert ids[k] == id;
    }
    if Effective(ids, replies, start, id) && !(ids[n] == id && replies(start + n).takesEffect) {
      var k :| 0 <= k < |ids| && ids[k] == id && replies(start + k).takesEffect;
      assert ids[..n][k] == id;
    }
  }

  /** The error names exactly the ids some restore of which raised or was answered by none of the four codes. */
  lemma {:induction false} FailuresAreUnconfirmed(t: Table, defaults: Config, ids: seq<string>, previous: Snapshot,
                                                  replies: nat -> WriteReply, start: nat, id: string)
    requires forall i | i in ids :: i in previous
    ensures
      id in RestoreAll(t, defaults, ids, previous, replies, start).1 <==>
        exists k :: 0 <= k < |ids| && ids[k] == id && replies(start + k).code !in {Some(200), Some(201), Some(204), Some(404)}
    decreases |ids|
  {
    if ids != [] {
      var n := |ids| - 1;
      FailuresAreUnconfirmed(t, defaults, ids[..n], previous, replies, start, id);
      if k :| 0 <= k < |ids| && ids[k] == id && replies(start + k).code !in {Some(200), Some(201), Some(204), Some(404)} {
        if k < n { assert ids[..n][k] == id; }
      }
      if k :| 0 <= k < n && ids[..n][k] == id && replies(start + k).code !in {Some(200), Some(201), Some(204), Some(404)} {
        assert ids[k] == id;
      }
    }
  }

  /** The snapshot is what the table held for each of its ids. */
  ghost predicate SnapshotOf(previous: Snapshot, original: Table) {
    forall id | id in previous :: previous[id] == Lookup(original, id)
  }

  ghost predicate SameOutside(t: Table, original: Table, ids: seq<string>) {
    forall id | id !in ids :: Lookup(t, id) == Lookup(original, id)
  }

  /** What must hold of one id for its restore to leave it as it was. */
  ghost predicate ComesBack(t: Table, original: Table, ids: seq<string>, replies: nat -> WriteReply, start: nat, id: string) {
    if Effective(ids, replies, start, id) then Lookup(original, id) != Some(map[])
    else Lookup(t, id) == Lookup(original, id)
  }

  /**
   The exact condition under which the whole table is as it was: each restored id either had a restore that took
   effect and was not an empty object before, or had never been changed.
   */
  lemma RestoresTableIff(t: Table, original: Table, defaults: Config, ids: seq<string>, previous: Snapshot,
                         replies: nat -> WriteReply, start: nat)
    requires Stored(original, defaults) && SnapshotOf(previous, original) && SameOutside(t, original, ids)
    requires forall i | i in ids :: i in previous
    ensures
      RestoreAll(t, defaults, ids, previous, replies, start).0 == original <==>
        forall id | id in ids :: ComesBack(t, original, ids, replies, start, id)
  {
    var final := RestoreAll(t, defaults, ids, previous, replies, start).0;
    forall id ensures Lookup(final, id) == Lookup(original, id) <==> (id in ids ==> ComesBack(t, original, ids, replies, start, id)) {
      RestoreDecidesEach(t, defaults, ids, previous, replies, start, id);
      if id in ids { assert previous[id] == Lookup(original, id); }
    }
    hide ComesBack, RestoreAll, Stored;
    if forall id | id in ids :: ComesBack(t, original, ids, replies, start, id) {
      TablesEqual(final, original);
    }
  }

  lemma TablesEqual(a: Table, b: Table)
    requires forall id :: Lookup(a, id) == Lookup(b, id)
    ensures a == b
  {
    forall id ensures id in a <==> id in b {
      assert Lookup(a, id) == Lookup(b, id);
    }
    forall id | id in a ensures a[id] == b[id] {
      assert Lookup(a, id) == Lookup(b, id);
    }
  }

  /** A confirming code other than 404 means the write took effect; so does 404, except for putting a route back. */
  ghost predicate HonestRestore(ids: seq<string>, original: Table, replies: nat -> WriteReply, start: nat) {
    forall k | 0 <= k < |ids| && Confirmed(replies(start + k)) ::
      replies(start + k).takesEffect || (replies(start + k).code == Some(404) && PutsBack(Lookup(original, ids[k])))
  }

  /** No put is answered 404, and no original route is the empty object: a caller can check both. */
  ghost predicate NothingSlipsThrough(ids: seq<string>, original: Table, replies: nat -> WriteReply, start: nat) {
    && (forall k | 0 <= k < |ids| && replies(start + k).code == Some(404) :: !PutsBack(Lookup(original, ids[k])))
    && (forall k | 0 <= k < |ids| :: Lookup(original, ids[k]) != Some(map[]))
  }

  /** All or nothing: every id the error does not name is as it was, so with no error the whole table is. */
  lemma RestoreIsAllOrNamed(t: Table, original: Table, defaults: Config, ids: seq<string>, previous: Snapshot,
                            replies: nat -> WriteReply, start: nat)
    requires Stored(original, defaults) && SnapshotOf(previous, original) && SameOutside(t, original, ids)
    requires forall i | i in ids :: i in previous
    requires HonestRestore(ids, original, replies, start) && NothingSlipsThrough(ids, original, replies, start)
    ensures
      var (final, failures) := RestoreAll(t, defaults, ids, previous, replies, start);
      && (forall id | id !in failures :: Lookup(final, id) == Lookup(original, id))
      && (failures == [] ==> final == original)
  {
    var (final, failures) := RestoreAll(t, defaults, ids, previous, replies, start);
    forall id | id !in failures ensures Lookup(final, id) == Lookup(original, id) {
      RestoreDecidesEach(t, defaults, ids, previous, replies, start, id);
      FailuresAreUnconfirmed(t, defaults, ids, previous, replies, start, id);
      if id in ids {
        assert previous[id] == Lookup(original, id);
        var k :| 0 <= k < |ids| && ids[k] == id;
        assert Confirmed(replies(start + k)) && replies(start + k).takesEffect;
        assert Effective(ids, replies, start, id);
      }
    }
    hide RestoreAll, Stored, HonestRestore, NothingSlipsThrough;
    if failures == [] {
      TablesEqual(final, original);
    }
  }

  /** The gap: a put answered 404 without effect counts as restored, and a changed route then stays changed unreported. */
  lemma LostRestoreIsSilent(t: Table, original: Table, defaults: Config, id: string, replies: nat -> WriteReply, start: nat)
    requires Stored(original, defaults) && PutsBack(Lookup(original, id)) && Lookup(t, id) != Lookup(original, id)
    requires SameOutside(t, original, [id]) && replies(start) == WriteReply(false, Some(404))
    ensures
      var (final, failures) := RestoreAll(t, defaults, [id], map[id := Lookup(original, id)], replies, start);
      failures == [] && final != original
  {
    RestoresTableIff(t, original, defaults, [id], map[id := Lookup(original, id)], replies, start);
    FailuresAreUnconfirmed(t, defaults, [id], map[id := Lookup(original, id)], replies, start, id);
    var ids := [id];
    assert id in ids && !Effective(ids, replies, start, id);
    assert !ComesBack(t, original, ids, replies, start, id);
    assert RestoreAll(t, defaults, ids[..0], map[id := Lookup(original, id)], replies, start).1 == [];
  }

  // ---------------------------------------------------------------- writing routes

  /** The table after the first `n` routes were put, the first by call `start`; each put is followed by its readback. */
  function Written(t: Table, defaults: Config, routes: seq<Route>, n: nat, writes: nat -> WriteReply, start: nat): Table
    requires n <= |routes|
  {
    if n == 0 then t else
      PutEffect(Written(t, defaults, routes, n - 1, writes, start), defaults,
                routes[n - 1].id, routes[n - 1].fields, writes(start + 2 * (n - 1)))
  }

  /** Route `i` was put with 200 or 201, and its readback carries every configured field. */
  ghost predicate Accepted(t: Table, defaults: Config, routes: seq<Route>, i: nat,
                           writes: nat -> WriteReply, lookups: nat -> ReadReply, start: nat)
    requires i < |routes|
  {
    && writes(start + 2 * i).code in {Some(200), Some(201)}
    && ReadsBack(Written(t, defaults, routes, i + 1, writes, start), routes[i], lookups(start + 2 * i + 1))
  }

  ghost predicate ReadsBack(t: Table, route: Route, reply: ReadReply) {
    match reply
    case TruthfulRead => Carries(t, route)
    case OtherRead(code, doc) =>
      forall k | k in route.fields ::
        code == Some(200) && k in RouteValue(doc) && RouteValue(doc)[k] == route.fields[k]
  }

  predicate DistinctIds(routes: seq<Route>) {
    forall i, j | 0 <= i < j < |routes| :: routes[i].id != routes[j].id
  }

  /** Before its own put nothing has touched the entry of a route, if the ids are distinct. */
  lemma {:induction false} WrittenLeaves(t: Table, defaults: Config, routes: seq<Route>, n: nat, writes: nat -> WriteReply,
                                         start: nat, i: nat)
    requires n <= i < |routes| && DistinctIds(routes)
    ensures Lookup(Written(t, defaults, routes, n, writes, start), routes[i].id) == Lookup(t, routes[i].id)
  {
    if n > 0 { WrittenLeaves(t, defaults, routes, n - 1, writes, start, i); }
  }

  /** With truthful readbacks a route is accepted exactly if its put is answered 200 or 201 and took effect, or was not needed. */
  lemma AcceptedIff(t: Table, defaults: Config, routes: seq<Route>, i: nat,
                    writes: nat -> WriteReply, lookups: nat -> ReadReply, start: nat)
    requires i < |routes| && DistinctIds(routes) && lookups(start + 2 * i + 1).TruthfulRead?
    ensures
      Accepted(t, defaults, routes, i, writes, lookups, start) <==>
        && (writes(start + 2 * i).code == Some(200) || writes(start + 2 * i).code == Some(201))
        && (writes(start + 2 * i).takesEffect || Carries(t, routes[i]))
  {
    WrittenLeaves(t, defaults, routes, i, writes, start, i);
    var before := Written(t, defaults, routes, i, writes, start);
    assert Carries(before, routes[i]) <==> Carries(t, routes[i]) by {
      assert Lookup(before, routes[i].id) == Lookup(t, routes[i].id);
    }
  }

  // ---------------------------------------------------------------- the server

  class AdminServer {
    var table: Table
    var calls: nat
    const defaults: Config
    const writes: nat -> WriteReply
    const lookups: nat -> ReadReply

    constructor (t: Table, d: Config, w: nat -> WriteReply, r: nat -> ReadReply)
      ensures table == t && calls == 0 && defaults == d && writes == w && lookups == r
    {
      table, calls, defaults, writes, lookups := t, 0, d, w, r;
    }

    method Put(id: string, c: Config) returns (code: Option<int>)
      modifies this
      ensures calls == old(calls) + 1 && code == writes(old(calls)).code
      ensures table == PutEffect(old(table), defaults, id, c, writes(old(calls)))
    {
      code := writes(calls).code;
      table := PutEffect(table, defaults, id, c, writes(calls));
      calls := calls + 1;
    }

    method Delete(id: string) returns (code: Option<int>)
      modifies this
      ensures calls == old(calls) + 1 && code == writes(old(calls)).code
      ensures table == DeleteEffect(old(table), id, writes(old(calls)))
    {
      code := writes(calls).code;
      table := DeleteEffect(table, id, writes(calls));
      calls := calls + 1;
    }

    /** A truthful read answers 200 with the route, or 404. */
    method Get(id: string) returns (code: Option<int>, doc: Doc)
      modifies this`calls
      ensures calls == old(calls) + 1
      ensures lookups(old(calls)).TruthfulRead? ==>
                if id in table then code == Some(200) && exists c, u, twice :: doc == Envelope(table[id], c, u, twice) else code == Some(404)
      ensures lookups(old(calls)).OtherRead? ==> code == lookups(old(calls)).code && doc == lookups(old(calls)).doc
    {
      var reply := lookups(calls);
      calls := calls + 1;
      match reply
      case TruthfulRead =>
        if id in table {
          code, doc := Some(200), Envelope(table[id], "t0", "t1", false);
        } else {
          code, doc := Some(404), Doc(map[], None);
        }
      case OtherRead(c, d) => code, doc := c, d;
    }

    method RestoreRoute(id: string, old_value: Option<Config>) returns (code: Option<int>)
      modifies this
      ensures calls == old(calls) + 1 && code == writes(old(calls)).code
      ensures table == RestoreOne(old(table), defaults, id, old_value, writes(old(calls)))
    {
      if PutsBack(old_value) {
        code := Put(id, old_value.value);
      } else {
        code := Delete(id);
      }
    }

    /** The restore loop both tools share. */
    method RestoreRoutes(ids: seq<string>, previous: Snapshot) returns (failures: seq<string>)
      requires forall id | id in ids :: id in previous
      modifies this
      ensures calls == old(calls) + |ids|
      ensures (table, failures) == RestoreAll(old(table), defaults, ids, previous, writes, old(calls))
    {
      ghost var t0, start := table, calls;
      failures := [];
      for i := 0 to |ids|
        invariant calls == start + i
        invariant (table, failures) == RestoreAll(t0, defaults, ids[..i], previous, writes, start)
      {
        assert ids[..i + 1][..i] == ids[..i] && ids[..i + 1][i] == ids[i];
        var id := ids[i];
        assert id in ids;
        var code := RestoreRoute(id, previous[id]);
        hide RestoreOne;
        if !(code.Some? && code.value in {200, 201, 204, 404}) {
          failures := failures + [id];
        }
      }
      assert ids[..|ids|] == ids;
    }

    /** Read one route into a snapshot; any other code than 200 and 404 is refused. */
    method SnapshotRoute(id: string) returns (r: Option<Option<Config>>)
      modifies this`calls
      ensures calls == old(calls) + 1
      ensures r.Some? <==> Readable(lookups(old(calls)))
      ensures lookups(old(calls)).TruthfulRead? && Stored(table, defaults) ==> r == Some(Lookup(table, id))
      ensures lookups(old(calls)).OtherRead? && r.Some? ==>
                r.value == if lookups(old(calls)).code == Some(200) then Some(RouteValue(lookups(old(calls)).doc)) else None
    {
      var code, doc := Get(id);
      if code == Some(200) {
        if lookups(old(calls)).TruthfulRead? && Stored(table, defaults) {
          var c, u, twice :| doc == Envelope(table[id], c, u, twice);
          RouteValueOfEnvelope(table[id], c, u, twice);
        }
        return Some(Some(RouteValue(doc)));
      }
      r := if code == Some(404) then Some(None) else None;
    }

    /** Put one route and read it back: every configured field must have survived. */
    method WriteRoute(route: Route) returns (ok: bool)
      modifies this
      ensures table == PutEffect(old(table), defaults, route.id, route.fields, writes(old(calls)))
      ensures forall id | id != route.id :: Lookup(table, id) == Lookup(old(table), id)
      ensures Stored(old(table), defaults) && defaults.Keys !! TIMES && route.fields.Keys !! TIMES ==> Stored(table, defaults)
      ensures writes(old(calls)).code !in {Some(200), Some(201)} ==> !ok && calls == old(calls) + 1
      ensures writes(old(calls)).code in {Some(200), Some(201)} ==> calls == old(calls) + 2
      ensures writes(old(calls)).code in {Some(200), Some(201)} && Stored(table, defaults) ==>
                (ok <==> ReadsBack(table, route, lookups(old(calls) + 1)))
    {
      assert Fill(defaults, Fill(defaults, route.fields)) == Fill(defaults, route.fields);
      var code := Put(route.id, route.fields);
      if !(code == Some(200) || code == Some(201)) {
        return false;
      }
      ghost var at := calls;
      var doc;
      code, doc := Get(route.id);
      var actual := if code == Some(200) then RouteValue(doc) else map[];
      if lookups(at).TruthfulRead? && Stored(table, defaults) && route.id in table {
        var c, u, twice :| doc == Envelope(table[route.id], c, u, twice);
        RouteValueOfEnvelope(table[route.id], c, u, twice);
      }
      ok := forall k | k in route.fields :: k in actual && actual[k] == route.fields[k];
    }
  }
}
