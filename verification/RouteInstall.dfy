/**
 Installing routes with a way back: the status profile (ops/apisix/deploy_status_execute.py) restores the routes it
 attempted, newest first; the internal routes (ops/apisix/deploy_internal_m2m_routes.py) restore the whole snapshot
 in id order.
 */
module RouteInstall {
  import opened Common
  import opened Routes

  datatype InstallError = InvalidRoutes | SnapshotFailed | InstallFailed | RollbackIncomplete(ids: seq<string>)

  function Ids(routes: seq<Route>): seq<string> {
    seq(|routes|, i requires 0 <= i < |routes| => routes[i].id)
  }

  function Reversed(ids: seq<string>): seq<string> {
    seq(|ids|, i requires 0 <= i < |ids| => ids[|ids| - 1 - i])
  }

  lemma ReversedHasSame(ids: seq<string>)
    ensures forall id :: id in Reversed(ids) <==> id in ids
  {
    forall id ensures id in Reversed(ids) <==> id in ids {
      if id in ids {
        var k :| 0 <= k < |ids| && ids[k] == id;
        assert Reversed(ids)[|ids| - 1 - k] == id;
      }
    }
  }

  /** The reads that take the snapshot are truthful. */
  ghost predicate TruthfulReads(server: AdminServer, from: nat, n: nat) {
    forall k | from <= k < from + n :: server.lookups(k).TruthfulRead?
  }

  ghost predicate ReadableAll(server: AdminServer, from: nat, n: nat) {
    forall k | from <= k < from + n :: Readable(server.lookups(k))
  }

  /** A failed install restored every id in `ids`, beginning with call `from`, over a table that differs only there. */
  ghost predicate RestoredFrom(server: AdminServer, original: Table, mid: Table, ids: seq<string>, from: nat, failures: seq<string>)
    reads server
  {
    && SameOutside(mid, original, ids)
    && (forall id | id in ids :: id in SnapshotMap(original, ids))
    && (server.table, failures) == RestoreAll(mid, server.defaults, ids, SnapshotMap(original, ids), server.writes, from)
  }

  function SnapshotMap(original: Table, ids: seq<string>): Snapshot {
    map id | id in ids :: Lookup(original, id)
  }

  /** The restore of an install, read back from its specification. */
  lemma InstallIsAllOrNamed(server: AdminServer, original: Table, mid: Table, ids: seq<string>, from: nat, failures: seq<string>)
    requires RestoredFrom(server, original, mid, ids, from, failures) && Stored(original, server.defaults)
    requires HonestRestore(ids, original, server.writes, from) && NothingSlipsThrough(ids, original, server.writes, from)
    ensures forall id | id !in failures :: Lookup(server.table, id) == Lookup(original, id)
    ensures failures == [] ==> server.table == original
  {
    RestoreIsAllOrNamed(mid, original, server.defaults, ids, SnapshotMap(original, ids), server.writes, from);
  }

  /** RestoreAll looks only at the snapshot entries of the ids it restores. */
  lemma {:induction false} RestoreIgnoresRest(t: Table, defaults: Config, ids: seq<string>, p: Snapshot, q: Snapshot,
                                              replies: nat -> WriteReply, start: nat)
    requires forall id | id in ids :: id in p && id in q && p[id] == q[id]
    ensures RestoreAll(t, defaults, ids, p, replies, start) == RestoreAll(t, defaults, ids, q, replies, start)
    decreases |ids|
  {
    if ids != [] {
      RestoreIgnoresRest(t, defaults, ids[..|ids| - 1], p, q, replies, start);
    }
  }

  /** The table the writes left when they stopped. */
  ghost predicate WrittenUntilStopped(server: AdminServer, t: Table, routes: seq<Route>, base: nat, mid: Table) {
    exists n: nat :: StoppedAfter(server, t, routes, n, base) && mid == Written(t, server.defaults, routes, n, server.writes, base)
  }

  /** Routes and defaults without timestamps of their own, over a table of completed routes. */
  ghost predicate Plain(server: AdminServer, original: Table, routes: seq<Route>) {
    && Stored(original, server.defaults) && server.defaults.Keys !! TIMES
    && (forall i | 0 <= i < |routes| :: routes[i].fields.Keys !! TIMES)
  }

  ghost predicate AcceptedAt(server: AdminServer, t: Table, routes: seq<Route>, i: nat, base: nat)
    requires i < |routes|
  {
    Accepted(t, server.defaults, routes, i, server.writes, server.lookups, base)
  }

  ghost predicate AllAccepted(server: AdminServer, t: Table, routes: seq<Route>, base: nat) {
    forall i | 0 <= i < |routes| :: AcceptedAt(server, t, routes, i, base)
  }

  /** The writes, the first by call `base`, went on until the first one that was not accepted. */
  ghost predicate StoppedAfter(server: AdminServer, t: Table, routes: seq<Route>, n: nat, base: nat) {
    && n <= |routes|
    && (forall i | 0 <= i < n - 1 :: AcceptedAt(server, t, routes, i, base))
    && (n < |routes| ==> n > 0 && !AcceptedAt(server, t, routes, n - 1, base))
  }

  /** Distinct routes without timestamps of their own, and a server that reads its own writes. */
  ghost predicate Reviewed(server: AdminServer, original: Table, routes: seq<Route>) {
    && DistinctIds(routes) && Plain(server, original, routes) && (forall k :: server.lookups(k).TruthfulRead?)
  }

  ghost predicate Installed(t: Table, routes: seq<Route>, n: nat)
    requires n <= |routes|
  {
    forall i | 0 <= i < n :: Carries(t, routes[i])
  }

  /** With a server that reads its own writes: each put answered 200 or 201, and taking effect unless it changes nothing. */
  lemma AllAcceptedIff(server: AdminServer, t: Table, routes: seq<Route>, base: nat)
    requires Reviewed(server, t, routes)
    ensures
      AllAccepted(server, t, routes, base) <==>
        forall i | 0 <= i < |routes| ::
          && server.writes(base + 2 * i).code in {Some(200), Some(201)}
          && (server.writes(base + 2 * i).takesEffect || Carries(t, routes[i]))
  {
    forall i | 0 <= i < |routes|
      ensures AcceptedAt(server, t, routes, i, base) <==>
              && server.writes(base + 2 * i).code in {Some(200), Some(201)}
              && (server.writes(base + 2 * i).takesEffect || Carries(t, routes[i]))
    {
      AcceptedIff(t, server.defaults, routes, i, server.writes, server.lookups, base);
    }
    hide Accepted, Reviewed, Carries;
    if AllAccepted(server, t, routes, base) {
      forall i | 0 <= i < |routes|
        ensures server.writes(base + 2 * i).code in {Some(200), Some(201)}
                && (server.writes(base + 2 * i).takesEffect || Carries(t, routes[i]))
      {
        assert AcceptedAt(server, t, routes, i, base);
      }
    }
  }

  lemma OneMoreInstalled(t: Table, t': Table, routes: seq<Route>, n: nat)
    requires n < |routes| && DistinctIds(routes) && Installed(t, routes, n) && Carries(t', routes[n])
    requires forall id | id != routes[n].id :: Lookup(t', id) == Lookup(t, id)
    ensures Installed(t', routes, n + 1)
  {
    forall i | 0 <= i < n ensures Carries(t', routes[i]) {
      assert Carries(t, routes[i]) && Lookup(t', routes[i].id) == Lookup(t, routes[i].id);
    }
  }

  /** Snapshots every id before anything is written; None if a read is refused. */
  method TakeSnapshot(server: AdminServer, ids: seq<string>) returns (previous: Option<Snapshot>)
    modifies server`calls
    ensures old(server.calls) <= server.calls <= old(server.calls) + |ids|
    ensures previous.Some? ==> server.calls == old(server.calls) + |ids|
    ensures previous.Some? ==> previous.value.Keys == set id | id in ids
    ensures previous.Some? && TruthfulReads(server, old(server.calls), |ids|) && Stored(server.table, server.defaults) ==>
              previous.value == SnapshotMap(server.table, ids)
    ensures previous.Some? <==> ReadableAll(server, old(server.calls), |ids|)
  {
    var taken: Snapshot := map[];
    for i := 0 to |ids|
      invariant server.calls == old(server.calls) + i
      invariant taken.Keys == set id | id in ids[..i]
      invariant ReadableAll(server, old(server.calls), i)
      invariant TruthfulReads(server, old(server.calls), |ids|) && Stored(server.table, server.defaults) ==>
                  forall id | id in taken :: taken[id] == Lookup(server.table, id)
    {
      var value := server.SnapshotRoute(ids[i]);
      if value.None? {
        assert !Readable(server.lookups(old(server.calls) + i));
        return None;
      }
      assert ids[..i + 1] == ids[..i] + [ids[i]];
      taken := taken[ids[i] := value.value];
    }
    assert ids[..|ids|] == ids;
    previous := Some(taken);
  }

  /** The writing loop after `n` routes. */
  ghost predicate Progress(server: AdminServer, t: Table, routes: seq<Route>, n: nat, base: nat, ok: bool)
    reads server
  {
    && n <= |routes|
    && server.table == Written(t, server.defaults, routes, n, server.writes, base)
    && (ok ==> server.calls == base + 2 * n)
    && (!ok ==> n > 0)
    && (Plain(server, t, routes) ==>
          && Stored(server.table, server.defaults)
          && (forall i | 0 <= i < n - 1 :: AcceptedAt(server, t, routes, i, base))
          && (n > 0 ==> (ok <==> AcceptedAt(server, t, routes, n - 1, base))))
  }

  lemma ProgressEnds(server: AdminServer, t: Table, routes: seq<Route>, n: nat, base: nat, ok: bool)
    requires Progress(server, t, routes, n, base, ok) && (ok ==> n == |routes|) && Plain(server, t, routes)
    ensures (ok <==> AllAccepted(server, t, routes, base)) && StoppedAfter(server, t, routes, n, base)
  {
    hide Plain, Stored, Accepted;
  }

  lemma OneMoreProgress(server: AdminServer, t: Table, routes: seq<Route>, n: nat, base: nat, before: Table, ok: bool)
    requires n < |routes| && before == Written(t, server.defaults, routes, n, server.writes, base)
    requires server.table == PutEffect(before, server.defaults, routes[n].id, routes[n].fields, server.writes(base + 2 * n))
    requires ok ==> server.calls == base + 2 * (n + 1)
    requires Plain(server, t, routes) ==>
               && Stored(server.table, server.defaults)
               && (forall i | 0 <= i < n :: AcceptedAt(server, t, routes, i, base))
               && (ok <==>
                    && server.writes(base + 2 * n).code in {Some(200), Some(201)}
                    && ReadsBack(server.table, routes[n], server.lookups(base + 2 * n + 1)))
    ensures Progress(server, t, routes, n + 1, base, ok)
  {
    hide Plain, Stored, ReadsBack, PutEffect;
  }

  /** The loop both tools share: the routes are put and read back in order until one is not accepted. */
  method WriteRoutes(server: AdminServer, routes: seq<Route>) returns (ok: bool, attempted: seq<string>)
    modifies server
    ensures attempted <= Ids(routes) && (ok ==> attempted == Ids(routes))
    ensures server.table ==
              Written(old(server.table), server.defaults, routes, |attempted|, server.writes, old(server.calls))
    ensures SameOutside(server.table, old(server.table), attempted)
    ensures Plain(server, old(server.table), routes) ==>
              && (ok <==> AllAccepted(server, old(server.table), routes, old(server.calls)))
              && StoppedAfter(server, old(server.table), routes, |attempted|, old(server.calls))
              && WrittenUntilStopped(server, old(server.table), routes, old(server.calls), server.table)
    ensures ok && Reviewed(server, old(server.table), routes) ==> Installed(server.table, routes, |routes|)
  {
    hide Stored, Accepted, Carries, StringLess;
    ghost var t0, base := server.table, server.calls;
    attempted, ok := [], true;
    while ok && |attempted| < |routes|
      invariant |attempted| <= |routes| && attempted == Ids(routes)[..|attempted|]
      invariant Progress(server, t0, routes, |attempted|, base, ok) && (!ok ==> attempted != [])
      invariant SameOutside(server.table, t0, attempted)
      invariant Reviewed(server, t0, routes) && ok ==> Installed(server.table, routes, |attempted|)
      decreases |routes| - |attempted|, ok
    {
      var route := routes[|attempted|];
      ghost var before := server.table;
      ghost var n := |attempted|;
      assert Ids(routes)[..n + 1] == Ids(routes)[..n] + [route.id];
      attempted := attempted + [route.id];
      ok := server.WriteRoute(route);
      forall id | id !in attempted ensures Lookup(server.table, id) == Lookup(t0, id) {
        assert id != route.id;
      }
      if Reviewed(server, t0, routes) && ok { OneMoreInstalled(before, server.table, routes, n); }
      OneMoreProgress(server, t0, routes, n, base, before, ok);
    }
    if Plain(server, t0, routes) { ProgressEnds(server, t0, routes, |attempted|, base, ok); }
  }

  /** The rollback of a failed install: the ids are restored in order, and the error names the unconfirmed ones. */
  method RollBack(server: AdminServer, ids: seq<string>, previous: Snapshot, ghost original: Table) returns (error: InstallError)
    requires (forall id | id in ids :: id in previous) && SameOutside(server.table, original, ids)
    modifies server
    ensures error.InstallFailed? || (error.RollbackIncomplete? && error.ids != [])
    ensures (forall id | id in ids :: previous[id] == Lookup(original, id)) ==>
              RestoredFrom(server, original, old(server.table), ids, old(server.calls),
                           if error.RollbackIncomplete? then error.ids else [])
    ensures SameOutside(server.table, original, ids)
  {
    ghost var mid, from := server.table, server.calls;
    var failures := server.RestoreRoutes(ids, previous);
    if forall id | id in ids :: previous[id] == Lookup(original, id) {
      RestoreIgnoresRest(mid, server.defaults, ids, previous, SnapshotMap(original, ids), server.writes, from);
    }
    forall id | id !in ids ensures Lookup(server.table, id) == Lookup(original, id) {
      RestoreDecidesEach(mid, server.defaults, ids, previous, server.writes, from, id);
    }
    error := if failures == [] then InstallFailed else RollbackIncomplete(failures);
  }

  /**
   `apply_routes`. A refused or unsaved snapshot writes nothing. Otherwise the routes are written in order until one
   fails, by its status, its readback or the final probe; then exactly the attempted ids are restored, the failing one
   included, since a write that reported an error may have taken effect.
   */
  method ApplyRoutes(server: AdminServer, routes: seq<Route>, saved: bool, publicOk: bool)
    returns (r: Result<(), InstallError>, ghost attempted: seq<string>, ghost mid: Table, ghost from: nat)
    modifies server
    ensures r == Err(SnapshotFailed) <==> !saved || !ReadableAll(server, old(server.calls), |routes|)
    ensures r == Err(SnapshotFailed) ==> server.table == old(server.table)
    ensures r.Ok? && Reviewed(server, old(server.table), routes) ==> Installed(server.table, routes, |routes|)
    ensures Plain(server, old(server.table), routes) ==>
              (r.Ok? <==>
                && saved && publicOk && ReadableAll(server, old(server.calls), |routes|)
                && AllAccepted(server, old(server.table), routes, old(server.calls) + |routes|))
    ensures r.Ok? || (r.Err? && r != Err(SnapshotFailed)) ==>
              && |attempted| <= |routes|
              && mid == Written(old(server.table), server.defaults, routes, |attempted|, server.writes, old(server.calls) + |routes|)
              && (Plain(server, old(server.table), routes) ==>
                    StoppedAfter(server, old(server.table), routes, |attempted|, old(server.calls) + |routes|))
    ensures attempted <= Ids(routes) && (r.Ok? ==> attempted == Ids(routes) && publicOk)
    ensures SameOutside(server.table, old(server.table), attempted)
    ensures r.Err? && r != Err(SnapshotFailed) && TruthfulReads(server, old(server.calls), |routes|)
            && Stored(old(server.table), server.defaults) ==>
              RestoredFrom(server, old(server.table), mid, Reversed(attempted), from,
                           if r.error.RollbackIncomplete? then r.error.ids else [])
    ensures r.Err? ==> r.error.SnapshotFailed? || r.error.InstallFailed? || (r.error.RollbackIncomplete? && r.error.ids != [])
  {
    hide Reviewed, Plain, Stored, AllAccepted, StoppedAfter, WrittenUntilStopped, Installed, RestoredFrom, Written;
    attempted, mid, from := [], server.table, server.calls;
    var previous := TakeSnapshot(server, Ids(routes));
    if previous.None? || !saved {
      return Err(SnapshotFailed), attempted, mid, from;
    }
    ghost var t0 := server.table;
    var ok, done := WriteRoutes(server, routes);
    attempted, mid, from := done, server.table, server.calls;
    if ok && publicOk {
      return Ok(()), attempted, mid, from;
    }
    var ids := Reversed(done);
    ReversedHasSame(done);
    assert forall id | id in ids :: id in previous.value by {
      assert forall id | id in done :: id in Ids(routes);
    }
    var error := RollBack(server, ids, previous.value, t0);
    r := Err(error);
  }

  /** `probe_path`: a concrete path under a wildcard uri. */
  function ProbePath(uri: string): string {
    if |uri| >= 2 && uri[|uri| - 2..] == "/*" then uri[..|uri| - 1] + "probe" else uri
  }

  ghost predicate Matches(uri: string, path: string) {
    if |uri| >= 2 && uri[|uri| - 2..] == "/*" then uri[..|uri| - 1] <= path && |path| >= |uri| else path == uri
  }

  /** The probe goes to a path the route serves, never to the wildcard itself. */
  lemma ProbeHitsItsRoute(uri: string)
    ensures Matches(uri, ProbePath(uri)) && (|ProbePath(uri)| < 2 || ProbePath(uri)[|ProbePath(uri)| - 2..] != "/*")
  {
    if |uri| >= 2 && uri[|uri| - 2..] == "/*" {
      var path := ProbePath(uri);
      assert path[|path| - 1] == 'e';
    }
  }

  /** Each route in turn is probed without credentials, until one probe is not refused. */
  method ProbesRefused(routes: seq<Route>, probes: nat -> Option<int>) returns (ok: bool)
    ensures ok <==> forall i | 0 <= i < |routes| :: probes(i) == Some(401) || probes(i) == Some(403)
  {
    for i := 0 to |routes|
      invariant forall k | 0 <= k < i :: probes(k) == Some(401) || probes(k) == Some(403)
    {
      if probes(i) != Some(401) && probes(i) != Some(403) { return false; }
    }
    ok := true;
  }

  /**
   The internal `apply`. Every route is written and read back, then every route is probed without credentials and must
   answer 401 or 403; any failure restores the whole snapshot, in id order, whether or not an id was reached.
   */
  method ApplyInternal(server: AdminServer, routes: seq<Route>, saved: bool, probes: nat -> Option<int>)
    returns (r: Result<(), InstallError>, ghost restored: seq<string>, ghost mid: Table, ghost from: nat)
    modifies server
    ensures r == Err(InvalidRoutes) <==> routes == [] || !DistinctIds(routes)
    ensures r == Err(SnapshotFailed) <==>
              routes != [] && DistinctIds(routes) && (!saved || !ReadableAll(server, old(server.calls), |routes|))
    ensures r == Err(SnapshotFailed) || r == Err(InvalidRoutes) ==> server.table == old(server.table)
    ensures r.Ok? && Reviewed(server, old(server.table), routes) ==> Installed(server.table, routes, |routes|)
    ensures r.Ok? ==> forall i | 0 <= i < |routes| :: probes(i) == Some(401) || probes(i) == Some(403)
    ensures Plain(server, old(server.table), routes) ==>
              (r.Ok? <==>
                && routes != [] && DistinctIds(routes) && saved && ReadableAll(server, old(server.calls), |routes|)
                && AllAccepted(server, old(server.table), routes, old(server.calls) + |routes|)
                && (forall i | 0 <= i < |routes| :: probes(i) == Some(401) || probes(i) == Some(403)))
    ensures r.Ok? ==>
              server.table == Written(old(server.table), server.defaults, routes, |routes|, server.writes, old(server.calls) + |routes|)
    ensures r.Err? && !r.error.SnapshotFailed? && !r.error.InvalidRoutes? && Plain(server, old(server.table), routes) ==>
              WrittenUntilStopped(server, old(server.table), routes, old(server.calls) + |routes|, mid)
    ensures SameOutside(server.table, old(server.table), Ids(routes))
    ensures r.Err? && !r.error.SnapshotFailed? && !r.error.InvalidRoutes? && TruthfulReads(server, old(server.calls), |routes|)
            && Stored(old(server.table), server.defaults) ==>
              && RestoredFrom(server, old(server.table), mid, restored, from, if r.error.RollbackIncomplete? then r.error.ids else [])
              && IsListing(StringLess, restored, set id | id in Ids(routes))
  {
    hide Reviewed, Plain, Stored, AllAccepted, WrittenUntilStopped, Installed, RestoredFrom, Written, IsListing;
    restored, mid, from := [], server.table, server.calls;
    if routes == [] || !DistinctIds(routes) {
      return Err(InvalidRoutes), restored, mid, from;
    }
    var names := set i | 0 <= i < |routes| :: routes[i].id;
    StringsAreOrdered(names);
    var ids := OrderBy(names, StringLess);
    SameIds(routes, ids, names);
    var previous := TakeSnapshot(server, ids);
    if previous.None? || !saved {
      return Err(SnapshotFailed), restored, mid, from;
    }
    ghost var t0 := server.table;
    var ok, attempted := WriteRoutes(server, routes);
    if ok { ok := ProbesRefused(routes, probes); }
    if ok {
      return Ok(()), restored, mid, from;
    }
    restored, mid, from := ids, server.table, server.calls;
    var error := RollBack(server, ids, previous.value, t0);
    r := Err(error);
  }

  lemma SameIds(routes: seq<Route>, ids: seq<string>, names: set<string>)
    requires IsListing(StringLess, ids, names) && names == set i | 0 <= i < |routes| :: routes[i].id
    requires DistinctIds(routes)
    ensures forall id :: id in ids <==> id in Ids(routes)
    ensures names == (set id | id in Ids(routes)) && |ids| == |routes|
  {
    forall id ensures id in ids <==> id in Ids(routes) {
      if id in names {
        var i :| 0 <= i < |routes| && routes[i].id == id;
        assert Ids(routes)[i] == id;
      }
      if id in Ids(routes) {
        var i :| 0 <= i < |Ids(routes)| && Ids(routes)[i] == id;
        assert routes[i].id in names;
      }
    }
    StringsAreOrdered(names);
    ListingLength(StringLess, ids, names);
    DistinctCount(routes);
  }

  lemma {:induction false} DistinctCount(routes: seq<Route>)
    requires DistinctIds(routes)
    ensures |set i | 0 <= i < |routes| :: routes[i].id| == |routes|
    decreases |routes|
  {
    if routes != [] {
      var n := |routes| - 1;
      DistinctCount(routes[..n]);
      var shorter := set i | 0 <= i < |routes[..n]| :: routes[..n][i].id;
      assert (set i | 0 <= i < |routes| :: routes[i].id) == shorter + {routes[n].id} by {
        forall i | 0 <= i < n ensures routes[i].id in shorter { assert routes[..n][i] == routes[i]; }
      }
      assert routes[n].id !in shorter;
    }
  }
}
