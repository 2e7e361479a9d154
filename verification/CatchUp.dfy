/**
 Why "changed since the watermark" is enough: overriding the snapshot at one watermark with what a
 resume captures gives the snapshot at the resume's own watermark, and when a state filter breaks that.
 */
module CatchUp {
  import opened Common
  import opened Incidents

  /** A client overlays received items on what it already has. */
  function Overlay(base: map<Id, Incident>, items: seq<Incident>): map<Id, Incident>
    decreases |items|
  {
    if items == [] then base else Overlay(base[items[0].id := items[0]], items[1..])
  }

  ghost predicate OnePerIncident(items: seq<Incident>) {
    forall i, j | 0 <= i < j < |items| :: items[i].id != items[j].id
  }

  lemma {:induction false} OverlayAt(base: map<Id, Incident>, items: seq<Incident>, id: Id)
    requires OnePerIncident(items)
    ensures id in Overlay(base, items) <==> id in base || exists x :: x in items && x.id == id
    ensures forall x | x in items && x.id == id :: id in Overlay(base, items) && Overlay(base, items)[id] == x
    ensures id in base && (forall x | x in items :: x.id != id) ==> Overlay(base, items)[id] == base[id]
    decreases |items|
  {
    if items != [] {
      var base' := base[items[0].id := items[0]];
      OverlayAt(base', items[1..], id);
      assert forall x :: x in items <==> x == items[0] || x in items[1..];
      forall x | x in items[1..] ensures x.id != items[0].id {
        var j :| 0 <= j < |items[1..]| && items[1..][j] == x;
        assert items[j + 1] == x;
      }
    }
  }

  lemma ListingOnePerIncident(items: seq<Incident>, s: set<Incident>)
    requires IsListing(Before, items, s) && DistinctIds(s)
    ensures OnePerIncident(items)
  {
    forall i, j | 0 <= i < j < |items| ensures items[i].id != items[j].id {
      assert Before(items[i], items[j]);
      assert items[i] in s && items[j] in s;
    }
  }

  /** The snapshot of the incidents in one state (or all), as of revision `w`. */
  function SnapshotIn(ledger: seq<Entry>, w: nat, f: Filter): map<Id, Incident>
    requires w <= |ledger|
  {
    var all := Replay(ledger[..w]);
    map id | id in all && Matches(f, all[id]) :: all[id]
  }

  lemma {:induction false} UntouchedSame(ledger: seq<Entry>, lower: nat, w: nat, id: Id)
    requires lower <= w <= |ledger| && !Touched(ledger, lower, w, id)
    ensures id in Replay(ledger[..w]) <==> id in Replay(ledger[..lower])
    ensures id in Replay(ledger[..lower]) ==> Replay(ledger[..w])[id] == Replay(ledger[..lower])[id]
    decreases w
  {
    if lower < w {
      assert ledger[..w][..w - 1] == ledger[..w - 1];
      assert At(ledger, w).incident != id;
      UntouchedSame(ledger, lower, w - 1, id);
    }
  }

  lemma TouchedInReplay(ledger: seq<Entry>, lower: nat, w: nat, id: Id)
    requires w <= |ledger| && Touched(ledger, lower, w, id)
    ensures id in Replay(ledger[..w])
  {
    var r :| lower < r <= w && At(ledger, r).incident == id;
    assert At(ledger[..w], r).incident == id;
    ReplayTouches(ledger[..w], id);
  }

  lemma {:induction false} ReplayWellKeyed(ledger: seq<Entry>, id: Id)
    requires WellKeyed(ledger) && id in Replay(ledger)
    ensures Replay(ledger)[id].id == id
    decreases |ledger|
  {
    var last := ledger[|ledger| - 1];
    if last.incident != id {
      ReplayWellKeyed(ledger[..|ledger| - 1], id);
    }
  }

  /** The incidents a filtered catch-up leaves stale: shown before, since moved out of the filtered state. */
  ghost predicate LeftFilter(ledger: seq<Entry>, lower: nat, w: nat, f: Filter, id: Id)
    requires lower <= w <= |ledger|
  {
    && id in SnapshotIn(ledger, lower, f)
    && id in Replay(ledger[..w]) && !Matches(f, Replay(ledger[..w])[id])
  }

  ghost function CaughtUp(ledger: seq<Entry>, lower: nat, w: nat, f: Filter, items: seq<Incident>): map<Id, Incident>
    requires lower <= w <= |ledger|
  {
    Overlay(SnapshotIn(ledger, lower, f), items)
  }

  lemma CaughtUpAt(ledger: seq<Entry>, lower: nat, w: nat, f: Filter, items: seq<Incident>, id: Id)
    requires lower <= w <= |ledger| && WellKeyed(ledger)
    requires IsListing(Before, items, Captured(ledger, w, f, lower))
    ensures LeftFilter(ledger, lower, w, f, id) ==>
              id in CaughtUp(ledger, lower, w, f, items) && id !in SnapshotIn(ledger, w, f)
    ensures !LeftFilter(ledger, lower, w, f, id) ==>
              && (id in CaughtUp(ledger, lower, w, f, items) <==> id in SnapshotIn(ledger, w, f))
              && (id in SnapshotIn(ledger, w, f) ==> CaughtUp(ledger, lower, w, f, items)[id] == SnapshotIn(ledger, w, f)[id])
  {
    CapturedDistinct(ledger, w, f, lower);
    ListingOnePerIncident(items, Captured(ledger, w, f, lower));
    OverlayAt(SnapshotIn(ledger, lower, f), items, id);
    if exists x :: x in items && x.id == id {
      var x :| x in items && x.id == id;
      CapturedExactly(ledger, w, f, lower, x);
    } else if Touched(ledger, lower, w, id) {
      TouchedInReplay(ledger, lower, w, id);
      assert forall e | e in ledger[..w] :: e in ledger;
      ReplayWellKeyed(ledger[..w], id);
      CapturedExactly(ledger, w, f, lower, Replay(ledger[..w])[id]);
    } else {
      UntouchedSame(ledger, lower, w, id);
    }
  }

  /**
   Catch-up is exact if and only if no incident shown at the old watermark has since left the filter.
   A resume never reports an incident that left its state, so the client would keep showing it.
   */
  lemma CatchUpExactIff(ledger: seq<Entry>, lower: nat, w: nat, f: Filter, items: seq<Incident>)
    requires lower <= w <= |ledger| && WellKeyed(ledger)
    requires IsListing(Before, items, Captured(ledger, w, f, lower))
    ensures CaughtUp(ledger, lower, w, f, items) == SnapshotIn(ledger, w, f)
       <==> forall id :: !LeftFilter(ledger, lower, w, f, id)
  {
    forall id
      ensures LeftFilter(ledger, lower, w, f, id) ==> CaughtUp(ledger, lower, w, f, items) != SnapshotIn(ledger, w, f)
    {
      CaughtUpAt(ledger, lower, w, f, items, id);
    }
    if forall id :: !LeftFilter(ledger, lower, w, f, id) {
      forall id
        ensures id in CaughtUp(ledger, lower, w, f, items) <==> id in SnapshotIn(ledger, w, f)
        ensures id in SnapshotIn(ledger, w, f) ==> CaughtUp(ledger, lower, w, f, items)[id] == SnapshotIn(ledger, w, f)[id]
      {
        CaughtUpAt(ledger, lower, w, f, items, id);
      }
    }
  }

  /** With no filter, nothing is ever lost: the old snapshot overridden by the catch-up is the new snapshot. */
  lemma CatchUpLosesNothing(ledger: seq<Entry>, lower: nat, w: nat, items: seq<Incident>)
    requires lower <= w <= |ledger| && WellKeyed(ledger)
    requires IsListing(Before, items, Captured(ledger, w, EVERYTHING, lower))
    ensures Overlay(Replay(ledger[..lower]), items) == Replay(ledger[..w])
    ensures forall id :: (exists x :: x in items && x.id == id) <==> Touched(ledger, lower, w, id)
  {
    assert SnapshotIn(ledger, lower, EVERYTHING) == Replay(ledger[..lower]);
    assert SnapshotIn(ledger, w, EVERYTHING) == Replay(ledger[..w]);
    CatchUpExactIff(ledger, lower, w, EVERYTHING, items);
    forall id ensures (exists x :: x in items && x.id == id) <==> Touched(ledger, lower, w, id) {
      if Touched(ledger, lower, w, id) {
        TouchedInReplay(ledger, lower, w, id);
        assert forall e | e in ledger[..w] :: e in ledger;
        ReplayWellKeyed(ledger[..w], id);
        CapturedExactly(ledger, w, EVERYTHING, lower, Replay(ledger[..w])[id]);
      }
      if exists x :: x in items && x.id == id {
        var x :| x in items && x.id == id;
        CapturedExactly(ledger, w, EVERYTHING, lower, x);
      }
    }
  }

  /** The filter case is real: resolve an incident that an OPEN-only client has seen, and it is never told. */
  lemma FilteredCatchUpCanGoStale(row: Incident, now: Time)
    requires row.lifecycle == Opened
    ensures
      var f := Filter(Some(Opened), None);
      var ledger := [Entry(row.id, row), Entry(row.id, ResolvedRow(row, row.impact, now))];
      && Captured(ledger, 2, f, 1) == {}
      && row.id in CaughtUp(ledger, 1, 2, f, [])
      && row.id !in SnapshotIn(ledger, 2, f)
  {
    var f := Filter(Some(Opened), None);
    var resolved := ResolvedRow(row, row.impact, now);
    var ledger := [Entry(row.id, row), Entry(row.id, resolved)];
    assert ledger[..1] == [Entry(row.id, row)];
    assert ledger[..2] == ledger;
    assert ledger[..2][..1] == ledger[..1];
    assert ledger[..1][..0] == [];
    assert Replay(ledger[..1]) == map[row.id := row];
    assert Replay(ledger) == map[row.id := resolved];
    forall x ensures x !in Captured(ledger, 2, f, 1) {
      CapturedExactly(ledger, 2, f, 1, x);
    }
  }

  /** A capture depends only on the ledger up to its watermark, so later writes do not disturb it. */
  lemma CapturedStable(ledger: seq<Entry>, later: seq<Entry>, w: nat, f: Filter, lower: nat)
    requires w <= |ledger| && ledger <= later && WellKeyed(ledger) && WellKeyed(later)
    ensures Captured(later, w, f, lower) == Captured(ledger, w, f, lower)
  {
    assert later[..w] == ledger[..w];
    forall x ensures x in Captured(later, w, f, lower) <==> x in Captured(ledger, w, f, lower) {
      CapturedExactly(ledger, w, f, lower, x);
      CapturedExactly(later, w, f, lower, x);
      TouchedStable(ledger, later, lower, w, x.id);
    }
  }

  lemma TouchedStable(ledger: seq<Entry>, later: seq<Entry>, lower: nat, w: nat, id: Id)
    requires w <= |ledger| && ledger <= later
    ensures Touched(later, lower, w, id) <==> Touched(ledger, lower, w, id)
  {
    if Touched(later, lower, w, id) {
      var r :| lower < r <= w && At(later, r).incident == id;
      assert At(ledger, r).incident == id;
    }
    if Touched(ledger, lower, w, id) {
      var r :| lower < r <= w && At(ledger, r).incident == id;
      assert At(later, r).incident == id;
    }
  }
}
