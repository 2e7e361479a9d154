/** Coalescing a batch of changes to the newest one for each object (tools/publication.py). */
module Coalescing {
  import opened Common

  datatype Change = Change(objectRef: string, sequence: int, payload: string)

  datatype CoalesceError = BatchSizeNotPositive | BatchExceedsCapacity

  function ByRef(): (Change, Change) -> bool {
    (a: Change, b: Change) => StringLess(a.objectRef, b.objectRef)
  }

  // ---------------------------------------------------------------- the newest change of each object

  /** Left to right, a change replaces the one kept for its object only if its sequence number is higher. */
  function Newest(changes: seq<Change>): map<string, Change> {
    if changes == [] then map[] else
      var last := changes[|changes| - 1];
      var before := Newest(changes[..|changes| - 1]);
      if last.objectRef !in before || last.sequence > before[last.objectRef].sequence
      then before[last.objectRef := last] else before
  }

  /** `c` is the change to keep for its object: the first among those with the highest sequence number. */
  ghost predicate Wins(changes: seq<Change>, c: Change) {
    exists k :: WinsAt(changes, c, k)
  }

  ghost predicate WinsAt(changes: seq<Change>, c: Change, k: int) {
    && 0 <= k < |changes| && changes[k] == c
    && (forall j | 0 <= j < k && changes[j].objectRef == c.objectRef :: changes[j].sequence < c.sequence)
    && (forall j | k < j < |changes| && changes[j].objectRef == c.objectRef :: changes[j].sequence <= c.sequence)
  }

  lemma {:induction false} NewestWins(changes: seq<Change>)
    ensures forall r :: r in Newest(changes) <==> exists k :: 0 <= k < |changes| && changes[k].objectRef == r
    ensures forall r | r in Newest(changes) :: Newest(changes)[r].objectRef == r && Wins(changes, Newest(changes)[r])
    decreases |changes|
  {
    if changes != [] {
      var n := |changes| - 1;
      var shorter := changes[..n];
      NewestWins(shorter);
      forall r ensures r in Newest(changes) <==> exists k :: 0 <= k < |changes| && changes[k].objectRef == r {
        if r in Newest(shorter) {
          var k :| 0 <= k < n && shorter[k].objectRef == r;
          assert changes[k].objectRef == r;
        }
        if k :| 0 <= k < |changes| && changes[k].objectRef == r {
          assert k < n ==> shorter[k].objectRef == r;
        }
      }
      forall r | r in Newest(changes) ensures Newest(changes)[r].objectRef == r && Wins(changes, Newest(changes)[r]) {
        WinsExtended(changes, r);
      }
    }
  }

  lemma WinsExtended(changes: seq<Change>, r: string)
    requires changes != [] && r in Newest(changes)
    requires var shorter := changes[..|changes| - 1];
             && (forall x :: x in Newest(shorter) <==> exists k :: 0 <= k < |shorter| && shorter[k].objectRef == x)
             && (forall x | x in Newest(shorter) :: Newest(shorter)[x].objectRef == x && Wins(shorter, Newest(shorter)[x]))
    ensures Newest(changes)[r].objectRef == r && Wins(changes, Newest(changes)[r])
  {
    var n := |changes| - 1;
    var shorter := changes[..n];
    var c := Newest(changes)[r];
    if r in Newest(shorter) {
      var held := Newest(shorter)[r];
      var k :| WinsAt(shorter, held, k);
      hide Newest;
      StillWins(changes, held, c, k);
    } else {
      hide Newest;
      assert forall j | 0 <= j < n :: shorter[j].objectRef != r;
      assert WinsAt(changes, c, n);
    }
  }

  lemma StillWins(changes: seq<Change>, held: Change, c: Change, k: int)
    requires changes != [] && WinsAt(changes[..|changes| - 1], held, k)
    requires
      var last := changes[|changes| - 1];
      c == if last.objectRef == held.objectRef && last.sequence > held.sequence then last else held
    ensures Wins(changes, c)
  {
    var n := |changes| - 1;
    assert forall j | 0 <= j < n :: changes[..n][j] == changes[j];
    if c == held && WinsAt(changes, held, k) {
    } else {
      assert WinsAt(changes, c, n);
    }
  }

  /** At most one change of a batch wins for an object, so the coalesced batch is determined by the batch. */
  lemma WinnerIsUnique(changes: seq<Change>, c: Change, d: Change)
    requires Wins(changes, c) && Wins(changes, d) && c.objectRef == d.objectRef
    ensures c == d
  {
    var k :| WinsAt(changes, c, k);
    var m :| WinsAt(changes, d, m);
    assert k == m;
  }

  /** Coalescing a prefix first loses nothing: the rest can be coalesced onto what was kept of it. */
  lemma {:induction false} CoalesceInStages(first: seq<Change>, kept: seq<Change>, rest: seq<Change>)
    requires Newest(kept) == Newest(first)
    ensures Newest(kept + rest) == Newest(first + rest)
    decreases |rest|
  {
    if rest == [] {
      assert kept + rest == kept && first + rest == first;
    } else {
      var n := |rest| - 1;
      CoalesceInStages(first, kept, rest[..n]);
      assert (kept + rest)[..|kept + rest| - 1] == kept + rest[..n];
      assert (first + rest)[..|first + rest| - 1] == first + rest[..n];
    }
  }

  lemma RefsAreOrdered(s: set<Change>)
    requires forall a, b | a in s && b in s && a.objectRef == b.objectRef :: a == b
    ensures StrictTotalOrder(ByRef(), s)
  {
    forall x | x in s ensures !ByRef()(x, x) { StringIrreflexive(x.objectRef); }
    forall x, y, z | x in s && y in s && z in s && ByRef()(x, y) && ByRef()(y, z) ensures ByRef()(x, z) {
      StringTransitive(x.objectRef, y.objectRef, z.objectRef);
    }
    forall x, y | x in s && y in s && x != y ensures ByRef()(x, y) || ByRef()(y, x) {
      StringTotal(x.objectRef, y.objectRef);
    }
  }

  function Refs(changes: seq<Change>): set<string> {
    set k | 0 <= k < |changes| :: changes[k].objectRef
  }

  /**
   `coalesce`: one change for each object, the first with its highest sequence number, in order of object reference;
   a batch with more objects than the maximum is refused as a whole.
   */
  method Coalesce(changes: seq<Change>, maximum: int) returns (r: Result<seq<Change>, CoalesceError>)
    ensures r == Err(BatchSizeNotPositive) <==> maximum < 1
    ensures r == Err(BatchExceedsCapacity) <==> 1 <= maximum < |Refs(changes)|
    ensures r.Ok? ==>
              && Sorted(ByRef(), r.value) && |r.value| == |Refs(changes)| <= maximum
              && (forall c :: c in r.value <==> c in changes && Wins(changes, c))
  {
    if maximum < 1 {
      return Err(BatchSizeNotPositive);
    }
    var latest: map<string, Change> := map[];
    for i := 0 to |changes|
      invariant latest == Newest(changes[..i])
    {
      var change := changes[i];
      assert changes[..i + 1][..i] == changes[..i] && changes[..i + 1][i] == change;
      if change.objectRef !in latest || change.sequence > latest[change.objectRef].sequence {
        latest := latest[change.objectRef := change];
      }
    }
    assert changes[..|changes|] == changes;
    NewestWins(changes);
    KeysAreRefs(changes);
    assert |latest| == |latest.Keys|;
    if |latest| > maximum {
      return Err(BatchExceedsCapacity);
    }
    var values := latest.Values;
    ValuesSize(latest);
    RefsAreOrdered(values);
    var sorted := OrderBy(values, ByRef());
    ListingLength(ByRef(), sorted, values);
    WinnersAreValues(changes);
    r := Ok(sorted);
  }

  lemma KeysAreRefs(changes: seq<Change>)
    ensures Newest(changes).Keys == Refs(changes)
  {
    NewestWins(changes);
  }

  lemma WinnersAreValues(changes: seq<Change>)
    ensures forall c :: c in Newest(changes).Values <==> c in changes && Wins(changes, c)
  {
    NewestWins(changes);
    forall c ensures c in Newest(changes).Values <==> c in changes && Wins(changes, c) {
      if c in changes && Wins(changes, c) {
        WinnerIsUnique(changes, c, Newest(changes)[c.objectRef]);
      }
    }
  }

  lemma {:induction false} ValuesSize(m: map<string, Change>)
    requires forall r | r in m :: m[r].objectRef == r
    ensures |m.Values| == |m|
    ensures forall a, b | a in m.Values && b in m.Values && a.objectRef == b.objectRef :: a == b
    decreases |m|
  {
    if r :| r in m {
      var smaller := m - {r};
      ValuesSize(smaller);
      assert m.Values == smaller.Values + {m[r]} by {
        forall c | c in m.Values ensures c in smaller.Values + {m[r]} {
          var k :| k in m && m[k] == c;
          assert k != r ==> k in smaller;
        }
      }
    }
  }
}
