/** The listing order recovered from object IDs is the insertion order of an in-memory store. */
module ReferenceOrder {
  import opened Orders
  import opened EventLog
  import opened ObjectOrder
  import opened GraphTables
  import opened GraphRefinement
  import opened ProjectionReads

  // ------------------------------------------------------------------
  // The reference: an insertion-ordered dictionary of objects

  predicate HasId(list: seq<Object>, id: string) { exists i :: 0 <= i < |list| && list[i].id == id }

  /** Assigning to a present key keeps its place. */
  function Replace(list: seq<Object>, o: Object): seq<Object> {
    seq(|list|, i requires 0 <= i < |list| => if list[i].id == o.id then o else list[i])
  }

  function Without(list: seq<Object>, id: string): seq<Object> {
    if list == [] then []
    else if list[|list| - 1].id == id then Without(list[..|list| - 1], id)
    else Without(list[..|list| - 1], id) + [list[|list| - 1]]
  }

  function ReferenceStep(list: seq<Object>, m: Mutation): seq<Object> {
    match m
    case PutObject(o) => if HasId(list, o.id) then Replace(list, o) else list + [o]
    case RemoveObject(id) => Without(list, id)
    case ClearVertices => []
    case _ => list
  }

  /** What one run's writes leave in the in-memory store. */
  function ReferenceList(run: RunId, writes: seq<Write>): seq<Object> {
    if writes == [] then []
    else
      var before := ReferenceList(run, writes[..|writes| - 1]);
      var last := writes[|writes| - 1];
      if last.run == run then ReferenceStep(before, last.m) else before
  }

  // ------------------------------------------------------------------
  // How the framework assigns IDs

  /** The highest counter assigned since the projection was last empty. */
  function LastCounter(run: RunId, writes: seq<Write>): int {
    if writes == [] then -1
    else
      var before := LastCounter(run, writes[..|writes| - 1]);
      var last := writes[|writes| - 1];
      if last.run != run then before
      else if last.m.ClearVertices? then -1
      else if last.m.PutObject? && before < ObjectSeq(last.m.o.id) then ObjectSeq(last.m.o.id)
      else before
  }

  ghost predicate NewId(id: string, last: int) {
    exists kind, n {:trigger FrameworkId(kind, n)} :: last < n && id == FrameworkId(kind, n)
  }

  /** A put either updates a present object or carries an ID with a counter above all earlier
      ones; in particular a removed ID is never put again. */
  ghost predicate AssignsIds(run: RunId, writes: seq<Write>) {
    forall i :: 0 <= i < |writes| && writes[i].run == run && writes[i].m.PutObject? ==>
      HasId(ReferenceList(run, writes[..i]), writes[i].m.o.id) || NewId(writes[i].m.o.id, LastCounter(run, writes[..i]))
  }

  // ------------------------------------------------------------------
  // The list and the map stay in step

  ghost predicate Increasing(list: seq<Object>) {
    forall i, j :: 0 <= i < j < |list| ==> ObjectSeq(list[i].id) < ObjectSeq(list[j].id)
  }

  ghost predicate Mirrors(list: seq<Object>, objects: Objects) {
    && (forall i :: 0 <= i < |list| ==> list[i].id in objects && objects[list[i].id] == list[i])
    && (forall id <- objects :: HasId(list, id))
  }

  ghost predicate Below(list: seq<Object>, high: int) {
    forall i :: 0 <= i < |list| ==> ObjectSeq(list[i].id) <= high
  }

  lemma Replaced(list: seq<Object>, objects: Objects, high: int, o: Object)
    requires Increasing(list) && Mirrors(list, objects) && Below(list, high) && HasId(list, o.id)
    ensures Increasing(Replace(list, o)) && Below(Replace(list, o), high) && Mirrors(Replace(list, o), objects[o.id := o])
  {
    hide ObjectSeq;
    var after := Replace(list, o);
    assert forall i :: 0 <= i < |list| ==> after[i].id == list[i].id;
    forall id <- objects[o.id := o] ensures HasId(after, id) {
      assert HasId(list, id);
      var i :| 0 <= i < |list| && list[i].id == id;
      assert after[i].id == id;
    }
  }

  lemma Appended(list: seq<Object>, objects: Objects, high: int, o: Object)
    requires Increasing(list) && Mirrors(list, objects) && Below(list, high)
    requires !HasId(list, o.id) && high < ObjectSeq(o.id)
    ensures Increasing(list + [o]) && Below(list + [o], ObjectSeq(o.id)) && Mirrors(list + [o], objects[o.id := o])
  {
    hide ObjectSeq;
    var after := list + [o];
    forall id <- objects[o.id := o] ensures HasId(after, id) {
      if id == o.id {
        assert after[|list|].id == id;
      } else {
        assert HasId(list, id);
        var i :| 0 <= i < |list| && list[i].id == id;
        assert after[i].id == id;
      }
    }
  }

  lemma {:induction false} WithoutKeeps(list: seq<Object>, high: int, id: string)
    requires Increasing(list) && Below(list, high)
    ensures Increasing(Without(list, id)) && Below(Without(list, id), high)
    ensures forall o :: o in Without(list, id) <==> o in list && o.id != id
  {
    hide ObjectSeq;
    if list != [] {
      var init, last := list[..|list| - 1], list[|list| - 1];
      assert list == init + [last];
      assert Increasing(init) && Below(init, high);
      WithoutKeeps(init, high, id);
      if last.id != id {
        forall i | 0 <= i < |Without(init, id)| ensures ObjectSeq(Without(init, id)[i].id) < ObjectSeq(last.id) {
          assert Without(init, id)[i] in init;
        }
      }
    }
  }

  lemma Removed(list: seq<Object>, objects: Objects, high: int, id: string)
    requires Increasing(list) && Mirrors(list, objects) && Below(list, high)
    ensures Increasing(Without(list, id)) && Below(Without(list, id), high) && Mirrors(Without(list, id), Drop(objects, id))
  {
    hide ObjectSeq, Increasing, Below;
    WithoutKeeps(list, high, id);
    var after := Without(list, id);
    forall i | 0 <= i < |after| ensures after[i].id in Drop(objects, id) && Drop(objects, id)[after[i].id] == after[i] {
      assert after[i] in after;
    }
    forall other <- Drop(objects, id) ensures HasId(after, other) {
      assert HasId(list, other);
      var i :| 0 <= i < |list| && list[i].id == other;
      assert list[i] in after;
      var j :| 0 <= j < |after| && after[j] == list[i];
    }
  }

  lemma {:induction false} StaysInStep(run: RunId, writes: seq<Write>)
    requires AssignsIds(run, writes)
    ensures Increasing(ReferenceList(run, writes)) && Below(ReferenceList(run, writes), LastCounter(run, writes))
    ensures Mirrors(ReferenceList(run, writes), Fold(EMPTY, run, writes).objects)
  {
    hide ObjectSeq, Increasing, Below, Mirrors;
    if writes == [] {
      NothingInStep();
    } else {
      var n := |writes| - 1;
      var before, last := writes[..n], writes[n];
      forall i | 0 <= i < n ensures before[..i] == writes[..i] {}
      StaysInStep(run, before);
      if last.run == run {
        StepInStep(ReferenceList(run, before), Fold(EMPTY, run, before), LastCounter(run, before), last.m);
      }
    }
  }

  lemma NothingInStep()
    ensures Increasing([]) && Below([], -1) && Mirrors([], map[])
  {
  }

  lemma StepInStep(list: seq<Object>, g: Graph, high: int, m: Mutation)
    requires Increasing(list) && Mirrors(list, g.objects) && Below(list, high)
    requires m.PutObject? ==> HasId(list, m.o.id) || NewId(m.o.id, high)
    ensures Increasing(ReferenceStep(list, m)) && Mirrors(ReferenceStep(list, m), Reference(g, m).objects)
    ensures Below(ReferenceStep(list, m),
      if m.ClearVertices? then -1 else if m.PutObject? && high < ObjectSeq(m.o.id) then ObjectSeq(m.o.id) else high)
  {
    hide ObjectSeq, Increasing, Mirrors, HasId;
    match m
    case PutObject(o) =>
      if HasId(list, o.id) {
        Replaced(list, g.objects, high, o);
      } else {
        var kind, n :| high < n && o.id == FrameworkId(kind, n);
        ObjectSeqOfFrameworkId(kind, n);
        Appended(list, g.objects, high, o);
      }
    case RemoveObject(id) => Removed(list, g.objects, high, id);
    case ClearVertices => NothingInStep();
    case _ =>
  }

  /** An increasing list of the objects is their listing by counter. */
  lemma ListsInOrder(list: seq<Object>, objects: Objects)
    requires Increasing(list) && Mirrors(list, objects)
    ensures AllObjects(objects) == list
  {
    hide ObjectSeq, SortedByRank;
    var ids := seq(|list|, i requires 0 <= i < |list| => list[i].id);
    var all := KeptIds(objects, AnyObject());
    assert all == objects.Keys;
    forall id ensures id in ids <==> id in all {
      if id in all {
        assert HasId(list, id);
        var i :| 0 <= i < |list| && list[i].id == id;
        assert ids[i] == id;
      }
    }
    IncreasingRankIsSorted(all, Counter(), ids);
  }

  /** While new objects get IDs with ever higher counters, reading the vertex table in counter
      order returns the objects in the order in which they were first put, whatever re-puts,
      removals, endpoint stubs and writes of other runs came between; or a key clash was met. */
  lemma ReadsKeepReferenceOrder(h: Hashing, run: RunId, writes: seq<Write>) returns (p: seq<string>, q: seq<string>)
    requires AssignsIds(run, writes)
    ensures
      || SelectObjects(h, ApplyAll(h, NO_ROWS, writes).vertices, run, AnyObject()) == ReferenceList(run, writes)
      || KeyClash(h, p, q)
  {
    hide SelectObjects, Listing, ApplyAll, Fold, ReferenceList, Increasing, Mirrors, Below, HoldsObjects, KeyClash, VerticesFormed,
      AssignsIds, Counter, AnyObject;
    p, q := TablesRefineMaps(h, writes, run);
    StaysInStep(run, writes);
    ListsInOrder(ReferenceList(run, writes), Fold(EMPTY, run, writes).objects);
    if !KeyClash(h, p, q) {
      SelectsListing(h, ApplyAll(h, NO_ROWS, writes).vertices, run, Fold(EMPTY, run, writes).objects, AnyObject());
    }
  }
}
