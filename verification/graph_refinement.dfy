/** The tables refine plain maps of objects, relations and patches under every mutation. */
module GraphRefinement {
  import opened EventLog
  import opened ObjectOrder
  import opened GraphTables

  // ------------------------------------------------------------------
  // Rows of other runs are neither changed, removed nor added

  ghost predicate VerticesKept(a: map<string, VertexRow>, b: map<string, VertexRow>, run: RunId) {
    && (forall k :: k in a && a[k].run != run ==> k in b && b[k] == a[k])
    && (forall k :: k in b && b[k].run != run ==> k in a && b[k] == a[k])
  }

  ghost predicate EdgesKept(a: map<string, RelationRow>, b: map<string, RelationRow>, run: RunId) {
    && (forall k :: k in a && a[k].run != run ==> k in b && b[k] == a[k])
    && (forall k :: k in b && b[k].run != run ==> k in a && b[k] == a[k])
  }

  ghost predicate PatchesKept(a: map<string, PatchRow>, b: map<string, PatchRow>, run: RunId) {
    && (forall k :: k in a && a[k].run != run ==> k in b && b[k] == a[k])
    && (forall k :: k in b && b[k].run != run ==> k in a && b[k] == a[k])
  }

  ghost predicate OtherRunsKept(t: Tables, t': Tables, run: RunId) {
    && VerticesKept(t.vertices, t'.vertices, run)
    && EdgesKept(t.relations, t'.relations, run)
    && PatchesKept(t.patches, t'.patches, run)
  }

  // ------------------------------------------------------------------
  // One table at a time

  lemma VertexWritten(h: Hashing, v: map<string, VertexRow>, run: RunId, row: VertexRow, objects: map<string, Object>)
    requires VerticesFormed(h, v) && HoldsObjects(h, v, run, objects) && !VertexClash(h, v, run, row.objectId)
    requires row.run == run && row.objectSeq == ObjectSeq(row.objectId)
    ensures
      var v' := v[VertexKey(h, run, row.objectId) := row];
      && VerticesFormed(h, v') && VerticesKept(v, v', run)
      && HoldsObjects(h, v', run, if row.body.Some? then objects[row.objectId := ObjectOf(row)] else Drop(objects, row.objectId))
  {
    hide VertexKey, ObjectSeq;
    var v' := v[VertexKey(h, run, row.objectId) := row];
    forall id ensures VertexPresent(h, v', run, id) <==> if id == row.objectId then row.body.Some? else VertexPresent(h, v, run, id) {}
  }

  /** Edges stay joined while vertices keep their identity. */
  lemma StillJoined(h: Hashing, v: map<string, VertexRow>, v': map<string, VertexRow>, relations: map<string, RelationRow>)
    requires EdgesJoined(h, v, relations)
    requires forall k :: k in v ==> k in v' && Identifies(v'[k], v[k].run, v[k].objectId)
    ensures EdgesJoined(h, v', relations)
  {
    hide VertexKey;
  }

  lemma EdgeWritten(h: Hashing, rows: map<string, RelationRow>, row: RelationRow, relations: map<string, Relation>)
    requires EdgesFormed(h, rows) && HoldsRelations(h, rows, row.run, relations) && !RelationClash(h, rows, row.run, row.relation.id)
    ensures
      var rows' := rows[RelationKey(h, row.run, row.relation.id) := row];
      && EdgesFormed(h, rows') && EdgesKept(rows, rows', row.run)
      && HoldsRelations(h, rows', row.run, relations[row.relation.id := row.relation])
  {
    hide RelationKey;
    var rows' := rows[RelationKey(h, row.run, row.relation.id) := row];
    forall id ensures EdgePresent(h, rows', row.run, id) <==> id == row.relation.id || EdgePresent(h, rows, row.run, id) {}
  }

  lemma EdgeDropped(h: Hashing, rows: map<string, RelationRow>, run: RunId, id: string, relations: map<string, Relation>)
    requires EdgesFormed(h, rows) && HoldsRelations(h, rows, run, relations) && !RelationClash(h, rows, run, id)
    ensures
      var rows' := Drop(rows, RelationKey(h, run, id));
      EdgesFormed(h, rows') && EdgesKept(rows, rows', run) && HoldsRelations(h, rows', run, Drop(relations, id))
  {
    hide RelationKey;
    var rows' := Drop(rows, RelationKey(h, run, id));
    forall other ensures EdgePresent(h, rows', run, other) <==> other != id && EdgePresent(h, rows, run, other) {}
  }

  lemma PatchWritten(h: Hashing, rows: map<string, PatchRow>, row: PatchRow, patches: map<string, Patch>)
    requires PatchesFormed(h, rows) && HoldsPatches(h, rows, row.run, patches) && !PatchClash(h, rows, row.run, row.patch.id)
    ensures
      var rows' := rows[PatchKey(h, row.run, row.patch.id) := row];
      && PatchesFormed(h, rows') && PatchesKept(rows, rows', row.run)
      && HoldsPatches(h, rows', row.run, patches[row.patch.id := row.patch])
  {
    hide PatchKey;
    var rows' := rows[PatchKey(h, row.run, row.patch.id) := row];
    forall id ensures PatchPresent(h, rows', row.run, id) <==> id == row.patch.id || PatchPresent(h, rows, row.run, id) {}
  }

  lemma PatchDropped(h: Hashing, rows: map<string, PatchRow>, run: RunId, id: string, patches: map<string, Patch>)
    requires PatchesFormed(h, rows) && HoldsPatches(h, rows, run, patches) && !PatchClash(h, rows, run, id)
    ensures
      var rows' := Drop(rows, PatchKey(h, run, id));
      PatchesFormed(h, rows') && PatchesKept(rows, rows', run) && HoldsPatches(h, rows', run, Drop(patches, id))
  {
    hide PatchKey;
    var rows' := Drop(rows, PatchKey(h, run, id));
    forall other ensures PatchPresent(h, rows', run, other) <==> other != id && PatchPresent(h, rows, run, other) {}
  }

  // ------------------------------------------------------------------
  // One mutation at a time

  /** What a mutation without a key clash establishes. */
  ghost predicate Refined(h: Hashing, t: Tables, run: RunId, m: Mutation, g: Graph) {
    var after := Mutate(h, t, run, m);
    && after.Some? && WellFormed(h, after.value)
    && HoldsGraph(h, after.value, run, Reference(g, m))
    && OtherRunsKept(t, after.value, run)
  }

  lemma PutObjectRefines(h: Hashing, t: Tables, run: RunId, o: Object, g: Graph)
    requires WellFormed(h, t) && HoldsGraph(h, t, run, g) && !Clash(h, t, run, PutObject(o))
    ensures Refined(h, t, run, PutObject(o), g)
  {
    hide VertexKey, ObjectSeq, HoldsObjects, HoldsRelations, HoldsPatches, VerticesFormed, EdgesFormed, PatchesFormed, EdgesJoined;
    var row := ObjectRow(run, o);
    VertexWritten(h, t.vertices, run, row, g.objects);
    StillJoined(h, t.vertices, t.vertices[VertexKey(h, run, o.id) := row], t.relations);
  }

  lemma RemoveObjectRefines(h: Hashing, t: Tables, run: RunId, id: string, g: Graph)
    requires WellFormed(h, t) && HoldsGraph(h, t, run, g) && !Clash(h, t, run, RemoveObject(id))
    ensures Refined(h, t, run, RemoveObject(id), g)
  {
    hide VertexKey, ObjectSeq, HoldsRelations, HoldsPatches, VerticesFormed, EdgesFormed, PatchesFormed, EdgesJoined;
    if VertexKey(h, run, id) in t.vertices {
      hide HoldsObjects;
      VertexWritten(h, t.vertices, run, Placeholder(run, id), g.objects);
      StillJoined(h, t.vertices, t.vertices[VertexKey(h, run, id) := Placeholder(run, id)], t.relations);
    } else {
      assert !VertexPresent(h, t.vertices, run, id);
      assert Drop(g.objects, id) == g.objects;
    }
  }

  lemma EnsureVertexKeeps(h: Hashing, v: map<string, VertexRow>, run: RunId, id: string, objects: map<string, Object>)
    requires VerticesFormed(h, v) && HoldsObjects(h, v, run, objects) && !VertexClash(h, v, run, id)
    ensures EnsureVertex(h, v, run, id).Some?
    ensures
      var v' := EnsureVertex(h, v, run, id).value;
      && VerticesFormed(h, v') && HoldsObjects(h, v', run, objects) && VerticesKept(v, v', run)
      && EndpointStored(h, v', run, VertexKey(h, run, id), id)
      && (forall k :: k in v ==> k in v' && v'[k] == v[k])
      && (forall k :: k in v' && k !in v ==> k == VertexKey(h, run, id))
  {
    hide VertexKey, ObjectSeq, VerticesFormed;
    if VertexKey(h, run, id) !in v {
      assert !VertexPresent(h, v, run, id);
      assert Drop(objects, id) == objects;
      VertexWritten(h, v, run, Placeholder(run, id), objects);
    }
  }

  lemma SameVertexKey(h: Hashing, run: RunId, a: string, b: string)
    requires !KeyClash(h, VertexParts(run, a), VertexParts(run, b))
    ensures VertexKey(h, run, a) == VertexKey(h, run, b) ==> a == b
  {
    assert VertexParts(run, a)[3] == a && VertexParts(run, b)[3] == b;
  }

  lemma EnsureBothKeeps(h: Hashing, v: map<string, VertexRow>, run: RunId, r: Relation, objects: map<string, Object>)
    requires VerticesFormed(h, v) && HoldsObjects(h, v, run, objects)
    requires !VertexClash(h, v, run, r.source) && !VertexClash(h, v, run, r.target)
    requires !KeyClash(h, VertexParts(run, r.source), VertexParts(run, r.target))
    ensures EnsureVertex(h, v, run, r.source).Some?
    ensures EnsureVertex(h, EnsureVertex(h, v, run, r.source).value, run, r.target).Some?
    ensures
      var v' := EnsureVertex(h, EnsureVertex(h, v, run, r.source).value, run, r.target).value;
      && VerticesFormed(h, v') && HoldsObjects(h, v', run, objects) && VerticesKept(v, v', run)
      && EndpointStored(h, v', run, VertexKey(h, run, r.source), r.source)
      && EndpointStored(h, v', run, VertexKey(h, run, r.target), r.target)
      && (forall k :: k in v ==> k in v' && v'[k] == v[k])
  {
    hide VertexKey, VertexParts, ObjectSeq, VerticesFormed, HoldsObjects, EnsureVertex, KeyClash;
    SameVertexKey(h, run, r.source, r.target);
    EnsureVertexKeeps(h, v, run, r.source, objects);
    EnsureVertexKeeps(h, EnsureVertex(h, v, run, r.source).value, run, r.target, objects);
  }

  lemma PutRelationRefines(h: Hashing, t: Tables, run: RunId, r: Relation, g: Graph)
    requires WellFormed(h, t) && HoldsGraph(h, t, run, g) && !Clash(h, t, run, PutRelation(r))
    ensures Refined(h, t, run, PutRelation(r), g)
  {
    hide VertexKey, RelationKey, VertexParts, ObjectSeq, VerticesFormed, EdgesFormed, PatchesFormed, HoldsObjects, HoldsRelations,
      HoldsPatches, EnsureVertex, KeyClash, VertexClash, RelationClash;
    EnsureBothKeeps(h, t.vertices, run, r, g.objects);
    var v' := EnsureVertex(h, EnsureVertex(h, t.vertices, run, r.source).value, run, r.target).value;
    StillJoined(h, t.vertices, v', t.relations);
    EdgeWritten(h, t.relations, RelationRow(run, VertexKey(h, run, r.source), VertexKey(h, run, r.target), r), g.relations);
  }

  lemma RemoveRelationRefines(h: Hashing, t: Tables, run: RunId, id: string, g: Graph)
    requires WellFormed(h, t) && HoldsGraph(h, t, run, g) && !Clash(h, t, run, RemoveRelation(id))
    ensures Refined(h, t, run, RemoveRelation(id), g)
  {
    hide VertexKey, RelationKey, VerticesFormed, EdgesFormed, PatchesFormed, HoldsObjects, HoldsRelations, HoldsPatches, EndpointStored;
    EdgeDropped(h, t.relations, run, id, g.relations);
  }

  lemma PatchRefines(h: Hashing, t: Tables, run: RunId, m: Mutation, g: Graph)
    requires m.PutPatch? || m.RemovePatch?
    requires WellFormed(h, t) && HoldsGraph(h, t, run, g) && !Clash(h, t, run, m)
    ensures Refined(h, t, run, m, g)
  {
    hide PatchKey, VerticesFormed, EdgesFormed, EdgesJoined, PatchesFormed, HoldsObjects, HoldsRelations, HoldsPatches;
    if m.PutPatch? {
      PatchWritten(h, t.patches, PatchRow(run, m.p), g.patches);
    } else {
      PatchDropped(h, t.patches, run, m.id, g.patches);
    }
  }

  lemma EdgesCleared(h: Hashing, rows: map<string, RelationRow>, rows': map<string, RelationRow>, run: RunId)
    requires EdgesFormed(h, rows)
    requires forall k :: k in rows' <==> k in rows && rows[k].run != run
    requires forall k :: k in rows' ==> rows'[k] == rows[k]
    ensures EdgesFormed(h, rows') && EdgesKept(rows, rows', run) && HoldsRelations(h, rows', run, map[])
  {
    hide RelationKey;
  }

  lemma PatchesCleared(h: Hashing, rows: map<string, PatchRow>, rows': map<string, PatchRow>, run: RunId)
    requires PatchesFormed(h, rows)
    requires forall k :: k in rows' <==> k in rows && rows[k].run != run
    requires forall k :: k in rows' ==> rows'[k] == rows[k]
    ensures PatchesFormed(h, rows') && PatchesKept(rows, rows', run) && HoldsPatches(h, rows', run, map[])
  {
    hide PatchKey;
  }

  lemma VerticesCleared(h: Hashing, rows: map<string, VertexRow>, rows': map<string, VertexRow>, run: RunId)
    requires VerticesFormed(h, rows)
    requires forall k :: k in rows' <==> k in rows && rows[k].run != run
    requires forall k :: k in rows' ==> rows'[k] == rows[k]
    ensures VerticesFormed(h, rows') && VerticesKept(rows, rows', run) && HoldsObjects(h, rows', run, map[])
  {
    hide VertexKey, ObjectSeq;
  }

  lemma ClearEdgesRefines(h: Hashing, t: Tables, run: RunId, g: Graph)
    requires WellFormed(h, t) && HoldsGraph(h, t, run, g)
    ensures Refined(h, t, run, ClearRelations, g)
  {
    hide VerticesFormed, EdgesFormed, PatchesFormed, HoldsObjects, HoldsRelations, HoldsPatches, EndpointStored;
    EdgesCleared(h, t.relations, Mutate(h, t, run, ClearRelations).value.relations, run);
  }

  lemma ClearPatchesRefines(h: Hashing, t: Tables, run: RunId, g: Graph)
    requires WellFormed(h, t) && HoldsGraph(h, t, run, g)
    ensures Refined(h, t, run, ClearPatches, g)
  {
    hide VerticesFormed, EdgesFormed, EdgesJoined, PatchesFormed, HoldsObjects, HoldsRelations, HoldsPatches;
    PatchesCleared(h, t.patches, Mutate(h, t, run, ClearPatches).value.patches, run);
  }

  /** Deleting a run's vertices cascades to exactly the run's own edges. */
  lemma CascadeStaysInRun(h: Hashing, t: Tables, run: RunId)
    requires WellFormed(h, t)
    ensures forall k :: k in DeleteVertices(t, run).relations <==> k in t.relations && t.relations[k].run != run
    ensures EdgesJoined(h, DeleteVertices(t, run).vertices, DeleteVertices(t, run).relations)
  {
    hide VertexKey, VerticesFormed, EdgesFormed, PatchesFormed;
    forall k ensures k in DeleteVertices(t, run).relations <==> k in t.relations && t.relations[k].run != run {}
  }

  lemma ClearVerticesRefines(h: Hashing, t: Tables, run: RunId, g: Graph)
    requires WellFormed(h, t) && HoldsGraph(h, t, run, g)
    ensures Refined(h, t, run, ClearVertices, g)
  {
    hide VerticesFormed, EdgesFormed, PatchesFormed, EdgesJoined, HoldsObjects, HoldsRelations, HoldsPatches;
    CascadeStaysInRun(h, t, run);
    EdgesCleared(h, t.relations, DeleteVertices(t, run).relations, run);
    VerticesCleared(h, t.vertices, DeleteVertices(t, run).vertices, run);
  }

  /** One mutation: it succeeds, the rows stay well formed, the run's graph changes as the plain
      maps would, and no row of another run is touched. */
  lemma MutationRefines(h: Hashing, t: Tables, run: RunId, m: Mutation, g: Graph)
    requires WellFormed(h, t) && HoldsGraph(h, t, run, g) && !Clash(h, t, run, m)
    ensures Refined(h, t, run, m, g)
  {
    hide Refined, WellFormed, HoldsGraph, Clash;
    match m
    case PutObject(o) => PutObjectRefines(h, t, run, o, g);
    case RemoveObject(id) => RemoveObjectRefines(h, t, run, id, g);
    case PutRelation(r) => PutRelationRefines(h, t, run, r, g);
    case RemoveRelation(id) => RemoveRelationRefines(h, t, run, id, g);
    case PutPatch(_) => PatchRefines(h, t, run, m, g);
    case RemovePatch(_) => PatchRefines(h, t, run, m, g);
    case ClearRelations => ClearEdgesRefines(h, t, run, g);
    case ClearPatches => ClearPatchesRefines(h, t, run, g);
    case ClearVertices => ClearVerticesRefines(h, t, run, g);
  }

  // ------------------------------------------------------------------
  // Operation sequences over many runs

  datatype Write = Write(run: RunId, m: Mutation)

  /** A mutation that raises leaves the tables as they were. */
  function Apply(h: Hashing, t: Tables, w: Write): Tables {
    var after := Mutate(h, t, w.run, w.m);
    if after.Some? then after.value else t
  }

  function ApplyAll(h: Hashing, t: Tables, writes: seq<Write>): Tables {
    if writes == [] then t else Apply(h, ApplyAll(h, t, writes[..|writes| - 1]), writes[|writes| - 1])
  }

  /** The writes of one run, folded over a plain graph. */
  function Fold(g: Graph, run: RunId, writes: seq<Write>): Graph {
    if writes == [] then g
    else
      var before := Fold(g, run, writes[..|writes| - 1]);
      var last := writes[|writes| - 1];
      if last.run == run then Reference(before, last.m) else before
  }

  /** No write of the sequence meets a key that holds another logical ID. */
  ghost predicate ClashFree(h: Hashing, t: Tables, writes: seq<Write>) {
    forall i :: 0 <= i < |writes| ==> !Clash(h, ApplyAll(h, t, writes[..i]), writes[i].run, writes[i].m)
  }

  lemma OtherRunHolds(h: Hashing, t: Tables, t': Tables, run: RunId, other: RunId, g: Graph)
    requires OtherRunsKept(t, t', run) && HoldsGraph(h, t, other, g) && other != run
    ensures HoldsGraph(h, t', other, g)
  {
    hide VertexKey, RelationKey, PatchKey, ObjectOf;
    forall id ensures VertexPresent(h, t'.vertices, other, id) <==> VertexPresent(h, t.vertices, other, id) {}
    forall id ensures EdgePresent(h, t'.relations, other, id) <==> EdgePresent(h, t.relations, other, id) {}
    forall id ensures PatchPresent(h, t'.patches, other, id) <==> PatchPresent(h, t.patches, other, id) {}
  }

  /** After any sequence of writes to any runs, each run's rows hold exactly the graph its own
      writes build on plain maps, and at every point both endpoints of every stored relation are
      stored vertices; unless two part lists share a key. */
  lemma {:induction false} WritesRefine(h: Hashing, t: Tables, writes: seq<Write>, run: RunId, g: Graph, graphs: map<RunId, Graph>)
    requires WellFormed(h, t) && ClashFree(h, t, writes)
    requires run in graphs && graphs[run] == g
    requires forall w <- writes :: w.run in graphs
    requires forall r :: r in graphs ==> HoldsGraph(h, t, r, graphs[r])
    ensures WellFormed(h, ApplyAll(h, t, writes))
    ensures HoldsGraph(h, ApplyAll(h, t, writes), run, Fold(g, run, writes))
  {
    hide WellFormed, HoldsGraph, Clash, Reference, Mutate, OtherRunsKept;
    if writes != [] {
      var n := |writes| - 1;
      var before, last := writes[..n], writes[n];
      forall i | 0 <= i <= n ensures before[..i] == writes[..i] {}
      WritesRefine(h, t, before, run, g, graphs);
      WritesRefine(h, t, before, last.run, graphs[last.run], graphs);
      var t1 := ApplyAll(h, t, before);
      MutationRefines(h, t1, last.run, last.m, Fold(graphs[last.run], last.run, before));
      if last.run != run {
        OtherRunHolds(h, t1, Apply(h, t1, last), last.run, run, Fold(g, run, before));
      }
    }
  }

  const NO_ROWS := Tables(map[], map[], map[])

  /** From empty tables, whatever is written to whichever runs: every run's rows hold the graph its
      own writes build, and no stored relation dangles; or two different part lists with the same
      key can be named. */
  lemma TablesRefineMaps(h: Hashing, writes: seq<Write>, run: RunId) returns (p: seq<string>, q: seq<string>)
    ensures
      || (&& WellFormed(h, ApplyAll(h, NO_ROWS, writes))
          && HoldsGraph(h, ApplyAll(h, NO_ROWS, writes), run, Fold(EMPTY, run, writes)))
      || KeyClash(h, p, q)
  {
    hide ApplyAll, Clash, KeyClash, Reference, Fold, VertexKey, RelationKey, PatchKey;
    p, q := [], [];
    if ClashFree(h, NO_ROWS, writes) {
      FromNothing(h, writes, run);
    } else {
      var i := FirstClash(h, writes);
      FromNothing(h, writes[..i], run);
      p, q := ClashExhibitsKeys(h, ApplyAll(h, NO_ROWS, writes[..i]), writes[i].run, writes[i].m);
    }
  }

  lemma FromNothing(h: Hashing, writes: seq<Write>, run: RunId)
    requires ClashFree(h, NO_ROWS, writes)
    ensures WellFormed(h, ApplyAll(h, NO_ROWS, writes))
    ensures HoldsGraph(h, ApplyAll(h, NO_ROWS, writes), run, Fold(EMPTY, run, writes))
  {
    hide ClashFree, ApplyAll, Fold;
    var runs := {run} + set w <- writes :: w.run;
    WritesRefine(h, NO_ROWS, writes, run, EMPTY, map r | r in runs :: EMPTY);
  }

  lemma {:induction false} FirstClash(h: Hashing, writes: seq<Write>) returns (i: nat)
    requires !ClashFree(h, NO_ROWS, writes)
    ensures i < |writes| && ClashFree(h, NO_ROWS, writes[..i])
    ensures Clash(h, ApplyAll(h, NO_ROWS, writes[..i]), writes[i].run, writes[i].m)
  {
    hide ApplyAll, Clash;
    var n := |writes| - 1;
    assert forall j :: 0 <= j <= n ==> writes[..n][..j] == writes[..j];
    if ClashFree(h, NO_ROWS, writes[..n]) {
      i := n;
    } else {
      i := FirstClash(h, writes[..n]);
    }
  }

  /** Removing an object keeps every relation, and the object's vertex as a placeholder. */
  lemma RemovalKeepsRelations(h: Hashing, t: Tables, run: RunId, id: string, g: Graph)
    requires WellFormed(h, t) && HoldsGraph(h, t, run, g) && !Clash(h, t, run, RemoveObject(id))
    ensures
      var t' := Apply(h, t, Write(run, RemoveObject(id)));
      && t'.relations == t.relations && t'.vertices.Keys == t.vertices.Keys
      && HoldsGraph(h, t', run, Graph(Drop(g.objects, id), g.relations, g.patches))
  {
    hide WellFormed, HoldsGraph;
    RemoveObjectRefines(h, t, run, id, g);
  }

  // ------------------------------------------------------------------
  // What the plain maps hold, without folding: the last write wins

  predicate TouchesObject(m: Mutation, id: string) {
    (m.PutObject? && m.o.id == id) || (m.RemoveObject? && m.id == id) || m.ClearVertices?
  }

  predicate TouchesRelation(m: Mutation, id: string) {
    (m.PutRelation? && m.r.id == id) || (m.RemoveRelation? && m.id == id) || m.ClearRelations? || m.ClearVertices?
  }

  predicate TouchesPatch(m: Mutation, id: string) {
    (m.PutPatch? && m.p.id == id) || (m.RemovePatch? && m.id == id) || m.ClearPatches?
  }

  /** The run made this write, and no later write of the run touches what it put. */
  ghost predicate Survives(run: RunId, writes: seq<Write>, put: Mutation, touches: Mutation -> bool) {
    exists i :: 0 <= i < |writes| && writes[i] == Write(run, put)
      && forall j :: i < j < |writes| && writes[j].run == run ==> !touches(writes[j].m)
  }

  lemma SurvivesNext(run: RunId, writes: seq<Write>, put: Mutation, touches: Mutation -> bool)
    requires writes != []
    ensures
      var init, last := writes[..|writes| - 1], writes[|writes| - 1];
      Survives(run, writes, put, touches) <==>
        if last.run != run then Survives(run, init, put, touches)
        else last.m == put || (!touches(last.m) && Survives(run, init, put, touches))
  {
    var n := |writes| - 1;
    var init, last := writes[..n], writes[n];
    if Survives(run, writes, put, touches) {
      var i :| 0 <= i < |writes| && writes[i] == Write(run, put)
        && forall j :: i < j < |writes| && writes[j].run == run ==> !touches(writes[j].m);
      if i < n { assert init[i] == Write(run, put); }
    }
    if Survives(run, init, put, touches) && (last.run == run ==> !touches(last.m)) {
      var i :| 0 <= i < |init| && init[i] == Write(run, put)
        && forall j :: i < j < |init| && init[j].run == run ==> !touches(init[j].m);
      assert writes[i] == Write(run, put);
      assert forall j :: i < j < n ==> writes[j] == init[j];
    }
    if last == Write(run, put) { assert writes[n] == Write(run, put); }
  }

  /** An object is there exactly when the run put it and has since neither put its ID again, nor
      removed it, nor cleared its vertices. */
  lemma {:induction false} ObjectIsLastPut(run: RunId, writes: seq<Write>, o: Object)
    ensures
      var objects := Fold(EMPTY, run, writes).objects;
      o.id in objects && objects[o.id] == o <==> Survives(run, writes, PutObject(o), (m: Mutation) => TouchesObject(m, o.id))
    ensures forall id <- Fold(EMPTY, run, writes).objects :: Fold(EMPTY, run, writes).objects[id].id == id
  {
    hide Survives;
    if writes == [] {
      NothingSurvives(run, PutObject(o), (m: Mutation) => TouchesObject(m, o.id));
    } else {
      ObjectIsLastPut(run, writes[..|writes| - 1], o);
      SurvivesNext(run, writes, PutObject(o), (m: Mutation) => TouchesObject(m, o.id));
    }
  }

  /** A relation is there exactly when the run put it and has since neither put its ID again, nor
      removed it, nor cleared its relations or vertices; removing objects does not matter. */
  lemma {:induction false} RelationIsLastPut(run: RunId, writes: seq<Write>, r: Relation)
    ensures
      var relations := Fold(EMPTY, run, writes).relations;
      r.id in relations && relations[r.id] == r <==> Survives(run, writes, PutRelation(r), (m: Mutation) => TouchesRelation(m, r.id))
    ensures forall id <- Fold(EMPTY, run, writes).relations :: Fold(EMPTY, run, writes).relations[id].id == id
  {
    hide Survives;
    if writes == [] {
      NothingSurvives(run, PutRelation(r), (m: Mutation) => TouchesRelation(m, r.id));
    } else {
      RelationIsLastPut(run, writes[..|writes| - 1], r);
      SurvivesNext(run, writes, PutRelation(r), (m: Mutation) => TouchesRelation(m, r.id));
    }
  }

  /** A patch is there exactly when the run put it and has since neither put its ID again, nor
      removed it, nor cleared its patches. */
  lemma {:induction false} PatchIsLastPut(run: RunId, writes: seq<Write>, p: Patch)
    ensures
      var patches := Fold(EMPTY, run, writes).patches;
      p.id in patches && patches[p.id] == p <==> Survives(run, writes, PutPatch(p), (m: Mutation) => TouchesPatch(m, p.id))
    ensures forall id <- Fold(EMPTY, run, writes).patches :: Fold(EMPTY, run, writes).patches[id].id == id
  {
    hide Survives;
    if writes == [] {
      NothingSurvives(run, PutPatch(p), (m: Mutation) => TouchesPatch(m, p.id));
    } else {
      PatchIsLastPut(run, writes[..|writes| - 1], p);
      SurvivesNext(run, writes, PutPatch(p), (m: Mutation) => TouchesPatch(m, p.id));
    }
  }

  lemma NothingSurvives(run: RunId, put: Mutation, touches: Mutation -> bool)
    ensures !Survives(run, [], put, touches)
  {
  }
}
