/** The projection's tables: vertices (objects and placeholders), relation edges and patches of
    all runs, each row under an opaque key. */
module GraphTables {
  import opened Wrappers
  import opened EventLog
  import opened ObjectOrder
  import Keys

  // ------------------------------------------------------------------
  // Rows

  datatype Object = Object(id: string, kind: string, data: string, version: int, provenance: string)

  datatype Relation = Relation(id: string, source: string, target: string, kind: string, data: string, provenance: string)

  datatype Patch = Patch(id: string, body: string)

  datatype ObjectBody = ObjectBody(kind: string, data: string, version: int, provenance: string)

  /** A placeholder has no body. */
  datatype VertexRow = VertexRow(run: RunId, objectId: string, objectSeq: nat, body: Option<ObjectBody>)

  /** `inKey` and `outKey` are the records the edge joins. */
  datatype RelationRow = RelationRow(run: RunId, inKey: string, outKey: string, relation: Relation)

  datatype PatchRow = PatchRow(run: RunId, patch: Patch)

  datatype Tables = Tables(
    vertices: map<string, VertexRow>,
    relations: map<string, RelationRow>,
    patches: map<string, PatchRow>)

  function VertexParts(run: RunId, id: string): seq<string> { ["ag_vertex", run.scope, run.name, id] }
  function RelationParts(run: RunId, id: string): seq<string> { ["ag_relation", run.scope, run.name, id] }
  function PatchParts(run: RunId, id: string): seq<string> { ["ag_patch", run.scope, run.name, id] }

  function VertexKey(h: Hashing, run: RunId, id: string): string { h.key(VertexParts(run, id)) }
  function RelationKey(h: Hashing, run: RunId, id: string): string { h.key(RelationParts(run, id)) }
  function PatchKey(h: Hashing, run: RunId, id: string): string { h.key(PatchParts(run, id)) }

  function ObjectOf(row: VertexRow): Object
    requires row.body.Some?
  {
    var b := row.body.value;
    Object(row.objectId, b.kind, b.data, b.version, b.provenance)
  }

  function ObjectRow(run: RunId, o: Object): VertexRow {
    VertexRow(run, o.id, ObjectSeq(o.id), Some(ObjectBody(o.kind, o.data, o.version, o.provenance)))
  }

  function Placeholder(run: RunId, id: string): VertexRow { VertexRow(run, id, ObjectSeq(id), None) }

  // ------------------------------------------------------------------
  // Mutations

  datatype Mutation =
    | PutObject(o: Object)
    | RemoveObject(id: string)
    | PutRelation(r: Relation)
    | RemoveRelation(id: string)
    | PutPatch(p: Patch)
    | RemovePatch(id: string)
    | ClearRelations
    | ClearPatches
    | ClearVertices

  /** The vertex under the key belongs to the given object of the given run. */
  predicate Identifies(row: VertexRow, run: RunId, id: string) { row.run == run && row.objectId == id }

  /** `_ensure_placeholder_in_transaction`; `None` when the row found is somebody else's. */
  function EnsureVertex(h: Hashing, vertices: map<string, VertexRow>, run: RunId, id: string): Option<map<string, VertexRow>> {
    var k := VertexKey(h, run, id);
    if k !in vertices then Some(vertices[k := Placeholder(run, id)])
    else if Identifies(vertices[k], run, id) then Some(vertices)
    else None
  }

  function Drop<K, V>(m: map<K, V>, k: K): map<K, V> { map j | j in m && j != k :: m[j] }

  /** Deleting vertices takes the edges that join them along. */
  function DeleteVertices(t: Tables, run: RunId): Tables {
    Tables(
      map k | k in t.vertices && t.vertices[k].run != run :: t.vertices[k],
      map k | k in t.relations
            && !(t.relations[k].inKey in t.vertices && t.vertices[t.relations[k].inKey].run == run)
            && !(t.relations[k].outKey in t.vertices && t.vertices[t.relations[k].outKey].run == run)
          :: t.relations[k],
      t.patches)
  }

  /** One mutation of one run's projection; `None` when it raises and changes nothing. */
  function Mutate(h: Hashing, t: Tables, run: RunId, m: Mutation): Option<Tables> {
    match m
    case PutObject(o) => Some(t.(vertices := t.vertices[VertexKey(h, run, o.id) := ObjectRow(run, o)]))
    case RemoveObject(id) =>
      var k := VertexKey(h, run, id);
      if k !in t.vertices then Some(t)
      else if Identifies(t.vertices[k], run, id) then Some(t.(vertices := t.vertices[k := Placeholder(run, id)]))
      else None
    case PutRelation(r) =>
      var withSource :- EnsureVertex(h, t.vertices, run, r.source);
      var withBoth :- EnsureVertex(h, withSource, run, r.target);
      Some(Tables(
        withBoth,
        t.relations[RelationKey(h, run, r.id) := RelationRow(run, VertexKey(h, run, r.source), VertexKey(h, run, r.target), r)],
        t.patches))
    case RemoveRelation(id) => Some(t.(relations := Drop(t.relations, RelationKey(h, run, id))))
    case PutPatch(p) => Some(t.(patches := t.patches[PatchKey(h, run, p.id) := PatchRow(run, p)]))
    case RemovePatch(id) => Some(t.(patches := Drop(t.patches, PatchKey(h, run, id))))
    case ClearRelations => Some(t.(relations := map k | k in t.relations && t.relations[k].run != run :: t.relations[k]))
    case ClearPatches => Some(t.(patches := map k | k in t.patches && t.patches[k].run != run :: t.patches[k]))
    case ClearVertices => Some(DeleteVertices(t, run))
  }

  // ------------------------------------------------------------------
  // The reference: plain maps of objects, relations and patches

  datatype Graph = Graph(objects: map<string, Object>, relations: map<string, Relation>, patches: map<string, Patch>)

  const EMPTY := Graph(map[], map[], map[])

  function Reference(g: Graph, m: Mutation): Graph {
    match m
    case PutObject(o) => g.(objects := g.objects[o.id := o])
    case RemoveObject(id) => g.(objects := Drop(g.objects, id))
    case PutRelation(r) => g.(relations := g.relations[r.id := r])
    case RemoveRelation(id) => g.(relations := Drop(g.relations, id))
    case PutPatch(p) => g.(patches := g.patches[p.id := p])
    case RemovePatch(id) => g.(patches := Drop(g.patches, id))
    case ClearRelations => g.(relations := map[])
    case ClearPatches => g.(patches := map[])
    case ClearVertices => g.(objects := map[], relations := map[])
  }

  // ------------------------------------------------------------------
  // Well-formed tables and the graph they hold

  ghost predicate EndpointStored(h: Hashing, vertices: map<string, VertexRow>, run: RunId, key: string, id: string) {
    key == VertexKey(h, run, id) && key in vertices && Identifies(vertices[key], run, id)
  }

  ghost predicate VerticesFormed(h: Hashing, vertices: map<string, VertexRow>) {
    forall k :: k in vertices ==>
      k == VertexKey(h, vertices[k].run, vertices[k].objectId) && vertices[k].objectSeq == ObjectSeq(vertices[k].objectId)
  }

  ghost predicate EdgesFormed(h: Hashing, relations: map<string, RelationRow>) {
    forall k :: k in relations ==> k == RelationKey(h, relations[k].run, relations[k].relation.id)
  }

  /** Both endpoints of every relation are stored as vertices with the right logical IDs. */
  ghost predicate EdgesJoined(h: Hashing, vertices: map<string, VertexRow>, relations: map<string, RelationRow>) {
    forall k :: k in relations ==>
      && EndpointStored(h, vertices, relations[k].run, relations[k].inKey, relations[k].relation.source)
      && EndpointStored(h, vertices, relations[k].run, relations[k].outKey, relations[k].relation.target)
  }

  ghost predicate PatchesFormed(h: Hashing, patches: map<string, PatchRow>) {
    forall k :: k in patches ==> k == PatchKey(h, patches[k].run, patches[k].patch.id)
  }

  /** Every row's fields agree with its key and no relation dangles. */
  ghost predicate WellFormed(h: Hashing, t: Tables) {
    && VerticesFormed(h, t.vertices) && EdgesFormed(h, t.relations) && PatchesFormed(h, t.patches)
    && EdgesJoined(h, t.vertices, t.relations)
  }

  predicate VertexPresent(h: Hashing, vertices: map<string, VertexRow>, run: RunId, id: string) {
    var k := VertexKey(h, run, id);
    k in vertices && Identifies(vertices[k], run, id) && vertices[k].body.Some?
  }

  predicate EdgePresent(h: Hashing, relations: map<string, RelationRow>, run: RunId, id: string) {
    var k := RelationKey(h, run, id);
    k in relations && relations[k].run == run && relations[k].relation.id == id
  }

  predicate PatchPresent(h: Hashing, patches: map<string, PatchRow>, run: RunId, id: string) {
    var k := PatchKey(h, run, id);
    k in patches && patches[k].run == run && patches[k].patch.id == id
  }

  /** The objects one run's rows hold: what `get_object` answers. */
  ghost predicate HoldsObjects(h: Hashing, vertices: map<string, VertexRow>, run: RunId, objects: map<string, Object>) {
    forall id :: (id in objects <==> VertexPresent(h, vertices, run, id))
      && (id in objects ==> objects[id] == ObjectOf(vertices[VertexKey(h, run, id)]))
  }

  ghost predicate HoldsRelations(h: Hashing, rows: map<string, RelationRow>, run: RunId, relations: map<string, Relation>) {
    forall id :: (id in relations <==> EdgePresent(h, rows, run, id))
      && (id in relations ==> relations[id] == rows[RelationKey(h, run, id)].relation)
  }

  ghost predicate HoldsPatches(h: Hashing, rows: map<string, PatchRow>, run: RunId, patches: map<string, Patch>) {
    forall id :: (id in patches <==> PatchPresent(h, rows, run, id))
      && (id in patches ==> patches[id] == rows[PatchKey(h, run, id)].patch)
  }

  /** The graph one run's rows hold. */
  ghost predicate HoldsGraph(h: Hashing, t: Tables, run: RunId, g: Graph) {
    && HoldsObjects(h, t.vertices, run, g.objects)
    && HoldsRelations(h, t.relations, run, g.relations)
    && HoldsPatches(h, t.patches, run, g.patches)
  }

  // ------------------------------------------------------------------
  // Key clashes

  /** Two different part lists with one key. */
  ghost predicate KeyClash(h: Hashing, p: seq<string>, q: seq<string>) { p != q && h.key(p) == h.key(q) }

  ghost predicate VertexClash(h: Hashing, vertices: map<string, VertexRow>, run: RunId, id: string) {
    var k := VertexKey(h, run, id);
    k in vertices && !Identifies(vertices[k], run, id)
  }

  ghost predicate RelationClash(h: Hashing, relations: map<string, RelationRow>, run: RunId, id: string) {
    var k := RelationKey(h, run, id);
    k in relations && !(relations[k].run == run && relations[k].relation.id == id)
  }

  ghost predicate PatchClash(h: Hashing, patches: map<string, PatchRow>, run: RunId, id: string) {
    var k := PatchKey(h, run, id);
    k in patches && !(patches[k].run == run && patches[k].patch.id == id)
  }

  /** A key the mutation uses holds a row of another logical ID. */
  ghost predicate Clash(h: Hashing, t: Tables, run: RunId, m: Mutation) {
    match m
    case PutObject(o) => VertexClash(h, t.vertices, run, o.id)
    case RemoveObject(id) => VertexClash(h, t.vertices, run, id)
    case PutRelation(r) =>
      || RelationClash(h, t.relations, run, r.id) || VertexClash(h, t.vertices, run, r.source) || VertexClash(h, t.vertices, run, r.target)
      || KeyClash(h, VertexParts(run, r.source), VertexParts(run, r.target))
    case RemoveRelation(id) => RelationClash(h, t.relations, run, id)
    case PutPatch(p) => PatchClash(h, t.patches, run, p.id)
    case RemovePatch(id) => PatchClash(h, t.patches, run, id)
    case _ => false
  }

  lemma VertexClashKeys(h: Hashing, vertices: map<string, VertexRow>, run: RunId, id: string) returns (p: seq<string>, q: seq<string>)
    requires VerticesFormed(h, vertices) && VertexClash(h, vertices, run, id)
    ensures KeyClash(h, p, q)
  {
    hide ObjectSeq;
    var row := vertices[VertexKey(h, run, id)];
    p, q := VertexParts(run, id), VertexParts(row.run, row.objectId);
    assert p[1] == run.scope && p[2] == run.name && p[3] == id;
    assert q[1] == row.run.scope && q[2] == row.run.name && q[3] == row.objectId;
  }

  lemma RelationClashKeys(h: Hashing, rows: map<string, RelationRow>, run: RunId, id: string) returns (p: seq<string>, q: seq<string>)
    requires EdgesFormed(h, rows) && RelationClash(h, rows, run, id)
    ensures KeyClash(h, p, q)
  {
    var row := rows[RelationKey(h, run, id)];
    p, q := RelationParts(run, id), RelationParts(row.run, row.relation.id);
    assert p[1] == run.scope && p[2] == run.name && p[3] == id;
    assert q[1] == row.run.scope && q[2] == row.run.name && q[3] == row.relation.id;
  }

  lemma PatchClashKeys(h: Hashing, rows: map<string, PatchRow>, run: RunId, id: string) returns (p: seq<string>, q: seq<string>)
    requires PatchesFormed(h, rows) && PatchClash(h, rows, run, id)
    ensures KeyClash(h, p, q)
  {
    var row := rows[PatchKey(h, run, id)];
    p, q := PatchParts(run, id), PatchParts(row.run, row.patch.id);
    assert p[1] == run.scope && p[2] == run.name && p[3] == id;
    assert q[1] == row.run.scope && q[2] == row.run.name && q[3] == row.patch.id;
  }

  /** Such a clash exhibits two different part lists with one key. */
  lemma ClashExhibitsKeys(h: Hashing, t: Tables, run: RunId, m: Mutation) returns (p: seq<string>, q: seq<string>)
    requires WellFormed(h, t) && Clash(h, t, run, m)
    ensures KeyClash(h, p, q)
  {
    hide VertexClash, RelationClash, PatchClash, KeyClash, VerticesFormed, EdgesFormed, PatchesFormed, EdgesJoined;
    match m
    case PutObject(o) => p, q := VertexClashKeys(h, t.vertices, run, o.id);
    case RemoveObject(id) => p, q := VertexClashKeys(h, t.vertices, run, id);
    case PutRelation(r) =>
      if RelationClash(h, t.relations, run, r.id) {
        p, q := RelationClashKeys(h, t.relations, run, r.id);
      } else if VertexClash(h, t.vertices, run, r.source) {
        p, q := VertexClashKeys(h, t.vertices, run, r.source);
      } else if VertexClash(h, t.vertices, run, r.target) {
        p, q := VertexClashKeys(h, t.vertices, run, r.target);
      } else {
        p, q := VertexParts(run, r.source), VertexParts(run, r.target);
      }
    case RemoveRelation(id) => p, q := RelationClashKeys(h, t.relations, run, id);
    case PutPatch(_) => p, q := PatchClashKeys(h, t.patches, run, m.p.id);
    case RemovePatch(id) => p, q := PatchClashKeys(h, t.patches, run, id);
  }

  /** With the provider's own keys, such a clash is two different framings with one digest. */
  lemma KeyClashIsDigestCollision(h: Hashing, digest: seq<Keys.byte> -> string, p: seq<string>, q: seq<string>)
    requires forall parts :: Keys.Framable(parts) ==> Keys.Key(digest, parts) == Some(h.key(parts))
    requires Keys.Framable(p) && Keys.Framable(q) && KeyClash(h, p, q)
    ensures Keys.Frame(p) != Keys.Frame(q) && digest(Keys.Frame(p)) == digest(Keys.Frame(q))
  {
    Keys.KeysClashOnlyOnCollision(digest, p, q);
  }
}
