/** The undirected breadth-first walk around one object. */
module Neighborhood {
  import opened Wrappers
  import opened Orders
  import opened EventLog
  import opened GraphTables
  import opened ProjectionReads

  // ------------------------------------------------------------------
  // Walks

  ghost predicate Joins(r: Relation, a: string, b: string) {
    (r.source == a && r.target == b) || (r.source == b && r.target == a)
  }

  ghost predicate Joined(relations: Relations, a: string, b: string) {
    exists id :: id in relations && Joins(relations[id], a, b)
  }

  /** Consecutive vertices are the two ends of some relation, in either direction. */
  ghost predicate IsWalk(relations: Relations, walk: seq<string>, start: string, end: string) {
    && walk != [] && walk[0] == start && walk[|walk| - 1] == end
    && forall i :: 0 <= i < |walk| - 1 ==> Joined(relations, walk[i], walk[i + 1])
  }

  /** Some walk of at most `distance` relations leads from `start` to `v`. */
  ghost predicate Within(relations: Relations, start: string, v: string, distance: int) {
    exists walk :: IsWalk(relations, walk, start, v) && |walk| - 1 <= distance
  }

  ghost predicate Connected(relations: Relations, start: string, v: string) {
    exists walk :: IsWalk(relations, walk, start, v)
  }

  /** What `neighborhood` promises: the start and the present objects within `depth`, in listing
      order, and the relations with an end within `depth - 1`. */
  ghost predicate IsNeighborhood(g: Graph, start: string, depth: int, objects: seq<Object>, relations: set<Relation>) {
    && (forall o :: o in objects <==>
          && o.id in g.objects && g.objects[o.id] == o && start in g.objects
          && (o.id == start || Within(g.relations, start, o.id, depth)))
    && InListingOrder(objects)
    && (forall r :: r in relations <==>
          && r.id in g.relations && g.relations[r.id] == r && start in g.objects
          && (Within(g.relations, start, r.source, depth - 1) || Within(g.relations, start, r.target, depth - 1)))
  }

  /** No walk is shorter than the empty one. */
  lemma NothingCloser(relations: Relations, start: string, v: string, distance: int)
    ensures distance < 0 ==> !Within(relations, start, v, distance)
    ensures distance == 0 ==> (Within(relations, start, v, distance) <==> v == start)
  {
    if v == start { assert IsWalk(relations, [start], start, v); }
  }

  /** A depth of zero or less returns the start alone. */
  lemma ShallowWalkIsStart(g: Graph, start: string, depth: int, objects: seq<Object>, relations: set<Relation>)
    requires IsNeighborhood(g, start, depth, objects, relations) && depth <= 0 && start in g.objects
    requires forall id <- g.objects :: g.objects[id].id == id
    ensures objects == [g.objects[start]] && relations == {}
  {
    hide Within;
    forall v ensures (v == start || Within(g.relations, start, v, depth)) <==> v == start {
      NothingCloser(g.relations, start, v, depth);
    }
    forall r ensures r !in relations {
      NothingCloser(g.relations, start, r.source, depth - 1);
      NothingCloser(g.relations, start, r.target, depth - 1);
    }
    assert g.objects[start] in objects;
    assert forall i :: 0 <= i < |objects| ==> objects[i] in objects && objects[i].id == start;
    if |objects| > 1 {
      OrderedDiffer(objects, 0, 1);
      assert false;
    }
  }

  lemma OrderedDiffer(objects: seq<Object>, i: nat, j: nat)
    requires InListingOrder(objects) && i < j < |objects|
    ensures objects[i].id != objects[j].id
  {
  }

  /** A depth of one returns the start, the present objects related to it, and exactly its relations. */
  lemma OneLevelIsIncident(g: Graph, start: string, objects: seq<Object>, relations: set<Relation>)
    requires IsNeighborhood(g, start, 1, objects, relations) && start in g.objects
    ensures forall o :: o in objects <==>
      o.id in g.objects && g.objects[o.id] == o && (o.id == start || Joined(g.relations, start, o.id))
    ensures forall r :: r in relations <==>
      r.id in g.relations && g.relations[r.id] == r && (r.source == start || r.target == start)
  {
    hide Within, Joined;
    forall v ensures (v == start || Within(g.relations, start, v, 1)) <==> v == start || Joined(g.relations, start, v) {
      OneStep(g.relations, start, v);
    }
    forall v ensures Within(g.relations, start, v, 0) <==> v == start {
      NothingCloser(g.relations, start, v, 0);
    }
  }

  lemma OneStep(relations: Relations, start: string, v: string)
    ensures v == start || Joined(relations, start, v) ==> Within(relations, start, v, 1)
    ensures Within(relations, start, v, 1) ==> v == start || Joined(relations, start, v)
  {
    hide Joined;
    if v == start { assert IsWalk(relations, [start], start, v); }
    if Joined(relations, start, v) { assert IsWalk(relations, [start, v], start, v); }
    if Within(relations, start, v, 1) {
      var walk :| IsWalk(relations, walk, start, v) && |walk| - 1 <= 1;
    }
  }

  // ------------------------------------------------------------------
  // Balls: the same, level by level

  predicate Touches(r: Relation, vertices: set<string>) { r.source in vertices || r.target in vertices }

  function Touching(vertices: set<string>): Relation -> bool { (r: Relation) => Touches(r, vertices) }

  /** Both ends of every relation with an end in the set. */
  function Ends(relations: Relations, vertices: set<string>): set<string> {
    (set id | id in relations && Touches(relations[id], vertices) :: relations[id].source)
    + (set id | id in relations && Touches(relations[id], vertices) :: relations[id].target)
  }

  function Ball(relations: Relations, start: string, radius: nat): set<string> {
    if radius == 0 then {start} else Ball(relations, start, radius - 1) + Ends(relations, Ball(relations, start, radius - 1))
  }

  lemma EndsJoined(relations: Relations, vertices: set<string>, v: string)
    ensures v in Ends(relations, vertices) ==> v in vertices || exists u <- vertices :: Joined(relations, u, v)
    ensures (exists u <- vertices :: Joined(relations, u, v)) ==> v in Ends(relations, vertices)
  {
    if v in Ends(relations, vertices) && v !in vertices {
      var id :| id in relations && Touches(relations[id], vertices) && (relations[id].source == v || relations[id].target == v);
      var u := if relations[id].source == v then relations[id].target else relations[id].source;
      assert u in vertices && Joins(relations[id], u, v);
      assert Joined(relations, u, v);
    }
    if exists u <- vertices :: Joined(relations, u, v) {
      var u :| u in vertices && Joined(relations, u, v);
      var id :| id in relations && Joins(relations[id], u, v);
      assert Touches(relations[id], vertices);
    }
  }

  lemma {:induction false} BallIsWithin(relations: Relations, start: string, v: string, radius: nat)
    ensures v in Ball(relations, start, radius) <==> Within(relations, start, v, radius)
  {
    if v in Ball(relations, start, radius) {
      BallReached(relations, start, v, radius);
    }
    if Within(relations, start, v, radius) {
      var walk :| IsWalk(relations, walk, start, v) && |walk| - 1 <= radius;
      WalkStays(relations, walk, start, v, radius);
    }
  }

  lemma {:induction false} BallReached(relations: Relations, start: string, v: string, radius: nat)
    requires v in Ball(relations, start, radius)
    ensures Within(relations, start, v, radius)
    decreases radius
  {
    hide Ends, Joined;
    if v == start {
      assert IsWalk(relations, [start], start, v);
    } else if v in Ball(relations, start, radius - 1) {
      BallReached(relations, start, v, radius - 1);
    } else {
      EndsJoined(relations, Ball(relations, start, radius - 1), v);
      var u :| u in Ball(relations, start, radius - 1) && Joined(relations, u, v);
      BallReached(relations, start, u, radius - 1);
      var walk :| IsWalk(relations, walk, start, u) && |walk| - 1 <= radius - 1;
      assert IsWalk(relations, walk + [v], start, v);
    }
  }

  lemma {:induction false} WalkStays(relations: Relations, walk: seq<string>, start: string, v: string, radius: nat)
    requires IsWalk(relations, walk, start, v) && |walk| - 1 <= radius
    ensures v in Ball(relations, start, radius)
    decreases |walk|
  {
    hide Ends, Joined;
    var n := |walk| - 1;
    if n == 0 {
      BallGrows(relations, start, 0, radius);
    } else {
      assert IsWalk(relations, walk[..n], start, walk[n - 1]);
      WalkStays(relations, walk[..n], start, walk[n - 1], radius - 1);
      assert Joined(relations, walk[n - 1], walk[n]);
      EndsJoined(relations, Ball(relations, start, radius - 1), v);
    }
  }

  lemma {:induction false} BallGrows(relations: Relations, start: string, radius: nat, larger: nat)
    requires radius <= larger
    ensures Ball(relations, start, radius) <= Ball(relations, start, larger)
  {
    hide Ends;
    if radius < larger { BallGrows(relations, start, radius, larger - 1); }
  }

  /** Once a level adds nothing, no later level does. */
  lemma {:induction false} BallStable(relations: Relations, start: string, radius: nat, larger: nat)
    requires radius <= larger && Ball(relations, start, radius + 1) == Ball(relations, start, radius)
    ensures Ball(relations, start, larger) == Ball(relations, start, radius)
  {
    hide Ends;
    if radius < larger { BallStable(relations, start, radius, larger - 1); }
  }

  // ------------------------------------------------------------------
  // The walk

  /** The vertices first seen at a level. */
  function Sphere(relations: Relations, start: string, radius: nat): set<string> {
    if radius == 0 then {start} else Ball(relations, start, radius) - Ball(relations, start, radius - 1)
  }

  /** The relations met in the first levels. */
  function Met(relations: Relations, start: string, levels: nat): set<string> {
    if levels == 0 then {} else set id | id in relations && Touches(relations[id], Ball(relations, start, levels - 1))
  }

  lemma TouchesUnion(r: Relation, a: set<string>, b: set<string>)
    ensures Touches(r, a + b) <==> Touches(r, a) || Touches(r, b)
  {
  }

  /** Only the newest level has to be expanded. */
  lemma LevelStep(relations: Relations, start: string, radius: nat)
    ensures Ball(relations, start, radius + 1) == Ball(relations, start, radius) + Ends(relations, Sphere(relations, start, radius))
    ensures forall id :: id in Met(relations, start, radius + 1) <==>
      id in Met(relations, start, radius) || (id in relations && Touches(relations[id], Sphere(relations, start, radius)))
  {
    var ball := Ball(relations, start, radius);
    var sphere := Sphere(relations, start, radius);
    if radius > 0 {
      var inner := Ball(relations, start, radius - 1);
      assert ball == inner + sphere;
      forall id | id in relations
        ensures Touches(relations[id], ball) <==> Touches(relations[id], inner) || Touches(relations[id], sphere)
      {
        TouchesUnion(relations[id], inner, sphere);
      }
      EndsUnion(relations, inner, sphere, ball);
      assert Ends(relations, inner) <= ball;
    }
  }

  lemma EndsUnion(relations: Relations, a: set<string>, b: set<string>, union: set<string>)
    requires forall id | id in relations :: Touches(relations[id], union) <==> Touches(relations[id], a) || Touches(relations[id], b)
    ensures Ends(relations, union) == Ends(relations, a) + Ends(relations, b)
  {
    hide Touches;
  }

  function InObjectIds(ids: set<string>): Object -> bool { (o: Object) => o.id in ids }
  function InRelationIds(ids: set<string>): Relation -> bool { (r: Relation) => r.id in ids }

  /** What `get_object` answers; `None` when the row found is somebody else's. */
  function GetObject(h: Hashing, vertices: map<string, VertexRow>, run: RunId, id: string): Option<Option<Object>> {
    var k := VertexKey(h, run, id);
    if k !in vertices || vertices[k].body.None? then Some(None)
    else if Identifies(vertices[k], run, id) then Some(Some(ObjectOf(vertices[k])))
    else None
  }

  /** `get_object` reads the object map, unless it raises over a key clash. */
  lemma GetsObject(h: Hashing, vertices: map<string, VertexRow>, run: RunId, objects: Objects, id: string)
    requires HoldsObjects(h, vertices, run, objects)
    ensures
      match GetObject(h, vertices, run, id)
      case None => VertexClash(h, vertices, run, id)
      case Some(None) => id !in objects
      case Some(Some(o)) => id in objects && objects[id] == o
  {
    hide VertexKey;
    assert id in objects <==> VertexPresent(h, vertices, run, id);
  }

  /** One level: everything touching the frontier is met, its other ends form the next frontier. */
  method Expand(h: Hashing, rows: map<string, RelationRow>, run: RunId, frontier: set<string>, seen: set<string>, met: set<string>,
      ghost relations: Relations)
    returns (next: set<string>, met': set<string>)
    requires HoldsRelations(h, rows, run, relations)
    ensures next == Ends(relations, frontier) - seen
    ensures met' == met + (set id | id in relations && Touches(relations[id], frontier))
  {
    hide HoldsRelations, SelectRelations;
    var found := SelectRelations(h, rows, run, Touching(frontier));
    RelationIds(h, rows, run, relations);
    next, met' := {}, met;
    for i := 0 to |found|
      invariant forall v :: v in next <==> v !in seen && exists j :: 0 <= j < i && (found[j].source == v || found[j].target == v)
      invariant forall id :: id in met' <==> id in met || exists j :: 0 <= j < i && found[j].id == id
    {
      var r := found[i];
      met' := met' + {r.id};
      if r.source !in seen { next := next + {r.source}; }
      if r.target !in seen { next := next + {r.target}; }
    }
    forall r ensures r in found <==> r.id in relations && relations[r.id] == r && Touches(r, frontier) {
      RelationsSelected(h, rows, run, relations, Touching(frontier), r);
    }
    forall id ensures id in met' <==> id in met || (id in relations && Touches(relations[id], frontier)) {
      if id in relations && Touches(relations[id], frontier) { assert relations[id] in found; }
    }
    forall v ensures v in next <==> v in Ends(relations, frontier) && v !in seen {
      if v in Ends(relations, frontier) {
        var id :| id in relations && Touches(relations[id], frontier) && (relations[id].source == v || relations[id].target == v);
        assert relations[id] in found;
      }
    }
  }

  lemma BallAnswers(h: Hashing, t: Tables, run: RunId, g: Graph, start: string, depth: int, levels: nat)
    requires VerticesFormed(h, t.vertices) && HoldsGraph(h, t, run, g) && start in g.objects
    requires levels == if depth < 0 then 0 else depth
    ensures IsNeighborhood(g, start, depth,
      SelectObjects(h, t.vertices, run, InObjectIds(Ball(g.relations, start, levels))),
      set r | r in SelectRelations(h, t.relations, run, InRelationIds(Met(g.relations, start, levels))))
  {
    hide VerticesFormed, HoldsObjects, HoldsRelations, HoldsPatches, SelectObjects, SelectRelations, Within, Ball, InListingOrder;
    var ball, met := Ball(g.relations, start, levels), Met(g.relations, start, levels);
    StartIsWithin(g.relations, start, levels);
    forall o
      ensures o in SelectObjects(h, t.vertices, run, InObjectIds(ball)) <==>
        o.id in g.objects && g.objects[o.id] == o && (o.id == start || Within(g.relations, start, o.id, depth))
    {
      ObjectsSelected(h, t.vertices, run, g.objects, InObjectIds(ball), o);
      BallIsWithin(g.relations, start, o.id, levels);
      NothingCloser(g.relations, start, o.id, depth);
      NothingCloser(g.relations, start, o.id, 0);
    }
    ObjectsInOrder(h, t.vertices, run, g.objects, InObjectIds(ball));
    forall r
      ensures r in SelectRelations(h, t.relations, run, InRelationIds(met)) <==>
        && r.id in g.relations && g.relations[r.id] == r
        && (Within(g.relations, start, r.source, depth - 1) || Within(g.relations, start, r.target, depth - 1))
    {
      RelationsSelected(h, t.relations, run, g.relations, InRelationIds(met), r);
      if levels == 0 {
        NothingCloser(g.relations, start, r.source, depth - 1);
        NothingCloser(g.relations, start, r.target, depth - 1);
      } else {
        BallIsWithin(g.relations, start, r.source, depth - 1);
        BallIsWithin(g.relations, start, r.target, depth - 1);
      }
    }
  }

  lemma StartIsWithin(relations: Relations, start: string, radius: nat)
    ensures Within(relations, start, start, radius)
  {
    assert IsWalk(relations, [start], start, start);
  }

  /** `neighborhood`: exactly the present objects within `depth` of a present start, found through
      present objects and placeholders alike, and the relations with an end within `depth - 1`;
      nothing around an absent start. */
  method Walk(h: Hashing, t: Tables, run: RunId, start: string, depth: int, ghost g: Graph)
    returns (raised: bool, objects: seq<Object>, relations: set<Relation>)
    requires VerticesFormed(h, t.vertices) && HoldsGraph(h, t, run, g)
    ensures raised <==> GetObject(h, t.vertices, run, start).None?
    ensures raised ==> VertexClash(h, t.vertices, run, start)
    ensures !raised ==> IsNeighborhood(g, start, depth, objects, relations)
  {
    hide VerticesFormed, HoldsObjects, HoldsRelations, HoldsPatches, SelectObjects, SelectRelations, Within, Ball, Sphere, Met, Ends, Ranked;
    GetsObject(h, t.vertices, run, g.objects, start);
    var centre := GetObject(h, t.vertices, run, start);
    if centre.None? { return true, [], {}; }
    if centre.value.None? { return false, [], {}; }
    var levels := if depth < 0 then 0 else depth;
    var seen, frontier, met := {start}, {start}, {};
    BallStarts(g.relations, start);
    var i := 0;
    while i < levels
      invariant i <= levels
      invariant seen == Ball(g.relations, start, i) && frontier == Sphere(g.relations, start, i) && met == Met(g.relations, start, i)
    {
      if frontier == {} {
        NoFurther(g.relations, start, i, levels);
        break;
      }
      LevelStep(g.relations, start, i);
      SphereStep(g.relations, start, i);
      var next, met' := Expand(h, t.relations, run, frontier, seen, met, g.relations);
      seen, frontier, met := seen + next, next, met';
      i := i + 1;
    }
    assert seen == Ball(g.relations, start, levels) && met == Met(g.relations, start, levels);
    BallAnswers(h, t, run, g, start, depth, levels);
    objects := SelectObjects(h, t.vertices, run, InObjectIds(seen));
    relations := set r | r in SelectRelations(h, t.relations, run, InRelationIds(met));
    raised := false;
  }

  lemma BallStarts(relations: Relations, start: string)
    ensures Ball(relations, start, 0) == {start} && Sphere(relations, start, 0) == {start} && Met(relations, start, 0) == {}
  {
  }

  lemma SphereStep(relations: Relations, start: string, radius: nat)
    ensures Sphere(relations, start, radius + 1) == Ends(relations, Sphere(relations, start, radius)) - Ball(relations, start, radius)
  {
    hide Ends;
    LevelStep(relations, start, radius);
  }

  /** An empty frontier ends the walk early with the answer of every further level. */
  lemma NoFurther(relations: Relations, start: string, radius: nat, levels: nat)
    requires radius <= levels && Sphere(relations, start, radius) == {}
    ensures Ball(relations, start, levels) == Ball(relations, start, radius)
    ensures Met(relations, start, levels) == Met(relations, start, radius)
  {
    hide Ends;
    if radius > 0 {
      BallGrows(relations, start, radius - 1, radius);
      forall v <- Ball(relations, start, radius) ensures v in Ball(relations, start, radius - 1) {
        assert v !in Sphere(relations, start, radius);
      }
      BallStable(relations, start, radius - 1, levels);
      BallStable(relations, start, radius - 1, levels - 1);
    }
  }

  // ------------------------------------------------------------------
  // Large depths

  lemma SmallerSubset(a: set<string>, b: set<string>)
    requires a <= b
    ensures |a| <= |b|
    ensures a == b || |a| < |b|
    ensures |a| == |b| ==> a == b
  {
    if a != b {
      var x :| x in b && x !in a;
      assert |b - {x}| == |b| - 1;
      SmallerSubset(a, b - {x});
    }
  }

  ghost predicate Covers(vertices: set<string>, relations: Relations) {
    forall id <- relations :: relations[id].source in vertices && relations[id].target in vertices
  }

  /** A ball holds more vertices than its radius, until it has stopped growing. */
  lemma {:induction false} BallFills(relations: Relations, start: string, vertices: set<string>, radius: nat)
    requires start in vertices && Covers(vertices, relations)
    ensures Ball(relations, start, radius) <= vertices
    ensures |Ball(relations, start, radius)| > radius || Ball(relations, start, radius + 1) == Ball(relations, start, radius)
  {
    hide Ends, Covers;
    if radius > 0 {
      BallFills(relations, start, vertices, radius - 1);
      EndsCovered(relations, vertices, Ball(relations, start, radius - 1));
      BallGrowsBy(relations, start, radius);
    }
  }

  /** A level that still adds a vertex makes the ball larger; otherwise nothing more is added. */
  lemma BallGrowsBy(relations: Relations, start: string, radius: nat)
    requires radius > 0
    ensures |Ball(relations, start, radius)| > |Ball(relations, start, radius - 1)|
      || Ball(relations, start, radius + 1) == Ball(relations, start, radius) == Ball(relations, start, radius - 1)
  {
    hide Ends;
    BallGrows(relations, start, radius - 1, radius);
    SmallerSubset(Ball(relations, start, radius - 1), Ball(relations, start, radius));
  }

  lemma EndsCovered(relations: Relations, vertices: set<string>, some: set<string>)
    requires Covers(vertices, relations)
    ensures Ends(relations, some) <= vertices
  {
  }

  lemma {:induction false} BallComplete(relations: Relations, start: string, vertices: set<string>, v: string, radius: nat)
    requires start in vertices && Covers(vertices, relations) && |vertices| <= radius + 1
    ensures v in Ball(relations, start, radius) <==> Connected(relations, start, v)
  {
    hide Ball, Covers, IsWalk;
    if v in Ball(relations, start, radius) {
      BallReached(relations, start, v, radius);
    }
    if Connected(relations, start, v) {
      var walk :| IsWalk(relations, walk, start, v);
      var longer := if |walk| < radius then radius else |walk|;
      WalkStays(relations, walk, start, v, longer);
      BallFills(relations, start, vertices, radius);
      BallFills(relations, start, vertices, radius + 1);
      BallGrows(relations, start, radius, radius + 1);
      SmallerSubset(Ball(relations, start, radius), vertices);
      SmallerSubset(Ball(relations, start, radius), Ball(relations, start, radius + 1));
      SmallerSubset(Ball(relations, start, radius + 1), vertices);
      BallStable(relations, start, radius, longer);
    }
  }

  function StoredIds(vertices: map<string, VertexRow>, run: RunId): set<string> {
    set k | k in vertices && vertices[k].run == run :: vertices[k].objectId
  }

  lemma StoredIdsCover(h: Hashing, t: Tables, run: RunId, g: Graph)
    requires WellFormed(h, t) && HoldsGraph(h, t, run, g)
    ensures Covers(StoredIds(t.vertices, run), g.relations)
    ensures forall id <- g.objects :: id in StoredIds(t.vertices, run)
  {
    hide VertexKey, RelationKey, VerticesFormed, EdgesFormed, PatchesFormed;
    forall id <- g.relations
      ensures g.relations[id].source in StoredIds(t.vertices, run) && g.relations[id].target in StoredIds(t.vertices, run)
    {
      assert EdgePresent(h, t.relations, run, id);
      var row := t.relations[RelationKey(h, run, id)];
      assert t.vertices[row.inKey].run == run && t.vertices[row.outKey].run == run;
    }
    forall id <- g.objects ensures id in StoredIds(t.vertices, run) {
      assert VertexPresent(h, t.vertices, run, id);
    }
  }

  /** A depth of at least the number of stored vertices returns the whole component of the start:
      every present object and every relation some walk reaches. */
  lemma DeepWalkIsComponent(h: Hashing, t: Tables, run: RunId, g: Graph, start: string, depth: int,
      objects: seq<Object>, relations: set<Relation>)
    requires WellFormed(h, t) && HoldsGraph(h, t, run, g) && start in g.objects
    requires |StoredIds(t.vertices, run)| <= depth
    requires IsNeighborhood(g, start, depth, objects, relations)
    ensures forall o :: o in objects <==> o.id in g.objects && g.objects[o.id] == o && Connected(g.relations, start, o.id)
    ensures forall r :: r in relations <==> r.id in g.relations && g.relations[r.id] == r && Connected(g.relations, start, r.source)
    ensures forall r :: r in relations <==> r.id in g.relations && g.relations[r.id] == r && Connected(g.relations, start, r.target)
  {
    hide WellFormed, HoldsGraph, Connected, Within, InListingOrder, StoredIds, Ball, Covers;
    StoredIdsCover(h, t, run, g);
    var vertices := StoredIds(t.vertices, run);
    SmallerSubset({start}, vertices);
    StartIsWithin(g.relations, start, depth);
    forall v ensures Within(g.relations, start, v, depth) <==> Connected(g.relations, start, v) {
      BallIsWithin(g.relations, start, v, depth);
      BallComplete(g.relations, start, vertices, v, depth);
    }
    forall v ensures Within(g.relations, start, v, depth - 1) <==> Connected(g.relations, start, v) {
      BallIsWithin(g.relations, start, v, depth - 1);
      BallComplete(g.relations, start, vertices, v, depth - 1);
    }
    forall id | id in g.relations
      ensures Connected(g.relations, start, g.relations[id].source) <==> Connected(g.relations, start, g.relations[id].target)
    {
      BothEndsConnected(g.relations, start, id);
    }
  }

  lemma ConnectedOnwards(relations: Relations, start: string, u: string, v: string)
    requires Connected(relations, start, u) && Joined(relations, u, v)
    ensures Connected(relations, start, v)
  {
    hide Joined;
    var walk :| IsWalk(relations, walk, start, u);
    assert IsWalk(relations, walk + [v], start, v);
  }

  lemma BothEndsConnected(relations: Relations, start: string, id: string)
    requires id in relations
    ensures Connected(relations, start, relations[id].source) <==> Connected(relations, start, relations[id].target)
  {
    hide Connected;
    var r := relations[id];
    assert Joins(r, r.source, r.target) && Joins(r, r.target, r.source);
    assert Joined(relations, r.source, r.target) && Joined(relations, r.target, r.source);
    if Connected(relations, start, r.source) { ConnectedOnwards(relations, start, r.source, r.target); }
    if Connected(relations, start, r.target) { ConnectedOnwards(relations, start, r.target, r.source); }
  }

  /** A larger depth never loses an object or a relation. */
  lemma DeeperWalkContains(g: Graph, start: string, depth: int, deeper: int,
      objects: seq<Object>, relations: set<Relation>, objects': seq<Object>, relations': set<Relation>)
    requires depth <= deeper
    requires IsNeighborhood(g, start, depth, objects, relations) && IsNeighborhood(g, start, deeper, objects', relations')
    ensures (forall o <- objects :: o in objects') && relations <= relations'
  {
    hide InListingOrder, IsWalk;
    forall v | Within(g.relations, start, v, depth) ensures Within(g.relations, start, v, deeper) {}
    var near, far := depth - 1, deeper - 1;
    forall v | Within(g.relations, start, v, near) ensures Within(g.relations, start, v, far) {}
  }
}
