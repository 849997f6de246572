/** Reads of one run's projection: their order, and the queries run inside the database. */
module ProjectionReads {
  import opened Wrappers
  import opened Orders
  import opened EventLog
  import opened ObjectOrder
  import opened GraphTables

  type Objects = map<string, Object>
  type Relations = map<string, Relation>

  // ------------------------------------------------------------------
  // Ordered listings of keyed values

  function Mapped<V>(ids: seq<string>, values: map<string, V>): seq<V>
    requires forall id <- ids :: id in values
  {
    seq(|ids|, i requires 0 <= i < |ids| => assert ids[i] in ids; values[ids[i]])
  }

  function KeptIds<V>(values: map<string, V>, keep: V -> bool): set<string> { set id | id in values && keep(values[id]) }

  /** The kept values in increasing rank, ties by ID. */
  function Listing<V>(values: map<string, V>, rank: string -> int, keep: V -> bool): seq<V> {
    Mapped(SortedByRank(KeptIds(values, keep), rank), values)
  }

  lemma SameRankSameOrder(ids: set<string>, rank: string -> int, rank': string -> int)
    requires forall id <- ids :: rank(id) == rank'(id)
    ensures SortedByRank(ids, rank) == SortedByRank(ids, rank')
  {
    var s := SortedByRank(ids, rank);
    forall i, j | 0 <= i < j < |s| ensures Ranked(rank')(s[i], s[j]) && s[i] != s[j] {
      assert s[i] in ids && s[j] in ids;
      assert Ranked(rank)(s[i], s[j]);
    }
    RankedOrder(rank');
    AscendingUnique(s, SortedByRank(ids, rank'), Ranked(rank'));
  }

  lemma {:induction false} FilterOfMapped<V>(ids: seq<string>, values: map<string, V>, keepId: string -> bool, keep: V -> bool)
    requires forall id <- ids :: id in values && keepId(id) == keep(values[id])
    ensures forall id <- Filter(ids, keepId) :: id in values
    ensures Filter(Mapped(ids, values), keep) == Mapped(Filter(ids, keepId), values)
  {
    if ids != [] {
      FilterOfMapped(ids[1..], values, keepId, keep);
      assert Mapped(ids, values)[1..] == Mapped(ids[1..], values);
    }
  }

  /** Filtering inside the database gives the full listing, filtered, in its order. */
  lemma ListingIsFilter<V>(values: map<string, V>, rank: string -> int, every: V -> bool, keep: V -> bool)
    requires forall v :: every(v)
    ensures Listing(values, rank, keep) == Filter(Listing(values, rank, every), keep)
  {
    hide SortedByRank, Ranked, Sorted;
    var keepId: string -> bool := id => id in values && keep(values[id]);
    var all := KeptIds(values, every);
    var some := KeptIds(values, keep);
    assert some == set id | id in all && keepId(id);
    RankedOrder(rank);
    var ordered := SortedByRank(all, rank);
    FilterAscending(ordered, keepId, Ranked(rank));
    AscendingUnique(SortedByRank(some, rank), Filter(ordered, keepId), Ranked(rank));
    FilterOfMapped(ordered, values, keepId, keep);
  }

  lemma ListingLists<V>(values: map<string, V>, rank: string -> int, keep: V -> bool, v: V)
    ensures v in Listing(values, rank, keep) <==> exists id :: id in values && values[id] == v && keep(v)
  {
    var ordered := SortedByRank(KeptIds(values, keep), rank);
    if v in Listing(values, rank, keep) {
      var i :| 0 <= i < |ordered| && Listing(values, rank, keep)[i] == v;
      assert ordered[i] in ordered;
    }
    if exists id :: id in values && values[id] == v && keep(v) {
      var id :| id in values && values[id] == v && keep(v);
      assert id in KeptIds(values, keep) && id in ordered;
      var i :| 0 <= i < |ordered| && ordered[i] == id;
      assert Listing(values, rank, keep)[i] == v;
    }
  }

  // ------------------------------------------------------------------
  // Queries over rows

  function Counter(): string -> int { (id: string) => ObjectSeq(id) }
  function Unranked(): string -> int { (id: string) => 0 }

  function AnyObject(): Object -> bool { (o: Object) => true }
  function AnyRelation(): Relation -> bool { (r: Relation) => true }

  function AllObjects(objects: Objects): seq<Object> { Listing(objects, Counter(), AnyObject()) }
  function AllRelations(relations: Relations): seq<Relation> { Listing(relations, Unranked(), AnyRelation()) }

  function PresentIds(vertices: map<string, VertexRow>, run: RunId): set<string> {
    set k | k in vertices && vertices[k].run == run && vertices[k].body.Some? :: vertices[k].objectId
  }

  function StoredSeq(h: Hashing, vertices: map<string, VertexRow>, run: RunId): string -> int {
    (id: string) => if VertexKey(h, run, id) in vertices then vertices[VertexKey(h, run, id)].objectSeq else 0
  }

  /** `SELECT * FROM ag_vertex WHERE ... AND object_present = true AND keep
      ORDER BY object_seq ASC, object_id ASC`. */
  function SelectObjects(h: Hashing, vertices: map<string, VertexRow>, run: RunId, keep: Object -> bool): seq<Object> {
    var ids := set id | id in PresentIds(vertices, run) && VertexPresent(h, vertices, run, id)
                      && keep(ObjectOf(vertices[VertexKey(h, run, id)]));
    var ordered := SortedByRank(ids, StoredSeq(h, vertices, run));
    seq(|ordered|, i requires 0 <= i < |ordered| =>
      assert ordered[i] in ordered;
      ObjectOf(vertices[VertexKey(h, run, ordered[i])]))
  }

  function StoredEdgeIds(rows: map<string, RelationRow>, run: RunId): set<string> {
    set k | k in rows && rows[k].run == run :: rows[k].relation.id
  }

  /** `SELECT * FROM ag_relation WHERE ... AND keep ORDER BY relation_id ASC`. */
  function SelectRelations(h: Hashing, rows: map<string, RelationRow>, run: RunId, keep: Relation -> bool): seq<Relation> {
    var ids := set id | id in StoredEdgeIds(rows, run) && EdgePresent(h, rows, run, id)
                      && keep(rows[RelationKey(h, run, id)].relation);
    var ordered := SortedByRank(ids, Unranked());
    seq(|ordered|, i requires 0 <= i < |ordered| =>
      assert ordered[i] in ordered;
      rows[RelationKey(h, run, ordered[i])].relation)
  }

  /** A query over the vertex rows is the listing of the objects they hold. */
  lemma SelectsListing(h: Hashing, vertices: map<string, VertexRow>, run: RunId, objects: Objects, keep: Object -> bool)
    requires VerticesFormed(h, vertices) && HoldsObjects(h, vertices, run, objects)
    ensures SelectObjects(h, vertices, run, keep) == Listing(objects, Counter(), keep)
  {
    hide VertexKey, ObjectSeq, SortedByRank;
    forall id | id in objects ensures id in PresentIds(vertices, run) {
      assert VertexPresent(h, vertices, run, id);
    }
    var ids := KeptIds(objects, keep);
    var ids' := set id | id in PresentIds(vertices, run) && VertexPresent(h, vertices, run, id)
                       && keep(ObjectOf(vertices[VertexKey(h, run, id)]));
    assert ids == ids';
    var rank := StoredSeq(h, vertices, run);
    forall id <- ids ensures rank(id) == Counter()(id) {
      assert VertexPresent(h, vertices, run, id);
    }
    SameRankSameOrder(ids, rank, Counter());
    var ordered := SortedByRank(ids, rank);
    assert Listing(objects, Counter(), keep) == Mapped(ordered, objects);
    forall i | 0 <= i < |ordered| ensures ordered[i] in ids && SelectObjects(h, vertices, run, keep)[i] == objects[ordered[i]] {
      assert ordered[i] in ids;
    }
  }

  /** A query over the edge rows is the listing of the relations they hold. */
  lemma SelectsRelationListing(h: Hashing, rows: map<string, RelationRow>, run: RunId, relations: Relations, keep: Relation -> bool)
    requires HoldsRelations(h, rows, run, relations)
    ensures SelectRelations(h, rows, run, keep) == Listing(relations, Unranked(), keep)
  {
    hide RelationKey, SortedByRank;
    forall id | id in relations ensures id in StoredEdgeIds(rows, run) {
      assert EdgePresent(h, rows, run, id);
    }
    var ids := KeptIds(relations, keep);
    var ids' := set id | id in StoredEdgeIds(rows, run) && EdgePresent(h, rows, run, id)
                       && keep(rows[RelationKey(h, run, id)].relation);
    assert ids == ids';
    var ordered := SortedByRank(ids, Unranked());
    assert Listing(relations, Unranked(), keep) == Mapped(ordered, relations);
    forall i | 0 <= i < |ordered| ensures ordered[i] in ids && SelectRelations(h, rows, run, keep)[i] == relations[ordered[i]] {
      assert ordered[i] in ids;
    }
  }

  // ------------------------------------------------------------------
  // What a query returns, and in which order

  lemma RelationIds(h: Hashing, rows: map<string, RelationRow>, run: RunId, relations: Relations)
    requires HoldsRelations(h, rows, run, relations)
    ensures forall id <- relations :: relations[id].id == id
  {
    hide RelationKey;
    forall id <- relations ensures relations[id].id == id {
      assert EdgePresent(h, rows, run, id);
    }
  }

  lemma ObjectIds(h: Hashing, vertices: map<string, VertexRow>, run: RunId, objects: Objects)
    requires HoldsObjects(h, vertices, run, objects)
    ensures forall id <- objects :: objects[id].id == id
  {
    hide VertexKey;
    forall id <- objects ensures objects[id].id == id {
      assert VertexPresent(h, vertices, run, id);
    }
  }

  /** A relation query returns the stored relations it keeps, and nothing else. */
  lemma RelationsSelected(h: Hashing, rows: map<string, RelationRow>, run: RunId, relations: Relations, keep: Relation -> bool, r: Relation)
    requires HoldsRelations(h, rows, run, relations)
    ensures r in SelectRelations(h, rows, run, keep) <==> r.id in relations && relations[r.id] == r && keep(r)
  {
    hide HoldsRelations, SelectRelations, Listing;
    SelectsRelationListing(h, rows, run, relations, keep);
    RelationIds(h, rows, run, relations);
    ListingLists(relations, Unranked(), keep, r);
  }

  lemma ObjectsSelected(h: Hashing, vertices: map<string, VertexRow>, run: RunId, objects: Objects, keep: Object -> bool, o: Object)
    requires VerticesFormed(h, vertices) && HoldsObjects(h, vertices, run, objects)
    ensures o in SelectObjects(h, vertices, run, keep) <==> o.id in objects && objects[o.id] == o && keep(o)
  {
    hide HoldsObjects, VerticesFormed, SelectObjects, Listing;
    SelectsListing(h, vertices, run, objects, keep);
    ObjectIds(h, vertices, run, objects);
    ListingLists(objects, Counter(), keep, o);
  }

  /** Smaller counter, ties by ID in code-point order. */
  ghost predicate Before(a: Object, b: Object) {
    || ObjectSeq(a.id) < ObjectSeq(b.id)
    || (ObjectSeq(a.id) == ObjectSeq(b.id) && a.id != b.id && TextLe(a.id, b.id))
  }

  ghost predicate InListingOrder(objects: seq<Object>) {
    forall i, j :: 0 <= i < j < |objects| ==> Before(objects[i], objects[j])
  }

  /** Increasing ID in code-point order. */
  ghost predicate InIdOrder(relations: seq<Relation>) {
    forall i, j :: 0 <= i < j < |relations| ==> relations[i].id != relations[j].id && TextLe(relations[i].id, relations[j].id)
  }

  lemma ListingOrder<V>(values: map<string, V>, rank: string -> int, keep: V -> bool, i: nat, j: nat)
    requires i < j < |Listing(values, rank, keep)|
    ensures
      var ordered := SortedByRank(KeptIds(values, keep), rank);
      && j < |ordered| && ordered[i] in values && ordered[j] in values
      && Listing(values, rank, keep)[i] == values[ordered[i]] && Listing(values, rank, keep)[j] == values[ordered[j]]
      && ordered[i] != ordered[j]
      && (rank(ordered[i]) < rank(ordered[j]) || (rank(ordered[i]) == rank(ordered[j]) && TextLe(ordered[i], ordered[j])))
  {
    hide TextLe;
    var ordered := SortedByRank(KeptIds(values, keep), rank);
    assert ordered[i] in ordered && ordered[j] in ordered;
    assert Ranked(rank)(ordered[i], ordered[j]);
  }

  lemma ObjectsInOrder(h: Hashing, vertices: map<string, VertexRow>, run: RunId, objects: Objects, keep: Object -> bool)
    requires VerticesFormed(h, vertices) && HoldsObjects(h, vertices, run, objects)
    ensures InListingOrder(SelectObjects(h, vertices, run, keep))
  {
    hide HoldsObjects, VerticesFormed, SelectObjects, Listing, SortedByRank, ObjectSeq, TextLe;
    SelectsListing(h, vertices, run, objects, keep);
    ObjectIds(h, vertices, run, objects);
    var found := SelectObjects(h, vertices, run, keep);
    forall i, j | 0 <= i < j < |found| ensures Before(found[i], found[j]) {
      ListingOrder(objects, Counter(), keep, i, j);
    }
  }

  lemma RelationsInOrder(h: Hashing, rows: map<string, RelationRow>, run: RunId, relations: Relations, keep: Relation -> bool)
    requires HoldsRelations(h, rows, run, relations)
    ensures InIdOrder(SelectRelations(h, rows, run, keep))
  {
    hide HoldsRelations, SelectRelations, Listing, SortedByRank, TextLe;
    SelectsRelationListing(h, rows, run, relations, keep);
    RelationIds(h, rows, run, relations);
    var found := SelectRelations(h, rows, run, keep);
    forall i, j | 0 <= i < j < |found| ensures found[i].id != found[j].id && TextLe(found[i].id, found[j].id) {
      ListingOrder(relations, Unranked(), keep, i, j);
    }
  }

  // ------------------------------------------------------------------
  // Query pushdown

  function Take<T>(s: seq<T>, limit: Option<nat>): seq<T> {
    if limit.Some? && limit.value < |s| then s[..limit.value] else s
  }

  function OfKind(kind: Option<string>): Object -> bool { (o: Object) => kind.None? || o.kind == kind.value }

  /** `where` is the residual predicate, absent when the plan has none. */
  datatype ObjectQuery = ObjectQuery(kind: Option<string>, where: Option<Object -> bool>, limit: Option<nat>, exists_: bool)

  datatype QueryResult = QueryResult(candidates: seq<Object>, residual: Option<Object -> bool>, exists_: Option<bool>)

  /** `query_objects`. */
  function QueryObjects(h: Hashing, vertices: map<string, VertexRow>, run: RunId, plan: ObjectQuery): QueryResult {
    var rows := SelectObjects(h, vertices, run, OfKind(plan.kind));
    if plan.exists_ && plan.where.None? then QueryResult([], None, Some(Take(rows, Some(1)) != []))
    else QueryResult(Take(rows, if plan.where.None? then plan.limit else None), plan.where, None)
  }

  /** What the caller makes of a result: apply the residual predicate, then the limit. */
  function Finish(r: QueryResult, limit: Option<nat>): seq<Object> {
    Take(if r.residual.Some? then Filter(r.candidates, r.residual.value) else r.candidates, limit)
  }

  /** The full scan the query stands for: type filter, then predicate, then limit. */
  function Scan(objects: Objects, plan: ObjectQuery): seq<Object> {
    var typed := Filter(AllObjects(objects), OfKind(plan.kind));
    Take(if plan.where.Some? then Filter(typed, plan.where.value) else typed, plan.limit)
  }

  /** Pushing the query down changes no answer: listing queries give the list of the full scan in
      its order, and the existence probe agrees with the scan being non-empty. */
  lemma PushdownPreservesMeaning(h: Hashing, vertices: map<string, VertexRow>, run: RunId, objects: Objects, plan: ObjectQuery)
    requires VerticesFormed(h, vertices) && HoldsObjects(h, vertices, run, objects)
    ensures
      var r := QueryObjects(h, vertices, run, plan);
      && (r.exists_.Some? <==> plan.exists_ && plan.where.None?)
      && (r.exists_.None? ==> Finish(r, plan.limit) == Scan(objects, plan))
      && (r.exists_.Some? ==> (r.exists_.value <==> Scan(objects, plan.(limit := None)) != []))
  {
    hide Listing, Filter, SelectObjects, VerticesFormed, HoldsObjects;
    SelectsListing(h, vertices, run, objects, OfKind(plan.kind));
    ListingIsFilter(objects, Counter(), AnyObject(), OfKind(plan.kind));
  }

  function InKinds(kinds: seq<string>): Object -> bool { (o: Object) => o.kind in kinds }

  /** `find_objects_in_types`. */
  function FindInTypes(h: Hashing, vertices: map<string, VertexRow>, run: RunId, kinds: seq<string>): seq<Object> {
    if kinds == [] then [] else SelectObjects(h, vertices, run, InKinds(kinds))
  }

  lemma FindInTypesIsFilter(h: Hashing, vertices: map<string, VertexRow>, run: RunId, objects: Objects, kinds: seq<string>)
    requires VerticesFormed(h, vertices) && HoldsObjects(h, vertices, run, objects)
    ensures FindInTypes(h, vertices, run, kinds) == Filter(AllObjects(objects), InKinds(kinds))
  {
    hide Listing, SelectObjects, VerticesFormed, HoldsObjects;
    SelectsListing(h, vertices, run, objects, InKinds(kinds));
    ListingIsFilter(objects, Counter(), AnyObject(), InKinds(kinds));
    if kinds == [] {
      NothingKept(AllObjects(objects), InKinds(kinds));
    }
  }

  lemma {:induction false} NothingKept(s: seq<Object>, keep: Object -> bool)
    requires forall o :: !keep(o)
    ensures Filter(s, keep) == []
  {
    if s != [] { NothingKept(s[1..], keep); }
  }

  datatype RelationFilter = RelationFilter(source: Option<string>, target: Option<string>, kind: Option<string>)

  function Passing(f: RelationFilter): Relation -> bool {
    (r: Relation) =>
      && (f.source.None? || r.source == f.source.value)
      && (f.target.None? || r.target == f.target.value)
      && (f.kind.None? || r.kind == f.kind.value)
  }

  /** `find_relations`, over the rows, is the filtered scan of `all_relations`. */
  lemma FindRelationsIsFilter(h: Hashing, rows: map<string, RelationRow>, run: RunId, relations: Relations, f: RelationFilter)
    requires HoldsRelations(h, rows, run, relations)
    ensures SelectRelations(h, rows, run, Passing(f)) == Filter(AllRelations(relations), Passing(f))
    ensures SelectRelations(h, rows, run, AnyRelation()) == AllRelations(relations)
  {
    hide Listing, SelectRelations, HoldsRelations;
    SelectsRelationListing(h, rows, run, relations, Passing(f));
    SelectsRelationListing(h, rows, run, relations, AnyRelation());
    ListingIsFilter(relations, Unranked(), AnyRelation(), Passing(f));
  }

  // ------------------------------------------------------------------
  // The answers, field by field

  lemma {:induction false} FilterMembers<T(!new)>(s: seq<T>, keep: T -> bool)
    ensures forall x :: x in Filter(s, keep) <==> x in s && keep(x)
  {
    if s != [] {
      FilterMembers(s[1..], keep);
      assert forall x :: x in s <==> x == s[0] || x in s[1..];
    }
  }

  lemma {:induction false} FilterKeepsListingOrder(s: seq<Object>, keep: Object -> bool)
    requires InListingOrder(s)
    ensures InListingOrder(Filter(s, keep))
  {
    hide Before;
    if s != [] {
      FilterKeepsListingOrder(s[1..], keep);
      FilterMembers(s[1..], keep);
      forall o <- Filter(s[1..], keep) ensures Before(s[0], o) {
        var i :| 0 < i < |s| && s[i] == o;
      }
    }
  }

  /** `find_relations` returns a stored relation exactly when each given field is its own, in
      increasing ID. */
  lemma FindRelationsAnswers(h: Hashing, rows: map<string, RelationRow>, run: RunId, relations: Relations, f: RelationFilter, r: Relation)
    requires HoldsRelations(h, rows, run, relations)
    ensures r in SelectRelations(h, rows, run, Passing(f)) <==>
      && r.id in relations && relations[r.id] == r
      && (f.source.Some? ==> r.source == f.source.value)
      && (f.target.Some? ==> r.target == f.target.value)
      && (f.kind.Some? ==> r.kind == f.kind.value)
    ensures InIdOrder(SelectRelations(h, rows, run, Passing(f)))
  {
    hide HoldsRelations, SelectRelations, InIdOrder;
    RelationsSelected(h, rows, run, relations, Passing(f), r);
    RelationsInOrder(h, rows, run, relations, Passing(f));
  }

  /** `find_objects_in_types` returns a present object exactly when its type is one of those given,
      in listing order. */
  lemma FindInTypesAnswers(h: Hashing, vertices: map<string, VertexRow>, run: RunId, objects: Objects, kinds: seq<string>, o: Object)
    requires VerticesFormed(h, vertices) && HoldsObjects(h, vertices, run, objects)
    ensures o in FindInTypes(h, vertices, run, kinds) <==>
      o.id in objects && objects[o.id] == o && exists i :: 0 <= i < |kinds| && kinds[i] == o.kind
    ensures InListingOrder(FindInTypes(h, vertices, run, kinds))
  {
    hide VerticesFormed, HoldsObjects, SelectObjects, Before;
    ObjectsSelected(h, vertices, run, objects, InKinds(kinds), o);
    ObjectsInOrder(h, vertices, run, objects, InKinds(kinds));
  }

  /** The object is stored, of the plan's type and passes the plan's predicate. */
  ghost predicate Matches(objects: Objects, plan: ObjectQuery, o: Object) {
    && o.id in objects && objects[o.id] == o
    && (plan.kind.Some? ==> o.kind == plan.kind.value)
    && (plan.where.Some? ==> plan.where.value(o))
  }

  /** A query's finished answer: matching objects in listing order, all of them, or the first
      `limit` if there are more. */
  ghost predicate IsAnswer(objects: Objects, plan: ObjectQuery, answer: seq<Object>) {
    && InListingOrder(answer)
    && (forall o <- answer :: Matches(objects, plan, o))
    && (plan.limit.Some? ==> |answer| <= plan.limit.value)
    && (forall o :: Matches(objects, plan, o) && o !in answer ==>
          plan.limit.Some? && |answer| == plan.limit.value && forall a <- answer :: Before(a, o))
  }

  lemma TakeIsAnswer(objects: Objects, plan: ObjectQuery, matching: seq<Object>)
    requires InListingOrder(matching) && forall o :: o in matching <==> Matches(objects, plan, o)
    ensures IsAnswer(objects, plan, Take(matching, plan.limit))
  {
    hide Before, Matches;
    var answer := Take(matching, plan.limit);
    assert forall k :: 0 <= k < |answer| ==> answer[k] == matching[k] && answer[k] in answer;
    forall o | Matches(objects, plan, o) && o !in answer
      ensures plan.limit.Some? && |answer| == plan.limit.value && forall a <- answer :: Before(a, o)
    {
      var j :| 0 <= j < |matching| && matching[j] == o;
    }
    forall o <- answer ensures Matches(objects, plan, o) {
      assert o in matching;
    }
  }

  /** `query_objects`: every candidate is stored and of the plan's type, the predicate is handed back
      unchanged, the finished listing is the answer, and the probe tells whether anything matches. */
  lemma QueryAnswers(h: Hashing, vertices: map<string, VertexRow>, run: RunId, objects: Objects, plan: ObjectQuery)
    requires VerticesFormed(h, vertices) && HoldsObjects(h, vertices, run, objects)
    ensures
      var r := QueryObjects(h, vertices, run, plan);
      && (forall o <- r.candidates :: o.id in objects && objects[o.id] == o && (plan.kind.Some? ==> o.kind == plan.kind.value))
      && (r.exists_.None? ==> r.residual == plan.where && IsAnswer(objects, plan, Finish(r, plan.limit)))
      && (r.exists_.Some? <==> plan.exists_ && plan.where.None?)
      && (r.exists_.Some? ==> (r.exists_.value <==> exists o :: Matches(objects, plan, o)))
  {
    hide VerticesFormed, HoldsObjects, SelectObjects, Before, Listing, InListingOrder, IsAnswer, Filter;
    var rows := SelectObjects(h, vertices, run, OfKind(plan.kind));
    forall o ensures o in rows <==> o.id in objects && objects[o.id] == o && (plan.kind.Some? ==> o.kind == plan.kind.value) {
      ObjectsSelected(h, vertices, run, objects, OfKind(plan.kind), o);
    }
    ObjectsInOrder(h, vertices, run, objects, OfKind(plan.kind));
    var matching := if plan.where.Some? then Filter(rows, plan.where.value) else rows;
    if plan.where.Some? {
      FilterMembers(rows, plan.where.value);
      FilterKeepsListingOrder(rows, plan.where.value);
    }
    TakeIsAnswer(objects, plan, matching);
    assert plan.where.None? ==> Take(Take(rows, plan.limit), plan.limit) == Take(rows, plan.limit);
    assert rows != [] ==> rows[0] in rows;
  }
}
