/** The graph store of one run: an object that guards its reads and writes by a status record kept
    beside the rows, in a database any of whose statements may fail. */
module ProjectionStore {
  import opened Wrappers
  import opened EventLog
  import opened GraphTables
  import opened GraphRefinement
  import opened ProjectionReads
  import opened Neighborhood

  // ------------------------------------------------------------------
  // Database states

  datatype Status = Ready | Rebuilding | Failed

  datatype ProjectionRow = ProjectionRow(run: RunId, status: Status, error: Option<string>)

  datatype Store = Store(tables: Tables, projections: map<string, ProjectionRow>)

  function ProjectionParts(run: RunId): seq<string> { ["ag_projection", run.scope, run.name] }

  function ProjectionKey(h: Hashing, run: RunId): string { h.key(ProjectionParts(run)) }

  /** The recorded status; `None` if the record is missing or another run's, which raises. */
  function StatusOf(h: Hashing, s: Store, run: RunId): Option<Status> {
    var k := ProjectionKey(h, run);
    if k in s.projections && s.projections[k].run == run then Some(s.projections[k].status) else None
  }

  /** `_assert_readable`: is a handle served the rows in this state? */
  predicate Served(h: Hashing, s: Store, run: RunId, rebuildingHere: bool) {
    StatusOf(h, s, run) == Some(Ready) || (StatusOf(h, s, run) == Some(Rebuilding) && rebuildingHere)
  }

  function WithStatus(h: Hashing, s: Store, run: RunId, status: Status, error: Option<string>): Store {
    s.(projections := s.projections[ProjectionKey(h, run) := ProjectionRow(run, status, error)])
  }

  /** No status record other than the run's own differs. */
  ghost predicate OtherRecordsKept(h: Hashing, s: Store, s': Store, run: RunId) {
    forall k :: k != ProjectionKey(h, run) ==>
      (k in s.projections <==> k in s'.projections) && (k in s.projections ==> s'.projections[k] == s.projections[k])
  }

  /** Another run's status record sits under the run's key. */
  predicate RecordClash(h: Hashing, s: Store, run: RunId) {
    var k := ProjectionKey(h, run);
    k in s.projections && s.projections[k].run != run
  }

  /** Writing a run's status record leaves every other run's status as it was, unless the two runs'
      part lists share a key; it does so also when the record it replaces is another run's. */
  lemma OtherStatusKept(h: Hashing, s: Store, s': Store, run: RunId, other: RunId)
    requires OtherRecordsKept(h, s, s', run) && other != run
    ensures StatusOf(h, s', other) == StatusOf(h, s, other) || KeyClash(h, ProjectionParts(run), ProjectionParts(other))
  {
    assert ProjectionParts(run)[1] == run.scope && ProjectionParts(run)[2] == run.name;
    assert ProjectionParts(other)[1] == other.scope && ProjectionParts(other)[2] == other.name;
  }

  /** With such a clash the status upsert, which looks at no row, does take the other run's record. */
  lemma ClashTakesRecord(h: Hashing, s: Store, run: RunId, other: RunId, status: Status, error: Option<string>)
    requires other != run && StatusOf(h, s, other).Some?
    ensures StatusOf(h, WithStatus(h, s, run, status, error), other).None? <==>
      KeyClash(h, ProjectionParts(run), ProjectionParts(other))
  {
    assert ProjectionParts(run)[1] == run.scope && ProjectionParts(run)[2] == run.name;
    assert ProjectionParts(other)[1] == other.scope && ProjectionParts(other)[2] == other.name;
  }

  // ------------------------------------------------------------------
  // Mutations in sequence, stopping at the first that raises

  function MutateAll(h: Hashing, t: Tables, run: RunId, ms: seq<Mutation>): Option<Tables> {
    if ms == [] then Some(t)
    else
      var before :- MutateAll(h, t, run, ms[..|ms| - 1]);
      Mutate(h, before, run, ms[|ms| - 1])
  }

  lemma MutateNext(h: Hashing, t: Tables, run: RunId, ms: seq<Mutation>, i: nat)
    requires i < |ms|
    ensures MutateAll(h, t, run, ms[..i]).None? ==> MutateAll(h, t, run, ms[..i + 1]).None?
    ensures MutateAll(h, t, run, ms[..i]).Some? ==>
      MutateAll(h, t, run, ms[..i + 1]) == Mutate(h, MutateAll(h, t, run, ms[..i]).value, run, ms[i])
  {
    hide Mutate;
    assert ms[..i + 1][..i] == ms[..i];
  }

  lemma {:induction false} MutateStops(h: Hashing, t: Tables, run: RunId, ms: seq<Mutation>, i: nat)
    requires i <= |ms| && MutateAll(h, t, run, ms[..i]).None?
    ensures MutateAll(h, t, run, ms).None?
    decreases |ms| - i
  {
    if i == |ms| {
      assert ms[..i] == ms;
    } else {
      MutateNext(h, t, run, ms, i);
      MutateStops(h, t, run, ms, i + 1);
    }
  }

  /** The plain graph the same mutations build. */
  function FoldAll(g: Graph, ms: seq<Mutation>): Graph {
    if ms == [] then g else Reference(FoldAll(g, ms[..|ms| - 1]), ms[|ms| - 1])
  }

  function StoredPatchIds(rows: map<string, PatchRow>, run: RunId): set<string> {
    set k | k in rows && rows[k].run == run :: rows[k].patch.id
  }

  function ObjectsIn(h: Hashing, rows: map<string, VertexRow>, run: RunId): Objects {
    map id | id in PresentIds(rows, run) && VertexPresent(h, rows, run, id) :: ObjectOf(rows[VertexKey(h, run, id)])
  }

  function RelationsIn(h: Hashing, rows: map<string, RelationRow>, run: RunId): Relations {
    map id | id in StoredEdgeIds(rows, run) && EdgePresent(h, rows, run, id) :: rows[RelationKey(h, run, id)].relation
  }

  function PatchesIn(h: Hashing, rows: map<string, PatchRow>, run: RunId): map<string, Patch> {
    map id | id in StoredPatchIds(rows, run) && PatchPresent(h, rows, run, id) :: rows[PatchKey(h, run, id)].patch
  }

  /** The graph a run's rows hold, whatever they are. */
  function GraphOf(h: Hashing, t: Tables, run: RunId): Graph {
    Graph(ObjectsIn(h, t.vertices, run), RelationsIn(h, t.relations, run), PatchesIn(h, t.patches, run))
  }

  lemma HoldsItsObjects(h: Hashing, rows: map<string, VertexRow>, run: RunId)
    ensures HoldsObjects(h, rows, run, ObjectsIn(h, rows, run))
  {
    hide VertexKey, ObjectOf;
  }

  lemma HoldsItsRelations(h: Hashing, rows: map<string, RelationRow>, run: RunId)
    ensures HoldsRelations(h, rows, run, RelationsIn(h, rows, run))
  {
    hide RelationKey;
  }

  lemma HoldsItsPatches(h: Hashing, rows: map<string, PatchRow>, run: RunId)
    ensures HoldsPatches(h, rows, run, PatchesIn(h, rows, run))
  {
    hide PatchKey;
  }

  lemma HoldsItsGraph(h: Hashing, t: Tables, run: RunId)
    ensures HoldsGraph(h, t, run, GraphOf(h, t, run))
  {
    hide HoldsObjects, HoldsRelations, HoldsPatches, ObjectsIn, RelationsIn, PatchesIn;
    HoldsItsObjects(h, t.vertices, run);
    HoldsItsRelations(h, t.relations, run);
    HoldsItsPatches(h, t.patches, run);
  }

  lemma OthersKeptOn(a: Tables, b: Tables, c: Tables, run: RunId)
    requires OtherRunsKept(a, b, run) && OtherRunsKept(b, c, run)
    ensures OtherRunsKept(a, c, run)
  {
  }

  /** Every prefix of a sequence of mutations leaves well-formed rows that hold the graph the plain
      maps build, and no row of another run touched; or a key clash was met. */
  lemma {:induction false} MutateAllRefines(h: Hashing, t: Tables, run: RunId, ms: seq<Mutation>, g: Graph)
    returns (p: seq<string>, q: seq<string>)
    requires WellFormed(h, t) && HoldsGraph(h, t, run, g) && MutateAll(h, t, run, ms).Some?
    ensures
      var t' := MutateAll(h, t, run, ms).value;
      || (WellFormed(h, t') && HoldsGraph(h, t', run, FoldAll(g, ms)) && OtherRunsKept(t, t', run))
      || KeyClash(h, p, q)
  {
    hide WellFormed, HoldsGraph, Clash, KeyClash, Mutate, Reference, OtherRunsKept;
    p, q := [], [];
    if ms == [] {
      NothingTouched(t, run);
    } else {
      var n := |ms| - 1;
      p, q := MutateAllRefines(h, t, run, ms[..n], g);
      if !KeyClash(h, p, q) {
        var before := MutateAll(h, t, run, ms[..n]).value;
        if Clash(h, before, run, ms[n]) {
          p, q := ClashExhibitsKeys(h, before, run, ms[n]);
        } else {
          MutationRefines(h, before, run, ms[n], FoldAll(g, ms[..n]));
          OthersKeptOn(t, before, MutateAll(h, t, run, ms).value, run);
        }
      }
    }
  }

  lemma NothingTouched(t: Tables, run: RunId)
    ensures OtherRunsKept(t, t, run)
  {
  }

  /** The tables after some of the mutations, from the first on. */
  ghost predicate Partly(h: Hashing, t: Tables, run: RunId, ms: seq<Mutation>, now: Tables) {
    exists k :: 0 <= k <= |ms| && MutateAll(h, t, run, ms[..k]) == Some(now)
  }

  /** So are the tables of every state added to a trace. */
  ghost predicate Stepwise(h: Hashing, t: Tables, run: RunId, ms: seq<Mutation>, trace: seq<Store>, earlier: seq<Store>) {
    earlier <= trace && forall i :: |earlier| <= i < |trace| ==> Partly(h, t, run, ms, trace[i].tables)
  }

  lemma PrefixIsPartly(h: Hashing, t: Tables, run: RunId, ms: seq<Mutation>, some: seq<Mutation>, now: Tables)
    requires some <= ms && MutateAll(h, t, run, some) == Some(now)
    ensures Partly(h, t, run, ms, now)
  {
    assert ms[..|some|] == some;
  }

  lemma UntouchedIsPartly(h: Hashing, t: Tables, run: RunId, ms: seq<Mutation>)
    ensures Partly(h, t, run, ms, t)
  {
    PrefixIsPartly(h, t, run, ms, [], t);
  }

  lemma LongerIsPartly(h: Hashing, t: Tables, run: RunId, some: seq<Mutation>, ms: seq<Mutation>, now: Tables)
    requires some <= ms && Partly(h, t, run, some, now)
    ensures Partly(h, t, run, ms, now)
  {
    hide MutateAll;
    var k :| 0 <= k <= |some| && MutateAll(h, t, run, some[..k]) == Some(now);
    assert ms[..k] == some[..k];
  }

  lemma LongerIsStepwise(h: Hashing, t: Tables, run: RunId, some: seq<Mutation>, ms: seq<Mutation>, trace: seq<Store>, earlier: seq<Store>)
    requires some <= ms && Stepwise(h, t, run, some, trace, earlier)
    ensures Stepwise(h, t, run, ms, trace, earlier)
  {
    hide Partly;
    forall i | |earlier| <= i < |trace| ensures Partly(h, t, run, ms, trace[i].tables) {
      LongerIsPartly(h, t, run, some, ms, trace[i].tables);
    }
  }

  lemma StepwiseOn(h: Hashing, t: Tables, run: RunId, ms: seq<Mutation>, trace: seq<Store>, middle: seq<Store>, earlier: seq<Store>)
    requires Stepwise(h, t, run, ms, middle, earlier) && Stepwise(h, t, run, ms, trace, middle)
    ensures Stepwise(h, t, run, ms, trace, earlier)
  {
    hide Partly;
    forall i | |earlier| <= i < |trace| ensures Partly(h, t, run, ms, trace[i].tables) {
      if i < |middle| { assert trace[i] == middle[i]; }
    }
  }

  lemma OneMoreStep(h: Hashing, t: Tables, run: RunId, ms: seq<Mutation>, trace: seq<Store>, earlier: seq<Store>, s: Store)
    requires trace == earlier || trace == earlier + [s]
    requires Partly(h, t, run, ms, s.tables)
    ensures Stepwise(h, t, run, ms, trace, earlier)
  {
    hide Partly;
  }

  /** However far a sequence of mutations got: the rows are well formed and no row of another run
      is touched; or a key clash was met. */
  lemma PartlyKeeps(h: Hashing, t: Tables, run: RunId, ms: seq<Mutation>, now: Tables) returns (p: seq<string>, q: seq<string>)
    requires WellFormed(h, t) && Partly(h, t, run, ms, now)
    ensures (WellFormed(h, now) && OtherRunsKept(t, now, run)) || KeyClash(h, p, q)
  {
    hide WellFormed, HoldsGraph, KeyClash, OtherRunsKept, GraphOf, MutateAll;
    HoldsItsGraph(h, t, run);
    var k :| 0 <= k <= |ms| && MutateAll(h, t, run, ms[..k]) == Some(now);
    p, q := MutateAllRefines(h, t, run, ms[..k], GraphOf(h, t, run));
  }

  // ------------------------------------------------------------------
  // Clearing

  const CLEARING := [ClearRelations, ClearPatches, ClearVertices]

  /** The rows after a rebuild that makes the given mutations. */
  function Rebuilt(h: Hashing, t: Tables, run: RunId, ms: seq<Mutation>): Option<Tables> {
    MutateAll(h, t, run, CLEARING + ms)
  }

  lemma ClearingForgets(g: Graph)
    ensures FoldAll(g, CLEARING) == EMPTY
  {
    assert CLEARING[..2] == [ClearRelations, ClearPatches] && [ClearRelations, ClearPatches][..1] == [ClearRelations];
    assert FoldAll(g, [ClearRelations]) == Reference(g, ClearRelations);
    assert FoldAll(g, [ClearRelations, ClearPatches]) == Reference(Reference(g, ClearRelations), ClearPatches);
  }

  lemma {:induction false} FoldForgets(g: Graph, ms: seq<Mutation>)
    ensures FoldAll(g, CLEARING + ms) == FoldAll(EMPTY, ms)
  {
    hide Reference;
    if ms == [] {
      ClearingForgets(g);
      assert CLEARING + ms == CLEARING;
    } else {
      FoldForgets(g, ms[..|ms| - 1]);
      assert (CLEARING + ms)[..|CLEARING + ms| - 1] == CLEARING + ms[..|ms| - 1];
    }
  }

  /** A completed rebuild holds the graph of its mutations alone, whatever rows were there before,
      and leaves the rows of every other run as they were; or a key clash was met. */
  lemma RebuiltHoldsFold(h: Hashing, t: Tables, run: RunId, ms: seq<Mutation>) returns (p: seq<string>, q: seq<string>)
    requires WellFormed(h, t) && Rebuilt(h, t, run, ms).Some?
    ensures
      var t' := Rebuilt(h, t, run, ms).value;
      || (WellFormed(h, t') && HoldsGraph(h, t', run, FoldAll(EMPTY, ms)) && OtherRunsKept(t, t', run))
      || KeyClash(h, p, q)
  {
    hide WellFormed, HoldsGraph, KeyClash, OtherRunsKept, GraphOf, MutateAll, FoldAll;
    HoldsItsGraph(h, t, run);
    FoldForgets(GraphOf(h, t, run), ms);
    p, q := MutateAllRefines(h, t, run, CLEARING + ms, GraphOf(h, t, run));
  }

  /** How many of `n` statements take effect when the first that raises is the last one sent. */
  function Reached(faults: nat -> Outcome, clock: nat, n: nat): (k: nat)
    ensures k <= n
    decreases n
  {
    if n == 0 || faults(clock).Refused? then 0
    else if faults(clock).Unacknowledged? then 1
    else 1 + Reached(faults, clock + 1, n - 1)
  }

  lemma {:induction false} ReachedAfter(faults: nat -> Outcome, clock: nat, n: nat, i: nat)
    requires i <= n && forall j :: clock <= j < clock + i ==> faults(j).Acknowledged?
    ensures Reached(faults, clock, n) == i + Reached(faults, clock + i, n - i)
    decreases i
  {
    if i > 0 { ReachedAfter(faults, clock + 1, n - 1, i - 1); }
  }

  /** Clearing always succeeds, also half-way. */
  lemma ClearingSucceeds(h: Hashing, t: Tables, run: RunId, i: nat)
    requires i <= 3
    ensures MutateAll(h, t, run, CLEARING[..i]).Some?
  {
    hide DeleteVertices;
    if i > 0 {
      ClearingSucceeds(h, t, run, i - 1);
      MutateNext(h, t, run, CLEARING, i - 1);
    }
  }

  // ------------------------------------------------------------------

  /** The database. `faults` says how each statement ends; `trace` is every state reached. */
  class ProjectionDatabase {
    const hashing: Hashing
    const faults: nat -> Outcome
    var store: Store
    var clock: nat
    ghost var trace: seq<Store>

    constructor (hashing: Hashing, faults: nat -> Outcome, store: Store)
      ensures this.hashing == hashing && this.faults == faults && this.store == store && clock == 0 && trace == []
    {
      this.hashing := hashing;
      this.faults := faults;
      this.store := store;
      this.clock := 0;
      this.trace := [];
    }

    /** A statement that only reads. */
    method Ask() returns (ok: bool)
      modifies `clock
      ensures clock == old(clock) + 1 && ok == faults(old(clock)).Acknowledged?
    {
      ok := faults(clock).Acknowledged?;
      clock := clock + 1;
    }

    /** A statement that writes: it may take effect and still raise. */
    method Execute(after: Store) returns (ok: bool)
      modifies this
      ensures clock == old(clock) + 1 && ok == faults(old(clock)).Acknowledged?
      ensures store == if faults(old(clock)).Refused? then old(store) else after
      ensures trace == old(trace) + [store]
    {
      ok := faults(clock).Acknowledged?;
      if !faults(clock).Refused? {
        store := after;
      }
      clock := clock + 1;
      trace := trace + [store];
    }
  }

  datatype GraphError =
    | InvalidName
    | ClosedStore
    | ProjectionUnavailable
    | CrossedBoundary
    | DatabaseFailure

  class SurrealGraphStore {
    const db: ProjectionDatabase
    const run: RunId
    var rebuildingHere: bool
    var closed: bool

    constructor Opened(db: ProjectionDatabase, run: RunId)
      ensures this.db == db && this.run == run && !rebuildingHere && !closed
    {
      this.db := db;
      this.run := run;
      this.rebuildingHere := false;
      this.closed := false;
    }

    /** The constructor: a missing status record is created, ready and empty. */
    static method Open(db: ProjectionDatabase, run: RunId) returns (r: Result<SurrealGraphStore, GraphError>)
      modifies db
      ensures db.store.tables == old(db.store).tables
      ensures StatusOf(db.hashing, old(db.store), run).Some? ==> db.store == old(db.store)
      ensures db.store == old(db.store) || db.store == WithStatus(db.hashing, old(db.store), run, Ready, None)
      ensures RecordClash(db.hashing, old(db.store), run) ==> r.Failure? && db.store == old(db.store)
      ensures r.Success? <==>
        && run.name != "" && run.scope != "" && !RecordClash(db.hashing, old(db.store), run)
        && db.faults(old(db.clock)).Acknowledged?
        && (|| StatusOf(db.hashing, old(db.store), run).Some?
            || db.faults(old(db.clock) + 1).Acknowledged?
            || (db.faults(old(db.clock) + 1).Unacknowledged? && db.faults(old(db.clock) + 2).Acknowledged?))
      ensures r.Success? && StatusOf(db.hashing, old(db.store), run).None? ==> Served(db.hashing, db.store, run, false)
      ensures r.Success? ==>
        && fresh(r.value) && r.value.db == db && r.value.run == run && !r.value.rebuildingHere && !r.value.closed
        && db.store == if StatusOf(db.hashing, old(db.store), run).Some? then old(db.store)
                       else WithStatus(db.hashing, old(db.store), run, Ready, None)
    {
      if run.name == "" || run.scope == "" {
        return Failure(InvalidName);
      }
      var asked := db.Ask();
      if !asked {
        return Failure(DatabaseFailure);
      }
      var k := ProjectionKey(db.hashing, run);
      if k in db.store.projections && db.store.projections[k].run != run {
        return Failure(CrossedBoundary);
      }
      if k !in db.store.projections {
        var created := db.Execute(WithStatus(db.hashing, db.store, run, Ready, None));
        if !created {
          var again := db.Ask();
          if !again || k !in db.store.projections {
            return Failure(DatabaseFailure);
          }
        }
      }
      var store := new SurrealGraphStore.Opened(db, run);
      r := Success(store);
    }

    /** `_assert_readable` (writes are guarded the same way). */
    method AssertReadable() returns (ok: bool)
      modifies db`clock
      ensures ok <==> !closed && db.faults(old(db.clock)).Acknowledged? && Served(db.hashing, db.store, run, rebuildingHere)
      ensures ok <==>
        && !closed && db.faults(old(db.clock)).Acknowledged?
        && (|| StatusOf(db.hashing, db.store, run) == Some(Ready)
            || (StatusOf(db.hashing, db.store, run) == Some(Rebuilding) && rebuildingHere))
      ensures db.clock == if closed then old(db.clock) else old(db.clock) + 1
    {
      if closed {
        return false;
      }
      var asked := db.Ask();
      ok := asked && Served(db.hashing, db.store, run, rebuildingHere);
    }

    /** One guarded mutation: put or remove of an object, a relation or a patch. */
    method Write(m: Mutation) returns (ok: bool)
      modifies db
      ensures ok <==>
        && !closed && db.faults(old(db.clock)).Acknowledged? && db.faults(old(db.clock) + 1).Acknowledged?
        && Served(db.hashing, old(db.store), run, rebuildingHere)
        && Mutate(db.hashing, old(db.store).tables, run, m).Some?
      ensures ok ==> db.clock == old(db.clock) + 2
      ensures db.store.projections == old(db.store).projections
      ensures db.store != old(db.store) ==>
        && Served(db.hashing, old(db.store), run, rebuildingHere)
        && Mutate(db.hashing, old(db.store).tables, run, m) == Some(db.store.tables)
      ensures ok ==> Mutate(db.hashing, old(db.store).tables, run, m) == Some(db.store.tables)
      ensures db.trace == old(db.trace) || db.trace == old(db.trace) + [db.store]
    {
      hide Mutate, Served;
      var readable := AssertReadable();
      if !readable {
        return false;
      }
      var after := Mutate(db.hashing, db.store.tables, run, m);
      if after.None? {
        return false;
      }
      ok := db.Execute(db.store.(tables := after.value));
    }

    /** `neighborhood`, behind the guard. */
    method Neighbors(start: string, depth: int, ghost g: Graph)
      returns (r: Option<(seq<Object>, set<Relation>)>)
      requires VerticesFormed(db.hashing, db.store.tables.vertices) && HoldsGraph(db.hashing, db.store.tables, run, g)
      modifies db`clock
      ensures r.Some? ==>
        Served(db.hashing, db.store, run, rebuildingHere) && IsNeighborhood(g, start, depth, r.value.0, r.value.1)
      ensures r.Some? <==>
        && !closed && db.faults(old(db.clock)).Acknowledged? && Served(db.hashing, db.store, run, rebuildingHere)
        && GetObject(db.hashing, db.store.tables.vertices, run, start).Some?
    {
      hide VerticesFormed, HoldsGraph, IsNeighborhood, Served, GetObject;
      var readable := AssertReadable();
      if !readable {
        return None;
      }
      var raised, objects, relations := Walk(db.hashing, db.store.tables, run, start, depth, g);
      r := if raised then None else Some((objects, relations));
    }

    /** `_set_projection_status`. */
    method SetStatus(status: Status, error: Option<string>) returns (ok: bool)
      modifies db
      ensures closed ==> !ok && db.store == old(db.store) && db.trace == old(db.trace) && db.clock == old(db.clock)
      ensures !closed ==>
        && ok == db.faults(old(db.clock)).Acknowledged? && db.clock == old(db.clock) + 1
        && db.store == (if db.faults(old(db.clock)).Refused? then old(db.store)
                        else WithStatus(db.hashing, old(db.store), run, status, error))
        && db.trace == old(db.trace) + [db.store]
    {
      if closed {
        return false;
      }
      ok := db.Execute(WithStatus(db.hashing, db.store, run, status, error));
    }

    /** `clear`: three deletes, each of which may fail; the rows are those the deletes that took
        effect leave. */
    method Clear() returns (ok: bool)
      modifies db
      ensures ok <==> !closed && forall i :: old(db.clock) <= i < old(db.clock) + 3 ==> db.faults(i).Acknowledged?
      ensures ok ==> db.clock == old(db.clock) + 3
      ensures ok ==> MutateAll(db.hashing, old(db.store).tables, run, CLEARING) == Some(db.store.tables)
      ensures MutateAll(db.hashing, old(db.store).tables, run,
                CLEARING[..if closed then 0 else Reached(db.faults, old(db.clock), 3)]) == Some(db.store.tables)
      ensures db.store.projections == old(db.store).projections
      ensures OnlyRowsWritten(db.trace, old(db.trace), old(db.store))
      ensures Stepwise(db.hashing, old(db.store).tables, run, CLEARING, db.trace, old(db.trace))
    {
      hide Mutate, MutateAll, Partly;
      ghost var t := db.store.tables;
      MutateNone(db.hashing, t, run);
      if closed {
        return false;
      }
      for i := 0 to 3
        invariant db.clock == old(db.clock) + i
        invariant forall j :: old(db.clock) <= j < old(db.clock) + i ==> db.faults(j).Acknowledged?
        invariant MutateAll(db.hashing, t, run, CLEARING[..i]) == Some(db.store.tables)
        invariant db.store.projections == old(db.store).projections
        invariant OnlyRowsWritten(db.trace, old(db.trace), old(db.store))
        invariant Stepwise(db.hashing, t, run, CLEARING, db.trace, old(db.trace))
      {
        ReachedAfter(db.faults, old(db.clock), 3, i);
        PrefixIsPartly(db.hashing, t, run, CLEARING, CLEARING[..i], db.store.tables);
        ghost var middle := db.trace;
        ClearingSucceeds(db.hashing, t, run, i + 1);
        MutateNext(db.hashing, t, run, CLEARING, i);
        PrefixIsPartly(db.hashing, t, run, CLEARING, CLEARING[..i + 1], Mutate(db.hashing, db.store.tables, run, CLEARING[i]).value);
        ok := db.Execute(db.store.(tables := Mutate(db.hashing, db.store.tables, run, CLEARING[i]).value));
        OneMoreStep(db.hashing, t, run, CLEARING, db.trace, middle, db.store);
        StepwiseOn(db.hashing, t, run, CLEARING, db.trace, middle, old(db.trace));
        if !ok {
          return false;
        }
      }
      assert CLEARING[..3] == CLEARING;
      ReachedAfter(db.faults, old(db.clock), 3, 3);
      ok := true;
    }

    /** `begin_rebuild`: unreadable to others first, cleared second. */
    method BeginRebuild() returns (ok: bool)
      modifies this`rebuildingHere, db
      ensures ok <==> !closed && forall i :: old(db.clock) <= i < old(db.clock) + 4 ==> db.faults(i).Acknowledged?
      ensures ok ==> rebuildingHere && db.clock == old(db.clock) + 4
      ensures ok ==> StatusOf(db.hashing, db.store, run) == Some(Rebuilding)
      ensures ok ==> MutateAll(db.hashing, old(db.store).tables, run, CLEARING) == Some(db.store.tables)
      ensures MutateAll(db.hashing, old(db.store).tables, run,
                CLEARING[..if closed || !db.faults(old(db.clock)).Acknowledged? then 0 else Reached(db.faults, old(db.clock) + 1, 3)])
           == Some(db.store.tables)
      ensures rebuildingHere == (old(rebuildingHere) || (!closed && db.faults(old(db.clock)).Acknowledged?))
      ensures Stepwise(db.hashing, old(db.store).tables, run, CLEARING, db.trace, old(db.trace))
      ensures StatusOf(db.hashing, db.store, run) == Some(Rebuilding) || db.store == old(db.store)
      ensures OtherRecordsKept(db.hashing, old(db.store), db.store, run)
      ensures HiddenFromOthers(db.hashing, run, old(db.store), db.trace, old(db.trace))
    {
      hide MutateAll, Partly;
      MutateNone(db.hashing, db.store.tables, run);
      UntouchedIsPartly(db.hashing, db.store.tables, run, CLEARING);
      var marked := SetStatus(Rebuilding, None);
      ghost var middle := db.trace;
      OneMoreStep(db.hashing, old(db.store).tables, run, CLEARING, middle, old(db.trace), db.store);
      if !marked {
        return false;
      }
      rebuildingHere := true;
      ok := Clear();
      StepwiseOn(db.hashing, old(db.store).tables, run, CLEARING, db.trace, middle, old(db.trace));
    }

    method MarkReady() returns (ok: bool)
      modifies this`rebuildingHere, db
      ensures closed ==> !ok && db.store == old(db.store) && db.trace == old(db.trace) && db.clock == old(db.clock)
      ensures !closed ==>
        && ok == db.faults(old(db.clock)).Acknowledged? && db.clock == old(db.clock) + 1
        && db.store == (if db.faults(old(db.clock)).Refused? then old(db.store)
                        else WithStatus(db.hashing, old(db.store), run, Ready, None))
        && db.trace == old(db.trace) + [db.store]
      ensures rebuildingHere == (old(rebuildingHere) && !ok)
    {
      ok := SetStatus(Ready, None);
      if ok {
        rebuildingHere := false;
      }
    }

    method MarkFailed(error: string) returns (ok: bool)
      modifies this`rebuildingHere, db
      ensures closed ==> !ok && db.store == old(db.store) && db.trace == old(db.trace) && db.clock == old(db.clock)
      ensures !closed ==>
        && ok == db.faults(old(db.clock)).Acknowledged? && db.clock == old(db.clock) + 1
        && db.store == (if db.faults(old(db.clock)).Refused? then old(db.store)
                        else WithStatus(db.hashing, old(db.store), run, Failed, Some(error)))
        && db.trace == old(db.trace) + [db.store]
      ensures rebuildingHere == (old(rebuildingHere) && !ok)
    {
      ok := SetStatus(Failed, Some(error));
      if ok {
        rebuildingHere := false;
      }
    }
  }

  lemma MutateNone(h: Hashing, t: Tables, run: RunId)
    ensures MutateAll(h, t, run, CLEARING[..0]) == Some(t)
  {
  }

  /** The states added to a trace share the given status records. */
  ghost predicate OnlyRowsWritten(trace: seq<Store>, before: seq<Store>, s: Store) {
    before <= trace && forall i :: |before| <= i < |trace| ==> trace[i].projections == s.projections
  }

  /** In every state added to a trace the run is being rebuilt, or nothing has changed yet. */
  ghost predicate HiddenFromOthers(h: Hashing, run: RunId, s: Store, trace: seq<Store>, before: seq<Store>) {
    before <= trace && forall i :: |before| <= i < |trace| ==> StatusOf(h, trace[i], run) == Some(Rebuilding) || trace[i] == s
  }
}
