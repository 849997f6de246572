/** What holds over every schedule of every number of handles. */
module LedgerTheorems {
  import opened Wrappers
  import opened Serde
  import opened EventLog
  import opened Ledger
  import opened LedgerCommits
  import opened LedgerRuns

  // ------------------------------------------------------------------
  // Schedules

  datatype World = World(server: Server, handles: map<nat, Handle>)

  datatype Step =
    | Open(id: nat, run: RunId, meta: RunMeta)  // a constructor's first statement
    | Take(id: nat, action: Action)

  const NOTHING := World(Server(Db(map[], map[]), [], map[]), map[])

  function Next(h: Hashing, w: World, step: Step): World {
    match step
    case Open(id, run, meta) =>
      if id in w.handles then w
      else
        var srv := EnsureRun(h, w.server, run, meta);
        if OwnRunRow(h, srv.db, run).Some?
        then World(srv, w.handles[id := Handle(run, 0, None, Opened, [])])
        else World(srv, w.handles)
    case Take(id, action) =>
      if id !in w.handles then w
      else
        var (srv, hd) := Act(h, w.server, w.handles[id], action);
        World(srv, w.handles[id := hd])
  }

  function Run(h: Hashing, w: World, steps: seq<Step>): World {
    if steps == [] then w else Next(h, Run(h, w, steps[..|steps| - 1]), steps[|steps| - 1])
  }

  /** The atomic operation of a step: at a commit or at run creation, and nowhere else. */
  function AtomicOp(h: Hashing, w: World, step: Step): LogOp {
    match step
    case Open(id, run, _) => if id in w.handles || RunKey(h, run) in w.server.db.runs then Keep else CreateRun(run)
    case Take(id, action) => if id in w.handles then StepOp(h, w.server, w.handles[id], action) else Keep
  }

  function AtomicOps(h: Hashing, w: World, steps: seq<Step>): seq<LogOp> {
    if steps == [] then []
    else
      var before := steps[..|steps| - 1];
      AtomicOps(h, w, before) + [AtomicOp(h, Run(h, w, before), steps[|steps| - 1])]
  }

  function SpecRun(logs: map<RunId, Log>, ops: seq<LogOp>): map<RunId, Log> {
    if ops == [] then logs else Spec(SpecRun(logs, ops[..|ops| - 1]), ops[|ops| - 1])
  }

  ghost predicate Sound(h: Hashing, w: World) {
    && Represents(h, w.server.db, w.server.logs)
    && forall id :: id in w.handles ==> HandleHolds(h, w.server, w.handles[id])
  }

  lemma StepSound(h: Hashing, w: World, step: Step)
    requires Sound(h, w)
    ensures Sound(h, Next(h, w, step))
    ensures Next(h, w, step).server.logs == Spec(w.server.logs, AtomicOp(h, w, step))
    ensures Evolves(h, w.server, Next(h, w, step).server)
  {
    hide Represents, HandleHolds, Evolves, Act, StepOp, RunKey, OwnRunRow, EnsureRun;
    var w' := Next(h, w, step);
    SnapshotTracks(h, w.server);
    match step
    case Open(id, run, meta) =>
      if id !in w.handles {
        EnsureRunKeeps(h, w.server, run, meta);
        EnsureRunLogs(h, w.server, run, meta);
        FreshHandleHolds(h, EnsureRun(h, w.server, run, meta), run);
        forall other | other in w.handles ensures HandleHolds(h, w'.server, w.handles[other]) {
          HandleStable(h, w.server, w'.server, w.handles[other]);
        }
      }
    case Take(id, action) =>
      if id in w.handles {
        ActKeeps(h, w.server, w.handles[id], action);
        forall other | other in w.handles && other != id ensures HandleHolds(h, w'.server, w.handles[other]) {
          HandleStable(h, w.server, w'.server, w.handles[other]);
        }
      }
  }

  lemma EnsureRunLogs(h: Hashing, srv: Server, run: RunId, meta: RunMeta)
    ensures EnsureRun(h, srv, run, meta).logs ==
      Spec(srv.logs, if RunKey(h, run) in srv.db.runs then Keep else CreateRun(run))
  {
  }

  lemma FreshHandleHolds(h: Hashing, srv: Server, run: RunId)
    ensures HandleHolds(h, srv, Handle(run, 0, None, Opened, []))
  {
  }

  /** Any interleaving, by any number of handles, keeps the rows representing the logs and refines
      the sequence of atomic operations taken at its commits. */
  lemma {:induction false} SchedulesRefineAtomicOperations(h: Hashing, w: World, steps: seq<Step>)
    requires Sound(h, w)
    ensures Sound(h, Run(h, w, steps))
    ensures Run(h, w, steps).server.logs == SpecRun(w.server.logs, AtomicOps(h, w, steps))
    ensures Evolves(h, w.server, Run(h, w, steps).server)
  {
    hide Sound, Next, AtomicOp, Spec, Evolves;
    if steps == [] {
      SoundRepresents(h, w);
      SnapshotTracks(h, w.server);
    } else {
      var before := steps[..|steps| - 1];
      SchedulesRefineAtomicOperations(h, w, before);
      StepSound(h, Run(h, w, before), steps[|steps| - 1]);
      EvolvesTransitive(h, w.server, Run(h, w, before).server, Run(h, w, steps).server);
      var ops := AtomicOps(h, w, steps);
      assert ops[..|ops| - 1] == AtomicOps(h, w, before);
    }
  }

  lemma SoundRepresents(h: Hashing, w: World)
    requires Sound(h, w)
    ensures Represents(h, w.server.db, w.server.logs)
  {
  }

  lemma ReachableSound(h: Hashing, steps: seq<Step>)
    ensures Sound(h, Run(h, NOTHING, steps))
  {
    SchedulesRefineAtomicOperations(h, NOTHING, steps);
  }

  // ------------------------------------------------------------------
  // Verification of what is stored

  /** In every reachable database every run passes verification and yields its log, whose event
      IDs are distinct. */
  lemma StoredRunsVerify(h: Hashing, db: Db, logs: map<RunId, Log>, run: RunId)
    requires Represents(h, db, logs) && run in logs
    ensures OwnRunRow(h, db, run).Some?
    ensures Verified(h, run, SelectRows(db, run), OwnRunRow(h, db, run).value) == Some(logs[run])
    ensures forall i, j :: 0 <= i < j < |logs[run]| ==> logs[run][i].id != logs[run][j].id
  {
    hide Represents, HeadOf, SelectRows, Verified, Accepted, Chained, RunKey;
    StoredRowsAccepted(h, db, logs, run);
    var row := OwnRunRow(h, db, run).value;
    var verified := Verified(h, run, SelectRows(db, run), row);
    assert verified.Some?;
    AcceptedIsChained(h, run, SelectRows(db, run), row.nextSeq, row.headHash, logs[run]);
    AcceptedIsChained(h, run, SelectRows(db, run), row.nextSeq, row.headHash, verified.value);
    ChainedLogIsUnique(h, run, SelectRows(db, run), verified.value, logs[run]);
    forall i, j | 0 <= i < j < |logs[run]| ensures logs[run][i].id != logs[run][j].id {
      EventIdsDistinct(h, db, logs, run, i, j);
    }
  }

  lemma StoredRowsAccepted(h: Hashing, db: Db, logs: map<RunId, Log>, run: RunId)
    requires Represents(h, db, logs) && run in logs
    ensures OwnRunRow(h, db, run).Some?
    ensures
      var row := OwnRunRow(h, db, run).value;
      Accepted(h, run, SelectRows(db, run), row.nextSeq, row.headHash, logs[run])
  {
    hide HeadOf, SelectRows, Chained, Holds, Belongs;
    assert RunMatches(h, db, run, logs[run]);
    SelectsRows(h, db, logs, run);
    RowsChained(h, run, logs[run]);
  }

  lemma AcceptedIsChained(h: Hashing, run: RunId, rows: seq<EventRow>, nextSeq: int, headHash: Option<string>, log: Log)
    requires Accepted(h, run, rows, nextSeq, headHash, log)
    ensures Chained(h, run, rows, log)
  {
    hide Chained;
  }

  /** Event rows read at one moment and the run row at another, whatever was committed in between:
      if they verify together, the events are the log at the moment of the second read, or the
      two histories exhibit a hash collision. */
  lemma TornReadsAreSafe(h: Hashing, early: Server, late: Server, run: RunId, log: Log)
    requires Represents(h, early.db, early.logs) && Represents(h, late.db, late.logs)
    requires OwnRunRow(h, late.db, run).Some?
    requires Verified(h, run, SelectRows(early.db, run), OwnRunRow(h, late.db, run).value) == Some(log)
    ensures run in late.logs
    ensures log == if run in early.logs then early.logs[run] else []
    ensures log == late.logs[run] || TailCollision(h, run, log, late.logs[run])
  {
    hide HeadOf, SelectRows;
    var then' := if run in early.logs then early.logs[run] else [];
    SelectsRows(h, early.db, early.logs, run);
    RowsChained(h, run, then');
    ChainedLogIsUnique(h, run, SelectRows(early.db, run), log, then');
    assert late.db.runs[RunKey(h, run)].run in late.logs;
    assert RunMatches(h, late.db, run, late.logs[run]);
    HeadDeterminesHistory(h, run, log, late.logs[run]);
  }

  /** The stored chain and head are a function of scope, run and events alone: two databases with
      different histories that hold the same log hold the same rows and the same head. */
  lemma ChainDependsOnlyOnEvents(h: Hashing, a: Db, la: map<RunId, Log>, b: Db, lb: map<RunId, Log>, run: RunId)
    requires Represents(h, a, la) && Represents(h, b, lb)
    requires run in la && run in lb && la[run] == lb[run]
    ensures SelectRows(a, run) == SelectRows(b, run)
    ensures OwnRunRow(h, a, run).Some? && OwnRunRow(h, b, run).Some?
    ensures OwnRunRow(h, a, run).value.headHash == OwnRunRow(h, b, run).value.headHash
    ensures OwnRunRow(h, a, run).value.nextSeq == OwnRunRow(h, b, run).value.nextSeq
  {
    hide HeadOf, SelectRows;
    SelectsRows(h, a, la, run);
    SelectsRows(h, b, lb, run);
    assert RunMatches(h, a, run, la[run]) && RunMatches(h, b, run, lb[run]);
  }

  // ------------------------------------------------------------------
  // What a commit acts on

  /** The log a handle remembers and the current one are the same, or two hashes collide. */
  ghost predicate SameOrCollision(h: Hashing, run: RunId, remembered: Log, current: Log) {
    remembered == current || TailCollision(h, run, remembered, current)
  }

  lemma CheckedHead(h: Hashing, srv: Server, hd: Handle)
    requires Represents(h, srv.db, srv.logs) && HandleHolds(h, srv, hd)
    requires hd.phase.Staged? && !hd.phase.op.ForkOp? && !Conflicted(srv, hd.phase.staged)
    ensures hd.run in srv.logs
    ensures HeadOf(h, hd.run, srv.logs[hd.run]) == hd.headHash == HeadOf(h, hd.run, hd.observed)
    ensures |srv.logs[hd.run]| == hd.nextSeq == |hd.observed|
    ensures OwnRunRow(h, srv.db, hd.run) == OwnRunRow(h, hd.phase.txn.snapshot, hd.run)
  {
    hide HeadOf, Represents, Tracks, Conflicted, Untouched, WriteSet, RunKey;
    NoConflict(srv, hd.phase.staged);
    HeadUntouched(h, srv, hd.phase.txn, hd.run);
  }

  /** An append that commits extends the log the handle last observed by the event, in canonical
      form, even if others truncated and appended in between; or two hashes collide. */
  lemma AppendActsOnObservedLog(h: Hashing, srv: Server, hd: Handle, outcome: Outcome)
    requires Represents(h, srv.db, srv.logs) && HandleHolds(h, srv, hd)
    requires hd.phase.Staged? && hd.phase.op.AppendOp? && !outcome.Refused? && !Conflicted(srv, hd.phase.staged)
    ensures hd.run in srv.logs && Canon(hd.phase.op.event).Some?
    ensures SameOrCollision(h, hd.run, hd.observed, srv.logs[hd.run])
    ensures
      var (srv', hd') := Act(h, srv, hd, Commit(outcome));
      && srv'.logs == srv.logs[hd.run := srv.logs[hd.run] + [Canon(hd.phase.op.event).value]]
      && (outcome.Acknowledged? ==> hd'.observed == srv'.logs[hd.run])
      && (outcome.Unacknowledged? ==> hd' == hd.(phase := Idle))
  {
    hide HeadOf, Represents, Tracks, Conflicted, Stage, Allowed;
    CheckedHead(h, srv, hd);
    CommitKeeps(h, srv, hd, outcome);
    HeadDeterminesHistory(h, hd.run, hd.observed, srv.logs[hd.run]);
  }

  /** A truncation that commits keeps exactly the inclusive prefix ending at the requested event of
      the log the handle last observed, or two hashes or two record keys collide. */
  lemma TruncateActsOnObservedLog(h: Hashing, srv: Server, hd: Handle, outcome: Outcome) returns (cutoff: nat)
    requires Represents(h, srv.db, srv.logs) && HandleHolds(h, srv, hd)
    requires hd.phase.Staged? && hd.phase.op.TruncateOp? && !outcome.Refused? && !Conflicted(srv, hd.phase.staged)
    ensures hd.run in srv.logs && cutoff < |srv.logs[hd.run]|
    ensures SameOrCollision(h, hd.run, hd.observed, srv.logs[hd.run])
    ensures
      var id := srv.logs[hd.run][cutoff].id;
      id == hd.phase.op.eventId || EventKeyClash(h, hd.run, id, hd.phase.op.eventId)
    ensures
      var (srv', hd') := Act(h, srv, hd, Commit(outcome));
      && srv'.logs == srv.logs[hd.run := srv.logs[hd.run][..cutoff + 1]]
      && (outcome.Acknowledged? ==> hd'.observed == srv'.logs[hd.run])
      && (outcome.Unacknowledged? ==> hd' == hd.(phase := Idle))
  {
    hide HeadOf, Represents, Tracks, Conflicted, Stage, EventKey, RunKey;
    CheckedHead(h, srv, hd);
    CommitKeeps(h, srv, hd, outcome);
    TruncateCommits(h, srv, hd.run, hd.nextSeq, hd.headHash, hd.phase.op.eventId, hd.phase.txn);
    HeadDeterminesHistory(h, hd.run, hd.observed, srv.logs[hd.run]);
    cutoff := hd.phase.txn.snapshot.events[EventKey(h, hd.run, hd.phase.op.eventId)].position;
  }

  /** A fork that commits adds one run, whose log is the inclusive prefix of the parent's log as it
      stands at the commit, ending at the requested event; or two hashes collide.  The parent and
      every other log stay as they are, and so does every head any handle could remember. */
  lemma ForkCopiesPrefix(h: Hashing, srv: Server, hd: Handle, outcome: Outcome)
    requires Represents(h, srv.db, srv.logs) && HandleHolds(h, srv, hd)
    requires hd.phase.Staged? && hd.phase.op.ForkOp? && !outcome.Refused? && !Conflicted(srv, hd.phase.staged)
    ensures hd.run in srv.logs && hd.phase.op.plan.child !in srv.logs
    ensures
      var plan := hd.phase.op.plan;
      var parent := srv.logs[hd.run];
      && (plan.seen == parent || TailCollision(h, hd.run, plan.seen, parent))
      && (plan.seen == parent ==> plan.cutoff < |parent| && Prefix(plan) == parent[..plan.cutoff + 1])
      && plan.meta.forkedAt == Some(plan.seen[plan.cutoff].id)
    ensures
      var (srv', hd') := Act(h, srv, hd, Commit(outcome));
      && srv'.logs == srv.logs[hd.phase.op.plan.child := Prefix(hd.phase.op.plan)]
      && Represents(h, srv'.db, srv'.logs)
      && hd' == hd.(phase := Idle)
  {
    hide HeadOf, Represents, Tracks, Conflicted, Stage, EventKey, RunKey, FreshKeys;
    CommitActs(h, srv, hd, outcome);
    ForkCommits(h, srv, hd.run, hd.nextSeq, hd.headHash, hd.phase.op.plan, hd.phase.txn);
    HeadDeterminesHistory(h, hd.run, hd.phase.op.plan.seen, srv.logs[hd.run]);
  }

  // ------------------------------------------------------------------
  // Lost acknowledgements

  /** A step that ends without an acknowledged commit leaves what the handle remembers; one that
      ends without any commit leaves the server too. */
  lemma AbortsChangeNothing(h: Hashing, srv: Server, hd: Handle, action: Action)
    requires !hd.phase.Verifying?
    ensures action != Commit(Acknowledged) ==>
      var hd' := Act(h, srv, hd, action).1;
      hd'.nextSeq == hd.nextSeq && hd'.headHash == hd.headHash && hd'.observed == hd.observed
    ensures !action.UpsertRun? && (action.Commit? && hd.phase.Staged? ==> action.outcome.Refused? || Conflicted(srv, hd.phase.staged)) ==>
      Act(h, srv, hd, action).0 == srv
  {
    hide Upsert, Conflicted, Stage, Committed, PlanFork, SelectRows, OpOf;
  }

  /** The current log is not the one the handle remembers, and no hash collision hides it. */
  ghost predicate Stale(h: Hashing, srv: Server, hd: Handle) {
    hd.run in srv.logs && !SameOrCollision(h, hd.run, hd.observed, srv.logs[hd.run])
  }

  ghost predicate AppendsOrCuts(op: LogOp) { op.Extend? || op.Cut? }

  /** Throughout the schedule the handle is open and stale, before each of its steps. */
  ghost predicate StaysStale(h: Hashing, w: World, id: nat, steps: seq<Step>) {
    forall i :: 0 <= i < |steps| ==>
      var now := Run(h, w, steps[..i]);
      id in now.handles && !now.handles[id].phase.Verifying? && Stale(h, now.server, now.handles[id])
  }

  lemma StaleStep(h: Hashing, w: World, id: nat, step: Step)
    requires Sound(h, w) && id in w.handles && !w.handles[id].phase.Verifying? && Stale(h, w.server, w.handles[id])
    ensures step.Take? && step.id == id ==> !AppendsOrCuts(AtomicOp(h, w, step))
    ensures id in Next(h, w, step).handles
    ensures
      var hd, hd' := w.handles[id], Next(h, w, step).handles[id];
      hd'.nextSeq == hd.nextSeq && hd'.headHash == hd.headHash && hd'.observed == hd.observed
  {
    hide Represents, Tracks, Conflicted, TailCollision, Stage, HeadOf, PlanFork, SelectRows, Stageable;
    if step.Take? && step.id == id {
      var hd := w.handles[id];
      AbortsChangeNothing(h, w.server, hd, step.action);
      if step.action.Commit? && hd.phase.Staged? && !step.action.outcome.Refused? && !Conflicted(w.server, hd.phase.staged) {
        if hd.phase.op.AppendOp? {
          AppendActsOnObservedLog(h, w.server, hd, step.action.outcome);
        } else if hd.phase.op.TruncateOp? {
          var _ := TruncateActsOnObservedLog(h, w.server, hd, step.action.outcome);
        }
      }
    }
  }

  /** An append is performed at most once.  When its commit takes effect but is not acknowledged,
      the handle keeps the head it remembered; as long as the log is not exactly the one the handle
      observed (or a hash collides), no later step of that handle appends or truncates. */
  lemma {:induction false} LostAcknowledgementIsAtMostOnce(h: Hashing, w: World, id: nat, steps: seq<Step>)
    requires Sound(h, w) && id in w.handles && StaysStale(h, w, id, steps)
    ensures forall i :: 0 <= i < |steps| && steps[i].Take? && steps[i].id == id ==>
      !AppendsOrCuts(AtomicOp(h, Run(h, w, steps[..i]), steps[i]))
    ensures id in Run(h, w, steps).handles
    ensures
      var hd, hd' := w.handles[id], Run(h, w, steps).handles[id];
      hd'.nextSeq == hd.nextSeq && hd'.headHash == hd.headHash && hd'.observed == hd.observed
  {
    hide Sound, Next, AtomicOp, Stale;
    if steps != [] {
      var n := |steps| - 1;
      var before := steps[..n];
      forall i | 0 <= i <= n ensures before[..i] == steps[..i] {}
      assert StaysStale(h, w, id, before);
      LostAcknowledgementIsAtMostOnce(h, w, id, before);
      SchedulesRefineAtomicOperations(h, w, before);
      StaleStep(h, Run(h, w, before), id, steps[n]);
    }
  }

  /** The step that loses an acknowledgement makes its handle stale at once. */
  lemma UnacknowledgedAppendGoesStale(h: Hashing, srv: Server, hd: Handle)
    requires Represents(h, srv.db, srv.logs) && HandleHolds(h, srv, hd)
    requires hd.phase.Staged? && hd.phase.op.AppendOp? && !Conflicted(srv, hd.phase.staged)
    ensures
      var (srv', hd') := Act(h, srv, hd, Commit(Unacknowledged));
      && Remembers(h, hd') && hd'.observed == hd.observed
      && hd.run in srv'.logs && |srv'.logs[hd.run]| == |hd.observed| + 1
      && (Stale(h, srv', hd') || TailCollision(h, hd.run, hd.observed, srv'.logs[hd.run]))
  {
    hide HeadOf, Represents, Tracks, Conflicted, Stage, Allowed;
    AppendActsOnObservedLog(h, srv, hd, Unacknowledged);
    CheckedHead(h, srv, hd);
    CommitActs(h, srv, hd, Unacknowledged);
  }

  // ------------------------------------------------------------------
  // Isolation

  /** The runs a step of this handle may write: its own, and at a fork's commit the child. */
  ghost predicate Owns(h: Hashing, srv: Server, hd: Handle, action: Action, run: RunId) {
    run == hd.run || (StepOp(h, srv, hd, action).Copy? && run == StepOp(h, srv, hd, action).child)
  }

  lemma EventRowsIsolated(h: Hashing, a: Db, la: map<RunId, Log>, b: Db, lb: map<RunId, Log>, run: RunId)
    requires Represents(h, a, la) && Represents(h, b, lb) && SameAt(lb, la, run)
    ensures forall k :: k in a.events && a.events[k].run == run ==> SameAt(b.events, a.events, k)
    ensures forall k :: k in b.events && b.events[k].run == run ==> SameAt(b.events, a.events, k)
  {
    hide RowAt, HeadOf, EventKey, RunKey, RunMatches;
    forall k | k in a.events && a.events[k].run == run ensures SameAt(b.events, a.events, k) {
      assert Belongs(h, la, k, a.events[k]);
      SameRunRow(h, a, la, b, lb, run, k);
    }
    forall k | k in b.events && b.events[k].run == run ensures SameAt(b.events, a.events, k) {
      assert Belongs(h, lb, k, b.events[k]);
      SameRunRow(h, b, lb, a, la, run, k);
    }
  }

  lemma RunRowsIsolated(h: Hashing, srv: Server, hd: Handle, action: Action)
    requires Represents(h, srv.db, srv.logs) && HandleHolds(h, srv, hd)
    ensures
      var srv' := Act(h, srv, hd, action).0;
      && (forall k :: k in srv.db.runs && srv.db.runs[k].run != hd.run ==> SameAt(srv'.db.runs, srv.db.runs, k))
      && (forall k :: k in srv'.db.runs && k !in srv.db.runs ==> Owns(h, srv, hd, action, srv'.db.runs[k].run))
  {
    hide HeadOf, EventKey, Conflicted, Untouched, WriteSet, SelectRows, PlanFork, FreshKeys, RunMatches, RowAt, NewRow, ChildWrites;
    if action.Commit? && hd.phase.Staged? && !action.outcome.Refused? && !Conflicted(srv, hd.phase.staged) {
      CommitRunRows(h, srv, hd);
      hide Represents, HandleHolds, RunKey;
    } else {
      hide Represents, HandleHolds, RunKey;
    }
  }

  lemma CommitRunRows(h: Hashing, srv: Server, hd: Handle)
    requires Represents(h, srv.db, srv.logs) && HandleHolds(h, srv, hd)
    requires hd.phase.Staged? && !Conflicted(srv, hd.phase.staged)
    ensures
      var Staged(op, txn, staged) := hd.phase;
      && RunKey(h, hd.run) in srv.db.runs && srv.db.runs[RunKey(h, hd.run)].run == hd.run
      && (forall k :: k in staged.runWrites ==>
            k == RunKey(h, hd.run) || (op.ForkOp? && k == RunKey(h, op.plan.child) && k !in srv.db.runs
                                       && staged.runWrites[k].run == op.plan.child))
  {
    hide HeadOf, EventKey, Conflicted, Untouched, WriteSet, FreshKeys, Represents, Tracks, NewRow, ChildWrites, RunKey;
    var Staged(op, txn, staged) := hd.phase;
    NoConflict(srv, staged);
    HeadUntouched(h, srv, txn, hd.run);
    if op.ForkOp? {
      SnapshotRun(h, srv, txn, RunKey(h, op.plan.child));
    }
  }

  /** No step touches a row of another run: rows of other runs stay exactly as they are, and the
      only rows a step adds belong to the handle's own run or, at a fork's commit, to the child. */
  lemma StepsAreIsolated(h: Hashing, srv: Server, hd: Handle, action: Action)
    requires Represents(h, srv.db, srv.logs) && HandleHolds(h, srv, hd)
    ensures
      var srv' := Act(h, srv, hd, action).0;
      && (forall k :: k in srv.db.runs && srv.db.runs[k].run != hd.run ==> SameAt(srv'.db.runs, srv.db.runs, k))
      && (forall k :: k in srv.db.events && srv.db.events[k].run != hd.run ==> SameAt(srv'.db.events, srv.db.events, k))
      && (forall k :: k in srv'.db.runs && k !in srv.db.runs ==> Owns(h, srv, hd, action, srv'.db.runs[k].run))
      && (forall k :: k in srv'.db.events && k !in srv.db.events ==> Owns(h, srv, hd, action, srv'.db.events[k].run))
  {
    hide Act, Represents, HandleHolds, StepOp;
    var srv' := Act(h, srv, hd, action).0;
    ActKeeps(h, srv, hd, action);
    RunRowsIsolated(h, srv, hd, action);
    OtherLogsKept(h, srv, hd, action);
    forall run | run != hd.run && (run in srv.logs || !Owns(h, srv, hd, action, run))
      ensures SameAt(srv'.logs, srv.logs, run)
      ensures forall k :: k in srv.db.events && srv.db.events[k].run == run ==> SameAt(srv'.db.events, srv.db.events, k)
      ensures forall k :: k in srv'.db.events && srv'.db.events[k].run == run ==> SameAt(srv'.db.events, srv.db.events, k)
    {
      EventRowsIsolated(h, srv.db, srv.logs, srv'.db, srv'.logs, run);
    }
    forall k | k in srv.db.events && srv.db.events[k].run != hd.run ensures SameAt(srv'.db.events, srv.db.events, k) {
      BelongsToLog(h, srv.db, srv.logs, k);
    }
  }

  lemma BelongsToLog(h: Hashing, db: Db, logs: map<RunId, Log>, k: string)
    requires Represents(h, db, logs) && k in db.events
    ensures db.events[k].run in logs
  {
    assert Belongs(h, logs, k, db.events[k]);
  }

  lemma OtherLogsKept(h: Hashing, srv: Server, hd: Handle, action: Action)
    requires Represents(h, srv.db, srv.logs) && HandleHolds(h, srv, hd)
    ensures forall run :: run != hd.run && (run in srv.logs || !Owns(h, srv, hd, action, run)) ==>
      SameAt(Act(h, srv, hd, action).0.logs, srv.logs, run)
  {
    hide Represents, Tracks, Conflicted, Stage, HeadOf, Evolves, Act, Stageable;
    ActKeeps(h, srv, hd, action);
    if action.Commit? && hd.phase.Staged? && hd.phase.op.ForkOp? && !action.outcome.Refused? && !Conflicted(srv, hd.phase.staged) {
      ForkCopiesPrefix(h, srv, hd, action.outcome);
    }
  }

  /** Updating run metadata changes no head, no event row and no log of an existing run. */
  lemma UpsertKeepsHeads(h: Hashing, srv: Server, hd: Handle, patch: RunMeta)
    requires Represents(h, srv.db, srv.logs)
    ensures
      var srv' := Upsert(h, srv, hd.run, patch);
      && srv'.db.events == srv.db.events
      && (forall k :: k in srv.db.runs ==>
            && k in srv'.db.runs && srv'.db.runs[k].run == srv.db.runs[k].run
            && srv'.db.runs[k].nextSeq == srv.db.runs[k].nextSeq && srv'.db.runs[k].headHash == srv.db.runs[k].headHash)
      && (hd.run in srv.logs ==> srv'.logs == srv.logs)
  {
    hide HeadOf, RowAt, EventKey, WriteSet, RunMatches, Belongs, MergeMeta;
    if hd.run in srv.logs { RunRowOf(h, srv.db, srv.logs, hd.run); }
    assert Upsert(h, srv, hd.run, patch).db.events == srv.db.events;
  }
}
