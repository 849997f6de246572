/** Handles, their steps, and what holds over every schedule of steps. */
module LedgerRuns {
  import opened Wrappers
  import opened Orders
  import opened Serde
  import opened EventLog
  import opened Ledger
  import opened LedgerCommits

  // ------------------------------------------------------------------
  // Handles

  datatype ForkRequest = ForkRequest(name: string, at: string, title: Option<string>, createdAt: string)

  datatype Phase =
    | Opened                                            // constructor: the run row exists
    | Verifying(rows: seq<EventRow>)                    // constructor: event rows read, run row not yet
    | Idle
    | Surveying(request: ForkRequest, rows: seq<EventRow>) // fork: event rows read, run row not yet
    | Planned(plan: ForkPlan)                           // fork: ready to begin its transaction
    | Begun(op: Op, txn: Txn)
    | Checked(op: Op, txn: Txn)
    | Staged(op: Op, txn: Txn, staged: Txn)
    | Closed

  /** `nextSeq` and `headHash` are the handle's remembered head.  `observed` is an auxiliary
      variable: the log the handle last observed, which no step's choice depends on. */
  datatype Handle = Handle(run: RunId, nextSeq: int, headHash: Option<string>, phase: Phase, observed: Log)

  datatype Action =
    | ReadRows
    | ReadRun
    | BeginAppend(event: Event<Value>)
    | BeginTruncate(eventId: string)
    | Survey(request: ForkRequest)
    | Plan
    | BeginFork
    | Check
    | StageWrites
    | Commit(outcome: Outcome)
    | Cancel
    | UpsertRun(meta: RunMeta)
    | Close

  // ------------------------------------------------------------------
  // Queries outside transactions

  /** `SELECT * FROM ag_event WHERE scope AND run_id ORDER BY seq ASC`. */
  function SelectRows(db: Db, run: RunId): seq<EventRow> {
    var keys := set k | k in db.events && db.events[k].run == run;
    var ordered := SortedByRank(keys, k => if k in db.events then db.events[k].position else 0);
    seq(|ordered|, i requires 0 <= i < |ordered| => assert ordered[i] in ordered; db.events[ordered[i]])
  }

  /** The query returns the rows of the run's log, in order. */
  lemma SelectsRows(h: Hashing, db: Db, logs: map<RunId, Log>, run: RunId)
    requires Represents(h, db, logs)
    ensures SelectRows(db, run) == if run in logs then Rows(h, run, logs[run]) else []
  {
    hide HeadOf, Head, PreimageAt, EventKey, RunKey, SortedByRank;
    var log := if run in logs then logs[run] else [];
    var expected := seq(|log|, i requires 0 <= i < |log| => EventKey(h, run, log[i].id));
    var keys := set k | k in db.events && db.events[k].run == run;
    forall k | k in keys ensures k in expected {
      assert Belongs(h, logs, k, db.events[k]);
      assert expected[db.events[k].position] == k;
    }
    forall i | 0 <= i < |log|
      ensures expected[i] in db.events && db.events[expected[i]] == RowAt(h, run, log, i)
    {
      assert RunMatches(h, db, run, log);
      assert Holds(h, db, run, log, i);
    }
    assert Lists(expected, keys);
    IncreasingRankIsSorted(keys, k => if k in db.events then db.events[k].position else 0, expected);
  }

  /** The events the rows decode to. */
  function DecodeRows(rows: seq<EventRow>): (log: Option<Log>)
    ensures log.Some? ==> |log.value| == |rows|
    ensures (exists i :: 0 <= i < |rows| && RecordToEvent(rows[i].record).None?) ==> log.None?
    ensures log.None? ==> exists i :: 0 <= i < |rows| && RecordToEvent(rows[i].record).None?
    ensures log.Some? ==> forall i :: 0 <= i < |rows| ==> RecordToEvent(rows[i].record) == Some(log.value[i])
  {
    if rows == [] then Some([])
    else
      var n := |rows| - 1;
      var log :- DecodeRows(rows[..n]);
      var last :- RecordToEvent(rows[n].record);
      Some(log + [last])
  }

  /** The outcome of verifying rows against a run row: the log they carry, if they are accepted. */
  function Verified(h: Hashing, run: RunId, rows: seq<EventRow>, row: RunRow): (log: Option<Log>)
    ensures log.Some? ==> Accepted(h, run, rows, row.nextSeq, row.headHash, log.value)
    ensures log.None? ==> forall other :: !Accepted(h, run, rows, row.nextSeq, row.headHash, other)
  {
    var decoded := DecodeRows(rows);
    assert forall other | Chained(h, run, rows, other) :: decoded == Some(other) by {
      forall other | Chained(h, run, rows, other) ensures decoded == Some(other) {
        forall i | 0 <= i < |rows| ensures RecordToEvent(rows[i].record) == Some(other[i]) {
          assert Carries(h, run, rows[i], other[i], i, Head(h, run, other, i));
        }
        assert decoded.value == other;
      }
    }
    if decoded.Some? && Accepted(h, run, rows, row.nextSeq, row.headHash, decoded.value) then decoded else None
  }

  /** The first event with the given ID. */
  function Find(log: Log, id: string): (r: Option<nat>)
    ensures r.Some? ==> r.value < |log| && log[r.value].id == id
    ensures r.None? ==> forall i :: 0 <= i < |log| ==> log[i].id != id
  {
    if log == [] then None
    else if log[0].id == id then Some(0)
    else
      var i :- Find(log[1..], id);
      Some(i + 1)
  }

  function CompactedKind(): string { "runtime.snapshot" }

  /** What `fork_prefix` decides before its transaction. */
  function PlanFork(h: Hashing, db: Db, hd: Handle, request: ForkRequest, rows: seq<EventRow>): Option<ForkPlan> {
    var row :- OwnRunRow(h, db, hd.run);
    var log :- Verified(h, hd.run, rows, row);
    var cutoff :- Find(log, request.at);
    var child := RunId(hd.run.scope, request.name);
    if row.nextSeq != hd.nextSeq || row.headHash != hd.headHash then None
    else if log[0].kind == CompactedKind() then None
    else if RunKey(h, child) in db.runs then None
    else
      var meta := RunMeta(Some(hd.run.name), Some(request.at), request.title, request.createdAt, row.meta.goal, row.meta.frameId);
      Some(ForkPlan(child, meta, |rows|, row.headHash, log, cutoff))
  }

  // ------------------------------------------------------------------
  // Steps

  /** A single statement outside a transaction: it begins and commits at once. */
  function WriteRun(h: Hashing, srv: Server, row: RunRow, logs: map<RunId, Log>): Server {
    Committed(srv, Begin(srv).(runWrites := map[RunKey(h, row.run) := row]), logs)
  }

  function EnsureRun(h: Hashing, srv: Server, run: RunId, meta: RunMeta): Server {
    if RunKey(h, run) in srv.db.runs then srv
    else WriteRun(h, srv, RunRow(run, meta, 0, None), Spec(srv.logs, CreateRun(run)))
  }

  function Coalesce<T>(patch: Option<T>, stored: Option<T>): Option<T> { if patch.Some? then patch else stored }

  /** `None` never clears a stored value, and `created_at` is written on insert only. */
  function MergeMeta(stored: RunMeta, patch: RunMeta): RunMeta {
    RunMeta(
      Coalesce(patch.parent, stored.parent),
      Coalesce(patch.forkedAt, stored.forkedAt),
      Coalesce(patch.title, stored.title),
      stored.createdAt,
      Coalesce(patch.goal, stored.goal),
      Coalesce(patch.frameId, stored.frameId))
  }

  predicate EmptyPatch(patch: RunMeta) {
    patch.parent.None? && patch.forkedAt.None? && patch.title.None? && patch.goal.None? && patch.frameId.None?
  }

  function Upsert(h: Hashing, srv: Server, run: RunId, patch: RunMeta): Server {
    match OwnRunRow(h, srv.db, run)
    case None => EnsureRun(h, srv, run, patch)
    case Some(row) =>
      if EmptyPatch(patch) then srv
      else WriteRun(h, srv, row.(meta := MergeMeta(row.meta, patch)), srv.logs)
  }

  predicate Stageable(h: Hashing, hd: Handle, op: Op, txn: Txn) {
    Encodable(op) && Allowed(h, hd.run, hd.nextSeq, hd.headHash, op, txn.snapshot)
  }

  /** After an acknowledged append or truncate the handle remembers the head it wrote. */
  function Advance(h: Hashing, hd: Handle, op: Op, staged: Txn, logs: map<RunId, Log>): (hd': Handle)
    ensures hd'.run == hd.run
  {
    var k := RunKey(h, hd.run);
    if op.ForkOp? || k !in staged.runWrites || hd.run !in logs then hd.(phase := Idle)
    else Handle(hd.run, staged.runWrites[k].nextSeq, staged.runWrites[k].headHash, Idle, logs[hd.run])
  }

  /** One step of one handle. */
  function Act(h: Hashing, srv: Server, hd: Handle, action: Action): (Server, Handle) {
    match (action, hd.phase)
    case (ReadRows, Opened) => (srv, hd.(phase := Verifying(SelectRows(srv.db, hd.run))))
    case (ReadRun, Verifying(rows)) =>
      (match OwnRunRow(h, srv.db, hd.run)
       case None => (srv, hd.(phase := Closed))
       case Some(row) =>
         match Verified(h, hd.run, rows, row)
         case None => (srv, hd.(phase := Closed))
         case Some(log) => (srv, Handle(hd.run, row.nextSeq, row.headHash, Idle, log)))
    case (BeginAppend(e), Idle) =>
      if Canon(e).Some? then (srv, hd.(phase := Begun(AppendOp(e), Begin(srv)))) else (srv, hd)
    case (BeginTruncate(id), Idle) => (srv, hd.(phase := Begun(TruncateOp(id), Begin(srv))))
    case (Survey(request), Idle) => (srv, hd.(phase := Surveying(request, SelectRows(srv.db, hd.run))))
    case (Plan, Surveying(request, rows)) =>
      (match PlanFork(h, srv.db, hd, request, rows)
       case None => (srv, hd.(phase := Idle))
       case Some(plan) => (srv, hd.(phase := Planned(plan))))
    case (BeginFork, Planned(plan)) => (srv, hd.(phase := Begun(ForkOp(plan), Begin(srv))))
    case (Check, Begun(op, txn)) =>
      (srv, hd.(phase := if Stageable(h, hd, op, txn) then Checked(op, txn) else Idle))
    case (StageWrites, Checked(op, txn)) =>
      if Stageable(h, hd, op, txn)
      then (srv, hd.(phase := Staged(op, txn, Stage(h, hd.run, hd.nextSeq, hd.headHash, op, txn))))
      else (srv, hd)
    case (Commit(outcome), Staged(op, txn, staged)) =>
      if outcome.Refused? || Conflicted(srv, staged) then (srv, hd.(phase := Idle))
      else
        var srv' := Committed(srv, staged, Spec(srv.logs, OpOf(h, hd.run, op, txn.snapshot)));
        (srv', if outcome.Acknowledged? then Advance(h, hd, op, staged, srv'.logs) else hd.(phase := Idle))
    case (Cancel, _) => (srv, if hd.phase.Opened? || hd.phase.Verifying? || hd.phase.Closed? then hd else hd.(phase := Idle))
    case (UpsertRun(meta), Idle) => (Upsert(h, srv, hd.run, meta), hd)
    case (Close, _) => (srv, hd.(phase := Closed))
    case _ => (srv, hd)
  }

  /** The atomic operation on logs that a step performs: only commits and run creation have one. */
  function StepOp(h: Hashing, srv: Server, hd: Handle, action: Action): LogOp {
    match (action, hd.phase)
    case (Commit(outcome), Staged(op, txn, staged)) =>
      if outcome.Refused? || Conflicted(srv, staged) then Keep else OpOf(h, hd.run, op, txn.snapshot)
    case (UpsertRun(_), Idle) => if RunKey(h, hd.run) in srv.db.runs then Keep else CreateRun(hd.run)
    case _ => Keep
  }

  // ------------------------------------------------------------------
  // Invariants

  ghost predicate PlanHolds(h: Hashing, run: RunId, plan: ForkPlan) {
    && plan.count == |plan.seen| && plan.headHash == HeadOf(h, run, plan.seen)
    && plan.cutoff < |plan.seen| && plan.meta.forkedAt == Some(plan.seen[plan.cutoff].id)
  }

  ghost predicate OpHolds(h: Hashing, run: RunId, op: Op) {
    Encodable(op) && (op.ForkOp? ==> PlanHolds(h, run, op.plan))
  }

  ghost predicate PhaseHolds(h: Hashing, srv: Server, hd: Handle) {
    match hd.phase
    case Planned(plan) => PlanHolds(h, hd.run, plan)
    case Begun(op, txn) => OpHolds(h, hd.run, op) && Tracks(h, srv, txn)
    case Checked(op, txn) => OpHolds(h, hd.run, op) && Tracks(h, srv, txn) && Stageable(h, hd, op, txn)
    case Staged(op, txn, staged) =>
      && OpHolds(h, hd.run, op) && Tracks(h, srv, txn) && Stageable(h, hd, op, txn)
      && staged == Stage(h, hd.run, hd.nextSeq, hd.headHash, op, txn)
    case _ => true
  }

  /** The remembered head is the head of the log the handle last observed. */
  ghost predicate Remembers(h: Hashing, hd: Handle) {
    hd.nextSeq == |hd.observed| && hd.headHash == HeadOf(h, hd.run, hd.observed)
  }

  ghost predicate HandleHolds(h: Hashing, srv: Server, hd: Handle) {
    Remembers(h, hd) && PhaseHolds(h, srv, hd)
  }

  /** How a server may have changed: commits are added, and whatever record they did not write is
      as it was, together with the log of every run whose run row they did not write. */
  ghost predicate Evolves(h: Hashing, srv: Server, srv': Server) {
    && srv.commits <= srv'.commits
    && (forall k :: Untouched(srv', |srv.commits|, RunRef(k)) ==> SameAt(srv'.db.runs, srv.db.runs, k))
    && (forall k :: Untouched(srv', |srv.commits|, EventRef(k)) ==> SameAt(srv'.db.events, srv.db.events, k))
    && (forall run :: Untouched(srv', |srv.commits|, RunRef(RunKey(h, run))) ==> SameAt(srv'.logs, srv.logs, run))
  }

  lemma UntouchedSplits(srv: Server, srv': Server, since: nat, ref: Ref)
    requires srv.commits <= srv'.commits && since <= |srv.commits| && Untouched(srv', since, ref)
    ensures Untouched(srv, since, ref) && Untouched(srv', |srv.commits|, ref)
  {
    assert forall i :: since <= i < |srv.commits| ==> srv.commits[i] == srv'.commits[i];
  }

  lemma TracksStable(h: Hashing, srv: Server, srv': Server, txn: Txn)
    requires Tracks(h, srv, txn) && Evolves(h, srv, srv')
    ensures Tracks(h, srv', txn)
  {
    hide Untouched, Represents, RunKey;
    forall k | Untouched(srv', txn.began, RunRef(k)) ensures SameAt(srv'.db.runs, txn.snapshot.runs, k) {
      UntouchedSplits(srv, srv', txn.began, RunRef(k));
    }
    forall k | Untouched(srv', txn.began, EventRef(k)) ensures SameAt(srv'.db.events, txn.snapshot.events, k) {
      UntouchedSplits(srv, srv', txn.began, EventRef(k));
    }
    forall run | Untouched(srv', txn.began, RunRef(RunKey(h, run))) ensures SameAt(srv'.logs, txn.base, run) {
      UntouchedSplits(srv, srv', txn.began, RunRef(RunKey(h, run)));
    }
  }

  lemma EvolvesTransitive(h: Hashing, a: Server, b: Server, c: Server)
    requires Evolves(h, a, b) && Evolves(h, b, c)
    ensures Evolves(h, a, c)
  {
    hide Untouched, RunKey;
    forall k | Untouched(c, |a.commits|, RunRef(k)) ensures SameAt(c.db.runs, a.db.runs, k) {
      UntouchedSplits(b, c, |a.commits|, RunRef(k));
    }
    forall k | Untouched(c, |a.commits|, EventRef(k)) ensures SameAt(c.db.events, a.db.events, k) {
      UntouchedSplits(b, c, |a.commits|, EventRef(k));
    }
    forall run | Untouched(c, |a.commits|, RunRef(RunKey(h, run))) ensures SameAt(c.logs, a.logs, run) {
      UntouchedSplits(b, c, |a.commits|, RunRef(RunKey(h, run)));
    }
  }

  /** What one handle knows is not disturbed by what others do. */
  lemma HandleStable(h: Hashing, srv: Server, srv': Server, hd: Handle)
    requires HandleHolds(h, srv, hd) && Evolves(h, srv, srv')
    ensures HandleHolds(h, srv', hd)
  {
    hide Evolves, Tracks, Stage, Allowed, HeadOf;
    match hd.phase
    case Begun(_, txn) => TracksStable(h, srv, srv', txn);
    case Checked(_, txn) => TracksStable(h, srv, srv', txn);
    case Staged(_, txn, _) => TracksStable(h, srv, srv', txn);
    case _ =>
  }

  lemma CommitEvolves(h: Hashing, srv: Server, txn: Txn, logs: map<RunId, Log>)
    requires forall run :: RunKey(h, run) !in txn.runWrites ==> SameAt(logs, srv.logs, run)
    ensures Evolves(h, srv, Committed(srv, txn, logs))
  {
    var srv' := Committed(srv, txn, logs);
    assert srv'.commits[|srv.commits|] == WriteSet(txn);
    forall ref | Untouched(srv', |srv.commits|, ref) ensures ref !in WriteSet(txn) {}
    forall k | Untouched(srv', |srv.commits|, RunRef(k)) ensures k !in txn.runWrites {
      assert RunRef(k) !in WriteSet(txn);
    }
    forall k | Untouched(srv', |srv.commits|, EventRef(k)) ensures k !in txn.eventWrites {
      assert EventRef(k) !in WriteSet(txn);
    }
  }

  // ------------------------------------------------------------------
  // Every step keeps the invariants and refines one atomic operation

  lemma SnapshotTracks(h: Hashing, srv: Server)
    requires Represents(h, srv.db, srv.logs)
    ensures Tracks(h, srv, Begin(srv)) && Evolves(h, srv, srv)
  {
    hide Represents;
  }

  lemma CommitKeeps(h: Hashing, srv: Server, hd: Handle, outcome: Outcome)
    requires Represents(h, srv.db, srv.logs) && HandleHolds(h, srv, hd) && hd.phase.Staged?
    requires !outcome.Refused? && !Conflicted(srv, hd.phase.staged)
    ensures
      var Staged(op, txn, staged) := hd.phase;
      var logs := Spec(srv.logs, OpOf(h, hd.run, op, txn.snapshot));
      && hd.run in srv.logs && hd.run in logs
      && Represents(h, Apply(srv.db, staged), logs)
      && (forall run :: RunKey(h, run) !in staged.runWrites ==> SameAt(logs, srv.logs, run))
      && RunKey(h, hd.run) in staged.runWrites
  {
    hide Represents, Tracks, Conflicted, HeadOf, NewRow, ChildWrites, FreshKeys, EventKey, RunKey;
    var Staged(op, txn, staged) := hd.phase;
    match op
    case AppendOp(e) => AppendCommits(h, srv, hd.run, hd.nextSeq, hd.headHash, e, txn);
    case TruncateOp(id) => TruncateCommits(h, srv, hd.run, hd.nextSeq, hd.headHash, id, txn);
    case ForkOp(plan) => ForkCommits(h, srv, hd.run, hd.nextSeq, hd.headHash, plan, txn);
  }

  /** After an acknowledged commit the handle remembers the head of the log it produced. */
  lemma AdvanceRemembers(h: Hashing, srv: Server, hd: Handle)
    requires Represents(h, srv.db, srv.logs) && HandleHolds(h, srv, hd) && hd.phase.Staged?
    requires !Conflicted(srv, hd.phase.staged)
    ensures
      var Staged(op, txn, staged) := hd.phase;
      Remembers(h, Advance(h, hd, op, staged, Spec(srv.logs, OpOf(h, hd.run, op, txn.snapshot))))
  {
    hide HeadOf, Tracks, Conflicted, Stage, Allowed, EventKey, RunKey, OpOf;
    var Staged(op, txn, staged) := hd.phase;
    var logs := Spec(srv.logs, OpOf(h, hd.run, op, txn.snapshot));
    CommitKeeps(h, srv, hd, Acknowledged);
    assert RunMatches(h, Apply(srv.db, staged), hd.run, logs[hd.run]);
    assert Apply(srv.db, staged).runs[RunKey(h, hd.run)] == staged.runWrites[RunKey(h, hd.run)];
  }

  lemma EnsureRunKeeps(h: Hashing, srv: Server, run: RunId, meta: RunMeta)
    requires Represents(h, srv.db, srv.logs)
    ensures Represents(h, EnsureRun(h, srv, run, meta).db, EnsureRun(h, srv, run, meta).logs)
    ensures Evolves(h, srv, EnsureRun(h, srv, run, meta))
  {
    hide Represents, Evolves, RunKey;
    if RunKey(h, run) in srv.db.runs {
      SnapshotTracks(h, srv);
    } else {
      CreateRepresents(h, srv.db, srv.logs, run, meta);
      var txn := Begin(srv).(runWrites := map[RunKey(h, run) := RunRow(run, meta, 0, None)]);
      assert Apply(srv.db, txn) == CreateRows(h, srv.db, run, meta);
      CommitEvolves(h, srv, txn, Spec(srv.logs, CreateRun(run)));
    }
  }

  /** Rewriting the metadata of a run row disturbs no log. */
  lemma MetaRepresents(h: Hashing, db: Db, logs: map<RunId, Log>, run: RunId, meta: RunMeta)
    requires Represents(h, db, logs) && OwnRunRow(h, db, run).Some?
    ensures Represents(h, db.(runs := db.runs[RunKey(h, run) := db.runs[RunKey(h, run)].(meta := meta)]), logs)
  {
    hide HeadOf, RowAt, EventKey, RunKey;
    var db' := db.(runs := db.runs[RunKey(h, run) := db.runs[RunKey(h, run)].(meta := meta)]);
    forall other | other in logs ensures RunMatches(h, db', other, logs[other]) {
      assert RunMatches(h, db, other, logs[other]);
      forall i | 0 <= i < |logs[other]| ensures Holds(h, db', other, logs[other], i) {
        assert Holds(h, db, other, logs[other], i);
      }
    }
  }

  lemma UpsertKeeps(h: Hashing, srv: Server, run: RunId, patch: RunMeta)
    requires Represents(h, srv.db, srv.logs)
    ensures Represents(h, Upsert(h, srv, run, patch).db, Upsert(h, srv, run, patch).logs)
    ensures Evolves(h, srv, Upsert(h, srv, run, patch))
  {
    hide Represents, Evolves, RunKey;
    match OwnRunRow(h, srv.db, run)
    case None => EnsureRunKeeps(h, srv, run, patch);
    case Some(row) =>
      if EmptyPatch(patch) {
        SnapshotTracks(h, srv);
      } else {
        var meta := MergeMeta(row.meta, patch);
        MetaRepresents(h, srv.db, srv.logs, run, meta);
        var txn := Begin(srv).(runWrites := map[RunKey(h, run) := row.(meta := meta)]);
        assert Apply(srv.db, txn) == srv.db.(runs := srv.db.runs[RunKey(h, run) := row.(meta := meta)]);
        CommitEvolves(h, srv, txn, srv.logs);
      }
  }

  lemma CommitActs(h: Hashing, srv: Server, hd: Handle, outcome: Outcome)
    requires Represents(h, srv.db, srv.logs) && HandleHolds(h, srv, hd) && hd.phase.Staged?
    ensures
      var (srv', hd') := Act(h, srv, hd, Commit(outcome));
      && Represents(h, srv'.db, srv'.logs) && HandleHolds(h, srv', hd') && Evolves(h, srv, srv')
      && srv'.logs == Spec(srv.logs, StepOp(h, srv, hd, Commit(outcome)))
  {
    hide Represents, Tracks, Conflicted, HeadOf, Stage, Allowed, Evolves, RunKey, Stageable, OpOf, Apply;
    if outcome.Refused? || Conflicted(srv, hd.phase.staged) {
      SnapshotTracks(h, srv);
    } else {
      CommitKeeps(h, srv, hd, outcome);
      AdvanceRemembers(h, srv, hd);
      CommitEvolves(h, srv, hd.phase.staged, Spec(srv.logs, OpOf(h, hd.run, hd.phase.op, hd.phase.txn.snapshot)));
    }
  }

  /** One step keeps the rows representing the logs, keeps what the handle knows true, and changes
      the logs by exactly one atomic operation. */
  lemma ActKeeps(h: Hashing, srv: Server, hd: Handle, action: Action)
    requires Represents(h, srv.db, srv.logs) && HandleHolds(h, srv, hd)
    ensures
      var (srv', hd') := Act(h, srv, hd, action);
      && Represents(h, srv'.db, srv'.logs) && HandleHolds(h, srv', hd') && Evolves(h, srv, srv')
      && srv'.logs == Spec(srv.logs, StepOp(h, srv, hd, action)) && hd'.run == hd.run
  {
    hide Represents, Tracks, Conflicted, HeadOf, Stage, Allowed, Evolves, RunKey, OpOf, SelectRows, Canon, Committed, Apply,
      PlanFork, Upsert, Advance, Verified, Chained;
    SnapshotTracks(h, srv);
    if action.Plan? && hd.phase.Surveying? {
      PlanForkHolds(h, srv.db, hd, hd.phase.request, hd.phase.rows);
    } else if action.Commit? && hd.phase.Staged? {
      CommitActs(h, srv, hd, action.outcome);
    } else if action.UpsertRun? && hd.phase.Idle? {
      UpsertKeeps(h, srv, hd.run, action.meta);
      UpsertLogs(h, srv, hd.run, action.meta);
    }
  }

  /** A plan is made only for an uncompacted log that has the event and the head the handle
      remembers, and for a child that does not exist. */
  lemma PlanForkHolds(h: Hashing, db: Db, hd: Handle, request: ForkRequest, rows: seq<EventRow>)
    ensures PlanFork(h, db, hd, request, rows).Some? ==> PlanHolds(h, hd.run, PlanFork(h, db, hd, request, rows).value)
    ensures PlanFork(h, db, hd, request, rows).Some? ==>
      var plan := PlanFork(h, db, hd, request, rows).value;
      && plan.seen != [] && plan.seen[0].kind != "runtime.snapshot" && plan.seen[plan.cutoff].id == request.at
      && |plan.seen| == hd.nextSeq && HeadOf(h, hd.run, plan.seen) == hd.headHash
      && plan.child == RunId(hd.run.scope, request.name) && RunKey(h, plan.child) !in db.runs
  {
    hide HeadOf, RunKey, Carries;
  }

  lemma UpsertLogs(h: Hashing, srv: Server, run: RunId, patch: RunMeta)
    ensures Upsert(h, srv, run, patch).logs ==
      Spec(srv.logs, if RunKey(h, run) in srv.db.runs then Keep else CreateRun(run))
  {
  }
}
