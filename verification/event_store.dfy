/** The event store of one run: an object that remembers the head it last observed and whose
    methods read and write a database shared with any number of other handles. */
module EventStore {
  import opened Wrappers
  import opened Serde
  import opened EventLog
  import opened Ledger
  import opened LedgerCommits
  import opened LedgerRuns
  import opened LedgerTheorems
  import opened LedgerProgress

  datatype StoreError =
    | InvalidName
    | ClosedStore
    | NotSerializable
    | ConcurrentWriter
    | DuplicateEvent
    | EventNotFound
    | ForkPointNotFound
    | RunAlreadyExists
    | UnsupportedCompactedRun
    | LedgerIntegrity
    | DatabaseFailure

  datatype CommitResult = Done | Lost | Rejected

  // ------------------------------------------------------------------
  // From one method's statements to steps of the protocol

  /** A transaction begun before any schedule of other handles' steps is still tracked after it. */
  lemma TransactionSurvives(h: Hashing, w: World, during: seq<Step>, hd: Handle, op: Op)
    requires Sound(h, w) && Remembers(h, hd) && OpHolds(h, hd.run, op)
    ensures Sound(h, Run(h, w, during))
    ensures HandleHolds(h, Run(h, w, during).server, hd.(phase := Begun(op, Begin(w.server))))
  {
    hide Sound, Represents, Evolves, Tracks, OpHolds, HeadOf;
    SoundRepresents(h, w);
    SnapshotTracks(h, w.server);
    SchedulesRefineAtomicOperations(h, w, during);
    HandleStable(h, w.server, Run(h, w, during).server, hd.(phase := Begun(op, Begin(w.server))));
  }

  /** The world after a handle outside it has tried to commit. */
  function AfterCommit(h: Hashing, w: World, run: RunId, op: Op, txn: Txn, staged: Txn, outcome: Outcome): World {
    if outcome.Refused? || Conflicted(w.server, staged) then w
    else w.(server := Committed(w.server, staged, Spec(w.server.logs, OpOf(h, run, op, txn.snapshot))))
  }

  lemma CommitSound(h: Hashing, w: World, hd: Handle, outcome: Outcome)
    requires Sound(h, w) && HandleHolds(h, w.server, hd) && hd.phase.Staged?
    ensures
      var Staged(op, txn, staged) := hd.phase;
      var w' := AfterCommit(h, w, hd.run, op, txn, staged, outcome);
      && Sound(h, w') && w'.server == Act(h, w.server, hd, Commit(outcome)).0
      && Remembers(h, Act(h, w.server, hd, Commit(outcome)).1)
  {
    hide Represents, Evolves, PhaseHolds, HeadOf, Conflicted, Committed, Advance, OpOf;
    CommitActs(h, w.server, hd, outcome);
    var srv' := Act(h, w.server, hd, Commit(outcome)).0;
    forall id | id in w.handles ensures HandleHolds(h, srv', w.handles[id]) {
      HandleStable(h, w.server, srv', w.handles[id]);
    }
  }

  lemma NewRowEncodes(h: Hashing, run: RunId, position: int, e: Event<Value>, previous: Option<string>)
    ensures EventToRecord(e).Some? <==> Canon(e).Some?
    ensures EventToRecord(e).Some? <==> NewRow(h, run, position, e, previous).Some?
  {
    EventRoundTrip(e);
    if Canon(e).Some? {
      PreimageSurvivesStorage(run.scope, run.name, position, e, previous);
    }
  }

  /** What `append` stages, statement by statement, is the protocol's staged transaction. */
  lemma AppendStages(h: Hashing, srv: Server, hd: Handle, e: Event<Value>, txn: Txn, staged: Txn)
    requires HandleHolds(h, srv, hd.(phase := Begun(AppendOp(e), txn)))
    requires Allowed(h, hd.run, hd.nextSeq, hd.headHash, AppendOp(e), txn.snapshot)
    requires NewRow(h, hd.run, hd.nextSeq, e, hd.headHash).Some?
    requires staged == txn.(
      eventWrites := map[EventKey(h, hd.run, e.id) := NewRow(h, hd.run, hd.nextSeq, e, hd.headHash)],
      runWrites := map[RunKey(h, hd.run) := OwnRunRow(h, txn.snapshot, hd.run).value.(
                         nextSeq := hd.nextSeq + 1, headHash := Some(NewRow(h, hd.run, hd.nextSeq, e, hd.headHash).value.hash))])
    ensures HandleHolds(h, srv, hd.(phase := Staged(AppendOp(e), txn, staged)))
  {
    hide Tracks, HeadOf, NewRow;
  }

  lemma AppendOutcome(h: Hashing, w: World, hd: Handle, outcome: Outcome)
    requires Sound(h, w) && HandleHolds(h, w.server, hd) && hd.phase.Staged? && hd.phase.op.AppendOp?
    ensures
      var Staged(op, txn, staged) := hd.phase;
      var w' := AfterCommit(h, w, hd.run, op, txn, staged, outcome);
      && Sound(h, w') && Canon(op.event).Some?
      && (w' != w ==> (
            && hd.run in w.server.logs && hd.run in w'.server.logs
            && SameOrCollision(h, hd.run, hd.observed, w.server.logs[hd.run])
            && w'.server.logs == w.server.logs[hd.run := w.server.logs[hd.run] + [Canon(op.event).value]]
            && Remembers(h, Advance(h, hd, op, staged, w'.server.logs))))
      && (w' == w <==> outcome.Refused? || Conflicted(w.server, staged))
  {
    hide Represents, Conflicted, Stage, Allowed, HeadOf, OpOf, Tracks, SameOrCollision;
    CommitSound(h, w, hd, outcome);
    if !outcome.Refused? && !Conflicted(w.server, hd.phase.staged) {
      SoundRepresents(h, w);
      AppendActsOnObservedLog(h, w.server, hd, outcome);
      AdvanceRemembers(h, w.server, hd);
    }
  }

  lemma TruncateStages(h: Hashing, srv: Server, hd: Handle, id: string, txn: Txn, staged: Txn)
    requires HandleHolds(h, srv, hd.(phase := Begun(TruncateOp(id), txn)))
    requires Allowed(h, hd.run, hd.nextSeq, hd.headHash, TruncateOp(id), txn.snapshot)
    requires
      var cutoff := txn.snapshot.events[EventKey(h, hd.run, id)];
      staged == txn.(
        eventWrites := Deletes(txn.snapshot, hd.run, cutoff.position),
        runWrites := map[RunKey(h, hd.run) := OwnRunRow(h, txn.snapshot, hd.run).value.(
                           nextSeq := cutoff.position + 1, headHash := Some(cutoff.hash))])
    ensures HandleHolds(h, srv, hd.(phase := Staged(TruncateOp(id), txn, staged)))
  {
    hide Tracks, HeadOf;
    var cutoff := txn.snapshot.events[EventKey(h, hd.run, id)];
    assert Deletes(txn.snapshot, hd.run, cutoff.position)
        == Stage(h, hd.run, hd.nextSeq, hd.headHash, TruncateOp(id), txn).eventWrites;
  }

  /** A log cut back to the inclusive prefix that ends at the given event. */
  ghost predicate CutAt(h: Hashing, run: RunId, before: Log, after: Log, id: string) {
    && 0 < |after| <= |before| && after == before[..|after|]
    && (after[|after| - 1].id == id || EventKeyClash(h, run, after[|after| - 1].id, id))
  }

  lemma TruncateOutcome(h: Hashing, w: World, hd: Handle, outcome: Outcome)
    requires Sound(h, w) && HandleHolds(h, w.server, hd) && hd.phase.Staged? && hd.phase.op.TruncateOp?
    ensures
      var Staged(op, txn, staged) := hd.phase;
      var w' := AfterCommit(h, w, hd.run, op, txn, staged, outcome);
      && Sound(h, w')
      && (w' != w ==> (
            && hd.run in w.server.logs && hd.run in w'.server.logs
            && SameOrCollision(h, hd.run, hd.observed, w.server.logs[hd.run])
            && CutAt(h, hd.run, w.server.logs[hd.run], w'.server.logs[hd.run], op.eventId)
            && w'.server.logs == w.server.logs[hd.run := w'.server.logs[hd.run]]
            && Remembers(h, Advance(h, hd, op, staged, w'.server.logs))))
      && (w' == w <==> outcome.Refused? || Conflicted(w.server, staged))
  {
    hide Represents, Conflicted, Stage, Allowed, HeadOf, OpOf, Tracks, SameOrCollision, EventKey;
    CommitSound(h, w, hd, outcome);
    if !outcome.Refused? && !Conflicted(w.server, hd.phase.staged) {
      SoundRepresents(h, w);
      var cutoff := TruncateActsOnObservedLog(h, w.server, hd, outcome);
      AdvanceRemembers(h, w.server, hd);
      assert w.server.logs[hd.run][..cutoff + 1][cutoff] == w.server.logs[hd.run][cutoff];
    }
  }

  lemma ForkStages(h: Hashing, srv: Server, hd: Handle, plan: ForkPlan, txn: Txn, staged: Txn)
    requires HandleHolds(h, srv, hd.(phase := Begun(ForkOp(plan), txn)))
    requires Allowed(h, hd.run, hd.nextSeq, hd.headHash, ForkOp(plan), txn.snapshot)
    requires
      var prefix := Prefix(plan);
      staged == txn.(
        runWrites := map[RunKey(h, hd.run) := OwnRunRow(h, txn.snapshot, hd.run).value.(nextSeq := plan.count, headHash := plan.headHash)]
                   + map[RunKey(h, plan.child) := RunRow(plan.child, plan.meta, |prefix|, HeadOf(h, plan.child, prefix))],
        eventWrites := ChildWrites(h, plan.child, prefix, |prefix|))
    ensures HandleHolds(h, srv, hd.(phase := Staged(ForkOp(plan), txn, staged)))
  {
    hide Tracks, HeadOf, ChildWrites, FreshKeys;
  }

  lemma ForkOutcome(h: Hashing, w: World, hd: Handle, outcome: Outcome)
    requires Sound(h, w) && HandleHolds(h, w.server, hd) && hd.phase.Staged? && hd.phase.op.ForkOp?
    ensures
      var Staged(op, txn, staged) := hd.phase;
      var w' := AfterCommit(h, w, hd.run, op, txn, staged, outcome);
      var plan := op.plan;
      && Sound(h, w')
      && (w' != w ==> (
            && hd.run in w.server.logs && plan.child !in w.server.logs
            && SameOrCollision(h, hd.run, plan.seen, w.server.logs[hd.run])
            && w'.server.logs == w.server.logs[plan.child := Prefix(plan)]))
      && (w' == w <==> outcome.Refused? || Conflicted(w.server, staged))
  {
    hide Represents, Conflicted, Stage, Allowed, HeadOf, OpOf, Tracks;
    CommitSound(h, w, hd, outcome);
    if !outcome.Refused? && !Conflicted(w.server, hd.phase.staged) {
      SoundRepresents(h, w);
      ForkCopiesPrefix(h, w.server, hd, outcome);
    }
  }

  lemma AcceptedLength(h: Hashing, run: RunId, rows: seq<EventRow>, nextSeq: int, headHash: Option<string>, log: Log)
    requires Accepted(h, run, rows, nextSeq, headHash, log)
    ensures |rows| == |log| == nextSeq && headHash == HeadOf(h, run, log)
  {
  }

  lemma {:induction false} RunTwice(h: Hashing, w: World, first: seq<Step>, second: seq<Step>)
    ensures Run(h, Run(h, w, first), second) == Run(h, w, first + second)
  {
    if second == [] {
      assert first + second == first;
    } else {
      var n := |second| - 1;
      RunTwice(h, w, first, second[..n]);
      var all := first + second;
      assert all[..|all| - 1] == first + second[..n];
    }
  }

  /** The first `n` child rows have keys of their own, none of them taken. */
  predicate FreshUpTo(h: Hashing, db: Db, child: RunId, log: Log, n: nat)
    requires n <= |log|
  {
    && (forall i :: 0 <= i < n ==> EventKey(h, child, log[i].id) !in db.events)
    && (forall i, j :: 0 <= i < j < n ==> EventKey(h, child, log[i].id) != EventKey(h, child, log[j].id))
  }

  lemma NextFresh(h: Hashing, db: Db, child: RunId, log: Log, n: nat)
    requires n < |log| && FreshUpTo(h, db, child, log, n)
    ensures
      var k := EventKey(h, child, log[n].id);
      FreshUpTo(h, db, child, log, n + 1) <==> k !in db.events && k !in ChildWrites(h, child, log, n)
  {
    hide RowAt, EventKey, ChildWrites;
    ChildWritten(h, child, log, n);
  }

  /** The creates of a fork: each fails if its key is taken in the snapshot or already staged. */
  method StageChild(h: Hashing, db: Db, child: RunId, prefix: Log, rows: seq<EventRow>)
    returns (writes: Option<map<string, Option<EventRow>>>)
    requires rows == Rows(h, child, prefix)
    ensures writes.Some? <==> FreshKeys(h, db, child, prefix)
    ensures writes.Some? ==> writes.value == ChildWrites(h, child, prefix, |prefix|)
  {
    hide RowAt, EventKey;
    var staged: map<string, Option<EventRow>> := map[];
    for i := 0 to |prefix|
      invariant staged == ChildWrites(h, child, prefix, i) && FreshUpTo(h, db, child, prefix, i)
    {
      var k := EventKey(h, child, prefix[i].id);
      NextFresh(h, db, child, prefix, i);
      if k in db.events || k in staged {
        return None;
      }
      staged := staged[k := Some(rows[i])];
    }
    writes := Some(staged);
  }

  /** The events after one event up to another, both optional, the second inclusive. */
  function Between(log: Log, after: Option<string>, until: Option<string>): Option<Log> {
    var first := if after.Some? then Find(log, after.value) else Some(0);
    var last := if until.Some? then Find(log, until.value) else Some(|log|);
    if first.None? || last.None? then None
    else
      var lo := if after.Some? then first.value + 1 else 0;
      var hi := if until.Some? then last.value + 1 else |log|;
      Some(if lo <= hi then log[lo..hi] else [])
  }

  predicate DistinctIds(log: Log) { forall i, j :: 0 <= i < j < |log| ==> log[i].id != log[j].id }

  /** The position of each event ID, built row by row. */
  method Boundaries(log: Log) returns (positions: map<string, nat>)
    requires DistinctIds(log)
    ensures forall id :: id in positions <==> Find(log, id).Some?
    ensures forall id :: id in positions ==> Find(log, id) == Some(positions[id])
  {
    positions := map[];
    for i := 0 to |log|
      invariant forall id :: id in positions ==> positions[id] < i && log[positions[id]].id == id
      invariant forall j :: 0 <= j < i ==> log[j].id in positions
    {
      positions := positions[log[i].id := i];
    }
    forall id ensures id in positions <==> Find(log, id).Some?
      ensures id in positions ==> Find(log, id) == Some(positions[id])
    {
      var found := Find(log, id);
    }
  }

  /** The loop of `iter_events`. */
  method SelectBetween(log: Log, after: Option<string>, until: Option<string>) returns (r: Option<Log>)
    requires DistinctIds(log)
    ensures r == Between(log, after, until)
    ensures r.None? <==> (after.Some? && !Has(log, after.value)) || (until.Some? && !Has(log, until.value))
    ensures r.Some? ==> IsWindow(log, after, until, r.value)
  {
    hide Find, Clip, DistinctIds, IsWindow, Has;
    BetweenIsWindow(log, after, until);
    var positions := Boundaries(log);
    if (after.Some? && after.value !in positions) || (until.Some? && until.value !in positions) {
      return None;
    }
    ghost var lo: nat := if after.Some? then positions[after.value] + 1 else 0;
    ghost var hi: nat := if until.Some? then positions[until.value] + 1 else |log|;
    var events: Log := [];
    ClipWhole(log, lo, hi);
    for i := 0 to |log|
      invariant events == Clip(log, lo, hi, i)
    {
      ClipStep(log, lo, hi, i);
      if after.Some? && i <= positions[after.value] {
        continue;
      }
      if until.Some? && i > positions[until.value] {
        continue;
      }
      events := events + [log[i]];
    }
    r := Some(events);
  }

  /** The part of `log[lo..hi]` that lies before position `i`. */
  ghost function Clip(log: Log, lo: nat, hi: nat, i: nat): Log
    requires hi <= |log| && i <= |log|
  {
    var end := if i <= hi then i else hi;
    if lo <= end then log[lo..end] else []
  }

  lemma ClipWhole(log: Log, lo: nat, hi: nat)
    requires hi <= |log|
    ensures Clip(log, lo, hi, 0) == []
    ensures Clip(log, lo, hi, |log|) == if lo <= hi then log[lo..hi] else []
  {
  }

  lemma ClipStep(log: Log, lo: nat, hi: nat, i: nat)
    requires hi <= |log| && i < |log|
    ensures Clip(log, lo, hi, i + 1) == if lo <= i < hi then Clip(log, lo, hi, i) + [log[i]] else Clip(log, lo, hi, i)
  {
  }

  /** Some event of the log has this ID. */
  ghost predicate Has(log: Log, id: string) { exists i :: 0 <= i < |log| && log[i].id == id }

  /** Position `i` lies after the event `after` and not after the event `until`. */
  ghost predicate InWindow(log: Log, after: Option<string>, until: Option<string>, i: int) {
    && 0 <= i < |log|
    && (after.Some? ==> exists a :: 0 <= a < i && log[a].id == after.value)
    && (until.Some? ==> exists u :: i <= u < |log| && log[u].id == until.value)
  }

  /** The events at the given increasing positions. */
  ghost predicate Picks(log: Log, positions: seq<int>, events: Log) {
    && |positions| == |events|
    && (forall k :: 0 <= k < |positions| ==> 0 <= positions[k] < |log| && events[k] == log[positions[k]])
    && (forall j, k :: 0 <= j < k < |positions| ==> positions[j] < positions[k])
  }

  /** In log order, exactly the events after one boundary up to and including the other. */
  ghost predicate IsWindow(log: Log, after: Option<string>, until: Option<string>, events: Log) {
    exists positions :: Picks(log, positions, events) && forall i :: i in positions <==> InWindow(log, after, until, i)
  }

  lemma BetweenIsWindow(log: Log, after: Option<string>, until: Option<string>)
    requires DistinctIds(log)
    ensures Between(log, after, until).None? <==> (after.Some? && !Has(log, after.value)) || (until.Some? && !Has(log, until.value))
    ensures Between(log, after, until).Some? ==> IsWindow(log, after, until, Between(log, after, until).value)
  {
    hide Find, DistinctIds, InWindow, IsWindow, Has;
    if after.Some? { FindsHas(log, after.value); }
    if until.Some? { FindsHas(log, until.value); }
    if Between(log, after, until).Some? {
      var lo := if after.Some? then Find(log, after.value).value + 1 else 0;
      var hi := if until.Some? then Find(log, until.value).value + 1 else |log|;
      forall i ensures InWindow(log, after, until, i) <==> lo <= i < hi {
        WindowBounds(log, after, until, lo, hi, i);
      }
      SliceIsWindow(log, after, until, lo, hi);
    }
  }

  lemma FindsHas(log: Log, id: string)
    ensures Find(log, id).Some? <==> Has(log, id)
  {
    var found := Find(log, id);
  }

  lemma WindowBounds(log: Log, after: Option<string>, until: Option<string>, lo: nat, hi: nat, i: int)
    requires DistinctIds(log)
    requires if after.Some? then 0 < lo <= |log| && log[lo - 1].id == after.value else lo == 0
    requires if until.Some? then 0 < hi <= |log| && log[hi - 1].id == until.value else hi == |log|
    ensures InWindow(log, after, until, i) <==> lo <= i < hi
  {
    if lo <= i < hi {
      if after.Some? { assert 0 <= lo - 1 < i && log[lo - 1].id == after.value; }
      if until.Some? { assert i <= hi - 1 < |log| && log[hi - 1].id == until.value; }
    }
  }

  lemma SliceIsWindow(log: Log, after: Option<string>, until: Option<string>, lo: nat, hi: nat)
    requires lo <= |log| && hi <= |log| && forall i :: InWindow(log, after, until, i) <==> lo <= i < hi
    ensures IsWindow(log, after, until, if lo <= hi then log[lo..hi] else [])
  {
    hide InWindow;
    var n := if lo <= hi then hi - lo else 0;
    var events := log[lo..lo + n];
    var positions: seq<int> := seq(n, k => lo + k);
    assert Picks(log, positions, events);
    forall i ensures i in positions <==> InWindow(log, after, until, i) {
      if lo <= i < hi { assert positions[i - lo] == i; }
    }
  }

  /** A log is its part up to any of its events, which ends with that event, and its part after it. */
  lemma SplitsAt(log: Log, id: string)
    requires DistinctIds(log) && Has(log, id)
    ensures Between(log, None, Some(id)).Some? && Between(log, Some(id), None).Some?
    ensures
      var first := Between(log, None, Some(id)).value;
      first != [] && first[|first| - 1].id == id && first + Between(log, Some(id), None).value == log
  {
    hide Find;
  }

  /** What two separate reads yield when they verify together. */
  lemma ReadsVerified(h: Hashing, early: World, late: World, run: RunId, rows: seq<EventRow>, row: RunRow, log: Log)
    requires Sound(h, early) && Sound(h, late)
    requires rows == SelectRows(early.server.db, run) && OwnRunRow(h, late.server.db, run) == Some(row)
    requires Accepted(h, run, rows, row.nextSeq, row.headHash, log)
    ensures run in late.server.logs && SameOrCollision(h, run, log, late.server.logs[run])
    ensures DistinctIds(log)
  {
    hide HeadOf, SelectRows, Represents, Verified, DecodeRows, Carries;
    SoundRepresents(h, early);
    SoundRepresents(h, late);
    var verified := Verified(h, run, rows, row);
    assert verified.Some?;
    ChainedLogIsUnique(h, run, rows, verified.value, log);
    TornReadsAreSafe(h, early.server, late.server, run, log);
    if run in early.server.logs {
      StoredRunsVerify(h, early.server.db, early.server.logs, run);
    }
  }

  // ------------------------------------------------------------------
  // Operations nobody interferes with

  /** The run's log is the one the handle observed, nobody steps in, and commits are acknowledged. */
  ghost predicate Unhindered(h: Hashing, w: World, hd: Handle, during: seq<Step>, outcome: Outcome) {
    during == [] && outcome.Acknowledged? && hd.run in w.server.logs && w.server.logs[hd.run] == hd.observed
  }

  /** The handle then finds the head it expects and every event of its log, and nothing conflicts. */
  lemma UnhinderedFinds(h: Hashing, w: World, hd: Handle, during: seq<Step>, outcome: Outcome)
    requires Sound(h, w) && Remembers(h, hd) && Unhindered(h, w, hd, during, outcome)
    ensures outcome.Acknowledged? && Run(h, w, during) == w
    ensures OwnRunRow(h, w.server.db, hd.run).Some?
    ensures OwnRunRow(h, w.server.db, hd.run).value.nextSeq == hd.nextSeq && OwnRunRow(h, w.server.db, hd.run).value.headHash == hd.headHash
  {
    hide Represents, HeadOf;
    SoundRepresents(h, w);
    HeadRemembered(h, w.server, hd);
  }

  lemma UnhinderedHolds(h: Hashing, w: World, hd: Handle, during: seq<Step>, outcome: Outcome, id: string)
    requires Sound(h, w) && Remembers(h, hd) && Unhindered(h, w, hd, during, outcome) && Find(hd.observed, id).Some?
    ensures EventKey(h, hd.run, id) in w.server.db.events && w.server.db.events[EventKey(h, hd.run, id)].run == hd.run
  {
    hide Represents, HeadOf, EventKey;
    SoundRepresents(h, w);
    StoredAt(h, w.server, hd.run, Find(hd.observed, id).value);
  }

  lemma UnhinderedCommits(h: Hashing, w: World, hd: Handle, during: seq<Step>, outcome: Outcome, txn: Txn)
    requires txn.began == |w.server.commits|
    ensures Unhindered(h, w, hd, during, outcome) ==> !Conflicted(Run(h, w, during).server, txn)
  {
    NothingSince(w.server, txn);
  }

  /** The given value if there is one, else the stored one: a stored value is never cleared. */
  ghost predicate Merged(patch: Option<string>, stored: Option<string>, now: Option<string>) {
    && (patch.Some? ==> now == patch)
    && (patch.None? ==> now == stored)
    && (stored.Some? ==> now.Some?)
  }

  /** An update keeps the run, the creation time, the length and the head, and merges the rest. */
  ghost predicate MetadataMerged(before: RunRow, patch: RunMeta, after: RunRow) {
    && after.run == before.run && after.nextSeq == before.nextSeq && after.headHash == before.headHash
    && after.meta.createdAt == before.meta.createdAt
    && Merged(patch.parent, before.meta.parent, after.meta.parent)
    && Merged(patch.forkedAt, before.meta.forkedAt, after.meta.forkedAt)
    && Merged(patch.title, before.meta.title, after.meta.title)
    && Merged(patch.goal, before.meta.goal, after.meta.goal)
    && Merged(patch.frameId, before.meta.frameId, after.meta.frameId)
  }

  lemma UpsertMerges(h: Hashing, srv: Server, run: RunId, patch: RunMeta)
    requires OwnRunRow(h, srv.db, run).Some?
    ensures OwnRunRow(h, Upsert(h, srv, run, patch).db, run).Some?
    ensures MetadataMerged(OwnRunRow(h, srv.db, run).value, patch, OwnRunRow(h, Upsert(h, srv, run, patch).db, run).value)
  {
    hide RunKey;
  }

  /** A missing run is inserted empty, with the metadata given. */
  lemma UpsertInserts(h: Hashing, srv: Server, run: RunId, patch: RunMeta)
    ensures RunKey(h, run) !in srv.db.runs ==> OwnRunRow(h, Upsert(h, srv, run, patch).db, run) == Some(RunRow(run, patch, 0, None))
  {
    hide RunKey;
  }

  /** The world after a constructor's first statement. */
  function WithRun(h: Hashing, w: World, run: RunId, meta: RunMeta): World { w.(server := EnsureRun(h, w.server, run, meta)) }

  /** It adds the run's empty log if the run is new, and no row of any other run changes. */
  lemma WithRunKeeps(h: Hashing, w: World, run: RunId, meta: RunMeta)
    ensures WithRun(h, w, run, meta).server.logs ==
      if RunKey(h, run) in w.server.db.runs then w.server.logs else w.server.logs[run := []]
    ensures RunKey(h, run) !in w.server.db.runs ==>
      OwnRunRow(h, WithRun(h, w, run, meta).server.db, run) == Some(RunRow(run, meta, 0, None))
    ensures WithRun(h, w, run, meta).server.db.events == w.server.db.events
    ensures forall k :: k in w.server.db.runs ==>
      k in WithRun(h, w, run, meta).server.db.runs && WithRun(h, w, run, meta).server.db.runs[k] == w.server.db.runs[k]
  {
    hide RunKey;
    assert EnsureRun(h, w.server, run, meta).db.events == w.server.db.events;
  }

  /** The constructor gives up before it writes: no name, no scope, or another run's row in the way. */
  predicate Unopenable(h: Hashing, w: World, run: RunId) {
    run.name == "" || run.scope == "" || (RunKey(h, run) in w.server.db.runs && w.server.db.runs[RunKey(h, run)].run != run)
  }

  lemma CreatedRunHasLog(h: Hashing, srv: Server, run: RunId, meta: RunMeta)
    ensures RunKey(h, run) !in srv.db.runs ==> run in EnsureRun(h, srv, run, meta).logs
  {
    hide RunKey;
  }

  /** Two reads with no commit in between verify, and yield the log. */
  lemma QuietReadsVerify(h: Hashing, w: World, run: RunId)
    requires Sound(h, w) && run in w.server.logs
    ensures OwnRunRow(h, w.server.db, run).Some? && Run(h, w, []) == w
    ensures
      var row := OwnRunRow(h, w.server.db, run).value;
      Accepted(h, run, SelectRows(w.server.db, run), row.nextSeq, row.headHash, w.server.logs[run])
  {
    hide Represents, HeadOf, SelectRows, Accepted;
    SoundRepresents(h, w);
    StoredRunsVerify(h, w.server.db, w.server.logs, run);
  }

  lemma NoSteps(h: Hashing, w: World)
    ensures Run(h, w, []) == w
  {
  }

  lemma SameHead(h: Hashing, hd: Handle, plan: ForkPlan)
    requires Remembers(h, hd) && PlanHolds(h, hd.run, plan)
    ensures plan.seen == hd.observed ==> plan.count == hd.nextSeq && plan.headHash == hd.headHash
  {
  }

  /** The handle is up to date, its uncompacted log has the event, the child run does not exist and the keys of its rows are free. */
  ghost predicate Forkable(h: Hashing, w: World, hd: Handle, request: ForkRequest) {
    var child := RunId(hd.run.scope, request.name);
    && Unhindered(h, w, hd, [], Acknowledged) && RunKey(h, child) !in w.server.db.runs
    && Find(hd.observed, request.at).Some? && hd.observed[0].kind != CompactedKind()
    && FreshKeys(h, w.server.db, child, hd.observed[..Find(hd.observed, request.at).value + 1])
  }

  /** The child has been added with the inclusive prefix of what was seen, which is the parent's log. */
  ghost predicate ForkSucceeded(h: Hashing, w: World, w': World, run: RunId, request: ForkRequest, seen: Log) {
    var child := RunId(run.scope, request.name);
    && run in w.server.logs && child !in w.server.logs && SameOrCollision(h, run, seen, w.server.logs[run])
    && Find(seen, request.at).Some?
    && w'.server.logs == w.server.logs[child := seen[..Find(seen, request.at).value + 1]]
  }

  /** Others' steps are all that happened, or the child was added unacknowledged. */
  ghost predicate ForkFailed(h: Hashing, w: World, w': World, run: RunId, request: ForkRequest,
      surveyed: seq<Step>, all: seq<Step>, outcome: Outcome, seen: Log)
  {
    || w' == w || w' == Run(h, w, surveyed) || w' == Run(h, w, all)
    || (outcome.Unacknowledged? && ForkSucceeded(h, Run(h, w, all), w', run, request, seen))
  }

  lemma ForkCommitted(h: Hashing, w: World, w': World, run: RunId, request: ForkRequest, plan: ForkPlan)
    requires plan.child == RunId(run.scope, request.name) && Find(plan.seen, request.at) == Some(plan.cutoff)
    requires run in w.server.logs && plan.child !in w.server.logs && SameOrCollision(h, run, plan.seen, w.server.logs[run])
    requires w'.server.logs == w.server.logs[plan.child := Prefix(plan)]
    ensures ForkSucceeded(h, w, w', run, request, plan.seen)
  {
    hide SameOrCollision, Find;
  }

  /** What the transaction of a fork needs to find. */
  ghost predicate PlanReady(h: Hashing, w: World, hd: Handle, plan: ForkPlan)
    requires plan.cutoff < |plan.seen|
  {
    && Unhindered(h, w, hd, [], Acknowledged) && plan.seen == hd.observed
    && RunKey(h, plan.child) !in w.server.db.runs && FreshKeys(h, w.server.db, plan.child, Prefix(plan))
  }

  lemma ForkablePlanReady(h: Hashing, w: World, hd: Handle, request: ForkRequest, plan: ForkPlan)
    requires plan.cutoff < |plan.seen| && Forkable(h, w, hd, request) && plan.seen == hd.observed
    requires plan.child == RunId(hd.run.scope, request.name) && Find(plan.seen, request.at) == Some(plan.cutoff)
    ensures PlanReady(h, w, hd, plan)
  {
    hide RunKey, FreshKeys, Unhindered, Find;
  }

  // ------------------------------------------------------------------
  // How failures are reported

  /** The run row is there, but not with the head a handle remembers. */
  predicate HeadMoved(h: Hashing, db: Db, hd: Handle) {
    var row := OwnRunRow(h, db, hd.run);
    row.Some? && (row.value.nextSeq != hd.nextSeq || row.value.headHash != hd.headHash)
  }

  /** In terms of logs: the log is not as long as, or has another head than, the one remembered. */
  lemma HeadMovedMeans(h: Hashing, w: World, hd: Handle)
    requires Sound(h, w) && hd.run in w.server.logs
    ensures OwnRunRow(h, w.server.db, hd.run).Some?
    ensures HeadMoved(h, w.server.db, hd) <==>
      |w.server.logs[hd.run]| != hd.nextSeq || HeadOf(h, hd.run, w.server.logs[hd.run]) != hd.headHash
  {
    hide Represents, HeadOf, SelectRows, Verified, Accepted;
    SoundRepresents(h, w);
    StoredRunsVerify(h, w.server.db, w.server.logs, hd.run);
    QuietReadsVerify(h, w, hd.run);
    AcceptedLength(h, hd.run, SelectRows(w.server.db, hd.run), OwnRunRow(h, w.server.db, hd.run).value.nextSeq,
      OwnRunRow(h, w.server.db, hd.run).value.headHash, w.server.logs[hd.run]);
  }

  lemma RememberedHead(h: Hashing, hd: Handle)
    requires Remembers(h, hd)
    ensures hd.nextSeq == |hd.observed| && hd.headHash == HeadOf(h, hd.run, hd.observed)
  {
    hide HeadOf;
  }

  /** Why a fork that nobody disturbs is refused, in the order of the checks: the log is not the one
      remembered, it is compacted, it lacks the event, or the child exists. */
  ghost function ForkRefusal(h: Hashing, w: World, hd: Handle, request: ForkRequest): Option<StoreError>
    requires hd.run in w.server.logs
  {
    var log := w.server.logs[hd.run];
    if |log| != hd.nextSeq || HeadOf(h, hd.run, log) != hd.headHash then Some(ConcurrentWriter)
    else if log != [] && log[0].kind == "runtime.snapshot" then Some(UnsupportedCompactedRun)
    else if !Has(log, request.at) then Some(ForkPointNotFound)
    else if RunKey(h, RunId(hd.run.scope, request.name)) in w.server.db.runs then Some(RunAlreadyExists)
    else None
  }

  /** The child's row names its origin and carries the parent's goal and frame. */
  ghost predicate ChildRow(parent: RunId, request: ForkRequest, parentRow: RunRow, row: RunRow) {
    && row.run == RunId(parent.scope, request.name)
    && row.meta.parent == Some(parent.name) && row.meta.forkedAt == Some(request.at)
    && row.meta.title == request.title && row.meta.createdAt == request.createdAt
    && row.meta.goal == parentRow.meta.goal && row.meta.frameId == parentRow.meta.frameId
  }

  lemma PlannedRow(parent: RunId, request: ForkRequest, parentRow: RunRow, row: RunRow)
    requires row.run == RunId(parent.scope, request.name) && row.meta == ChildMeta(parent, request, parentRow.meta)
    ensures ChildRow(parent, request, parentRow, row)
  {
  }

  lemma ChildRowCommitted(h: Hashing, srv: Server, staged: Txn, logs: map<RunId, Log>, row: RunRow)
    requires RunKey(h, row.run) in staged.runWrites && staged.runWrites[RunKey(h, row.run)] == row
    ensures OwnRunRow(h, Committed(srv, staged, logs).db, row.run) == Some(row)
  {
    hide RunKey, WriteSet;
  }

  // ------------------------------------------------------------------

  /** The database and every handle on it except the ones modelled as objects. */
  class Database {
    const hashing: Hashing
    var world: World

    constructor (hashing: Hashing)
      ensures this.hashing == hashing && Sound(hashing, world)
    {
      this.hashing := hashing;
      this.world := NOTHING;
    }

    /** Other handles take the steps of a schedule. */
    method Interleave(schedule: seq<Step>)
      modifies this
      ensures world == Run(hashing, old(world), schedule)
    {
      for i := 0 to |schedule|
        invariant world == Run(hashing, old(world), schedule[..i])
      {
        world := Next(hashing, world, schedule[i]);
        assert schedule[..i + 1][..i] == schedule[..i];
      }
      assert schedule[..|schedule|] == schedule;
    }

    /** Commit a transaction.  `effect` is auxiliary: the operation the commit stands for. */
    method CommitTransaction(txn: Txn, effect: LogOp, outcome: Outcome) returns (r: CommitResult)
      modifies this
      ensures r == if outcome.Refused? || Conflicted(old(world).server, txn) then Rejected
                   else if outcome.Acknowledged? then Done else Lost
      ensures world == if r.Rejected? then old(world)
                       else old(world).(server := Committed(old(world).server, txn, Spec(old(world).server.logs, effect)))
    {
      if outcome.Refused? || Conflicted(world.server, txn) {
        return Rejected;
      }
      world := world.(server := Committed(world.server, txn, Spec(world.server.logs, effect)));
      r := if outcome.Acknowledged? then Done else Lost;
    }
  }

  class SurrealEventStore {
    const db: Database
    const run: RunId
    var expectedNextSeq: int
    var expectedHeadHash: Option<string>
    var closed: bool
    ghost var observed: Log

    ghost function Remembered(): Handle
      reads this
    {
      Handle(run, expectedNextSeq, expectedHeadHash, Idle, observed)
    }

    ghost predicate Valid()
      reads this, db
    {
      Sound(db.hashing, db.world) && Remembers(db.hashing, Remembered())
    }

    constructor Observing(db: Database, run: RunId, nextSeq: int, headHash: Option<string>, ghost log: Log)
      ensures this.db == db && this.run == run && !closed
      ensures Remembered() == Handle(run, nextSeq, headHash, Idle, log)
    {
      this.db := db;
      this.run := run;
      this.expectedNextSeq := nextSeq;
      this.expectedHeadHash := headHash;
      this.closed := false;
      this.observed := log;
    }

    /** The constructor: make sure the run row exists, read the event rows, then the run row, verify
        them together and remember the head.  Other handles take any steps between the reads. */
    static method Open(db: Database, run: RunId, meta: RunMeta, reading: seq<Step>, finishing: seq<Step>)
      returns (r: Result<SurrealEventStore, StoreError>)
      requires Sound(db.hashing, db.world)
      modifies db
      ensures Sound(db.hashing, db.world)
      ensures run.name == "" || run.scope == "" ==> r == Failure(InvalidName)
      ensures Unopenable(db.hashing, old(db.world), run) ==> r.Failure? && db.world == old(db.world)
      ensures !Unopenable(db.hashing, old(db.world), run) ==>
        db.world == Run(db.hashing, Run(db.hashing, WithRun(db.hashing, old(db.world), run, meta), reading), finishing)
      ensures r.Success? ==>
        && fresh(r.value) && r.value.db == db && r.value.run == run && !r.value.closed && r.value.Valid()
        && run in db.world.server.logs
        && SameOrCollision(db.hashing, run, r.value.observed, db.world.server.logs[run])
      ensures (&& run.name != "" && run.scope != "" && reading == [] && finishing == []
               && (run in old(db.world).server.logs || RunKey(db.hashing, run) !in old(db.world).server.db.runs)) ==>
        r.Success? && r.value.observed == db.world.server.logs[run]
    {
      hide RunKey, Represents, HeadOf, Run, SelectRows, Evolves, SameOrCollision, Chained, Spec, WriteRun, HandleHolds;
      var h := db.hashing;
      if run.name == "" || run.scope == "" {
        return Failure(InvalidName);
      }
      SoundRepresents(h, db.world);
      EnsureRunKeeps(h, db.world.server, run, meta);
      forall id | id in db.world.handles ensures HandleHolds(h, EnsureRun(h, db.world.server, run, meta), db.world.handles[id]) {
        HandleStable(h, db.world.server, EnsureRun(h, db.world.server, run, meta), db.world.handles[id]);
      }
      CreatedRunHasLog(h, db.world.server, run, meta);
      if run in db.world.server.logs { QuietReadsVerify(h, db.world, run); }
      if RunKey(h, run) !in db.world.server.db.runs {
        db.world := db.world.(server := EnsureRun(h, db.world.server, run, meta));
      } else if db.world.server.db.runs[RunKey(h, run)].run != run {
        return Failure(LedgerIntegrity);
      }
      if reading == [] && finishing == [] && run in db.world.server.logs { QuietReadsVerify(h, db.world, run); }
      SchedulesRefineAtomicOperations(h, db.world, reading);
      db.Interleave(reading);
      ghost var early := db.world;
      var rows := SelectRows(db.world.server.db, run);
      SchedulesRefineAtomicOperations(h, db.world, finishing);
      db.Interleave(finishing);
      var row := OwnRunRow(h, db.world.server.db, run);
      if row.None? {
        return Failure(LedgerIntegrity);
      }
      var verified := VerifyRows(h, run, rows, row.value.nextSeq, row.value.headHash);
      if verified.Failure? {
        return Failure(LedgerIntegrity);
      }
      AcceptedLength(h, run, rows, row.value.nextSeq, row.value.headHash, verified.value);
      ReadsVerified(h, early, db.world, run, rows, row.value, verified.value);
      if reading == [] && finishing == [] {
        QuietReadsVerify(h, db.world, run);
        ChainedLogIsUnique(h, run, rows, verified.value, db.world.server.logs[run]);
      }
      var store := new SurrealEventStore.Observing(db, run, row.value.nextSeq, row.value.headHash, verified.value);
      r := Success(store);
    }

    /** `append`.  Other handles take any steps between the begin and the commit. */
    method Append(e: Event<Value>, during: seq<Step>, outcome: Outcome) returns (r: Result<(), StoreError>)
      requires Valid()
      modifies this, db
      ensures Valid()
      ensures old(closed) || Canon(e).None? ==> r.Failure? && db.world == old(db.world) && Remembered() == old(Remembered())
      ensures r.Success? ==>
        var before := Run(db.hashing, old(db.world), during).server.logs;
        && run in before && Canon(e).Some?
        && SameOrCollision(db.hashing, run, old(observed), before[run])
        && db.world.server.logs == before[run := before[run] + [Canon(e).value]]
        && observed == db.world.server.logs[run]
      ensures r.Failure? ==> Remembered() == old(Remembered())
      ensures r.Failure? && !old(closed) && Canon(e).Some? ==>
        var w := Run(db.hashing, old(db.world), during);
        || db.world == w
        || (&& outcome.Unacknowledged? && run in w.server.logs
            && db.world.server.logs == w.server.logs[run := w.server.logs[run] + [Canon(e).value]])
      ensures r.Failure? ==>
        var before := old(db.world).server.db;
        r.error ==
        if Canon(e).None? then NotSerializable
        else if old(closed) then ClosedStore
        else if OwnRunRow(db.hashing, before, run).None? then LedgerIntegrity
        else if HeadMoved(db.hashing, before, old(Remembered())) then ConcurrentWriter
        else if EventKey(db.hashing, run, e.id) in before.events then DuplicateEvent
        else if HeadMoved(db.hashing, db.world.server.db, old(Remembered())) then ConcurrentWriter
        else DatabaseFailure
      ensures HoldsOpaque(e.payload) <==> r == Failure(NotSerializable)
      ensures (|| Canon(e).None? || old(closed) || OwnRunRow(db.hashing, old(db.world).server.db, run).None?
               || HeadMoved(db.hashing, old(db.world).server.db, old(Remembered()))
               || EventKey(db.hashing, run, e.id) in old(db.world).server.db.events) ==> r.Failure?
      ensures (&& Unhindered(db.hashing, old(db.world), old(Remembered()), during, outcome)
               && !old(closed) && Canon(e).Some? && EventKey(db.hashing, run, e.id) !in old(db.world).server.db.events) ==> r.Success?
    {
      hide HoldsOpaque, UniquelyKeyed, Encodes, Unhindered, EventKey, Remembers, Sound, Represents, Stage, Conflicted, HeadOf, OpOf, Tracks, Run, SameOrCollision, NewRow, EventToRecord, Committed;
      var h := db.hashing;
      NewRowEncodes(h, run, expectedNextSeq, e, expectedHeadHash);
      CanonEncodes(e);
      if EventToRecord(e).None? {
        return Failure(NotSerializable);
      }
      if closed {
        return Failure(ClosedStore);
      }
      if Unhindered(h, db.world, Remembered(), during, outcome) { UnhinderedFinds(h, db.world, Remembered(), during, outcome); }
      var op := AppendOp(e);
      var txn := Begin(db.world.server);
      TransactionSurvives(h, db.world, during, Remembered(), op);
      db.Interleave(during);
      var head := OwnRunRow(h, txn.snapshot, run);
      if head.None? {
        return Failure(LedgerIntegrity);
      }
      if head.value.nextSeq != expectedNextSeq || head.value.headHash != expectedHeadHash {
        return Failure(ConcurrentWriter);
      }
      if EventKey(h, run, e.id) in txn.snapshot.events {
        return Failure(DuplicateEvent);
      }
      var created := NewRow(h, run, head.value.nextSeq, e, head.value.headHash).value;
      var staged := txn.(
        eventWrites := map[EventKey(h, run, e.id) := Some(created)],
        runWrites := map[RunKey(h, run) := head.value.(nextSeq := head.value.nextSeq + 1, headHash := Some(created.hash))]);
      AppendStages(h, db.world.server, Remembered(), e, txn, staged);
      UnhinderedCommits(h, old(db.world), Remembered(), during, outcome, staged);
      AppendOutcome(h, db.world, Remembered().(phase := Staged(op, txn, staged)), outcome);
      var committed := db.CommitTransaction(staged, OpOf(h, run, op, txn.snapshot), outcome);
      if !committed.Done? {
        return Failure(WriteFailure());
      }
      expectedNextSeq := head.value.nextSeq + 1;
      expectedHeadHash := Some(created.hash);
      observed := db.world.server.logs[run];
      r := Success(());
    }

    /** How a failed write is reported: as a concurrent writer if the head has moved. */
    function WriteFailure(): StoreError
      reads this, db
    {
      var row := OwnRunRow(db.hashing, db.world.server.db, run);
      if row.Some? && (row.value.nextSeq != expectedNextSeq || row.value.headHash != expectedHeadHash) then ConcurrentWriter
      else DatabaseFailure
    }

    /** `truncate_after`. */
    method TruncateAfter(id: string, during: seq<Step>, outcome: Outcome) returns (r: Result<(), StoreError>)
      requires Valid()
      modifies this, db
      ensures Valid()
      ensures old(closed) ==> r.Failure? && db.world == old(db.world)
      ensures r.Success? ==>
        var before := Run(db.hashing, old(db.world), during).server.logs;
        && run in before && run in db.world.server.logs
        && SameOrCollision(db.hashing, run, old(observed), before[run])
        && CutAt(db.hashing, run, before[run], db.world.server.logs[run], id)
        && db.world.server.logs == before[run := db.world.server.logs[run]]
        && observed == db.world.server.logs[run]
      ensures r.Failure? ==> Remembered() == old(Remembered())
      ensures r.Failure? && !old(closed) ==>
        var w := Run(db.hashing, old(db.world), during);
        || db.world == w
        || (&& outcome.Unacknowledged? && run in w.server.logs && run in db.world.server.logs
            && CutAt(db.hashing, run, w.server.logs[run], db.world.server.logs[run], id)
            && db.world.server.logs == w.server.logs[run := db.world.server.logs[run]])
      ensures r.Failure? ==>
        var before, k := old(db.world).server.db, EventKey(db.hashing, run, id);
        r.error ==
        if old(closed) then ClosedStore
        else if OwnRunRow(db.hashing, before, run).None? then LedgerIntegrity
        else if HeadMoved(db.hashing, before, old(Remembered())) then ConcurrentWriter
        else if k !in before.events then EventNotFound
        else if before.events[k].run != run then LedgerIntegrity
        else if HeadMoved(db.hashing, db.world.server.db, old(Remembered())) then ConcurrentWriter
        else DatabaseFailure
      ensures (|| old(closed) || OwnRunRow(db.hashing, old(db.world).server.db, run).None?
               || HeadMoved(db.hashing, old(db.world).server.db, old(Remembered()))
               || EventKey(db.hashing, run, id) !in old(db.world).server.db.events) ==> r.Failure?
      ensures (&& Unhindered(db.hashing, old(db.world), old(Remembered()), during, outcome)
               && !old(closed) && Find(old(observed), id).Some?) ==> r.Success?
    {
      hide Unhindered, EventKey, Remembers, Find, Sound, Represents, Stage, Conflicted, HeadOf, OpOf, Tracks, Run, SameOrCollision, Committed, CutAt, Deletes;
      var h := db.hashing;
      if closed {
        return Failure(ClosedStore);
      }
      if Unhindered(h, db.world, Remembered(), during, outcome) && Find(observed, id).Some? {
        UnhinderedFinds(h, db.world, Remembered(), during, outcome);
        UnhinderedHolds(h, db.world, Remembered(), during, outcome, id);
      }
      var op := TruncateOp(id);
      var txn := Begin(db.world.server);
      TransactionSurvives(h, db.world, during, Remembered(), op);
      db.Interleave(during);
      var head := OwnRunRow(h, txn.snapshot, run);
      if head.None? {
        return Failure(LedgerIntegrity);
      }
      if head.value.nextSeq != expectedNextSeq || head.value.headHash != expectedHeadHash {
        return Failure(ConcurrentWriter);
      }
      if EventKey(h, run, id) !in txn.snapshot.events {
        return Failure(EventNotFound);
      }
      var cutoff := txn.snapshot.events[EventKey(h, run, id)];
      if cutoff.run != run {
        return Failure(LedgerIntegrity);
      }
      var staged := txn.(
        eventWrites := Deletes(txn.snapshot, run, cutoff.position),
        runWrites := map[RunKey(h, run) := head.value.(nextSeq := cutoff.position + 1, headHash := Some(cutoff.hash))]);
      TruncateStages(h, db.world.server, Remembered(), id, txn, staged);
      UnhinderedCommits(h, old(db.world), Remembered(), during, outcome, staged);
      TruncateOutcome(h, db.world, Remembered().(phase := Staged(op, txn, staged)), outcome);
      var committed := db.CommitTransaction(staged, OpOf(h, run, op, txn.snapshot), outcome);
      if !committed.Done? {
        return Failure(WriteFailure());
      }
      expectedNextSeq := cutoff.position + 1;
      expectedHeadHash := Some(cutoff.hash);
      observed := db.world.server.logs[run];
      r := Success(());
    }

    /** `_verified_rows_and_run`: read the event rows, then the run row, and verify them together.
        Other handles take any steps in between. */
    method VerifiedLog(reading: seq<Step>) returns (r: Result<(RunRow, Log), StoreError>)
      requires Valid()
      modifies db
      ensures Valid() && Remembered() == old(Remembered())
      ensures db.world == if closed then old(db.world) else Run(db.hashing, old(db.world), reading)
      ensures closed ==> r == Failure(ClosedStore)
      ensures !closed && r.Failure? ==> r.error == LedgerIntegrity
      ensures r.Success? ==>
        && OwnRunRow(db.hashing, db.world.server.db, run) == Some(r.value.0)
        && r.value.0.nextSeq == |r.value.1| && r.value.0.headHash == HeadOf(db.hashing, run, r.value.1)
        && DistinctIds(r.value.1)
        && run in db.world.server.logs && SameOrCollision(db.hashing, run, r.value.1, db.world.server.logs[run])
      ensures !closed && reading == [] && run in old(db.world).server.logs ==>
        r.Success? && r.value.1 == old(db.world).server.logs[run] && db.world == old(db.world)
    {
      hide Sound, Represents, HeadOf, Run, SelectRows, SameOrCollision, Chained, RowsSound, DistinctIds;
      var h := db.hashing;
      if closed {
        return Failure(ClosedStore);
      }
      if reading == [] && run in db.world.server.logs { QuietReadsVerify(h, db.world, run); }
      ghost var early := db.world;
      var rows := SelectRows(db.world.server.db, run);
      SchedulesRefineAtomicOperations(h, db.world, reading);
      db.Interleave(reading);
      var row := OwnRunRow(h, db.world.server.db, run);
      if row.None? {
        return Failure(LedgerIntegrity);
      }
      var verified := VerifyRows(h, run, rows, row.value.nextSeq, row.value.headHash);
      if verified.Failure? {
        return Failure(LedgerIntegrity);
      }
      AcceptedLength(h, run, rows, row.value.nextSeq, row.value.headHash, verified.value);
      ReadsVerified(h, early, db.world, run, rows, row.value, verified.value);
      if reading == [] && run in old(db.world).server.logs {
        ChainedLogIsUnique(h, run, rows, verified.value, old(db.world).server.logs[run]);
      }
      r := Success((row.value, verified.value));
    }

    /** The first part of `fork_prefix`: read and verify the parent, then choose what to copy. */
    method SurveyFork(request: ForkRequest, reading: seq<Step>) returns (r: Result<ForkPlan, StoreError>)
      requires Valid()
      modifies db
      ensures Valid()
      ensures db.world == if closed then old(db.world) else Run(db.hashing, old(db.world), reading)
      ensures r.Success? ==>
        && !closed && PlanHolds(db.hashing, run, r.value) && r.value.child == RunId(run.scope, request.name)
        && Find(r.value.seen, request.at) == Some(r.value.cutoff)
      ensures r.Success? ==>
        && r.value.seen != [] && r.value.seen[0].kind != "runtime.snapshot"
        && |r.value.seen| == expectedNextSeq && HeadOf(db.hashing, run, r.value.seen) == expectedHeadHash
        && OwnRunRow(db.hashing, db.world.server.db, run).Some?
        && r.value.meta == ChildMeta(run, request, OwnRunRow(db.hashing, db.world.server.db, run).value.meta)
      ensures closed ==> r == Failure(ClosedStore)
      ensures !closed && reading == [] && run in old(db.world).server.logs ==>
        var refusal := ForkRefusal(db.hashing, old(db.world), old(Remembered()), request);
        refusal == if r.Failure? then Some(r.error) else None
      ensures (!closed && reading == [] && Forkable(db.hashing, old(db.world), old(Remembered()), request)) ==>
        r.Success? && r.value.seen == observed
    {
      hide Has, Remembers, RunKey, FreshKeys, Sound, HeadOf, Run, Find, SameOrCollision;
      var read := VerifiedLog(reading);
      if read.Failure? {
        return Failure(read.error);
      }
      var row, log := read.value.0, read.value.1;
      FindsHas(log, request.at);
      RememberedHead(db.hashing, Remembered());
      if row.nextSeq != expectedNextSeq || row.headHash != expectedHeadHash {
        return Failure(ConcurrentWriter);
      }
      if log != [] && log[0].kind == CompactedKind() {
        return Failure(UnsupportedCompactedRun);
      }
      var cutoff := Find(log, request.at);
      if cutoff.None? {
        return Failure(ForkPointNotFound);
      }
      var child := RunId(run.scope, request.name);
      if RunKey(db.hashing, child) in db.world.server.db.runs {
        return Failure(RunAlreadyExists);
      }
      var meta := RunMeta(Some(run.name), Some(request.at), request.title, request.createdAt, row.meta.goal, row.meta.frameId);
      r := Success(ForkPlan(child, meta, |log|, row.headHash, log, cutoff.value));
    }

    /** The second part of `fork_prefix`: its transaction. */
    method CommitFork(plan: ForkPlan, during: seq<Step>, outcome: Outcome) returns (r: Result<RunId, StoreError>)
      requires Valid() && PlanHolds(db.hashing, run, plan)
      modifies db
      ensures Valid()
      ensures r.Success? ==>
        var before := Run(db.hashing, old(db.world), during).server.logs;
        && r.value == plan.child && run in before && plan.child !in before
        && SameOrCollision(db.hashing, run, plan.seen, before[run])
        && db.world.server.logs == before[plan.child := Prefix(plan)]
      ensures r.Success? ==>
        && OwnRunRow(db.hashing, db.world.server.db, plan.child).Some?
        && OwnRunRow(db.hashing, db.world.server.db, plan.child).value.meta == plan.meta
      ensures r.Failure? ==>
        var w := Run(db.hashing, old(db.world), during);
        || db.world == w
        || (&& outcome.Unacknowledged? && run in w.server.logs && plan.child !in w.server.logs
            && SameOrCollision(db.hashing, run, plan.seen, w.server.logs[run])
            && db.world.server.logs == w.server.logs[plan.child := Prefix(plan)])
      ensures r.Failure? ==>
        var before, after := old(db.world).server.db, db.world.server.db;
        var row := OwnRunRow(db.hashing, before, run);
        r.error ==
        if row.None? then LedgerIntegrity
        else if row.value.nextSeq != plan.count || row.value.headHash != plan.headHash then ConcurrentWriter
        else if RunKey(db.hashing, plan.child) in before.runs || RunKey(db.hashing, plan.child) in after.runs then RunAlreadyExists
        else if HeadMoved(db.hashing, after, old(Remembered())) then ConcurrentWriter
        else DatabaseFailure
      ensures (during == [] && outcome.Acknowledged? && PlanReady(db.hashing, old(db.world), old(Remembered()), plan)) ==> r.Success?
    {
      hide Unhindered, RunKey, Remembers, Sound, Represents, Stage, Conflicted, HeadOf, OpOf, Tracks, Run, SameOrCollision, Committed, FreshKeys, ChildWrites;
      var h := db.hashing;
      var prefix := Prefix(plan);
      var childRows, childHead := ChildRows(h, plan.child, prefix);
      var txn := Begin(db.world.server);
      TransactionSurvives(h, db.world, during, Remembered(), ForkOp(plan));
      if during == [] && outcome.Acknowledged? && PlanReady(h, old(db.world), Remembered(), plan) {
        UnhinderedFinds(h, old(db.world), Remembered(), during, outcome);
        SameHead(h, Remembered(), plan);
      }
      db.Interleave(during);
      var head := OwnRunRow(h, txn.snapshot, run);
      if head.None? {
        return Failure(LedgerIntegrity);
      }
      if head.value.nextSeq != plan.count || head.value.headHash != plan.headHash {
        return Failure(ConcurrentWriter);
      }
      if RunKey(h, plan.child) in txn.snapshot.runs {
        return Failure(RunAlreadyExists);
      }
      var writes := StageChild(h, txn.snapshot, plan.child, prefix, childRows);
      if writes.None? {
        return Failure(ForkFailure(plan.child));
      }
      var staged := txn.(
        runWrites := map[RunKey(h, run) := head.value.(nextSeq := plan.count, headHash := plan.headHash)]
                   + map[RunKey(h, plan.child) := RunRow(plan.child, plan.meta, |prefix|, childHead)],
        eventWrites := writes.value);
      ForkStages(h, db.world.server, Remembered(), plan, txn, staged);
      UnhinderedCommits(h, old(db.world), Remembered(), during, outcome, staged);
      ForkOutcome(h, db.world, Remembered().(phase := Staged(ForkOp(plan), txn, staged)), outcome);
      ChildRowCommitted(h, db.world.server, staged, Spec(db.world.server.logs, OpOf(h, run, ForkOp(plan), txn.snapshot)),
        RunRow(plan.child, plan.meta, |prefix|, childHead));
      var committed := db.CommitTransaction(staged, OpOf(h, run, ForkOp(plan), txn.snapshot), outcome);
      r := if committed.Done? then Success(plan.child) else Failure(ForkFailure(plan.child));
    }

    /** `fork_prefix`.  Other handles take any steps between the two reads, before the transaction
        and during it.  `seen` is the log the reads verified: the child's log is its inclusive
        prefix, and it is the parent's log at the commit unless two hashes collide. */
    method ForkPrefix(request: ForkRequest, reading: seq<Step>, waiting: seq<Step>, during: seq<Step>, outcome: Outcome)
      returns (r: Result<RunId, StoreError>, ghost seen: Log)
      requires Valid()
      modifies db
      ensures Valid()
      ensures r.Success? ==>
        && r.value == RunId(run.scope, request.name)
        && ForkSucceeded(db.hashing, Run(db.hashing, old(db.world), reading + waiting + during), db.world, run, request, seen)
      ensures r.Failure? ==>
        ForkFailed(db.hashing, old(db.world), db.world, run, request, reading, reading + waiting + during, outcome, seen)
      ensures r.Success? ==>
        && seen != [] && seen[0].kind != "runtime.snapshot"
        && |seen| == expectedNextSeq && HeadOf(db.hashing, run, seen) == expectedHeadHash
      ensures r.Success? ==>
        var parent := OwnRunRow(db.hashing, Run(db.hashing, old(db.world), reading).server.db, run);
        && parent.Some? && OwnRunRow(db.hashing, db.world.server.db, r.value).Some?
        && ChildRow(run, request, parent.value, OwnRunRow(db.hashing, db.world.server.db, r.value).value)
      ensures closed ==> r == Failure(ClosedStore) && db.world == old(db.world)
      ensures !closed && reading == [] && run in old(db.world).server.logs ==>
        var refusal := ForkRefusal(db.hashing, old(db.world), old(Remembered()), request);
        refusal.Some? ==> r == Failure(refusal.value) && db.world == old(db.world)
      ensures (&& !closed && reading == [] && waiting == [] && during == [] && outcome.Acknowledged?
               && Forkable(db.hashing, old(db.world), old(Remembered()), request)) ==> r.Success? && seen == observed
    {
      NoSteps(db.hashing, db.world);
      hide ForkRefusal, ChildRow, Forkable, PlanReady, Remembers, Sound, Run, SameOrCollision, Find, PlanHolds, HeadOf, ForkSucceeded;
      ghost var w := db.world;
      var planned := SurveyFork(request, reading);
      if planned.Failure? {
        return Failure(planned.error), [];
      }
      seen := planned.value.seen;
      SchedulesRefineAtomicOperations(db.hashing, db.world, waiting);
      RunTwice(db.hashing, w, reading, waiting);
      RunTwice(db.hashing, w, reading + waiting, during);
      db.Interleave(waiting);
      if !closed && reading == [] && waiting == [] && Forkable(db.hashing, w, old(Remembered()), request) {
        ForkablePlanReady(db.hashing, w, old(Remembered()), request, planned.value);
      }
      r := CommitFork(planned.value, during, outcome);
      ghost var all := Run(db.hashing, w, reading + waiting + during);
      if r.Success? {
        PlannedRow(run, request, OwnRunRow(db.hashing, Run(db.hashing, w, reading).server.db, run).value,
          OwnRunRow(db.hashing, db.world.server.db, r.value).value);
      }
      if r.Success? || db.world != all {
        ForkCommitted(db.hashing, all, db.world, run, request, planned.value);
      }
    }

    function ForkFailure(child: RunId): StoreError
      reads this, db
    {
      if RunKey(db.hashing, child) in db.world.server.db.runs then RunAlreadyExists else WriteFailure()
    }

    /** `iter_events`: the events between two boundaries of the log as it stands when the run row is
        read, or of a log whose head hash collides with it. */
    method IterEvents(after: Option<string>, until: Option<string>, reading: seq<Step>)
      returns (r: Result<Log, StoreError>, ghost seen: Log)
      requires Valid()
      modifies db
      ensures Valid() && Remembered() == old(Remembered())
      ensures db.world == if closed then old(db.world) else Run(db.hashing, old(db.world), reading)
      ensures r.Success? ==>
        && run in db.world.server.logs && SameOrCollision(db.hashing, run, seen, db.world.server.logs[run])
        && Between(seen, after, until) == Some(r.value)
      ensures r.Success? ==> IsWindow(seen, after, until, r.value)
      ensures r == Failure(EventNotFound) ==> Between(seen, after, until).None?
      ensures r == Failure(EventNotFound) ==> (after.Some? && !Has(seen, after.value)) || (until.Some? && !Has(seen, until.value))
      ensures old(closed) ==> r == Failure(ClosedStore)
      ensures !old(closed) && reading == [] && run in old(db.world).server.logs ==>
        r == match Between(db.world.server.logs[run], after, until)
             case Some(events) => Success(events)
             case None => Failure(EventNotFound)
    {
      hide Between, IsWindow, Has, Sound, HeadOf, Run, SameOrCollision, DistinctIds, Remembers;
      var read := VerifiedLog(reading);
      if read.Failure? {
        return Failure(read.error), [];
      }
      seen := read.value.1;
      BetweenIsWindow(seen, after, until);
      var events := SelectBetween(read.value.1, after, until);
      r := if events.Some? then Success(events.value) else Failure(EventNotFound);
    }

    /** `upsert_run`: metadata only; no log and no head changes. */
    method UpsertRunRow(patch: RunMeta) returns (r: Result<(), StoreError>)
      requires Valid()
      modifies db
      ensures Valid() && Remembered() == old(Remembered())
      ensures run in old(db.world).server.logs ==> db.world.server.logs == old(db.world).server.logs
      ensures db.world.server.db.events == old(db.world).server.db.events
      ensures closed ==> r == Failure(ClosedStore)
      ensures r.Failure? ==> db.world == old(db.world)
      ensures !closed ==>
        (r.Success? <==> RunKey(db.hashing, run) in old(db.world).server.db.runs ==> OwnRunRow(db.hashing, old(db.world).server.db, run).Some?)
      ensures r.Success? && RunKey(db.hashing, run) !in old(db.world).server.db.runs ==>
        OwnRunRow(db.hashing, db.world.server.db, run) == Some(RunRow(run, patch, 0, None))
      ensures r.Success? && OwnRunRow(db.hashing, old(db.world).server.db, run).Some? ==>
        && OwnRunRow(db.hashing, db.world.server.db, run).Some?
        && MetadataMerged(OwnRunRow(db.hashing, old(db.world).server.db, run).value, patch,
                          OwnRunRow(db.hashing, db.world.server.db, run).value)
    {
      hide Represents, HeadOf, Evolves, Upsert, HandleHolds, MetadataMerged;
      if closed {
        return Failure(ClosedStore);
      }
      var h := db.hashing;
      if RunKey(h, run) in db.world.server.db.runs && OwnRunRow(h, db.world.server.db, run).None? {
        return Failure(LedgerIntegrity);
      }
      SoundRepresents(h, db.world);
      UpsertKeeps(h, db.world.server, run, patch);
      UpsertKeepsHeads(h, db.world.server, Remembered(), patch);
      UpsertInserts(h, db.world.server, run, patch);
      if OwnRunRow(h, db.world.server.db, run).Some? { UpsertMerges(h, db.world.server, run, patch); }
      forall id | id in db.world.handles ensures HandleHolds(h, Upsert(h, db.world.server, run, patch), db.world.handles[id]) {
        HandleStable(h, db.world.server, Upsert(h, db.world.server, run, patch), db.world.handles[id]);
      }
      db.world := db.world.(server := Upsert(h, db.world.server, run, patch));
      r := Success(());
    }

    method Close()
      modifies this
      ensures closed && Remembered() == old(Remembered())
    {
      closed := true;
    }
  }
}
