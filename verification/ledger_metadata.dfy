/** Metadata updates beside writers of the same run: when they commute, when they abort one. */
module LedgerMetadata {
  import opened Wrappers
  import opened Serde
  import opened EventLog
  import opened Ledger
  import opened LedgerCommits
  import opened LedgerRuns
  import opened LedgerProgress

  // ------------------------------------------------------------------
  // The rows an update and an operation leave

  /** The database with a run's metadata merged with a patch. */
  function WithMeta(h: Hashing, db: Db, run: RunId, patch: RunMeta): Db
    requires RunKey(h, run) in db.runs
  {
    var row := db.runs[RunKey(h, run)];
    db.(runs := db.runs[RunKey(h, run) := row.(meta := MergeMeta(row.meta, patch))])
  }

  /** An update of an existing run merges the metadata of its row and does nothing else. */
  lemma UpsertIsWithMeta(h: Hashing, srv: Server, run: RunId, patch: RunMeta)
    requires OwnRunRow(h, srv.db, run).Some?
    ensures Upsert(h, srv, run, patch).db == WithMeta(h, srv.db, run, patch) && Upsert(h, srv, run, patch).logs == srv.logs
  {
    hide RunKey;
    var row := srv.db.runs[RunKey(h, run)];
    assert EmptyPatch(patch) ==> row.(meta := MergeMeta(row.meta, patch)) == row;
    assert EmptyPatch(patch) ==> WithMeta(h, srv.db, run, patch).runs == srv.db.runs;
    assert Upsert(h, srv, run, patch).db.events == srv.db.events;
  }

  /** The database after a transaction that does nothing but the operation. */
  function After(h: Hashing, db: Db, hd: Handle, op: Op): Db
    requires Encodable(op) && Allowed(h, hd.run, hd.nextSeq, hd.headHash, op, db)
  {
    Apply(db, Stage(h, hd.run, hd.nextSeq, hd.headHash, op, Begin(Server(db, [], map[]))))
  }

  lemma PerformsAfter(h: Hashing, srv: Server, hd: Handle, op: Op)
    requires Represents(h, srv.db, srv.logs) && Remembers(h, hd) && OpHolds(h, hd.run, op)
    requires hd.phase == Begun(op, Begin(srv))
    requires Allowed(h, hd.run, hd.nextSeq, hd.headHash, op, srv.db)
    ensures Perform(h, srv, hd, TRANSACT).0.db == After(h, srv.db, hd, op)
  {
    hide Represents, HeadOf, Allowed, Stage, Conflicted, Perform, PlanHolds, Tracks, Advance, OpOf, Apply;
    TransactionCommits(h, srv, hd, op);
    StagesAlike(h, srv, hd, op);
    AppliesAlike(srv.db, Stage(h, hd.run, hd.nextSeq, hd.headHash, op, Begin(srv)),
      Stage(h, hd.run, hd.nextSeq, hd.headHash, op, Begin(Server(srv.db, [], map[]))));
  }

  lemma StagesAlike(h: Hashing, srv: Server, hd: Handle, op: Op)
    requires Encodable(op) && Allowed(h, hd.run, hd.nextSeq, hd.headHash, op, srv.db)
    ensures
      var a := Stage(h, hd.run, hd.nextSeq, hd.headHash, op, Begin(srv));
      var b := Stage(h, hd.run, hd.nextSeq, hd.headHash, op, Begin(Server(srv.db, [], map[])));
      a.runWrites == b.runWrites && a.eventWrites == b.eventWrites
  {
    hide HeadOf, NewRow, EventKey, RunKey, ChildWrites, FreshKeys;
  }

  lemma AppliesAlike(db: Db, a: Txn, b: Txn)
    requires a.runWrites == b.runWrites && a.eventWrites == b.eventWrites
    ensures Apply(db, a) == Apply(db, b)
  {
  }

  // ------------------------------------------------------------------
  // Commuting with append and truncate

  lemma AppendWithMeta(h: Hashing, db: Db, hd: Handle, e: Event<Value>, run: RunId, patch: RunMeta)
    requires OwnRunRow(h, db, run).Some? && Encodable(AppendOp(e))
    requires Allowed(h, hd.run, hd.nextSeq, hd.headHash, AppendOp(e), db)
    requires Allowed(h, hd.run, hd.nextSeq, hd.headHash, AppendOp(e), WithMeta(h, db, run, patch))
    ensures RunKey(h, run) in After(h, db, hd, AppendOp(e)).runs
    ensures After(h, WithMeta(h, db, run, patch), hd, AppendOp(e)) == WithMeta(h, After(h, db, hd, AppendOp(e)), run, patch)
  {
    hide RunKey, EventKey, MergeMeta, NewRow;
    var a, b := After(h, WithMeta(h, db, run, patch), hd, AppendOp(e)), After(h, db, hd, AppendOp(e));
    assert a.events == b.events;
    assert a.runs == WithMeta(h, b, run, patch).runs;
  }

  lemma TruncateWithMeta(h: Hashing, db: Db, hd: Handle, id: string, run: RunId, patch: RunMeta)
    requires OwnRunRow(h, db, run).Some?
    requires Allowed(h, hd.run, hd.nextSeq, hd.headHash, TruncateOp(id), db)
    requires Allowed(h, hd.run, hd.nextSeq, hd.headHash, TruncateOp(id), WithMeta(h, db, run, patch))
    ensures RunKey(h, run) in After(h, db, hd, TruncateOp(id)).runs
    ensures After(h, WithMeta(h, db, run, patch), hd, TruncateOp(id)) == WithMeta(h, After(h, db, hd, TruncateOp(id)), run, patch)
  {
    hide RunKey, EventKey, MergeMeta;
    var a, b := After(h, WithMeta(h, db, run, patch), hd, TruncateOp(id)), After(h, db, hd, TruncateOp(id));
    assert a.events == b.events;
    assert a.runs == WithMeta(h, b, run, patch).runs;
  }

  /** An update leaves every handle that observed the current log up to date. */
  lemma StaysUpToDate(h: Hashing, srv: Server, hd: Handle, run: RunId, patch: RunMeta)
    requires UpToDate(h, srv, hd) && OwnRunRow(h, srv.db, run).Some?
    ensures UpToDate(h, Upsert(h, srv, run, patch), hd)
    ensures Upsert(h, srv, run, patch).logs == srv.logs && Upsert(h, srv, run, patch).db == WithMeta(h, srv.db, run, patch)
  {
    hide Represents, Evolves, Upsert, HeadOf, WithMeta;
    UpsertKeeps(h, srv, run, patch);
    UpsertIsWithMeta(h, srv, run, patch);
    HandleStable(h, srv, Upsert(h, srv, run, patch), hd);
  }

  /** Updating metadata of any existing run, before or after an uncontended append: the same
      database. */
  lemma UpsertCommutesWithAppend(h: Hashing, srv: Server, hd: Handle, e: Event<Value>, run: RunId, patch: RunMeta)
    requires UpToDate(h, srv, hd) && Canon(e).Some? && EventKey(h, hd.run, e.id) !in srv.db.events
    requires OwnRunRow(h, srv.db, run).Some?
    ensures
      var acts := [BeginAppend(e)] + TRANSACT;
      && OwnRunRow(h, Perform(h, srv, hd, acts).0.db, run).Some?
      && Perform(h, Upsert(h, srv, run, patch), hd, acts).0.db == Upsert(h, Perform(h, srv, hd, acts).0, run, patch).db
  {
    hide Represents, HeadOf, Perform, RunKey, EventKey, Upsert, WithMeta, After, HandleHolds, MergeMeta;
    var up := Upsert(h, srv, run, patch);
    StaysUpToDate(h, srv, hd, run, patch);
    SameEvents(h, srv.db, run, patch);
    AppendPerforms(h, srv, hd, e);
    AppendPerforms(h, up, hd, e);
    AppendWithMeta(h, srv.db, hd, e, run, patch);
    UncontendedAppend(h, srv, hd, e);
    RowSurvives(h, srv, Perform(h, srv, hd, [BeginAppend(e)] + TRANSACT).0, hd, Perform(h, srv, hd, [BeginAppend(e)] + TRANSACT).1, run);
    UpsertIsWithMeta(h, Perform(h, srv, hd, [BeginAppend(e)] + TRANSACT).0, run, patch);
  }

  lemma SameEvents(h: Hashing, db: Db, run: RunId, patch: RunMeta)
    requires RunKey(h, run) in db.runs
    ensures WithMeta(h, db, run, patch).events == db.events
  {
  }

  lemma AppendPerforms(h: Hashing, srv: Server, hd: Handle, e: Event<Value>)
    requires UpToDate(h, srv, hd) && Canon(e).Some? && EventKey(h, hd.run, e.id) !in srv.db.events
    ensures Encodable(AppendOp(e)) && Allowed(h, hd.run, hd.nextSeq, hd.headHash, AppendOp(e), srv.db)
    ensures Perform(h, srv, hd, [BeginAppend(e)] + TRANSACT).0.db == After(h, srv.db, hd, AppendOp(e))
  {
    hide Represents, HeadOf, Perform, RunKey, EventKey, Stage;
    HeadRemembered(h, srv, hd);
    BeginsWith(h, srv, hd, BeginAppend(e), TRANSACT);
    PerformsAfter(h, srv, hd.(phase := Begun(AppendOp(e), Begin(srv))), AppendOp(e));
  }

  lemma TruncatePerforms(h: Hashing, srv: Server, hd: Handle, i: nat)
    requires UpToDate(h, srv, hd) && i < |srv.logs[hd.run]|
    ensures
      var op := TruncateOp(srv.logs[hd.run][i].id);
      && Allowed(h, hd.run, hd.nextSeq, hd.headHash, op, srv.db)
      && Perform(h, srv, hd, [BeginTruncate(op.eventId)] + TRANSACT).0.db == After(h, srv.db, hd, op)
  {
    hide Represents, HeadOf, Perform, RunKey, EventKey, Stage;
    var op := TruncateOp(srv.logs[hd.run][i].id);
    HeadRemembered(h, srv, hd);
    StoredAt(h, srv, hd.run, i);
    BeginsWith(h, srv, hd, BeginTruncate(op.eventId), TRANSACT);
    PerformsAfter(h, srv, hd.(phase := Begun(op, Begin(srv))), op);
  }

  /** Runs that have a row keep it while logs only change. */
  lemma RowSurvives(h: Hashing, srv: Server, srv': Server, hd: Handle, hd': Handle, run: RunId)
    requires UpToDate(h, srv, hd) && UpToDate(h, srv', hd') && srv.logs.Keys <= srv'.logs.Keys
    requires OwnRunRow(h, srv.db, run).Some?
    ensures OwnRunRow(h, srv'.db, run).Some?
  {
    hide HeadOf, Holds, Belongs, HandleHolds;
    assert srv.db.runs[RunKey(h, run)].run in srv.logs;
    assert RunMatches(h, srv'.db, run, srv'.logs[run]);
  }

  /** The same for an uncontended truncation. */
  lemma UpsertCommutesWithTruncate(h: Hashing, srv: Server, hd: Handle, i: nat, run: RunId, patch: RunMeta)
    requires UpToDate(h, srv, hd) && i < |srv.logs[hd.run]| && OwnRunRow(h, srv.db, run).Some?
    ensures
      var acts := [BeginTruncate(srv.logs[hd.run][i].id)] + TRANSACT;
      && OwnRunRow(h, Perform(h, srv, hd, acts).0.db, run).Some?
      && Perform(h, Upsert(h, srv, run, patch), hd, acts).0.db == Upsert(h, Perform(h, srv, hd, acts).0, run, patch).db
  {
    hide Represents, HeadOf, Perform, RunKey, EventKey, Upsert, WithMeta, After, HandleHolds, MergeMeta;
    var up := Upsert(h, srv, run, patch);
    var id := srv.logs[hd.run][i].id;
    StaysUpToDate(h, srv, hd, run, patch);
    TruncatePerforms(h, srv, hd, i);
    TruncatePerforms(h, up, hd, i);
    TruncateWithMeta(h, srv.db, hd, id, run, patch);
    UncontendedTruncate(h, srv, hd, i);
    var (after, hd') := Perform(h, srv, hd, [BeginTruncate(id)] + TRANSACT);
    RowSurvives(h, srv, after, hd, hd', run);
    UpsertIsWithMeta(h, after, run, patch);
  }

  // ------------------------------------------------------------------
  // Commuting with fork

  /** The patch leaves the goal and the frame of the row as they are. */
  predicate KeepsGoalAndFrame(meta: RunMeta, patch: RunMeta) {
    && (patch.goal.None? || patch.goal == meta.goal)
    && (patch.frameId.None? || patch.frameId == meta.frameId)
  }

  lemma ForkWithMeta(h: Hashing, db: Db, hd: Handle, plan: ForkPlan, meta: RunMeta, run: RunId, patch: RunMeta)
    requires OwnRunRow(h, db, run).Some?
    requires Allowed(h, hd.run, hd.nextSeq, hd.headHash, ForkOp(plan), db)
    requires Allowed(h, hd.run, hd.nextSeq, hd.headHash, ForkOp(plan.(meta := meta)), WithMeta(h, db, run, patch))
    ensures RunKey(h, run) in After(h, db, hd, ForkOp(plan)).runs
    ensures After(h, WithMeta(h, db, run, patch), hd, ForkOp(plan.(meta := meta))) == WithMeta(h, After(h, db, hd, ForkOp(plan)), run, patch)
      <==> meta == plan.meta
  {
    hide RunKey, EventKey, MergeMeta, FreshKeys, HeadOf, After;
    ForkAfter(h, db, hd, plan);
    ForkAfter(h, WithMeta(h, db, run, patch), hd, plan.(meta := meta));
    var a, b := After(h, WithMeta(h, db, run, patch), hd, ForkOp(plan.(meta := meta))), After(h, db, hd, ForkOp(plan));
    var k := RunKey(h, plan.child);
    assert a.runs[k].meta == meta && WithMeta(h, b, run, patch).runs[k].meta == plan.meta;
    if meta == plan.meta {
      assert a.runs == WithMeta(h, b, run, patch).runs;
    }
  }

  lemma ForkAfter(h: Hashing, db: Db, hd: Handle, plan: ForkPlan)
    requires Allowed(h, hd.run, hd.nextSeq, hd.headHash, ForkOp(plan), db)
    ensures
      var prefix, k := Prefix(plan), RunKey(h, hd.run);
      var after := After(h, db, hd, ForkOp(plan));
      && k in db.runs && k != RunKey(h, plan.child)
      && after.runs == db.runs[k := db.runs[k].(nextSeq := plan.count, headHash := plan.headHash)]
                              [RunKey(h, plan.child) := RunRow(plan.child, plan.meta, |prefix|, HeadOf(h, plan.child, prefix))]
      && after.events == Copied(db.events, ChildWrites(h, plan.child, prefix, |prefix|))
  {
    hide RunKey, EventKey, ChildWrites, FreshKeys, HeadOf;
  }

  function Copied(events: map<string, EventRow>, writes: map<string, Option<EventRow>>): map<string, EventRow> {
    map k | k in events.Keys + writes.Keys && (k in writes ==> writes[k].Some?) :: if k in writes then writes[k].value else events[k]
  }

  lemma ForkPerforms(h: Hashing, srv: Server, hd: Handle, request: ForkRequest) returns (plan: ForkPlan)
    requires CanFork(h, srv, hd, request)
    ensures plan.child == RunId(hd.run.scope, request.name) && plan.count == hd.nextSeq && plan.headHash == hd.headHash
    ensures plan.seen == srv.logs[hd.run] && plan.cutoff == Find(srv.logs[hd.run], request.at).value
    ensures OwnRunRow(h, srv.db, hd.run).Some? && plan.meta == ChildMeta(hd.run, request, OwnRunRow(h, srv.db, hd.run).value.meta)
    ensures Allowed(h, hd.run, hd.nextSeq, hd.headHash, ForkOp(plan), srv.db)
    ensures Perform(h, srv, hd, Fork(request)).0.db == After(h, srv.db, hd, ForkOp(plan))
  {
    hide Represents, HeadOf, Perform, RunKey, EventKey, Stage, FreshKeys, Find;
    HeadRemembered(h, srv, hd);
    plan := PlannedFork(h, srv, hd, request);
    PerformsAfter(h, srv, hd.(phase := Begun(ForkOp(plan), Begin(srv))), ForkOp(plan));
  }

  /** A fork copies the goal and the frame of its parent's row.  So updating metadata before and
      after an uncontended fork give the same database exactly when the updated run is not the parent,
      or the patch leaves the parent's goal and frame as they are. */
  lemma UpsertCommutesWithFork(h: Hashing, srv: Server, hd: Handle, request: ForkRequest, run: RunId, patch: RunMeta)
    requires CanFork(h, srv, hd, request) && OwnRunRow(h, srv.db, run).Some?
    ensures OwnRunRow(h, Perform(h, srv, hd, Fork(request)).0.db, run).Some?
    ensures
      Perform(h, Upsert(h, srv, run, patch), hd, Fork(request)).0.db == Upsert(h, Perform(h, srv, hd, Fork(request)).0, run, patch).db
      <==> (run == hd.run ==> KeepsGoalAndFrame(OwnRunRow(h, srv.db, run).value.meta, patch))
  {
    hide Represents, HeadOf, Perform, RunKey, EventKey, Upsert, After, HandleHolds, FreshKeys, Find, Allowed, OwnRunRow, WithMeta,
      KeepsGoalAndFrame;
    var up := Upsert(h, srv, run, patch);
    StaysUpToDate(h, srv, hd, run, patch);
    StaysForkable(h, srv, hd, request, run, patch);
    var plan := ForkPerforms(h, srv, hd, request);
    var plan' := ForkPerforms(h, up, hd, request);
    assert plan' == plan.(meta := plan'.meta);
    ForkWithMeta(h, srv.db, hd, plan, plan'.meta, run, patch);
    ChildMetaMerged(h, srv.db, hd.run, request, run, patch);
    UncontendedFork(h, srv, hd, request);
    var (after, hd') := Perform(h, srv, hd, Fork(request));
    RowSurvives(h, srv, after, hd, hd', run);
    UpsertIsWithMeta(h, after, run, patch);
  }

  lemma StaysForkable(h: Hashing, srv: Server, hd: Handle, request: ForkRequest, run: RunId, patch: RunMeta)
    requires CanFork(h, srv, hd, request) && OwnRunRow(h, srv.db, run).Some?
    requires UpToDate(h, Upsert(h, srv, run, patch), hd)
    requires Upsert(h, srv, run, patch).logs == srv.logs && Upsert(h, srv, run, patch).db == WithMeta(h, srv.db, run, patch)
    ensures CanFork(h, Upsert(h, srv, run, patch), hd, request)
  {
    hide Represents, Upsert, HandleHolds, RunKey, EventKey, Find, HeadOf;
  }

  lemma ChildMetaMerged(h: Hashing, db: Db, parent: RunId, request: ForkRequest, run: RunId, patch: RunMeta)
    requires OwnRunRow(h, db, parent).Some? && OwnRunRow(h, db, run).Some?
    requires OwnRunRow(h, WithMeta(h, db, run, patch), parent).Some?
    ensures
      var before, merged := OwnRunRow(h, db, parent).value.meta, OwnRunRow(h, WithMeta(h, db, run, patch), parent).value.meta;
      ChildMeta(parent, request, merged) == ChildMeta(parent, request, before)
      <==> (run == parent ==> KeepsGoalAndFrame(OwnRunRow(h, db, run).value.meta, patch))
  {
    hide RunKey;
  }

  // ------------------------------------------------------------------
  // Inside a transaction

  /** An update of an existing run that falls between the begin and the commit of another handle's
      transaction makes that commit fail exactly when it changes something and the transaction writes
      the run's row (or when the commit would fail anyway). */
  lemma UpsertAborts(h: Hashing, srv: Server, hd: Handle, run: RunId, patch: RunMeta)
    requires HandleHolds(h, srv, hd) && hd.phase.Staged? && OwnRunRow(h, srv.db, run).Some?
    ensures Conflicted(Upsert(h, srv, run, patch), hd.phase.staged) <==>
      Conflicted(srv, hd.phase.staged) || (!EmptyPatch(patch) && RunKey(h, run) in hd.phase.staged.runWrites)
  {
    hide Represents, HeadOf, RunKey, Stage, Allowed, MergeMeta;
    var staged, srv' := hd.phase.staged, Upsert(h, srv, run, patch);
    StagedBegin(h, srv, hd);
    if !EmptyPatch(patch) {
      var written := {RunRef(RunKey(h, run))};
      assert srv'.commits == srv.commits + [written] by {
        assert WriteSet(Begin(srv).(runWrites := map[RunKey(h, run) :=
          srv.db.runs[RunKey(h, run)].(meta := MergeMeta(srv.db.runs[RunKey(h, run)].meta, patch))])) == written;
      }
      forall ref ensures Untouched(srv', staged.began, ref) <==> Untouched(srv, staged.began, ref) && ref !in written {
        TouchedSince(srv, srv', staged.began, ref, written);
      }
      assert RunRef(RunKey(h, run)) in WriteSet(staged) <==> RunKey(h, run) in staged.runWrites;
    }
  }

  lemma TouchedSince(srv: Server, srv': Server, since: nat, ref: Ref, written: set<Ref>)
    requires srv'.commits == srv.commits + [written] && since <= |srv.commits|
    ensures Untouched(srv', since, ref) <==> Untouched(srv, since, ref) && ref !in written
  {
    assert srv'.commits[|srv.commits|] == written;
    assert forall i :: since <= i < |srv.commits| ==> srv'.commits[i] == srv.commits[i];
  }

  lemma StagedBegin(h: Hashing, srv: Server, hd: Handle)
    requires HandleHolds(h, srv, hd) && hd.phase.Staged?
    ensures hd.phase.staged.began <= |srv.commits|
  {
    hide Represents, HeadOf;
  }

  /** Every append, truncation and fork writes its own run's row: any update of that run that changes
      something, before the commit, aborts it. */
  lemma UpsertAbortsHeadWriters(h: Hashing, srv: Server, hd: Handle, patch: RunMeta)
    requires HandleHolds(h, srv, hd) && hd.phase.Staged? && OwnRunRow(h, srv.db, hd.run).Some? && !EmptyPatch(patch)
    ensures Conflicted(Upsert(h, srv, hd.run, patch), hd.phase.staged)
    ensures Act(h, Upsert(h, srv, hd.run, patch), hd, Commit(Acknowledged)) == (Upsert(h, srv, hd.run, patch), hd.(phase := Idle))
  {
    hide Represents, HeadOf, Upsert, Conflicted;
    UpsertAborts(h, srv, hd, hd.run, patch);
    WritesOwnRow(h, srv, hd);
  }

  lemma WritesOwnRow(h: Hashing, srv: Server, hd: Handle)
    requires HandleHolds(h, srv, hd) && hd.phase.Staged?
    ensures RunKey(h, hd.run) in hd.phase.staged.runWrites
  {
    hide Represents, HeadOf, RunKey, NewRow, ChildWrites, FreshKeys;
  }
}
