/** Operations nobody interferes with succeed: the safety results are not met by refusing everything. */
module LedgerProgress {
  import opened Wrappers
  import opened Serde
  import opened EventLog
  import opened Ledger
  import opened LedgerCommits
  import opened LedgerRuns
  import opened LedgerTheorems

  /** A handle takes its actions one after the other, with nobody in between. */
  function Perform(h: Hashing, srv: Server, hd: Handle, actions: seq<Action>): (Server, Handle)
    decreases |actions|
  {
    if actions == [] then (srv, hd)
    else
      var (srv', hd') := Act(h, srv, hd, actions[0]);
      Perform(h, srv', hd', actions[1..])
  }

  /** An idle handle that last observed the log as it is now. */
  ghost predicate UpToDate(h: Hashing, srv: Server, hd: Handle) {
    Represents(h, srv.db, srv.logs) && HandleHolds(h, srv, hd) && hd.phase.Idle? && hd.run in srv.logs && hd.observed == srv.logs[hd.run]
  }

  /** The run row holds the head such a handle remembers. */
  lemma HeadRemembered(h: Hashing, srv: Server, hd: Handle)
    requires Represents(h, srv.db, srv.logs) && Remembers(h, hd) && hd.run in srv.logs && hd.observed == srv.logs[hd.run]
    ensures OwnRunRow(h, srv.db, hd.run).Some?
    ensures OwnRunRow(h, srv.db, hd.run).value.nextSeq == hd.nextSeq && OwnRunRow(h, srv.db, hd.run).value.headHash == hd.headHash
  {
    hide HeadOf, Holds, Belongs;
    assert RunMatches(h, srv.db, hd.run, srv.logs[hd.run]);
  }

  /** A transaction conflicts with nothing while nobody commits. */
  lemma NothingSince(srv: Server, txn: Txn)
    requires txn.began == |srv.commits|
    ensures !Conflicted(srv, txn)
  {
  }

  const TRANSACT := [Check, StageWrites, Commit(Acknowledged)]

  /** Checking, staging and committing at once, when the checks pass. */
  lemma TransactionCommits(h: Hashing, srv: Server, hd: Handle, op: Op)
    requires Represents(h, srv.db, srv.logs) && Remembers(h, hd) && OpHolds(h, hd.run, op)
    requires hd.phase == Begun(op, Begin(srv))
    requires Allowed(h, hd.run, hd.nextSeq, hd.headHash, op, srv.db)
    ensures
      var staged := Stage(h, hd.run, hd.nextSeq, hd.headHash, op, Begin(srv));
      var ready := hd.(phase := Staged(op, Begin(srv), staged));
      && HandleHolds(h, srv, ready) && !Conflicted(srv, staged)
      && Perform(h, srv, hd, TRANSACT) == Act(h, srv, ready, Commit(Acknowledged))
  {
    hide Represents, HeadOf, Tracks, Conflicted, Allowed, Stage, Act, PlanHolds, Perform;
    SnapshotTracks(h, srv);
    var staged := Stage(h, hd.run, hd.nextSeq, hd.headHash, op, Begin(srv));
    StageKeepsBegin(h, hd.run, hd.nextSeq, hd.headHash, op, Begin(srv));
    NothingSince(srv, staged);
    var checked := hd.(phase := Checked(op, Begin(srv)));
    PassesCheck(h, srv, hd, op);
    ThreeActions(h, srv, hd, checked, hd.(phase := Staged(op, Begin(srv), staged)));
  }

  lemma PassesCheck(h: Hashing, srv: Server, hd: Handle, op: Op)
    requires hd.phase == Begun(op, Begin(srv)) && Encodable(op)
    requires Allowed(h, hd.run, hd.nextSeq, hd.headHash, op, srv.db)
    ensures Begin(srv).snapshot == srv.db && Begin(srv).began == |srv.commits|
    ensures Act(h, srv, hd, Check) == (srv, hd.(phase := Checked(op, Begin(srv))))
    ensures Act(h, srv, hd.(phase := Checked(op, Begin(srv))), StageWrites)
         == (srv, hd.(phase := Staged(op, Begin(srv), Stage(h, hd.run, hd.nextSeq, hd.headHash, op, Begin(srv)))))
  {
    hide Allowed, Stage, Encodable;
  }

  lemma ThreeActions(h: Hashing, srv: Server, hd: Handle, checked: Handle, ready: Handle)
    requires Act(h, srv, hd, Check) == (srv, checked) && Act(h, srv, checked, StageWrites) == (srv, ready)
    ensures Perform(h, srv, hd, TRANSACT) == Act(h, srv, ready, Commit(Acknowledged))
  {
    hide Act;
    assert TRANSACT == [Check] + ([StageWrites] + [Commit(Acknowledged)]);
    BeginsWith(h, srv, hd, Check, [StageWrites] + [Commit(Acknowledged)]);
    BeginsWith(h, srv, checked, StageWrites, [Commit(Acknowledged)]);
    assert [Commit(Acknowledged)][1..] == [];
  }

  lemma StageKeepsBegin(h: Hashing, run: RunId, nextSeq: int, headHash: Option<string>, op: Op, txn: Txn)
    requires Encodable(op) && Allowed(h, run, nextSeq, headHash, op, txn.snapshot)
    ensures Stage(h, run, nextSeq, headHash, op, txn).began == txn.began
  {
  }

  lemma BeginsWith(h: Hashing, srv: Server, hd: Handle, first: Action, rest: seq<Action>)
    ensures Perform(h, srv, hd, [first] + rest) == Perform(h, Act(h, srv, hd, first).0, Act(h, srv, hd, first).1, rest)
  {
    hide Act;
    assert ([first] + rest)[1..] == rest;
  }

  /** An up-to-date handle appends an event whose key is free. */
  lemma UncontendedAppend(h: Hashing, srv: Server, hd: Handle, e: Event<Value>)
    requires UpToDate(h, srv, hd) && Canon(e).Some? && EventKey(h, hd.run, e.id) !in srv.db.events
    ensures
      var (srv', hd') := Perform(h, srv, hd, [BeginAppend(e)] + TRANSACT);
      && srv'.logs == srv.logs[hd.run := srv.logs[hd.run] + [Canon(e).value]] && UpToDate(h, srv', hd') && hd'.run == hd.run
  {
    hide Represents, HeadOf, Tracks, Conflicted, Stage, Perform, RunKey, EventKey;
    HeadRemembered(h, srv, hd);
    BeginsWith(h, srv, hd, BeginAppend(e), TRANSACT);
    var begun := hd.(phase := Begun(AppendOp(e), Begin(srv)));
    TransactionCommits(h, srv, begun, AppendOp(e));
    var ready := begun.(phase := Staged(AppendOp(e), Begin(srv), Stage(h, hd.run, hd.nextSeq, hd.headHash, AppendOp(e), Begin(srv))));
    AppendActsOnObservedLog(h, srv, ready, Acknowledged);
    ActKeeps(h, srv, ready, Commit(Acknowledged));
  }

  /** An up-to-date handle truncates after any event of its log. */
  lemma UncontendedTruncate(h: Hashing, srv: Server, hd: Handle, i: nat)
    requires UpToDate(h, srv, hd) && i < |srv.logs[hd.run]|
    ensures
      var (srv', hd') := Perform(h, srv, hd, [BeginTruncate(srv.logs[hd.run][i].id)] + TRANSACT);
      && srv'.logs == srv.logs[hd.run := srv.logs[hd.run][..i + 1]] && UpToDate(h, srv', hd') && hd'.run == hd.run
  {
    hide Represents, HeadOf, Tracks, Conflicted, Stage, Perform, RunKey, EventKey;
    var log := srv.logs[hd.run];
    var op := TruncateOp(log[i].id);
    HeadRemembered(h, srv, hd);
    StoredAt(h, srv, hd.run, i);
    BeginsWith(h, srv, hd, BeginTruncate(log[i].id), TRANSACT);
    var begun := hd.(phase := Begun(op, Begin(srv)));
    TransactionCommits(h, srv, begun, op);
    var ready := begun.(phase := Staged(op, Begin(srv), Stage(h, hd.run, hd.nextSeq, hd.headHash, op, Begin(srv))));
    var _ := TruncateActsOnObservedLog(h, srv, ready, Acknowledged);
    ActKeeps(h, srv, ready, Commit(Acknowledged));
  }

  lemma StoredAt(h: Hashing, srv: Server, run: RunId, i: nat)
    requires Represents(h, srv.db, srv.logs) && run in srv.logs && i < |srv.logs[run]|
    ensures
      var k := EventKey(h, run, srv.logs[run][i].id);
      k in srv.db.events && srv.db.events[k].run == run && srv.db.events[k].position == i
  {
    hide HeadOf, Belongs, EventKey;
    assert RunMatches(h, srv.db, run, srv.logs[run]);
    assert Holds(h, srv.db, run, srv.logs[run], i);
  }

  /** A new handle on an existing run verifies it and observes its log. */
  lemma UncontendedOpen(h: Hashing, srv: Server, run: RunId)
    requires Represents(h, srv.db, srv.logs) && run in srv.logs
    ensures
      var (srv', hd') := Perform(h, srv, Handle(run, 0, None, Opened, []), [ReadRows] + [ReadRun]);
      && srv' == srv && hd'.run == run && UpToDate(h, srv, hd')
  {
    hide Represents, HeadOf, SelectRows, Verified, RunKey;
    var entering := Handle(run, 0, None, Opened, []);
    StoredRunsVerify(h, srv.db, srv.logs, run);
    BeginsWith(h, srv, entering, ReadRows, [ReadRun]);
    assert [ReadRun][1..] == [];
    FreshRemembers(h, srv, run);
    ActKeeps(h, srv, entering, ReadRows);
    ActKeeps(h, srv, Act(h, srv, entering, ReadRows).1, ReadRun);
  }

  lemma FreshRemembers(h: Hashing, srv: Server, run: RunId)
    ensures HandleHolds(h, srv, Handle(run, 0, None, Opened, []))
  {
  }

  /** The child's metadata: its origin, and the parent's goal and frame. */
  function ChildMeta(parent: RunId, request: ForkRequest, meta: RunMeta): RunMeta {
    RunMeta(Some(parent.name), Some(request.at), request.title, request.createdAt, meta.goal, meta.frameId)
  }

  function Fork(request: ForkRequest): seq<Action> { [Survey(request)] + ([Plan] + ([BeginFork] + TRANSACT)) }

  /** What a fork by an up-to-date handle needs to find. */
  ghost predicate CanFork(h: Hashing, srv: Server, hd: Handle, request: ForkRequest) {
    var child := RunId(hd.run.scope, request.name);
    && UpToDate(h, srv, hd)
    && Find(srv.logs[hd.run], request.at).Some? && srv.logs[hd.run][0].kind != CompactedKind()
    && RunKey(h, child) !in srv.db.runs
    && FreshKeys(h, srv.db, child, srv.logs[hd.run][..Find(srv.logs[hd.run], request.at).value + 1])
  }

  /** An up-to-date handle forks its uncompacted run at any of its events into a run that does not
      exist and whose event keys are free. */
  lemma UncontendedFork(h: Hashing, srv: Server, hd: Handle, request: ForkRequest)
    requires CanFork(h, srv, hd, request)
    ensures
      var child, prefix := RunId(hd.run.scope, request.name), srv.logs[hd.run][..Find(srv.logs[hd.run], request.at).value + 1];
      var (srv', hd') := Perform(h, srv, hd, Fork(request));
      && srv'.logs == srv.logs[child := prefix] && child != hd.run && UpToDate(h, srv', hd') && hd'.run == hd.run
  {
    hide Represents, HeadOf, Tracks, Conflicted, Stage, Perform, RunKey, EventKey, SelectRows, FreshKeys, Find, Act, PlanFork;
    HeadRemembered(h, srv, hd);
    var plan := PlannedFork(h, srv, hd, request);
    CommitsFork(h, srv, hd, plan);
  }

  /** The survey, the plan and the begin of the transaction. */
  lemma PlannedFork(h: Hashing, srv: Server, hd: Handle, request: ForkRequest) returns (plan: ForkPlan)
    requires UpToDate(h, srv, hd)
    requires Find(srv.logs[hd.run], request.at).Some? && srv.logs[hd.run][0].kind != CompactedKind()
    requires RunKey(h, RunId(hd.run.scope, request.name)) !in srv.db.runs
    ensures plan.child == RunId(hd.run.scope, request.name) && PlanHolds(h, hd.run, plan)
    ensures plan.seen == srv.logs[hd.run] && plan.cutoff == Find(srv.logs[hd.run], request.at).value
    ensures plan.count == hd.nextSeq && plan.headHash == hd.headHash
    ensures OwnRunRow(h, srv.db, hd.run).Some? && plan.meta == ChildMeta(hd.run, request, OwnRunRow(h, srv.db, hd.run).value.meta)
    ensures Perform(h, srv, hd, Fork(request))
         == Perform(h, srv, hd.(phase := Begun(ForkOp(plan), Begin(srv))), TRANSACT)
  {
    hide Represents, HeadOf, Perform, RunKey, SelectRows, Verified, Find, PlanFork, PlanHolds;
    var rows := SelectRows(srv.db, hd.run);
    var surveying := hd.(phase := Surveying(request, rows));
    BeginsWith(h, srv, hd, Survey(request), [Plan] + ([BeginFork] + TRANSACT));
    BeginsWith(h, srv, surveying, Plan, [BeginFork] + TRANSACT);
    PlansFork(h, srv, hd, request);
    plan := PlanFork(h, srv.db, surveying, request, rows).value;
    PlanForkHolds(h, srv.db, surveying, request, rows);
    BeginsWith(h, srv, hd.(phase := Planned(plan)), BeginFork, TRANSACT);
  }

  lemma CommitsFork(h: Hashing, srv: Server, hd: Handle, plan: ForkPlan)
    requires UpToDate(h, srv, hd) && PlanHolds(h, hd.run, plan)
    requires plan.seen == srv.logs[hd.run] && plan.count == hd.nextSeq && plan.headHash == hd.headHash
    requires RunKey(h, plan.child) !in srv.db.runs && FreshKeys(h, srv.db, plan.child, Prefix(plan))
    ensures
      var (srv', hd') := Perform(h, srv, hd.(phase := Begun(ForkOp(plan), Begin(srv))), TRANSACT);
      && srv'.logs == srv.logs[plan.child := Prefix(plan)] && plan.child != hd.run && UpToDate(h, srv', hd') && hd'.run == hd.run
  {
    hide Represents, HeadOf, Tracks, Conflicted, Stage, Perform, RunKey, EventKey, FreshKeys;
    HeadRemembered(h, srv, hd);
    var op := ForkOp(plan);
    var begun := hd.(phase := Begun(op, Begin(srv)));
    TransactionCommits(h, srv, begun, op);
    var ready := begun.(phase := Staged(op, Begin(srv), Stage(h, hd.run, hd.nextSeq, hd.headHash, op, Begin(srv))));
    ForkCopiesPrefix(h, srv, ready, Acknowledged);
    ActKeeps(h, srv, ready, Commit(Acknowledged));
  }

  lemma PlansFork(h: Hashing, srv: Server, hd: Handle, request: ForkRequest)
    requires UpToDate(h, srv, hd)
    requires Find(srv.logs[hd.run], request.at).Some? && srv.logs[hd.run][0].kind != CompactedKind()
    requires RunKey(h, RunId(hd.run.scope, request.name)) !in srv.db.runs
    ensures
      var hd' := hd.(phase := Surveying(request, SelectRows(srv.db, hd.run)));
      var planned := PlanFork(h, srv.db, hd', request, SelectRows(srv.db, hd.run));
      && planned.Some? && planned.value.child == RunId(hd.run.scope, request.name)
      && planned.value.seen == srv.logs[hd.run] && planned.value.cutoff == Find(srv.logs[hd.run], request.at).value
      && planned.value.count == hd.nextSeq && planned.value.headHash == hd.headHash
      && OwnRunRow(h, srv.db, hd.run).Some? && planned.value.meta == ChildMeta(hd.run, request, OwnRunRow(h, srv.db, hd.run).value.meta)
  {
    hide Represents, HeadOf, RunKey, SelectRows, Find, Chained;
    HeadRemembered(h, srv, hd);
    StoredRunsVerify(h, srv.db, srv.logs, hd.run);
  }
}
