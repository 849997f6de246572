/** The protocol by which any number of store handles share runs in one database.

    The database holds keyed rows and offers snapshot transactions: a transaction reads the
    database as it was when it began plus its own writes, and may commit only if no record it
    wrote has been written by a commit since it began.  Handles take steps in any order; a
    schedule names the handle and the step. */
module Ledger {
  import opened Wrappers
  import opened CanonicalJson
  import opened Serde
  import opened EventLog

  // ------------------------------------------------------------------
  // Rows and keys

  datatype RunMeta = RunMeta(
    parent: Option<string>,
    forkedAt: Option<string>,
    title: Option<string>,
    createdAt: string,
    goal: Option<string>,
    frameId: Option<string>)

  datatype RunRow = RunRow(run: RunId, meta: RunMeta, nextSeq: int, headHash: Option<string>)

  datatype Db = Db(runs: map<string, RunRow>, events: map<string, EventRow>)

  datatype Ref = RunRef(key: string) | EventRef(key: string)

  function RunKey(h: Hashing, run: RunId): string { h.key(["ag_run", run.scope, run.name]) }

  function EventKey(h: Hashing, run: RunId, id: string): string { h.key(["ag_event", run.scope, run.name, id]) }

  /** Two event IDs of one run that share a record key. */
  ghost predicate EventKeyClash(h: Hashing, run: RunId, a: string, b: string) {
    a != b && EventKey(h, run, a) == EventKey(h, run, b)
  }

  // ------------------------------------------------------------------
  // Transactions

  /** `base` is an auxiliary variable: the logs at the moment of the snapshot. */
  datatype Txn = Txn(
    began: nat,
    snapshot: Db,
    base: map<RunId, Log>,
    runWrites: map<string, RunRow>,
    eventWrites: map<string, Option<EventRow>>)

  /** `commits` records the write set of every commit.  `logs` is an auxiliary variable, the
      specification's state: no step's choice and no row written depends on it. */
  datatype Server = Server(db: Db, commits: seq<set<Ref>>, logs: map<RunId, Log>)

  function Begin(srv: Server): Txn { Txn(|srv.commits|, srv.db, srv.logs, map[], map[]) }

  function WriteSet(txn: Txn): set<Ref> {
    (set k <- txn.runWrites.Keys :: RunRef(k)) + (set k <- txn.eventWrites.Keys :: EventRef(k))
  }

  predicate Untouched(srv: Server, since: nat, ref: Ref) {
    forall i :: since <= i < |srv.commits| ==> ref !in srv.commits[i]
  }

  /** First committer wins. */
  predicate Conflicted(srv: Server, txn: Txn) {
    exists ref <- WriteSet(txn) :: !Untouched(srv, txn.began, ref)
  }

  function Apply(db: Db, txn: Txn): Db {
    Db(db.runs + txn.runWrites,
       map k | k in db.events.Keys + txn.eventWrites.Keys
             && (k in txn.eventWrites ==> txn.eventWrites[k].Some?)
           :: if k in txn.eventWrites then txn.eventWrites[k].value else db.events[k])
  }

  function Committed(srv: Server, txn: Txn, logs: map<RunId, Log>): Server {
    Server(Apply(srv.db, txn), srv.commits + [WriteSet(txn)], logs)
  }

  // ------------------------------------------------------------------
  // What the rows represent

  ghost predicate RunMatches(h: Hashing, db: Db, run: RunId, log: Log) {
    && RunKey(h, run) in db.runs
    && db.runs[RunKey(h, run)].run == run
    && db.runs[RunKey(h, run)].nextSeq == |log|
    && db.runs[RunKey(h, run)].headHash == HeadOf(h, run, log)
    && forall i :: 0 <= i < |log| ==> Holds(h, db, run, log, i)
  }

  ghost predicate Holds(h: Hashing, db: Db, run: RunId, log: Log, i: nat)
    requires i < |log|
  {
    var k := EventKey(h, run, log[i].id);
    k in db.events && db.events[k] == RowAt(h, run, log, i)
  }

  /** The row belongs to a log and its fields agree with its key. */
  ghost predicate Belongs(h: Hashing, logs: map<RunId, Log>, k: string, row: EventRow) {
    && row.run in logs
    && 0 <= row.position < |logs[row.run]|
    && row.record.eventId == logs[row.run][row.position].id
    && k == EventKey(h, row.run, row.record.eventId)
  }

  /** The rows are exactly those of the logs. */
  ghost predicate Represents(h: Hashing, db: Db, logs: map<RunId, Log>) {
    && (forall run :: run in logs ==> RunMatches(h, db, run, logs[run]))
    && (forall k :: k in db.runs ==> db.runs[k].run in logs && k == RunKey(h, db.runs[k].run))
    && (forall k :: k in db.events ==> Belongs(h, logs, k, db.events[k]))
  }

  // ------------------------------------------------------------------
  // Operations inside a transaction

  datatype ForkPlan = ForkPlan(
    child: RunId,
    meta: RunMeta,
    count: nat,               // rows read before the transaction
    headHash: Option<string>, // head read before the transaction
    seen: Log,                // the events those rows carried
    cutoff: nat)

  datatype Op =
    | AppendOp(event: Event<Value>)
    | TruncateOp(eventId: string)
    | ForkOp(plan: ForkPlan)

  function Prefix(plan: ForkPlan): Log
    requires plan.cutoff < |plan.seen|
  {
    plan.seen[..plan.cutoff + 1]
  }

  /** The run row as the transaction reads it, if it is there and belongs to the run. */
  function OwnRunRow(h: Hashing, db: Db, run: RunId): Option<RunRow> {
    var k := RunKey(h, run);
    if k in db.runs && db.runs[k].run == run then Some(db.runs[k]) else None
  }

  predicate FreshKeys(h: Hashing, db: Db, run: RunId, log: Log) {
    && (forall i :: 0 <= i < |log| ==> EventKey(h, run, log[i].id) !in db.events)
    && (forall i, j :: 0 <= i < j < |log| ==> EventKey(h, run, log[i].id) != EventKey(h, run, log[j].id))
  }

  /** Everything the operation checks before it stages its writes. */
  predicate Allowed(h: Hashing, run: RunId, nextSeq: int, headHash: Option<string>, op: Op, db: Db) {
    match OwnRunRow(h, db, run)
    case None => false
    case Some(row) =>
      match op
      case AppendOp(e) =>
        row.nextSeq == nextSeq && row.headHash == headHash && EventKey(h, run, e.id) !in db.events
      case TruncateOp(id) =>
        && row.nextSeq == nextSeq && row.headHash == headHash
        && EventKey(h, run, id) in db.events && db.events[EventKey(h, run, id)].run == run
      case ForkOp(plan) =>
        && row.nextSeq == plan.count && row.headHash == plan.headHash
        && RunKey(h, plan.child) !in db.runs
        && plan.cutoff < |plan.seen| && FreshKeys(h, db, plan.child, Prefix(plan))
  }

  /** Rows of a fork's child, by key. */
  function ChildWrites(h: Hashing, child: RunId, log: Log, n: nat): map<string, Option<EventRow>>
    requires n <= |log|
  {
    if n == 0 then map[]
    else ChildWrites(h, child, log, n - 1)[EventKey(h, child, log[n - 1].id) := Some(RowAt(h, child, log, n - 1))]
  }

  predicate Encodable(op: Op) { op.AppendOp? ==> Canon(op.event).Some? }

  /** The transaction with the operation's writes staged. */
  function Stage(h: Hashing, run: RunId, nextSeq: int, headHash: Option<string>, op: Op, txn: Txn): Txn
    requires Encodable(op) && Allowed(h, run, nextSeq, headHash, op, txn.snapshot)
  {
    var k := RunKey(h, run);
    var row := txn.snapshot.runs[k];
    match op
    case AppendOp(e) =>
      PreimageSurvivesStorage(run.scope, run.name, row.nextSeq, e, row.headHash);
      var created := NewRow(h, run, row.nextSeq, e, row.headHash).value;
      txn.(runWrites := map[k := row.(nextSeq := row.nextSeq + 1, headHash := Some(created.hash))],
           eventWrites := map[EventKey(h, run, e.id) := Some(created)])
    case TruncateOp(id) =>
      var cutoff := txn.snapshot.events[EventKey(h, run, id)];
      txn.(runWrites := map[k := row.(nextSeq := cutoff.position + 1, headHash := Some(cutoff.hash))],
           eventWrites := map e | e in txn.snapshot.events && txn.snapshot.events[e].run == run
                                && txn.snapshot.events[e].position > cutoff.position :: None)
    case ForkOp(plan) =>
      var prefix := Prefix(plan);
      txn.(runWrites := map[k := row.(nextSeq := plan.count, headHash := plan.headHash)]
                     + map[RunKey(h, plan.child) := RunRow(plan.child, plan.meta, |prefix|, HeadOf(h, plan.child, prefix))],
           eventWrites := ChildWrites(h, plan.child, prefix, |prefix|))
  }

  // ------------------------------------------------------------------
  // The specification: atomic operations on logs

  datatype LogOp =
    | Keep
    | CreateRun(run: RunId)
    | Extend(run: RunId, event: Event<Json>)
    | Cut(run: RunId, length: nat)
    | Copy(child: RunId, prefix: Log)

  function Spec(logs: map<RunId, Log>, op: LogOp): map<RunId, Log> {
    match op
    case Keep => logs
    case CreateRun(run) => logs[run := []]
    case Extend(run, e) => if run in logs then logs[run := logs[run] + [e]] else logs
    case Cut(run, n) => if run in logs && n <= |logs[run]| then logs[run := logs[run][..n]] else logs
    case Copy(child, prefix) => logs[child := prefix]
  }

  /** The atomic operation a commit performs. */
  function OpOf(h: Hashing, run: RunId, op: Op, db: Db): LogOp {
    match op
    case AppendOp(e) => if Canon(e).Some? then Extend(run, Canon(e).value) else Keep
    case TruncateOp(id) =>
      var k := EventKey(h, run, id);
      if k in db.events && db.events[k].position >= 0 then Cut(run, db.events[k].position + 1) else Keep
    case ForkOp(plan) => if plan.cutoff < |plan.seen| then Copy(plan.child, Prefix(plan)) else Keep
  }
}
