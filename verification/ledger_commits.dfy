/** Every conflict-free commit performs one atomic operation on the logs. */
module LedgerCommits {
  import opened Wrappers
  import opened CanonicalJson
  import opened Serde
  import opened EventLog
  import opened Ledger

  // ------------------------------------------------------------------
  // Facts about rows that represent logs

  lemma EventIdsDistinct(h: Hashing, db: Db, logs: map<RunId, Log>, run: RunId, i: nat, j: nat)
    requires Represents(h, db, logs) && run in logs
    requires i < |logs[run]| && j < |logs[run]| && i != j
    ensures EventKey(h, run, logs[run][i].id) != EventKey(h, run, logs[run][j].id)
    ensures logs[run][i].id != logs[run][j].id
  {
    assert RunMatches(h, db, run, logs[run]);
    assert Holds(h, db, run, logs[run], i) && Holds(h, db, run, logs[run], j);
  }

  /** An event row is the row of its position in its log. */
  lemma StoredRow(h: Hashing, db: Db, logs: map<RunId, Log>, k: string)
    requires Represents(h, db, logs) && k in db.events
    ensures Belongs(h, logs, k, db.events[k])
    ensures db.events[k] == RowAt(h, db.events[k].run, logs[db.events[k].run], db.events[k].position)
  {
    var row := db.events[k];
    assert Belongs(h, logs, k, row);
    assert RunMatches(h, db, row.run, logs[row.run]);
    assert Holds(h, db, row.run, logs[row.run], row.position);
  }

  /** A run's row sits under its own key, and no other run of the logs has that key. */
  lemma RunRowOf(h: Hashing, db: Db, logs: map<RunId, Log>, run: RunId)
    requires Represents(h, db, logs) && run in logs
    ensures RunKey(h, run) in db.runs && db.runs[RunKey(h, run)].run == run
  {
    assert RunMatches(h, db, run, logs[run]);
  }

  ghost predicate OthersKept(h: Hashing, db: Db, db': Db, run: RunId) {
    && (forall k :: k in db.runs && k != RunKey(h, run) ==> k in db'.runs && db'.runs[k] == db.runs[k])
    && (forall k :: k in db.events && db.events[k].run != run ==> k in db'.events && db'.events[k] == db.events[k])
  }

  /** A change confined to the rows of one run leaves every other log represented. */
  lemma OthersMatch(h: Hashing, db: Db, db': Db, logs: map<RunId, Log>, run: RunId, other: RunId)
    requires Represents(h, db, logs) && OthersKept(h, db, db', run)
    requires RunKey(h, run) in db.runs ==> db.runs[RunKey(h, run)].run == run
    requires other in logs && other != run
    ensures RunMatches(h, db', other, logs[other])
  {
    var log := logs[other];
    assert RunMatches(h, db, other, log);
    forall i | 0 <= i < |log| ensures Holds(h, db', other, log, i) {
      assert Holds(h, db, other, log, i);
    }
  }

  /** Replacing one run's rows by those of another log. */
  lemma RunReplaced(h: Hashing, db: Db, db': Db, logs: map<RunId, Log>, run: RunId, log: Log)
    requires Represents(h, db, logs) && OthersKept(h, db, db', run) && RunMatches(h, db', run, log)
    requires RunKey(h, run) in db.runs ==> db.runs[RunKey(h, run)].run == run
    requires forall k :: k in db'.runs ==> k == RunKey(h, run) || k in db.runs
    requires forall k :: k in db'.events ==>
      if db'.events[k].run == run then Belongs(h, logs[run := log], k, db'.events[k])
      else k in db.events && db.events[k] == db'.events[k]
    ensures Represents(h, db', logs[run := log])
  {
    hide HeadOf, RowAt, EventKey, RunKey, Holds, RunMatches, OthersKept;
    var logs' := logs[run := log];
    forall other | other in logs' ensures RunMatches(h, db', other, logs'[other]) {
      if other != run { OthersMatch(h, db, db', logs, run, other); }
    }
    OwnRowMatches(h, db', run, log);
    OtherRowsKept(h, db, db', run);
    forall k | k in db'.events ensures Belongs(h, logs', k, db'.events[k]) {
      if db'.events[k].run != run { assert Belongs(h, logs, k, db.events[k]); }
    }
  }

  lemma OwnRowMatches(h: Hashing, db: Db, run: RunId, log: Log)
    requires RunMatches(h, db, run, log)
    ensures RunKey(h, run) in db.runs && db.runs[RunKey(h, run)].run == run
  {
  }

  lemma OtherRowsKept(h: Hashing, db: Db, db': Db, run: RunId)
    requires OthersKept(h, db, db', run)
    ensures forall k :: k in db.runs && k != RunKey(h, run) ==> k in db'.runs && db'.runs[k] == db.runs[k]
  {
  }

  // ------------------------------------------------------------------
  // The atomic operations, on rows

  function CreateRows(h: Hashing, db: Db, run: RunId, meta: RunMeta): Db {
    db.(runs := db.runs[RunKey(h, run) := RunRow(run, meta, 0, None)])
  }

  lemma CreateRepresents(h: Hashing, db: Db, logs: map<RunId, Log>, run: RunId, meta: RunMeta)
    requires Represents(h, db, logs) && RunKey(h, run) !in db.runs
    ensures run !in logs
    ensures Represents(h, CreateRows(h, db, run, meta), Spec(logs, CreateRun(run)))
  {
    hide EventKey, RowAt;
    if run in logs { RunRowOf(h, db, logs, run); }
    forall k | k in db.events ensures db.events[k].run in logs {
      assert Belongs(h, logs, k, db.events[k]);
    }
    RunReplaced(h, db, CreateRows(h, db, run, meta), logs, run, []);
  }

  function ExtendRows(h: Hashing, db: Db, run: RunId, log: Log, e: Event<Json>): Db
    requires RunKey(h, run) in db.runs
  {
    var k := RunKey(h, run);
    Db(db.runs[k := db.runs[k].(nextSeq := |log| + 1, headHash := HeadOf(h, run, log + [e]))],
       db.events[EventKey(h, run, e.id) := RowAt(h, run, log + [e], |log|)])
  }

  lemma ExtendMatches(h: Hashing, db: Db, logs: map<RunId, Log>, run: RunId, e: Event<Json>)
    requires Represents(h, db, logs) && run in logs && EventKey(h, run, e.id) !in db.events
    requires RunKey(h, run) in db.runs
    ensures RunMatches(h, ExtendRows(h, db, run, logs[run], e), run, logs[run] + [e])
  {
    hide StoredPreimage, HeadOf;
    var log := logs[run];
    var longer := log + [e];
    assert RunMatches(h, db, run, log);
    forall i | 0 <= i < |longer| ensures Holds(h, ExtendRows(h, db, run, log, e), run, longer, i) {
      if i < |log| {
        assert Holds(h, db, run, log, i);
        assert longer[..i + 1] == log[..i + 1];
        RowOfPrefix(h, run, longer, log, i);
      }
    }
  }

  lemma ExtendRepresents(h: Hashing, db: Db, logs: map<RunId, Log>, run: RunId, e: Event<Json>)
    requires Represents(h, db, logs) && run in logs && EventKey(h, run, e.id) !in db.events
    ensures RunKey(h, run) in db.runs
    ensures Represents(h, ExtendRows(h, db, run, logs[run], e), Spec(logs, Extend(run, e)))
  {
    hide HeadOf, Head, PreimageAt, EventKey, RunKey, RunMatches;
    RunRowOf(h, db, logs, run);
    ExtendMatches(h, db, logs, run, e);
    var db' := ExtendRows(h, db, run, logs[run], e);
    var logs' := logs[run := logs[run] + [e]];
    forall k | k in db'.events && db'.events[k].run == run ensures Belongs(h, logs', k, db'.events[k]) {
      if k in db.events { assert Belongs(h, logs, k, db.events[k]); }
    }
    RunReplaced(h, db, db', logs, run, logs[run] + [e]);
  }

  function CutRows(h: Hashing, db: Db, run: RunId, log: Log, n: nat): Db
    requires RunKey(h, run) in db.runs && n <= |log|
  {
    var k := RunKey(h, run);
    Db(db.runs[k := db.runs[k].(nextSeq := n, headHash := Head(h, run, log, n))],
       map e | e in db.events && !(db.events[e].run == run && db.events[e].position >= n) :: db.events[e])
  }

  lemma CutMatches(h: Hashing, db: Db, logs: map<RunId, Log>, run: RunId, n: nat)
    requires Represents(h, db, logs) && run in logs && n <= |logs[run]|
    requires RunKey(h, run) in db.runs
    ensures RunMatches(h, CutRows(h, db, run, logs[run], n), run, logs[run][..n])
  {
    hide StoredPreimage;
    var log := logs[run];
    var shorter := log[..n];
    assert RunMatches(h, db, run, log);
    HeadOfPrefix(h, run, shorter, log, n);
    forall i | 0 <= i < |shorter| ensures Holds(h, CutRows(h, db, run, log, n), run, shorter, i) {
      assert Holds(h, db, run, log, i);
      assert shorter[..i + 1] == log[..i + 1];
      RowOfPrefix(h, run, shorter, log, i);
    }
  }

  lemma CutRepresents(h: Hashing, db: Db, logs: map<RunId, Log>, run: RunId, n: nat)
    requires Represents(h, db, logs) && run in logs && n <= |logs[run]|
    ensures RunKey(h, run) in db.runs
    ensures Represents(h, CutRows(h, db, run, logs[run], n), Spec(logs, Cut(run, n)))
  {
    hide HeadOf, Head, EventKey, RunKey, Holds, RowAt;
    RunRowOf(h, db, logs, run);
    CutMatches(h, db, logs, run, n);
    var db' := CutRows(h, db, run, logs[run], n);
    var logs' := logs[run := logs[run][..n]];
    forall k | k in db'.events && db'.events[k].run == run ensures Belongs(h, logs', k, db'.events[k]) {
      assert Belongs(h, logs, k, db.events[k]);
    }
    RunReplaced(h, db, db', logs, run, logs[run][..n]);
  }

  /** What `ChildWrites` writes: one row per event, each under its own key. */
  lemma {:induction false} ChildWritten(h: Hashing, child: RunId, log: Log, n: nat)
    requires n <= |log|
    requires forall i, j :: 0 <= i < j < n ==> EventKey(h, child, log[i].id) != EventKey(h, child, log[j].id)
    ensures forall i :: 0 <= i < n ==>
      var k := EventKey(h, child, log[i].id);
      k in ChildWrites(h, child, log, n) && ChildWrites(h, child, log, n)[k] == Some(RowAt(h, child, log, i))
    ensures forall k :: k in ChildWrites(h, child, log, n) ==> exists i :: 0 <= i < n && k == EventKey(h, child, log[i].id)
  {
    hide RowAt;
    if n > 0 {
      ChildWritten(h, child, log, n - 1);
    }
  }

  function CopyRows(h: Hashing, db: Db, child: RunId, meta: RunMeta, prefix: Log): Db {
    var written := ChildWrites(h, child, prefix, |prefix|);
    Db(db.runs[RunKey(h, child) := RunRow(child, meta, |prefix|, HeadOf(h, child, prefix))],
       map k | k in db.events.Keys + written.Keys && (k in written ==> written[k].Some?)
           :: if k in written then written[k].value else db.events[k])
  }

  lemma CopyRowsAre(h: Hashing, db: Db, child: RunId, meta: RunMeta, prefix: Log)
    requires FreshKeys(h, db, child, prefix)
    ensures RunMatches(h, CopyRows(h, db, child, meta, prefix), child, prefix)
    ensures forall k :: k in db.events ==>
      k in CopyRows(h, db, child, meta, prefix).events && CopyRows(h, db, child, meta, prefix).events[k] == db.events[k]
    ensures forall k :: k in CopyRows(h, db, child, meta, prefix).events && k !in db.events ==>
      exists i :: 0 <= i < |prefix| && k == EventKey(h, child, prefix[i].id)
               && CopyRows(h, db, child, meta, prefix).events[k] == RowAt(h, child, prefix, i)
  {
    hide HeadOf, ChildWrites, RowAt, EventKey, RunKey;
    ChildWritten(h, child, prefix, |prefix|);
    var db' := CopyRows(h, db, child, meta, prefix);
    forall i | 0 <= i < |prefix| ensures Holds(h, db', child, prefix, i) {}
  }

  lemma CopyRepresents(h: Hashing, db: Db, logs: map<RunId, Log>, child: RunId, meta: RunMeta, prefix: Log)
    requires Represents(h, db, logs) && RunKey(h, child) !in db.runs && FreshKeys(h, db, child, prefix)
    ensures child !in logs
    ensures Represents(h, CopyRows(h, db, child, meta, prefix), Spec(logs, Copy(child, prefix)))
  {
    hide HeadOf, Head, PreimageAt, FreshKeys, EventKey, RunKey, RunMatches;
    var db' := CopyRows(h, db, child, meta, prefix);
    var logs' := logs[child := prefix];
    CopyRowsAre(h, db, child, meta, prefix);
    if child in logs { RunRowOf(h, db, logs, child); }
    forall k | k in db'.events
      ensures if db'.events[k].run == child then Belongs(h, logs', k, db'.events[k])
              else k in db.events && db.events[k] == db'.events[k]
    {
      if k in db.events { assert Belongs(h, logs, k, db.events[k]); }
    }
    RunReplaced(h, db, db', logs, child, prefix);
  }

  // ------------------------------------------------------------------
  // Snapshots

  ghost predicate SameAt<K, V>(a: map<K, V>, b: map<K, V>, k: K) {
    (k in a <==> k in b) && (k in a ==> a[k] == b[k])
  }

  /** What a snapshot still says of the server: records no commit has written since are as they
      were, and so is the log of every run whose run row no commit has written since. */
  ghost predicate Tracks(h: Hashing, srv: Server, txn: Txn) {
    && txn.began <= |srv.commits|
    && Represents(h, txn.snapshot, txn.base)
    && (forall k :: Untouched(srv, txn.began, RunRef(k)) ==> SameAt(srv.db.runs, txn.snapshot.runs, k))
    && (forall k :: Untouched(srv, txn.began, EventRef(k)) ==> SameAt(srv.db.events, txn.snapshot.events, k))
    && (forall run :: Untouched(srv, txn.began, RunRef(RunKey(h, run))) ==> SameAt(srv.logs, txn.base, run))
  }

  lemma NoConflict(srv: Server, txn: Txn)
    requires !Conflicted(srv, txn)
    ensures forall k :: k in txn.runWrites ==> Untouched(srv, txn.began, RunRef(k))
    ensures forall k :: k in txn.eventWrites ==> Untouched(srv, txn.began, EventRef(k))
  {
    forall k | k in txn.runWrites ensures Untouched(srv, txn.began, RunRef(k)) {
      assert RunRef(k) in WriteSet(txn);
    }
    forall k | k in txn.eventWrites ensures Untouched(srv, txn.began, EventRef(k)) {
      assert EventRef(k) in WriteSet(txn);
    }
  }

  /** The run row alone pins the run's log: if no commit wrote it, the log is unchanged. */
  lemma HeadUntouched(h: Hashing, srv: Server, txn: Txn, run: RunId)
    requires Represents(h, srv.db, srv.logs) && Tracks(h, srv, txn)
    requires Untouched(srv, txn.began, RunRef(RunKey(h, run))) && OwnRunRow(h, txn.snapshot, run).Some?
    ensures run in srv.logs && run in txn.base && srv.logs[run] == txn.base[run]
    ensures OwnRunRow(h, srv.db, run) == OwnRunRow(h, txn.snapshot, run)
    ensures OwnRunRow(h, txn.snapshot, run).value.nextSeq == |txn.base[run]|
    ensures OwnRunRow(h, txn.snapshot, run).value.headHash == HeadOf(h, run, txn.base[run])
  {
    var k := RunKey(h, run);
    assert txn.snapshot.runs[k].run in txn.base;
    assert RunMatches(h, txn.snapshot, run, txn.base[run]);
    assert SameAt(srv.db.runs, txn.snapshot.runs, k);
  }

  /** All of the run's event rows are then as they were, too. */
  lemma RunUntouched(h: Hashing, srv: Server, txn: Txn, run: RunId)
    requires Represents(h, srv.db, srv.logs) && Tracks(h, srv, txn)
    requires Untouched(srv, txn.began, RunRef(RunKey(h, run))) && OwnRunRow(h, txn.snapshot, run).Some?
    ensures run in srv.logs && run in txn.base && srv.logs[run] == txn.base[run]
    ensures OwnRunRow(h, srv.db, run) == OwnRunRow(h, txn.snapshot, run)
    ensures forall k :: (k in srv.db.events && srv.db.events[k].run == run) || (k in txn.snapshot.events && txn.snapshot.events[k].run == run) ==>
      SameAt(srv.db.events, txn.snapshot.events, k)
  {
    hide Represents, Tracks, Untouched, RunKey;
    HeadUntouched(h, srv, txn, run);
    SnapshotRepresents(h, srv, txn);
    forall k | (k in srv.db.events && srv.db.events[k].run == run) || (k in txn.snapshot.events && txn.snapshot.events[k].run == run)
      ensures SameAt(srv.db.events, txn.snapshot.events, k)
    {
      TruncatedRow(h, srv, txn, run, k);
    }
  }

  lemma SnapshotRepresents(h: Hashing, srv: Server, txn: Txn)
    requires Tracks(h, srv, txn)
    ensures Represents(h, txn.snapshot, txn.base)
  {
  }

  lemma AppendCommits(h: Hashing, srv: Server, run: RunId, nextSeq: int, headHash: Option<string>, e: Event<Value>, txn: Txn)
    requires Represents(h, srv.db, srv.logs) && Tracks(h, srv, txn)
    requires Encodable(AppendOp(e)) && Allowed(h, run, nextSeq, headHash, AppendOp(e), txn.snapshot)
    requires !Conflicted(srv, Stage(h, run, nextSeq, headHash, AppendOp(e), txn))
    ensures run in srv.logs && run in txn.base && srv.logs[run] == txn.base[run]
    ensures Represents(h, Apply(srv.db, Stage(h, run, nextSeq, headHash, AppendOp(e), txn)),
                       Spec(srv.logs, OpOf(h, run, AppendOp(e), txn.snapshot)))
  {
    hide HeadOf, Represents, RowAt, NewRow, Tracks, EventKey, RunKey, Conflicted, Untouched, WriteSet, EventToRecord, Preimage, Apply,
      ExtendRows;
    var staged := Stage(h, run, nextSeq, headHash, AppendOp(e), txn);
    NoConflict(srv, staged);
    HeadUntouched(h, srv, txn, run);
    SnapshotEvent(h, srv, txn, EventKey(h, run, e.id));
    NewRowExtends(h, run, srv.logs[run], e);
    ExtendRepresents(h, srv.db, srv.logs, run, Canon(e).value);
    AppendApplies(h, srv, run, e, staged);
  }

  lemma AppendApplies(h: Hashing, srv: Server, run: RunId, e: Event<Value>, staged: Txn)
    requires run in srv.logs && RunKey(h, run) in srv.db.runs && Canon(e).Some?
    requires
      var log := srv.logs[run];
      var created := NewRow(h, run, |log|, e, HeadOf(h, run, log));
      && created.Some? && created.value == RowAt(h, run, log + [Canon(e).value], |log|)
      && Some(created.value.hash) == HeadOf(h, run, log + [Canon(e).value])
      && staged.runWrites == map[RunKey(h, run) :=
           srv.db.runs[RunKey(h, run)].(nextSeq := |log| + 1, headHash := Some(created.value.hash))]
      && staged.eventWrites == map[EventKey(h, run, e.id) := Some(created.value)]
    ensures Apply(srv.db, staged) == ExtendRows(h, srv.db, run, srv.logs[run], Canon(e).value)
  {
    hide HeadOf, RowAt, NewRow, EventKey, RunKey;
    assert Canon(e).value.id == e.id;
    assert Apply(srv.db, staged).events == ExtendRows(h, srv.db, run, srv.logs[run], Canon(e).value).events;
  }

  lemma SnapshotEvent(h: Hashing, srv: Server, txn: Txn, k: string)
    requires Tracks(h, srv, txn) && Untouched(srv, txn.began, EventRef(k))
    ensures SameAt(srv.db.events, txn.snapshot.events, k)
  {
  }

  lemma TruncateCommits(h: Hashing, srv: Server, run: RunId, nextSeq: int, headHash: Option<string>, id: string, txn: Txn)
    requires Represents(h, srv.db, srv.logs) && Tracks(h, srv, txn)
    requires Allowed(h, run, nextSeq, headHash, TruncateOp(id), txn.snapshot)
    requires !Conflicted(srv, Stage(h, run, nextSeq, headHash, TruncateOp(id), txn))
    ensures run in srv.logs && run in txn.base && srv.logs[run] == txn.base[run]
    ensures
      var c := txn.snapshot.events[EventKey(h, run, id)].position;
      && 0 <= c < |srv.logs[run]|
      && EventKey(h, run, id) == EventKey(h, run, srv.logs[run][c].id)
      && OpOf(h, run, TruncateOp(id), txn.snapshot) == Cut(run, c + 1)
    ensures Represents(h, Apply(srv.db, Stage(h, run, nextSeq, headHash, TruncateOp(id), txn)),
                       Spec(srv.logs, OpOf(h, run, TruncateOp(id), txn.snapshot)))
  {
    hide HeadOf, Head, RowAt, Represents, EventKey, RunKey, Conflicted, Untouched, WriteSet, RunMatches, StoredPreimage, PreimageAt;
    var staged := Stage(h, run, nextSeq, headHash, TruncateOp(id), txn);
    NoConflict(srv, staged);
    HeadUntouched(h, srv, txn, run);
    CutHash(h, txn, run, id);
    var c := txn.snapshot.events[EventKey(h, run, id)].position;
    CutRepresents(h, srv.db, srv.logs, run, c + 1);
    TruncateApplies(h, srv, run, c, txn, staged);
  }

  function Deletes(db: Db, run: RunId, c: int): map<string, Option<EventRow>> {
    map e | e in db.events && db.events[e].run == run && db.events[e].position > c :: None
  }

  lemma TruncateApplies(h: Hashing, srv: Server, run: RunId, c: nat, txn: Txn, staged: Txn)
    requires Represents(h, srv.db, srv.logs) && Represents(h, txn.snapshot, txn.base)
    requires run in srv.logs && run in txn.base && srv.logs[run] == txn.base[run] && c < |srv.logs[run]|
    requires RunKey(h, run) in srv.db.runs
    requires staged.runWrites ==
      map[RunKey(h, run) := srv.db.runs[RunKey(h, run)].(nextSeq := c + 1, headHash := Head(h, run, srv.logs[run], c + 1))]
    requires staged.eventWrites == Deletes(txn.snapshot, run, c)
    ensures Apply(srv.db, staged) == CutRows(h, srv.db, run, srv.logs[run], c + 1)
  {
    hide Represents, Head, RunKey;
    TruncatedEvents(h, srv, run, c, txn);
  }

  /** The range delete chose its rows in the snapshot; they are the rows it would choose now. */
  lemma TruncatedEvents(h: Hashing, srv: Server, run: RunId, c: nat, txn: Txn)
    requires Represents(h, srv.db, srv.logs) && Represents(h, txn.snapshot, txn.base)
    requires run in srv.logs && run in txn.base && srv.logs[run] == txn.base[run] && c < |srv.logs[run]|
    requires RunKey(h, run) in srv.db.runs
    ensures Apply(srv.db, txn.(eventWrites := Deletes(txn.snapshot, run, c))).events == CutRows(h, srv.db, run, srv.logs[run], c + 1).events
  {
    hide Represents, RunMatches, RunKey;
    forall k ensures k in txn.snapshot.events && txn.snapshot.events[k].run == run <==> k in srv.db.events && srv.db.events[k].run == run
      ensures k in srv.db.events && srv.db.events[k].run == run ==> srv.db.events[k] == txn.snapshot.events[k]
    {
      TruncatedRow(h, srv, txn, run, k);
    }
  }

  lemma CutHash(h: Hashing, txn: Txn, run: RunId, id: string)
    requires Represents(h, txn.snapshot, txn.base)
    requires EventKey(h, run, id) in txn.snapshot.events && txn.snapshot.events[EventKey(h, run, id)].run == run
    ensures run in txn.base
    ensures
      var cutoff := txn.snapshot.events[EventKey(h, run, id)];
      && 0 <= cutoff.position < |txn.base[run]|
      && Some(cutoff.hash) == Head(h, run, txn.base[run], cutoff.position + 1)
      && EventKey(h, run, id) == EventKey(h, run, txn.base[run][cutoff.position].id)
  {
    StoredRow(h, txn.snapshot, txn.base, EventKey(h, run, id));
  }

  lemma TruncatedRow(h: Hashing, srv: Server, txn: Txn, run: RunId, k: string)
    requires Represents(h, srv.db, srv.logs) && Represents(h, txn.snapshot, txn.base)
    requires run in srv.logs && run in txn.base && srv.logs[run] == txn.base[run]
    ensures k in txn.snapshot.events && txn.snapshot.events[k].run == run <==> k in srv.db.events && srv.db.events[k].run == run
    ensures k in srv.db.events && srv.db.events[k].run == run ==> srv.db.events[k] == txn.snapshot.events[k]
  {
    if k in txn.snapshot.events && txn.snapshot.events[k].run == run {
      SameRunRow(h, txn.snapshot, txn.base, srv.db, srv.logs, run, k);
    }
    if k in srv.db.events && srv.db.events[k].run == run {
      SameRunRow(h, srv.db, srv.logs, txn.snapshot, txn.base, run, k);
    }
  }

  lemma SameRunRow(h: Hashing, a: Db, logs: map<RunId, Log>, b: Db, logs': map<RunId, Log>, run: RunId, k: string)
    requires Represents(h, a, logs) && Represents(h, b, logs')
    requires run in logs && run in logs' && logs[run] == logs'[run]
    requires k in a.events && a.events[k].run == run
    ensures k in b.events && a.events[k] == b.events[k]
  {
    StoredRow(h, a, logs, k);
    assert RunMatches(h, b, run, logs'[run]);
    assert Holds(h, b, run, logs'[run], a.events[k].position);
  }

  lemma ForkCommits(h: Hashing, srv: Server, run: RunId, nextSeq: int, headHash: Option<string>, plan: ForkPlan, txn: Txn)
    requires Represents(h, srv.db, srv.logs) && Tracks(h, srv, txn)
    requires Allowed(h, run, nextSeq, headHash, ForkOp(plan), txn.snapshot)
    requires !Conflicted(srv, Stage(h, run, nextSeq, headHash, ForkOp(plan), txn))
    ensures run in srv.logs && run in txn.base && srv.logs[run] == txn.base[run]
    ensures plan.headHash == HeadOf(h, run, srv.logs[run]) && plan.child !in srv.logs
    ensures Represents(h, Apply(srv.db, Stage(h, run, nextSeq, headHash, ForkOp(plan), txn)),
                       Spec(srv.logs, OpOf(h, run, ForkOp(plan), txn.snapshot)))
  {
    hide HeadOf, Represents, ChildWrites, Tracks, EventKey, RunKey, FreshKeys, Conflicted, Untouched, WriteSet, Apply, CopyRows;
    var staged := Stage(h, run, nextSeq, headHash, ForkOp(plan), txn);
    var prefix := Prefix(plan);
    NoConflict(srv, staged);
    HeadUntouched(h, srv, txn, run);
    SnapshotRun(h, srv, txn, RunKey(h, plan.child));
    ChildKeysStillFresh(h, srv, txn, plan.child, prefix);
    CopyRepresents(h, srv.db, srv.logs, plan.child, plan.meta, prefix);
    ForkApplies(h, srv.db, run, plan, staged);
  }

  /** The fork rewrites the parent's row as it is. */
  lemma ForkApplies(h: Hashing, db: Db, run: RunId, plan: ForkPlan, staged: Txn)
    requires plan.cutoff < |plan.seen| && RunKey(h, run) in db.runs && RunKey(h, plan.child) !in db.runs
    requires db.runs[RunKey(h, run)].nextSeq == plan.count && db.runs[RunKey(h, run)].headHash == plan.headHash
    requires
      var prefix, k := Prefix(plan), RunKey(h, run);
      && staged.runWrites == map[k := db.runs[k].(nextSeq := plan.count, headHash := plan.headHash)]
           + map[RunKey(h, plan.child) := RunRow(plan.child, plan.meta, |prefix|, HeadOf(h, plan.child, prefix))]
      && staged.eventWrites == ChildWrites(h, plan.child, prefix, |prefix|)
    ensures Apply(db, staged) == CopyRows(h, db, plan.child, plan.meta, Prefix(plan))
  {
    hide HeadOf, RunKey, ChildWrites;
    assert Apply(db, staged).runs == CopyRows(h, db, plan.child, plan.meta, Prefix(plan)).runs;
  }

  lemma ChildKeysStillFresh(h: Hashing, srv: Server, txn: Txn, child: RunId, prefix: Log)
    requires Tracks(h, srv, txn) && FreshKeys(h, txn.snapshot, child, prefix)
    requires forall k :: k in ChildWrites(h, child, prefix, |prefix|) ==> Untouched(srv, txn.began, EventRef(k))
    ensures FreshKeys(h, srv.db, child, prefix)
  {
    hide ChildWrites, Represents, Untouched, EventKey;
    ChildWritten(h, child, prefix, |prefix|);
    forall i | 0 <= i < |prefix| ensures EventKey(h, child, prefix[i].id) !in srv.db.events {
      SnapshotEvent(h, srv, txn, EventKey(h, child, prefix[i].id));
    }
  }

  lemma SnapshotRun(h: Hashing, srv: Server, txn: Txn, k: string)
    requires Tracks(h, srv, txn) && Untouched(srv, txn.began, RunRef(k))
    ensures SameAt(srv.db.runs, txn.snapshot.runs, k)
  {
  }
}
