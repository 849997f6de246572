/** Restoring logs event by event, and forks of forks, as a handle performs them. */
module LedgerRestores {
  import opened CanonicalJson
  import opened Serde
  import opened EventLog
  import opened Ledger
  import opened LedgerCommits
  import opened LedgerRuns
  import opened LedgerTheorems
  import opened LedgerProgress

  // ------------------------------------------------------------------
  // Sequences of actions

  lemma {:induction false} PerformTwice(h: Hashing, srv: Server, hd: Handle, a: seq<Action>, b: seq<Action>)
    ensures Perform(h, srv, hd, a + b) == Perform(h, Perform(h, srv, hd, a).0, Perform(h, srv, hd, a).1, b)
    decreases |a|
  {
    hide Act;
    if a == [] {
      assert a + b == b;
    } else {
      PerformTwice(h, Act(h, srv, hd, a[0]).0, Act(h, srv, hd, a[0]).1, a[1..], b);
      assert (a + b)[1..] == a[1..] + b;
    }
  }

  /** Append decoded copies of the events, one after the other. */
  function Appends(events: Log): seq<Action> {
    if events == [] then [] else Appends(events[..|events| - 1]) + ([BeginAppend(Thawed(events[|events| - 1]))] + TRANSACT)
  }

  // ------------------------------------------------------------------
  // Which keys are free

  /** Whatever event row is stored under a key, some log holds its event there. */
  lemma KeyBelongs(h: Hashing, db: Db, logs: map<RunId, Log>, k: string)
    requires Represents(h, db, logs) && k in db.events
    ensures
      var row := db.events[k];
      && row.run in logs && 0 <= row.position < |logs[row.run]|
      && k == EventKey(h, row.run, logs[row.run][row.position].id)
  {
    hide HeadOf, EventKey, RunKey, RunMatches;
    assert Belongs(h, logs, k, db.events[k]);
  }

  lemma KeyStored(h: Hashing, db: Db, logs: map<RunId, Log>, run: RunId, i: nat)
    requires Represents(h, db, logs) && run in logs && i < |logs[run]|
    ensures
      var k := EventKey(h, run, logs[run][i].id);
      k in db.events && db.events[k].run == run && db.events[k].position == i
  {
    hide HeadOf, EventKey, RunKey, Belongs;
    assert RunMatches(h, db, run, logs[run]);
    assert Holds(h, db, run, logs[run], i);
  }

  /** The keys of the events a truncation removed are free afterwards: each could hold one row
      before, and that was the removed one. */
  lemma RemovedKeysAreFree(h: Hashing, db: Db, logs: map<RunId, Log>, db': Db, logs': map<RunId, Log>, run: RunId, n: nat)
    requires Represents(h, db, logs) && Represents(h, db', logs')
    requires run in logs && n <= |logs[run]| && logs' == logs[run := logs[run][..n]]
    ensures FreshKeys(h, db', run, logs[run][n..])
  {
    hide Represents, EventKey;
    var log := logs[run];
    forall i | 0 <= i < |log[n..]| ensures EventKey(h, run, log[n..][i].id) !in db'.events {
      var k := EventKey(h, run, log[n + i].id);
      KeyStored(h, db, logs, run, n + i);
      if k in db'.events {
        KeyBelongs(h, db', logs', k);
        KeyStored(h, db, logs, db'.events[k].run, db'.events[k].position);
        assert false;
      }
    }
    forall i, j | 0 <= i < j < |log[n..]| ensures EventKey(h, run, log[n..][i].id) != EventKey(h, run, log[n..][j].id) {
      EventIdsDistinct(h, db, logs, run, n + i, n + j);
    }
  }

  /** An append uses up one key. */
  lemma OneKeyUsed(h: Hashing, db: Db, logs: map<RunId, Log>, db': Db, logs': map<RunId, Log>, run: RunId, id: string, k: string)
    requires Represents(h, db, logs) && Represents(h, db', logs') && k in db'.events
    requires run in logs && run in logs' && |logs'[run]| == |logs[run]| + 1 && logs'[run][..|logs[run]|] == logs[run]
    requires logs'[run][|logs[run]|].id == id && logs' == logs[run := logs'[run]]
    ensures k in db.events || k == EventKey(h, run, id)
  {
    hide Represents, EventKey;
    KeyBelongs(h, db', logs', k);
    var row := db'.events[k];
    if row.run != run || row.position < |logs[run]| {
      KeyStored(h, db, logs, row.run, row.position);
      assert logs'[row.run][row.position] == logs[row.run][row.position];
    }
  }

  /** Rows are determined by the logs. */
  lemma SameLogsSameRows(h: Hashing, a: Db, b: Db, logs: map<RunId, Log>)
    requires Represents(h, a, logs) && Represents(h, b, logs)
    ensures a.events == b.events
  {
    hide Represents;
    forall k | k in a.events ensures k in b.events && a.events[k] == b.events[k] {
      KeyBelongs(h, a, logs, k);
      SameRunRow(h, a, logs, b, logs, a.events[k].run, k);
    }
    forall k | k in b.events ensures k in a.events {
      KeyBelongs(h, b, logs, k);
      SameRunRow(h, b, logs, a, logs, b.events[k].run, k);
    }
  }

  // ------------------------------------------------------------------
  // Appending many events

  /** An up-to-date handle appends decoded events whose keys are free, one by one; every append
      succeeds, and the log ends extended by exactly those events. */
  lemma {:induction false} RestoreExtends(h: Hashing, srv: Server, hd: Handle, events: Log)
    requires UpToDate(h, srv, hd) && FreshKeys(h, srv.db, hd.run, events)
    ensures
      var (srv', hd') := Perform(h, srv, hd, Appends(events));
      && srv'.logs == srv.logs[hd.run := srv.logs[hd.run] + events] && UpToDate(h, srv', hd') && hd'.run == hd.run
      && (forall k :: k in srv'.db.events ==> k in srv.db.events || exists i :: 0 <= i < |events| && k == EventKey(h, hd.run, events[i].id))
    decreases |events|
  {
    hide Represents, HandleHolds, EventKey, Perform;
    if events == [] {
      PerformsNothing(h, srv, hd);
    } else {
      var n := |events| - 1;
      var e := events[n];
      FreshPrefix(h, srv.db, hd.run, events, n);
      RestoreExtends(h, srv, hd, events[..n]);
      var (srv1, hd1) := Perform(h, srv, hd, Appends(events[..n]));
      PerformTwice(h, srv, hd, Appends(events[..n]), [BeginAppend(Thawed(e))] + TRANSACT);
      RecordReadsBack(e);
      UncontendedAppend(h, srv1, hd1, Thawed(e));
      var (srv2, hd2) := Perform(h, srv1, hd1, [BeginAppend(Thawed(e))] + TRANSACT);
      RestoredLogs(srv.logs, hd.run, events, n);
      AppendUsesKey(h, srv1, hd1, srv2, hd2, e);
      forall k | k in srv2.db.events
        ensures k in srv.db.events || exists i :: 0 <= i < |events| && k == EventKey(h, hd.run, events[i].id)
      {
        if k !in srv.db.events && k in srv1.db.events {
          var i :| 0 <= i < n && k == EventKey(h, hd.run, events[..n][i].id);
          assert events[i] == events[..n][i];
        }
      }
    }
  }

  lemma PerformsNothing(h: Hashing, srv: Server, hd: Handle)
    requires hd.run in srv.logs
    ensures Perform(h, srv, hd, []) == (srv, hd) && srv.logs[hd.run := srv.logs[hd.run] + []] == srv.logs
  {
    assert srv.logs[hd.run] + [] == srv.logs[hd.run];
  }

  lemma FreshPrefix(h: Hashing, db: Db, run: RunId, events: Log, n: nat)
    requires n < |events| && FreshKeys(h, db, run, events)
    ensures FreshKeys(h, db, run, events[..n])
    ensures EventKey(h, run, events[n].id) !in db.events
    ensures forall i :: 0 <= i < n ==> EventKey(h, run, events[..n][i].id) != EventKey(h, run, events[n].id)
  {
    hide EventKey;
  }

  lemma RestoredLogs(logs: map<RunId, Log>, run: RunId, events: Log, n: nat)
    requires run in logs && |events| == n + 1
    ensures
      var before := logs[run := logs[run] + events[..n]];
      before[run := before[run] + [events[n]]] == logs[run := logs[run] + events]
  {
    assert events[..n] + [events[n]] == events;
    assert logs[run] + events[..n] + [events[n]] == logs[run] + events;
  }

  lemma AppendUsesKey(h: Hashing, srv: Server, hd: Handle, srv': Server, hd': Handle, e: Event<Json>)
    requires UpToDate(h, srv, hd) && UpToDate(h, srv', hd')
    requires srv'.logs == srv.logs[hd.run := srv.logs[hd.run] + [e]]
    ensures forall k :: k in srv'.db.events ==> k in srv.db.events || k == EventKey(h, hd.run, e.id)
  {
    hide Represents, HandleHolds, EventKey;
    forall k | k in srv'.db.events ensures k in srv.db.events || k == EventKey(h, hd.run, e.id) {
      OneKeyUsed(h, srv.db, srv.logs, srv'.db, srv'.logs, hd.run, e.id, k);
    }
  }

  // ------------------------------------------------------------------
  // Truncate and append again; restore an export

  /** The run row holds the head of the log, whoever wrote it. */
  lemma HeadOfRow(h: Hashing, db: Db, logs: map<RunId, Log>, run: RunId)
    requires Represents(h, db, logs) && run in logs
    ensures OwnRunRow(h, db, run).Some?
    ensures OwnRunRow(h, db, run).value.nextSeq == |logs[run]| && OwnRunRow(h, db, run).value.headHash == HeadOf(h, run, logs[run])
  {
    hide HeadOf, Holds, Belongs;
    assert RunMatches(h, db, run, logs[run]);
  }

  /** An up-to-date handle that truncates and then appends decoded copies of the removed events
      succeeds throughout, and leaves every event row and the head as they were before. */
  lemma ReappendRestores(h: Hashing, srv: Server, hd: Handle, i: nat)
    requires UpToDate(h, srv, hd) && i < |srv.logs[hd.run]|
    ensures
      var log := srv.logs[hd.run];
      var (srv', hd') := Perform(h, srv, hd, [BeginTruncate(log[i].id)] + TRANSACT + Appends(log[i + 1..]));
      && srv'.logs == srv.logs && UpToDate(h, srv', hd') && hd'.nextSeq == hd.nextSeq && hd'.headHash == hd.headHash
      && srv'.db.events == srv.db.events
      && OwnRunRow(h, srv'.db, hd.run).Some? && OwnRunRow(h, srv.db, hd.run).Some?
      && OwnRunRow(h, srv'.db, hd.run).value.nextSeq == OwnRunRow(h, srv.db, hd.run).value.nextSeq
      && OwnRunRow(h, srv'.db, hd.run).value.headHash == OwnRunRow(h, srv.db, hd.run).value.headHash
  {
    hide Represents, HandleHolds, EventKey, RunKey, Perform, FreshKeys, HeadOf, Appends;
    var log := srv.logs[hd.run];
    var cut, again := [BeginTruncate(log[i].id)] + TRANSACT, Appends(log[i + 1..]);
    UncontendedTruncate(h, srv, hd, i);
    var (srv1, hd1) := Perform(h, srv, hd, cut);
    RemovedKeysAreFree(h, srv.db, srv.logs, srv1.db, srv1.logs, hd.run, i + 1);
    RestoreExtends(h, srv1, hd1, log[i + 1..]);
    PerformTwice(h, srv, hd, cut, again);
    var (srv2, hd2) := Perform(h, srv1, hd1, again);
    assert log[..i + 1] + log[i + 1..] == log;
    assert srv2.logs == srv.logs;
    SameLogsSameRows(h, srv2.db, srv.db, srv.logs);
    HeadOfRow(h, srv.db, srv.logs, hd.run);
    HeadOfRow(h, srv2.db, srv.logs, hd.run);
    UpToDateHead(h, srv, hd);
    UpToDateHead(h, srv2, hd2);
  }

  lemma UpToDateHead(h: Hashing, srv: Server, hd: Handle)
    requires UpToDate(h, srv, hd)
    ensures hd.nextSeq == |srv.logs[hd.run]| && hd.headHash == HeadOf(h, hd.run, srv.logs[hd.run])
  {
    hide Represents, HeadOf;
  }

  /** A run's events, exported from any database, appended in order into an empty run of the same
      name in any other database, give the same event rows, sequence and head; or an event key clashes
      with another run's. */
  lemma RestoreIntoEmptyRun(h: Hashing, source: Db, logs: map<RunId, Log>, srv: Server, hd: Handle)
    returns (p: seq<string>, q: seq<string>)
    requires Represents(h, source, logs) && hd.run in logs
    requires UpToDate(h, srv, hd) && srv.logs[hd.run] == []
    ensures
      var (srv', hd') := Perform(h, srv, hd, Appends(logs[hd.run]));
      || (&& srv'.logs == srv.logs[hd.run := logs[hd.run]] && UpToDate(h, srv', hd')
          && SelectRows(srv'.db, hd.run) == SelectRows(source, hd.run)
          && OwnRunRow(h, srv'.db, hd.run).Some? && OwnRunRow(h, source, hd.run).Some?
          && OwnRunRow(h, srv'.db, hd.run).value.nextSeq == OwnRunRow(h, source, hd.run).value.nextSeq
          && OwnRunRow(h, srv'.db, hd.run).value.headHash == OwnRunRow(h, source, hd.run).value.headHash)
      || (p != q && h.key(p) == h.key(q))
  {
    hide Represents, HandleHolds, EventKey, RunKey, Perform, FreshKeys, HeadOf, Appends, SelectRows;
    p, q := [], [];
    if FreshKeys(h, srv.db, hd.run, logs[hd.run]) {
      RestoreExtends(h, srv, hd, logs[hd.run]);
      assert [] + logs[hd.run] == logs[hd.run];
      var (srv', hd') := Perform(h, srv, hd, Appends(logs[hd.run]));
      ChainDependsOnlyOnEvents(h, srv'.db, srv'.logs, source, logs, hd.run);
    } else {
      p, q := TakenKeyClashes(h, source, logs, srv.db, srv.logs, hd.run);
    }
  }

  lemma TakenKeyClashes(h: Hashing, source: Db, logs: map<RunId, Log>, db: Db, logs': map<RunId, Log>, run: RunId)
    returns (p: seq<string>, q: seq<string>)
    requires Represents(h, source, logs) && run in logs && Represents(h, db, logs') && run in logs' && logs'[run] == []
    requires !FreshKeys(h, db, run, logs[run])
    ensures p != q && h.key(p) == h.key(q)
  {
    hide Represents;
    var log := logs[run];
    forall i, j | 0 <= i < j < |log| ensures EventKey(h, run, log[i].id) != EventKey(h, run, log[j].id) {
      EventIdsDistinct(h, source, logs, run, i, j);
    }
    var i :| 0 <= i < |log| && EventKey(h, run, log[i].id) in db.events;
    var k := EventKey(h, run, log[i].id);
    KeyBelongs(h, db, logs', k);
    var other := db.events[k].run;
    p := ["ag_event", run.scope, run.name, log[i].id];
    q := ["ag_event", other.scope, other.name, logs'[other][db.events[k].position].id];
    assert p[1] == run.scope && p[2] == run.name && q[1] == other.scope && q[2] == other.name;
  }

  // ------------------------------------------------------------------
  // Forks of forks

  lemma {:induction false} FindInPrefix(log: Log, n: nat, at: string)
    requires n <= |log| && Find(log, at).Some? && Find(log, at).value < n
    ensures Find(log[..n], at) == Find(log, at)
  {
    if log[0].id != at {
      assert log[..n][1..] == log[1..][..n - 1];
      FindInPrefix(log[1..], n - 1, at);
    }
  }

  /** A handle forks its run into a child; a handle opened on the child (`hd1`) forks that at an
      event up to the first cutoff into a grandchild.  Forking the parent there directly into a run of
      the grandchild's name, in the original database, gives the same rows, sequence and head. */
  lemma ForksCompose(h: Hashing, srv: Server, hd: Handle, first: ForkRequest, second: ForkRequest, hd1: Handle)
    requires CanFork(h, srv, hd, first) && CanFork(h, srv, hd, second)
    requires Find(srv.logs[hd.run], second.at).value <= Find(srv.logs[hd.run], first.at).value
    requires hd1.run == RunId(hd.run.scope, first.name)
    requires CanFork(h, Perform(h, srv, hd, Fork(first)).0, hd1, second)
    ensures
      var grandchild := RunId(hd.run.scope, second.name);
      var twice := Perform(h, Perform(h, srv, hd, Fork(first)).0, hd1, Fork(second)).0;
      var once := Perform(h, srv, hd, Fork(second)).0;
      && grandchild in twice.logs && grandchild in once.logs && twice.logs[grandchild] == once.logs[grandchild]
      && SelectRows(twice.db, grandchild) == SelectRows(once.db, grandchild)
      && OwnRunRow(h, twice.db, grandchild).Some? && OwnRunRow(h, once.db, grandchild).Some?
      && OwnRunRow(h, twice.db, grandchild).value.nextSeq == OwnRunRow(h, once.db, grandchild).value.nextSeq
      && OwnRunRow(h, twice.db, grandchild).value.headHash == OwnRunRow(h, once.db, grandchild).value.headHash
  {
    hide HandleHolds, EventKey, RunKey, Perform, FreshKeys, HeadOf, SelectRows, Find, Represents, OwnRunRow;
    var parent := srv.logs[hd.run];
    var c, d := Find(parent, first.at).value, Find(parent, second.at).value;
    UncontendedFork(h, srv, hd, first);
    UncontendedFork(h, srv, hd, second);
    var srv1 := Perform(h, srv, hd, Fork(first)).0;
    UncontendedFork(h, srv1, hd1, second);
    FindInPrefix(parent, c + 1, second.at);
    assert parent[..c + 1][..d + 1] == parent[..d + 1];
    var once := Perform(h, srv, hd, Fork(second)).0;
    var twice := Perform(h, srv1, hd1, Fork(second)).0;
    ChainDependsOnlyOnEvents(h, twice.db, twice.logs, once.db, once.logs, RunId(hd.run.scope, second.name));
  }
}
