/** Replaying an event log into a projection when any statement may fail. */
module Replay {
  import opened Wrappers
  import opened CanonicalJson
  import opened Serde
  import opened EventLog
  import opened LedgerRuns
  import opened LedgerTheorems
  import opened GraphTables
  import GraphRefinement
  import opened ProjectionStore
  import EventStore

  /** What replaying one event does to the store: mutations, then perhaps an exception. */
  datatype Effect = Effect(mutations: seq<Mutation>, raises: bool)

  /** The framework's side: the effect of each event, and whether reseeding its counters succeeds. */
  datatype Replayer = Replayer(effect: Event<Json> -> Effect, reseeds: Log -> bool)

  datatype ReplayError = ValueError | ReplayFailed

  function Mutations(rp: Replayer, log: Log): seq<Mutation> {
    if log == [] then [] else Mutations(rp, log[..|log| - 1]) + rp.effect(log[|log| - 1]).mutations
  }

  predicate Compacted(log: Log) { log != [] && log[0].kind == CompactedKind() }

  /** Replaying the log runs into nothing but the database's own failures. */
  ghost predicate Replays(h: Hashing, t: Tables, run: RunId, rp: Replayer, log: Log) {
    && !Compacted(log) && (forall e <- log :: !rp.effect(e).raises) && rp.reseeds(log)
    && Rebuilt(h, t, run, Mutations(rp, log)).Some?
  }

  ghost predicate AllAcknowledged(faults: nat -> Outcome, from: nat, to: nat) {
    forall i :: from <= i < to ==> faults(i).Acknowledged?
  }

  /** The statement that marks the projection ready, counted from the first of the rebuild. */
  function ReadyAt(clock: nat, rp: Replayer, log: Log): nat { clock + 4 + 2 * |Mutations(rp, log)| }

  /** The whole log is replayed and only marking the projection ready remains. */
  ghost predicate Builds(h: Hashing, t: Tables, run: RunId, rp: Replayer, listing: Option<Log>, faults: nat -> Outcome, clock: nat) {
    listing.Some? && Replays(h, t, run, rp, listing.value) && AllAcknowledged(faults, clock, ReadyAt(clock, rp, listing.value))
  }

  // ------------------------------------------------------------------
  // The replay loop

  lemma RebuiltNext(h: Hashing, t: Tables, run: RunId, done: seq<Mutation>, ms: seq<Mutation>, i: nat)
    requires i < |ms| && Rebuilt(h, t, run, done + ms[..i]).Some?
    ensures Rebuilt(h, t, run, done + ms[..i + 1]) == Mutate(h, Rebuilt(h, t, run, done + ms[..i]).value, run, ms[i])
    ensures Rebuilt(h, t, run, done + ms[..i + 1]).None? ==> Rebuilt(h, t, run, done + ms).None?
  {
    hide Mutate, MutateAll;
    var all := CLEARING + (done + ms);
    var n := 3 + |done| + i;
    assert all[..n] == CLEARING + (done + ms[..i]);
    assert all[..n + 1] == CLEARING + (done + ms[..i + 1]);
    MutateNext(h, t, run, all, n);
    if Rebuilt(h, t, run, done + ms[..i + 1]).None? {
      MutateStops(h, t, run, all, n + 1);
    }
  }

  /** The store keeps its rebuild open to its own writes only. */
  ghost predicate Rebuilds(store: SurrealGraphStore, t: Tables, done: seq<Mutation>)
    reads store, store.db
  {
    && !store.closed && store.rebuildingHere
    && StatusOf(store.db.hashing, store.db.store, store.run) == Some(Rebuilding)
    && Rebuilt(store.db.hashing, t, store.run, done) == Some(store.db.store.tables)
  }

  lemma RebuiltIsPartly(h: Hashing, t: Tables, run: RunId, done: seq<Mutation>, all: seq<Mutation>, now: Tables)
    requires done <= all && Rebuilt(h, t, run, done) == Some(now)
    ensures Partly(h, t, run, CLEARING + all, now)
  {
    hide MutateAll, Partly;
    PrefixIsPartly(h, t, run, CLEARING + all, CLEARING + done, now);
  }

  lemma WholeIsLastPrefix(done: seq<Mutation>, ms: seq<Mutation>)
    ensures done + ms[..0] == done && done + ms[..|ms|] == done + ms
  {
  }

  /** Replaying one event makes all of its mutations, or raises at the first that fails. */
  method ReplayEvent(store: SurrealGraphStore, effect: Effect, ghost t: Tables, ghost done: seq<Mutation>, ghost all: seq<Mutation>)
    returns (ok: bool)
    requires Rebuilds(store, t, done) && done + effect.mutations <= all
    modifies store.db
    ensures ok <==>
      && !effect.raises && Rebuilt(store.db.hashing, t, store.run, done + effect.mutations).Some?
      && AllAcknowledged(store.db.faults, old(store.db.clock), old(store.db.clock) + 2 * |effect.mutations|)
    ensures ok ==> Rebuilds(store, t, done + effect.mutations)
    ensures ok ==> store.db.clock == old(store.db.clock) + 2 * |effect.mutations|
    ensures store.db.store.projections == old(store.db.store).projections
    ensures OnlyRowsWritten(store.db.trace, old(store.db.trace), old(store.db.store))
    ensures Partly(store.db.hashing, t, store.run, CLEARING + all, store.db.store.tables)
    ensures Stepwise(store.db.hashing, t, store.run, CLEARING + all, store.db.trace, old(store.db.trace))
  {
    hide Mutate, Rebuilt, Partly;
    var db, ms := store.db, effect.mutations;
    WholeIsLastPrefix(done, ms);
    for i := 0 to |ms|
      invariant Rebuilds(store, t, done + ms[..i])
      invariant db.clock == old(db.clock) + 2 * i && AllAcknowledged(db.faults, old(db.clock), db.clock)
      invariant db.store.projections == old(db.store).projections
      invariant OnlyRowsWritten(db.trace, old(db.trace), old(db.store))
      invariant Stepwise(db.hashing, t, store.run, CLEARING + all, db.trace, old(db.trace))
    {
      RebuiltNext(db.hashing, t, store.run, done, ms, i);
      RebuiltIsPartly(db.hashing, t, store.run, done + ms[..i], all, db.store.tables);
      ghost var before, middle := db.store, db.trace;
      ok := store.Write(ms[i]);
      if db.store != before {
        RebuiltIsPartly(db.hashing, t, store.run, done + ms[..i + 1], all, db.store.tables);
      }
      OneMoreStep(db.hashing, t, store.run, CLEARING + all, db.trace, middle, db.store);
      StepwiseOn(db.hashing, t, store.run, CLEARING + all, db.trace, middle, old(db.trace));
      if !ok {
        return false;
      }
    }
    RebuiltIsPartly(db.hashing, t, store.run, done + ms, all, db.store.tables);
    ok := !effect.raises;
  }

  lemma {:induction false} RebuiltPrefix(h: Hashing, t: Tables, run: RunId, rp: Replayer, log: Log, i: nat)
    requires i <= |log| && Rebuilt(h, t, run, Mutations(rp, log[..i])).None?
    ensures Rebuilt(h, t, run, Mutations(rp, log)).None?
    decreases |log| - i
  {
    hide MutateAll;
    if i == |log| {
      assert log[..i] == log;
    } else {
      var shorter := CLEARING + Mutations(rp, log[..i]);
      var longer := CLEARING + Mutations(rp, log[..i + 1]);
      assert log[..i + 1][..i] == log[..i];
      assert longer[..|shorter|] == shorter;
      MutateStops(h, t, run, longer, |shorter|);
      RebuiltPrefix(h, t, run, rp, log, i + 1);
    }
  }

  lemma MutationsNext(rp: Replayer, log: Log, i: nat)
    requires i < |log|
    ensures Mutations(rp, log[..i + 1]) == Mutations(rp, log[..i]) + rp.effect(log[i]).mutations
  {
    assert log[..i + 1][..i] == log[..i];
  }

  lemma {:induction false} MutationsLonger(rp: Replayer, log: Log, i: nat)
    requires i <= |log|
    ensures Mutations(rp, log[..i]) <= Mutations(rp, log)
    decreases |log| - i
  {
    if i == |log| {
      assert log[..i] == log;
    } else {
      MutationsNext(rp, log, i);
      MutationsLonger(rp, log, i + 1);
    }
  }

  /** Replaying the events in order. */
  method ReplayEvents(store: SurrealGraphStore, rp: Replayer, log: Log, ghost t: Tables) returns (ok: bool)
    requires Rebuilds(store, t, [])
    modifies store.db
    ensures ok <==>
      && (forall e <- log :: !rp.effect(e).raises) && Rebuilt(store.db.hashing, t, store.run, Mutations(rp, log)).Some?
      && AllAcknowledged(store.db.faults, old(store.db.clock), old(store.db.clock) + 2 * |Mutations(rp, log)|)
    ensures ok ==> Rebuilds(store, t, Mutations(rp, log))
    ensures ok ==> store.db.clock == old(store.db.clock) + 2 * |Mutations(rp, log)|
    ensures store.db.store.projections == old(store.db.store).projections
    ensures OnlyRowsWritten(store.db.trace, old(store.db.trace), old(store.db.store))
    ensures Partly(store.db.hashing, t, store.run, CLEARING + Mutations(rp, log), store.db.store.tables)
    ensures Stepwise(store.db.hashing, t, store.run, CLEARING + Mutations(rp, log), store.db.trace, old(store.db.trace))
  {
    hide Rebuilt, Partly;
    ghost var all := Mutations(rp, log);
    var db := store.db;
    for i := 0 to |log|
      invariant Rebuilds(store, t, Mutations(rp, log[..i]))
      invariant forall j :: 0 <= j < i ==> !rp.effect(log[j]).raises
      invariant db.clock == old(db.clock) + 2 * |Mutations(rp, log[..i])| && AllAcknowledged(db.faults, old(db.clock), db.clock)
      invariant db.store.projections == old(db.store).projections
      invariant OnlyRowsWritten(db.trace, old(db.trace), old(db.store))
      invariant Stepwise(db.hashing, t, store.run, CLEARING + all, db.trace, old(db.trace))
    {
      MutationsNext(rp, log, i);
      MutationsLonger(rp, log, i + 1);
      ghost var middle := db.trace;
      ok := ReplayEvent(store, rp.effect(log[i]), t, Mutations(rp, log[..i]), all);
      StepwiseOn(db.hashing, t, store.run, CLEARING + all, db.trace, middle, old(db.trace));
      if !ok {
        if Rebuilt(db.hashing, t, store.run, Mutations(rp, log[..i + 1])).None? {
          RebuiltPrefix(db.hashing, t, store.run, rp, log, i + 1);
        }
        return false;
      }
    }
    assert log[..|log|] == log;
    RebuiltIsPartly(db.hashing, t, store.run, all, all, db.store.tables);
    ok := true;
  }

  // ------------------------------------------------------------------
  // What others may see while a replay is under way

  /** The rows a completed replay leaves. */
  ghost function Complete(h: Hashing, t: Tables, run: RunId, rp: Replayer, listing: Option<Log>, faults: nat -> Outcome, clock: nat)
    : Option<Tables>
  {
    if Builds(h, t, run, rp, listing, faults, clock) then Rebuilt(h, t, run, Mutations(rp, listing.value)) else None
  }

  /** Any handle that is not itself rebuilding is refused, or served the rows from before the replay
      or those of the completed one. */
  ghost predicate Safe(h: Hashing, run: RunId, before: Tables, complete: Option<Tables>, s: Store) {
    Served(h, s, run, false) ==> s.tables == before || Some(s.tables) == complete
  }

  ghost predicate AllSafe(h: Hashing, run: RunId, before: Tables, complete: Option<Tables>, trace: seq<Store>, earlier: seq<Store>) {
    earlier <= trace && forall i :: |earlier| <= i < |trace| ==> Safe(h, run, before, complete, trace[i])
  }

  lemma HiddenIsSafe(h: Hashing, run: RunId, s: Store, complete: Option<Tables>, trace: seq<Store>, earlier: seq<Store>)
    requires HiddenFromOthers(h, run, s, trace, earlier)
    ensures AllSafe(h, run, s.tables, complete, trace, earlier)
  {
  }

  lemma RowsWrittenSafe(h: Hashing, run: RunId, before: Tables, complete: Option<Tables>, s: Store, trace: seq<Store>, earlier: seq<Store>)
    requires OnlyRowsWritten(trace, earlier, s) && StatusOf(h, s, run) == Some(Rebuilding)
    ensures AllSafe(h, run, before, complete, trace, earlier)
  {
    forall i | |earlier| <= i < |trace| ensures Safe(h, run, before, complete, trace[i]) {
      assert StatusOf(h, trace[i], run) == StatusOf(h, s, run);
    }
  }

  lemma SafeOnwards(h: Hashing, run: RunId, before: Tables, complete: Option<Tables>, trace: seq<Store>, middle: seq<Store>, earlier: seq<Store>)
    requires AllSafe(h, run, before, complete, middle, earlier) && AllSafe(h, run, before, complete, trace, middle)
    ensures AllSafe(h, run, before, complete, trace, earlier)
  {
    hide Safe;
    forall i | |earlier| <= i < |trace| ensures Safe(h, run, before, complete, trace[i]) {
      if i < |middle| { assert trace[i] == middle[i]; }
    }
  }

  lemma OneMoreSafe(h: Hashing, run: RunId, before: Tables, complete: Option<Tables>, s: Store, trace: seq<Store>, earlier: seq<Store>)
    requires trace == earlier + [s] && Safe(h, run, before, complete, s)
    ensures AllSafe(h, run, before, complete, trace, earlier)
  {
    hide Safe;
  }

  // ------------------------------------------------------------------
  // The guarded part of `replay_graph`

  /** The tables this log leaves, provided the statements up to marking them ready are acknowledged. */
  ghost function Leaves(h: Hashing, t: Tables, run: RunId, rp: Replayer, log: Log, acknowledged: bool): Option<Tables> {
    if acknowledged && Replays(h, t, run, rp, log) then Rebuilt(h, t, run, Mutations(rp, log)) else None
  }

  /** The part after the event log has been read. */
  method ReplayAndMark(store: SurrealGraphStore, rp: Replayer, log: Log, ghost t: Tables) returns (ok: bool)
    requires Rebuilds(store, t, [])
    modifies store`rebuildingHere, store.db
    ensures
      var db, clock, ready := store.db, old(store.db.clock), old(store.db.clock) + 2 * |Mutations(rp, log)|;
      var complete := Leaves(db.hashing, t, store.run, rp, log, AllAcknowledged(db.faults, clock, ready));
      && (ok <==> complete.Some? && db.faults(ready).Acknowledged?)
      && (ok <==> !store.rebuildingHere)
      && (complete.Some? ==> db.clock == ready + 1)
      && (if complete.Some? && !db.faults(ready).Refused?
          then db.store == WithStatus(db.hashing, old(db.store).(tables := complete.value), store.run, Ready, None)
          else db.store.projections == old(db.store).projections)
      && AllSafe(db.hashing, store.run, t, complete, db.trace, old(db.trace))
      && Partly(db.hashing, t, store.run, CLEARING + Mutations(rp, log), db.store.tables)
      && Stepwise(db.hashing, t, store.run, CLEARING + Mutations(rp, log), db.trace, old(db.trace))
  {
    hide Rebuilt, MutateAll, Safe, Partly;
    var db := store.db;
    ghost var all := Mutations(rp, log);
    RebuiltIsPartly(db.hashing, t, store.run, [], all, db.store.tables);
    ghost var complete := Leaves(db.hashing, t, store.run, rp, log, AllAcknowledged(db.faults, db.clock, db.clock + 2 * |Mutations(rp, log)|));
    if Compacted(log) {
      NothingMoreSafe(db.hashing, store.run, t, complete, db.trace);
      return false;
    }
    ok := ReplayEvents(store, rp, log, t);
    RowsWrittenSafe(db.hashing, store.run, t, complete, old(db.store), db.trace, old(db.trace));
    if !ok || !rp.reseeds(log) {
      return false;
    }
    ghost var middle := db.trace;
    ok := store.MarkReady();
    OneMoreStep(db.hashing, t, store.run, CLEARING + all, db.trace, middle, db.store);
    StepwiseOn(db.hashing, t, store.run, CLEARING + all, db.trace, middle, old(db.trace));
    ReadyIsSafe(db.hashing, store.run, t, complete, db.store);
    OneMoreSafe(db.hashing, store.run, t, complete, db.store, db.trace, middle);
    SafeOnwards(db.hashing, store.run, t, complete, db.trace, middle, old(db.trace));
  }

  lemma NothingMoreSafe(h: Hashing, run: RunId, before: Tables, complete: Option<Tables>, trace: seq<Store>)
    ensures AllSafe(h, run, before, complete, trace, trace)
  {
  }

  lemma ReadyIsSafe(h: Hashing, run: RunId, before: Tables, complete: Option<Tables>, s: Store)
    requires Some(s.tables) == complete
    ensures Safe(h, run, before, complete, s)
  {
  }

  /** Nothing keeps the event store from reading its log. */
  predicate Readable(closed: bool, fails: bool, reading: seq<Step>) { !closed && !fails && reading == [] }

  /** `list(event_store.iter_events())`; `None` when it raises. */
  method ReadLog(events: EventStore.SurrealEventStore, reading: seq<Step>, fails: bool) returns (log: Option<Log>)
    requires events.Valid()
    modifies events.db
    ensures events.Valid()
    ensures log.Some? ==>
      && events.run in events.db.world.server.logs
      && SameOrCollision(events.db.hashing, events.run, log.value, events.db.world.server.logs[events.run])
    ensures fails ==> log.None?
    ensures Readable(events.closed, fails, reading) && events.run in old(events.db.world).server.logs ==>
      events.run in events.db.world.server.logs && log == Some(events.db.world.server.logs[events.run])
  {
    hide SameOrCollision;
    var listed, seen := events.IterEvents(None, None, reading);
    assert seen[0..|seen|] == seen;
    if Readable(events.closed, fails, reading) && events.run in old(events.db.world).server.logs {
      var whole := events.db.world.server.logs[events.run];
      assert whole[0..|whole|] == whole;
    }
    log := if fails || listed.Failure? then None else Some(listed.value);
  }

  /** Splitting the acknowledged statements of a replay: four to begin, then the mutations. */
  lemma BuildsInTwoParts(h: Hashing, t: Tables, run: RunId, rp: Replayer, log: Log, faults: nat -> Outcome, clock: nat)
    ensures Complete(h, t, run, rp, Some(log), faults, clock) ==
      if AllAcknowledged(faults, clock, clock + 4)
      then Leaves(h, t, run, rp, log, AllAcknowledged(faults, clock + 4, clock + 4 + 2 * |Mutations(rp, log)|))
      else None
  {
    hide Replays, Rebuilt;
  }

  /** How the statement that marks the projection ready ends; `Refused` stands for never sent. */
  ghost function ReadyOutcome(rp: Replayer, listing: Option<Log>, faults: nat -> Outcome, clock: nat): Outcome {
    if listing.Some? then faults(ReadyAt(clock, rp, listing.value)) else Refused
  }

  /** The state a replay leaves before a failure is recorded: the complete projection, ready, or a
      hidden one, or nothing changed. */
  ghost predicate Attempted(h: Hashing, run: RunId, open: bool, before: Store, after: Store, complete: Option<Tables>, ready: Outcome) {
    && (if open && complete.Some? && !ready.Refused?
        then StatusOf(h, after, run) == Some(Ready) && Some(after.tables) == complete
        else StatusOf(h, after, run) == Some(Rebuilding) || after == before)
    && OtherRecordsKept(h, before, after, run)
  }

  lemma BeginAttempted(h: Hashing, run: RunId, open: bool, before: Store, after: Store)
    requires StatusOf(h, after, run) == Some(Rebuilding) || after == before
    requires OtherRecordsKept(h, before, after, run)
    ensures Attempted(h, run, open, before, after, None, Refused)
  {
  }

  lemma MarkAttempted(h: Hashing, run: RunId, before: Store, middle: Store, after: Store, complete: Option<Tables>, ready: Outcome)
    requires OtherRecordsKept(h, before, middle, run) && StatusOf(h, middle, run) == Some(Rebuilding)
    requires if complete.Some? && !ready.Refused?
      then after == WithStatus(h, middle.(tables := complete.value), run, Ready, None)
      else after.projections == middle.projections
    ensures Attempted(h, run, true, before, after, complete, ready)
  {
  }

  /** The mutations of a replay that got as far as reading the given log. */
  ghost function Planned(rp: Replayer, listing: Option<Log>): seq<Mutation> {
    CLEARING + if listing.Some? then Mutations(rp, listing.value) else []
  }

  lemma ClearingIsPlanned(rp: Replayer, listing: Option<Log>)
    ensures CLEARING <= Planned(rp, listing)
  {
  }

  /** Everything between `try` and `except`. */
  method Attempt(events: EventStore.SurrealEventStore, store: SurrealGraphStore, rp: Replayer, reading: seq<Step>, readFails: bool)
    returns (ok: bool, ghost listing: Option<Log>)
    requires events.Valid()
    modifies events.db, store`rebuildingHere, store.db
    ensures events.Valid()
    ensures listing.Some? ==>
      && events.run in events.db.world.server.logs
      && SameOrCollision(events.db.hashing, events.run, listing.value, events.db.world.server.logs[events.run])
    ensures (&& Readable(events.closed, readFails, reading) && events.run in old(events.db.world).server.logs && !store.closed
             && AllAcknowledged(store.db.faults, old(store.db.clock), old(store.db.clock) + 4)) ==>
      events.run in events.db.world.server.logs && listing == Some(events.db.world.server.logs[events.run])
    ensures
      var db, clock := store.db, old(store.db.clock);
      var complete := Complete(db.hashing, old(db.store).tables, store.run, rp, listing, db.faults, clock);
      var ready := ReadyOutcome(rp, listing, db.faults, clock);
      && (ok <==> !store.closed && complete.Some? && ready.Acknowledged?)
      && (ok ==> !store.rebuildingHere)
      && (!store.closed && complete.Some? ==> db.clock == ReadyAt(clock, rp, listing.value) + 1)
      && Attempted(db.hashing, store.run, !store.closed, old(db.store), db.store, complete, ready)
      && AllSafe(db.hashing, store.run, old(db.store).tables, complete, db.trace, old(db.trace))
    ensures
      var db, clock, ms := store.db, old(store.db.clock), Planned(rp, listing);
      && Partly(db.hashing, old(db.store).tables, store.run, ms, db.store.tables)
      && Stepwise(db.hashing, old(db.store).tables, store.run, ms, db.trace, old(db.trace))
      && (!ok ==> store.rebuildingHere == (old(store.rebuildingHere) || Begun(store.closed, db.faults, clock)))
      && (db.store.tables != old(db.store).tables ==> Begun(store.closed, db.faults, clock))
      && (readFails ==> listing.None?)
      && (!store.closed && listing.None? && AllAcknowledged(db.faults, clock, clock + 4) ==>
            db.clock == clock + 4 && MutateAll(db.hashing, old(db.store).tables, store.run, CLEARING) == Some(db.store.tables))
  {
    hide Rebuilt, MutateAll, SameOrCollision, Leaves, Attempted, AllSafe, AllAcknowledged, Complete, OtherRecordsKept, Sound, Remembers,
      HiddenFromOthers, Mutations, StatusOf, WithStatus, Partly, Stepwise, Planned;
    var db := store.db;
    ghost var t, clock := db.store.tables, db.clock;
    AcknowledgedMeans(db.faults, clock, clock + 4);
    ok := store.BeginRebuild();
    BeganRows(db.hashing, t, store.run, store.closed, db.faults, clock, db.store.tables);
    ghost var middle, s := db.trace, db.store;
    var log := None;
    if ok {
      log := ReadLog(events, reading, readFails);
    }
    listing := log;
    ghost var ms := Planned(rp, listing);
    ClearingIsPlanned(rp, listing);
    LongerIsStepwise(db.hashing, t, store.run, CLEARING, ms, middle, old(db.trace));
    LongerIsPartly(db.hashing, t, store.run, CLEARING, ms, s.tables);
    ghost var complete := Complete(db.hashing, t, store.run, rp, listing, db.faults, clock);
    HiddenIsSafe(db.hashing, store.run, old(db.store), complete, middle, old(db.trace));
    if log.None? {
      NotComplete(db.hashing, t, store.run, rp, listing, db.faults, clock);
      BeginAttempted(db.hashing, store.run, !store.closed, old(db.store), db.store);
      ok := false;
      return;
    }
    BuildsInTwoParts(db.hashing, t, store.run, rp, log.value, db.faults, clock);
    ClearedIsRebuilt(db.hashing, t, store.run);
    ok := ReplayAndMark(store, rp, log.value, t);
    PlannedIs(rp, log.value);
    StepwiseOn(db.hashing, t, store.run, ms, db.trace, middle, old(db.trace));
    MarkAttempted(db.hashing, store.run, old(db.store), s, db.store, complete, ReadyOutcome(rp, listing, db.faults, clock));
    SafeOnwards(db.hashing, store.run, t, complete, db.trace, middle, old(db.trace));
  }

  /** The rebuild was begun: the mark that hides the projection was acknowledged. */
  predicate Begun(closed: bool, faults: nat -> Outcome, clock: nat) { !closed && faults(clock).Acknowledged? }

  /** The diagnostic kept beside the status. */
  function RecordedError(h: Hashing, s: Store, run: RunId): Option<string> {
    var k := ProjectionKey(h, run);
    if k in s.projections then s.projections[k].error else None
  }

  lemma FailedIsRecorded(h: Hashing, s: Store, run: RunId, error: string)
    ensures RecordedError(h, WithStatus(h, s, run, Failed, Some(error)), run) == Some(error)
    ensures StatusOf(h, WithStatus(h, s, run, Failed, Some(error)), run) == Some(Failed)
  {
  }

  lemma ReadyIsServed(h: Hashing, s: Store, run: RunId)
    requires StatusOf(h, s, run) == Some(Ready)
    ensures Served(h, s, run, false)
  {
  }

  lemma CompleteIsUncompacted(h: Hashing, t: Tables, run: RunId, rp: Replayer, listing: Option<Log>, faults: nat -> Outcome, clock: nat)
    requires Complete(h, t, run, rp, listing, faults, clock).Some?
    ensures listing.Some? && (listing.value != [] ==> listing.value[0].kind != "runtime.snapshot")
  {
  }

  lemma StatusKeepsRows(h: Hashing, s: Store, run: RunId, error: string)
    ensures WithStatus(h, s, run, Failed, Some(error)).tables == s.tables
  {
  }

  lemma BegunIsOpen(closed: bool, faults: nat -> Outcome, clock: nat)
    ensures Begun(closed, faults, clock) ==> !closed
  {
  }

  lemma PlannedIs(rp: Replayer, log: Log)
    ensures Planned(rp, Some(log)) == CLEARING + Mutations(rp, log)
  {
  }

  /** Beginning a rebuild changes no rows before its mark is acknowledged. */
  lemma BeganRows(h: Hashing, t: Tables, run: RunId, closed: bool, faults: nat -> Outcome, clock: nat, now: Tables)
    requires MutateAll(h, t, run, CLEARING[..if !Begun(closed, faults, clock) then 0 else Reached(faults, clock + 1, 3)]) == Some(now)
    ensures now != t ==> Begun(closed, faults, clock)
    ensures Partly(h, t, run, CLEARING, now)
    ensures AllAcknowledged(faults, clock, clock + 4) && !closed ==> MutateAll(h, t, run, CLEARING) == Some(now)
  {
    hide Mutate;
    if Begun(closed, faults, clock) && AllAcknowledged(faults, clock, clock + 4) {
      ReachedAfter(faults, clock + 1, 3, 3);
      assert CLEARING[..3] == CLEARING;
    }
    MutateNone(h, t, run);
  }

  lemma NotComplete(h: Hashing, t: Tables, run: RunId, rp: Replayer, listing: Option<Log>, faults: nat -> Outcome, clock: nat)
    requires listing.None?
    ensures Complete(h, t, run, rp, listing, faults, clock).None?
  {
  }

  lemma AcknowledgedMeans(faults: nat -> Outcome, from: nat, to: nat)
    ensures AllAcknowledged(faults, from, to) <==> forall i :: from <= i < to ==> faults(i).Acknowledged?
  {
  }

  lemma ClearedIsRebuilt(h: Hashing, t: Tables, run: RunId)
    ensures Rebuilt(h, t, run, []) == MutateAll(h, t, run, CLEARING)
  {
    assert CLEARING + [] == CLEARING;
  }

  // ------------------------------------------------------------------
  // `replay_graph`

  /** Marking the complete projection ready took effect but raised, and the record of that failure
      was then refused. */
  ghost predicate ReadyLost(rp: Replayer, listing: Option<Log>, faults: nat -> Outcome, clock: nat) {
    && listing.Some?
    && faults(ReadyAt(clock, rp, listing.value)).Unacknowledged?
    && faults(ReadyAt(clock, rp, listing.value) + 1).Refused?
  }

  /** How a failed replay ends: hidden or with the rows untouched, except when the complete
      projection became ready and both acknowledgements were lost. */
  ghost predicate FailedState(h: Hashing, run: RunId, before: Store, after: Store, complete: Option<Tables>, readyLost: bool) {
    && (StatusOf(h, after, run) == Some(Ready) && after.tables != before.tables <==>
          readyLost && complete.Some? && complete.value != before.tables)
    && (readyLost && complete.Some? ==> Some(after.tables) == complete)
    && OtherRecordsKept(h, before, after, run)
  }

  lemma FailureRecorded(h: Hashing, run: RunId, open: bool, before: Store, middle: Store, after: Store, complete: Option<Tables>,
      ready: Outcome, record: Outcome, error: string, readyLost: bool)
    requires Attempted(h, run, open, before, middle, complete, ready) && !(open && complete.Some? && ready.Acknowledged?)
    requires after == if !open || record.Refused? then middle else WithStatus(h, middle, run, Failed, Some(error))
    requires complete.Some? ==> (readyLost <==> open && ready.Unacknowledged? && record.Refused?)
    ensures FailedState(h, run, before, after, complete, readyLost)
  {
  }

  /** A failed replay leaves its own handle served rows that are neither the old nor the complete
      ones exactly when the rebuild had begun and changed rows, and the failure record was refused. */
  ghost predicate StuckExactly(h: Hashing, run: RunId, before: Tables, after: Store, complete: Option<Tables>,
      rebuildingHere: bool, begun: bool, recordRefused: bool)
  {
    var halfBuilt := after.tables != before && Some(after.tables) != complete;
    halfBuilt && Served(h, after, run, rebuildingHere) <==> halfBuilt && begun && recordRefused
  }

  lemma FailureServed(h: Hashing, run: RunId, open: bool, before: Store, middle: Store, after: Store, complete: Option<Tables>,
      ready: Outcome, record: Outcome, error: string, flag: bool, flag': bool, begun: bool)
    requires Attempted(h, run, open, before, middle, complete, ready)
    requires after == if !open || record.Refused? then middle else WithStatus(h, middle, run, Failed, Some(error))
    requires middle.tables != before.tables ==> begun
    requires begun ==> open
    requires flag' == ((flag || begun) && !(open && record.Acknowledged?))
    ensures StuckExactly(h, run, before.tables, after, complete, flag', begun, record.Refused?)
  {
  }

  lemma FailureIsSafe(h: Hashing, run: RunId, t: Tables, complete: Option<Tables>, middle: Store, after: Store, error: string)
    requires Safe(h, run, t, complete, middle)
    requires after == middle || after == WithStatus(h, middle, run, Failed, Some(error))
    ensures Safe(h, run, t, complete, after)
  {
  }

  lemma AttemptedIsSafe(h: Hashing, run: RunId, open: bool, before: Store, after: Store, complete: Option<Tables>, ready: Outcome)
    requires Attempted(h, run, open, before, after, complete, ready)
    ensures Safe(h, run, before.tables, complete, after)
  {
  }

  /** `replay_graph`.  Other handles of the event log take any steps while it is read; `exception`
      is the name recorded for a failure. */
  method ReplayGraph(events: EventStore.SurrealEventStore, store: SurrealGraphStore, rp: Replayer, reading: seq<Step>, readFails: bool,
      exception: string)
    returns (r: Result<(), ReplayError>, ghost listing: Option<Log>)
    requires events.Valid()
    modifies events.db, store`rebuildingHere, store.db
    ensures events.Valid()
    ensures r == Failure(ValueError) <==> events.run != store.run
    ensures events.run != store.run ==>
      store.db.store == old(store.db.store) && store.db.trace == old(store.db.trace) && events.db.world == old(events.db.world)
    ensures readFails ==> listing.None?
    ensures listing.Some? ==>
      && events.run in events.db.world.server.logs
      && SameOrCollision(events.db.hashing, events.run, listing.value, events.db.world.server.logs[events.run])
    ensures (&& events.run == store.run && Readable(events.closed, readFails, reading) && events.run in old(events.db.world).server.logs && !store.closed
             && AllAcknowledged(store.db.faults, old(store.db.clock), old(store.db.clock) + 4)) ==>
      events.run in events.db.world.server.logs && listing == Some(events.db.world.server.logs[events.run])
    ensures events.run == store.run ==>
      var db, clock := store.db, old(store.db.clock);
      var complete := Complete(db.hashing, old(db.store).tables, store.run, rp, listing, db.faults, clock);
      && (r.Success? <==> !store.closed && complete.Some? && ReadyOutcome(rp, listing, db.faults, clock).Acknowledged?)
      && (r.Success? ==>
            && StatusOf(db.hashing, db.store, store.run) == Some(Ready) && Served(db.hashing, db.store, store.run, false)
            && Some(db.store.tables) == complete && !store.rebuildingHere
            && (listing.value != [] ==> listing.value[0].kind != "runtime.snapshot")
            && OtherRecordsKept(db.hashing, old(db.store), db.store, store.run))
      && (r.Failure? ==>
            FailedState(db.hashing, store.run, old(db.store), db.store, complete, !store.closed && ReadyLost(rp, listing, db.faults, clock)))
      && AllSafe(db.hashing, store.run, old(db.store).tables, complete, db.trace, old(db.trace))
    ensures
      var db, t, ms := store.db, old(store.db.store).tables, Planned(rp, listing);
      Partly(db.hashing, t, store.run, ms, db.store.tables) && Stepwise(db.hashing, t, store.run, ms, db.trace, old(db.trace))
    ensures r == Failure(ReplayFailed) ==>
      var db, clock := store.db, old(store.db.clock);
      var complete := Complete(db.hashing, old(db.store).tables, store.run, rp, listing, db.faults, clock);
      var record := if store.closed then Refused else if db.clock > 0 then db.faults(db.clock - 1) else Refused;
      && StuckExactly(db.hashing, store.run, old(db.store).tables, db.store, complete, store.rebuildingHere,
                      Begun(store.closed, db.faults, clock), record.Refused?)
      && store.rebuildingHere ==
           ((old(store.rebuildingHere) || Begun(store.closed, db.faults, clock)) && (store.closed || !record.Acknowledged?))
      && (!store.closed && record.Acknowledged? ==>
            && StatusOf(db.hashing, db.store, store.run) == Some(Failed)
            && RecordedError(db.hashing, db.store, store.run) == Some(exception))
      && (!store.closed && readFails && AllAcknowledged(db.faults, clock, clock + 4) ==>
            db.clock == clock + 5 && complete.None?
            && MutateAll(db.hashing, old(db.store).tables, store.run, CLEARING) == Some(db.store.tables))
  {
    hide MutateAll, Partly, Stepwise, Planned, Begun, StuckExactly, AllAcknowledged, SameOrCollision, AllSafe, Complete, StatusOf, RecordedError, FailedState, OtherRecordsKept, Sound, Remembers, Mutations, WithStatus, ReadyAt, Safe;
    listing := None;
    ghost var clock, flag := store.db.clock, store.rebuildingHere;
    UntouchedIsPartly(store.db.hashing, store.db.store.tables, store.run, Planned(rp, None));
    OneMoreStep(store.db.hashing, store.db.store.tables, store.run, Planned(rp, None), store.db.trace, store.db.trace, store.db.store);
    if events.run.name != store.run.name || events.run.scope != store.run.scope {
      return Failure(ValueError), None;
    }
    var db := store.db;
    var ok;
    ok, listing := Attempt(events, store, rp, reading, readFails);
    if ok {
      CompleteIsUncompacted(db.hashing, old(db.store).tables, store.run, rp, listing, db.faults, clock);
      ReadyIsServed(db.hashing, db.store, store.run);
      return Success(()), listing;
    }
    ghost var middle, s, last := db.trace, db.store, db.faults(db.clock);
    ghost var complete := Complete(db.hashing, old(db.store).tables, store.run, rp, listing, db.faults, clock);
    ghost var ready := ReadyOutcome(rp, listing, db.faults, clock);
    var _ := store.MarkFailed(exception);
    FailureRecorded(db.hashing, store.run, !store.closed, old(db.store), s, db.store, complete, ready, last, exception,
      !store.closed && ReadyLost(rp, listing, db.faults, clock));
    StatusKeepsRows(db.hashing, s, store.run, exception);
    FailedIsRecorded(db.hashing, s, store.run, exception);
    BegunIsOpen(store.closed, db.faults, clock);
    FailureServed(db.hashing, store.run, !store.closed, old(db.store), s, db.store, complete, ready,
      if store.closed then Refused else last, exception, flag, store.rebuildingHere, Begun(store.closed, db.faults, clock));
    if listing.None? { NotComplete(db.hashing, old(db.store).tables, store.run, rp, listing, db.faults, clock); }
    if !store.closed {
      OneMoreStep(db.hashing, old(db.store).tables, store.run, Planned(rp, listing), db.trace, middle, db.store);
      StepwiseOn(db.hashing, old(db.store).tables, store.run, Planned(rp, listing), db.trace, middle, old(db.trace));
      AttemptedIsSafe(db.hashing, store.run, true, old(db.store), s, complete, ready);
      FailureIsSafe(db.hashing, store.run, old(db.store).tables, complete, s, db.store, exception);
      OneMoreSafe(db.hashing, store.run, old(db.store).tables, complete, db.store, db.trace, middle);
      SafeOnwards(db.hashing, store.run, old(db.store).tables, complete, db.trace, middle, old(db.trace));
    }
    r := Failure(ReplayFailed);
  }

  // ------------------------------------------------------------------
  // What a complete replay holds, and when a failed one is served

  /** The log folded event by event over an empty graph. */
  function FoldLog(rp: Replayer, log: Log): Graph {
    if log == [] then EMPTY else FoldAll(FoldLog(rp, log[..|log| - 1]), rp.effect(log[|log| - 1]).mutations)
  }

  lemma {:induction false} FoldAllAppend(g: Graph, a: seq<Mutation>, b: seq<Mutation>)
    ensures FoldAll(g, a + b) == FoldAll(FoldAll(g, a), b)
  {
    hide Reference;
    if b == [] {
      assert a + b == a;
    } else {
      FoldAllAppend(g, a, b[..|b| - 1]);
      assert (a + b)[..|a + b| - 1] == a + b[..|b| - 1];
    }
  }

  lemma {:induction false} FoldLogIsFoldAll(rp: Replayer, log: Log)
    ensures FoldLog(rp, log) == FoldAll(EMPTY, Mutations(rp, log))
  {
    hide Reference, FoldAll;
    if log == [] {
      NothingFolded();
    } else {
      FoldLogIsFoldAll(rp, log[..|log| - 1]);
      FoldAllAppend(EMPTY, Mutations(rp, log[..|log| - 1]), rp.effect(log[|log| - 1]).mutations);
    }
  }

  lemma NothingFolded()
    ensures FoldAll(EMPTY, []) == EMPTY
  {
  }

  /** A complete replay holds the fold of the log from empty, whatever rows the run had before, and
      leaves every other run's rows untouched; or two part lists with one key can be named. */
  lemma CompleteHoldsFold(h: Hashing, t: Tables, run: RunId, rp: Replayer, listing: Option<Log>, faults: nat -> Outcome, clock: nat)
    returns (p: seq<string>, q: seq<string>)
    requires WellFormed(h, t) && Complete(h, t, run, rp, listing, faults, clock).Some?
    ensures
      var t' := Complete(h, t, run, rp, listing, faults, clock).value;
      || (&& listing.Some? && WellFormed(h, t') && HoldsGraph(h, t', run, FoldLog(rp, listing.value))
          && GraphRefinement.OtherRunsKept(t, t', run))
      || KeyClash(h, p, q)
  {
    hide WellFormed, HoldsGraph, KeyClash, Rebuilt, Mutations, FoldLog, FoldAll, GraphRefinement.OtherRunsKept, AllAcknowledged;
    FoldLogIsFoldAll(rp, listing.value);
    p, q := RebuiltHoldsFold(h, t, run, Mutations(rp, listing.value));
  }

  /** A projection can be ready with changed rows although its replay raised: replaying an empty
      log over one stale patch, marking it ready takes effect unacknowledged and recording that
      failure is refused. */
  lemma ReadyAfterFailure(h: Hashing, run: RunId, stale: Patch) returns (t: Tables, rp: Replayer, faults: nat -> Outcome)
    ensures
      var complete := Complete(h, t, run, rp, Some([]), faults, 0);
      && PatchKey(h, run, stale.id) in t.patches && complete.Some? && complete != Some(t) && ReadyLost(rp, Some([]), faults, 0)
      && forall before: Store, after: Store :: before.tables == t && FailedState(h, run, before, after, complete, true) ==>
           StatusOf(h, after, run) == Some(Ready) && after.tables == complete.value != t
  {
    var k := PatchKey(h, run, stale.id);
    t := Tables(map[], map[], map[k := PatchRow(run, stale)]);
    rp := Replayer((e: Event<Json>) => Effect([], false), (log: Log) => true);
    faults := (i: nat) => if i < 4 then Acknowledged else if i == 4 then Unacknowledged else Refused;
    ClearedIsRebuilt(h, t, run);
    StaleCleared(h, t, run, k);
  }

  lemma StaleCleared(h: Hashing, t: Tables, run: RunId, k: string)
    requires k in t.patches && t.patches[k].run == run
    ensures MutateAll(h, t, run, CLEARING).Some? && k !in MutateAll(h, t, run, CLEARING).value.patches
  {
    hide MutateAll;
    MutateNone(h, t, run);
    MutateNext(h, t, run, CLEARING, 0);
    MutateNext(h, t, run, CLEARING, 1);
    MutateNext(h, t, run, CLEARING, 2);
    assert CLEARING[..3] == CLEARING;
  }

  // ------------------------------------------------------------------
  // After a failure

  /** However a replay ends, the rows it leaves, and those of every state on the way, are well formed
      and every other run's rows are untouched; or a key clash was met. */
  lemma FailureKeepsRows(h: Hashing, t: Tables, run: RunId, rp: Replayer, listing: Option<Log>, now: Tables)
    returns (p: seq<string>, q: seq<string>)
    requires WellFormed(h, t) && Partly(h, t, run, Planned(rp, listing), now)
    ensures (WellFormed(h, now) && GraphRefinement.OtherRunsKept(t, now, run)) || KeyClash(h, p, q)
  {
    p, q := PartlyKeeps(h, t, run, Planned(rp, listing), now);
  }

  /** Replaying again over whatever a failed replay left (`now`) ends, when it completes, with the
      fold of the log from empty and every other run's rows as before the first attempt. */
  lemma RetryHoldsFold(h: Hashing, t: Tables, run: RunId, rp: Replayer, listing: Option<Log>, now: Tables,
      again: Option<Log>, faults: nat -> Outcome, clock: nat)
    returns (p: seq<string>, q: seq<string>)
    requires WellFormed(h, t) && Partly(h, t, run, Planned(rp, listing), now)
    requires Complete(h, now, run, rp, again, faults, clock).Some?
    ensures
      var t' := Complete(h, now, run, rp, again, faults, clock).value;
      || (&& again.Some? && WellFormed(h, t') && HoldsGraph(h, t', run, FoldLog(rp, again.value))
          && GraphRefinement.OtherRunsKept(t, t', run))
      || KeyClash(h, p, q)
  {
    hide WellFormed, HoldsGraph, KeyClash, Complete, Partly, FoldLog, GraphRefinement.OtherRunsKept;
    p, q := FailureKeepsRows(h, t, run, rp, listing, now);
    if !KeyClash(h, p, q) {
      p, q := CompleteHoldsFold(h, now, run, rp, again, faults, clock);
      if !KeyClash(h, p, q) { OthersKeptOn(t, now, Complete(h, now, run, rp, again, faults, clock).value, run); }
    }
  }

  /** An instance of a handle stuck on a half-built projection: one stale patch, the rebuild clears
      it, reading the log fails and so does recording the failure. */
  method StuckRebuild(events: EventStore.SurrealEventStore, h: Hashing, rp: Replayer, stale: Patch) returns (store: SurrealGraphStore)
    requires events.Valid()
    modifies events.db
    ensures store.run == events.run && store.db.hashing == h
    ensures Served(h, store.db.store, store.run, store.rebuildingHere) && !Served(h, store.db.store, store.run, false)
    ensures PatchKey(h, store.run, stale.id) !in store.db.store.tables.patches
  {
    hide MutateAll, Partly, Stepwise, Complete, AllSafe, Sound, Remembers, FailedState, StuckExactly, Served, StatusOf, ReadyLost,
      OtherRecordsKept, Planned, ReadyOutcome, SameOrCollision, Readable;
    var k := PatchKey(h, events.run, stale.id);
    var t := Tables(map[], map[], map[k := PatchRow(events.run, stale)]);
    var faults := (i: nat) => if i < 4 then Acknowledged else Refused;
    var db := new ProjectionDatabase(h, faults, Store(t, map[]));
    store := new SurrealGraphStore.Opened(db, events.run);
    StaleCleared(h, t, events.run, k);
    assert AllAcknowledged(faults, 0, 4) && Begun(store.closed, faults, 0) && faults(4).Refused?;
    var r, listing := ReplayGraph(events, store, rp, [], true, "");
    NotComplete(h, t, store.run, rp, listing, faults, 0);
    assert r.Failure? && r.error.ReplayFailed?;
    StuckMeans(h, store.run, Store(t, map[]), db.store, !store.closed && ReadyLost(rp, listing, faults, 0));
  }

  lemma StuckMeans(h: Hashing, run: RunId, before: Store, after: Store, readyLost: bool)
    requires StuckExactly(h, run, before.tables, after, None, true, true, true) && after.tables != before.tables
    requires FailedState(h, run, before, after, None, readyLost)
    ensures Served(h, after, run, true) && !Served(h, after, run, false)
  {
  }
}
