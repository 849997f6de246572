/** The hash-chained log of one run: what its rows look like, what verification accepts, and
    why the head hash determines the whole history. */
module EventLog {
  import opened Wrappers
  import opened CanonicalJson
  import opened Serde

  /** The hash functions the provider is built on.  Nothing is assumed about them: `digest` is
      the hash of a text, `key` the record key of a list of parts. */
  datatype Hashing = Hashing(digest: string -> string, key: seq<string> -> string)

  datatype RunId = RunId(scope: string, name: string)

  /** A log holds events up to canonical payload. */
  type Log = seq<Event<Json>>

  datatype EventRow = EventRow(
    run: RunId,
    record: EventRecord,
    position: int,
    previousHash: Option<string>,
    hash: string)

  /** The text hashed for the event at position `i`. */
  function PreimageAt(h: Hashing, run: RunId, log: Log, i: nat): string
    requires i < |log|
    decreases i, 1
  {
    StoredPreimage(run.scope, run.name, i, log[i], Head(h, run, log, i))
  }

  /** The head hash after the first `n` events. */
  function Head(h: Hashing, run: RunId, log: Log, n: nat): (head: Option<string>)
    requires n <= |log|
    ensures head.Some? <==> n > 0
    decreases n, 0
  {
    if n == 0 then None else Some(h.digest(PreimageAt(h, run, log, n - 1)))
  }

  function HeadOf(h: Hashing, run: RunId, log: Log): Option<string> { Head(h, run, log, |log|) }

  /** The row that stores event `i`. */
  function RowAt(h: Hashing, run: RunId, log: Log, i: nat): EventRow
    requires i < |log|
  {
    EventRow(run, Record(log[i]), i, Head(h, run, log, i), h.digest(PreimageAt(h, run, log, i)))
  }

  function Rows(h: Hashing, run: RunId, log: Log): seq<EventRow> {
    seq(|log|, i requires 0 <= i < |log| => RowAt(h, run, log, i))
  }

  /** Hashes and rows of a prefix do not depend on what follows it. */
  lemma {:induction false} HeadOfPrefix(h: Hashing, run: RunId, a: Log, b: Log, n: nat)
    requires n <= |a| && n <= |b| && a[..n] == b[..n]
    ensures Head(h, run, a, n) == Head(h, run, b, n)
  {
    if n > 0 {
      assert a[..n - 1] == a[..n][..n - 1] == b[..n][..n - 1] == b[..n - 1];
      assert a[n - 1] == a[..n][n - 1] == b[..n][n - 1] == b[n - 1];
      HeadOfPrefix(h, run, a, b, n - 1);
    }
  }

  lemma RowOfPrefix(h: Hashing, run: RunId, a: Log, b: Log, i: nat)
    requires i < |a| && i < |b| && a[..i + 1] == b[..i + 1]
    ensures RowAt(h, run, a, i) == RowAt(h, run, b, i)
  {
    assert a[i] == a[..i + 1][i] == b[..i + 1][i] == b[i];
    assert a[..i] == a[..i + 1][..i] == b[..i + 1][..i] == b[..i];
    HeadOfPrefix(h, run, a, b, i);
  }

  // ------------------------------------------------------------------
  // Verification

  datatype LedgerError = WrongBoundary | WrongSequence | WrongPrevious | Undecodable | WrongHash | WrongCount | WrongHead

  /** A row that carries event `e` at position `i` of a chain whose previous hash is `previous`.
      Its payload text need only decode to the payload. */
  predicate Carries(h: Hashing, run: RunId, row: EventRow, e: Event<Json>, i: int, previous: Option<string>) {
    && row.run == run
    && row.position == i
    && row.previousHash == previous
    && RecordToEvent(row.record) == Some(e)
    && row.hash == h.digest(StoredPreimage(run.scope, run.name, i, e, previous))
  }

  /** The rows chain up to carry exactly the events of the log. */
  predicate Chained(h: Hashing, run: RunId, rows: seq<EventRow>, log: Log) {
    && |rows| == |log|
    && forall i :: 0 <= i < |rows| ==> Carries(h, run, rows[i], log[i], i, Head(h, run, log, i))
  }

  /** What the loop of `_verified_rows_and_run` accepts: the rows carry a log whose length and
      head hash are the run row's. */
  predicate Accepted(h: Hashing, run: RunId, rows: seq<EventRow>, nextSeq: int, headHash: Option<string>, log: Log) {
    Chained(h, run, rows, log) && nextSeq == |log| && headHash == HeadOf(h, run, log)
  }

  lemma RowsChained(h: Hashing, run: RunId, log: Log)
    ensures Chained(h, run, Rows(h, run, log), log)
  {
    forall i | 0 <= i < |log| ensures Carries(h, run, Rows(h, run, log)[i], log[i], i, Head(h, run, log, i)) {
      RecordReadsBack(log[i]);
    }
  }

  /** The rows decode in only one way. */
  lemma ChainedLogIsUnique(h: Hashing, run: RunId, rows: seq<EventRow>, a: Log, b: Log)
    requires Chained(h, run, rows, a) && Chained(h, run, rows, b)
    ensures a == b
  {
    forall i | 0 <= i < |a| ensures a[i] == b[i] {
      assert Carries(h, run, rows[i], a[i], i, Head(h, run, a, i));
      assert Carries(h, run, rows[i], b[i], i, Head(h, run, b, i));
    }
  }

  lemma ChainGrows(h: Hashing, run: RunId, rows: seq<EventRow>, log: Log, row: EventRow, e: Event<Json>)
    requires Chained(h, run, rows, log)
    ensures Chained(h, run, rows + [row], log + [e]) <==> Carries(h, run, row, e, |log|, HeadOf(h, run, log))
    ensures HeadOf(h, run, log + [e]) == Some(h.digest(StoredPreimage(run.scope, run.name, |log|, e, HeadOf(h, run, log))))
  {
    hide StoredPreimage, RecordToEvent;
    var longer := log + [e];
    forall i: nat | i <= |log| ensures Head(h, run, longer, i) == Head(h, run, log, i) {
      assert longer[..i] == log[..i];
      HeadOfPrefix(h, run, longer, log, i);
    }
    assert (rows + [row])[|log|] == row && longer[|log|] == e;
    assert PreimageAt(h, run, longer, |log|) == StoredPreimage(run.scope, run.name, |log|, e, HeadOf(h, run, log));
    if Chained(h, run, rows + [row], longer) {
      assert Carries(h, run, (rows + [row])[|log|], longer[|log|], |log|, Head(h, run, longer, |log|));
    }
  }

  lemma ChainShrinks(h: Hashing, run: RunId, rows: seq<EventRow>, log: Log, n: nat)
    requires Chained(h, run, rows, log) && n <= |rows|
    ensures Chained(h, run, rows[..n], log[..n])
  {
    forall i | 0 <= i < n ensures Carries(h, run, rows[..n][i], log[..n][i], i, Head(h, run, log[..n], i)) {
      assert log[..n][..i] == log[..i];
      HeadOfPrefix(h, run, log[..n], log, i);
      assert Carries(h, run, rows[i], log[i], i, Head(h, run, log, i));
    }
  }

  lemma NextCarried(h: Hashing, run: RunId, rows: seq<EventRow>, log: Log, other: Log)
    requires |log| < |rows| && Chained(h, run, rows[..|log|], log) && Chained(h, run, rows, other)
    ensures Carries(h, run, rows[|log|], other[|log|], |log|, HeadOf(h, run, log))
  {
    var n := |log|;
    ChainShrinks(h, run, rows, other, n);
    ChainedLogIsUnique(h, run, rows[..n], other[..n], log);
    HeadOfPrefix(h, run, other, log, n);
    assert Carries(h, run, rows[n], other[n], n, Head(h, run, other, n));
  }

  /** A row that carries no event at its place rules out every log. */
  lemma NothingCarried(h: Hashing, run: RunId, rows: seq<EventRow>, log: Log)
    requires |log| < |rows| && Chained(h, run, rows[..|log|], log)
    requires forall e :: !Carries(h, run, rows[|log|], e, |log|, HeadOf(h, run, log))
    ensures forall other :: !Chained(h, run, rows, other)
  {
    forall other ensures !Chained(h, run, rows, other) {
      if Chained(h, run, rows, other) {
        NextCarried(h, run, rows, log, other);
      }
    }
  }

  function HashBefore(rows: seq<EventRow>, i: nat): Option<string>
    requires i <= |rows|
  {
    if i == 0 then None else Some(rows[i - 1].hash)
  }

  /** Row by row: the run's own, at its place in the sequence, decodable, linked to the hash stored
      before it, and hashed over just that; as many rows, and the last hash, as the run row says. */
  ghost predicate RowsSound(h: Hashing, run: RunId, rows: seq<EventRow>, nextSeq: int, headHash: Option<string>) {
    && nextSeq == |rows| && headHash == HashBefore(rows, |rows|)
    && forall i :: 0 <= i < |rows| ==>
         && rows[i].run == run && rows[i].position == i && RecordToEvent(rows[i].record).Some?
         && rows[i].previousHash == HashBefore(rows, i)
         && rows[i].hash == h.digest(StoredPreimage(run.scope, run.name, i, RecordToEvent(rows[i].record).value, rows[i].previousHash))
  }

  lemma {:induction false} HeadsAreStored(h: Hashing, run: RunId, rows: seq<EventRow>, log: Log, n: nat)
    requires n <= |rows| == |log|
    requires forall i :: 0 <= i < n ==>
      rows[i].hash == h.digest(StoredPreimage(run.scope, run.name, i, log[i], HashBefore(rows, i)))
    ensures Head(h, run, log, n) == HashBefore(rows, n)
  {
    hide StoredPreimage;
    if n > 0 {
      HeadsAreStored(h, run, rows, log, n - 1);
    }
  }

  lemma AcceptedRowsAreSound(h: Hashing, run: RunId, rows: seq<EventRow>, nextSeq: int, headHash: Option<string>, log: Log)
    requires Accepted(h, run, rows, nextSeq, headHash, log)
    ensures RowsSound(h, run, rows, nextSeq, headHash)
    ensures forall i :: 0 <= i < |log| ==> RecordToEvent(rows[i].record) == Some(log[i])
  {
    hide StoredPreimage, RecordToEvent;
    forall i: nat | i <= |rows| ensures Head(h, run, log, i) == HashBefore(rows, i) {
      StoredUpTo(h, run, rows, log, i);
    }
    forall i | 0 <= i < |rows| ensures Carries(h, run, rows[i], log[i], i, HashBefore(rows, i)) {
      assert Carries(h, run, rows[i], log[i], i, Head(h, run, log, i));
    }
  }

  lemma {:induction false} StoredUpTo(h: Hashing, run: RunId, rows: seq<EventRow>, log: Log, n: nat)
    requires Chained(h, run, rows, log) && n <= |rows|
    ensures Head(h, run, log, n) == HashBefore(rows, n)
  {
    hide StoredPreimage, RecordToEvent;
    if n > 0 {
      assert Carries(h, run, rows[n - 1], log[n - 1], n - 1, Head(h, run, log, n - 1));
    }
  }

  lemma SoundRowsAreAccepted(h: Hashing, run: RunId, rows: seq<EventRow>, nextSeq: int, headHash: Option<string>)
    requires RowsSound(h, run, rows, nextSeq, headHash)
    ensures exists log :: Accepted(h, run, rows, nextSeq, headHash, log)
  {
    hide StoredPreimage, RecordToEvent;
    var log: Log := seq(|rows|, i requires 0 <= i < |rows| => RecordToEvent(rows[i].record).value);
    forall i: nat | i <= |rows| ensures Head(h, run, log, i) == HashBefore(rows, i) {
      HeadsAreStored(h, run, rows, log, i);
    }
    forall i | 0 <= i < |rows| ensures Carries(h, run, rows[i], log[i], i, Head(h, run, log, i)) {}
    assert Accepted(h, run, rows, nextSeq, headHash, log);
  }

  /** The verification loop accepts exactly the rows that carry a log matching the run row, and
      returns that log. */
  method VerifyRows(h: Hashing, run: RunId, rows: seq<EventRow>, nextSeq: int, headHash: Option<string>)
    returns (r: Result<Log, LedgerError>)
    ensures r.Success? ==> Accepted(h, run, rows, nextSeq, headHash, r.value)
    ensures r.Failure? ==> forall log :: !Accepted(h, run, rows, nextSeq, headHash, log)
    ensures r.Success? <==> RowsSound(h, run, rows, nextSeq, headHash)
    ensures r.Success? ==> |r.value| == |rows| && forall i :: 0 <= i < |rows| ==> RecordToEvent(rows[i].record) == Some(r.value[i])
  {
    hide StoredPreimage, RecordToEvent, Head, PreimageAt, RowsSound;
    if RowsSound(h, run, rows, nextSeq, headHash) { SoundRowsAreAccepted(h, run, rows, nextSeq, headHash); }
    var log: Log := [];
    var previous: Option<string> := None;
    for i := 0 to |rows|
      invariant |log| == i && Chained(h, run, rows[..i], log)
      invariant previous == HeadOf(h, run, log)
    {
      var row := rows[i];
      var event := RecordToEvent(row.record);
      if row.run != run || row.position != i || row.previousHash != previous || event.None? {
        NothingCarried(h, run, rows, log);
        return Failure(
          if row.run != run then WrongBoundary
          else if row.position != i then WrongSequence
          else if row.previousHash != previous then WrongPrevious
          else Undecodable);
      }
      var calculated := h.digest(StoredPreimage(run.scope, run.name, row.position, event.value, row.previousHash));
      if calculated != row.hash {
        NothingCarried(h, run, rows, log);
        return Failure(WrongHash);
      }
      ChainGrows(h, run, rows[..i], log, row, event.value);
      assert rows[..i + 1] == rows[..i] + [row];
      log := log + [event.value];
      previous := Some(calculated);
    }
    assert rows[..|rows|] == rows;
    forall other | Chained(h, run, rows, other) ensures other == log {
      ChainedLogIsUnique(h, run, rows, other, log);
    }
    if nextSeq != |rows| {
      return Failure(WrongCount);
    }
    if headHash != previous {
      return Failure(WrongHead);
    }
    AcceptedRowsAreSound(h, run, rows, nextSeq, headHash, log);
    r := Success(log);
  }

  // ------------------------------------------------------------------
  // The head determines the history

  /** Two different texts with the same hash. */
  ghost predicate Collides(h: Hashing, p: string, q: string) {
    p != q && h.digest(p) == h.digest(q)
  }

  /** Walking back in step from positions `n` and `m`, one meets two preimages that differ but
      hash alike. */
  ghost predicate CollisionBelow(h: Hashing, run: RunId, a: Log, n: nat, b: Log, m: nat)
    requires n <= |a| && m <= |b|
  {
    exists i: nat, j: nat :: i < n && j < m && n - i == m - j && Collides(h, PreimageAt(h, run, a, i), PreimageAt(h, run, b, j))
  }

  ghost predicate TailCollision(h: Hashing, run: RunId, a: Log, b: Log) {
    CollisionBelow(h, run, a, |a|, b, |b|)
  }

  /** It names two different texts with one digest. */
  lemma TailCollisionExhibits(h: Hashing, run: RunId, a: Log, b: Log) returns (p: string, q: string)
    requires TailCollision(h, run, a, b)
    ensures p != q && h.digest(p) == h.digest(q)
    ensures exists i: nat :: i < |a| && p == StoredPreimage(run.scope, run.name, i, a[i], Head(h, run, a, i))
    ensures exists j: nat :: j < |b| && q == StoredPreimage(run.scope, run.name, j, b[j], Head(h, run, b, j))
  {
    hide StoredPreimage, Head;
    var i: nat, j: nat :| i < |a| && j < |b| && |a| - i == |b| - j && Collides(h, PreimageAt(h, run, a, i), PreimageAt(h, run, b, j));
    p, q := PreimageAt(h, run, a, i), PreimageAt(h, run, b, j);
  }

  lemma {:induction false} EqualHeads(h: Hashing, run: RunId, a: Log, n: nat, b: Log, m: nat)
    requires n <= |a| && m <= |b| && Head(h, run, a, n) == Head(h, run, b, m)
    ensures (n == m && a[..n] == b[..n]) || CollisionBelow(h, run, a, n, b, m)
  {
    hide StoredPreimage;
    if n > 0 {
      var p, q := PreimageAt(h, run, a, n - 1), PreimageAt(h, run, b, m - 1);
      if p != q {
        assert Collides(h, PreimageAt(h, run, a, n - 1), PreimageAt(h, run, b, m - 1));
        return;
      }
      PreimageInjective(
        run.scope, run.name, n - 1, a[n - 1], Head(h, run, a, n - 1),
        run.scope, run.name, m - 1, b[m - 1], Head(h, run, b, m - 1));
      EqualHeads(h, run, a, n - 1, b, m - 1);
      if !CollisionBelow(h, run, a, n - 1, b, m - 1) {
        assert a[..n] == a[..n - 1] + [a[n - 1]] && b[..m] == b[..m - 1] + [b[m - 1]];
      }
    }
  }

  /** Two logs of one run with the same head hash are the same log, event for event, or two
      different preimages with equal hashes sit at the same distance from their tails. */
  lemma HeadDeterminesHistory(h: Hashing, run: RunId, a: Log, b: Log)
    requires HeadOf(h, run, a) == HeadOf(h, run, b)
    ensures a == b || TailCollision(h, run, a, b)
  {
    EqualHeads(h, run, a, |a|, b, |b|);
    assert a[..|a|] == a && b[..|b|] == b;
  }

  /** Two sets of rows accepted against the same run row carry the same log, or a collision. */
  lemma AcceptedHistoriesAgree(
      h: Hashing, run: RunId, rows: seq<EventRow>, rows': seq<EventRow>,
      nextSeq: int, headHash: Option<string>, a: Log, b: Log)
    requires Accepted(h, run, rows, nextSeq, headHash, a) && Accepted(h, run, rows', nextSeq, headHash, b)
    ensures a == b || TailCollision(h, run, a, b)
  {
    HeadDeterminesHistory(h, run, a, b);
  }

  // ------------------------------------------------------------------
  // Writing rows

  /** The row `append` creates for an event that can be encoded, after `position` events. */
  function NewRow(h: Hashing, run: RunId, position: int, e: Event<Value>, previous: Option<string>): Option<EventRow> {
    var encoded :- EventToRecord(e);
    var text :- Preimage(run.scope, run.name, position, e, previous);
    Some(EventRow(run, encoded, position, previous, h.digest(text)))
  }

  /** It is the last row of the log extended by the event in canonical form. */
  lemma NewRowExtends(h: Hashing, run: RunId, log: Log, e: Event<Value>)
    ensures Canon(e).Some? <==> NewRow(h, run, |log|, e, HeadOf(h, run, log)).Some?
    ensures Canon(e).Some? ==>
      NewRow(h, run, |log|, e, HeadOf(h, run, log)) == Some(RowAt(h, run, log + [Canon(e).value], |log|))
    ensures Canon(e).Some? ==>
      HeadOf(h, run, log + [Canon(e).value]) == Some(NewRow(h, run, |log|, e, HeadOf(h, run, log)).value.hash)
  {
    EventRoundTrip(e);
    if Canon(e).Some? {
      var longer := log + [Canon(e).value];
      assert longer[..|log|] == log[..|log|];
      HeadOfPrefix(h, run, longer, log, |log|);
      PreimageSurvivesStorage(run.scope, run.name, |log|, e, HeadOf(h, run, log));
    }
  }

  /** The loop of `fork_prefix`: re-hash decoded events under the child's run ID. */
  method ChildRows(h: Hashing, child: RunId, prefix: Log) returns (rows: seq<EventRow>, headHash: Option<string>)
    ensures rows == Rows(h, child, prefix)
    ensures headHash == HeadOf(h, child, prefix)
  {
    rows := [];
    headHash := None;
    for i := 0 to |prefix|
      invariant rows == Rows(h, child, prefix)[..i]
      invariant headHash == Head(h, child, prefix, i)
    {
      var current := h.digest(StoredPreimage(child.scope, child.name, i, prefix[i], headHash));
      rows := rows + [EventRow(child, Record(prefix[i]), i, headHash, current)];
      headHash := Some(current);
    }
  }
}
