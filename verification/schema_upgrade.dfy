/** Installing and upgrading the schema while any number of connections do the same. */
module SchemaUpgrade {
  import opened Wrappers

  const SCHEMA_VERSION := 3
  const MIN_SCHEMA_VERSION := 1

  /** One `DEFINE ... IF NOT EXISTS` statement, with the schema version that introduced it. */
  datatype Definition = Definition(text: string, since: int)

  type Schema = seq<Definition>

  /** `version` is the version record, if there is one. */
  datatype Catalog = Catalog(installed: set<Definition>, version: Option<int>)

  predicate Supported(version: int) { MIN_SCHEMA_VERSION <= version <= SCHEMA_VERSION }

  predicate Acceptable(version: Option<int>) { version.None? || Supported(version.value) }

  ghost predicate AllInstalled(ddl: Schema, c: Catalog) { forall d <- ddl :: d in c.installed }

  /** A recorded version promises every definition introduced up to it. */
  ghost predicate Sound(ddl: Schema, c: Catalog) {
    c.version.Some? ==> forall d <- ddl :: d.since <= c.version.value ==> d in c.installed
  }

  /** The whole schema is there, and recorded. */
  ghost predicate Complete(ddl: Schema, c: Catalog) {
    AllInstalled(ddl, c) && c.version.Some? && SCHEMA_VERSION <= c.version.value
  }

  // ------------------------------------------------------------------
  // Statements

  function Defined(c: Catalog, d: Definition): Catalog { c.(installed := c.installed + {d}) }

  /** `CREATE` fails on an existing record. */
  function Created(c: Catalog): Catalog { if c.version.None? then c.(version := Some(SCHEMA_VERSION)) else c }

  /** `UPDATE ONLY` changes an existing record. */
  function Updated(c: Catalog): Catalog { if c.version.Some? then c.(version := Some(SCHEMA_VERSION)) else c }

  // ------------------------------------------------------------------
  // One opener, between its statements

  datatype Opener =
    | Checking
    | Defining(next: nat)
    | Reading
    | Creating
    | Settling
    | Updating
    | Done
    | Raised

  /** What follows once the version record has been read after the definitions. */
  function Judge(version: int): Opener {
    if !Supported(version) then Raised else if version < SCHEMA_VERSION then Updating else Done
  }

  /** The next statement of an opener. */
  function Advance(ddl: Schema, c: Catalog, o: Opener, outcome: Outcome): (Catalog, Opener) {
    match o
    case Checking => (c, if outcome.Acknowledged? && Acceptable(c.version) then Defining(0) else Raised)
    case Defining(i) =>
      if |ddl| <= i then (c, Reading)
      else (if outcome.Refused? then c else Defined(c, ddl[i]), if outcome.Acknowledged? then Defining(i + 1) else Raised)
    case Reading => (c, if !outcome.Acknowledged? then Raised else if c.version.None? then Creating else Judge(c.version.value))
    case Creating => (if outcome.Refused? then c else Created(c), Settling)
    case Settling => (c, if !outcome.Acknowledged? || c.version.None? then Raised else Judge(c.version.value))
    case Updating => (if outcome.Refused? then c else Updated(c), if outcome.Acknowledged? then Done else Raised)
    case Done => (c, Done)
    case Raised => (c, Raised)
  }

  /** What an opener may rely on where it stands. */
  ghost predicate Stands(ddl: Schema, c: Catalog, o: Opener) {
    match o
    case Defining(i) => i <= |ddl| && forall j :: 0 <= j < i ==> ddl[j] in c.installed
    case Reading => AllInstalled(ddl, c)
    case Creating => AllInstalled(ddl, c)
    case Settling => AllInstalled(ddl, c)
    case Updating => AllInstalled(ddl, c) && c.version.Some? && Supported(c.version.value)
    case Done => Complete(ddl, c)
    case _ => true
  }

  /** The only ways a catalog changes. */
  ghost predicate Grows(ddl: Schema, c: Catalog, c': Catalog) {
    && c.installed <= c'.installed
    && (c'.version == c.version
        || (AllInstalled(ddl, c) && c'.version == Some(SCHEMA_VERSION) && Acceptable(c.version)))
  }

  lemma GrowthKeeps(ddl: Schema, c: Catalog, c': Catalog, o: Opener)
    requires Grows(ddl, c, c') && Sound(ddl, c) && Stands(ddl, c, o)
    ensures Sound(ddl, c') && Stands(ddl, c', o)
    ensures c.version.Some? ==> c'.version.Some? && c.version.value <= c'.version.value
  {
  }

  lemma StepGrows(ddl: Schema, c: Catalog, o: Opener, outcome: Outcome)
    requires Sound(ddl, c) && Stands(ddl, c, o)
    ensures
      var (c', o') := Advance(ddl, c, o, outcome);
      Grows(ddl, c, c') && Stands(ddl, c', o')
  {
    if o.Defining? && |ddl| <= o.next {
      forall d <- ddl ensures d in c.installed {
        var j :| 0 <= j < |ddl| && ddl[j] == d;
      }
    }
  }

  // ------------------------------------------------------------------
  // Any number of openers

  datatype Site = Site(catalog: Catalog, openers: map<nat, Opener>)

  /** One statement of one opener; an unknown opener is new. */
  datatype Move = Move(opener: nat, outcome: Outcome)

  function OpenerAt(site: Site, id: nat): Opener { if id in site.openers then site.openers[id] else Checking }

  function Next(ddl: Schema, site: Site, move: Move): Site {
    var (c, o) := Advance(ddl, site.catalog, OpenerAt(site, move.opener), move.outcome);
    Site(c, site.openers[move.opener := o])
  }

  function Run(ddl: Schema, site: Site, moves: seq<Move>): Site {
    if moves == [] then site else Next(ddl, Run(ddl, site, moves[..|moves| - 1]), moves[|moves| - 1])
  }

  ghost predicate Orderly(ddl: Schema, site: Site) {
    Sound(ddl, site.catalog) && forall id :: id in site.openers ==> Stands(ddl, site.catalog, site.openers[id])
  }

  ghost predicate NeverBack(c: Catalog, c': Catalog) {
    && c.installed <= c'.installed
    && (c.version.Some? ==> c'.version.Some? && c.version.value <= c'.version.value)
    && (Acceptable(c.version) ==> Acceptable(c'.version))
    && (c'.version != c.version ==> Acceptable(c.version) && c'.version == Some(SCHEMA_VERSION))
  }

  /** Whatever statements of whichever openers follow, in any order and with any of them lost: a
      recorded version keeps implying its definitions, versions never decrease and definitions are
      never removed, and every opener that has returned sees the complete schema. */
  lemma {:induction false} UpgradesAreSafe(ddl: Schema, site: Site, moves: seq<Move>)
    requires Orderly(ddl, site)
    ensures Orderly(ddl, Run(ddl, site, moves)) && NeverBack(site.catalog, Run(ddl, site, moves).catalog)
    ensures forall id :: id in Run(ddl, site, moves).openers && Run(ddl, site, moves).openers[id].Done? ==>
      Complete(ddl, Run(ddl, site, moves).catalog)
  {
    hide Sound, Stands, Advance;
    if moves != [] {
      var before, move := Run(ddl, site, moves[..|moves| - 1]), moves[|moves| - 1];
      UpgradesAreSafe(ddl, site, moves[..|moves| - 1]);
      MoveIsSafe(ddl, before, move);
    }
    forall id | id in Run(ddl, site, moves).openers && Run(ddl, site, moves).openers[id].Done?
      ensures Complete(ddl, Run(ddl, site, moves).catalog)
    {
      DoneIsComplete(ddl, Run(ddl, site, moves).catalog, Run(ddl, site, moves).openers[id]);
    }
  }

  lemma DoneIsComplete(ddl: Schema, c: Catalog, o: Opener)
    requires o.Done? && Stands(ddl, c, o)
    ensures Complete(ddl, c)
  {
  }

  lemma MoveIsSafe(ddl: Schema, site: Site, move: Move)
    requires Orderly(ddl, site)
    ensures Orderly(ddl, Next(ddl, site, move)) && NeverBack(site.catalog, Next(ddl, site, move).catalog)
  {
    hide Advance;
    var o := OpenerAt(site, move.opener);
    StepGrows(ddl, site.catalog, o, move.outcome);
    var c' := Next(ddl, site, move).catalog;
    CatalogGrown(ddl, site, Site(c', site.openers));
  }

  /** Growth by anybody's statement disturbs no opener. */
  lemma CatalogGrown(ddl: Schema, site: Site, site': Site)
    requires Orderly(ddl, site) && site'.openers == site.openers && Grows(ddl, site.catalog, site'.catalog)
    ensures Orderly(ddl, site') && NeverBack(site.catalog, site'.catalog)
  {
    hide Sound, Stands, AllInstalled;
    GrowthKeeps(ddl, site.catalog, site'.catalog, Start());
    forall id | id in site.openers ensures Stands(ddl, site'.catalog, site.openers[id]) {
      GrowthKeeps(ddl, site.catalog, site'.catalog, site.openers[id]);
    }
  }

  function Start(): Opener { Checking }

  /** Starting from a database with no version record, or with a version 1 to 3 whose promise holds,
      and nobody opening: the recorded version stays within 1 to 3 and never goes back, it keeps
      promising every definition introduced up to it, no definition is removed, and every opener that
      has returned sees version 3 and all definitions. */
  lemma UpgradesFromScratch(ddl: Schema, c: Catalog, moves: seq<Move>)
    requires c.version.Some? ==> 1 <= c.version.value <= 3 && forall d <- ddl :: d.since <= c.version.value ==> d in c.installed
    ensures
      var site := Run(ddl, Site(c, map[]), moves);
      && (site.catalog.version.Some? ==>
            && 1 <= site.catalog.version.value <= 3
            && forall d <- ddl :: d.since <= site.catalog.version.value ==> d in site.catalog.installed)
      && (c.version.Some? ==> site.catalog.version.Some? && c.version.value <= site.catalog.version.value)
      && c.installed <= site.catalog.installed
      && forall id :: id in site.openers && site.openers[id].Done? ==>
           site.catalog.version == Some(3) && forall d <- ddl :: d in site.catalog.installed
  {
    hide Run;
    FreshSiteIsOrderly(ddl, c);
    UpgradesAreSafe(ddl, Site(c, map[]), moves);
  }

  /** Starting from an unsupported version, below 1 or above 3: no opener changes anything or returns. */
  lemma {:induction false} UnsupportedIsKept(ddl: Schema, c: Catalog, moves: seq<Move>)
    requires c.version.Some? && !(1 <= c.version.value <= 3)
    ensures
      var site := Run(ddl, Site(c, map[]), moves);
      site.catalog == c && forall id :: id in site.openers ==> site.openers[id].Checking? || site.openers[id].Raised?
  {
    if moves != [] {
      UnsupportedIsKept(ddl, c, moves[..|moves| - 1]);
    }
  }

  lemma FreshSiteIsOrderly(ddl: Schema, c: Catalog)
    requires c.version.None? || Sound(ddl, c)
    ensures Orderly(ddl, Site(c, map[]))
  {
  }

  // ------------------------------------------------------------------
  // Openers of a later provider version in between

  function Definitions(ddl: Schema): set<Definition> { set d <- ddl }

  /** `Later` is the whole upgrade of a provider that knows more definitions and a higher version. */
  datatype MixedMove = Ours(move: Move) | Later(version: int, more: set<Definition>)

  function NextMixed(ddl: Schema, site: Site, m: MixedMove): Site {
    match m
    case Ours(move) => Next(ddl, site, move)
    case Later(version, more) =>
      if site.catalog.version.Some? && version <= site.catalog.version.value then site
      else site.(catalog := Catalog(site.catalog.installed + Definitions(ddl) + more, Some(version)))
  }

  function RunMixed(ddl: Schema, site: Site, ms: seq<MixedMove>): Site
    decreases |ms|
  {
    if ms == [] then site else RunMixed(ddl, NextMixed(ddl, site, ms[0]), ms[1..])
  }

  ghost predicate Lowers(c: Catalog, c': Catalog) {
    c.version.Some? && (c'.version.None? || c'.version.value < c.version.value)
  }

  /** A statement lowers the recorded version exactly when it is the update of an opener that has
      judged the version too low, takes effect, and finds a later provider's version recorded. */
  lemma LoweredExactly(ddl: Schema, site: Site, m: MixedMove)
    ensures Lowers(site.catalog, NextMixed(ddl, site, m).catalog) <==>
      && m.Ours? && OpenerAt(site, m.move.opener).Updating? && !m.move.outcome.Refused?
      && site.catalog.version.Some? && site.catalog.version.value > 3
  {
  }

  /** One acknowledged statement after another of opener 0. */
  function Alone(n: nat): seq<MixedMove> { seq(n, i => Ours(Move(0, Acknowledged))) }

  lemma {:induction false} DefinesAlone(ddl: Schema, site: Site, i: nat, rest: seq<MixedMove>)
    requires i <= |ddl| && OpenerAt(site, 0) == Defining(i)
    ensures
      var site' := Site(site.catalog.(installed := site.catalog.installed + Definitions(ddl[i..])), site.openers[0 := Reading]);
      RunMixed(ddl, site, Alone(|ddl| - i + 1) + rest) == RunMixed(ddl, site', rest)
    decreases |ddl| - i
  {
    var ms := Alone(|ddl| - i + 1) + rest;
    var next := NextMixed(ddl, site, ms[0]);
    if i == |ddl| {
      assert ms[1..] == rest;
      assert site.catalog.installed + Definitions(ddl[i..]) == site.catalog.installed;
    } else {
      assert ms[1..] == Alone(|ddl| - (i + 1) + 1) + rest;
      DefinesAlone(ddl, next, i + 1, rest);
      assert ddl[i..] == [ddl[i]] + ddl[i + 1..];
      assert site.catalog.installed + {ddl[i]} + Definitions(ddl[i + 1..]) == site.catalog.installed + Definitions(ddl[i..]);
      assert next.openers[0 := Reading] == site.openers[0 := Reading];
    }
  }

  /** The schedule in which that happens: from a sound version 2, opener 0 has read the version and
      is about to record 3 when a later provider records 4; its update takes the version back. */
  lemma LaterProviderIsLowered(ddl: Schema, c: Catalog) returns (before: seq<MixedMove>)
    requires c.version == Some(2) && Sound(ddl, c)
    ensures
      var site := Site(c, map[]);
      && RunMixed(ddl, site, before).catalog.version == Some(4)
      && RunMixed(ddl, site, before + Alone(1)).catalog.version == Some(3)
      && OpenerAt(RunMixed(ddl, site, before + Alone(1)), 0).Done?
  {
    hide RunMixed;
    var site := Site(c, map[]);
    before := Alone(|ddl| + 3) + [Later(4, {})];
    ReachesUpdate(ddl, c, [Later(4, {})]);
    ReachesUpdate(ddl, c, [Later(4, {})] + Alone(1));
    assert before + Alone(1) == Alone(|ddl| + 3) + ([Later(4, {})] + Alone(1));
    LaterThenUpdate(ddl, c);
  }

  lemma ReachesUpdate(ddl: Schema, c: Catalog, rest: seq<MixedMove>)
    requires c.version == Some(2)
    ensures RunMixed(ddl, Site(c, map[]), Alone(|ddl| + 3) + rest)
         == RunMixed(ddl, Site(c.(installed := c.installed + Definitions(ddl)), map[0 := Updating]), rest)
  {
    var ms := Alone(|ddl| + 3) + rest;
    var started := Site(c, map[0 := Defining(0)]);
    assert NextMixed(ddl, Site(c, map[]), ms[0]) == started;
    assert ms[1..] == Alone(|ddl| + 1) + (Alone(1) + rest);
    DefinesAlone(ddl, started, 0, Alone(1) + rest);
    assert ddl[0..] == ddl;
    assert started.openers[0 := Reading] == map[0 := Reading];
    assert (Alone(1) + rest)[1..] == rest;
    assert map[0 := Reading][0 := Updating] == map[0 := Updating];
  }

  lemma LaterThenUpdate(ddl: Schema, c: Catalog)
    requires c.version == Some(2)
    ensures
      var site := Site(c.(installed := c.installed + Definitions(ddl)), map[0 := Updating]);
      && RunMixed(ddl, site, [Later(4, {})]).catalog.version == Some(4)
      && RunMixed(ddl, site, [Later(4, {})] + Alone(1)).catalog.version == Some(SCHEMA_VERSION)
      && OpenerAt(RunMixed(ddl, site, [Later(4, {})] + Alone(1)), 0).Done?
  {
    assert ([Later(4, {})] + Alone(1))[1..] == Alone(1);
    assert Alone(1)[1..] == [] && [Later(4, {})][1..] == [];
  }

  // ------------------------------------------------------------------
  // `ensure_schema`

  /** The database: before each statement of the connection others take the moves `others` says, and
      `faults` says how the statement ends. */
  class SchemaDatabase {
    const ddl: Schema
    const others: nat -> seq<Move>
    const faults: nat -> Outcome
    var site: Site
    var clock: nat

    constructor (ddl: Schema, others: nat -> seq<Move>, faults: nat -> Outcome, site: Site)
      ensures this.ddl == ddl && this.others == others && this.faults == faults && this.site == site && clock == 0
    {
      this.ddl := ddl;
      this.others := others;
      this.faults := faults;
      this.site := site;
      this.clock := 0;
    }

    /** Other openers take their moves. */
    method OthersMove()
      requires Orderly(ddl, site)
      modifies this`site
      ensures Orderly(ddl, site) && NeverBack(old(site).catalog, site.catalog)
      ensures others(clock) == [] ==> site == old(site)
    {
      hide Orderly, NeverBack;
      UpgradesAreSafe(ddl, site, others(clock));
      for i := 0 to |others(clock)|
        invariant site == Run(ddl, old(site), others(clock)[..i])
      {
        site := Next(ddl, site, others(clock)[i]);
        assert others(clock)[..i + 1][..i] == others(clock)[..i];
      }
      assert others(clock)[..|others(clock)|] == others(clock);
    }

    /** A statement that only reads the version record. */
    method Read() returns (ok: bool, version: Option<int>)
      modifies `clock
      ensures clock == old(clock) + 1 && ok == faults(old(clock)).Acknowledged? && version == site.catalog.version
    {
      ok, version := faults(clock).Acknowledged?, site.catalog.version;
      clock := clock + 1;
    }

    /** A statement that changes the catalog: it may take effect and still raise. */
    method Execute(after: Catalog) returns (ok: bool)
      requires Orderly(ddl, site) && Grows(ddl, site.catalog, after)
      modifies this
      ensures Orderly(ddl, site) && NeverBack(old(site).catalog, site.catalog)
      ensures clock == old(clock) + 1 && ok == faults(old(clock)).Acknowledged?
      ensures site == if faults(old(clock)).Refused? then old(site) else old(site).(catalog := after)
    {
      hide Orderly, Grows;
      ok := faults(clock).Acknowledged?;
      if !faults(clock).Refused? {
        CatalogGrown(ddl, site, site.(catalog := after));
        site := site.(catalog := after);
      }
      clock := clock + 1;
    }
  }

  lemma NeverBackOn(a: Catalog, b: Catalog, c: Catalog)
    requires NeverBack(a, b) && NeverBack(b, c)
    ensures NeverBack(a, c)
  {
  }

  lemma InstalledStays(ddl: Schema, c: Catalog, c': Catalog, o: Opener)
    requires NeverBack(c, c') && Stands(ddl, c, o) && !o.Updating?
    ensures Stands(ddl, c', o)
  {
  }

  ghost predicate AllWell(faults: nat -> Outcome) { forall i :: faults(i).Acknowledged? }

  class SurrealConnection {
    const db: SchemaDatabase
    var schemaReady: bool
    var closed: bool

    constructor (db: SchemaDatabase)
      ensures this.db == db && !schemaReady && !closed
    {
      this.db := db;
      this.schemaReady := false;
      this.closed := false;
    }

    /** A connection that believes the schema ready is right. */
    ghost predicate Valid()
      reads this, db
    {
      Orderly(db.ddl, db.site) && (schemaReady ==> Complete(db.ddl, db.site.catalog))
    }

    /** The loop over the definitions. */
    method Define() returns (ok: bool)
      requires Orderly(db.ddl, db.site)
      modifies db
      ensures Orderly(db.ddl, db.site) && NeverBack(old(db.site).catalog, db.site.catalog)
      ensures ok ==> AllInstalled(db.ddl, db.site.catalog)
      ensures AllWell(db.faults) ==> ok
    {
      hide Orderly, NeverBack, Complete;
      ghost var start := db.site.catalog;
      NeverBackSelf(start);
      for i := 0 to |db.ddl|
        invariant Orderly(db.ddl, db.site) && NeverBack(start, db.site.catalog)
        invariant Stands(db.ddl, db.site.catalog, Defining(i))
      {
        ghost var before := db.site.catalog;
        db.OthersMove();
        InstalledStays(db.ddl, before, db.site.catalog, Defining(i));
        NeverBackOn(start, before, db.site.catalog);
        ghost var middle := db.site.catalog;
        ok := db.Execute(Defined(db.site.catalog, db.ddl[i]));
        NeverBackOn(start, middle, db.site.catalog);
        if !ok {
          return false;
        }
      }
      ok := true;
      assert forall d <- db.ddl :: d in db.site.catalog.installed;
    }

    /** Read the version record, or create it and read it again. */
    method ReadOrCreate() returns (version: Option<int>)
      requires Orderly(db.ddl, db.site) && AllInstalled(db.ddl, db.site.catalog)
      modifies db
      ensures Orderly(db.ddl, db.site) && NeverBack(old(db.site).catalog, db.site.catalog)
      ensures version.Some? ==> version == db.site.catalog.version
      ensures AllWell(db.faults) ==> version.Some?
    {
      hide Orderly, Stands;
      db.OthersMove();
      var ok;
      ok, version := db.Read();
      if !ok {
        return None;
      }
      if version.None? {
        ghost var first := db.site.catalog;
        db.OthersMove();
        ghost var second := db.site.catalog;
        var _ := db.Execute(Created(db.site.catalog));
        ghost var third := db.site.catalog;
        db.OthersMove();
        NeverBackOn(first, second, third);
        NeverBackOn(first, third, db.site.catalog);
        ok, version := db.Read();
        if !ok {
          return None;
        }
      }
    }

    /** The definitions, then the version record. */
    method Install() returns (ok: bool)
      requires Orderly(db.ddl, db.site)
      modifies db
      ensures Orderly(db.ddl, db.site) && NeverBack(old(db.site).catalog, db.site.catalog)
      ensures ok ==> Complete(db.ddl, db.site.catalog)
      ensures AllWell(db.faults) && Acceptable(old(db.site).catalog.version) ==> ok
    {
      hide Orderly, AllWell;
      ghost var start := db.site.catalog;
      var defined := Define();
      if !defined {
        return false;
      }
      ghost var first := db.site.catalog;
      var version := ReadOrCreate();
      NeverBackOn(start, first, db.site.catalog);
      if version.None? || !Supported(version.value) {
        return false;
      }
      if version.value < SCHEMA_VERSION {
        ghost var second := db.site.catalog;
        db.OthersMove();
        ghost var third := db.site.catalog;
        NeverBackOn(start, second, third);
        AllWellAt(db.faults, db.clock);
        var updated := db.Execute(Updated(db.site.catalog));
        NeverBackOn(start, third, db.site.catalog);
        if !updated {
          return false;
        }
      }
      ok := true;
    }

    /** `ensure_schema`: a connection that returns sees the complete schema; one that meets no
        failure and no unsupported version does return; an unsupported version is rejected and kept. */
    method EnsureSchema() returns (ok: bool)
      requires Valid()
      modifies this`schemaReady, db
      ensures Valid() && NeverBack(old(db.site).catalog, db.site.catalog)
      ensures ok ==> schemaReady && Complete(db.ddl, db.site.catalog)
      ensures ok ==>
        && (forall d <- db.ddl :: d in db.site.catalog.installed)
        && db.site.catalog.version.Some? && db.site.catalog.version.value >= 3
      ensures (&& !old(closed) && !old(schemaReady) && old(db.site).catalog.version.Some?
               && !(1 <= old(db.site).catalog.version.value <= 3)) ==>
        !ok && (db.others(old(db.clock)) == [] ==> db.site == old(db.site))
      ensures !ok ==> schemaReady == old(schemaReady)
      ensures old(closed) ==> !ok && db.site == old(db.site)
      ensures !old(closed) && AllWell(db.faults) && Acceptable(old(db.site).catalog.version) ==> ok
      ensures !old(schemaReady) && !Acceptable(old(db.site).catalog.version) ==>
        !ok && db.site.catalog.version == old(db.site).catalog.version
    {
      hide Orderly, AllWell;
      NeverBackSelf(db.site.catalog);
      if closed {
        return false;
      }
      if schemaReady {
        return true;
      }
      ghost var start := db.site.catalog;
      AllWellAt(db.faults, db.clock);
      db.OthersMove();
      ghost var first := db.site.catalog;
      var read, existing := db.Read();
      if !read || !Acceptable(existing) {
        return false;
      }
      ok := Install();
      NeverBackOn(start, first, db.site.catalog);
      schemaReady := ok;
    }
  }

  lemma NeverBackSelf(c: Catalog)
    ensures NeverBack(c, c)
  {
  }

  lemma AllWellAt(faults: nat -> Outcome, i: nat)
    ensures AllWell(faults) ==> faults(i).Acknowledged?
  {
  }
}
