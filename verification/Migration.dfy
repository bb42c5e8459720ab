/**
 * Bringing an older index up to the current shape: `_migrate` and `_needs_attention` of
 * wrasse/liabilities.py, on a file any number of processes open at once. SQLite's
 * transaction is one step; the preflight before it is another.
 */
module Migration {
  import opened Constants
  import opened Liabilities
  import opened Numeric

  /** A row of the older table, which was keyed by deal id and could hold a null one. */
  datatype OldRow = OldRow(deal: Option<DealId>, session: nat)

  /** What `open_deals` is. */
  datatype Table = Absent | OldShape(older: seq<OldRow>) | NewShape(rows: Index)

  /** The file: the table in use, and the renamed one an interrupted migration leaves behind. */
  datatype File = File(current: Table, left: Option<seq<OldRow>>)

  datatype MigrationError = RenameClash | NamelessRow | CountMismatch

  /** `_needs_attention`. */
  predicate NeedsAttention(f: File) {
    f.left.Some? || f.current.OldShape?
  }

  function MovedRow(row: OldRow): Liability {
    Liability(row.session, false, row.deal)
  }

  /** The copy, row by row; a row with no deal id stops it. */
  function Copied(rows: Index, source: seq<OldRow>): Option<Index> {
    if source == [] then Some(rows)
    else
      var before := Copied(rows, source[..|source| - 1]);
      var row := source[|source| - 1];
      if before.None? || row.deal.None? then None
      else Some(before.value[Migrated(row.deal.value) := MovedRow(row)])
  }

  /** Rows a migration named. */
  function MigratedNames(rows: Index): set<Intent> {
    set i | i in rows && i.Migrated?
  }

  /** The rows the copy goes into. */
  function Target(f: File): Index {
    if f.current.NewShape? then f.current.rows else map[]
  }

  function Source(f: File): seq<OldRow> {
    if f.current.OldShape? then f.current.older else if f.left.Some? then f.left.value else []
  }

  /** `_migrate` under its lock: all of it, or the file as it was. */
  function Migrate(f: File): Result<File, MigrationError> {
    if !NeedsAttention(f) then Ok(f)
    else if f.current.OldShape? && f.left.Some? then Err(RenameClash)
    else
      var copied := Copied(Target(f), Source(f));
      if copied.None? then Err(NamelessRow)
      else if |MigratedNames(copied.value)| != |Source(f)| then Err(CountMismatch)
      else Ok(File(NewShape(copied.value), None))
  }

  // ---------------------------------------------------------------------------------------
  // What a migration does
  // ---------------------------------------------------------------------------------------

  function DealNames(source: seq<OldRow>): set<Intent> {
    if source == [] then {}
    else
      var last := source[|source| - 1];
      DealNames(source[..|source| - 1]) + if last.deal.Some? then {Migrated(last.deal.value)} else {}
  }

  lemma {:induction false} NamesOfRows(source: seq<OldRow>)
    ensures forall j :: 0 <= j < |source| && source[j].deal.Some? ==> Migrated(source[j].deal.value) in DealNames(source)
    ensures forall i :: i in DealNames(source) ==> exists j :: 0 <= j < |source| && source[j].deal.Some? && i == Migrated(source[j].deal.value)
  {
    if source != [] {
      var n := |source| - 1;
      var shorter := source[..n];
      NamesOfRows(shorter);
      assert forall j :: 0 <= j < n ==> shorter[j] == source[j];
      forall i | i in DealNames(source) ensures exists j :: 0 <= j < |source| && source[j].deal.Some? && i == Migrated(source[j].deal.value) {
        if i in DealNames(shorter) {
          var j :| 0 <= j < n && shorter[j].deal.Some? && i == Migrated(shorter[j].deal.value);
          assert source[j].deal.Some?;
        }
      }
    }
  }

  ghost predicate AllNamed(source: seq<OldRow>) {
    forall j :: 0 <= j < |source| ==> source[j].deal.Some?
  }

  ghost predicate DistinctDeals(source: seq<OldRow>) {
    forall j, k :: 0 <= j < k < |source| ==> source[j].deal != source[k].deal
  }

  /** Every row that was there stays, minted ones untouched; every old row arrives; nothing else appears. */
  lemma {:induction false} CopyIsExact(rows: Index, source: seq<OldRow>)
    ensures Copied(rows, source).Some? <==> AllNamed(source)
    ensures AllNamed(source) ==>
      var after := Copied(rows, source).value;
      && after.Keys == rows.Keys + DealNames(source)
      && (forall i :: i in rows && i !in DealNames(source) ==> after[i] == rows[i])
      && (forall i :: i in DealNames(source) ==>
           exists j :: 0 <= j < |source| && i == Migrated(source[j].deal.value) && after[i] == MovedRow(source[j]))
  {
    if source == [] {
      assert DealNames(source) == {};
    } else {
      var n := |source| - 1;
      var shorter := source[..n];
      CopyIsExact(rows, shorter);
      assert AllNamed(source) <==> AllNamed(shorter) && source[n].deal.Some?;
      if AllNamed(source) {
        var name := Migrated(source[n].deal.value);
        var after := Copied(rows, source).value;
        forall i | i in DealNames(source)
          ensures exists j :: 0 <= j < |source| && i == Migrated(source[j].deal.value) && after[i] == MovedRow(source[j])
        {
          if i == name {
            assert after[i] == MovedRow(source[n]);
          } else {
            var j :| 0 <= j < n && i == Migrated(shorter[j].deal.value) && Copied(rows, shorter).value[i] == MovedRow(shorter[j]);
            assert source[j] == shorter[j];
          }
        }
      }
    }
  }

  /** A migration that succeeds loses no row of either shape and leaves nothing to migrate; repeated, it changes nothing. */
  lemma MigrationLosesNothing(f: File)
    requires Migrate(f).Ok?
    ensures var after := Migrate(f).value;
      && !NeedsAttention(after) && Migrate(after) == Ok(after)
      && (NeedsAttention(f) ==>
           && after.current.NewShape?
           && after.current.rows.Keys == Target(f).Keys + DealNames(Source(f))
           && (forall i :: i in Target(f) && i.Minted? ==> after.current.rows[i] == Target(f)[i])
           && (forall j :: 0 <= j < |Source(f)| ==>
                && Source(f)[j].deal.Some?
                && Migrated(Source(f)[j].deal.value) in after.current.rows
                && after.current.rows[Migrated(Source(f)[j].deal.value)].deal == Source(f)[j].deal))
  {
    if NeedsAttention(f) {
      CopyIsExact(Target(f), Source(f));
      NamesOfRows(Source(f));
    }
  }

  /** And it files each under the session of an old row for the same deal, with no hash, since the older shape kept none. */
  lemma AMigratedRowIsFiled(f: File, j: nat) returns (k: nat)
    requires NeedsAttention(f) && Migrate(f).Ok? && j < |Source(f)| && Source(f)[j].deal.Some?
    ensures k < |Source(f)| && Source(f)[k].deal == Source(f)[j].deal
    ensures Migrate(f).value.current.NewShape?
    ensures var rows := Migrate(f).value.current.rows; var name := Migrated(Source(f)[j].deal.value);
      name in rows && rows[name] == Liability(Source(f)[k].session, false, Source(f)[j].deal)
  {
    CopyIsExact(Target(f), Source(f));
    NamesOfRows(Source(f));
    var name := Migrated(Source(f)[j].deal.value);
    k :| 0 <= k < |Source(f)| && name == Migrated(Source(f)[k].deal.value) && Migrate(f).value.current.rows[name] == MovedRow(Source(f)[k]);
  }

  lemma {:induction false} DistinctNames(source: seq<OldRow>)
    requires AllNamed(source)
    ensures |DealNames(source)| <= |source|
    ensures |DealNames(source)| == |source| <==> DistinctDeals(source)
  {
    if source != [] {
      var n := |source| - 1;
      var shorter := source[..n];
      DistinctNames(shorter);
      LastIsNew(source);
      assert DistinctDeals(source) ==> DistinctDeals(shorter) by {
        assert forall j :: 0 <= j < n ==> shorter[j] == source[j];
      }
      if Migrated(source[n].deal.value) in DealNames(shorter) {
        assert DealNames(source) == DealNames(shorter);
      }
    }
  }

  /** The last row's name is new exactly when no earlier row has its deal. */
  lemma LastIsNew(source: seq<OldRow>)
    requires source != [] && AllNamed(source)
    ensures var n := |source| - 1;
      && (Migrated(source[n].deal.value) !in DealNames(source[..n]) <==> forall j :: 0 <= j < n ==> source[j].deal != source[n].deal)
      && (DistinctDeals(source) <==> DistinctDeals(source[..n]) && forall j :: 0 <= j < n ==> source[j].deal != source[n].deal)
  {
    var n := |source| - 1;
    var shorter := source[..n];
    NamesOfRows(shorter);
    assert forall j :: 0 <= j < n ==> shorter[j] == source[j];
  }

  /** Exactly when an index that needs migrating is migrated: one old table, every row named, and as many names as rows. */
  lemma MigratesIff(f: File)
    requires NeedsAttention(f)
    ensures Migrate(f).Ok? <==>
      && !(f.current.OldShape? && f.left.Some?)
      && AllNamed(Source(f))
      && |MigratedNames(Target(f)) + DealNames(Source(f))| == |Source(f)|
    ensures MigratedNames(Target(f)) == {} ==>
      (Migrate(f).Ok? <==> !(f.current.OldShape? && f.left.Some?) && AllNamed(Source(f)) && DistinctDeals(Source(f)))
  {
    var source := Source(f);
    CopyIsExact(Target(f), source);
    if AllNamed(source) {
      NamesAfterACopy(Target(f), source);
      DistinctNames(source);
      assert {} + DealNames(source) == DealNames(source);
    }
  }

  lemma {:induction false} NamesAfterACopy(rows: Index, source: seq<OldRow>)
    requires AllNamed(source)
    ensures Copied(rows, source).Some?
    ensures MigratedNames(Copied(rows, source).value) == MigratedNames(rows) + DealNames(source)
  {
    CopyIsExact(rows, source);
    NamesOfRows(source);
  }

  /** A table left behind beside a row already migrated that it does not name is refused on every open, for good, while its own rows are all different. */
  lemma ALeftoverBesideOthersIsRefused(f: File, stranger: DealId)
    requires f.left.Some? && f.current.NewShape? && Migrated(stranger) in f.current.rows
    requires AllNamed(f.left.value) && DistinctDeals(f.left.value)
    requires forall j :: 0 <= j < |f.left.value| ==> f.left.value[j].deal != Some(stranger)
    ensures Migrate(f) == Err(CountMismatch)
  {
    var source := f.left.value;
    NamesAfterACopy(Target(f), source);
    NamesOfRows(source);
    DistinctNames(source);
    var names := MigratedNames(Target(f)) + DealNames(source);
    assert DealNames(source) + {Migrated(stranger)} <= names;
    SubsetIsNoLarger(DealNames(source) + {Migrated(stranger)}, names);
  }

  class LiabilityFile {
    var file: File

    constructor (file: File)
      ensures this.file == file
    {
      this.file := file;
    }

    /** `_migrate` once the lock is held: rename, copy in a loop, count, drop; or roll back. */
    method MigrateLocked() returns (failed: Option<MigrationError>)
      modifies this
      ensures match Migrate(old(file))
              case Ok(after) => failed.None? && file == after
              case Err(error) => failed == Some(error) && file == old(file)
    {
      var before := file;
      if !NeedsAttention(file) {
        return None;
      }
      if file.current.OldShape? {
        if file.left.Some? {
          return Some(RenameClash);
        }
        file := File(Absent, Some(file.current.older));
      }
      var rows := if file.current.NewShape? then file.current.rows else map[];
      var source := file.left.value;
      assert source == Source(before) && rows == Target(before);
      var n := 0;
      while n < |source|
        invariant n <= |source|
        invariant Copied(Target(before), source[..n]) == Some(rows)
      {
        assert source[..n + 1][..n] == source[..n];
        if source[n].deal.None? {
          NamelessStops(Target(before), source, n);
          file := before;
          return Some(NamelessRow);
        }
        rows := rows[Migrated(source[n].deal.value) := MovedRow(source[n])];
        n := n + 1;
      }
      assert source[..n] == source;
      if |MigratedNames(rows)| != |source| {
        file := before;
        return Some(CountMismatch);
      }
      file := File(NewShape(rows), None);
      return None;
    }
  }

  lemma {:induction false} NamelessStops(rows: Index, source: seq<OldRow>, n: nat)
    requires n < |source| && source[n].deal.None?
    ensures Copied(rows, source).None?
  {
    if n < |source| - 1 {
      NamelessStops(rows, source[..|source| - 1], n);
    }
  }

  // ---------------------------------------------------------------------------------------
  // Concurrent openers
  // ---------------------------------------------------------------------------------------

  /** How far a process opening the file has got: what its preflight said, that it is past the migration, that it is in use. */
  datatype Phase = Looked(needed: bool) | Past | Using

  datatype World = World(file: File, openers: map<nat, Phase>)

  datatype Action =
    | Look(opener: nat)
    /** The locked migration, if the preflight asked for it; an error ends the opener. */
    | Lock(opener: nat)
    /** `create table if not exists`. */
    | Create(opener: nat)
    /** An intent is opened, or learns its hash or deal. */
    | Insert(opener: nat, intent: Intent, session: nat)
    | Learn(opener: nat, intent: Intent, hash: bool, deal: Option<DealId>)

  function At(w: World, opener: nat, phase: Phase): World {
    w.(openers := w.openers[opener := phase])
  }

  function Gone(w: World, opener: nat): World {
    w.(openers := map k | k in w.openers && k != opener :: w.openers[k])
  }

  function Locking(w: World, opener: nat): World {
    if opener !in w.openers || !w.openers[opener].Looked? then w
    else if !w.openers[opener].needed then At(w, opener, Past)
    else
      match Migrate(w.file)
      case Ok(after) => At(w.(file := after), opener, Past)
      case Err(_) => Gone(w, opener)
  }

  function Writing(w: World, opener: nat, rows: Index -> Index): World {
    if opener in w.openers && w.openers[opener].Using? && w.file.current.NewShape?
    then w.(file := w.file.(current := NewShape(rows(w.file.current.rows)))) else w
  }

  function Step(w: World, action: Action): World {
    match action
    case Look(o) => if o in w.openers then w else At(w, o, Looked(NeedsAttention(w.file)))
    case Lock(o) => Locking(w, o)
    case Create(o) =>
      if o !in w.openers || !w.openers[o].Past? then w
      else At(w.(file := w.file.(current := if w.file.current.Absent? then NewShape(map[]) else w.file.current)), o, Using)
    case Insert(o, i, session) => Writing(w, o, rows => Opened(rows, i, session))
    case Learn(o, i, hash, deal) => Writing(w, o, rows => Attached(rows, i, hash, deal))
  }

  /** A migrated row keeps its own deal id: nothing teaches it another. */
  predicate Honest(action: Action) {
    match action
    case Insert(_, i, _) => i.Minted?
    case Learn(_, i, _, _) => i.Minted?
    case _ => true
  }

  /** Whoever is past the migration, by whatever preflight, meets a file that needs none. */
  ghost predicate Inv(w: World) {
    && (forall o :: o in w.openers && (w.openers[o].Past? || w.openers[o] == Looked(false)) ==> !NeedsAttention(w.file))
    && (forall o :: o in w.openers && w.openers[o].Using? ==> !NeedsAttention(w.file) && w.file.current.NewShape?)
  }

  /** Deals the file records, in whichever table. */
  ghost predicate Records(f: File, deal: DealId) {
    || (f.left.Some? && exists j :: 0 <= j < |f.left.value| && f.left.value[j].deal == Some(deal))
    || (f.current.OldShape? && exists j :: 0 <= j < |f.current.older| && f.current.older[j].deal == Some(deal))
    || (f.current.NewShape? && Migrated(deal) in f.current.rows)
  }

  /** Nothing recorded is lost: every deal of the older shape, and every intent of the current one with what it knew. */
  ghost predicate KeepsFile(before: File, after: File) {
    && (forall d: DealId :: Records(before, d) ==> Records(after, d))
    && (before.current.NewShape? ==> after.current.NewShape? && KeepsMinted(before.current.rows, after.current.rows))
  }

  ghost predicate KeepsMinted(before: Index, after: Index) {
    forall i :: i in before && i.Minted? ==> i in after && Knows(before[i], after[i])
  }

  /** `later` knows at least what `earlier` did. */
  predicate Knows(earlier: Liability, later: Liability) {
    && later.session == earlier.session
    && (earlier.hashKnown ==> later.hashKnown)
    && (earlier.deal.Some? ==> later.deal.Some?)
  }

  lemma MigrationKeepsFile(f: File)
    requires Migrate(f).Ok?
    ensures KeepsFile(f, Migrate(f).value)
  {
    MigrationLosesNothing(f);
    if NeedsAttention(f) {
      forall d: DealId | Records(f, d) ensures Records(Migrate(f).value, d) {
        if !(f.current.NewShape? && Migrated(d) in f.current.rows) {
          var j :| 0 <= j < |Source(f)| && Source(f)[j].deal == Some(d);
          assert Migrated(d) in Migrate(f).value.current.rows;
        }
      }
    }
  }

  lemma StepKeeps(w: World, action: Action)
    requires Inv(w) && Honest(action)
    ensures Inv(Step(w, action)) && KeepsFile(w.file, Step(w, action).file)
  {
    match action
    case Lock(o) =>
      if o in w.openers && w.openers[o] == Looked(true) && Migrate(w.file).Ok? {
        MigrationLosesNothing(w.file);
        MigrationKeepsFile(w.file);
      }
    case _ =>
  }

  function Run(start: World, actions: seq<Action>): World {
    if actions == [] then start else Step(Run(start, actions[..|actions| - 1]), actions[|actions| - 1])
  }

  lemma KeepsFileTwice(a: File, b: File, c: File)
    requires KeepsFile(a, b) && KeepsFile(b, c)
    ensures KeepsFile(a, c)
  {
  }

  /**
   * However the openers interleave, and however stale each preflight is by the time it takes the
   * lock: nothing recorded is ever lost, and nobody uses a file that still needs migrating.
   */
  lemma {:induction false} NoOpenerLosesARow(start: World, actions: seq<Action>)
    requires start.openers == map[] && forall a :: a in actions ==> Honest(a)
    ensures Inv(Run(start, actions)) && KeepsFile(start.file, Run(start, actions).file)
  {
    if actions != [] {
      var shorter := actions[..|actions| - 1];
      NoOpenerLosesARow(start, shorter);
      assert actions[|actions| - 1] in actions;
      StepKeeps(Run(start, shorter), actions[|actions| - 1]);
      KeepsFileTwice(start.file, Run(start, shorter).file, Run(start, actions).file);
    }
  }
}
