/**
 The migration runner. A database records which migrations it has run; names and checksums are recorded only from the
 third migration on, which adds the columns for them. A run validates the record, executes what is missing in order,
 fills in what older runs could not record, and either commits the whole or rolls everything back.
 */
module Migrations {
  import opened Prelude

  /** `checksumMatches`: the checksum in the build is the one computed from the definition. */
  datatype Migration = Migration(version: int, name: Id, checksum: Id, complete: bool, checksumMatches: bool)
  datatype Recorded = Recorded(version: int, name: Option<Id>, checksum: Option<Id>)

  const METADATA_VERSION := 3

  predicate DefinitionsValid(ms: seq<Migration>) {
    forall i :: 0 <= i < |ms| ==> ms[i].version == i + 1 && ms[i].complete && ms[i].checksumMatches
  }

  predicate Matches(r: Recorded, m: Migration) {
    r.name == Some(m.name) && r.checksum == Some(m.checksum)
  }

  /** A record is valid when it is a contiguous prefix of the build, matching it where names and checksums are
      recorded. */
  predicate HistoryValid(rows: seq<Recorded>, hasMetadata: bool, ms: seq<Migration>) {
    && |rows| <= |ms|
    && (forall i :: 0 <= i < |rows| ==> rows[i].version == i + 1)
    && (hasMetadata ==> forall i :: 0 <= i < |rows| ==> Matches(rows[i], ms[i]))
    && (!hasMetadata ==> |rows| < METADATA_VERSION)
  }

  /** After a run there are names if there were before, or if the build has the migration that adds them. */
  predicate Named(hasName: bool, ms: seq<Migration>) {
    hasName || |ms| >= METADATA_VERSION
  }

  function FullHistory(ms: seq<Migration>, named: bool): seq<Recorded> {
    seq(|ms|, i requires 0 <= i < |ms| =>
      if named then Recorded(ms[i].version, Some(ms[i].name), Some(ms[i].checksum))
      else Recorded(ms[i].version, None, None))
  }

  function Missing(from: nat, ms: seq<Migration>): seq<int>
    requires from <= |ms|
  {
    seq(|ms| - from, i requires 0 <= i < |ms| - from => ms[from + i].version)
  }

  ghost predicate Ascending(rows: seq<Recorded>) {
    forall i, j :: 0 <= i < j < |rows| ==> rows[i].version < rows[j].version
  }

  /** `broken` are the versions whose statements the database rejects. */
  predicate CanMigrate(rows: seq<Recorded>, hasName: bool, hasChecksum: bool, ms: seq<Migration>, broken: set<int>) {
    && DefinitionsValid(ms) && hasName == hasChecksum && HistoryValid(rows, hasName, ms)
    // where the metadata columns exist, the migration that adds them has run or is not part of the build
    && (hasName && |rows| < METADATA_VERSION ==> |ms| < METADATA_VERSION)
    && forall i :: |rows| <= i < |ms| ==> ms[i].version !in broken
  }

  class Database {
    var tableExists: bool
    var rows: seq<Recorded>          // ordered by version, the primary key
    var hasName: bool
    var hasChecksum: bool
    var executed: seq<int>           // the versions whose statements took effect, in order

    ghost predicate Valid()
      reads this
    {
      && Ascending(rows)
      && (!tableExists ==> rows == [] && !hasName && !hasChecksum)
      && (!hasName ==> forall i :: 0 <= i < |rows| ==> rows[i].name.None?)
      && (!hasChecksum ==> forall i :: 0 <= i < |rows| ==> rows[i].checksum.None?)
    }

    constructor ()
      ensures Valid() && rows == [] && executed == [] && !hasName && !hasChecksum
    {
      tableExists, rows, hasName, hasChecksum, executed := false, [], false, false, [];
    }

    method ValidateDefinitions(ms: seq<Migration>) returns (ok: bool)
      ensures ok == DefinitionsValid(ms)
    {
      for i := 0 to |ms|
        invariant forall k :: 0 <= k < i ==> ms[k].version == k + 1 && ms[k].complete && ms[k].checksumMatches
      {
        if ms[i].version != i + 1 || !ms[i].complete || !ms[i].checksumMatches {
          return false;
        }
      }
      return true;
    }

    /** The checks of a recorded history, in their order: nothing newer than the build, a contiguous matching prefix,
        metadata from version 3 on. */
    method ValidateHistory(ms: seq<Migration>) returns (ok: bool)
      requires Valid() && hasName == hasChecksum && DefinitionsValid(ms)
      ensures ok == HistoryValid(rows, hasName, ms)
    {
      for i := 0 to |rows|
        invariant forall k :: 0 <= k < i ==> rows[k].version <= |ms|
      {
        if rows[i].version > |ms| {
          assert rows[i].version != i + 1 || |rows| > |ms|;
          return false;
        }
      }
      for i := 0 to |rows|
        invariant i <= |ms|
        invariant forall k :: 0 <= k < i ==> rows[k].version == k + 1 && (hasName ==> Matches(rows[k], ms[k]))
      {
        if rows[i].version != i + 1 {
          return false;
        }
        if hasName && !Matches(rows[i], ms[i]) {
          return false;
        }
      }
      if !hasName {
        for i := 0 to |rows|
          invariant forall k :: 0 <= k < i ==> rows[k].version < METADATA_VERSION
        {
          if rows[i].version >= METADATA_VERSION {
            return false;
          }
        }
        assert |rows| > 0 ==> rows[|rows| - 1].version == |rows|;
      }
      return true;
    }

    /** The statements of one migration; the third one adds the metadata columns and fails where they exist. */
    method Execute(m: Migration, broken: set<int>) returns (ok: bool)
      modifies `hasName, `hasChecksum, `executed
      ensures ok <==> m.version !in broken && !(m.version == METADATA_VERSION && (old(hasName) || old(hasChecksum)))
      ensures ok ==> executed == old(executed) + [m.version]
      ensures ok && m.version == METADATA_VERSION ==> hasName && hasChecksum
      ensures m.version != METADATA_VERSION ==> hasName == old(hasName) && hasChecksum == old(hasChecksum)
    {
      if m.version in broken || (m.version == METADATA_VERSION && (hasName || hasChecksum)) {
        return false;
      }
      if m.version == METADATA_VERSION {
        hasName, hasChecksum := true, true;
      }
      executed := executed + [m.version];
      return true;
    }

    /** Names the migrations that ran before there were columns for their names. */
    method NameLegacy(ms: seq<Migration>, n: nat)
      requires n <= |rows| == n && n <= |ms|
      requires forall i :: 0 <= i < n ==>
            rows[i].version == ms[i].version && (rows[i].name.None? <==> rows[i].checksum.None?)
      requires forall i :: 0 <= i < n && rows[i].name.Some? ==> Matches(rows[i], ms[i])
      modifies `rows
      ensures |rows| == n && forall i :: 0 <= i < n ==>
            rows[i].version == old(rows)[i].version && Matches(rows[i], ms[i])
    {
      for k := 0 to n
        invariant |rows| == n
        invariant forall i :: 0 <= i < k ==> rows[i].version == old(rows)[i].version && Matches(rows[i], ms[i])
        invariant forall i :: k <= i < n ==> rows[i] == old(rows)[i]
      {
        if rows[k].name.None? && rows[k].checksum.None? {
          rows := rows[k := rows[k].(name := Some(ms[k].name), checksum := Some(ms[k].checksum))];
        }
      }
    }

    /** Where the record stands once the first `n` migrations are in it. */
    ghost predicate RecordedUpTo(n: nat, ms: seq<Migration>)
      reads this
    {
      && |rows| == n <= |ms| && tableExists && hasName == hasChecksum
      && (forall i :: 0 <= i < n ==> rows[i].version == i + 1)
      && (hasName ==> forall i :: 0 <= i < n ==> Matches(rows[i], ms[i]))
      && (!hasName ==> n < METADATA_VERSION && forall i :: 0 <= i < n ==> rows[i].name.None? && rows[i].checksum.None?)
    }

    /** One missing migration: its statements, the names of older entries once there are columns for them, and its own
        entry. */
    method ApplyMigration(i: nat, ms: seq<Migration>, broken: set<int>) returns (ok: bool)
      requires DefinitionsValid(ms) && i < |ms| && RecordedUpTo(i, ms)
      modifies this
      ensures ok <==> ms[i].version !in broken && !(i + 1 == METADATA_VERSION && old(hasName))
      ensures ok ==>
            && RecordedUpTo(i + 1, ms) && executed == old(executed) + [i + 1]
            && hasName == (old(hasName) || i + 1 == METADATA_VERSION)
    {
      var migration := ms[i];
      ok := Execute(migration, broken);
      if ok {
        if hasName {
          NameLegacy(ms, i);
          rows := rows + [Recorded(migration.version, Some(migration.name), Some(migration.checksum))];
        } else {
          rows := rows + [Recorded(migration.version, None, None)];
        }
      }
    }

    method ApplyMissing(ms: seq<Migration>, broken: set<int>) returns (ok: bool)
      requires DefinitionsValid(ms) && RecordedUpTo(|rows|, ms)
      modifies this
      ensures ok <==> old(hasName && |rows| < METADATA_VERSION ==> |ms| < METADATA_VERSION)
                      && forall i :: |old(rows)| <= i < |ms| ==> ms[i].version !in broken
      ensures ok ==> RecordedUpTo(|ms|, ms) && hasName == old(Named(hasName, ms))
                     && executed == old(executed) + Missing(|old(rows)|, ms)
    {
      ghost var hadMetadata := hasName;
      var start := |rows|;
      for i := start to |ms|
        invariant RecordedUpTo(i, ms) && hasName == (hadMetadata || i >= METADATA_VERSION)
        invariant executed == old(executed) + Missing(start, ms)[..i - start]
        invariant hadMetadata && start < METADATA_VERSION ==> i < METADATA_VERSION
        invariant forall k :: start <= k < i ==> ms[k].version !in broken
      {
        var done := ApplyMigration(i, ms, broken);
        if !done {
          return false;
        }
        assert Missing(start, ms)[..i + 1 - start] == Missing(start, ms)[..i - start] + [i + 1];
      }
      assert Missing(start, ms)[..|ms| - start] == Missing(start, ms);
      return true;
    }

    /** Everything inside the transaction. */
    method ApplyMigrations(ms: seq<Migration>, broken: set<int>) returns (ok: bool)
      requires Valid()
      modifies this
      ensures ok <==> old(CanMigrate(rows, hasName, hasChecksum, ms, broken))
      ensures ok ==>
        tableExists && hasName == hasChecksum == old(Named(hasName, ms)) && rows == FullHistory(ms, hasName)
      ensures ok ==> executed == old(executed) + Missing(|old(rows)|, ms)
    {
      var defined := ValidateDefinitions(ms);
      if !defined || hasName != hasChecksum {
        return false;
      }
      var valid := ValidateHistory(ms);
      if !valid {
        return false;
      }
      tableExists := true;
      ok := ApplyMissing(ms, broken);
      if ok {
        assert rows == FullHistory(ms, hasName);
        ok := ValidateHistory(ms);
      }
    }

    /**
     The transaction around it. A run succeeds exactly when the record is valid and the missing statements execute; then
     each missing migration ran once, in order, and the record is full. Otherwise nothing at all has changed.
     */
    method RunMigrations(ms: seq<Migration>, broken: set<int>) returns (ok: bool)
      requires Valid()
      modifies this
      ensures Valid() && ok == old(CanMigrate(rows, hasName, hasChecksum, ms, broken))
      ensures ok ==> hasName == hasChecksum == old(Named(hasName, ms)) && rows == FullHistory(ms, hasName)
                     && executed == old(executed) + Missing(|old(rows)|, ms)
      ensures !ok ==> rows == old(rows) && hasName == old(hasName) && hasChecksum == old(hasChecksum)
                      && executed == old(executed) && tableExists == old(tableExists)
    {
      var tableExists0, rows0, hasName0, hasChecksum0, executed0 := tableExists, rows, hasName, hasChecksum, executed;
      ok := ApplyMigrations(ms, broken);
      if !ok {
        tableExists, rows, hasName, hasChecksum, executed := tableExists0, rows0, hasName0, hasChecksum0, executed0;
      }
    }

    /** A second run finds a full, valid record and changes nothing. */
    method RunTwice(ms: seq<Migration>, broken: set<int>) returns (first: bool, second: bool)
      requires Valid()
      modifies this
      ensures first == old(CanMigrate(rows, hasName, hasChecksum, ms, broken)) && second == first
      ensures first ==> rows == FullHistory(ms, hasName) && executed == old(executed) + Missing(|old(rows)|, ms)
    {
      first := RunMigrations(ms, broken);
      assert first ==> Missing(|rows|, ms) == [];
      second := RunMigrations(ms, broken);
    }
  }

  /** A record of an older build, whose entries have no names, is migrated exactly when it ended before the migration
      that records them and the missing statements execute. */
  lemma LegacyPrefixMigrates(ms: seq<Migration>, n: nat, broken: set<int>)
    requires DefinitionsValid(ms)
    ensures CanMigrate(seq(n, i requires 0 <= i < n => Recorded(i + 1, None, None)), false, false, ms, broken) <==>
            n < METADATA_VERSION && n <= |ms| && forall version :: n < version <= |ms| ==> version !in broken
  {
    var rows := seq(n, i requires 0 <= i < n => Recorded(i + 1, None, None));
    if n <= |ms| && forall i :: n <= i < |ms| ==> ms[i].version !in broken {
      forall version | n < version <= |ms| ensures version !in broken {
        assert ms[version - 1].version == version;
      }
    }
  }

  /** Columns without the migration that adds them pass validation and are then rejected by that migration, if the build
      has it. */
  lemma EarlyMetadataIsRejected(rows: seq<Recorded>, ms: seq<Migration>)
    requires DefinitionsValid(ms) && HistoryValid(rows, true, ms)
    ensures CanMigrate(rows, true, true, ms, {}) <==> |rows| >= METADATA_VERSION || |ms| < METADATA_VERSION
  {
  }
}
