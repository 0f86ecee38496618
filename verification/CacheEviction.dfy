/** Eviction from the disk cache: unprotected files past their time to live, then the oldest until the limit is met. */
module CacheEviction {
  import opened Prelude

  datatype File = File(path: Id, size: nat, mtime: int)

  function Total(files: seq<File>): nat {
    if files == [] then 0 else Total(files[..|files| - 1]) + files[|files| - 1].size
  }

  /** Oldest first; files of the same age keep their order. */
  function Insert(file: File, sorted: seq<File>): seq<File> {
    if sorted == [] || sorted[|sorted| - 1].mtime <= file.mtime then sorted + [file]
    else Insert(file, sorted[..|sorted| - 1]) + [sorted[|sorted| - 1]]
  }

  function ByAge(files: seq<File>): seq<File> {
    if files == [] then [] else Insert(files[|files| - 1], ByAge(files[..|files| - 1]))
  }

  ghost predicate OldestFirst(files: seq<File>) {
    forall i, j :: 0 <= i < j < |files| ==> files[i].mtime <= files[j].mtime
  }

  lemma TotalAppends(files: seq<File>, file: File)
    ensures Total(files + [file]) == Total(files) + file.size
  {
    assert (files + [file])[..|files|] == files;
  }

  lemma {:induction false} InsertPermutes(file: File, sorted: seq<File>)
    ensures multiset(Insert(file, sorted)) == multiset(sorted) + multiset{file}
    ensures Total(Insert(file, sorted)) == Total(sorted) + file.size
    decreases |sorted|
  {
    if sorted == [] || sorted[|sorted| - 1].mtime <= file.mtime {
      TotalAppends(sorted, file);
    } else {
      var rest, last := sorted[..|sorted| - 1], sorted[|sorted| - 1];
      assert sorted == rest + [last];
      assert Insert(file, sorted) == Insert(file, rest) + [last];
      InsertPermutes(file, rest);
      TotalAppends(Insert(file, rest), last);
    }
  }

  lemma InsertedFrom(file: File, sorted: seq<File>, f: File)
    requires f in Insert(file, sorted)
    ensures f == file || f in sorted
  {
    InsertPermutes(file, sorted);
    assert f in multiset(Insert(file, sorted));
  }

  lemma {:induction false} InsertKeepsOrder(file: File, sorted: seq<File>)
    requires OldestFirst(sorted)
    ensures OldestFirst(Insert(file, sorted))
    decreases |sorted|
  {
    if !(sorted == [] || sorted[|sorted| - 1].mtime <= file.mtime) {
      var rest, last := sorted[..|sorted| - 1], sorted[|sorted| - 1];
      InsertKeepsOrder(file, rest);
      var inserted := Insert(file, rest);
      forall i | 0 <= i < |inserted|
        ensures inserted[i].mtime <= last.mtime
      {
        InsertedFrom(file, rest, inserted[i]);
      }
    }
  }

  /** The order of eviction is a permutation of the files, oldest first. */
  lemma {:induction false} ByAgeSorts(files: seq<File>)
    ensures OldestFirst(ByAge(files)) && multiset(ByAge(files)) == multiset(files)
        && Total(ByAge(files)) == Total(files)
    decreases |files|
  {
    if files != [] {
      var rest, last := files[..|files| - 1], files[|files| - 1];
      assert files == rest + [last];
      assert ByAge(files) == Insert(last, ByAge(rest));
      ByAgeSorts(rest);
      InsertPermutes(last, ByAge(rest));
      InsertKeepsOrder(last, ByAge(rest));
    }
  }

  predicate Expired(file: File, protectedPaths: set<Id>, now: int, ttl: nat) {
    file.path !in protectedPaths && now - file.mtime > ttl
  }

  /** The files that outlive the first pass. */
  function Fresh(files: seq<File>, protectedPaths: set<Id>, now: int, ttl: nat): seq<File> {
    if files == [] then []
    else
      var rest, last := files[..|files| - 1], files[|files| - 1];
      Fresh(rest, protectedPaths, now, ttl) + (if Expired(last, protectedPaths, now, ttl) then [] else [last])
  }

  function Unprotected(files: seq<File>, protectedPaths: set<Id>): seq<File> {
    if files == [] then []
    else
      var rest, last := files[..|files| - 1], files[|files| - 1];
      Unprotected(rest, protectedPaths) + (if last.path in protectedPaths then [] else [last])
  }

  lemma {:induction false} FreshExactly(files: seq<File>, protectedPaths: set<Id>, now: int, ttl: nat, f: File)
    ensures f in Fresh(files, protectedPaths, now, ttl) <==> f in files && !Expired(f, protectedPaths, now, ttl)
    decreases |files|
  {
    if files != [] {
      var rest, last := files[..|files| - 1], files[|files| - 1];
      FreshExactly(rest, protectedPaths, now, ttl, f);
      assert f in files <==> f in rest || f == last;
    }
  }

  lemma {:induction false} UnprotectedExactly(files: seq<File>, protectedPaths: set<Id>, f: File)
    ensures f in Unprotected(files, protectedPaths) <==> f in files && f.path !in protectedPaths
    decreases |files|
  {
    if files != [] {
      var rest, last := files[..|files| - 1], files[|files| - 1];
      UnprotectedExactly(rest, protectedPaths, f);
      assert f in files <==> f in rest || f == last;
    }
  }

  lemma {:induction false} UnprotectedStaysSorted(files: seq<File>, protectedPaths: set<Id>)
    requires OldestFirst(files)
    ensures OldestFirst(Unprotected(files, protectedPaths))
    decreases |files|
  {
    if files != [] {
      var rest, last := files[..|files| - 1], files[|files| - 1];
      UnprotectedStaysSorted(rest, protectedPaths);
      forall i | 0 <= i < |Unprotected(rest, protectedPaths)|
        ensures Unprotected(rest, protectedPaths)[i].mtime <= last.mtime
      {
        UnprotectedExactly(rest, protectedPaths, Unprotected(rest, protectedPaths)[i]);
        assert Unprotected(rest, protectedPaths)[i] in rest;
      }
    }
  }

  /** Going through the files in order meets the unprotected ones in order. */
  lemma {:induction false} UnprotectedPrefix(files: seq<File>, protectedPaths: set<Id>, n: nat)
    requires n <= |files|
    ensures Unprotected(files[..n], protectedPaths) <= Unprotected(files, protectedPaths)
    decreases |files|
  {
    if n < |files| {
      UnprotectedPrefix(files[..|files| - 1], protectedPaths, n);
      assert files[..|files| - 1][..n] == files[..n];
    } else {
      assert files[..n] == files;
    }
  }

  lemma UnprotectedNext(files: seq<File>, protectedPaths: set<Id>, n: nat)
    requires n < |files|
    ensures Unprotected(files[..n + 1], protectedPaths)
         == Unprotected(files[..n], protectedPaths) + (if files[n].path in protectedPaths then [] else [files[n]])
  {
    assert files[..n + 1][..n] == files[..n];
  }

  /** The candidates for eviction under the limit, in the order in which they go. */
  function Candidates(files: seq<File>, protectedPaths: set<Id>, now: int, ttl: nat): seq<File> {
    Unprotected(ByAge(Fresh(files, protectedPaths, now, ttl)), protectedPaths)
  }

  /** How many candidates go from a disk that holds `before`, the first `from` being gone: until the limit is met. */
  function Needed(candidates: seq<File>, before: int, limit: nat, from: nat): nat
    requires from <= |candidates|
    decreases |candidates| - from
  {
    if from == |candidates| || before - Total(candidates[..from]) <= limit then from
    else Needed(candidates, before, limit, from + 1)
  }

  /** Each of `n` candidates goes while the total exceeds the limit: no more than needed, all if that is not enough. */
  ghost predicate JustEnough(candidates: seq<File>, before: int, limit: nat, n: nat) {
    && n <= |candidates|
    && (before - Total(candidates[..n]) <= limit || n == |candidates|)
    && (forall k :: 0 <= k < n ==> before - Total(candidates[..k]) > limit)
  }

  lemma {:induction false} NeededExactly(candidates: seq<File>, before: int, limit: nat, n: nat, from: nat)
    requires from <= n && from <= |candidates| && forall k :: 0 <= k < from ==> before - Total(candidates[..k]) > limit
    ensures JustEnough(candidates, before, limit, n) <==> n == Needed(candidates, before, limit, from)
    decreases |candidates| - from
  {
    if from != |candidates| && before - Total(candidates[..from]) > limit && from < n {
      NeededExactly(candidates, before, limit, n, from + 1);
    } else if from != |candidates| && before - Total(candidates[..from]) > limit {
      NeededGrows(candidates, before, limit, from + 1);
    }
  }

  lemma {:induction false} NeededGrows(candidates: seq<File>, before: int, limit: nat, from: nat)
    requires from <= |candidates|
    ensures from <= Needed(candidates, before, limit, from) <= |candidates|
    decreases |candidates| - from
  {
    if from != |candidates| && before - Total(candidates[..from]) > limit {
      NeededGrows(candidates, before, limit, from + 1);
    }
  }

  function All(files: seq<File>): set<File> {
    set f | f in files
  }

  function Outdated(files: seq<File>, protectedPaths: set<Id>, now: int, ttl: nat): set<File> {
    set f | f in files && Expired(f, protectedPaths, now, ttl)
  }

  lemma OutdatedNext(files: seq<File>, protectedPaths: set<Id>, now: int, ttl: nat, n: nat)
    requires n < |files|
    ensures Outdated(files[..n + 1], protectedPaths, now, ttl)
         == Outdated(files[..n], protectedPaths, now, ttl)
            + (if Expired(files[n], protectedPaths, now, ttl) then {files[n]} else {})
    ensures Fresh(files[..n + 1], protectedPaths, now, ttl)
         == Fresh(files[..n], protectedPaths, now, ttl)
            + (if Expired(files[n], protectedPaths, now, ttl) then [] else [files[n]])
  {
    assert files[..n + 1][..n] == files[..n];
    assert files[..n + 1] == files[..n] + [files[n]];
  }

  lemma EvictOne(candidates: seq<File>, n: nat, disk: set<File>, file: File)
    requires n < |candidates| && candidates[n] == file
    ensures disk - All(candidates[..n + 1]) == disk - All(candidates[..n]) - {file}
    ensures Total(candidates[..n + 1]) == Total(candidates[..n]) + file.size
  {
    assert candidates[..n + 1] == candidates[..n] + [file];
    TotalAppends(candidates[..n], file);
  }

  class Cache {
    var disk: set<File>

    /** The walk: expired unprotected files go, the others are collected. */
    method RemoveExpired(listing: seq<File>, protectedPaths: set<Id>, now: int, ttl: nat)
        returns (files: seq<File>, removed: nat)
      modifies this
      ensures files == Fresh(listing, protectedPaths, now, ttl) && removed == |listing| - |files|
      ensures disk == old(disk) - Outdated(listing, protectedPaths, now, ttl)
    {
      files, removed := [], 0;
      for i := 0 to |listing|
        invariant files == Fresh(listing[..i], protectedPaths, now, ttl) && removed == i - |files|
        invariant disk == old(disk) - Outdated(listing[..i], protectedPaths, now, ttl)
      {
        var file := listing[i];
        OutdatedNext(listing, protectedPaths, now, ttl, i);
        if Expired(file, protectedPaths, now, ttl) {
          disk := disk - {file};
          removed := removed + 1;
        } else {
          files := files + [file];
        }
      }
      assert listing[..|listing|] == listing;
    }

    /** The limit: in the given order, unprotected files go until the total is within it. */
    method RemoveOldest(sorted: seq<File>, protectedPaths: set<Id>, limit: nat, before: int)
        returns (total: int, evicted: nat)
      modifies this
      ensures var candidates := Unprotected(sorted, protectedPaths);
              && evicted == Needed(candidates, before, limit, 0) && evicted <= |candidates|
              && total == before - Total(candidates[..evicted])
              && disk == old(disk) - All(candidates[..evicted])
    {
      ghost var candidates := Unprotected(sorted, protectedPaths);
      total, evicted := before, 0;
      assert candidates[..0] == [];
      for i := 0 to |sorted|
        invariant evicted == |Unprotected(sorted[..i], protectedPaths)| <= |candidates|
        invariant Unprotected(sorted[..i], protectedPaths) <= candidates
        invariant total == before - Total(candidates[..evicted])
        invariant disk == old(disk) - All(candidates[..evicted])
        invariant forall n :: 0 <= n < evicted ==> before - Total(candidates[..n]) > limit
      {
        if total <= limit {
          NeededExactly(candidates, before, limit, evicted, 0);
          return;
        }
        UnprotectedPrefix(sorted, protectedPaths, i + 1);
        UnprotectedNext(sorted, protectedPaths, i);
        var file := sorted[i];
        if file.path !in protectedPaths {
          EvictOne(candidates, evicted, old(disk), file);
          disk := disk - {file};
          total := total - file.size;
          evicted := evicted + 1;
        }
      }
      assert sorted[..|sorted|] == sorted;
      NeededExactly(candidates, before, limit, evicted, 0);
    }

    /**
     `listing` is what the walk of the cache directory finds. Exactly the expired unprotected files and the first
     `evicted` candidates go: each of those while the total still exceeded the limit, and no more than needed.
     */
    method CleanupExpired(listing: seq<File>, protectedPaths: set<Id>, now: int, ttl: nat, limit: nat, scratch: nat)
      returns (removed: nat, ghost evicted: nat)
      requires disk == All(listing)
      modifies this
      ensures removed == |listing| - |Fresh(listing, protectedPaths, now, ttl)| + evicted
      ensures var candidates := Candidates(listing, protectedPaths, now, ttl);
              && evicted <= |candidates|
              && disk == All(listing) - Outdated(listing, protectedPaths, now, ttl) - All(candidates[..evicted])
              && evicted == (if limit == 0 then 0
                             else Needed(candidates, scratch + Total(Fresh(listing, protectedPaths, now, ttl)), limit,
                                         0))
    {
      var files;
      evicted := 0;
      files, removed := RemoveExpired(listing, protectedPaths, now, ttl);
      if limit == 0 {
        assert disk == disk - All(Candidates(listing, protectedPaths, now, ttl)[..0]);
        return;
      }
      var total, count := RemoveOldest(ByAge(files), protectedPaths, limit, scratch + Total(files));
      removed, evicted := removed + count, count;
    }
  }

  ghost predicate Kept(listing: seq<File>, protectedPaths: set<Id>, now: int, ttl: nat, n: nat, f: File)
    requires n <= |Candidates(listing, protectedPaths, now, ttl)|
  {
    f in listing && !Expired(f, protectedPaths, now, ttl) && f !in Candidates(listing, protectedPaths, now, ttl)[..n]
  }

  /** The candidates are exactly the unprotected files still within their time to live, oldest first. */
  lemma CandidatesExactly(listing: seq<File>, protectedPaths: set<Id>, now: int, ttl: nat, f: File)
    ensures OldestFirst(Candidates(listing, protectedPaths, now, ttl))
    ensures f in Candidates(listing, protectedPaths, now, ttl) <==>
      f in listing && f.path !in protectedPaths && !Expired(f, protectedPaths, now, ttl)
  {
    var files := Fresh(listing, protectedPaths, now, ttl);
    ByAgeSorts(files);
    UnprotectedStaysSorted(ByAge(files), protectedPaths);
    UnprotectedExactly(ByAge(files), protectedPaths, f);
    assert f in ByAge(files) <==> f in multiset(ByAge(files));
    FreshExactly(listing, protectedPaths, now, ttl, f);
  }

  /** So a protected file is never removed, none past its time to live is kept unprotected, and a younger file goes
      only after every older one. */
  lemma KeptFiles(listing: seq<File>, protectedPaths: set<Id>, now: int, ttl: nat, n: nat, f: File, g: File)
    requires n <= |Candidates(listing, protectedPaths, now, ttl)| && f in listing && g in listing
    ensures f.path in protectedPaths ==> Kept(listing, protectedPaths, now, ttl, n, f)
    ensures Kept(listing, protectedPaths, now, ttl, n, f) && f.path !in protectedPaths ==> now - f.mtime <= ttl
    ensures
      && Kept(listing, protectedPaths, now, ttl, n, f) && f.path !in protectedPaths
      && g in Candidates(listing, protectedPaths, now, ttl)[..n] ==>
      g.mtime <= f.mtime
  {
    var candidates := Candidates(listing, protectedPaths, now, ttl);
    CandidatesExactly(listing, protectedPaths, now, ttl, f);
    if f in candidates[..n] {
      assert f in candidates;
    }
    if Kept(listing, protectedPaths, now, ttl, n, f) && f.path !in protectedPaths && g in candidates[..n] {
      var i :| 0 <= i < |candidates| && candidates[i] == f;
      var j :| 0 <= j < n && candidates[..n][j] == g;
      assert candidates[j] == g;
      assert i >= n by {
        assert forall k :: 0 <= k < n ==> candidates[..n][k] == candidates[k];
      }
    }
  }
}
