/** Rebuilding the ledgers when the server starts (internal/dumpbox/limits.go:37-77). */
module Startup {
  import opened Sums
  import opened Limits
  import opened Directories
  import opened Protocol

  /** What the walk over one directory reports, in order. */
  datatype WalkItem = SubDirectory | Special | Regular(path: Path, size: nat) | Unreadable

  datatype Entry = Entry(name: Name, isDir: bool, walk: seq<WalkItem>)

  datatype DataDir = Missing | NoAccess | Listed(entries: seq<Entry>)

  function KeyFor(e: Entry): Option<Key> { if e.isDir then QuotaKeyFromDirectory(e.name) else None }

  function Weight(m: Measure, item: WalkItem): nat {
    if item.Regular? then Weigh(m, item.size) else 0
  }

  function WalkTotal(m: Measure, walk: seq<WalkItem>): nat {
    if walk == [] then 0 else WalkTotal(m, walk[..|walk| - 1]) + Weight(m, walk[|walk| - 1])
  }

  /** What belongs to one identity. */
  function Counted(m: Measure, entries: seq<Entry>, k: Key): nat {
    if entries == [] then 0
    else
      var last := entries[|entries| - 1];
      Counted(m, entries[..|entries| - 1], k) + if KeyFor(last) == Some(k) then WalkTotal(m, last.walk) else 0
  }

  lemma {:induction false} WalkTotalMore(m: Measure, walk: seq<WalkItem>, n: nat)
    requires n < |walk|
    ensures WalkTotal(m, walk[..n + 1]) == WalkTotal(m, walk[..n]) + Weight(m, walk[n])
  {
    assert walk[..n + 1][..n] == walk[..n];
  }

  lemma {:induction false} WalkTotalGrows(m: Measure, walk: seq<WalkItem>, n: nat)
    requires n <= |walk|
    ensures WalkTotal(m, walk[..n]) <= WalkTotal(m, walk)
    decreases |walk| - n
  {
    if n < |walk| {
      WalkTotalMore(m, walk, n);
      WalkTotalGrows(m, walk, n + 1);
    } else {
      assert walk[..n] == walk;
    }
  }

  lemma {:induction false} CountedMore(m: Measure, entries: seq<Entry>, n: nat, k: Key)
    requires n < |entries|
    ensures Counted(m, entries[..n + 1], k)
            == Counted(m, entries[..n], k) + if KeyFor(entries[n]) == Some(k) then WalkTotal(m, entries[n].walk) else 0
  {
    assert entries[..n + 1][..n] == entries[..n];
  }

  lemma {:induction false} CountedGrows(m: Measure, entries: seq<Entry>, n: nat, k: Key)
    requires n <= |entries|
    ensures Counted(m, entries[..n], k) <= Counted(m, entries, k)
    decreases |entries| - n
  {
    if n < |entries| {
      CountedMore(m, entries, n, k);
      CountedGrows(m, entries, n + 1, k);
    } else {
      assert entries[..n] == entries;
    }
  }

  ghost predicate Shows(quota: StorageQuota, entries: seq<Entry>)
    reads quota
  {
    forall k :: Get(Ints(quota.bytes), k) == Counted(ByBytes, entries, k)
                && Get(Ints(quota.files), k) == Counted(ByFiles, entries, k)
  }

  /** One regular file. */
  method CountFile(quota: StorageQuota, key: Key, size: nat)
    requires quota.Valid() && Get(Ints(quota.bytes), key) + size <= MAX64 as int
    requires Get(Ints(quota.files), key) + 1 <= MAX64 as int
    modifies quota
    ensures quota.Valid()
    ensures Ints(quota.bytes) == old(Ints(quota.bytes))[key := old(Get(Ints(quota.bytes), key)) + size]
    ensures Ints(quota.files) == old(Ints(quota.files))[key := old(Get(Ints(quota.files), key)) + 1]
  {
    var bytes, files := Get64(quota.bytes, key) + size as int64, Get64(quota.files, key) + 1;
    IntsUpdate(quota.bytes, key, bytes);
    IntsUpdate(quota.files, key, files);
    quota.bytes := quota.bytes[key := bytes];
    quota.files := quota.files[key := files];
  }

  /** The callback of filepath.WalkDir over one user directory. */
  method Walk(quota: StorageQuota, key: Key, walk: seq<WalkItem>) returns (ok: bool)
    requires quota.Valid()
    requires Get(Ints(quota.bytes), key) + WalkTotal(ByBytes, walk) <= MAX64 as int
    requires Get(Ints(quota.files), key) + WalkTotal(ByFiles, walk) <= MAX64 as int
    modifies quota
    ensures quota.Valid() && (ok <==> Unreadable !in walk)
    ensures ok ==> forall k ::
              && Get(Ints(quota.bytes), k)
                 == old(Get(Ints(quota.bytes), k)) + (if k == key then WalkTotal(ByBytes, walk) else 0)
              && Get(Ints(quota.files), k)
                 == old(Get(Ints(quota.files), k)) + (if k == key then WalkTotal(ByFiles, walk) else 0)
  {
    var n := 0;
    while n < |walk|
      invariant 0 <= n <= |walk| && quota.Valid() && Unreadable !in walk[..n]
      invariant forall k ::
        && Get(Ints(quota.bytes), k)
           == old(Get(Ints(quota.bytes), k)) + (if k == key then WalkTotal(ByBytes, walk[..n]) else 0)
        && Get(Ints(quota.files), k)
           == old(Get(Ints(quota.files), k)) + (if k == key then WalkTotal(ByFiles, walk[..n]) else 0)
    {
      if walk[n].Unreadable? {
        return false;
      }
      WalkTotalMore(ByBytes, walk, n);
      WalkTotalMore(ByFiles, walk, n);
      WalkTotalGrows(ByBytes, walk, n + 1);
      WalkTotalGrows(ByFiles, walk, n + 1);
      if walk[n].Regular? {
        CountFile(quota, key, walk[n].size);
      }
      n := n + 1;
    }
    assert walk[..n] == walk;
    ok := true;
  }

  /** Entries that are no directories, or carry no key, are skipped. */
  method CountEntry(quota: StorageQuota, e: Entry, ghost entries: seq<Entry>, ghost n: nat) returns (ok: bool)
    requires quota.Valid() && n < |entries| && e == entries[n] && Shows(quota, entries[..n])
    requires forall k :: Counted(ByBytes, entries, k) <= MAX64 as int && Counted(ByFiles, entries, k) <= MAX64 as int
    modifies quota
    ensures quota.Valid() && (ok <==> !(KeyFor(e).Some? && Unreadable in e.walk))
    ensures ok ==> Shows(quota, entries[..n + 1])
  {
    var key := QuotaKeyFromDirectory(e.name);
    forall m, k
      ensures Counted(m, entries[..n + 1], k)
              == Counted(m, entries[..n], k) + if KeyFor(e) == Some(k) then WalkTotal(m, e.walk) else 0
    {
      CountedMore(m, entries, n, k);
    }
    if key.None? || !e.isDir {
      return true;
    }
    CountedGrows(ByBytes, entries, n + 1, key.value);
    CountedGrows(ByFiles, entries, n + 1, key.value);
    ok := Walk(quota, key.value, e.walk);
  }

  /** newStorageQuota: the ledgers show exactly the regular files below directories that carry a key;
      it fails when something that must be read cannot be. */
  method NewStorageQuota(quotaKey: Subject -> Key, maxBytes: int64, maxFiles: int64,
                         data: DataDir) returns (result: Option<StorageQuota>)
    requires 0 <= maxBytes && 0 <= maxFiles
    requires data.Listed? ==>
               forall k ::
                 && Counted(ByBytes, data.entries, k) <= MAX64 as int
                 && Counted(ByFiles, data.entries, k) <= MAX64 as int
    ensures result.None? <==>
              || data.NoAccess?
              || (data.Listed? && exists e :: e in data.entries && KeyFor(e).Some? && Unreadable in e.walk)
    ensures result.Some? ==>
              var quota := result.value;
              && fresh(quota) && quota.Valid() && quota.maxBytes == maxBytes && quota.maxFiles == maxFiles
              && quota.quotaKey == quotaKey
              && Shows(quota, if data.Listed? then data.entries else [])
  {
    var quota := new StorageQuota(quotaKey, maxBytes, maxFiles);
    if data.Missing? {
      return Some(quota);
    }
    if data.NoAccess? {
      return None;
    }
    var entries := data.entries;
    var n := 0;
    while n < |entries|
      invariant 0 <= n <= |entries| && fresh(quota) && quota.Valid()
      invariant forall e :: e in entries[..n] && KeyFor(e).Some? ==> Unreadable !in e.walk
      invariant Shows(quota, entries[..n])
    {
      assert entries[..n + 1] == entries[..n] + [entries[n]];
      var ok := CountEntry(quota, entries[n], entries, n);
      if !ok {
        return None;
      }
      n := n + 1;
    }
    assert entries[..n] == entries;
    result := Some(quota);
  }

  // ---- what is listed is what is on disk ------------------------------------------------------

  function PathSet(walk: seq<WalkItem>): set<Path> {
    if walk == [] then {}
    else PathSet(walk[..|walk| - 1]) + if walk[|walk| - 1].Regular? then {walk[|walk| - 1].path} else {}
  }

  function PathsOf(entries: seq<Entry>): set<Path> {
    if entries == [] then {}
    else
      var last := entries[|entries| - 1];
      PathsOf(entries[..|entries| - 1]) + if last.isDir then PathSet(last.walk) else {}
  }

  /** The walk reports every file of the directory once, with its size. */
  ghost predicate WalkOf(d: Disk, name: Name, walk: seq<WalkItem>) {
    && (forall i :: 0 <= i < |walk| && walk[i].Regular? ==>
          && |walk[i].path| >= 2 && walk[i].path[0] == name && walk[i].path in d.names
          && d.names[walk[i].path] in d.inodes
          && walk[i].size == |d.inodes[d.names[walk[i].path]].data|)
    && (forall i, j :: 0 <= i < j < |walk| && walk[i].Regular? && walk[j].Regular? ==> walk[i].path != walk[j].path)
  }

  /** The listing shows the disk: every top-level name once, every file below the directories. */
  ghost predicate ListingOf(d: Disk, entries: seq<Entry>) {
    && (forall i, j :: 0 <= i < j < |entries| ==> entries[i].name != entries[j].name)
    && (forall i :: 0 <= i < |entries| ==> WalkOf(d, entries[i].name, entries[i].walk))
    && (forall p :: p in d.names && |p| >= 2 ==> p in PathsOf(entries))
  }

  lemma {:induction false} WalkPaths(d: Disk, name: Name, walk: seq<WalkItem>)
    requires WalkOf(d, name, walk)
    ensures forall p :: p in PathSet(walk) ==> |p| >= 2 && p[0] == name && p in d.names
    ensures forall p :: p in PathSet(walk) ==> exists i :: 0 <= i < |walk| && walk[i].Regular? && walk[i].path == p
    decreases |walk|
  {
    if walk != [] {
      WalkPaths(d, name, walk[..|walk| - 1]);
    }
  }

  lemma {:induction false} WalkSum(c: Config, d: Disk, m: Measure, k: Key, name: Name, walk: seq<WalkItem>)
    requires WalkOf(d, name, walk)
    ensures Sum(PathSet(walk), NameWeight(c, d, m, k)) == if c.keyOf(name) == Some(k) then WalkTotal(m, walk) else 0
    decreases |walk|
  {
    if walk != [] {
      var (before, last) := (walk[..|walk| - 1], walk[|walk| - 1]);
      WalkSum(c, d, m, k, name, before);
      WalkPaths(d, name, before);
      if last.Regular? {
        assert last.path !in PathSet(before);
        SumInsert(PathSet(before), last.path, NameWeight(c, d, m, k), NameWeight(c, d, m, k));
      } else {
        assert PathSet(walk) == PathSet(before);
      }
    }
  }

  lemma {:induction false} EntriesSum(c: Config, d: Disk, m: Measure, k: Key, entries: seq<Entry>)
    requires forall name :: c.keyOf(name) == QuotaKeyFromDirectory(name)
    requires forall i, j :: 0 <= i < j < |entries| ==> entries[i].name != entries[j].name
    requires forall i :: 0 <= i < |entries| ==> WalkOf(d, entries[i].name, entries[i].walk)
    ensures Sum(PathsOf(entries), NameWeight(c, d, m, k)) == Counted(m, entries, k)
    ensures forall p :: p in PathsOf(entries) ==>
              p in d.names && exists i :: 0 <= i < |entries| && p != [] && p[0] == entries[i].name
    decreases |entries|
  {
    if entries != [] {
      var (before, last) := (entries[..|entries| - 1], entries[|entries| - 1]);
      EntriesSum(c, d, m, k, before);
      WalkSum(c, d, m, k, last.name, last.walk);
      WalkPaths(d, last.name, last.walk);
      if last.isDir {
        SumUnion(PathsOf(before), PathSet(last.walk), NameWeight(c, d, m, k));
      } else {
        assert PathsOf(entries) == PathsOf(before);
      }
    }
  }

  /** Rebuilding from a true listing of a disk gives the usage of that disk: the ledgers are ready
      for every theorem about what follows. */
  lemma {:induction false} RebuildShowsUsage(c: Config, d: Disk, entries: seq<Entry>, m: Measure, k: Key)
    requires forall name :: c.keyOf(name) == QuotaKeyFromDirectory(name)
    requires ListingOf(d, entries)
    ensures Counted(m, entries, k) == Usage(c, d, m, k)
  {
    EntriesSum(c, d, m, k, entries);
    SumSupport(d.names.Keys, PathsOf(entries), NameWeight(c, d, m, k));
  }
}
