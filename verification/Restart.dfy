/** Starting a server: over an empty data directory, or over what another one left behind when it
    stopped in the middle of things (internal/dumpbox/limits.go:37-77). */
module Restart {
  import opened Sums
  import opened Limits
  import opened Utf8
  import opened Directories
  import opened Protocol
  import opened Safety
  import opened Recovery
  import opened Startup
  import opened Server

  /** The configuration the code has: hash stands for the first 24 hex digits of SHA-256, isWord for
      unicode.IsLetter or unicode.IsNumber. */
  function ConfigFor(hash: Subject -> Key, isWord: Rune -> bool, maxBytes: nat, maxFiles: nat, maxFileBytes: nat,
                     perUser: nat, total: nat): Config {
    Config(maxBytes, maxFiles, maxFileBytes, perUser, total, hash,
           (u: User) => UserDirectory(isWord, u.username, hash(u.subject)), QuotaKeyFromDirectory)
  }

  lemma ConfigIsValid(hash: Subject -> Key, isWord: Rune -> bool, maxBytes: nat, maxFiles: nat, maxFileBytes: nat,
                      perUser: nat, total: nat)
    requires 1 <= perUser <= total && forall subject: Subject :: IsKey(hash(subject))
    ensures ConfigFor(hash, isWord, maxBytes, maxFiles, maxFileBytes, perUser, total).Valid()
  {
    var c := ConfigFor(hash, isWord, maxBytes, maxFiles, maxFileBytes, perUser, total);
    forall u: User
      ensures c.keyOf(c.home(u)) == Some(c.key(u.subject))
    {
      DirectoryRoundTrip(isWord, u.username, hash(u.subject));
    }
  }

  /** A server over the disk a crash left behind, at any point of any run: its ledgers are rebuilt
      from a listing of that disk, and it is again in a state from which everything holds. */
  method Restart(c: Config, maxBytes: int64, maxFiles: int64, perUser: int64, total: int64, ghost crashed: State,
                 disk: Disk,
                 entries: seq<Entry>)
    returns (server: Option<Server>)
    requires c.maxBytes == maxBytes as int && c.maxFiles == maxFiles as int && c.perUser == perUser as int
    requires c.total == total as int
    requires 0 < c.maxFileBytes < MAX64 as int && forall name :: c.keyOf(name) == QuotaKeyFromDirectory(name)
    requires Inv(c, crashed) && disk == Reborn(crashed.disk) && ListingOf(crashed.disk, entries)
    requires forall m, k :: Counted(m, entries, k) <= MAX64 as int
    ensures server.None? <==> exists e :: e in entries && KeyFor(e).Some? && Unreadable in e.walk
    ensures server.Some? ==>
              fresh(server.value) && server.value.Valid() && server.value.c == c && server.value.disk == disk
  {
    var quota := NewStorageQuota(c.key, maxBytes, maxFiles, Listed(entries));
    if quota.None? {
      return None;
    }
    var slots := new UploadSlots(perUser, total);
    ghost var rebuilt := Books(Ints(quota.value.bytes), Ints(quota.value.files), slots.Value());
    RebuiltStarts(c, crashed, entries, rebuilt);
    var s := new Server(c, quota.value, slots, disk);
    server := Some(s);
  }

  lemma {:induction false} RebuiltStarts(c: Config, crashed: State, entries: seq<Entry>, rebuilt: Books)
    requires Inv(c, crashed) && ListingOf(crashed.disk, entries)
    requires forall name :: c.keyOf(name) == QuotaKeyFromDirectory(name)
    requires rebuilt.slots == Slots(map[], 0)
    requires forall k ::
               && Get(rebuilt.bytes, k) == Counted(ByBytes, entries, k)
               && Get(rebuilt.files, k) == Counted(ByFiles, entries, k)
    ensures Starts(c, State(rebuilt, Reborn(crashed.disk), map[]))
  {
    BooksShowUsage(c, crashed.disk, entries, rebuilt);
    RestartStarts(c, crashed, rebuilt);
  }

  lemma {:induction false} BooksShowUsage(c: Config, d: Disk, entries: seq<Entry>, rebuilt: Books)
    requires ListingOf(d, entries) && forall name :: c.keyOf(name) == QuotaKeyFromDirectory(name)
    requires forall k ::
               && Get(rebuilt.bytes, k) == Counted(ByBytes, entries, k)
               && Get(rebuilt.files, k) == Counted(ByFiles, entries, k)
    ensures forall m, k :: Get(Book(rebuilt, m), k) == Usage(c, d, m, k)
  {
    forall m, k
      ensures Get(Book(rebuilt, m), k) == Usage(c, d, m, k)
    {
      RebuildShowsUsage(c, d, entries, m, k);
      match m
      case ByBytes => assert Get(rebuilt.bytes, k) == Counted(ByBytes, entries, k);
      case ByFiles => assert Get(rebuilt.files, k) == Counted(ByFiles, entries, k);
    }
  }
}
