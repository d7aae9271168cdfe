/** The per-identity quota ledgers and the upload slots (internal/dumpbox/limits.go):
    what every mutex-protected operation computes, as functions on values, and the
    two classes whose methods compute it in place on 64-bit counters. */
module Limits {
  import opened Sums

  newtype int64 = x: int | -0x8000_0000_0000_0000 <= x < 0x8000_0000_0000_0000

  const MAX64: int64 := 0x7fff_ffff_ffff_ffff

  type Subject = string
  type Key = string
  type Ledger = map<Key, int>

  /** A missing entry reads as zero. */
  function Get(m: Ledger, k: Key): int {
    if k in m then m[k] else 0
  }

  /** A limit of zero disables the ledger. */
  function Reserve(m: Ledger, limit: int, k: Key, n: int): Option<Ledger> {
    if limit == 0 then Some(m)
    else if n > limit - Get(m, k) then None
    else Some(m[k := Get(m, k) + n])
  }

  function Release(m: Ledger, limit: int, k: Key, n: int): Ledger {
    if limit == 0 then m
    else if Get(m, k) - n <= 0 then m - {k}
    else m[k := Get(m, k) - n]
  }

  /** Releasing what was just reserved gives every identity its old reading back; and a reservation
      succeeds exactly when it fits. */
  lemma ReleaseUndoesReserve(m: Ledger, limit: int, k: Key, n: int, other: Key)
    requires 0 <= n && 0 <= Get(m, k)
    ensures Reserve(m, limit, k, n).Some? ==>
              Get(Release(Reserve(m, limit, k, n).value, limit, k, n), other) == Get(m, other)
    ensures limit > 0 ==> (Reserve(m, limit, k, n).Some? <==> Get(m, k) + n <= limit)
  {
  }

  datatype Slots = Slots(active: map<Subject, int>, inFlight: int)

  function Occupy(u: Slots, perUser: int, total: int, subject: Subject): Option<Slots> {
    if u.inFlight >= total || Get(u.active, subject) >= perUser then None
    else Some(Slots(u.active[subject := Get(u.active, subject) + 1], u.inFlight + 1))
  }

  function Vacate(u: Slots, subject: Subject): Slots {
    Slots(
      if Get(u.active, subject) <= 1 then u.active - {subject}
      else u.active[subject := Get(u.active, subject) - 1],
      if u.inFlight > 0 then u.inFlight - 1 else u.inFlight)
  }

  ghost function Ints(m: map<string, int64>): Ledger {
    map k | k in m :: m[k] as int
  }

  lemma IntsUpdate(m: map<string, int64>, k: string, v: int64)
    ensures Ints(m[k := v]) == Ints(m)[k := v as int]
    ensures Ints(m - {k}) == Ints(m) - {k}
  {
  }

  function Get64(m: map<string, int64>, k: string): int64 {
    if k in m then m[k] else 0
  }

  class StorageQuota {
    const maxBytes: int64
    const maxFiles: int64
    const quotaKey: Subject -> Key
    var bytes: map<Key, int64>
    var files: map<Key, int64>

    /** Counters are never negative; with this no operation below can overflow. */
    ghost predicate Valid()
      reads this
    {
      && 0 <= maxBytes && 0 <= maxFiles
      && (forall k :: k in bytes ==> 0 <= bytes[k])
      && (forall k :: k in files ==> 0 <= files[k])
    }

    constructor (quotaKey: Subject -> Key, maxBytes: int64, maxFiles: int64)
      requires 0 <= maxBytes && 0 <= maxFiles
      ensures Valid()
      ensures this.quotaKey == quotaKey && this.maxBytes == maxBytes && this.maxFiles == maxFiles
      ensures bytes == map[] && files == map[]
    {
      this.quotaKey, this.maxBytes, this.maxFiles := quotaKey, maxBytes, maxFiles;
      bytes, files := map[], map[];
    }

    /** The subtraction form of the check: neither it nor the addition leaves int64, even when
        the usage found at startup is already above the limit. */
    method ReserveBytes(subject: Subject, n: int64) returns (ok: bool)
      requires Valid() && 0 <= n
      modifies this`bytes
      ensures Valid()
      ensures ok == Reserve(old(Ints(bytes)), maxBytes as int, quotaKey(subject), n as int).Some?
      ensures Ints(bytes) == if ok
                             then Reserve(old(Ints(bytes)), maxBytes as int, quotaKey(subject), n as int).value
                             else old(Ints(bytes))
    {
      if maxBytes == 0 { return true; }
      var key := quotaKey(subject);
      if n > maxBytes - Get64(bytes, key) { return false; }
      IntsUpdate(bytes, key, Get64(bytes, key) + n);
      bytes := bytes[key := Get64(bytes, key) + n];
      return true;
    }

    method ReleaseBytes(subject: Subject, n: int64)
      requires Valid() && 0 <= n
      modifies this`bytes
      ensures Valid()
      ensures Ints(bytes) == Release(old(Ints(bytes)), maxBytes as int, quotaKey(subject), n as int)
    {
      if maxBytes == 0 { return; }
      var key := quotaKey(subject);
      var rest := Get64(bytes, key) - n;
      IntsUpdate(bytes, key, rest);
      if rest <= 0 {
        bytes := bytes - {key};
      } else {
        bytes := bytes[key := rest];
      }
    }

    method ReserveFile(subject: Subject) returns (ok: bool)
      requires Valid()
      modifies this`files
      ensures Valid()
      ensures ok == Reserve(old(Ints(files)), maxFiles as int, quotaKey(subject), 1).Some?
      ensures Ints(files) == if ok
                             then Reserve(old(Ints(files)), maxFiles as int, quotaKey(subject), 1).value
                             else old(Ints(files))
    {
      if maxFiles == 0 { return true; }
      var key := quotaKey(subject);
      if Get64(files, key) >= maxFiles { return false; }
      IntsUpdate(files, key, Get64(files, key) + 1);
      files := files[key := Get64(files, key) + 1];
      return true;
    }

    method ReleaseFile(subject: Subject)
      requires Valid()
      modifies this`files
      ensures Valid()
      ensures Ints(files) == Release(old(Ints(files)), maxFiles as int, quotaKey(subject), 1)
    {
      if maxFiles == 0 { return; }
      var key := quotaKey(subject);
      var rest := Get64(files, key) - 1;
      IntsUpdate(files, key, rest);
      if rest <= 0 {
        files := files - {key};
      } else {
        files := files[key := rest];
      }
    }
  }

  class UploadSlots {
    const perUser: int64
    const total: int64
    var active: map<Subject, int64>
    var inFlight: int64

    ghost predicate Valid()
      reads this
    {
      && 0 <= inFlight <= total && 1 <= perUser <= total
      && (forall subject :: subject in active ==> 1 <= active[subject] <= perUser)
    }

    ghost function Value(): Slots
      reads this
    {
      Slots(Ints(active), inFlight as int)
    }

    constructor (perUser: int64, total: int64)
      requires 1 <= perUser <= total
      ensures Valid() && Value() == Slots(map[], 0)
      ensures this.perUser == perUser && this.total == total
    {
      this.perUser, this.total := perUser, total;
      active, inFlight := map[], 0;
    }

    method Acquire(subject: Subject) returns (ok: bool)
      requires Valid()
      modifies this
      ensures Valid()
      ensures ok <==> old(inFlight) < total && (subject !in old(active) || old(active)[subject] < perUser)
      ensures ok == Occupy(old(Value()), perUser as int, total as int, subject).Some?
      ensures Value() == if ok
                         then Occupy(old(Value()), perUser as int, total as int, subject).value
                         else old(Value())
    {
      if inFlight >= total || Get64(active, subject) >= perUser { return false; }
      inFlight := inFlight + 1;
      IntsUpdate(active, subject, Get64(active, subject) + 1);
      active := active[subject := Get64(active, subject) + 1];
      return true;
    }

    method Release(subject: Subject)
      requires Valid()
      modifies this
      ensures Valid()
      ensures Value() == Vacate(old(Value()), subject)
    {
      IntsUpdate(active, subject, 0);
      if Get64(active, subject) <= 1 {
        active := active - {subject};
      } else {
        IntsUpdate(active, subject, Get64(active, subject) - 1);
        active := active[subject := Get64(active, subject) - 1];
      }
      if inFlight > 0 {
        inFlight := inFlight - 1;
      }
    }
  }
}
