/** The upload code itself, run by one request while any number of others run: between any two of
    its atomic operations the others may take any steps (internal/dumpbox/server.go:271-545). */
module Server {
  import opened Sums
  import opened Limits
  import opened Naming
  import opened Candidates
  import opened Protocol
  import opened DiskInvariant
  import opened Runs
  import opened Causes

  /** How the stream of a part ends. */
  datatype End = Eof | Broken | RequestTooLarge | Panics

  datatype Part = Part(form: string, filename: string, body: Bytes, end: End)

  datatype Failure = InvalidName | TooLarge | QuotaExceeded | TooManyNames | IoError | ReadError | Panicked

  datatype Stored = Stored(name: Name, written: nat) | Failed(why: Failure)

  const CHUNK := 256 * 1024

  /** maxFileBytes+1 in 64 bits: the number of bytes the limited reader lets through. */
  function ReadLimit(maxFileBytes: int64): int64 {
    if maxFileBytes == MAX64 then -0x8000_0000_0000_0000 else maxFileBytes + 1
  }

  /** What a reader limited to n bytes yields; nothing for a limit that is not positive. */
  function Limited(n: int64, part: Bytes): Bytes {
    if n <= 0 then [] else if |part| <= n as int then part else part[..n as int]
  }

  /** The limit works, in that every part of at most that many bytes gets through whole and every
      longer one is seen to be longer, exactly when adding one to it does not overflow. */
  lemma LimitIsExact(maxFileBytes: int64)
    requires 0 < maxFileBytes
    ensures maxFileBytes < MAX64 <==>
              forall part: Bytes :: |part| <= maxFileBytes as int ==> Limited(ReadLimit(maxFileBytes), part) == part
    ensures maxFileBytes < MAX64 ==>
              forall part: Bytes :: |Limited(ReadLimit(maxFileBytes), part)| > maxFileBytes as int
                <==> |part| > maxFileBytes as int
  {
    if maxFileBytes == MAX64 {
      assert Limited(ReadLimit(maxFileBytes), "x") != "x";
    }
  }

  function AfterWrite(n: nat, written: nat, fine: bool): Stage
    requires written <= n
  {
    if written < n then Refund(n - written) else if fine then Writing else Failing
  }

  lemma MovedOn(wk: Worker, wk': Worker, wk'': Worker, reserved: nat, stage: Stage, stage': Stage)
    requires wk.phase.Busy? && wk' == wk.(phase := Busy(wk.phase.t.(reserved := reserved), stage))
    requires wk'' == wk'.(phase := Busy(wk'.phase.t, stage'))
    ensures wk'' == wk.(phase := Busy(wk.phase.t.(reserved := reserved), stage'))
  {
  }

  /** The bytes a part asks its identity's quota for: all of them, or one more than a file may have. */
  function Demand(c: Config, body: Bytes): nat {
    if |body| <= c.maxFileBytes then |body| else c.maxFileBytes + 1
  }

  /** What a failure of storePart tells about the part, or about what happened meanwhile. */
  ghost predicate Because(c: Config, h: Span, w: Id, part: Part, why: Failure) {
    match why
    case InvalidName => SafeFilename(part.filename) == ""
    case QuotaExceeded => Refused(c, h, w, ByFiles, 1) || Refused(c, h, w, ByBytes, Demand(c, part.body))
    case IoError => IoFailed(h, w)
    case TooLarge => Read(c, h, w, part) && (|part.body| > c.maxFileBytes || part.end.RequestTooLarge?)
    case TooManyNames => Read(c, h, w, part) && |part.body| <= c.maxFileBytes && part.end.Eof?
    case ReadError => Read(c, h, w, part) && |part.body| <= c.maxFileBytes && part.end.Broken?
    case Panicked => Read(c, h, w, part) && |part.body| <= c.maxFileBytes && part.end.Panics?
  }

  /** The part was charged for as far as it is read. */
  ghost predicate Read(c: Config, h: Span, w: Id, part: Part) { Fitted(c, h, w, ByBytes, Demand(c, part.body)) }

  lemma BecauseWithin(c: Config, g: Span, h: Span, w: Id, part: Part, why: Failure)
    requires Within(g, h) && Because(c, g, w, part, why)
    ensures Because(c, h, w, part, why)
  {
    match why
    case InvalidName =>
    case QuotaExceeded =>
      if Refused(c, g, w, ByFiles, 1) {
        RefusedWithin(c, g, h, w, ByFiles, 1);
      } else {
        RefusedWithin(c, g, h, w, ByBytes, Demand(c, part.body));
      }
    case IoError => IoFailedWithin(g, h, w);
    case _ => FittedWithin(c, g, h, w, ByBytes, Demand(c, part.body));
  }

  /** The candidates publishFile tried in vain: each could not be had when it was tried. */
  ghost predicate TriedFiles(c: Config, h: Span, dir: Path, name: Name, n: nat) {
    forall j: nat :: j < n ==> Seen(c, h, dir + [FileCandidate(name, j)])
  }

  lemma TriedFilesWithin(c: Config, g: Span, h: Span, dir: Path, name: Name, n: nat)
    requires TriedFiles(c, g, dir, name, n) && Within(g, h)
    ensures TriedFiles(c, h, dir, name, n)
  {
    forall j: nat | j < n
      ensures Seen(c, h, dir + [FileCandidate(name, j)])
    {
      SeenWithin(c, g, h, dir + [FileCandidate(name, j)]);
    }
  }

  /** Names that can not be given to anybody any more. */
  ghost predicate TakenFiles(d: Disk, dir: Path, name: Name, n: nat) {
    forall j: nat :: j < n ==> Taken(d, dir + [FileCandidate(name, j)])
  }

  lemma TakenFilesStay(d: Disk, d': Disk, dir: Path, name: Name, n: nat)
    requires TakenFiles(d, dir, name, n) && Keeps(d, d')
    ensures TakenFiles(d', dir, name, n)
  {
    forall j: nat | j < n
      ensures Taken(d', dir + [FileCandidate(name, j)])
    {
      TakenStays(d, d', dir + [FileCandidate(name, j)]);
    }
  }

  lemma {:induction false} TriedAreTaken(c: Config, h: Span, s: State, dir: Path, name: Name, n: nat)
    requires Starts(c, h.start) && Exec(c, h.start, h.to) == Some(s) && TriedFiles(c, h, dir, name, n)
    ensures TakenFiles(s.disk, dir, name, n)
  {
    forall j: nat | j < n
      ensures Taken(s.disk, dir + [FileCandidate(name, j)])
    {
      SeenIsTaken(c, h, dir + [FileCandidate(name, j)]);
    }
  }

  function AfterLink(name: Name, linked: bool, failed: bool): Stage {
    if linked then Linked(name) else if failed then Failing else Publishing
  }

  lemma WriteStep(d: Disk, w: Id, t: Temp, chunk: nat, n: nat, fine: bool, d': Disk)
    requires n <= chunk && t.reserved + n <= |t.part|
    requires d' == d.(inodes := d.inodes[t.ino := Inode(t.part[..t.reserved + n], t.at)])
    ensures BusyDiskStep(d, w, t, Charged(chunk), Event.Write(n, fine))
            == Some((d', Busy(t.(reserved := t.reserved + n), AfterWrite(chunk, n, fine))))
  {
  }

  lemma RemoveStep(d: Disk, w: Id, t: Temp, stage: Stage, d': Disk)
    requires stage.Linked? || stage == Uncharged
    requires d' == d.(names := d.names - {t.at}, temps := d.temps - {t.at},
                      inodes := if stage.Linked? then d.inodes else d.inodes - {t.ino})
    ensures BusyDiskStep(d, w, t, stage, Event.RemoveTemp)
            == Some((d', if stage.Linked? then Ready else Cleared(t.dir)))
  {
  }

  lemma LinkStep(d: Disk, w: Id, t: Temp, name: Name, d': Disk)
    requires Plain(name) && !d.Exists(t.dir + [name])
    requires d' == d.(names := d.names[t.dir + [name] := t.ino],
                      settled := d.settled[t.dir + [name] := Settled(t.ino, t.part, Some(w))])
    ensures BusyDiskStep(d, w, t, Publishing, Event.Link(name)) == Some((d', Busy(t, Linked(name))))
  {
  }

  function AfterCharge(n: nat, ok: bool): Stage { if ok then Charged(n) else Failing }

  lemma {:induction false} Appended(c: Config, start: State, run: seq<Act>, s: State, w: Id, e: Event, t: State)
    requires Exec(c, start, run) == Some(s) && Apply(c, s, w, e) == Some(t)
    ensures Exec(c, start, run + [Act(w, e)]) == Some(t)
  {
    assert (run + [Act(w, e)])[..|run|] == run;
  }

  /** A failed call on the temporary file leaves the worker unwinding, and nothing else changed. */
  lemma CallFailsStep(c: Config, s: State, w: Id, call: Call)
    requires w in s.workers && s.workers[w].phase.Busy?
    requires if call.Chmod? then s.workers[w].phase.stage == Writing && s.workers[w].phase.t.reserved == 0
             else s.workers[w].phase.stage == Publishing
    ensures Apply(c, s, w, CallFails(call))
            == Some(s.(workers := s.workers[w := s.workers[w].(phase := Busy(s.workers[w].phase.t, Failing))]))
  {
  }

  /** A charge: to the ledger if it fits, and else the worker is left unwinding. */
  lemma ChargeStep(c: Config, s: State, w: Id, n: nat)
    requires w in s.workers && s.workers[w].phase.Busy? && s.workers[w].phase.stage == Writing && n > 0
    requires var t := s.workers[w].phase.t; t.reserved + n <= |t.part| && t.reserved + n <= c.maxFileBytes + 1
    ensures var (wk, charged) := (s.workers[w], Reserve(s.books.bytes, c.maxBytes, Protocol.Key(c, s.workers[w]), n));
            Apply(c, s, w, Event.Charge(n))
            == Some(State(if charged.Some? then s.books.(bytes := charged.value) else s.books, s.disk,
                          s.workers[w := wk.(phase := Busy(wk.phase.t, AfterCharge(n, charged.Some?)))]))
  {
  }

  lemma {:induction false} LinkPublishes(c: Config, start: State, trace: seq<Act>, s: State, w: Id, t: Temp,
                                         name: Name, d': Disk)
    requires Starts(c, start) && Exec(c, start, trace) == Some(s)
    requires w in s.workers && s.workers[w].phase == Busy(t, Publishing) && !s.disk.Exists(t.dir + [name])
    requires d'.settled == s.disk.settled[t.dir + [name] := Settled(t.ino, t.part, Some(w))] && d'.dirs == s.disk.dirs
    ensures Published(c, s.disk, d', s.workers[w], w, t.dir + [name], t.part)
  {
    KnownSound(c, start, trace, s, w);
    NewlySettled(c, s.disk, d', w, s.workers[w], t, name);
  }

  lemma {:induction false} KnownSound(c: Config, start: State, trace: seq<Act>, s: State, w: Id)
    requires Starts(c, start) && Exec(c, start, trace) == Some(s) && w in s.workers
    ensures TablesSound(s.disk) && WorkerSound(c, s.workers[w])
  {
    Reached(c, start, trace, s);
  }

  /** A charge that is taken leaves the identity within its limit; one that is refused would not have. */
  lemma ChargeTells(c: Config, s: State, w: Id, n: nat, s': State)
    requires w in s.workers && s.workers[w].phase.Busy? && s.workers[w].phase.stage == Writing && c.maxFileBytes > 0
    requires Apply(c, s, w, Event.Charge(n)) == Some(s')
    ensures w in s'.workers && s'.workers[w].phase.Busy?
    ensures s'.workers[w].phase.stage == Charged(n) && c.maxBytes > 0 ==>
              FitsNow(c, s', w, ByBytes, s.workers[w].phase.t.reserved + n)
    ensures s'.workers[w].phase.stage == Failing ==> FullFor(c, s, w, ByBytes, Demand(c, s.workers[w].phase.t.part))
  {
  }

  lemma {:induction false} ChargeTold(c: Config, h: Span, run: seq<Act>, s: State, w: Id, n: nat, s': State)
    requires w in s.workers && s.workers[w].phase.Busy? && s.workers[w].phase.stage == Writing && c.maxFileBytes > 0
    requires Apply(c, s, w, Event.Charge(n)) == Some(s')
    requires h.from <= run <= h.to && Exec(c, h.start, run) == Some(s) && Exec(c, h.start, h.to) == Some(s')
    ensures w in s'.workers && s'.workers[w].phase.Busy?
    ensures s'.workers[w].phase.stage == Charged(n) ==> Fitted(c, h, w, ByBytes, s.workers[w].phase.t.reserved + n)
    ensures s'.workers[w].phase.stage == Failing ==> Refused(c, h, w, ByBytes, Demand(c, s.workers[w].phase.t.part))
  {
    ChargeTells(c, s, w, n, s');
    if s'.workers[w].phase.stage == Charged(n) {
      FittedHere(c, h, h.to, s', w, ByBytes, s.workers[w].phase.t.reserved + n);
    } else if s'.workers[w].phase.stage == Failing {
      RefusedHere(c, h, run, s, w, ByBytes, Demand(c, s.workers[w].phase.t.part));
    }
  }

  class Server {
    const c: Config
    const quota: StorageQuota
    const slots: UploadSlots
    var disk: Disk
    ghost var workers: map<Id, Worker>
    ghost const start: State
    ghost var trace: seq<Act>

    ghost function Now(): State
      reads this, quota, slots
    {
      State(Books(Ints(quota.bytes), Ints(quota.files), slots.Value()), disk, workers)
    }

    /** What has happened since. */
    ghost function Since(from: seq<Act>): Span
      reads this
    {
      Span(start, from, trace)
    }

    /** The objects hold what the trace of all steps so far has made of the state at startup. */
    ghost predicate Valid()
      reads this, quota, slots
    {
      && quota.Valid() && slots.Valid()
      && quota.maxBytes as int == c.maxBytes && quota.maxFiles as int == c.maxFiles && quota.quotaKey == c.key
      && slots.perUser as int == c.perUser && slots.total as int == c.total
      && 0 < c.maxFileBytes < MAX64 as int
      && Starts(c, start) && Exec(c, start, trace) == Some(Now())
    }

    /** A server over what it finds on disk, with the ledgers the startup walk counted. */
    constructor (c: Config, quota: StorageQuota, slots: UploadSlots, disk: Disk)
      requires quota.Valid() && slots.Valid()
      requires quota.maxBytes as int == c.maxBytes && quota.maxFiles as int == c.maxFiles && quota.quotaKey == c.key
      requires slots.perUser as int == c.perUser && slots.total as int == c.total
      requires 0 < c.maxFileBytes < MAX64 as int
      requires Starts(c, State(Books(Ints(quota.bytes), Ints(quota.files), slots.Value()), disk, map[]))
      ensures Valid() && workers == map[] && this.disk == disk && this.c == c
      ensures this.quota == quota && this.slots == slots
    {
      this.c, this.quota, this.slots, this.disk := c, quota, slots, disk;
      workers, trace := map[], [];
      start := State(Books(Ints(quota.bytes), Ints(quota.files), slots.Value()), disk, map[]);
    }

    /** Any number of steps of other requests. The body takes none, but a caller knows the contract
        only, so whatever is proved with it holds for all the steps the others may take. */
    method Others(w: Id)
      requires Valid() && w in workers
      modifies this, quota, slots
      ensures Valid() && Interleaved(old(trace), trace, w)
    {
    }

    /** The atomic operation just performed on the real objects is a step of the protocol. */
    ghost method Took(w: Id, e: Event, before: State)
      requires Exec(c, start, trace) == Some(before) && Starts(c, start)
      requires Apply(c, before, w, e).Some?
      requires Apply(c, before, w, e).value.books == Now().books && Apply(c, before, w, e).value.disk == disk
      modifies this`workers, this`trace
      ensures trace == old(trace) + [Act(w, e)] && Exec(c, start, trace) == Some(Now())
      ensures workers == Apply(c, before, w, e).value.workers
    {
      ghost var after := Apply(c, before, w, e).value;
      Appended(c, start, trace, before, w, e, after);
      workers, trace := after.workers, trace + [Act(w, e)];
    }

    /** The same for a file system call of a worker with a temporary file. */
    ghost method TookOnDisk(w: Id, e: Event, before: State, phase: Phase)
      requires Exec(c, start, trace) == Some(before) && Starts(c, start) && before.books == Now().books
      requires w in before.workers && before.workers[w].phase.Busy? && !e.Begin? && !OnBooks(e)
      requires BusyDiskStep(before.disk, w, before.workers[w].phase.t, before.workers[w].phase.stage, e)
               == Some((disk, phase))
      modifies this`workers, this`trace
      ensures trace == old(trace) + [Act(w, e)] && Exec(c, start, trace) == Some(Now())
      ensures workers == before.workers[w := before.workers[w].(phase := phase)]
    {
      Took(w, e, before);
    }

    /** The same for a call that makes a directory. */
    ghost method TookInDirs(w: Id, e: Event, before: State, wk: Worker)
      requires Exec(c, start, trace) == Some(before) && Starts(c, start) && before.books == Now().books
      requires w in before.workers && before.workers[w].phase.Ready? && !e.Begin? && !OnBooks(e)
      requires DirStep(c, before.disk, w, before.workers[w], e) == Some((disk, wk))
      modifies this`workers, this`trace
      ensures trace == old(trace) + [Act(w, e)] && Exec(c, start, trace) == Some(Now())
      ensures workers == before.workers[w := wk]
    {
      Took(w, e, before);
    }

    /** The others run; w's record, its folder and the names in use stand. */
    method Pause(w: Id) returns (ghost before: State)
      requires Valid() && w in workers
      modifies this, quota, slots
      ensures Valid() && before == Now() && old(trace) <= trace
      ensures w in workers && workers[w] == old(workers[w])
      ensures Undisturbed(c, old(disk), disk, workers[w], w)
    {
      Others(w);
      Meanwhile(c, start, old(trace), old(Now()), trace, Now(), w);
      before := Now();
    }

    // ---- the ledgers --------------------------------------------------------------------------

    method ReserveFile(w: Id, subject: Subject, dir: Path) returns (ok: bool)
      requires Valid() && w in workers && workers[w].phase == Ready && workers[w].user.subject == subject
      requires InDir(c, workers[w], dir)
      modifies this, quota, slots
      ensures Valid() && old(trace) <= trace && w in workers && Undisturbed(c, old(disk), disk, old(workers[w]), w)
      ensures workers[w] == if ok then old(workers[w]).(phase := Reserved(dir)) else old(workers[w])
      ensures if ok then Fitted(c, Since(old(trace)), w, ByFiles, 1) else Refused(c, Since(old(trace)), w, ByFiles, 1)
    {
      ghost var before := Pause(w);
      ghost var run := trace;
      ok := quota.ReserveFile(subject);
      Took(w, Event.ReserveFile(dir), before);
      if ok {
        FittedHere(c, Since(old(trace)), trace, Now(), w, ByFiles, 1);
      } else {
        RefusedHere(c, Since(old(trace)), run, before, w, ByFiles, 1);
      }
    }

    method ReleaseFile(w: Id, subject: Subject)
      requires Valid() && w in workers && workers[w].phase.Cleared? && workers[w].user.subject == subject
      modifies this, quota, slots
      ensures Valid() && old(trace) <= trace && w in workers && Undisturbed(c, old(disk), disk, old(workers[w]), w)
      ensures workers[w] == old(workers[w]).(phase := Ready)
    {
      ghost var before := Pause(w);
      quota.ReleaseFile(subject);
      Took(w, Event.ReleaseFile, before);
    }

    method ReleaseBytes(w: Id, subject: Subject, reserved: int64)
      requires Valid() && w in workers && workers[w].phase.Busy? && workers[w].phase.stage == Failing
      requires workers[w].user.subject == subject && workers[w].phase.t.reserved == reserved as int
      modifies this, quota, slots
      ensures Valid() && old(trace) <= trace && w in workers && Undisturbed(c, old(disk), disk, old(workers[w]), w)
      ensures workers[w] == old(workers[w]).(phase := Busy(old(workers[w].phase.t), Uncharged))
    {
      ghost var before := Pause(w);
      if reserved > 0 {
        quota.ReleaseBytes(subject, reserved);
      }
      Took(w, Event.ReleaseBytes, before);
    }

    /** The chmod, the sync or the close of the temporary file. */
    method FileCall(w: Id, call: Call) returns (ok: bool)
      requires Valid() && w in workers && workers[w].phase.Busy? && !call.Hardlink?
      requires if call.Chmod? then workers[w].phase.stage == Writing && workers[w].phase.t.reserved == 0
               else workers[w].phase.stage == Publishing
      modifies this, quota, slots
      ensures Valid() && old(trace) <= trace && w in workers && Undisturbed(c, old(disk), disk, old(workers[w]), w)
      ensures workers[w] == if ok then old(workers[w])
                            else old(workers[w]).(phase := Busy(old(workers[w].phase.t), Failing))
      ensures ok || IoFailed(Since(old(trace)), w)
    {
      ghost var before := Pause(w);
      ghost var run := trace;
      ok := *;
      if !ok {
        CallFailsStep(c, before, w, call);
        Took(w, CallFails(call), before);
        LastFailed(Since(old(trace)), w, CallFails(call), run);
      }
    }

    /** The upload fails although no call has: the source breaks, or there is no free name. */
    method Abandon(w: Id)
      requires Valid() && w in workers && workers[w].phase.Busy?
      requires workers[w].phase.stage == Writing || workers[w].phase.stage == Publishing
      modifies this, quota, slots
      ensures Valid() && old(trace) <= trace && w in workers && Undisturbed(c, old(disk), disk, old(workers[w]), w)
      ensures workers[w] == old(workers[w]).(phase := Busy(old(workers[w].phase.t), Failing))
    {
      ghost var before := Pause(w);
      Took(w, GiveUp, before);
    }

    /** The source reports the end of its data. */
    method EndOfPart(w: Id)
      requires Valid() && w in workers && workers[w].phase.Busy? && workers[w].phase.stage == Writing
      requires var t := workers[w].phase.t;
               t.reserved == c.maxFileBytes + 1 || (t.whole && t.reserved == |t.part|)
      modifies this, quota, slots
      ensures Valid() && old(trace) <= trace && w in workers && Undisturbed(c, old(disk), disk, old(workers[w]), w)
      ensures var t := old(workers[w].phase.t);
              workers[w] == old(workers[w]).(phase :=
                Busy(t, if t.reserved == c.maxFileBytes + 1 then Failing else Publishing))
    {
      ghost var before := Pause(w);
      Took(w, Event.EndOfPart, before);
    }

    // ---- the file system ----------------------------------------------------------------------

    method CreateTemp(w: Id, dir: Path, part: Bytes, whole: bool) returns (temp: Option<(Path, Ino)>)
      requires Valid() && w in workers && workers[w].phase == Reserved(dir)
      modifies this, quota, slots
      ensures Valid() && old(trace) <= trace && w in workers && Undisturbed(c, old(disk), disk, old(workers[w]), w)
      ensures workers[w] == old(workers[w]).(phase :=
                if temp.Some? then Busy(Temp(dir, temp.value.0, temp.value.1, part, whole, 0), Writing)
                else Cleared(dir))
      ensures temp.None? ==> IoFailed(Since(old(trace)), w)
    {
      ghost var before := Pause(w);
      ghost var run := trace;
      var base: Name, ino: Ino, fails: bool := *, *, *;
      if fails || dir !in disk.dirs || !Plain(base) || !TempLike(base) || disk.Exists(dir + [base])
        || ino in disk.inodes {
        Took(w, TempFails, before);
        LastFailed(Since(old(trace)), w, TempFails, run);
        return None;
      }
      disk := disk.(names := disk.names[dir + [base] := ino], inodes := disk.inodes[ino := Inode([], dir + [base])],
                    temps := disk.temps[dir + [base] := w]);
      UndisturbedBy(c, old(disk), before.disk, disk, before.workers[w], w);
      Took(w, Event.CreateTemp(base, ino, part, whole), before);
      return Some((dir + [base], ino));
    }

    method RemoveTemp(w: Id, at: Path, ino: Ino, published: bool)
      requires Valid() && w in workers && workers[w].phase.Busy?
      requires workers[w].phase.t.at == at && workers[w].phase.t.ino == ino
      requires if published then workers[w].phase.stage.Linked? else workers[w].phase.stage == Uncharged
      modifies this, quota, slots
      ensures Valid() && old(trace) <= trace && w in workers && Undisturbed(c, old(disk), disk, old(workers[w]), w)
      ensures workers[w] == old(workers[w]).(phase := if published then Ready else Cleared(old(workers[w].phase.t.dir)))
    {
      ghost var before := Pause(w);
      ghost var t := before.workers[w].phase.t;
      var after := disk.(names := disk.names - {at}, temps := disk.temps - {at},
                         inodes := if published then disk.inodes else disk.inodes - {ino});
      RemoveStep(before.disk, w, t, before.workers[w].phase.stage, after);
      UndisturbedBy(c, old(disk), before.disk, after, before.workers[w], w);
      disk := after;
      TookOnDisk(w, Event.RemoveTemp, before, if published then Ready else Cleared(t.dir));
    }

    // ---- storePart ------------------------------------------------------------------------------

    method Charge(w: Id, subject: Subject, n: int64) returns (ok: bool)
      requires Valid() && w in workers && workers[w].phase.Busy? && workers[w].phase.stage == Writing
      requires workers[w].user.subject == subject && 0 < n
      requires var t := workers[w].phase.t;
               t.reserved + n as int <= |t.part| && t.reserved + n as int <= c.maxFileBytes + 1
      modifies this, quota, slots
      ensures Valid() && old(trace) <= trace && w in workers && Undisturbed(c, old(disk), disk, old(workers[w]), w)
      ensures workers[w] == old(workers[w]).(phase :=
                Busy(old(workers[w].phase.t), if ok then Charged(n as int) else Failing))
      ensures ok ==> Fitted(c, Since(old(trace)), w, ByBytes, old(workers[w].phase.t).reserved + n as int)
      ensures !ok ==> Refused(c, Since(old(trace)), w, ByBytes, Demand(c, old(workers[w].phase.t).part))
    {
      ghost var before := Pause(w);
      ghost var run := trace;
      ok := quota.ReserveBytes(subject, n);
      ChargeStep(c, before, w, n as int);
      Took(w, Event.Charge(n as int), before);
      ChargeTold(c, Since(old(trace)), run, before, w, n as int, Now());
    }

    /** One write to the temporary file: any number of the charged bytes get there, with or without
        an error. */
    method WriteChunk(w: Id, part: Bytes, at: Path, ino: Ino, reserved: nat, n: nat) returns (written: nat, fine: bool)
      requires Valid() && w in workers && workers[w].phase.Busy? && workers[w].phase.stage == Charged(n)
      requires var t := workers[w].phase.t;
               t.part == part && t.at == at && t.ino == ino && t.reserved == reserved
      requires reserved + n <= |part|
      modifies this, quota, slots
      ensures Valid() && old(trace) <= trace && w in workers && Undisturbed(c, old(disk), disk, old(workers[w]), w)
      ensures written <= n && (fine ==> written == n)
      ensures workers[w] == old(workers[w]).(phase :=
                Busy(old(workers[w].phase.t).(reserved := reserved + written), AfterWrite(n, written, fine)))
      ensures !fine ==> IoFailed(Since(old(trace)), w)
    {
      ghost var before := Pause(w);
      ghost var run := trace;
      ghost var t := before.workers[w].phase.t;
      written, fine :| written <= n && (fine ==> written == n);
      var after := disk.(inodes := disk.inodes[ino := Inode(part[..reserved + written], at)]);
      WriteStep(before.disk, w, t, n, written, fine, after);
      UndisturbedBy(c, old(disk), before.disk, after, before.workers[w], w);
      disk := after;
      TookOnDisk(w, Event.Write(written, fine), before,
                 Busy(t.(reserved := reserved + written), AfterWrite(n, written, fine)));
      if !fine {
        LastFailed(Since(old(trace)), w, Event.Write(written, fine), run);
      }
    }

    method ReturnRest(w: Id, subject: Subject, rest: int64)
      requires 0 <= rest
      requires Valid() && w in workers && workers[w].phase.Busy? && workers[w].phase.stage == Refund(rest as int)
      requires workers[w].user.subject == subject
      modifies this, quota, slots
      ensures Valid() && old(trace) <= trace && w in workers && Undisturbed(c, old(disk), disk, old(workers[w]), w)
      ensures workers[w] == old(workers[w]).(phase := Busy(old(workers[w].phase.t), Failing))
    {
      ghost var before := Pause(w);
      quota.ReleaseBytes(subject, rest);
      Took(w, Event.ReturnRest, before);
    }

    /** quotaWriter.Write: charge, write, give back what was not written. */
    method QuotaWrite(w: Id, subject: Subject, part: Bytes, at: Path, ino: Ino, reserved: int64, n: int64)
      returns (total: int64, why: Option<Failure>)
      requires Valid() && w in workers && workers[w].phase.Busy? && workers[w].phase.stage == Writing
      requires workers[w].user.subject == subject
      requires var t := workers[w].phase.t;
               t.part == part && t.at == at && t.ino == ino && t.reserved == reserved as int
      requires 0 < n && reserved as int + n as int <= |part| && reserved as int + n as int <= c.maxFileBytes + 1
      modifies this, quota, slots
      ensures Valid() && old(trace) <= trace && w in workers && Undisturbed(c, old(disk), disk, old(workers[w]), w)
      ensures 0 <= reserved <= total && total as int <= reserved as int + n as int
      ensures workers[w] == old(workers[w]).(phase :=
                Busy(old(workers[w].phase.t).(reserved := total as int), if why.None? then Writing else Failing))
      ensures why.None? ==> total == reserved + n && Fitted(c, Since(old(trace)), w, ByBytes, total as int)
      ensures why.Some? ==>
                || (why.value == QuotaExceeded && Refused(c, Since(old(trace)), w, ByBytes, Demand(c, part)))
                || (why.value == IoError && IoFailed(Since(old(trace)), w))
    {
      total, why := reserved, None;
      var ok := Charge(w, subject, n);
      if !ok {
        return total, Some(QuotaExceeded);
      }
      ghost var charged := trace;
      var fine;
      total, fine := WriteOut(w, subject, part, at, ino, reserved, n);
      if fine {
        FittedWithin(c, Span(start, old(trace), charged), Since(old(trace)), w, ByBytes, total as int);
      } else {
        IoFailedWithin(Since(charged), Since(old(trace)), w);
        why := Some(IoError);
      }
    }

    /** The write of a charged chunk, and the release of what did not get there. */
    method WriteOut(w: Id, subject: Subject, part: Bytes, at: Path, ino: Ino, reserved: int64, n: int64)
      returns (total: int64, fine: bool)
      requires Valid() && w in workers && workers[w].phase.Busy? && workers[w].user.subject == subject
      requires 0 <= reserved && 0 < n && workers[w].phase.stage == Charged(n as int)
      requires var t := workers[w].phase.t;
               t.part == part && t.at == at && t.ino == ino && t.reserved == reserved as int
      requires reserved as int + n as int <= |part| && reserved as int + n as int <= c.maxFileBytes + 1
      modifies this, quota, slots
      ensures Valid() && old(trace) <= trace && w in workers && Undisturbed(c, old(disk), disk, old(workers[w]), w)
      ensures reserved <= total && total as int <= reserved as int + n as int
      ensures workers[w] == old(workers[w]).(phase :=
                Busy(old(workers[w].phase.t).(reserved := total as int), if fine then Writing else Failing))
      ensures fine ==> total == reserved + n
      ensures !fine ==> IoFailed(Since(old(trace)), w)
    {
      var written;
      written, fine := WriteChunk(w, part, at, ino, reserved as nat, n as nat);
      total := reserved + written as int64;
      ghost var wk := workers[w];
      GiveBack(w, subject, n - written as int64, n as nat, written, fine, old(trace));
      MovedOn(old(workers[w]), wk, workers[w], total as int, AfterWrite(n as nat, written, fine),
              if fine then Writing else Failing);
    }

    /** What was charged for a chunk and not written is released. */
    method GiveBack(w: Id, subject: Subject, unwritten: int64, ghost n: nat, ghost written: nat, ghost fine: bool,
                    ghost from: seq<Act>)
      requires Valid() && w in workers && workers[w].user.subject == subject && from <= trace
      requires written <= n && (fine ==> written == n) && unwritten as int == n - written
      requires workers[w].phase.Busy? && workers[w].phase.stage == AfterWrite(n, written, fine)
      requires fine || IoFailed(Since(from), w)
      modifies this, quota, slots
      ensures Valid() && old(trace) <= trace && w in workers && Undisturbed(c, old(disk), disk, old(workers[w]), w)
      ensures workers[w] == old(workers[w]).(phase := Busy(old(workers[w].phase.t), if fine then Writing else Failing))
      ensures from <= trace && (fine || IoFailed(Since(from), w))
    {
      ghost var g := Since(from);
      if unwritten > 0 {
        ReturnRest(w, subject, unwritten);
        IoFailedWithin(g, Since(from), w);
      }
    }

    /** io.CopyBuffer over the limited reader. */
    method CopyBytes(w: Id, subject: Subject, part: Part, at: Path, ino: Ino)
      returns (written: int64, why: Option<Failure>)
      requires Valid() && w in workers && workers[w].phase.Busy? && workers[w].phase.stage == Writing
      requires workers[w].user.subject == subject
      requires var t := workers[w].phase.t; t.part == part.body && t.at == at && t.ino == ino && t.reserved == 0
      modifies this, quota, slots
      ensures Valid() && old(trace) <= trace && w in workers && Undisturbed(c, old(disk), disk, old(workers[w]), w)
      ensures 0 <= written && written as int <= |part.body| && written as int <= c.maxFileBytes + 1
      ensures workers[w] == old(workers[w]).(phase :=
                Busy(old(workers[w].phase.t).(reserved := written as int), if why.None? then Writing else Failing))
      ensures why.None? ==>
                written as int == Demand(c, part.body) && Fitted(c, Since(old(trace)), w, ByBytes, written as int)
      ensures why.Some? ==>
                && (why.value == QuotaExceeded || why.value == IoError)
                && Because(c, Since(old(trace)), w, part, why.value)
    {
      written, why := 0, None;
      var limit := ReadLimit(c.maxFileBytes as int64);
      while written < limit && written as int < |part.body|
        invariant Valid() && old(trace) <= trace && w in workers && Undisturbed(c, old(disk), disk, old(workers[w]), w)
        invariant 0 <= written && written as int <= |part.body| && written <= limit && why.None?
        invariant workers[w] == old(workers[w]).(phase :=
                    Busy(old(workers[w].phase.t).(reserved := written as int), Writing))
        invariant Fitted(c, Since(old(trace)), w, ByBytes, written as int)
        decreases limit - written
      {
        ghost var earlier := trace;
        var n: int64 :| 0 < n <= limit - written && n as int <= CHUNK && written as int + n as int <= |part.body|;
        written, why := QuotaWrite(w, subject, part.body, at, ino, written, n);
        if why.Some? {
          BecauseWithin(c, Since(earlier), Since(old(trace)), w, part, why.value);
          return;
        }
        FittedWithin(c, Since(earlier), Since(old(trace)), w, ByBytes, written as int);
      }
    }

    /** The copy, then sync and close. */
    method CopyPart(w: Id, subject: Subject, part: Part, at: Path, ino: Ino)
      returns (written: int64, why: Option<Failure>)
      requires Valid() && w in workers && workers[w].phase.Busy? && workers[w].phase.stage == Writing
      requires workers[w].user.subject == subject
      requires var t := workers[w].phase.t;
               t.part == part.body && t.whole == part.end.Eof? && t.at == at && t.ino == ino && t.reserved == 0
      modifies this, quota, slots
      ensures Valid() && old(trace) <= trace && w in workers && Undisturbed(c, old(disk), disk, old(workers[w]), w)
      ensures 0 <= written && written as int <= |part.body| && written as int <= c.maxFileBytes + 1
      ensures workers[w] == old(workers[w]).(phase :=
                Busy(old(workers[w].phase.t).(reserved := written as int), if why.None? then Publishing else Failing))
      ensures why.None? ==>
                && part.end.Eof? && written as int == |part.body| <= c.maxFileBytes
                && Fitted(c, Since(old(trace)), w, ByBytes, |part.body|)
      ensures why.Some? ==>
                !why.value.InvalidName? && !why.value.TooManyNames? && Because(c, Since(old(trace)), w, part, why.value)
    {
      written, why := CopyBytes(w, subject, part, at, ino);
      if why.Some? {
        return;
      }
      why := EndCopy(w, part, written, old(trace));
    }

    /** The source has been read as far as it goes or may. */
    method EndCopy(w: Id, part: Part, written: int64, ghost from: seq<Act>) returns (why: Option<Failure>)
      requires Valid() && w in workers && workers[w].phase.Busy? && workers[w].phase.stage == Writing
      requires var t := workers[w].phase.t;
               t.part == part.body && t.whole == part.end.Eof? && t.reserved == written as int == Demand(c, part.body)
      requires from <= trace && Fitted(c, Since(from), w, ByBytes, written as int)
      modifies this, quota, slots
      ensures Valid() && old(trace) <= trace && w in workers && Undisturbed(c, old(disk), disk, old(workers[w]), w)
      ensures workers[w] == old(workers[w]).(phase :=
                Busy(old(workers[w].phase.t), if why.None? then Publishing else Failing))
      ensures from <= trace && Fitted(c, Since(from), w, ByBytes, written as int)
      ensures why.None? ==> part.end.Eof? && written as int == |part.body| <= c.maxFileBytes
      ensures why.Some? ==>
                !why.value.InvalidName? && !why.value.TooManyNames? && Because(c, Since(from), w, part, why.value)
    {
      ghost var g := Since(from);
      var limit := ReadLimit(c.maxFileBytes as int64);
      if written < limit && !part.end.Eof? {
        Abandon(w);
        why := Some(if part.end.RequestTooLarge? then TooLarge else if part.end.Panics? then Panicked else ReadError);
      } else {
        EndOfPart(w);
        why := if written == limit then Some(TooLarge) else None;
      }
      if why.None? {
        why := SyncAndClose(w, from);
      }
      FittedWithin(c, g, Since(from), w, ByBytes, written as int);
    }

    /** The sync and the close. */
    method SyncAndClose(w: Id, ghost from: seq<Act>) returns (why: Option<Failure>)
      requires Valid() && w in workers && workers[w].phase.Busy? && workers[w].phase.stage == Publishing
      requires from <= trace
      modifies this, quota, slots
      ensures Valid() && old(trace) <= trace && w in workers && Undisturbed(c, old(disk), disk, old(workers[w]), w)
      ensures workers[w] == if why.None? then old(workers[w])
                            else old(workers[w]).(phase := Busy(old(workers[w].phase.t), Failing))
      ensures why.Some? ==> why.value == IoError && from <= trace && IoFailed(Since(from), w)
    {
      why := None;
      ghost var run := trace;
      var ok := FileCall(w, Sync);
      if ok {
        run := trace;
        ok := FileCall(w, Close);
      }
      if !ok {
        IoFailedWithin(Since(run), Since(from), w);
        why := Some(IoError);
      }
    }

    /** os.Link under one candidate name: linked, or the name is in use, or another error. */
    method Link(w: Id, dir: Path, name: Name, ino: Ino, part: Bytes) returns (linked: bool, failed: bool)
      requires Valid() && w in workers && workers[w].phase.Busy? && workers[w].phase.stage == Publishing
      requires var t := workers[w].phase.t; t.dir == dir && t.ino == ino && t.part == part
      modifies this, quota, slots
      ensures Valid() && old(trace) <= trace && w in workers
      ensures linked ==> !failed && Published(c, old(disk), disk, old(workers[w]), w, dir + [name], part)
      ensures !linked ==> Undisturbed(c, old(disk), disk, old(workers[w]), w)
      ensures !linked && !failed ==> Seen(c, Since(old(trace)), dir + [name])
      ensures failed ==> IoFailed(Since(old(trace)), w)
      ensures workers[w] == old(workers[w]).(phase := Busy(old(workers[w].phase.t), AfterLink(name, linked, failed)))
    {
      ghost var before := Pause(w);
      ghost var run := trace;
      failed, linked := *, false;
      if failed {
        CallFailsStep(c, before, w, Hardlink);
        Took(w, CallFails(Hardlink), before);
        LastFailed(Since(old(trace)), w, CallFails(Hardlink), run);
        return;
      }
      var p := dir + [name];
      if !Plain(name) || disk.Exists(p) {
        SeenHere(c, Since(old(trace)), trace, before, p);
        return;
      }
      linked := true;
      LinkFree(w, dir, name, ino, part, old(disk));
    }

    /** A name that is not there appears. */
    method LinkFree(w: Id, dir: Path, name: Name, ino: Ino, part: Bytes, ghost d0: Disk)
      requires Valid() && w in workers && workers[w].phase.Busy? && workers[w].phase.stage == Publishing
      requires var t := workers[w].phase.t; t.dir == dir && t.ino == ino && t.part == part
      requires Plain(name) && !disk.Exists(dir + [name]) && Undisturbed(c, d0, disk, workers[w], w)
      modifies this
      ensures Valid() && old(trace) <= trace && w in workers
      ensures Published(c, d0, disk, old(workers[w]), w, dir + [name], part)
      ensures workers[w] == old(workers[w]).(phase := Busy(old(workers[w].phase.t), Linked(name)))
    {
      ghost var before := Now();
      var p := dir + [name];
      var after := disk.(names := disk.names[p := ino], settled := disk.settled[p := Settled(ino, part, Some(w))]);
      LinkStep(before.disk, w, before.workers[w].phase.t, name, after);
      LinkPublishes(c, start, trace, before, w, before.workers[w].phase.t, name, after);
      PublishedSince(c, d0, before.disk, after, before.workers[w], w, p, part);
      disk := after;
      TookOnDisk(w, Event.Link(name), before, Busy(before.workers[w].phase.t, Linked(name)));
    }

    /** One turn of publishFile's loop, seen from its start. */
    method TryCandidate(w: Id, dir: Path, name: Name, sequence: nat, ino: Ino, part: Bytes, ghost d0: Disk,
                        ghost from: seq<Act>)
      returns (linked: bool, failed: bool)
      requires Valid() && w in workers && workers[w].phase.Busy? && workers[w].phase.stage == Publishing
      requires var t := workers[w].phase.t; t.dir == dir && t.ino == ino && t.part == part
      requires Undisturbed(c, d0, disk, workers[w], w) && from <= trace
      requires TriedFiles(c, Since(from), dir, name, sequence)
      modifies this, quota, slots
      ensures Valid() && old(trace) <= trace && w in workers && TriedFiles(c, Since(from), dir, name, sequence)
      ensures linked ==>
                && !failed
                && Published(c, d0, disk, old(workers[w]), w, dir + [FileCandidate(name, sequence)], part)
      ensures !linked ==> Undisturbed(c, d0, disk, old(workers[w]), w)
      ensures !linked && !failed ==> TriedFiles(c, Since(from), dir, name, sequence + 1)
      ensures failed ==> IoFailed(Since(from), w)
      ensures workers[w] == old(workers[w]).(phase :=
                Busy(old(workers[w].phase.t), AfterLink(FileCandidate(name, sequence), linked, failed)))
    {
      ghost var (earlier, wk) := (disk, workers[w]);
      linked, failed := Link(w, dir, FileCandidate(name, sequence), ino, part);
      if linked {
        PublishedSince(c, d0, earlier, disk, wk, w, dir + [FileCandidate(name, sequence)], part);
      }
      TriedFilesWithin(c, Span(start, from, old(trace)), Since(from), dir, name, sequence);
      if failed {
        IoFailedWithin(Since(old(trace)), Since(from), w);
      } else if !linked {
        SeenWithin(c, Since(old(trace)), Since(from), dir + [FileCandidate(name, sequence)]);
      }
    }

    /** publishFile: the first candidate that is free when it is tried. */
    method PublishFile(w: Id, dir: Path, name: Name, ino: Ino, part: Bytes)
      returns (chosen: Option<Name>, why: Failure, ghost index: nat)
      requires Valid() && w in workers && workers[w].phase.Busy? && workers[w].phase.stage == Publishing
      requires var t := workers[w].phase.t; t.dir == dir && t.ino == ino && t.part == part
      modifies this, quota, slots
      ensures Valid() && old(trace) <= trace && w in workers && index <= ATTEMPTS
      ensures TriedFiles(c, Since(old(trace)), dir, name, index)
      ensures chosen.Some? ==>
                && index < ATTEMPTS && chosen.value == FileCandidate(name, index)
                && Published(c, old(disk), disk, old(workers[w]), w, dir + [chosen.value], part)
                && workers[w] == old(workers[w]).(phase := Busy(old(workers[w].phase.t), Linked(chosen.value)))
      ensures chosen.None? ==>
                && Undisturbed(c, old(disk), disk, old(workers[w]), w)
                && workers[w] == old(workers[w]).(phase := Busy(old(workers[w].phase.t), Failing))
                && ((why == IoError && IoFailed(Since(old(trace)), w)) || (why == TooManyNames && index == ATTEMPTS))
    {
      var sequence := 0;
      while sequence < ATTEMPTS
        invariant 0 <= sequence <= ATTEMPTS
        invariant Valid() && old(trace) <= trace && w in workers && workers[w] == old(workers[w])
        invariant Undisturbed(c, old(disk), disk, old(workers[w]), w)
        invariant TriedFiles(c, Since(old(trace)), dir, name, sequence)
      {
        var linked, failed := TryCandidate(w, dir, name, sequence, ino, part, old(disk), old(trace));
        if linked {
          return Some(FileCandidate(name, sequence)), IoError, sequence;
        }
        if failed {
          return None, IoError, sequence;
        }
        sequence := sequence + 1;
      }
      ghost var tried := Since(old(trace));
      Abandon(w);
      TriedFilesWithin(c, tried, Since(old(trace)), dir, name, sequence);
      return None, TooManyNames, sequence;
    }

    /** The three deferred functions of a failed upload, last registered first: bytes, temporary file,
        file slot. Nothing that was taken is left. */
    method Unwind(w: Id, subject: Subject, at: Path, ino: Ino, reserved: int64)
      requires Valid() && w in workers && workers[w].phase.Busy? && workers[w].phase.stage == Failing
      requires workers[w].user.subject == subject
      requires var t := workers[w].phase.t; t.at == at && t.ino == ino && t.reserved == reserved as int
      modifies this, quota, slots
      ensures Valid() && old(trace) <= trace && w in workers && workers[w] == old(workers[w]).(phase := Ready)
      ensures Undisturbed(c, old(disk), disk, old(workers[w]), w)
    {
      ReleaseBytes(w, subject, reserved);
      RemoveTemp(w, at, ino, false);
      ReleaseFile(w, subject);
    }

    /** publishFile and, if it succeeds, the removal of the temporary name; otherwise the worker is
        left unwinding. */
    method Finish(w: Id, dir: Path, name: Name, part: Bytes, at: Path, ino: Ino)
      returns (chosen: Option<Name>, why: Failure, ghost index: nat)
      requires Valid() && w in workers && workers[w].phase.Busy? && workers[w].phase.stage == Publishing
      requires var t := workers[w].phase.t; t.dir == dir && t.ino == ino && t.part == part && t.at == at
      modifies this, quota, slots
      ensures Valid() && old(trace) <= trace && w in workers && index <= ATTEMPTS
      ensures TriedFiles(c, Since(old(trace)), dir, name, index)
      ensures chosen.Some? ==>
                && index < ATTEMPTS && chosen.value == FileCandidate(name, index)
                && Published(c, old(disk), disk, old(workers[w]), w, dir + [chosen.value], part)
                && workers[w] == old(workers[w]).(phase := Ready)
      ensures chosen.None? ==>
                && Undisturbed(c, old(disk), disk, old(workers[w]), w)
                && workers[w] == old(workers[w]).(phase := Busy(old(workers[w].phase.t), Failing))
                && ((why == IoError && IoFailed(Since(old(trace)), w)) || (why == TooManyNames && index == ATTEMPTS))
    {
      ghost var wk := workers[w];
      chosen, why, index := PublishFile(w, dir, name, ino, part);
      ghost var (linked, published) := (disk, trace);
      if chosen.Some? {
        RemoveTemp(w, at, ino, true);
        StaysPublished(c, old(disk), linked, disk, wk, w, dir + [chosen.value], part);
      }
      TriedFilesWithin(c, Span(start, old(trace), published), Since(old(trace)), dir, name, index);
    }

    /** The chmod and the copy. */
    method FillTemp(w: Id, subject: Subject, part: Part, at: Path, ino: Ino)
      returns (written: int64, why: Option<Failure>)
      requires Valid() && w in workers && workers[w].phase.Busy? && workers[w].phase.stage == Writing
      requires workers[w].user.subject == subject
      requires var t := workers[w].phase.t;
               t.part == part.body && t.whole == part.end.Eof? && t.at == at && t.ino == ino && t.reserved == 0
      modifies this, quota, slots
      ensures Valid() && old(trace) <= trace && w in workers && Undisturbed(c, old(disk), disk, old(workers[w]), w)
      ensures 0 <= written && written as int <= |part.body|
      ensures workers[w] == old(workers[w]).(phase :=
                Busy(old(workers[w].phase.t).(reserved := written as int), if why.None? then Publishing else Failing))
      ensures why.None? ==>
                && part.end.Eof? && written as int == |part.body| <= c.maxFileBytes
                && Fitted(c, Since(old(trace)), w, ByBytes, |part.body|)
      ensures why.Some? ==>
                !why.value.InvalidName? && !why.value.TooManyNames? && Because(c, Since(old(trace)), w, part, why.value)
    {
      var chmodded := FileCall(w, Chmod);
      if !chmodded {
        return 0, Some(IoError);
      }
      ghost var called := trace;
      written, why := CopyPart(w, subject, part, at, ino);
      if why.Some? {
        BecauseWithin(c, Since(called), Since(old(trace)), w, part, why.value);
      } else {
        FittedWithin(c, Since(called), Since(old(trace)), w, ByBytes, |part.body|);
      }
    }

    /** What storePart leaves behind and what it tells. */
    ghost predicate StoreTold(h: Span, d: Disk, wk: Worker, w: Id, dir: Path, name: Name, part: Part, result: Stored,
                              index: nat)
      reads this
    {
      && (result.Stored? ==>
            && part.end.Eof? && result.written == |part.body| <= c.maxFileBytes
            && Published(c, d, disk, wk, w, dir + [result.name], part.body)
            && index < ATTEMPTS && result.name == FileCandidate(name, index)
            && TriedFiles(c, h, dir, name, index) && Fitted(c, h, w, ByBytes, |part.body|))
      && (result.Failed? ==> Undisturbed(c, d, disk, wk, w) && Because(c, h, w, part, result.why))
      && (result == Failed(TooManyNames) ==> TriedFiles(c, h, dir, name, ATTEMPTS))
    }

    /** storePart from the chmod on, with a temporary file in place. */
    method StoreTemp(w: Id, subject: Subject, dir: Path, name: Name, part: Part, at: Path, ino: Ino)
      returns (result: Stored, ghost index: nat)
      requires Valid() && w in workers && workers[w].user.subject == subject
      requires workers[w].phase == Busy(Temp(dir, at, ino, part.body, part.end.Eof?, 0), Writing)
      modifies this, quota, slots
      ensures Valid() && old(trace) <= trace && w in workers && workers[w] == old(workers[w]).(phase := Ready)
      ensures StoreTold(Since(old(trace)), old(disk), old(workers[w]), w, dir, name, part, result, index)
      ensures result.Failed? ==> result.why != InvalidName
    {
      index := 0;
      var reserved, problem := FillTemp(w, subject, part, at, ino);
      ghost var (copied, filled, wk) := (disk, trace, workers[w]);
      if problem.Some? {
        Unwind(w, subject, at, ino, reserved);
        BecauseWithin(c, Span(start, old(trace), filled), Since(old(trace)), w, part, problem.value);
        return Failed(problem.value), index;
      }
      var chosen, why;
      chosen, why, index := Finish(w, dir, name, part.body, at, ino);
      if chosen.Some? {
        PublishedSince(c, old(disk), copied, disk, wk, w, dir + [chosen.value], part.body);
        TriedFilesWithin(c, Since(filled), Since(old(trace)), dir, name, index);
        FittedWithin(c, Span(start, old(trace), filled), Since(old(trace)), w, ByBytes, |part.body|);
        return Stored(chosen.value, reserved as nat), index;
      }
      ghost var finished := trace;
      Unwind(w, subject, at, ino, reserved);
      TriedFilesWithin(c, Span(start, filled, finished), Since(old(trace)), dir, name, index);
      FittedWithin(c, Span(start, old(trace), filled), Since(old(trace)), w, ByBytes, |part.body|);
      if why == IoError {
        IoFailedWithin(Span(start, filled, finished), Since(old(trace)), w);
      }
      result := Failed(why);
    }

    /** storePart, with its three deferred functions in the order they run. Whatever happens, the
        worker holds nothing afterwards; and either the whole part is settled under the first free
        candidate of its sanitised name, or nothing of it remains and there is a reason why. */
    method StorePart(w: Id, subject: Subject, dir: Path, part: Part) returns (result: Stored, ghost index: nat)
      requires Valid() && w in workers && workers[w].phase == Ready && workers[w].user.subject == subject
      requires InDir(c, workers[w], dir)
      modifies this, quota, slots
      ensures Valid() && old(trace) <= trace && w in workers && workers[w] == old(workers[w])
      ensures StoreTold(Since(old(trace)), old(disk), old(workers[w]), w, dir, SafeFilename(part.filename), part,
                        result, index)
      ensures result == Failed(InvalidName) <==> SafeFilename(part.filename) == ""
      ensures result != Failed(InvalidName) && result != Failed(QuotaExceeded) ==>
                Fitted(c, Since(old(trace)), w, ByFiles, 1)
    {
      index := 0;
      var name := SafeFilename(part.filename);
      if name == "" {
        return Failed(InvalidName), index;
      }
      var ok := ReserveFile(w, subject, dir);
      if !ok {
        return Failed(QuotaExceeded), index;
      }
      ghost var (slot, reserved, d1, wk1) := (Since(old(trace)), trace, disk, workers[w]);
      result, index := StoreReserved(w, subject, dir, name, part);
      FittedWithin(c, slot, Since(old(trace)), w, ByFiles, 1);
      ToldSince(Since(reserved), Since(old(trace)), old(disk), d1, old(workers[w]), wk1, w, dir, name, part, result,
                index);
    }

    /** storePart with the file slot taken. */
    method StoreReserved(w: Id, subject: Subject, dir: Path, name: Name, part: Part) returns (result: Stored,
                         ghost index: nat)
      requires Valid() && w in workers && workers[w].phase == Reserved(dir) && workers[w].user.subject == subject
      modifies this, quota, slots
      ensures Valid() && old(trace) <= trace && w in workers && workers[w] == old(workers[w]).(phase := Ready)
      ensures StoreTold(Since(old(trace)), old(disk), old(workers[w]), w, dir, name, part, result, index)
      ensures result.Failed? ==> result.why != InvalidName
    {
      index := 0;
      var temp := CreateTemp(w, dir, part.body, part.end.Eof?);
      ghost var created := trace;
      if temp.None? {
        ReleaseFile(w, subject);
        IoFailedWithin(Span(start, old(trace), created), Since(old(trace)), w);
        return Failed(IoError), index;
      }
      var (at, ino) := temp.value;
      ghost var (d1, wk1) := (disk, workers[w]);
      result, index := StoreTemp(w, subject, dir, name, part, at, ino);
      ToldSince(Since(created), Since(old(trace)), old(disk), d1, old(workers[w]), wk1, w, dir, name, part, result,
                index);
    }

    /** What was told of the last stretch is told of the whole. */
    lemma ToldSince(g: Span, h: Span, d0: Disk, d1: Disk, wk0: Worker, wk1: Worker, w: Id, dir: Path, name: Name,
                    part: Part,
                    result: Stored, index: nat)
      requires StoreTold(g, d1, wk1, w, dir, name, part, result, index) && Within(g, h)
      requires wk1.user == wk0.user && wk1.folder == wk0.folder && Undisturbed(c, d0, d1, wk0, w)
      ensures StoreTold(h, d0, wk0, w, dir, name, part, result, index)
    {
      if result.Stored? {
        PublishedSince(c, d0, d1, disk, wk0, w, dir + [result.name], part.body);
        TriedFilesWithin(c, g, h, dir, name, index);
        FittedWithin(c, g, h, w, ByBytes, |part.body|);
      } else {
        BecauseWithin(c, g, h, w, part, result.why);
        if result.why.TooManyNames? {
          TriedFilesWithin(c, g, h, dir, name, ATTEMPTS);
        }
      }
    }
  }
}
