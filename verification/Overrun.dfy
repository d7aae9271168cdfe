/** The disk can hold more than the byte quota allows: in every configuration that is not cautious there
    is a run that does it, step by step (internal/dumpbox/server.go:447-470). */
module Overrun {
  import opened Sums
  import opened Limits
  import opened Protocol
  import opened Capacity
  import opened Containment

  lemma OneMore(c: Config, s: State, run: seq<Act>, mid: State, w: Id, e: Event, t: State) returns (longer: seq<Act>)
    requires Exec(c, s, run) == Some(mid) && Apply(c, mid, w, e) == Some(t)
    ensures Exec(c, s, longer) == Some(t) && longer == run + [Act(w, e)]
  {
    longer := run + [Act(w, e)];
    assert longer[..|run|] == run;
  }

  // ---- two uploads of one identity, each of one chunk ------------------------------------------------

  const NAMES: seq<Name> := [".upload-0", ".upload-1"]

  function At(home: Name, w: Id): Path
    requires w < 2
  {
    [home] + [NAMES[w]]
  }

  function Sent(home: Name, part: Bytes, w: Id, reserved: nat): Temp
    requires w < 2
  {
    Temp([home], At(home, w), w + 1, part, false, reserved)
  }

  /** The directory is there, the names and inodes of the two are free, and there are slots for them. */
  ghost predicate Prepared(c: Config, s: State, user: User, part: Bytes, w: Id) {
    var home := c.home(user);
    && w < 2 && w in s.workers && s.workers[w] == Worker(user, None, Ready)
    && [home] in s.disk.dirs && !s.disk.Exists(At(home, w)) && w + 1 !in s.disk.inodes
    && (c.maxFiles > 0 ==> Get(s.books.files, c.key(user.subject)) < c.maxFiles)
    && Get(s.books.bytes, c.key(user.subject)) + |part| <= c.maxBytes
  }

  /** The chunk is as large as a charge can be. */
  predicate Chargeable(c: Config, n: nat) {
    0 < n && c.maxBytes > 0 && (c.maxFileBytes > 0 ==> n <= c.maxFileBytes + 1)
  }

  lemma Reserves(c: Config, s: State, user: User, part: Bytes, w: Id) returns (t: State)
    requires Prepared(c, s, user, part, w)
    ensures Apply(c, s, w, Event.ReserveFile([c.home(user)])) == Some(t)
    ensures t.disk == s.disk && t.books.bytes == s.books.bytes
    ensures t.workers == s.workers[w := Worker(user, None, Reserved([c.home(user)]))]
    ensures c.maxFiles > 0 ==> Get(t.books.files, c.key(user.subject)) == Get(s.books.files, c.key(user.subject)) + 1
  {
    t := Apply(c, s, w, Event.ReserveFile([c.home(user)])).value;
  }

  lemma Creates(c: Config, s: State, user: User, part: Bytes, w: Id) returns (t: State)
    requires var home := c.home(user);
             && w < 2 && w in s.workers && s.workers[w] == Worker(user, None, Reserved([home]))
             && [home] in s.disk.dirs && !s.disk.Exists(At(home, w)) && w + 1 !in s.disk.inodes
    ensures var home := c.home(user);
            && Apply(c, s, w, Event.CreateTemp(NAMES[w], w + 1, part, false)) == Some(t)
            && t.books == s.books
            && t.workers == s.workers[w := Worker(user, None, Busy(Sent(home, part, w, 0), Writing))]
            && t.disk.names == s.disk.names[At(home, w) := w + 1] && t.disk.dirs == s.disk.dirs
            && t.disk.inodes == s.disk.inodes[w + 1 := Inode([], At(home, w))]
  {
    assert NAMES[w][..8] == ".upload-" && '/' !in NAMES[w];
    t := Apply(c, s, w, Event.CreateTemp(NAMES[w], w + 1, part, false)).value;
  }

  lemma Charges(c: Config, s: State, user: User, part: Bytes, w: Id) returns (t: State)
    requires Chargeable(c, |part|) && w < 2 && w in s.workers
    requires s.workers[w] == Worker(user, None, Busy(Sent(c.home(user), part, w, 0), Writing))
    requires Get(s.books.bytes, c.key(user.subject)) + |part| <= c.maxBytes
    ensures Apply(c, s, w, Charge(|part|)) == Some(t) && t.disk == s.disk && t.books.files == s.books.files
    ensures t.workers == s.workers[w := Worker(user, None, Busy(Sent(c.home(user), part, w, 0), Charged(|part|)))]
    ensures Get(t.books.bytes, c.key(user.subject)) == Get(s.books.bytes, c.key(user.subject)) + |part|
  {
    t := Apply(c, s, w, Charge(|part|)).value;
  }

  lemma Writes(c: Config, s: State, user: User, part: Bytes, w: Id) returns (t: State)
    requires w < 2 && w in s.workers
    requires s.workers[w] == Worker(user, None, Busy(Sent(c.home(user), part, w, 0), Charged(|part|)))
    ensures Apply(c, s, w, Event.Write(|part|, true)) == Some(t) && t.books == s.books
    ensures t.workers == s.workers[w := Worker(user, None, Busy(Sent(c.home(user), part, w, |part|), Writing))]
    ensures t.disk == s.disk.(inodes := s.disk.inodes[w + 1 := Inode(part, At(c.home(user), w))])
  {
    assert part[..|part|] == part;
    assert Sent(c.home(user), part, w, 0).(reserved := |part|) == Sent(c.home(user), part, w, |part|);
    t := Apply(c, s, w, Event.Write(|part|, true)).value;
  }

  lemma GetsItsFile(c: Config, s0: State, before: seq<Act>, s: State, user: User, part: Bytes, w: Id)
    returns (run: seq<Act>, t: State)
    requires Exec(c, s0, before) == Some(s) && Prepared(c, s, user, part, w)
    ensures var (home, k) := (c.home(user), c.key(user.subject));
            && Exec(c, s0, run) == Some(t) && t.books.bytes == s.books.bytes
            && t.workers == s.workers[w := Worker(user, None, Busy(Sent(home, part, w, 0), Writing))]
            && t.disk.names == s.disk.names[At(home, w) := w + 1] && t.disk.dirs == s.disk.dirs
            && t.disk.inodes == s.disk.inodes[w + 1 := Inode([], At(home, w))]
            && (c.maxFiles > 0 ==> Get(t.books.files, k) == Get(s.books.files, k) + 1)
  {
    var s1 := Reserves(c, s, user, part, w);
    var reserved := OneMore(c, s0, before, s, w, Event.ReserveFile([c.home(user)]), s1);
    t := Creates(c, s1, user, part, w);
    run := OneMore(c, s0, reserved, s1, w, Event.CreateTemp(NAMES[w], w + 1, part, false), t);
  }

  /** An upload that has got as far as writing its chunk. */
  lemma WritesItsChunk(c: Config, s0: State, before: seq<Act>, s: State, user: User, part: Bytes, w: Id)
    returns (run: seq<Act>, t: State)
    requires Exec(c, s0, before) == Some(s) && Prepared(c, s, user, part, w) && Chargeable(c, |part|)
    ensures var (home, k) := (c.home(user), c.key(user.subject));
            && Exec(c, s0, run) == Some(t)
            && w in t.workers && t.workers[w] == Worker(user, None, Busy(Sent(home, part, w, |part|), Writing))
            && (1 - w in s.workers ==> 1 - w in t.workers && t.workers[1 - w] == s.workers[1 - w])
            && t.disk.names == s.disk.names[At(home, w) := w + 1] && t.disk.dirs == s.disk.dirs
            && t.disk.inodes == s.disk.inodes[w + 1 := Inode(part, At(home, w))]
            && (c.maxFiles > 0 ==> Get(t.books.files, k) == Get(s.books.files, k) + 1)
            && Get(t.books.bytes, k) == Get(s.books.bytes, k) + |part|
  {
    var created, s2 := GetsItsFile(c, s0, before, s, user, part, w);
    var s3 := Charges(c, s2, user, part, w);
    var charged := OneMore(c, s0, created, s2, w, Charge(|part|), s3);
    t := Writes(c, s3, user, part, w);
    run := OneMore(c, s0, charged, s3, w, Event.Write(|part|, true), t);
  }

  /** It fails, and gives its bytes back; its file is still there. */
  lemma GivesBack(c: Config, s0: State, before: seq<Act>, s: State, user: User, part: Bytes)
    returns (run: seq<Act>, t: State)
    requires Exec(c, s0, before) == Some(s) && Chargeable(c, |part|) && 0 in s.workers && 1 in s.workers
    requires s.workers[0] == Worker(user, None, Busy(Sent(c.home(user), part, 0, |part|), Writing))
    requires Get(s.books.bytes, c.key(user.subject)) >= |part|
    ensures Exec(c, s0, run) == Some(t) && t.disk == s.disk && t.books.files == s.books.files
    ensures 1 in t.workers && t.workers[1] == s.workers[1]
    ensures Get(t.books.bytes, c.key(user.subject)) == Get(s.books.bytes, c.key(user.subject)) - |part|
  {
    var s1 := Apply(c, s, 0, GiveUp).value;
    run := OneMore(c, s0, before, s, 0, GiveUp, s1);
    t := Apply(c, s1, 0, ReleaseBytes).value;
    run := OneMore(c, s0, run, s1, 0, ReleaseBytes, t);
  }

  lemma BothBegin(c: Config, s0: State, user: User) returns (run: seq<Act>, t: State)
    requires c.Valid() && c.perUser >= 2 && s0.workers == map[] && s0.books.slots == Slots(map[], 0)
    requires [c.home(user)] !in s0.disk.names
    ensures Exec(c, s0, run) == Some(t) && t.disk == s0.disk.(dirs := s0.disk.dirs + {[c.home(user)]})
    ensures t.workers == map[0 := Worker(user, None, Ready), 1 := Worker(user, None, Ready)]
    ensures t.books.bytes == s0.books.bytes && t.books.files == s0.books.files
  {
    var s1 := Apply(c, s0, 0, Begin(user)).value;
    assert Exec(c, s0, []) == Some(s0);
    run := OneMore(c, s0, [], s0, 0, Begin(user), s1);
    var s2 := Apply(c, s1, 1, Begin(user)).value;
    run := OneMore(c, s0, run, s1, 1, Begin(user), s2);
    t := Apply(c, s2, 0, EnsureHome).value;
    run := OneMore(c, s0, run, s2, 0, EnsureHome, t);
  }

  /** Room for two uploads that are about to begin. */
  ghost predicate Vacant(c: Config, s: State, user: User, part: Bytes) {
    var (home, k) := (c.home(user), c.key(user.subject));
    && c.Valid() && c.perUser >= 2 && s.workers == map[] && s.books.slots == Slots(map[], 0) && Chargeable(c, |part|)
    && 0 <= Get(s.books.bytes, k) <= c.maxBytes - |part|
    && (c.maxFiles > 0 ==> Get(s.books.files, k) + 2 <= c.maxFiles)
    && [home] !in s.disk.names && !s.disk.Exists(At(home, 0)) && !s.disk.Exists(At(home, 1))
    && 1 !in s.disk.inodes && 2 !in s.disk.inodes
  }

  lemma AtDiffer(home: Name)
    ensures At(home, 0) != At(home, 1) && At(home, 0) != [home] && At(home, 1) != [home]
  {
    assert At(home, 0)[1] != At(home, 1)[1];
    assert |At(home, 0)| == 2 && |At(home, 1)| == 2;
  }

  lemma BothPrepared(c: Config, s: State, t: State, user: User, part: Bytes)
    requires Vacant(c, s, user, part)
    requires t.disk == s.disk.(dirs := s.disk.dirs + {[c.home(user)]})
    requires t.workers == map[0 := Worker(user, None, Ready), 1 := Worker(user, None, Ready)]
    requires t.books.bytes == s.books.bytes && t.books.files == s.books.files
    ensures Prepared(c, t, user, part, 0) && Prepared(c, t, user, part, 1)
  {
    AtDiffer(c.home(user));
  }

  lemma StillPrepared(c: Config, s: State, t: State, user: User, part: Bytes)
    requires Prepared(c, s, user, part, 1)
    requires t.disk.names == s.disk.names[At(c.home(user), 0) := 1] && t.disk.dirs == s.disk.dirs
    requires t.disk.inodes.Keys == s.disk.inodes.Keys + {1} && 1 in t.workers && t.workers[1] == s.workers[1]
    requires Get(t.books.bytes, c.key(user.subject)) == Get(s.books.bytes, c.key(user.subject))
    requires c.maxFiles > 0 ==> Get(t.books.files, c.key(user.subject)) < c.maxFiles
    ensures Prepared(c, t, user, part, 1)
  {
    AtDiffer(c.home(user));
  }

  lemma FirstGivesBack(c: Config, s0: State, before: seq<Act>, s: State, user: User, part: Bytes)
    returns (run: seq<Act>, t: State)
    requires Exec(c, s0, before) == Some(s) && Prepared(c, s, user, part, 0) && Chargeable(c, |part|)
    requires 1 in s.workers && Get(s.books.bytes, c.key(user.subject)) >= 0
    ensures Exec(c, s0, run) == Some(t) && 1 in t.workers && t.workers[1] == s.workers[1]
    ensures t.disk.names == s.disk.names[At(c.home(user), 0) := 1] && t.disk.dirs == s.disk.dirs
    ensures t.disk.inodes == s.disk.inodes[1 := Inode(part, At(c.home(user), 0))]
    ensures Get(t.books.bytes, c.key(user.subject)) == Get(s.books.bytes, c.key(user.subject))
    ensures c.maxFiles > 0 ==> Get(t.books.files, c.key(user.subject)) == Get(s.books.files, c.key(user.subject)) + 1
  {
    var s2, middle;
    middle, s2 := WritesItsChunk(c, s0, before, s, user, part, 0);
    run, t := GivesBack(c, s0, middle, s2, user, part);
  }

  lemma FirstIsUnwinding(c: Config, s0: State, user: User, part: Bytes) returns (run: seq<Act>, t: State)
    requires Vacant(c, s0, user, part)
    ensures Exec(c, s0, run) == Some(t) && Prepared(c, t, user, part, 1)
    ensures t.disk.names == s0.disk.names[At(c.home(user), 0) := 1]
    ensures t.disk.inodes == s0.disk.inodes[1 := Inode(part, At(c.home(user), 0))]
  {
    var s1;
    run, s1 := BothBegin(c, s0, user);
    BothPrepared(c, s0, s1, user, part);
    run, t := FirstGivesBack(c, s0, run, s1, user, part);
    StillPrepared(c, s1, t, user, part);
  }

  /** The second upload writes its chunk while that of the first, already given back, is still on disk. */
  lemma TwoChunks(c: Config, s0: State, user: User, part: Bytes) returns (run: seq<Act>, t: State)
    requires Vacant(c, s0, user, part)
    ensures var home := c.home(user);
            && Exec(c, s0, run) == Some(t)
            && t.disk.names == s0.disk.names[At(home, 0) := 1][At(home, 1) := 2]
            && t.disk.inodes == s0.disk.inodes[1 := Inode(part, At(home, 0))][2 := Inode(part, At(home, 1))]
  {
    var s1;
    run, s1 := FirstIsUnwinding(c, s0, user, part);
    run, t := WritesItsChunk(c, s0, run, s1, user, part, 1);
  }

  ghost predicate NamesHaveInodes(d: Disk) {
    forall p :: p in d.names ==> d.names[p] in d.inodes
  }

  /** Both chunks count. */
  lemma BothCount(c: Config, d: Disk, d': Disk, user: User, part: Bytes)
    requires c.Valid() && NamesHaveInodes(d)
    requires var home := c.home(user);
             && At(home, 0) !in d.names && At(home, 1) !in d.names && 1 !in d.inodes && 2 !in d.inodes
             && d'.names == d.names[At(home, 0) := 1][At(home, 1) := 2]
             && d'.inodes == d.inodes[1 := Inode(part, At(home, 0))][2 := Inode(part, At(home, 1))]
    ensures Occupied(c, d', ByBytes, c.key(user.subject)) == Occupied(c, d, ByBytes, c.key(user.subject)) + 2 * |part|
  {
    var (home, k) := (c.home(user), c.key(user.subject));
    var (a, b) := (At(home, 0), At(home, 1));
    assert a[1] != b[1] && a[0] == home && b[0] == home;
    var (live, live') := (Live(c, d, k), Live(c, d', k));
    assert 1 !in live && 2 !in live;
    assert live' == live + {1} + {2} by {
      assert a in d'.names && d'.names[a] == 1 && KeyAt(c, a) == Some(k);
      assert b in d'.names && d'.names[b] == 2 && KeyAt(c, b) == Some(k);
      forall p | p in d.names
        ensures p in d'.names && d'.names[p] == d.names[p]
      {
      }
      forall p | p in d'.names
        ensures p == a || p == b || (p in d.names && d.names[p] == d'.names[p])
      {
      }
    }
    SumInsert(live, 1, InodeWeight(d, ByBytes), InodeWeight(d', ByBytes));
    SumInsert(live + {1}, 2, InodeWeight(d', ByBytes), InodeWeight(d', ByBytes));
  }

  // ---- what startup found -----------------------------------------------------------------------------

  function Chunk(n: nat): Bytes { seq(n, i => 'x') }

  /** One file of this size in the user's directory. */
  function OneFile(home: Name, size: nat): Disk {
    var p := [home] + ["f"];
    Disk(map[p := 0], map[0 := Inode(Chunk(size), p)], {[home]}, map[p := Settled(0, Chunk(size), None)], map[], map[])
  }

  function NoFiles(): Disk { Disk(map[], map[], {}, map[], map[], map[]) }

  function Fresh(k: Key, bytes: nat, files: nat, d: Disk): State {
    State(Books(map[k := bytes], map[k := files], Slots(map[], 0)), d, map[])
  }

  lemma NoFilesStart(c: Config, k: Key)
    requires c.Valid()
    ensures Starts(c, Fresh(k, 0, 0, NoFiles())) && Occupied(c, NoFiles(), ByBytes, k) == 0
    ensures Usage(c, NoFiles(), ByBytes, k) == 0
  {
    var d := NoFiles();
    assert d.names.Keys == {} && Live(c, d, k) == {};
    forall m, other
      ensures Usage(c, d, m, other) == 0
    {
    }
  }

  lemma OneFileUsage(c: Config, user: User, size: nat, m: Measure, k: Key)
    requires c.Valid()
    ensures Usage(c, OneFile(c.home(user), size), m, k) == if k == c.key(user.subject) then Weigh(m, size) else 0
  {
    var d := OneFile(c.home(user), size);
    var p := [c.home(user)] + ["f"];
    assert d.names.Keys == {p} && p[0] == c.home(user);
    SumRemove({p}, p, NameWeight(c, d, m, k));
    assert {p} - {p} == {};
  }

  lemma OneFileStarts(c: Config, user: User, size: nat)
    requires c.Valid()
    ensures Starts(c, Fresh(c.key(user.subject), size, 1, OneFile(c.home(user), size)))
  {
    var (home, k) := (c.home(user), c.key(user.subject));
    var d := OneFile(home, size);
    var p := [home] + ["f"];
    forall m, other
      ensures Get(Book(Fresh(k, size, 1, d).books, m), other) == Usage(c, d, m, other)
    {
      OneFileUsage(c, user, size, m, other);
    }
    assert TreeShaped(d) by {
      assert p[..1] == [home] && |p| == 2;
    }
    assert d.inodes.Keys == {0} && d.names.Keys == {p};
  }

  lemma OneFileOccupied(c: Config, user: User, size: nat)
    requires c.Valid()
    ensures Occupied(c, OneFile(c.home(user), size), ByBytes, c.key(user.subject)) == size
  {
    var d := OneFile(c.home(user), size);
    var (p, live) := ([c.home(user)] + ["f"], Live(c, d, c.key(user.subject)));
    assert p in d.names && p[0] == c.home(user) && d.names[p] == 0;
    assert live == {0};
    SumRemove({0}, 0, InodeWeight(d, ByBytes));
    assert live - {0} == {};
  }

  /** The largest single charge. */
  function Largest(c: Config): nat {
    if c.maxFileBytes > 0 && c.maxFileBytes + 1 < c.maxBytes then c.maxFileBytes + 1 else c.maxBytes
  }

  /** With room for one chunk but not for two, a run that goes beyond the quota. */
  lemma BeyondQuota(c: Config, s: State, user: User, part: Bytes) returns (run: seq<Act>, t: State)
    requires Vacant(c, s, user, part) && NamesHaveInodes(s.disk)
    requires Occupied(c, s.disk, ByBytes, c.key(user.subject)) + 2 * |part|
             > Max(c.maxBytes, Usage(c, s.disk, ByBytes, c.key(user.subject)))
    ensures Exec(c, s, run) == Some(t)
    ensures Occupied(c, t.disk, ByBytes, c.key(user.subject))
            > Max(c.maxBytes, Usage(c, s.disk, ByBytes, c.key(user.subject)))
  {
    run, t := TwoChunks(c, s, user, part);
    BothCount(c, s.disk, t.disk, user, part);
  }

  /** Two file slots only: two charges as large as can be, one after the other. */
  lemma OverrunEmpty(c: Config, user: User) returns (s: State, run: seq<Act>, t: State)
    requires c.Valid() && c.maxBytes > 0 && !Cautious(c) && c.maxFiles == 2
    ensures Starts(c, s) && Exec(c, s, run) == Some(t)
    ensures Occupied(c, t.disk, ByBytes, c.key(user.subject))
            > Max(c.maxBytes, Usage(c, s.disk, ByBytes, c.key(user.subject)))
  {
    var k := c.key(user.subject);
    s := Fresh(k, 0, 0, NoFiles());
    NoFilesStart(c, k);
    run, t := BeyondQuota(c, s, user, Chunk(Largest(c)));
  }

  lemma OneFileVacant(c: Config, user: User)
    requires c.Valid() && c.maxBytes > 0 && !Cautious(c) && c.maxFiles != 2
    ensures var size := c.maxBytes - 1;
            Vacant(c, Fresh(c.key(user.subject), size, 1, OneFile(c.home(user), size)), user, "x")
  {
    var home := c.home(user);
    assert ([home] + ["f"])[1] == "f" && At(home, 0)[1] == ".upload-0" && At(home, 1)[1] == ".upload-1";
    AtDiffer(home);
  }

  /** More slots: a disk that is full but for one byte, and two more files of one byte. */
  lemma OverrunFull(c: Config, user: User) returns (s: State, run: seq<Act>, t: State)
    requires c.Valid() && c.maxBytes > 0 && !Cautious(c) && c.maxFiles != 2
    ensures Starts(c, s) && Exec(c, s, run) == Some(t)
    ensures Occupied(c, t.disk, ByBytes, c.key(user.subject))
            > Max(c.maxBytes, Usage(c, s.disk, ByBytes, c.key(user.subject)))
  {
    var (k, home) := (c.key(user.subject), c.home(user));
    s := Fresh(k, c.maxBytes - 1, 1, OneFile(home, c.maxBytes - 1));
    OneFileStarts(c, user, c.maxBytes - 1);
    OneFileUsage(c, user, c.maxBytes - 1, ByBytes, k);
    OneFileOccupied(c, user, c.maxBytes - 1);
    OneFileVacant(c, user);
    run, t := BeyondQuota(c, s, user, "x");
  }

  /** The byte quota holds for the disk itself, in every state of every run from every disk found at
      startup, exactly in the cautious configurations. */
  lemma {:induction false} ContainedExactly(c: Config, user: User)
    requires c.Valid() && c.maxBytes > 0 && OneSubject(c, c.key(user.subject), user.subject)
    ensures Contained(c, c.key(user.subject)) <==> Cautious(c)
  {
    var k := c.key(user.subject);
    if Cautious(c) {
      CautiousIsContained(c, k, user.subject);
    } else {
      var s, run, t;
      if c.maxFiles == 2 {
        s, run, t := OverrunEmpty(c, user);
      } else {
        s, run, t := OverrunFull(c, user);
      }
    }
  }

  // ---- a part that is too large, refused by the quota -----------------------------------------------

  /** The run behind the one 507 for 413: two bytes are offered under a quota and a file limit of one, and
      the charge for both is refused although no call has failed. */
  lemma OversizeRefused(c: Config, user: User) returns (run: seq<Act>, t: State)
    requires c.Valid() && c.maxBytes == c.maxFileBytes == 1 && c.maxFiles == 0
    ensures Exec(c, Fresh(c.key(user.subject), 0, 0, NoFiles()), run) == Some(t)
    ensures |run| == 5 && run[4] == Act(0, Charge(2)) && run[1] == Act(0, EnsureHome) && run[0] == Act(0, Begin(user))
    ensures run[2] == Act(0, Event.ReserveFile([c.home(user)]))
    ensures run[3] == Act(0, Event.CreateTemp(NAMES[0], 1, "xy", true))
    ensures 0 in t.workers && t.workers[0].phase.Busy? && t.workers[0].phase.stage == Failing
    ensures t.workers[0].phase.t.reserved == 0 && t.books.bytes == map[c.key(user.subject) := 0]
  {
    var s0 := Fresh(c.key(user.subject), 0, 0, NoFiles());
    var before, s3 := OneReserves(c, s0, user);
    assert NAMES[0][..8] == ".upload-" && '/' !in NAMES[0];
    var s4 := Apply(c, s3, 0, Event.CreateTemp(NAMES[0], 1, "xy", true)).value;
    var created := OneMore(c, s0, before, s3, 0, Event.CreateTemp(NAMES[0], 1, "xy", true), s4);
    t := ChargeRefused(c, s4, user);
    run := OneMore(c, s0, created, s4, 0, Charge(2), t);
  }

  lemma ChargeRefused(c: Config, s: State, user: User) returns (t: State)
    requires c.maxBytes == c.maxFileBytes == 1 && 0 in s.workers && Get(s.books.bytes, c.key(user.subject)) == 0
    requires s.workers[0].user == user && s.workers[0].phase.Busy? && s.workers[0].phase.stage == Writing
    requires s.workers[0].phase.t.reserved == 0 && |s.workers[0].phase.t.part| == 2
    ensures Apply(c, s, 0, Charge(2)) == Some(t) && t.books.bytes == s.books.bytes
    ensures 0 in t.workers && t.workers[0].phase == Busy(s.workers[0].phase.t, Failing)
  {
    t := Apply(c, s, 0, Charge(2)).value;
  }

  lemma OneReserves(c: Config, s0: State, user: User) returns (run: seq<Act>, t: State)
    requires c.Valid() && c.maxFiles == 0 && s0 == Fresh(c.key(user.subject), 0, 0, NoFiles())
    ensures Exec(c, s0, run) == Some(t)
    ensures run == [Act(0, Begin(user)), Act(0, EnsureHome), Act(0, Event.ReserveFile([c.home(user)]))]
    ensures t.disk == NoFiles().(dirs := {[c.home(user)]}) && t.books.bytes == s0.books.bytes
    ensures t.workers == map[0 := Worker(user, None, Reserved([c.home(user)]))]
  {
    var s1 := Apply(c, s0, 0, Begin(user)).value;
    assert Exec(c, s0, []) == Some(s0);
    var begun := OneMore(c, s0, [], s0, 0, Begin(user), s1);
    var s2 := Apply(c, s1, 0, EnsureHome).value;
    var ensured := OneMore(c, s0, begun, s1, 0, EnsureHome, s2);
    t := Apply(c, s2, 0, Event.ReserveFile([c.home(user)])).value;
    run := OneMore(c, s0, ensured, s2, 0, Event.ReserveFile([c.home(user)]), t);
  }
}
