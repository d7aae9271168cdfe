/** What follows for every reachable state: what is on disk, what the ledgers show, what a restart
    would find. */
module Guarantees {
  import opened Sums
  import opened Limits
  import opened Protocol
  import opened DiskInvariant
  import opened Conservation
  import opened SlotsInvariant
  import opened Safety

  // ---- publication is atomic and final -----------------------------------------------------

  /** A step either leaves the settled names alone or publishes one more. */
  lemma SettledStep(c: Config, s: State, w: Id, e: Event, s': State)
    requires Apply(c, s, w, e) == Some(s') && s'.disk.settled != s.disk.settled
    ensures w in s.workers && s.workers[w].phase.Busy? && s.workers[w].phase.stage.Publishing? && e.Link?
    ensures var t := s.workers[w].phase.t;
            var p := t.dir + [e.name];
            && !s.disk.Exists(p) && s'.disk.settled == s.disk.settled[p := Settled(t.ino, t.part, Some(w))]
            && s'.disk.names == s.disk.names[p := t.ino] && s'.disk.inodes == s.disk.inodes
  {
    if !Publishes(s.disk, s.workers[w], e) {
      HeldOnDisk(c, s.disk, w, s.workers[w], e, ByFiles);
    }
  }

  lemma SettledStays(c: Config, s: State, w: Id, e: Event, s': State, p: Path)
    requires p in s.disk.settled && p in s.disk.names && Apply(c, s, w, e) == Some(s')
    ensures p in s'.disk.settled && s'.disk.settled[p] == s.disk.settled[p]
  {
    if s'.disk.settled != s.disk.settled {
      SettledStep(c, s, w, e, s');
    }
  }

  lemma {:induction false} SettledForever(c: Config, s: State, run: seq<Act>, t: State, p: Path)
    requires Inv(c, s) && Exec(c, s, run) == Some(t) && p in s.disk.settled
    ensures p in t.disk.settled && t.disk.settled[p] == s.disk.settled[p]
    decreases |run|
  {
    if run != [] {
      var (before, last) := (run[..|run| - 1], run[|run| - 1]);
      var mid := Exec(c, s, before).value;
      SettledForever(c, s, before, mid, p);
      InvRun(c, s, before, mid);
      SettledStays(c, mid, last.who, last.e, t, p);
    }
  }

  /** A published name, or one found at startup, has the same inode and the same bytes in every
      later state of every run. */
  lemma {:induction false} PublishedForever(c: Config, s: State, run: seq<Act>, t: State, p: Path)
    requires Inv(c, s) && Exec(c, s, run) == Some(t) && p in s.disk.settled
    ensures SettledAt(s.disk, p, s.disk.settled[p]) && SettledAt(t.disk, p, s.disk.settled[p])
  {
    InvRun(c, s, run, t);
    SettledForever(c, s, run, t, p);
  }

  ghost predicate SettledAt(d: Disk, p: Path, f: Settled) {
    p in d.names && d.names[p] == f.ino && f.ino in d.inodes && d.inodes[f.ino].data == f.data
  }

  /** A name that a step publishes did not exist before, appears with the whole part already in its
      inode, and is within the file limit; a part that broke off is never published. */
  lemma PublishedWhole(c: Config, s: State, w: Id, e: Event, s': State, p: Path)
    requires DiskSound(s.disk, s.workers) && (w in s.workers ==> WorkerSound(c, s.workers[w]))
    requires Apply(c, s, w, e) == Some(s')
    requires p in s'.disk.settled && p !in s.disk.settled
    ensures w in s.workers && s.workers[w].phase.Busy? && !s.disk.Exists(p)
    ensures var t := s.workers[w].phase.t;
            && t.whole && s'.disk.settled[p] == Settled(t.ino, t.part, Some(w))
            && SettledAt(s'.disk, p, s'.disk.settled[p])
            && t.ino in s.disk.inodes && s.disk.inodes[t.ino].data == t.part
            && (c.maxFileBytes > 0 ==> |t.part| <= c.maxFileBytes)
  {
    SettledStep(c, s, w, e, s');
    var t := s.workers[w].phase.t;
    assert t.part[..|t.part|] == t.part;
  }

  // ---- the ledgers over whole runs ---------------------------------------------------------

  /** What was published since the server started. */
  ghost function PublishedTotal(c: Config, d: Disk, m: Measure, k: Key): int {
    Sum(d.settled.Keys, PublishedWeight(c, d, m, k))
  }

  ghost function PublishedWeight(c: Config, d: Disk, m: Measure, k: Key): Path -> int {
    p => if p in d.settled && d.settled[p].who.Some? && KeyAt(c, p) == Some(k) then Weigh(m, |d.settled[p].data|) else 0
  }

  /** What startup found stays, and is told apart from what was published. */
  lemma {:induction false} FoundStays(c: Config, s: State, run: seq<Act>, t: State)
    requires Starts(c, s) && Exec(c, s, run) == Some(t)
    ensures forall p :: p in s.disk.settled ==> p in t.disk.settled && t.disk.settled[p] == s.disk.settled[p]
    ensures forall p :: p in t.disk.settled && p !in s.disk.settled ==> t.disk.settled[p].who.Some?
    decreases |run|
  {
    if run != [] {
      var (before, last) := (run[..|run| - 1], run[|run| - 1]);
      var mid := Exec(c, s, before).value;
      FoundStays(c, s, before, mid);
      if t.disk.settled != mid.disk.settled {
        InvAtStart(c, s);
        InvRun(c, s, before, mid);
        SettledStep(c, mid, last.who, last.e, t);
      }
    }
  }

  lemma FoundAndPublished(c: Config, d0: Disk, d: Disk, m: Measure, k: Key)
    requires forall p :: p in d0.settled ==> p in d.settled && d.settled[p] == d0.settled[p] && d0.settled[p].who.None?
    requires forall p :: p in d.settled && p !in d0.settled ==> d.settled[p].who.Some?
    ensures SettledTotal(c, d, m, k) == SettledTotal(c, d0, m, k) + PublishedTotal(c, d, m, k)
  {
    var later := d.settled.Keys - d0.settled.Keys;
    assert d.settled.Keys == d0.settled.Keys + later;
    SumUnion(d0.settled.Keys, later, SettledWeight(c, d, m, k));
    SumAgree(d0.settled.Keys, SettledWeight(c, d, m, k), SettledWeight(c, d0, m, k));
    SumAgree(later, SettledWeight(c, d, m, k), PublishedWeight(c, d, m, k));
    SumSupport(d.settled.Keys, later, PublishedWeight(c, d, m, k));
  }

  lemma UsageAtStart(c: Config, s: State, m: Measure, k: Key)
    requires Starts(c, s)
    ensures Usage(c, s.disk, m, k) == SettledTotal(c, s.disk, m, k)
  {
    SumAgree(s.disk.names.Keys, NameWeight(c, s.disk, m, k), SettledWeight(c, s.disk, m, k));
  }

  /** In every state of every run, each ledger shows for each identity what startup counted, plus what
      was published since, plus what the uploads in flight hold at this moment. */
  lemma {:induction false} LedgersExact(c: Config, s: State, run: seq<Act>, t: State, m: Measure, k: Key)
    requires Starts(c, s) && Exec(c, s, run) == Some(t) && Cap(c, m) > 0
    ensures Get(Book(t.books, m), k)
            == Usage(c, s.disk, m, k) + PublishedTotal(c, t.disk, m, k) + HeldTotal(c, t.workers, m, k)
  {
    InvAtStart(c, s);
    InvRun(c, s, run, t);
    FoundStays(c, s, run, t);
    FoundAndPublished(c, s.disk, t.disk, m, k);
    UsageAtStart(c, s, m, k);
  }

  /** In every state of every run the slots in flight are the requests between acquire and release:
      in all, and subject by subject, each within its limit. */
  lemma {:induction false} SlotsExact(c: Config, s: State, run: seq<Act>, t: State)
    requires Starts(c, s) && Exec(c, s, run) == Some(t)
    ensures t.books.slots.inFlight == |Open(t.workers)| <= c.total
    ensures Sum(t.books.slots.active.Keys, Entry(t.books.slots.active)) == t.books.slots.inFlight
    ensures forall subject :: subject in t.books.slots.active ==>
              1 <= t.books.slots.active[subject] == |OpenOf(t.workers, subject)| <= c.perUser
  {
    InvAtStart(c, s);
    InvRun(c, s, run, t);
    EntriesExact(c, t.books.slots, t.workers);
  }

  /** In every state of every run a new request is admitted exactly when fewer requests than the total
      are open, and fewer of its subject than each may have. */
  lemma {:induction false} AdmittedExactly(c: Config, s: State, run: seq<Act>, t: State, w: Id, user: User)
    requires Starts(c, s) && Exec(c, s, run) == Some(t) && w !in t.workers
    ensures Apply(c, t, w, Begin(user)).Some? <==>
              |Open(t.workers)| < c.total && |OpenOf(t.workers, user.subject)| < c.perUser
  {
    InvAtStart(c, s);
    InvRun(c, s, run, t);
    RefusedExactly(c, t.books.slots, t.workers, user.subject);
  }

  lemma EntriesExact(c: Config, u: Slots, ws: map<Id, Worker>)
    requires SlotsSound(c, u, ws)
    ensures forall subject :: subject in u.active ==> 1 <= u.active[subject] == |OpenOf(ws, subject)| <= c.perUser
  {
    forall subject | subject in u.active
      ensures u.active[subject] == |OpenOf(ws, subject)| <= c.perUser
    {
      assert Get(u.active, subject) == |OpenOf(ws, subject)|;
    }
  }

  // ---- what the disk holds -----------------------------------------------------------------

  /** The temporary files on disk: all of them, those not published, those whose bytes have already
      been given back, and those already published. */
  datatype Group = AllTemps | Unpublished | Returned | Twice

  predicate InGroup(g: Group, stage: Stage) {
    match g
    case AllTemps => true
    case Unpublished => !stage.Linked?
    case Returned => stage.Uncharged?
    case Twice => stage.Linked?
  }

  ghost function TempWeight(c: Config, ws: map<Id, Worker>, m: Measure, k: Key, g: Group): Id -> int {
    w => if w in ws && Protocol.Key(c, ws[w]) == k && ws[w].phase.Busy? && InGroup(g, ws[w].phase.stage)
         then Weigh(m, ws[w].phase.t.reserved) else 0
  }

  ghost function TempTotal(c: Config, ws: map<Id, Worker>, m: Measure, k: Key, g: Group): int {
    Sum(ws.Keys, TempWeight(c, ws, m, k, g))
  }

  /** A worker's names lie below its own identity's directory. */
  lemma WorkerKey(c: Config, wk: Worker)
    requires c.Valid() && WorkerSound(c, wk) && wk.phase.Busy?
    ensures KeyAt(c, wk.phase.t.at) == Some(Protocol.Key(c, wk))
    ensures forall n: Name :: KeyAt(c, wk.phase.t.dir + [n]) == Some(Protocol.Key(c, wk))
  {
    var t := wk.phase.t;
    assert t.at[0] == t.dir[0] == Base(c, wk)[0];
  }

  ghost function TempsOf(ws: map<Id, Worker>, g: Group): set<Id> {
    set w | w in ws && ws[w].phase.Busy? && InGroup(g, ws[w].phase.stage)
  }

  ghost function TempNames(ws: map<Id, Worker>, g: Group): set<Path> {
    set w | w in TempsOf(ws, g) :: AtOf(ws, w)
  }

  ghost function AtOf(ws: map<Id, Worker>, w: Id): Path {
    if w in ws && ws[w].phase.Busy? then ws[w].phase.t.at else []
  }

  /** Summing over temporary names is summing over the workers that own them. */
  lemma TempNamesTotal(c: Config, d: Disk, ws: map<Id, Worker>, m: Measure, k: Key, g: Group)
    requires c.Valid() && TempsSound(d, ws) && forall w :: w in ws ==> WorkerSound(c, ws[w])
    ensures Sum(TempNames(ws, g), NameWeight(c, d, m, k)) == TempTotal(c, ws, m, k, g)
  {
    forall w | w in TempsOf(ws, g)
      ensures TempWeight(c, ws, m, k, g)(w) == NameWeight(c, d, m, k)(AtOf(ws, w))
      ensures AtOf(ws, w) in d.temps && d.temps[AtOf(ws, w)] == w
    {
      TempWeightAt(c, d, ws, m, k, g, w);
    }
    ByOwner(ws, g, d.temps, NameWeight(c, d, m, k), TempWeight(c, ws, m, k, g));
    SumSupport(ws.Keys, TempsOf(ws, g), TempWeight(c, ws, m, k, g));
  }

  lemma ByOwner(ws: map<Id, Worker>, g: Group, owner: map<Path, Id>, f: Path -> int, h: Id -> int)
    requires forall w :: w in TempsOf(ws, g) ==> AtOf(ws, w) in owner && owner[AtOf(ws, w)] == w
    requires forall w :: w in TempsOf(ws, g) ==> h(w) == f(AtOf(ws, w))
    ensures Sum(TempNames(ws, g), f) == Sum(TempsOf(ws, g), h)
  {
    SumImage(TempsOf(ws, g), (w: Id) => AtOf(ws, w), TempNames(ws, g), f, h);
  }

  lemma TempWeightAt(c: Config, d: Disk, ws: map<Id, Worker>, m: Measure, k: Key, g: Group, w: Id)
    requires c.Valid() && TempsSound(d, ws) && w in TempsOf(ws, g) && WorkerSound(c, ws[w])
    ensures TempWeight(c, ws, m, k, g)(w) == NameWeight(c, d, m, k)(AtOf(ws, w))
    ensures AtOf(ws, w) in d.temps && d.temps[AtOf(ws, w)] == w
  {
    WorkerKey(c, ws[w]);
    assert TempSound(d, w, ws[w].phase.t, ws[w].phase.stage);
  }

  lemma NamesSplit(d: Disk, ws: map<Id, Worker>)
    requires DiskSound(d, ws)
    ensures d.settled.Keys !! TempNames(ws, AllTemps)
    ensures d.names.Keys == d.settled.Keys + TempNames(ws, AllTemps)
  {
    forall p
      ensures p in TempNames(ws, AllTemps) <==> p in d.temps
    {
      if p in d.temps {
        var w := d.temps[p];
        assert w in TempsOf(ws, AllTemps) && AtOf(ws, w) == p;
      }
    }
    forall w | w in TempsOf(ws, AllTemps)
      ensures AtOf(ws, w) in d.temps
    {
      assert TempSound(d, w, ws[w].phase.t, ws[w].phase.stage);
    }
  }

  /** At any moment, a startup walk would count what is settled plus every temporary file: it never
      undercounts what is published. */
  lemma WalkCounts(c: Config, s: State, m: Measure, k: Key)
    requires Inv(c, s)
    ensures Usage(c, s.disk, m, k) == SettledTotal(c, s.disk, m, k) + TempTotal(c, s.workers, m, k, AllTemps)
    ensures Usage(c, s.disk, m, k) >= SettledTotal(c, s.disk, m, k)
  {
    TempNamesTotal(c, s.disk, s.workers, m, k, AllTemps);
    UsageSplit(c, s.disk, s.workers, m, k);
    SumNonNegative(s.workers.Keys, TempWeight(c, s.workers, m, k, AllTemps));
  }

  lemma UsageSplit(c: Config, d: Disk, ws: map<Id, Worker>, m: Measure, k: Key)
    requires DiskSound(d, ws)
    ensures Usage(c, d, m, k)
            == SettledTotal(c, d, m, k) + Sum(TempNames(ws, AllTemps), NameWeight(c, d, m, k))
  {
    NamesSplit(d, ws);
    SumUnion(d.settled.Keys, TempNames(ws, AllTemps), NameWeight(c, d, m, k));
    SumAgree(d.settled.Keys, NameWeight(c, d, m, k), SettledWeight(c, d, m, k));
  }
}
