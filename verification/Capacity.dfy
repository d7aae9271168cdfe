/** How much of the disk an identity can occupy, at any moment of any run. */
module Capacity {
  import opened Sums
  import opened Limits
  import opened Protocol
  import opened DiskInvariant
  import opened Conservation
  import opened SlotsInvariant
  import opened Safety
  import opened Guarantees

  /** The inodes below k's directories. A file that has two names there is one inode. */
  ghost function Live(c: Config, d: Disk, k: Key): set<Ino> {
    set p | p in d.names && KeyAt(c, p) == Some(k) :: d.names[p]
  }

  ghost function InodeWeight(d: Disk, m: Measure): Ino -> int {
    i => if i in d.inodes then Weigh(m, |d.inodes[i].data|) else 0
  }

  /** What k really occupies: bytes, or inodes. */
  ghost function Occupied(c: Config, d: Disk, m: Measure, k: Key): int {
    Sum(Live(c, d, k), InodeWeight(d, m))
  }

  ghost predicate Sound(c: Config, d: Disk, ws: map<Id, Worker>) {
    c.Valid() && DiskSound(d, ws) && forall w :: w in ws ==> WorkerSound(c, ws[w])
  }

  lemma OccupiedInodes(c: Config, d: Disk, k: Key)
    requires TablesSound(d)
    ensures Occupied(c, d, ByFiles, k) == |Live(c, d, k)|
  {
    SumConstant(Live(c, d, k), InodeWeight(d, ByFiles), 1);
  }

  /** One name for every inode: the settled ones and the temporary ones not yet published. */
  ghost function Chosen(c: Config, d: Disk, ws: map<Id, Worker>, k: Key): set<Path> {
    set p | p in d.settled.Keys + TempNames(ws, Unpublished) && KeyAt(c, p) == Some(k)
  }

  lemma ChosenReach(c: Config, d: Disk, ws: map<Id, Worker>, k: Key)
    requires Sound(c, d, ws)
    ensures Chosen(c, d, ws, k) <= d.names.Keys
    ensures Live(c, d, k) == set p | p in Chosen(c, d, ws, k) :: InoAt(d, p)
  {
    forall p | p in Chosen(c, d, ws, k)
      ensures p in d.names
    {
      if p !in d.settled { UnpublishedName(d, ws, p); }
    }
    forall p | p in d.names && KeyAt(c, p) == Some(k)
      ensures exists q :: q in Chosen(c, d, ws, k) && InoAt(d, q) == d.names[p]
    {
      var q := NameChosen(c, d, ws, p, k);
    }
  }

  lemma NameChosen(c: Config, d: Disk, ws: map<Id, Worker>, p: Path, k: Key) returns (q: Path)
    requires Sound(c, d, ws) && p in d.names && KeyAt(c, p) == Some(k)
    ensures q in Chosen(c, d, ws, k) && InoAt(d, q) == d.names[p]
  {
    if p in d.settled {
      q := p;
    } else {
      q := TempStand(c, d, ws, d.temps[p], k);
    }
  }

  ghost function InoAt(d: Disk, p: Path): Ino {
    if p in d.names then d.names[p] else 0
  }

  lemma UnpublishedName(d: Disk, ws: map<Id, Worker>, p: Path)
    requires DiskSound(d, ws) && p in TempNames(ws, Unpublished)
    ensures p in d.names && p in d.temps && forall q :: q in d.settled ==> d.settled[q].ino != d.names[p]
  {
    var w :| w in TempsOf(ws, Unpublished) && AtOf(ws, w) == p;
    assert TempSound(d, w, ws[w].phase.t, ws[w].phase.stage);
  }

  /** The inode of a temporary file is reached by a chosen name of the same identity. */
  lemma TempStand(c: Config, d: Disk, ws: map<Id, Worker>, w: Id, k: Key) returns (q: Path)
    requires Sound(c, d, ws) && w in ws && ws[w].phase.Busy?
    requires KeyAt(c, ws[w].phase.t.at) == Some(k)
    ensures q in Chosen(c, d, ws, k) && InoAt(d, q) == ws[w].phase.t.ino
  {
    var (t, stage) := (ws[w].phase.t, ws[w].phase.stage);
    assert TempSound(d, w, t, stage);
    WorkerKey(c, ws[w]);
    if stage.Linked? {
      q := t.dir + [stage.name];
    } else {
      q := t.at;
      assert w in TempsOf(ws, Unpublished) && AtOf(ws, w) == t.at;
    }
  }

  lemma ChosenTotal(c: Config, d: Disk, ws: map<Id, Worker>, m: Measure, k: Key)
    requires Sound(c, d, ws)
    ensures Sum(Chosen(c, d, ws, k), NameWeight(c, d, m, k))
            == SettledTotal(c, d, m, k) + TempTotal(c, ws, m, k, Unpublished)
  {
    var temps := TempNames(ws, Unpublished);
    forall p | p in temps
      ensures p !in d.settled
    {
      UnpublishedName(d, ws, p);
    }
    SumSupport(d.settled.Keys + temps, Chosen(c, d, ws, k), NameWeight(c, d, m, k));
    SumUnion(d.settled.Keys, temps, NameWeight(c, d, m, k));
    SumAgree(d.settled.Keys, NameWeight(c, d, m, k), SettledWeight(c, d, m, k));
    TempNamesTotal(c, d, ws, m, k, Unpublished);
  }

  /** What an identity occupies is at most what is settled and what is being written for it. */
  lemma OccupiedAtMost(c: Config, d: Disk, ws: map<Id, Worker>, m: Measure, k: Key)
    requires Sound(c, d, ws)
    ensures Occupied(c, d, m, k) <= SettledTotal(c, d, m, k) + TempTotal(c, ws, m, k, Unpublished)
  {
    ChosenReach(c, d, ws, k);
    ChosenTotal(c, d, ws, m, k);
    SumImageAtMost(Chosen(c, d, ws, k), (p: Path) => InoAt(d, p), Live(c, d, k), InodeWeight(d, m),
                   NameWeight(c, d, m, k));
  }

  /** A published name shares its inode with no other settled name. */
  ghost predicate PublishedApart(d: Disk) {
    forall p, q :: p in d.settled && q in d.settled && d.settled[p].who.Some? && p != q ==>
      d.settled[p].ino != d.settled[q].ino
  }

  lemma PublishedApartStep(c: Config, s: State, w: Id, e: Event, s': State)
    requires DiskSound(s.disk, s.workers) && PublishedApart(s.disk) && Apply(c, s, w, e) == Some(s')
    ensures PublishedApart(s'.disk)
  {
    if s'.disk.settled != s.disk.settled {
      SettledStep(c, s, w, e, s');
      assert TempSound(s.disk, w, s.workers[w].phase.t, s.workers[w].phase.stage);
    }
  }

  /** Publishing gives an inode its one name, now and in every later state; only startup can find a
      file under two names. */
  lemma {:induction false} PublishedApartRun(c: Config, s: State, run: seq<Act>, t: State)
    requires Starts(c, s) && Exec(c, s, run) == Some(t)
    ensures PublishedApart(t.disk)
    decreases |run|
  {
    if run != [] {
      var (before, last) := (run[..|run| - 1], run[|run| - 1]);
      var mid := Exec(c, s, before).value;
      PublishedApartRun(c, s, before, mid);
      InvAtStart(c, s);
      InvRun(c, s, before, mid);
      PublishedApartStep(c, mid, last.who, last.e, t);
    }
  }

  /** The chosen names that were not found at startup. */
  ghost function Later(c: Config, d0: Disk, d: Disk, ws: map<Id, Worker>, k: Key): set<Path> {
    set p | p in (d.settled.Keys - d0.settled.Keys) + TempNames(ws, Unpublished) && KeyAt(c, p) == Some(k)
  }

  /** From d0, a disk found at startup, to d: what was found stands, and what came later is published. */
  ghost predicate Since(d0: Disk, d: Disk) {
    && d0.names.Keys == d0.settled.Keys && TablesSound(d0) && PublishedApart(d)
    && (forall p :: p in d0.settled ==> p in d.settled && d.settled[p] == d0.settled[p] && d0.settled[p].who.None?)
    && (forall p :: p in d.settled && p !in d0.settled ==> d.settled[p].who.Some?)
  }

  lemma LaterTotal(c: Config, d0: Disk, d: Disk, ws: map<Id, Worker>, m: Measure, k: Key)
    requires Sound(c, d, ws) && Since(d0, d)
    ensures Sum(Later(c, d0, d, ws, k), NameWeight(c, d, m, k))
            == PublishedTotal(c, d, m, k) + TempTotal(c, ws, m, k, Unpublished)
  {
    var (temps, published) := (TempNames(ws, Unpublished), d.settled.Keys - d0.settled.Keys);
    forall p | p in temps
      ensures p !in d.settled
    {
      UnpublishedName(d, ws, p);
    }
    SumSupport(published + temps, Later(c, d0, d, ws, k), NameWeight(c, d, m, k));
    SumUnion(published, temps, NameWeight(c, d, m, k));
    SumAgree(published, NameWeight(c, d, m, k), PublishedWeight(c, d, m, k));
    SumSupport(d.settled.Keys, published, PublishedWeight(c, d, m, k));
    TempNamesTotal(c, d, ws, m, k, Unpublished);
  }

  lemma LaterDistinct(c: Config, d0: Disk, d: Disk, ws: map<Id, Worker>, k: Key, p: Path, q: Path)
    requires Sound(c, d, ws) && Since(d0, d)
    requires p in Later(c, d0, d, ws, k) && (q in Later(c, d0, d, ws, k) || q in d0.settled)
    requires InoAt(d, p) == InoAt(d, q)
    ensures p == q && p in d.names
  {
    if p !in d.settled { UnpublishedName(d, ws, p); }
    if q !in d.settled { UnpublishedName(d, ws, q); }
  }

  ghost function LaterInodes(c: Config, d0: Disk, d: Disk, ws: map<Id, Worker>, k: Key): set<Ino> {
    set p | p in Later(c, d0, d, ws, k) :: InoAt(d, p)
  }

  /** What is live is what was found and, apart from that, what came later. */
  lemma LiveSplit(c: Config, d0: Disk, d: Disk, ws: map<Id, Worker>, k: Key)
    requires Sound(c, d, ws) && Since(d0, d)
    ensures Live(c, d, k) == Live(c, d0, k) + LaterInodes(c, d0, d, ws, k)
    ensures Live(c, d0, k) !! LaterInodes(c, d0, d, ws, k)
  {
    ChosenReach(c, d, ws, k);
    forall p | p in d0.settled
      ensures p in d0.names && InoAt(d, p) == d0.names[p]
    {
    }
    forall i | i in Live(c, d0, k)
      ensures i in Live(c, d, k) && i !in LaterInodes(c, d0, d, ws, k)
    {
      var q :| q in d0.names && KeyAt(c, q) == Some(k) && d0.names[q] == i;
      assert q in Chosen(c, d, ws, k) && InoAt(d, q) == i;
      NotLater(c, d0, d, ws, k, q);
    }
    forall p | p in Chosen(c, d, ws, k)
      ensures InoAt(d, p) in Live(c, d0, k) + LaterInodes(c, d0, d, ws, k)
    {
      if p in d0.settled {
        assert d0.names[p] in Live(c, d0, k);
      } else {
        assert p in Later(c, d0, d, ws, k);
      }
    }
    assert Later(c, d0, d, ws, k) <= Chosen(c, d, ws, k);
  }

  lemma NotLater(c: Config, d0: Disk, d: Disk, ws: map<Id, Worker>, k: Key, q: Path)
    requires Sound(c, d, ws) && Since(d0, d) && q in d0.settled
    ensures InoAt(d, q) !in LaterInodes(c, d0, d, ws, k)
  {
    forall p | p in Later(c, d0, d, ws, k)
      ensures InoAt(d, p) != InoAt(d, q)
    {
      if InoAt(d, p) == InoAt(d, q) {
        LaterDistinct(c, d0, d, ws, k, p, q);
        if p !in d.settled { UnpublishedName(d, ws, p); }
      }
    }
  }

  lemma FoundWeighs(c: Config, d0: Disk, d: Disk, ws: map<Id, Worker>, m: Measure, k: Key)
    requires Sound(c, d, ws) && Since(d0, d)
    ensures Sum(Live(c, d0, k), InodeWeight(d, m)) == Occupied(c, d0, m, k)
  {
    forall i | i in Live(c, d0, k)
      ensures InodeWeight(d, m)(i) == InodeWeight(d0, m)(i)
    {
      var q :| q in d0.names && KeyAt(c, q) == Some(k) && d0.names[q] == i;
      assert d.settled[q] == d0.settled[q] && d.names[q] == i;
    }
    SumAgree(Live(c, d0, k), InodeWeight(d, m), InodeWeight(d0, m));
  }

  lemma OccupiedSplit(c: Config, d0: Disk, d: Disk, ws: map<Id, Worker>, m: Measure, k: Key)
    requires Sound(c, d, ws) && Since(d0, d)
    ensures Occupied(c, d, m, k)
            == Occupied(c, d0, m, k) + PublishedTotal(c, d, m, k) + TempTotal(c, ws, m, k, Unpublished)
  {
    var later := Later(c, d0, d, ws, k);
    LiveSplit(c, d0, d, ws, k);
    SumUnion(Live(c, d0, k), LaterInodes(c, d0, d, ws, k), InodeWeight(d, m));
    FoundWeighs(c, d0, d, ws, m, k);
    forall p, q | p in later && q in later && InoAt(d, p) == InoAt(d, q)
      ensures p == q
    {
      LaterDistinct(c, d0, d, ws, k, p, q);
    }
    LaterWeighs(c, d0, d, ws, m, k);
    SumImage(later, (p: Path) => InoAt(d, p), LaterInodes(c, d0, d, ws, k), InodeWeight(d, m), NameWeight(c, d, m, k));
    LaterTotal(c, d0, d, ws, m, k);
  }

  lemma LaterWeighs(c: Config, d0: Disk, d: Disk, ws: map<Id, Worker>, m: Measure, k: Key)
    requires Sound(c, d, ws) && Since(d0, d)
    ensures forall p :: p in Later(c, d0, d, ws, k) ==> NameWeight(c, d, m, k)(p) == InodeWeight(d, m)(InoAt(d, p))
  {
    forall p | p in Later(c, d0, d, ws, k)
      ensures NameWeight(c, d, m, k)(p) == InodeWeight(d, m)(InoAt(d, p))
    {
      LaterDistinct(c, d0, d, ws, k, p, p);
    }
  }

  lemma {:induction false} SinceStart(c: Config, s: State, run: seq<Act>, t: State)
    requires Starts(c, s) && Exec(c, s, run) == Some(t)
    ensures Inv(c, t) && Since(s.disk, t.disk)
  {
    InvAtStart(c, s);
    InvRun(c, s, run, t);
    FoundStays(c, s, run, t);
    PublishedApartRun(c, s, run, t);
  }

  /** In every state of every run an identity occupies what it occupied at startup, what was published
      since, and its temporary files that are not published yet. */
  lemma {:induction false} OccupiedExactly(c: Config, s: State, run: seq<Act>, t: State, m: Measure, k: Key)
    requires Starts(c, s) && Exec(c, s, run) == Some(t)
    ensures Occupied(c, t.disk, m, k)
            == Occupied(c, s.disk, m, k) + PublishedTotal(c, t.disk, m, k) + TempTotal(c, t.workers, m, k, Unpublished)
  {
    SinceStart(c, s, run, t);
    OccupiedSplit(c, s.disk, t.disk, t.workers, m, k);
  }

  /** What startup counts more than once: a file that a crash has left under two names. */
  ghost function Surplus(c: Config, d: Disk, m: Measure, k: Key): int {
    Usage(c, d, m, k) - Occupied(c, d, m, k)
  }

  /** Counting names never counts too little, and counts exactly when no inode has two of them. */
  lemma SurplusCounts(c: Config, d: Disk, m: Measure, k: Key)
    requires forall p :: p in d.names ==> d.names[p] in d.inodes
    ensures 0 <= Surplus(c, d, m, k)
    ensures (forall p, q :: p in d.names && q in d.names && d.names[p] == d.names[q] ==> p == q) ==>
              Surplus(c, d, m, k) == 0
  {
    var mine := set p | p in d.names && KeyAt(c, p) == Some(k);
    SumSupport(d.names.Keys, mine, NameWeight(c, d, m, k));
    var image := set p | p in mine :: InoAt(d, p);
    forall i | i in Live(c, d, k)
      ensures i in image
    {
      var p :| p in d.names && KeyAt(c, p) == Some(k) && d.names[p] == i;
      assert p in mine && InoAt(d, p) == i;
    }
    assert image <= Live(c, d, k);
    SumImageAtMost(mine, (p: Path) => InoAt(d, p), Live(c, d, k), InodeWeight(d, m), NameWeight(c, d, m, k));
    if forall p, q :: p in d.names && q in d.names && d.names[p] == d.names[q] ==> p == q {
      SumImage(mine, (p: Path) => InoAt(d, p), Live(c, d, k), InodeWeight(d, m), NameWeight(c, d, m, k));
    }
  }

  // ---- bounds ------------------------------------------------------------------------------

  lemma LedgerStep(c: Config, s: State, w: Id, e: Event, s': State, m: Measure, k: Key, bound: int)
    requires Apply(c, s, w, e) == Some(s') && Cap(c, m) > 0
    requires Cap(c, m) <= bound && Get(Book(s.books, m), k) <= bound
    ensures Get(Book(s'.books, m), k) <= bound
  {
  }

  /** A ledger never shows more than its limit, or than startup found if that was already more. */
  lemma {:induction false} LedgerBound(c: Config, s: State, run: seq<Act>, t: State, m: Measure, k: Key, bound: int)
    requires Exec(c, s, run) == Some(t) && Cap(c, m) > 0
    requires Cap(c, m) <= bound && Get(Book(s.books, m), k) <= bound
    ensures Get(Book(t.books, m), k) <= bound
    decreases |run|
  {
    if run != [] {
      var (before, last) := (run[..|run| - 1], run[|run| - 1]);
      var mid := Exec(c, s, before).value;
      LedgerBound(c, s, before, mid, m, k, bound);
      LedgerStep(c, mid, last.who, last.e, t, m, k, bound);
    }
  }

  function Max(a: int, b: int): int { if a < b then b else a }

  /** What is on disk unpublished is held, except the bytes already given back. */
  lemma UnpublishedIsHeld(c: Config, ws: map<Id, Worker>, m: Measure, k: Key)
    ensures TempTotal(c, ws, m, k, Unpublished)
            <= HeldTotal(c, ws, m, k) + if m.ByBytes? then TempTotal(c, ws, m, k, Returned) else 0
  {
    var held, back := HeldWeight(c, ws, m, k), TempWeight(c, ws, m, k, Returned);
    if m.ByBytes? {
      var both := (w: Id) => held(w) + back(w);
      SumAtMost(ws.Keys, TempWeight(c, ws, m, k, Unpublished), both);
      SumAdd(ws.Keys, held, back, both);
    } else {
      SumAtMost(ws.Keys, TempWeight(c, ws, m, k, Unpublished), held);
    }
  }

  /** A file slot is held from before a temporary file is made until after it is gone, so at every
      step k's inodes are at most its file ledger, which is at most the larger of the limit and what
      startup counted. */
  lemma {:induction false} FileSlotsCoverInodes(c: Config, s: State, run: seq<Act>, t: State, k: Key)
    requires Starts(c, s) && Exec(c, s, run) == Some(t) && c.maxFiles > 0
    ensures |Live(c, t.disk, k)| <= Get(t.books.files, k) <= Max(c.maxFiles, Usage(c, s.disk, ByFiles, k))
  {
    InvAtStart(c, s);
    InvRun(c, s, run, t);
    FilesCovered(c, t, k);
    assert Get(Book(s.books, ByFiles), k) == Usage(c, s.disk, ByFiles, k);
    LedgerBound(c, s, run, t, ByFiles, k, Max(c.maxFiles, Usage(c, s.disk, ByFiles, k)));
  }

  lemma FilesCovered(c: Config, t: State, k: Key)
    requires Sound(c, t.disk, t.workers) && Balanced(c, t) && c.maxFiles > 0
    ensures |Live(c, t.disk, k)| <= Get(t.books.files, k)
  {
    OccupiedAtMost(c, t.disk, t.workers, ByFiles, k);
    OccupiedInodes(c, t.disk, k);
    UnpublishedIsHeld(c, t.workers, ByFiles, k);
    assert Get(Book(t.books, ByFiles), k) == SettledTotal(c, t.disk, ByFiles, k) + HeldTotal(c, t.workers, ByFiles, k);
  }

  /** The byte ledger can lag behind the disk, by the temporary files whose bytes the unwinding has
      given back and which it has not removed yet, and by nothing else. */
  lemma BytesLag(c: Config, t: State, k: Key)
    requires Sound(c, t.disk, t.workers) && Balanced(c, t) && c.maxBytes > 0
    ensures Occupied(c, t.disk, ByBytes, k) <= Get(t.books.bytes, k) + TempTotal(c, t.workers, ByBytes, k, Returned)
    ensures SettledTotal(c, t.disk, ByBytes, k) <= Get(t.books.bytes, k)
  {
    OccupiedAtMost(c, t.disk, t.workers, ByBytes, k);
    assert Get(Book(t.books, ByBytes), k) == SettledTotal(c, t.disk, ByBytes, k) + HeldTotal(c, t.workers, ByBytes, k);
    SumNonNegative(t.workers.Keys, HeldWeight(c, t.workers, ByBytes, k));
    UnpublishedIsHeld(c, t.workers, ByBytes, k);
  }

  ghost function PendingWeight(c: Config, ws: map<Id, Worker>, k: Key): Id -> int {
    w => if w in ws && Protocol.Key(c, ws[w]) == k && ws[w].phase.Busy? then Pending(ws[w].phase.stage) else 0
  }

  /** What is charged and not yet written. */
  ghost function PendingTotal(c: Config, ws: map<Id, Worker>, k: Key): int {
    Sum(ws.Keys, PendingWeight(c, ws, k))
  }

  lemma UnpublishedExactly(c: Config, ws: map<Id, Worker>, k: Key)
    requires forall w :: w in ws ==> WorkerSound(c, ws[w])
    ensures TempTotal(c, ws, ByBytes, k, Unpublished) + PendingTotal(c, ws, k)
            == HeldTotal(c, ws, ByBytes, k) + TempTotal(c, ws, ByBytes, k, Returned)
  {
    var both := (w: Id) => HeldWeight(c, ws, ByBytes, k)(w) + TempWeight(c, ws, ByBytes, k, Returned)(w);
    SumAdd(ws.Keys, HeldWeight(c, ws, ByBytes, k), TempWeight(c, ws, ByBytes, k, Returned), both);
    SumAdd(ws.Keys, TempWeight(c, ws, ByBytes, k, Unpublished), PendingWeight(c, ws, k), both);
  }

  /** Exactly: in every state of every run the disk holds more for k than its ledger shows if and only
      if the unwinding has given back more than is charged and not yet written and was counted twice
      at startup. */
  lemma {:induction false} BytesLagExactly(c: Config, s: State, run: seq<Act>, t: State, k: Key)
    requires Starts(c, s) && Exec(c, s, run) == Some(t) && c.maxBytes > 0
    ensures Occupied(c, t.disk, ByBytes, k) + PendingTotal(c, t.workers, k) + Surplus(c, s.disk, ByBytes, k)
            == Get(t.books.bytes, k) + TempTotal(c, t.workers, ByBytes, k, Returned)
    ensures Occupied(c, t.disk, ByBytes, k) <= Get(t.books.bytes, k)
            <==> TempTotal(c, t.workers, ByBytes, k, Returned)
                 <= PendingTotal(c, t.workers, k) + Surplus(c, s.disk, ByBytes, k)
  {
    OccupiedExactly(c, s, run, t, ByBytes, k);
    LedgersExact(c, s, run, t, ByBytes, k);
    InvAtStart(c, s);
    InvRun(c, s, run, t);
    UnpublishedExactly(c, t.workers, k);
  }

  lemma {:induction false} SumAdd(ids: set<Id>, f: Id -> int, g: Id -> int, h: Id -> int)
    requires forall w :: w in ids ==> h(w) == f(w) + g(w)
    ensures Sum(ids, h) == Sum(ids, f) + Sum(ids, g)
    decreases ids
  {
    if ids != {} {
      var w :| w in ids;
      SumRemove(ids, w, f);
      SumRemove(ids, w, g);
      SumRemove(ids, w, h);
      SumAdd(ids - {w}, f, g, h);
    }
  }

  /** k is the key of one subject only. */
  ghost predicate OneSubject(c: Config, k: Key, subject: Subject) {
    forall other: Subject :: c.key(other) == k ==> other == subject
  }

  /** At most perUser temporary files of one subject exist at a time, each of at most one byte more
      than a file may have. */
  lemma ReturnedAtMost(c: Config, ws: map<Id, Worker>, k: Key, subject: Subject)
    requires c.maxFileBytes > 0 && OneSubject(c, k, subject)
    requires |OpenOf(ws, subject)| <= c.perUser && forall w :: w in ws ==> WorkerSound(c, ws[w])
    ensures TempTotal(c, ws, ByBytes, k, Returned) <= c.perUser * (c.maxFileBytes + 1)
  {
    var ids, size := OpenOf(ws, subject), TempWeight(c, ws, ByBytes, k, Returned);
    forall w | w in ws.Keys - ids
      ensures size(w) == 0
    {
    }
    SumSupport(ws.Keys, ids, size);
    var most := (w: Id) => c.maxFileBytes + 1;
    forall w | w in ids
      ensures size(w) <= most(w)
    {
      assert WorkerSound(c, ws[w]);
    }
    SumAtMost(ids, size, most);
    SumConstant(ids, most, c.maxFileBytes + 1);
    AtMostTimes(|ids|, c.perUser, c.maxFileBytes + 1);
  }

  lemma AtMostTimes(a: nat, b: nat, n: nat)
    requires a <= b
    ensures a * n <= b * n
  {
  }

  /** The physical bound: what the quota promises, and what the slots allow to be in the act of
      being removed. Published files alone stay within what the quota promises. */
  lemma {:induction false} BytesOnDisk(c: Config, s: State, run: seq<Act>, t: State, k: Key, subject: Subject)
    requires Starts(c, s) && Exec(c, s, run) == Some(t)
    requires c.maxBytes > 0 && c.maxFileBytes > 0 && OneSubject(c, k, subject)
    ensures SettledTotal(c, t.disk, ByBytes, k) <= Max(c.maxBytes, Usage(c, s.disk, ByBytes, k))
    ensures Occupied(c, t.disk, ByBytes, k)
            <= Max(c.maxBytes, Usage(c, s.disk, ByBytes, k)) + c.perUser * (c.maxFileBytes + 1)
  {
    InvAtStart(c, s);
    InvRun(c, s, run, t);
    assert Get(Book(s.books, ByBytes), k) == Usage(c, s.disk, ByBytes, k);
    LedgerBound(c, s, run, t, ByBytes, k, Max(c.maxBytes, Usage(c, s.disk, ByBytes, k)));
    BytesNow(c, t, k, subject);
  }

  lemma BytesNow(c: Config, t: State, k: Key, subject: Subject)
    requires Inv(c, t) && c.maxFileBytes > 0 && c.maxBytes > 0 && OneSubject(c, k, subject)
    ensures SettledTotal(c, t.disk, ByBytes, k) <= Get(t.books.bytes, k)
    ensures Occupied(c, t.disk, ByBytes, k) <= Get(t.books.bytes, k) + c.perUser * (c.maxFileBytes + 1)
  {
    BytesLag(c, t, k);
    assert Get(t.books.slots.active, subject) == |OpenOf(t.workers, subject)| <= c.perUser;
    ReturnedAtMost(c, t.workers, k, subject);
  }
}
