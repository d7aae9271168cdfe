/** When the disk itself, and not only the ledger, keeps to the byte quota: the configurations in which
    no upload can be charged while another of its identity has given its bytes back and not yet removed
    its file (internal/dumpbox/server.go:447-470). */
module Containment {
  import opened Sums
  import opened Limits
  import opened Protocol
  import opened DiskInvariant
  import opened Conservation
  import opened Safety
  import opened Guarantees
  import opened Capacity
  import opened Runs
  import opened Room

  /** One upload at a time; or one file; or two files, and even two that are too large fit together. */
  predicate Cautious(c: Config) {
    || c.perUser == 1 || c.maxFiles == 1
    || (c.maxFiles == 2 && c.maxFileBytes > 0 && 2 * (c.maxFileBytes + 1) <= c.maxBytes)
  }

  /** What the ledger shows and what has been given back and is still on disk. */
  ghost function Exposure(c: Config, s: State, k: Key): int {
    Get(s.books.bytes, k) + TempTotal(c, s.workers, ByBytes, k, Returned)
  }

  /** What a worker has given back and not yet removed. */
  function Left(phase: Phase): nat {
    if phase.Busy? && phase.stage.Uncharged? then phase.t.reserved else 0
  }

  predicate Charging(wk: Worker, e: Event) {
    wk.phase.Busy? && wk.phase.stage.Writing? && e.Charge?
  }

  lemma LeftChange(c: Config, ws: map<Id, Worker>, w: Id, wk: Worker, k: Key)
    requires w in ws && wk.user == ws[w].user
    ensures TempTotal(c, ws[w := wk], ByBytes, k, Returned)
            == TempTotal(c, ws, ByBytes, k, Returned)
               + if Protocol.Key(c, wk) == k then Left(wk.phase) - Left(ws[w].phase) else 0
  {
    var ws' := ws[w := wk];
    assert ws'.Keys == ws.Keys;
    SumChange(ws.Keys, w, TempWeight(c, ws, ByBytes, k, Returned), TempWeight(c, ws', ByBytes, k, Returned));
  }

  lemma LeftBegin(c: Config, ws: map<Id, Worker>, w: Id, wk: Worker, k: Key)
    requires w !in ws && wk.phase.Ready?
    ensures TempTotal(c, ws[w := wk], ByBytes, k, Returned) == TempTotal(c, ws, ByBytes, k, Returned)
  {
    var ws' := ws[w := wk];
    assert ws'.Keys == ws.Keys + {w};
    SumInsert(ws.Keys, w, TempWeight(c, ws, ByBytes, k, Returned), TempWeight(c, ws', ByBytes, k, Returned));
  }

  /** What a worker holds or has left behind grows by a charge and by nothing else. */
  lemma LeftOnBooks(c: Config, b: Books, wk: Worker, e: Event)
    requires BooksStep(c, b, wk, e).Some?
    ensures var phase := BooksStep(c, b, wk, e).value.1;
            Charging(wk, e) || Held(ByBytes, phase) + Left(phase) <= Held(ByBytes, wk.phase) + Left(wk.phase)
  {
  }

  lemma LeftOnDisk(c: Config, d: Disk, w: Id, wk: Worker, e: Event)
    requires DiskStep(c, d, w, wk, e).Some?
    ensures DiskStep(c, d, w, wk, e).value.1.user == wk.user
    ensures Left(DiskStep(c, d, w, wk, e).value.1.phase) <= Left(wk.phase)
  {
  }

  /** No step but a charge for the identity raises its exposure. */
  lemma ExposureStep(c: Config, s: State, w: Id, e: Event, s': State, k: Key)
    requires Balanced(c, s) && c.maxBytes > 0 && Apply(c, s, w, e) == Some(s')
    ensures || Exposure(c, s', k) <= Exposure(c, s, k)
            || (w in s.workers && Protocol.Key(c, s.workers[w]) == k && Charging(s.workers[w], e))
  {
    if e.Begin? {
      LeftBegin(c, s.workers, w, s'.workers[w], k);
    } else if OnBooks(e) {
      HeldCovered(c, s, w, ByBytes);
      LedgerMoves(c, s.books, s.workers[w], e, ByBytes, k);
      LeftOnBooks(c, s.books, s.workers[w], e);
      LeftChange(c, s.workers, w, s'.workers[w], k);
    } else {
      LeftOnDisk(c, s.disk, w, s.workers[w], e);
      LeftChange(c, s.workers, w, s'.workers[w], k);
    }
  }

  lemma NothingLeft(c: Config, ws: map<Id, Worker>, k: Key)
    requires forall v :: v in ws && Protocol.Key(c, ws[v]) == k ==> Left(ws[v].phase) == 0
    ensures TempTotal(c, ws, ByBytes, k, Returned) == 0
  {
    SumConstant(ws.Keys, TempWeight(c, ws, ByBytes, k, Returned), 0);
  }

  /** After a charge: either it was refused, or the ledger is within the limit and w is not unwinding. */
  lemma ChargeFits(c: Config, s: State, w: Id, e: Event, s': State)
    requires w in s.workers && Charging(s.workers[w], e) && Apply(c, s, w, e) == Some(s') && c.maxBytes > 0
    ensures w in s'.workers && s'.workers == s.workers[w := s'.workers[w]] && s'.workers[w].user == s.workers[w].user
    ensures Left(s'.workers[w].phase) == 0 && Left(s.workers[w].phase) == 0 && Held(ByFiles, s'.workers[w].phase) == 1
    ensures s'.books.bytes == s.books.bytes || Get(s'.books.bytes, Protocol.Key(c, s.workers[w])) <= c.maxBytes
  {
  }

  // ---- file slots -----------------------------------------------------------------------------------

  /** Whoever holds a file slot got it when there was one. */
  ghost predicate SlotsTell(c: Config, s: State, k: Key) {
    forall v :: v in s.workers && Protocol.Key(c, s.workers[v]) == k && Held(ByFiles, s.workers[v].phase) > 0 ==>
      Get(s.books.files, k) <= c.maxFiles
  }

  lemma SlotsTellOnBooks(c: Config, b: Books, wk: Worker, e: Event, k: Key)
    requires BooksStep(c, b, wk, e).Some? && c.maxFiles > 0
    requires Protocol.Key(c, wk) == k && Held(ByFiles, wk.phase) > 0 ==> Get(b.files, k) <= c.maxFiles
    ensures var (b', phase) := BooksStep(c, b, wk, e).value;
            && (Get(b'.files, k) <= c.maxFiles || Get(b'.files, k) <= Get(b.files, k))
            && (Protocol.Key(c, wk) == k && Held(ByFiles, phase) > 0 ==> Get(b'.files, k) <= c.maxFiles)
  {
  }

  lemma SlotsTellOnDisk(c: Config, d: Disk, w: Id, wk: Worker, e: Event)
    requires DiskStep(c, d, w, wk, e).Some?
    ensures DiskStep(c, d, w, wk, e).value.1.user == wk.user
    ensures Held(ByFiles, DiskStep(c, d, w, wk, e).value.1.phase) > 0 ==> Held(ByFiles, wk.phase) > 0
  {
  }

  lemma SlotsTellStep(c: Config, s: State, w: Id, e: Event, s': State, k: Key)
    requires SlotsTell(c, s, k) && Apply(c, s, w, e) == Some(s') && c.maxFiles > 0
    ensures SlotsTell(c, s', k)
  {
    OneWorkerMoves(c, s, w, e, s');
    if !e.Begin? {
      if OnBooks(e) {
        SlotsTellOnBooks(c, s.books, s.workers[w], e, k);
      } else {
        SlotsTellOnDisk(c, s.disk, w, s.workers[w], e);
      }
    }
  }

  lemma {:induction false} SlotsTellRun(c: Config, s: State, run: seq<Act>, t: State, k: Key)
    requires Starts(c, s) && Exec(c, s, run) == Some(t) && c.maxFiles > 0
    ensures SlotsTell(c, t, k)
    decreases |run|
  {
    if run != [] {
      var (before, last) := (run[..|run| - 1], run[|run| - 1]);
      var mid := Exec(c, s, before).value;
      SlotsTellRun(c, s, before, mid, k);
      SlotsTellStep(c, mid, last.who, last.e, t, k);
    }
  }

  /** Two of one identity hold two slots. */
  lemma TwoHold(c: Config, ws: map<Id, Worker>, v: Id, w: Id, k: Key)
    requires v in ws && w in ws && v != w && Protocol.Key(c, ws[v]) == k && Protocol.Key(c, ws[w]) == k
    ensures HeldTotal(c, ws, ByFiles, k) >= Held(ByFiles, ws[v].phase) + Held(ByFiles, ws[w].phase)
  {
    SumRemove(ws.Keys, v, HeldWeight(c, ws, ByFiles, k));
    SumRemove(ws.Keys - {v}, w, HeldWeight(c, ws, ByFiles, k));
    SumNonNegative(ws.Keys - {v} - {w}, HeldWeight(c, ws, ByFiles, k));
  }

  lemma OneEach(c: Config, wk: Worker)
    requires c.maxFileBytes > 0 && WorkerSound(c, wk)
    ensures Held(ByFiles, wk.phase) == 0 || Held(ByFiles, wk.phase) == 1
    ensures Held(ByBytes, wk.phase) + Left(wk.phase) <= if Held(ByFiles, wk.phase) == 0 then 0 else c.maxFileBytes + 1
  {
  }

  lemma OneEachWeighted(c: Config, ws: map<Id, Worker>, k: Key, v: Id)
    requires c.maxFileBytes > 0 && v in ws && WorkerSound(c, ws[v])
    ensures HeldWeight(c, ws, ByBytes, k)(v) + TempWeight(c, ws, ByBytes, k, Returned)(v)
            <= HeldWeight(c, ws, ByFiles, k)(v) * (c.maxFileBytes + 1)
  {
    OneEach(c, ws[v]);
    var n := HeldWeight(c, ws, ByFiles, k)(v);
    assert n == 0 || n == 1;
    assert n * (c.maxFileBytes + 1) == if n == 0 then 0 else c.maxFileBytes + 1;
  }

  /** What is held or left behind is at most one file too large for each slot. */
  lemma AtMostOneEach(c: Config, ws: map<Id, Worker>, k: Key)
    requires c.maxFileBytes > 0 && forall v :: v in ws ==> WorkerSound(c, ws[v])
    ensures HeldTotal(c, ws, ByBytes, k) + TempTotal(c, ws, ByBytes, k, Returned)
            <= HeldTotal(c, ws, ByFiles, k) * (c.maxFileBytes + 1)
  {
    var (held, left) := (HeldWeight(c, ws, ByBytes, k), TempWeight(c, ws, ByBytes, k, Returned));
    var both := (v: Id) => held(v) + left(v);
    SumAdd(ws.Keys, held, left, both);
    var most := (v: Id) => HeldWeight(c, ws, ByFiles, k)(v) * (c.maxFileBytes + 1);
    forall v | v in ws
      ensures both(v) <= most(v)
    {
      OneEachWeighted(c, ws, k, v);
    }
    SumAtMost(ws.Keys, both, most);
    SumScaled(ws.Keys, HeldWeight(c, ws, ByFiles, k), c.maxFileBytes + 1, most);
  }

  lemma {:induction false} SumScaled(ids: set<Id>, f: Id -> int, n: int, g: Id -> int)
    requires forall v :: v in ids ==> g(v) == f(v) * n
    ensures Sum(ids, g) == Sum(ids, f) * n
    decreases ids
  {
    if ids != {} {
      var v :| v in ids;
      SumRemove(ids, v, f);
      SumRemove(ids, v, g);
      SumScaled(ids - {v}, f, n, g);
    }
  }

  /** No settled files, no settled bytes. */
  lemma NoFilesNoBytes(c: Config, d: Disk, k: Key)
    requires SettledTotal(c, d, ByFiles, k) == 0
    ensures SettledTotal(c, d, ByBytes, k) == 0
  {
    forall p | p in d.settled
      ensures SettledWeight(c, d, ByBytes, k)(p) == 0
    {
      SumMember(d.settled.Keys, p, SettledWeight(c, d, ByFiles, k));
    }
    SumConstant(d.settled.Keys, SettledWeight(c, d, ByBytes, k), 0);
  }

  // ---- the bound ------------------------------------------------------------------------------------

  lemma AloneLeavesNothing(c: Config, t: State, w: Id, k: Key, subject: Subject)
    requires Inv(c, t) && c.perUser == 1 && AtWork(t, w) && Protocol.Key(c, t.workers[w]) == k
    requires OneSubject(c, k, subject) && Left(t.workers[w].phase) == 0
    ensures TempTotal(c, t.workers, ByBytes, k, Returned) == 0
  {
    OnlyOneOpen(c, t, w);
    NothingLeft(c, t.workers, k);
  }

  /** The only one with a slot. */
  lemma SoleHolder(c: Config, t: State, w: Id, k: Key)
    requires w in t.workers && Protocol.Key(c, t.workers[w]) == k && HeldTotal(c, t.workers, ByFiles, k) <= 1
    requires Held(ByFiles, t.workers[w].phase) == 1 && Left(t.workers[w].phase) == 0
    ensures TempTotal(c, t.workers, ByBytes, k, Returned) == 0
  {
    forall v | v in t.workers && Protocol.Key(c, t.workers[v]) == k
      ensures Left(t.workers[v].phase) == 0
    {
      if v != w {
        TwoHold(c, t.workers, v, w, k);
      }
    }
    NothingLeft(c, t.workers, k);
  }

  /** Two with slots, and no room for anything else. */
  lemma TwoHolders(c: Config, t: State, k: Key)
    requires Inv(c, t) && c.maxBytes > 0 && c.maxFileBytes > 0
    requires SettledTotal(c, t.disk, ByFiles, k) == 0 && HeldTotal(c, t.workers, ByFiles, k) == 2
    ensures Exposure(c, t, k) <= 2 * (c.maxFileBytes + 1)
  {
    NoFilesNoBytes(c, t.disk, k);
    AtMostOneEach(c, t.workers, k);
    BalancedAt(c, t, ByBytes, k);
  }

  /** After a charge in a cautious configuration the exposure is within the limit. */
  lemma CautiousCharge(c: Config, t: State, w: Id, k: Key, subject: Subject)
    requires Inv(c, t) && c.maxBytes > 0 && Cautious(c) && OneSubject(c, k, subject)
    requires c.maxFiles > 0 ==> SlotsTell(c, t, k)
    requires AtWork(t, w) && Protocol.Key(c, t.workers[w]) == k && Left(t.workers[w].phase) == 0
    requires Held(ByFiles, t.workers[w].phase) == 1 && Get(t.books.bytes, k) <= c.maxBytes
    ensures Exposure(c, t, k) <= c.maxBytes
  {
    if c.perUser == 1 {
      AloneLeavesNothing(c, t, w, k, subject);
    } else {
      BalancedAt(c, t, ByFiles, k);
      SumNonNegative(t.disk.settled.Keys, SettledWeight(c, t.disk, ByFiles, k));
      if HeldTotal(c, t.workers, ByFiles, k) <= 1 {
        SoleHolder(c, t, w, k);
      } else {
        TwoHolders(c, t, k);
      }
    }
  }

  lemma {:induction false} CautiousStep(c: Config, s: State, w: Id, e: Event, t: State, k: Key, subject: Subject,
                                        bound: int)
    requires Inv(c, s) && Inv(c, t) && Apply(c, s, w, e) == Some(t) && c.maxBytes <= bound
    requires c.maxBytes > 0 && Cautious(c) && OneSubject(c, k, subject) && (c.maxFiles > 0 ==> SlotsTell(c, t, k))
    requires Exposure(c, s, k) <= bound
    ensures Exposure(c, t, k) <= bound
  {
    ExposureStep(c, s, w, e, t, k);
    if Exposure(c, t, k) > Exposure(c, s, k) {
      ChargeFits(c, s, w, e, t);
      LeftChange(c, s.workers, w, t.workers[w], k);
      CautiousCharge(c, t, w, k, subject);
    }
  }

  lemma {:induction false} CautiousRun(c: Config, s: State, run: seq<Act>, t: State, k: Key, subject: Subject)
    requires Starts(c, s) && Exec(c, s, run) == Some(t)
    requires c.maxBytes > 0 && Cautious(c) && OneSubject(c, k, subject)
    ensures Exposure(c, t, k) <= Max(c.maxBytes, Usage(c, s.disk, ByBytes, k))
    decreases |run|
  {
    if run != [] {
      var (before, last) := (run[..|run| - 1], run[|run| - 1]);
      var mid := Exec(c, s, before).value;
      CautiousRun(c, s, before, mid, k, subject);
      Reached(c, s, before, mid);
      Reached(c, s, run, t);
      if c.maxFiles > 0 {
        SlotsTellRun(c, s, run, t, k);
      }
      CautiousStep(c, mid, last.who, last.e, t, k, subject, Max(c.maxBytes, Usage(c, s.disk, ByBytes, k)));
    } else {
      NothingLeft(c, t.workers, k);
      assert Get(Book(s.books, ByBytes), k) == Usage(c, s.disk, ByBytes, k);
    }
  }

  /** Whatever happens, the disk holds no more for k than the quota allows, or than it held at startup. */
  ghost predicate Contained(c: Config, k: Key) {
    forall s, run, t :: Starts(c, s) && Exec(c, s, run) == Some(t) ==>
      Occupied(c, t.disk, ByBytes, k) <= Max(c.maxBytes, Usage(c, s.disk, ByBytes, k))
  }

  lemma {:induction false} CautiousIsContained(c: Config, k: Key, subject: Subject)
    requires c.maxBytes > 0 && Cautious(c) && OneSubject(c, k, subject)
    ensures Contained(c, k)
  {
    forall s, run, t | Starts(c, s) && Exec(c, s, run) == Some(t)
      ensures Occupied(c, t.disk, ByBytes, k) <= Max(c.maxBytes, Usage(c, s.disk, ByBytes, k))
    {
      CautiousRun(c, s, run, t, k, subject);
      Reached(c, s, run, t);
      BytesLag(c, t, k);
    }
  }
}
