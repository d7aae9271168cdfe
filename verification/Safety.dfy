/** Safety over whole runs: every interleaving of any number of uploads, any call of which may fail. */
module Safety {
  import opened Sums
  import opened Limits
  import opened Protocol
  import opened DiskInvariant
  import opened TreeInvariant
  import opened Conservation
  import opened SlotsInvariant

  ghost predicate Inv(c: Config, s: State)
  {
    && c.Valid()
    && (forall w :: w in s.workers ==> WorkerSound(c, s.workers[w]))
    && DiskSound(s.disk, s.workers)
    && NoOrphans(s.disk)
    && TreeShaped(s.disk)
    && Owned(c, s.disk, s.workers)
    && Balanced(c, s)
    && SlotsSound(c, s.books.slots, s.workers)
  }

  /** Every inode still has a name. */
  ghost predicate NoOrphans(d: Disk) {
    d.inodes.Keys == set p | p in d.names :: d.names[p]
  }

  lemma NoOrphansAdd(names: map<Path, Ino>, inodes: set<Ino>, p: Path, i: Ino, names': map<Path, Ino>)
    requires inodes == (set q | q in names :: names[q]) && p !in names && names' == names[p := i]
    ensures inodes + {i} == set q | q in names' :: names'[q]
  {
    assert p in names';
    forall q | q in names
      ensures q in names' && names'[q] == names[q]
    {
    }
  }

  lemma NoOrphansRemove(names: map<Path, Ino>, inodes: set<Ino>, p: Path, gone: set<Ino>, names': map<Path, Ino>)
    requires inodes == (set q | q in names :: names[q]) && p in names && names' == names - {p}
    requires forall q :: q in names && q != p ==> names[q] !in gone
    requires names[p] in gone || exists q :: q in names && q != p && names[q] == names[p]
    ensures inodes - gone == set q | q in names' :: names'[q]
  {
    forall q | q in names && q != p
      ensures q in names' && names'[q] == names[q]
    {
    }
  }

  lemma NoOrphansOnDisk(c: Config, d: Disk, ws: map<Id, Worker>, w: Id, e: Event)
    requires NoOrphans(d) && DiskSound(d, ws) && w in ws && DiskStep(c, d, w, ws[w], e).Some?
    ensures NoOrphans(DiskStep(c, d, w, ws[w], e).value.0)
  {
    var (d', wk) := DiskStep(c, d, w, ws[w], e).value;
    match ws[w].phase
    case Ready => DirsOnly(c, d, w, ws[w], e);
    case Reserved(dir) => NoOrphansAdd(d.names, d.inodes.Keys, wk.phase.t.at, e.ino, d'.names);
    case Busy(t, stage) => NoOrphansBusy(d, ws, w, e);
    case _ =>
  }

  lemma NoOrphansBusy(d: Disk, ws: map<Id, Worker>, w: Id, e: Event)
    requires NoOrphans(d) && DiskSound(d, ws) && w in ws && ws[w].phase.Busy?
    requires BusyDiskStep(d, w, ws[w].phase.t, ws[w].phase.stage, e).Some?
    ensures NoOrphans(BusyDiskStep(d, w, ws[w].phase.t, ws[w].phase.stage, e).value.0)
  {
    var t := ws[w].phase.t;
    var d' := BusyDiskStep(d, w, t, ws[w].phase.stage, e).value.0;
    match ws[w].phase.stage
    case Publishing =>
      if d' != d {
        assert TempSound(d, w, t, Publishing);
        NoOrphansOnLink(d, t, e.name, d');
      }
    case Charged(_) => assert d'.names == d.names && d'.inodes.Keys == d.inodes.Keys;
    case _ => NoOrphansOnRemove(d, ws, w, d');
  }

  lemma NoOrphansOnLink(d: Disk, t: Temp, name: Name, d': Disk)
    requires NoOrphans(d) && t.ino in d.inodes && !d.Exists(t.dir + [name])
    requires d'.names == d.names[t.dir + [name] := t.ino] && d'.inodes == d.inodes
    ensures NoOrphans(d')
  {
    NoOrphansAdd(d.names, d.inodes.Keys, t.dir + [name], t.ino, d'.names);
    assert d.inodes.Keys + {t.ino} == d.inodes.Keys;
  }

  lemma NoOrphansOnRemove(d: Disk, ws: map<Id, Worker>, w: Id, d': Disk)
    requires NoOrphans(d) && DiskSound(d, ws) && w in ws && ws[w].phase.Busy?
    requires var (t, gone) := (ws[w].phase.t, if ws[w].phase.stage.Linked? then {} else {ws[w].phase.t.ino});
             d'.names == d.names - {t.at} && d'.inodes.Keys == d.inodes.Keys - gone
    ensures NoOrphans(d')
  {
    var t := ws[w].phase.t;
    var gone := if ws[w].phase.stage.Linked? then {} else {t.ino};
    forall p | p in d.names && p != t.at
      ensures d.names[p] !in gone
    {
      assert p in d.settled || d.inodes[d.names[p]].born == p;
    }
    if ws[w].phase.stage.Linked? {
      var q := t.dir + [ws[w].phase.stage.name];
      assert q in d.names && q != t.at && d.names[q] == d.names[t.at];
    }
    NoOrphansRemove(d.names, d.inodes.Keys, t.at, gone, d'.names);
  }

  lemma InvStep(c: Config, s: State, w: Id, e: Event, s': State)
    requires Inv(c, s) && Apply(c, s, w, e) == Some(s')
    ensures Inv(c, s')
  {
    OneWorkerMoves(c, s, w, e, s');
    WorkerSoundStep(c, s, w, e, s');
    DiskSoundStep(c, s, w, e, s');
    OwnedStep(c, s, w, e, s');
    BalancedStep(c, s, w, e, s');
    SlotsStep(c, s, w, e, s');
    if !e.Begin? && !OnBooks(e) {
      NoOrphansOnDisk(c, s.disk, s.workers, w, e);
    }
  }

  lemma InvAtStart(c: Config, s: State)
    requires Starts(c, s)
    ensures Inv(c, s)
  {
    BalancedAtStart(c, s);
    assert Open(s.workers) == {};
    forall subject: Subject
      ensures OpenOf(s.workers, subject) == {}
    {
    }
  }

  lemma {:induction false} InvRun(c: Config, s: State, run: seq<Act>, t: State)
    requires Inv(c, s) && Exec(c, s, run) == Some(t)
    ensures Inv(c, t)
    decreases |run|
  {
    if run != [] {
      var (before, last) := (run[..|run| - 1], run[|run| - 1]);
      var mid := Exec(c, s, before).value;
      InvRun(c, s, before, mid);
      InvStep(c, mid, last.who, last.e, t);
    }
  }
}
