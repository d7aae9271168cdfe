/** What every step keeps about directories, and who owns the folders. */
module TreeInvariant {
  import opened Sums
  import opened Protocol
  import opened DiskInvariant

  /** The tree stays a tree when an entry is added to an existing directory. */
  lemma TreeGrows(d: Disk, p: Path, d': Disk)
    requires TreeShaped(d) && |p| >= 1 && !d.Exists(p)
    requires |p| == 1 || p[..|p| - 1] in d.dirs
    requires (d'.names.Keys == d.names.Keys + {p} && d'.dirs == d.dirs)
             || (d'.names.Keys == d.names.Keys && d'.dirs == d.dirs + {p})
    ensures TreeShaped(d')
  {
    forall q, n | d'.Exists(q) && 1 <= n < |q|
      ensures q[..n] in d'.dirs
    {
      if q == p {
        assert d.Exists(p[..|p| - 1]);
        if n < |p| - 1 {
          assert p[..|p| - 1][..n] == p[..n];
        }
      }
    }
  }

  lemma TreeOnDisk(c: Config, d: Disk, ws: map<Id, Worker>, w: Id, e: Event)
    requires TreeShaped(d) && TempsSound(d, ws) && w in ws && WorkerSound(c, ws[w])
    requires DiskStep(c, d, w, ws[w], e).Some?
    ensures TreeShaped(DiskStep(c, d, w, ws[w], e).value.0)
  {
    match ws[w].phase
    case Ready => TreeOnDirs(c, d, w, ws[w], e);
    case Reserved(dir) => TreeOnCreate(d, dir, DiskStep(c, d, w, ws[w], e).value.0, e.base, e.ino);
    case Busy(t, stage) =>
      assert TempSound(d, w, t, stage);
      TreeBusy(d, w, t, stage, e);
    case _ =>
  }

  lemma TreeOnCreate(d: Disk, dir: Path, d': Disk, base: Name, ino: Ino)
    requires TreeShaped(d) && dir in d.dirs && !d.Exists(dir + [base])
    requires d'.names == d.names[dir + [base] := ino] && d'.dirs == d.dirs
    ensures TreeShaped(d')
  {
    assert (dir + [base])[..|dir|] == dir;
    TreeGrows(d, dir + [base], d');
  }

  lemma TreeBusy(d: Disk, w: Id, t: Temp, stage: Stage, e: Event)
    requires TreeShaped(d) && BusyDiskStep(d, w, t, stage, e).Some?
    requires t.at in d.names && |t.at| == |t.dir| + 1 && t.at[..|t.dir|] == t.dir && |t.dir| >= 1
    ensures TreeShaped(BusyDiskStep(d, w, t, stage, e).value.0)
  {
    var d' := BusyDiskStep(d, w, t, stage, e).value.0;
    if stage.Publishing? && d' != d {
      assert d.Exists(t.at);
      TreeOnCreate(d, t.dir, d', e.name, t.ino);
    }
  }

  lemma TreeOnDirs(c: Config, d: Disk, w: Id, wk: Worker, e: Event)
    requires TreeShaped(d) && DirStep(c, d, w, wk, e).Some?
    ensures TreeShaped(DirStep(c, d, w, wk, e).value.0)
  {
    var d' := DirStep(c, d, w, wk, e).value.0;
    var home := [c.home(wk.user)];
    match e
    case EnsureHome => if home !in d.dirs { TreeGrows(d, home, d'); }
    case MakeFolder(name) =>
      assert (home + [name])[..1] == home;
      if d' != d { TreeGrows(d, home + [name], d'); }
    case MakeDir(dir) => if d' != d { TreeGrows(d, dir, d'); }
    case _ =>
  }

  /** A folder made by a request belongs to that request, and whatever lies inside it, published
      or temporary, was put there by that request. */
  ghost predicate Owned(c: Config, d: Disk, ws: map<Id, Worker>)
  {
    && (forall r :: r in d.owner ==> |r| == 2 && r in d.dirs && d.owner[r] in ws && Base(c, ws[d.owner[r]]) == r)
    && (forall w :: w in ws && ws[w].folder.Some? ==> Base(c, ws[w]) in d.owner && d.owner[Base(c, ws[w])] == w)
    && (forall p :: p in d.settled && |p| > 2 && p[..2] in d.owner ==> d.settled[p].who == Some(d.owner[p[..2]]))
    && (forall p :: p in d.temps && |p| > 2 && p[..2] in d.owner ==> d.temps[p] == d.owner[p[..2]])
  }

  /** An entry made by w inside an owned folder is inside w's own folder. */
  lemma OwnFolder(c: Config, d: Disk, ws: map<Id, Worker>, w: Id, dir: Path, p: Path)
    requires Owned(c, d, ws) && w in ws && InDir(c, ws[w], dir)
    requires |p| == |dir| + 1 && p[..|dir|] == dir
    ensures |p| > 2 && p[..2] in d.owner ==> d.owner[p[..2]] == w
    ensures p[0] == c.home(ws[w].user)
  {
    if |p| > 2 {
      assert p[..2] == dir[..2] == Base(c, ws[w]);
    }
    assert p[0] == dir[0];
  }

  /** Ownership survives a step that adds at most one name, inside w's own directories, and keeps
      every worker's folder. */
  lemma OwnedAdd(c: Config, d: Disk, ws: map<Id, Worker>, w: Id, d': Disk, wk: Worker, p: Path)
    requires Owned(c, d, ws) && w in ws && wk.user == ws[w].user && wk.folder == ws[w].folder
    requires d'.owner == d.owner && d'.dirs == d.dirs
    requires forall q :: q in d'.settled && q != p ==> q in d.settled && d'.settled[q].who == d.settled[q].who
    requires forall q :: q in d'.temps && q != p ==> q in d.temps && d'.temps[q] == d.temps[q]
    requires p in d'.settled ==> d'.settled[p].who == Some(w)
    requires p in d'.temps ==> d'.temps[p] == w
    requires |p| > 2 && p[..2] in d.owner ==> d.owner[p[..2]] == w
    ensures Owned(c, d', ws[w := wk])
  {
    assert Base(c, wk) == Base(c, ws[w]);
  }

  lemma OwnedRemove(c: Config, d: Disk, ws: map<Id, Worker>, w: Id, d': Disk, wk: Worker)
    requires Owned(c, d, ws) && w in ws && wk.user == ws[w].user && wk.folder == ws[w].folder
    requires d'.owner == d.owner && d'.dirs == d.dirs && d'.settled == d.settled
    requires forall q :: q in d'.temps ==> q in d.temps && d'.temps[q] == d.temps[q]
    ensures Owned(c, d', ws[w := wk])
  {
    assert Base(c, wk) == Base(c, ws[w]);
  }

  lemma OwnedOnDisk(c: Config, d: Disk, ws: map<Id, Worker>, w: Id, e: Event)
    requires Owned(c, d, ws) && TreeShaped(d) && DiskSound(d, ws) && w in ws && WorkerSound(c, ws[w])
    requires DiskStep(c, d, w, ws[w], e).Some?
    ensures var (d', wk) := DiskStep(c, d, w, ws[w], e).value; Owned(c, d', ws[w := wk])
  {
    var (d', wk) := DiskStep(c, d, w, ws[w], e).value;
    match ws[w].phase
    case Ready => OwnedOnDirs(c, d, ws, w, e);
    case Reserved(dir) =>
      OwnFolder(c, d, ws, w, dir, wk.phase.t.at);
      OwnedAdd(c, d, ws, w, d', wk, wk.phase.t.at);
    case Busy(t, stage) => OwnedBusy(c, d, ws, w, t, stage, e, d', wk);
    case _ =>
  }

  lemma OwnedBusy(c: Config, d: Disk, ws: map<Id, Worker>, w: Id, t: Temp, stage: Stage, e: Event, d': Disk, wk: Worker)
    requires Owned(c, d, ws) && TablesSound(d) && w in ws && InDir(c, ws[w], t.dir)
    requires BusyDiskStep(d, w, t, stage, e) == Some((d', wk.phase))
    requires wk.user == ws[w].user && wk.folder == ws[w].folder
    ensures Owned(c, d', ws[w := wk])
  {
    if stage.Publishing? && d' != d {
      var p := t.dir + [e.name];
      OwnFolder(c, d, ws, w, t.dir, p);
      OwnedAdd(c, d, ws, w, d', wk, p);
    } else {
      OwnedRemove(c, d, ws, w, d', wk);
    }
  }

  lemma OwnedOnDirs(c: Config, d: Disk, ws: map<Id, Worker>, w: Id, e: Event)
    requires Owned(c, d, ws) && TreeShaped(d) && TablesSound(d) && w in ws
    requires DirStep(c, d, w, ws[w], e).Some?
    ensures var (d', wk) := DirStep(c, d, w, ws[w], e).value; Owned(c, d', ws[w := wk])
  {
    var (d', wk) := DirStep(c, d, w, ws[w], e).value;
    if wk == ws[w] {
      assert ws[w := wk] == ws && d'.owner == d.owner;
    } else {
      assert Base(c, wk) == [c.home(wk.user)] + [e.name];
      OwnedFresh(c, d, ws, w, wk, e.name, d');
    }
  }

  /** Nothing lies inside a folder at the moment it is made. */
  lemma OwnedFresh(c: Config, d: Disk, ws: map<Id, Worker>, w: Id, wk: Worker, name: Name, d': Disk)
    requires Owned(c, d, ws) && TreeShaped(d) && TablesSound(d) && w in ws && ws[w].folder.None?
    requires wk == ws[w].(folder := Some(name)) && !d.Exists(Base(c, wk))
    requires d' == d.(dirs := d.dirs + {Base(c, wk)}, owner := d.owner[Base(c, wk) := w])
    ensures Owned(c, d', ws[w := wk])
  {
    NothingInside(d, Base(c, wk));
    OwnedMore(c, d, ws, w, wk, Base(c, wk), d');
  }

  lemma NothingInside(d: Disk, r: Path)
    requires TreeShaped(d) && |r| == 2 && !d.Exists(r)
    ensures forall p :: d.Exists(p) && |p| > 2 ==> p[..2] != r
  {
    forall p | d.Exists(p) && |p| > 2
      ensures p[..2] != r
    {
      assert p[..2] in d.dirs;
    }
  }

  lemma OwnedMore(c: Config, d: Disk, ws: map<Id, Worker>, w: Id, wk: Worker, r: Path, d': Disk)
    requires Owned(c, d, ws) && TablesSound(d) && w in ws && ws[w].folder.None? && wk.folder.Some?
    requires r == Base(c, wk) && !d.Exists(r)
    requires forall p :: p in d.names && |p| > 2 ==> p[..2] != r
    requires d'.names == d.names && d'.settled == d.settled && d'.temps == d.temps
    requires d'.dirs == d.dirs + {r} && d'.owner == d.owner[r := w]
    ensures Owned(c, d', ws[w := wk])
  {
  }

  lemma OwnedStep(c: Config, s: State, w: Id, e: Event, s': State)
    requires Owned(c, s.disk, s.workers) && TreeShaped(s.disk) && DiskSound(s.disk, s.workers)
    requires w in s.workers ==> WorkerSound(c, s.workers[w])
    requires Apply(c, s, w, e) == Some(s')
    ensures Owned(c, s'.disk, s'.workers) && TreeShaped(s'.disk)
  {
    if !e.Begin? && !OnBooks(e) {
      OwnedOnDisk(c, s.disk, s.workers, w, e);
      TreeOnDisk(c, s.disk, s.workers, w, e);
    }
  }
}
