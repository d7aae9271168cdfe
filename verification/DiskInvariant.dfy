/** What every step of every worker keeps about the files on disk. */
module DiskInvariant {
  import opened Sums
  import opened Protocol

  /** Bytes charged and not yet in the worker's own counter. */
  function Pending(stage: Stage): nat {
    match stage
    case Charged(n) => n
    case Refund(n) => n
    case _ => 0
  }

  /** What a worker knows on its own: its counters stay within the part and the limit, and only a
      complete part within the limit is ever published. */
  ghost predicate WorkerSound(c: Config, wk: Worker)
  {
    match wk.phase
    case Reserved(dir) => InDir(c, wk, dir)
    case Cleared(dir) => InDir(c, wk, dir)
    case Busy(t, stage) =>
      && InDir(c, wk, t.dir) && |t.at| == |t.dir| + 1 && t.at[..|t.dir|] == t.dir && TempLike(t.at[|t.dir|])
      && t.reserved + Pending(stage) <= |t.part|
      && (c.maxFileBytes > 0 ==> t.reserved + Pending(stage) <= c.maxFileBytes + 1)
      && (stage.Publishing? || stage.Linked? ==>
            t.whole && t.reserved == |t.part| && (c.maxFileBytes > 0 ==> |t.part| <= c.maxFileBytes))
      && (stage.Charged? ==> stage.chunk > 0)
    case _ => true
  }

  /** A step touches the record of the worker that takes it and no other. */
  lemma OneWorkerMoves(c: Config, s: State, w: Id, e: Event, s': State)
    requires Apply(c, s, w, e) == Some(s')
    ensures w in s'.workers && s'.workers == s.workers[w := s'.workers[w]]
    ensures e.Begin? <==> w !in s.workers
  {
  }

  lemma WorkerSoundOnBooks(c: Config, b: Books, wk: Worker, e: Event)
    requires WorkerSound(c, wk)
    ensures BooksStep(c, b, wk, e).Some? ==> WorkerSound(c, wk.(phase := BooksStep(c, b, wk, e).value.1))
  {
  }

  lemma WorkerSoundOnDisk(c: Config, d: Disk, w: Id, wk: Worker, e: Event)
    requires WorkerSound(c, wk)
    ensures DiskStep(c, d, w, wk, e).Some? ==> WorkerSound(c, DiskStep(c, d, w, wk, e).value.1)
  {
  }

  lemma WorkerSoundStep(c: Config, s: State, w: Id, e: Event, s': State)
    requires w in s.workers ==> WorkerSound(c, s.workers[w])
    requires Apply(c, s, w, e) == Some(s')
    ensures w in s'.workers && WorkerSound(c, s'.workers[w])
  {
    if !e.Begin? {
      WorkerSoundOnBooks(c, s.books, s.workers[w], e);
      WorkerSoundOnDisk(c, s.disk, w, s.workers[w], e);
    }
  }

  // ---- names, inodes and temporary files ---------------------------------------------------

  ghost predicate TempSound(d: Disk, w: Id, t: Temp, stage: Stage)
  {
    && t.reserved <= |t.part|
    && t.at in d.temps && d.temps[t.at] == w && t.at in d.names && d.names[t.at] == t.ino
    && t.ino in d.inodes && d.inodes[t.ino].data == t.part[..t.reserved]
    && (stage.Linked? ==> t.dir + [stage.name] in d.settled && d.settled[t.dir + [stage.name]].ino == t.ino)
    && (!stage.Linked? ==> forall p :: p in d.settled ==> d.settled[p].ino != t.ino)
  }

  /** Every name is settled or temporary, and a settled name keeps its inode and its content. */
  ghost predicate TablesSound(d: Disk)
  {
    && (forall p :: p in d.names ==> d.names[p] in d.inodes)
    && (forall p :: p in d.names <==> p in d.settled || p in d.temps)
    && (forall p :: p in d.settled ==>
          && p !in d.temps
          && d.names[p] == d.settled[p].ino && d.inodes[d.names[p]].data == d.settled[p].data)
    && (forall p :: p in d.temps ==> d.inodes[d.names[p]].born == p)
  }

  /** Every temporary name belongs to exactly one worker, which alone can reach its inode until
      the inode is published. */
  ghost predicate TempsSound(d: Disk, ws: map<Id, Worker>)
  {
    && (forall p :: p in d.temps ==>
          d.temps[p] in ws && ws[d.temps[p]].phase.Busy? && ws[d.temps[p]].phase.t.at == p)
    && (forall w :: w in ws && ws[w].phase.Busy? ==> TempSound(d, w, ws[w].phase.t, ws[w].phase.stage))
  }

  ghost predicate DiskSound(d: Disk, ws: map<Id, Worker>)
  {
    TablesSound(d) && TempsSound(d, ws)
  }

  /** Moving a worker on without touching files keeps the disk sound, as long as the worker keeps
      its temporary file. */
  lemma DiskSoundQuiet(d: Disk, ws: map<Id, Worker>, w: Id, d': Disk, wk: Worker)
    requires DiskSound(d, ws)
    requires d'.names == d.names && d'.inodes == d.inodes && d'.settled == d.settled && d'.temps == d.temps
    requires w in ws && ws[w].phase.Busy? ==>
               && wk.phase.Busy? && wk.phase.t == ws[w].phase.t
               && !ws[w].phase.stage.Linked? && !wk.phase.stage.Linked?
    requires !(w in ws && ws[w].phase.Busy?) ==> !wk.phase.Busy?
    ensures DiskSound(d', ws[w := wk])
  {
  }

  /** From d to d' only the names and the inode of one temporary file have moved. */
  ghost predicate Elsewhere(d: Disk, d': Disk, at: Path, ino: Ino) {
    && (forall p :: p in d.names && p != at ==> p in d'.names && d'.names[p] == d.names[p])
    && (forall p :: p in d.temps && p != at ==> p in d'.temps && d'.temps[p] == d.temps[p])
    && (forall i :: i in d.inodes && i != ino ==> i in d'.inodes && d'.inodes[i] == d.inodes[i])
    && (forall p :: p in d.settled ==> p in d'.settled && d'.settled[p] == d.settled[p])
    && (forall p :: p in d'.settled ==> p in d.settled || d'.settled[p].ino == ino)
  }

  ghost predicate OthersSound(d: Disk, ws: map<Id, Worker>, w: Id) {
    forall v :: v in ws && v != w && ws[v].phase.Busy? ==> TempSound(d, v, ws[v].phase.t, ws[v].phase.stage)
  }

  lemma TempKept(d: Disk, d': Disk, v: Id, t: Temp, stage: Stage, at: Path, ino: Ino)
    requires TempSound(d, v, t, stage) && Elsewhere(d, d', at, ino) && t.at != at && t.ino != ino
    ensures TempSound(d', v, t, stage)
  {
  }

  lemma TempsApart(d: Disk, ws: map<Id, Worker>, v: Id, w: Id)
    requires DiskSound(d, ws) && v in ws && w in ws && v != w && ws[v].phase.Busy? && ws[w].phase.Busy?
    ensures ws[v].phase.t.at != ws[w].phase.t.at && ws[v].phase.t.ino != ws[w].phase.t.ino
  {
    assert TempSound(d, v, ws[v].phase.t, ws[v].phase.stage) && TempSound(d, w, ws[w].phase.t, ws[w].phase.stage);
  }

  /** A worker that moves its own temporary file only leaves the others' files as they were. */
  lemma OthersKept(d: Disk, ws: map<Id, Worker>, w: Id, d': Disk)
    requires DiskSound(d, ws) && w in ws && ws[w].phase.Busy?
    requires Elsewhere(d, d', ws[w].phase.t.at, ws[w].phase.t.ino)
    ensures OthersSound(d', ws, w)
  {
    forall v | v in ws && v != w && ws[v].phase.Busy?
      ensures TempSound(d', v, ws[v].phase.t, ws[v].phase.stage)
    {
      TempsApart(d, ws, v, w);
      TempKept(d, d', v, ws[v].phase.t, ws[v].phase.stage, ws[w].phase.t.at, ws[w].phase.t.ino);
    }
  }

  lemma OthersKeptByNew(d: Disk, ws: map<Id, Worker>, w: Id, d': Disk, at: Path, ino: Ino)
    requires DiskSound(d, ws) && at !in d.names && ino !in d.inodes && Elsewhere(d, d', at, ino)
    ensures OthersSound(d', ws, w)
  {
    forall v | v in ws && v != w && ws[v].phase.Busy?
      ensures TempSound(d', v, ws[v].phase.t, ws[v].phase.stage)
    {
      TempKept(d, d', v, ws[v].phase.t, ws[v].phase.stage, at, ino);
    }
  }

  /** Sound temporary files of the others, and the right one for w itself. */
  lemma TempsTogether(d: Disk, ws: map<Id, Worker>, w: Id, d': Disk, wk: Worker, ws': map<Id, Worker>)
    requires TempsSound(d, ws) && OthersSound(d', ws, w) && ws' == ws[w := wk]
    requires wk.phase.Busy? ==> TempSound(d', w, wk.phase.t, wk.phase.stage)
    requires forall p :: p in d'.temps ==>
               || (wk.phase.Busy? && p == wk.phase.t.at && d'.temps[p] == w)
               || (p in d.temps && d'.temps[p] == d.temps[p] && d.temps[p] != w)
    ensures TempsSound(d', ws')
  {
  }

  lemma DiskSoundCreate(d: Disk, ws: map<Id, Worker>, w: Id, d': Disk, wk: Worker)
    requires DiskSound(d, ws) && w in ws && !ws[w].phase.Busy?
    requires wk.phase.Busy? && wk.phase.stage.Writing? && wk.phase.t.reserved == 0
    requires var t := wk.phase.t;
             && t.at !in d.names && t.ino !in d.inodes
             && d' == d.(names := d.names[t.at := t.ino], inodes := d.inodes[t.ino := Inode([], t.at)],
                         temps := d.temps[t.at := w])
    ensures DiskSound(d', ws[w := wk])
  {
    TablesCreate(d, wk.phase.t, w, d');
    OthersKeptByNew(d, ws, w, d', wk.phase.t.at, wk.phase.t.ino);
    TempsTogether(d, ws, w, d', wk, ws[w := wk]);
  }

  lemma TablesCreate(d: Disk, t: Temp, w: Id, d': Disk)
    requires TablesSound(d) && t.at !in d.names && t.ino !in d.inodes
    requires d' == d.(names := d.names[t.at := t.ino], inodes := d.inodes[t.ino := Inode([], t.at)],
                      temps := d.temps[t.at := w])
    ensures TablesSound(d')
  {
  }

  lemma TablesWrite(d: Disk, t: Temp, d': Disk)
    requires TablesSound(d) && t.at in d.temps && t.reserved <= |t.part|
    requires d.names[t.at] == t.ino && forall p :: p in d.settled ==> d.settled[p].ino != t.ino
    requires d' == d.(inodes := d.inodes[t.ino := Inode(t.part[..t.reserved], t.at)])
    ensures TablesSound(d')
  {
  }

  lemma DiskSoundWrite(d: Disk, ws: map<Id, Worker>, w: Id, d': Disk, wk: Worker)
    requires DiskSound(d, ws) && w in ws && ws[w].phase.Busy? && !ws[w].phase.stage.Linked?
    requires wk.phase.Busy? && !wk.phase.stage.Linked? && wk.phase.t.reserved <= |wk.phase.t.part|
    requires var t := wk.phase.t;
             && t == ws[w].phase.t.(reserved := t.reserved)
             && d' == d.(inodes := d.inodes[t.ino := Inode(t.part[..t.reserved], t.at)])
    ensures DiskSound(d', ws[w := wk])
  {
    TablesWrite(d, wk.phase.t, d');
    OthersKept(d, ws, w, d');
    TempsTogether(d, ws, w, d', wk, ws[w := wk]);
  }

  lemma DiskSoundLink(d: Disk, ws: map<Id, Worker>, w: Id, d': Disk, wk: Worker)
    requires DiskSound(d, ws) && w in ws && ws[w].phase.Busy? && !ws[w].phase.stage.Linked?
    requires ws[w].phase.t.reserved == |ws[w].phase.t.part|
    requires wk.phase.Busy? && wk.phase.stage.Linked? && wk.phase.t == ws[w].phase.t
    requires var (t, p) := (wk.phase.t, wk.phase.t.dir + [wk.phase.stage.name]);
             && p !in d.names
             && d' == d.(names := d.names[p := t.ino], settled := d.settled[p := Settled(t.ino, t.part, Some(w))])
    ensures DiskSound(d', ws[w := wk])
  {
    var t := wk.phase.t;
    var p := t.dir + [wk.phase.stage.name];
    assert t.part[..|t.part|] == t.part;
    TablesLink(d, t, p, w, d');
    TempsLink(d, ws, w, p, d', wk);
  }

  lemma TempsLink(d: Disk, ws: map<Id, Worker>, w: Id, p: Path, d': Disk, wk: Worker)
    requires DiskSound(d, ws) && w in ws && ws[w].phase.Busy?
    requires wk.phase.Busy? && wk.phase.t == ws[w].phase.t && wk.phase.stage.Linked?
    requires p == wk.phase.t.dir + [wk.phase.stage.name] && p !in d.names
    requires d'.names == d.names[p := wk.phase.t.ino] && d'.inodes == d.inodes && d'.temps == d.temps
    requires d'.settled == d.settled[p := Settled(wk.phase.t.ino, wk.phase.t.part, Some(w))]
    ensures TempsSound(d', ws[w := wk])
  {
    OthersKept(d, ws, w, d');
    TempsTogether(d, ws, w, d', wk, ws[w := wk]);
  }

  lemma TablesLink(d: Disk, t: Temp, p: Path, w: Id, d': Disk)
    requires TablesSound(d) && p !in d.names && t.ino in d.inodes && d.inodes[t.ino].data == t.part
    requires d' == d.(names := d.names[p := t.ino], settled := d.settled[p := Settled(t.ino, t.part, Some(w))])
    ensures TablesSound(d')
  {
  }

  /** Removing the temporary name takes the inode away only when nothing is published under it. */
  lemma DiskSoundRemove(d: Disk, ws: map<Id, Worker>, w: Id, d': Disk, wk: Worker)
    requires DiskSound(d, ws) && w in ws && ws[w].phase.Busy? && !wk.phase.Busy?
    requires var (t, gone) := (ws[w].phase.t, if ws[w].phase.stage.Linked? then {} else {ws[w].phase.t.ino});
             d' == d.(names := d.names - {t.at}, temps := d.temps - {t.at}, inodes := d.inodes - gone)
    ensures DiskSound(d', ws[w := wk])
  {
    var t := ws[w].phase.t;
    var gone := if ws[w].phase.stage.Linked? then {} else {t.ino};
    forall p | p in d.names && p != t.at
      ensures d.names[p] !in gone
    {
      assert p in d.settled || d.inodes[d.names[p]].born == p;
    }
    TablesRemove(d, t.at, gone, d');
    TempsRemove(d, ws, w, gone, d', wk);
  }

  lemma TempsRemove(d: Disk, ws: map<Id, Worker>, w: Id, gone: set<Ino>, d': Disk, wk: Worker)
    requires DiskSound(d, ws) && w in ws && ws[w].phase.Busy? && !wk.phase.Busy?
    requires gone <= {ws[w].phase.t.ino} && d'.settled == d.settled
    requires d'.names == d.names - {ws[w].phase.t.at} && d'.temps == d.temps - {ws[w].phase.t.at}
    requires d'.inodes == d.inodes - gone
    ensures TempsSound(d', ws[w := wk])
  {
    OthersKept(d, ws, w, d');
    TempsTogether(d, ws, w, d', wk, ws[w := wk]);
  }

  lemma TablesRemove(d: Disk, at: Path, gone: set<Ino>, d': Disk)
    requires TablesSound(d) && at in d.temps
    requires forall p :: p in d.names && p != at ==> d.names[p] !in gone
    requires d' == d.(names := d.names - {at}, temps := d.temps - {at}, inodes := d.inodes - gone)
    ensures TablesSound(d')
  {
  }

  lemma DiskSoundOnDisk(c: Config, d: Disk, ws: map<Id, Worker>, w: Id, e: Event)
    requires DiskSound(d, ws) && w in ws && WorkerSound(c, ws[w])
    requires DiskStep(c, d, w, ws[w], e).Some?
    ensures var (d', wk) := DiskStep(c, d, w, ws[w], e).value; DiskSound(d', ws[w := wk])
  {
    var (d', wk) := DiskStep(c, d, w, ws[w], e).value;
    match ws[w].phase
    case Ready => DiskSoundOnDirs(c, d, ws, w, e);
    case Reserved(_) => DiskSoundCreate(d, ws, w, d', wk);
    case Busy(t, stage) => DiskSoundBusy(d, ws, w, e);
    case _ =>
  }

  lemma DiskSoundOnDirs(c: Config, d: Disk, ws: map<Id, Worker>, w: Id, e: Event)
    requires DiskSound(d, ws) && w in ws && ws[w].phase.Ready?
    requires DirStep(c, d, w, ws[w], e).Some?
    ensures var (d', wk) := DirStep(c, d, w, ws[w], e).value; DiskSound(d', ws[w := wk])
  {
    DirsOnly(c, d, w, ws[w], e);
    DiskSoundQuiet(d, ws, w, DirStep(c, d, w, ws[w], e).value.0, DirStep(c, d, w, ws[w], e).value.1);
  }

  lemma DirsOnly(c: Config, d: Disk, w: Id, wk: Worker, e: Event)
    requires DirStep(c, d, w, wk, e).Some?
    ensures var (d', wk') := DirStep(c, d, w, wk, e).value;
            && d'.names == d.names && d'.inodes == d.inodes && d'.settled == d.settled && d'.temps == d.temps
            && wk'.phase == wk.phase
  {
  }

  lemma DiskSoundBusy(d: Disk, ws: map<Id, Worker>, w: Id, e: Event)
    requires DiskSound(d, ws) && w in ws && ws[w].phase.Busy?
    requires ws[w].phase.stage.Publishing? ==> ws[w].phase.t.reserved == |ws[w].phase.t.part|
    requires BusyDiskStep(d, w, ws[w].phase.t, ws[w].phase.stage, e).Some?
    ensures var (d', ph) := BusyDiskStep(d, w, ws[w].phase.t, ws[w].phase.stage, e).value;
            DiskSound(d', ws[w := ws[w].(phase := ph)])
  {
    var (d', ph) := BusyDiskStep(d, w, ws[w].phase.t, ws[w].phase.stage, e).value;
    var wk := ws[w].(phase := ph);
    match ws[w].phase.stage
    case Charged(_) => DiskSoundWrite(d, ws, w, d', wk);
    case Publishing =>
      if d' == d {
        assert ws[w := wk] == ws;
      } else {
        DiskSoundLink(d, ws, w, d', wk);
      }
    case Uncharged => DiskSoundRemove(d, ws, w, d', wk);
    case Linked(_) => assert d.inodes - {} == d.inodes; DiskSoundRemove(d, ws, w, d', wk);
    case _ =>
  }

  lemma DiskSoundOnBooks(c: Config, b: Books, d: Disk, ws: map<Id, Worker>, w: Id, e: Event)
    requires DiskSound(d, ws) && w in ws
    requires BooksStep(c, b, ws[w], e).Some?
    ensures DiskSound(d, ws[w := ws[w].(phase := BooksStep(c, b, ws[w], e).value.1)])
  {
    var next := BooksStep(c, b, ws[w], e).value.1;
    BooksKeepTemp(c, b, ws[w], e, next);
    DiskSoundQuiet(d, ws, w, d, ws[w].(phase := next));
  }

  lemma BooksKeepTemp(c: Config, b: Books, wk: Worker, e: Event, next: Phase)
    requires BooksStep(c, b, wk, e).Some? && next == BooksStep(c, b, wk, e).value.1
    ensures wk.phase.Busy? <==> next.Busy?
    ensures wk.phase.Busy? ==> next.t == wk.phase.t && !wk.phase.stage.Linked? && !next.stage.Linked?
  {
  }

  lemma DiskSoundStep(c: Config, s: State, w: Id, e: Event, s': State)
    requires DiskSound(s.disk, s.workers) && Apply(c, s, w, e) == Some(s')
    requires w in s.workers ==> WorkerSound(c, s.workers[w])
    ensures DiskSound(s'.disk, s'.workers)
  {
    if e.Begin? {
      DiskSoundQuiet(s.disk, s.workers, w, s.disk, s'.workers[w]);
    } else if OnBooks(e) {
      DiskSoundOnBooks(c, s.books, s.disk, s.workers, w, e);
    } else {
      DiskSoundOnDisk(c, s.disk, s.workers, w, e);
    }
  }
}
