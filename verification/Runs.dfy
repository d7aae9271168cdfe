/** What one upload may rely on while any number of others run. */
module Runs {
  import opened Sums
  import opened Naming
  import opened Protocol
  import opened DiskInvariant
  import opened TreeInvariant
  import opened Safety
  import opened Guarantees

  /** b continues a with steps that are not w's. */
  ghost predicate Interleaved(a: seq<Act>, b: seq<Act>, w: Id) {
    a <= b && forall i :: |a| <= i < |b| ==> b[i].who != w
  }

  /** The inside of a folder: its published files and its directories. */
  datatype View = View(files: map<Path, Bytes>, dirs: set<Path>)

  ghost function Inside(d: Disk, r: Path): View {
    View(map p | p in d.settled && r < p :: d.settled[p].data, set p | p in d.dirs && r < p)
  }

  lemma OtherStep(c: Config, s: State, v: Id, e: Event, s': State, w: Id)
    requires Apply(c, s, v, e) == Some(s') && v != w && w in s.workers
    ensures w in s'.workers && s'.workers[w] == s.workers[w]
  {
  }

  /** A step of another request leaves the inside of w's folder as it is. */
  lemma OtherInside(c: Config, s: State, v: Id, e: Event, s': State, w: Id)
    requires Inv(c, s) && Apply(c, s, v, e) == Some(s') && v != w
    requires w in s.workers && s.workers[w].folder.Some?
    ensures Inside(s'.disk, Base(c, s.workers[w])) == Inside(s.disk, Base(c, s.workers[w]))
  {
    var r := Base(c, s.workers[w]);
    if !e.Begin? && !OnBooks(e) {
      OtherSettles(c, s, v, e, s', r);
      OtherDirs(c, s.disk, s.workers, v, e, r);
    }
  }

  lemma FolderOf(r: Path, p: Path)
    ensures |r| == 2 && r < p ==> p[..2] == r
  {
  }

  lemma OtherSettles(c: Config, s: State, v: Id, e: Event, s': State, r: Path)
    requires Owned(c, s.disk, s.workers) && v in s.workers && WorkerSound(c, s.workers[v])
    requires Apply(c, s, v, e) == Some(s') && r in s.disk.owner && s.disk.owner[r] != v
    ensures Inside(s'.disk, r).files == Inside(s.disk, r).files
  {
    if s'.disk.settled != s.disk.settled {
      SettledStep(c, s, v, e, s');
      var t := s.workers[v].phase.t;
      var p := t.dir + [e.name];
      FolderOf(r, p);
      OwnFolder(c, s.disk, s.workers, v, t.dir, p);
    }
  }

  lemma OtherDirs(c: Config, d: Disk, ws: map<Id, Worker>, v: Id, e: Event, r: Path)
    requires Owned(c, d, ws) && v in ws && r in d.owner && d.owner[r] != v
    requires DiskStep(c, d, v, ws[v], e).Some?
    ensures Inside(DiskStep(c, d, v, ws[v], e).value.0, r).dirs == Inside(d, r).dirs
  {
    if ws[v].phase.Ready? {
      OtherMakes(c, d, ws, v, e, r);
    }
  }

  lemma OtherMakes(c: Config, d: Disk, ws: map<Id, Worker>, v: Id, e: Event, r: Path)
    requires Owned(c, d, ws) && v in ws && r in d.owner && d.owner[r] != v
    requires DirStep(c, d, v, ws[v], e).Some?
    ensures Inside(DirStep(c, d, v, ws[v], e).value.0, r).dirs == Inside(d, r).dirs
  {
    if e.MakeDir? {
      assert Base(c, ws[v]) < e.dir && e.dir[..|Base(c, ws[v])|] == Base(c, ws[v]);
      FolderOf(r, e.dir);
    }
  }

  /** The name can not be given to anybody: something settled or a directory has it, or it is no
      name a file can have, or it looks like a temporary file. */
  ghost predicate Taken(d: Disk, p: Path) {
    |p| > 0 && (p in d.settled || p in d.dirs || !Plain(p[|p| - 1]) || TempLike(p[|p| - 1]))
  }

  /** A name found in use stays in use, or was a temporary file's. */
  lemma ExistsIsTaken(c: Config, s: State, p: Path)
    requires Inv(c, s) && s.disk.Exists(p)
    ensures Taken(s.disk, p)
  {
    if p in s.disk.temps {
      var w := s.disk.temps[p];
      assert WorkerSound(c, s.workers[w]);
    }
  }

  lemma DirsGrow(c: Config, s: State, v: Id, e: Event, s': State)
    requires Apply(c, s, v, e) == Some(s')
    ensures s.disk.dirs <= s'.disk.dirs
  {
  }

  /** What a request can count on: what is settled stays, directories stay, and its own folder's
      inside is as it was. */
  ghost predicate Undisturbed(c: Config, d: Disk, d': Disk, wk: Worker, w: Id) {
    && Keeps(d, d') && SettledBy(d', w) == SettledBy(d, w)
    && (wk.folder.Some? ==> Inside(d', Base(c, wk)) == Inside(d, Base(c, wk)))
  }

  lemma UndisturbedOn(c: Config, d0: Disk, d: Disk, d': Disk, wk: Worker, wk': Worker, w: Id)
    requires Undisturbed(c, d0, d, wk, w) && Undisturbed(c, d, d', wk', w)
    requires wk'.user == wk.user && wk'.folder == wk.folder
    ensures Undisturbed(c, d0, d', wk, w)
  {
  }

  ghost function SettledBy(d: Disk, w: Id): set<Path> {
    set p | p in d.settled && d.settled[p].who == Some(w)
  }

  ghost predicate Keeps(d: Disk, d': Disk) {
    && (forall p :: p in d.settled ==> p in d'.settled && d'.settled[p] == d.settled[p])
    && d.dirs <= d'.dirs
  }

  /** A name in use for good stays so. */
  lemma TakenStays(d: Disk, d': Disk, p: Path)
    requires Keeps(d, d') && Taken(d, p)
    ensures Taken(d', p)
  {
  }

  lemma KeepsStep(c: Config, s: State, v: Id, e: Event, s': State)
    requires TablesSound(s.disk) && Apply(c, s, v, e) == Some(s')
    ensures Keeps(s.disk, s'.disk)
    ensures forall w :: w != v ==> SettledBy(s'.disk, w) == SettledBy(s.disk, w)
  {
    if s'.disk.settled != s.disk.settled {
      SettledStep(c, s, v, e, s');
    }
    DirsGrow(c, s, v, e, s');
  }

  /** Between two of w's own steps, whatever the others do: w's record stands, its folder's inside
      stands, and what is settled stays settled. */
  lemma {:induction false} Meanwhile(c: Config, start: State, a: seq<Act>, s: State, b: seq<Act>, t: State, w: Id)
    requires Starts(c, start) && Exec(c, start, a) == Some(s) && Exec(c, start, b) == Some(t)
    requires Interleaved(a, b, w) && w in s.workers
    ensures w in t.workers && t.workers[w] == s.workers[w]
    ensures Undisturbed(c, s.disk, t.disk, s.workers[w], w)
    decreases |b|
  {
    if |b| > |a| {
      var (before, last) := (b[..|b| - 1], b[|b| - 1]);
      var mid := Exec(c, start, before).value;
      Meanwhile(c, start, a, s, before, mid, w);
      InvAtStart(c, start);
      InvRun(c, start, before, mid);
      OtherStep(c, mid, last.who, last.e, t, w);
      if s.workers[w].folder.Some? {
        OtherInside(c, mid, last.who, last.e, t, w);
      }
      KeepsStep(c, mid, last.who, last.e, t);
    } else {
      assert a == b;
    }
  }

  lemma {:induction false} Reached(c: Config, start: State, run: seq<Act>, s: State)
    requires Starts(c, start) && Exec(c, start, run) == Some(s)
    ensures Inv(c, s)
  {
    InvAtStart(c, start);
    InvRun(c, start, run, s);
  }

  /** Only a request that has begun has files. */
  lemma {:induction false} OnlyWorkersSettle(c: Config, start: State, run: seq<Act>, s: State, w: Id)
    requires Starts(c, start) && Exec(c, start, run) == Some(s) && w !in s.workers
    ensures SettledBy(s.disk, w) == {}
    decreases |run|
  {
    if run != [] {
      var (before, last) := (run[..|run| - 1], run[|run| - 1]);
      var mid := Exec(c, start, before).value;
      OnlyWorkersSettle(c, start, before, mid, w);
      Reached(c, start, before, mid);
      OneWorkerMoves(c, mid, last.who, last.e, s);
      KeepsStep(c, mid, last.who, last.e, s);
    }
  }

  /** p was not there; now it is settled, with this content and by w, and inside w's folder nothing
      else has changed. */
  ghost predicate Published(c: Config, d: Disk, d': Disk, wk: Worker, w: Id, p: Path, data: Bytes)
  {
    && Keeps(d, d') && p !in d.settled && p !in d.dirs
    && p in d'.settled && d'.settled[p].data == data && SettledBy(d', w) == SettledBy(d, w) + {p}
    && (wk.folder.Some? ==>
          var r := Base(c, wk);
          r < p && Inside(d', r) == Inside(d, r).(files := Inside(d, r).files[p := data]))
  }

  lemma NewlySettled(c: Config, d: Disk, d': Disk, w: Id, wk: Worker, t: Temp, name: Name)
    requires TablesSound(d) && InDir(c, wk, t.dir) && !d.Exists(t.dir + [name])
    requires d'.settled == d.settled[t.dir + [name] := Settled(t.ino, t.part, Some(w))] && d'.dirs == d.dirs
    ensures Published(c, d, d', wk, w, t.dir + [name], t.part)
  {
    var p := t.dir + [name];
    assert SettledBy(d', w) == SettledBy(d, w) + {p};
    if wk.folder.Some? {
      var r := Base(c, wk);
      assert r <= t.dir < p;
      assert Inside(d', r).files == Inside(d, r).files[p := t.part];
      assert Inside(d', r).dirs == Inside(d, r).dirs;
    }
  }

  /** A step that settles nothing and makes no directory disturbs nobody. */
  lemma UndisturbedBy(c: Config, d0: Disk, d: Disk, d': Disk, wk: Worker, w: Id)
    requires Undisturbed(c, d0, d, wk, w) && d'.settled == d.settled && d'.dirs == d.dirs
    ensures Undisturbed(c, d0, d', wk, w)
  {
    assert SettledBy(d', w) == SettledBy(d, w);
    assert Inside(d', Base(c, wk)) == Inside(d, Base(c, wk));
  }

  /** Publishing can be seen from before a pause. */
  lemma PublishedSince(c: Config, d0: Disk, d: Disk, d': Disk, wk: Worker, w: Id, p: Path, data: Bytes)
    requires Undisturbed(c, d0, d, wk, w) && Published(c, d, d', wk, w, p, data)
    ensures Published(c, d0, d', wk, w, p, data)
  {
  }

  lemma StaysPublished(c: Config, d0: Disk, d: Disk, d': Disk, wk: Worker, w: Id, p: Path, data: Bytes)
    requires Published(c, d0, d, wk, w, p, data) && Undisturbed(c, d, d', wk, w)
    ensures Published(c, d0, d', wk, w, p, data)
  {
  }
}
