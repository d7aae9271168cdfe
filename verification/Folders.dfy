/** The folders of a folder upload, made by one request while any number of others run
    (internal/dumpbox/server.go:296-300 and 525-567). */
module Folders {
  import opened Sums
  import opened Naming
  import opened Candidates
  import opened Paths
  import opened Protocol
  import opened TreeInvariant
  import opened Safety
  import opened Runs
  import opened Causes
  import opened Server

  /** The directories of r named by the leading parts of a path. */
  ghost function Below(r: Path, local: seq<Name>): set<Path> {
    if local == [] then {} else Below(r, local[..|local| - 1]) + {r + local}
  }

  lemma {:induction false} BelowGrows(r: Path, local: seq<Name>, n: nat)
    requires n < |local|
    ensures Below(r, local[..n + 1]) == Below(r, local[..n]) + {r + local[..n + 1]}
  {
    assert local[..n + 1][..n] == local[..n];
  }

  lemma {:induction false} BelowHas(r: Path, local: seq<Name>, n: nat)
    requires 1 <= n <= |local|
    ensures r + local[..n] in Below(r, local)
    decreases |local|
  {
    if n < |local| {
      BelowHas(r, local[..|local| - 1], n);
      assert local[..|local| - 1][..n] == local[..n];
    } else {
      assert local[..n] == local;
    }
  }

  /** The folder candidates tried in vain: each could not be had when it was tried. */
  ghost predicate TriedFolders(c: Config, h: Span, home: Path, name: Name, n: nat) {
    forall j: nat :: j < n ==> Seen(c, h, home + [FolderCandidate(name, j)])
  }

  lemma TriedFoldersWithin(c: Config, g: Span, h: Span, home: Path, name: Name, n: nat)
    requires TriedFolders(c, g, home, name, n) && Within(g, h)
    ensures TriedFolders(c, h, home, name, n)
  {
    forall j: nat | j < n
      ensures Seen(c, h, home + [FolderCandidate(name, j)])
    {
      SeenWithin(c, g, h, home + [FolderCandidate(name, j)]);
    }
  }

  /** From d to d' the request has made its folder: it was not there, and nothing is in it. */
  ghost predicate MadeFolder(d: Disk, d': Disk, w: Id, r: Path) {
    && Keeps(d, d') && SettledBy(d', w) == SettledBy(d, w)
    && r !in d.settled && r !in d.dirs && r in d'.dirs && Inside(d', r) == View(map[], {})
  }

  lemma EmptyFolder(c: Config, s: State, w: Id, r: Path, d': Disk)
    requires Inv(c, s) && |r| == 2 && !s.disk.Exists(r)
    requires d'.settled == s.disk.settled && d'.dirs == s.disk.dirs + {r}
    ensures MadeFolder(s.disk, d', w, r)
  {
    var d := s.disk;
    NothingInside(d, r);
    forall p | r < p
      ensures p !in d.settled && p !in d.dirs
    {
      FolderOf(r, p);
    }
    assert Inside(d', r).files == map[];
    assert Inside(d', r).dirs == {};
    assert SettledBy(d', w) == SettledBy(d, w);
  }

  lemma MadeFolderSince(c: Config, d0: Disk, d: Disk, d': Disk, wk: Worker, w: Id, r: Path)
    requires Undisturbed(c, d0, d, wk, w) && MadeFolder(d, d', w, r)
    ensures MadeFolder(d0, d', w, r)
  {
  }

  lemma {:induction false} FolderMade(c: Config, start: State, run: seq<Act>, d0: Disk, s: State, w: Id, r: Path,
                                      d': Disk)
    requires Starts(c, start) && Exec(c, start, run) == Some(s) && w in s.workers
    requires Undisturbed(c, d0, s.disk, s.workers[w], w) && |r| == 2 && !s.disk.Exists(r)
    requires d'.settled == s.disk.settled && d'.dirs == s.disk.dirs + {r}
    ensures MadeFolder(d0, d', w, r)
  {
    Reached(c, start, run, s);
    EmptyFolder(c, s, w, r, d');
    MadeFolderSince(c, d0, s.disk, d', s.workers[w], w, r);
  }

  /** From d to d' the request has made some directories in its folder. */
  ghost predicate MadeDirs(c: Config, d: Disk, d': Disk, wk: Worker, w: Id, made: set<Path>) {
    && Keeps(d, d') && SettledBy(d', w) == SettledBy(d, w)
    && Inside(d', Base(c, wk)) == View(Inside(d, Base(c, wk)).files, Inside(d, Base(c, wk)).dirs + made)
  }

  lemma OneMoreDir(c: Config, d0: Disk, d: Disk, d': Disk, wk: Worker, w: Id, dir: Path)
    requires wk.folder.Some? && Undisturbed(c, d0, d, wk, w) && Base(c, wk) < dir
    requires d'.settled == d.settled && d'.dirs == d.dirs + {dir}
    ensures MadeDirs(c, d0, d', wk, w, {dir})
  {
    var r := Base(c, wk);
    assert Inside(d', r).dirs == Inside(d, r).dirs + {dir};
    assert Inside(d', r).files == Inside(d, r).files;
    assert SettledBy(d', w) == SettledBy(d, w);
  }

  lemma MadeMore(c: Config, d0: Disk, d: Disk, d': Disk, wk: Worker, w: Id, made: set<Path>, more: set<Path>)
    requires MadeDirs(c, d0, d, wk, w, made) && MadeDirs(c, d, d', wk, w, more)
    ensures MadeDirs(c, d0, d', wk, w, made + more)
  {
    var r := Base(c, wk);
    assert Inside(d0, r).dirs + made + more == Inside(d0, r).dirs + (made + more);
  }

  lemma MadeStays(c: Config, d0: Disk, d: Disk, d': Disk, wk: Worker, w: Id, made: set<Path>)
    requires wk.folder.Some? && MadeDirs(c, d0, d, wk, w, made) && Undisturbed(c, d, d', wk, w)
    ensures MadeDirs(c, d0, d', wk, w, made)
  {
  }

  /** A file in the way inside a request's own folder was published by the request itself. */
  lemma OwnFile(c: Config, s: State, w: Id, p: Path)
    requires Inv(c, s) && w in s.workers && s.workers[w].folder.Some? && !s.workers[w].phase.Busy?
    requires Base(c, s.workers[w]) < p && p in s.disk.names
    ensures p in Inside(s.disk, Base(c, s.workers[w])).files
  {
    FolderOf(Base(c, s.workers[w]), p);
  }

  lemma FolderStep(c: Config, d: Disk, w: Id, wk: Worker, name: Name, d': Disk)
    requires wk.folder.None? && [c.home(wk.user)] in d.dirs && Plain(name) && !d.Exists([c.home(wk.user)] + [name])
    requires d' == d.(dirs := d.dirs + {[c.home(wk.user)] + [name]}, owner := d.owner[[c.home(wk.user)] + [name] := w])
    ensures DirStep(c, d, w, wk, Event.MakeFolder(name)) == Some((d', wk.(folder := Some(name))))
  {
  }

  lemma DirMadeStep(c: Config, d: Disk, w: Id, wk: Worker, dir: Path, d': Disk)
    requires wk.folder.Some? && Base(c, wk) < dir && dir[..|dir| - 1] in d.dirs && Plain(dir[|dir| - 1])
    requires dir !in d.names && d' == d.(dirs := d.dirs + {dir})
    ensures DirStep(c, d, w, wk, Event.MakeDir(dir)) == Some((d', wk))
  {
    if dir in d.dirs {
      assert d.dirs + {dir} == d.dirs;
    }
  }

  // ---- the methods ----------------------------------------------------------------------------

  lemma HomeStep(c: Config, d0: Disk, d: Disk, w: Id, wk: Worker, d': Disk)
    requires wk.folder.None? && Undisturbed(c, d0, d, wk, w) && [c.home(wk.user)] !in d.names
    requires d' == d.(dirs := d.dirs + {[c.home(wk.user)]})
    ensures DirStep(c, d, w, wk, Event.EnsureHome) == Some((d', wk)) && Undisturbed(c, d0, d', wk, w)
  {
    assert SettledBy(d', w) == SettledBy(d, w);
  }

  /** The user's directory is there. */
  method HomeAppears(s: Server, w: Id, home: Path, ghost d0: Disk)
    requires s.Valid() && w in s.workers && s.workers[w].phase == Ready && s.workers[w].folder.None?
    requires home == [s.c.home(s.workers[w].user)] && home !in s.disk.names
    requires Undisturbed(s.c, d0, s.disk, s.workers[w], w)
    modifies s
    ensures s.Valid() && old(s.trace) <= s.trace && w in s.workers && s.workers[w] == old(s.workers[w])
    ensures Undisturbed(s.c, d0, s.disk, old(s.workers[w]), w) && home in s.disk.dirs
  {
    ghost var before := s.Now();
    var after := s.disk.(dirs := s.disk.dirs + {home});
    HomeStep(s.c, d0, s.disk, w, s.workers[w], after);
    s.disk := after;
    s.TookInDirs(w, Event.EnsureHome, before, before.workers[w]);
  }

  /** os.MkdirAll of the user's directory. */
  method MakeHome(s: Server, w: Id, home: Path) returns (ok: bool)
    requires s.Valid() && w in s.workers && s.workers[w].phase == Ready && s.workers[w].folder.None?
    requires home == [s.c.home(s.workers[w].user)]
    modifies s, s.quota, s.slots
    ensures s.Valid() && old(s.trace) <= s.trace && w in s.workers && s.workers[w] == old(s.workers[w])
    ensures Undisturbed(s.c, old(s.disk), s.disk, old(s.workers[w]), w)
    ensures if ok then home in s.disk.dirs else IoFailed(s.Since(old(s.trace)), w)
  {
    ghost var before := s.Pause(w);
    ghost var run := s.trace;
    ok := *;
    if !ok || home in s.disk.names {
      s.TookInDirs(w, DirFails, before, before.workers[w]);
      LastFailed(s.Since(old(s.trace)), w, DirFails, run);
      return false;
    }
    HomeAppears(s, w, home, old(s.disk));
  }

  /** A directory that is not there appears. */
  method FolderAppears(s: Server, w: Id, home: Path, name: Name, ghost d0: Disk)
    requires s.Valid() && w in s.workers && s.workers[w].phase == Ready && s.workers[w].folder.None?
    requires home == [s.c.home(s.workers[w].user)] && home in s.disk.dirs
    requires Plain(name) && !s.disk.Exists(home + [name]) && Undisturbed(s.c, d0, s.disk, s.workers[w], w)
    modifies s
    ensures s.Valid() && old(s.trace) <= s.trace && w in s.workers
    ensures MadeFolder(d0, s.disk, w, home + [name])
    ensures s.workers[w] == old(s.workers[w]).(folder := Some(name))
  {
    ghost var before := s.Now();
    var r := home + [name];
    var after := s.disk.(dirs := s.disk.dirs + {r}, owner := s.disk.owner[r := w]);
    FolderStep(s.c, before.disk, w, before.workers[w], name, after);
    FolderMade(s.c, s.start, s.trace, d0, before, w, r, after);
    s.disk := after;
    s.TookInDirs(w, Event.MakeFolder(name), before, before.workers[w].(folder := Some(name)));
  }

  /** os.Mkdir of one candidate: made, or the name is in use, or another error. */
  method MakeFolder(s: Server, w: Id, home: Path, name: Name) returns (made: bool, failed: bool)
    requires s.Valid() && w in s.workers && s.workers[w].phase == Ready && s.workers[w].folder.None?
    requires home == [s.c.home(s.workers[w].user)] && home in s.disk.dirs
    modifies s, s.quota, s.slots
    ensures s.Valid() && old(s.trace) <= s.trace && w in s.workers
    ensures made ==> !failed && MadeFolder(old(s.disk), s.disk, w, home + [name])
    ensures !made ==> Undisturbed(s.c, old(s.disk), s.disk, old(s.workers[w]), w)
    ensures !made && !failed ==> Seen(s.c, s.Since(old(s.trace)), home + [name])
    ensures failed ==> IoFailed(s.Since(old(s.trace)), w)
    ensures s.workers[w] == if made then old(s.workers[w]).(folder := Some(name)) else old(s.workers[w])
  {
    ghost var before := s.Pause(w);
    ghost var run := s.trace;
    failed, made := *, false;
    if failed {
      s.TookInDirs(w, DirFails, before, before.workers[w]);
      LastFailed(s.Since(old(s.trace)), w, DirFails, run);
      return;
    }
    var r := home + [name];
    if !Plain(name) || s.disk.Exists(r) {
      SeenHere(s.c, s.Since(old(s.trace)), run, before, r);
      return;
    }
    made := true;
    FolderAppears(s, w, home, name, old(s.disk));
  }

  /** One turn of createUniqueDirectory's loop, seen from its start. */
  method TryFolder(s: Server, w: Id, home: Path, name: Name, sequence: nat, ghost d0: Disk, ghost from: seq<Act>)
    returns (made: bool, failed: bool)
    requires s.Valid() && w in s.workers && s.workers[w].phase == Ready && s.workers[w].folder.None?
    requires home == [s.c.home(s.workers[w].user)] && home in s.disk.dirs && from <= s.trace
    requires Undisturbed(s.c, d0, s.disk, s.workers[w], w) && TriedFolders(s.c, s.Since(from), home, name, sequence)
    modifies s, s.quota, s.slots
    ensures s.Valid() && old(s.trace) <= s.trace && w in s.workers
    ensures TriedFolders(s.c, s.Since(from), home, name, sequence)
    ensures made ==> !failed && MadeFolder(d0, s.disk, w, home + [FolderCandidate(name, sequence)])
    ensures !made ==> Undisturbed(s.c, d0, s.disk, old(s.workers[w]), w)
    ensures !made && !failed ==> TriedFolders(s.c, s.Since(from), home, name, sequence + 1)
    ensures failed ==> IoFailed(s.Since(from), w)
    ensures s.workers[w] == if made then old(s.workers[w]).(folder := Some(FolderCandidate(name, sequence)))
                            else old(s.workers[w])
  {
    ghost var (earlier, wk) := (s.disk, s.workers[w]);
    made, failed := MakeFolder(s, w, home, FolderCandidate(name, sequence));
    if made {
      MadeFolderSince(s.c, d0, earlier, s.disk, wk, w, home + [FolderCandidate(name, sequence)]);
    }
    TriedFoldersWithin(s.c, Span(s.start, from, old(s.trace)), s.Since(from), home, name, sequence);
    if failed {
      IoFailedWithin(s.Since(old(s.trace)), s.Since(from), w);
    } else if !made {
      SeenWithin(s.c, s.Since(old(s.trace)), s.Since(from), home + [FolderCandidate(name, sequence)]);
    }
  }

  /** Why there is no folder. */
  datatype NoFolder = BadName | Exhausted | CallFailed

  /** createUniqueDirectory: the first candidate that is free when it is tried becomes the request's
      folder; it did not exist, nothing is in it, and from now on nobody else writes there. */
  method CreateUniqueDirectory(s: Server, w: Id, home: Path, root: Name)
    returns (folder: Option<Name>, why: NoFolder, ghost index: nat)
    requires s.Valid() && w in s.workers && s.workers[w].phase == Ready && s.workers[w].folder.None?
    requires home == [s.c.home(s.workers[w].user)] && home in s.disk.dirs
    modifies s, s.quota, s.slots
    ensures s.Valid() && old(s.trace) <= s.trace && w in s.workers
    ensures folder.Some? ==>
              && index < ATTEMPTS && folder.value == FolderCandidate(SafeFilename(root), index)
              && MadeFolder(old(s.disk), s.disk, w, home + [folder.value])
              && SafeFilename(root) !in {"", ".."}
    ensures folder.None? ==>
              && Undisturbed(s.c, old(s.disk), s.disk, old(s.workers[w]), w)
              && (why.BadName? ==> SafeFilename(root) in {"", ".."})
              && (why.Exhausted? ==> index == ATTEMPTS)
              && (why.CallFailed? ==> IoFailed(s.Since(old(s.trace)), w))
    ensures index <= ATTEMPTS && TriedFolders(s.c, s.Since(old(s.trace)), home, SafeFilename(root), index)
    ensures s.workers[w] == if folder.Some? then old(s.workers[w]).(folder := folder) else old(s.workers[w])
  {
    index := 0;
    var name := SafeFilename(root);
    if name == "" {
      return None, BadName, index;
    }
    var sequence := 0;
    while sequence < ATTEMPTS
      invariant 0 <= sequence <= ATTEMPTS && (sequence > 0 ==> name != "..")
      invariant s.Valid() && old(s.trace) <= s.trace && w in s.workers && s.workers[w] == old(s.workers[w])
      invariant Undisturbed(s.c, old(s.disk), s.disk, old(s.workers[w]), w)
      invariant TriedFolders(s.c, s.Since(old(s.trace)), home, name, sequence)
    {
      var candidate := FolderCandidate(name, sequence);
      if candidate == ".." {
        OnlyNameItself(name, sequence);
        return None, BadName, sequence;
      }
      var made, failed := TryFolder(s, w, home, name, sequence, old(s.disk), old(s.trace));
      if made {
        return Some(candidate), BadName, sequence;
      }
      if failed {
        return None, CallFailed, sequence;
      }
      sequence := sequence + 1;
    }
    return None, Exhausted, sequence;
  }

  /** A numbered candidate is never the parent directory. */
  lemma OnlyNameItself(name: Name, i: nat)
    ensures FolderCandidate(name, i) == ".." ==> i == 0 && name == ".."
  {
    assert i > 0 ==> |FolderCandidate(name, i)| > 2;
  }

  /** One directory of os.MkdirAll: there afterwards, or a file is in the way, or another error. */
  method MakeDir(s: Server, w: Id, r: Path, dir: Path) returns (ok: bool, blocked: bool)
    requires s.Valid() && w in s.workers && s.workers[w].phase == Ready && s.workers[w].folder.Some?
    requires r == Base(s.c, s.workers[w]) && r < dir && dir[..|dir| - 1] in s.disk.dirs && Plain(dir[|dir| - 1])
    modifies s, s.quota, s.slots
    ensures s.Valid() && old(s.trace) <= s.trace && w in s.workers && s.workers[w] == old(s.workers[w])
    ensures ok ==> !blocked && dir in s.disk.dirs && MadeDirs(s.c, old(s.disk), s.disk, old(s.workers[w]), w, {dir})
    ensures !ok ==> Undisturbed(s.c, old(s.disk), s.disk, old(s.workers[w]), w)
    ensures blocked ==> dir in Inside(old(s.disk), r).files
    ensures !ok && !blocked ==> IoFailed(s.Since(old(s.trace)), w)
  {
    ghost var before := s.Pause(w);
    ghost var run := s.trace;
    ok, blocked := *, false;
    if !ok {
      s.TookInDirs(w, DirFails, before, before.workers[w]);
      LastFailed(s.Since(old(s.trace)), w, DirFails, run);
      return;
    }
    if dir in s.disk.names {
      assert dir in Inside(before.disk, r).files by {
        Reached(s.c, s.start, s.trace, before);
        OwnFile(s.c, before, w, dir);
      }
      return false, true;
    }
    s.disk := s.disk.(dirs := s.disk.dirs + {dir});
    OneMoreDir(s.c, old(s.disk), before.disk, s.disk, before.workers[w], w, dir);
    DirMadeStep(s.c, before.disk, w, before.workers[w], dir, s.disk);
    s.TookInDirs(w, Event.MakeDir(dir), before, before.workers[w]);
  }

  /** createRelativeDirectory's os.MkdirAll, from the folder down. */
  method MakeDirs(s: Server, w: Id, r: Path, local: seq<Name>) returns (ok: bool, blocked: bool, ghost made: set<Path>)
    requires s.Valid() && w in s.workers && s.workers[w].phase == Ready && s.workers[w].folder.Some?
    requires r == Base(s.c, s.workers[w]) && r in s.disk.dirs && forall i :: 0 <= i < |local| ==> Plain(local[i])
    modifies s, s.quota, s.slots
    ensures s.Valid() && old(s.trace) <= s.trace && w in s.workers && s.workers[w] == old(s.workers[w])
    ensures MadeDirs(s.c, old(s.disk), s.disk, old(s.workers[w]), w, made)
    ensures ok ==> !blocked && made == Below(r, local) && r + local in s.disk.dirs
    ensures blocked ==> exists p :: p in Below(r, local) && p in Inside(old(s.disk), r).files
    ensures !ok && !blocked ==> IoFailed(s.Since(old(s.trace)), w)
  {
    made := {};
    var i := 0;
    assert Inside(s.disk, r).dirs + {} == Inside(s.disk, r).dirs && r + local[..0] == r;
    while i < |local|
      invariant 0 <= i <= |local|
      invariant s.Valid() && old(s.trace) <= s.trace && w in s.workers && s.workers[w] == old(s.workers[w])
      invariant made == Below(r, local[..i]) && MadeDirs(s.c, old(s.disk), s.disk, old(s.workers[w]), w, made)
      invariant r + local[..i] in s.disk.dirs
    {
      ghost var (earlier, run) := (s.disk, s.trace);
      var dir := r + local[..i + 1];
      assert dir[..|dir| - 1] == r + local[..i];
      ok, blocked := MakeDir(s, w, r, dir);
      BelowHas(r, local, i + 1);
      if !ok {
        MadeStays(s.c, old(s.disk), earlier, s.disk, old(s.workers[w]), w, made);
        if !blocked {
          IoFailedWithin(s.Since(run), s.Since(old(s.trace)), w);
        }
        return;
      }
      MadeMore(s.c, old(s.disk), earlier, s.disk, old(s.workers[w]), w, made, {dir});
      BelowGrows(r, local, i);
      made := made + {dir};
      i := i + 1;
    }
    assert local[..|local|] == local;
    ok, blocked := true, false;
  }

  /** createRelativeDirectory: the directory of the sanitised path, or a refusal; a path that can be
      resolved fails only for an I/O error or a file of the same request in the way. */
  method CreateRelativeDirectory(s: Server, w: Id, r: Path, relative: string)
    returns (dir: Option<Path>, blocked: bool, ghost made: set<Path>)
    requires s.Valid() && w in s.workers && s.workers[w].phase == Ready && s.workers[w].folder.Some?
    requires r == Base(s.c, s.workers[w]) && r in s.disk.dirs
    modifies s, s.quota, s.slots
    ensures s.Valid() && old(s.trace) <= s.trace && w in s.workers && s.workers[w] == old(s.workers[w])
    ensures MadeDirs(s.c, old(s.disk), s.disk, old(s.workers[w]), w, made)
    ensures dir.Some? ==>
              && RelativePath(relative).Some? && dir.value == r + RelativePath(relative).value
              && made == Below(r, RelativePath(relative).value) && dir.value in s.disk.dirs
    ensures RelativePath(relative).None? ==> made == {}
    ensures blocked ==> RelativePath(relative).Some? && exists p ::
              p in Below(r, RelativePath(relative).value) && p in Inside(old(s.disk), r).files
    ensures dir.None? && RelativePath(relative).Some? && !blocked ==> IoFailed(s.Since(old(s.trace)), w)
  {
    dir, blocked, made := None, false, {};
    var local := ResolveRelative(relative);
    if local.Some? {
      RelativeStaysBelow(relative);
      var ok;
      ok, blocked, made := MakeDirs(s, w, r, local.value);
      if ok {
        dir := Some(r + local.value);
      }
    } else {
      assert Inside(s.disk, r).dirs + {} == Inside(s.disk, r).dirs;
    }
  }
}
