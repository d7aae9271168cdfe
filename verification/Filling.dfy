/** What an upload leaves on disk: its own places, and for a folder upload the folder's whole inside. */
module Filling {
  import opened Sums
  import opened Naming
  import opened Candidates
  import opened Paths
  import opened Protocol
  import opened Runs
  import opened Causes
  import opened Server
  import opened Folders
  import opened Requests

  /** A job done, under the index-th candidate of its name. */
  datatype Stowed = Stowed(job: Job, index: nat)

  function Local(job: Job): seq<Name> {
    match RelativePath(job.relative)
    case None => []
    case Some(local) => local
  }

  function Dir(base: Path, job: Job): Path { base + Local(job) }

  function Place(base: Path, job: Job, k: nat): Path {
    Dir(base, job) + [FileCandidate(SafeFilename(job.part.filename), k)]
  }

  function PlaceOf(base: Path, x: Stowed): Path { Place(base, x.job, x.index) }

  function JobsOf(stowed: seq<Stowed>): seq<Job> {
    seq(|stowed|, i requires 0 <= i < |stowed| => stowed[i].job)
  }

  /** What storing one more file adds to the inside of r. */
  ghost function Added(r: Path, v: View, x: Stowed): View {
    View(v.files[PlaceOf(r, x) := x.job.part.body], v.dirs + Below(r, Local(x.job)))
  }

  /** An empty folder filled with these files, one after the other. */
  ghost function Filled(r: Path, stowed: seq<Stowed>): View {
    if stowed == [] then View(map[], {})
    else Added(r, Filled(r, stowed[..|stowed| - 1]), stowed[|stowed| - 1])
  }

  lemma {:induction false} FilledMore(r: Path, stowed: seq<Stowed>, m: nat)
    requires m < |stowed|
    ensures Filled(r, stowed[..m + 1]) == Added(r, Filled(r, stowed[..m]), stowed[m])
  {
    assert stowed[..m + 1][..m] == stowed[..m];
  }

  ghost predicate InUse(v: View, p: Path) {
    |p| > 0 && (p in v.files || p in v.dirs || !Plain(p[|p| - 1]) || TempLike(p[|p| - 1]))
  }

  ghost predicate AllInUse(r: Path, v: View, job: Job, n: nat) {
    forall j: nat :: j < n ==> InUse(v, Place(r, job, j))
  }

  /** The folder once the directories that a job needs have been made. */
  ghost function Opened(r: Path, v: View, job: Job): View {
    v.(dirs := v.dirs + Below(r, Local(job)))
  }

  /** The file got the first candidate that was free in the folder. */
  ghost predicate FirstFree(r: Path, v: View, x: Stowed) {
    && PlaceOf(r, x) !in v.files && PlaceOf(r, x) !in Opened(r, v, x.job).dirs
    && AllInUse(r, Opened(r, v, x.job), x.job, x.index)
  }

  ghost predicate EachFirstFree(r: Path, stowed: seq<Stowed>) {
    forall n: nat {:trigger FirstFree(r, Filled(r, stowed[..n]), stowed[n])} ::
      n < |stowed| ==> FirstFree(r, Filled(r, stowed[..n]), stowed[n])
  }

  /** All that a part must meet on its own to be stored. */
  predicate Sound(c: Config, job: Job) {
    && SafeFilename(job.part.filename) != "" && RelativePath(job.relative).Some?
    && job.part.end.Eof? && |job.part.body| <= c.maxFileBytes
  }

  /** The file is there, new, whole and w's, and the earlier candidates could not be had when tried. */
  ghost predicate IsStored(c: Config, h: Span, d0: Disk, d: Disk, w: Id, base: Path, x: Stowed) {
    var p := PlaceOf(base, x);
    && Sound(c, x.job) && x.index < ATTEMPTS
    && p !in d0.settled && p in d.settled && d.settled[p].data == x.job.part.body && d.settled[p].who == Some(w)
    && TriedFiles(c, h, Dir(base, x.job), SafeFilename(x.job.part.filename), x.index)
  }

  ghost function Places(base: Path, stowed: seq<Stowed>): set<Path> {
    set i | 0 <= i < |stowed| :: PlaceOf(base, stowed[i])
  }

  /** From d0 to d, request w has stored exactly these files: each at its own new place, with its own
      content, under the first candidate that could be had. */
  ghost predicate Holds(c: Config, h: Span, d0: Disk, d: Disk, w: Id, base: Path, stowed: seq<Stowed>) {
    && Keeps(d0, d)
    && SettledBy(d, w) == SettledBy(d0, w) + Places(base, stowed)
    && (forall i :: 0 <= i < |stowed| ==> IsStored(c, h, d0, d, w, base, stowed[i]))
    && (forall i, j :: 0 <= i < j < |stowed| ==> PlaceOf(base, stowed[i]) != PlaceOf(base, stowed[j]))
  }

  /** The same, between two files; a folder holds these files and their directories and nothing else. */
  ghost predicate Progress(c: Config, h: Span, d0: Disk, d: Disk, wk: Worker, w: Id, stowed: seq<Stowed>) {
    var r := Base(c, wk);
    && Holds(c, h, d0, d, w, r, stowed)
    && (wk.folder.Some? ==>
          r in d.dirs && r !in d0.dirs && Inside(d, r) == Filled(r, stowed) && EachFirstFree(r, stowed))
  }

  /** After a failure some more directories may have been made. */
  ghost predicate Leaves(c: Config, h: Span, d0: Disk, d: Disk, wk: Worker, w: Id, stowed: seq<Stowed>) {
    var r := Base(c, wk);
    && Holds(c, h, d0, d, w, r, stowed)
    && (wk.folder.Some? ==>
          && r !in d0.dirs && EachFirstFree(r, stowed)
          && Inside(d, r).files == Filled(r, stowed).files && Filled(r, stowed).dirs <= Inside(d, r).dirs)
  }

  lemma NothingYet(c: Config, h: Span, d: Disk, wk: Worker, w: Id)
    requires wk.folder.None?
    ensures Progress(c, h, d, d, wk, w, [])
  {
    assert Places(Base(c, wk), []) == {};
  }

  lemma IsStoredStays(c: Config, g: Span, h: Span, d0: Disk, d: Disk, d': Disk, w: Id, base: Path, x: Stowed)
    requires IsStored(c, g, d0, d, w, base, x) && Keeps(d, d') && Within(g, h)
    ensures IsStored(c, h, d0, d', w, base, x)
  {
    TriedFilesWithin(c, g, h, Dir(base, x.job), SafeFilename(x.job.part.filename), x.index);
  }

  lemma HoldsOn(c: Config, g: Span, h: Span, d0: Disk, d: Disk, d': Disk, w: Id, base: Path, stowed: seq<Stowed>)
    requires Holds(c, g, d0, d, w, base, stowed) && Within(g, h)
    requires Keeps(d, d') && SettledBy(d', w) == SettledBy(d, w)
    ensures Holds(c, h, d0, d', w, base, stowed)
  {
    forall i | 0 <= i < |stowed|
      ensures IsStored(c, h, d0, d', w, base, stowed[i])
    {
      IsStoredStays(c, g, h, d0, d, d', w, base, stowed[i]);
    }
  }

  lemma ProgressOn(c: Config, g: Span, h: Span, d0: Disk, d: Disk, d': Disk, wk: Worker, w: Id, stowed: seq<Stowed>)
    requires Progress(c, g, d0, d, wk, w, stowed) && Undisturbed(c, d, d', wk, w) && Within(g, h)
    ensures Progress(c, h, d0, d', wk, w, stowed)
  {
    HoldsOn(c, g, h, d0, d, d', w, Base(c, wk), stowed);
  }

  lemma LeavesOn(c: Config, g: Span, h: Span, d0: Disk, d: Disk, d': Disk, wk: Worker, w: Id, stowed: seq<Stowed>)
    requires Leaves(c, g, d0, d, wk, w, stowed) && Undisturbed(c, d, d', wk, w) && Within(g, h)
    ensures Leaves(c, h, d0, d', wk, w, stowed)
  {
    HoldsOn(c, g, h, d0, d, d', w, Base(c, wk), stowed);
  }

  lemma ProgressLeaves(c: Config, h: Span, d0: Disk, d: Disk, wk: Worker, w: Id, stowed: seq<Stowed>)
    requires Progress(c, h, d0, d, wk, w, stowed)
    ensures Leaves(c, h, d0, d, wk, w, stowed)
  {
  }

  /** The folder has been made: nothing was stored before, and nothing is in it. */
  lemma FolderBegins(c: Config, g: Span, h: Span, d0: Disk, d: Disk, d': Disk, wk: Worker, w: Id, name: Name)
    requires wk.folder.None? && Progress(c, g, d0, d, wk, w, []) && Within(g, h)
    requires MadeFolder(d, d', w, Base(c, wk) + [name])
    ensures Progress(c, h, d0, d', wk.(folder := Some(name)), w, [])
  {
    var r := Base(c, wk.(folder := Some(name)));
    assert r == Base(c, wk) + [name];
    assert Places(r, []) == Places(Base(c, wk), []);
  }

  lemma DirsLeft(c: Config, g: Span, h: Span, d0: Disk, d: Disk, d': Disk, wk: Worker, w: Id, stowed: seq<Stowed>,
                 made: set<Path>)
    requires wk.folder.Some? && Progress(c, g, d0, d, wk, w, stowed) && Within(g, h)
    requires MadeDirs(c, d, d', wk, w, made)
    ensures Leaves(c, h, d0, d', wk, w, stowed)
  {
    HoldsOn(c, g, h, d0, d, d', w, Base(c, wk), stowed);
  }

  /** One more file. */
  lemma HoldsOneMore(c: Config, g: Span, h: Span, d0: Disk, d: Disk, d': Disk, wk: Worker, w: Id, base: Path,
                     stowed: seq<Stowed>, x: Stowed)
    requires Holds(c, g, d0, d, w, base, stowed) && Sound(c, x.job) && x.index < ATTEMPTS && Within(g, h)
    requires Published(c, d, d', wk, w, PlaceOf(base, x), x.job.part.body)
    requires TriedFiles(c, h, Dir(base, x.job), SafeFilename(x.job.part.filename), x.index)
    ensures Holds(c, h, d0, d', w, base, stowed + [x])
  {
    var more := stowed + [x];
    assert PlaceOf(base, x) in SettledBy(d', w);
    forall i | 0 <= i < |more|
      ensures IsStored(c, h, d0, d', w, base, more[i])
    {
      if i < |stowed| {
        IsStoredStays(c, g, h, d0, d, d', w, base, stowed[i]);
      }
    }
    PlacesGrow(base, stowed, x);
  }

  lemma PlacesGrow(base: Path, stowed: seq<Stowed>, x: Stowed)
    ensures Places(base, stowed + [x]) == Places(base, stowed) + {PlaceOf(base, x)}
  {
    var more := stowed + [x];
    assert more[|stowed|] == x;
    forall i | 0 <= i < |stowed|
      ensures PlaceOf(base, more[i]) == PlaceOf(base, stowed[i])
    {
    }
    forall p
      ensures p in Places(base, more) <==> p in Places(base, stowed) + {PlaceOf(base, x)}
    {
      if p in Places(base, stowed) {
        var i :| 0 <= i < |stowed| && p == PlaceOf(base, stowed[i]);
        assert p == PlaceOf(base, more[i]);
      }
    }
  }

  lemma FlatOneMore(c: Config, g: Span, h: Span, d0: Disk, d: Disk, d': Disk, wk: Worker, w: Id, stowed: seq<Stowed>,
                    x: Stowed)
    requires wk.folder.None? && Progress(c, g, d0, d, wk, w, stowed) && Within(g, h)
    requires Sound(c, x.job) && x.index < ATTEMPTS
    requires Published(c, d, d', wk, w, PlaceOf(Base(c, wk), x), x.job.part.body)
    requires TriedFiles(c, h, Dir(Base(c, wk), x.job), SafeFilename(x.job.part.filename), x.index)
    ensures Progress(c, h, d0, d', wk, w, stowed + [x])
  {
    HoldsOneMore(c, g, h, d0, d, d', wk, w, Base(c, wk), stowed, x);
  }

  /** A name taken on disk inside the folder is a name in use in its view. */
  lemma TakenInside(d: Disk, r: Path, job: Job, j: nat)
    requires Taken(d, Place(r, job, j))
    ensures InUse(Inside(d, r), Place(r, job, j))
  {
    assert r < Place(r, job, j);
  }

  lemma AllTakenInside(d: Disk, r: Path, job: Job, n: nat)
    requires TakenFiles(d, Dir(r, job), SafeFilename(job.part.filename), n)
    ensures AllInUse(r, Inside(d, r), job, n)
  {
    forall j: nat | j < n
      ensures InUse(Inside(d, r), Place(r, job, j))
    {
      assert Taken(d, Dir(r, job) + [FileCandidate(SafeFilename(job.part.filename), j)]);
      TakenInside(d, r, job, j);
    }
  }

  /** The file just stored is at none of the candidates tried before. */
  lemma {:induction false} UsedBefore(r: Path, v: View, x: Stowed)
    requires AllInUse(r, Added(r, v, x), x.job, x.index)
    ensures AllInUse(r, Opened(r, v, x.job), x.job, x.index)
  {
    var name := SafeFilename(x.job.part.filename);
    forall j: nat | j < x.index
      ensures InUse(Opened(r, v, x.job), Place(r, x.job, j))
    {
      assert InUse(Added(r, v, x), Place(r, x.job, j));
      var p := Place(r, x.job, j);
      if p == PlaceOf(r, x) {
        assert p[|p| - 1] == FileCandidate(name, j) && p[|p| - 1] == FileCandidate(name, x.index);
        FileCandidatesDiffer(name, j, x.index);
      }
    }
  }

  lemma FolderOneMore(c: Config, g: Span, h: Span, d0: Disk, d: Disk, d1: Disk, d': Disk, wk: Worker, w: Id,
                      stowed: seq<Stowed>, x: Stowed)
    requires wk.folder.Some? && Progress(c, g, d0, d, wk, w, stowed) && Within(g, h)
    requires Sound(c, x.job) && x.index < ATTEMPTS
    requires MadeDirs(c, d, d1, wk, w, Below(Base(c, wk), Local(x.job)))
    requires Published(c, d1, d', wk, w, PlaceOf(Base(c, wk), x), x.job.part.body)
    requires TriedFiles(c, h, Dir(Base(c, wk), x.job), SafeFilename(x.job.part.filename), x.index)
    requires TakenFiles(d', Dir(Base(c, wk), x.job), SafeFilename(x.job.part.filename), x.index)
    ensures Progress(c, h, d0, d', wk, w, stowed + [x])
  {
    var r := Base(c, wk);
    HoldsOn(c, g, h, d0, d, d1, w, r, stowed);
    HoldsOneMore(c, h, h, d0, d1, d', wk, w, r, stowed, x);
    assert (stowed + [x])[..|stowed|] == stowed;
    assert Inside(d', r) == Added(r, Filled(r, stowed), x);
    AllTakenInside(d', r, x.job, x.index);
    UsedBefore(r, Filled(r, stowed), x);
    FreeBefore(d1, d', r, Filled(r, stowed), x);
    EachOneMore(r, stowed, x);
  }

  lemma {:induction false} FreeBefore(d1: Disk, d': Disk, r: Path, v: View, x: Stowed)
    requires Inside(d1, r) == Opened(r, v, x.job)
    requires PlaceOf(r, x) !in d1.settled && PlaceOf(r, x) !in d1.dirs
    ensures PlaceOf(r, x) !in v.files && PlaceOf(r, x) !in Opened(r, v, x.job).dirs
  {
    assert PlaceOf(r, x) !in Inside(d1, r).files && PlaceOf(r, x) !in Inside(d1, r).dirs;
  }

  lemma {:induction false} EachOneMore(r: Path, stowed: seq<Stowed>, x: Stowed)
    requires EachFirstFree(r, stowed) && FirstFree(r, Filled(r, stowed), x)
    ensures EachFirstFree(r, stowed + [x])
  {
    var more := stowed + [x];
    forall n: nat | n < |more|
      ensures FirstFree(r, Filled(r, more[..n]), more[n])
    {
      assert more[..n] == stowed[..n];
      assert stowed[..|stowed|] == stowed;
    }
  }

  /** No candidate of the next file can be had: none is free in the folder. */
  lemma {:induction false} NoneFree(c: Config, d: Disk, d1: Disk, d': Disk, wk: Worker, w: Id, stowed: seq<Stowed>,
                                    job: Job)
    requires wk.folder.Some? && Inside(d, Base(c, wk)) == Filled(Base(c, wk), stowed)
    requires MadeDirs(c, d, d1, wk, w, Below(Base(c, wk), Local(job))) && Undisturbed(c, d1, d', wk, w)
    requires TakenFiles(d', Dir(Base(c, wk), job), SafeFilename(job.part.filename), ATTEMPTS)
    ensures AllInUse(Base(c, wk), Opened(Base(c, wk), Filled(Base(c, wk), stowed), job), job, ATTEMPTS)
  {
    AllTakenInside(d', Base(c, wk), job, ATTEMPTS);
  }
}
