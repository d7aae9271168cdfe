/** The upload handler: the loop over the parts of one request, run while any number of other
    requests run (internal/dumpbox/server.go:271-408). */
module Uploads {
  import opened Sums
  import opened Limits
  import opened Naming
  import opened Candidates
  import opened Paths
  import opened Protocol
  import opened SlotsInvariant
  import opened Runs
  import opened Causes
  import opened Server
  import opened Folders
  import opened Requests
  import opened Filling

  function Home(c: Config, wk: Worker): Path { [c.home(wk.user)] }

  /** A directory on the way to the next file has the name of a file stored before. */
  ghost predicate Blocked(r: Path, stowed: seq<Stowed>, job: Job) {
    exists p :: p in Below(r, Local(job)) && p in Filled(r, stowed).files
  }

  /** The part was given a file slot and was charged for as far as it is read, after the last file. */
  ghost predicate TakenIn(c: Config, h: Span, w: Id, part: Part) {
    LetIn(c, h, w, ByFiles, 1) && LetIn(c, h, w, ByBytes, Demand(c, part.body))
  }

  predicate AfterReading(failure: Failure) {
    !failure.InvalidName? && !failure.QuotaExceeded? && !failure.IoError?
  }

  /** Why a request stopped at this job. What is not the request's own doing can be pointed at in what
      happened meanwhile: a call that failed, a moment at which a quota had no room, or one for each
      of the names at which it could not be had. */
  ghost predicate Explained(c: Config, h: Span, wk: Worker, w: Id, root: string, stowed: seq<Stowed>, job: Job,
                            t: Trouble) {
    var r := Base(c, wk);
    match t
    case HomeTrouble => IoFailed(h, w)
    case FolderInvalid => root != "" && SafeFilename(root) in {"", ".."}
    case FolderExhausted => root != "" && TriedFolders(c, h, Home(c, wk), SafeFilename(root), ATTEMPTS)
    case FolderTrouble => IoFailed(h, w)
    case InvalidPath => RelativePath(job.relative).None? && (root != "" ==> wk.folder.Some?)
    case PathBlocked => wk.folder.Some? && Blocked(r, stowed, job)
    case PathTrouble => IoFailed(h, w)
    case StoreTrouble(failure) =>
      && Because(c, h, w, job.part, failure) && (root != "" ==> wk.folder.Some?) && RelativePath(job.relative).Some?
      && (failure.InvalidName? <==> SafeFilename(job.part.filename) == "")
      && (AfterReading(failure) ==> TakenIn(c, h, w, job.part))
      && (failure.TooManyNames? ==>
            && TriedFiles(c, h, Dir(r, job), SafeFilename(job.part.filename), ATTEMPTS)
            && (wk.folder.Some? ==> AllInUse(r, Opened(r, Filled(r, stowed), job), job, ATTEMPTS)))
  }

  lemma ExplainedWithin(c: Config, g: Span, h: Span, wk: Worker, w: Id, root: string, stowed: seq<Stowed>, job: Job,
                        t: Trouble)
    requires Explained(c, g, wk, w, root, stowed, job, t) && Within(g, h) && SameFiles(c, g.start, g.to, h.to, w)
    ensures Explained(c, h, wk, w, root, stowed, job, t)
  {
    match t
    case FolderExhausted => TriedFoldersWithin(c, g, h, Home(c, wk), SafeFilename(root), ATTEMPTS);
    case StoreTrouble(failure) =>
      BecauseWithin(c, g, h, w, job.part, failure);
      if AfterReading(failure) {
        LetInWithin(c, g, h, w, ByFiles, 1);
        LetInWithin(c, g, h, w, ByBytes, Demand(c, job.part.body));
      }
      if failure.TooManyNames? {
        TriedFilesWithin(c, g, h, Dir(Base(c, wk), job), SafeFilename(job.part.filename), ATTEMPTS);
      }
    case FolderInvalid =>
    case InvalidPath =>
    case PathBlocked =>
    case _ => IoFailedWithin(g, h, w);
  }

  /** The folder has the first candidate of its name that could be had. */
  ghost predicate Named(c: Config, h: Span, wk: Worker, root: string) {
    wk.folder.Some? ==>
      && root != "" && SafeFilename(root) !in {"", ".."}
      && exists k: nat ::
           && k < ATTEMPTS && wk.folder.value == FolderCandidate(SafeFilename(root), k)
           && TriedFolders(c, h, Home(c, wk), SafeFilename(root), k)
  }

  lemma NamedWithin(c: Config, g: Span, h: Span, wk: Worker, wk': Worker, root: string)
    requires Named(c, g, wk, root) && Within(g, h) && wk'.user == wk.user && wk'.folder == wk.folder
    ensures Named(c, h, wk', root)
  {
    if wk.folder.Some? {
      var k: nat :| k < ATTEMPTS && wk.folder.value == FolderCandidate(SafeFilename(root), k)
                    && TriedFolders(c, g, Home(c, wk), SafeFilename(root), k);
      TriedFoldersWithin(c, g, h, Home(c, wk), SafeFilename(root), k);
    }
  }

  function Shown(folder: Option<Name>): Path {
    if folder.Some? then [folder.value] else []
  }

  /** The names reported to the client. */
  function Names(folder: Option<Name>, stowed: seq<Stowed>): seq<Path> {
    seq(|stowed|, i requires 0 <= i < |stowed| => PlaceOf(Shown(folder), stowed[i]))
  }

  /** The sizes counted in the metrics. */
  function Sizes(stowed: seq<Stowed>): seq<nat> {
    seq(|stowed|, i requires 0 <= i < |stowed| => |stowed[i].job.part.body|)
  }

  /** What storePart says about the part, the disk and what happened meanwhile. */
  ghost predicate StoreOutcome(c: Config, h: Span, d: Disk, d': Disk, wk: Worker, w: Id, dir: Path, part: Part,
                               result: Stored, index: nat) {
    var name := SafeFilename(part.filename);
    && (result.Stored? ==>
          && part.end.Eof? && name != "" && result.written == |part.body| <= c.maxFileBytes
          && index < ATTEMPTS && result.name == FileCandidate(name, index)
          && Published(c, d, d', wk, w, dir + [result.name], part.body)
          && TriedFiles(c, h, dir, name, index) && TakenFiles(d', dir, name, index))
    && (result == Failed(InvalidName) <==> name == "")
    && (result.Failed? && AfterReading(result.why) ==> TakenIn(c, h, w, part))
    && (result.Failed? ==>
          && Undisturbed(c, d, d', wk, w) && Because(c, h, w, part, result.why)
          && (result.why.TooManyNames? ==>
                TriedFiles(c, h, dir, name, ATTEMPTS) && TakenFiles(d', dir, name, ATTEMPTS)))
  }

  lemma FlatStored(c: Config, g: Span, h: Span, d0: Disk, d: Disk, d': Disk, wk: Worker, w: Id, part: Part,
                   result: Stored, x: Stowed, stowed: seq<Stowed>)
    requires wk.folder.None? && Progress(c, g, d0, d, wk, w, stowed) && x.job == Job("", part) && Within(g, h)
    requires StoreOutcome(c, h, d, d', wk, w, Base(c, wk), part, result, x.index)
    ensures result.Stored? ==> PlaceOf([], x) == [result.name]
    ensures Progress(c, h, d0, d', wk, w, if result.Stored? then stowed + [x] else stowed)
    ensures result.Failed? ==> Explained(c, h, wk, w, "", stowed, x.job, StoreTrouble(result.why))
  {
    assert Dir(Base(c, wk), x.job) == Base(c, wk);
    if result.Stored? {
      FlatOneMore(c, g, h, d0, d, d', wk, w, stowed, x);
    } else {
      ProgressOn(c, g, h, d0, d, d', wk, w, stowed);
    }
  }

  lemma FolderStored(c: Config, g: Span, h: Span, d0: Disk, d: Disk, d1: Disk, d': Disk, wk: Worker, w: Id,
                     result: Stored, x: Stowed, stowed: seq<Stowed>)
    requires wk.folder.Some? && Progress(c, g, d0, d, wk, w, stowed) && Within(g, h)
    requires RelativePath(x.job.relative).Some?
    requires MadeDirs(c, d, d1, wk, w, Below(Base(c, wk), Local(x.job)))
    requires StoreOutcome(c, h, d1, d', wk, w, Dir(Base(c, wk), x.job), x.job.part, result, x.index)
    requires result.Stored?
    ensures Progress(c, h, d0, d', wk, w, stowed + [x])
    ensures PlaceOf(Base(c, wk)[1..], x) == Dir(Base(c, wk), x.job)[1..] + [result.name]
  {
    StoredAt(c, h, d1, d', wk, w, Base(c, wk), result, x);
    FolderOneMore(c, g, h, d0, d, d1, d', wk, w, stowed, x);
    PlaceBelow(Base(c, wk), x);
  }

  /** A part that was stored is a job done. */
  lemma StoredAt(c: Config, h: Span, d: Disk, d': Disk, wk: Worker, w: Id, base: Path, result: Stored, x: Stowed)
    requires StoreOutcome(c, h, d, d', wk, w, Dir(base, x.job), x.job.part, result, x.index) && result.Stored?
    requires RelativePath(x.job.relative).Some?
    ensures Sound(c, x.job) && x.index < ATTEMPTS
    ensures result.name == FileCandidate(SafeFilename(x.job.part.filename), x.index)
    ensures Published(c, d, d', wk, w, PlaceOf(base, x), x.job.part.body)
    ensures TriedFiles(c, h, Dir(base, x.job), SafeFilename(x.job.part.filename), x.index)
    ensures TakenFiles(d', Dir(base, x.job), SafeFilename(x.job.part.filename), x.index)
  {
  }

  lemma PlaceBelow(base: Path, x: Stowed)
    requires base != []
    ensures PlaceOf(base[1..], x) == Dir(base, x.job)[1..] + [FileCandidate(SafeFilename(x.job.part.filename), x.index)]
  {
    assert Dir(base, x.job)[1..] == base[1..] + Local(x.job);
  }

  lemma FolderFailed(c: Config, g: Span, h: Span, d0: Disk, d: Disk, d1: Disk, d': Disk, wk: Worker, w: Id,
                     root: string, result: Stored, job: Job, index: nat, stowed: seq<Stowed>)
    requires wk.folder.Some? && Progress(c, g, d0, d, wk, w, stowed) && Within(g, h)
    requires RelativePath(job.relative).Some? && MadeDirs(c, d, d1, wk, w, Below(Base(c, wk), Local(job)))
    requires StoreOutcome(c, h, d1, d', wk, w, Dir(Base(c, wk), job), job.part, result, index) && result.Failed?
    ensures Leaves(c, h, d0, d', wk, w, stowed)
    ensures Explained(c, h, wk, w, root, stowed, job, StoreTrouble(result.why))
  {
    DirsLeft(c, g, h, d0, d, d1, wk, w, stowed, Below(Base(c, wk), Local(job)));
    LeavesOn(c, h, h, d0, d1, d', wk, w, stowed);
    if result.why.TooManyNames? {
      NoneFree(c, d, d1, d', wk, w, stowed, job);
    }
  }

  /** storePart, with what it says under one name; from is where the request began. */
  method Store(s: Server, w: Id, subject: Subject, dir: Path, part: Part, ghost from: seq<Act>)
    returns (result: Stored, ghost index: nat)
    requires s.Valid() && w in s.workers && s.workers[w].phase == Ready && s.workers[w].user.subject == subject
    requires InDir(s.c, s.workers[w], dir) && from <= s.trace
    modifies s, s.quota, s.slots
    ensures s.Valid() && old(s.trace) <= s.trace && w in s.workers && s.workers[w] == old(s.workers[w])
    ensures StoreOutcome(s.c, s.Since(from), old(s.disk), s.disk, old(s.workers[w]), w, dir, part, result, index)
  {
    result, index := s.StorePart(w, subject, dir, part);
    OutcomeTold(s, s.Since(old(s.trace)), s.Since(from), old(s.disk), s.workers[w], w, dir, part, result, index);
  }

  lemma OutcomeTold(s: Server, g: Span, h: Span, d: Disk, wk: Worker, w: Id, dir: Path, part: Part, result: Stored,
                    index: nat)
    requires s.Valid() && h.start == s.start && h.to == s.trace && Within(g, h)
    requires s.StoreTold(g, d, wk, w, dir, SafeFilename(part.filename), part, result, index)
    requires result == Failed(InvalidName) <==> SafeFilename(part.filename) == ""
    requires result != Failed(InvalidName) && result != Failed(QuotaExceeded) ==> Fitted(s.c, g, w, ByFiles, 1)
    requires g.to == h.to && g.from <= g.to && Exec(s.c, g.start, g.from).Some?
    requires Exec(s.c, g.start, g.from).value.disk == d
    ensures StoreOutcome(s.c, h, d, s.disk, wk, w, dir, part, result, index)
  {
    var name := SafeFilename(part.filename);
    if result.Stored? {
      TriedFilesWithin(s.c, g, h, dir, name, index);
      TriedAreTaken(s.c, h, s.Now(), dir, name, index);
    } else {
      BecauseWithin(s.c, g, h, w, part, result.why);
      if AfterReading(result.why) {
        LetInSince(s.c, g, h, w, ByFiles, 1);
        LetInSince(s.c, g, h, w, ByBytes, Demand(s.c, part.body));
      }
      if result.why.TooManyNames? {
        TriedFilesWithin(s.c, g, h, dir, name, ATTEMPTS);
        TriedAreTaken(s.c, h, s.Now(), dir, name, ATTEMPTS);
      }
    }
  }

  // ---- one file -------------------------------------------------------------------------------

  /** A file of an upload without a folder. */
  method StoreFlat(s: Server, w: Id, subject: Subject, home: Path, part: Part, ghost from: seq<Act>, ghost d0: Disk,
                   ghost stowed: seq<Stowed>)
    returns (result: Stored, ghost x: Stowed)
    requires s.Valid() && w in s.workers && s.workers[w].phase == Ready && s.workers[w].folder.None?
    requires s.workers[w].user.subject == subject && home == Home(s.c, s.workers[w]) && from <= s.trace
    requires Progress(s.c, s.Since(from), d0, s.disk, s.workers[w], w, stowed)
    modifies s, s.quota, s.slots
    ensures s.Valid() && old(s.trace) <= s.trace && w in s.workers && s.workers[w] == old(s.workers[w])
    ensures Keeps(old(s.disk), s.disk)
    ensures x.job == Job("", part)
    ensures result.Stored? ==>
              && Progress(s.c, s.Since(from), d0, s.disk, s.workers[w], w, stowed + [x])
              && result.written == |part.body| && PlaceOf([], x) == [result.name]
    ensures result.Failed? ==>
              && Progress(s.c, s.Since(from), d0, s.disk, s.workers[w], w, stowed)
              && Explained(s.c, s.Since(from), s.workers[w], w, "", stowed, x.job, StoreTrouble(result.why))
  {
    ghost var (g, earlier, wk) := (s.Since(from), s.disk, s.workers[w]);
    ghost var index;
    result, index := Store(s, w, subject, home, part, from);
    x := Stowed(Job("", part), index);
    FlatStored(s.c, g, s.Since(from), d0, earlier, s.disk, wk, w, part, result, x, stowed);
  }

  /** What createRelativeDirectory's refusal tells. */
  lemma {:induction false} PathRefused(c: Config, g: Span, h: Span, d: Disk, wk: Worker, w: Id, root: string,
                                       stowed: seq<Stowed>, job: Job, blocked: bool)
    requires wk.folder.Some? && Inside(d, Base(c, wk)) == Filled(Base(c, wk), stowed) && Within(g, h)
    requires blocked ==> RelativePath(job.relative).Some? && exists p ::
               p in Below(Base(c, wk), RelativePath(job.relative).value) && p in Inside(d, Base(c, wk)).files
    requires RelativePath(job.relative).Some? && !blocked ==> IoFailed(g, w)
    ensures Explained(c, h, wk, w, root, stowed, job, PathProblem(job.relative, blocked))
  {
    if RelativePath(job.relative).Some? && !blocked {
      IoFailedWithin(g, h, w);
    }
  }

  function PathProblem(relative: string, blocked: bool): Trouble {
    if blocked then PathBlocked else if RelativePath(relative).None? then InvalidPath else PathTrouble
  }

  /** A file of a folder upload: first its directories, then the file. */
  method StoreInFolder(s: Server, w: Id, subject: Subject, r: Path, relative: string, part: Part,
                       ghost from: seq<Act>, ghost d0: Disk, ghost root: string, ghost stowed: seq<Stowed>)
    returns (name: Path, written: nat, trouble: Option<Trouble>, ghost x: Stowed)
    requires s.Valid() && w in s.workers && s.workers[w].phase == Ready && s.workers[w].folder.Some?
    requires s.workers[w].user.subject == subject && r == Base(s.c, s.workers[w]) && from <= s.trace
    requires Progress(s.c, s.Since(from), d0, s.disk, s.workers[w], w, stowed)
    modifies s, s.quota, s.slots
    ensures s.Valid() && old(s.trace) <= s.trace && w in s.workers && s.workers[w] == old(s.workers[w])
    ensures Keeps(old(s.disk), s.disk)
    ensures x.job == Job(relative, part)
    ensures trouble.None? ==>
              && Progress(s.c, s.Since(from), d0, s.disk, s.workers[w], w, stowed + [x])
              && written == |part.body| && name == PlaceOf(r[1..], x)
    ensures trouble.Some? ==>
              && Leaves(s.c, s.Since(from), d0, s.disk, s.workers[w], w, stowed) && !trouble.value.HomeTrouble?
              && Explained(s.c, s.Since(from), s.workers[w], w, root, stowed, x.job, trouble.value)
  {
    ghost var (g, earlier, wk, index, made) := (s.Since(from), s.disk, s.workers[w], 0, {});
    name, written, trouble := [], 0, None;
    var dir, blocked;
    dir, blocked, made := CreateRelativeDirectory(s, w, r, relative);
    x := Stowed(Job(relative, part), 0);
    ghost var (between, after) := (s.disk, s.Since(from));
    if dir.None? {
      DirsLeft(s.c, g, after, d0, earlier, between, wk, w, stowed, made);
      PathRefused(s.c, s.Since(old(s.trace)), after, earlier, wk, w, root, stowed, x.job, blocked);
      trouble := Some(PathProblem(relative, blocked));
      return;
    }
    var result;
    result, index := Store(s, w, subject, dir.value, part, from);
    x := Stowed(Job(relative, part), index);
    if result.Stored? {
      FolderStored(s.c, g, s.Since(from), d0, earlier, between, s.disk, wk, w, result, x, stowed);
      name, written := dir.value[1..] + [result.name], result.written;
    } else {
      FolderFailed(s.c, g, s.Since(from), d0, earlier, between, s.disk, wk, w, root, result, x.job, index, stowed);
      trouble := Some(StoreTrouble(result.why));
    }
  }

  /** What stands between two parts: the folder has been made once a file has been stored below a
      root, and the disk holds the files so far. */
  ghost predicate Between(c: Config, h: Span, d0: Disk, d: Disk, wk: Worker, w: Id, root: string,
                          folder: Option<Name>, stowed: seq<Stowed>) {
    && wk.phase == Ready && wk.folder == folder && Home(c, wk) in d.dirs
    && Progress(c, h, d0, d, wk, w, stowed) && Named(c, h, wk, root)
    && (root != "" && folder.None? ==> stowed == [])
  }

  lemma FolderOpened(c: Config, g: Span, b: Span, h: Span, d0: Disk, d: Disk, d': Disk, wk: Worker, w: Id, root: string,
                     name: Name, k: nat)
    requires Between(c, g, d0, d, wk, w, root, None, []) && root != "" && SafeFilename(root) !in {"", ".."}
    requires k < ATTEMPTS && name == FolderCandidate(SafeFilename(root), k)
    requires MadeFolder(d, d', w, Home(c, wk) + [name]) && Within(g, h) && Within(b, h)
    requires TriedFolders(c, b, Home(c, wk), SafeFilename(root), k)
    ensures Between(c, h, d0, d', wk.(folder := Some(name)), w, root, Some(name), [])
  {
    FolderBegins(c, g, h, d0, d, d', wk, w, name);
    TriedFoldersWithin(c, b, h, Home(c, wk), SafeFilename(root), k);
  }

  lemma BetweenOn(c: Config, g: Span, h: Span, d0: Disk, d: Disk, d': Disk, wk: Worker, w: Id, root: string,
                  folder: Option<Name>, stowed: seq<Stowed>, more: seq<Stowed>)
    requires Between(c, g, d0, d, wk, w, root, folder, stowed) && Keeps(d, d') && Within(g, h)
    requires Progress(c, h, d0, d', wk, w, more) && (root != "" ==> folder.Some?)
    ensures Between(c, h, d0, d', wk, w, root, folder, more)
  {
    NamedWithin(c, g, h, wk, wk, root);
  }

  function FolderProblem(why: NoFolder): Trouble {
    match why
    case BadName => FolderInvalid
    case Exhausted => FolderExhausted
    case CallFailed => FolderTrouble
  }

  lemma FolderRefused(c: Config, g: Span, h: Span, wk: Worker, w: Id, root: string, job: Job, why: NoFolder, index: nat)
    requires root != "" && Within(g, h) && TriedFolders(c, g, Home(c, wk), SafeFilename(root), index)
    requires why.BadName? ==> SafeFilename(root) in {"", ".."}
    requires why.Exhausted? ==> index == ATTEMPTS
    requires why.CallFailed? ==> IoFailed(g, w)
    ensures Explained(c, h, wk, w, root, [], job, FolderProblem(why))
  {
    match why
    case BadName =>
    case Exhausted => TriedFoldersWithin(c, g, h, Home(c, wk), SafeFilename(root), index);
    case CallFailed => IoFailedWithin(g, h, w);
  }

  /** The folder of a request that has none yet. */
  method OpenFolder(s: Server, w: Id, home: Path, root: string, ghost job: Job, ghost from: seq<Act>, ghost d0: Disk)
    returns (made: Option<Name>, trouble: Option<Trouble>)
    requires s.Valid() && w in s.workers && home == Home(s.c, s.workers[w]) && from <= s.trace && root != ""
    requires Between(s.c, s.Since(from), d0, s.disk, s.workers[w], w, root, None, [])
    modifies s, s.quota, s.slots
    ensures s.Valid() && old(s.trace) <= s.trace && w in s.workers && s.workers[w] == old(s.workers[w]).(folder := made)
    ensures trouble.None? ==>
              made.Some? && Between(s.c, s.Since(from), d0, s.disk, s.workers[w], w, root, made, [])
    ensures trouble.Some? ==>
              && Leaves(s.c, s.Since(from), d0, s.disk, s.workers[w], w, []) && made.None?
              && Named(s.c, s.Since(from), s.workers[w], root) && !trouble.value.HomeTrouble?
              && Explained(s.c, s.Since(from), s.workers[w], w, root, [], job, trouble.value)
  {
    ghost var (g, earlier, wk, k) := (s.Since(from), s.disk, s.workers[w], 0);
    var why;
    made, why, k := CreateUniqueDirectory(s, w, home, root);
    trouble := None;
    if made.Some? {
      FolderOpened(s.c, g, s.Since(old(s.trace)), s.Since(from), d0, earlier, s.disk, wk, w, root, made.value, k);
    } else {
      ProgressOn(s.c, g, s.Since(from), d0, earlier, s.disk, wk, w, []);
      FolderRefused(s.c, s.Since(old(s.trace)), s.Since(from), wk, w, root, job, why, k);
      trouble := Some(FolderProblem(why));
    }
  }

  /** A file part of an acceptable request: make the folder if there is none yet, then store. */
  method StoreFile(s: Server, w: Id, subject: Subject, home: Path, root: string, folder: Option<Name>, relative: string,
                   part: Part, ghost from: seq<Act>, ghost d0: Disk, ghost stowed: seq<Stowed>)
    returns (made: Option<Name>, name: Path, written: nat, trouble: Option<Trouble>, ghost x: Stowed)
    requires s.Valid() && w in s.workers && s.workers[w].user.subject == subject && home == Home(s.c, s.workers[w])
    requires from <= s.trace && (root == "" ==> relative == "")
    requires Between(s.c, s.Since(from), d0, s.disk, s.workers[w], w, root, folder, stowed)
    modifies s, s.quota, s.slots
    ensures s.Valid() && old(s.trace) <= s.trace && w in s.workers && s.workers[w] == old(s.workers[w]).(folder := made)
    ensures x.job == Job(relative, part) && (folder.Some? ==> made == folder) && (root == "" ==> made.None?)
    ensures trouble.None? ==>
              && Between(s.c, s.Since(from), d0, s.disk, s.workers[w], w, root, made, stowed + [x])
              && written == |part.body| && name == PlaceOf(Shown(made), x)
    ensures trouble.Some? ==>
              && Leaves(s.c, s.Since(from), d0, s.disk, s.workers[w], w, stowed)
              && Named(s.c, s.Since(from), s.workers[w], root) && !trouble.value.HomeTrouble?
              && Explained(s.c, s.Since(from), s.workers[w], w, root, stowed, x.job, trouble.value)
  {
    made, name, written, trouble := folder, [], 0, None;
    ghost var (g, earlier, wk) := (s.Since(from), s.disk, s.workers[w]);
    if root == "" {
      var result;
      result, x := StoreFlat(s, w, subject, home, part, from, d0, stowed);
      if result.Stored? {
        name, written := [result.name], result.written;
        BetweenOn(s.c, g, s.Since(from), d0, earlier, s.disk, wk, w, root, folder, stowed, stowed + [x]);
      } else {
        trouble := Some(StoreTrouble(result.why));
      }
      return;
    }
    if folder.None? {
      made, trouble := OpenFolder(s, w, home, root, Job(relative, part), from, d0);
      if trouble.Some? {
        x := Stowed(Job(relative, part), 0);
        return;
      }
    }
    ghost var (middle, between, owner) := (s.Since(from), s.disk, s.workers[w]);
    name, written, trouble, x :=
      StoreInFolder(s, w, subject, home + [made.value], relative, part, from, d0, root, stowed);
    if trouble.None? {
      BetweenOn(s.c, middle, s.Since(from), d0, between, s.disk, owner, w, root, made, stowed, stowed + [x]);
    } else {
      NamedWithin(s.c, middle, s.Since(from), owner, owner, root);
    }
  }

  // ---- the loop -------------------------------------------------------------------------------

  /** The loop's variables. */
  datatype Vars = Vars(root: string, relative: string, folder: Option<Name>, uploaded: seq<Path>, recorded: seq<nat>)

  /** How the request went: where reading stopped, why, and what had been stored by then. */
  datatype Account = Account(stop: nat, why: Option<Trouble>, stowed: seq<Stowed>)

  /** The variables after n parts. */
  ghost predicate Reading(limit: nat, parts: seq<Part>, n: nat, v: Vars, stowed: seq<Stowed>) {
    && n <= |parts| && InOrder(limit, parts, n)
    && v.root == Root(parts[..n]) && v.relative == Relative(parts[..n]) && (v.root == "" ==> v.relative == "")
    && JobsOf(stowed) == Jobs(parts[..n]) && v.uploaded == Names(v.folder, stowed) && v.recorded == Sizes(stowed)
  }

  lemma NothingRead(limit: nat, parts: seq<Part>)
    ensures Reading(limit, parts, 0, Vars("", "", None, [], []), [])
  {
    assert parts[..0] == [];
  }

  lemma ReadingFile(limit: nat, parts: seq<Part>, n: nat, v: Vars, stowed: seq<Stowed>, x: Stowed, made: Option<Name>,
                    v': Vars)
    requires Reading(limit, parts, n, v, stowed)
    requires n < |parts| && IsFile(parts[n]) && PartOk(limit, parts, n) && x.job == Job(v.relative, parts[n])
    requires made == v.folder || stowed == []
    requires v' == Vars(v.root, "", made, v.uploaded + [PlaceOf(Shown(made), x)], v.recorded + [|parts[n].body|])
    ensures Reading(limit, parts, n + 1, v', stowed + [x])
  {
    ReadOne(parts, n);
    JobsMore(stowed, x);
    NamesMore(v.folder, made, stowed, x);
    SizesMore(stowed, x);
  }

  lemma JobsMore(stowed: seq<Stowed>, x: Stowed)
    ensures JobsOf(stowed + [x]) == JobsOf(stowed) + [x.job]
  {
  }

  lemma NamesMore(folder: Option<Name>, made: Option<Name>, stowed: seq<Stowed>, x: Stowed)
    requires made == folder || stowed == []
    ensures Names(made, stowed + [x]) == Names(folder, stowed) + [PlaceOf(Shown(made), x)]
  {
  }

  lemma SizesMore(stowed: seq<Stowed>, x: Stowed)
    ensures Sizes(stowed + [x]) == Sizes(stowed) + [|x.job.part.body|]
  {
  }

  lemma OtherRead(c: Config, h: Span, d0: Disk, d: Disk, wk: Worker, w: Id, v: Vars, v': Vars, stowed: seq<Stowed>)
    requires Between(c, h, d0, d, wk, w, v.root, v.folder, stowed) && v'.folder == v.folder
    requires stowed != [] || v.root != "" ==> v'.root == v.root
    ensures Between(c, h, d0, d, wk, w, v'.root, v'.folder, stowed)
  {
  }

  /** The check on the number of files is the one thing that can be wrong with a file where it stands. */
  lemma FileAllowed(limit: nat, parts: seq<Part>, n: nat, v: Vars, stowed: seq<Stowed>)
    requires Reading(limit, parts, n, v, stowed) && n < |parts| && IsFile(parts[n])
    ensures PartOk(limit, parts, n) <==> !(limit > 0 && |v.uploaded| >= limit)
  {
  }

  /** The job at which reading stopped. */
  function JobAt(parts: seq<Part>, stop: nat): Job
    requires stop < |parts|
  {
    Job(Relative(parts[..stop]), parts[stop])
  }

  /** What one request did: the answer, what is on disk, what was counted. The files stored are the
      first of the files sent, as many as were read before it stopped. */
  ghost predicate Outcome(c: Config, h: Span, limit: nat, parts: seq<Part>, tail: End, d0: Disk, d: Disk, wk: Worker,
                          w: Id, response: Response, recorded: seq<nat>, a: Account) {
    && Answers(limit, parts, tail, a.stop, a.why, response)
    && JobsOf(a.stowed) == Jobs(parts[..a.stop]) && recorded == Sizes(a.stowed)
    && Leaves(c, h, d0, d, wk, w, a.stowed) && Named(c, h, wk, Root(parts[..a.stop]))
    && (Root(parts[..a.stop]) != "" && a.stowed != [] ==> wk.folder.Some?)
    && (response.Created? ==> Progress(c, h, d0, d, wk, w, a.stowed) && response.files == Names(wk.folder, a.stowed))
    && (a.why == Some(HomeTrouble) ==> IoFailed(h, w))
    && (a.why.Some? && !a.why.value.HomeTrouble? ==>
          a.stop < |parts|
          && Explained(c, h, wk, w, Root(parts[..a.stop]), a.stowed, JobAt(parts, a.stop), a.why.value))
  }

  /** Reading stops at a part that is refused, or at the end. */
  lemma Stops(c: Config, h: Span, limit: nat, parts: seq<Part>, tail: End, d0: Disk, d: Disk, wk: Worker, w: Id, n: nat,
              v: Vars, stowed: seq<Stowed>, response: Response)
    requires Reading(limit, parts, n, v, stowed) && Between(c, h, d0, d, wk, w, v.root, v.folder, stowed)
    requires Answers(limit, parts, tail, n, None, response) && (response.Created? ==> response.files == v.uploaded)
    ensures Outcome(c, h, limit, parts, tail, d0, d, wk, w, response, v.recorded, Account(n, None, stowed))
  {
    ProgressLeaves(c, h, d0, d, wk, w, stowed);
  }

  lemma StopsAt(c: Config, h: Span, limit: nat, parts: seq<Part>, tail: End, d0: Disk, d: Disk, wk: Worker, w: Id,
                n: nat, v: Vars, stowed: seq<Stowed>)
    requires Reading(limit, parts, n, v, stowed) && Between(c, h, d0, d, wk, w, v.root, v.folder, stowed)
    requires n < |parts| && !PartOk(limit, parts, n)
    ensures Outcome(c, h, limit, parts, tail, d0, d, wk, w, Refusal(parts[n]), v.recorded, Account(n, None, stowed))
  {
    Stops(c, h, limit, parts, tail, d0, d, wk, w, n, v, stowed, Refusal(parts[n]));
  }

  function Conclusion(tail: End, uploaded: seq<Path>): Response {
    if !tail.Eof? then Ended(tail) else if uploaded == [] then Rejected(400) else Created(uploaded)
  }

  /** Reading stops after the last part. */
  lemma StopsAtEnd(c: Config, h: Span, limit: nat, parts: seq<Part>, tail: End, d0: Disk, d: Disk, wk: Worker, w: Id,
                   v: Vars, stowed: seq<Stowed>)
    requires Reading(limit, parts, |parts|, v, stowed) && Between(c, h, d0, d, wk, w, v.root, v.folder, stowed)
    ensures Outcome(c, h, limit, parts, tail, d0, d, wk, w, Conclusion(tail, v.uploaded), v.recorded,
                    Account(|parts|, None, stowed))
  {
    assert parts[..|parts|] == parts;
    assert |v.uploaded| == |JobsOf(stowed)|;
    Stops(c, h, limit, parts, tail, d0, d, wk, w, |parts|, v, stowed, Conclusion(tail, v.uploaded));
  }

  /** Reading stops at a part that could not be stored. */
  lemma StopsInTrouble(c: Config, h: Span, limit: nat, parts: seq<Part>, tail: End, d0: Disk, d: Disk, wk: Worker,
                       w: Id, n: nat, v: Vars, stowed: seq<Stowed>, t: Trouble)
    requires Reading(limit, parts, n, v, stowed)
    requires n < |parts| && IsFile(parts[n]) && PartOk(limit, parts, n) && !t.HomeTrouble?
    requires Leaves(c, h, d0, d, wk, w, stowed) && Named(c, h, wk, v.root)
    requires v.root != "" && stowed != [] ==> wk.folder.Some?
    requires Explained(c, h, wk, w, v.root, stowed, Job(v.relative, parts[n]), t)
    ensures Outcome(c, h, limit, parts, tail, d0, d, wk, w, Reply(parts[n], StatusOf(t)), v.recorded,
                    Account(n, Some(t), stowed))
  {
  }

  /** A part that is not a file: a field is checked, and kept in a variable if it is one of the two
      known fields; anything else is skipped. */
  method ReadOther(part: Part, v: Vars, ghost limit: nat, ghost parts: seq<Part>, ghost i: nat,
                   ghost stowed: seq<Stowed>)
    returns (ok: bool, v': Vars)
    requires i < |parts| && part == parts[i] && !IsFile(part) && Reading(limit, parts, i, v, stowed)
    ensures ok <==> PartOk(limit, parts, i)
    ensures ok ==> Reading(limit, parts, i + 1, v', stowed)
    ensures v'.folder == v.folder && (ok && (stowed != [] || v.root != "") ==> v'.root == v.root)
    ensures !ok ==> v' == v
  {
    WhatWasRead(limit, parts, i);
    ReadOne(parts, i);
    v' := v;
    if !part.end.Eof? || (part.filename == "" && |part.body| > MAX_FIELD) {
      return false, v;
    }
    if part.filename == "" && part.form == "root" {
      var root := SafeFilename(part.body);
      if v.uploaded != [] || v.root != "" || root == "" {
        return false, v;
      }
      v' := v.(root := root);
    } else if part.filename == "" && part.form == "path" {
      if v.root == "" {
        return false, v;
      }
      v' := v.(relative := part.body);
    }
    ok := true;
  }

  /** A file part. */
  method ReadFile(s: Server, w: Id, subject: Subject, home: Path, limit: nat, part: Part, v: Vars,
                  ghost parts: seq<Part>, ghost i: nat, ghost tail: End, ghost from: seq<Act>, ghost d0: Disk,
                  ghost stowed: seq<Stowed>)
    returns (answer: Option<Response>, v': Vars, ghost more: seq<Stowed>, ghost a: Account)
    requires s.Valid() && w in s.workers && s.workers[w].user.subject == subject && home == Home(s.c, s.workers[w])
    requires i < |parts| && part == parts[i] && IsFile(part) && Reading(limit, parts, i, v, stowed)
    requires from <= s.trace && Between(s.c, s.Since(from), d0, s.disk, s.workers[w], w, v.root, v.folder, stowed)
    modifies s, s.quota, s.slots
    ensures s.Valid() && old(s.trace) <= s.trace && w in s.workers
    ensures s.workers[w] == old(s.workers[w]).(folder := s.workers[w].folder)
    ensures answer.None? ==>
              && Reading(limit, parts, i + 1, v', more)
              && Between(s.c, s.Since(from), d0, s.disk, s.workers[w], w, v'.root, v'.folder, more)
    ensures answer.Some? ==>
              Outcome(s.c, s.Since(from), limit, parts, tail, d0, s.disk, s.workers[w], w, answer.value, v'.recorded, a)
  {
    answer, v', more, a := None, v, stowed, Account(i, None, stowed);
    FileAllowed(limit, parts, i, v, stowed);
    if limit > 0 && |v.uploaded| >= limit {
      StopsAt(s.c, s.Since(from), limit, parts, tail, d0, s.disk, s.workers[w], w, i, v, stowed);
      answer := Some(Refusal(part));
      return;
    }
    var made, name, written, trouble;
    ghost var x;
    made, name, written, trouble, x :=
      StoreFile(s, w, subject, home, v.root, v.folder, v.relative, part, from, d0, stowed);
    if trouble.Some? {
      a := Account(i, trouble, stowed);
      StopsInTrouble(s.c, s.Since(from), limit, parts, tail, d0, s.disk, s.workers[w], w, i, v, stowed, trouble.value);
      answer := Some(Reply(part, StatusOf(trouble.value)));
      return;
    }
    v' := Vars(v.root, if v.root != "" then "" else v.relative, made, v.uploaded + [name], v.recorded + [written]);
    ReadingFile(limit, parts, i, v, stowed, x, made, v');
    more := stowed + [x];
  }

  /** One part. */
  method ReadPart(s: Server, w: Id, subject: Subject, home: Path, limit: nat, part: Part, v: Vars,
                  ghost parts: seq<Part>, ghost i: nat, ghost tail: End, ghost from: seq<Act>, ghost d0: Disk,
                  ghost stowed: seq<Stowed>)
    returns (answer: Option<Response>, v': Vars, ghost more: seq<Stowed>, ghost a: Account)
    requires s.Valid() && w in s.workers && s.workers[w].user.subject == subject && home == Home(s.c, s.workers[w])
    requires i < |parts| && part == parts[i] && Reading(limit, parts, i, v, stowed)
    requires from <= s.trace && Between(s.c, s.Since(from), d0, s.disk, s.workers[w], w, v.root, v.folder, stowed)
    modifies s, s.quota, s.slots
    ensures s.Valid() && old(s.trace) <= s.trace && w in s.workers
    ensures s.workers[w] == old(s.workers[w]).(folder := s.workers[w].folder)
    ensures answer.None? ==>
              && Reading(limit, parts, i + 1, v', more)
              && Between(s.c, s.Since(from), d0, s.disk, s.workers[w], w, v'.root, v'.folder, more)
    ensures answer.Some? ==>
              Outcome(s.c, s.Since(from), limit, parts, tail, d0, s.disk, s.workers[w], w, answer.value, v'.recorded, a)
  {
    if part.filename != "" && part.form == "file" {
      answer, v', more, a := ReadFile(s, w, subject, home, limit, part, v, parts, i, tail, from, d0, stowed);
      return;
    }
    answer, more, a := None, stowed, Account(i, None, stowed);
    var ok;
    ok, v' := ReadOther(part, v, limit, parts, i, stowed);
    if ok {
      OtherRead(s.c, s.Since(from), d0, s.disk, s.workers[w], w, v, v', stowed);
    } else {
      StopsAt(s.c, s.Since(from), limit, parts, tail, d0, s.disk, s.workers[w], w, i, v, stowed);
      answer := Some(Refusal(part));
    }
  }

  /** The loop over the parts. */
  method ReadParts(s: Server, w: Id, subject: Subject, home: Path, limit: nat, parts: seq<Part>, tail: End,
                   ghost from: seq<Act>, ghost d0: Disk)
    returns (response: Response, recorded: seq<nat>, ghost a: Account)
    requires s.Valid() && w in s.workers && s.workers[w].user.subject == subject && home == Home(s.c, s.workers[w])
    requires from <= s.trace && Between(s.c, s.Since(from), d0, s.disk, s.workers[w], w, "", None, [])
    modifies s, s.quota, s.slots
    ensures s.Valid() && old(s.trace) <= s.trace && w in s.workers
    ensures s.workers[w] == old(s.workers[w]).(folder := s.workers[w].folder)
    ensures Outcome(s.c, s.Since(from), limit, parts, tail, d0, s.disk, s.workers[w], w, response, recorded, a)
  {
    var v := Vars("", "", None, [], []);
    ghost var stowed: seq<Stowed> := [];
    NothingRead(limit, parts);
    var i := 0;
    while i < |parts|
      invariant i <= |parts| && s.Valid() && old(s.trace) <= s.trace && w in s.workers
      invariant s.workers[w] == old(s.workers[w]).(folder := s.workers[w].folder)
      invariant Reading(limit, parts, i, v, stowed)
      invariant Between(s.c, s.Since(from), d0, s.disk, s.workers[w], w, v.root, v.folder, stowed)
    {
      var answer;
      answer, v, stowed, a := ReadPart(s, w, subject, home, limit, parts[i], v, parts, i, tail, from, d0, stowed);
      if answer.Some? {
        return answer.value, v.recorded, a;
      }
      i := i + 1;
    }
    response, recorded, a := Conclusion(tail, v.uploaded), v.recorded, Account(i, None, stowed);
    StopsAtEnd(s.c, s.Since(from), limit, parts, tail, d0, s.disk, s.workers[w], w, v, stowed);
  }

  // ---- the handler ----------------------------------------------------------------------------

  /** acquire: admitted, or nothing has happened. */
  method Begin(s: Server, w: Id, user: User) returns (ok: bool)
    requires s.Valid() && w !in s.workers
    modifies s, s.quota, s.slots
    ensures s.Valid() && s.disk == old(s.disk)
    ensures ok <==> Admits(s.c, old(s.workers), user.subject)
    ensures !ok ==> s.Now() == old(s.Now()) && s.trace == old(s.trace)
    ensures ok ==>
              && s.trace == old(s.trace) + [Act(w, Event.Begin(user))]
              && w in s.workers && s.workers[w] == Worker(user, None, Ready)
  {
    ghost var before := s.Now();
    Reached(s.c, s.start, s.trace, before);
    RefusedExactly(s.c, before.books.slots, before.workers, user.subject);
    ok := s.slots.Acquire(user.subject);
    if ok {
      s.Took(w, Event.Begin(user), before);
    }
  }

  /** The deferred release. */
  method Finish(s: Server, w: Id, subject: Subject)
    requires s.Valid() && w in s.workers && s.workers[w].phase == Ready && s.workers[w].user.subject == subject
    modifies s, s.quota, s.slots
    ensures s.Valid() && old(s.trace) <= s.trace && w in s.workers
    ensures s.workers[w] == old(s.workers[w]).(phase := Phase.Done)
    ensures Undisturbed(s.c, old(s.disk), s.disk, old(s.workers[w]), w)
  {
    ghost var before := s.Pause(w);
    s.slots.Release(subject);
    s.Took(w, Event.End, before);
  }

  lemma OutcomeOn(c: Config, g: Span, h: Span, limit: nat, parts: seq<Part>, tail: End, d0: Disk, d: Disk, d': Disk,
                  wk: Worker, wk': Worker, w: Id, response: Response, recorded: seq<nat>, a: Account)
    requires Outcome(c, g, limit, parts, tail, d0, d, wk, w, response, recorded, a) && Within(g, h)
    requires Undisturbed(c, d, d', wk, w) && wk' == wk.(phase := Phase.Done) && SameFiles(c, g.start, g.to, h.to, w)
    ensures Outcome(c, h, limit, parts, tail, d0, d', wk', w, response, recorded, a)
  {
    LeavesOn(c, g, h, d0, d, d', wk, w, a.stowed);
    NamedWithin(c, g, h, wk, wk', Root(parts[..a.stop]));
    if response.Created? {
      ProgressOn(c, g, h, d0, d, d', wk, w, a.stowed);
    }
    if a.why == Some(HomeTrouble) {
      IoFailedWithin(g, h, w);
    } else if a.why.Some? {
      ExplainedWithin(c, g, h, wk, w, Root(parts[..a.stop]), a.stowed, JobAt(parts, a.stop), a.why.value);
      ExplainedDone(c, h, wk, wk', w, Root(parts[..a.stop]), a.stowed, JobAt(parts, a.stop), a.why.value);
    }
  }

  /** Explanations do not depend on where the worker is. */
  lemma ExplainedDone(c: Config, h: Span, wk: Worker, wk': Worker, w: Id, root: string, stowed: seq<Stowed>, job: Job,
                      t: Trouble)
    requires Explained(c, h, wk, w, root, stowed, job, t) && wk' == wk.(phase := Phase.Done)
    ensures Explained(c, h, wk', w, root, stowed, job, t)
  {
    assert Base(c, wk') == Base(c, wk) && Home(c, wk') == Home(c, wk);
  }

  lemma HomeFails(c: Config, h: Span, limit: nat, parts: seq<Part>, tail: End, d0: Disk, d: Disk, wk: Worker, w: Id)
    requires wk.folder.None? && Progress(c, h, d0, d, wk, w, []) && IoFailed(h, w)
    ensures Outcome(c, h, limit, parts, tail, d0, d, wk, w, Rejected(500), [], Account(0, Some(HomeTrouble), []))
  {
    assert parts[..0] == [];
  }

  /** The user's directory, then the parts. */
  method ReadRequest(s: Server, w: Id, user: User, limit: nat, parts: seq<Part>, tail: End, ghost d0: Disk)
    returns (response: Response, recorded: seq<nat>, ghost a: Account)
    requires s.Valid() && w in s.workers && s.workers[w] == Worker(user, None, Ready) && s.disk == d0
    modifies s, s.quota, s.slots
    ensures s.Valid() && old(s.trace) <= s.trace && w in s.workers
    ensures s.workers[w] == Worker(user, s.workers[w].folder, Ready)
    ensures Outcome(s.c, s.Since(old(s.trace)), limit, parts, tail, d0, s.disk, s.workers[w], w, response, recorded, a)
  {
    ghost var (g, wk) := (s.Since(s.trace), s.workers[w]);
    var home := [s.c.home(user)];
    NothingYet(s.c, g, d0, wk, w);
    var ok := MakeHome(s, w, home);
    ProgressOn(s.c, g, s.Since(old(s.trace)), d0, d0, s.disk, wk, w, []);
    if !ok {
      HomeFails(s.c, s.Since(old(s.trace)), limit, parts, tail, d0, s.disk, wk, w);
      return Rejected(500), [], Account(0, Some(HomeTrouble), []);
    }
    response, recorded, a := ReadParts(s, w, user.subject, home, limit, parts, tail, old(s.trace), d0);
  }

  /** upload. A request that is not admitted leaves no trace; one that is admitted gives its slot
      back however it ends, and what it has done by then is told by its outcome. */
  method Upload(s: Server, w: Id, user: User, limit: nat, request: Request)
    returns (response: Response, recorded: seq<nat>, ghost a: Account)
    requires s.Valid() && w !in s.workers
    modifies s, s.quota, s.slots
    ensures s.Valid()
    ensures !Admits(s.c, old(s.workers), user.subject) ==>
              response == Rejected(429) && recorded == [] && s.Now() == old(s.Now()) && s.trace == old(s.trace)
    ensures Admits(s.c, old(s.workers), user.subject) ==>
              var begun := old(s.trace) + [Act(w, Event.Begin(user))];
              && begun <= s.trace && w in s.workers && s.workers[w] == Worker(user, s.workers[w].folder, Phase.Done)
              && (request.NotMultipart? ==>
                    && response == Rejected(400) && recorded == []
                    && Undisturbed(s.c, old(s.disk), s.disk, s.workers[w], w))
              && (request.Multipart? ==>
                    Outcome(s.c, s.Since(begun), limit, request.parts, request.tail, old(s.disk), s.disk,
                            s.workers[w], w, response, recorded, a))
  {
    ghost var d0 := s.disk;
    a := Account(0, None, []);
    var admitted := Begin(s, w, user);
    if !admitted {
      return Rejected(429), [], a;
    }
    match request {
      case NotMultipart =>
        Finish(s, w, user.subject);
        return Rejected(400), [], a;
      case Multipart(parts, tail) =>
        ghost var begun := s.trace;
        response, recorded, a := ReadRequest(s, w, user, limit, parts, tail, d0);
        ghost var (g, d, wk) := (s.Since(begun), s.disk, s.workers[w]);
        Finish(s, w, user.subject);
        OutcomeOn(s.c, g, s.Since(begun), limit, parts, tail, d0, d, s.disk, wk, s.workers[w], w, response,
                  recorded, a);
    }
  }
}
