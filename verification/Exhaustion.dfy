/** When the search for a free name fails although no call has failed: the directory is full of its
    candidates (internal/dumpbox/server.go:507-545). */
module Exhaustion {
  import opened Sums
  import opened Naming
  import opened Candidates
  import opened Protocol
  import opened Runs
  import opened Causes
  import opened Server
  import opened Folders

  /** The names of the published files and the directories in a directory. */
  ghost function EntriesOf(d: Disk, dir: Path): set<Name> {
    set p | p in d.settled.Keys + d.dirs && |p| == |dir| + 1 && p[..|dir|] == dir :: p[|dir|]
  }

  /** A real name that no temporary file can have. */
  predicate Ordinary(n: Name) { Plain(n) && !TempLike(n) }

  lemma TakenEntry(d: Disk, dir: Path, n: Name)
    requires Taken(d, dir + [n]) && Ordinary(n)
    ensures n in EntriesOf(d, dir)
  {
    var p := dir + [n];
    assert p[|p| - 1] == n && p[..|dir|] == dir;
  }

  /** A numbered candidate has a blank where a temporary file's name would have another character. */
  lemma NumberedOrdinary(stem: Name, i: nat, extension: Name)
    requires '/' !in stem && '/' !in extension
    ensures Ordinary(Numbered(stem, i, extension))
  {
    var n := Numbered(stem, i, extension);
    NumberedPlain(stem, i, extension);
    assert n[|stem|] == ' ';
    assert |stem| < 8 ==> ".upload-"[|stem|] != ' ';
  }

  lemma {:induction false} CandidatesOrdinary(name: Name, i: nat)
    requires '/' !in name && i > 0
    ensures Ordinary(FileCandidate(name, i)) && Ordinary(FolderCandidate(name, i))
  {
    ExtIsSuffix(name);
    NumberedOrdinary(Stem(name), i, Ext(name));
    NumberedOrdinary(name, i, "");
  }

  lemma Crowded(d: Disk, dir: Path, candidate: nat -> Name, first: nat)
    requires first <= ATTEMPTS
    requires forall i: nat, j: nat :: i < ATTEMPTS && j < ATTEMPTS && candidate(i) == candidate(j) ==> i == j
    requires forall i: nat :: first <= i < ATTEMPTS ==> Ordinary(candidate(i)) && Taken(d, dir + [candidate(i)])
    ensures |EntriesOf(d, dir)| >= ATTEMPTS - first
  {
    forall i: nat | first <= i < ATTEMPTS
      ensures candidate(i) in EntriesOf(d, dir)
    {
      TakenEntry(d, dir, candidate(i));
    }
    AllDistinct(EntriesOf(d, dir), (i: nat) => candidate(first + i), ATTEMPTS - first);
  }

  /** publishFile gives up only in a directory with an entry for every number, and one for the name
      itself unless that is none a file can have or looks like a temporary file's. */
  lemma {:induction false} FilesExhausted(d: Disk, dir: Path, name: Name)
    requires TakenFiles(d, dir, name, ATTEMPTS) && '/' !in name
    ensures |EntriesOf(d, dir)| >= if Ordinary(name) then 10_000 else 9_999
  {
    var first := if Ordinary(name) then 0 else 1;
    forall i: nat, j: nat | i < ATTEMPTS && j < ATTEMPTS && FileCandidate(name, i) == FileCandidate(name, j)
      ensures i == j
    {
      FileCandidatesDiffer(name, i, j);
    }
    forall i: nat | first <= i < ATTEMPTS
      ensures Ordinary(FileCandidate(name, i)) && Taken(d, dir + [FileCandidate(name, i)])
    {
      if i > 0 {
        CandidatesOrdinary(name, i);
      }
    }
    Crowded(d, dir, (i: nat) => FileCandidate(name, i), first);
  }

  ghost predicate TakenFolders(d: Disk, home: Path, name: Name, n: nat) {
    forall j: nat :: j < n ==> Taken(d, home + [FolderCandidate(name, j)])
  }

  lemma {:induction false} TriedFoldersTaken(c: Config, h: Span, s: State, home: Path, name: Name, n: nat)
    requires Starts(c, h.start) && Exec(c, h.start, h.to) == Some(s) && TriedFolders(c, h, home, name, n)
    ensures TakenFolders(s.disk, home, name, n)
  {
    forall j: nat | j < n
      ensures Taken(s.disk, home + [FolderCandidate(name, j)])
    {
      SeenIsTaken(c, h, home + [FolderCandidate(name, j)]);
    }
  }

  /** createUniqueDirectory likewise. */
  lemma {:induction false} FoldersExhausted(d: Disk, home: Path, name: Name)
    requires TakenFolders(d, home, name, ATTEMPTS) && '/' !in name
    ensures |EntriesOf(d, home)| >= if Ordinary(name) then 10_000 else 9_999
  {
    var first := if Ordinary(name) then 0 else 1;
    forall i: nat, j: nat | i < ATTEMPTS && j < ATTEMPTS && FolderCandidate(name, i) == FolderCandidate(name, j)
      ensures i == j
    {
      FolderCandidatesDiffer(name, i, j);
    }
    forall i: nat | first <= i < ATTEMPTS
      ensures Ordinary(FolderCandidate(name, i)) && Taken(d, home + [FolderCandidate(name, i)])
    {
      if i > 0 {
        CandidatesOrdinary(name, i);
      }
    }
    Crowded(d, home, (i: nat) => FolderCandidate(name, i), first);
  }
}
