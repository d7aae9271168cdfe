/** When a folder upload gets in its own way: a directory it needs has the name of a file it has
    already stored (internal/dumpbox/server.go:564-566). It is a matter of the files sent alone. */
module Clashes {
    import opened Naming
  import opened Candidates
  import opened Protocol
  import opened Runs
  import opened Folders
  import opened Requests
  import opened Filling
  import opened Uploads
  import opened Exhaustion

  ghost predicate ClashWith(r: Path, jobs: seq<Job>, stowed: seq<Stowed>) {
    && |stowed| < |jobs| && JobsOf(stowed) == jobs[..|stowed|]
    && EachFirstFree(r, stowed) && Blocked(r, stowed, jobs[|stowed|])
  }

  /** Some of the jobs, stored one after the other in an empty folder, are in the way of the next. */
  ghost predicate Clash(r: Path, jobs: seq<Job>) {
    exists stowed :: ClashWith(r, jobs, stowed)
  }

  // ---- which folder it is does not matter -------------------------------------------------------

  /** The same inside, seen from another folder. */
  ghost predicate Alike(r: Path, v: View, q: Path, u: View) {
    && (forall p: Path :: r + p in v.files <==> q + p in u.files)
    && (forall p: Path :: r + p in v.dirs <==> q + p in u.dirs)
  }

  lemma {:induction false} BelowAlike(r: Path, q: Path, local: seq<Name>, p: Path)
    ensures r + p in Below(r, local) <==> q + p in Below(q, local)
    decreases |local|
  {
    if local != [] {
      BelowAlike(r, q, local[..|local| - 1], p);
      SameRest(r, p, local);
      SameRest(q, p, local);
    }
  }

  lemma SameRest(r: Path, a: Path, b: Path)
    ensures r + a == r + b <==> a == b
  {
    assert (r + a)[|r|..] == a && (r + b)[|r|..] == b;
  }

  lemma {:induction false} PlaceAlike(r: Path, q: Path, p: Path, job: Job, k: nat)
    ensures r + p == Place(r, job, k) <==> q + p == Place(q, job, k)
  {
    var rest := Local(job) + [FileCandidate(SafeFilename(job.part.filename), k)];
    assert Place(r, job, k) == r + rest && Place(q, job, k) == q + rest;
    SameRest(r, p, rest);
    SameRest(q, p, rest);
  }

  lemma {:induction false} AddedAlike(r: Path, v: View, q: Path, u: View, x: Stowed)
    requires Alike(r, v, q, u)
    ensures Alike(r, Added(r, v, x), q, Added(q, u, x)) && Alike(r, Opened(r, v, x.job), q, Opened(q, u, x.job))
  {
    forall p: Path
      ensures r + p in Added(r, v, x).files <==> q + p in Added(q, u, x).files
      ensures r + p in v.dirs + Below(r, Local(x.job)) <==> q + p in u.dirs + Below(q, Local(x.job))
    {
      PlaceAlike(r, q, p, x.job, x.index);
      BelowAlike(r, q, Local(x.job), p);
    }
  }

  lemma {:induction false} FilledAlike(r: Path, q: Path, stowed: seq<Stowed>)
    ensures Alike(r, Filled(r, stowed), q, Filled(q, stowed))
    decreases |stowed|
  {
    if stowed != [] {
      FilledAlike(r, q, stowed[..|stowed| - 1]);
      var last := stowed[|stowed| - 1];
      AddedAlike(r, Filled(r, stowed[..|stowed| - 1]), q, Filled(q, stowed[..|stowed| - 1]), last);
    }
  }

  lemma {:induction false} FirstFreeAlike(r: Path, v: View, q: Path, u: View, x: Stowed)
    requires Alike(r, v, q, u) && FirstFree(r, v, x)
    ensures FirstFree(q, u, x)
  {
    AddedAlike(r, v, q, u, x);
    var name := SafeFilename(x.job.part.filename);
    forall k: nat
      ensures Place(r, x.job, k) == r + (Local(x.job) + [FileCandidate(name, k)])
      ensures Place(q, x.job, k) == q + (Local(x.job) + [FileCandidate(name, k)])
    {
    }
    forall j: nat | j < x.index
      ensures InUse(Opened(q, u, x.job), Place(q, x.job, j))
    {
      assert InUse(Opened(r, v, x.job), Place(r, x.job, j));
      var p := Local(x.job) + [FileCandidate(name, j)];
      assert r + p in Opened(r, v, x.job).files <==> q + p in Opened(q, u, x.job).files;
      assert r + p in Opened(r, v, x.job).dirs <==> q + p in Opened(q, u, x.job).dirs;
    }
    var p := Local(x.job) + [FileCandidate(name, x.index)];
    assert r + p in v.files <==> q + p in u.files;
    assert r + p in Opened(r, v, x.job).dirs <==> q + p in Opened(q, u, x.job).dirs;
  }

  lemma {:induction false} EachAlike(r: Path, q: Path, stowed: seq<Stowed>)
    requires EachFirstFree(r, stowed)
    ensures EachFirstFree(q, stowed)
  {
    forall n: nat | n < |stowed|
      ensures FirstFree(q, Filled(q, stowed[..n]), stowed[n])
    {
      assert FirstFree(r, Filled(r, stowed[..n]), stowed[n]);
      FilledAlike(r, q, stowed[..n]);
      FirstFreeAlike(r, Filled(r, stowed[..n]), q, Filled(q, stowed[..n]), stowed[n]);
    }
  }

  lemma {:induction false} BelowRest(r: Path, local: seq<Name>, p: Path)
    requires p in Below(r, local)
    ensures r <= p && p == r + p[|r|..]
    decreases |local|
  {
    if p != r + local {
      BelowRest(r, local[..|local| - 1], p);
    }
  }

  lemma {:induction false} BlockedAlike(r: Path, q: Path, stowed: seq<Stowed>, job: Job)
    requires Blocked(r, stowed, job)
    ensures Blocked(q, stowed, job)
  {
    var p :| p in Below(r, Local(job)) && p in Filled(r, stowed).files;
    BelowRest(r, Local(job), p);
    FilledAlike(r, q, stowed);
    BelowAlike(r, q, Local(job), p[|r|..]);
    assert q + p[|r|..] in Below(q, Local(job));
  }

  /** A clash in one folder is a clash in every folder: it depends on what is sent and on nothing else. */
  lemma ClashAnywhere(r: Path, q: Path, jobs: seq<Job>)
    requires Clash(r, jobs)
    ensures Clash(q, jobs)
  {
    var stowed :| ClashWith(r, jobs, stowed);
    EachAlike(r, q, stowed);
    BlockedAlike(r, q, stowed, jobs[|stowed|]);
    assert ClashWith(q, jobs, stowed);
  }

  // ---- and the files sent decide it ---------------------------------------------------------------

  /** No name that is sent could be mistaken for a temporary file's, or for the directory or its parent. */
  ghost predicate AllOrdinary(jobs: seq<Job>) {
    forall j :: 0 <= j < |jobs| ==> Ordinary(SafeFilename(jobs[j].part.filename))
  }

  lemma {:induction false} FreeNotUsed(r: Path, v: View, x: Stowed)
    requires FirstFree(r, v, x) && Ordinary(SafeFilename(x.job.part.filename))
    ensures !InUse(Opened(r, v, x.job), PlaceOf(r, x))
  {
    if x.index > 0 {
      CandidatesOrdinary(SafeFilename(x.job.part.filename), x.index);
    }
    var p := PlaceOf(r, x);
    assert p[|p| - 1] == FileCandidate(SafeFilename(x.job.part.filename), x.index);
  }

  /** The first free candidate is a matter of the folder's inside. */
  lemma {:induction false} SameIndex(r: Path, v: View, x: Stowed, y: Stowed)
    requires FirstFree(r, v, x) && FirstFree(r, v, y) && x.job == y.job
    requires Ordinary(SafeFilename(x.job.part.filename))
    ensures x == y
  {
    FreeNotUsed(r, v, x);
    FreeNotUsed(r, v, y);
  }

  /** What an empty folder is filled with is determined by the jobs. */
  lemma {:induction false} SameStowed(r: Path, a: seq<Stowed>, b: seq<Stowed>, n: nat)
    requires EachFirstFree(r, a) && EachFirstFree(r, b) && n <= |a| && n <= |b|
    requires forall i :: 0 <= i < n ==> a[i].job == b[i].job && Ordinary(SafeFilename(a[i].job.part.filename))
    ensures a[..n] == b[..n]
    decreases n
  {
    if n > 0 {
      var m := n - 1;
      SameStowed(r, a, b, m);
      assert FirstFree(r, Filled(r, a[..m]), a[m]) && FirstFree(r, Filled(r, b[..m]), b[m]);
      SameIndex(r, Filled(r, a[..m]), a[m], b[m]);
      OneMoreSame(a, b, m);
    }
  }

  lemma OneMoreSame(a: seq<Stowed>, b: seq<Stowed>, m: nat)
    requires m < |a| && m < |b| && a[..m] == b[..m] && a[m] == b[m]
    ensures a[..m + 1] == b[..m + 1]
  {
    assert a[..m + 1] == a[..m] + [a[m]] && b[..m + 1] == b[..m] + [b[m]];
  }

  ghost predicate Grown(v: View, u: View) {
    v.files.Keys <= u.files.Keys && v.dirs <= u.dirs
  }

  lemma {:induction false} AddedGrows(r: Path, v: View, x: Stowed)
    ensures Grown(v, Added(r, v, x)) && Below(r, Local(x.job)) <= Added(r, v, x).dirs
  {
  }

  lemma {:induction false} FilledGrows(r: Path, stowed: seq<Stowed>, n: nat)
    requires n <= |stowed|
    ensures Grown(Filled(r, stowed[..n]), Filled(r, stowed))
    decreases |stowed|
  {
    if n < |stowed| {
      var before := stowed[..|stowed| - 1];
      FilledGrows(r, before, n);
      assert before[..n] == stowed[..n];
      AddedGrows(r, Filled(r, before), stowed[|stowed| - 1]);
    } else {
      assert stowed[..n] == stowed;
    }
  }

  /** Where everything has been stored, nothing was in the way. */
  lemma {:induction false} NoClash(r: Path, stowed: seq<Stowed>)
    requires EachFirstFree(r, stowed) && AllOrdinary(JobsOf(stowed))
    requires Filled(r, stowed).files.Keys !! Filled(r, stowed).dirs
    ensures !Clash(r, JobsOf(stowed))
  {
    forall other
      ensures !ClashWith(r, JobsOf(stowed), other)
    {
      NoClashWith(r, stowed, other);
    }
  }

  lemma {:induction false} NoClashWith(r: Path, stowed: seq<Stowed>, other: seq<Stowed>)
    requires EachFirstFree(r, stowed) && AllOrdinary(JobsOf(stowed))
    requires Filled(r, stowed).files.Keys !! Filled(r, stowed).dirs
    ensures !ClashWith(r, JobsOf(stowed), other)
  {
    var n := |other|;
    if n < |stowed| && JobsOf(other) == JobsOf(stowed)[..n] && EachFirstFree(r, other) {
      forall i | 0 <= i < n
        ensures stowed[i].job == other[i].job && Ordinary(SafeFilename(stowed[i].job.part.filename))
      {
        assert JobsOf(other)[i] == JobsOf(stowed)[i];
      }
      SameStowed(r, stowed, other, n);
      assert other[..n] == other && JobsOf(stowed)[n] == stowed[n].job;
      FilledGrows(r, stowed, n);
      FilledGrows(r, stowed, n + 1);
      FilledMore(r, stowed, n);
    }
  }
}
