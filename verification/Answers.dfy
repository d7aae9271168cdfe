/** The answer to an upload, in numbers: what each cause is answered with, and which answer a request
    gets (internal/dumpbox/server.go:271-408). */
module Answers {
  import opened Sums
  import opened Limits
  import opened Naming
  import opened Paths
  import opened Protocol
  import opened Conservation
  import opened Runs
  import opened Causes
  import opened Room
  import opened Server
  import opened Folders
  import opened Requests
  import opened Filling
  import opened Uploads
  import opened Exhaustion
  import opened Clashes
  import opened Outcomes

  // ---- by cause -----------------------------------------------------------------------------------

  /** The number for a job that could not be done. */
  predicate Numbered(t: Trouble, status: nat) {
    && (t.HomeTrouble? || t.FolderInvalid? || t.FolderExhausted? || t.FolderTrouble? ==> status == 500)
    && (t.InvalidPath? || t.PathBlocked? || t.PathTrouble? ==> status == 400)
    && (t == StoreTrouble(TooLarge) ==> status == 413)
    && (t == StoreTrouble(QuotaExceeded) ==> status == 507)
    && (t.StoreTrouble? && !t.failure.TooLarge? && !t.failure.QuotaExceeded? ==> status == 500)
  }

  /** The number for a part that is refused where it stands: a field is a bad request; one file more
      than allowed, or a part that runs over the limit of the request, is too large. */
  predicate RefusedWith(p: Part, status: nat) {
    && (p.filename == "" ==> status == 400)
    && (p.filename != "" && p.form == "file" ==> status == 413)
    && (p.filename != "" && p.form != "file" && p.end.RequestTooLarge? ==> status == 413)
    && (p.filename != "" && p.form != "file" && p.end.Broken? ==> status == 400)
  }

  /** Every answer, by what the request stopped for. */
  lemma {:induction false} StatusByCause(c: Config, h: Span, limit: nat, parts: seq<Part>, tail: End, d0: Disk, d: Disk,
                                         wk: Worker, w: Id, response: Response, recorded: seq<nat>, a: Account)
    requires Outcome(c, h, limit, parts, tail, d0, d, wk, w, response, recorded, a)
    ensures a.why == Some(HomeTrouble) ==> response == Rejected(500)
    ensures a.why != Some(HomeTrouble) && a.stop < |parts| && parts[a.stop].end.Panics? ==> response == Aborted
    ensures a.why.Some? && !a.why.value.HomeTrouble? && !parts[a.stop].end.Panics? ==>
              response.Rejected? && Numbered(a.why.value, response.status)
    ensures a.why.None? && a.stop < |parts| && !parts[a.stop].end.Panics? ==>
              response.Rejected? && RefusedWith(parts[a.stop], response.status)
    ensures a.why.None? && a.stop == |parts| ==>
              && (tail.RequestTooLarge? ==> response == Rejected(413))
              && (tail.Broken? ==> response == Rejected(400))
              && (tail.Panics? ==> response == Aborted)
              && (tail.Eof? && Jobs(parts) == [] ==> response == Rejected(400))
              && (tail.Eof? && Jobs(parts) != [] ==> response.Created?)
  {
    if a.why.None? && a.stop < |parts| {
      assert !PartOk(limit, parts, a.stop);
    }
  }

  // ---- the order of the parts ----------------------------------------------------------------------

  predicate RootField(p: Part) { p.filename == "" && p.form == "root" }
  predicate PathField(p: Part) { p.filename == "" && p.form == "path" }
  predicate FilePart(p: Part) { p.filename != "" && p.form == "file" }

  /** What the description asks of a request. */
  ghost predicate WellFormed(limit: nat, parts: seq<Part>, tail: End) {
    && tail.Eof? && (exists i :: 0 <= i < |parts| && FilePart(parts[i]))
    && (limit > 0 ==> |Jobs(parts)| <= limit)
    && (forall i :: 0 <= i < |parts| && parts[i].filename == "" ==> |parts[i].body| <= 4096 && parts[i].end.Eof?)
    && (forall i :: 0 <= i < |parts| && RootField(parts[i]) ==> SafeFilename(parts[i].body) != "")
    && (forall i, j :: 0 <= i < j < |parts| && RootField(parts[j]) ==> !RootField(parts[i]) && !FilePart(parts[i]))
    && (forall j :: 0 <= j < |parts| && PathField(parts[j]) ==> exists i :: 0 <= i < j && RootField(parts[i]))
    && (forall i :: 0 <= i < |parts| && parts[i].filename != "" && parts[i].form != "file" ==> parts[i].end.Eof?)
  }

  /** A request is acceptable exactly when its fields are short and complete, a root comes at most once
      and before any file, paths come after it, and it has a file but not more than allowed. */
  lemma {:induction false} AcceptableExactly(limit: nat, parts: seq<Part>, tail: End)
    ensures Acceptable(limit, parts, tail) <==> WellFormed(limit, parts, tail)
  {
    HasFile(parts);
    if limit > 0 {
      FileLimit(limit, parts);
    }
    if Acceptable(limit, parts, tail) {
      InOrderTells(limit, parts);
    }
    if WellFormed(limit, parts, tail) {
      forall i | 0 <= i < |parts|
        ensures PartOk(limit, parts, i)
      {
        if IsFile(parts[i]) && limit > 0 {
          assert |Jobs(parts[..i])| < limit;
        }
      }
    }
  }

  lemma {:induction false} InOrderTells(limit: nat, parts: seq<Part>)
    requires InOrder(limit, parts, |parts|)
    ensures forall i :: 0 <= i < |parts| && IsFile(parts[i]) ==> limit == 0 || |Jobs(parts[..i])| < limit
    ensures forall i :: 0 <= i < |parts| && parts[i].filename == "" ==> |parts[i].body| <= 4096 && parts[i].end.Eof?
    ensures forall i :: 0 <= i < |parts| && RootField(parts[i]) ==> SafeFilename(parts[i].body) != ""
    ensures forall i, j :: 0 <= i < j < |parts| && RootField(parts[j]) ==> !RootField(parts[i]) && !FilePart(parts[i])
    ensures forall j :: 0 <= j < |parts| && PathField(parts[j]) ==> exists i :: 0 <= i < j && RootField(parts[i])
    ensures forall i :: 0 <= i < |parts| && parts[i].filename != "" && parts[i].form != "file" ==> parts[i].end.Eof?
  {
    forall j | 0 <= j < |parts|
      ensures IsFile(parts[j]) ==> limit == 0 || |Jobs(parts[..j])| < limit
      ensures parts[j].filename == "" ==> |parts[j].body| <= 4096 && parts[j].end.Eof?
      ensures RootField(parts[j]) ==> SafeFilename(parts[j].body) != ""
      ensures RootField(parts[j]) ==> forall i :: 0 <= i < j ==> !RootField(parts[i]) && !FilePart(parts[i])
      ensures PathField(parts[j]) ==> exists i :: 0 <= i < j && RootField(parts[i])
      ensures parts[j].filename != "" && parts[j].form != "file" ==> parts[j].end.Eof?
    {
      assert PartOk(limit, parts, j);
      if PathField(parts[j]) {
        var i :| 0 <= i < j && IsRoot(parts[i]);
        assert RootField(parts[i]);
      }
    }
  }

  lemma {:induction false} HasFile(parts: seq<Part>)
    ensures Jobs(parts) != [] <==> exists i :: 0 <= i < |parts| && FilePart(parts[i])
    decreases |parts|
  {
    if parts != [] {
      var before := parts[..|parts| - 1];
      HasFile(before);
      if i :| 0 <= i < |before| && FilePart(before[i]) {
        assert FilePart(parts[i]);
      }
    }
  }

  // ---- the first thing that is wrong -----------------------------------------------------------------

  /** Nothing is wrong with the n-th part: it is acceptable where it stands, and if it is a file it can
      be stored below the root as it is, and fits. */
  ghost predicate Fine(c: Config, limit: nat, parts: seq<Part>, n: nat, fits: bool)
    requires n < |parts|
  {
    && PartOk(limit, parts, n)
    && (IsFile(parts[n]) ==> RootOk(parts[..n]) && Sound(c, JobAt(parts, n)) && fits)
  }

  /** The answer when the n-th part is the first with which anything is wrong, or there is none. */
  ghost predicate Says(c: Config, limit: nat, parts: seq<Part>, tail: End, n: nat, fits: bool, response: Response)
    requires n <= |parts|
  {
    if n == |parts| then
      match tail
      case RequestTooLarge => response == Rejected(413)
      case Broken => response == Rejected(400)
      case Panics => response == Aborted
      case Eof =>
        if exists i :: 0 <= i < |parts| && FilePart(parts[i]) then response.Created? else response == Rejected(400)
    else
      var p := parts[n];
      response ==
      if p.end.Panics? then Aborted
      else if p.filename == "" then Rejected(400)
      else if p.form != "file" then (if p.end.RequestTooLarge? then Rejected(413) else Rejected(400))
      else if limit > 0 && |Jobs(parts[..n])| >= limit then Rejected(413)
      else if !RootOk(parts[..n]) then Rejected(500)
      else if RelativePath(Relative(parts[..n])).None? then Rejected(400)
      else if SafeFilename(p.filename) == "" then Rejected(500)
      else if !fits then Rejected(507)
      else if |p.body| > c.maxFileBytes || p.end.RequestTooLarge? then Rejected(413)
      else Rejected(500)
  }

  ghost predicate NoClashTo(parts: seq<Part>, n: nat)
    requires n <= |parts|
  {
    !Clash([], Jobs(parts[..if n < |parts| then n + 1 else n]))
  }

  lemma {:induction false} JobsBefore(parts: seq<Part>, m: nat, n: nat)
    requires m <= n <= |parts|
    ensures Jobs(parts[..m]) <= Jobs(parts[..n])
  {
    assert parts[..n][..m] == parts[..m];
    JobsPrefix(parts[..n], m);
  }

  lemma {:induction false} ClashOf(r: Path, jobs: seq<Job>, stowed: seq<Stowed>, job: Job)
    requires JobsOf(stowed) + [job] <= jobs && EachFirstFree(r, stowed) && Blocked(r, stowed, job)
    ensures Clash([], jobs)
  {
    assert |JobsOf(stowed)| == |stowed|;
    assert jobs[..|stowed|] == JobsOf(stowed) && jobs[|stowed|] == job;
    assert ClashWith(r, jobs, stowed);
    ClashAnywhere(r, [], jobs);
  }

  /** Where nothing clashes up to n, no stop up to n is for a file in the way. */
  lemma {:induction false} NotBlocked(parts: seq<Part>, n: nat, stop: nat, r: Path, stowed: seq<Stowed>)
    requires n <= |parts| && NoClashTo(parts, n) && stop <= n && stop < |parts| && IsFile(parts[stop])
    requires JobsOf(stowed) == Jobs(parts[..stop]) && EachFirstFree(r, stowed)
    ensures !Blocked(r, stowed, JobAt(parts, stop))
  {
    if Blocked(r, stowed, JobAt(parts, stop)) {
      var m := if n < |parts| then n + 1 else n;
      ReadOne(parts, stop);
      JobsBefore(parts, stop + 1, m);
      ClashOf(r, Jobs(parts[..m]), stowed, JobAt(parts, stop));
    }
  }

  // ---- reading stops there -----------------------------------------------------------------------------

  /** What a request has read past was fine, but for the quotas. */
  lemma {:induction false} ReadPast(c: Config, h: Span, limit: nat, parts: seq<Part>, tail: End, s1: State, s: State,
                                    w: Id, response: Response, recorded: seq<nat>, a: Account, n: nat)
    requires Served(c, h, limit, parts, tail, s1, s, w, response, recorded, a) && n < a.stop
    ensures a.stop <= |parts| && Fine(c, limit, parts, n, true)
  {
    assert PartOk(limit, parts, n);
    if IsFile(parts[n]) {
      JobStored(c, h, limit, parts, tail, s1, s, w, response, recorded, a, n);
      RootFixed(limit, parts, n, a.stop);
    }
  }

  lemma {:induction false} JobPlace(parts: seq<Part>, stop: nat, n: nat, stowed: seq<Stowed>)
    requires n < stop <= |parts| && IsFile(parts[n]) && JobsOf(stowed) == Jobs(parts[..stop])
    ensures |Jobs(parts[..n])| < |stowed| && stowed[|Jobs(parts[..n])|].job == JobAt(parts, n)
    ensures |stowed| == |JobsOf(stowed)| && Jobs(parts[..n + 1]) == JobsOf(stowed)[..|Jobs(parts[..n])| + 1]
  {
    var k := |Jobs(parts[..n])|;
    ReadOne(parts, n);
    JobsBefore(parts, n + 1, stop);
    assert |JobsOf(stowed)| == |stowed| && JobsOf(stowed)[k] == stowed[k].job;
  }

  lemma {:induction false} JobStored(c: Config, h: Span, limit: nat, parts: seq<Part>, tail: End, s1: State, s: State,
                                     w: Id, response: Response, recorded: seq<nat>, a: Account, n: nat)
    requires Served(c, h, limit, parts, tail, s1, s, w, response, recorded, a)
    requires n < a.stop <= |parts| && IsFile(parts[n])
    ensures Sound(c, JobAt(parts, n)) && RootOk(parts[..a.stop])
  {
    JobPlace(parts, a.stop, n, a.stowed);
    assert IsStored(c, h, s1.disk, s.disk, w, Base(c, s.workers[w]), a.stowed[|Jobs(parts[..n])|]);
  }

  /** A request does not stop where nothing is wrong. */
  lemma {:induction false} StopsForCause(c: Config, h: Span, limit: nat, parts: seq<Part>, tail: End, s1: State,
                                         s: State, w: Id, response: Response, recorded: seq<nat>, a: Account, n: nat)
    requires Served(c, h, limit, parts, tail, s1, s, w, response, recorded, a)
    requires a.stop < |parts| && a.stop <= n <= |parts|
    requires !IoFailed(h, w) && Uncrowded(s.disk, Home(c, s.workers[w])) && NoClashTo(parts, n)
    requires a.why != Some(StoreTrouble(QuotaExceeded))
    ensures !Fine(c, limit, parts, a.stop, true)
  {
    CreatedExactlyWhen(limit, parts, tail, a.stop, a.why, response);
    if a.why.Some? {
      var wk := s.workers[w];
      OwnFault(c, h, s, wk, w, Root(parts[..a.stop]), a.stowed, JobAt(parts, a.stop), a.why.value);
      if a.why.value.PathBlocked? {
        NotBlocked(parts, n, a.stop, Base(c, wk), a.stowed);
      }
    }
  }

  // ---- and this is the answer ----------------------------------------------------------------------------

  /** The number of a job that was not done, with the first thing wrong with it. */
  lemma {:induction false} JobSays(c: Config, h: Span, s: State, wk: Worker, w: Id, limit: nat, parts: seq<Part>,
                                   tail: End, n: nat, fits: bool, stowed: seq<Stowed>, t: Trouble, response: Response)
    requires Starts(c, h.start) && Exec(c, h.start, h.to) == Some(s) && n < |parts| && IsFile(parts[n])
    requires PartOk(limit, parts, n) && Explained(c, h, wk, w, Root(parts[..n]), stowed, JobAt(parts, n), t)
    requires !IoFailed(h, w) && Uncrowded(s.disk, Home(c, wk)) && Named(c, h, wk, Root(parts[..n]))
    requires !t.HomeTrouble? && !t.PathBlocked? && (t == StoreTrouble(QuotaExceeded) ==> !fits)
    requires t.StoreTrouble? && AfterReading(t.failure) ==> fits
    requires if parts[n].end.Panics? then response == Aborted else response.Rejected? && Numbered(t, response.status)
    ensures Says(c, limit, parts, tail, n, fits, response)
  {
    var job := JobAt(parts, n);
    if t.FolderExhausted? {
      NotExhausted(c, h, s, Home(c, wk), Root(parts[..n]));
    } else if t == StoreTrouble(TooManyNames) {
      assert Home(c, wk) <= Dir(Base(c, wk), job);
      NotOutOfNames(c, h, s, Dir(Base(c, wk), job), job.part.filename);
    } else {
      FileSays(c, h, wk, w, limit, parts, tail, n, fits, stowed, t, response);
    }
  }

  lemma {:induction false} FileSays(c: Config, h: Span, wk: Worker, w: Id, limit: nat, parts: seq<Part>, tail: End,
                                    n: nat, fits: bool, stowed: seq<Stowed>, t: Trouble, response: Response)
    requires n < |parts| && IsFile(parts[n]) && PartOk(limit, parts, n)
    requires Explained(c, h, wk, w, Root(parts[..n]), stowed, JobAt(parts, n), t)
    requires !IoFailed(h, w) && Named(c, h, wk, Root(parts[..n]))
    requires !t.HomeTrouble? && !t.PathBlocked? && !t.FolderExhausted? && t != StoreTrouble(TooManyNames)
    requires (t == StoreTrouble(QuotaExceeded) ==> !fits)
    requires t.StoreTrouble? && AfterReading(t.failure) ==> fits
    requires if parts[n].end.Panics? then response == Aborted else response.Rejected? && Numbered(t, response.status)
    ensures Says(c, limit, parts, tail, n, fits, response)
  {
  }

  lemma {:induction false} AnswerAt(c: Config, h: Span, limit: nat, parts: seq<Part>, tail: End, s1: State, s: State,
                                    w: Id, response: Response, recorded: seq<nat>, a: Account, fits: bool)
    requires Served(c, h, limit, parts, tail, s1, s, w, response, recorded, a)
    requires !IoFailed(h, w) && Uncrowded(s.disk, Home(c, s.workers[w]))
    requires a.stop <= |parts| && NoClashTo(parts, a.stop)
    requires a.why == Some(StoreTrouble(QuotaExceeded)) ==> !fits
    requires a.why.Some? && a.why.value.StoreTrouble? && AfterReading(a.why.value.failure) ==> fits
    ensures Says(c, limit, parts, tail, a.stop, fits, response)
  {
    var wk := s.workers[w];
    StatusByCause(c, h, limit, parts, tail, s1.disk, s.disk, wk, w, response, recorded, a);
    HasFile(parts);
    if a.why.Some? {
      assert !a.why.value.HomeTrouble?;
      if a.why.value.PathBlocked? {
        NotBlocked(parts, a.stop, a.stop, Base(c, wk), a.stowed);
      } else {
        JobSays(c, h, s, wk, w, limit, parts, tail, a.stop, fits, a.stowed, a.why.value, response);
      }
    } else if a.stop < |parts| {
      RefusedSays(c, limit, parts, tail, a.stop, fits, response);
    }
  }

  lemma {:induction false} RefusedSays(c: Config, limit: nat, parts: seq<Part>, tail: End, n: nat, fits: bool,
                                       response: Response)
    requires n < |parts| && !PartOk(limit, parts, n)
    requires if parts[n].end.Panics? then response == Aborted
             else response.Rejected? && RefusedWith(parts[n], response.status)
    ensures Says(c, limit, parts, tail, n, fits, response)
  {
  }

  /** No call fails, names are not used up, no file is in the way of another, and the quotas have room all
      the time: reading stops at the first part with which anything is wrong, and the answer is the number
      for it; with nothing wrong it is 201. */
  lemma {:induction false} AnswerIs(c: Config, h: Span, limit: nat, parts: seq<Part>, tail: End, s1: State, s: State,
                                    w: Id, response: Response, recorded: seq<nat>, a: Account, n: nat)
    requires Served(c, h, limit, parts, tail, s1, s, w, response, recorded, a)
    requires !IoFailed(h, w) && Uncrowded(s.disk, Home(c, s.workers[w]))
    requires HasRoom(c, h, w, ByFiles, Jobs(parts)) && HasRoom(c, h, w, ByBytes, Jobs(parts))
    requires n <= |parts| && NoClashTo(parts, n)
    requires forall i :: 0 <= i < n ==> Fine(c, limit, parts, i, true)
    requires n < |parts| ==> !Fine(c, limit, parts, n, true)
    ensures a.stop == n && Says(c, limit, parts, tail, n, true, response)
  {
    NoQuotaTrouble(c, h, limit, parts, tail, s1, s, w, response, recorded, a);
    if n < a.stop {
      ReadPast(c, h, limit, parts, tail, s1, s, w, response, recorded, a, n);
    } else if a.stop < n {
      StopsForCause(c, h, limit, parts, tail, s1, s, w, response, recorded, a, n);
    }
    AnswerAt(c, h, limit, parts, tail, s1, s, w, response, recorded, a, true);
  }

  // ---- the quotas as part of the condition ---------------------------------------------------------------

  /** The n-th part, if it is a file, fits what the ledgers show when the request begins. */
  ghost predicate FitsAt(c: Config, s1: State, w: Id, parts: seq<Part>, n: nat)
    requires w in s1.workers && n < |parts|
  {
    QuotaFits(c, s1, w, ByFiles, Jobs(parts[..n + 1])) && QuotaFits(c, s1, w, ByBytes, Jobs(parts[..n + 1]))
  }

  lemma {:induction false} FitsLess(c: Config, s1: State, w: Id, m: Measure, jobs: seq<Job>, n: nat)
    requires w in s1.workers && n <= |jobs| && QuotaFits(c, s1, w, m, jobs)
    ensures QuotaFits(c, s1, w, m, jobs[..n])
  {
    NeedGrows(c, m, jobs, n);
  }

  /** What has been stored fitted. */
  lemma {:induction false} ReadFits(c: Config, h: Span, limit: nat, parts: seq<Part>, tail: End, s1: State, s: State,
                                    w: Id, response: Response, recorded: seq<nat>, a: Account, n: nat)
    requires Served(c, h, limit, parts, tail, s1, s, w, response, recorded, a) && Alone(c, h, w)
    requires n < a.stop <= |parts| && IsFile(parts[n])
    ensures FitsAt(c, s1, w, parts, n)
  {
    JobPlace(parts, a.stop, n, a.stowed);
    var k := |Jobs(parts[..n])| + 1;
    StoredMeansFits(c, h, s1, s, w, ByFiles, Base(c, s.workers[w]), a.stowed);
    FitsLess(c, s1, w, ByFiles, JobsOf(a.stowed), k);
    StoredMeansFits(c, h, s1, s, w, ByBytes, Base(c, s.workers[w]), a.stowed);
    FitsLess(c, s1, w, ByBytes, JobsOf(a.stowed), k);
  }

  /** What a quota refuses does not fit. */
  lemma {:induction false} RefusedUnfit(c: Config, h: Span, limit: nat, parts: seq<Part>, tail: End, s1: State,
                                        s: State, w: Id, response: Response, recorded: seq<nat>, a: Account)
    requires Served(c, h, limit, parts, tail, s1, s, w, response, recorded, a) && Alone(c, h, w)
    requires a.why == Some(StoreTrouble(QuotaExceeded))
    ensures a.stop < |parts| && !FitsAt(c, s1, w, parts, a.stop)
  {
    QuotaTrouble(c, h, limit, parts, tail, s1, s, w, response, recorded, a);
    if FitsAt(c, s1, w, parts, a.stop) {
      var jobs := Jobs(parts[..a.stop + 1]);
      var j := |Jobs(parts[..a.stop])|;
      ReadOne(parts, a.stop);
      OwnAtStop(c, h, limit, parts, tail, s1, s, w, response, recorded, a, ByFiles);
      OwnAtStop(c, h, limit, parts, tail, s1, s, w, response, recorded, a, ByBytes);
      JobIs(parts, a.stop);
      assert jobs[..j] == Jobs(parts)[..j] && jobs[j] == JobAt(parts, a.stop);
      FitsMeansRoom(c, h, s1, s, w, ByFiles, jobs);
      FitsMeansRoom(c, h, s1, s, w, ByBytes, jobs);
      NeitherRefused(c, h, s, w, jobs, j);
    }
  }

  /** A part whose bytes were let in fits. */
  lemma {:induction false} LetInFitsAll(c: Config, h: Span, s1: State, s: State, w: Id, m: Measure, demand: nat)
    requires Serving(c, h, s1, s, w) && Alone(c, h, w) && LetIn(c, h, w, m, demand) && Cap(c, m) > 0 && demand > 0
    ensures Get(Book(s1.books, m), Protocol.Key(c, s1.workers[w])) + Own(s.disk, w, m) + demand <= Cap(c, m)
  {
    var run :| h.from <= run <= h.to && LetInAfter(c, h, run, w, m, demand);
    var at := Exec(c, h.start, run).value;
    RestStays(c, h, s1, run, at, w, m);
    Earlier(c, h.start, run, h.to);
    OwnStands(at.disk, s.disk, w, m);
  }

  lemma {:induction false} StoredFits(c: Config, h: Span, limit: nat, parts: seq<Part>, tail: End, s1: State, s: State,
                                      w: Id, response: Response, recorded: seq<nat>, a: Account, m: Measure)
    requires Served(c, h, limit, parts, tail, s1, s, w, response, recorded, a) && Alone(c, h, w)
    ensures a.stop <= |parts| && QuotaFits(c, s1, w, m, Jobs(parts[..a.stop]))
    ensures Own(s.disk, w, m) == Need(c, m, Jobs(parts[..a.stop]))
  {
    StoredMeansFits(c, h, s1, s, w, m, Base(c, s.workers[w]), a.stowed);
    OwnAtEnd(c, h, s1.disk, s.disk, w, Base(c, s.workers[w]), a.stowed, m);
  }

  lemma {:induction false} FitsOneMore(c: Config, s1: State, w: Id, m: Measure, parts: seq<Part>, n: nat)
    requires w in s1.workers && n < |parts| && IsFile(parts[n]) && QuotaFits(c, s1, w, m, Jobs(parts[..n]))
    requires Cap(c, m) > 0 && DemandOf(c, m, JobAt(parts, n)) > 0 ==>
               Get(Book(s1.books, m), Protocol.Key(c, s1.workers[w])) + Need(c, m, Jobs(parts[..n]))
               + DemandOf(c, m, JobAt(parts, n)) <= Cap(c, m)
    ensures QuotaFits(c, s1, w, m, Jobs(parts[..n + 1]))
  {
    ReadOne(parts, n);
    NeedMore(c, m, Jobs(parts[..n]), JobAt(parts, n));
  }

  lemma {:induction false} TakenFits(c: Config, h: Span, limit: nat, parts: seq<Part>, tail: End, s1: State, s: State,
                                     w: Id, response: Response, recorded: seq<nat>, a: Account, m: Measure)
    requires Served(c, h, limit, parts, tail, s1, s, w, response, recorded, a) && Alone(c, h, w)
    requires a.stop < |parts| && IsFile(parts[a.stop]) && LetIn(c, h, w, m, DemandOf(c, m, JobAt(parts, a.stop)))
    ensures QuotaFits(c, s1, w, m, Jobs(parts[..a.stop + 1]))
  {
    StoredFits(c, h, limit, parts, tail, s1, s, w, response, recorded, a, m);
    if Cap(c, m) > 0 && DemandOf(c, m, JobAt(parts, a.stop)) > 0 {
      LetInFitsAll(c, h, s1, s, w, m, DemandOf(c, m, JobAt(parts, a.stop)));
    }
    FitsOneMore(c, s1, w, m, parts, a.stop);
  }

  lemma {:induction false} StopIsAlone(c: Config, h: Span, limit: nat, parts: seq<Part>, tail: End, s1: State,
                                       s: State, w: Id, response: Response, recorded: seq<nat>, a: Account, n: nat)
    requires Served(c, h, limit, parts, tail, s1, s, w, response, recorded, a)
    requires !IoFailed(h, w) && Uncrowded(s.disk, Home(c, s.workers[w])) && Alone(c, h, w)
    requires n <= |parts| && NoClashTo(parts, n)
    requires forall i :: 0 <= i < n ==> Fine(c, limit, parts, i, FitsAt(c, s1, w, parts, i))
    requires n < |parts| ==> !Fine(c, limit, parts, n, FitsAt(c, s1, w, parts, n))
    ensures a.stop == n
  {
    if n < a.stop {
      ReadPast(c, h, limit, parts, tail, s1, s, w, response, recorded, a, n);
      if IsFile(parts[n]) {
        ReadFits(c, h, limit, parts, tail, s1, s, w, response, recorded, a, n);
      }
    } else if a.stop < n {
      assert Fine(c, limit, parts, a.stop, FitsAt(c, s1, w, parts, a.stop));
      if a.why == Some(StoreTrouble(QuotaExceeded)) {
        QuotaTrouble(c, h, limit, parts, tail, s1, s, w, response, recorded, a);
        RefusedUnfit(c, h, limit, parts, tail, s1, s, w, response, recorded, a);
      } else {
        StopsForCause(c, h, limit, parts, tail, s1, s, w, response, recorded, a, n);
      }
    }
  }

  lemma {:induction false} TakenAtStop(c: Config, h: Span, limit: nat, parts: seq<Part>, tail: End, s1: State, s: State,
                                       w: Id, response: Response, recorded: seq<nat>, a: Account)
    requires Served(c, h, limit, parts, tail, s1, s, w, response, recorded, a)
    requires a.why.Some? && a.why.value.StoreTrouble?
    ensures a.stop < |parts| && IsFile(parts[a.stop])
    ensures AfterReading(a.why.value.failure) ==> TakenIn(c, h, w, parts[a.stop])
  {
    assert Explained(c, h, s.workers[w], w, Root(parts[..a.stop]), a.stowed, JobAt(parts, a.stop), a.why.value);
  }

  /** What was let in fits, and what was refused does not. */
  lemma {:induction false} StopFits(c: Config, h: Span, limit: nat, parts: seq<Part>, tail: End, s1: State, s: State,
                                    w: Id, response: Response, recorded: seq<nat>, a: Account)
    requires Served(c, h, limit, parts, tail, s1, s, w, response, recorded, a) && Alone(c, h, w)
    requires a.why.Some? && a.why.value.StoreTrouble?
    ensures a.stop < |parts|
    ensures a.why.value.failure.QuotaExceeded? ==> !FitsAt(c, s1, w, parts, a.stop)
    ensures AfterReading(a.why.value.failure) ==> FitsAt(c, s1, w, parts, a.stop)
  {
    TakenAtStop(c, h, limit, parts, tail, s1, s, w, response, recorded, a);
    if a.why.value.failure.QuotaExceeded? {
      RefusedUnfit(c, h, limit, parts, tail, s1, s, w, response, recorded, a);
    } else if AfterReading(a.why.value.failure) {
      TakenFits(c, h, limit, parts, tail, s1, s, w, response, recorded, a, ByFiles);
      TakenFits(c, h, limit, parts, tail, s1, s, w, response, recorded, a, ByBytes);
    }
  }

  /** The same with no other request of the identity at work, and the quotas as the ledgers show them when
      the request begins: the first file that does not fit is answered with 507. */
  lemma {:induction false} AnswerIsAlone(c: Config, h: Span, limit: nat, parts: seq<Part>, tail: End, s1: State,
                                         s: State, w: Id, response: Response, recorded: seq<nat>, a: Account, n: nat)
    requires Served(c, h, limit, parts, tail, s1, s, w, response, recorded, a)
    requires !IoFailed(h, w) && Uncrowded(s.disk, Home(c, s.workers[w])) && Alone(c, h, w)
    requires n <= |parts| && NoClashTo(parts, n)
    requires forall i :: 0 <= i < n ==> Fine(c, limit, parts, i, FitsAt(c, s1, w, parts, i))
    requires n < |parts| ==> !Fine(c, limit, parts, n, FitsAt(c, s1, w, parts, n))
    ensures a.stop == n && Says(c, limit, parts, tail, n, n < |parts| && FitsAt(c, s1, w, parts, n), response)
  {
    StopIsAlone(c, h, limit, parts, tail, s1, s, w, response, recorded, a, n);
    if a.why.Some? && a.why.value.StoreTrouble? {
      StopFits(c, h, limit, parts, tail, s1, s, w, response, recorded, a);
    }
    AnswerAt(c, h, limit, parts, tail, s1, s, w, response, recorded, a, n < |parts| && FitsAt(c, s1, w, parts, n));
  }
}
