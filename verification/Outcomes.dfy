/** What the answer to an upload tells, and what decides it. */
module Outcomes {
  import opened Sums
  import opened Limits
  import opened Utf8
  import opened Naming
  import opened Candidates
  import opened Paths
  import opened Protocol
  import opened SlotsInvariant
  import opened Safety
  import opened Runs
  import opened Causes
  import opened Room
  import opened Server
  import opened Folders
  import opened Requests
  import opened Filling
  import opened Uploads
  import opened Exhaustion
  import opened Clashes

  /** The stretch of a run in which w is served: it begins when w has just been admitted. */
  ghost predicate Serving(c: Config, h: Span, s1: State, s: State, w: Id) {
    && Starts(c, h.start) && h.from <= h.to
    && Exec(c, h.start, h.from) == Some(s1) && Exec(c, h.start, h.to) == Some(s)
    && w in s1.workers && s1.workers[w].phase == Ready && w in s.workers
    && s.workers[w].user == s1.workers[w].user && SettledBy(s1.disk, w) == {}
  }

  /** All of that, and what the handler makes of it. */
  ghost predicate Served(c: Config, h: Span, limit: nat, parts: seq<Part>, tail: End, s1: State, s: State, w: Id,
                         response: Response, recorded: seq<nat>, a: Account) {
    && Serving(c, h, s1, s, w)
    && Outcome(c, h, limit, parts, tail, s1.disk, s.disk, s.workers[w], w, response, recorded, a)
  }

  // ---- storePart ----------------------------------------------------------------------------------

  /** What becomes of a part when its identity's ledgers show this much, nobody else is at work for the
      identity, no call fails and names are not exhausted: None if it is stored. */
  function Verdict(c: Config, files: int, bytes: int, part: Part): Option<Failure> {
    if SafeFilename(part.filename) == "" then Some(InvalidName)
    else if c.maxFiles > 0 && files + 1 > c.maxFiles then Some(QuotaExceeded)
    else if c.maxBytes > 0 && part.body != [] && bytes + Demand(c, part.body) > c.maxBytes then Some(QuotaExceeded)
    else if |part.body| > c.maxFileBytes || part.end.RequestTooLarge? then Some(TooLarge)
    else
      match part.end
      case Eof => None
      case Broken => Some(ReadError)
      case Panics => Some(Panicked)
  }

  /** A quota refuses a request that is alone only what does not fit. */
  lemma {:induction false} AloneRefused(c: Config, h: Span, s1: State, s: State, w: Id, m: Measure, demand: nat)
    requires Starts(c, h.start) && h.from <= h.to
    requires Exec(c, h.start, h.from) == Some(s1) && Exec(c, h.start, h.to) == Some(s)
    requires w in s1.workers && s1.workers[w].phase == Ready && Alone(c, h, w)
    requires SettledBy(s.disk, w) == SettledBy(s1.disk, w) && Refused(c, h, w, m, demand)
    ensures 0 < Cap(c, m) < Get(Book(s1.books, m), Protocol.Key(c, s1.workers[w])) + demand && demand > 0
  {
    DisabledCase(c, h, w, m, demand);
    Earlier(c, h.start, h.from, h.to);
    OwnStands(s1.disk, s.disk, w, m);
    var need := Own(s.disk, w, m) + demand;
    SumNonNegative(SettledBy(s.disk, w), DataWeight(s.disk, m));
    if Rest(c, s1, w, m) + need <= Cap(c, m) {
      AloneHasRoom(c, h, s1, w, m, need);
      RoomIsEnough(c, h, s, w, m, need, demand);
    }
  }

  lemma DisabledCase(c: Config, h: Span, w: Id, m: Measure, demand: nat)
    requires Refused(c, h, w, m, demand)
    ensures Cap(c, m) > 0 && demand > 0
  {
    if Cap(c, m) == 0 || demand == 0 {
      DisabledRefusesNothing(c, h, w, m, demand);
    }
  }

  /** What it has charged in full fits. */
  lemma {:induction false} AloneFitted(c: Config, h: Span, s1: State, w: Id, m: Measure, demand: nat)
    requires Starts(c, h.start) && Exec(c, h.start, h.from) == Some(s1) && Cap(c, m) > 0 && demand > 0
    requires w in s1.workers && s1.workers[w].phase == Ready && Alone(c, h, w) && Fitted(c, h, w, m, demand)
    ensures Get(Book(s1.books, m), Protocol.Key(c, s1.workers[w])) + demand <= Cap(c, m)
  {
    var run :| h.from <= run <= h.to && FittedAfter(c, h.start, run, w, m, demand);
    var at := Exec(c, h.start, run).value;
    RestStays(c, h, s1, run, at, w, m);
    Earlier(c, h.start, h.from, run);
    OwnGrows(s1.disk, at.disk, w, m);
  }

  /** What is published was let in. */
  lemma {:induction false} AlonePublished(c: Config, h: Span, s1: State, s: State, w: Id, m: Measure, size: nat,
                                          p: Path)
    requires Starts(c, h.start) && h.from <= h.to
    requires Exec(c, h.start, h.from) == Some(s1) && Exec(c, h.start, h.to) == Some(s)
    requires w in s1.workers && s1.workers[w].phase == Ready && Alone(c, h, w)
    requires p in s.disk.settled && |s.disk.settled[p].data| == size
    requires SettledBy(s.disk, w) == SettledBy(s1.disk, w) + {p} && p !in s1.disk.settled && Weigh(m, size) > 0
    ensures Cap(c, m) > 0 ==> Get(Book(s1.books, m), Protocol.Key(c, s1.workers[w])) + Weigh(m, size) <= Cap(c, m)
  {
    Earlier(c, h.start, h.from, h.to);
    var mine := SettledBy(s1.disk, w);
    SumInsert(mine, p, DataWeight(s1.disk, m), DataWeight(s.disk, m));
    if Cap(c, m) > 0 {
      PublishedFits(c, h, s1, s, w, m);
    }
  }

  lemma {:induction false} NotCrowded(d: Disk, dir: Path, filename: string)
    requires |EntriesOf(d, dir)| < 9_999
    ensures !TakenFiles(d, dir, SafeFilename(filename), ATTEMPTS)
  {
    SafeFilenameBytes(filename);
    if TakenFiles(d, dir, SafeFilename(filename), ATTEMPTS) {
      FilesExhausted(d, dir, SafeFilename(filename));
    }
  }

  /** storePart comes to this verdict, whatever requests of other identities do meanwhile. In
      particular a part that is too large is called so exactly when its bytes, up to one more than a
      file may have, fit the quota. */
  lemma {:induction false} StoreVerdict(c: Config, h: Span, s1: State, s: State, w: Id, dir: Path, part: Part,
                                        result: Stored, index: nat)
    requires Starts(c, h.start) && h.from <= h.to && c.maxFileBytes > 0
    requires Exec(c, h.start, h.from) == Some(s1) && Exec(c, h.start, h.to) == Some(s)
    requires w in s1.workers && s1.workers[w].phase == Ready && Alone(c, h, w)
    requires StoreOutcome(c, h, s1.disk, s.disk, s1.workers[w], w, dir, part, result, index)
    requires !IoFailed(h, w) && |EntriesOf(s.disk, dir)| < 9_999
    ensures var (files, bytes) := (Get(s1.books.files, Protocol.Key(c, s1.workers[w])),
                                   Get(s1.books.bytes, Protocol.Key(c, s1.workers[w])));
            match Verdict(c, files, bytes, part)
            case None => result.Stored?
            case Some(why) => result == Failed(why)
  {
    NotCrowded(s.disk, dir, part.filename);
    if result.Stored? {
      StoredRoomy(c, h, s1, s, w, dir + [result.name], part);
    } else {
      FailureVerdict(c, h, s1, s, w, part, result.why);
    }
  }

  lemma {:induction false} LetInFits(c: Config, h: Span, w: Id, m: Measure, demand: nat)
    requires LetIn(c, h, w, m, demand)
    ensures Fitted(c, h, w, m, demand)
  {
    if Cap(c, m) > 0 && demand > 0 {
      var run :| h.from <= run <= h.to && LetInAfter(c, h, run, w, m, demand);
      assert FittedAfter(c, h.start, run, w, m, demand);
    }
  }

  /** The quotas have room for the part beside what the ledgers show. */
  predicate Roomy(c: Config, files: int, bytes: int, part: Part) {
    && (c.maxFiles > 0 ==> files + 1 <= c.maxFiles)
    && (c.maxBytes > 0 && part.body != [] ==> bytes + Demand(c, part.body) <= c.maxBytes)
  }

  lemma {:induction false} StoredRoomy(c: Config, h: Span, s1: State, s: State, w: Id, p: Path, part: Part)
    requires Starts(c, h.start) && h.from <= h.to && |part.body| <= c.maxFileBytes
    requires Exec(c, h.start, h.from) == Some(s1) && Exec(c, h.start, h.to) == Some(s)
    requires w in s1.workers && s1.workers[w].phase == Ready && Alone(c, h, w)
    requires p in s.disk.settled && s.disk.settled[p].data == part.body && p !in s1.disk.settled
    requires SettledBy(s.disk, w) == SettledBy(s1.disk, w) + {p}
    ensures var k := Protocol.Key(c, s1.workers[w]); Roomy(c, Get(s1.books.files, k), Get(s1.books.bytes, k), part)
  {
    AlonePublished(c, h, s1, s, w, ByFiles, |part.body|, p);
    if part.body != [] {
      AlonePublished(c, h, s1, s, w, ByBytes, |part.body|, p);
    }
  }

  lemma {:induction false} QuotaVerdict(c: Config, h: Span, s1: State, s: State, w: Id, part: Part)
    requires Starts(c, h.start) && h.from <= h.to
    requires Exec(c, h.start, h.from) == Some(s1) && Exec(c, h.start, h.to) == Some(s)
    requires w in s1.workers && s1.workers[w].phase == Ready && Alone(c, h, w)
    requires SettledBy(s.disk, w) == SettledBy(s1.disk, w) && Because(c, h, w, part, QuotaExceeded)
    ensures var k := Protocol.Key(c, s1.workers[w]); !Roomy(c, Get(s1.books.files, k), Get(s1.books.bytes, k), part)
  {
    if Refused(c, h, w, ByFiles, 1) {
      AloneRefused(c, h, s1, s, w, ByFiles, 1);
    } else {
      AloneRefused(c, h, s1, s, w, ByBytes, Demand(c, part.body));
    }
  }

  lemma {:induction false} ReadVerdict(c: Config, h: Span, s1: State, w: Id, part: Part)
    requires Starts(c, h.start) && Exec(c, h.start, h.from) == Some(s1) && c.maxFileBytes > 0
    requires w in s1.workers && s1.workers[w].phase == Ready && Alone(c, h, w) && TakenIn(c, h, w, part)
    ensures var k := Protocol.Key(c, s1.workers[w]); Roomy(c, Get(s1.books.files, k), Get(s1.books.bytes, k), part)
  {
    LetInFits(c, h, w, ByFiles, 1);
    LetInFits(c, h, w, ByBytes, Demand(c, part.body));
    if c.maxFiles > 0 {
      AloneFitted(c, h, s1, w, ByFiles, 1);
    }
    if c.maxBytes > 0 && part.body != [] {
      AloneFitted(c, h, s1, w, ByBytes, Demand(c, part.body));
    }
  }

  lemma {:induction false} FailureVerdict(c: Config, h: Span, s1: State, s: State, w: Id, part: Part, why: Failure)
    requires Starts(c, h.start) && h.from <= h.to && c.maxFileBytes > 0
    requires Exec(c, h.start, h.from) == Some(s1) && Exec(c, h.start, h.to) == Some(s)
    requires w in s1.workers && s1.workers[w].phase == Ready && Alone(c, h, w)
    requires SettledBy(s.disk, w) == SettledBy(s1.disk, w) && Because(c, h, w, part, why)
    requires !why.TooManyNames? && !why.IoError? && (why.InvalidName? <==> SafeFilename(part.filename) == "")
    requires AfterReading(why) ==> TakenIn(c, h, w, part)
    ensures var k := Protocol.Key(c, s1.workers[w]);
            Verdict(c, Get(s1.books.files, k), Get(s1.books.bytes, k), part) == Some(why)
  {
    if why.QuotaExceeded? {
      QuotaVerdict(c, h, s1, s, w, part);
    } else if AfterReading(why) {
      ReadVerdict(c, h, s1, w, part);
    }
  }

  /** A part that is larger than a file may be, with a file slot free: it is called too large exactly
      when one byte more than the limit would have fitted the quota, and else the quota refuses it. */
  lemma {:induction false} TooLargeExactly(c: Config, h: Span, s1: State, s: State, w: Id, dir: Path, part: Part,
                                           result: Stored, index: nat)
    requires Starts(c, h.start) && h.from <= h.to && c.maxFileBytes > 0
    requires Exec(c, h.start, h.from) == Some(s1) && Exec(c, h.start, h.to) == Some(s)
    requires w in s1.workers && s1.workers[w].phase == Ready && Alone(c, h, w)
    requires StoreOutcome(c, h, s1.disk, s.disk, s1.workers[w], w, dir, part, result, index)
    requires !IoFailed(h, w) && |EntriesOf(s.disk, dir)| < 9_999
    requires SafeFilename(part.filename) != "" && |part.body| > c.maxFileBytes
    requires c.maxFiles == 0 || Get(s1.books.files, Protocol.Key(c, s1.workers[w])) < c.maxFiles
    ensures result == Failed(TooLarge) <==>
              c.maxBytes == 0 || Get(s1.books.bytes, Protocol.Key(c, s1.workers[w])) + c.maxFileBytes + 1 <= c.maxBytes
    ensures result == Failed(TooLarge) || result == Failed(QuotaExceeded)
  {
    StoreVerdict(c, h, s1, s, w, dir, part, result, index);
  }

  lemma {:induction false} LetterName()
    ensures SafeFilename("a") == "a"
  {
    assert B("a", 0) < 0x80;
    AsciiFaithful("a");
  }

  /** For example two bytes, when nothing is stored yet, under a file limit and a quota of one byte: not
      413 but 507. */
  lemma {:induction false} TooLargeFor507(c: Config, h: Span, s1: State, s: State, w: Id, dir: Path, part: Part,
                                          result: Stored, index: nat)
    requires Starts(c, h.start) && h.from <= h.to && c.maxBytes == c.maxFileBytes == 1 && c.maxFiles == 0
    requires Exec(c, h.start, h.from) == Some(s1) && Exec(c, h.start, h.to) == Some(s)
    requires w in s1.workers && s1.workers[w].phase == Ready && Alone(c, h, w)
    requires StoreOutcome(c, h, s1.disk, s.disk, s1.workers[w], w, dir, part, result, index)
    requires !IoFailed(h, w) && |EntriesOf(s.disk, dir)| < 9_999
    requires Get(s1.books.bytes, Protocol.Key(c, s1.workers[w])) == 0 && part == Part("file", "a", "xy", Eof)
    ensures result == Failed(QuotaExceeded) && StatusOf(StoreTrouble(result.why)) == 507
  {
    LetterName();
    TooLargeExactly(c, h, s1, s, w, dir, part, result, index);
  }

  // ---- the whole request --------------------------------------------------------------------------

  function DemandOf(c: Config, m: Measure, job: Job): nat {
    if m.ByFiles? then 1 else Demand(c, job.part.body)
  }

  /** What the jobs ask of a quota. */
  function Need(c: Config, m: Measure, jobs: seq<Job>): nat {
    if jobs == [] then 0
    else
      var last := jobs[|jobs| - 1];
      Need(c, m, jobs[..|jobs| - 1]) + DemandOf(c, m, last)
  }

  lemma {:induction false} NeedGrows(c: Config, m: Measure, jobs: seq<Job>, n: nat)
    requires n <= |jobs|
    ensures Need(c, m, jobs[..n]) <= Need(c, m, jobs)
    decreases |jobs|
  {
    if n < |jobs| {
      var before := jobs[..|jobs| - 1];
      NeedGrows(c, m, before, n);
      assert before[..n] == jobs[..n];
    } else {
      assert jobs[..n] == jobs;
    }
  }

  lemma {:induction false} NeedFiles(c: Config, jobs: seq<Job>)
    ensures Need(c, ByFiles, jobs) == |jobs|
    decreases |jobs|
  {
    if jobs != [] {
      NeedFiles(c, jobs[..|jobs| - 1]);
    }
  }

  lemma {:induction false} NeedMore(c: Config, m: Measure, jobs: seq<Job>, job: Job)
    ensures Need(c, m, jobs + [job]) == Need(c, m, jobs) + DemandOf(c, m, job)
  {
    assert (jobs + [job])[..|jobs|] == jobs;
  }

  lemma {:induction false} StoredWeight(c: Config, h: Span, d0: Disk, d: Disk, w: Id, base: Path, x: Stowed, m: Measure)
    requires IsStored(c, h, d0, d, w, base, x)
    ensures DataWeight(d, m)(PlaceOf(base, x)) == DemandOf(c, m, x.job)
  {
  }

  lemma {:induction false} OneMorePlace(base: Path, stowed: seq<Stowed>, n: nat, f: Path -> int)
    requires forall i, j :: 0 <= i < j < |stowed| ==> PlaceOf(base, stowed[i]) != PlaceOf(base, stowed[j])
    requires n < |stowed|
    ensures Sum(Places(base, stowed[..n + 1]), f) == Sum(Places(base, stowed[..n]), f) + f(PlaceOf(base, stowed[n]))
  {
    assert stowed[..n + 1] == stowed[..n] + [stowed[n]];
    PlacesGrow(base, stowed[..n], stowed[n]);
    NewPlace(base, stowed, n);
    SumInsert(Places(base, stowed[..n]), PlaceOf(base, stowed[n]), f, f);
  }

  lemma {:induction false} OneMoreNeed(c: Config, m: Measure, stowed: seq<Stowed>, n: nat)
    requires n < |stowed|
    ensures Need(c, m, JobsOf(stowed[..n + 1])) == Need(c, m, JobsOf(stowed[..n])) + DemandOf(c, m, stowed[n].job)
  {
    assert JobsOf(stowed[..n + 1]) == JobsOf(stowed[..n]) + [stowed[n].job];
    NeedMore(c, m, JobsOf(stowed[..n]), stowed[n].job);
  }

  lemma {:induction false} PlacesNeed(c: Config, base: Path, stowed: seq<Stowed>, m: Measure, f: Path -> int, n: nat)
    requires forall i, j :: 0 <= i < j < |stowed| ==> PlaceOf(base, stowed[i]) != PlaceOf(base, stowed[j])
    requires forall i :: 0 <= i < |stowed| ==> f(PlaceOf(base, stowed[i])) == DemandOf(c, m, stowed[i].job)
    requires n <= |stowed|
    ensures Sum(Places(base, stowed[..n]), f) == Need(c, m, JobsOf(stowed[..n]))
    decreases n
  {
    if n > 0 {
      PlacesNeed(c, base, stowed, m, f, n - 1);
      OneMorePlace(base, stowed, n - 1, f);
      OneMoreNeed(c, m, stowed, n - 1);
    } else {
      assert Places(base, stowed[..0]) == {} && JobsOf(stowed[..0]) == [];
    }
  }

  lemma {:induction false} NewPlace(base: Path, stowed: seq<Stowed>, n: nat)
    requires forall i, j :: 0 <= i < j < |stowed| ==> PlaceOf(base, stowed[i]) != PlaceOf(base, stowed[j])
    requires n < |stowed|
    ensures PlaceOf(base, stowed[n]) !in Places(base, stowed[..n])
  {
    forall i | 0 <= i < n
      ensures PlaceOf(base, stowed[..n][i]) != PlaceOf(base, stowed[n])
    {
    }
  }

  /** What a request has published is what its stored jobs asked for. */
  lemma {:induction false} OwnAtEnd(c: Config, h: Span, d0: Disk, d: Disk, w: Id, base: Path, stowed: seq<Stowed>,
                                    m: Measure)
    requires Holds(c, h, d0, d, w, base, stowed) && SettledBy(d0, w) == {}
    ensures Own(d, w, m) == Need(c, m, JobsOf(stowed))
  {
    forall i | 0 <= i < |stowed|
      ensures DataWeight(d, m)(PlaceOf(base, stowed[i])) == DemandOf(c, m, stowed[i].job)
    {
      StoredWeight(c, h, d0, d, w, base, stowed[i], m);
    }
    PlacesNeed(c, base, stowed, m, DataWeight(d, m), |stowed|);
    assert stowed[..|stowed|] == stowed && SettledBy(d, w) == Places(base, stowed);
  }

  /** The file part at n is one of the jobs. */
  lemma {:induction false} JobIs(parts: seq<Part>, n: nat)
    requires n < |parts| && IsFile(parts[n])
    ensures var j := |Jobs(parts[..n])|;
            && j < |Jobs(parts)| && Jobs(parts)[j] == JobAt(parts, n) && Jobs(parts[..n]) == Jobs(parts)[..j]
  {
    ReadOne(parts, n);
    JobsPrefix(parts, n + 1);
    JobsPrefix(parts, n);
  }

  /** All the time there is room for all the jobs, unless they need none. */
  ghost predicate HasRoom(c: Config, h: Span, w: Id, m: Measure, jobs: seq<Job>) {
    Need(c, m, jobs) == 0 || LeavesRoom(c, h, w, m, Need(c, m, jobs))
  }

  /** With room for all the jobs, none is refused. */
  lemma {:induction false} NotRefused(c: Config, h: Span, s: State, w: Id, jobs: seq<Job>, j: nat, m: Measure)
    requires Starts(c, h.start) && Exec(c, h.start, h.to) == Some(s) && HasRoom(c, h, w, m, jobs)
    requires j < |jobs| && Own(s.disk, w, m) == Need(c, m, jobs[..j])
    ensures !Refused(c, h, w, m, DemandOf(c, m, jobs[j]))
  {
    assert jobs[..j + 1] == jobs[..j] + [jobs[j]];
    NeedMore(c, m, jobs[..j], jobs[j]);
    NeedGrows(c, m, jobs, j + 1);
    if Need(c, m, jobs) == 0 {
      DisabledRefusesNothing(c, h, w, m, DemandOf(c, m, jobs[j]));
    } else {
      RoomIsEnough(c, h, s, w, m, Need(c, m, jobs), DemandOf(c, m, jobs[j]));
    }
  }

  /** At the job at which a request stops it has published what the jobs before asked for. */
  lemma {:induction false} OwnAtStop(c: Config, h: Span, limit: nat, parts: seq<Part>, tail: End, s1: State, s: State,
                                     w: Id, response: Response, recorded: seq<nat>, a: Account, m: Measure)
    requires Served(c, h, limit, parts, tail, s1, s, w, response, recorded, a)
    requires a.stop < |parts| && IsFile(parts[a.stop])
    ensures var j := |Jobs(parts[..a.stop])|; j < |Jobs(parts)| && Own(s.disk, w, m) == Need(c, m, Jobs(parts)[..j])
  {
    JobIs(parts, a.stop);
    OwnAtEnd(c, h, s1.disk, s.disk, w, Base(c, s.workers[w]), a.stowed, m);
  }

  lemma {:induction false} QuotaExplained(c: Config, h: Span, wk: Worker, w: Id, root: string, stowed: seq<Stowed>,
                                          job: Job)
    requires Explained(c, h, wk, w, root, stowed, job, StoreTrouble(QuotaExceeded))
    ensures Refused(c, h, w, ByFiles, DemandOf(c, ByFiles, job)) || Refused(c, h, w, ByBytes, DemandOf(c, ByBytes, job))
  {
  }

  lemma {:induction false} QuotaTrouble(c: Config, h: Span, limit: nat, parts: seq<Part>, tail: End, s1: State,
                                        s: State, w: Id, response: Response, recorded: seq<nat>, a: Account)
    requires Served(c, h, limit, parts, tail, s1, s, w, response, recorded, a)
    requires a.why == Some(StoreTrouble(QuotaExceeded))
    ensures a.stop < |parts| && IsFile(parts[a.stop])
    ensures || Refused(c, h, w, ByFiles, DemandOf(c, ByFiles, JobAt(parts, a.stop)))
            || Refused(c, h, w, ByBytes, DemandOf(c, ByBytes, JobAt(parts, a.stop)))
  {
    QuotaExplained(c, h, s.workers[w], w, Root(parts[..a.stop]), a.stowed, JobAt(parts, a.stop));
  }

  /** A request with room for all it needs is never refused by a quota. */
  lemma {:induction false} NoQuotaTrouble(c: Config, h: Span, limit: nat, parts: seq<Part>, tail: End, s1: State,
                                          s: State, w: Id, response: Response, recorded: seq<nat>, a: Account)
    requires Served(c, h, limit, parts, tail, s1, s, w, response, recorded, a)
    requires HasRoom(c, h, w, ByFiles, Jobs(parts)) && HasRoom(c, h, w, ByBytes, Jobs(parts))
    ensures a.why != Some(StoreTrouble(QuotaExceeded))
  {
    if a.why == Some(StoreTrouble(QuotaExceeded)) {
      QuotaTrouble(c, h, limit, parts, tail, s1, s, w, response, recorded, a);
      JobIs(parts, a.stop);
      OwnAtStop(c, h, limit, parts, tail, s1, s, w, response, recorded, a, ByFiles);
      OwnAtStop(c, h, limit, parts, tail, s1, s, w, response, recorded, a, ByBytes);
      NeitherRefused(c, h, s, w, Jobs(parts), |Jobs(parts[..a.stop])|);
    }
  }

  lemma {:induction false} NeitherRefused(c: Config, h: Span, s: State, w: Id, jobs: seq<Job>, j: nat)
    requires Starts(c, h.start) && Exec(c, h.start, h.to) == Some(s) && j < |jobs|
    requires HasRoom(c, h, w, ByFiles, jobs) && Own(s.disk, w, ByFiles) == Need(c, ByFiles, jobs[..j])
    requires HasRoom(c, h, w, ByBytes, jobs) && Own(s.disk, w, ByBytes) == Need(c, ByBytes, jobs[..j])
    ensures !Refused(c, h, w, ByFiles, DemandOf(c, ByFiles, jobs[j]))
    ensures !Refused(c, h, w, ByBytes, DemandOf(c, ByBytes, jobs[j]))
  {
    NotRefused(c, h, s, w, jobs, j, ByFiles);
    NotRefused(c, h, s, w, jobs, j, ByBytes);
  }

  // ---- what keeps a request from being answered with 201 ------------------------------------------

  /** Names are not used up in any directory the request may store in. */
  ghost predicate Uncrowded(d: Disk, home: Path) {
    forall dir: Path :: home <= dir ==> |EntriesOf(d, dir)| < 9_999
  }

  /** The folder's name survives being sanitised once more. */
  predicate RootOk(parts: seq<Part>) {
    Root(parts) == "" || SafeFilename(Root(parts)) !in {"", ".."}
  }

  ghost predicate AllSound(c: Config, jobs: seq<Job>) {
    forall j :: 0 <= j < |jobs| ==> Sound(c, jobs[j])
  }

  lemma {:induction false} NotExhausted(c: Config, h: Span, s: State, home: Path, root: string)
    requires Starts(c, h.start) && Exec(c, h.start, h.to) == Some(s) && |EntriesOf(s.disk, home)| < 9_999
    ensures !TriedFolders(c, h, home, SafeFilename(root), ATTEMPTS)
  {
    if TriedFolders(c, h, home, SafeFilename(root), ATTEMPTS) {
      SafeFilenameBytes(root);
      TriedFoldersTaken(c, h, s, home, SafeFilename(root), ATTEMPTS);
      FoldersExhausted(s.disk, home, SafeFilename(root));
    }
  }

  lemma {:induction false} NotOutOfNames(c: Config, h: Span, s: State, dir: Path, filename: string)
    requires Starts(c, h.start) && Exec(c, h.start, h.to) == Some(s) && |EntriesOf(s.disk, dir)| < 9_999
    ensures !TriedFiles(c, h, dir, SafeFilename(filename), ATTEMPTS)
  {
    NotCrowded(s.disk, dir, filename);
    if TriedFiles(c, h, dir, SafeFilename(filename), ATTEMPTS) {
      TriedAreTaken(c, h, s, dir, SafeFilename(filename), ATTEMPTS);
    }
  }

  /** No call failed, no names are used up, no quota refused: then it was the root, the job itself, or a
      file stored before it. */
  lemma {:induction false} OwnFault(c: Config, h: Span, s: State, wk: Worker, w: Id, root: string, stowed: seq<Stowed>,
                                    job: Job, t: Trouble)
    requires Starts(c, h.start) && Exec(c, h.start, h.to) == Some(s)
    requires Explained(c, h, wk, w, root, stowed, job, t) && t != StoreTrouble(QuotaExceeded)
    requires !IoFailed(h, w) && Uncrowded(s.disk, Home(c, wk))
    ensures t.FolderInvalid? || t.PathBlocked? || !Sound(c, job)
    ensures t.FolderInvalid? ==> root != "" && SafeFilename(root) in {"", ".."}
    ensures t.PathBlocked? ==> wk.folder.Some? && Blocked(Base(c, wk), stowed, job)
  {
    match t
    case FolderExhausted => NotExhausted(c, h, s, Home(c, wk), root);
    case StoreTrouble(failure) =>
      if failure.TooManyNames? {
        assert Home(c, wk) <= Dir(Base(c, wk), job);
        NotOutOfNames(c, h, s, Dir(Base(c, wk), job), job.part.filename);
      }
    case _ =>
  }

  /** The root is settled before the first file. */
  lemma {:induction false} RootFixed(limit: nat, parts: seq<Part>, n: nat, m: nat)
    requires n < m <= |parts| && InOrder(limit, parts, m) && IsFile(parts[n])
    ensures Root(parts[..m]) == Root(parts[..n])
    decreases m
  {
    ReadOne(parts, m - 1);
    assert PartOk(limit, parts, m - 1);
    if n < m - 1 {
      RootFixed(limit, parts, n, m - 1);
    }
  }

  /** What a request that is not answered with 201 has against it. */
  lemma {:induction false} NotCreated(c: Config, h: Span, limit: nat, parts: seq<Part>, tail: End, s1: State, s: State,
                                      w: Id, response: Response, recorded: seq<nat>, a: Account)
    requires Served(c, h, limit, parts, tail, s1, s, w, response, recorded, a) && !response.Created?
    requires !IoFailed(h, w) && Uncrowded(s.disk, Home(c, s.workers[w]))
    requires a.why != Some(StoreTrouble(QuotaExceeded))
    ensures || !Acceptable(limit, parts, tail) || !RootOk(parts) || !AllSound(c, Jobs(parts))
            || Clash(Base(c, s.workers[w]), Jobs(parts))
  {
    CreatedExactlyWhen(limit, parts, tail, a.stop, a.why, response);
    if Acceptable(limit, parts, tail) {
      var (wk, job) := (s.workers[w], JobAt(parts, a.stop));
      OwnFault(c, h, s, wk, w, Root(parts[..a.stop]), a.stowed, job, a.why.value);
      RootFixed(limit, parts, a.stop, |parts|);
      assert parts[..|parts|] == parts;
      JobIs(parts, a.stop);
      if a.why.value.PathBlocked? {
        assert JobsOf(a.stowed) == Jobs(parts)[..|a.stowed|] by {
          assert |JobsOf(a.stowed)| == |a.stowed|;
        }
        assert ClashWith(Base(c, wk), Jobs(parts), a.stowed);
      }
    }
  }

  // ---- what 201 tells -------------------------------------------------------------------------------

  /** Whatever the answer, the files stored, charged and counted are the first of the files sent, and
      each was counted with its full size. */
  lemma {:induction false} StoredIsPrefix(c: Config, h: Span, limit: nat, parts: seq<Part>, tail: End, d0: Disk,
                                          d: Disk,
                                          wk: Worker, w: Id, response: Response, recorded: seq<nat>, a: Account)
    requires Outcome(c, h, limit, parts, tail, d0, d, wk, w, response, recorded, a)
    ensures JobsOf(a.stowed) <= Jobs(parts) && |recorded| == |a.stowed|
    ensures forall i :: 0 <= i < |recorded| ==> recorded[i] == |Jobs(parts)[i].part.body|
    ensures SettledBy(d, w) == SettledBy(d0, w) + Places(Base(c, wk), a.stowed)
    ensures |Places(Base(c, wk), a.stowed)| == |recorded|
    ensures response.Created? ==> JobsOf(a.stowed) == Jobs(parts)
  {
    JobsPrefix(parts, a.stop);
    forall i | 0 <= i < |recorded|
      ensures recorded[i] == |Jobs(parts)[i].part.body|
    {
      assert JobsOf(a.stowed)[i] == Jobs(parts)[i];
    }
    PlacesCount(Base(c, wk), a.stowed);
    CreatedExactlyWhen(limit, parts, tail, a.stop, a.why, response);
    if response.Created? {
      assert parts[..|parts|] == parts;
    }
  }

  lemma PlacesCount(base: Path, stowed: seq<Stowed>)
    requires forall i, j :: 0 <= i < j < |stowed| ==> PlaceOf(base, stowed[i]) != PlaceOf(base, stowed[j])
    ensures |Places(base, stowed)| == |stowed|
  {
    var paths := seq(|stowed|, i requires 0 <= i < |stowed| => PlaceOf(base, stowed[i]));
    var all := set i | 0 <= i < |paths| :: paths[i];
    DistinctCount(paths);
    forall p
      ensures p in Places(base, stowed) <==> p in all
    {
      if p in Places(base, stowed) {
        var i :| 0 <= i < |stowed| && p == PlaceOf(base, stowed[i]);
        assert paths[i] == p;
      }
    }
    assert Places(base, stowed) == all;
  }

  lemma {:induction false} DistinctCount(s: seq<Path>)
    requires forall i, j :: 0 <= i < j < |s| ==> s[i] != s[j]
    ensures |set i | 0 <= i < |s| :: s[i]| == |s|
    decreases |s|
  {
    if s != [] {
      var (before, last) := (s[..|s| - 1], s[|s| - 1]);
      DistinctCount(before);
      assert (set i | 0 <= i < |s| :: s[i]) == (set i | 0 <= i < |before| :: before[i]) + {last};
    }
  }

  lemma HeldAreSound(c: Config, h: Span, d0: Disk, d: Disk, w: Id, base: Path, stowed: seq<Stowed>, jobs: seq<Job>)
    requires Holds(c, h, d0, d, w, base, stowed) && JobsOf(stowed) == jobs
    ensures forall j :: 0 <= j < |jobs| ==> Sound(c, jobs[j])
  {
    forall j | 0 <= j < |jobs|
      ensures Sound(c, jobs[j])
    {
      assert jobs[j] == JobsOf(stowed)[j];
      assert IsStored(c, h, d0, d, w, base, stowed[j]);
    }
  }

  lemma InsideApart(c: Config, s: State, r: Path)
    requires Inv(c, s)
    ensures Inside(s.disk, r).files.Keys !! Inside(s.disk, r).dirs
  {
    forall p | p in Inside(s.disk, r).files
      ensures p !in Inside(s.disk, r).dirs
    {
      assert p in s.disk.settled && p in s.disk.names;
    }
  }

  /** What was sent without a root has no paths. */
  lemma {:induction false} FlatJobs(limit: nat, parts: seq<Part>, n: nat)
    requires n <= |parts| && InOrder(limit, parts, n) && Root(parts[..n]) == ""
    ensures forall j :: 0 <= j < |Jobs(parts[..n])| ==> Jobs(parts[..n])[j].relative == ""
    decreases n
  {
    if n > 0 {
      WhatWasRead(limit, parts, n);
      WhatWasRead(limit, parts, n - 1);
      ReadOne(parts, n - 1);
      FlatJobs(limit, parts, n - 1);
    }
  }

  lemma {:induction false} FlatNeverClash(r: Path, jobs: seq<Job>)
    requires forall j :: 0 <= j < |jobs| ==> jobs[j].relative == ""
    ensures !Clash(r, jobs)
  {
    forall stowed
      ensures !ClashWith(r, jobs, stowed)
    {
      assert |stowed| < |jobs| ==> Below(r, Local(jobs[|stowed|])) == {};
    }
  }

  /** A request answered with 201 met all there is to meet. */
  lemma {:induction false} CreatedTells(c: Config, h: Span, limit: nat, parts: seq<Part>, tail: End, s1: State,
                                        s: State,
                                        w: Id, response: Response, recorded: seq<nat>, a: Account)
    requires Served(c, h, limit, parts, tail, s1, s, w, response, recorded, a) && response.Created?
    ensures Acceptable(limit, parts, tail) && RootOk(parts) && AllSound(c, Jobs(parts))
    ensures AllOrdinary(Jobs(parts)) ==> !Clash([], Jobs(parts))
  {
    var wk := s.workers[w];
    CreatedExactlyWhen(limit, parts, tail, a.stop, a.why, response);
    StoredIsPrefix(c, h, limit, parts, tail, s1.disk, s.disk, wk, w, response, recorded, a);
    HeldAreSound(c, h, s1.disk, s.disk, w, Base(c, wk), a.stowed, Jobs(parts));
    assert parts[..|parts|] == parts && |JobsOf(a.stowed)| == |a.stowed|;
    if Root(parts) == "" {
      FlatJobs(limit, parts, |parts|);
      FlatNeverClash([], Jobs(parts));
    } else if AllOrdinary(Jobs(parts)) {
      Reached(c, h.start, h.to, s);
      InsideApart(c, s, Base(c, wk));
      NoClash(Base(c, wk), a.stowed);
      if Clash([], Jobs(parts)) {
        ClashAnywhere([], Base(c, wk), Jobs(parts));
      }
    }
  }

  /** A name that was not cut in leading white space, if it comes out as anything, is ordinary. */
  lemma SteadyOrdinary(filename: string)
    requires Steady(filename) && SafeFilename(filename) != ""
    ensures Ordinary(SafeFilename(filename))
  {
    SteadyName(filename);
  }

  // ---- 201 exactly when ---------------------------------------------------------------------------

  /** No call fails, names are not used up, and the quotas have room all the time for what is sent:
      then 201 is the answer if and only if the parts come in an acceptable order, the root can name a
      folder, every file can be stored as it is, and none is in the way of another. (Where a name
      sent looks like a temporary file's, it may be in the way or not.) */
  lemma {:induction false} CreatedIffSound(c: Config, h: Span, limit: nat, parts: seq<Part>, tail: End, s1: State,
                                           s: State, w: Id, response: Response, recorded: seq<nat>, a: Account)
    requires Served(c, h, limit, parts, tail, s1, s, w, response, recorded, a)
    requires !IoFailed(h, w) && Uncrowded(s.disk, Home(c, s.workers[w]))
    requires HasRoom(c, h, w, ByFiles, Jobs(parts)) && HasRoom(c, h, w, ByBytes, Jobs(parts))
    ensures response.Created? ==> Acceptable(limit, parts, tail) && RootOk(parts) && AllSound(c, Jobs(parts))
    ensures response.Created? && AllOrdinary(Jobs(parts)) ==> !Clash([], Jobs(parts))
    ensures Acceptable(limit, parts, tail) && RootOk(parts) && AllSound(c, Jobs(parts)) && !Clash([], Jobs(parts)) ==>
              response.Created?
  {
    NoQuotaTrouble(c, h, limit, parts, tail, s1, s, w, response, recorded, a);
    if response.Created? {
      CreatedTells(c, h, limit, parts, tail, s1, s, w, response, recorded, a);
    } else {
      NotCreated(c, h, limit, parts, tail, s1, s, w, response, recorded, a);
      if Clash(Base(c, s.workers[w]), Jobs(parts)) {
        ClashAnywhere(Base(c, s.workers[w]), [], Jobs(parts));
      }
    }
  }

  /** What the identity's ledger shows when the request begins leaves room for the jobs. */
  ghost predicate QuotaFits(c: Config, s1: State, w: Id, m: Measure, jobs: seq<Job>)
    requires w in s1.workers
  {
    || Cap(c, m) == 0 || Need(c, m, jobs) == 0
    || Get(Book(s1.books, m), Protocol.Key(c, s1.workers[w])) + Need(c, m, jobs) <= Cap(c, m)
  }

  lemma {:induction false} FitsMeansRoom(c: Config, h: Span, s1: State, s: State, w: Id, m: Measure, jobs: seq<Job>)
    requires Serving(c, h, s1, s, w) && Alone(c, h, w) && QuotaFits(c, s1, w, m, jobs)
    ensures HasRoom(c, h, w, m, jobs)
  {
    if Need(c, m, jobs) > 0 {
      AloneHasRoom(c, h, s1, w, m, Need(c, m, jobs));
    }
  }

  lemma {:induction false} StoredMeansFits(c: Config, h: Span, s1: State, s: State, w: Id, m: Measure, base: Path,
                                           stowed: seq<Stowed>)
    requires Serving(c, h, s1, s, w) && Alone(c, h, w) && Holds(c, h, s1.disk, s.disk, w, base, stowed)
    ensures QuotaFits(c, s1, w, m, JobsOf(stowed))
  {
    if Cap(c, m) > 0 && Need(c, m, JobsOf(stowed)) > 0 {
      OwnAtEnd(c, h, s1.disk, s.disk, w, base, stowed, m);
      PublishedFits(c, h, s1, s, w, m);
    }
  }

  /** With no other request of the identity at work, the quotas are part of the condition, as the
      ledgers show them when the request begins. */
  lemma {:induction false} CreatedIffFits(c: Config, h: Span, limit: nat, parts: seq<Part>, tail: End, s1: State,
                                          s: State, w: Id, response: Response, recorded: seq<nat>, a: Account)
    requires Served(c, h, limit, parts, tail, s1, s, w, response, recorded, a)
    requires !IoFailed(h, w) && Uncrowded(s.disk, Home(c, s.workers[w])) && Alone(c, h, w)
    ensures response.Created? ==>
              && Acceptable(limit, parts, tail) && RootOk(parts) && AllSound(c, Jobs(parts))
              && QuotaFits(c, s1, w, ByFiles, Jobs(parts)) && QuotaFits(c, s1, w, ByBytes, Jobs(parts))
    ensures response.Created? && AllOrdinary(Jobs(parts)) ==> !Clash([], Jobs(parts))
    ensures && Acceptable(limit, parts, tail) && RootOk(parts) && AllSound(c, Jobs(parts)) && !Clash([], Jobs(parts))
            && QuotaFits(c, s1, w, ByFiles, Jobs(parts)) && QuotaFits(c, s1, w, ByBytes, Jobs(parts)) ==>
              response.Created?
  {
    if response.Created? {
      var base := Base(c, s.workers[w]);
      CreatedTells(c, h, limit, parts, tail, s1, s, w, response, recorded, a);
      StoredIsPrefix(c, h, limit, parts, tail, s1.disk, s.disk, s.workers[w], w, response, recorded, a);
      StoredMeansFits(c, h, s1, s, w, ByFiles, base, a.stowed);
      StoredMeansFits(c, h, s1, s, w, ByBytes, base, a.stowed);
    } else if QuotaFits(c, s1, w, ByFiles, Jobs(parts)) && QuotaFits(c, s1, w, ByBytes, Jobs(parts)) {
      FitsMeansRoom(c, h, s1, s, w, ByFiles, Jobs(parts));
      FitsMeansRoom(c, h, s1, s, w, ByBytes, Jobs(parts));
      CreatedIffSound(c, h, limit, parts, tail, s1, s, w, response, recorded, a);
    }
  }

  /** A request that was admitted is being served from then on. */
  lemma {:induction false} Admitted(c: Config, start: State, trace: seq<Act>, s0: State, w: Id, user: User)
    returns (s1: State)
    requires Starts(c, start) && Exec(c, start, trace) == Some(s0) && w !in s0.workers
    requires Admits(c, s0.workers, user.subject)
    ensures Exec(c, start, trace + [Act(w, Event.Begin(user))]) == Some(s1) && s1.disk == s0.disk
    ensures s1.books.bytes == s0.books.bytes && s1.books.files == s0.books.files
    ensures w in s1.workers && s1.workers[w] == Worker(user, None, Ready) && SettledBy(s1.disk, w) == {}
  {
    OnlyWorkersSettle(c, start, trace, s0, w);
    Reached(c, start, trace, s0);
    RefusedExactly(c, s0.books.slots, s0.workers, user.subject);
    assert (trace + [Act(w, Event.Begin(user))])[..|trace|] == trace;
    s1 := Apply(c, s0, w, Event.Begin(user)).value;
  }
}
