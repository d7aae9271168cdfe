/** What a multipart upload request says, and how it is answered (internal/dumpbox/server.go:271-408). */
module Requests {
  import opened Sums
  import opened Naming
  import opened Protocol
  import opened Server

  /** The body is read as a multipart stream; tail is how it ends after its parts. */
  datatype Request = NotMultipart | Multipart(parts: seq<Part>, tail: End)

  datatype Response = Created(files: seq<Path>) | Rejected(status: nat) | Aborted

  /** What can go wrong for a request or a part that is acceptable where it stands. */
  datatype Trouble =
    | HomeTrouble                        // the user's directory could not be made
    | FolderInvalid | FolderExhausted | FolderTrouble
    | InvalidPath | PathBlocked | PathTrouble
    | StoreTrouble(failure: Failure)

  /** A file part with the path that was sent for it. */
  datatype Job = Job(relative: string, part: Part)

  predicate IsField(p: Part) { p.filename == "" }
  predicate IsFile(p: Part) { p.filename != "" && p.form == "file" }
  predicate IsRoot(p: Part) { IsField(p) && p.form == "root" }
  predicate IsPath(p: Part) { IsField(p) && p.form == "path" }

  /** The folder name asked for so far. */
  function Root(parts: seq<Part>): string {
    if parts == [] then ""
    else
      var last := parts[|parts| - 1];
      if IsRoot(last) then SafeFilename(last.body) else Root(parts[..|parts| - 1])
  }

  /** The path that is waiting for the next file. */
  function Relative(parts: seq<Part>): string {
    if parts == [] then ""
    else
      var last := parts[|parts| - 1];
      if IsPath(last) then last.body else if IsFile(last) then "" else Relative(parts[..|parts| - 1])
  }

  /** The files to store, in order; a path serves the next file only. */
  function Jobs(parts: seq<Part>): seq<Job> {
    if parts == [] then []
    else
      var (before, last) := (parts[..|parts| - 1], parts[|parts| - 1]);
      if IsFile(last) then Jobs(before) + [Job(Relative(before), last)] else Jobs(before)
  }

  const MAX_FIELD := 4096

  /** The i-th part is acceptable where it stands: fields are short and complete; a root comes once,
      before any file; a path comes after the root; files stay within the limit; a part that is
      neither is skipped, but its bytes must be readable. */
  ghost predicate PartOk(limit: nat, parts: seq<Part>, i: nat)
    requires i < |parts|
  {
    var p := parts[i];
    && (IsField(p) ==> |p.body| <= MAX_FIELD && p.end.Eof?)
    && (IsRoot(p) ==> SafeFilename(p.body) != "" && forall j :: 0 <= j < i ==> !IsRoot(parts[j]) && !IsFile(parts[j]))
    && (IsPath(p) ==> exists j :: 0 <= j < i && IsRoot(parts[j]))
    && (IsFile(p) ==> limit == 0 || |Jobs(parts[..i])| < limit)
    && (!IsField(p) && !IsFile(p) ==> p.end.Eof?)
  }

  ghost predicate InOrder(limit: nat, parts: seq<Part>, n: nat)
    requires n <= |parts|
  {
    forall i :: 0 <= i < n ==> PartOk(limit, parts, i)
  }

  ghost predicate Acceptable(limit: nat, parts: seq<Part>, tail: End) {
    InOrder(limit, parts, |parts|) && tail.Eof? && Jobs(parts) != []
  }

  /** Closing a part reads it to its end, so a panic in the source always surfaces. */
  function Reply(p: Part, status: nat): Response {
    if p.end.Panics? then Aborted else Rejected(status)
  }

  function Ended(end: End): Response
    requires !end.Eof?
  {
    match end
    case RequestTooLarge => Rejected(413)
    case Broken => Rejected(400)
    case Panics => Aborted
  }

  /** The answer to a part that is not acceptable where it stands. */
  function Refusal(p: Part): Response {
    if IsFile(p) then Reply(p, 413)
    else if IsField(p) || p.end.Eof? then Reply(p, 400)
    else Ended(p.end)
  }

  function StatusOf(t: Trouble): nat {
    match t
    case HomeTrouble => 500
    case FolderInvalid => 500
    case FolderExhausted => 500
    case FolderTrouble => 500
    case InvalidPath => 400
    case PathBlocked => 400
    case PathTrouble => 400
    case StoreTrouble(TooLarge) => 413
    case StoreTrouble(QuotaExceeded) => 507
    case StoreTrouble(_) => 500
  }

  /** Reading stopped at part stop, for this trouble or for what the parts are; this is the answer. */
  ghost predicate Answers(limit: nat, parts: seq<Part>, tail: End, stop: nat, why: Option<Trouble>,
                          response: Response) {
    && stop <= |parts| && InOrder(limit, parts, stop)
    && if why == Some(HomeTrouble) then stop == 0 && response == Rejected(500)
       else if why.Some? then
         && stop < |parts| && IsFile(parts[stop]) && PartOk(limit, parts, stop)
         && response == Reply(parts[stop], StatusOf(why.value))
       else if stop < |parts| then !PartOk(limit, parts, stop) && response == Refusal(parts[stop])
       else if !tail.Eof? then response == Ended(tail)
       else if Jobs(parts) == [] then response == Rejected(400)
       else response.Created?
  }

  /** The request is answered with 201 exactly when it is acceptable and nothing went wrong. */
  lemma CreatedExactlyWhen(limit: nat, parts: seq<Part>, tail: End, stop: nat, why: Option<Trouble>, response: Response)
    requires Answers(limit, parts, tail, stop, why, response)
    ensures response.Created? <==> why.None? && Acceptable(limit, parts, tail)
    ensures why.None? ==> stop == |parts| || !InOrder(limit, parts, stop + 1)
  {
    if why.None? && stop < |parts| {
      assert !PartOk(limit, parts, stop);
    }
  }

  /** When nothing goes wrong the answer is a matter of the request alone, up to the names chosen. */
  lemma AnswerIsDetermined(limit: nat, parts: seq<Part>, tail: End, m: nat, r: Response, n: nat, q: Response)
    requires Answers(limit, parts, tail, m, None, r) && Answers(limit, parts, tail, n, None, q)
    ensures m == n && r.Created? == q.Created? && (!r.Created? ==> r == q)
  {
  }

  /** Counting files part by part is counting them all. */
  lemma {:induction false} FileLimit(limit: nat, parts: seq<Part>)
    requires limit > 0
    ensures (forall i :: 0 <= i < |parts| && IsFile(parts[i]) ==> |Jobs(parts[..i])| < limit)
            <==> |Jobs(parts)| <= limit
  {
    FileLimitAt(limit, parts, |parts|);
    assert parts[..|parts|] == parts;
  }

  lemma {:induction false} FileLimitAt(limit: nat, parts: seq<Part>, n: nat)
    requires limit > 0 && n <= |parts|
    ensures (forall i :: 0 <= i < n && IsFile(parts[i]) ==> |Jobs(parts[..i])| < limit) <==> |Jobs(parts[..n])| <= limit
    decreases n
  {
    if n > 0 {
      FileLimitAt(limit, parts, n - 1);
      assert parts[..n][..n - 1] == parts[..n - 1];
    }
  }

  /** The variables of the loop tell what was read: a folder name is set if a root was sent, a file
      was stored if a file was sent, and a path waits only below a root. */
  lemma {:induction false} WhatWasRead(limit: nat, parts: seq<Part>, n: nat)
    requires n <= |parts| && InOrder(limit, parts, n)
    ensures Root(parts[..n]) != "" <==> exists j :: 0 <= j < n && IsRoot(parts[j])
    ensures Jobs(parts[..n]) != [] <==> exists j :: 0 <= j < n && IsFile(parts[j])
    ensures Root(parts[..n]) == "" ==> Relative(parts[..n]) == ""
    decreases n
  {
    if n > 0 {
      WhatWasRead(limit, parts, n - 1);
      assert parts[..n][..n - 1] == parts[..n - 1];
      assert PartOk(limit, parts, n - 1);
    }
  }

  /** A path field waits until a file or another path comes. */
  lemma {:induction false} PathWaits(parts: seq<Part>, i: nat, n: nat)
    requires i < n <= |parts| && IsPath(parts[i]) && forall j :: i < j < n ==> !IsPath(parts[j]) && !IsFile(parts[j])
    ensures Relative(parts[..n]) == parts[i].body
    decreases n
  {
    ReadOne(parts, n - 1);
    if i < n - 1 {
      PathWaits(parts, i, n - 1);
    }
  }

  /** After a file, or from the start, no path waits until the next path field comes. */
  lemma {:induction false} NoPathWaits(parts: seq<Part>, i: nat, n: nat)
    requires i <= n <= |parts| && (i > 0 ==> IsFile(parts[i - 1])) && forall j :: i <= j < n ==> !IsPath(parts[j])
    ensures Relative(parts[..n]) == ""
    decreases n
  {
    if i < n {
      ReadOne(parts, n - 1);
      NoPathWaits(parts, i, n - 1);
    } else if n > 0 {
      ReadOne(parts, n - 1);
    } else {
      assert parts[..n] == [];
    }
  }

  /** One more part. */
  lemma ReadOne(parts: seq<Part>, n: nat)
    requires n < |parts|
    ensures Root(parts[..n + 1]) == if IsRoot(parts[n]) then SafeFilename(parts[n].body) else Root(parts[..n])
    ensures Relative(parts[..n + 1])
            == if IsPath(parts[n]) then parts[n].body else if IsFile(parts[n]) then "" else Relative(parts[..n])
    ensures Jobs(parts[..n + 1])
            == if IsFile(parts[n]) then Jobs(parts[..n]) + [Job(Relative(parts[..n]), parts[n])] else Jobs(parts[..n])
  {
    assert parts[..n + 1][..n] == parts[..n];
  }

  /** What was stored first is what comes first among the files. */
  lemma {:induction false} JobsPrefix(parts: seq<Part>, n: nat)
    requires n <= |parts|
    ensures Jobs(parts[..n]) <= Jobs(parts)
    decreases |parts| - n
  {
    if n < |parts| {
      ReadOne(parts, n);
      JobsPrefix(parts, n + 1);
    } else {
      assert parts[..n] == parts;
    }
  }
}
