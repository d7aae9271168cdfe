/** Why an upload was turned away: what can be pointed at in the run for every refusal that is not
    the request's own fault. */
module Causes {
  import opened Sums
  import opened Limits
  import opened Naming
  import opened Protocol
  import opened Conservation
  import opened Runs

  /** A stretch of a run: what had happened when it began, and what had happened when it ended. */
  datatype Span = Span(start: State, from: seq<Act>, to: seq<Act>)

  /** A moment of the stretch. */
  ghost predicate During(c: Config, h: Span, run: seq<Act>) {
    h.from <= run <= h.to && Exec(c, h.start, run).Some?
  }

  ghost predicate Within(g: Span, h: Span) {
    g.start == h.start && h.from <= g.from && g.to <= h.to
  }

  // ---- refused by a quota -----------------------------------------------------------------------

  /** With this much for w, over what it holds already, its identity would be above the limit. */
  ghost predicate FullFor(c: Config, s: State, w: Id, m: Measure, demand: nat) {
    && w in s.workers && !s.workers[w].phase.Done? && Cap(c, m) > 0 && demand > 0
    && var wk := s.workers[w];
       Get(Book(s.books, m), Protocol.Key(c, wk)) - Held(m, wk.phase) + demand > Cap(c, m)
  }

  ghost predicate RefusedAfter(c: Config, start: State, run: seq<Act>, w: Id, m: Measure, demand: nat) {
    Exec(c, start, run).Some? && FullFor(c, Exec(c, start, run).value, w, m, demand)
  }

  /** There was a moment at which the limit left no room for that. */
  ghost predicate Refused(c: Config, h: Span, w: Id, m: Measure, demand: nat) {
    exists run :: h.from <= run <= h.to && RefusedAfter(c, h.start, run, w, m, demand)
  }

  lemma {:induction false} RefusedHere(c: Config, h: Span, run: seq<Act>, s: State, w: Id, m: Measure, demand: nat)
    requires h.from <= run <= h.to && Exec(c, h.start, run) == Some(s) && FullFor(c, s, w, m, demand)
    ensures Refused(c, h, w, m, demand)
  {
    assert RefusedAfter(c, h.start, run, w, m, demand);
  }

  lemma RefusedWithin(c: Config, g: Span, h: Span, w: Id, m: Measure, demand: nat)
    requires Within(g, h) && Refused(c, g, w, m, demand)
    ensures Refused(c, h, w, m, demand)
  {
    var run :| g.from <= run <= g.to && RefusedAfter(c, g.start, run, w, m, demand);
    assert h.from <= run <= h.to;
  }

  /** A disabled quota refuses nothing, and nothing is never refused. */
  lemma DisabledRefusesNothing(c: Config, h: Span, w: Id, m: Measure, demand: nat)
    requires Cap(c, m) == 0 || demand == 0
    ensures !Refused(c, h, w, m, demand)
  {
  }

  // ---- let in by a quota ------------------------------------------------------------------------

  ghost predicate FitsNow(c: Config, s: State, w: Id, m: Measure, demand: nat) {
    && w in s.workers && Held(m, s.workers[w].phase) == demand
    && Get(Book(s.books, m), Protocol.Key(c, s.workers[w])) <= Cap(c, m)
  }

  ghost predicate FittedAfter(c: Config, start: State, run: seq<Act>, w: Id, m: Measure, demand: nat) {
    Exec(c, start, run).Some? && FitsNow(c, Exec(c, start, run).value, w, m, demand)
  }

  /** There was a moment at which w held this much and its identity was within the limit. */
  ghost predicate Fitted(c: Config, h: Span, w: Id, m: Measure, demand: nat) {
    Cap(c, m) > 0 && demand > 0 ==> exists run :: h.from <= run <= h.to && FittedAfter(c, h.start, run, w, m, demand)
  }

  lemma {:induction false} FittedHere(c: Config, h: Span, run: seq<Act>, s: State, w: Id, m: Measure, demand: nat)
    requires h.from <= run <= h.to && Exec(c, h.start, run) == Some(s)
    requires Cap(c, m) > 0 ==> FitsNow(c, s, w, m, demand)
    ensures Fitted(c, h, w, m, demand)
  {
    if Cap(c, m) > 0 {
      assert FittedAfter(c, h.start, run, w, m, demand);
    }
  }

  lemma FittedWithin(c: Config, g: Span, h: Span, w: Id, m: Measure, demand: nat)
    requires Within(g, h) && Fitted(c, g, w, m, demand)
    ensures Fitted(c, h, w, m, demand)
  {
    if Cap(c, m) > 0 && demand > 0 {
      var run :| g.from <= run <= g.to && FittedAfter(c, g.start, run, w, m, demand);
      assert h.from <= run <= h.to;
    }
  }

  // ---- a call that failed -----------------------------------------------------------------------

  predicate IoFailure(e: Event) {
    e.TempFails? || e.DirFails? || e.CallFails? || (e.Write? && !e.ok)
  }

  /** One of w's calls to the file system failed. */
  ghost predicate IoFailed(h: Span, w: Id) {
    exists i :: |h.from| <= i < |h.to| && h.to[i].who == w && IoFailure(h.to[i].e)
  }

  lemma IoFailedWithin(g: Span, h: Span, w: Id)
    requires Within(g, h) && IoFailed(g, w)
    ensures IoFailed(h, w)
  {
    var i :| |g.from| <= i < |g.to| && g.to[i].who == w && IoFailure(g.to[i].e);
    assert h.to[i] == g.to[i];
  }

  lemma LastFailed(h: Span, w: Id, e: Event, before: seq<Act>)
    requires h.from <= before && h.to == before + [Act(w, e)] && IoFailure(e)
    ensures IoFailed(h, w)
  {
    assert h.to[|before|] == Act(w, e);
  }

  // ---- a name in use ----------------------------------------------------------------------------

  ghost predicate InUseAfter(c: Config, start: State, run: seq<Act>, p: Path) {
    && |p| > 0 && Exec(c, start, run).Some?
    && (Exec(c, start, run).value.disk.Exists(p) || !Plain(p[|p| - 1]))
  }

  /** There was a moment at which the name could not be had. */
  ghost predicate Seen(c: Config, h: Span, p: Path) {
    exists run :: h.from <= run <= h.to && InUseAfter(c, h.start, run, p)
  }

  lemma {:induction false} SeenHere(c: Config, h: Span, run: seq<Act>, s: State, p: Path)
    requires h.from <= run <= h.to && Exec(c, h.start, run) == Some(s)
    requires |p| > 0 && (s.disk.Exists(p) || !Plain(p[|p| - 1]))
    ensures Seen(c, h, p)
  {
    assert InUseAfter(c, h.start, run, p);
  }

  lemma SeenWithin(c: Config, g: Span, h: Span, p: Path)
    requires Within(g, h) && Seen(c, g, p)
    ensures Seen(c, h, p)
  {
    var run :| g.from <= run <= g.to && InUseAfter(c, g.start, run, p);
    assert h.from <= run <= h.to;
  }

  /** Prefixes of a run are runs, and what is settled stays. */
  lemma {:induction false} Earlier(c: Config, start: State, run: seq<Act>, later: seq<Act>)
    requires Starts(c, start) && run <= later && Exec(c, start, later).Some?
    ensures Exec(c, start, run).Some? && Keeps(Exec(c, start, run).value.disk, Exec(c, start, later).value.disk)
    decreases |later|
  {
    if |later| > |run| {
      var (before, last) := (later[..|later| - 1], later[|later| - 1]);
      var mid := Exec(c, start, before).value;
      Earlier(c, start, run, before);
      Reached(c, start, before, mid);
      KeepsStep(c, mid, last.who, last.e, Exec(c, start, later).value);
    } else {
      assert run == later;
    }
  }

  /** A name that could not be had is taken for good, or was a temporary file's. */
  lemma {:induction false} SeenIsTaken(c: Config, h: Span, p: Path)
    requires Starts(c, h.start) && Exec(c, h.start, h.to).Some? && Seen(c, h, p)
    ensures Taken(Exec(c, h.start, h.to).value.disk, p)
  {
    var run :| h.from <= run <= h.to && InUseAfter(c, h.start, run, p);
    var s := Exec(c, h.start, run).value;
    Reached(c, h.start, run, s);
    if s.disk.Exists(p) {
      ExistsIsTaken(c, s, p);
    }
    Earlier(c, h.start, run, h.to);
    TakenStays(s.disk, Exec(c, h.start, h.to).value.disk, p);
  }

  // ---- let in last --------------------------------------------------------------------------------

  ghost predicate SameFiles(c: Config, start: State, run: seq<Act>, later: seq<Act>, w: Id) {
    && Exec(c, start, run).Some? && Exec(c, start, later).Some?
    && SettledBy(Exec(c, start, later).value.disk, w) == SettledBy(Exec(c, start, run).value.disk, w)
  }

  ghost predicate LetInAfter(c: Config, h: Span, run: seq<Act>, w: Id, m: Measure, demand: nat) {
    FittedAfter(c, h.start, run, w, m, demand) && SameFiles(c, h.start, run, h.to, w)
  }

  /** There was such a moment after w's last file was published. */
  ghost predicate LetIn(c: Config, h: Span, w: Id, m: Measure, demand: nat) {
    Cap(c, m) > 0 && demand > 0 ==> exists run :: h.from <= run <= h.to && LetInAfter(c, h, run, w, m, demand)
  }

  /** While nothing of w's is published, every moment is one after its last file. */
  lemma {:induction false} LetInSince(c: Config, g: Span, h: Span, w: Id, m: Measure, demand: nat)
    requires Starts(c, g.start) && Within(g, h) && g.to == h.to && g.from <= g.to
    requires SameFiles(c, g.start, g.from, g.to, w) && Fitted(c, g, w, m, demand)
    ensures LetIn(c, h, w, m, demand)
  {
    if Cap(c, m) > 0 && demand > 0 {
      var run :| g.from <= run <= g.to && FittedAfter(c, g.start, run, w, m, demand);
      Earlier(c, g.start, g.from, run);
      Earlier(c, g.start, run, g.to);
      assert LetInAfter(c, h, run, w, m, demand);
    }
  }

  lemma {:induction false} LetInWithin(c: Config, g: Span, h: Span, w: Id, m: Measure, demand: nat)
    requires Within(g, h) && LetIn(c, g, w, m, demand) && SameFiles(c, g.start, g.to, h.to, w)
    ensures LetIn(c, h, w, m, demand)
  {
    if Cap(c, m) > 0 && demand > 0 {
      var run :| g.from <= run <= g.to && LetInAfter(c, g, run, w, m, demand);
      assert LetInAfter(c, h, run, w, m, demand);
    }
  }
}
