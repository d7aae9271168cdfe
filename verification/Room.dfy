/** When a quota turns a request away: what the ledger of its identity shows besides what the request
    itself has charged and published decides it (internal/dumpbox/limits.go:99-138). */
module Room {
  import opened Sums
  import opened Limits
  import opened Protocol
  import opened DiskInvariant
  import opened Conservation
  import opened SlotsInvariant
  import opened Safety
  import opened Guarantees
  import opened Capacity
  import opened Runs
  import opened Causes

  ghost function DataWeight(d: Disk, m: Measure): Path -> int {
    p => if p in d.settled then Weigh(m, |d.settled[p].data|) else 0
  }

  /** What w has published. */
  ghost function Own(d: Disk, w: Id, m: Measure): int {
    Sum(SettledBy(d, w), DataWeight(d, m))
  }

  /** What the ledger of w's identity shows besides what w has charged and published. */
  ghost function Rest(c: Config, s: State, w: Id, m: Measure): int
    requires w in s.workers
  {
    Get(Book(s.books, m), Protocol.Key(c, s.workers[w])) - Held(m, s.workers[w].phase) - Own(s.disk, w, m)
  }

  // ---- what a request has published only grows --------------------------------------------------

  lemma OwnGrows(d: Disk, d': Disk, w: Id, m: Measure)
    requires Keeps(d, d')
    ensures Own(d, w, m) <= Own(d', w, m)
  {
    var (before, after) := (SettledBy(d, w), SettledBy(d', w));
    assert after == before + (after - before);
    SumUnion(before, after - before, DataWeight(d', m));
    SumNonNegative(after - before, DataWeight(d', m));
    SumAgree(before, DataWeight(d, m), DataWeight(d', m));
  }

  lemma OwnStands(d: Disk, d': Disk, w: Id, m: Measure)
    requires SettledBy(d', w) == SettledBy(d, w) && Keeps(d, d')
    ensures Own(d', w, m) == Own(d, w, m)
  {
    SumAgree(SettledBy(d, w), DataWeight(d, m), DataWeight(d', m));
  }

  // ---- and the rest is nobody's but the others' -------------------------------------------------

  lemma RestOnBooks(c: Config, s: State, v: Id, e: Event, s': State, w: Id, m: Measure)
    requires Balanced(c, s) && Cap(c, m) > 0 && v in s.workers && w in s.workers
    requires OnBooks(e) && !e.Begin? && Apply(c, s, v, e) == Some(s')
    requires v == w || Protocol.Key(c, s.workers[v]) != Protocol.Key(c, s.workers[w])
    ensures w in s'.workers && Rest(c, s', w, m) == Rest(c, s, w, m)
  {
    HeldCovered(c, s, v, m);
    LedgerMoves(c, s.books, s.workers[v], e, m, Protocol.Key(c, s.workers[w]));
  }

  lemma OwnPublishes(c: Config, d: Disk, w: Id, wk: Worker, e: Event, m: Measure, d': Disk)
    requires TablesSound(d) && WorkerSound(c, wk) && Publishes(d, wk, e)
    requires var p := wk.phase.t.dir + [e.name];
             d'.settled == d.settled[p := Settled(wk.phase.t.ino, wk.phase.t.part, Some(w))]
    ensures Own(d', w, m) == Own(d, w, m) + Held(m, wk.phase)
  {
    var p := wk.phase.t.dir + [e.name];
    assert SettledBy(d', w) == SettledBy(d, w) + {p};
    SumInsert(SettledBy(d, w), p, DataWeight(d, m), DataWeight(d', m));
  }

  lemma RestOnDisk(c: Config, s: State, v: Id, e: Event, s': State, w: Id, m: Measure)
    requires TablesSound(s.disk) && v in s.workers && w in s.workers && WorkerSound(c, s.workers[v])
    requires !OnBooks(e) && !e.Begin? && Apply(c, s, v, e) == Some(s')
    ensures w in s'.workers && Rest(c, s', w, m) == Rest(c, s, w, m)
  {
    KeepsStep(c, s, v, e, s');
    if Publishes(s.disk, s.workers[v], e) {
      if v == w {
        OwnPublishes(c, s.disk, w, s.workers[w], e, m, s'.disk);
      } else {
        OwnStands(s.disk, s'.disk, w, m);
      }
    } else {
      HeldOnDisk(c, s.disk, v, s.workers[v], e, m);
      assert SettledBy(s'.disk, w) == SettledBy(s.disk, w);
      OwnStands(s.disk, s'.disk, w, m);
    }
  }

  /** No step but another request's of the same identity moves it. */
  lemma RestStep(c: Config, s: State, v: Id, e: Event, s': State, w: Id, m: Measure)
    requires Inv(c, s) && Cap(c, m) > 0 && w in s.workers && Apply(c, s, v, e) == Some(s')
    requires v == w || (v in s.workers ==> Protocol.Key(c, s.workers[v]) != Protocol.Key(c, s.workers[w]))
    ensures w in s'.workers && Rest(c, s', w, m) == Rest(c, s, w, m)
  {
    if e.Begin? {
      OneWorkerMoves(c, s, v, e, s');
    } else if OnBooks(e) {
      RestOnBooks(c, s, v, e, s', w, m);
    } else {
      RestOnDisk(c, s, v, e, s', w, m);
    }
  }

  // ---- nobody else of the same identity at work ---------------------------------------------------

  ghost predicate AtWork(s: State, w: Id) { w in s.workers && !s.workers[w].phase.Done? }

  ghost predicate AloneAt(c: Config, s: State, w: Id) {
    AtWork(s, w) ==>
      forall v :: v in s.workers && v != w && Protocol.Key(c, s.workers[v]) == Protocol.Key(c, s.workers[w]) ==>
        !AtWork(s, v)
  }

  ghost predicate AloneAfter(c: Config, start: State, run: seq<Act>, w: Id) {
    Exec(c, start, run).Some? ==> AloneAt(c, Exec(c, start, run).value, w)
  }

  /** While w is at work, no other request of its identity is. */
  ghost predicate Alone(c: Config, h: Span, w: Id) {
    forall run :: h.from <= run <= h.to ==> AloneAfter(c, h.start, run, w)
  }

  /** With one upload at a time for each subject, and a key for each subject, every request is alone. */
  lemma {:induction false} OneAtATime(c: Config, h: Span, w: Id, user: User)
    requires Starts(c, h.start) && c.perUser == 1 && OneSubject(c, c.key(user.subject), user.subject)
    requires h.from <= h.to && Exec(c, h.start, h.to).Some?
    requires w in Exec(c, h.start, h.to).value.workers && Exec(c, h.start, h.to).value.workers[w].user == user
    ensures Alone(c, h, w)
  {
    forall run | h.from <= run <= h.to
      ensures AloneAfter(c, h.start, run, w)
    {
      Earlier(c, h.start, run, h.to);
      var s := Exec(c, h.start, run).value;
      Reached(c, h.start, run, s);
      if AtWork(s, w) {
        SameUser(c, h.start, run, s, h.to, Exec(c, h.start, h.to).value, w);
        OnlyOneOpen(c, s, w);
      }
    }
  }

  lemma OnlyOneOpen(c: Config, s: State, w: Id)
    requires SlotsSound(c, s.books.slots, s.workers) && c.perUser == 1 && AtWork(s, w)
    requires OneSubject(c, Protocol.Key(c, s.workers[w]), s.workers[w].user.subject)
    ensures AloneAt(c, s, w)
  {
    var subject := s.workers[w].user.subject;
    var open := OpenOf(s.workers, subject);
    assert Get(s.books.slots.active, subject) == |open| <= 1;
    assert w in open;
    forall v | v in s.workers && v != w && Protocol.Key(c, s.workers[v]) == Protocol.Key(c, s.workers[w])
      ensures !AtWork(s, v)
    {
      if AtWork(s, v) {
        assert v in open;
        assert {v, w} <= open;
        SubsetCount({v, w}, open);
      }
    }
  }

  lemma {:induction false} SubsetCount<T>(a: set<T>, b: set<T>)
    requires a <= b
    ensures |a| <= |b|
  {
    assert b == a + (b - a);
  }

  /** Nobody changes whose request it is. */
  lemma {:induction false} SameUser(c: Config, start: State, run: seq<Act>, s: State, later: seq<Act>, t: State, w: Id)
    requires run <= later && Exec(c, start, run) == Some(s) && Exec(c, start, later) == Some(t) && w in s.workers
    ensures w in t.workers && t.workers[w].user == s.workers[w].user
    decreases |later|
  {
    if |later| > |run| {
      var (before, last) := (later[..|later| - 1], later[|later| - 1]);
      var mid := Exec(c, start, before).value;
      SameUser(c, start, run, s, before, mid, w);
      if last.who == w {
        StaysOpen(c, mid, w, last.e, t);
      } else {
        OtherStep(c, mid, last.who, last.e, t, w);
      }
    } else {
      assert run == later;
    }
  }

  /** A request at work was at work all the time since it began. */
  lemma WasAtWork(c: Config, s: State, v: Id, e: Event, s': State, w: Id)
    requires Apply(c, s, v, e) == Some(s') && w in s.workers && AtWork(s', w)
    ensures AtWork(s, w) && s'.workers[w].user == s.workers[w].user
    ensures v in s.workers ==> AtWork(s, v)
  {
    if v in s.workers {
      StaysOpen(c, s, v, e, s');
    }
    if v != w {
      OtherStep(c, s, v, e, s', w);
    }
  }

  /** When it is alone, the rest stays what it was. */
  lemma {:induction false} RestStays(c: Config, h: Span, s1: State, run: seq<Act>, s: State, w: Id, m: Measure)
    requires Starts(c, h.start) && Alone(c, h, w) && Cap(c, m) > 0
    requires h.from <= run <= h.to && Exec(c, h.start, h.from) == Some(s1) && Exec(c, h.start, run) == Some(s)
    requires w in s1.workers && AtWork(s, w)
    ensures AtWork(s1, w) && s.workers[w].user == s1.workers[w].user && Rest(c, s, w, m) == Rest(c, s1, w, m)
    decreases |run|
  {
    if |run| > |h.from| {
      var (before, last) := (run[..|run| - 1], run[|run| - 1]);
      var mid := Exec(c, h.start, before).value;
      SameUser(c, h.start, h.from, s1, before, mid, w);
      WasAtWork(c, mid, last.who, last.e, s, w);
      RestStays(c, h, s1, before, mid, w, m);
      Reached(c, h.start, before, mid);
      assert AloneAfter(c, h.start, before, w);
      RestStep(c, mid, last.who, last.e, s, w, m);
    } else {
      assert run == h.from;
    }
  }

  // ---- room ---------------------------------------------------------------------------------------

  ghost predicate RoomAt(c: Config, s: State, w: Id, m: Measure, need: nat) {
    AtWork(s, w) && Cap(c, m) > 0 ==> Rest(c, s, w, m) + need <= Cap(c, m)
  }

  ghost predicate RoomAfter(c: Config, start: State, run: seq<Act>, w: Id, m: Measure, need: nat) {
    Exec(c, start, run).Some? ==> RoomAt(c, Exec(c, start, run).value, w, m, need)
  }

  /** All the time that w is at work, this much fits beside what is not w's. */
  ghost predicate LeavesRoom(c: Config, h: Span, w: Id, m: Measure, need: nat) {
    forall run :: h.from <= run <= h.to ==> RoomAfter(c, h.start, run, w, m, need)
  }

  lemma DisabledLeavesRoom(c: Config, h: Span, w: Id, m: Measure, need: nat)
    requires Cap(c, m) == 0
    ensures LeavesRoom(c, h, w, m, need)
  {
  }

  /** With room for all it asks for, a request is never refused. */
  lemma {:induction false} RoomIsEnough(c: Config, h: Span, s: State, w: Id, m: Measure, need: nat, demand: nat)
    requires Starts(c, h.start) && Exec(c, h.start, h.to) == Some(s) && LeavesRoom(c, h, w, m, need)
    requires Own(s.disk, w, m) + demand <= need
    ensures !Refused(c, h, w, m, demand)
  {
    if Refused(c, h, w, m, demand) {
      var run :| h.from <= run <= h.to && RefusedAfter(c, h.start, run, w, m, demand);
      assert RoomAfter(c, h.start, run, w, m, need);
      var at := Exec(c, h.start, run).value;
      Earlier(c, h.start, run, h.to);
      OwnGrows(at.disk, s.disk, w, m);
    }
  }

  /** A request that is alone has room if there is room when it begins. */
  lemma {:induction false} AloneHasRoom(c: Config, h: Span, s1: State, w: Id, m: Measure, need: nat)
    requires Starts(c, h.start) && Exec(c, h.start, h.from) == Some(s1) && w in s1.workers && Alone(c, h, w)
    requires Cap(c, m) == 0 || Rest(c, s1, w, m) + need <= Cap(c, m)
    ensures LeavesRoom(c, h, w, m, need)
  {
    forall run | h.from <= run <= h.to
      ensures RoomAfter(c, h.start, run, w, m, need)
    {
      if Cap(c, m) > 0 && Exec(c, h.start, run).Some? {
        var s := Exec(c, h.start, run).value;
        if AtWork(s, w) {
          RestStays(c, h, s1, run, s, w, m);
        }
      }
    }
  }

  // ---- what got through fits ----------------------------------------------------------------------

  /** No ledger is ever lifted above its limit. */
  lemma {:induction false} BoundSince(c: Config, h: Span, s1: State, run: seq<Act>, s: State, m: Measure, k: Key)
    requires h.from <= run <= h.to && Exec(c, h.start, h.from) == Some(s1) && Exec(c, h.start, run) == Some(s)
    requires Cap(c, m) > 0
    ensures Get(Book(s.books, m), k) <= Max(Cap(c, m), Get(Book(s1.books, m), k))
    decreases |run|
  {
    if |run| > |h.from| {
      var (before, last) := (run[..|run| - 1], run[|run| - 1]);
      var mid := Exec(c, h.start, before).value;
      BoundSince(c, h, s1, before, mid, m, k);
      LedgerStep(c, mid, last.who, last.e, s, m, k, Max(Cap(c, m), Get(Book(s1.books, m), k)));
    } else {
      assert run == h.from;
    }
  }

  /** The last moment at which w was at work; it publishes nothing afterwards. */
  lemma {:induction false} LastAtWork(c: Config, h: Span, s1: State, run: seq<Act>, s: State, w: Id)
    returns (last: seq<Act>, at: State)
    requires Starts(c, h.start) && h.from <= run <= h.to
    requires Exec(c, h.start, h.from) == Some(s1) && Exec(c, h.start, run) == Some(s) && AtWork(s1, w)
    ensures h.from <= last <= run && Exec(c, h.start, last) == Some(at) && AtWork(at, w)
    ensures SettledBy(at.disk, w) == SettledBy(s.disk, w) && Keeps(at.disk, s.disk)
    decreases |run|
  {
    if AtWork(s, w) {
      last, at := run, s;
    } else {
      assert run != h.from;
      var (before, act) := (run[..|run| - 1], run[|run| - 1]);
      var mid := Exec(c, h.start, before).value;
      last, at := LastAtWork(c, h, s1, before, mid, w);
      Reached(c, h.start, before, mid);
      KeepsStep(c, mid, act.who, act.e, s);
      if act.who == w {
        SameUser(c, h.start, h.from, s1, before, mid, w);
        StaysOpen(c, mid, w, act.e, s);
      }
    }
  }

  /** What a request that is alone publishes fits the limit beside what was there when it began. */
  lemma {:induction false} PublishedFits(c: Config, h: Span, s1: State, s: State, w: Id, m: Measure)
    requires Starts(c, h.start) && Exec(c, h.start, h.from) == Some(s1) && Exec(c, h.start, h.to) == Some(s)
    requires h.from <= h.to && AtWork(s1, w) && Held(m, s1.workers[w].phase) == 0
    requires Alone(c, h, w) && Cap(c, m) > 0 && Own(s.disk, w, m) > Own(s1.disk, w, m)
    ensures Rest(c, s1, w, m) + Own(s.disk, w, m) <= Cap(c, m)
  {
    var last, at := LastAtWork(c, h, s1, h.to, s, w);
    RestStays(c, h, s1, last, at, w, m);
    OwnStands(at.disk, s.disk, w, m);
    BoundSince(c, h, s1, last, at, m, Protocol.Key(c, s1.workers[w]));
  }

  // ---- a refusal in terms of the disk -----------------------------------------------------------

  /** A refusal by a quota means what it says: at some moment what startup counted, what was published
      since, what the others held and what was asked for were together above the limit. */
  lemma {:induction false} RefusedMeansFull(c: Config, h: Span, w: Id, m: Measure,
                                            demand: nat) returns (run: seq<Act>, s: State)
    requires Starts(c, h.start) && Refused(c, h, w, m, demand)
    ensures h.from <= run <= h.to && Exec(c, h.start, run) == Some(s) && w in s.workers
    ensures var (k, held) := (Protocol.Key(c, s.workers[w]), Held(m, s.workers[w].phase));
            0 < Cap(c, m) < Usage(c, h.start.disk, m, k) + PublishedTotal(c, s.disk, m, k)
                            + HeldTotal(c, s.workers, m, k) - held + demand
  {
    run :| h.from <= run <= h.to && RefusedAfter(c, h.start, run, w, m, demand);
    s := Exec(c, h.start, run).value;
    LedgersExact(c, h.start, run, s, m, Protocol.Key(c, s.workers[w]));
  }
}
