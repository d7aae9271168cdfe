/** Both quota ledgers are exact in every reachable state: what they hold for an identity is what
    is settled in its directories plus what its uploads in flight have taken. */
module Conservation {
  import opened Sums
  import opened Limits
  import opened Naming
  import opened Protocol
  import opened DiskInvariant

  /** What a worker has taken from the ledger of its identity and not yet turned into a settled file. */
  function Held(m: Measure, phase: Phase): nat {
    match phase
    case Ready => 0
    case Done => 0
    case Reserved(_) => if m.ByFiles? then 1 else 0
    case Cleared(_) => if m.ByFiles? then 1 else 0
    case Busy(t, stage) =>
      if stage.Linked? then 0
      else if m.ByFiles? then 1
      else if stage.Uncharged? then 0 else t.reserved + Pending(stage)
  }

  ghost function HeldWeight(c: Config, ws: map<Id, Worker>, m: Measure, k: Key): Id -> int {
    w => if w in ws && Protocol.Key(c, ws[w]) == k then Held(m, ws[w].phase) else 0
  }

  ghost function HeldTotal(c: Config, ws: map<Id, Worker>, m: Measure, k: Key): int {
    Sum(ws.Keys, HeldWeight(c, ws, m, k))
  }

  ghost function SettledWeight(c: Config, d: Disk, m: Measure, k: Key): Path -> int {
    p => if p in d.settled && KeyAt(c, p) == Some(k) then Weigh(m, |d.settled[p].data|) else 0
  }

  ghost function SettledTotal(c: Config, d: Disk, m: Measure, k: Key): int {
    Sum(d.settled.Keys, SettledWeight(c, d, m, k))
  }

  ghost predicate Balanced(c: Config, s: State)
  {
    forall m: Measure, k: Key :: Cap(c, m) > 0 ==>
      Get(Book(s.books, m), k) == SettledTotal(c, s.disk, m, k) + HeldTotal(c, s.workers, m, k)
  }

  lemma BalancedAt(c: Config, s: State, m: Measure, k: Key)
    requires Balanced(c, s) && Cap(c, m) > 0
    ensures Get(Book(s.books, m), k) == SettledTotal(c, s.disk, m, k) + HeldTotal(c, s.workers, m, k)
  {
  }

  lemma HeldChange(c: Config, ws: map<Id, Worker>, w: Id, wk: Worker, m: Measure, k: Key)
    requires w in ws && wk.user == ws[w].user
    ensures HeldTotal(c, ws[w := wk], m, k)
            == HeldTotal(c, ws, m, k)
               + if Protocol.Key(c, wk) == k then Held(m, wk.phase) - Held(m, ws[w].phase) else 0
  {
    var ws' := ws[w := wk];
    assert ws'.Keys == ws.Keys;
    SumChange(ws.Keys, w, HeldWeight(c, ws, m, k), HeldWeight(c, ws', m, k));
  }

  lemma HeldBegin(c: Config, ws: map<Id, Worker>, w: Id, wk: Worker, m: Measure, k: Key)
    requires w !in ws && wk.phase.Ready?
    ensures HeldTotal(c, ws[w := wk], m, k) == HeldTotal(c, ws, m, k)
  {
    var ws' := ws[w := wk];
    assert ws'.Keys == ws.Keys + {w};
    SumInsert(ws.Keys, w, HeldWeight(c, ws, m, k), HeldWeight(c, ws', m, k));
  }

  /** No worker holds more than the ledger of its identity shows, so no release is ever clamped. */
  lemma HeldCovered(c: Config, s: State, w: Id, m: Measure)
    requires Balanced(c, s) && w in s.workers && Cap(c, m) > 0
    ensures Held(m, s.workers[w].phase) <= Get(Book(s.books, m), Protocol.Key(c, s.workers[w]))
  {
    var k := Protocol.Key(c, s.workers[w]);
    SumMember(s.workers.Keys, w, HeldWeight(c, s.workers, m, k));
    SumNonNegative(s.disk.settled.Keys, SettledWeight(c, s.disk, m, k));
  }

  /** A ledger step changes its identity's entry by exactly what the worker then holds more or less,
      and no other identity's entry. */
  lemma LedgerMoves(c: Config, b: Books, wk: Worker, e: Event, m: Measure, k: Key)
    requires Cap(c, m) > 0 && Held(m, wk.phase) <= Get(Book(b, m), Protocol.Key(c, wk))
    requires BooksStep(c, b, wk, e).Some?
    ensures var (b', phase) := BooksStep(c, b, wk, e).value;
            Get(Book(b', m), k) == Get(Book(b, m), k)
                                   + if Protocol.Key(c, wk) == k then Held(m, phase) - Held(m, wk.phase) else 0
  {
  }

  lemma BalancedOnBooks(c: Config, s: State, w: Id, e: Event, s': State)
    requires Balanced(c, s) && w in s.workers && !e.Begin? && OnBooks(e) && Apply(c, s, w, e) == Some(s')
    ensures Balanced(c, s')
  {
    forall m: Measure, k | Cap(c, m) > 0
      ensures Get(Book(s'.books, m), k) == SettledTotal(c, s'.disk, m, k) + HeldTotal(c, s'.workers, m, k)
    {
      HeldCovered(c, s, w, m);
      LedgerMoves(c, s.books, s.workers[w], e, m, k);
      HeldChange(c, s.workers, w, s'.workers[w], m, k);
    }
  }

  /** The one kind of step that settles a name. */
  predicate Publishes(d: Disk, wk: Worker, e: Event) {
    && wk.phase.Busy? && wk.phase.stage.Publishing? && e.Link?
    && Plain(e.name) && !d.Exists(wk.phase.t.dir + [e.name])
  }

  /** A disk step that publishes nothing leaves what the worker holds, and what is settled, alone. */
  lemma HeldOnDisk(c: Config, d: Disk, w: Id, wk: Worker, e: Event, m: Measure)
    requires DiskStep(c, d, w, wk, e).Some? && !Publishes(d, wk, e)
    ensures var (d', wk') := DiskStep(c, d, w, wk, e).value;
            wk'.user == wk.user && d'.settled == d.settled && Held(m, wk'.phase) == Held(m, wk.phase)
  {
  }

  /** Publishing turns what the worker holds into settled weight of the same identity. */
  lemma PublishMoves(c: Config, d: Disk, w: Id, wk: Worker, e: Event, m: Measure, k: Key)
    requires c.Valid() && TablesSound(d) && WorkerSound(c, wk) && Publishes(d, wk, e)
    ensures DiskStep(c, d, w, wk, e).Some?
    ensures var (d', wk') := DiskStep(c, d, w, wk, e).value;
            && wk'.user == wk.user && Held(m, wk'.phase) == 0
            && SettledTotal(c, d', m, k) == SettledTotal(c, d, m, k)
                                            + if Protocol.Key(c, wk) == k then Held(m, wk.phase) else 0
  {
    var (d', wk') := DiskStep(c, d, w, wk, e).value;
    var t := wk.phase.t;
    var p := t.dir + [e.name];
    assert p[0] == Base(c, wk)[0] == c.home(wk.user);
    assert d'.settled.Keys == d.settled.Keys + {p};
    SumInsert(d.settled.Keys, p, SettledWeight(c, d, m, k), SettledWeight(c, d', m, k));
  }

  lemma BalancedOnDisk(c: Config, s: State, w: Id, e: Event, s': State)
    requires c.Valid() && TablesSound(s.disk) && w in s.workers && WorkerSound(c, s.workers[w])
    requires Balanced(c, s) && !e.Begin? && !OnBooks(e) && Apply(c, s, w, e) == Some(s')
    ensures Balanced(c, s')
  {
    forall m: Measure, k | Cap(c, m) > 0
      ensures Get(Book(s'.books, m), k) == SettledTotal(c, s'.disk, m, k) + HeldTotal(c, s'.workers, m, k)
    {
      if Publishes(s.disk, s.workers[w], e) {
        PublishMoves(c, s.disk, w, s.workers[w], e, m, k);
      } else {
        HeldOnDisk(c, s.disk, w, s.workers[w], e, m);
        SumAgree(s.disk.settled.Keys, SettledWeight(c, s.disk, m, k), SettledWeight(c, s'.disk, m, k));
      }
      HeldChange(c, s.workers, w, s'.workers[w], m, k);
    }
  }

  lemma BalancedStep(c: Config, s: State, w: Id, e: Event, s': State)
    requires c.Valid() && Balanced(c, s) && DiskSound(s.disk, s.workers)
    requires w in s.workers ==> WorkerSound(c, s.workers[w])
    requires Apply(c, s, w, e) == Some(s')
    ensures Balanced(c, s')
  {
    if e.Begin? {
      forall m: Measure, k | Cap(c, m) > 0
        ensures Get(Book(s'.books, m), k) == SettledTotal(c, s'.disk, m, k) + HeldTotal(c, s'.workers, m, k)
      {
        HeldBegin(c, s.workers, w, s'.workers[w], m, k);
      }
    } else if OnBooks(e) {
      BalancedOnBooks(c, s, w, e, s');
    } else {
      BalancedOnDisk(c, s, w, e, s');
    }
  }

  lemma BalancedAtStart(c: Config, s: State)
    requires Starts(c, s)
    ensures Balanced(c, s)
  {
    var d := s.disk;
    forall m: Measure, k | Cap(c, m) > 0
      ensures Get(Book(s.books, m), k) == SettledTotal(c, d, m, k) + HeldTotal(c, s.workers, m, k)
    {
      SumAgree(d.names.Keys, NameWeight(c, d, m, k), SettledWeight(c, d, m, k));
      assert Get(Book(s.books, m), k) == Usage(c, d, m, k);
    }
  }
}
