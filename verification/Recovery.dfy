/** Crashes, restarts and folders. */
module Recovery {
  import opened Sums
  import opened Limits
  import opened Protocol
  import opened Conservation
  import opened Safety
  import opened Guarantees
  import opened Capacity

  ghost predicate Quiescent(ws: map<Id, Worker>) {
    forall w :: w in ws ==> ws[w].phase.Ready? || ws[w].phase.Done?
  }

  /** With no upload in flight, rebuilding the ledgers from the disk gives what they already show. */
  lemma QuiescentRebuild(c: Config, s: State, m: Measure, k: Key)
    requires Inv(c, s) && Quiescent(s.workers) && Cap(c, m) > 0
    ensures Usage(c, s.disk, m, k) == Get(Book(s.books, m), k)
  {
    WalkCounts(c, s, m, k);
    NothingInFlight(c, s.workers, m, k);
    BalancedAt(c, s, m, k);
  }

  lemma NothingInFlight(c: Config, ws: map<Id, Worker>, m: Measure, k: Key)
    requires Quiescent(ws)
    ensures HeldTotal(c, ws, m, k) == 0 && TempTotal(c, ws, m, k, AllTemps) == 0
  {
    SumConstant(ws.Keys, HeldWeight(c, ws, m, k), 0);
    SumConstant(ws.Keys, TempWeight(c, ws, m, k, AllTemps), 0);
  }

  lemma GroupsSplit(c: Config, ws: map<Id, Worker>, m: Measure, k: Key)
    ensures TempTotal(c, ws, m, k, AllTemps) == TempTotal(c, ws, m, k, Unpublished) + TempTotal(c, ws, m, k, Twice)
  {
    SumAdd(ws.Keys, TempWeight(c, ws, m, k, Unpublished), TempWeight(c, ws, m, k, Twice),
           TempWeight(c, ws, m, k, AllTemps));
  }

  /** After a crash at any point of any run, the rebuilt ledgers count what is published in full, and
      exceed what is really on disk by exactly the uploads caught between link and removal, now and
      in the crashes before. */
  lemma {:induction false} CrashRebuild(c: Config, s: State, run: seq<Act>, t: State, m: Measure, k: Key)
    requires Starts(c, s) && Exec(c, s, run) == Some(t)
    ensures Usage(c, t.disk, m, k) >= SettledTotal(c, t.disk, m, k)
    ensures Usage(c, t.disk, m, k)
            == Occupied(c, t.disk, m, k) + TempTotal(c, t.workers, m, k, Twice) + Surplus(c, s.disk, m, k)
    ensures Surplus(c, t.disk, m, k) == Surplus(c, s.disk, m, k) + TempTotal(c, t.workers, m, k, Twice)
  {
    InvAtStart(c, s);
    InvRun(c, s, run, t);
    WalkCounts(c, t, m, k);
    FoundStays(c, s, run, t);
    FoundAndPublished(c, s.disk, t.disk, m, k);
    UsageAtStart(c, s, m, k);
    OccupiedExactly(c, s, run, t, m, k);
    GroupsSplit(c, t.workers, m, k);
  }

  /** What a restarted server finds: every name on disk is settled, and nobody owns anything. */
  function Reborn(d: Disk): Disk
    requires forall p :: p in d.names ==> d.names[p] in d.inodes
  {
    var settled := map p | p in d.names :: Settled(d.names[p], d.inodes[d.names[p]].data, None);
    Disk(d.names, d.inodes, d.dirs, settled, map[], map[])
  }

  /** A server restarted after a crash in any reachable state is in a state every theorem starts
      from, and keeps every published file. */
  lemma RestartStarts(c: Config, s: State, rebuilt: Books)
    requires Inv(c, s)
    requires rebuilt.slots == Slots(map[], 0)
    requires forall m, k :: Get(Book(rebuilt, m), k) == Usage(c, s.disk, m, k)
    ensures Starts(c, State(rebuilt, Reborn(s.disk), map[]))
    ensures forall p :: p in s.disk.settled ==>
              p in Reborn(s.disk).settled && Reborn(s.disk).settled[p] == s.disk.settled[p].(who := None)
  {
    forall m, k
      ensures Usage(c, Reborn(s.disk), m, k) == Usage(c, s.disk, m, k)
    {
      SumAgree(s.disk.names.Keys, NameWeight(c, s.disk, m, k), NameWeight(c, Reborn(s.disk), m, k));
    }
    assert TreeShaped(Reborn(s.disk));
  }

  /** Every name inside a folder that a request made was put there by that request, in its own
      folder; two requests never share one, and a request without a folder never writes in one. */
  lemma {:induction false} FoldersArePrivate(c: Config, s: State, run: seq<Act>, t: State, p: Path)
    requires Starts(c, s) && Exec(c, s, run) == Some(t)
    requires p in t.disk.settled && |p| > 2 && p[..2] in t.disk.owner
    ensures var w := t.disk.owner[p[..2]];
            && t.disk.settled[p].who == Some(w) && w in t.workers && t.workers[w].folder == Some(p[1])
            && forall v :: v in t.workers && t.workers[v].folder.Some? && Base(c, t.workers[v]) == p[..2] ==> v == w
  {
    InvAtStart(c, s);
    InvRun(c, s, run, t);
    var w := t.disk.owner[p[..2]];
    assert Base(c, t.workers[w]) == p[..2];
    assert Base(c, t.workers[w])[1] == p[1];
  }
}
