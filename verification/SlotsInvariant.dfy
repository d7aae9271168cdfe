/** The upload slots count the requests between acquire and the deferred release, per subject and
    in all. */
module SlotsInvariant {
  import opened Sums
  import opened Limits
  import opened Protocol

  ghost function Open(ws: map<Id, Worker>): set<Id> {
    set w | w in ws && !ws[w].phase.Done?
  }

  ghost function OpenOf(ws: map<Id, Worker>, subject: Subject): set<Id> {
    set w | w in ws && !ws[w].phase.Done? && ws[w].user.subject == subject
  }

  function Entry(active: map<Subject, int>): Subject -> int {
    subject => Get(active, subject)
  }

  ghost predicate SlotsSound(c: Config, u: Slots, ws: map<Id, Worker>)
  {
    && u.inFlight == |Open(ws)| <= c.total
    && PerSubject(c, u.active, ws)
    && (forall subject :: subject in u.active ==> 1 <= u.active[subject])
    && Sum(u.active.Keys, Entry(u.active)) == u.inFlight
  }

  lemma OpenOnBegin(ws: map<Id, Worker>, w: Id, wk: Worker, ws': map<Id, Worker>)
    requires w !in ws && !wk.phase.Done? && ws' == ws[w := wk]
    ensures |Open(ws')| == |Open(ws)| + 1
  {
    assert w !in Open(ws) && Open(ws') == Open(ws) + {w};
  }

  lemma OpenOfOnBegin(ws: map<Id, Worker>, w: Id, wk: Worker, ws': map<Id, Worker>, subject: Subject)
    requires w !in ws && !wk.phase.Done? && ws' == ws[w := wk]
    ensures |OpenOf(ws', subject)| == |OpenOf(ws, subject)| + if subject == wk.user.subject then 1 else 0
  {
    if subject == wk.user.subject {
      assert w !in OpenOf(ws, subject) && OpenOf(ws', subject) == OpenOf(ws, subject) + {w};
    } else {
      assert OpenOf(ws', subject) == OpenOf(ws, subject);
    }
  }

  lemma OpenOnEnd(ws: map<Id, Worker>, w: Id, wk: Worker, ws': map<Id, Worker>)
    requires w in ws && !ws[w].phase.Done? && wk.phase.Done? && ws' == ws[w := wk]
    ensures |Open(ws')| == |Open(ws)| - 1
  {
    assert w in Open(ws) && Open(ws') == Open(ws) - {w};
  }

  lemma OpenOfOnEnd(ws: map<Id, Worker>, w: Id, wk: Worker, ws': map<Id, Worker>, subject: Subject)
    requires w in ws && !ws[w].phase.Done? && wk.phase.Done? && wk.user == ws[w].user && ws' == ws[w := wk]
    ensures |OpenOf(ws', subject)| == |OpenOf(ws, subject)| - if subject == wk.user.subject then 1 else 0
  {
    if subject == wk.user.subject {
      assert w in OpenOf(ws, subject) && OpenOf(ws', subject) == OpenOf(ws, subject) - {w};
    } else {
      assert OpenOf(ws', subject) == OpenOf(ws, subject);
    }
  }

  lemma EntriesOnOccupy(u: Slots, perUser: int, total: int, me: Subject)
    requires Occupy(u, perUser, total, me).Some?
    ensures var u' := Occupy(u, perUser, total, me).value;
            Sum(u'.active.Keys, Entry(u'.active)) == Sum(u.active.Keys, Entry(u.active)) + 1
  {
    var u' := Occupy(u, perUser, total, me).value;
    if me in u.active {
      assert u'.active.Keys == u.active.Keys;
      SumChange(u.active.Keys, me, Entry(u.active), Entry(u'.active));
    } else {
      assert u'.active.Keys == u.active.Keys + {me};
      SumInsert(u.active.Keys, me, Entry(u.active), Entry(u'.active));
    }
  }

  lemma EntriesOnVacate(u: Slots, me: Subject)
    requires me in u.active && 1 <= u.active[me]
    ensures var u' := Vacate(u, me);
            Sum(u'.active.Keys, Entry(u'.active)) == Sum(u.active.Keys, Entry(u.active)) - 1
  {
    var u' := Vacate(u, me);
    if u.active[me] <= 1 {
      SumRemove(u.active.Keys, me, Entry(u.active));
      assert u'.active.Keys == u.active.Keys - {me};
      SumAgree(u'.active.Keys, Entry(u.active), Entry(u'.active));
    } else {
      assert u'.active.Keys == u.active.Keys;
      SumChange(u.active.Keys, me, Entry(u.active), Entry(u'.active));
    }
  }

  ghost predicate PerSubject(c: Config, active: map<Subject, int>, ws: map<Id, Worker>) {
    forall subject: Subject :: Get(active, subject) == |OpenOf(ws, subject)| <= c.perUser
  }

  lemma PerSubjectOnBegin(c: Config, u: Slots, ws: map<Id, Worker>, w: Id, wk: Worker, ws': map<Id, Worker>)
    requires PerSubject(c, u.active, ws) && w !in ws && !wk.phase.Done? && ws' == ws[w := wk]
    requires Occupy(u, c.perUser, c.total, wk.user.subject).Some?
    ensures PerSubject(c, Occupy(u, c.perUser, c.total, wk.user.subject).value.active, ws')
  {
    forall subject: Subject {
      OpenOfOnBegin(ws, w, wk, ws', subject);
    }
  }

  lemma PerSubjectOnEnd(c: Config, u: Slots, ws: map<Id, Worker>, w: Id, wk: Worker, ws': map<Id, Worker>)
    requires PerSubject(c, u.active, ws) && w in ws && !ws[w].phase.Done?
    requires wk.phase.Done? && wk.user == ws[w].user && ws' == ws[w := wk]
    ensures PerSubject(c, Vacate(u, wk.user.subject).active, ws')
  {
    forall subject: Subject {
      OpenOfOnEnd(ws, w, wk, ws', subject);
    }
  }

  lemma SlotsOnBegin(c: Config, u: Slots, ws: map<Id, Worker>, w: Id, wk: Worker)
    requires SlotsSound(c, u, ws) && w !in ws && wk.phase.Ready?
    requires Occupy(u, c.perUser, c.total, wk.user.subject).Some?
    ensures SlotsSound(c, Occupy(u, c.perUser, c.total, wk.user.subject).value, ws[w := wk])
  {
    EntriesOnOccupy(u, c.perUser, c.total, wk.user.subject);
    OpenOnBegin(ws, w, wk, ws[w := wk]);
    PerSubjectOnBegin(c, u, ws, w, wk, ws[w := wk]);
    assert Get(u.active, wk.user.subject) == |OpenOf(ws, wk.user.subject)|;
  }

  lemma SlotsOnEnd(c: Config, u: Slots, ws: map<Id, Worker>, w: Id, wk: Worker)
    requires SlotsSound(c, u, ws) && w in ws && !ws[w].phase.Done? && wk == ws[w].(phase := Done)
    ensures SlotsSound(c, Vacate(u, wk.user.subject), ws[w := wk])
  {
    assert w in OpenOf(ws, wk.user.subject) && Get(u.active, wk.user.subject) == |OpenOf(ws, wk.user.subject)|;
    EntriesOnVacate(u, wk.user.subject);
    OpenOnEnd(ws, w, wk, ws[w := wk]);
    PerSubjectOnEnd(c, u, ws, w, wk, ws[w := wk]);
  }

  lemma SlotsQuiet(c: Config, u: Slots, ws: map<Id, Worker>, w: Id, wk: Worker)
    requires SlotsSound(c, u, ws) && w in ws && wk.user == ws[w].user
    requires !ws[w].phase.Done? && !wk.phase.Done?
    ensures SlotsSound(c, u, ws[w := wk])
  {
    assert Open(ws[w := wk]) == Open(ws);
    forall subject: Subject
      ensures OpenOf(ws[w := wk], subject) == OpenOf(ws, subject)
    {
    }
  }

  /** No step but the last takes a worker out of the slots, and none changes whose it is. */
  lemma StaysOpen(c: Config, s: State, w: Id, e: Event, s': State)
    requires Apply(c, s, w, e) == Some(s') && w in s.workers
    ensures w in s'.workers && s'.workers[w].user == s.workers[w].user && !s.workers[w].phase.Done?
    ensures s'.workers[w].phase.Done? <==> e.End?
    ensures s'.books.slots == if e.End? then Vacate(s.books.slots, s.workers[w].user.subject) else s.books.slots
    ensures e.End? ==> s'.workers[w] == s.workers[w].(phase := Done)
  {
  }

  lemma SlotsStep(c: Config, s: State, w: Id, e: Event, s': State)
    requires SlotsSound(c, s.books.slots, s.workers) && Apply(c, s, w, e) == Some(s')
    ensures SlotsSound(c, s'.books.slots, s'.workers)
  {
    if e.Begin? {
      SlotsOnBegin(c, s.books.slots, s.workers, w, s'.workers[w]);
    } else {
      StaysOpen(c, s, w, e, s');
      if e.End? {
        SlotsOnEnd(c, s.books.slots, s.workers, w, s'.workers[w]);
      } else {
        SlotsQuiet(c, s.books.slots, s.workers, w, s'.workers[w]);
      }
    }
  }

  /** A slot in all and one for the subject are not taken by open requests. */
  ghost predicate Admits(c: Config, ws: map<Id, Worker>, subject: Subject) {
    |Open(ws)| < c.total && |OpenOf(ws, subject)| < c.perUser
  }

  /** A request is refused exactly when all slots are taken by open requests, or all of its subject. */
  lemma RefusedExactly(c: Config, u: Slots, ws: map<Id, Worker>, subject: Subject)
    requires SlotsSound(c, u, ws)
    ensures Occupy(u, c.perUser, c.total, subject).Some? <==> Admits(c, ws, subject)
    ensures Occupy(u, c.perUser, c.total, subject).None? <==>
              |Open(ws)| == c.total || |OpenOf(ws, subject)| == c.perUser
  {
    assert Get(u.active, subject) == |OpenOf(ws, subject)| <= c.perUser;
  }

  /** A subject with nothing in flight is refused only when the slots really are all taken, and
      then enough subjects share them that no one of them has more than its part. */
  lemma IdleRefusal(c: Config, u: Slots, ws: map<Id, Worker>, subject: Subject)
    requires c.Valid() && SlotsSound(c, u, ws) && OpenOf(ws, subject) == {}
    ensures Occupy(u, c.perUser, c.total, subject).None? ==>
              && |Open(ws)| == c.total <= c.perUser * |u.active|
  {
    SumConstant(u.active.Keys, (k: Subject) => c.perUser, c.perUser);
    SumAtMost(u.active.Keys, Entry(u.active), (k: Subject) => c.perUser);
  }
}
