/** How the small changes a step makes to one loop show in the views the invariant is built on. */
module ServerLoops {
  import opened Options
  import opened Servers
  import opened ServerInvariant
  import R = Registration
  import L = LoopProtocol

  /** Views depend on the remaining work, the handler at hand and what keeps its connection, the
      active list and the poller. */
  lemma SameView(lp: Loop, lp': Loop, d: Id)
    requires Work(lp') == Work(lp) && lp'.poller == lp.poller && lp'.active == lp.active
    requires KFor(lp', d) == KFor(lp, d)
    requires KFor(lp, d) != [] ==> Pinned(lp', d) == Pinned(lp, d)
    ensures ViewOf(lp', d) == ViewOf(lp, d) && Seen(lp', d) == Seen(lp, d)
  {
    hide WorkOf, Work, Counts;
  }

  /** What the loop keeps alive depends on its vectors and the guard. */
  lemma SameRefs(lp: Loop, lp': Loop)
    requires lp'.el == lp.el && lp'.guard == lp.guard
    ensures forall d :: HoldsRef(lp', d) == HoldsRef(lp, d)
  {
  }

  lemma ActSame(lp: Loop, lp': Loop)
    requires lp'.active == lp.active
    ensures forall d :: InActive(lp', d) == InActive(lp, d)
  {
  }

  // ---- the handler at hand ----

  lemma SetK(lp: Loop, k: seq<Op>, lp': Loop)
    requires LoopOk(lp) && lp.k != [] && lp' == lp.(k := k)
    ensures LoopOk(lp') && Work(lp') == Work(lp)
    ensures forall d :: d != lp.cur ==> Seen(lp', d) == Seen(lp, d)
    ensures ViewOf(lp', lp.cur) == ViewOf(lp, lp.cur).(k := k, pin := k != [] && Pinned(lp, lp.cur))
    ensures ViewOf(lp, lp.cur).k == lp.k && ViewOf(lp, lp.cur).pin == Pinned(lp, lp.cur)
    ensures forall d :: HoldsRef(lp', d) == HoldsRef(lp, d)
  {
    hide WorkOf, R.Consistent, L.Inv, HoldsRef;
    SameRefs(lp, lp');
    forall d | d != lp.cur ensures Seen(lp', d) == Seen(lp, d) {
      SameView(lp, lp', d);
    }
  }

  lemma KnownK(lp: Loop, k: seq<Op>, ids: set<Id>)
    requires KnownOk(ids, lp) && lp.cur in ids
    ensures KnownOk(ids, lp.(k := k))
  {
  }

  /** Counting the rest of a handler. */
  lemma CountsJoin(a: seq<Op>, b: seq<Op>)
    ensures Counts(a + b) == Counts(a).Plus(Counts(b))
  {
  }

  lemma CountsOne(op: Op)
    ensures Counts([op]) == One(op)
    ensures Counts([]) == NO_OPS
  {
  }

  lemma PlusTotal(a: OpCounts, b: OpCounts)
    ensures a.Plus(b).Total() == a.Total() + b.Total()
  {
  }

  lemma OneTotal(op: Op)
    ensures One(op).Total() == Bit(op != User)
  {
    match op
    case Est => case Up => case Close => case Down => case Report => case Erase =>
    case Destroy => case Remove => case Read => case Write => case Drain => case User =>
  }

  lemma UserPlus(o: OpCounts)
    ensures One(User).Plus(o) == o
  {
  }

  /** The next part `op` of the handler gives way to `more`. */
  lemma CountsNext(op: Op, more: seq<Op>, rest: seq<Op>)
    ensures Counts([op] + rest) == One(op).Plus(Counts(rest))
    ensures Counts([op] + rest).Total() == Bit(op != User) + Counts(rest).Total()
    ensures Counts(more + rest) == Counts(more).Plus(Counts(rest))
  {
    hide Counts, One, OpCounts.Plus, OpCounts.Total;
    CountsJoin([op], rest);
    CountsOne(op);
    OneTotal(op);
    PlusTotal(One(op), Counts(rest));
    CountsJoin(more, rest);
  }

  lemma NoCounts(k: seq<Op>)
    ensures Counts(k).Total() > 0 ==> k != []
    ensures Counts([]).Total() == 0
  {
  }

  // ---- the poller ----

  lemma SetPoller(lp: Loop, p: R.Poller<Id>, lp': Loop)
    requires LoopOk(lp) && R.Consistent(p) && lp' == lp.(poller := p)
    ensures LoopOk(lp') && Work(lp') == Work(lp)
    ensures forall d :: Seen(lp', d) == Seen(lp, d).(chan := if d in p.chans then Some(p.chans[d]) else None)
    ensures forall d :: HoldsRef(lp', d) == HoldsRef(lp, d)
  {
    hide WorkOf, R.Consistent, L.Inv, L.Apply, Counts;
    SameRefs(lp, lp');
  }

  lemma KnownPoller(lp: Loop, p: R.Poller<Id>, ids: set<Id>)
    requires KnownOk(ids, lp) && p.chans.Keys <= ids
    ensures KnownOk(ids, lp.(poller := p))
  {
  }

  /** The index a Channel call leaves. */
  function IndexAfter(index: R.Index, events: R.Interest): R.Index {
    if index == R.Added && events == R.NONE_EVENT then R.Deleted else R.Added
  }

  lemma ChangedChans(p: R.Poller<Id>, c: Id, events: R.Interest)
    requires c in p.chans
    ensures var ch := p.chans[c];
            R.Change(p, c, events).chans == p.chans[c := R.Chan(ch.fd, events, IndexAfter(ch.index, events))]
  {
  }

  lemma RemovedChans(p: R.Poller<Id>, c: Id)
    requires c in p.chans
    ensures R.RemoveChannel(p, c).chans == p.chans[c := p.chans[c].(index := R.New)]
  {
  }

  // ---- the queue ----

  lemma PushLoop(lp: Loop, a: L.Step<Fn>, lp': Loop)
    requires LoopOk(lp) && L.Enabled(lp.el, a) && (a.OwnerPush? || a.OtherPush?)
    requires lp' == lp.(el := L.Apply(lp.el, a))
    ensures LoopOk(lp') && Work(lp') == Work(lp) + [a.f]
    ensures lp'.el.batch == lp.el.batch && lp'.el.pos == lp.el.pos && lp'.el.pending == lp.el.pending + [a.f]
  {
    WorkAfter(lp.el, a);
    hide R.Consistent, L.Inv;
  }

  lemma PushView(lp: Loop, f: Fn, lp': Loop, d: Id)
    requires lp'.el.batch == lp.el.batch && lp'.el.pos == lp.el.pos
    requires lp' == lp.(el := lp'.el) && Work(lp') == Work(lp) + [f]
    ensures ViewOf(lp', d) == ViewOf(lp, d).(work := WorkOf(Work(lp) + [f], d))
    ensures !On(f, d) ==> Seen(lp', d) == Seen(lp, d)
  {
    hide Work, Counts;
    WorkPush(Work(lp), f, d);
    hide WorkOf;
  }

  /** The same with the changed fields of the work view spelled out. */
  function WorkPlus(v: WorkView, f: Fn, c: Id): WorkView {
    WorkView(Sum(v.est, Bit(f == EstablishFn(c))), Sum(v.des, Bit(f == DestroyFn(c))),
             Sum(v.rem, Bit(f == RemoveFn(c))),
             v.force || f == ForceCloseFn(c), v.raw || Raw(f, c), v.rawShut || f == ShutdownFn(c),
             v.late || (v.des > 0 && Raw(f, c)))
  }

  lemma PushedView(lp: Loop, f: Fn, lp': Loop, d: Id)
    requires lp'.el.batch == lp.el.batch && lp'.el.pos == lp.el.pos
    requires lp' == lp.(el := lp'.el) && Work(lp') == Work(lp) + [f]
    ensures Seen(lp', d) == Seen(lp, d).(work := WorkPlus(Seen(lp, d).work, f, d))
  {
    hide Work, Counts;
    PushView(lp, f, lp', d);
    WorkPush(Work(lp), f, d);
    hide WorkOf;
  }

  lemma KnownPush(lp: Loop, a: L.Step<Fn>, lp': Loop, ids: set<Id>)
    requires KnownOk(ids, lp) && lp'.k == lp.k && lp'.cur == lp.cur && lp'.active == lp.active
    requires lp'.poller == lp.poller
    requires a.OwnerPush? || a.OtherPush?
    requires Work(lp') == Work(lp) + [a.f] && (!a.f.UserFn? ==> a.f.c in ids)
    ensures KnownOk(ids, lp')
  {
    hide Work;
  }

  // ---- steps of the protocol that move nothing ----

  predicate QuietStep(a: L.Step<Fn>) {
    || a.TestQuit? || a.HandleRead? || a.StartPass? || a.Swap? || a.EndPass?
    || a.OwnerWrite? || a.OtherWrite? || a.PollReturns?
  }

  lemma QuietPc(el: L.State<Fn>, a: L.Step<Fn>)
    requires L.Enabled(el, a) && QuietStep(a) && !el.quit && el.pc != L.Outside && !el.preloaded
    ensures var t := L.Apply(el, a);
            && t.pc != L.Outside && !t.quit && !t.preloaded
            && (a.OwnerWrite? || a.OtherWrite? ==> t.pc == el.pc)
            && (el.pc == L.Dispatch && !a.StartPass? ==> t.pc == L.Dispatch)
  {
  }

  lemma QuietLoop(lp: Loop, a: L.Step<Fn>, lp': Loop)
    requires LoopOk(lp) && L.Enabled(lp.el, a) && QuietStep(a) && lp' == lp.(el := L.Apply(lp.el, a))
    requires a.OwnerWrite? || a.OtherWrite? || (Free(lp) && (a.StartPass? ==> lp.active == []))
    ensures LoopOk(lp') && Work(lp') == Work(lp)
  {
    hide R.Consistent, L.Inv, L.Apply, L.Enabled;
    WorkAfter(lp.el, a);
    QuietPc(lp.el, a);
    WorkIs(lp);
    WorkIs(lp');
  }

  lemma WorkIs(lp: Loop)
    requires L.Inv(lp.el)
    ensures lp.el.pos <= |lp.el.batch| && Work(lp) == lp.el.Work()
  {
  }

  lemma QuietView(lp: Loop, a: L.Step<Fn>, lp': Loop, d: Id)
    requires LoopOk(lp) && L.Enabled(lp.el, a) && QuietStep(a) && lp' == lp.(el := L.Apply(lp.el, a))
    requires a.OwnerWrite? || a.OtherWrite? || Free(lp)
    requires Work(lp') == Work(lp)
    ensures Seen(lp', d) == Seen(lp, d)
  {
    hide WorkOf, Work, R.Consistent, Counts, Seen;
    SameView(lp, lp', d);
  }

  // ---- taking the next functor or channel ----

  /** Popping functor f from the batch, and starting on k for connection `cur`. */
  function Started(lp: Loop, k: seq<Op>, cur: Id): Loop
    requires L.Enabled(lp.el, L.RunNext)
  {
    lp.(el := L.Apply(lp.el, L.RunNext), k := k, cur := cur)
  }

  lemma StartRun(lp: Loop, k: seq<Op>, cur: Id)
    requires LoopOk(lp) && L.Enabled(lp.el, L.RunNext) && Free(lp)
    ensures var lp' := Started(lp, k, cur);
      && LoopOk(lp') && Work(lp) != [] && Work(lp)[0] == lp.el.batch[lp.el.pos] && Work(lp') == Work(lp)[1..]
  {
    var lp' := Started(lp, k, cur);
    WorkAfter(lp.el, L.RunNext);
    assert LoopOk(lp') by { hide R.Consistent; }
    hide R.Consistent, L.Inv, L.Apply, L.Enabled, LoopOk;
    WorkIs(lp);
    WorkIs(lp');
  }

  lemma StartElsewhere(lp: Loop, k: seq<Op>, cur: Id, d: Id)
    requires L.Enabled(lp.el, L.RunNext) && Free(lp) && d != cur
    ensures var lp' := Started(lp, k, cur); Seen(lp', d) == Seen(lp, d).(work := WorkOf(Work(lp'), d))
  {
    hide WorkOf, Work, Counts, OpCounts.Total, L.Apply, L.Enabled;
  }

  lemma StartHere(lp: Loop, k: seq<Op>, cur: Id, f: Fn)
    requires L.Enabled(lp.el, L.RunNext) && Free(lp) && f == lp.el.batch[lp.el.pos]
    requires LoopOk(lp)
    ensures var lp' := Started(lp, k, cur);
            Seen(lp', cur) == Seen(lp, cur).(work := WorkOf(Work(lp'), cur), ops := Counts(k),
                                             pin := Counts(k).Total() > 0 && Strong(f, cur))
  {
    hide LoopOk, L.Apply, L.Enabled, Pinned, Seen, InActive, WorkOf, Work, Counts, OpCounts.Total;
    var lp' := Started(lp, k, cur);
    StartPinned(lp, k, cur, f);
    ActSame(lp, lp');
    NoCounts(k);
    SeenParts(lp, cur);
    SeenParts(lp', cur);
    SeenOps(lp', cur);
  }

  lemma StartPinned(lp: Loop, k: seq<Op>, cur: Id, f: Fn)
    requires L.Enabled(lp.el, L.RunNext) && Free(lp) && f == lp.el.batch[lp.el.pos]
    ensures Pinned(Started(lp, k, cur), cur) == Strong(f, cur)
  {
  }

  lemma FreeSeen(lp: Loop, d: Id)
    requires lp.k == []
    ensures Seen(lp, d).ops.Total() == 0 && !Seen(lp, d).pin
    ensures ViewOf(lp, d).k == [] && !ViewOf(lp, d).pin
  {
    NoCounts([]);
    hide WorkOf, Work, Counts, OpCounts.Total;
  }

  lemma SeenParts(lp: Loop, d: Id)
    ensures Seen(lp, d).work == WorkOf(Work(lp), d)
    ensures Seen(lp, d).act == InActive(lp, d)
    ensures Seen(lp, d).chan == if d in lp.poller.chans then Some(lp.poller.chans[d]) else None
  {
    hide Counts, WorkOf, Work;
  }

  lemma SeenOps(lp: Loop, d: Id)
    ensures Seen(lp, d).ops == Counts(KFor(lp, d))
    ensures Seen(lp, d).pin == (Counts(KFor(lp, d)).Total() > 0 && KFor(lp, d) != [] && Pinned(lp, d))
  {
    hide Work, WorkOf, Counts, OpCounts.Total, Pinned, InActive;
  }

  lemma KnownRun(lp: Loop, lp': Loop, ids: set<Id>)
    requires KnownOk(ids, lp) && Work(lp) != [] && Work(lp') == Work(lp)[1..]
    requires lp'.active == lp.active && lp'.poller == lp.poller
    requires (exists op :: op in lp'.k && op != User) ==> lp'.cur in ids
    ensures KnownOk(ids, lp')
    ensures !Work(lp)[0].UserFn? ==> Work(lp)[0].c in ids
  {
    hide Work;
    assert Work(lp)[0] in Work(lp);
    forall f | f in Work(lp') ensures f in Work(lp) {}
  }
}
