/** Running functors and handlers, part by part, keeps the server's invariant. */
module ServerRuns {
  import opened Servers
  import opened ServerInvariant
  import opened ServerLoops
  import opened ServerConns
  import opened ServerSteps
  import opened ServerReferences
  import opened ServerHandlers
  import R = Registration
  import S = Streams
  import L = LoopProtocol

  // ---- functors ----

  function Rest(w: seq<Fn>): seq<Fn> { if w == [] then [] else w[1..] }

  lemma StartNothing(lp: Loop, d: Id)
    requires L.Enabled(lp.el, L.RunNext) && Free(lp)
    ensures var lp' := Started(lp, [], lp.cur); Seen(lp', d) == Seen(lp, d).(work := WorkOf(Work(lp'), d))
  {
    hide WorkOf, Work, Counts, OpCounts.Total, L.Apply, L.Enabled;
  }

  /** Loop l starts on functor f of connection c, with k to do. */
  ghost predicate Running(s: State, l: nat, f: Fn, c: Id) {
    && l in s.loops && c in s.conns && L.Enabled(s.loops[l].el, L.RunNext) && Free(s.loops[l])
    && f == s.loops[l].el.batch[s.loops[l].el.pos] && On(f, c)
  }

  /** The view of a functor's connection as its loop takes it. */
  lemma Taken(s: State, l: nat, f: Fn, c: Id)
    requires Inv(s) && Running(s, l, f, c)
    ensures f.RemoveFn? ==> l == s.base
    ensures !f.NoticeFn? && !f.RemoveFn? ==> s.conns[c].loop == l
    ensures var lp := s.loops[l]; var v := Seen(lp, c);
      && LoopOk(lp) && KnownOk(s.conns.Keys, lp) && L.Inv(lp.el)
      && v.ops.Total() == 0 && !v.pin && !v.act && Work(lp) != [] && Popped(v.work, f, c, WorkOf(Rest(Work(lp)), c))
  {
    hide Inv, ConnInv, StaticOk, Seen, Work, WorkOf, L.Apply, LoopOk, KnownOk, L.Enabled, L.Inv;
    var lp := s.loops[l];
    Parts(s, l, c);
    LoopParts(lp);
    NextFunctor(s, l);
    FreeSeen(lp, c);
    SeenParts(lp, c);
    NotActive(lp, c);
    WorkPop(Work(lp), c);
  }

  lemma NotActive(lp: Loop, c: Id)
    requires LoopOk(lp) && L.Enabled(lp.el, L.RunNext)
    ensures !InActive(lp, c)
  {
    hide L.Inv, R.Consistent;
  }

  lemma RunMoved(s: State, l: nat, f: Fn, c: Id, lp': Loop)
    requires Inv(s) && Running(s, l, f, c)
    requires lp' == Started(s.loops[l], lp'.k, lp'.cur) && (lp'.cur == c || (lp'.k == [] && lp'.cur == s.loops[l].cur))
    requires s.conns[c].loop in s.loops && s.base in s.loops
    requires var s' := OnLoop(s, l, lp');
             ConnOk(s.conns[c], Seen(s'.loops[s.conns[c].loop], c), Seen(s'.loops[s.base], c),
                    s.conns[c].loop == s.base, InMap(s, c))
    requires PlaceOk(Seen(lp', c), l == s.conns[c].loop, l == s.base)
    ensures Inv(OnLoop(s, l, lp'))
  {
    hide Inv, ConnInv, ConnOk, PlaceOk, LoopOk, KnownOk, StaticOk, InMap, Alive, HoldsRef, Seen, Work, WorkOf,
         L.Apply, L.Enabled, L.Inv;
    var lp := s.loops[l];
    var s' := OnLoop(s, l, lp');
    Taken(s, l, f, c);
    StartRun(lp, lp'.k, lp'.cur);
    KnownRun(lp, lp', s.conns.Keys);
    RefsAfter(s, l, L.RunNext, lp');
    MapAfter(s, s', c);
    forall d | d in s.conns && d != c ensures Seen(lp', d) == Seen(lp, d) {
      if lp'.cur == c { StartElsewhere(lp, lp'.k, c, d); } else { StartNothing(lp, d); }
      WorkPop(Work(lp), d);
      SeenParts(lp, d);
      NotOn(f, c, d);
      SameWork(WorkOf(Work(lp), d), f, d, WorkOf(Work(lp'), d));
    }
    LocalKeepsInv(s, s', l, l, c);
  }

  lemma NotOn(f: Fn, c: Id, d: Id)
    requires On(f, c) && d != c
    ensures !On(f, d)
  {
  }

  lemma SameWork(v: WorkView, f: Fn, d: Id, v': WorkView)
    requires Popped(v, f, d, v') && !On(f, d)
    ensures v' == v
  {
  }

  lemma OneOps(op: Op)
    requires op != User && op != Erase
    ensures Counts([op]) == One(op) && One(op).Total() > 0 && One(op).erase == 0
  {
    CountsOne(op);
    OneTotal(op);
    hide Counts, OpCounts.Total;
  }

  lemma ZeroErase(o: OpCounts)
    requires o.Total() == 0
    ensures o.erase == 0
  {
  }

  /** The shape a loop shows of c once it has started on k. */
  lemma StartedShape(s: State, l: nat, f: Fn, c: Id, k: seq<Op>)
    requires Inv(s) && Running(s, l, f, c)
    ensures var lp, lp' := s.loops[l], Started(s.loops[l], k, c);
            Seen(lp', c) == Seen(lp, c).(work := WorkOf(Rest(Work(lp)), c), ops := Counts(k),
                                         pin := Counts(k).Total() > 0 && Strong(f, c))
    ensures var lp, lp' := s.loops[l], Started(s.loops[l], [], s.loops[l].cur);
            Seen(lp', c) == Seen(lp, c).(work := WorkOf(Rest(Work(lp)), c))
  {
    hide Inv, ConnInv, PlaceOk, LoopOk, KnownOk, StaticOk, Seen, Work, WorkOf, L.Apply, L.Enabled, L.Inv, Counts,
         OpCounts.Total;
    Taken(s, l, f, c);
    var lp := s.loops[l];
    StartRun(lp, k, c);
    StartHere(lp, k, c, f);
    StartRun(lp, [], lp.cur);
    StartNothing(lp, c);
  }

  lemma PlaceStarted(v: Shape, f: Fn, c: Id, v': Shape, base: bool)
    requires PlaceOk(v, true, base) && Popped(v.work, f, c, v'.work)
    requires v' == v.(work := v'.work, ops := v'.ops, pin := v'.pin) && (v'.ops.erase == 0 || base)
    ensures PlaceOk(v', true, base)
  {
  }

  lemma RunConnKeepsInv(s: State, l: nat, f: Fn, c: Id, closing: bool)
    requires Inv(s) && Running(s, l, f, c) && !f.NoticeFn? && !f.RemoveFn?
    requires f.ForceCloseFn? ==> closing == CanCall(s.conns[c].tcp, ForceClose)
    ensures f.EstablishFn? ==> Inv(OnLoop(s, l, Started(s.loops[l], [Est], c)))
    ensures f.DestroyFn? ==> Inv(OnLoop(s, l, Started(s.loops[l], [Destroy], c)))
    ensures f.ForceCloseFn? && closing ==> Inv(OnLoop(s, l, Started(s.loops[l], [Close], c)))
    ensures (f.ForceCloseFn? && !closing) || Raw(f, c) ==> Inv(OnLoop(s, l, Started(s.loops[l], [], s.loops[l].cur)))
    ensures Raw(f, c) ==> s.conns[c].tcp.state != S.Connecting
    ensures f.ShutdownFn? ==> s.conns[c].tcp.state == S.Disconnecting || s.conns[c].tcp.state == S.Disconnected
    ensures Raw(f, c) && s.conns[c].loop != s.base ==> Alive(s, c)
  {
    hide Inv, ConnInv, ConnOk, PlaceOk, LoopOk, KnownOk, StaticOk, InMap, HoldsRef, Seen, Work, WorkOf, Started,
         L.Enabled, L.Inv, Popped, Counts, One, OpCounts.Total, Alive;
    var lp, cn := s.loops[l], s.conns[c];
    Parts(s, l, c);
    Taken(s, l, f, c);
    Views(s, c);
    OneOps(Est);
    OneOps(Destroy);
    OneOps(Close);
    NoCounts([]);
    ZeroErase(Counts([]));
    ZeroErase(Seen(lp, c).ops);
    var io, ba, w := Seen(lp, c), Seen(s.loops[s.base], c), WorkOf(Rest(Work(lp)), c);
    var k := if f.EstablishFn? then [Est]
             else if f.DestroyFn? then [Destroy]
             else if f.ForceCloseFn? && closing then [Close]
             else [];
    StartedShape(s, l, f, c, k);
    if f.EstablishFn? {
      RunEstablish(cn, io, ba, l == s.base, InMap(s, c), c, w);
    } else if f.DestroyFn? {
      RunDestroy(cn, io, ba, l == s.base, InMap(s, c), c, w);
    } else if f.ForceCloseFn? && closing {
      RunClose(cn, io, ba, l == s.base, InMap(s, c), c, w);
    } else {
      RunPlain(cn, io, ba, l == s.base, InMap(s, c), f, c, w);
      if Raw(f, c) && l != s.base { UnfinishedIsAlive(s, c); }
    }
    var lp' := if k == [] then Started(lp, [], lp.cur) else Started(lp, k, c);
    StartedFields(lp, k, c);
    PlaceStarted(io, f, c, Seen(lp', c), l == s.base);
    RunMoved(s, l, f, c, lp');
  }

  lemma PlaceRemoved(v: Shape, c: Id, v': Shape, own: bool)
    requires PlaceOk(v, own, true) && Popped(v.work, RemoveFn(c), c, v'.work)
    requires v' == v.(work := v'.work, ops := One(Erase), pin := v'.pin)
    ensures PlaceOk(v', own, true)
  {
    hide OpCounts.Total;
    OneTotal(Erase);
  }

  /** The base loop takes a removeConnectionInLoop. */
  lemma RunRemoveKeepsInv(s: State, l: nat, c: Id)
    requires Inv(s) && Running(s, l, RemoveFn(c), c)
    ensures Inv(OnLoop(s, l, Started(s.loops[l], [Erase], c)))
  {
    hide Inv, ConnInv, ConnOk, PlaceOk, LoopOk, KnownOk, StaticOk, InMap, HoldsRef, Seen, Work, WorkOf, Started,
         L.Enabled, L.Inv, Popped, Counts, One, OpCounts.Total, Alive;
    var lp, cn := s.loops[l], s.conns[c];
    Parts(s, l, c);
    Taken(s, l, RemoveFn(c), c);
    Views(s, c);
    PlaceAt(s, l, c);
    CountsOne(Erase);
    OneTotal(Erase);
    var io, ba, w := Seen(s.loops[cn.loop], c), Seen(lp, c), WorkOf(Rest(Work(lp)), c);
    StartedShape(s, l, RemoveFn(c), c, [Erase]);
    RunRemoveStep(cn, io, ba, cn.loop == l, InMap(s, c), c, w);
    StartedFields(lp, [Erase], c);
    PlaceRemoved(ba, c, Seen(Started(lp, [Erase], c), c), l == cn.loop);
    RunMoved(s, l, RemoveFn(c), c, Started(lp, [Erase], c));
  }

  lemma StartedFields(lp: Loop, k: seq<Op>, c: Id)
    requires L.Enabled(lp.el, L.RunNext)
    ensures Started(lp, k, c).k == k && Started(lp, k, c).cur == c
    ensures Started(lp, [], lp.cur).k == [] && Started(lp, [], lp.cur).cur == lp.cur
  {
  }

  // ---- the handler at hand ----

  /** The next part `op` of the handler at hand on loop l, of connection c, with `rest` to follow. */
  ghost predicate AtHand(s: State, l: nat, c: Id, op: Op, rest: seq<Op>) {
    && l in s.loops && s.base in s.loops && c in s.conns && s.loops[l].cur == c && s.loops[l].k == [op] + rest
    && op != User
  }

  lemma HandPlace(v: Shape, op: Op, rest: OpCounts, own: bool, base: bool)
    requires PlaceOk(v, own, base) && v.ops == One(op).Plus(rest) && op != User
    ensures op != Erase ==> own
    ensures op == Erase ==> base
  {
    match op
    case Est => case Up => case Close => case Down => case Report => case Erase =>
    case Destroy => case Remove => case Read => case Write => case Drain => case User =>
  }

  lemma HandShape(lp: Loop, c: Id, op: Op, rest: seq<Op>, more: seq<Op>)
    requires lp.cur == c && lp.k == [op] + rest && op != User
    ensures Seen(lp, c).ops == One(op).Plus(Counts(rest)) && Seen(lp, c).pin == Pinned(lp, c)
    ensures Seen(lp.(k := more + rest), c) == After(Seen(lp, c), Counts(rest), Counts(more), Pinned(lp, c))
  {
    hide Counts, Work, WorkOf, Pinned, InActive, One, OpCounts.Total, OpCounts.Plus, After;
    var lp' := lp.(k := more + rest);
    WorkSame(lp, lp');
    PinSame(lp, lp');
    ActSame(lp, lp');
    ShapeAfter(ViewOf(lp, c), op, rest, more, Pinned(lp, c));
  }

  lemma HandFacts(s: State, l: nat, c: Id, op: Op, rest: seq<Op>)
    requires Inv(s) && AtHand(s, l, c, op, rest)
    ensures LoopOk(s.loops[l]) && KnownOk(s.conns.Keys, s.loops[l])
    ensures op != Erase ==> s.conns[c].loop == l
    ensures op == Erase ==> l == s.base
    ensures Seen(s.loops[l], c).ops == One(op).Plus(Counts(rest)) && Seen(s.loops[l], c).pin == Pinned(s.loops[l], c)
    ensures Alive(s, c)
  {
    hide Inv, ConnInv, LoopOk, KnownOk, StaticOk, ConnOk, PlaceOk, Seen, InMap, HoldsRef, L.Inv, R.Consistent,
         Counts, One, OpCounts.Total, OpCounts.Plus, Alive, Pinned;
    var lp := s.loops[l];
    Parts(s, l, c);
    LoopParts(lp);
    PlaceAt(s, l, c);
    HandShape(lp, c, op, rest, []);
    HandPlace(Seen(lp, c), op, Counts(rest), l == s.conns[c].loop, l == s.base);
    Views(s, c);
    WorkIs(lp);
    var cn := s.conns[c];
    HandAlive(cn, Seen(s.loops[cn.loop], c), Seen(s.loops[s.base], c), cn.loop == s.base, InMap(s, c), op,
              Counts(rest));
    MapIsAlive(s);
    if !InMap(s, c) {
      PinnedHolds(lp, c);
    }
  }

  /** A part of a handler runs on a connection in the map, or on one its loop keeps alive. */
  lemma HandAlive(cn: Conn, io: Shape, ba: Shape, same: bool, inMap: bool, op: Op, rest: OpCounts)
    requires ConnOk(cn, io, ba, same, inMap)
    requires op != User && (if op == Erase then ba.ops else io.ops) == One(op).Plus(rest)
    ensures inMap || (if op == Erase then ba.pin else io.pin)
  {
    hide S.Inv, Calm, RawOk, TallyOf, IndexOk, StateOk;
    match op
    case Est => case Up => case Close => case Down => case Report => case Erase =>
    case Destroy => case Remove => case Read => case Write => case Drain => case User =>
  }

  /** The loop after one part of its handler, with its poller p. */
  lemma HandFits(s: State, s': State, l: nat, c: Id, op: Op, rest: seq<Op>, more: seq<Op>, p: R.Poller<Id>)
    requires Inv(s) && AtHand(s, l, c, op, rest)
    requires SameFrame(s, s') && s'.loops[l] == s.loops[l].(k := more + rest, poller := p)
    requires R.Consistent(p) && p.chans.Keys == s.loops[l].poller.chans.Keys
    requires forall d :: d in p.chans && d != c ==> p.chans[d] == s.loops[l].poller.chans[d]
    requires PlaceOk(Seen(s'.loops[l], c), l == s.conns[c].loop, l == s.base)
    ensures LoopFits(s, s', l, c)
  {
    hide Inv, ConnInv, ConnOk, PlaceOk, LoopOk, KnownOk, StaticOk, InMap, HoldsRef, Seen, Alive, R.Consistent;
    Parts(s, l, c);
    var lp := s.loops[l];
    var lq := lp.(k := more + rest);
    var lp' := s'.loops[l];
    SetK(lp, more + rest, lq);
    KnownK(lp, more + rest, s.conns.Keys);
    SetPoller(lq, p, lp');
    KnownKeys(lq, s.conns.Keys);
    KnownPoller(lq, p, s.conns.Keys);
    MapIsAlive(s);
    forall d | d in s.conns && d != c ensures Seen(lp', d) == Seen(lp, d) {
      ChanSeen(lp, d);
      assert Seen(lq, d) == Seen(lp, d);
    }
  }

  lemma HandMoved(s: State, s': State, l: nat, c: Id, op: Op, rest: seq<Op>, more: seq<Op>, p: R.Poller<Id>)
    requires Inv(s) && AtHand(s, l, c, op, rest)
    requires Local(s, s', l, l, c) && s'.loops[l] == s.loops[l].(k := more + rest, poller := p)
    requires R.Consistent(p) && p.chans.Keys == s.loops[l].poller.chans.Keys
    requires forall d :: d in p.chans && d != c ==> p.chans[d] == s.loops[l].poller.chans[d]
    requires var io := s'.loops[s.conns[c].loop];
             ConnOk(s'.conns[c], Seen(io, c), Seen(s'.loops[s.base], c), s.conns[c].loop == s.base, InMap(s', c))
    requires PlaceOk(Seen(s'.loops[l], c), l == s.conns[c].loop, l == s.base)
    ensures Inv(s')
  {
    hide Inv, ConnOk, PlaceOk, LoopFits, InMap, Seen, R.Consistent, Local, AtHand;
    LocalFrame(s, s', l, l, c);
    HandFits(s, s', l, c, op, rest, more, p);
    LocalKeepsInv(s, s', l, l, c);
  }

  lemma LocalFrame(s: State, s': State, l: nat, m: nat, c: Id)
    requires Local(s, s', l, m, c)
    ensures SameFrame(s, s') && l in s.loops && m in s.loops && c in s.conns
  {
  }
}
