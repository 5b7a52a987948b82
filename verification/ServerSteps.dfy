/** Every step of the server keeps the invariant, one lemma a kind of step. */
module ServerSteps {
  import opened Options
  import opened Servers
  import opened ServerInvariant
  import opened ServerLoops
  import opened ServerConns
  import R = Registration
  import S = Streams
  import L = LoopProtocol
  import Names

  // ---- what stays ----

  ghost predicate SameFrame(s: State, s': State) {
    && s'.base == s.base && s'.pool == s.pool && s'.reserved == s.reserved && s'.prefix == s.prefix && s'.cfg == s.cfg
    && s'.loops.Keys == s.loops.Keys && s'.next == s.next && s'.nextId == s.nextId
    && s'.conns.Keys == s.conns.Keys && s'.inflight == s.inflight
  }

  /** Nothing about d changed. */
  ghost predicate Untouched(s: State, s': State, d: Id)
    requires SameFrame(s, s') && d in s.conns
  {
    && s'.conns[d] == s.conns[d] && InMap(s', d) == InMap(s, d)
    && forall l :: l in s.loops ==> Seen(s'.loops[l], d) == Seen(s.loops[l], d)
  }

  /** No step hands out a shared_ptr to a connection that nobody keeps. */
  ghost predicate RefsKept(s: State, s': State)
    requires SameFrame(s, s')
  {
    && (forall d :: InMap(s', d) && d in s.conns ==> Alive(s, d))
    && (forall d :: d in s'.held && d in s.conns ==> Alive(s, d))
    && (forall l, d :: l in s.loops && d in s.conns && HoldsRef(s'.loops[l], d) ==> Alive(s, d))
  }

  lemma AliveKept(s: State, s': State)
    requires SameFrame(s, s') && RefsKept(s, s') && FdsOk(s)
    requires forall d :: d in s.conns ==> s'.conns[d].fd == s.conns[d].fd
    ensures FdsOk(s')
    ensures forall d :: Alive(s', d) ==> Alive(s, d)
  {
    hide InMap, HoldsRef;
    forall d | Alive(s', d) ensures Alive(s, d) {
      if !InMap(s', d) && d !in s'.held {
        var l :| l in s'.loops && HoldsRef(s'.loops[l], d);
      }
    }
  }

  lemma ConnUntouched(s: State, s': State, d: Id)
    requires SameFrame(s, s') && d in s.conns && ConnInv(s, d) && Untouched(s, s', d)
    ensures ConnInv(s', d)
  {
    hide ConnOk, PlaceOk, Seen, InMap;
    forall l | l in s'.loops ensures PlaceOk(Seen(s'.loops[l], d), l == s'.conns[d].loop, l == s'.base) {
      assert Seen(s'.loops[l], d) == Seen(s.loops[l], d);
    }
  }

  lemma MapIsAlive(s: State)
    ensures forall d :: InMap(s, d) && d in s.conns ==> Alive(s, d)
    ensures forall d :: d in s.held && d in s.conns ==> Alive(s, d)
    ensures forall l, d :: l in s.loops && d in s.conns && HoldsRef(s.loops[l], d) ==> Alive(s, d)
  {
    hide InMap, HoldsRef;
  }

  /** The map after the step: the same, or without c. */
  lemma MapAfter(s: State, s': State, c: Id)
    requires s'.prefix == s.prefix
    requires s'.connections == s.connections || s'.connections == s.connections - {Name(s, c)}
    ensures forall d :: d != c ==> InMap(s', d) == InMap(s, d)
    ensures s'.connections == s.connections ==> InMap(s', c) == InMap(s, c)
    ensures s'.connections == s.connections - {Name(s, c)} ==> !InMap(s', c)
    ensures forall d :: InMap(s', d) ==> InMap(s, d)
  {
    forall d | d != c && Name(s, d) == Name(s, c) ensures false { Names.ConnNameInjective(s.prefix, d, c); }
  }

  lemma StaticKept(s: State, s': State)
    requires StaticOk(s) && SameFrame(s, s') && s'.held <= s.held
    requires s'.connections.Keys <= s.connections.Keys
    requires forall nm :: nm in s'.connections ==> s'.connections[nm] == s.connections[nm]
    ensures StaticOk(s')
  {
    hide Names.ConnName;
  }

  /** A step that concerns loops l and m and connection c only. */
  ghost predicate Local(s: State, s': State, l: nat, m: nat, c: Id) {
    && SameFrame(s, s') && s'.held == s.held
    && (s'.connections == s.connections || s'.connections == s.connections - {Name(s, c)})
    && l in s.loops && m in s.loops && c in s.conns
    && (forall x :: x in s.loops && x != l && x != m ==> s'.loops[x] == s.loops[x])
    && (forall d :: d in s.conns && d != c ==> s'.conns[d] == s.conns[d])
    && s'.conns[c].fd == s.conns[c].fd && s'.conns[c].loop == s.conns[c].loop
  }

  ghost predicate LoopFits(s: State, s': State, x: nat, c: Id)
    requires SameFrame(s, s') && x in s.loops && c in s.conns
  {
    && LoopOk(s'.loops[x]) && KnownOk(s.conns.Keys, s'.loops[x])
    && (forall d :: d in s.conns && d != c ==> Seen(s'.loops[x], d) == Seen(s.loops[x], d))
    && (forall d :: d in s.conns && HoldsRef(s'.loops[x], d) ==> Alive(s, d))
    && PlaceOk(Seen(s'.loops[x], c), x == s.conns[c].loop, x == s.base)
  }

  lemma LocalRefs(s: State, s': State, l: nat, m: nat, c: Id)
    requires Local(s, s', l, m, c)
    requires LoopFits(s, s', l, c) && LoopFits(s, s', m, c)
    ensures RefsKept(s, s')
  {
    hide PlaceOk, Seen, InMap, HoldsRef, LoopOk, KnownOk, Alive;
    MapAfter(s, s', c);
    MapIsAlive(s);
  }

  lemma LocalUntouched(s: State, s': State, l: nat, m: nat, c: Id, d: Id)
    requires Local(s, s', l, m, c) && d in s.conns && d != c
    requires LoopFits(s, s', l, c) && LoopFits(s, s', m, c)
    ensures Untouched(s, s', d)
  {
    hide PlaceOk, Seen, InMap, HoldsRef, LoopOk, KnownOk, Alive;
    MapAfter(s, s', c);
  }

  lemma LocalTouched(s: State, s': State, l: nat, m: nat, c: Id)
    requires Local(s, s', l, m, c) && ConnInv(s, c)
    requires LoopFits(s, s', l, c) && LoopFits(s, s', m, c)
    requires ConnOk(s'.conns[c], Seen(s'.loops[s.conns[c].loop], c), Seen(s'.loops[s.base], c),
                    s.conns[c].loop == s.base, InMap(s', c))
    ensures ConnInv(s', c)
  {
    hide ConnOk, PlaceOk, Seen, InMap, HoldsRef, LoopOk, KnownOk, Alive;
    forall x | x in s'.loops ensures PlaceOk(Seen(s'.loops[x], c), x == s'.conns[c].loop, x == s'.base) {
      if x != l && x != m { assert s'.loops[x] == s.loops[x]; }
    }
  }

  lemma LocalKeepsInv(s: State, s': State, l: nat, m: nat, c: Id)
    requires Inv(s) && Local(s, s', l, m, c)
    requires LoopFits(s, s', l, c) && LoopFits(s, s', m, c)
    requires ConnOk(s'.conns[c], Seen(s'.loops[s.conns[c].loop], c), Seen(s'.loops[s.base], c),
                    s.conns[c].loop == s.base, InMap(s', c))
    ensures Inv(s')
  {
    hide ConnOk, ConnInv, PlaceOk, Seen, InMap, HoldsRef, LoopOk, KnownOk, StaticOk, FdsOk, Alive, RefsKept,
         Untouched;
    StaticKept(s, s');
    LocalRefs(s, s', l, m, c);
    AliveKept(s, s');
    LocalTouched(s, s', l, m, c);
    forall d | d in s.conns ensures ConnInv(s', d) {
      if d != c {
        LocalUntouched(s, s', l, m, c, d);
        ConnUntouched(s, s', d);
      }
    }
  }

  /** The facts of the invariant about one loop and one connection. */
  lemma Parts(s: State, l: nat, c: Id)
    requires Inv(s)
    ensures StaticOk(s) && s.base in s.loops
    ensures l in s.loops ==> LoopOk(s.loops[l]) && KnownOk(s.conns.Keys, s.loops[l])
    ensures c in s.conns ==> ConnInv(s, c)
  {
    hide ConnInv, LoopOk, KnownOk, FdsOk;
  }

  /** The references a loop keeps after a step of its queue protocol. */
  lemma RefsAfter(s: State, l: nat, a: L.Step<Fn>, lp': Loop)
    requires l in s.loops && L.Inv(s.loops[l].el) && L.Enabled(s.loops[l].el, a)
    requires lp'.el == L.Apply(s.loops[l].el, a)
    requires lp'.guard == s.loops[l].guard || (forall d :: lp'.guard == Some(d) && d in s.conns ==> Alive(s, d))
    requires a.OwnerPush? || a.OtherPush? ==> forall d :: d in s.conns && Strong(a.f, d) ==> Alive(s, d)
    ensures forall d :: d in s.conns && HoldsRef(lp', d) ==> Alive(s, d)
  {
    MapIsAlive(s);
    hide Alive, InMap;
    var el, el' := s.loops[l].el, lp'.el;
    forall d | d in s.conns && HoldsRef(lp', d) ensures Alive(s, d) {
      if lp'.guard == Some(d) {
        if lp'.guard == s.loops[l].guard { assert HoldsRef(s.loops[l], d); }
      } else if exists i :: 0 <= i < |el'.batch| && Strong(el'.batch[i], d) {
        var i :| 0 <= i < |el'.batch| && Strong(el'.batch[i], d);
        assert el'.batch == el.batch || el'.batch == el.pending || el'.batch == [];
        assert HoldsRef(s.loops[l], d);
      } else {
        var i :| 0 <= i < |el'.pending| && Strong(el'.pending[i], d);
        if i < |el.pending| {
          assert el'.pending[i] == el.pending[i];
          assert HoldsRef(s.loops[l], d);
        }
      }
    }
  }

  // ---- steps no connection notices ----

  /** A step that touches nothing but loop l, without changing what any connection sees of it. */
  lemma Quiet(s: State, l: nat, lp': Loop)
    requires Inv(s) && l in s.loops && LoopOk(lp') && KnownOk(s.conns.Keys, lp')
    requires forall d :: d in s.conns ==> Seen(lp', d) == Seen(s.loops[l], d)
    requires forall d :: d in s.conns && HoldsRef(lp', d) ==> Alive(s, d)
    ensures Inv(OnLoop(s, l, lp'))
  {
    hide ConnInv, LoopOk, KnownOk, StaticOk, FdsOk, HoldsRef, Seen, InMap, Alive;
    var s' := OnLoop(s, l, lp');
    StaticKept(s, s');
    MapAfter(s, s', 0);
    MapIsAlive(s);
    assert RefsKept(s, s');
    AliveKept(s, s');
    forall d | d in s.conns ensures ConnInv(s', d) {
      ConnUntouched(s, s', d);
    }
  }

  lemma QuietStepKeepsInv(s: State, l: nat, a: L.Step<Fn>)
    requires Inv(s) && l in s.loops && L.Enabled(s.loops[l].el, a) && QuietStep(a)
    requires a.OwnerWrite? || a.OtherWrite? || (Free(s.loops[l]) && (a.StartPass? ==> s.loops[l].active == []))
    ensures Inv(DoEl(s, l, a))
  {
    hide ConnInv, LoopOk, StaticOk, FdsOk, HoldsRef, Seen, InMap, Alive, L.Apply, L.Enabled, L.Inv, R.Consistent;
    Parts(s, l, 0);
    var lp := s.loops[l];
    var lp' := lp.(el := L.Apply(lp.el, a));
    QuietLoop(lp, a, lp');
    LoopParts(lp);
    RefsAfter(s, l, a, lp');
    forall d | d in s.conns ensures Seen(lp', d) == Seen(lp, d) { QuietView(lp, a, lp', d); }
    Quiet(s, l, lp');
  }

  lemma LoopParts(lp: Loop)
    requires LoopOk(lp)
    ensures L.Inv(lp.el) && R.Consistent(lp.poller) && lp.el.pc != L.Outside
    ensures lp.k != [] ==> L.InCallback(lp.el)
  {
    hide L.Inv, R.Consistent;
  }

  lemma FinishKeepsInv(s: State, l: nat)
    requires Inv(s) && CanFinish(s, l)
    ensures Inv(OnLoop(s, l, s.loops[l].(guard := None)))
  {
    hide ConnInv, StaticOk, FdsOk, InMap, Alive, L.Inv, R.Consistent, WorkOf;
    Parts(s, l, 0);
    MapIsAlive(s);
    var lp := s.loops[l];
    var lp' := lp.(guard := None);
    forall d | HoldsRef(lp', d) ensures HoldsRef(lp, d) {}
    assert LoopOk(lp') && Work(lp') == Work(lp);
    hide HoldsRef, LoopOk, Work;
    forall d | d in s.conns ensures Seen(lp', d) == Seen(lp, d) { SameView(lp, lp', d); }
    Quiet(s, l, lp');
  }

  lemma UserEndKeepsInv(s: State, l: nat)
    requires Inv(s) && CanUserPush(s, l)
    ensures Inv(OnLoop(s, l, s.loops[l].(k := s.loops[l].k[1..])))
  {
    hide Inv, ConnInv, LoopOk, StaticOk, FdsOk, HoldsRef, InMap, Alive, Seen, KnownOk;
    Parts(s, l, 0);
    MapIsAlive(s);
    var lp := s.loops[l];
    var lp' := lp.(k := lp.k[1..]);
    SetK(lp, lp.k[1..], lp');
    UserEndSeen(lp, lp');
    KnownTail(lp, s.conns.Keys);
    Quiet(s, l, lp');
  }

  /** User callbacks are not counted. */
  lemma UserEndSeen(lp: Loop, lp': Loop)
    requires lp.k != [] && lp.k[0] == User && lp' == lp.(k := lp.k[1..])
    ensures Seen(lp', lp.cur) == Seen(lp, lp.cur)
  {
    hide Counts, Work, WorkOf, Pinned, InActive, OpCounts.Total;
    WorkSame(lp, lp');
    PinSame(lp, lp');
    ActSame(lp, lp');
    UserCounts(lp.k);
    SameShape(ViewOf(lp, lp.cur), ViewOf(lp', lp.cur));
  }

  lemma UserCounts(k: seq<Op>)
    requires k != [] && k[0] == User
    ensures Counts(k[1..]) == Counts(k)
    ensures k[1..] == [] ==> Counts(k).Total() == 0
  {
    hide Counts, One, OpCounts.Plus, OpCounts.Total;
    assert k == [User] + k[1..];
    CountsNext(User, [], k[1..]);
    UserPlus(Counts(k[1..]));
    NoCounts(k);
  }

  lemma SameShape(v: LoopView, v': LoopView)
    requires v' == v.(k := v'.k, pin := v'.pin) && Counts(v'.k) == Counts(v.k)
    requires v'.pin == v.pin || Counts(v.k).Total() == 0
    ensures ShapeOf(v') == ShapeOf(v)
  {
    hide Counts, OpCounts.Total;
  }

  lemma PinSame(lp: Loop, lp': Loop)
    requires lp'.el == lp.el && lp'.guard == lp.guard
    ensures forall d :: Pinned(lp', d) == Pinned(lp, d)
  {
  }

  lemma PlaceAt(s: State, l: nat, c: Id)
    requires c in s.conns && ConnInv(s, c) && l in s.loops
    ensures PlaceOk(Seen(s.loops[l], c), l == s.conns[c].loop, l == s.base)
  {
    hide ConnOk, PlaceOk, Seen;
  }

  /** The views the invariant speaks of are in order for the pure lemmas. */
  lemma Views(s: State, c: Id)
    requires c in s.conns && ConnInv(s, c)
    ensures s.conns[c].loop in s.loops && s.base in s.loops
    ensures var l, io, ba := s.conns[c].loop, Seen(s.loops[s.conns[c].loop], c), Seen(s.loops[s.base], c);
            && Sane(io, ba, l == s.base) && ConnOk(s.conns[c], io, ba, l == s.base, InMap(s, c))
            && PlaceOk(io, true, l == s.base) && PlaceOk(ba, l == s.base, true)
  {
    hide ConnOk, PlaceOk, Seen, InMap;
    PlaceAt(s, s.conns[c].loop, c);
    PlaceAt(s, s.base, c);
  }

  lemma KnownTail(lp: Loop, ids: set<Id>)
    requires KnownOk(ids, lp) && lp.k != []
    ensures KnownOk(ids, lp.(k := lp.k[1..]))
  {
    forall op | op in lp.k[1..] ensures op in lp.k {}
  }

  /** A functor that is no connection's. */
  lemma UserFunctorKeepsInv(s: State, l: nat, a: L.Step<Fn>)
    requires Inv(s) && l in s.loops && L.Enabled(s.loops[l].el, a)
    requires a == L.OwnerPush(UserFn) || a == L.OtherPush(UserFn)
    ensures Inv(DoEl(s, l, a))
  {
    hide ConnInv, LoopOk, KnownOk, StaticOk, FdsOk, HoldsRef, Seen, InMap, Alive, L.Enabled, L.Inv, R.Consistent,
         Work, WorkOf;
    Parts(s, l, 0);
    var lp := s.loops[l];
    var lp' := lp.(el := L.Apply(lp.el, a));
    PushLoop(lp, a, lp');
    KnownPush(lp, a, lp', s.conns.Keys);
    LoopParts(lp);
    RefsAfter(s, l, a, lp');
    forall d | d in s.conns ensures Seen(lp', d) == Seen(lp, d) { PushView(lp, UserFn, lp', d); }
    Quiet(s, l, lp');
  }

  lemma HoldKeepsInv(s: State, held: set<Id>)
    requires Inv(s) && forall c :: c in held ==> Alive(s, c)
    ensures Inv(s.(held := held))
  {
    hide LoopOk, KnownOk, FdsOk, HoldsRef, Seen, InMap, Alive, ConnInv;
    var s' := s.(held := held);
    assert held <= s.conns.Keys by { forall c | c in held ensures c in s.conns { AliveKnown(s, c); } }
    MapAfter(s, s', 0);
    MapIsAlive(s);
    assert RefsKept(s, s');
    AliveKept(s, s');
    forall d | d in s.conns ensures ConnInv(s', d) {
      ConnUntouched(s, s', d);
    }
  }

  lemma AliveKnown(s: State, c: Id)
    requires Alive(s, c)
    ensures c in s.conns
  {
  }

  // ---- polling and dispatching ----

  /** A channel the kernel holds belongs to a connection of this loop and is registered; in a calm
      life, while the loop's thread has no handler at hand, the connection is up. */
  lemma PolledIsAdded(s: State, l: nat, d: Id)
    requires Inv(s) && l in s.loops && d in s.conns && Free(s.loops[l])
    requires d in s.loops[l].poller.chans
    requires s.loops[l].poller.chans[d].fd in s.loops[l].poller.kernel
    requires s.loops[l].poller.kernel[s.loops[l].poller.chans[d].fd].ptr == d
    ensures s.conns[d].loop == l && s.loops[l].poller.chans[d].index == R.Added
    ensures !s.conns[d].wild ==> |s.conns[d].log| == 2
  {
    hide Inv, ConnInv, StaticOk, FdsOk, KnownOk, InMap, LoopOk, Seen;
    Parts(s, l, d);
    LoopParts(s.loops[l]);
    var p := s.loops[l].poller;
    assert p.channels[p.chans[d].fd] == d;
    assert R.Agrees(p, d);
    assert p.chans[d].index == R.Added;
    FreeSeen(s.loops[l], d);
    SeenParts(s.loops[l], d);
    hide R.Agrees, R.Consistent;
    ConnOfView(s, l, d);
  }

  /** A registered channel tells how far its connection is. */
  lemma ConnOfView(s: State, l: nat, d: Id)
    requires d in s.conns && l in s.loops && ConnInv(s, d)
    requires var v := Seen(s.loops[l], d); v.chan.Some? && v.chan.value.index == R.Added
    ensures s.conns[d].loop == l
    ensures !s.conns[d].wild && Seen(s.loops[l], d).ops.Total() == 0 ==> |s.conns[d].log| == 2
  {
    hide Seen, InMap, ConnOk, PlaceOk;
    Views(s, d);
    PlaceAt(s, l, d);
    assert s.conns[d].loop == l by { OwnChannel(Seen(s.loops[l], d), l == s.conns[d].loop, l == s.base); }
    if !s.conns[d].wild && Seen(s.loops[l], d).ops.Total() == 0 {
      AddedIsUp(s.conns[d], Seen(s.loops[l], d), Seen(s.loops[s.base], d), l == s.base, InMap(s, d));
    }
  }

  lemma OwnChannel(v: Shape, own: bool, base: bool)
    requires PlaceOk(v, own, base) && v.chan.Some?
    ensures own
  {
  }

  lemma AddedIsUp(cn: Conn, io: Shape, ba: Shape, same: bool, inMap: bool)
    requires ConnOk(cn, io, ba, same, inMap) && !cn.wild
    requires io.chan.Some? && io.chan.value.index == R.Added && io.ops.Total() == 0
    ensures |cn.log| == 2
  {
    hide S.Inv, InOrder, PinOk, RawOk, TallyOf;
    TallyInOrder(cn.log);
  }

  lemma PollKeepsInv(s: State, l: nat, wake: bool, active: seq<Active>)
    requires Inv(s) && CanPoll(s, l, wake, active)
    ensures Inv(DoPoll(s, l, wake, active))
  {
    hide Inv, Reported;
    QuietStepKeepsInv(s, l, L.PollReturns(wake));
    var q := DoEl(s, l, L.PollReturns(wake));
    assert Reported(q.loops[l], active) by { ReportedBy(s.loops[l], q.loops[l], active); }
    ActiveSet(q, l, active);
    assert OnLoop(q, l, q.loops[l].(active := active)) == DoPoll(s, l, wake, active);
  }

  lemma ReportedBy(lp: Loop, lp': Loop, active: seq<Active>)
    requires Reported(lp, active) && lp'.poller == lp.poller
    ensures Reported(lp', active)
  {
  }

  /** Filling the active list. */
  lemma ActiveSet(s: State, l: nat, active: seq<Active>)
    requires Inv(s) && l in s.loops && Free(s.loops[l]) && s.loops[l].el.pc == L.Dispatch
    requires Reported(s.loops[l], active)
    ensures Inv(OnLoop(s, l, s.loops[l].(active := active)))
  {
    hide ConnInv, LoopOk, KnownOk, StaticOk, FdsOk, InMap, Alive, HoldsRef, Seen, Reported, RefsKept;
    var lp := s.loops[l];
    var lp' := lp.(active := active);
    var s' := OnLoop(s, l, lp');
    Parts(s, l, 0);
    ActiveLoop(lp, active, s.conns.Keys);
    SameRefs(lp, lp');
    StaticKept(s, s');
    SameRefsKept(s, s');
    AliveKept(s, s');
    forall d | d in s.conns ensures ConnInv(s', d) {
      ActiveView(s, l, active, d);
    }
  }

  lemma SameRefsKept(s: State, s': State)
    requires SameFrame(s, s') && s'.connections == s.connections && s'.held == s.held
    requires forall x, d :: x in s.loops && HoldsRef(s'.loops[x], d) ==> HoldsRef(s.loops[x], d)
    ensures RefsKept(s, s')
  {
    hide Alive, InMap, HoldsRef;
    MapIsAlive(s);
    MapAfter(s, s', 0);
  }

  lemma ActiveLoop(lp: Loop, active: seq<Active>, ids: set<Id>)
    requires LoopOk(lp) && KnownOk(ids, lp) && lp.el.pc == L.Dispatch && Reported(lp, active)
    ensures LoopOk(lp.(active := active)) && KnownOk(ids, lp.(active := active))
  {
    hide L.Inv, R.Consistent, KnownFns;
    WorkSame(lp, lp.(active := active));
    hide Work;
  }

  lemma ActiveView(s: State, l: nat, active: seq<Active>, d: Id)
    requires Inv(s) && l in s.loops && Free(s.loops[l]) && s.loops[l].el.pc == L.Dispatch
    requires Reported(s.loops[l], active)
    requires d in s.conns
    ensures ConnInv(OnLoop(s, l, s.loops[l].(active := active)), d)
  {
    hide Inv, LoopOk, KnownOk, StaticOk, FdsOk, InMap, Alive, HoldsRef, ConnOk, Seen, Reported, PlaceOk;
    var lp := s.loops[l];
    var lp' := lp.(active := active);
    var s' := OnLoop(s, l, lp');
    var v, v' := Seen(lp, d), Seen(lp', d);
    ActiveFacts(s, l, active, d);
    MapAfter(s, s', 0);
    assert InMap(s', d) == InMap(s, d);
    Parts(s, l, d);
    var cn := s.conns[d];
    ConnAct(cn, Seen(s.loops[cn.loop], d), Seen(s'.loops[cn.loop], d),
            Seen(s.loops[s.base], d), Seen(s'.loops[s.base], d), cn.loop == s.base, InMap(s, d));
    forall x | x in s'.loops ensures PlaceOk(Seen(s'.loops[x], d), x == cn.loop, x == s.base) {
      assert PlaceOk(Seen(s.loops[x], d), x == cn.loop, x == s.base);
      if x == l {
        PlaceAct(v, v', x == cn.loop, x == s.base);
      } else {
        assert s'.loops[x] == s.loops[x];
      }
    }
  }

  lemma ActiveFacts(s: State, l: nat, active: seq<Active>, d: Id)
    requires Inv(s) && l in s.loops && Free(s.loops[l]) && Reported(s.loops[l], active) && d in s.conns
    ensures var v, v' := Seen(s.loops[l], d), Seen(s.loops[l].(active := active), d);
            && v' == v.(act := v'.act) && v.ops.Total() == 0
            && (v'.act ==> s.conns[d].loop == l && v.chan.Some? && v.chan.value.index == R.Added
                           && (!s.conns[d].wild ==> |s.conns[d].log| == 2))
  {
    hide Inv, WorkOf;
    WorkSame(s.loops[l], s.loops[l].(active := active));
    FreeSeen(s.loops[l], d);
    hide Work, Counts;
    if InActive(s.loops[l].(active := active), d) { PolledIsAdded(s, l, d); }
  }

  lemma PlaceAct(v: Shape, v': Shape, own: bool, base: bool)
    requires PlaceOk(v, own, base) && v' == v.(act := v'.act) && (v'.act ==> own)
    ensures PlaceOk(v', own, base)
  {
  }

  lemma ConnAct(cn: Conn, io: Shape, io': Shape, ba: Shape, ba': Shape, same: bool, inMap: bool)
    requires ConnOk(cn, io, ba, same, inMap)
    requires io' == io.(act := io'.act) && ba' == ba.(act := ba'.act)
    requires io'.act ==> io.act || (io.ops.Total() == 0 && io.chan.Some? && io.chan.value.index == R.Added
                                    && (!cn.wild ==> |cn.log| == 2))
    ensures ConnOk(cn, io', ba', same, inMap)
  {
    hide S.Inv, TallyOf, InOrder, OpCounts.Total;
  }

  lemma WorkSame(lp: Loop, lp': Loop)
    requires lp'.el == lp.el
    ensures Work(lp') == Work(lp)
  {
  }
}
