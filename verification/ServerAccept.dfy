/** TcpServer::newConnection keeps the server's invariant: the one step that adds a connection. */
module ServerAccept {
  import opened Options
  import opened Servers
  import opened ServerInvariant
  import opened ServerLoops
  import opened ServerConns
  import opened ServerSteps
  import opened ServerReferences
  import opened ServerHandlers
  import R = Registration
  import L = LoopProtocol
  import S = Streams
  import T = ThreadPools
  import Names

  /** No loop has anything to do with an id not given out yet. */
  lemma UnknownSeen(lp: Loop, c: Id, ids: set<Id>)
    requires KnownOk(ids, lp) && c !in ids
    ensures var v := Seen(lp, c); v.work == NO_WORK && v.ops.Total() == 0 && !v.pin && !v.act && v.chan == None
  {
    hide Work, WorkOf, Counts, OpCounts.Total, Seen, KnownFns, KnownActive, InActive, KFor;
    UnknownWork(Work(lp), c, ids);
    UnknownOps(lp, c, ids);
    UnknownActive(lp, c, ids);
    SeenParts(lp, c);
    SeenOps(lp, c);
  }

  lemma UnknownActive(lp: Loop, c: Id, ids: set<Id>)
    requires KnownActive(lp.active, ids) && c !in ids
    ensures !InActive(lp, c)
  {
  }

  lemma UnknownWork(w: seq<Fn>, c: Id, ids: set<Id>)
    requires KnownFns(w, ids) && c !in ids
    ensures WorkOf(w, c) == NO_WORK
  {
    forall f | f in w ensures !On(f, c) {}
  }

  lemma UnknownOps(lp: Loop, c: Id, ids: set<Id>)
    requires KnownOk(ids, lp) && c !in ids
    ensures Counts(KFor(lp, c)).Total() == 0
  {
    hide Work;
    forall op | op in KFor(lp, c) ensures op == User {
      assert lp.cur == c && op in lp.k;
    }
    OnlyUser(KFor(lp, c));
  }

  lemma OnlyUser(k: seq<Op>)
    requires forall op :: op in k ==> op == User
    ensures Counts(k).Total() == 0
  {
    assert Est !in k && Up !in k && Close !in k && Down !in k && Report !in k && Erase !in k;
    assert Destroy !in k && Remove !in k && Read !in k && Write !in k && Drain !in k;
  }

  lemma KnownMore(ids: set<Id>, more: set<Id>, lp: Loop)
    requires KnownOk(ids, lp) && ids <= more
    ensures KnownOk(more, lp)
  {
    hide Work;
  }

  /** The chosen loop with the new channel. */
  function WithChannel(lp: Loop, c: Id, fd: int): Loop
    requires c !in lp.poller.chans
  {
    lp.(poller := R.Create(lp.poller, c, fd))
  }

  lemma ChannelMade(lp: Loop, c: Id, fd: int, ids: set<Id>)
    requires LoopOk(lp) && KnownOk(ids, lp) && c !in ids && c !in lp.poller.chans
    ensures var lq := WithChannel(lp, c, fd);
      && LoopOk(lq) && KnownOk(ids + {c}, lq) && Work(lq) == Work(lp)
      && (forall d :: d != c ==> Seen(lq, d) == Seen(lp, d))
      && Seen(lq, c) == Seen(lp, c).(chan := Some(R.Chan(fd, R.NONE_EVENT, R.New)))
      && (forall d :: HoldsRef(lq, d) == HoldsRef(lp, d))
  {
    hide LoopOk, KnownOk, Seen, Work, HoldsRef, R.Consistent;
    LoopParts(lp);
    R.CreateConsistent(lp.poller, c, fd);
    var lq := WithChannel(lp, c, fd);
    SetPoller(lp, lq.poller, lq);
    KnownMore(ids, ids + {c}, lp);
    KnownKeys(lp, ids);
    KnownPoller(lp, lq.poller, ids + {c});
    forall d | d != c ensures Seen(lq, d) == Seen(lp, d) { ChanSeen(lp, d); }
  }

  /** The base loop keeps the connection for itself: connectEstablished is at hand. */
  lemma BornHere(lp: Loop, c: Id, ids: set<Id>)
    requires LoopOk(lp) && KnownOk(ids, lp) && c in ids && Free(lp) && lp.el.pc == L.Dispatch
    ensures var lp' := lp.(k := [Est], cur := c);
      && LoopOk(lp') && KnownOk(ids, lp')
      && (forall d :: d != c ==> Seen(lp', d) == Seen(lp, d))
      && Seen(lp', c) == Seen(lp, c).(ops := One(Est), pin := Seen(lp', c).pin)
      && (forall d :: HoldsRef(lp', d) == HoldsRef(lp, d))
  {
    var lp' := lp.(k := [Est], cur := c);
    SameRefs(lp, lp');
    WorkSame(lp, lp');
    ActSame(lp, lp');
    CountsOne(Est);
    hide Work, WorkOf, R.Consistent, L.Inv, Counts, One, HoldsRef, InActive, Pinned, Seen;
    SeenParts(lp, c);
    SeenParts(lp', c);
    SeenOps(lp', c);
    forall d | d != c ensures Seen(lp', d) == Seen(lp, d) { SameView(lp, lp', d); }
  }

  /** The chosen loop after the step. */
  function Chosen(lp: Loop, c: Id, fd: int, here: bool): Loop
    requires c !in lp.poller.chans
  {
    var lq := WithChannel(lp, c, fd);
    if here then lq.(k := [Est], cur := c) else lq.(el := L.Apply(lq.el, L.OtherPush(EstablishFn(c))))
  }

  lemma ChosenFits(lp: Loop, c: Id, fd: int, here: bool, ids: set<Id>)
    requires LoopOk(lp) && KnownOk(ids, lp) && c !in ids && c !in lp.poller.chans
    requires here ==> Free(lp) && lp.el.pc == L.Dispatch
    ensures var lp', v := Chosen(lp, c, fd, here), Seen(Chosen(lp, c, fd, here), c);
      && LoopOk(lp') && KnownOk(ids + {c}, lp')
      && (forall d :: d != c ==> Seen(lp', d) == Seen(lp, d))
      && v.chan == Some(R.Chan(fd, R.NONE_EVENT, R.New)) && !v.act
      && v.work == NO_WORK.(est := v.work.est) && v.ops.Total() == v.ops.est && v.work.est + v.ops.est == 1
      && (forall d :: d != c && HoldsRef(lp', d) ==> HoldsRef(lp, d))
  {
    hide LoopOk, KnownOk, Seen, Work, HoldsRef, R.Consistent, L.Inv, OpCounts.Total, One, WithChannel;
    UnknownSeen(lp, c, ids);
    ChannelMade(lp, c, fd, ids);
    var lq, lp' := WithChannel(lp, c, fd), Chosen(lp, c, fd, here);
    SameQueue(lp, c, fd);
    if here {
      BornHere(lq, c, ids + {c});
      EstShape(Seen(lp', c).ops);
    } else {
      var a := L.OtherPush(EstablishFn(c));
      PushLoop(lq, a, lp');
      KnownPush(lq, a, lp', ids + {c});
      PushedView(lq, EstablishFn(c), lp', c);
      ZeroTotal(Seen(lp', c).ops);
      forall d | d != c ensures Seen(lp', d) == Seen(lp, d) { PushView(lq, EstablishFn(c), lp', d); }
      forall d | d != c && HoldsRef(lp', d) ensures HoldsRef(lp, d) { PushedRef(lq, lp', EstablishFn(c), d); }
    }
  }

  lemma SameQueue(lp: Loop, c: Id, fd: int)
    requires c !in lp.poller.chans
    ensures var lq := WithChannel(lp, c, fd); lq.el == lp.el && lq.k == lp.k && lq.guard == lp.guard
  {
  }

  lemma EstShape(o: OpCounts)
    requires o == One(Est)
    ensures o.Total() == o.est == 1
  {
  }

  lemma ZeroTotal(o: OpCounts)
    requires o.Total() == 0
    ensures o.est == 0
  {
  }

  lemma PushedRef(lp: Loop, lp': Loop, f: Fn, d: Id)
    requires lp'.el.batch == lp.el.batch && lp'.el.pending == lp.el.pending + [f] && lp'.guard == lp.guard
    requires !On(f, d) && HoldsRef(lp', d)
    ensures HoldsRef(lp, d)
  {
    if exists i :: 0 <= i < |lp'.el.pending| && Strong(lp'.el.pending[i], d) {
      var i :| 0 <= i < |lp'.el.pending| && Strong(lp'.el.pending[i], d);
      assert lp.el.pending[i] == lp'.el.pending[i];
    }
  }

  // ---- the whole state ----

  /** What DoAccept makes, in one equation. */
  function Accepted(s: State, io: nat, fd: int, lp': Loop): State {
    var c := s.nextId;
    OnLoop(s, io, lp').(next := T.Advance(|s.pool|, s.next), nextId := c + 1,
                        conns := s.conns[c := Conn(io, fd, S.FRESH, [], false)],
                        connections := s.connections[Name(s, c) := c])
  }

  lemma AcceptedStatic(s: State, io: nat, fd: int, lp': Loop)
    requires StaticOk(s) && io in s.loops
    ensures StaticOk(Accepted(s, io, fd, lp'))
  {
    hide Names.ConnName;
  }

  lemma AcceptedMap(s: State, io: nat, fd: int, lp': Loop)
    ensures var s' := Accepted(s, io, fd, lp');
            InMap(s', s.nextId) && forall d :: d != s.nextId ==> InMap(s', d) == InMap(s, d)
  {
    forall d | d != s.nextId && Name(s, d) == Name(s, s.nextId) ensures false {
      Names.ConnNameInjective(s.prefix, d, s.nextId);
    }
  }

  lemma AcceptedAlive(s: State, io: nat, fd: int, lp': Loop)
    requires StaticOk(s) && io in s.loops && FdsOk(s)
    requires forall d :: d != s.nextId && HoldsRef(lp', d) ==> HoldsRef(s.loops[io], d)
    requires forall d :: Alive(s, d) ==> s.conns[d].fd != fd
    ensures FdsOk(Accepted(s, io, fd, lp'))
  {
    var s' := Accepted(s, io, fd, lp');
    AcceptedMap(s, io, fd, lp');
    hide InMap, HoldsRef, StaticOk;
    forall d | Alive(s', d) && d != s.nextId ensures Alive(s, d) {
      if !InMap(s', d) && d !in s'.held {
        var l :| l in s'.loops && HoldsRef(s'.loops[l], d);
        assert HoldsRef(s.loops[l], d);
      }
    }
  }

  lemma AcceptedOld(s: State, io: nat, fd: int, lp': Loop, d: Id)
    requires io in s.loops && d in s.conns && d != s.nextId && ConnInv(s, d) && Seen(lp', d) == Seen(s.loops[io], d)
    ensures ConnInv(Accepted(s, io, fd, lp'), d)
  {
    hide ConnOk, PlaceOk, Seen, InMap;
    var s' := Accepted(s, io, fd, lp');
    AcceptedMap(s, io, fd, lp');
    forall l | l in s'.loops ensures PlaceOk(Seen(s'.loops[l], d), l == s'.conns[d].loop, l == s'.base) {
      assert PlaceOk(Seen(s.loops[l], d), l == s.conns[d].loop, l == s.base);
    }
  }

  lemma PlaceNone(v: Shape, own: bool, base: bool)
    requires v.work == NO_WORK && v.ops.Total() == 0 && !v.act && v.chan == None
    ensures PlaceOk(v, own, base)
  {
  }

  lemma PlaceBorn(v: Shape, base: bool)
    requires v.work == NO_WORK.(est := v.work.est) && v.ops.Total() == v.ops.est
    ensures PlaceOk(v, true, base)
  {
  }

  lemma AcceptedNew(s: State, io: nat, fd: int, lp': Loop)
    requires Inv(s) && io in s.loops && fd !in s.reserved && (s.pool != [] ==> io != s.base)
    requires var v := Seen(lp', s.nextId);
      && v.chan == Some(R.Chan(fd, R.NONE_EVENT, R.New)) && !v.act
      && v.work == NO_WORK.(est := v.work.est) && v.ops.Total() == v.ops.est && v.work.est + v.ops.est == 1
    ensures ConnInv(Accepted(s, io, fd, lp'), s.nextId)
  {
    hide Inv, ConnOk, PlaceOk, Seen, InMap, KnownOk, LoopOk, OpCounts.Total;
    var c, s' := s.nextId, Accepted(s, io, fd, lp');
    AcceptedMap(s, io, fd, lp');
    Parts(s, s.base, c);
    UnknownSeen(s.loops[s.base], c, s.conns.Keys);
    BornStep(s'.conns[c], Seen(lp', c), Seen(s'.loops[s.base], c), io == s.base);
    forall l | l in s'.loops ensures PlaceOk(Seen(s'.loops[l], c), l == io, l == s.base) {
      Parts(s, l, c);
      UnknownSeen(s.loops[l], c, s.conns.Keys);
      PlaceNone(Seen(s.loops[l], c), l == io, l == s.base);
      PlaceBorn(Seen(lp', c), l == s.base);
    }
  }

  lemma PickedLoop(s: State)
    requires StaticOk(s)
    ensures s.pool == [] || s.next < |s.pool|
    ensures var io := T.Pick(s.base, s.pool, s.next);
            io in s.loops && (s.pool != [] ==> io != s.base) && (s.pool == [] ==> io == s.base)
    ensures s.nextId !in s.conns
  {
  }

  lemma AcceptKeepsInv(s: State, fd: int)
    requires Inv(s) && CanAccept(s, fd)
    ensures Inv(DoAccept(s, fd))
  {
    hide Inv, ConnInv, StaticOk, LoopOk, KnownOk, FdsOk, HoldsRef, Seen, InMap, Alive, L.Apply, OpCounts.Total,
         Chosen;
    var c, io := s.nextId, T.Pick(s.base, s.pool, s.next);
    Parts(s, io, c);
    PickedLoop(s);
    assert io == s.base ==> Free(s.loops[io]);
    var lp' := Chosen(s.loops[io], c, fd, io == s.base);
    ChosenFits(s.loops[io], c, fd, io == s.base, s.conns.Keys);
    assert DoAccept(s, fd) == Accepted(s, io, fd, lp') by { AcceptIs(s, fd); }
    AcceptedNew(s, io, fd, lp');
    AcceptedKeepsInv(s, io, fd, lp');
  }

  lemma AcceptIs(s: State, fd: int)
    requires CanAccept(s, fd)
    ensures var io := T.Pick(s.base, s.pool, s.next);
            DoAccept(s, fd) == Accepted(s, io, fd, Chosen(s.loops[io], s.nextId, fd, io == s.base))
  {
    hide Alive, L.Apply, Name, R.Create;
  }

  lemma AcceptedKeepsInv(s: State, io: nat, fd: int, lp': Loop)
    requires Inv(s) && io in s.loops && ConnInv(Accepted(s, io, fd, lp'), s.nextId)
    requires LoopOk(lp') && KnownOk(s.conns.Keys + {s.nextId}, lp')
    requires forall d :: d != s.nextId ==> Seen(lp', d) == Seen(s.loops[io], d)
    requires forall d :: d != s.nextId && HoldsRef(lp', d) ==> HoldsRef(s.loops[io], d)
    requires forall d :: Alive(s, d) ==> s.conns[d].fd != fd
    ensures Inv(Accepted(s, io, fd, lp'))
  {
    hide ConnInv, StaticOk, LoopOk, KnownOk, FdsOk, HoldsRef, Seen, InMap, Alive;
    var s' := Accepted(s, io, fd, lp');
    AcceptedStatic(s, io, fd, lp');
    AcceptedAlive(s, io, fd, lp');
    assert s'.conns.Keys == s.conns.Keys + {s.nextId};
    forall l | l in s'.loops ensures LoopOk(s'.loops[l]) && KnownOk(s'.conns.Keys, s'.loops[l]) {
      KnownMore(s.conns.Keys, s'.conns.Keys, s.loops[l]);
    }
    forall d | d in s'.conns ensures ConnInv(s', d) {
      if d != s.nextId { AcceptedOld(s, io, fd, lp', d); }
    }
  }
}
