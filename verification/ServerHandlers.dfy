/** The steps that move a connection: handlers, functors and calls keep the server's invariant.
    A step is taken apart into changes that keep it one by one. */
module ServerHandlers {
  import opened Options
  import opened Servers
  import opened ServerInvariant
  import opened ServerLoops
  import opened ServerConns
  import opened ServerSteps
  import opened ServerReferences
  import R = Registration
  import S = Streams
  import L = LoopProtocol
  import Ch = Channels
  import B = Buffers

  // ---- the output path ----

  /** The connection's stream moves; the poller hears of a changed interest. */
  function Streamed(s: State, c: Id, t: S.Tcp): State
    requires c in s.conns && s.conns[c].loop in s.loops && c in s.loops[s.conns[c].loop].poller.chans
  {
    var l := s.conns[c].loop;
    OnConn(OnLoop(s, l, s.loops[l].(poller := Synced(s.loops[l].poller, c, s.conns[c].tcp.interest, t.interest))),
           c, s.conns[c].(tcp := t))
  }

  /** What Synced leaves in the poller. */
  lemma SyncedPoller(p: R.Poller<Id>, c: Id, t: S.Tcp, t': S.Tcp)
    requires R.Consistent(p) && c in p.chans && p.chans[c].events == t.interest
    requires t.state == S.Connected || t.state == S.Disconnecting ==> p.chans[c].index == R.Added
    requires S.Inv(t) && StreamMoves(t, t')
    ensures var q := Synced(p, c, t.interest, t'.interest);
            R.Consistent(q) && q.chans == p.chans[c := p.chans[c].(events := t'.interest)]
  {
    if t'.interest != t.interest {
      assert p.chans[c].index == R.Added;
      R.ChangeConsistentIff(p, c, t'.interest);
      ChangedChans(p, c, t'.interest);
    }
  }

  lemma PollerFits(s: State, s': State, l: nat, c: Id, q: R.Poller<Id>, ch: R.Chan)
    requires Inv(s) && SameFrame(s, s') && l in s.loops && c in s.conns && s'.loops[l] == s.loops[l].(poller := q)
    requires R.Consistent(q) && c in s.loops[l].poller.chans && q.chans == s.loops[l].poller.chans[c := ch]
    requires PlaceOk(Seen(s.loops[l], c).(chan := Some(ch)), l == s.conns[c].loop, l == s.base)
    ensures LoopFits(s, s', l, c) && Seen(s'.loops[l], c) == Seen(s.loops[l], c).(chan := Some(ch))
  {
    hide Inv, ConnInv, PlaceOk, LoopOk, KnownOk, StaticOk, InMap, Alive, HoldsRef, Seen, R.Consistent;
    Parts(s, l, c);
    MapIsAlive(s);
    var lp, lp' := s.loops[l], s'.loops[l];
    SetPoller(lp, q, lp');
    KnownKeys(lp, s.conns.Keys);
    assert q.chans.Keys == lp.poller.chans.Keys;
    KnownPoller(lp, q, s.conns.Keys);
    forall d | d in s.conns && d != c ensures Seen(lp', d) == Seen(lp, d) { ChanSeen(lp, d); }
  }

  /** The stream of c becomes t, and its channel ch in the poller q. */
  lemma StreamPlaced(s: State, c: Id, t: S.Tcp, q: R.Poller<Id>, ch: R.Chan)
    requires Inv(s) && c in s.conns && s.conns[c].loop in s.loops && c in s.loops[s.conns[c].loop].poller.chans
    requires StreamMoves(s.conns[c].tcp, t) && R.Consistent(q)
    requires var p := s.loops[s.conns[c].loop].poller;
             ch == p.chans[c].(events := t.interest) && q.chans == p.chans[c := ch]
    ensures var l := s.conns[c].loop;
            Inv(OnConn(OnLoop(s, l, s.loops[l].(poller := q)), c, s.conns[c].(tcp := t)))
  {
    hide Inv, ConnInv, ConnOk, PlaceOk, LoopOk, KnownOk, LoopFits, StaticOk, InMap, Alive, Seen, R.Consistent,
         S.Inv, StreamMoves, Sane;
    var cn := s.conns[c];
    var l := cn.loop;
    Parts(s, l, c);
    Views(s, c);
    SeenParts(s.loops[l], c);
    var s' := OnConn(OnLoop(s, l, s.loops[l].(poller := q)), c, cn.(tcp := t));
    StreamStep(cn, Seen(s.loops[l], c), Seen(s.loops[s.base], c), l == s.base, InMap(s, c), t);
    PlaceChan(Seen(s.loops[l], c), Seen(s.loops[l], c).(chan := Some(ch)), l == s.base);
    PollerFits(s, s', l, c, q, ch);
    MapAfter(s, s', c);
    LocalKeepsInv(s, s', l, l, c);
  }

  lemma StreamKeepsInv(s: State, c: Id, t: S.Tcp)
    requires Inv(s) && c in s.conns && s.conns[c].loop in s.loops && c in s.loops[s.conns[c].loop].poller.chans
    requires StreamMoves(s.conns[c].tcp, t)
    ensures Inv(Streamed(s, c, t))
  {
    hide Inv, ConnInv, LoopOk, KnownOk, StaticOk, R.Consistent, Synced, S.Inv, StreamMoves;
    var cn := s.conns[c];
    var p := s.loops[cn.loop].poller;
    Parts(s, cn.loop, c);
    ChannelKnown(s, c);
    LoopParts(s.loops[cn.loop]);
    SyncedPoller(p, c, cn.tcp, t);
    StreamPlaced(s, c, t, Synced(p, c, cn.tcp.interest, t.interest), p.chans[c].(events := t.interest));
  }

  lemma ChanSeen(lp: Loop, d: Id)
    ensures Seen(lp, d).chan == if d in lp.poller.chans then Some(lp.poller.chans[d]) else None
  {
    SeenParts(lp, d);
    hide Seen;
  }

  lemma PlaceChan(v: Shape, v': Shape, base: bool)
    requires PlaceOk(v, true, base) && v' == v.(chan := v'.chan)
    ensures PlaceOk(v', true, base)
  {
  }

  // ---- pushes ----

  /** A loop that was handed a functor of c. */
  lemma PushFits(s: State, s': State, m: nat, a: L.Step<Fn>, c: Id)
    requires Inv(s) && SameFrame(s, s') && m in s.loops && c in s.conns && Alive(s, c)
    requires (a.OwnerPush? || a.OtherPush?) && L.Enabled(s.loops[m].el, a) && On(a.f, c)
    requires s'.loops[m] == s.loops[m].(el := L.Apply(s.loops[m].el, a))
    requires PlaceOk(Seen(s.loops[m], c).(work := WorkPlus(Seen(s.loops[m], c).work, a.f, c)), m == s.conns[c].loop,
                     m == s.base)
    ensures LoopFits(s, s', m, c)
    ensures Seen(s'.loops[m], c) == Seen(s.loops[m], c).(work := WorkPlus(Seen(s.loops[m], c).work, a.f, c))
  {
    hide Inv, ConnInv, ConnOk, PlaceOk, LoopOk, KnownOk, StaticOk, InMap, Alive, HoldsRef, Seen, L.Enabled, L.Inv,
         R.Consistent, Work;
    Parts(s, m, c);
    var lp := s.loops[m];
    LoopParts(lp);
    var lp' := s'.loops[m];
    PushLoop(lp, a, lp');
    KnownPush(lp, a, lp', s.conns.Keys);
    RefsAfter(s, m, a, lp');
    hide L.Apply;
    PushedView(lp, a.f, lp', c);
    forall d | d in s.conns && d != c ensures Seen(lp', d) == Seen(lp, d) { PushView(lp, a.f, lp', d); }
  }

  /** A functor of a live connection that is up is queued on its loop, from any thread. */
  lemma PushKeepsInv(s: State, c: Id, a: L.Step<Fn>)
    requires Inv(s) && c in s.conns && Alive(s, c) && s.conns[c].loop in s.loops
    requires (a.OwnerPush? || a.OtherPush?) && L.Enabled(s.loops[s.conns[c].loop].el, a) && On(a.f, c)
    requires Raw(a.f, c) || a.f == ForceCloseFn(c) || a.f.NoticeFn?
    requires Raw(a.f, c) ==> s.conns[c].tcp.state == S.Connected || s.conns[c].tcp.state == S.Disconnecting
    requires a.f == ShutdownFn(c) ==> s.conns[c].tcp.state == S.Disconnecting
    ensures Inv(DoEl(s, s.conns[c].loop, a))
  {
    hide Inv, ConnInv, ConnOk, PlaceOk, LoopOk, KnownOk, LoopFits, StaticOk, InMap, Alive, Seen, L.Apply, L.Enabled;
    var cn := s.conns[c];
    var l := cn.loop;
    Parts(s, l, c);
    Views(s, c);
    var s' := DoEl(s, l, a);
    var v := Seen(s.loops[l], c);
    PushStep(cn, v, Seen(s.loops[s.base], c), l == s.base, InMap(s, c), a.f, c);
    PlacePush(v, v.(work := WorkPlus(v.work, a.f, c)), l == s.base, a.f, c);
    PushFits(s, s', l, a, c);
    MapAfter(s, s', c);
    LocalKeepsInv(s, s', l, l, c);
  }

  lemma PlacePush(v: Shape, v': Shape, base: bool, f: Fn, c: Id)
    requires PlaceOk(v, true, base) && v' == v.(work := WorkPlus(v.work, f, c)) && !f.RemoveFn?
    ensures PlaceOk(v', true, base)
  {
  }

  /** An output handler on the loop's thread: the stream moves, then the notice is queued. */
  lemma OutputKeepsInv(s: State, l: nat, c: Id, o: S.Outcome)
    requires Inv(s) && l in s.loops && c in s.conns && s.conns[c].loop == l && Alive(s, c)
    requires L.InCallback(s.loops[l].el) && !s.loops[l].el.owes && c in s.loops[l].poller.chans
    requires StreamMoves(s.conns[c].tcp, o.tcp)
    ensures Inv(OnConn(OnLoop(s, l, Output(s.loops[l], c, s.conns[c].tcp.interest, o)), c, s.conns[c].(tcp := o.tcp)))
  {
    hide Inv, Alive, S.Inv, Synced;
    var s' := OnConn(OnLoop(s, l, Output(s.loops[l], c, s.conns[c].tcp.interest, o)), c, s.conns[c].(tcp := o.tcp));
    var t := Streamed(s, c, o.tcp);
    StreamKeepsInv(s, c, o.tcp);
    if o.notices == [] {
      assert s' == t;
    } else {
      AliveStreamed(s, c, o.tcp);
      var a := L.OwnerPush(NoticeFn(c, o.notices[0]));
      PushKeepsInv(t, c, a);
      assert s' == DoEl(t, l, a);
    }
  }

  lemma AliveStreamed(s: State, c: Id, t: S.Tcp)
    requires c in s.conns && s.conns[c].loop in s.loops && c in s.loops[s.conns[c].loop].poller.chans && Alive(s, c)
    ensures Alive(Streamed(s, c, t), c)
  {
    hide Synced, Name;
    var s' := Streamed(s, c, t);
    MapAfter(s, s', c);
    hide InMap;
    if !InMap(s, c) && c !in s.held {
      var l :| l in s.loops && HoldsRef(s.loops[l], c);
      SameRefs(s.loops[l], s'.loops[l]);
      assert HoldsRef(s'.loops[l], c);
    }
  }

  // ---- calls ----

  lemma SendMoves(cfg: S.Config, t: S.Tcp, msg: seq<B.Byte>, r: S.WriteResult)
    requires S.Inv(t) && t.state != S.Connecting && S.Fits(t, |msg|, r)
    ensures StreamMoves(t, S.SendInLoop(cfg, t, msg, r).tcp)
  {
    S.SendKeepsInv(cfg, t, msg, r);
    if t.state != S.Disconnected { S.SendAccounts(cfg, t, msg, r); }
  }

  lemma RequestMoves(t: S.Tcp, call: Call)
    requires S.Inv(t) && CanCall(t, call)
    ensures StreamMoves(t, Requested(t, call))
    ensures StreamMoves(t, S.ShutdownInLoop(S.ShutdownRequested(t)))
    ensures Requested(t, call).state == if call.Send? then t.state else S.Disconnecting
  {
  }

  lemma UserCallKeepsInv(s: State, l: nat, c: Id, call: Call, r: S.WriteResult)
    requires Inv(s) && CanUserCall(s, l, c, call, r)
    ensures Inv(DoUserCall(s, l, c, call, r))
  {
    hide Inv, Alive, S.Inv, S.SendInLoop, S.ShutdownInLoop, S.ShutdownRequested, S.CloseRequested, Synced, ConnInv,
         LoopOk, KnownOk, StaticOk;
    AliveKnown(s, c);
    Parts(s, l, c);
    ChannelKnown(s, c);
    var t := s.conns[c].tcp;
    if CanCall(t, call) {
      RequestMoves(t, call);
      match call {
        case Send(msg) =>
          SendMoves(s.cfg, t, msg, r);
          OutputKeepsInv(s, l, c, S.SendInLoop(s.cfg, t, msg, r));
        case Shutdown =>
          StreamKeepsInv(s, c, S.ShutdownInLoop(S.ShutdownRequested(t)));
          SameInterest(t);
          NotSynced(s, c);
          assert DoUserCall(s, l, c, call, r) == Streamed(s, c, S.ShutdownInLoop(S.ShutdownRequested(t)));
        case ForceClose =>
          var u := S.CloseRequested(t);
          SameInterest(t);
          StreamKeepsInv(s, c, u);
          AliveStreamed(s, c, u);
          NotSynced(s, c);
          var q := Streamed(s, c, u);
          PushKeepsInv(q, c, L.OwnerPush(ForceCloseFn(c)));
          assert DoUserCall(s, l, c, call, r) == DoEl(q, l, L.OwnerPush(ForceCloseFn(c)));
      }
    }
  }

  lemma SameInterest(t: S.Tcp)
    ensures S.ShutdownInLoop(t).interest == S.ShutdownRequested(t).interest == t.interest
    ensures S.CloseRequested(t).interest == t.interest
    ensures S.ShutdownInLoop(S.ShutdownRequested(t)).interest == t.interest
    ensures S.DrainCheck(t).interest == t.interest
  {
  }

  lemma NotSynced(s: State, c: Id)
    requires c in s.conns && s.conns[c].loop in s.loops && c in s.loops[s.conns[c].loop].poller.chans
    ensures var l := s.conns[c].loop;
            && Synced(s.loops[l].poller, c, s.conns[c].tcp.interest, s.conns[c].tcp.interest) == s.loops[l].poller
            && OnLoop(s, l, s.loops[l]) == s
  {
    var l := s.conns[c].loop;
    assert s.loops[l := s.loops[l]] == s.loops;
  }

  lemma OtherCallKeepsInv(s: State, c: Id, call: Call)
    requires Inv(s) && CanOtherCall(s, c)
    ensures Inv(DoOtherCall(s, c, call))
  {
    hide Inv, Alive, S.Inv, S.ShutdownRequested, S.CloseRequested, Synced, ConnInv, LoopOk, KnownOk, StaticOk;
    AliveKnown(s, c);
    Parts(s, 0, c);
    ChannelKnown(s, c);
    var t := s.conns[c].tcp;
    if CanCall(t, call) {
      var u := Requested(t, call);
      RequestMoves(t, call);
      SameInterest(t);
      StreamKeepsInv(s, c, u);
      AliveStreamed(s, c, u);
      NotSynced(s, c);
      var q := Streamed(s, c, u);
      PushKeepsInv(q, c, L.OtherPush(FnOf(c, call)));
      assert DoOtherCall(s, c, call) == DoEl(q, s.conns[c].loop, L.OtherPush(FnOf(c, call)));
    }
  }

  // ---- dispatching ----

  lemma OpsOfJoin(a: seq<Ch.Callback>, b: seq<Ch.Callback>)
    ensures OpsOf(a + b) == OpsOf(a) + OpsOf(b)
  {
    if a == [] {
      assert a + b == b;
    } else {
      assert (a + b)[1..] == a[1..] + b;
      OpsOfJoin(a[1..], b);
    }
  }

  function Opt<T>(b: bool, x: T): seq<T> { if b then [x] else [] }

  lemma OptCounts(b: bool)
    ensures var o := Counts(Opt(b, Close)); o.Total() == o.close == Bit(b)
    ensures var o := Counts(Opt(b, Read)); o.Total() == o.read == Bit(b)
    ensures var o := Counts(Opt(b, Write)); o.Total() == o.write == Bit(b)
  {
  }

  lemma DispatchedSeq(r: Ch.Revents)
    ensures OpsOf(Ch.Callbacks(r, INSTALLED))
         == Opt(r.hup && !r.pollin, Close) + Opt(r.pollin || r.pri, Read) + Opt(r.out, Write)
  {
    var a, b := Opt(r.hup && !r.pollin, Ch.Close), Opt(r.err, Ch.Error);
    var c, d := Opt(r.pollin || r.pri, Ch.Read), Opt(r.out, Ch.Write);
    OpsOfJoin(a + b + c, d);
    OpsOfJoin(a + b, c);
    OpsOfJoin(a, b);
  }

  /** A benign event starts at most one of a close and a read. */
  lemma DispatchedOps(r: Ch.Revents)
    ensures var o := Counts(OpsOf(Ch.Callbacks(r, INSTALLED)));
            o.Total() == o.close + o.read + o.write && (Benign(r) ==> o.close + o.read <= 1)
  {
    hide Counts, OpsOf, Ch.Callbacks, Opt;
    DispatchedSeq(r);
    var a, c, d := Opt(r.hup && !r.pollin, Close), Opt(r.pollin || r.pri, Read), Opt(r.out, Write);
    CountsJoin(a + c, d);
    CountsJoin(a, c);
    OptCounts(r.hup && !r.pollin);
    OptCounts(r.pollin || r.pri);
    OptCounts(r.out);
    ThreeCounts(Counts(a), Counts(c), Counts(d));
  }

  lemma ThreeCounts(a: OpCounts, c: OpCounts, d: OpCounts)
    requires a.Total() == a.close && c.Total() == c.read && d.Total() == d.write
    ensures var o := a.Plus(c).Plus(d);
            o.Total() == o.close + o.read + o.write && o.close == a.close && o.read == c.read
  {
  }

  function Dispatched(lp: Loop, k: seq<Op>): Loop
    requires lp.active != []
  {
    lp.(active := lp.active[1..], cur := lp.active[0].c, guard := Some(lp.active[0].c), k := k)
  }

  lemma DispatchLoop(lp: Loop, k: seq<Op>, ids: set<Id>)
    requires LoopOk(lp) && KnownOk(ids, lp) && lp.active != [] && Free(lp)
    ensures LoopOk(Dispatched(lp, k)) && KnownOk(ids, Dispatched(lp, k))
    ensures forall d :: HoldsRef(Dispatched(lp, k), d) ==> HoldsRef(lp, d) || d == lp.active[0].c
  {
    hide L.Inv, R.Consistent, KnownFns;
    WorkSame(lp, Dispatched(lp, k));
    hide Work;
    assert lp.active[0] in lp.active;
  }

  lemma DispatchViews(lp: Loop, k: seq<Op>, d: Id)
    requires LoopOk(lp) && lp.active != [] && Free(lp)
    ensures d != lp.active[0].c ==> Seen(Dispatched(lp, k), d) == Seen(lp, d)
    ensures d == lp.active[0].c ==> Seen(lp, d).act
    ensures d == lp.active[0].c ==>
              Seen(Dispatched(lp, k), d) == Seen(lp, d).(ops := Counts(k), pin := Counts(k).Total() > 0, act := false)
    ensures Seen(lp, d).ops.Total() == 0 && !Seen(lp, d).pin
  {
    hide LoopOk, WorkOf, Work, InActive, Counts, OpCounts.Total, Seen, HoldsRef;
    var lp' := Dispatched(lp, k);
    NoCounts(k);
    FreeSeen(lp, d);
    DispatchActive(lp, k, d);
    WorkSame(lp, lp');
    SeenParts(lp, d);
    SeenParts(lp', d);
    SeenOps(lp, d);
    SeenOps(lp', d);
  }

  lemma DispatchActive(lp: Loop, k: seq<Op>, d: Id)
    requires LoopOk(lp) && lp.active != []
    ensures InActive(Dispatched(lp, k), d) <==> InActive(lp, d) && d != lp.active[0].c
    ensures InActive(lp, lp.active[0].c)
  {
    hide L.Inv, R.Consistent;
    var tail := lp.active[1..];
    assert forall i :: 0 <= i < |tail| ==> tail[i] == lp.active[i + 1];
    if InActive(lp, d) && d != lp.active[0].c {
      var i :| 0 <= i < |lp.active| && lp.active[i].c == d;
      assert tail[i - 1].c == d;
    }
  }

  /** An active channel not yet dispatched belongs to a connection of this loop that is alive and
      registered; in a calm life it is up. */
  lemma ActiveIsAlive(s: State, l: nat, c: Id)
    requires Inv(s) && l in s.loops && c in s.conns && Seen(s.loops[l], c).act
    ensures s.conns[c].loop == l && Alive(s, c)
    ensures c in s.loops[l].poller.chans && s.loops[l].poller.chans[c].index == R.Added
    ensures !s.conns[c].wild ==> s.conns[c].log == LIFECYCLE[..2]
  {
    hide Inv, ConnInv, Seen, InMap, LoopOk, KnownOk, StaticOk, Alive, Unfinished, ConnOk;
    Parts(s, l, c);
    PlaceAt(s, l, c);
    Views(s, c);
    SeenParts(s.loops[l], c);
    ActiveIsAdded(s.conns[c], Seen(s.loops[l], c), Seen(s.loops[s.base], c), l == s.base, InMap(s, c));
    RegisteredHere(s, l, c);
    UnfinishedIsAlive(s, c);
  }

  lemma ActiveIsAdded(cn: Conn, io: Shape, ba: Shape, same: bool, inMap: bool)
    requires ConnOk(cn, io, ba, same, inMap) && io.act
    ensures io.chan.Some? && io.chan.value.index == R.Added && (!cn.wild ==> cn.log == LIFECYCLE[..2])
  {
    hide S.Inv, Token, RawOk, PinOk, TallyOf, OpCounts.Total;
  }

  lemma DispatchKeepsInv(s: State, l: nat)
    requires Inv(s) && CanDispatch(s, l)
    ensures Inv(DoDispatch(s, l))
  {
    hide Inv, ConnInv, ConnOk, PlaceOk, LoopOk, KnownOk, StaticOk, InMap, Alive, HoldsRef, Seen, Counts, OpsOf,
         Ch.Callbacks, Benign;
    var lp := s.loops[l];
    var c, r := lp.active[0].c, lp.active[0].revents;
    Parts(s, l, c);
    ActiveKnown(lp, s.conns.Keys);
    var k := OpsOf(Ch.Callbacks(r, INSTALLED));
    DispatchedOps(r);
    DispatchViews(lp, k, c);
    ActiveIsAlive(s, l, c);
    DispatchLoop(lp, k, s.conns.Keys);
    MapIsAlive(s);
    var lp' := Dispatched(lp, k);
    var s' := DoDispatch(s, l);
    assert s' == OnConn(OnLoop(s, l, lp'), c, Turned(s.conns[c], r));
    Views(s, c);
    DispatchStep(s.conns[c], r, Seen(lp, c), Seen(s.loops[s.base], c), l == s.base, InMap(s, c), Counts(k));
    MapAfter(s, s', c);
    forall d | d in s.conns && d != c ensures Seen(lp', d) == Seen(lp, d) { DispatchViews(lp, k, d); }
    PlaceDispatch(Seen(lp, c), Seen(lp', c), l == s.base);
    LocalKeepsInv(s, s', l, l, c);
  }

  lemma ActiveKnown(lp: Loop, ids: set<Id>)
    requires KnownOk(ids, lp) && lp.active != []
    ensures lp.active[0].c in ids
  {
    hide Work;
    assert lp.active[0] in lp.active;
  }

  lemma PlaceDispatch(v: Shape, v': Shape, base: bool)
    requires PlaceOk(v, true, base) && v' == v.(ops := v'.ops, pin := v'.pin, act := v'.act)
    requires v'.ops.Total() == v'.ops.close + v'.ops.read + v'.ops.write
    ensures PlaceOk(v', true, base)
  {
  }

  // ---- functors ----

  /** What a loop runs next is of a known connection, on the loop it belongs to. */
  lemma NextFunctor(s: State, l: nat)
    requires l in s.loops && L.Enabled(s.loops[l].el, L.RunNext)
    requires Inv(s)
    ensures var f := s.loops[l].el.batch[s.loops[l].el.pos];
      && Work(s.loops[l]) != [] && Work(s.loops[l])[0] == f
      && (!f.UserFn? ==> f.c in s.conns)
      && (f.RemoveFn? ==> l == s.base)
      && (!f.UserFn? && !f.NoticeFn? && !f.RemoveFn? ==> s.conns[f.c].loop == l)
  {
    hide Inv, ConnInv, LoopOk, StaticOk, R.Consistent, Counts, L.Inv;
    Parts(s, l, 0);
    var lp := s.loops[l];
    LoopParts(lp);
    WorkAfter(lp.el, L.RunNext);
    WorkIs(lp);
    var f := lp.el.batch[lp.el.pos];
    assert f in Work(lp) && Work(lp)[0] == f;
    if !f.UserFn? {
      Parts(s, l, f.c);
      FunctorPlace(s, l, f);
    }
  }

  lemma FunctorPlace(s: State, l: nat, f: Fn)
    requires l in s.loops && !f.UserFn? && f.c in s.conns && ConnInv(s, f.c) && f in Work(s.loops[l])
    ensures f.RemoveFn? ==> l == s.base
    ensures !f.NoticeFn? && !f.RemoveFn? ==> s.conns[f.c].loop == l
  {
    hide ConnOk, InMap, Seen, Work;
    SeenParts(s.loops[l], f.c);
    var w := Work(s.loops[l]);
    assert PlaceOk(Seen(s.loops[l], f.c), l == s.conns[f.c].loop, l == s.base);
    var i :| 0 <= i < |w| && w[i] == f;
    assert Raw(f, f.c) ==> RawIn(w, f.c);
  }

  /** A user functor or a notice only opens a user callback. */
  lemma RunUserKeepsInv(s: State, l: nat)
    requires Inv(s) && l in s.loops && L.Enabled(s.loops[l].el, L.RunNext) && Free(s.loops[l])
    requires var f := s.loops[l].el.batch[s.loops[l].el.pos]; f.UserFn? || f.NoticeFn?
    ensures Inv(OnLoop(s, l, Started(s.loops[l], [User], 0)))
  {
    hide Inv, ConnInv, LoopOk, KnownOk, StaticOk, HoldsRef, InMap, Alive, Work, L.Enabled, L.Apply, L.Inv,
         R.Consistent, Seen;
    Parts(s, l, 0);
    NoZero(s);
    var lp := s.loops[l];
    LoopParts(lp);
    var lp' := Started(lp, [User], 0);
    StartRun(lp, [User], 0);
    KnownRun(lp, lp', s.conns.Keys);
    RefsAfter(s, l, L.RunNext, lp');
    forall d | d in s.conns ensures Seen(lp', d) == Seen(lp, d) { RunUserSeen(lp, d); }
    Quiet(s, l, lp');
  }

  lemma RunUserSeen(lp: Loop, d: Id)
    requires LoopOk(lp) && L.Enabled(lp.el, L.RunNext) && Free(lp) && d != 0
    requires var f := lp.el.batch[lp.el.pos]; f.UserFn? || f.NoticeFn?
    ensures Seen(Started(lp, [User], 0), d) == Seen(lp, d)
  {
    hide L.Apply, L.Enabled, Work, Seen, LoopOk;
    StartRun(lp, [User], 0);
    StartElsewhere(lp, [User], 0, d);
    WorkPop(Work(lp), d);
    SeenParts(lp, d);
    hide WorkOf;
  }

  lemma NoZero(s: State)
    requires StaticOk(s)
    ensures 0 !in s.conns
  {
  }
}
