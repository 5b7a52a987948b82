/** What holds in every run at all: whatever off-loop calls are cut in two, whatever events the polls
    report, on one loop or many. A smaller invariant than ServerInvariant's is enough for it, kept by
    every step. */
module ServerEveryRun {
  import opened Options
  import opened Servers
  import opened ServerInvariant
  import opened ServerLoops
  import opened ServerSteps
  import opened ServerAdvance
  import opened ServerAccept
  import opened ServerExecution
  import opened ServerTheorems
  import R = Registration
  import S = Streams
  import L = LoopProtocol
  import B = Buffers
  import T = ThreadPools
  import Names

  ghost predicate Served(lp: Loop) { L.Inv(lp.el) && lp.el.pc != L.Outside && !lp.el.quit && !lp.el.preloaded }

  /** A connectDestroyed of c is queued on the loop, or at hand there. */
  ghost predicate Due(lp: Loop, c: Id) { DestroyFn(c) in Work(lp) || Waiting(lp, c, Destroy) }

  ghost predicate ConnKept(s: State, c: Id)
    requires c in s.conns
  {
    var cn := s.conns[c];
    && cn.loop in s.loops && c in s.loops[cn.loop].poller.chans
    && s.loops[cn.loop].poller.chans[c].events == cn.tcp.interest && S.Conserves(cn.tcp)
    && (Name(s, c) in s.connections <==> Erased !in cn.log)
    && (Erased in cn.log && Destroyed !in cn.log ==> Due(s.loops[cn.loop], c))
  }

  ghost predicate Kept(s: State) {
    && (forall l :: l in s.loops ==> Served(s.loops[l]))
    && (forall c :: c in s.conns ==> c < s.nextId && ConnKept(s, c))
    && (forall nm :: nm in s.connections ==> s.connections[nm] in s.conns && nm == Name(s, s.connections[nm]))
    && (forall l, c :: l in s.loops && c in s.loops[l].poller.chans ==> c in s.conns && s.conns[c].loop == l)
  }

  lemma InitKept(s: State)
    requires Init(s)
    ensures Kept(s)
  {
    assert Work(IDLE) == [];
  }

  /** What becomes of a loop in a step that is about connection c. */
  ghost predicate Onward(lp: Loop, lp': Loop, c: Id) {
    && Served(lp') && lp'.poller.chans.Keys == lp.poller.chans.Keys
    && (forall d :: d != c && Due(lp, d) ==> Due(lp', d))
    && (forall d :: d != c && d in lp.poller.chans ==> lp'.poller.chans[d].events == lp.poller.chans[d].events)
  }

  /** A step that is about connection c, or about none if c is the next id. */
  ghost predicate About(s: State, s': State, c: Id) {
    && s'.prefix == s.prefix && s'.nextId == s.nextId && s'.conns.Keys == s.conns.Keys && s'.loops.Keys == s.loops.Keys
    && (forall d :: d in s.conns && d != c ==> s'.conns[d] == s.conns[d])
    && (s'.connections == s.connections || s'.connections == s.connections - {Name(s, c)})
    && (forall l :: l in s.loops ==> s'.loops[l] == s.loops[l] || Onward(s.loops[l], s'.loops[l], c))
    && (c in s.conns ==> s'.conns[c].loop == s.conns[c].loop)
  }

  lemma AboutKeeps(s: State, s': State, c: Id)
    requires About(s, s', c) && (c in s.conns ==> ConnKept(s', c))
    requires Kept(s)
    ensures Kept(s')
  {
    hide ConnKept, Onward, Served;
    forall l | l in s'.loops
      ensures Served(s'.loops[l]) && s'.loops[l].poller.chans.Keys == s.loops[l].poller.chans.Keys
    {
      OnwardServed(s, s', l, c);
    }
    forall d | d in s'.conns && d != c ensures ConnKept(s', d) { OtherKept(s, s', c, d); }
  }

  lemma OnwardServed(s: State, s': State, l: nat, c: Id)
    requires l in s.loops && l in s'.loops && Served(s.loops[l])
    requires s'.loops[l] == s.loops[l] || Onward(s.loops[l], s'.loops[l], c)
    ensures Served(s'.loops[l]) && s'.loops[l].poller.chans.Keys == s.loops[l].poller.chans.Keys
  {
    hide Served, Due;
  }

  lemma OtherKept(s: State, s': State, c: Id, d: Id)
    requires About(s, s', c) && d in s.conns && d != c && ConnKept(s, d)
    ensures ConnKept(s', d)
  {
    hide Due, S.Conserves, Names.ConnName, Served;
    if Name(s, d) == Name(s, c) { Names.ConnNameInjective(s.prefix, d, c); }
    var m := s.conns[d].loop;
    assert s'.loops[m] == s.loops[m] || Onward(s.loops[m], s'.loops[m], c);
  }

  lemma KeptAt(s: State, l: nat, c: Id)
    requires Kept(s)
    ensures l in s.loops ==> Served(s.loops[l])
    ensures c in s.conns ==> c < s.nextId && ConnKept(s, c)
    ensures l in s.loops && c in s.loops[l].poller.chans ==> c in s.conns && s.conns[c].loop == l
  {
    hide Served, ConnKept;
  }

  // ---- what happens to a loop ----

  predicate Ordinary(a: L.Step<Fn>) { QuietStep(a) || a.OwnerPush? || a.OtherPush? || a.RunNext? }

  lemma OrdinaryFlags(el: L.State<Fn>, a: L.Step<Fn>)
    requires L.Enabled(el, a) && Ordinary(a) && !el.quit && el.pc != L.Outside && !el.preloaded
    ensures var t := L.Apply(el, a); t.pc != L.Outside && !t.quit && !t.preloaded
  {
  }

  /** A step of the loop's queue: nothing due is lost, but for the functor taken. */
  lemma QueueMoves(lp: Loop, a: L.Step<Fn>, lp': Loop)
    requires Served(lp) && L.Enabled(lp.el, a) && Ordinary(a) && lp'.el == L.Apply(lp.el, a)
    ensures Served(lp')
    ensures a.OwnerPush? || a.OtherPush? ==> Work(lp') == Work(lp) + [a.f]
    ensures a.RunNext? ==> Work(lp) != [] && Work(lp)[0] == lp.el.batch[lp.el.pos] && Work(lp') == Work(lp)[1..]
    ensures QuietStep(a) ==> Work(lp') == Work(lp)
  {
    hide L.Apply, L.Enabled, L.Inv;
    WorkAfter(lp.el, a);
    OrdinaryFlags(lp.el, a);
    WorkIs(lp);
    WorkIs(lp');
  }

  /** A step of the queue that takes no functor, whatever the active list becomes. */
  lemma QueueOnward(lp: Loop, a: L.Step<Fn>, lp': Loop, c: Id)
    requires Served(lp) && L.Enabled(lp.el, a) && Ordinary(a) && !a.RunNext? && lp'.el == L.Apply(lp.el, a)
    requires lp'.k == lp.k && lp'.cur == lp.cur && lp'.poller == lp.poller
    ensures Onward(lp, lp', c) && (Due(lp, c) ==> Due(lp', c))
    ensures (a.OwnerPush? || a.OtherPush?) && a.f == DestroyFn(c) ==> Due(lp', c)
  {
    hide L.Apply, L.Enabled, Work, Served;
    QueueMoves(lp, a, lp');
  }

  /** The loop's thread, free, takes a functor and starts on k for cur. */
  lemma TakeOnward(lp: Loop, lp': Loop, c: Id)
    requires Served(lp) && L.Enabled(lp.el, L.RunNext) && Free(lp)
    requires lp'.el == L.Apply(lp.el, L.RunNext) && lp'.poller == lp.poller
    requires var f := lp.el.batch[lp.el.pos]; f.DestroyFn? ==> lp'.cur == f.c && lp'.k == [Destroy]
    ensures Onward(lp, lp', c) && (Due(lp, c) ==> Due(lp', c))
  {
    hide L.Apply, L.Enabled, Work, Served;
    QueueMoves(lp, L.RunNext, lp');
    var w := Work(lp);
    var f := w[0];
    forall d | Due(lp, d) ensures Due(lp', d) {
      if f != DestroyFn(d) {
        var i :| 0 <= i < |w| && w[i] == DestroyFn(d);
        assert w[1..][i - 1] == DestroyFn(d);
      }
    }
  }

  /** The part of a handler at hand gives way to others, the poller hearing of its connection. */
  lemma PartOnward(lp: Loop, k: seq<Op>, p: R.Poller<Id>, lp': Loop)
    requires Served(lp) && lp' == lp.(k := k, poller := p)
    requires p.chans.Keys == lp.poller.chans.Keys
    requires forall d :: d != lp.cur && d in p.chans ==> p.chans[d] == lp.poller.chans[d]
    ensures Onward(lp, lp', lp.cur)
    ensures Due(lp, lp.cur) && (Destroy in lp.k ==> Destroy in k) ==> Due(lp', lp.cur)
    ensures Destroy in k ==> Due(lp', lp.cur)
  {
    hide L.Inv;
    assert Work(lp') == Work(lp);
    hide Work;
  }

  /** A handler at another connection's hand, or none, starts here. */
  lemma TurnOnward(lp: Loop, lp': Loop, c: Id)
    requires Served(lp) && lp.k == []
    requires lp' == lp.(k := lp'.k, cur := lp'.cur, active := lp'.active, guard := lp'.guard)
    ensures Onward(lp, lp', c) && (Due(lp, c) ==> Due(lp', c))
  {
    hide L.Inv;
    assert Work(lp') == Work(lp);
    hide Work;
  }

  lemma OnwardTwice(lp: Loop, lq: Loop, lr: Loop, c: Id)
    requires Onward(lp, lq, c) && Onward(lq, lr, c)
    ensures Onward(lp, lr, c)
  {
    hide Due, Served;
  }

  lemma SendConserves(cfg: S.Config, t: S.Tcp, msg: seq<B.Byte>, r: S.WriteResult)
    requires S.Conserves(t) && S.Fits(t, |msg|, r)
    ensures S.Conserves(S.SendInLoop(cfg, t, msg, r).tcp)
  {
    if t.state != S.Disconnected {
      S.SendAccounts(cfg, t, msg, r);
      var u := S.SendInLoop(cfg, t, msg, r).tcp;
      assert |u.wire + u.out| == |u.wire| + |u.out|;
      hide S.SendInLoop;
    }
  }

  lemma WriteConserves(cfg: S.Config, t: S.Tcp, r: S.WriteResult)
    requires S.Conserves(t) && S.Fits(t, |t.out|, r)
    ensures S.Conserves(S.HandleWrite(cfg, t, r).tcp) && S.Conserves(S.DrainCheck(t))
  {
    if r.Wrote? {
      assert t.out == t.out[..r.n] + t.out[r.n..];
      assert t.wire + t.out[..r.n] + t.out[r.n..] == t.wire + t.out;
    }
  }

  /** An output handler of c on loop l. */
  lemma OutputOnward(lp: Loop, c: Id, before: R.Interest, o: S.Outcome)
    requires Served(lp) && L.InCallback(lp.el) && !lp.el.owes && c in lp.poller.chans
    requires lp.poller.chans[c].events == before
    ensures var lp' := Output(lp, c, before, o);
            && Onward(lp, lp', c) && (Due(lp, c) ==> Due(lp', c))
            && c in lp'.poller.chans && lp'.poller.chans[c].events == o.tcp.interest
  {
    hide L.Apply, L.Inv, Work, R.Change;
    if o.tcp.interest != before { ChangedChans(lp.poller, c, o.tcp.interest); }
    var q := lp.(poller := Synced(lp.poller, c, before, o.tcp.interest));
    PollerOnward(lp, q, c);
    if o.notices != [] {
      var lp' := Output(lp, c, before, o);
      QueueOnward(q, L.OwnerPush(NoticeFn(c, o.notices[0])), lp', c);
      OnwardTwice(lp, q, lp', c);
    }
  }

  lemma PollerOnward(lp: Loop, lp': Loop, c: Id)
    requires Served(lp) && lp' == lp.(poller := lp'.poller) && lp'.poller.chans.Keys == lp.poller.chans.Keys
    requires forall d :: d != c && d in lp.poller.chans ==> lp'.poller.chans[d].events == lp.poller.chans[d].events
    ensures Onward(lp, lp', c) && (Due(lp, c) ==> Due(lp', c))
  {
    hide L.Inv;
    assert Work(lp') == Work(lp);
    hide Work;
  }

  // ---- one lemma a kind of step ----

  /** A step that is one loop's alone. */
  lemma LoopKeeps(s: State, l: nat, lp': Loop)
    requires l in s.loops && Onward(s.loops[l], lp', s.nextId)
    requires Kept(s)
    ensures Kept(OnLoop(s, l, lp'))
  {
    hide Onward, ConnKept, Served;
    assert s.nextId !in s.conns;
    AboutKeeps(s, OnLoop(s, l, lp'), s.nextId);
  }

  lemma QueueKeeps(s: State, l: nat, a: L.Step<Fn>, lp': Loop)
    requires l in s.loops && L.Enabled(s.loops[l].el, a) && Ordinary(a) && !a.RunNext?
    requires lp' == s.loops[l].(el := L.Apply(s.loops[l].el, a), active := lp'.active)
    requires Kept(s)
    ensures Kept(OnLoop(s, l, lp'))
  {
    hide Kept, L.Apply, L.Enabled, Served, Onward;
    KeptAt(s, l, 0);
    QueueOnward(s.loops[l], a, lp', s.nextId);
    LoopKeeps(s, l, lp');
  }

  /** A step moves the stream of c, and nothing of its log. */
  lemma StreamKeeps(s: State, s': State, c: Id)
    requires c in s.conns && About(s, s', c) && s'.connections == s.connections && s'.conns[c].log == s.conns[c].log
    requires S.Conserves(s'.conns[c].tcp)
    requires var m := s.conns[c].loop;
             m in s.loops && (Due(s.loops[m], c) ==> Due(s'.loops[m], c))
             && c in s'.loops[m].poller.chans && s'.loops[m].poller.chans[c].events == s'.conns[c].tcp.interest
    requires Kept(s)
    ensures Kept(s')
  {
    KeptAt(s, 0, c);
    assert ConnKept(s', c) by { hide Kept, About, Due, S.Conserves, Names.ConnName, Served; }
    hide Kept, About, Due;
    AboutKeeps(s, s', c);
  }

  lemma DispatchKeeps(s: State, l: nat)
    requires CanDispatch(s, l)
    requires Kept(s)
    ensures Kept(DoDispatch(s, l))
  {
    hide Kept, Alive, Onward, Due, Served, OpsOf, S.Conserves;
    var s', lp := DoDispatch(s, l), s.loops[l];
    var c := lp.active[0].c;
    KeptAt(s, l, c);
    if Alive(s, c) {
      AliveKnown(s, c);
      KeptAt(s, s.conns[c].loop, c);
      TurnOnward(lp, s'.loops[l], c);
      StreamKeeps(s, s', c);
    } else {
      TurnOnward(lp, s'.loops[l], s.nextId);
      LoopKeeps(s, l, s'.loops[l]);
    }
  }

  lemma TurnKeeps(s: State, l: nat, lp': Loop)
    requires l in s.loops && s.loops[l].k == []
    requires lp' == s.loops[l].(k := lp'.k, cur := lp'.cur, active := lp'.active, guard := lp'.guard)
    requires Kept(s)
    ensures Kept(OnLoop(s, l, lp'))
  {
    hide Kept, Onward, Served;
    KeptAt(s, l, 0);
    TurnOnward(s.loops[l], lp', s.nextId);
    LoopKeeps(s, l, lp');
  }

  lemma UserEndKeeps(s: State, l: nat)
    requires CanUserPush(s, l)
    requires Kept(s)
    ensures Kept(OnLoop(s, l, s.loops[l].(k := s.loops[l].k[1..])))
  {
    hide Kept, Onward, Served, Due;
    KeptAt(s, l, s.loops[l].cur);
    var lp, lp' := s.loops[l], s.loops[l].(k := s.loops[l].k[1..]);
    assert Destroy in lp.k ==> Destroy in lp.k[1..] by { assert lp.k == [User] + lp.k[1..]; }
    PartOnward(lp, lp.k[1..], lp.poller, lp');
    var c := lp.cur;
    if c in s.conns {
      KeptAt(s, s.conns[c].loop, c);
      StreamKeeps(s, OnLoop(s, l, lp'), c);
    } else {
      AboutKeeps(s, OnLoop(s, l, lp'), c);
    }
  }

  /** Only held and inflight change. */
  lemma BesideKeeps(s: State, s': State)
    requires s' == s.(held := s'.held, inflight := s'.inflight)
    requires Kept(s)
    ensures Kept(s')
  {
    hide Onward, Due, Served, S.Conserves, Names.ConnName;
    forall c | c in s'.conns ensures ConnKept(s', c) { assert ConnKept(s, c); }
  }

  lemma DeliverKeeps(s: State, l: nat, f: Fn)
    requires l in s.loops
    requires Kept(s)
    ensures Kept(Deliver(s, l, f))
  {
    hide Kept, L.Apply;
    QueueKeeps(s, l, L.OtherPush(f), s.loops[l].(el := L.Apply(s.loops[l].el, L.OtherPush(f))));
  }

  /** The state of c's stream alone is set. */
  lemma TcpKeeps(s: State, c: Id, t: S.Tcp)
    requires c in s.conns && t.interest == s.conns[c].tcp.interest && S.Conserves(t)
    requires Kept(s)
    ensures Kept(OnConn(s, c, s.conns[c].(tcp := t)))
  {
    hide Kept, Onward, Due, Served, S.Conserves;
    KeptAt(s, s.conns[c].loop, c);
    StreamKeeps(s, OnConn(s, c, s.conns[c].(tcp := t)), c);
  }

  /** An output handler of c on its loop. */
  lemma OutputKeeps(s: State, l: nat, c: Id, o: S.Outcome)
    requires l in s.loops && c in s.conns && c in s.loops[l].poller.chans
    requires L.InCallback(s.loops[l].el) && !s.loops[l].el.owes && S.Conserves(o.tcp)
    requires Kept(s)
    ensures Kept(OnConn(OnLoop(s, l, Output(s.loops[l], c, s.conns[c].tcp.interest, o)), c, s.conns[c].(tcp := o.tcp)))
  {
    hide Kept, Onward, Due, Served, S.Conserves, Output, L.InCallback;
    KeptAt(s, l, c);
    OutputOnward(s.loops[l], c, s.conns[c].tcp.interest, o);
    StreamKeeps(s, OnConn(OnLoop(s, l, Output(s.loops[l], c, s.conns[c].tcp.interest, o)), c,
                          s.conns[c].(tcp := o.tcp)), c);
  }

  lemma UserCallKeeps(s: State, l: nat, c: Id, call: Call, r: S.WriteResult)
    requires CanUserCall(s, l, c, call, r)
    requires Kept(s)
    ensures Kept(DoUserCall(s, l, c, call, r))
  {
    hide Kept, Alive, Output, S.SendInLoop, L.Apply;
    AliveKnown(s, c);
    KeptAt(s, l, c);
    var t := s.conns[c].tcp;
    if CanCall(t, call) {
      match call {
        case Send(msg) =>
          SendConserves(s.cfg, t, msg, r);
          OutputKeeps(s, l, c, S.SendInLoop(s.cfg, t, msg, r));
        case Shutdown => TcpKeeps(s, c, S.ShutdownInLoop(S.ShutdownRequested(t)));
        case ForceClose =>
          var q := OnConn(s, c, s.conns[c].(tcp := S.CloseRequested(t)));
          TcpKeeps(s, c, S.CloseRequested(t));
          QueueKeeps(q, l, L.OwnerPush(ForceCloseFn(c)), Queued(s.loops[l], ForceCloseFn(c)));
      }
    }
  }

  lemma OtherCallKeeps(s: State, c: Id, call: Call)
    requires CanOtherCall(s, c)
    requires Kept(s)
    ensures Kept(DoOtherCall(s, c, call))
  {
    hide Kept, Alive, L.Apply;
    AliveKnown(s, c);
    KeptAt(s, 0, c);
    var t := s.conns[c].tcp;
    if CanCall(t, call) {
      TcpKeeps(s, c, Requested(t, call));
      DeliverKeeps(OnConn(s, c, s.conns[c].(tcp := Requested(t, call))), s.conns[c].loop, FnOf(c, call));
    }
  }

  lemma StoreKeeps(s: State, i: nat)
    requires CanStore(s, i)
    requires Kept(s)
    ensures Kept(DoStore(s, i))
  {
    hide Kept;
    var x := s.inflight[i];
    var q := s.(inflight := s.inflight[i := x.(stored := true)]);
    KeptAt(s, 0, x.c);
    BesideKeeps(s, q);
    TcpKeeps(q, x.c, s.conns[x.c].tcp.(state := S.Disconnecting));
  }

  lemma HandKeeps(s: State, i: nat)
    requires CanHand(s, i)
    requires Kept(s)
    ensures Kept(DoHand(s, i))
  {
    hide Kept, Deliver;
    var x := s.inflight[i];
    var q := s.(inflight := s.inflight[..i] + s.inflight[i + 1..]);
    BesideKeeps(s, q);
    DeliverKeeps(q, s.conns[x.c].loop, FnOf(x.c, x.call));
  }

  // ---- functors ----

  lemma TakeKeeps(s: State, l: nat, lp': Loop)
    requires l in s.loops && L.Enabled(s.loops[l].el, L.RunNext) && Free(s.loops[l])
    requires lp' == s.loops[l].(el := L.Apply(s.loops[l].el, L.RunNext), k := lp'.k, cur := lp'.cur)
    requires var f := s.loops[l].el.batch[s.loops[l].el.pos]; f.DestroyFn? ==> lp'.cur == f.c && lp'.k == [Destroy]
    requires Kept(s)
    ensures Kept(OnLoop(s, l, lp'))
  {
    hide Kept, Served, Onward, L.Apply, Due;
    KeptAt(s, l, 0);
    TakeOnward(s.loops[l], lp', s.nextId);
    LoopKeeps(s, l, lp');
  }

  lemma RunKeeps(s: State, l: nat, r: S.WriteResult)
    requires CanRun(s, l, r)
    requires Kept(s)
    ensures Kept(DoRun(s, l, r))
  {
    hide Kept, Alive, Output, S.SendInLoop, S.ShutdownInLoop, L.Apply, CanCall;
    var f, s' := s.loops[l].el.batch[s.loops[l].el.pos], DoRun(s, l, r);
    if f.SendFn? || f.ShutdownFn? {
      RawRunKeeps(s, l, r);
    } else {
      TakeKeeps(s, l, s'.loops[l]);
    }
  }

  lemma RawRunKeeps(s: State, l: nat, r: S.WriteResult)
    requires CanRun(s, l, r)
    requires var f := s.loops[l].el.batch[s.loops[l].el.pos]; f.SendFn? || f.ShutdownFn?
    requires Kept(s)
    ensures Kept(DoRun(s, l, r))
  {
    hide Kept, Alive, Output, S.SendInLoop, L.Apply;
    var lp := s.loops[l];
    var f, lq := lp.el.batch[lp.el.pos], lp.(el := L.Apply(lp.el, L.RunNext));
    var q, t := OnLoop(s, l, lq), s.conns[f.c].tcp;
    KeptAt(s, l, f.c);
    TakeKeeps(s, l, lq);
    if f.SendFn? {
      SendConserves(s.cfg, t, f.msg, r);
      AfterTake(lp.el);
      OutputKeeps(q, l, f.c, S.SendInLoop(s.cfg, t, f.msg, r));
      OnLoopTwice(s, l, lq, Output(lq, f.c, t.interest, S.SendInLoop(s.cfg, t, f.msg, r)));
    } else {
      TcpKeeps(q, f.c, S.ShutdownInLoop(t));
    }
  }

  lemma AfterTake(el: L.State<Fn>)
    requires L.Enabled(el, L.RunNext)
    ensures var t := L.Apply(el, L.RunNext); L.InCallback(t) && !t.owes
  {
  }

  // ---- parts of handlers ----

  /** A part of a handler of c on its loop gives way to k; c's log grows by `events`. */
  lemma PartKeeps(s: State, l: nat, k: seq<Op>, p: R.Poller<Id>, cn: Conn, events: seq<Event>)
    requires l in s.loops && s.loops[l].cur in s.conns
    requires var lp, c := s.loops[l], s.loops[l].cur;
      && c in lp.poller.chans && p.chans.Keys == lp.poller.chans.Keys
      && (forall d :: d != c && d in p.chans ==> p.chans[d] == lp.poller.chans[d])
      && p.chans[c].events == cn.tcp.interest && S.Conserves(cn.tcp) && cn.loop == s.conns[c].loop
      && cn.log == s.conns[c].log + events && Erased !in events
      && (Destroyed in events || (Destroy in lp.k ==> Destroy in k))
    requires Kept(s)
    ensures Kept(OnConn(OnLoop(s, l, s.loops[l].(k := k, poller := p)), s.loops[l].cur, cn))
  {
    hide Kept, Due, Served, S.Conserves, Names.ConnName, Onward;
    var lp, c := s.loops[l], s.loops[l].cur;
    var lp' := lp.(k := k, poller := p);
    var s' := OnConn(OnLoop(s, l, lp'), c, cn);
    KeptAt(s, l, c);
    PartOnward(lp, k, p, lp');
    assert ConnKept(s', c);
    AboutKeeps(s, s', c);
  }

  /** One that leaves the poller, the stream and the log alone. */
  lemma PlainPartKeeps(s: State, l: nat, k: seq<Op>)
    requires l in s.loops && s.loops[l].cur in s.conns && s.loops[l].cur in s.loops[l].poller.chans
    requires Destroy in s.loops[l].k ==> Destroy in k
    requires Kept(s)
    ensures Kept(OnLoop(s, l, s.loops[l].(k := k)))
  {
    hide Kept, S.Conserves;
    var lp, c := s.loops[l], s.loops[l].cur;
    KeptAt(s, l, c);
    assert s.conns[c].log + [] == s.conns[c].log;
    PartKeeps(s, l, k, lp.poller, s.conns[c], []);
    SameConn(s, l, lp.(k := k), c);
  }

  lemma EraseKeeps(s: State, l: nat, n: int, r: S.WriteResult)
    requires CanAdvance(s, l, r) && s.loops[l].k[0] == Erase
    requires Kept(s)
    ensures Kept(DoAdvance(s, l, n, r))
  {
    hide Kept, Served, Onward, S.Conserves, Names.ConnName, L.Apply, Due;
    var lp, c, rest, s' := s.loops[l], s.loops[l].cur, s.loops[l].k[1..], DoAdvance(s, l, n, r);
    var m := s.conns[c].loop;
    KeptAt(s, l, c);
    KeptAt(s, m, c);
    if m == l {
      PartOnward(lp, [Destroy] + rest, lp.poller, s'.loops[l]);
    } else {
      PartOnward(lp, rest, lp.poller, s'.loops[l]);
      QueueOnward(s.loops[m], L.OtherPush(DestroyFn(c)), s'.loops[m], c);
    }
    assert About(s, s', c) && ConnKept(s', c);
    AboutKeeps(s, s', c);
  }

  lemma Later(op: Op, rest: seq<Op>, more: seq<Op>)
    requires op != Destroy
    ensures Destroy in [op] + rest ==> Destroy in rest && Destroy in more + rest
  {
  }

  /** The parts that change the channel. */
  lemma ChannelPartKeeps(s: State, l: nat, n: int, r: S.WriteResult)
    requires CanAdvance(s, l, r)
    requires var op := s.loops[l].k[0]; op == Est || op == Close || op == Destroy || op == Remove
    requires Kept(s)
    ensures Kept(DoAdvance(s, l, n, r))
  {
    hide Kept, R.Change, R.RemoveChannel;
    var lp, c, op, rest := s.loops[l], s.loops[l].cur, s.loops[l].k[0], s.loops[l].k[1..];
    var cn := s.conns[c];
    var t := S.Established(cn.tcp);
    KeptAt(s, l, c);
    assert lp.k == [op] + rest;
    if op != Destroy { Later(op, rest, if op == Est then [Up] else [Down]); }
    ChangedChans(lp.poller, c, t.interest);
    ChangedChans(lp.poller, c, R.NONE_EVENT);
    RemovedChans(lp.poller, c);
    match op {
      case Est =>
        PartKeeps(s, l, [Up] + rest, R.Change(lp.poller, c, t.interest), Logged(cn.(tcp := t), Established),
                  [Established]);
      case Close =>
        PartKeeps(s, l, [Down] + rest, R.Change(lp.poller, c, R.NONE_EVENT),
                  Logged(cn.(tcp := S.Closed(cn.tcp)), Closed), [Closed]);
      case Destroy =>
        if cn.tcp.state == S.Connected {
          assert cn.log + [Destroyed] + [DownCalled] == cn.log + [Destroyed, DownCalled];
          PartKeeps(s, l, [User, Remove] + rest, R.Change(lp.poller, c, R.NONE_EVENT),
                    Logged(Logged(cn.(tcp := S.Closed(cn.tcp)), Destroyed), DownCalled), [Destroyed, DownCalled]);
        } else {
          PartKeeps(s, l, rest, R.RemoveChannel(lp.poller, c), Logged(cn, Destroyed), [Destroyed]);
        }
      case Remove =>
        assert cn.log + [] == cn.log;
        PartKeeps(s, l, rest, R.RemoveChannel(lp.poller, c), cn, []);
        SameConn(s, l, lp.(k := rest, poller := R.RemoveChannel(lp.poller, c)), c);
    }
  }

  lemma AdvanceKeeps(s: State, l: nat, n: int, r: S.WriteResult)
    requires CanAdvance(s, l, r)
    requires Kept(s)
    ensures Kept(DoAdvance(s, l, n, r))
  {
    hide Kept, L.Apply, R.Change, R.RemoveChannel, Output, S.HandleWrite, S.DrainCheck, S.Drains, S.Conserves, Name;
    var lp, c, op, rest := s.loops[l], s.loops[l].cur, s.loops[l].k[0], s.loops[l].k[1..];
    var cn := s.conns[c];
    KeptAt(s, l, c);
    assert lp.k == [op] + rest;
    match op {
      case Est => ChannelPartKeeps(s, l, n, r);
      case Close => ChannelPartKeeps(s, l, n, r);
      case Destroy => ChannelPartKeeps(s, l, n, r);
      case Remove => ChannelPartKeeps(s, l, n, r);
      case Erase => EraseKeeps(s, l, n, r);
      case Up =>
        Later(op, rest, [User]);
        PartKeeps(s, l, [User] + rest, lp.poller, Logged(cn, UpCalled), [UpCalled]);
      case Down =>
        Later(op, rest, [User, Report]);
        PartKeeps(s, l, [User, Report] + rest, lp.poller, Logged(cn, DownCalled), [DownCalled]);
      case Report =>
        Later(op, rest, [Erase]);
        if l == s.base {
          PlainPartKeeps(s, l, [Erase] + rest);
        } else {
          PlainPartKeeps(s, l, rest);
          DeliverKeeps(OnLoop(s, l, lp.(k := rest)), s.base, RemoveFn(c));
        }
      case Read =>
        var more := if n > 0 then [User] else if n == 0 then [Close] else [];
        Later(op, rest, more);
        assert [] + rest == rest;
        PlainPartKeeps(s, l, more + rest);
      case Write => WriteKeeps(s, l, n, r);
      case Drain =>
        Later(op, rest, []);
        PlainPartKeeps(s, l, rest);
        WriteConserves(s.cfg, cn.tcp, r);
        DrainInterest(cn.tcp);
        TcpKeeps(OnLoop(s, l, lp.(k := rest)), c, S.DrainCheck(cn.tcp));
    }
  }

  lemma DrainInterest(t: S.Tcp)
    ensures S.DrainCheck(t).interest == t.interest
  {
  }

  lemma WriteKeeps(s: State, l: nat, n: int, r: S.WriteResult)
    requires CanAdvance(s, l, r) && s.loops[l].k[0] == Write
    requires Kept(s)
    ensures Kept(DoAdvance(s, l, n, r))
  {
    hide Kept, L.Apply, Output, S.HandleWrite, S.Drains, S.Conserves;
    var lp, c, rest := s.loops[l], s.loops[l].cur, s.loops[l].k[1..];
    var cn := s.conns[c];
    var o := S.HandleWrite(s.cfg, cn.tcp, r);
    var k := if S.Drains(cn.tcp, r) then [Drain] + rest else rest;
    KeptAt(s, l, c);
    assert lp.k == [Write] + rest;
    Later(Write, rest, [Drain]);
    PlainPartKeeps(s, l, k);
    WriteConserves(s.cfg, cn.tcp, r);
    OutputKeeps(OnLoop(s, l, lp.(k := k)), l, c, o);
    OnLoopTwice(s, l, lp.(k := k), Output(lp.(k := k), c, cn.tcp.interest, o));
  }

  // ---- accepting ----

  /** The chosen loop gets the new channel, and the functor or the handler of its connection. */
  lemma ChosenOnward(lp: Loop, c: Id, fd: int, lp': Loop)
    requires Served(lp) && c !in lp.poller.chans && lp'.poller == R.Create(lp.poller, c, fd)
    requires || (lp.k == [] && lp'.el == lp.el)
             || (lp'.el == L.Apply(lp.el, L.OtherPush(EstablishFn(c))) && lp'.k == lp.k && lp'.cur == lp.cur)
    ensures Served(lp') && forall d :: Due(lp, d) ==> Due(lp', d)
  {
    hide L.Apply, L.Inv;
    if lp'.el == lp.el {
      assert Work(lp') == Work(lp);
    } else {
      QueueMoves(lp, L.OtherPush(EstablishFn(c)), lp');
    }
    hide Work;
  }

  lemma AcceptKeeps(s: State, fd: int)
    requires CanAccept(s, fd)
    requires Kept(s)
    ensures Kept(DoAccept(s, fd))
  {
    hide Kept, Alive, L.Apply, Due, Served, DoAccept, R.Create;
    var c, io := s.nextId, T.Pick(s.base, s.pool, s.next);
    hide T.Pick;
    var lp' := Chosen(s.loops[io], c, fd, io == s.base);
    AcceptIs(s, fd);
    KeptAt(s, io, c);
    ChosenOnward(s.loops[io], c, fd, lp');
    AcceptedKept(s, io, fd, lp');
  }

  lemma AcceptedKept(s: State, io: nat, fd: int, lp': Loop)
    requires io in s.loops && Served(lp') && s.nextId !in s.loops[io].poller.chans
    requires lp'.poller == R.Create(s.loops[io].poller, s.nextId, fd)
    requires forall d :: Due(s.loops[io], d) ==> Due(lp', d)
    requires Kept(s)
    ensures Kept(Accepted(s, io, fd, lp'))
  {
    hide Due, Served, ConnKept, Names.ConnName;
    var s' := Accepted(s, io, fd, lp');
    forall d | d in s'.conns ensures d < s'.nextId && ConnKept(s', d) {
      if d != s.nextId { OldKept(s, io, fd, lp', d); } else { NewKept(s, io, fd, lp'); }
    }
    forall l, d | l in s'.loops && d in s'.loops[l].poller.chans ensures d in s'.conns && s'.conns[d].loop == l {
      assert l != io ==> s'.loops[l] == s.loops[l];
      KeptAt(s, l, d);
    }
    forall nm | nm in s'.connections ensures s'.connections[nm] in s'.conns && nm == Name(s', s'.connections[nm]) {}
  }

  lemma OldKept(s: State, io: nat, fd: int, lp': Loop, d: Id)
    requires io in s.loops && s.nextId !in s.loops[io].poller.chans && d in s.conns && d != s.nextId
    requires lp'.poller == R.Create(s.loops[io].poller, s.nextId, fd) && (Due(s.loops[io], d) ==> Due(lp', d))
    requires ConnKept(s, d)
    ensures ConnKept(Accepted(s, io, fd, lp'), d)
  {
    hide Due, Names.ConnName, S.Conserves;
    if Name(s, d) == Name(s, s.nextId) { Names.ConnNameInjective(s.prefix, d, s.nextId); }
  }

  lemma NewKept(s: State, io: nat, fd: int, lp': Loop)
    requires io in s.loops && s.nextId !in s.loops[io].poller.chans
    requires lp'.poller == R.Create(s.loops[io].poller, s.nextId, fd)
    ensures ConnKept(Accepted(s, io, fd, lp'), s.nextId)
  {
    hide Due, Names.ConnName;
  }

  // ---- runs ----

  lemma StepKeeps(s: State, st: Step)
    requires Enabled(s, st)
    requires Kept(s)
    ensures Kept(Apply(s, st))
  {
    hide Kept, Alive, CanDispatch, CanAccept, CanRun, CanAdvance, CanUserCall, CanOtherCall, DoDispatch,
         DoAccept, DoRun, DoAdvance, DoUserCall, DoOtherCall, L.Apply, L.Enabled, CanStore, DoStore, CanHand, DoHand;
    match st {
      case Owner(l, a) => QueueKeeps(s, l, a, s.loops[l].(el := L.Apply(s.loops[l].el, a)));
      case Poll(l, wake, active) =>
        var a := L.PollReturns(wake);
        QueueKeeps(s, l, a, s.loops[l].(el := L.Apply(s.loops[l].el, a), active := active));
      case DispatchNext(l) => DispatchKeeps(s, l);
      case DispatchDone(l) => TurnKeeps(s, l, s.loops[l].(guard := None));
      case Accept(fd) => AcceptKeeps(s, fd);
      case RunNext(l, r) => RunKeeps(s, l, r);
      case Advance(l, n, r) => AdvanceKeeps(s, l, n, r);
      case UserCall(l, c, call, r) => UserCallKeeps(s, l, c, call, r);
      case UserPush(l) => UserPushKeeps(s, l);
      case UserEnd(l) => UserEndKeeps(s, l);
      case OtherWrite(l) => OtherWriteKeeps(s, l);
      case OtherCall(c, call) => OtherCallKeeps(s, c, call);
      case OtherPush(l) => DeliverKeeps(s, l, UserFn);
      case Hold(c) => BesideKeeps(s, s.(held := s.held + {c}));
      case Release(c) => BesideKeeps(s, s.(held := s.held - {c}));
      case Test(c, call) => BesideKeeps(s, s.(inflight := s.inflight + [InFlight(c, call, false)]));
      case Store(i) => StoreKeeps(s, i);
      case Hand(i) => HandKeeps(s, i);
    }
  }

  lemma UserPushKeeps(s: State, l: nat)
    requires CanUserPush(s, l)
    requires Kept(s)
    ensures Kept(OnLoop(s, l, Queued(s.loops[l], UserFn)))
  {
    hide Kept, L.Apply;
    QueueKeeps(s, l, L.OwnerPush(UserFn), Queued(s.loops[l], UserFn));
  }

  lemma OtherWriteKeeps(s: State, l: nat)
    requires l in s.loops && s.loops[l].el.writers > 0
    requires Kept(s)
    ensures Kept(DoEl(s, l, L.OtherWrite))
  {
    hide Kept, L.Apply;
    QueueKeeps(s, l, L.OtherWrite, s.loops[l].(el := L.Apply(s.loops[l].el, L.OtherWrite)));
  }

  lemma {:induction false} ExecKeeps(s: State, run: seq<Step>)
    requires Executable(s, run)
    requires Kept(s)
    ensures Kept(Exec(s, run))
    decreases |run|
  {
    hide Kept, Enabled, Apply;
    if run != [] {
      StepKeeps(s, run[0]);
      ExecKeeps(Apply(s, run[0]), run[1..]);
    }
  }

  lemma EndsKept(s: State, m: Mode)
    requires Ends(s, m)
    ensures Kept(s)
  {
    hide Kept, Init, Enabled, Apply, AllAllowed;
    var s0, run :| Init(s0) && Executable(s0, run) && s == Exec(s0, run) && AllAllowed(m, run);
    InitKept(s0);
    ExecKeeps(s0, run);
  }

  // ---- what holds then ----

  /** connections_ holds exactly the accepted connections not erased, each under its own name. */
  lemma MapAgreement(s: State, m: Mode)
    requires Ends(s, m)
    ensures forall c :: c in s.conns ==> (Name(s, c) in s.connections <==> Erased !in s.conns[c].log)
    ensures forall nm :: nm in s.connections ==>
              var c := s.connections[nm]; c in s.conns && nm == Name(s, c) && Erased !in s.conns[c].log
    ensures forall nm, nm' :: nm in s.connections && nm' in s.connections && nm != nm' ==>
              s.connections[nm] != s.connections[nm']
    ensures forall c, d :: c in s.conns && d in s.conns && c != d ==> Name(s, c) != Name(s, d)
  {
    hide Ends, Names.ConnName, Due, S.Conserves, Served;
    EndsKept(s, m);
    assert forall c :: c in s.conns ==> ConnKept(s, c);
    forall c, d | c in s.conns && d in s.conns && c != d ensures Name(s, c) != Name(s, d) {
      if Name(s, c) == Name(s, d) { Names.ConnNameInjective(s.prefix, c, d); }
    }
  }

  /** Each erased connection's connectDestroyed is queued on its own loop, being run there, or done. */
  lemma ErasedIsDestroyed(s: State, m: Mode, c: Id)
    requires Ends(s, m) && c in s.conns && Erased in s.conns[c].log
    ensures s.conns[c].loop in s.loops
    ensures var lp := s.loops[s.conns[c].loop];
            Destroyed in s.conns[c].log || DestroyFn(c) in Work(lp) || Waiting(lp, c, Destroy)
  {
    hide Ends, Kept, Work, S.Conserves, Served;
    EndsKept(s, m);
    KeptAt(s, 0, c);
  }

  /** Every loop's queue runs exactly once and in order, and no loop sleeps beside work. */
  lemma LoopsAreServed(s: State, m: Mode, l: nat)
    requires Ends(s, m) && l in s.loops
    ensures var el := s.loops[l].el;
      && el.pos <= |el.batch| && el.executed + el.batch[el.pos..] + el.pending == el.pushed
      && (el.pc == L.Poll && el.pending != [] ==> el.eventfd > 0 || el.writers > 0)
      && !L.Stuck(el)
  {
    hide Ends, Kept, L.Inv;
    EndsKept(s, m);
    KeptAt(s, l, 0);
    L.InvMeans(s.loops[l].el);
  }

  /** Every connection's bytes are conserved and its poller knows its interest, whichever threads
      called it and however. */
  lemma BytesAreConserved(s: State, m: Mode, c: Id)
    requires Ends(s, m) && c in s.conns
    ensures S.Conserves(s.conns[c].tcp)
    ensures var l := s.conns[c].loop;
            l in s.loops && c in s.loops[l].poller.chans && s.loops[l].poller.chans[c].events == s.conns[c].tcp.interest
  {
    hide Ends, Kept, S.Conserves, Served, Due;
    EndsKept(s, m);
    KeptAt(s, 0, c);
  }

  // ---- runs without a close-and-read event ----

  /** No event still to be dispatched, and none dispatched yet, is a close and a read. */
  ghost predicate Mild(s: State) {
    && (forall l, i :: l in s.loops && 0 <= i < |s.loops[l].active| ==> Benign(s.loops[l].active[i].revents))
    && (forall c :: c in s.conns ==> !s.conns[c].wild)
  }

  /** Neither an active list nor a record changes. */
  ghost predicate AsMild(s: State, s': State) {
    && (forall l :: l in s'.loops ==> l in s.loops && s'.loops[l].active == s.loops[l].active)
    && (forall c :: c in s'.conns ==> c in s.conns && s'.conns[c].wild == s.conns[c].wild)
  }

  lemma OutputMild(lp: Loop, c: Id, before: R.Interest, o: S.Outcome)
    requires L.InCallback(lp.el) && !lp.el.owes && c in lp.poller.chans
    ensures Output(lp, c, before, o).active == lp.active
  {
    hide L.Apply, R.Change;
  }

  lemma RunMild(s: State, l: nat, r: S.WriteResult)
    requires CanRun(s, l, r)
    ensures AsMild(s, DoRun(s, l, r))
  {
    hide Alive, L.Apply, Output, S.SendInLoop, S.ShutdownInLoop, CanCall;
    var lp := s.loops[l];
    var f := lp.el.batch[lp.el.pos];
    if f.SendFn? {
      var t, lq := s.conns[f.c].tcp, lp.(el := L.Apply(lp.el, L.RunNext));
      AfterTake(lp.el);
      OutputMild(lq, f.c, t.interest, S.SendInLoop(s.cfg, t, f.msg, r));
    }
  }

  lemma WriteMild(s: State, l: nat, n: int, r: S.WriteResult)
    requires CanAdvance(s, l, r) && s.loops[l].k[0] == Write
    ensures AsMild(s, DoAdvance(s, l, n, r))
  {
    hide Output, S.HandleWrite, S.Drains;
    var lp, t := s.loops[l], s.conns[s.loops[l].cur].tcp;
    var k := if S.Drains(t, r) then [Drain] + lp.k[1..] else lp.k[1..];
    OutputMild(lp.(k := k), lp.cur, t.interest, S.HandleWrite(s.cfg, t, r));
  }

  lemma DeliverMild(s: State, u: State, l: nat, f: Fn)
    requires AsMild(s, u) && l in u.loops
    ensures AsMild(s, Deliver(u, l, f))
  {
    hide L.Apply;
  }

  /** The parts that may hand a functor to another loop. */
  lemma ReportMild(s: State, l: nat, n: int, r: S.WriteResult)
    requires CanAdvance(s, l, r) && s.loops[l].k[0] == Report
    ensures AsMild(s, DoAdvance(s, l, n, r))
  {
    hide Deliver;
    var lp := s.loops[l];
    if l != s.base { DeliverMild(s, OnLoop(s, l, lp.(k := lp.k[1..])), s.base, RemoveFn(lp.cur)); }
  }

  lemma EraseMild(s: State, l: nat, n: int, r: S.WriteResult)
    requires CanAdvance(s, l, r) && s.loops[l].k[0] == Erase
    ensures AsMild(s, DoAdvance(s, l, n, r))
  {
    hide Deliver, Name;
    var lp, c := s.loops[l], s.loops[l].cur;
    var u := OnConn(s, c, Logged(s.conns[c], Erased)).(connections := s.connections - {Name(s, c)});
    if s.conns[c].loop != l { DeliverMild(s, OnLoop(u, l, lp.(k := lp.k[1..])), s.conns[c].loop, DestroyFn(c)); }
  }

  lemma AdvanceMild(s: State, l: nat, n: int, r: S.WriteResult)
    requires CanAdvance(s, l, r)
    ensures AsMild(s, DoAdvance(s, l, n, r))
  {
    hide L.Apply, Output, S.HandleWrite, S.Drains, S.DrainCheck, S.Established, S.Closed, R.Change, R.RemoveChannel,
         Name, S.Fits, L.InCallback;
    match s.loops[l].k[0] {
      case Write => WriteMild(s, l, n, r);
      case Report => ReportMild(s, l, n, r);
      case Erase => EraseMild(s, l, n, r);
      case _ =>
    }
  }

  lemma CallMild(s: State, st: Step)
    requires Enabled(s, st) && (st.UserCall? || st.OtherCall?)
    ensures AsMild(s, Apply(s, st))
  {
    hide Alive, L.Apply, Output, S.SendInLoop, S.ShutdownInLoop, S.CloseRequested, Requested;
    AliveKnown(s, st.c);
    if st.UserCall? && st.call.Send? {
      var lp, t := s.loops[st.l], s.conns[st.c].tcp;
      OutputMild(lp, st.c, t.interest, S.SendInLoop(s.cfg, t, st.call.msg, st.r));
    }
  }

  /** Only a poll fills an active list, only a dispatch looks at it, and only that marks a connection. */
  lemma MildStep(s: State, st: Step)
    requires Enabled(s, st) && BenignPoll(st) && Mild(s)
    ensures Mild(Apply(s, st))
  {
    hide Alive, L.Apply, L.Enabled, CanRun, DoRun, CanAdvance, DoAdvance, CanUserCall, DoUserCall, CanOtherCall,
         DoOtherCall, R.Create, Name, Benign, Reported, OpsOf;
    match st {
      case RunNext(l, r) => RunMild(s, l, r);
      case Advance(l, n, r) => AdvanceMild(s, l, n, r);
      case UserCall(_, _, _, _) => CallMild(s, st);
      case OtherCall(_, _) => CallMild(s, st);
      case DispatchNext(l) => AliveIsKnown(s, s.loops[l].active[0].c);
      case _ =>
    }
  }

  lemma AliveIsKnown(s: State, c: Id)
    ensures Alive(s, c) ==> c in s.conns
  {
  }

  lemma {:induction false} ExecMild(s: State, run: seq<Step>)
    requires Executable(s, run) && Mild(s) && forall i :: 0 <= i < |run| ==> BenignPoll(run[i])
    ensures Mild(Exec(s, run))
    decreases |run|
  {
    hide Mild, Enabled, Apply, BenignPoll;
    if run != [] {
      MildStep(s, run[0]);
      ExecMild(Apply(s, run[0]), run[1..]);
    }
  }

  /** Without a close-and-read event every life is calm. */
  lemma BenignIsCalm(s: State, m: Mode, c: Id)
    requires Ends(s, m) && m.benign && c in s.conns
    ensures !s.conns[c].wild
  {
    hide Enabled, Apply, BenignPoll, Atomic;
    var s0, run :| Init(s0) && Executable(s0, run) && s == Exec(s0, run) && AllAllowed(m, run);
    assert forall i :: 0 <= i < |run| ==> Allowed(m, run[i]);
    ExecMild(s0, run);
  }
}
