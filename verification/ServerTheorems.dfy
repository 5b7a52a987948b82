/** What holds in every state a started server reaches, whatever its loops, its users and the
    network do, as long as each off-loop test of state_ and the push it leads to are one step. What
    is said of the order of a life is said of a calm one, in which no event was a close and a read. */
module ServerTheorems {
  import opened Servers
  import opened ServerInvariant
  import opened ServerLoops
  import opened ServerConns
  import opened ServerSteps
  import opened ServerReferences
  import opened ServerHandlers
  import opened ServerRuns
  import opened ServerAdvance
  import opened ServerExecution
  import R = Registration
  import S = Streams
  import L = LoopProtocol
  import T = ThreadPools

  /** Part `op` of a handler of c is still to be run by what loop lp is doing. */
  predicate Waiting(lp: Loop, c: Id, op: Op) { lp.cur == c && op in lp.k }

  lemma OpsWaiting(lp: Loop, c: Id)
    ensures var o := Seen(lp, c).ops;
      && (o.est > 0 <==> Waiting(lp, c, Est)) && (o.up > 0 <==> Waiting(lp, c, Up))
      && (o.close > 0 <==> Waiting(lp, c, Close)) && (o.down > 0 <==> Waiting(lp, c, Down))
      && (o.report > 0 <==> Waiting(lp, c, Report)) && (o.erase > 0 <==> Waiting(lp, c, Erase))
      && (o.destroy > 0 <==> Waiting(lp, c, Destroy)) && (o.read > 0 <==> Waiting(lp, c, Read))
  {
    SeenOps(lp, c);
    hide Seen;
  }

  lemma WorkWaiting(lp: Loop, c: Id)
    ensures var w := Seen(lp, c).work;
      && (w.est > 0 <==> EstablishFn(c) in Work(lp)) && (w.des > 0 <==> DestroyFn(c) in Work(lp))
      && (w.rem > 0 <==> RemoveFn(c) in Work(lp)) && (w.raw <==> RawIn(Work(lp), c))
      && (w.late <==> LateIn(Work(lp), c))
  {
    SeenParts(lp, c);
    hide Seen, Work, RawIn, LateIn;
  }

  lemma TallyIn(log: seq<Event>)
    ensures var t := TallyOf(log);
      && (Established in log <==> t.est > 0) && (UpCalled in log <==> t.up > 0)
      && (Closed in log <==> t.closed > 0) && (DownCalled in log <==> t.down > 0)
      && (Erased in log <==> t.erased > 0) && (Destroyed in log <==> t.destroyed > 0)
  {
  }

  // ---- lifecycle ----

  /** Where each event that is due waits: connectEstablished and its callback once, then for every
      handleClose its callback, its removal and its connectDestroyed. */
  ghost predicate NextWaits(t: Tally, c: Id, io: Loop, ba: Loop) {
    && t.up <= t.est <= 1 && t.destroyed <= t.erased <= t.down <= t.closed && (t.closed > 0 ==> t.up == 1)
    && (t.est < 1 ==> EstablishFn(c) in Work(io) || Waiting(io, c, Est))
    && (t.up < t.est ==> Waiting(io, c, Up))
    && (t.down < t.closed ==> Waiting(io, c, Down))
    && (t.erased < t.down ==> Waiting(io, c, Report) || RemoveFn(c) in Work(ba) || Waiting(ba, c, Erase))
    && (t.destroyed < t.erased ==> DestroyFn(c) in Work(io) || Waiting(io, c, Destroy))
  }

  lemma TokenWaits(t: Tally, io: Shape, ba: Shape)
    requires Token(t, io, ba)
    ensures t.up <= t.est <= 1 && t.destroyed <= t.erased <= t.down <= t.closed && (t.closed > 0 ==> t.up == 1)
    ensures t.est < 1 ==> io.work.est > 0 || io.ops.est > 0
    ensures t.up < t.est ==> io.ops.up > 0
    ensures t.down < t.closed ==> io.ops.down > 0
    ensures t.erased < t.down ==> io.ops.report > 0 || ba.work.rem > 0 || ba.ops.erase > 0
    ensures t.destroyed < t.erased ==> io.work.des > 0 || io.ops.destroy > 0
  {
  }

  lemma LifeOf(s: State, c: Id)
    requires c in s.conns && Inv(s)
    ensures s.conns[c].loop in s.loops && s.base in s.loops && c in s.loops[s.conns[c].loop].poller.chans
    ensures var cn, t := s.conns[c], TallyOf(s.conns[c].log);
      && StateOk(t, cn.tcp.state) && S.Inv(cn.tcp) && (InMap(s, c) <==> t.erased == 0)
      && NextWaits(t, c, s.loops[cn.loop], s.loops[s.base])
      && IndexOk(t, s.loops[cn.loop].poller.chans[c].index)
      && (!cn.wild ==> InOrder(cn.log) && t == TallyAt(|cn.log|))
  {
    hide Inv, Seen, InMap, ConnInv, S.Inv, Work, Waiting, RawOk, PinOk, InOrder, Token, StateOk, IndexOk, TallyOf;
    Parts(s, 0, c);
    Views(s, c);
    var cn := s.conns[c];
    var io, ba := s.loops[cn.loop], s.loops[s.base];
    TokenWaits(TallyOf(cn.log), Seen(io, c), Seen(ba, c));
    OpsWaiting(io, c);
    OpsWaiting(ba, c);
    WorkWaiting(io, c);
    WorkWaiting(ba, c);
    SeenParts(io, c);
    if !cn.wild { TallyInOrder(cn.log); }
  }

  /** The life of every connection is a prefix of the one order: connectEstablished and its callback
      before anything else, handleClose at most once with its callback right behind it, the erase,
      connectDestroyed at most once and last; state_ says how far it is. The callback of a
      handleClose that has run is made, or is the next thing its loop does for it. */
  lemma LifecycleInOrder(s: State, c: Id)
    requires Reachable(s) && c in s.conns && !s.conns[c].wild
    ensures var cn := s.conns[c];
      && |cn.log| <= |LIFECYCLE| && cn.log == LIFECYCLE[..|cn.log|]
      && (cn.tcp.state == S.Connecting <==> Established !in cn.log)
      && (cn.tcp.state == S.Disconnected <==> Closed in cn.log)
      && (Closed in cn.log && DownCalled !in cn.log ==> cn.loop in s.loops && Waiting(s.loops[cn.loop], c, Down))
  {
    hide Reachable, Inv, Work, S.Inv;
    ReachableInv(s);
    LifeOf(s, c);
    TallyIn(s.conns[c].log);
  }

  /** Whatever the events are: a connection is established once and first, and every handleClose it
      goes through, be it a second one, is paired with a callback, an erase and a connectDestroyed of
      its own, each of them made or on its way; state_ never leaves Disconnected again. */
  lemma EveryCloseIsPaired(s: State, c: Id)
    requires Reachable(s) && c in s.conns
    ensures s.conns[c].loop in s.loops && s.base in s.loops
    ensures var cn, t := s.conns[c], TallyOf(s.conns[c].log);
      && NextWaits(t, c, s.loops[cn.loop], s.loops[s.base])
      && (cn.tcp.state == S.Connecting <==> t.est == 0) && (cn.tcp.state == S.Disconnected <==> t.closed > 0)
  {
    hide Reachable, Inv, Work, S.Inv, NextWaits, InMap, TallyOf;
    ReachableInv(s);
    LifeOf(s, c);
    EstablishedFirst(TallyOf(s.conns[c].log), c, s.loops[s.conns[c].loop], s.loops[s.base]);
  }

  lemma EstablishedFirst(t: Tally, c: Id, io: Loop, ba: Loop)
    requires NextWaits(t, c, io, ba)
    ensures t.closed > 0 ==> t.est == 1
  {
  }

  /** connectDestroyed, when it runs, finds the connection closed: its Connected branch is dead. In
      a calm life it is the last thing missing. */
  lemma DestroyFindsDisconnected(s: State, l: nat)
    requires Reachable(s) && l in s.loops && s.loops[l].k != [] && s.loops[l].k[0] == Destroy
    ensures var c := s.loops[l].cur;
            && c in s.conns && s.conns[c].loop == l && s.conns[c].tcp.state == S.Disconnected
            && (!s.conns[c].wild ==> s.conns[c].log == LIFECYCLE[..5])
  {
    hide Reachable, Inv, S.Inv, Seen, ConnOk, Runs, InMap, Counts, ConnInv, TallyOf;
    ReachableInv(s);
    var c, rest := s.loops[l].cur, s.loops[l].k[1..];
    assert s.loops[l].k == [Destroy] + rest;
    HandKnown(s, l);
    HandRuns(s, l, c, Destroy, rest);
    DestroyStep(s.conns[c], Seen(s.loops[l], c), Seen(s.loops[s.base], c), l == s.base, InMap(s, c), Counts(rest),
                NO_OPS, Seen(s.loops[l], c).pin);
    LifeOf(s, c);
  }

  lemma HandKnown(s: State, l: nat)
    requires l in s.loops && s.loops[l].k != [] && s.loops[l].k[0] != User && Inv(s)
    ensures s.loops[l].cur in s.conns && s.base in s.loops
  {
    hide Inv, LoopOk, StaticOk, ConnInv;
    Parts(s, l, 0);
    KnownHand(s.loops[l], s.conns.Keys);
  }

  lemma KnownHand(lp: Loop, ids: set<Id>)
    requires KnownOk(ids, lp) && lp.k != [] && lp.k[0] != User
    ensures lp.cur in ids
  {
    hide Work;
    assert lp.k[0] in lp.k;
  }

  /** Nothing to do anywhere: no handler at hand, no functor queued or swapped out. */
  ghost predicate Quiescent(s: State) {
    forall l :: l in s.loops ==> s.loops[l].k == [] && Work(s.loops[l]) == []
  }

  /** No lifecycle step is ever lost: once the server has nothing left to do, every accepted
      connection is either up, in the map and registered with its loop's poller, or has gone the
      whole way, as often as it was closed, and is neither in the map nor registered. */
  lemma QuiescentIsSettled(s: State, c: Id)
    requires Reachable(s) && Quiescent(s) && c in s.conns
    ensures var cn, t := s.conns[c], TallyOf(s.conns[c].log);
      && cn.loop in s.loops && c in s.loops[cn.loop].poller.chans
      && t == Tally(1, 1, t.closed, t.closed, t.closed, t.closed)
      && var index := s.loops[cn.loop].poller.chans[c].index;
         if t.closed == 0 then
           InMap(s, c) && index == R.Added && (!cn.wild ==> cn.log == LIFECYCLE[..2])
         else
           !InMap(s, c) && index == R.New && (!cn.wild ==> cn.log == LIFECYCLE)
  {
    hide Reachable, Inv, Work, S.Inv, InMap, ConnInv, TallyOf;
    ReachableInv(s);
    LifeOf(s, c);
    assert LIFECYCLE[..6] == LIFECYCLE;
  }

  // ---- references ----

  /** With io loops apart from the base loop: every functor that binds a raw `this` and is still to
      run finds its connection kept alive and not destroyed, waits on the connection's own loop, and
      none is behind its connectDestroyed; once the connection is erased, that is behind it. */
  lemma RawFunctorsAreSafe(s: State, l: nat, c: Id, i: nat)
    requires Reachable(s) && s.pool != [] && l in s.loops && c in s.conns
    requires i < |Work(s.loops[l])| && Raw(Work(s.loops[l])[i], c)
    ensures var w := Work(s.loops[l]);
      && s.conns[c].loop == l && Alive(s, c) && Destroyed !in s.conns[c].log
      && DestroyFn(c) !in w[..i]
      && (Erased in s.conns[c].log ==> DestroyFn(c) in w[i..])
  {
    hide Reachable, Inv, Work, S.Inv, Alive, Seen, ConnInv, InMap, Token, PinOk, StateOk, IndexOk, Calm, TallyOf;
    ReachableInv(s);
    Parts(s, l, c);
    PlaceAt(s, l, c);
    Views(s, c);
    LifeOf(s, c);
    TallyIn(s.conns[c].log);
    var w := Work(s.loops[l]);
    assert RawIn(w, c);
    WorkWaiting(s.loops[l], c);
    OpsWaiting(s.loops[l], c);
    OnIoLoop(s, c);
    UnfinishedIsAlive(s, c);
    BehindIsLate(w, c, i);
    assert w == w[..i] + w[i..];
  }

  lemma BehindIsLate(w: seq<Fn>, c: Id, i: nat)
    requires i < |w| && Raw(w[i], c)
    ensures DestroyFn(c) in w[..i] ==> LateIn(w, c)
  {
    if DestroyFn(c) in w[..i] {
      var j :| 0 <= j < |w[..i]| && w[..i][j] == DestroyFn(c);
      assert w[j] == DestroyFn(c);
    }
  }

  lemma OnIoLoop(s: State, c: Id)
    requires c in s.conns && ConnInv(s, c) && s.pool != []
    ensures s.conns[c].loop != s.base
  {
  }

  /** A registered channel's connection is alive, and its descriptor is its own: in the whole
      server no two registered channels, and no two live connections, share one. */
  lemma RegisteredIsAlive(s: State, l: nat, c: Id)
    requires Reachable(s) && l in s.loops && c in s.loops[l].poller.chans && s.loops[l].poller.chans[c].index != R.New
    ensures c in s.conns && Alive(s, c) && s.conns[c].loop == l && s.loops[l].poller.chans[c].fd == s.conns[c].fd
    ensures forall d :: Alive(s, d) && d != c ==> s.conns[d].fd != s.conns[c].fd
    ensures forall m, d :: m in s.loops && d in s.loops[m].poller.chans && d != c ==>
              s.loops[m].poller.chans[d].index != R.New ==> s.loops[m].poller.chans[d].fd != s.conns[c].fd
    ensures forall fd :: CanAccept(s, fd) ==> fd != s.conns[c].fd
  {
    hide Reachable, Inv, Alive, ConnInv, LoopOk, KnownOk, R.Consistent, StaticOk;
    ReachableInv(s);
    RegisteredOne(s, l, c);
    Fds(s);
    forall m, d | m in s.loops && d in s.loops[m].poller.chans && s.loops[m].poller.chans[d].index != R.New && d != c
      ensures s.loops[m].poller.chans[d].fd != s.conns[c].fd
    {
      RegisteredOne(s, m, d);
    }
  }

  lemma RegisteredOne(s: State, l: nat, c: Id)
    requires l in s.loops && c in s.loops[l].poller.chans && s.loops[l].poller.chans[c].index != R.New && Inv(s)
    ensures c in s.conns && Alive(s, c) && s.conns[c].loop == l && s.loops[l].poller.chans[c].fd == s.conns[c].fd
  {
    hide Inv, Alive, ConnInv, LoopOk, KnownOk, StaticOk;
    Parts(s, l, c);
    KnownKeys(s.loops[l], s.conns.Keys);
    Parts(s, l, c);
    RegisteredHere(s, l, c);
    UnfinishedIsAlive(s, c);
  }

  /** So every poller agrees with its kernel set and no epoll_ctl was ever refused. */
  lemma PollersAgree(s: State, l: nat)
    requires Reachable(s) && l in s.loops
    ensures R.Consistent(s.loops[l].poller) && s.loops[l].poller.errors == 0
  {
    hide Reachable, Inv, LoopOk, KnownOk, StaticOk, ConnInv;
    ReachableInv(s);
    Parts(s, l, 0);
    LoopParts(s.loops[l]);
  }

  /** Dispatch safety: while the active list is walked, every channel not yet dispatched belongs to
      a connection of this loop that is alive, so that the dispatch guard's lock never fails, and is
      registered with its poller; in a calm life the connection is in the map and up. */
  lemma UndispatchedIsSafe(s: State, l: nat, i: nat)
    requires Reachable(s) && l in s.loops && i < |s.loops[l].active|
    ensures var c := s.loops[l].active[i].c;
      && c in s.conns && Alive(s, c) && s.conns[c].loop == l
      && c in s.loops[l].poller.chans && s.loops[l].poller.chans[c].index == R.Added
      && (!s.conns[c].wild ==>
            InMap(s, c) && s.conns[c].log == LIFECYCLE[..2] && s.conns[c].tcp.state != S.Disconnected)
  {
    hide Reachable, Inv, Alive, ConnInv, LoopOk, KnownOk, StaticOk, Seen, InMap, S.Inv;
    ReachableInv(s);
    Parts(s, l, 0);
    KnownKeys(s.loops[l], s.conns.Keys);
    var c := s.loops[l].active[i].c;
    assert s.loops[l].active[i] in s.loops[l].active;
    SeenParts(s.loops[l], c);
    ActiveIsAlive(s, l, c);
    LifeOf(s, c);
  }

  // ---- the guards of the steps exclude nothing that can come up ----

  /** A loop about to take a functor can always run it: with io loops apart from the base loop no
      functor ever meets a connection that is gone. */
  lemma EveryFunctorRuns(s: State, l: nat, r: S.WriteResult)
    requires Reachable(s) && s.pool != [] && l in s.loops && L.Enabled(s.loops[l].el, L.RunNext) && Free(s.loops[l])
    ensures var f := s.loops[l].el.batch[s.loops[l].el.pos];
      && (!f.UserFn? ==> f.c in s.conns)
      && (CanRun(s, l, r) <==> (f.SendFn? ==> S.Fits(s.conns[f.c].tcp, |f.msg|, r)))
  {
    hide Reachable, Inv, Alive, ConnInv, LoopOk, KnownOk, StaticOk, S.Fits, Work, S.Inv, InMap;
    ReachableInv(s);
    NextFunctor(s, l);
    var f, w := s.loops[l].el.batch[s.loops[l].el.pos], Work(s.loops[l]);
    if f.SendFn? || f.ShutdownFn? {
      assert w[0] == f && Raw(w[0], f.c);
      RawFunctorsAreSafe(s, l, f.c, 0);
      Parts(s, l, f.c);
      ChannelKnown(s, f.c);
    }
  }

  /** A handler under way can always go on, and its connection is alive. */
  lemma EveryHandlerAdvances(s: State, l: nat, r: S.WriteResult)
    requires Reachable(s) && l in s.loops && s.loops[l].k != [] && s.loops[l].k[0] != User && !s.loops[l].el.owes
    ensures s.loops[l].cur in s.conns && Alive(s, s.loops[l].cur)
    ensures var t := s.conns[s.loops[l].cur].tcp; CanAdvance(s, l, r) <==> S.Fits(t, |t.out|, r)
  {
    hide Reachable, Inv, Alive, ConnInv, LoopOk, KnownOk, StaticOk, S.Fits, S.Inv;
    ReachableInv(s);
    HandKnown(s, l);
    var c, rest := s.loops[l].cur, s.loops[l].k[1..];
    assert s.loops[l].k == [s.loops[l].k[0]] + rest;
    HandFacts(s, l, c, s.loops[l].k[0], rest);
    Parts(s, l, c);
    LoopParts(s.loops[l]);
    ChannelKnown(s, c);
  }

  /** The accepting loop can always take a connection on a descriptor that is not open. */
  lemma EveryAcceptIsTaken(s: State, fd: int)
    requires Reachable(s)
    ensures s.base in s.loops
    ensures CanAccept(s, fd) <==>
              s.loops[s.base].el.pc == L.Dispatch && Free(s.loops[s.base])
              && fd !in s.reserved && (forall c :: Alive(s, c) ==> s.conns[c].fd != fd)
  {
    hide Reachable, Inv, ConnInv, LoopOk, KnownOk;
    ReachableInv(s);
    Parts(s, 0, 0);
    var io := T.Pick(s.base, s.pool, s.next);
    Parts(s, io, 0);
    KnownKeys(s.loops[io], s.conns.Keys);
  }

  /** A step of loop l's own thread. */
  predicate OnThread(st: Step, l: nat) {
    match st
    case Owner(m, _) => m == l
    case Poll(m, _, _) => m == l
    case DispatchNext(m) => m == l
    case DispatchDone(m) => m == l
    case RunNext(m, _) => m == l
    case Advance(m, _, _) => m == l
    case UserEnd(m) => m == l
    case _ => false
  }

  ghost predicate CanGoOn(s: State, l: nat) { exists st :: OnThread(st, l) && Enabled(s, st) }

  lemma GoesOn(s: State, l: nat, st: Step)
    requires OnThread(st, l) && Enabled(s, st)
    ensures CanGoOn(s, l)
  {
    hide Enabled, OnThread;
  }

  /** Between two pieces of work the loop's own text goes on. */
  lemma FreeGoesOn(s: State, l: nat)
    requires l in s.loops && Free(s.loops[l]) && s.loops[l].el.pc != L.Outside
    requires s.loops[l].el.pc == L.Running ==> s.loops[l].el.pos == |s.loops[l].el.batch|
    ensures CanGoOn(s, l)
  {
    var lp := s.loops[l];
    var st := match lp.el.pc
      case Head => Owner(l, L.TestQuit)
      case Poll => Poll(l, false, [])
      case Dispatch =>
        if lp.el.wakeReported then Owner(l, L.HandleRead)
        else if lp.active != [] then DispatchNext(l)
        else Owner(l, L.StartPass)
      case Swapping => Owner(l, L.Swap)
      case _ => Owner(l, L.EndPass);
    hide Alive, L.Apply, CanGoOn;
    GoesOn(s, l, st);
  }

  /** No loop of the server is ever stuck: its thread can always take a step of its own. The one
      exception is a single-loop server about to run a raw functor of a connection that is gone. */
  lemma LoopsGoOn(s: State, l: nat)
    requires Reachable(s) && l in s.loops
    ensures var el := s.loops[l].el;
      || CanGoOn(s, l)
      || (s.pool == [] && L.Enabled(el, L.RunNext)
          && var f := el.batch[el.pos]; (f.SendFn? || f.ShutdownFn?) && !Alive(s, f.c))
  {
    hide Reachable, Inv, Alive, ConnInv, LoopOk, KnownOk, StaticOk, S.Inv, CanGoOn, L.Inv, CanAdvance, CanRun;
    ReachableInv(s);
    Parts(s, l, 0);
    LoopParts(s.loops[l]);
    var lp := s.loops[l];
    if lp.el.owes {
      GoesOn(s, l, Owner(l, L.OwnerWrite));
    } else if lp.k != [] {
      if lp.k[0] == User {
        GoesOn(s, l, UserEnd(l));
      } else {
        EveryHandlerAdvances(s, l, S.Broken);
        GoesOn(s, l, Advance(l, 0, S.Broken));
      }
    } else if lp.guard.Some? {
      GoesOn(s, l, DispatchDone(l));
    } else if L.Enabled(lp.el, L.RunNext) {
      NextRuns(s, l);
    } else {
      LoopParts(lp);
      WorkIs(lp);
      FreeGoesOn(s, l);
    }
  }

  lemma NextRuns(s: State, l: nat)
    requires l in s.loops && L.Enabled(s.loops[l].el, L.RunNext) && Free(s.loops[l])
    requires Reachable(s)
    ensures var f := s.loops[l].el.batch[s.loops[l].el.pos];
            CanGoOn(s, l) || (s.pool == [] && (f.SendFn? || f.ShutdownFn?) && !Alive(s, f.c))
  {
    hide Reachable, Inv, Alive, ConnInv, LoopOk, KnownOk, StaticOk, S.Inv, CanGoOn;
    ReachableInv(s);
    NextFunctor(s, l);
    var f := s.loops[l].el.batch[s.loops[l].el.pos];
    if s.pool != [] {
      EveryFunctorRuns(s, l, S.Broken);
      GoesOn(s, l, RunNext(l, S.Broken));
    } else if (f.SendFn? || f.ShutdownFn?) && !Alive(s, f.c) {
    } else {
      if f.SendFn? || f.ShutdownFn? {
        Parts(s, l, f.c);
        ChannelKnown(s, f.c);
      }
      GoesOn(s, l, RunNext(l, S.Broken));
    }
  }

  /** The end of a dispatch releases the guard, and the loop is free for the next channel or pass. */
  lemma DispatchEnds(s: State, l: nat)
    requires CanFinish(s, l)
    ensures var t := Apply(s, DispatchDone(l)); Free(t.loops[l]) && t.loops[l].active == s.loops[l].active
  {
  }

  /** Every loop asleep, with nothing queued. */
  ghost predicate Asleep(s: State) {
    forall l :: l in s.loops ==> s.loops[l].el.pc == L.Poll && s.loops[l].el.pending == []
  }

  lemma SleeperHoldsNothing(lp: Loop, c: Id)
    requires LoopOk(lp) && lp.el.pc == L.Poll && lp.el.pending == []
    ensures !HoldsRef(lp, c) && lp.k == [] && Work(lp) == []
  {
    hide R.Consistent;
  }

  /** Nothing is leaked and nothing lost: while all loops sleep, a connection is alive exactly if it is
      in the map, and then up and registered, or user code holds it. */
  lemma NothingLeaks(s: State, c: Id)
    requires Reachable(s) && Asleep(s) && c in s.conns
    ensures Alive(s, c) <==> InMap(s, c) || c in s.held
    ensures InMap(s, c) <==> Closed !in s.conns[c].log
    ensures InMap(s, c) ==> var l := s.conns[c].loop;
            l in s.loops && c in s.loops[l].poller.chans && s.loops[l].poller.chans[c].index == R.Added
  {
    hide Reachable, Inv, LoopOk, KnownOk, StaticOk, ConnInv, InMap, HoldsRef, Work, S.Inv, TallyOf;
    ReachableInv(s);
    forall l | l in s.loops ensures !HoldsRef(s.loops[l], c) && s.loops[l].k == [] && Work(s.loops[l]) == [] {
      Parts(s, l, c);
      SleeperHoldsNothing(s.loops[l], c);
    }
    QuiescentIsSettled(s, c);
    TallyIn(s.conns[c].log);
  }
}
