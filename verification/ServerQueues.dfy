/** The traffic between the loops, over whole runs of any mode: which functors a step hands to which
    queue, and that a loop runs exactly those, once each and in the order they were handed over. */
module ServerQueues {
  import opened Servers
  import opened ServerSteps
  import opened ServerHandlers
  import opened ServerExecution
  import opened ServerEveryRun
  import R = Registration
  import S = Streams
  import L = LoopProtocol
  import T = ThreadPools
  import B = Buffers

  /** The functor an off-loop call binds. */
  function Bound(c: Id, call: Call): Fn {
    match call case Send(msg) => SendFn(c, msg) case Shutdown => ShutdownFn(c) case ForceClose => ForceCloseFn(c)
  }

  /** The call does something to a connection in this state. */
  predicate Takes(t: S.Tcp, call: Call) {
    t.state == S.Connected || (call.ForceClose? && t.state == S.Disconnecting)
  }

  function Noticed(c: Id, ns: seq<S.Notice>): seq<Fn> {
    if ns == [] then [] else [NoticeFn(c, ns[0])] + Noticed(c, ns[1..])
  }

  /** What a part of a handler on loop m hands to loop l: the removal to the base loop, the
      connectDestroyed to the connection's loop, the notices of a write to its own. */
  function FromPart(s: State, m: nat, l: nat, r: S.WriteResult): seq<Fn>
    requires CanAdvance(s, m, r)
  {
    var c, op := s.loops[m].cur, s.loops[m].k[0];
    var cn := s.conns[c];
    if op == Report then Opt(m != s.base && l == s.base, RemoveFn(c))
    else if op == Erase then Opt(cn.loop != m && l == cn.loop, DestroyFn(c))
    else if op == Write && l == m then Noticed(c, S.HandleWrite(s.cfg, cn.tcp, r).notices)
    else []
  }

  /** What a call on the loop's own thread queues there: the notices of a send, the functor of a forceClose. */
  ghost function FromUserCall(s: State, c: Id, call: Call, r: S.WriteResult): seq<Fn>
    requires c in s.conns && (call.Send? ==> S.Fits(s.conns[c].tcp, |call.msg|, r))
  {
    var t := s.conns[c].tcp;
    if call.Send? && t.state == S.Connected then Noticed(c, S.SendInLoop(s.cfg, t, call.msg, r).notices)
    else Opt(call.ForceClose? && Takes(t, call), ForceCloseFn(c))
  }

  /** What a step hands to the queue of loop l. */
  ghost function Handed(s: State, st: Step, l: nat): seq<Fn>
    requires Enabled(s, st)
  {
    match st
    case Accept(_) => Opt(T.Pick(s.base, s.pool, s.next) == l && l != s.base, EstablishFn(s.nextId))
    case Advance(m, _, r) => FromPart(s, m, l, r)
    case RunNext(m, r) =>
      var f := s.loops[m].el.batch[s.loops[m].el.pos];
      if f.SendFn? && m == l then Noticed(f.c, S.SendInLoop(s.cfg, s.conns[f.c].tcp, f.msg, r).notices) else []
    case UserCall(m, c, call, r) => AliveKnown(s, c); if m == l then FromUserCall(s, c, call, r) else []
    case OtherCall(c, call) =>
      AliveKnown(s, c);
      Opt(s.conns[c].loop == l && Takes(s.conns[c].tcp, call), Bound(c, call))
    case Hand(i) =>
      var x := s.inflight[i];
      Opt(s.conns[x.c].loop == l, Bound(x.c, x.call))
    case UserPush(m) => Opt(m == l, UserFn)
    case OtherPush(m) => Opt(m == l, UserFn)
    case _ => []
  }

  /** The functor a step takes from loop l's batch. */
  ghost function TakenBy(s: State, st: Step, l: nat): seq<Fn>
    requires Enabled(s, st)
  {
    if st.RunNext? && st.l == l then [s.loops[l].el.batch[s.loops[l].el.pos]] else []
  }

  ghost predicate QueueStep(s: State, st: Step, s': State, l: nat)
    requires Enabled(s, st) && l in s.loops
  {
    && l in s'.loops && s'.loops[l].el.pushed == s.loops[l].el.pushed + Handed(s, st, l)
    && s'.loops[l].el.executed == s.loops[l].el.executed + TakenBy(s, st, l)
  }

  lemma PushedEl(el: L.State<Fn>, a: L.Step<Fn>)
    requires L.Enabled(el, a)
    ensures L.Apply(el, a).pushed == el.pushed + if a.OwnerPush? || a.OtherPush? then [a.f] else []
    ensures L.Apply(el, a).executed == el.executed + if a.RunNext? then [el.batch[el.pos]] else []
  {
    L.StepRecords(el, a);
    hide L.Apply;
  }

  // ---- one lemma a kind of step ----

  lemma OneNotice(cfg: S.Config, t: S.Tcp, msg: seq<B.Byte>, r: S.WriteResult)
    requires r.Wrote? ==> r.n <= |msg|
    ensures |S.SendInLoop(cfg, t, msg, r).notices| <= 1
  {
  }

  lemma OneNoticeWritten(cfg: S.Config, t: S.Tcp, r: S.WriteResult)
    requires r.Wrote? ==> r.n <= |t.out|
    ensures |S.HandleWrite(cfg, t, r).notices| <= 1
  {
  }

  lemma Unchanged(el: L.State<Fn>)
    ensures el.pushed + [] == el.pushed && el.executed + [] == el.executed
  {
  }

  lemma OutputPushed(lp: Loop, c: Id, before: R.Interest, o: S.Outcome)
    requires L.InCallback(lp.el) && !lp.el.owes && c in lp.poller.chans && |o.notices| <= 1
    ensures Output(lp, c, before, o).el.pushed == lp.el.pushed + Noticed(c, o.notices)
    ensures Output(lp, c, before, o).el.executed == lp.el.executed
  {
    hide L.Apply, R.Change;
    Unchanged(lp.el);
    if o.notices != [] {
      assert o.notices[1..] == [];
      assert Noticed(c, o.notices) == [NoticeFn(c, o.notices[0])];
      PushedEl(lp.el, L.OwnerPush(NoticeFn(c, o.notices[0])));
    }
  }

  lemma DeliverPushed(s: State, m: nat, f: Fn)
    requires m in s.loops
    ensures var s' := Deliver(s, m, f);
      && s'.loops.Keys == s.loops.Keys && s'.loops[m].el.pushed == s.loops[m].el.pushed + [f]
      && s'.loops[m].el.executed == s.loops[m].el.executed
      && forall l :: l in s.loops && l != m ==> s'.loops[l] == s.loops[l]
  {
    PushedEl(s.loops[m].el, L.OtherPush(f));
    hide L.Apply;
  }

  lemma AcceptQueued(s: State, fd: int, l: nat)
    requires CanAccept(s, fd) && l in s.loops
    ensures QueueStep(s, Accept(fd), DoAccept(s, fd), l)
  {
    hide Alive, L.Apply, R.Create, Name, T.Pick;
    var io := T.Pick(s.base, s.pool, s.next);
    PushedEl(s.loops[io].el, L.OtherPush(EstablishFn(s.nextId)));
    Unchanged(s.loops[l].el);
  }

  lemma RunQueued(s: State, m: nat, r: S.WriteResult, l: nat)
    requires CanRun(s, m, r) && l in s.loops
    ensures QueueStep(s, RunNext(m, r), DoRun(s, m, r), l)
  {
    hide Alive, L.Apply, Output, S.SendInLoop, S.ShutdownInLoop;
    var lp := s.loops[m];
    var f := lp.el.batch[lp.el.pos];
    PushedEl(lp.el, L.RunNext);
    Unchanged(s.loops[l].el);
    if f.SendFn? {
      var t := s.conns[f.c].tcp;
      AfterTake(lp.el);
      OneNotice(s.cfg, t, f.msg, r);
      OutputPushed(lp.(el := L.Apply(lp.el, L.RunNext)), f.c, t.interest, S.SendInLoop(s.cfg, t, f.msg, r));
    }
  }

  lemma WriteQueued(s: State, m: nat, n: int, r: S.WriteResult, l: nat)
    requires CanAdvance(s, m, r) && l in s.loops && s.loops[m].k[0] == Write
    ensures QueueStep(s, Advance(m, n, r), DoAdvance(s, m, n, r), l)
  {
    hide Output, S.HandleWrite, S.Drains;
    var lp := s.loops[m];
    var t := s.conns[lp.cur].tcp;
    OneNoticeWritten(s.cfg, t, r);
    OutputPushed(lp.(k := if S.Drains(t, r) then [Drain] + lp.k[1..] else lp.k[1..]), lp.cur, t.interest,
                 S.HandleWrite(s.cfg, t, r));
    Unchanged(s.loops[l].el);
  }

  lemma HandQueued(s: State, m: nat, n: int, r: S.WriteResult, l: nat)
    requires CanAdvance(s, m, r) && l in s.loops && (s.loops[m].k[0] == Report || s.loops[m].k[0] == Erase)
    ensures QueueStep(s, Advance(m, n, r), DoAdvance(s, m, n, r), l)
  {
    hide Deliver, Name, S.Fits, L.InCallback;
    var lp, d := s.loops[m], s.loops[m].cur;
    Unchanged(s.loops[l].el);
    if lp.k[0] == Report {
      if m != s.base { DeliverPushed(OnLoop(s, m, lp.(k := lp.k[1..])), s.base, RemoveFn(d)); }
    } else {
      var u := OnConn(s, d, Logged(s.conns[d], Erased)).(connections := s.connections - {Name(s, d)});
      if s.conns[d].loop != m { DeliverPushed(OnLoop(u, m, lp.(k := lp.k[1..])), s.conns[d].loop, DestroyFn(d)); }
    }
  }

  lemma AdvanceQueued(s: State, m: nat, n: int, r: S.WriteResult, l: nat)
    requires CanAdvance(s, m, r) && l in s.loops
    ensures QueueStep(s, Advance(m, n, r), DoAdvance(s, m, n, r), l)
  {
    hide L.Apply, Output, S.HandleWrite, S.Drains, S.DrainCheck, S.Established, S.Closed, R.Change, R.RemoveChannel,
         Name, S.Fits, L.InCallback, Deliver;
    Unchanged(s.loops[l].el);
    match s.loops[m].k[0] {
      case Write => WriteQueued(s, m, n, r, l);
      case Report => HandQueued(s, m, n, r, l);
      case Erase => HandQueued(s, m, n, r, l);
      case _ =>
    }
  }

  lemma UserCallQueued(s: State, m: nat, c: Id, call: Call, r: S.WriteResult, l: nat)
    requires CanUserCall(s, m, c, call, r) && l in s.loops
    ensures QueueStep(s, UserCall(m, c, call, r), DoUserCall(s, m, c, call, r), l)
  {
    hide Alive, L.Apply, Output, S.SendInLoop, S.ShutdownInLoop, S.CloseRequested;
    AliveKnown(s, c);
    var lp, t := s.loops[m], s.conns[c].tcp;
    Unchanged(s.loops[l].el);
    if call.Send? {
      OneNotice(s.cfg, t, call.msg, r);
      OutputPushed(lp, c, t.interest, S.SendInLoop(s.cfg, t, call.msg, r));
    } else {
      PushedEl(lp.el, L.OwnerPush(ForceCloseFn(c)));
    }
  }

  lemma OtherCallQueued(s: State, c: Id, call: Call, l: nat)
    requires CanOtherCall(s, c) && l in s.loops
    ensures QueueStep(s, OtherCall(c, call), DoOtherCall(s, c, call), l)
  {
    hide Alive, Deliver, S.CloseRequested, Requested;
    AliveKnown(s, c);
    var cn := s.conns[c];
    Unchanged(s.loops[l].el);
    if CanCall(cn.tcp, call) {
      DeliverPushed(OnConn(s, c, cn.(tcp := Requested(cn.tcp, call))), cn.loop, FnOf(c, call));
    }
  }

  lemma HandedOver(s: State, i: nat, l: nat)
    requires CanHand(s, i) && l in s.loops
    ensures QueueStep(s, Hand(i), DoHand(s, i), l)
  {
    hide Deliver;
    var x := s.inflight[i];
    Unchanged(s.loops[l].el);
    DeliverPushed(s.(inflight := s.inflight[..i] + s.inflight[i + 1..]), s.conns[x.c].loop, FnOf(x.c, x.call));
  }

  predicate QueueOnly(st: Step) { st.Owner? || st.Poll? || st.OtherWrite? || st.UserPush? || st.OtherPush? }

  /** The steps of a loop's queue. */
  lemma OwnQueued(s: State, st: Step, l: nat)
    requires Enabled(s, st) && l in s.loops && QueueOnly(st)
    ensures QueueStep(s, st, Apply(s, st), l)
  {
    hide L.Apply, L.Enabled, Reported, Free;
    Unchanged(s.loops[l].el);
    var el := s.loops[st.l].el;
    match st {
      case Owner(_, a) => PushedEl(el, a);
      case Poll(_, wake, _) => PushedEl(el, L.PollReturns(wake));
      case OtherWrite(_) =>
        EnabledWrite(el);
        PushedEl(el, L.OtherWrite);
      case UserPush(_) =>
        EnabledPush(el, UserFn);
        PushedEl(el, L.OwnerPush(UserFn));
      case OtherPush(_) =>
        EnabledPush(el, UserFn);
        PushedEl(el, L.OtherPush(UserFn));
    }
  }

  lemma EnabledWrite(el: L.State<Fn>)
    ensures el.writers > 0 ==> L.Enabled(el, L.OtherWrite)
  {
  }

  lemma EnabledPush(el: L.State<Fn>, f: Fn)
    ensures L.Enabled(el, L.OtherPush(f)) && (L.InCallback(el) && !el.owes ==> L.Enabled(el, L.OwnerPush(f)))
  {
  }

  /** The steps that touch no queue. */
  lemma OtherQueued(s: State, st: Step, l: nat)
    requires Enabled(s, st) && l in s.loops && !QueueOnly(st)
    requires !st.Accept? && !st.RunNext? && !st.Advance? && !st.UserCall? && !st.OtherCall? && !st.Hand?
    ensures QueueStep(s, st, Apply(s, st), l)
  {
    hide Alive, OpsOf;
    Unchanged(s.loops[l].el);
  }

  lemma StepQueued(s: State, st: Step, l: nat)
    requires Enabled(s, st) && l in s.loops
    ensures QueueStep(s, st, Apply(s, st), l)
  {
    hide Alive, L.Apply, L.Enabled, CanRun, DoRun, CanAdvance, DoAdvance, CanUserCall, DoUserCall, CanOtherCall,
         DoOtherCall, CanAccept, DoAccept, CanHand, DoHand, QueueStep;
    match st {
      case Accept(fd) => AcceptQueued(s, fd, l);
      case RunNext(m, r) => RunQueued(s, m, r, l);
      case Advance(m, n, r) => AdvanceQueued(s, m, n, r, l);
      case UserCall(m, c, call, r) => UserCallQueued(s, m, c, call, r, l);
      case OtherCall(c, call) => OtherCallQueued(s, c, call, l);
      case Hand(i) => HandedOver(s, i, l);
      case _ => if QueueOnly(st) { OwnQueued(s, st, l); } else { OtherQueued(s, st, l); }
    }
  }

  // ---- runs ----

  /** All that the steps of a run hand to the queue of loop l, in order. */
  ghost function HandedIn(s: State, run: seq<Step>, l: nat): seq<Fn>
    requires Executable(s, run)
    decreases |run|
  {
    if run == [] then [] else Handed(s, run[0], l) + HandedIn(Apply(s, run[0]), run[1..], l)
  }

  lemma {:induction false} PushedIsHanded(s: State, run: seq<Step>, l: nat)
    requires Executable(s, run) && l in s.loops
    ensures l in Exec(s, run).loops
    ensures Exec(s, run).loops[l].el.pushed == s.loops[l].el.pushed + HandedIn(s, run, l)
    decreases |run|
  {
    hide Enabled, Apply, Handed;
    if run == [] {
      Unchanged(s.loops[l].el);
    } else {
      StepQueued(s, run[0], l);
      var t := Apply(s, run[0]);
      PushedIsHanded(t, run[1..], l);
      L.Regroup(s.loops[l].el.pushed, Handed(s, run[0], l), HandedIn(t, run[1..], l));
    }
  }

  /** Every functor handed over is run once, on the loop it was meant for, in the order of the
      handing over, or still waits there: what a loop has run, the rest of its batch and what it has
      pending are exactly what newConnection, the close and erase of its connections, the off-loop
      calls, the forceCloses, the notices of its writes and user code gave it. */
  lemma HandedIsRun(s: State, run: seq<Step>, m: Mode, l: nat)
    requires Init(s) && Executable(s, run) && AllAllowed(m, run) && l in s.loops
    ensures l in Exec(s, run).loops
    ensures var el := Exec(s, run).loops[l].el;
            el.pos <= |el.batch| && el.executed + el.batch[el.pos..] + el.pending == HandedIn(s, run, l)
  {
    hide Enabled, Apply, AllAllowed;
    PushedIsHanded(s, run, l);
    assert Ends(Exec(s, run), m);
    LoopsAreServed(Exec(s, run), m, l);
    assert s.loops[l].el.pushed == [];
    assert [] + HandedIn(s, run, l) == HandedIn(s, run, l);
  }
}
