/** Every step of the server that cuts no off-loop call keeps its invariant, hence every run does. */
module ServerExecution {
  import opened Servers
  import opened ServerInvariant
  import opened ServerLoops
  import opened ServerConns
  import opened ServerSteps
  import opened ServerReferences
  import opened ServerHandlers
  import opened ServerRuns
  import opened ServerAdvance
  import opened ServerAccept
  import R = Registration
  import S = Streams
  import L = LoopProtocol

  // ---- every step keeps the invariant ----

  lemma TakenQueue(lp: Loop)
    requires L.Enabled(lp.el, L.RunNext) && Free(lp)
    ensures var lq := Started(lp, [], lp.cur);
      && lq == lp.(el := L.Apply(lp.el, L.RunNext)) && L.InCallback(lq.el) && !lq.el.owes
      && lq.el.batch == lp.el.batch && lq.el.pending == lp.el.pending
  {
  }

  lemma RawRunKeepsInv(s: State, l: nat, r: S.WriteResult)
    requires CanRun(s, l, r)
    requires var f := s.loops[l].el.batch[s.loops[l].el.pos]; f.SendFn? || f.ShutdownFn?
    requires Inv(s)
    ensures Inv(DoRun(s, l, r))
  {
    hide Inv, Alive, S.Inv, S.SendInLoop, S.ShutdownInLoop, StreamMoves, LoopOk, KnownOk, ConnInv, StaticOk, Seen,
         InMap, Output, Synced, L.Apply;
    var lp := s.loops[l];
    var f := lp.el.batch[lp.el.pos];
    var c := f.c;
    RunConnKeepsInv(s, l, f, c, false);
    NextFunctor(s, l);
    Parts(s, l, c);
    ChannelKnown(s, c);
    TakenQueue(lp);
    var t, cn := OnLoop(s, l, Started(lp, [], lp.cur)), s.conns[c];
    AliveWithK(s, l, t.loops[l], c);
    if f.SendFn? {
      SendMoves(s.cfg, cn.tcp, f.msg, r);
      var o := S.SendInLoop(s.cfg, cn.tcp, f.msg, r);
      OutputKeepsInv(t, l, c, o);
      OnLoopTwice(s, l, t.loops[l], Output(t.loops[l], c, cn.tcp.interest, o));
    } else {
      ShutdownMoves(s.cfg, cn.tcp);
      SameInterest(cn.tcp);
      NotSynced(t, c);
      StreamKeepsInv(t, c, S.ShutdownInLoop(cn.tcp));
    }
  }

  lemma ShutdownMoves(cfg: S.Config, t: S.Tcp)
    requires S.Inv(t) && (t.state == S.Disconnecting || t.state == S.Disconnected)
    ensures StreamMoves(t, S.ShutdownInLoop(t))
  {
    S.ActKeepsInv(cfg, t, S.RawShutdown);
  }

  lemma RunKeepsInv(s: State, l: nat, r: S.WriteResult)
    requires Inv(s) && CanRun(s, l, r)
    ensures Inv(DoRun(s, l, r))
  {
    hide Inv, Alive, S.Inv, S.SendInLoop, S.ShutdownInLoop, Output, L.Apply, S.Fits;
    var lp := s.loops[l];
    var f := lp.el.batch[lp.el.pos];
    NextFunctor(s, l);
    match f {
      case UserFn => RunUserKeepsInv(s, l);
      case NoticeFn(_, _) => RunUserKeepsInv(s, l);
      case RemoveFn(c) => RunRemoveKeepsInv(s, l, c);
      case EstablishFn(c) => RunConnKeepsInv(s, l, f, c, false);
      case DestroyFn(c) => RunConnKeepsInv(s, l, f, c, false);
      case ForceCloseFn(c) =>
        RunConnKeepsInv(s, l, f, c, CanCall(s.conns[c].tcp, ForceClose));
        TakenQueue(lp);
      case SendFn(_, _) => RawRunKeepsInv(s, l, r);
      case ShutdownFn(_) => RawRunKeepsInv(s, l, r);
    }
  }

  lemma AdvanceKeepsInv(s: State, l: nat, n: int, r: S.WriteResult)
    requires Inv(s) && CanAdvance(s, l, r)
    ensures Inv(DoAdvance(s, l, n, r))
  {
    hide Inv, Alive, S.Inv, S.Established, S.Closed, S.HandleWrite, S.DrainCheck, S.Drains, R.Change,
         R.RemoveChannel, Output, L.Apply, S.Fits, L.InCallback, Seen, ConnOk, Runs, Name;
    var lp, c, op, rest := s.loops[l], s.loops[l].cur, s.loops[l].k[0], s.loops[l].k[1..];
    assert lp.k == [op] + rest;
    assert AtHand(s, l, c, op, rest);
    match op {
      case Est => EstKeepsInv(s, l, c, rest);
      case Up => UpKeepsInv(s, l, c, rest);
      case Close => CloseKeepsInv(s, l, c, rest);
      case Down => DownKeepsInv(s, l, c, rest);
      case Report =>
        if l == s.base { ReportHereKeepsInv(s, l, c, rest); } else { ReportAwayKeepsInv(s, l, c, rest); }
      case Erase =>
        if s.conns[c].loop == l { EraseHereKeepsInv(s, l, c, rest); } else { EraseAwayKeepsInv(s, l, c, rest); }
      case Destroy => DestroyKeepsInv(s, l, c, rest);
      case Remove =>
        NoRemoveAtHand(s, l, c, op, rest);
        assert false;
      case Read =>
        assert [] + rest == rest;
        if n == 0 {
          EndKeepsInv(s, l, c, rest);
        } else {
          PassKeepsInv(s, l, c, op, rest, if n > 0 then [User] else []);
        }
      case Write => WriteKeepsInv(s, l, c, rest, r);
      case Drain => DrainKeepsInv(s, l, c, rest);
      case User => assert false;
    }
  }

  lemma NoRemoveAtHand(s: State, l: nat, c: Id, op: Op, rest: seq<Op>)
    requires Inv(s) && AtHand(s, l, c, op, rest)
    ensures op != Remove
  {
    hide Inv, Seen, ConnOk, InMap, Counts, One, OpCounts.Plus, ConnInv;
    if op != Erase {
      HandRuns(s, l, c, op, rest);
      NoRemoveStep(s.conns[c], Seen(s.loops[l], c), Seen(s.loops[s.base], c), l == s.base, InMap(s, c), op,
                   Counts(rest));
    }
  }

  lemma StepKeepsInv(s: State, st: Step)
    requires Inv(s) && Enabled(s, st) && Atomic(st)
    ensures Inv(Apply(s, st))
  {
    hide Inv, Alive, CanPoll, CanDispatch, CanAccept, CanRun, CanAdvance, CanUserCall, CanOtherCall, DoDispatch,
         DoAccept,
         DoRun, DoAdvance, DoUserCall, DoOtherCall, DoPoll, L.Apply, L.Enabled, Free;
    match st {
      case Owner(l, a) => QuietStepKeepsInv(s, l, a);
      case Poll(l, wake, active) => PollKeepsInv(s, l, wake, active);
      case DispatchNext(l) => DispatchKeepsInv(s, l);
      case DispatchDone(l) => FinishKeepsInv(s, l);
      case Accept(fd) => AcceptKeepsInv(s, fd);
      case RunNext(l, r) => RunKeepsInv(s, l, r);
      case Advance(l, n, r) => AdvanceKeepsInv(s, l, n, r);
      case UserCall(l, c, call, r) => UserCallKeepsInv(s, l, c, call, r);
      case UserPush(l) => UserPushKeepsInv(s, l);
      case UserEnd(l) => UserEndKeepsInv(s, l);
      case OtherWrite(l) => OtherWriteKeepsInv(s, l);
      case OtherCall(c, call) => OtherCallKeepsInv(s, c, call);
      case OtherPush(l) => OtherPushKeepsInv(s, l);
      case Hold(c) => HeldKeepsInv(s, s.held + {c});
      case Release(c) => HeldKeepsInv(s, s.held - {c});
    }
  }

  lemma UserPushKeepsInv(s: State, l: nat)
    requires Inv(s) && CanUserPush(s, l)
    ensures Inv(OnLoop(s, l, Queued(s.loops[l], UserFn)))
  {
    hide Inv, L.Apply;
    UserFunctorKeepsInv(s, l, L.OwnerPush(UserFn));
  }

  lemma OtherPushKeepsInv(s: State, l: nat)
    requires Inv(s) && l in s.loops
    ensures Inv(Deliver(s, l, UserFn))
  {
    hide Inv, L.Apply;
    UserFunctorKeepsInv(s, l, L.OtherPush(UserFn));
  }

  lemma OtherWriteKeepsInv(s: State, l: nat)
    requires Inv(s) && l in s.loops && s.loops[l].el.writers > 0
    ensures Inv(DoEl(s, l, L.OtherWrite))
  {
    hide Inv, L.Apply;
    QuietStepKeepsInv(s, l, L.OtherWrite);
  }

  lemma HeldKeepsInv(s: State, held: set<Id>)
    requires Inv(s) && forall c :: c in held && c !in s.held ==> Alive(s, c)
    ensures Inv(s.(held := held))
  {
    hide Inv, Alive;
    Parts(s, 0, 0);
    MapIsAlive(s);
    HoldKeepsInv(s, held);
  }

  // ---- runs ----

  ghost predicate Executable(s: State, run: seq<Step>)
    decreases |run|
  {
    run != [] ==> Enabled(s, run[0]) && Executable(Apply(s, run[0]), run[1..])
  }

  ghost function Exec(s: State, run: seq<Step>): State
    requires Executable(s, run)
    decreases |run|
  {
    if run == [] then s else Exec(Apply(s, run[0]), run[1..])
  }

  /** Which assumptions a run keeps: that each off-loop test of state_, store and push is one step,
      and that no event is a close and a read. */
  datatype Mode = Mode(atomic: bool, benign: bool)

  const ATOMIC: Mode := Mode(true, false)

  predicate Allowed(m: Mode, st: Step) { (m.atomic ==> Atomic(st)) && (m.benign ==> BenignPoll(st)) }

  predicate AllAllowed(m: Mode, run: seq<Step>) { forall i :: 0 <= i < |run| ==> Allowed(m, run[i]) }

  /** A state that some run of a started server ends in which keeps the assumptions of m. */
  ghost predicate Ends(s: State, m: Mode) {
    exists s0, run :: Init(s0) && Executable(s0, run) && s == Exec(s0, run) && AllAllowed(m, run)
  }

  lemma Weaken(s: State, m: Mode, m': Mode)
    requires Ends(s, m) && (m'.atomic ==> m.atomic) && (m'.benign ==> m.benign)
    ensures Ends(s, m')
  {
    hide Init, Executable, Exec, Atomic, BenignPoll;
    var s0, run :| Init(s0) && Executable(s0, run) && s == Exec(s0, run) && AllAllowed(m, run);
    assert AllAllowed(m', run);
  }

  /** Whatever events the polls report. */
  ghost predicate Reachable(s: State) { Ends(s, ATOMIC) }

  lemma {:induction false} ExecKeepsInv(s: State, run: seq<Step>)
    requires Inv(s) && Executable(s, run) && forall i :: 0 <= i < |run| ==> Atomic(run[i])
    ensures Inv(Exec(s, run))
    decreases |run|
  {
    hide Inv, Enabled, Apply, Atomic;
    if run != [] {
      StepKeepsInv(s, run[0]);
      ExecKeepsInv(Apply(s, run[0]), run[1..]);
    }
  }

  lemma ReachableInv(s: State)
    requires Reachable(s)
    ensures Inv(s)
  {
    hide Inv, Init, Enabled, Apply, Atomic;
    var s0, run :| Init(s0) && Executable(s0, run) && s == Exec(s0, run) && AllAllowed(ATOMIC, run);
    assert forall i :: 0 <= i < |run| ==> Allowed(ATOMIC, run[i]);
    InitInv(s0);
    ExecKeepsInv(s0, run);
  }
}
