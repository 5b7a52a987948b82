/** Accounts of whole runs of the server, of any mode: which step starts which part of a handler, what
    each part leaves in a connection's history, and what every loop's queue is given. What is counted
    is read off the steps and the states they start from. */
module ServerAccounts {
  import opened Servers
  import opened ServerInvariant
  import opened ServerSteps
  import opened ServerHandlers
  import opened ServerExecution
  import opened ServerEveryRun
  import R = Registration
  import S = Streams
  import L = LoopProtocol
  import Ch = Channels
  import T = ThreadPools
  import B = Buffers
  import C = TcpConnections

  // ---- the parts of handlers ----

  predicate IsUp(t: S.Tcp) { t.state == S.Connected || t.state == S.Disconnecting }

  /** What taking a functor starts for c. */
  ghost function BegunByFn(s: State, f: Fn, c: Id): seq<Op> {
    match f
    case EstablishFn(d) => Opt(d == c, Est)
    case DestroyFn(d) => Opt(d == c, Destroy)
    case RemoveFn(d) => Opt(d == c, Erase)
    case ForceCloseFn(d) => Opt(d == c && d in s.conns && IsUp(s.conns[d].tcp), Close)
    case NoticeFn(_, _) => Opt(c == 0, User)
    case UserFn => Opt(c == 0, User)
    case SendFn(_, _) => []
    case ShutdownFn(_) => []
  }

  /** What a part leads to: a read that returned n, a write with result r. */
  function BegunByPart(op: Op, cn: Conn, l: nat, base: nat, n: int, r: S.WriteResult): seq<Op> {
    match op
    case Est => [Up]
    case Up => [User]
    case Close => [Down]
    case Down => [User, Report]
    case Report => Opt(l == base, Erase)
    case Erase => Opt(cn.loop == l, Destroy)
    case Destroy => if cn.tcp.state == S.Connected then [User, Remove] else []
    case Read => if n > 0 then [User] else Opt(n == 0, Close)
    case Write => Opt(cn.tcp.interest.write && r.Wrote? && 0 < r.n == |cn.tcp.out|, Drain)
    case Remove => []
    case Drain => []
    case User => []
  }

  /** What a dispatch starts: handleClose on a hang-up without IN, handleRead on IN or PRI, handleWrite
      on OUT, in this order. */
  function BegunByEvent(r: Ch.Revents): seq<Op> {
    Opt(r.hup && !r.pollin, Close) + Opt(r.pollin || r.pri, Read) + Opt(r.out, Write)
  }

  /** The parts of c's handlers a step starts on loop l. */
  ghost function Begun(s: State, st: Step, l: nat, c: Id): seq<Op>
    requires Enabled(s, st)
  {
    match st
    case DispatchNext(m) =>
      var a := s.loops[m].active[0];
      if m == l && a.c == c && Alive(s, c) then BegunByEvent(a.revents) else []
    case Accept(_) => Opt(l == s.base && T.Pick(s.base, s.pool, s.next) == l && c == s.nextId, Est)
    case RunNext(m, _) => if m == l then BegunByFn(s, s.loops[m].el.batch[s.loops[m].el.pos], c) else []
    case Advance(m, n, r) =>
      if m == l && s.loops[m].cur == c then BegunByPart(s.loops[m].k[0], s.conns[c], l, s.base, n, r) else []
    case _ => []
  }

  /** The part it runs. */
  ghost function Ran(s: State, st: Step, l: nat, c: Id): seq<Op>
    requires Enabled(s, st)
  {
    match st
    case Advance(m, _, _) => if m == l && s.loops[m].cur == c then [s.loops[m].k[0]] else []
    case UserEnd(m) => Opt(m == l && s.loops[m].cur == c, User)
    case _ => []
  }

  /** What was at hand gives way: the part run goes, the parts started come in front. */
  ghost predicate PartsStep(s: State, st: Step, s': State, l: nat, c: Id)
    requires Enabled(s, st) && l in s.loops
  {
    && l in s'.loops
    && var k, ran := KFor(s.loops[l], c), Ran(s, st, l, c);
       ran <= k && KFor(s'.loops[l], c) == Begun(s, st, l, c) + k[|ran|..]
  }

  ghost predicate SameHand(s: State, s': State) {
    s'.loops.Keys == s.loops.Keys
    && forall l :: l in s.loops ==> s'.loops[l].k == s.loops[l].k && s'.loops[l].cur == s.loops[l].cur
  }

  lemma OutputHand(lp: Loop, c: Id, before: R.Interest, o: S.Outcome)
    requires L.InCallback(lp.el) && !lp.el.owes && c in lp.poller.chans
    ensures var lp' := Output(lp, c, before, o); lp'.k == lp.k && lp'.cur == lp.cur
  {
    hide L.Apply, R.Change;
  }

  lemma DispatchParts(s: State, l: nat, m: nat, c: Id)
    requires CanDispatch(s, m) && l in s.loops
    ensures PartsStep(s, DispatchNext(m), DoDispatch(s, m), l, c)
  {
    hide Alive, OpsOf, Ch.Callbacks;
    DispatchedSeq(s.loops[m].active[0].revents);
  }

  lemma AcceptParts(s: State, l: nat, fd: int, c: Id)
    requires CanAccept(s, fd) && l in s.loops
    ensures PartsStep(s, Accept(fd), DoAccept(s, fd), l, c)
  {
    hide Alive, L.Apply, R.Create, Name, T.Pick;
  }

  lemma RunParts(s: State, l: nat, m: nat, r: S.WriteResult, c: Id)
    requires CanRun(s, m, r) && l in s.loops
    ensures PartsStep(s, RunNext(m, r), DoRun(s, m, r), l, c)
  {
    hide Alive, L.Apply, Output, S.SendInLoop, S.ShutdownInLoop;
    var lp := s.loops[m];
    var f := lp.el.batch[lp.el.pos];
    if f.SendFn? {
      var t := s.conns[f.c].tcp;
      AfterTake(lp.el);
      OutputHand(lp.(el := L.Apply(lp.el, L.RunNext)), f.c, t.interest, S.SendInLoop(s.cfg, t, f.msg, r));
    }
  }

  lemma WriteParts(s: State, l: nat, m: nat, n: int, r: S.WriteResult, c: Id)
    requires CanAdvance(s, m, r) && l in s.loops && s.loops[m].k[0] == Write
    ensures PartsStep(s, Advance(m, n, r), DoAdvance(s, m, n, r), l, c)
  {
    hide Output, S.HandleWrite;
    var lp := s.loops[m];
    var t := s.conns[lp.cur].tcp;
    OutputHand(lp.(k := if S.Drains(t, r) then [Drain] + lp.k[1..] else lp.k[1..]), lp.cur, t.interest,
               S.HandleWrite(s.cfg, t, r));
  }

  lemma DeliverHand(s: State, m: nat, f: Fn)
    requires m in s.loops
    ensures SameHand(s, Deliver(s, m, f))
  {
    hide L.Apply;
  }

  /** The parts that may hand a functor to another loop. */
  lemma ReportParts(s: State, l: nat, m: nat, n: int, r: S.WriteResult, c: Id)
    requires CanAdvance(s, m, r) && l in s.loops && s.loops[m].k[0] == Report
    ensures PartsStep(s, Advance(m, n, r), DoAdvance(s, m, n, r), l, c)
  {
    hide Deliver, S.Fits, L.InCallback;
    var lp := s.loops[m];
    if m != s.base { DeliverHand(OnLoop(s, m, lp.(k := lp.k[1..])), s.base, RemoveFn(lp.cur)); }
  }

  lemma EraseParts(s: State, l: nat, m: nat, n: int, r: S.WriteResult, c: Id)
    requires CanAdvance(s, m, r) && l in s.loops && s.loops[m].k[0] == Erase
    ensures PartsStep(s, Advance(m, n, r), DoAdvance(s, m, n, r), l, c)
  {
    hide Deliver, Name, S.Fits, L.InCallback;
    var lp, d := s.loops[m], s.loops[m].cur;
    var u := OnConn(s, d, Logged(s.conns[d], Erased)).(connections := s.connections - {Name(s, d)});
    if s.conns[d].loop != m { DeliverHand(OnLoop(u, m, lp.(k := lp.k[1..])), s.conns[d].loop, DestroyFn(d)); }
  }

  lemma AdvanceParts(s: State, l: nat, m: nat, n: int, r: S.WriteResult, c: Id)
    requires CanAdvance(s, m, r) && l in s.loops
    ensures PartsStep(s, Advance(m, n, r), DoAdvance(s, m, n, r), l, c)
  {
    hide L.Apply, Output, S.HandleWrite, S.Drains, S.DrainCheck, S.Established, S.Closed, R.Change, R.RemoveChannel,
         Name, S.Fits, L.InCallback, Deliver;
    match s.loops[m].k[0] {
      case Write => WriteParts(s, l, m, n, r, c);
      case Report => ReportParts(s, l, m, n, r, c);
      case Erase => EraseParts(s, l, m, n, r, c);
      case _ =>
    }
  }

  lemma CallParts(s: State, st: Step, l: nat, c: Id)
    requires Enabled(s, st) && (st.UserCall? || st.OtherCall?) && l in s.loops
    ensures PartsStep(s, st, Apply(s, st), l, c)
  {
    hide Alive, L.Apply, Output, S.SendInLoop, S.ShutdownInLoop, S.CloseRequested, Requested;
    if st.UserCall? && st.call.Send? {
      AliveKnown(s, st.c);
      var lp, t := s.loops[st.l], s.conns[st.c].tcp;
      OutputHand(lp, st.c, t.interest, S.SendInLoop(s.cfg, t, st.call.msg, st.r));
    }
  }

  predicate Quiet(st: Step) {
    && !st.DispatchNext? && !st.Accept? && !st.RunNext? && !st.Advance? && !st.UserCall? && !st.OtherCall?
    && !st.UserEnd?
  }

  lemma QuietHand(s: State, st: Step)
    requires Enabled(s, st) && Quiet(st)
    ensures SameHand(s, Apply(s, st))
  {
    hide Alive, L.Apply, L.Enabled;
  }

  lemma UserEndParts(s: State, l: nat, m: nat, c: Id)
    requires CanUserPush(s, m) && l in s.loops
    ensures PartsStep(s, UserEnd(m), Apply(s, UserEnd(m)), l, c)
  {
  }

  lemma StepParts(s: State, st: Step, l: nat, c: Id)
    requires Enabled(s, st) && l in s.loops
    ensures PartsStep(s, st, Apply(s, st), l, c)
  {
    hide Alive, L.Apply, L.Enabled, CanRun, DoRun, CanAdvance, DoAdvance, CanUserCall, DoUserCall, CanOtherCall,
         DoOtherCall, CanDispatch, DoDispatch, CanAccept, DoAccept, PartsStep, SameHand;
    match st {
      case DispatchNext(m) => DispatchParts(s, l, m, c);
      case Accept(fd) => AcceptParts(s, l, fd, c);
      case RunNext(m, r) => RunParts(s, l, m, r, c);
      case Advance(m, n, r) => AdvanceParts(s, l, m, n, r, c);
      case UserCall(_, _, _, _) => CallParts(s, st, l, c);
      case OtherCall(_, _) => CallParts(s, st, l, c);
      case UserEnd(m) => UserEndParts(s, l, m, c);
      case _ =>
        QuietHand(s, st);
        QuietParts(s, st, Apply(s, st), l, c);
    }
  }

  lemma QuietParts(s: State, st: Step, s': State, l: nat, c: Id)
    requires Enabled(s, st) && l in s.loops && Quiet(st) && SameHand(s, s')
    ensures PartsStep(s, st, s', l, c)
  {
    hide Enabled;
  }

  // ---- the history of a connection ----

  /** The events a part leaves in the history of its connection. */
  function EventsOfPart(op: Op, t: S.Tcp): seq<Event> {
    match op
    case Est => [Established]
    case Up => [UpCalled]
    case Close => [Closed]
    case Down => [DownCalled]
    case Erase => [Erased]
    case Destroy => [Destroyed] + Opt(t.state == S.Connected, DownCalled)
    case _ => []
  }

  ghost function Events(s: State, st: Step, c: Id): seq<Event>
    requires Enabled(s, st)
  {
    if st.Advance? && s.loops[st.l].cur == c then EventsOfPart(s.loops[st.l].k[0], s.conns[c].tcp) else []
  }

  function LogOf(s: State, c: Id): seq<Event> { if c in s.conns then s.conns[c].log else [] }

  /** Connections stay, on their loops, and no history changes. */
  ghost predicate SameLogs(s: State, s': State) {
    && s'.conns.Keys == s.conns.Keys
    && forall c :: c in s.conns ==> s'.conns[c].log == s.conns[c].log && s'.conns[c].loop == s.conns[c].loop
  }

  lemma AdvanceLogs(s: State, l: nat, n: int, r: S.WriteResult)
    requires CanAdvance(s, l, r)
    ensures var s', d := DoAdvance(s, l, n, r), s.loops[l].cur;
      && s'.conns.Keys == s.conns.Keys && s'.conns[d].loop == s.conns[d].loop
      && s'.conns[d].log == s.conns[d].log + EventsOfPart(s.loops[l].k[0], s.conns[d].tcp)
      && forall c :: c in s.conns && c != d ==> s'.conns[c] == s.conns[c]
  {
    hide L.Apply, Output, S.HandleWrite, S.Drains, S.DrainCheck, S.Established, S.Closed, R.Change, R.RemoveChannel,
         Name, S.Fits, L.InCallback, Deliver;
    var log := s.conns[s.loops[l].cur].log;
    assert log + [] == log && log + [Destroyed] + [DownCalled] == log + ([Destroyed] + [DownCalled]);
    DeliverLogs();
  }

  lemma DeliverLogs()
    ensures forall s: State, l, f :: l in s.loops ==> Deliver(s, l, f).conns == s.conns
  {
    hide L.Apply;
  }

  lemma RunLogs(s: State, l: nat, r: S.WriteResult)
    requires CanRun(s, l, r)
    ensures SameLogs(s, DoRun(s, l, r))
  {
    hide Alive, L.Apply, Output, S.SendInLoop, S.ShutdownInLoop;
  }

  lemma CallLogs(s: State, st: Step)
    requires Enabled(s, st) && (st.UserCall? || st.OtherCall?)
    ensures SameLogs(s, Apply(s, st))
  {
    hide Alive, L.Apply, Output, S.SendInLoop, S.ShutdownInLoop, S.CloseRequested, Requested;
    AliveKnown(s, st.c);
  }

  lemma OtherLogs(s: State, st: Step)
    requires Enabled(s, st) && !st.Accept? && !st.RunNext? && !st.Advance? && !st.UserCall? && !st.OtherCall?
    ensures SameLogs(s, Apply(s, st))
  {
    hide Alive, L.Apply, L.Enabled, OpsOf;
    if st.DispatchNext? { ServerEveryRun.AliveIsKnown(s, s.loops[st.l].active[0].c); }
  }

  /** A step keeps the connections on their loops and adds to a history what its part says. */
  lemma StepEvents(s: State, st: Step, c: Id)
    requires Enabled(s, st) && s.nextId !in s.conns
    ensures LogOf(Apply(s, st), c) == LogOf(s, c) + Events(s, st, c)
    ensures c in s.conns ==> c in Apply(s, st).conns && Apply(s, st).conns[c].loop == s.conns[c].loop
  {
    hide Alive, L.Apply, L.Enabled, CanRun, DoRun, DoAdvance, CanUserCall, DoUserCall, CanOtherCall,
         DoOtherCall, CanDispatch, DoDispatch, CanAccept, R.Create, Name, T.Pick, S.Fits;
    assert LogOf(s, c) + [] == LogOf(s, c);
    match st {
      case Accept(fd) =>
      case RunNext(l, r) => RunLogs(s, l, r);
      case Advance(l, n, r) => AdvanceLogs(s, l, n, r);
      case UserCall(_, _, _, _) => CallLogs(s, st);
      case OtherCall(_, _) => CallLogs(s, st);
      case _ => OtherLogs(s, st);
    }
  }

  // ---- the account of a run ----

  function Times<T(==)>(xs: seq<T>, x: T): nat { multiset(xs)[x] }

  /** How often a run starts part op of c's handlers on loop l, and how often it runs it. */
  ghost function BegunIn(s: State, run: seq<Step>, l: nat, c: Id, op: Op): nat
    requires Executable(s, run)
    decreases |run|
  {
    if run == [] then 0
    else Times(Begun(s, run[0], l, c), op) + BegunIn(Apply(s, run[0]), run[1..], l, c, op)
  }

  ghost function RanIn(s: State, run: seq<Step>, l: nat, c: Id, op: Op): nat
    requires Executable(s, run)
    decreases |run|
  {
    if run == [] then 0 else Times(Ran(s, run[0], l, c), op) + RanIn(Apply(s, run[0]), run[1..], l, c, op)
  }

  function OnHand(s: State, l: nat, c: Id, op: Op): nat {
    if l in s.loops then Times(KFor(s.loops[l], c), op) else 0
  }

  lemma StepBalance(s: State, st: Step, l: nat, c: Id, op: Op)
    requires Enabled(s, st) && l in s.loops
    ensures l in Apply(s, st).loops
    ensures OnHand(s, l, c, op) + Times(Begun(s, st, l, c), op)
         == Times(Ran(s, st, l, c), op) + OnHand(Apply(s, st), l, c, op)
  {
    hide Enabled, Apply, Begun, Ran;
    StepParts(s, st, l, c);
    var k, ran := KFor(s.loops[l], c), Ran(s, st, l, c);
    assert k == ran + k[|ran|..];
  }

  /** No part of a handler is run that was not started, and none started is dropped: in every run of
      a started server each one has been run or is still at hand. */
  lemma {:induction false} EveryPartIsRun(s: State, run: seq<Step>, l: nat, c: Id, op: Op)
    requires Executable(s, run) && l in s.loops
    ensures l in Exec(s, run).loops
    ensures OnHand(s, l, c, op) + BegunIn(s, run, l, c, op)
         == RanIn(s, run, l, c, op) + OnHand(Exec(s, run), l, c, op)
    decreases |run|
  {
    hide Enabled, Apply, Begun, Ran, OnHand, Times;
    if run != [] {
      StepBalance(s, run[0], l, c, op);
      EveryPartIsRun(Apply(s, run[0]), run[1..], l, c, op);
    }
  }

  // ---- why a connection closes ----

  /** The server's read part and the object's handleRead, told the same by readv: the part closes
      exactly if the object calls closeCallback_, and calls the user exactly if the object does. */
  lemma ReadIsHandleRead(kernel: B.IoResult, n: int, cn: Conn, l: nat, base: nat, r: S.WriteResult)
    requires if kernel.Done? then n == kernel.n else n < 0
    ensures var parts, calls := BegunByPart(Read, cn, l, base, n, r), C.ReadCalls(kernel);
      && (Close in parts <==> C.CloseCall in calls) && (User in parts <==> C.MessageCall in calls) && |parts| <= 1
  {
  }

  /** The bits that start each handler of a connection. */
  lemma EventBits(m: bv16)
    ensures var parts := BegunByEvent(Ch.ReventsOf(m));
      && (Close in parts <==> m & Ch.POLLHUP != 0 && m & Ch.POLLIN == 0)
      && (Read in parts <==> m & Ch.POLLIN != 0 || m & Ch.POLLPRI != 0)
      && (Write in parts <==> m & Ch.POLLOUT != 0)
  {
  }

  /** What makes a loop close c: a read of it returned 0; its event is a hang-up without IN; a
      forceClose functor finds it up. */
  ghost function CloseCause(s: State, st: Step, l: nat, c: Id): nat
    requires Enabled(s, st)
  {
    match st
    case Advance(m, n, _) => Bit(m == l && s.loops[m].cur == c && s.loops[m].k[0] == Read && n == 0)
    case DispatchNext(m) =>
      var a := s.loops[m].active[0];
      Bit(m == l && a.c == c && Alive(s, c) && a.revents.hup && !a.revents.pollin)
    case RunNext(m, _) =>
      Bit(m == l && s.loops[m].el.batch[s.loops[m].el.pos] == ForceCloseFn(c) && c in s.conns && IsUp(s.conns[c].tcp))
    case _ => 0
  }

  ghost function CloseCauses(s: State, run: seq<Step>, l: nat, c: Id): nat
    requires Executable(s, run)
    decreases |run|
  {
    if run == [] then 0 else CloseCause(s, run[0], l, c) + CloseCauses(Apply(s, run[0]), run[1..], l, c)
  }

  lemma CauseStarts(s: State, st: Step, l: nat, c: Id)
    requires Enabled(s, st)
    ensures Times(Begun(s, st, l, c), Close) == CloseCause(s, st, l, c)
  {
    hide Alive, L.InCallback, S.Fits, T.Pick, CanAccept, Times, BegunByEvent, BegunByFn,
         BegunByPart, Opt;
    NoTimes();
    match st {
      case DispatchNext(m) => EventTimes(s.loops[m].active[0].revents);
      case RunNext(m, _) => FnTimes(s, s.loops[m].el.batch[s.loops[m].el.pos], c);
      case Advance(m, n, r) => PartTimes(s.loops[m].k[0], s.conns[s.loops[m].cur], l, s.base, n, r);
      case _ =>
    }
  }

  lemma NoTimes()
    ensures Times<Op>([], Close) == 0 && Times(Opt(true, Est), Close) == Times(Opt(false, Est), Close) == 0
  {
  }

  lemma EventTimes(r: Ch.Revents)
    ensures Times(BegunByEvent(r), Close) == Bit(r.hup && !r.pollin)
  {
  }

  lemma FnTimes(s: State, f: Fn, c: Id)
    ensures Times(BegunByFn(s, f, c), Close)
         == Bit(f == ForceCloseFn(c) && c in s.conns && IsUp(s.conns[c].tcp))
  {
  }

  lemma PartTimes(op: Op, cn: Conn, l: nat, base: nat, n: int, r: S.WriteResult)
    ensures Times(BegunByPart(op, cn, l, base, n, r), Close) == Bit(op == Read && n == 0)
  {
    match op
    case Est => case Up => case Close => case Down => case Report => case Erase =>
    case Destroy => case Remove => case Read => case Write => case Drain => case User =>
  }

  /** The part that closes c runs on c's own loop and is what its history records. */
  lemma CloseRecorded(s: State, st: Step, l: nat, c: Id)
    requires Enabled(s, st) && (c in s.conns ==> s.conns[c].loop == l)
    requires Kept(s)
    ensures Times(Events(s, st, c), Closed) == Times(Ran(s, st, l, c), Close)
  {
    hide Kept, Alive, S.Fits, L.Enabled, L.InCallback;
    if st.Advance? { KeptAt(s, st.l, c); }
  }

  lemma {:induction false} ExecLoops(s: State, run: seq<Step>, c: Id)
    requires Executable(s, run) && c in s.conns
    requires Kept(s)
    ensures c in Exec(s, run).conns && Exec(s, run).conns[c].loop == s.conns[c].loop
    decreases |run|
  {
    hide Kept, Enabled, Apply;
    if run != [] {
      StepKeeps(s, run[0]);
      KeptAt(s, 0, s.nextId);
      StepEvents(s, run[0], c);
      ExecLoops(Apply(s, run[0]), run[1..], c);
    }
  }

  lemma {:induction false} CloseBalance(s: State, run: seq<Step>, l: nat, c: Id)
    requires Executable(s, run) && l in s.loops
    requires c in Exec(s, run).conns ==> Exec(s, run).conns[c].loop == l
    requires Kept(s)
    ensures Times(LogOf(Exec(s, run), c), Closed) == Times(LogOf(s, c), Closed) + RanIn(s, run, l, c, Close)
    ensures BegunIn(s, run, l, c, Close) == CloseCauses(s, run, l, c)
    decreases |run|
  {
    hide Kept, Enabled, Apply, Begun, Ran, CloseCause, Events;
    if c in s.conns { ExecLoops(s, run, c); }
    if run != [] {
      var t := Apply(s, run[0]);
      StepKeeps(s, run[0]);
      KeptAt(s, 0, s.nextId);
      StepEvents(s, run[0], c);
      StepParts(s, run[0], l, c);
      CauseStarts(s, run[0], l, c);
      CloseRecorded(s, run[0], l, c);
      CloseBalance(t, run[1..], l, c);
    }
  }

  /** Every handleClose has a cause of its own, and every cause closes: in any run, the closes in a
      connection's history and those at hand are together exactly the reads of it that returned 0,
      the hang-ups without IN dispatched to it, and the forceClose functors that found it up. */
  lemma CloseHasCause(s: State, run: seq<Step>, c: Id)
    requires Init(s) && Executable(s, run) && c in Exec(s, run).conns
    ensures var t := Exec(s, run); var cn := t.conns[c];
      && cn.loop in t.loops
      && Times(cn.log, Closed) + OnHand(t, cn.loop, c, Close) == CloseCauses(s, run, cn.loop, c)
  {
    hide Kept, Enabled, Apply;
    InitKept(s);
    ExecKeeps(s, run);
    var t := Exec(s, run);
    KeptAt(t, 0, c);
    var l := t.conns[c].loop;
    assert l in t.loops;
    NoNewLoop(s, run, l);
    CloseBalance(s, run, l, c);
    EveryPartIsRun(s, run, l, c, Close);
  }

  lemma {:induction false} NoNewLoop(s: State, run: seq<Step>, l: nat)
    requires Executable(s, run) && l in Exec(s, run).loops
    ensures l in s.loops
    decreases |run|
  {
    hide Enabled, Apply;
    if run != [] {
      NoNewLoop(Apply(s, run[0]), run[1..], l);
      StepLoops(s, run[0], l);
    }
  }

  lemma StepLoops(s: State, st: Step, l: nat)
    requires Enabled(s, st) && l in Apply(s, st).loops
    ensures l in s.loops
  {
    hide Alive, L.Apply, L.Enabled, CanRun, DoRun, CanAdvance, DoAdvance, CanUserCall, DoUserCall, CanOtherCall,
         DoOtherCall, R.Create, Name, Reported, OpsOf;
    match st {
      case RunNext(m, r) => RunMild(s, m, r);
      case Advance(m, n, r) => AdvanceMild(s, m, n, r);
      case UserCall(_, _, _, _) => CallMild(s, st);
      case OtherCall(_, _) => CallMild(s, st);
      case _ =>
    }
  }

  // ---- reported events ----

  /** The events a step's poll reports on loop l, and the one its dispatch takes. */
  function Polled(st: Step, l: nat): seq<Active> { if st.Poll? && st.l == l then st.active else [] }

  ghost function TurnedTo(s: State, st: Step, l: nat): seq<Active>
    requires Enabled(s, st)
  {
    if st.DispatchNext? && st.l == l then [s.loops[l].active[0]] else []
  }

  lemma StepActive(s: State, st: Step, l: nat)
    requires Enabled(s, st) && Atomic(st) && l in s.loops
    requires Inv(s)
    ensures l in Apply(s, st).loops
    ensures s.loops[l].active + Polled(st, l) == TurnedTo(s, st, l) + Apply(s, st).loops[l].active
  {
    hide Inv, Enabled, Apply, Atomic, AsMild, TurnedTo;
    StepParts(s, st, l, 0);
    if st.Poll? {
      PollActive(s, st, l);
    } else if st.DispatchNext? {
      DispatchActive(s, st, l);
    } else {
      if st.Accept? {
        AcceptActive(s, st, l);
      } else {
        OtherActive(s, st);
        SameActive(s, Apply(s, st), l);
      }
      NoTurn(s, st, l);
    }
  }

  lemma NoTurn(s: State, st: Step, l: nat)
    requires Enabled(s, st) && l in s.loops && !st.DispatchNext? && !st.Poll?
    ensures TurnedTo(s, st, l) == [] && Polled(st, l) == []
    ensures s.loops[l].active + [] == [] + s.loops[l].active
  {
    hide Enabled;
  }

  lemma PollActive(s: State, st: Step, l: nat)
    requires Enabled(s, st) && l in s.loops && st.Poll?
    requires Inv(s)
    ensures l in Apply(s, st).loops
    ensures s.loops[l].active + Polled(st, l) == TurnedTo(s, st, l) + Apply(s, st).loops[l].active
  {
    hide Inv, L.Apply, L.Enabled, Servers.Reported;
    NoneLeft(s, st.l, st.wake);
    var active := s.loops[l].active;
    assert active + [] == active && [] + active == active && [] + st.active == st.active;
  }

  lemma DispatchActive(s: State, st: Step, l: nat)
    requires Enabled(s, st) && l in s.loops && st.DispatchNext?
    ensures l in Apply(s, st).loops
    ensures s.loops[l].active + Polled(st, l) == TurnedTo(s, st, l) + Apply(s, st).loops[l].active
  {
    hide Alive, OpsOf, Ch.Callbacks;
    var active := s.loops[st.l].active;
    assert active == [active[0]] + active[1..];
    assert s.loops[l].active + [] == s.loops[l].active && [] + s.loops[l].active == s.loops[l].active;
  }

  lemma AcceptActive(s: State, st: Step, l: nat)
    requires Enabled(s, st) && l in s.loops && st.Accept?
    ensures l in Apply(s, st).loops && Apply(s, st).loops[l].active == s.loops[l].active
  {
    hide Alive, L.Apply, R.Create, Name, T.Pick;
  }

  lemma QuietActive(s: State, st: Step)
    requires Enabled(s, st) && !st.DispatchNext? && !st.Poll? && !st.Accept?
    requires !st.RunNext? && !st.Advance? && !st.UserCall? && !st.OtherCall?
    ensures AsMild(s, Apply(s, st))
  {
    hide Alive, L.Apply, L.Enabled;
  }

  lemma OtherActive(s: State, st: Step)
    requires Enabled(s, st) && !st.DispatchNext? && !st.Poll? && !st.Accept?
    ensures AsMild(s, Apply(s, st))
  {
    hide Alive, L.Apply, L.Enabled, CanRun, DoRun, CanAdvance, DoAdvance, CanUserCall, DoUserCall, CanOtherCall,
         DoOtherCall, AsMild;
    match st {
      case RunNext(m, r) => RunMild(s, m, r);
      case Advance(m, n, r) => AdvanceMild(s, m, n, r);
      case UserCall(_, _, _, _) => CallMild(s, st);
      case OtherCall(_, _) => CallMild(s, st);
      case _ => QuietActive(s, st);
    }
  }

  lemma SameActive(s: State, s': State, l: nat)
    requires AsMild(s, s') && l in s'.loops
    ensures l in s.loops && s'.loops[l].active == s.loops[l].active
  {
  }

  /** A loop polls only with its last list walked to the end. */
  lemma NoneLeft(s: State, l: nat, wake: bool)
    requires l in s.loops && L.Enabled(s.loops[l].el, L.PollReturns(wake))
    requires Inv(s)
    ensures s.loops[l].active == []
  {
    hide Inv, KnownOk, StaticOk, ConnInv, L.Inv, R.Consistent;
    Parts(s, l, 0);
  }

  ghost function PolledIn(run: seq<Step>, l: nat): seq<Active>
    decreases |run|
  {
    if run == [] then [] else Polled(run[0], l) + PolledIn(run[1..], l)
  }

  ghost function TurnedIn(s: State, run: seq<Step>, l: nat): seq<Active>
    requires Executable(s, run)
    decreases |run|
  {
    if run == [] then [] else TurnedTo(s, run[0], l) + TurnedIn(Apply(s, run[0]), run[1..], l)
  }

  lemma {:induction false} ActiveBalance(s: State, run: seq<Step>, l: nat)
    requires Executable(s, run) && (forall i :: 0 <= i < |run| ==> Atomic(run[i])) && l in s.loops
    requires Inv(s)
    ensures l in Exec(s, run).loops
    ensures s.loops[l].active + PolledIn(run, l) == TurnedIn(s, run, l) + Exec(s, run).loops[l].active
    decreases |run|
  {
    hide Inv, Enabled, Apply, Atomic, Polled, TurnedTo;
    if run == [] {
      assert s.loops[l].active + [] == s.loops[l].active && [] + s.loops[l].active == s.loops[l].active;
    } else {
      var t := Apply(s, run[0]);
      StepActive(s, run[0], l);
      StepKeepsInv(s, run[0]);
      ActiveBalance(t, run[1..], l);
      var a, p, q, d, e := s.loops[l].active, Polled(run[0], l), PolledIn(run[1..], l), TurnedTo(s, run[0], l),
                           TurnedIn(t, run[1..], l);
      Chain(a, p, q, d, t.loops[l].active, e, Exec(s, run).loops[l].active);
    }
  }

  lemma Chain(a: seq<Active>, p: seq<Active>, q: seq<Active>, d: seq<Active>, b: seq<Active>, e: seq<Active>,
              z: seq<Active>)
    requires a + p == d + b && b + q == e + z
    ensures a + (p + q) == (d + e) + z
  {
    assert a + (p + q) == (a + p) + q;
    assert (d + b) + q == d + (b + q);
    assert d + (e + z) == (d + e) + z;
  }

  /** Every event the polls of a loop report is dispatched once, in the order of the reports, or still
      waits in the active list. */
  lemma EventsAreDispatched(s: State, run: seq<Step>, l: nat)
    requires Init(s) && Executable(s, run) && (forall i :: 0 <= i < |run| ==> Atomic(run[i])) && l in s.loops
    ensures l in Exec(s, run).loops && PolledIn(run, l) == TurnedIn(s, run, l) + Exec(s, run).loops[l].active
  {
    hide Inv, Enabled, Apply, Atomic;
    InitInv(s);
    ActiveBalance(s, run, l);
    assert [] + PolledIn(run, l) == PolledIn(run, l);
  }
}
