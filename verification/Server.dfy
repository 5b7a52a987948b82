/** TcpServer.cc and the cross-loop life of its connections: the whole server as one step system.

    Every loop carries its own queue protocol (LoopProtocol) and poller (Registration), every
    connection its own output path (Streams); the steps below only say who calls what, when.
    A loop's thread works through `k`, the rest of what the handler or functor at hand still
    has to do, all of it for connection `cur` (0 if for none); other threads' steps fall anywhere between. */
module Servers {
  import opened Options
  import R = Registration
  import S = Streams
  import L = LoopProtocol
  import Ch = Channels
  import Names
  import B = Buffers
  import T = ThreadPools

  type Id = nat

  /** What sits in a loop's queue. SendFn and ShutdownFn bind a raw `this`; all others a shared_ptr. */
  datatype Fn =
    | EstablishFn(c: Id) | DestroyFn(c: Id) | ForceCloseFn(c: Id) | RemoveFn(c: Id) | NoticeFn(c: Id, n: S.Notice)
    | SendFn(c: Id, msg: seq<B.Byte>) | ShutdownFn(c: Id)
    | UserFn

  predicate On(f: Fn, c: Id) { !f.UserFn? && f.c == c }

  predicate Raw(f: Fn, c: Id) { (f.SendFn? || f.ShutdownFn?) && f.c == c }

  predicate Strong(f: Fn, c: Id) { On(f, c) && !Raw(f, c) }

  /** The parts of the handlers, cut where other threads can see or change something:
      connectEstablished = Est, Up; handleClose = Close, Down, Report; removeConnectionInLoop =
      Erase; connectDestroyed = Destroy (and Remove apart, if it finds Connected); handleRead =
      Read; handleWrite = Write, Drain. User is the body of a user callback. */
  datatype Op = Est | Up | Close | Down | Report | Erase | Destroy | Remove | Read | Write | Drain | User

  datatype Active = Active(c: Id, revents: Ch.Revents)

  datatype Loop = Loop(el: L.State<Fn>, k: seq<Op>, cur: Id, active: seq<Active>, guard: Option<Id>,
                       poller: R.Poller<Id>)

  /** What has happened to a connection: connectEstablished and its callback, handleClose and its
      callback, the erase from connections_, connectDestroyed. */
  datatype Event = Established | UpCalled | Closed | DownCalled | Erased | Destroyed

  const LIFECYCLE: seq<Event> := [Established, UpCalled, Closed, DownCalled, Erased, Destroyed]

  /** `log` and `wild` only record: what has happened, and whether some event dispatched to the
      channel was a close and a read. */
  datatype Conn = Conn(loop: nat, fd: int, tcp: S.Tcp, log: seq<Event>, wild: bool)

  datatype Call = Send(msg: seq<B.Byte>) | Shutdown | ForceClose

  /** An off-loop call caught between its test of state_ and its push. */
  datatype InFlight = InFlight(c: Id, call: Call, stored: bool)

  /** `base`, `pool`, `reserved` (descriptors open for good: listener, eventfds, epoll), `prefix`
      and `cfg` never change; `held` are the connections user code keeps a shared_ptr to. */
  datatype State = State(
    cfg: S.Config, prefix: string, base: nat, pool: seq<nat>, reserved: set<int>,
    next: nat, nextId: nat, loops: map<nat, Loop>, conns: map<Id, Conn>, connections: map<string, Id>,
    held: set<Id>, inflight: seq<InFlight>)

  function Name(s: State, c: Id): string { Names.ConnName(s.prefix, c) }

  ghost predicate InMap(s: State, c: Id) {
    Name(s, c) in s.connections && s.connections[Name(s, c)] == c
  }

  /** A shared_ptr kept by the loop: the dispatch guard, or a functor still in a vector, run or not. */
  ghost predicate HoldsRef(lp: Loop, c: Id) {
    || lp.guard == Some(c)
    || (exists i :: 0 <= i < |lp.el.batch| && Strong(lp.el.batch[i], c))
    || (exists i :: 0 <= i < |lp.el.pending| && Strong(lp.el.pending[i], c))
  }

  /** The connection object, its channel and its descriptor exist. */
  ghost predicate Alive(s: State, c: Id) {
    c in s.conns && (InMap(s, c) || c in s.held || exists l :: l in s.loops && HoldsRef(s.loops[l], c))
  }

  datatype Step =
    | Owner(l: nat, a: L.Step<Fn>)
    | Poll(l: nat, wake: bool, active: seq<Active>)
    | DispatchNext(l: nat)
    | DispatchDone(l: nat)
    | Accept(fd: int)
    | RunNext(l: nat, r: S.WriteResult)
    | Advance(l: nat, n: int, r: S.WriteResult)
    | UserCall(l: nat, c: Id, call: Call, r: S.WriteResult)
    | UserPush(l: nat)
    | UserEnd(l: nat)
    | OtherWrite(l: nat)
    | OtherCall(c: Id, call: Call)
    | OtherPush(l: nat)
    | Hold(c: Id)
    | Release(c: Id)
    | Test(c: Id, call: Call)
    | Store(i: nat)
    | Hand(i: nat)

  /** No step of a split off-loop call: every off-loop test, store and push is one OtherCall. */
  predicate Atomic(st: Step) { !st.Test? && !st.Store? && !st.Hand? }

  /** A hang-up with PRI carries IN: the event does not run both the close and the read callback
      (Channels.CloseAndReadIff). */
  predicate Benign(r: Ch.Revents) { r.hup && r.pri ==> r.pollin }

  predicate BenignPoll(st: Step) {
    st.Poll? ==> forall i :: 0 <= i < |st.active| ==> Benign(st.active[i].revents)
  }

  function OpsOf(calls: seq<Ch.Callback>): seq<Op> {
    if calls == [] then [] else
      (match calls[0]
       case Close => [Close]
       case Error => []
       case Read => [Read]
       case Write => [Write]) + OpsOf(calls[1..])
  }

  const INSTALLED: set<Ch.Callback> := {Ch.Close, Ch.Error, Ch.Read, Ch.Write}

  /** The owner thread is between two pieces of work. */
  predicate Free(lp: Loop) { lp.k == [] && lp.guard == None && !lp.el.owes }

  predicate InUser(lp: Loop) { lp.k != [] && lp.k[0] == User && !lp.el.owes }

  ghost predicate Reported(lp: Loop, active: seq<Active>) {
    && (forall i, j :: 0 <= i < j < |active| ==> active[i].c != active[j].c)
    && (forall i :: 0 <= i < |active| ==>
          var c := active[i].c;
          c in lp.poller.chans && lp.poller.chans[c].fd in lp.poller.kernel
          && lp.poller.kernel[lp.poller.chans[c].fd].ptr == c)
  }

  predicate CanCall(t: S.Tcp, call: Call) {
    t.state == S.Connected || (call.ForceClose? && t.state == S.Disconnecting)
  }

  // ---- when a step can be taken ----

  ghost predicate CanOwner(s: State, l: nat, a: L.Step<Fn>) {
    && l in s.loops && L.Enabled(s.loops[l].el, a)
    && (a.OwnerWrite? || (Free(s.loops[l]) && (a.TestQuit? || a.HandleRead? || a.Swap? || a.EndPass?
                                                || (a.StartPass? && s.loops[l].active == []))))
  }

  ghost predicate CanPoll(s: State, l: nat, wake: bool, active: seq<Active>) {
    && l in s.loops && L.Enabled(s.loops[l].el, L.PollReturns(wake)) && Free(s.loops[l])
    && Reported(s.loops[l], active)
  }

  predicate CanDispatch(s: State, l: nat) {
    l in s.loops && s.loops[l].el.pc == L.Dispatch && Free(s.loops[l]) && s.loops[l].active != []
  }

  predicate CanFinish(s: State, l: nat) {
    l in s.loops && s.loops[l].k == [] && s.loops[l].guard.Some? && !s.loops[l].el.owes
  }

  ghost predicate CanAccept(s: State, fd: int) {
    && s.base in s.loops && s.loops[s.base].el.pc == L.Dispatch && Free(s.loops[s.base])
    && (s.pool == [] || s.next < |s.pool|) && T.Pick(s.base, s.pool, s.next) in s.loops
    && s.nextId !in s.loops[T.Pick(s.base, s.pool, s.next)].poller.chans
    && fd !in s.reserved && (forall c :: Alive(s, c) ==> s.conns[c].fd != fd)
  }

  /** Running a raw functor needs its connection to exist still. */
  ghost predicate CanRun(s: State, l: nat, r: S.WriteResult) {
    && l in s.loops && L.Enabled(s.loops[l].el, L.RunNext) && Free(s.loops[l])
    && var f := s.loops[l].el.batch[s.loops[l].el.pos];
       && (!f.UserFn? ==> f.c in s.conns)
       && (f.SendFn? || f.ShutdownFn? ==> Alive(s, f.c) && f.c in s.loops[l].poller.chans)
       && (f.SendFn? ==> S.Fits(s.conns[f.c].tcp, |f.msg|, r))
  }

  predicate CanAdvance(s: State, l: nat, r: S.WriteResult) {
    && l in s.loops && s.base in s.loops && s.loops[l].k != [] && s.loops[l].k[0] != User
    && !s.loops[l].el.owes && L.InCallback(s.loops[l].el)
    && s.loops[l].cur in s.conns && s.conns[s.loops[l].cur].loop in s.loops
    && (s.loops[l].k[0] != Erase ==> s.loops[l].cur in s.loops[l].poller.chans)
    && S.Fits(s.conns[s.loops[l].cur].tcp, |s.conns[s.loops[l].cur].tcp.out|, r)
  }

  ghost predicate CanUserCall(s: State, l: nat, c: Id, call: Call, r: S.WriteResult) {
    && l in s.loops && InUser(s.loops[l]) && L.InCallback(s.loops[l].el) && Alive(s, c) && s.conns[c].loop == l
    && c in s.loops[l].poller.chans
    && (call.Send? ==> S.Fits(s.conns[c].tcp, |call.msg|, r))
  }

  predicate CanUserPush(s: State, l: nat) { l in s.loops && InUser(s.loops[l]) && L.InCallback(s.loops[l].el) }

  ghost predicate CanOtherCall(s: State, c: Id) { Alive(s, c) && s.conns[c].loop in s.loops }

  ghost predicate CanTest(s: State, c: Id, call: Call) { Alive(s, c) && CanCall(s.conns[c].tcp, call) }

  predicate CanStore(s: State, i: nat) {
    i < |s.inflight| && !s.inflight[i].stored && !s.inflight[i].call.Send? && s.inflight[i].c in s.conns
  }

  predicate CanHand(s: State, i: nat) {
    && i < |s.inflight| && (s.inflight[i].stored || s.inflight[i].call.Send?)
    && s.inflight[i].c in s.conns && s.conns[s.inflight[i].c].loop in s.loops
  }

  ghost predicate Enabled(s: State, st: Step) {
    match st
    case Owner(l, a) => CanOwner(s, l, a)
    case Poll(l, wake, active) => CanPoll(s, l, wake, active)
    case DispatchNext(l) => CanDispatch(s, l)
    case DispatchDone(l) => CanFinish(s, l)
    case Accept(fd) => CanAccept(s, fd)
    case RunNext(l, r) => CanRun(s, l, r)
    case Advance(l, n, r) => CanAdvance(s, l, r)
    case UserCall(l, c, call, r) => CanUserCall(s, l, c, call, r)
    case UserPush(l) => CanUserPush(s, l)
    case UserEnd(l) => CanUserPush(s, l)
    case OtherWrite(l) => l in s.loops && s.loops[l].el.writers > 0
    case OtherCall(c, call) => CanOtherCall(s, c)
    case OtherPush(l) => l in s.loops
    case Hold(c) => Alive(s, c)
    case Release(c) => true
    case Test(c, call) => CanTest(s, c, call)
    case Store(i) => CanStore(s, i)
    case Hand(i) => CanHand(s, i)
  }

  // ---- what it does ----

  function OnLoop(s: State, l: nat, lp: Loop): State { s.(loops := s.loops[l := lp]) }

  function OnConn(s: State, c: Id, cn: Conn): State { s.(conns := s.conns[c := cn]) }

  /** queueInLoop from another thread, up to its push. */
  function Deliver(s: State, l: nat, f: Fn): State
    requires l in s.loops
  {
    OnLoop(s, l, s.loops[l].(el := L.Apply(s.loops[l].el, L.OtherPush(f))))
  }

  /** queueInLoop from the loop's own thread, up to its push. */
  function Queued(lp: Loop, f: Fn): Loop
    requires L.InCallback(lp.el) && !lp.el.owes
  {
    lp.(el := L.Apply(lp.el, L.OwnerPush(f)))
  }

  function Synced(p: R.Poller<Id>, c: Id, before: R.Interest, after: R.Interest): R.Poller<Id>
    requires c in p.chans
  {
    if after == before then p else R.Change(p, c, after)
  }

  /** The outcome of an output handler of c, on its loop: new connection state, interest told to the
      poller, at most one notice queued. */
  function Output(lp: Loop, c: Id, before: R.Interest, o: S.Outcome): Loop
    requires L.InCallback(lp.el) && !lp.el.owes && c in lp.poller.chans
  {
    var q := lp.(poller := Synced(lp.poller, c, before, o.tcp.interest));
    if o.notices == [] then q else Queued(q, NoticeFn(c, o.notices[0]))
  }

  function FnOf(c: Id, call: Call): Fn {
    match call case Send(msg) => SendFn(c, msg) case Shutdown => ShutdownFn(c) case ForceClose => ForceCloseFn(c)
  }

  function Requested(t: S.Tcp, call: Call): S.Tcp {
    match call case Send(_) => t case Shutdown => S.ShutdownRequested(t) case ForceClose => S.CloseRequested(t)
  }

  function Logged(cn: Conn, e: Event): Conn { cn.(log := cn.log + [e]) }

  /** The record of an event dispatched to the channel. */
  function Turned(cn: Conn, r: Ch.Revents): Conn { cn.(wild := cn.wild || !Benign(r)) }

  ghost function DoDispatch(s: State, l: nat): State
    requires CanDispatch(s, l)
  {
    var lp := s.loops[l];
    var c, r := lp.active[0].c, lp.active[0].revents;
    if Alive(s, c) then
      OnConn(OnLoop(s, l, lp.(active := lp.active[1..], cur := c, guard := Some(c),
                              k := OpsOf(Ch.Callbacks(r, INSTALLED)))),
             c, Turned(s.conns[c], r))
    else OnLoop(s, l, lp.(active := lp.active[1..]))
  }

  ghost function DoAccept(s: State, fd: int): State
    requires CanAccept(s, fd)
  {
    var c, io := s.nextId, T.Pick(s.base, s.pool, s.next);
    var lp := s.loops[io].(poller := R.Create(s.loops[io].poller, c, fd));
    var lp' := if io == s.base then lp.(k := [Est], cur := c)
               else lp.(el := L.Apply(lp.el, L.OtherPush(EstablishFn(c))));
    OnLoop(s, io, lp').(next := T.Advance(|s.pool|, s.next), nextId := c + 1,
                        conns := s.conns[c := Conn(io, fd, S.FRESH, [], false)],
                        connections := s.connections[Name(s, c) := c])
  }

  ghost function DoRun(s: State, l: nat, r: S.WriteResult): State
    requires CanRun(s, l, r)
  {
    var f := s.loops[l].el.batch[s.loops[l].el.pos];
    var lp := s.loops[l].(el := L.Apply(s.loops[l].el, L.RunNext));
    match f
    case EstablishFn(c) => OnLoop(s, l, lp.(cur := c, k := [Est]))
    case DestroyFn(c) => OnLoop(s, l, lp.(cur := c, k := [Destroy]))
    case RemoveFn(c) => OnLoop(s, l, lp.(cur := c, k := [Erase]))
    case ForceCloseFn(c) =>
      OnLoop(s, l, if CanCall(s.conns[c].tcp, ForceClose) then lp.(cur := c, k := [Close]) else lp)
    case NoticeFn(_, _) => OnLoop(s, l, lp.(cur := 0, k := [User]))
    case UserFn => OnLoop(s, l, lp.(cur := 0, k := [User]))
    case SendFn(c, msg) =>
      var o := S.SendInLoop(s.cfg, s.conns[c].tcp, msg, r);
      OnConn(OnLoop(s, l, Output(lp, c, s.conns[c].tcp.interest, o)), c, s.conns[c].(tcp := o.tcp))
    case ShutdownFn(c) => OnConn(OnLoop(s, l, lp), c, s.conns[c].(tcp := S.ShutdownInLoop(s.conns[c].tcp)))
  }

  ghost function DoAdvance(s: State, l: nat, n: int, r: S.WriteResult): State
    requires CanAdvance(s, l, r)
  {
    var lp, c, rest := s.loops[l], s.loops[l].cur, s.loops[l].k[1..];
    var cn := s.conns[c];
    match lp.k[0]
    case Est =>
      var t := S.Established(cn.tcp);
      OnConn(OnLoop(s, l, lp.(k := [Up] + rest, poller := R.Change(lp.poller, c, t.interest))),
             c, Logged(cn.(tcp := t), Established))
    case Up => OnConn(OnLoop(s, l, lp.(k := [User] + rest)), c, Logged(cn, UpCalled))
    case Close =>
      OnConn(OnLoop(s, l, lp.(k := [Down] + rest, poller := R.Change(lp.poller, c, R.NONE_EVENT))),
             c, Logged(cn.(tcp := S.Closed(cn.tcp)), Closed))
    case Down => OnConn(OnLoop(s, l, lp.(k := [User, Report] + rest)), c, Logged(cn, DownCalled))
    case Report =>
      if l == s.base then OnLoop(s, l, lp.(k := [Erase] + rest))
      else Deliver(OnLoop(s, l, lp.(k := rest)), s.base, RemoveFn(c))
    case Erase =>
      var u := OnConn(s, c, Logged(cn, Erased)).(connections := s.connections - {Name(s, c)});
      if cn.loop == l then OnLoop(u, l, lp.(k := [Destroy] + rest))
      else Deliver(OnLoop(u, l, lp.(k := rest)), cn.loop, DestroyFn(c))
    case Destroy =>
      if cn.tcp.state == S.Connected then
        OnConn(OnLoop(s, l, lp.(k := [User, Remove] + rest, poller := R.Change(lp.poller, c, R.NONE_EVENT))),
               c, Logged(Logged(cn.(tcp := S.Closed(cn.tcp)), Destroyed), DownCalled))
      else OnConn(OnLoop(s, l, lp.(k := rest, poller := R.RemoveChannel(lp.poller, c))), c, Logged(cn, Destroyed))
    case Remove => OnLoop(s, l, lp.(k := rest, poller := R.RemoveChannel(lp.poller, c)))
    case Read => OnLoop(s, l, lp.(k := if n > 0 then [User] + rest else if n == 0 then [Close] + rest else rest))
    case Write =>
      var o := S.HandleWrite(s.cfg, cn.tcp, r);
      var k := if S.Drains(cn.tcp, r) then [Drain] + rest else rest;
      OnConn(OnLoop(s, l, Output(lp.(k := k), c, cn.tcp.interest, o)), c, cn.(tcp := o.tcp))
    case Drain => OnConn(OnLoop(s, l, lp.(k := rest)), c, cn.(tcp := S.DrainCheck(cn.tcp)))
  }

  ghost function DoUserCall(s: State, l: nat, c: Id, call: Call, r: S.WriteResult): State
    requires CanUserCall(s, l, c, call, r)
  {
    var lp, cn := s.loops[l], s.conns[c];
    if !CanCall(cn.tcp, call) then s
    else match call
      case Send(msg) =>
        var o := S.SendInLoop(s.cfg, cn.tcp, msg, r);
        OnConn(OnLoop(s, l, Output(lp, c, cn.tcp.interest, o)), c, cn.(tcp := o.tcp))
      case Shutdown => OnConn(s, c, cn.(tcp := S.ShutdownInLoop(S.ShutdownRequested(cn.tcp))))
      case ForceClose => OnConn(OnLoop(s, l, Queued(lp, ForceCloseFn(c))), c, cn.(tcp := S.CloseRequested(cn.tcp)))
  }

  ghost function DoOtherCall(s: State, c: Id, call: Call): State
    requires CanOtherCall(s, c)
  {
    var cn := s.conns[c];
    if !CanCall(cn.tcp, call) then s
    else Deliver(OnConn(s, c, cn.(tcp := Requested(cn.tcp, call))), cn.loop, FnOf(c, call))
  }

  function DoEl(s: State, l: nat, a: L.Step<Fn>): State
    requires l in s.loops && L.Enabled(s.loops[l].el, a)
  {
    OnLoop(s, l, s.loops[l].(el := L.Apply(s.loops[l].el, a)))
  }

  function DoPoll(s: State, l: nat, wake: bool, active: seq<Active>): State
    requires l in s.loops && L.Enabled(s.loops[l].el, L.PollReturns(wake))
  {
    OnLoop(s, l, s.loops[l].(el := L.Apply(s.loops[l].el, L.PollReturns(wake)), active := active))
  }

  function DoStore(s: State, i: nat): State
    requires CanStore(s, i)
  {
    var x := s.inflight[i];
    OnConn(s.(inflight := s.inflight[i := x.(stored := true)]), x.c,
           s.conns[x.c].(tcp := s.conns[x.c].tcp.(state := S.Disconnecting)))
  }

  function DoHand(s: State, i: nat): State
    requires CanHand(s, i)
  {
    var x := s.inflight[i];
    Deliver(s.(inflight := s.inflight[..i] + s.inflight[i + 1..]), s.conns[x.c].loop, FnOf(x.c, x.call))
  }

  ghost function Apply(s: State, st: Step): State
    requires Enabled(s, st)
  {
    match st
    case Owner(l, a) => DoEl(s, l, a)
    case Poll(l, wake, active) => DoPoll(s, l, wake, active)
    case DispatchNext(l) => DoDispatch(s, l)
    case DispatchDone(l) => OnLoop(s, l, s.loops[l].(guard := None))
    case Accept(fd) => DoAccept(s, fd)
    case RunNext(l, r) => DoRun(s, l, r)
    case Advance(l, n, r) => DoAdvance(s, l, n, r)
    case UserCall(l, c, call, r) => DoUserCall(s, l, c, call, r)
    case UserPush(l) => OnLoop(s, l, Queued(s.loops[l], UserFn))
    case UserEnd(l) => OnLoop(s, l, s.loops[l].(k := s.loops[l].k[1..]))
    case OtherWrite(l) => DoEl(s, l, L.OtherWrite)
    case OtherCall(c, call) => DoOtherCall(s, c, call)
    case OtherPush(l) => Deliver(s, l, UserFn)
    case Hold(c) => s.(held := s.held + {c})
    case Release(c) => s.(held := s.held - {c})
    case Test(c, call) => s.(inflight := s.inflight + [InFlight(c, call, false)])
    case Store(i) => DoStore(s, i)
    case Hand(i) => DoHand(s, i)
  }

  /** A running loop with nothing to do. */
  const IDLE: Loop := Loop(L.Init<Fn>().(pc := L.Head), [], 0, [], None, R.Poller(map[], map[], map[], 0))

  /** A started server: its loops run, no connection yet; the pool's loops are not the base loop. */
  ghost predicate Init(s: State) {
    && s.base in s.loops && s.base !in s.pool && (forall i :: 0 <= i < |s.pool| ==> s.pool[i] in s.loops)
    && (forall l :: l in s.loops ==> s.loops[l] == IDLE)
    && s.next == 0 && s.nextId == 1 && s.conns == map[] && s.connections == map[] && s.held == {} && s.inflight == []
  }
}
