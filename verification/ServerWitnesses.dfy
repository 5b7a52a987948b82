/** Runs that show where the theorems end, each with one connection whose peer closes: an off-loop
    send that outlives it, because its loop is the base loop or because the send was cut between its
    test of state_ and its push; an off-loop forceClose cut between its test and its store; an event
    that is a close and a read. With them the theorems become exact. */
module ServerWitnesses {
  import opened Options
  import opened Servers
  import opened ServerInvariant
  import opened ServerExecution
  import opened ServerEveryRun
  import ServerTheorems
  import R = Registration
  import S = Streams
  import L = LoopProtocol
  import Ch = Channels
  import T = ThreadPools
  import Names
  import B = Buffers

  const TAME: Mode := Mode(true, true)
  const SPLIT: Mode := Mode(false, true)

  lemma {:induction false} ExecOneMore(s: State, run: seq<Step>, st: Step)
    requires Executable(s, run) && Enabled(Exec(s, run), st)
    ensures Executable(s, run + [st]) && Exec(s, run + [st]) == Apply(Exec(s, run), st)
    decreases |run|
  {
    hide Enabled, Apply;
    if run == [] {
      assert run + [st] == [st] && [st][1..] == [];
      assert Exec(Apply(s, st), []) == Apply(s, st);
    } else {
      assert (run + [st])[1..] == run[1..] + [st] && (run + [st])[0] == run[0];
      ExecOneMore(Apply(s, run[0]), run[1..], st);
    }
  }

  /** One step, computed. */
  ghost predicate Leads(s: State, st: Step, s': State) { Enabled(s, st) && Apply(s, st) == s' }

  lemma OneMore(s: State, st: Step, s': State, m: Mode)
    requires Ends(s, m) && Leads(s, st, s') && Allowed(m, st)
    ensures Ends(s', m)
  {
    hide Enabled, Apply, Allowed, Init;
    var s0, run :| Init(s0) && Executable(s0, run) && s == Exec(s0, run) && AllAllowed(m, run);
    ExecOneMore(s0, run, st);
    assert AllAllowed(m, run + [st]);
  }

  lemma AdvanceMore(s: State, l: nat, s': State, m: Mode)
    requires CanAdvance(s, l, ANY) && DoAdvance(s, l, 0, ANY) == s' && Ends(s, m)
    ensures Ends(s', m)
  {
    hide CanAdvance, DoAdvance, Ends;
    OneMore(s, Advance(l, 0, ANY), s', m);
  }

  lemma HandMore(s: State, s': State, m: Mode)
    requires CanHand(s, 0) && DoHand(s, 0) == s' && Ends(s, m) && !m.atomic
    ensures Ends(s', m)
  {
    hide CanHand, DoHand, Ends;
    OneMore(s, Hand(0), s', m);
  }

  lemma StoreMore(s: State, s': State, m: Mode)
    requires CanStore(s, 0) && DoStore(s, 0) == s' && Ends(s, m) && !m.atomic
    ensures Ends(s', m)
  {
    hide CanStore, DoStore, Ends;
    OneMore(s, Store(0), s', m);
  }

  // ---- situations ----

  /** A server's loops: the base loop, and a pool apart from it. */
  datatype Env = Env(base: nat, pool: seq<nat>) {
    predicate Valid() { base !in pool }

    /** The loop of the first connection. */
    function Io(): nat { if pool == [] then base else pool[0] }

    function Numbers(): set<nat> { {base} + set n | n in pool }
  }

  const ONE: Env := Env(0, [])

  /** The connection's loop, the base loop if that is another, and the connection. */
  datatype Sit = Sit(io: Loop, ba: Loop, tcp: S.Tcp, log: seq<Event>, inMap: bool, held: set<Id>,
                     inflight: seq<InFlight>, wild: bool)

  function Loops(e: Env, io: Loop, ba: Loop): map<nat, Loop> {
    map l | l in e.Numbers() :: if l == e.Io() then io else if l == e.base then ba else IDLE
  }

  const CFG := S.Config(false, false, 0)

  function NameOf(): string { Names.ConnName("s", 1) }

  /** The state with the first connection, on descriptor 7. */
  function At(e: Env, x: Sit): State {
    State(CFG, "s", e.base, e.pool, {}, T.Advance(|e.pool|, 0), 2, Loops(e, x.io, x.ba),
          map[1 := Conn(e.Io(), 7, x.tcp, x.log, x.wild)], if x.inMap then map[NameOf() := 1] else map[], x.held,
          x.inflight)
  }

  /** The state before it. */
  function Before(e: Env, io: Loop, ba: Loop): State {
    State(CFG, "s", e.base, e.pool, {}, 0, 1, Loops(e, io, ba), map[], map[], {}, [])
  }

  lemma LoopsSet(e: Env, io: Loop, ba: Loop, lp: Loop)
    requires e.Valid()
    ensures var m := Loops(e, io, ba);
      && e.Io() in m && e.base in m && m[e.Io()] == io && m[e.Io() := lp] == Loops(e, lp, ba)
      && (e.pool != [] ==> e.Io() != e.base && m[e.base] == ba && m[e.base := lp] == Loops(e, io, lp))
  {
  }

  /** Reading such a state, and updating one of its loops and the connection. */
  lemma AtUpdate(e: Env, x: Sit, lp: Loop, t: S.Tcp, log: seq<Event>)
    requires e.Valid()
    ensures var s, n := At(e, x), e.Io(); var cn := Conn(n, 7, t, log, x.wild);
      && s.cfg == CFG && s.base == e.base && s.pool == e.pool && n in s.loops && s.base in s.loops && s.loops[n] == x.io
      && s.conns.Keys == {1} && s.conns[1] == Conn(n, 7, x.tcp, x.log, x.wild)
      && s.held == x.held && s.inflight == x.inflight && Name(s, 1) == NameOf()
      && (x.inMap ==> InMap(s, 1) && Alive(s, 1))
      && OnLoop(s, n, lp) == At(e, x.(io := lp))
      && OnConn(s, 1, cn) == At(e, x.(tcp := t, log := log))
      && OnConn(OnLoop(s, n, lp), 1, cn) == At(e, x.(io := lp, tcp := t, log := log))
  {
    LoopsSet(e, x.io, x.ba, lp);
    var cn, cn' := Conn(e.Io(), 7, x.tcp, x.log, x.wild), Conn(e.Io(), 7, t, log, x.wild);
    assert map[1 := cn][1 := cn'] == map[1 := cn'];
  }

  lemma AtBase(e: Env, x: Sit, lp: Loop)
    requires e.Valid() && e.pool != []
    ensures var s := At(e, x);
            && e.Io() != e.base && s.base == e.base && s.loops[s.base] == x.ba
            && OnLoop(s, s.base, lp) == At(e, x.(ba := lp))
  {
    LoopsSet(e, x.io, x.ba, lp);
  }

  lemma AtErased(e: Env, x: Sit)
    requires x.inMap
    ensures var s := At(e, x); s.(connections := s.connections - {Name(s, 1)}) == At(e, x.(inMap := false))
  {
    assert map[NameOf() := 1] - {NameOf()} == map[];
  }

  const READING := R.Interest(true, false)

  /** The connection's channel as its poller sees it: made, reading, disabled; removed is made again. */
  const MADE: R.Poller<Id> := R.Poller(map[1 := R.Chan(7, R.NONE_EVENT, R.New)], map[], map[], 0)
  const READS: R.Poller<Id> := R.Poller(map[1 := R.Chan(7, READING, R.Added)], map[7 := 1],
                                        map[7 := R.Entry(READING, 1)], 0)
  const OFF: R.Poller<Id> := R.Poller(map[1 := R.Chan(7, R.NONE_EVENT, R.Deleted)], map[7 := 1], map[], 0)

  lemma Pollers()
    ensures R.Create<Id>(R.Poller(map[], map[], map[], 0), 1, 7) == MADE
    ensures R.Change(MADE, 1, READING) == READS && R.Change(READS, 1, R.NONE_EVENT) == OFF
    ensures R.RemoveChannel(OFF, 1) == MADE
  {
    assert R.Create<Id>(R.Poller(map[], map[], map[], 0), 1, 7).chans == MADE.chans;
    assert R.Change(MADE, 1, READING).chans == READS.chans;
    assert R.Change(READS, 1, R.NONE_EVENT).chans == OFF.chans;
    assert R.Change(READS, 1, R.NONE_EVENT).kernel == OFF.kernel;
    assert R.RemoveChannel(OFF, 1).chans == MADE.chans;
    assert R.RemoveChannel(OFF, 1).channels == MADE.channels;
  }

  const UP: S.Tcp := S.FRESH.(state := S.Connected, interest := READING)
  const DOWN: S.Tcp := S.FRESH.(state := S.Disconnected)
  const UP_LOG: seq<Event> := [Established, UpCalled]

  const ANY: S.WriteResult := S.WouldBlock

  // ---- steps ----

  /** What the next part of the handler at hand does to the loop, the stream and the log. */
  predicate PartDoes(e: Env, x: Sit, x': Sit) {
    var lp, t := x.io, x.tcp;
    && lp.cur == 1 && lp.k != [] && 1 in lp.poller.chans && !lp.el.owes && L.InCallback(lp.el) && !t.shut
    && var rest := lp.k[1..];
       match lp.k[0]
       case Est => x' == x.(io := lp.(k := [Up] + rest, poller := R.Change(lp.poller, 1, S.Established(t).interest)),
                            tcp := S.Established(t), log := x.log + [Established])
       case Up => x' == x.(io := lp.(k := [User] + rest), log := x.log + [UpCalled])
       case Close => x' == x.(io := lp.(k := [Down] + rest, poller := R.Change(lp.poller, 1, R.NONE_EVENT)),
                              tcp := S.Closed(t), log := x.log + [Closed])
       case Down => x' == x.(io := lp.(k := [User, Report] + rest), log := x.log + [DownCalled])
       case Report => e.pool == [] && x' == x.(io := lp.(k := [Erase] + rest))
       case Destroy => t.state != S.Connected
                       && x' == x.(io := lp.(k := rest, poller := R.RemoveChannel(lp.poller, 1)),
                                   log := x.log + [Destroyed])
       case Read => x' == x.(io := lp.(k := [Close] + rest))
       case _ => false
  }

  lemma Part(e: Env, x: Sit, x': Sit, m: Mode)
    requires e.Valid() && PartDoes(e, x, x') && Ends(At(e, x), m)
    ensures Ends(At(e, x'), m)
  {
    hide At, Ends, CanAdvance, DoAdvance, PartDoes;
    PartIs(e, x, x');
    AdvanceMore(At(e, x), e.Io(), At(e, x'), m);
  }

  lemma PartIs(e: Env, x: Sit, x': Sit)
    requires e.Valid() && PartDoes(e, x, x')
    ensures CanAdvance(At(e, x), e.Io(), ANY) && DoAdvance(At(e, x), e.Io(), 0, ANY) == At(e, x')
  {
    AtUpdate(e, x, x'.io, x'.tcp, x'.log);
    hide At, OnLoop, OnConn, R.Change, R.RemoveChannel, S.Established, S.Closed, Env.Io;
  }

  /** removeConnectionInLoop on the base loop, where the connection lives. */
  lemma ErasePart(e: Env, x: Sit, rest: seq<Op>, m: Mode)
    requires e.Valid() && e.pool == [] && x.inMap && !x.tcp.shut
    requires x.io.cur == 1 && x.io.k == [Erase] + rest && !x.io.el.owes && L.InCallback(x.io.el) && Ends(At(e, x), m)
    ensures Ends(At(e, x.(io := x.io.(k := [Destroy] + rest), log := x.log + [Erased], inMap := false)), m)
  {
    var y := x.(log := x.log + [Erased]);
    var x' := y.(io := x.io.(k := [Destroy] + rest), inMap := false);
    AtUpdate(e, x, x.io, x.tcp, y.log);
    AtErased(e, x);
    AtErased(e, y);
    AtUpdate(e, y.(inMap := false), x'.io, x.tcp, y.log);
    var s, n := At(e, x), e.Io();
    assert s.connections == At(e, y).connections;
    hide At, OnLoop, OnConn, Ends;
    assert DoAdvance(s, n, 0, ANY) == At(e, x') by { ErasedState(s, At(e, y)); }
    AdvanceMore(s, n, At(e, x'), m);
  }

  lemma ErasedState(s: State, u: State)
    requires u.connections == s.connections && u.prefix == s.prefix
    ensures u.(connections := s.connections - {Name(s, 1)}) == u.(connections := u.connections - {Name(u, 1)})
  {
  }
  /** A step of one loop's own text, or its taking a functor that starts a handler, with what it does to the loop. */
  predicate LoopDoes(lp: Loop, lp': Loop, l: nat, st: Step) {
    match st
    case UserEnd(n) => n == l && lp.k != [] && lp.k[0] == User && !lp.el.owes && L.InCallback(lp.el)
                       && lp' == lp.(k := lp.k[1..])
    case Owner(n, a) => n == l && L.Enabled(lp.el, a) && Free(lp) && lp.active == []
                        && lp' == lp.(el := L.Apply(lp.el, a))
                        && (a.TestQuit? || a.Swap? || a.EndPass? || a.StartPass?)
    case DispatchDone(n) => n == l && lp.k == [] && lp.guard.Some? && !lp.el.owes && lp' == lp.(guard := None)
    case Poll(n, wake, active) => n == l && !wake && active == [] && lp.active == [] && Free(lp)
                                  && L.Enabled(lp.el, L.PollReturns(false))
                                  && lp' == lp.(el := L.Apply(lp.el, L.PollReturns(false)))
    case RunNext(n, _) => n == l && L.Enabled(lp.el, L.RunNext) && Free(lp)
                          && Starts(lp.el.batch[lp.el.pos]) != []
                          && lp' == lp.(el := L.Apply(lp.el, L.RunNext), cur := 1, k := Starts(lp.el.batch[lp.el.pos]))
    case _ => false
  }

  /** The handler that a functor of connection 1 starts, whatever the connection's state. */
  function Starts(f: Fn): seq<Op> {
    if f == EstablishFn(1) then [Est]
    else if f == DestroyFn(1) then [Destroy]
    else if f == RemoveFn(1) then [Erase]
    else []
  }

  /** The loop meant: the connection's own, or the base loop apart from it. */
  function Number(e: Env, io: bool): nat { if io then e.Io() else e.base }

  function Which(x: Sit, io: bool): Loop { if io then x.io else x.ba }

  function With(x: Sit, io: bool, lp: Loop): Sit { if io then x.(io := lp) else x.(ba := lp) }

  lemma LoopStep(e: Env, x: Sit, io: bool, lp: Loop, st: Step, m: Mode)
    requires e.Valid() && (io || e.pool != []) && LoopDoes(Which(x, io), lp, Number(e, io), st) && Ends(At(e, x), m)
    ensures Ends(At(e, With(x, io, lp)), m)
  {
    AtUpdate(e, x, if io then lp else x.io, x.tcp, x.log);
    if !io { AtBase(e, x, lp); }
    hide At, OnLoop, OnConn, L.Apply, L.Enabled, Ends, Env.Io;
    var s, s' := At(e, x), At(e, With(x, io, lp));
    assert s.loops[Number(e, io)] == Which(x, io) && OnLoop(s, Number(e, io), lp) == s';
    OneLoop(s, Number(e, io), lp, st);
    assert Allowed(m, st);
    OneMore(s, st, s', m);
  }

  lemma OneLoop(s: State, l: nat, lp: Loop, st: Step)
    requires l in s.loops && LoopDoes(s.loops[l], lp, l, st) && 1 in s.conns
    ensures Leads(s, st, OnLoop(s, l, lp))
  {
    hide L.Apply, L.Enabled, OnLoop, Alive;
  }

  predicate Between(lp: Loop) {
    && lp.el.pc == L.Dispatch && lp.el.batch == [] && !lp.el.owes && !lp.el.wakeReported && !lp.el.preloaded
    && lp.k == [] && lp.guard == None && lp.active == []
  }

  /** A loop done dispatching swaps in what is queued. */
  function Swapped(lp: Loop): Loop {
    lp.(el := lp.el.(pc := L.Running, calling := true, batch := lp.el.pending, pos := 0, pending := []))
  }

  lemma SwapsIn(e: Env, x: Sit, io: bool, m: Mode)
    requires e.Valid() && (io || e.pool != []) && Between(Which(x, io)) && Ends(At(e, x), m)
    ensures Ends(At(e, With(x, io, Swapped(Which(x, io)))), m)
  {
    hide Ends, At, Env.Io;
    var lp, n := Which(x, io), Number(e, io);
    var a := lp.(el := lp.el.(pc := L.Swapping, calling := true));
    LoopStep(e, x, io, a, Owner(n, L.StartPass), m);
    LoopStep(e, With(x, io, a), io, Swapped(lp), Owner(n, L.Swap), m);
  }

  /** And takes the one functor there is. */
  function Taking(lp: Loop, f: Fn): Loop {
    lp.(el := lp.el.(pc := L.Running, batch := [f], pos := 1, pending := [], calling := true,
                     executed := lp.el.executed + [f]),
        cur := 1, k := Starts(f))
  }

  lemma TakesOne(e: Env, x: Sit, io: bool, f: Fn, m: Mode)
    requires e.Valid() && (io || e.pool != []) && Starts(f) != [] && Between(Which(x, io))
    requires Which(x, io).el.pending == [f]
    requires Ends(At(e, x), m)
    ensures Ends(At(e, With(x, io, Taking(Which(x, io), f))), m)
  {
    hide Ends, At, Env.Io;
    var lp, n := Which(x, io), Number(e, io);
    SwapsIn(e, x, io, m);
    LoopStep(e, With(x, io, Swapped(lp)), io, Taking(lp, f), RunNext(n, ANY), m);
  }

  /** The end of the pass. */
  function Done(lp: Loop): Loop { lp.(el := lp.el.(pc := L.Head, batch := [], pos := 0, calling := false)) }

  lemma PassEnds(e: Env, x: Sit, io: bool, m: Mode)
    requires e.Valid() && (io || e.pool != []) && Ends(At(e, x), m)
    requires var lp := Which(x, io); Free(lp) && lp.active == [] && lp.el.pc == L.Running && lp.el.pos == |lp.el.batch|
    ensures Ends(At(e, With(x, io, Done(Which(x, io)))), m)
  {
    hide Ends, At, Env.Io;
    LoopStep(e, x, io, Done(Which(x, io)), Owner(Number(e, io), L.EndPass), m);
  }

  /** Handleless steps of a loop round to its next poll, with nothing queued. */
  function AtPc(lp: Loop, pc: L.Pc): Loop { lp.(el := lp.el.(pc := pc)) }

  lemma ToPoll(e: Env, x: Sit, m: Mode)
    requires e.Valid() && Ends(At(e, x), m) && Free(x.io) && x.io.active == [] && x.io.el.pc == L.Head && !x.io.el.quit
    ensures Ends(At(e, x.(io := AtPc(x.io, L.Poll))), m)
  {
    hide Ends, At, Env.Io;
    LoopStep(e, x, true, AtPc(x.io, L.Poll), Owner(Number(e, true), L.TestQuit), m);
  }

  /** The poll reports nothing. */
  lemma QuietPoll(e: Env, x: Sit, m: Mode)
    requires e.Valid() && Ends(At(e, x), m) && Free(x.io) && x.io.active == [] && x.io.el.pc == L.Poll
    requires !x.io.el.wakeReported
    ensures Ends(At(e, x.(io := AtPc(x.io, L.Dispatch))), m)
  {
    hide Ends, At, Env.Io;
    LoopStep(e, x, true, AtPc(x.io, L.Dispatch), Poll(Number(e, true), false, []), m);
  }

  /** The poll reports the connection's channel with r. */
  lemma PollStep(e: Env, x: Sit, r: Ch.Revents, m: Mode)
    requires e.Valid() && Ends(At(e, x), m) && (m.benign ==> Benign(r))
    requires Free(x.io) && x.io.el.pc == L.Poll && !x.io.el.wakeReported && x.io.poller == READS
    ensures Ends(At(e, x.(io := AtPc(x.io, L.Dispatch).(active := [Active(1, r)]))), m)
  {
    var lp := AtPc(x.io, L.Dispatch).(active := [Active(1, r)]);
    AtUpdate(e, x, lp, x.tcp, x.log);
    hide At, OnLoop, OnConn, Ends, Env.Io;
    var s, s', st := At(e, x), At(e, x.(io := lp)), Poll(Number(e, true), false, [Active(1, r)]);
    assert Reported(x.io, [Active(1, r)]);
    assert Leads(s, st, s');
    OneMore(s, st, s', m);
  }

  lemma Dispatches(e: Env, x: Sit, r: Ch.Revents, k: seq<Op>, m: Mode)
    requires k == OpsOf(Ch.Callbacks(r, INSTALLED)) && x.inMap && e.Valid() && Ends(At(e, x), m)
    requires x.io.active == [Active(1, r)] && Free(x.io) && x.io.el.pc == L.Dispatch
    ensures var lp := x.io.(active := [], cur := 1, guard := Some(1), k := k);
            Ends(At(e, x.(io := lp, wild := x.wild || !Benign(r))), m)
  {
    var lp := x.io.(active := [], cur := 1, guard := Some(1), k := k);
    var y := x.(wild := x.wild || !Benign(r));
    AtUpdate(e, x, lp, x.tcp, x.log);
    AtUpdate(e, y, lp, x.tcp, x.log);
    AtTurned(e, x, r);
    hide At, OnLoop, OnConn, Alive, Ends, OpsOf, Ch.Callbacks, Env.Io;
    assert x.io.active[1..] == [];
    var s, s', n := At(e, x), At(e, y.(io := lp)), Number(e, true);
    OnBoth(s, n, lp, Turned(s.conns[1], r));
    assert DoDispatch(s, n) == s';
    assert Leads(s, DispatchNext(n), s');
    OneMore(s, DispatchNext(n), s', m);
  }

  lemma AtTurned(e: Env, x: Sit, r: Ch.Revents)
    requires e.Valid()
    ensures var s := At(e, x); OnConn(s, 1, Turned(s.conns[1], r)) == At(e, x.(wild := x.wild || !Benign(r)))
  {
    var cn := Conn(e.Io(), 7, x.tcp, x.log, x.wild);
    assert map[1 := cn][1 := Turned(cn, r)] == map[1 := Turned(cn, r)];
  }

  lemma OnBoth(s: State, l: nat, lp: Loop, cn: Conn)
    ensures OnConn(OnLoop(s, l, lp), 1, cn) == OnLoop(OnConn(s, 1, cn), l, lp)
  {
  }

  // ---- the common beginning and end, on one loop ----

  lemma FirstEnds(e: Env)
    requires e.Valid()
    ensures Ends(Before(e, IDLE, IDLE), TAME)
  {
    var run: seq<Step> := [];
    var s := Before(e, IDLE, IDLE);
    forall i | 0 <= i < |e.pool| ensures e.pool[i] in s.loops { assert e.pool[i] in e.pool; }
    assert Init(s);
    assert Executable(s, run) && Exec(s, run) == s && AllAllowed(TAME, run);
  }

  /** The base loop comes to its first dispatch, with nothing accepted yet. */
  lemma BaseReady(e: Env)
    requires e.Valid()
    ensures e.pool == [] ==> Ends(Before(e, AtPc(IDLE, L.Dispatch), IDLE), TAME)
    ensures e.pool != [] ==> Ends(Before(e, IDLE, AtPc(IDLE, L.Dispatch)), TAME)
  {
    FirstEnds(e);
    var a, b := AtPc(IDLE, L.Poll), AtPc(IDLE, L.Dispatch);
    var s := Before(e, IDLE, IDLE);
    LoopsSet(e, IDLE, IDLE, a);
    LoopsSet(e, a, IDLE, b);
    LoopsSet(e, IDLE, a, b);
    var t := OnLoop(s, e.base, a);
    BaseSteps(s);
    OneMore(s, Owner(e.base, L.TestQuit), t, TAME);
    OneMore(t, Poll(e.base, false, []), OnLoop(t, e.base, b), TAME);
  }

  lemma BaseSteps(s: State)
    requires s.base in s.loops && s.loops[s.base] == IDLE
    ensures var t := OnLoop(s, s.base, AtPc(IDLE, L.Poll));
      && Leads(s, Owner(s.base, L.TestQuit), t)
      && Leads(t, Poll(s.base, false, []), OnLoop(t, s.base, AtPc(IDLE, L.Dispatch)))
  {
  }
  /** queueInLoop from another thread, up to its push. */
  function Given(lp: Loop, f: Fn): Loop {
    lp.(el := lp.el.(pending := lp.el.pending + [f], pushed := lp.el.pushed + [f], writers := lp.el.writers + 1))
  }

  lemma GivenIs(lp: Loop, f: Fn)
    ensures Given(lp, f) == lp.(el := L.Apply(lp.el, L.OtherPush(f)))
  {
  }

  const READY: Loop := AtPc(IDLE, L.Dispatch)

  const BORN_HERE: Sit := Sit(READY.(poller := MADE, cur := 1, k := [Est]), IDLE, S.FRESH, [], true, {}, [], false)

  lemma AcceptableHere(e: Env)
    requires e.Valid() && e.pool == []
    ensures CanAccept(Before(e, READY, IDLE), 7)
  {
    LoopsSet(e, READY, IDLE, IDLE);
    hide Loops;
  }

  lemma AcceptedHere(e: Env)
    requires e.Valid() && e.pool == [] && CanAccept(Before(e, READY, IDLE), 7)
    ensures DoAccept(Before(e, READY, IDLE), 7) == At(e, BORN_HERE)
  {
    Pollers();
    LoopsSet(e, READY, IDLE, BORN_HERE.io);
    hide Loops, CanAccept;
  }

  /** The accepting loop keeps the connection. */
  lemma AcceptHere(e: Env)
    requires e.Valid() && e.pool == []
    ensures Ends(At(e, BORN_HERE), TAME)
  {
    hide Ends, Before, At, CanAccept, DoAccept;
    BaseReady(e);
    AcceptableHere(e);
    AcceptedHere(e);
    OneMore(Before(e, READY, IDLE), Accept(7), At(e, BORN_HERE), TAME);
  }

  const BORN_AWAY: Loop := Given(IDLE.(poller := MADE), EstablishFn(1))

  const BORN: Sit := Sit(BORN_AWAY, READY, S.FRESH, [], true, {}, [], false)

  lemma AcceptableAway(e: Env)
    requires e.Valid() && e.pool != []
    ensures CanAccept(Before(e, IDLE, READY), 7)
  {
    LoopsSet(e, IDLE, READY, IDLE);
    hide Loops;
  }

  lemma AcceptedAway(e: Env)
    requires e.Valid() && e.pool != [] && CanAccept(Before(e, IDLE, READY), 7)
    ensures DoAccept(Before(e, IDLE, READY), 7) == At(e, BORN)
  {
    hide L.Apply, CanAccept, R.Create, Loops;
    Pollers();
    LoopsSet(e, IDLE, READY, BORN_AWAY);
    GivenIs(IDLE.(poller := MADE), EstablishFn(1));
  }

  /** The accepting loop hands it to the pool's first loop. */
  lemma AcceptAway(e: Env)
    requires e.Valid() && e.pool != []
    ensures Ends(At(e, BORN), TAME)
  {
    hide Ends, Before, At, CanAccept, DoAccept;
    BaseReady(e);
    AcceptableAway(e);
    AcceptedAway(e);
    OneMore(Before(e, IDLE, READY), Accept(7), At(e, BORN), TAME);
  }

  predicate AtWork(lp: Loop, k: seq<Op>, p: R.Poller<Id>) {
    lp.cur == 1 && lp.k == k && !lp.el.owes && L.InCallback(lp.el) && lp.poller == p
  }

  /** connectEstablished. */
  lemma ComesUp(e: Env, x: Sit, m: Mode)
    requires e.Valid() && Ends(At(e, x), m) && AtWork(x.io, [Est], MADE) && x.tcp == S.FRESH && x.log == []
    ensures Ends(At(e, x.(io := x.io.(k := [], poller := READS), tcp := UP, log := UP_LOG)), m)
  {
    hide Ends, At, R.Change, Env.Valid;
    Pollers();
    var a := x.(io := x.io.(k := [Up], poller := READS), tcp := UP, log := [Established]);
    var b := a.(io := a.io.(k := [User]), log := UP_LOG);
    assert [] + [Established] == [Established] && [Established] + [UpCalled] == UP_LOG;
    Part(e, x, a, m);
    Part(e, a, b, m);
    LoopStep(e, b, true, b.io.(k := []), UserEnd(Number(e, true)), m);
  }

  /** handleClose, up to what it reports to the server. */
  lemma ClosesDown(e: Env, x: Sit, rest: seq<Op>, m: Mode)
    requires e.Valid() && Ends(At(e, x), m) && AtWork(x.io, [Close] + rest, READS) && x.tcp == UP && x.log == UP_LOG
    ensures Ends(At(e, x.(io := x.io.(k := [Report] + rest, poller := OFF), tcp := DOWN, log := LIFECYCLE[..4])), m)
  {
    hide Ends, At, R.Change, Env.Valid;
    Pollers();
    var a := x.(io := x.io.(k := [Down] + rest, poller := OFF), tcp := DOWN, log := UP_LOG + [Closed]);
    var b := a.(io := a.io.(k := [User, Report] + rest), log := LIFECYCLE[..4]);
    assert UP_LOG + [Closed] + [DownCalled] == LIFECYCLE[..4] && b.io.k[1..] == [Report] + rest;
    Part(e, x, a, m);
    Part(e, a, b, m);
    LoopStep(e, b, true, b.io.(k := [Report] + rest), UserEnd(Number(e, true)), m);
  }

  /** On a single loop the whole life of the connection ends within its dispatch, whatever else is
      queued, in flight or still to be done for it. */
  lemma Closes(e: Env, x: Sit, rest: seq<Op>, m: Mode)
    requires e.Valid() && e.pool == [] && x.inMap && Ends(At(e, x), m)
    requires AtWork(x.io, [Close] + rest, READS) && x.tcp == UP && x.log == UP_LOG
    ensures Ends(At(e, x.(io := x.io.(k := rest, poller := MADE), tcp := DOWN, log := LIFECYCLE, inMap := false)), m)
  {
    hide Ends, At, R.RemoveChannel, Env.Valid;
    Pollers();
    ClosesDown(e, x, rest, m);
    var a := x.(io := x.io.(k := [Report] + rest, poller := OFF), tcp := DOWN, log := LIFECYCLE[..4]);
    var b := a.(io := a.io.(k := [Erase] + rest));
    var d := b.(io := b.io.(k := [Destroy] + rest), log := LIFECYCLE[..5], inMap := false);
    assert LIFECYCLE[..4] + [Erased] == LIFECYCLE[..5] && LIFECYCLE[..5] + [Destroyed] == LIFECYCLE;
    Part(e, a, b, m);
    ErasePart(e, b, rest, m);
    Part(e, d, d.(io := d.io.(k := rest, poller := MADE), log := LIFECYCLE), m);
  }

  /** On one loop: the connection up, its loop back in the poll. */
  const POLLING: Sit := Sit(AtPc(IDLE, L.Poll).(poller := READS, cur := 1), IDLE, UP, UP_LOG, true, {}, [], false)

  lemma UpAndPolling()
    ensures Ends(At(ONE, POLLING), TAME)
  {
    hide Ends, At;
    AcceptHere(ONE);
    var x := BORN_HERE;
    ComesUp(ONE, x, TAME);
    var y := x.(io := x.io.(k := [], poller := READS), tcp := UP, log := UP_LOG);
    var b := Swapped(y.io);
    SwapsIn(ONE, y, true, TAME);
    PassEnds(ONE, y.(io := b), true, TAME);
    ToPoll(ONE, y.(io := Done(b)), TAME);
  }

  /** The peer has sent something, or is gone. */
  const READABLE: Ch.Revents := Ch.Revents(false, true, false, false, false)

  lemma ReadableOps()
    ensures OpsOf(Ch.Callbacks(READABLE, INSTALLED)) == [Read]
  {
    assert Ch.Callbacks(READABLE, INSTALLED) == [Ch.Read] && [Ch.Read][1..] == [];
  }

  /** A read of an event just reported returns zero: handleClose is at hand, under the dispatch guard. */
  lemma ReadsZero(e: Env, x: Sit, m: Mode)
    requires e.Valid() && x.inMap && x.tcp == UP && Ends(At(e, x), m) && !x.io.el.owes
    requires x.io.active == [Active(1, READABLE)] && Free(x.io) && x.io.el.pc == L.Dispatch && x.io.poller == READS
    ensures Ends(At(e, x.(io := x.io.(active := [], cur := 1, guard := Some(1), k := [Close]))), m)
  {
    hide Ends, At, R.Change, Env.Valid, OpsOf, Ch.Callbacks;
    ReadableOps();
    assert [Read][1..] == [] && [Close] + [] == [Close];
    Dispatches(e, x, READABLE, [Read], m);
    var a := x.(io := x.io.(active := [], cur := 1, guard := Some(1), k := [Read]));
    Part(e, a, a.(io := a.io.(k := [Close])), m);
  }

  /** On one loop: a read of an event just reported returns zero, and the connection closes. */
  lemma ClosesInDispatch(x: Sit, m: Mode)
    requires x.inMap && x.tcp == UP && x.log == UP_LOG && Ends(At(ONE, x), m) && !x.io.el.owes
    requires x.io.active == [Active(1, READABLE)] && Free(x.io) && x.io.el.pc == L.Dispatch && x.io.poller == READS
    ensures Ends(At(ONE, x.(io := x.io.(active := [], cur := 1, poller := MADE),
                            tcp := DOWN, log := LIFECYCLE, inMap := false)), m)
  {
    hide Ends, At;
    ReadsZero(ONE, x, m);
    var a := x.(io := x.io.(active := [], cur := 1, guard := Some(1), k := [Close]));
    assert [Close] + [] == [Close];
    Closes(ONE, a, [], m);
    var b := a.(io := a.io.(k := [], poller := MADE), tcp := DOWN, log := LIFECYCLE, inMap := false);
    LoopStep(ONE, b, true, b.io.(guard := None), DispatchDone(0), m);
  }
  // ---- calls from other threads ----

  const PAYLOAD: seq<B.Byte> := [65]
  const SEND_FN: Fn := SendFn(1, PAYLOAD)

  lemma SendStep(e: Env, x: Sit, m: Mode)
    requires e.Valid() && x.inMap && x.tcp == UP && Ends(At(e, x), m)
    ensures Ends(At(e, x.(io := Given(x.io, SEND_FN))), m)
  {
    var s, s' := At(e, x), At(e, x.(io := Given(x.io, SEND_FN)));
    AtUpdate(e, x, Given(x.io, SEND_FN), x.tcp, x.log);
    GivenIs(x.io, SEND_FN);
    hide At, Alive, Ends, OnConn, OnLoop, Env.Io, L.Apply, Given;
    assert DoOtherCall(s, 1, Send(PAYLOAD)) == s';
    assert Leads(s, OtherCall(1, Send(PAYLOAD)), s');
    OneMore(s, OtherCall(1, Send(PAYLOAD)), s', m);
  }

  lemma HoldStep(e: Env, x: Sit, m: Mode)
    requires e.Valid() && x.inMap && x.held == {} && Ends(At(e, x), m)
    ensures Ends(At(e, x.(held := {1})), m)
  {
    var s, s' := At(e, x), At(e, x.(held := {1}));
    AtUpdate(e, x, x.io, x.tcp, x.log);
    assert {} + {1} == {1};
    assert s.(held := {} + {1}) == s';
    hide Ends, Alive, At;
    assert Leads(s, Hold(1), s');
    OneMore(s, Hold(1), s', m);
  }

  lemma ReleaseStep(e: Env, x: Sit, m: Mode)
    requires x.held == {1} && Ends(At(e, x), m)
    ensures Ends(At(e, x.(held := {})), m)
  {
    var s, s' := At(e, x), At(e, x.(held := {}));
    assert {1} - {1} == {};
    assert s.(held := {1} - {1}) == s';
    hide Ends, At;
    assert s.held == {1} by { AtHeld(e, x); }
    assert Leads(s, Release(1), s');
    OneMore(s, Release(1), s', m);
  }

  lemma AtHeld(e: Env, x: Sit)
    ensures At(e, x).held == x.held
  {
  }

  lemma TestStep(e: Env, x: Sit, call: Call, m: Mode)
    requires e.Valid() && x.inMap && x.tcp == UP && !m.atomic && Ends(At(e, x), m)
    ensures Ends(At(e, x.(inflight := x.inflight + [InFlight(1, call, false)])), m)
  {
    var s, s' := At(e, x), At(e, x.(inflight := x.inflight + [InFlight(1, call, false)]));
    AtUpdate(e, x, x.io, x.tcp, x.log);
    assert s.(inflight := x.inflight + [InFlight(1, call, false)]) == s';
    hide Ends, Alive, At;
    assert Leads(s, Test(1, call), s');
    OneMore(s, Test(1, call), s', m);
  }

  lemma HandStep(e: Env, x: Sit, call: Call, stored: bool, m: Mode)
    requires e.Valid() && x.inflight != [] && x.inflight[0] == InFlight(1, call, stored) && (stored || call.Send?)
    requires !m.atomic && Ends(At(e, x), m)
    ensures Ends(At(e, x.(io := Given(x.io, FnOf(1, call)), inflight := x.inflight[1..])), m)
  {
    var lp, y := Given(x.io, FnOf(1, call)), x.(inflight := x.inflight[1..]);
    var s, s' := At(e, x), At(e, y.(io := lp));
    AtUpdate(e, x, x.io, x.tcp, x.log);
    AtUpdate(e, y, lp, x.tcp, x.log);
    assert s.inflight[..0] + s.inflight[1..] == y.inflight;
    assert s.(inflight := y.inflight) == At(e, y);
    GivenIs(x.io, FnOf(1, call));
    hide Ends, At, OnLoop, Env.Io, L.Apply, Given;
    assert DoHand(s, 0) == s';
    HandMore(s, s', m);
  }

  // ---- a raw functor without its connection ----

  /** No queued functor binds a connection that is gone. */
  ghost predicate RawSafe(s: State) {
    forall l, c, i :: l in s.loops && c in s.conns && 0 <= i < |Work(s.loops[l])| ==>
      Raw(Work(s.loops[l])[i], c) ==> Alive(s, c)
  }

  /** The connection erased, its functors run, nobody holding it, and a send queued. */
  predicate Dangling(x: Sit) {
    && !x.inMap && x.held == {}
    && x.io.guard == None && x.ba.guard == None && x.ba.el.pending == [] && x.ba.el.batch == []
    && ((x.io.el.batch == [] && x.io.el.pending == [SEND_FN]) || (x.io.el.batch == [SEND_FN] && x.io.el.pending == []))
    && x.io.el.pos == 0
  }

  lemma DanglingIsUnsafe(e: Env, x: Sit)
    requires e.Valid() && Dangling(x)
    ensures !Alive(At(e, x), 1) && !RawSafe(At(e, x))
  {
    var s := At(e, x);
    assert forall l :: l in s.loops ==> s.loops[l] == x.io || s.loops[l] == x.ba || s.loops[l] == IDLE;
    assert !Alive(s, 1);
    LoopsSet(e, x.io, x.ba, x.io);
    var w := Work(s.loops[e.Io()]);
    assert w == [SEND_FN];
    assert Raw(w[0], 1);
  }

  /** Where the io loop is the base loop, an off-loop send whose functor waits while the peer closes
      is next to run on a connection that no longer exists, though every call was one step. */
  lemma SingleLoopRawDangles()
    ensures exists s :: Ends(s, TAME) && s.pool == [] && s.base in s.loops && Free(s.loops[s.base]) && 1 in s.conns
              && L.Enabled(s.loops[s.base].el, L.RunNext)
              && s.loops[s.base].el.batch[s.loops[s.base].el.pos] == SEND_FN && !Alive(s, 1) && !RawSafe(s)
  {
    hide Ends, At, Alive, RawSafe;
    UpAndPolling();
    PollStep(ONE, POLLING, READABLE, TAME);
    var x := POLLING.(io := AtPc(POLLING.io, L.Dispatch).(active := [Active(1, READABLE)]));
    SendStep(ONE, x, TAME);
    var y := x.(io := Given(x.io, SEND_FN));
    ClosesInDispatch(y, TAME);
    var z := y.(io := y.io.(active := [], cur := 1, poller := MADE), tcp := DOWN, log := LIFECYCLE, inMap := false);
    var b := Swapped(z.io);
    SwapsIn(ONE, z, true, TAME);
    DanglingIsUnsafe(ONE, z.(io := b));
    AtUpdate(ONE, z.(io := b), b, z.tcp, z.log);
  }

  // ---- the same with a pool, for a send cut in two ----

  /** connectEstablished has run on the pool's first loop, which is back in the poll. */
  const UP_AWAY: Sit :=
    Sit(IDLE.(poller := READS, cur := 1, el := IDLE.el.(pc := L.Poll, writers := 1, pushed := [EstablishFn(1)],
                                                       executed := [EstablishFn(1)])),
        READY, UP, UP_LOG, true, {}, [], false)

  lemma UpAway(e: Env)
    requires e.Valid() && e.pool != []
    ensures Ends(At(e, UP_AWAY), TAME)
  {
    hide Ends, At, Env.Valid;
    AcceptAway(e);
    ToPoll(e, BORN, TAME);
    var x := BORN.(io := AtPc(BORN.io, L.Poll));
    QuietPoll(e, x, TAME);
    var y := BORN.(io := AtPc(BORN.io, L.Dispatch));
    TakesOne(e, y, true, EstablishFn(1), TAME);
    var z := y.(io := Taking(y.io, EstablishFn(1)));
    ComesUp(e, z, TAME);
    var u := z.(io := z.io.(k := [], poller := READS), tcp := UP, log := UP_LOG);
    PassEnds(e, u, true, TAME);
    var v := u.(io := Done(u.io));
    ToPoll(e, v, TAME);
    assert [] + [EstablishFn(1)] == [EstablishFn(1)];
    assert v.(io := AtPc(v.io, L.Poll)) == UP_AWAY;
  }

  const HELD: InFlight := InFlight(1, Send(PAYLOAD), false)

  /** handleClose and what follows it on both loops, with a send caught between test and push. */
  lemma ReportPart(e: Env, x: Sit, m: Mode)
    requires e.Valid() && e.pool != [] && Ends(At(e, x), m) && AtWork(x.io, [Report], OFF) && x.tcp == DOWN
    ensures Ends(At(e, x.(io := x.io.(k := []), ba := Given(x.ba, RemoveFn(1)))), m)
  {
    var y := x.(io := x.io.(k := []));
    var s, s' := At(e, x), At(e, y.(ba := Given(x.ba, RemoveFn(1))));
    AtUpdate(e, x, y.io, x.tcp, x.log);
    AtBase(e, x, x.ba);
    AtBase(e, y, Given(x.ba, RemoveFn(1)));
    GivenIs(x.ba, RemoveFn(1));
    assert x.io.k[1..] == [];
    var n := Number(e, true);
    assert OnLoop(s, n, y.io) == At(e, y) && s.base in At(e, y).loops;
    hide Ends, At, OnLoop, Env.Io, L.Apply, Given;
    assert DoAdvance(s, n, 0, ANY) == s';
    AdvanceMore(s, n, s', m);
  }

  lemma EraseAwayPart(e: Env, x: Sit, m: Mode)
    requires e.Valid() && e.pool != [] && Ends(At(e, x), m) && x.inMap && x.tcp == DOWN
    requires x.ba.cur == 1 && x.ba.k == [Erase] && !x.ba.el.owes && L.InCallback(x.ba.el)
    ensures Ends(At(e, x.(ba := x.ba.(k := []), io := Given(x.io, DestroyFn(1)),
                          log := x.log + [Erased], inMap := false)), m)
  {
    var y := x.(log := x.log + [Erased]);
    var z := y.(inMap := false);
    var w := z.(ba := x.ba.(k := []));
    var s, s' := At(e, x), At(e, w.(io := Given(x.io, DestroyFn(1))));
    AtUpdate(e, x, x.io, x.tcp, y.log);
    AtBase(e, x, x.ba);
    AtErased(e, y);
    ErasedState(s, At(e, y));
    assert At(e, y).connections == s.connections;
    AtBase(e, z, w.ba);
    AtUpdate(e, w, Given(x.io, DestroyFn(1)), x.tcp, y.log);
    GivenIs(x.io, DestroyFn(1));
    assert x.ba.k[1..] == [];
    hide Ends, At, OnLoop, OnConn, Env.Io, L.Apply, Given;
    assert DoAdvance(s, e.base, 0, ANY) == s';
    AdvanceMore(s, e.base, s', m);
  }
  /** The send has tested Connected; the channel is reported readable. */
  const TESTED: Sit :=
    UP_AWAY.(io := AtPc(UP_AWAY.io, L.Dispatch).(active := [Active(1, READABLE)]), held := {1}, inflight := [HELD])

  /** handleClose has run; its removal is queued on the base loop. */
  const CLOSED_AWAY: Sit :=
    TESTED.(io := TESTED.io.(active := [], poller := OFF), ba := Given(READY, RemoveFn(1)), tcp := DOWN,
            log := LIFECYCLE[..4])

  /** The base loop has erased the connection; its connectDestroyed is queued. */
  const ERASED_AWAY: Sit :=
    CLOSED_AWAY.(io := Given(CLOSED_AWAY.io, DestroyFn(1)), ba := Done(Taking(CLOSED_AWAY.ba, RemoveFn(1)).(k := [])),
                 log := LIFECYCLE[..5], inMap := false)

  /** And has run. */
  const DESTROYED_AWAY: Sit :=
    ERASED_AWAY.(io := Done(Taking(ERASED_AWAY.io, DestroyFn(1)).(k := [], poller := MADE)), log := LIFECYCLE)

  lemma TestedEnds(e: Env)
    requires e.Valid() && e.pool != []
    ensures Ends(At(e, TESTED), SPLIT)
  {
    hide Ends, At, Env.Valid;
    UpAway(e);
    Weaken(At(e, UP_AWAY), TAME, SPLIT);
    HoldStep(e, UP_AWAY, SPLIT);
    assert [] + [HELD] == [HELD];
    TestStep(e, UP_AWAY.(held := {1}), Send(PAYLOAD), SPLIT);
    PollStep(e, UP_AWAY.(held := {1}, inflight := [HELD]), READABLE, SPLIT);
  }

  lemma ClosedEnds(e: Env)
    requires e.Valid() && e.pool != []
    ensures Ends(At(e, CLOSED_AWAY), SPLIT)
  {
    hide Ends, At, Env.Valid;
    TestedEnds(e);
    ReadsZero(e, TESTED, SPLIT);
    var b := TESTED.(io := TESTED.io.(active := [], cur := 1, guard := Some(1), k := [Close]));
    assert [Close] + [] == [Close] && [Report] + [] == [Report];
    ClosesDown(e, b, [], SPLIT);
    var d := b.(io := b.io.(k := [Report], poller := OFF), tcp := DOWN, log := LIFECYCLE[..4]);
    ReportPart(e, d, SPLIT);
    var f := d.(io := d.io.(k := []), ba := Given(READY, RemoveFn(1)));
    LoopStep(e, f, true, f.io.(guard := None), DispatchDone(Number(e, true)), SPLIT);
  }

  lemma ErasedEnds(e: Env)
    requires e.Valid() && e.pool != []
    ensures Ends(At(e, ERASED_AWAY), SPLIT)
  {
    hide Ends, At, Env.Valid;
    ClosedEnds(e);
    assert [] + [RemoveFn(1)] == [RemoveFn(1)];
    TakesOne(e, CLOSED_AWAY, false, RemoveFn(1), SPLIT);
    var a := CLOSED_AWAY.(ba := Taking(CLOSED_AWAY.ba, RemoveFn(1)));
    assert LIFECYCLE[..4] + [Erased] == LIFECYCLE[..5];
    EraseAwayPart(e, a, SPLIT);
    var b := a.(ba := a.ba.(k := []), io := Given(a.io, DestroyFn(1)), log := LIFECYCLE[..5], inMap := false);
    PassEnds(e, b, false, SPLIT);
  }

  lemma DestroyedEnds(e: Env)
    requires e.Valid() && e.pool != []
    ensures Ends(At(e, DESTROYED_AWAY), SPLIT)
  {
    hide Ends, At, Env.Valid, R.RemoveChannel;
    Pollers();
    ErasedEnds(e);
    assert [] + [DestroyFn(1)] == [DestroyFn(1)];
    TakesOne(e, ERASED_AWAY, true, DestroyFn(1), SPLIT);
    var a := ERASED_AWAY.(io := Taking(ERASED_AWAY.io, DestroyFn(1)));
    assert LIFECYCLE[..5] + [Destroyed] == LIFECYCLE;
    var b := a.(io := a.io.(k := [], poller := MADE), log := LIFECYCLE);
    Part(e, a, b, SPLIT);
    PassEnds(e, b, true, SPLIT);
  }

  /** With any pool, an off-loop send cut between its test and its push hands over its functor after
      the connection has gone through its whole life; the caller's shared_ptr is the last. */
  lemma SplitSendDangles(e: Env)
    requires e.Valid() && e.pool != []
    ensures exists s :: Ends(s, SPLIT) && s.pool == e.pool && !RawSafe(s)
  {
    hide Ends, At, RawSafe, Env.Valid;
    DestroyedEnds(e);
    assert DESTROYED_AWAY.inflight[1..] == [];
    HandStep(e, DESTROYED_AWAY, Send(PAYLOAD), false, SPLIT);
    var x := DESTROYED_AWAY.(io := Given(DESTROYED_AWAY.io, SEND_FN), inflight := []);
    ReleaseStep(e, x, SPLIT);
    assert [] + [SEND_FN] == [SEND_FN];
    var y := x.(held := {});
    DanglingIsUnsafe(e, y);
    AtUpdate(e, y, y.io, y.tcp, y.log);
  }

  function Above(ns: seq<nat>): (n: nat)
    ensures forall i :: 0 <= i < |ns| ==> ns[i] < n
  {
    if ns == [] then 0 else
      var n := Above(ns[..|ns| - 1]);
      if ns[|ns| - 1] < n then n else ns[|ns| - 1] + 1
  }

  /** Over all runs, whatever events the polls report, raw functors are safe exactly when io loops
      are apart from the base loop and each off-loop test and push is one step. */
  lemma RawSafeIff(pool: seq<nat>, m: Mode)
    ensures (forall s :: Ends(s, m) && s.pool == pool ==> RawSafe(s)) <==> pool != [] && m.atomic
  {
    hide Reachable, Ends, RawSafe;
    if pool == [] {
      SingleLoopRawDangles();
      var s :| Ends(s, TAME) && s.pool == [] && !RawSafe(s);
      Weaken(s, TAME, m);
    } else if !m.atomic {
      var e := Env(Above(pool), pool);
      SplitSendDangles(e);
      var s :| Ends(s, SPLIT) && s.pool == e.pool && !RawSafe(s);
      Weaken(s, SPLIT, m);
    } else {
      forall s | Ends(s, m) && s.pool == pool ensures RawSafe(s) {
        EndsReachable(s, m);
        PooledIsSafe(s);
      }
    }
  }

  lemma EndsReachable(s: State, m: Mode)
    requires Ends(s, m) && m.atomic
    ensures Reachable(s)
  {
    hide Ends;
    Weaken(s, m, ATOMIC);
  }

  lemma PooledIsSafe(s: State)
    requires Reachable(s) && s.pool != []
    ensures RawSafe(s)
  {
    hide Reachable, Alive, Work;
    forall l, c, i | l in s.loops && c in s.conns && 0 <= i < |Work(s.loops[l])| && Raw(Work(s.loops[l])[i], c)
      ensures Alive(s, c)
    {
      ServerTheorems.RawFunctorsAreSafe(s, l, c, i);
    }
  }

  // ---- a close cut in two ----

  const CALL: InFlight := InFlight(1, ForceClose, false)
  const BACK: S.Tcp := DOWN.(state := S.Disconnecting)

  function Stored(x: Sit): Sit
    requires x.inflight != []
  {
    x.(tcp := x.tcp.(state := S.Disconnecting), inflight := x.inflight[0 := CALL.(stored := true)])
  }

  lemma StoreStep(e: Env, x: Sit, m: Mode)
    requires e.Valid() && x.inflight != [] && x.inflight[0] == CALL && !m.atomic && Ends(At(e, x), m)
    ensures Ends(At(e, Stored(x)), m)
    ensures CanStore(At(e, x), 0) && DoStore(At(e, x), 0) == At(e, Stored(x))
  {
    var y, t := x.(inflight := Stored(x).inflight), x.tcp.(state := S.Disconnecting);
    var s, s' := At(e, x), At(e, y.(tcp := t));
    AtUpdate(e, x, x.io, x.tcp, x.log);
    AtUpdate(e, y, x.io, t, x.log);
    assert s.(inflight := y.inflight) == At(e, y);
    hide Ends, At, OnConn;
    assert DoStore(s, 0) == s';
    StoreMore(s, s', m);
  }

  /** The functor of a forceClose meets a connection that says Disconnecting. */
  lemma CloseStarts(x: Sit, m: Mode)
    requires Ends(At(ONE, x), m) && x.tcp.state == S.Disconnecting
    requires Free(x.io) && x.io.el.pc == L.Running && x.io.el.batch == [ForceCloseFn(1)] && x.io.el.pos == 0
    ensures Ends(At(ONE, x.(io := x.io.(el := L.Apply(x.io.el, L.RunNext), cur := 1, k := [Close]))), m)
  {
    var lp := x.io.(el := L.Apply(x.io.el, L.RunNext), cur := 1, k := [Close]);
    AtUpdate(ONE, x, lp, x.tcp, x.log);
    hide Ends, At, OnLoop, OnConn, L.Apply;
    var s, s' := At(ONE, x), At(ONE, x.(io := lp));
    assert DoRun(s, 0, ANY) == s';
    assert Leads(s, RunNext(0, ANY), s');
    OneMore(s, RunNext(0, ANY), s', m);
  }

  /** Some run that keeps the assumptions of m closes a connection twice. */
  ghost predicate ClosedTwice(m: Mode) {
    exists s :: Ends(s, m) && 1 in s.conns && s.conns[1].log == LIFECYCLE + [Closed]
  }

  /** The second handleClose. */
  lemma ClosesAgain(x: Sit, m: Mode)
    requires Ends(At(ONE, x), m) && AtWork(x.io, [Close], MADE) && !x.tcp.shut && x.log == LIFECYCLE
    ensures ClosedTwice(m)
  {
    hide Ends, At, R.Change;
    var y := x.(io := x.io.(k := [Down] + x.io.k[1..], poller := R.Change(MADE, 1, R.NONE_EVENT)),
                tcp := S.Closed(x.tcp),
                log := LIFECYCLE + [Closed]);
    Part(ONE, x, y, m);
    AtUpdate(ONE, y, y.io, y.tcp, y.log);
  }

  const TESTED_HERE: Sit :=
    POLLING.(io := AtPc(POLLING.io, L.Dispatch).(active := [Active(1, READABLE)]), held := {1}, inflight := [CALL])

  const CLOSED_HERE: Sit :=
    TESTED_HERE.(io := TESTED_HERE.io.(active := [], poller := MADE), tcp := DOWN, log := LIFECYCLE, inMap := false)

  lemma ClosedHere()
    ensures Ends(At(ONE, CLOSED_HERE), SPLIT)
  {
    hide Ends, At;
    UpAndPolling();
    Weaken(At(ONE, POLLING), TAME, SPLIT);
    HoldStep(ONE, POLLING, SPLIT);
    assert [] + [CALL] == [CALL];
    TestStep(ONE, POLLING.(held := {1}), ForceClose, SPLIT);
    PollStep(ONE, POLLING.(held := {1}, inflight := [CALL]), READABLE, SPLIT);
    ClosesInDispatch(TESTED_HERE, SPLIT);
  }

  /** An off-loop forceClose tests Connected; the peer closes; the store of Disconnecting then moves
      the state back, and the functor it hands over runs handleClose a second time. */
  lemma SplitCallClosesTwice()
    ensures exists s :: Ends(s, SPLIT) && CanStore(s, 0) && s.conns[s.inflight[0].c].tcp.state == S.Disconnected
              && DoStore(s, 0).conns[s.inflight[0].c].tcp.state == S.Disconnecting
    ensures ClosedTwice(SPLIT)
  {
    hide Ends, At, DoStore;
    ClosedHere();
    var x := CLOSED_HERE;
    AtUpdate(ONE, x, x.io, x.tcp, x.log);
    StoreStep(ONE, x, SPLIT);
    var y := x.(tcp := BACK, inflight := [CALL.(stored := true)]);
    assert x.inflight[0 := CALL.(stored := true)] == y.inflight && y.inflight[1..] == [];
    AtUpdate(ONE, y, y.io, y.tcp, y.log);
    HandStep(ONE, y, ForceClose, true, SPLIT);
    SecondClose();
  }

  const HANDED: Sit := CLOSED_HERE.(io := Given(CLOSED_HERE.io, ForceCloseFn(1)), tcp := BACK, inflight := [])

  lemma SecondClose()
    requires Ends(At(ONE, HANDED), SPLIT)
    ensures ClosedTwice(SPLIT)
  {
    hide Ends, At, ClosedTwice;
    var z := HANDED;
    assert [] + [ForceCloseFn(1)] == [ForceCloseFn(1)];
    var b := Swapped(z.io);
    SwapsIn(ONE, z, true, SPLIT);
    CloseStarts(z.(io := b), SPLIT);
    ClosesAgain(z.(io := b.(el := L.Apply(b.el, L.RunNext), cur := 1, k := [Close])), SPLIT);
  }

  // ---- an event that is a close and a read ----

  /** A hang-up with PRI and without IN. */
  const HUNG_UP: Ch.Revents := Ch.Revents(true, false, true, false, false)

  /** Its dispatch runs handleClose, and then handleRead, whose read returns zero and closes again. */
  lemma HangUpClosesTwice()
    ensures ClosedTwice(ATOMIC)
  {
    hide Ends, At, ClosedTwice;
    UpAndPolling();
    Weaken(At(ONE, POLLING), TAME, ATOMIC);
    PollStep(ONE, POLLING, HUNG_UP, ATOMIC);
    assert OpsOf(Ch.Callbacks(HUNG_UP, INSTALLED)) == [Close] + [Read] by {
      assert Ch.Callbacks(HUNG_UP, INSTALLED) == [Ch.Close, Ch.Read];
      assert [Ch.Close, Ch.Read][1..] == [Ch.Read] && [Ch.Read][1..] == [];
    }
    var x := POLLING.(io := AtPc(POLLING.io, L.Dispatch).(active := [Active(1, HUNG_UP)]));
    Dispatches(ONE, x, HUNG_UP, [Close] + [Read], ATOMIC);
    var y := x.(io := x.io.(active := [], cur := 1, guard := Some(1), k := [Close] + [Read]), wild := true);
    Closes(ONE, y, [Read], ATOMIC);
    var z := y.(io := y.io.(k := [Read], poller := MADE), tcp := DOWN, log := LIFECYCLE, inMap := false);
    Part(ONE, z, z.(io := z.io.(k := [Close])), ATOMIC);
    ClosesAgain(z.(io := z.io.(k := [Close])), ATOMIC);
  }

  /** The lifecycle keeps its order in all runs exactly when both assumptions are kept: each off-loop
      test and push is one step, and no hang-up carries PRI without IN. */
  lemma LifecycleIffTame(m: Mode)
    ensures (forall s, c :: Ends(s, m) && c in s.conns ==> InOrder(s.conns[c].log)) <==> m.atomic && m.benign
  {
    hide Ends, Reachable;
    if m == TAME {
      forall s, c | Ends(s, m) && c in s.conns ensures InOrder(s.conns[c].log) {
        EndsReachable(s, m);
        BenignIsCalm(s, m, c);
        ServerTheorems.LifecycleInOrder(s, c);
      }
    } else {
      var w := if m.atomic then ATOMIC else SPLIT;
      if m.atomic { HangUpClosesTwice(); } else { SplitCallClosesTwice(); }
      var s :| Ends(s, w) && 1 in s.conns && s.conns[1].log == LIFECYCLE + [Closed];
      Weaken(s, w, m);
      assert !InOrder(s.conns[1].log);
    }
  }
}
