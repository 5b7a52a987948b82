/** The server's connections are the connections of module Streams: what any step does to one is at
    most one act of its stream, and the states it goes through along a run of the server, stutters
    dropped, are a run of Streams. So what is proved there of runs holds of each connection here.
    With it go the facts about two moments of a run: no connection ever moves back, and the io loops
    are dealt out in turn. */
module ServerRefinement {
  import opened Servers
  import opened ServerInvariant
  import opened ServerConns
  import opened ServerSteps
  import opened ServerReferences
  import opened ServerRuns
  import opened ServerAdvance
  import opened ServerExecution
  import opened ServerTheorems
  import R = Registration
  import S = Streams
  import L = LoopProtocol
  import T = ThreadPools

  /** The act of c's stream that a step is, if any. */
  ghost function ActOf(s: State, st: Step, c: Id): seq<S.Act>
    requires Enabled(s, st)
  {
    match st
    case RunNext(l, r) => RunActs(s.loops[l].el.batch[s.loops[l].el.pos], r, c)
    case Advance(l, _, r) => if s.loops[l].cur == c then PartActs(s.loops[l].k[0], r) else []
    case UserCall(_, x, call, r) => if x == c && CanCall(TcpOf(s, c), call) then CallActs(call, r) else []
    case OtherCall(x, call) => if x == c && CanCall(TcpOf(s, c), call) && !call.Send? then [S.Request] else []
    case _ => []
  }

  function RunActs(f: Fn, r: S.WriteResult, c: Id): seq<S.Act> {
    match f
    case SendFn(x, msg) => if x == c then [S.RawSend(msg, r)] else []
    case ShutdownFn(x) => if x == c then [S.RawShutdown] else []
    case _ => []
  }

  function PartActs(op: Op, r: S.WriteResult): seq<S.Act> {
    match op
    case Est => [S.Establish]
    case Close => [S.Close]
    case Write => [S.Ready(r)]
    case Drain => [S.Drain]
    case _ => []
  }

  function CallActs(call: Call, r: S.WriteResult): seq<S.Act> {
    match call case Send(msg) => [S.Send(msg, r)] case Shutdown => [S.Shutdown] case ForceClose => [S.Request]
  }

  /** The stream of a connection; before it is accepted, what it will start as. */
  function TcpOf(s: State, c: Id): S.Tcp { if c in s.conns then s.conns[c].tcp else S.FRESH }

  /** Nothing, or the one act. */
  ghost predicate Does(cfg: S.Config, t: S.Tcp, acts: seq<S.Act>, t': S.Tcp) {
    if acts == [] then t' == t else |acts| == 1 && S.Enabled(t, acts[0]) && t' == S.Do(cfg, t, acts[0]).tcp
  }

  /** A connection keeps its place, its stream does `acts` and its log grows by at most one event. */
  ghost predicate Moves(cfg: S.Config, cn: Conn, acts: seq<S.Act>, cn': Conn) {
    && cn'.loop == cn.loop && cn'.fd == cn.fd && Does(cfg, cn.tcp, acts, cn'.tcp)
    && cn.log <= cn'.log && |cn'.log| <= |cn.log| + 1 && (cn.wild ==> cn'.wild)
  }

  lemma RunMoves(s: State, l: nat, r: S.WriteResult, c: Id, acts: seq<S.Act>)
    requires CanRun(s, l, r) && c in s.conns && acts == ActOf(s, RunNext(l, r), c)
    requires Inv(s)
    ensures var s' := DoRun(s, l, r);
            s'.conns.Keys == s.conns.Keys && Moves(s.cfg, s.conns[c], acts, s'.conns[c])
  {
    hide Inv, Alive, S.Inv, S.SendInLoop, S.ShutdownInLoop, Output, L.Apply;
    var f := s.loops[l].el.batch[s.loops[l].el.pos];
    if f.SendFn? || f.ShutdownFn? { RunConnKeepsInv(s, l, f, f.c, false); }
  }

  /** The part of a handler at hand comes when the stream allows it. */
  lemma HandTime(s: State, l: nat, c: Id, op: Op, rest: seq<Op>)
    requires Inv(s) && AtHand(s, l, c, op, rest)
    ensures op == Est ==> s.conns[c].tcp.state == S.Connecting
    ensures op == Close ==> s.conns[c].tcp.state != S.Connecting
    ensures op == Destroy ==> s.conns[c].tcp.state == S.Disconnected
    ensures op != Remove
  {
    hide Inv, Seen, ConnOk, Runs, InMap, Counts, One, S.Inv, OpCounts.Total, OpCounts.Plus, InOrder, NextWaits, TallyOf;
    if op == Est || op == Close || op == Destroy {
      HandRuns(s, l, c, op, rest);
      LifeOf(s, c);
      var cn, io, ba := s.conns[c], Seen(s.loops[l], c), Seen(s.loops[s.base], c);
      NoneOps();
      if op == Est {
        EstStep(cn, io, ba, l == s.base, InMap(s, c), Counts(rest), io.pin);
      } else if op == Close {
        CloseStep(cn, io, ba, l == s.base, InMap(s, c), Counts(rest), io.pin);
      } else {
        DestroyStep(cn, io, ba, l == s.base, InMap(s, c), Counts(rest), Counts([]), io.pin);
      }
    }
    NoRemoveAtHand(s, l, c, op, rest);
  }

  lemma AdvanceMoves(s: State, l: nat, n: int, r: S.WriteResult, c: Id, acts: seq<S.Act>)
    requires CanAdvance(s, l, r) && c in s.conns && acts == ActOf(s, Advance(l, n, r), c)
    requires Inv(s)
    ensures var s' := DoAdvance(s, l, n, r);
            s'.conns.Keys == s.conns.Keys && Moves(s.cfg, s.conns[c], acts, s'.conns[c])
  {
    hide Inv, Alive, S.Inv, S.HandleWrite, S.DrainCheck, S.Established, S.Closed, S.Drains, Output, L.Apply,
         R.Change, R.RemoveChannel, Name;
    var d, op, rest := s.loops[l].cur, s.loops[l].k[0], s.loops[l].k[1..];
    assert s.loops[l].k == [op] + rest;
    HandTime(s, l, d, op, rest);
  }

  lemma UserCallMoves(s: State, l: nat, x: Id, call: Call, r: S.WriteResult, c: Id)
    requires CanUserCall(s, l, x, call, r) && c in s.conns
    ensures var s' := DoUserCall(s, l, x, call, r);
            s'.conns.Keys == s.conns.Keys
            && Moves(s.cfg, s.conns[c], ActOf(s, UserCall(l, x, call, r), c), s'.conns[c])
  {
    hide Alive, S.SendInLoop, S.ShutdownInLoop, Output, L.Apply;
    AliveKnown(s, x);
  }

  lemma OtherCallMoves(s: State, x: Id, call: Call, c: Id)
    requires CanOtherCall(s, x) && c in s.conns
    ensures var s' := DoOtherCall(s, x, call);
            s'.conns.Keys == s.conns.Keys && Moves(s.cfg, s.conns[c], ActOf(s, OtherCall(x, call), c), s'.conns[c])
  {
    hide Alive, L.Apply;
    AliveKnown(s, x);
  }

  lemma DispatchMoves(s: State, l: nat, c: Id)
    requires CanDispatch(s, l) && c in s.conns
    ensures var s' := DoDispatch(s, l); s'.conns.Keys == s.conns.Keys && Moves(s.cfg, s.conns[c], [], s'.conns[c])
  {
    hide Alive, OpsOf;
    AliveIsKnown(s, s.loops[l].active[0].c);
  }

  lemma AliveIsKnown(s: State, c: Id)
    ensures Alive(s, c) ==> c in s.conns
  {
  }

  ghost predicate NoCall(st: Step) {
    !st.Accept? && !st.RunNext? && !st.Advance? && !st.UserCall? && !st.OtherCall? && !st.DispatchNext?
  }

  lemma QuietMoves(s: State, st: Step)
    requires Enabled(s, st) && Atomic(st) && NoCall(st)
    ensures Apply(s, st).conns == s.conns
  {
    hide Alive, L.Apply, L.Enabled;
  }

  /** No step but Accept changes the connections there are or whose turn it is. */
  ghost predicate SamePlaces(s: State, s': State) {
    && s'.cfg == s.cfg && s'.base == s.base && s'.pool == s.pool
    && s'.next == s.next && s'.nextId == s.nextId && s'.conns.Keys == s.conns.Keys
  }

  lemma RunFrame(s: State, l: nat, r: S.WriteResult)
    requires CanRun(s, l, r)
    ensures SamePlaces(s, DoRun(s, l, r))
  {
    hide Alive, L.Apply, S.SendInLoop, Output;
  }

  lemma AdvanceFrame(s: State, l: nat, n: int, r: S.WriteResult)
    requires CanAdvance(s, l, r)
    ensures SamePlaces(s, DoAdvance(s, l, n, r))
  {
    hide L.Apply, S.HandleWrite, S.Drains, Output, R.Change, R.RemoveChannel, Name, S.Established, S.Closed,
         S.DrainCheck;
    match s.loops[l].k[0]
    case Est => case Up => case Close => case Down => case Report => case Erase =>
    case Destroy => case Remove => case Read => case Write => case Drain => case User =>
  }

  lemma CallFrame(s: State, st: Step)
    requires Enabled(s, st) && (st.UserCall? || st.OtherCall?)
    ensures SamePlaces(s, Apply(s, st))
  {
    hide L.Apply, S.SendInLoop, Output, Alive, Requested, S.ShutdownInLoop, S.CloseRequested;
    if st.UserCall? { AliveKnown(s, st.c); } else { AliveKnown(s, st.c); }
  }

  lemma DispatchFrame(s: State, l: nat)
    requires CanDispatch(s, l)
    ensures SamePlaces(s, DoDispatch(s, l))
  {
    hide Alive, OpsOf;
    AliveIsKnown(s, s.loops[l].active[0].c);
  }

  lemma StepFrame(s: State, st: Step)
    requires Enabled(s, st) && !st.Accept?
    ensures SamePlaces(s, Apply(s, st))
  {
    hide Alive, L.Apply, L.Enabled, CanRun, DoRun, CanAdvance, DoAdvance, CanUserCall, DoUserCall, CanOtherCall,
         DoOtherCall, CanDispatch, DoDispatch, SamePlaces;
    match st {
      case RunNext(l, r) => RunFrame(s, l, r);
      case Advance(l, n, r) => AdvanceFrame(s, l, n, r);
      case UserCall(_, _, _, _) => CallFrame(s, st);
      case OtherCall(_, _) => CallFrame(s, st);
      case DispatchNext(l) => DispatchFrame(s, l);
      case _ => QuietFrame(s, st);
    }
  }

  lemma QuietFrame(s: State, st: Step)
    requires Enabled(s, st) && NoCall(st)
    ensures SamePlaces(s, Apply(s, st))
  {
    hide Alive, L.Apply, L.Enabled;
  }

  /** What any step does to any connection. */
  lemma StepMoves(s: State, st: Step, c: Id)
    requires Enabled(s, st) && Atomic(st) && c in s.conns
    requires Inv(s)
    ensures c in Apply(s, st).conns && Moves(s.cfg, s.conns[c], ActOf(s, st, c), Apply(s, st).conns[c])
  {
    hide Inv, Alive, CanPoll, CanDispatch, CanAccept, CanRun, CanAdvance, CanUserCall, CanOtherCall, DoDispatch,
         DoRun, DoAdvance, DoUserCall, DoOtherCall, DoPoll, L.Apply, L.Enabled, Free;
    match st {
      case Accept(fd) => AcceptMoves(s, fd, c);
      case DispatchNext(l) => DispatchMoves(s, l, c);
      case RunNext(l, r) => RunMoves(s, l, r, c, ActOf(s, st, c));
      case Advance(l, n, r) => AdvanceMoves(s, l, n, r, c, ActOf(s, st, c));
      case UserCall(l, x, call, r) => UserCallMoves(s, l, x, call, r, c);
      case OtherCall(x, call) => OtherCallMoves(s, x, call, c);
      case _ => QuietMoves(s, st);
    }
  }

  lemma AcceptMoves(s: State, fd: int, c: Id)
    requires CanAccept(s, fd) && c in s.conns
    requires Inv(s)
    ensures c in DoAccept(s, fd).conns && DoAccept(s, fd).conns[c] == s.conns[c]
  {
    hide ConnInv, LoopOk, KnownOk, Alive, L.Apply, Name, R.Create, FdsOk;
  }

  // ---- never back ----

  /** The lifecycle's order of states. */
  function Rank(st: S.ConnState): nat {
    match st case Connecting => 0 case Connected => 1 case Disconnecting => 2 case Disconnected => 3
  }

  lemma DoesForward(cfg: S.Config, t: S.Tcp, acts: seq<S.Act>, t': S.Tcp)
    requires Does(cfg, t, acts, t')
    ensures Rank(t.state) <= Rank(t'.state)
  {
  }

  lemma {:induction false} OnlyForward(s: State, run: seq<Step>, c: Id)
    requires Executable(s, run) && (forall i :: 0 <= i < |run| ==> Atomic(run[i])) && c in s.conns
    requires Inv(s)
    ensures c in Exec(s, run).conns
    ensures var cn, cn' := s.conns[c], Exec(s, run).conns[c];
            Rank(cn.tcp.state) <= Rank(cn'.tcp.state) && cn.log <= cn'.log && cn'.loop == cn.loop && cn'.fd == cn.fd
    decreases |run|
  {
    hide Inv, Enabled, Apply, Atomic, Does, Rank;
    if run != [] {
      var t := Apply(s, run[0]);
      StepMoves(s, run[0], c);
      DoesForward(s.cfg, s.conns[c].tcp, ActOf(s, run[0], c), t.conns[c].tcp);
      StepKeepsInv(s, run[0]);
      OnlyForward(t, run[1..], c);
    }
  }

  /** From any reachable state on, no connection moves back along Connecting, Connected,
      Disconnecting, Disconnected, and what has happened to it has happened for good. */
  lemma NeverMovesBack(s: State, run: seq<Step>, c: Id)
    requires Executable(s, run) && (forall i :: 0 <= i < |run| ==> Atomic(run[i])) && c in s.conns
    requires Reachable(s)
    ensures c in Exec(s, run).conns
    ensures var cn, cn' := s.conns[c], Exec(s, run).conns[c];
            Rank(cn.tcp.state) <= Rank(cn'.tcp.state) && cn.log <= cn'.log && cn'.loop == cn.loop && cn'.fd == cn.fd
  {
    hide Inv, Enabled, Apply, Atomic, Rank, Reachable;
    ReachableInv(s);
    OnlyForward(s, run, c);
  }

  // ---- the stream of a connection along a run ----

  /** What a step does to the stream of any id, accepted or not. */
  lemma StepDoes(s: State, st: Step, c: Id)
    requires Enabled(s, st) && Atomic(st)
    requires Inv(s)
    ensures Does(s.cfg, TcpOf(s, c), ActOf(s, st, c), TcpOf(Apply(s, st), c)) && Apply(s, st).cfg == s.cfg
  {
    hide Inv, Apply, Enabled, ActOf, Atomic;
    if c in s.conns {
      StepMoves(s, st, c);
    } else {
      NotYet(s, st, c);
    }
    CfgKept(s, st);
  }

  lemma CfgKept(s: State, st: Step)
    requires Enabled(s, st)
    ensures Apply(s, st).cfg == s.cfg
  {
    hide Alive, L.Apply, R.Create, Name, CanAccept;
    if !st.Accept? { StepFrame(s, st); }
  }

  lemma NotYet(s: State, st: Step, c: Id)
    requires Enabled(s, st) && c !in s.conns
    ensures ActOf(s, st, c) == [] && TcpOf(Apply(s, st), c) == S.FRESH
  {
    hide L.Apply, R.Create, Name, DoRun, DoAdvance, DoUserCall, DoOtherCall, HoldsRef, InMap;
    if !st.Accept? { StepFrame(s, st); }
  }

  /** The states c's stream goes through along a run, stutters dropped, and its acts between them. */
  ghost function TraceStates(s: State, run: seq<Step>, c: Id): seq<S.Tcp>
    requires Executable(s, run)
    decreases |run|
  {
    if run == [] then [TcpOf(s, c)] else
      (if ActOf(s, run[0], c) == [] then [] else [TcpOf(s, c)]) + TraceStates(Apply(s, run[0]), run[1..], c)
  }

  ghost function TraceActs(s: State, run: seq<Step>, c: Id): seq<S.Act>
    requires Executable(s, run)
    decreases |run|
  {
    if run == [] then [] else ActOf(s, run[0], c) + TraceActs(Apply(s, run[0]), run[1..], c)
  }

  /** A stretch of a run of Streams. */
  ghost predicate Stretch(cfg: S.Config, ts: seq<S.Tcp>, acts: seq<S.Act>) {
    && |ts| == |acts| + 1
    && forall i :: 0 <= i < |acts| ==> S.Enabled(ts[i], acts[i]) && ts[i + 1] == S.Do(cfg, ts[i], acts[i]).tcp
  }

  lemma StretchGrows(cfg: S.Config, t: S.Tcp, a: S.Act, ts: seq<S.Tcp>, acts: seq<S.Act>)
    requires Stretch(cfg, ts, acts) && S.Enabled(t, a) && ts[0] == S.Do(cfg, t, a).tcp
    ensures Stretch(cfg, [t] + ts, [a] + acts)
  {
    hide S.Do, S.Enabled;
  }

  lemma {:induction false} TraceIsStretch(s: State, run: seq<Step>, c: Id)
    requires Executable(s, run) && (forall i :: 0 <= i < |run| ==> Atomic(run[i]))
    requires Inv(s)
    ensures var ts, acts := TraceStates(s, run, c), TraceActs(s, run, c);
      && Stretch(s.cfg, ts, acts) && ts[0] == TcpOf(s, c) && ts[|acts|] == TcpOf(Exec(s, run), c)
    decreases |run|
  {
    hide Inv, Enabled, Apply, Atomic, ActOf, TcpOf, S.Do, S.Enabled;
    if run != [] {
      var t, acts := Apply(s, run[0]), ActOf(s, run[0], c);
      StepDoes(s, run[0], c);
      StepKeepsInv(s, run[0]);
      TraceIsStretch(t, run[1..], c);
      if acts != [] {
        assert acts == [acts[0]];
        StretchGrows(s.cfg, TcpOf(s, c), acts[0], TraceStates(t, run[1..], c), TraceActs(t, run[1..], c));
      } else {
        assert [] + TraceStates(t, run[1..], c) == TraceStates(t, run[1..], c);
        assert [] + TraceActs(t, run[1..], c) == TraceActs(t, run[1..], c);
      }
    }
  }

  /** Refinement: along any run of the server, the states of a connection and its acts are a run of
      module Streams, with Streams' own steps and outcomes. */
  lemma ConnectionsAreStreams(s: State, run: seq<Step>, c: Id)
    requires Init(s) && Executable(s, run) && (forall i :: 0 <= i < |run| ==> Atomic(run[i]))
    ensures var ts, acts := TraceStates(s, run, c), TraceActs(s, run, c);
            S.IsRun(s.cfg, ts, acts) && ts[|acts|] == TcpOf(Exec(s, run), c)
  {
    hide Inv, Enabled, Apply, Atomic, S.Do, S.Enabled;
    InitInv(s);
    TraceIsStretch(s, run, c);
  }

  lemma {:induction false} TraceSplits(s: State, a: seq<Step>, b: seq<Step>, c: Id)
    requires Executable(s, a + b)
    ensures Executable(s, a) && Executable(Exec(s, a), b) && Exec(s, a + b) == Exec(Exec(s, a), b)
    ensures TraceActs(s, a + b, c) == TraceActs(s, a, c) + TraceActs(Exec(s, a), b, c)
    ensures |TraceStates(s, a, c)| > 0
    ensures var ts := TraceStates(s, a, c);
            TraceStates(s, a + b, c) == ts[..|ts| - 1] + TraceStates(Exec(s, a), b, c)
    decreases |a|
  {
    hide Enabled, Apply, ActOf, TcpOf;
    if a == [] {
      assert a + b == b;
      assert [] + TraceActs(s, b, c) == TraceActs(s, b, c);
      assert [] + TraceStates(s, b, c) == TraceStates(s, b, c);
    } else {
      assert (a + b)[0] == a[0] && (a + b)[1..] == a[1..] + b;
      var t := Apply(s, a[0]);
      TraceSplits(t, a[1..], b, c);
      var x, ts := (if ActOf(s, a[0], c) == [] then [] else [TcpOf(s, c)]), TraceStates(t, a[1..], c);
      assert (x + ts)[..|x + ts| - 1] == x + ts[..|ts| - 1];
    }
  }

  /** The step takes the functor of an off-loop send of c, with something to send, while the
      connection, half closed or about to be, is still up. */
  ghost predicate LateStep(s: State, st: Step, c: Id)
    requires Enabled(s, st)
  {
    && c in s.conns && s.conns[c].tcp.state == S.Disconnecting && st.RunNext?
    && var f := s.loops[st.l].el.batch[s.loops[st.l].el.pos]; f.SendFn? && f.c == c && f.msg != []
  }

  ghost predicate NeverLate(s: State, run: seq<Step>, c: Id)
    requires Executable(s, run)
    decreases |run|
  {
    run != [] ==> !LateStep(s, run[0], c) && NeverLate(Apply(s, run[0]), run[1..], c)
  }

  lemma LateIs(s: State, st: Step, c: Id)
    requires Enabled(s, st)
    ensures LateStep(s, st, c) <==> var acts := ActOf(s, st, c); acts != [] && S.LateSend(TcpOf(s, c), acts[0])
  {
    hide Alive, L.Apply, L.Enabled;
  }

  lemma {:induction false} NeverLateIs(s: State, run: seq<Step>, c: Id)
    requires Executable(s, run) && (forall i :: 0 <= i < |run| ==> Atomic(run[i]))
    requires Inv(s)
    ensures var ts, acts := TraceStates(s, run, c), TraceActs(s, run, c);
      && |ts| == |acts| + 1
      && (NeverLate(s, run, c) <==> forall k :: 0 <= k < |acts| ==> !S.LateSend(ts[k], acts[k]))
    decreases |run|
  {
    hide Inv, Enabled, Apply, Atomic, ActOf, TcpOf, S.LateSend, LateStep;
    TraceIsStretch(s, run, c);
    if run != [] {
      var t, x := Apply(s, run[0]), ActOf(s, run[0], c);
      StepKeepsInv(s, run[0]);
      StepDoes(s, run[0], c);
      LateIs(s, run[0], c);
      NeverLateIs(t, run[1..], c);
      TraceIsStretch(t, run[1..], c);
      LaterPart(x, TcpOf(s, c), TraceStates(t, run[1..], c), TraceActs(t, run[1..], c));
    }
  }

  lemma LaterPart(x: seq<S.Act>, t: S.Tcp, ts: seq<S.Tcp>, acts: seq<S.Act>)
    requires |x| <= 1 && |ts| == |acts| + 1
    ensures var us, bs := (if x == [] then [] else [t]) + ts, x + acts;
      && |us| == |bs| + 1
      && ((forall k :: 0 <= k < |bs| ==> !S.LateSend(us[k], bs[k]))
          <==> (x != [] ==> !S.LateSend(t, x[0])) && forall k :: 0 <= k < |acts| ==> !S.LateSend(ts[k], acts[k]))
  {
    hide S.LateSend;
    var us, bs := (if x == [] then [] else [t]) + ts, x + acts;
    forall k | 0 <= k < |acts| ensures us[|x| + k] == ts[k] && bs[|x| + k] == acts[k] {}
    if x != [] { assert us[0] == t && bs[0] == x[0]; }
    if forall k :: 0 <= k < |bs| ==> !S.LateSend(us[k], bs[k]) {
      forall k | 0 <= k < |acts| ensures !S.LateSend(ts[k], acts[k]) { assert !S.LateSend(us[|x| + k], bs[|x| + k]); }
    }
  }

  /** The wire of the server's connections after a half-close: from the moment the write side is shut
      over a connection still up and intact, whatever the server goes on to do, the wire never grows,
      and it keeps being everything accepted exactly as long as no loop takes a late send's functor. */
  lemma WireCompleteIff(s: State, before: seq<Step>, after: seq<Step>, c: Id)
    requires Init(s) && Executable(s, before + after)
    requires forall i :: 0 <= i < |before + after| ==> Atomic((before + after)[i])
    ensures Executable(s, before) && Executable(Exec(s, before), after)
    ensures var m := Exec(s, before); var t, u := TcpOf(m, c), TcpOf(Exec(m, after), c);
      t.shut && t.state != S.Disconnected && t.lost == 0 ==>
        && u.shut && u.wire == t.wire == t.accepted <= u.accepted
        && (u.wire == u.accepted <==> NeverLate(m, after, c))
  {
    hide Inv, Enabled, Apply, Atomic, ActOf, S.LateSend, LateStep, NeverLate, S.IsRun, S.Do, S.Enabled;
    TraceSplits(s, before, after, c);
    var m := Exec(s, before);
    forall i | 0 <= i < |before| ensures Atomic(before[i]) { assert (before + after)[i] == before[i]; }
    forall i | 0 <= i < |after| ensures Atomic(after[i]) { assert (before + after)[|before| + i] == after[i]; }
    InitInv(s);
    ExecKeepsInv(s, before);
    TraceIsStretch(s, before, c);
    TraceIsStretch(m, after, c);
    ConnectionsAreStreams(s, before + after, c);
    NeverLateIs(m, after, c);
    var ts, acts := TraceStates(s, before + after, c), TraceActs(s, before + after, c);
    var i, us, bs := |TraceActs(s, before, c)|, TraceStates(m, after, c), TraceActs(m, after, c);
    assert ts[i..] == us && acts[i..] == bs;
    if us[0].shut && us[0].state != S.Disconnected && us[0].lost == 0 { WireTail(s.cfg, ts, acts, i, us, bs); }
  }

  lemma WireTail(cfg: S.Config, ts: seq<S.Tcp>, acts: seq<S.Act>, i: nat, us: seq<S.Tcp>, bs: seq<S.Act>)
    requires S.IsRun(cfg, ts, acts) && |us| == |bs| + 1 && i <= |acts| && us == ts[i..] && bs == acts[i..]
    requires us[0].shut && us[0].state != S.Disconnected && us[0].lost == 0
    ensures var t, u := us[0], us[|bs|]; u.shut && u.wire == t.wire == t.accepted <= u.accepted
    ensures us[|bs|].wire == us[|bs|].accepted <==> forall k :: 0 <= k < |bs| ==> !S.LateSend(us[k], bs[k])
  {
    hide S.LateSend, S.Do, S.Enabled;
    S.WireCompleteIff(cfg, ts, acts, i, |acts|);
    forall k | 0 <= k < |bs| ensures us[k] == ts[i + k] && bs[k] == acts[i + k] {}
    forall k | i <= k < |acts| ensures ts[k] == us[k - i] && acts[k] == bs[k - i] {}
  }

  /** No handleClose of c runs, and no functor of an off-loop send of c is taken. */
  ghost predicate Undisturbed(s: State, run: seq<Step>, c: Id)
    requires Executable(s, run)
    decreases |run|
  {
    run != [] ==>
      && (forall a :: a in ActOf(s, run[0], c) ==> !a.RawSend? && !a.Close?)
      && Undisturbed(Apply(s, run[0]), run[1..], c)
  }

  /** How many steps wrote some of c's output. */
  ghost function Writes(s: State, run: seq<Step>, c: Id): nat
    requires Executable(s, run)
    decreases |run|
  {
    if run == [] then 0 else
      var acts := ActOf(s, run[0], c);
      (if acts != [] && S.Progress(acts[0]) then 1 else 0) + Writes(Apply(s, run[0]), run[1..], c)
  }

  lemma {:induction false} Drains(s: State, run: seq<Step>, c: Id)
    requires Executable(s, run) && (forall i :: 0 <= i < |run| ==> Atomic(run[i])) && Undisturbed(s, run, c)
    requires TcpOf(s, c).state == S.Disconnecting
    requires Inv(s)
    ensures var t, u := TcpOf(s, c), TcpOf(Exec(s, run), c);
      && u.state == S.Disconnecting && u.accepted == t.accepted && u.lost == t.lost
      && u.wire + u.out == t.wire + t.out && |u.out| + Writes(s, run, c) <= |t.out|
    decreases |run|
  {
    hide Inv, Enabled, Apply, Atomic, ActOf, S.Do, S.Enabled, S.Progress;
    if run != [] {
      var acts := ActOf(s, run[0], c);
      StepDoes(s, run[0], c);
      StepKeepsInv(s, run[0]);
      StreamInv(s, c);
      if acts != [] {
        assert acts[0] in acts;
        S.DrainStep(s.cfg, TcpOf(s, c), acts[0]);
      }
      Drains(Apply(s, run[0]), run[1..], c);
    }
  }

  lemma StreamInv(s: State, c: Id)
    requires Inv(s)
    ensures S.Inv(TcpOf(s, c))
  {
    hide Inv, ConnInv, LoopOk, KnownOk, StaticOk;
    if c in s.conns {
      Parts(s, 0, c);
      ChannelKnown(s, c);
    }
  }

  /** The step is a shutdown() or forceClose() of c, on its loop's thread or on another. */
  predicate Requests(st: Step, c: Id, call: Call) {
    !call.Send? && ((st.UserCall? && st.c == c && st.call == call) || (st.OtherCall? && st.c == c && st.call == call))
  }

  /** Such a call takes effect on a connection that is up, whatever is buffered, and only there: it
      becomes Disconnecting, and neither sends nor drops a byte; a shutdown on the loop's own thread
      half-closes at once exactly if nothing is buffered. */
  lemma RequestTakes(s: State, st: Step, c: Id, call: Call)
    requires Enabled(s, st) && Requests(st, c, call)
    requires Reachable(s)
    ensures var t, u := TcpOf(s, c), TcpOf(Apply(s, st), c);
      && (t.state == S.Connected || (call.ForceClose? && t.state == S.Disconnecting) ==>
            && u == t.(state := S.Disconnecting, shut := u.shut)
            && (u.shut <==> t.shut || (st.UserCall? && call.Shutdown? && t.out == [])))
      && (!(t.state == S.Connected || (call.ForceClose? && t.state == S.Disconnecting)) ==> u == t)
  {
    hide Reachable, Inv, Alive, L.Apply, S.Conserves;
    ReachableInv(s);
    StreamInv(s, c);
    AliveKnown(s, c);
  }

  /** The graceful half-close, in the server: from a shutdown() of a connection that is up, whatever
      the server does short of closing it or running an off-loop send of it, what was buffered at the
      call drains in order; as many writes as bytes were buffered are always enough to put every
      accepted byte on the wire; and the next test of the empty buffer, behind the write that drained
      it or in shutdownInLoop, shuts the write side. */
  lemma ShutdownCompletes(s: State, call: Step, run: seq<Step>, c: Id, st: Step)
    requires Enabled(s, call) && Requests(call, c, Shutdown) && TcpOf(s, c).state == S.Connected
    requires var a := Apply(s, call);
             Executable(a, run) && (forall i :: 0 <= i < |run| ==> Atomic(run[i])) && Undisturbed(a, run, c)
    requires Reachable(s)
    ensures var a, t := Apply(s, call), TcpOf(s, c);
            var u, n := TcpOf(Exec(a, run), c), Writes(a, run, c);
      && u.state == S.Disconnecting && u.accepted == t.accepted && u.wire + u.out == t.wire + t.out
      && |u.out| + n <= |t.out| && (n >= |t.out| ==> u.out == [] && (t.lost == 0 ==> u.wire == u.accepted))
    ensures var m := Exec(Apply(s, call), run);
      Enabled(m, st) && (ActOf(m, st, c) == [S.Drain] || ActOf(m, st, c) == [S.RawShutdown]) ==>
        TcpOf(m, c).out == [] ==> TcpOf(Apply(m, st), c) == TcpOf(m, c).(shut := true)
  {
    hide Inv, Enabled, Apply, Atomic, ActOf, Reachable, Requests;
    var a := Apply(s, call);
    ReachableInv(s);
    RequestTakes(s, call, c, Shutdown);
    RequestIsAtomic(call, c, Shutdown);
    StepKeepsInv(s, call);
    Drains(a, run, c);
    ExecKeepsInv(a, run);
    var m := Exec(a, run);
    StreamInv(s, c);
    StreamInv(m, c);
    assert TcpOf(m, c).out == [] ==> TcpOf(m, c).wire + TcpOf(m, c).out == TcpOf(m, c).wire;
    if Enabled(m, st) && (ActOf(m, st, c) == [S.Drain] || ActOf(m, st, c) == [S.RawShutdown]) {
      ActiveStep(m, st, c);
      StepDoes(m, st, c);
    }
  }

  lemma RequestIsAtomic(st: Step, c: Id, call: Call)
    requires Requests(st, c, call)
    ensures Atomic(st)
  {
  }

  lemma ActiveStep(s: State, st: Step, c: Id)
    requires Enabled(s, st) && ActOf(s, st, c) != []
    ensures Atomic(st)
  {
  }

  // ---- turns, over whole runs ----

  /** The c-th connection belongs to the loop whose turn it was. */
  ghost predicate InTurn(s: State) {
    && (if s.pool == [] then s.next == 0 else 1 <= s.nextId && s.next == (s.nextId - 1) % |s.pool|)
    && forall c :: c in s.conns ==>
         c >= 1 && s.conns[c].loop == if s.pool == [] then s.base else s.pool[(c - 1) % |s.pool|]
  }

  lemma AcceptInTurn(s: State, fd: int)
    requires CanAccept(s, fd)
    requires Inv(s) && InTurn(s)
    ensures InTurn(DoAccept(s, fd))
  {
    hide ConnInv, LoopOk, KnownOk, Alive, L.Apply, Name, R.Create, FdsOk;
    if s.pool != [] { T.DivModStep(s.nextId - 1, |s.pool|); }
  }

  lemma StepInTurn(s: State, st: Step)
    requires Enabled(s, st) && Atomic(st)
    requires Inv(s) && InTurn(s)
    ensures InTurn(Apply(s, st))
  {
    hide Inv, DoAccept, CanAccept;
    var s' := Apply(s, st);
    if st.Accept? {
      AcceptInTurn(s, st.fd);
    } else {
      StepFrame(s, st);
      hide Apply, Enabled, Atomic, Does;
      forall c | c in s'.conns ensures s'.conns[c].loop == s.conns[c].loop { StepMoves(s, st, c); }
    }
  }

  lemma {:induction false} ExecInTurn(s: State, run: seq<Step>)
    requires Executable(s, run) && (forall i :: 0 <= i < |run| ==> Atomic(run[i]))
    requires Inv(s) && InTurn(s)
    ensures InTurn(Exec(s, run))
    decreases |run|
  {
    hide Inv, Enabled, Apply, Atomic, InTurn;
    if run != [] {
      StepKeepsInv(s, run[0]);
      StepInTurn(s, run[0]);
      ExecInTurn(Apply(s, run[0]), run[1..]);
    }
  }

  /** While a connection is up its channel asks to write exactly over a non-empty buffer, and its
      write side is shut only with nothing left to write. */
  lemma InterestFollowsOutput(s: State, c: Id)
    requires Reachable(s) && c in s.conns
    ensures OutputOk(s.conns[c].tcp)
  {
    hide Inv, ConnInv, LoopOk, KnownOk, StaticOk, Init, Enabled, Apply, Atomic, S.Do, S.Enabled;
    ReachableInv(s);
    Parts(s, 0, c);
    ChannelKnown(s, c);
    var s0, run :| Init(s0) && Executable(s0, run) && s == Exec(s0, run) && AllAllowed(ATOMIC, run);
    assert forall i :: 0 <= i < |run| ==> Allowed(ATOMIC, run[i]);
    ConnectionsAreStreams(s0, run, c);
    S.ShutOverEmpty(s0.cfg, TraceStates(s0, run, c), TraceActs(s0, run, c), |TraceActs(s0, run, c)|);
  }

  predicate OutputOk(t: S.Tcp) {
    t.state != S.Disconnected ==> (t.interest.write <==> t.out != []) && (t.shut ==> t.out == [])
  }

  /** Round robin, end to end: the c-th accepted connection lives on the loop the pool's c-th pick
      gives. */
  lemma ConnectionsTakeTurns(s: State, c: Id)
    requires Reachable(s) && c in s.conns
    ensures c >= 1 && (s.pool == [] ==> s.conns[c].loop == s.base)
    ensures s.pool != [] ==>
              var n := T.NextAfter(|s.pool|, c - 1); n < |s.pool| && s.conns[c].loop == s.pool[n]
  {
    hide Inv, Enabled, Apply, Atomic;
    var s0, run :| Init(s0) && Executable(s0, run) && s == Exec(s0, run) && AllAllowed(ATOMIC, run);
    assert forall i :: 0 <= i < |run| ==> Allowed(ATOMIC, run[i]);
    InitInv(s0);
    ExecInTurn(s0, run);
    if s.pool != [] { T.NextIsCallsModulo(|s.pool|, c - 1); }
  }
}
