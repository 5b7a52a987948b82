/** No requested end of a connection is forgotten: an invariant beside ServerInvariant's, kept by every
    step that cuts no off-loop call. */
module ServerHalfClose {
  import opened Servers
  import opened ServerInvariant
  import opened ServerLoops
  import opened ServerSteps
  import opened ServerReferences
  import opened ServerExecution
  import opened ServerTheorems
  import opened ServerRefinement
  import opened ServerAccounts
  import opened ServerQueues
  import S = Streams
  import L = LoopProtocol

  /** A test that may half-close, or a close, is at hand for c on its loop, or its functor is queued there. */
  ghost predicate EndIsComing(lp: Loop, c: Id) {
    || Waiting(lp, c, Drain) || Waiting(lp, c, Close)
    || ShutdownFn(c) in Work(lp) || ForceCloseFn(c) in Work(lp)
  }

  /** A connection asked to end has been half-closed, or still has output, or its end is coming. */
  ghost predicate Remembered(s: State, c: Id) {
    c in s.conns && s.conns[c].tcp.state == S.Disconnecting ==>
      || s.conns[c].tcp.shut || s.conns[c].tcp.out != []
      || (s.conns[c].loop in s.loops && EndIsComing(s.loops[s.conns[c].loop], c))
  }

  // ---- how the remaining work of a loop moves ----

  lemma Cancel(e: seq<Fn>, x: seq<Fn>, y: seq<Fn>)
    requires e + x == e + y
    ensures x == y
  {
    assert x == (e + x)[|e|..] && y == (e + y)[|e|..];
  }

  lemma WorkMoves(el: L.State<Fn>, el': L.State<Fn>, taken: seq<Fn>, handed: seq<Fn>)
    requires L.Inv(el) && L.Inv(el') && el'.pushed == el.pushed + handed && el'.executed == el.executed + taken
    ensures el.Work() + handed == taken + el'.Work()
  {
    hide L.Flags, L.State<Fn>.Work;
    assert el.pos <= |el.batch| && el'.pos <= |el'.batch| by { L.InvMeans(el); L.InvMeans(el'); }
    var w, w' := el.Work(), el'.Work();
    L.Regroup(el.executed, w, handed);
    L.Regroup(el.executed, taken, w');
    Cancel(el.executed, w + handed, taken + w');
  }

  /** A functor in the remaining work stays there until it is taken; what is handed over is there. */
  lemma WorkKept(s: State, st: Step, l: nat, f: Fn)
    requires Enabled(s, st) && Atomic(st) && l in s.loops
    requires Inv(s)
    ensures l in Apply(s, st).loops
    ensures f in Handed(s, st, l) ==> f in Work(Apply(s, st).loops[l])
    ensures f in Work(s.loops[l]) ==> f in Work(Apply(s, st).loops[l]) || TakenBy(s, st, l) == [f]
  {
    hide Inv, Enabled, Apply, Atomic, Handed, L.Inv, LoopOk, KnownOk, StaticOk, ConnInv, Work;
    var s' := Apply(s, st);
    StepQueued(s, st, l);
    StepKeepsInv(s, st);
    Parts(s, l, 0);
    Parts(s', l, 0);
    LoopParts(s.loops[l]);
    LoopParts(s'.loops[l]);
    WorkIs(s.loops[l]);
    WorkIs(s'.loops[l]);
    var el, el', taken, handed := s.loops[l].el, s'.loops[l].el, TakenBy(s, st, l), Handed(s, st, l);
    WorkMoves(el, el', taken, handed);
    FewTaken(s, st, l);
    Among(el.Work(), handed, taken, el'.Work(), f);
  }

  lemma FewTaken(s: State, st: Step, l: nat)
    requires Enabled(s, st) && l in s.loops
    ensures var taken := TakenBy(s, st, l);
            |taken| <= 1 && |taken| <= |Work(s.loops[l])| && forall f :: f in taken ==> taken == [f]
  {
    hide Alive, S.Fits;
  }

  lemma Among(w: seq<Fn>, handed: seq<Fn>, taken: seq<Fn>, w': seq<Fn>, f: Fn)
    requires w + handed == taken + w' && |taken| <= |w|
    ensures f in w ==> f in taken || f in w'
    ensures f in handed ==> f in w'
  {
    assert taken == w[..|taken|] by { assert (w + handed)[..|taken|] == (taken + w')[..|taken|]; }
    assert w' == w[|taken|..] + handed by { assert (w + handed)[|taken|..] == (taken + w')[|taken|..]; }
    assert w == w[..|taken|] + w[|taken|..];
  }

  // ---- what the acts of a stream have to do with it ----

  /** Only a write that drains it empties a buffer. */
  lemma OnlyWritesEmpty(cfg: S.Config, t: S.Tcp, a: S.Act)
    requires S.Inv(t) && S.Enabled(t, a) && t.out != [] && S.Do(cfg, t, a).tcp.out == []
    ensures a.Ready? && t.interest.write && a.r.Wrote? && 0 < a.r.n == |t.out|
  {
    hide S.Do, S.Inv;
    var u := S.Do(cfg, t, a).tcp;
    S.ActAccounts(cfg, t, a);
    assert |u.wire + u.out| == |u.wire| && |t.wire + t.out| == |t.wire| + |t.out|;
  }

  /** A channel known to a loop's poller is that of a connection of this loop. */
  lemma HomeLoop(s: State, l: nat, c: Id)
    requires l in s.loops && c in s.conns && c in s.loops[l].poller.chans
    requires Inv(s)
    ensures s.conns[c].loop == l
  {
    hide Inv, ConnInv, LoopOk, KnownOk, StaticOk, Seen, PlaceOk;
    Parts(s, l, c);
    PlaceAt(s, l, c);
    SeenParts(s.loops[l], c);
    OwnChannel(Seen(s.loops[l], c), l == s.conns[c].loop, l == s.base);
  }

  lemma RequestHands(s: State, st: Step, c: Id)
    requires Enabled(s, st) && c in s.conns && ActOf(s, st, c) == [S.Request]
    ensures var l := s.conns[c].loop;
            l in s.loops && (ShutdownFn(c) in Handed(s, st, l) || ForceCloseFn(c) in Handed(s, st, l))
  {
    hide Alive, L.Enabled, L.InCallback;
  }

  lemma WriteStarts(s: State, st: Step, c: Id, r: S.WriteResult)
    requires Enabled(s, st) && c in s.conns && ActOf(s, st, c) == [S.Ready(r)]
    requires var t := s.conns[c].tcp; t.interest.write && r.Wrote? && 0 < r.n == |t.out|
    requires Inv(s)
    ensures Drain in Begun(s, st, s.conns[c].loop, c)
  {
    hide Inv, Alive, L.Enabled, L.InCallback, S.Fits;
    HomeLoop(s, st.l, c);
  }

  lemma RanActs(s: State, st: Step, l: nat, c: Id)
    requires Enabled(s, st)
    ensures Drain in Ran(s, st, l, c) ==> ActOf(s, st, c) == [S.Drain]
    ensures Close in Ran(s, st, l, c) ==> ActOf(s, st, c) == [S.Close]
  {
    hide Alive, L.Enabled, L.InCallback, S.Fits;
  }

  lemma TakenActs(s: State, st: Step, l: nat, c: Id)
    requires Enabled(s, st)
    ensures TakenBy(s, st, l) == [ShutdownFn(c)] ==> ActOf(s, st, c) == [S.RawShutdown]
    ensures TakenBy(s, st, l) == [ForceCloseFn(c)] && c in s.conns && IsUp(s.conns[c].tcp) ==>
              Close in Begun(s, st, l, c)
  {
    hide Alive, L.InCallback, S.Fits;
  }

  /** A part at hand stays so until it is run; a part started is at hand. */
  lemma HandKept(s: State, st: Step, l: nat, c: Id, op: Op)
    requires Enabled(s, st) && l in s.loops && op != User
    ensures l in Apply(s, st).loops
    ensures op in Begun(s, st, l, c) ==> Waiting(Apply(s, st).loops[l], c, op)
    ensures Waiting(s.loops[l], c, op) ==> Waiting(Apply(s, st).loops[l], c, op) || op in Ran(s, st, l, c)
  {
    hide Enabled, Apply, Begun, Ran;
    StepParts(s, st, l, c);
    var k, ran := KFor(s.loops[l], c), Ran(s, st, l, c);
    assert k == ran + k[|ran|..];
  }

  // ---- the step ----

  lemma StepRemembers(s: State, st: Step, c: Id)
    requires Enabled(s, st) && Atomic(st) && Remembered(s, c)
    requires Inv(s)
    ensures Remembered(Apply(s, st), c)
  {
    hide Inv, Enabled, Apply, Atomic, ActOf, Handed, Begun, Ran, TakenBy, EndIsComing, S.Do, S.Enabled, S.Inv;
    var s' := Apply(s, st);
    var t, t', acts := TcpOf(s, c), TcpOf(s', c), ActOf(s, st, c);
    StepDoes(s, st, c);
    if t'.state == S.Disconnecting {
      StepKeepsInv(s, st);
      StreamInv(s, c);
      StreamInv(s', c);
      if acts != [] { S.ActMoves(s.cfg, t, acts[0]); }
      assert t.state != S.Connecting by { UpBefore(s.cfg, t, acts, t'); }
      StepMoves(s, st, c);
      Home(s, c);
      if t.state == S.Disconnecting { StillRemembered(s, st, c); } else { NewlyAsked(s, st, c); }
    }
  }

  lemma UpBefore(cfg: S.Config, t: S.Tcp, acts: seq<S.Act>, t': S.Tcp)
    requires Does(cfg, t, acts, t') && S.Inv(t) && t'.state == S.Disconnecting
    ensures t.state != S.Connecting && t.state != S.Disconnected
  {
    if acts != [] { S.ActMoves(cfg, t, acts[0]); }
    hide S.Do, S.Inv, S.Enabled;
  }

  lemma Home(s: State, c: Id)
    requires c in s.conns
    requires Inv(s)
    ensures s.conns[c].loop in s.loops
  {
    hide Inv, LoopOk, KnownOk, StaticOk, ConnInv;
    Parts(s, 0, c);
    ChannelKnown(s, c);
  }

  /** The step that asks: a shutdown on the loop's thread tests at once, the other calls hand over. */
  lemma NewlyAsked(s: State, st: Step, c: Id)
    requires Enabled(s, st) && Atomic(st) && c in s.conns && s.conns[c].loop in s.loops
    requires TcpOf(s, c).state == S.Connected && TcpOf(Apply(s, st), c).state == S.Disconnecting
    requires c in Apply(s, st).conns && Apply(s, st).conns[c].loop == s.conns[c].loop
    requires Inv(s)
    ensures Remembered(Apply(s, st), c)
  {
    hide Inv, Enabled, Apply, Atomic, ActOf, Handed, S.Do, S.Enabled, S.Inv, Work, S.Halves;
    var t, acts, l := TcpOf(s, c), ActOf(s, st, c), s.conns[c].loop;
    StepDoes(s, st, c);
    StreamInv(s, c);
    S.ActMoves(s.cfg, t, acts[0]);
    if acts[0].Request? {
      assert acts == [S.Request];
      RequestHands(s, st, c);
      WorkKept(s, st, l, ShutdownFn(c));
      WorkKept(s, st, l, ForceCloseFn(c));
    } else {
      S.ShutdownStarts(s.cfg, t, acts[0]);
    }
  }

  lemma StillRemembered(s: State, st: Step, c: Id)
    requires Enabled(s, st) && Atomic(st) && c in s.conns && s.conns[c].loop in s.loops && Remembered(s, c)
    requires TcpOf(s, c).state == TcpOf(Apply(s, st), c).state == S.Disconnecting
    requires c in Apply(s, st).conns && Apply(s, st).conns[c].loop == s.conns[c].loop
    requires Inv(s)
    ensures Remembered(Apply(s, st), c)
  {
    hide Inv, Enabled, Apply, Atomic, ActOf, Handed, Begun, Ran, TakenBy, S.Do, S.Enabled, S.Inv, Work, Waiting;
    var s' := Apply(s, st);
    var t, t', acts, l := TcpOf(s, c), TcpOf(s', c), ActOf(s, st, c), s.conns[c].loop;
    StepDoes(s, st, c);
    StreamInv(s, c);
    StepKeepsInv(s, st);
    StreamInv(s', c);
    if acts != [] { S.ActMoves(s.cfg, t, acts[0]); }
    if t.out != [] && t'.out == [] {
      OnlyWritesEmpty(s.cfg, t, acts[0]);
      assert acts == [S.Ready(acts[0].r)];
      WriteStarts(s, st, c, acts[0].r);
      HandKept(s, st, l, c, Drain);
    } else if t.out == [] && !t.shut {
      NothingToWrite(t);
      HandKept(s, st, l, c, Drain);
      HandKept(s, st, l, c, Close);
      WorkKept(s, st, l, ShutdownFn(c));
      WorkKept(s, st, l, ForceCloseFn(c));
      RanActs(s, st, l, c);
      TakenActs(s, st, l, c);
    }
  }

  lemma NothingToWrite(t: S.Tcp)
    requires S.Inv(t) && t.state == S.Disconnecting && t.out == []
    ensures !t.interest.write
  {
  }

  // ---- runs ----

  lemma {:induction false} ExecRemembers(s: State, run: seq<Step>, c: Id)
    requires Executable(s, run) && (forall i :: 0 <= i < |run| ==> Atomic(run[i])) && Remembered(s, c)
    requires Inv(s)
    ensures Remembered(Exec(s, run), c)
    decreases |run|
  {
    hide Inv, Enabled, Apply, Atomic, Remembered;
    if run != [] {
      StepKeepsInv(s, run[0]);
      StepRemembers(s, run[0], c);
      ExecRemembers(Apply(s, run[0]), run[1..], c);
    }
  }

  /** No requested end is forgotten: in every reachable state a connection that is Disconnecting has
      been half-closed, or still has output and asks to write it, or is about to be tested or closed
      by what its loop has at hand or queued. */
  lemma EndIsRemembered(s: State, c: Id)
    requires Reachable(s) && c in s.conns && s.conns[c].tcp.state == S.Disconnecting
    ensures var t, l := s.conns[c].tcp, s.conns[c].loop;
      && l in s.loops && c in s.loops[l].poller.chans
      && (t.shut || (t.out != [] && s.loops[l].poller.chans[c].events.write) || EndIsComing(s.loops[l], c))
  {
    hide Inv, Init, Enabled, Apply, Atomic, EndIsComing, ConnInv, LoopOk, KnownOk, StaticOk, OutputOk;
    ReachableInv(s);
    Parts(s, 0, c);
    ChannelKnown(s, c);
    var s0, run :| Init(s0) && Executable(s0, run) && s == Exec(s0, run) && AllAllowed(ATOMIC, run);
    assert forall i :: 0 <= i < |run| ==> Allowed(ATOMIC, run[i]);
    InitInv(s0);
    assert c !in s0.conns by { NobodyYet(s0, c); }
    ExecRemembers(s0, run, c);
    StreamInv(s, c);
  }

  lemma NobodyYet(s: State, c: Id)
    requires Init(s)
    ensures c !in s.conns
  {
  }

  /** So once the server has nothing left to do, every connection asked to end is half-closed or has
      output the kernel has not taken. */
  lemma QuiescentIsHalfClosed(s: State, c: Id)
    requires Reachable(s) && Quiescent(s) && c in s.conns && s.conns[c].tcp.state == S.Disconnecting
    ensures s.conns[c].tcp.shut || s.conns[c].tcp.out != []
  {
    hide Reachable, Work;
    EndIsRemembered(s, c);
  }
}
