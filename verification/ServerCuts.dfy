/** What an off-loop forceClose cut between its test and its store can do beyond moving state_ back:
    a send whose functor then meets Disconnecting registers the channel of a connection that has been
    through connectDestroyed, and nothing will ever remove it. With these runs the theorems on
    references, registration and output hold exactly when no off-loop call is cut. */
module ServerCuts {
  import opened Options
  import opened Servers
  import opened ServerInvariant
  import opened ServerExecution
  import opened ServerRefinement
  import opened ServerWitnesses
  import ServerTheorems
  import R = Registration
  import S = Streams
  import L = LoopProtocol

  /** Every registered channel's connection is alive. */
  ghost predicate RegisteredSafe(s: State) {
    forall l, c :: l in s.loops && c in s.loops[l].poller.chans && s.loops[l].poller.chans[c].index != R.New ==>
      Alive(s, c)
  }

  /** So is that of every reported channel not yet dispatched. */
  ghost predicate DispatchSafe(s: State) {
    forall l, i :: l in s.loops && 0 <= i < |s.loops[l].active| ==> Alive(s, s.loops[l].active[i].c)
  }

  ghost predicate PollersOk(s: State) { forall l :: l in s.loops ==> R.Consistent(s.loops[l].poller) }

  ghost predicate OutputsOk(s: State) { forall c :: c in s.conns ==> OutputOk(s.conns[c].tcp) }

  const WRITING := R.Interest(false, true)

  /** The channel, removed and then made to write. */
  const AGAIN: R.Poller<Id> := R.Poller(map[1 := R.Chan(7, WRITING, R.Added)], map[7 := 1],
                                        map[7 := R.Entry(WRITING, 1)], 0)

  lemma AddedAgain()
    ensures R.Change(MADE, 1, WRITING) == AGAIN && R.Consistent(AGAIN)
  {
    assert R.Change(MADE, 1, WRITING).chans == AGAIN.chans;
    assert R.Agrees(AGAIN, 1);
  }

  /** The message waits in the output buffer. */
  const HALF: S.Tcp := BACK.(interest := WRITING, out := PAYLOAD, accepted := PAYLOAD)

  lemma HalfSent()
    ensures S.SendInLoop(CFG, BACK, PAYLOAD, ANY) == S.Outcome(HALF, [])
  {
    assert [] + PAYLOAD == PAYLOAD;
  }

  const TWO: seq<InFlight> := [CALL, CALL]

  /** Two forceCloses have tested Connected; a send is queued; the channel is reported readable. */
  const TESTED: Sit :=
    POLLING.(io := Given(AtPc(POLLING.io, L.Dispatch).(active := [Active(1, READABLE)]), SEND_FN),
             held := {1}, inflight := TWO)

  /** The connection has been through connectDestroyed; one forceClose has stored Disconnecting. */
  const STORED: Sit :=
    TESTED.(io := TESTED.io.(active := [], poller := MADE), tcp := BACK, log := LIFECYCLE, inMap := false,
            inflight := [CALL.(stored := true), CALL])

  lemma StoredEnds()
    ensures Ends(At(ONE, STORED), SPLIT)
  {
    hide Ends, At;
    UpAndPolling();
    Weaken(At(ONE, POLLING), TAME, SPLIT);
    HoldStep(ONE, POLLING, SPLIT);
    var x := POLLING.(held := {1});
    TestStep(ONE, x, ForceClose, SPLIT);
    assert [] + [CALL] == [CALL] && [CALL] + [CALL] == TWO;
    TestStep(ONE, x.(inflight := [CALL]), ForceClose, SPLIT);
    PollStep(ONE, x.(inflight := TWO), READABLE, SPLIT);
    SendStep(ONE, TESTED.(io := AtPc(POLLING.io, L.Dispatch).(active := [Active(1, READABLE)])), SPLIT);
    ClosesInDispatch(TESTED, SPLIT);
    var y := TESTED.(io := TESTED.io.(active := [], poller := MADE), tcp := DOWN, log := LIFECYCLE, inMap := false);
    StoreStep(ONE, y, SPLIT);
    assert TWO[0 := CALL.(stored := true)] == [CALL.(stored := true), CALL];
  }

  /** The send's functor has run: the channel is registered again. */
  const GHOST: Sit :=
    STORED.(io := STORED.io.(poller := AGAIN,
                             el := Swapped(STORED.io).el.(pos := 1, executed := STORED.io.el.executed + [SEND_FN])),
            tcp := HALF)

  lemma GhostEnds()
    ensures Ends(At(ONE, GHOST), SPLIT)
  {
    hide Ends, At;
    StoredEnds();
    SwapsIn(ONE, STORED, true, SPLIT);
    assert [] + [SEND_FN] == [SEND_FN];
    SendRuns();
    OneMore(At(ONE, STORED.(io := Swapped(STORED.io))), RunNext(0, ANY), At(ONE, GHOST), SPLIT);
  }

  lemma SendRuns()
    ensures Leads(At(ONE, STORED.(io := Swapped(STORED.io))), RunNext(0, ANY), At(ONE, GHOST))
  {
    var x := STORED.(io := Swapped(STORED.io));
    AtUpdate(ONE, x, GHOST.io, HALF, x.log);
    AtHeld(ONE, x);
    HeldAlive(At(ONE, x));
    HalfSent();
    SendOutput();
    hide At, Alive, OnLoop, OnConn, Output, S.SendInLoop, L.Apply;
    assert DoRun(At(ONE, x), 0, ANY) == At(ONE, GHOST);
  }

  lemma SendOutput()
    ensures var lp := Swapped(STORED.io);
      && L.Enabled(lp.el, L.RunNext) && lp.el.batch[lp.el.pos] == SEND_FN
      && var lq := lp.(el := L.Apply(lp.el, L.RunNext));
         L.InCallback(lq.el) && !lq.el.owes && Output(lq, 1, R.NONE_EVENT, S.Outcome(HALF, [])) == GHOST.io
  {
    AddedAgain();
    assert [] + [SEND_FN] == [SEND_FN];
    hide R.Change;
  }

  lemma HeldAlive(s: State)
    ensures 1 in s.conns && 1 in s.held ==> Alive(s, 1)
  {
  }

  // ---- a registered channel without its connection ----

  /** The last shared_ptr has gone, and the loop is back in the poll. */
  const GONE: Sit := GHOST.(io := AtPc(Done(GHOST.io), L.Poll), held := {})

  lemma GoneEnds()
    ensures Ends(At(ONE, GONE), SPLIT)
  {
    hide Ends, At;
    GhostEnds();
    ReleaseStep(ONE, GHOST, SPLIT);
    var x := GHOST.(held := {});
    PassEnds(ONE, x, true, SPLIT);
    ToPoll(ONE, x.(io := Done(x.io)), SPLIT);
  }

  /** Such a state, whatever its loop has polled. */
  predicate Forsaken(x: Sit) {
    && !x.inMap && x.held == {} && x.io.guard == None && x.io.el.batch == [] && x.io.el.pending == []
    && x.io.poller == AGAIN
  }

  lemma ForsakenIsDead(x: Sit)
    requires Forsaken(x)
    ensures var s := At(ONE, x);
      && s.base == 0 && s.pool == [] && s.nextId == 2 && s.reserved == {} && 0 in s.loops && s.loops[0] == x.io
      && (forall c :: !Alive(s, c)) && !RegisteredSafe(s)
  {
    var s := At(ONE, x);
    LoopsSet(ONE, x.io, x.ba, x.io);
    assert ONE.Numbers() == {0};
    assert forall l :: l in s.loops ==> l == 0;
    assert forall c :: !Alive(s, c);
    RegisteredDead(s);
  }

  lemma RegisteredDead(s: State)
    requires 0 in s.loops && s.loops[0].poller == AGAIN && !Alive(s, 1)
    ensures !RegisteredSafe(s)
  {
    hide Alive;
    assert s.loops[0].poller.chans[1].index == R.Added;
  }

  /** The next poll may report it: the walk of the active list comes to a channel that is gone. */
  lemma GoneIsReported()
    ensures exists s :: Ends(s, SPLIT) && !DispatchSafe(s)
  {
    hide Ends, At, Alive, DispatchSafe, RegisteredSafe;
    GoneEnds();
    var lp := AtPc(GONE.io, L.Dispatch).(active := [Active(1, READABLE)]);
    AtUpdate(ONE, GONE, lp, GONE.tcp, GONE.log);
    var s, s' := At(ONE, GONE), At(ONE, GONE.(io := lp));
    assert Reported(GONE.io, [Active(1, READABLE)]);
    assert Leads(s, Poll(0, false, [Active(1, READABLE)]), s') by { hide OnLoop; }
    OneMore(s, Poll(0, false, [Active(1, READABLE)]), s', SPLIT);
    ForsakenIsDead(GONE.(io := lp));
    assert !DispatchSafe(s') by { ReportedDead(s'); }
  }

  lemma ReportedDead(s: State)
    requires 0 in s.loops && s.loops[0].active != [] && !Alive(s, s.loops[0].active[0].c)
    ensures !DispatchSafe(s)
  {
    hide Alive;
  }

  /** Its descriptor is free and may be accepted again: the new channel's ADD is refused. */
  lemma GoneIsInTheWay()
    ensures exists s :: Ends(s, SPLIT) && !PollersOk(s)
  {
    hide Ends, At, Alive, PollersOk, RegisteredSafe;
    GoneEnds();
    QuietPoll(ONE, GONE, SPLIT);
    var x := GONE.(io := AtPc(GONE.io, L.Dispatch));
    AtUpdate(ONE, x, x.io, x.tcp, x.log);
    ForsakenIsDead(x);
    var s := At(ONE, x);
    Acceptable(s);
    var t := DoAccept(s, 7);
    OneMore(s, Accept(7), t, SPLIT) by { hide CanAccept, DoAccept; }
    EstablishRefused(s);
    AdvanceMore(t, 0, DoAdvance(t, 0, 0, ANY), SPLIT) by { hide CanAdvance, DoAdvance, CanAccept, DoAccept; }
  }

  /** One loop, idle in its dispatch, with connection 1 gone and its channel registered again. */
  ghost predicate Blocked(s: State) {
    && s.base == 0 && s.pool == [] && s.nextId == 2 && s.reserved == {} && 0 in s.loops
    && s.loops[0].el.pc == L.Dispatch && Free(s.loops[0]) && s.loops[0].poller == AGAIN && forall c :: !Alive(s, c)
  }

  lemma Acceptable(s: State)
    requires Blocked(s)
    ensures CanAccept(s, 7)
  {
    hide Alive;
  }

  lemma EstablishRefused(s: State)
    requires Blocked(s) && CanAccept(s, 7)
    ensures var t := DoAccept(s, 7); CanAdvance(t, 0, ANY) && !PollersOk(DoAdvance(t, 0, 0, ANY))
  {
    hide Alive, Name;
    AddedAgain();
    R.CreateConsistent(AGAIN, 2, 7);
    var p := R.Create(AGAIN, 2, 7);
    assert p.chans[1].fd == 7 && p.chans[1].index != R.New;
    R.ChangeConsistentIff(p, 2, READING);
    hide R.Consistent, R.Change, R.Create;
    assert DoAdvance(DoAccept(s, 7), 0, 0, ANY).loops[0].poller == R.Change(p, 2, READING);
  }

  // ---- output without its interest ----

  /** The first forceClose's functor closes again over the message still buffered, and the second
      forceClose stores Disconnecting over that. */
  lemma OutputIsForgotten()
    ensures exists s :: Ends(s, SPLIT) && !OutputsOk(s)
  {
    hide Ends, At;
    GhostEnds();
    PassEnds(ONE, GHOST, true, SPLIT);
    var a := GHOST.(io := Done(GHOST.io));
    ToPoll(ONE, a, SPLIT);
    QuietPoll(ONE, a.(io := AtPc(a.io, L.Poll)), SPLIT);
    var b := a.(io := AtPc(a.io, L.Dispatch));
    assert b.inflight[1..] == [CALL];
    HandStep(ONE, b, ForceClose, true, SPLIT);
    ClosesOver(b.(io := Given(b.io, ForceCloseFn(1)), inflight := [CALL]));
  }

  lemma ClosesOver(x: Sit)
    requires Ends(At(ONE, x), SPLIT) && Between(x.io) && x.io.el.pending == [ForceCloseFn(1)] && x.io.poller == AGAIN
    requires x.tcp == HALF && x.inflight == [CALL]
    ensures exists s :: Ends(s, SPLIT) && !OutputsOk(s)
  {
    hide Ends, At, R.Change;
    SwapsIn(ONE, x, true, SPLIT);
    var y := x.(io := Swapped(x.io));
    CloseStarts(y, SPLIT);
    var z := y.(io := y.io.(el := L.Apply(y.io.el, L.RunNext), cur := 1, k := [Close]));
    var w := z.(io := z.io.(k := [Down] + [Close][1..], poller := R.Change(AGAIN, 1, R.NONE_EVENT)),
                tcp := S.Closed(HALF), log := z.log + [Closed]);
    Part(ONE, z, w, SPLIT);
    StoreStep(ONE, w, SPLIT);
    var v := Stored(w);
    AtUpdate(ONE, v, v.io, v.tcp, v.log);
    var s := At(ONE, v);
    assert !OutputOk(s.conns[1].tcp);
  }

  // ---- exactly when ----

  lemma RegisteredSafeIff(m: Mode)
    ensures (forall s :: Ends(s, m) ==> RegisteredSafe(s)) <==> m.atomic
  {
    hide Ends, Reachable, RegisteredSafe, At;
    if m.atomic {
      forall s | Ends(s, m) ensures RegisteredSafe(s) {
        EndsReachable(s, m);
        AtomicIsSafe(s);
      }
    } else {
      GoneEnds();
      ForsakenIsDead(GONE);
      Weaken(At(ONE, GONE), SPLIT, m);
    }
  }

  lemma DispatchSafeIff(m: Mode)
    ensures (forall s :: Ends(s, m) ==> DispatchSafe(s)) <==> m.atomic
  {
    hide Ends, Reachable, DispatchSafe;
    if m.atomic {
      forall s | Ends(s, m) ensures DispatchSafe(s) {
        EndsReachable(s, m);
        AtomicIsSafe(s);
      }
    } else {
      GoneIsReported();
      var s :| Ends(s, SPLIT) && !DispatchSafe(s);
      Weaken(s, SPLIT, m);
    }
  }

  lemma PollersOkIff(m: Mode)
    ensures (forall s :: Ends(s, m) ==> PollersOk(s)) <==> m.atomic
  {
    hide Ends, Reachable, PollersOk;
    if m.atomic {
      forall s | Ends(s, m) ensures PollersOk(s) {
        EndsReachable(s, m);
        AtomicIsSafe(s);
      }
    } else {
      GoneIsInTheWay();
      var s :| Ends(s, SPLIT) && !PollersOk(s);
      Weaken(s, SPLIT, m);
    }
  }

  lemma OutputsOkIff(m: Mode)
    ensures (forall s :: Ends(s, m) ==> OutputsOk(s)) <==> m.atomic
  {
    hide Ends, Reachable, OutputsOk;
    if m.atomic {
      forall s | Ends(s, m) ensures OutputsOk(s) {
        EndsReachable(s, m);
        AtomicIsSafe(s);
      }
    } else {
      OutputIsForgotten();
      var s :| Ends(s, SPLIT) && !OutputsOk(s);
      Weaken(s, SPLIT, m);
    }
  }

  lemma AtomicIsSafe(s: State)
    requires Reachable(s)
    ensures RegisteredSafe(s) && DispatchSafe(s) && PollersOk(s) && OutputsOk(s)
  {
    hide Reachable, Alive, R.Consistent, OutputOk;
    forall l, c | l in s.loops && c in s.loops[l].poller.chans && s.loops[l].poller.chans[c].index != R.New
      ensures Alive(s, c)
    {
      ServerTheorems.RegisteredIsAlive(s, l, c);
    }
    forall l, i | l in s.loops && 0 <= i < |s.loops[l].active| ensures Alive(s, s.loops[l].active[i].c) {
      ServerTheorems.UndispatchedIsSafe(s, l, i);
    }
    forall l | l in s.loops ensures R.Consistent(s.loops[l].poller) { ServerTheorems.PollersAgree(s, l); }
    forall c | c in s.conns ensures OutputOk(s.conns[c].tcp) { InterestFollowsOutput(s, c); }
  }
}
