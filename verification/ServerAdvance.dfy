/** Each part of each handler keeps the server's invariant. */
module ServerAdvance {
  import opened Options
  import opened Servers
  import opened ServerInvariant
  import opened ServerLoops
  import opened ServerConns
  import opened ServerSteps
  import opened ServerReferences
  import opened ServerHandlers
  import opened ServerRuns
  import R = Registration
  import S = Streams
  import L = LoopProtocol

  /** What a loop shows of the connection at hand after one part of its handler. */
  lemma HandSeen(s: State, l: nat, c: Id, op: Op, rest: seq<Op>, more: seq<Op>, p: R.Poller<Id>)
    requires Inv(s) && AtHand(s, l, c, op, rest) && R.Consistent(p)
    ensures var lp := s.loops[l];
            Seen(lp.(k := more + rest, poller := p), c)
              == After(Seen(lp, c), Counts(rest), Counts(more), Seen(lp, c).pin)
                 .(chan := if c in p.chans then Some(p.chans[c]) else None)
  {
    hide Inv, LoopOk, KnownOk, StaticOk, Seen, R.Consistent, Counts, After, Pinned;
    Parts(s, l, c);
    var lp := s.loops[l];
    HandShape(lp, c, op, rest, more);
    SetK(lp, more + rest, lp.(k := more + rest));
    SetPoller(lp.(k := more + rest), p, lp.(k := more + rest, poller := p));
  }

  lemma PlaceAfter(v: Shape, op: Op, rest: OpCounts, more: OpCounts, p: bool, base: bool, chan: Option<R.Chan>)
    requires PlaceOk(v, true, base) && v.ops == One(op).Plus(rest) && (more.erase == 0 || base)
    ensures PlaceOk(After(v, rest, more, p).(chan := chan), true, base)
  {
    hide OpCounts.Total, One;
  }

  lemma NoneOps()
    ensures Counts([]) == NO_OPS && Counts([User]) == NO_OPS
  {
    hide Counts;
    CountsOne(User);
  }

  lemma ReportOps()
    ensures Counts([User, Report]) == One(Report) && One(Report).erase == 0
  {
    assert [User, Report] == [User] + [Report];
    CountsNext(User, [], [Report]);
    CountsOne(Report);
    UserPlus(One(Report));
    hide Counts;
  }

  /** The situation in which a part of a handler of the connection's own loop runs. */
  lemma HandRuns(s: State, l: nat, c: Id, op: Op, rest: seq<Op>)
    requires Inv(s) && AtHand(s, l, c, op, rest) && (op != Erase || s.conns[c].loop == l)
    ensures s.conns[c].loop == l && c in s.loops[l].poller.chans && R.Consistent(s.loops[l].poller)
    ensures var io, ba := Seen(s.loops[l], c), Seen(s.loops[s.base], c);
            && Runs(s.conns[c], io, ba, l == s.base, InMap(s, c), op, Counts(rest), io.pin)
            && PlaceOk(io, true, l == s.base)
            && io.chan == Some(s.loops[l].poller.chans[c])
    ensures var ch := s.loops[l].poller.chans[c]; ch.fd == s.conns[c].fd && ch.events == s.conns[c].tcp.interest
    ensures S.Inv(s.conns[c].tcp)
  {
    hide Inv, ConnInv, LoopOk, KnownOk, StaticOk, ConnOk, PlaceOk, Seen, InMap, R.Consistent, Counts, One,
         OpCounts.Plus, Alive, S.Inv, Sane;
    Parts(s, l, c);
    HandFacts(s, l, c, op, rest);
    Views(s, c);
    ChannelKnown(s, c);
    LoopParts(s.loops[l]);
    SeenParts(s.loops[l], c);
  }

  /** A part that leaves the poller and the connection's stream alone. */
  lemma PlainPart(s: State, l: nat, c: Id, op: Op, rest: seq<Op>, more: seq<Op>, cn: Conn)
    requires Inv(s) && AtHand(s, l, c, op, rest) && op != Erase
    requires cn == s.conns[c].(log := cn.log) && (Counts(more).erase == 0 || l == s.base)
    requires var io, ba := Seen(s.loops[l], c), Seen(s.loops[s.base], c);
             var io' := After(io, Counts(rest), Counts(more), io.pin);
             ConnOk(cn, io', BaseAfter(io', ba, l == s.base), l == s.base, InMap(s, c))
    ensures Inv(OnConn(OnLoop(s, l, s.loops[l].(k := more + rest)), c, cn))
  {
    hide Inv, ConnInv, LoopOk, KnownOk, StaticOk, ConnOk, PlaceOk, Seen, InMap, R.Consistent, Counts, One,
         OpCounts.Plus, OpCounts.Total, Alive, S.Inv, After, Runs;
    var lp := s.loops[l];
    var s' := OnConn(OnLoop(s, l, lp.(k := more + rest)), c, cn);
    HandRuns(s, l, c, op, rest);
    HandSeen(s, l, c, op, rest, more, lp.poller);
    HandFacts(s, l, c, op, rest);
    PlaceAfter(Seen(lp, c), op, Counts(rest), Counts(more), Seen(lp, c).pin, l == s.base, Seen(lp, c).chan);
    MapAfter(s, s', c);
    KeepsChan(Seen(lp, c), Counts(rest), Counts(more), Seen(lp, c).pin);
    HandMoved(s, s', l, c, op, rest, more, lp.poller);
  }

  lemma KeepsChan(v: Shape, rest: OpCounts, more: OpCounts, p: bool)
    ensures After(v, rest, more, p).(chan := v.chan) == After(v, rest, more, p)
  {
    hide OpCounts.Plus, OpCounts.Total;
  }

  /** A part that changes the channel: connectEstablished, handleClose, connectDestroyed. */
  lemma ChannelPart(s: State, l: nat, c: Id, op: Op, rest: seq<Op>, more: seq<Op>, cn: Conn, p: R.Poller<Id>,
                    ch: R.Chan)
    requires Inv(s) && AtHand(s, l, c, op, rest) && op != Erase
    requires cn.fd == s.conns[c].fd && cn.loop == s.conns[c].loop && Counts(more).erase == 0
    requires R.Consistent(p) && c in s.loops[l].poller.chans && p.chans == s.loops[l].poller.chans[c := ch]
    requires var io, ba := Seen(s.loops[l], c), Seen(s.loops[s.base], c);
             var io' := After(io, Counts(rest), Counts(more), io.pin).(chan := Some(ch));
             ConnOk(cn, io', BaseAfter(io', ba, l == s.base), l == s.base, InMap(s, c))
    ensures Inv(OnConn(OnLoop(s, l, s.loops[l].(k := more + rest, poller := p)), c, cn))
  {
    hide Inv, ConnInv, LoopOk, KnownOk, StaticOk, ConnOk, PlaceOk, Seen, InMap, R.Consistent, Counts, One,
         OpCounts.Plus, OpCounts.Total, Alive, S.Inv, After, Runs;
    var lp := s.loops[l];
    var s' := OnConn(OnLoop(s, l, lp.(k := more + rest, poller := p)), c, cn);
    HandRuns(s, l, c, op, rest);
    HandSeen(s, l, c, op, rest, more, p);
    HandFacts(s, l, c, op, rest);
    PlaceAfter(Seen(lp, c), op, Counts(rest), Counts(more), Seen(lp, c).pin, l == s.base, Some(ch));
    MapAfter(s, s', c);
    HandMoved(s, s', l, c, op, rest, more, p);
  }

  lemma EstKeepsInv(s: State, l: nat, c: Id, rest: seq<Op>)
    requires Inv(s) && AtHand(s, l, c, Est, rest) && c in s.loops[l].poller.chans
    ensures var t := S.Established(s.conns[c].tcp); var lp := s.loops[l];
            Inv(OnConn(OnLoop(s, l, lp.(k := [Up] + rest, poller := R.Change(lp.poller, c, t.interest))),
                       c, Logged(s.conns[c].(tcp := t), Established)))
  {
    hide Inv, ConnOk, PlaceOk, Seen, InMap, R.Consistent, R.Change, Counts, One, OpCounts.Plus, OpCounts.Total,
         Alive, S.Inv, S.Established, After, Sane;
    OneOps(Up);
    HandRuns(s, l, c, Est, rest);
    HandFacts(s, l, c, Est, rest);
    var cn, lp, io, ba := s.conns[c], s.loops[l], Seen(s.loops[l], c), Seen(s.loops[s.base], c);
    var t := S.Established(cn.tcp);
    EstStep(cn, io, ba, l == s.base, InMap(s, c), Counts(rest), io.pin);
    OwnFd(s, c);
    R.ChangeConsistentIff(lp.poller, c, t.interest);
    ChangedChans(lp.poller, c, t.interest);
    ChannelPart(s, l, c, Est, rest, [Up], Logged(cn.(tcp := t), Established), R.Change(lp.poller, c, t.interest),
                R.Chan(cn.fd, t.interest, R.Added));
  }

  lemma CloseKeepsInv(s: State, l: nat, c: Id, rest: seq<Op>)
    requires Inv(s) && AtHand(s, l, c, Close, rest) && c in s.loops[l].poller.chans
    ensures var lp := s.loops[l];
            Inv(OnConn(OnLoop(s, l, lp.(k := [Down] + rest, poller := R.Change(lp.poller, c, R.NONE_EVENT))),
                       c, Logged(s.conns[c].(tcp := S.Closed(s.conns[c].tcp)), Closed)))
  {
    hide Inv, ConnOk, PlaceOk, Seen, InMap, R.Consistent, R.Change, Counts, One, OpCounts.Plus, OpCounts.Total,
         Alive, S.Inv, S.Closed, After, Sane;
    OneOps(Down);
    HandRuns(s, l, c, Close, rest);
    HandFacts(s, l, c, Close, rest);
    var cn, lp, io, ba := s.conns[c], s.loops[l], Seen(s.loops[l], c), Seen(s.loops[s.base], c);
    CloseStep(cn, io, ba, l == s.base, InMap(s, c), Counts(rest), io.pin);
    OwnFd(s, c);
    R.ChangeConsistentIff(lp.poller, c, R.NONE_EVENT);
    ChangedChans(lp.poller, c, R.NONE_EVENT);
    ChannelPart(s, l, c, Close, rest, [Down], Logged(cn.(tcp := S.Closed(cn.tcp)), Closed),
                R.Change(lp.poller, c, R.NONE_EVENT),
                R.Chan(cn.fd, R.NONE_EVENT, IndexAfter(lp.poller.chans[c].index, R.NONE_EVENT)));
  }

  lemma DestroyKeepsInv(s: State, l: nat, c: Id, rest: seq<Op>)
    requires Inv(s) && AtHand(s, l, c, Destroy, rest) && c in s.loops[l].poller.chans
    ensures s.conns[c].tcp.state == S.Disconnected && (!s.conns[c].wild ==> |s.conns[c].log| == 5)
    ensures var lp := s.loops[l];
            Inv(OnConn(OnLoop(s, l, lp.(k := rest, poller := R.RemoveChannel(lp.poller, c))), c,
                       Logged(s.conns[c], Destroyed)))
  {
    hide Inv, ConnOk, PlaceOk, Seen, InMap, R.Consistent, R.RemoveChannel, Counts, One, OpCounts.Plus,
         OpCounts.Total, Alive, S.Inv, After, Sane;
    NoneOps();
    HandRuns(s, l, c, Destroy, rest);
    HandFacts(s, l, c, Destroy, rest);
    var cn, lp, io, ba := s.conns[c], s.loops[l], Seen(s.loops[l], c), Seen(s.loops[s.base], c);
    DestroyStep(cn, io, ba, l == s.base, InMap(s, c), Counts(rest), Counts([]), io.pin);
    OwnFd(s, c);
    R.RemoveConsistentIff(lp.poller, c);
    RemovedChans(lp.poller, c);
    assert [] + rest == rest;
    ChannelPart(s, l, c, Destroy, rest, [], Logged(cn, Destroyed), R.RemoveChannel(lp.poller, c),
                R.Chan(cn.fd, cn.tcp.interest, R.New));
  }

  lemma UpKeepsInv(s: State, l: nat, c: Id, rest: seq<Op>)
    requires Inv(s) && AtHand(s, l, c, Up, rest)
    ensures Inv(OnConn(OnLoop(s, l, s.loops[l].(k := [User] + rest)), c, Logged(s.conns[c], UpCalled)))
  {
    hide Inv, ConnOk, PlaceOk, Seen, InMap, R.Consistent, Counts, One, OpCounts.Plus, OpCounts.Total, Alive, S.Inv,
         After, Sane;
    NoneOps();
    HandRuns(s, l, c, Up, rest);
    var cn, io, ba := s.conns[c], Seen(s.loops[l], c), Seen(s.loops[s.base], c);
    UpStep(cn, io, ba, l == s.base, InMap(s, c), Counts(rest), Counts([User]), io.pin);
    PlainPart(s, l, c, Up, rest, [User], Logged(cn, UpCalled));
  }

  lemma DownKeepsInv(s: State, l: nat, c: Id, rest: seq<Op>)
    requires Inv(s) && AtHand(s, l, c, Down, rest)
    ensures Inv(OnConn(OnLoop(s, l, s.loops[l].(k := [User, Report] + rest)), c, Logged(s.conns[c], DownCalled)))
  {
    hide Inv, ConnOk, PlaceOk, Seen, InMap, R.Consistent, Counts, One, OpCounts.Plus, OpCounts.Total, Alive, S.Inv,
         After, Sane;
    ReportOps();
    HandRuns(s, l, c, Down, rest);
    var cn, io, ba := s.conns[c], Seen(s.loops[l], c), Seen(s.loops[s.base], c);
    DownStep(cn, io, ba, l == s.base, InMap(s, c), Counts(rest), io.pin);
    PlainPart(s, l, c, Down, rest, [User, Report], Logged(cn, DownCalled));
  }

  lemma SameConn(s: State, l: nat, lp: Loop, c: Id)
    requires c in s.conns
    ensures OnConn(OnLoop(s, l, lp), c, s.conns[c]) == OnLoop(s, l, lp)
  {
    assert s.conns[c := s.conns[c]] == s.conns;
  }

  /** handleRead and handleWrite's parts that move no lifecycle step, apart from what they do to the stream. */
  lemma PassKeepsInv(s: State, l: nat, c: Id, op: Op, rest: seq<Op>, more: seq<Op>)
    requires Inv(s) && AtHand(s, l, c, op, rest) && (op == Read || op == Write || op == Drain)
    requires more == [] || more == [User]
    ensures Inv(OnLoop(s, l, s.loops[l].(k := more + rest)))
  {
    hide Inv, ConnOk, PlaceOk, Seen, InMap, R.Consistent, Counts, One, OpCounts.Plus, OpCounts.Total, Alive, S.Inv,
         After, Sane;
    NoneOps();
    HandRuns(s, l, c, op, rest);
    var cn, io, ba := s.conns[c], Seen(s.loops[l], c), Seen(s.loops[s.base], c);
    PassStep(cn, io, ba, l == s.base, InMap(s, c), op, Counts(rest), Counts(more), io.pin);
    PlainPart(s, l, c, op, rest, more, cn);
    SameConn(s, l, s.loops[l].(k := more + rest), c);
  }

  /** handleRead at the end of the stream. */
  lemma EndKeepsInv(s: State, l: nat, c: Id, rest: seq<Op>)
    requires Inv(s) && AtHand(s, l, c, Read, rest)
    ensures Inv(OnLoop(s, l, s.loops[l].(k := [Close] + rest)))
  {
    hide Inv, ConnOk, PlaceOk, Seen, InMap, R.Consistent, Counts, One, OpCounts.Plus, OpCounts.Total, Alive, S.Inv,
         After, Sane;
    OneOps(Close);
    HandRuns(s, l, c, Read, rest);
    var cn, io, ba := s.conns[c], Seen(s.loops[l], c), Seen(s.loops[s.base], c);
    ReadEnds(cn, io, ba, l == s.base, InMap(s, c), Counts(rest), io.pin);
    PlainPart(s, l, c, Read, rest, [Close], cn);
    SameConn(s, l, s.loops[l].(k := [Close] + rest), c);
  }

  /** handleWrite that empties the buffer goes on to test state_. */
  lemma DrainsKeepsInv(s: State, l: nat, c: Id, rest: seq<Op>)
    requires Inv(s) && AtHand(s, l, c, Write, rest)
    ensures Inv(OnLoop(s, l, s.loops[l].(k := [Drain] + rest)))
  {
    hide Inv, ConnOk, PlaceOk, Seen, InMap, R.Consistent, Counts, One, OpCounts.Plus, OpCounts.Total, Alive, S.Inv,
         After, Sane;
    OneOps(Drain);
    HandRuns(s, l, c, Write, rest);
    var cn, io, ba := s.conns[c], Seen(s.loops[l], c), Seen(s.loops[s.base], c);
    DrainedStep(cn, io, ba, l == s.base, InMap(s, c), Counts(rest), io.pin);
    PlainPart(s, l, c, Write, rest, [Drain], cn);
    SameConn(s, l, s.loops[l].(k := [Drain] + rest), c);
  }

  lemma ReportHereKeepsInv(s: State, l: nat, c: Id, rest: seq<Op>)
    requires Inv(s) && AtHand(s, l, c, Report, rest) && l == s.base
    ensures Inv(OnLoop(s, l, s.loops[l].(k := [Erase] + rest)))
  {
    hide Inv, ConnOk, PlaceOk, Seen, InMap, R.Consistent, Counts, One, OpCounts.Plus, OpCounts.Total, Alive, S.Inv,
         After, Sane;
    CountsOne(Erase);
    HandRuns(s, l, c, Report, rest);
    var cn, io, ba := s.conns[c], Seen(s.loops[l], c), Seen(s.loops[s.base], c);
    ReportHere(cn, io, ba, InMap(s, c), Counts(rest), io.pin);
    PlainPart(s, l, c, Report, rest, [Erase], cn);
    SameConn(s, l, s.loops[l].(k := [Erase] + rest), c);
  }

  /** The erase of a connection whose loop is the base loop: connectDestroyed follows at once. */
  lemma EraseHereKeepsInv(s: State, l: nat, c: Id, rest: seq<Op>)
    requires Inv(s) && AtHand(s, l, c, Erase, rest) && s.conns[c].loop == l
    ensures Inv(OnLoop(OnConn(s, c, Logged(s.conns[c], Erased)).(connections := s.connections - {Name(s, c)}),
                       l, s.loops[l].(k := [Destroy] + rest)))
  {
    hide Inv, ConnInv, LoopOk, KnownOk, StaticOk, ConnOk, PlaceOk, Seen, InMap, R.Consistent, Counts, One,
         OpCounts.Plus, OpCounts.Total, Alive, S.Inv, After, Name;
    OneOps(Destroy);
    HandFacts(s, l, c, Erase, rest);
    HandRuns(s, l, c, Erase, rest);
    var cn, lp, io := s.conns[c], s.loops[l], Seen(s.loops[l], c);
    var s' := OnLoop(OnConn(s, c, Logged(cn, Erased)).(connections := s.connections - {Name(s, c)}),
                     l, lp.(k := [Destroy] + rest));
    EraseHere(cn, io, io, InMap(s, c), Counts(rest), io.pin);
    HandSeen(s, l, c, Erase, rest, [Destroy], lp.poller);
    KeepsChan(io, Counts(rest), Counts([Destroy]), io.pin);
    PlaceAfter(io, Erase, Counts(rest), Counts([Destroy]), io.pin, true, io.chan);
    MapAfter(s, s', c);
    HandMoved(s, s', l, c, Erase, rest, [Destroy], lp.poller);
  }

  // ---- parts that hand a functor to another loop ----

  /** closeCallback_ on an io loop queues removeConnectionInLoop on the base loop. */
  lemma ReportAwayKeepsInv(s: State, l: nat, c: Id, rest: seq<Op>)
    requires Inv(s) && AtHand(s, l, c, Report, rest) && l != s.base
    ensures Inv(Deliver(OnLoop(s, l, s.loops[l].(k := rest)), s.base, RemoveFn(c)))
  {
    hide Inv, ConnInv, LoopOk, KnownOk, StaticOk, ConnOk, PlaceOk, Seen, InMap, R.Consistent, Counts, One,
         OpCounts.Plus, OpCounts.Total, Alive, S.Inv, After, L.Apply, LoopFits;
    NoneOps();
    HandFacts(s, l, c, Report, rest);
    HandRuns(s, l, c, Report, rest);
    Parts(s, l, c);
    Views(s, c);
    var cn, lp, io, ba := s.conns[c], s.loops[l], Seen(s.loops[l], c), Seen(s.loops[s.base], c);
    var a := L.OtherPush(RemoveFn(c));
    var s' := Deliver(OnLoop(s, l, lp.(k := rest)), s.base, RemoveFn(c));
    ReportAway(cn, io, ba, InMap(s, c), Counts(rest), Counts([]), io.pin, c);
    assert [] + rest == rest;
    HandSeen(s, l, c, Report, rest, [], lp.poller);
    KeepsChan(io, Counts(rest), Counts([]), io.pin);
    PlaceAfter(io, Report, Counts(rest), Counts([]), io.pin, false, io.chan);
    HandFits(s, s', l, c, Report, rest, [], lp.poller);
    PlacePlus(ba, RemoveFn(c), c);
    PushFits(s, s', s.base, a, c);
    MapAfter(s, s', c);
    LocalKeepsInv(s, s', l, s.base, c);
  }

  lemma PlacePlus(v: Shape, f: Fn, c: Id)
    requires f == RemoveFn(c) || f == DestroyFn(c)
    ensures f.RemoveFn? && PlaceOk(v, false, true) ==> PlaceOk(v.(work := WorkPlus(v.work, f, c)), false, true)
    ensures f.DestroyFn? && PlaceOk(v, true, false) ==> PlaceOk(v.(work := WorkPlus(v.work, f, c)), true, false)
  {
  }

  /** The base loop erases a connection of an io loop and queues its connectDestroyed there. */
  lemma EraseAwayKeepsInv(s: State, l: nat, c: Id, rest: seq<Op>)
    requires Inv(s) && AtHand(s, l, c, Erase, rest) && s.conns[c].loop != l && s.conns[c].loop in s.loops
    ensures var u := OnConn(s, c, Logged(s.conns[c], Erased)).(connections := s.connections - {Name(s, c)});
            Inv(Deliver(OnLoop(u, l, s.loops[l].(k := rest)), s.conns[c].loop, DestroyFn(c)))
  {
    hide Inv, ConnInv, LoopOk, KnownOk, StaticOk, ConnOk, PlaceOk, Seen, InMap, R.Consistent, Counts, One,
         OpCounts.Plus, OpCounts.Total, Alive, S.Inv, After, L.Apply, LoopFits, Name, WorkPlus, Sane, HoldsRef;
    NoneOps();
    HandFacts(s, l, c, Erase, rest);
    Parts(s, l, c);
    LoopParts(s.loops[l]);
    Views(s, c);
    var cn, lp, m := s.conns[c], s.loops[l], s.conns[c].loop;
    var io, ba := Seen(s.loops[m], c), Seen(lp, c);
    var a := L.OtherPush(DestroyFn(c));
    var u := OnConn(s, c, Logged(cn, Erased)).(connections := s.connections - {Name(s, c)});
    var s' := Deliver(OnLoop(u, l, lp.(k := rest)), m, DestroyFn(c));
    EraseAway(cn, io, ba, InMap(s, c), Counts(rest), Counts([]), ba.pin, c);
    assert [] + rest == rest;
    HandSeen(s, l, c, Erase, rest, [], lp.poller);
    SeenParts(lp, c);
    KeepsChan(ba, Counts(rest), Counts([]), ba.pin);
    PlaceErased(ba, Counts(rest), Counts([]), ba.pin);
    HandFits(s, s', l, c, Erase, rest, [], lp.poller);
    PlacePlus(io, DestroyFn(c), c);
    PushFits(s, s', m, a, c);
    MapAfter(s, s', c);
    LocalKeepsInv(s, s', l, m, c);
  }

  lemma PlaceErased(v: Shape, rest: OpCounts, more: OpCounts, p: bool)
    requires PlaceOk(v, false, true) && v.ops == One(Erase).Plus(rest) && more == NO_OPS
    ensures PlaceOk(After(v, rest, more, p), false, true)
  {
  }

  // ---- handleWrite ----

  lemma AliveWithK(s: State, l: nat, lp: Loop, c: Id)
    requires l in s.loops && Alive(s, c) && lp.guard == s.loops[l].guard
    requires lp.el.batch == s.loops[l].el.batch && lp.el.pending == s.loops[l].el.pending
    ensures Alive(OnLoop(s, l, lp), c)
  {
    var s' := OnLoop(s, l, lp);
    MapAfter(s, s', c);
    hide InMap;
    if !InMap(s, c) && c !in s.held {
      var x :| x in s.loops && HoldsRef(s.loops[x], c);
      assert HoldsRef(s'.loops[x], c);
    }
  }

  lemma WriteMoves(cfg: S.Config, t: S.Tcp, r: S.WriteResult)
    requires S.Inv(t) && S.Fits(t, |t.out|, r)
    ensures StreamMoves(t, S.HandleWrite(cfg, t, r).tcp)
    ensures StreamMoves(t, S.DrainCheck(t))
  {
    S.ActKeepsInv(cfg, t, S.Ready(r));
    S.ActKeepsInv(cfg, t, S.Drain);
    hide S.Inv;
  }

  lemma OnLoopTwice(s: State, l: nat, x: Loop, y: Loop)
    ensures OnLoop(OnLoop(s, l, x), l, y) == OnLoop(s, l, y)
  {
    assert s.loops[l := x][l := y] == s.loops[l := y];
  }

  lemma WriteKeepsInv(s: State, l: nat, c: Id, rest: seq<Op>, r: S.WriteResult)
    requires Inv(s) && AtHand(s, l, c, Write, rest) && c in s.loops[l].poller.chans
    requires L.InCallback(s.loops[l].el) && !s.loops[l].el.owes && S.Fits(s.conns[c].tcp, |s.conns[c].tcp.out|, r)
    ensures var cn := s.conns[c]; var o := S.HandleWrite(s.cfg, cn.tcp, r);
            var k := if S.Drains(cn.tcp, r) then [Drain] + rest else rest;
            Inv(OnConn(OnLoop(s, l, Output(s.loops[l].(k := k), c, cn.tcp.interest, o)), c, cn.(tcp := o.tcp)))
  {
    hide Inv, Alive, S.Inv, S.HandleWrite, S.Drains, StreamMoves, LoopOk, KnownOk, ConnInv, StaticOk, Seen, InMap,
         Output, Runs;
    HandFacts(s, l, c, Write, rest);
    HandRuns(s, l, c, Write, rest);
    var cn, lp := s.conns[c], s.loops[l];
    var k := if S.Drains(cn.tcp, r) then [Drain] + rest else rest;
    if S.Drains(cn.tcp, r) {
      DrainsKeepsInv(s, l, c, rest);
    } else {
      assert [] + rest == rest;
      PassKeepsInv(s, l, c, Write, rest, []);
    }
    var t := OnLoop(s, l, lp.(k := k));
    AliveWithK(s, l, lp.(k := k), c);
    WriteMoves(s.cfg, cn.tcp, r);
    var o := S.HandleWrite(s.cfg, cn.tcp, r);
    OutputKeepsInv(t, l, c, o);
    OnLoopTwice(s, l, lp.(k := k), Output(lp.(k := k), c, cn.tcp.interest, o));
  }

  lemma DrainKeepsInv(s: State, l: nat, c: Id, rest: seq<Op>)
    requires Inv(s) && AtHand(s, l, c, Drain, rest) && c in s.loops[l].poller.chans
    ensures Inv(OnConn(OnLoop(s, l, s.loops[l].(k := rest)), c, s.conns[c].(tcp := S.DrainCheck(s.conns[c].tcp))))
  {
    hide Inv, Alive, S.Inv, S.DrainCheck, StreamMoves, LoopOk, KnownOk, ConnInv, StaticOk, Seen, InMap, Runs, Synced;
    HandRuns(s, l, c, Drain, rest);
    assert [] + rest == rest;
    PassKeepsInv(s, l, c, Drain, rest, []);
    var t := OnLoop(s, l, s.loops[l].(k := rest));
    WriteMoves(s.cfg, s.conns[c].tcp, S.Broken);
    SameInterest(s.conns[c].tcp);
    NotSynced(t, c);
    StreamKeepsInv(t, c, S.DrainCheck(s.conns[c].tcp));
  }
}
