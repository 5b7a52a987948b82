/** The life of one connection seen through its shapes: what each step does to the place where its
    next lifecycle step waits. Nothing here looks at the rest of the server. */
module ServerConns {
  import opened Options
  import opened Servers
  import opened ServerInvariant
  import opened ServerLoops
  import R = Registration
  import S = Streams
  import Ch = Channels

  /** `io` is the shape of the connection's own loop, `ba` that of the base loop; they may be one. */
  predicate Sane(io: Shape, ba: Shape, same: bool) {
    if same then ba == io else PlaceOk(io, true, false) && PlaceOk(ba, false, true)
  }

  function BaseAfter(io': Shape, ba: Shape, same: bool): Shape { if same then io' else ba }

  /** The handler's next part gives way to `more`, before `rest`; `p`: the loop keeps the connection alive. */
  function After(v: Shape, rest: OpCounts, more: OpCounts, p: bool): Shape {
    var ops := more.Plus(rest);
    v.(ops := ops, pin := ops.Total() > 0 && p)
  }

  /** A part `op` of a handler runs that belongs to the connection's own loop. */
  predicate Runs(cn: Conn, io: Shape, ba: Shape, same: bool, inMap: bool, op: Op, rest: OpCounts, p: bool) {
    && ConnOk(cn, io, ba, same, inMap) && Sane(io, ba, same)
    && io.ops == One(op).Plus(rest) && io.pin == p
  }

  /** The shape of a handler's next part giving way to `more`. */
  lemma ShapeAfter(v: LoopView, op: Op, rest: seq<Op>, more: seq<Op>, p: bool)
    requires v.k == [op] + rest && v.pin == p && op != User
    ensures ShapeOf(v).ops == One(op).Plus(Counts(rest)) && ShapeOf(v).pin == p
    ensures ShapeOf(v.(k := more + rest, pin := more + rest != [] && p))
         == After(ShapeOf(v), Counts(rest), Counts(more), p)
  {
    hide Counts, One, OpCounts.Total, OpCounts.Plus;
    CountsNext(op, more, rest);
    NoCounts(more + rest);
  }

  lemma StreamEstablished(t: S.Tcp)
    requires S.Inv(t) && t.state == S.Connecting
    ensures S.Inv(S.Established(t)) && S.Established(t).state == S.Connected
    ensures S.Established(t).interest == R.Interest(true, false)
  {
    S.ActKeepsInv(S.Config(false, false, 0), t, S.Establish);
  }

  lemma StreamClosed(t: S.Tcp)
    requires S.Inv(t) && t.state != S.Connecting
    ensures S.Inv(S.Closed(t)) && S.Closed(t).state == S.Disconnected && S.Closed(t).interest == R.NONE_EVENT
  {
    S.ActKeepsInv(S.Config(false, false, 0), t, S.Close);
  }

  /** One more event; in order, if it is the one whose turn it is. */
  lemma Next(cn: Conn, e: Event)
    requires !cn.wild ==> InOrder(cn.log)
    ensures TallyOf(Logged(cn, e).log) == Tallied(TallyOf(cn.log), e)
    ensures !cn.wild ==> TallyOf(cn.log) == TallyAt(|cn.log|)
    ensures !cn.wild && |cn.log| < 6 && LIFECYCLE[|cn.log|] == e ==> InOrder(Logged(cn, e).log)
  {
    TallyGrows(cn.log, e);
    if !cn.wild {
      TallyInOrder(cn.log);
      if |cn.log| < 6 && LIFECYCLE[|cn.log|] == e { OrderGrows(cn.log, e); }
    }
  }

  lemma EstStep(cn: Conn, io: Shape, ba: Shape, same: bool, inMap: bool, rest: OpCounts, p: bool)
    requires Runs(cn, io, ba, same, inMap, Est, rest, p)
    ensures TallyOf(cn.log).est == 0 && io.chan.value.index == R.New
    ensures var t := S.Established(cn.tcp);
            var io' := After(io, rest, One(Up), p).(chan := Some(R.Chan(cn.fd, t.interest, R.Added)));
            ConnOk(Logged(cn.(tcp := t), Established), io', BaseAfter(io', ba, same), same, inMap)
  {
    hide S.Inv, InOrder, S.Established, TallyOf;
    StreamEstablished(cn.tcp);
    Next(cn, Established);
  }

  lemma UpStep(cn: Conn, io: Shape, ba: Shape, same: bool, inMap: bool, rest: OpCounts, more: OpCounts, p: bool)
    requires Runs(cn, io, ba, same, inMap, Up, rest, p)
    requires more == NO_OPS
    ensures var io' := After(io, rest, more, p);
            ConnOk(Logged(cn, UpCalled), io', BaseAfter(io', ba, same), same, inMap)
  {
    hide S.Inv, InOrder, TallyOf;
    Next(cn, UpCalled);
  }

  /** A close or a read runs only on a connection that has come up. */
  lemma ClosesUp(cn: Conn, io: Shape, ba: Shape, same: bool, inMap: bool, op: Op, rest: OpCounts)
    requires ConnOk(cn, io, ba, same, inMap) && io.ops == One(op).Plus(rest) && (op == Close || op == Read)
    ensures cn.tcp.state != S.Connecting && io.chan.Some?
    ensures var t := TallyOf(cn.log); t.est == 1 && t.up == 1
  {
    hide S.Inv, Calm, TallyOf, RawOk, PinOk, OpCounts.Total;
  }

  /** handleClose, whether or not the channel is registered then. */
  lemma CloseStep(cn: Conn, io: Shape, ba: Shape, same: bool, inMap: bool, rest: OpCounts, p: bool)
    requires Runs(cn, io, ba, same, inMap, Close, rest, p)
    ensures cn.tcp.state != S.Connecting
    ensures var t := S.Closed(cn.tcp);
            var ch := R.Chan(cn.fd, R.NONE_EVENT, IndexAfter(io.chan.value.index, R.NONE_EVENT));
            var io' := After(io, rest, One(Down), p).(chan := Some(ch));
            ConnOk(Logged(cn.(tcp := t), Closed), io', BaseAfter(io', ba, same), same, inMap)
  {
    hide S.Inv, InOrder, S.Closed, TallyOf;
    ClosesUp(cn, io, ba, same, inMap, Close, rest);
    StreamClosed(cn.tcp);
    Next(cn, Closed);
  }

  lemma DownStep(cn: Conn, io: Shape, ba: Shape, same: bool, inMap: bool, rest: OpCounts, p: bool)
    requires Runs(cn, io, ba, same, inMap, Down, rest, p)
    ensures var io' := After(io, rest, One(Report), p);
            ConnOk(Logged(cn, DownCalled), io', BaseAfter(io', ba, same), same, inMap)
  {
    hide S.Inv, InOrder, TallyOf;
    Next(cn, DownCalled);
  }

  /** closeCallback_ on the base loop itself: removeConnectionInLoop follows at once. */
  lemma ReportHere(cn: Conn, io: Shape, ba: Shape, inMap: bool, rest: OpCounts, p: bool)
    requires Runs(cn, io, ba, true, inMap, Report, rest, p)
    ensures var io' := After(io, rest, One(Erase), p); ConnOk(cn, io', io', true, inMap)
  {
    hide S.Inv, InOrder, TallyOf;
  }

  /** closeCallback_ on an io loop: removeConnectionInLoop is queued on the base loop. */
  lemma ReportAway(cn: Conn, io: Shape, ba: Shape, inMap: bool, rest: OpCounts, more: OpCounts, p: bool, c: Id)
    requires Runs(cn, io, ba, false, inMap, Report, rest, p)
    requires more == NO_OPS
    ensures ConnOk(cn, After(io, rest, more, p), ba.(work := WorkPlus(ba.work, RemoveFn(c), c)), false, inMap)
  {
    hide S.Inv, InOrder, TallyOf;
  }

  lemma EraseHere(cn: Conn, io: Shape, ba: Shape, inMap: bool, rest: OpCounts, p: bool)
    requires Runs(cn, io, ba, true, inMap, Erase, rest, p)
    ensures var io' := After(io, rest, One(Destroy), p); ConnOk(Logged(cn, Erased), io', io', true, false)
  {
    hide S.Inv, InOrder, TallyOf;
    Next(cn, Erased);
  }

  /** The base loop erases a connection of an io loop: connectDestroyed goes behind every functor
      already queued there. */
  lemma EraseAway(cn: Conn, io: Shape, ba: Shape, inMap: bool, rest: OpCounts, more: OpCounts, p: bool, c: Id)
    requires ConnOk(cn, io, ba, false, inMap) && Sane(io, ba, false)
    requires ba.ops == One(Erase).Plus(rest) && ba.pin == p
    requires more == NO_OPS
    ensures ConnOk(Logged(cn, Erased), io.(work := WorkPlus(io.work, DestroyFn(c), c)), After(ba, rest, more, p),
                   false, false)
  {
    hide S.Inv, InOrder, TallyOf;
    Next(cn, Erased);
  }

  /** connectDestroyed always finds Disconnected. */
  lemma DestroyStep(cn: Conn, io: Shape, ba: Shape, same: bool, inMap: bool, rest: OpCounts, more: OpCounts, p: bool)
    requires Runs(cn, io, ba, same, inMap, Destroy, rest, p)
    requires more == NO_OPS
    ensures cn.tcp.state == S.Disconnected && (!cn.wild ==> |cn.log| == 5)
    ensures var io' := After(io, rest, more, p).(chan := Some(R.Chan(cn.fd, cn.tcp.interest, R.New)));
            ConnOk(Logged(cn, Destroyed), io', BaseAfter(io', ba, same), same, inMap)
  {
    hide S.Inv, InOrder, TallyOf;
    Next(cn, Destroyed);
  }

  /** The second half of connectDestroyed's Connected branch is never reached. */
  lemma NoRemoveStep(cn: Conn, io: Shape, ba: Shape, same: bool, inMap: bool, op: Op, rest: OpCounts)
    requires ConnOk(cn, io, ba, same, inMap) && io.ops == One(op).Plus(rest)
    ensures op != Remove
  {
    hide S.Inv, InOrder, TallyOf;
  }

  /** handleRead at the end of the stream closes. */
  lemma ReadEnds(cn: Conn, io: Shape, ba: Shape, same: bool, inMap: bool, rest: OpCounts, p: bool)
    requires Runs(cn, io, ba, same, inMap, Read, rest, p)
    ensures var io' := After(io, rest, One(Close), p);
            ConnOk(cn, io', BaseAfter(io', ba, same), same, inMap)
  {
    hide S.Inv, InOrder, TallyOf;
  }

  /** Otherwise handleRead, and handleWrite's two parts, move no lifecycle step. */
  lemma PassStep(cn: Conn, io: Shape, ba: Shape, same: bool, inMap: bool, op: Op, rest: OpCounts, more: OpCounts,
                 p: bool)
    requires (op == Read || op == Write || op == Drain) && Runs(cn, io, ba, same, inMap, op, rest, p)
    requires more == NO_OPS
    ensures var io' := After(io, rest, more, p); ConnOk(cn, io', BaseAfter(io', ba, same), same, inMap)
  {
    hide S.Inv, InOrder, TallyOf;
  }

  lemma DrainedStep(cn: Conn, io: Shape, ba: Shape, same: bool, inMap: bool, rest: OpCounts, p: bool)
    requires Runs(cn, io, ba, same, inMap, Write, rest, p)
    ensures var io' := After(io, rest, One(Drain), p); ConnOk(cn, io', BaseAfter(io', ba, same), same, inMap)
  {
    hide S.Inv, InOrder, TallyOf;
  }

  predicate StreamMoves(t: S.Tcp, t': S.Tcp) {
    && S.Inv(t')
    && (t'.state == t.state || (t.state == S.Connected && t'.state == S.Disconnecting))
  }

  /** The connection's output path moves by itself. */
  lemma StreamStep(cn: Conn, io: Shape, ba: Shape, same: bool, inMap: bool, t: S.Tcp)
    requires ConnOk(cn, io, ba, same, inMap) && Sane(io, ba, same) && StreamMoves(cn.tcp, t)
    ensures var io' := io.(chan := Some(io.chan.value.(events := t.interest)));
            ConnOk(cn.(tcp := t), io', BaseAfter(io', ba, same), same, inMap)
  {
    hide S.Inv, InOrder, TallyOf;
  }

  /** The loop's thread turns to the connection's channel. */
  lemma DispatchStep(cn: Conn, r: Ch.Revents, io: Shape, ba: Shape, same: bool, inMap: bool, ops: OpCounts)
    requires ConnOk(cn, io, ba, same, inMap) && Sane(io, ba, same)
    requires io.act
    requires ops.Total() == ops.close + ops.read + ops.write && (Benign(r) ==> ops.close + ops.read <= 1)
    ensures var io' := io.(ops := ops, pin := ops.Total() > 0, act := false);
            ConnOk(Turned(cn, r), io', BaseAfter(io', ba, same), same, inMap)
  {
    hide S.Inv, InOrder, TallyOf, Benign;
  }

  /** v' is v without its first functor f. */
  predicate Popped(v: WorkView, f: Fn, c: Id, v': WorkView) {
    && v.est == Sum(v'.est, Bit(f == EstablishFn(c)))
    && v.des == Sum(v'.des, Bit(f == DestroyFn(c)))
    && v.rem == Sum(v'.rem, Bit(f == RemoveFn(c)))
    && v.force == (v'.force || f == ForceCloseFn(c))
    && v.raw == (v'.raw || Raw(f, c))
    && v.rawShut == (v'.rawShut || f == ShutdownFn(c))
    && v.late == (v'.late || (f == DestroyFn(c) && v'.raw))
  }

  /** The connection's own loop, between handlers and not dispatching, takes its functor f. */
  predicate Takes(cn: Conn, io: Shape, ba: Shape, same: bool, inMap: bool, f: Fn, c: Id, work: WorkView) {
    && ConnOk(cn, io, ba, same, inMap) && Sane(io, ba, same) && io.ops.Total() == 0 && !io.pin && !io.act
    && On(f, c) && Popped(io.work, f, c, work)
  }

  lemma RunEstablish(cn: Conn, io: Shape, ba: Shape, same: bool, inMap: bool, c: Id, work: WorkView)
    requires Takes(cn, io, ba, same, inMap, EstablishFn(c), c, work)
    ensures var io' := io.(work := work, ops := One(Est), pin := true);
            ConnOk(cn, io', BaseAfter(io', ba, same), same, inMap)
  {
    hide S.Inv, InOrder, TallyOf;
  }

  lemma RunDestroy(cn: Conn, io: Shape, ba: Shape, same: bool, inMap: bool, c: Id, work: WorkView)
    requires Takes(cn, io, ba, same, inMap, DestroyFn(c), c, work)
    ensures var io' := io.(work := work, ops := One(Destroy), pin := true);
            ConnOk(cn, io', BaseAfter(io', ba, same), same, inMap)
    ensures !same ==> !work.raw
  {
    hide S.Inv, InOrder, TallyOf;
  }

  lemma RunClose(cn: Conn, io: Shape, ba: Shape, same: bool, inMap: bool, c: Id, work: WorkView)
    requires Takes(cn, io, ba, same, inMap, ForceCloseFn(c), c, work)
    requires cn.tcp.state == S.Connected || cn.tcp.state == S.Disconnecting
    ensures var io' := io.(work := work, ops := One(Close), pin := true);
            ConnOk(cn, io', BaseAfter(io', ba, same), same, inMap)
  {
    if !cn.wild { TallyInOrder(cn.log); }
    hide S.Inv, InOrder, TallyOf;
  }

  /** A functor that starts no handler: a late forceCloseInLoop, a notice, or a raw one. */
  lemma RunPlain(cn: Conn, io: Shape, ba: Shape, same: bool, inMap: bool, f: Fn, c: Id, work: WorkView)
    requires Takes(cn, io, ba, same, inMap, f, c, work)
    requires f.ForceCloseFn? || f.NoticeFn? || Raw(f, c)
    ensures var io' := io.(work := work); ConnOk(cn, io', BaseAfter(io', ba, same), same, inMap)
    ensures Raw(f, c) ==> cn.tcp.state != S.Connecting && (!same ==> TallyOf(cn.log).destroyed == 0)
    ensures f.ShutdownFn? ==> cn.tcp.state == S.Disconnecting || cn.tcp.state == S.Disconnected
  {
    hide S.Inv, InOrder, TallyOf;
  }

  /** The base loop takes the removal of a connection. */
  lemma RunRemoveStep(cn: Conn, io: Shape, ba: Shape, same: bool, inMap: bool, c: Id, work: WorkView)
    requires ConnOk(cn, io, ba, same, inMap) && Sane(io, ba, same) && ba.ops.Total() == 0 && !ba.pin && !ba.act
    requires Popped(ba.work, RemoveFn(c), c, work)
    ensures var ba' := ba.(work := work, ops := One(Erase), pin := true);
            ConnOk(cn, if same then ba' else io, ba', same, inMap)
  {
    hide S.Inv, InOrder, TallyOf;
  }

  /** A call made while the connection is up queues f behind everything else. */
  lemma PushStep(cn: Conn, io: Shape, ba: Shape, same: bool, inMap: bool, f: Fn, c: Id)
    requires ConnOk(cn, io, ba, same, inMap) && Sane(io, ba, same)
    requires Raw(f, c) || f == ForceCloseFn(c) || f.NoticeFn?
    requires Raw(f, c) ==> cn.tcp.state == S.Connected || cn.tcp.state == S.Disconnecting
    requires f == ShutdownFn(c) ==> cn.tcp.state == S.Disconnecting
    ensures var io' := io.(work := WorkPlus(io.work, f, c));
            ConnOk(cn, io', BaseAfter(io', ba, same), same, inMap)
  {
    hide S.Inv, InOrder, TallyOf;
  }

  const NO_WORK: WorkView := WorkView(0, 0, 0, false, false, false, false)

  /** A new connection: Establish waits on its own loop, at hand or queued. */
  lemma BornStep(cn: Conn, io: Shape, ba: Shape, same: bool)
    requires cn.log == [] && cn.tcp == S.FRESH && !cn.wild
    requires io.chan == Some(R.Chan(cn.fd, R.NONE_EVENT, R.New)) && !io.act
    requires io.work == NO_WORK.(est := io.work.est) && io.ops.Total() == io.ops.est && io.work.est + io.ops.est == 1
    requires if same then ba == io else ba.work == NO_WORK && ba.ops.Total() == 0
    ensures ConnOk(cn, io, ba, same, true)
  {
  }
}
