/** The inductive invariant of the server: for every connection, where its next lifecycle step
    waits, what its loop, its poller and the map say of it, and what is still queued for it. */
module ServerInvariant {
  import opened Options
  import opened Servers
  import R = Registration
  import S = Streams
  import L = LoopProtocol

  /** The functors of c in a loop's remaining work. */
  datatype WorkView = WorkView(est: nat, des: nat, rem: nat, force: bool, raw: bool, rawShut: bool, late: bool)

  ghost function WorkOf(w: seq<Fn>, c: Id): WorkView {
    WorkView(multiset(w)[EstablishFn(c)], multiset(w)[DestroyFn(c)], multiset(w)[RemoveFn(c)], ForceCloseFn(c) in w,
             RawIn(w, c), ShutdownFn(c) in w, LateIn(w, c))
  }

  ghost predicate RawIn(w: seq<Fn>, c: Id) { exists i :: 0 <= i < |w| && Raw(w[i], c) }

  /** Some raw functor of c waits behind a connectDestroyed of c. */
  ghost predicate LateIn(w: seq<Fn>, c: Id) {
    exists i, j :: 0 <= i < j < |w| && w[i] == DestroyFn(c) && Raw(w[j], c)
  }

  /** Addition by a name: sums of fields written out are costly to the solver. */
  function Sum(a: nat, b: nat): nat { a + b }

  /** How often each part of a handler occurs in the rest of the one at hand. */
  datatype OpCounts = OpCounts(est: nat, up: nat, close: nat, down: nat, report: nat, erase: nat,
                               destroy: nat, remove: nat, read: nat, write: nat)
  {
    function Total(): nat {
      Sum(Sum(Sum(est, up), Sum(close, down)), Sum(Sum(report, erase), Sum(Sum(destroy, remove), Sum(read, write))))
    }

    function Plus(o: OpCounts): OpCounts {
      OpCounts(Sum(est, o.est), Sum(up, o.up), Sum(close, o.close), Sum(down, o.down), Sum(report, o.report),
               Sum(erase, o.erase), Sum(destroy, o.destroy), Sum(remove, o.remove), Sum(read, o.read),
               Sum(write, o.write))
    }
  }

  const NO_OPS: OpCounts := OpCounts(0, 0, 0, 0, 0, 0, 0, 0, 0, 0)

  function One(op: Op): OpCounts {
    match op
    case Est => OpCounts(1, 0, 0, 0, 0, 0, 0, 0, 0, 0)
    case Up => OpCounts(0, 1, 0, 0, 0, 0, 0, 0, 0, 0)
    case Close => OpCounts(0, 0, 1, 0, 0, 0, 0, 0, 0, 0)
    case Down => OpCounts(0, 0, 0, 1, 0, 0, 0, 0, 0, 0)
    case Report => OpCounts(0, 0, 0, 0, 1, 0, 0, 0, 0, 0)
    case Erase => OpCounts(0, 0, 0, 0, 0, 1, 0, 0, 0, 0)
    case Destroy => OpCounts(0, 0, 0, 0, 0, 0, 1, 0, 0, 0)
    case Remove => OpCounts(0, 0, 0, 0, 0, 0, 0, 1, 0, 0)
    case Read => OpCounts(0, 0, 0, 0, 0, 0, 0, 0, 1, 0)
    case Write | Drain => OpCounts(0, 0, 0, 0, 0, 0, 0, 0, 0, 1)
    case User => NO_OPS
  }

  function Counts(k: seq<Op>): OpCounts {
    var m := multiset(k);
    OpCounts(m[Est], m[Up], m[Close], m[Down], m[Report], m[Erase], m[Destroy], m[Remove], m[Read],
             Sum(m[Write], m[Drain]))
  }

  /** What one loop has to do with c: its queue, the rest of the handler at hand if that is c's
      (user callbacks aside) and whether the loop keeps c alive meanwhile, its active list, c's channel. */
  datatype LoopView = LoopView(work: WorkView, k: seq<Op>, pin: bool, act: bool, chan: Option<R.Chan>)

  ghost function Work(lp: Loop): seq<Fn> {
    if lp.el.pos <= |lp.el.batch| then lp.el.Work() else []
  }

  function KFor(lp: Loop, c: Id): seq<Op> {
    if lp.cur == c then lp.k else []
  }

  ghost predicate Pinned(lp: Loop, c: Id) {
    lp.guard == Some(c) || (0 < lp.el.pos <= |lp.el.batch| && Strong(lp.el.batch[lp.el.pos - 1], c))
  }

  ghost predicate InActive(lp: Loop, c: Id) { exists i :: 0 <= i < |lp.active| && lp.active[i].c == c }

  ghost function ViewOf(lp: Loop, c: Id): LoopView {
    LoopView(WorkOf(Work(lp), c), KFor(lp, c), KFor(lp, c) != [] && Pinned(lp, c), InActive(lp, c),
             if c in lp.poller.chans then Some(lp.poller.chans[c]) else None)
  }

  /** A view with the parts of handlers counted. */
  datatype Shape = Shape(work: WorkView, ops: OpCounts, pin: bool, act: bool, chan: Option<R.Chan>)

  function ShapeOf(v: LoopView): Shape {
    Shape(v.work, Counts(v.k), Counts(v.k).Total() > 0 && v.pin, v.act, v.chan)
  }

  /** What the invariant knows of a loop with regard to c. */
  ghost function Seen(lp: Loop, c: Id): Shape { ShapeOf(ViewOf(lp, c)) }

  function Bit(b: bool): nat { if b then 1 else 0 }

  /** How often each event has happened. */
  datatype Tally = Tally(est: nat, up: nat, closed: nat, down: nat, erased: nat, destroyed: nat)

  function TallyOf(log: seq<Event>): Tally {
    var m := multiset(log);
    Tally(m[Established], m[UpCalled], m[Closed], m[DownCalled], m[Erased], m[Destroyed])
  }

  function Tallied(t: Tally, e: Event): Tally {
    match e
    case Established => t.(est := Sum(t.est, 1))
    case UpCalled => t.(up := Sum(t.up, 1))
    case Closed => t.(closed := Sum(t.closed, 1))
    case DownCalled => t.(down := Sum(t.down, 1))
    case Erased => t.(erased := Sum(t.erased, 1))
    case Destroyed => t.(destroyed := Sum(t.destroyed, 1))
  }

  lemma TallyGrows(log: seq<Event>, e: Event)
    ensures TallyOf(log + [e]) == Tallied(TallyOf(log), e)
  {
  }

  /** Every event waits at one place until it happens: each handleClose brings one removal and one
      connectDestroyed of its own. */
  predicate Token(t: Tally, io: Shape, ba: Shape) {
    && Sum(Sum(io.work.est, io.ops.est), t.est) == 1
    && Sum(io.ops.up, t.up) == t.est
    && Sum(io.ops.down, t.down) == t.closed
    && Sum(Sum(io.ops.report, Sum(ba.work.rem, ba.ops.erase)), t.erased) == t.down
    && Sum(Sum(io.work.des, io.ops.destroy), t.destroyed) == t.erased
    && io.ops.remove == 0
    && (Sum(io.ops.close, io.ops.read) > 0 || t.closed > 0 ==> t.up == 1)
  }

  predicate StateOk(t: Tally, st: S.ConnState) {
    if t.est == 0 then st == S.Connecting
    else if t.closed == 0 then st == S.Connected || st == S.Disconnecting
    else st == S.Disconnected
  }

  /** A channel is registered while its connection is up, and later only as long as some
      handleClose waits for its connectDestroyed. */
  predicate IndexOk(t: Tally, index: R.Index) {
    && (t.est == 0 ==> index == R.New)
    && (t.est > 0 && t.closed == 0 ==> index == R.Added)
    && (index != R.New ==> t.closed == 0 || t.closed > t.destroyed)
  }

  /** Any part of a handler other than the first two runs while the loop keeps the connection alive. */
  predicate PinOk(v: Shape) { v.ops.Total() > Sum(v.ops.est, v.ops.up) ==> v.pin }

  /** The raw functors of a connection whose io loop is not the base loop: none behind a
      connectDestroyed, none left once one has started. */
  predicate RawOk(t: Tally, st: S.ConnState, io: Shape, same: bool) {
    && (io.work.raw ==> t.est >= 1)
    && (io.work.rawShut ==> st == S.Disconnecting || st == S.Disconnected)
    && (!same ==> !io.work.late && (io.work.raw ==> t.destroyed == 0 && io.ops.destroy == 0))
  }

  /** Nothing happened out of turn. */
  predicate InOrder(log: seq<Event>) { |log| <= 6 && log == LIFECYCLE[..|log|] }

  function IndexAt(n: nat): R.Index {
    if n == 0 || n >= 6 then R.New else if n <= 2 then R.Added else R.Deleted
  }

  /** While no event was both a close and a read, a connection lives its life in order, and only
      one that is up can still be closed or reported. */
  predicate Calm(log: seq<Event>, io: Shape) {
    && InOrder(log) && io.chan.Some? && io.chan.value.index == IndexAt(|log|)
    && Sum(io.ops.close, io.ops.read) <= Bit(|log| == 2)
    && (io.act ==> |log| == 2)
  }

  function TallyAt(n: nat): Tally { Tally(Bit(n > 0), Bit(n > 1), Bit(n > 2), Bit(n > 3), Bit(n > 4), Bit(n > 5)) }

  lemma TallyInOrder(log: seq<Event>)
    requires InOrder(log)
    ensures TallyOf(log) == TallyAt(|log|)
  {
    assert LIFECYCLE[..6] == LIFECYCLE && LIFECYCLE[..1] == [Established] && LIFECYCLE[..0] == [];
    assert LIFECYCLE[..2] == [Established, UpCalled] && LIFECYCLE[..3] == [Established, UpCalled, Closed];
    assert LIFECYCLE[..4] == [Established, UpCalled, Closed, DownCalled];
    assert LIFECYCLE[..5] == [Established, UpCalled, Closed, DownCalled, Erased];
  }

  lemma OrderGrows(log: seq<Event>, e: Event)
    requires InOrder(log) && |log| < 6 && LIFECYCLE[|log|] == e
    ensures InOrder(log + [e])
  {
    assert LIFECYCLE[..|log| + 1] == LIFECYCLE[..|log|] + [e];
  }

  /** What holds of a connection with the events t behind it. */
  predicate LifeOk(t: Tally, fd: int, tcp: S.Tcp, io: Shape, ba: Shape, same: bool, inMap: bool) {
    && Token(t, io, ba)
    && inMap == (t.erased == 0)
    && StateOk(t, tcp.state)
    && io.chan.Some? && io.chan.value == R.Chan(fd, tcp.interest, io.chan.value.index)
    && IndexOk(t, io.chan.value.index)
    && (io.act ==> io.ops.Total() == 0 && io.chan.value.index == R.Added)
    && PinOk(io) && PinOk(ba)
    && RawOk(t, tcp.state, io, same)
    && S.Inv(tcp)
  }

  predicate ConnOk(cn: Conn, io: Shape, ba: Shape, same: bool, inMap: bool) {
    LifeOk(TallyOf(cn.log), cn.fd, cn.tcp, io, ba, same, inMap) && (cn.wild || Calm(cn.log, io))
  }

  /** Only c's own loop and the base loop ever see c. */
  predicate PlaceOk(v: Shape, own: bool, base: bool) {
    && (!own ==> v.work.est == 0 && v.work.des == 0 && !v.work.force && !v.work.raw && !v.work.rawShut && !v.work.late
                 && !v.act && v.chan == None && v.ops.Total() == v.ops.erase)
    && (!base ==> v.work.rem == 0 && v.ops.erase == 0)
  }

  ghost predicate LoopOk(lp: Loop) {
    && L.Inv(lp.el) && lp.el.pc != L.Outside && !lp.el.quit && !lp.el.preloaded
    && (lp.k != [] ==> lp.el.pc == L.Dispatch || lp.el.pc == L.Running)
    && (lp.guard.Some? ==> lp.el.pc == L.Dispatch)
    && (lp.active != [] ==> lp.el.pc == L.Dispatch)
    && (forall i, j :: 0 <= i < j < |lp.active| ==> lp.active[i].c != lp.active[j].c)
    && R.Consistent(lp.poller)
  }

  ghost predicate KnownFns(w: seq<Fn>, ids: set<Id>) { forall f :: f in w && !f.UserFn? ==> f.c in ids }

  ghost predicate KnownActive(active: seq<Active>, ids: set<Id>) { forall a :: a in active ==> a.c in ids }

  /** Nothing refers to a connection that was never accepted. */
  ghost predicate KnownOk(ids: set<Id>, lp: Loop) {
    && KnownFns(Work(lp), ids)
    && ((exists op :: op in lp.k && op != User) ==> lp.cur in ids)
    && KnownActive(lp.active, ids)
    && lp.poller.chans.Keys <= ids
  }

  ghost predicate ConnInv(s: State, c: Id)
    requires c in s.conns
  {
    var cn := s.conns[c];
    && cn.loop in s.loops && s.base in s.loops && cn.fd !in s.reserved
    && (s.pool != [] ==> cn.loop != s.base)
    && ConnOk(cn, Seen(s.loops[cn.loop], c), Seen(s.loops[s.base], c), cn.loop == s.base, InMap(s, c))
    && forall l :: l in s.loops ==> PlaceOk(Seen(s.loops[l], c), l == cn.loop, l == s.base)
  }

  /** Two live connections never share a descriptor. */
  ghost predicate FdsOk(s: State) {
    forall c, d :: Alive(s, c) && Alive(s, d) && c != d ==> s.conns[c].fd != s.conns[d].fd
  }

  ghost predicate StaticOk(s: State) {
    && s.base in s.loops && s.base !in s.pool && (forall i :: 0 <= i < |s.pool| ==> s.pool[i] in s.loops)
    && (if s.pool == [] then s.next == 0 else s.next < |s.pool|)
    && (forall c :: c in s.conns <==> 1 <= c < s.nextId) && 1 <= s.nextId
    && (forall nm :: nm in s.connections ==> s.connections[nm] in s.conns && nm == Name(s, s.connections[nm]))
    && s.held <= s.conns.Keys
    && s.inflight == []
  }

  ghost predicate Inv(s: State) {
    && StaticOk(s)
    && (forall l :: l in s.loops ==> LoopOk(s.loops[l]) && KnownOk(s.conns.Keys, s.loops[l]))
    && (forall c :: c in s.conns ==> ConnInv(s, c))
    && FdsOk(s)
  }

  lemma InitInv(s: State)
    requires Init(s)
    ensures Inv(s)
  {
    forall l | l in s.loops ensures LoopOk(s.loops[l]) && KnownOk(s.conns.Keys, s.loops[l]) {
      assert R.Consistent(IDLE.poller);
      assert Work(IDLE) == [];
    }
  }

  // ---- how queue steps change a view ----

  lemma RawJoin(w: seq<Fn>, x: seq<Fn>, c: Id)
    ensures RawIn(w + x, c) <==> RawIn(w, c) || RawIn(x, c)
  {
    var y := w + x;
    if RawIn(w, c) {
      var i :| 0 <= i < |w| && Raw(w[i], c);
      assert Raw(y[i], c);
    }
    if RawIn(x, c) {
      var i :| 0 <= i < |x| && Raw(x[i], c);
      assert Raw(y[|w| + i], c);
    }
    if RawIn(y, c) {
      var i :| 0 <= i < |y| && Raw(y[i], c);
      assert if i < |w| then Raw(w[i], c) else Raw(x[i - |w|], c);
    }
  }

  lemma LateJoin(w: seq<Fn>, x: seq<Fn>, c: Id)
    ensures LateIn(w + x, c) <==> LateIn(w, c) || LateIn(x, c) || (DestroyFn(c) in w && RawIn(x, c))
  {
    var y := w + x;
    if LateIn(w, c) {
      var i, j :| 0 <= i < j < |w| && w[i] == DestroyFn(c) && Raw(w[j], c);
      assert y[i] == DestroyFn(c) && Raw(y[j], c);
    }
    if LateIn(x, c) {
      var i, j :| 0 <= i < j < |x| && x[i] == DestroyFn(c) && Raw(x[j], c);
      assert y[|w| + i] == DestroyFn(c) && Raw(y[|w| + j], c);
    }
    if DestroyFn(c) in w && RawIn(x, c) {
      var i :| 0 <= i < |w| && w[i] == DestroyFn(c);
      var j :| 0 <= j < |x| && Raw(x[j], c);
      assert y[i] == DestroyFn(c) && Raw(y[|w| + j], c);
    }
    if LateIn(y, c) {
      var i, j :| 0 <= i < j < |y| && y[i] == DestroyFn(c) && Raw(y[j], c);
      if j < |w| {
        assert w[i] == DestroyFn(c) && Raw(w[j], c);
      } else if |w| <= i {
        assert x[i - |w|] == DestroyFn(c) && Raw(x[j - |w|], c);
      } else {
        assert w[i] == DestroyFn(c) && Raw(x[j - |w|], c);
      }
    }
  }

  lemma Single(f: Fn, c: Id)
    ensures RawIn([f], c) <==> Raw(f, c)
    ensures !LateIn([f], c)
  {
    assert [f][0] == f;
  }

  lemma WorkPush(w: seq<Fn>, f: Fn, c: Id)
    ensures var v, v' := WorkOf(w, c), WorkOf(w + [f], c);
      && v'.est == v.est + Bit(f == EstablishFn(c))
      && v'.des == v.des + Bit(f == DestroyFn(c))
      && v'.rem == v.rem + Bit(f == RemoveFn(c))
      && v'.force == (v.force || f == ForceCloseFn(c))
      && v'.raw == (v.raw || Raw(f, c))
      && v'.rawShut == (v.rawShut || f == ShutdownFn(c))
      && v'.late == (v.late || (v.des > 0 && Raw(f, c)))
  {
    Single(f, c);
    RawJoin(w, [f], c);
    LateJoin(w, [f], c);
  }

  lemma WorkPop(w: seq<Fn>, c: Id)
    requires w != []
    ensures var f, v, v' := w[0], WorkOf(w, c), WorkOf(w[1..], c);
      && v.est == v'.est + Bit(f == EstablishFn(c))
      && v.des == v'.des + Bit(f == DestroyFn(c))
      && v.rem == v'.rem + Bit(f == RemoveFn(c))
      && v.force == (v'.force || f == ForceCloseFn(c))
      && v.raw == (v'.raw || Raw(f, c))
      && v.rawShut == (v'.rawShut || f == ShutdownFn(c))
      && v.late == (v'.late || (f == DestroyFn(c) && v'.raw))
  {
    assert w == [w[0]] + w[1..];
    Single(w[0], c);
    RawJoin([w[0]], w[1..], c);
    LateJoin([w[0]], w[1..], c);
  }

  /** The remaining work after a step of the queue protocol. */
  lemma WorkAfter(el: L.State<Fn>, a: L.Step<Fn>)
    requires L.Inv(el) && L.Enabled(el, a)
    ensures L.Inv(L.Apply(el, a)) && el.pos <= |el.batch| && L.Apply(el, a).pos <= |L.Apply(el, a).batch|
    ensures var w, w' := el.Work(), L.Apply(el, a).Work();
      && (a.OwnerPush? || a.OtherPush? ==> w' == w + [a.f])
      && (a.RunNext? ==> w != [] && w[0] == el.batch[el.pos] && w' == w[1..])
      && (!a.OwnerPush? && !a.OtherPush? && !a.RunNext? ==> w' == w)
  {
    L.StepKeepsInv(el, a);
    L.StepMovesWork(el, a);
    hide L.Apply, L.Inv;
  }
}
