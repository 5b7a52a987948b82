/** The TcpServer object on its base loop: the map of connections, the id counter, and the
    functors it hands to its own loop and to the io loops. */
module TcpServers {
  import opened EventLoops
  import opened Servers
  import R = Registration
  import S = Streams
  import T = ThreadPools
  import Names

  /** What the object shows of a state: its own fields and the queues of its loops. */
  datatype Front = Front(base: nat, prefix: string, pool: seq<nat>, next: nat, nextId: nat,
                         connections: map<string, Id>, queues: map<nat, seq<Fn>>)

  function FrontOf(s: State): Front {
    Front(s.base, s.prefix, s.pool, s.next, s.nextId, s.connections, map l | l in s.loops :: s.loops[l].el.pending)
  }

  /** The queues after f was handed to loop l from the base loop: run at once there, queued elsewhere. */
  function Handed(q: Front, l: nat, f: Fn): map<nat, seq<Fn>> {
    if l == q.base || l !in q.queues then q.queues else q.queues[l := q.queues[l] + [f]]
  }

  function AfterAccept(q: Front): Front
    requires q.pool == [] || q.next < |q.pool|
  {
    var c := q.nextId;
    q.(next := T.Advance(|q.pool|, q.next), nextId := c + 1,
       connections := q.connections[Names.ConnName(q.prefix, c) := c],
       queues := Handed(q, T.Pick(q.base, q.pool, q.next), EstablishFn(c)))
  }

  /** removeConnection of c on loop l. */
  function AfterReport(q: Front, c: Id, l: nat): Front {
    if l == q.base || q.base !in q.queues then q
    else q.(queues := q.queues[q.base := q.queues[q.base] + [RemoveFn(c)]])
  }

  /** removeConnectionInLoop of c, whose loop is io. */
  function AfterErase(q: Front, c: Id, io: nat): Front {
    q.(connections := q.connections - {Names.ConnName(q.prefix, c)}, queues := Handed(q, io, DestroyFn(c)))
  }

  lemma QueuesSet(s: State, l: nat, lp: Loop)
    requires l in s.loops
    ensures FrontOf(OnLoop(s, l, lp)) == FrontOf(s).(queues := FrontOf(s).queues[l := lp.el.pending])
    ensures FrontOf(s).queues[l := s.loops[l].el.pending] == FrontOf(s).queues
  {
    assert FrontOf(OnLoop(s, l, lp)).queues == FrontOf(s).queues[l := lp.el.pending];
  }

  /** The server's step Accept, as the object shows it. */
  lemma AcceptFront(s: State, fd: int)
    requires CanAccept(s, fd)
    ensures FrontOf(DoAccept(s, fd)) == AfterAccept(FrontOf(s))
  {
    hide Alive, R.Create, Names.ConnName;
    var io, t := T.Pick(s.base, s.pool, s.next), DoAccept(s, fd);
    QueuesSet(s, io, t.loops[io]);
    assert FrontOf(t).queues == FrontOf(OnLoop(s, io, t.loops[io])).queues;
  }

  /** Loop l is about to call c's closeCallback_. */
  predicate Reports(s: State, l: nat, c: Id, r: S.WriteResult) {
    CanAdvance(s, l, r) && s.loops[l].k[0] == Report && s.loops[l].cur == c
  }

  lemma ReportFront(s: State, l: nat, c: Id, r: S.WriteResult)
    requires Reports(s, l, c, r)
    ensures CanAdvance(s, l, r) && FrontOf(DoAdvance(s, l, 0, r)) == AfterReport(FrontOf(s), c, l)
  {
    hide Names.ConnName;
    var t, lp := DoAdvance(s, l, 0, r), s.loops[l];
    var u := OnLoop(s, l, t.loops[l]);
    QueuesSet(s, l, t.loops[l]);
    if l != s.base { QueuesSet(u, s.base, t.loops[s.base]); }
  }

  /** The base loop is about to erase c, whose loop is io. */
  predicate Erases(s: State, c: Id, io: nat, r: S.WriteResult) {
    CanAdvance(s, s.base, r) && s.loops[s.base].k[0] == Erase && s.loops[s.base].cur == c && s.conns[c].loop == io
  }

  lemma EraseFront(s: State, c: Id, io: nat, r: S.WriteResult)
    requires Erases(s, c, io, r)
    ensures CanAdvance(s, s.base, r) && FrontOf(DoAdvance(s, s.base, 0, r)) == AfterErase(FrontOf(s), c, io)
  {
    hide Names.ConnName;
    var l, t := s.base, DoAdvance(s, s.base, 0, r);
    var u := OnLoop(s, l, t.loops[l]);
    QueuesSet(s, l, t.loops[l]);
    if io != l { QueuesSet(u, io, t.loops[io]); }
    assert FrontOf(t).queues == (if io == l then FrontOf(u) else FrontOf(OnLoop(u, io, t.loops[io]))).queues;
  }

  class TcpServer {
    const base: nat
    const prefix: string
    const loops: map<nat, EventLoop<Fn>>  // the loop objects by number
    const pool: T.EventLoopThreadPool<nat>
    var nextConnId: nat
    var connections: map<string, Id>
    var started: nat

    ghost predicate Valid()
      reads this, pool
    {
      && base in loops && pool.baseLoop == base && pool.Valid()
      && (forall i :: 0 <= i < |pool.loops| ==> pool.loops[i] in loops && pool.loops[i] != base)
      && (forall l, m :: l in loops && m in loops && l != m ==> loops[l] != loops[m])
      && 1 <= nextConnId
      && (forall nm :: nm in connections ==>
            nm == Names.ConnName(prefix, connections[nm]) && 1 <= connections[nm] < nextConnId)
    }

    function At(l: nat): EventLoop<Fn>
      requires l in loops
    {
      loops[l]
    }

    ghost function Shown(): Front
      reads this, pool, set l | l in loops :: loops[l]
    {
      Front(base, prefix, pool.loops, pool.next, nextConnId, connections,
            map l | l in loops :: loops[l].pendingFunctors)
    }

    /** The object and the loops' queues are what a state of module Servers says. */
    ghost predicate Shows(s: State)
      reads this, pool, set l | l in loops :: loops[l]
    {
      Shown() == FrontOf(s)
    }

    constructor (base: nat, prefix: string, loops: map<nat, EventLoop<Fn>>, pool: T.EventLoopThreadPool<nat>)
      requires base in loops && pool.baseLoop == base && pool.Valid()
      requires forall i :: 0 <= i < |pool.loops| ==> pool.loops[i] in loops && pool.loops[i] != base
      requires forall l, m :: l in loops && m in loops && l != m ==> loops[l] != loops[m]
      ensures Valid() && connections == map[] && nextConnId == 1 && started == 0
      ensures this.base == base && this.prefix == prefix && this.loops == loops && this.pool == pool
    {
      this.base, this.prefix, this.loops, this.pool := base, prefix, loops, pool;
      nextConnId, connections, started := 1, map[], 0;
    }

    /** Only the first call starts anything; `listen` says whether this one did. */
    method Start(made: nat -> nat, hasCallback: bool) returns (listen: bool)
      requires Valid()
      requires forall i: nat :: i < pool.numThreads ==> made(i) in loops && made(i) != base
      modifies `started, pool
      ensures Valid() && started == old(started) + 1 && (listen <==> old(started) == 0)
      ensures listen ==> |pool.loops| == |old(pool.loops)| + pool.numThreads && old(pool.loops) <= pool.loops
      ensures listen ==> forall i :: 0 <= i < pool.numThreads ==> pool.loops[|old(pool.loops)| + i] == made(i)
      ensures !listen ==> unchanged(pool)
    {
      started := started + 1;
      listen := started == 1;
      if listen {
        ghost var before := pool.loops;
        var onBase := pool.Start(made, hasCallback);
        forall i | 0 <= i < |pool.loops| ensures pool.loops[i] in loops && pool.loops[i] != base {
          assert pool.loops[i] == if i < |before| then before[i] else made(i - |before|);
        }
      }
    }

    /** Hands f to loop l from the base loop's thread: run at once there, queued elsewhere. */
    method Hand(l: nat, f: Fn) returns (now: seq<Fn>)
      requires Valid() && l in loops
      modifies At(l)`pendingFunctors, At(l)`wakeupFd, At(l)`pushed
      ensures Valid()
      ensures l == base ==> now == [f] && unchanged(loops[l])
      ensures l != base ==> now == [] && loops[l].pendingFunctors == old(loops[l].pendingFunctors) + [f]
                            && loops[l].wakeupFd == old(loops[l].wakeupFd) + 1
    {
      now := loops[l].RunInLoop(f, l == base);
    }

    /** A new id, and its entry under a name that had none. */
    method Insert() returns (c: Id)
      requires Valid()
      modifies `nextConnId, `connections
      ensures Valid() && c == old(nextConnId) && nextConnId == c + 1
      ensures var nm := Names.ConnName(prefix, c); nm !in old(connections) && connections == old(connections)[nm := c]
    {
      c := nextConnId;
      nextConnId := nextConnId + 1;
      var name := Names.ConnName(prefix, c);
      if name in connections {
        Names.ConnNameInjective(prefix, c, connections[name]);
      }
      connections := connections[name := c];
    }

    /** connections_.erase takes c's own entry and no other. */
    method Remove(c: Id)
      requires Valid()
      modifies `connections
      ensures Valid() && connections == old(connections) - {Names.ConnName(prefix, c)} && c !in connections.Values
      ensures forall nm :: nm in connections <==> nm in old(connections) && old(connections)[nm] != c
    {
      var name := Names.ConnName(prefix, c);
      if name in connections {
        Names.ConnNameInjective(prefix, c, connections[name]);
      }
      connections := connections - {name};
    }

    /** newConnection: a name no connection in the map has, the pool's next loop, and
        connectEstablished on that loop, at once only if it is the base loop. */
    method NewConnection() returns (c: Id, io: nat, now: seq<Fn>)
      requires Valid()
      modifies `nextConnId, `connections, pool`next, pool`calls
      modifies set l | l in loops :: loops[l]
      ensures Valid() && c == old(nextConnId) && nextConnId == c + 1
      ensures var nm := Names.ConnName(prefix, c); nm !in old(connections) && connections == old(connections)[nm := c]
      ensures io in loops && io == T.Pick(base, pool.loops, old(pool.next))
      ensures pool.next == T.Advance(|pool.loops|, old(pool.next))
      ensures pool.loops == old(pool.loops)
      ensures io == base <==> pool.loops == []
      ensures io == base ==> now == [EstablishFn(c)] && unchanged(loops[io])
      ensures io != base ==> now == [] && loops[io].wakeupFd == old(loops[io].wakeupFd) + 1
      ensures io != base ==> loops[io].pendingFunctors == old(loops[io].pendingFunctors) + [EstablishFn(c)]
      ensures forall l :: l in loops && l != io ==> unchanged(loops[l])
      ensures Shown() == AfterAccept(old(Shown()))
      ensures forall s, fd :: old(Shows(s)) && CanAccept(s, fd) ==> Shows(DoAccept(s, fd))
    {
      hide CanAccept, DoAccept, Names.ConnName, T.Advance, T.Pick;
      io := pool.GetNextLoop();
      c := Insert();
      now := Hand(io, EstablishFn(c));
      assert Shown().queues == Handed(old(Shown()), io, EstablishFn(c));
      forall s, fd | old(Shows(s)) && CanAccept(s, fd) ensures Shows(DoAccept(s, fd)) { AcceptFront(s, fd); }
    }

    /** removeConnection, called on loop l's thread. */
    method RemoveConnection(c: Id, l: nat) returns (now: seq<Fn>)
      requires Valid()
      modifies At(base)`pendingFunctors, At(base)`wakeupFd, At(base)`pushed
      ensures Valid()
      ensures l == base ==> now == [RemoveFn(c)] && unchanged(loops[base])
      ensures l != base ==> now == [] && loops[base].wakeupFd == old(loops[base].wakeupFd) + 1
      ensures l != base ==> loops[base].pendingFunctors == old(loops[base].pendingFunctors) + [RemoveFn(c)]
      ensures Shown() == AfterReport(old(Shown()), c, l)
      ensures forall s, r :: old(Shows(s)) && Reports(s, l, c, r) ==> Shows(DoAdvance(s, l, 0, r))
    {
      hide CanAdvance, DoAdvance, Reports;
      now := loops[base].RunInLoop(RemoveFn(c), l == base);
      assert Shown().queues == AfterReport(old(Shown()), c, l).queues;
      forall s, r | old(Shows(s)) && Reports(s, l, c, r)
        ensures CanAdvance(s, l, r) && Shows(DoAdvance(s, l, 0, r))
      {
        ReportFront(s, l, c, r);
      }
    }

    /** removeConnectionInLoop: exactly c's entry goes, and connectDestroyed is handed to its loop io. */
    method RemoveConnectionInLoop(c: Id, io: nat) returns (now: seq<Fn>)
      requires Valid() && io in loops
      modifies `connections, At(io)`pendingFunctors, At(io)`wakeupFd, At(io)`pushed
      ensures Valid() && connections == old(connections) - {Names.ConnName(prefix, c)} && c !in connections.Values
      ensures forall nm :: nm in connections <==> nm in old(connections) && old(connections)[nm] != c
      ensures io == base ==> now == [DestroyFn(c)] && unchanged(loops[io])
      ensures io != base ==> now == [] && loops[io].wakeupFd == old(loops[io].wakeupFd) + 1
      ensures io != base ==> loops[io].pendingFunctors == old(loops[io].pendingFunctors) + [DestroyFn(c)]
      ensures Shown() == AfterErase(old(Shown()), c, io)
      ensures forall s, r :: old(Shows(s)) && Erases(s, c, io, r) ==> Shows(DoAdvance(s, base, 0, r))
    {
      hide CanAdvance, DoAdvance, Erases, Names.ConnName;
      Remove(c);
      now := Hand(io, DestroyFn(c));
      assert Shown().queues == Handed(old(Shown()), io, DestroyFn(c));
      forall s, r | old(Shows(s)) && Erases(s, c, io, r)
        ensures CanAdvance(s, base, r) && Shows(DoAdvance(s, base, 0, r))
      {
        EraseFront(s, c, io, r);
      }
    }
  }
}
