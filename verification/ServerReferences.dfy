/** Who keeps a connection alive, and hence its descriptor its own. */
module ServerReferences {
  import opened Servers
  import opened ServerInvariant
  import opened ServerLoops
  import opened ServerSteps
  import R = Registration
  import S = Streams
  import L = LoopProtocol

  /** The channel of a connection tells its interest, and is registered while the connection is up. */
  lemma ChannelKnown(s: State, c: Id)
    requires c in s.conns && ConnInv(s, c)
    ensures s.conns[c].loop in s.loops && c in s.loops[s.conns[c].loop].poller.chans
    ensures var ch, cn := s.loops[s.conns[c].loop].poller.chans[c], s.conns[c];
      && ch.fd == cn.fd && ch.events == cn.tcp.interest
      && (cn.tcp.state == S.Connected || cn.tcp.state == S.Disconnecting ==> ch.index == R.Added)
    ensures S.Inv(s.conns[c].tcp)
  {
    hide S.Inv, Token, PinOk, RawOk, Calm, InMap, Seen, PlaceOk, TallyOf;
    SeenParts(s.loops[s.conns[c].loop], c);
  }

  lemma KnownKeys(lp: Loop, ids: set<Id>)
    requires KnownOk(ids, lp)
    ensures lp.poller.chans.Keys <= ids && KnownActive(lp.active, ids)
  {
  }

  lemma WorkHolds(lp: Loop, f: Fn, c: Id)
    requires lp.el.pos <= |lp.el.batch| && f in lp.el.Work() && Strong(f, c)
    ensures HoldsRef(lp, c)
  {
    var w, n := lp.el.Work(), |lp.el.batch| - lp.el.pos;
    var i :| 0 <= i < |w| && w[i] == f;
    if i < n {
      assert lp.el.batch[lp.el.pos + i] == f;
    } else {
      assert lp.el.pending[i - n] == f;
    }
  }

  lemma PinnedHolds(lp: Loop, c: Id)
    requires Pinned(lp, c) && (lp.el.pos <= |lp.el.batch|)
    ensures HoldsRef(lp, c)
  {
  }

  lemma SeenPin(lp: Loop, c: Id)
    requires Seen(lp, c).pin
    ensures Pinned(lp, c)
  {
    hide Counts, Work, WorkOf, OpCounts.Total;
  }

  /** A functor or a part of a handler that holds a reference to c. */
  lemma SeenHolds(s: State, l: nat, c: Id)
    requires c in s.conns && l in s.loops && LoopOk(s.loops[l])
    requires var v := Seen(s.loops[l], c); v.work.des > 0 || v.work.rem > 0 || v.pin
    ensures Alive(s, c)
  {
    hide Seen, HoldsRef, L.Inv, R.Consistent, Work, WorkOf, InMap;
    var lp := s.loops[l];
    LoopParts(lp);
    WorkIs(lp);
    SeenParts(lp, c);
    if Seen(lp, c).pin {
      SeenPin(lp, c);
      PinnedHolds(lp, c);
    } else {
      assert DestroyFn(c) in lp.el.Work() || RemoveFn(c) in lp.el.Work() by { CountedIn(lp.el.Work(), c); }
      if DestroyFn(c) in lp.el.Work() { WorkHolds(lp, DestroyFn(c), c); } else { WorkHolds(lp, RemoveFn(c), c); }
    }
    assert HoldsRef(s.loops[l], c);
  }

  lemma CountedIn(w: seq<Fn>, c: Id)
    ensures WorkOf(w, c).des > 0 ==> DestroyFn(c) in w
    ensures WorkOf(w, c).rem > 0 ==> RemoveFn(c) in w
  {
  }

  /** A connection not closed, or with a handleClose that still waits for its connectDestroyed. */
  predicate Unfinished(cn: Conn) {
    var t := TallyOf(cn.log);
    t.closed == 0 || t.closed > t.destroyed
  }

  lemma LivePlace(cn: Conn, io: Shape, ba: Shape, same: bool, inMap: bool)
    requires ConnOk(cn, io, ba, same, inMap)
    ensures Unfinished(cn) ==> inMap || io.work.des > 0 || ba.work.rem > 0 || io.pin || ba.pin
    ensures io.chan.Some? && io.chan.value.fd == cn.fd && (io.chan.value.index != R.New ==> Unfinished(cn))
  {
    hide S.Inv, RawOk, Calm, TallyOf, StateOk;
  }

  /** It is in the map, or some functor or handler on its way through the loops keeps it. */
  lemma UnfinishedIsAlive(s: State, c: Id)
    requires Inv(s) && c in s.conns && Unfinished(s.conns[c])
    ensures Alive(s, c)
  {
    hide Inv, ConnInv, LoopOk, KnownOk, StaticOk, ConnOk, PlaceOk, Seen, InMap, HoldsRef, Unfinished, Alive;
    Parts(s, 0, c);
    Views(s, c);
    var cn := s.conns[c];
    Parts(s, cn.loop, c);
    Parts(s, s.base, c);
    var io, ba := Seen(s.loops[cn.loop], c), Seen(s.loops[s.base], c);
    LivePlace(cn, io, ba, cn.loop == s.base, InMap(s, c));
    MapIsAlive(s);
    if io.work.des > 0 || io.pin {
      SeenHolds(s, cn.loop, c);
    } else if ba.work.rem > 0 || ba.pin {
      SeenHolds(s, s.base, c);
    }
  }

  lemma RegisteredHere(s: State, l: nat, d: Id)
    requires l in s.loops && d in s.conns && ConnInv(s, d) && d in s.loops[l].poller.chans
    requires s.loops[l].poller.chans[d].index != R.New
    ensures s.conns[d].loop == l && Unfinished(s.conns[d]) && s.loops[l].poller.chans[d].fd == s.conns[d].fd
  {
    hide ConnOk, InMap, Seen, Unfinished;
    SeenParts(s.loops[l], d);
    Views(s, d);
    PlaceAt(s, l, d);
    assert s.conns[d].loop == l;
    LivePlace(s.conns[d], Seen(s.loops[l], d), Seen(s.loops[s.base], d), l == s.base, InMap(s, d));
  }

  /** So no other registered channel of its poller has a live connection's descriptor. */
  lemma OwnFd(s: State, c: Id)
    requires Inv(s) && c in s.conns && Alive(s, c)
    requires s.conns[c].loop in s.loops && c in s.loops[s.conns[c].loop].poller.chans
    ensures R.OwnDescriptor(s.loops[s.conns[c].loop].poller, c)
  {
    hide Inv, ConnInv, LoopOk, KnownOk, StaticOk, Seen, InMap, HoldsRef, Alive, R.Consistent, Unfinished;
    var l := s.conns[c].loop;
    var p := s.loops[l].poller;
    Parts(s, l, c);
    ChannelKnown(s, c);
    KnownKeys(s.loops[l], s.conns.Keys);
    Fds(s);
    forall d | d in p.chans && d != c && p.chans[d].index != R.New ensures p.chans[d].fd != p.chans[c].fd {
      Parts(s, l, d);
      RegisteredHere(s, l, d);
      UnfinishedIsAlive(s, d);
    }
  }

  lemma Fds(s: State)
    requires Inv(s)
    ensures forall c, d :: Alive(s, c) && Alive(s, d) && c != d ==>
              c in s.conns && d in s.conns && s.conns[c].fd != s.conns[d].fd
  {
    hide ConnInv, LoopOk, KnownOk, StaticOk, InMap, HoldsRef;
  }
}
