/** The bytes of a connection over whole runs of the server, read off the steps: every message sent on
    its loop's thread or carried out by an off-loop send's functor, and every count write(2) reported. */
module ServerLedger {
  import opened Servers
  import opened ServerInvariant
  import opened ServerSteps
  import opened ServerExecution
  import opened ServerRefinement
  import S = Streams
  import L = LoopProtocol
  import B = Buffers

  /** The message of c that a step sends, and what write(2) would report of it. */
  datatype Sending = NotNow | Now(msg: seq<B.Byte>, r: S.WriteResult)

  ghost function SendingOf(s: State, st: Step, c: Id): Sending
    requires Enabled(s, st)
  {
    match st
    case UserCall(_, x, call, r) =>
      if x == c && call.Send? && TcpOf(s, c).state == S.Connected then Now(call.msg, r) else NotNow
    case RunNext(l, r) =>
      var f := s.loops[l].el.batch[s.loops[l].el.pos];
      if f.SendFn? && f.c == c && TcpOf(s, c).state != S.Disconnected then Now(f.msg, r) else NotNow
    case _ => NotNow
  }

  ghost function Sent(s: State, st: Step, c: Id): seq<B.Byte>
    requires Enabled(s, st)
  {
    var x := SendingOf(s, st, c);
    if x.Now? then x.msg else []
  }

  /** The message is tried at once: nothing is buffered before it. */
  predicate Direct(t: S.Tcp) { !t.interest.write && t.out == [] }

  /** The bytes of c that write(2) reports taking in a step: of a message tried at once, or of the
      buffer in handleWrite while write interest is on. */
  ghost function Reported(s: State, st: Step, c: Id): nat
    requires Enabled(s, st)
  {
    var t, x := TcpOf(s, c), SendingOf(s, st, c);
    if x.Now? then
      if Direct(t) && x.r.Wrote? then x.r.n else 0
    else if st.Advance? && s.loops[st.l].cur == c && s.loops[st.l].k[0] == Write then
      if t.interest.write && st.r.Wrote? then st.r.n else 0
    else 0
  }

  /** The message is tried at once and given up, the connection being broken. */
  ghost predicate GivenUp(s: State, st: Step, c: Id)
    requires Enabled(s, st)
  {
    var x := SendingOf(s, st, c);
    x.Now? && Direct(TcpOf(s, c)) && x.r.Broken?
  }

  /** What the act of a step says of the same. */
  lemma ActSays(s: State, st: Step, c: Id)
    requires Enabled(s, st)
    ensures var t, acts := TcpOf(s, c), ActOf(s, st, c);
      && (acts == [] ==> Sent(s, st, c) == [] && Reported(s, st, c) == 0)
      && (acts != [] ==> S.Message(t, acts[0]) == Sent(s, st, c) && S.Reported(t, acts[0]) == Reported(s, st, c))
      && (acts != [] && Sent(s, st, c) != [] ==> (S.GivenUp(t, acts[0]) <==> GivenUp(s, st, c)))
  {
    hide Alive, L.Apply, L.Enabled;
    if st.UserCall? { AliveKnown(s, st.c); }
  }

  /** One step: the account grows by the message, the wire by what was reported, wire and buffer
      together by the message unless it is given up. */
  lemma StepLedger(s: State, st: Step, c: Id)
    requires Enabled(s, st) && Atomic(st)
    requires Inv(s)
    ensures var t, u, msg := TcpOf(s, c), TcpOf(Apply(s, st), c), Sent(s, st, c);
      && u.accepted == t.accepted + msg
      && t.wire <= u.wire && |u.wire| == |t.wire| + Reported(s, st, c)
      && u.wire + u.out == t.wire + t.out + (if GivenUp(s, st, c) then [] else msg)
  {
    hide Inv, Enabled, Apply, Atomic, ActOf, Sent, Reported, GivenUp, S.Do, S.Enabled, S.Message, S.Reported, S.GivenUp;
    var t := TcpOf(s, c);
    StepDoes(s, st, c);
    StreamInv(s, c);
    ActSays(s, st, c);
    assert t.accepted + [] == t.accepted && t.wire + t.out + [] == t.wire + t.out && t.wire + [] == t.wire;
    var acts := ActOf(s, st, c);
    if acts != [] { S.ActAccounts(s.cfg, t, acts[0]); }
  }

  ghost function SentIn(s: State, run: seq<Step>, c: Id): seq<B.Byte>
    requires Executable(s, run)
    decreases |run|
  {
    if run == [] then [] else Sent(s, run[0], c) + SentIn(Apply(s, run[0]), run[1..], c)
  }

  /** Without the messages given up. */
  ghost function DeliveredIn(s: State, run: seq<Step>, c: Id): seq<B.Byte>
    requires Executable(s, run)
    decreases |run|
  {
    if run == [] then [] else
      (if GivenUp(s, run[0], c) then [] else Sent(s, run[0], c)) + DeliveredIn(Apply(s, run[0]), run[1..], c)
  }

  ghost function ReportedIn(s: State, run: seq<Step>, c: Id): nat
    requires Executable(s, run)
    decreases |run|
  {
    if run == [] then 0 else Reported(s, run[0], c) + ReportedIn(Apply(s, run[0]), run[1..], c)
  }

  lemma {:induction false} RunLedger(s: State, run: seq<Step>, c: Id)
    requires Executable(s, run) && (forall i :: 0 <= i < |run| ==> Atomic(run[i]))
    requires Inv(s)
    ensures var t, u := TcpOf(s, c), TcpOf(Exec(s, run), c);
      && u.accepted == t.accepted + SentIn(s, run, c) && |u.wire| == |t.wire| + ReportedIn(s, run, c)
      && u.wire + u.out == t.wire + t.out + DeliveredIn(s, run, c)
    decreases |run|
  {
    hide Inv, Enabled, Apply, Atomic, TcpOf, Sent, Reported, GivenUp;
    var t := TcpOf(s, c);
    if run == [] {
      assert t.accepted + [] == t.accepted && t.wire + t.out + [] == t.wire + t.out;
    } else {
      var a, m, d := Apply(s, run[0]), Sent(s, run[0], c), if GivenUp(s, run[0], c) then [] else Sent(s, run[0], c);
      StepLedger(s, run[0], c);
      StepKeepsInv(s, run[0]);
      RunLedger(a, run[1..], c);
      L.Regroup(t.accepted, m, SentIn(a, run[1..], c));
      L.Regroup(t.wire + t.out, d, DeliveredIn(a, run[1..], c));
    }
  }

  /** From the start of the server on: a connection has accepted exactly what was sent on it, in the
      order the sends were carried out; its wire holds exactly as many bytes as write(2) reported
      taking, from the front of what was sent and not given up, and its buffer the rest. */
  lemma WireIsReported(s: State, run: seq<Step>, c: Id)
    requires Init(s) && Executable(s, run) && (forall i :: 0 <= i < |run| ==> Atomic(run[i]))
    ensures var u, n, all := TcpOf(Exec(s, run), c), ReportedIn(s, run, c), DeliveredIn(s, run, c);
      && u.accepted == SentIn(s, run, c)
      && n <= |all| && u.wire == all[..n] && u.out == all[n..]
  {
    hide Inv, Enabled, Apply, Atomic;
    InitInv(s);
    RunLedger(s, run, c);
    var u, all := TcpOf(Exec(s, run), c), DeliveredIn(s, run, c);
    assert [] + SentIn(s, run, c) == SentIn(s, run, c) && [] + [] + all == all;
    S.SplitBy(u.wire, u.out, all);
  }
}
