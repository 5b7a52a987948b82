/** TcpConnection.cc: the state of one connection and its output path, first as a value with one
    function per handler, then as the object whose methods are those functions. */
module Streams {
  import opened Buffers
  import opened Registration

  datatype ConnState = Connecting | Connected | Disconnecting | Disconnected

  /** Which callbacks are installed, and highWaterMark_. */
  datatype Config = Config(writeComplete: bool, highWater: bool, mark: nat)

  /** Functors a handler queues for user callbacks. */
  datatype Notice = WriteComplete | HighWater(pending: nat)

  /** What write(2) reported: a count, EWOULDBLOCK, EPIPE or ECONNRESET, or any other error. */
  datatype WriteResult = Wrote(n: nat) | WouldBlock | Broken | OtherError

  /** state_, the channel's interest, outputBuffer_'s content, the bytes the kernel took, whether
      the write side is shut; `accepted` concatenates the messages sendInLoop took on, `lost`
      counts those of their bytes given up on a broken connection. */
  datatype Tcp = Tcp(state: ConnState, interest: Interest, out: seq<Byte>, wire: seq<Byte>, shut: bool,
                     accepted: seq<Byte>, lost: nat)

  const FRESH := Tcp(Connecting, NONE_EVENT, [], [], false, [], 0)

  datatype Outcome = Outcome(tcp: Tcp, notices: seq<Notice>)

  function If<T>(b: bool, x: T): seq<T> { if b then [x] else [] }

  /** The kernel writes no more than it is given, and nothing after the write side is shut. */
  predicate Fits(t: Tcp, len: nat, r: WriteResult) {
    (r.Wrote? ==> r.n <= len) && (t.shut && len > 0 ==> r.Broken?)
  }

  function Established(t: Tcp): Tcp {
    t.(state := Connected, interest := t.interest.(read := true))
  }

  /** The tail of sendInLoop: what the direct write left over is buffered. */
  function Buffered(cfg: Config, t: Tcp, remaining: seq<Byte>): Outcome {
    if remaining == [] then Outcome(t, []) else
    Outcome(t.(out := t.out + remaining, interest := t.interest.(write := true)),
            If(|t.out| + |remaining| >= cfg.mark && |t.out| < cfg.mark && cfg.highWater,
               HighWater(|t.out| + |remaining|)))
  }

  function SendInLoop(cfg: Config, t: Tcp, message: seq<Byte>, r: WriteResult): Outcome
    requires r.Wrote? ==> r.n <= |message|
  {
    if t.state == Disconnected then Outcome(t, [])
    else
      var u := t.(accepted := t.accepted + message);
      if t.interest.write || t.out != [] then Buffered(cfg, u, message)
      else if r.Wrote? then
        var o := Buffered(cfg, u.(wire := u.wire + message[..r.n]), message[r.n..]);
        o.(notices := If(r.n == |message| && cfg.writeComplete, WriteComplete) + o.notices)
      else if r.Broken? then Outcome(u.(lost := u.lost + |message|), [])
      else Buffered(cfg, u, message)
  }

  predicate Drains(t: Tcp, r: WriteResult) {
    t.interest.write && r.Wrote? && 0 < r.n == |t.out|
  }

  /** handleWrite up to its test of state_. */
  function HandleWrite(cfg: Config, t: Tcp, r: WriteResult): Outcome
    requires r.Wrote? ==> r.n <= |t.out|
  {
    if t.interest.write && r.Wrote? && r.n > 0 then
      var u := t.(wire := t.wire + t.out[..r.n], out := t.out[r.n..]);
      if u.out == [] then Outcome(u.(interest := u.interest.(write := false)), If(cfg.writeComplete, WriteComplete))
      else Outcome(u, [])
    else Outcome(t, [])
  }

  function ShutdownInLoop(t: Tcp): Tcp {
    if !t.interest.write then t.(shut := true) else t
  }

  /** handleWrite from its test of state_, reached when the write drained the buffer. */
  function DrainCheck(t: Tcp): Tcp {
    if t.state == Disconnecting then ShutdownInLoop(t) else t
  }

  function Closed(t: Tcp): Tcp {
    t.(state := Disconnected, interest := NONE_EVENT)
  }

  /** The test and store that shutdown() and forceClose() make. */
  function ShutdownRequested(t: Tcp): Tcp {
    if t.state == Connected then t.(state := Disconnecting) else t
  }

  function CloseRequested(t: Tcp): Tcp {
    if t.state == Connected || t.state == Disconnecting then t.(state := Disconnecting) else t
  }

  /** Everything that can happen to one connection, from its own thread (Send, Shutdown: the whole
      call; Ready, Drain, Close: handlers; RawSend, RawShutdown: functors pushed by other threads)
      and from others (Request: the store to state_ of an off-loop shutdown or forceClose). */
  datatype Act =
    | Establish | Send(msg: seq<Byte>, r: WriteResult) | Shutdown | Ready(r: WriteResult) | Drain | Close
    | RawSend(msg: seq<Byte>, r: WriteResult) | RawShutdown | Request

  predicate Enabled(t: Tcp, a: Act) {
    match a
    case Establish => t.state == Connecting
    case Send(msg, r) => Fits(t, |msg|, r)
    case RawSend(msg, r) => t.state != Connecting && Fits(t, |msg|, r)
    case RawShutdown => t.state == Disconnecting || t.state == Disconnected
    case Ready(r) => Fits(t, |t.out|, r)
    case Shutdown | Drain | Request => true
    case Close => t.state != Connecting
  }

  function Do(cfg: Config, t: Tcp, a: Act): Outcome
    requires Enabled(t, a)
  {
    match a
    case Establish => Outcome(Established(t), [])
    case Send(msg, r) => if t.state == Connected then SendInLoop(cfg, t, msg, r) else Outcome(t, [])
    case RawSend(msg, r) => SendInLoop(cfg, t, msg, r)
    case Shutdown => Outcome(if t.state == Connected then ShutdownInLoop(ShutdownRequested(t)) else t, [])
    case RawShutdown => Outcome(ShutdownInLoop(t), [])
    case Request => Outcome(CloseRequested(t), [])
    case Ready(r) => HandleWrite(cfg, t, r)
    case Drain => Outcome(DrainCheck(t), [])
    case Close => Outcome(Closed(t), [])
  }

  /** The bytes add up, and until some were lost they are the accepted ones in order. */
  predicate Conserves(t: Tcp) {
    |t.wire| + |t.out| + t.lost == |t.accepted| && (t.lost == 0 ==> t.wire + t.out == t.accepted)
  }

  /** Conservation, and what the interest mask says in each state. */
  predicate Inv(t: Tcp) {
    && Conserves(t)
    && (t.state == Connecting ==> t == FRESH)
    && (t.state == Connected || t.state == Disconnecting ==> t.interest == Interest(true, t.out != []))
    && (t.state == Disconnected ==> t.interest == NONE_EVENT)
  }

  lemma ActKeepsInv(cfg: Config, t: Tcp, a: Act)
    requires Inv(t) && Enabled(t, a)
    ensures Inv(Do(cfg, t, a).tcp)
  {
    var u := Do(cfg, t, a).tcp;
    match a {
      case Send(msg, r) =>
        if t.state == Connected { SendKeepsInv(cfg, t, msg, r); }
      case RawSend(msg, r) => SendKeepsInv(cfg, t, msg, r);
      case Ready(r) =>
        if r.Wrote? {
          assert t.out == t.out[..r.n] + t.out[r.n..];
          assert u != t ==> u.wire + u.out == t.wire + t.out;
        }
      case _ =>
    }
  }

  /** What one send does to the byte accounts: it extends `accepted` by the message, and the wire
      and buffer together by the message, or by nothing when the message is lost. */
  lemma SendAccounts(cfg: Config, t: Tcp, msg: seq<Byte>, r: WriteResult)
    requires t.state != Disconnected && Fits(t, |msg|, r)
    ensures var u := SendInLoop(cfg, t, msg, r).tcp;
            && u.accepted == t.accepted + msg && u.state == t.state && u.shut == t.shut
            && ((u.lost == t.lost && u.wire + u.out == t.wire + t.out + msg)
                || (u == t.(accepted := u.accepted, lost := t.lost + |msg|)))
  {
    var u := SendInLoop(cfg, t, msg, r).tcp;
    if t.interest.write || t.out != [] || r.WouldBlock? || r.OtherError? {
      BufferedAccounts(cfg, t.(accepted := t.accepted + msg), msg);
    } else if r.Wrote? {
      var w := t.(accepted := t.accepted + msg, wire := t.wire + msg[..r.n]);
      BufferedAccounts(cfg, w, msg[r.n..]);
      assert msg == msg[..r.n] + msg[r.n..];
      assert t.wire + t.out == t.wire;
      assert (t.wire + msg[..r.n]) + msg[r.n..] == t.wire + (msg[..r.n] + msg[r.n..]);
    }
  }

  lemma BufferedAccounts(cfg: Config, t: Tcp, rest: seq<Byte>)
    ensures var u := Buffered(cfg, t, rest).tcp;
            && u.wire + u.out == t.wire + t.out + rest && u.out == t.out + rest
            && u == t.(out := u.out, interest := u.interest)
            && u.interest == if rest == [] then t.interest else t.interest.(write := true)
  {
    assert t.wire + (t.out + rest) == t.wire + t.out + rest;
    assert t.out + [] == t.out;
  }

  lemma SendKeepsInv(cfg: Config, t: Tcp, msg: seq<Byte>, r: WriteResult)
    requires Inv(t) && t.state != Connecting && Fits(t, |msg|, r)
    ensures Inv(SendInLoop(cfg, t, msg, r).tcp)
  {
    if t.state != Disconnected {
      SendAccounts(cfg, t, msg, r);
      var u := SendInLoop(cfg, t, msg, r).tcp;
      assert |u.wire + u.out| == |u.wire| + |u.out|;
    }
  }

  /** The states of a run, one more than its acts. */
  ghost predicate IsRun(cfg: Config, ts: seq<Tcp>, acts: seq<Act>) {
    && |ts| == |acts| + 1 && ts[0] == FRESH
    && forall i :: 0 <= i < |acts| ==> Enabled(ts[i], acts[i]) && ts[i + 1] == Do(cfg, ts[i], acts[i]).tcp
  }

  lemma {:induction false} RunInv(cfg: Config, ts: seq<Tcp>, acts: seq<Act>, i: nat)
    requires IsRun(cfg, ts, acts) && i < |ts|
    ensures Inv(ts[i])
  {
    if i > 0 {
      RunInv(cfg, ts, acts, i - 1);
      ActKeepsInv(cfg, ts[i - 1], acts[i - 1]);
    }
  }

  /** Byte conservation, for every interleaving and every partial write: until a message is given
      up on a broken connection, wire then buffer is everything accepted, in order; afterwards the
      counts still add up. While the connection is up, the channel asks to write exactly when
      something is buffered. */
  lemma ByteConservation(cfg: Config, ts: seq<Tcp>, acts: seq<Act>, i: nat)
    requires IsRun(cfg, ts, acts) && i < |ts|
    ensures ts[i].lost == 0 ==> ts[i].wire + ts[i].out == ts[i].accepted
    ensures |ts[i].wire| + |ts[i].out| + ts[i].lost == |ts[i].accepted|
    ensures ts[i].state != Disconnected ==> (ts[i].interest.write <==> ts[i].out != [])
  {
    RunInv(cfg, ts, acts, i);
  }

  // ---- what a run was decides what the stream is ----

  /** How many bytes write(2) reported taking in an act: in handleWrite while write interest is on,
      and in a send carried out while nothing is buffered. */
  function Reported(t: Tcp, a: Act): nat {
    match a
    case Ready(r) => if t.interest.write && r.Wrote? then r.n else 0
    case Send(_, r) => if t.state == Connected && !t.interest.write && t.out == [] && r.Wrote? then r.n else 0
    case RawSend(_, r) => if t.state != Disconnected && !t.interest.write && t.out == [] && r.Wrote? then r.n else 0
    case _ => 0
  }

  /** The message an act takes on: a send on the loop's thread while Connected, an off-loop one
      unless Disconnected by then. */
  function Message(t: Tcp, a: Act): seq<Byte> {
    match a
    case Send(msg, _) => if t.state == Connected then msg else []
    case RawSend(msg, _) => if t.state != Disconnected then msg else []
    case _ => []
  }

  /** The message is tried on a broken connection and given up. */
  predicate GivenUp(t: Tcp, a: Act) {
    (a.Send? || a.RawSend?) && !t.interest.write && t.out == [] && a.r.Broken?
  }

  /** One act: the wire grows by what write(2) reported, and wire and buffer together by the message. */
  lemma ActAccounts(cfg: Config, t: Tcp, a: Act)
    requires Inv(t) && Enabled(t, a)
    ensures var u, msg := Do(cfg, t, a).tcp, Message(t, a);
      && t.wire <= u.wire && |u.wire| == |t.wire| + Reported(t, a)
      && u.wire + u.out == t.wire + t.out + (if GivenUp(t, a) then [] else msg)
      && u.accepted == t.accepted + msg && u.lost == t.lost + if GivenUp(t, a) then |msg| else 0
  {
    var u := Do(cfg, t, a).tcp;
    assert t.accepted + [] == t.accepted && t.wire + t.out + [] == t.wire + t.out && t.wire + [] == t.wire;
    match a {
      case Send(msg, r) => if t.state == Connected { SendReported(cfg, t, msg, r); }
      case RawSend(msg, r) => if t.state != Disconnected { SendReported(cfg, t, msg, r); }
      case Ready(r) => if r.Wrote? { assert t.out == t.out[..r.n] + t.out[r.n..]; }
      case _ =>
    }
  }

  lemma SendReported(cfg: Config, t: Tcp, msg: seq<Byte>, r: WriteResult)
    requires t.state != Disconnected && Fits(t, |msg|, r)
    ensures var u, direct := SendInLoop(cfg, t, msg, r).tcp, !t.interest.write && t.out == [];
      && t.wire <= u.wire && |u.wire| == |t.wire| + (if direct && r.Wrote? then r.n else 0)
      && u.wire + u.out == t.wire + t.out + (if direct && r.Broken? then [] else msg)
      && u.accepted == t.accepted + msg && u.lost == t.lost + if direct && r.Broken? then |msg| else 0
  {
    SendAccounts(cfg, t, msg, r);
    assert t.wire + t.out + [] == t.wire + t.out;
  }

  /** The sum of the counts write(2) reported in the first j acts. */
  function Written(ts: seq<Tcp>, acts: seq<Act>, j: nat): nat
    requires j <= |acts| <= |ts|
  {
    if j == 0 then 0 else Written(ts, acts, j - 1) + Reported(ts[j - 1], acts[j - 1])
  }

  /** The messages taken on by then, and those of them not given up. */
  function Messages(ts: seq<Tcp>, acts: seq<Act>, j: nat): seq<Byte>
    requires j <= |acts| <= |ts|
  {
    if j == 0 then [] else Messages(ts, acts, j - 1) + Message(ts[j - 1], acts[j - 1])
  }

  function Delivered(ts: seq<Tcp>, acts: seq<Act>, j: nat): seq<Byte>
    requires j <= |acts| <= |ts|
  {
    if j == 0 then [] else
      Delivered(ts, acts, j - 1) + if GivenUp(ts[j - 1], acts[j - 1]) then [] else Message(ts[j - 1], acts[j - 1])
  }

  /** In every run the wire is as many of the bytes to deliver, from the front, as write(2) reported
      taking, and the buffer is the rest of them: nothing is sent twice, skipped or held back, be
      messages given up before or not. */
  lemma {:induction false} WireIsReported(cfg: Config, ts: seq<Tcp>, acts: seq<Act>, j: nat)
    requires IsRun(cfg, ts, acts) && j < |ts|
    ensures var n, all := Written(ts, acts, j), Delivered(ts, acts, j);
            n <= |all| && ts[j].wire == all[..n] && ts[j].out == all[n..]
    ensures ts[j].accepted == Messages(ts, acts, j)
    ensures ts[j].lost + |Delivered(ts, acts, j)| == |Messages(ts, acts, j)|
  {
    hide Do, Enabled, Inv;
    if j > 0 {
      WireIsReported(cfg, ts, acts, j - 1);
      RunInv(cfg, ts, acts, j - 1);
      ActAccounts(cfg, ts[j - 1], acts[j - 1]);
      var n, all := Written(ts, acts, j - 1), Delivered(ts, acts, j - 1);
      assert all == all[..n] + all[n..];
      SplitBy(ts[j].wire, ts[j].out, Delivered(ts, acts, j));
    }
  }

  lemma SplitBy(a: seq<Byte>, b: seq<Byte>, c: seq<Byte>)
    requires a + b == c
    ensures |a| <= |c| && a == c[..|a|] && b == c[|a|..]
  {
  }

  /** The act asks for the connection's end: a shutdown of a connection that is up, or the store of
      an off-loop shutdown or forceClose. */
  predicate Asks(t: Tcp, a: Act) { (a.Shutdown? || a.Request?) && t.state == Connected }

  /** The act comes upon the test that half-closes, with write interest off. */
  predicate Halves(t: Tcp, a: Act) {
    && !t.interest.write
    && ((a.Shutdown? && t.state == Connected) || a.RawShutdown? || (a.Drain? && t.state == Disconnecting))
  }

  /** state_ and the write side in every run: Connecting until established, Disconnected from the
      first close on, and in between Disconnecting from the first shutdown or forceClose on, whatever
      is buffered; half-closed from the first half-closing test that finds nothing to write. */
  lemma {:induction false} StateIsHistory(cfg: Config, ts: seq<Tcp>, acts: seq<Act>, j: nat)
    requires IsRun(cfg, ts, acts) && j < |ts|
    ensures ts[j].state == Connecting <==> forall k :: 0 <= k < j ==> !acts[k].Establish?
    ensures ts[j].state == Disconnected <==> exists k :: 0 <= k < j && acts[k].Close?
    ensures ts[j].state == Disconnecting <==>
              (exists k :: 0 <= k < j && Asks(ts[k], acts[k])) && forall k :: 0 <= k < j ==> !acts[k].Close?
    ensures ts[j].shut <==> exists k :: 0 <= k < j && Halves(ts[k], acts[k])
  {
    if j > 0 {
      StateIsHistory(cfg, ts, acts, j - 1);
      RunInv(cfg, ts, acts, j - 1);
      ActMoves(cfg, ts[j - 1], acts[j - 1]);
      hide Do, Enabled, Inv, Asks, Halves;
    }
  }

  lemma ActMoves(cfg: Config, t: Tcp, a: Act)
    requires Inv(t) && Enabled(t, a)
    ensures var u := Do(cfg, t, a).tcp;
      && u.state == (if a.Establish? then Connected else if a.Close? then Disconnected
                     else if Asks(t, a) then Disconnecting else t.state)
      && (u.shut <==> t.shut || Halves(t, a))
      && (a.Establish? ==> t.state == Connecting)
      && (a.Close? ==> t.state != Connecting)
  {
  }

  /** Graceful half-close: unless already Disconnected, the write side is shut only over an empty
      buffer, with every accepted byte on the wire. */
  lemma ShutOnlyWhenDrained(cfg: Config, ts: seq<Tcp>, acts: seq<Act>, i: nat)
    requires IsRun(cfg, ts, acts) && i < |acts|
    requires !ts[i].shut && ts[i + 1].shut && ts[i + 1].state != Disconnected
    ensures ts[i + 1].out == [] && (ts[i + 1].lost == 0 ==> ts[i + 1].wire == ts[i + 1].accepted)
  {
    RunInv(cfg, ts, acts, i + 1);
  }

  /** Once shut, the buffer of a connection still up stays empty, whoever sends. */
  lemma {:induction false} ShutOverEmpty(cfg: Config, ts: seq<Tcp>, acts: seq<Act>, i: nat)
    requires IsRun(cfg, ts, acts) && i < |ts|
    ensures Inv(ts[i]) && (ts[i].shut && ts[i].state != Disconnected ==> ts[i].out == [])
    ensures ts[i].shut ==> ts[i].state == Disconnecting || ts[i].state == Disconnected
  {
    RunInv(cfg, ts, acts, i);
    if i > 0 {
      ShutOverEmpty(cfg, ts, acts, i - 1);
      ShutStep(cfg, ts[i - 1], acts[i - 1]);
    }
  }

  /** What a shut connection can still do: take on the message of an off-loop send, in vain. */
  lemma ShutStep(cfg: Config, t: Tcp, a: Act)
    requires Enabled(t, a) && Inv(t) && (t.shut && t.state != Disconnected ==> t.out == [])
    requires t.shut ==> t.state == Disconnecting || t.state == Disconnected
    ensures var u := Do(cfg, t, a).tcp;
      && (u.shut && u.state != Disconnected ==> u.out == [])
      && (u.shut ==> u.state == Disconnecting || u.state == Disconnected)
      && (t.shut ==> u.shut && u.wire == t.wire
                     && u.accepted == t.accepted + if a.RawSend? && t.state == Disconnecting then a.msg else [])
  {
    assert t.accepted + [] == t.accepted;
    if a.RawSend? && t.state == Disconnecting {
      SendAccounts(cfg, t, a.msg, a.r);
      assert t.wire + [] == t.wire;
    }
    hide Inv;
  }

  /** The functor of an off-loop send runs with something to send while its connection, half closed
      or about to be, is still up. */
  predicate LateSend(t: Tcp, a: Act) { a.RawSend? && a.msg != [] && t.state == Disconnecting }

  /** The wire after a half-close, for every run: shut over a connection still up and intact, the
      wire never grows again, and it keeps being everything accepted exactly as long as no off-loop
      send's functor runs behind the shut. */
  lemma {:induction false} WireCompleteIff(cfg: Config, ts: seq<Tcp>, acts: seq<Act>, i: nat, j: nat)
    requires IsRun(cfg, ts, acts) && i <= j < |ts|
    requires ts[i].shut && ts[i].state != Disconnected && ts[i].lost == 0
    ensures ts[j].shut && ts[j].wire == ts[i].wire == ts[i].accepted <= ts[j].accepted
    ensures ts[j].wire == ts[j].accepted <==> forall k :: i <= k < j ==> !LateSend(ts[k], acts[k])
    decreases j
  {
    hide Do, Enabled;
    ShutOverEmpty(cfg, ts, acts, i);
    assert ts[i].wire + [] == ts[i].wire;
    if i < j {
      WireCompleteIff(cfg, ts, acts, i, j - 1);
      ShutOverEmpty(cfg, ts, acts, j - 1);
      ShutStep(cfg, ts[j - 1], acts[j - 1]);
      hide Inv;
      if LateSend(ts[j - 1], acts[j - 1]) {
        assert |ts[j].accepted| > |ts[j].wire|;
      }
    }
  }

  /** Sends made on the loop's own thread are never late. */
  lemma WireCompleteAfterShut(cfg: Config, ts: seq<Tcp>, acts: seq<Act>, i: nat, j: nat)
    requires IsRun(cfg, ts, acts) && i <= j < |ts|
    requires ts[i].shut && ts[i].state != Disconnected && ts[i].lost == 0
    requires forall k :: i <= k < j ==> !acts[k].RawSend?
    ensures ts[j].shut && ts[j].wire == ts[j].accepted == ts[i].accepted
  {
    WireCompleteIff(cfg, ts, acts, i, j);
  }

  /** The late send happens: an off-loop send followed by an off-loop shutdown, and handleWrite
      drains and shuts between their functors. */
  lemma OffLoopSendOvertaken(cfg: Config, a: seq<Byte>, b: seq<Byte>)
    requires a != [] && b != []
    ensures exists ts: seq<Tcp>, acts: seq<Act> :: IsRun(cfg, ts, acts) && |acts| == 6
              && acts[2] == Request && acts[5] == RawSend(b, Broken) && LateSend(ts[5], acts[5])
              && ts[5].shut && ts[5].lost == 0 && ts[6].wire != ts[6].accepted
  {
    var acts := [Establish, Send(a, WouldBlock), Request, Ready(Wrote(|a|)), Drain, RawSend(b, Broken)];
    var up, both := Interest(true, false), Interest(true, true);
    var t1 := Tcp(Connected, up, [], [], false, [], 0);
    var t2 := Tcp(Connected, both, a, [], false, a, 0);
    var t3 := t2.(state := Disconnecting);
    var t4 := Tcp(Disconnecting, up, [], a, false, a, 0);
    var t5 := t4.(shut := true);
    var t6 := t5.(accepted := a + b, lost := |b|);
    OvertakenSteps(cfg, a, b);
    hide Do;
    var ts := [FRESH, t1, t2, t3, t4, t5, t6];
    assert IsRun(cfg, ts, acts);
    assert |ts[6].wire| < |ts[6].accepted|;
  }

  lemma OvertakenSteps(cfg: Config, a: seq<Byte>, b: seq<Byte>)
    requires a != [] && b != []
    ensures var up, both := Interest(true, false), Interest(true, true);
      var t1 := Tcp(Connected, up, [], [], false, [], 0);
      var t2 := Tcp(Connected, both, a, [], false, a, 0);
      var t4 := Tcp(Disconnecting, up, [], a, false, a, 0);
      && Do(cfg, FRESH, Establish).tcp == t1 && Do(cfg, t1, Send(a, WouldBlock)).tcp == t2
      && Do(cfg, t2, Request).tcp == t2.(state := Disconnecting)
      && Do(cfg, t2.(state := Disconnecting), Ready(Wrote(|a|))).tcp == t4
      && Do(cfg, t4, Drain).tcp == t4.(shut := true)
      && Do(cfg, t4.(shut := true), RawSend(b, Broken)).tcp == t4.(shut := true, accepted := a + b, lost := |b|)
  {
    assert [] + a == a && a[..|a|] == a;
  }

  /** handleWrite, whole: the write, then the test of state_ if it drained. */
  function WriteReady(cfg: Config, t: Tcp, r: WriteResult): Outcome
    requires r.Wrote? ==> r.n <= |t.out|
  {
    var o := HandleWrite(cfg, t, r);
    if Drains(t, r) then o.(tcp := DrainCheck(o.tcp)) else o
  }

  /** It writes from the front of the buffer, as much as write(2) reported, and a write that empties
      the buffer of a connection asked to end half-closes it. */
  lemma WriteReported(cfg: Config, t: Tcp, r: WriteResult)
    requires Fits(t, |t.out|, r)
    ensures var u, n := WriteReady(cfg, t, r).tcp, if t.interest.write && r.Wrote? then r.n else 0;
      && n <= |t.out| && u.wire == t.wire + t.out[..n] && u.out == t.out[n..] && u.state == t.state
      && (u.shut <==> t.shut || (t.state == Disconnecting && 0 < n == |t.out|))
  {
    assert t.wire + [] == t.wire;
  }

  function Flushed(cfg: Config, t: Tcp, n: nat): Tcp
    requires n <= |t.out|
  {
    WriteReady(cfg, t, Wrote(n)).tcp
  }

  predicate PositiveWrites(cfg: Config, t: Tcp, ns: seq<nat>)
    decreases |ns|
  {
    ns != [] && t.out != [] ==> 0 < ns[0] <= |t.out| && PositiveWrites(cfg, Flushed(cfg, t, ns[0]), ns[1..])
  }

  function FlushAll(cfg: Config, t: Tcp, ns: seq<nat>): Tcp
    requires PositiveWrites(cfg, t, ns)
    decreases |ns|
  {
    if ns == [] || t.out == [] then t else FlushAll(cfg, Flushed(cfg, t, ns[0]), ns[1..])
  }

  /** Undisturbed, whole calls of handleWrite drain the buffer in order, as many as bytes are
      buffered at most, and the one that empties it shuts the write side itself. */
  lemma {:induction false} FlushCompletes(cfg: Config, t: Tcp, ns: seq<nat>)
    requires Inv(t) && t.state == Disconnecting && PositiveWrites(cfg, t, ns)
    requires t.out != [] || t.shut
    requires |t.out| <= |ns|
    ensures var u := FlushAll(cfg, t, ns);
            u.shut && u.out == [] && u.wire == t.wire + t.out && u.accepted == t.accepted && u.state == Disconnecting
    decreases |ns|
  {
    if t.out == [] {
      assert t.wire + [] == t.wire;
    } else {
      var u := Flushed(cfg, t, ns[0]);
      assert t.out == t.out[..ns[0]] + t.out[ns[0]..];
      assert u.wire + u.out == t.wire + t.out;
      FlushCompletes(cfg, u, ns[1..]);
    }
  }

  /** handleWrite wrote something. */
  predicate Progress(a: Act) { a.Ready? && a.r.Wrote? && a.r.n > 0 }

  /** How many of the acts [i, j) made progress. */
  function Progresses(acts: seq<Act>, i: nat, j: nat): nat
    requires i <= j <= |acts|
    decreases j
  {
    if i == j then 0 else Progresses(acts, i, j - 1) + if Progress(acts[j - 1]) then 1 else 0
  }

  /** shutdown() on a connection that is up takes effect at once, whatever is buffered, and sends
      and drops nothing; so does the store of an off-loop one. */
  lemma ShutdownStarts(cfg: Config, t: Tcp, a: Act)
    requires Inv(t) && Enabled(t, a) && Asks(t, a)
    ensures var u := Do(cfg, t, a).tcp;
      && u.state == Disconnecting && u.out == t.out && u.wire == t.wire
      && u.accepted == t.accepted && u.lost == t.lost
    ensures a.Shutdown? ==> (Do(cfg, t, a).tcp.shut <==> t.shut || t.out == [])
  {
  }

  /** From a shutdown on, in every run and among whatever else happens short of a close or an
      off-loop send: the connection is Disconnecting, what was buffered at the call drains in order,
      each write that makes progress brings the end nearer, so that as many as bytes were buffered
      always suffice, and behind the last byte the next test of the drained buffer shuts the write side. */
  lemma ShutdownCompletes(cfg: Config, ts: seq<Tcp>, acts: seq<Act>, i: nat, j: nat)
    requires IsRun(cfg, ts, acts) && i < j < |ts| && Asks(ts[i], acts[i])
    requires forall k :: i < k < j ==> !acts[k].RawSend? && !acts[k].Close?
    ensures ts[j].state == Disconnecting && ts[j].accepted == ts[i].accepted && ts[j].lost == ts[i].lost
    ensures ts[j].wire + ts[j].out == ts[i].wire + ts[i].out
    ensures |ts[j].out| + Progresses(acts, i + 1, j) <= |ts[i].out|
    ensures Progresses(acts, i + 1, j) >= |ts[i].out| ==> ts[j].out == [] && ts[j].wire == ts[i].wire + ts[i].out
    ensures j < |acts| && ts[j].out == [] && (acts[j].Drain? || acts[j].RawShutdown?) ==>
              ts[j + 1].shut && ts[j + 1].wire == ts[j].wire
    ensures acts[i].Shutdown? && ts[i].out == [] ==> ts[i + 1].shut
  {
    RunInv(cfg, ts, acts, i);
    ShutdownStarts(cfg, ts[i], acts[i]);
    DrainsFrom(cfg, ts, acts, i + 1, j);
  }

  lemma {:induction false} DrainsFrom(cfg: Config, ts: seq<Tcp>, acts: seq<Act>, i: nat, j: nat)
    requires IsRun(cfg, ts, acts) && i <= j < |ts| && ts[i].state == Disconnecting
    requires forall k :: i <= k < j ==> !acts[k].RawSend? && !acts[k].Close?
    ensures ts[j].state == Disconnecting && ts[j].accepted == ts[i].accepted && ts[j].lost == ts[i].lost
    ensures ts[j].wire + ts[j].out == ts[i].wire + ts[i].out
    ensures |ts[j].out| + Progresses(acts, i, j) <= |ts[i].out|
    ensures Progresses(acts, i, j) >= |ts[i].out| ==> ts[j].out == [] && ts[j].wire == ts[i].wire + ts[i].out
    ensures j < |acts| && ts[j].out == [] && (acts[j].Drain? || acts[j].RawShutdown?) ==>
              ts[j + 1].shut && ts[j + 1].wire == ts[j].wire
    decreases j
  {
    RunInv(cfg, ts, acts, j);
    if i < j {
      DrainsFrom(cfg, ts, acts, i, j - 1);
      RunInv(cfg, ts, acts, j - 1);
      DrainStep(cfg, ts[j - 1], acts[j - 1]);
    }
    assert ts[j].out == [] ==> ts[j].wire + ts[j].out == ts[j].wire;
  }

  lemma DrainStep(cfg: Config, t: Tcp, a: Act)
    requires Enabled(t, a) && Inv(t) && t.state == Disconnecting && !a.RawSend? && !a.Close?
    ensures var u := Do(cfg, t, a).tcp;
      && u.state == Disconnecting && u.accepted == t.accepted && u.lost == t.lost && u.wire + u.out == t.wire + t.out
      && |u.out| + (if Progress(a) then 1 else 0) <= |t.out|
  {
    if a.Ready? && a.r.Wrote? {
      assert t.out == t.out[..a.r.n] + t.out[a.r.n..];
      assert t.wire + t.out[..a.r.n] + t.out[a.r.n..] == t.wire + t.out;
    }
  }

  /** The notices of an act, exactly: the write-complete one when it completes the output and there is
      such a callback, the high-water one on an upward crossing; never both. */
  lemma NoticesExact(cfg: Config, t: Tcp, a: Act)
    requires Enabled(t, a)
    ensures var o := Do(cfg, t, a);
      && o.notices == If(cfg.writeComplete && Completes(t, a), WriteComplete)
                      + If(cfg.highWater && |t.out| < cfg.mark <= |o.tcp.out|, HighWater(|o.tcp.out|))
      && |o.notices| <= 1
  {
  }

  ghost predicate NotifiesHighWater(o: Outcome) { exists n: nat :: HighWater(n) in o.notices }

  /** The high-water notice is queued exactly on an upward crossing of the mark, and carries the
      new backlog. */
  lemma HighWaterIffCrossing(cfg: Config, t: Tcp, a: Act)
    requires Enabled(t, a) && cfg.highWater
    ensures var o := Do(cfg, t, a);
            && (NotifiesHighWater(o) <==> |t.out| < cfg.mark <= |o.tcp.out|)
            && (forall n: nat :: HighWater(n) in o.notices ==> n == |o.tcp.out|)
  {
    var o := Do(cfg, t, a);
    if |t.out| < cfg.mark <= |o.tcp.out| {
      assert HighWater(|o.tcp.out|) in o.notices;
    }
  }

  /** Between two notices of a run the backlog was below the mark. */
  lemma HighWaterSeparated(cfg: Config, ts: seq<Tcp>, acts: seq<Act>, i: nat, j: nat)
    requires IsRun(cfg, ts, acts) && cfg.highWater && i < j < |acts|
    requires NotifiesHighWater(Do(cfg, ts[i], acts[i])) && NotifiesHighWater(Do(cfg, ts[j], acts[j]))
    ensures cfg.mark <= |ts[i + 1].out| && exists k :: i + 1 < k <= j && |ts[k].out| < cfg.mark
  {
    HighWaterIffCrossing(cfg, ts[i], acts[i]);
    HighWaterIffCrossing(cfg, ts[j], acts[j]);
    assert |ts[j].out| < cfg.mark;
  }

  /** sendInLoop on the buffer and the test as written: append leaves the content alone and, the
      channel reading, isWriteing() is false, so every send tries the socket. */
  function SendInLoopAsWritten(t: Tcp, message: seq<Byte>, r: WriteResult): Tcp
    requires r.Wrote? ==> r.n <= |message|
  {
    if t.state == Disconnected then t
    else
      var u := t.(accepted := t.accepted + message);
      var n := if t.out == [] && r.Wrote? then r.n else 0;
      var v := u.(wire := u.wire + message[..n]);
      if t.out == [] && r.Broken? then v.(lost := v.lost + |message|)
      else if n < |message| then v.(interest := v.interest.(write := true))
      else v
  }

  /** Then conservation survives a send exactly when the socket took the whole message at once, or
      is broken. */
  lemma SendAsWrittenConservesIff(t: Tcp, message: seq<Byte>, r: WriteResult)
    requires Inv(t) && (t.state == Connected || t.state == Disconnecting) && t.out == [] && Fits(t, |message|, r)
    ensures Conserves(SendInLoopAsWritten(t, message, r)) <==> message == [] || r == Wrote(|message|) || r.Broken?
  {
    var u := SendInLoopAsWritten(t, message, r);
    assert t.wire + [] == t.wire && u.wire + [] == u.wire;
    var n := if r.Wrote? then r.n else 0;
    assert message[..|message|] == message;
  }

  /** The bind of the data member writeCompleteCallback_ only reads it: of the notices a handler
      queues, those that reach the user. */
  function NoticesAsWritten(ns: seq<Notice>): seq<Notice> {
    if ns == [] then [] else (if ns[0].HighWater? then [ns[0]] else []) + NoticesAsWritten(ns[1..])
  }

  /** The act hands the kernel all the output there is: a send of the whole message past an empty
      buffer, or a write that drains it. */
  predicate Completes(t: Tcp, a: Act) {
    match a
    case Send(msg, r) => t.state == Connected && !t.interest.write && t.out == [] && r == Wrote(|msg|)
    case RawSend(msg, r) => t.state != Disconnected && !t.interest.write && t.out == [] && r == Wrote(|msg|)
    case Ready(r) => Drains(t, r)
    case _ => false
  }

  /** The user hears as much as was meant exactly when there is no such callback or the act does
      not complete the output: every completion goes unreported. */
  lemma NoticesAsWrittenIff(cfg: Config, t: Tcp, a: Act)
    requires Enabled(t, a)
    ensures var ns := Do(cfg, t, a).notices;
            NoticesAsWritten(ns) == ns <==> !cfg.writeComplete || !Completes(t, a)
  {
    var ns := Do(cfg, t, a).notices;
    AsWrittenKeeps(ns);
    if cfg.writeComplete && Completes(t, a) {
      assert ns[0] == WriteComplete;
    }
  }

  lemma {:induction false} AsWrittenKeeps(ns: seq<Notice>)
    ensures NoticesAsWritten(ns) == ns <==> WriteComplete !in ns
    ensures |NoticesAsWritten(ns)| <= |ns|
  {
    if ns != [] {
      AsWrittenKeeps(ns[1..]);
      assert ns == [ns[0]] + ns[1..];
      if ns[0] == WriteComplete {
        assert |NoticesAsWritten(ns)| < |ns|;
      } else {
        assert NoticesAsWritten(ns)[1..] == NoticesAsWritten(ns[1..]);
      }
    }
  }
}

/** TcpConnection.cc:81 binds buf.c_str() and buf.size(): the functor reads the caller's string when
    it runs, on another thread, after send has returned. */
module BorrowedPayload {
  import opened Buffers

  datatype Block = Freed | Live(bytes: seq<Byte>)

  /** What the caller does to its string before the functor runs. Assign reuses the storage; an
      assignment that moves the string elsewhere is a Destroy of this storage. */
  datatype CallerAct = Destroy | Assign(bytes: seq<Byte>)

  function After(b: Block, acts: seq<CallerAct>): Block
    decreases |acts|
  {
    if acts == [] || b.Freed? then b
    else After(match acts[0] case Destroy => Freed case Assign(bytes) => Live(bytes), acts[1..])
  }

  datatype Sent = Undefined | Bytes(bytes: seq<Byte>)

  /** sendInLoop(ptr, len) reads len bytes; past the storage, or if it is gone, anything may happen. */
  function Read(b: Block, len: nat): Sent {
    if len == 0 then Bytes([])
    else if b.Live? && len <= |b.bytes| then Bytes(b.bytes[..len])
    else Undefined
  }

  /** The functor sends the message exactly when there is nothing to send, or the string is still
      alive and what was last assigned to it, if anything, starts with the message. */
  lemma BorrowedSendsIff(msg: seq<Byte>, acts: seq<CallerAct>)
    ensures Read(After(Live(msg), acts), |msg|) == Bytes(msg)
            <==> msg == [] || (Destroy !in acts && (acts == [] || msg <= acts[|acts| - 1].bytes))
  {
    AfterIs(msg, acts);
    assert msg[..|msg|] == msg;
  }

  lemma {:induction false} AfterIs(bytes: seq<Byte>, acts: seq<CallerAct>)
    ensures After(Live(bytes), acts)
         == if Destroy in acts then Freed else if acts == [] then Live(bytes) else Live(acts[|acts| - 1].bytes)
    decreases |acts|
  {
    if acts != [] {
      assert acts == [acts[0]] + acts[1..];
      if acts[0].Assign? { AfterIs(acts[0].bytes, acts[1..]); }
    }
  }

  /** The usual caller fails: a temporary string is gone before the functor runs. */
  lemma TemporaryIsLost(msg: seq<Byte>)
    requires msg != []
    ensures Read(After(Live(msg), [Destroy]), |msg|) == Undefined
  {
    BorrowedSendsIff(msg, [Destroy]);
    AfterIs(msg, [Destroy]);
  }
}

/** The TcpConnection object: a channel, two buffers and state_, on one loop. Every method does to
    its view what the function of the same name in module Streams says, tells the poller exactly
    when the interest changed, and queues on the loop what that function reports. */
module TcpConnections {
  import opened Buffers
  import opened Channels
  import opened EventLoops
  import S = Streams
  import R = Registration

  /** The functors a connection binds for its own loop; a send's payload is copied. */
  datatype Task = SendTask(msg: seq<Byte>) | ShutdownTask | CloseTask | NoticeTask(n: S.Notice)

  /** Callbacks a handler makes before it returns, in order; CloseCall is TcpServer::removeConnection. */
  datatype UserCall = ConnectionCall | MessageCall | CloseCall

  function Tasks(ns: seq<S.Notice>): seq<Task> {
    if ns == [] then [] else [NoticeTask(ns[0])] + Tasks(ns[1..])
  }

  lemma TasksOfOne(n: S.Notice)
    ensures Tasks([]) == [] && Tasks([n]) == [NoticeTask(n)]
  {
    assert [n][1..] == [];
  }

  lemma TasksJoin(a: seq<S.Notice>, b: seq<S.Notice>)
    ensures Tasks(a + b) == Tasks(a) + Tasks(b)
  {
    if a == [] {
      assert a + b == b;
    } else {
      assert (a + b)[1..] == a[1..] + b;
      TasksJoin(a[1..], b);
    }
  }

  /** What the direct write, tried only while nothing is buffered, took and whether it broke. */
  function Taken(t: S.Tcp, r: S.WriteResult): nat {
    if !t.interest.write && t.out == [] && r.Wrote? then r.n else 0
  }

  predicate Broke(t: S.Tcp, r: S.WriteResult) { !t.interest.write && t.out == [] && r.Broken? }

  function Tried(t: S.Tcp, message: seq<Byte>, r: S.WriteResult): S.Tcp
    requires r.Wrote? ==> r.n <= |message|
  {
    t.(wire := t.wire + message[..Taken(t, r)], lost := t.lost + if Broke(t, r) then |message| else 0)
  }

  function TriedTasks(cfg: S.Config, t: S.Tcp, message: seq<Byte>, r: S.WriteResult): seq<Task> {
    Tasks(S.If(!t.interest.write && t.out == [] && r == S.Wrote(|message|) && cfg.writeComplete, S.WriteComplete))
  }

  lemma Appended(a: seq<Task>, b: seq<Task>, c: seq<Task>)
    ensures (a + b) + c == a + (b + c) && b + [] == b && a + [] == a
  {
  }

  /** sendInLoop in its two halves: the direct write and the buffering. */
  lemma SendInHalves(cfg: S.Config, t: S.Tcp, message: seq<Byte>, r: S.WriteResult)
    requires t.state != S.Disconnected && (r.Wrote? ==> r.n <= |message|)
    ensures var u := t.(accepted := t.accepted + message);
            var v, o := Tried(u, message, r), S.SendInLoop(cfg, t, message, r);
            var b := S.Buffered(cfg, v, message[Taken(u, r)..]);
            && o.tcp == (if Broke(u, r) then v else b.tcp)
            && Tasks(o.notices) == TriedTasks(cfg, u, message, r) + (if Broke(u, r) then [] else Tasks(b.notices))
  {
    assert t.wire + [] == t.wire;
    var u := t.(accepted := t.accepted + message);
    var n := Taken(u, r);
    TasksJoin(S.If(!t.interest.write && t.out == [] && r == S.Wrote(|message|) && cfg.writeComplete, S.WriteComplete),
              S.Buffered(cfg, Tried(u, message, r), message[n..]).notices);
  }

  /** What write(2) reports, as Buffer::writeFd passes it on. */
  function AsIo(r: S.WriteResult): IoResult {
    if r.Wrote? then Done(r.n) else Failed(if r.WouldBlock? then 11 else if r.Broken? then 32 else 5)
  }

  /** The callbacks handleRead makes, by what readv reported: only the end of the stream closes. */
  function ReadCalls(kernel: IoResult): seq<UserCall> {
    if kernel.Failed? then [] else if kernel.n == 0 then [ConnectionCall, CloseCall] else [MessageCall]
  }

  class TcpConnection {
    const loop: EventLoop<Task>
    const channel: Channel
    const inputBuffer: Buffer
    const outputBuffer: Buffer
    const cfg: S.Config
    var state: S.ConnState
    var shutWrite: bool  // socket_'s write side
    ghost var wire: seq<Byte>
    ghost var accepted: seq<Byte>
    ghost var lost: nat

    ghost predicate Valid()
      reads this, channel, channel.poller, channel.poller.known, inputBuffer, outputBuffer
    {
      && channel.Registered()
      && inputBuffer.Valid() && outputBuffer.Valid()
      && inputBuffer != outputBuffer && inputBuffer.buffer != outputBuffer.buffer
    }

    ghost function View(): S.Tcp
      requires Valid()
      reads this, channel, channel.poller, channel.poller.known, inputBuffer, outputBuffer, outputBuffer.buffer
    {
      S.Tcp(state, InterestOf(channel.events), outputBuffer.Contents(), wire, shutWrite, accepted, lost)
    }

    lemma Fields()
      requires Valid()
      ensures var v := View();
        && v.state == state && v.wire == wire && v.shut == shutWrite && v.accepted == accepted && v.lost == lost
        && v.out == outputBuffer.Contents() && v.interest == InterestOf(channel.events)
    {
    }

    /** The poller heard of a changed interest, and of nothing else. */
    twostate predicate Told()
      requires old(channel in channel.poller.known)
      reads this, channel, channel.poller, channel.poller.known
    {
      channel.poller.View()
      == if InterestOf(channel.events) == old(InterestOf(channel.events)) then old(channel.poller.View())
         else R.Change(old(channel.poller.View()), channel, InterestOf(channel.events))
    }

    constructor (loop: EventLoop<Task>, poller: EPollPoller, fd: int, cfg: S.Config)
      requires poller.Valid()
      modifies poller`known
      ensures Valid() && fresh(channel) && fresh(inputBuffer) && fresh(outputBuffer) && channel.poller == poller
      ensures View() == S.FRESH && this.loop == loop && this.cfg == cfg && channel.fd == fd
      ensures poller.View() == R.Create(old(poller.View()), channel, fd)
      ensures channel.installed == {Close, Error, Read, Write} && !channel.tied
    {
      hide EPollPoller.View, R.Create;
      this.loop, this.cfg, state, shutWrite := loop, cfg, S.Connecting, false;
      wire, accepted, lost := [], [], 0;
      inputBuffer := new Buffer();
      outputBuffer := new Buffer();
      channel := new Channel(poller, fd);
      new;
      channel.SetCallbacks({Close, Error, Read, Write});
    }

    method ShutdownInLoop()
      requires Valid()
      modifies `shutWrite
      ensures Valid() && View() == S.ShutdownInLoop(old(View()))
      ensures shutWrite <==> old(shutWrite) || !Writing()
    {
      MaskUnits(channel.events);
      if !channel.IsWriting() {
        shutWrite := true;
      }
    }

    /** Switches write interest on if it is off. */
    method AskToWrite()
      requires Valid()
      modifies channel`events, channel`index, channel.poller
      ensures Valid() && View() == old(View()).(interest := old(View()).interest.(write := true)) && Told()
    {
      MaskUnits(channel.events);
      if !channel.IsWriting() {
        channel.EnableWriting();
      }
    }

    /** Queues a user callback on the loop, if it is asked for. */
    method Enqueue(wanted: bool, n: S.Notice)
      requires Valid()
      modifies loop`pendingFunctors, loop`wakeupFd, loop`pushed
      ensures Valid() && View() == old(View()) && Told()
      ensures loop.pendingFunctors == old(loop.pendingFunctors) + Tasks(S.If(wanted, n))
    {
      TasksOfOne(n);
      if wanted {
        loop.QueueInLoop(NoticeTask(n), true);
      }
    }

    method AppendOut(rest: seq<Byte>)
      requires Valid()
      modifies outputBuffer, outputBuffer.buffer
      ensures Valid() && View() == old(View()).(out := old(View()).out + rest) && Told()
    {
      outputBuffer.Append(rest);
    }

    /** The tail of sendInLoop: the rest of the message goes to the buffer. */
    method BufferRest(rest: seq<Byte>)
      requires Valid()
      modifies channel`events, channel`index, channel.poller, outputBuffer, outputBuffer.buffer
      modifies loop`pendingFunctors, loop`wakeupFd, loop`pushed
      ensures Valid() && View() == S.Buffered(cfg, old(View()), rest).tcp && Told()
      ensures loop.pendingFunctors == old(loop.pendingFunctors) + Tasks(S.Buffered(cfg, old(View()), rest).notices)
    {
      hide Valid, InterestOf, View, EPollPoller.View, R.Change;
      if |rest| > 0 {
        var oldlen, remaining := OutputBytes(), |rest|;
        Enqueue(oldlen + remaining >= cfg.mark && oldlen < cfg.mark && cfg.highWater,
                S.HighWater(oldlen + remaining));
        AppendOut(rest);
        AskToWrite();
      }
    }

    /** The histories. */
    ghost method Record(w: seq<Byte>, a: seq<Byte>, l: nat)
      requires Valid()
      modifies `wire, `accepted, `lost
      ensures Valid() && View() == old(View()).(wire := w, accepted := a, lost := l)
    {
      wire, accepted, lost := w, a, l;
    }

    function OutputBytes(): (n: nat)
      requires Valid()
      reads this, channel, channel.poller, channel.poller.known, inputBuffer, outputBuffer, outputBuffer.buffer
      ensures n == |View().out|
    {
      outputBuffer.ReadableBytes()
    }

    predicate Writing()
      requires Valid()
      reads this, channel, channel.poller, channel.poller.known, inputBuffer, outputBuffer, outputBuffer.buffer
      ensures Writing() == View().interest.write
    {
      MaskUnits(channel.events);
      channel.IsWriting()
    }

    method TryWrite(message: seq<Byte>, r: S.WriteResult) returns (nwrote: nat, faultError: bool)
      requires Valid() && (r.Wrote? ==> r.n <= |message|)
      modifies `wire, `accepted, `lost, loop`pendingFunctors, loop`wakeupFd, loop`pushed
      ensures Valid() && Told() && nwrote == Taken(old(View()), r) && faultError == Broke(old(View()), r)
      ensures View() == Tried(old(View()), message, r)
      ensures loop.pendingFunctors == old(loop.pendingFunctors) + TriedTasks(cfg, old(View()), message, r)
    {
      Fields();
      hide Valid, View, EPollPoller.View, InterestOf, R.Change, Tasks;
      TasksOfOne(S.WriteComplete);
      nwrote, faultError := 0, false;
      if !Writing() && OutputBytes() == 0 {
        faultError := r.Broken?;
        if r.Wrote? {
          nwrote := r.n;
          Enqueue(nwrote == |message| && cfg.writeComplete, S.WriteComplete);
        }
      }
      assert wire + [] == wire && loop.pendingFunctors + [] == loop.pendingFunctors;
      Record(wire + message[..nwrote], accepted, lost + if faultError then |message| else 0);
    }

    method SendInLoop(message: seq<Byte>, r: S.WriteResult)
      requires Valid() && S.Fits(View(), |message|, r)
      modifies `wire, `accepted, `lost, channel`events, channel`index, channel.poller, outputBuffer, outputBuffer.buffer
      modifies loop`pendingFunctors, loop`wakeupFd, loop`pushed
      ensures Valid() && View() == S.SendInLoop(cfg, old(View()), message, r).tcp && Told()
      ensures loop.pendingFunctors
           == old(loop.pendingFunctors) + Tasks(S.SendInLoop(cfg, old(View()), message, r).notices)
      ensures var up, direct := state != S.Disconnected, !old(Writing()) && old(OutputBytes()) == 0;
        && old(wire) <= wire && |wire| == |old(wire)| + (if up && direct && r.Wrote? then r.n else 0)
        && wire + outputBuffer.Contents()
           == old(wire + outputBuffer.Contents()) + (if !up || (direct && r.Broken?) then [] else message)
        && accepted == old(accepted) + if up then message else []
    {
      Fields();
      SendFields(View(), message, r);
      hide Valid, InterestOf, EPollPoller.View, R.Change, View, Tasks, S.Buffered, Tried, TriedTasks, Taken, Broke;
      TasksOfOne(S.WriteComplete);
      if state == S.Disconnected {
        return;
      }
      SendInHalves(cfg, View(), message, r);
      hide S.SendInLoop;
      ghost var queued := loop.pendingFunctors;
      Record(wire, accepted + message, lost);
      ghost var u := View();
      var nwrote, faultError := TryWrite(message, r);
      ghost var v := View();
      if !faultError {
        BufferRest(message[nwrote..]);
      }
      Appended(queued, TriedTasks(cfg, u, message, r), Tasks(S.Buffered(cfg, v, message[nwrote..]).notices));
      Fields();
    }

    /** What a send does to the wire, the buffer and the account. */
    lemma SendFields(t: S.Tcp, message: seq<Byte>, r: S.WriteResult)
      requires S.Fits(t, |message|, r)
      ensures var u := S.SendInLoop(cfg, t, message, r).tcp;
              var up, direct := t.state != S.Disconnected, !t.interest.write && t.out == [];
        && t.wire <= u.wire && |u.wire| == |t.wire| + (if up && direct && r.Wrote? then r.n else 0)
        && u.wire + u.out == t.wire + t.out + (if !up || (direct && r.Broken?) then [] else message)
        && u.accepted == t.accepted + if up then message else []
    {
      if t.state != S.Disconnected { S.SendReported(cfg, t, message, r); }
      assert t.wire + t.out + [] == t.wire + t.out && t.accepted + [] == t.accepted;
    }

    method StopWriting()
      requires Valid()
      modifies channel`events, channel`index, channel.poller
      ensures Valid() && View() == old(View()).(interest := old(View()).interest.(write := false))
      ensures InterestOf(channel.events) == old(InterestOf(channel.events)).(write := false)
      ensures channel.poller.View() == R.Change(old(channel.poller.View()), channel, InterestOf(channel.events))
    {
      channel.DisableWriting();
    }

    method Drop(n: nat)
      requires Valid() && n <= OutputBytes()
      modifies outputBuffer`readerIndex, outputBuffer`writerIndex
      ensures Valid() && View() == old(View()).(out := old(View()).out[n..]) && Told()
    {
      hide EPollPoller.View, R.Change, RetrieveLayout, InterestOf;
      assert Min(n, |View().out|) == n;
      outputBuffer.Retrieve(n);
      assert outputBuffer.Valid() && inputBuffer.Valid() && inputBuffer.buffer != outputBuffer.buffer;
      assert channel.poller.known == old(channel.poller.known) && channel.poller.Valid();
    }

    method HandleWrite(r: S.WriteResult)
      requires Valid() && S.Fits(View(), |View().out|, r)
      modifies `wire, `accepted, `lost, `shutWrite, channel`events, channel`index, channel.poller
      modifies outputBuffer`readerIndex, outputBuffer`writerIndex, loop`pendingFunctors, loop`wakeupFd, loop`pushed
      ensures Valid() && View() == S.WriteReady(cfg, old(View()), r).tcp && Told()
      ensures loop.pendingFunctors == old(loop.pendingFunctors) + Tasks(S.WriteReady(cfg, old(View()), r).notices)
      ensures var n, out := if old(Writing()) && r.Wrote? then r.n else 0, old(outputBuffer.Contents());
        && n <= |out| && wire == old(wire) + out[..n] && outputBuffer.Contents() == out[n..]
        && (shutWrite <==> old(shutWrite) || (state == S.Disconnecting && 0 < n == |out|))
    {
      Fields();
      S.WriteReported(cfg, View(), r);
      hide Valid, EPollPoller.View, R.Change, View, Tasks, InterestOf, S.DrainCheck;
      TasksOfOne(S.WriteComplete);
      if Writing() {
        var n, savedErrno, sent := WriteOut(r);
        if n > 0 {
          Record(wire + sent, accepted, lost);
          Drop(n);
          if OutputBytes() == 0 {
            Drained();
          }
        }
      }
      Fields();
    }

    /** The buffer has just become empty. */
    method Drained()
      requires Valid()
      modifies `shutWrite, channel`events, channel`index, channel.poller
      modifies loop`pendingFunctors, loop`wakeupFd, loop`pushed
      ensures Valid() && View() == S.DrainCheck(old(View()).(interest := old(View()).interest.(write := false)))
      ensures InterestOf(channel.events) == old(InterestOf(channel.events)).(write := false)
      ensures channel.poller.View() == R.Change(old(channel.poller.View()), channel, InterestOf(channel.events))
      ensures loop.pendingFunctors == old(loop.pendingFunctors) + Tasks(S.If(cfg.writeComplete, S.WriteComplete))
    {
      assert View().state == state;
      hide Valid, EPollPoller.View, R.Change, View, Tasks, InterestOf;
      StopWriting();
      Enqueue(cfg.writeComplete, S.WriteComplete);
      if state == S.Disconnecting {
        ShutdownInLoop();
      }
    }

    /** outputBuffer_.writeFd. */
    method WriteOut(r: S.WriteResult) returns (n: int, savedErrno: int, sent: seq<Byte>)
      requires Valid() && (r.Wrote? ==> r.n <= |View().out|)
      ensures r.Wrote? ==> n == r.n && sent == View().out[..r.n]
      ensures !r.Wrote? ==> n < 0 && sent == []
    {
      n, savedErrno, sent := outputBuffer.WriteFd(AsIo(r));
    }

    method HandleClose() returns (calls: seq<UserCall>)
      requires Valid()
      modifies `state, channel`events, channel`index, channel.poller
      ensures Valid() && View() == S.Closed(old(View())) && calls == [ConnectionCall, CloseCall]
      ensures state == S.Disconnected && InterestOf(channel.events) == R.NONE_EVENT
      ensures channel.poller.View() == R.Change(old(channel.poller.View()), channel, R.NONE_EVENT)
    {
      state := S.Disconnected;
      MaskUnits(NO_MASK);
      channel.DisableAll();
      calls := [ConnectionCall, CloseCall];
    }

    method ConnectEstablished() returns (calls: seq<UserCall>)
      requires Valid()
      modifies `state, channel`tied, channel`events, channel`index, channel.poller
      ensures Valid() && View() == S.Established(old(View())) && channel.tied && calls == [ConnectionCall]
      ensures state == S.Connected && InterestOf(channel.events).read
      ensures channel.poller.View() == R.Change(old(channel.poller.View()), channel,
                                                S.Established(old(View())).interest)
    {
      state := S.Connected;
      channel.Tie();
      channel.EnableReading();
      calls := [ConnectionCall];
    }

    /** Closes first if the connection is still up; then the channel leaves its poller. */
    method ConnectDestroyed() returns (calls: seq<UserCall>)
      requires Valid()
      modifies `state, channel`events, channel`index, channel.poller
      ensures Valid() && calls == if old(state) == S.Connected then [ConnectionCall] else []
      ensures View() == if old(state) == S.Connected then S.Closed(old(View())) else old(View())
      ensures var p := old(channel.poller.View());
        channel.poller.View()
        == R.RemoveChannel(if old(state) == S.Connected then R.Change(p, channel, R.NONE_EVENT) else p, channel)
    {
      calls := [];
      if state == S.Connected {
        state := S.Disconnected;
        MaskUnits(NO_MASK);
        channel.DisableAll();
        calls := [ConnectionCall];
      }
      channel.Remove();
    }

    /** `kernel` and `delivered` are what readv reports and stores. */
    method HandleRead(kernel: IoResult, delivered: seq<Byte>) returns (calls: seq<UserCall>)
      requires Valid() && (kernel.Done? ==> kernel.n == |delivered| <= ReadCapacity(inputBuffer.LayoutOf()))
      modifies `state, channel`events, channel`index, channel.poller, inputBuffer, inputBuffer.buffer
      ensures Valid()
      ensures inputBuffer.Contents() == old(inputBuffer.Contents()) + (if kernel.Done? then delivered else [])
      ensures kernel == Done(0) ==> View() == S.Closed(old(View())) && calls == [ConnectionCall, CloseCall]
      ensures kernel == Done(0) ==>
                channel.poller.View() == R.Change(old(channel.poller.View()), channel, R.NONE_EVENT)
      ensures kernel != Done(0) ==> View() == old(View()) && Told()
      ensures calls == ReadCalls(kernel)
      ensures CloseCall in calls <==> kernel == Done(0)
      ensures MessageCall in calls <==> kernel.Done? && kernel.n > 0
    {
      var n, savedErrno := ReadIn(kernel, delivered);
      hide EPollPoller.View, R.Change, Valid;
      calls := [];
      if n > 0 {
        calls := [MessageCall];
      } else if n == 0 {
        calls := HandleClose();
      }
    }

    /** inputBuffer_.readFd. */
    method ReadIn(kernel: IoResult, delivered: seq<Byte>) returns (n: int, savedErrno: int)
      requires Valid() && (kernel.Done? ==> kernel.n == |delivered| <= ReadCapacity(inputBuffer.LayoutOf()))
      modifies inputBuffer, inputBuffer.buffer
      ensures Valid() && View() == old(View()) && Told()
      ensures inputBuffer.Contents() == old(inputBuffer.Contents()) + (if kernel.Done? then delivered else [])
      ensures if kernel.Done? then n == kernel.n else n < 0
    {
      n, savedErrno := inputBuffer.ReadFd(kernel, delivered);
    }

    // ---- calls by users ----

    /** On the loop's thread at once; from another thread the functor is queued, the state untouched. */
    method Send(message: seq<Byte>, inLoopThread: bool, r: S.WriteResult)
      requires Valid() && S.Fits(View(), |message|, r)
      modifies `wire, `accepted, `lost, channel`events, channel`index, channel.poller, outputBuffer, outputBuffer.buffer
      modifies loop`pendingFunctors, loop`wakeupFd, loop`pushed
      ensures Valid() && Told()
      ensures inLoopThread ==> View() == S.Do(cfg, old(View()), S.Send(message, r)).tcp
      ensures inLoopThread ==>
                loop.pendingFunctors
                == old(loop.pendingFunctors) + Tasks(S.Do(cfg, old(View()), S.Send(message, r)).notices)
      ensures !inLoopThread ==> View() == old(View())
      ensures !inLoopThread ==>
                loop.pendingFunctors == old(loop.pendingFunctors) + S.If(state == S.Connected, SendTask(message))
      ensures !inLoopThread ==> loop.wakeupFd == old(loop.wakeupFd) + if state == S.Connected then 1 else 0
      ensures state == old(state)
      ensures inLoopThread ==>
                accepted == (if state == S.Connected then old(accepted) + message else old(accepted))
      ensures inLoopThread && state == S.Connected && !(old(OutputBytes()) == 0 && r.Broken?) ==>
                old(wire) <= wire && wire + outputBuffer.Contents() == old(wire + outputBuffer.Contents()) + message
    {
      assert View().state == state;
      hide EPollPoller.View, R.Change, S.SendInLoop;
      if state == S.Connected {
        if inLoopThread {
          SendInLoop(message, r);
        } else {
          var now := loop.RunInLoop(SendTask(message), false);
        }
      }
    }

    method Shutdown(inLoopThread: bool)
      requires Valid()
      modifies `state, `shutWrite, loop`pendingFunctors, loop`wakeupFd, loop`pushed
      ensures Valid() && Told()
      ensures inLoopThread ==> View() == S.Do(cfg, old(View()), S.Shutdown).tcp
      ensures inLoopThread ==> loop.pendingFunctors == old(loop.pendingFunctors)
      ensures !inLoopThread ==> View() == S.ShutdownRequested(old(View()))
      ensures !inLoopThread ==>
                loop.pendingFunctors == old(loop.pendingFunctors) + S.If(old(state) == S.Connected, ShutdownTask)
      ensures loop.wakeupFd == old(loop.wakeupFd) + if !inLoopThread && old(state) == S.Connected then 1 else 0
      ensures state == if old(state) == S.Connected then S.Disconnecting else old(state)
      ensures shutWrite <==> old(shutWrite) || (inLoopThread && old(state) == S.Connected && !Writing())
    {
      hide EPollPoller.View, R.Change;
      if state == S.Connected {
        state := S.Disconnecting;
        var now := loop.RunInLoop(ShutdownTask, inLoopThread);
        if now != [] {
          ShutdownInLoop();
        }
      }
    }

    /** Always queued, even on the loop's own thread. */
    method ForceClose(inLoopThread: bool)
      requires Valid()
      modifies `state, loop`pendingFunctors, loop`wakeupFd, loop`pushed
      ensures Valid() && Told() && View() == S.Do(cfg, old(View()), S.Request).tcp
      ensures var up := old(state) == S.Connected || old(state) == S.Disconnecting;
        && loop.pendingFunctors == old(loop.pendingFunctors) + S.If(up, CloseTask)
        && loop.wakeupFd == old(loop.wakeupFd) + (if up && (!inLoopThread || loop.calling) then 1 else 0)
        && state == if up then S.Disconnecting else old(state)
    {
      hide EPollPoller.View, R.Change;
      if state == S.Connected || state == S.Disconnecting {
        state := S.Disconnecting;
        loop.QueueInLoop(CloseTask, inLoopThread);
      }
    }

    method ForceCloseInLoop() returns (calls: seq<UserCall>)
      requires Valid()
      modifies `state, channel`events, channel`index, channel.poller
      ensures var up := old(state) == S.Connected || old(state) == S.Disconnecting;
        && Valid() && View() == (if up then S.Closed(old(View())) else old(View()))
        && calls == (if up then [ConnectionCall, CloseCall] else [])
        && channel.poller.View()
           == (if up then R.Change(old(channel.poller.View()), channel, R.NONE_EVENT) else old(channel.poller.View()))
    {
      hide EPollPoller.View, R.Change;
      calls := [];
      if state == S.Connected || state == S.Disconnecting {
        calls := HandleClose();
      }
    }
  }
}
