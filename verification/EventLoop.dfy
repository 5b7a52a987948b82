/** EventLoop.cc: the functor queue, the eventfd and the flags of one loop, stepped by its owner
    thread and by any number of other threads. A push and the wake-up write that follows it are
    separate steps, as are the test of quit_, the poll, the dispatch and each functor. */
module LoopProtocol {
  /** Where the owner is: outside loop(), at the while test, in epoll_wait, walking the active
      channels, between setting callingPendingFunctions_ and the swap, or running the batch. */
  datatype Pc = Outside | Head | Poll | Dispatch | Swapping | Running

  /** `writers` counts threads between a push (or a store to quit_) and their write to the
      eventfd, `owes` is the owner in that place; `wakeReported` says the poll listed the wakeup
      channel, not yet read; `preloaded` says the owner queued something outside loop().
      `pushed` and `executed` are histories. */
  datatype State<F> = State(
    pc: Pc, pending: seq<F>, batch: seq<F>, pos: nat, calling: bool, quit: bool,
    eventfd: nat, writers: nat, owes: bool, wakeReported: bool, preloaded: bool,
    pushed: seq<F>, executed: seq<F>)
  {
    /** What the owner will still run, in order, if nothing else is pushed. */
    function Work(): seq<F>
      requires pos <= |batch|
    {
      batch[pos..] + pending
    }
  }

  datatype Step<F> =
    | EnterLoop | TestQuit | PollReturns(wake: bool) | HandleRead | StartPass | Swap | RunNext | EndPass
    | OwnerPush(f: F) | OwnerWrite | OwnerQuit
    | OtherPush(f: F) | OtherQuit | OtherWrite

  function Init<F>(): State<F> {
    State(Outside, [], [], 0, false, false, 0, 0, false, false, false, [], [])
  }

  /** Code outside the loop's own text runs on the owner thread here. */
  predicate InCallback<F>(s: State<F>) {
    s.pc == Outside || s.pc == Dispatch || s.pc == Running
  }

  predicate Enabled<F>(s: State<F>, a: Step<F>) {
    match a
    case EnterLoop => s.pc == Outside && !s.owes
    case TestQuit => s.pc == Head && !s.owes
    case PollReturns(wake) => s.pc == Poll && !s.owes && (wake ==> s.eventfd > 0)
    case HandleRead => s.pc == Dispatch && !s.owes && s.wakeReported
    case StartPass => s.pc == Dispatch && !s.owes && !s.wakeReported
    case Swap => s.pc == Swapping && !s.owes
    case RunNext => s.pc == Running && !s.owes && s.pos < |s.batch|
    case EndPass => s.pc == Running && !s.owes && s.pos == |s.batch|
    case OwnerPush(_) => InCallback(s) && !s.owes
    case OwnerWrite => s.owes
    case OwnerQuit => InCallback(s) && !s.owes
    case OtherPush(_) => true
    case OtherQuit => true
    case OtherWrite => s.writers > 0
  }

  function Push<F>(s: State<F>, f: F): State<F> {
    s.(pending := s.pending + [f], pushed := s.pushed + [f])
  }

  function Apply<F>(s: State<F>, a: Step<F>): State<F>
    requires Enabled(s, a)
  {
    match a
    case EnterLoop => s.(pc := Head, quit := false)
    case TestQuit => if s.quit then s.(pc := Outside) else s.(pc := Poll)
    case PollReturns(wake) => s.(pc := Dispatch, wakeReported := wake)
    case HandleRead => s.(eventfd := 0, wakeReported := false)
    case StartPass => s.(pc := Swapping, calling := true)
    case Swap => s.(pc := Running, batch := s.pending, pos := 0, pending := [], preloaded := false)
    case RunNext => s.(pos := s.pos + 1, executed := s.executed + [s.batch[s.pos]])
    case EndPass => s.(pc := Head, calling := false, batch := [], pos := 0)
    case OwnerPush(f) => Push(s, f).(owes := s.calling, preloaded := s.preloaded || s.pc == Outside)
    case OwnerWrite => s.(eventfd := s.eventfd + 1, owes := false)
    case OwnerQuit => s.(quit := true)
    case OtherPush(f) => Push(s, f).(writers := s.writers + 1)
    case OtherQuit => s.(quit := true, writers := s.writers + 1)
    case OtherWrite => s.(eventfd := s.eventfd + 1, writers := s.writers - 1)
  }

  /** Someone has written the eventfd, or is about to. */
  predicate Awake<F>(s: State<F>) { s.eventfd > 0 || s.writers > 0 || s.owes }

  /** Where the owner is, and who is awake. */
  ghost predicate Flags<F>(s: State<F>) {
    && s.pos <= |s.batch|
    && (s.pc != Running ==> s.batch == [])
    && (s.calling <==> s.pc == Swapping || s.pc == Running)
    && (s.owes ==> s.pc == Running)
    && (s.wakeReported ==> s.pc == Dispatch && s.eventfd > 0)
    && (s.pc != Dispatch && s.pc != Swapping && s.pending != [] ==> Awake(s) || s.preloaded)
    && (s.pc == Poll && s.quit ==> Awake(s))
    && (s.preloaded ==> s.pending != [])
  }

  ghost predicate Inv<F>(s: State<F>) {
    Flags(s) && s.executed + s.Work() == s.pushed
  }

  /** What a step does to the owner's remaining work: pushes go to its end, running takes its head. */
  lemma StepMovesWork<F>(s: State<F>, a: Step<F>)
    requires s.pos <= |s.batch| && (s.pc != Running ==> s.batch == []) && Enabled(s, a)
    ensures var t := Apply(s, a);
      && t.pos <= |t.batch|
      && (a.OwnerPush? || a.OtherPush? ==> t.Work() == s.Work() + [a.f])
      && (a.RunNext? ==> s.Work() == [s.batch[s.pos]] + t.Work())
      && (!a.OwnerPush? && !a.OtherPush? && !a.RunNext? ==> t.Work() == s.Work())
  {
    var t := Apply(s, a);
    if a.RunNext? {
      assert s.batch[s.pos..] == [s.batch[s.pos]] + s.batch[s.pos + 1..];
    } else if a.OwnerPush? || a.OtherPush? {
      assert s.batch[s.pos..] + (s.pending + [a.f]) == s.batch[s.pos..] + s.pending + [a.f];
    }
  }

  lemma WholeTail<F>(a: seq<F>, i: nat)
    requires i <= |a|
    ensures a[i..|a|] == a[i..]
  {
    assert a[..|a|] == a;
  }

  lemma Regroup<F>(a: seq<F>, b: seq<F>, c: seq<F>)
    ensures a + (b + c) == (a + b) + c
  {
  }

  /** What the invariant says of an owner that never queued anything outside loop(). */
  lemma InvMeans<F>(s: State<F>)
    requires Inv(s)
    ensures s.pos <= |s.batch| && s.executed + s.batch[s.pos..] + s.pending == s.pushed
    ensures s.pc == Poll && s.pending != [] && !s.preloaded ==> s.eventfd > 0 || s.writers > 0
  {
    Regroup(s.executed, s.batch[s.pos..], s.pending);
  }

  lemma StepRecords<F>(s: State<F>, a: Step<F>)
    requires Enabled(s, a)
    ensures var t := Apply(s, a);
      && t.executed == (if a.RunNext? then s.executed + [s.batch[s.pos]] else s.executed)
      && t.pushed == (if a.OwnerPush? || a.OtherPush? then s.pushed + [a.f] else s.pushed)
  {
  }

  /** The history side: what was executed and what is left are the pushes. */
  lemma StepKeepsOrder<F>(s: State<F>, a: Step<F>)
    requires s.pos <= |s.batch| && (s.pc != Running ==> s.batch == []) && Enabled(s, a)
    requires s.executed + s.Work() == s.pushed
    ensures var t := Apply(s, a); t.pos <= |t.batch| && t.executed + t.Work() == t.pushed
  {
    StepMovesWork(s, a);
    StepRecords(s, a);
    hide Apply, State<F>.Work;
    var t, w, w' := Apply(s, a), s.Work(), Apply(s, a).Work();
    if a.RunNext? {
      Regroup(s.executed, [s.batch[s.pos]], w');
    } else if a.OwnerPush? || a.OtherPush? {
      Regroup(s.executed, w, [a.f]);
    }
  }

  lemma StepKeepsInv<F>(s: State<F>, a: Step<F>)
    requires Inv(s) && Enabled(s, a)
    ensures Inv(Apply(s, a))
  {
    StepKeepsFlags(s, a);
    StepKeepsOrder(s, a);
    hide Apply;
  }

  lemma StepKeepsFlags<F>(s: State<F>, a: Step<F>)
    requires Flags(s) && Enabled(s, a)
    ensures Flags(Apply(s, a))
  {
  }

  predicate Executable<F>(s: State<F>, run: seq<Step<F>>)
    decreases |run|
  {
    run != [] ==> Enabled(s, run[0]) && Executable(Apply(s, run[0]), run[1..])
  }

  function Exec<F>(s: State<F>, run: seq<Step<F>>): State<F>
    requires Executable(s, run)
    decreases |run|
  {
    if run == [] then s else Exec(Apply(s, run[0]), run[1..])
  }

  lemma {:induction false} ExecOneMore<F>(s: State<F>, run: seq<Step<F>>, a: Step<F>)
    requires Executable(s, run) && Enabled(Exec(s, run), a)
    ensures Executable(s, run + [a]) && Exec(s, run + [a]) == Apply(Exec(s, run), a)
    decreases |run|
  {
    if run == [] {
      assert run + [a] == [a] && [a][1..] == [];
      assert Exec(Apply(s, a), []) == Apply(s, a);
    } else {
      assert (run + [a])[1..] == run[1..] + [a] && (run + [a])[0] == run[0];
      ExecOneMore(Apply(s, run[0]), run[1..], a);
    }
  }

  /** The run goes from s to t. */
  ghost predicate Leads<F>(s: State<F>, run: seq<Step<F>>, t: State<F>) { Executable(s, run) && Exec(s, run) == t }

  lemma LeadsNowhere<F>(s: State<F>)
    ensures Leads(s, [], s)
  {
  }

  lemma LeadsOneMore<F>(s: State<F>, run: seq<Step<F>>, t: State<F>, a: Step<F>, u: State<F>)
    requires Leads(s, run, t) && Enabled(t, a) && u == Apply(t, a)
    ensures Leads(s, run + [a], u)
  {
    hide Apply, Enabled;
    ExecOneMore(s, run, a);
  }

  lemma {:induction false} RunKeepsInv<F>(s: State<F>, run: seq<Step<F>>)
    requires Inv(s) && Executable(s, run)
    ensures Inv(Exec(s, run))
    decreases |run|
  {
    if run != [] {
      StepKeepsInv(s, run[0]);
      RunKeepsInv(Apply(s, run[0]), run[1..]);
    }
  }

  lemma InitInv<F>()
    ensures Inv<F>(Init())
  {
  }

  /** Exactly once and in push order: after any run, what was executed, what is left of the
      swapped batch and what is pending are together the pushes, in their order. */
  lemma ExactlyOnceInOrder<F>(run: seq<Step<F>>)
    requires Executable(Init(), run)
    ensures var s := Exec(Init(), run); s.pos <= |s.batch| && s.executed + s.batch[s.pos..] + s.pending == s.pushed
  {
    InitInv<F>();
    RunKeepsInv(Init(), run);
    InvMeans(Exec(Init(), run));
  }

  /** No lost wake-up: an owner in epoll_wait with work or a quit request from after EnterLoop
      waiting is not stuck: the eventfd is readable, or a writer is on its way to it. The one
      exception is a functor the owner itself queued before entering the loop. */
  lemma NoLostWakeup<F>(run: seq<Step<F>>)
    requires Executable(Init(), run)
    ensures var s := Exec(Init(), run);
            && (s.pc == Poll && s.pending != [] ==> s.eventfd > 0 || s.writers > 0 || s.preloaded)
            && (s.pc == Poll && s.quit ==> s.eventfd > 0 || s.writers > 0)
  {
    InitInv<F>();
    RunKeepsInv(Init(), run);
  }

  /** The owner asleep beside work that nobody will announce. */
  ghost predicate Stuck<F>(s: State<F>) { s.pc == Poll && s.pending != [] && s.eventfd == 0 && s.writers == 0 }

  /** A run in which the owner queues only from inside the loop never gets stuck. */
  lemma {:induction false} NeverStuckUnlessPreloaded<F>(s: State<F>, run: seq<Step<F>>)
    requires Inv(s) && !s.preloaded && Executable(s, run)
    requires forall f, i :: 0 <= i < |run| && run[i] == OwnerPush(f) ==> Exec(s, Prefix(s, run, i)).pc != Outside
    ensures !Exec(s, run).preloaded && !Stuck(Exec(s, run))
    decreases |run|
  {
    RunKeepsInv(s, run);
    if run != [] {
      var a, t := run[0], Apply(s, run[0]);
      StepKeepsInv(s, a);
      assert Prefix(s, run, 0) == [] && Exec(s, []) == s;
      assert a.OwnerPush? ==> run[0] == OwnerPush(a.f);
      forall f, i | 0 <= i < |run[1..]| && run[1..][i] == OwnerPush(f)
        ensures Exec(t, Prefix(t, run[1..], i)).pc != Outside
      {
        assert run[i + 1] == OwnerPush(f);
        var p := Prefix(s, run, i + 1);
        assert p[0] == a && p[1..] == Prefix(t, run[1..], i);
      }
      NeverStuckUnlessPreloaded(t, run[1..]);
    }
  }

  /** The first n steps of a run are a run. */
  function Prefix<F>(s: State<F>, run: seq<Step<F>>, n: nat): (p: seq<Step<F>>)
    requires Executable(s, run) && n <= |run|
    ensures p == run[..n] && Executable(s, p)
    decreases n
  {
    if n == 0 then [] else
      var p := [run[0]] + Prefix(Apply(s, run[0]), run[1..], n - 1);
      assert p[1..] == run[1..][..n - 1];
      p
  }

  /** Over all runs, an owner in the poll is stuck exactly when it queued something outside the
      loop since its last swap and nobody has written the eventfd since, or is about to. */
  lemma StuckIff<F>(run: seq<Step<F>>)
    requires Executable(Init(), run)
    ensures var s := Exec(Init(), run); Stuck(s) <==> s.pc == Poll && s.preloaded && s.eventfd == 0 && s.writers == 0
  {
    InitInv<F>();
    RunKeepsInv(Init(), run);
  }

  /** A loop its owner has not entered, or has left, with nothing queued and nothing to read. */
  ghost predicate AtRest<F>(s: State<F>) {
    s.pc == Outside && s.pending == [] && s.batch == [] && s.eventfd == 0 && s.writers == 0 && !s.owes && !s.calling
  }

  predicate BeforePoll<F>(run: seq<Step<F>>) { forall i :: 0 <= i < |run| ==> !run[i].PollReturns? }

  ghost predicate OwnerQueues<F>(run: seq<Step<F>>) { exists i :: 0 <= i < |run| && run[i].OwnerPush? }

  ghost predicate OthersCall<F>(run: seq<Step<F>>) {
    exists i :: 0 <= i < |run| && (run[i].OtherPush? || run[i].OtherQuit?)
  }

  lemma {:induction false} UpToPoll<F>(s: State<F>, run: seq<Step<F>>)
    requires Executable(s, run) && BeforePoll(run)
    requires (s.pc == Outside || s.pc == Head || s.pc == Poll) && !s.owes && !s.calling
    ensures var t := Exec(s, run);
      && (t.pc == Outside || t.pc == Head || t.pc == Poll) && !t.owes
      && (t.eventfd + t.writers > 0 <==> s.eventfd + s.writers > 0 || OthersCall(run))
      && (t.pending != [] ==> s.pending != [] || OwnerQueues(run) || OthersCall(run))
      && (s.pending != [] || OwnerQueues(run) ==> t.pending != [])
    decreases |run|
  {
    if run != [] {
      var a, tail := run[0], run[1..];
      assert run == [a] + tail;
      UpToPoll(Apply(s, a), tail);
      assert OthersCall(run) <==> a.OtherPush? || a.OtherQuit? || OthersCall(tail) by { OthersSplit(a, tail); }
      assert OwnerQueues(run) <==> a.OwnerPush? || OwnerQueues(tail) by { OwnerSplit(a, tail); }
    }
  }

  lemma OthersSplit<F>(a: Step<F>, tail: seq<Step<F>>)
    ensures OthersCall([a] + tail) <==> a.OtherPush? || a.OtherQuit? || OthersCall(tail)
  {
    var run := [a] + tail;
    if OthersCall(tail) {
      var i :| 0 <= i < |tail| && (tail[i].OtherPush? || tail[i].OtherQuit?);
      assert run[i + 1] == tail[i];
    }
    if a.OtherPush? || a.OtherQuit? { assert run[0] == a; }
    if OthersCall(run) && !(a.OtherPush? || a.OtherQuit?) {
      var i :| 0 <= i < |run| && (run[i].OtherPush? || run[i].OtherQuit?);
      assert tail[i - 1] == run[i];
    }
  }

  lemma OwnerSplit<F>(a: Step<F>, tail: seq<Step<F>>)
    ensures OwnerQueues([a] + tail) <==> a.OwnerPush? || OwnerQueues(tail)
  {
    var run := [a] + tail;
    if OwnerQueues(tail) {
      var i :| 0 <= i < |tail| && tail[i].OwnerPush?;
      assert run[i + 1] == tail[i];
    }
    if a.OwnerPush? { assert run[0] == a; }
    if OwnerQueues(run) && !a.OwnerPush? {
      var i :| 0 <= i < |run| && run[i].OwnerPush?;
      assert tail[i - 1] == run[i];
    }
  }

  /** The first poll of a loop at rest sleeps beside work exactly when its owner queued something
      before entering and no other thread has called since. */
  lemma FirstPollStuckIff<F>(s: State<F>, run: seq<Step<F>>)
    requires AtRest(s) && Executable(s, run) && BeforePoll(run) && Exec(s, run).pc == Poll
    ensures Stuck(Exec(s, run)) <==> OwnerQueues(run) && !OthersCall(run)
  {
    UpToPoll(s, run);
  }

  /** So queueing one functor and entering the loop is enough. */
  lemma PreloadedFunctorSleeps(f: int)
    ensures var run := [OwnerPush(f), EnterLoop, TestQuit];
            Executable(Init(), run) && Stuck(Exec(Init(), run))
  {
    var s1 := Apply(Init(), OwnerPush(f));
    var s2 := Apply(s1, EnterLoop);
    var s3 := Apply(s2, TestQuit);
    var run := [OwnerPush(f), EnterLoop, TestQuit];
    assert run[0].OwnerPush?;
    assert run[1..] == [EnterLoop, TestQuit] && run[1..][1..] == [TestQuit] && run[1..][1..][1..] == [];
    assert Executable(s3, []) && Exec(s3, []) == s3;
    assert Executable(s2, [TestQuit]) && Exec(s2, [TestQuit]) == s3;
    assert Executable(s1, [EnterLoop, TestQuit]) && Exec(s1, [EnterLoop, TestQuit]) == s3;
    FirstPollStuckIff(Init(), run);
  }

  /** A quit() that comes before loop() is erased: the first test of an entered loop leaves it
      exactly when some thread called quit() in between. */
  lemma EarlyQuitErased<F>(s: State<F>, others: seq<Step<F>>)
    requires s.pc == Outside && !s.owes && Executable(Apply(s, EnterLoop), others)
    requires forall i :: 0 <= i < |others| ==> others[i] != TestQuit
    ensures var t := Exec(Apply(s, EnterLoop), others);
            Enabled(t, TestQuit) && (Apply(t, TestQuit).pc == Outside <==> OtherQuit in others)
  {
    AtTheTest(Apply(s, EnterLoop), others);
  }

  lemma {:induction false} AtTheTest<F>(s: State<F>, others: seq<Step<F>>)
    requires s.pc == Head && !s.owes && Executable(s, others)
    requires forall i :: 0 <= i < |others| ==> others[i] != TestQuit
    ensures var t := Exec(s, others); t.pc == Head && !t.owes && (t.quit <==> s.quit || OtherQuit in others)
    decreases |others|
  {
    if others != [] {
      assert others == [others[0]] + others[1..];
      AtTheTest(Apply(s, others[0]), others[1..]);
    }
  }

  /** While a pass runs, its batch is the one it swapped in and only shrinks from the front. */
  lemma PassStep<F>(s: State<F>, a: Step<F>)
    requires Inv(s) && Enabled(s, a) && s.pc == Running && a != EndPass
    ensures var t := Apply(s, a);
            && t.pc == Running && t.batch == s.batch && s.pos <= t.pos <= s.pos + 1
            && t.executed == s.executed + s.batch[s.pos..t.pos]
            && (t.pos == s.pos + 1 <==> a == RunNext)
  {
  }

  ghost predicate OnePass<F>(run: seq<Step<F>>) { forall i :: 0 <= i < |run| ==> run[i] != EndPass }

  /** However many threads and functors push meanwhile, a pass cannot run more than the functors
      present at its swap, and when it can end it has run exactly those, in order. */
  lemma {:induction false} PassRunsItsBatch<F>(s: State<F>, run: seq<Step<F>>)
    requires Inv(s) && s.pc == Running && Executable(s, run) && OnePass(run)
    ensures var t := Exec(s, run);
            && t.pc == Running && t.batch == s.batch && s.pos <= t.pos <= |s.batch|
            && t.executed == s.executed + s.batch[s.pos..t.pos]
            && (Enabled(t, EndPass) ==> t.executed == s.executed + s.batch[s.pos..])
    decreases |run|
  {
    hide Inv, Apply;
    InvMeans(s);
    if run != [] {
      var u := Apply(s, run[0]);
      StepKeepsInv(s, run[0]);
      PassStep(s, run[0]);
      PassRunsItsBatch(u, run[1..]);
      var t := Exec(u, run[1..]);
      assert s.executed + s.batch[s.pos..u.pos] + s.batch[u.pos..t.pos] == s.executed + s.batch[s.pos..t.pos];
    }
    WholeTail(s.batch, s.pos);
  }

  /** Once written, the eventfd stays readable until the owner's next HandleRead; so what a
      functor queues during a pass makes the next poll return at once. */
  lemma {:induction false} WrittenUntilRead<F>(s: State<F>, run: seq<Step<F>>)
    requires Executable(s, run) && s.eventfd > 0
    requires forall i :: 0 <= i < |run| ==> run[i] != HandleRead
    ensures Exec(s, run).eventfd > 0
    decreases |run|
  {
    if run != [] {
      WrittenUntilRead(Apply(s, run[0]), run[1..]);
    }
  }

  predicate Writes<F>(a: Step<F>) { a.OwnerWrite? || a.OtherWrite? }

  /** The writes of a run since its last read of the eventfd, with n unread before it. */
  function Unread<F>(n: nat, run: seq<Step<F>>): nat
    decreases |run|
  {
    if run == [] then n
    else Unread(if run[0].HandleRead? then 0 else if Writes(run[0]) then n + 1 else n, run[1..])
  }

  lemma StepCounts<F>(s: State<F>, a: Step<F>)
    requires Enabled(s, a)
    ensures Apply(s, a).eventfd == if a.HandleRead? then 0 else if Writes(a) then s.eventfd + 1 else s.eventfd
  {
  }

  /** The counter is the number of writes nobody has read yet, so a poll may report the wakeup
      channel exactly when there are any. */
  lemma {:induction false} EventfdCounts<F>(s: State<F>, run: seq<Step<F>>)
    requires Executable(s, run)
    ensures var t, n := Exec(s, run), Unread(s.eventfd, run);
            t.eventfd == n && (t.pc == Poll && !t.owes ==> (Enabled(t, PollReturns(true)) <==> n > 0))
    decreases |run|
  {
    hide Apply;
    if run != [] {
      StepCounts(s, run[0]);
      EventfdCounts(Apply(s, run[0]), run[1..]);
    }
  }

  /** A read takes all wake-ups there were: until somebody writes again, no poll reports the wakeup
      channel, however often the loop comes round. */
  lemma ReadEmpties<F>(s: State<F>, run: seq<Step<F>>)
    requires Enabled(s, HandleRead) && Executable(Apply(s, HandleRead), run)
    requires forall i :: 0 <= i < |run| ==> !Writes(run[i])
    ensures !Enabled(Exec(Apply(s, HandleRead), run), PollReturns(true))
  {
    EventfdCounts(Apply(s, HandleRead), run);
    NothingUnread(run);
  }

  lemma {:induction false} NothingUnread<F>(run: seq<Step<F>>)
    requires forall i :: 0 <= i < |run| ==> !Writes(run[i])
    ensures Unread(0, run) == 0
    decreases |run|
  {
    if run != [] { NothingUnread(run[1..]); }
  }

  /** Between a poll and the pass that follows it the owner reads the eventfd if the poll reported
      the wakeup channel, and does not touch it otherwise. */
  lemma ReportedIsRead<F>(s: State<F>, wake: bool, run: seq<Step<F>>)
    requires Enabled(s, PollReturns(wake)) && Executable(Apply(s, PollReturns(wake)), run)
    requires forall i :: 0 <= i < |run| ==> !run[i].StartPass?
    requires Enabled(Exec(Apply(s, PollReturns(wake)), run), StartPass)
    ensures wake <==> HandleRead in run
  {
    DispatchReads(Apply(s, PollReturns(wake)), run);
  }

  lemma {:induction false} DispatchReads<F>(s: State<F>, run: seq<Step<F>>)
    requires s.pc == Dispatch && Executable(s, run) && forall i :: 0 <= i < |run| ==> !run[i].StartPass?
    ensures Exec(s, run).pc == Dispatch && (Exec(s, run).wakeReported <==> s.wakeReported && HandleRead !in run)
    ensures HandleRead in run ==> s.wakeReported
    decreases |run|
  {
    if run != [] {
      assert run == [run[0]] + run[1..];
      DispatchReads(Apply(s, run[0]), run[1..]);
    }
  }

  /** How many writes the calls of a run oblige somebody to: one for each push or quit of another
      thread, one for each push of the owner's functors. */
  function Owed<F>(s: State<F>, run: seq<Step<F>>): nat
    requires Executable(s, run)
    decreases |run|
  {
    if run == [] then 0 else
      var a := run[0];
      (if Obliges(s, a) then 1 else 0) + Owed(Apply(s, a), run[1..])
  }

  predicate Obliges<F>(s: State<F>, a: Step<F>) {
    a.OtherPush? || a.OtherQuit? || (a.OwnerPush? && s.pc == Running)
  }

  lemma StepBalances<F>(s: State<F>, a: Step<F>)
    requires Inv(s) && Enabled(s, a)
    ensures var t := Apply(s, a);
            (if Writes(a) then 1 else 0) + t.writers + (if t.owes then 1 else 0)
            == (if Obliges(s, a) then 1 else 0) + s.writers + if s.owes then 1 else 0
  {
  }

  function Written<F>(run: seq<Step<F>>): nat
    decreases |run|
  {
    if run == [] then 0 else (if Writes(run[0]) then 1 else 0) + Written(run[1..])
  }

  /** Every write of the eventfd is owed to one call, and every such call's write is made, or its
      thread is about to make it. */
  lemma EveryWriteIsOwed<F>(s: State<F>, run: seq<Step<F>>)
    requires Inv(s) && s.writers == 0 && !s.owes && Executable(s, run)
    ensures var t := Exec(s, run); Written(run) + t.writers + (if t.owes then 1 else 0) == Owed(s, run)
  {
    WritesBalance(s, run);
  }

  lemma {:induction false} WritesBalance<F>(s: State<F>, run: seq<Step<F>>)
    requires Inv(s) && Executable(s, run)
    ensures var t := Exec(s, run);
            Written(run) + t.writers + (if t.owes then 1 else 0)
            == Owed(s, run) + s.writers + if s.owes then 1 else 0
    decreases |run|
  {
    hide Apply, Inv, Enabled;
    if run != [] {
      StepKeepsInv(s, run[0]);
      StepBalances(s, run[0]);
      WritesBalance(Apply(s, run[0]), run[1..]);
    }
  }

  /** A functor queued by a functor: at the next poll entered, before any HandleRead, the poll may
      report the wakeup channel. */
  lemma RequeuedIsAnnounced<F>(s: State<F>, f: F, run: seq<Step<F>>)
    requires Inv(s) && s.pc == Running && !s.owes
    requires var t := Apply(s, OwnerPush(f));
             Enabled(t, OwnerWrite) ==> Executable(Apply(t, OwnerWrite), run)
    requires forall i :: 0 <= i < |run| ==> run[i] != HandleRead
    ensures var t := Apply(s, OwnerPush(f));
            && t.owes
            && (forall a :: Enabled(t, a) && !a.OtherPush? && !a.OtherQuit? && !a.OtherWrite? ==> a == OwnerWrite)
            && var u := Exec(Apply(t, OwnerWrite), run);
               u.pc == Poll ==> Enabled(u, PollReturns(true))
  {
    var t := Apply(s, OwnerPush(f));
    var w := Apply(t, OwnerWrite);
    StepKeepsInv(s, OwnerPush(f));
    StepKeepsInv(t, OwnerWrite);
    RunKeepsInv(w, run);
    WrittenUntilRead(w, run);
  }
}

/** The EventLoop object as its owner thread runs it, with the functors' own effects given: running
    functor f queues the functors `requeues(f)` on the same loop. */
module EventLoops {
  import opened LoopProtocol

  class EventLoop<F(!new)> {
    var quit: bool
    var calling: bool  // callingPendingFunctions_
    var pendingFunctors: seq<F>
    var wakeupFd: nat  // the eventfd's counter
    ghost var pushed: seq<F>
    ghost var executed: seq<F>

    constructor ()
      ensures pendingFunctors == [] && !quit && !calling && wakeupFd == 0 && pushed == executed == []
    {
      quit, calling, pendingFunctors, wakeupFd, pushed, executed := false, false, [], 0, [], [];
    }

    /** The object at rest: no other thread inside a call, nothing swapped out. */
    ghost function View(pc: Pc, batch: seq<F>, pos: nat, preloaded: bool): State<F>
      reads this
    {
      State(pc, pendingFunctors, batch, pos, calling, quit, wakeupFd, 0, false, false, preloaded, pushed, executed)
    }

    method Quit(inLoopThread: bool)
      modifies `quit, `wakeupFd
      ensures quit && wakeupFd == old(wakeupFd) + (if inLoopThread then 0 else 1)
      ensures forall pc, batch, pos, pre ::
                var s := old(View(pc, batch, pos, pre));
                && (inLoopThread && InCallback(s) ==> View(pc, batch, pos, pre) == Apply(s, OwnerQuit))
                && (!inLoopThread ==> View(pc, batch, pos, pre) == Apply(Apply(s, OtherQuit), OtherWrite))
    {
      quit := true;
      if !inLoopThread {
        Wakeup();
      }
    }

    /** runInLoop on a functor that is data: on the owner thread it is handed back to be run now. */
    method RunInLoop(cb: F, inLoopThread: bool) returns (now: seq<F>)
      modifies `pendingFunctors, `wakeupFd, `pushed
      ensures inLoopThread ==> now == [cb] && unchanged(this)
      ensures !inLoopThread ==> now == [] && wakeupFd == old(wakeupFd) + 1
      ensures !inLoopThread ==> pendingFunctors == old(pendingFunctors) + [cb] && pushed == old(pushed) + [cb]
    {
      if inLoopThread {
        now := [cb];
      } else {
        now := [];
        QueueInLoop(cb, inLoopThread);
      }
    }

    /** Both halves, undisturbed: the protocol's push and, unless the owner calls outside a pass, write. */
    method QueueInLoop(cb: F, inLoopThread: bool)
      modifies `pendingFunctors, `wakeupFd, `pushed
      ensures pendingFunctors == old(pendingFunctors) + [cb] && pushed == old(pushed) + [cb]
      ensures wakeupFd == old(wakeupFd) + (if !inLoopThread || calling then 1 else 0)
      ensures forall pc, batch, pos, pre ::
                var s := old(View(pc, batch, pos, pre));
                !inLoopThread ==> View(pc, batch, pos, pre) == Apply(Apply(s, OtherPush(cb)), OtherWrite)
      ensures forall pc, batch, pos, pre ::
                var s := old(View(pc, batch, pos, pre));
                inLoopThread && InCallback(s)
                ==> View(pc, batch, pos, pre || pc == Outside)
                    == if calling then Apply(Apply(s, OwnerPush(cb)), OwnerWrite) else Apply(s, OwnerPush(cb))
    {
      pendingFunctors := pendingFunctors + [cb];
      pushed := pushed + [cb];
      if !inLoopThread || calling {
        Wakeup();
      }
    }

    method Wakeup()
      modifies `wakeupFd
      ensures wakeupFd == old(wakeupFd) + 1
    {
      wakeupFd := wakeupFd + 1;
    }

    /** The wakeup channel's read callback: the protocol's step, the poll having reported it. */
    method HandleRead()
      modifies `wakeupFd
      ensures wakeupFd == 0
      ensures forall batch, pos, pre ::
                View(Dispatch, batch, pos, pre)
                == Apply(old(View(Dispatch, batch, pos, pre)).(wakeReported := true), LoopProtocol.HandleRead)
    {
      wakeupFd := 0;
    }

    /** One pass, alone on the object. It ends although every functor may queue more; it runs
        exactly what was pending when it started; what they queued is pending, announced once each.
        `run` are the protocol's steps it takes, from the end of the dispatch to the while test. */
    method DoPendingFunctors(requeues: F -> seq<F>) returns (ghost run: seq<Step<F>>)
      requires !calling
      modifies this
      ensures executed == old(executed) + old(pendingFunctors)
      ensures pendingFunctors == Flatten(old(pendingFunctors), requeues)
      ensures pushed == old(pushed) + pendingFunctors
      ensures wakeupFd == old(wakeupFd) + |pendingFunctors|
      ensures !calling && quit == old(quit)
      ensures Leads(old(View(Dispatch, [], 0, false)), run, View(Head, [], 0, false))
    {
      hide Leads, Apply;
      ghost var s := View(Dispatch, [], 0, false);
      PassBegins(s);
      calling := true;
      var functors := pendingFunctors;
      pendingFunctors := [];
      run := [StartPass, Swap];
      var i := 0;
      while i < |functors|
        invariant 0 <= i <= |functors| && calling && quit == old(quit)
        invariant executed == old(executed) + functors[..i]
        invariant pendingFunctors == Flatten(functors[..i], requeues)
        invariant pushed == old(pushed) + pendingFunctors
        invariant wakeupFd == old(wakeupFd) + |pendingFunctors|
        invariant Leads(s, run, View(Running, functors, i, false))
      {
        FlattenSnoc(functors[..i], functors[i], requeues);
        assert functors[..i + 1] == functors[..i] + [functors[i]];
        run := Run(functors[i], requeues(functors[i]), s, run, functors, i);
        i := i + 1;
      }
      assert functors[..i] == functors;
      ghost var u := View(Running, functors, i, false);
      calling := false;
      PassEnds(u);
      LeadsOneMore(s, run, u, EndPass, View(Head, [], 0, false));
      run := run + [EndPass];
    }

    /** functor(): here, the calls of queueInLoop it makes. */
    method Run(functor: F, queued: seq<F>, ghost s: State<F>, ghost before: seq<Step<F>>, ghost batch: seq<F>,
               ghost pos: nat)
      returns (ghost run: seq<Step<F>>)
      requires calling && pos < |batch| && batch[pos] == functor
      requires Leads(s, before, View(Running, batch, pos, false))
      modifies `pendingFunctors, `wakeupFd, `pushed, `executed
      ensures executed == old(executed) + [functor]
      ensures pendingFunctors == old(pendingFunctors) + queued && pushed == old(pushed) + queued
      ensures wakeupFd == old(wakeupFd) + |queued|
      ensures Leads(s, run, View(Running, batch, pos + 1, false))
    {
      hide Leads;
      ghost var was := View(Running, batch, pos, false);
      executed := executed + [functor];
      LeadsOneMore(s, before, was, RunNext, View(Running, batch, pos + 1, false));
      run := before + [RunNext];
      var j := 0;
      while j < |queued|
        invariant 0 <= j <= |queued| && calling && executed == old(executed) + [functor]
        invariant pendingFunctors == old(pendingFunctors) + queued[..j] && pushed == old(pushed) + queued[..j]
        invariant wakeupFd == old(wakeupFd) + j
        invariant Leads(s, run, View(Running, batch, pos + 1, false))
      {
        was := View(Running, batch, pos + 1, false);
        QueueInLoop(queued[j], true);
        ghost var mid := Apply(was, OwnerPush(queued[j]));
        LeadsOneMore(s, run, was, OwnerPush(queued[j]), mid);
        LeadsOneMore(s, run + [OwnerPush(queued[j])], mid, OwnerWrite, View(Running, batch, pos + 1, false));
        run := run + [OwnerPush(queued[j])] + [OwnerWrite];
        j := j + 1;
      }
    }
  }

  lemma PassBegins<F>(s: State<F>)
    requires s.pc == Dispatch && !s.owes && !s.wakeReported
    ensures Leads(s, [StartPass, Swap],
                  s.(pc := Running, batch := s.pending, pos := 0, pending := [], calling := true, preloaded := false))
  {
    var u, run: seq<Step<F>> := Apply(s, StartPass), [];
    LeadsNowhere(s);
    LeadsOneMore(s, run, s, StartPass, u);
    LeadsOneMore(s, run + [StartPass], u, Swap, Apply(u, Swap));
    assert run + [StartPass] + [Swap] == [StartPass, Swap];
  }

  lemma PassEnds<F>(s: State<F>)
    requires s.pc == Running && !s.owes && s.pos == |s.batch|
    ensures Enabled(s, EndPass) && Apply(s, EndPass) == s.(pc := Head, calling := false, batch := [], pos := 0)
  {
  }

  /** All that a batch queues, in the order it queues it. */
  function Flatten<F>(fs: seq<F>, requeues: F -> seq<F>): seq<F> {
    if fs == [] then [] else requeues(fs[0]) + Flatten(fs[1..], requeues)
  }

  lemma {:induction false} FlattenSnoc<F>(fs: seq<F>, f: F, requeues: F -> seq<F>)
    ensures Flatten(fs + [f], requeues) == Flatten(fs, requeues) + requeues(f)
  {
    if fs == [] {
      assert fs + [f] == [f] && [f][1..] == [];
    } else {
      assert (fs + [f])[1..] == fs[1..] + [f];
      FlattenSnoc(fs[1..], f, requeues);
    }
  }
}
