/** EventLoopThreadPool.cc: the io loops of a server and the round-robin choice among them. */
module ThreadPools {

  /** getNextLoop on (loops_, next_). */
  function Pick<L>(base: L, loops: seq<L>, next: nat): L
    requires loops == [] || next < |loops|
  {
    if |loops| == 0 then base else loops[next]
  }

  function Advance(n: nat, next: nat): nat {
    if n == 0 then next else if next + 1 >= n then 0 else next + 1
  }

  /** How many positions the cursor takes: one even without loops. */
  function Positions(n: nat): nat { if n == 0 then 1 else n }

  /** next_ after k calls. */
  function NextAfter(n: nat, k: nat): nat {
    if k == 0 then 0 else Advance(n, NextAfter(n, k - 1))
  }

  /** The positions of the first k picks among n loops. */
  function Picks(n: nat, k: nat): seq<nat> {
    seq(k, i requires 0 <= i => NextAfter(n, i))
  }

  function Count(s: seq<nat>, j: nat): nat {
    if s == [] then 0 else Count(s[..|s| - 1], j) + if s[|s| - 1] == j then 1 else 0
  }

  lemma DivModStep(k: nat, n: nat)
    requires n > 0
    ensures k % n + 1 < n ==> (k + 1) % n == k % n + 1 && (k + 1) / n == k / n
    ensures k % n + 1 == n ==> (k + 1) % n == 0 && (k + 1) / n == k / n + 1
  {
    var q, r := k / n, k % n;
    assert k == q * n + r;
    if r + 1 < n {
      DivModUnique(k + 1, n, q, r + 1);
    } else {
      assert k + 1 == (q + 1) * n;
      DivModUnique(k + 1, n, q + 1, 0);
    }
  }

  lemma DivModUnique(a: nat, n: nat, q: nat, r: nat)
    requires n > 0 && r < n && a == q * n + r
    ensures a / n == q && a % n == r
  {
    var d := a / n - q;
    assert a == (a / n) * n + a % n;
    assert d * n == r - a % n;
    var m: int := n;
    assert d > 0 ==> d * m >= m;
    assert d < 0 ==> d * m <= -m;
  }

  /** The cursor is the number of calls modulo the number of loops, so always a valid index. */
  lemma {:induction false} NextIsCallsModulo(n: nat, k: nat)
    requires n > 0
    ensures NextAfter(n, k) == k % n < n
  {
    if k == 0 {
      DivModUnique(0, n, 0, 0);
    } else {
      NextIsCallsModulo(n, k - 1);
      DivModStep(k - 1, n);
    }
  }

  /** After k picks, loop j was picked k / n times, once more if it comes before k % n. */
  lemma {:induction false} CountOfPicks(n: nat, k: nat, j: nat)
    requires n > 0 && j < n
    ensures Count(Picks(n, k), j) == k / n + if j < k % n then 1 else 0
    decreases k
  {
    if k == 0 {
      DivModUnique(0, n, 0, 0);
    } else {
      var s := Picks(n, k);
      assert s[..k - 1] == Picks(n, k - 1);
      CountOfPicks(n, k - 1, j);
      NextIsCallsModulo(n, k - 1);
      DivModStep(k - 1, n);
    }
  }

  /** Fairness: no loop is ever more than one connection ahead of another. */
  lemma PicksAreFair(n: nat, k: nat, i: nat, j: nat)
    requires i < n && j < n
    ensures Count(Picks(n, k), i) <= Count(Picks(n, k), j) + 1
  {
    CountOfPicks(n, k, i);
    CountOfPicks(n, k, j);
  }

  class EventLoopThreadPool<L> {
    const baseLoop: L
    var started: bool
    var numThreads: nat
    var next: nat
    var loops: seq<L>
    ghost var from: nat   // the cursor when start() was last called
    ghost var calls: nat  // getNextLoop calls since then

    ghost predicate Valid()
      reads this
    {
      if loops == [] then next == from == 0 else next == (from + calls) % |loops|
    }

    constructor (baseLoop: L)
      ensures Valid() && this.baseLoop == baseLoop && loops == [] && numThreads == 0 && !started && from == calls == 0
    {
      this.baseLoop := baseLoop;
      started, numThreads, next, loops, from, calls := false, 0, 0, [], 0, 0;
    }

    method SetThreadNum(n: nat)
      modifies `numThreads
      ensures numThreads == n
    {
      numThreads := n;
    }

    /** start(): one more loop per thread, in order, behind those of an earlier start; `made` are the
        loops the started threads report. Says whether the init callback ran on the base loop. */
    method Start(made: nat -> L, hasCallback: bool) returns (onBase: bool)
      requires Valid()
      modifies this
      ensures Valid() && started && calls == 0 && from == next == old(next) && numThreads == old(numThreads)
      ensures |loops| == |old(loops)| + numThreads && old(loops) <= loops
      ensures forall i :: 0 <= i < numThreads ==> loops[|old(loops)| + i] == made(i)
      ensures onBase <==> numThreads == 0 && hasCallback
    {
      started := true;
      var i := 0;
      while i < numThreads
        invariant 0 <= i <= numThreads && numThreads == old(numThreads) && started
        invariant |loops| == |old(loops)| + i && old(loops) <= loops
        invariant forall j :: 0 <= j < i ==> loops[|old(loops)| + j] == made(j)
        invariant next == old(next)
      {
        loops := loops + [made(i)];
        i := i + 1;
      }
      from, calls := next, 0;
      if loops != [] { DivModUnique(next, |loops|, 0, next); }
      onBase := numThreads == 0 && hasCallback;
    }

    /** Calls go round: the k-th from 0 after start() returns loops[(from + k) mod n], and from is 0
        for a pool started once; without threads, always the base loop. */
    method GetNextLoop() returns (loop: L)
      requires Valid()
      modifies `next, `calls
      ensures Valid() && calls == old(calls) + 1
      ensures loops == [] ==> loop == baseLoop && next == old(next)
      ensures loops != [] ==> next < |loops| && loop == loops[(from + old(calls)) % |loops|]
      ensures loop == Pick(baseLoop, loops, old(next)) && next == Advance(|loops|, old(next))
    {
      loop := baseLoop;
      if |loops| != 0 {
        DivModStep(from + calls, |loops|);
        loop := loops[next];
        next := next + 1;
        if next >= |loops| {
          next := 0;
        }
      }
      calls := calls + 1;
    }

    /** Every loop a pick can return, each where the cursor must stand for it, and no other. */
    function GetAllLoops(): (all: seq<L>)
      reads this
      ensures |all| == Positions(|loops|)
      ensures forall n: nat :: n < |all| ==> all[n] == Pick(baseLoop, loops, n)
      ensures Valid() ==> Pick(baseLoop, loops, next) in all
    {
      if |loops| == 0 then [baseLoop] else loops
    }
  }
}
