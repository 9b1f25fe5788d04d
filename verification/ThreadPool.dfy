/** EventLoopThreadPool: round-robin choice of an I/O loop. */
module ThreadPool {
  import opened Bytes

  type LoopId = nat

  /** The counter is a size_t. */
  const WORD: nat := 0x1_0000_0000_0000_0000

  function Bump(counter: nat): nat { (counter + 1) % WORD }

  /** The indices that `k` calls choose among `n` loops, from a given counter. */
  function Picks(counter: nat, k: nat, n: nat): (r: seq<nat>)
    requires n > 0
    ensures |r| == k
    decreases k
  {
    if k == 0 then [] else [counter % n] + Picks(Bump(counter), k - 1, n)
  }

  function Load(picks: seq<nat>, i: nat): nat { multiset(picks)[i] }

  lemma {:induction false} PicksSplit(counter: nat, j: nat, k: nat, n: nat)
    requires n > 0 && counter + j < WORD
    ensures Picks(counter, j + k, n) == Picks(counter, j, n) + Picks(counter + j, k, n)
    decreases j
  {
    if j > 0 {
      BumpNext(counter);
      PicksSplit(counter + 1, j - 1, k, n);
      var p := [counter % n];
      assert Picks(counter, j + k, n) == p + Picks(counter + 1, j - 1 + k, n);
      assert Picks(counter, j, n) == p + Picks(counter + 1, j - 1, n);
      assert p + (Picks(counter + 1, j - 1, n) + Picks(counter + j, k, n))
          == (p + Picks(counter + 1, j - 1, n)) + Picks(counter + j, k, n);
    }
  }

  lemma BumpNext(counter: nat)
    requires counter + 1 < WORD
    ensures Bump(counter) == counter + 1
  {
  }

  lemma DivStep(k: nat, n: nat)
    requires n > 0
    ensures if k % n == n - 1 then (k + 1) / n == k / n + 1 && (k + 1) % n == 0
            else (k + 1) / n == k / n && (k + 1) % n == k % n + 1
  {
    var q, r := k / n, k % n;
    assert k == q * n + r;
    if r == n - 1 {
      Distribute(q, 1, n);
      DivOf(q + 1, 0, n);
    } else {
      DivOf(q, r + 1, n);
    }
  }

  lemma Distribute(a: int, b: int, n: int)
    ensures (a + b) * n == a * n + b * n
  {
  }

  lemma MulAtLeast(a: int, n: nat)
    requires a >= 1
    ensures a * n >= n
  {
    Distribute(a - 1, 1, n);
    assert (a - 1) * n >= 0;
  }

  lemma DivOf(q: nat, r: nat, n: nat)
    requires r < n
    ensures (q * n + r) / n == q && (q * n + r) % n == r
  {
    var m := q * n + r;
    var p := m / n;
    DivMod(m, n);
    if q > p {
      MulAtLeast(q - p, n);
      Distribute(q - p, p, n);
    } else if q < p {
      MulAtLeast(p - q, n);
      Distribute(p - q, q, n);
    }
  }

  lemma DivMod(m: nat, n: nat)
    requires n > 0
    ensures m == (m / n) * n + m % n && 0 <= m % n < n
  {
  }

  /** An equal share of `k` calls, the remainder going to the first loops. */
  function Share(k: nat, i: nat, n: nat): nat
    requires n > 0
  {
    k / n + if i < k % n then 1 else 0
  }

  /** How often the first `k` calls chose loop `i`, as long as the counter has not wrapped. */
  lemma {:induction false} LoadAfter(k: nat, i: nat, n: nat)
    requires i < n && k <= WORD
    ensures Load(Picks(0, k, n), i) == Share(k, i, n)
    decreases k
  {
    if k == 0 {
      DivOf(0, 0, n);
    } else {
      LoadAfter(k - 1, i, n);
      OneMore(k - 1, i, n);
      ShareStep(k - 1, i, n);
    }
  }

  lemma ShareStep(k: nat, i: nat, n: nat)
    requires i < n
    ensures Share(k + 1, i, n) == Share(k, i, n) + if k % n == i then 1 else 0
  {
    DivStep(k, n);
    DivMod(k, n);
  }

  lemma OneMore(k: nat, i: nat, n: nat)
    requires n > 0 && k < WORD
    ensures Load(Picks(0, k + 1, n), i) == Load(Picks(0, k, n), i) + if k % n == i then 1 else 0
  {
    LoadSplit(k, 1, i, n);
    OnePick(k, i, n);
  }

  lemma OnePick(k: nat, i: nat, n: nat)
    requires n > 0
    ensures Load(Picks(k, 1, n), i) == if k % n == i then 1 else 0
  {
    assert Picks(k, 1, n) == [k % n] + Picks(Bump(k), 0, n) == [k % n];
  }

  lemma LoadSplit(c: nat, k: nat, i: nat, n: nat)
    requires n > 0 && c < WORD
    ensures Load(Picks(0, c + k, n), i) == Load(Picks(0, c, n), i) + Load(Picks(c, k, n), i)
  {
    PicksSplit(0, c, k, n);
    LoadSum(Picks(0, c, n), Picks(c, k, n), i);
  }

  lemma LoadSum(a: seq<nat>, b: seq<nat>, i: nat)
    ensures Load(a + b, i) == Load(a, i) + Load(b, i)
  {
  }

  /** Any two loads differ by at most one. */
  lemma Balanced(k: nat, i: nat, j: nat, n: nat)
    requires i < n && j < n && k <= WORD
    ensures -1 <= Load(Picks(0, k, n), i) - Load(Picks(0, k, n), j) <= 1
  {
    LoadAfter(k, i, n);
    LoadAfter(k, j, n);
  }

  /** Any n consecutive calls choose every loop exactly once. */
  lemma EveryWindow(c: nat, i: nat, n: nat)
    requires i < n && c + n <= WORD
    ensures Load(Picks(c, n, n), i) == 1
  {
    LoadAfter(c, i, n);
    LoadAfter(c + n, i, n);
    LoadSplit(c, n, i, n);
    NextRound(c, i, n);
  }

  lemma NextRound(c: nat, i: nat, n: nat)
    requires n > 0
    ensures Share(c + n, i, n) == Share(c, i, n) + 1
  {
    DivMod(c, n);
    Distribute(c / n, 1, n);
    DivOf(c / n + 1, c % n, n);
  }

  /** When the counter wraps, the rotation goes on undisturbed only if n divides 2^64. */
  lemma WrapKeepsRotationIff(n: nat)
    requires n > 0
    ensures Bump(WORD - 1) % n == ((WORD - 1) % n + 1) % n <==> WORD % n == 0
  {
    DivStep(WORD - 1, n);
    DivOf(0, 0, n);
    if (WORD - 1) % n != n - 1 {
      DivOf(0, (WORD - 1) % n + 1, n);
    } else {
      DivOf(1, 0, n);
    }
  }

  /** A thread that owns the loop it runs. */
  class EventLoopThread {
    var loop: Option<LoopId>

    constructor ()
      ensures loop == None
    {
      loop := None;
    }

    /** Waits until the new thread has made its loop, `made`. */
    method StartLoop(made: LoopId) returns (r: LoopId)
      requires loop == None
      modifies this
      ensures loop == Some(made) && r == made
    {
      loop := Some(made);
      r := made;
    }
  }

  class EventLoopThreadPool {
    const baseLoop: LoopId
    const numThreads: nat
    var loops: seq<LoopId>
    var threads: seq<EventLoopThread>
    var next: nat
    var started: bool

    ghost predicate Valid()
      reads this
    {
      next < WORD && (started ==> |loops| == numThreads)
    }

    constructor (baseLoop: LoopId, numThreads: nat)
      ensures Valid() && !started && loops == [] && threads == [] && next == 0
      ensures this.baseLoop == baseLoop && this.numThreads == numThreads
    {
      this.baseLoop, this.numThreads := baseLoop, numThreads;
      loops, threads, next, started := [], [], 0, false;
    }

    /** A new thread for each loop; `spawned` are the loops they report. */
    method Start(spawned: seq<LoopId>)
      requires Valid() && !started && loops == [] && threads == [] && |spawned| == numThreads
      modifies this
      ensures Valid() && started && loops == spawned && next == old(next)
      ensures |threads| == numThreads && forall i :: 0 <= i < numThreads ==> fresh(threads[i]) && threads[i].loop == Some(loops[i])
      ensures forall i, j :: 0 <= i < j < numThreads ==> threads[i] != threads[j]
    {
      started := true;
      if numThreads == 0 {
        return;
      }
      for i := 0 to numThreads
        invariant started && next == old(next) && loops == spawned[..i] && |threads| == i
        invariant forall j :: 0 <= j < i ==> fresh(threads[j]) && threads[j].loop == Some(loops[j])
        invariant forall j, k :: 0 <= j < k < i ==> threads[j] != threads[k]
      {
        var thread := new EventLoopThread();
        var loop := thread.StartLoop(spawned[i]);
        threads := threads + [thread];
        loops := loops + [loop];
      }
    }

    method GetNextLoop() returns (loop: LoopId)
      requires Valid() && started
      modifies this`next
      ensures Valid()
      ensures loops == [] ==> loop == baseLoop && next == old(next)
      ensures loops != [] ==> loop == loops[Picks(old(next), 1, |loops|)[0]] && next == Bump(old(next))
    {
      if |loops| == 0 {
        return baseLoop;
      }
      var index := next % |loops|;
      next := (next + 1) % WORD;
      loop := loops[index];
    }

    method GetLoop(index: nat) returns (loop: LoopId, found: bool)
      requires Valid() && started
      ensures loops == [] ==> found && loop == baseLoop
      ensures loops != [] ==> (found <==> index < |loops|) && (found ==> loop == loops[index])
    {
      if |loops| == 0 {
        return baseLoop, true;
      }
      if index >= |loops| {
        return 0, false;
      }
      return loops[index], true;
    }
  }
}
