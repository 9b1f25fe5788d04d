/** The inductive invariant of the Lifecycle machine and its preservation by every event. */
module LifecycleInvariant {
  import opened Connection
  import opened Channels
  import opened Lifecycle

  // ----- the parts of the invariant -----

  /** An item that uses `it.c` through a raw pointer and for which we answer: all
      but the channel events of a connection that was already destroyed. */
  predicate Needs(it: Item, log: seq<Mark>) {
    Raw(it) && !(it.Chan? && Down(it.c) in log)
  }

  /** The connection stays alive until `q[k]` has run: the map owns it, or an owning
      item comes later in the same list. */
  predicate Held(q: seq<Item>, k: nat, entries: set<ConnId>)
    requires k < |q| && Raw(q[k])
  {
    q[k].c in entries || exists j :: k < j < |q| && q[k].c in Refs(q[j])
  }

  predicate Anchored(q: seq<Item>, entries: set<ConnId>, log: seq<Mark>) {
    forall k :: 0 <= k < |q| && Needs(q[k], log) ==> Held(q, k, entries)
  }

  /** Where an item may sit and what its connection looks like then. */
  predicate ItemOk(s: Sys, i: LoopId, it: Item)
    requires |s.home| == |s.conns|
  {
    match it
    case BatchEnd(refs) => forall c <- refs :: c < |s.conns|
    case Stopping(rest, all) => i == 0 && (forall c <- rest :: c < |s.conns|) && (forall c <- all :: c < |s.conns|)
    case Accept => i == 0
    case AcceptTail => i == 0
    case StopFn => i == 0
    case Posted => true
    case RemoveFn(c) => i == 0 && c < |s.conns| && s.conns[c].state == Disconnected
    case CloseCallback(c) => c < |s.conns| && s.home[c] == i && s.conns[c].state == Disconnected
    case DestroyTail(c) => false
    case Chan(c) =>
      && c < |s.conns| && s.home[c] == i && s.conns[c].state != Connecting && s.conns[c].tied
      && (Down(c) in s.log ==> c in s.rearmed)
    case _ => it.c < |s.conns| && s.home[it.c] == i && (Raw(it) ==> s.conns[it.c].state != Connecting)
  }

  predicate LoopOk(l: Loop) {
    && (forall k :: 0 <= k < |l.now| && l.now[k].Chan? ==> l.dispatching)
    && (forall k :: 0 <= k < |l.now| && l.now[k].DestroyFn? ==> !l.dispatching)
    && (forall k :: 0 <= k < |l.pending| ==> !l.pending[k].Chan?)
  }

  function Count(q: seq<Item>, it: Item): nat { multiset(q)[it] }

  function Marks(log: seq<Mark>, m: Mark): nat { multiset(log)[m] }

  /** Conservation of the two one-shot functors of connection `c`. */
  ghost predicate Accounted(s: Sys, c: ConnId)
    requires c < |s.conns| && |s.home| == |s.conns| && s.home[c] < |s.loops|
  {
    var q := Todo(s, s.home[c]);
    && Count(q, EstablishFn(c)) + Marks(s.log, Up(c)) == 1
    && Count(q, DestroyFn(c)) + Marks(s.log, Down(c)) == (if c in s.entries then 0 else 1)
  }

  ghost predicate ConnOk(s: Sys, c: ConnId)
    requires c < |s.conns|
  {
    var conn := s.conns[c];
    && (conn.state == Connecting <==> Up(c) !in s.log)
    && (conn.state != Connecting <==> conn.tied)
    && (conn.state != Disconnected ==> c in s.entries)
    && (conn.reading || conn.writing ==> conn.tied)
    && (conn.state == Connected || conn.state == Disconnecting ==> conn.reading)
    && (conn.state == Disconnected && (conn.reading || conn.writing) ==> c in s.rearmed)
  }

  /** Every Down comes after the Up of the same connection. */
  predicate Ordered(log: seq<Mark>) {
    forall j :: 0 <= j < |log| && log[j].Down? ==> Up(log[j].c) in log[..j]
  }

  ghost predicate Bounds(s: Sys) {
    && |s.loops| >= 1 && |s.home| == |s.conns|
    && (forall c :: 0 <= c < |s.home| ==> s.home[c] < |s.loops|)
    && (forall c <- s.entries :: c < |s.conns|)
    && (forall c <- s.held :: c < |s.conns|)
    && (forall m <- s.log :: m.c < |s.conns|)
  }

  ghost predicate ItemsOk(s: Sys, i: LoopId)
    requires |s.home| == |s.conns| && i < |s.loops|
  {
    forall k :: 0 <= k < |Todo(s, i)| ==> ItemOk(s, i, Todo(s, i)[k])
  }

  ghost predicate LoopInv(s: Sys, i: LoopId)
    requires |s.home| == |s.conns| && i < |s.loops|
  {
    ItemsOk(s, i) && LoopOk(s.loops[i]) && Anchored(Todo(s, i), s.entries, s.log)
  }

  ghost predicate ConnInv(s: Sys, c: ConnId)
    requires c < |s.conns| && |s.home| == |s.conns| && s.home[c] < |s.loops|
  {
    Accounted(s, c) && ConnOk(s, c)
  }

  ghost predicate Inv(s: Sys) {
    && Bounds(s)
    && (forall i :: 0 <= i < |s.loops| ==> LoopInv(s, i))
    && (forall c :: 0 <= c < |s.conns| ==> ConnInv(s, c))
    && Ordered(s.log)
  }

  lemma InvFormed(s: Sys)
    requires Inv(s)
    ensures Formed(s)
  {
    forall i, k | 0 <= i < |s.loops| && 0 <= k < |Todo(s, i)| ensures ItemKnown(s, Todo(s, i)[k]) {
      assert LoopInv(s, i);
      assert ItemOk(s, i, Todo(s, i)[k]);
    }
  }

  // ----- lists -----

  lemma AnchoredMonotone(q: seq<Item>, entries: set<ConnId>, log: seq<Mark>, entries': set<ConnId>, log': seq<Mark>)
    requires Anchored(q, entries, log)
    requires entries <= entries'
    requires forall m <- log :: m in log'
    ensures Anchored(q, entries', log')
  {
    forall k | 0 <= k < |q| && Needs(q[k], log') ensures Held(q, k, entries') {
      assert Needs(q[k], log);
      assert Held(q, k, entries);
    }
  }

  /** A raw item put in the place of `h` is covered: by the map, by a later new item, or
      because `h` itself used the same connection. */
  predicate Covered(front: seq<Item>, k: nat, h: Item, entries: set<ConnId>, log: seq<Mark>)
    requires k < |front|
  {
    Needs(front[k], log) ==> Held(front, k, entries) || (Needs(h, log) && h.c == front[k].c)
  }

  /** Replacing the first item by covered ones, and queueing items owned by the map,
      keeps the list anchored. */
  lemma AnchoredAdvance(front: seq<Item>, h: Item, rest: seq<Item>, back: seq<Item>, entries: set<ConnId>, log: seq<Mark>)
    requires Anchored([h] + rest, entries, log)
    requires forall k :: 0 <= k < |front| ==> Covered(front, k, h, entries, log)
    requires forall k :: 0 <= k < |back| && Needs(back[k], log) ==> back[k].c in entries
    ensures Anchored(front + rest + back, entries, log)
  {
    var q := front + rest + back;
    var old_ := [h] + rest;
    forall k | 0 <= k < |q| && Needs(q[k], log) ensures Held(q, k, entries) {
      if k < |front| {
        assert q[k] == front[k];
        assert Covered(front, k, h, entries, log);
        if q[k].c !in entries {
          if Held(front, k, entries) {
            var j :| k < j < |front| && front[k].c in Refs(front[j]);
            assert q[j] == front[j];
          } else {
            assert old_[0] == h && Held(old_, 0, entries);
            var j :| 0 < j < |old_| && h.c in Refs(old_[j]);
            assert q[j - 1 + |front|] == old_[j];
          }
        }
      } else if k < |front| + |rest| {
        var k0 := k - |front| + 1;
        assert q[k] == old_[k0];
        assert Held(old_, k0, entries);
        if q[k].c !in entries {
          var j :| k0 < j < |old_| && old_[k0].c in Refs(old_[j]);
          assert q[j - 1 + |front|] == old_[j];
        }
      } else {
        assert q[k] == back[k - |front| - |rest|];
      }
    }
  }

  lemma AnchoredAppend(q: seq<Item>, back: seq<Item>, entries: set<ConnId>, log: seq<Mark>)
    requires Anchored(q, entries, log)
    requires forall k :: 0 <= k < |back| && Needs(back[k], log) ==> back[k].c in entries
    ensures Anchored(q + back, entries, log)
  {
    var h := Posted;
    assert Anchored([h] + q, entries, log) by {
      forall k | 0 <= k < |[h] + q| && Needs(([h] + q)[k], log) ensures Held([h] + q, k, entries) {
        assert Held(q, k - 1, entries);
        if q[k - 1].c !in entries {
          var j :| k - 1 < j < |q| && q[k - 1].c in Refs(q[j]);
          assert ([h] + q)[j + 1] == q[j];
        }
      }
    }
    AnchoredAdvance([], h, q, back, entries, log);
    assert [] + q + back == q + back;
  }

  /** Erasing `c` from the map is covered by queueing its DestroyFn at the end. */
  lemma AnchoredErase(q: seq<Item>, c: ConnId, entries: set<ConnId>, log: seq<Mark>)
    requires Anchored(q, entries, log)
    ensures Anchored(q + [DestroyFn(c)], entries - {c}, log)
  {
    var q' := q + [DestroyFn(c)];
    forall k | 0 <= k < |q'| && Needs(q'[k], log) ensures Held(q', k, entries - {c}) {
      assert Held(q, k, entries);
      if q[k].c == c {
        assert c in Refs(q'[|q|]);
      } else if q[k].c !in entries {
        var j :| k < j < |q| && q[k].c in Refs(q[j]);
        assert q'[j] == q[j];
      }
    }
  }

  /** A list without raw items of `c` does not notice the erasure. */
  lemma AnchoredEraseElsewhere(q: seq<Item>, c: ConnId, entries: set<ConnId>, log: seq<Mark>)
    requires Anchored(q, entries, log)
    requires forall k :: 0 <= k < |q| && Raw(q[k]) ==> q[k].c != c
    ensures Anchored(q, entries - {c}, log)
  {
    forall k | 0 <= k < |q| && Needs(q[k], log) ensures Held(q, k, entries - {c}) {
      assert Held(q, k, entries);
    }
  }

  lemma CountConcat(a: seq<Item>, b: seq<Item>, it: Item)
    ensures Count(a + b, it) == Count(a, it) + Count(b, it)
  {
    assert multiset(a + b) == multiset(a) + multiset(b);
  }

  lemma MarksAppend(log: seq<Mark>, m: Mark, x: Mark)
    ensures Marks(log + [m], x) == Marks(log, x) + (if m == x then 1 else 0)
  {
    assert multiset(log + [m]) == multiset(log) + multiset([m]);
  }

  // ----- what Advance and Queue do to the work lists -----

  lemma AdvanceTodo(loops: seq<Loop>, i: LoopId, front: seq<Item>, l: LoopId, back: seq<Item>, j: LoopId)
    requires i < |loops| && l < |loops| && j < |loops| && loops[i].now != []
    ensures var r := Advance(loops, i, front, l, back);
            r[j].now + r[j].pending ==
              (if j == i then front + (loops[i].now + loops[i].pending)[1..] else loops[j].now + loops[j].pending)
              + (if j == l then back else [])
    ensures Advance(loops, i, front, l, back)[j].dispatching == loops[j].dispatching
  {
    var r := Advance(loops, i, front, l, back);
    assert (loops[i].now + loops[i].pending)[1..] == loops[i].now[1..] + loops[i].pending;
    if j == i {
      if j == l {
        assert r[j].now + r[j].pending == front + (loops[i].now[1..] + loops[i].pending) + back;
      } else {
        assert r[j].now + r[j].pending == front + (loops[i].now[1..] + loops[i].pending);
      }
    }
  }

  lemma AdvanceLoopOk(loops: seq<Loop>, i: LoopId, front: seq<Item>, l: LoopId, back: seq<Item>, j: LoopId)
    requires i < |loops| && l < |loops| && j < |loops| && loops[i].now != []
    requires LoopOk(loops[j])
    requires forall k :: 0 <= k < |front| ==> !front[k].Chan? && !front[k].DestroyFn?
    requires forall k :: 0 <= k < |back| ==> !back[k].Chan?
    ensures LoopOk(Advance(loops, i, front, l, back)[j])
  {
    var r := Advance(loops, i, front, l, back)[j];
    assert r.now == if j == i then front + loops[i].now[1..] else loops[j].now;
    assert r.pending == loops[j].pending + if j == l then back else [];
    forall k | 0 <= k < |r.now| ensures (r.now[k].Chan? ==> r.dispatching) && (r.now[k].DestroyFn? ==> !r.dispatching) {
      if j == i && k >= |front| {
        assert r.now[k] == loops[i].now[k - |front| + 1];
      } else if j == i {
        assert r.now[k] == front[k];
      }
    }
    forall k | 0 <= k < |r.pending| ensures !r.pending[k].Chan? {
      if k >= |loops[j].pending| {
        assert r.pending[k] == back[k - |loops[j].pending|];
      }
    }
  }

  // ----- steps that leave the map, the log and the one-shot functors alone -----

  /** Connections only move forward. */
  ghost predicate Grows(s: Sys, s': Sys) {
    && |s.home| == |s.conns| <= |s'.conns| == |s'.home|
    && (forall c :: 0 <= c < |s.conns| ==>
          && s'.home[c] == s.home[c]
          && (s.conns[c].state == Disconnected ==> s'.conns[c].state == Disconnected)
          && (s.conns[c].state != Connecting ==> s'.conns[c].state != Connecting)
          && (s.conns[c].tied ==> s'.conns[c].tied))
    && s.rearmed <= s'.rearmed
  }

  predicate Calm(it: Item) {
    !it.Chan? && !it.EstablishFn? && !it.DestroyFn?
  }

  lemma ItemStable(s: Sys, s': Sys, i: LoopId, it: Item)
    requires Grows(s, s') && ItemOk(s, i, it)
    requires it.Chan? && Down(it.c) in s'.log ==> Down(it.c) in s.log
    ensures ItemOk(s', i, it)
  {
  }

  /** The new work list of loop `j` holds only items that are in order. */
  lemma ItemsAfterAdvance(s: Sys, s': Sys, i: LoopId, front: seq<Item>, l: LoopId, back: seq<Item>, j: LoopId)
    requires |s.home| == |s.conns| && i < |s.loops| && l < |s.loops| && j < |s.loops| && s.loops[i].now != []
    requires ItemsOk(s, j) && Grows(s, s') && s'.loops == Advance(s.loops, i, front, l, back)
    requires forall k :: 0 <= k < |Todo(s, j)| && !(j == i && k == 0) ==>
               var it := Todo(s, j)[k]; it.Chan? && Down(it.c) in s'.log ==> Down(it.c) in s.log
    requires forall k :: 0 <= k < |front| ==> ItemOk(s', i, front[k])
    requires forall k :: 0 <= k < |back| ==> ItemOk(s', l, back[k])
    ensures ItemsOk(s', j)
  {
    AdvanceTodo(s.loops, i, front, l, back, j);
    var q, q' := Todo(s, j), Todo(s', j);
    var head := if j == i then front + q[1..] else q;
    forall k | 0 <= k < |q'| ensures ItemOk(s', j, q'[k]) {
      if k >= |head| {
        assert q'[k] == back[k - |head|];
      } else if j == i && k < |front| {
        assert q'[k] == front[k];
      } else {
        OldItemStable(s, s', j, q'[k], if j == i then k - |front| + 1 else k);
      }
    }
  }

  lemma OldItemStable(s: Sys, s': Sys, j: LoopId, it: Item, k: nat)
    requires |s.home| == |s.conns| && j < |s.loops| && ItemsOk(s, j) && Grows(s, s')
    requires k < |Todo(s, j)| && Todo(s, j)[k] == it
    requires it.Chan? && Down(it.c) in s'.log ==> Down(it.c) in s.log
    ensures ItemOk(s', j, it)
  {
    assert ItemOk(s, j, Todo(s, j)[k]);
    ItemStable(s, s', j, it);
  }

  lemma CountAfterAdvance(s: Sys, s': Sys, i: LoopId, front: seq<Item>, l: LoopId, back: seq<Item>, j: LoopId, x: Item)
    requires i < |s.loops| && l < |s.loops| && j < |s.loops| && s.loops[i].now != []
    requires s'.loops == Advance(s.loops, i, front, l, back)
    ensures Count(Todo(s', j), x) == Count(Todo(s, j), x)
              + (if j == i then Count(front, x) else 0) - (if j == i && s.loops[i].now[0] == x then 1 else 0)
              + (if j == l then Count(back, x) else 0)
  {
    AdvanceTodo(s.loops, i, front, l, back, j);
    var q := Todo(s, j);
    var head := if j == i then front + q[1..] else q;
    CountConcat(head, if j == l then back else [], x);
    if j == i {
      CountConcat(front, q[1..], x);
      assert q == [q[0]] + q[1..];
      CountConcat([q[0]], q[1..], x);
      assert q[0] == s.loops[i].now[0];
    }
  }

  lemma CountAbsent(q: seq<Item>, x: Item)
    requires forall k :: 0 <= k < |q| ==> q[k] != x
    ensures Count(q, x) == 0
  {
    if x in multiset(q) {
      assert x in q;
    }
  }

  /** The whole loop part: loop `j` stays in order when loop `i` replaces its first item
      by covered ones and items owned by the map are queued. */
  lemma LoopAfterAdvance(s: Sys, s': Sys, i: LoopId, front: seq<Item>, l: LoopId, back: seq<Item>, j: LoopId)
    requires |s.home| == |s.conns| && i < |s.loops| && l < |s.loops| && j < |s.loops| && s.loops[i].now != []
    requires LoopInv(s, j) && Grows(s, s') && s'.loops == Advance(s.loops, i, front, l, back)
    requires s.entries <= s'.entries && forall m <- s.log :: m in s'.log
    requires forall k :: 0 <= k < |Todo(s, j)| && !(j == i && k == 0) ==>
               var it := Todo(s, j)[k]; it.Chan? && Down(it.c) in s'.log ==> Down(it.c) in s.log
    requires forall k :: 0 <= k < |front| ==> FrontOk(s', i, front, k, s.loops[i].now[0])
    requires forall k :: 0 <= k < |back| ==> BackOk(s', l, back[k])
    ensures LoopInv(s', j)
  {
    var h := s.loops[i].now[0];
    forall k | 0 <= k < |front|
      ensures !front[k].Chan? && !front[k].DestroyFn? && ItemOk(s', i, front[k])
      ensures Covered(front, k, h, s'.entries, s'.log)
    {
      assert FrontOk(s', i, front, k, h);
    }
    forall k | 0 <= k < |back|
      ensures !back[k].Chan? && ItemOk(s', l, back[k]) && (Needs(back[k], s'.log) ==> back[k].c in s'.entries)
    {
      assert BackOk(s', l, back[k]);
    }
    ItemsAfterAdvance(s, s', i, front, l, back, j);
    AdvanceLoopOk(s.loops, i, front, l, back, j);
    AnchoredAfterAdvance(s, s', i, front, l, back, j);
  }

  ghost predicate FrontOk(s: Sys, i: LoopId, front: seq<Item>, k: nat, h: Item)
    requires k < |front| && |s.home| == |s.conns|
  {
    !front[k].Chan? && !front[k].DestroyFn? && ItemOk(s, i, front[k]) && Covered(front, k, h, s.entries, s.log)
  }

  ghost predicate BackOk(s: Sys, l: LoopId, it: Item)
    requires |s.home| == |s.conns|
  {
    !it.Chan? && ItemOk(s, l, it) && (Needs(it, s.log) ==> it.c in s.entries)
  }

  lemma AnchoredAfterAdvance(s: Sys, s': Sys, i: LoopId, front: seq<Item>, l: LoopId, back: seq<Item>, j: LoopId)
    requires i < |s.loops| && l < |s.loops| && j < |s.loops| && s.loops[i].now != []
    requires Anchored(Todo(s, j), s.entries, s.log)
    requires s'.loops == Advance(s.loops, i, front, l, back)
    requires s.entries <= s'.entries && forall m <- s.log :: m in s'.log
    requires forall k :: 0 <= k < |front| ==> Covered(front, k, s.loops[i].now[0], s'.entries, s'.log)
    requires forall k :: 0 <= k < |back| && Needs(back[k], s'.log) ==> back[k].c in s'.entries
    ensures Anchored(Todo(s', j), s'.entries, s'.log)
  {
    AdvanceTodo(s.loops, i, front, l, back, j);
    var q := Todo(s, j);
    AnchoredMonotone(q, s.entries, s.log, s'.entries, s'.log);
    var tail := if j == l then back else [];
    if j == i {
      assert q == [q[0]] + q[1..];
      AnchoredAdvance(front, q[0], q[1..], tail, s'.entries, s'.log);
    } else {
      AnchoredAppend(q, tail, s'.entries, s'.log);
    }
  }

  /** One item of loop `i` is replaced by `front` and `back` goes to loop `l`; nothing
      happens to the map, the log and the one-shot functors. */
  lemma QuietAdvance(s: Sys, s': Sys, i: LoopId, front: seq<Item>, l: LoopId, back: seq<Item>)
    requires Inv(s) && i < |s.loops| && l < |s.loops| && s.loops[i].now != []
    requires s' == s.(loops := s'.loops, conns := s'.conns, rearmed := s'.rearmed, acceptor := s'.acceptor)
    requires s'.loops == Advance(s.loops, i, front, l, back)
    requires Grows(s, s') && |s'.conns| == |s.conns|
    requires forall c :: 0 <= c < |s.conns| && s'.conns[c] != s.conns[c] ==> ConnOk(s', c)
    requires !s.loops[i].now[0].EstablishFn? && !s.loops[i].now[0].DestroyFn?
    requires forall k :: 0 <= k < |front| ==> !front[k].EstablishFn? && FrontOk(s', i, front, k, s.loops[i].now[0])
    requires forall k :: 0 <= k < |back| ==> Calm(back[k]) && BackOk(s', l, back[k])
    ensures Inv(s')
  {
    forall j | 0 <= j < |s'.loops| ensures LoopInv(s', j) {
      assert LoopInv(s, j);
      LoopAfterAdvance(s, s', i, front, l, back, j);
    }
    forall c | 0 <= c < |s'.conns| ensures ConnInv(s', c) {
      assert ConnInv(s, c);
      QuietCounts(s, s', i, front, l, back, c);
    }
  }

  lemma QuietCounts(s: Sys, s': Sys, i: LoopId, front: seq<Item>, l: LoopId, back: seq<Item>, c: ConnId)
    requires Bounds(s) && i < |s.loops| && l < |s.loops| && s.loops[i].now != []
    requires c < |s.conns| && Accounted(s, c)
    requires s'.home == s.home && |s'.conns| == |s.conns| && s'.entries == s.entries && s'.log == s.log
    requires s'.loops == Advance(s.loops, i, front, l, back)
    requires !s.loops[i].now[0].EstablishFn? && !s.loops[i].now[0].DestroyFn?
    requires forall k :: 0 <= k < |front| ==> !front[k].EstablishFn? && !front[k].DestroyFn?
    requires forall k :: 0 <= k < |back| ==> Calm(back[k])
    ensures Accounted(s', c)
  {
    CountAfterAdvance(s, s', i, front, l, back, s.home[c], EstablishFn(c));
    CountAfterAdvance(s, s', i, front, l, back, s.home[c], DestroyFn(c));
    CountAbsent(front, EstablishFn(c)); CountAbsent(back, EstablishFn(c));
    CountAbsent(front, DestroyFn(c)); CountAbsent(back, DestroyFn(c));
  }

  /** As QuietAdvance, for a call from outside that only queues. */
  lemma QuietQueue(s: Sys, s': Sys, l: LoopId, back: seq<Item>)
    requires Inv(s) && l < |s.loops|
    requires s' == s.(loops := s'.loops, conns := s'.conns)
    requires s'.loops == Queue(s.loops, l, back)
    requires Grows(s, s') && |s'.conns| == |s.conns|
    requires forall c :: 0 <= c < |s.conns| && s'.conns[c] != s.conns[c] ==> ConnOk(s', c)
    requires forall k :: 0 <= k < |back| ==> Calm(back[k]) && BackOk(s', l, back[k])
    ensures Inv(s')
  {
    forall j | 0 <= j < |s'.loops| ensures LoopInv(s', j) {
      assert LoopInv(s, j);
      LoopAfterQueue(s, s', l, back, j);
    }
    forall c | 0 <= c < |s'.conns| ensures ConnInv(s', c) {
      assert ConnInv(s, c);
      var j := s.home[c];
      var tail := if j == l then back else [];
      assert Todo(s', j) == Todo(s, j) + tail;
      CountConcat(Todo(s, j), tail, EstablishFn(c));
      CountConcat(Todo(s, j), tail, DestroyFn(c));
      CountAbsent(tail, EstablishFn(c)); CountAbsent(tail, DestroyFn(c));
    }
  }

  lemma LoopAfterQueue(s: Sys, s': Sys, l: LoopId, back: seq<Item>, j: LoopId)
    requires |s.home| == |s.conns| && l < |s.loops| && j < |s.loops|
    requires LoopInv(s, j) && Grows(s, s') && s'.loops == Queue(s.loops, l, back)
    requires s'.entries == s.entries && s'.log == s.log
    requires forall k :: 0 <= k < |back| ==> BackOk(s', l, back[k])
    ensures LoopInv(s', j)
  {
    var q := Todo(s, j);
    var tail := if j == l then back else [];
    assert Todo(s', j) == q + tail;
    AnchoredAppend(q, tail, s.entries, s.log);
    forall k | 0 <= k < |q + tail| ensures ItemOk(s', j, (q + tail)[k]) {
      if k < |q| {
        assert ItemOk(s, j, q[k]);
        ItemStable(s, s', j, q[k]);
      } else {
        assert (q + tail)[k] == back[k - |q|];
        assert BackOk(s', l, back[k - |q|]);
      }
    }
    var p := s.loops[j].pending;
    assert s'.loops[j].pending == p + tail;
    forall k | 0 <= k < |p + tail| ensures !(p + tail)[k].Chan? {
      if k >= |p| {
        assert BackOk(s', l, back[k - |p|]);
      }
    }
  }

  // ----- one lemma per kind of step -----

  /** The item at the front is in order. */
  lemma HeadOk(s: Sys, i: LoopId)
    requires Inv(s) && i < |s.loops| && s.loops[i].now != []
    ensures ItemOk(s, i, s.loops[i].now[0])
    ensures var it := s.loops[i].now[0]; Raw(it) || it.EstablishFn? || it.DestroyFn? ==> ConnInv(s, it.c)
  {
    assert LoopInv(s, i);
    assert Todo(s, i)[0] == s.loops[i].now[0];
  }

  predicate SendsNow(it: Item) {
    it.SendFn? || (it.Calling? && it.call.CallSend?)
  }

  predicate ShutsNow(it: Item) {
    it.ShutdownFn? || (it.Calling? && it.call.CallShutdown?)
  }

  /** Items that touch nothing but their own connection. */
  lemma QuietSend(s: Sys, i: LoopId, ch: Choice)
    requires Inv(s) && RunEnabled(s, i, ch) && SendsNow(s.loops[i].now[0])
    ensures Inv(Exec(s, i, ch))
  {
    HeadOk(s, i);
    QuietAdvance(s, Exec(s, i, ch), i, [], i, []);
  }

  lemma QuietWrite(s: Sys, i: LoopId, ch: Choice)
    requires Inv(s) && RunEnabled(s, i, ch) && (s.loops[i].now[0].WriteFn? || ShutsNow(s.loops[i].now[0]))
    ensures Inv(Exec(s, i, ch))
  {
    HeadOk(s, i);
    QuietAdvance(s, Exec(s, i, ch), i, [], i, []);
  }

  lemma QuietPop(s: Sys, i: LoopId, ch: Choice)
    requires Inv(s) && RunEnabled(s, i, ch)
    requires var it := s.loops[i].now[0];
             it.Guard? || it.BatchEnd? || it.Callback? || it.Posted? || it.AcceptTail? || (it.RemoveFn? && it.c !in s.entries)
    ensures Inv(Exec(s, i, ch))
  {
    QuietAdvance(s, Exec(s, i, ch), i, [], i, []);
  }

  predicate Closes(it: Item) {
    it.CloseFn? || it.ForceFn? || (it.Calling? && it.call.CallForceClose?)
  }

  lemma QuietClose(s: Sys, i: LoopId, ch: Choice)
    requires Inv(s) && RunEnabled(s, i, ch) && Closes(s.loops[i].now[0])
    ensures Inv(Exec(s, i, ch))
  {
    HeadOk(s, i);
    QuietClosed(s, Exec(s, i, ch), i, s.loops[i].now[0].c);
  }

  lemma QuietClosed(s: Sys, s': Sys, i: LoopId, c: ConnId)
    requires Inv(s) && i < |s.loops| && s.loops[i].now != [] && Closes(s.loops[i].now[0])
    requires c == s.loops[i].now[0].c && ItemOk(s, i, s.loops[i].now[0]) && c < |s.conns| && ConnInv(s, c)
    requires s' == s.(conns := s.conns[c := HandleClose(s.conns[c])],
                      loops := Advance(s.loops, i, [Callback(c), CloseCallback(c)], i, []))
    ensures Inv(s')
  {
    QuietAdvance(s, s', i, [Callback(c), CloseCallback(c)], i, []);
  }

  lemma QuietRemoval(s: Sys, i: LoopId, ch: Choice)
    requires Inv(s) && RunEnabled(s, i, ch) && s.loops[i].now[0].CloseCallback?
    ensures Inv(Exec(s, i, ch))
  {
    HeadOk(s, i);
    var c := s.loops[i].now[0].c;
    if i == 0 {
      QuietAdvance(s, Exec(s, i, ch), i, [RemoveFn(c)], i, []);
    } else {
      QuietAdvance(s, Exec(s, i, ch), i, [], 0, [RemoveFn(c)]);
    }
  }

  lemma QuietStop(s: Sys, i: LoopId, ch: Choice)
    requires Inv(s) && RunEnabled(s, i, ch) && s.loops[i].now[0].StopFn?
    ensures Inv(Exec(s, i, ch))
  {
    HeadOk(s, i);
    QuietAdvance(s, Exec(s, i, ch), i, [Stopping(Listing(s.entries), s.entries)], i, []);
  }

  lemma GuardedCall(s: Sys, i: LoopId, calls: seq<Item>, k: nat, it: Item)
    requires |s.home| == |s.conns| && it.Chan? && ItemOk(s, i, it) && k <= |calls|
    requires forall call <- calls :: call == CloseFn(it.c) || call == ReadFn(it.c) || call == WriteFn(it.c)
    ensures var front := calls + [Guard(it.c)]; !front[k].EstablishFn? && FrontOk(s, i, front, k, it)
  {
    var front := calls + [Guard(it.c)];
    assert front[|calls|] == Guard(it.c);
    if k < |calls| {
      assert front[k] == calls[k];
      assert calls[k] in calls;
    }
  }

  lemma QuietChannel(s: Sys, i: LoopId, ch: Choice)
    requires Inv(s) && RunEnabled(s, i, ch) && s.loops[i].now[0].Chan?
    ensures Inv(Exec(s, i, ch))
  {
    HeadOk(s, i);
    var it := s.loops[i].now[0];
    GuardedKeeps(s, i, Calls(it.c, Fired(ch.revents, {OnError, OnClose, OnRead, OnWrite})));
  }

  lemma GuardedKeeps(s: Sys, i: LoopId, calls: seq<Item>)
    requires Inv(s) && i < |s.loops| && s.loops[i].now != [] && s.loops[i].now[0].Chan?
    requires var c := s.loops[i].now[0].c; forall call <- calls :: call == CloseFn(c) || call == ReadFn(c) || call == WriteFn(c)
    ensures Inv(s.(loops := Advance(s.loops, i, calls + [Guard(s.loops[i].now[0].c)], i, [])))
  {
    HeadOk(s, i);
    var it := s.loops[i].now[0];
    var front := calls + [Guard(it.c)];
    forall k | 0 <= k < |front| ensures !front[k].EstablishFn? && FrontOk(s, i, front, k, it) {
      GuardedCall(s, i, calls, k, it);
    }
    QuietAdvance(s, s.(loops := Advance(s.loops, i, front, i, [])), i, front, i, []);
  }

  lemma QuietRead(s: Sys, i: LoopId, ch: Choice)
    requires Inv(s) && RunEnabled(s, i, ch) && s.loops[i].now[0].ReadFn?
    ensures Inv(Exec(s, i, ch))
  {
    HeadOk(s, i);
    var it := s.loops[i].now[0];
    var front := match ch.read
      case Data => [Callback(it.c)]
      case Eof => [CloseFn(it.c)]
      case ReadError => [];
    QuietAdvance(s, Exec(s, i, ch), i, front, i, []);
  }

  lemma QuietStopping(s: Sys, i: LoopId, ch: Choice)
    requires Inv(s) && RunEnabled(s, i, ch) && s.loops[i].now[0].Stopping?
    ensures Inv(Exec(s, i, ch))
  {
    HeadOk(s, i);
    var it := s.loops[i].now[0];
    if it.rest == [] {
      QuietAdvance(s, Exec(s, i, ch), i, [], i, []);
    } else {
      var d := it.rest[0];
      assert d in it.rest && ConnInv(s, d);
      var more := Stopping(it.rest[1..], it.all);
      assert forall c <- more.rest :: c in it.rest;
      if !Passes(s.conns[d], CallShutdown) {
        QuietAdvance(s, Exec(s, i, ch), i, [more], i, []);
      } else {
        QuietShutdown(s, i, d, more);
      }
    }
  }

  lemma QuietShutdown(s: Sys, i: LoopId, d: ConnId, more: Item)
    requires Inv(s) && i < |s.loops| && s.loops[i].now != [] && s.loops[i].now[0].Stopping?
    requires d < |s.conns| && Passes(s.conns[d], CallShutdown)
    requires more.Stopping? && ItemOk(s, i, more)
    ensures var s1 := s.(conns := s.conns[d := AfterCheck(s.conns[d], CallShutdown)]);
            Inv(s1.(loops := if s.home[d] == i then Advance(s.loops, i, [Calling(d, CallShutdown), more], i, [])
                             else Advance(s.loops, i, [more], s.home[d], [ShutdownFn(d)])))
  {
    assert ConnInv(s, d);
    var s1 := s.(conns := s.conns[d := AfterCheck(s.conns[d], CallShutdown)]);
    if s.home[d] == i {
      var s' := s1.(loops := Advance(s.loops, i, [Calling(d, CallShutdown), more], i, []));
      QuietAdvance(s, s', i, [Calling(d, CallShutdown), more], i, []);
    } else {
      var s' := s1.(loops := Advance(s.loops, i, [more], s.home[d], [ShutdownFn(d)]));
      QuietAdvance(s, s', i, [more], s.home[d], [ShutdownFn(d)]);
    }
  }

  /** TcpServer::newConnection. */
  lemma AcceptRun(s: Sys, i: LoopId, ch: Choice)
    requires Inv(s) && RunEnabled(s, i, ch) && s.loops[i].now[0].Accept?
    ensures Inv(Exec(s, i, ch))
  {
    HeadOk(s, i);
    var n, l := |s.conns|, ch.target;
    if l == i {
      AcceptKeeps(s, i, [EstablishFn(n), AcceptTail], l, []);
    } else {
      AcceptKeeps(s, i, [AcceptTail], l, [EstablishFn(n)]);
    }
  }

  lemma AcceptKeeps(s: Sys, i: LoopId, front: seq<Item>, l: LoopId, back: seq<Item>)
    requires Inv(s) && i < |s.loops| && l < |s.loops| && s.loops[i].now != [] && s.loops[i].now[0].Accept?
    requires front == (if l == i then [EstablishFn(|s.conns|), AcceptTail] else [AcceptTail])
    requires back == (if l == i then [] else [EstablishFn(|s.conns|)])
    ensures Inv(s.(conns := s.conns + [FRESH], home := s.home + [l], entries := s.entries + {|s.conns|},
                   loops := Advance(s.loops, i, front, l, back)))
  {
    var s' := s.(conns := s.conns + [FRESH], home := s.home + [l], entries := s.entries + {|s.conns|},
                 loops := Advance(s.loops, i, front, l, back));
    HeadOk(s, i);
    assert Grows(s, s');
    forall j | 0 <= j < |s'.loops| ensures LoopInv(s', j) {
      assert LoopInv(s, j);
      LoopAfterAdvance(s, s', i, front, l, back, j);
    }
    forall c | 0 <= c < |s'.conns| ensures ConnInv(s', c) {
      AcceptCounts(s, s', i, front, l, back, c);
    }
  }

  lemma AcceptCounts(s: Sys, s': Sys, i: LoopId, front: seq<Item>, l: LoopId, back: seq<Item>, c: ConnId)
    requires Inv(s) && i < |s.loops| && l < |s.loops| && s.loops[i].now != [] && s.loops[i].now[0].Accept?
    requires var n := |s.conns|;
             && s' == s.(conns := s.conns + [FRESH], home := s.home + [l], entries := s.entries + {n}, loops := s'.loops)
             && front == (if l == i then [EstablishFn(n), AcceptTail] else [AcceptTail])
             && back == (if l == i then [] else [EstablishFn(n)])
             && c <= n
    requires s'.loops == Advance(s.loops, i, front, l, back)
    ensures ConnInv(s', c)
  {
    if c < |s.conns| {
      assert ConnInv(s, c);
      AcceptOld(s, s', i, front, l, back, c);
    } else {
      AcceptNew(s, s', i, front, l, back);
    }
  }

  lemma AcceptNew(s: Sys, s': Sys, i: LoopId, front: seq<Item>, l: LoopId, back: seq<Item>)
    requires Inv(s) && i < |s.loops| && l < |s.loops| && s.loops[i].now != [] && s.loops[i].now[0].Accept?
    requires var n := |s.conns|;
             && |s'.conns| == |s'.home| == n + 1 && s'.conns[n] == FRESH && s'.home[n] == l && s'.log == s.log
             && n in s'.entries
             && front == (if l == i then [EstablishFn(n), AcceptTail] else [AcceptTail])
             && back == (if l == i then [] else [EstablishFn(n)])
    requires s'.loops == Advance(s.loops, i, front, l, back)
    ensures ConnInv(s', |s.conns|)
  {
    var n := |s.conns|;
    AdvanceCounts(s, s', i, front, l, back, l, n);
    NothingYet(s, l, n);
    if l == i {
      assert front == [EstablishFn(n)] + [AcceptTail];
      CountConcat([EstablishFn(n)], [AcceptTail], EstablishFn(n));
    }
  }

  lemma AcceptOld(s: Sys, s': Sys, i: LoopId, front: seq<Item>, l: LoopId, back: seq<Item>, c: ConnId)
    requires Bounds(s) && i < |s.loops| && l < |s.loops| && s.loops[i].now != [] && s.loops[i].now[0].Accept?
    requires s'.loops == Advance(s.loops, i, front, l, back)
    requires c < |s.conns| && Accounted(s, c)
    requires |s'.home| == |s'.conns| > |s.conns| && s'.home[c] == s.home[c] && s'.log == s.log
    requires c in s'.entries <==> c in s.entries
    requires forall k :: 0 <= k < |front| ==> front[k] == EstablishFn(|s.conns|) || front[k].AcceptTail?
    requires forall k :: 0 <= k < |back| ==> back[k] == EstablishFn(|s.conns|)
    ensures Accounted(s', c)
  {
    AdvanceCounts(s, s', i, front, l, back, s.home[c], c);
    CountAbsent(front, EstablishFn(c)); CountAbsent(back, EstablishFn(c));
  }

  lemma AdvanceCounts(s: Sys, s': Sys, i: LoopId, front: seq<Item>, l: LoopId, back: seq<Item>, j: LoopId, c: ConnId)
    requires i < |s.loops| && l < |s.loops| && j < |s.loops| && s.loops[i].now != [] && s.loops[i].now[0].Accept?
    requires s'.loops == Advance(s.loops, i, front, l, back)
    requires forall k :: 0 <= k < |front| ==> front[k] != DestroyFn(c)
    requires forall k :: 0 <= k < |back| ==> back[k] != DestroyFn(c)
    ensures Count(Todo(s', j), DestroyFn(c)) == Count(Todo(s, j), DestroyFn(c))
    ensures Count(Todo(s', j), EstablishFn(c)) == Count(Todo(s, j), EstablishFn(c))
              + (if j == i then Count(front, EstablishFn(c)) else 0) + (if j == l then Count(back, EstablishFn(c)) else 0)
  {
    CountAfterAdvance(s, s', i, front, l, back, j, EstablishFn(c));
    CountAfterAdvance(s, s', i, front, l, back, j, DestroyFn(c));
    CountAbsent(front, DestroyFn(c)); CountAbsent(back, DestroyFn(c));
  }

  /** Nothing refers to a connection before it exists. */
  lemma NothingYet(s: Sys, j: LoopId, c: ConnId)
    requires Inv(s) && j < |s.loops| && c >= |s.conns|
    ensures Count(Todo(s, j), EstablishFn(c)) == 0 && Count(Todo(s, j), DestroyFn(c)) == 0
    ensures Up(c) !in s.log && Down(c) !in s.log
    ensures Marks(s.log, Up(c)) == 0 && Marks(s.log, Down(c)) == 0
  {
    assert LoopInv(s, j);
    forall k | 0 <= k < |Todo(s, j)| ensures Todo(s, j)[k] != EstablishFn(c) && Todo(s, j)[k] != DestroyFn(c) {
      assert ItemOk(s, j, Todo(s, j)[k]);
    }
    CountAbsent(Todo(s, j), EstablishFn(c));
    CountAbsent(Todo(s, j), DestroyFn(c));
  }

  lemma MarksIn(log: seq<Mark>, m: Mark)
    ensures Marks(log, m) > 0 <==> m in log
  {
    assert m in multiset(log) <==> m in log;
  }

  lemma CountHead(s: Sys, i: LoopId)
    requires i < |s.loops| && s.loops[i].now != []
    ensures Count(Todo(s, i), s.loops[i].now[0]) > 0
  {
    assert Todo(s, i)[0] == s.loops[i].now[0];
    assert Todo(s, i)[0] in multiset(Todo(s, i));
  }

  lemma OrderedAppend(log: seq<Mark>, m: Mark)
    requires Ordered(log) && (m.Down? ==> Up(m.c) in log)
    ensures Ordered(log + [m])
  {
    var log' := log + [m];
    forall j | 0 <= j < |log'| && log'[j].Down? ensures Up(log'[j].c) in log'[..j] {
      assert log'[..j] == log[..j];
    }
  }

  /** connectEstablished finds the connection Connecting and runs for the first time. */
  lemma EstablishFinds(s: Sys, i: LoopId)
    requires Inv(s) && i < |s.loops| && s.loops[i].now != [] && s.loops[i].now[0].EstablishFn?
    ensures var c := s.loops[i].now[0].c;
            c < |s.conns| && s.conns[c].state == Connecting && Up(c) !in s.log && c in s.entries
  {
    HeadOk(s, i);
    CountHead(s, i);
    MarksIn(s.log, Up(s.loops[i].now[0].c));
  }

  lemma EstablishRun(s: Sys, i: LoopId, ch: Choice)
    requires Inv(s) && RunEnabled(s, i, ch) && s.loops[i].now[0].EstablishFn?
    ensures Inv(Exec(s, i, ch))
  {
    EstablishFinds(s, i);
    EstablishKeeps(s, i, s.loops[i].now[0].c);
  }

  lemma EstablishKeeps(s: Sys, i: LoopId, c: ConnId)
    requires Inv(s) && i < |s.loops| && s.loops[i].now != [] && s.loops[i].now[0] == EstablishFn(c) && c < |s.conns|
    ensures Inv(s.(conns := s.conns[c := ConnectEstablished(s.conns[c])], log := s.log + [Up(c)],
                   loops := Advance(s.loops, i, [Callback(c)], i, [])))
  {
    HeadOk(s, i);
    EstablishFinds(s, i);
    var front := [Callback(c)];
    var s' := s.(conns := s.conns[c := ConnectEstablished(s.conns[c])], log := s.log + [Up(c)],
                 loops := Advance(s.loops, i, front, i, []));
    assert Grows(s, s');
    forall j | 0 <= j < |s'.loops| ensures LoopInv(s', j) {
      assert LoopInv(s, j);
      LoopAfterAdvance(s, s', i, front, i, [], j);
    }
    forall d | 0 <= d < |s'.conns| ensures ConnInv(s', d) {
      assert ConnInv(s, d);
      OneShotCounts(s, s', i, front, d, Up(c));
    }
    OrderedAppend(s.log, Up(c));
  }

  /** Running a one-shot functor moves one unit from the list to the log. */
  lemma OneShotCounts(s: Sys, s': Sys, i: LoopId, front: seq<Item>, d: ConnId, m: Mark)
    requires Bounds(s) && i < |s.loops| && s.loops[i].now != []
    requires d < |s.conns| && Accounted(s, d) && m.c < |s.conns| && s.home[m.c] == i
    requires s.loops[i].now[0] == (if m.Up? then EstablishFn(m.c) else DestroyFn(m.c))
    requires s'.home == s.home && |s'.conns| == |s.conns| && s'.entries == s.entries && s'.log == s.log + [m]
    requires s'.loops == Advance(s.loops, i, front, i, [])
    requires forall k :: 0 <= k < |front| ==> !front[k].EstablishFn? && !front[k].DestroyFn?
    ensures Accounted(s', d)
  {
    CountAfterAdvance(s, s', i, front, i, [], s.home[d], EstablishFn(d));
    CountAfterAdvance(s, s', i, front, i, [], s.home[d], DestroyFn(d));
    CountAbsent(front, DestroyFn(d)); CountAbsent(front, EstablishFn(d));
    MarksAppend(s.log, m, Up(d));
    MarksAppend(s.log, m, Down(d));
  }

  /** connectDestroyed finds the connection Disconnected, out of the map, for the first time. */
  lemma DestroyFinds(s: Sys, i: LoopId)
    requires Inv(s) && i < |s.loops| && s.loops[i].now != [] && s.loops[i].now[0].DestroyFn?
    ensures var c := s.loops[i].now[0].c;
            c < |s.conns| && s.conns[c].state == Disconnected && Down(c) !in s.log && c !in s.entries && Up(c) in s.log
  {
    HeadOk(s, i);
    CountHead(s, i);
    MarksIn(s.log, Down(s.loops[i].now[0].c));
  }

  lemma DestroyRun(s: Sys, i: LoopId, ch: Choice)
    requires Inv(s) && RunEnabled(s, i, ch) && s.loops[i].now[0].DestroyFn?
    ensures Inv(Exec(s, i, ch))
  {
    DestroyFinds(s, i);
    var c := s.loops[i].now[0].c;
    assert s.conns[c := ConnectDestroyed(s.conns[c])] == s.conns;
    DestroyKeeps(s, i, c);
  }

  lemma DestroyKeeps(s: Sys, i: LoopId, c: ConnId)
    requires Inv(s) && i < |s.loops| && s.loops[i].now != [] && s.loops[i].now[0] == DestroyFn(c)
    ensures Inv(s.(log := s.log + [Down(c)], loops := Advance(s.loops, i, [], i, [])))
  {
    HeadOk(s, i);
    DestroyFinds(s, i);
    var s' := s.(log := s.log + [Down(c)], loops := Advance(s.loops, i, [], i, []));
    forall j | 0 <= j < |s'.loops| ensures LoopInv(s', j) {
      NoChannels(s, i, j, c);
      LoopAfterAdvance(s, s', i, [], i, [], j);
    }
    forall d | 0 <= d < |s'.conns| ensures ConnInv(s', d) {
      assert ConnInv(s, d);
      OneShotCounts(s, s', i, [], d, Down(c));
    }
    OrderedAppend(s.log, Down(c));
  }

  /** No loop has a channel event of a connection whose connectDestroyed is running. */
  lemma NoChannels(s: Sys, i: LoopId, j: LoopId, c: ConnId)
    requires Inv(s) && i < |s.loops| && j < |s.loops| && s.loops[i].now != [] && s.loops[i].now[0] == DestroyFn(c)
    ensures LoopInv(s, j)
    ensures forall k :: 0 <= k < |Todo(s, j)| && Todo(s, j)[k].Chan? ==> Todo(s, j)[k].c != c
  {
    HeadOk(s, i);
    assert LoopInv(s, i) && LoopInv(s, j);
    var l := s.loops[j];
    forall k | 0 <= k < |Todo(s, j)| ensures Todo(s, j)[k].Chan? ==> Todo(s, j)[k].c != c {
      assert ItemOk(s, j, Todo(s, j)[k]);
      assert Todo(s, j)[k] == if k < |l.now| then l.now[k] else l.pending[k - |l.now|];
    }
  }

  /** removeConnectionInLoop when the connection is still in the map. */
  lemma RemoveRun(s: Sys, i: LoopId, ch: Choice)
    requires Inv(s) && RunEnabled(s, i, ch)
    requires s.loops[i].now[0].RemoveFn? && s.loops[i].now[0].c in s.entries
    ensures Inv(Exec(s, i, ch))
  {
    HeadOk(s, i);
    var c := s.loops[i].now[0].c;
    var s' := s.(entries := s.entries - {c}, loops := Advance(s.loops, i, [], s.home[c], [DestroyFn(c)]));
    assert Exec(s, i, ch) == s';
    forall j | 0 <= j < |s'.loops| ensures LoopInv(s', j) {
      RemoveLoop(s, s', i, c, j);
    }
    forall d | 0 <= d < |s'.conns| ensures ConnInv(s', d) {
      assert ConnInv(s, d);
      RemoveCounts(s, s', i, c, d);
    }
  }

  lemma RemoveLoop(s: Sys, s': Sys, i: LoopId, c: ConnId, j: LoopId)
    requires Inv(s) && i < |s.loops| && j < |s.loops| && s.loops[i].now != [] && s.loops[i].now[0] == RemoveFn(c)
    requires c < |s.conns| && ItemOk(s, i, RemoveFn(c))
    requires s' == s.(entries := s.entries - {c}, loops := Advance(s.loops, i, [], s.home[c], [DestroyFn(c)]))
    ensures LoopInv(s', j)
  {
    assert LoopInv(s, j);
    ItemsAfterAdvance(s, s', i, [], s.home[c], [DestroyFn(c)], j);
    AdvanceLoopOk(s.loops, i, [], s.home[c], [DestroyFn(c)], j);
    RemoveAnchored(s, s', i, c, j);
  }

  lemma RemoveCounts(s: Sys, s': Sys, i: LoopId, c: ConnId, d: ConnId)
    requires Bounds(s) && i < |s.loops| && s.loops[i].now != [] && s.loops[i].now[0] == RemoveFn(c)
    requires c < |s.conns| && c in s.entries && d < |s.conns| && Accounted(s, d)
    requires s'.loops == Advance(s.loops, i, [], s.home[c], [DestroyFn(c)])
    requires s'.home == s.home && |s'.conns| == |s.conns| && s'.log == s.log && s'.entries == s.entries - {c}
    ensures Accounted(s', d)
  {
    var back := [DestroyFn(c)];
    CountAfterAdvance(s, s', i, [], s.home[c], back, s.home[d], EstablishFn(d));
    CountAfterAdvance(s, s', i, [], s.home[c], back, s.home[d], DestroyFn(d));
    CountAbsent(back, EstablishFn(d));
    if d != c { CountAbsent(back, DestroyFn(d)); }
  }

  lemma RemoveAnchored(s: Sys, s': Sys, i: LoopId, c: ConnId, j: LoopId)
    requires |s.home| == |s.conns| && i < |s.loops| && j < |s.loops| && s.loops[i].now != []
    requires c < |s.conns| && s.home[c] < |s.loops| && LoopInv(s, j)
    requires s'.loops == Advance(s.loops, i, [], s.home[c], [DestroyFn(c)])
    requires s'.entries == s.entries - {c} && s'.log == s.log
    ensures Anchored(Todo(s', j), s'.entries, s'.log)
  {
    var l := s.home[c];
    AdvanceTodo(s.loops, i, [], l, [DestroyFn(c)], j);
    var q := Todo(s, j);
    var rest := if j == i then q[1..] else q;
    if j == i {
      assert q == [q[0]] + q[1..];
      AnchoredAdvance([], q[0], q[1..], [], s.entries, s.log);
      assert [] + q[1..] + [] == rest;
    }
    if j == l {
      AnchoredErase(rest, c, s.entries, s.log);
      assert Todo(s', j) == rest + [DestroyFn(c)];
    } else {
      forall k | 0 <= k < |rest| && Raw(rest[k]) ensures rest[k].c != c {
        assert rest[k] == q[if j == i then k + 1 else k];
        assert ItemOk(s, j, rest[k]);
      }
      AnchoredEraseElsewhere(rest, c, s.entries, s.log);
      assert Todo(s', j) == rest;
    }
  }

  lemma CountZeroOrIn(q: seq<Item>, x: Item)
    ensures Count(q, x) == 0 || exists k :: 0 <= k < |q| && q[k] == x
  {
    if Count(q, x) != 0 {
      assert x in multiset(q);
      assert x in q;
    }
  }

  /** A polled channel's connection is owned by the map, or its DestroyFn is still
      waiting in this loop's queue, or connectDestroyed already ran. */
  lemma PolledHeld(s: Sys, i: LoopId, c: ConnId)
    requires Inv(s) && i < |s.loops| && s.loops[i].now == []
    requires c < |s.conns| && s.home[c] == i && Down(c) !in s.log && c !in s.entries
    ensures DestroyFn(c) in s.loops[i].pending
  {
    assert Todo(s, i) == s.loops[i].pending;
    assert ConnInv(s, c);
    MarksIn(s.log, Down(c));
    CountZeroOrIn(s.loops[i].pending, DestroyFn(c));
  }

  /** Putting items in front keeps a list anchored if each is owned by the map or by the list. */
  lemma AnchoredPrepend(front: seq<Item>, q: seq<Item>, entries: set<ConnId>, log: seq<Mark>)
    requires Anchored(q, entries, log)
    requires forall k :: 0 <= k < |front| && Needs(front[k], log) ==> front[k].c in entries || DestroyFn(front[k].c) in q
    ensures Anchored(front + q, entries, log)
  {
    var r := front + q;
    forall k | 0 <= k < |r| && Needs(r[k], log) ensures Held(r, k, entries) {
      if k < |front| {
        assert r[k] == front[k];
        if r[k].c !in entries {
          var j :| 0 <= j < |q| && q[j] == DestroyFn(r[k].c);
          assert r[j + |front|] == q[j];
        }
      } else {
        assert r[k] == q[k - |front|] && Held(q, k - |front|, entries);
        if r[k].c !in entries {
          var j :| k - |front| < j < |q| && r[k].c in Refs(q[j]);
          assert r[j + |front|] == q[j];
        }
      }
    }
  }

  lemma PollAnchored(s: Sys, i: LoopId, active: seq<Item>)
    requires Inv(s) && Enabled(s, Poll(i, active))
    ensures Anchored(active + s.loops[i].pending, s.entries, s.log)
  {
    assert Todo(s, i) == s.loops[i].pending && LoopInv(s, i);
    forall k | 0 <= k < |active| && Needs(active[k], s.log)
      ensures active[k].c in s.entries || DestroyFn(active[k].c) in s.loops[i].pending
    {
      assert Polled(s, i, active[k]);
      if active[k].c !in s.entries {
        PolledHeld(s, i, active[k].c);
      }
    }
    AnchoredPrepend(active, s.loops[i].pending, s.entries, s.log);
  }

  lemma PollStep(s: Sys, i: LoopId, active: seq<Item>)
    requires Inv(s) && Enabled(s, Poll(i, active))
    ensures Inv(Next(s, Poll(i, active)))
  {
    var s' := s.(loops := s.loops[i := Loop(true, active, s.loops[i].pending)]);
    assert Next(s, Poll(i, active)) == s';
    var pending := s.loops[i].pending;
    assert Todo(s, i) == pending && Todo(s', i) == active + pending;
    PollAnchored(s, i, active);
    forall k | 0 <= k < |active| ensures ItemOk(s', i, active[k]) && !active[k].DestroyFn? && !active[k].EstablishFn? {
      assert Polled(s, i, active[k]);
      if active[k].Chan? {
        PolledItem(s, i, active[k].c);
      }
    }
    forall j | 0 <= j < |s'.loops| ensures LoopInv(s', j) {
      assert LoopInv(s, j);
      OtherLoops(s, s', i, j, active, []);
    }
    forall c | 0 <= c < |s'.conns| ensures ConnInv(s', c) {
      assert ConnInv(s, c);
      OtherCounts(s, s', i, c, active, []);
    }
  }

  lemma PolledItem(s: Sys, i: LoopId, c: ConnId)
    requires Inv(s) && c < |s.conns| && s.home[c] == i && (s.conns[c].reading || s.conns[c].writing)
    ensures ItemOk(s, i, Chan(c))
  {
    assert ConnInv(s, c);
    if Down(c) in s.log {
      MarksIn(s.log, Down(c));
    }
  }

  /** Loop `i` gets `before` in front and `after` behind what it had queued. */
  lemma OtherLoops(s: Sys, s': Sys, i: LoopId, j: LoopId, before: seq<Item>, after: seq<Item>)
    requires |s.home| == |s.conns| && i < |s.loops| && j < |s.loops| && LoopInv(s, j)
    requires s' == s.(loops := s'.loops) && |s'.loops| == |s.loops|
    requires forall k :: 0 <= k < |s.loops| && k != i ==> s'.loops[k] == s.loops[k]
    requires j == i ==> Todo(s', i) == before + Todo(s, i) + after && Anchored(Todo(s', i), s.entries, s.log)
                        && LoopOk(s'.loops[i])
    requires forall k :: 0 <= k < |before| ==> ItemOk(s', i, before[k])
    requires forall k :: 0 <= k < |after| ==> ItemOk(s', i, after[k])
    ensures LoopInv(s', j)
  {
    if j == i {
      var q := Todo(s, i);
      forall k | 0 <= k < |before + q + after| ensures ItemOk(s', i, (before + q + after)[k]) {
        if |before| <= k < |before| + |q| {
          assert ItemOk(s, i, q[k - |before|]);
        } else if k >= |before| + |q| {
          assert (before + q + after)[k] == after[k - |before| - |q|];
        }
      }
    } else {
      assert Todo(s', j) == Todo(s, j);
      forall k | 0 <= k < |Todo(s', j)| ensures ItemOk(s', j, Todo(s', j)[k]) {
        assert ItemOk(s, j, Todo(s, j)[k]);
      }
    }
  }

  lemma OtherCounts(s: Sys, s': Sys, i: LoopId, c: ConnId, before: seq<Item>, after: seq<Item>)
    requires Bounds(s) && i < |s.loops| && c < |s.conns| && Accounted(s, c)
    requires s' == s.(loops := s'.loops) && |s'.loops| == |s.loops|
    requires forall k :: 0 <= k < |s.loops| && k != i ==> s'.loops[k] == s.loops[k]
    requires Todo(s', i) == before + Todo(s, i) + after
    requires forall k :: 0 <= k < |before| ==> !before[k].EstablishFn? && !before[k].DestroyFn?
    requires forall k :: 0 <= k < |after| ==> !after[k].EstablishFn? && !after[k].DestroyFn?
    ensures Accounted(s', c)
  {
    if s.home[c] == i {
      var q := Todo(s, i);
      CountConcat(before + q, after, EstablishFn(c)); CountConcat(before + q, after, DestroyFn(c));
      CountConcat(before, q, EstablishFn(c)); CountConcat(before, q, DestroyFn(c));
      CountAbsent(before, EstablishFn(c)); CountAbsent(before, DestroyFn(c));
      CountAbsent(after, EstablishFn(c)); CountAbsent(after, DestroyFn(c));
    } else {
      assert Todo(s', s.home[c]) == Todo(s, s.home[c]);
    }
  }

  lemma SwapStep(s: Sys, i: LoopId)
    requires Inv(s) && Enabled(s, Swap(i))
    ensures Inv(Next(s, Swap(i)))
  {
    var batch := s.loops[i].pending;
    var end := BatchEnd(BatchRefs(batch));
    var s' := s.(loops := s.loops[i := Loop(false, batch + [end], [])]);
    assert Next(s, Swap(i)) == s';
    assert LoopInv(s, i);
    assert Todo(s, i) == batch && Todo(s', i) == batch + [end];
    AnchoredAppend(batch, [end], s.entries, s.log);
    BatchEndOk(s, i);
    assert LoopOk(s'.loops[i]) by {
      forall k | 0 <= k < |batch + [end]| ensures !(batch + [end])[k].Chan? {
      }
    }
    forall j | 0 <= j < |s'.loops| ensures LoopInv(s', j) {
      assert LoopInv(s, j);
      OtherLoops(s, s', i, j, [], [end]);
    }
    forall c | 0 <= c < |s'.conns| ensures ConnInv(s', c) {
      assert ConnInv(s, c);
      OtherCounts(s, s', i, c, [], [end]);
    }
  }

  lemma BatchEndOk(s: Sys, i: LoopId)
    requires Bounds(s) && i < |s.loops| && ItemsOk(s, i) && s.loops[i].now == []
    ensures ItemOk(s, i, BatchEnd(BatchRefs(s.loops[i].pending)))
  {
    var batch := s.loops[i].pending;
    assert Todo(s, i) == batch;
    forall c | c in BatchRefs(batch) ensures c < |s.conns| {
      var k :| 0 <= k < |batch| && c in Refs(batch[k]);
      assert ItemOk(s, i, batch[k]);
    }
  }

  /** send, shutdown or forceClose on the connection's own loop thread. */
  lemma UseInline(s: Sys, i: LoopId, d: ConnId, call: Call)
    requires Inv(s) && i < |s.loops| && s.loops[i].now != []
    requires s.loops[i].now[0].Callback? || s.loops[i].now[0].Posted?
    requires d < |s.conns| && s.home[d] == i && Passes(s.conns[d], call)
    ensures Inv(s.(conns := s.conns[d := AfterCheck(s.conns[d], call)],
                   loops := Advance(s.loops, i, [Calling(d, call), Guard(d), s.loops[i].now[0]], i, [])))
  {
    HeadOk(s, i);
    assert ConnInv(s, d);
    var front := [Calling(d, call), Guard(d), s.loops[i].now[0]];
    var s' := s.(conns := s.conns[d := AfterCheck(s.conns[d], call)], loops := Advance(s.loops, i, front, i, []));
    forall k | 0 <= k < |front| ensures !front[k].EstablishFn? && FrontOk(s', i, front, k, s.loops[i].now[0]) {
      InlineFront(s, s', i, d, call, k);
    }
    QuietAdvance(s, s', i, front, i, []);
  }

  lemma InlineFront(s: Sys, s': Sys, i: LoopId, d: ConnId, call: Call, k: nat)
    requires i < |s.loops| && s.loops[i].now != [] && |s'.home| == |s'.conns| && d < |s'.conns| && s'.home[d] == i && k < 3
    requires s'.conns[d].state != Connecting
    requires s.loops[i].now[0].Callback? || s.loops[i].now[0].Posted?
    requires ItemOk(s', i, s.loops[i].now[0])
    ensures var front := [Calling(d, call), Guard(d), s.loops[i].now[0]];
            !front[k].EstablishFn? && FrontOk(s', i, front, k, s.loops[i].now[0])
  {
    assert d in Refs([Calling(d, call), Guard(d), s.loops[i].now[0]][1]);
  }

  /** The same from any other thread: the check passes, so the map still owns the connection. */
  lemma UseQueued(s: Sys, d: ConnId, call: Call)
    requires Inv(s) && d < |s.conns| && Passes(s.conns[d], call)
    ensures Inv(s.(conns := s.conns[d := AfterCheck(s.conns[d], call)],
                   loops := Queue(s.loops, s.home[d], [Functor(d, call)])))
  {
    assert ConnInv(s, d);
    var s' := s.(conns := s.conns[d := AfterCheck(s.conns[d], call)], loops := Queue(s.loops, s.home[d], [Functor(d, call)]));
    QuietQueue(s, s', s.home[d], [Functor(d, call)]);
  }

  lemma UseStep(s: Sys, onto: int, d: ConnId, call: Call)
    requires Inv(s) && Formed(s) && d < |s.conns|
    requires 0 <= onto ==> onto < |s.loops| && s.loops[onto].now != []
                           && (s.loops[onto].now[0].Callback? || s.loops[onto].now[0].Posted?)
    ensures Inv(User(s, onto, Use(d, call)))
  {
    if Passes(s.conns[d], call) {
      if s.home[d] == onto {
        UseInline(s, onto, d, call);
      } else {
        UseQueued(s, d, call);
      }
    }
  }

  lemma StopStep(s: Sys, onto: int)
    requires Inv(s) && Formed(s)
    requires 0 <= onto ==> onto < |s.loops| && s.loops[onto].now != []
                           && (s.loops[onto].now[0].Callback? || s.loops[onto].now[0].Posted?)
    ensures Inv(User(s, onto, Stop))
  {
    var s' := User(s, onto, Stop);
    if onto == 0 {
      HeadOk(s, onto);
      QuietAdvance(s, s', 0, [StopFn, s.loops[0].now[0]], 0, []);
    } else {
      QuietQueue(s, s', 0, [StopFn]);
    }
  }

  lemma HeldOnly(s: Sys, held: multiset<ConnId>)
    requires Inv(s) && forall c <- held :: c < |s.conns|
    ensures Inv(s.(held := held))
  {
    var s' := s.(held := held);
    forall j | 0 <= j < |s'.loops| ensures LoopInv(s', j) {
      assert LoopInv(s, j);
      assert Todo(s', j) == Todo(s, j);
      forall k | 0 <= k < |Todo(s', j)| ensures ItemOk(s', j, Todo(s', j)[k]) {
        assert ItemOk(s, j, Todo(s, j)[k]);
      }
    }
    forall c | 0 <= c < |s'.conns| ensures ConnInv(s', c) {
      assert ConnInv(s, c);
      assert Todo(s', s.home[c]) == Todo(s, s.home[c]);
    }
  }

  lemma UserStep(s: Sys, onto: int, act: Act)
    requires Inv(s) && Formed(s)
    requires 0 <= onto ==> onto < |s.loops| && s.loops[onto].now != []
                           && (s.loops[onto].now[0].Callback? || s.loops[onto].now[0].Posted?)
    requires match act
             case Post(l) => l < |s.loops|
             case Stop => true
             case _ => act.d < |s.conns|
    ensures Inv(User(s, onto, act))
  {
    match act
    case Use(d, call) => UseStep(s, onto, d, call);
    case Keep(d) => HeldOnly(s, s.held + multiset{d});
    case Drop(d) => HeldOnly(s, s.held - multiset{d});
    case Post(l) => QuietQueue(s, User(s, onto, act), l, [Posted]);
    case Stop => StopStep(s, onto);
  }

  lemma RunStep(s: Sys, i: LoopId, ch: Choice)
    requires Inv(s) && RunEnabled(s, i, ch)
    ensures Inv(Exec(s, i, ch))
  {
    match s.loops[i].now[0]
    case Accept => AcceptRun(s, i, ch);
    case EstablishFn(_) => EstablishRun(s, i, ch);
    case DestroyFn(_) => DestroyRun(s, i, ch);
    case RemoveFn(c) => if c in s.entries { RemoveRun(s, i, ch); } else { QuietPop(s, i, ch); }
    case Chan(_) => QuietChannel(s, i, ch);
    case ReadFn(_) => QuietRead(s, i, ch);
    case CloseFn(_) => QuietClose(s, i, ch);
    case ForceFn(_) => QuietClose(s, i, ch);
    case Calling(_, call) =>
      if call.CallForceClose? { QuietClose(s, i, ch); }
      else if call.CallSend? { QuietSend(s, i, ch); }
      else { QuietWrite(s, i, ch); }
    case CloseCallback(_) => QuietRemoval(s, i, ch);
    case Stopping(_, _) => QuietStopping(s, i, ch);
    case StopFn => QuietStop(s, i, ch);
    case SendFn(_, _) => QuietSend(s, i, ch);
    case WriteFn(_) => QuietWrite(s, i, ch);
    case ShutdownFn(_) => QuietWrite(s, i, ch);
    case DestroyTail(_) => HeadOk(s, i);
    case _ => QuietPop(s, i, ch);
  }

  /** The invariant is inductive. */
  lemma InvStep(s: Sys, e: Event)
    requires Inv(s) && Enabled(s, e)
    ensures Inv(Next(s, e))
  {
    match e
    case Poll(i, active) => PollStep(s, i, active);
    case Swap(i) => SwapStep(s, i);
    case Run(i, ch) => RunStep(s, i, ch);
    case UserOnLoop(i, act) => UserStep(s, i, act);
    case UserElsewhere(act) => UserStep(s, -1, act);
  }

  lemma InvInitial(s: Sys)
    requires Initial(s)
    ensures Inv(s)
  {
  }

  lemma {:induction false} InvLeads(s: Sys, es: seq<Event>, t: Sys)
    requires Inv(s) && Leads(s, es, t)
    ensures Inv(t)
    decreases |es|
  {
    if es != [] {
      InvStep(s, es[0]);
      InvLeads(Next(s, es[0]), es[1..], t);
    }
  }

  lemma InvReachable(t: Sys)
    requires Reachable(t)
    ensures Inv(t)
  {
    var s, es :| Initial(s) && Leads(s, es, t);
    InvInitial(s);
    InvLeads(s, es, t);
  }
}
