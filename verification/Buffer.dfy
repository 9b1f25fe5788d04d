/** hayai::Buffer: a vector with a read and a write index.

    `writableBytes()` is coded as size - readerIndex_, while the layout diagram of the
    class and every use of it mean size - writerIndex_.  Everything below is stated for
    both readings at once (`Rule`), so that what the coded reading breaks can be said
    exactly. */
module Buffers {
  import opened Bytes

  const PREPEND: nat := 8
  const INITIAL_SIZE: nat := 1024
  const EXTRA: nat := 65536

  datatype Rule = AsCoded | AsDocumented

  /** The vector and the two indices. */
  datatype Store = Store(mem: bytes, reader: nat, writer: nat)

  predicate Valid(b: Store) {
    PREPEND <= b.reader <= b.writer <= |b.mem|
  }

  /** The readable bytes: the abstract byte queue. */
  function View(b: Store): bytes
    requires Valid(b)
  {
    b.mem[b.reader..b.writer]
  }

  function Zeros(n: nat): bytes { seq(n, _ => 0) }

  function New(initialSize: nat): Store {
    Store(Zeros(PREPEND + initialSize), PREPEND, PREPEND)
  }

  function Writable(rule: Rule, b: Store): nat
    requires Valid(b)
  {
    |b.mem| - (if rule.AsCoded? then b.reader else b.writer)
  }

  function Resized(mem: bytes, n: nat): (r: bytes)
    ensures |r| == n
  {
    if n <= |mem| then mem[..n] else mem + Zeros(n - |mem|)
  }

  /** The readable bytes moved down to the prepend area. */
  function Compacted(b: Store): Store
    requires Valid(b)
  {
    var q := View(b);
    Store(b.mem[..PREPEND] + q + b.mem[PREPEND + |q|..], PREPEND, PREPEND + |q|)
  }

  lemma CompactedAt(b: Store, mem: bytes)
    requires Valid(b) && |mem| == |b.mem|
    requires forall k :: PREPEND <= k < PREPEND + b.writer - b.reader ==> mem[k] == b.mem[k - PREPEND + b.reader]
    requires forall k :: 0 <= k < |mem| && !(PREPEND <= k < PREPEND + b.writer - b.reader) ==> mem[k] == b.mem[k]
    ensures mem == Compacted(b).mem
  {
    var m := Compacted(b).mem;
    assert |m| == |mem|;
    var q := View(b);
    forall k | 0 <= k < |mem| ensures mem[k] == m[k] {
      if k < PREPEND {
        assert m[k] == b.mem[k];
      } else if k < PREPEND + |q| {
        assert m[k] == q[k - PREPEND] == b.mem[k - PREPEND + b.reader];
      } else {
        assert m[k] == b.mem[PREPEND + |q|..][k - PREPEND - |q|] == b.mem[k];
      }
    }
  }

  function SpaceMade(rule: Rule, b: Store, len: nat): Store
    requires Valid(b)
  {
    if Writable(rule, b) + b.reader < len + PREPEND then b.(mem := Resized(b.mem, b.writer + len))
    else Compacted(b)
  }

  function EnsureWritable(rule: Rule, b: Store, len: nat): Store
    requires Valid(b)
  {
    if Writable(rule, b) < len then SpaceMade(rule, b, len) else b
  }

  /** `d` copied to the write index. */
  function Written(b: Store, d: bytes): Store
    requires b.writer + |d| <= |b.mem|
  {
    Store(b.mem[..b.writer] + d + b.mem[b.writer + |d|..], b.reader, b.writer + |d|)
  }

  /** The copy in append stays inside the vector. */
  predicate Fits(rule: Rule, b: Store, len: nat)
    requires Valid(b)
  {
    var e := EnsureWritable(rule, b, len);
    e.writer + len <= |e.mem|
  }

  function Appended(rule: Rule, b: Store, d: bytes): Store
    requires Valid(b) && Fits(rule, b, |d|)
  {
    Written(EnsureWritable(rule, b, |d|), d)
  }

  function Retrieved(b: Store, n: nat): Store
    requires Valid(b) && n <= b.writer - b.reader
  {
    if n < b.writer - b.reader then b.(reader := b.reader + n) else b.(reader := PREPEND, writer := PREPEND)
  }

  function Shrunk(rule: Rule, b: Store, reserve: nat): Store
    requires Valid(b)
  {
    var other := EnsureWritable(rule, New(INITIAL_SIZE), |View(b)| + reserve);
    ShrinkFits(rule, |View(b)|, reserve);
    Appended(rule, other, View(b))
  }

  /** shrink never leaves its fresh vector, under either reading. */
  lemma ShrinkFits(rule: Rule, readable: nat, reserve: nat)
    ensures Valid(EnsureWritable(rule, New(INITIAL_SIZE), readable + reserve))
    ensures Fits(rule, EnsureWritable(rule, New(INITIAL_SIZE), readable + reserve), readable)
  {
  }

  /** How much readv may return: the second segment is offered only when the first is small. */
  function ReadLimit(rule: Rule, b: Store): nat
    requires Valid(b)
  {
    Writable(rule, b) + (if Writable(rule, b) < EXTRA then EXTRA else 0)
  }

  /** After the kernel filled the first segment: writerIndex_ = buffer_.size(). */
  function Filled(rule: Rule, b: Store, d: bytes): Store
    requires Valid(b) && Writable(rule, b) <= |d| && b.writer + Writable(rule, b) <= |b.mem|
  {
    Written(b, d[..Writable(rule, b)]).(writer := |b.mem|)
  }

  /** Neither the kernel nor the overflow append writes outside the vector. */
  predicate ReadFits(rule: Rule, b: Store, d: bytes)
    requires Valid(b)
  {
    var w := Writable(rule, b);
    if |d| <= w then b.writer + |d| <= |b.mem|
    else b.writer + w <= |b.mem| && Fits(rule, Filled(rule, b, d), |d| - w)
  }

  function AfterRead(rule: Rule, b: Store, d: bytes): Store
    requires Valid(b) && ReadFits(rule, b, d)
  {
    var w := Writable(rule, b);
    if |d| <= w then Written(b, d) else Appended(rule, Filled(rule, b, d), d[w..])
  }

  // ----- what each operation means -----

  /** Compaction is entered only with readerIndex above the prepend area, so its forward copy
      never overtakes itself: under either reading of writableBytes, too little room behind
      the content together with enough room in all puts some of it in front. */
  lemma CompactsOnlyForward(rule: Rule, b: Store, len: nat)
    requires Valid(b) && Writable(rule, b) < len
    ensures !(Writable(rule, b) + b.reader < len + PREPEND) ==> b.reader > PREPEND
    ensures b.reader == PREPEND ==> EnsureWritable(rule, b, len).mem == Resized(b.mem, b.writer + len)
  {
  }

  /** Making room keeps the content, whichever branch runs. */
  lemma EnsureKeepsContent(rule: Rule, b: Store, len: nat)
    requires Valid(b)
    ensures var e := EnsureWritable(rule, b, len);
            Valid(e) && View(e) == View(b) && (e.reader == b.reader || e.reader == PREPEND)
  {
    var e := EnsureWritable(rule, b, len);
    if e.mem != b.mem && e.reader == b.reader && |e.mem| != |b.mem| {
      assert Resized(b.mem, b.writer + len)[..b.writer] == b.mem[..b.writer];
      assert View(e) == e.mem[..b.writer][b.reader..];
      assert View(b) == b.mem[..b.writer][b.reader..];
    }
  }

  lemma AppendAppends(rule: Rule, b: Store, d: bytes)
    requires Valid(b) && Fits(rule, b, |d|)
    ensures Valid(Appended(rule, b, d)) && View(Appended(rule, b, d)) == View(b) + d
  {
    EnsureKeepsContent(rule, b, |d|);
    var e := EnsureWritable(rule, b, |d|);
    assert View(Written(e, d)) == View(e) + d;
  }

  lemma RetrieveTakes(b: Store, n: nat)
    requires Valid(b) && n <= b.writer - b.reader
    ensures Valid(Retrieved(b, n)) && View(Retrieved(b, n)) == View(b)[n..] && Retrieved(b, n).mem == b.mem
    ensures View(Retrieved(b, n)) == [] <==> Retrieved(b, n).reader == Retrieved(b, n).writer
    ensures Retrieved(b, n).reader == Retrieved(b, n).writer ==> Retrieved(b, n).reader == PREPEND
  {
  }

  lemma ShrinkKeepsContent(rule: Rule, b: Store, reserve: nat)
    requires Valid(b)
    ensures var s := Shrunk(rule, b, reserve);
            Valid(s) && View(s) == View(b) && |s.mem| == PREPEND + Max(INITIAL_SIZE, |View(b)| + reserve)
  {
    ShrinkFits(rule, |View(b)|, reserve);
    var fresh_ := New(INITIAL_SIZE);
    EnsureKeepsContent(rule, fresh_, |View(b)| + reserve);
    var other := EnsureWritable(rule, fresh_, |View(b)| + reserve);
    assert View(fresh_) == [];
    AppendAppends(rule, other, View(b));
    assert [] + View(b) == View(b);
  }

  lemma WrittenAppends(b: Store, d: bytes)
    requires Valid(b) && b.writer + |d| <= |b.mem|
    ensures Valid(Written(b, d)) && View(Written(b, d)) == View(b) + d
  {
  }

  lemma ReadFillsVector(rule: Rule, b: Store, d: bytes)
    requires Valid(b) && Writable(rule, b) <= |d| && b.writer + Writable(rule, b) <= |b.mem|
    ensures var f := Filled(rule, b, d);
            Valid(f) && b.writer + Writable(rule, b) == |b.mem| && View(f) == View(b) + d[..Writable(rule, b)]
  {
    assert View(Filled(rule, b, d)) == View(b) + d[..Writable(rule, b)];
  }

  /** The scatter read means append: old content, then exactly the bytes the kernel returned. */
  lemma ReadAppends(rule: Rule, b: Store, d: bytes)
    requires Valid(b) && ReadFits(rule, b, d)
    ensures Valid(AfterRead(rule, b, d)) && View(AfterRead(rule, b, d)) == View(b) + d
  {
    var w := Writable(rule, b);
    if |d| <= w {
      WrittenAppends(b, d);
    } else {
      ReadFillsVector(rule, b, d);
      AppendAppends(rule, Filled(rule, b, d), d[w..]);
      JoinSplit(View(b), d, w);
    }
  }

  lemma JoinSplit(q: bytes, d: bytes, w: nat)
    requires w <= |d|
    ensures (q + d[..w]) + d[w..] == q + d
  {
  }

  // ----- the two readings of writableBytes -----

  lemma ReadingsAgreeIff(b: Store)
    requires Valid(b)
    ensures Writable(AsCoded, b) == Writable(AsDocumented, b) <==> b.reader == b.writer
  {
  }

  /** Under the documented reading no operation leaves the vector. */
  lemma DocumentedFits(b: Store, len: nat)
    requires Valid(b)
    ensures Fits(AsDocumented, b, len)
  {
  }

  lemma DocumentedReadFits(b: Store, d: bytes)
    requires Valid(b)
    ensures ReadFits(AsDocumented, b, d)
  {
    var w := Writable(AsDocumented, b);
    if |d| > w {
      DocumentedFits(Filled(AsDocumented, b, d), |d| - w);
    }
  }

  /** Exactly when append is in bounds as coded: either no room is made and the bytes fit
      behind the write index, or the vector grows, or they fit after compaction. */
  lemma CodedFitsIff(b: Store, len: nat)
    requires Valid(b)
    ensures Fits(AsCoded, b, len) <==>
              if len <= |b.mem| - b.reader then b.writer + len <= |b.mem|
              else |b.mem| < len + PREPEND || PREPEND + (b.writer - b.reader) + len <= |b.mem|
  {
  }

  /** Exactly when readFd is in bounds as coded.  In particular it never is once the
      overflow block is used while unread bytes remain. */
  lemma CodedReadFitsIff(b: Store, d: bytes)
    requires Valid(b)
    ensures ReadFits(AsCoded, b, d) <==>
              var w := |b.mem| - b.reader;
              if |d| <= w then b.writer + |d| <= |b.mem|
              else b.reader == b.writer && |d| > 2 * w && (|b.mem| < |d| - w + PREPEND || PREPEND + |d| <= |b.mem|)
  {
    var w := Writable(AsCoded, b);
    if |d| > w && b.writer + w <= |b.mem| {
      CodedFitsIff(Filled(AsCoded, b, d), |d| - w);
    }
  }

  /** A default buffer that takes two messages of 600 bytes overruns its vector as coded. */
  lemma CodedOverrun(d: bytes)
    requires |d| == 600
    ensures Fits(AsCoded, New(INITIAL_SIZE), 600)
    ensures !Fits(AsCoded, Appended(AsCoded, New(INITIAL_SIZE), d), 600)
  {
    AppendAppends(AsCoded, New(INITIAL_SIZE), d);
  }

  // ----- whole histories over any number of buffers -----

  datatype Op = Put(d: bytes) | Take(n: nat) | Reserve(n: nat) | Shrink(reserve: nat) | Read(d: bytes)

  datatype Step = On(i: nat, op: Op) | Exchange(i: nat, j: nat)

  /** What an operation does to the byte queue. */
  function OnQueue(q: bytes, op: Op): bytes
    requires op.Take? ==> op.n <= |q|
  {
    match op
    case Put(d) => q + d
    case Take(n) => q[n..]
    case Reserve(_) => q
    case Shrink(_) => q
    case Read(d) => q + d
  }

  /** What it does to the vector; None if it writes outside. */
  function OnStore(rule: Rule, b: Store, op: Op): Option<Store>
    requires Valid(b) && (op.Take? ==> op.n <= |View(b)|)
  {
    match op
    case Put(d) => if Fits(rule, b, |d|) then Some(Appended(rule, b, d)) else None
    case Take(n) => Some(Retrieved(b, n))
    case Reserve(n) => Some(EnsureWritable(rule, b, n))
    case Shrink(reserve) => Some(Shrunk(rule, b, reserve))
    case Read(d) => if ReadFits(rule, b, d) then Some(AfterRead(rule, b, d)) else None
  }

  /** The caller's side of each step, on the queues: indices exist, retrieve's assert holds. */
  predicate Legal(qs: seq<bytes>, st: Step) {
    match st
    case On(i, op) => i < |qs| && (op.Take? ==> op.n <= |qs[i]|)
    case Exchange(i, j) => i < |qs| && j < |qs|
  }

  function StepQueues(qs: seq<bytes>, st: Step): (r: seq<bytes>)
    requires Legal(qs, st)
    ensures |r| == |qs|
  {
    match st
    case On(i, op) => qs[i := OnQueue(qs[i], op)]
    case Exchange(i, j) => qs[i := qs[j]][j := qs[i]]
  }

  predicate LegalRun(qs: seq<bytes>, steps: seq<Step>)
    decreases |steps|
  {
    steps == [] || (Legal(qs, steps[0]) && LegalRun(StepQueues(qs, steps[0]), steps[1..]))
  }

  function RunQueues(qs: seq<bytes>, steps: seq<Step>): seq<bytes>
    requires LegalRun(qs, steps)
    decreases |steps|
  {
    if steps == [] then qs else RunQueues(StepQueues(qs, steps[0]), steps[1..])
  }

  predicate AllValid(bs: seq<Store>) {
    forall k :: 0 <= k < |bs| ==> Valid(bs[k])
  }

  function Views(bs: seq<Store>): (qs: seq<bytes>)
    requires AllValid(bs)
    ensures |qs| == |bs| && forall k :: 0 <= k < |bs| ==> qs[k] == View(bs[k])
  {
    seq(|bs|, k requires 0 <= k < |bs| => View(bs[k]))
  }

  function StepStores(rule: Rule, bs: seq<Store>, st: Step): Option<seq<Store>>
    requires AllValid(bs) && Legal(Views(bs), st)
  {
    match st
    case On(i, op) =>
      (match OnStore(rule, bs[i], op)
       case None => None
       case Some(b) => Some(bs[i := b]))
    case Exchange(i, j) => Some(bs[i := bs[j]][j := bs[i]])
  }

  /** One step refines the queues and keeps every buffer valid. */
  lemma StepRefines(rule: Rule, bs: seq<Store>, st: Step)
    requires AllValid(bs) && Legal(Views(bs), st)
    ensures var r := StepStores(rule, bs, st);
            r.Some? ==> |r.value| == |bs| && AllValid(r.value) && Views(r.value) == StepQueues(Views(bs), st)
  {
    if st.On? {
      var b := bs[st.i];
      match st.op
      case Put(d) => if Fits(rule, b, |d|) { AppendAppends(rule, b, d); }
      case Take(n) => RetrieveTakes(b, n);
      case Reserve(n) => EnsureKeepsContent(rule, b, n);
      case Shrink(reserve) => ShrinkKeepsContent(rule, b, reserve);
      case Read(d) => if ReadFits(rule, b, d) { ReadAppends(rule, b, d); }
    }
  }

  function RunStores(rule: Rule, bs: seq<Store>, steps: seq<Step>): Option<seq<Store>>
    requires AllValid(bs) && LegalRun(Views(bs), steps)
    decreases |steps|
  {
    if steps == [] then Some(bs)
    else
      match StepStores(rule, bs, steps[0])
      case None => None
      case Some(r) =>
        StepRefines(rule, bs, steps[0]);
        RunStores(rule, r, steps[1..])
  }

  /** The largest readable-plus-requested length a run asks of any one buffer. */
  function Peak(qs: seq<bytes>, steps: seq<Step>): nat
    requires LegalRun(qs, steps)
    decreases |steps|
  {
    if steps == [] then 0
    else
      Max(Request(qs, steps[0]), Peak(StepQueues(qs, steps[0]), steps[1..]))
  }

  function Request(qs: seq<bytes>, st: Step): nat
    requires Legal(qs, st)
  {
    if st.Exchange? then 0
    else
      match st.op
      case Put(d) => |qs[st.i]| + |d|
      case Take(_) => 0
      case Reserve(n) => |qs[st.i]| + n
      case Shrink(reserve) => |qs[st.i]| + reserve
      case Read(d) => |qs[st.i]| + |d|
  }

  predicate Shrinks(steps: seq<Step>) {
    exists k :: 0 <= k < |steps| && steps[k].On? && steps[k].op.Shrink?
  }

  predicate AllWithin(bs: seq<Store>, limit: nat) {
    forall k :: 0 <= k < |bs| ==> |bs[k].mem| <= limit
  }

  /** Growth happens only when the space in front of the content is small, so a vector never
      exceeds twice the request plus the prepend area. */
  lemma GrowthBound(rule: Rule, b: Store, len: nat)
    requires Valid(b)
    ensures |EnsureWritable(rule, b, len).mem| <= Max(|b.mem|, 2 * (|View(b)| + len) + PREPEND)
  {
  }

  lemma StepBound(rule: Rule, bs: seq<Store>, st: Step, limit: nat)
    requires AllValid(bs) && Legal(Views(bs), st) && AllWithin(bs, limit)
    requires 2 * Request(Views(bs), st) + PREPEND <= limit
    requires st.On? && st.op.Shrink? ==> PREPEND + INITIAL_SIZE <= limit
    ensures var r := StepStores(rule, bs, st); r.Some? ==> AllWithin(r.value, limit)
  {
    if st.On? {
      var b := bs[st.i];
      match st.op
      case Put(d) => GrowthBound(rule, b, |d|);
      case Take(n) =>
      case Reserve(n) => GrowthBound(rule, b, n);
      case Shrink(reserve) => ShrinkKeepsContent(rule, b, reserve);
      case Read(d) => if ReadFits(rule, b, d) { ReadBound(rule, b, d); }
    }
  }

  lemma ReadBound(rule: Rule, b: Store, d: bytes)
    requires Valid(b) && ReadFits(rule, b, d)
    ensures |AfterRead(rule, b, d).mem| <= Max(|b.mem|, 2 * (|View(b)| + |d|) + PREPEND)
  {
    var w := Writable(rule, b);
    if |d| > w {
      ReadFillsVector(rule, b, d);
      GrowthBound(rule, Filled(rule, b, d), |d| - w);
    }
  }

  /** For every run that stays in bounds, under either reading: all buffers are valid, their
      readable bytes are the byte queues, and no vector exceeds the larger of its start and
      twice the peak request plus 8. */
  lemma {:induction false} HistoriesRefine(rule: Rule, bs: seq<Store>, steps: seq<Step>, limit: nat)
    requires AllValid(bs) && LegalRun(Views(bs), steps)
    requires AllWithin(bs, limit) && 2 * Peak(Views(bs), steps) + PREPEND <= limit
    requires Shrinks(steps) ==> PREPEND + INITIAL_SIZE <= limit
    ensures var r := RunStores(rule, bs, steps);
            r.Some? ==> AllValid(r.value) && Views(r.value) == RunQueues(Views(bs), steps) && AllWithin(r.value, limit)
    decreases |steps|
  {
    if steps != [] {
      var st, rest := steps[0], steps[1..];
      StepRefines(rule, bs, st);
      assert st.On? && st.op.Shrink? ==> Shrinks(steps);
      StepBound(rule, bs, st, limit);
      var r := StepStores(rule, bs, st);
      if r.Some? {
        assert Shrinks(rest) ==> Shrinks(steps) by {
          if Shrinks(rest) {
            var k :| 0 <= k < |rest| && rest[k].On? && rest[k].op.Shrink?;
            assert steps[k + 1] == rest[k];
          }
        }
        HistoriesRefine(rule, r.value, rest, limit);
      }
    }
  }

  /** Under the documented reading every legal run stays in bounds. */
  lemma {:induction false} DocumentedRunsComplete(bs: seq<Store>, steps: seq<Step>)
    requires AllValid(bs) && LegalRun(Views(bs), steps)
    ensures RunStores(AsDocumented, bs, steps).Some?
    decreases |steps|
  {
    if steps != [] {
      var st := steps[0];
      StepRefines(AsDocumented, bs, st);
      if st.On? {
        match st.op
        case Put(d) => DocumentedFits(bs[st.i], |d|);
        case Read(d) => DocumentedReadFits(bs[st.i], d);
        case _ =>
      }
      var r := StepStores(AsDocumented, bs, st);
      DocumentedRunsComplete(r.value, steps[1..]);
    }
  }

  // ----- the class -----

  class Buffer {
    const rule: Rule
    var data: array<byte>
    var readerIndex: nat
    var writerIndex: nat

    ghost predicate Ok()
      reads this
    {
      PREPEND <= readerIndex <= writerIndex <= data.Length
    }

    ghost function State(): Store
      reads this, data
    {
      Store(data[..], readerIndex, writerIndex)
    }

    constructor (rule: Rule, initialSize: nat := INITIAL_SIZE)
      ensures Ok() && fresh(data) && State() == New(initialSize) && this.rule == rule
    {
      this.rule := rule;
      data := new byte[PREPEND + initialSize](_ => 0);
      readerIndex, writerIndex := PREPEND, PREPEND;
      new;
      assert data[..] == Zeros(PREPEND + initialSize);
    }

    function ReadableBytes(): nat
      requires Ok()
      reads this
    {
      writerIndex - readerIndex
    }

    function WritableBytes(): (n: nat)
      requires Ok()
      reads this, data
      ensures n == Writable(rule, State())
    {
      data.Length - (if rule.AsCoded? then readerIndex else writerIndex)
    }

    /** vector::resize. */
    method Resize(n: nat)
      requires Ok() && n >= writerIndex
      modifies this`data
      ensures Ok() && fresh(data)
      ensures State() == old(State()).(mem := Resized(old(data[..]), n))
    {
      var old_ := data;
      var grown := new byte[n](_ => 0);
      var m := if n < old_.Length then n else old_.Length;
      for i := 0 to m
        invariant forall k :: 0 <= k < i ==> grown[k] == old_[k]
        invariant forall k :: i <= k < n ==> grown[k] == 0
        invariant old_[..] == old(data[..])
      {
        grown[i] := old_[i];
      }
      data := grown;
      assert data[..] == Resized(old(data[..]), n);
    }

    /** The forward std::copy onto an overlapping, lower range. */
    method MoveDown()
      requires Ok() && readerIndex > PREPEND
      modifies this`readerIndex, this`writerIndex, data
      ensures Ok() && State() == Compacted(old(State()))
    {
      var a, r, n := data, readerIndex, writerIndex - readerIndex;
      ghost var was := State();
      for i := 0 to n
        invariant forall k :: PREPEND <= k < PREPEND + i ==> a[k] == was.mem[k - PREPEND + r]
        invariant forall k :: 0 <= k < a.Length && !(PREPEND <= k < PREPEND + i) ==> a[k] == was.mem[k]
      {
        a[PREPEND + i] := a[r + i];
      }
      readerIndex, writerIndex := PREPEND, PREPEND + n;
      CompactedAt(was, a[..]);
    }

    method MakeSpace(len: nat)
      requires Ok() && WritableBytes() < len
      modifies this`data, this`readerIndex, this`writerIndex, data
      ensures Ok() && (data == old(data) || fresh(data))
      ensures State() == SpaceMade(rule, old(State()), len)
    {
      CompactsOnlyForward(rule, State(), len);
      if WritableBytes() + readerIndex < len + PREPEND {
        Resize(writerIndex + len);
      } else {
        MoveDown();
      }
    }

    method EnsureWritableBytes(len: nat)
      requires Ok()
      modifies this`data, this`readerIndex, this`writerIndex, data
      ensures Ok() && (data == old(data) || fresh(data))
      ensures State() == EnsureWritable(rule, old(State()), len) && View(State()) == View(old(State()))
    {
      EnsureKeepsContent(rule, State(), len);
      if WritableBytes() < len {
        MakeSpace(len);
      }
    }

    /** Copies `d` behind the content; `ok` is false where the copy would leave the vector. */
    method Append(d: bytes) returns (ok: bool)
      requires Ok()
      modifies this`data, this`readerIndex, this`writerIndex, data
      ensures Ok() && (data == old(data) || fresh(data))
      ensures ok == Fits(rule, old(State()), |d|)
      ensures ok ==> State() == Appended(rule, old(State()), d) && View(State()) == View(old(State())) + d
      ensures !ok ==> State() == EnsureWritable(rule, old(State()), |d|)
      ensures rule.AsDocumented? ==> ok
    {
      if rule.AsDocumented? {
        DocumentedFits(State(), |d|);
      }
      ghost var start := State();
      EnsureWritableBytes(|d|);
      ok := writerIndex + |d| <= data.Length;
      if ok {
        AppendAppends(rule, start, d);
        CopyIn(d);
      }
    }

    /** Copies `d` to the write index and advances it. */
    method CopyIn(d: bytes)
      requires Ok() && writerIndex + |d| <= data.Length
      modifies this`writerIndex, data
      ensures Ok() && State() == Written(old(State()), d)
    {
      ghost var was := data[..];
      for i := 0 to |d|
        invariant writerIndex == old(writerIndex) && data.Length == |was|
        invariant forall k :: 0 <= k < i ==> data[writerIndex + k] == d[k]
        invariant forall k :: 0 <= k < data.Length && !(writerIndex <= k < writerIndex + i) ==> data[k] == was[k]
      {
        data[writerIndex + i] := d[i];
      }
      writerIndex := writerIndex + |d|;
      assert data[..] == Written(old(State()), d).mem;
    }

    method Retrieve(len: nat)
      requires Ok() && len <= ReadableBytes()
      modifies this`readerIndex, this`writerIndex
      ensures Ok() && State() == Retrieved(old(State()), len) && View(State()) == View(old(State()))[len..]
      ensures |View(State())| == 0 ==> readerIndex == writerIndex == PREPEND
    {
      RetrieveTakes(State(), len);
      if len < ReadableBytes() {
        readerIndex := readerIndex + len;
      } else {
        readerIndex, writerIndex := PREPEND, PREPEND;
      }
    }

    method RetrieveAsString(len: nat) returns (s: bytes)
      requires Ok() && len <= ReadableBytes()
      modifies this`readerIndex, this`writerIndex
      ensures Ok() && s == View(old(State()))[..len] && View(State()) == View(old(State()))[len..]
      ensures State() == Retrieved(old(State()), len)
    {
      s := data[readerIndex..readerIndex + len];
      Retrieve(len);
    }

    method Swap(other: Buffer)
      requires Ok() && other.Ok() && other.rule == rule
      modifies this, other
      ensures Ok() && other.Ok() && data == old(other.data) && other.data == old(data)
      ensures State() == old(other.State()) && other.State() == old(State())
    {
      data, other.data := other.data, data;
      readerIndex, other.readerIndex := other.readerIndex, readerIndex;
      writerIndex, other.writerIndex := other.writerIndex, writerIndex;
    }

    method Shrink(reserve: nat)
      requires Ok()
      modifies this
      ensures Ok() && fresh(data)
      ensures State() == Shrunk(rule, old(State()), reserve) && View(State()) == View(old(State()))
    {
      ShrinkKeepsContent(rule, State(), reserve);
      ShrinkFits(rule, ReadableBytes(), reserve);
      var other := new Buffer(rule);
      other.EnsureWritableBytes(ReadableBytes() + reserve);
      var ok := other.Append(data[readerIndex..writerIndex]);
      Swap(other);
    }

    /** readFd when readv returned the bytes `d` (n == |d|, errors change nothing).  The
        kernel fills the tail first, the overflow block holds the rest. */
    method ReadFd(d: bytes) returns (ok: bool)
      requires Ok() && |d| <= ReadLimit(rule, State())
      modifies this`data, this`readerIndex, this`writerIndex, data
      ensures Ok() && (data == old(data) || fresh(data))
      ensures ok == ReadFits(rule, old(State()), d)
      ensures ok ==> State() == AfterRead(rule, old(State()), d) && View(State()) == View(old(State())) + d
      ensures rule.AsDocumented? ==> ok
    {
      if rule.AsDocumented? {
        DocumentedReadFits(State(), d);
      }
      ghost var start := State();
      var writable := WritableBytes();
      if |d| <= writable {
        ok := writerIndex + |d| <= data.Length;
        if ok {
          WrittenAppends(start, d);
          CopyIn(d);
        }
      } else {
        ok := writerIndex + writable <= data.Length;
        if ok {
          ReadFillsVector(rule, start, d);
          CopyIn(d[..writable]);
          writerIndex := data.Length;
          ghost var full := State();
          assert full == Filled(rule, start, d);
          ok := Append(d[writable..]);
          JoinSplit(View(start), d, writable);
          assert ok ==> State() == Appended(rule, full, d[writable..]);
        }
      }
    }
  }
}
