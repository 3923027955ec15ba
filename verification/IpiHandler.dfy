/**
 The interrupt side of libdune/ipi_call.c: enqueueing and collecting messages, the
 handler's buffers and dispatch, and the batched TLB flush that
 libdune/fast_spawn.c registers for it.
 */
module IpiHandler {
  import opened Options

  const RING_SIZE := 4
  const MAX_CPUS := 128
  const SLOTS := RING_SIZE * MAX_CPUS

  /** func and arg stand for the two pointers. */
  datatype Message = Message(func: int, batchable: bool, arg: int)

  function Window(b: seq<Message>, h: int, t: int): (w: seq<Message>)
    requires |b| == RING_SIZE && 0 <= h <= t
    ensures |w| == t - h
  {
    seq(t - h, i requires 0 <= i < t - h => b[(h + i) % RING_SIZE])
  }

  class Ring {
    var head: int
    var tail: int
    const buf: array<Message>

    ghost predicate Valid()
      reads this
    {
      buf.Length == RING_SIZE && 0 <= head <= tail <= head + RING_SIZE
    }

    ghost function Contents(): (q: seq<Message>)
      requires Valid()
      reads this, buf
      ensures |q| == tail - head <= RING_SIZE
    {
      Window(buf[..], head, tail)
    }

    /** dune_queue_ipi_call_fast: the message's number, or None when the ring is full. */
    method Enqueue(msg: Message) returns (num: Option<int>)
      requires Valid()
      modifies this`tail, buf
      ensures Valid()
      ensures num.None? <==> |old(Contents())| == RING_SIZE
      ensures num.None? ==> Contents() == old(Contents())
      ensures num.Some? ==> num.value == old(tail) && Contents() == old(Contents()) + [msg]
    {
      if tail - head >= RING_SIZE {
        return None;
      }
      buf[tail % RING_SIZE] := msg;
      num := Some(tail);
      tail := tail + 1;
    }

    /** dune_collect_ipi_messages: the ring's messages go to out, from index at on. */
    method Collect(out: array<Message>, at: nat) returns (n: nat)
      requires Valid() && out != buf && at + |Contents()| <= out.Length
      modifies this`head, out
      ensures Valid() && Contents() == []
      ensures n == |old(Contents())| && at + n <= out.Length
      ensures out[..at + n] == old(out[..at]) + old(Contents())
    {
      if head == tail {
        assert out[..at] == out[..at] + Contents();
        return 0;
      }
      n := tail - head;
      for i := 0 to n
        invariant head == old(head) && tail == old(tail) && buf[..] == old(buf[..])
        invariant out[..at] == old(out[..at])
        invariant forall j :: 0 <= j < i ==> out[at + j] == old(Contents())[j]
      {
        out[at + i] := buf[(head + i) % RING_SIZE];
      }
      head := head + n;
      assert out[at..at + n] == old(Contents());
      assert out[..at + n] == out[..at] + out[at..at + n];
    }
  }

  // ---- Collecting every ring ----

  ghost predicate Separate(rings: seq<Ring>) {
    forall i, j :: 0 <= i < j < |rings| ==> rings[i] != rings[j]
  }

  /** qs are the contents of the rings, ring by ring. */
  ghost predicate Hold(rings: seq<Ring>, qs: seq<seq<Message>>)
    reads rings, set i | 0 <= i < |rings| :: rings[i].buf
  {
    |qs| == |rings| && forall i :: 0 <= i < |rings| ==> rings[i].Valid() && rings[i].Contents() == qs[i]
  }

  /** One queue after the other. */
  ghost function Concat(qs: seq<seq<Message>>): seq<Message> {
    if qs == [] then [] else Concat(qs[..|qs| - 1]) + qs[|qs| - 1]
  }

  lemma ConcatStep(qs: seq<seq<Message>>, i: nat, done: seq<Message>, more: seq<Message>)
    requires i < |qs| && done == Concat(qs[..i]) && more == qs[i]
    ensures done + more == Concat(qs[..i + 1])
  {
    assert qs[..i + 1][..i] == qs[..i];
  }

  /** The handler's first loop: every message of every ring, never more than the buffer holds. */
  method CollectAll(rings: seq<Ring>, out: array<Message>, ghost qs: seq<seq<Message>>) returns (n: nat)
    requires |rings| == MAX_CPUS && Separate(rings) && Hold(rings, qs)
    requires out.Length == SLOTS && forall i :: 0 <= i < |rings| ==> rings[i].buf != out
    modifies rings, out
    ensures forall i :: 0 <= i < |rings| ==> rings[i].Valid() && rings[i].Contents() == []
    ensures n <= SLOTS && out[..n] == Concat(qs)
  {
    n := 0;
    for i := 0 to MAX_CPUS
      invariant forall j :: 0 <= j < |rings| ==>
            rings[j].Valid() && rings[j].Contents() == if j < i then [] else qs[j]
      invariant n <= RING_SIZE * i && out[..n] == Concat(qs[..i])
    {
      ConcatStep(qs, i, out[..n], qs[i]);
      var m := rings[i].Collect(out, n);
      n := n + m;
    }
    assert qs[..MAX_CPUS] == qs;
  }

  // ---- Splitting and dispatching ----

  function Select(ms: seq<Message>, batchable: bool): (q: seq<Message>)
    ensures |q| <= |ms|
  {
    if ms == [] then []
    else
      var m := ms[|ms| - 1];
      Select(ms[..|ms| - 1], batchable) + if m.batchable == batchable then [m] else []
  }

  /** The handler's second loop. */
  method Split(buf: array<Message>, n: nat, batch: array<Message>, single: array<Message>) returns (nb: nat, ns: nat)
    requires buf.Length == batch.Length == single.Length && n <= buf.Length
    requires buf != batch && buf != single && batch != single
    modifies batch, single
    ensures nb <= n && batch[..nb] == Select(buf[..n], true)
    ensures ns <= n && single[..ns] == Select(buf[..n], false)
  {
    nb, ns := 0, 0;
    for i := 0 to n
      invariant nb + ns == i && buf[..] == old(buf[..])
      invariant batch[..nb] == Select(buf[..i], true)
      invariant single[..ns] == Select(buf[..i], false)
    {
      assert buf[..i + 1][..i] == buf[..i];
      if buf[i].batchable {
        batch[nb] := buf[i];
        nb := nb + 1;
      } else {
        single[ns] := buf[i];
        ns := ns + 1;
      }
    }
  }

  /** A call that the handler makes: one message's function, or the batch function. */
  datatype Call = One(m: Message) | Batch(ms: seq<Message>)

  class Calls {
    var made: seq<Call>

    constructor ()
      ensures made == []
    {
      made := [];
    }
  }

  function Singles(ms: seq<Message>): (cs: seq<Call>)
    ensures |cs| == |ms|
  {
    seq(|ms|, i requires 0 <= i < |ms| => One(ms[i]))
  }

  /** What one pass of the handler calls for the messages ms. */
  function Dispatch(ms: seq<Message>): seq<Call> {
    Singles(Select(ms, false)) + if Select(ms, true) == [] then [] else [Batch(Select(ms, true))]
  }

  /** The handler's third loop and the batch call. */
  method CallAll(single: array<Message>, ns: nat, batch: array<Message>, nb: nat, calls: Calls,
      ghost ms: seq<Message>)
    requires ns <= single.Length && single[..ns] == Select(ms, false)
    requires nb <= batch.Length && batch[..nb] == Select(ms, true)
    modifies calls
    ensures calls.made == old(calls.made) + Dispatch(ms)
  {
    for i := 0 to ns
      invariant calls.made == old(calls.made) + Singles(Select(ms, false))[..i]
    {
      assert single[i] == single[..ns][i];
      calls.made := calls.made + [One(single[i])];
    }
    if nb > 0 {
      calls.made := calls.made + [Batch(batch[..nb])];
    }
  }

  /** One of the handler's two passes. */
  method Pass(rings: seq<Ring>, calls: Calls, ghost qs: seq<seq<Message>>)
    requires |rings| == MAX_CPUS && Separate(rings) && Hold(rings, qs)
    modifies rings, calls
    ensures forall i :: 0 <= i < |rings| ==> rings[i].Valid() && rings[i].Contents() == []
    ensures calls.made == old(calls.made) + Dispatch(Concat(qs))
  {
    var buf, batch, single := new Message[SLOTS], new Message[SLOTS], new Message[SLOTS];
    var n := CollectAll(rings, buf, qs);
    var nb, ns := Split(buf, n, batch, single);
    CallAll(single, ns, batch, nb, calls, Concat(qs));
  }

  /** The messages that a list of calls hands over. */
  function Handed(cs: seq<Call>): multiset<Message> {
    if cs == [] then multiset{}
    else
      var c := cs[|cs| - 1];
      Handed(cs[..|cs| - 1]) + if c.One? then multiset{c.m} else multiset(c.ms)
  }

  lemma Snoc(q: seq<Message>, m: Message)
    ensures multiset(q + [m]) == multiset(q) + multiset{m}
  {}

  lemma AddEither(a: multiset<Message>, b: multiset<Message>, c: multiset<Message>, x: multiset<Message>)
    requires a + b == c
    ensures (a + x) + b == c + x && a + (b + x) == c + x
  {}

  lemma {:induction false} SelectAll(ms: seq<Message>)
    ensures multiset(Select(ms, false)) + multiset(Select(ms, true)) == multiset(ms)
  {
    if ms != [] {
      var q, m := ms[..|ms| - 1], ms[|ms| - 1];
      SelectAll(q);
      SelectStep(q, m);
      assert ms == q + [m];
      Snoc(q, m);
      Snoc(Select(q, m.batchable), m);
      AddEither(multiset(Select(q, false)), multiset(Select(q, true)), multiset(q), multiset{m});
    }
  }

  lemma SelectStep(ms: seq<Message>, m: Message)
    ensures Select(ms + [m], m.batchable) == Select(ms, m.batchable) + [m]
    ensures Select(ms + [m], !m.batchable) == Select(ms, !m.batchable)
  {
    assert (ms + [m])[..|ms|] == ms;
  }

  lemma {:induction false} HandedSingles(ms: seq<Message>)
    ensures Handed(Singles(ms)) == multiset(ms)
  {
    if ms != [] {
      var k := |ms| - 1;
      HandedSingles(ms[..k]);
      assert Singles(ms)[..k] == Singles(ms[..k]);
      assert ms == ms[..k] + [ms[k]];
    }
  }

  /** Each collected message is handed to exactly one call, exactly once. */
  lemma DispatchesOnce(ms: seq<Message>)
    ensures Handed(Dispatch(ms)) == multiset(ms)
  {
    SelectAll(ms);
    HandedSingles(Select(ms, false));
    var cs := Dispatch(ms);
    if Select(ms, true) != [] { assert cs[..|cs| - 1] == Singles(Select(ms, false)); }
    else { assert cs == Singles(Select(ms, false)); }
  }

  // ---- The batched flush ----

  /** An argument block of a flush message. */
  datatype Block = Block(addr: int, ready: bool, flushed: bool)

  class Tlb {
    var pages: set<int>

    method FlushOne(a: int)
      modifies this
      ensures pages == old(pages) - {a}
    {
      pages := pages - {a};
    }
  }

  /** Every argument points into the blocks, and so does the block i further on that line 730 reads. */
  predicate Points(ms: seq<Message>, blocks: seq<Block>) {
    forall i :: 0 <= i < |ms| ==> 0 <= ms[i].arg && ms[i].arg + i < |blocks| && blocks[ms[i].arg].ready
  }

  /** The page that line 730 reads for message i. */
  function PageRead(ms: seq<Message>, blocks: seq<Block>, i: int): int
    requires Points(ms, blocks) && 0 <= i < |ms|
  {
    blocks[ms[i].arg + i].addr
  }

  function PagesRead(ms: seq<Message>, blocks: seq<Block>): set<int>
    requires Points(ms, blocks)
  {
    set i | 0 <= i < |ms| :: PageRead(ms, blocks, i)
  }

  predicate Acknowledged(ms: seq<Message>, p: int) { exists i :: 0 <= i < |ms| && ms[i].arg == p }

  /** snapshot_worker_tlb_flush_batch, without pipelining: acknowledge all, then flush all. */
  method FlushBatch(ms: seq<Message>, mem: array<Block>, tlb: Tlb)
    requires |ms| <= SLOTS && Points(ms, mem[..])
    modifies mem, tlb
    ensures forall p :: 0 <= p < mem.Length ==>
                          mem[p] == if Acknowledged(ms, p) then old(mem[p]).(flushed := true) else old(mem[p])
    ensures tlb.pages == old(tlb.pages) - PagesRead(ms, old(mem[..]))
  {
    ghost var blocks := mem[..];
    var addrs := new int[SLOTS];
    for i := 0 to |ms|
      invariant forall p :: 0 <= p < mem.Length ==>
                              mem[p] == if Acknowledged(ms[..i], p) then blocks[p].(flushed := true) else blocks[p]
      invariant forall j :: 0 <= j < i ==> addrs[j] == PageRead(ms, blocks, j)
      invariant tlb.pages == old(tlb.pages)
    {
      var arg := ms[i].arg;
      addrs[i] := mem[arg + i].addr;
      assert mem[arg].ready;
      mem[arg] := mem[arg].(flushed := true);
      forall p | 0 <= p < mem.Length
        ensures Acknowledged(ms[..i + 1], p) <==> Acknowledged(ms[..i], p) || p == arg
      {
        if Acknowledged(ms[..i], p) { var j :| 0 <= j < i && ms[..i][j].arg == p; assert ms[..i + 1][j].arg == p; }
        if p == arg { assert ms[..i + 1][i].arg == p; }
      }
    }
    assert ms[..|ms|] == ms;
    for i := 0 to |ms|
      invariant forall p :: 0 <= p < mem.Length ==>
                              mem[p] == if Acknowledged(ms, p) then blocks[p].(flushed := true) else blocks[p]
      invariant forall j :: 0 <= j < |ms| ==> addrs[j] == PageRead(ms, blocks, j)
      invariant tlb.pages == old(tlb.pages) - set j | 0 <= j < i :: PageRead(ms, blocks, j)
    {
      tlb.FlushOne(addrs[i]);
    }
  }

  /** Whatever the TLB held, no page whose flush was acknowledged is left in it. */
  ghost predicate KeepsPromise(ms: seq<Message>, blocks: seq<Block>)
    requires Points(ms, blocks)
  {
    forall tlb: set<int>, i :: 0 <= i < |ms| ==> blocks[ms[i].arg].addr !in tlb - PagesRead(ms, blocks)
  }

  // ---- Where the blocks lie ----

  /** A working page holds this many blocks; the flush message of a core points to the first block of that core's
      page. */
  const PER_PAGE := 256

  predicate AtPageStart(ms: seq<Message>) { forall i :: 0 <= i < |ms| ==> ms[i].arg % PER_PAGE == 0 }

  /** The page that message i asks to flush. */
  function Asked(ms: seq<Message>, blocks: seq<Block>, i: int): int
    requires Points(ms, blocks) && 0 <= i < |ms|
  {
    blocks[ms[i].arg].addr
  }

  /** Message i asks for the page of message 0, or for a value that line 730 happens to read for a later message. */
  predicate Lucky(ms: seq<Message>, blocks: seq<Block>, i: int)
    requires Points(ms, blocks) && 0 <= i < |ms|
  {
    || Asked(ms, blocks, i) == Asked(ms, blocks, 0)
    || exists j :: 1 <= j < |ms| && PageRead(ms, blocks, j) == Asked(ms, blocks, i)
  }

  lemma ReadIs(ms: seq<Message>, blocks: seq<Block>, a: int)
    requires Points(ms, blocks)
    ensures a in PagesRead(ms, blocks) <==> exists j :: 0 <= j < |ms| && PageRead(ms, blocks, j) == a
  {}

  lemma LuckyIsRead(ms: seq<Message>, blocks: seq<Block>, i: int)
    requires Points(ms, blocks) && 0 <= i < |ms|
    ensures Lucky(ms, blocks, i) <==> Asked(ms, blocks, i) in PagesRead(ms, blocks)
  {
    ReadIs(ms, blocks, Asked(ms, blocks, i));
    assert PageRead(ms, blocks, 0) == Asked(ms, blocks, 0);
  }

  /** Because line 730 reads block i past message i's own, the batch keeps its promise to every TLB if and only if
      each message after the first is lucky. */
  lemma BatchExact(ms: seq<Message>, blocks: seq<Block>)
    requires Points(ms, blocks)
    ensures KeepsPromise(ms, blocks) <==> forall i :: 1 <= i < |ms| ==> Lucky(ms, blocks, i)
  {
    forall i | 0 <= i < |ms| ensures Lucky(ms, blocks, i) <==>
        Asked(ms, blocks, i) in PagesRead(ms, blocks) { LuckyIsRead(ms, blocks, i); }
    if KeepsPromise(ms, blocks) {
      forall i | 1 <= i < |ms| ensures Lucky(ms, blocks, i) {
        var a := Asked(ms, blocks, i);
        assert a !in {a} - PagesRead(ms, blocks);
      }
    }
    if forall i :: 1 <= i < |ms| ==> Lucky(ms, blocks, i) {
      forall i | 0 <= i < |ms| ensures blocks[ms[i].arg].addr in PagesRead(ms,
          blocks) { assert Lucky(ms, blocks, i); }
      assert KeepsPromise(ms, blocks);
    }
  }

  /** What lies behind a core's own block is never another core's, so what is read there is no page that anyone
      asked for. */
  lemma StraysAreUnowned(ms: seq<Message>, blocks: seq<Block>, j: int)
    requires Points(ms, blocks) && AtPageStart(ms) && |ms| <= PER_PAGE && 1 <= j < |ms|
    ensures (ms[j].arg + j) % PER_PAGE == j && forall i :: 0 <= i < |ms| ==> ms[j].arg + j != ms[i].arg
  {}

  /** Nothing behind the blocks that flush messages use is a page that a message asks for. The working pages start
      out as zeros; branch-off stores page-table roots there. */
  predicate NoneBehind(ms: seq<Message>, blocks: seq<Block>)
    requires Points(ms, blocks)
  {
    forall p, i :: 0 <= p < |blocks| && p % PER_PAGE != 0 && 0 <= i < |ms| ==> blocks[p].addr != Asked(ms, blocks, i)
  }

  /** Then a batch keeps its promise if and only if all its messages ask for the same page. */
  lemma BatchAlike(ms: seq<Message>, blocks: seq<Block>)
    requires Points(ms, blocks) && AtPageStart(ms) && |ms| <= PER_PAGE && NoneBehind(ms, blocks)
    ensures KeepsPromise(ms, blocks) <==> forall i :: 1 <= i < |ms| ==> Asked(ms, blocks, i) == Asked(ms, blocks, 0)
  {
    BatchExact(ms, blocks);
    forall i | 1 <= i < |ms| ensures Lucky(ms, blocks, i) <==> Asked(ms, blocks, i) == Asked(ms, blocks, 0) {
      forall j | 1 <= j < |ms| ensures PageRead(ms, blocks, j) != Asked(ms, blocks, i) {
        StraysAreUnowned(ms, blocks, j);
        assert blocks[ms[j].arg + j].addr != Asked(ms, blocks, i);
      }
    }
  }

  /** A batch of one always keeps its promise. */
  lemma BatchOfOne(ms: seq<Message>, blocks: seq<Block>)
    requires Points(ms, blocks) && |ms| == 1
    ensures KeepsPromise(ms, blocks)
  {
    BatchExact(ms, blocks);
  }

  /** Messages of cores 0 and 1 for different pages break the promise, unless the second block of core 1's page
      happens to hold the second page. */
  lemma BatchOfTwoFails(blocks: seq<Block>)
    requires |blocks| > PER_PAGE + 1 && blocks[0].ready && blocks[PER_PAGE].ready
    requires blocks[PER_PAGE].addr != blocks[0].addr && blocks[PER_PAGE].addr != blocks[PER_PAGE + 1].addr
    ensures var ms := [Message(0, true, 0), Message(0, true, PER_PAGE)];
            Points(ms, blocks) && AtPageStart(ms) && !KeepsPromise(ms, blocks)
  {
    var ms := [Message(0, true, 0), Message(0, true, PER_PAGE)];
    assert !Lucky(ms, blocks, 1);
    BatchExact(ms, blocks);
  }
}
