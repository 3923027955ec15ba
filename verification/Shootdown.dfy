/**
 dbos_tlb_shootdown (libdune/fast_spawn.c) against one target core: any number of
 requesters, the target's entry and exit path, its interrupt handler with
 the batched flush, and its TLB, as atomic steps that interleave freely.
 */
module Shootdown {
  import opened PvFlag

  type Id = int // one call of dbos_tlb_shootdown, with its own argument block
  type Addr = int // number of a virtual page

  const RINGS := 128
  const RING_SIZE := 4

  /** The value of the 32-bit full_flush_count. */
  function U32(n: int): int { n % 0x1_0000_0000 }

  /** How a call returned. Reread(host) is the loop of lines 181-184; host says whether
      the word it accepted had the host bit. */
  datatype Path = HostFlag | Kicked | Reread(host: bool) | Acked | WaitBreak

  datatype Stage =
    | Entered | FirstCas | Enqueue | Measured | Full | Counting | KickCas | KickReload | KickWait
    | Loop | Reload | Waiting | WaitCas | Done(path: Path)

  /** A call: its source core and page, the page-table update that came before it
      (ver), and its locals. base is history: the flush count that since was read from. */
  datatype Req = Req(src: int, addr: Addr, ver: int, at: Stage, seen: Word, len: int, since: int, base: int,
      flushed: bool)

  /** dune_ipi_interrupt_handler on the target: collecting ring after ring, acknowledging the batch
      while it reads one page for each message, invalidating the pages read; twice over. */
  datatype Hand =
    | Away
    | Collect(phase: int, ring: int, batch: seq<Id>)
    | Ack(phase: int, batch: seq<Id>, read: seq<Addr>)
    | Inval(phase: int, read: seq<Addr>, i: int)

  /** A batch, and the pages that were read for it. */
  datatype Batch = Batch(ids: seq<Id>, read: seq<Addr>)

  /** ver counts the updates of each page's entry; tlb gives, for each page the target
      may translate, the oldest version that its TLB or a walk in flight holds. acked is history:
      the batch with which each call was acknowledged. */
  datatype State = State(core: Core, hand: Hand, tlb: map<Addr, int>, ver: map<Addr, int>,
                         rings: map<int, seq<Id>>, rq: map<Id, Req>, acked: map<Id, Batch>)

  datatype Call =
    | Look | FirstHit | FirstMiss | Measure | Push | IsFull | FullLook
    | ReadCount | KickHit | KickMiss | KickLook | SeeCount
    | LoopAccept | LoopHit | LoopMiss | LoopLook | SeeFlushed | WaitLook | WaitHit | WaitMiss

  datatype Step =
    | Target(m: Move) // entry, exit and CR3 requests
    | Begin(r: Id, src: int, a: Addr) // the update of the page's entry, then the call
    | Caller(r: Id, call: Call)
    // line 730 reads, for message i of a batch, the block i past the message's own: its own page for i = 0,
    // and a, whatever that block holds, for the others
    | Interrupt | CollectRing | CollectEnd | AckOne(a: Addr) | AckEnd | InvalOne | InvalEnd
    | Fill(a: Addr) | Evict(a: Addr)

  predicate Stale(s: State, q: Req) { q.addr in s.tlb && s.tlb[q.addr] < q.ver }

  /** The target executes the snapshot thread. */
  predicate Running(s: State) { s.core.at.Inside? && s.hand.Away? }

  function SetReq(s: State, r: Id, q: Req): State { s.(rq := s.rq[r := q]) }

  // ---- The calls ----

  predicate CanCall(s: State, r: Id, call: Call) {
    && r in s.rq
    && var q := s.rq[r];
    match call
    case Look => q.at.Entered?
    case FirstHit => q.at.FirstCas? && s.core.word == q.seen
    case FirstMiss => q.at.FirstCas? && s.core.word != q.seen
    case Measure => q.at.Enqueue? && q.src in s.rings
    case Push => q.at.Measured? && q.len < RING_SIZE && q.src in s.rings
    case IsFull => q.at.Measured? && q.len >= RING_SIZE
    case FullLook => q.at.Full?
    case ReadCount => q.at.Counting?
    case KickHit => q.at.KickCas? && s.core.word == q.seen
    case KickMiss => q.at.KickCas? && s.core.word != q.seen
    case KickLook => q.at.KickReload?
    case SeeCount => q.at.KickWait? && U32(s.core.total) != q.since
    case LoopAccept => q.at.Loop? && q.seen.flush
    case LoopHit => q.at.Loop? && !q.seen.flush && s.core.word == q.seen
    case LoopMiss => q.at.Loop? && !q.seen.flush && s.core.word != q.seen
    case LoopLook => q.at.Reload?
    case SeeFlushed => q.at.Waiting? && q.flushed
    case WaitLook => q.at.Waiting?
    case WaitHit => q.at.WaitCas? && s.core.word == q.seen
    case WaitMiss => q.at.WaitCas? && s.core.word != q.seen
  }

  predicate Hits(call: Call) { call.FirstHit? || call.KickHit? || call.LoopHit? || call.WaitHit? }

  /** The caller's own next state. */
  function Next(s: State, q: Req, call: Call): Req
    requires call.Measure? ==> q.src in s.rings
  {
    var w := s.core.word;
    match call
    case Look => q.(seen := w, at := if w.host && w.flush then Done(HostFlag) else if w.host then FirstCas
        else Enqueue)
    case FirstHit => q.(at := Done(HostFlag))
    case FirstMiss => q.(at := Enqueue)
    case Measure => q.(at := Measured, len := |s.rings[q.src]|)
    case Push => q.(at := Waiting)
    case IsFull => q.(at := Full)
    case FullLook => q.(seen := w, at := if w.host then Loop else Counting)
    case ReadCount => q.(at := KickCas, since := U32(s.core.total), base := s.core.total)
    case KickHit => q.(at := KickWait)
    case KickMiss => q.(at := KickReload)
    case KickLook => q.(at := KickCas, seen := w)
    case SeeCount => q.(at := Done(Kicked))
    case LoopAccept => q.(at := Done(Reread(q.seen.host)))
    case LoopHit => q.(at := Done(Reread(q.seen.host)))
    case LoopMiss => q.(at := Reload)
    case LoopLook => q.(at := Loop, seen := w)
    case SeeFlushed => q.(at := Done(Acked))
    case WaitLook => q.(seen := w, at := if w.host && w.flush then Done(WaitBreak) else if w.host then WaitCas
        else Waiting)
    case WaitHit => q.(at := Done(WaitBreak))
    case WaitMiss => q.(at := Waiting)
  }

  function DoCall(s: State, r: Id, call: Call): State
    requires CanCall(s, r, call)
  {
    var q := s.rq[r];
    s.(rq := s.rq[r := Next(s, q, call)],
       core := if Hits(call) then Do(s.core, Flush(q.seen)) else s.core,
       rings := if call.Push? then s.rings[q.src := s.rings[q.src] + [r]] else s.rings)
  }

  // ---- The machine ----

  /** The calls that core src made have returned. */
  predicate NotCalling(s: State, src: int) { forall r <- s.rq :: s.rq[r].src == src ==> s.rq[r].at.Done? }

  predicate CanAck(s: State, a: Addr) {
    && s.hand.Ack? && |s.hand.read| < |s.hand.batch|
    && var r := s.hand.batch[|s.hand.read|];
    r in s.rq && (s.hand.read == [] ==> a == s.rq[r].addr)
  }

  predicate Enabled(s: State, t: Step) {
    match t
    case Target(m) => !m.Flush? && Can(s.core, m)
    case Begin(r, src, a) => r !in s.rq && a in s.ver && src in s.rings && NotCalling(s, src)
    case Caller(r, call) => CanCall(s, r, call)
    case Interrupt => Running(s)
    case CollectRing => s.core.at.Inside? && s.hand.Collect? && s.hand.ring < RINGS && s.hand.ring in s.rings
    case CollectEnd => s.core.at.Inside? && s.hand.Collect? && s.hand.ring == RINGS
    case AckOne(a) => s.core.at.Inside? && CanAck(s, a)
    case AckEnd => s.core.at.Inside? && s.hand.Ack? && |s.hand.read| == |s.hand.batch|
    case InvalOne => s.core.at.Inside? && s.hand.Inval? && 0 <= s.hand.i < |s.hand.read|
    case InvalEnd => s.core.at.Inside? && s.hand.Inval? && s.hand.i == |s.hand.read|
    case Fill(a) => s.core.at.Inside? && a in s.ver && a !in s.tlb
    case Evict(a) => a in s.tlb
  }

  function Exec(s: State, t: Step): State
    requires Enabled(s, t)
  {
    match t
    case Target(m) => s.(core := Do(s.core, m), tlb := if m.Sync? then map[] else s.tlb)
    case Begin(r, src, a) =>
      s.(ver := s.ver[a := s.ver[a] + 1],
         rq := s.rq[r := Req(src, a, s.ver[a] + 1, Entered, ZERO, 0, 0, 0, false)])
    case Caller(r, call) => DoCall(s, r, call)
    case Interrupt => s.(hand := Collect(1, 0, []))
    case CollectRing =>
      s.(hand := Collect(s.hand.phase, s.hand.ring + 1, s.hand.batch + s.rings[s.hand.ring]),
         rings := s.rings[s.hand.ring := []])
    case CollectEnd => s.(hand := Ack(s.hand.phase, s.hand.batch, []))
    case AckOne(a) =>
      var r := s.hand.batch[|s.hand.read|];
      SetReq(s, r, s.rq[r].(flushed := true)).(hand := Ack(s.hand.phase, s.hand.batch, s.hand.read + [a]))
    case AckEnd =>
      s.(hand := Inval(s.hand.phase, s.hand.read, 0),
         acked := s.acked + map r | r in s.hand.batch :: Batch(s.hand.batch, s.hand.read))
    case InvalOne => s.(hand := Inval(s.hand.phase, s.hand.read, s.hand.i + 1),
        tlb := s.tlb - {s.hand.read[s.hand.i]})
    case InvalEnd => s.(hand := if s.hand.phase == 1 then Collect(2, 0, []) else Away)
    case Fill(a) => s.(tlb := s.tlb[a := s.ver[a]])
    case Evict(a) => s.(tlb := s.tlb - {a})
  }

  predicate Init(s: State) {
    && Initial(s.core) && s.hand.Away? && s.tlb == map[] && s.rq == map[] && s.acked == map[]
    && (forall i :: 0 <= i < RINGS ==> i in s.rings) && (forall i <- s.rings :: s.rings[i] == [])
  }

  // ---- The invariant ----

  /** A full flush lies between the target and its next guest instruction. */
  predicate Ahead(c: Core) {
    match c.at
    case Out => c.word.flush
    case Tested => c.word.flush
    case Leaving => c.word.flush
    case Leave(_) => c.word.flush
    case Taken(w) => w.flush
    case Counted(_) => true
    case _ => false
  }

  /** The handler in progress will still invalidate page a. */
  predicate InHand(h: Hand, a: Addr) {
    (h.Ack? && a in h.read) || (h.Inval? && exists j :: 0 <= h.i <= j < |h.read| && h.read[j] == a)
  }

  /** Call r was acknowledged with a batch for none of whose messages its page was read. */
  predicate Missed(s: State, r: Id) { r in s.rq && r in s.acked && s.rq[r].addr !in s.acked[r].read }

  /** A flush lies ahead, or will be asked for at the next entry. */
  predicate Sure(s: State, r: Id) { r in s.rq && (Stale(s, s.rq[r]) ==> Ahead(s.core)) }

  predicate Weak(s: State, r: Id) { r in s.rq && (Stale(s, s.rq[r]) ==> s.core.word.flush || Ahead(s.core)) }

  predicate Acks(s: State, r: Id) {
    && r in s.rq
    && (Stale(s, s.rq[r]) ==> InHand(s.hand, s.rq[r].addr) || (s.hand.Ack? && r in s.hand.batch) || Missed(s, r))
  }

  predicate ReqOk(s: State, r: Id) {
    && r in s.rq
    && var q := s.rq[r];
    && q.addr in s.ver && q.ver <= s.ver[q.addr]
    && (q.at.FirstCas? || q.at.WaitCas? ==> q.seen.host)
    && (q.flushed ==> Acks(s, r)) && (q.at == Done(Acked) ==> q.flushed)
    && (q.at.KickCas? || q.at.KickReload? || q.at.KickWait? ==>
          q.since == U32(q.base) && q.base <= s.core.total
              && (q.base < s.core.total && Stale(s, q) ==> s.core.at.Counted?))
    && (q.at.Loop? && q.seen.flush ==> if q.seen.host then Sure(s, r) else Weak(s, r))
    && (q.at.Done? && q.at.path != Acked ==> if q.at.path == Reread(false) then Weak(s, r) else Sure(s, r))
  }

  predicate TlbOk(s: State) { forall a <- s.tlb :: a in s.ver && s.tlb[a] <= s.ver[a] }

  /** The first message of a batch has its own page read for it. */
  predicate ReadOk(s: State, b: Batch) {
    |b.read| > 0 ==> |b.ids| >= |b.read| && b.ids[0] in s.rq && b.read[0] == s.rq[b.ids[0]].addr
  }

  predicate HandOk(s: State) {
    match s.hand
    case Away => true
    case Collect(_, ring, batch) => 0 <= ring <= RINGS && Known(s, batch)
    case Ack(_, batch, read) => |read| <= |batch| && Known(s, batch) && ReadOk(s, Batch(batch, read))
    case Inval(_, read, i) => 0 <= i <= |read|
  }

  predicate Known(s: State, ids: seq<Id>) { forall r <- ids :: r in s.rq }

  predicate RingsOk(s: State) {
    (forall i :: 0 <= i < RINGS ==> i in s.rings) && (forall i <- s.rings :: Known(s, s.rings[i]))
  }

  predicate AckedOk(s: State, r: Id) {
    r in s.acked ==> r in s.acked[r].ids && |s.acked[r].read| == |s.acked[r].ids| && ReadOk(s, s.acked[r])
  }

  predicate Shaped(s: State) { HandOk(s) && RingsOk(s) && forall r <- s.acked :: AckedOk(s, r) }

  predicate Inv(s: State) { Ok(s.core) && TlbOk(s) && Shaped(s) && forall r <- s.rq :: ReqOk(s, r) }

  // ---- Every step keeps it ----

  /** No call is forgotten, and none changes its page. */
  predicate Keeps(s: State, s': State) {
    forall r <- s.rq :: r in s'.rq && s'.rq[r].addr == s.rq[r].addr && s'.rq[r].ver == s.rq[r].ver
  }

  lemma StepRemembers(s: State, t: Step)
    requires Enabled(s, t)
    ensures Keeps(s, Exec(s, t))
  {}

  predicate OfHandler(t: Step) {
    t.Interrupt? || t.CollectRing? || t.CollectEnd? || t.AckOne? || t.AckEnd? || t.InvalOne? || t.InvalEnd?
  }

  lemma ReadKeeps(s: State, s': State, b: Batch)
    requires ReadOk(s, b) && Keeps(s, s')
    ensures ReadOk(s', b)
  {
    if |b.read| > 0 {
      var r := b.ids[0];
      assert r in s.rq;
      assert r in s'.rq && s'.rq[r].addr == s.rq[r].addr;
    }
  }

  lemma ShapedElsewhere(s: State, s': State)
    requires Shaped(s) && Keeps(s, s') && s'.hand == s.hand && s'.acked == s.acked
    requires RingsOk(s')
    ensures Shaped(s')
  {
    forall r <- s'.acked ensures AckedOk(s', r) {
      assert AckedOk(s, r);
      ReadKeeps(s, s', s.acked[r]);
    }
    if s.hand.Ack? { ReadKeeps(s, s', Batch(s.hand.batch, s.hand.read)); }
  }

  lemma CallShaped(s: State, r: Id, call: Call)
    requires Shaped(s) && CanCall(s, r, call)
    ensures Shaped(DoCall(s, r, call))
  {
    var s' := DoCall(s, r, call);
    assert Keeps(s, s');
    forall i <- s'.rings ensures Known(s', s'.rings[i]) { assert Known(s, s.rings[i]); }
    ShapedElsewhere(s, s');
  }

  lemma CollectShaped(s: State, s': State, t: Step)
    requires Shaped(s) && (t.Interrupt? || t.CollectRing? || t.CollectEnd?) && Enabled(s, t) && s' == Exec(s, t)
    ensures Shaped(s')
  {
    if t.CollectRing? { assert Known(s, s.rings[s.hand.ring]); }
    forall i <- s'.rings ensures Known(s', s'.rings[i]) { assert i in s.rings && Known(s, s.rings[i]); }
    forall r <- s'.acked ensures AckedOk(s', r) { assert AckedOk(s, r); }
  }

  lemma AckShaped(s: State, s': State, t: Step)
    requires Shaped(s) && (t.AckOne? || t.AckEnd? || t.InvalOne? || t.InvalEnd?) && Enabled(s, t) && s' == Exec(s, t)
    ensures Shaped(s')
  {
    assert Keeps(s, s');
    forall i <- s'.rings ensures Known(s', s'.rings[i]) { assert Known(s, s.rings[i]); }
    forall r <- s'.acked ensures AckedOk(s', r) { if r in s.acked { assert AckedOk(s, r); } }
  }

  lemma StepShaped(s: State, s': State, t: Step)
    requires Shaped(s) && Enabled(s, t) && s' == Exec(s, t)
    ensures Shaped(s')
  {
    StepRemembers(s, t);
    if t.Caller? {
      CallShaped(s, t.r, t.call);
    } else if OfHandler(t) {
      if t.Interrupt? || t.CollectRing? || t.CollectEnd? { CollectShaped(s, s', t); } else { AckShaped(s, s', t); }
    } else {
      forall i <- s'.rings ensures Known(s', s'.rings[i]) { assert Known(s, s.rings[i]); }
      ShapedElsewhere(s, s');
    }
  }

  lemma TargetKeeps(s: State, s': State, m: Move)
    requires Inv(s) && Enabled(s, Target(m)) && s' == Exec(s, Target(m))
    ensures Ok(s'.core) && forall r <- s'.rq :: ReqOk(s', r)
  {
    MoveKeeps(s.core, m);
    forall r | r in s'.rq ensures ReqOk(s', r) { assert ReqOk(s, r); }
  }

  lemma BeginKeeps(s: State, s': State, t: Step)
    requires Inv(s) && t.Begin? && Enabled(s, t) && s' == Exec(s, t)
    ensures forall r <- s'.rq :: ReqOk(s', r)
  {
    forall r | r in s'.rq ensures ReqOk(s', r) { assert r != t.r ==> ReqOk(s, r); }
  }

  /** A flush request accepted by one call harms no other. */
  lemma FlushKeeps(s: State, c: Core, r: Id)
    requires ReqOk(s, r) && Can(s.core, Flush(s.core.word)) && c == Do(s.core, Flush(s.core.word))
    ensures ReqOk(s.(core := c), r)
  {}

  lemma HitKeepsOwn(s: State, s': State, r: Id, call: Call)
    requires Ok(s.core) && ReqOk(s, r) && CanCall(s, r, call) && s' == DoCall(s, r, call) && Hits(call)
    ensures ReqOk(s', r)
  {}

  lemma MissKeepsOwn(s: State, s': State, r: Id, call: Call)
    requires Ok(s.core) && ReqOk(s, r) && CanCall(s, r, call) && s' == DoCall(s, r, call) && !Hits(call)
    ensures ReqOk(s', r)
  {
    var q := Next(s, s.rq[r], call);
    if Looks(call) { LookKeepsOwn(s, s', r, q, call); } else { MoveKeepsOwn(s, s', r, q, call); }
  }

  /** The calls that load the flag word. */
  predicate Looks(call: Call) { call.Look? || call.FullLook? || call.KickLook? || call.LoopLook? || call.WaitLook? }

  lemma LookKeepsOwn(s: State, s': State, r: Id, q: Req, call: Call)
    requires Ok(s.core) && ReqOk(s, r) && CanCall(s, r, call) && Looks(call) && q == Next(s, s.rq[r], call)
    requires s' == s.(rq := s.rq[r := q])
    ensures ReqOk(s', r)
  {}

  lemma MoveKeepsOwn(s: State, s': State, r: Id, q: Req, call: Call)
    requires Ok(s.core) && ReqOk(s, r) && CanCall(s, r, call) && !Hits(call) && !Looks(call)
    requires q == Next(s, s.rq[r], call) && s' == s.(rq := s.rq[r := q], rings := s'.rings)
    ensures ReqOk(s', r)
  {}

  lemma CallKeeps(s: State, s': State, r: Id, call: Call)
    requires Inv(s) && CanCall(s, r, call) && s' == DoCall(s, r, call)
    ensures Ok(s'.core) && forall p <- s'.rq :: ReqOk(s', p)
  {
    if Hits(call) { MoveKeeps(s.core, Flush(s.rq[r].seen)); }
    forall p | p in s'.rq ensures ReqOk(s', p) {
      assert ReqOk(s, p);
      if p == r {
        if Hits(call) { HitKeepsOwn(s, s', r, call); } else { MissKeepsOwn(s, s', r, call); }
      } else if Hits(call) {
        FlushKeeps(s, s'.core, p);
      }
    }
  }

  /** The handler keeps a page in hand until it has invalidated it. */
  lemma InHandKeeps(s: State, s': State, t: Step, a: Addr)
    requires InHand(s.hand, a) && OfHandler(t) && Enabled(s, t) && s' == Exec(s, t)
    ensures InHand(s'.hand, a) || a !in s'.tlb
  {
    if t.AckEnd? {
      var j :| 0 <= j < |s.hand.read| && s.hand.read[j] == a;
      assert s'.hand.read[j] == a;
    }
    if t.InvalOne? {
      var j :| 0 <= s.hand.i <= j < |s.hand.read| && s.hand.read[j] == a;
      assert s'.hand.i <= j ==> s'.hand.read[j] == a;
    }
  }

  /** When the acknowledgement ends, each call of the batch has its page in hand or is missed. */
  lemma AckEndDecides(s: State, s': State, r: Id)
    requires Enabled(s, AckEnd) && s' == Exec(s, AckEnd) && r in s.hand.batch && r in s.rq
    ensures InHand(s'.hand, s'.rq[r].addr) || Missed(s', r)
  {
    if s.rq[r].addr in s.hand.read {
      var j :| 0 <= j < |s.hand.read| && s.hand.read[j] == s.rq[r].addr;
      assert s'.hand.read[j] == s'.rq[r].addr;
    }
  }

  lemma AcksKeeps(s: State, s': State, t: Step, r: Id)
    requires Acks(s, r) && OfHandler(t) && Enabled(s, t) && s' == Exec(s, t)
    ensures Acks(s', r)
  {
    if Stale(s, s.rq[r]) {
      if InHand(s.hand, s.rq[r].addr) { InHandKeeps(s, s', t, s.rq[r].addr); }
      if t.AckEnd? && r in s.hand.batch { AckEndDecides(s, s', r); }
    }
  }

  /** The message that AckOne acknowledges is in the batch. */
  lemma AckOneAcks(s: State, s': State, a: Addr)
    requires Enabled(s, AckOne(a)) && s' == Exec(s, AckOne(a))
    ensures Acks(s', s.hand.batch[|s.hand.read|])
  {}

  lemma HandKeepsReq(s: State, s': State, t: Step, r: Id)
    requires ReqOk(s, r) && OfHandler(t) && Enabled(s, t) && s' == Exec(s, t)
    ensures ReqOk(s', r)
  {
    if s.rq[r].flushed { AcksKeeps(s, s', t, r); }
    if t.AckOne? && r == s.hand.batch[|s.hand.read|] { AckOneAcks(s, s', t.a); }
    assert s'.core == s.core;
  }

  lemma HandKeeps(s: State, s': State, t: Step)
    requires Inv(s) && OfHandler(t) && Enabled(s, t) && s' == Exec(s, t)
    ensures forall r <- s'.rq :: ReqOk(s', r)
  {
    forall r | r in s'.rq ensures ReqOk(s', r) { assert ReqOk(s, r); HandKeepsReq(s, s', t, r); }
  }

  lemma TlbKeeps(s: State, s': State, t: Step)
    requires Inv(s) && (t.Fill? || t.Evict?) && Enabled(s, t) && s' == Exec(s, t)
    ensures forall r <- s'.rq :: ReqOk(s', r)
  {
    forall r | r in s'.rq ensures ReqOk(s', r) { assert ReqOk(s, r); }
  }

  lemma StepReqs(s: State, s': State, t: Step)
    requires Inv(s) && Enabled(s, t) && s' == Exec(s, t)
    ensures Ok(s'.core) && forall r <- s'.rq :: ReqOk(s', r)
  {
    match t
    case Target(m) => TargetKeeps(s, s', m);
    case Begin(_, _, _) => BeginKeeps(s, s', t);
    case Caller(r, call) => CallKeeps(s, s', r, call);
    case Fill(_) => TlbKeeps(s, s', t);
    case Evict(_) => TlbKeeps(s, s', t);
    case _ => HandKeeps(s, s', t);
  }

  lemma StepKeeps(s: State, t: Step)
    requires Inv(s) && Enabled(s, t)
    ensures Inv(Exec(s, t))
  {
    StepReqs(s, Exec(s, t), t);
    StepShaped(s, Exec(s, t), t);
  }

  // ---- Runs ----

  predicate Valid(s: State, ts: seq<Step>)
    decreases |ts|
  {
    ts == [] || (Enabled(s, ts[0]) && Valid(Exec(s, ts[0]), ts[1..]))
  }

  function After(s: State, ts: seq<Step>): State
    requires Valid(s, ts)
    decreases |ts|
  {
    if ts == [] then s else After(Exec(s, ts[0]), ts[1..])
  }

  lemma {:induction false} RunKeeps(s: State, ts: seq<Step>)
    requires Inv(s) && Valid(s, ts)
    ensures Inv(After(s, ts))
    decreases |ts|
  {
    if ts != [] {
      StepKeeps(s, ts[0]);
      RunKeeps(Exec(s, ts[0]), ts[1..]);
    }
  }

  /** Call r has returned, and the target executes the snapshot thread while it may
      still use a translation older than the update that r announced. */
  predicate RunsStale(s: State, r: Id) { r in s.rq && s.rq[r].at.Done? && Running(s) && Stale(s, s.rq[r]) }

  /** In every interleaving, the target never executes the snapshot thread on a translation older than the update
      that a returned call announced, except after two kinds of return. One is an accepted re-read without the host
      bit; then the flush request is still in the word, so this ends at the next entry. The other is an
      acknowledgement with a batch in which the call was not first and for none of whose messages line 730 read its
      page. */
  lemma ShootdownReturn(s: State, ts: seq<Step>, r: Id)
    requires Init(s) && Valid(s, ts) && RunsStale(After(s, ts), r)
    ensures var z := After(s, ts);
            || (z.rq[r].at.path == Reread(false) && z.core.word.flush)
            || (z.rq[r].at.path == Acked && Missed(z, r) && r in z.acked[r].ids && z.acked[r].ids[0] != r)
  {
    RunKeeps(s, ts);
    assert ReqOk(After(s, ts), r);
    assert r in After(s, ts).acked ==> AckedOk(After(s, ts), r);
  }
}
