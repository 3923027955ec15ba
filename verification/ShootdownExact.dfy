/**
 The two returns of dbos_tlb_shootdown (libdune/fast_spawn.c) after which the target may run on an old
 translation: exactly when, and that both occur.
 */
module ShootdownExact {
  import opened PvFlag
  import opened Shootdown

  ghost predicate Reaches(s: State, s': State) { exists ts :: Shootdown.Valid(s, ts) && Shootdown.After(s, ts) == s' }

  lemma ReachesSelf(s: State)
    ensures Reaches(s, s)
  {
    assert Shootdown.Valid(s, []) && Shootdown.After(s, []) == s;
  }

  lemma ReachesCons(s: State, t: Step, s': State)
    requires Enabled(s, t) && Reaches(Exec(s, t), s')
    ensures Reaches(s, s')
  {
    var ts :| Shootdown.Valid(Exec(s, t), ts) && Shootdown.After(Exec(s, t), ts) == s';
    assert ([t] + ts)[1..] == ts;
    assert Shootdown.Valid(s, [t] + ts) && Shootdown.After(s, [t] + ts) == s';
  }

  lemma {:induction false} Join(s: State, ts: seq<Step>, s': State)
    requires Shootdown.Valid(s, ts) && Reaches(Shootdown.After(s, ts), s')
    ensures Reaches(s, s')
    decreases |ts|
  {
    if ts != [] {
      Join(Exec(s, ts[0]), ts[1..], s');
      ReachesCons(s, ts[0], s');
    }
  }

  lemma ReachesTrans(s: State, m: State, s': State)
    requires Reaches(s, m) && Reaches(m, s')
    ensures Reaches(s, s')
  {
    var ts :| Shootdown.Valid(s, ts) && Shootdown.After(s, ts) == m;
    Join(s, ts, s');
  }

  lemma ReachesThen(s: State, m: State, t: Step, s': State)
    requires Reaches(s, m) && Enabled(m, t) && s' == Exec(m, t)
    ensures Reaches(s, s')
  {
    ReachesSelf(s');
    ReachesCons(m, t, s');
    ReachesTrans(s, m, s');
  }

  /** Whatever happens from s on, call r never leaves the target running on an old translation. */
  ghost predicate Harmless(s: State, r: Id) { forall s' :: Reaches(s, s') ==> !RunsStale(s', r) }

  // ---- What protects a call ----

  /** The first of the messages ids is for page a. */
  predicate ForPage(s: State, ids: seq<Id>, a: Addr) { ids != [] && ids[0] in s.rq && s.rq[ids[0]].addr == a }

  predicate AtRing(s: State, i: int, a: Addr) { i in s.rings && ForPage(s, s.rings[i], a) }

  /** The handler is bound to read page a, since a message for it is the first of the batch, the first of the ring
      from which an empty batch is filled next, or the first of ring 0 when another pass is to come. */
  predicate Due(s: State, a: Addr) {
    match s.hand
    case Away => false
    case Collect(p, ring, batch) =>
      || (if batch == [] then ring < RINGS && AtRing(s, ring, a) else ForPage(s, batch, a))
      || (p == 1 && ring > 0 && AtRing(s, 0, a))
    case Ack(p, batch, read) => (read == [] && ForPage(s, batch, a)) || (p == 1 && AtRing(s, 0, a))
    case Inval(p, _, _) => p == 1 && AtRing(s, 0, a)
  }

  predicate Protected(s: State, r: Id) {
    && r in s.rq
    && (Stale(s, s.rq[r]) ==> Ahead(s.core) || InHand(s.hand, s.rq[r].addr) || Due(s, s.rq[r].addr))
  }

  /** A first message stays the first of its ring until it is collected. */
  lemma AtRingStays(s: State, s': State, t: Step, i: int, a: Addr)
    requires AtRing(s, i, a) && Enabled(s, t) && s' == Exec(s, t) && !(t.CollectRing? && s.hand.ring == i)
    ensures AtRing(s', i, a)
  {}

  lemma ForPageStays(s: State, s': State, t: Step, ids: seq<Id>, a: Addr)
    requires ForPage(s, ids, a) && Enabled(s, t) && s' == Exec(s, t)
    ensures ForPage(s', ids, a)
  {
    StepRemembers(s, t);
  }

  /** What the handler is bound to read, it reads. */
  lemma DueStays(s: State, s': State, t: Step, a: Addr)
    requires HandOk(s) && Due(s, a) && Enabled(s, t) && s' == Exec(s, t)
    ensures Due(s', a) || InHand(s'.hand, a)
  {
    var h := s.hand;
    if h.phase == 1 && AtRing(s, 0, a) && !(h.Collect? && h.ring == 0) {
      AtRingStays(s, s', t, 0, a);
    } else if h.Inval? {
      AtRingStays(s, s', t, 0, a);
    } else if h.batch == [] {
      if t.CollectRing? {
        ForPageStays(s, s', t, s.rings[h.ring], a);
        assert s'.hand.batch == s.rings[h.ring];
      } else {
        AtRingStays(s, s', t, h.ring, a);
      }
    } else {
      ForPageStays(s, s', t, h.batch, a);
      assert t.CollectRing? ==> s'.hand.batch[0] == h.batch[0];
    }
  }

  lemma AheadStays(c: Core, m: Move)
    requires Ok(c) && Ahead(c) && Can(c, m) && !m.Sync?
    ensures Ahead(Do(c, m))
  {}

  lemma ProtectedTarget(s: State, s': State, m: Move, r: Id)
    requires Inv(s) && Protected(s, r) && Enabled(s, Target(m)) && s' == Exec(s, Target(m))
    ensures Protected(s', r)
  {
    if Ahead(s.core) && !m.Sync? { AheadStays(s.core, m); }
    if Due(s, s.rq[r].addr) { DueStays(s, s', Target(m), s.rq[r].addr); }
  }

  lemma ProtectedCaller(s: State, s': State, p: Id, call: Call, r: Id)
    requires Inv(s) && Protected(s, r) && CanCall(s, p, call) && s' == DoCall(s, p, call)
    ensures Protected(s', r)
  {
    if Hits(call) && Ahead(s.core) { AheadStays(s.core, Flush(s.rq[p].seen)); }
    if Due(s, s.rq[r].addr) { DueStays(s, s', Caller(p, call), s.rq[r].addr); }
    assert s'.rq[r].addr == s.rq[r].addr && s'.rq[r].ver == s.rq[r].ver;
  }

  lemma ProtectedStep(s: State, s': State, t: Step, r: Id)
    requires Inv(s) && Protected(s, r) && Enabled(s, t) && s' == Exec(s, t)
    ensures Protected(s', r)
  {
    if t.Target? {
      ProtectedTarget(s, s', t.m, r);
    } else if t.Caller? {
      ProtectedCaller(s, s', t.r, t.call, r);
    } else {
      assert ReqOk(s, r) && s'.core == s.core;
      if OfHandler(t) && InHand(s.hand, s.rq[r].addr) { InHandKeeps(s, s', t, s.rq[r].addr); }
      if Due(s, s.rq[r].addr) { DueStays(s, s', t, s.rq[r].addr); }
    }
  }

  lemma {:induction false} ProtectedStays(s: State, ts: seq<Step>, r: Id)
    requires Inv(s) && Protected(s, r) && Shootdown.Valid(s, ts)
    ensures !RunsStale(Shootdown.After(s, ts), r)
    decreases |ts|
  {
    if ts != [] {
      StepKeeps(s, ts[0]);
      ProtectedStep(s, Exec(s, ts[0]), ts[0], r);
      ProtectedStays(Exec(s, ts[0]), ts[1..], r);
    }
  }

  lemma ProtectedHarmless(s: State, r: Id)
    requires Inv(s) && Protected(s, r)
    ensures Harmless(s, r)
  {
    forall s' | Reaches(s, s') ensures !RunsStale(s', r) {
      var ts :| Shootdown.Valid(s, ts) && Shootdown.After(s, ts) == s';
      ProtectedStays(s, ts, r);
    }
  }

  // ---- The target comes back to its thread with its old TLB ----

  /** The first message in rings lo to hi, if there is one, is not for page a. */
  predicate OtherFirst(s: State, lo: int, hi: int, a: Addr)
    decreases hi - lo
  {
    lo < hi ==> if lo in s.rings && s.rings[lo] != [] then !ForPage(s, s.rings[lo], a)
        else OtherFirst(s, lo + 1, hi, a)
  }

  /** No batch still to come begins with a message for page a. Only a batch's first message is sure to have its own
      page read; a batch begins with the first message of the rings; and an idle handler need not come at all. */
  predicate Unforced(s: State, a: Addr) {
    match s.hand
    case Away => true
    case Collect(p, ring, batch) =>
      && (if batch == [] then OtherFirst(s, ring, RINGS, a) else !ForPage(s, batch, a))
      && (p == 1 ==> OtherFirst(s, 0, ring, a))
    case Ack(p, batch, read) => (read == [] ==> !ForPage(s, batch, a)) && (p == 1 ==> OtherFirst(s, 0, RINGS, a))
    case Inval(p, _, _) => p == 1 ==> OtherFirst(s, 0, RINGS, a)
  }

  lemma {:induction false} FirstSame(s: State, s': State, lo: int, hi: int, a: Addr)
    requires OtherFirst(s, lo, hi, a) && (forall i :: lo <= i < hi ==> (i in s'.rings <==> i in s.rings))
    requires forall i :: lo <= i < hi && i in s.rings ==> s'.rings[i] == s.rings[i]
    requires forall r <- s'.rq :: r in s.rq && s'.rq[r].addr == s.rq[r].addr
    ensures OtherFirst(s', lo, hi, a)
    decreases hi - lo
  {
    if lo < hi {
      if lo in s.rings && s.rings[lo] != [] {
        var r := s.rings[lo][0];
        assert r in s'.rq ==> r in s.rq && s'.rq[r].addr == s.rq[r].addr;
        assert !ForPage(s, s.rings[lo], a) && s'.rings[lo] == s.rings[lo];
      } else {
        FirstSame(s, s', lo + 1, hi, a);
      }
    }
  }

  lemma {:induction false} FirstNone(s: State, lo: int, hi: int, a: Addr)
    requires forall i <- s.rings :: s.rings[i] == []
    ensures OtherFirst(s, lo, hi, a)
    decreases hi - lo
  {
    if lo < hi { FirstNone(s, lo + 1, hi, a); }
  }

  /** Moves of the target leave the messages as they are. */
  lemma UnforcedSame(s: State, s': State, a: Addr)
    requires Unforced(s, a) && s'.hand == s.hand && s'.rings == s.rings && s'.rq == s.rq
    ensures Unforced(s', a)
  {
    if s.hand.Collect? {
      if s.hand.batch == [] { FirstSame(s, s', s.hand.ring, RINGS, a); }
      if s.hand.phase == 1 { FirstSame(s, s', 0, s.hand.ring, a); }
    } else if !s.hand.Away? && s.hand.phase == 1 {
      FirstSame(s, s', 0, RINGS, a);
    }
  }

  /** Emptying the ring at the end of the range leaves the first message of the range, or none. */
  lemma {:induction false} FirstEmptied(s: State, s': State, lo: int, hi: int, a: Addr)
    requires OtherFirst(s, lo, hi, a) && lo <= hi && s'.rings == s.rings[hi := []] && s'.rq == s.rq
    ensures OtherFirst(s', lo, hi + 1, a)
    decreases hi - lo
  {
    if lo == hi {
      assert OtherFirst(s', hi + 1, hi + 1, a);
    } else if !(lo in s.rings && s.rings[lo] != []) {
      FirstEmptied(s, s', lo + 1, hi, a);
    }
  }

  /** Call r announced an update whose old translation nothing makes the target drop. */
  predicate Adrift(s: State, r: Id) {
    && Inv(s) && r in s.rq && Stale(s, s.rq[r]) && !Ahead(s.core)
    && !InHand(s.hand, s.rq[r].addr) && Unforced(s, s.rq[r].addr)
  }

  /** The target's next move towards the guest, when no flush lies ahead. */
  function Inward(c: Core): Move {
    match c.at
    case Out => Test
    case Tested => Take
    case Taken(_) => Skip
    case Counted(_) => Sync
    case Synced(_) => Load
    case Ready => Enter
    case Leaving => Read
    case Leave(w) => if c.word == w then SetHost else Retry
    case Inside => Exit
  }

  function Distance(c: Core): nat {
    match c.at
    case Out => 7
    case Tested => 6
    case Taken(_) => 5
    case Counted(_) => 5
    case Synced(_) => 4
    case Ready => 3
    case Leaving => 9
    case Leave(w) => if c.word == w then 8 else 10
    case Inside => 0
  }

  lemma InwardStep(c: Core)
    requires Ok(c) && !Ahead(c) && !c.at.Inside?
    ensures Can(c, Inward(c)) && !Inward(c).Flush? && !Inward(c).Sync?
    ensures Ok(Do(c, Inward(c))) && !Ahead(Do(c, Inward(c))) && Distance(Do(c, Inward(c))) < Distance(c)
  {}

  lemma {:induction false} GoesInside(s: State, r: Id) returns (s': State)
    requires Adrift(s, r)
    ensures Reaches(s, s') && Adrift(s', r) && s'.core.at.Inside? && s'.rq == s.rq
    decreases Distance(s.core)
  {
    if s.core.at.Inside? {
      ReachesSelf(s);
      return s;
    }
    InwardStep(s.core);
    var t := Target(Inward(s.core));
    StepKeeps(s, t);
    UnforcedSame(s, Exec(s, t), s.rq[r].addr);
    s' := GoesInside(Exec(s, t), r);
    ReachesCons(s, t, s');
  }

  /** The handler's next step; for messages after the first it reads some page other than a. */
  function Onward(s: State, a: Addr): Step {
    match s.hand
    case Away => Interrupt
    case Collect(_, ring, _) => if ring < RINGS then CollectRing else CollectEnd
    case Ack(_, batch, read) =>
      if |read| >= |batch| then AckEnd
          else AckOne(if read == [] && batch[0] in s.rq then s.rq[batch[0]].addr else a + 1)
    case Inval(_, read, i) => if i < |read| then InvalOne else InvalEnd
  }

  function Stages(h: Hand): nat {
    match h
    case Away => 0
    case Collect(p, _, _) => if p == 1 then 6 else 3
    case Ack(p, _, _) => if p == 1 then 5 else 2
    case Inval(p, _, _) => if p == 1 then 4 else 1
  }

  function Rest(h: Hand): int {
    match h
    case Away => 0
    case Collect(_, ring, _) => RINGS - ring
    case Ack(_, batch, read) => |batch| - |read|
    case Inval(_, read, i) => |read| - i
  }

  /** The call itself is where it was, except that it may have been acknowledged. */
  predicate SameCall(q: Req, q': Req) { q' == q || q' == q.(flushed := true) }

  predicate Advances(h: Hand, h': Hand) {
    Stages(h') < Stages(h) || (Stages(h') == Stages(h) && 0 <= Rest(h') < Rest(h))
  }

  lemma CollectRingOn(s: State, s': State, a: Addr)
    requires HandOk(s) && Unforced(s, a) && Enabled(s, CollectRing) && s' == Exec(s, CollectRing)
    ensures Unforced(s', a) && Advances(s.hand, s'.hand)
  {
    var ring, batch := s.hand.ring, s.hand.batch;
    if s.hand.phase == 1 { FirstEmptied(s, s', 0, ring, a); }
    if batch == [] && s.rings[ring] == [] { FirstSame(s, s', ring + 1, RINGS, a); }
    assert batch == [] ==> s'.hand.batch == s.rings[ring];
    assert batch != [] ==> s'.hand.batch[0] == batch[0];
  }

  lemma CollectOn(s: State, s': State, a: Addr)
    requires HandOk(s) && s.core.at.Inside? && s.hand.Collect? && Unforced(s, a)
    requires Enabled(s, Onward(s, a)) && s' == Exec(s, Onward(s, a))
    ensures s'.core == s.core && s'.rq == s.rq && s'.tlb == s.tlb && Unforced(s', a) && !InHand(s'.hand, a)
    ensures Advances(s.hand, s'.hand)
  {
    if s.hand.ring < RINGS { CollectRingOn(s, s', a); }
    else if s.hand.phase == 1 { FirstSame(s, s', 0, RINGS, a); }
  }

  lemma AckEndOn(s: State, s': State, a: Addr)
    requires s.hand.Ack? && Unforced(s, a) && !InHand(s.hand, a) && Enabled(s, AckEnd) && s' == Exec(s, AckEnd)
    ensures s'.core == s.core && s'.tlb == s.tlb && s'.rq == s.rq && Unforced(s', a) && !InHand(s'.hand, a)
    ensures Advances(s.hand, s'.hand)
  {
    if s.hand.phase == 1 { FirstSame(s, s', 0, RINGS, a); }
  }

  lemma AckOneOn(s: State, s': State, a: Addr, b: Addr)
    requires s.hand.Ack? && Unforced(s, a) && !InHand(s.hand, a) && Enabled(s, AckOne(b)) && s' == Exec(s, AckOne(b))
    requires s.hand.read != [] ==> b != a
    ensures s'.core == s.core && s'.tlb == s.tlb && Unforced(s', a) && !InHand(s'.hand, a)
    ensures forall r <- s.rq :: r in s'.rq && SameCall(s.rq[r], s'.rq[r])
    ensures Advances(s.hand, s'.hand)
  {
    if s.hand.phase == 1 { FirstSame(s, s', 0, RINGS, a); }
  }

  lemma InvalOn(s: State, s': State, a: Addr)
    requires HandOk(s) && s.core.at.Inside? && s.hand.Inval? && Unforced(s, a) && !InHand(s.hand, a)
    requires Enabled(s, Onward(s, a)) && s' == Exec(s, Onward(s, a))
    ensures s'.core == s.core && s'.rq == s.rq && Unforced(s', a) && !InHand(s'.hand, a)
    ensures a in s.tlb ==> a in s'.tlb && s'.tlb[a] == s.tlb[a]
    ensures Advances(s.hand, s'.hand)
  {
    if s.hand.phase == 1 { FirstSame(s, s', 0, RINGS, a); }
    if s.hand.i < |s.hand.read| { assert s.hand.read[s.hand.i] != a; }
  }

  lemma CanGoOn(s: State, a: Addr)
    requires Inv(s) && s.core.at.Inside? && !s.hand.Away?
    ensures Enabled(s, Onward(s, a))
  {
    if s.hand.Ack? && |s.hand.read| < |s.hand.batch| {
      var r := s.hand.batch[|s.hand.read|];
      assert r in s.hand.batch && r in s.rq;
    }
  }

  lemma HandOn(s: State, r: Id) returns (s': State)
    requires Adrift(s, r) && s.core.at.Inside? && !s.hand.Away?
    ensures Reaches(s, s') && Adrift(s', r) && s'.core.at.Inside? && SameCall(s.rq[r], s'.rq[r])
    ensures Advances(s.hand, s'.hand)
  {
    var a := s.rq[r].addr;
    CanGoOn(s, a);
    var t := Onward(s, a);
    s' := Exec(s, t);
    StepKeeps(s, t);
    if s.hand.Collect? { CollectOn(s, s', a); }
    else if t.AckOne? { AckOneOn(s, s', a, t.a); }
    else if t.AckEnd? { AckEndOn(s, s', a); }
    else { InvalOn(s, s', a); }
    ReachesSelf(s');
    ReachesCons(s, t, s');
  }

  lemma {:induction false} HandAway(s: State, r: Id) returns (s': State)
    requires Adrift(s, r) && s.core.at.Inside?
    ensures Reaches(s, s') && Adrift(s', r) && Running(s') && SameCall(s.rq[r], s'.rq[r])
    decreases Stages(s.hand), Rest(s.hand)
  {
    if s.hand.Away? {
      ReachesSelf(s);
      return s;
    }
    var m := HandOn(s, r);
    s' := HandAway(m, r);
    ReachesTrans(s, m, s');
  }

  /** With nothing to protect the call, the target can run its thread on the old translation. */
  lemma ComesBack(s: State, r: Id) returns (s': State)
    requires Adrift(s, r)
    ensures Reaches(s, s') && Adrift(s', r) && Running(s') && SameCall(s.rq[r], s'.rq[r])
  {
    var m := GoesInside(s, r);
    s' := HandAway(m, r);
    ReachesTrans(s, m, s');
  }

  // ---- The loop of lines 181-184 ----

  /** While the target runs the thread, the loop accepts a word without the host bit. */
  lemma Accepts(s: State, r: Id) returns (s': State)
    requires Running(s) && r in s.rq && Stale(s, s.rq[r]) && s.rq[r].at.Loop? && s.rq[r].seen == s.core.word
    ensures Reaches(s, s') && RunsStale(s', r)
  {
    var t := Caller(r, if s.rq[r].seen.flush then LoopAccept else LoopHit);
    s' := Exec(s, t);
    ReachesSelf(s');
    ReachesCons(s, t, s');
  }

  lemma Retries(s: State, r: Id) returns (s': State)
    requires Running(s) && r in s.rq && Stale(s, s.rq[r]) && s.rq[r].at.Loop? && !s.rq[r].seen.flush
    requires s.rq[r].seen != s.core.word
    ensures Reaches(s, s') && RunsStale(s', r)
  {
    var m := Exec(s, Caller(r, LoopMiss));
    var n := Exec(m, Caller(r, LoopLook));
    s' := Accepts(n, r);
    ReachesCons(m, Caller(r, LoopLook), s');
    ReachesCons(s, Caller(r, LoopMiss), s');
  }

  /** A call in the loop of lines 181-184, in any reachable state and whatever word it last read: whatever happens
      next, it never leaves the target running on an old translation, if and only if the target holds none, a full
      flush lies between it and the guest, its handler has the page in hand or is bound to read it. A flush
      request that was read with the host bit is such a case. */
  lemma LoopExact(s: State, ts: seq<Step>, z: State, r: Id)
    requires Shootdown.Init(s) && Shootdown.Valid(s, ts) && z == Shootdown.After(s, ts)
    requires r in z.rq && z.rq[r].at.Loop? && (Due(z, z.rq[r].addr) || Unforced(z, z.rq[r].addr))
    ensures Harmless(z, r) <==> Protected(z, r)
    ensures z.rq[r].seen.host && z.rq[r].seen.flush ==> Harmless(z, r)
  {
    Shootdown.RunKeeps(s, ts);
    assert ReqOk(z, r);
    if Protected(z, r) {
      ProtectedHarmless(z, r);
    } else {
      var m := ComesBack(z, r);
      var x := EndsLoop(m, r);
      ReachesTrans(z, m, x);
      assert Reaches(z, x) && RunsStale(x, r);
    }
  }

  /** While the target runs the thread, the loop can end at once or after one more read. */
  lemma EndsLoop(s: State, r: Id) returns (s': State)
    requires Running(s) && r in s.rq && Stale(s, s.rq[r]) && s.rq[r].at.Loop?
    ensures Reaches(s, s') && RunsStale(s', r)
  {
    if s.rq[r].seen.flush {
      s' := Exec(s, Caller(r, LoopAccept));
      ReachesSelf(s');
      ReachesCons(s, Caller(r, LoopAccept), s');
    } else if s.rq[r].seen == s.core.word {
      s' := Accepts(s, r);
    } else {
      s' := Retries(s, r);
    }
  }

  // ---- The acknowledgement ----

  lemma SeesFlushed(s: State, r: Id) returns (s': State)
    requires Running(s) && r in s.rq && Stale(s, s.rq[r]) && s.rq[r].flushed
    requires s.rq[r].at.Waiting? || s.rq[r].at == Done(Acked)
    ensures Reaches(s, s') && RunsStale(s', r) && s'.rq[r].at == Done(Acked)
  {
    if s.rq[r].at.Waiting? {
      s' := Exec(s, Caller(r, SeeFlushed));
      ReachesSelf(s');
      ReachesCons(s, Caller(r, SeeFlushed), s');
    } else {
      ReachesSelf(s);
      s' := s;
    }
  }

  /** A call that has been acknowledged, in any reachable state: whatever happens next, it never leaves the target
      running on an old translation, if and only if the target holds none, a full flush lies ahead, its page is
      among those that were read for the batch and are still to be invalidated, or the handler is bound to read it. */
  lemma AckExact(s: State, ts: seq<Step>, z: State, r: Id)
    requires Shootdown.Init(s) && Shootdown.Valid(s, ts) && z == Shootdown.After(s, ts)
    requires r in z.rq && z.rq[r].flushed && (z.rq[r].at.Waiting? || z.rq[r].at == Done(Acked))
    requires Due(z, z.rq[r].addr) || Unforced(z, z.rq[r].addr)
    ensures Harmless(z, r) <==> Protected(z, r)
  {
    Shootdown.RunKeeps(s, ts);
    if Protected(z, r) {
      ProtectedHarmless(z, r);
    } else {
      var m := ComesBack(z, r);
      var x := SeesFlushed(m, r);
      ReachesTrans(z, m, x);
      assert Reaches(z, x) && RunsStale(x, r);
    }
  }

  // ---- Both returns occur ----

  /** From its first state the target enters the guest and runs its thread. */
  lemma Enters(s: State) returns (z: State)
    requires Shootdown.Init(s)
    ensures Reaches(s, z) && Running(z) && z.core.word == ZERO && z == s.(core := z.core)
  {
    var c1 := Do(s.core, Test);
    var c2 := Do(c1, Take);
    var c3 := Do(c2, Skip);
    var c4 := Do(c3, Load);
    z := s.(core := Do(c4, Enter));
    ReachesSelf(z);
    ReachesCons(s.(core := c4), Target(Enter), z);
    ReachesCons(s.(core := c3), Target(Load), z);
    ReachesCons(s.(core := c2), Target(Skip), z);
    ReachesCons(s.(core := c1), Target(Take), z);
    ReachesCons(s, Target(Test), z);
  }

  /** The state in which call r for page a has queued its message. */
  function Queued(s: State, r: Id, src: int, a: Addr): State
    requires a in s.ver && src in s.rings
  {
    s.(ver := s.ver[a := s.ver[a] + 1], rings := s.rings[src := s.rings[src] + [r]],
       rq := s.rq[r := Req(src, a, s.ver[a] + 1, Waiting, s.core.word, |s.rings[src]|, 0, 0, false)])
  }

  lemma Measures(s: State, r: Id, src: int, a: Addr) returns (z: State)
    requires Running(s) && s.core.word == ZERO && r !in s.rq && a in s.ver && src in s.rings && NotCalling(s, src)
    ensures Reaches(s, z)
    ensures z == s.(ver := s.ver[a := s.ver[a] + 1],
                    rq := s.rq[r := Req(src, a, s.ver[a] + 1, Measured, s.core.word, |s.rings[src]|, 0, 0, false)])
  {
    var m := Exec(s, Begin(r, src, a));
    var n := Exec(m, Caller(r, Look));
    z := Exec(n, Caller(r, Measure));
    assert z.rq == s.rq[r := Req(src, a, s.ver[a] + 1, Measured, s.core.word, |s.rings[src]|, 0, 0, false)];
    ReachesSelf(z);
    ReachesCons(n, Caller(r, Measure), z);
    ReachesCons(m, Caller(r, Look), z);
    ReachesCons(s, Begin(r, src, a), z);
  }

  lemma Queues(s: State, r: Id, src: int, a: Addr) returns (z: State)
    requires Running(s) && s.core.word == ZERO && r !in s.rq && a in s.ver && src in s.rings && NotCalling(s, src)
    requires |s.rings[src]| < RING_SIZE
    ensures Reaches(s, z) && z == Queued(s, r, src, a)
  {
    var m := Measures(s, r, src, a);
    z := Exec(m, Caller(r, Push));
    assert z.rq == Queued(s, r, src, a).rq;
    ReachesThen(s, m, Caller(r, Push), z);
  }

  /** The target leaves for the host. */
  lemma Leaves(s: State) returns (z: State)
    requires Running(s) && s.core.word == ZERO
    ensures Reaches(s, z) && z == s.(core := z.core) && z.core.at.Out? && z.core.word == ZERO.(host := true)
  {
    var c1 := Do(s.core, Exit);
    var c2 := Do(c1, Read);
    z := s.(core := Do(c2, SetHost));
    ReachesSelf(z);
    ReachesCons(s.(core := c2), Target(SetHost), z);
    ReachesCons(s.(core := c1), Target(Read), z);
    ReachesCons(s, Target(Exit), z);
  }

  lemma SeesHost(s: State, r: Id) returns (z: State)
    requires s.core.word == ZERO.(host := true) && r in s.rq && s.rq[r].at.Waiting?
    ensures Reaches(s, z) && z == s.(rq := s.rq[r := s.rq[r].(at := WaitCas, seen := s.core.word)])
  {
    z := Exec(s, Caller(r, WaitLook));
    ReachesSelf(z);
    ReachesCons(s, Caller(r, WaitLook), z);
  }

  /** A waiting call finds the target in the host, asks for a flush and returns; its message stays in the ring. */
  lemma GivesUp(s: State, r: Id) returns (z: State)
    requires s.core.at.Out? && s.core.word == ZERO.(host := true) && r in s.rq && s.rq[r].at.Waiting?
    ensures Reaches(s, z) && z.core.at.Out? && z.core.word.host && z.core.word.flush
    ensures z == s.(core := z.core, rq := s.rq[r := s.rq[r].(at := Done(WaitBreak), seen := s.core.word)])
  {
    var m := SeesHost(s, r);
    z := Exec(m, Caller(r, WaitHit));
    ReachesThen(s, m, Caller(r, WaitHit), z);
    assert z.rq == s.rq[r := s.rq[r].(at := Done(WaitBreak), seen := s.core.word)];
  }

  /** The target enters again and flushes. */
  lemma Reenters(s: State) returns (z: State)
    requires s.core.at.Out? && s.core.word.host && s.core.word.flush && s.hand.Away?
    ensures Reaches(s, z) && Running(z) && z.core.word == ZERO && z == s.(core := z.core, tlb := map[])
  {
    var c2 := Do(Do(s.core, Test), Take);
    var c4 := Do(Do(c2, Count), Sync);
    var c5 := Do(c4, Load);
    z := s.(core := Do(c5, Enter), tlb := map[]);
    ReachesSelf(z);
    ReachesCons(s.(core := c5, tlb := map[]), Target(Enter), z);
    ReachesCons(s.(core := c4, tlb := map[]), Target(Load), z);
    ReachesCons(s.(core := Do(c2, Count)), Target(Sync), z);
    ReachesCons(s.(core := c2), Target(Count), z);
    ReachesCons(s.(core := Do(s.core, Test)), Target(Take), z);
    ReachesCons(s, Target(Test), z);
  }

  /** One more message of src stays in its ring. */
  lemma LeavesMessage(s: State, r: Id, src: int, a: Addr) returns (z: State)
    requires Running(s) && s.core.word == ZERO && r !in s.rq && a in s.ver && src in s.rings && NotCalling(s, src)
    requires |s.rings[src]| < RING_SIZE
    ensures Reaches(s, z) && Running(z) && z.core.word == ZERO && z.tlb == map[] && NotCalling(z, src) && a in z.ver
    ensures z.rings == s.rings[src := s.rings[src] + [r]] && z.rq.Keys == s.rq.Keys + {r}
  {
    var l := Queues(s, r, src, a);
    var m := Leaves(l);
    ReachesTrans(s, l, m);
    var n := GivesUp(m, r);
    ReachesTrans(s, m, n);
    z := Reenters(n);
    ReachesTrans(s, n, z);
  }

  /** Calls r up to 3 fill the ring of src. */
  lemma {:induction false} FillsRing(s: State, r: Id, src: int, a: Addr) returns (z: State)
    requires 0 <= r <= RING_SIZE && Running(s) && s.core.word == ZERO && (forall q <- s.rq :: q < r)
    requires a in s.ver && src in s.rings && |s.rings[src]| == r && s.tlb == map[] && NotCalling(s, src)
    ensures Reaches(s, z) && Running(z) && z.core.word == ZERO && RING_SIZE !in z.rq && z.tlb == map[]
    ensures NotCalling(z, src) && a in z.ver && src in z.rings && |z.rings[src]| == RING_SIZE
    decreases RING_SIZE - r
  {
    if r == RING_SIZE {
      ReachesSelf(s);
      z := s;
    } else {
      var m := LeavesMessage(s, r, src, a);
      assert forall q <- m.rq :: q in m.rq.Keys && q < r + 1;
      z := FillsRing(m, r + 1, src, a);
      ReachesTrans(s, m, z);
    }
  }

  lemma Finds(s: State, r: Id) returns (z: State)
    requires s.core.at.Out? && s.core.word == ZERO.(host := true) && r in s.rq && s.rq[r].at.Measured?
    requires s.rq[r].len >= RING_SIZE
    ensures Reaches(s, z) && z == s.(rq := s.rq[r := s.rq[r].(at := Loop, seen := s.core.word)])
  {
    var m := Exec(s, Caller(r, IsFull));
    z := Exec(m, Caller(r, FullLook));
    assert z.rq == s.rq[r := s.rq[r].(at := Loop, seen := s.core.word)];
    ReachesSelf(z);
    ReachesCons(m, Caller(r, FullLook), z);
    ReachesCons(s, Caller(r, IsFull), z);
  }

  /** A call that finds its ring full and the target in the host enters the loop with an old translation left and no
      flush ahead. */
  lemma LoopHappens(s: State, src: int, a: Addr) returns (z: State, r: Id)
    requires Shootdown.Init(s) && 0 <= src < RINGS && a in s.ver
    ensures Reaches(s, z) && r in z.rq && z.rq[r].at.Loop? && z.rq[r].seen.host && z.hand.Away?
    ensures Stale(z, z.rq[r]) && !Ahead(z.core)
  {
    var s1 := Enters(s);
    var s2 := FillsRing(s1, 0, src, a);
    ReachesTrans(s, s1, s2);
    var s3 := Exec(s2, Fill(a));
    ReachesThen(s, s2, Fill(a), s3);
    r := RING_SIZE;
    var s4 := Measures(s3, r, src, a);
    ReachesTrans(s, s3, s4);
    var s5 := Leaves(s4);
    ReachesTrans(s, s4, s5);
    z := Finds(s5, r);
    ReachesTrans(s, s5, z);
  }

  /** The handler passes over empty rings. */
  lemma {:induction false} PassesEmpty(s: State) returns (z: State)
    requires s.core.at.Inside? && s.hand.Collect? && 0 <= s.hand.ring <= RINGS
    requires forall i :: s.hand.ring <= i < RINGS ==> i in s.rings && s.rings[i] == []
    ensures Reaches(s, z) && z == s.(hand := Collect(s.hand.phase, RINGS, s.hand.batch))
    decreases RINGS - s.hand.ring
  {
    if s.hand.ring == RINGS {
      ReachesSelf(s);
      z := s;
    } else {
      var m := Exec(s, CollectRing);
      assert s.rings[s.hand.ring := []] == s.rings && s.hand.batch + [] == s.hand.batch;
      z := PassesEmpty(m);
      ReachesCons(s, CollectRing, z);
    }
  }

  /** Call 0, from ring 0 and for page a, has queued its message, and the target holds a translation of page b. */
  lemma OneQueues(s: State, a: Addr, b: Addr) returns (z: State)
    requires Shootdown.Init(s) && a in s.ver && b in s.ver && a != b
    ensures Reaches(s, z) && Running(z) && z.core.word == ZERO && z.rings == s.rings[0 := [0]] && z.rq.Keys == {0}
    ensures z.rq[0].addr == a && z.rq[0].src == 0 && b in z.tlb && b in z.ver && z.tlb[b] <= z.ver[b]
  {
    var l := Enters(s);
    var m := Exec(l, Fill(b));
    ReachesThen(s, l, Fill(b), m);
    z := Queues(m, 0, 0, a);
    ReachesTrans(s, m, z);
    assert m.rings[0] + [0] == [0];
  }

  /** Calls 0 and 1, from rings 0 and 1 and for pages a and b, have queued their messages. */
  lemma BothQueue(s: State, a: Addr, b: Addr) returns (z: State)
    requires Shootdown.Init(s) && a in s.ver && b in s.ver && a != b
    ensures Reaches(s, z) && Running(z) && z.rings == s.rings[0 := [0]][1 := [1]] && 0 in z.rq && 1 in z.rq
    ensures z.rq[0].addr == a && z.rq[1].addr == b && z.rq[1].at.Waiting? && Stale(z, z.rq[1])
  {
    var m := OneQueues(s, a, b);
    assert forall r <- m.rq :: r in m.rq.Keys;
    z := Queues(m, 1, 1, b);
    ReachesTrans(s, m, z);
    assert m.rings[1] + [1] == [1];
  }

  /** They are in one batch. */
  lemma Batches(s: State, a: Addr, b: Addr) returns (z: State)
    requires Shootdown.Init(s) && a in s.ver && b in s.ver && a != b
    ensures Reaches(s, z) && z.core.at.Inside? && z.hand == Collect(1, RINGS, [0, 1]) && 0 in z.rq && 1 in z.rq
    ensures z.rq[0].addr == a && z.rq[1].addr == b && z.rq[1].at.Waiting? && Stale(z, z.rq[1])
    ensures forall i <- z.rings :: z.rings[i] == []
  {
    var m := BothQueue(s, a, b);
    z := Collects(m);
    ReachesTrans(s, m, z);
  }

  lemma Collects(s: State) returns (z: State)
    requires Running(s) && 0 in s.rings && 1 in s.rings && s.rings[0] == [0] && s.rings[1] == [1]
    requires (forall i :: 0 <= i < RINGS ==> i in s.rings)
          && (forall i <- s.rings :: i != 0 && i != 1 ==> s.rings[i] == [])
    ensures Reaches(s, z) && z == s.(hand := Collect(1, RINGS, [0, 1]), rings := s.rings[0 := []][1 := []])
  {
    var s1 := Exec(s, Interrupt);
    var s2 := Exec(s1, CollectRing);
    var s3 := Exec(s2, CollectRing);
    assert s3.hand == Collect(1, 2, [0, 1]);
    z := PassesEmpty(s3);
    ReachesCons(s2, CollectRing, z);
    ReachesCons(s1, CollectRing, z);
    ReachesCons(s, Interrupt, z);
  }

  /** Two calls in one batch: the second is acknowledged, its page is read for neither, and the target runs on its
      old translation. */
  lemma MissHappens(s: State, a: Addr, b: Addr) returns (z: State)
    requires Shootdown.Init(s) && a in s.ver && b in s.ver && a != b
    ensures Reaches(s, z) && RunsStale(z, 1) && z.rq[1].at == Done(Acked)
  {
    var m := AcksBoth(s, a, b);
    ReachesInv(s, m);
    var n := ComesBack(m, 1);
    z := SeesFlushed(n, 1);
    ReachesTrans(s, m, n);
    ReachesTrans(s, n, z);
  }

  /** Both calls are acknowledged, with pages other than b read for them. */
  lemma AcksBoth(s: State, a: Addr, b: Addr) returns (z: State)
    requires Shootdown.Init(s) && a in s.ver && b in s.ver && a != b
    ensures Reaches(s, z) && 1 in z.rq && z.rq[1].addr == b && z.rq[1].at.Waiting? && z.rq[1].flushed
    ensures Stale(z, z.rq[1])
    ensures z.core.at.Inside? && !InHand(z.hand, b) && Unforced(z, b)
  {
    var m := Batches(s, a, b);
    var n := Exec(m, CollectEnd);
    ReachesThen(s, m, CollectEnd, n);
    var p := Exec(n, AckOne(a));
    ReachesThen(s, n, AckOne(a), p);
    z := Exec(p, AckOne(b + 1));
    ReachesThen(s, p, AckOne(b + 1), z);
    FirstNone(z, 0, RINGS, b);
  }

  lemma ReachesInv(s: State, z: State)
    requires Shootdown.Init(s) && Reaches(s, z)
    ensures Inv(z)
  {
    var ts :| Shootdown.Valid(s, ts) && Shootdown.After(s, ts) == z;
    Shootdown.RunKeeps(s, ts);
  }
}
