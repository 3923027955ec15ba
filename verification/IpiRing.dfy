/**
 One message ring of libdune/ipi_call.c, from one source core to one target
 core, with every load and store of its producer and its consumer a step of its own.
 */
module IpiRing {
  const RING_SIZE := 4
  const WORDS := 3 // func, type and arg

  /** A message as the words that the structure copy moves one by one. */
  type Message = seq<int>

  /** dune_queue_ipi_call_fast: idle, head loaded, tail loaded, j words of the slot stored. */
  datatype Producer = Rest | HeadLoaded(msg: Message, h: int) | Decide(msg: Message, h: int,
      t: int) | Storing(msg: Message, h: int, t: int, j: int)

  /** dune_collect_ipi_messages: idle, head loaded, i messages and j words of the next one copied. */
  datatype Consumer = Idle | Began(h: int) | Copying(h: int, t: int, done: seq<Message>, part: Message)

  /** sent and got are history: the messages accepted, and those handed to the consumer's caller. */
  datatype State = State(head: int, tail: int, buf: seq<Message>, p: Producer, c: Consumer,
                         sent: seq<Message>, got: seq<Message>)

  datatype Step =
    | LoadHead(msg: Message) | LoadTail | Refuse | Accept | StoreWord | AdvanceTail
    | Begin | Empty | Start | CopyWord | NextMessage | AdvanceHead

  predicate Enabled(s: State, t: Step) {
    match t
    case LoadHead(msg) => s.p.Rest? && |msg| == WORDS
    case LoadTail => s.p.HeadLoaded?
    case Refuse => s.p.Decide? && s.p.t - s.p.h >= RING_SIZE
    case Accept => s.p.Decide? && s.p.t - s.p.h < RING_SIZE
    case StoreWord => s.p.Storing? && 0 <= s.p.j < |s.p.msg| && Slot(s.p.t) < |s.buf| && s.p.j < |s.buf[Slot(s.p.t)]|
    case AdvanceTail => s.p.Storing? && s.p.j == WORDS
    case Begin => s.c.Idle?
    case Empty => s.c.Began? && s.c.h == s.tail
    case Start => s.c.Began? && s.c.h != s.tail
    case CopyWord => s.c.Copying? && |s.c.done| < s.c.t - s.c.h && |s.c.part| < WORDS && Readable(s)
    case NextMessage => s.c.Copying? && |s.c.part| == WORDS
    case AdvanceHead => s.c.Copying? && |s.c.done| == s.c.t - s.c.h && s.c.part == []
  }

  function Slot(n: int): int { n % RING_SIZE }

  predicate Readable(s: State) {
    s.c.Copying? && Slot(s.c.h + |s.c.done|) < |s.buf| && |s.c.part| < |s.buf[Slot(s.c.h + |s.c.done|)]|
  }

  function Exec(s: State, t: Step): State
    requires Enabled(s, t)
  {
    match t
    case LoadHead(msg) => s.(p := HeadLoaded(msg, s.head))
    case LoadTail => s.(p := Decide(s.p.msg, s.p.h, s.tail))
    case Refuse => s.(p := Rest)
    case Accept => s.(p := Storing(s.p.msg, s.p.h, s.p.t, 0))
    case StoreWord =>
      s.(p := s.p.(j := s.p.j + 1), buf := s.buf[Slot(s.p.t) := s.buf[Slot(s.p.t)][s.p.j := s.p.msg[s.p.j]]])
    case AdvanceTail => s.(p := Rest, tail := s.tail + 1, sent := s.sent + [s.p.msg])
    case Begin => s.(c := Began(s.head))
    case Empty => s.(c := Idle)
    case Start => s.(c := Copying(s.c.h, s.tail, [], []))
    case CopyWord => s.(c := s.c.(part := s.c.part + [s.buf[Slot(s.c.h + |s.c.done|)][|s.c.part|]]))
    case NextMessage => s.(c := s.c.(done := s.c.done + [s.c.part], part := []))
    case AdvanceHead => s.(c := Idle, head := s.head + (s.c.t - s.c.h), got := s.got + s.c.done)
  }

  predicate Init(s: State) {
    && s.head == 0 && s.tail == 0 && s.p.Rest? && s.c.Idle? && s.sent == [] && s.got == []
    && |s.buf| == RING_SIZE && forall i :: 0 <= i < RING_SIZE ==> |s.buf[i]| == WORDS
  }

  // ---- The invariant ----

  predicate Shape(s: State) {
    && |s.buf| == RING_SIZE && (forall i :: 0 <= i < RING_SIZE ==> |s.buf[i]| == WORDS)
    && s.head == |s.got| && s.tail == |s.sent| && 0 <= s.tail - s.head <= RING_SIZE
    && forall n :: 0 <= n < |s.sent| ==> |s.sent[n]| == WORDS
  }

  predicate ProducerOk(s: State)
    requires Shape(s)
  {
    match s.p
    case Rest => true
    case HeadLoaded(msg, h) => |msg| == WORDS && h <= s.head
    case Decide(msg, h, t) => |msg| == WORDS && h <= s.head && t == s.tail
    case Storing(msg, h, t, j) =>
      && |msg| == WORDS && t == s.tail && t - s.head < RING_SIZE && 0 <= j <= WORDS
      && s.buf[Slot(t)][..j] == msg[..j]
  }

  predicate ConsumerOk(s: State)
    requires Shape(s)
  {
    match s.c
    case Idle => true
    case Began(h) => h == s.head
    case Copying(h, t, done, part) =>
      && h == s.head && h < t <= s.tail && |done| <= t - h && |part| <= WORDS
      && done == s.sent[h..h + |done|]
      && (|done| < t - h ==> part == s.sent[h + |done|][..|part|])
      && (|done| == t - h ==> part == [])
  }

  /** Slot by slot, the ring holds the messages accepted and not yet collected. */
  predicate Inv(s: State) {
    && Shape(s) && ProducerOk(s) && ConsumerOk(s)
    && s.got == s.sent[..s.head]
    && forall n :: s.head <= n < s.tail ==> s.buf[Slot(n)] == s.sent[n]
  }

  lemma OtherSlot(n: int, t: int, head: int)
    requires head <= n < t && t - head < RING_SIZE
    ensures Slot(n) != Slot(t)
  {}

  lemma ProducerKeeps(s: State, t: Step)
    requires Inv(s) && Enabled(s, t) && (t.LoadHead? || t.LoadTail? || t.Refuse? || t.Accept?)
    ensures Inv(Exec(s, t))
  {}

  lemma StoreKeeps(s: State)
    requires Inv(s) && Enabled(s, StoreWord)
    ensures Inv(Exec(s, StoreWord))
  {
    var s' := Exec(s, StoreWord);
    forall n | s'.head <= n < s'.tail ensures s'.buf[Slot(n)] == s'.sent[n] { OtherSlot(n, s.p.t, s.head); }
  }

  lemma TailKeeps(s: State)
    requires Inv(s) && Enabled(s, AdvanceTail)
    ensures Inv(Exec(s, AdvanceTail))
  {
    var s' := Exec(s, AdvanceTail);
    assert s.buf[Slot(s.tail)] == s.p.msg;
    forall n | s'.head <= n < s'.tail ensures s'.buf[Slot(n)]
        == s'.sent[n] { assert n < s.tail ==> s.sent[n] == s'.sent[n]; }
  }

  lemma ConsumerKeeps(s: State, t: Step)
    requires Inv(s) && Enabled(s, t) && (t.Begin? || t.Empty? || t.Start? || t.CopyWord? || t.NextMessage?)
    ensures Inv(Exec(s, t))
  {
    if t.NextMessage? {
      var n := s.c.h + |s.c.done|;
      assert s.sent[n][..WORDS] == s.sent[n];
      assert s.sent[s.c.h..n + 1] == s.sent[s.c.h..n] + [s.sent[n]];
    }
  }

  lemma HeadKeeps(s: State)
    requires Inv(s) && Enabled(s, AdvanceHead)
    ensures Inv(Exec(s, AdvanceHead))
  {
    assert s.sent[..s.head] + s.sent[s.head..s.c.t] == s.sent[..s.c.t];
  }

  lemma StepKeeps(s: State, t: Step)
    requires Inv(s) && Enabled(s, t)
    ensures Inv(Exec(s, t))
  {
    match t
    case StoreWord => StoreKeeps(s);
    case AdvanceTail => TailKeeps(s);
    case AdvanceHead => HeadKeeps(s);
    case LoadHead(_) => ProducerKeeps(s, t);
    case LoadTail => ProducerKeeps(s, t);
    case Refuse => ProducerKeeps(s, t);
    case Accept => ProducerKeeps(s, t);
    case _ => ConsumerKeeps(s, t);
  }

  // ---- The ring is a bounded queue ----

  /** The queue that head, tail and the slots stand for. */
  function Queue(s: State): (q: seq<Message>)
    requires 0 <= s.tail - s.head && |s.buf| == RING_SIZE
    ensures |q| == s.tail - s.head
  {
    seq(s.tail - s.head, i => s.buf[Slot(s.head + i)])
  }

  lemma QueueIs(s: State)
    requires Inv(s)
    ensures Queue(s) == s.sent[s.head..s.tail]
  {}

  /** Every step either leaves the queue alone, or appends the producer's message to a
      queue of fewer than 4, or takes from its front the messages the consumer copied. */
  lemma StepRefines(s: State, t: Step)
    requires Inv(s) && Enabled(s, t)
    ensures Inv(Exec(s, t))
    ensures t.AdvanceTail? ==> |Queue(s)| < RING_SIZE && Queue(Exec(s, t)) == Queue(s) + [s.p.msg]
    ensures t.AdvanceHead? ==>
        0 < |s.c.done| <= |Queue(s)| && s.c.done == Queue(s)[..|s.c.done|]
        && Queue(Exec(s, t)) == Queue(s)[|s.c.done|..]
    ensures !t.AdvanceTail? && !t.AdvanceHead? ==> Queue(Exec(s, t)) == Queue(s)
  {
    StepKeeps(s, t);
    QueueIs(s);
    QueueIs(Exec(s, t));
  }

  // ---- Runs ----

  predicate Valid(s: State, ts: seq<Step>)
    decreases |ts|
  {
    ts == [] || (Enabled(s, ts[0]) && Valid(Exec(s, ts[0]), ts[1..]))
  }

  function After(s: State, ts: seq<Step>): State
    requires Valid(s, ts)
    decreases |ts|
  {
    if ts == [] then s else After(Exec(s, ts[0]), ts[1..])
  }

  lemma {:induction false} RunKeeps(s: State, ts: seq<Step>)
    requires Inv(s) && Valid(s, ts)
    ensures Inv(After(s, ts))
    decreases |ts|
  {
    if ts != [] {
      StepKeeps(s, ts[0]);
      RunKeeps(Exec(s, ts[0]), ts[1..]);
    }
  }

  /** In every interleaving: what the consumer got, followed by what the ring holds,
      is what the producer had accepted, in order; the ring holds at most 4; and a
      collection in progress is at most 4 messages long and copies them intact. */
  lemma FirstInFirstOut(s: State, ts: seq<Step>)
    requires Init(s) && Valid(s, ts)
    ensures var z := After(s, ts);
            && 0 <= z.tail - z.head <= RING_SIZE && |z.buf| == RING_SIZE
            && z.sent == z.got + Queue(z)
            && (z.c.Copying? ==> z.c.t - z.c.h <= RING_SIZE && z.c.done <= Queue(z))
  {
    RunKeeps(s, ts);
    QueueIs(After(s, ts));
  }

  // ---- All the rings of one target ----

  const RINGS := 128
  const SLOTS := RING_SIZE * RINGS

  /** One ring's collection under way: how many messages it hands to the handler. */
  function Size(s: State): int { if s.c.Copying? then s.c.t - s.c.h else 0 }

  function Total(sizes: seq<int>): int { if sizes == [] then 0 else Total(sizes[..|sizes| - 1]) + sizes[|sizes| - 1] }

  lemma {:induction false} TotalBound(sizes: seq<int>)
    requires forall i :: 0 <= i < |sizes| ==> 0 <= sizes[i] <= RING_SIZE
    ensures 0 <= Total(sizes) <= RING_SIZE * |sizes|
  {
    if sizes != [] { TotalBound(sizes[..|sizes| - 1]); }
  }

  /** However the producers of the 128 rings interleave with a pass over them, what the pass collects fits the
      handler's buffer: ss are the rings' first states, runs what has happened to each when its collection starts
      copying. */
  lemma BufferHolds(ss: seq<State>, runs: seq<seq<Step>>, sizes: seq<int>)
    requires |ss| == |runs| == |sizes| == RINGS && forall i :: 0 <= i < RINGS ==> Init(ss[i]) && Valid(ss[i], runs[i])
    requires forall i :: 0 <= i < RINGS ==> sizes[i] == Size(After(ss[i], runs[i]))
    ensures Total(sizes) <= SLOTS
  {
    forall i | 0 <= i < RINGS ensures 0 <= sizes[i] <= RING_SIZE { RunKeeps(ss[i], runs[i]); }
    TotalBound(sizes);
  }

  /** The producer is refused only if the ring held exactly 4 messages when it loaded head. */
  lemma RefusedWhenFull(s: State, msg: Message, ts: seq<Step>)
    requires Inv(s) && Enabled(s, LoadHead(msg)) && Valid(Exec(s, LoadHead(msg)), ts)
    requires forall i :: 0 <= i < |ts| ==> !ts[i].AdvanceTail? && !ts[i].LoadHead? && !ts[i].Refuse?
    requires Enabled(After(Exec(s, LoadHead(msg)), ts), Refuse)
    ensures |Queue(s)| == RING_SIZE
  {
    HoldsHead(Exec(s, LoadHead(msg)), ts, s.head, s.tail);
  }

  lemma {:induction false} HoldsHead(s: State, ts: seq<Step>, h: int, t: int)
    requires Valid(s, ts) && s.tail == t && (s.p.HeadLoaded? || s.p.Decide?) && s.p.h == h
    requires s.p.Decide? ==> s.p.t == t
    requires forall i :: 0 <= i < |ts| ==> !ts[i].AdvanceTail? && !ts[i].LoadHead? && !ts[i].Refuse?
    ensures var z := After(s, ts); z.p.Decide? ==> z.p.h == h && z.p.t == t
    decreases |ts|
  {
    if ts != [] {
      var z := Exec(s, ts[0]);
      if z.p.HeadLoaded? || z.p.Decide? {
        HoldsHead(z, ts[1..], h, t);
      } else {
        StaysStoring(z, ts[1..]);
      }
    }
  }

  lemma {:induction false} StaysStoring(s: State, ts: seq<Step>)
    requires Valid(s, ts) && (s.p.Storing? || s.p.Rest?)
    requires forall i :: 0 <= i < |ts| ==> !ts[i].AdvanceTail? && !ts[i].LoadHead? && !ts[i].Refuse?
    ensures !After(s, ts).p.Decide?
    decreases |ts|
  {
    if ts != [] { StaysStoring(Exec(s, ts[0]), ts[1..]); }
  }
}
