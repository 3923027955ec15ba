/**
 Posted interrupts to one core: the senders of libdune/apic.c and kern/vmx.c, the host's
 drain before VM entry, the processor's own processing of the notification in
 the guest, and the guest's handler for the IPI vector.
 */
module PostedInterrupts {
  type Id = int // one message and the post that follows it
  type Vector = int

  const IPI_VECTOR := 0xf1
  const RINGS := 128
  const WORDS := 4

  /** The 64-bit descriptor word that holds a vector's bit. */
  function WordOf(v: Vector): int { v / 64 }

  /** dune_apic_send_posted_ipi: before the message is queued, before the bit of its
      vector, before the outstanding bit, before the notification, returned. */
  datatype Stage = Start | Posting | SetOn | Notify | Done

  datatype Sender = Sender(at: Stage, src: int, vector: Vector)

  /** The vCPU thread: in the host before the drain, i words drained, in the guest, or in
      the guest with the processor i words into its processing of the notification. */
  datatype Point = Out | Drain(i: int) | In | Process(i: int)

  /** The guest's handler, in its first or second pass over the rings. */
  datatype Hand = Idle | Collecting(pass: int, ring: int)

  /** pir and on are the descriptor; note is the notification vector pending at the
      target's APIC; took holds vectors on their way to virr, the guest's pending vectors;
      queue the messages in the rings. */
  datatype State = State(pir: set<Vector>, on: bool, note: bool, took: set<Vector>, virr: set<Vector>,
                         at: Point, hand: Hand, snd: map<Id, Sender>, queue: set<Id>)

  /** known says that the target's APIC route can be looked up: the error test of line 188. */
  datatype Config = Config(known: bool)

  datatype Step =
    | Begin(r: Id, src: int, v: Vector) | Enqueue(r: Id) | SetVector(r: Id) | SetOutstanding(r: Id) | Send(r: Id)
    | DrainStart | NoDrain | TakeWord | Enter | Exit | IgnoreNote // the host
    | ProcessStart | ProcessWord | ProcessEnd // the processor
    | Deliver | DeliverOther(v: Vector) | CollectRing | NextPass | Return // the guest

  predicate AtStage(s: State, r: Id, g: Stage) { r in s.snd && s.snd[r].at == g }

  predicate Enabled(k: Config, s: State, t: Step) {
    match t
    case Begin(r, src, v) => r !in s.snd && 0 <= src < RINGS && 0 <= v < 64 * WORDS
    case Enqueue(r) => AtStage(s, r, Start)
    case SetVector(r) => AtStage(s, r, Posting)
    case SetOutstanding(r) => AtStage(s, r, SetOn)
    case Send(r) => AtStage(s, r, Notify)
    case DrainStart => s.at.Out? && s.on
    case NoDrain => s.at.Out? && !s.on
    case TakeWord => s.at.Drain? && s.at.i < WORDS
    case Enter => s.at.Drain? && s.at.i == WORDS
    case Exit => s.at.In?
    case IgnoreNote => s.at.Out? && s.note
    case ProcessStart => s.at.In? && s.note
    case ProcessWord => s.at.Process? && s.at.i < WORDS
    case ProcessEnd => s.at.Process? && s.at.i == WORDS
    case Deliver => s.at.In? && s.hand.Idle? && IPI_VECTOR in s.virr
    case DeliverOther(v) => s.at.In? && s.hand.Idle? && v in s.virr && v != IPI_VECTOR
    case CollectRing => s.at.In? && s.hand.Collecting? && s.hand.ring < RINGS
    case NextPass => s.at.In? && s.hand.Collecting? && s.hand.ring == RINGS && s.hand.pass == 1
    case Return => s.at.In? && s.hand.Collecting? && s.hand.ring == RINGS && s.hand.pass == 2
  }

  function Goto(s: State, r: Id, g: Stage): State
    requires r in s.snd
  {
    s.(snd := s.snd[r := s.snd[r].(at := g)])
  }

  /** Exchange one descriptor word with zero. */
  function Take(s: State, i: int): State {
    s.(took := s.took + (set v | v in s.pir && WordOf(v) == i), pir := set v | v in s.pir && WordOf(v) != i)
  }

  function Exec(k: Config, s: State, t: Step): State
    requires Enabled(k, s, t)
  {
    match t
    case Begin(r, src, v) => s.(snd := s.snd[r := Sender(Start, src, v)])
    case Enqueue(r) => Goto(s, r, Posting).(queue := if s.snd[r].vector == IPI_VECTOR then s.queue + {r} else s.queue)
    case SetVector(r) => Goto(s, r, if s.snd[r].vector in s.pir then Done
        else SetOn).(pir := s.pir + {s.snd[r].vector})
    case SetOutstanding(r) => Goto(s, r, if s.on then Done else Notify).(on := true)
    case Send(r) => Goto(s, r, Done).(note := s.note || k.known)
    case DrainStart => s.(at := Drain(0), on := false)
    case NoDrain => s.(at := In)
    case TakeWord => Take(s, s.at.i).(at := Drain(s.at.i + 1))
    case Enter => s.(at := In, virr := s.virr + s.took, took := {})
    case Exit => s.(at := Out)
    case IgnoreNote => s.(note := false)
    case ProcessStart => s.(at := Process(0), on := false, note := false)
    case ProcessWord => Take(s, s.at.i).(at := Process(s.at.i + 1))
    case ProcessEnd => s.(at := In, virr := s.virr + s.took, took := {})
    case Deliver => s.(virr := s.virr - {IPI_VECTOR}, hand := Collecting(1, 0))
    case DeliverOther(v) => s.(virr := s.virr - {v})
    case CollectRing =>
      s.(hand := Collecting(s.hand.pass, s.hand.ring + 1),
         queue := set r | r in s.queue && !(r in s.snd && s.snd[r].src == s.hand.ring))
    case NextPass => s.(hand := Collecting(2, 0))
    case Return => s.(hand := Idle)
  }

  predicate Init(s: State) {
    && s.pir == {} && !s.on && !s.note && s.took == {} && s.virr == {} && s.at.Out? && s.hand.Idle?
    && s.snd == map[] && s.queue == {}
  }

  // ---- The invariant ----

  /** The words that a drain or the processor has still to take. */
  predicate StillToTake(p: Point, v: Vector) { (p.Drain? || p.Process?) && p.i <= WordOf(v) < WORDS }

  predicate SomeSender(s: State, g: Stage) { exists r <- s.snd :: s.snd[r].at == g }

  /** A set vector bit is covered by the outstanding bit, by a sender about to set it, or by a drain in progress. */
  predicate BitCovered(s: State, v: Vector) { v in s.pir ==> s.on || SomeSender(s, SetOn) || StillToTake(s.at, v) }

  /** The outstanding bit is covered by a notification, by a sender about to send it, or by the coming drain. */
  predicate OnCovered(s: State) { s.on ==> s.note || SomeSender(s, Notify) || s.at.Out? }

  /** The handler in progress will still look at the ring of source core src. */
  predicate WillCollect(h: Hand, src: int) { h.Collecting? && (h.pass == 1 || h.ring <= src) }

  /** The message of r has been queued and its post has set the vector bit. */
  predicate Posted(s: State, r: Id) { r in s.snd && (s.snd[r].at.SetOn? || s.snd[r].at.Notify? || s.snd[r].at.Done?) }

  predicate MessageCovered(s: State, r: Id) {
    r in s.queue && Posted(s, r) ==>
      IPI_VECTOR in s.pir || IPI_VECTOR in s.took || IPI_VECTOR in s.virr || WillCollect(s.hand, s.snd[r].src)
  }

  predicate Shape(s: State) {
    && (s.took != {} ==> s.at.Drain? || s.at.Process?)
    && (s.at.Drain? || s.at.Process? ==> 0 <= s.at.i <= WORDS)
    && (s.hand.Collecting? ==> s.hand.pass == 1 || s.hand.pass == 2)
    && (forall r <- s.queue :: r in s.snd && !s.snd[r].at.Start? && s.snd[r].vector == IPI_VECTOR)
    && (forall r <- s.snd :: 0 <= s.snd[r].src < RINGS && 0 <= s.snd[r].vector < 64 * WORDS)
    && (forall v <- s.pir :: 0 <= v < 64 * WORDS)
  }

  ghost predicate Inv(s: State) {
    Shape(s) && OnCovered(s) && (forall v :: BitCovered(s, v)) && forall r :: MessageCovered(s, r)
  }

  // ---- Every step keeps it ----

  predicate OfSender(t: Step) { t.Begin? || t.Enqueue? || t.SetVector? || t.SetOutstanding? || t.Send? }

  /** A sender's step changes that sender only. */
  function Sends(t: Step): Id
    requires OfSender(t)
  {
    t.r
  }

  lemma OthersStay(k: Config, s: State, s': State, t: Step, g: Stage)
    requires OfSender(t) && Enabled(k, s, t) && s' == Exec(k, s, t) && SomeSender(s, g)
    ensures SomeSender(s', g) || (Sends(t) in s.snd && s.snd[Sends(t)].at == g)
  {
    var r :| r in s.snd && s.snd[r].at == g;
    if r != Sends(t) { assert s'.snd[r].at == g; }
  }

  lemma SenderCovers(k: Config, s: State, s': State, t: Step)
    requires Inv(s) && k.known && OfSender(t) && Enabled(k, s, t) && s' == Exec(k, s, t)
    ensures OnCovered(s') && forall v :: BitCovered(s', v)
  {
    var r := Sends(t);
    assert r in s'.snd;
    if SomeSender(s, SetOn) { OthersStay(k, s, s', t, SetOn); }
    if SomeSender(s, Notify) { OthersStay(k, s, s', t, Notify); }
    forall v ensures BitCovered(s', v) { assert BitCovered(s, v); }
  }

  lemma SenderKeeps(k: Config, s: State, s': State, t: Step)
    requires Inv(s) && k.known && OfSender(t) && Enabled(k, s, t) && s' == Exec(k, s, t)
    ensures Inv(s')
  {
    SenderCovers(k, s, s', t);
    forall r ensures MessageCovered(s', r) { assert MessageCovered(s, r); }
  }

  lemma SameSenders(s: State, s': State, g: Stage)
    requires s'.snd == s.snd
    ensures SomeSender(s', g) == SomeSender(s, g)
  {}

  lemma TargetKeeps(k: Config, s: State, s': State, t: Step)
    requires Inv(s) && !OfSender(t) && Enabled(k, s, t) && s' == Exec(k, s, t)
    ensures Inv(s')
  {
    SameSenders(s, s', SetOn);
    SameSenders(s, s', Notify);
    forall v ensures BitCovered(s', v) { assert BitCovered(s, v); }
    forall r ensures MessageCovered(s', r) { assert MessageCovered(s, r); }
  }

  lemma StepKeeps(k: Config, s: State, t: Step)
    requires Inv(s) && k.known && Enabled(k, s, t)
    ensures Inv(Exec(k, s, t))
  {
    if OfSender(t) { SenderKeeps(k, s, Exec(k, s, t), t); } else { TargetKeeps(k, s, Exec(k, s, t), t); }
  }

  // ---- Runs ----

  predicate Valid(k: Config, s: State, ts: seq<Step>)
    decreases |ts|
  {
    ts == [] || (Enabled(k, s, ts[0]) && Valid(k, Exec(k, s, ts[0]), ts[1..]))
  }

  function After(k: Config, s: State, ts: seq<Step>): State
    requires Valid(k, s, ts)
    decreases |ts|
  {
    if ts == [] then s else After(k, Exec(k, s, ts[0]), ts[1..])
  }

  lemma {:induction false} RunKeeps(k: Config, s: State, ts: seq<Step>)
    requires Inv(s) && k.known && Valid(k, s, ts)
    ensures Inv(After(k, s, ts))
    decreases |ts|
  {
    if ts != [] {
      StepKeeps(k, s, ts[0]);
      RunKeeps(k, Exec(k, s, ts[0]), ts[1..]);
    }
  }

  /** The guest runs its own code with nothing on the way to it: no notification, no
      pending vector, no handler, no sender in the middle of a post. */
  predicate Quiet(s: State) {
    && s.at.In? && s.hand.Idle? && !s.note && IPI_VECTOR !in s.virr
    && forall r <- s.snd :: s.snd[r].at.Start? || s.snd[r].at.Posting? || s.snd[r].at.Done?
  }

  /** A message is left behind: queued and posted, but the core is quiet. */
  predicate LostWakeUp(s: State, r: Id) { Quiet(s) && r in s.queue && Posted(s, r) }

  /** In every interleaving of senders, drains and deliveries, a posted message that is
      still queued has its vector bit, the transfer of it, or a handler still ahead; so no wake-up is ever lost. */
  lemma NoLostWakeUp(k: Config, s: State, ts: seq<Step>, v: Vector, r: Id)
    requires Init(s) && k.known && Valid(k, s, ts)
    ensures var z := After(k, s, ts);
            BitCovered(z, v) && OnCovered(z) && MessageCovered(z, r) && !LostWakeUp(z, r)
  {
    assert Inv(s);
    RunKeeps(k, s, ts);
    var z := After(k, s, ts);
    assert BitCovered(z, v) && BitCovered(z, IPI_VECTOR) && MessageCovered(z, r);
  }

  // ---- A target without a known route ----

  /** One sender, alone, against a core that sits in the guest. */
  function Lone(r: Id): seq<Step> {
    [NoDrain, Begin(r, 0, IPI_VECTOR), Enqueue(r), SetVector(r), SetOutstanding(r), Send(r)]
  }

  ghost predicate AlwaysWakes(k: Config, s: State) {
    forall ts, r :: Valid(k, s, ts) ==> !LostWakeUp(After(k, s, ts), r)
  }

  /** No wake-up is lost in any run if and only if the route is known: otherwise one
      post is enough to leave a message behind. */
  lemma RouteExact(k: Config, s: State)
    requires Init(s)
    ensures AlwaysWakes(k, s) <==> k.known
  {
    if k.known {
      forall ts, r | Valid(k, s, ts) ensures !LostWakeUp(After(k, s, ts), r) { NoLostWakeUp(k, s, ts, 0, r); }
    } else {
      LonePost(k, s, 0);
      assert !AlwaysWakes(k, s);
    }
  }

  lemma LonePost(k: Config, s: State, r: Id)
    requires Init(s) && !k.known
    ensures Valid(k, s, Lone(r)) && LostWakeUp(After(k, s, Lone(r)), r)
  {
    var s1 := Exec(k, s, NoDrain);
    var s2 := Exec(k, s1, Begin(r, 0, IPI_VECTOR));
    var s3 := Exec(k, s2, Enqueue(r));
    var s4 := Exec(k, s3, SetVector(r));
    var s5 := Exec(k, s4, SetOutstanding(r));
    var s6 := Exec(k, s5, Send(r));
    var post := [SetVector(r), SetOutstanding(r), Send(r)];
    Prepend(k, s5, Send(r), []);
    Prepend(k, s4, SetOutstanding(r), [Send(r)]);
    Prepend(k, s3, SetVector(r), [SetOutstanding(r), Send(r)]);
    Prepend(k, s2, Enqueue(r), post);
    Prepend(k, s1, Begin(r, 0, IPI_VECTOR), [Enqueue(r)] + post);
    Prepend(k, s, NoDrain, [Begin(r, 0, IPI_VECTOR)] + ([Enqueue(r)] + post));
    assert LostWakeUp(s6, r);
    assert Lone(r) == [NoDrain] + ([Begin(r, 0, IPI_VECTOR)] + ([Enqueue(r)] + post));
  }

  lemma Prepend(k: Config, s: State, t: Step, ts: seq<Step>)
    requires Enabled(k, s, t) && Valid(k, Exec(k, s, t), ts)
    ensures Valid(k, s, [t] + ts) && After(k, s, [t] + ts) == After(k, Exec(k, s, t), ts)
  {
    assert ([t] + ts)[1..] == ts;
  }
}
