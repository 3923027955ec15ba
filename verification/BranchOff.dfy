/**
 The table switch of dune_fast_spawn_on_snapshot (libdune/fast_spawn.c): one core goes
 over all others and makes each one that runs a main thread load the new root, by a
 request in its flag word or by an interrupt message.
 */
module BranchOff {
  import opened PvFlag

  const CPUS := 128

  datatype ThreadState = NoThread | Main | PgtblCopy | Snapshot

  /** cpu is the core that branches off, root the new main root. */
  datatype Config = Config(cpu: int, root: Root)

  /** Where the loops of lines 786-836 stand, and the flag word last read. */
  datatype Loop =
    | Scan(i: int) | TryPost(i: int, seen: Word) | Send(i: int)
    | Wait(i: int) | WaitPost(i: int, seen: Word) | Own | Finished

  /** queued, loaded and done say on which cores the message is in the ring, has loaded
      CR3 and has set done; sent is sent_ipi. As history, visited and skipped are the cores
      whose thread state called for a switch, and those whose did not. warm are the cores whose TLB may hold
      translations that were filled on another root: a load of CR3 by the guest and a flush by the host drop
      them, a new CR3 written by the host does not. */
  datatype State = State(cores: map<int, Core>, threads: map<int, ThreadState>, loop: Loop,
                         queued: set<int>, loaded: set<int>, done: set<int>, sent: set<int>,
                         visited: set<int>, skipped: set<int>, warm: set<int>)

  datatype Step =
    | PassOwn | PassOther | Look | PostHit | PostMiss | Queue(full: bool) | ScanEnd
    | PassUnsent | SeeDone | WaitLook | WaitHit | WaitMiss | WaitEnd | LoadOwn
    | SetThread(c: int, t: ThreadState)
    | Target(c: int, m: Move) | RunMessage(c: int) | AckMessage(c: int)

  predicate Concerns(t: ThreadState) { t.Main? || t.PgtblCopy? }

  predicate Complete(k: Config, s: State) {
    && (forall c :: 0 <= c < CPUS ==> c in s.cores && c in s.threads)
    && 0 <= k.cpu < CPUS
  }

  /** The target's own moves and other requesters' flushes. Only the switch itself changes roots. */
  predicate Unrelated(m: Move) { !m.Post? && !m.GuestLoad? }

  predicate At(s: State, i: int) { 0 <= i < CPUS && i in s.cores && i in s.threads }

  predicate Enabled(k: Config, s: State, t: Step) {
    match t
    case PassOwn => s.loop.Scan? && s.loop.i < CPUS && s.loop.i == k.cpu
    case PassOther => s.loop.Scan? && At(s, s.loop.i) && s.loop.i != k.cpu && !Concerns(s.threads[s.loop.i])
    case Look => s.loop.Scan? && At(s, s.loop.i) && s.loop.i != k.cpu && Concerns(s.threads[s.loop.i])
    case PostHit => s.loop.TryPost? && At(s, s.loop.i) && s.cores[s.loop.i].word == s.loop.seen && s.loop.seen.host
    case PostMiss => s.loop.TryPost? && At(s, s.loop.i) && s.cores[s.loop.i].word != s.loop.seen
    case Queue(_) => s.loop.Send?
    case ScanEnd => s.loop.Scan? && s.loop.i == CPUS
    case PassUnsent => s.loop.Wait? && s.loop.i < CPUS && s.loop.i !in s.sent
    case SeeDone => s.loop.Wait? && s.loop.i < CPUS && s.loop.i in s.sent && s.loop.i in s.done
    case WaitLook => s.loop.Wait? && At(s, s.loop.i) && s.loop.i in s.sent && s.loop.i !in s.done
    case WaitHit => s.loop.WaitPost? && At(s, s.loop.i) && s.cores[s.loop.i].word == s.loop.seen && s.loop.seen.host
    case WaitMiss => s.loop.WaitPost? && At(s, s.loop.i) && s.cores[s.loop.i].word != s.loop.seen
    case WaitEnd => s.loop.Wait? && s.loop.i == CPUS
    case LoadOwn => s.loop.Own? && k.cpu in s.cores && Can(s.cores[k.cpu], GuestLoad(k.root))
    case SetThread(c, _) => c in s.threads
    case Target(c, m) => c in s.cores && Unrelated(m) && Can(s.cores[c], m)
    case RunMessage(c) => c in s.queued && c in s.cores && Can(s.cores[c], GuestLoad(k.root))
    case AckMessage(c) => c in s.loaded
  }

  function Request(k: Config, s: State, c: int): map<int, Core>
    requires c in s.cores && s.cores[c].word.host
  {
    s.cores[c := Do(s.cores[c], Post(s.cores[c].word, k.root))]
  }

  function Kept(k: Config, s: State, c: int, m: Move): set<int>
    requires c in s.cores
  {
    if m.Sync? then s.warm - {c} else if m.Enter? && s.cores[c].cr3 != k.root then s.warm + {c} else s.warm
  }

  function Exec(k: Config, s: State, t: Step): State
    requires Enabled(k, s, t)
  {
    match t
    case PassOwn => s.(loop := Scan(s.loop.i + 1))
    case PassOther => s.(loop := Scan(s.loop.i + 1), skipped := s.skipped + {s.loop.i})
    case Look =>
      var w := s.cores[s.loop.i].word;
      s.(loop := if w.host then TryPost(s.loop.i, w) else Send(s.loop.i), visited := s.visited + {s.loop.i})
    case PostHit => s.(loop := Scan(s.loop.i + 1), cores := Request(k, s, s.loop.i))
    case PostMiss => s.(loop := Send(s.loop.i))
    case Queue(full) =>
      s.(loop := Scan(s.loop.i + 1), sent := s.sent + {s.loop.i}, done := s.done - {s.loop.i},
         queued := if full then s.queued else s.queued + {s.loop.i})
    case ScanEnd => s.(loop := Wait(0))
    case PassUnsent => s.(loop := Wait(s.loop.i + 1))
    case SeeDone => s.(loop := Wait(s.loop.i + 1))
    case WaitLook =>
      var w := s.cores[s.loop.i].word;
      s.(loop := if w.host then WaitPost(s.loop.i, w) else Wait(s.loop.i))
    case WaitHit => s.(loop := Wait(s.loop.i + 1), cores := Request(k, s, s.loop.i))
    case WaitMiss => s.(loop := Wait(s.loop.i))
    case WaitEnd => s.(loop := Own)
    case LoadOwn => s.(loop := Finished, cores := s.cores[k.cpu := Do(s.cores[k.cpu], GuestLoad(k.root))],
        warm := s.warm - {k.cpu})
    case SetThread(c, t) => s.(threads := s.threads[c := t])
    case Target(c, m) => s.(cores := s.cores[c := Do(s.cores[c], m)], warm := Kept(k, s, c, m))
    case RunMessage(c) =>
      s.(cores := s.cores[c := Do(s.cores[c], GuestLoad(k.root))], queued := s.queued - {c},
          loaded := s.loaded + {c}, warm := s.warm - {c})
    case AckMessage(c) => s.(loaded := s.loaded - {c}, done := s.done + {c})
  }

  /** Before the switch: no message of it is under way. */
  predicate Init(k: Config, s: State) {
    && Complete(k, s) && (forall c <- s.cores :: Ok(s.cores[c]))
    && (forall c <- s.cores :: s.cores[c].at.Inside? && s.cores[c].cr3 != k.root ==> c in s.warm)
    && s.loop == Scan(0) && s.queued == {} && s.loaded == {} && s.sent == {} && s.visited == {} && s.skipped == {}
  }

  // ---- The invariant ----

  /** The core was told to use the new root, and nothing else since. */
  predicate Told(k: Config, s: State, c: int) { c in s.cores && s.cores[c].latest == k.root }

  /** The cores that the first loop has passed, and those that both loops have. */
  function Passed(l: Loop): int {
    match l
    case Scan(i) => i
    case TryPost(i, _) => i
    case Send(i) => i
    case _ => CPUS
  }

  function Waited(l: Loop): int {
    match l
    case Wait(i) => i
    case WaitPost(i, _) => i
    case Own => CPUS
    case Finished => CPUS
    case _ => 0
  }

  predicate CoreOk(k: Config, s: State, c: int) {
    && (c < Passed(s.loop) && c in s.visited ==> c in s.sent || Told(k, s, c))
    && (c < Waited(s.loop) && c in s.sent ==> Told(k, s, c))
    && (c in s.loaded ==> Told(k, s, c) && c !in s.warm)
    && (c in s.done && c in s.sent ==> Told(k, s, c) && c !in s.warm)
    && (0 <= c < Passed(s.loop) && c != k.cpu ==> c in s.visited || c in s.skipped)
    && (c >= Passed(s.loop) ==> c !in s.sent && c !in s.queued && c !in s.loaded)
    && (c in s.queued ==> c in s.sent) && (c in s.visited ==> c != k.cpu)
    && ((if s.loop.Scan? then c >= s.loop.i else c > Passed(s.loop)) ==> c !in s.visited)
  }

  predicate LoopOk(k: Config, s: State) {
    match s.loop
    case Scan(i) => 0 <= i <= CPUS
    case TryPost(i, seen) => 0 <= i < CPUS && i != k.cpu && seen.host && i in s.visited
    case Send(i) => 0 <= i < CPUS && i != k.cpu && i in s.visited
    case Wait(i) => 0 <= i <= CPUS
    case WaitPost(i, seen) => 0 <= i < CPUS && seen.host
    case Own => true
    case Finished => Told(k, s, k.cpu) && k.cpu !in s.warm
  }

  ghost predicate Inv(k: Config, s: State) {
    && Complete(k, s) && (forall c <- s.cores :: Ok(s.cores[c])) && LoopOk(k, s)
    && forall c :: CoreOk(k, s, c)
  }

  // ---- Every step keeps it ----

  lemma CoresKeep(k: Config, s: State, t: Step)
    requires Complete(k, s) && (forall c <- s.cores :: Ok(s.cores[c])) && Enabled(k, s, t)
    ensures Complete(k, Exec(k, s, t)) && forall c <- Exec(k, s, t).cores :: Ok(Exec(k, s, t).cores[c])
  {
    forall c <- Exec(k, s, t).cores ensures Ok(Exec(k, s, t).cores[c]) {
      assert c in s.cores;
      match t
      case PostHit => MoveKeeps(s.cores[s.loop.i], Post(s.loop.seen, k.root));
      case WaitHit => MoveKeeps(s.cores[s.loop.i], Post(s.loop.seen, k.root));
      case LoadOwn => MoveKeeps(s.cores[k.cpu], GuestLoad(k.root));
      case Target(d, m) => MoveKeeps(s.cores[d], m);
      case RunMessage(d) => MoveKeeps(s.cores[d], GuestLoad(k.root));
      case _ =>
    }
  }

  /** Once told, a core stays told. */
  lemma ToldStays(k: Config, s: State, t: Step, c: int)
    requires Enabled(k, s, t) && Told(k, s, c)
    ensures Told(k, Exec(k, s, t), c)
  {}

  /** A core that was told and has dropped its old translations gets no new ones. */
  lemma StaysClean(k: Config, s: State, t: Step, c: int)
    requires Enabled(k, s, t) && Told(k, s, c) && c !in s.warm && Ok(s.cores[c])
    ensures c !in Exec(k, s, t).warm
  {}

  lemma CoreKeeps(k: Config, s: State, s': State, t: Step, c: int)
    requires LoopOk(k, s) && CoreOk(k, s, c) && Enabled(k, s, t) && s' == Exec(k, s, t)
    requires Told(k, s, c) ==> Told(k, s', c) && (c !in s.warm ==> c !in s'.warm)
    ensures CoreOk(k, s', c)
  {
    if Scans(t) { ScanKeeps(k, s, s', t, c); }
    else if t.PassUnsent? || t.SeeDone? || t.WaitLook? || t.WaitHit? || t.WaitMiss? || t.WaitEnd? || t.LoadOwn? {}
    else {}
  }

  predicate Scans(t: Step) {
    t.PassOwn? || t.PassOther? || t.Look? || t.PostHit? || t.PostMiss? || t.Queue? || t.ScanEnd?
  }

  lemma ScanKeeps(k: Config, s: State, s': State, t: Step, c: int)
    requires LoopOk(k, s) && CoreOk(k, s, c) && Enabled(k, s, t) && s' == Exec(k, s, t) && Scans(t)
    requires Told(k, s, c) ==> Told(k, s', c) && (c !in s.warm ==> c !in s'.warm)
    ensures CoreOk(k, s', c)
  {}

  lemma StepKeeps(k: Config, s: State, t: Step)
    requires Inv(k, s) && Enabled(k, s, t)
    ensures Inv(k, Exec(k, s, t))
  {
    var s' := Exec(k, s, t);
    CoresKeep(k, s, t);
    forall c ensures CoreOk(k, s', c) {
      assert CoreOk(k, s, c);
      if Told(k, s, c) {
        ToldStays(k, s, t, c);
        if c !in s.warm { StaysClean(k, s, t, c); }
      }
      CoreKeeps(k, s, s', t, c);
    }
    assert LoopOk(k, s') by {
      if s.loop.Finished? {
        ToldStays(k, s, t, k.cpu);
        StaysClean(k, s, t, k.cpu);
      }
    }
  }

  // ---- Runs ----

  predicate Valid(k: Config, s: State, ts: seq<Step>)
    decreases |ts|
  {
    ts == [] || (Enabled(k, s, ts[0]) && Valid(k, Exec(k, s, ts[0]), ts[1..]))
  }

  function After(k: Config, s: State, ts: seq<Step>): State
    requires Valid(k, s, ts)
    decreases |ts|
  {
    if ts == [] then s else After(k, Exec(k, s, ts[0]), ts[1..])
  }

  lemma {:induction false} RunKeeps(k: Config, s: State, ts: seq<Step>)
    requires Inv(k, s) && Valid(k, s, ts)
    ensures Inv(k, After(k, s, ts))
    decreases |ts|
  {
    if ts != [] {
      StepKeeps(k, s, ts[0]);
      RunKeeps(k, Exec(k, s, ts[0]), ts[1..]);
    }
  }

  /** In every interleaving: from the end of the loops on, each core has been seen
      either without a main or copy thread, or with one; in the second case it
      executes in the guest on the new root only, and outside the guest it holds the new root or a
      request to load it before it enters. */
  lemma SwitchAgreement(k: Config, s: State, ts: seq<Step>, c: int)
    requires Init(k, s) && Valid(k, s, ts) && 0 <= c < CPUS
    ensures var s' := After(k, s, ts);
            s'.loop.Own? || s'.loop.Finished? ==>
              && c in s'.cores
              && (c != k.cpu ==> c in s'.visited || c in s'.skipped)
              && (c in s'.visited || (c == k.cpu && s'.loop.Finished?) ==>
                    && (s'.cores[c].at.Inside? ==> s'.cores[c].cr3 == k.root)
                    && k.root == (if Source(s'.cores[c]).change then Source(s'.cores[c]).root else s'.cores[c].cr3))
  {
    assert Inv(k, s) by { forall c ensures CoreOk(k, s, c) { } }
    RunKeeps(k, s, ts);
    assert CoreOk(k, After(k, s, ts), c);
  }

  // ---- Translations from before the switch ----

  /** After the loops, the core that branches off and every core that acknowledged the message hold
      no translation from before the switch, and get none back. */
  lemma MessageCleans(k: Config, s: State, ts: seq<Step>, c: int)
    requires Init(k, s) && Valid(k, s, ts) && 0 <= c < CPUS
    ensures var z := After(k, s, ts);
            (c in z.sent && c in z.done) || (c == k.cpu && z.loop.Finished?) ==> c !in z.warm
  {
    assert Inv(k, s) by { forall c ensures CoreOk(k, s, c) { } }
    RunKeeps(k, s, ts);
    assert CoreOk(k, After(k, s, ts), c);
  }

  /** The moves of core c alone. */
  function OnCore(c: int, ms: seq<Move>): seq<Step>
    decreases |ms|
  {
    if ms == [] then [] else [Target(c, ms[0])] + OnCore(c, ms[1..])
  }

  /** While core c enters, requests other than the switch's come in at any point. */
  lemma {:induction false} EntryKeeps(k: Config, s: State, c: int, ms: seq<Move>)
    requires c in s.cores && PvFlag.Valid(s.cores[c], ms) && (forall i :: 0 <= i < |ms| ==> Unrelated(ms[i]))
    requires Ok(s.cores[c]) && s.cores[c].latest == k.root
    ensures Valid(k, s, OnCore(c, ms))
    ensures var z := After(k, s, OnCore(c, ms));
            c in z.cores && z.cores[c] == PvFlag.After(s.cores[c], ms) && (c in z.warm <==> Survive(c in s.warm, ms))
    decreases |ms|
  {
    if ms != [] {
      var s' := Exec(k, s, Target(c, ms[0]));
      assert Unrelated(ms[0]);
      MoveKeeps(s.cores[c], ms[0]);
      forall i | 0 <= i < |ms[1..]| ensures Unrelated(ms[1..][i]) { assert ms[1..][i] == ms[i + 1]; }
      EntryKeeps(k, s', c, ms[1..]);
      assert OnCore(c, ms)[0] == Target(c, ms[0]) && OnCore(c, ms)[1..] == OnCore(c, ms[1..]);
    }
  }

  /** A core that was told by a request in its flag word, out of the guest: when it next executes there, on the new
      root, its translations from before the switch are gone if and only if a flush had been asked for before its
      exchange. */
  lemma PostKeepsOld(k: Config, s: State, c: int, ms: seq<Move>)
    requires Inv(k, s) && c in s.cores && s.cores[c].at.Out? && s.cores[c].word.change
    requires s.cores[c].word.root == k.root && c in s.warm
    requires PvFlag.Valid(s.cores[c], ms) && OneEntry(ms) && (forall i :: 0 <= i < |ms| ==> Unrelated(ms[i]))
    requires PvFlag.After(s.cores[c], ms).at.Inside?
    ensures Valid(k, s, OnCore(c, ms))
    ensures var z := After(k, s, OnCore(c, ms));
            && c in z.cores && z.cores[c].at.Inside? && z.cores[c].cr3 == k.root
            && (c !in z.warm <==> s.cores[c].word.flush || Flushes(Before(ms)))
  {
    EntryKeeps(k, s, c, ms);
    SurviveExact(s.cores[c], ms);
    EntryConsumes(s.cores[c], ms);
    PostedStays(ms, k.root);
    PvFlag.RunKeeps(s.cores[c], ms);
  }

  lemma {:induction false} PostedStays(ms: seq<Move>, r: Root)
    requires forall i :: 0 <= i < |ms| ==> Unrelated(ms[i])
    ensures LastPosted(Before(ms), r) == r
    decreases |ms|
  {
    if ms != [] && !ms[0].Take? {
      forall i | 0 <= i < |ms[1..]| ensures Unrelated(ms[1..][i]) { assert ms[1..][i] == ms[i + 1]; }
      PostedStays(ms[1..], r);
      assert Unrelated(ms[0]) && Before(ms)[1..] == Before(ms[1..]);
    }
  }

  /** Without such a flush they are still there: the plain entry after a request. */
  lemma OldSurvives(k: Config, s: State, c: int) returns (ts: seq<Step>)
    requires Inv(k, s) && c in s.cores && s.cores[c].at.Out? && s.cores[c].word.change
    requires s.cores[c].word.root == k.root && c in s.warm
    requires !s.cores[c].word.flush
    ensures Valid(k, s, ts)
    ensures var z := After(k, s, ts); c in z.cores && z.cores[c].at.Inside? && z.cores[c].cr3 == k.root && c in z.warm
  {
    var ms := [Test, Take, Skip, Load, Enter];
    var c0 := s.cores[c];
    var c1 := Do(c0, Test);
    var c2 := Do(c1, Take);
    var c3 := Do(c2, Skip);
    var c4 := Do(c3, Load);
    var c5 := Do(c4, Enter);
    assert ms[1..] == [Take, Skip, Load, Enter] && ms[1..][1..] == [Skip, Load, Enter];
    assert [Skip, Load, Enter][1..] == [Load, Enter] && [Load, Enter][1..] == [Enter] && [Enter][1..] == [];
    assert PvFlag.Valid(c5, []) && PvFlag.Valid(c4, [Enter]) && PvFlag.Valid(c3, [Load, Enter])
        && PvFlag.Valid(c2, [Skip, Load, Enter]);
    assert PvFlag.Valid(c1, [Take, Skip, Load, Enter]);
    assert PvFlag.After(c3, [Load, Enter]) == PvFlag.After(c4, [Enter]) == c5;
    assert PvFlag.After(c1, [Take, Skip, Load, Enter]) == PvFlag.After(c2, [Skip, Load, Enter]) == c5;
    assert Before(ms) == [Test] by { assert Before([Take, Skip, Load, Enter]) == []; }
    ts := OnCore(c, ms);
    PostKeepsOld(k, s, c, ms);
  }

  /** And so it can go from the start: core 0 is in the host with a main thread and no flush asked for. */
  lemma OldHappens(k: Config, s: State) returns (ts: seq<Step>)
    requires Init(k, s) && k.cpu != 0 && Concerns(s.threads[0]) && s.cores[0].at.Out? && !s.cores[0].word.flush
    requires 0 in s.warm
    ensures Valid(k, s, ts)
    ensures var z := After(k, s, ts); 0 in z.visited && 0 in z.cores && z.cores[0].at.Inside? && 0 in z.warm
  {
    assert Inv(k, s) by { forall c ensures CoreOk(k, s, c) { } }
    var m := Exec(k, s, Look);
    StepKeeps(k, s, Look);
    var n := Exec(k, m, PostHit);
    StepKeeps(k, m, PostHit);
    var us := OldSurvives(k, n, 0);
    VisitedStays(k, n, us, 0);
    ts := [Look, PostHit] + us;
    assert ts[1..] == [PostHit] + us && ts[1..][1..] == us;
    assert Valid(k, m, ts[1..]) && After(k, m, ts[1..]) == After(k, n, us);
  }

  lemma {:induction false} VisitedStays(k: Config, s: State, ts: seq<Step>, c: int)
    requires Valid(k, s, ts) && c in s.visited
    ensures c in After(k, s, ts).visited
    decreases |ts|
  {
    if ts != [] { VisitedStays(k, Exec(k, s, ts[0]), ts[1..], c); }
  }
}
