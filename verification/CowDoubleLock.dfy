/**
 When line 993 can lock an entry twice. While the snapshot runs, every continuation is isolated, double
 locks included, if and only if no page is left that both sides share under copy-on-write
 and that no main core has begun to replace.
 */
module CowDoubleLock {
  import opened PageEntry
  import opened CowProtocol
  import opened CowInvariant
  import opened CowSafety
  import opened CowRuns
  import opened CowDrive
  import opened CowLostWrite

  /** Both sides share page v under copy-on-write, and the snapshot's entry is unlocked. */
  predicate Prey(s: State, v: Page) {
    v in s.pg && s.pg[v].main.frame == s.pg[v].snap.frame && s.pg[v].snap.cow && !s.pg[v].snap.lock
  }

  // ---- Without such a page no double lock happens ----

  /** If both sides still share v under copy-on-write, a main core's handler holds the snapshot's entry. */
  predicate Taken(k: Config, s: State, v: Page) {
    && v in s.pg
    && (s.pg[v].main.frame == s.pg[v].snap.frame && s.pg[v].snap.cow ==>
        s.pg[v].sowner.By? && s.pg[v].sowner.core != k.snapCore)
  }

  predicate Spent(k: Config, s: State) { forall v <- s.pg :: Taken(k, s, v) }

  /** No page is new, and page v is still taken. */
  predicate StillTaken(k: Config, s: State, s': State, v: Page) {
    (v in s'.pg <==> v in s.pg) && (v in s.pg && Taken(k, s, v) ==> Taken(k, s', v))
  }

  lemma SpentEntering(k: Config, s: State, s': State, c: Core, act: Act, v: Page)
    requires CanDo(k, s, c, act) && Entering(act) && s' == Doing(k, s, c, act)
    requires v in s.pg ==> PageOk(k, s, v) && LockOk(k, s, v)
    requires act.LockEntry? ==> Eligible(s.cpu[c].was)
    ensures StillTaken(k, s, s', v)
  {
    if act.LockEntry? { SpentLocking(k, s, s', c, v); } else { assert s'.pg == s.pg; }
  }

  lemma SpentLocking(k: Config, s: State, s': State, c: Core, v: Page)
    requires At(k, s, c, Point.Seen) && HitsOwn(k, s, c) && s' == DoLockEntry(k, s, c) && Eligible(s.cpu[c].was)
    requires v in s.pg ==> PageOk(k, s, v) && LockOk(k, s, v)
    ensures StillTaken(k, s, s', v)
  {}

  lemma SpentPairing(k: Config, s: State, s': State, c: Core, act: Act, v: Page)
    requires CanDo(k, s, c, act) && Pairing(act) && s' == Doing(k, s, c, act) && MainHandlerOk(k, false, s, c)
    ensures StillTaken(k, s, s', v)
  {
    if act.LockSnap? {} else if act.ReleaseSnap? {} else if act.Restore? {} else { assert s'.pg == s.pg; }
  }

  lemma SpentPublishing(k: Config, s: State, s': State, c: Core, act: Act, v: Page)
    requires CanDo(k, s, c, act) && Publishing(act) && s' == Doing(k, s, c, act)
    ensures StillTaken(k, s, s', v)
  {
    var h := s.cpu[c];
    SplitTaken(k, s, c, s'.cpu[c], if act.OwnStore? then Opened(h.was).(frame := h.copy)
        else Redirected(h.snap, h.copy), v);
  }

  lemma SplitTaken(k: Config, s: State, c: Core, h': Handler, e: Pte, v: Page)
    requires CanSplit(s, c) && !e.cow
    ensures StillTaken(k, s, Split(Goto(s, c, h'), s.cpu[c], e), v)
  {}

  lemma SpentOpen(k: Config, s: State, s': State, c: Core, v: Page)
    requires CanDo(k, s, c, Open) && s' == DoOpen(k, s, c) && c != k.snapCore && MainHandlerOk(k, false, s, c)
    ensures StillTaken(k, s, s', v)
  {}

  lemma SpentLater(k: Config, s: State, s': State, c: Core, act: Act, v: Page)
    requires CanDo(k, s, c, act) && s' == Doing(k, s, c, act)
    requires !Entering(act) && !Pairing(act) && !Publishing(act) && !act.Open?
    ensures StillTaken(k, s, s', v)
  {
    if Filling(act) {} else if Missing(act) {} else if Releasing(act) {} else {}
  }

  /** What the parts need of the invariant. */
  lemma SpentFacts(k: Config, s: State, c: Core, act: Act, v: Page)
    requires Good(k, false, s) && CanDo(k, s, c, act)
    ensures v in s.pg ==> PageOk(k, s, v) && LockOk(k, s, v)
    ensures act.LockEntry? ==> Eligible(s.cpu[c].was)
    ensures act.Open? ==> c != k.snapCore
    ensures c != k.snapCore ==> MainHandlerOk(k, false, s, c)
  {
    Unseal(k, false, s);
    assert c in s.cpu;
    if c != k.snapCore { assert MainHandlerOk(k, false, s, c); }
  }

  lemma SpentAct(k: Config, s: State, s': State, c: Core, act: Act, v: Page)
    requires Good(k, false, s) && CanDo(k, s, c, act) && s' == Doing(k, s, c, act)
    ensures StillTaken(k, s, s', v)
  {
    SpentFacts(k, s, c, act, v);
    if Entering(act) { SpentEntering(k, s, s', c, act, v); }
    else if Pairing(act) { SpentPairing(k, s, s', c, act, v); }
    else if Publishing(act) { SpentPublishing(k, s, s', c, act, v); }
    else if act.Open? { SpentOpen(k, s, s', c, v); }
    else { SpentLater(k, s, s', c, act, v); }
  }

  lemma OwnNotTaken(k: Config, s: State, t: Step)
    requires Good(k, false, s) && Enabled(k, s, t) && DoubleLock(s, t)
    ensures s.cpu[t.c].v in s.pg && !Taken(k, s, s.cpu[t.c].v)
  {
    HeldByOwn(k, s, t);
    LookAt(k, false, s, t.c, s.cpu[t.c].v);
  }

  lemma SpentHolds(k: Config, s: State, t: Step)
    requires Good(k, false, s) && Spent(k, s) && Enabled(k, s, t)
    ensures !DoubleLock(s, t)
  {
    if DoubleLock(s, t) { OwnNotTaken(k, s, t); }
  }

  lemma SpentAt(k: Config, s: State, s': State, t: Step, v: Page)
    requires Good(k, false, s) && Enabled(k, s, t) && s' == Exec(k, s, t)
    ensures StillTaken(k, s, s', v)
  {
    if t.Do? { SpentAct(k, s, s', t.c, t.act, v); }
  }

  lemma SpentStep(k: Config, s: State, s': State, t: Step)
    requires Good(k, false, s) && Spent(k, s) && Enabled(k, s, t) && s' == Exec(k, s, t)
    ensures Spent(k, s')
  {
    forall v | v in s'.pg ensures Taken(k, s', v) { SpentAt(k, s, s', t, v); }
  }

  lemma {:induction false} SpentRun(k: Config, a: Allow, s: State, ts: seq<Step>)
    requires Inv(k, false, s) && Spent(k, s) && Valid(k, s, ts) && Within(a, k, s, ts)
    ensures Within(a.(double := false), k, s, ts)
    decreases |ts|
  {
    if ts != [] {
      var s' := Exec(k, s, ts[0]);
      Seal(k, false, s);
      SpentHolds(k, s, ts[0]);
      SpentStep(k, s, s', ts[0]);
      StepKeeps(k, false, s, s', ts[0]);
      SpentRun(k, a, s', ts[1..]);
    }
  }

  lemma NoPreySpent(k: Config, s: State)
    requires Inv(k, false, s) && Executing(k, s) && forall v <- s.pg :: !Prey(s, v)
    ensures Spent(k, s)
  {
    forall v | v in s.pg ensures Taken(k, s, v) { assert !Prey(s, v) && LockOk(k, s, v); }
  }

  // ---- With such a page a double lock can happen ----

  /** The snapshot core has locked its entry of v, which both sides share. */
  ghost predicate Hunt(k: Config, s: State, v: Page) {
    && Good(k, false, s) && s.phase.Running? && s.user && s.walk.NoWalk? && v in s.pg
        && s.pg[v].main.frame == s.pg[v].snap.frame
    && k.snapCore in s.cpu && s.cpu[k.snapCore].at.Locked? && s.cpu[k.snapCore].v == v
  }

  lemma OwnArrives(k: Config, s: State, v: Page) returns (s': State)
    requires Calm(k, s) && v in s.pg
    ensures Reaches(k, NONE, s, s') && Good(k, false, s') && At(k, s', k.snapCore, Looked)
    ensures s'.cpu[k.snapCore].v == v
    ensures s' == s.(cpu := s.cpu[k.snapCore := s'.cpu[k.snapCore]])
  {
    var o := k.snapCore;
    var m := DoFault(s, o, v);
    GoodStep(k, s, m, Do(o, Fault(v)));
    s' := DoReadRoot(m, o);
    GoodStep(k, m, s', Do(o, ReadRoot));
    ReachesTrans(k, NONE, s, m, s');
  }

  /** The snapshot core takes a fault on v and locks its entry. */
  lemma OwnLocks(k: Config, s: State, v: Page) returns (s': State)
    requires Calm(k, s) && Prey(s, v)
    ensures Reaches(k, NONE, s, s') && Hunt(k, s', v) && s'.fr == s.fr
    ensures forall c <- s.cpu :: c != k.snapCore ==> c in s'.cpu && s'.cpu[c] == s.cpu[c]
    ensures s'.pg[v].main == s.pg[v].main && s'.pg[v].mowner == s.pg[v].mowner
  {
    var n := OwnSees(k, s, v);
    s' := DoLockEntry(k, n, k.snapCore);
    GoodStep(k, n, s', Do(k.snapCore, LockEntry));
    ReachesTrans(k, NONE, s, n, s');
  }

  lemma OwnSees(k: Config, s: State, v: Page) returns (s': State)
    requires Calm(k, s) && Prey(s, v)
    ensures Reaches(k, NONE, s, s') && Good(k, false, s') && At(k, s', k.snapCore, Seen) && HitsOwn(k, s', k.snapCore)
    ensures s'.cpu[k.snapCore].v == v && s' == s.(cpu := s.cpu[k.snapCore := s'.cpu[k.snapCore]])
  {
    LookAt(k, false, s, k.snapCore, v);
    var m := OwnArrives(k, s, v);
    s' := DoLoadEntry(k, m, k.snapCore);
    GoodStep(k, m, s', Do(k.snapCore, LoadEntry));
    ReachesTrans(k, NONE, s, m, s');
  }

  /** The next action of a main core on its way to line 993. */
  function Pursue(s: State, c: Core): Act
    requires c in s.cpu
  {
    match s.cpu[c].at
    case Enter => ReadRoot
    case Looked => LoadEntry
    case Seen => LockEntry
    case Locked => CheckRef
    case Counted => Sample
    case Sampled => LoadSnap
    case SnapSeen => MissSnap
    case _ => Restore
  }

  function Miles(s: State, c: Core): nat
    requires c in s.cpu
  {
    match s.cpu[c].at
    case SnapSeen => 9
    case Restoring => 8
    case Enter => 7
    case Looked => 6
    case Seen => 5
    case Locked => 4
    case Counted => 3
    case _ => 2
  }

  predicate There(s: State, c: Core) { c in s.cpu && s.cpu[c].at.SnapSeen? && HitsSnap(s, c) }

  /** Core c is at v, with nothing in the way of its next action. */
  predicate OnTrack(k: Config, s: State, v: Page, c: Core) {
    && c in s.cpu && c != k.snapCore && s.cpu[c].v == v && v in s.pg
    && var h := s.cpu[c];
    && (h.at.Enter? || h.at.Looked? || h.at.Seen? || h.at.Locked? || h.at.Counted? || h.at.Sampled?
        || h.at.SnapSeen? || h.at.Restoring?)
    && (h.at.Enter? || h.at.Looked? ==> Eligible(s.pg[v].main))
    && (h.at.Seen? ==> Eligible(s.pg[v].main) && h.was == s.pg[v].main)
  }

  predicate SharedAt(k: Config, s: State, v: Page, c: Core) {
    PageOk(k, s, v) && MainHandlerOk(k, false, s, c) && s.phase.Running? && s.pg[v].main.frame == s.pg[v].snap.frame
  }

  predicate Nearer(k: Config, s: State, s': State, v: Page, c: Core) {
    && s'.fr == s.fr && c in s.cpu && c in s'.cpu && SameFrames(s, s', v)
    && (There(s', c) || (OnTrack(k, s', v, c) && Miles(s', c) < Miles(s, c)))
  }

  lemma PursueEnter(k: Config, s: State, s': State, v: Page, c: Core)
    requires OnTrack(k, s, v, c) && SharedAt(k, s, v, c) && s.cpu[c].at.Enter? && s' == DoReadRoot(s, c)
    ensures Nearer(k, s, s', v, c)
  {}

  lemma PursueLooked(k: Config, s: State, s': State, v: Page, c: Core)
    requires OnTrack(k, s, v, c) && SharedAt(k, s, v, c) && s.cpu[c].at.Looked? && s' == DoLoadEntry(k, s, c)
    ensures Nearer(k, s, s', v, c)
  {}

  lemma PursueSeen(k: Config, s: State, s': State, v: Page, c: Core)
    requires OnTrack(k, s, v, c) && SharedAt(k, s, v, c) && s.cpu[c].at.Seen? && s' == DoLockEntry(k, s, c)
    ensures Nearer(k, s, s', v, c)
  {}

  lemma PursueLocked(k: Config, s: State, s': State, v: Page, c: Core)
    requires OnTrack(k, s, v, c) && SharedAt(k, s, v, c) && s.cpu[c].at.Locked? && s' == DoCheckRef(k, s, c)
    ensures Nearer(k, s, s', v, c)
  {}

  lemma PursueCounted(k: Config, s: State, s': State, v: Page, c: Core)
    requires OnTrack(k, s, v, c) && SharedAt(k, s, v, c) && s.cpu[c].at.Counted? && s' == DoSample(s, c)
    ensures Nearer(k, s, s', v, c)
  {}

  lemma PursueSampled(k: Config, s: State, s': State, v: Page, c: Core)
    requires OnTrack(k, s, v, c) && SharedAt(k, s, v, c) && s.cpu[c].at.Sampled? && s' == DoLoadSnap(s, c)
    ensures Nearer(k, s, s', v, c)
  {}

  lemma PursueSnapSeen(k: Config, s: State, s': State, v: Page, c: Core)
    requires OnTrack(k, s, v, c) && SharedAt(k, s, v, c) && s.cpu[c].at.SnapSeen? && s' == DoMiss(s, c, Restoring)
    ensures Nearer(k, s, s', v, c)
  {}

  lemma PursueRestoring(k: Config, s: State, s': State, v: Page, c: Core)
    requires OnTrack(k, s, v, c) && SharedAt(k, s, v, c) && s.cpu[c].at.Restoring? && s' == DoRestore(s, c)
    ensures Nearer(k, s, s', v, c)
  {}

  lemma CanPursue(k: Config, s: State, v: Page, c: Core)
    requires OnTrack(k, s, v, c) && SharedAt(k, s, v, c) && !There(s, c)
    ensures CanDo(k, s, c, Pursue(s, c))
  {}

  lemma PursueFirst(k: Config, s: State, s': State, v: Page, c: Core, act: Act)
    requires OnTrack(k, s, v, c) && SharedAt(k, s, v, c) && act == Pursue(s, c) && CanDo(k, s, c, act)
    requires s' == Doing(k, s, c, act)
    requires Entering(act)
    ensures Nearer(k, s, s', v, c)
  {
    if act.ReadRoot? { PursueEnter(k, s, s', v, c); }
    else if act.LoadEntry? { PursueLooked(k, s, s', v, c); }
    else if act.LockEntry? { PursueSeen(k, s, s', v, c); }
    else { PursueLocked(k, s, s', v, c); }
  }

  lemma PursueSecond(k: Config, s: State, s': State, v: Page, c: Core, act: Act)
    requires OnTrack(k, s, v, c) && SharedAt(k, s, v, c) && act == Pursue(s, c) && CanDo(k, s, c, act)
    requires s' == Doing(k, s, c, act)
    requires Pairing(act)
    ensures Nearer(k, s, s', v, c)
  {
    if act.Sample? { PursueCounted(k, s, s', v, c); }
    else if act.LoadSnap? { PursueSampled(k, s, s', v, c); }
    else if act.MissSnap? { PursueSnapSeen(k, s, s', v, c); }
    else { PursueRestoring(k, s, s', v, c); }
  }

  lemma HuntStep(k: Config, s: State, s': State, v: Page, c: Core)
    requires Hunt(k, s, v) && OnTrack(k, s, v, c) && !There(s, c) && SharedAt(k, s, v, c)
    requires CanDo(k, s, c, Pursue(s, c)) && s' == Doing(k, s, c, Pursue(s, c))
    ensures Reaches(k, NONE, s, s') && Hunt(k, s', v) && Nearer(k, s, s', v, c)
  {
    var act := Pursue(s, c);
    if Entering(act) { PursueFirst(k, s, s', v, c, act); } else { PursueSecond(k, s, s', v, c, act); }
    MainActApart(k, s, s', c, act);
    GoodStep(k, s, s', Do(c, act));
  }

  lemma {:induction false} HuntDown(k: Config, s: State, v: Page, c: Core) returns (s': State)
    requires Hunt(k, s, v) && OnTrack(k, s, v, c)
    ensures Reaches(k, NONE, s, s') && DoublyAimed(k, s', c) && s'.fr == s.fr
    decreases Miles(s, c)
  {
    LookAt(k, false, s, c, v);
    if There(s, c) {
      ReachesSelf(k, NONE, s);
      return s;
    }
    CanPursue(k, s, v, c);
    var m := Doing(k, s, c, Pursue(s, c));
    HuntStep(k, s, m, v, c);
    if There(m, c) { s' := Caught(k, m, v, c); } else { s' := HuntDown(k, m, v, c); }
    ReachesTrans(k, NONE, s, m, s');
  }

  lemma Caught(k: Config, s: State, v: Page, c: Core) returns (s': State)
    requires Hunt(k, s, v) && There(s, c) && s.cpu[c].v == v && c != k.snapCore
    ensures Reaches(k, NONE, s, s') && DoublyAimed(k, s', c) && s'.fr == s.fr
  {
    LookAt(k, false, s, c, v);
    ReachesSelf(k, NONE, s);
    s' := s;
  }

  /** A main core at v, or else the idle core d, comes before line 993 while the snapshot core holds the entry. */
  lemma PreyAimed(k: Config, s: State, v: Page, d: Core) returns (s': State, c: Core)
    requires Calm(k, s) && Prey(s, v) && d in s.cpu && d != k.snapCore && s.cpu[d].at.Idle?
    ensures Reaches(k, NONE, s, s') && DoublyAimed(k, s', c) && s'.fr == s.fr
  {
    LookAt(k, false, s, d, v);
    var m := OwnLocks(k, s, v);
    if s.pg[v].mowner.By? {
      c := s.pg[v].mowner.core;
      LookAt(k, false, s, c, v);
      s' := HuntDown(k, m, v, c);
    } else {
      c := d;
      var n := DoFault(m, d, v);
      GoodStep(k, m, n, Do(d, Fault(v)));
      s' := HuntDown(k, n, v, d);
      ReachesTrans(k, NONE, m, n, s');
    }
    ReachesTrans(k, NONE, s, m, s');
  }

  lemma PreyLoses(k: Config, s: State, v: Page, d: Core, f: Frame, g: Frame) returns (s': State, u: Page)
    requires Good(k, false, s) && s.phase.Running? && Executing(k, s) && Prey(s, v) && d in s.cpu && d != k.snapCore
    requires s.cpu[d].at.Idle?
    requires f in s.fr && s.fr[f].role.Free? && g in s.fr && s.fr[g].role.Free? && f != g
    ensures Reaches(k, DOUBLE, s, s') && Broken(k, s', u)
  {
    var m := AbortWalk(k, s);
    var n, c := PreyAimed(k, m, v, d);
    u := n.cpu[c].v;
    s' := DoubleLockLosesWrite(k, n, c, f, g);
    ReachesTrans(k, NONE, s, m, n);
    ReachesMore(k, NONE, DOUBLE, s, n);
    ReachesTrans(k, DOUBLE, s, n, s');
  }

  /** While the snapshot runs, in every run that has met no hazard so far: whatever happens next, double locks
      included, the snapshot reads only its own view, if and only if no page is left as prey. f and g are free
      pages, d is a main core outside the handler. */
  lemma DoubleLockExact(k: Config, s: State, ts: seq<Step>, z: State, d: Core, f: Frame, g: Frame)
    requires Init(k, s) && Valid(k, s, ts) && Within(NONE, k, s, ts) && z == After(k, s, ts)
    requires z.phase.Running? && Executing(k, z) && d in z.cpu && d != k.snapCore && z.cpu[d].at.Idle?
    requires f in z.fr && z.fr[f].role.Free? && g in z.fr && z.fr[g].role.Free? && f != g
    ensures Isolated(k, DOUBLE, z) <==> forall v <- z.pg :: !Prey(z, v)
  {
    InitInv(k, true, s);
    RunKeeps(k, true, NONE, s, ts);
    Loosen(k, z);
    if v :| v in z.pg && Prey(z, v) {
      Seal(k, false, z);
      var x, u := PreyLoses(k, z, v, d, f, g);
      assert Reaches(k, DOUBLE, z, x) && Broken(k, x, u);
    } else {
      NoPreySpent(k, z);
      TightIsIsolated(k, z);
      forall x, v | Reaches(k, DOUBLE, z, x) ensures !Broken(k, x, v) {
        var us :| Leads(k, DOUBLE, z, us, x);
        SpentRun(k, DOUBLE, z, us);
        assert Leads(k, NONE, z, us, x);
      }
    }
  }
}
