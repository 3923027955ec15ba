/**
 The hazards occur: from every state just after branch-off that has a page under copy-on-write, a main core and free
 pages, a run that has met no hazard so far leads to each of them.
 */
module CowReach {
  import opened PageEntry
  import opened CowProtocol
  import opened CowInvariant
  import opened CowSafety
  import opened CowRuns
  import opened CowDrive
  import opened CowLostWrite
  import opened CowDoubleLock

  /** The worker has loaded its root. */
  lemma Loads(k: Config, s: State) returns (z: State)
    requires Start(k, s)
    ensures Reaches(k, NONE, s, z) && z == s.(phase := Loaded, user := true)
  {
    var m := s;
    if s.user {
      ReachesSelf(k, NONE, s);
    } else {
      m := Exec(k, s, Resume);
      ReachesStep(k, NONE, s, Resume);
    }
    z := Exec(k, m, LoadRoot);
    ReachesThen(k, NONE, s, m, LoadRoot, z);
  }

  /** The snapshot thread runs, and it started clean. */
  lemma Begins(k: Config, s: State) returns (z: State)
    requires Start(k, s)
    ensures Reaches(k, NONE, s, z) && z == s.(phase := Running, user := true)
  {
    var m := Loads(k, s);
    z := Exec(k, m, SetStarted);
    assert Clean(k, m);
    ReachesThen(k, NONE, s, m, SetStarted, z);
  }

  lemma Starts(k: Config, s: State) returns (z: State)
    requires Init(k, s)
    ensures Reaches(k, NONE, s, z) && z == s.(phase := Running, user := true) && Calm(k, z)
  {
    z := Begins(k, s);
    InitInv(k, false, s);
    ReachesKeeps(k, NONE, s, z);
    Seal(k, false, z);
  }

  /** A page of the initial state, and a main core that can take a fault on it. */
  predicate Target(k: Config, s: State, v: Page, d: Core) {
    v in s.pg && s.pg[v].main.cow && d in s.cpu && d != k.snapCore
  }

  // ---- A fault, up to the sample of the thread state ----

  predicate Fresh(k: Config, s: State, v: Page, d: Core) {
    && Live(s) && s.root && v in s.pg && d in s.cpu && d != k.snapCore && Eligible(s.pg[v].main)
        && s.pg[v].main.frame in s.fr
    && (s.pg[v].main.frame in k.pool ==> s.fr[s.pg[v].main.frame].ref >= 2)
  }

  lemma Reads(k: Config, s: State, v: Page, d: Core) returns (z: State)
    requires Fresh(k, s, v, d) && s.cpu[d].at.Idle?
    ensures Reaches(k, NONE, s, z)
    ensures z == Goto(s, d, s.cpu[d].(at := Seen, v := v, shadowed := true, was := s.pg[v].main))
  {
    var m := DoFault(s, d, v);
    ReachesStep(k, NONE, s, Do(d, Fault(v)));
    var n := DoReadRoot(m, d);
    ReachesThen(k, NONE, s, m, Do(d, ReadRoot), n);
    z := DoLoadEntry(k, n, d);
    ReachesThen(k, NONE, s, n, Do(d, LoadEntry), z);
    assert z == Goto(s, d, s.cpu[d].(at := Seen, v := v, shadowed := true, was := s.pg[v].main));
  }

  /** The state of a fault on v that has just sampled the thread state. */
  function AtSample(s: State, v: Page, d: Core): State
    requires v in s.pg && d in s.cpu
  {
    SetPage(Goto(s, d, s.cpu[d].(at := Sampled, v := v, shadowed := true, was := s.pg[v].main,
        started := s.phase.Running?)), v,
            s.pg[v].(main := WithLock(s.pg[v].main), mowner := By(d)))
  }

  lemma Locks(k: Config, s: State, v: Page, d: Core) returns (z: State)
    requires Fresh(k, s, v, d) && s.cpu[d].at.Idle?
    ensures Reaches(k, NONE, s, z)
    ensures z == SetPage(Goto(s, d, s.cpu[d].(at := Locked, v := v, shadowed := true, was := s.pg[v].main)), v,
                         s.pg[v].(main := WithLock(s.pg[v].main), mowner := By(d)))
  {
    var m := Reads(k, s, v, d);
    z := DoLockEntry(k, m, d);
    ReachesThen(k, NONE, s, m, Do(d, LockEntry), z);
    assert z.cpu == s.cpu[d := s.cpu[d].(at := Locked, v := v, shadowed := true, was := s.pg[v].main)];
  }

  lemma Samples(k: Config, s: State, v: Page, d: Core) returns (z: State)
    requires Fresh(k, s, v, d) && s.cpu[d].at.Idle?
    ensures Reaches(k, NONE, s, z) && z == AtSample(s, v, d)
  {
    var m := Locks(k, s, v, d);
    var n := DoCheckRef(k, m, d);
    ReachesThen(k, NONE, s, m, Do(d, CheckRef), n);
    z := DoSample(n, d);
    ReachesThen(k, NONE, s, n, Do(d, Sample), z);
    assert z.cpu == AtSample(s, v, d).cpu;
  }

  /** From branch-off to an early sample, with the worker about to set its thread state. */
  lemma EarlySampleHappens(k: Config, s: State, v: Page, d: Core) returns (z: State)
    requires Init(k, s) && Target(k, s, v, d)
    ensures Reaches(k, NONE, s, z) && Enabled(k, z, SetStarted) && EarlySample(k, z, d)
  {
    assert InitPage(k, s, v);
    var m := Loads(k, s);
    z := Samples(k, m, v, d);
    ReachesTrans(k, NONE, s, m, z);
  }

  /** From branch-off to a main core before line 993 with the value of a locked entry. */
  lemma DoubleLockHappens(k: Config, s: State, v: Page, d: Core) returns (z: State, c: Core)
    requires Init(k, s) && Target(k, s, v, d)
    ensures Reaches(k, NONE, s, z) && DoublyAimed(k, z, c) && z.fr == s.fr
  {
    assert InitPage(k, s, v);
    var m := Starts(k, s);
    z, c := PreyAimed(k, m, v, d);
    ReachesTrans(k, NONE, s, m, z);
  }

  // ---- A fault, up to the return of its shootdown ----

  /** The handler of d holds both entries of v, after it sampled a running snapshot. */
  predicate Holding(k: Config, s: State, v: Page, d: Core, p: Point) {
    && s.phase.Running? && Executing(k, s) && s.walk.NoWalk? && d in s.cpu && d != k.snapCore && v in s.pg
    && var h := s.cpu[d];
    && h.at == p && h.v == v && h.started && h.was.frame == s.pg[v].main.frame == s.pg[v].snap.frame == h.snap.frame
    && s.pg[v].main.p && s.pg[v].snap.p && h.was.frame in s.fr && |s.fr[h.was.frame].data| == PGSIZE
    && (!p.SnapLocked? ==> h.copy in s.fr && h.copy != h.was.frame && |s.fr[h.copy].data| == PGSIZE)
    && (p.Copying? ==> 0 <= h.n <= PGSIZE && !h.snap.a)
  }

  lemma Holds(k: Config, s: State, v: Page, d: Core, f: Frame) returns (z: State)
    requires Fresh(k, s, v, d) && s.cpu[d].at.Idle? && s.phase.Running? && Executing(k, s) && s.walk.NoWalk?
    requires Sized(s)
    requires s.pg[v].snap.frame == s.pg[v].main.frame && s.pg[v].main.p && s.pg[v].snap.p && !s.pg[v].snap.lock
    requires !s.pg[v].snap.a
    requires f in s.fr && s.fr[f].role.Free? && f != s.pg[v].main.frame
    ensures Reaches(k, NONE, s, z) && Holding(k, z, v, d, Copying) && z.cpu[d].n == 0
  {
    var l := Samples(k, s, v, d);
    var m := DoLoadSnap(l, d);
    ReachesThen(k, NONE, s, l, Do(d, LoadSnap), m);
    var n := DoLockSnap(m, d);
    ReachesThen(k, NONE, s, m, Do(d, LockSnap), n);
    z := TakesPage(k, n, v, d, f);
    ReachesTrans(k, NONE, s, n, z);
  }

  lemma TakesPage(k: Config, s: State, v: Page, d: Core, f: Frame) returns (z: State)
    requires Holding(k, s, v, d, SnapLocked) && !s.cpu[d].snap.a && f in s.fr && s.fr[f].role.Free?
    requires f != s.pg[v].main.frame && |s.fr[f].data| == PGSIZE
    ensures Reaches(k, NONE, s, z) && Holding(k, z, v, d, Copying) && z.cpu[d].n == 0
  {
    z := DoAlloc(k, s, d, f);
    ReachesStep(k, NONE, s, Do(d, Alloc(f)));
  }

  lemma Copies(k: Config, s: State, v: Page, d: Core) returns (z: State)
    requires Holding(k, s, v, d, Copying)
    ensures Reaches(k, NONE, s, z) && Holding(k, z, v, d, Copying) && z.cpu[d].n == PGSIZE
  {
    var m := DoMainFill(s, d, v);
    ReachesStep(k, NONE, s, MainFill(d, v));
    z := Copied(m, d, m.cpu[d].was.frame);
    CopyAll(k, NONE, m, d, m.cpu[d].was.frame);
    ReachesTrans(k, NONE, s, m, z);
  }

  /** The snapshot core reads the page just before the handler publishes. */
  lemma Caches(k: Config, s: State, v: Page, d: Core) returns (z: State)
    requires Holding(k, s, v, d, Copying) && s.cpu[d].n == PGSIZE
    ensures Reaches(k, NONE, s, z) && Holding(k, z, v, d, Copying) && z.cpu[d] == s.cpu[d] && !HitsSnap(z, d)
    ensures v in z.stlb && z.stlb[v].frame == z.pg[v].main.frame
  {
    var m := DoSnapWalk(s, v);
    ReachesStep(k, NONE, s, SnapWalk(v));
    z := DoSnapFill(m);
    ReachesThen(k, NONE, s, m, SnapFill, z);
  }

  lemma Misses(k: Config, s: State, v: Page, d: Core) returns (z: State)
    requires Holding(k, s, v, d, Copying) && s.cpu[d].n == PGSIZE && !HitsSnap(s, d)
    ensures Reaches(k, NONE, s, z) && Holding(k, z, v, d, Reloaded) && z.stlb == s.stlb && z.pg == s.pg
  {
    var m := DoMiss(s, d, Overtaken);
    ReachesStep(k, NONE, s, Do(d, MissPublish));
    z := DoReload(m, d);
    ReachesThen(k, NONE, s, m, Do(d, Reload), z);
  }

  lemma Overwrites(k: Config, s: State, v: Page, d: Core) returns (z: State)
    requires Holding(k, s, v, d, Copying) && s.cpu[d].n == PGSIZE && !HitsSnap(s, d)
    requires v in s.stlb && s.stlb[v].frame == s.pg[v].main.frame
    ensures Reaches(k, NONE, s, z) && Enabled(k, z, Do(d, ShootdownReturn(false)))
    ensures LateReturn(k, z, Do(d, ShootdownReturn(false)))
  {
    var m := Misses(k, s, v, d);
    z := DoOverwrite(m, d);
    ReachesThen(k, NONE, s, m, Do(d, Overwrite), z);
  }

  /** From branch-off to a shootdown whose return would be late. */
  lemma LateReturnHappens(k: Config, s: State, v: Page, d: Core, f: Frame) returns (z: State)
    requires Init(k, s) && Target(k, s, v, d) && f in s.fr && s.fr[f].role.Free?
    ensures Reaches(k, NONE, s, z) && Enabled(k, z, Do(d, ShootdownReturn(false)))
    ensures LateReturn(k, z, Do(d, ShootdownReturn(false)))
  {
    assert InitPage(k, s, v);
    var s1 := Starts(k, s);
    var s2 := Holds(k, s1, v, d, f);
    var s3 := Copies(k, s2, v, d);
    var s4 := Caches(k, s3, v, d);
    z := Overwrites(k, s4, v, d);
    ReachesTrans(k, NONE, s3, s4, z);
    ReachesTrans(k, NONE, s2, s3, z);
    ReachesTrans(k, NONE, s1, s2, z);
    ReachesTrans(k, NONE, s, s1, z);
  }
}
