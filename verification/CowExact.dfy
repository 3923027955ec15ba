/**
 When the snapshot worker sets its thread state, every continuation is isolated if and only if
 the snapshot starts clean: no main core is in a fault whose sample of the thread state came
 before, and no fault that sampled early has left an outdated translation behind.
 */
module CowExact {
  import opened PageEntry
  import opened CowProtocol
  import opened CowInvariant
  import opened CowSafety
  import opened CowRuns
  import opened CowDrive

  // ---- An early sample leads to an outdated translation ----

  ghost predicate Early(k: Config, s: State, c: Core) { Calm(k, s) && EarlySample(k, s, c) }

  lemma EarlyLoad(k: Config, s: State, c: Core) returns (s': State)
    requires Early(k, s, c) && s.cpu[c].at.Sampled?
    ensures Reaches(k, NONE, s, s') && Early(k, s', c) && s'.cpu[c].at.SnapSeen? && s'.fr == s.fr
  {
    s' := DoLoadSnap(s, c);
    CalmAct(k, s, s', c, LoadSnap);
  }

  lemma EarlyLock(k: Config, s: State, c: Core) returns (s': State)
    requires Early(k, s, c) && s.cpu[c].at.SnapSeen?
    ensures Reaches(k, NONE, s, s') && Early(k, s', c) && s'.cpu[c].at.SnapLocked? && s'.fr == s.fr
  {
    s' := DoLockSnap(s, c);
    CalmAct(k, s, s', c, LockSnap);
  }

  /** A handler with an early sample holds both entries of its page, and the snapshot core has the shared frame in
      its TLB. */
  ghost predicate Cached(k: Config, s: State, c: Core) {
    Early(k, s, c) && HoldsSnap(s.cpu[c].at) && s.cpu[c].v in s.stlb
        && s.stlb[s.cpu[c].v].frame == s.pg[s.cpu[c].v].main.frame
  }

  lemma CacheIt(k: Config, s: State, c: Core) returns (s': State)
    requires Early(k, s, c) && HoldsSnap(s.cpu[c].at)
    ensures Reaches(k, NONE, s, s') && Cached(k, s', c) && s'.fr == s.fr
  {
    var v := s.cpu[c].v;
    LookAt(k, false, s, c, v);
    s' := WalkAndFill(k, s, v);
  }

  lemma CachedAlloc(k: Config, s: State, c: Core, f: Frame) returns (s': State)
    requires Cached(k, s, c) && s.cpu[c].at.SnapLocked? && f in s.fr && s.fr[f].role.Free?
    ensures Reaches(k, NONE, s, s') && Cached(k, s', c) && s'.cpu[c].at.Copying?
  {
    LookAt(k, false, s, c, s.cpu[c].v);
    s' := DoAlloc(k, s, c, f);
    CalmAct(k, s, s', c, Alloc(f));
  }

  /** The handler can complete its copy. */
  ghost predicate Reading(k: Config, s: State, c: Core) {
    Cached(k, s, c) && s.cpu[c].at.Copying? && s.cpu[c].was.frame in s.fr && CanCopyAll(k, s, c, s.cpu[c].was.frame)
  }

  lemma CachedFill(k: Config, s: State, c: Core) returns (s': State)
    requires Cached(k, s, c) && s.cpu[c].at.Copying?
    ensures Reaches(k, NONE, s, s') && Reading(k, s', c)
  {
    var v := s.cpu[c].v;
    Look(k, false, s, c, v);
    s' := DoMainFill(s, c, v);
    CalmFill(k, s, s', c, v);
  }

  lemma CachedCopy(k: Config, s: State, c: Core) returns (s': State)
    requires Reading(k, s, c)
    ensures Reaches(k, NONE, s, s') && Cached(k, s', c) && s'.cpu[c].at.Copying? && s'.cpu[c].n == PGSIZE
  {
    var f := s.cpu[c].was.frame;
    s' := Copied(s, c, f);
    CopyAll(k, NONE, s, c, f);
    GoodReaches(k, s, s');
  }

  lemma CachedMiss(k: Config, s: State, c: Core) returns (s': State)
    requires Cached(k, s, c) && s.cpu[c].at.Copying? && s.cpu[c].n == PGSIZE && !HitsSnap(s, c)
    ensures Reaches(k, NONE, s, s') && Cached(k, s', c) && s'.cpu[c].at.Overtaken?
  {
    s' := DoMiss(s, c, Overtaken);
    CalmAct(k, s, s', c, MissPublish);
  }

  lemma CachedReload(k: Config, s: State, c: Core) returns (s': State)
    requires Cached(k, s, c) && s.cpu[c].at.Overtaken?
    ensures Reaches(k, NONE, s, s') && Cached(k, s', c) && s'.cpu[c].at.Reloaded?
  {
    s' := DoReload(s, c);
    CalmAct(k, s, s', c, Reload);
  }

  /** The handler replaces the shared frame, and skips the shootdown. */
  lemma CachedPublish(k: Config, s: State, c: Core, act: Act) returns (s': State)
    requires Cached(k, s, c) && CanDo(k, s, c, act) && (act.Publish? || act.Overwrite?)
    ensures Reaches(k, NONE, s, s') && Exposed(k, s', s.cpu[c].v) && Ahead(k, s', s.cpu[c].v, c)
  {
    LookAt(k, false, s, c, s.cpu[c].v);
    s' := if act.Publish? then DoPublish(s, c) else DoOverwrite(s, c);
    CalmAct(k, s, s', c, act);
  }

  lemma PublishBreaks(k: Config, s: State, c: Core, act: Act) returns (s': State)
    requires Cached(k, s, c) && CanDo(k, s, c, act) && (act.Publish? || act.Overwrite?)
    ensures Reaches(k, NONE, s, s') && Broken(k, s', s.cpu[c].v)
  {
    var m := CachedPublish(k, s, c, act);
    var n := DriveHome(k, m, s.cpu[c].v, c);
    s' := WriteBreaks(k, n, s.cpu[c].v, c);
    ReachesTrans(k, NONE, m, n, s');
    ReachesTrans(k, NONE, s, m, s');
  }

  lemma ReadyToPublish(k: Config, s: State, c: Core)
    requires Cached(k, s, c)
    ensures s.cpu[c].at.Reloaded? ==> CanDo(k, s, c, Overwrite)
    ensures s.cpu[c].at.Copying? && s.cpu[c].n == PGSIZE && HitsSnap(s, c) ==> CanDo(k, s, c, Publish)
  {
    LookAt(k, false, s, c, s.cpu[c].v);
  }

  lemma OvertakenBreaks(k: Config, s: State, c: Core) returns (s': State, v: Page)
    requires Cached(k, s, c) && (s.cpu[c].at.Overtaken? || s.cpu[c].at.Reloaded?)
    ensures Reaches(k, NONE, s, s') && Broken(k, s', v)
  {
    var m := s;
    if s.cpu[c].at.Overtaken? { m := CachedReload(k, s, c); } else { ReachesSelf(k, NONE, s); }
    ReadyToPublish(k, m, c);
    s' := PublishBreaks(k, m, c, Overwrite);
    v := m.cpu[c].v;
    ReachesTrans(k, NONE, s, m, s');
  }

  lemma CopiedBreaks(k: Config, s: State, c: Core) returns (s': State, v: Page)
    requires Cached(k, s, c) && s.cpu[c].at.Copying? && s.cpu[c].n == PGSIZE
    ensures Reaches(k, NONE, s, s') && Broken(k, s', v)
  {
    if HitsSnap(s, c) {
      ReadyToPublish(k, s, c);
      s' := PublishBreaks(k, s, c, Publish);
      v := s.cpu[c].v;
    } else {
      var m := CachedMiss(k, s, c);
      s', v := OvertakenBreaks(k, m, c);
      ReachesTrans(k, NONE, s, m, s');
    }
  }

  lemma CopyingBreaks(k: Config, s: State, c: Core) returns (s': State, v: Page)
    requires Cached(k, s, c) && s.cpu[c].at.Copying?
    ensures Reaches(k, NONE, s, s') && Broken(k, s', v)
  {
    var m := CachedFill(k, s, c);
    var n := CachedCopy(k, m, c);
    s', v := CopiedBreaks(k, n, c);
    ReachesTrans(k, NONE, m, n, s');
    ReachesTrans(k, NONE, s, m, s');
  }

  lemma CachedBreaks(k: Config, s: State, c: Core, f: Frame) returns (s': State, v: Page)
    requires Cached(k, s, c) && f in s.fr && s.fr[f].role.Free?
    ensures Reaches(k, NONE, s, s') && Broken(k, s', v)
  {
    if s.cpu[c].at.SnapLocked? {
      var m := CachedAlloc(k, s, c, f);
      s', v := CopyingBreaks(k, m, c);
      ReachesTrans(k, NONE, s, m, s');
    } else if s.cpu[c].at.Copying? {
      s', v := CopyingBreaks(k, s, c);
    } else {
      s', v := OvertakenBreaks(k, s, c);
    }
  }

  lemma EarlyBreaks(k: Config, s: State, c: Core, f: Frame) returns (s': State, v: Page)
    requires Early(k, s, c) && f in s.fr && s.fr[f].role.Free?
    ensures Reaches(k, NONE, s, s') && Broken(k, s', v)
    decreases if s.cpu[c].at.Sampled? then 2 else if s.cpu[c].at.SnapSeen? then 1 else 0
  {
    var m := s;
    if HoldsSnap(s.cpu[c].at) {
      m := CacheIt(k, s, c);
      s', v := CachedBreaks(k, m, c, f);
    } else {
      if s.cpu[c].at.Sampled? { m := EarlyLoad(k, s, c); } else { m := EarlyLock(k, s, c); }
      s', v := EarlyBreaks(k, m, c, f);
    }
    ReachesTrans(k, NONE, s, m, s');
  }

  // ---- A snapshot that does not start clean ----

  /** An outdated translation is in the TLB, none is in flight. */
  lemma StaleToTlb(k: Config, s: State, v: Page) returns (s': State)
    requires Good(k, false, s) && s.phase.Running? && Executing(k, s) && v in s.pg && !NoStale(s, v)
    ensures Reaches(k, NONE, s, s') && Calm(k, s') && s'.cpu == s.cpu && s'.pg == s.pg && s'.fr == s.fr
    ensures v in s'.stlb && s'.stlb[v].frame == s.pg[v].main.frame != s.pg[v].snap.frame
  {
    if v in s.stlb && s.stlb[v].frame != s.pg[v].snap.frame {
      s' := AbortWalk(k, s);
    } else {
      s' := FillWalk(k, s);
    }
    Look(k, false, s', k.snapCore, v);
  }

  lemma StaleBreaks(k: Config, s: State, v: Page, d: Core) returns (s': State)
    requires Good(k, false, s) && s.phase.Running? && Executing(k, s) && v in s.pg && !NoStale(s, v)
    requires d in s.cpu && d != k.snapCore && s.cpu[d].at.Idle?
    requires forall c <- s.cpu :: s.cpu[c].v == v ==> !Shoots(k, s.cpu[c])
    ensures Reaches(k, NONE, s, s') && Broken(k, s', v)
  {
    var m := StaleToTlb(k, s, v);
    LookAt(k, false, m, d, v);
    if m.pg[v].mview == m.pg[v].sview {
      s' := ExposedBreaks(k, m, v, d);
      ReachesTrans(k, NONE, s, m, s');
    } else {
      s' := m;
    }
  }

  /** Before the thread state is set the two forms of the invariant agree. */
  lemma LoadedTight(k: Config, s: State)
    requires Inv(k, false, s) && !s.phase.Running?
    ensures Inv(k, true, s)
  {
    forall c <- s.cpu | c != k.snapCore ensures MainHandlerOk(k, true, s, c) { assert MainHandlerOk(k, false, s, c); }
    if Live(s) { forall v <- s.stlb ensures TrOk(k, true, s, v,
        s.stlb[v]) { assert TrOk(k, false, s, v, s.stlb[v]); } }
  }

  lemma LoadedNeverShoots(k: Config, s: State, c: Core)
    requires Inv(k, false, s) && s.phase.Loaded? && Executing(k, s) && c in s.cpu
    ensures !Shoots(k, s.cpu[c])
  {
    if c != k.snapCore { assert MainHandlerOk(k, false, s, c); }
  }

  lemma EarlyStarts(k: Config, s: State, c: Core, f: Frame) returns (z: State, v: Page)
    requires Good(k, false, s) && s.phase.Running? && Executing(k, s) && EarlySample(k, s, c)
    requires f in s.fr && s.fr[f].role.Free?
    ensures Reaches(k, NONE, s, z) && Broken(k, z, v)
  {
    var m := AbortWalk(k, s);
    z, v := EarlyBreaks(k, m, c, f);
    ReachesTrans(k, NONE, s, m, z);
  }

  lemma UncleanBreaks(k: Config, s: State, s': State, f: Frame, d: Core) returns (z: State, v: Page)
    requires Inv(k, false, s) && Enabled(k, s, SetStarted) && s' == Exec(k, s, SetStarted) && !Clean(k, s)
    requires f in s.fr && s.fr[f].role.Free? && d in s.cpu && d != k.snapCore && s.cpu[d].at.Idle?
    ensures Reaches(k, NONE, s', z) && Broken(k, z, v)
  {
    StepKeeps(k, false, s, s', SetStarted);
    Seal(k, false, s');
    if c :| c in s.cpu && EarlySample(k, s, c) {
      z, v := EarlyStarts(k, s', c, f);
    } else {
      v :| v in s.pg && !NoStale(s, v);
      forall c <- s.cpu ensures !Shoots(k, s.cpu[c]) { LoadedNeverShoots(k, s, c); }
      z := StaleBreaks(k, s', v, d);
    }
  }

  /** At the moment the snapshot worker sets its thread state, in any state that is reached without a double lock:
      whatever happens next, short of a double lock or a late return, the snapshot reads only its own view, if and
      only if it starts clean. f is a free page; d is a main core outside the handler, such as the one that branches
      off, which waits for the thread state. */
  lemma IsolationExact(k: Config, s: State, ts: seq<Step>, z: State, z': State, f: Frame, d: Core)
    requires Init(k, s) && Valid(k, s, ts) && Within(NO_DOUBLE, k, s, ts) && z == After(k, s, ts)
    requires Enabled(k, z, SetStarted) && z' == Exec(k, z, SetStarted)
    requires f in z.fr && z.fr[f].role.Free? && d in z.cpu && d != k.snapCore && z.cpu[d].at.Idle?
    ensures Isolated(k, NONE, z') <==> Clean(k, z)
  {
    InitInv(k, false, s);
    RunKeeps(k, false, NO_DOUBLE, s, ts);
    if Clean(k, z) {
      LoadedTight(k, z);
      StepKeeps(k, true, z, z', SetStarted);
      TightIsIsolated(k, z');
    } else {
      var x, v := UncleanBreaks(k, z, z', f, d);
      assert Reaches(k, NONE, z', x) && Broken(k, x, v);
    }
  }
}
