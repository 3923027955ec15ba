/**
 The compare-and-swap of line 993 takes the snapshot's lock bit without checking that
 it was clear. Whenever it is about to hit an entry that the snapshot core's
 own handler has locked, the run can go on so that a write of the snapshot thread is lost.
 */
module CowLostWrite {
  import opened PageEntry
  import opened CowProtocol
  import opened CowInvariant
  import opened CowSafety
  import opened CowRuns

  const DOUBLE := Allow(true, false, false)

  /** A double lock is about to happen only while the snapshot core's own handler holds that page's entry. */
  lemma HeldByOwn(k: Config, s: State, t: Step)
    requires Good(k, false, s) && Enabled(k, s, t) && DoubleLock(s, t)
    ensures k.snapCore in s.cpu && s.cpu[k.snapCore].v == s.cpu[t.c].v && HoldsOwn(s.cpu[k.snapCore].at)
  {
    Unseal(k, false, s);
    assert LockOk(k, s, s.cpu[t.c].v) && MainHandlerOk(k, false, s, t.c);
    var o := s.pg[s.cpu[t.c].v].sowner.core;
    assert o == k.snapCore || MainHandlerOk(k, false, s, o);
  }

  /** The first double lock of any run, whatever other hazards it meets, hits an entry that the snapshot core's own
      handler holds. */
  lemma HeldBySnapshot(k: Config, s: State, ts: seq<Step>, z: State, t: Step)
    requires Init(k, s) && Valid(k, s, ts) && Within(NO_DOUBLE, k, s, ts) && z == After(k, s, ts)
    requires Enabled(k, z, t) && DoubleLock(z, t)
    ensures k.snapCore in z.cpu && z.cpu[k.snapCore].v == z.cpu[t.c].v && HoldsOwn(z.cpu[k.snapCore].at)
  {
    InitInv(k, false, s);
    RunKeeps(k, false, NO_DOUBLE, s, ts);
    Seal(k, false, z);
    HeldByOwn(k, z, t);
  }

  // ---- A snapshot thread that never copies a page ----

  lemma OwnLockEntering(k: Config, s: State, act: Act)
    requires CanDo(k, s, k.snapCore, act) && Entering(act) && !act.LockEntry?
    ensures HoldsOwn(Doing(k, s, k.snapCore, act).cpu[k.snapCore].at) ==> HoldsOwn(s.cpu[k.snapCore].at)
  {}

  lemma OwnLockLater(k: Config, s: State, act: Act)
    requires CanDo(k, s, k.snapCore, act) && !Entering(act) && !Pairing(act)
    ensures HoldsOwn(Doing(k, s, k.snapCore, act).cpu[k.snapCore].at) ==> HoldsOwn(s.cpu[k.snapCore].at)
  {
    if Filling(act) { } else if Publishing(act) { } else if Releasing(act) { } else { }
  }

  lemma OwnLock(k: Config, s: State, c: Core, act: Act)
    requires k.snapCore in s.cpu && CanDo(k, s, c, act) && (c == k.snapCore ==> !act.LockEntry?)
    ensures HoldsOwn(Doing(k, s, c, act).cpu[k.snapCore].at) ==> HoldsOwn(s.cpu[k.snapCore].at)
  {
    if c == k.snapCore {
      if Entering(act) { OwnLockEntering(k, s, act); } else { OwnLockLater(k, s, act); }
    }
  }

  lemma OwnStep(k: Config, s: State, s': State, t: Step)
    requires k.snapCore in s.cpu && !HoldsOwn(s.cpu[k.snapCore].at) && t != Do(k.snapCore, LockEntry)
    requires Enabled(k, s, t) && s' == Exec(k, s, t) && k.snapCore in s'.cpu
    ensures !HoldsOwn(s'.cpu[k.snapCore].at)
  {
    if t.Do? { OwnLock(k, s, t.c, t.act); }
  }

  /** The snapshot core takes no copy-on-write fault of its own. */
  predicate ReadOnly(k: Config, ts: seq<Step>) { forall i :: 0 <= i < |ts| ==> ts[i] != Do(k.snapCore, LockEntry) }

  lemma {:induction false} ReadOnlyRun(k: Config, a: Allow, s: State, ts: seq<Step>)
    requires Inv(k, false, s) && !HoldsOwn(s.cpu[k.snapCore].at) && Valid(k, s, ts) && ReadOnly(k, ts)
    requires Within(a, k, s, ts)
    ensures Within(a.(double := false), k, s, ts)
    decreases |ts|
  {
    if ts != [] {
      var s' := Exec(k, s, ts[0]);
      Seal(k, false, s);
      if DoubleLock(s, ts[0]) { HeldByOwn(k, s, ts[0]); }
      StepKeeps(k, false, s, s', ts[0]);
      assert ts[0] != Do(k.snapCore, LockEntry);
      OwnStep(k, s, s', ts[0]);
      forall i | 0 <= i < |ts[1..]| ensures ts[1..][i] != Do(k.snapCore,
          LockEntry) { assert ts[1..][i] == ts[i + 1]; }
      ReadOnlyRun(k, a, s', ts[1..]);
    }
  }

  /** If the snapshot thread takes no copy-on-write fault, no double lock happens, whatever other hazards the run
      meets. */
  lemma ReadOnlyIsGuarded(k: Config, a: Allow, s: State, ts: seq<Step>)
    requires Init(k, s) && Valid(k, s, ts) && ReadOnly(k, ts) && Within(a, k, s, ts)
    ensures Within(a.(double := false), k, s, ts)
  {
    InitInv(k, false, s);
    ReadOnlyRun(k, a, s, ts);
  }

  // ---- The lost write ----

  /** Main core c stands before line 993 with the value of an entry that the snapshot core holds locked. */
  ghost predicate DoublyAimed(k: Config, s: State, c: Core) {
    Good(k, false, s) && s.phase.Running? && MainAt(k, s, c, SnapSeen) && HitsSnap(s, c) && s.cpu[c].snap.lock
  }

  /** The snapshot thread executes on, and no walk is in flight. */
  ghost predicate Aimed(k: Config, s: State, c: Core) { DoublyAimed(k, s, c) && s.user && s.walk.NoWalk? }

  lemma AimedResume(k: Config, s: State, c: Core) returns (s': State)
    requires DoublyAimed(k, s, c)
    ensures Reaches(k, DOUBLE, s, s') && Aimed(k, s', c) && s'.fr == s.fr && s'.cpu == s.cpu
  {
    var m := AbortWalk(k, s);
    if s.user {
      s' := m;
    } else {
      var n := Exec(k, m, InvalidateAll);
      GoodStep(k, m, n, InvalidateAll);
      s' := Exec(k, n, Resume);
      GoodStep(k, n, s', Resume);
      ReachesTrans(k, NONE, m, n, s');
      ReachesTrans(k, NONE, s, m, s');
    }
    ReachesMore(k, NONE, DOUBLE, s, s');
  }

  lemma AimedCheck(k: Config, s: State, c: Core) returns (s': State)
    requires Aimed(k, s, c) && k.snapCore in s.cpu && s.cpu[k.snapCore].at.Locked?
    ensures Reaches(k, DOUBLE, s, s') && Aimed(k, s', c) && k.snapCore in s'.cpu && s'.cpu[k.snapCore].at.Counted?
    ensures s'.fr == s.fr && s'.cpu[c] == s.cpu[c]
  {
    HeldByOwn(k, s, Do(c, LockSnap));
    LookAt(k, false, s, c, s.cpu[c].v);
    s' := DoCheckRef(k, s, k.snapCore);
    GoodStep(k, s, s', Do(k.snapCore, CheckRef));
    ReachesMore(k, NONE, DOUBLE, s, s');
  }

  lemma AimedAlloc(k: Config, s: State, c: Core, f: Frame) returns (s': State)
    requires Aimed(k, s, c) && k.snapCore in s.cpu && s.cpu[k.snapCore].at.Counted? && f in s.fr && s.fr[f].role.Free?
    ensures Reaches(k, DOUBLE, s, s') && Aimed(k, s', c) && k.snapCore in s'.cpu && s'.cpu[k.snapCore].at.OwnCopying?
    ensures f in s'.fr && s'.fr == s.fr[f := s'.fr[f]] && s'.cpu[c] == s.cpu[c]
  {
    HeldByOwn(k, s, Do(c, LockSnap));
    s' := DoAlloc(k, s, k.snapCore, f);
    GoodStep(k, s, s', Do(k.snapCore, Alloc(f)));
    ReachesMore(k, NONE, DOUBLE, s, s');
  }

  /** Both handlers copy page v; p and q are where they stand. All three frames
      are distinct, and the shared one still holds what both sides must see. */
  predicate Clash(k: Config, s: State, c: Core, p: Point, q: Point) {
    && c in s.cpu && c != k.snapCore && k.snapCore in s.cpu
    && var h, o := s.cpu[c], s.cpu[k.snapCore];
    && h.at == p && o.at == q && h.v == o.v && h.v in s.pg
    && var v, f := h.v, h.was.frame;
    && o.was.frame == f && h.snap.frame == f && f in s.fr && h.was.p && o.was.p
    && s.pg[v].main.frame == f && s.pg[v].main.p && s.pg[v].snap.p
    && o.copy in s.fr && o.copy != f && s.phase.Running? && s.user && s.walk.NoWalk?
    && |s.fr[f].data| == |s.fr[o.copy].data| == |s.pg[v].mview| == |s.pg[v].sview| == PGSIZE
    && (p.Copying? || p.Overtaken? || p.Reloaded? ==>
          h.copy in s.fr && h.copy != f && h.copy != o.copy && |s.fr[h.copy].data| == PGSIZE)
    && (q.OwnCopying? ==> 0 <= o.n <= PGSIZE && s.pg[v].snap.frame == f)
  }

  /** The main core's copy is complete, and the shared frame still agrees with it. */
  predicate MainCopied(s: State, c: Core) {
    && c in s.cpu && s.cpu[c].v in s.pg && s.cpu[c].copy in s.fr && s.cpu[c].was.frame in s.fr && s.cpu[c].n == PGSIZE
    && s.fr[s.cpu[c].copy].data == s.fr[s.cpu[c].was.frame].data
  }

  lemma AimedLock(k: Config, s: State, c: Core) returns (s': State)
    requires Aimed(k, s, c) && k.snapCore in s.cpu && s.cpu[k.snapCore].at.OwnCopying?
    ensures Reaches(k, DOUBLE, s, s') && Clash(k, s', c, SnapLocked, OwnCopying)
    ensures s'.fr == s.fr && s'.cpu[c].v == s.cpu[c].v && s'.cpu[k.snapCore] == s.cpu[k.snapCore]
    ensures s.fr[s'.cpu[c].was.frame].data == s'.pg[s.cpu[c].v].sview && s.fr[s'.cpu[k.snapCore].copy].role.Fresh?
    ensures s.fr[s'.cpu[c].was.frame].role.Both? && Sized(s)
  {
    HeldByOwn(k, s, Do(c, LockSnap));
    Look(k, false, s, c, s.cpu[c].v);
    s' := DoLockSnap(s, c);
    ReachesStep(k, DOUBLE, s, Do(c, LockSnap));
  }

  lemma ClashAlloc(k: Config, s: State, c: Core, f: Frame) returns (s': State)
    requires Clash(k, s, c, SnapLocked, OwnCopying) && f in s.fr && s.fr[f].role.Free? && |s.fr[f].data| == PGSIZE
    requires f != s.cpu[c].was.frame && f != s.cpu[k.snapCore].copy
    ensures Reaches(k, DOUBLE, s, s') && Clash(k, s', c, Copying, OwnCopying) && s'.cpu[c].n == 0
    ensures s'.cpu[c].v == s.cpu[c].v && s'.pg == s.pg && s'.cpu[c].was == s.cpu[c].was
    ensures s'.fr[s.cpu[c].was.frame].data == s.fr[s.cpu[c].was.frame].data
  {
    s' := DoAlloc(k, s, c, f);
    ReachesStep(k, DOUBLE, s, Do(c, Alloc(f)));
  }

  lemma ClashCopy(k: Config, s: State, c: Core) returns (s': State)
    requires Clash(k, s, c, Copying, OwnCopying) && s.cpu[c].n == 0
    ensures Reaches(k, DOUBLE, s, s') && Clash(k, s', c, Copying, OwnCopying) && MainCopied(s', c)
    ensures s'.cpu[c].v == s.cpu[c].v && s'.pg[s.cpu[c].v].sview == s.pg[s.cpu[c].v].sview
    ensures s'.cpu[c].was == s.cpu[c].was && s'.fr[s.cpu[c].was.frame].data == s.fr[s.cpu[c].was.frame].data
  {
    var v, f := s.cpu[c].v, s.cpu[c].was.frame;
    var m := DoMainFill(s, c, v);
    ReachesStep(k, DOUBLE, s, MainFill(c, v));
    CopyAll(k, DOUBLE, m, c, f);
    s' := Copied(m, c, f);
    assert m.fr[m.cpu[c].copy].data[..0] + m.fr[f].data[0..] == m.fr[f].data;
    ReachesTrans(k, DOUBLE, s, m, s');
  }

  /** A walk and fill on the snapshot core: it now translates v as the current entry does. */
  lemma SnapTranslates(k: Config, s: State, v: Page) returns (s': State)
    requires CanSnapWalk(s, v)
    ensures Reaches(k, DOUBLE, s, s')
    ensures s' == s.(pg := s.pg[v := s.pg[v].(snap := s.pg[v].snap.(a := true))],
                     stlb := s.stlb[v := Tr(s.pg[v].snap.frame, s.pg[v].snap.w)])
  {
    var m := DoSnapWalk(s, v);
    ReachesStep(k, DOUBLE, s, SnapWalk(v));
    s' := DoSnapFill(m);
    ReachesStep(k, DOUBLE, m, SnapFill);
    ReachesTrans(k, DOUBLE, s, m, s');
  }

  /** The snapshot core completes its own copy. */
  lemma ClashOwnCopy(k: Config, s: State, c: Core) returns (s': State)
    requires Clash(k, s, c, Copying, OwnCopying) && MainCopied(s, c)
    ensures Reaches(k, DOUBLE, s, s') && Clash(k, s', c, Copying, OwnCopying) && MainCopied(s', c)
    ensures s'.cpu[c] == s.cpu[c] && s'.cpu[k.snapCore].n == PGSIZE
  {
    var m := SnapTranslates(k, s, s.cpu[c].v);
    CopyAll(k, DOUBLE, m, k.snapCore, s.cpu[c].was.frame);
    s' := Copied(m, k.snapCore, s.cpu[c].was.frame);
    ReachesTrans(k, DOUBLE, s, m, s');
  }

  /** The snapshot core stores its entry, pointing to its own copy. */
  lemma ClashOwnStore(k: Config, s: State, c: Core) returns (s': State)
    requires Clash(k, s, c, Copying, OwnCopying) && MainCopied(s, c) && s.cpu[k.snapCore].n == PGSIZE
    ensures Reaches(k, DOUBLE, s, s') && Clash(k, s', c, Copying, OwnDropping) && MainCopied(s', c)
    ensures s'.cpu[c] == s.cpu[c]
    ensures s'.pg[s.cpu[c].v].snap.frame == s'.cpu[k.snapCore].copy && s'.pg[s.cpu[c].v].snap.w
  {
    s' := DoOwnStore(s, k.snapCore);
    ReachesStep(k, DOUBLE, s, Do(k.snapCore, OwnStore));
  }

  /** The snapshot core drops its reference to the shared frame. */
  lemma ClashOwnDrop(k: Config, s: State, c: Core) returns (s': State)
    requires Clash(k, s, c, Copying, OwnDropping) && MainCopied(s, c)
    ensures Reaches(k, DOUBLE, s, s') && Clash(k, s', c, Copying, Flushing) && MainCopied(s', c)
    ensures s'.cpu[c] == s.cpu[c] && s'.cpu[k.snapCore].copy == s.cpu[k.snapCore].copy && s'.pg == s.pg
  {
    s' := DoOwnDrop(k, s, k.snapCore);
    ReachesStep(k, DOUBLE, s, Do(k.snapCore, OwnDrop));
  }

  /** The snapshot core flushes and leaves its handler. */
  lemma ClashOwnFlush(k: Config, s: State, c: Core) returns (s': State)
    requires Clash(k, s, c, Copying, Flushing) && MainCopied(s, c)
    ensures Reaches(k, DOUBLE, s, s') && Clash(k, s', c, Copying, Idle) && MainCopied(s', c)
    ensures s'.cpu[c] == s.cpu[c] && s'.cpu[k.snapCore].copy == s.cpu[k.snapCore].copy && s'.pg == s.pg
  {
    s' := DoOwnFlush(s, k.snapCore);
    ReachesStep(k, DOUBLE, s, Do(k.snapCore, OwnFlush));
  }

  /** The snapshot core translates the page to its copy and writes it. */
  lemma ClashWrite(k: Config, s: State, c: Core) returns (s': State)
    requires Clash(k, s, c, Copying, Idle) && MainCopied(s, c)
    requires s.pg[s.cpu[c].v].snap.frame == s.cpu[k.snapCore].copy && s.pg[s.cpu[c].v].snap.w
    ensures Reaches(k, DOUBLE, s, s') && Clash(k, s', c, Copying, Idle) && MainCopied(s', c) && s'.cpu[c] == s.cpu[c]
    ensures s'.pg[s.cpu[c].v].snap.frame != s.cpu[c].snap.frame
    ensures s'.pg[s.cpu[c].v].sview != s'.fr[s.cpu[c].copy].data
  {
    var v := s.cpu[c].v;
    var m := SnapTranslates(k, s, v);
    var b: byte := if s.fr[s.cpu[c].copy].data[0] == 0 then 1 else 0;
    s' := DoSnapWrite(m, v, 0, b);
    ReachesStep(k, DOUBLE, m, SnapWrite(v, 0, b));
    ReachesTrans(k, DOUBLE, s, m, s');
    assert s'.pg[v].sview[0] == b;
  }

  lemma ClashMiss(k: Config, s: State, c: Core) returns (s': State)
    requires Clash(k, s, c, Copying, Idle) && s.pg[s.cpu[c].v].snap.frame != s.cpu[c].snap.frame
    requires s.cpu[c].n == PGSIZE
    ensures Reaches(k, DOUBLE, s, s') && s' == Goto(s, c, s.cpu[c].(at := Overtaken))
  {
    s' := DoMiss(s, c, Overtaken);
    ReachesStep(k, DOUBLE, s, Do(c, MissPublish));
  }

  /** The main core finds the snapshot's entry changed and reads it again. */
  lemma ClashReload(k: Config, s: State, c: Core) returns (s': State)
    requires Clash(k, s, c, Copying, Idle) && s.pg[s.cpu[c].v].snap.frame != s.cpu[c].snap.frame
    requires s.cpu[c].n == PGSIZE
    ensures Reaches(k, DOUBLE, s, s') && MainAt(k, s', c, Reloaded)
    ensures s' == s.(cpu := s'.cpu) && s'.cpu == s.cpu[c := s'.cpu[c]] && s'.cpu[c].copy == s.cpu[c].copy
    ensures s'.cpu[c].v == s.cpu[c].v && s'.cpu[c].was == s.cpu[c].was && s'.cpu[c].snap == s.pg[s.cpu[c].v].snap
  {
    var m := ClashMiss(k, s, c);
    s' := DoReload(m, c);
    ReachesStep(k, DOUBLE, m, Do(c, Reload));
    ReachesTrans(k, DOUBLE, s, m, s');
  }

  lemma StaleStore(k: Config, s: State, c: Core) returns (s': State)
    requires MainAt(k, s, c, Reloaded) && s.cpu[c].copy in s.fr && s.cpu[c].was.frame in s.fr && s.cpu[c].v in s.pg
    requires s.pg[s.cpu[c].v].snap.p
    requires s.phase.Running? && s.user && s.walk.NoWalk? && k.snapCore in s.cpu && s.cpu[k.snapCore].at.Idle?
    requires s.cpu[c].snap == s.pg[s.cpu[c].v].snap && s.pg[s.cpu[c].v].sview != s.fr[s.cpu[c].copy].data
    ensures Reaches(k, DOUBLE, s, s') && Broken(k, s', s.cpu[c].v)
  {
    var m := DoOverwrite(s, c);
    ReachesStep(k, DOUBLE, s, Do(c, Overwrite));
    s' := SnapTranslates(k, m, s.cpu[c].v);
    ReachesTrans(k, DOUBLE, s, m, s');
  }

  /** The main core overwrites the snapshot's entry with its stale copy. */
  lemma ClashOverwrite(k: Config, s: State, c: Core) returns (s': State)
    requires Clash(k, s, c, Copying, Idle) && s.pg[s.cpu[c].v].snap.frame != s.cpu[c].snap.frame
    requires s.cpu[c].n == PGSIZE
    requires s.pg[s.cpu[c].v].sview != s.fr[s.cpu[c].copy].data
    ensures Reaches(k, DOUBLE, s, s') && Broken(k, s', s.cpu[c].v)
  {
    var m := ClashReload(k, s, c);
    s' := StaleStore(k, m, c);
    ReachesTrans(k, DOUBLE, s, m, s');
  }

  lemma OwnCopyingLoses(k: Config, s: State, c: Core, f: Frame) returns (s': State)
    requires Aimed(k, s, c) && k.snapCore in s.cpu && s.cpu[k.snapCore].at.OwnCopying? && f in s.fr
    requires s.fr[f].role.Free?
    ensures Reaches(k, DOUBLE, s, s') && Broken(k, s', s.cpu[c].v)
  {
    var s1 := AimedLock(k, s, c);
    var s2 := ClashAlloc(k, s1, c, f);
    var s3 := ClashCopy(k, s2, c);
    var s4 := ClashOwnCopy(k, s3, c);
    var s5 := ClashOwnStore(k, s4, c);
    var s6 := ClashOwnDrop(k, s5, c);
    var s7 := ClashOwnFlush(k, s6, c);
    var s8 := ClashWrite(k, s7, c);
    s' := ClashOverwrite(k, s8, c);
    ReachesTrans(k, DOUBLE, s7, s8, s');
    ReachesTrans(k, DOUBLE, s6, s7, s');
    ReachesTrans(k, DOUBLE, s5, s6, s');
    ReachesTrans(k, DOUBLE, s4, s5, s');
    ReachesTrans(k, DOUBLE, s3, s4, s');
    ReachesTrans(k, DOUBLE, s2, s3, s');
    ReachesTrans(k, DOUBLE, s1, s2, s');
    ReachesTrans(k, DOUBLE, s, s1, s');
  }

  lemma AimedLoses(k: Config, s: State, c: Core, f: Frame, g: Frame) returns (s': State)
    requires Aimed(k, s, c) && f in s.fr && s.fr[f].role.Free? && g in s.fr && s.fr[g].role.Free? && f != g
    ensures Reaches(k, DOUBLE, s, s') && Broken(k, s', s.cpu[c].v)
    decreases if k.snapCore in s.cpu && s.cpu[k.snapCore].at.Locked? then 1 else 0
  {
    HeldByOwn(k, s, Do(c, LockSnap));
    if s.cpu[k.snapCore].at.Locked? {
      var m := AimedCheck(k, s, c);
      s' := AimedLoses(k, m, c, f, g);
      ReachesTrans(k, DOUBLE, s, m, s');
    } else if s.cpu[k.snapCore].at.Counted? {
      var m := AimedAlloc(k, s, c, g);
      s' := OwnCopyingLoses(k, m, c, f);
      ReachesTrans(k, DOUBLE, s, m, s');
    } else {
      s' := OwnCopyingLoses(k, s, c, f);
    }
  }

  /** Every double lock that is about to happen can be continued to a state in
      which the snapshot thread reads a page and does not find its own last write. */
  lemma DoubleLockLosesWrite(k: Config, s: State, c: Core, f: Frame, g: Frame) returns (s': State)
    requires DoublyAimed(k, s, c) && f in s.fr && s.fr[f].role.Free? && g in s.fr && s.fr[g].role.Free? && f != g
    ensures Reaches(k, DOUBLE, s, s') && Broken(k, s', s.cpu[c].v)
  {
    var m := AimedResume(k, s, c);
    s' := AimedLoses(k, m, c, f, g);
    ReachesTrans(k, DOUBLE, s, m, s');
  }
}
