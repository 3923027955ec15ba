/**
 The return of a shootdown. A handler that goes on although the snapshot core still holds an outdated
 translation opens the page for writing, and the snapshot thread can then read the main side's writes.
 */
module CowLate {
  import opened PageEntry
  import opened CowProtocol
  import opened CowInvariant
  import opened CowSafety
  import opened CowRuns
  import opened CowDrive
  import opened CowExact

  /** Main core c is back from its shootdown of page v, of which the snapshot core holds
      an outdated translation that nothing obliges it to drop. */
  ghost predicate Lagging(k: Config, s: State, v: Page, c: Core) {
    && Good(k, false, s) && k.snapCore in s.cpu && s.phase.Running? && s.walk.NoWalk? && v in s.pg && v in s.stlb
    && s.stlb[v].frame == s.pg[v].main.frame != s.pg[v].snap.frame && s.pg[v].mview == s.pg[v].sview
    && c in s.cpu && c != k.snapCore && s.cpu[c].v == v && s.cpu[c].at.Dropping?
    && !OwnFault(k, s, v) && (!s.user ==> v !in s.pend)
  }

  // ---- The snapshot core comes back to its thread ----

  lemma LagInvalidate(k: Config, s: State, v: Page, c: Core, u: Page) returns (s': State)
    requires Lagging(k, s, v, c) && !s.user && u in s.pend
    ensures Reaches(k, NONE, s, s') && Lagging(k, s', v, c) && !s'.user && s'.pend == s.pend - {u} && s'.fr == s.fr
  {
    s' := Exec(k, s, Invalidate(u));
    GoodStep(k, s, s', Invalidate(u));
  }

  lemma OneOf(ps: set<Page>) returns (u: Page)
    requires ps != {}
    ensures u in ps
  {
    assert (forall x :: x !in ps) ==> ps == {};
    u :| u in ps;
  }

  lemma LagResume(k: Config, s: State, v: Page, c: Core) returns (s': State)
    requires Lagging(k, s, v, c) && !s.user
    ensures Reaches(k, NONE, s, s') && Lagging(k, s', v, c) && s'.user && s'.fr == s.fr
    decreases |s.pend|
  {
    if s.pend == {} {
      s' := Exec(k, s, Resume);
      GoodStep(k, s, s', Resume);
    } else {
      var u := OneOf(s.pend);
      var m := LagInvalidate(k, s, v, c, u);
      s' := LagResume(k, m, v, c);
      ReachesTrans(k, NONE, s, m, s');
    }
  }

  // ---- The snapshot core leaves a fault of its own on another page ----

  /** What the snapshot core's handler leaves alone while it is at another page than v. */
  predicate Beside(k: Config, s: State, s': State, v: Page) {
    && v in s.pg && v in s'.pg && s'.pg[v] == s.pg[v] && (v in s.stlb ==> v in s'.stlb && s'.stlb[v] == s.stlb[v])
    && (s.walk.NoWalk? ==> s'.walk.NoWalk?) && s'.user == s.user && s'.phase == s.phase && s'.pend == s.pend
    && (forall c <- s.cpu :: c != k.snapCore ==> c in s'.cpu && s'.cpu[c] == s.cpu[c])
    && k.snapCore in s.cpu && k.snapCore in s'.cpu && (s'.cpu[k.snapCore].at.Idle? || s'.cpu[k.snapCore].v != v)
  }

  lemma OwnActBeside(k: Config, s: State, s': State, act: Act, v: Page)
    requires k.snapCore in s.cpu && CanDo(k, s, k.snapCore, act) && !act.Fault? && s' == Doing(k, s, k.snapCore, act)
    requires v in s.pg && s.cpu[k.snapCore].v != v
    ensures Beside(k, s, s', v)
  {
    if Entering(act) { OwnEntersBeside(k, s, s', act, v); } else { OwnLeavesBeside(k, s, s', act, v); }
  }

  lemma OwnEntersBeside(k: Config, s: State, s': State, act: Act, v: Page)
    requires k.snapCore in s.cpu && CanDo(k, s, k.snapCore, act) && !act.Fault? && s' == Doing(k, s, k.snapCore, act)
    requires v in s.pg && s.cpu[k.snapCore].v != v && Entering(act)
    ensures Beside(k, s, s', v)
  {}

  lemma OwnLeavesBeside(k: Config, s: State, s': State, act: Act, v: Page)
    requires k.snapCore in s.cpu && CanDo(k, s, k.snapCore, act) && s' == Doing(k, s, k.snapCore, act)
    requires v in s.pg && s.cpu[k.snapCore].v != v && !Entering(act)
    ensures Beside(k, s, s', v)
  {
    if act.OwnStore? { OwnStoreBeside(k, s, s', v); }
    else if Filling(act) { OwnFillBeside(k, s, s', act, v); }
    else if act.OwnDrop? {} else {}
  }

  lemma OwnFillBeside(k: Config, s: State, s': State, act: Act, v: Page)
    requires k.snapCore in s.cpu && CanDo(k, s, k.snapCore, act) && s' == Doing(k, s, k.snapCore, act)
    requires v in s.pg && s.cpu[k.snapCore].v != v && Filling(act)
    ensures Beside(k, s, s', v)
  {}

  lemma OwnStoreBeside(k: Config, s: State, s': State, v: Page)
    requires k.snapCore in s.cpu && CanOwnStore(k, s, k.snapCore) && s' == DoOwnStore(s, k.snapCore)
    requires v in s.pg && s.cpu[k.snapCore].v != v
    ensures Beside(k, s, s', v)
  {}

  lemma LagAct(k: Config, s: State, s': State, v: Page, c: Core, act: Act)
    requires Lagging(k, s, v, c) && s.cpu[k.snapCore].v != v && !act.Fault?
    requires CanDo(k, s, k.snapCore, act) && s' == Doing(k, s, k.snapCore, act)
    ensures Lagging(k, s', v, c) && Reaches(k, NONE, s, s') && s'.user == s.user
  {
    OwnActBeside(k, s, s', act, v);
    GoodStep(k, s, s', Do(k.snapCore, act));
  }

  function OwnDrive(k: Config, s: State, f: Frame): Act
    requires k.snapCore in s.cpu
  {
    match s.cpu[k.snapCore].at
    case Enter => ReadRoot
    case Looked => LoadEntry
    case Seen => if HitsOwn(k, s, k.snapCore) then LockEntry else MissEntry
    case Locked => CheckRef
    case Counted => Alloc(f)
    case OwnCopying => OwnStore
    case OwnDropping => OwnDrop
    case _ => OwnFlush
  }

  function OwnRank(k: Config, s: State): nat
    requires k.snapCore in s.cpu
  {
    match s.cpu[k.snapCore].at
    case Enter => 8
    case Looked => 7
    case Seen => 6
    case Locked => 5
    case Counted => 4
    case OwnCopying => 3
    case OwnDropping => 2
    case Flushing => 1
    case _ => 0
  }

  /** The snapshot core is in a fault, with its copy complete if it is past its allocation, and a page if it is
      before. */
  predicate OwnReady(k: Config, s: State, f: Frame) {
    && k.snapCore in s.cpu && OwnPoint(s.cpu[k.snapCore].at) && !s.cpu[k.snapCore].at.Idle? && s.user && Live(s)
    && (s.cpu[k.snapCore].at.OwnCopying? ==> s.cpu[k.snapCore].n == PGSIZE)
    && (OwnRank(k, s) >= 4 ==> f in s.fr && s.fr[f].role.Free?)
  }

  lemma CanOwnDrive(k: Config, s: State, f: Frame)
    requires OwnReady(k, s, f) && OwnHere(k, s)
    ensures CanDo(k, s, k.snapCore, OwnDrive(k, s, f))
  {
    var p := s.cpu[k.snapCore].at;
    if p.Counted? { assert CanAlloc(k, s, k.snapCore, f); }
    else if p.OwnCopying? { assert CanOwnStore(k, s, k.snapCore); }
    else if p.OwnDropping? { assert CanOwnDrop(k, s, k.snapCore); }
    else if p.Locked? { assert CanDo(k, s, k.snapCore, CheckRef); }
    else if p.Flushing? { assert CanDo(k, s, k.snapCore, OwnFlush); }
    else {}
  }

  /** The handler has come closer to its end, and keeps a page to allocate while it still needs one. */
  predicate OwnCloser(k: Config, s: State, s': State, f: Frame) {
    && k.snapCore in s.cpu && k.snapCore in s'.cpu && OwnRank(k, s') < OwnRank(k, s)
    && (OwnRank(k, s') >= 4 ==> f in s'.fr && s'.fr[f].role.Free?)
  }

  predicate OwnHere(k: Config, s: State) {
    SnapHandlerOk(k, s) && PageOk(k, s, s.cpu[k.snapCore].v)
  }

  lemma OwnEnter(k: Config, s: State, s': State, f: Frame)
    requires OwnReady(k, s, f) && OwnHere(k, s) && s.cpu[k.snapCore].at.Enter? && s' == DoReadRoot(s, k.snapCore)
    ensures OwnCloser(k, s, s', f)
  {}

  lemma OwnLooked(k: Config, s: State, s': State, f: Frame)
    requires OwnReady(k, s, f) && OwnHere(k, s) && s.cpu[k.snapCore].at.Looked? && s' == DoLoadEntry(k, s, k.snapCore)
    ensures OwnCloser(k, s, s', f)
  {}

  lemma OwnHit(k: Config, s: State, s': State, f: Frame)
    requires OwnReady(k, s, f) && OwnHere(k, s) && s.cpu[k.snapCore].at.Seen? && HitsOwn(k, s, k.snapCore)
    requires s' == DoLockEntry(k, s, k.snapCore)
    ensures OwnCloser(k, s, s', f)
  {}

  lemma OwnMiss(k: Config, s: State, s': State, f: Frame)
    requires OwnReady(k, s, f) && OwnHere(k, s) && s.cpu[k.snapCore].at.Seen? && s' == DoMiss(s, k.snapCore, Flushing)
    ensures OwnCloser(k, s, s', f)
  {}

  lemma OwnLocked(k: Config, s: State, s': State, f: Frame)
    requires OwnReady(k, s, f) && OwnHere(k, s) && s.cpu[k.snapCore].at.Locked? && s' == DoCheckRef(k, s, k.snapCore)
    ensures OwnCloser(k, s, s', f)
  {}

  lemma OwnCounted(k: Config, s: State, s': State, f: Frame)
    requires OwnReady(k, s, f) && OwnHere(k, s) && s.cpu[k.snapCore].at.Counted? && s' == DoAlloc(k, s, k.snapCore, f)
    ensures OwnCloser(k, s, s', f)
  {}

  lemma OwnCopied(k: Config, s: State, s': State, f: Frame)
    requires OwnReady(k, s, f) && OwnHere(k, s) && s.cpu[k.snapCore].at.OwnCopying? && s' == DoOwnStore(s, k.snapCore)
    ensures OwnCloser(k, s, s', f)
  {}

  lemma OwnDropping(k: Config, s: State, s': State, f: Frame)
    requires OwnReady(k, s, f) && OwnHere(k, s) && s.cpu[k.snapCore].at.OwnDropping?
    requires s' == DoOwnDrop(k, s, k.snapCore)
    ensures OwnCloser(k, s, s', f)
  {}

  lemma OwnFlushing(k: Config, s: State, s': State, f: Frame)
    requires OwnReady(k, s, f) && OwnHere(k, s) && s.cpu[k.snapCore].at.Flushing? && s' == DoOwnFlush(s, k.snapCore)
    ensures OwnCloser(k, s, s', f)
  {}

  lemma OwnSound(k: Config, s: State)
    requires Good(k, false, s) && k.snapCore in s.cpu
    ensures SnapHandlerOk(k, s) && (!s.cpu[k.snapCore].at.Idle? ==> OwnHere(k, s))
  {
    Unseal(k, false, s);
  }

  lemma OwnDriveCloser(k: Config, s: State, s': State, f: Frame)
    requires OwnReady(k, s, f) && OwnHere(k, s)
    requires CanDo(k, s, k.snapCore, OwnDrive(k, s, f)) && s' == Doing(k, s, k.snapCore, OwnDrive(k, s, f))
    ensures OwnCloser(k, s, s', f)
  {
    match s.cpu[k.snapCore].at
    case Enter => OwnEnter(k, s, s', f);
    case Looked => OwnLooked(k, s, s', f);
    case Seen => if HitsOwn(k, s, k.snapCore) { OwnHit(k, s, s', f); } else { OwnMiss(k, s, s', f); }
    case Locked => OwnLocked(k, s, s', f);
    case Counted => OwnCounted(k, s, s', f);
    case OwnCopying => OwnCopied(k, s, s', f);
    case OwnDropping => OwnDropping(k, s, s', f);
    case _ => OwnFlushing(k, s, s', f);
  }

  lemma LagWalk(k: Config, s: State, v: Page, c: Core, u: Page) returns (s': State)
    requires Lagging(k, s, v, c) && u != v && CanSnapWalk(s, u)
    ensures Reaches(k, NONE, s, s') && Lagging(k, s', v, c) && s'.user == s.user && s'.cpu == s.cpu && u in s'.stlb
  {
    s' := WalkAndFill(k, s, u);
  }

  lemma OwnCanCopy(k: Config, s: State, u: Page)
    requires Good(k, false, s) && k.snapCore in s.cpu && Live(s) && s.user && s.cpu[k.snapCore].at.OwnCopying?
    requires u in s.pg && s.cpu[k.snapCore].v == u && u in s.stlb
    ensures CanCopyAll(k, s, k.snapCore, s.stlb[u].frame)
  {
    Look(k, false, s, k.snapCore, u);
  }

  lemma OwnCopyAll(k: Config, s: State, v: Page, c: Core) returns (s': State)
    requires Lagging(k, s, v, c) && s.user && s.cpu[k.snapCore].at.OwnCopying? && s.cpu[k.snapCore].v != v
    requires s.cpu[k.snapCore].v in s.stlb
    ensures Reaches(k, NONE, s, s') && Lagging(k, s', v, c) && s'.user
    ensures s'.cpu[k.snapCore] == s.cpu[k.snapCore].(n := PGSIZE)
  {
    var f := s.stlb[s.cpu[k.snapCore].v].frame;
    OwnSound(k, s);
    OwnCanCopy(k, s, s.cpu[k.snapCore].v);
    s' := Copied(s, k.snapCore, f);
    CopyAll(k, NONE, s, k.snapCore, f);
    GoodReaches(k, s, s');
  }

  /** The snapshot core reads its page into its TLB and completes its copy. */
  lemma OwnCopies(k: Config, s: State, v: Page, c: Core) returns (s': State)
    requires Lagging(k, s, v, c) && s.user && s.cpu[k.snapCore].at.OwnCopying? && s.cpu[k.snapCore].v != v
    ensures Reaches(k, NONE, s, s') && Lagging(k, s', v, c) && s'.user
    ensures s'.cpu[k.snapCore] == s.cpu[k.snapCore].(n := PGSIZE)
  {
    var u := s.cpu[k.snapCore].v;
    OwnSound(k, s);
    var m := LagWalk(k, s, v, c, u);
    s' := OwnCopyAll(k, m, v, c);
    ReachesTrans(k, NONE, s, m, s');
  }

  lemma OwnStep(k: Config, s: State, v: Page, c: Core, f: Frame) returns (s': State)
    requires Lagging(k, s, v, c) && OwnReady(k, s, f) && s.cpu[k.snapCore].v != v
    ensures Reaches(k, NONE, s, s') && Lagging(k, s', v, c) && s'.user && OwnCloser(k, s, s', f)
  {
    OwnSound(k, s);
    CanOwnDrive(k, s, f);
    s' := Doing(k, s, k.snapCore, OwnDrive(k, s, f));
    OwnDriveCloser(k, s, s', f);
    LagAct(k, s, s', v, c, OwnDrive(k, s, f));
  }

  lemma OwnAdvance(k: Config, s: State, v: Page, c: Core, f: Frame) returns (s': State)
    requires Lagging(k, s, v, c) && s.user && !s.cpu[k.snapCore].at.Idle? && OwnPoint(s.cpu[k.snapCore].at)
    requires OwnRank(k, s) >= 4 ==> f in s.fr && s.fr[f].role.Free?
    ensures Reaches(k, NONE, s, s') && Lagging(k, s', v, c) && s'.user && OwnCloser(k, s, s', f)
  {
    if s.cpu[k.snapCore].at.OwnCopying? { s' := OwnFinishes(k, s, v, c, f); } else { s' := OwnStep(k, s, v, c, f); }
  }

  lemma OwnFinishes(k: Config, s: State, v: Page, c: Core, f: Frame) returns (s': State)
    requires Lagging(k, s, v, c) && s.user && s.cpu[k.snapCore].at.OwnCopying? && s.cpu[k.snapCore].v != v
    ensures Reaches(k, NONE, s, s') && Lagging(k, s', v, c) && s'.user && OwnCloser(k, s, s', f)
  {
    var m := OwnCopies(k, s, v, c);
    s' := OwnStep(k, m, v, c, f);
    ReachesTrans(k, NONE, s, m, s');
  }

  lemma {:induction false} OwnHome(k: Config, s: State, v: Page, c: Core, f: Frame) returns (s': State)
    requires Lagging(k, s, v, c) && s.user && (OwnRank(k, s) >= 4 ==> f in s.fr && s.fr[f].role.Free?)
    ensures Reaches(k, NONE, s, s') && Lagging(k, s', v, c) && Executing(k, s')
    decreases OwnRank(k, s)
  {
    OwnSound(k, s);
    if s.cpu[k.snapCore].at.Idle? {
      ReachesSelf(k, NONE, s);
      return s;
    }
    var m := OwnAdvance(k, s, v, c, f);
    s' := OwnHome(k, m, v, c, f);
    ReachesTrans(k, NONE, s, m, s');
  }

  lemma LagBreaks(k: Config, s: State, v: Page, c: Core, f: Frame) returns (s': State)
    requires Lagging(k, s, v, c) && f in s.fr && s.fr[f].role.Free?
    ensures Reaches(k, NONE, s, s') && Broken(k, s', v)
  {
    var m := s;
    if s.user { ReachesSelf(k, NONE, s); } else { m := LagResume(k, s, v, c); }
    var n := OwnHome(k, m, v, c, f);
    var p := DriveHome(k, n, v, c);
    s' := WriteBreaks(k, p, v, c);
    ReachesTrans(k, NONE, n, p, s');
    ReachesTrans(k, NONE, m, n, s');
    ReachesTrans(k, NONE, s, m, s');
  }

  // ---- Late returns, exactly ----

  /** A late return, before it: the page is parted and both sides still agree on it. */
  lemma LateFacts(k: Config, s: State, t: Step, v: Page)
    requires Inv(k, true, s) && Enabled(k, s, t) && LateReturn(k, s, t) && v == s.cpu[t.c].v
    ensures v in s.pg && s.pg[v].main.frame != s.pg[v].snap.frame && s.pg[v].mview == s.pg[v].sview
    ensures v in s.stlb && s.stlb[v].frame != s.pg[v].snap.frame ==> s.stlb[v].frame == s.pg[v].main.frame
    ensures s.walk.Captured? && s.walk.page == v && s.walk.tr.frame != s.pg[v].snap.frame ==>
          s.walk.tr.frame == s.pg[v].main.frame
  {
    assert MainHandlerOk(k, true, s, t.c);
    assert v in s.stlb ==> TrOk(k, true, s, v, s.stlb[v]);
  }

  /** Just after a late return the outdated translation is in the TLB, or a walk in flight is about to put it there.
      */
  lemma LateLags(k: Config, s: State, s': State, t: Step) returns (m: State)
    requires Inv(k, true, s) && Enabled(k, s, t) && LateReturn(k, s, t) && s' == Exec(k, s, t)
    ensures Reaches(k, NONE, s', m) && Lagging(k, m, s.cpu[t.c].v, t.c) && m.fr == s.fr
  {
    var v := s.cpu[t.c].v;
    LateFacts(k, s, t, v);
    Loosen(k, s);
    StepKeeps(k, false, s, s', t);
    Seal(k, false, s');
    if v in s.stlb && s.stlb[v].frame != s.pg[v].snap.frame {
      m := AbortWalk(k, s');
    } else {
      m := FillWalk(k, s');
    }
  }

  /** At every return of a shootdown, in every run that has met no hazard so far: whatever happens next, the
      snapshot reads only its own view, if and only if the return is not late. f is a free page. */
  lemma LateReturnExact(k: Config, s: State, ts: seq<Step>, z: State, z': State, t: Step, f: Frame)
    requires Init(k, s) && Valid(k, s, ts) && Within(NONE, k, s, ts) && z == After(k, s, ts)
    requires t.Do? && t.act.ShootdownReturn? && Enabled(k, z, t) && z' == Exec(k, z, t) && f in z.fr
    requires z.fr[f].role.Free?
    ensures Isolated(k, NONE, z') <==> !LateReturn(k, z, t)
  {
    InitInv(k, true, s);
    RunKeeps(k, true, NONE, s, ts);
    if LateReturn(k, z, t) {
      var m := LateLags(k, z, z', t);
      var x := LagBreaks(k, m, z.cpu[t.c].v, t.c, f);
      ReachesTrans(k, NONE, z', m, x);
      assert Reaches(k, NONE, z', x) && Broken(k, x, z.cpu[t.c].v);
    } else {
      StepKeeps(k, true, z, z', t);
      TightIsIsolated(k, z');
    }
  }
}
