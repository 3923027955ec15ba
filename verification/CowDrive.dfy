/**
 A main core's fault handler, driven alone. While nothing else moves, a handler on a page
 whose two sides have parted can always be run to its end, and then the core can write the page.
 If the snapshot core still holds the old translation by then, its thread reads that write.
 */
module CowDrive {
  import opened PageEntry
  import opened CowProtocol
  import opened CowInvariant
  import opened CowSafety
  import opened CowRuns

  // ---- States in which the snapshot thread executes and no walk is in flight ----

  ghost predicate Calm(k: Config, s: State) {
    Good(k, false, s) && s.phase.Running? && Executing(k, s) && s.walk.NoWalk?
  }

  /** What an action of a main core never touches. */
  predicate Apart(k: Config, s: State, s': State) {
    && s'.stlb == s.stlb && s'.walk == s.walk && s'.user == s.user && s'.phase == s.phase && s'.root == s.root
    && (k.snapCore in s.cpu ==> k.snapCore in s'.cpu && s'.cpu[k.snapCore] == s.cpu[k.snapCore])
  }

  lemma MainActApart(k: Config, s: State, s': State, c: Core, act: Act)
    requires CanDo(k, s, c, act) && c != k.snapCore && s' == Doing(k, s, c, act)
    ensures Apart(k, s, s')
  {
    if Entering(act) { EnteringApart(k, s, s', c, act); }
    else if Pairing(act) { PairingApart(k, s, s', c, act); }
    else if Filling(act) {} else if Publishing(act) {} else if Missing(act) {} else {}
  }

  lemma EnteringApart(k: Config, s: State, s': State, c: Core, act: Act)
    requires CanDo(k, s, c, act) && c != k.snapCore && s' == Doing(k, s, c, act) && Entering(act)
    ensures Apart(k, s, s')
  {}

  lemma PairingApart(k: Config, s: State, s': State, c: Core, act: Act)
    requires CanDo(k, s, c, act) && c != k.snapCore && s' == Doing(k, s, c, act) && Pairing(act)
    ensures Apart(k, s, s')
  {}

  lemma CalmAct(k: Config, s: State, s': State, c: Core, act: Act)
    requires Calm(k, s) && c != k.snapCore && CanDo(k, s, c, act) && s' == Doing(k, s, c, act)
    requires !DoubleLock(s, Do(c, act)) && !act.ShootdownReturn?
    ensures Calm(k, s') && Reaches(k, NONE, s, s') && Apart(k, s, s')
  {
    MainActApart(k, s, s', c, act);
    GoodStep(k, s, s', Do(c, act));
  }

  lemma CalmFill(k: Config, s: State, s': State, c: Core, v: Page)
    requires Calm(k, s) && CanMainFill(k, s, c, v) && s' == DoMainFill(s, c, v)
    ensures Calm(k, s') && Reaches(k, NONE, s, s') && Apart(k, s, s') && s'.cpu == s.cpu
  {
    GoodStep(k, s, s', MainFill(c, v));
  }

  // ---- A page whose sides have parted, with an outdated translation ----

  ghost predicate Exposed(k: Config, s: State, v: Page) {
    && Calm(k, s) && v in s.pg && s.pg[v].main.frame != s.pg[v].snap.frame
    && v in s.stlb && s.stlb[v].frame == s.pg[v].main.frame && s.pg[v].mview == s.pg[v].sview
  }

  predicate SameFrames(s: State, s': State, v: Page) {
    v in s.pg && v in s'.pg && s'.pg[v].main.frame == s.pg[v].main.frame && s'.pg[v].snap.frame == s.pg[v].snap.frame
  }

  lemma EnteringFrames(k: Config, s: State, s': State, c: Core, act: Act, v: Page)
    requires CanDo(k, s, c, act) && s' == Doing(k, s, c, act) && Entering(act) && v in s.pg
    ensures SameFrames(s, s', v)
  {}

  lemma PairingFrames(k: Config, s: State, s': State, c: Core, act: Act, v: Page)
    requires MainHandlerOk(k, false, s, c) && CanDo(k, s, c, act) && s' == Doing(k, s, c, act) && Pairing(act)
    requires v in s.pg
    ensures SameFrames(s, s', v)
  {}

  lemma ClosingFrames(k: Config, s: State, s': State, c: Core, act: Act, v: Page)
    requires c != k.snapCore && MainHandlerOk(k, false, s, c) && CanDo(k, s, c, act) && s' == Doing(k, s, c, act)
    requires v in s.pg
    requires act.DropRef? || act.Open? || act.FlushLocal?
    ensures SameFrames(s, s', v)
  {}

  lemma ExposedAct(k: Config, s: State, s': State, c: Core, act: Act, v: Page)
    requires Exposed(k, s, v) && c != k.snapCore && CanDo(k, s, c, act) && s' == Doing(k, s, c, act)
    requires !DoubleLock(s, Do(c, act))
    requires Entering(act) || Pairing(act) || act.DropRef? || act.Open? || act.FlushLocal?
    ensures Exposed(k, s', v) && Reaches(k, NONE, s, s') && SameFrames(s, s', v)
  {
    CalmAct(k, s, s', c, act);
    ActViews(k, s, s', c, act, v);
    LookAt(k, false, s, c, v);
    if Entering(act) { EnteringFrames(k, s, s', c, act, v); }
    else if Pairing(act) { PairingFrames(k, s, s', c, act, v); }
    else { ClosingFrames(k, s, s', c, act, v); }
  }

  // ---- Driving a handler ----

  /** The next action of core c's handler, when nothing else moves. */
  function Drive(s: State, c: Core): Act
    requires c in s.cpu
  {
    match s.cpu[c].at
    case Enter => ReadRoot
    case Looked => LoadEntry
    case Seen => LockEntry
    case Locked => CheckRef
    case Counted => Sample
    case Sampled => LoadSnap
    case SnapSeen => if HitsSnap(s, c) then LockSnap else MissSnap
    case Restoring => Restore
    case SnapLocked => ReleaseSnap
    case Published => DropRef
    case Dropping => DropRef
    case Opening => Open
    case _ => FlushLocal
  }

  function Rank(s: State, c: Core): nat
    requires c in s.cpu
  {
    match s.cpu[c].at
    case SnapSeen => if HitsSnap(s, c) then 5 else 13
    case Restoring => 12
    case Enter => 11
    case Looked => 10
    case Seen => 9
    case Locked => 8
    case Counted => 7
    case Sampled => 6
    case SnapLocked => 4
    case Published => 3
    case Dropping => 3
    case Opening => 2
    case _ => 1
  }

  /** Core c is at page v, with nothing in the way of its next action. */
  predicate Ahead(k: Config, s: State, v: Page, c: Core) {
    && c in s.cpu && c != k.snapCore && s.cpu[c].v == v && v in s.pg
    && var h := s.cpu[c];
    && (HoldsMain(h.at) || h.at.Enter? || h.at.Looked? || h.at.Seen? || h.at.Flushing?)
    && (h.at.Enter? || h.at.Looked? ==> Eligible(s.pg[v].main))
    && (h.at.Seen? ==> Eligible(s.pg[v].main) && h.was == s.pg[v].main)
    && (h.at.Flushing? ==> s.pg[v].main.w) && (h.at.Published? ==> !Shoots(k, h))
  }

  /** What the invariant says of it. */
  predicate AtPage(k: Config, s: State, v: Page, c: Core) {
    && PageOk(k, s, v) && MainHandlerOk(k, false, s, c) && s.phase.Running?
        && s.pg[v].main.frame != s.pg[v].snap.frame
  }

  predicate Home(k: Config, s: State, v: Page, c: Core) {
    c in s.cpu && c != k.snapCore && s.cpu[c].at.Idle? && v in s.pg && s.pg[v].main.w
  }

  predicate Closer(k: Config, s: State, s': State, v: Page, c: Core) {
    || (c in s.cpu && Ahead(k, s', v, c) && Rank(s', c) < Rank(s, c))
    || Home(k, s', v, c)
  }

  lemma CanEnter(k: Config, s: State, v: Page, c: Core)
    requires Ahead(k, s, v, c) && AtPage(k, s, v, c)
    ensures s.cpu[c].at.Locked? ==> CanDo(k, s, c, CheckRef)
  {}

  lemma CanLeave(k: Config, s: State, v: Page, c: Core)
    requires Ahead(k, s, v, c) && AtPage(k, s, v, c)
    ensures s.cpu[c].at.SnapLocked? ==> CanReleaseSnap(k, s, c)
    ensures s.cpu[c].at.Published? || s.cpu[c].at.Dropping? ==> CanDropRef(k, s, c)
  {}

  /** The points that a driven handler can stand at. */
  lemma AheadPoints(k: Config, s: State, v: Page, c: Core)
    requires Ahead(k, s, v, c) && AtPage(k, s, v, c)
    ensures !s.cpu[c].at.Copying? && !s.cpu[c].at.Overtaken? && !s.cpu[c].at.Reloaded?
  {}

  lemma CanDriveOn(k: Config, s: State, v: Page, c: Core)
    requires Ahead(k, s, v, c) && !s.cpu[c].at.Copying? && !s.cpu[c].at.Overtaken? && !s.cpu[c].at.Reloaded?
    requires s.cpu[c].at.Locked? ==> CanDo(k, s, c, CheckRef)
    requires s.cpu[c].at.SnapLocked? ==> CanReleaseSnap(k, s, c)
    requires s.cpu[c].at.Published? || s.cpu[c].at.Dropping? ==> CanDropRef(k, s, c)
    ensures CanDo(k, s, c, Drive(s, c))
  {
    assert At(k, s, c, s.cpu[c].at);
  }

  lemma CanDrive(k: Config, s: State, v: Page, c: Core)
    requires Ahead(k, s, v, c) && AtPage(k, s, v, c)
    ensures CanDo(k, s, c, Drive(s, c))
  {
    CanEnter(k, s, v, c);
    CanLeave(k, s, v, c);
    AheadPoints(k, s, v, c);
    CanDriveOn(k, s, v, c);
  }

  lemma DriveEnter(k: Config, s: State, s': State, v: Page, c: Core)
    requires Ahead(k, s, v, c) && AtPage(k, s, v, c) && s.cpu[c].at.Enter? && s' == DoReadRoot(s, c)
    ensures Closer(k, s, s', v, c)
  {}

  lemma DriveLooked(k: Config, s: State, s': State, v: Page, c: Core)
    requires Ahead(k, s, v, c) && AtPage(k, s, v, c) && s.cpu[c].at.Looked? && s' == DoLoadEntry(k, s, c)
    ensures Closer(k, s, s', v, c)
  {}

  lemma DriveSeen(k: Config, s: State, s': State, v: Page, c: Core)
    requires Ahead(k, s, v, c) && AtPage(k, s, v, c) && s.cpu[c].at.Seen? && s' == DoLockEntry(k, s, c)
    ensures Closer(k, s, s', v, c)
  {}

  lemma DriveLocked(k: Config, s: State, s': State, v: Page, c: Core)
    requires Ahead(k, s, v, c) && AtPage(k, s, v, c) && s.cpu[c].at.Locked? && s' == DoCheckRef(k, s, c)
    ensures Closer(k, s, s', v, c)
  {}

  lemma DriveCounted(k: Config, s: State, s': State, v: Page, c: Core)
    requires Ahead(k, s, v, c) && AtPage(k, s, v, c) && s.cpu[c].at.Counted? && s' == DoSample(s, c)
    ensures Closer(k, s, s', v, c)
  {}

  lemma DriveSampled(k: Config, s: State, s': State, v: Page, c: Core)
    requires Ahead(k, s, v, c) && AtPage(k, s, v, c) && s.cpu[c].at.Sampled? && s' == DoLoadSnap(s, c)
    ensures Closer(k, s, s', v, c)
  {}

  lemma DriveHit(k: Config, s: State, s': State, v: Page, c: Core)
    requires Ahead(k, s, v, c) && AtPage(k, s, v, c) && s.cpu[c].at.SnapSeen? && HitsSnap(s, c)
    requires s' == DoLockSnap(s, c)
    ensures Closer(k, s, s', v, c)
  {}

  lemma DriveMiss(k: Config, s: State, s': State, v: Page, c: Core)
    requires Ahead(k, s, v, c) && AtPage(k, s, v, c) && s.cpu[c].at.SnapSeen? && !HitsSnap(s, c)
    requires s' == DoMiss(s, c, Restoring)
    ensures Closer(k, s, s', v, c)
  {}

  lemma DriveRestoring(k: Config, s: State, s': State, v: Page, c: Core)
    requires Ahead(k, s, v, c) && AtPage(k, s, v, c) && s.cpu[c].at.Restoring? && s' == DoRestore(s, c)
    ensures Closer(k, s, s', v, c)
  {}

  lemma DriveSnapLocked(k: Config, s: State, s': State, v: Page, c: Core)
    requires Ahead(k, s, v, c) && AtPage(k, s, v, c) && s.cpu[c].at.SnapLocked? && s' == DoReleaseSnap(s, c)
    ensures Closer(k, s, s', v, c)
  {}

  lemma DriveDropping(k: Config, s: State, s': State, v: Page, c: Core)
    requires Ahead(k, s, v, c) && AtPage(k, s, v, c) && (s.cpu[c].at.Published? || s.cpu[c].at.Dropping?)
    requires s' == DoDropRef(k, s, c)
    ensures Closer(k, s, s', v, c)
  {}

  lemma DriveOpening(k: Config, s: State, s': State, v: Page, c: Core)
    requires Ahead(k, s, v, c) && AtPage(k, s, v, c) && s.cpu[c].at.Opening? && s' == DoOpen(k, s, c)
    ensures Closer(k, s, s', v, c)
  {}

  lemma DriveFlushing(k: Config, s: State, s': State, v: Page, c: Core)
    requires Ahead(k, s, v, c) && AtPage(k, s, v, c) && s.cpu[c].at.Flushing? && s' == DoFlushLocal(s, c)
    ensures Closer(k, s, s', v, c)
  {}

  lemma DriveCloser(k: Config, s: State, s': State, v: Page, c: Core)
    requires Ahead(k, s, v, c) && AtPage(k, s, v, c) && CanDo(k, s, c, Drive(s, c))
    requires s' == Doing(k, s, c, Drive(s, c))
    ensures Closer(k, s, s', v, c)
  {
    match s.cpu[c].at
    case Enter => DriveEnter(k, s, s', v, c);
    case Looked => DriveLooked(k, s, s', v, c);
    case Seen => DriveSeen(k, s, s', v, c);
    case Locked => DriveLocked(k, s, s', v, c);
    case Counted => DriveCounted(k, s, s', v, c);
    case Sampled => DriveSampled(k, s, s', v, c);
    case SnapSeen => if HitsSnap(s, c) { DriveHit(k, s, s', v, c); } else { DriveMiss(k, s, s', v, c); }
    case Restoring => DriveRestoring(k, s, s', v, c);
    case SnapLocked => DriveSnapLocked(k, s, s', v, c);
    case Published => DriveDropping(k, s, s', v, c);
    case Dropping => DriveDropping(k, s, s', v, c);
    case Opening => DriveOpening(k, s, s', v, c);
    case _ => DriveFlushing(k, s, s', v, c);
  }

  /** The snapshot's entry of v is unlocked while c stands before line 993. */
  lemma SnapUnlocked(k: Config, s: State, v: Page, c: Core)
    requires Calm(k, s) && v in s.pg && MainAt(k, s, c, SnapSeen) && s.cpu[c].v == v
    ensures !s.pg[v].snap.lock
  {
    Unseal(k, false, s);
    assert LockOk(k, s, v) && MainHandlerOk(k, false, s, c);
    var o := s.pg[v].sowner;
    assert o.By? && o.core != k.snapCore ==> MainHandlerOk(k, false, s, o.core);
  }

  lemma DriveStep(k: Config, s: State, s': State, v: Page, c: Core)
    requires Exposed(k, s, v) && Ahead(k, s, v, c) && CanDo(k, s, c, Drive(s, c)) && s' == Doing(k, s, c, Drive(s, c))
    ensures Closer(k, s, s', v, c) && Exposed(k, s', v) && Reaches(k, NONE, s, s')
  {
    var act := Drive(s, c);
    LookAt(k, false, s, c, v);
    if s.cpu[c].at.SnapSeen? { SnapUnlocked(k, s, v, c); }
    ExposedAct(k, s, s', c, act, v);
    DriveCloser(k, s, s', v, c);
  }

  /** The handler runs to its end and leaves the main entry writable. */
  lemma {:induction false} DriveHome(k: Config, s: State, v: Page, c: Core) returns (s': State)
    requires Exposed(k, s, v) && Ahead(k, s, v, c)
    ensures Reaches(k, NONE, s, s') && Exposed(k, s', v) && Home(k, s', v, c)
    decreases Rank(s, c)
  {
    LookAt(k, false, s, c, v);
    CanDrive(k, s, v, c);
    var m := Doing(k, s, c, Drive(s, c));
    DriveStep(k, s, m, v, c);
    if Home(k, m, v, c) {
      s' := m;
    } else {
      s' := DriveHome(k, m, v, c);
      ReachesTrans(k, NONE, s, m, s');
    }
  }

  // ---- The write that the snapshot thread reads ----

  lemma WriteBreaks(k: Config, s: State, v: Page, c: Core) returns (s': State)
    requires Exposed(k, s, v) && Home(k, s, v, c)
    ensures Reaches(k, NONE, s, s') && Broken(k, s', v)
  {
    Look(k, false, s, c, v);
    var f := s.pg[v].main.frame;
    var m := DoMainFill(s, c, v);
    CalmFill(k, s, m, c, v);
    var b: byte := if s.fr[f].data[0] == 0 then 1 else 0;
    s' := DoMainWrite(m, c, v, 0, b);
    assert m.fr[f].data[0 := b][0] == b;
    ReachesStep(k, NONE, m, MainWrite(c, v, 0, b));
    ReachesTrans(k, NONE, s, m, s');
  }

  lemma FaultDriven(k: Config, s: State, v: Page, d: Core) returns (s': State)
    requires Exposed(k, s, v) && d in s.cpu && d != k.snapCore && s.cpu[d].at.Idle? && Eligible(s.pg[v].main)
    ensures Reaches(k, NONE, s, s') && Exposed(k, s', v) && Ahead(k, s', v, d)
  {
    s' := DoFault(s, d, v);
    ExposedAct(k, s, s', d, Fault(v), v);
  }

  /** With an idle main core d, an exposed page can always be written behind the snapshot thread's back. */
  lemma ExposedBreaks(k: Config, s: State, v: Page, d: Core) returns (s': State)
    requires Exposed(k, s, v) && d in s.cpu && d != k.snapCore && s.cpu[d].at.Idle?
    requires forall c <- s.cpu :: s.cpu[c].v == v ==> !Shoots(k, s.cpu[c])
    ensures Reaches(k, NONE, s, s') && Broken(k, s', v)
  {
    LookAt(k, false, s, d, v);
    if s.pg[v].mowner.By? {
      var c := s.pg[v].mowner.core;
      LookAt(k, false, s, c, v);
      var m := DriveHome(k, s, v, c);
      s' := WriteBreaks(k, m, v, c);
      ReachesTrans(k, NONE, s, m, s');
    } else if s.pg[v].main.w {
      s' := WriteBreaks(k, s, v, d);
    } else {
      var m := FaultDriven(k, s, v, d);
      var n := DriveHome(k, m, v, d);
      s' := WriteBreaks(k, n, v, d);
      ReachesTrans(k, NONE, m, n, s');
      ReachesTrans(k, NONE, s, m, s');
    }
  }
}
