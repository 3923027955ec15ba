/**
 What the copy-on-write protocol guarantees over whole runs. Each side reads
 the branch-off contents as changed by its own writes alone, in every
 interleaving that meets none of the three hazards of CowInvariant; much of it needs less.
 */
module CowSafety {
  import opened PageEntry
  import opened CowProtocol
  import opened CowInvariant

  // ---- Every step keeps the invariant ----

  /** The actions up to line 958. */
  predicate Entering(act: Act) {
    act.Fault? || act.ReadRoot? || act.LoadEntry? || act.LockEntry? || act.MissEntry? || act.CheckRef?
  }

  /** The actions of lines 960-1008. */
  predicate Pairing(act: Act) {
    act.Sample? || act.LoadSnap? || act.LockSnap? || act.MissSnap? || act.Restore? || act.ReleaseSnap?
  }

  lemma EnteringKeeps(k: Config, tight: bool, s: State, s': State, c: Core, act: Act)
    requires Good(k, tight, s) && CanDo(k, s, c, act) && s' == Doing(k, s, c, act) && Entering(act)
    ensures Good(k, tight, s')
  {
    match act
    case Fault(v) => FaultKeeps(k, tight, s, c, v);
    case ReadRoot => ReadRootKeeps(k, tight, s, c);
    case LoadEntry => LoadEntryKeeps(k, tight, s, c);
    case LockEntry => if c == k.snapCore { LockOwnKeeps(k, tight, s, s', c); }
        else { LockMainKeeps(k, tight, s, s', c); }
    case MissEntry => MissEntryKeeps(k, tight, s, c);
    case CheckRef => CheckRefKeeps(k, tight, s, c);
  }

  lemma PairingKeeps(k: Config, tight: bool, s: State, s': State, c: Core, act: Act)
    requires Good(k, tight, s) && CanDo(k, s, c, act) && s' == Doing(k, s, c, act) && Pairing(act)
    requires !DoubleLock(s, Do(c, act))
    ensures Good(k, tight, s')
  {
    match act
    case Sample => SampleKeeps(k, tight, s, c);
    case LoadSnap => LoadSnapKeeps(k, tight, s, c);
    case LockSnap => LockSnapKeeps(k, tight, s, s', c);
    case MissSnap => MissSnapKeeps(k, tight, s, c);
    case Restore => RestoreKeeps(k, tight, s, s', c);
    case ReleaseSnap => ReleaseSnapKeeps(k, tight, s, s', c);
  }

  /** The snapshot core never takes the exclusive-owner shortcut of line 953. */
  lemma SnapshotNeverOpens(k: Config, s: State)
    requires SnapHandlerOk(k, s)
    ensures !s.cpu[k.snapCore].at.Opening?
  {}

  lemma OpenKeeps(k: Config, tight: bool, s: State, s': State, c: Core)
    requires Good(k, tight, s) && At(k, s, c, Opening) && s' == DoOpen(k, s, c)
    ensures Good(k, tight, s')
  {
    LookAt(k, tight, s, c, s.cpu[c].v);
    SnapshotNeverOpens(k, s);
    OpenMainKeeps(k, tight, s, s', c);
  }

  /** The allocation and the copy, lines 963-974 and 1036-1047, and the stores that publish it. */
  predicate Filling(act: Act) { act.Alloc? || act.CopyByte? }
  predicate Publishing(act: Act) { act.Publish? || act.Overwrite? || act.OwnStore? }
  predicate Missing(act: Act) { act.MissPublish? || act.Reload? }

  /** The reference drops, and the other actions of lines 1061-1095. */
  predicate Releasing(act: Act) { act.OwnDrop? || act.DropRef? }
  predicate Closing(act: Act) { act.ShootdownReturn? || act.Open? }

  lemma FillingKeeps(k: Config, tight: bool, s: State, s': State, c: Core, act: Act)
    requires Good(k, tight, s) && CanDo(k, s, c, act) && s' == Doing(k, s, c, act) && Filling(act)
    ensures Good(k, tight, s')
  {
    match act
    case Alloc(f) => if c == k.snapCore { AllocOwnKeeps(k, tight, s, s', c, f); }
        else { AllocMainKeeps(k, tight, s, s', c, f); }
    case CopyByte(f) => if c == k.snapCore { CopyOwnKeeps(k, tight, s, s', c, f); }
        else { CopyMainKeeps(k, tight, s, s', c, f); }
  }

  lemma PublishingKeeps(k: Config, tight: bool, s: State, s': State, c: Core, act: Act)
    requires Good(k, tight, s) && CanDo(k, s, c, act) && s' == Doing(k, s, c, act) && Publishing(act)
    ensures Good(k, tight, s')
  {
    if act.Publish? { PublishKeeps(k, tight, s, s', c); }
    else if act.Overwrite? { OverwriteKeeps(k, tight, s, s', c); }
    else { OwnStoreKeeps(k, tight, s, s', c); }
  }

  lemma MissingKeeps(k: Config, tight: bool, s: State, s': State, c: Core, act: Act)
    requires Good(k, tight, s) && CanDo(k, s, c, act) && s' == Doing(k, s, c, act) && Missing(act)
    ensures Good(k, tight, s')
  {
    if act.Reload? { ReloadKeeps(k, tight, s, c); } else { MissPublishKeeps(k, tight, s, c); }
  }

  lemma ReleasingKeeps(k: Config, tight: bool, s: State, s': State, c: Core, act: Act)
    requires Good(k, tight, s) && CanDo(k, s, c, act) && s' == Doing(k, s, c, act) && Releasing(act)
    ensures Good(k, tight, s')
  {
    if act.OwnDrop? { OwnDropKeeps(k, tight, s, s', c); } else { DropRefKeeps(k, tight, s, s', c); }
  }

  lemma ClosingKeeps(k: Config, tight: bool, s: State, s': State, c: Core, act: Act)
    requires Good(k, tight, s) && CanDo(k, s, c, act) && s' == Doing(k, s, c, act) && Closing(act)
    requires tight ==> !LateReturn(k, s, Do(c, act))
    ensures Good(k, tight, s')
  {
    if act.Open? { OpenKeeps(k, tight, s, s', c); } else { ShootdownReturnKeeps(k, tight, s, s', c, act.ahead); }
  }

  lemma FlushKeeps(k: Config, tight: bool, s: State, s': State, c: Core, act: Act)
    requires Good(k, tight, s) && CanDo(k, s, c, act) && s' == Doing(k, s, c, act)
    requires act.FlushLocal? || act.OwnFlush?
    ensures Good(k, tight, s')
  {
    if act.FlushLocal? { FlushLocalKeeps(k, tight, s, s', c); } else { OwnFlushKeeps(k, tight, s, s', c); }
  }

  predicate TlbControl(t: Step) {
    t.Pause? || t.Invalidate? || t.InvalidateAll? || t.Resume? || t.SnapAbort? || t.SnapEvict?
  }

  predicate PhaseControl(t: Step) { t.LoadRoot? || t.SetStarted? || t.Finish? || t.ClearRoot? }

  lemma TlbControlKeeps(k: Config, tight: bool, s: State, s': State, t: Step)
    requires Inv(k, tight, s) && Enabled(k, s, t) && s' == Exec(k, s, t) && TlbControl(t)
    ensures Inv(k, tight, s')
  {
    DropTrsKeeps(k, tight, s, s');
  }

  lemma PhaseControlKeeps(k: Config, tight: bool, s: State, s': State, t: Step)
    requires Inv(k, tight, s) && Enabled(k, s, t) && s' == Exec(k, s, t) && PhaseControl(t)
    requires tight && t.SetStarted? ==> Clean(k, s)
    ensures Inv(k, tight, s')
  {
    PhaseKeeps(k, tight, s, s');
  }

  lemma ActKeeps(k: Config, tight: bool, s: State, s': State, c: Core, act: Act)
    requires Good(k, tight, s) && CanDo(k, s, c, act) && s' == Doing(k, s, c, act) && !DoubleLock(s, Do(c, act))
    requires tight ==> !LateReturn(k, s, Do(c, act))
    ensures Good(k, tight, s')
  {
    if Entering(act) { EnteringKeeps(k, tight, s, s', c, act); }
    else if Pairing(act) { PairingKeeps(k, tight, s, s', c, act); }
    else if Filling(act) { FillingKeeps(k, tight, s, s', c, act); }
    else if Publishing(act) { PublishingKeeps(k, tight, s, s', c, act); }
    else if Missing(act) { MissingKeeps(k, tight, s, s', c, act); }
    else if Releasing(act) { ReleasingKeeps(k, tight, s, s', c, act); }
    else if Closing(act) { ClosingKeeps(k, tight, s, s', c, act); }
    else { FlushKeeps(k, tight, s, s', c, act); }
  }

  lemma MachineKeeps(k: Config, tight: bool, s: State, s': State, t: Step)
    requires Good(k, tight, s) && k.snapCore in s.cpu && Enabled(k, s, t) && s' == Exec(k, s, t) && !t.Do?
    requires !TlbControl(t) && !PhaseControl(t)
    ensures Good(k, tight, s')
  {
    match t
    case MainFill(c, v) => MainFillKeeps(k, tight, s, s', c, v);
    case MainEvict(c, v) => Unseal(k, tight, s); MainEvictKeeps(k, tight, s, c, v); Seal(k, tight, s');
    case SnapWalk(v) => SnapWalkKeeps(k, tight, s, s', v);
    case SnapFill => Unseal(k, tight, s); SnapFillKeeps(k, tight, s); Seal(k, tight, s');
    case MainWrite(c, v, off, b) => MainWriteKeeps(k, tight, s, s', c, v, off, b);
    case SnapWrite(v, off, b) => SnapWriteKeeps(k, tight, s, s', v, off, b);
  }

  /** Every step but a double lock keeps the loose invariant, and the tight one unless it is one of the other
      hazards. */
  lemma StepKeeps(k: Config, tight: bool, s: State, s': State, t: Step)
    requires Inv(k, tight, s) && Enabled(k, s, t) && s' == Exec(k, s, t) && !DoubleLock(s, t)
    requires tight ==> !LateReturn(k, s, t) && (t.SetStarted? ==> Clean(k, s))
    ensures Inv(k, tight, s')
  {
    Seal(k, tight, s);
    if t.Do? {
      ActKeeps(k, tight, s, s', t.c, t.act);
      Unseal(k, tight, s');
    } else if TlbControl(t) {
      TlbControlKeeps(k, tight, s, s', t);
    } else if PhaseControl(t) {
      PhaseControlKeeps(k, tight, s, s', t);
    } else {
      MachineKeeps(k, tight, s, s', t);
      Unseal(k, tight, s');
    }
  }

  // ---- Runs ----

  predicate Valid(k: Config, s: State, ts: seq<Step>)
    decreases |ts|
  {
    ts == [] || (Enabled(k, s, ts[0]) && Valid(k, Exec(k, s, ts[0]), ts[1..]))
  }

  function After(k: Config, s: State, ts: seq<Step>): State
    requires Valid(k, s, ts)
    decreases |ts|
  {
    if ts == [] then s else After(k, Exec(k, s, ts[0]), ts[1..])
  }

  /** The hazards that a run may meet: double locks, late returns of shootdowns, and a snapshot that does not start
      clean. */
  datatype Allow = Allow(double: bool, late: bool, unclean: bool)

  const NONE := Allow(false, false, false)
  const NO_DOUBLE := Allow(false, true, true)

  predicate Permits(a: Allow, k: Config, s: State, t: Step) {
    (DoubleLock(s, t) ==> a.double) && (LateReturn(k, s, t) ==> a.late)
        && (t.SetStarted? && !Clean(k, s) ==> a.unclean)
  }

  predicate Within(a: Allow, k: Config, s: State, ts: seq<Step>)
    requires Valid(k, s, ts)
    decreases |ts|
  {
    ts == [] || (Permits(a, k, s, ts[0]) && Within(a, k, Exec(k, s, ts[0]), ts[1..]))
  }

  /** A page of the main side, had it a memory of its own: d, changed by the main side's writes. */
  function MainReplay(d: seq<byte>, ts: seq<Step>, v: Page): seq<byte>
    decreases |ts|
  {
    if ts == [] then d else MainReplay(MainWritten(d, ts[0], v), ts[1..], v)
  }

  function MainWritten(d: seq<byte>, t: Step, v: Page): seq<byte> {
    if t.MainWrite? && t.v == v && 0 <= t.off < |d| then d[t.off := t.b] else d
  }

  /** The same for the snapshot's side. */
  function SnapReplay(d: seq<byte>, ts: seq<Step>, v: Page): seq<byte>
    decreases |ts|
  {
    if ts == [] then d else SnapReplay(SnapWritten(d, ts[0], v), ts[1..], v)
  }

  function SnapWritten(d: seq<byte>, t: Step, v: Page): seq<byte> {
    if t.SnapWrite? && t.v == v && 0 <= t.off < |d| then d[t.off := t.b] else d
  }

  /** The handler changes neither side's view of a page, nor the phase. */
  predicate SameViews(s: State, s': State, v: Page) {
    && s'.phase == s.phase
    && (v in s.pg ==> v in s'.pg && s'.pg[v].mview == s.pg[v].mview && s'.pg[v].sview == s.pg[v].sview)
  }

  lemma EnteringViews(k: Config, s: State, s': State, c: Core, act: Act, v: Page)
    requires CanDo(k, s, c, act) && s' == Doing(k, s, c, act) && Entering(act)
    ensures SameViews(s, s', v)
  {}

  lemma PageViews(s: State, c: Core, h': Handler, u: Page, p: PageState, v: Page)
    requires u in s.pg && p.mview == s.pg[u].mview && p.sview == s.pg[u].sview
    ensures SameViews(s, SetPage(Goto(s, c, h'), u, p), v)
  {}

  lemma PairingViews(k: Config, s: State, s': State, c: Core, act: Act, v: Page)
    requires CanDo(k, s, c, act) && s' == Doing(k, s, c, act) && Pairing(act)
    ensures SameViews(s, s', v)
  {
    var u, h' := s.cpu[c].v, s'.cpu[c];
    if act.LockSnap? || act.Restore? || act.ReleaseSnap? { PageViews(s, c, h', u, s'.pg[u], v); }
  }

  lemma FillingViews(k: Config, s: State, s': State, c: Core, act: Act, v: Page)
    requires CanDo(k, s, c, act) && s' == Doing(k, s, c, act) && Filling(act)
    ensures SameViews(s, s', v)
  {}

  lemma SplitViews(s: State, c: Core, h': Handler, e: Pte, v: Page)
    requires CanSplit(s, c)
    ensures SameViews(s, Split(Goto(s, c, h'), s.cpu[c], e), v)
  {}

  lemma PublishingViews(k: Config, s: State, s': State, c: Core, act: Act, v: Page)
    requires CanDo(k, s, c, act) && s' == Doing(k, s, c, act) && Publishing(act)
    ensures SameViews(s, s', v)
  {
    var h := s.cpu[c];
    if act.Publish? { SplitViews(s, c, h.(at := Published, need := h.snap.a), Redirected(h.snap, h.copy), v); }
    else if act.Overwrite? { SplitViews(s, c, h.(at := Published, need := true), Redirected(h.snap, h.copy), v); }
    else { SplitViews(s, c, h.(at := OwnDropping), Opened(h.was).(frame := h.copy), v); }
  }

  lemma MissingViews(k: Config, s: State, s': State, c: Core, act: Act, v: Page)
    requires CanDo(k, s, c, act) && s' == Doing(k, s, c, act) && Missing(act)
    ensures SameViews(s, s', v)
  {}

  lemma ReleasingViews(k: Config, s: State, s': State, c: Core, act: Act, v: Page)
    requires CanDo(k, s, c, act) && s' == Doing(k, s, c, act) && Releasing(act)
    ensures SameViews(s, s', v)
  {}

  lemma ClosingViews(k: Config, s: State, s': State, c: Core, act: Act, v: Page)
    requires CanDo(k, s, c, act) && s' == Doing(k, s, c, act) && Closing(act)
    ensures SameViews(s, s', v)
  {
    if act.Open? { PageViews(s, c, s'.cpu[c], s.cpu[c].v, s'.pg[s.cpu[c].v], v); }
  }

  lemma ActViews(k: Config, s: State, s': State, c: Core, act: Act, v: Page)
    requires CanDo(k, s, c, act) && s' == Doing(k, s, c, act)
    ensures SameViews(s, s', v)
  {
    if Entering(act) { EnteringViews(k, s, s', c, act, v); }
    else if Pairing(act) { PairingViews(k, s, s', c, act, v); }
    else if Filling(act) { FillingViews(k, s, s', c, act, v); }
    else if Publishing(act) { PublishingViews(k, s, s', c, act, v); }
    else if Missing(act) { MissingViews(k, s, s', c, act, v); }
    else if Releasing(act) { ReleasingViews(k, s, s', c, act, v); }
    else if Closing(act) { ClosingViews(k, s, s', c, act, v); }
  }

  lemma StepViews(k: Config, s: State, t: Step, v: Page)
    requires Enabled(k, s, t) && v in s.pg
    ensures var s' := Exec(k, s, t);
            && v in s'.pg
            && s'.pg[v].mview == MainWritten(s.pg[v].mview, t, v)
            && s'.pg[v].sview == SnapWritten(s.pg[v].sview, t, v)
  {
    if t.Do? { ActViews(k, s, Exec(k, s, t), t.c, t.act, v); }
  }

  lemma {:induction false} RunKeeps(k: Config, tight: bool, a: Allow, s: State, ts: seq<Step>)
    requires Inv(k, tight, s) && Valid(k, s, ts) && Within(a, k, s, ts) && !a.double && (tight ==> a == NONE)
    ensures Inv(k, tight, After(k, s, ts))
    decreases |ts|
  {
    if ts != [] {
      StepKeeps(k, tight, s, Exec(k, s, ts[0]), ts[0]);
      RunKeeps(k, tight, a, Exec(k, s, ts[0]), ts[1..]);
    }
  }

  lemma {:induction false} RunViews(k: Config, s: State, ts: seq<Step>, v: Page)
    requires Valid(k, s, ts) && v in s.pg
    ensures v in After(k, s, ts).pg
    ensures After(k, s, ts).pg[v].mview == MainReplay(s.pg[v].mview, ts, v)
    ensures After(k, s, ts).pg[v].sview == SnapReplay(s.pg[v].sview, ts, v)
    decreases |ts|
  {
    if ts != [] {
      StepViews(k, s, ts[0], v);
      RunViews(k, Exec(k, s, ts[0]), ts[1..], v);
    }
  }

  /** What main core c reads at page v, if it has a translation. */
  predicate MainReads(k: Config, s: State, c: Core, v: Page, d: seq<byte>) {
    (c, v) in s.mtlb && s.mtlb[(c, v)].frame in s.fr && s.fr[s.mtlb[(c, v)].frame].data == d
  }

  /** What the snapshot core's thread reads at page v, if it is executing and has a translation. */
  predicate SnapReads(k: Config, s: State, v: Page, d: seq<byte>) {
    Live(s) && Executing(k, s) && v in s.stlb && s.stlb[v].frame in s.fr && s.fr[s.stlb[v].frame].data == d
  }

  lemma ReadsView(k: Config, tight: bool, s: State, v: Page, d: seq<byte>)
    requires Inv(k, tight, s)
    ensures SnapReads(k, s, v, d) && ((tight && s.phase.Running?) || NoStale(s, v)) ==>
          v in s.pg && d == s.pg[v].sview
    ensures forall c :: MainReads(k, s, c, v, d) ==> v in s.pg && d == s.pg[v].mview
  {
    if SnapReads(k, s, v, d) { assert TrOk(k, tight, s, v, s.stlb[v]) && PageOk(k, s, v); }
    forall c | MainReads(k, s, c, v, d) ensures v in s.pg && d == s.pg[v].mview {
      assert MainTrOk(s, (c, v).1, s.mtlb[(c, v)]) && PageOk(k, s, v);
    }
  }

  /** Snapshot isolation: after every run from branch-off that meets no hazard, the running snapshot
      thread reads the branch-off contents changed by its own writes alone. */
  lemma ForkSemantics(k: Config, s: State, ts: seq<Step>, v: Page, d: seq<byte>)
    requires Init(k, s) && Valid(k, s, ts) && Within(NONE, k, s, ts) && v in s.pg
    ensures SnapReads(k, After(k, s, ts), v, d) && After(k, s, ts).phase.Running? ==>
              d == SnapReplay(s.fr[s.pg[v].main.frame].data, ts, v)
  {
    InitInv(k, true, s);
    RunKeeps(k, true, NONE, s, ts);
    RunViews(k, s, ts, v);
    ReadsView(k, true, After(k, s, ts), v, d);
    assert InitPage(k, s, v);
  }

  /** The other side, and the time before the thread state is set: in every run without a double lock, whatever
      samples and shootdowns it has, the main side reads the branch-off contents changed by its own writes alone,
      and so does the snapshot core through any translation that is not outdated. */
  lemma CurrentReads(k: Config, s: State, ts: seq<Step>, v: Page, d: seq<byte>)
    requires Init(k, s) && Valid(k, s, ts) && Within(NO_DOUBLE, k, s, ts) && v in s.pg
    ensures forall c :: MainReads(k, After(k, s, ts), c, v, d) ==>
          d == MainReplay(s.fr[s.pg[v].main.frame].data, ts, v)
    ensures SnapReads(k, After(k, s, ts), v, d) && NoStale(After(k, s, ts), v) ==>
              d == SnapReplay(s.fr[s.pg[v].main.frame].data, ts, v)
  {
    InitInv(k, false, s);
    RunKeeps(k, false, NO_DOUBLE, s, ts);
    RunViews(k, s, ts, v);
    ReadsView(k, false, After(k, s, ts), v, d);
    assert InitPage(k, s, v);
  }

  // ---- What else holds at every state reached without a double lock ----

  /** Core c's handler holds the lock bit of page v's main entry, or of its snapshot entry. */
  predicate MainHolder(k: Config, s: State, c: Core, v: Page) {
    c in s.cpu && c != k.snapCore && s.cpu[c].v == v && HoldsMain(s.cpu[c].at)
  }

  predicate SnapHolder(k: Config, s: State, c: Core, v: Page) {
    c in s.cpu && s.cpu[c].v == v && if c == k.snapCore then HoldsOwn(s.cpu[c].at) else HoldsSnap(s.cpu[c].at)
  }

  lemma LocksOwned(k: Config, s: State, v: Page)
    requires Inv(k, false, s) && v in s.pg
    ensures s.pg[v].main.lock <==> exists c :: MainHolder(k, s, c, v)
    ensures s.pg[v].snap.lock <==> exists c :: SnapHolder(k, s, c, v)
    ensures forall c, d :: MainHolder(k, s, c, v) && MainHolder(k, s, d, v) ==> c == d
    ensures forall c, d :: SnapHolder(k, s, c, v) && SnapHolder(k, s, d, v) ==> c == d
  {
    assert LockOk(k, s, v);
    forall c | MainHolder(k, s, c, v) ensures s.pg[v].mowner == By(c) { assert MainHandlerOk(k, false, s, c); }
    forall c | SnapHolder(k, s, c, v) ensures s.pg[v].sowner == By(c) {
      if c != k.snapCore { assert MainHandlerOk(k, false, s, c); }
    }
    if s.pg[v].main.lock { assert MainHolder(k, s, s.pg[v].mowner.core, v); }
    if s.pg[v].snap.lock { assert SnapHolder(k, s, s.pg[v].sowner.core, v); }
  }

  /** Each lock bit belongs to exactly one handler in progress, so handlers that
      have left through any exit or retry hold none. */
  lemma LockOwnership(k: Config, s: State, ts: seq<Step>, z: State, v: Page)
    requires Init(k, s) && Valid(k, s, ts) && Within(NO_DOUBLE, k, s, ts) && z == After(k, s, ts) && v in s.pg
    ensures v in z.pg
    ensures z.pg[v].main.lock <==> exists c :: MainHolder(k, z, c, v)
    ensures z.pg[v].snap.lock <==> exists c :: SnapHolder(k, z, c, v)
    ensures forall c, d :: MainHolder(k, z, c, v) && MainHolder(k, z, d, v) ==> c == d
    ensures forall c, d :: SnapHolder(k, z, c, v) && SnapHolder(k, z, d, v) ==> c == d
  {
    InitInv(k, false, s);
    RunKeeps(k, false, NO_DOUBLE, s, ts);
    RunViews(k, s, ts, v);
    LocksOwned(k, z, v);
  }

  /** Until the snapshot has finished, a main entry is writable only if the snapshot's entry names another
      frame, and that frame holds the branch-off contents as changed by the snapshot's own writes. */
  lemma WritableOnlyAfterSplit(k: Config, s: State, ts: seq<Step>, z: State, v: Page)
    requires Init(k, s) && Valid(k, s, ts) && Within(NO_DOUBLE, k, s, ts) && z == After(k, s, ts) && v in s.pg
    ensures v in z.pg
    ensures z.pg[v].main.w && !z.phase.Finished? ==>
              && z.pg[v].snap.frame != z.pg[v].main.frame && z.pg[v].snap.frame in z.fr
              && z.fr[z.pg[v].snap.frame].data == SnapReplay(s.fr[s.pg[v].main.frame].data, ts, v)
  {
    InitInv(k, false, s);
    assert InitPage(k, s, v);
    RunKeeps(k, false, NO_DOUBLE, s, ts);
    RunViews(k, s, ts, v);
    assert PageOk(k, z, v);
  }

  /** A handler whose publishing compare-and-swap succeeds on an entry without the
      accessed bit skips the shootdown, and rightly so: at that moment the
      snapshot core holds no translation of the page, in its TLB or in flight. */
  lemma SkippedShootdownIsSafe(k: Config, s: State, ts: seq<Step>, z: State, c: Core)
    requires Init(k, s) && Valid(k, s, ts) && Within(NO_DOUBLE, k, s, ts) && z == After(k, s, ts)
    requires k.selective && Live(z) && CanDo(k, z, c, Publish)
    ensures var z' := Doing(k, z, c, Publish);
            !z.cpu[c].snap.a ==>
              !Shoots(k, z'.cpu[c]) && z.cpu[c].v !in z'.stlb && !(z'.walk.Captured? && z'.walk.page == z.cpu[c].v)
  {
    InitInv(k, false, s);
    RunKeeps(k, false, NO_DOUBLE, s, ts);
    var v := z.cpu[c].v;
    assert v in z.stlb ==> TrOk(k, false, z, v, z.stlb[v]);
  }
}
