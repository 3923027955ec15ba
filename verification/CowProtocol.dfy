/**
 The copy-on-write protocol between branch-off and the end of a snapshot run:
 the page-fault handler of libdune/fast_spawn.c on any number of main cores and
 on the snapshot core, the hardware walks and TLBs, and the ordinary writes of
 both sides, as atomic steps that interleave freely.
 */
module CowProtocol {
  import opened PageEntry

  type Page = int // number of a virtual page under copy-on-write
  type Core = int
  newtype byte = x: int | 0 <= x < 256

  const PGSIZE := 4096

  /** A translation held by a TLB or by a page walk in flight. */
  datatype Tr = Tr(frame: Frame, w: bool)

  datatype Walk = NoWalk | Captured(page: Page, tr: Tr)

  /** selective is dbos_selective_TLB_shootdown; pool is the set of frames for
      which dune_page_isfrompool holds. */
  datatype Config = Config(snapCore: Core, selective: bool, pool: set<Frame>)

  /** The snapshot worker: waiting for work, root loaded, thread state set to
      DUNE_THREAD_SNAPSHOT, and user work function returned. */
  datatype Phase = Waiting | Loaded | Running | Finished

  /** Where a core stands in dbos_fast_spawn_pgflt_handler. */
  datatype Point =
    | Idle | Enter | Looked | Seen | Locked | Counted | Sampled | SnapSeen | SnapLocked | Copying
    | Overtaken | Reloaded | Published | Dropping | Restoring | Opening | Flushing
    | OwnCopying | OwnDropping // the snapshot core's own copy

  /** A core in the handler, with the handler's locals: the faulting page,
      snapshot_pgtable_exists, old_pte, snapshot_thread_started, the snapshot's
      entry as last read (old_, then new_snapshot_pte, then the value of line 1053),
      newPage, the bytes copied so far, and need_shootdown. */
  datatype Handler = Handler(at: Point, v: Page, shadowed: bool, was: Pte, started: bool,
                             snap: Pte, copy: Frame, n: int, need: bool)

  datatype Owner = Nobody | By(core: Core)

  /** What a frame is used for. */
  datatype Role = Free | Both(page: Page) | MainOf(page: Page) | SnapOf(page: Page) | Fresh(core: Core) | Elsewhere

  /** A page's two entries. The other fields are history: who holds each lock bit,
      and what the page holds for each side if it had a memory of its own. */
  datatype PageState = PageState(main: Pte, snap: Pte, mowner: Owner, sowner: Owner,
                                 mview: seq<byte>, sview: seq<byte>)

  /** A frame's bytes and reference count. role is history, except that an
      allocation takes a Free frame. */
  datatype FrameState = FrameState(data: seq<byte>, ref: int, role: Role)

  /** user says that the snapshot core is executing the snapshot thread rather than
      an interrupt handler or the host, and pend holds the pages of which it must hold no outdated translation
      when it resumes that thread; root says that pgroot_snapshot is not NULL. */
  datatype State = State(
    pg: map<Page, PageState>, fr: map<Frame, FrameState>, cpu: map<Core, Handler>,
    mtlb: map<(Core, Page), Tr>, stlb: map<Page, Tr>, walk: Walk,
    phase: Phase, root: bool, user: bool, pend: set<Page>)

  /** One atomic action of the fault handler. */
  datatype Act =
    | Fault(v: Page) | ReadRoot | LoadEntry | LockEntry | MissEntry | CheckRef
    | Sample | LoadSnap | LockSnap | MissSnap | Restore | ReleaseSnap
    | Alloc(f: Frame) | CopyByte(f: Frame) | Publish | MissPublish | Reload | Overwrite | OwnStore | OwnDrop
    | ShootdownReturn(ahead: bool) | DropRef | Open | FlushLocal | OwnFlush

  datatype Step =
    | Do(c: Core, act: Act)
    // hardware
    | MainFill(c: Core, v: Page) | MainEvict(c: Core, v: Page)
    | SnapWalk(v: Page) | SnapFill | SnapAbort | SnapEvict(v: Page)
    // the two sides' programs
    | MainWrite(c: Core, v: Page, off: int, b: byte) | SnapWrite(v: Page, off: int, b: byte)
    // the snapshot core's control flow
    | Pause | Invalidate(v: Page) | InvalidateAll | Resume | LoadRoot | SetStarted | Finish | ClearRoot

  predicate Live(s: State) { s.phase.Loaded? || s.phase.Running? }

  /** The handler goes on to a shootdown: line 1061. */
  predicate Shoots(k: Config, h: Handler) { h.at.Published? && h.started && (h.need || !k.selective) }

  /** The snapshot core holds no translation of v other than the current entry's frame. */
  predicate NoStale(s: State, v: Page) {
    && (v in s.stlb ==> v in s.pg && s.stlb[v].frame == s.pg[v].snap.frame)
    && (s.walk.Captured? && s.walk.page == v ==> v in s.pg && s.walk.tr.frame == s.pg[v].snap.frame)
  }

  /** The snapshot core executes its own thread, outside the fault handler. */
  predicate Executing(k: Config, s: State) { s.user && k.snapCore in s.cpu && s.cpu[k.snapCore].at.Idle? }

  /** Core c stands at p and can take its next step: the snapshot core only while it runs its thread. */
  predicate At(k: Config, s: State, c: Core, p: Point) {
    c in s.cpu && s.cpu[c].at == p && s.cpu[c].v in s.pg && (c == k.snapCore ==> s.user && Live(s))
  }

  predicate MainAt(k: Config, s: State, c: Core, p: Point) { c != k.snapCore && At(k, s, c, p) }

  function Goto(s: State, c: Core, h: Handler): State { s.(cpu := s.cpu[c := h]) }

  function SetPage(s: State, v: Page, p: PageState): State { s.(pg := s.pg[v := p]) }

  function SetFrame(s: State, f: Frame, x: FrameState): State { s.(fr := s.fr[f := x]) }

  // ---- Lines 905-958: enter, read the entry, lock it, test the reference count ----

  predicate CanFault(k: Config, s: State, c: Core, v: Page) {
    c in s.cpu && s.cpu[c].at.Idle? && v in s.pg && (c == k.snapCore ==> s.user && Live(s))
  }
  function DoFault(s: State, c: Core, v: Page): State
    requires c in s.cpu
  {
    Goto(s, c, s.cpu[c].(at := Enter, v := v))
  }

  function DoReadRoot(s: State, c: Core): State
    requires c in s.cpu
  {
    Goto(s, c, s.cpu[c].(at := Looked, shadowed := s.root))
  }

  function Own(k: Config, s: State, c: Core): Pte
    requires c in s.cpu && s.cpu[c].v in s.pg
  {
    if c == k.snapCore then s.pg[s.cpu[c].v].snap else s.pg[s.cpu[c].v].main
  }

  /** The value that a compare-and-swap of the faulting entry, or of the snapshot's, compares against is still
      there. */
  predicate HitsOwn(k: Config, s: State, c: Core) {
    c in s.cpu && s.cpu[c].v in s.pg && Own(k, s, c) == s.cpu[c].was
  }

  predicate HitsSnap(s: State, c: Core) {
    c in s.cpu && s.cpu[c].v in s.pg && s.pg[s.cpu[c].v].snap == s.cpu[c].snap
  }

  function DoLoadEntry(k: Config, s: State, c: Core): State
    requires c in s.cpu && s.cpu[c].v in s.pg
  {
    var e := Own(k, s, c);
    Goto(s, c, s.cpu[c].(at := if Eligible(e) then Seen else Flushing, was := e))
  }

  function DoLockEntry(k: Config, s: State, c: Core): State
    requires c in s.cpu && s.cpu[c].v in s.pg
  {
    var h := s.cpu[c];
    SetPage(Goto(s, c, h.(at := Locked)), h.v,
            if c == k.snapCore then s.pg[h.v].(snap := WithLock(h.was), sowner := By(c))
            else s.pg[h.v].(main := WithLock(h.was), mowner := By(c)))
  }

  /** A compare-and-swap that finds another value changes nothing and jumps to p. */
  function DoMiss(s: State, c: Core, p: Point): State
    requires c in s.cpu
  {
    Goto(s, c, s.cpu[c].(at := p))
  }

  function DoCheckRef(k: Config, s: State, c: Core): State
    requires c in s.cpu && s.cpu[c].was.frame in s.fr
  {
    var h := s.cpu[c];
    var exclusive := h.was.frame in k.pool && s.fr[h.was.frame].ref == 1;
    Goto(s, c, h.(at := if exclusive then Opening else Counted))
  }

  // ---- Lines 960-1008: sample the thread state, find and lock the snapshot's entry ----

  function DoSample(s: State, c: Core): State
    requires c in s.cpu
  {
    var h := s.cpu[c];
    Goto(s, c, h.(at := if h.shadowed then Sampled else Opening, started := s.phase.Running?))
  }

  function DoLoadSnap(s: State, c: Core): State
    requires c in s.cpu && s.cpu[c].v in s.pg
  {
    Goto(s, c, s.cpu[c].(at := SnapSeen, snap := s.pg[s.cpu[c].v].snap))
  }

  /** The compare-and-swap of line 993; its guard, HitsSnap, also holds when the value read was locked. */
  function DoLockSnap(s: State, c: Core): State
    requires c in s.cpu && s.cpu[c].v in s.pg
  {
    var h := s.cpu[c];
    SetPage(Goto(s, c, h.(at := SnapLocked, snap := WithLock(h.snap))), h.v,
            s.pg[h.v].(snap := WithLock(h.snap), sowner := By(c)))
  }

  function DoRestore(s: State, c: Core): State
    requires c in s.cpu && s.cpu[c].v in s.pg
  {
    var h := s.cpu[c];
    SetPage(Goto(s, c, h.(at := Enter)), h.v, s.pg[h.v].(main := Restored(h.was), mowner := Nobody))
  }

  predicate CanReleaseSnap(k: Config, s: State, c: Core) {
    MainAt(k, s, c, SnapLocked) && s.cpu[c].was.frame != s.cpu[c].snap.frame
  }
  function DoReleaseSnap(s: State, c: Core): State
    requires c in s.cpu && s.cpu[c].v in s.pg
  {
    var h := s.cpu[c];
    SetPage(Goto(s, c, h.(at := Opening)), h.v, s.pg[h.v].(snap := Released(h.snap), sowner := Nobody))
  }

  // ---- Lines 963-982 and 1036-1059: allocate, copy, publish ----

  predicate CanAlloc(k: Config, s: State, c: Core, f: Frame) {
    && (if c == k.snapCore then At(k, s, c, Counted)
        else At(k, s, c, SnapLocked) && s.cpu[c].was.frame == s.cpu[c].snap.frame)
    && f in s.fr && s.fr[f].role.Free?
  }
  function DoAlloc(k: Config, s: State, c: Core, f: Frame): State
    requires c in s.cpu && f in s.fr
  {
    SetFrame(Goto(s, c, s.cpu[c].(at := if c == k.snapCore then OwnCopying else Copying, copy := f, n := 0)),
             f, s.fr[f].(role := Fresh(c), ref := 1))
  }

  /** memcpy reads the faulting page through the core's own TLB entry. */
  predicate Reads(k: Config, s: State, c: Core, v: Page, f: Frame) {
    if c == k.snapCore then v in s.stlb && s.stlb[v].frame == f
    else (c, v) in s.mtlb && s.mtlb[(c, v)].frame == f
  }
  predicate CanCopyByte(k: Config, s: State, c: Core, f: Frame) {
    && At(k, s, c, if c == k.snapCore then OwnCopying else Copying)
    && Reads(k, s, c, s.cpu[c].v, f) && f in s.fr && s.cpu[c].copy in s.fr
    && 0 <= s.cpu[c].n < PGSIZE && s.cpu[c].n < |s.fr[f].data| && s.cpu[c].n < |s.fr[s.cpu[c].copy].data|
  }
  function DoCopyByte(k: Config, s: State, c: Core, f: Frame): State
    requires CanCopyByte(k, s, c, f)
  {
    var h := s.cpu[c];
    SetFrame(Goto(s, c, h.(n := h.n + 1)), h.copy,
             s.fr[h.copy].(data := s.fr[h.copy].data[h.n := s.fr[f].data[h.n]]))
  }

  /** The snapshot's entry becomes e and names the copy; as history, the page's
      two sides now have a frame each and the snapshot's entry is unlocked. */
  function Split(s: State, h: Handler, e: Pte): State
    requires h.v in s.pg && h.was.frame in s.fr && h.copy in s.fr
  {
    s.(pg := s.pg[h.v := s.pg[h.v].(snap := e, sowner := Nobody)],
       fr := s.fr[h.was.frame := s.fr[h.was.frame].(role := MainOf(h.v))][h.copy :=
           s.fr[h.copy].(role := SnapOf(h.v))])
  }

  predicate CanSplit(s: State, c: Core) {
    c in s.cpu && s.cpu[c].v in s.pg && s.cpu[c].was.frame in s.fr && s.cpu[c].copy in s.fr
  }

  /** The compare-and-swap of line 1050. */
  predicate CanPublish(k: Config, s: State, c: Core) {
    MainAt(k, s, c, Copying) && s.cpu[c].n == PGSIZE && CanSplit(s, c) && HitsSnap(s, c)
  }
  function DoPublish(s: State, c: Core): State
    requires CanSplit(s, c)
  {
    var h := s.cpu[c];
    Split(Goto(s, c, h.(at := Published, need := h.snap.a)), h, Redirected(h.snap, h.copy))
  }

  function DoReload(s: State, c: Core): State
    requires c in s.cpu && s.cpu[c].v in s.pg
  {
    Goto(s, c, s.cpu[c].(at := Reloaded, snap := s.pg[s.cpu[c].v].snap))
  }

  predicate CanOverwrite(k: Config, s: State, c: Core) { MainAt(k, s, c, Reloaded) && CanSplit(s, c) }
  function DoOverwrite(s: State, c: Core): State
    requires CanSplit(s, c)
  {
    var h := s.cpu[c];
    Split(Goto(s, c, h.(at := Published, need := true)), h, Redirected(h.snap, h.copy))
  }

  predicate CanOwnStore(k: Config, s: State, c: Core) {
    c == k.snapCore && At(k, s, c, OwnCopying) && s.cpu[c].n == PGSIZE && CanSplit(s, c)
  }
  function DoOwnStore(s: State, c: Core): State
    requires CanSplit(s, c)
  {
    var h := s.cpu[c];
    Split(Goto(s, c, h.(at := OwnDropping)), h, Opened(h.was).(frame := h.copy))
  }

  // ---- Lines 1061-1100: shootdown, reference drop, open the entry, local flush ----

  /** dbos_tlb_shootdown has returned, whatever it achieved. ahead says that the snapshot
      core, away from its thread, still has the invalidation of the page before it. */
  predicate CanShootdownReturn(k: Config, s: State, c: Core) { MainAt(k, s, c, Published) && Shoots(k, s.cpu[c]) }
  function DoShootdownReturn(s: State, c: Core, ahead: bool): State
    requires c in s.cpu
  {
    var h := s.cpu[c];
    Goto(s, c, h.(at := Dropping)).(pend := if ahead && !s.user then s.pend + {h.v} else s.pend)
  }

  /** dune_page_put, for a frame of the pool. */
  function Put(x: FrameState): FrameState {
    x.(ref := x.ref - 1, role := if x.ref == 1 then Free else x.role)
  }

  function DropOne(k: Config, s: State, f: Frame): State
    requires f in s.fr
  {
    SetFrame(s, f, if f in k.pool then Put(s.fr[f]) else s.fr[f])
  }

  predicate CanDropRef(k: Config, s: State, c: Core) {
    && c in s.cpu && s.cpu[c].was.frame in s.fr && !Shoots(k, s.cpu[c])
    && (MainAt(k, s, c, Dropping) || MainAt(k, s, c, Published))
  }
  function DoDropRef(k: Config, s: State, c: Core): State
    requires c in s.cpu && s.cpu[c].was.frame in s.fr
  {
    DropOne(k, Goto(s, c, s.cpu[c].(at := Opening)), s.cpu[c].was.frame)
  }

  predicate CanOwnDrop(k: Config, s: State, c: Core) {
    c == k.snapCore && At(k, s, c, OwnDropping) && s.cpu[c].was.frame in s.fr
  }
  function DoOwnDrop(k: Config, s: State, c: Core): State
    requires c in s.cpu && s.cpu[c].was.frame in s.fr
  {
    DropOne(k, Goto(s, c, s.cpu[c].(at := Flushing)), s.cpu[c].was.frame)
  }

  function DoOpen(k: Config, s: State, c: Core): State
    requires c in s.cpu && s.cpu[c].v in s.pg
  {
    var h := s.cpu[c];
    SetPage(Goto(s, c, h.(at := Flushing)), h.v,
            if c == k.snapCore then s.pg[h.v].(snap := Opened(h.was), sowner := Nobody)
            else s.pg[h.v].(main := Opened(h.was), mowner := Nobody))
  }

  function DoFlushLocal(s: State, c: Core): State
    requires c in s.cpu
  {
    Goto(s, c, s.cpu[c].(at := Idle)).(mtlb := s.mtlb - {(c, s.cpu[c].v)})
  }

  function DoOwnFlush(s: State, c: Core): State
    requires c in s.cpu
  {
    DropTr(Goto(s, c, s.cpu[c].(at := Idle)), s.cpu[c].v)
  }

  /** invlpg on the snapshot core, which also discards a walk in flight. */
  function DropTr(s: State, v: Page): State {
    s.(stlb := s.stlb - {v}, walk := if s.walk.Captured? && s.walk.page == v then NoWalk else s.walk)
  }

  // ---- Hardware ----

  predicate CanMainFill(k: Config, s: State, c: Core, v: Page) {
    c in s.cpu && c != k.snapCore && v in s.pg && s.pg[v].main.p
  }
  function DoMainFill(s: State, c: Core, v: Page): State
    requires v in s.pg
  {
    var e := s.pg[v].main;
    SetPage(s, v, s.pg[v].(main := e.(a := true))).(mtlb := s.mtlb[(c, v) := Tr(e.frame, e.w)])
  }

  /** A page walk sets the accessed bit in the same atomic step in which it captures the entry. */
  predicate CanSnapWalk(s: State, v: Page) { !s.phase.Waiting? && s.walk.NoWalk? && v in s.pg && s.pg[v].snap.p }
  function DoSnapWalk(s: State, v: Page): State
    requires v in s.pg
  {
    var e := s.pg[v].snap;
    SetPage(s, v, s.pg[v].(snap := e.(a := true))).(walk := Captured(v, Tr(e.frame, e.w)))
  }

  function DoSnapFill(s: State): State
    requires s.walk.Captured?
  {
    s.(stlb := s.stlb[s.walk.page := s.walk.tr], walk := NoWalk)
  }

  // ---- Programs ----

  predicate CanWrite(s: State, f: Frame, v: Page, off: int) {
    && f in s.fr && v in s.pg && 0 <= off < PGSIZE
    && off < |s.fr[f].data| && off < |s.pg[v].mview| && off < |s.pg[v].sview|
  }

  predicate CanMainWrite(k: Config, s: State, c: Core, v: Page, off: int) {
    && c in s.cpu && c != k.snapCore && s.cpu[c].at.Idle? && (c, v) in s.mtlb && s.mtlb[(c, v)].w
    && CanWrite(s, s.mtlb[(c, v)].frame, v, off)
  }
  function DoMainWrite(s: State, c: Core, v: Page, off: int, b: byte): State
    requires (c, v) in s.mtlb && CanWrite(s, s.mtlb[(c, v)].frame, v, off)
  {
    var f := s.mtlb[(c, v)].frame;
    SetFrame(SetPage(s, v, s.pg[v].(mview := s.pg[v].mview[off := b])), f, s.fr[f].(data := s.fr[f].data[off := b]))
  }

  predicate CanSnapWrite(k: Config, s: State, v: Page, off: int) {
    && k.snapCore in s.cpu && s.cpu[k.snapCore].at.Idle? && s.user && Live(s)
    && v in s.stlb && s.stlb[v].w && CanWrite(s, s.stlb[v].frame, v, off)
  }
  function DoSnapWrite(s: State, v: Page, off: int, b: byte): State
    requires v in s.stlb && CanWrite(s, s.stlb[v].frame, v, off)
  {
    var f := s.stlb[v].frame;
    SetFrame(SetPage(s, v, s.pg[v].(sview := s.pg[v].sview[off := b])), f, s.fr[f].(data := s.fr[f].data[off := b]))
  }

  // ---- The machine ----

  predicate CanDo(k: Config, s: State, c: Core, act: Act) {
    match act
    case Fault(v) => CanFault(k, s, c, v)
    case ReadRoot => At(k, s, c, Enter)
    case LoadEntry => At(k, s, c, Looked)
    case LockEntry => At(k, s, c, Seen) && HitsOwn(k, s, c)
    case MissEntry => At(k, s, c, Seen) && !HitsOwn(k, s, c)
    case CheckRef => At(k, s, c, Locked) && s.cpu[c].was.frame in s.fr
    case Sample => MainAt(k, s, c, Counted)
    case LoadSnap => MainAt(k, s, c, Sampled)
    case LockSnap => MainAt(k, s, c, SnapSeen) && HitsSnap(s, c)
    case MissSnap => MainAt(k, s, c, SnapSeen) && !HitsSnap(s, c)
    case Restore => MainAt(k, s, c, Restoring)
    case ReleaseSnap => CanReleaseSnap(k, s, c)
    case Alloc(f) => CanAlloc(k, s, c, f)
    case CopyByte(f) => CanCopyByte(k, s, c, f)
    case Publish => CanPublish(k, s, c)
    case MissPublish => MainAt(k, s, c, Copying) && s.cpu[c].n == PGSIZE && !HitsSnap(s, c)
    case Reload => MainAt(k, s, c, Overtaken)
    case Overwrite => CanOverwrite(k, s, c)
    case OwnStore => CanOwnStore(k, s, c)
    case OwnDrop => CanOwnDrop(k, s, c)
    case ShootdownReturn(_) => CanShootdownReturn(k, s, c)
    case DropRef => CanDropRef(k, s, c)
    case Open => At(k, s, c, Opening)
    case FlushLocal => MainAt(k, s, c, Flushing)
    case OwnFlush => c == k.snapCore && At(k, s, c, Flushing)
  }

  function Doing(k: Config, s: State, c: Core, act: Act): State
    requires CanDo(k, s, c, act)
  {
    match act
    case Fault(v) => DoFault(s, c, v)
    case ReadRoot => DoReadRoot(s, c)
    case LoadEntry => DoLoadEntry(k, s, c)
    case LockEntry => DoLockEntry(k, s, c)
    case MissEntry => DoMiss(s, c, Flushing)
    case CheckRef => DoCheckRef(k, s, c)
    case Sample => DoSample(s, c)
    case LoadSnap => DoLoadSnap(s, c)
    case LockSnap => DoLockSnap(s, c)
    case MissSnap => DoMiss(s, c, Restoring)
    case Restore => DoRestore(s, c)
    case ReleaseSnap => DoReleaseSnap(s, c)
    case Alloc(f) => DoAlloc(k, s, c, f)
    case CopyByte(f) => DoCopyByte(k, s, c, f)
    case Publish => DoPublish(s, c)
    case MissPublish => DoMiss(s, c, Overtaken)
    case Reload => DoReload(s, c)
    case Overwrite => DoOverwrite(s, c)
    case OwnStore => DoOwnStore(s, c)
    case OwnDrop => DoOwnDrop(k, s, c)
    case ShootdownReturn(ahead) => DoShootdownReturn(s, c, ahead)
    case DropRef => DoDropRef(k, s, c)
    case Open => DoOpen(k, s, c)
    case FlushLocal => DoFlushLocal(s, c)
    case OwnFlush => DoOwnFlush(s, c)
  }

  predicate Enabled(k: Config, s: State, t: Step) {
    match t
    case Do(c, act) => CanDo(k, s, c, act)
    case MainFill(c, v) => CanMainFill(k, s, c, v)
    case MainEvict(c, v) => (c, v) in s.mtlb
    case SnapWalk(v) => CanSnapWalk(s, v)
    case SnapFill => s.walk.Captured?
    case SnapAbort => s.walk.Captured?
    case SnapEvict(v) => v in s.stlb
    case MainWrite(c, v, off, b) => CanMainWrite(k, s, c, v, off)
    case SnapWrite(v, off, b) => CanSnapWrite(k, s, v, off)
    case Pause => s.user
    case Invalidate(v) => !s.user
    case InvalidateAll => !s.user
    case Resume => !s.user && forall v <- s.pend :: NoStale(s, v)
    case LoadRoot => s.phase.Waiting? && s.user
    case SetStarted => s.phase.Loaded? && Executing(k, s)
    case Finish => s.phase.Running? && Executing(k, s)
    case ClearRoot => s.phase.Finished?
  }

  function Exec(k: Config, s: State, t: Step): State
    requires Enabled(k, s, t)
  {
    match t
    case Do(c, act) => Doing(k, s, c, act)
    case MainFill(c, v) => DoMainFill(s, c, v)
    case MainEvict(c, v) => s.(mtlb := s.mtlb - {(c, v)})
    case SnapWalk(v) => DoSnapWalk(s, v)
    case SnapFill => DoSnapFill(s)
    case SnapAbort => s.(walk := NoWalk)
    case SnapEvict(v) => s.(stlb := s.stlb - {v})
    case MainWrite(c, v, off, b) => DoMainWrite(s, c, v, off, b)
    case SnapWrite(v, off, b) => DoSnapWrite(s, v, off, b)
    case Pause => s.(user := false)
    case Invalidate(v) => DropTr(s, v).(pend := s.pend - {v})
    case InvalidateAll => s.(stlb := map[], walk := NoWalk, pend := {})
    case Resume => s.(user := true, pend := {})
    case LoadRoot => s.(phase := Loaded, stlb := map[], walk := NoWalk)
    case SetStarted => s.(phase := Running)
    case Finish => s.(phase := Finished)
    case ClearRoot => s.(root := false)
  }

  /** Just after branch-off, whatever happened while the table was copied and while the cores switched to their new
      tables. Both tables name the frame of each page, each pool page carries the two references the clone took,
      and the contents are the branch-off contents. A shadow may be writable, and main cores may hold
      translations from before the switch. */
  predicate Start(k: Config, s: State) {
    && (forall f <- s.fr :: |s.fr[f].data| == PGSIZE)
    && (forall v <- s.pg :: StartPage(k, s, v))
    && (forall c <- s.cpu :: s.cpu[c].at.Idle?)
    && (forall e <- s.mtlb :: OldTr(k, s, e.0, e.1, s.mtlb[e]))
    && k.snapCore in s.cpu && s.stlb == map[] && s.walk == NoWalk && s.phase.Waiting? && s.root && s.pend == {}
  }

  predicate StartPage(k: Config, s: State, v: Page) {
    && v in s.pg
    && var p := s.pg[v];
    && CopiedPair(p.main, p.snap)
    && p.mowner.Nobody? && p.sowner.Nobody? && p.main.frame in s.fr
    && var x := s.fr[p.main.frame];
    && x.role == Both(v) && (p.main.frame in k.pool ==> x.ref >= 2)
    && p.mview == x.data && p.sview == x.data
  }

  predicate OldTr(k: Config, s: State, c: Core, v: Page, tr: Tr) {
    c in s.cpu && c != k.snapCore && v in s.pg && tr.frame == s.pg[v].main.frame
  }

  /** No main core holds a writable translation. */
  predicate Cold(s: State) { forall e <- s.mtlb :: !s.mtlb[e].w }

  /** Just after branch-off, as the fault handler relies on it: all shadows are write-protected, and so are the
      translations that main cores hold. StartExact shows that it relies on exactly this. */
  predicate Init(k: Config, s: State) { Start(k, s) && (forall v <- s.pg :: InitPage(k, s, v)) && Cold(s) }

  predicate InitPage(k: Config, s: State, v: Page) {
    StartPage(k, s, v) && !s.pg[v].main.w && !s.pg[v].snap.w
  }
}
