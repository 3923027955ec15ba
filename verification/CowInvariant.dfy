/**
 The invariant of the copy-on-write protocol and its preservation by every step.
 It has two forms. The loose one holds in every run without a double lock, the compare-and-swap of
 line 993 on an entry that is already locked. The tight one also says that outdated translations of the
 snapshot core do no harm; it needs a snapshot that started clean and shootdowns that returned
 in time. CowExact and CowLostWrite show what happens otherwise.
 */
module CowInvariant {
  import opened PageEntry
  import opened CowProtocol

  /** Points at which a main core holds the lock bit of its main entry. */
  predicate HoldsMain(p: Point) {
    p.Locked? || p.Counted? || p.Sampled? || p.SnapSeen? || HoldsSnap(p) || p.Published? || p.Dropping?
    || p.Restoring? || p.Opening?
  }

  /** Points at which a main core also holds the lock bit of the snapshot's entry. */
  predicate HoldsSnap(p: Point) { p.SnapLocked? || p.Copying? || p.Overtaken? || p.Reloaded? }

  /** Points at which the snapshot core holds the lock bit of its entry. */
  predicate HoldsOwn(p: Point) { p.Locked? || p.Counted? || p.OwnCopying? }

  predicate OwnPoint(p: Point) {
    p.Idle? || p.Enter? || p.Looked? || p.Seen? || HoldsOwn(p) || p.OwnDropping? || p.Flushing?
  }

  predicate Typed(k: Config, s: State) {
    && k.snapCore in s.cpu
    && (s.phase.Waiting? ==> s.stlb == map[] && s.walk.NoWalk?)
    && (!s.root ==> s.phase.Finished?)
    && (!Live(s) ==> s.cpu[k.snapCore].at.Idle?)
  }

  predicate Sized(s: State) { forall f <- s.fr :: |s.fr[f].data| == PGSIZE }

  /** A main core, or the snapshot core, is about to drop a reference to the main frame of v. */
  predicate MainDrops(s: State, v: Page) {
    && v in s.pg && s.pg[v].mowner.By? && s.pg[v].mowner.core in s.cpu
    && (s.cpu[s.pg[v].mowner.core].at.Published? || s.cpu[s.pg[v].mowner.core].at.Dropping?)
  }

  predicate OwnDrops(k: Config, s: State, v: Page) {
    k.snapCore in s.cpu && s.cpu[k.snapCore].at.OwnDropping? && s.cpu[k.snapCore].v == v
  }

  /** The frames, contents, permissions and references of one page. */
  predicate PageOk(k: Config, s: State, v: Page) {
    && v in s.pg
    && var p := s.pg[v];
    && var f, g := p.main.frame, p.snap.frame;
    && f in s.fr && g in s.fr && p.main.p && p.snap.p
    && (if f == g then s.fr[f].role == Both(v) else s.fr[f].role == MainOf(v) && s.fr[g].role == SnapOf(v))
    && s.fr[f].data == p.mview && (!s.phase.Finished? ==> s.fr[g].data == p.sview) && |p.sview| == PGSIZE
    && (p.main.w ==> f != g || s.phase.Finished?) && (p.snap.w ==> f != g) && (p.snap.cow ==> f == g)
    && (if f == g then s.phase.Finished? || p.main.cow == p.snap.cow else p.main.cow || p.main.w)
    && (f in k.pool ==> s.fr[f].ref >= if f == g || MainDrops(s, v) || OwnDrops(k, s, v) then 2 else 1)
    && !(MainDrops(s, v) && OwnDrops(k, s, v)) && (f == g ==> !MainDrops(s, v) && !OwnDrops(k, s, v))
    && (g in k.pool ==> s.fr[g].ref >= 1)
  }

  /** Each lock bit is set exactly while one handler owns it. */
  predicate LockOk(k: Config, s: State, v: Page) {
    && v in s.pg
    && var p := s.pg[v];
    && (p.main.lock <==> p.mowner.By?) && (p.snap.lock <==> p.sowner.By?) && (p.main.lock ==> !p.main.w)
    && (p.mowner.By? ==>
          && p.mowner.core in s.cpu && p.mowner.core != k.snapCore
          && s.cpu[p.mowner.core].v == v && HoldsMain(s.cpu[p.mowner.core].at))
    && (p.sowner.By? ==>
          && p.sowner.core in s.cpu && s.cpu[p.sowner.core].v == v
          && (if p.sowner.core == k.snapCore then HoldsOwn(s.cpu[p.sowner.core].at)
              else HoldsSnap(s.cpu[p.sowner.core].at)))
  }

  /** The snapshot's entry is what the handler last wrote or read, up to a hardware set of the accessed bit. */
  predicate UpToAccessed(e: Pte, h: Pte) { e == h || e == h.(a := true) }

  /** The handler's private copy agrees with the page's shared frame on its first n bytes. */
  predicate CopyOk(s: State, c: Core, h: Handler, n: int) {
    && h.v in s.pg && h.copy in s.fr
    && var p, x := s.pg[h.v], s.fr[h.copy];
    && p.main.frame == p.snap.frame && x.role == Fresh(c) && x.ref >= 1
    && p.main.frame in s.fr
    && |x.data| == |s.fr[p.main.frame].data| == PGSIZE && 0 <= n <= PGSIZE
    && x.data[..n] == s.fr[p.main.frame].data[..n]
  }

  /** The handler of c read the thread state before the snapshot started, and
      can still replace the snapshot's shared frame without a shootdown. */
  predicate EarlySample(k: Config, s: State, c: Core) {
    && c in s.cpu && c != k.snapCore && !s.cpu[c].started && s.cpu[c].v in s.pg
    && var h, p := s.cpu[c], s.pg[s.cpu[c].v];
    && p.main.frame == p.snap.frame
    && (|| (h.at.Sampled? && !p.snap.lock)
        || (h.at.SnapSeen? && h.snap == p.snap && !h.snap.lock)
        || HoldsSnap(h.at))
  }

  /** Points past the sample of the thread state, up to the drop of the reference. */
  predicate Paired(p: Point) { p.Sampled? || p.SnapSeen? || HoldsSnap(p) || p.Published? || p.Dropping? }

  predicate MainHandlerOk(k: Config, tight: bool, s: State, c: Core) {
    && c in s.cpu
    && var h := s.cpu[c];
    && !h.at.OwnCopying? && !h.at.OwnDropping?
    && (!h.at.Idle? ==>
          && h.v in s.pg
          && var p := s.pg[h.v];
          && (h.at.Seen? ==> Eligible(h.was) && h.was.p)
          && ((h.at.Looked? || h.at.Seen? || h.at.Locked? || h.at.Counted?) && !h.shadowed ==> s.phase.Finished?)
          && (HoldsMain(h.at) ==> p.mowner == By(c) && p.main.frame == h.was.frame && p.main.cow && h.was.p)
          && (Paired(h.at) && (s.phase.Waiting? || s.phase.Loaded?) ==> !h.started)
          && (HoldsSnap(h.at) ==> p.sowner == By(c))
          && (h.at.SnapSeen? && h.snap.a ==> p.snap.a)
          && (tight && s.phase.Running? ==> !EarlySample(k, s, c))
          && (h.at.SnapLocked? || h.at.Copying? ==> UpToAccessed(p.snap, h.snap))
          && (h.at.Copying? ==> CopyOk(s, c, h, h.n))
          && (h.at.Overtaken? || h.at.Reloaded? ==> CopyOk(s, c, h, PGSIZE))
          && (h.at.Reloaded? ==> h.snap.p)
          && (h.at.Published? || h.at.Dropping? ==> p.main.frame != p.snap.frame)
          && (h.at.Opening? ==> p.main.frame != p.snap.frame || s.phase.Finished?))
  }

  predicate SnapHandlerOk(k: Config, s: State) {
    && k.snapCore in s.cpu
    && var h := s.cpu[k.snapCore];
    && OwnPoint(h.at)
    && (!h.at.Idle? ==>
          && h.v in s.pg
          && var p := s.pg[h.v];
          && (h.at.Seen? ==> Eligible(h.was) && h.was.p)
          && (HoldsOwn(h.at) ==> p.sowner == By(k.snapCore) && p.snap.cow && p.snap.frame == h.was.frame && h.was.p)
          && (h.at.OwnCopying? ==> CopyOk(s, k.snapCore, h, h.n))
          && (h.at.OwnDropping? ==> p.main.frame != p.snap.frame && p.main.frame == h.was.frame))
  }

  predicate MainTrOk(s: State, v: Page, tr: Tr) {
    v in s.pg && tr.frame == s.pg[v].main.frame && (tr.w ==> s.pg[v].main.w)
  }

  /** The snapshot core is in a fault at page v, at whose end it flushes the page. */
  predicate OwnFault(k: Config, s: State, v: Page) {
    k.snapCore in s.cpu && s.cpu[k.snapCore].v == v && !s.cpu[k.snapCore].at.Idle?
  }

  /** Why an outdated translation of v can do no harm: it is dropped before the
      snapshot thread goes on, or neither side has written the page and a shootdown is still to
      come, or the snapshot core is itself about to flush it. */
  predicate StaleCovered(k: Config, s: State, v: Page) {
    && v in s.pg
    && (|| (!s.user && v in s.pend)
        || (&& s.pg[v].mowner.By? && s.pg[v].mowner.core in s.cpu && Shoots(k, s.cpu[s.pg[v].mowner.core])
            && s.pg[v].mview == s.pg[v].sview)
        || OwnFault(k, s, v))
  }

  predicate TrOk(k: Config, tight: bool, s: State, v: Page, tr: Tr) {
    && v in s.pg && s.pg[v].snap.a
    && (if tr.frame == s.pg[v].snap.frame then tr.w ==> s.pg[v].snap.w
        else tr.frame == s.pg[v].main.frame && !tr.w && (tight && s.phase.Running? ==> StaleCovered(k, s, v)))
  }

  predicate WalkOk(k: Config, tight: bool, s: State) {
    s.walk.Captured? ==>
      && TrOk(k, tight, s, s.walk.page, s.walk.tr)
      && (tight && s.phase.Running? && s.walk.tr.frame != s.pg[s.walk.page].snap.frame && s.walk.page in s.stlb ==>
            s.stlb[s.walk.page].frame != s.pg[s.walk.page].snap.frame)
  }

  predicate PagesOk(k: Config, s: State) { forall v <- s.pg :: PageOk(k, s, v) }
  predicate LocksOk(k: Config, s: State) { forall v <- s.pg :: LockOk(k, s, v) }
  predicate HandlersOk(k: Config, tight: bool, s: State) {
    forall c <- s.cpu :: c != k.snapCore ==> MainHandlerOk(k, tight, s, c)
  }
  predicate MainTlbOk(s: State) { forall e <- s.mtlb :: MainTrOk(s, e.1, s.mtlb[e]) }
  predicate SnapTlbOk(k: Config, tight: bool, s: State) { forall v <- s.stlb :: TrOk(k, tight, s, v, s.stlb[v]) }

  predicate Inv(k: Config, tight: bool, s: State) {
    && Typed(k, s) && Sized(s) && PagesOk(k, s) && LocksOk(k, s) && SnapHandlerOk(k, s) && HandlersOk(k, tight, s)
        && MainTlbOk(s)
    && (Live(s) ==> SnapTlbOk(k, tight, s) && WalkOk(k, tight, s))
  }

  predicate Open(s: State) { true }

  /** Inv, unfolded only for a state that is named with Open, so that the steps below look at one page at a time. */
  ghost predicate Good(k: Config, tight: bool, s: State) {
    forall z: State {:trigger Open(z)} :: Open(z) && z == s ==> Inv(k, tight, z)
  }

  lemma Seal(k: Config, tight: bool, s: State)
    requires Inv(k, tight, s)
    ensures Good(k, tight, s)
  {}

  lemma Unseal(k: Config, tight: bool, s: State)
    requires Good(k, tight, s)
    ensures Inv(k, tight, s)
  {
    assert Open(s);
  }

  // ---- The three hazards ----

  /** No handler holds an early sample, and no translation of the snapshot core, in its TLB or in flight, is
      outdated. */
  predicate Clean(k: Config, s: State) {
    (forall c <- s.cpu :: !EarlySample(k, s, c)) && (forall v <- s.pg :: NoStale(s, v))
  }

  /** A shootdown returns although an outdated translation of the page remains that the
      snapshot core will neither drop before it executes its thread again nor flush itself. */
  predicate LateReturn(k: Config, s: State, t: Step) {
    && t.Do? && t.act.ShootdownReturn? && t.c in s.cpu && s.phase.Running?
    && var v := s.cpu[t.c].v;
    !NoStale(s, v) && !(!s.user && (t.act.ahead || v in s.pend)) && !OwnFault(k, s, v)
  }

  /** The compare-and-swap of line 993 is about to run on an entry that was already locked when read. */
  predicate DoubleLock(s: State, t: Step) {
    t.Do? && t.act.LockSnap? && t.c in s.cpu && s.cpu[t.c].snap.lock
  }

  lemma InitInv(k: Config, tight: bool, s: State)
    requires Init(k, s)
    ensures Inv(k, tight, s)
  {}

  // ---- Steps that only move a handler along ----

  /** The handler neither gains nor loses a lock and stands clear of the points that others rely on. */
  predicate QuietMove(own: bool, h: Handler, h': Handler) {
    && (own ==> (HoldsOwn(h.at) <==> HoldsOwn(h'.at)) && (!h.at.Idle? ==> h'.v == h.v && !h'.at.Idle?))
    && (!own ==>
          && (HoldsMain(h.at) <==> HoldsMain(h'.at)) && (HoldsSnap(h.at) <==> HoldsSnap(h'.at))
          && (HoldsMain(h.at) ==> h'.v == h.v))
    && !Relied(h.at) && !h.at.Flushing? && !Relied(h'.at)
  }

  predicate Relied(p: Point) { p.Published? || p.Dropping? || p.OwnDropping? }

  lemma QuietPage(k: Config, s: State, c: Core, h': Handler, u: Page)
    requires Typed(k, s) && c in s.cpu && QuietMove(c == k.snapCore, s.cpu[c], h') && PageOk(k, s, u)
    requires LockOk(k, s, u)
    ensures PageOk(k, Goto(s, c, h'), u) && LockOk(k, Goto(s, c, h'), u)
  {
    var s' := Goto(s, c, h');
    assert MainDrops(s', u) == MainDrops(s, u);
    assert OwnDrops(k, s', u) == OwnDrops(k, s, u);
  }

  lemma QuietTr(k: Config, tight: bool, s: State, c: Core, h': Handler, u: Page, tr: Tr)
    requires Typed(k, s) && c in s.cpu && QuietMove(c == k.snapCore, s.cpu[c], h') && TrOk(k, tight, s, u, tr)
    requires LockOk(k, s, u)
    ensures TrOk(k, tight, Goto(s, c, h'), u, tr)
  {}

  lemma QuietHandler(k: Config, tight: bool, s: State, c: Core, h': Handler, d: Core)
    requires c in s.cpu && d != c && MainHandlerOk(k, tight, s, d)
    ensures MainHandlerOk(k, tight, Goto(s, c, h'), d)
  {}

  lemma QuietOwn(k: Config, s: State, c: Core, h': Handler)
    requires c in s.cpu && k.snapCore != c && SnapHandlerOk(k, s)
    ensures SnapHandlerOk(k, Goto(s, c, h'))
  {}

  lemma QuietStep(k: Config, tight: bool, s: State, c: Core, h': Handler)
    requires Good(k, tight, s) && c in s.cpu && QuietMove(c == k.snapCore, s.cpu[c], h')
    requires c == k.snapCore ==> Live(s)
    requires if c == k.snapCore then SnapHandlerOk(k, Goto(s, c, h')) else MainHandlerOk(k, tight, Goto(s, c, h'), c)
    ensures Good(k, tight, Goto(s, c, h'))
  {
    var s' := Goto(s, c, h');
    Unseal(k, tight, s);
    forall u <- s.pg ensures PageOk(k, s', u) && LockOk(k, s', u) { QuietPage(k, s, c, h', u); }
    forall d <- s'.cpu | d != k.snapCore ensures MainHandlerOk(k, tight, s', d) {
      if d != c { QuietHandler(k, tight, s, c, h', d); }
    }
    if c != k.snapCore { QuietOwn(k, s, c, h'); }
    if Live(s) {
      forall u <- s.stlb ensures TrOk(k, tight, s', u, s.stlb[u]) { QuietTr(k, tight, s, c, h', u, s.stlb[u]); }
      if s.walk.Captured? { QuietTr(k, tight, s, c, h', s.walk.page, s.walk.tr); }
    }
    assert MainTlbOk(s');
    Seal(k, tight, s');
  }

  /** What the invariant says of one core and one page. */
  lemma LookAt(k: Config, tight: bool, s: State, c: Core, v: Page)
    requires Good(k, tight, s) && c in s.cpu && v in s.pg
    ensures Typed(k, s) && PageOk(k, s, v) && LockOk(k, s, v) && SnapHandlerOk(k, s)
    ensures c != k.snapCore ==> MainHandlerOk(k, tight, s, c)
  {
    Unseal(k, tight, s);
  }

  lemma FaultKeeps(k: Config, tight: bool, s: State, c: Core, v: Page)
    requires Good(k, tight, s) && CanFault(k, s, c, v)
    ensures Good(k, tight, DoFault(s, c, v))
  {
    var h' := (DoFault(s, c, v)).cpu[c];
    LookAt(k, tight, s, c, v);
    QuietStep(k, tight, s, c, h');
  }

  lemma ReadRootKeeps(k: Config, tight: bool, s: State, c: Core)
    requires Good(k, tight, s) && At(k, s, c, Enter)
    ensures Good(k, tight, DoReadRoot(s, c))
  {
    var h' := (DoReadRoot(s, c)).cpu[c];
    LookAt(k, tight, s, c, s.cpu[c].v);
    QuietStep(k, tight, s, c, h');
  }

  lemma LoadedHandler(k: Config, tight: bool, s: State, s': State, c: Core)
    requires At(k, s, c, Looked) && PageOk(k, s, s.cpu[c].v) && s' == DoLoadEntry(k, s, c)
    requires if c == k.snapCore then SnapHandlerOk(k, s) else MainHandlerOk(k, tight, s, c)
    ensures if c == k.snapCore then SnapHandlerOk(k, s') else MainHandlerOk(k, tight, s', c)
  {}

  lemma LoadEntryKeeps(k: Config, tight: bool, s: State, c: Core)
    requires Good(k, tight, s) && At(k, s, c, Looked)
    ensures Good(k, tight, DoLoadEntry(k, s, c))
  {
    LookAt(k, tight, s, c, s.cpu[c].v);
    LoadedHandler(k, tight, s, DoLoadEntry(k, s, c), c);
    QuietStep(k, tight, s, c, DoLoadEntry(k, s, c).cpu[c]);
  }

  lemma CheckRefKeeps(k: Config, tight: bool, s: State, c: Core)
    requires Good(k, tight, s) && CanDo(k, s, c, CheckRef)
    ensures Good(k, tight, DoCheckRef(k, s, c))
  {
    var h' := (DoCheckRef(k, s, c)).cpu[c];
    LookAt(k, tight, s, c, s.cpu[c].v);
    QuietStep(k, tight, s, c, h');
  }

  lemma SampleKeeps(k: Config, tight: bool, s: State, c: Core)
    requires Good(k, tight, s) && MainAt(k, s, c, Counted)
    ensures Good(k, tight, DoSample(s, c))
  {
    var h' := (DoSample(s, c)).cpu[c];
    LookAt(k, tight, s, c, s.cpu[c].v);
    QuietStep(k, tight, s, c, h');
  }

  lemma LoadSnapKeeps(k: Config, tight: bool, s: State, c: Core)
    requires Good(k, tight, s) && MainAt(k, s, c, Sampled)
    ensures Good(k, tight, DoLoadSnap(s, c))
  {
    var h' := (DoLoadSnap(s, c)).cpu[c];
    LookAt(k, tight, s, c, s.cpu[c].v);
    QuietStep(k, tight, s, c, h');
  }

  lemma ReloadKeeps(k: Config, tight: bool, s: State, c: Core)
    requires Good(k, tight, s) && MainAt(k, s, c, Overtaken)
    ensures Good(k, tight, DoReload(s, c))
  {
    var h' := (DoReload(s, c)).cpu[c];
    LookAt(k, tight, s, c, s.cpu[c].v);
    QuietStep(k, tight, s, c, h');
  }

  lemma MissEntryKeeps(k: Config, tight: bool, s: State, c: Core)
    requires Good(k, tight, s) && At(k, s, c, Seen)
    ensures Good(k, tight, DoMiss(s, c, Flushing))
  {
    var h' := (DoMiss(s, c, Flushing)).cpu[c];
    LookAt(k, tight, s, c, s.cpu[c].v);
    QuietStep(k, tight, s, c, h');
  }

  lemma MissSnapKeeps(k: Config, tight: bool, s: State, c: Core)
    requires Good(k, tight, s) && MainAt(k, s, c, SnapSeen)
    ensures Good(k, tight, DoMiss(s, c, Restoring))
  {
    var h' := (DoMiss(s, c, Restoring)).cpu[c];
    LookAt(k, tight, s, c, s.cpu[c].v);
    QuietStep(k, tight, s, c, h');
  }

  lemma MissPublishKeeps(k: Config, tight: bool, s: State, c: Core)
    requires Good(k, tight, s) && CanDo(k, s, c, MissPublish)
    ensures Good(k, tight, DoMiss(s, c, Overtaken))
  {
    var h' := (DoMiss(s, c, Overtaken)).cpu[c];
    LookAt(k, tight, s, c, s.cpu[c].v);
    QuietStep(k, tight, s, c, h');
  }

  // ---- What a step at one page leaves alone ----

  /** A step of core c, or of the hardware, that concerns page v only. */
  predicate Local(s: State, s': State, c: Core, v: Page) {
    && s'.pg.Keys == s.pg.Keys && s'.fr.Keys == s.fr.Keys && s'.cpu.Keys == s.cpu.Keys
    && (forall u <- s.pg :: u != v ==> s'.pg[u] == s.pg[u])
    && (forall d <- s.cpu :: d != c ==> s'.cpu[d] == s.cpu[d])
    && (c in s.cpu ==>
          s'.cpu[c] == s.cpu[c] || ((s.cpu[c].at.Idle? || s.cpu[c].v == v)
              && (s'.cpu[c].at.Idle? || s'.cpu[c].v == v)))
    && (forall f <- s.fr :: Foreign(s.fr[f].role, c, v) ==> s'.fr[f] == s.fr[f])
    && s'.phase == s.phase && s'.user == s.user && s.pend <= s'.pend
  }

  predicate Foreign(r: Role, c: Core, v: Page) {
    match r
    case Both(u) => u != v
    case MainOf(u) => u != v
    case SnapOf(u) => u != v
    case Fresh(d) => d != c
    case _ => false
  }

  lemma OtherPage(k: Config, tight: bool, s: State, s': State, c: Core, v: Page, u: Page)
    requires Inv(k, tight, s) && Local(s, s', c, v) && u in s.pg && u != v
    ensures PageOk(k, s', u)
  {
    assert PageOk(k, s, u) && LockOk(k, s, u);
    assert MainDrops(s', u) == MainDrops(s, u);
    assert OwnDrops(k, s', u) == OwnDrops(k, s, u);
  }

  lemma OtherLock(k: Config, tight: bool, s: State, s': State, c: Core, v: Page, u: Page)
    requires Inv(k, tight, s) && Local(s, s', c, v) && u in s.pg && u != v
    ensures LockOk(k, s', u)
  {
    assert LockOk(k, s, u);
  }

  lemma OtherTr(k: Config, tight: bool, s: State, s': State, c: Core, v: Page, u: Page, tr: Tr)
    requires Inv(k, tight, s) && Local(s, s', c, v) && u != v && TrOk(k, tight, s, u, tr)
    ensures TrOk(k, tight, s', u, tr)
  {
    assert LockOk(k, s, u);
  }

  lemma OtherHandler(k: Config, tight: bool, s: State, s': State, c: Core, v: Page, d: Core)
    requires Inv(k, tight, s) && Local(s, s', c, v) && d in s.cpu && d != c && d != k.snapCore
    requires s.cpu[d].v != v || !HoldsMain(s.cpu[d].at)
    ensures MainHandlerOk(k, tight, s', d)
  {
    assert MainHandlerOk(k, tight, s, d);
    if s.cpu[d].v in s.pg { assert PageOk(k, s, s.cpu[d].v); }
  }

  lemma OtherOwnHandler(k: Config, tight: bool, s: State, s': State, c: Core, v: Page)
    requires Inv(k, tight, s) && Local(s, s', c, v) && c != k.snapCore
    requires s.cpu[k.snapCore].v != v || !(HoldsOwn(s.cpu[k.snapCore].at) || s.cpu[k.snapCore].at.OwnDropping?)
    ensures SnapHandlerOk(k, s')
  {
    if s.cpu[k.snapCore].v in s.pg { assert PageOk(k, s, s.cpu[k.snapCore].v); }
  }

  lemma OtherPages(k: Config, tight: bool, s: State, s': State, c: Core, v: Page)
    requires Inv(k, tight, s) && Local(s, s', c, v) && PageOk(k, s', v) && LockOk(k, s', v)
    ensures PagesOk(k, s') && LocksOk(k, s')
  {
    forall u <- s'.pg ensures PageOk(k, s', u) && LockOk(k, s', u) {
      if u != v { OtherPage(k, tight, s, s', c, v, u); OtherLock(k, tight, s, s', c, v, u); }
    }
  }

  lemma OtherHandlers(k: Config, tight: bool, s: State, s': State, c: Core, v: Page)
    requires Inv(k, tight, s) && Local(s, s', c, v) && c in s.cpu && v in s.pg
    requires c != k.snapCore ==> MainHandlerOk(k, tight, s', c)
    requires s.pg[v].mowner.By? ==> MainHandlerOk(k, tight, s', s.pg[v].mowner.core)
    requires s.cpu[k.snapCore].v == v || c == k.snapCore ==> SnapHandlerOk(k, s')
    ensures SnapHandlerOk(k, s') && HandlersOk(k, tight, s')
  {
    forall d <- s'.cpu | d != k.snapCore ensures MainHandlerOk(k, tight, s', d) {
      assert MainHandlerOk(k, tight, s, d);
      if d != c && !(s.cpu[d].v == v && HoldsMain(s.cpu[d].at)) { OtherHandler(k, tight, s, s', c, v, d); }
    }
    if c != k.snapCore && s.cpu[k.snapCore].v != v { OtherOwnHandler(k, tight, s, s', c, v); }
  }

  lemma OtherTrs(k: Config, tight: bool, s: State, s': State, c: Core, v: Page)
    requires Inv(k, tight, s) && Local(s, s', c, v) && Live(s) && LocksOk(k, s')
    requires v in s'.stlb ==> TrOk(k, tight, s', v, s'.stlb[v])
    requires s'.walk.Captured? && s'.walk.page == v ==> WalkOk(k, tight, s')
    requires forall u <- s'.stlb :: (u in s.stlb && s'.stlb[u] == s.stlb[u]) || u == v
    requires s'.walk == s.walk || s'.walk.NoWalk? || s'.walk.page == v
    ensures SnapTlbOk(k, tight, s') && WalkOk(k, tight, s')
  {
    forall u <- s'.stlb ensures TrOk(k, tight, s', u, s'.stlb[u]) {
      if u != v { OtherTr(k, tight, s, s', c, v, u, s.stlb[u]); }
    }
    if s'.walk.Captured? && s'.walk.page != v { OtherTr(k, tight, s, s', c, v, s.walk.page, s.walk.tr); }
  }

  lemma OtherMainTrs(s: State, s': State, c: Core, v: Page)
    requires MainTlbOk(s) && Local(s, s', c, v) && v in s.pg
    requires s'.pg[v].main.frame == s.pg[v].main.frame && (s.pg[v].main.w ==> s'.pg[v].main.w)
    requires forall e <- s'.mtlb :: (e in s.mtlb && s'.mtlb[e] == s.mtlb[e]) || MainTrOk(s', e.1, s'.mtlb[e])
    ensures MainTlbOk(s')
  {
    forall e <- s'.mtlb ensures MainTrOk(s', e.1, s'.mtlb[e]) {
      if e in s.mtlb && s'.mtlb[e] == s.mtlb[e] { assert MainTrOk(s, e.1, s.mtlb[e]); }
    }
  }

  // ---- The invariant, seen from one page ----

  predicate HandlersHere(k: Config, tight: bool, s: State, c: Core, v: Page) {
    && c in s.cpu && k.snapCore in s.cpu && v in s.pg
    && (c != k.snapCore ==> MainHandlerOk(k, tight, s, c))
    && (s.pg[v].mowner.By? ==> MainHandlerOk(k, tight, s, s.pg[v].mowner.core))
    && (s.cpu[k.snapCore].v == v || c == k.snapCore ==> SnapHandlerOk(k, s))
  }

  predicate TlbHere(k: Config, tight: bool, s: State, v: Page) {
    Live(s) ==>
      && (v in s.stlb ==> TrOk(k, tight, s, v, s.stlb[v]))
      && (s.walk.Captured? && s.walk.page == v ==> WalkOk(k, tight, s))
  }

  /** Everything the invariant says about page v, about core c if it is at v, and
      about the cores that hold v. */
  predicate Here(k: Config, tight: bool, s: State, c: Core, v: Page) {
    Typed(k, s) && PageOk(k, s, v) && LockOk(k, s, v) && HandlersHere(k, tight, s, c, v) && TlbHere(k, tight, s, v)
  }

  lemma Look(k: Config, tight: bool, s: State, c: Core, v: Page)
    requires Good(k, tight, s) && c in s.cpu && v in s.pg
    ensures Here(k, tight, s, c, v) && Sized(s)
  {
    Unseal(k, tight, s);
  }

  lemma LookTr(k: Config, tight: bool, s: State, c: Core, v: Page)
    requires Good(k, tight, s) && (c, v) in s.mtlb
    ensures MainTrOk(s, v, s.mtlb[(c, v)])
  {
    Unseal(k, tight, s);
    assert MainTrOk(s, (c, v).1, s.mtlb[(c, v)]);
  }

  /** A step that concerns page v only keeps the invariant if it keeps it there. */
  lemma Assemble(k: Config, tight: bool, s: State, s': State, c: Core, v: Page)
    requires Good(k, tight, s) && Local(s, s', c, v) && Sized(s') && Here(k, tight, s', c, v) && c in s.cpu
    requires v in s.pg
    requires s'.pg[v].main.frame == s.pg[v].main.frame && (s.pg[v].main.w ==> s'.pg[v].main.w)
    requires s.pg[v].mowner.By? ==> MainHandlerOk(k, tight, s', s.pg[v].mowner.core)
    requires forall e <- s'.mtlb :: (e in s.mtlb && s'.mtlb[e] == s.mtlb[e]) || MainTrOk(s', e.1, s'.mtlb[e])
    requires forall u <- s'.stlb :: (u in s.stlb && s'.stlb[u] == s.stlb[u]) || u == v
    requires s'.walk == s.walk || s'.walk.NoWalk? || s'.walk.page == v
    requires s'.cpu[k.snapCore].v == s.cpu[k.snapCore].v
    ensures Good(k, tight, s')
  {
    Unseal(k, tight, s);
    OtherPages(k, tight, s, s', c, v);
    OtherHandlers(k, tight, s, s', c, v);
    if Live(s) { OtherTrs(k, tight, s, s', c, v); }
    OtherMainTrs(s, s', c, v);
    Seal(k, tight, s');
  }

  // ---- Steps that change a page, a frame or a translation ----

  lemma SplitLocal(k: Config, s: State, s': State, c: Core, h': Handler, e: Pte)
    requires CanSplit(s, c) && s' == Split(Goto(s, c, h'), s.cpu[c], e) && h'.v == s.cpu[c].v && Sized(s)
    requires s.fr[s.cpu[c].was.frame].role == Both(s.cpu[c].v) && s.fr[s.cpu[c].copy].role == Fresh(c)
    ensures Local(s, s', c, s.cpu[c].v) && Sized(s')
  {}

  lemma LockMainPage(k: Config, tight: bool, s: State, s': State, c: Core)
    requires MainAt(k, s, c, Seen) && HitsOwn(k, s, c) && Here(k, tight, s, c, s.cpu[c].v)
    requires s' == DoLockEntry(k, s, c)
    ensures Typed(k, s') && PageOk(k, s', s.cpu[c].v) && LockOk(k, s', s.cpu[c].v)
    ensures TlbHere(k, tight, s', s.cpu[c].v)
  {}

  lemma LockMainCores(k: Config, tight: bool, s: State, s': State, c: Core)
    requires MainAt(k, s, c, Seen) && HitsOwn(k, s, c) && Here(k, tight, s, c, s.cpu[c].v)
    requires s' == DoLockEntry(k, s, c)
    ensures HandlersHere(k, tight, s', c, s.cpu[c].v)
    ensures s.pg[s.cpu[c].v].mowner.By? ==> MainHandlerOk(k, tight, s', s.pg[s.cpu[c].v].mowner.core)
  {}

  lemma LockMainKeeps(k: Config, tight: bool, s: State, s': State, c: Core)
    requires Good(k, tight, s) && MainAt(k, s, c, Seen) && HitsOwn(k, s, c) && s' == DoLockEntry(k, s, c)
    ensures Good(k, tight, s')
  {
    Look(k, tight, s, c, s.cpu[c].v);
    LockMainPage(k, tight, s, s', c);
    LockMainCores(k, tight, s, s', c);
    Assemble(k, tight, s, s', c, s.cpu[c].v);
  }

  lemma LockOwnPage(k: Config, tight: bool, s: State, s': State, c: Core)
    requires c == k.snapCore && At(k, s, c, Seen) && HitsOwn(k, s, c) && Here(k, tight, s, c, s.cpu[c].v)
    requires s' == DoLockEntry(k, s, c)
    ensures Typed(k, s') && PageOk(k, s', s.cpu[c].v) && LockOk(k, s', s.cpu[c].v)
    ensures TlbHere(k, tight, s', s.cpu[c].v)
  {}

  lemma LockOwnCores(k: Config, tight: bool, s: State, s': State, c: Core)
    requires c == k.snapCore && At(k, s, c, Seen) && HitsOwn(k, s, c) && Here(k, tight, s, c, s.cpu[c].v)
    requires s' == DoLockEntry(k, s, c)
    ensures HandlersHere(k, tight, s', c, s.cpu[c].v)
    ensures s.pg[s.cpu[c].v].mowner.By? ==> MainHandlerOk(k, tight, s', s.pg[s.cpu[c].v].mowner.core)
  {}

  lemma LockOwnKeeps(k: Config, tight: bool, s: State, s': State, c: Core)
    requires Good(k, tight, s) && c == k.snapCore && At(k, s, c, Seen) && HitsOwn(k, s, c)
    requires s' == DoLockEntry(k, s, c)
    ensures Good(k, tight, s')
  {
    Look(k, tight, s, c, s.cpu[c].v);
    LockOwnPage(k, tight, s, s', c);
    LockOwnCores(k, tight, s, s', c);
    Assemble(k, tight, s, s', c, s.cpu[c].v);
  }

  lemma LockSnapPage(k: Config, tight: bool, s: State, s': State, c: Core)
    requires MainAt(k, s, c, SnapSeen) && !s.cpu[c].snap.lock && HitsSnap(s, c) && Here(k, tight, s, c, s.cpu[c].v)
    requires s' == DoLockSnap(s, c)
    ensures Typed(k, s') && PageOk(k, s', s.cpu[c].v) && LockOk(k, s', s.cpu[c].v)
    ensures TlbHere(k, tight, s', s.cpu[c].v)
  {}

  lemma LockSnapCores(k: Config, tight: bool, s: State, s': State, c: Core)
    requires MainAt(k, s, c, SnapSeen) && !s.cpu[c].snap.lock && HitsSnap(s, c) && Here(k, tight, s, c, s.cpu[c].v)
    requires s' == DoLockSnap(s, c)
    ensures HandlersHere(k, tight, s', c, s.cpu[c].v)
    ensures s.pg[s.cpu[c].v].mowner.By? ==> MainHandlerOk(k, tight, s', s.pg[s.cpu[c].v].mowner.core)
  {}

  lemma LockSnapKeeps(k: Config, tight: bool, s: State, s': State, c: Core)
    requires Good(k, tight, s) && MainAt(k, s, c, SnapSeen) && !s.cpu[c].snap.lock && HitsSnap(s, c)
    requires s' == DoLockSnap(s, c)
    ensures Good(k, tight, s')
  {
    Look(k, tight, s, c, s.cpu[c].v);
    LockSnapPage(k, tight, s, s', c);
    LockSnapCores(k, tight, s, s', c);
    Assemble(k, tight, s, s', c, s.cpu[c].v);
  }

  lemma RestorePage(k: Config, tight: bool, s: State, s': State, c: Core)
    requires MainAt(k, s, c, Restoring) && Here(k, tight, s, c, s.cpu[c].v) && s' == DoRestore(s, c)
    ensures Typed(k, s') && PageOk(k, s', s.cpu[c].v) && LockOk(k, s', s.cpu[c].v)
    ensures TlbHere(k, tight, s', s.cpu[c].v)
  {}

  lemma RestoreCores(k: Config, tight: bool, s: State, s': State, c: Core)
    requires MainAt(k, s, c, Restoring) && Here(k, tight, s, c, s.cpu[c].v) && s' == DoRestore(s, c)
    ensures HandlersHere(k, tight, s', c, s.cpu[c].v)
    ensures s.pg[s.cpu[c].v].mowner.By? ==> MainHandlerOk(k, tight, s', s.pg[s.cpu[c].v].mowner.core)
  {}

  lemma RestoreKeeps(k: Config, tight: bool, s: State, s': State, c: Core)
    requires Good(k, tight, s) && MainAt(k, s, c, Restoring) && s' == DoRestore(s, c)
    ensures Good(k, tight, s')
  {
    Look(k, tight, s, c, s.cpu[c].v);
    RestorePage(k, tight, s, s', c);
    RestoreCores(k, tight, s, s', c);
    Assemble(k, tight, s, s', c, s.cpu[c].v);
  }

  lemma ReleaseSnapPage(k: Config, tight: bool, s: State, s': State, c: Core)
    requires CanReleaseSnap(k, s, c) && Here(k, tight, s, c, s.cpu[c].v) && s' == DoReleaseSnap(s, c)
    ensures Typed(k, s') && PageOk(k, s', s.cpu[c].v) && LockOk(k, s', s.cpu[c].v)
  {}

  lemma ReleaseSnapTlb(k: Config, tight: bool, s: State, s': State, c: Core)
    requires CanReleaseSnap(k, s, c) && Here(k, tight, s, c, s.cpu[c].v) && s' == DoReleaseSnap(s, c)
    ensures TlbHere(k, tight, s', s.cpu[c].v)
  {}

  lemma ReleaseSnapMain(k: Config, tight: bool, s: State, s': State, c: Core)
    requires CanReleaseSnap(k, s, c) && Here(k, tight, s, c, s.cpu[c].v) && s' == DoReleaseSnap(s, c)
    ensures MainHandlerOk(k, tight, s', c)
  {}

  lemma ReleaseSnapOwn(k: Config, tight: bool, s: State, s': State, c: Core)
    requires CanReleaseSnap(k, s, c) && Here(k, tight, s, c, s.cpu[c].v) && s' == DoReleaseSnap(s, c)
    ensures s.cpu[k.snapCore].v == s.cpu[c].v ==> SnapHandlerOk(k, s')
  {}

  lemma ReleaseSnapCores(k: Config, tight: bool, s: State, s': State, c: Core)
    requires CanReleaseSnap(k, s, c) && Here(k, tight, s, c, s.cpu[c].v) && s' == DoReleaseSnap(s, c)
    ensures HandlersHere(k, tight, s', c, s.cpu[c].v)
    ensures s.pg[s.cpu[c].v].mowner.By? ==> MainHandlerOk(k, tight, s', s.pg[s.cpu[c].v].mowner.core)
  {
    ReleaseSnapMain(k, tight, s, s', c);
    ReleaseSnapOwn(k, tight, s, s', c);
  }

  lemma ReleaseSnapLocal(k: Config, s: State, s': State, c: Core)
    requires CanReleaseSnap(k, s, c) && s' == DoReleaseSnap(s, c) && Sized(s)
    ensures Local(s, s', c, s.cpu[c].v) && Sized(s')
  {}

  lemma ReleaseSnapKeeps(k: Config, tight: bool, s: State, s': State, c: Core)
    requires Good(k, tight, s) && CanReleaseSnap(k, s, c) && s' == DoReleaseSnap(s, c)
    ensures Good(k, tight, s')
  {
    Look(k, tight, s, c, s.cpu[c].v);
    ReleaseSnapLocal(k, s, s', c);
    ReleaseSnapPage(k, tight, s, s', c);
    ReleaseSnapTlb(k, tight, s, s', c);
    ReleaseSnapCores(k, tight, s, s', c);
    Assemble(k, tight, s, s', c, s.cpu[c].v);
  }

  lemma AllocMainPage(k: Config, tight: bool, s: State, s': State, c: Core, f: Frame)
    requires c != k.snapCore && CanAlloc(k, s, c, f) && Here(k, tight, s, c, s.cpu[c].v) && s' == DoAlloc(k, s, c, f)
    requires Sized(s)
    ensures Typed(k, s') && PageOk(k, s', s.cpu[c].v) && LockOk(k, s', s.cpu[c].v)
    ensures TlbHere(k, tight, s', s.cpu[c].v)
  {}

  lemma AllocMainCores(k: Config, tight: bool, s: State, s': State, c: Core, f: Frame)
    requires c != k.snapCore && CanAlloc(k, s, c, f) && Here(k, tight, s, c, s.cpu[c].v) && s' == DoAlloc(k, s, c, f)
    requires Sized(s)
    ensures HandlersHere(k, tight, s', c, s.cpu[c].v)
    ensures s.pg[s.cpu[c].v].mowner.By? ==> MainHandlerOk(k, tight, s', s.pg[s.cpu[c].v].mowner.core)
  {}

  lemma AllocMainKeeps(k: Config, tight: bool, s: State, s': State, c: Core, f: Frame)
    requires Good(k, tight, s) && c != k.snapCore && CanAlloc(k, s, c, f) && s' == DoAlloc(k, s, c, f)
    ensures Good(k, tight, s')
  {
    Look(k, tight, s, c, s.cpu[c].v);
    AllocMainPage(k, tight, s, s', c, f);
    AllocMainCores(k, tight, s, s', c, f);
    Assemble(k, tight, s, s', c, s.cpu[c].v);
  }

  lemma AllocOwnPage(k: Config, tight: bool, s: State, s': State, c: Core, f: Frame)
    requires c == k.snapCore && CanAlloc(k, s, c, f) && Here(k, tight, s, c, s.cpu[c].v) && s' == DoAlloc(k, s, c, f)
    requires Sized(s)
    ensures Typed(k, s') && PageOk(k, s', s.cpu[c].v) && LockOk(k, s', s.cpu[c].v)
    ensures TlbHere(k, tight, s', s.cpu[c].v)
  {}

  lemma AllocOwnCores(k: Config, tight: bool, s: State, s': State, c: Core, f: Frame)
    requires c == k.snapCore && CanAlloc(k, s, c, f) && Here(k, tight, s, c, s.cpu[c].v) && s' == DoAlloc(k, s, c, f)
    requires Sized(s)
    ensures HandlersHere(k, tight, s', c, s.cpu[c].v)
    ensures s.pg[s.cpu[c].v].mowner.By? ==> MainHandlerOk(k, tight, s', s.pg[s.cpu[c].v].mowner.core)
  {}

  lemma AllocOwnKeeps(k: Config, tight: bool, s: State, s': State, c: Core, f: Frame)
    requires Good(k, tight, s) && c == k.snapCore && CanAlloc(k, s, c, f) && s' == DoAlloc(k, s, c, f)
    ensures Good(k, tight, s')
  {
    Look(k, tight, s, c, s.cpu[c].v);
    AllocOwnPage(k, tight, s, s', c, f);
    AllocOwnCores(k, tight, s, s', c, f);
    Assemble(k, tight, s, s', c, s.cpu[c].v);
  }

  lemma CopyMainPage(k: Config, tight: bool, s: State, s': State, c: Core, f: Frame)
    requires c != k.snapCore && CanCopyByte(k, s, c, f) && Here(k, tight, s, c, s.cpu[c].v)
    requires s' == DoCopyByte(k, s, c, f) && MainTrOk(s, s.cpu[c].v, s.mtlb[(c, s.cpu[c].v)])
    ensures Typed(k, s') && PageOk(k, s', s.cpu[c].v) && LockOk(k, s', s.cpu[c].v)
    ensures TlbHere(k, tight, s', s.cpu[c].v)
  {}

  lemma CopyMainCores(k: Config, tight: bool, s: State, s': State, c: Core, f: Frame)
    requires c != k.snapCore && CanCopyByte(k, s, c, f) && Here(k, tight, s, c, s.cpu[c].v)
    requires s' == DoCopyByte(k, s, c, f) && MainTrOk(s, s.cpu[c].v, s.mtlb[(c, s.cpu[c].v)])
    ensures HandlersHere(k, tight, s', c, s.cpu[c].v)
    ensures s.pg[s.cpu[c].v].mowner.By? ==> MainHandlerOk(k, tight, s', s.pg[s.cpu[c].v].mowner.core)
  {}

  lemma CopyLocal(k: Config, s: State, s': State, c: Core, f: Frame)
    requires CanCopyByte(k, s, c, f) && s' == DoCopyByte(k, s, c, f) && Sized(s)
    requires s.fr[s.cpu[c].copy].role == Fresh(c)
    ensures Local(s, s', c, s.cpu[c].v) && Sized(s')
  {}

  lemma CopyMainKeeps(k: Config, tight: bool, s: State, s': State, c: Core, f: Frame)
    requires Good(k, tight, s) && c != k.snapCore && CanCopyByte(k, s, c, f) && s' == DoCopyByte(k, s, c, f)
    ensures Good(k, tight, s')
  {
    Look(k, tight, s, c, s.cpu[c].v);
    CopyLocal(k, s, s', c, f);
    LookTr(k, tight, s, c, s.cpu[c].v);
    CopyMainPage(k, tight, s, s', c, f);
    CopyMainCores(k, tight, s, s', c, f);
    Assemble(k, tight, s, s', c, s.cpu[c].v);
  }

  lemma CopyOwnPage(k: Config, tight: bool, s: State, s': State, c: Core, f: Frame)
    requires c == k.snapCore && CanCopyByte(k, s, c, f) && Here(k, tight, s, c, s.cpu[c].v)
    requires s' == DoCopyByte(k, s, c, f)
    ensures Typed(k, s') && PageOk(k, s', s.cpu[c].v) && LockOk(k, s', s.cpu[c].v)
    ensures TlbHere(k, tight, s', s.cpu[c].v)
  {}

  lemma CopyOwnCores(k: Config, tight: bool, s: State, s': State, c: Core, f: Frame)
    requires c == k.snapCore && CanCopyByte(k, s, c, f) && Here(k, tight, s, c, s.cpu[c].v)
    requires s' == DoCopyByte(k, s, c, f)
    ensures HandlersHere(k, tight, s', c, s.cpu[c].v)
    ensures s.pg[s.cpu[c].v].mowner.By? ==> MainHandlerOk(k, tight, s', s.pg[s.cpu[c].v].mowner.core)
  {}

  lemma CopyOwnKeeps(k: Config, tight: bool, s: State, s': State, c: Core, f: Frame)
    requires Good(k, tight, s) && c == k.snapCore && CanCopyByte(k, s, c, f) && s' == DoCopyByte(k, s, c, f)
    ensures Good(k, tight, s')
  {
    Look(k, tight, s, c, s.cpu[c].v);
    CopyOwnPage(k, tight, s, s', c, f);
    CopyOwnCores(k, tight, s, s', c, f);
    Assemble(k, tight, s, s', c, s.cpu[c].v);
  }

  lemma PublishPage(k: Config, tight: bool, s: State, s': State, c: Core)
    requires CanPublish(k, s, c) && Here(k, tight, s, c, s.cpu[c].v) && s' == DoPublish(s, c)
    ensures Typed(k, s') && PageOk(k, s', s.cpu[c].v) && LockOk(k, s', s.cpu[c].v)
  {}

  lemma PublishTlb(k: Config, tight: bool, s: State, s': State, c: Core)
    requires CanPublish(k, s, c) && Here(k, tight, s, c, s.cpu[c].v) && s' == DoPublish(s, c)
    ensures TlbHere(k, tight, s', s.cpu[c].v)
  {}

  lemma PublishMain(k: Config, tight: bool, s: State, s': State, c: Core)
    requires CanPublish(k, s, c) && Here(k, tight, s, c, s.cpu[c].v) && s' == DoPublish(s, c)
    ensures MainHandlerOk(k, tight, s', c)
  {}

  lemma PublishOwn(k: Config, tight: bool, s: State, s': State, c: Core)
    requires CanPublish(k, s, c) && Here(k, tight, s, c, s.cpu[c].v) && s' == DoPublish(s, c)
    ensures s.cpu[k.snapCore].v == s.cpu[c].v ==> SnapHandlerOk(k, s')
  {}

  lemma PublishCores(k: Config, tight: bool, s: State, s': State, c: Core)
    requires CanPublish(k, s, c) && Here(k, tight, s, c, s.cpu[c].v) && s' == DoPublish(s, c)
    ensures HandlersHere(k, tight, s', c, s.cpu[c].v)
    ensures s.pg[s.cpu[c].v].mowner.By? ==> MainHandlerOk(k, tight, s', s.pg[s.cpu[c].v].mowner.core)
  {
    PublishMain(k, tight, s, s', c);
    PublishOwn(k, tight, s, s', c);
  }

  lemma PublishKeeps(k: Config, tight: bool, s: State, s': State, c: Core)
    requires Good(k, tight, s) && CanPublish(k, s, c) && s' == DoPublish(s, c)
    ensures Good(k, tight, s')
  {
    Look(k, tight, s, c, s.cpu[c].v);
    SplitLocal(k, s, s', c, s.cpu[c].(at := Published, need := s.cpu[c].snap.a),
        Redirected(s.cpu[c].snap, s.cpu[c].copy));
    PublishPage(k, tight, s, s', c);
    PublishTlb(k, tight, s, s', c);
    PublishCores(k, tight, s, s', c);
    Assemble(k, tight, s, s', c, s.cpu[c].v);
  }

  lemma OverwritePage(k: Config, tight: bool, s: State, s': State, c: Core)
    requires CanOverwrite(k, s, c) && Here(k, tight, s, c, s.cpu[c].v) && s' == DoOverwrite(s, c)
    ensures Typed(k, s') && PageOk(k, s', s.cpu[c].v) && LockOk(k, s', s.cpu[c].v)
  {}

  lemma OverwriteTlb(k: Config, tight: bool, s: State, s': State, c: Core)
    requires CanOverwrite(k, s, c) && Here(k, tight, s, c, s.cpu[c].v) && s' == DoOverwrite(s, c)
    ensures TlbHere(k, tight, s', s.cpu[c].v)
  {}

  lemma OverwriteMain(k: Config, tight: bool, s: State, s': State, c: Core)
    requires CanOverwrite(k, s, c) && Here(k, tight, s, c, s.cpu[c].v) && s' == DoOverwrite(s, c)
    ensures MainHandlerOk(k, tight, s', c)
  {}

  lemma OverwriteOwn(k: Config, tight: bool, s: State, s': State, c: Core)
    requires CanOverwrite(k, s, c) && Here(k, tight, s, c, s.cpu[c].v) && s' == DoOverwrite(s, c)
    ensures s.cpu[k.snapCore].v == s.cpu[c].v ==> SnapHandlerOk(k, s')
  {}

  lemma OverwriteCores(k: Config, tight: bool, s: State, s': State, c: Core)
    requires CanOverwrite(k, s, c) && Here(k, tight, s, c, s.cpu[c].v) && s' == DoOverwrite(s, c)
    ensures HandlersHere(k, tight, s', c, s.cpu[c].v)
    ensures s.pg[s.cpu[c].v].mowner.By? ==> MainHandlerOk(k, tight, s', s.pg[s.cpu[c].v].mowner.core)
  {
    OverwriteMain(k, tight, s, s', c);
    OverwriteOwn(k, tight, s, s', c);
  }

  lemma OverwriteKeeps(k: Config, tight: bool, s: State, s': State, c: Core)
    requires Good(k, tight, s) && CanOverwrite(k, s, c) && s' == DoOverwrite(s, c)
    ensures Good(k, tight, s')
  {
    Look(k, tight, s, c, s.cpu[c].v);
    SplitLocal(k, s, s', c, s.cpu[c].(at := Published, need := true), Redirected(s.cpu[c].snap, s.cpu[c].copy));
    OverwritePage(k, tight, s, s', c);
    OverwriteTlb(k, tight, s, s', c);
    OverwriteCores(k, tight, s, s', c);
    Assemble(k, tight, s, s', c, s.cpu[c].v);
  }

  lemma OwnStorePage(k: Config, tight: bool, s: State, s': State, c: Core)
    requires CanOwnStore(k, s, c) && Here(k, tight, s, c, s.cpu[c].v) && s' == DoOwnStore(s, c)
    ensures Typed(k, s') && PageOk(k, s', s.cpu[c].v) && LockOk(k, s', s.cpu[c].v)
  {}

  lemma OwnStoreTlb(k: Config, tight: bool, s: State, s': State, c: Core)
    requires CanOwnStore(k, s, c) && Here(k, tight, s, c, s.cpu[c].v) && s' == DoOwnStore(s, c)
    ensures TlbHere(k, tight, s', s.cpu[c].v)
  {}

  lemma OwnStoreCores(k: Config, tight: bool, s: State, s': State, c: Core)
    requires CanOwnStore(k, s, c) && Here(k, tight, s, c, s.cpu[c].v) && s' == DoOwnStore(s, c)
    ensures HandlersHere(k, tight, s', c, s.cpu[c].v)
    ensures s.pg[s.cpu[c].v].mowner.By? ==> MainHandlerOk(k, tight, s', s.pg[s.cpu[c].v].mowner.core)
  {}

  lemma OwnStoreKeeps(k: Config, tight: bool, s: State, s': State, c: Core)
    requires Good(k, tight, s) && CanOwnStore(k, s, c) && s' == DoOwnStore(s, c)
    ensures Good(k, tight, s')
  {
    Look(k, tight, s, c, s.cpu[c].v);
    SplitLocal(k, s, s', c, s.cpu[c].(at := OwnDropping), Opened(s.cpu[c].was).(frame := s.cpu[c].copy));
    OwnStorePage(k, tight, s, s', c);
    OwnStoreTlb(k, tight, s, s', c);
    OwnStoreCores(k, tight, s, s', c);
    Assemble(k, tight, s, s', c, s.cpu[c].v);
  }

  lemma ShootdownReturnPage(k: Config, tight: bool, s: State, s': State, c: Core, ahead: bool)
    requires CanShootdownReturn(k, s, c) && Here(k, tight, s, c, s.cpu[c].v) && s' == DoShootdownReturn(s, c, ahead)
    requires tight ==> !LateReturn(k, s, Do(c, ShootdownReturn(ahead)))
    ensures Typed(k, s') && PageOk(k, s', s.cpu[c].v) && LockOk(k, s', s.cpu[c].v)
    ensures TlbHere(k, tight, s', s.cpu[c].v)
  {}

  lemma ShootdownReturnCores(k: Config, tight: bool, s: State, s': State, c: Core, ahead: bool)
    requires CanShootdownReturn(k, s, c) && Here(k, tight, s, c, s.cpu[c].v) && s' == DoShootdownReturn(s, c, ahead)
    requires tight ==> !LateReturn(k, s, Do(c, ShootdownReturn(ahead)))
    ensures HandlersHere(k, tight, s', c, s.cpu[c].v)
    ensures s.pg[s.cpu[c].v].mowner.By? ==> MainHandlerOk(k, tight, s', s.pg[s.cpu[c].v].mowner.core)
  {}

  lemma ShootdownReturnKeeps(k: Config, tight: bool, s: State, s': State, c: Core, ahead: bool)
    requires Good(k, tight, s) && CanShootdownReturn(k, s, c) && s' == DoShootdownReturn(s, c, ahead)
    requires tight ==> !LateReturn(k, s, Do(c, ShootdownReturn(ahead)))
    ensures Good(k, tight, s')
  {
    Look(k, tight, s, c, s.cpu[c].v);
    ShootdownReturnPage(k, tight, s, s', c, ahead);
    ShootdownReturnCores(k, tight, s, s', c, ahead);
    Assemble(k, tight, s, s', c, s.cpu[c].v);
  }

  lemma DropRefPage(k: Config, tight: bool, s: State, s': State, c: Core)
    requires CanDropRef(k, s, c) && Here(k, tight, s, c, s.cpu[c].v) && s' == DoDropRef(k, s, c)
    ensures Typed(k, s') && PageOk(k, s', s.cpu[c].v) && LockOk(k, s', s.cpu[c].v)
    ensures TlbHere(k, tight, s', s.cpu[c].v)
  {}

  lemma DropRefCores(k: Config, tight: bool, s: State, s': State, c: Core)
    requires CanDropRef(k, s, c) && Here(k, tight, s, c, s.cpu[c].v) && s' == DoDropRef(k, s, c)
    ensures HandlersHere(k, tight, s', c, s.cpu[c].v)
    ensures s.pg[s.cpu[c].v].mowner.By? ==> MainHandlerOk(k, tight, s', s.pg[s.cpu[c].v].mowner.core)
  {}

  lemma DropRefLocal(k: Config, s: State, s': State, c: Core)
    requires CanDropRef(k, s, c) && s' == DoDropRef(k, s, c) && Sized(s)
    requires s.fr[s.cpu[c].was.frame].role == MainOf(s.cpu[c].v)
    ensures Local(s, s', c, s.cpu[c].v) && Sized(s')
  {}

  lemma DropRefKeeps(k: Config, tight: bool, s: State, s': State, c: Core)
    requires Good(k, tight, s) && CanDropRef(k, s, c) && s' == DoDropRef(k, s, c)
    ensures Good(k, tight, s')
  {
    Look(k, tight, s, c, s.cpu[c].v);
    DropRefLocal(k, s, s', c);
    DropRefPage(k, tight, s, s', c);
    DropRefCores(k, tight, s, s', c);
    Assemble(k, tight, s, s', c, s.cpu[c].v);
  }

  lemma OwnDropPage(k: Config, tight: bool, s: State, s': State, c: Core)
    requires CanOwnDrop(k, s, c) && Here(k, tight, s, c, s.cpu[c].v) && s' == DoOwnDrop(k, s, c)
    ensures Typed(k, s') && PageOk(k, s', s.cpu[c].v) && LockOk(k, s', s.cpu[c].v)
    ensures TlbHere(k, tight, s', s.cpu[c].v)
  {}

  lemma OwnDropCores(k: Config, tight: bool, s: State, s': State, c: Core)
    requires CanOwnDrop(k, s, c) && Here(k, tight, s, c, s.cpu[c].v) && s' == DoOwnDrop(k, s, c)
    ensures HandlersHere(k, tight, s', c, s.cpu[c].v)
    ensures s.pg[s.cpu[c].v].mowner.By? ==> MainHandlerOk(k, tight, s', s.pg[s.cpu[c].v].mowner.core)
  {}

  lemma OwnDropKeeps(k: Config, tight: bool, s: State, s': State, c: Core)
    requires Good(k, tight, s) && CanOwnDrop(k, s, c) && s' == DoOwnDrop(k, s, c)
    ensures Good(k, tight, s')
  {
    Look(k, tight, s, c, s.cpu[c].v);
    OwnDropPage(k, tight, s, s', c);
    OwnDropCores(k, tight, s, s', c);
    Assemble(k, tight, s, s', c, s.cpu[c].v);
  }

  lemma OpenMainPage(k: Config, tight: bool, s: State, s': State, c: Core)
    requires MainAt(k, s, c, Opening) && Here(k, tight, s, c, s.cpu[c].v) && s' == DoOpen(k, s, c)
    ensures Typed(k, s') && PageOk(k, s', s.cpu[c].v) && LockOk(k, s', s.cpu[c].v)
    ensures TlbHere(k, tight, s', s.cpu[c].v)
  {}

  lemma OpenMainCores(k: Config, tight: bool, s: State, s': State, c: Core)
    requires MainAt(k, s, c, Opening) && Here(k, tight, s, c, s.cpu[c].v) && s' == DoOpen(k, s, c)
    ensures HandlersHere(k, tight, s', c, s.cpu[c].v)
    ensures s.pg[s.cpu[c].v].mowner.By? ==> MainHandlerOk(k, tight, s', s.pg[s.cpu[c].v].mowner.core)
  {}

  lemma OpenMainKeeps(k: Config, tight: bool, s: State, s': State, c: Core)
    requires Good(k, tight, s) && MainAt(k, s, c, Opening) && s' == DoOpen(k, s, c)
    ensures Good(k, tight, s')
  {
    Look(k, tight, s, c, s.cpu[c].v);
    OpenMainPage(k, tight, s, s', c);
    OpenMainCores(k, tight, s, s', c);
    Assemble(k, tight, s, s', c, s.cpu[c].v);
  }

  lemma FlushLocalPage(k: Config, tight: bool, s: State, s': State, c: Core)
    requires MainAt(k, s, c, Flushing) && Here(k, tight, s, c, s.cpu[c].v) && s' == DoFlushLocal(s, c)
    ensures Typed(k, s') && PageOk(k, s', s.cpu[c].v) && LockOk(k, s', s.cpu[c].v)
    ensures TlbHere(k, tight, s', s.cpu[c].v)
  {}

  lemma FlushLocalCores(k: Config, tight: bool, s: State, s': State, c: Core)
    requires MainAt(k, s, c, Flushing) && Here(k, tight, s, c, s.cpu[c].v) && s' == DoFlushLocal(s, c)
    ensures HandlersHere(k, tight, s', c, s.cpu[c].v)
    ensures s.pg[s.cpu[c].v].mowner.By? ==> MainHandlerOk(k, tight, s', s.pg[s.cpu[c].v].mowner.core)
  {}

  lemma FlushLocalKeeps(k: Config, tight: bool, s: State, s': State, c: Core)
    requires Good(k, tight, s) && MainAt(k, s, c, Flushing) && s' == DoFlushLocal(s, c)
    ensures Good(k, tight, s')
  {
    Look(k, tight, s, c, s.cpu[c].v);
    FlushLocalPage(k, tight, s, s', c);
    FlushLocalCores(k, tight, s, s', c);
    Assemble(k, tight, s, s', c, s.cpu[c].v);
  }

  lemma OwnFlushPage(k: Config, tight: bool, s: State, s': State, c: Core)
    requires c == k.snapCore && At(k, s, c, Flushing) && Here(k, tight, s, c, s.cpu[c].v) && s' == DoOwnFlush(s, c)
    ensures Typed(k, s') && PageOk(k, s', s.cpu[c].v) && LockOk(k, s', s.cpu[c].v)
    ensures TlbHere(k, tight, s', s.cpu[c].v)
  {}

  lemma OwnFlushCores(k: Config, tight: bool, s: State, s': State, c: Core)
    requires c == k.snapCore && At(k, s, c, Flushing) && Here(k, tight, s, c, s.cpu[c].v) && s' == DoOwnFlush(s, c)
    ensures HandlersHere(k, tight, s', c, s.cpu[c].v)
    ensures s.pg[s.cpu[c].v].mowner.By? ==> MainHandlerOk(k, tight, s', s.pg[s.cpu[c].v].mowner.core)
  {}

  lemma OwnFlushKeeps(k: Config, tight: bool, s: State, s': State, c: Core)
    requires Good(k, tight, s) && c == k.snapCore && At(k, s, c, Flushing) && s' == DoOwnFlush(s, c)
    ensures Good(k, tight, s')
  {
    Look(k, tight, s, c, s.cpu[c].v);
    OwnFlushPage(k, tight, s, s', c);
    OwnFlushCores(k, tight, s, s', c);
    Assemble(k, tight, s, s', c, s.cpu[c].v);
  }

  // ---- Hardware, programs and the snapshot core's control flow ----

  lemma MainFillPage(k: Config, tight: bool, s: State, s': State, c: Core, v: Page)
    requires CanMainFill(k, s, c, v) && Here(k, tight, s, c, v) && s' == DoMainFill(s, c, v)
    ensures Typed(k, s') && PageOk(k, s', v) && LockOk(k, s', v) && TlbHere(k, tight, s', v)
  {}

  lemma MainFillCores(k: Config, tight: bool, s: State, s': State, c: Core, v: Page)
    requires CanMainFill(k, s, c, v) && Here(k, tight, s, c, v) && s' == DoMainFill(s, c, v)
    ensures HandlersHere(k, tight, s', c, v)
    ensures s.pg[v].mowner.By? ==> MainHandlerOk(k, tight, s', s.pg[v].mowner.core)
  {
    MainFillMain(k, tight, s, s', c, v, c);
    if s.pg[v].mowner.By? { MainFillMain(k, tight, s, s', c, v, s.pg[v].mowner.core); }
    if s.cpu[k.snapCore].v == v { MainFillOwn(k, s, s', c, v); }
  }

  lemma MainFillMain(k: Config, tight: bool, s: State, s': State, c: Core, v: Page, d: Core)
    requires CanMainFill(k, s, c, v) && s' == DoMainFill(s, c, v) && MainHandlerOk(k, tight, s, d)
    ensures MainHandlerOk(k, tight, s', d)
  {}

  lemma MainFillOwn(k: Config, s: State, s': State, c: Core, v: Page)
    requires CanMainFill(k, s, c, v) && s' == DoMainFill(s, c, v) && SnapHandlerOk(k, s)
    ensures SnapHandlerOk(k, s')
  {}

  lemma MainFillKeeps(k: Config, tight: bool, s: State, s': State, c: Core, v: Page)
    requires Good(k, tight, s) && CanMainFill(k, s, c, v) && s' == DoMainFill(s, c, v)
    ensures Good(k, tight, s')
  {
    Look(k, tight, s, c, v);
    MainFillPage(k, tight, s, s', c, v);
    MainFillCores(k, tight, s, s', c, v);
    Assemble(k, tight, s, s', c, v);
  }

  lemma SnapWalkPage(k: Config, tight: bool, s: State, s': State, v: Page)
    requires CanSnapWalk(s, v) && Here(k, tight, s, k.snapCore, v) && s' == DoSnapWalk(s, v)
    ensures Typed(k, s') && PageOk(k, s', v) && LockOk(k, s', v) && TlbHere(k, tight, s', v)
  {}

  lemma SnapWalkMain(k: Config, tight: bool, s: State, s': State, v: Page, c: Core)
    requires CanSnapWalk(s, v) && s' == DoSnapWalk(s, v) && MainHandlerOk(k, tight, s, c)
    ensures MainHandlerOk(k, tight, s', c)
  {}

  lemma SnapWalkOwn(k: Config, s: State, s': State, v: Page)
    requires CanSnapWalk(s, v) && s' == DoSnapWalk(s, v) && SnapHandlerOk(k, s)
    ensures SnapHandlerOk(k, s')
  {}

  lemma SnapWalkCores(k: Config, tight: bool, s: State, s': State, v: Page)
    requires CanSnapWalk(s, v) && HandlersHere(k, tight, s, k.snapCore, v) && s' == DoSnapWalk(s, v)
    ensures HandlersHere(k, tight, s', k.snapCore, v)
    ensures s.pg[v].mowner.By? ==> MainHandlerOk(k, tight, s', s.pg[v].mowner.core)
  {
    if s.pg[v].mowner.By? { SnapWalkMain(k, tight, s, s', v, s.pg[v].mowner.core); }
    SnapWalkOwn(k, s, s', v);
  }

  lemma SnapWalkKeeps(k: Config, tight: bool, s: State, s': State, v: Page)
    requires Good(k, tight, s) && k.snapCore in s.cpu && CanSnapWalk(s, v) && s' == DoSnapWalk(s, v)
    ensures Good(k, tight, s')
  {
    Look(k, tight, s, k.snapCore, v);
    SnapWalkPage(k, tight, s, s', v);
    SnapWalkCores(k, tight, s, s', v);
    Assemble(k, tight, s, s', k.snapCore, v);
  }

  lemma MainWritePage(k: Config, tight: bool, s: State, s': State, c: Core, v: Page, off: int, b: byte)
    requires CanMainWrite(k, s, c, v, off) && Here(k, tight, s, c, v) && s' == DoMainWrite(s, c, v, off, b)
    requires MainTrOk(s, v, s.mtlb[(c, v)])
    ensures Typed(k, s') && PageOk(k, s', v) && LockOk(k, s', v) && TlbHere(k, tight, s', v)
  {}

  lemma MainWriteCores(k: Config, tight: bool, s: State, s': State, c: Core, v: Page, off: int, b: byte)
    requires CanMainWrite(k, s, c, v, off) && Here(k, tight, s, c, v) && s' == DoMainWrite(s, c, v, off, b)
    requires MainTrOk(s, v, s.mtlb[(c, v)])
    ensures HandlersHere(k, tight, s', c, v)
    ensures s.pg[v].mowner.By? ==> MainHandlerOk(k, tight, s', s.pg[v].mowner.core)
  {}

  lemma MainWriteKeeps(k: Config, tight: bool, s: State, s': State, c: Core, v: Page, off: int, b: byte)
    requires Good(k, tight, s) && CanMainWrite(k, s, c, v, off) && s' == DoMainWrite(s, c, v, off, b)
    ensures Good(k, tight, s')
  {
    LookTr(k, tight, s, c, v);
    Look(k, tight, s, c, v);
    MainWritePage(k, tight, s, s', c, v, off, b);
    MainWriteCores(k, tight, s, s', c, v, off, b);
    Assemble(k, tight, s, s', c, v);
  }

  lemma SnapWritePage(k: Config, tight: bool, s: State, s': State, v: Page, off: int, b: byte)
    requires CanSnapWrite(k, s, v, off) && Here(k, tight, s, k.snapCore, v) && s' == DoSnapWrite(s, v, off, b)
    ensures Typed(k, s') && PageOk(k, s', v) && LockOk(k, s', v) && TlbHere(k, tight, s', v)
  {}

  lemma SnapWriteCores(k: Config, tight: bool, s: State, s': State, v: Page, off: int, b: byte)
    requires CanSnapWrite(k, s, v, off) && Here(k, tight, s, k.snapCore, v) && s' == DoSnapWrite(s, v, off, b)
    ensures HandlersHere(k, tight, s', k.snapCore, v)
    ensures s.pg[v].mowner.By? ==> MainHandlerOk(k, tight, s', s.pg[v].mowner.core)
  {}

  lemma SnapWriteKeeps(k: Config, tight: bool, s: State, s': State, v: Page, off: int, b: byte)
    requires Good(k, tight, s) && CanSnapWrite(k, s, v, off) && s' == DoSnapWrite(s, v, off, b)
    ensures Good(k, tight, s')
  {
    Look(k, tight, s, k.snapCore, v);
    SnapWritePage(k, tight, s, s', v, off, b);
    SnapWriteCores(k, tight, s, s', v, off, b);
    Assemble(k, tight, s, s', k.snapCore, v);
  }

  lemma MainEvictKeeps(k: Config, tight: bool, s: State, c: Core, v: Page)
    requires Inv(k, tight, s)
    ensures Inv(k, tight, s.(mtlb := s.mtlb - {(c, v)}))
  {
    SameButTlb(k, tight, s, s.(mtlb := s.mtlb - {(c, v)}));
  }

  /** States that differ in their TLBs, in the pending invalidations and in user only. */
  predicate TlbApart(s: State, s': State) {
    s'.pg == s.pg && s'.fr == s.fr && s'.cpu == s.cpu && s'.phase == s.phase && s'.root == s.root
  }

  lemma SameButTlb(k: Config, tight: bool, s: State, s': State)
    requires Inv(k, tight, s) && TlbApart(s, s') && MainTlbOk(s')
    requires s.phase.Waiting? ==> s'.stlb == map[] && s'.walk.NoWalk?
    requires Live(s) ==> SnapTlbOk(k, tight, s') && WalkOk(k, tight, s')
    ensures Inv(k, tight, s')
  {
    forall v <- s.pg ensures PageOk(k, s', v) && LockOk(k, s', v) { assert PageOk(k, s, v) && LockOk(k, s, v); }
    forall c <- s.cpu | c != k.snapCore ensures MainHandlerOk(k, tight, s',
        c) { assert MainHandlerOk(k, tight, s, c); }
  }

  /** Dropping translations of the snapshot core, growing what is pending, or leaving its thread. */
  lemma DropTrsKeeps(k: Config, tight: bool, s: State, s': State)
    requires Inv(k, tight, s) && TlbApart(s, s') && s'.mtlb == s.mtlb
    requires forall v <- s'.stlb :: v in s.stlb && s'.stlb[v] == s.stlb[v]
    requires s'.walk == s.walk || s'.walk.NoWalk?
    requires forall v <- s.stlb :: v in s'.stlb ==> Excuse(s, s', v)
    requires s.walk.Captured? && s'.walk.Captured? ==> Excuse(s, s', s.walk.page)
    requires s.phase.Waiting? ==> s'.stlb == map[]
    ensures Inv(k, tight, s')
  {
    if Live(s) {
      forall v <- s'.stlb ensures TrOk(k, tight, s', v, s'.stlb[v]) { assert TrOk(k, tight, s, v, s.stlb[v]); }
      assert WalkOk(k, tight, s');
    }
    SameButTlb(k, tight, s, s');
  }

  /** A stale translation that was waiting for v's invalidation still is. */
  predicate Excuse(s: State, s': State, v: Page) {
    !s.user && v in s.pend && !NoStale(s, v) ==> !s'.user && v in s'.pend
  }

  lemma SnapFillKeeps(k: Config, tight: bool, s: State)
    requires Inv(k, tight, s) && s.walk.Captured?
    ensures Inv(k, tight, DoSnapFill(s))
  {
    var s' := DoSnapFill(s);
    if Live(s) {
      forall v <- s'.stlb ensures TrOk(k, tight, s', v, s'.stlb[v]) {
        if v != s.walk.page { assert TrOk(k, tight, s, v, s.stlb[v]); }
      }
    }
    SameButTlb(k, tight, s, s');
  }

  /** A phase change of the snapshot worker keeps what the invariant says of pages and handlers. */
  lemma PhaseKeeps(k: Config, tight: bool, s: State, s': State)
    requires Inv(k, tight, s) && s' == s.(phase := s'.phase, stlb := s'.stlb, walk := s'.walk, root := s'.root)
    requires s.phase.Finished? ==> s'.phase.Finished?
    requires tight && s'.phase.Running? ==> Clean(k, s) && s.phase.Loaded?
    requires s'.phase.Waiting? || s'.phase.Loaded? ==> s.phase.Waiting? || s.phase.Loaded?
    requires !s'.root ==> s'.phase.Finished?
    requires !Live(s') ==> s.cpu[k.snapCore].at.Idle?
    requires s'.phase.Waiting? ==> s'.stlb == map[] && s'.walk.NoWalk?
    requires Live(s') ==> (s'.stlb == map[] && s'.walk.NoWalk?) || (Live(s) && s'.stlb == s.stlb && s'.walk == s.walk)
    ensures Inv(k, tight, s')
  {
    forall v <- s.pg ensures PageOk(k, s', v) && LockOk(k, s', v) {
      assert PageOk(k, s, v) && LockOk(k, s, v);
      PhasePage(k, s, s', v);
    }
    forall c <- s.cpu | c != k.snapCore ensures MainHandlerOk(k, tight, s', c) {
      assert MainHandlerOk(k, tight, s, c);
      PhaseHandler(k, tight, s, s', c);
    }
    if Live(s') {
      forall v <- s'.stlb ensures TrOk(k, tight, s', v, s'.stlb[v]) { assert TrOk(k, tight, s, v, s.stlb[v]); }
    }
  }

  predicate PhaseApart(s: State, s': State) {
    && s'.pg == s.pg && s'.fr == s.fr && s'.cpu == s.cpu && (s.phase.Finished? ==> s'.phase.Finished?)
    && (s'.phase.Waiting? || s'.phase.Loaded? ==> s.phase.Waiting? || s.phase.Loaded?)
  }

  lemma PhasePage(k: Config, s: State, s': State, v: Page)
    requires PhaseApart(s, s') && PageOk(k, s, v) && LockOk(k, s, v)
    ensures PageOk(k, s', v) && LockOk(k, s', v)
  {}

  lemma PhaseHandler(k: Config, tight: bool, s: State, s': State, c: Core)
    requires PhaseApart(s, s') && MainHandlerOk(k, tight, s, c)
    requires tight && s'.phase.Running? && !s.phase.Running? ==> !EarlySample(k, s, c)
    ensures MainHandlerOk(k, tight, s', c)
  {}
}
