/**
 What a step of the copy-on-write protocol does to the frames of a page and to the snapshot core's translations:
 the two sides of a page part at most once, and no translation of a page that has parted becomes outdated later.
 */
module CowParts {
  import opened PageEntry
  import opened CowProtocol
  import opened CowInvariant
  import opened CowSafety

  /** The two entries of page v name different frames. */
  predicate Apart(s: State, v: Page) { v in s.pg && s.pg[v].main.frame != s.pg[v].snap.frame }

  /** The snapshot core holds a translation of v, in its TLB or in flight. */
  predicate Holds(s: State, v: Page) { v in s.stlb || (s.walk.Captured? && s.walk.page == v) }

  /** A page that has parted keeps its two frames. */
  predicate Stays(s: State, s': State, v: Page) {
    v in s.pg ==>
      && v in s'.pg
      && (Apart(s, v) ==> s'.pg[v].main.frame == s.pg[v].main.frame && s'.pg[v].snap.frame == s.pg[v].snap.frame)
  }

  /** No translation of the snapshot core is new. */
  predicate Drops(s: State, s': State) {
    && (forall v <- s'.stlb :: v in s.stlb && s'.stlb[v] == s.stlb[v])
    && (s'.walk == s.walk || s'.walk.NoWalk?)
  }

  // ---- The handler's actions ----

  lemma EnteringStays(k: Config, s: State, s': State, c: Core, act: Act, v: Page)
    requires CanDo(k, s, c, act) && s' == Doing(k, s, c, act) && Entering(act)
    ensures Stays(s, s', v)
  {}

  lemma RestoreStays(k: Config, s: State, c: Core, v: Page)
    requires Good(k, false, s) && MainAt(k, s, c, Restoring)
    ensures Stays(s, DoRestore(s, c), v)
  {
    LookAt(k, false, s, c, s.cpu[c].v);
  }

  lemma ReleaseSnapStays(k: Config, s: State, c: Core, v: Page)
    requires Good(k, false, s) && CanReleaseSnap(k, s, c)
    ensures Stays(s, DoReleaseSnap(s, c), v)
  {
    LookAt(k, false, s, c, s.cpu[c].v);
  }

  lemma PairingStays(k: Config, s: State, s': State, c: Core, act: Act, v: Page)
    requires Good(k, false, s) && CanDo(k, s, c, act) && s' == Doing(k, s, c, act) && Pairing(act)
    ensures Stays(s, s', v)
  {
    if act.Restore? { RestoreStays(k, s, c, v); } else if act.ReleaseSnap? { ReleaseSnapStays(k, s, c, v); }
  }

  lemma FillingStays(k: Config, s: State, s': State, c: Core, act: Act)
    requires CanDo(k, s, c, act) && s' == Doing(k, s, c, act) && Filling(act)
    ensures s'.pg == s.pg
  {}

  lemma MissingStays(k: Config, s: State, s': State, c: Core, act: Act)
    requires CanDo(k, s, c, act) && s' == Doing(k, s, c, act) && Missing(act)
    ensures s'.pg == s.pg
  {}

  lemma ReleasingStays(k: Config, s: State, s': State, c: Core, act: Act)
    requires CanDo(k, s, c, act) && s' == Doing(k, s, c, act) && Releasing(act)
    ensures s'.pg == s.pg
  {}

  /** The page of core c parts. */
  predicate PartsNow(s: State, s': State, c: Core, v: Page) {
    c in s.cpu && Stays(s, s', v) && !Apart(s, s.cpu[c].v) && Apart(s', s.cpu[c].v)
  }

  lemma SplitParts(s: State, c: Core, h': Handler, e: Pte, v: Page)
    requires CanSplit(s, c) && !Apart(s, s.cpu[c].v) && e.frame != s.pg[s.cpu[c].v].main.frame
    ensures PartsNow(s, Split(Goto(s, c, h'), s.cpu[c], e), c, v)
  {}

  /** The copy is not yet the frame of any page. */
  lemma CopyIsNew(k: Config, s: State, c: Core)
    requires Good(k, false, s) && c in s.cpu && s.cpu[c].v in s.pg
    requires if c == k.snapCore then s.cpu[c].at.OwnCopying? else s.cpu[c].at.Copying? || s.cpu[c].at.Reloaded?
    ensures !Apart(s, s.cpu[c].v) && s.cpu[c].copy != s.pg[s.cpu[c].v].main.frame
  {
    LookAt(k, false, s, c, s.cpu[c].v);
  }

  lemma PublishingStays(k: Config, s: State, s': State, c: Core, act: Act, v: Page)
    requires Good(k, false, s) && CanDo(k, s, c, act) && s' == Doing(k, s, c, act) && Publishing(act)
    ensures PartsNow(s, s', c, v)
  {
    var h := s.cpu[c];
    CopyIsNew(k, s, c);
    if act.Publish? { SplitParts(s, c, h.(at := Published, need := h.snap.a), Redirected(h.snap, h.copy), v); }
    else if act.Overwrite? { SplitParts(s, c, h.(at := Published, need := true), Redirected(h.snap, h.copy), v); }
    else { SplitParts(s, c, h.(at := OwnDropping), Opened(h.was).(frame := h.copy), v); }
  }

  lemma ClosingStays(k: Config, s: State, s': State, c: Core, act: Act, v: Page)
    requires Good(k, false, s) && CanDo(k, s, c, act) && s' == Doing(k, s, c, act) && Closing(act)
    ensures Stays(s, s', v)
  {
    if act.Open? { LookAt(k, false, s, c, s.cpu[c].v); }
  }

  lemma FlushStays(k: Config, s: State, s': State, c: Core, act: Act)
    requires CanDo(k, s, c, act) && s' == Doing(k, s, c, act) && (act.FlushLocal? || act.OwnFlush?)
    ensures s'.pg == s.pg
  {}

  lemma ActStays(k: Config, s: State, s': State, c: Core, act: Act, v: Page)
    requires Good(k, false, s) && CanDo(k, s, c, act) && s' == Doing(k, s, c, act)
    ensures Stays(s, s', v)
  {
    if Entering(act) { EnteringStays(k, s, s', c, act, v); }
    else if Pairing(act) { PairingStays(k, s, s', c, act, v); }
    else if Filling(act) { FillingStays(k, s, s', c, act); }
    else if Missing(act) { MissingStays(k, s, s', c, act); }
    else if Releasing(act) { ReleasingStays(k, s, s', c, act); }
    else if Publishing(act) { PublishingStays(k, s, s', c, act, v); }
    else if Closing(act) { ClosingStays(k, s, s', c, act, v); }
    else { FlushStays(k, s, s', c, act); }
  }

  lemma ActDrops(k: Config, s: State, s': State, c: Core, act: Act)
    requires CanDo(k, s, c, act) && s' == Doing(k, s, c, act)
    ensures Drops(s, s') && s'.user == s.user && (!act.ShootdownReturn? ==> s'.pend == s.pend)
  {}

  lemma ActMoves(k: Config, s: State, s': State, c: Core, act: Act)
    requires CanDo(k, s, c, act) && s' == Doing(k, s, c, act)
    ensures c in s.cpu && c in s'.cpu && s'.cpu == s.cpu[c := s'.cpu[c]]
  {}

  lemma ActWaits(k: Config, s: State, s': State, c: Core, act: Act)
    requires CanDo(k, s, c, act) && s' == Doing(k, s, c, act)
    ensures c in s'.cpu && (s'.cpu[c].at.Published? ==> act.Publish? || act.Overwrite?)
  {}

  // ---- The other steps ----

  lemma MachineStays(k: Config, s: State, s': State, t: Step, v: Page)
    requires Enabled(k, s, t) && s' == Exec(k, s, t) && !t.Do?
    ensures Stays(s, s', v) && s'.cpu == s.cpu
  {}

  /** A step other than a page walk brings the snapshot core no translation of another page, and no outdated one of a
      page that has parted. */
  ghost predicate NoneWorse(s: State, s': State) {
    && (forall v :: Holds(s', v) ==> Holds(s, v))
    && (forall v <- s.pg :: v in s'.pg && (Apart(s, v) ==> Apart(s', v) && (NoStale(s, v) ==> NoStale(s', v))))
  }

  lemma DropsNoneWorse(s: State, s': State)
    requires Drops(s, s') && forall v :: Stays(s, s', v)
    ensures NoneWorse(s, s')
  {
    forall v <- s.pg ensures v in s'.pg && (Apart(s, v) ==> Apart(s', v) && (NoStale(s, v) ==> NoStale(s', v))) {
      assert Stays(s, s', v);
    }
  }

  lemma FillNoneWorse(s: State, s': State)
    requires s.walk.Captured? && s' == DoSnapFill(s)
    ensures NoneWorse(s, s')
  {}

  lemma StepNoneWorse(k: Config, s: State, s': State, t: Step)
    requires Good(k, false, s) && Enabled(k, s, t) && s' == Exec(k, s, t) && !t.SnapWalk?
    ensures NoneWorse(s, s')
  {
    if t.SnapFill? {
      FillNoneWorse(s, s');
    } else {
      forall v ensures Stays(s, s', v) {
        if t.Do? { ActStays(k, s, s', t.c, t.act, v); } else { MachineStays(k, s, s', t, v); }
      }
      if t.Do? { ActDrops(k, s, s', t.c, t.act); }
      DropsNoneWorse(s, s');
    }
  }
}
