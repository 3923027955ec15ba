/**
 What branch-off leaves behind, and whether it isolates the two sides: writable shadows, and translations that main
 cores keep from before they switched to their new table.
 */
module CowSwitch {
  import opened PageEntry
  import opened CowProtocol
  import opened CowInvariant
  import opened CowSafety
  import opened CowRuns
  import opened CowReach
  import B = BranchOff

  /** Main core c reads at page v something else than the main side's own view. */
  predicate MainBroken(s: State, c: Core, v: Page) {
    && (c, v) in s.mtlb && s.mtlb[(c, v)].frame in s.fr && v in s.pg
    && s.fr[s.mtlb[(c, v)].frame].data != s.pg[v].mview
  }

  /** Whatever happens from s on, short of the three hazards, each side reads its own view. */
  ghost predicate BothIsolated(k: Config, s: State) {
    Isolated(k, NONE, s) && forall z, c, v :: Reaches(k, NONE, s, z) ==> !MainBroken(z, c, v)
  }

  lemma InitIsolated(k: Config, s: State)
    requires Init(k, s)
    ensures BothIsolated(k, s)
  {
    InitInv(k, true, s);
    TightIsIsolated(k, s);
    forall z, c, v | Reaches(k, NONE, s, z) ensures !MainBroken(z, c, v) {
      var ts :| Leads(k, NONE, s, ts, z);
      RunKeeps(k, true, NONE, s, ts);
      if (c, v) in z.mtlb && z.mtlb[(c, v)].frame in z.fr {
        ReadsView(k, true, z, v, z.fr[z.mtlb[(c, v)].frame].data);
        assert MainReads(k, z, c, v, z.fr[z.mtlb[(c, v)].frame].data);
      }
    }
  }

  /** The snapshot thread runs and has the page in its TLB. Neither side has written it, and both name frame f. */
  predicate Shared(k: Config, s: State, v: Page, f: Frame) {
    && s.phase.Running? && Executing(k, s) && v in s.pg && f in s.fr && |s.fr[f].data| == PGSIZE
    && s.pg[v].main.frame == f && s.pg[v].main.p && s.pg[v].mview == s.fr[f].data == s.pg[v].sview
    && v in s.stlb && s.stlb[v] == Tr(f, s.pg[v].snap.w)
  }

  /** Both sides have the page in their TLBs. */
  lemma Shares(k: Config, s: State, v: Page) returns (z: State)
    requires Start(k, s) && v in s.pg
    ensures Reaches(k, NONE, s, z) && Shared(k, z, v, s.pg[v].main.frame) && z.mtlb == s.mtlb && z.cpu == s.cpu
    ensures z.pg[v].main == s.pg[v].main && z.pg[v].snap.w == s.pg[v].snap.w
  {
    assert StartPage(k, s, v);
    var l := Begins(k, s);
    var m := DoSnapWalk(l, v);
    ReachesThen(k, NONE, s, l, SnapWalk(v), m);
    z := DoSnapFill(m);
    ReachesThen(k, NONE, s, m, SnapFill, z);
  }

  function Other(b: byte): byte { if b == 0 then 1 else 0 }

  /** A main core writes the shared frame, and the snapshot thread reads the write. */
  lemma MainWrites(k: Config, s: State, c: Core, v: Page, f: Frame) returns (z: State)
    requires Shared(k, s, v, f) && c in s.cpu && c != k.snapCore && s.cpu[c].at.Idle?
    requires (c, v) in s.mtlb && s.mtlb[(c, v)] == Tr(f, true)
    ensures Reaches(k, NONE, s, z) && Broken(k, z, v)
  {
    var b := Other(s.fr[f].data[0]);
    z := DoMainWrite(s, c, v, 0, b);
    ReachesStep(k, NONE, s, MainWrite(c, v, 0, b));
    assert z.fr[f].data[0] != s.fr[f].data[0];
  }

  /** The snapshot thread writes it, and a main core reads the write. */
  lemma SnapWrites(k: Config, s: State, c: Core, v: Page, f: Frame) returns (z: State)
    requires Shared(k, s, v, f) && s.pg[v].snap.w && c in s.cpu && c != k.snapCore
    ensures Reaches(k, NONE, s, z) && MainBroken(z, c, v)
  {
    var b := Other(s.fr[f].data[0]);
    var m := DoSnapWrite(s, v, 0, b);
    ReachesStep(k, NONE, s, SnapWrite(v, 0, b));
    z := DoMainFill(m, c, v);
    ReachesThen(k, NONE, s, m, MainFill(c, v), z);
    assert z.fr[f].data[0] != s.fr[f].data[0];
  }

  lemma OldTrBreaks(k: Config, s: State, c: Core, v: Page)
    requires Start(k, s) && (c, v) in s.mtlb && s.mtlb[(c, v)].w
    ensures !BothIsolated(k, s)
  {
    assert OldTr(k, s, (c, v).0, (c, v).1, s.mtlb[(c, v)]);
    var m := Shares(k, s, v);
    var z := MainWrites(k, m, c, v, s.pg[v].main.frame);
    ReachesTrans(k, NONE, s, m, z);
  }

  lemma WritableBreaks(k: Config, s: State, v: Page, d: Core)
    requires Start(k, s) && v in s.pg && (s.pg[v].main.w || s.pg[v].snap.w) && d in s.cpu && d != k.snapCore
    ensures !BothIsolated(k, s)
  {
    var f := s.pg[v].main.frame;
    var l := Shares(k, s, v);
    if s.pg[v].main.w {
      var m := DoMainFill(l, d, v);
      ReachesThen(k, NONE, s, l, MainFill(d, v), m);
      var z := MainWrites(k, m, d, v, f);
      ReachesTrans(k, NONE, s, m, z);
    } else {
      var z := SnapWrites(k, l, d, v, f);
      ReachesTrans(k, NONE, s, l, z);
    }
  }

  /** From branch-off on, however the copying and the switch went: each side reads its own view, whatever happens
      short of the three hazards, if and only if no shadow is writable and no main core holds a writable
      translation. d is a main core. */
  lemma StartExact(k: Config, s: State, d: Core)
    requires Start(k, s) && d in s.cpu && d != k.snapCore
    ensures BothIsolated(k, s) <==> Cold(s) && forall v <- s.pg :: !s.pg[v].main.w && !s.pg[v].snap.w
  {
    if !Cold(s) {
      var e :| e in s.mtlb && s.mtlb[e].w;
      OldTrBreaks(k, s, e.0, e.1);
    } else if v :| v in s.pg && (s.pg[v].main.w || s.pg[v].snap.w) {
      WritableBreaks(k, s, v, d);
    } else {
      InitIsolated(k, s);
    }
  }

  /** The protocol starts where the switch ended: only a core that kept what it had before the switch can hold a
      writable translation, since those made later come from the write-protected table. */
  predicate Carries(s: State, z: B.State) { forall e <- s.mtlb :: s.mtlb[e].w ==> e.0 in z.warm }

  /** After every run of the switch, with write-protected shadows: the two sides are isolated if and only if no core
      that kept its translations holds a writable one. They are if every main core acknowledged the message or is
      the one that branches off. */
  lemma SwitchExact(k: Config, s: State, d: Core, b: B.Config, y: B.State, ts: seq<B.Step>, z: B.State)
    requires Start(k, s) && (forall v <- s.pg :: InitPage(k, s, v)) && d in s.cpu && d != k.snapCore
    requires B.Init(b, y) && B.Valid(b, y, ts) && z == B.After(b, y, ts) && z.loop.Finished? && Carries(s, z)
    ensures BothIsolated(k, s) <==> forall e <- s.mtlb :: e.0 in z.warm ==> !s.mtlb[e].w
    ensures (forall c <- s.cpu :: c != k.snapCore ==> 0 <= c < B.CPUS && (c == b.cpu || (c in z.sent && c in z.done)))
        ==> BothIsolated(k, s)
  {
    StartExact(k, s, d);
    forall e <- s.mtlb ensures e.0 in s.cpu && e.0 != k.snapCore { assert OldTr(k, s, e.0, e.1, s.mtlb[e]); }
    forall c <- s.cpu | 0 <= c < B.CPUS && (c == b.cpu || (c in z.sent && c in z.done)) ensures c !in z.warm {
      B.MessageCleans(b, y, ts, c);
    }
  }
}
