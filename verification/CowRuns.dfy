/** Runs of the copy-on-write protocol put together step by step. */
module CowRuns {
  import opened PageEntry
  import opened CowProtocol
  import opened CowInvariant
  import opened CowSafety

  // ---- Building runs ----

  /** The run ts leads from s to s' and meets no hazards but those that a allows. */
  predicate Leads(k: Config, a: Allow, s: State, ts: seq<Step>, s': State) {
    Valid(k, s, ts) && Within(a, k, s, ts) && After(k, s, ts) == s'
  }

  lemma Cons(k: Config, a: Allow, s: State, t: Step, ts: seq<Step>, s': State)
    requires Enabled(k, s, t) && Permits(a, k, s, t) && Leads(k, a, Exec(k, s, t), ts, s')
    ensures Leads(k, a, s, [t] + ts, s')
  {
    assert ([t] + ts)[1..] == ts;
  }

  ghost predicate Reaches(k: Config, a: Allow, s: State, s': State) { exists ts :: Leads(k, a, s, ts, s') }

  lemma ReachesSelf(k: Config, a: Allow, s: State)
    ensures Reaches(k, a, s, s)
  {
    assert Leads(k, a, s, [], s);
  }

  lemma ReachesStep(k: Config, a: Allow, s: State, t: Step)
    requires Enabled(k, s, t) && Permits(a, k, s, t)
    ensures Reaches(k, a, s, Exec(k, s, t))
  {
    assert Leads(k, a, Exec(k, s, t), [], Exec(k, s, t));
    Cons(k, a, s, t, [], Exec(k, s, t));
  }

  lemma ReachesCons(k: Config, a: Allow, s: State, t: Step, s': State)
    requires Enabled(k, s, t) && Permits(a, k, s, t) && Reaches(k, a, Exec(k, s, t), s')
    ensures Reaches(k, a, s, s')
  {
    var ts :| Leads(k, a, Exec(k, s, t), ts, s');
    Cons(k, a, s, t, ts, s');
  }

  lemma {:induction false} Prepend(k: Config, a: Allow, s: State, ts: seq<Step>, m: State, s': State)
    requires Leads(k, a, s, ts, m) && Reaches(k, a, m, s')
    ensures Reaches(k, a, s, s')
    decreases |ts|
  {
    if ts != [] {
      Prepend(k, a, Exec(k, s, ts[0]), ts[1..], m, s');
      ReachesCons(k, a, s, ts[0], s');
    }
  }

  lemma ReachesTrans(k: Config, a: Allow, s: State, m: State, s': State)
    requires Reaches(k, a, s, m) && Reaches(k, a, m, s')
    ensures Reaches(k, a, s, s')
  {
    var ts :| Leads(k, a, s, ts, m);
    Prepend(k, a, s, ts, m, s');
  }

  lemma ReachesThen(k: Config, a: Allow, s: State, m: State, t: Step, s': State)
    requires Reaches(k, a, s, m) && Enabled(k, m, t) && Permits(a, k, m, t) && s' == Exec(k, m, t)
    ensures Reaches(k, a, s, s')
  {
    ReachesStep(k, a, m, t);
    ReachesTrans(k, a, s, m, s');
  }

  lemma {:induction false} Weaken(k: Config, a: Allow, b: Allow, s: State, ts: seq<Step>)
    requires Valid(k, s, ts) && Within(a, k, s, ts)
    requires (a.double ==> b.double) && (a.late ==> b.late) && (a.unclean ==> b.unclean)
    ensures Within(b, k, s, ts)
    decreases |ts|
  {
    if ts != [] { Weaken(k, a, b, Exec(k, s, ts[0]), ts[1..]); }
  }

  lemma ReachesMore(k: Config, a: Allow, b: Allow, s: State, s': State)
    requires Reaches(k, a, s, s') && (a.double ==> b.double) && (a.late ==> b.late) && (a.unclean ==> b.unclean)
    ensures Reaches(k, b, s, s')
  {
    var ts :| Leads(k, a, s, ts, s');
    Weaken(k, a, b, s, ts);
    assert Leads(k, b, s, ts, s');
  }

  lemma ReachesKeeps(k: Config, a: Allow, s: State, s': State)
    requires Inv(k, false, s) && Reaches(k, a, s, s') && !a.double
    ensures Inv(k, false, s')
  {
    var ts :| Leads(k, a, s, ts, s');
    RunKeeps(k, false, a, s, ts);
  }

  lemma GoodStep(k: Config, s: State, s': State, t: Step)
    requires Good(k, false, s) && Enabled(k, s, t) && s' == Exec(k, s, t) && Permits(NONE, k, s, t)
    ensures Good(k, false, s') && Reaches(k, NONE, s, s')
  {
    Unseal(k, false, s);
    StepKeeps(k, false, s, s', t);
    Seal(k, false, s');
    ReachesStep(k, NONE, s, t);
  }

  lemma GoodReaches(k: Config, s: State, s': State)
    requires Good(k, false, s) && Reaches(k, NONE, s, s')
    ensures Good(k, false, s')
  {
    Unseal(k, false, s);
    ReachesKeeps(k, NONE, s, s');
    Seal(k, false, s');
  }

  /** A walk in flight is given up, or fills the TLB. */
  lemma AbortWalk(k: Config, s: State) returns (s': State)
    requires Good(k, false, s)
    ensures Reaches(k, NONE, s, s') && Good(k, false, s') && s' == s.(walk := NoWalk)
  {
    s' := s.(walk := NoWalk);
    if s.walk.Captured? { GoodStep(k, s, s', SnapAbort); } else { ReachesSelf(k, NONE, s); }
  }

  lemma FillWalk(k: Config, s: State) returns (s': State)
    requires Good(k, false, s) && s.walk.Captured?
    ensures Reaches(k, NONE, s, s') && Good(k, false, s') && s' == DoSnapFill(s)
  {
    s' := DoSnapFill(s);
    GoodStep(k, s, s', SnapFill);
  }

  /** A walk and its fill: the snapshot core now translates v as the current entry does. */
  lemma WalkAndFill(k: Config, s: State, v: Page) returns (s': State)
    requires Good(k, false, s) && CanSnapWalk(s, v)
    ensures Reaches(k, NONE, s, s') && Good(k, false, s')
    ensures s' == s.(pg := s.pg[v := s.pg[v].(snap := s.pg[v].snap.(a := true))],
                     stlb := s.stlb[v := Tr(s.pg[v].snap.frame, s.pg[v].snap.w)])
  {
    var m := DoSnapWalk(s, v);
    GoodStep(k, s, m, SnapWalk(v));
    s' := FillWalk(k, m);
    ReachesTrans(k, NONE, s, m, s');
  }

  lemma Loosen(k: Config, s: State)
    requires Inv(k, true, s)
    ensures Inv(k, false, s)
  {
    forall c <- s.cpu | c != k.snapCore ensures MainHandlerOk(k, false, s, c) { assert MainHandlerOk(k, true, s, c); }
    if Live(s) { forall v <- s.stlb ensures TrOk(k, false, s, v,
        s.stlb[v]) { assert TrOk(k, true, s, v, s.stlb[v]); } }
  }

  /** The snapshot thread can read a page and find something other than its own view of it. */
  predicate Broken(k: Config, s: State, v: Page) {
    && s.phase.Running? && Executing(k, s)
    && v in s.stlb && s.stlb[v].frame in s.fr && v in s.pg && s.fr[s.stlb[v].frame].data != s.pg[v].sview
  }

  /** Whatever happens from s on, short of the hazards that a does not allow, the snapshot reads its own view. */
  ghost predicate Isolated(k: Config, a: Allow, s: State) { forall z, v :: Reaches(k, a, s, z) ==> !Broken(k, z, v) }

  lemma NeverBroken(k: Config, s: State, v: Page)
    requires Inv(k, true, s)
    ensures !Broken(k, s, v)
  {
    if v in s.stlb && s.stlb[v].frame in s.fr { ReadsView(k, true, s, v, s.fr[s.stlb[v].frame].data); }
  }

  /** A state with the tight invariant is isolated from everything but hazards. */
  lemma TightIsIsolated(k: Config, s: State)
    requires Inv(k, true, s)
    ensures Isolated(k, NONE, s)
  {
    forall z, v | Reaches(k, NONE, s, z) ensures !Broken(k, z, v) {
      var ts :| Leads(k, NONE, s, ts, z);
      RunKeeps(k, true, NONE, s, ts);
      NeverBroken(k, z, v);
    }
  }

  // ---- Copying a whole page ----

  /** The copy of core c, completed from frame f. */
  function Copied(s: State, c: Core, f: Frame): State
    requires c in s.cpu && f in s.fr && s.cpu[c].copy in s.fr
    requires 0 <= s.cpu[c].n <= |s.fr[f].data| && s.cpu[c].n <= |s.fr[s.cpu[c].copy].data|
  {
    var h := s.cpu[c];
    SetFrame(Goto(s, c, h.(n := PGSIZE)), h.copy,
             s.fr[h.copy].(data := s.fr[h.copy].data[..h.n] + s.fr[f].data[h.n..]))
  }

  predicate CanCopyAll(k: Config, s: State, c: Core, f: Frame) {
    && At(k, s, c, if c == k.snapCore then OwnCopying else Copying)
    && Reads(k, s, c, s.cpu[c].v, f) && f in s.fr && s.cpu[c].copy in s.fr && s.cpu[c].copy != f
    && 0 <= s.cpu[c].n <= PGSIZE && |s.fr[f].data| == |s.fr[s.cpu[c].copy].data| == PGSIZE
  }

  lemma CopyOne(k: Config, s: State, s': State, c: Core, f: Frame)
    requires CanCopyAll(k, s, c, f) && s.cpu[c].n < PGSIZE && s' == DoCopyByte(k, s, c, f)
    ensures CanCopyAll(k, s', c, f) && s'.cpu[c].n == s.cpu[c].n + 1 && Copied(s', c, f) == Copied(s, c, f)
  {
    var h := s.cpu[c];
    var n := h.n;
    var d := s.fr[h.copy].data;
    assert d[n := s.fr[f].data[n]][..n + 1] + s.fr[f].data[n + 1..] == d[..n] + s.fr[f].data[n..];
    assert Copied(s', c, f).cpu == Copied(s, c, f).cpu;
    assert Copied(s', c, f).fr == Copied(s, c, f).fr;
  }

  lemma {:induction false} CopyAll(k: Config, a: Allow, s: State, c: Core, f: Frame)
    requires CanCopyAll(k, s, c, f)
    ensures Reaches(k, a, s, Copied(s, c, f))
    decreases PGSIZE - s.cpu[c].n
  {
    if s.cpu[c].n == PGSIZE {
      var h := s.cpu[c];
      assert s.fr[h.copy].data[..h.n] + s.fr[f].data[h.n..] == s.fr[h.copy].data;
      assert s.cpu[c := h] == s.cpu && s.fr[h.copy := s.fr[h.copy]] == s.fr;
      assert Copied(s, c, f) == s;
      assert Leads(k, a, s, [], s);
    } else {
      var s' := DoCopyByte(k, s, c, f);
      ReachesStep(k, a, s, Do(c, CopyByte(f)));
      CopyOne(k, s, s', c, f);
      CopyAll(k, a, s', c, f);
      ReachesTrans(k, a, s, s', Copied(s, c, f));
    }
  }
}
