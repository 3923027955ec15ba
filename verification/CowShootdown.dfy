/**
 The copy-on-write protocol and the shootdown as one machine. A main core that publishes a page whose
 translations it must shoot down starts a call of dbos_tlb_shootdown, and goes on when that call has returned.
 What the call's target does, which is the snapshot core, is what the protocol's snapshot core does: it leaves
 its thread and comes back, flushes, and invalidates the pages that its handler read.
 */
module CowShootdown {
  import opened Options
  import opened CowProtocol
  import opened CowInvariant
  import opened CowSafety
  import opened CowParts
  import S = Shootdown
  import X = ShootdownExact

  /** Both machines, and the call that each main core made last. */
  datatype Joint = Joint(p: State, z: S.State, call: map<Core, S.Id>)

  datatype Event =
    | Own(t: Step) // a step of the protocol alone
    | Announce(c: Core, act: Act, r: S.Id) // core c publishes, and starts call r
    | Return(c: Core) // the call of core c has returned, and c goes on
    | Walk(v: Page) // the snapshot core's hardware walks its table
    | Remote(x: S.Step) // a step of a call, or of the snapshot core as its target

  /** Action act of core c publishes a page whose translations must be shot down. */
  predicate Announces(k: Config, p: State, c: Core, act: Act) {
    (act.Publish? || act.Overwrite?) && CanDo(k, p, c, act) && Shoots(k, Doing(k, p, c, act).cpu[c])
  }

  predicate Alone(k: Config, p: State, t: Step) {
    match t
    case Do(c, act) => !act.ShootdownReturn? && !Announces(k, p, c, act)
    case SnapWalk(_) => false
    case Pause => false
    case Invalidate(_) => false
    case InvalidateAll => false
    case Resume => false
    case _ => true
  }

  /** What step t of the shootdown machine is for the protocol. */
  function Echo(z: S.State, t: S.Step): Option<Step>
    requires S.Enabled(z, t)
  {
    if t.Target? && t.m.Sync? then Some(InvalidateAll)
    else if t.InvalOne? then Some(Invalidate(z.hand.read[z.hand.i]))
    else if S.Running(z) && !S.Running(S.Exec(z, t)) then Some(Pause)
    else if !S.Running(z) && S.Running(S.Exec(z, t)) then Some(Resume)
    else None
  }

  predicate CanAnnounce(k: Config, s: Joint, c: Core, act: Act, r: S.Id) {
    Announces(k, s.p, c, act) && S.Enabled(s.z, S.Begin(r, c, s.p.cpu[c].v))
  }

  function Announced(k: Config, s: Joint, c: Core, act: Act, r: S.Id): Joint
    requires CanAnnounce(k, s, c, act, r)
  {
    Joint(Doing(k, s.p, c, act), S.Exec(s.z, S.Begin(r, c, s.p.cpu[c].v)), s.call[c := r])
  }

  predicate CanReturn(k: Config, s: Joint, c: Core) {
    && CanShootdownReturn(k, s.p, c)
    && c in s.call && s.call[c] in s.z.rq && s.z.rq[s.call[c]].at.Done?
  }

  /** A shootdown's own step, as far as the shootdown machine goes. Calls and page walks start with the protocol, and
      only a translation that is gone is evicted. */
  predicate CanRemote(s: Joint, t: S.Step) {
    S.Enabled(s.z, t) && !t.Begin? && !t.Fill? && (t.Evict? ==> !Holds(s.p, t.a))
  }

  /** The protocol's step in event e. A return is ahead if the old translation is sure to be dropped before the
      snapshot core executes its thread again. */
  function Move(k: Config, s: Joint, e: Event): Option<Step>
    requires e.Return? ==> CanReturn(k, s, e.c)
    requires e.Remote? ==> CanRemote(s, e.x)
  {
    match e
    case Own(t) => Some(t)
    case Announce(c, act, r) => Some(Do(c, act))
    case Return(c) => Some(Do(c, ShootdownReturn(X.Protected(s.z, s.call[c]))))
    case Walk(v) => Some(SnapWalk(v))
    case Remote(t) => Echo(s.z, t)
  }

  predicate Can(k: Config, s: Joint, e: Event) {
    match e
    case Own(t) => Alone(k, s.p, t) && Enabled(k, s.p, t)
    case Announce(c, act, r) => CanAnnounce(k, s, c, act, r)
    case Return(c) => CanReturn(k, s, c)
    case Walk(v) => CanSnapWalk(s.p, v) && s.z.core.at.Inside? && v in s.z.ver
    case Remote(t) => CanRemote(s, t) && (Echo(s.z, t).Some? ==> Enabled(k, s.p, Echo(s.z, t).value))
  }

  function Next(k: Config, s: Joint, e: Event): Joint
    requires Can(k, s, e)
  {
    match e
    case Own(t) => s.(p := Exec(k, s.p, t))
    case Announce(c, act, r) => Announced(k, s, c, act, r)
    case Return(c) => s.(p := DoShootdownReturn(s.p, c, X.Protected(s.z, s.call[c])))
    case Walk(v) => s.(p := DoSnapWalk(s.p, v), z := if v in s.z.tlb then s.z else S.Exec(s.z, S.Fill(v)))
    case Remote(t) =>
      var p' := match Echo(s.z, t) case None => s.p case Some(e) => Exec(k, s.p, e);
      s.(p := p', z := S.Exec(s.z, t))
  }

  predicate Begin(k: Config, s: Joint) { Init(k, s.p) && S.Init(s.z) && !s.p.user }

  // ---- The invariant ----

  /** Call r is for a page that has parted, and an outdated translation of that page is an old one for the call. */
  predicate CallOk(s: Joint, r: S.Id) {
    && r in s.z.rq && Apart(s.p, s.z.rq[r].addr)
    && (!NoStale(s.p, s.z.rq[r].addr) ==> S.Stale(s.z, s.z.rq[r]))
  }

  /** A core that waits for a shootdown has a call for its page. */
  predicate WaitOk(k: Config, s: Joint, c: Core) {
    c in s.p.cpu && Shoots(k, s.p.cpu[c]) ==>
      c in s.call && s.call[c] in s.z.rq && s.z.rq[s.call[c]].addr == s.p.cpu[c].v
  }

  /** A call that has not returned is the one that its core waits for. */
  predicate CallerOk(k: Config, s: Joint, r: S.Id) {
    && r in s.z.rq
    && (!s.z.rq[r].at.Done? ==>
          && s.z.rq[r].src in s.p.cpu && Shoots(k, s.p.cpu[s.z.rq[r].src])
          && s.z.rq[r].src in s.call && s.call[s.z.rq[r].src] == r)
  }

  /** Some call for page v is sure to have its old translation dropped. */
  predicate Kept(z: S.State, v: Page) { exists r <- z.rq :: z.rq[r].addr == v && X.Protected(z, r) }

  ghost predicate Coupled(k: Config, s: Joint) {
    && (s.p.user <==> S.Running(s.z))
    && (forall v :: Holds(s.p, v) ==> v in s.z.tlb)
    && (forall r <- s.z.rq :: CallOk(s, r) && CallerOk(k, s, r))
    && (forall c <- s.p.cpu :: WaitOk(k, s, c))
    && (forall v <- s.p.pend :: Kept(s.z, v))
  }

  ghost predicate Joined(k: Config, s: Joint) { Good(k, false, s.p) && S.Inv(s.z) && Coupled(k, s) }

  lemma BeginJoined(k: Config, s: Joint)
    requires Begin(k, s)
    ensures Joined(k, s)
  {
    InitInv(k, false, s.p);
    Seal(k, false, s.p);
  }

  // ---- A step of the protocol alone ----

  lemma CallsStay(s: Joint, p': State)
    requires (forall r <- s.z.rq :: CallOk(s, r)) && NoneWorse(s.p, p')
    ensures forall r <- s.z.rq :: CallOk(s.(p := p'), r)
  {
    forall r <- s.z.rq ensures CallOk(s.(p := p'), r) { assert CallOk(s, r); }
  }

  /** A core that waits for a shootdown does nothing else. */
  lemma OnlyReturns(k: Config, p: State, c: Core, act: Act)
    requires CanDo(k, p, c, act) && Shoots(k, p.cpu[c])
    ensures act.ShootdownReturn?
  {}

  lemma OwnCallers(k: Config, s: Joint, p': State, t: Step)
    requires Alone(k, s.p, t) && Enabled(k, s.p, t) && p' == Exec(k, s.p, t)
    requires forall r <- s.z.rq :: CallerOk(k, s, r)
    ensures forall r <- s.z.rq :: CallerOk(k, s.(p := p'), r)
  {
    if t.Do? {
      ActMoves(k, s.p, p', t.c, t.act);
      if Shoots(k, s.p.cpu[t.c]) { OnlyReturns(k, s.p, t.c, t.act); }
    } else {
      MachineStays(k, s.p, p', t, 0);
    }
    forall r <- s.z.rq ensures CallerOk(k, s.(p := p'), r) { assert CallerOk(k, s, r); }
  }

  lemma OwnControl(k: Config, p: State, p': State, t: Step)
    requires Enabled(k, p, t) && Alone(k, p, t) && !t.Do? && p' == Exec(k, p, t)
    ensures p'.user == p.user && p'.pend == p.pend
  {}

  lemma OwnWaits(k: Config, s: Joint, p': State, c: Core, act: Act)
    requires CanDo(k, s.p, c, act) && Alone(k, s.p, Do(c, act)) && p' == Doing(k, s.p, c, act)
    requires forall d <- s.p.cpu :: WaitOk(k, s, d)
    ensures forall d <- p'.cpu :: WaitOk(k, s.(p := p'), d)
  {
    ActMoves(k, s.p, p', c, act);
    ActWaits(k, s.p, p', c, act);
    forall d <- p'.cpu ensures WaitOk(k, s.(p := p'), d) { assert d in s.p.cpu && WaitOk(k, s, d); }
  }

  lemma OwnCoupled(k: Config, s: Joint, p': State, t: Step)
    requires Joined(k, s) && Alone(k, s.p, t) && Enabled(k, s.p, t) && p' == Exec(k, s.p, t)
    ensures Coupled(k, s.(p := p'))
  {
    var s' := s.(p := p');
    StepNoneWorse(k, s.p, p', t);
    CallsStay(s, p');
    OwnCallers(k, s, p', t);
    if t.Do? {
      ActDrops(k, s.p, p', t.c, t.act);
      OwnWaits(k, s, p', t.c, t.act);
    } else {
      OwnControl(k, s.p, p', t);
      MachineStays(k, s.p, p', t, 0);
      forall c <- p'.cpu ensures WaitOk(k, s', c) { assert WaitOk(k, s, c); }
    }
  }

  // ---- A core publishes and starts its call ----

  lemma {:induction false} KeptStays(z: S.State, z': S.State, t: S.Step, v: Page)
    requires S.Inv(z) && S.Enabled(z, t) && z' == S.Exec(z, t) && Kept(z, v)
    ensures Kept(z', v)
  {
    var r :| r in z.rq && z.rq[r].addr == v && X.Protected(z, r);
    X.ProtectedStep(z, z', t, r);
    S.StepRemembers(z, t);
    assert r in z'.rq && z'.rq[r].addr == v;
  }

  /** Every translation of the page is older than the update that call r announces. */
  lemma AnnounceOwn(s: Joint, s': Joint, c: Core, r: S.Id, v: Page)
    requires S.TlbOk(s.z) && S.Enabled(s.z, S.Begin(r, c, v)) && s'.z == S.Exec(s.z, S.Begin(r, c, v))
    requires Apart(s'.p, v) && (Holds(s'.p, v) ==> v in s.z.tlb)
    ensures CallOk(s', r)
  {
    assert !NoStale(s'.p, v) ==> Holds(s'.p, v);
  }

  /** No other call is for the page, since it had not parted before. */
  lemma AnnounceCalls(k: Config, s: Joint, s': Joint, c: Core, act: Act, r: S.Id)
    requires Joined(k, s) && CanAnnounce(k, s, c, act, r) && s' == Announced(k, s, c, act, r)
    ensures forall q <- s'.z.rq :: CallOk(s', q)
  {
    var v := s.p.cpu[c].v;
    StepNoneWorse(k, s.p, s'.p, Do(c, act));
    PublishingStays(k, s.p, s'.p, c, act, v);
    AnnounceOwn(s, s', c, r, v);
    forall q <- s'.z.rq | q != r ensures CallOk(s', q) { assert CallOk(s, q); }
  }

  lemma AnnounceWaits(k: Config, s: Joint, s': Joint, c: Core, act: Act, r: S.Id)
    requires Joined(k, s) && CanAnnounce(k, s, c, act, r) && s' == Announced(k, s, c, act, r)
    ensures forall d <- s'.p.cpu :: WaitOk(k, s', d)
  {
    ActMoves(k, s.p, s'.p, c, act);
    forall d <- s'.p.cpu ensures WaitOk(k, s', d) { assert d in s.p.cpu && WaitOk(k, s, d); }
  }

  lemma MayCall(k: Config, s: Joint, c: Core, act: Act)
    requires Joined(k, s) && Announces(k, s.p, c, act)
    ensures S.NotCalling(s.z, c)
  {
    if Shoots(k, s.p.cpu[c]) { OnlyReturns(k, s.p, c, act); }
    forall q <- s.z.rq | s.z.rq[q].src == c ensures s.z.rq[q].at.Done? { assert CallerOk(k, s, q); }
  }

  lemma AnnounceCaller(k: Config, s: Joint, s': Joint, c: Core, act: Act, r: S.Id, q: S.Id)
    requires CanAnnounce(k, s, c, act, r) && s' == Announced(k, s, c, act, r) && q in s'.z.rq
    requires q != r ==> CallerOk(k, s, q) && (s.z.rq[q].src == c ==> s.z.rq[q].at.Done?)
    requires c in s'.p.cpu && s'.p.cpu == s.p.cpu[c := s'.p.cpu[c]]
    ensures CallerOk(k, s', q)
  {}

  lemma AnnounceCallers(k: Config, s: Joint, s': Joint, c: Core, act: Act, r: S.Id)
    requires Joined(k, s) && CanAnnounce(k, s, c, act, r) && s' == Announced(k, s, c, act, r)
    ensures forall q <- s'.z.rq :: CallerOk(k, s', q)
  {
    ActMoves(k, s.p, s'.p, c, act);
    MayCall(k, s, c, act);
    forall q <- s'.z.rq ensures CallerOk(k, s', q) {
      assert q != r ==> CallerOk(k, s, q);
      AnnounceCaller(k, s, s', c, act, r, q);
    }
  }

  lemma AnnounceCoupled(k: Config, s: Joint, s': Joint, c: Core, act: Act, r: S.Id)
    requires Joined(k, s) && CanAnnounce(k, s, c, act, r) && s' == Announced(k, s, c, act, r)
    ensures Coupled(k, s')
  {
    AnnounceCalls(k, s, s', c, act, r);
    AnnounceCallers(k, s, s', c, act, r);
    AnnounceWaits(k, s, s', c, act, r);
    StepNoneWorse(k, s.p, s'.p, Do(c, act));
    ActDrops(k, s.p, s'.p, c, act);
    forall v <- s'.p.pend ensures Kept(s'.z, v) {
      assert Kept(s.z, v);
      KeptStays(s.z, s'.z, S.Begin(r, c, s.p.cpu[c].v), v);
    }
  }

  // ---- A call has returned ----

  lemma ReturnCoupled(k: Config, s: Joint, s': Joint, c: Core)
    requires Joined(k, s) && CanReturn(k, s, c) && s' == Next(k, s, Return(c))
    ensures Coupled(k, s')
  {
    var ahead := X.Protected(s.z, s.call[c]);
    StepNoneWorse(k, s.p, s'.p, Do(c, ShootdownReturn(ahead)));
    CallsStay(s, s'.p);
    ActDrops(k, s.p, s'.p, c, ShootdownReturn(ahead));
    ActMoves(k, s.p, s'.p, c, ShootdownReturn(ahead));
    assert WaitOk(k, s, c);
    forall r <- s'.z.rq ensures CallerOk(k, s', r) { assert CallerOk(k, s, r); }
    forall d <- s'.p.cpu ensures WaitOk(k, s', d) { assert d in s.p.cpu && WaitOk(k, s, d); }
    forall v <- s'.p.pend ensures Kept(s'.z, v) { assert v in s.p.pend ==> Kept(s.z, v); }
  }

  // ---- The snapshot core walks its table ----

  lemma WalkCoupled(k: Config, s: Joint, s': Joint, v: Page)
    requires Joined(k, s) && Can(k, s, Walk(v)) && s' == Next(k, s, Walk(v))
    ensures Coupled(k, s')
  {
    forall r <- s'.z.rq ensures CallOk(s', r) && CallerOk(k, s', r) { assert CallOk(s, r) && CallerOk(k, s, r); }
    forall c <- s'.p.cpu ensures WaitOk(k, s', c) { assert WaitOk(k, s, c); }
    forall u <- s'.p.pend ensures Kept(s'.z, u) {
      assert Kept(s.z, u);
      if v !in s.z.tlb { KeptStays(s.z, s'.z, S.Fill(v), u); }
    }
  }

  // ---- A step of a call or of its target ----

  /** Step t makes the target drop its translation of page a. */
  predicate Loses(z: S.State, t: S.Step, a: Page)
    requires S.Enabled(z, t)
  {
    (t.Target? && t.m.Sync?) || (t.InvalOne? && z.hand.read[z.hand.i] == a) || (t.Evict? && t.a == a)
  }

  lemma RemoteTlb(z: S.State, z': S.State, t: S.Step)
    requires S.Enabled(z, t) && z' == S.Exec(z, t) && !t.Begin? && !t.Fill?
    ensures z'.rq.Keys == z.rq.Keys
    ensures forall a <- z.tlb :: (a in z'.tlb && z'.tlb[a] == z.tlb[a]) || Loses(z, t, a)
  {}

  /** The steps of the protocol that its snapshot core takes as a target. */
  predicate Echoes(t: Step) { t.Pause? || t.Resume? || t.Invalidate? || t.InvalidateAll? }

  lemma EchoIs(z: S.State, t: S.Step, a: Page)
    requires S.Enabled(z, t)
    ensures Echo(z, t).Some? ==> Echoes(Echo(z, t).value)
    ensures Loses(z, t, a) && !t.Evict? ==> Echo(z, t) == Some(InvalidateAll) || Echo(z, t) == Some(Invalidate(a))
  {}

  lemma EchoTakes(k: Config, p: State, p': State, t: Step, v: Page)
    requires Echoes(t) && Enabled(k, p, t) && p' == Exec(k, p, t)
    ensures Holds(p', v) ==> Holds(p, v) && !t.InvalidateAll? && !(t.Invalidate? && t.v == v)
    ensures p' == p.(stlb := p'.stlb, walk := p'.walk, user := p'.user, pend := p'.pend) && p'.pend <= p.pend
    ensures p'.user == if t.Pause? then false else if t.Resume? then true else p.user
  {}

  lemma EchoDrops(k: Config, s: Joint, s': Joint, t: S.Step, v: Page)
    requires Can(k, s, Remote(t)) && s' == Next(k, s, Remote(t))
    ensures Holds(s'.p, v) ==> Holds(s.p, v) && !Loses(s.z, t, v)
    ensures s'.p == s.p.(stlb := s'.p.stlb, walk := s'.p.walk, user := s'.p.user, pend := s'.p.pend)
    ensures s'.p.pend <= s.p.pend
  {
    EchoIs(s.z, t, v);
    if Echo(s.z, t).Some? { EchoTakes(k, s.p, s'.p, Echo(s.z, t).value, v); }
  }

  lemma RemoteCalls(k: Config, s: Joint, s': Joint, t: S.Step)
    requires Joined(k, s) && Can(k, s, Remote(t)) && s' == Next(k, s, Remote(t))
    ensures (forall r <- s'.z.rq :: CallOk(s', r)) && forall v :: Holds(s'.p, v) ==> v in s'.z.tlb
  {
    RemoteTlb(s.z, s'.z, t);
    S.StepRemembers(s.z, t);
    forall v | Holds(s'.p, v) ensures v in s'.z.tlb { EchoDrops(k, s, s', t, v); }
    forall r <- s'.z.rq ensures CallOk(s', r) {
      assert r in s.z.rq.Keys && CallOk(s, r);
      EchoDrops(k, s, s', t, s.z.rq[r].addr);
      if Echo(s.z, t).Some? { StepNoneWorse(k, s.p, s'.p, Echo(s.z, t).value); }
    }
  }

  /** A call that has returned stays so. */
  lemma DoneStays(z: S.State, z': S.State, t: S.Step, r: S.Id)
    requires S.Enabled(z, t) && z' == S.Exec(z, t) && r in z.rq
    ensures r in z'.rq && z'.rq[r].src == z.rq[r].src && (z.rq[r].at.Done? ==> z'.rq[r].at.Done?)
  {}

  lemma RemoteCallers(k: Config, s: Joint, s': Joint, t: S.Step)
    requires Joined(k, s) && Can(k, s, Remote(t)) && s' == Next(k, s, Remote(t))
    ensures forall r <- s'.z.rq :: CallerOk(k, s', r)
  {
    RemoteTlb(s.z, s'.z, t);
    EchoDrops(k, s, s', t, 0);
    forall r <- s'.z.rq ensures CallerOk(k, s', r) {
      assert r in s.z.rq.Keys && CallerOk(k, s, r);
      DoneStays(s.z, s'.z, t, r);
    }
  }

  lemma EchoUser(k: Config, s: Joint, s': Joint, t: S.Step)
    requires (s.p.user <==> S.Running(s.z)) && Can(k, s, Remote(t)) && s' == Next(k, s, Remote(t))
    ensures s'.p.user <==> S.Running(s'.z)
  {
    if Echo(s.z, t).Some? {
      EchoIs(s.z, t, 0);
      EchoTakes(k, s.p, s'.p, Echo(s.z, t).value, 0);
    }
  }

  lemma RemoteCoupled(k: Config, s: Joint, s': Joint, t: S.Step)
    requires Joined(k, s) && Can(k, s, Remote(t)) && s' == Next(k, s, Remote(t))
    ensures Coupled(k, s')
  {
    RemoteCalls(k, s, s', t);
    RemoteCallers(k, s, s', t);
    EchoUser(k, s, s', t);
    EchoDrops(k, s, s', t, 0);
    S.StepRemembers(s.z, t);
    forall c <- s'.p.cpu ensures WaitOk(k, s', c) { assert WaitOk(k, s, c); }
    forall v <- s'.p.pend ensures Kept(s'.z, v) {
      assert Kept(s.z, v);
      KeptStays(s.z, s'.z, t, v);
    }
  }

  // ---- Every event keeps it ----

  predicate Twice(k: Config, s: Joint, e: Event)
    requires Can(k, s, e)
  {
    Move(k, s, e).Some? && DoubleLock(s.p, Move(k, s, e).value)
  }

  lemma MoveEnabled(k: Config, s: Joint, e: Event)
    requires Can(k, s, e)
    ensures match Move(k, s, e)
            case None => Next(k, s, e).p == s.p
            case Some(t) => Enabled(k, s.p, t) && Next(k, s, e).p == Exec(k, s.p, t)
  {}

  lemma EventCoupled(k: Config, s: Joint, s': Joint, e: Event)
    requires Joined(k, s) && Can(k, s, e) && s' == Next(k, s, e)
    ensures Coupled(k, s')
  {
    match e
    case Own(t) => OwnCoupled(k, s, s'.p, t);
    case Announce(c, act, r) => AnnounceCoupled(k, s, s', c, act, r);
    case Return(c) => ReturnCoupled(k, s, s', c);
    case Walk(v) => WalkCoupled(k, s, s', v);
    case Remote(t) => RemoteCoupled(k, s, s', t);
  }

  lemma EventZ(k: Config, s: Joint, s': Joint, e: Event)
    requires S.Inv(s.z) && Can(k, s, e) && s' == Next(k, s, e)
    ensures S.Inv(s'.z)
  {
    match e
    case Announce(c, act, r) => S.StepKeeps(s.z, S.Begin(r, c, s.p.cpu[c].v));
    case Walk(v) => if v !in s.z.tlb { S.StepKeeps(s.z, S.Fill(v)); }
    case Remote(t) => S.StepKeeps(s.z, t);
    case _ =>
  }

  lemma EventKeeps(k: Config, s: Joint, s': Joint, e: Event)
    requires Joined(k, s) && Can(k, s, e) && s' == Next(k, s, e) && !Twice(k, s, e)
    ensures Joined(k, s')
  {
    EventCoupled(k, s, s', e);
    EventZ(k, s, s', e);
    MoveEnabled(k, s, e);
    if Move(k, s, e).Some? {
      Unseal(k, false, s.p);
      StepKeeps(k, false, s.p, s'.p, Move(k, s, e).value);
      Seal(k, false, s'.p);
    }
  }

  // ---- The join holds up neither side ----

  /** When the target runs its thread again, a call that was protected has no old translation left. */
  lemma ProtectedGone(z: S.State, z': S.State, t: S.Step, r: S.Id)
    requires S.Inv(z) && S.Enabled(z, t) && z' == S.Exec(z, t) && S.Running(z') && z'.tlb == z.tlb
    requires X.Protected(z, r)
    ensures !S.Stale(z, z.rq[r])
  {
    X.ProtectedStep(z, z', t, r);
    S.StepRemembers(z, t);
    assert z'.rq[r].addr == z.rq[r].addr && z'.rq[r].ver == z.rq[r].ver;
  }

  lemma PendGone(k: Config, s: Joint, z': S.State, t: S.Step, v: Page)
    requires Joined(k, s) && S.Enabled(s.z, t) && z' == S.Exec(s.z, t) && S.Running(z') && z'.tlb == s.z.tlb
    requires v in s.p.pend
    ensures NoStale(s.p, v)
  {
    assert Kept(s.z, v);
    var r :| r in s.z.rq && s.z.rq[r].addr == v && X.Protected(s.z, r);
    ProtectedGone(s.z, z', t, r);
    assert CallOk(s, r);
  }

  lemma EchoWhen(z: S.State, t: S.Step)
    requires S.Enabled(z, t) && Echo(z, t).Some?
    ensures Echo(z, t).value.Pause? <==> S.Running(z)
    ensures Echo(z, t).value.Resume? ==> S.Running(S.Exec(z, t)) && S.Exec(z, t).tlb == z.tlb
  {}

  lemma EchoEnabled(k: Config, s: Joint, t: S.Step)
    requires Joined(k, s) && CanRemote(s, t) && Echo(s.z, t).Some?
    ensures Enabled(k, s.p, Echo(s.z, t).value)
  {
    var e := Echo(s.z, t).value;
    EchoIs(s.z, t, 0);
    EchoWhen(s.z, t);
    if e.Resume? {
      forall v <- s.p.pend ensures NoStale(s.p, v) { PendGone(k, s, S.Exec(s.z, t), t, v); }
    }
  }

  // ---- Runs ----

  predicate Runs(k: Config, s: Joint, es: seq<Event>)
    decreases |es|
  {
    es == [] || (Can(k, s, es[0]) && Runs(k, Next(k, s, es[0]), es[1..]))
  }

  function End(k: Config, s: Joint, es: seq<Event>): Joint
    requires Runs(k, s, es)
    decreases |es|
  {
    if es == [] then s else End(k, Next(k, s, es[0]), es[1..])
  }

  /** No entry of the snapshot is locked twice. */
  predicate LocksOnce(k: Config, s: Joint, es: seq<Event>)
    requires Runs(k, s, es)
    decreases |es|
  {
    es == [] || (!Twice(k, s, es[0]) && LocksOnce(k, Next(k, s, es[0]), es[1..]))
  }

  lemma {:induction false} RunJoined(k: Config, s: Joint, es: seq<Event>)
    requires Joined(k, s) && Runs(k, s, es) && LocksOnce(k, s, es)
    ensures Joined(k, End(k, s, es))
    decreases |es|
  {
    if es != [] {
      EventKeeps(k, s, Next(k, s, es[0]), es[0]);
      RunJoined(k, Next(k, s, es[0]), es[1..]);
    }
  }

  /** In every state that is reached without a double lock: no step of a call or of its target is held up by the
      protocol's pending invalidations; a core that waits for a shootdown waits for a call for its own page; and a
      core that must announce an update has no call under way, so that it can start one. */
  lemma NeverBlocked(k: Config, s: Joint, es: seq<Event>, z: Joint, c: Core, act: Act, t: S.Step)
    requires Begin(k, s) && Runs(k, s, es) && LocksOnce(k, s, es) && z == End(k, s, es)
    ensures CanRemote(z, t) && Echo(z.z, t).Some? ==> Enabled(k, z.p, Echo(z.z, t).value)
    ensures CanShootdownReturn(k, z.p, c) ==>
              c in z.call && z.call[c] in z.z.rq && z.z.rq[z.call[c]].addr == z.p.cpu[c].v
    ensures Announces(k, z.p, c, act) ==> S.NotCalling(z.z, c)
  {
    BeginJoined(k, s);
    RunJoined(k, s, es);
    if CanRemote(z, t) && Echo(z.z, t).Some? { EchoEnabled(k, z, t); }
    if CanShootdownReturn(k, z.p, c) { assert WaitOk(k, z, c); }
    if Announces(k, z.p, c, act) { MayCall(k, z, c, act); }
  }

  // ---- Which returns are late ----

  /** Call r is not first in the batch with which it was, or is being, acknowledged, and its page was not, or not yet,
      read for that batch. */
  predicate Unread(z: S.State, r: S.Id)
    requires r in z.rq
  {
    || (S.Missed(z, r) && z.acked[r].ids != [] && z.acked[r].ids[0] != r)
    || (z.hand.Ack? && r in z.hand.batch && z.hand.batch[0] != r && z.rq[r].addr !in z.hand.read)
  }

  /** Call r returned after a re-read that accepted a word without the host bit, or after such an acknowledgement. */
  predicate Risky(z: S.State, r: S.Id) {
    && r in z.rq && z.rq[r].at.Done?
    && (z.rq[r].at.path == S.Reread(false) || (z.rq[r].at.path == S.Acked && Unread(z, r)))
  }

  lemma UnprotectedIsRisky(z: S.State, r: S.Id)
    requires S.Inv(z) && r in z.rq && z.rq[r].at.Done? && !X.Protected(z, r)
    ensures Risky(z, r)
  {
    assert S.ReqOk(z, r) && (r in z.acked ==> S.AckedOk(z, r));
  }

  predicate Late(k: Config, s: Joint, e: Event)
    requires Can(k, s, e)
  {
    Move(k, s, e).Some? && LateReturn(k, s.p, Move(k, s, e).value)
  }

  lemma LateIsRisky(k: Config, s: Joint, e: Event)
    requires Joined(k, s) && Can(k, s, e) && Late(k, s, e)
    ensures e.Return? && Risky(s.z, s.call[e.c])
  {
    if e.Return? {
      var r := s.call[e.c];
      assert WaitOk(k, s, e.c) && CallOk(s, r);
      UnprotectedIsRisky(s.z, r);
    }
  }

  /** In every run without a double lock, a return is late only after such a re-read or acknowledgement. */
  lemma LateOnlyThen(k: Config, s: Joint, es: seq<Event>, z: Joint, e: Event)
    requires Begin(k, s) && Runs(k, s, es) && LocksOnce(k, s, es) && z == End(k, s, es)
    requires Can(k, z, e) && Late(k, z, e)
    ensures e.Return? && Risky(z.z, z.call[e.c])
  {
    BeginJoined(k, s);
    RunJoined(k, s, es);
    LateIsRisky(k, z, e);
  }

  // ---- Isolation over both machines ----

  /** The event is no double lock, no return of a risky call, and no start of a snapshot that is not clean. */
  predicate Careful(k: Config, s: Joint, e: Event)
    requires Can(k, s, e)
  {
    && !Twice(k, s, e) && (e.Return? ==> !Risky(s.z, s.call[e.c]))
    && (e == Own(SetStarted) ==> Clean(k, s.p))
  }

  predicate AllCareful(k: Config, s: Joint, es: seq<Event>)
    requires Runs(k, s, es)
    decreases |es|
  {
    es == [] || (Careful(k, s, es[0]) && AllCareful(k, Next(k, s, es[0]), es[1..]))
  }

  /** The protocol's steps in a run of both machines. */
  function Moves(k: Config, s: Joint, es: seq<Event>): seq<Step>
    requires Runs(k, s, es)
    decreases |es|
  {
    if es == [] then [] else
      var rest := Moves(k, Next(k, s, es[0]), es[1..]);
      match Move(k, s, es[0])
      case None => rest
      case Some(t) => [t] + rest
  }

  lemma CarefulPermits(k: Config, s: Joint, e: Event)
    requires Joined(k, s) && Can(k, s, e) && Careful(k, s, e) && Move(k, s, e).Some?
    ensures Permits(NONE, k, s.p, Move(k, s, e).value)
  {
    if Late(k, s, e) { LateIsRisky(k, s, e); }
    if e.Remote? { EchoIs(s.z, e.x, 0); }
  }

  lemma MoveFirst(k: Config, p: State, t: Step, ts: seq<Step>)
    requires Enabled(k, p, t) && Valid(k, Exec(k, p, t), ts) && Permits(NONE, k, p, t)
    requires Within(NONE, k, Exec(k, p, t), ts)
    ensures Valid(k, p, [t] + ts) && Within(NONE, k, p, [t] + ts)
    ensures After(k, p, [t] + ts) == After(k, Exec(k, p, t), ts)
  {
    assert ([t] + ts)[1..] == ts;
  }

  /** They are a run of the protocol, and one that meets no hazard. */
  lemma {:induction false} MovesRun(k: Config, s: Joint, es: seq<Event>)
    requires Joined(k, s) && Runs(k, s, es) && AllCareful(k, s, es)
    ensures Valid(k, s.p, Moves(k, s, es)) && Within(NONE, k, s.p, Moves(k, s, es))
    ensures After(k, s.p, Moves(k, s, es)) == End(k, s, es).p
    decreases |es|
  {
    if es != [] {
      var e, s' := es[0], Next(k, s, es[0]);
      EventKeeps(k, s, s', e);
      MovesRun(k, s', es[1..]);
      MoveEnabled(k, s, e);
      if Move(k, s, e).Some? {
        CarefulPermits(k, s, e);
        MoveFirst(k, s.p, Move(k, s, e).value, Moves(k, s', es[1..]));
      }
    }
  }

  /** Snapshot isolation with the shootdown as the source carries it out: over every run of both machines in which
      the snapshot starts clean, no entry is locked twice and no risky call returns, the snapshot thread reads the
      branch-off contents changed by its own writes alone. */
  lemma JointForkSemantics(k: Config, s: Joint, es: seq<Event>, v: Page, d: seq<byte>)
    requires Begin(k, s) && Runs(k, s, es) && AllCareful(k, s, es) && v in s.p.pg
    ensures var z := End(k, s, es);
            SnapReads(k, z.p, v, d) && z.p.phase.Running? ==>
              d == SnapReplay(s.p.fr[s.p.pg[v].main.frame].data, Moves(k, s, es), v)
  {
    BeginJoined(k, s);
    MovesRun(k, s, es);
    ForkSemantics(k, s.p, Moves(k, s, es), v, d);
  }
}
