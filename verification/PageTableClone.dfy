/** dune_vm_clone and dune_vm_free of libdune/vm.c, with the reference counts they change. */
module PageTableClone {
  import opened Options
  import opened PageEntry
  import opened PageTable
  import opened PageTableView
  import opened PageTableInsert
  import opened PageTableVisits

  /** The table under construction, the counts of the pool's pages, and its free pages in the order of allocation. */
  datatype Mem = Mem(root: seq<Slot>, ref: map<Frame, int>, pool: seq<Frame>)

  function CreateFor(level: nat): Create { if level == 0 then Normal else if level == 1 then Big else Huge }

  /** __dune_vm_clone_helper's mapping: one slot, the same frame, the flags cut to an int. */
  function OneSlot(e: Pte, va: Va, level: nat): Plan { Plan(LowFlagsOnly(e), CreateFor(level), va, 0, n => e.frame) }

  /** Table pages taken from the pool start with count 1. */
  function Took(ref: map<Frame, int>, pool: seq<Frame>, rest: seq<Frame>): map<Frame, int> {
    map f | f in ref :: if f in pool && f !in rest then 1 else ref[f]
  }

  /** dune_page_get, if the page is from the pool. */
  function Get(ref: map<Frame, int>, f: Frame): map<Frame, int> { if f in ref then ref[f := ref[f] + 1] else ref }

  function CloneHit(st: Mem, x: Slot, va: Va, level: nat): Hit<Mem> {
    if x.Leaf? && IsVa(va) && level <= 2 && AllShaped(st.root) then
      var o := Walk(Mapper(OneSlot(x.e, va, level)), st.pool, st.root, 3, va, Top(va, level));
      var ref := Took(st.ref, st.pool, o.st);
      Hit(Mem(o.sub, if o.ret == 0 then Get(ref, x.e.frame) else ref, o.st), x, o.ret)
    else Hit(st, x, 0)
  }

  function Cloner(): Walker<Mem> {
    Walker((st: Mem, x: Slot, va: Va, level: nat) => CloneHit(st, x, va, level), NoCreate, st => Grant(st, None))
  }

  function Corner(d: int): (va: Va)
    requires 0 <= d < ENTRIES
    ensures IsVa(va) && forall j :: 0 <= j < 4 ==> va[j] == d
  {
    [d, d, d, d]
  }

  /** VA_START and VA_END. */
  const FIRST: Va := Corner(0)
  const LAST: Va := Corner(ENTRIES - 1)

  // ---- The new table never goes beyond the source's shape ----

  predicate Mirrors(sub: seq<Slot>, src: seq<Slot>, level: nat)
    requires AllShaped(sub) && AllShaped(src)
    decreases level
  {
    forall i :: 0 <= i < ENTRIES ==>
      && (sub[i].Leaf? ==> src[i].Leaf?)
      && (sub[i].Dir? ==> src[i].Dir? && (level > 0 ==> Mirrors(sub[i].sub, src[i].sub, level - 1)))
  }

  /** The source has an entry for va at level l, and tables on the way to it. */
  predicate LeafAt(src: seq<Slot>, level: nat, va: Va, l: nat)
    requires AllShaped(src) && IsVa(va) && l <= level <= 3
    decreases level
  {
    if level == l then src[va[l]].Leaf? else src[va[level]].Dir? && LeafAt(src[va[level]].sub, level - 1, va, l)
  }

  lemma {:induction false} MirrorVacant(sub: seq<Slot>, src: seq<Slot>, level: nat, va: Va, l: nat)
    requires AllShaped(sub) && AllShaped(src) && IsVa(va) && l <= level <= 3
    requires Mirrors(sub, src, level) && LeafAt(src, level, va, l) && View(sub, level, va) == Nothing
    ensures Vacant(sub, level, va, l)
    decreases level
  {
    if level > l && sub[va[level]].Dir? { MirrorVacant(sub[va[level]].sub, src[va[level]].sub, level - 1, va, l); }
  }

  lemma MirrorZeros(src: seq<Slot>, level: nat)
    requires AllShaped(src)
    ensures AllShaped(ZEROS) && Mirrors(ZEROS, src, level)
  {
    assert forall i :: 0 <= i < ENTRIES ==> ZEROS[i] == Empty;
  }

  lemma {:induction false} MirrorInsert(pool: seq<Frame>, sub: seq<Slot>, src: seq<Slot>, level: nat, va: Va,
      l: nat, x: Slot, o: Out<seq<Frame>>)
    requires AllShaped(sub) && AllShaped(src) && IsVa(va) && l <= level <= 3 && !x.Dir?
    requires Mirrors(sub, src, level) && LeafAt(src, level, va, l) && o == Insert(pool, sub, level, va, l, x)
    requires AllShaped(o.sub)
    ensures Mirrors(o.sub, src, level)
    decreases level
  {
    var i := va[level];
    if level > l {
      if sub[i].Dir? {
        assert Shaped(o.sub[i]);
        MirrorInsert(pool, sub[i].sub, src[i].sub, level - 1, va, l, x,
            Insert(pool, sub[i].sub, level - 1, va, l, x));
      } else if sub[i].Empty? && pool != [] {
        MirrorZeros(src[i].sub, level - 1);
        assert Shaped(o.sub[i]);
        MirrorInsert(pool[1..], ZEROS, src[i].sub, level - 1, va, l, x,
            Insert(pool[1..], ZEROS, level - 1, va, l, x));
      }
    }
  }

  // ---- One entry ----

  predicate Distinct(pool: seq<Frame>) { forall i, j :: 0 <= i < j < |pool| ==> pool[i] != pool[j] }

  ghost predicate MemOk(st: Mem, src: seq<Slot>)
    requires AllShaped(src)
  {
    && Tidy(st.root, 3) && AllShaped(st.root) && Mirrors(st.root, src, 3)
    && Distinct(st.pool) && forall f <- st.pool :: f in st.ref
  }

  /** The clone's view of an entry. */
  function Low(was: Seen): Seen { match was case Nothing => Nothing case Seen(e, l) => SeenAs(LowFlagsOnly(e), l) }

  lemma OneSlotEntry(e: Pte, va: Va, level: nat)
    requires IsVa(va)
    ensures Entry(OneSlot(e, va, level), va) == LowFlagsOnly(e)
  {
    assert LowFlagsOnly(e).(frame := e.frame) == LowFlagsOnly(e);
  }

  /** Copying one entry is an insertion. */
  lemma HitInserts(st: Mem, src: seq<Slot>, e: Pte, va: Va, l: nat, h: Hit<Mem>, o: Out<seq<Frame>>)
    requires AllShaped(src) && MemOk(st, src) && IsVa(va) && l <= 2 && Floor(va, l) == va
    requires Vacant(st.root, 3, va, l) && h == CloneHit(st, Leaf(e), va, l)
    requires o == Insert(st.pool, st.root, 3, va, l, Store(LowFlagsOnly(e)))
    ensures h.slot == Leaf(e) && h.ret == o.ret && h.st.root == o.sub && h.st.pool == o.st
    ensures h.ret == 0 ==> h.st.ref == Get(Took(st.ref, st.pool, o.st), e.frame)
  {
    var m := OneSlot(e, va, l);
    OneSlotEntry(e, va, l);
    VacantIsClear(st.root, 3, va, l);
    WalkIsInsert(m, st.pool, st.root, 3, va, Top(va, l), Store(LowFlagsOnly(e)),
        Walk(Mapper(m), st.pool, st.root, 3, va, Top(va, l)));
  }

  predicate Suffix(rest: seq<Frame>, pool: seq<Frame>) { |rest| <= |pool| && rest == pool[|pool| - |rest|..] }

  lemma SuffixDistinct(pool: seq<Frame>, rest: seq<Frame>, f: Frame)
    requires Distinct(pool) && Suffix(rest, pool)
    ensures Distinct(rest) && (f in rest ==> f in pool)
  {}

  lemma HitKeeps(st: Mem, src: seq<Slot>, e: Pte, va: Va, l: nat, h: Hit<Mem>)
    requires AllShaped(src) && MemOk(st, src) && IsVa(va) && l <= 2 && Floor(va, l) == va && LeafAt(src, 3, va, l)
    requires Proper(Leaf(e), l) && View(st.root, 3, va) == Nothing && h == CloneHit(st, Leaf(e), va, l) && h.ret == 0
    ensures MemOk(h.st, src) && h.slot == Leaf(e)
    ensures Suffix(h.st.pool, st.pool)
    ensures forall v :: IsVa(v) ==> View(h.st.root, 3, v) == if Shares(v, va, l, 3)
          then SeenAs(LowFlagsOnly(e), l) else View(st.root, 3, v)
  {
    var x := Store(LowFlagsOnly(e));
    var o := Insert(st.pool, st.root, 3, va, l, x);
    MirrorVacant(st.root, src, 3, va, l);
    HitInserts(st, src, e, va, l, h, o);
    assert Proper(x, l);
    InsertTidy(st.pool, st.root, 3, va, l, x, o);
    MirrorInsert(st.pool, st.root, src, 3, va, l, x, o);
    InsertPool(st.pool, st.root, 3, va, l, x, o);
    forall f | f in h.st.pool ensures f in h.st.ref { SuffixDistinct(st.pool, o.st, f); }
    SuffixDistinct(st.pool, o.st, e.frame);
    forall v | IsVa(v) ensures View(h.st.root, 3, v) == if Shares(v, va, l, 3) then SeenAs(LowFlagsOnly(e), l)
        else View(st.root, 3, v) {
      InsertView(st.pool, st.root, 3, va, l, x, o, v);
    }
  }

  /** What a frame's counts are: in the pool's pages, free, entries and tables of the new table in it. */
  datatype Tally = Tally(known: bool, ref: int, free: bool, entries: int, tables: int, times: int)

  ghost function TallyOf(f: Frame, st: Mem): Tally
    requires AllShaped(st.root)
  {
    Tally(f in st.ref, if f in st.ref then st.ref[f] else 0, f in st.pool,
          All(Entries(f), st.root, 3), All(Tables(f), st.root, 3), Times(st.pool, f))
  }

  /** Copying n entries that name f, and taking pages from the pool. */
  predicate Moves(f: Frame, n: int, t: Tally, u: Tally) {
    && u.known == t.known && (u.free ==> t.free)
    && (t.known ==> u.ref == (if t.free && !u.free then 1 else t.ref) + n)
    && (f != Frame(0) ==> u.entries == t.entries + n)
    && u.tables == t.tables + t.times - u.times
  }

  lemma HitRefs(st: Mem, e: Pte, rest: seq<Frame>, ref: map<Frame, int>, f: Frame)
    requires ref == Get(Took(st.ref, st.pool, rest), e.frame) && (e.frame == f ==> f !in st.pool)
    ensures f in st.ref <==> f in ref
    ensures f in st.ref ==> ref[f] == (if f in st.pool && f !in rest then 1 else st.ref[f]) + if e.frame == f
          then 1 else 0
  {}

  lemma StoredEntry(e: Pte, f: Frame, l: nat)
    ensures f != Frame(0) ==> Here(Entries(f), Store(LowFlagsOnly(e)), l) == if e.frame == f then 1 else 0
    ensures Here(Tables(f), Store(LowFlagsOnly(e)), l) == 0
  {}

  lemma HitTrees(st: Mem, e: Pte, va: Va, l: nat, o: Out<seq<Frame>>, f: Frame)
    requires AllShaped(st.root) && IsVa(va) && l <= 2 && Vacant(st.root, 3, va, l)
    requires o == Insert(st.pool, st.root, 3, va, l, Store(LowFlagsOnly(e))) && o.ret == 0 && AllShaped(o.sub)
    ensures f != Frame(0) ==> All(Entries(f), o.sub, 3) == All(Entries(f), st.root, 3) + if e.frame == f then 1 else 0
    ensures All(Tables(f), o.sub, 3) == All(Tables(f), st.root, 3) + Times(st.pool, f) - Times(o.st, f)
  {
    InsertCount(Entries(f), st.pool, st.root, 3, va, l, Store(LowFlagsOnly(e)), o);
    InsertCount(Tables(f), st.pool, st.root, 3, va, l, Store(LowFlagsOnly(e)), o);
    StoredEntry(e, f, l);
  }

  lemma HitCounts(st: Mem, src: seq<Slot>, e: Pte, va: Va, l: nat, h: Hit<Mem>, f: Frame)
    requires AllShaped(src) && MemOk(st, src) && IsVa(va) && l <= 2 && Floor(va, l) == va && LeafAt(src, 3, va, l)
    requires View(st.root, 3, va) == Nothing && h == CloneHit(st, Leaf(e), va, l) && h.ret == 0
    requires AllShaped(h.st.root)
    requires Suffix(h.st.pool, st.pool) && (e.frame == f ==> f !in st.pool)
    ensures Moves(f, if e.frame == f then 1 else 0, TallyOf(f, st), TallyOf(f, h.st))
  {
    var o := Insert(st.pool, st.root, 3, va, l, Store(LowFlagsOnly(e)));
    MirrorVacant(st.root, src, 3, va, l);
    HitInserts(st, src, e, va, l, h, o);
    HitRefs(st, e, o.st, h.st.ref, f);
    HitTrees(st, e, va, l, o, f);
    SuffixDistinct(st.pool, o.st, f);
  }

  // ---- The entries of a whole table, one after the other ----

  /** All visits of a walk over the whole address space. */
  function Everything(src: seq<Slot>): seq<Visit>
    requires AllShaped(src)
  {
    Visits(src, 3, FIRST, LAST, 0)
  }

  predicate Covers(t: Visit, v: Va) { IsVa(t.va) && IsVa(v) && Shares(v, t.va, t.level, 3) }

  /** The visit is of an entry of the source. */
  predicate IsEntry(src: seq<Slot>, t: Visit)
    requires AllShaped(src)
  {
    && IsVa(t.va) && t.level <= 2 && Floor(t.va, t.level) == t.va && t.x.Leaf? && Proper(t.x, t.level)
    && LeafAt(src, 3, t.va, t.level) && View(src, 3, t.va) == Seen(t.x.e, t.level)
  }

  lemma {:induction false} SeenLeaf(sub: seq<Slot>, level: nat, v: Va, e: Pte, l: nat)
    requires Tidy(sub, level) && AllShaped(sub) && level <= 3 && IsVa(v) && l <= level
    requires View(sub, level, v) == Seen(e, l)
    ensures LeafAt(sub, level, v, l) && Proper(Leaf(e), l) && (level == 3 ==> l <= 2)
    decreases level
  {
    var x := sub[v[level]];
    assert Proper(x, level);
    if x.Dir? {
      LevelBound(x.sub, level - 1, v);
      SeenLeaf(x.sub, level - 1, v, e, l);
    }
  }

  /** An entry shows at every page of its slot. */
  lemma {:induction false} LeafShows(sub: seq<Slot>, level: nat, va: Va, l: nat, v: Va)
    requires AllShaped(sub) && IsVa(va) && IsVa(v) && l <= level <= 3 && LeafAt(sub, level, va, l)
    requires Shares(v, va, l, level)
    ensures View(sub, level, v) == View(sub, level, va)
    decreases level
  {
    assert v[level] == va[level];
    if level > l { LeafShows(sub[va[level]].sub, level - 1, va, l, v); }
  }

  lemma PrecedesApart(t: Visit, u: Visit, v: Va)
    requires Precedes(t, u) && Floor(u.va, u.level) == u.va && Covers(t, v)
    ensures !Covers(u, v)
  {
    if Covers(u, v) {
      assert u.va == Floor(v, u.level) by { assert forall j :: 0 <= j < 4 ==> u.va[j] == Floor(u.va, u.level)[j]; }
      assert Top(t.va, t.level) == Top(v, t.level);
      FloorTop(v, u.level, t.level, 3);
      LeTrans(Floor(v, u.level), v, Top(v, t.level), 3);
    }
  }

  lemma {:induction false} FloorTop(v: Va, l: nat, m: nat, level: nat)
    requires IsVa(v) && level <= 3
    ensures Le(Floor(v, l), v, level) && Le(v, Top(v, m), level)
  {
    if level > 0 { FloorTop(v, l, m, level - 1); }
  }

  /** The visits of a walk over a whole table, for either clone: entries of the source, apart from each other. */
  ghost predicate Listing(src: seq<Slot>, vs: seq<Visit>)
    requires AllShaped(src)
  {
    && (forall t <- vs :: IsEntry(src, t))
    && (forall m, n, v :: 0 <= m < n < |vs| && Covers(vs[m], v) ==> !Covers(vs[n], v))
  }

  /** Whatever maps v in the source is visited. */
  ghost predicate Exhaustive(src: seq<Slot>, vs: seq<Visit>)
    requires AllShaped(src)
  {
    forall v :: IsVa(v) && View(src, 3, v).Seen? ==>
        Visit(Floor(v, View(src, 3, v).level), View(src, 3, v).level, Leaf(View(src, 3, v).e)) in vs
  }

  lemma VisitsAreEntries(src: seq<Slot>, vs: seq<Visit>)
    requires Tidy(src, 3) && AllShaped(src) && forall t <- vs :: Sound(t, src, 3, FIRST, LAST, 0)
    ensures forall t <- vs :: IsEntry(src, t)
  {
    forall t | t in vs ensures IsEntry(src, t) {
      assert Sound(t, src, 3, FIRST, LAST, 0);
      SeenLeaf(src, 3, t.va, t.x.e, t.level);
    }
  }

  lemma VisitsAreApart(src: seq<Slot>, vs: seq<Visit>)
    requires AllShaped(src) && Ascending(vs) && forall t <- vs :: IsEntry(src, t)
    ensures Listing(src, vs)
  {
    forall m, n, v | 0 <= m < n < |vs| && Covers(vs[m], v) ensures !Covers(vs[n], v) {
      assert IsEntry(src, vs[n]);
      PrecedesApart(vs[m], vs[n], v);
    }
  }

  lemma VisitsAreAll(src: seq<Slot>, vs: seq<Visit>)
    requires AllShaped(src)
    requires forall v :: Met(src, FIRST, LAST, v) ==>
          Visit(Floor(v, View(src, 3, v).level), View(src, 3, v).level, Leaf(View(src, 3, v).e)) in vs
    ensures Exhaustive(src, vs)
  {
    forall v | IsVa(v) && View(src, 3, v).Seen?
      ensures Visit(Floor(v, View(src, 3, v).level), View(src, 3, v).level, Leaf(View(src, 3, v).e)) in vs
    {
      AllWithin(v, View(src, 3, v).level, 3);
      assert Met(src, FIRST, LAST, v);
    }
  }

  lemma WalkIsFold<S(!new)>(k: Walker<S>, st: S, src: seq<Slot>, vs: seq<Visit>, r: End<S>, o: Out<S>)
    requires k.create.NoCreate? && KeepsSlots(k.cb) && Tidy(src, 3) && AllShaped(src) && vs == Everything(src)
    requires r == Fold(k.cb, st, vs)
    requires o == Walk(k, st, src, 3, FIRST, LAST)
    ensures o == Out(r.st, src, r.ret) && Listing(src, vs) && Exhaustive(src, vs)
  {
    WalkVisits(k, st, src, FIRST, LAST, vs, o);
    VisitsAreEntries(src, vs);
    VisitsAreApart(src, vs);
    VisitsAreAll(src, vs);
  }

  lemma AllWithin(v: Va, l: nat, level: nat)
    requires IsVa(v) && level <= 3
    ensures Within(Floor(FIRST, l), Top(LAST, l), v, level)
  {
    LeZero(Floor(FIRST, l), v, level);
    LeZero(v, Top(LAST, l), level);
  }

  // ---- The clone as a fold ----

  function CloneCb(): (Mem, Slot, Va, nat) -> Hit<Mem> { Cloner().cb }

  /** No visit's pages have an entry yet. */
  ghost predicate Fresh(root: seq<Slot>, vs: seq<Visit>)
    requires AllShaped(root)
  {
    forall t <- vs :: IsVa(t.va) ==> View(root, 3, t.va) == Nothing
  }

  /** What page v shows once the visits have been copied, f being what is made of an entry. */
  function Shows(make: (Visit) -> Seen, vs: seq<Visit>, v: Va, was: Seen): Seen {
    if vs == [] then was else if Covers(vs[0], v) then make(vs[0]) else Shows(make, vs[1..], v, was)
  }

  function LowSeen(t: Visit): Seen { if t.x.Leaf? then SeenAs(LowFlagsOnly(t.x.e), t.level) else Nothing }

  lemma {:induction false} ShowsNone(make: (Visit) -> Seen, vs: seq<Visit>, v: Va, was: Seen)
    requires forall n :: 0 <= n < |vs| ==> !Covers(vs[n], v)
    ensures Shows(make, vs, v, was) == was
  {
    if vs != [] { ShowsNone(make, vs[1..], v, was); }
  }

  lemma {:induction false} ShowsSome(make: (Visit) -> Seen, vs: seq<Visit>, v: Va, was: Seen, n: nat)
    requires n < |vs| && Covers(vs[n], v) && forall m :: 0 <= m < n ==> !Covers(vs[m], v)
    ensures Shows(make, vs, v, was) == make(vs[n])
  {
    if n > 0 { ShowsSome(make, vs[1..], v, was, n - 1); }
  }

  /** Over the whole listing, v shows what is made of the entry that maps it in the source, or what it showed
      before. */
  lemma ShowsSource(make: (Visit) -> Seen, src: seq<Slot>, vs: seq<Visit>, v: Va, was: Seen)
    requires AllShaped(src) && Listing(src, vs) && Exhaustive(src, vs) && IsVa(v)
    ensures Shows(make, vs, v, was) ==
            match View(src, 3, v) case Nothing => was case Seen(e, l) => make(Visit(Floor(v, l), l, Leaf(e)))
  {
    if View(src, 3, v).Seen? {
      var l, e := View(src, 3, v).level, View(src, 3, v).e;
      var n :| 0 <= n < |vs| && vs[n] == Visit(Floor(v, l), l, Leaf(e));
      assert Covers(vs[n], v);
      forall m | 0 <= m < n ensures !Covers(vs[m], v) { }
      ShowsSome(make, vs, v, was, n);
    } else {
      forall n | 0 <= n < |vs| ensures !Covers(vs[n], v) {
        assert IsEntry(src, vs[n]);
        if Covers(vs[n], v) { LeafShows(src, 3, vs[n].va, vs[n].level, v); }
      }
      ShowsNone(make, vs, v, was);
    }
  }

  lemma FreshNext(root: seq<Slot>, now: seq<Slot>, src: seq<Slot>, vs: seq<Visit>, made: Seen)
    requires AllShaped(src) && AllShaped(root) && AllShaped(now) && vs != [] && IsVa(vs[0].va) && Listing(src, vs)
    requires Fresh(root, vs)
    requires forall v :: IsVa(v) ==> View(now, 3, v) == if Shares(v, vs[0].va, vs[0].level, 3) then made
          else View(root, 3, v)
    ensures Fresh(now, vs[1..]) && Listing(src, vs[1..])
  {
    forall t | t in vs[1..] && IsVa(t.va) ensures View(now, 3, t.va) == Nothing {
      var n :| 1 <= n < |vs| && vs[n] == t;
      assert Covers(vs[n], t.va);
      assert !Covers(vs[0], t.va);
    }
    assert forall t :: t in vs[1..] ==> t in vs;
  }

  lemma {:induction false} CloneFold(st: Mem, src: seq<Slot>, vs: seq<Visit>, r: End<Mem>)
    requires AllShaped(src) && MemOk(st, src) && Listing(src, vs) && Fresh(st.root, vs)
    requires r == Fold(CloneCb(), st, vs) && r.ret == 0
    ensures MemOk(r.st, src) && Suffix(r.st.pool, st.pool)
    ensures forall v :: IsVa(v) ==> View(r.st.root, 3, v) == Shows(LowSeen, vs, v, View(st.root, 3, v))
    decreases |vs|
  {
    if vs != [] {
      var t := vs[0];
      assert IsEntry(src, t);
      var h := CloneHit(st, t.x, t.va, t.level);
      HitKeeps(st, src, t.x.e, t.va, t.level, h);
      FreshNext(st.root, h.st.root, src, vs, LowSeen(t));
      CloneFold(h.st, src, vs[1..], r);
      forall v | IsVa(v) ensures View(r.st.root, 3, v) == Shows(LowSeen, vs, v, View(st.root, 3, v)) {
        if Covers(t, v) { ShowsNone(LowSeen, vs[1..], v, View(h.st.root, 3, v)); }
      }
    }
  }

  // ---- The counts ----

  /** The visits of entries that name f. */
  function Naming(vs: seq<Visit>, f: Frame): nat {
    if vs == [] then 0 else (if vs[0].x.Leaf? && vs[0].x.e.frame == f then 1 else 0) + Naming(vs[1..], f)
  }

  lemma {:induction false} NamingJoin(vs: seq<Visit>, ws: seq<Visit>, f: Frame)
    ensures Naming(vs + ws, f) == Naming(vs, f) + Naming(ws, f)
  {
    if vs == [] {
      assert vs + ws == ws;
    } else {
      assert (vs + ws)[1..] == vs[1..] + ws;
      NamingJoin(vs[1..], ws, f);
    }
  }

  /** The walk covers the table whole. */
  predicate Whole(s: Va, e: Va, level: nat)
    requires IsVa(s) && IsVa(e) && level <= 3
  {
    forall j :: 0 <= j <= level ==> s[j] == 0 && e[j] == ENTRIES - 1
  }

  lemma WholeBelow(s: Va, e: Va, level: nat, i: nat, lo: Va, hi: Va)
    requires 0 < level <= 3 && IsVa(s) && IsVa(e) && Whole(s, e, level) && i < ENTRIES
    requires lo == Lo(s, level, i) && hi == Hi(s, e, level, i)
    ensures Whole(lo, hi, level - 1) && lo[level - 1] == 0
  {}

  lemma NamingLeaf(x: Slot, level: nat, s: Va, e: Va, i: nat, f: Frame)
    requires Proper(x, level) && Shaped(x) && !x.Dir? && level <= 3 && IsVa(s) && IsVa(e) && i < ENTRIES
    ensures Naming(SlotVisits(x, level, s, e, i), f) == Count(Entries(f), x, level)
  {}

  lemma {:induction false} NamingSlot(x: Slot, level: nat, s: Va, e: Va, i: nat, f: Frame)
    requires Proper(x, level) && Shaped(x) && level <= 3 && IsVa(s) && IsVa(e) && Whole(s, e, level) && i < ENTRIES
    ensures Naming(SlotVisits(x, level, s, e, i), f) == Count(Entries(f), x, level)
    decreases level, 0
  {
    if x.Dir? {
      var lo, hi := Lo(s, level, i), Hi(s, e, level, i);
      WholeBelow(s, e, level, i, lo, hi);
      NamingTable(x.sub, level - 1, lo, hi, 0, f);
      CountDir(Entries(f), x, level);
      assert SlotVisits(x, level, s, e, i) == Visits(x.sub, level - 1, lo, hi, 0);
    } else {
      NamingLeaf(x, level, s, e, i, f);
    }
  }

  lemma {:induction false} NamingTable(sub: seq<Slot>, level: nat, s: Va, e: Va, i: nat, f: Frame)
    requires Tidy(sub, level) && AllShaped(sub) && level <= 3 && IsVa(s) && IsVa(e) && Whole(s, e, level)
    requires i <= ENTRIES
    ensures Naming(Visits(sub, level, s, e, i), f) == All(Entries(f), sub, level) - Kids(Entries(f), sub, level, i)
    decreases level, ENTRIES + 1 - i
  {
    if i < ENTRIES {
      NamingSlot(sub[i], level, s, e, i, f);
      NamingTable(sub, level, s, e, i + 1, f);
      NamingJoin(SlotVisits(sub[i], level, s, e, i), Visits(sub, level, s, e, i + 1), f);
    }
  }

  /** A walk visits as many entries that name f as the table holds. */
  lemma NamingAll(src: seq<Slot>, f: Frame)
    requires Tidy(src, 3) && AllShaped(src)
    ensures Naming(Everything(src), f) == All(Entries(f), src, 3)
  {
    NamingTable(src, 3, FIRST, LAST, 0, f);
  }

  /** No entry still to copy names a page of the pool. */
  predicate Allocated(t: Tally, n: int) { t.free ==> n == 0 }

  lemma MovesCompose(f: Frame, m: int, n: int, t: Tally, u: Tally, w: Tally)
    requires m >= 0 && n >= 0 && Allocated(t, m + n) && Moves(f, m, t, u) && (Allocated(u, n) ==> Moves(f, n, u, w))
    ensures Moves(f, m + n, t, w)
  {}

  lemma {:induction false} TallyFold(st: Mem, src: seq<Slot>, vs: seq<Visit>, r: End<Mem>, f: Frame)
    requires AllShaped(src) && MemOk(st, src) && Listing(src, vs) && Fresh(st.root, vs)
    requires r == Fold(CloneCb(), st, vs) && r.ret == 0
    requires AllShaped(r.st.root) && Allocated(TallyOf(f, st), Naming(vs, f))
    ensures Moves(f, Naming(vs, f), TallyOf(f, st), TallyOf(f, r.st))
    decreases |vs|
  {
    if vs != [] {
      var t := vs[0];
      assert IsEntry(src, t);
      var h := CloneHit(st, t.x, t.va, t.level);
      HitKeeps(st, src, t.x.e, t.va, t.level, h);
      FreshNext(st.root, h.st.root, src, vs, LowSeen(t));
      HitCounts(st, src, t.x.e, t.va, t.level, h, f);
      var m, n, u := if t.x.e.frame == f then 1 else 0, Naming(vs[1..], f), TallyOf(f, h.st);
      if Allocated(u, n) { TallyFold(h.st, src, vs[1..], r, f); }
      MovesCompose(f, m, n, TallyOf(f, st), u, TallyOf(f, r.st));
    }
  }

  // ---- dune_vm_clone ----

  /** After the new root has been allocated and zeroed. */
  function Start(ref: map<Frame, int>, pool: seq<Frame>): Mem
    requires pool != []
  {
    Mem(ZEROS, ref[pool[0] := 1], pool[1..])
  }

  /** The pool's free pages are pages of the pool, each listed once; the source is a proper table. */
  ghost predicate CanStart(ref: map<Frame, int>, pool: seq<Frame>, src: seq<Slot>) {
    && pool != [] && Distinct(pool) && (forall f <- pool :: f in ref) && Tidy(src, 3) && AllShaped(src)
  }

  lemma BlankFresh(vs: seq<Visit>)
    ensures AllShaped(ZEROS) && Fresh(ZEROS, vs)
  {
    forall t | t in vs && IsVa(t.va) ensures View(ZEROS, 3, t.va) == Nothing { ZerosView(3, t.va); }
  }

  lemma StartOk(ref: map<Frame, int>, pool: seq<Frame>, src: seq<Slot>)
    requires CanStart(ref, pool, src)
    ensures MemOk(Start(ref, pool), src)
  {
    ZerosTidy(3);
    MirrorZeros(src, 3);
    forall f | f in pool[1..] ensures f in Start(ref, pool).ref { assert f in pool; }
  }

  function Clone(ref: map<Frame, int>, pool: seq<Frame>, src: seq<Slot>): Out<Mem>
    requires pool != [] && AllShaped(src)
  {
    Walk(Cloner(), Start(ref, pool), src, 3, FIRST, LAST)
  }

  lemma ClonerKeeps()
    ensures KeepsSlots(Cloner().cb)
  {}

  /** The source stays as it is, and the clone maps every page as the source does: same frame,
      same size, and the low 12 flag bits. */
  lemma CloneRefines(ref: map<Frame, int>, pool: seq<Frame>, src: seq<Slot>, o: Out<Mem>)
    requires CanStart(ref, pool, src) && o == Clone(ref, pool, src) && o.ret == 0
    ensures o.sub == src && Tidy(o.st.root, 3) && AllShaped(o.st.root) && Suffix(o.st.pool, pool[1..])
    ensures forall v :: IsVa(v) ==> View(o.st.root, 3, v) == Low(View(src, 3, v))
  {
    var st, vs := Start(ref, pool), Everything(src);
    var r := Fold(CloneCb(), st, vs);
    StartOk(ref, pool, src);
    ClonerKeeps();
    WalkIsFold(Cloner(), st, src, vs, r, o);
    BlankFresh(vs);
    CloneFold(st, src, vs, r);
    forall v | IsVa(v) ensures View(o.st.root, 3, v) == Low(View(src, 3, v)) {
      ZerosView(3, v);
      ShowsSource(LowSeen, src, vs, v, Nothing);
    }
  }

  lemma StartTally(ref: map<Frame, int>, pool: seq<Frame>, f: Frame)
    requires pool != [] && Distinct(pool) && f in ref
    ensures AllShaped(ZEROS)
    ensures TallyOf(f, Start(ref, pool)) ==
            Tally(true, if f == pool[0] then 1
                else ref[f], f in pool && f != pool[0], 0, 0, Times(pool, f) - if f == pool[0] then 1 else 0)
  {
    KidsZero(Entries(f), 3, ENTRIES);
    KidsZero(Tables(f), 3, ENTRIES);
    TimesCons(pool, f);
    assert pool == [pool[0]] + pool[1..] && pool[0] !in pool[1..];
  }

  lemma CloneTally(ref: map<Frame, int>, pool: seq<Frame>, src: seq<Slot>, o: Out<Mem>, f: Frame)
    requires CanStart(ref, pool, src) && o == Clone(ref, pool, src) && o.ret == 0 && AllShaped(o.st.root)
    requires AllShaped(ZEROS) && Allocated(TallyOf(f, Start(ref, pool)), All(Entries(f), src, 3))
    ensures Moves(f, All(Entries(f), src, 3), TallyOf(f, Start(ref, pool)), TallyOf(f, o.st))
  {
    var st, vs := Start(ref, pool), Everything(src);
    var r := Fold(CloneCb(), st, vs);
    StartOk(ref, pool, src);
    ClonerKeeps();
    WalkIsFold(Cloner(), st, src, vs, r, o);
    BlankFresh(vs);
    NamingAll(src, f);
    TallyFold(st, src, vs, r, f);
  }

  /** Each page of the pool gains one reference for each entry of the source that names it; the
      clone's own tables are pages taken from the pool, with count 1. */
  lemma CloneCounts(ref: map<Frame, int>, pool: seq<Frame>, src: seq<Slot>, o: Out<Mem>, f: Frame)
    requires CanStart(ref, pool, src) && o == Clone(ref, pool, src) && o.ret == 0 && AllShaped(o.st.root) && f in ref
    requires f in pool ==> All(Entries(f), src, 3) == 0
    ensures f in o.st.ref
    ensures o.st.ref[f] == (if f in pool && f !in o.st.pool then 1 else ref[f]) + All(Entries(f), src, 3)
    ensures f != Frame(0) ==> All(Entries(f), o.st.root, 3) == All(Entries(f), src, 3)
    ensures All(Tables(f), o.st.root, 3) + (if f == pool[0] then 1 else 0) == Times(pool, f) - Times(o.st.pool, f)
    ensures f in o.st.pool ==> f in pool && f != pool[0]
  {
    StartTally(ref, pool, f);
    CloneTally(ref, pool, src, o, f);
  }
}
