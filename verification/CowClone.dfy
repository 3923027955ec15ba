/**
 dune_vm_my_clone with pgtable_cow_copy (libdune/fast_spawn.c): one walk of the live table that
 fills the two shadow tables, the main one and the snapshot's.
 */
module CowClone {
  import opened Options
  import opened PageEntry
  import opened PageTable
  import opened PageTableView
  import opened PageTableInsert
  import opened PageTableVisits
  import opened PageTableClone

  // ---- Regions and entries ----

  /** The page pool, the regions that both sides share, and everything else. */
  datatype Region = Pool | Shared | Ordinary

  /** The pages of the allocator's own data. */
  datatype Layout = Layout(metaBegin: int, metaEnd: int)

  const PAGEBASE := 0x10_0000 // as page numbers, like the following
  const PAGEBASE_END := 0x30_0000
  const IPI_BASE := 0x8_0000_0000 // page 0xffff800000000, whose upper bits the table does not index
  const IPI_PAGES := 1035 // rings, working memory and shared state
  const APIC_BASE := 0xF_FFFF_FFFF
  const POSTED_BASE := 0x2_0000_0000
  const POSTED_PAGES := 104

  function RegionOf(k: Layout, n: int): Region {
    if PAGEBASE <= n < PAGEBASE_END then Pool
    else if IPI_BASE <= n < IPI_BASE + IPI_PAGES || n >= APIC_BASE || POSTED_BASE <= n < POSTED_BASE + POSTED_PAGES
            || k.metaBegin <= n < k.metaEnd then Shared
    else Ordinary
  }

  /** canonical_virtual_address leaves the page that the tables index, and moves the upper half up as a whole. */
  function Canonical(n: bv64): bv64 { if n < 0x8000_0000_0000 then n else n | 0xffff_0000_0000_0000 }

  lemma CanonicalHalves(n: bv64)
    requires n < 0x1_0000_0000_0000
    ensures n < 0x8000_0000_0000 ==> Canonical(n) == n
    ensures n >= 0x8000_0000_0000 ==> Canonical(n) == n + 0xffff_0000_0000_0000
  {}

  /** The entry that each shadow gets. */
  function Copy1(r: Region, e: Pte): Pte {
    match r case Pool => LowFlagsOnly(e) case Shared => e.(a := false, lock := false) case Ordinary => Shadow1(e)
  }

  function Copy2(r: Region, e: Pte): Pte {
    match r case Pool => LowFlagsOnly(e) case Shared => e.(a := false, lock := false) case Ordinary => Shadow2(e)
  }

  /** The entries that the copy write-protects. */
  predicate Protects(r: Region, e: Pte) { e.p && e.w && r.Ordinary? && !e.stack && !e.nocow }

  /** c is a right shadow of e: it names the same frame, and is read-only with COW set where e was present,
      writable, outside the special regions and neither STACK nor NOCOW; elsewhere it keeps both bits. */
  predicate RightShadow(r: Region, e: Pte, c: Pte) {
    && c.frame == e.frame && c.p == e.p
        && (if Protects(r, e) then !c.w && c.cow else c.w == e.w && c.cow == e.cow) && (!r.Pool? ==> !c.lock)
  }

  /** Both copies are right shadows, and outside the pool the snapshot's has no accessed bit. */
  lemma CopiesProtect(r: Region, e: Pte)
    requires e.cow ==> !e.w
    ensures RightShadow(r, e, Copy1(r, e))
    ensures RightShadow(r, e, Copy2(r, e)) && (!r.Pool? ==> !Copy2(r, e).a)
  {
    match r {
      case Pool =>
      case Shared =>
      case Ordinary => assert CopyOnWrite(e) == Protects(r, e);
    }
  }

  // ---- The walk ----

  /** The result that stands for a failed assertion: a big entry outside the pool. */
  const ABORT := -1000

  datatype Two = Two(r1: seq<Slot>, r2: seq<Slot>, ref: map<Frame, int>, pool: seq<Frame>)

  /** One entry into one shadow: dune_vm_map_phys_with_pte_flags in the pool, else lookup with creation and a store.
      */
  function Place(r: Region, pool: seq<Frame>, root: seq<Slot>, va: Va, level: nat, c: Pte): (o: Out<seq<Frame>>)
    requires AllShaped(root) && IsVa(va) && level <= 2
    ensures |o.sub| == ENTRIES
  {
    if r.Pool? then Walk(Mapper(Plan(c, CreateFor(level), va, 0, n => c.frame)), pool, root, 3, va, Top(va, level))
    else Insert(pool, root, 3, va, level, Store(c))
  }

  function CowHit(k: Layout, st: Two, x: Slot, va: Va, level: nat): Hit<Two> {
    if x.Leaf? && IsVa(va) && level <= 2 && AllShaped(st.r1) && AllShaped(st.r2) then
      var r := RegionOf(k, Number(va));
      if !r.Pool? && level > 0 then Hit(st, x, ABORT)
      else
        var a := Place(r, st.pool, st.r1, va, level, Copy1(r, x.e));
        if a.ret != 0 then Hit(st.(r1 := a.sub, ref := Took(st.ref, st.pool, a.st), pool := a.st), x, a.ret)
        else
          var b := Place(r, a.st, st.r2, va, level, Copy2(r, x.e));
          var ref := Took(st.ref, st.pool, b.st);
          Hit(Two(a.sub, b.sub, if b.ret != 0 then Get(ref, x.e.frame)
              else Get(Get(ref, x.e.frame), x.e.frame), b.st), x, b.ret)
    else Hit(st, x, 0)
  }

  function CowCloner(k: Layout): Walker<Two> {
    Walker((st: Two, x: Slot, va: Va, level: nat) => CowHit(k, st, x, va, level), NoCreate, st => Grant(st, None))
  }

  // ---- One entry ----

  lemma PlanEntry(c: Pte, va: Va, l: nat)
    requires IsVa(va)
    ensures Entry(Plan(c, CreateFor(l), va, 0, n => c.frame), va) == c
  {
    assert c.(frame := c.frame) == c;
  }

  lemma PlaceIsInsert(r: Region, pool: seq<Frame>, root: seq<Slot>, va: Va, l: nat, c: Pte, o: Out<seq<Frame>>)
    requires AllShaped(root) && IsVa(va) && l <= 2 && Floor(va, l) == va && Clear(root, 3, va, l)
    requires o == Place(r, pool, root, va, l, c)
    ensures o == Insert(pool, root, 3, va, l, Store(c))
  {
    if r.Pool? {
      PlanEntry(c, va, l);
      WalkIsInsert(Plan(c, CreateFor(l), va, 0, n => c.frame), pool, root, 3, va, Top(va, l), Store(c), o);
    }
  }

  ghost predicate RootOk(root: seq<Slot>, src: seq<Slot>)
    requires AllShaped(src)
  {
    AllShaped(root) && Mirrors(root, src, 3)
  }

  /** What placing an entry for va does to a shadow. */
  ghost predicate Placed(root: seq<Slot>, now: seq<Slot>, va: Va, l: nat, c: Pte)
    requires AllShaped(root) && AllShaped(now) && IsVa(va) && l <= 2
  {
    forall v :: IsVa(v) ==> View(now, 3, v) == if Shares(v, va, l, 3) then SeenAs(c, l) else View(root, 3, v)
  }

  lemma PlaceKeeps(r: Region, pool: seq<Frame>, root: seq<Slot>, src: seq<Slot>, va: Va, l: nat, c: Pte,
      o: Out<seq<Frame>>)
    requires AllShaped(src) && RootOk(root, src) && IsVa(va) && l <= 2 && Floor(va, l) == va && LeafAt(src, 3, va, l)
    requires View(root, 3, va) == Nothing && o == Place(r, pool, root, va, l, c) && o.ret == 0
    ensures RootOk(o.sub, src) && Placed(root, o.sub, va, l, c) && Suffix(o.st, pool)
  {
    MirrorVacant(root, src, 3, va, l);
    VacantIsClear(root, 3, va, l);
    PlaceIsInsert(r, pool, root, va, l, c, o);
    InsertView(pool, root, 3, va, l, Store(c), o, va);
    MirrorInsert(pool, root, src, 3, va, l, Store(c), o);
    InsertPool(pool, root, 3, va, l, Store(c), o);
    forall v | IsVa(v) ensures View(o.sub, 3, v) == if Shares(v, va, l, 3) then SeenAs(c, l) else View(root, 3, v) {
      InsertView(pool, root, 3, va, l, Store(c), o, v);
    }
  }

  ghost predicate TwoOk(st: Two, src: seq<Slot>)
    requires AllShaped(src)
  {
    RootOk(st.r1, src) && RootOk(st.r2, src)
  }

  lemma HitPlaces(k: Layout, st: Two, src: seq<Slot>, e: Pte, va: Va, l: nat, h: Hit<Two>)
    requires AllShaped(src) && TwoOk(st, src) && IsVa(va) && l <= 2 && Floor(va, l) == va && LeafAt(src, 3, va, l)
    requires View(st.r1, 3, va) == Nothing && View(st.r2, 3, va) == Nothing && h == CowHit(k, st, Leaf(e), va, l)
    requires h.ret == 0
    ensures h.slot == Leaf(e) && TwoOk(h.st, src) && (forall f :: f in h.st.pool ==> f in st.pool)
    ensures Placed(st.r1, h.st.r1, va, l, Copy1(RegionOf(k, Number(va)), e))
    ensures Placed(st.r2, h.st.r2, va, l, Copy2(RegionOf(k, Number(va)), e))
    ensures h.st.ref == Get(Get(Took(st.ref, st.pool, h.st.pool), e.frame), e.frame)
  {
    var r := RegionOf(k, Number(va));
    var a := Place(r, st.pool, st.r1, va, l, Copy1(r, e));
    PlaceKeeps(r, st.pool, st.r1, src, va, l, Copy1(r, e), a);
    var b := Place(r, a.st, st.r2, va, l, Copy2(r, e));
    PlaceKeeps(r, a.st, st.r2, src, va, l, Copy2(r, e), b);
  }

  // ---- All entries ----

  /** What the shadows must show where the source shows was. */
  function Via1(k: Layout, was: Seen, v: Va): Seen
    requires IsVa(v)
  {
    match was case Nothing => Nothing case Seen(e, l) => SeenAs(Copy1(RegionOf(k, Number(Floor(v, l))), e), l)
  }

  function Via2(k: Layout, was: Seen, v: Va): Seen
    requires IsVa(v)
  {
    match was case Nothing => Nothing case Seen(e, l) => SeenAs(Copy2(RegionOf(k, Number(Floor(v, l))), e), l)
  }

  /** What the copy makes of a visited entry, in each shadow. */
  function Make1(k: Layout): Visit -> Seen {
    (t: Visit) => if t.x.Leaf? && IsVa(t.va) then SeenAs(Copy1(RegionOf(k, Number(t.va)), t.x.e), t.level)
        else Nothing
  }

  function Make2(k: Layout): Visit -> Seen {
    (t: Visit) => if t.x.Leaf? && IsVa(t.va) then SeenAs(Copy2(RegionOf(k, Number(t.va)), t.x.e), t.level)
        else Nothing
  }

  /** f, a page that is not free, gains two references for each of n entries. */
  predicate Gains(f: Frame, n: int, st: Two, now: Two) {
    f in st.ref && f !in st.pool ==> f in now.ref && f !in now.pool && now.ref[f] == st.ref[f] + 2 * n
  }

  lemma GetsGain(st: Two, now: Two, e: Pte, f: Frame)
    requires now.ref == Get(Get(Took(st.ref, st.pool, now.pool), e.frame), e.frame)
    requires f in now.pool ==> f in st.pool
    ensures Gains(f, if e.frame == f then 1 else 0, st, now)
  {}

  lemma GainCompose(f: Frame, m: int, n: int, st: Two, mid: Two, now: Two)
    requires Gains(f, m, st, mid) && Gains(f, n, mid, now)
    ensures Gains(f, m + n, st, now)
  {}

  /** One visit: both shadows show the copy at its pages and are as before elsewhere. */
  lemma VisitPlaces(k: Layout, st: Two, src: seq<Slot>, t: Visit, h: Hit<Two>, f: Frame)
    requires AllShaped(src) && TwoOk(st, src) && IsEntry(src, t) && View(st.r1, 3, t.va) == Nothing
    requires View(st.r2, 3, t.va) == Nothing
    requires h == CowHit(k, st, t.x, t.va, t.level) && h.ret == 0
    ensures TwoOk(h.st, src) && Gains(f, if t.x.e.frame == f then 1 else 0, st, h.st)
    ensures forall v :: IsVa(v) ==> View(h.st.r1, 3, v) == if Shares(v, t.va, t.level, 3) then Make1(k)(t)
          else View(st.r1, 3, v)
    ensures forall v :: IsVa(v) ==> View(h.st.r2, 3, v) == if Shares(v, t.va, t.level, 3) then Make2(k)(t)
          else View(st.r2, 3, v)
  {
    HitPlaces(k, st, src, t.x.e, t.va, t.level, h);
    GetsGain(st, h.st, t.x.e, f);
  }

  ghost predicate Ready(st: Two, src: seq<Slot>, vs: seq<Visit>)
    requires AllShaped(src)
  {
    TwoOk(st, src) && Listing(src, vs) && Fresh(st.r1, vs) && Fresh(st.r2, vs)
  }

  lemma {:induction false} CopyFold(k: Layout, st: Two, src: seq<Slot>, vs: seq<Visit>, r: End<Two>, f: Frame)
    requires AllShaped(src) && Ready(st, src, vs) && r == Fold(CowCloner(k).cb, st, vs) && r.ret == 0
    ensures TwoOk(r.st, src) && Gains(f, Naming(vs, f), st, r.st)
    ensures forall v :: IsVa(v) ==> View(r.st.r1, 3, v) == Shows(Make1(k), vs, v, View(st.r1, 3, v))
    ensures forall v :: IsVa(v) ==> View(r.st.r2, 3, v) == Shows(Make2(k), vs, v, View(st.r2, 3, v))
    decreases |vs|
  {
    if vs != [] {
      var t := vs[0];
      assert IsEntry(src, t);
      var h := CowHit(k, st, t.x, t.va, t.level);
      VisitPlaces(k, st, src, t, h, f);
      FreshNext(st.r1, h.st.r1, src, vs, Make1(k)(t));
      FreshNext(st.r2, h.st.r2, src, vs, Make2(k)(t));
      CopyFold(k, h.st, src, vs[1..], r, f);
      GainCompose(f, if t.x.e.frame == f then 1 else 0, Naming(vs[1..], f), st, h.st, r.st);
      ShowsNext(Make1(k), src, vs, st.r1, h.st.r1, r.st.r1);
      ShowsNext(Make2(k), src, vs, st.r2, h.st.r2, r.st.r2);
    }
  }

  lemma ShowsNext(make: Visit -> Seen, src: seq<Slot>, vs: seq<Visit>, root: seq<Slot>, mid: seq<Slot>,
      now: seq<Slot>)
    requires AllShaped(src) && AllShaped(root) && AllShaped(mid) && AllShaped(now) && vs != [] && IsVa(vs[0].va)
    requires Listing(src, vs)
    requires forall v :: IsVa(v) ==> View(mid, 3, v) == if Shares(v, vs[0].va, vs[0].level, 3) then make(vs[0])
          else View(root, 3, v)
    requires forall v :: IsVa(v) ==> View(now, 3, v) == Shows(make, vs[1..], v, View(mid, 3, v))
    ensures forall v :: IsVa(v) ==> View(now, 3, v) == Shows(make, vs, v, View(root, 3, v))
  {
    forall v | IsVa(v) ensures View(now, 3, v) == Shows(make, vs, v, View(root, 3, v)) {
      if Covers(vs[0], v) {
        forall n | 0 <= n < |vs[1..]| ensures !Covers(vs[1..][n], v) { assert vs[1..][n] == vs[n + 1]; }
        ShowsNone(make, vs[1..], v, View(mid, 3, v));
      }
    }
  }

  /** A present entry of the source shows in both shadows, as a right shadow of it. */
  lemma PresentShown(k: Layout, e: Pte, l: nat, v: Va)
    requires IsVa(v) && e.p && (e.cow ==> !e.w)
    ensures var r := RegionOf(k, Number(Floor(v, l)));
            && Via1(k, Seen(e, l), v) == Seen(Copy1(r, e), l) && RightShadow(r, e, Copy1(r, e))
            && Via2(k, Seen(e, l), v) == Seen(Copy2(r, e), l) && RightShadow(r, e, Copy2(r, e))
  {
    CopiesProtect(RegionOf(k, Number(Floor(v, l))), e);
  }

  // ---- dune_vm_my_clone ----

  /** After both roots have been allocated and zeroed. */
  function Start2(ref: map<Frame, int>, pool: seq<Frame>): Two
    requires |pool| >= 2
  {
    Two(ZEROS, ZEROS, Took(ref, pool, pool[2..]), pool[2..])
  }

  function MyClone(k: Layout, ref: map<Frame, int>, pool: seq<Frame>, src: seq<Slot>): Out<Two>
    requires |pool| >= 2 && AllShaped(src)
  {
    Walk(CowCloner(k), Start2(ref, pool), src, 3, FIRST, LAST)
  }

  lemma Start2Ok(ref: map<Frame, int>, pool: seq<Frame>, src: seq<Slot>, vs: seq<Visit>)
    requires |pool| >= 2 && Tidy(src, 3) && AllShaped(src) && Listing(src, vs)
    ensures Ready(Start2(ref, pool), src, vs)
  {
    MirrorZeros(src, 3);
    BlankFresh(vs);
  }

  lemma CowClonerKeeps(k: Layout)
    ensures KeepsSlots(CowCloner(k).cb)
  {}

  /** The live table stays as it is, and each shadow shows, at every page, the entry that the copy makes of the
      source's entry there; every page in use gains two references for each entry that names it. */
  lemma MyCloneRefines(k: Layout, ref: map<Frame, int>, pool: seq<Frame>, src: seq<Slot>, o: Out<Two>, f: Frame)
    requires |pool| >= 2 && Tidy(src, 3) && AllShaped(src) && o == MyClone(k, ref, pool, src) && o.ret == 0
    ensures o.sub == src && AllShaped(o.st.r1) && AllShaped(o.st.r2)
    ensures forall v :: IsVa(v) ==>
        View(o.st.r1, 3, v) == Via1(k, View(src, 3, v), v)
        && View(o.st.r2, 3, v) == Via2(k, View(src, 3, v), v)
    ensures f in ref && f !in pool ==> f in o.st.ref && o.st.ref[f] == ref[f] + 2 * All(Entries(f), src, 3)
  {
    var st, vs := Start2(ref, pool), Everything(src);
    var r := Fold(CowCloner(k).cb, st, vs);
    CowClonerKeeps(k);
    WalkIsFold(CowCloner(k), st, src, vs, r, o);
    Start2Ok(ref, pool, src, vs);
    CopyFold(k, st, src, vs, r, f);
    NamingAll(src, f);
    forall v | IsVa(v) ensures View(o.st.r1, 3, v) == Via1(k, View(src, 3, v), v)
        && View(o.st.r2, 3, v) == Via2(k, View(src, 3, v), v) {
      ZerosView(3, v);
      ShowsSource(Make1(k), src, vs, v, Nothing);
      ShowsSource(Make2(k), src, vs, v, Nothing);
    }
  }
}
