/** dune_vm_free of libdune/vm.c, and what it leaves of a clone. */
module PageTableFree {
  import opened Options
  import opened PageEntry
  import opened PageTable
  import opened PageTableView
  import opened PageTableInsert
  import opened PageTableClone

  type Refs = map<Frame, int>

  /** dune_page_put, if the page is from the pool; a count of 0 means that the page is free again. */
  function Put(ref: Refs, f: Frame): Refs { if f in ref then ref[f := ref[f] - 1] else ref }

  /** The frame that a slot names. */
  function Named(x: Slot): Frame { match x case Empty => Frame(0) case Leaf(e) => e.frame case Dir(f, _) => f }

  /** __dune_vm_free_helper. */
  function Freer(): Walker<Refs> {
    Walker((ref: Refs, x: Slot, va: Va, level: nat) => Hit(Put(ref, Named(x)), Empty, 0), NoCreate,
        st => Grant(st, None))
  }

  // ---- One walk of the helper ----

  /** What a walk that takes the table to be at the given level leaves of it. */
  function CutSlot(x: Slot, level: nat): (y: Slot)
    requires Shaped(x)
    ensures Shaped(y)
    decreases level, 1
  {
    if Calls(NoCreate, x, level) then Empty
    else if x.Dir? && level > 0 then Dir(x.frame, Cut(x.sub, level - 1))
    else x
  }

  function Cut(sub: seq<Slot>, level: nat): (t: seq<Slot>)
    requires AllShaped(sub)
    ensures AllShaped(t) && forall i :: 0 <= i < ENTRIES ==> t[i] == CutSlot(sub[i], level)
    decreases level, 2
  {
    seq(ENTRIES, i requires 0 <= i < ENTRIES => CutSlot(sub[i], level))
  }

  /** How often such a walk puts frame f. */
  function PutsSlot(f: Frame, x: Slot, level: nat): int
    requires Shaped(x)
    decreases level, 0
  {
    if Calls(NoCreate, x, level) then (if Named(x) == f then 1 else 0)
    else if x.Dir? && level > 0 then Puts(f, x.sub, level - 1, ENTRIES)
    else 0
  }

  function Puts(f: Frame, sub: seq<Slot>, level: nat, n: nat): int
    requires AllShaped(sub) && n <= ENTRIES
    decreases level, n
  {
    if n == 0 then 0 else Puts(f, sub, level, n - 1) + PutsSlot(f, sub[n - 1], level)
  }

  predicate Less(f: Frame, n: int, ref: Refs, now: Refs) {
    (f in now <==> f in ref) && (f in ref ==> now[f] == ref[f] - n)
  }

  lemma {:induction false} FreeRow(ref: Refs, x: Slot, level: nat, s: Va, e: Va, i: nat, f: Frame, h: Hit<Refs>)
    requires Shaped(x) && level <= 3 && IsVa(s) && IsVa(e) && Whole(s, e, level) && i < ENTRIES
    requires h == Row(Freer(), ref, x, level, s, e, i)
    ensures h.ret == 0 && h.slot == CutSlot(x, level) && Less(f, PutsSlot(f, x, level), ref, h.st)
    decreases level, 0
  {
    if !Calls(NoCreate, x, level) && x.Dir? && level > 0 {
      var lo, hi := Lo(s, level, i), Hi(s, e, level, i);
      assert lo == Cur(s, level, i);
      FreeRows(ref, x.sub, level - 1, lo, hi, 0, f, Walk(Freer(), ref, x.sub, level - 1, lo, hi));
      assert Cut(x.sub, level - 1) == Walk(Freer(), ref, x.sub, level - 1, lo, hi).sub;
    }
  }

  /** The slots from i on are cut, and f loses what they put. */
  ghost predicate Freed(f: Frame, ref: Refs, sub: seq<Slot>, level: nat, i: int, o: Out<Refs>)
    requires AllShaped(sub) && 0 <= i <= ENTRIES
  {
    && o.ret == 0 && |o.sub| == ENTRIES
    && (forall j :: 0 <= j < ENTRIES ==> o.sub[j] == if j < i then sub[j] else CutSlot(sub[j], level))
    && Less(f, Puts(f, sub, level, ENTRIES) - Puts(f, sub, level, i), ref, o.st)
  }

  lemma FreedNext(f: Frame, ref: Refs, sub: seq<Slot>, level: nat, i: int, mid: Refs, next: seq<Slot>, o: Out<Refs>)
    requires AllShaped(sub) && AllShaped(next) && 0 <= i < ENTRIES && next == sub[i := CutSlot(sub[i], level)]
    requires Less(f, PutsSlot(f, sub[i], level), ref, mid) && Freed(f, mid, next, level, i + 1, o)
    ensures Freed(f, ref, sub, level, i, o)
  {
    PutsRest(f, sub, next, level, i, ENTRIES);
    PutsRest(f, sub, next, level, i, i + 1);
  }

  lemma {:induction false} FreeRows(ref: Refs, sub: seq<Slot>, level: nat, s: Va, e: Va, i: nat, f: Frame,
      o: Out<Refs>)
    requires AllShaped(sub) && level <= 3 && IsVa(s) && IsVa(e) && Whole(s, e, level) && i <= ENTRIES
    requires o == Rows(Freer(), ref, sub, level, s, e, i)
    ensures Freed(f, ref, sub, level, i, o)
    decreases level, ENTRIES + 1 - i
  {
    if i < ENTRIES {
      var h := Row(Freer(), ref, sub[i], level, s, e, i);
      FreeRow(ref, sub[i], level, s, e, i, f, h);
      var next := sub[i := h.slot];
      FreeRows(h.st, next, level, s, e, i + 1, f, o);
      FreedNext(f, ref, sub, level, i, h.st, next, o);
    }
  }

  lemma FreedIsCut(f: Frame, ref: Refs, sub: seq<Slot>, level: nat, o: Out<Refs>)
    requires AllShaped(sub) && Freed(f, ref, sub, level, 0, o)
    ensures o.sub == Cut(sub, level) && Less(f, Puts(f, sub, level, ENTRIES), ref, o.st)
  {
    assert Puts(f, sub, level, 0) == 0;
  }

  /** Changing slot i changes the puts of the first n slots by that slot's. */
  lemma {:induction false} PutsRest(f: Frame, sub: seq<Slot>, next: seq<Slot>, level: nat, i: nat, n: nat)
    requires AllShaped(sub) && AllShaped(next) && i < ENTRIES && n <= ENTRIES && next == sub[i := next[i]]
    ensures Puts(f, next, level, n) - Puts(f, sub, level, n) == if i < n
          then PutsSlot(f, next[i], level) - PutsSlot(f, sub[i], level) else 0
    decreases n
  {
    if n > 0 { PutsRest(f, sub, next, level, i, n - 1); }
  }

  lemma FreeWalk(ref: Refs, sub: seq<Slot>, level: nat, f: Frame, o: Out<Refs>)
    requires AllShaped(sub) && level <= 3 && o == Walk(Freer(), ref, sub, level, FIRST, LAST)
    ensures o.ret == 0 && o.sub == Cut(sub, level) && Less(f, Puts(f, sub, level, ENTRIES), ref, o.st)
  {
    FreeRows(ref, sub, level, FIRST, LAST, 0, f, o);
    FreedIsCut(f, ref, sub, level, o);
  }

  // ---- The three walks ----

  /** The first walk puts what the entries name. */
  lemma {:induction false} FirstPuts(f: Frame, x: Slot, level: nat)
    requires Proper(x, level) && Shaped(x) && level <= 3
    ensures PutsSlot(f, x, level) == Count(Entries(f), x, level)
    decreases level, 0
  {
    if x.Dir? { FirstKids(f, x.sub, level - 1, ENTRIES); }
  }

  lemma {:induction false} FirstKids(f: Frame, sub: seq<Slot>, level: nat, n: nat)
    requires Tidy(sub, level) && AllShaped(sub) && level <= 3 && n <= ENTRIES
    ensures Puts(f, sub, level, n) == Kids(Entries(f), sub, level, n)
    decreases level, n
  {
    if n > 0 {
      FirstKids(f, sub, level, n - 1);
      FirstPuts(f, sub[n - 1], level);
    }
  }

  /** Below the level of its slots, a kind of table does not occur. */
  lemma {:induction false} NoneAt(k: nat, f: Frame, x: Slot, level: nat)
    requires Proper(x, level) && Shaped(x) && level <= k
    ensures Count(TablesAt(k, f), x, level) == 0
    decreases level, 0
  {
    if x.Dir? { NoneKids(k, f, x.sub, level - 1, ENTRIES); }
  }

  lemma {:induction false} NoneKids(k: nat, f: Frame, sub: seq<Slot>, level: nat, n: nat)
    requires Tidy(sub, level) && AllShaped(sub) && level <= k && n <= ENTRIES
    ensures Kids(TablesAt(k, f), sub, level, n) == 0
    decreases level, n
  {
    if n > 0 {
      NoneKids(k, f, sub, level, n - 1);
      NoneAt(k, f, sub[n - 1], level);
    }
  }

  /** The second walk, which takes every table to be one level lower, puts the page tables. */
  lemma {:induction false} SecondPuts(f: Frame, x: Slot, level: nat)
    requires Proper(x, level) && Shaped(x) && 1 <= level <= 3
    ensures PutsSlot(f, CutSlot(x, level), level - 1) == Count(TablesAt(0, f), x, level)
    decreases level, 0
  {
    if x.Dir? {
      if level == 1 { NoneKids(0, f, x.sub, 0, ENTRIES); } else { SecondKids(f, x.sub, level - 1, ENTRIES); }
    }
  }

  lemma {:induction false} SecondKids(f: Frame, sub: seq<Slot>, level: nat, n: nat)
    requires Tidy(sub, level) && AllShaped(sub) && 1 <= level <= 3 && n <= ENTRIES
    ensures Puts(f, Cut(sub, level), level - 1, n) == Kids(TablesAt(0, f), sub, level, n)
    decreases level, n
  {
    if n > 0 {
      SecondKids(f, sub, level, n - 1);
      SecondPuts(f, sub[n - 1], level);
    }
  }

  /** The third walk puts the page directories. */
  lemma {:induction false} ThirdPuts(f: Frame, x: Slot, level: nat)
    requires Proper(x, level) && Shaped(x) && 2 <= level <= 3
    ensures PutsSlot(f, CutSlot(CutSlot(x, level), level - 1), level - 2) == Count(TablesAt(1, f), x, level)
    decreases level, 0
  {
    if x.Dir? {
      if level == 2 { NoneKids(1, f, x.sub, 1, ENTRIES); } else { ThirdKids(f, x.sub, level - 1, ENTRIES); }
    }
  }

  lemma {:induction false} ThirdKids(f: Frame, sub: seq<Slot>, level: nat, n: nat)
    requires Tidy(sub, level) && AllShaped(sub) && 2 <= level <= 3 && n <= ENTRIES
    ensures Puts(f, Cut(Cut(sub, level), level - 1), level - 2, n) == Kids(TablesAt(1, f), sub, level, n)
    decreases level, n
  {
    if n > 0 {
      ThirdKids(f, sub, level, n - 1);
      ThirdPuts(f, sub[n - 1], level);
    }
  }

  /** What the three walks together put. */
  function AllPuts(f: Frame, sub: seq<Slot>): int
    requires AllShaped(sub)
  {
    Puts(f, sub, 3, ENTRIES) + Puts(f, Cut(sub, 3), 2, ENTRIES) + Puts(f, Cut(Cut(sub, 3), 2), 1, ENTRIES)
  }

  lemma AllPutsCount(f: Frame, sub: seq<Slot>)
    requires Tidy(sub, 3) && AllShaped(sub)
    ensures AllPuts(f, sub) == All(Entries(f), sub, 3) + All(TablesAt(0, f), sub, 3) + All(TablesAt(1, f), sub, 3)
  {
    FirstKids(f, sub, 3, ENTRIES);
    SecondKids(f, sub, 3, ENTRIES);
    ThirdKids(f, sub, 3, ENTRIES);
  }

  function FreeOnce(ref: Refs, sub: seq<Slot>, level: nat): Out<Refs>
    requires AllShaped(sub) && level <= 3
  {
    Walk(Freer(), ref, sub, level, FIRST, LAST)
  }

  /** dune_vm_free: three walks, each starting one level lower, and the root page. */
  function Free(ref: Refs, root: Frame, sub: seq<Slot>): Refs
    requires AllShaped(sub)
  {
    var a := FreeOnce(ref, sub, 3);
    if !AllShaped(a.sub) then a.st
    else
      var b := FreeOnce(a.st, a.sub, 2);
      if !AllShaped(b.sub) then b.st else Put(FreeOnce(b.st, b.sub, 1).st, root)
  }

  /** One of the three walks, from any counts. */
  lemma OnceIs(ref: Refs, sub: seq<Slot>, level: nat, f: Frame)
    requires AllShaped(sub) && level <= 3
    ensures FreeOnce(ref, sub, level).sub == Cut(sub, level)
    ensures Less(f, Puts(f, sub, level, ENTRIES), ref, FreeOnce(ref, sub, level).st)
  {
    FreeWalk(ref, sub, level, f, FreeOnce(ref, sub, level));
  }

  lemma LessChain(f: Frame, k: int, m: int, n: int, root: Frame, ref: Refs, x: Refs, y: Refs, z: Refs)
    requires Less(f, k, ref, x) && Less(f, m, x, y) && Less(f, n, y, z)
    ensures Less(f, k + m + n + if f == root then 1 else 0, ref, Put(z, root))
  {}

  lemma FreeIs(ref: Refs, root: Frame, sub: seq<Slot>, f: Frame, now: Refs)
    requires AllShaped(sub) && now == Free(ref, root, sub)
    ensures Less(f, AllPuts(f, sub) + if f == root then 1 else 0, ref, now)
  {
    var cut, cut2 := Cut(sub, 3), Cut(Cut(sub, 3), 2);
    OnceIs(ref, sub, 3, f);
    var x := FreeOnce(ref, sub, 3).st;
    OnceIs(x, cut, 2, f);
    var y := FreeOnce(x, cut, 2).st;
    OnceIs(y, cut2, 1, f);
    var z := FreeOnce(y, cut2, 1).st;
    LessChain(f, Puts(f, sub, 3, ENTRIES), Puts(f, cut, 2, ENTRIES), Puts(f, cut2, 1, ENTRIES), root, ref, x, y, z);
  }

  /** Freeing a table puts every frame once for each entry that names it, each page table and
      each page directory once, and the root once; tables of the third level keep their count. */
  lemma FreeCounts(ref: Refs, root: Frame, sub: seq<Slot>, f: Frame, now: Refs)
    requires Tidy(sub, 3) && AllShaped(sub) && f in ref && now == Free(ref, root, sub)
    ensures f in now
    ensures now[f] == ref[f] - All(Entries(f), sub, 3) - All(TablesAt(0, f), sub, 3) - All(TablesAt(1, f), sub,
          3) - if f == root then 1 else 0
  {
    FreeIs(ref, root, sub, f, now);
    AllPutsCount(f, sub);
  }

  // ---- Clone, then free ----

  lemma HereSplit(f: Frame, x: Slot, level: nat)
    requires Proper(x, level) && level <= 3
    ensures Here(Tables(f), x, level) == Here(TablesAt(0, f), x, level) + Here(TablesAt(1, f), x, level)
          + Here(TablesAt(2, f), x, level)
  {}

  lemma {:induction false} TablesSplit(f: Frame, x: Slot, level: nat)
    requires Proper(x, level) && Shaped(x) && level <= 3
    ensures Count(Tables(f), x, level) == Count(TablesAt(0, f), x, level) + Count(TablesAt(1, f), x, level)
          + Count(TablesAt(2, f), x, level)
    decreases level, 0
  {
    HereSplit(f, x, level);
    if x.Dir? {
      TablesSplitKids(f, x.sub, level - 1, ENTRIES);
      CountDir(Tables(f), x, level);
      CountDir(TablesAt(0, f), x, level);
      CountDir(TablesAt(1, f), x, level);
      CountDir(TablesAt(2, f), x, level);
    }
  }

  lemma {:induction false} TablesSplitKids(f: Frame, sub: seq<Slot>, level: nat, n: nat)
    requires Tidy(sub, level) && AllShaped(sub) && level <= 3 && n <= ENTRIES
    ensures Kids(Tables(f), sub, level, n) == Kids(TablesAt(0, f), sub, level, n)
          + Kids(TablesAt(1, f), sub, level, n) + Kids(TablesAt(2, f), sub, level, n)
    decreases level, n
  {
    if n > 0 {
      TablesSplitKids(f, sub, level, n - 1);
      TablesSplit(f, sub[n - 1], level);
    }
  }

  lemma DistinctTimes(pool: seq<Frame>, f: Frame)
    requires Distinct(pool)
    ensures Times(pool, f) == if f in pool then 1 else 0
  {
    if pool != [] {
      TimesCons(pool, f);
      DistinctTimes(pool[1..], f);
    }
  }

  lemma TakenTimes(ref: Refs, pool: seq<Frame>, src: seq<Slot>, o: Out<Mem>, f: Frame)
    requires CanStart(ref, pool, src) && o == Clone(ref, pool, src) && o.ret == 0
    ensures Times(o.st.pool, f) == if f in o.st.pool then 1 else 0
  {
    CloneRefines(ref, pool, src, o);
    SuffixDistinct(pool[1..], o.st.pool, f);
    DistinctTimes(o.st.pool, f);
  }

  /** How many tables of each level of the clone stand in frame f. */
  datatype Levels = Levels(pt: int, pd: int, pdpt: int)

  function LevelsOf(f: Frame, root: seq<Slot>): (n: Levels)
    requires AllShaped(root)
  {
    Levels(All(TablesAt(0, f), root, 3), All(TablesAt(1, f), root, 3), All(TablesAt(2, f), root, 3))
  }

  /** A page that the clone took holds exactly one table; any other page holds none. */
  lemma OneTable(ref: Refs, pool: seq<Frame>, src: seq<Slot>, o: Out<Mem>, f: Frame, n: Levels)
    requires CanStart(ref, pool, src) && o == Clone(ref, pool, src) && o.ret == 0 && AllShaped(o.st.root)
    requires f in ref && (f in pool ==> All(Entries(f), src, 3) == 0) && n == LevelsOf(f, o.st.root)
    ensures n.pt >= 0 && n.pd >= 0 && n.pdpt >= 0
    ensures n.pt + n.pd + n.pdpt + (if f == pool[0] then 1 else 0) == if f in pool && f !in o.st.pool then 1 else 0
  {
    CloneRefines(ref, pool, src, o);
    CloneCounts(ref, pool, src, o, f);
    TablesSplitKids(f, o.st.root, 3, ENTRIES);
    DistinctTimes(pool, f);
    TakenTimes(ref, pool, src, o, f);
    KidsNonNegative(TablesAt(0, f), o.st.root, 3, ENTRIES);
    KidsNonNegative(TablesAt(1, f), o.st.root, 3, ENTRIES);
    KidsNonNegative(TablesAt(2, f), o.st.root, 3, ENTRIES);
  }

  /** Freeing a clone gives every data page its old count back. Of the pages that the clone took, the
      root, page directories and page tables are free again, and only those that hold a
      page-directory-pointer table are not. */
  lemma CloneThenFree(ref: Refs, pool: seq<Frame>, src: seq<Slot>, o: Out<Mem>, f: Frame, now: Refs)
    requires CanStart(ref, pool, src) && o == Clone(ref, pool, src) && o.ret == 0 && AllShaped(o.st.root)
    requires f in ref && f != Frame(0) && (f in pool ==> All(Entries(f), src, 3) == 0)
    requires now == Free(o.st.ref, pool[0], o.st.root)
    ensures f in now && now[f] == if f in pool && f !in o.st.pool then LevelsOf(f, o.st.root).pdpt else ref[f]
  {
    CloneTidy(ref, pool, src, o);
    CloneCounts(ref, pool, src, o, f);
    FreeCounts(o.st.ref, pool[0], o.st.root, f, now);
    OneTable(ref, pool, src, o, f, LevelsOf(f, o.st.root));
    Balance(now[f], ref[f], All(Entries(f), src, 3), LevelsOf(f, o.st.root), f == pool[0], f in pool
        && f !in o.st.pool);
  }

  lemma Balance(now: int, ref: int, entries: int, n: Levels, root: bool, taken: bool)
    requires now == (if taken then 1 else ref) + entries - entries - n.pt - n.pd - if root then 1 else 0
    requires n.pt >= 0 && n.pd >= 0 && n.pdpt >= 0
    requires n.pt + n.pd + n.pdpt + (if root then 1 else 0) == if taken then 1 else 0
    ensures now == if taken then n.pdpt else ref
  {}

  lemma CloneTidy(ref: Refs, pool: seq<Frame>, src: seq<Slot>, o: Out<Mem>)
    requires CanStart(ref, pool, src) && o == Clone(ref, pool, src) && o.ret == 0
    ensures Tidy(o.st.root, 3)
  {
    CloneRefines(ref, pool, src, o);
  }
}
