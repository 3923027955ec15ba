/** Page tables as flat maps from pages to entries: lookup, mapping and protection changes. */
module PageTableView {
  import opened Options
  import opened PageEntry
  import opened PageTable

  /** The entry that maps a page, and the level it stands at. */
  datatype Seen = Nothing | Seen(e: Pte, level: nat)

  function SlotView(x: Slot, level: nat, v: Va): (r: Seen)
    requires Shaped(x) && IsVa(v) && level <= 3
    decreases level, 0
  {
    match x
    case Empty => Nothing
    case Leaf(e) => Seen(e, level)
    case Dir(_, sub) => if level == 0 then Nothing else View(sub, level - 1, v)
  }

  function View(sub: seq<Slot>, level: nat, v: Va): (r: Seen)
    requires AllShaped(sub) && IsVa(v) && level <= 3
    decreases level, 1
  {
    SlotView(sub[v[level]], level, v)
  }

  // ---- Lookup ----

  /** dune_vm_lookup without creation: the entry that the returned pointer shows, or None for -ENOENT. */
  function Lookup(sub: seq<Slot>, level: nat, v: Va): Option<Pte>
    requires AllShaped(sub) && IsVa(v) && level <= 3
  {
    match sub[v[level]]
    case Empty => if level == 0 then Some(ZERO_ENTRY) else None
    case Leaf(e) => if level == 0 || e.p then Some(e) else None
    case Dir(_, t) => if level == 0 then None else Lookup(t, level - 1, v)
  }

  /** Lookup finds what the flat map holds; where the map holds nothing it finds a zero
      entry or fails, and it also fails on a big entry that is not present. */
  lemma {:induction false} LookupView(sub: seq<Slot>, level: nat, v: Va)
    requires AllShaped(sub) && IsVa(v) && level <= 3
    ensures match View(sub, level, v)
            case Nothing => Lookup(sub, level, v) == None || Lookup(sub, level, v) == Some(ZERO_ENTRY)
            case Seen(e, l) => Lookup(sub, level, v) == if l == 0 || e.p then Some(e) else None
  {
    var x := sub[v[level]];
    if x.Dir? && level > 0 {
      LookupView(x.sub, level - 1, v);
      LookupBelow(sub, level, v, x.sub);
    } else {
      assert View(sub, level, v) == if x.Leaf? then Seen(x.e, level) else Nothing;
    }
  }

  lemma LookupBelow(sub: seq<Slot>, level: nat, v: Va, t: seq<Slot>)
    requires AllShaped(sub) && IsVa(v) && 0 < level <= 3 && sub[v[level]].Dir? && t == sub[v[level]].sub
    ensures View(sub, level, v) == View(t, level - 1, v) && Lookup(sub, level, v) == Lookup(t, level - 1, v)
  {}

  // ---- Ranges ----

  /** v lies in the same table as s at the given level. */
  predicate Agree(v: Va, s: Va, level: nat)
    requires IsVa(v) && IsVa(s)
  {
    forall j :: level < j < 4 ==> v[j] == s[j]
  }

  lemma {:induction false} LeZero(a: Va, b: Va, level: nat)
    requires IsVa(a) && IsVa(b) && level <= 3
    ensures (forall j :: 0 <= j <= level ==> a[j] == 0) ==> Le(a, b, level)
    ensures (forall j :: 0 <= j <= level ==> b[j] == ENTRIES - 1) ==> Le(a, b, level)
    ensures Le(a, a, level)
  {
    if level > 0 { LeZero(a, b, level - 1); }
  }

  lemma {:induction false} LeTrans(a: Va, b: Va, c: Va, level: nat)
    requires IsVa(a) && IsVa(b) && IsVa(c) && level <= 3 && Le(a, b, level) && Le(b, c, level)
    ensures Le(a, c, level)
  {
    if level > 0 && a[level] == b[level] == c[level] { LeTrans(a, b, c, level - 1); }
  }

  /** The range below slot i is the part of the walk's range that lies in that slot. */
  lemma SplitRange(s: Va, e: Va, level: nat, i: int, v: Va)
    requires IsVa(s) && IsVa(e) && IsVa(v) && 0 < level <= 3 && s[level] <= i <= e[level] && v[level] == i
    ensures Within(s, e, v, level) <==> Within(Lo(s, level, i), Hi(s, e, level, i), v, level - 1)
  {
    LeZero(Cur(s, level, i), v, level - 1);
    LeZero(v, Top(Cur(s, level, i), level), level - 1);
  }

  /** Its first page is in the range, so the range below a visited slot is never empty. */
  lemma LoWithin(s: Va, e: Va, level: nat, i: int)
    requires IsVa(s) && IsVa(e) && level <= 3 && s[level] <= i <= e[level] && Le(s, e, level)
    ensures Within(s, e, Lo(s, level, i), level) && Lo(s, level, i)[level] == i && Agree(Lo(s, level, i), s, level)
    ensures level > 0 ==> Le(Lo(s, level, i), Hi(s, e, level, i), level - 1)
  {
    var lo := Lo(s, level, i);
    LeZero(s, s, level);
    if level > 0 {
      LeZero(lo, e, level - 1);
      LeZero(s, e, level - 1);
      SplitRange(s, e, level, i, lo);
    }
  }

  predicate Aligned(s: Va, e: Va, l: nat)
    requires IsVa(s) && IsVa(e)
  {
    Floor(s, l) == s && Top(e, l) == e
  }

  lemma AlignedBelow(s: Va, e: Va, l: nat, level: nat, i: int)
    requires IsVa(s) && IsVa(e) && l <= level <= 3 && Aligned(s, e, l) && 0 <= i < ENTRIES
    ensures Aligned(Lo(s, level, i), Hi(s, e, level, i), l)
  {
    assert forall j :: 0 <= j < l ==> Floor(s, l)[j] == 0 && Top(e, l)[j] == ENTRIES - 1;
  }

  // ---- Mapping ----

  /** The table level that a mapping of this size uses. */
  function Size(c: Create): nat { match c case Big => 1 case Huge => 2 case _ => 0 }

  function Pop(pool: seq<Frame>): Grant<seq<Frame>> {
    if pool == [] then Grant(pool, None) else Grant(pool[1..], Some(pool[0]))
  }

  /** The arguments of dune_vm_map_phys: flag bits, size, first page, and number of the first
      physical page; page gives the frame with a number. */
  datatype Plan = Plan(perm: Pte, create: Create, va: Va, pa: int, page: int -> Frame)

  function Entry(m: Plan, va: Va): Pte {
    if IsVa(va) && IsVa(m.va) then m.perm.(frame := m.page(m.pa + Number(va) - Number(m.va))) else ZERO_ENTRY
  }

  /** dune_vm_map_phys with its helper. */
  function Mapper(m: Plan): Walker<seq<Frame>> {
    Walker((st, x, va, level) => Hit(st, Store(Entry(m, va)), 0), m.create, Pop)
  }

  function SeenAs(e: Pte, level: nat): Seen { if e == ZERO_ENTRY then Nothing else Seen(e, level) }

  /** The range meets no mapping of another size, from slot i on. */
  ghost predicate NoOther(sub: seq<Slot>, level: nat, l: nat, s: Va, e: Va, i: int)
    requires AllShaped(sub) && IsVa(s) && IsVa(e) && level <= 3
  {
    forall u :: IsVa(u) && Agree(u, s, level) && u[level] >= i && Within(s, e, u, level) ==>
                  View(sub, level, u) == Nothing || View(sub, level, u).level == l
  }

  /** What the mapping must leave at v. */
  function Mapped(m: Plan, s: Va, e: Va, level: nat, v: Va, was: Seen): Seen
    requires IsVa(s) && IsVa(e) && IsVa(v) && level <= 3
  {
    if Within(s, e, v, level) then SeenAs(Entry(m, Floor(v, Size(m.create))), Size(m.create)) else was
  }

  lemma ZerosTidy(level: nat)
    requires level <= 3
    ensures Tidy(ZEROS, level) && AllShaped(ZEROS)
  {}

  lemma ZerosView(level: nat, v: Va)
    requires level <= 3 && IsVa(v)
    ensures AllShaped(ZEROS) && View(ZEROS, level, v) == Nothing
  {
    assert ZEROS[v[level]] == Empty;
  }

  lemma NoOtherBelow(sub: seq<Slot>, level: nat, l: nat, s: Va, e: Va, i: int, j: int)
    requires AllShaped(sub) && IsVa(s) && IsVa(e) && 0 < level <= 3 && s[level] <= i <= e[level]
    requires NoOther(sub, level, l, s, e, i) && sub[i].Dir?
    ensures NoOther(sub[i].sub, level - 1, l, Lo(s, level, i), Hi(s, e, level, i), j)
  {
    var lo, hi := Lo(s, level, i), Hi(s, e, level, i);
    forall u | IsVa(u) && Agree(u, lo, level - 1) && u[level - 1] >= j && Within(lo, hi, u, level - 1)
      ensures View(sub[i].sub, level - 1, u) == Nothing || View(sub[i].sub, level - 1, u).level == l
    {
      assert u[level] == lo[level] == i;
      SplitRange(s, e, level, i, u);
      assert View(sub, level, u) == View(sub[i].sub, level - 1, u);
    }
  }

  /** The slot at which the mapping's level is reached. */
  lemma MapSlot(m: Plan, s: Va, e: Va, i: int, v: Va)
    requires IsVa(s) && IsVa(e) && IsVa(v) && Aligned(s, e, Size(m.create))
    requires s[Size(m.create)] <= i <= e[Size(m.create)]
    requires Agree(v, s, Size(m.create)) && v[Size(m.create)] == i
    ensures Within(s, e, v, Size(m.create)) && Floor(v, Size(m.create)) == Cur(s, Size(m.create), i)
  {
    var l := Size(m.create);
    assert forall j :: 0 <= j < l ==> Floor(s, l)[j] == 0 && Top(e, l)[j] == ENTRIES - 1;
    if l > 0 {
      LeZero(s, v, l - 1);
      LeZero(v, e, l - 1);
    }
  }

  /** The walk's situation at slot i of a table. */
  ghost predicate CanMap(m: Plan, sub: seq<Slot>, level: nat, s: Va, e: Va, i: int) {
    && Tidy(sub, level) && AllShaped(sub) && Size(m.create) <= level <= 3 && !m.create.NoCreate?
        && m.perm.big == (Size(m.create) > 0)
    && IsVa(s) && IsVa(e) && Le(s, e, level) && Aligned(s, e, Size(m.create)) && s[level] <= i
    && NoOther(sub, level, Size(m.create), s, e, i)
  }

  lemma CanMapBelow(m: Plan, sub: seq<Slot>, level: nat, s: Va, e: Va, i: int)
    requires CanMap(m, sub, level, s, e, i) && i <= e[level] && Size(m.create) < level
    ensures !sub[i].Leaf?
    ensures var lo, hi := Lo(s, level, i), Hi(s, e, level, i);
            CanMap(m, if sub[i].Dir? then sub[i].sub else ZEROS, level - 1, lo, hi, lo[level - 1])
  {
    var lo, hi := Lo(s, level, i), Hi(s, e, level, i);
    assert Proper(sub[i], level) && Shaped(sub[i]);
    LoWithin(s, e, level, i);
    assert View(sub, level, lo) == SlotView(sub[i], level, lo);
    AlignedBelow(s, e, Size(m.create), level, i);
    if sub[i].Dir? { NoOtherBelow(sub, level, Size(m.create), s, e, i, lo[level - 1]); }
    else {
      ZerosTidy(level - 1);
      forall v | IsVa(v) ensures View(ZEROS, level - 1, v) == Nothing { ZerosView(level - 1, v); }
    }
  }

  /** The slot ends up right, as far as page v can tell. */
  ghost predicate RowRight(m: Plan, h: Hit<seq<Frame>>, level: nat, s: Va, e: Va, v: Va, was: Seen)
    requires IsVa(s) && IsVa(e) && IsVa(v) && level <= 3
  {
    h.ret == 0 ==>
      Proper(h.slot, level) && Shaped(h.slot) && SlotView(h.slot, level, v) == Mapped(m, s, e, level, v, was)
  }

  lemma MapRowHere(m: Plan, st: seq<Frame>, sub: seq<Slot>, s: Va, e: Va, i: nat, v: Va, h: Hit<seq<Frame>>)
    requires CanMap(m, sub, Size(m.create), s, e, i) && i <= e[Size(m.create)]
    requires IsVa(v) && Agree(v, s, Size(m.create)) && v[Size(m.create)] == i
    requires h == Row(Mapper(m), st, sub[i], Size(m.create), s, e, i)
    ensures RowRight(m, h, Size(m.create), s, e, v, View(sub, Size(m.create), v))
  {
    MapSlot(m, s, e, i, v);
  }

  ghost predicate RowsRight(m: Plan, o: Out<seq<Frame>>, level: nat, s: Va, e: Va, i: int, v: Va, was: Seen)
    requires IsVa(s) && IsVa(e) && IsVa(v) && level <= 3
  {
    o.ret == 0 ==>
      && Tidy(o.sub, level) && AllShaped(o.sub)
      && View(o.sub, level, v) == if v[level] >= i then Mapped(m, s, e, level, v, was) else was
  }

  /** A right table below the slot makes the slot right. */
  lemma RowFromTable(m: Plan, o: Out<seq<Frame>>, f: Frame, level: nat, s: Va, e: Va, i: int, v: Va, was: Seen)
    requires IsVa(s) && IsVa(e) && IsVa(v) && 0 < level <= 3 && s[level] <= i <= e[level] && v[level] == i
    requires var lo := Lo(s, level, i); RowsRight(m, o, level - 1, lo, Hi(s, e, level, i), lo[level - 1], v, was)
    ensures RowRight(m, Hit(o.st, Dir(f, o.sub), o.ret), level, s, e, v, was)
  {
    SplitRange(s, e, level, i, v);
    if o.ret == 0 {
      var x := Dir(f, o.sub);
      assert forall j :: 0 <= j < ENTRIES ==> Proper(o.sub[j], level - 1);
      assert Proper(x, level);
      assert SlotView(x, level, v) == View(o.sub, level - 1, v);
    }
  }

  /** What the walk does below a slot, for a slot that leads to a table and for an empty one. */
  lemma DirRow(m: Plan, st: seq<Frame>, x: Slot, level: nat, s: Va, e: Va, i: nat, lo: Va, hi: Va, o: Out<seq<Frame>>)
    requires Shaped(x) && x.Dir? && Size(m.create) < level <= 3 && IsVa(s) && IsVa(e) && i < ENTRIES
    requires lo == Lo(s, level, i) && hi == Hi(s, e, level, i) && AllShaped(x.sub)
    requires o == Rows(Mapper(m), st, x.sub, level - 1, lo, hi, lo[level - 1])
    ensures Row(Mapper(m), st, x, level, s, e, i) == Hit(o.st, Dir(x.frame, o.sub), o.ret)
  {}

  lemma NewRow(m: Plan, st: seq<Frame>, level: nat, s: Va, e: Va, i: nat, lo: Va, hi: Va, o: Out<seq<Frame>>)
    requires st != [] && Size(m.create) < level <= 3 && !m.create.NoCreate? && IsVa(s) && IsVa(e) && i < ENTRIES
    requires AllShaped(ZEROS)
    requires lo == Lo(s, level, i) && hi == Hi(s, e, level, i)
    requires o == Rows(Mapper(m), st[1..], ZEROS, level - 1, lo, hi, lo[level - 1])
    ensures Row(Mapper(m), st, Empty, level, s, e, i) == Hit(o.st, Dir(st[0], o.sub), o.ret)
  {}

  lemma {:induction false} MapRowDir(m: Plan, st: seq<Frame>, sub: seq<Slot>, level: nat, s: Va, e: Va, i: nat,
      v: Va, h: Hit<seq<Frame>>)
    requires CanMap(m, sub, level, s, e, i) && i <= e[level] && IsVa(v) && Agree(v, s, level) && v[level] == i
    requires h == Row(Mapper(m), st, sub[i], level, s, e, i) && Size(m.create) < level && sub[i].Dir?
    ensures RowRight(m, h, level, s, e, v, View(sub, level, v))
    decreases level, 0
  {
    var lo, hi, x := Lo(s, level, i), Hi(s, e, level, i), sub[i];
    CanMapBelow(m, sub, level, s, e, i);
    var o := Rows(Mapper(m), st, x.sub, level - 1, lo, hi, lo[level - 1]);
    DirRow(m, st, x, level, s, e, i, lo, hi, o);
    MapRows(m, st, x.sub, level - 1, lo, hi, lo[level - 1], v, o);
    RowFromTable(m, o, x.frame, level, s, e, i, v, View(x.sub, level - 1, v));
  }

  lemma {:induction false} MapRowNew(m: Plan, st: seq<Frame>, sub: seq<Slot>, level: nat, s: Va, e: Va, i: nat,
      v: Va, h: Hit<seq<Frame>>)
    requires CanMap(m, sub, level, s, e, i) && i <= e[level] && IsVa(v) && Agree(v, s, level) && v[level] == i
    requires h == Row(Mapper(m), st, sub[i], level, s, e, i) && Size(m.create) < level && sub[i].Empty? && st != []
    ensures RowRight(m, h, level, s, e, v, Nothing)
    decreases level, 0
  {
    var lo, hi := Lo(s, level, i), Hi(s, e, level, i);
    CanMapBelow(m, sub, level, s, e, i);
    ZerosView(level - 1, v);
    var o := Rows(Mapper(m), st[1..], ZEROS, level - 1, lo, hi, lo[level - 1]);
    NewRow(m, st, level, s, e, i, lo, hi, o);
    MapRows(m, st[1..], ZEROS, level - 1, lo, hi, lo[level - 1], v, o);
    RowFromTable(m, o, st[0], level, s, e, i, v, Nothing);
  }

  lemma {:induction false} MapRow(m: Plan, st: seq<Frame>, sub: seq<Slot>, level: nat, s: Va, e: Va, i: nat, v: Va,
      h: Hit<seq<Frame>>)
    requires CanMap(m, sub, level, s, e, i) && i <= e[level] && IsVa(v) && Agree(v, s, level) && v[level] == i
    requires h == Row(Mapper(m), st, sub[i], level, s, e, i)
    ensures RowRight(m, h, level, s, e, v, View(sub, level, v))
    decreases level, 1
  {
    if level == Size(m.create) {
      MapRowHere(m, st, sub, s, e, i, v, h);
    } else {
      CanMapBelow(m, sub, level, s, e, i);
      if sub[i].Dir? {
        MapRowDir(m, st, sub, level, s, e, i, v, h);
      } else if st != [] {
        MapRowNew(m, st, sub, level, s, e, i, v, h);
      }
    }
  }

  lemma CanMapNext(m: Plan, sub: seq<Slot>, level: nat, s: Va, e: Va, i: nat, x: Slot)
    requires CanMap(m, sub, level, s, e, i) && i <= e[level] && Proper(x, level) && Shaped(x)
    ensures CanMap(m, sub[i := x], level, s, e, i + 1)
  {
    var next := sub[i := x];
    assert AllShaped(next);
    forall w | IsVa(w) && w[level] >= i + 1 ensures View(next, level, w) == View(sub, level, w) { }
  }

  lemma RowsJoin(m: Plan, sub: seq<Slot>, h: Hit<seq<Frame>>, o: Out<seq<Frame>>, level: nat, s: Va, e: Va, i: nat,
      v: Va)
    requires AllShaped(sub) && level <= 3 && IsVa(s) && IsVa(e) && IsVa(v) && i < ENTRIES && Shaped(h.slot)
    requires AllShaped(sub[i := h.slot])
    requires v[level] == i ==> RowRight(m, h, level, s, e, v, View(sub, level, v))
    requires h.ret == 0 && RowsRight(m, o, level, s, e, i + 1, v, View(sub[i := h.slot], level, v))
    ensures RowsRight(m, o, level, s, e, i, v, View(sub, level, v))
  {}

  lemma {:induction false} MapRows(m: Plan, st: seq<Frame>, sub: seq<Slot>, level: nat, s: Va, e: Va, i: nat,
      v: Va, o: Out<seq<Frame>>)
    requires CanMap(m, sub, level, s, e, i) && i <= ENTRIES && IsVa(v) && Agree(v, s, level)
    requires o == Rows(Mapper(m), st, sub, level, s, e, i)
    ensures RowsRight(m, o, level, s, e, i, v, View(sub, level, v))
    decreases level, ENTRIES + 1 - i
  {
    if i <= e[level] {
      var h := Row(Mapper(m), st, sub[i], level, s, e, i);
      assert v[level] == i ==> v[level := i] == v;
      MapRow(m, st, sub, level, s, e, i, v[level := i], h);
      if h.ret == 0 {
        CanMapNext(m, sub, level, s, e, i, h.slot);
        MapRows(m, h.st, sub[i := h.slot], level, s, e, i + 1, v, o);
        RowsJoin(m, sub, h, o, level, s, e, i, v);
      }
    }
  }

  /** Mapping an aligned range that meets no mapping of another size refines the flat map: on success every
      page in the range is mapped by the entry for its slot, and every other page as before. */
  lemma MapRefines(m: Plan, pool: seq<Frame>, root: seq<Slot>, s: Va, e: Va, v: Va, o: Out<seq<Frame>>)
    requires IsVa(s) && IsVa(v) && CanMap(m, root, 3, s, e, s[3]) && o == Walk(Mapper(m), pool, root, 3, s, e)
    requires o.ret == 0
    ensures Tidy(o.sub, 3) && AllShaped(o.sub) && View(o.sub, 3, v) == Mapped(m, s, e, 3, v, View(root, 3, v))
  {
    MapRows(m, pool, root, 3, s, e, s[3], v, o);
  }

  /** What lookup gives for a page of the range that a mapping has filled: the entry, unless it is a big one that is
      not present; an entry of nothing but zeros is found as zeros or not at all. */
  predicate Found(m: Plan, x: Pte, r: Option<Pte>) {
    if x == ZERO_ENTRY then r == None || r == Some(ZERO_ENTRY)
        else r == if Size(m.create) == 0 || x.p then Some(x) else None
  }

  lemma MappedLookup(m: Plan, sub: seq<Slot>, e: Va, v: Va, was: Seen, first: Va)
    requires IsVa(m.va) && IsVa(e) && IsVa(v) && first == Floor(v, Size(m.create)) && AllShaped(sub)
    requires View(sub, 3, v) == Mapped(m, m.va, e, 3, v, was) && Within(m.va, e, v, 3)
    ensures Found(m, m.perm.(frame := m.page(m.pa + Number(first) - Number(m.va))), Lookup(sub, 3, v))
  {
    var x := m.perm.(frame := m.page(m.pa + Number(first) - Number(m.va)));
    assert x == Entry(m, first);
    assert View(sub, 3, v) == SeenAs(x, Size(m.create));
    LookupView(sub, 3, v);
  }

  /** After a mapping that succeeds, looking up a page of the range finds the requested bits and the
      physical address of its slot, shifted as the range was; any other page is mapped as before. */
  lemma MapPhysLookup(m: Plan, pool: seq<Frame>, root: seq<Slot>, e: Va, v: Va, o: Out<seq<Frame>>, first: Va)
    requires IsVa(m.va) && IsVa(v) && CanMap(m, root, 3, m.va, e, m.va[3])
    requires o == Walk(Mapper(m), pool, root, 3, m.va, e) && o.ret == 0 && first == Floor(v, Size(m.create))
    ensures AllShaped(o.sub)
    ensures Within(m.va, e, v, 3) ==> Found(m, m.perm.(frame := m.page(m.pa + Number(first) - Number(m.va))),
          Lookup(o.sub, 3, v))
    ensures !Within(m.va, e, v, 3) ==> View(o.sub, 3, v) == View(root, 3, v)
  {
    MapRefines(m, pool, root, m.va, e, v, o);
    if Within(m.va, e, v, 3) { MappedLookup(m, o.sub, e, v, View(root, 3, v), first); }
  }

  // ---- Changing what is mapped ----

  datatype Change = Protect(perm: Pte) | Unmap

  /** What the helpers of dune_vm_mprotect and dune_vm_unmap make of an entry. */
  function Changed(c: Change, x: Pte): Slot {
    match c
    case Protect(perm) => Store(perm.(frame := x.frame, big := x.big || perm.big))
    case Unmap => Empty
  }

  function Changer(c: Change): Walker<int> {
    Walker((st: int, x: Slot, va: Va, level: nat) => Hit(st, if x.Leaf? then Changed(c, x.e) else Empty, 0),
        NoCreate, st => Grant(st, None))
  }

  /** What a change of the range s to e must leave at v: an entry changes as a whole if its slot meets the range. */
  function AfterChange(c: Change, s: Va, e: Va, level: nat, v: Va, was: Seen): Seen
    requires IsVa(s) && IsVa(e) && IsVa(v) && level <= 3
  {
    match was
    case Nothing => Nothing
    case Seen(x, l) =>
      if !Within(Floor(s, l), Top(e, l), v, level) then was
      else if Changed(c, x).Leaf? then Seen(Changed(c, x).e, l) else Nothing
  }

  lemma ChangeBelow(s: Va, e: Va, level: nat, i: int, l: nat, v: Va)
    requires IsVa(s) && IsVa(e) && IsVa(v) && l < level <= 3 && s[level] <= i <= e[level] && v[level] == i
    ensures Within(Floor(s, l), Top(e, l), v, level) <==>
            Within(Floor(Lo(s, level, i), l), Top(Hi(s, e, level, i), l), v, level - 1)
  {
    SplitRange(Floor(s, l), Top(e, l), level, i, v);
    var lo, hi := Lo(Floor(s, l), level, i), Hi(Floor(s, l), Top(e, l), level, i);
    assert lo == Floor(Lo(s, level, i), l);
    SameBelow(hi, Top(Hi(s, e, level, i), l), v, level - 1);
  }

  lemma {:induction false} SameBelow(a: Va, b: Va, v: Va, level: nat)
    requires IsVa(a) && IsVa(b) && IsVa(v) && level <= 3 && forall j :: 0 <= j <= level ==> a[j] == b[j]
    ensures Le(v, a, level) <==> Le(v, b, level)
  {
    if level > 0 { SameBelow(a, b, v, level - 1); }
  }

  ghost predicate SlotChanged(c: Change, h: Hit<int>, level: nat, s: Va, e: Va, v: Va, was: Seen)
    requires IsVa(s) && IsVa(e) && IsVa(v) && level <= 3
  {
    && h.ret == 0 && Proper(h.slot, level) && Shaped(h.slot)
    && SlotView(h.slot, level, v) == AfterChange(c, s, e, level, v, was)
  }

  ghost predicate TableChanged(c: Change, o: Out<int>, level: nat, s: Va, e: Va, i: int, v: Va, was: Seen)
    requires IsVa(s) && IsVa(e) && IsVa(v) && level <= 3
  {
    && o.ret == 0 && Tidy(o.sub, level) && AllShaped(o.sub)
    && View(o.sub, level, v) == if v[level] >= i then AfterChange(c, s, e, level, v, was) else was
  }

  lemma SlotFromTable(c: Change, o: Out<int>, f: Frame, level: nat, s: Va, e: Va, i: int, v: Va, was: Seen)
    requires IsVa(s) && IsVa(e) && IsVa(v) && 0 < level <= 3 && s[level] <= i <= e[level] && v[level] == i
    requires was.Seen? ==> was.level < level
    requires var lo := Lo(s, level, i); TableChanged(c, o, level - 1, lo, Hi(s, e, level, i), lo[level - 1], v, was)
    ensures SlotChanged(c, Hit(o.st, Dir(f, o.sub), o.ret), level, s, e, v, was)
  {
    var x := Dir(f, o.sub);
    assert forall j :: 0 <= j < ENTRIES ==> Proper(o.sub[j], level - 1);
    assert Proper(x, level);
    assert SlotView(x, level, v) == View(o.sub, level - 1, v);
    if was.Seen? { ChangeBelow(s, e, level, i, was.level, v); }
  }

  lemma {:induction false} ChangeRow(c: Change, st: int, x: Slot, level: nat, s: Va, e: Va, i: nat, v: Va,
      h: Hit<int>)
    requires Proper(x, level) && Shaped(x) && level <= 3 && (c.Protect? ==> !c.perm.big)
    requires IsVa(s) && IsVa(e) && IsVa(v) && s[level] <= i <= e[level] && Agree(v, s, level) && v[level] == i
    requires h == Row(Changer(c), st, x, level, s, e, i)
    ensures SlotChanged(c, h, level, s, e, v, SlotView(x, level, v))
    decreases level, 0
  {
    if x.Dir? {
      var lo, hi := Lo(s, level, i), Hi(s, e, level, i);
      var o := Walk(Changer(c), st, x.sub, level - 1, lo, hi);
      ChangeRows(c, st, x.sub, level - 1, lo, hi, lo[level - 1], v, o);
      LevelBound(x.sub, level - 1, v);
      SlotFromTable(c, o, x.frame, level, s, e, i, v, View(x.sub, level - 1, v));
    } else if x.Leaf? {
      ChangeLeaf(c, st, x, level, s, e, i, v, h);
    }
  }

  lemma ChangeLeaf(c: Change, st: int, x: Slot, level: nat, s: Va, e: Va, i: nat, v: Va, h: Hit<int>)
    requires Proper(x, level) && x.Leaf? && level <= 3 && (c.Protect? ==> !c.perm.big)
    requires IsVa(s) && IsVa(e) && IsVa(v) && s[level] <= i <= e[level] && v[level] == i
    requires h == Row(Changer(c), st, x, level, s, e, i)
    ensures SlotChanged(c, h, level, s, e, v, Seen(x.e, level))
  {
    if level > 0 {
      LeZero(Floor(s, level), v, level - 1);
      LeZero(v, Top(e, level), level - 1);
    }
  }

  lemma {:induction false} LevelBound(sub: seq<Slot>, level: nat, v: Va)
    requires AllShaped(sub) && IsVa(v) && level <= 3
    ensures View(sub, level, v).Seen? ==> View(sub, level, v).level <= level
  {
    if sub[v[level]].Dir? && level > 0 { LevelBound(sub[v[level]].sub, level - 1, v); }
  }

  lemma {:induction false} ChangeRows(c: Change, st: int, sub: seq<Slot>, level: nat, s: Va, e: Va, i: nat, v: Va,
      o: Out<int>)
    requires Tidy(sub, level) && AllShaped(sub) && level <= 3 && (c.Protect? ==> !c.perm.big)
    requires IsVa(s) && IsVa(e) && IsVa(v) && s[level] <= i <= ENTRIES && Agree(v, s, level)
    requires o == Rows(Changer(c), st, sub, level, s, e, i)
    ensures TableChanged(c, o, level, s, e, i, v, View(sub, level, v))
    decreases level, ENTRIES + 1 - i
  {
    if i <= e[level] {
      var h := Row(Changer(c), st, sub[i], level, s, e, i);
      ChangeRow(c, st, sub[i], level, s, e, i, v[level := i], h);
      var next := sub[i := h.slot];
      assert v[level] != i ==> View(next, level, v) == View(sub, level, v);
      assert v[level] == i ==> v[level := i] == v;
      ChangeRows(c, h.st, next, level, s, e, i + 1, v, o);
    } else {
      LevelBound(sub, level, v);
    }
  }

  /** dune_vm_mprotect and dune_vm_unmap change exactly the entries whose slot meets the range: the
      frame stays and the bits become the requested ones, or the entry goes; all other pages keep theirs. */
  lemma ChangeRefines(c: Change, st: int, root: seq<Slot>, s: Va, e: Va, v: Va, o: Out<int>)
    requires Tidy(root, 3) && AllShaped(root) && (c.Protect? ==> !c.perm.big) && IsVa(s) && IsVa(e) && IsVa(v)
    requires o == Walk(Changer(c), st, root, 3, s, e)
    ensures o.ret == 0 && Tidy(o.sub, 3) && AllShaped(o.sub)
    ensures View(o.sub, 3, v) == AfterChange(c, s, e, 3, v, View(root, 3, v))
  {
    ChangeRows(c, st, root, 3, s, e, s[3], v, o);
    LevelBound(root, 3, v);
  }
}
