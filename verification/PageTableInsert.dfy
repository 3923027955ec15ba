/**
 Putting one entry into a page table, creating the tables on its way: what a mapping
 of a single slot comes to, and what it does to the table.
 */
module PageTableInsert {
  import opened PageEntry
  import opened PageTable
  import opened PageTableView

  /** The slot for va at level l becomes x. A big entry on the way stops it. */
  function Insert(pool: seq<Frame>, sub: seq<Slot>, level: nat, va: Va, l: nat, x: Slot): (o: Out<seq<Frame>>)
    requires AllShaped(sub) && l <= level <= 3 && IsVa(va)
    ensures |o.sub| == ENTRIES
    decreases level
  {
    if level == l then Out(pool, sub[va[level] := x], 0)
    else if sub[va[level]].Leaf? then Out(pool, sub, -1)
    else if sub[va[level]].Dir? then Below(sub, va[level], sub[va[level]].frame,
        Insert(pool, sub[va[level]].sub, level - 1, va, l, x))
    else if pool == [] then Out(pool, sub, -ENOMEM)
    else Below(sub, va[level], pool[0], Insert(pool[1..], ZEROS, level - 1, va, l, x))
  }

  /** The table sub after what happened in the table below its slot i. */
  function Below(sub: seq<Slot>, i: int, f: Frame, low: Out<seq<Frame>>): (o: Out<seq<Frame>>)
    requires |sub| == ENTRIES && 0 <= i < ENTRIES
    ensures |o.sub| == ENTRIES
  {
    Out(low.st, sub[i := Dir(f, low.sub)], low.ret)
  }

  /** No big entry lies on the way down to level l. */
  predicate Clear(sub: seq<Slot>, level: nat, va: Va, l: nat)
    requires AllShaped(sub) && IsVa(va) && level <= 3
    decreases level
  {
    level > l ==> !sub[va[level]].Leaf? && (sub[va[level]].Dir? ==> Clear(sub[va[level]].sub, level - 1, va, l))
  }

  lemma ClearZeros(level: nat, va: Va, l: nat)
    requires IsVa(va) && level <= 3
    ensures AllShaped(ZEROS) && Clear(ZEROS, level, va, l)
  {
    assert ZEROS[va[level]] == Empty;
  }

  /** Mapping one slot is inserting its entry. */
  lemma {:induction false} WalkIsInsert(m: Plan, pool: seq<Frame>, sub: seq<Slot>, level: nat, va: Va, e: Va,
      x: Slot, o: Out<seq<Frame>>)
    requires AllShaped(sub) && Size(m.create) <= level <= 3 && !m.create.NoCreate? && IsVa(va) && IsVa(e)
    requires Floor(va, Size(m.create)) == va && (forall j :: Size(m.create) <= j < 4 ==> e[j] == va[j])
    requires Clear(sub, level, va, Size(m.create)) && x == Store(Entry(m, va))
    requires o == Walk(Mapper(m), pool, sub, level, va, e)
    ensures o == Insert(pool, sub, level, va, Size(m.create), x)
    decreases level
  {
    var i, l := va[level], Size(m.create);
    var h := Row(Mapper(m), pool, sub[i], level, va, e, i);
    if level == l {
      assert Cur(va, level, i) == va;
    } else {
      assert Lo(va, level, i) == va && Hi(va, e, level, i) == e;
      if sub[i].Dir? {
        WalkIsInsert(m, pool, sub[i].sub, level - 1, va, e, x, Walk(Mapper(m), pool, sub[i].sub, level - 1, va, e));
      } else if pool != [] {
        ClearZeros(level - 1, va, l);
        WalkIsInsert(m, pool[1..], ZEROS, level - 1, va, e, x, Walk(Mapper(m), pool[1..], ZEROS, level - 1, va, e));
      } else {
        assert sub[i := sub[i]] == sub;
      }
    }
    assert h.ret == 0 ==>
        Rows(Mapper(m), h.st, sub[i := h.slot], level, va, e, i + 1)
        == Out(h.st, sub[i := h.slot], 0);
  }

  // ---- The flat map ----

  /** v lies in the slot of va at level l, as far as the indices up to the given level tell. */
  predicate Shares(v: Va, va: Va, l: nat, level: nat)
    requires IsVa(v) && IsVa(va) && level <= 3
  {
    forall j :: l <= j <= level ==> v[j] == va[j]
  }

  lemma {:induction false} InsertTidy(pool: seq<Frame>, sub: seq<Slot>, level: nat, va: Va, l: nat, x: Slot,
      o: Out<seq<Frame>>)
    requires Tidy(sub, level) && AllShaped(sub) && l <= level <= 3 && IsVa(va) && Proper(x, l) && Shaped(x)
    requires o == Insert(pool, sub, level, va, l, x)
    ensures Tidy(o.sub, level) && AllShaped(o.sub)
    decreases level
  {
    var i := va[level];
    if level > l {
      if sub[i].Dir? {
        assert Proper(sub[i], level);
        InsertTidy(pool, sub[i].sub, level - 1, va, l, x, Insert(pool, sub[i].sub, level - 1, va, l, x));
      } else if sub[i].Empty? && pool != [] {
        ZerosTidy(level - 1);
        InsertTidy(pool[1..], ZEROS, level - 1, va, l, x, Insert(pool[1..], ZEROS, level - 1, va, l, x));
      }
      assert forall j :: 0 <= j < ENTRIES && j != i ==> o.sub[j] == sub[j];
    }
  }

  /** Insertion changes the flat map at the slot's own pages and nowhere else. */
  lemma {:induction false} InsertView(pool: seq<Frame>, sub: seq<Slot>, level: nat, va: Va, l: nat, x: Slot,
      o: Out<seq<Frame>>, v: Va)
    requires AllShaped(sub) && l <= level <= 3 && IsVa(va) && IsVa(v) && Shaped(x) && !x.Dir?
    requires o == Insert(pool, sub, level, va, l, x) && o.ret == 0
    ensures AllShaped(o.sub)
    ensures View(o.sub, level, v) == if Shares(v, va, l, level) then SlotView(x, l, v) else View(sub, level, v)
    decreases level
  {
    var i := va[level];
    if level > l {
      if sub[i].Dir? {
        InsertView(pool, sub[i].sub, level - 1, va, l, x, Insert(pool, sub[i].sub, level - 1, va, l, x), v);
      } else {
        ZerosView(level - 1, v);
        InsertView(pool[1..], ZEROS, level - 1, va, l, x, Insert(pool[1..], ZEROS, level - 1, va, l, x), v);
      }
    }
  }

  // ---- Counting entries and tables ----

  /** What to count: entries that name frame f, tables that stand in frame f, or those of them at level k. */
  datatype Kind = Entries(f: Frame) | Tables(f: Frame) | TablesAt(k: nat, f: Frame)

  /** A slot alone; a slot at some level leads to a table one level below. */
  function Here(c: Kind, x: Slot, level: nat): int {
    match c
    case Entries(f) => if x.Leaf? && x.e.frame == f then 1 else 0
    case Tables(f) => if x.Dir? && x.frame == f then 1 else 0
    case TablesAt(k, f) => if x.Dir? && x.frame == f && level == k + 1 then 1 else 0
  }

  /** A slot with everything below it. */
  function Count(c: Kind, x: Slot, level: nat): int
    requires Shaped(x)
    decreases level, 0
  {
    Here(c, x, level) + if x.Dir? && level > 0 then Kids(c, x.sub, level - 1, ENTRIES) else 0
  }

  lemma CountDir(c: Kind, x: Slot, level: nat)
    requires Shaped(x) && x.Dir? && level > 0
    ensures Count(c, x, level) == Here(c, x, level) + Kids(c, x.sub, level - 1, ENTRIES)
  {}

  /** The first n slots of a table. */
  function Kids(c: Kind, sub: seq<Slot>, level: nat, n: nat): int
    requires AllShaped(sub) && n <= ENTRIES
    decreases level, n
  {
    if n == 0 then 0 else Kids(c, sub, level, n - 1) + Count(c, sub[n - 1], level)
  }

  function All(c: Kind, sub: seq<Slot>, level: nat): int
    requires AllShaped(sub)
  {
    Kids(c, sub, level, ENTRIES)
  }

  lemma {:induction false} CountNonNegative(c: Kind, x: Slot, level: nat)
    requires Shaped(x)
    ensures Count(c, x, level) >= 0
    decreases level, 0
  {
    if x.Dir? && level > 0 { KidsNonNegative(c, x.sub, level - 1, ENTRIES); }
  }

  lemma {:induction false} KidsNonNegative(c: Kind, sub: seq<Slot>, level: nat, n: nat)
    requires AllShaped(sub) && n <= ENTRIES
    ensures Kids(c, sub, level, n) >= 0
    decreases level, n
  {
    if n > 0 {
      KidsNonNegative(c, sub, level, n - 1);
      CountNonNegative(c, sub[n - 1], level);
    }
  }

  lemma {:induction false} KidsUpdate(c: Kind, sub: seq<Slot>, level: nat, n: nat, i: int, y: Slot)
    requires AllShaped(sub) && Shaped(y) && n <= ENTRIES && 0 <= i < ENTRIES && AllShaped(sub[i := y])
    ensures Kids(c, sub[i := y], level, n) == Kids(c, sub, level, n) + if i < n
          then Count(c, y, level) - Count(c, sub[i], level) else 0
    decreases n
  {
    if n > 0 { KidsUpdate(c, sub, level, n - 1, i, y); }
  }

  lemma {:induction false} KidsZero(c: Kind, level: nat, n: nat)
    requires n <= ENTRIES
    ensures AllShaped(ZEROS) && Kids(c, ZEROS, level, n) == 0
    decreases n
  {
    if n > 0 {
      KidsZero(c, level, n - 1);
      assert ZEROS[n - 1] == Empty;
    }
  }

  /** The way to va's slot at level l ends, at that slot or before, at an empty slot. */
  predicate Vacant(sub: seq<Slot>, level: nat, va: Va, l: nat)
    requires AllShaped(sub) && IsVa(va) && l <= level <= 3
    decreases level
  {
    || sub[va[level]].Empty?
    || (level > l && sub[va[level]].Dir? && Vacant(sub[va[level]].sub, level - 1, va, l))
  }

  lemma {:induction false} VacantIsClear(sub: seq<Slot>, level: nat, va: Va, l: nat)
    requires AllShaped(sub) && IsVa(va) && l <= level <= 3 && Vacant(sub, level, va, l)
    ensures Clear(sub, level, va, l)
    decreases level
  {
    if level > l && sub[va[level]].Dir? { VacantIsClear(sub[va[level]].sub, level - 1, va, l); }
  }

  function Times(pool: seq<Frame>, f: Frame): int { multiset(pool)[f] }

  lemma TimesCons(pool: seq<Frame>, f: Frame)
    requires pool != []
    ensures Times(pool, f) == Times(pool[1..], f) + if pool[0] == f then 1 else 0
  {
    assert pool == [pool[0]] + pool[1..];
  }

  /** What an insertion of a non-table slot adds to a count: itself, and the tables taken from the pool. */
  function Added(c: Kind, x: Slot, l: nat, pool: seq<Frame>, rest: seq<Frame>): int {
    Here(c, x, l) + if c.Tables? then Times(pool, c.f) - Times(rest, c.f) else 0
  }

  /** A table below slot i, for frame f, where the slot held x. */
  lemma CountBelow(c: Kind, sub: seq<Slot>, level: nat, i: int, f: Frame, low: seq<Slot>, o: seq<Slot>)
    requires AllShaped(sub) && AllShaped(low) && 0 < level && 0 <= i < ENTRIES && o == sub[i := Dir(f, low)]
    requires AllShaped(o)
    ensures All(c, o, level) == All(c, sub, level) + Here(c, Dir(f, low), level)
          + All(c, low, level - 1) - Count(c, sub[i], level)
  {
    KidsUpdate(c, sub, level, ENTRIES, i, Dir(f, low));
  }

  lemma {:induction false} InsertCount(c: Kind, pool: seq<Frame>, sub: seq<Slot>, level: nat, va: Va, l: nat,
      x: Slot, o: Out<seq<Frame>>)
    requires AllShaped(sub) && l <= level <= 3 && IsVa(va) && !x.Dir? && !c.TablesAt? && Vacant(sub, level, va, l)
    requires o == Insert(pool, sub, level, va, l, x) && o.ret == 0 && AllShaped(o.sub)
    ensures All(c, o.sub, level) == All(c, sub, level) + Added(c, x, l, pool, o.st)
    decreases level, 1
  {
    var i := va[level];
    if level == l {
      KidsUpdate(c, sub, level, ENTRIES, i, x);
    } else if sub[i].Dir? {
      var low := Insert(pool, sub[i].sub, level - 1, va, l, x);
      assert Shaped(o.sub[i]);
      InsertCount(c, pool, sub[i].sub, level - 1, va, l, x, low);
      CountBelow(c, sub, level, i, sub[i].frame, low.sub, o.sub);
    } else {
      InsertCountNew(c, pool, sub, level, va, l, x, o);
    }
  }

  lemma {:induction false} InsertCountNew(c: Kind, pool: seq<Frame>, sub: seq<Slot>, level: nat, va: Va, l: nat,
      x: Slot, o: Out<seq<Frame>>)
    requires AllShaped(sub) && l < level <= 3 && IsVa(va) && !x.Dir? && !c.TablesAt? && sub[va[level]].Empty?
    requires o == Insert(pool, sub, level, va, l, x) && o.ret == 0 && AllShaped(o.sub)
    ensures All(c, o.sub, level) == All(c, sub, level) + Added(c, x, l, pool, o.st)
    decreases level, 0
  {
    var low := Insert(pool[1..], ZEROS, level - 1, va, l, x);
    assert Shaped(o.sub[va[level]]);
    KidsZero(c, level - 1, ENTRIES);
    assert ZEROS[va[level - 1]] == Empty;
    InsertCount(c, pool[1..], ZEROS, level - 1, va, l, x, low);
    CountBelow(c, sub, level, va[level], pool[0], low.sub, o.sub);
    TimesCons(pool, c.f);
  }

  /** Tables are taken from the front of the pool. */
  lemma {:induction false} InsertPool(pool: seq<Frame>, sub: seq<Slot>, level: nat, va: Va, l: nat, x: Slot,
      o: Out<seq<Frame>>)
    requires AllShaped(sub) && l <= level <= 3 && IsVa(va) && o == Insert(pool, sub, level, va, l, x)
    ensures |o.st| <= |pool| && o.st == pool[|pool| - |o.st|..]
    decreases level
  {
    var i := va[level];
    if level > l {
      if sub[i].Dir? {
        InsertPool(pool, sub[i].sub, level - 1, va, l, x, Insert(pool, sub[i].sub, level - 1, va, l, x));
      } else if sub[i].Empty? && pool != [] {
        InsertPool(pool[1..], ZEROS, level - 1, va, l, x, Insert(pool[1..], ZEROS, level - 1, va, l, x));
      }
    }
  }
}
