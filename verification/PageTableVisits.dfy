/** The order in which a walk without creation visits a table's entries. */
module PageTableVisits {
  import opened PageEntry
  import opened PageTable
  import opened PageTableView

  /** A call of the callback: the slot, its first page and its level. */
  datatype Visit = Visit(va: Va, level: nat, x: Slot)

  /** The visits in a table from slot i on, and in one slot. */
  function Visits(sub: seq<Slot>, level: nat, s: Va, e: Va, i: nat): (vs: seq<Visit>)
    requires AllShaped(sub) && level <= 3 && IsVa(s) && IsVa(e) && i <= ENTRIES
    decreases level, ENTRIES - i
  {
    if i > e[level] then [] else SlotVisits(sub[i], level, s, e, i) + Visits(sub, level, s, e, i + 1)
  }

  function SlotVisits(x: Slot, level: nat, s: Va, e: Va, i: nat): (vs: seq<Visit>)
    requires Shaped(x) && level <= 3 && IsVa(s) && IsVa(e) && i < ENTRIES
    decreases level, 0
  {
    if Calls(NoCreate, x, level) then [Visit(Cur(s, level, i), level, x)]
    else if level > 0 && x.Dir? then Visits(x.sub, level - 1, Lo(s, level, i), Hi(s, e, level, i),
        Lo(s, level, i)[level - 1])
    else []
  }

  // ---- A callback, visit by visit ----

  datatype End<S> = End(st: S, ret: int)

  /** The callback on each visit in turn, up to the first failure. */
  function Fold<S>(cb: (S, Slot, Va, nat) -> Hit<S>, st: S, vs: seq<Visit>): End<S> {
    if vs == [] then End(st, 0)
    else
      var h := cb(st, vs[0].x, vs[0].va, vs[0].level);
      if h.ret != 0 then End(h.st, h.ret) else Fold(cb, h.st, vs[1..])
  }

  lemma {:induction false} FoldJoin<S>(cb: (S, Slot, Va, nat) -> Hit<S>, st: S, vs: seq<Visit>, ws: seq<Visit>,
      r: End<S>)
    requires r == Fold(cb, st, vs)
    ensures Fold(cb, st, vs + ws) == if r.ret != 0 then r else Fold(cb, r.st, ws)
    decreases |vs|
  {
    if vs == [] {
      assert vs + ws == ws;
    } else {
      var h := cb(st, vs[0].x, vs[0].va, vs[0].level);
      assert (vs + ws)[1..] == vs[1..] + ws;
      if h.ret == 0 { FoldJoin(cb, h.st, vs[1..], ws, r); }
    }
  }

  // ---- The table that the walk leaves ----

  /** The table, with x in the slot at the given level l that va leads to. */
  function PutAt(cur: seq<Slot>, level: nat, va: Va, l: nat, x: Slot): (r: seq<Slot>)
    requires |cur| == ENTRIES && IsVa(va) && level <= 3
    ensures |r| == ENTRIES
    decreases level
  {
    if level <= l then cur[va[level] := x]
    else
      match cur[va[level]]
      case Dir(f, t) => if |t| == ENTRIES then cur[va[level] := Dir(f, PutAt(t, level - 1, va, l, x))] else cur
      case _ => cur
  }

  /** The table after the callback's results are stored, visit by visit, up to the first failure. */
  function Edit<S>(cb: (S, Slot, Va, nat) -> Hit<S>, st: S, cur: seq<Slot>, level: nat,
      vs: seq<Visit>): (r: seq<Slot>)
    requires |cur| == ENTRIES && level <= 3
    ensures |r| == ENTRIES
    decreases |vs|
  {
    if vs == [] then cur
    else
      var h := cb(st, vs[0].x, vs[0].va, vs[0].level);
      var now := if IsVa(vs[0].va) then PutAt(cur, level, vs[0].va, vs[0].level, h.slot) else cur;
      if h.ret != 0 then now else Edit(cb, h.st, now, level, vs[1..])
  }

  lemma {:induction false} EditJoin<S>(cb: (S, Slot, Va, nat) -> Hit<S>, st: S, cur: seq<Slot>, level: nat,
      vs: seq<Visit>, ws: seq<Visit>, r: End<S>, mid: seq<Slot>)
    requires |cur| == ENTRIES && level <= 3 && r == Fold(cb, st, vs) && mid == Edit(cb, st, cur, level, vs)
    ensures Edit(cb, st, cur, level, vs + ws) == if r.ret != 0 then mid else Edit(cb, r.st, mid, level, ws)
    decreases |vs|
  {
    if vs == [] {
      assert vs + ws == ws;
    } else {
      var h := cb(st, vs[0].x, vs[0].va, vs[0].level);
      var now := if IsVa(vs[0].va) then PutAt(cur, level, vs[0].va, vs[0].level, h.slot) else cur;
      assert (vs + ws)[1..] == vs[1..] + ws;
      if h.ret == 0 { EditJoin(cb, h.st, now, level, vs[1..], ws, r, mid); }
    }
  }

  /** The visit lies below slot i of a table at the given level. */
  predicate Below(t: Visit, level: nat, i: int) { level <= 3 && IsVa(t.va) && t.va[level] == i && t.level < level }

  /** Visits below one slot change the table in that slot. */
  lemma {:induction false} EditBelow<S>(cb: (S, Slot, Va, nat) -> Hit<S>, st: S, cur: seq<Slot>, level: nat, i: nat,
      vs: seq<Visit>, f: Frame, sub: seq<Slot>)
    requires 0 < level <= 3 && |cur| == |sub| == ENTRIES && i < ENTRIES && cur[i] == Dir(f, sub)
    requires forall t <- vs :: Below(t, level, i)
    ensures Edit(cb, st, cur, level, vs) == cur[i := Dir(f, Edit(cb, st, sub, level - 1, vs))]
    decreases |vs|
  {
    if vs != [] {
      var t := vs[0];
      assert Below(t, level, i);
      var h := cb(st, t.x, t.va, t.level);
      var low := PutAt(sub, level - 1, t.va, t.level, h.slot);
      var now := cur[i := Dir(f, low)];
      assert PutAt(cur, level, t.va, t.level, h.slot) == now;
      if h.ret == 0 {
        assert forall u :: u in vs[1..] ==> u in vs;
        EditBelow(cb, h.st, now, level, i, vs[1..], f, low);
        assert now[i := Dir(f, Edit(cb, h.st, low, level - 1, vs[1..]))]
            == cur[i := Dir(f, Edit(cb, h.st, low, level - 1, vs[1..]))];
      }
    } else {
      assert cur[i := cur[i]] == cur;
    }
  }

  lemma {:induction false} SlotPlace(x: Slot, level: nat, s: Va, e: Va, i: nat, t: Visit)
    requires Shaped(x) && level <= 3 && IsVa(s) && IsVa(e) && i < ENTRIES && t in SlotVisits(x, level, s, e, i)
    ensures IsVa(t.va) && t.va[level] == i && Agree(t.va, s, level) && t.level <= level
    ensures !Calls(NoCreate, x, level) ==> t.level < level
    decreases level, 0
  {
    if !Calls(NoCreate, x, level) {
      var lo := Lo(s, level, i);
      TablePlace(x.sub, level - 1, lo, Hi(s, e, level, i), lo[level - 1], t);
      assert lo[level] == i;
    }
  }

  lemma {:induction false} TablePlace(sub: seq<Slot>, level: nat, s: Va, e: Va, i: nat, t: Visit)
    requires AllShaped(sub) && level <= 3 && IsVa(s) && IsVa(e) && i <= ENTRIES && t in Visits(sub, level, s, e, i)
    ensures IsVa(t.va) && Agree(t.va, s, level) && t.level <= level
    decreases level, ENTRIES + 1 - i
  {
    if t in SlotVisits(sub[i], level, s, e, i) { SlotPlace(sub[i], level, s, e, i, t); }
    else { TablePlace(sub, level, s, e, i + 1, t); }
  }

  // ---- A walk is a fold over its visits ----

  /** The callback never changes the slot it is called on. */
  ghost predicate KeepsSlots<S(!new)>(cb: (S, Slot, Va, nat) -> Hit<S>) {
    forall st, x, va, l :: cb(st, x, va, l).slot == x
  }

  /** Slot i of table cur, walked with result h. */
  ghost predicate SlotFolded<S(!new)>(k: Walker<S>, st: S, x: Slot, level: nat, cur: seq<Slot>, i: nat,
      vs: seq<Visit>, h: Hit<S>) {
    && |cur| == ENTRIES && i < ENTRIES && level <= 3
    && Fold(k.cb, st, vs) == End(h.st, h.ret) && Edit(k.cb, st, cur, level, vs) == cur[i := h.slot]
    && (KeepsSlots(k.cb) ==> h.slot == x)
  }

  lemma CalledSlot<S(!new)>(k: Walker<S>, st: S, x: Slot, level: nat, va: Va, cur: seq<Slot>, i: nat, h: Hit<S>)
    requires |cur| == ENTRIES && i < ENTRIES && level <= 3 && IsVa(va) && va[level] == i
    requires h == k.cb(st, x, va, level)
    ensures SlotFolded(k, st, x, level, cur, i, [Visit(va, level, x)], h)
  {
    var t := Visit(va, level, x);
    assert [t][1..] == [] && Fold(k.cb, h.st, []) == End(h.st, 0);
    assert PutAt(cur, level, va, level, h.slot) == cur[i := h.slot];
    assert Edit(k.cb, h.st, cur[i := h.slot], level, []) == cur[i := h.slot];
  }

  lemma {:induction false} FoldSlot<S(!new)>(k: Walker<S>, st: S, x: Slot, level: nat, s: Va, e: Va, i: nat,
      cur: seq<Slot>, vs: seq<Visit>, h: Hit<S>)
    requires k.create.NoCreate? && Shaped(x) && level <= 3 && IsVa(s) && IsVa(e) && i < ENTRIES
    requires |cur| == ENTRIES && cur[i] == x
    requires h == Row(k, st, x, level, s, e, i) && vs == SlotVisits(x, level, s, e, i)
    ensures SlotFolded(k, st, x, level, cur, i, vs, h)
    decreases level, 0
  {
    if Calls(NoCreate, x, level) {
      CalledSlot(k, st, x, level, Cur(s, level, i), cur, i, h);
    } else if level > 0 && x.Dir? {
      var lo, hi := Lo(s, level, i), Hi(s, e, level, i);
      var o := Walk(k, st, x.sub, level - 1, lo, hi);
      FoldTable(k, st, x.sub, x.sub, level - 1, lo, hi, lo[level - 1], vs, o);
      forall t | t in vs ensures Below(t, level, i) { SlotPlace(x, level, s, e, i, t); }
      EditBelow(k.cb, st, cur, level, i, vs, x.frame, x.sub);
    } else {
      assert cur[i := x] == cur;
    }
  }

  /** Table cur, which from slot i on is still table sub, walked with result o. */
  ghost predicate TableFolded<S(!new)>(k: Walker<S>, st: S, cur: seq<Slot>, level: nat, vs: seq<Visit>, o: Out<S>) {
    && |cur| == ENTRIES && level <= 3 && Fold(k.cb, st, vs) == End(o.st, o.ret)
        && Edit(k.cb, st, cur, level, vs) == o.sub
    && (KeepsSlots(k.cb) ==> o.sub == cur)
  }

  lemma TableJoin<S(!new)>(k: Walker<S>, st: S, cur: seq<Slot>, level: nat, i: nat, here: seq<Visit>,
      rest: seq<Visit>,
      h: Hit<S>, o: Out<S>)
    requires |cur| == ENTRIES && i < ENTRIES && SlotFolded(k, st, cur[i], level, cur, i, here, h)
    requires if h.ret != 0 then o == Out(h.st, cur[i := h.slot], h.ret)
             else TableFolded(k, h.st, cur[i := h.slot], level, rest, o)
    ensures TableFolded(k, st, cur, level, here + rest, o)
  {
    FoldJoin(k.cb, st, here, rest, End(h.st, h.ret));
    EditJoin(k.cb, st, cur, level, here, rest, End(h.st, h.ret), cur[i := h.slot]);
    assert cur[i := cur[i]] == cur;
  }

  lemma {:induction false} FoldTable<S(!new)>(k: Walker<S>, st: S, sub: seq<Slot>, cur: seq<Slot>, level: nat, s: Va,
      e: Va, i: nat, vs: seq<Visit>, o: Out<S>)
    requires k.create.NoCreate? && AllShaped(sub) && level <= 3 && IsVa(s) && IsVa(e) && i <= ENTRIES
    requires |cur| == ENTRIES && forall j :: i <= j < ENTRIES ==> cur[j] == sub[j]
    requires o == Rows(k, st, cur, level, s, e, i) && vs == Visits(sub, level, s, e, i)
    ensures TableFolded(k, st, cur, level, vs, o)
    decreases level, ENTRIES + 1 - i
  {
    if i <= e[level] {
      var here, rest := SlotVisits(sub[i], level, s, e, i), Visits(sub, level, s, e, i + 1);
      var h := Row(k, st, cur[i], level, s, e, i);
      FoldSlot(k, st, cur[i], level, s, e, i, cur, here, h);
      if h.ret == 0 { FoldTable(k, h.st, sub, cur[i := h.slot], level, s, e, i + 1, rest, o); }
      TableJoin(k, st, cur, level, i, here, rest, h, o);
    }
  }

  // ---- Each entry once, in ascending order ----

  /** The visit names an entry of this table that meets the range, by the page where it begins. */
  predicate Sound(t: Visit, sub: seq<Slot>, level: nat, s: Va, e: Va, i: int)
    requires AllShaped(sub) && level <= 3 && IsVa(s) && IsVa(e)
  {
    && IsVa(t.va) && t.level <= level && Agree(t.va, s, level) && i <= t.va[level] <= e[level]
        && Floor(t.va, t.level) == t.va
    && t.x.Leaf? && View(sub, level, t.va) == Seen(t.x.e, t.level)
    && Within(Floor(s, t.level), Top(e, t.level), t.va, level)
  }

  lemma LeafSound(sub: seq<Slot>, level: nat, s: Va, e: Va, i: nat)
    requires AllShaped(sub) && level <= 3 && IsVa(s) && IsVa(e) && s[level] <= i <= e[level] && sub[i].Leaf?
    requires Calls(NoCreate, sub[i], level)
    ensures Sound(Visit(Cur(s, level, i), level, sub[i]), sub, level, s, e, i)
  {
    var a := Cur(s, level, i);
    LeZero(Floor(s, level), a, level);
    if level > 0 {
      LeZero(Floor(s, level), a, level - 1);
      LeZero(a, Top(e, level), level - 1);
    }
  }

  lemma DirSound(sub: seq<Slot>, level: nat, s: Va, e: Va, i: nat, t: Visit)
    requires AllShaped(sub) && 0 < level <= 3 && IsVa(s) && IsVa(e) && s[level] <= i <= e[level] && sub[i].Dir?
    requires Sound(t, sub[i].sub, level - 1, Lo(s, level, i), Hi(s, e, level, i), Lo(s, level, i)[level - 1])
    ensures Sound(t, sub, level, s, e, i) && t.va[level] == i
  {
    assert t.va[level] == Lo(s, level, i)[level] == i;
    ChangeBelow(s, e, level, i, t.level, t.va);
  }

  lemma {:induction false} SlotSound(sub: seq<Slot>, level: nat, s: Va, e: Va, i: nat, t: Visit)
    requires Tidy(sub, level) && AllShaped(sub) && level <= 3 && IsVa(s) && IsVa(e) && s[level] <= i <= e[level]
    requires t in SlotVisits(sub[i], level, s, e, i)
    ensures Sound(t, sub, level, s, e, i) && t.va[level] == i
    decreases level, 0
  {
    var x := sub[i];
    assert Proper(x, level);
    if Calls(NoCreate, x, level) {
      LeafSound(sub, level, s, e, i);
    } else {
      var lo := Lo(s, level, i);
      VisitsSound(x.sub, level - 1, lo, Hi(s, e, level, i), lo[level - 1], t);
      DirSound(sub, level, s, e, i, t);
    }
  }

  lemma {:induction false} VisitsSound(sub: seq<Slot>, level: nat, s: Va, e: Va, i: nat, t: Visit)
    requires Tidy(sub, level) && AllShaped(sub) && level <= 3 && IsVa(s) && IsVa(e) && s[level] <= i <= ENTRIES
    requires t in Visits(sub, level, s, e, i)
    ensures Sound(t, sub, level, s, e, i)
    decreases level, ENTRIES + 1 - i
  {
    if t in SlotVisits(sub[i], level, s, e, i) {
      SlotSound(sub, level, s, e, i, t);
    } else {
      VisitsSound(sub, level, s, e, i + 1, t);
    }
  }

  /** A page of slot i that meets the range meets the range below that slot. */
  lemma BelowMeets(s: Va, e: Va, level: nat, i: nat, v: Va, l: nat, lo: Va, hi: Va)
    requires IsVa(s) && IsVa(e) && IsVa(v) && l < level <= 3 && s[level] <= i <= e[level] && v[level] == i
    requires Agree(v, s, level) && Within(Floor(s, l), Top(e, l), v, level) && lo == Lo(s, level, i)
    requires hi == Hi(s, e, level, i)
    ensures Agree(v, lo, level - 1) && lo[level - 1] <= v[level - 1] && Within(Floor(lo, l), Top(hi, l), v, level - 1)
  {
    ChangeBelow(s, e, level, i, l, v);
    FloorDigit(lo, v, l, level - 1);
  }

  /** The entry that maps v, if its slot meets the range, is visited. */
  lemma {:induction false} VisitsComplete(sub: seq<Slot>, level: nat, s: Va, e: Va, i: nat, v: Va, x: Pte, l: nat)
    requires Tidy(sub, level) && AllShaped(sub) && level <= 3 && IsVa(s) && IsVa(e) && IsVa(v)
    requires s[level] <= i <= v[level]
    requires Agree(v, s, level) && View(sub, level, v) == Seen(x, l) && Within(Floor(s, l), Top(e, l), v, level)
    ensures Visit(Floor(v, l), l, Leaf(x)) in Visits(sub, level, s, e, i)
    decreases level, ENTRIES + 1 - i
  {
    LevelBound(sub, level, v);
    if i < v[level] {
      VisitsComplete(sub, level, s, e, i + 1, v, x, l);
    } else {
      var y := sub[i];
      assert Proper(y, level);
      if y.Dir? {
        var lo, hi := Lo(s, level, i), Hi(s, e, level, i);
        LevelBound(y.sub, level - 1, v);
        BelowMeets(s, e, level, i, v, l, lo, hi);
        VisitsComplete(y.sub, level - 1, lo, hi, lo[level - 1], v, x, l);
      } else {
        assert Floor(v, l) == Cur(s, level, i);
      }
    }
  }

  lemma FloorDigit(a: Va, b: Va, l: nat, level: nat)
    requires IsVa(a) && IsVa(b) && l <= level <= 3 && Le(Floor(a, l), b, level)
    ensures a[level] <= b[level]
  {}

  /** Nothing that t covers comes after the page where u begins. */
  predicate Precedes(t: Visit, u: Visit) { IsVa(t.va) && IsVa(u.va) && !Le(u.va, Top(t.va, t.level), 3) }

  lemma {:induction false} LowerDigit(a: Va, b: Va, level: nat, m: nat)
    requires IsVa(a) && IsVa(b) && level <= m <= 3 && Agree(a, b, level) && a[level] < b[level]
    ensures !Le(b, a, m)
  {
    if m > level { LowerDigit(a, b, level, m - 1); }
  }

  lemma AscendAcross(sub: seq<Slot>, level: nat, s: Va, e: Va, i: nat, t: Visit, u: Visit)
    requires Tidy(sub, level) && AllShaped(sub) && level <= 3 && IsVa(s) && IsVa(e) && s[level] <= i <= e[level]
    requires t in SlotVisits(sub[i], level, s, e, i) && u in Visits(sub, level, s, e, i + 1)
    ensures Precedes(t, u)
  {
    SlotSound(sub, level, s, e, i, t);
    VisitsSound(sub, level, s, e, i + 1, u);
    LowerDigit(Top(t.va, t.level), u.va, level, 3);
  }

  predicate Ascending(vs: seq<Visit>) { forall m, n :: 0 <= m < n < |vs| ==> Precedes(vs[m], vs[n]) }

  lemma AscendJoin(here: seq<Visit>, rest: seq<Visit>)
    requires Ascending(here) && Ascending(rest) && forall t <- here, u <- rest :: Precedes(t, u)
    ensures Ascending(here + rest)
  {
    forall m, n | 0 <= m < n < |here + rest| ensures Precedes((here + rest)[m], (here + rest)[n]) {
      if m < |here| <= n { assert here[m] in here && rest[n - |here|] in rest; }
    }
  }

  lemma {:induction false} SlotAscends(x: Slot, level: nat, s: Va, e: Va, i: nat)
    requires Proper(x, level) && Shaped(x) && level <= 3 && IsVa(s) && IsVa(e) && s[level] <= i <= e[level]
    ensures Ascending(SlotVisits(x, level, s, e, i))
    decreases level, 0
  {
    if !Calls(NoCreate, x, level) && level > 0 && x.Dir? {
      VisitsAscend(x.sub, level - 1, Lo(s, level, i), Hi(s, e, level, i), Lo(s, level, i)[level - 1]);
    }
  }

  lemma {:induction false} VisitsAscend(sub: seq<Slot>, level: nat, s: Va, e: Va, i: nat)
    requires Tidy(sub, level) && AllShaped(sub) && level <= 3 && IsVa(s) && IsVa(e) && s[level] <= i <= ENTRIES
    ensures Ascending(Visits(sub, level, s, e, i))
    decreases level, ENTRIES + 1 - i
  {
    if i <= e[level] {
      var here, rest := SlotVisits(sub[i], level, s, e, i), Visits(sub, level, s, e, i + 1);
      SlotAscends(sub[i], level, s, e, i);
      VisitsAscend(sub, level, s, e, i + 1);
      forall t, u | t in here && u in rest ensures Precedes(t, u) { AscendAcross(sub, level, s, e, i, t, u); }
      AscendJoin(here, rest);
    }
  }

  /** v is mapped by an entry whose slot meets the range. */
  ghost predicate Met(root: seq<Slot>, s: Va, e: Va, v: Va)
    requires AllShaped(root) && IsVa(s) && IsVa(e)
  {
    IsVa(v) && View(root, 3, v).Seen?
        && Within(Floor(s, View(root, 3, v).level), Top(e, View(root, 3, v).level), v, 3)
  }

  /** For every callback, a walk without creation is a fold over the table's visits, and leaves the table with the
      callback's results stored at the visits: one for each entry whose slot meets the range, none besides, and
      in ascending order. */
  lemma WalkVisits<S(!new)>(k: Walker<S>, st: S, root: seq<Slot>, s: Va, e: Va, vs: seq<Visit>, o: Out<S>)
    requires k.create.NoCreate? && Tidy(root, 3) && AllShaped(root) && IsVa(s) && IsVa(e)
    requires vs == Visits(root, 3, s, e, s[3]) && o == Walk(k, st, root, 3, s, e)
    ensures End(o.st, o.ret) == Fold(k.cb, st, vs) && o.sub == Edit(k.cb, st, root, 3, vs)
    ensures KeepsSlots(k.cb) ==> o.sub == root
    ensures Ascending(vs)
    ensures forall t <- vs :: Sound(t, root, 3, s, e, s[3])
    ensures forall v :: Met(root, s, e, v) ==>
          Visit(Floor(v, View(root, 3, v).level), View(root, 3, v).level, Leaf(View(root, 3, v).e)) in vs
  {
    FoldTable(k, st, root, root, 3, s, e, s[3], vs, o);
    VisitsAscend(root, 3, s, e, s[3]);
    forall t | t in vs ensures Sound(t, root, 3, s, e, s[3]) { VisitsSound(root, 3, s, e, s[3], t); }
    forall v | Met(root, s, e, v)
      ensures Visit(Floor(v, View(root, 3, v).level), View(root, 3, v).level, Leaf(View(root, 3, v).e)) in vs
    {
      var l := View(root, 3, v).level;
      LevelBound(root, 3, v);
      FloorDigit(s, v, l, 3);
      VisitsComplete(root, 3, s, e, s[3], v, View(root, 3, v).e, l);
    }
  }
}
