/**
 The four-level page tables of libdune/vm.c: the recursive walk with its callback, the
 batched walk, and lookup. A table is a tree, so no two slots share a table page.
 */
module PageTable {
  import opened Options
  import opened PageEntry

  const ENTRIES := 512
  const ENOMEM := 12
  const ENOENT := 2

  /** A table slot: a zero word, an entry that maps a page, or the address of a lower table. */
  datatype Slot = Empty | Leaf(e: Pte) | Dir(frame: Frame, sub: seq<Slot>)

  /** A virtual page number by its four table indices; va[3] selects in the root. */
  type Va = seq<int>

  predicate IsVa(va: Va) { |va| == 4 && forall i :: 0 <= i < 4 ==> 0 <= va[i] < ENTRIES }

  datatype Create = NoCreate | Normal | Big | Huge

  function Blank(n: nat): (t: seq<Slot>)
    ensures |t| == n && forall i :: 0 <= i < n ==> t[i] == Empty
  {
    seq(n, i => Empty)
  }

  /** A page of zeros, seen as a table. */
  const ZEROS: seq<Slot> := Blank(ENTRIES)

  const ZERO_ENTRY := Pte(Frame(0), false, false, false, false, false, false, false, false, false, false, Rest(0),
      Rest(0))

  /** The slot that holds the word e. */
  function Store(e: Pte): Slot { if e == ZERO_ENTRY then Empty else Leaf(e) }

  /** Every table has 512 slots. */
  predicate Shaped(x: Slot) { x.Dir? ==> |x.sub| == ENTRIES && forall i :: 0 <= i < ENTRIES ==> Shaped(x.sub[i]) }

  predicate AllShaped(sub: seq<Slot>) { |sub| == ENTRIES && forall i :: 0 <= i < ENTRIES ==> Shaped(sub[i]) }

  /** Tables only above level 0; big entries only at levels 1 and 2, ordinary ones only at level 0. */
  predicate Proper(x: Slot, level: nat)
    decreases level
  {
    match x
    case Empty => true
    case Leaf(e) => e != ZERO_ENTRY && if level == 0 then !e.big else level <= 2 && e.big
    case Dir(_, sub) => level > 0 && |sub| == ENTRIES && forall i :: 0 <= i < ENTRIES ==> Proper(sub[i], level - 1)
  }

  predicate Tidy(sub: seq<Slot>, level: nat) {
    |sub| == ENTRIES && forall i :: 0 <= i < ENTRIES ==> Proper(sub[i], level)
  }

  // ---- Addresses ----

  /** The first and the last page that agree with va from the given level up. */
  function Floor(va: Va, level: nat): (r: Va)
    requires IsVa(va)
    ensures IsVa(r)
  {
    seq(4, i requires 0 <= i < 4 => if i < level then 0 else va[i])
  }

  function Top(va: Va, level: nat): (r: Va)
    requires IsVa(va)
    ensures IsVa(r)
  {
    seq(4, i requires 0 <= i < 4 => if i < level then ENTRIES - 1 else va[i])
  }

  /** The address of slot i, at the given level, of the table that va leads to. */
  function Cur(va: Va, level: nat, i: int): (r: Va)
    requires IsVa(va) && level <= 3 && 0 <= i < ENTRIES
    ensures IsVa(r)
  {
    Floor(va, level)[level := i]
  }

  /** The walk's own range below slot i: lines 107-108. */
  function Lo(s: Va, level: nat, i: int): (r: Va)
    requires IsVa(s) && level <= 3 && 0 <= i < ENTRIES
    ensures IsVa(r)
  {
    if i == s[level] then s else Cur(s, level, i)
  }

  function Hi(s: Va, e: Va, level: nat, i: int): (r: Va)
    requires IsVa(s) && IsVa(e) && level <= 3 && 0 <= i < ENTRIES
    ensures IsVa(r)
  {
    if i == e[level] then e else Top(Cur(s, level, i), level)
  }

  /** a is not after b, as far as the indices up to the given level tell. */
  predicate Le(a: Va, b: Va, level: nat)
    requires IsVa(a) && IsVa(b) && level <= 3
  {
    a[level] < b[level] || (a[level] == b[level] && (level == 0 || Le(a, b, level - 1)))
  }

  predicate Within(s: Va, e: Va, v: Va, level: nat)
    requires IsVa(s) && IsVa(e) && IsVa(v) && level <= 3
  {
    Le(s, v, level) && Le(v, e, level)
  }

  /** The page number itself; comparing indices is comparing numbers. */
  function Number(va: Va): int
    requires IsVa(va)
  {
    ((va[3] * 512 + va[2]) * 512 + va[1]) * 512 + va[0]
  }

  lemma LeIsNumeric(a: Va, b: Va)
    requires IsVa(a) && IsVa(b)
    ensures Le(a, b, 3) <==> Number(a) <= Number(b)
  {
    assert Le(a, b, 0) <==> a[0] <= b[0];
    assert Le(a, b, 1) <==> a[1] * 512 + a[0] <= b[1] * 512 + b[0];
    assert Le(a, b, 2) <==> (a[2] * 512 + a[1]) * 512 + a[0] <= (b[2] * 512 + b[1]) * 512 + b[0];
  }

  // ---- The walk ----

  /** What a callback returns: its own state, the slot's new contents, and its status. */
  datatype Hit<S> = Hit(st: S, slot: Slot, ret: int)
  datatype Grant<S> = Grant(st: S, frame: Option<Frame>)
  datatype Out<S> = Out(st: S, sub: seq<Slot>, ret: int)

  datatype Walker<!S> = Walker(cb: (S, Slot, Va, nat) -> Hit<S>, create: Create, alloc: S -> Grant<S>)

  predicate IsBig(x: Slot) { x.Leaf? && x.e.big }

  /** The callback is called on this slot rather than on the table below it: lines 67-92. */
  predicate Calls(create: Create, x: Slot, level: nat) {
    || (level == 0 && (create.Normal? || !x.Empty?))
    || (level == 1 && (create.Big? || IsBig(x)))
    || (level == 2 && (create.Huge? || IsBig(x)))
  }

  /** __dune_vm_page_walk on one table. */
  function Walk<S>(k: Walker<S>, st: S, sub: seq<Slot>, level: nat, s: Va, e: Va): (o: Out<S>)
    requires AllShaped(sub) && level <= 3 && IsVa(s) && IsVa(e)
    ensures |o.sub| == ENTRIES
    decreases level, ENTRIES + 1
  {
    Rows(k, st, sub, level, s, e, s[level])
  }

  /** Its loop, from slot i on. */
  function Rows<S>(k: Walker<S>, st: S, sub: seq<Slot>, level: nat, s: Va, e: Va, i: nat): (o: Out<S>)
    requires |sub| == ENTRIES && i <= ENTRIES && (forall j :: i <= j < ENTRIES ==> Shaped(sub[j]))
    requires level <= 3 && IsVa(s) && IsVa(e)
    ensures |o.sub| == ENTRIES
    decreases level, ENTRIES - i
  {
    if i > e[level] then Out(st, sub, 0)
    else
      var h := Row(k, st, sub[i], level, s, e, i);
      if h.ret != 0 then Out(h.st, sub[i := h.slot], h.ret)
      else Rows(k, h.st, sub[i := h.slot], level, s, e, i + 1)
  }

  /** The loop's body. */
  function Row<S>(k: Walker<S>, st: S, x: Slot, level: nat, s: Va, e: Va, i: nat): (h: Hit<S>)
    requires i < ENTRIES && Shaped(x) && level <= 3 && IsVa(s) && IsVa(e)
    decreases level, 0
  {
    if Calls(k.create, x, level) then k.cb(st, x, Cur(s, level, i), level)
    else if level == 0 then Hit(st, x, 0)
    else if x.Dir? then
      var o := Walk(k, st, x.sub, level - 1, Lo(s, level, i), Hi(s, e, level, i));
      Hit(o.st, Dir(x.frame, o.sub), o.ret)
    else if k.create.NoCreate? then Hit(st, x, 0)
    else
      var g := k.alloc(st);
      if g.frame.None? then Hit(g.st, x, -ENOMEM)
      else
        var o := Walk(k, g.st, ZEROS, level - 1, Lo(s, level, i), Hi(s, e, level, i));
        Hit(o.st, Dir(g.frame.value, o.sub), o.ret)
  }

  /** The walk as the source runs it, a loop at each level. */
  method PageWalk<S>(k: Walker<S>, st: S, sub: seq<Slot>, level: nat, s: Va, e: Va) returns (o: Out<S>)
    requires AllShaped(sub) && level <= 3 && IsVa(s) && IsVa(e)
    ensures o == Walk(k, st, sub, level, s, e)
    decreases level
  {
    var cur, dir := st, sub;
    var i := s[level];
    while i <= e[level]
      invariant 0 <= i <= ENTRIES && |dir| == ENTRIES && forall j :: i <= j < ENTRIES ==> Shaped(dir[j])
      invariant Walk(k, st, sub, level, s, e) == Rows(k, cur, dir, level, s, e, i)
      decreases ENTRIES - i
    {
      var x := dir[i];
      var h;
      if Calls(k.create, x, level) {
        h := k.cb(cur, x, Cur(s, level, i), level);
      } else if level == 0 {
        h := Hit(cur, x, 0);
      } else if !x.Dir? && k.create.NoCreate? {
        h := Hit(cur, x, 0);
      } else {
        var table, frame := ZEROS, Frame(0);
        if x.Dir? {
          table, frame := x.sub, x.frame;
        } else {
          var g := k.alloc(cur);
          cur := g.st;
          if g.frame.None? {
            return Out(cur, dir, -ENOMEM);
          }
          frame := g.frame.value;
        }
        var low := PageWalk(k, cur, table, level - 1, Lo(s, level, i), Hi(s, e, level, i));
        h := Hit(low.st, Dir(frame, low.sub), low.ret);
      }
      cur, dir := h.st, dir[i := h.slot];
      if h.ret != 0 {
        return Out(cur, dir, h.ret);
      }
      i := i + 1;
    }
    o := Out(cur, dir, 0);
  }

  // ---- The batched walk ----

  /** __dune_vm_page_walk_batch: a page table that the range covers whole goes to cb2. */
  function Batch<S>(k: Walker<S>, cb2: (S, seq<Slot>, Va) -> Out<S>, st: S, sub: seq<Slot>, level: nat, s: Va,
      e: Va): (o: Out<S>)
    requires AllShaped(sub) && level <= 3 && IsVa(s) && IsVa(e)
    decreases level, ENTRIES + 1
  {
    if level == 0 && s[0] == 0 && e[0] == ENTRIES - 1 then cb2(st, sub, Cur(s, 0, 0))
    else BatchRows(k, cb2, st, sub, level, s, e, s[level])
  }

  function BatchRows<S>(k: Walker<S>, cb2: (S, seq<Slot>, Va) -> Out<S>, st: S, sub: seq<Slot>, level: nat, s: Va,
      e: Va, i: nat): (o: Out<S>)
    requires |sub| == ENTRIES && i <= ENTRIES && (forall j :: i <= j < ENTRIES ==> Shaped(sub[j]))
    requires level <= 3 && IsVa(s) && IsVa(e)
    decreases level, ENTRIES - i
  {
    if i > e[level] then Out(st, sub, 0)
    else
      var h := BatchRow(k, cb2, st, sub[i], level, s, e, i);
      if h.ret != 0 then Out(h.st, sub[i := h.slot], h.ret)
      else BatchRows(k, cb2, h.st, sub[i := h.slot], level, s, e, i + 1)
  }

  function BatchRow<S>(k: Walker<S>, cb2: (S, seq<Slot>, Va) -> Out<S>, st: S, x: Slot, level: nat, s: Va, e: Va,
      i: nat): (h: Hit<S>)
    requires i < ENTRIES && Shaped(x) && level <= 3 && IsVa(s) && IsVa(e)
    decreases level, 0
  {
    if Calls(k.create, x, level) then k.cb(st, x, Cur(s, level, i), level)
    else if level == 0 then Hit(st, x, 0)
    else if x.Dir? then
      var o := Batch(k, cb2, st, x.sub, level - 1, Lo(s, level, i), Hi(s, e, level, i));
      Hit(o.st, Dir(x.frame, o.sub), o.ret)
    else if k.create.NoCreate? then Hit(st, x, 0)
    else
      var g := k.alloc(st);
      if g.frame.None? then Hit(g.st, x, -ENOMEM)
      else
        var o := Batch(k, cb2, g.st, ZEROS, level - 1, Lo(s, level, i), Hi(s, e, level, i));
        Hit(o.st, Dir(g.frame.value, o.sub), o.ret)
  }

  /** A last-level callback that applies cb to each nonzero entry, up to the first failure. */
  function Each<S>(cb: (S, Slot, Va, nat) -> Hit<S>, st: S, sub: seq<Slot>, va: Va, i: nat): (o: Out<S>)
    requires |sub| == ENTRIES && IsVa(va) && i <= ENTRIES
    decreases ENTRIES - i
  {
    if i == ENTRIES then Out(st, sub, 0)
    else if sub[i].Empty? then Each(cb, st, sub, va, i + 1)
    else
      var h := cb(st, sub[i], va[0 := i], 0);
      if h.ret != 0 then Out(h.st, sub[i := h.slot], h.ret)
      else Each(cb, h.st, sub[i := h.slot], va, i + 1)
  }

  /** cb2 does what Each does. */
  ghost predicate Applies<S(!new)>(cb: (S, Slot, Va, nat) -> Hit<S>, cb2: (S, seq<Slot>, Va) -> Out<S>) {
    forall st, sub, va :: |sub| == ENTRIES && IsVa(va) ==> cb2(st, sub, va) == Each(cb, st, sub, va, 0)
  }

  lemma {:induction false} EachIsRows<S(!new)>(k: Walker<S>, st: S, sub: seq<Slot>, s: Va, e: Va, i: nat)
    requires k.create.NoCreate? && |sub| == ENTRIES && i <= ENTRIES
    requires forall j :: i <= j < ENTRIES ==> Shaped(sub[j])
    requires IsVa(s) && IsVa(e) && e[0] == ENTRIES - 1
    ensures Each(k.cb, st, sub, Cur(s, 0, 0), i) == Rows(k, st, sub, 0, s, e, i)
    decreases ENTRIES - i
  {
    if i < ENTRIES {
      assert Cur(s, 0, 0)[0 := i] == Cur(s, 0, i);
      var h := Row(k, st, sub[i], 0, s, e, i);
      assert sub[i := sub[i]] == sub;
      if h.ret == 0 { EachIsRows(k, h.st, sub[i := h.slot], s, e, i + 1); }
    }
  }

  /** For every callback, the batched walk with such a last-level callback has the
      same effect and result as the plain walk without creation. */
  lemma {:induction false} BatchIsWalk<S(!new)>(k: Walker<S>, cb2: (S, seq<Slot>, Va) -> Out<S>, st: S,
      sub: seq<Slot>, level: nat, s: Va, e: Va)
    requires k.create.NoCreate? && Applies(k.cb, cb2) && AllShaped(sub) && level <= 3 && IsVa(s) && IsVa(e)
    ensures Batch(k, cb2, st, sub, level, s, e) == Walk(k, st, sub, level, s, e)
    decreases level, ENTRIES + 1
  {
    if level == 0 && s[0] == 0 && e[0] == ENTRIES - 1 {
      EachIsRows(k, st, sub, s, e, 0);
    } else {
      BatchIsRows(k, cb2, st, sub, level, s, e, s[level]);
    }
  }

  lemma {:induction false} BatchIsRows<S(!new)>(k: Walker<S>, cb2: (S, seq<Slot>, Va) -> Out<S>, st: S,
      sub: seq<Slot>, level: nat, s: Va, e: Va, i: nat)
    requires k.create.NoCreate? && Applies(k.cb, cb2) && |sub| == ENTRIES && i <= ENTRIES
    requires forall j :: i <= j < ENTRIES ==> Shaped(sub[j])
    requires level <= 3 && IsVa(s) && IsVa(e)
    ensures BatchRows(k, cb2, st, sub, level, s, e, i) == Rows(k, st, sub, level, s, e, i)
    decreases level, ENTRIES - i
  {
    if i <= e[level] {
      var x := sub[i];
      if !Calls(k.create, x, level) && level > 0 && x.Dir? {
        BatchIsWalk(k, cb2, st, x.sub, level - 1, Lo(s, level, i), Hi(s, e, level, i));
      }
      var h := Row(k, st, x, level, s, e, i);
      if h.ret == 0 { BatchIsRows(k, cb2, h.st, sub[i := h.slot], level, s, e, i + 1); }
    }
  }
}
