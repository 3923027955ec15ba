/**
 The page allocator of libdune/page.c. The first part is the concurrent machine: growth with its
 atomic add and undo, pages on their way between lists and holders, reference
 counts. The second part is the operations with their loops, on an allocator object.
 */
module PageAllocator {
  import opened Options

  const GROW_SIZE := 512
  const NUM_LISTS := 104
  const MAX_PAGES := 0x20_0000
  const MAX_CHUNKS := 4096
  const MAX_ATTEMPTS := 100000

  type Page = int // index into the page array
  type Thread = int

  /** History: on the free list l, in the hands of a thread with count 0, or in use. */
  datatype Spot = Listed(l: int) | Held(t: Thread) | Used

  /** num is num_pages. As history, handed counts the chunks handed out and fails the
      additions beyond MAX_PAGES that are not yet undone. */
  datatype State = State(num: int, handed: int, fails: int, lists: seq<seq<Page>>, ref: map<Page, int>,
      spot: map<Page, Spot>)

  datatype Step =
    | Add(t: Thread) | Undo // lines 77-86
    | Insert(t: Thread, p: Page, l: int) | Pop(t: Thread, l: int) // under the list's mutex
    | Take(t: Thread, p: Page) | Get(p: Page) | Put(t: Thread, p: Page)

  predicate HasList(s: State, l: int) { 0 <= l < |s.lists| }

  predicate Holds(s: State, t: Thread, p: Page) { p in s.spot && p in s.ref && s.spot[p] == Held(t) }

  predicate InUse(s: State, p: Page) { p in s.spot && p in s.ref && s.ref[p] > 0 }

  predicate Enabled(s: State, t: Step) {
    match t
    case Add(_) => true
    case Undo => s.fails > 0
    case Insert(t, p, l) => HasList(s, l) && Holds(s, t, p)
    case Pop(_, l) => HasList(s, l) && s.lists[l] != []
    case Take(t, p) => Holds(s, t, p)
    case Get(p) => InUse(s, p)
    case Put(_, p) => InUse(s, p)
  }

  predicate InChunk(from: int, p: Page) { from <= p < from + GROW_SIZE }

  function Chunk(from: int): set<Page> { set p | from <= p < from + GROW_SIZE && InChunk(from, p) }

  function Exec(s: State, t: Step): State
    requires Enabled(s, t)
  {
    match t
    case Add(t) =>
      if s.num + GROW_SIZE > MAX_PAGES then s.(num := s.num + GROW_SIZE, fails := s.fails + 1)
      else s.(num := s.num + GROW_SIZE, handed := s.handed + 1,
              ref := s.ref + map p | p in Chunk(s.num) :: 0, spot := s.spot + map p | p in Chunk(s.num) :: Held(t))
    case Undo => s.(num := s.num - GROW_SIZE, fails := s.fails - 1)
    case Insert(_, p, l) => s.(lists := s.lists[l := [p] + s.lists[l]], spot := s.spot[p := Listed(l)])
    case Pop(t, l) => s.(lists := s.lists[l := s.lists[l][1..]], spot := s.spot[s.lists[l][0] := Held(t)])
    case Take(_, p) => s.(ref := s.ref[p := s.ref[p] + 1], spot := s.spot[p := Used])
    case Get(p) => s.(ref := s.ref[p := s.ref[p] + 1])
    case Put(t, p) =>
      s.(ref := s.ref[p := s.ref[p] - 1], spot := if s.ref[p] == 1 then s.spot[p := Held(t)] else s.spot)
  }

  predicate Init(s: State) {
    && s.num == 0 && s.handed == 0 && s.fails == 0 && s.ref == map[] && s.spot == map[]
    && |s.lists| == NUM_LISTS && forall l :: 0 <= l < NUM_LISTS ==> s.lists[l] == []
  }

  // ---- The invariant ----

  /** The undone part of num_pages: an addition can fail only once every chunk is handed out. */
  predicate Counted(s: State) {
    && s.num == GROW_SIZE * (s.handed + s.fails) && 0 <= s.handed <= MAX_CHUNKS && 0 <= s.fails
    && (s.fails > 0 ==> s.handed == MAX_CHUNKS)
  }

  predicate ListOk(s: State, l: int) {
    && HasList(s, l)
    && (forall i :: 0 <= i < |s.lists[l]| ==> s.lists[l][i] in s.spot && s.spot[s.lists[l][i]] == Listed(l))
    && (forall i, j :: 0 <= i < j < |s.lists[l]| ==> s.lists[l][i] != s.lists[l][j])
  }

  predicate PageOk(s: State, p: Page) {
    && p in s.spot && p in s.ref && 0 <= p < GROW_SIZE * s.handed && s.ref[p] >= 0
        && (s.spot[p].Used? <==> s.ref[p] > 0)
    && (s.spot[p].Listed? ==> HasList(s, s.spot[p].l) && p in s.lists[s.spot[p].l])
  }

  predicate Inv(s: State) {
    && Counted(s) && |s.lists| == NUM_LISTS
    && (forall l :: 0 <= l < NUM_LISTS ==> ListOk(s, l))
    && (forall p <- s.spot :: PageOk(s, p)) && (forall p <- s.ref :: p in s.spot)
    && (forall p :: 0 <= p < GROW_SIZE * s.handed ==> p in s.spot)
  }

  // ---- Every step keeps it ----

  lemma AddKeeps(s: State, t: Thread)
    requires Inv(s)
    ensures Inv(Exec(s, Add(t)))
    ensures s.num + GROW_SIZE <= MAX_PAGES ==> s.num == GROW_SIZE * s.handed
  {
    var s' := Exec(s, Add(t));
    forall l | 0 <= l < NUM_LISTS ensures ListOk(s', l) {
      assert ListOk(s, l);
      forall i | 0 <= i < |s'.lists[l]| ensures s'.lists[l][i] in s'.spot && s'.spot[s'.lists[l][i]] == Listed(l) {
        assert PageOk(s, s.lists[l][i]);
      }
    }
    forall p | p in s'.spot ensures PageOk(s', p) { assert p in s.spot ==> PageOk(s, p); }
  }

  lemma InsertKeeps(s: State, t: Thread, p: Page, l: int)
    requires Inv(s) && Enabled(s, Insert(t, p, l))
    ensures Inv(Exec(s, Insert(t, p, l)))
  {
    var s' := Exec(s, Insert(t, p, l));
    forall m | 0 <= m < NUM_LISTS ensures ListOk(s', m) { assert ListOk(s, m); }
    forall q | q in s'.spot ensures PageOk(s', q) {
      assert PageOk(s, q);
      assert s'.lists[l][0] == p;
      if q in s.lists[l] {
        var i :| 0 <= i < |s.lists[l]| && s.lists[l][i] == q;
        assert s'.lists[l][i + 1] == q;
      }
    }
  }

  lemma PopKeeps(s: State, t: Thread, l: int)
    requires Inv(s) && Enabled(s, Pop(t, l))
    ensures Inv(Exec(s, Pop(t, l)))
  {
    var s' := Exec(s, Pop(t, l));
    assert ListOk(s, l);
    forall m | 0 <= m < NUM_LISTS ensures ListOk(s', m) { assert ListOk(s, m); }
    forall q | q in s'.spot ensures PageOk(s', q) {
      assert PageOk(s, q);
      if q in s.lists[l] && q != s.lists[l][0] {
        var i :| 0 <= i < |s.lists[l]| && s.lists[l][i] == q;
        assert s'.lists[l][i - 1] == q;
      }
    }
  }

  lemma CountKeeps(s: State, t: Step)
    requires Inv(s) && Enabled(s, t) && (t.Take? || t.Get? || t.Put? || t.Undo?)
    ensures Inv(Exec(s, t))
  {
    var s' := Exec(s, t);
    forall m | 0 <= m < NUM_LISTS ensures ListOk(s', m) {
      assert ListOk(s, m);
      if !t.Undo? { assert PageOk(s, t.p); }
    }
    forall q | q in s'.spot ensures PageOk(s', q) { assert PageOk(s, q); }
  }

  lemma StepKeeps(s: State, t: Step)
    requires Inv(s) && Enabled(s, t)
    ensures Inv(Exec(s, t))
  {
    match t
    case Add(t) => AddKeeps(s, t);
    case Insert(t, p, l) => InsertKeeps(s, t, p, l);
    case Pop(t, l) => PopKeeps(s, t, l);
    case _ => CountKeeps(s, t);
  }

  // ---- Runs ----

  predicate Valid(s: State, ts: seq<Step>)
    decreases |ts|
  {
    ts == [] || (Enabled(s, ts[0]) && Valid(Exec(s, ts[0]), ts[1..]))
  }

  function After(s: State, ts: seq<Step>): State
    requires Valid(s, ts)
    decreases |ts|
  {
    if ts == [] then s else After(Exec(s, ts[0]), ts[1..])
  }

  lemma {:induction false} RunKeeps(s: State, ts: seq<Step>)
    requires Inv(s) && Valid(s, ts)
    ensures Inv(After(s, ts))
    decreases |ts|
  {
    if ts != [] {
      StepKeeps(s, ts[0]);
      RunKeeps(Exec(s, ts[0]), ts[1..]);
    }
  }

  predicate InTransit(s: State, p: Page) { p in s.spot && s.spot[p].Held? && p in s.ref && s.ref[p] == 0 }

  predicate OnList(s: State, l: int, i: int, p: Page) {
    0 <= l < |s.lists| && 0 <= i < |s.lists[l]| && s.lists[l][i] == p
  }

  /** Over every run: a page on a free list is a grown page below MAX_PAGES with count 0, and stands there once, on
      that list only; a page with a count is on no list; and every page of the chunks handed out is on a list, in
      use, or in transit in some thread's hands. */
  lemma OnOneListOnce(s: State, ts: seq<Step>, p: Page)
    requires Init(s) && Valid(s, ts)
    ensures var z := After(s, ts);
            && (forall l, i :: OnList(z, l, i, p) ==> 0 <= p < MAX_PAGES && p in z.ref && z.ref[p] == 0)
            && (forall l, i, m, j :: OnList(z, l, i, p) && OnList(z, m, j, p) ==> l == m && i == j)
            && (InUse(z, p) ==> forall l, i :: !OnList(z, l, i, p))
            && (0 <= p < GROW_SIZE * z.handed ==>
                (exists l, i :: OnList(z, l, i, p)) || InUse(z, p) || InTransit(z, p))
  {
    RunKeeps(s, ts);
    var z := After(s, ts);
    forall l, i | OnList(z, l, i, p) ensures PageOk(z, p) && z.spot[p] == Listed(l) { assert ListOk(z, l); }
    forall l, i, m, j | OnList(z, l, i, p) && OnList(z, m, j, p) ensures l == m && i == j { assert ListOk(z, l); }
    if 0 <= p < GROW_SIZE * z.handed {
      assert PageOk(z, p);
      if z.spot[p].Listed? {
        var i :| 0 <= i < |z.lists[z.spot[p].l]| && z.lists[z.spot[p].l][i] == p;
        assert OnList(z, z.spot[p].l, i, p);
      }
    }
  }

  /** The first pages of the chunks that the run hands out, in order. */
  function Chunks(s: State, ts: seq<Step>): (cs: seq<int>)
    requires Valid(s, ts)
    decreases |ts|
  {
    if ts == [] then []
    else (if ts[0].Add? && s.num + GROW_SIZE <= MAX_PAGES then [s.num] else []) + Chunks(Exec(s, ts[0]), ts[1..])
  }

  lemma {:induction false} ChunksFrom(s: State, ts: seq<Step>)
    requires Inv(s) && Valid(s, ts)
    ensures var cs := Chunks(s, ts);
            && |cs| + s.handed <= MAX_CHUNKS
            && forall i :: 0 <= i < |cs| ==> cs[i] == GROW_SIZE * (s.handed + i)
    decreases |ts|
  {
    if ts != [] {
      StepKeeps(s, ts[0]);
      ChunksFrom(Exec(s, ts[0]), ts[1..]);
    }
  }

  /** However additions, undos and everything else interleave, growth hands out
      chunk after chunk without gap or overlap, all below MAX_PAGES. */
  lemma DisjointChunks(s: State, ts: seq<Step>)
    requires Init(s) && Valid(s, ts)
    ensures var cs := Chunks(s, ts);
            && (forall i :: 0 <= i < |cs| ==> cs[i] == GROW_SIZE * i && cs[i] + GROW_SIZE <= MAX_PAGES)
            && (forall i, j :: 0 <= i < j < |cs| ==> Chunk(cs[i]) !! Chunk(cs[j]))
  {
    ChunksFrom(s, ts);
  }

  // ---- The operations ----

  function Reversed(s: seq<Page>): (r: seq<Page>)
    ensures |r| == |s|
  {
    seq(|s|, i requires 0 <= i < |s| => s[|s| - 1 - i])
  }

  /** The n pages below hi, highest first: how a grown chunk ends up on a list. */
  function Descending(hi: int, n: nat): (r: seq<Page>)
    ensures |r| == n
  {
    seq(n, i => hi - 1 - i)
  }

  function Min(a: nat, b: nat): nat { if a < b then a else b }

  /** An addition that has not passed MAX_PAGES holds a new chunk, and touches no older page. */
  lemma AddHolds(s: State, s': State, t: Thread)
    requires Inv(s) && s.fails == 0 && s.num < MAX_PAGES && s' == Exec(s, Add(t))
    ensures Inv(s') && s'.num == s.num + GROW_SIZE <= MAX_PAGES && s'.fails == 0
    ensures forall p :: s.num <= p < s'.num ==> p in s'.spot && s'.spot[p] == Held(t)
    ensures forall p <- s.ref :: p in s'.ref && s'.ref[p] == s.ref[p]
    ensures forall p <- s'.ref :: p !in s.ref ==> s.num <= p < s'.num && s'.ref[p] == 0
  {
    StepKeeps(s, Add(t));
    forall p | p in s.ref ensures p !in Chunk(s.num) { assert PageOk(s, p); }
  }

  /** Moving one more page from the head of one list to the head of another. */
  lemma MoveOne(give: seq<Page>, take: seq<Page>, i: nat)
    requires i < |give|
    ensures [give[i]] + (Reversed(give[..i]) + take) == Reversed(give[..i + 1]) + take
    ensures give[i..][0] == give[i] && give[i..][1..] == give[i + 1..]
  {
    assert give[..i + 1] == give[..i] + [give[i]];
  }

  class Allocator {
    var num: int
    var lists: seq<seq<Page>>
    var ref: map<Page, int>
    ghost var spot: map<Page, Spot>

    ghost function Value(): State
      reads this
    {
      State(num, num / GROW_SIZE, 0, lists, ref, spot)
    }

    ghost predicate Valid()
      reads this
    {
      Inv(Value())
    }

    /** Prepend p to list l. */
    method Push(ghost t: Thread, p: Page, l: int)
      requires Valid() && Enabled(Value(), Insert(t, p, l))
      modifies this`lists, this`spot
      ensures Valid() && Value() == Exec(old(Value()), Insert(t, p, l))
    {
      StepKeeps(Value(), Insert(t, p, l));
      lists := lists[l := [p] + lists[l]];
      spot := spot[p := Listed(l)];
    }

    method PopHead(ghost t: Thread, l: int) returns (p: Page)
      requires Valid() && Enabled(Value(), Pop(t, l))
      modifies this`lists, this`spot
      ensures Valid() && Value() == Exec(old(Value()), Pop(t, l)) && p == old(lists[l][0])
    {
      StepKeeps(Value(), Pop(t, l));
      p := lists[l][0];
      lists := lists[l := lists[l][1..]];
      spot := spot[p := Held(t)];
    }

    /** grow_size, called by thread t; mapped says whether do_mapping succeeds. */
    method Grow(ghost t: Thread, l: int, mapped: bool) returns (err: bool)
      requires Valid() && 0 <= l < NUM_LISTS
      modifies this
      ensures Valid() && (err <==> old(num) >= MAX_PAGES || !mapped)
      ensures old(num) >= MAX_PAGES ==> unchanged(this)
      ensures old(num) < MAX_PAGES ==> num == old(num) + GROW_SIZE <= MAX_PAGES
      ensures lists == if err then old(lists) else old(lists)[l := Descending(num, GROW_SIZE) + old(lists)[l]]
      ensures forall p :: p in old(ref) ==> p in ref && ref[p] == old(ref)[p]
      ensures forall p :: p in ref && p !in old(ref) ==> old(num) <= p < num && ref[p] == 0
    {
      if num >= MAX_PAGES {
        return true;
      }
      var first := AddChunk(t);
      if !mapped {
        return true;
      }
      InsertChunk(t, first, l);
      return false;
    }

    /** Lines 77-88. Called by one thread at a time, the addition never passes MAX_PAGES. */
    method AddChunk(ghost t: Thread) returns (first: int)
      requires Valid() && num < MAX_PAGES
      modifies this`num, this`ref, this`spot
      ensures Valid() && first == old(num) && num == first + GROW_SIZE <= MAX_PAGES
      ensures forall p :: first <= p < num ==> p in spot && spot[p] == Held(t)
      ensures forall p :: p in old(ref) ==> p in ref && ref[p] == old(ref)[p]
      ensures forall p :: p in ref && p !in old(ref) ==> first <= p < num && ref[p] == 0
    {
      ghost var s := Value();
      AddHolds(s, Exec(s, Add(t)), t);
      first := num;
      num := num + GROW_SIZE;
      ref := ref + map p | p in Chunk(first) :: 0;
      spot := spot + map p | p in Chunk(first) :: Held(t);
      assert Value() == Exec(s, Add(t));
    }

    /** Lines 97-101. */
    method InsertChunk(ghost t: Thread, first: int, l: int)
      requires Valid() && 0 <= l < NUM_LISTS && num == first + GROW_SIZE
      requires forall p :: first <= p < num ==> p in spot && spot[p] == Held(t)
      modifies this`lists, this`spot
      ensures Valid() && lists == old(lists)[l := Descending(num, GROW_SIZE) + old(lists)[l]]
    {
      assert Descending(first, 0) + lists[l] == lists[l];
      for i := first to num
        invariant Valid() && lists == old(lists)[l := Descending(i, i - first) + old(lists)[l]]
        invariant forall p :: i <= p < num ==> p in spot && spot[p] == Held(t)
      {
        assert PageOk(Value(), i);
        Push(t, i, l);
        assert [i] + (Descending(i, i - first) + old(lists)[l]) == Descending(i + 1, i + 1 - first) + old(lists)[l];
      }
    }

    /** dune_try_steal_pages; busy says that the mutex of list from is taken. */
    method TrySteal(ghost t: Thread, from: int, to: int, n: nat, busy: bool) returns (stolen: bool)
      requires Valid() && 0 <= to < from < NUM_LISTS
      modifies this`lists, this`spot
      ensures Valid()
      ensures busy ==> !stolen && lists == old(lists)
      ensures !busy ==>
                var k := Min(n, |old(lists)[from]|);
                && (stolen <==> k > 0)
                && lists == old(lists)[from := old(lists)[from][k..]][to := Reversed(old(lists)[from][..k])
                    + old(lists)[to]]
    {
      if busy {
        return false;
      }
      var left, i := n, 0;
      ghost var give, take := lists[from], lists[to];
      stolen := false;
      assert give[0..] == give && Reversed(give[..0]) + take == take;
      while lists[from] != [] && left > 0
        invariant Valid() && 0 <= i <= |give| && 0 <= left == n - i && (stolen <==> i > 0)
        invariant lists == old(lists)[from := give[i..]][to := Reversed(give[..i]) + take]
        decreases left
      {
        var p := PopHead(t, from);
        assert PageOk(Value(), p);
        Push(t, p, to);
        MoveOne(give, take, i);
        left, i, stolen := left - 1, i + 1, true;
      }
      assert i == Min(n, |give|);
    }

    /** dune_page_get on a page just popped, or on one in use. */
    method GetPage(ghost t: Thread, p: Page)
      requires Valid() && (Enabled(Value(), Take(t, p)) || Enabled(Value(), Get(p)))
      modifies this`ref, this`spot
      ensures Valid() && ref == old(ref)[p := old(ref)[p] + 1]
      ensures spot == old(spot)[p := Used]
    {
      assert PageOk(Value(), p);
      if spot[p] == Held(t) { StepKeeps(Value(), Take(t, p)); } else { StepKeeps(Value(), Get(p)); }
      assert spot[p].Used? ==> spot == spot[p := Used];
      ref := ref[p := ref[p] + 1];
      spot := spot[p := Used];
    }

    /** dune_page_alloc. cpuId may be -1; last is the thread's last_stealed; for the
        k-th failed attempt, pick is the random victim, busy its mutex, and mapped the result of do_mapping. */
    method Alloc(ghost t: Thread, cpuId: int, cores: int, last: int, pick: nat -> int, busy: nat -> bool,
        mapped: nat -> bool)
      returns (r: Option<Page>, last': int, attempts: nat)
      requires Valid() && -1 <= cpuId < cores <= NUM_LISTS && 0 < cores
      requires forall k :: cores <= pick(k) < NUM_LISTS
      requires last == -1 || cores <= last < NUM_LISTS
      modifies this
      ensures Valid() && (last' == -1 || cores <= last' < NUM_LISTS)
      ensures attempts <= MAX_ATTEMPTS + 1 && (r.None? <==> attempts == MAX_ATTEMPTS + 1)
      ensures var cpu := if cpuId == -1 then 0 else cpuId;
              old(lists)[cpu] != [] ==> r == Some(old(lists)[cpu][0]) && attempts == 0
      ensures r.Some? ==>
                && r.value in ref && ref[r.value] == 1 && (r.value in old(ref) ==> old(ref)[r.value] == 0)
                && forall l, i :: !OnList(Value(), l, i, r.value)
      ensures forall p :: p in old(ref) && r != Some(p) ==> p in ref && ref[p] == old(ref)[p]
    {
      attempts, last' := 0, last;
      var cpu := if cpuId == -1 then 0 else cpuId;
      while attempts <= MAX_ATTEMPTS
        invariant Valid() && attempts <= MAX_ATTEMPTS + 1 && (last' == -1 || cores <= last' < NUM_LISTS)
        invariant attempts > 0 ==> old(lists)[cpu] == []
        invariant attempts == 0 ==> lists == old(lists)
        invariant forall p :: p in old(ref) ==> p in ref && ref[p] == old(ref)[p]
        invariant forall p :: p in ref && p !in old(ref) ==> ref[p] == 0
      {
        var err := false;
        if lists[cpu] == [] {
          err := Grow(t, cpu, mapped(attempts));
        }
        if !err {
          var p := PopFree(t, cpu);
          r := Some(p);
          return;
        }
        if last' == -1 {
          last' := pick(attempts);
        }
        var stolen := TrySteal(t, last', cpu, GROW_SIZE, busy(attempts));
        if !stolen {
          last' := -1;
        }
        attempts := attempts + 1;
      }
      r := None;
    }

    /** Lines 260-264: the first page of list l, with count 1. */
    method PopFree(ghost t: Thread, l: int) returns (p: Page)
      requires Valid() && 0 <= l < NUM_LISTS && lists[l] != []
      modifies this`lists, this`ref, this`spot
      ensures Valid() && p == old(lists[l][0]) && p in old(ref) && old(ref)[p] == 0 && ref == old(ref)[p := 1]
      ensures forall m, i :: !OnList(Value(), m, i, p)
    {
      assert ListOk(Value(), l) && PageOk(Value(), lists[l][0]);
      p := PopHead(t, l);
      GetPage(t, p);
      forall m, i ensures !OnList(Value(), m, i, p) { assert 0 <= m < NUM_LISTS ==> ListOk(Value(), m); }
    }

    /** dune_page_put: the count goes down, and a page whose count reaches 0 heads list l. */
    method PutPage(ghost t: Thread, p: Page, l: int)
      requires Valid() && InUse(Value(), p) && 0 <= l < NUM_LISTS
      modifies this`lists, this`ref, this`spot
      ensures Valid() && ref == old(ref)[p := old(ref)[p] - 1]
      ensures lists == if old(ref)[p] == 1 then old(lists)[l := [p] + old(lists)[l]] else old(lists)
    {
      StepKeeps(Value(), Put(t, p));
      spot := if ref[p] == 1 then spot[p := Held(t)] else spot;
      ref := ref[p := ref[p] - 1];
      if ref[p] == 0 {
        Push(t, p, l);
      }
    }
  }
}
