/**
 From the clone to the protocol: what dune_vm_my_clone leaves of a page under copy-on-write is what the fault
 handler starts from.
 */
module CowStart {
  import opened PageEntry
  import opened PageTable
  import opened PageTableView
  import opened PageTableInsert
  import opened CowClone
  import P = CowProtocol

  lemma {:induction false} KidsAtLeast(f: Frame, sub: seq<Slot>, level: nat, i: nat, n: nat)
    requires AllShaped(sub) && i < n <= ENTRIES
    ensures Kids(Entries(f), sub, level, n) >= Count(Entries(f), sub[i], level)
    decreases n
  {
    if i == n - 1 {
      KidsNonNegative(Entries(f), sub, level, n - 1);
    } else {
      KidsAtLeast(f, sub, level, i, n - 1);
      CountNonNegative(Entries(f), sub[n - 1], level);
    }
  }

  /** An entry that a page shows is among those counted for its frame. */
  lemma {:induction false} ShownIsCounted(sub: seq<Slot>, level: nat, v: Va, e: Pte, l: nat)
    requires AllShaped(sub) && IsVa(v) && level <= 3 && View(sub, level, v) == Seen(e, l)
    ensures All(Entries(e.frame), sub, level) >= 1
    decreases level
  {
    var x := sub[v[level]];
    if x.Dir? && level > 0 { ShownIsCounted(x.sub, level - 1, v, e, l); }
    KidsAtLeast(e.frame, sub, level, v[level], ENTRIES);
  }

  /** State s of the protocol shows, as its page n, what the clone left at v, with the reference count that the
      clone left if the frame has one. */
  predicate Shows(s: P.State, n: P.Page, o: Out<Two>, v: Va, f: Frame)
    requires IsVa(v) && AllShaped(o.st.r1) && AllShaped(o.st.r2)
  {
    && n in s.pg && f in s.fr && (f in o.st.ref ==> s.fr[f].ref == o.st.ref[f])
    && var p, x := s.pg[n], s.fr[f];
    && View(o.st.r1, 3, v) == Seen(p.main, 0) && View(o.st.r2, 3, v) == Seen(p.snap, 0)
    && p.mowner.Nobody? && p.sowner.Nobody? && x.role == P.Both(n) && p.mview == x.data && p.sview == x.data
  }

  /** A page that is present, small, writable or already under copy-on-write, outside the special regions and
      neither STACK nor NOCOW starts as the protocol's initial state has it: a pair of shadows, and two references
      to its frame if that is a page of the pool. Other frames, such as those of ordinary process memory, have no
      count. */
  lemma CloneStarts(c: P.Config, k: Layout, ref: map<Frame, int>, pool: seq<Frame>, src: seq<Slot>, o: Out<Two>,
                    v: Va, e: Pte, s: P.State, n: P.Page)
    requires |pool| >= 2 && Tidy(src, 3) && AllShaped(src) && o == MyClone(k, ref, pool, src) && o.ret == 0
    requires IsVa(v) && View(src, 3, v) == Seen(e, 0) && RegionOf(k, Number(Floor(v, 0))).Ordinary?
    requires e.p && !e.stack && !e.nocow && (e.cow <==> !e.w)
    requires if e.frame in ref then e.frame !in pool && ref[e.frame] >= 0 else e.frame !in c.pool
    requires AllShaped(o.st.r1) && AllShaped(o.st.r2) && Shows(s, n, o, v, e.frame)
    ensures P.InitPage(c, s, n)
  {
    MyCloneRefines(k, ref, pool, src, o, e.frame);
    PresentShown(k, e, 0, v);
    ShownIsCounted(src, 3, v, e, 0);
    assert s.pg[n].main == Shadow1(e) && s.pg[n].snap == Shadow2(e);
  }
}
