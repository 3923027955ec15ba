/**
 pgtable_cow_copy (libdune/fast_spawn.c) copies a live entry while page faults of main cores go on
 changing it. The source reads the entry anew for its test and for each of the two stores.
 */
module PreCopy {
  import opened Options
  import opened PageEntry

  /** A live entry, and the value that the fault holding its lock read before it took it. */
  datatype Live = Live(e: Pte, held: Option<Pte>)

  /** What faults and the processor do to the entry: lines 941-956, 994-999, 1089-1095, and the accessed and dirty
      bits. */
  datatype Step = Lock | Open | Restore | Access | Dirty

  predicate Enabled(s: Live, t: Step) {
    match t
    case Lock => s.held.None? && Eligible(s.e)
    case Open => s.held.Some?
    case Restore => s.held.Some?
    case Access => s.e.p
    case Dirty => s.e.p && s.e.w
  }

  function Exec(s: Live, t: Step): Live
    requires Enabled(s, t)
  {
    match t
    case Lock => Live(WithLock(s.e), Some(s.e))
    case Open => Live(Opened(s.held.value), None)
    case Restore => Live(Restored(s.held.value), None)
    case Access => s.(e := s.e.(a := true))
    case Dirty => s.(e := s.e.(a := true, d := true))
  }

  predicate Inv(s: Live) {
    && (s.e.cow ==> !s.e.w) && (s.e.lock <==> s.held.Some?)
    && (s.held.Some? ==>
          && s.e.cow && s.held.value.cow && s.held.value.frame == s.e.frame && s.held.value.p == s.e.p
          && s.held.value.stack == s.e.stack && s.held.value.nocow == s.e.nocow)
  }

  predicate Valid(s: Live, ts: seq<Step>)
    decreases |ts|
  {
    ts == [] || (Enabled(s, ts[0]) && Valid(Exec(s, ts[0]), ts[1..]))
  }

  function After(s: Live, ts: seq<Step>): Live
    requires Valid(s, ts)
    decreases |ts|
  {
    if ts == [] then s else After(Exec(s, ts[0]), ts[1..])
  }

  predicate Opens(ts: seq<Step>) { exists i :: 0 <= i < |ts| && ts[i] == Open }

  /** A page that copy-on-write applies to. */
  predicate OnDemand(e: Pte) { e.p && !e.stack && !e.nocow && (e.w || e.cow) }

  /** Over any run of faults the entry keeps its frame, and it becomes writable exactly if a fault opens it. */
  lemma {:induction false} RunIs(s: Live, ts: seq<Step>)
    requires Inv(s) && Valid(s, ts)
    ensures var z := After(s, ts);
            && Inv(z) && z.e.frame == s.e.frame && z.e.p == s.e.p && z.e.stack == s.e.stack && z.e.nocow == s.e.nocow
            && (z.e.w <==> s.e.w || Opens(ts)) && (s.e.w ==> !Opens(ts)) && (OnDemand(s.e) ==> OnDemand(z.e))
    decreases |ts|
  {
    if ts != [] {
      RunIs(Exec(s, ts[0]), ts[1..]);
      assert Opens(ts) <==> ts[0] == Open || Opens(ts[1..]) by {
        if Opens(ts[1..]) { var i :| 0 <= i < |ts[1..]| && ts[1..][i] == Open; assert ts[i + 1] == Open; }
        if Opens(ts) { var i :| 0 <= i < |ts| && ts[i] == Open; assert i > 0 ==> ts[1..][i - 1] == Open; }
      }
    }
  }

  /** The two shadow entries, from the value tested and the two values stored. */
  function Store1(test: Pte, e: Pte): Pte {
    if CopyOnWrite(test) then e.(w := false, cow := true, lock := false) else e.(lock := false)
  }

  function Store2(test: Pte, e: Pte): Pte { Store1(test, e).(a := false) }

  /** With all reads giving the same value, the stores are the shadow entries of the clone. */
  lemma OneRead(e: Pte)
    ensures Store1(e, e) == Shadow1(e) && Store2(e, e) == Shadow2(e)
  {}

  /** The runs before the test, between the reads, and up to branch-off. */
  datatype Copy = Copy(before: seq<Step>, first: seq<Step>, second: seq<Step>, after: seq<Step>)

  predicate Runs(s: Live, c: Copy) {
    && Valid(s, c.before) && Valid(After(s, c.before), c.first) && Valid(After(After(s, c.before), c.first), c.second)
    && Valid(After(After(After(s, c.before), c.first), c.second), c.after)
  }

  /** From the copying of an entry until branch-off, whatever faults run, the live entry and both shadows
      name the same frame and the shadows are unlocked. Of a page on demand, a shadow is writable if and only if a
      fault opened the live entry between the test and the read of the value stored; with a single read, never. */
  lemma ShadowsFaithful(s: Live, c: Copy)
    requires Inv(s) && OnDemand(s.e) && Runs(s, c)
    ensures var t := After(s, c.before);
            var x := After(t, c.first);
            var y := After(x, c.second);
            var now := After(y, c.after);
            && Store1(t.e, x.e).frame == now.e.frame && Store2(t.e, y.e).frame == now.e.frame
            && !Store1(t.e, x.e).lock && !Store2(t.e, y.e).lock && !Store2(t.e, y.e).a
            && (Store1(t.e, x.e).w <==> Opens(c.first)) && (Store2(t.e, y.e).w <==> Opens(c.first) || Opens(c.second))
  {
    var t := After(s, c.before);
    RunIs(s, c.before);
    var x := After(t, c.first);
    RunIs(t, c.first);
    var y := After(x, c.second);
    RunIs(x, c.second);
    RunIs(y, c.after);
  }

  /** Whatever faults run, the two shadows are a copied pair. They are as the fault handler relies on them, if and
      only if no fault opened the live entry between the test and the second store. */
  lemma PairExact(s: Live, c: Copy)
    requires Inv(s) && OnDemand(s.e) && Runs(s, c)
    ensures var t := After(s, c.before);
            var x := After(t, c.first);
            var y := After(x, c.second);
            && CopiedPair(Store1(t.e, x.e), Store2(t.e, y.e))
            && (ShadowPair(Store1(t.e, x.e), Store2(t.e, y.e)) <==> !Opens(c.first) && !Opens(c.second))
  {
    ShadowsFaithful(s, c);
    var t := After(s, c.before);
    RunIs(s, c.before);
    var x := After(t, c.first);
    RunIs(t, c.first);
    RunIs(x, c.second);
  }

  /** Such a fault: the test sees the entry locked and read-only, the store reads it writable. */
  lemma WritableShadow(e: Pte)
    requires Eligible(e) && e.p && !e.stack && !e.nocow
    ensures Runs(Live(e, None), Copy([Lock], [Open], [], [])) && Store1(WithLock(e), Opened(e)).w
    ensures After(After(Live(e, None), [Lock]), [Open]).e == Opened(e)
  {
    var s := Exec(Live(e, None), Lock);
    assert [Lock][1..] == [] && [Open][1..] == [];
    assert Valid(s, []) && After(Live(e, None), [Lock]) == s;
    assert Valid(Exec(s, Open), []) && After(s, [Open]) == Exec(s, Open);
  }
}
