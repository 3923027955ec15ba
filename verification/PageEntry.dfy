/**
 Page-table entries. The library manipulates 64-bit words with the masks of
 libdune/mmu-x86.h; the protocol models work with the record Pte. Decode maps
 a word to its record and is injective, so a compare-and-swap on words is a
 compare-and-swap on records. The lemmas below carry each masked expression of
 the source over to the record update that the models use.
 */
module PageEntry {

  const PTE_P: bv64 := 0x0001
  const PTE_W: bv64 := 0x0002
  const PTE_U: bv64 := 0x0004
  const PTE_A: bv64 := 0x0020
  const PTE_D: bv64 := 0x0040
  const PTE_PS: bv64 := 0x0080
  const PTE_COW: bv64 := 0x0200
  const PTE_STACK: bv64 := 0x0400
  const PTE_LOCK: bv64 := 0x0800
  const PTE_NOCOW: bv64 := 0x1000000000000000
  const ADDR_MASK: bv64 := 0x000ffffffffff000
  const FLAGS_MASK: bv64 := 0xfff0000000000fff
  const LOW_REST: bv64 := 0x0118 // write-through, cache-disable, global
  const HIGH_REST: bv64 := 0xeff0000000000000 // no-execute and the user bits other than NOCOW

  /** A page-aligned physical address. */
  datatype Frame = Frame(addr: bv64)

  /** Flag bits that no protocol looks at. */
  datatype Rest = Rest(bits: bv64)

  datatype Pte = Pte(frame: Frame, p: bool, w: bool, u: bool, a: bool, d: bool, big: bool,
                     cow: bool, stack: bool, lock: bool, nocow: bool, low: Rest, high: Rest)

  function PteAddr(x: bv64): bv64 { x & ADDR_MASK }

  function PteFlags(x: bv64): bv64 { x & FLAGS_MASK }

  function Has(x: bv64, mask: bv64): bool { x & mask != 0 }

  function Decode(x: bv64): Pte {
    Pte(Frame(PteAddr(x)), Has(x, PTE_P), Has(x, PTE_W), Has(x, PTE_U), Has(x, PTE_A), Has(x, PTE_D),
        Has(x, PTE_PS), Has(x, PTE_COW), Has(x, PTE_STACK), Has(x, PTE_LOCK), Has(x, PTE_NOCOW),
        Rest(x & LOW_REST), Rest(x & HIGH_REST))
  }

  lemma SameMasks(x: bv64, y: bv64)
    requires Has(x, PTE_P) == Has(y, PTE_P)
    requires Has(x, PTE_W) == Has(y, PTE_W)
    requires Has(x, PTE_U) == Has(y, PTE_U)
    requires Has(x, PTE_A) == Has(y, PTE_A)
    requires Has(x, PTE_D) == Has(y, PTE_D)
    requires Has(x, PTE_PS) == Has(y, PTE_PS)
    requires Has(x, PTE_COW) == Has(y, PTE_COW)
    requires Has(x, PTE_STACK) == Has(y, PTE_STACK)
    requires Has(x, PTE_LOCK) == Has(y, PTE_LOCK)
    requires Has(x, PTE_NOCOW) == Has(y, PTE_NOCOW)
    ensures x & PTE_P == y & PTE_P
    ensures x & PTE_W == y & PTE_W
    ensures x & PTE_U == y & PTE_U
    ensures x & PTE_A == y & PTE_A
    ensures x & PTE_D == y & PTE_D
    ensures x & PTE_PS == y & PTE_PS
    ensures x & PTE_COW == y & PTE_COW
    ensures x & PTE_STACK == y & PTE_STACK
    ensures x & PTE_LOCK == y & PTE_LOCK
    ensures x & PTE_NOCOW == y & PTE_NOCOW
  {}

  lemma SameWord(x: bv64, y: bv64)
    requires x & ADDR_MASK == y & ADDR_MASK
    requires x & PTE_P == y & PTE_P
    requires x & PTE_W == y & PTE_W
    requires x & PTE_U == y & PTE_U
    requires x & PTE_A == y & PTE_A
    requires x & PTE_D == y & PTE_D
    requires x & PTE_PS == y & PTE_PS
    requires x & PTE_COW == y & PTE_COW
    requires x & PTE_STACK == y & PTE_STACK
    requires x & PTE_LOCK == y & PTE_LOCK
    requires x & PTE_NOCOW == y & PTE_NOCOW
    requires x & LOW_REST == y & LOW_REST
    requires x & HIGH_REST == y & HIGH_REST
    ensures x == y
  {}

  /** Equal records come from equal words: the full-value compare of the
      library's compare-and-swap is record equality. */
  lemma DecodeInjective(x: bv64, y: bv64)
    requires Decode(x) == Decode(y)
    ensures x == y
  {
    SameMasks(x, y);
    SameWord(x, y);
  }

  // ---- The entries the fault handler and the clone write, as records ----

  predicate Eligible(e: Pte) { e.cow && !e.w && !e.lock }

  function WithLock(e: Pte): Pte { e.(lock := true) }

  /** The writable, unlocked entry of the copy's winner. */
  function Opened(e: Pte): Pte {
    e.(w := true, u := true, a := true, d := true, cow := false, lock := false)
  }

  /** The entry put back before a retry. */
  function Restored(e: Pte): Pte {
    e.(w := false, u := true, a := true, d := true, cow := true, lock := false)
  }

  /** The snapshot's entry, unlocked because it had already diverged. */
  function Released(e: Pte): Pte { e.(a := true, d := true, lock := false) }

  /** The snapshot's entry once it names its private copy. */
  function Redirected(e: Pte, f: Frame): Pte {
    e.(frame := f, w := true, a := true, d := true, cow := false, lock := false)
  }

  /** Entries that pgtable_cow_copy write-protects. */
  predicate CopyOnWrite(e: Pte) { e.w && e.p && !e.stack && !e.cow && !e.nocow }

  /** pgtable_cow_copy's entry for the first shadow, outside the excluded regions. */
  function Shadow1(e: Pte): Pte {
    if CopyOnWrite(e) then e.(w := false, cow := true, lock := false) else e.(lock := false)
  }

  /** The same for the second shadow, where the accessed bit is cleared too. */
  function Shadow2(e: Pte): Pte { Shadow1(e).(a := false) }

  /** The two shadows of a page that copy-on-write applies to, whatever faults went on during the copy: present and
      unlocked, with the same frame, the snapshot's accessed bit clear, and the same COW bit unless one is writable.
      */
  predicate CopiedPair(main: Pte, snap: Pte) {
    && snap.frame == main.frame && main.p && snap.p && !main.lock && !snap.lock && !snap.a
    && (!main.w && !snap.w ==> main.cow == snap.cow)
  }

  /** The two shadows as the fault handler relies on them. */
  predicate ShadowPair(main: Pte, snap: Pte) { CopiedPair(main, snap) && !main.w && !snap.w }

  /** What survives the int-typed flag parameter of dune_vm_map_phys_with_pte_flags. */
  function LowFlagsOnly(e: Pte): Pte { e.(nocow := false, high := Rest(0)) }

  // ---- The same entries as the source computes them on words ----

  function FaultPerm(x: bv64): bv64 {
    ((((PteFlags(x) & !PTE_COW) | PTE_W) | (PTE_U | PTE_A | PTE_D)) & !PTE_LOCK)
  }

  lemma LockWord(x: bv64)
    ensures Decode(x | PTE_LOCK) == WithLock(Decode(x))
  {}

  lemma OpenWord(x: bv64)
    ensures Decode(PteAddr(x) | FaultPerm(x)) == Opened(Decode(x))
  {}

  lemma RestoreWord(x: bv64)
    ensures Decode(PteAddr(x) | (((FaultPerm(x) | PTE_COW) & !PTE_W) & !PTE_LOCK)) == Restored(Decode(x))
  {}

  lemma ReleaseWord(x: bv64)
    ensures Decode(PteAddr(x) | ((PteFlags(x) | (PTE_D | PTE_A)) & !PTE_LOCK)) == Released(Decode(x))
  {}

  lemma RedirectWord(x: bv64, page: bv64)
    ensures Decode(PteAddr(page) |
                   ((((PteFlags(x) | (PTE_D | PTE_A)) & !PTE_LOCK) | PTE_W) & !PTE_COW))
         == Redirected(Decode(x), Frame(PteAddr(page)))
  {}

  predicate CopyOnWriteWord(x: bv64) {
    Has(x, PTE_W) && Has(x, PTE_P) && !Has(x, PTE_STACK) && !Has(x, PTE_COW) && !Has(x, PTE_NOCOW)
  }

  lemma ProtectWord(x: bv64)
    ensures Decode(((x & !PTE_W) | PTE_COW) & !PTE_LOCK) == Decode(x).(w := false, cow := true, lock := false)
  {}

  lemma ProtectAndForgetWord(x: bv64)
    ensures Decode((((x & !PTE_W) | PTE_COW) & !PTE_A) & !PTE_LOCK)
         == Decode(x).(w := false, cow := true, a := false, lock := false)
  {}

  lemma UnlockWord(x: bv64)
    ensures Decode(x & !PTE_LOCK) == Decode(x).(lock := false)
    ensures Decode((x & !PTE_A) & !PTE_LOCK) == Decode(x).(a := false, lock := false)
  {}

  lemma ShadowWords(x: bv64)
    ensures CopyOnWriteWord(x) ==>
              && Decode(((x & !PTE_W) | PTE_COW) & !PTE_LOCK) == Shadow1(Decode(x))
              && Decode((((x & !PTE_W) | PTE_COW) & !PTE_A) & !PTE_LOCK) == Shadow2(Decode(x))
    ensures !CopyOnWriteWord(x) ==>
              && Decode(x & !PTE_LOCK) == Shadow1(Decode(x))
              && Decode((x & !PTE_A) & !PTE_LOCK) == Shadow2(Decode(x))
  {
    ProtectWord(x);
    ProtectAndForgetWord(x);
    UnlockWord(x);
    assert CopyOnWriteWord(x) == CopyOnWrite(Decode(x));
  }

  /** Passing the flags through an int keeps the address and the low 12 flag bits only. */
  lemma IntFlagsWord(x: bv64)
    ensures Decode(PteAddr(x) | (PteFlags(x) & 0xffffffff)) == LowFlagsOnly(Decode(x))
  {}
}
