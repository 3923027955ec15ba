/**
 The guest's physical address layout: hva_to_gpa and gpa_to_hva (kern/ept.c), dune_va_to_pa
 (libdune/dune.h), and the page numbering of the pool (libdune/page.c). Arithmetic is that of 64-bit words.
 */
module AddressLayout {
  const WORD := 0x1_0000_0000_0000_0000
  const PAGE := 4096
  const GB := 0x4000_0000
  const STACK_SIZE := GB
  const MAP_SIZE := 63 * GB
  const APIC_PAGE := 0x3FFF_FFFF_F000
  const POSTED := 0x2000_0000_0000
  const PV_INFO := 0x3FFF_FFC0_0000
  const WINDOW := 256 * PAGE
  const APIC_BASE := 0xFFFF_FFFF_FFFF_F000
  const INVALID := 0xFFFF_FFFF_FFFF_FFFF

  function U64(x: int): (r: int)
    ensures 0 <= r < WORD
  {
    x % WORD
  }

  predicate IsWord(x: int) { 0 <= x < WORD }

  function PageOf(x: int): int { x - x % PAGE }

  /** LG_ALIGN: up to the next gigabyte. */
  function Align(x: int): int { U64((x + GB - 1) / GB * GB) }

  /** The process's mmap_base and start_stack, and the end of guest-physical memory. */
  datatype Host = Host(mmapBase: int, startStack: int, end: int)

  /** 1 << x86_phys_bits, for 36 to 52 bits. */
  predicate Valid(h: Host) {
    IsWord(h.mmapBase) && IsWord(h.startStack) && 0x10_0000_0000 <= h.end <= 0x10_0000_0000_0000
  }

  function MapStart(h: Host): int { U64(Align(h.mmapBase) - MAP_SIZE) }
  function StackStart(h: Host): int { U64(Align(h.startStack) - STACK_SIZE) }

  function HvaToGpa(h: Host, hva: int): int {
    if hva >= StackStart(h) then
      (if hva - StackStart(h) >= STACK_SIZE then INVALID else U64(hva - StackStart(h) + h.end - STACK_SIZE))
    else if hva >= MapStart(h) then
      (if hva - MapStart(h) >= MAP_SIZE then INVALID else U64(hva - MapStart(h) + h.end - STACK_SIZE - MAP_SIZE))
    else if hva >= h.end - STACK_SIZE - MAP_SIZE then INVALID
    else hva
  }

  /** The three windows that gpa_to_hva answers with 0. */
  predicate InWindow(gpa: int) {
    || PageOf(gpa) == APIC_PAGE
    || POSTED <= PageOf(gpa) < POSTED + WINDOW
    || PV_INFO <= PageOf(gpa) < PV_INFO + WINDOW
  }

  function GpaToHva(h: Host, gpa: int): int {
    if InWindow(gpa) then 0
    else if gpa < h.end - STACK_SIZE - MAP_SIZE then gpa
    else if gpa < h.end - STACK_SIZE then U64(gpa - (h.end - STACK_SIZE - MAP_SIZE) + Align(h.mmapBase) - MAP_SIZE)
    else if gpa < h.end then U64(gpa - (h.end - STACK_SIZE) + Align(h.startStack) - STACK_SIZE)
    else INVALID
  }

  lemma Shift(a: int, b: int, off: int)
    requires IsWord(U64(a - b) + off) && 0 <= off
    ensures U64(off + a - b) == U64(a - b) + off
  {
    var q := (a - b) / WORD;
    assert a - b == q * WORD + U64(a - b);
    assert off + a - b == q * WORD + (U64(a - b) + off);
  }

  lemma Small(x: int)
    requires IsWord(x)
    ensures U64(x) == x
  {}

  /** The stack's addresses, in both directions. */
  lemma StackCase(h: Host, hva: int, gpa: int)
    requires Valid(h) && IsWord(hva) && 0 <= hva - StackStart(h) < STACK_SIZE
    requires gpa == hva - StackStart(h) + h.end - STACK_SIZE
    ensures HvaToGpa(h, hva) == gpa && h.end - STACK_SIZE <= gpa < h.end
    ensures !InWindow(gpa) ==> GpaToHva(h, gpa) == hva
  {
    Small(gpa);
    Shift(Align(h.startStack), STACK_SIZE, hva - StackStart(h));
  }

  /** The mapping area's addresses below the stack's. */
  lemma MapCase(h: Host, hva: int, gpa: int)
    requires Valid(h) && IsWord(hva) && 0 <= hva - MapStart(h) < MAP_SIZE
    requires gpa == hva - MapStart(h) + h.end - STACK_SIZE - MAP_SIZE
    ensures h.end - STACK_SIZE - MAP_SIZE <= gpa < h.end - STACK_SIZE
    ensures hva < StackStart(h) ==> HvaToGpa(h, hva) == gpa
    ensures !InWindow(gpa) ==> GpaToHva(h, gpa) == hva
  {
    Small(gpa);
    Shift(Align(h.mmapBase), MAP_SIZE, hva - MapStart(h));
  }

  /** Every accepted host address is recovered if its guest address lies outside the windows, and no
      other accepted address but 0 is. */
  lemma RoundTrip(h: Host, hva: int, gpa: int)
    requires Valid(h) && IsWord(hva) && gpa == HvaToGpa(h, hva) && gpa != INVALID
    ensures 0 <= gpa < h.end && (GpaToHva(h, gpa) == hva <==> !InWindow(gpa) || hva == 0)
  {
    if hva >= StackStart(h) {
      StackCase(h, hva, hva - StackStart(h) + h.end - STACK_SIZE);
    } else if hva >= MapStart(h) {
      MapCase(h, hva, hva - MapStart(h) + h.end - STACK_SIZE - MAP_SIZE);
    }
  }

  /** Adding an offset to a word wraps around at most once. */
  lemma Wrap(a: int, b: int, off: int)
    requires 0 <= off < WORD
    ensures U64(off + a - b) == if U64(a - b) + off < WORD then U64(a - b) + off else U64(a - b) + off - WORD
  {
    var q := (a - b) / WORD;
    assert a - b == q * WORD + U64(a - b);
    if U64(a - b) + off < WORD { Shift(a, b, off); }
    else { assert off + a - b == (q + 1) * WORD + (U64(a - b) + off - WORD); }
  }

  /** A host address that falls to the stack case gets a guest address above the other cases'. */
  lemma StackIsHigh(h: Host, hva: int)
    requires Valid(h) && IsWord(hva) && hva >= StackStart(h)
    ensures HvaToGpa(h, hva) >= h.end - STACK_SIZE
  {
    if hva - StackStart(h) < STACK_SIZE { Small(hva - StackStart(h) + h.end - STACK_SIZE); }
  }

  /** A host address that falls to the mapping area's case, or to the last one, gets a guest address below the
      stack's. */
  lemma OthersAreLow(h: Host, hva: int)
    requires Valid(h) && IsWord(hva) && hva < StackStart(h)
    ensures HvaToGpa(h, hva) < h.end - STACK_SIZE || HvaToGpa(h, hva) == INVALID
    ensures hva < MapStart(h) ==> HvaToGpa(h, hva) < h.end - STACK_SIZE - MAP_SIZE || HvaToGpa(h, hva) == INVALID
  {
    if 0 <= hva - MapStart(h) < MAP_SIZE { Small(hva - MapStart(h) + h.end - STACK_SIZE - MAP_SIZE); }
  }

  lemma MapBack(h: Host, gpa: int, hva: int)
    requires Valid(h) && h.end - STACK_SIZE - MAP_SIZE <= gpa < h.end - STACK_SIZE && !InWindow(gpa)
    requires hva == GpaToHva(h, gpa)
    ensures HvaToGpa(h, hva) == gpa <==> MapStart(h) <= hva < StackStart(h)
  {
    Wrap(Align(h.mmapBase), MAP_SIZE, gpa - (h.end - STACK_SIZE - MAP_SIZE));
    if hva >= StackStart(h) { StackIsHigh(h, hva); }
    else if hva < MapStart(h) { OthersAreLow(h, hva); }
    else { MapCase(h, hva, gpa); }
  }

  lemma StackBack(h: Host, gpa: int, hva: int)
    requires Valid(h) && h.end - STACK_SIZE <= gpa < h.end && !InWindow(gpa) && hva == GpaToHva(h, gpa)
    ensures HvaToGpa(h, hva) == gpa <==> StackStart(h) <= hva
  {
    Wrap(Align(h.startStack), STACK_SIZE, gpa - (h.end - STACK_SIZE));
    if hva >= StackStart(h) { StackCase(h, hva, gpa); } else { OthersAreLow(h, hva); }
  }

  /** The other way round, for every layout, also one whose areas wrap around: a guest address outside the windows
      is recovered if and only if its host address falls to the same case of hva_to_gpa. */
  lemma RoundTripBack(h: Host, gpa: int, hva: int)
    requires Valid(h) && 0 <= gpa < h.end && !InWindow(gpa) && hva == GpaToHva(h, gpa)
    ensures HvaToGpa(h, hva) == gpa <==>
            if gpa < h.end - STACK_SIZE - MAP_SIZE then gpa < StackStart(h) && gpa < MapStart(h)
            else if gpa < h.end - STACK_SIZE then MapStart(h) <= hva < StackStart(h)
            else StackStart(h) <= hva
  {
    if gpa < h.end - STACK_SIZE - MAP_SIZE { LowBack(h, gpa); }
    else if gpa < h.end - STACK_SIZE { MapBack(h, gpa, hva); }
    else { StackBack(h, gpa, hva); }
  }

  lemma LowBack(h: Host, gpa: int)
    requires Valid(h) && 0 <= gpa < h.end - STACK_SIZE - MAP_SIZE
    ensures HvaToGpa(h, gpa) == gpa <==> gpa < StackStart(h) && gpa < MapStart(h)
  {
    if gpa >= StackStart(h) {
      StackIsHigh(h, gpa);
    } else if gpa >= MapStart(h) {
      if gpa - MapStart(h) < MAP_SIZE { MapCase(h, gpa, gpa - MapStart(h) + h.end - STACK_SIZE - MAP_SIZE); }
    }
  }

  // ---- The guest's own translation ----

  /** What the DUNE_GET_LAYOUT ioctl tells the library. */
  datatype Layout = Layout(limit: int, mapBase: int, stackBase: int)

  function GetLayout(h: Host): Layout { Layout(h.end, MapStart(h), StackStart(h)) }

  /** The virtual windows that dune_va_to_pa treats first. */
  predicate InVirtualWindow(va: int) {
    || PageOf(va) == APIC_BASE
    || POSTED <= PageOf(va) < POSTED + WINDOW
    || PV_INFO <= PageOf(va) < PV_INFO + WINDOW
  }

  function VaToPa(l: Layout, va: int): int {
    if PageOf(va) == APIC_BASE then APIC_PAGE
    else if POSTED <= PageOf(va) < POSTED + WINDOW then POSTED + (PageOf(va) - POSTED)
    else if PV_INFO <= PageOf(va) < PV_INFO + WINDOW then PV_INFO + (PageOf(va) - PV_INFO)
    else if va >= l.stackBase then U64(va - l.stackBase + l.limit - STACK_SIZE)
    else if va >= l.mapBase then U64(va - l.mapBase + (l.limit - STACK_SIZE - MAP_SIZE))
    else va
  }

  /** The library computes the address that the kernel does, for every address the kernel accepts, outside the
      virtual windows. */
  lemma Agreement(h: Host, va: int)
    requires Valid(h) && IsWord(va) && HvaToGpa(h, va) != INVALID && !InVirtualWindow(va)
    ensures VaToPa(GetLayout(h), va) == HvaToGpa(h, va)
  {}

  /** Inside the virtual windows, the library computes an address in the guest windows, which the kernel fakes. */
  lemma WindowsMeet(l: Layout, va: int)
    requires IsWord(va) && InVirtualWindow(va)
    ensures InWindow(VaToPa(l, va))
  {}

  // ---- Pages of the pool ----

  const PAGEBASE := 0x1_0000_0000
  const MAX_PAGES := 0x20_0000

  function PageToPa(p: int): int { PAGEBASE + p * PAGE }
  function PaToPage(pa: int): int { (pa - PAGEBASE) / PAGE }
  predicate FromPool(pa: int, num: int) { PAGEBASE <= pa < PAGEBASE + num * PAGE }

  /** Page numbers and addresses of the pool invert each other, the second way exactly on page
      addresses, and an address is from the pool exactly if its page has been grown. */
  lemma PoolNumbers(p: int, pa: int, num: int)
    requires 0 <= num <= MAX_PAGES
    ensures PaToPage(PageToPa(p)) == p
    ensures PageToPa(PaToPage(pa)) == pa <==> pa % PAGE == 0
    ensures FromPool(pa, num) <==> 0 <= PaToPage(pa) < num
  {}
}
