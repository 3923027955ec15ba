/**
 vmx_handle_queued_interrupts (kern/vmx.c): the posted vectors of the descriptor go
 into the virtual APIC page's request register before VM entry.
 */
module Drain {
  const WORDS := 4
  const VECTORS := 256
  const IRR := 0x200 // byte offset of the first request register

  type Bits = seq<bool> // a machine word, lowest bit first

  predicate IsWords(words: seq<Bits>) { |words| == WORDS && forall i :: 0 <= i < WORDS ==> |words[i]| == 64 }

  function Zero(n: nat): (w: Bits)
    ensures |w| == n && forall i :: 0 <= i < n ==> !w[i]
  {
    seq(n, i => false)
  }

  /** The index, among the page's 32-bit words, of the register that holds vector v. */
  function Register(v: int): int { (IRR + 16 * (v / 32)) / 4 }

  predicate IsRegister(i: int) { 128 <= i < 160 && i % 4 == 0 }

  /** Line 2018's expression for that register's byte offset. */
  lemma RegisterOffset(v: bv16)
    requires v < 256
    ensures 0x200 | ((v & 0xE0) >> 1) == 0x200 + 16 * (v >> 5)
  {}

  /** The vector's bit in the descriptor's four words. */
  predicate Posted(words: seq<Bits>, v: int)
    requires IsWords(words)
  {
    0 <= v < VECTORS && words[v / 64][v % 64]
  }

  predicate IsPage(page: seq<Bits>) { |page| == 1024 && forall i :: 0 <= i < 1024 ==> |page[i]| == 32 }

  /** The vector's bit in the request register. */
  predicate Pending(page: seq<Bits>, v: int)
    requires IsPage(page)
  {
    0 <= v < VECTORS && page[Register(v)][v % 32]
  }

  class Descriptor {
    var extra: Bits // bit 0 is the outstanding-notification bit
    const vectors: array<Bits>

    ghost predicate Valid()
      reads this, vectors
    {
      |extra| == 64 && IsWords(vectors[..])
    }
  }

  /** page, with vector v requested. */
  function Requested(page: seq<Bits>, v: int): seq<Bits>
    requires IsPage(page) && 0 <= v < VECTORS
  {
    page[Register(v) := page[Register(v)][v % 32 := true]]
  }

  /** Setting one bit requests that vector, and no other. */
  lemma RequestedIs(page: seq<Bits>, v: int, u: int)
    requires IsPage(page) && 0 <= v < VECTORS
    ensures IsPage(Requested(page, v))
    ensures Pending(Requested(page, v), u) <==> Pending(page, u) || u == v
  {
    if 0 <= u < VECTORS && Register(u) == Register(v) && u % 32 == v % 32 { assert u == v; }
  }

  lemma RequestedKeeps(page: seq<Bits>, v: int, i: int)
    requires IsPage(page) && 0 <= v < VECTORS && 0 <= i < 1024 && !IsRegister(i)
    ensures Requested(page, v)[i] == page[i]
  {
    assert Register(v) == 128 + 4 * (v / 32);
    assert IsRegister(Register(v));
  }

  /** The page, and the vector number for RVI, after the bits of the vectors below k. */
  function Page(words: seq<Bits>, k: nat, was: seq<Bits>): (page: seq<Bits>)
    requires IsWords(words) && IsPage(was) && k <= VECTORS
    ensures IsPage(page)
  {
    if k == 0 then was
    else if Posted(words, k - 1) then Requested(Page(words, k - 1, was), k - 1)
    else Page(words, k - 1, was)
  }

  function Highest(words: seq<Bits>, k: nat, rvi: nat): (m: nat)
    requires IsWords(words) && k <= VECTORS
  {
    if k == 0 then rvi
    else
      var m := Highest(words, k - 1, rvi);
      if Posted(words, k - 1) && m <= k - 1 then k - 1 else m
  }

  lemma PageStep(words: seq<Bits>, k: nat, was: seq<Bits>, page: seq<Bits>)
    requires IsWords(words) && IsPage(was) && k < VECTORS && page == Page(words, k, was)
    ensures Page(words, k + 1, was) == if Posted(words, k) then Requested(page, k) else page
  {}

  /** page and rvi are what the drain has made of was and first, once the vectors below k are done. */
  ghost predicate Reached(words: seq<Bits>, k: nat, was: seq<Bits>, first: nat, page: seq<Bits>, rvi: nat) {
    IsWords(words) && IsPage(was) && k <= VECTORS && page == Page(words, k, was) && rvi == Highest(words, k, first)
  }

  lemma ReachedStep(words: seq<Bits>, k: nat, was: seq<Bits>, first: nat, page: seq<Bits>, rvi: nat)
    requires Reached(words, k, was, first, page, rvi) && k < VECTORS
    ensures if Posted(words, k) then Reached(words, k + 1, was, first, Requested(page, k), if rvi > k then rvi else k)
            else Reached(words, k + 1, was, first, page, rvi)
  {}

  /** Afterwards a vector is pending exactly if it was pending or posted. */
  lemma {:induction false} PageIs(words: seq<Bits>, k: nat, was: seq<Bits>, v: int)
    requires IsWords(words) && IsPage(was) && k <= VECTORS
    ensures Pending(Page(words, k, was), v) <==> Pending(was, v) || (v < k && Posted(words, v))
  {
    if k > 0 {
      PageIs(words, k - 1, was, v);
      var page := Page(words, k - 1, was);
      if Posted(words, k - 1) {
        RequestedIs(page, k - 1, v);
        assert Page(words, k, was) == Requested(page, k - 1);
      } else {
        assert Page(words, k, was) == page;
      }
    }
  }

  /** Nothing else on the page changes. */
  lemma {:induction false} PageKeeps(words: seq<Bits>, k: nat, was: seq<Bits>, i: int)
    requires IsWords(words) && IsPage(was) && k <= VECTORS && 0 <= i < 1024 && !IsRegister(i)
    ensures Page(words, k, was)[i] == was[i]
  {
    if k > 0 {
      PageKeeps(words, k - 1, was, i);
      var page := Page(words, k - 1, was);
      RequestedKeeps(page, k - 1, i);
      PageStep(words, k - 1, was, page);
    }
  }

  /** The larger of the old RVI and the highest posted vector. */
  lemma {:induction false} HighestIs(words: seq<Bits>, k: nat, rvi: nat)
    requires IsWords(words) && k <= VECTORS
    ensures var m := Highest(words, k, rvi);
            && rvi <= m && (forall v :: v < k && Posted(words, v) ==> v <= m)
            && (m == rvi || (m < k && Posted(words, m)))
  {
    if k > 0 { HighestIs(words, k - 1, rvi); }
  }

  /** Lines 2017-2021. */
  method SetBit(vapic: array<Bits>, vector: int)
    requires IsPage(vapic[..]) && 0 <= vector < VECTORS
    modifies vapic
    ensures vapic[..] == Requested(old(vapic[..]), vector)
  {
    vapic[Register(vector)] := vapic[Register(vector)][vector % 32 := true];
  }

  /** The inner loop, over the bits of word i. */
  method MoveWord(vectors: seq<Bits>, i: int, vapic: array<Bits>, rvi: nat, ghost was: seq<Bits>,
      ghost first: nat) returns (rvi': nat)
    requires 0 <= i < WORDS && Reached(vectors, 64 * i, was, first, vapic[..], rvi)
    modifies vapic
    ensures Reached(vectors, 64 * (i + 1), was, first, vapic[..], rvi')
  {
    rvi' := rvi;
    var vector := 64 * i;
    for j := 0 to 64
      invariant vector == 64 * i + j && Reached(vectors, vector, was, first, vapic[..], rvi')
    {
      assert Posted(vectors, vector) == vectors[i][j] by { assert vector / 64 == i && vector % 64 == j; }
      ReachedStep(vectors, vector, was, first, vapic[..], rvi');
      if vectors[i][j] {
        SetBit(vapic, vector);
        rvi' := if rvi' > vector then rvi' else vector;
      }
      vector := vector + 1;
    }
  }

  /** The whole drain. status is the guest interrupt status, whose low byte is RVI. */
  method HandleQueued(desc: Descriptor, vapic: array<Bits>, status: Bits) returns (status': Bits)
    requires desc.Valid() && IsPage(vapic[..]) && desc.vectors != vapic && |status| == 16
    modifies desc, desc.vectors, vapic
    ensures desc.Valid() && IsPage(vapic[..]) && desc.extra == Zero(64)
    ensures !old(desc.extra[0]) ==>
        status' == status && vapic[..] == old(vapic[..])
        && desc.vectors[..] == old(desc.vectors[..])
    ensures old(desc.extra[0]) ==>
              && (forall v :: !Posted(desc.vectors[..], v))
              && (forall v :: Pending(vapic[..], v) <==>
                  Pending(old(vapic[..]), v) || Posted(old(desc.vectors[..]), v))
              && (forall i :: 0 <= i < 1024 && !IsRegister(i) ==> vapic[i] == old(vapic[i]))
              && status' == NewStatus(status, Highest(old(desc.vectors[..]), VECTORS, Rvi(status)))
  {
    var outstanding := desc.extra;
    desc.extra := Zero(64);
    status' := status;
    if outstanding[0] {
      var rvi := Rvi(status);
      var vectors := Take(desc.vectors);
      ghost var was := vapic[..];
      for i := 0 to WORDS
        modifies vapic
        invariant Reached(vectors, 64 * i, was, Rvi(status), vapic[..], rvi)
      {
        // a word of zeros moves nothing, so the test of line 2012 changes nothing either
        rvi := MoveWord(vectors, i, vapic, rvi, was, Rvi(status));
      }
      HighestIs(vectors, VECTORS, Rvi(status));
      status' := NewStatus(status, rvi);
      forall v ensures Pending(vapic[..], v) <==>
          Pending(was, v) || Posted(vectors, v) { PageIs(vectors, VECTORS, was, v); }
      forall i | 0 <= i < 1024 && !IsRegister(i) ensures vapic[i] == was[i] { PageKeeps(vectors, VECTORS, was, i); }
    }
  }

  /** The four exchanges of lines 2008-2010. */
  method Take(words: array<Bits>) returns (taken: seq<Bits>)
    requires words.Length == WORDS
    modifies words
    ensures taken == old(words[..])
    ensures forall i :: 0 <= i < WORDS ==> words[i] == Zero(64)
  {
    taken := [];
    for i := 0 to WORDS
      invariant taken == old(words[..i])
      invariant forall j :: 0 <= j < i ==> words[j] == Zero(64)
      invariant forall j :: i <= j < WORDS ==> words[j] == old(words[j])
    {
      taken := taken + [words[i]];
      words[i] := Zero(64);
    }
  }

  // ---- The RVI byte ----

  /** The number that a word's bits stand for. */
  function Value(w: Bits): (n: nat) {
    if w == [] then 0 else (if w[0] then 1 else 0) + 2 * Value(w[1..])
  }

  function ToBits(n: nat, k: nat): (w: Bits)
    ensures |w| == k
  {
    if k == 0 then [] else [n % 2 == 1] + ToBits(n / 2, k - 1)
  }

  function Or(a: Bits, b: Bits): (w: Bits)
    requires |a| == |b|
    ensures |w| == |a|
  {
    seq(|a|, i requires 0 <= i < |a| => a[i] || b[i])
  }

  function Pow2(k: nat): nat { if k == 0 then 1 else 2 * Pow2(k - 1) }

  function Rvi(status: Bits): nat
    requires |status| == 16
  {
    Value(status[..8])
  }

  /** Line 2030: rvi, a byte, is ORed into the status. */
  function NewStatus(status: Bits, rvi: nat): (status': Bits)
    requires |status| == 16
    ensures |status'| == 16
  {
    Or(status[..8], ToBits(rvi, 8)) + status[8..]
  }

  lemma {:induction false} ValueOfBits(n: nat, k: nat)
    requires n < Pow2(k)
    ensures Value(ToBits(n, k)) == n
  {
    if k > 0 {
      ValueOfBits(n / 2, k - 1);
      assert ToBits(n, k)[1..] == ToBits(n / 2, k - 1);
    }
  }

  /** The OR of two words is at least the second, and equal to it exactly if it adds no bit. */
  lemma {:induction false} OrValue(a: Bits, b: Bits)
    requires |a| == |b|
    ensures Value(Or(a, b)) >= Value(b)
    ensures Value(Or(a, b)) == Value(b) <==> Or(a, b) == b
  {
    if a != [] {
      OrValue(a[1..], b[1..]);
      assert Or(a, b)[1..] == Or(a[1..], b[1..]);
      assert Or(a, b) == [a[0] || b[0]] + Or(a[1..], b[1..]) && b == [b[0]] + b[1..];
    }
  }

  /** Because line 2030 ORs, the new RVI is at least m, the highest of the vectors moved and
      the old RVI, and is m exactly if the old RVI's bits are all set in m, as when it was 0. */
  lemma RviExact(status: Bits, m: nat)
    requires |status| == 16 && m < VECTORS
    ensures var status' := NewStatus(status, m);
            && status'[8..] == status[8..]
            && Rvi(status') >= m
            && (Rvi(status') == m <==> forall i :: 0 <= i < 8 && status[i] ==> ToBits(m, 8)[i])
            && (Rvi(status) == 0 ==> Rvi(status') == m)
  {
    var a, b := status[..8], ToBits(m, 8);
    assert NewStatus(status, m)[..8] == Or(a, b);
    assert Pow2(8) == 256 by { assert Pow2(8) == 2 * (2 * (2 * (2 * (2 * (2 * (2 * (2 * 1))))))); }
    ValueOfBits(m, 8);
    OrValue(a, b);
    assert Or(a, b) == b <==> forall i :: 0 <= i < 8 && a[i] ==> b[i] by {
      if forall i :: 0 <= i < 8 && a[i] ==> b[i] { assert Or(a, b) == b; }
      if Or(a, b) == b { forall i | 0 <= i < 8 && a[i] ensures b[i] { assert Or(a, b)[i]; } }
    }
    assert forall i :: 0 <= i < 8 ==> a[i] == status[i];
    if Rvi(status) == 0 { ZeroValue(a); }
  }

  lemma {:induction false} ZeroValue(w: Bits)
    requires Value(w) == 0
    ensures forall i :: 0 <= i < |w| ==> !w[i]
  {
    if w != [] {
      ZeroValue(w[1..]);
      assert forall i :: 1 <= i < |w| ==> w[i] == w[1..][i - 1];
    }
  }

  /** RVI 1 with posted vector 2 becomes 3, a vector that nobody requested. */
  lemma RviTooHigh(status: Bits)
    requires status == ToBits(1, 8) + Zero(8)
    ensures Rvi(status) == 1 && Rvi(NewStatus(status, 2)) > 2
  {
    assert status[..8] == ToBits(1, 8);
    assert Pow2(8) == 2 * Pow2(7) && Pow2(7) >= 1;
    ValueOfBits(1, 8);
    RviExact(status, 2);
    assert ToBits(1, 8)[0] && !ToBits(2, 8)[0];
  }
}
