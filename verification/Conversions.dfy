/** Virtual addresses and PTE indices, in 64-bit arithmetic. */
module Conversions {
  import opened PageState

  const PAGE_SIZE: nat := 4096
  const TWO_64: nat := 0x1_0000_0000_0000_0000

  /** va_to_pte: an address below the base wraps around. */
  function VaToPte(va: nat, base: nat, pages: nat): Option<nat>
    requires va < TWO_64 && base < TWO_64
  {
    if va == 0 then None
    else
      var index := ((va + TWO_64 - base) % TWO_64) / PAGE_SIZE;
      if index > pages then None else Some(index)
  }

  /** pte_to_va. */
  function PteToVa(index: nat, base: nat): nat {
    (base + index * PAGE_SIZE) % TWO_64
  }

  /** The address space of the simulation does not wrap and does not start at 0. */
  predicate Fits(base: nat, pages: nat) {
    0 < base && base % PAGE_SIZE == 0 && base + (pages + 1) * PAGE_SIZE <= TWO_64
  }

  lemma PteRoundTrip(index: nat, base: nat, pages: nat)
    requires Fits(base, pages) && index <= pages
    ensures PteToVa(index, base) < TWO_64 && VaToPte(PteToVa(index, base), base, pages) == Some(index)
  {
    assert index * PAGE_SIZE <= pages * PAGE_SIZE;
  }

  /** An address in the space comes back as the start of its page. */
  lemma VaRoundTrip(va: nat, base: nat, pages: nat)
    requires Fits(base, pages) && base <= va < base + pages * PAGE_SIZE
    ensures VaToPte(va, base, pages) == Some((va - base) / PAGE_SIZE) && (va - base) / PAGE_SIZE < pages
    ensures PteToVa((va - base) / PAGE_SIZE, base) == va - va % PAGE_SIZE
  {
    var offset := va - base;
    assert (va + TWO_64 - base) % TWO_64 == offset;
    assert base == PAGE_SIZE * (base / PAGE_SIZE);
    assert va % PAGE_SIZE == offset % PAGE_SIZE;
  }

  /** The bound is one too high: an address is accepted exactly if it is in the
      space or in the page behind it, for which there is no PTE. */
  lemma AcceptedIff(va: nat, base: nat, pages: nat)
    requires Fits(base, pages) && 0 < va < TWO_64
    ensures VaToPte(va, base, pages).Some? <==> base <= va < base + (pages + 1) * PAGE_SIZE
  {
  }
}
