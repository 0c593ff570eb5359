/** The three overlaid layouts of the 64-bit PTE, and the tests made on the raw
    bits. */
module PteFormat {
  import opened PageState
  import Protocol

  const TWO_40: nat := 0x100_0000_0000
  const TWO_41: nat := 0x200_0000_0000
  const TWO_42: nat := 0x400_0000_0000
  const TWO_43: nat := 0x800_0000_0000
  const TWO_44: nat := 0x1000_0000_0000
  const TWO_45: nat := 0x2000_0000_0000
  const TWO_63: nat := 0x8000_0000_0000_0000
  const TWO_64: nat := 0x1_0000_0000_0000_0000

  // ----- the bit fields ------------------------------------------------------------

  function ValidBit(w: nat): nat { w % 2 }                    // always_zero in the other layouts
  function Number(w: nat): nat { (w / 2) % TWO_40 }           // frame_number, pagefile_idx
  function Protections(w: nat): nat { (w / TWO_41) % 4 }
  function AccessBit(w: nat): nat { (w / TWO_43) % 2 }
  function BeingChanged(w: nat): nat { (w / TWO_44) % 2 }
  function BeingTrimmed(w: nat): nat { (w / TWO_45) % 2 }
  function TransitionBit(w: nat): nat { (w / TWO_41) % 2 }    // always_zero2 in the disk layout
  function BeingRead(w: nat): nat { (w / TWO_42) % 2 }

  predicate IsMemoryFormat(w: nat) { ValidBit(w) == 1 }
  predicate IsDiskFormat(w: nat) { ValidBit(w) == 0 && TransitionBit(w) == 0 && Number(w) != 0 }
  predicate IsTransitionFormat(w: nat) { ValidBit(w) == 0 && TransitionBit(w) == 1 }
  predicate IsUsed(w: nat) { w != 0 }

  // ----- writing and reading PTEs -----------------------------------------------------

  /** The numbers fit their 40 bits, and no PTE is on disk in slot 0. */
  predicate FitsWord(t: Pte) {
    match t
    case Unused => true
    case Valid(f, _, _, _, _) => f < TWO_40
    case Transition(f) => f < TWO_40
    case Disk(k, _) => 0 < k < TWO_40
  }

  function Bit(b: bool): nat { if b then 1 else 0 }

  function ProtBits(p: Prot): nat {
    match p
    case ProtNone => 0
    case ProtRead => 1
    case ProtReadWrite => 3
  }

  function Encode(t: Pte): nat {
    match t
    case Unused => 0
    case Valid(f, prot, accessed, changing, trimming) =>
      1 + 2 * f + TWO_41 * ProtBits(prot) + TWO_43 * Bit(accessed) + TWO_44 * Bit(changing) + TWO_45 * Bit(trimming)
    case Transition(f) => 2 * f + TWO_41
    case Disk(k, reading) => 2 * k + TWO_42 * Bit(reading)
  }

  function Decode(w: nat): Pte {
    if !IsUsed(w) then Unused
    else if IsMemoryFormat(w) then
      Valid(Number(w),
            if Protections(w) == 0 then ProtNone else if Protections(w) == 1 then ProtRead else ProtReadWrite,
            AccessBit(w) == 1, BeingChanged(w) == 1, BeingTrimmed(w) == 1)
    else if IsTransitionFormat(w) then Transition(Number(w))
    else Disk(Number(w), BeingRead(w) == 1)
  }

  lemma ValidFields(f: nat, p: nat, a: nat, c: nat, t: nat)
    requires f < TWO_40 && p < 4 && a < 2 && c < 2 && t < 2
    ensures var w := 1 + 2 * f + TWO_41 * p + TWO_43 * a + TWO_44 * c + TWO_45 * t;
            && w < TWO_64 && ValidBit(w) == 1 && Number(w) == f && Protections(w) == p && AccessBit(w) == a
            && BeingChanged(w) == c && BeingTrimmed(w) == t
  {
    var w := 1 + 2 * f + TWO_41 * p + TWO_43 * a + TWO_44 * c + TWO_45 * t;
    assert w / 2 == f + TWO_40 * (p + 4 * a + 8 * c + 16 * t);
    assert w / TWO_41 == p + 4 * (a + 2 * c + 4 * t);
    assert w / TWO_43 == a + 2 * (c + 2 * t);
    assert w / TWO_44 == c + 2 * t;
  }

  /** A PTE can be read back from its 64 bits. */
  lemma RoundTrip(t: Pte)
    requires FitsWord(t)
    ensures Encode(t) < TWO_64 && Decode(Encode(t)) == t
  {
    match t
    case Valid(f, prot, a, c, tr) => ValidFields(f, ProtBits(prot), Bit(a), Bit(c), Bit(tr));
    case _ =>
  }

  /** Comparing 64-bit words, as compare-exchange does, is comparing PTEs. */
  lemma WordsAreEqualIff(t: Pte, u: Pte)
    requires FitsWord(t) && FitsWord(u)
    ensures Encode(t) == Encode(u) <==> t == u
  {
    RoundTrip(t);
    RoundTrip(u);
  }

  /** The format tests recognize what was written. */
  lemma FormatsAreRecognized(t: Pte)
    requires FitsWord(t)
    ensures IsUsed(Encode(t)) <==> !t.Unused?
    ensures IsMemoryFormat(Encode(t)) <==> t.Valid?
    ensures IsTransitionFormat(Encode(t)) <==> t.Transition?
    ensures IsDiskFormat(Encode(t)) <==> t.Disk?
  {
    match t
    case Valid(f, prot, a, c, tr) => ValidFields(f, ProtBits(prot), Bit(a), Bit(c), Bit(tr));
    case _ =>
  }

  /** No word has two formats.  The words with none of them, not even unused,
      are those with flags of the disk layout but index 0, which is why slot 0
      is never given out. */
  lemma FormatsExclude(w: nat)
    ensures !(IsMemoryFormat(w) && IsDiskFormat(w)) && !(IsMemoryFormat(w) && IsTransitionFormat(w))
    ensures !(IsDiskFormat(w) && IsTransitionFormat(w))
    ensures !IsUsed(w) ==> !IsMemoryFormat(w) && !IsDiskFormat(w) && !IsTransitionFormat(w)
    ensures IsUsed(w) && !IsMemoryFormat(w) && !IsDiskFormat(w) && !IsTransitionFormat(w)
       <==> IsUsed(w) && ValidBit(w) == 0 && TransitionBit(w) == 0 && Number(w) == 0
    ensures Encode(Disk(0, false)) == Encode(Unused)
  {
  }

  /** The trimmer's last loop reads the flags of the memory layout in whatever
      format the PTE is by then; what passes its tests is still marked. */
  lemma TrimmerTestsAreExact(t: Pte)
    requires FitsWord(t)
    ensures !IsDiskFormat(Encode(t)) && BeingChanged(Encode(t)) == 0 && BeingTrimmed(Encode(t)) == 1
       <==> Protocol.StillMarked(t)
  {
    match t
    case Valid(f, prot, a, c, tr) => ValidFields(f, ProtBits(prot), Bit(a), Bit(c), Bit(tr));
    case _ =>
  }

  /** The read-only mask is set in the number handed to the processor, and
      falls off when that number is stored in the 40 bits of the PTE. */
  lemma ReadOnlyMaskFallsOff(f: nat)
    requires f < TWO_40
    ensures (f + TWO_63) % TWO_40 == f && f + TWO_63 < TWO_64
  {
    assert TWO_63 == TWO_40 * 0x80_0000;
  }
}
