/** Register map of the Core-Local Interruptor (CLINT) as generated for four
    harts: the machine software-interrupt pending bits (MSIP), the per-hart
    64-bit timer compare registers (mtimecmp) and the shared 64-bit timer
    (mtime) of the RISC-V Privileged Architecture, section 3.2.1 (v1.12).
    Timer compare registers and mtime sit where the SiFive CLINT puts them
    (0x4000 + 8 * hart and 0xbff8); the MSIP bits of all harts are packed into
    one 32-bit register, bit i for hart i.

    The layout is written as functions of the hart index; the literal table
    the generator emitted is kept beside it, and lemmas show that the two
    agree and that the layout is aligned, ordered and free of overlap. */
module Clint {

  // Generated parameters.
  const NUM_CORES: nat := 4
  const REG_WIDTH: nat := 32
  const MSIP_P_FIELD_WIDTH: nat := 1
  const MSIP_P_FIELDS_PER_REG: nat := 32
  const MSIP_MULTIREG_COUNT: nat := 1
  const MSIP_REG_OFFSET: nat := 0x0

  // Generated literal offsets and bit positions, indexed by hart.
  const MSIP_P_BITS: seq<nat> := [0, 1, 2, 3]
  const MTIMECMP_LOW_REG_OFFSETS: seq<nat> := [0x4000, 0x4008, 0x4010, 0x4018]
  const MTIMECMP_HIGH_REG_OFFSETS: seq<nat> := [0x4004, 0x400c, 0x4014, 0x401c]
  const MTIME_LOW_REG_OFFSET: nat := 0xbff8
  const MTIME_HIGH_REG_OFFSET: nat := 0xbffc

  /** Bytes per register. */
  const REG_BYTES: nat := REG_WIDTH / 8
  /** Base of the mtimecmp block and of mtime in the SiFive CLINT layout.
      The layout functions build every offset from these two bases, so the
      hart-0 mtimecmp entries and the mtime entries of the generated table
      agree with them by definition; the entries of harts 1 to 3 and every
      high half are the ones `GeneratedConstants` actually checks. */
  const MTIMECMP_BASE: nat := 0x4000
  const MTIME_BASE: nat := 0xbff8

  /** Which 32-bit half of a 64-bit timer register. */
  datatype Half = Low | High

  /** Byte distance of a half from the start of its 64-bit register
      (little-endian: the low word comes first). */
  function HalfOffset(half: Half): (d: nat)
    ensures d < 2 * REG_BYTES && d % REG_BYTES == 0
    ensures d == 0 <==> half == Low
  {
    match half
    case Low => 0
    case High => REG_BYTES
  }

  /** Index of the MSIP register that holds hart `hart`'s pending bit. */
  function MsipRegIndex(hart: nat): (k: nat)
    requires hart < NUM_CORES
    ensures k < MSIP_MULTIREG_COUNT
  {
    hart * MSIP_P_FIELD_WIDTH / MSIP_P_FIELDS_PER_REG
  }

  /** Offset of the MSIP register that holds hart `hart`'s pending bit. */
  function MsipOffset(hart: nat): (off: nat)
    requires hart < NUM_CORES
    ensures off == MSIP_REG_OFFSET
  {
    MSIP_REG_OFFSET + REG_BYTES * MsipRegIndex(hart)
  }

  /** Bit position of hart `hart`'s pending bit inside its MSIP register. */
  function MsipBit(hart: nat): (bit: nat)
    requires hart < NUM_CORES
    ensures bit + MSIP_P_FIELD_WIDTH <= REG_WIDTH
  {
    (hart % MSIP_P_FIELDS_PER_REG) * MSIP_P_FIELD_WIDTH
  }

  /** Offset of one half of hart `hart`'s 64-bit mtimecmp register. */
  function MtimecmpOffset(hart: nat, half: Half): (off: nat)
    requires hart < NUM_CORES
    ensures MTIMECMP_BASE <= off < MTIMECMP_BASE + 2 * REG_BYTES * NUM_CORES
    ensures off % REG_BYTES == 0
  {
    MTIMECMP_BASE + 2 * REG_BYTES * hart + HalfOffset(half)
  }

  /** Offset of one half of the 64-bit mtime register. */
  function MtimeOffset(half: Half): (off: nat)
    ensures MTIMECMP_BASE + 2 * REG_BYTES * NUM_CORES <= off
    ensures off % REG_BYTES == 0
  {
    MTIME_BASE + HalfOffset(half)
  }

  /** The registers of the map. */
  datatype Reg = Msip(index: nat) | Mtimecmp(hart: nat, half: Half) | Mtime(half: Half)

  predicate ValidReg(r: Reg) {
    match r
    case Msip(k) => k < MSIP_MULTIREG_COUNT
    case Mtimecmp(h, _) => h < NUM_CORES
    case Mtime(_) => true
  }

  function Offset(r: Reg): (off: nat)
    requires ValidReg(r)
    ensures off % REG_BYTES == 0
  {
    match r
    case Msip(k) => MSIP_REG_OFFSET + REG_BYTES * k
    case Mtimecmp(h, half) => MtimecmpOffset(h, half)
    case Mtime(half) => MtimeOffset(half)
  }

  /** The mtimecmp registers of harts `from` and up, low half before high
      half, in hart order. */
  function MtimecmpRegs(from: nat): (rs: seq<Reg>)
    requires from <= NUM_CORES
    ensures |rs| == 2 * (NUM_CORES - from)
    decreases NUM_CORES - from
  {
    if from == NUM_CORES then []
    else [Mtimecmp(from, Low), Mtimecmp(from, High)] + MtimecmpRegs(from + 1)
  }

  /** The whole map in address order: the MSIP register, then the mtimecmp
      pairs of all harts, then mtime. */
  function RegisterMap(): (m: seq<Reg>)
    ensures |m| == 1 + 2 * NUM_CORES + 2
    ensures m[0] == Msip(0) && m[|m| - 2] == Mtime(Low) && m[|m| - 1] == Mtime(High)
  {
    [Msip(0)] + MtimecmpRegs(0) + [Mtime(Low), Mtime(High)]
  }

  /** The layout functions reproduce every constant the generator emitted. */
  lemma GeneratedConstants()
    ensures |MSIP_P_BITS| == |MTIMECMP_LOW_REG_OFFSETS| == |MTIMECMP_HIGH_REG_OFFSETS| == NUM_CORES
    ensures forall h :: 0 <= h < NUM_CORES ==> MsipBit(h) == MSIP_P_BITS[h] && MsipOffset(h) == MSIP_REG_OFFSET
    ensures forall h :: 0 <= h < NUM_CORES ==> MtimecmpOffset(h, Low) == MTIMECMP_LOW_REG_OFFSETS[h]
    ensures forall h :: 0 <= h < NUM_CORES ==> MtimecmpOffset(h, High) == MTIMECMP_HIGH_REG_OFFSETS[h]
    ensures MtimeOffset(Low) == MTIME_LOW_REG_OFFSET && MtimeOffset(High) == MTIME_HIGH_REG_OFFSET
    ensures REG_BYTES == 4
  {
    forall h | 0 <= h < NUM_CORES
      ensures MsipBit(h) == MSIP_P_BITS[h]
      ensures MtimecmpOffset(h, Low) == MTIMECMP_LOW_REG_OFFSETS[h]
      ensures MtimecmpOffset(h, High) == MTIMECMP_HIGH_REG_OFFSETS[h]
    {
      assert h == 0 || h == 1 || h == 2 || h == 3;
    }
  }

  /** Hart i's pending bit is bit i, and every hart's bit fits in the single
      MSIP register at offset 0. */
  lemma MsipBitsFit()
    ensures NUM_CORES <= MSIP_P_FIELDS_PER_REG * MSIP_MULTIREG_COUNT
    ensures forall h :: 0 <= h < NUM_CORES ==> MsipBit(h) == h && MsipRegIndex(h) == 0 && MsipOffset(h) == 0
    ensures forall h, g :: 0 <= h < g < NUM_CORES ==> MsipBit(h) != MsipBit(g)
  {
  }

  /** The high word of each 64-bit timer register is the word after its low word. */
  lemma HighWordFollowsLow(hart: nat)
    requires hart < NUM_CORES
    ensures MtimecmpOffset(hart, High) == MtimecmpOffset(hart, Low) + 4
    ensures MtimeOffset(High) == MtimeOffset(Low) + 4
  {
  }

  /** Every hart has one mtimecmp low/high pair, in hart order. */
  lemma {:induction false} MtimecmpRegsShape(from: nat)
    requires from <= NUM_CORES
    ensures forall i :: 0 <= i < |MtimecmpRegs(from)| ==>
      MtimecmpRegs(from)[i] == Mtimecmp(from + i / 2, if i % 2 == 0 then Low else High)
    decreases NUM_CORES - from
  {
    if from < NUM_CORES {
      MtimecmpRegsShape(from + 1);
      var rs := MtimecmpRegs(from);
      forall i | 0 <= i < |rs|
        ensures rs[i] == Mtimecmp(from + i / 2, if i % 2 == 0 then Low else High)
      {
        if i >= 2 {
          assert rs[i] == MtimecmpRegs(from + 1)[i - 2];
          assert (i - 2) / 2 == i / 2 - 1 && (i - 2) % 2 == i % 2;
        }
      }
    }
  }

  /** The register map lists every register exactly once, in strictly
      increasing address order: offsets are pairwise distinct, MSIP lies below
      the mtimecmp block, which lies below mtime. */
  lemma RegisterMapOrdered()
    ensures |RegisterMap()| == 1 + 2 * NUM_CORES + 2
    ensures forall i :: 0 <= i < |RegisterMap()| ==> ValidReg(RegisterMap()[i])
    ensures forall i, j :: 0 <= i < j < |RegisterMap()| ==> Offset(RegisterMap()[i]) < Offset(RegisterMap()[j])
  {
    var m := RegisterMap();
    var cmp := MtimecmpRegs(0);
    MtimecmpRegsShape(0);
    assert forall i :: 1 <= i < 1 + |cmp| ==> m[i] == cmp[i - 1];
    forall i | 0 <= i < |m| ensures ValidReg(m[i]) {
      if 1 <= i < 1 + |cmp| { assert m[i] == cmp[i - 1]; }
    }
    forall i, j | 0 <= i < j < |m| ensures Offset(m[i]) < Offset(m[j]) {
      if 1 <= i && j < 1 + |cmp| {
        assert m[i] == Mtimecmp((i - 1) / 2, if (i - 1) % 2 == 0 then Low else High);
        assert m[j] == Mtimecmp((j - 1) / 2, if (j - 1) % 2 == 0 then Low else High);
      }
    }
  }

  /** A register is valid exactly when the map lists it. */
  lemma RegisterMapComplete(r: Reg)
    ensures ValidReg(r) <==> r in RegisterMap()
  {
    var m := RegisterMap();
    var cmp := MtimecmpRegs(0);
    MtimecmpRegsShape(0);
    RegisterMapOrdered();
    if ValidReg(r) {
      match r
      case Msip(k) => assert m[0] == r;
      case Mtimecmp(h, half) =>
        var i := 2 * h + (if half == Low then 0 else 1);
        assert cmp[i] == r;
        assert m[1 + i] == r;
      case Mtime(half) =>
        if half == Low { assert m[|m| - 2] == r; } else { assert m[|m| - 1] == r; }
    } else {
      assert forall x :: x in m ==> ValidReg(x);
    }
  }

  /** Two valid registers at the same offset are the same register. */
  lemma OffsetInjective(r: Reg, s: Reg)
    requires ValidReg(r) && ValidReg(s)
    ensures Offset(r) == Offset(s) <==> r == s
  {
    var m := RegisterMap();
    RegisterMapComplete(r);
    RegisterMapComplete(s);
    RegisterMapOrdered();
    var i :| 0 <= i < |m| && m[i] == r;
    var j :| 0 <= j < |m| && m[j] == s;
    if i < j {
      assert Offset(m[i]) < Offset(m[j]);
    } else if j < i {
      assert Offset(m[j]) < Offset(m[i]);
    }
  }
}
