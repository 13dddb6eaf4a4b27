/** The memory-aperture translation engine of the PolarFire SoC (MPFS) board:
    bus windows whose hardware start address can be moved inside the
    installed memory, the board that owns six of them, and the codec between
    a hardware start address and the segment-register value that selects it. */
module Soc {
  import opened Common

  /** The failure of every fallible aperture operation; it carries no data. */
  datatype SegError = SegError

  // ---------------------------------------------------------------------
  // Segment-register codec
  // ---------------------------------------------------------------------

  // The codec works on `u64` with three masks and two shifts.  Each is
  // written out on integers: bit 14 and the low 14 bits by division and
  // remainder, a shift by 24 as a product or quotient with 2^24.

  /** `x & 0x4000 != 0`: bit 14 of `x` is set. */
  predicate Bit14(x: u64) {
    (x / 0x4000) % 2 == 1
  }

  /** `x & 0x3FFF`: the low 14 bits of `x`. */
  function Low14(x: u64): u64 {
    x % 0x4000
  }

  /** `x | 0x4000`: `x` with bit 14 set. */
  function SetBit14(x: u64): u64 {
    if Bit14(x) then x else x + 0x4000
  }

  /** One segment granule: a segment register counts in units of 16 MiB
      (`x << 24` is `x * GRANULE`, `x >> 24` is `x / GRANULE`). */
  const GRANULE: int := 0x100_0000

  /** The distance below the bus address that a segment value with bit 14
      set selects: 0x4000 minus its low 14 bits, in granules.  It is always
      a whole number of granules, from one granule up to 0x4000 of them. */
  function SegmentOffset(seg: u64): (offset: u64)
    ensures offset % GRANULE == 0
    ensures GRANULE <= offset <= 0x4000 * GRANULE
  {
    (0x4000 - Low14(seg)) * GRANULE
  }

  /** `seg_to_hw_start_addr`: the hardware start address a segment value maps
      an aperture at `busAddr` to.  A value with bit 14 clear is the identity
      mapping (a zero register, or one the bootloader treats as zero).  The
      subtraction must not wrap, which is the only demand on callers. */
  function SegToHwStartAddr(seg: u64, busAddr: u64): (hw: u64)
    requires Bit14(seg) ==> SegmentOffset(seg) <= busAddr
    ensures hw <= busAddr
    ensures hw == busAddr <==> !Bit14(seg)
    ensures (busAddr - hw) % GRANULE == 0
  {
    if !Bit14(seg) then busAddr
    else busAddr - SegmentOffset(seg)
  }

  /** `hw_start_addr_to_seg`: the segment value for a hardware start address.
      The subtractions `bus - hw` and `0x4000 - delta` must not wrap. */
  function HwStartAddrToSeg(hwStartAddr: u64, busAddr: u64): (seg: u64)
    requires hwStartAddr <= busAddr
    requires (busAddr - hwStartAddr) / GRANULE <= 0x4000
    ensures seg == 0 <==> hwStartAddr == busAddr
    ensures seg != 0 ==> Bit14(seg) && seg <= 0x7FFF
  {
    if busAddr == hwStartAddr then 0
    else
      var delta := (busAddr - hwStartAddr) / GRANULE;
      SetBit14(0x4000 - delta)
  }

  /** A segment value as the encoder produces it: zero, or bit 14 set and
      nothing above it. */
  predicate IsCanonicalSeg(seg: u64) {
    seg == 0 || 0x4000 <= seg <= 0x7FFF
  }

  /** Decoding an encoded address gives the address back, for every address
      a whole number of granules (at most 0x4000 of them) below the bus
      address; the identity mapping is the case of zero granules. */
  lemma DecodeEncode(hw: u64, bus: u64)
    requires hw <= bus
    requires (bus - hw) % GRANULE == 0
    requires (bus - hw) / GRANULE <= 0x4000
    ensures Bit14(HwStartAddrToSeg(hw, bus)) ==> SegmentOffset(HwStartAddrToSeg(hw, bus)) <= bus
    ensures SegToHwStartAddr(HwStartAddrToSeg(hw, bus), bus) == hw
  {
  }

  /** Encoding a decoded address gives the segment value back, for every
      canonical segment value whose offset fits below the bus address. */
  lemma EncodeDecode(seg: u64, bus: u64)
    requires IsCanonicalSeg(seg)
    requires seg != 0 ==> SegmentOffset(seg) <= bus
    ensures (bus - SegToHwStartAddr(seg, bus)) / GRANULE <= 0x4000
    ensures HwStartAddrToSeg(SegToHwStartAddr(seg, bus), bus) == seg
  {
  }

  /** The identity case in both directions. */
  lemma IdentityMapping(bus: u64)
    ensures HwStartAddrToSeg(bus, bus) == 0
    ensures SegToHwStartAddr(0, bus) == bus
  {
  }

  /** A start address that is not on a granule boundary, but at least one
      granule below the bus address, comes back from the round trip moved up
      to the next granule boundary towards the bus address. */
  lemma RoundTripRoundsToGranule(hw: u64, bus: u64)
    requires hw <= bus
    requires 1 <= (bus - hw) / GRANULE <= 0x4000
    ensures SegmentOffset(HwStartAddrToSeg(hw, bus)) <= bus
    ensures hw <= SegToHwStartAddr(HwStartAddrToSeg(hw, bus), bus)
    ensures SegToHwStartAddr(HwStartAddrToSeg(hw, bus), bus) - hw < GRANULE
  {
  }

  /** A start address less than one granule below (but not at) the bus
      address encodes to 0x4000, which decodes to 0x4000 granules below the
      bus address: the round trip does not come back. */
  lemma SubGranuleOffsetDoesNotRoundTrip(hw: u64, bus: u64)
    requires hw < bus && bus - hw < GRANULE
    ensures HwStartAddrToSeg(hw, bus) == 0x4000
    ensures 0x4000 * GRANULE <= bus ==> SegToHwStartAddr(0x4000, bus) != hw
  {
  }

  /** The decoder looks only at bits 0 to 14 of the segment value. */
  lemma DecodeIgnoresHighBits(seg: u64, bus: u64)
    requires Bit14(seg) ==> SegmentOffset(seg) <= bus
    ensures Bit14(seg % 0x8000) ==> SegmentOffset(seg % 0x8000) <= bus
    ensures SegToHwStartAddr(seg % 0x8000, bus) == SegToHwStartAddr(seg, bus)
  {
    var q, r := seg / 0x8000, seg % 0x8000;
    var b, l := r / 0x4000, r % 0x4000;
    assert seg == (2 * q + b) * 0x4000 + l;
    assert seg / 0x4000 == 2 * q + b && seg % 0x4000 == l;
    assert Bit14(r) == Bit14(seg) && Low14(r) == Low14(seg);
  }

  // ---------------------------------------------------------------------
  // Apertures
  // ---------------------------------------------------------------------

  /** The constructor arguments of an aperture (its struct literal). */
  datatype ApertureFields = ApertureFields(
    description: string,
    regName: string,
    busAddr: u64,
    hardwareAddr: u64,
    apertureSize: u64)

  /** One bus window.  The bus address, size and names are fixed; only the
      hardware start address moves, and only through SetHwStartAddr. */
  class MemoryAperture {
    const description: string
    const regName: string
    const busAddr: u64
    const apertureSize: u64
    var hardwareAddr: u64

    constructor (fields: ApertureFields)
      ensures Fields() == fields
    {
      description := fields.description;
      regName := fields.regName;
      busAddr := fields.busAddr;
      hardwareAddr := fields.hardwareAddr;
      apertureSize := fields.apertureSize;
    }

    /** The aperture's current field values. */
    function Fields(): ApertureFields
      reads this
    {
      ApertureFields(description, regName, busAddr, hardwareAddr, apertureSize)
    }

    /** The current hardware start, refused only when it lies strictly beyond
        the installed memory; a start equal to the total is still reported. */
    function GetHwStartAddr(totalSystemMemory: u64): (r: Result<u64, SegError>)
      reads this
      ensures r.Err? <==> hardwareAddr > totalSystemMemory
      ensures r.Ok? ==> r.value == hardwareAddr && r.value <= totalSystemMemory
    {
      if hardwareAddr > totalSystemMemory then Err(SegError) else Ok(hardwareAddr)
    }

    /** The end of the window, clipped to the installed memory: the smaller
        of start plus size and the total.  It never fails, and when the start
        is within memory the end is not below the start. */
    function GetHwEndAddr(totalSystemMemory: u64): (r: Result<u64, SegError>)
      reads this
      requires hardwareAddr + apertureSize < U64_LIMIT
      ensures r.Ok?
      ensures r.value <= totalSystemMemory && r.value <= hardwareAddr + apertureSize
      ensures r.value == totalSystemMemory || r.value == hardwareAddr + apertureSize
      ensures hardwareAddr <= totalSystemMemory ==> hardwareAddr <= r.value
    {
      var apertureMax := hardwareAddr + apertureSize;
      if apertureMax > totalSystemMemory then Ok(totalSystemMemory) else Ok(apertureMax)
    }

    /** Moves the window to `newStartAddr` if it lies strictly below the
        installed memory; otherwise fails and changes nothing.  After a
        success the start getter accepts the new start under the same total. */
    method SetHwStartAddr(totalSystemMemory: u64, newStartAddr: u64) returns (r: Result<(), SegError>)
      modifies this
      ensures r.Ok? <==> newStartAddr < totalSystemMemory
      ensures hardwareAddr == if r.Ok? then newStartAddr else old(hardwareAddr)
      ensures r.Ok? ==> GetHwStartAddr(totalSystemMemory) == Ok(newStartAddr)
    {
      if newStartAddr < totalSystemMemory {
        hardwareAddr := newStartAddr;
        return Ok(());
      } else {
        return Err(SegError);
      }
    }
  }

  /** The hardware start addresses of a list of apertures, in order. */
  ghost function HardwareAddrsOf(ms: seq<MemoryAperture>): (hs: seq<u64>)
    reads ms
    ensures |hs| == |ms|
    ensures forall i :: 0 <= i < |ms| ==> hs[i] == ms[i].hardwareAddr
  {
    if ms == [] then [] else HardwareAddrsOf(ms[..|ms| - 1]) + [ms[|ms| - 1].hardwareAddr]
  }

  // ---------------------------------------------------------------------
  // The board
  // ---------------------------------------------------------------------

  const DEFAULT_TOTAL_SYSTEM_MEMORY: u64 := 0x8000_0000

  /** The six apertures of `MPFS::default`, in board order. */
  const DEFAULT_APERTURES: seq<ApertureFields> := [
    ApertureFields("64-bit cached\t", "seg0_1", 0x10_0000_0000, 0x00_0200_0000, 0x40_000_0000),
    ApertureFields("64-bit non-cached", "seg1_3", 0x14_0000_0000, 0x0, 0x4000_0000),
    ApertureFields("64-bit WCB\t", "seg1_5", 0x18_0000_0000, 0x0, 0x4000_0000),
    ApertureFields("32-bit cached\t", "seg0_0", 0x8000_0000, 0x0, 0x4000_0000),
    ApertureFields("32-bit non-cached", "seg1_2", 0xC000_0000, 0x0, 0x1000_0000),
    ApertureFields("32-bit WCB\t", "seg1_4", 0xD000_0000, 0x0, 0x1000_0000)
  ]

  /** The board: a fixed, ordered list of apertures, the installed memory
      (set by the user) and the aperture the wizard has selected.  No code
      reassigns the list, so it is a constant here. */
  class MPFS {
    var totalSystemMemory: u64
    const memoryApertures: seq<MemoryAperture>
    var currentApertureId: Option<nat>

    /** The apertures are distinct objects and a selection names one of them. */
    ghost predicate Valid()
      reads this
    {
      && (forall i, j :: 0 <= i < j < |memoryApertures| ==> memoryApertures[i] != memoryApertures[j])
      && (currentApertureId.Some? ==> currentApertureId.value < |memoryApertures|)
    }

    ghost function HardwareAddrs(): seq<u64>
      reads this, memoryApertures
    {
      HardwareAddrsOf(memoryApertures)
    }

    /** `MPFS::default`. */
    constructor ()
      ensures Valid()
      ensures totalSystemMemory == DEFAULT_TOTAL_SYSTEM_MEMORY && currentApertureId == None
      ensures |memoryApertures| == |DEFAULT_APERTURES|
      ensures forall i :: 0 <= i < |memoryApertures| ==> memoryApertures[i].Fields() == DEFAULT_APERTURES[i]
      ensures fresh(memoryApertures)
    {
      var a0 := new MemoryAperture(DEFAULT_APERTURES[0]);
      var a1 := new MemoryAperture(DEFAULT_APERTURES[1]);
      var a2 := new MemoryAperture(DEFAULT_APERTURES[2]);
      var a3 := new MemoryAperture(DEFAULT_APERTURES[3]);
      var a4 := new MemoryAperture(DEFAULT_APERTURES[4]);
      var a5 := new MemoryAperture(DEFAULT_APERTURES[5]);
      totalSystemMemory := DEFAULT_TOTAL_SYSTEM_MEMORY;
      currentApertureId := None;
      memoryApertures := [a0, a1, a2, a3, a4, a5];
    }

    /** The start getter of aperture `id` under the board's own total: the
        `totalSystemMemory` argument is ignored. */
    function GetHwStartAddrById(totalSystemMemory: u64, id: nat): (r: Result<u64, SegError>)
      reads this, memoryApertures
      requires id < |memoryApertures|
      ensures r.Err? <==> memoryApertures[id].hardwareAddr > this.totalSystemMemory
      ensures r.Ok? ==> r.value == memoryApertures[id].hardwareAddr
    {
      memoryApertures[id].GetHwStartAddr(this.totalSystemMemory)
    }

    /** The end getter of aperture `id`, clipped to the board's own total:
        the `totalSystemMemory` argument is ignored. */
    function GetHwEndAddrById(totalSystemMemory: u64, id: nat): (r: Result<u64, SegError>)
      reads this, memoryApertures
      requires id < |memoryApertures|
      requires memoryApertures[id].hardwareAddr + memoryApertures[id].apertureSize < U64_LIMIT
      ensures r.Ok? && r.value <= this.totalSystemMemory
      ensures r.value <= memoryApertures[id].hardwareAddr + memoryApertures[id].apertureSize
      ensures r.value == this.totalSystemMemory
           || r.value == memoryApertures[id].hardwareAddr + memoryApertures[id].apertureSize
    {
      memoryApertures[id].GetHwEndAddr(this.totalSystemMemory)
    }

    /** The validated setter of aperture `id` under the board's own total.
        Only that aperture's start can change; the total, the selection and
        every other aperture stay as they were. */
    method SetHwStartAddrById(newStartAddr: u64, id: nat) returns (r: Result<(), SegError>)
      requires Valid() && id < |memoryApertures|
      modifies memoryApertures[id]
      ensures Valid()
      ensures r.Ok? <==> newStartAddr < totalSystemMemory
      ensures HardwareAddrs() == if r.Ok? then old(HardwareAddrs())[id := newStartAddr] else old(HardwareAddrs())
    {
      r := memoryApertures[id].SetHwStartAddr(totalSystemMemory, newStartAddr);
    }
  }

  /** The default layout: six apertures with distinct register names, each
      default start accepted by the start getter under the default total and
      each window end computable without overflow. */
  lemma DefaultLayout()
    ensures |DEFAULT_APERTURES| == 6
    ensures forall i, j :: 0 <= i < j < |DEFAULT_APERTURES| ==> DEFAULT_APERTURES[i].regName != DEFAULT_APERTURES[j].regName
    ensures forall i :: 0 <= i < |DEFAULT_APERTURES| ==> DEFAULT_APERTURES[i].hardwareAddr <= DEFAULT_TOTAL_SYSTEM_MEMORY
    ensures forall i :: 0 <= i < |DEFAULT_APERTURES| ==>
      DEFAULT_APERTURES[i].hardwareAddr + DEFAULT_APERTURES[i].apertureSize < U64_LIMIT
  {
  }

  /** `seg0_1` defaults to the hardware start that segment value 0x7002
      selects, and encodes back to 0x7002. */
  lemma DefaultSeg01IsSegment7002()
    ensures SegToHwStartAddr(0x7002, DEFAULT_APERTURES[0].busAddr) == DEFAULT_APERTURES[0].hardwareAddr
    ensures HwStartAddrToSeg(DEFAULT_APERTURES[0].hardwareAddr, DEFAULT_APERTURES[0].busAddr) == 0x7002
  {
  }
}
