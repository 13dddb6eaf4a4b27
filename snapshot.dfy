/** The earlier, single-file version of the aperture model (`main.rs`):
    the same windows without error results.  Its start getter has no
    range check, its setter ignores a rejected address silently, and its
    segment decoder is still a stub. */
module Snapshot {
  import opened Common

  /** The struct literal of an aperture in this version, with its
      segment-register field. */
  datatype ApertureFields = ApertureFields(
    description: string,
    regName: string,
    busAddr: u64,
    hardwareAddr: u64,
    apertureSize: u64,
    segReg: u64)

  class MemoryAperture {
    const description: string
    const regName: string
    const busAddr: u64
    const apertureSize: u64
    var hardwareAddr: u64
    var segReg: u64

    constructor (fields: ApertureFields)
      ensures Fields() == fields
    {
      description := fields.description;
      regName := fields.regName;
      busAddr := fields.busAddr;
      hardwareAddr := fields.hardwareAddr;
      apertureSize := fields.apertureSize;
      segReg := fields.segReg;
    }

    function Fields(): ApertureFields
      reads this
    {
      ApertureFields(description, regName, busAddr, hardwareAddr, apertureSize, segReg)
    }

    /** The stored start, whatever the installed memory. */
    function GetHwStartAddr(): (r: u64)
      reads this
      ensures r == hardwareAddr
    {
      hardwareAddr
    }

    /** The end of the window clipped to the installed memory: the smaller
        of start plus size and the total.  When the start is within memory
        the end is not below the start, so `end - start` does not wrap. */
    function GetHwEndAddr(totalSystemMemory: u64): (r: u64)
      reads this
      requires hardwareAddr + apertureSize < U64_LIMIT
      ensures r <= totalSystemMemory && r <= hardwareAddr + apertureSize
      ensures r == totalSystemMemory || r == hardwareAddr + apertureSize
      ensures hardwareAddr <= totalSystemMemory ==> GetHwStartAddr() <= r
    {
      var apertureMax := hardwareAddr + apertureSize;
      if apertureMax > totalSystemMemory then totalSystemMemory else apertureMax
    }

    /** Moves the window when the new start lies strictly below the
        installed memory and otherwise does nothing, without telling the
        caller which happened.  No other field changes. */
    method UpdateHwStartAddr(totalSystemMemory: u64, newStartAddr: u64)
      modifies this
      ensures hardwareAddr == if newStartAddr < totalSystemMemory then newStartAddr else old(hardwareAddr)
      ensures segReg == old(segReg)
    {
      if newStartAddr < totalSystemMemory {
        hardwareAddr := newStartAddr;
      }
    }
  }

  const DEFAULT_TOTAL_SYSTEM_MEMORY: u64 := 0x8000_0000

  /** The six apertures of this version's `MPFS::default`: every window
      starts at hardware address zero with a zero segment register. */
  const DEFAULT_APERTURES: seq<ApertureFields> := [
    ApertureFields("64-bit cached\t", "seg0_1", 0x10_0000_0000, 0x0, 0x40_000_0000, 0x0),
    ApertureFields("64-bit non-cached", "seg1_3", 0x14_0000_0000, 0x0, 0x4000_0000, 0x0),
    ApertureFields("64-bit WCB\t", "seg1_5", 0x18_0000_0000, 0x0, 0x4000_0000, 0x0),
    ApertureFields("32-bit cached\t", "seg0_0", 0x8000_0000, 0x0, 0x4000_0000, 0x0),
    ApertureFields("32-bit non-cached", "seg1_2", 0xC000_0000, 0x0, 0x1000_0000, 0x0),
    ApertureFields("32-bit WCB\t", "seg1_4", 0xD000_0000, 0x0, 0x1000_0000, 0x0)
  ]

  class MPFS {
    var totalSystemMemory: u64
    const memoryApertures: seq<MemoryAperture>

    /** `MPFS::default`. */
    constructor ()
      ensures totalSystemMemory == DEFAULT_TOTAL_SYSTEM_MEMORY
      ensures |memoryApertures| == |DEFAULT_APERTURES|
      ensures forall i :: 0 <= i < |memoryApertures| ==> memoryApertures[i].Fields() == DEFAULT_APERTURES[i]
      ensures fresh(memoryApertures)
    {
      var a0 := new MemoryAperture(DEFAULT_APERTURES[0]);
      var a1 := new MemoryAperture(DEFAULT_APERTURES[1]);
      var a2 := new MemoryAperture(DEFAULT_APERTURES[2]);
      var a3 := new MemoryAperture(DEFAULT_APERTURES[3]);
      var a4 := new MemoryAperture(DEFAULT_APERTURES[4]);
      var a5 := new MemoryAperture(DEFAULT_APERTURES[5]);
      totalSystemMemory := DEFAULT_TOTAL_SYSTEM_MEMORY;
      memoryApertures := [a0, a1, a2, a3, a4, a5];
    }
  }

  /** The default layout of this version: six apertures, each starting at
      zero with a zero segment register, under a 2 GiB total.  Every start
      is within memory and every end is computable, so by `GetHwEndAddr`'s
      contract `end - start` does not wrap for any default window. */
  lemma DefaultLayout()
    ensures |DEFAULT_APERTURES| == 6
    ensures forall i :: 0 <= i < |DEFAULT_APERTURES| ==>
      DEFAULT_APERTURES[i].hardwareAddr == 0 && DEFAULT_APERTURES[i].segReg == 0
    ensures DEFAULT_TOTAL_SYSTEM_MEMORY == 0x8000_0000
    ensures forall i :: 0 <= i < |DEFAULT_APERTURES| ==>
      && DEFAULT_APERTURES[i].hardwareAddr <= DEFAULT_TOTAL_SYSTEM_MEMORY
      && DEFAULT_APERTURES[i].hardwareAddr + DEFAULT_APERTURES[i].apertureSize < U64_LIMIT
  {
  }

  /** One MiB, `2u64.pow(10).pow(2)`. */
  const MIB: int := 0x10_0000

  /** `hex_to_mib`: a byte count in whole MiB, rounded down. */
  function HexToMib(hex: u64): (mib: u64)
    ensures mib * MIB <= hex < (mib + 1) * MIB
  {
    hex / MIB
  }

  /** The placeholder decoder of this version: 1 whatever the register. */
  function SegToHwStartAddr(seg: u64): (hw: u64)
    ensures hw == 1
  {
    1
  }
}
