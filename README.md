# Memory-aperture configurator for the PolarFire SoC, modelled in Dafny

The configurator describes how the six bus windows ("apertures") of a
PolarFire SoC (MPFS) board map onto the installed physical memory. Each
aperture has a fixed bus address and size and a movable hardware start
address. A segment register value encodes that start relative to the bus
address, in 16 MiB granules.

This project models, module by module:

- `Soc` (`soc.dfy`, from `soc/mod.rs`): the `MemoryAperture` class with its
  checked start getter, clipping end getter and validated setter; the `MPFS`
  board class with its six default apertures and its by-index forwarding;
  and the segment-register codec `SegToHwStartAddr` / `HwStartAddrToSeg`
  with both round trips proved.
- `HexInput` (`hexinput.dfy`): how the wizard reads typed numbers. Every
  leading `"0x"` is stripped, then the rest is read as a hexadecimal `u64`.
  `u64::from_str_radix` belongs to the Rust standard library. It is modelled
  from its documented behaviour: an optional `+`, one or more hex digits,
  and a value that fits. The parser reads back the output of a reference
  hex printer.
- `States` (`states.dfy`, from `states/mod.rs`): the five-state wizard. The
  handlers `InitHandler` and `WaitForInputHandler` change the board in place.
  `SelectAperatureHandler` and `SelectOperationHandler` only build a state.
  `GetNextState` dispatches on the state, pops the last input line and
  empties the input.
- `Snapshot` (`snapshot.dfy`, from `main.rs`): the earlier version. It has no
  error results, its setter ignores a rejected value without telling anyone,
  its decoder is a stub, and it has `hex_to_mib`.
- `DeviceTree` (`dt.dfy`, from `dt/mod.rs`): the filter that turns memory
  children of the device-tree root into `(address, size, label)` nodes. It
  reads `reg` as two big-endian `u64`s.
- `Common` (`common.dfy`): `Option`, `Result`, and `u64`/`u8` as bounded
  integers.

Things the proofs make explicit about the code:

- The start getter fails only when the start is strictly above the total
  (`>`). The setter accepts only a start strictly below it (`<`). So a
  start equal to the total is reported but can never be set.
- The wizard can set the total below an existing start. The start is then
  reported as out of range (`ShrinkingTotalInvalidatesDefaultStart`). The
  code does not keep every hardware start within the installed memory.
- The codec round trip holds for 1 to 0x4000 granules. That is one more
  than 0x3FFF, because 0x4000 granules encode as 0x4000. A start less than
  one granule below the bus address also encodes as 0x4000, so it does not
  come back (`SubGranuleOffsetDoesNotRoundTrip`).
- If the aperture id typed after "select aperture" cannot be parsed, the
  wizard moves on to SelectOperation anyway. If nothing was selected
  before, `select_operation_handler` then unwraps an empty selection
  (`MistypedApertureIdLeavesNoSelection`). In the model this shows up as
  that handler's precondition.

The model follows the code where it is lax. The start getter fails only
on `>`. The wizard writes the typed total without any check. The by-index
getters ignore their `total_system_memory` argument and use the board's
own total.

Bit operations in the codec are written on integers. `x & 0x4000` is
`Bit14`, `x & 0x3FFF` is `Low14`, `x | 0x4000` is `SetBit14`, and `<< 24`
and `>> 24` are a product and a quotient with `GRANULE` (2^24). Unsigned
wrap-around never happens: where the code would underflow or overflow, the
model has a precondition.

## Model

| member | source | states |
|---|---|---|
| `Soc.SegmentOffset` | soc/mod.rs:158-160 | a set bit 14 selects a whole number of 16 MiB granules, between 1 and 0x4000 of them |
| `Soc.SegToHwStartAddr` | soc/mod.rs:147-162 | the decoded start is at or below the bus address, a whole number of granules below it, and equal to it exactly when bit 14 is clear; needs the subtraction not to underflow |
| `Soc.HwStartAddrToSeg` | soc/mod.rs:164-177 | the encoding is zero exactly for the identity mapping, and otherwise has bit 14 set and nothing above bit 14; needs `hw <= bus` and at most 0x4000 granules |
| `Soc.DecodeEncode` | soc/mod.rs:147-177 | decoding an encoded granule-aligned start gives it back (0 to 0x4000 granules below the bus address) |
| `Soc.EncodeDecode` | soc/mod.rs:147-177 | encoding a decoded canonical segment value (0, or 0x4000..0x7FFF) gives it back |
| `Soc.IdentityMapping` | soc/mod.rs:151-171 | `encode(bus, bus) == 0` and `decode(0, bus) == bus` |
| `Soc.RoundTripRoundsToGranule` | soc/mod.rs:158-176 | a start at least one granule (and at most 0x4000 granules) below the bus address comes back at or above itself, moved towards the bus address by less than one granule |
| `Soc.SubGranuleOffsetDoesNotRoundTrip` | soc/mod.rs:173-176 | a start less than one granule below the bus address encodes to 0x4000, which decodes elsewhere |
| `Soc.DecodeIgnoresHighBits` | soc/mod.rs:151-158 | decoding looks only at bits 0 to 14 |
| `Soc.MemoryAperture.constructor` | soc/mod.rs:27-33 | an aperture holds exactly the given field values |
| `Soc.MemoryAperture.GetHwStartAddr` | soc/mod.rs:37-42 | fails exactly when the start is strictly above the total; otherwise returns the stored start, which is within memory |
| `Soc.MemoryAperture.GetHwEndAddr` | soc/mod.rs:44-55 | always succeeds with the smaller of start plus size and the total, never above the total, and not below the start when the start is within memory |
| `Soc.MemoryAperture.SetHwStartAddr` | soc/mod.rs:57-64 | succeeds exactly when the new start is strictly below the total; on success the start is the new value and the start getter then accepts it; on failure nothing changes |
| `Soc.MPFS.constructor` | soc/mod.rs:94-145 | the default board has total 0x8000_0000, no selection, and six fresh distinct apertures with the default fields |
| `Soc.MPFS.GetHwStartAddrById` | soc/mod.rs:81-83 | gives aperture `id`'s start check under the board's own total, whatever total is passed |
| `Soc.MPFS.GetHwEndAddrById` | soc/mod.rs:85-87 | always succeeds with the smaller of aperture `id`'s start plus size and the board's own total, whatever total is passed |
| `Soc.MPFS.SetHwStartAddrById` | soc/mod.rs:89-91 | succeeds exactly when the new start is below the board's total; only aperture `id`'s start can change; the total, the selection and the other apertures are untouched |
| `Soc.DefaultLayout` | soc/mod.rs:94-145 | six default apertures with pairwise distinct register names, each start accepted by the start getter under the default total, each end computable without overflow |
| `Soc.DefaultSeg01IsSegment7002` | soc/mod.rs:100-106 | `seg0_1`'s default start is what segment value 0x7002 selects, and it encodes back to 0x7002 |
| `HexInput.TrimHexPrefixes` | states/mod.rs:68 | the result is no longer than the input and does not start with `"0x"` |
| `HexInput.TrimHexPrefixesRemovesPrefixes` | states/mod.rs:68 | the input is some number of `"0x"` copies followed by the result, so exactly the leading run of `"0x"` is removed and nothing else |
| `HexInput.ParseHexU64` | states/mod.rs:69 | an empty string is refused |
| `HexInput.RejectsOverflow` | states/mod.rs:69-70 | a digit string whose value is 2^64 or more is refused |
| `HexInput.AcceptsLeadingZero` | states/mod.rs:69 | a leading zero before a digit string is accepted and does not change the value |
| `HexInput.AcceptsEitherCase` | states/mod.rs:69 | upper-case and lower-case digits are read alike (`"Ab"` and `"aB"` both give 0xAB) |
| `HexInput.ParseHexU64OfToHex` | states/mod.rs:69 | every `u64` written in hexadecimal is read back as itself |
| `HexInput.AcceptsPrefixedHex` | states/mod.rs:68-69 | a hex number behind any number of `"0x"` prefixes is accepted with its value |
| `HexInput.RejectsBarePrefixes` | states/mod.rs:68-69 | `"0x"` (repeated any number of times) alone is refused, because nothing is left to parse |
| `HexInput.RejectsNonDigit` | states/mod.rs:68-69 | input that does not start with `"0x"` and holds a character that is neither a hex digit nor a leading `+` is refused |
| `States.InitHandler` | states/mod.rs:31-41 | sets the total to 0x8000_0000, changes nothing else, and waits for input with the incoming state as previous |
| `States.SelectAperatureHandler` | states/mod.rs:43-51 | waits for an aperture id, previous set to its own state, without reading or changing the board |
| `States.SelectOperationHandler` | states/mod.rs:139-154 | needs a selection; waits for a start address for the selected aperture, previous set to its own state, without changing the board |
| `States.WaitForInputHandler` | states/mod.rs:53-137 | with no input it keeps waiting and changes nothing. After Init: a parsable total is installed and it moves to SelectAperature; otherwise it stays with an error prompt. After SelectAperature: an unparsable id moves to SelectOperation; an id out of range returns to SelectAperature; a valid id is selected and it moves to SelectOperation. After SelectOperation: an accepted address changes only the selected aperture and moves to SelectAperature; a rejected one changes nothing and waits again with previous SelectOperation. The board invariant is kept |
| `States.Popped` | states/mod.rs:172 | `input.pop()` yields the last line, or nothing for empty input |
| `States.GetNextState` | states/mod.rs:169-176 | runs the current state's handler on the last input line and empties the input; the Exit state yields no next state and changes nothing |
| `States.MistypedApertureIdLeavesNoSelection` | states/mod.rs:87-95 | from the defaults, Enter, `1`, Enter, `g` reaches SelectOperation with no aperture selected |
| `States.ShrinkingTotalInvalidatesDefaultStart` | states/mod.rs:66-85 | after typing total `1`, `seg0_1`'s default start is reported out of range |
| `Snapshot.MemoryAperture.constructor` | main.rs:9-16 | an aperture holds exactly the given field values |
| `Snapshot.MemoryAperture.GetHwStartAddr` | main.rs:20-26 | returns the stored start with no range check |
| `Snapshot.MemoryAperture.GetHwEndAddr` | main.rs:28-39 | the smaller of start plus size and the total, never above the total, and not below the start when the start is within memory |
| `Snapshot.MemoryAperture.UpdateHwStartAddr` | main.rs:41-47 | assigns the start exactly when the new value is below the total, is otherwise a silent no-op, and never changes the segment field |
| `Snapshot.MPFS.constructor` | main.rs:55-111 | the default board has total 0x8000_0000 and six fresh apertures with the default fields |
| `Snapshot.DefaultLayout` | main.rs:55-111 | six apertures, every start and segment register zero, total 0x8000_0000; every start is within memory and every end computable without overflow, so with the end getter's contract `end - start` at main.rs:146 does not wrap |
| `Snapshot.HexToMib` | main.rs:113-116 | the result is the byte count in whole MiB rounded down: `r * 2^20 <= x < (r + 1) * 2^20` |
| `Snapshot.SegToHwStartAddr` | main.rs:130-133 | the stub returns 1 for every input |
| `DeviceTree.BigEndian` | dt/mod.rs:37-38 | the value of `n` bytes read most significant first is below 256^n |
| `DeviceTree.BigEndianOfToBigEndian` | dt/mod.rs:37-38 | reading the big-endian bytes of a value gives the value |
| `DeviceTree.ToBigEndianOfBigEndian` | dt/mod.rs:37-38 | writing a read value back as big-endian bytes gives the bytes |
| `DeviceTree.FromBeBytes` | dt/mod.rs:37-38 | `u64::from_be_bytes` yields the `u64` whose eight big-endian bytes are the input |
| `DeviceTree.NodeOf` | dt/mod.rs:36-43 | a memory child's node is labelled with the child's name, and its `reg` is the big-endian address followed by the big-endian size |
| `DeviceTree.MemoryNodes` | dt/mod.rs:25-46 | the output has at most as many nodes as there are children |
| `DeviceTree.DtGetMemoryNodes` | dt/mod.rs:17-49 | always `Ok`, holding exactly the filter's output |
| `DeviceTree.MemoryNodesOfOne` | dt/mod.rs:27-35 | one child gives its node if its `device_type` is `"memory"` and it has `reg`, and nothing otherwise |
| `DeviceTree.MemoryNodesAppend` | dt/mod.rs:26-46 | the output for `a + b` is the output for `a` followed by that for `b`, so child order is kept |
| `DeviceTree.MemoryNodesExactly` | dt/mod.rs:26-46 | every output node comes from a memory child, and every memory child's node is in the output |

## Left out

- The `Display` and `Error` impls of `SegError`: formatting only. The error is a unit value.
- The `Aperture` and `SoC` traits: calls through them go to the concrete `MemoryAperture` and `MPFS` classes.
- `exit_handler`: it ends the process. `GetNextState` returns no next state for Exit and does not model the exit.
- All prompt and `println!` text. Each prompt is a `Prompt` constructor; printed messages are dropped.
- `main` and `format_segs` in `main.rs`: printing loops.
- The `device_tree` crate: blob parsing, `Node`, `prop_str`, `prop_raw`. A child is a record of its name, its `device_type` (absent when the lookup fails) and its `reg` bytes. The debug `println!` and the unused `size_cells`/`address_cells` locals are dropped.
- `u64` overflow and underflow: where the code would panic in a debug build (`+` in the end getters, `-` in the codec), the model has a precondition instead of wrap-around.
- Rust panics: `unwrap` of an empty selection, an index out of range, and a `reg` other than 16 bytes are preconditions (`SelectionPresentWhenNeeded`, `RegsWellFormed`, `id < |memoryApertures|`).
- `u64::from_str_radix` is standard-library code. It is modelled from its documented contract, not from its source.
- `usize` is an unbounded `nat`. `id as usize` is the identity on a 64-bit target.
- An overlap resolver, a whole-board validity check and configuration persistence: the modelled files contain no code for them.
- The `memory_apertures` list is a `const` in both board classes: nothing reassigns, grows or reorders it. So no handler can change the apertures' number or order.
- `MemoryNode.label` is called `name`, because `label` is a reserved word in Dafny.
- `select_aperature_handler` takes the board but never reads it, so the model drops that parameter.
