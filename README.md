# UxROM cartridge mapper (iNES mapper 2)

A Dafny model of the UxROM ("UNROM") mapper of the cnes NES emulator. The
mapper turns addresses on the CPU bus and on the video unit's (PPU) bus into
bytes of the cartridge image, of its own 8 KiB CHR-RAM, or of the console's
2 KiB nametable RAM. It keeps a bank-select register that CPU writes load and
a mirroring mode read once from the iNES header.

Layout:

- `nes_bus.dfy`, module `NesBus`: the `byte` and `u16` types, the C `&` as a
  recursive integer function `BitAnd` with the proof that masking with
  `2^k - 1` is the remainder modulo `2^k`, and the `Fault`, `Result` and
  `Outcome` types.
- `unrom_decode.dfy`, module `UnromDecode`: the address translation as pure
  functions of the cartridge geometry (`Cartridge`), the register, the
  mirroring mode and a snapshot of the two PPU-side memories (`PpuMemory`).
  `CpuReadFrom`, `RegisterAfterWrite`, `PpuReadFrom` and `PpuWriteTo` follow
  `unrom_cpuread`, `unrom_cpuwrite`, `unrom_ppuread` and `unrom_ppuwrite`
  branch for branch. `NametableOffset` is the one mirroring computation that
  both the read and the write use. `LogicalTable`, `PhysicalTable` and
  `Aliases` give an independent description of the nametable wiring, against
  which the bit masks are proved.
- `unrom_properties.dfy`, module `UnromProperties`: the lemmas.
- `unrom_mapper.dfy`, module `UnromMapper`: the mapper instance as a class.
  It has the register as a field, the mode as a constant, CHR-RAM as an array
  it allocates zero-filled, and the shared nametable RAM as an array it is
  given. `CpuRead` and `PpuRead` are functions of the current state.
  `CpuWrite` and `PpuWrite` are methods whose postconditions give the new state
  through `RegisterAfterWrite` and `PpuWriteTo`. `SwitchTwoBanks` is a client
  that switches between the two banks of a 32 KiB image.

Where the C code would index outside the cartridge image, the model returns
`Err(OutOfImage(i))` rather than reading past the buffer. It faults exactly
when the computed index `i` lies outside `0 .. |rom| - 1`, and otherwise
returns `rom[i]`, as the C does. An index can lie inside the buffer and still
outside the intended part of it. A register value selecting a bank past PRG-ROM
reads the bytes that follow PRG-ROM, which is CHR-ROM in an iNES image
(`BankPastPrgReadsChr`). A PRG length under 16 KiB moves the fixed window
onto bytes before PRG-ROM (`ShortPrgFixedWindow`). The model returns those
bytes, as the C does. The C `assert` on a
mirroring code that is neither mode becomes `Err(UnsupportedMirror(code))`.
As in the source, this fault is raised at the first nametable read or write,
not at initialisation: CPU accesses and pattern-table accesses of such a
cartridge still work.

The register is declared `uint32_t` in the source but is only ever loaded from
an 8-bit written value and zero-initialised. It is modelled as a `byte`, so
`banksel * 0x4000` stays below 2^22 and no 32-bit wrap-around can occur. The
other address arithmetic is on unbounded integers, and every index is
bounds-checked.

The code validates neither the geometry nor the mirroring mode at
initialisation. The geometry an iNES loader is meant to produce (a PRG length
that is a positive multiple of 16 KiB, CHR inside the image) is stated as
`WellFormed`. The model uses it only as a hypothesis of the lemmas that show
reads cannot fault. A mirroring code that is neither mode faults at the first
nametable access, as described above.

## Model

| member | source | states |
|---|---|---|
| `NesBus.BitAnd` | TestNes/MMC/mapper_unrom.c:146 | the C `&` of two non-negative integers is no larger than either operand, so a masked byte is a byte |
| `NesBus.LowBitsMask` | TestNes/MMC/mapper_unrom.c:85-88 | masking with `2^k - 1` keeps the low `k` bits, the remainder modulo `2^k` (by induction on `k`) |
| `NesBus.NametableMasks` | TestNes/MMC/mapper_unrom.c:85-88 | `addr & 0x3FF` is `addr % 0x400` and `addr & 0x7FF` is `addr % 0x800` |
| `UnromDecode.MirrorDown` | TestNes/MMC/mapper_unrom.c:79-80 | $3000-$3EFF folds onto $2000-$2EFF; the result lies in $2000-$2FFF and keeps the position within its 1 KiB table |
| `UnromDecode.NametableOffset` | TestNes/MMC/mapper_unrom.c:83-92 | the nametable offset is below 0x800 under both modes, and the access faults exactly when the mode is unsupported |
| `UnromDecode.PpuWriteTo` | TestNes/MMC/mapper_unrom.c:109-134 | a PPU write that succeeds leaves CHR-RAM at 8 KiB and nametable RAM at 2 KiB, so every later index is in bounds |
| `UnromDecode.DecodeMirror` | TestNes/MMC/mapper_unrom.c:146 | the mode is chosen by `data[6] & ROM_MIRROR_MASK` alone; a code that is neither mode is kept as `Unsupported(code)` (definition; specified through the constructor) |
| `UnromDecode.CpuReadFrom` | TestNes/MMC/mapper_unrom.c:19-40 | the CPU read of `unrom_cpuread` as a function of geometry, register and address (definition; its properties are the CPU lemmas below) |
| `UnromDecode.RegisterAfterWrite` | TestNes/MMC/mapper_unrom.c:51-57 | the register after `unrom_cpuwrite` (definition; its properties are `RegisterWriteIgnoresAddress` and `CpuUnmapped`) |
| `UnromDecode.PpuReadFrom` | TestNes/MMC/mapper_unrom.c:60-98 | the PPU read of `unrom_ppuread` (definition; its properties are the pattern-table and nametable lemmas below) |
| `UnromMapper.Mapper.CpuRead` | TestNes/MMC/mapper_unrom.c:19-40 | the CPU read of the current instance, reading but never changing its state |
| `UnromMapper.Mapper.PpuRead` | TestNes/MMC/mapper_unrom.c:60-98 | the PPU read of the current instance, reading but never changing its state, CHR-RAM or nametable RAM |
| `UnromProperties.FixedLastBank` | TestNes/MMC/mapper_unrom.c:33-35 | $C000-$FFFF reads `rom[prg_start + (addr - 0xC000) + (prg_len - 0x4000)]`, or faults outside the image, whatever the register holds |
| `UnromProperties.FixedBankInLastBank` | TestNes/MMC/mapper_unrom.c:33-35 | for a well-formed image the fixed window never faults and reads from the last 16 KiB of PRG-ROM |
| `UnromProperties.SwitchableBank` | TestNes/MMC/mapper_unrom.c:28-30 | $8000-$BFFF reads `rom[prg_start + (addr - 0x8000) + banksel * 0x4000]` with the register unclamped, or faults outside the image |
| `UnromProperties.SwitchableWindowInBounds` | TestNes/MMC/mapper_unrom.c:28-30 | the whole switchable window reads without fault if and only if `prg_start + 0x3FFF + banksel * 0x4000` lies inside the image |
| `UnromProperties.ValidBankInPrg` | TestNes/MMC/mapper_unrom.c:28-30 | a bank with `(banksel + 1) * 0x4000 <= prg_len` of a well-formed image reads from inside PRG-ROM and never faults |
| `UnromProperties.BankPastPrgReadsChr` | TestNes/MMC/mapper_unrom.c:28-30 | with CHR-ROM right after PRG-ROM, a register value selecting a bank past PRG-ROM reads the CHR-ROM byte at that index without fault, since the register is not clamped |
| `UnromProperties.ShortPrgFixedWindow` | TestNes/MMC/mapper_unrom.c:33-35 | with a PRG length under 16 KiB, the fixed window stays below the end of PRG-ROM, and its first `0x4000 - prg_len` addresses read before `prg_start` (or fault when the index is negative) |
| `UnromProperties.RegisterWriteIgnoresAddress` | TestNes/MMC/mapper_unrom.c:51-54 | a CPU write anywhere in $8000-$FFFF loads the register with the value; the address used and the previous register value do not affect later reads |
| `UnromProperties.CpuUnmapped` | TestNes/MMC/mapper_unrom.c:38-39 | below $8000 a CPU read gives 0 and a CPU write leaves the register as it was |
| `UnromProperties.ChrRamRoundTrip` | TestNes/MMC/mapper_unrom.c:70-74 | with no CHR-ROM, a pattern-table write is read back at its address, leaves the other pattern-table bytes alone and does not touch nametable RAM |
| `UnromProperties.ChrRomReadOnly` | TestNes/MMC/mapper_unrom.c:71-72 | with CHR-ROM, a pattern-table write changes nothing and a read gives `rom[chr_start + addr]`, or faults outside the image |
| `UnromProperties.ChrRomInBounds` | TestNes/MMC/mapper_unrom.c:70-72 | with CHR-ROM in a well-formed image, pattern-table reads never fault and stay inside CHR-ROM |
| `UnromProperties.HorizontalLayout` | TestNes/MMC/mapper_unrom.c:84-86 | under horizontal mirroring, logical tables 0 and 1 land at offset 0 and tables 2 and 3 at 0x400, each keeping its position within the 1 KiB table |
| `UnromProperties.VerticalLayout` | TestNes/MMC/mapper_unrom.c:87-89 | under vertical mirroring, logical tables 0 and 2 land at offset 0 and tables 1 and 3 at 0x400, each keeping its position within the 1 KiB table |
| `UnromProperties.NametableLayout` | TestNes/MMC/mapper_unrom.c:83-89 | the mask formulas put each address at its physical table's base (0 or 0x400) plus its position within the 1 KiB table |
| `UnromProperties.NametableAliasing` | TestNes/MMC/mapper_unrom.c:83-89 | two nametable addresses reach the same byte of nametable RAM if and only if they alias under the mode |
| `UnromProperties.HorizontalPairs` | TestNes/MMC/mapper_unrom.c:84-86 | under horizontal mirroring $2000/$2400 alias, $2800/$2C00 alias, and $2000/$2800 do not |
| `UnromProperties.VerticalPairs` | TestNes/MMC/mapper_unrom.c:87-89 | under vertical mirroring $2000/$2800 alias, $2400/$2C00 alias, and $2000/$2400 do not |
| `UnromProperties.NametableCovers` | TestNes/MMC/mapper_unrom.c:83-89 | every byte of the 2 KiB nametable RAM is reachable from $2000-$2FFF under either mode |
| `UnromProperties.NametableWriteThenRead` | TestNes/MMC/mapper_unrom.c:114-130 | a nametable write is read back at every alias of its address, leaves every non-aliasing nametable address as it was, and does not touch CHR-RAM |
| `UnromProperties.NametableMirrorDown` | TestNes/MMC/mapper_unrom.c:79-80 | PPU reads and writes at $3000-$3EFF behave exactly as at the address $1000 lower |
| `UnromProperties.UnsupportedMirrorFaults` | TestNes/MMC/mapper_unrom.c:90-91 | with a mode code that is neither mirroring mode, every nametable read and write faults |
| `UnromProperties.PpuUnmapped` | TestNes/MMC/mapper_unrom.c:96-97 | at $3F00 and above a PPU read gives 0 and a PPU write changes nothing |
| `UnromMapper.Mapper.constructor` | TestNes/MMC/mapper_unrom.c:137-155 | a new instance takes its mode from `data[6]` masked by the header mask, starts with register 0 and all-zero CHR-RAM, and uses the nametable RAM it is given |
| `UnromMapper.Mapper.CpuWrite` | TestNes/MMC/mapper_unrom.c:42-58 | the register becomes the written value for any address in $8000-$FFFF and is unchanged below; nothing else is modified |
| `UnromMapper.Mapper.PpuWrite` | TestNes/MMC/mapper_unrom.c:100-135 | CHR-RAM and nametable RAM become what `PpuWriteTo` gives; on an unsupported mode the write fails and changes nothing |
| `UnromMapper.SwitchTwoBanks` | TestNes/MMC/mapper_unrom.c:28-35 | on a 32 KiB image, writing 0 then 1 to $8000 shows `rom[prg_start]` then `rom[prg_start + 0x4000]` at $8000, while $C000 shows the second bank both times |
| `UnromMapper.MirroredNametableWrite` | TestNes/MMC/mapper_unrom.c:114-130 | on a mapper object, a PPU write to $2000 reads back at $2400 under horizontal mirroring and at $2800 under vertical mirroring, with $3000 showing it too |

## Left out

- Diagnostics: the `printf` on unmapped addresses and the `UNROM_DEBUG` tracing are output only, so they are not modelled. Unmapped accesses return their data-path result (0, or no change).
- Allocation failure: the `ENOMEM` result of a failed `calloc` is not modelled, and the constructor always succeeds. Allocation is not something the model can observe.
- Dispatch glue: the function-pointer wiring into the mapper context and the `MAPPER_DECL` registration. `mapper.h` is not part of this model.
- The values of `ROM_MIRROR_H`, `ROM_MIRROR_V` and `ROM_MIRROR_MASK`. `cnes.h` is not part of this model, so they are passed to the constructor as `MirrorCodes`. The mode is kept as the `Mirroring` enum, with an `Unsupported(code)` case.
- UnromMapper.Mapper.constructor: it requires the header to have at least 7 bytes, because the source indexes `data[6]` without checking `datalen`. It also requires the given nametable RAM to be 2 KiB.
- The C `assert` and the uninitialised offset that would follow it are replaced by the `UnsupportedMirror` fault. Undefined behaviour is not modelled.
- Reads past the cartridge image, which are undefined in C, are modelled as the `OutOfImage` fault.
- The integer types of `prg_start`, `prg_len`, `chr_start` and `chr_len` come from `cnes.h`, which is not part of this model. They are unbounded here. When `prg_start + (addr - 0xC000) + prg_len < 0x4000`, the fixed-bank index is negative in the model, where C might wrap it to a large unsigned value. Both are outside the image, and the model faults. Any non-negative index is the same in both, and the model reads that byte.
- Ownership and lifetime of the nametable RAM, and the CPU and PPU that call the mapper. These are owned by the rest of the emulator. The model assumes that the nametable RAM is a different buffer from the mapper's CHR-RAM.
