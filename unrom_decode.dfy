/** Address translation of the UxROM (iNES mapper 2) cartridge, as pure
    functions of the cartridge geometry, the mapper's register and a
    snapshot of the PPU-side memories. The stateful mapper in module
    UnromMapper is specified by these functions. */
module UnromDecode {
  import opened NesBus

  /** Size of the onboard CHR-RAM used when the image has no CHR-ROM. */
  const CHR_RAM_SIZE := 0x2000
  /** Size of the console's nametable RAM, shared with the video unit. */
  const VRAM_SIZE := 0x800
  /** One switchable (or fixed) PRG-ROM bank. */
  const PRG_BANK_SIZE := 0x4000

  /** The loaded cartridge image and where its PRG and CHR parts lie in it;
      owned by the console and never written by the mapper. */
  datatype Cartridge = Cartridge(rom: seq<byte>, prgStart: nat, prgLen: nat, chrStart: nat, chrLen: nat)

  /** The geometry a correctly loaded image has: whole 16 KiB PRG banks,
      whole 8 KiB CHR banks (or none), both inside the image. The mapper itself
      never checks this; lemmas use it to show which reads cannot fault. */
  predicate WellFormed(cart: Cartridge)
  {
    && cart.prgLen > 0 && cart.prgLen % PRG_BANK_SIZE == 0
    && cart.prgStart + cart.prgLen <= |cart.rom|
    && cart.chrLen % CHR_RAM_SIZE == 0
    && cart.chrStart + cart.chrLen <= |cart.rom|
  }

  /** The mirroring mode held by the mapper. A header code that is neither
      the horizontal nor the vertical code is kept as it is, and only faults
      once a nametable is accessed. */
  datatype Mirroring = Horizontal | Vertical | Unsupported(code: byte)

  /** The header mask and the two mode codes, which the emulator defines
      outside this component. */
  datatype MirrorCodes = MirrorCodes(mask: byte, h: byte, v: byte)

  /** The mode selected by byte 6 of the iNES header, `flags6 & mask`. */
  function DecodeMirror(flags6: byte, codes: MirrorCodes): Mirroring
  {
    var code := BitAnd(flags6, codes.mask);
    if code == codes.h then Horizontal
    else if code == codes.v then Vertical
    else Unsupported(code)
  }

  /** The image byte at index `i`, or a fault where the C code would read
      past the buffer. */
  function ImageByte(rom: seq<byte>, i: int): Result<byte>
  {
    if 0 <= i < |rom| then Ok(rom[i]) else Err(OutOfImage(i))
  }

  /** The byte the CPU sees at `addr`: the bank chosen by `banksel` in
      $8000-$BFFF, the last bank in $C000-$FFFF, and 0 elsewhere. */
  function CpuReadFrom(cart: Cartridge, banksel: byte, addr: u16): Result<byte>
  {
    if 0x8000 <= addr <= 0xBFFF then
      ImageByte(cart.rom, cart.prgStart + (addr - 0x8000) + banksel * PRG_BANK_SIZE)
    else if 0xC000 <= addr then
      ImageByte(cart.rom, cart.prgStart + (addr - 0xC000) + (cart.prgLen - PRG_BANK_SIZE))
    else
      Ok(0)
  }

  /** The bank-select register after the CPU writes `val` at `addr`. */
  function RegisterAfterWrite(banksel: byte, addr: u16, val: byte): byte
  {
    if 0x8000 <= addr then val else banksel
  }

  /** A snapshot of the two PPU-side memories the mapper can write. */
  datatype PpuMemory = PpuMemory(chrRam: seq<byte>, vram: seq<byte>)
  {
    predicate Valid()
    {
      |chrRam| == CHR_RAM_SIZE && |vram| == VRAM_SIZE
    }
  }

  /** $3000-$3EFF repeats $2000-$2EFF. */
  function MirrorDown(addr: u16): (r: u16)
    requires 0x2000 <= addr <= 0x3EFF
    ensures 0x2000 <= r <= 0x2FFF && r % 0x400 == addr % 0x400
    ensures addr < 0x3000 ==> r == addr
  {
    if addr >= 0x3000 then addr - 0x1000 else addr
  }

  /** Where in nametable RAM a (mirrored-down) nametable address lands. */
  function NametableOffset(mode: Mirroring, addr: u16): (r: Result<nat>)
    requires 0x2000 <= addr <= 0x2FFF
    ensures r.Ok? ==> r.value < VRAM_SIZE
    ensures r.Err? <==> mode.Unsupported?
  {
    match mode
    case Horizontal => Ok(BitAnd(addr, 0x3FF) + (if addr < 0x2800 then 0 else 0x400))
    case Vertical => Ok(BitAnd(addr, 0x7FF))
    case Unsupported(code) => Err(UnsupportedMirror(code))
  }

  /** The byte the video unit sees at `addr`. */
  function PpuReadFrom(cart: Cartridge, mode: Mirroring, mem: PpuMemory, addr: u16): Result<byte>
    requires mem.Valid()
  {
    if addr <= 0x1FFF then
      if cart.chrLen != 0 then ImageByte(cart.rom, cart.chrStart + addr)
      else Ok(mem.chrRam[addr])
    else if addr <= 0x3EFF then
      match NametableOffset(mode, MirrorDown(addr))
      case Ok(off) => Ok(mem.vram[off])
      case Err(f) => Err(f)
    else
      Ok(0)
  }

  /** The memories after the video unit writes `val` at `addr`. A write to
      pattern-table space with CHR-ROM present, like one above $3EFF, is
      discarded. */
  function PpuWriteTo(cart: Cartridge, mode: Mirroring, mem: PpuMemory, addr: u16, val: byte): (r: Result<PpuMemory>)
    requires mem.Valid()
    ensures r.Ok? ==> r.value.Valid()
  {
    if cart.chrLen == 0 && addr <= 0x1FFF then
      Ok(mem.(chrRam := mem.chrRam[addr := val]))
    else if 0x2000 <= addr <= 0x3EFF then
      match NametableOffset(mode, MirrorDown(addr))
      case Ok(off) => Ok(mem.(vram := mem.vram[off := val]))
      case Err(f) => Err(f)
    else
      Ok(mem)
  }

  /** Which of the four logical nametables, at $2000, $2400, $2800 and
      $2C00, an address of $2000-$3EFF selects. */
  function LogicalTable(addr: u16): (n: nat)
    requires 0x2000 <= addr <= 0x3EFF
    ensures n < 4
  {
    ((addr - 0x2000) / 0x400) % 4
  }

  /** Which of the two physical 1 KiB tables a logical table is wired to:
      horizontal mirroring pairs the first two and the last two, vertical
      mirroring pairs the first and third, and the second and fourth. */
  function PhysicalTable(mode: Mirroring, n: nat): (t: nat)
    requires !mode.Unsupported? && n < 4
    ensures t < 2
  {
    if mode.Horizontal? then n / 2 else n % 2
  }

  /** Two nametable addresses name the same byte of the same physical table. */
  predicate Aliases(mode: Mirroring, a: u16, b: u16)
    requires !mode.Unsupported?
    requires 0x2000 <= a <= 0x3EFF && 0x2000 <= b <= 0x3EFF
  {
    PhysicalTable(mode, LogicalTable(a)) == PhysicalTable(mode, LogicalTable(b))
      && a % 0x400 == b % 0x400
  }
}
