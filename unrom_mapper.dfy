/** The UxROM mapper instance: its bank-select register, its fixed mirroring
    mode and its onboard CHR-RAM, together with the console's nametable RAM
    that it reads and writes but does not own. Every operation is specified
    by the address translation of module UnromDecode. */
module UnromMapper {
  import opened NesBus
  import opened UnromDecode
  import opened UnromProperties

  class Mapper {
    /** The loaded image and its geometry (read-only). */
    const cart: Cartridge
    /** Decoded once from the header; never changes afterwards. */
    const mirror: Mirroring
    /** The bank-select register. */
    var banksel: byte
    /** Onboard pattern-table RAM, used when the image has no CHR-ROM. */
    const chrRam: array<byte>
    /** The console's nametable RAM, shared with the video unit. */
    const vram: array<byte>

    ghost predicate Valid()
      reads this
    {
      chrRam.Length == CHR_RAM_SIZE && vram.Length == VRAM_SIZE && chrRam != vram
    }

    /** The PPU-side memories as values. */
    function Memory(): (m: PpuMemory)
      reads this, chrRam, vram
      requires Valid()
      ensures m.Valid()
    {
      PpuMemory(chrRam[..], vram[..])
    }

    /** A fresh instance for an image whose header is `data`: the mode is
        taken from the mirroring bits of header byte 6, the register is 0 and
        CHR-RAM is zero-filled. */
    constructor (data: seq<byte>, codes: MirrorCodes, cart: Cartridge, vram: array<byte>)
      requires |data| > 6
      requires vram.Length == VRAM_SIZE
      ensures Valid() && fresh(chrRam)
      ensures this.cart == cart && this.vram == vram
      ensures mirror == DecodeMirror(data[6], codes)
      ensures banksel == 0
      ensures forall i :: 0 <= i < CHR_RAM_SIZE ==> chrRam[i] == 0
    {
      this.cart := cart;
      this.vram := vram;
      mirror := DecodeMirror(data[6], codes);
      banksel := 0;
      chrRam := new byte[CHR_RAM_SIZE](_ => 0);
    }

    /** The byte the CPU reads at `addr`; reading changes nothing. */
    function CpuRead(addr: u16): Result<byte>
      reads this
    {
      CpuReadFrom(cart, banksel, addr)
    }

    /** A CPU write: anywhere in $8000-$FFFF it loads the register with
        `val`; below $8000 it is discarded. */
    method CpuWrite(addr: u16, val: byte)
      requires Valid()
      modifies this`banksel
      ensures Valid()
      ensures banksel == RegisterAfterWrite(old(banksel), addr, val)
      ensures 0x8000 <= addr ==> banksel == val
      ensures addr < 0x8000 ==> banksel == old(banksel)
    {
      if 0x8000 <= addr {
        banksel := val;
      }
    }

    /** The byte the video unit reads at `addr`; reading changes nothing. */
    function PpuRead(addr: u16): Result<byte>
      reads this, chrRam, vram
      requires Valid()
    {
      PpuReadFrom(cart, mirror, Memory(), addr)
    }

    /** A video-unit write into CHR-RAM or nametable RAM. On an unsupported
        mirroring mode the nametable write stops with a fault and nothing
        changes. */
    method PpuWrite(addr: u16, val: byte) returns (r: Outcome)
      requires Valid()
      modifies chrRam, vram
      ensures Valid()
      ensures match PpuWriteTo(cart, mirror, old(Memory()), addr, val)
        case Ok(m) => r == Pass && Memory() == m
        case Err(f) => r == Fail(f) && Memory() == old(Memory())
    {
      if cart.chrLen == 0 && addr <= 0x1FFF {
        chrRam[addr] := val;
        return Pass;
      }
      if 0x2000 <= addr <= 0x3EFF {
        var nt := MirrorDown(addr);
        var off := NametableOffset(mirror, nt);
        if off.Err? {
          return Fail(off.fault);
        }
        vram[off.value] := val;
        return Pass;
      }
      return Pass;
    }
  }

  /** A client of the mapper: an image of two PRG banks, switched with
      register writes while the fixed bank stays put. */
  method SwitchTwoBanks(data: seq<byte>, codes: MirrorCodes, cart: Cartridge, vram: array<byte>)
      returns (bank0: Result<byte>, bank1: Result<byte>, fixed0: Result<byte>, fixed1: Result<byte>)
    requires |data| > 6 && vram.Length == VRAM_SIZE
    requires WellFormed(cart) && cart.prgLen == 2 * PRG_BANK_SIZE
    ensures bank0 == Ok(cart.rom[cart.prgStart])
    ensures bank1 == Ok(cart.rom[cart.prgStart + PRG_BANK_SIZE])
    ensures fixed0 == fixed1 == bank1
  {
    var mapper := new Mapper(data, codes, cart, vram);
    mapper.CpuWrite(0x8000, 0);
    bank0 := mapper.CpuRead(0x8000);
    fixed0 := mapper.CpuRead(0xC000);
    mapper.CpuWrite(0x8000, 1);
    bank1 := mapper.CpuRead(0x8000);
    fixed1 := mapper.CpuRead(0xC000);
  }

  /** A client of the mapper: a write to $2000 is read back at $2400 under
      horizontal mirroring, at $2800 under vertical mirroring, and at $3000
      under both. */
  method MirroredNametableWrite(data: seq<byte>, codes: MirrorCodes, cart: Cartridge, vram: array<byte>, val: byte)
      returns (other: u16, alias: Result<byte>, upper: Result<byte>)
    requires |data| > 6 && vram.Length == VRAM_SIZE
    requires !DecodeMirror(data[6], codes).Unsupported?
    modifies vram
    ensures other == if DecodeMirror(data[6], codes).Horizontal? then 0x2400 else 0x2800
    ensures alias == Ok(val) && upper == Ok(val)
  {
    var mapper := new Mapper(data, codes, cart, vram);
    var mem := mapper.Memory();
    var r := mapper.PpuWrite(0x2000, val);
    other := if mapper.mirror.Horizontal? then 0x2400 else 0x2800;
    NametableWriteThenRead(cart, mapper.mirror, mem, 0x2000, val, other);
    NametableWriteThenRead(cart, mapper.mirror, mem, 0x2000, val, 0x3000);
    if mapper.mirror.Horizontal? { HorizontalPairs(0); } else { VerticalPairs(0); }
    alias := mapper.PpuRead(other);
    upper := mapper.PpuRead(0x3000);
  }
}
