/** What the UxROM address translation guarantees: the fixed last bank,
    the register semantics, the CHR-RAM and CHR-ROM behaviour, and the
    nametable mirroring layout under both modes. */
module UnromProperties {
  import opened NesBus
  import opened UnromDecode

  // ---------------------------------------------------------------- CPU side

  /** $C000-$FFFF always shows the last 16 KiB of PRG-ROM, whatever the
      register holds. */
  lemma FixedLastBank(cart: Cartridge, banksel: byte, addr: u16)
    requires 0xC000 <= addr
    ensures var i := cart.prgStart + (addr - 0xC000) + (cart.prgLen - PRG_BANK_SIZE);
      CpuReadFrom(cart, banksel, addr) == (if 0 <= i < |cart.rom| then Ok(cart.rom[i]) else Err(OutOfImage(i)))
    ensures CpuReadFrom(cart, banksel, addr) == CpuReadFrom(cart, 0, addr)
  {
  }

  /** With a well-formed image the fixed window never faults and lies in
      the last bank of PRG-ROM. */
  lemma FixedBankInLastBank(cart: Cartridge, banksel: byte, addr: u16)
    requires WellFormed(cart) && 0xC000 <= addr
    ensures var i := cart.prgStart + (addr - 0xC000) + (cart.prgLen - PRG_BANK_SIZE);
      && cart.prgStart + cart.prgLen - PRG_BANK_SIZE <= i < cart.prgStart + cart.prgLen
      && CpuReadFrom(cart, banksel, addr) == Ok(cart.rom[i])
  {
  }

  /** $8000-$BFFF shows bank `banksel` of the image, unclamped. */
  lemma SwitchableBank(cart: Cartridge, banksel: byte, addr: u16)
    requires 0x8000 <= addr <= 0xBFFF
    ensures var i := cart.prgStart + (addr - 0x8000) + banksel * PRG_BANK_SIZE;
      CpuReadFrom(cart, banksel, addr) == (if i < |cart.rom| then Ok(cart.rom[i]) else Err(OutOfImage(i)))
  {
  }

  /** The whole switchable window reads without fault exactly when the last
      byte of the selected bank lies inside the image. */
  lemma SwitchableWindowInBounds(cart: Cartridge, banksel: byte)
    ensures (forall addr: u16 | 0x8000 <= addr <= 0xBFFF :: CpuReadFrom(cart, banksel, addr).Ok?)
        <==> cart.prgStart + 0x3FFF + banksel * PRG_BANK_SIZE < |cart.rom|
  {
    if forall addr: u16 | 0x8000 <= addr <= 0xBFFF :: CpuReadFrom(cart, banksel, addr).Ok? {
      assert CpuReadFrom(cart, banksel, 0xBFFF).Ok?;
    }
  }

  /** Selecting a bank that the image's PRG-ROM really has reads from that
      bank of PRG-ROM and never faults. */
  lemma ValidBankInPrg(cart: Cartridge, banksel: byte, addr: u16)
    requires WellFormed(cart) && (banksel + 1) * PRG_BANK_SIZE <= cart.prgLen
    requires 0x8000 <= addr <= 0xBFFF
    ensures var i := cart.prgStart + (addr - 0x8000) + banksel * PRG_BANK_SIZE;
      && cart.prgStart <= i < cart.prgStart + cart.prgLen
      && CpuReadFrom(cart, banksel, addr) == Ok(cart.rom[i])
  {
  }

  /** The register is not clamped: in an image whose CHR-ROM follows its
      PRG-ROM, a bank number past PRG-ROM reads CHR-ROM bytes without fault. */
  lemma BankPastPrgReadsChr(cart: Cartridge, banksel: byte, addr: u16)
    requires WellFormed(cart) && cart.chrStart == cart.prgStart + cart.prgLen
    requires cart.prgLen <= banksel * PRG_BANK_SIZE && 0x8000 <= addr <= 0xBFFF
    requires cart.prgStart + (addr - 0x8000) + banksel * PRG_BANK_SIZE < cart.chrStart + cart.chrLen
    ensures var i := cart.prgStart + (addr - 0x8000) + banksel * PRG_BANK_SIZE;
      && cart.chrStart <= i
      && CpuReadFrom(cart, banksel, addr) == Ok(cart.rom[i])
  {
  }

  /** A PRG length under 16 KiB moves the fixed window down: it still ends
      before the end of PRG-ROM, but its first `0x4000 - prgLen` addresses
      read bytes before `prgStart`, or fault once the index is negative. */
  lemma ShortPrgFixedWindow(cart: Cartridge, banksel: byte, addr: u16)
    requires cart.prgLen < PRG_BANK_SIZE && 0xC000 <= addr
    ensures var i := cart.prgStart + (addr - 0xC000) + (cart.prgLen - PRG_BANK_SIZE);
      && i < cart.prgStart + cart.prgLen
      && (addr - 0xC000 < PRG_BANK_SIZE - cart.prgLen ==> i < cart.prgStart)
      && (0 <= i < |cart.rom| ==> CpuReadFrom(cart, banksel, addr) == Ok(cart.rom[i]))
      && (i < 0 ==> CpuReadFrom(cart, banksel, addr) == Err(OutOfImage(i)))
  {
  }

  /** A write anywhere in $8000-$FFFF selects the bank given by the value;
      neither the address used nor the previous bank matters. */
  lemma RegisterWriteIgnoresAddress(cart: Cartridge, b1: byte, b2: byte, a1: u16, a2: u16, val: byte, addr: u16)
    requires 0x8000 <= a1 && 0x8000 <= a2
    ensures RegisterAfterWrite(b1, a1, val) == val
    ensures CpuReadFrom(cart, RegisterAfterWrite(b1, a1, val), addr)
         == CpuReadFrom(cart, RegisterAfterWrite(b2, a2, val), addr)
  {
  }

  /** Below $8000 nothing is mapped: reads give 0 and writes keep the register. */
  lemma CpuUnmapped(cart: Cartridge, banksel: byte, addr: u16, val: byte)
    requires addr < 0x8000
    ensures CpuReadFrom(cart, banksel, addr) == Ok(0)
    ensures RegisterAfterWrite(banksel, addr, val) == banksel
  {
  }

  // ------------------------------------------------------ pattern tables

  /** Without CHR-ROM, a pattern-table write is read back at the same
      address, leaves every other pattern-table byte as it was and does not
      touch nametable RAM. */
  lemma ChrRamRoundTrip(cart: Cartridge, mode: Mirroring, mem: PpuMemory, a: u16, val: byte, b: u16)
    requires mem.Valid() && cart.chrLen == 0
    requires a <= 0x1FFF && b <= 0x1FFF
    ensures PpuWriteTo(cart, mode, mem, a, val).Ok?
    ensures var m := PpuWriteTo(cart, mode, mem, a, val).value;
      && m.vram == mem.vram
      && PpuReadFrom(cart, mode, m, b) == (if b == a then Ok(val) else PpuReadFrom(cart, mode, mem, b))
  {
  }

  /** With CHR-ROM, pattern-table writes are discarded and reads come from
      the CHR part of the image. */
  lemma ChrRomReadOnly(cart: Cartridge, mode: Mirroring, mem: PpuMemory, a: u16, val: byte)
    requires mem.Valid() && cart.chrLen > 0 && a <= 0x1FFF
    ensures PpuWriteTo(cart, mode, mem, a, val) == Ok(mem)
    ensures var i := cart.chrStart + a;
      PpuReadFrom(cart, mode, mem, a) == (if i < |cart.rom| then Ok(cart.rom[i]) else Err(OutOfImage(i)))
  {
  }

  /** With a well-formed image, CHR-ROM reads never fault and stay inside
      the CHR part of the image. */
  lemma ChrRomInBounds(cart: Cartridge, mode: Mirroring, mem: PpuMemory, a: u16)
    requires mem.Valid() && WellFormed(cart) && cart.chrLen > 0 && a <= 0x1FFF
    ensures cart.chrStart <= cart.chrStart + a < cart.chrStart + cart.chrLen
    ensures PpuReadFrom(cart, mode, mem, a) == Ok(cart.rom[cart.chrStart + a])
  {
  }

  // ---------------------------------------------------------- nametables

  /** A nametable address, mirrored down, is the base of its logical table
      plus its position within that table. */
  lemma LogicalTableSplit(addr: u16)
    requires 0x2000 <= addr <= 0x3EFF
    ensures MirrorDown(addr) == 0x2000 + 0x400 * LogicalTable(addr) + addr % 0x400
  {
    var a := MirrorDown(addr);
    var n, s := (a - 0x2000) / 0x400, (a - 0x2000) % 0x400;
    DivModUnique(a - 0x2000, 0x400, n, s);
    DivModUnique(a, 0x400, 8 + n, s);
    if addr >= 0x3000 {
      DivModUnique(addr - 0x2000, 0x400, n + 4, s);
    }
  }

  /** Horizontal mirroring: the mask keeps the position, the comparison
      with $2800 picks the table. */
  lemma HorizontalLayout(a: u16, n: nat, s: nat)
    requires n < 4 && s < 0x400 && a == 0x2000 + 0x400 * n + s
    ensures NametableOffset(Horizontal, a) == Ok((n / 2) * 0x400 + s)
  {
    NametableMasks(a);
    DivModUnique(a, 0x400, 8 + n, s);
    assert a < 0x2800 <==> n < 2;
  }

  /** Vertical mirroring: the mask keeps the position and bit 10. */
  lemma VerticalLayout(a: u16, n: nat, s: nat)
    requires n < 4 && s < 0x400 && a == 0x2000 + 0x400 * n + s
    ensures NametableOffset(Vertical, a) == Ok((n % 2) * 0x400 + s)
  {
    NametableMasks(a);
    DivModUnique(a, 0x800, 4 + n / 2, 0x400 * (n % 2) + s);
  }

  /** The bit masks of the source compute the physical nametable layout:
      the offset is the physical table's base plus the address's position
      inside its 1 KiB table. */
  lemma NametableLayout(mode: Mirroring, addr: u16)
    requires !mode.Unsupported? && 0x2000 <= addr <= 0x3EFF
    ensures NametableOffset(mode, MirrorDown(addr))
         == Ok(PhysicalTable(mode, LogicalTable(addr)) * 0x400 + addr % 0x400)
  {
    LogicalTableSplit(addr);
    if mode.Horizontal? {
      HorizontalLayout(MirrorDown(addr), LogicalTable(addr), addr % 0x400);
    } else {
      VerticalLayout(MirrorDown(addr), LogicalTable(addr), addr % 0x400);
    }
  }

  /** Two nametable addresses reach the same byte of nametable RAM exactly
      when they alias under the mirroring mode. */
  lemma NametableAliasing(mode: Mirroring, a: u16, b: u16)
    requires !mode.Unsupported?
    requires 0x2000 <= a <= 0x3EFF && 0x2000 <= b <= 0x3EFF
    ensures NametableOffset(mode, MirrorDown(a)) == NametableOffset(mode, MirrorDown(b))
        <==> Aliases(mode, a, b)
  {
    NametableLayout(mode, a);
    NametableLayout(mode, b);
  }

  /** Under horizontal mirroring $2000/$2400 share one table and
      $2800/$2C00 the other. */
  lemma HorizontalPairs(k: nat)
    requires k < 0x400
    ensures Aliases(Horizontal, 0x2000 + k, 0x2400 + k)
    ensures Aliases(Horizontal, 0x2800 + k, 0x2C00 + k)
    ensures !Aliases(Horizontal, 0x2000 + k, 0x2800 + k)
  {
  }

  /** Under vertical mirroring $2000/$2800 share one table and
      $2400/$2C00 the other. */
  lemma VerticalPairs(k: nat)
    requires k < 0x400
    ensures Aliases(Vertical, 0x2000 + k, 0x2800 + k)
    ensures Aliases(Vertical, 0x2400 + k, 0x2C00 + k)
    ensures !Aliases(Vertical, 0x2000 + k, 0x2400 + k)
  {
  }

  /** Every byte of nametable RAM is reachable from $2000-$2FFF under
      either mode. */
  lemma NametableCovers(mode: Mirroring, off: nat)
    requires !mode.Unsupported? && off < VRAM_SIZE
    ensures exists addr: u16 | 0x2000 <= addr <= 0x2FFF :: NametableOffset(mode, addr) == Ok(off)
  {
    var t, s := off / 0x400, off % 0x400;
    var n := if mode.Horizontal? then 2 * t else t;
    var addr: u16 := 0x2000 + 0x400 * n + s;
    DivModUnique(addr - 0x2000, 0x400, n, s);
    DivModUnique(addr, 0x400, 8 + n, s);
    NametableLayout(mode, addr);
    assert NametableOffset(mode, addr) == Ok(off);
  }

  /** A nametable write is read back at every alias of its address and at
      no other nametable address; CHR-RAM is untouched. */
  lemma NametableWriteThenRead(cart: Cartridge, mode: Mirroring, mem: PpuMemory, a: u16, val: byte, b: u16)
    requires mem.Valid() && !mode.Unsupported?
    requires 0x2000 <= a <= 0x3EFF && 0x2000 <= b <= 0x3EFF
    ensures PpuWriteTo(cart, mode, mem, a, val).Ok?
    ensures var m := PpuWriteTo(cart, mode, mem, a, val).value;
      && m.chrRam == mem.chrRam
      && PpuReadFrom(cart, mode, m, b) == (if Aliases(mode, a, b) then Ok(val) else PpuReadFrom(cart, mode, mem, b))
  {
    NametableAliasing(mode, a, b);
  }

  /** $3000-$3EFF behaves exactly like the address $1000 lower. */
  lemma NametableMirrorDown(cart: Cartridge, mode: Mirroring, mem: PpuMemory, addr: u16, val: byte)
    requires mem.Valid() && 0x3000 <= addr <= 0x3EFF
    ensures PpuReadFrom(cart, mode, mem, addr) == PpuReadFrom(cart, mode, mem, addr - 0x1000)
    ensures PpuWriteTo(cart, mode, mem, addr, val) == PpuWriteTo(cart, mode, mem, addr - 0x1000, val)
  {
  }

  /** A header code that is neither mode stops every nametable access,
      read or write, instead of picking a guessed offset. */
  lemma UnsupportedMirrorFaults(cart: Cartridge, code: byte, mem: PpuMemory, addr: u16, val: byte)
    requires mem.Valid() && 0x2000 <= addr <= 0x3EFF
    ensures PpuReadFrom(cart, Unsupported(code), mem, addr) == Err(UnsupportedMirror(code))
    ensures PpuWriteTo(cart, Unsupported(code), mem, addr, val) == Err(UnsupportedMirror(code))
  {
  }

  /** Above $3EFF nothing is mapped: reads give 0 and writes change nothing. */
  lemma PpuUnmapped(cart: Cartridge, mode: Mirroring, mem: PpuMemory, addr: u16, val: byte)
    requires mem.Valid() && 0x3F00 <= addr
    ensures PpuReadFrom(cart, mode, mem, addr) == Ok(0)
    ensures PpuWriteTo(cart, mode, mem, addr, val) == Ok(mem)
  {
  }
}
