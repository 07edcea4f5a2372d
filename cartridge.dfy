// The cartridge (core/src/cartridge/mod.rs) and its MBC1 memory bank
// controller (core/src/cartridge/mbc1.rs): ROM header decoding, the
// bank-switched ROM window, the external RAM, and the MBC1 control
// registers.
//
// `CartState` holds the fields of `Cart` as a value; reads are functions of
// it, and the `Cart` class's methods are proved to change it as the
// functions `LoadedState` and `Mbc1Write` say.  The MBC2, MBC3 and MBC5
// controllers are not part of this model: their readers and writers are
// passed in as parameters.

module Cartridge {
  import opened Utils

  const ROM_BANK_SIZE: int := 0x4000
  const RAM_BANK_SIZE: int := 0x2000
  const MAX_RAM_SIZE: int := 32 * 1024
  const MBC5_MAX_RAM_SIZE: int := 128 * 1024

  /// A CPU address (Rust's `u16`).
  type Addr = a: int | 0 <= a < 0x10000

  const ROM_STOP: Addr := 0x7FFF
  const EXT_RAM_START: Addr := 0xA000
  const EXT_RAM_STOP: Addr := 0xBFFF

  /// Header addresses.
  const TITLE_ADDR: int := 0x0134
  const DMG_TITLE_ADDR_END: int := 0x013F
  const CGB_FLAG_ADDR: int := 0x0143
  const MBC_TYPE_ADDR: int := 0x0147

  datatype Mbc = NoMbc | Mbc1 | Mbc2 | Mbc3 | HuC1 | Mbc5

  /// The fields of `Cart`.
  datatype CartState = CartState(
    mbc: Mbc,
    rom_bank: bv16,
    ram_bank: bv8,
    rom: seq<bv8>,
    ram: seq<bv8>,
    ext_ram_enable: bool,
    rom_mode: bool,
    cgb: bool)

  /// `Cart::new`.
  const NewState := CartState(NoMbc, 1, 0, [], [], false, true, false)

  /// The reader and the writer of a controller that is not part of this
  /// model (MBC2, MBC3, MBC5).
  type OtherReader = (CartState, Addr) -> bv8
  type OtherWriter = (CartState, Addr, bv8) -> (CartState, bool)

  // ---------------------------------------------------------------------
  // The header

  /// `set_mbc`: the controller named by the cartridge-type byte.  MBC5 and
  /// HuC1 are never produced.
  function DecodeMbc(val: bv8): (m: Mbc)
    ensures m == Mbc1 <==> 0x01 <= val <= 0x03
    ensures m == Mbc2 <==> 0x05 <= val <= 0x06
    ensures m == Mbc3 <==> 0x0F <= val <= 0x13
    ensures m != Mbc5 && m != HuC1
  {
    if val == 0x00 then NoMbc
    else if 0x01 <= val <= 0x03 then Mbc1
    else if 0x05 <= val <= 0x06 then Mbc2
    else if 0x0F <= val <= 0x13 then Mbc3
    else NoMbc
  }

  /// `set_cgb`: the CGB flag byte marks a Color game with 0x80 or 0xC0.
  function IsCgbFlag(val: bv8): bool
  {
    val == 0x80 || val == 0xC0
  }

  /// `init_ext_ram`: the size of the zeroed external RAM.
  function RamSize(m: Mbc): (n: int)
    ensures n == MAX_RAM_SIZE || (m == Mbc5 && n == MBC5_MAX_RAM_SIZE)
  {
    if m == Mbc5 then MBC5_MAX_RAM_SIZE else MAX_RAM_SIZE
  }

  function Zeros(n: nat): (z: seq<bv8>)
    ensures |z| == n && forall i :: 0 <= i < n ==> z[i] == 0
  {
    seq(n, _ => 0)
  }

  /// `load_cart`: the bytes are appended to the ROM, and the controller,
  /// the CGB flag and the external RAM are set up from the header.
  /// `set_mbc` indexes byte 0x147, so the ROM must reach past it.
  function LoadedState(s: CartState, data: seq<bv8>): CartState
    requires |s.rom| + |data| > MBC_TYPE_ADDR
  {
    var rom := s.rom + data;
    var mbc := DecodeMbc(rom[MBC_TYPE_ADDR]);
    s.(rom := rom, mbc := mbc, cgb := IsCgbFlag(rom[CGB_FLAG_ADDR]), ram := Zeros(RamSize(mbc)))
  }

  /// After loading, the ROM is the old ROM followed by the data, the
  /// header bytes decide the controller and the CGB flag, and the external
  /// RAM is 32 KiB of zeros (128 KiB would need MBC5, which the header
  /// decoding never gives).  The banking registers are untouched.
  lemma LoadedSpec(s: CartState, data: seq<bv8>)
    requires |s.rom| + |data| > MBC_TYPE_ADDR
    ensures var t := LoadedState(s, data);
      && t.rom == s.rom + data
      && t.mbc == DecodeMbc(t.rom[MBC_TYPE_ADDR])
      && (t.cgb <==> t.rom[CGB_FLAG_ADDR] == 0x80 || t.rom[CGB_FLAG_ADDR] == 0xC0)
      && |t.ram| == MAX_RAM_SIZE
      && (forall i :: 0 <= i < |t.ram| ==> t.ram[i] == 0)
      && t.rom_bank == s.rom_bank && t.ram_bank == s.ram_bank
      && t.ext_ram_enable == s.ext_ram_enable && t.rom_mode == s.rom_mode
  {
  }

  /// `get_title`, as bytes: 0x134 up to 0x13F (11 bytes) on a CGB cartridge
  /// and up to 0x143 (15 bytes) otherwise.  The slice must lie in the ROM.
  function Title(s: CartState): (t: seq<bv8>)
    requires |s.rom| >= (if s.cgb then DMG_TITLE_ADDR_END else CGB_FLAG_ADDR)
    ensures |t| == if s.cgb then 11 else 15
    ensures forall i :: 0 <= i < |t| ==> t[i] == s.rom[TITLE_ADDR + i]
  {
    if s.cgb then s.rom[TITLE_ADDR..DMG_TITLE_ADDR_END] else s.rom[TITLE_ADDR..CGB_FLAG_ADDR]
  }

  // ---------------------------------------------------------------------
  // Reads

  /// The ROM index of a banked address: bank `rom_bank`, offset
  /// `address - 0x4000`.
  function RomIndex(rom_bank: bv16, address: Addr): int
  {
    rom_bank as int * ROM_BANK_SIZE + (address - ROM_BANK_SIZE)
  }

  /// The external RAM index of an address in 0xA000-0xBFFF.
  function RamIndex(ram_bank: bv8, addr: Addr): int
  {
    ram_bank as int * RAM_BANK_SIZE + (addr - EXT_RAM_START)
  }

  /// With at most four RAM banks, every external RAM address lands inside
  /// the 32 KiB buffer.
  lemma RamIndexBound(ram_bank: bv8, addr: Addr)
    requires ram_bank <= 3 && EXT_RAM_START <= addr <= EXT_RAM_STOP
    ensures 0 <= RamIndex(ram_bank, addr) < MAX_RAM_SIZE
  {
  }

  /// Distinct addresses of one bank are distinct RAM cells.
  lemma RamIndexInjective(ram_bank: bv8, a: Addr, b: Addr)
    requires EXT_RAM_START <= a <= EXT_RAM_STOP && EXT_RAM_START <= b <= EXT_RAM_STOP
    ensures RamIndex(ram_bank, a) == RamIndex(ram_bank, b) <==> a == b
  {
  }

  /// `mbc1_read_byte` reads the current RAM bank.  `addr - 0xA000` must not
  /// underflow and the index must lie in the RAM.
  predicate Mbc1Readable(s: CartState, addr: Addr)
  {
    addr >= EXT_RAM_START && 0 <= RamIndex(s.ram_bank, addr) < |s.ram|
  }

  function Mbc1Read(s: CartState, addr: Addr): bv8
    requires Mbc1Readable(s, addr)
  {
    s.ram[RamIndex(s.ram_bank, addr)]
  }

  /// The read ignores the RAM enable flag.
  lemma Mbc1ReadIgnoresEnable(s: CartState, addr: Addr, enable: bool)
    requires Mbc1Readable(s, addr)
    ensures Mbc1Read(s.(ext_ram_enable := enable), addr) == s.ram[RamIndex(s.ram_bank, addr)]
  {
  }

  /// The first address that goes to the controller instead of the ROM
  /// window: `ROM_STOP` itself as written, one past it once corrected.
  function ControllerStart(romStopInclusive: bool): int
  {
    if romStopInclusive then ROM_STOP + 1 else ROM_STOP
  }

  /// What `read_cart` needs to avoid a panic: ROM indices inside the ROM
  /// and, for MBC1, an external RAM address with its index inside the RAM.
  predicate ReadableBy(s: CartState, address: Addr, romStopInclusive: bool)
  {
    if address < ROM_BANK_SIZE then address < |s.rom|
    else if address < ControllerStart(romStopInclusive) then 0 <= RomIndex(s.rom_bank, address) < |s.rom|
    else s.mbc == Mbc1 ==> Mbc1Readable(s, address)
  }

  function ReadCartBy(s: CartState, address: Addr, other: OtherReader, romStopInclusive: bool): bv8
    requires ReadableBy(s, address, romStopInclusive)
  {
    if address < ROM_BANK_SIZE then s.rom[address]
    else if address < ControllerStart(romStopInclusive) then s.rom[RomIndex(s.rom_bank, address)]
    else match s.mbc
      case Mbc1 => Mbc1Read(s, address)
      case Mbc2 => other(s, address)
      case Mbc3 => other(s, address)
      case Mbc5 => other(s, address)
      case _ => 0
  }

  /// `read_cart` as written: the ROM window stops before 0x7FFF.
  predicate Readable(s: CartState, address: Addr)
  {
    ReadableBy(s, address, false)
  }

  function ReadCart(s: CartState, address: Addr, other: OtherReader): bv8
    requires Readable(s, address)
  {
    ReadCartBy(s, address, other, false)
  }

  /// `read_cart` with the ROM window running up to and including 0x7FFF.
  function ReadCartCorrected(s: CartState, address: Addr, other: OtherReader): bv8
    requires ReadableBy(s, address, true)
  {
    ReadCartBy(s, address, other, true)
  }

  /// Bank 0 is read directly, whatever the bank registers hold.
  lemma ReadBankZero(s: CartState, address: Addr, other: OtherReader, bank: bv16)
    requires address < ROM_BANK_SIZE && address < |s.rom|
    ensures ReadCart(s, address, other) == s.rom[address]
    ensures ReadCart(s.(rom_bank := bank), address, other) == ReadCart(s, address, other)
  {
  }

  /// 0x4000-0x7FFE reads bank `rom_bank`.
  lemma ReadBanked(s: CartState, address: Addr, other: OtherReader)
    requires 0x4000 <= address < ROM_STOP && 0 <= RomIndex(s.rom_bank, address) < |s.rom|
    ensures ReadCart(s, address, other) == s.rom[s.rom_bank as int * 0x4000 + (address - 0x4000)]
  {
  }

  /// From 0x7FFF up, the controller answers: MBC1 reads its RAM, a
  /// cartridge without a supported controller reads 0.
  lemma ReadController(s: CartState, address: Addr, other: OtherReader)
    requires address >= ROM_STOP && Readable(s, address)
    ensures s.mbc == Mbc1 ==> ReadCart(s, address, other) == s.ram[RamIndex(s.ram_bank, address)]
    ensures s.mbc == NoMbc || s.mbc == HuC1 ==> ReadCart(s, address, other) == 0
    ensures s.mbc == Mbc2 || s.mbc == Mbc3 || s.mbc == Mbc5 ==> ReadCart(s, address, other) == other(s, address)
  {
  }

  /// The last ROM byte, 0x7FFF, is not read from the ROM as written: an
  /// MBC1 cartridge cannot read it at all (the RAM offset underflows), and
  /// one without a controller reads 0 whatever the ROM holds.
  lemma LastRomByteMisread(s: CartState, other: OtherReader)
    requires |s.rom| == 0x8000 && s.rom_bank == 1 && s.rom[0x7FFF] == 0xC9
    ensures s.mbc == Mbc1 ==> !Readable(s, ROM_STOP)
    ensures s.mbc == NoMbc ==> ReadCart(s, ROM_STOP, other) == 0 != s.rom[0x7FFF]
  {
  }

  /// Corrected, the whole of 0x4000-0x7FFF reads bank `rom_bank`.
  lemma CorrectedReadsWholeBank(s: CartState, address: Addr, other: OtherReader)
    requires 0x4000 <= address <= ROM_STOP && 0 <= RomIndex(s.rom_bank, address) < |s.rom|
    ensures ReadCartCorrected(s, address, other) == s.rom[s.rom_bank as int * 0x4000 + (address - 0x4000)]
  {
  }

  // ---------------------------------------------------------------------
  // MBC1 writes

  /// The address ranges `mbc1_write_byte` handles; any other panics.
  predicate IsMbc1Addr(addr: Addr)
  {
    addr <= ROM_STOP || EXT_RAM_START <= addr <= EXT_RAM_STOP
  }

  /// An enabled write to the external RAM indexes the RAM buffer.
  predicate Mbc1WriteFits(s: CartState, addr: Addr)
  {
    EXT_RAM_START <= addr <= EXT_RAM_STOP && s.ext_ram_enable ==> 0 <= RamIndex(s.ram_bank, addr) < |s.ram|
  }

  /// `mbc1_write_byte`: 0x0000-0x1FFF enables the RAM (0x0A) or disables
  /// it; 0x2000-0x3FFF selects the ROM bank's low five bits (0 selects 1);
  /// 0x4000-0x5FFF ORs two bits into the ROM bank at bit 4 in ROM mode and
  /// selects the RAM bank otherwise; 0x6000-0x7FFF selects the mode (0 is
  /// ROM mode); 0xA000-0xBFFF stores into the RAM when it is enabled.
  function Mbc1Write(s: CartState, addr: Addr, val: bv8): (r: Result<CartState>)
    requires Mbc1WriteFits(s, addr)
    ensures r.Ok? <==> IsMbc1Addr(addr)
  {
    if addr <= 0x1FFF then Ok(s.(ext_ram_enable := val == 0x0A))
    else if addr <= 0x3FFF then
      var bank := (val & 0x1F) as bv16;
      Ok(s.(rom_bank := if bank == 0x00 || bank == 0x20 || bank == 0x40 || bank == 0x60 then bank + 1 else bank))
    else if addr <= 0x5FFF then
      var bits := val & 0x03;
      if s.rom_mode then Ok(s.(rom_bank := s.rom_bank | (bits << 4) as bv16))
      else Ok(s.(ram_bank := bits))
    else if addr <= ROM_STOP then Ok(s.(rom_mode := val == 0x00))
    else if EXT_RAM_START <= addr <= EXT_RAM_STOP then
      if s.ext_ram_enable then Ok(s.(ram := s.ram[RamIndex(s.ram_bank, addr) := val]))
      else Ok(s)
    else Err("Address too large for cartridge!")
  }

  /// Writes to 0x0000-0x1FFF set the enable flag from the value alone.
  lemma Mbc1EnableRam(s: CartState, addr: Addr, val: bv8)
    requires addr <= 0x1FFF
    ensures Mbc1Write(s, addr, val) == Ok(s.(ext_ram_enable := val == 0x0A))
  {
  }

  /// Writes to 0x2000-0x3FFF leave a ROM bank in 1..31: the value's low
  /// five bits, with 0 replaced by 1.
  lemma Mbc1SelectRomBank(s: CartState, addr: Addr, val: bv8)
    requires 0x2000 <= addr <= 0x3FFF
    ensures var t := Mbc1Write(s, addr, val).value;
      && 1 <= t.rom_bank <= 31
      && t.rom_bank == (if val & 0x1F == 0 then 1 else (val & 0x1F) as bv16)
      && t == s.(rom_bank := t.rom_bank)
  {
  }

  /// Writes to 0x4000-0x5FFF in ROM mode only ever set bits, and only bits
  /// 4 and 5 of the ROM bank; in RAM mode they select RAM bank 0..3.
  lemma Mbc1UpperBits(s: CartState, addr: Addr, val: bv8)
    requires 0x4000 <= addr <= 0x5FFF
    ensures var t := Mbc1Write(s, addr, val).value;
      if s.rom_mode then
        && t.rom_bank & s.rom_bank == s.rom_bank
        && t.rom_bank & !0x30 == s.rom_bank & !0x30
        && t.rom_bank & 0x30 == (s.rom_bank & 0x30) | ((val & 3) as bv16 << 4)
        && t == s.(rom_bank := t.rom_bank)
      else
        t.ram_bank == val & 3 && t.ram_bank <= 3 && t == s.(ram_bank := t.ram_bank)
  {
  }

  /// Bits 4 and 5 are where the bank-select write already put its value:
  /// with bank 0x10 selected, the upper bits 01 leave the bank at 0x10
  /// instead of a bank above 0x1F.
  lemma Mbc1UpperBitsOverlap(s: CartState)
    requires s.rom_mode
    ensures var t := Mbc1Write(Mbc1Write(s, 0x2000, 0x10).value, 0x4000, 0x01).value;
      t.rom_bank == 0x10
  {
  }

  /// Writes to 0x6000-0x7FFF choose ROM mode exactly for the value 0.
  lemma Mbc1SelectMode(s: CartState, addr: Addr, val: bv8)
    requires 0x6000 <= addr <= ROM_STOP
    ensures Mbc1Write(s, addr, val) == Ok(s.(rom_mode := val == 0))
  {
  }

  /// An enabled write to the external RAM reads back, leaves every other
  /// address of the bank alone and changes nothing else; a disabled one
  /// changes nothing.
  lemma Mbc1RamWriteRead(s: CartState, addr: Addr, val: bv8, other: Addr)
    requires EXT_RAM_START <= addr <= EXT_RAM_STOP && Mbc1WriteFits(s, addr)
    requires EXT_RAM_START <= other <= EXT_RAM_STOP && Mbc1Readable(s, other)
    ensures var t := Mbc1Write(s, addr, val).value;
      && (s.ext_ram_enable ==> Mbc1Read(t, addr) == val && t == s.(ram := t.ram))
      && (other != addr ==> Mbc1Read(t, other) == Mbc1Read(s, other))
      && (!s.ext_ram_enable ==> t == s)
  {
    RamIndexInjective(s.ram_bank, addr, other);
  }

  /// The MBC1 registers in a loaded cartridge: at most four RAM banks over
  /// a 32 KiB RAM.  Every MBC1 write keeps this, and under it every
  /// external RAM access is inside the RAM.
  predicate Mbc1Inv(s: CartState)
  {
    s.ram_bank <= 3 && |s.ram| == MAX_RAM_SIZE
  }

  lemma Mbc1InvAccessFits(s: CartState, addr: Addr)
    requires Mbc1Inv(s) && EXT_RAM_START <= addr <= EXT_RAM_STOP
    ensures Mbc1WriteFits(s, addr) && Mbc1Readable(s, addr)
  {
    RamIndexBound(s.ram_bank, addr);
  }

  lemma Mbc1WriteInv(s: CartState, addr: Addr, val: bv8)
    requires Mbc1Inv(s) && IsMbc1Addr(addr)
    ensures Mbc1WriteFits(s, addr) && Mbc1Inv(Mbc1Write(s, addr, val).value)
  {
    if EXT_RAM_START <= addr {
      Mbc1InvAccessFits(s, addr);
    }
  }

  /// A freshly loaded MBC1 cartridge satisfies the invariant.
  lemma LoadedMbc1Inv(data: seq<bv8>)
    requires |data| > MBC_TYPE_ADDR
    ensures Mbc1Inv(LoadedState(NewState, data))
  {
  }

  // ---------------------------------------------------------------------
  // `write_cart`

  /// What `write_cart` needs: for MBC1, an enabled RAM write inside the
  /// RAM.
  predicate WriteFits(s: CartState, addr: Addr)
  {
    s.mbc == Mbc1 ==> Mbc1WriteFits(s, addr)
  }

  /// `write_cart`: MBC1 writes go to `Mbc1Write`, which reports no
  /// battery-backed write and whose panic on an address it does not handle
  /// is an error; a cartridge without a supported controller changes
  /// nothing and reports nothing.
  function WriteCart(s: CartState, addr: Addr, val: bv8, other: OtherWriter): (r: Result<(CartState, bool)>)
    requires WriteFits(s, addr)
    ensures r.Err? <==> s.mbc == Mbc1 && !IsMbc1Addr(addr)
  {
    match s.mbc
    case Mbc1 =>
      var w := Mbc1Write(s, addr, val);
      if w.Ok? then Ok((w.value, false)) else Err(w.msg)
    case Mbc2 => Ok(other(s, addr, val))
    case Mbc3 => Ok(other(s, addr, val))
    case Mbc5 => Ok(other(s, addr, val))
    case _ => Ok((s, false))
  }

  lemma WriteWithoutController(s: CartState, addr: Addr, val: bv8, other: OtherWriter)
    requires s.mbc == NoMbc || s.mbc == HuC1
    ensures WriteCart(s, addr, val, other) == Ok((s, false))
  {
  }

  /// The cartridge.
  class Cart {
    var mbc: Mbc
    var rom_bank: bv16
    var ram_bank: bv8
    var rom: seq<bv8>
    var ram: seq<bv8>
    var ext_ram_enable: bool
    var rom_mode: bool
    var cgb: bool

    function State(): CartState
      reads this
    {
      CartState(mbc, rom_bank, ram_bank, rom, ram, ext_ram_enable, rom_mode, cgb)
    }

    /// `Cart::new`: no controller, ROM bank 1, RAM bank 0, RAM disabled,
    /// ROM mode, empty ROM and RAM.
    constructor ()
      ensures State() == NewState
    {
      mbc, rom_bank, ram_bank := NoMbc, 1, 0;
      rom, ram := [], [];
      ext_ram_enable, rom_mode, cgb := false, true, false;
    }

    /// `load_cart`: the bytes are pushed one by one, then the header is
    /// decoded and the RAM set up.
    method LoadCart(data: seq<bv8>)
      requires |rom| + |data| > MBC_TYPE_ADDR
      modifies this
      ensures State() == LoadedState(old(State()), data)
    {
      var i := 0;
      while i < |data|
        invariant 0 <= i <= |data|
        invariant State() == old(State()).(rom := old(rom) + data[..i])
      {
        rom := rom + [data[i]];
        i := i + 1;
      }
      assert data[..i] == data;
      SetMbc();
      SetCgb();
      InitExtRam();
    }

    /// `set_mbc`.
    method SetMbc()
      requires |rom| > MBC_TYPE_ADDR
      modifies this
      ensures State() == old(State()).(mbc := DecodeMbc(old(rom)[MBC_TYPE_ADDR]))
    {
      mbc := DecodeMbc(rom[MBC_TYPE_ADDR]);
    }

    /// `set_cgb`.
    method SetCgb()
      requires |rom| > CGB_FLAG_ADDR
      modifies this
      ensures State() == old(State()).(cgb := IsCgbFlag(old(rom)[CGB_FLAG_ADDR]))
    {
      var val := rom[CGB_FLAG_ADDR];
      cgb := (val == 0x80) || (val == 0xC0);
    }

    /// `init_ext_ram`.
    method InitExtRam()
      modifies this
      ensures State() == old(State()).(ram := Zeros(RamSize(mbc)))
    {
      if mbc == Mbc5 {
        ram := seq(MBC5_MAX_RAM_SIZE, _ => 0);
      } else {
        ram := seq(MAX_RAM_SIZE, _ => 0);
      }
    }

    /// `mbc1_write_byte`; an address it does not handle is an error and
    /// changes nothing.
    method Mbc1WriteByte(addr: Addr, val: bv8) returns (r: Result<()>)
      requires Mbc1WriteFits(State(), addr)
      modifies this
      ensures r.Ok? <==> IsMbc1Addr(addr)
      ensures State() == if r.Ok? then Mbc1Write(old(State()), addr, val).value else old(State())
    {
      r := Ok(());
      if addr <= ROM_STOP {
        Mbc1WriteRegister(addr, val);
      } else if EXT_RAM_START <= addr <= EXT_RAM_STOP {
        Mbc1WriteRam(addr, val);
      } else {
        r := Err("Address too large for cartridge!");
      }
    }

    /// The control-register half of `mbc1_write_byte` (0x0000-0x7FFF).
    method Mbc1WriteRegister(addr: Addr, val: bv8)
      requires addr <= ROM_STOP
      modifies this
      ensures State() == Mbc1Write(old(State()), addr, val).value
    {
      if addr <= 0x1FFF {
        ext_ram_enable := val == 0x0A;
      } else if addr <= 0x3FFF {
        var bank_val := (val & 0x1F) as bv16;
        if bank_val == 0x00 || bank_val == 0x20 || bank_val == 0x40 || bank_val == 0x60 {
          rom_bank := bank_val + 1;
        } else {
          rom_bank := bank_val;
        }
      } else if addr <= 0x5FFF {
        var bits := val & 0x03;
        if rom_mode {
          rom_bank := rom_bank | (bits << 4) as bv16;
        } else {
          ram_bank := bits;
        }
      } else {
        rom_mode := val == 0x00;
      }
    }

    /// The external-RAM half of `mbc1_write_byte` (0xA000-0xBFFF).
    method Mbc1WriteRam(addr: Addr, val: bv8)
      requires EXT_RAM_START <= addr <= EXT_RAM_STOP && Mbc1WriteFits(State(), addr)
      modifies this
      ensures State() == Mbc1Write(old(State()), addr, val).value
    {
      if ext_ram_enable {
        var ram_addr := RamIndex(ram_bank, addr);
        ram := ram[ram_addr := val];
      }
    }

    /// `write_cart`, with the writer of the controllers not modelled here
    /// passed in; an MBC1 write to an address it does not handle is an
    /// error and changes nothing.
    method WriteCartByte(addr: Addr, val: bv8, other: OtherWriter) returns (r: Result<bool>)
      requires WriteFits(State(), addr)
      modifies this
      ensures var w := WriteCart(old(State()), addr, val, other);
        && (r.Ok? <==> w.Ok?)
        && (if w.Ok? then (State(), r.value) == w.value else State() == old(State()))
    {
      match mbc
      case Mbc1 =>
        var written := Mbc1WriteByte(addr, val);
        if written.Ok? {
          r := Ok(false);
        } else {
          r := Err(written.msg);
        }
      case Mbc2 =>
        var saved := WriteOther(addr, val, other);
        r := Ok(saved);
      case Mbc3 =>
        var saved := WriteOther(addr, val, other);
        r := Ok(saved);
      case Mbc5 =>
        var saved := WriteOther(addr, val, other);
        r := Ok(saved);
      case _ =>
        r := Ok(false);
    }

    /// Hands the write to a controller not modelled here.
    method WriteOther(addr: Addr, val: bv8, other: OtherWriter) returns (saved: bool)
      modifies this
      ensures (State(), saved) == other(old(State()), addr, val)
    {
      var r := other(State(), addr, val);
      var t := r.0;
      mbc, rom_bank, ram_bank, rom, ram := t.mbc, t.rom_bank, t.ram_bank, t.rom, t.ram;
      ext_ram_enable, rom_mode, cgb := t.ext_ram_enable, t.rom_mode, t.cgb;
      saved := r.1;
    }
  }
}
