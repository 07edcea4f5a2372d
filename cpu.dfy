// The CPU register file, its flag accessors, the ALU instructions on
// registers, and the stack (core/src/cpu/mod.rs).
//
// `CpuState` is the value of the CPU's fields; the functions below it say
// what each operation does to that value, using the byte-level arithmetic of
// module `Alu`.  The `Cpu` class keeps the same fields, its methods follow
// the source's sequence of register and flag updates, and each is proved to
// produce the state the matching function describes.
//
// The bus behind `read_ram`/`write_ram` is not part of this model: the CPU
// sees it as a total map from 16-bit addresses to bytes.

module CpuCore {
  import opened Utils
  import Alu

  /// The eight 8-bit registers (`Regs`).
  datatype Reg = A | B | C | D | E | F | H | L

  /// The four register pairs (`Regs16`).
  datatype Reg16 = AF | BC | DE | HL

  /// A 16-bit address, or a value of PC or SP.  They are integers so that
  /// the arithmetic the source does on them (which must not overflow) stays
  /// linear.
  type Addr = a: int | 0 <= a < 0x10000

  /// The bus has one byte per address.
  predicate TotalMemory(m: seq<bv8>)
  {
    |m| == 0x10000
  }

  /// The fields of `Cpu`, with the bus as `mem`.
  datatype CpuState = CpuState(
    pc: Addr, sp: Addr,
    a: bv8, b: bv8, c: bv8, d: bv8, e: bv8, f: bv8, h: bv8, l: bv8,
    mem: seq<bv8>)

  /// The register values `Cpu::new` starts with (the documented values
  /// after the boot ROM), over the bus contents `bus`.
  function Boot(bus: seq<bv8>): CpuState
  {
    CpuState(0x100, 0xFFFE, 0x01, 0x00, 0x13, 0x00, 0xD8, 0xB0, 0x01, 0x4D, bus)
  }

  /// The I/O registers `Cpu::new` initialises with `write_ram`, each
  /// address with the value written to it (no address is written twice).
  const BOOT_IO: map<Addr, bv8> := map[
    0xFF05 := 0x00, 0xFF06 := 0x00, 0xFF07 := 0x00, 0xFF10 := 0x80,
    0xFF11 := 0xBF, 0xFF12 := 0xF3, 0xFF14 := 0xBF, 0xFF16 := 0x3F,
    0xFF17 := 0x00, 0xFF19 := 0xBF, 0xFF1A := 0x7F, 0xFF1B := 0xFF,
    0xFF1C := 0x9F, 0xFF1E := 0xBF, 0xFF20 := 0xFF, 0xFF21 := 0x00,
    0xFF22 := 0x00, 0xFF23 := 0xBF, 0xFF24 := 0x77, 0xFF25 := 0xF3,
    0xFF26 := 0xF1, 0xFF40 := 0x91, 0xFF42 := 0x00, 0xFF43 := 0x00,
    0xFF45 := 0x00, 0xFF47 := 0xFC, 0xFF48 := 0xFF, 0xFF49 := 0xFF,
    0xFF4A := 0x00, 0xFF4B := 0x00, 0xFF4F := 0x00]

  /// `Cpu::new`'s writes to the timer registers TIMA, TMA and TAC.
  function TimerIo(m: seq<bv8>): (r: seq<bv8>)
    requires TotalMemory(m)
    ensures TotalMemory(r)
  {
    m
      [0xFF05 := 0x00][0xFF06 := 0x00][0xFF07 := 0x00]
  }

  /// `Cpu::new`'s writes to the registers of sound channels 1-3.
  function Channels123Io(m: seq<bv8>): (r: seq<bv8>)
    requires TotalMemory(m)
    ensures TotalMemory(r)
  {
    m
      [0xFF10 := 0x80][0xFF11 := 0xBF][0xFF12 := 0xF3][0xFF14 := 0xBF]
      [0xFF16 := 0x3F][0xFF17 := 0x00][0xFF19 := 0xBF][0xFF1A := 0x7F]
      [0xFF1B := 0xFF][0xFF1C := 0x9F][0xFF1E := 0xBF]
  }

  /// `Cpu::new`'s writes to sound channel 4 and the sound control
  /// registers.
  function Channel4Io(m: seq<bv8>): (r: seq<bv8>)
    requires TotalMemory(m)
    ensures TotalMemory(r)
  {
    m
      [0xFF20 := 0xFF][0xFF21 := 0x00][0xFF22 := 0x00][0xFF23 := 0xBF]
      [0xFF24 := 0x77][0xFF25 := 0xF3][0xFF26 := 0xF1]
  }

  /// `Cpu::new`'s writes to the LCD registers and the VRAM bank.
  function LcdIo(m: seq<bv8>): (r: seq<bv8>)
    requires TotalMemory(m)
    ensures TotalMemory(r)
  {
    m
      [0xFF40 := 0x91][0xFF42 := 0x00][0xFF43 := 0x00][0xFF45 := 0x00]
      [0xFF47 := 0xFC][0xFF48 := 0xFF][0xFF49 := 0xFF][0xFF4A := 0x00]
      [0xFF4B := 0x00][0xFF4F := 0x00]
  }

  /// The bus after `Cpu::new`'s `write_ram` calls, made in its order.
  function BootIo(bus: seq<bv8>): (m: seq<bv8>)
    requires TotalMemory(bus)
    ensures TotalMemory(m)
  {
    LcdIo(Channel4Io(Channels123Io(TimerIo(bus))))
  }

  /// After those writes each address of `BOOT_IO` holds its value, and
  /// every other address keeps what `bus` held.
  lemma BootIoTable(bus: seq<bv8>, i: Addr)
    requires TotalMemory(bus)
    ensures BootIo(bus)[i] == if i in BOOT_IO then BOOT_IO[i] else bus[i]
  {
  }

  /// The LCD starts on with BG palette 0xFC and both sprite palettes 0xFF,
  /// and the sound unit starts on.
  lemma BootIoLcdAndSound(bus: seq<bv8>)
    requires TotalMemory(bus)
    ensures var m := BootIo(bus);
      m[0xFF40] == 0x91 && m[0xFF47] == 0xFC && m[0xFF48] == 0xFF && m[0xFF49] == 0xFF && m[0xFF26] == 0xF1
  {
    forall i: Addr ensures BootIo(bus)[i] == if i in BOOT_IO then BOOT_IO[i] else bus[i] {
      BootIoTable(bus, i);
    }
  }

  /// The boot writes touch only I/O registers: ROM, VRAM, RAM and OAM keep
  /// what the bus held.
  lemma BootIoBelowIo(bus: seq<bv8>, i: Addr)
    requires TotalMemory(bus) && i < 0xFF00
    ensures BootIo(bus)[i] == bus[i]
  {
    BootIoTable(bus, i);
  }

  // ---------------------------------------------------------------------
  // Registers and register pairs

  /// `get_reg`.
  function RegOf(s: CpuState, r: Reg): bv8
  {
    match r
    case A => s.a
    case B => s.b
    case C => s.c
    case D => s.d
    case E => s.e
    case F => s.f
    case H => s.h
    case L => s.l
  }

  /// `set_reg`: the register gets `v`; no other register, neither pointer
  /// and no memory cell changes.
  function WithReg(s: CpuState, r: Reg, v: bv8): CpuState
  {
    match r
    case A => s.(a := v)
    case B => s.(b := v)
    case C => s.(c := v)
    case D => s.(d := v)
    case E => s.(e := v)
    case F => s.(f := v)
    case H => s.(h := v)
    case L => s.(l := v)
  }

  /// After `set_reg(r, v)` the register holds v, and no other register,
  /// neither pointer and no memory cell has changed.
  lemma WithRegSpec(s: CpuState, r: Reg, v: bv8)
    ensures var t := WithReg(s, r, v);
      && RegOf(t, r) == v
      && (forall q :: q != r ==> RegOf(t, q) == RegOf(s, q))
      && t.pc == s.pc && t.sp == s.sp && t.mem == s.mem
  {
  }

  /// Writing a register's own value back changes nothing.
  lemma WithRegSame(s: CpuState, r: Reg)
    ensures WithReg(s, r, RegOf(s, r)) == s
  {
  }

  /// The register holding the high byte of a pair: A, B, D or H.
  function HighReg(rr: Reg16): Reg
  {
    match rr
    case AF => A
    case BC => B
    case DE => D
    case HL => H
  }

  /// The register holding the low byte of a pair: F, C, E or L.
  function LowReg(rr: Reg16): Reg
  {
    match rr
    case AF => F
    case BC => C
    case DE => E
    case HL => L
  }

  /// The two halves of a pair are different registers, and no register
  /// belongs to two pairs.
  lemma PairsPartition(rr: Reg16, qq: Reg16)
    ensures HighReg(rr) != LowReg(rr)
    ensures rr != qq ==> HighReg(rr) != HighReg(qq) && LowReg(rr) != LowReg(qq)
    ensures HighReg(rr) != LowReg(qq)
  {
  }

  /// `get_reg_16`: the high register's byte above the low register's.
  function PairOf(s: CpuState, rr: Reg16): bv16
  {
    match rr
    case AF => MergeBytes(s.a, s.f)
    case BC => MergeBytes(s.b, s.c)
    case DE => MergeBytes(s.d, s.e)
    case HL => MergeBytes(s.h, s.l)
  }

  /// `set_reg_16`: the high byte to the high register, then the low byte to
  /// the low register.
  function WithPair(s: CpuState, rr: Reg16, v: bv16): CpuState
  {
    match rr
    case AF => s.(a := HighByte(v)).(f := LowByte(v))
    case BC => s.(b := HighByte(v)).(c := LowByte(v))
    case DE => s.(d := HighByte(v)).(e := LowByte(v))
    case HL => s.(h := HighByte(v)).(l := LowByte(v))
  }

  /// Setting a pair and reading it back gives the value: the high byte is in
  /// A/B/D/H and the low byte in F/C/E/L, and every register outside the
  /// pair, both pointers and the memory are unchanged.
  lemma PairRoundTrip(s: CpuState, rr: Reg16, v: bv16)
    ensures var t := WithPair(s, rr, v);
      && PairOf(t, rr) == v
      && RegOf(t, HighReg(rr)) == HighByte(v)
      && RegOf(t, LowReg(rr)) == LowByte(v)
      && (forall q :: q != HighReg(rr) && q != LowReg(rr) ==> RegOf(t, q) == RegOf(s, q))
      && t.pc == s.pc && t.sp == s.sp && t.mem == s.mem
  {
    PairsPartition(rr, rr);
    MergeSplit(v);
  }

  /// Setting one pair leaves the value of every other pair alone.
  lemma PairOther(s: CpuState, rr: Reg16, qq: Reg16, v: bv16)
    requires rr != qq
    ensures PairOf(WithPair(s, rr, v), qq) == PairOf(s, qq)
  {
    PairsPartition(rr, qq);
    PairsPartition(qq, rr);
  }

  /// Writing a pair's own value back changes nothing.
  lemma PairRewrite(s: CpuState, rr: Reg16)
    ensures WithPair(s, rr, PairOf(s, rr)) == s
  {
    var v := PairOf(s, rr);
    assert HighByte(v) == RegOf(s, HighReg(rr)) && LowByte(v) == RegOf(s, LowReg(rr));
    WithRegSame(s, HighReg(rr));
    WithRegSame(s, LowReg(rr));
  }

  /// A second write to a pair undoes the first one completely.
  lemma PairOverwrite(s: CpuState, rr: Reg16, v: bv16, w: bv16)
    ensures WithPair(WithPair(s, rr, v), rr, w) == WithPair(s, rr, w)
  {
    PairsPartition(rr, rr);
  }

  // ---------------------------------------------------------------------
  // Memory

  /// `read_ram`.
  function Load(s: CpuState, addr: Addr): bv8
    requires TotalMemory(s.mem)
  {
    s.mem[addr]
  }

  /// `write_ram`: one cell changes.
  function Store(s: CpuState, addr: Addr, v: bv8): (t: CpuState)
    requires TotalMemory(s.mem)
    ensures TotalMemory(t.mem)
    ensures forall other :: Load(t, other) == if other == addr then v else Load(s, other)
    ensures t == s.(mem := t.mem)
  {
    s.(mem := s.mem[addr := v])
  }

  /// `fetch`: the byte at PC, and PC moved one on.  Rust's `pc += 1` panics
  /// at 0xFFFF.
  function FetchAt(s: CpuState): (bv8, CpuState)
    requires TotalMemory(s.mem) && s.pc != 0xFFFF
  {
    (Load(s, s.pc), s.(pc := s.pc + 1))
  }

  /// Consecutive fetches read consecutive addresses and change nothing but
  /// PC.
  lemma FetchTwice(s: CpuState)
    requires TotalMemory(s.mem) && s.pc < 0xFFFE
    ensures var (x, t) := FetchAt(s); var (y, u) := FetchAt(t);
      && x == s.mem[s.pc] && y == s.mem[s.pc + 1]
      && u == s.(pc := s.pc + 2)
  {
  }

  /// `push`: SP - 2 (which panics below 2); the high byte goes to the new
  /// SP + 1, then the low byte to the new SP.
  function PushOn(s: CpuState, v: bv16): CpuState
    requires TotalMemory(s.mem) && s.sp >= 2
  {
    var sp := s.sp - 2;
    Store(Store(s, sp + 1, HighByte(v)), sp, LowByte(v)).(sp := sp)
  }

  /// `pop`: an error when SP is 0xFFFE (the empty stack); otherwise the low
  /// byte at SP and the high byte at SP + 1, and SP + 2.  SP = 0xFFFF would
  /// make `sp + 1` overflow.
  function PopOff(s: CpuState): (r: Result<(bv16, CpuState)>)
    requires TotalMemory(s.mem) && s.sp != 0xFFFF
    ensures r.Ok? <==> s.sp != 0xFFFE
  {
    if s.sp == 0xFFFE then Err("Trying to pop when stack is empty")
    else Ok((MergeBytes(Load(s, s.sp + 1), Load(s, s.sp)), s.(sp := s.sp + 2)))
  }

  /// After `push(v)`, SP is 2 lower, the low byte of v is at the new SP, the
  /// high byte just above it, and nothing else has changed.
  lemma PushStores(s: CpuState, v: bv16)
    requires TotalMemory(s.mem) && s.sp >= 2
    ensures var t := PushOn(s, v);
      && TotalMemory(t.mem)
      && t.sp == s.sp - 2
      && Load(t, s.sp - 2) == LowByte(v)
      && Load(t, s.sp - 1) == HighByte(v)
      && (forall addr :: addr != s.sp - 2 && addr != s.sp - 1 ==> Load(t, addr) == Load(s, addr))
      && t == s.(sp := t.sp, mem := t.mem)
  {
  }

  /// A `pop` after a `push(v)` returns v and puts SP back.
  lemma PushPop(s: CpuState, v: bv16)
    requires TotalMemory(s.mem) && s.sp >= 2
    ensures var t := PushOn(s, v);
      PopOff(t) == Ok((v, t.(sp := s.sp)))
  {
    var t := PushOn(s, v);
    PushStores(s, v);
    assert t.sp + 1 == s.sp - 1;
    MergeSplit(v);
  }

  /// A `push` of what `pop` returned restores the whole state.
  lemma PopPush(s: CpuState)
    requires TotalMemory(s.mem) && s.sp != 0xFFFF && s.sp != 0xFFFE
    ensures var (v, t) := PopOff(s).value;
      t.sp >= 2 && TotalMemory(t.mem) && PushOn(t, v) == s
  {
    var (v, t) := PopOff(s).value;
    var u := PushOn(t, v);
    assert u.mem == s.mem by {
      assert forall i :: 0 <= i < |s.mem| ==> u.mem[i] == s.mem[i];
    }
  }

  // ---------------------------------------------------------------------
  // Operations on registers

  /// The shape of the ALU instructions that compute the flags first and
  /// then `set_reg` the result (arithmetic on A, rotates, shifts, swap):
  /// when the target is F itself, the result overwrites the new flags.
  function FlagsThenReg(s: CpuState, r: Reg, o: Alu.AluOut): CpuState
  {
    WithReg(s.(f := o.f), r, o.r)
  }

  /// The target register holds the result; F holds the new flags unless it
  /// is the target itself, in which case the flags are lost.
  lemma FlagsThenRegSpec(s: CpuState, r: Reg, o: Alu.AluOut)
    ensures var t := FlagsThenReg(s, r, o);
      && RegOf(t, r) == o.r
      && (r != F ==> t.f == o.f)
  {
  }

  /// The other registers, PC, SP and memory are those of `s`.
  lemma FlagsThenRegFrame(s: CpuState, r: Reg, o: Alu.AluOut)
    ensures var t := FlagsThenReg(s, r, o);
      && (forall q :: q != r && q != F ==> RegOf(t, q) == RegOf(s, q))
      && t.pc == s.pc && t.sp == s.sp && t.mem == s.mem
  {
    WithRegSpec(s.(f := o.f), r, o.r);
  }

  /// `inc_8`: `set_reg` first, then the flags are updated on F as it stands
  /// after that write.
  function Inc8On(s: CpuState, r: Reg): CpuState
  {
    var v := RegOf(s, r);
    var t := WithReg(s, r, Alu.Inc8(v, s.f).r);
    t.(f := Alu.Inc8(v, t.f).f)
  }

  /// `dec_8`, in the same order as `inc_8`.
  function Dec8On(s: CpuState, r: Reg): CpuState
  {
    var v := RegOf(s, r);
    var t := WithReg(s, r, Alu.Dec8(v, s.f).r);
    t.(f := Alu.Dec8(v, t.f).f)
  }

  /// For a register other than F, INC stores v + 1 and sets the flags
  /// `Alu.Inc8` computes from the old F; for F itself the flag updates are
  /// made on top of the incremented byte, so its low nibble (and C) come
  /// from F + 1.
  lemma Inc8OnSpec(s: CpuState, r: Reg)
    ensures var v := RegOf(s, r); var t := Inc8On(s, r);
      && (r != F ==> RegOf(t, r) == v + 1 && t.f == Alu.Inc8(v, s.f).f)
      && (r == F ==> t.f == Alu.Inc8(v, v + 1).f && t.f & 0x0F == (v + 1) & 0x0F)
      && (forall q :: q != r && q != F ==> RegOf(t, q) == RegOf(s, q))
      && t.pc == s.pc && t.sp == s.sp && t.mem == s.mem
  {
    Alu.Inc8Spec(RegOf(s, r), RegOf(s, r) + 1);
  }

  /// DEC, in the same terms as `Inc8OnSpec`.
  lemma Dec8OnSpec(s: CpuState, r: Reg)
    ensures var v := RegOf(s, r); var t := Dec8On(s, r);
      && (r != F ==> RegOf(t, r) == v - 1 && t.f == Alu.Dec8(v, s.f).f)
      && (r == F ==> t.f == Alu.Dec8(v, v - 1).f && t.f & 0x0F == (v - 1) & 0x0F)
      && (forall q :: q != r && q != F ==> RegOf(t, q) == RegOf(s, q))
      && t.pc == s.pc && t.sp == s.sp && t.mem == s.mem
  {
    Alu.Dec8Rest(RegOf(s, r), RegOf(s, r) - 1);
  }

  /// INC then DEC of a register other than F restores its value.
  lemma Inc8Dec8Restores(s: CpuState, r: Reg)
    requires r != F
    ensures RegOf(Dec8On(Inc8On(s, r), r), r) == RegOf(s, r)
  {
    Inc8OnSpec(s, r);
    Dec8OnSpec(Inc8On(s, r), r);
  }

  /// `inc_16`: the pair gets its value + 1, wrapping; no flag is written.
  function Inc16On(s: CpuState, rr: Reg16): CpuState
  {
    WithPair(s, rr, PairOf(s, rr) + 1)
  }

  /// `dec_16`: the pair gets its value - 1, wrapping.
  function Dec16On(s: CpuState, rr: Reg16): CpuState
  {
    WithPair(s, rr, PairOf(s, rr) - 1)
  }

  /// DEC rr undoes INC rr, on the whole state.
  lemma Inc16Dec16Inverse(s: CpuState, rr: Reg16)
    ensures Dec16On(Inc16On(s, rr), rr) == s
  {
    forall w ensures PairOf(WithPair(s, rr, w), rr) == w {
      PairReadBack(s, rr, w);
    }
    forall w ensures WithPair(WithPair(s, rr, w), rr, PairOf(s, rr)) == s {
      StepBackAndForth(s, rr, w);
    }
  }

  /// INC rr undoes DEC rr.
  lemma Dec16Inc16Inverse(s: CpuState, rr: Reg16)
    ensures Inc16On(Dec16On(s, rr), rr) == s
  {
    forall w ensures PairOf(WithPair(s, rr, w), rr) == w {
      PairReadBack(s, rr, w);
    }
    forall w ensures WithPair(WithPair(s, rr, w), rr, PairOf(s, rr)) == s {
      StepBackAndForth(s, rr, w);
    }
  }

  /// Setting a pair to any w and then back to its old value leaves the state
  /// as it was.
  lemma StepBackAndForth(s: CpuState, rr: Reg16, w: bv16)
    ensures WithPair(WithPair(s, rr, w), rr, PairOf(s, rr)) == s
  {
    PairOverwrite(s, rr, w, PairOf(s, rr));
    PairRewrite(s, rr);
  }

  /// Reading a pair right after setting it gives the value set.
  lemma PairReadBack(s: CpuState, rr: Reg16, v: bv16)
    ensures PairOf(WithPair(s, rr, v), rr) == v
  {
    MergeSplit(v);
    match rr
    case AF =>
    case BC =>
    case DE =>
    case HL =>
  }

  /// INC rr moves the pair up by one modulo 2^16.
  lemma Inc16Value(s: CpuState, rr: Reg16)
    ensures PairOf(Inc16On(s, rr), rr) == PairOf(s, rr) + 1
  {
    PairReadBack(s, rr, PairOf(s, rr) + 1);
  }

  /// DEC rr moves the pair down by one modulo 2^16.
  lemma Dec16Value(s: CpuState, rr: Reg16)
    ensures PairOf(Dec16On(s, rr), rr) == PairOf(s, rr) - 1
  {
    PairReadBack(s, rr, PairOf(s, rr) - 1);
  }

  /// For BC, DE and HL, INC rr and DEC rr leave the flags untouched (for AF
  /// the low byte is F itself).
  lemma Inc16Dec16KeepFlags(s: CpuState, rr: Reg16)
    requires rr != AF
    ensures Inc16On(s, rr).f == s.f && Dec16On(s, rr).f == s.f
  {
    forall w ensures WithPair(s, rr, w).f == s.f {
      PairKeepsF(s, rr, w);
    }
  }

  /// Only the pair AF holds F.
  lemma PairKeepsF(s: CpuState, rr: Reg16, v: bv16)
    requires rr != AF
    ensures WithPair(s, rr, v).f == s.f
  {
  }

  /// `add_nn_d16`: `set_reg_16` first, then the flags on F as it stands
  /// after that write.
  function AddPairOn(s: CpuState, rr: Reg16, source: bv16): CpuState
  {
    var target := PairOf(s, rr);
    var t := WithPair(s, rr, Alu.AddNN16(target, source, s.f).r);
    t.(f := Alu.AddNN16(target, source, t.f).f)
  }

  /// ADD rr,nn for BC, DE or HL: the pair holds the wrapped sum.
  lemma AddPairOnValue(s: CpuState, rr: Reg16, source: bv16)
    requires rr != AF
    ensures PairOf(AddPairOn(s, rr, source), rr) == PairOf(s, rr) + source
  {
    var w := Alu.AddNN16(PairOf(s, rr), source, s.f).r;
    assert w == PairOf(s, rr) + source;
    PairReadBack(s, rr, w);
  }

  /// ADD rr,nn for BC, DE or HL: F holds the flags `Alu.AddNN16` computes
  /// from the old F, since writing the pair leaves F alone.
  lemma AddPairOnFlags(s: CpuState, rr: Reg16, source: bv16)
    requires rr != AF
    ensures AddPairOn(s, rr, source).f == Alu.AddNN16(PairOf(s, rr), source, s.f).f
  {
    forall w ensures WithPair(s, rr, w).f == s.f {
      PairKeepsF(s, rr, w);
    }
  }

  /// ADD rr,nn never changes A.
  lemma AddPairOnKeepsA(s: CpuState, rr: Reg16, source: bv16)
    requires rr != AF
    ensures AddPairOn(s, rr, source).a == s.a
  {
  }

  /// `cp_a_d8`: only F changes.
  function CpOn(s: CpuState, val: bv8): CpuState
  {
    s.(f := Alu.Cp(s.a, val, s.f))
  }

  /// `test_bit`: only F changes.
  function TestBitOn(s: CpuState, v: bv8, digit: bv8): CpuState
    requires digit < 8
  {
    s.(f := Alu.TestBit(v, digit, s.f))
  }

  /// `write_bit_n`.
  function WriteBitOn(s: CpuState, r: Reg, digit: bv8, value: bool): CpuState
    requires digit < 8
  {
    WithReg(s, r, WriteBit(RegOf(s, r), digit, value))
  }

  /// `write_bit_ram`.
  function WriteBitRamOn(s: CpuState, addr: Addr, digit: bv8, value: bool): CpuState
    requires TotalMemory(s.mem) && digit < 8
  {
    Store(s, addr, WriteBit(Load(s, addr), digit, value))
  }

  /// Setting a bit in memory changes that bit of that cell and nothing
  /// else, and testing it afterwards clears Z exactly when it was set.
  lemma WriteBitRamThenTest(s: CpuState, addr: Addr, digit: bv8, value: bool)
    requires TotalMemory(s.mem) && digit < 8
    ensures var t := WriteBitRamOn(s, addr, digit, value);
      && GetBit(Load(t, addr), digit) == value
      && Load(t, addr) & !(1 << digit) == Load(s, addr) & !(1 << digit)
      && (forall other :: other != addr ==> Load(t, other) == Load(s, other))
      && Alu.GetFlag(TestBitOn(t, Load(t, addr), digit).f, Alu.Z) == !value
  {
    var t := WriteBitRamOn(s, addr, digit, value);
    Alu.TestBitSpec(Load(t, addr), digit, t.f);
  }

  /// The register pairs `Cpu::new` starts with: AF 0x01B0, BC 0x0013,
  /// DE 0x00D8, HL 0x014D; SP is 0xFFFE, where `pop` reports an empty stack.
  lemma BootPairs(bus: seq<bv8>)
    requires TotalMemory(bus)
    ensures var s := Boot(bus);
      && PairOf(s, AF) == 0x01B0 && PairOf(s, BC) == 0x0013
      && PairOf(s, DE) == 0x00D8 && PairOf(s, HL) == 0x014D
      && s.pc == 0x100 && PopOff(s).Err?
  {
  }

  // ---------------------------------------------------------------------
  // The CPU

  class Cpu {
    var pc: Addr
    var sp: Addr
    var a: bv8
    var b: bv8
    var c: bv8
    var d: bv8
    var e: bv8
    var f: bv8
    var h: bv8
    var l: bv8
    var mem: seq<bv8>

    function State(): CpuState
      reads this
    {
      CpuState(pc, sp, a, b, c, d, e, f, h, l, mem)
    }

    /// The bus answers every address.
    predicate Valid()
      reads this
    {
      TotalMemory(mem)
    }

    /// `Cpu::new`, over the bus contents `bus`: the boot registers, then
    /// the I/O registers written one by one.
    constructor (bus: seq<bv8>)
      requires TotalMemory(bus)
      ensures Valid() && State() == Boot(BootIo(bus))
    {
      sp, pc := 0xFFFE, 0x100;
      a, b, c, d, e, f, h, l := 0x01, 0x00, 0x13, 0x00, 0xD8, 0xB0, 0x01, 0x4D;
      mem := bus;
      new;
      InitTimerIo();
      InitChannels123Io();
      InitChannel4Io();
      InitLcdIo();
    }

    /// The writes of `Cpu::new` to the timer registers TIMA, TMA and TAC.
    method InitTimerIo()
      requires Valid()
      modifies this
      ensures Valid() && State() == old(State()).(mem := TimerIo(old(mem)))
    {
      WriteRam(0xFF05, 0x00);
      WriteRam(0xFF06, 0x00);
      WriteRam(0xFF07, 0x00);
    }

    /// The writes of `Cpu::new` to the registers of sound channels 1-3.
    method InitChannels123Io()
      requires Valid()
      modifies this
      ensures Valid() && State() == old(State()).(mem := Channels123Io(old(mem)))
    {
      WriteRam(0xFF10, 0x80);
      WriteRam(0xFF11, 0xBF);
      WriteRam(0xFF12, 0xF3);
      WriteRam(0xFF14, 0xBF);
      WriteRam(0xFF16, 0x3F);
      WriteRam(0xFF17, 0x00);
      WriteRam(0xFF19, 0xBF);
      WriteRam(0xFF1A, 0x7F);
      WriteRam(0xFF1B, 0xFF);
      WriteRam(0xFF1C, 0x9F);
      WriteRam(0xFF1E, 0xBF);
    }

    /// The writes of `Cpu::new` to sound channel 4 and the sound control
    /// registers.
    method InitChannel4Io()
      requires Valid()
      modifies this
      ensures Valid() && State() == old(State()).(mem := Channel4Io(old(mem)))
    {
      WriteRam(0xFF20, 0xFF);
      WriteRam(0xFF21, 0x00);
      WriteRam(0xFF22, 0x00);
      WriteRam(0xFF23, 0xBF);
      WriteRam(0xFF24, 0x77);
      WriteRam(0xFF25, 0xF3);
      WriteRam(0xFF26, 0xF1);
    }

    /// The writes of `Cpu::new` to the LCD registers and the VRAM bank.
    method InitLcdIo()
      requires Valid()
      modifies this
      ensures Valid() && State() == old(State()).(mem := LcdIo(old(mem)))
    {
      WriteRam(0xFF40, 0x91);
      WriteRam(0xFF42, 0x00);
      WriteRam(0xFF43, 0x00);
      WriteRam(0xFF45, 0x00);
      WriteRam(0xFF47, 0xFC);
      WriteRam(0xFF48, 0xFF);
      WriteRam(0xFF49, 0xFF);
      WriteRam(0xFF4A, 0x00);
      WriteRam(0xFF4B, 0x00);
      WriteRam(0xFF4F, 0x00);
    }

    // -- accessors

    /// `get_reg`.
    function GetReg(r: Reg): (v: bv8)
      reads this
      ensures v == RegOf(State(), r)
    {
      match r
      case A => a
      case B => b
      case C => c
      case D => d
      case E => e
      case F => f
      case H => h
      case L => l
    }

    /// `get_reg_16`.
    function GetReg16(rr: Reg16): (v: bv16)
      reads this
      ensures v == PairOf(State(), rr)
    {
      match rr
      case AF => MergeBytes(a, f)
      case BC => MergeBytes(b, c)
      case DE => MergeBytes(d, e)
      case HL => MergeBytes(h, l)
    }

    /// `get_flag`: whether the flag's bit of F is set.
    function GetFlag(fl: Alu.Flag): (v: bool)
      reads this
      ensures v <==> f & Alu.Mask(fl) != 0
    {
      match fl
      case Z => f & 0x80 != 0
      case N => f & 0x40 != 0
      case H => f & 0x20 != 0
      case C => f & 0x10 != 0
    }

    /// `get_pc`.
    function GetPc(): (v: Addr)
      reads this
      ensures v == State().pc
    {
      pc
    }

    /// `get_sp`.
    function GetSp(): (v: Addr)
      reads this
      ensures v == State().sp
    {
      sp
    }

    /// `read_ram`.
    function ReadRam(addr: Addr): (v: bv8)
      reads this
      requires Valid()
      ensures v == Load(State(), addr)
    {
      mem[addr]
    }

    // -- mutators

    /// `set_reg`.
    method SetReg(r: Reg, v: bv8)
      modifies this
      ensures State() == WithReg(old(State()), r, v)
    {
      match r
      case A => a := v;
      case B => b := v;
      case C => c := v;
      case D => d := v;
      case E => e := v;
      case F => f := v;
      case H => h := v;
      case L => l := v;
    }

    /// `set_reg_16`.
    method SetReg16(rr: Reg16, v: bv16)
      modifies this
      ensures State() == WithPair(old(State()), rr, v)
    {
      var high := HighByte(v);
      var low := LowByte(v);
      match rr
      case AF =>
        SetReg(A, high);
        SetReg(F, low);
      case BC =>
        SetReg(B, high);
        SetReg(C, low);
      case DE =>
        SetReg(D, high);
        SetReg(E, low);
      case HL =>
        SetReg(H, high);
        SetReg(L, low);
    }

    /// `set_pc`.
    method SetPc(v: Addr)
      modifies this
      ensures State() == old(State()).(pc := v)
    {
      pc := v;
    }

    /// `set_sp`.
    method SetSp(v: Addr)
      modifies this
      ensures State() == old(State()).(sp := v)
    {
      sp := v;
    }

    /// `write_ram`.
    method WriteRam(addr: Addr, v: bv8)
      requires Valid()
      modifies this
      ensures Valid() && State() == Store(old(State()), addr, v)
    {
      mem := mem[addr := v];
    }

    /// `set_flag`: `f |=` the flag's mask.
    method SetFlag(fl: Alu.Flag)
      modifies this
      ensures State() == old(State()).(f := Alu.SetFlag(old(f), fl))
    {
      match fl
      case Z => f := f | 0x80;
      case N => f := f | 0x40;
      case H => f := f | 0x20;
      case C => f := f | 0x10;
    }

    /// `clear_flag`: `f &=` the complement of the flag's mask.
    method ClearFlag(fl: Alu.Flag)
      modifies this
      ensures State() == old(State()).(f := Alu.ClearFlag(old(f), fl))
    {
      match fl
      case Z => f := f & 0x7F;
      case N => f := f & 0xBF;
      case H => f := f & 0xDF;
      case C => f := f & 0xEF;
    }

    /// `write_flag`.
    method WriteFlag(fl: Alu.Flag, v: bool)
      modifies this
      ensures State() == old(State()).(f := Alu.WriteFlag(old(f), fl, v))
    {
      if v {
        SetFlag(fl);
      } else {
        ClearFlag(fl);
      }
    }

    /// `fetch`.
    method Fetch() returns (val: bv8)
      requires Valid() && pc != 0xFFFF
      modifies this
      ensures Valid() && (val, State()) == FetchAt(old(State()))
    {
      var p := GetPc();
      val := ReadRam(p);
      pc := pc + 1;
    }

    /// `push`.
    method Push(v: bv16)
      requires Valid() && sp >= 2
      modifies this
      ensures Valid() && State() == PushOn(old(State()), v)
    {
      var s := GetSp() - 2;
      var high := HighByte(v);
      var low := LowByte(v);
      WriteRam(s + 1, high);
      WriteRam(s, low);
      SetSp(s);
    }

    /// `pop`; the empty-stack assertion is the error result, and the state
    /// is then left as it was.
    method Pop() returns (r: Result<bv16>)
      requires Valid() && sp != 0xFFFF
      modifies this
      ensures Valid()
      ensures PopOff(old(State())).Ok? ==>
        r == Ok(PopOff(old(State())).value.0) && State() == PopOff(old(State())).value.1
      ensures PopOff(old(State())).Err? ==> r.Err? && State() == old(State())
    {
      var s := GetSp();
      if s == 0xFFFE {
        return Err("Trying to pop when stack is empty");
      }
      var low := ReadRam(s);
      var high := ReadRam(s + 1);
      var word := MergeBytes(high, low);
      SetSp(s + 2);
      r := Ok(word);
    }

    /// `ld_n_d8`.
    method LdN(r: Reg, byte: bv8)
      modifies this
      ensures State() == WithReg(old(State()), r, byte)
    {
      SetReg(r, byte);
    }

    /// `ld_nn_d16`.
    method LdNN(rr: Reg16, val: bv16)
      modifies this
      ensures State() == WithPair(old(State()), rr, val)
    {
      SetReg16(rr, val);
    }

    // -- arithmetic
    //
    // The flag updates each instruction makes, in the source's order, are
    // the bodies of the `Alu` functions; the methods apply them to the
    // fields in the same order relative to `set_reg`.

    /// `add_a_d8`: the flags, then A.
    method AddA(val: bv8, adc: bool)
      modifies this
      ensures State() == FlagsThenReg(old(State()), A, Alu.AddA(old(a), val, old(f), adc))
    {
      var o := Alu.AddA(GetReg(A), val, f, adc);
      f := o.f;
      SetReg(A, o.r);
    }

    /// `sub_a_d8`: the flags, then A.
    method SubA(val: bv8, sbc: bool)
      modifies this
      ensures State() == FlagsThenReg(old(State()), A, Alu.SubA(old(a), val, old(f), sbc))
    {
      var o := Alu.SubA(GetReg(A), val, f, sbc);
      f := o.f;
      SetReg(A, o.r);
    }

    /// `cp_a_d8`: the flags only.
    method Cp(val: bv8)
      modifies this
      ensures State() == CpOn(old(State()), val)
    {
      f := Alu.Cp(GetReg(A), val, f);
    }

    /// `inc_8`: the register, then the flags on F as that write left it.
    method Inc8(r: Reg)
      modifies this
      ensures State() == Inc8On(old(State()), r)
    {
      var v := GetReg(r);
      SetReg(r, Alu.Inc8(v, f).r);
      f := Alu.Inc8(v, f).f;
    }

    /// `dec_8`: the register, then the flags.
    method Dec8(r: Reg)
      modifies this
      ensures State() == Dec8On(old(State()), r)
    {
      var v := GetReg(r);
      SetReg(r, Alu.Dec8(v, f).r);
      f := Alu.Dec8(v, f).f;
    }

    /// `inc_16`.
    method Inc16(rr: Reg16)
      modifies this
      ensures State() == Inc16On(old(State()), rr)
    {
      var v := GetReg16(rr);
      SetReg16(rr, v + 1);
    }

    /// `dec_16`.
    method Dec16(rr: Reg16)
      modifies this
      ensures State() == Dec16On(old(State()), rr)
    {
      var v := GetReg16(rr);
      SetReg16(rr, v - 1);
    }

    /// `add_nn_d16`: the pair, then the flags.
    method AddNN(rr: Reg16, source: bv16)
      modifies this
      ensures State() == AddPairOn(old(State()), rr, source)
    {
      var target := GetReg16(rr);
      SetReg16(rr, Alu.AddNN16(target, source, f).r);
      f := Alu.AddNN16(target, source, f).f;
    }

    /// `daa` as written, with its low-nibble test "below 9" (see
    /// `Alu.DaaAsWrittenMisadjusts`): the flags, then A.
    method Daa()
      modifies this
      ensures State() == FlagsThenReg(old(State()), A, Alu.Daa(old(a), old(f)))
    {
      var o := Alu.Daa(GetReg(A), f);
      f := o.f;
      SetReg(A, o.r);
    }

    // -- logic

    /// `and_a_d8`: the flags, then A.
    method And(val: bv8)
      modifies this
      ensures State() == FlagsThenReg(old(State()), A, Alu.And(old(a), val, old(f)))
    {
      var o := Alu.And(GetReg(A), val, f);
      f := o.f;
      SetReg(A, o.r);
    }

    /// `or_a_d8`: the flags, then A.
    method Or(val: bv8)
      modifies this
      ensures State() == FlagsThenReg(old(State()), A, Alu.Or(old(a), val, old(f)))
    {
      var o := Alu.Or(GetReg(A), val, f);
      f := o.f;
      SetReg(A, o.r);
    }

    /// `xor_a_d8`: the flags, then A.
    method Xor(val: bv8)
      modifies this
      ensures State() == FlagsThenReg(old(State()), A, Alu.Xor(old(a), val, old(f)))
    {
      var o := Alu.Xor(GetReg(A), val, f);
      f := o.f;
      SetReg(A, o.r);
    }

    // -- rotates, shifts, swap and bits

    /// `rot_left`: the flags change and the rotated byte is returned.
    method RotLeft(byte: bv8, carry: bool) returns (rot: bv8)
      modifies this
      ensures rot == Alu.RotLeft(byte, old(f), carry).r
      ensures State() == old(State()).(f := Alu.RotLeft(byte, old(f), carry).f)
    {
      var o := Alu.RotLeft(byte, f, carry);
      f := o.f;
      rot := o.r;
    }

    /// `rot_left_reg`: `rot_left`, then `set_reg`.
    method RotLeftReg(r: Reg, carry: bool)
      modifies this
      ensures State() == FlagsThenReg(old(State()), r, Alu.RotLeft(RegOf(old(State()), r), old(f), carry))
    {
      var v := GetReg(r);
      var rot := RotLeft(v, carry);
      SetReg(r, rot);
    }

    /// `rot_right`.
    method RotRight(byte: bv8, carry: bool) returns (rot: bv8)
      modifies this
      ensures rot == Alu.RotRight(byte, old(f), carry).r
      ensures State() == old(State()).(f := Alu.RotRight(byte, old(f), carry).f)
    {
      var o := Alu.RotRight(byte, f, carry);
      f := o.f;
      rot := o.r;
    }

    /// `rot_right_reg`.
    method RotRightReg(r: Reg, carry: bool)
      modifies this
      ensures State() == FlagsThenReg(old(State()), r, Alu.RotRight(RegOf(old(State()), r), old(f), carry))
    {
      var v := GetReg(r);
      var rot := RotRight(v, carry);
      SetReg(r, rot);
    }

    /// `shift_left`.
    method ShiftLeft(byte: bv8) returns (shifted: bv8)
      modifies this
      ensures shifted == Alu.ShiftLeft(byte, old(f)).r
      ensures State() == old(State()).(f := Alu.ShiftLeft(byte, old(f)).f)
    {
      var o := Alu.ShiftLeft(byte, f);
      f := o.f;
      shifted := o.r;
    }

    /// `shift_left_reg`.
    method ShiftLeftReg(r: Reg)
      modifies this
      ensures State() == FlagsThenReg(old(State()), r, Alu.ShiftLeft(RegOf(old(State()), r), old(f)))
    {
      var v := GetReg(r);
      var shifted := ShiftLeft(v);
      SetReg(r, shifted);
    }

    /// `shift_right`.
    method ShiftRight(byte: bv8, arith: bool) returns (shifted: bv8)
      modifies this
      ensures shifted == Alu.ShiftRight(byte, old(f), arith).r
      ensures State() == old(State()).(f := Alu.ShiftRight(byte, old(f), arith).f)
    {
      var o := Alu.ShiftRight(byte, f, arith);
      f := o.f;
      shifted := o.r;
    }

    /// `shift_right_reg`.
    method ShiftRightReg(r: Reg, arith: bool)
      modifies this
      ensures State() == FlagsThenReg(old(State()), r, Alu.ShiftRight(RegOf(old(State()), r), old(f), arith))
    {
      var v := GetReg(r);
      var shifted := ShiftRight(v, arith);
      SetReg(r, shifted);
    }

    /// `swap_bits`.
    method SwapBits(val: bv8) returns (swapped: bv8)
      modifies this
      ensures swapped == Alu.Swap(val, old(f)).r
      ensures State() == old(State()).(f := Alu.Swap(val, old(f)).f)
    {
      var o := Alu.Swap(val, f);
      f := o.f;
      swapped := o.r;
    }

    /// `swap_bits_reg`.
    method SwapBitsReg(r: Reg)
      modifies this
      ensures State() == FlagsThenReg(old(State()), r, Alu.Swap(RegOf(old(State()), r), old(f)))
    {
      var v := GetReg(r);
      var swapped := SwapBits(v);
      SetReg(r, swapped);
    }

    /// `test_bit`; `get_bit` with a digit of 8 or more would overflow the
    /// shift.
    method TestBit(val: bv8, digit: bv8)
      requires digit < 8
      modifies this
      ensures State() == TestBitOn(old(State()), val, digit)
    {
      var bit := GetBit(val, digit);
      f := Alu.WriteFlag(f, Alu.Z, !bit);
      f := Alu.ClearFlag(f, Alu.N);
      f := Alu.SetFlag(f, Alu.H);
    }

    /// `test_bit_reg`.
    method TestBitReg(r: Reg, digit: bv8)
      requires digit < 8
      modifies this
      ensures State() == TestBitOn(old(State()), RegOf(old(State()), r), digit)
    {
      var v := GetReg(r);
      TestBit(v, digit);
    }

    /// `write_bit_n`.
    method WriteBitN(r: Reg, digit: bv8, value: bool)
      requires digit < 8
      modifies this
      ensures State() == WriteBitOn(old(State()), r, digit, value)
    {
      var v := GetReg(r);
      v := WriteBit(v, digit, value);
      SetReg(r, v);
    }

    /// `write_bit_ram`.
    method WriteBitRam(addr: Addr, digit: bv8, value: bool)
      requires Valid() && digit < 8
      modifies this
      ensures Valid() && State() == WriteBitRamOn(old(State()), addr, digit, value)
    {
      var v := ReadRam(addr);
      v := WriteBit(v, digit, value);
      WriteRam(addr, v);
    }
  }
}
