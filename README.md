# agba core in Dafny

This project models the core of agba, a Game Boy / Game Boy Color emulator,
and proves properties of the model. It covers:

- the SM83 CPU's registers, flags, stack and ALU instructions;
- the DIV/TIMA timer;
- the cartridge, with its MBC1 banking controller;
- the PPU: its clock, sprites, register getters, the VRAM write gate,
  scanline rendering, sprite drawing and the RGBA conversion;
- the colour palettes;
- the joypad register.

Each source file is one module:

| module | file | models |
|---|---|---|
| `Utils` | `utils.dfy` | byte/word helpers the core calls (`merge_bytes`, `unpack_u8`, `write_bit`, the half-carry checks, Rust's `overflowing_*`) |
| `Alu` | `alu.dfy` | the arithmetic and flag logic of the CPU instructions, as functions of A, the operand and F |
| `CpuCore` | `cpu.dfy` | `Cpu`: the register file, PC, SP, the bus, and every instruction helper of `cpu/mod.rs` |
| `CpuTimer` | `timer.dfy` | `Timer`: DIV, TIMA, TMA, TAC and the overflow cooldown |
| `Cartridge` | `cartridge.dfy` | `Cart`: loading, the header, ROM/RAM reads, and the MBC1 controller |
| `PpuClock` | `clock.dfy` | `Clock`: the mode/line state machine of the PPU |
| `OamSprite` | `sprite.dfy` | `Sprite`: one OAM entry, its raw bytes and parsed fields |
| `Tiles` | `tile.dfy` | the 8x8 two-bit tile |
| `Ppu` | `ppu.dfy` | `Ppu`: VRAM, the frame buffer, the decoded tiles and sprites |
| `Palettes` | `palette.dfy` | the system palettes and the CGB colour conversion |
| `Joypad` | `joypad.dfy` | `IO`: the eight buttons and the group selection |

Pure code in the source becomes functions and lemmas. Objects whose methods
update fields become classes. Each class has a `State()` function giving its
fields as a datatype value. Each method's `ensures` ties the new `State()` to
a specification function of the old one, and lemmas prove what the source
promises about that function. Loops in the source stay loops, with
invariants:

- the T-cycle loop of `tick`;
- the byte-push loop of `load_cart`;
- the `pixel_row` and copy loops of `render_scanline`;
- the row and column loops of `draw_spr`;
- the three loops of `get_color`;
- the bit loops of `pack_btn_keys` and `pack_dir_keys`.

Conventions:

- Bytes are `bv8` and words `bv16`, so wrap-around is native.
- Shifts, masks and flag bits are written as in the source.
- An explicit panic in the source (`panic!`, `assert_ne!`, `unreachable!`) becomes an error result.
- An implicit Rust panic (an index out of bounds, an overflowing `+`) becomes a precondition.

Some divergences from the Game Boy hardware are modelled as written, and a
lemma exhibits each one:

- The timer's enable bit is TAC bit 3, where the hardware uses bit 2 (`CpuTimer.DisabledNeverCounts` is stated for that bit).
- MBC1 puts the two upper ROM-bank bits at bit 4, where the bank-select write already put its value (`Cartridge.Mbc1UpperBitsOverlap`).
- `cp_a_d8` never sets N (`Alu.CpFlags`, `Alu.CpIsSubFlags`).
- `is_onscreen` joins the X and Y tests with `||` (`OamSprite.OnscreenIsDisjunction`).
- `write_vram` hands the raw address (0x8000 and up) to the mode gate, which tests offset addresses, so no write is ever refused (`Ppu.RawAddressGateAcceptsAll`).
- `reset_line` during VBLANK leaves the clock in VBLANK on line 0 (`PpuClock.ResetLineBreaksInv`). A weaker bound, line at most 153 and below 143 outside VBLANK, survives both `clock_step` and `reset_line` and still rules out the line counter's overflow (`PpuClock.StepLineBound`, `PpuClock.ResetLineBound`, `PpuClock.LineBoundFits`).

The test `test_stack` in `tests/cpu_tests.rs` expects stack addresses that
disagree with the code of `push`. The model follows the code.

## Model

| member | source | states |
|---|---|---|
| `Utils.MergeBytes` | core/src/cpu/mod.rs:392-415 | the merged word has `high` as its high byte and `low` as its low byte |
| `Utils.MergeSplit` | core/src/cpu/mod.rs:392-415 | merging a word's two bytes gives the word back |
| `Utils.WriteBit` | core/src/cpu/mod.rs:946-950 | bit `digit` takes the value and every other bit is kept |
| `Utils.Unpack` | core/src/ppu/mod.rs:451-453 | a palette register splits into four shades, each at most 3 |
| `Utils.UnpackPack` | core/src/ppu/mod.rs:451-453 | the four fields re-pack into the register, so unpacking loses nothing |
| `Utils.HCarry8` | core/src/cpu/mod.rs:179-197 | the half carry is set exactly when the low nibbles sum to 16 or more |
| `Utils.HBorrow8` | core/src/cpu/mod.rs:262-269 | the half borrow is set exactly when the subtrahend's low nibble exceeds the minuend's |
| `Utils.HCarry16` | core/src/cpu/mod.rs:208-217 | the 16-bit half carry is set exactly when the low 12 bits carry out of bit 11 |
| `Utils.OverflowingAdd8` | core/src/cpu/mod.rs:179-197 | the wrapped sum is the true sum modulo 256, and the flag is set exactly when the true sum exceeds 0xFF |
| `Utils.OverflowingSub8` | core/src/cpu/mod.rs:841-859 | the wrapped difference plus the subtrahend gives back the minuend, and the flag is set exactly when the subtrahend exceeds the minuend |
| `Utils.OverflowingAdd16` | core/src/cpu/mod.rs:208-217 | the wrapped sum is the true sum modulo 2^16, and the flag is set exactly when the wrapped sum falls below the first operand, that is, when the true sum exceeds 0xFFFF |
| `Alu.SetFlag` | core/src/cpu/mod.rs:663-670 | the flag's bit is set and no other bit changes |
| `Alu.ClearFlag` | core/src/cpu/mod.rs:245-252 | the flag's bit is cleared and no other bit changes |
| `Alu.WriteFlag` | core/src/cpu/mod.rs:977-983 | the flag reads back as the value written and the other bits are kept |
| `Alu.CarryIn` | core/src/cpu/mod.rs:179-197 | the carry operand is 1 exactly for ADC/SBC with C set, otherwise 0 |
| `Alu.AddA` | core/src/cpu/mod.rs:179-197 | `add_a_d8`'s result and flags; their meaning is stated by `Alu.AddAValue`, `Alu.AddAResult`, `Alu.AddACarry` and `Alu.AddAFlags` |
| `Alu.AddAValue` | core/src/cpu/mod.rs:179-197 | ADD/ADC leaves A + val + carry modulo 256, and C says the true sum exceeds 255 |
| `Alu.AddAResult` | core/src/cpu/mod.rs:179-197 | the new A is the three-operand sum modulo 256 |
| `Alu.AddACarry` | core/src/cpu/mod.rs:179-197 | C is set exactly when the three-operand sum exceeds 255 |
| `Alu.AddAFlags` | core/src/cpu/mod.rs:179-197 | H is the carry out of bit 3 of the three-operand sum, Z says A is 0, N is cleared, and F's low nibble is kept |
| `Alu.SubA` | core/src/cpu/mod.rs:841-859 | `sub_a_d8`'s result and flags; stated by `Alu.SubAValue`, `Alu.SubAResult`, `Alu.SubACarry` and `Alu.SubAFlags` |
| `Alu.SubAValue` | core/src/cpu/mod.rs:841-859 | SUB/SBC leaves A - val - carry modulo 256, and C says val + carry exceeds A |
| `Alu.SubAResult` | core/src/cpu/mod.rs:841-859 | the new A is the difference modulo 256 |
| `Alu.SubACarry` | core/src/cpu/mod.rs:841-859 | C is set exactly when val + carry exceeds A |
| `Alu.SubAFlags` | core/src/cpu/mod.rs:841-859 | H is the borrow from bit 4, Z says A is 0, N is set, and F's low nibble is kept |
| `Alu.Cp` | core/src/cpu/mod.rs:262-269 | `cp_a_d8`'s flags; stated by `Alu.CpFlags` and compared with SUB by `Alu.CpIsSubFlags` |
| `Alu.CpFlags` | core/src/cpu/mod.rs:262-269 | CP: Z says A equals val, C says A is below val, H is the half borrow, and N is left as it was |
| `Alu.CpIsSubFlags` | core/src/cpu/mod.rs:262-269 | CP sets Z, H and C as a carry-less SUB of the same operands would; only N differs |
| `Alu.Inc8` | core/src/cpu/mod.rs:449-458 | `inc_8`'s value and flags; stated by `Alu.Inc8Spec`, undone by `Alu.Dec8` (`Alu.IncDecInverse`) |
| `Alu.Inc8Spec` | core/src/cpu/mod.rs:449-458 | INC gives v + 1 modulo 256; Z says v was 0xFF, H says its low nibble was 0xF, N is cleared, and C is kept |
| `Alu.Dec8` | core/src/cpu/mod.rs:312-321 | `dec_8`'s value and flags; stated by `Alu.Dec8Spec`, `Alu.Dec8Value` and `Alu.Dec8Rest` |
| `Alu.Dec8Spec` | core/src/cpu/mod.rs:312-321 | DEC gives v - 1 modulo 256; Z says v was 1, H says its low nibble was 0, N is set, and C is kept |
| `Alu.Dec8Value` | core/src/cpu/mod.rs:312-321 | the decremented byte plus 1 is the original byte |
| `Alu.Dec8Rest` | core/src/cpu/mod.rs:312-321 | DEC keeps C and the low nibble of F |
| `Alu.IncDecInverse` | core/src/cpu/mod.rs:312-321 | DEC undoes INC and INC undoes DEC, whatever the flags |
| `Alu.AddNN16` | core/src/cpu/mod.rs:208-217 | `add_nn_d16`'s sum and flags; stated by `Alu.AddNN16Spec` |
| `Alu.AddNN16Spec` | core/src/cpu/mod.rs:208-217 | ADD rr,nn gives the sum modulo 2^16; C says the true sum exceeds 0xFFFF, H is the carry out of bit 11, N is cleared, and Z is kept |
| `Alu.And` | core/src/cpu/mod.rs:227-235 | `and_a_d8`'s result and flags; stated by `Alu.AndSpec` |
| `Alu.AndSpec` | core/src/cpu/mod.rs:227-235 | AND: Z says the operands share no set bit; H is set, N and C are cleared |
| `Alu.Or` | core/src/cpu/mod.rs:508-516 | `or_a_d8`'s result and flags; stated by `Alu.OrSpec` |
| `Alu.OrSpec` | core/src/cpu/mod.rs:508-516 | OR: Z says both operands are 0; N, H and C are cleared |
| `Alu.Xor` | core/src/cpu/mod.rs:1006-1014 | `xor_a_d8`'s result and flags; stated by `Alu.XorSpec`, `Alu.XorZero` and `Alu.XorRest` |
| `Alu.XorSpec` | core/src/cpu/mod.rs:1006-1014 | XOR: Z says the operands are equal; N, H and C are cleared |
| `Alu.XorZero` | core/src/cpu/mod.rs:1006-1014 | the XOR result is 0 exactly when the operands are equal |
| `Alu.XorRest` | core/src/cpu/mod.rs:1006-1014 | XOR clears N, H and C and keeps the low nibble of F |
| `Alu.RotLeft` | core/src/cpu/mod.rs:598-611 | `rot_left`'s byte and flags; stated by `Alu.RotLeftSpec`, undone by `Alu.RotRight` (`Alu.RotateInverse`) |
| `Alu.RotLeftSpec` | core/src/cpu/mod.rs:598-611 | RL/RLC move bits 0-6 up; bit 0 gets old C (RL) or old bit 7 (RLC); C gets old bit 7; Z says the result is 0 |
| `Alu.RotRight` | core/src/cpu/mod.rs:640-653 | `rot_right`'s byte and flags; stated by `Alu.RotRightSpec` |
| `Alu.RotRightSpec` | core/src/cpu/mod.rs:640-653 | RR/RRC move bits 1-7 down; bit 7 gets old C (RR) or old bit 0 (RRC); C gets old bit 0; Z says the result is 0 |
| `Alu.RotateInverse` | core/src/cpu/mod.rs:598-653 | a carry-less rotate left then right restores the byte |
| `Alu.ShiftLeft` | core/src/cpu/mod.rs:775-785 | `shift_left`'s byte and flags; stated by `Alu.ShiftLeftSpec` |
| `Alu.ShiftLeftSpec` | core/src/cpu/mod.rs:775-785 | SLA moves bits 0-6 up, bit 0 becomes 0, and C gets old bit 7 |
| `Alu.ShiftRight` | core/src/cpu/mod.rs:814-830 | `shift_right`'s byte and flags; stated by `Alu.ShiftRightSpec` |
| `Alu.ShiftRightSpec` | core/src/cpu/mod.rs:814-830 | SRA/SRL move bits 1-7 down and C gets old bit 0; bit 7 keeps the sign (SRA) or becomes 0 (SRL) |
| `Alu.Swap` | core/src/cpu/mod.rs:886-897 | `swap_bits`' byte and flags; stated by `Alu.SwapSpec` and `Alu.SwapInvolution` |
| `Alu.SwapSpec` | core/src/cpu/mod.rs:886-897 | SWAP exchanges the nibbles; Z says the byte is 0; N, H and C are cleared |
| `Alu.SwapInvolution` | core/src/cpu/mod.rs:886-897 | swapping twice gives the byte back |
| `Alu.TestBit` | core/src/cpu/mod.rs:928-934 | `test_bit`'s flags; stated by `Alu.TestBitSpec` |
| `Alu.TestBitSpec` | core/src/cpu/mod.rs:928-934 | BIT: Z is the complement of the chosen bit, N is cleared, H is set, and C is kept |
| `Alu.Daa` | core/src/cpu/mod.rs:278-302 | `daa` as written; its flags are stated by `Alu.DaaFlags`, and its misadjustment is exhibited by `Alu.DaaAsWrittenMisadjusts` |
| `Alu.DaaCorrected` | core/src/cpu/mod.rs:278-302 | `daa` with the low-nibble test "above 9"; proved against the independent BCD arithmetic by `Alu.AddDaaIsBcdAdd` and `Alu.SubDaaIsBcdSub` |
| `Alu.DaaFlags` | core/src/cpu/mod.rs:278-302 | both DAA versions: Z says the adjusted A is 0, H is cleared, N is kept, and C is set after a high correction on addition and kept otherwise |
| `Alu.DaaSameAfterSub` | core/src/cpu/mod.rs:278-302 | after a subtraction the as-written and corrected DAA agree |
| `Alu.BcdClosed` | core/src/cpu/mod.rs:278-302 | the BCD sum and difference of two BCD bytes are BCD |
| `Alu.BcdSubAdd` | core/src/cpu/mod.rs:278-302 | adding the BCD difference back to the subtrahend gives the minuend |
| `Alu.DaaAdjustsSum` | core/src/cpu/mod.rs:278-302 | the corrected DAA on the binary sum of two BCD bytes gives their BCD sum and its carry |
| `Alu.DaaSumValue` | core/src/cpu/mod.rs:278-302 | the corrected DAA after an addition gives the BCD sum's digits |
| `Alu.DaaSumCarry` | core/src/cpu/mod.rs:278-302 | the corrected DAA after an addition sets C exactly when the BCD sum overflows 99 |
| `Alu.DaaAdjustsDifference` | core/src/cpu/mod.rs:278-302 | DAA on the binary difference of two BCD bytes gives their BCD difference and its borrow |
| `Alu.DaaDiffValue` | core/src/cpu/mod.rs:278-302 | DAA after a subtraction gives the BCD difference's digits |
| `Alu.DaaDiffCarry` | core/src/cpu/mod.rs:278-302 | DAA after a subtraction leaves C set exactly when the subtrahend exceeds the minuend |
| `Alu.AddDaaIsBcdAdd` | core/src/cpu/mod.rs:179-302 | ADD of two BCD bytes followed by the corrected DAA is BCD addition, value and carry |
| `Alu.SubDaaIsBcdSub` | core/src/cpu/mod.rs:278-302 | SUB of two BCD bytes followed by DAA is BCD subtraction, value and borrow |
| `Alu.DaaAsWrittenMisadjusts` | core/src/cpu/mod.rs:278-302 | as written, 0x01 + 0x01 then DAA gives 0x08; the corrected version gives 0x02 |
| `CpuCore.RegOf` | core/src/cpu/mod.rs:368-379 | `get_reg`'s register; read back after a write by `CpuCore.WithRegSpec` |
| `CpuCore.WithReg` | core/src/cpu/mod.rs:681-692 | `set_reg`'s new state; stated by `CpuCore.WithRegSpec` and `CpuCore.WithRegSame` |
| `CpuCore.WithRegSpec` | core/src/cpu/mod.rs:681-692 | after `set_reg(r, v)`, r holds v and no other register, pointer or memory cell changes |
| `CpuCore.WithRegSame` | core/src/cpu/mod.rs:681-692 | writing a register's own value back changes nothing |
| `CpuCore.PairOf` | core/src/cpu/mod.rs:392-415 | `get_reg_16`'s merged pair; stated by `CpuCore.PairsPartition` and `CpuCore.PairReadBack` |
| `CpuCore.PairsPartition` | core/src/cpu/mod.rs:392-415 | a pair's halves are different registers and no register belongs to two pairs |
| `CpuCore.WithPair` | core/src/cpu/mod.rs:703-724 | `set_reg_16`'s new state; stated by `CpuCore.PairRoundTrip`, `CpuCore.PairOther`, `CpuCore.PairRewrite`, `CpuCore.PairOverwrite` and `CpuCore.PairKeepsF` |
| `CpuCore.PairRoundTrip` | core/src/cpu/mod.rs:703-724 | a pair reads back as set: high byte in A/B/D/H, low byte in F/C/E/L, and nothing outside the pair changes |
| `CpuCore.PairOther` | core/src/cpu/mod.rs:703-724 | setting one pair leaves every other pair's value alone |
| `CpuCore.PairRewrite` | core/src/cpu/mod.rs:703-724 | writing a pair's own value back changes nothing |
| `CpuCore.PairOverwrite` | core/src/cpu/mod.rs:703-724 | a second write to a pair undoes the first completely |
| `CpuCore.StepBackAndForth` | core/src/cpu/mod.rs:703-724 | setting a pair to any value and back to its old value restores the state |
| `CpuCore.PairReadBack` | core/src/cpu/mod.rs:392-415 | `get_reg_16` right after `set_reg_16` gives the value set |
| `CpuCore.PairKeepsF` | core/src/cpu/mod.rs:703-724 | only AF holds F |
| `CpuCore.Store` | core/src/cpu/mod.rs:994-996 | `write_ram` changes exactly one cell, to the value written |
| `CpuCore.FetchAt` | core/src/cpu/mod.rs:151-156 | `fetch`'s byte and new PC; stated by `CpuCore.FetchTwice` |
| `CpuCore.FetchTwice` | core/src/cpu/mod.rs:151-156 | consecutive fetches read consecutive addresses and change only PC, by 2 |
| `CpuCore.PopOff` | core/src/cpu/mod.rs:527-537 | `pop` fails exactly on the empty stack (SP = 0xFFFE) |
| `CpuCore.PushOn` | core/src/cpu/mod.rs:547-554 | `push`'s new state; stated by `CpuCore.PushStores`, undone by `CpuCore.PopOff` (`CpuCore.PushPop`, `CpuCore.PopPush`) |
| `CpuCore.PushStores` | core/src/cpu/mod.rs:547-554 | `push` lowers SP by 2, puts the low byte at the new SP and the high byte above it, and changes nothing else |
| `CpuCore.PushPop` | core/src/cpu/mod.rs:527-554 | `pop` after `push(v)` returns v and restores SP |
| `CpuCore.PopPush` | core/src/cpu/mod.rs:527-554 | `push` of what `pop` returned restores the whole state |
| `CpuCore.FlagsThenReg` | core/src/cpu/mod.rs:179-197 | the flags-then-register order of the ALU instructions; stated by `CpuCore.FlagsThenRegSpec` and `CpuCore.FlagsThenRegFrame` |
| `CpuCore.FlagsThenRegSpec` | core/src/cpu/mod.rs:179-197 | the target register gets the result; F gets the new flags unless F is the target |
| `CpuCore.FlagsThenRegFrame` | core/src/cpu/mod.rs:179-197 | an ALU instruction changes only its target register and F |
| `CpuCore.Inc8On` | core/src/cpu/mod.rs:449-458 | `inc_8`'s register-then-flags update; stated by `CpuCore.Inc8OnSpec` |
| `CpuCore.Inc8OnSpec` | core/src/cpu/mod.rs:449-458 | INC r stores r + 1 with `Alu.Inc8`'s flags; for r = F, the flag updates land on the incremented F |
| `CpuCore.Dec8On` | core/src/cpu/mod.rs:312-321 | `dec_8`'s register-then-flags update; stated by `CpuCore.Dec8OnSpec`, and undoes `CpuCore.Inc8On` by `CpuCore.Inc8Dec8Restores` |
| `CpuCore.Dec8OnSpec` | core/src/cpu/mod.rs:312-321 | DEC r stores r - 1 with `Alu.Dec8`'s flags; for r = F, the flag updates land on the decremented F |
| `CpuCore.Inc8Dec8Restores` | core/src/cpu/mod.rs:449-458 | INC then DEC of a register other than F restores its value |
| `CpuCore.Inc16Dec16Inverse` | core/src/cpu/mod.rs:468-472 | DEC rr undoes INC rr on the whole state |
| `CpuCore.Dec16Inc16Inverse` | core/src/cpu/mod.rs:331-335 | INC rr undoes DEC rr on the whole state |
| `CpuCore.Inc16Value` | core/src/cpu/mod.rs:468-472 | INC rr adds one to the pair modulo 2^16 |
| `CpuCore.Dec16Value` | core/src/cpu/mod.rs:331-335 | DEC rr subtracts one from the pair modulo 2^16 |
| `CpuCore.Inc16Dec16KeepFlags` | core/src/cpu/mod.rs:468-472 | INC rr and DEC rr on BC, DE or HL leave F alone |
| `CpuCore.AddPairOn` | core/src/cpu/mod.rs:208-217 | `add_nn_d16`'s pair-then-flags update; stated by `CpuCore.AddPairOnValue`, `CpuCore.AddPairOnFlags` and `CpuCore.AddPairOnKeepsA` |
| `CpuCore.AddPairOnValue` | core/src/cpu/mod.rs:208-217 | ADD rr,nn leaves the wrapped sum in the pair |
| `CpuCore.AddPairOnFlags` | core/src/cpu/mod.rs:208-217 | ADD rr,nn on BC, DE or HL leaves in F the flags `Alu.AddNN16` computes |
| `CpuCore.AddPairOnKeepsA` | core/src/cpu/mod.rs:208-217 | ADD rr,nn on BC, DE or HL never changes A |
| `CpuCore.WriteBitRamThenTest` | core/src/cpu/mod.rs:962-966 | setting a bit in memory changes only that bit of that cell, and BIT on it then clears Z exactly when it was set |
| `CpuCore.BootPairs` | core/src/cpu/mod.rs:58-111 | the CPU starts with AF 0x01B0, BC 0x0013, DE 0x00D8, HL 0x014D, PC 0x100, and an empty stack |
| `CpuCore.TimerIo` | core/src/cpu/mod.rs:78-80 | the three timer-register writes of `new` keep the bus total |
| `CpuCore.Channels123Io` | core/src/cpu/mod.rs:81-91 | the sound channel 1-3 writes of `new` keep the bus total |
| `CpuCore.Channel4Io` | core/src/cpu/mod.rs:92-98 | the sound channel 4 and sound control writes of `new` keep the bus total |
| `CpuCore.LcdIo` | core/src/cpu/mod.rs:99-108 | the LCD register writes of `new` keep the bus total |
| `CpuCore.BootIo` | core/src/cpu/mod.rs:78-108 | the bus after all 31 writes, in order; stated cell by cell by `CpuCore.BootIoTable` |
| `CpuCore.BootIoTable` | core/src/cpu/mod.rs:78-108 | after the boot writes each address of `BOOT_IO` holds its value and every other address keeps the bus's byte |
| `CpuCore.BootIoLcdAndSound` | core/src/cpu/mod.rs:78-108 | LCDC starts at 0x91, BGP at 0xFC, OBP0 and OBP1 at 0xFF, and NR52 at 0xF1 |
| `CpuCore.BootIoBelowIo` | core/src/cpu/mod.rs:78-108 | the boot writes leave every address below 0xFF00 unchanged |
| `CpuCore.Cpu.constructor` | core/src/cpu/mod.rs:58-111 | `new` gives the boot registers over the bus after the 31 I/O writes, `Boot(BootIo(bus))` |
| `CpuCore.Cpu.InitTimerIo` | core/src/cpu/mod.rs:78-80 | the bus becomes `TimerIo` of the old one, through `write_ram` |
| `CpuCore.Cpu.InitChannels123Io` | core/src/cpu/mod.rs:81-91 | the bus becomes `Channels123Io` of the old one, through `write_ram` |
| `CpuCore.Cpu.InitChannel4Io` | core/src/cpu/mod.rs:92-98 | the bus becomes `Channel4Io` of the old one, through `write_ram` |
| `CpuCore.Cpu.InitLcdIo` | core/src/cpu/mod.rs:99-108 | the bus becomes `LcdIo` of the old one, through `write_ram` |
| `CpuCore.Cpu.GetReg` | core/src/cpu/mod.rs:368-379 | the register's value in the state |
| `CpuCore.Cpu.GetReg16` | core/src/cpu/mod.rs:392-415 | the pair's value: high register, then low register |
| `CpuCore.Cpu.GetFlag` | core/src/cpu/mod.rs:348-355 | the flag is set exactly when its bit of F is |
| `CpuCore.Cpu.GetPc` | core/src/cpu/mod.rs:425-427 | the program counter |
| `CpuCore.Cpu.GetSp` | core/src/cpu/mod.rs:437-439 | the stack pointer |
| `CpuCore.Cpu.ReadRam` | core/src/cpu/mod.rs:567-569 | the bus byte at the address |
| `CpuCore.Cpu.SetReg` | core/src/cpu/mod.rs:681-692 | the new state is the old one with the register replaced |
| `CpuCore.Cpu.SetReg16` | core/src/cpu/mod.rs:703-724 | the new state is the old one with the pair replaced |
| `CpuCore.Cpu.SetPc` | core/src/cpu/mod.rs:734-736 | only PC changes |
| `CpuCore.Cpu.SetSp` | core/src/cpu/mod.rs:746-748 | only SP changes |
| `CpuCore.Cpu.WriteRam` | core/src/cpu/mod.rs:994-996 | the new state is `Store` of the old one |
| `CpuCore.Cpu.SetFlag` | core/src/cpu/mod.rs:663-670 | only F changes, by `Alu.SetFlag` |
| `CpuCore.Cpu.ClearFlag` | core/src/cpu/mod.rs:245-252 | only F changes, by `Alu.ClearFlag` |
| `CpuCore.Cpu.WriteFlag` | core/src/cpu/mod.rs:977-983 | only F changes, by `Alu.WriteFlag` |
| `CpuCore.Cpu.Fetch` | core/src/cpu/mod.rs:151-156 | returns the byte at PC and advances PC |
| `CpuCore.Cpu.Push` | core/src/cpu/mod.rs:547-554 | the new state is the push of the value |
| `CpuCore.Cpu.Pop` | core/src/cpu/mod.rs:527-537 | returns the popped word and the popped state; on the empty stack, an error and no change |
| `CpuCore.Cpu.LdN` | core/src/cpu/mod.rs:483-485 | the register is loaded with the byte |
| `CpuCore.Cpu.LdNN` | core/src/cpu/mod.rs:496-498 | the pair is loaded with the word |
| `CpuCore.Cpu.AddA` | core/src/cpu/mod.rs:179-197 | A and F take `Alu.AddA`'s result and flags |
| `CpuCore.Cpu.SubA` | core/src/cpu/mod.rs:841-859 | A and F take `Alu.SubA`'s result and flags |
| `CpuCore.Cpu.Cp` | core/src/cpu/mod.rs:262-269 | only F changes, to the CP flags |
| `CpuCore.Cpu.Inc8` | core/src/cpu/mod.rs:449-458 | the new state is INC of the register |
| `CpuCore.Cpu.Dec8` | core/src/cpu/mod.rs:312-321 | the new state is DEC of the register |
| `CpuCore.Cpu.Inc16` | core/src/cpu/mod.rs:468-472 | the new state is INC of the pair |
| `CpuCore.Cpu.Dec16` | core/src/cpu/mod.rs:331-335 | the new state is DEC of the pair |
| `CpuCore.Cpu.AddNN` | core/src/cpu/mod.rs:208-217 | the new state is the pair ADD |
| `CpuCore.Cpu.Daa` | core/src/cpu/mod.rs:278-302 | F, then A, take the result of DAA as written (`Alu.Daa`, low-nibble test "below 9"), whose flags `Alu.DaaFlags` states |
| `CpuCore.Cpu.And` | core/src/cpu/mod.rs:227-235 | A and F take `Alu.And`'s result and flags |
| `CpuCore.Cpu.Or` | core/src/cpu/mod.rs:508-516 | A and F take `Alu.Or`'s result and flags |
| `CpuCore.Cpu.Xor` | core/src/cpu/mod.rs:1006-1014 | A and F take `Alu.Xor`'s result and flags |
| `CpuCore.Cpu.RotLeft` | core/src/cpu/mod.rs:598-611 | returns the rotated byte; only F changes |
| `CpuCore.Cpu.RotLeftReg` | core/src/cpu/mod.rs:580-584 | the register and F take the rotate's result and flags |
| `CpuCore.Cpu.RotRight` | core/src/cpu/mod.rs:640-653 | returns the rotated byte; only F changes |
| `CpuCore.Cpu.RotRightReg` | core/src/cpu/mod.rs:622-626 | the register and F take the rotate's result and flags |
| `CpuCore.Cpu.ShiftLeft` | core/src/cpu/mod.rs:775-785 | returns the shifted byte; only F changes |
| `CpuCore.Cpu.ShiftLeftReg` | core/src/cpu/mod.rs:758-762 | the register and F take the shift's result and flags |
| `CpuCore.Cpu.ShiftRight` | core/src/cpu/mod.rs:814-830 | returns the shifted byte; only F changes |
| `CpuCore.Cpu.ShiftRightReg` | core/src/cpu/mod.rs:796-800 | the register and F take the shift's result and flags |
| `CpuCore.Cpu.SwapBits` | core/src/cpu/mod.rs:886-897 | returns the swapped byte; only F changes |
| `CpuCore.Cpu.SwapBitsReg` | core/src/cpu/mod.rs:869-873 | the register and F take the swap's result and flags |
| `CpuCore.Cpu.TestBit` | core/src/cpu/mod.rs:928-934 | only F changes, to the BIT flags |
| `CpuCore.Cpu.TestBitReg` | core/src/cpu/mod.rs:914-917 | BIT on the register's value |
| `CpuCore.Cpu.WriteBitN` | core/src/cpu/mod.rs:946-950 | only the register's bit changes |
| `CpuCore.Cpu.WriteBitRam` | core/src/cpu/mod.rs:962-966 | only the memory cell's bit changes |
| `CpuTimer.TimaPeriod` | core/src/cpu/timer.rs:36-44 | `get_tima_period`'s mask; stated by `CpuTimer.PeriodIsSelectedBit` |
| `CpuTimer.SelectedBit` | core/src/cpu/timer.rs:36-44 | TAC bits 0-1 select divider bit 9, 3, 5 or 7 |
| `CpuTimer.PeriodIsSelectedBit` | core/src/cpu/timer.rs:36-44 | the period mask is exactly the selected bit |
| `CpuTimer.FallingEdge` | core/src/cpu/timer.rs:46-78 | the watched bit falls exactly when the increment clears every bit up to it, once every two periods |
| `CpuTimer.Read` | core/src/cpu/timer.rs:80-88 | a non-timer address is an error |
| `CpuTimer.Write` | core/src/cpu/timer.rs:90-101 | a non-timer address is an error |
| `CpuTimer.WriteThenRead` | core/src/cpu/timer.rs:80-101 | TIMA, TMA and TAC read back as written, DIV reads 0 after any write, and the other registers' reads are unchanged |
| `CpuTimer.WriteTimaCancelsReload` | core/src/cpu/timer.rs:90-101 | writing TIMA cancels a pending reload: no interrupt, and TMA does not overwrite the written value |
| `CpuTimer.Step` | core/src/cpu/timer.rs:51-78 | one pass of `tick`'s loop; stated by `CpuTimer.StepDiv`, `CpuTimer.StepInv`, `CpuTimer.StepInterrupt`, `CpuTimer.StepReload`, `CpuTimer.StepCooldown`, `CpuTimer.StepCount` and `CpuTimer.StepHold` |
| `CpuTimer.Run` | core/src/cpu/timer.rs:51-78 | n passes of the loop; stated by `CpuTimer.RunStep`, `CpuTimer.RunDiv`, `CpuTimer.RunInv`, `CpuTimer.RunInterrupt` and `CpuTimer.DisabledNeverCounts` |
| `CpuTimer.StepDiv` | core/src/cpu/timer.rs:51-78 | a T-cycle advances DIV by one with wrap-around and never changes TMA or TAC |
| `CpuTimer.RunStep` | core/src/cpu/timer.rs:51-78 | one more T-cycle is one more step, its interrupt ORed in |
| `CpuTimer.StepInv` | core/src/cpu/timer.rs:51-78 | a step keeps the cooldown within its bound |
| `CpuTimer.StepInterrupt` | core/src/cpu/timer.rs:51-78 | a T-cycle raises the interrupt exactly when it ends a cooldown |
| `CpuTimer.StepReload` | core/src/cpu/timer.rs:51-78 | the last cooldown cycle copies TMA into TIMA |
| `CpuTimer.StepCooldown` | core/src/cpu/timer.rs:51-78 | during the cooldown TIMA holds and the cooldown counts down |
| `CpuTimer.StepCount` | core/src/cpu/timer.rs:51-78 | when enabled and the watched bit falls, TIMA goes up by one, starting the cooldown on overflow |
| `CpuTimer.StepHold` | core/src/cpu/timer.rs:51-78 | otherwise TIMA holds |
| `CpuTimer.RunDiv` | core/src/cpu/timer.rs:51-78 | n T-cycles advance DIV n times |
| `CpuTimer.AdvanceByte` | core/src/cpu/timer.rs:51-78 | a byte's worth of increments adds that byte to DIV modulo 2^16 |
| `CpuTimer.AdvanceBy8Sum` | core/src/cpu/timer.rs:51-78 | counting up by a byte's worth adds that byte modulo 2^16 |
| `CpuTimer.AdvanceByteAt` | core/src/cpu/timer.rs:51-78 | the int-indexed and byte-indexed increment counts agree |
| `CpuTimer.RunInv` | core/src/cpu/timer.rs:51-78 | the cooldown bound holds through any number of T-cycles |
| `CpuTimer.DisabledNeverCounts` | core/src/cpu/timer.rs:51-78 | with counting disabled and no reload pending, TIMA never changes and no interrupt is raised |
| `CpuTimer.RunInterrupt` | core/src/cpu/timer.rs:51-78 | a run raises the interrupt exactly when one of its T-cycles ends a cooldown |
| `CpuTimer.CooldownThenReload` | core/src/cpu/timer.rs:51-78 | after an overflow TIMA reads 0 for three T-cycles; the fourth reloads TMA and raises the interrupt |
| `CpuTimer.WriteTmaDuringCooldown` | core/src/cpu/timer.rs:51-101 | a TMA write during the cooldown is the value reloaded |
| `CpuTimer.OverflowStartsCooldown` | core/src/cpu/timer.rs:51-78 | the overflowing increment leaves TIMA 0 and starts the 4-cycle cooldown without an interrupt |
| `CpuTimer.Timer.constructor` | core/src/cpu/timer.rs:26-34 | every register and the cooldown start at 0 |
| `CpuTimer.Timer.Tick` | core/src/cpu/timer.rs:51-78 | `tick(m)` runs 4m T-cycles and reports whether any of them reloaded |
| `CpuTimer.Timer.TCycle` | core/src/cpu/timer.rs:51-78 | one pass of the loop is one step |
| `CpuTimer.Timer.CountEdge` | core/src/cpu/timer.rs:51-78 | the part of a pass after DIV's increment |
| `CpuTimer.Timer.WriteTimer` | core/src/cpu/timer.rs:90-101 | the new state is `Write` of the old one; a non-timer address is an error and changes nothing |
| `CpuTimer.TickAdvancesDiv` | core/src/cpu/timer.rs:51-78 | a tick of m M-cycles adds 4m to DIV modulo 2^16 |
| `Cartridge.DecodeMbc` | core/src/cartridge/mod.rs:223-234 | header byte 0x01-0x03 is MBC1, 0x05-0x06 MBC2, 0x0F-0x13 MBC3, anything else no controller |
| `Cartridge.RamSize` | core/src/cartridge/mod.rs:246-255 | the external RAM is 32 KiB, or 128 KiB for MBC5 |
| `Cartridge.Zeros` | core/src/cartridge/mod.rs:246-255 | a zeroed RAM of the given size |
| `Cartridge.LoadedState` | core/src/cartridge/mod.rs:132-139 | `load_cart`'s new state; stated by `Cartridge.LoadedSpec` and `Cartridge.LoadedMbc1Inv` |
| `Cartridge.LoadedSpec` | core/src/cartridge/mod.rs:132-139 | after loading, the ROM is the data appended, the header decides the controller and the CGB flag, the RAM is 32 KiB of zeros, and the bank registers are untouched |
| `Cartridge.Title` | core/src/cartridge/mod.rs:204-211 | the title is bytes 0x134-0x13E on a CGB cartridge and 0x134-0x142 otherwise |
| `Cartridge.RamIndexBound` | core/src/cartridge/mbc1.rs:3-8 | with at most four RAM banks every external RAM address lands inside the RAM |
| `Cartridge.RamIndexInjective` | core/src/cartridge/mbc1.rs:3-8 | distinct addresses of one bank are distinct RAM cells |
| `Cartridge.Mbc1Read` | core/src/cartridge/mbc1.rs:3-8 | `mbc1_read_byte`'s RAM cell; stated by `Cartridge.Mbc1ReadIgnoresEnable` and `Cartridge.Mbc1RamWriteRead` |
| `Cartridge.Mbc1ReadIgnoresEnable` | core/src/cartridge/mbc1.rs:3-8 | an MBC1 RAM read ignores the enable flag |
| `Cartridge.ReadCart` | core/src/cartridge/mod.rs:152-172 | `read_cart` as written; stated by `Cartridge.ReadBankZero`, `Cartridge.ReadBanked`, `Cartridge.ReadController` and `Cartridge.LastRomByteMisread` |
| `Cartridge.ReadCartCorrected` | core/src/cartridge/mod.rs:152-172 | `read_cart` with the banked range ending at 0x7FFF inclusive; stated by `Cartridge.CorrectedReadsWholeBank` |
| `Cartridge.ReadBankZero` | core/src/cartridge/mod.rs:152-172 | 0x0000-0x3FFF reads the ROM directly, whatever the bank registers hold |
| `Cartridge.ReadBanked` | core/src/cartridge/mod.rs:152-172 | 0x4000-0x7FFE reads the selected ROM bank |
| `Cartridge.ReadController` | core/src/cartridge/mod.rs:152-172 | from 0x7FFF up MBC1 reads its RAM, a cartridge without a controller reads 0, and MBC2/3/5 defer to their controller |
| `Cartridge.LastRomByteMisread` | core/src/cartridge/mod.rs:152-172 | as written, ROM byte 0x7FFF is not read from the ROM |
| `Cartridge.CorrectedReadsWholeBank` | core/src/cartridge/mod.rs:152-172 | corrected, all of 0x4000-0x7FFF reads the selected ROM bank |
| `Cartridge.Mbc1Write` | core/src/cartridge/mbc1.rs:10-57 | a write succeeds exactly at an address MBC1 handles |
| `Cartridge.Mbc1EnableRam` | core/src/cartridge/mbc1.rs:10-57 | 0x0000-0x1FFF enables RAM exactly for the value 0x0A |
| `Cartridge.Mbc1SelectRomBank` | core/src/cartridge/mbc1.rs:10-57 | 0x2000-0x3FFF selects ROM bank 1-31: the low five bits, with 0 read as 1 |
| `Cartridge.Mbc1UpperBits` | core/src/cartridge/mbc1.rs:10-57 | 0x4000-0x5FFF ORs two bits into ROM-bank bits 4-5 in ROM mode, and selects RAM bank 0-3 in RAM mode |
| `Cartridge.Mbc1UpperBitsOverlap` | core/src/cartridge/mbc1.rs:10-57 | bank 0x10 with upper bits 01 stays bank 0x10 |
| `Cartridge.Mbc1SelectMode` | core/src/cartridge/mbc1.rs:10-57 | 0x6000-0x7FFF selects ROM mode exactly for the value 0 |
| `Cartridge.Mbc1RamWriteRead` | core/src/cartridge/mbc1.rs:3-57 | an enabled RAM write reads back and touches no other cell; a disabled one changes nothing |
| `Cartridge.Mbc1InvAccessFits` | core/src/cartridge/mbc1.rs:3-57 | under the MBC1 invariant every RAM access is in bounds |
| `Cartridge.Mbc1WriteInv` | core/src/cartridge/mbc1.rs:10-57 | every MBC1 write keeps the invariant |
| `Cartridge.LoadedMbc1Inv` | core/src/cartridge/mod.rs:132-139 | a freshly loaded MBC1 cartridge satisfies the invariant |
| `Cartridge.WriteCart` | core/src/cartridge/mod.rs:186-194 | `write_cart` fails exactly on an MBC1 address that `mbc1_write_byte` does not handle; the MBC1 case is `Cartridge.Mbc1Write`, and `Cartridge.WriteWithoutController` states the case without a controller |
| `Cartridge.WriteWithoutController` | core/src/cartridge/mod.rs:186-194 | without a supported controller a write changes nothing and saves nothing |
| `Cartridge.Cart.constructor` | core/src/cartridge/mod.rs:99-110 | no controller, ROM bank 1, RAM bank 0, RAM disabled, ROM mode, empty ROM and RAM |
| `Cartridge.Cart.LoadCart` | core/src/cartridge/mod.rs:132-139 | the new state is the loaded state |
| `Cartridge.Cart.SetMbc` | core/src/cartridge/mod.rs:223-234 | only the controller changes, to the decoded header byte |
| `Cartridge.Cart.SetCgb` | core/src/cartridge/mod.rs:236-239 | only the CGB flag changes, set for header byte 0x80 or 0xC0 |
| `Cartridge.Cart.InitExtRam` | core/src/cartridge/mod.rs:246-255 | only the RAM changes, to zeros of the controller's size |
| `Cartridge.Cart.Mbc1WriteByte` | core/src/cartridge/mbc1.rs:10-57 | the new state is `Mbc1Write`; an address MBC1 does not handle is an error and changes nothing |
| `Cartridge.Cart.Mbc1WriteRegister` | core/src/cartridge/mbc1.rs:10-57 | the control-register writes |
| `Cartridge.Cart.Mbc1WriteRam` | core/src/cartridge/mbc1.rs:10-57 | the external RAM writes |
| `Cartridge.Cart.WriteCartByte` | core/src/cartridge/mod.rs:186-194 | the result and new state are `WriteCart` of the old state; an MBC1 panic is an error that changes nothing |
| `Cartridge.Cart.WriteOther` | core/src/cartridge/mod.rs:186-194 | a write for MBC2/3/5 goes to the given writer |
| `PpuClock.ModeIndex` | core/src/ppu/clock.rs:26-33 | each mode has a number of at most 3 |
| `PpuClock.ModeIndexInjective` | core/src/ppu/clock.rs:26-33 | distinct modes have distinct numbers |
| `PpuClock.Step` | core/src/ppu/clock.rs:68-118 | `clock_step`'s new state and result; stated by `PpuClock.StepBelowLength`, `PpuClock.StepTransition`, `PpuClock.RenderScanlineExactly`, `PpuClock.RenderFrameExactly`, `PpuClock.StepLine` and `PpuClock.StepInv` |
| `PpuClock.StepBelowLength` | core/src/ppu/clock.rs:68-118 | after every step the cycle count is below the mode's length |
| `PpuClock.StepTransition` | core/src/ppu/clock.rs:68-118 | a step short of the mode's length only adds cycles; one that reaches it makes exactly one transition and drops the excess |
| `PpuClock.RenderScanlineExactly` | core/src/ppu/clock.rs:68-118 | `RenderScanline` is returned exactly when VRAM read gives way to HBLANK |
| `PpuClock.RenderFrameExactly` | core/src/ppu/clock.rs:68-118 | `RenderFrame` is returned exactly when HBLANK gives way to VBLANK, at line 143 |
| `PpuClock.StepLine` | core/src/ppu/clock.rs:68-118 | the line moves only at the end of HBLANK and of a VBLANK line, by one, wrapping after 153 |
| `PpuClock.InitialInv` | core/src/ppu/clock.rs:49-55 | the initial clock satisfies the mode/line invariant |
| `PpuClock.InvLineFits` | core/src/ppu/clock.rs:68-118 | under the invariant the line counter cannot overflow |
| `PpuClock.StepInv` | core/src/ppu/clock.rs:68-118 | every step keeps the invariant |
| `PpuClock.ResetLineBreaksInv` | core/src/ppu/clock.rs:150-152 | `reset_line` during VBLANK breaks the invariant |
| `PpuClock.InvLineBound` | core/src/ppu/clock.rs:68-118 | the frame invariant implies the weaker line bound |
| `PpuClock.LineBoundFits` | core/src/ppu/clock.rs:68-118 | under the weaker line bound the line counter cannot overflow |
| `PpuClock.StepLineBound` | core/src/ppu/clock.rs:68-118 | every step keeps the weaker line bound |
| `PpuClock.ResetLineBound` | core/src/ppu/clock.rs:150-152 | after `reset_line` the weaker line bound holds, whatever the mode |
| `PpuClock.VBlankIsVBlankLine` | core/src/ppu/clock.rs:162-164 | under the invariant, VBLANK mode is the same as being on lines 144-153 |
| `PpuClock.Clock.constructor` | core/src/ppu/clock.rs:49-55 | line 0, HBLANK, no cycles |
| `PpuClock.Clock.ClockStep` | core/src/ppu/clock.rs:68-118 | the new state and result are those of `Step` |
| `PpuClock.Clock.Scanline` | core/src/ppu/clock.rs:128-130 | the current line |
| `PpuClock.Clock.GetMode` | core/src/ppu/clock.rs:140-142 | the current mode |
| `PpuClock.Clock.IsVBlankInterrupt` | core/src/ppu/clock.rs:162-164 | true exactly when the mode's number is 1, VBLANK |
| `PpuClock.Clock.ResetLine` | core/src/ppu/clock.rs:150-152 | only the line changes, to 0 |
| `OamSprite.InitialSpec` | core/src/ppu/sprite.rs:53-65 | a new sprite has zero data and coordinates, is above the background, unflipped, palette 0, bank 0 |
| `OamSprite.SetByteOn` | core/src/ppu/sprite.rs:77-87 | an offset past the fourth byte is an error |
| `OamSprite.GetByteOf` | core/src/ppu/sprite.rs:100-106 | an offset past the fourth byte is an error |
| `OamSprite.SetThenGet` | core/src/ppu/sprite.rs:77-106 | a byte set reads back, and the other bytes read as before |
| `OamSprite.ParseByte1` | core/src/ppu/sprite.rs:235-237 | `parse_oam_byte1`; stated by `OamSprite.SetYByte` |
| `OamSprite.ParseByte2` | core/src/ppu/sprite.rs:247-249 | `parse_oam_byte2`; stated by `OamSprite.SetXByte` |
| `OamSprite.ParseByte3` | core/src/ppu/sprite.rs:259-261 | `parse_oam_byte3`; stated by `OamSprite.SetTileByte` |
| `OamSprite.ParseByte4` | core/src/ppu/sprite.rs:272-282 | `parse_oam_byte4`; stated by `OamSprite.SetFlagByte`, `OamSprite.SetFlagByteDmg` and `OamSprite.SetFlagByteCgb` |
| `OamSprite.SetYByte` | core/src/ppu/sprite.rs:235-237 | byte 0 sets Y to the byte minus 16 and no other parsed field |
| `OamSprite.SetXByte` | core/src/ppu/sprite.rs:247-249 | byte 1 sets X to the byte minus 8 and no other parsed field |
| `OamSprite.SetTileByte` | core/src/ppu/sprite.rs:259-261 | byte 2 sets the tile number and no other parsed field |
| `OamSprite.SetFlagByte` | core/src/ppu/sprite.rs:272-282 | byte 3: bit 7 clear means above the background, bit 6 is the Y flip, bit 5 the X flip |
| `OamSprite.SetFlagByteDmg` | core/src/ppu/sprite.rs:272-282 | on the DMG the palette is bit 4 and the bank is unchanged |
| `OamSprite.SetFlagByteCgb` | core/src/ppu/sprite.rs:272-282 | on the CGB the palette is bits 0-2 and the bank is bit 3 |
| `OamSprite.ContainsScanline` | core/src/ppu/sprite.rs:135-139 | `contains_scanline`; stated on the raw Y byte by `OamSprite.ScanlineFromByte` and `OamSprite.ZeroYHidesSprite` |
| `OamSprite.ScanlineFromByte` | core/src/ppu/sprite.rs:135-139 | line l passes through the sprite exactly when l + 16 lies in [Y byte, Y byte + height) |
| `OamSprite.ZeroYHidesSprite` | core/src/ppu/sprite.rs:135-139 | an 8x8 sprite with Y byte 0 covers no line |
| `OamSprite.IsOnscreen` | core/src/ppu/sprite.rs:116-121 | `is_onscreen`; stated on the raw bytes by `OamSprite.OnscreenFromBytes` and `OamSprite.OnscreenIsDisjunction` |
| `OamSprite.OnscreenFromBytes` | core/src/ppu/sprite.rs:116-121 | a sprite is on screen exactly when its X byte or its Y byte lies in 1-175 |
| `OamSprite.OnscreenIsDisjunction` | core/src/ppu/sprite.rs:116-121 | a sprite far past the right edge counts as on screen when its Y is visible |
| `OamSprite.Sprite.constructor` | core/src/ppu/sprite.rs:53-65 | the initial sprite |
| `OamSprite.Sprite.SetByte` | core/src/ppu/sprite.rs:77-87 | the new state is `SetByteOn`; an error changes nothing |
| `OamSprite.Sprite.GetByte` | core/src/ppu/sprite.rs:100-106 | the result is `GetByteOf` |
| `OamSprite.Sprite.ParseOamByte1` | core/src/ppu/sprite.rs:235-237 | the Y field is parsed |
| `OamSprite.Sprite.ParseOamByte2` | core/src/ppu/sprite.rs:247-249 | the X field is parsed |
| `OamSprite.Sprite.ParseOamByte3` | core/src/ppu/sprite.rs:259-261 | the tile number is parsed |
| `OamSprite.Sprite.ParseOamByte4` | core/src/ppu/sprite.rs:272-282 | the flag fields are parsed |
| `OamSprite.Sprite.OnScreen` | core/src/ppu/sprite.rs:116-121 | the state's on-screen test |
| `OamSprite.Sprite.HasScanline` | core/src/ppu/sprite.rs:135-139 | the state's line test |
| `OamSprite.Sprite.GetTileNum` | core/src/ppu/sprite.rs:149-151 | the tile number |
| `OamSprite.Sprite.GetCoords` | core/src/ppu/sprite.rs:161-163 | X, then Y |
| `OamSprite.Sprite.GetPal` | core/src/ppu/sprite.rs:173-175 | the palette number |
| `OamSprite.Sprite.GetVramBank` | core/src/ppu/sprite.rs:185-187 | the VRAM bank |
| `OamSprite.Sprite.IsXFlip` | core/src/ppu/sprite.rs:197-199 | the X flip |
| `OamSprite.Sprite.IsYFlip` | core/src/ppu/sprite.rs:209-211 | the Y flip |
| `OamSprite.Sprite.IsAboveBkgd` | core/src/ppu/sprite.rs:221-223 | the priority flag |
| `Tiles.Pixel` | core/src/ppu/mod.rs:156-193 | a tile pixel is a two-bit colour index |
| `Tiles.GetRow` | core/src/ppu/mod.rs:156-193 | a row is eight colour indices, left to right |
| `Tiles.UpdateByte` | core/src/ppu/mod.rs:89-108 | a byte update keeps the tile's size |
| `Tiles.BlankIsColourZero` | core/src/ppu/mod.rs:68-75 | the blank tile is colour 0 everywhere |
| `Tiles.UpdateOnlyItsRow` | core/src/ppu/mod.rs:89-108 | a byte write changes only the row it belongs to |
| `Tiles.UpdateSame` | core/src/ppu/mod.rs:89-108 | writing a byte the tile already holds changes nothing |
| `Ppu.LcdcStatus` | core/src/ppu/mod.rs:603-613 | the mode whose number is STAT bits 0-1 |
| `Ppu.IsBkgdDspl` | core/src/ppu/mod.rs:484-487 | LCDC bit 0 |
| `Ppu.IsSprtDspl` | core/src/ppu/mod.rs:510-513 | LCDC bit 1 |
| `Ppu.SprAre8x16` | core/src/ppu/mod.rs:562-564 | LCDC bit 2 |
| `Ppu.BkgdTileMapIndex` | core/src/ppu/mod.rs:536-539 | LCDC bit 3 as 0 or 1 |
| `Ppu.BkgdWndwTileSetIndex` | core/src/ppu/mod.rs:523-526 | LCDC bit 4 as 0 or 1 |
| `Ppu.IsWndwDspl` | core/src/ppu/mod.rs:497-500 | LCDC bit 5 |
| `Ppu.WndwTileMapIndex` | core/src/ppu/mod.rs:549-552 | LCDC bit 6 as 0 or 1 |
| `Ppu.WndwCoords` | core/src/ppu/mod.rs:588-593 | WX - 7, saturating at 0, and WY |
| `Ppu.BkgdPalette` | core/src/ppu/mod.rs:451-453 | four shades, each at most 3 |
| `Ppu.SprPalette` | core/src/ppu/mod.rs:466-474 | four shades of OBP0 or OBP1, each at most 3 |
| `Ppu.TileMapStart` | core/src/ppu/mod.rs:411-421 | either tile map lies inside display RAM |
| `Ppu.BkgdTileMap` | core/src/ppu/mod.rs:411-421 | the 1024 bytes at 0x9800 or 0x9C00, as LCDC bit 3 selects |
| `Ppu.WndwTileMap` | core/src/ppu/mod.rs:431-441 | the 1024 bytes at 0x9800 or 0x9C00, as LCDC bit 6 selects |
| `Ppu.Signed` | core/src/ppu/mod.rs:156-193 | the byte read as `i8`: in -128..127 and congruent to the byte modulo 256 |
| `Ppu.TileIndex` | core/src/ppu/mod.rs:156-193 | a map entry names one of the 384 tiles |
| `Ppu.TileIndexRange` | core/src/ppu/mod.rs:156-193 | tile set 0 reaches tiles 128-383; tile set 1 names the entry's own tile |
| `Ppu.SignedTileSet` | core/src/ppu/mod.rs:156-193 | on tile set 0, entries 0x00-0x7F name tiles 256-383 and entries 0x80-0xFF tiles 128-255 |
| `Ppu.OamSlot` | core/src/ppu/mod.rs:89-108 | an OAM offset is byte `slot.1` of sprite `slot.0` |
| `Ppu.TileSlot` | core/src/ppu/mod.rs:89-108 | a tile-set offset is byte `slot.1` of tile `slot.0` |
| `Ppu.RefreshDecodedOn` | core/src/ppu/mod.rs:89-108 | refreshing the decoded tiles and sprites leaves VRAM and the frame buffer alone |
| `Ppu.WriteVramOn` | core/src/ppu/mod.rs:89-108 | a write keeps every size invariant |
| `Ppu.SetLyOn` | core/src/ppu/mod.rs:137-149 | `set_ly` keeps VRAM's size |
| `Ppu.SetStatusOn` | core/src/ppu/mod.rs:203-206 | `set_status` keeps VRAM's size |
| `Ppu.IsValidStatus` | core/src/ppu/mod.rs:626-640 | `is_valid_status`'s mode gate; stated by `Ppu.OamReadGate`, `Ppu.VramReadGate`, `Ppu.BlankGate` and `Ppu.RawAddressGateAcceptsAll` |
| `Ppu.OamReadGate` | core/src/ppu/mod.rs:626-640 | during OAM read exactly OAM is refused |
| `Ppu.VramReadGate` | core/src/ppu/mod.rs:626-640 | during VRAM read exactly OAM and display RAM are refused |
| `Ppu.BlankGate` | core/src/ppu/mod.rs:626-640 | during HBLANK and VBLANK every address is accepted |
| `Ppu.RawAddressGateAcceptsAll` | core/src/ppu/mod.rs:89-108 | the gate on a raw address accepts every write |
| `Ppu.WriteThenRead` | core/src/ppu/mod.rs:89-124 | a VRAM write reads back and every other byte reads as before |
| `Ppu.WriteOamUpdatesSprite` | core/src/ppu/mod.rs:89-108 | an OAM write goes to byte `off % 4` of sprite `off / 4`, parsed as `set_byte` parses it; nothing else decoded changes |
| `Ppu.WriteTileSetUpdatesTile` | core/src/ppu/mod.rs:89-108 | a tile-set write goes to byte `off % 16` of tile `off / 16`; nothing else decoded changes |
| `Ppu.WriteElsewhereKeepsDecoded` | core/src/ppu/mod.rs:89-108 | any other write changes VRAM only |
| `Ppu.SetStatusSpec` | core/src/ppu/mod.rs:203-206 | for m at most 3, STAT bits 0-1 become m and bits 2-7 are kept |
| `Ppu.StatusRoundTrip` | core/src/ppu/mod.rs:203-206 | setting the status to a mode's number makes `get_lcdc_status` give that mode |
| `Ppu.SetLyMatch` | core/src/ppu/mod.rs:137-149 | on an LYC match, LY is the line, STAT gains bit 2, and the result is STAT bit 6 |
| `Ppu.SetLyNoMatch` | core/src/ppu/mod.rs:137-149 | without a match only LY changes and the result is false |
| `Ppu.SetLyKeepsCoincidence` | core/src/ppu/mod.rs:137-149 | `set_ly` never clears the coincidence bit |
| `Ppu.BkgdMapIndex` | core/src/ppu/mod.rs:156-193 | the tile-map entry under a screen column, wrapping horizontally, lies inside the map |
| `Ppu.ShadeAt` | core/src/ppu/mod.rs:156-193 | a background pixel's shade is one of the palette's entries |
| `Ppu.LineStart` | core/src/ppu/mod.rs:156-193 | line LY lies inside the frame buffer |
| `Ppu.BkgdLine` | core/src/ppu/mod.rs:156-193 | SCY + LY is a background line |
| `Ppu.ScanlinePixel` | core/src/ppu/mod.rs:156-193 | each scanline shade is an entry of BGP |
| `Ppu.ScanlineRow` | core/src/ppu/mod.rs:156-193 | a scanline is 160 shades |
| `Ppu.ShadesAreScanline` | core/src/ppu/mod.rs:156-193 | a row agreeing with the per-pixel shades is the scanline |
| `Ppu.RenderedBuffer` | core/src/ppu/mod.rs:156-193 | the rendered buffer keeps the frame size |
| `Ppu.RenderScanlineOn` | core/src/ppu/mod.rs:156-193 | rendering changes only the frame buffer |
| `Ppu.RenderScanlineSized` | core/src/ppu/mod.rs:156-193 | rendering keeps every size invariant |
| `Ppu.RenderScanlineFrame` | core/src/ppu/mod.rs:156-193 | only row LY of the frame buffer changes |
| `Ppu.RenderScanlineShades` | core/src/ppu/mod.rs:156-193 | a buffer of shades stays a buffer of shades |
| `Ppu.RenderScanlineRow` | core/src/ppu/mod.rs:156-193 | column x of row LY holds the tile pixel under the scrolled position, through BGP |
| `Ppu.ScanlineIsBgpEntry` | core/src/ppu/mod.rs:156-193 | every shade written is one of BGP's four entries |
| `Ppu.ShadeAtSteps` | core/src/ppu/mod.rs:156-193 | the loop's step-by-step shade is `ShadeAt` |
| `Ppu.ScanlineShades` | core/src/ppu/mod.rs:156-193 | the `pixel_row` loop fills each column with its background shade |
| `Ppu.SprTilePixel` | core/src/ppu/mod.rs:324-371 | the flipped tile pixel is a two-bit colour index |
| `Ppu.ShouldDraw` | core/src/ppu/mod.rs:362-365 | `draw_spr`'s priority rule; stated in place by `Ppu.DrawSprChanges` |
| `Ppu.DrawSprOn` | core/src/ppu/mod.rs:324-371 | drawing keeps the buffer's size |
| `Ppu.DrawSprChanges` | core/src/ppu/mod.rs:324-371 | a pixel changes only inside the sprite's square and only when priority allows, and then takes the palette entry of the tile pixel |
| `Ppu.DrawSprClipsRight` | core/src/ppu/mod.rs:324-371 | a sprite at the right edge is clipped, not wrapped to the next row |
| `Ppu.DrawSprShades` | core/src/ppu/mod.rs:324-371 | drawing with a sprite palette keeps a buffer of shades |
| `Ppu.SkipColumn` | core/src/ppu/mod.rs:324-371 | a column past the right edge draws nothing |
| `Ppu.SkipRow` | core/src/ppu/mod.rs:324-371 | a row below the bottom edge draws nothing |
| `Ppu.LastColumn` | core/src/ppu/mod.rs:324-371 | after the eighth column a row is done |
| `Ppu.DrawStep` | core/src/ppu/mod.rs:324-371 | a step on screen deals with exactly one pixel not dealt with before |
| `Ppu.Colorize` | core/src/ppu/mod.rs:384-401 | four bytes per pixel |
| `Ppu.ColorizePixel` | core/src/ppu/mod.rs:384-401 | bytes 4i-4i+3 are pixel i's colour: white to black for shades 0-3, alpha 255 |
| `Ppu.Ppu.constructor` | core/src/ppu/mod.rs:68-75 | zeroed VRAM and frame buffer, blank tiles, initial sprites |
| `Ppu.Ppu.WriteVram` | core/src/ppu/mod.rs:89-108 | the new state is `WriteVramOn` of the old one |
| `Ppu.Ppu.RefreshDecoded` | core/src/ppu/mod.rs:89-108 | the tile or sprite update of `write_vram` |
| `Ppu.Ppu.ReadVram` | core/src/ppu/mod.rs:121-124 | the VRAM byte at the raw address minus 0x8000 |
| `Ppu.Ppu.SetLy` | core/src/ppu/mod.rs:137-149 | VRAM and the result are those of `SetLyOn` |
| `Ppu.Ppu.SetStatus` | core/src/ppu/mod.rs:203-206 | VRAM is `SetStatusOn` of the old VRAM |
| `Ppu.Ppu.RenderScanline` | core/src/ppu/mod.rs:156-193 | the new state is `RenderScanlineOn` of the old one |
| `Ppu.Ppu.CopyRow` | core/src/ppu/mod.rs:156-193 | the copy loop splices the row into the frame buffer |
| `Ppu.Ppu.DrawSpr` | core/src/ppu/mod.rs:324-371 | the buffer becomes `DrawSprOn` of itself, with OBP0 for palette 0 and OBP1 otherwise |
| `Ppu.Ppu.DrawRow` | core/src/ppu/mod.rs:324-371 | one pass of the row loop draws the columns of one sprite row |
| `Ppu.Ppu.GetColor` | core/src/ppu/mod.rs:384-401 | the RGBA screen is `Colorize` of the shades |
| `Ppu.Ppu.ColorPixel` | core/src/ppu/mod.rs:384-401 | the inner loop writes pixel i's four bytes after all earlier ones |
| `Palettes.BgTable` | core/src/ppu/palette.rs:54-129 | every background table has four opaque colours |
| `Palettes.Obj0Table` | core/src/ppu/palette.rs:155-200 | every sprite-0 table has four opaque colours |
| `Palettes.Obj1Table` | core/src/ppu/palette.rs:210-245 | every sprite-1 table has four opaque colours |
| `Palettes.Palette.SetSysPal` | core/src/ppu/palette.rs:42-44 | after `set_sys_pal(p)` the background and sprite-0 palettes are p's |
| `Palettes.Palette.GetBgPal` | core/src/ppu/palette.rs:54-129 | the system palette's background table |
| `Palettes.Palette.GetObj0Pal` | core/src/ppu/palette.rs:155-200 | the system palette's sprite-0 table |
| `Palettes.Palette.GetObj1Pal` | core/src/ppu/palette.rs:210-245 | the system palette's sprite-1 table |
| `Palettes.Palette.GetSprPal` | core/src/ppu/palette.rs:139-145 | palette 0 gives sprite-0 colours, 1 sprite-1 colours, and any other index is an error |
| `Palettes.InitialIsGrayscale` | core/src/ppu/palette.rs:28-32 | a new palette is grayscale: white, two greys, black |
| `Palettes.Obj0SharesBkgd` | core/src/ppu/palette.rs:54-200 | sprite palette 0 equals the background palette exactly for the palettes that share it |
| `Palettes.Obj1SharesBkgd` | core/src/ppu/palette.rs:54-245 | sprite palette 1 equals the background palette exactly for the same palettes |
| `Palettes.Obj1SharesObj0` | core/src/ppu/palette.rs:155-245 | the two sprite palettes agree exactly when the system palette has no second sprite palette of its own |
| `Palettes.FiveBitToEightBitAsWritten` | core/src/ppu/palette.rs:279-281 | as written, only channel 31 gives 0xFF and every other channel gives 0 |
| `Palettes.FiveBitToEightBit` | core/src/ppu/palette.rs:279-281 | corrected: 0 maps to 0 and 31 to 0xFF |
| `Palettes.FiveBitRoundTrip` | core/src/ppu/palette.rs:279-281 | the scaled channel's top five bits are the channel, so no two channels collide |
| `Palettes.FiveBitMonotone` | core/src/ppu/palette.rs:279-281 | brighter channels stay brighter |
| `Palettes.FiveBitDividesFirst` | core/src/ppu/palette.rs:279-281 | channel 16 comes out black as written and 0x83 corrected |
| `Palettes.Gbc2RgbaAsWritten` | core/src/ppu/palette.rs:259-266 | as written, four channels with alpha 0xFF |
| `Palettes.GreenMaskDropsBit9` | core/src/ppu/palette.rs:259-266 | as written, full green (0x03E0) reads as no green |
| `Palettes.Gbc2Rgba` | core/src/ppu/palette.rs:259-266 | corrected: four channels, alpha 0xFF |
| `Palettes.Gbc2RgbaChannels` | core/src/ppu/palette.rs:259-266 | each channel's top five bits are its field of the CGB colour: red bits 0-4, green 5-9, blue 10-14 |
| `Palettes.Gbc2RgbaIgnoresBit15` | core/src/ppu/palette.rs:259-266 | bit 15 never matters |
| `Joypad.Index` | core/src/io.rs:34-46 | A, B, Select and Start take slots 0-3; the d-pad takes slots 4-7 |
| `Joypad.IndexRoundTrip` | core/src/io.rs:34-46 | the slot numbering is a bijection between the buttons and 0-7 |
| `Joypad.IndexInjective` | core/src/io.rs:34-46 | no two buttons share a slot |
| `Joypad.Pack` | core/src/io.rs:125-153 | `pack_btn_keys` and `pack_dir_keys`' packing; stated by `Joypad.PackBits` |
| `Joypad.PackBits` | core/src/io.rs:125-153 | a packed group fits the low nibble, and bit i is clear exactly when button base + i is pressed |
| `Joypad.ReadBtnsOf` | core/src/io.rs:106-115 | `read_btns`' value; stated by `Joypad.ReadFitsNibble`, `Joypad.ReadButtonGroup` and `Joypad.ReadDirGroup` |
| `Joypad.ReadFitsNibble` | core/src/io.rs:106-115 | the upper nibble always reads 0 |
| `Joypad.ReadButtonGroup` | core/src/io.rs:106-115 | with the buttons selected, bit i reads 0 exactly when button slot i is pressed |
| `Joypad.ReadDirGroup` | core/src/io.rs:106-115 | with only the d-pad selected, bit i reads 0 exactly when slot i + 4 is pressed |
| `Joypad.PollOn` | core/src/io.rs:93-96 | `poll_btns`' new state; stated by `Joypad.PollThenRead` |
| `Joypad.PollThenRead` | core/src/io.rs:93-96 | bit 5 clear reads the buttons; bit 5 set and bit 4 clear reads the d-pad; both set reads 0 |
| `Joypad.ToggleOn` | core/src/io.rs:79-83 | only the button's slot changes, to the value given |
| `Joypad.ToggleThenRead` | core/src/io.rs:79-115 | pressing a button of the selected group clears its bit on the next read; releasing it sets the bit |
| `Joypad.InitialReadsZero` | core/src/io.rs:62-68 | a new joypad reads 0 |
| `Joypad.IO.constructor` | core/src/io.rs:62-68 | nothing pressed and nothing selected |
| `Joypad.IO.BtnToggle` | core/src/io.rs:79-83 | the new state is `ToggleOn` of the old one |
| `Joypad.IO.PollBtns` | core/src/io.rs:93-96 | the new state is `PollOn` of the old one |
| `Joypad.IO.ReadBtns` | core/src/io.rs:106-115 | the result is `ReadBtnsOf` the state |
| `Joypad.IO.PackBtnKeys` | core/src/io.rs:125-134 | the button group, packed active low |
| `Joypad.IO.PackDirKeys` | core/src/io.rs:144-153 | the d-pad group, packed active low |
| `Joypad.IO.PackGroup` | core/src/io.rs:125-153 | the packing loop computes the packed group |

## Left out

- MBC2, MBC3, MBC5 and HuC1 are not modelled. Their reads and writes are parameters (`OtherReader`, `OtherWriter`).
- `get_ext_ram` is not modelled. It only returns the RAM, which is the `ram` field of `CartState`.
- `get_title` is modelled on bytes. Its UTF-8 decoding into a `str` is left out.
- The CPU's instruction decoder is left out: `Cpu::tick`, `draw` and `load_game`. They call into the bus and opcode tables, which are not part of this model.
- The bus is modelled as 64 KiB of memory: a `seq<bv8>` field of `Cpu`. The memory-mapped devices behind it are left out.
- `render_screen`, `render_window` and `render_sprites` are left out. They call into a frame-buffer and sprite-selection API that is not part of this model. `draw_spr` and `get_color`, which they use, are modelled.
- The scroll getter `get_scroll_coords` is modelled as `Ppu.ScrollCoords` without a contract. It only returns SCX and SCY.
- `tile.rs` is not part of this model. Tiles are modelled on the Game Boy's 2bpp layout: 16 bytes, two per row.
- `utils.rs` is not part of this model. `Utils` states what the core's calls rely on, and its rows cite those call sites.
- `Ppu.Ppu.WriteVram`: the source calls `update_byte(byte_num, val)` on a sprite, but `sprite.rs` has only `set_byte(index, byte, mode)`. The model calls `set_byte`, so the hardware mode is a parameter of the write.
- `Ppu.Ppu.DrawSpr` takes the sprite's coordinates as `nat`, so sprites with a negative coordinate are excluded. `is_onscreen` (core/src/ppu/sprite.rs:116-121) lets through sprites partly off the left edge (x from -7 to -1) or the top edge (y from -7 to -1). For these, `as usize` sign-extends the `i16` to a value near `usize::MAX`. Then `spr_x + x_offset` (or `spr_y + row`) at core/src/ppu/mod.rs:350-351 overflows `usize` before the off-screen test at mod.rs:353-357. A debug build panics there; a release build wraps onto on-screen columns or rows and draws them. Only a coordinate of -8 or below stays huge and is skipped. The `Point` type that carries the coordinates into `draw_spr` is not part of this model.
- `is_pal_0` is not part of this model. The palette choice in `draw_spr` is modelled as "palette number 0 is OBP0".
- `Palettes.FiveBitToEightBitAsWritten` requires a channel of at most 0x1F, as `gbc2rgba` always passes. The `u8` overflow of `* 0xFF` for larger arguments is not modelled.
- `Joypad.IO.PackGroup`: the two pack loops of the source are one method over the group's first slot.
- `Cartridge.WriteCart` reports false for a successful MBC1 write. The source's MBC1 write returns nothing to report.
- The SDL front end, the menu, file I/O and timing are left out.

## Findings

| source | as written | input that shows it | evidently intended | confidence | as-written member | corrected member |
|---|---|---|---|---|---|---|
| core/src/cpu/mod.rs:278-302 | `daa` adds 6 when the low nibble is below 9 | A = 0x02 after 0x01 + 0x01, flags clear: `daa` gives 0x08 | add 6 when the low nibble is above 9 | not executed | `Alu.DaaAsWrittenMisadjusts` | `Alu.AddDaaIsBcdAdd` |
| core/src/cartridge/mod.rs:152-172 | banked ROM reads stop below 0x7FFF | address 0x7FFF on a 32 KiB ROM: MBC1 cannot read it, and without a controller it reads 0 | 0x4000-0x7FFF inclusive reads the bank | not executed | `Cartridge.LastRomByteMisread` | `Cartridge.CorrectedReadsWholeBank` |
| core/src/ppu/palette.rs:259-266 | green is masked with 0x1F0 | 0x03E0 (full green) gives green 0 | mask 0x3E0, bits 5-9 | not executed | `Palettes.GreenMaskDropsBit9` | `Palettes.Gbc2RgbaChannels` |
| core/src/ppu/palette.rs:279-281 | the channel is divided by 31 before it is multiplied by 255 | channel 16 gives 0 | multiply by 255, then divide by 31 | not executed | `Palettes.FiveBitDividesFirst` | `Palettes.FiveBitToEightBit` |
