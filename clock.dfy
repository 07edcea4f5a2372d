// The PPU mode clock (core/src/ppu/clock.rs): the scanline state machine
// that walks each visible line through OAM read, VRAM read and HBLANK, and
// spends ten further lines in VBLANK before the frame starts again.
//
// `ClockState` and `Step` describe one `clock_step` call as a value; the
// `Clock` class keeps the same three fields and its methods are proved to
// follow `Step`.

module PpuClock {

  /// Length in cycles of each mode.
  const HBLANK_LEN: nat := 204
  const VBLANK_LEN: nat := 456
  const OAM_READ_LEN: nat := 80
  const VRAM_READ_LEN: nat := 172

  /// The first VBLANK line, and the last line before the frame restarts.
  const VBLANK_LINE_START: nat := 143
  const VBLANK_LINE_END: nat := VBLANK_LINE_START + 10

  /// A value of Rust's `u8`, where its arithmetic must not wrap.
  type U8 = x: int | 0 <= x < 0x100

  /// What the caller of `clock_step` has to do next.
  datatype ClockResult = NoAction | RenderScanline | RenderFrame

  datatype Mode = HBlank | VBlank | OamRead | VramRead

  /// `ModeTypes::get_idx`: the mode number that STAT bits 0-1 hold.
  function ModeIndex(m: Mode): (i: bv8)
    ensures i <= 3
  {
    match m
    case HBlank => 0
    case VBlank => 1
    case OamRead => 2
    case VramRead => 3
  }

  /// Distinct modes have distinct numbers.
  lemma ModeIndexInjective(m1: Mode, m2: Mode)
    ensures ModeIndex(m1) == ModeIndex(m2) <==> m1 == m2
  {
  }

  /// How long the clock stays in a mode.
  function ModeLength(m: Mode): nat
  {
    match m
    case HBlank => HBLANK_LEN
    case VBlank => VBLANK_LEN
    case OamRead => OAM_READ_LEN
    case VramRead => VRAM_READ_LEN
  }

  /// The fields of `Clock`.
  datatype ClockState = ClockState(cycles: nat, line: U8, mode: Mode)

  const Initial := ClockState(0, 0, HBlank)

  /// The call ends the current mode.
  predicate Expires(s: ClockState, c: U8)
  {
    s.cycles + c >= ModeLength(s.mode)
  }

  /// `clock_step` increments `line` at the end of HBLANK and of every
  /// VBLANK line; a `u8` overflow there would panic.
  predicate LineFits(s: ClockState, c: U8)
  {
    (s.mode == HBlank || s.mode == VBlank) && Expires(s, c) ==> s.line < 255
  }

  /// `clock_step(c)`: `c` cycles are added; when the mode's length is
  /// reached the counter restarts at 0 and the clock moves on.
  function Step(s: ClockState, c: U8): (ClockState, ClockResult)
    requires LineFits(s, c)
  {
    var cycles := s.cycles + c;
    if !Expires(s, c) then (s.(cycles := cycles), NoAction)
    else match s.mode
      case HBlank =>
        if s.line + 1 == VBLANK_LINE_START then (ClockState(0, s.line + 1, VBlank), RenderFrame)
        else (ClockState(0, s.line + 1, OamRead), NoAction)
      case VBlank =>
        if s.line + 1 > VBLANK_LINE_END then (ClockState(0, 0, OamRead), NoAction)
        else (ClockState(0, s.line + 1, VBlank), NoAction)
      case OamRead => (ClockState(0, s.line, VramRead), NoAction)
      case VramRead => (ClockState(0, s.line, HBlank), RenderScanline)
  }

  /// The mode that follows `m` on the current line.
  function NextMode(m: Mode, line: U8): Mode
  {
    match m
    case OamRead => VramRead
    case VramRead => HBlank
    case HBlank => if line + 1 == VBLANK_LINE_START then VBlank else OamRead
    case VBlank => if line + 1 > VBLANK_LINE_END then OamRead else VBlank
  }

  // ---------------------------------------------------------------------
  // Properties of one call

  /// After every call the counter is below the length of the mode it is in.
  lemma StepBelowLength(s: ClockState, c: U8)
    requires LineFits(s, c)
    ensures Step(s, c).0.cycles < ModeLength(Step(s, c).0.mode)
  {
  }

  /// A call that does not reach the mode's length only adds the cycles;
  /// one that does makes exactly one transition, to `NextMode`, and
  /// discards the excess cycles.
  lemma StepTransition(s: ClockState, c: U8)
    requires LineFits(s, c)
    ensures !Expires(s, c) ==> Step(s, c) == (s.(cycles := s.cycles + c), NoAction)
    ensures Expires(s, c) ==> Step(s, c).0.cycles == 0 && Step(s, c).0.mode == NextMode(s.mode, s.line)
  {
  }

  /// `RenderScanline` is returned exactly when VRAM read gives way to HBLANK.
  lemma RenderScanlineExactly(s: ClockState, c: U8)
    requires LineFits(s, c)
    ensures Step(s, c).1 == RenderScanline <==> s.mode == VramRead && Step(s, c).0.mode == HBlank
  {
  }

  /// `RenderFrame` is returned exactly when HBLANK gives way to VBLANK, and
  /// that happens when the line counter reaches 143.
  lemma RenderFrameExactly(s: ClockState, c: U8)
    requires LineFits(s, c)
    ensures Step(s, c).1 == RenderFrame <==> s.mode == HBlank && Step(s, c).0.mode == VBlank
    ensures Step(s, c).1 == RenderFrame <==> s.mode == HBlank && Expires(s, c) && s.line + 1 == VBLANK_LINE_START
  {
  }

  /// The line counter moves only at the end of HBLANK and of a VBLANK line:
  /// it goes up by one, and after line 153 it wraps to 0.
  lemma StepLine(s: ClockState, c: U8)
    requires LineFits(s, c)
    ensures (s.mode == OamRead || s.mode == VramRead || !Expires(s, c)) ==> Step(s, c).0.line == s.line
    ensures s.mode == HBlank && Expires(s, c) ==> Step(s, c).0.line == s.line + 1
    ensures s.mode == VBlank && Expires(s, c) ==>
      Step(s, c).0.line == (if s.line + 1 > VBLANK_LINE_END then 0 else s.line + 1)
  {
  }

  // ---------------------------------------------------------------------
  // The frame invariant

  /// The line counter stays at most 153, and it is in the VBLANK lines
  /// (143 to 153) exactly when the mode is VBLANK.
  predicate Inv(s: ClockState)
  {
    s.line <= VBLANK_LINE_END && (s.line >= VBLANK_LINE_START <==> s.mode == VBlank)
  }

  lemma InitialInv()
    ensures Inv(Initial)
  {
  }

  /// Under the invariant the line counter cannot overflow.
  lemma InvLineFits(s: ClockState, c: U8)
    requires Inv(s)
    ensures LineFits(s, c)
  {
  }

  lemma StepInv(s: ClockState, c: U8)
    requires Inv(s)
    ensures Inv(Step(s, c).0)
  {
  }

  /// `reset_line` during VBLANK breaks the invariant: the mode is still
  /// VBLANK but the line is 0.
  lemma ResetLineBreaksInv()
    ensures var s := ClockState(0, 150, VBlank);
      Inv(s) && !Inv(s.(line := 0))
  {
  }

  /// Under the invariant, the VBLANK interrupt condition is the same as
  /// being on one of the VBLANK lines.
  lemma VBlankIsVBlankLine(s: ClockState)
    requires Inv(s)
    ensures s.mode == VBlank <==> s.line >= VBLANK_LINE_START
  {
  }

  /// A weaker invariant that `reset_line` keeps as well: the line is at
  /// most 153, and outside VBLANK it is below 143.
  predicate LineBound(s: ClockState)
  {
    s.line <= VBLANK_LINE_END && (s.mode != VBlank ==> s.line < VBLANK_LINE_START)
  }

  /// The frame invariant implies the weaker one.
  lemma InvLineBound(s: ClockState)
    requires Inv(s)
    ensures LineBound(s)
  {
  }

  /// Under the weaker invariant the line counter cannot overflow either.
  lemma LineBoundFits(s: ClockState, c: U8)
    requires LineBound(s)
    ensures LineFits(s, c)
  {
  }

  /// Every step keeps the weaker invariant.
  lemma StepLineBound(s: ClockState, c: U8)
    requires LineBound(s)
    ensures LineBound(Step(s, c).0)
  {
  }

  /// `reset_line` keeps the weaker invariant, whatever the mode.
  lemma ResetLineBound(s: ClockState)
    ensures LineBound(s.(line := 0))
  {
  }

  /// The clock itself.
  class Clock {
    var cycles: nat
    var line: U8
    var mode: Mode

    function State(): ClockState
      reads this
    {
      ClockState(cycles, line, mode)
    }

    /// `Clock::new`: line 0, HBLANK, no cycles counted.
    constructor ()
      ensures State() == Initial && Inv(State())
    {
      cycles, line, mode := 0, 0, HBlank;
    }

    /// `clock_step`.
    method ClockStep(c: U8) returns (result: ClockResult)
      requires LineFits(State(), c)
      modifies this
      ensures (State(), result) == Step(old(State()), c)
    {
      cycles := cycles + c;
      result := NoAction;
      match mode
      case HBlank =>
        if cycles >= HBLANK_LEN {
          cycles := 0;
          line := line + 1;
          if line == VBLANK_LINE_START {
            mode := VBlank;
            result := RenderFrame;
          } else {
            mode := OamRead;
          }
        }
      case VBlank =>
        if cycles >= VBLANK_LEN {
          cycles := 0;
          line := line + 1;
          if line > VBLANK_LINE_END {
            mode := OamRead;
            line := 0;
          }
        }
      case OamRead =>
        if cycles >= OAM_READ_LEN {
          cycles := 0;
          mode := VramRead;
        }
      case VramRead =>
        if cycles >= VRAM_READ_LEN {
          cycles := 0;
          mode := HBlank;
          result := RenderScanline;
        }
    }

    /// `get_scanline`.
    function Scanline(): (r: U8)
      reads this
      ensures r == State().line
    {
      line
    }

    /// `get_mode`.
    function GetMode(): (m: Mode)
      reads this
      ensures m == State().mode
    {
      mode
    }

    /// `is_vblank_interrupt`: the clock is in VBLANK.
    function IsVBlankInterrupt(): (r: bool)
      reads this
      ensures r <==> ModeIndex(State().mode) == 1
    {
      mode == VBlank
    }

    /// `reset_line`: the line counter goes back to 0 and nothing else
    /// changes.
    method ResetLine()
      modifies this
      ensures State() == old(State()).(line := 0)
    {
      line := 0;
    }
  }
}
