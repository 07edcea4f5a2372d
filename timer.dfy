// The CPU timer (core/src/cpu/timer.rs): a 16-bit divider advanced once per
// T-cycle, and the TIMA counter, which counts falling edges of one divider
// bit chosen by TAC.  When TIMA overflows it reads 0 for four T-cycles and is
// then reloaded from TMA, which raises the timer interrupt.
//
// `TimerState` and `Step` describe one T-cycle as a value; the `Timer` class
// holds the same five fields and its `Tick` loop is proved to follow `Run`,
// the iteration of `Step`.

module CpuTimer {
  import opened Utils

  /// Addresses of the four timer registers.
  const DIV: bv16 := 0xFF04
  const TIMA: bv16 := 0xFF05
  const TMA: bv16 := 0xFF06
  const TAC: bv16 := 0xFF07

  /// The bit of TAC that enables counting (bit 3 in this source).
  const TAC_ENABLE_BIT: bv8 := 3

  /// T-cycles between an overflow of TIMA and its reload from TMA.
  const TIMA_COOLDOWN_OVERFLOW: bv8 := 4

  /// The fields of `Timer`.
  datatype TimerState = TimerState(div: bv16, tima: bv8, tma: bv8, tac: bv8, cooldown: bv8)

  const Initial := TimerState(0, 0, 0, 0, 0)

  predicate IsTimerAddr(addr: bv16)
  {
    addr == DIV || addr == TIMA || addr == TMA || addr == TAC
  }

  /// The divider bit that TIMA watches, chosen by TAC bits 0-1:
  /// 00 selects bit 9, 01 bit 3, 10 bit 5 and 11 bit 7.
  function SelectedBit(tac: bv8): (k: bv16)
    ensures k == 3 || k == 5 || k == 7 || k == 9
  {
    var sel := tac & 3;
    if sel == 0 then 9 else if sel == 1 then 3 else if sel == 2 then 5 else 7
  }

  /// `get_tima_period`: the mask of the watched divider bit.
  function TimaPeriod(tac: bv8): bv16
  {
    match tac & 3
    case 0 => 1 << 9
    case 1 => 1 << 3
    case 2 => 1 << 5
    case _ => 1 << 7
  }

  /// The period mask is the watched bit.
  lemma PeriodIsSelectedBit(tac: bv8)
    ensures TimaPeriod(tac) == 1 << SelectedBit(tac)
  {
  }

  /// `tima_tick`: the watched bit of the divider.
  function TimaTick(div: bv16, tac: bv8): bool
  {
    div & TimaPeriod(tac) != 0
  }

  /// The watched bit falls from 1 to 0 on the increment of `d` exactly when
  /// the increment clears every bit up to and including it, so counting
  /// happens once every two periods.
  lemma FallingEdge(d: bv16, tac: bv8)
    ensures (TimaTick(d, tac) && !TimaTick(d + 1, tac))
        <==> (d + 1) & (2 * TimaPeriod(tac) - 1) == 0
  {
  }

  /// What one T-cycle does to TIMA, the cooldown and the interrupt, given
  /// the watched bit before and after the divider's increment: a pending
  /// reload counts down and, when it reaches 0, copies TMA into TIMA and
  /// raises the interrupt; otherwise an enabled falling edge increments
  /// TIMA, and an overflow leaves TIMA at 0 with the cooldown started.
  datatype Counter = Counter(tima: bv8, cooldown: bv8, interrupt: bool)

  function CounterStep(s: TimerState, oldBit: bool, newBit: bool): Counter
  {
    var enabled := GetBit(s.tac, TAC_ENABLE_BIT);
    if s.cooldown != 0 then
      var cooldown := s.cooldown - 1;
      if cooldown == 0 then Counter(s.tma, 0, true)
      else Counter(s.tima, cooldown, false)
    else if (oldBit && enabled) && !(newBit && enabled) then
      var sum := OverflowingAdd8(s.tima, 1);
      if sum.1 then Counter(0, TIMA_COOLDOWN_OVERFLOW, false)
      else Counter(sum.0, 0, false)
    else
      Counter(s.tima, 0, false)
  }

  /// The part of a T-cycle after the divider's increment, given the
  /// state with the divider already advanced and the watched bit from
  /// before the increment.
  function AfterIncrement(s: TimerState, oldBit: bool): (TimerState, bool)
  {
    var newBit := TimaTick(s.div, s.tac);
    var c := CounterStep(s, oldBit, newBit);
    (s.(tima := c.tima, cooldown := c.cooldown), c.interrupt)
  }

  /// One T-cycle of `tick`: the divider advances by one, and the counter
  /// reacts to the watched bit before and after that.
  function Step(s: TimerState): (TimerState, bool)
  {
    AfterIncrement(s.(div := s.div + 1), TimaTick(s.div, s.tac))
  }

  /// `n` T-cycles: the state after them and whether any of them raised the
  /// interrupt.
  function Run(s: TimerState, n: nat): (TimerState, bool)
  {
    if n == 0 then (s, false)
    else
      var before := Run(s, n - 1);
      var after := Step(before.0);
      (after.0, before.1 || after.1)
  }

  /// `read_timer`: DIV reads as the high byte of the divider; an address
  /// that is not a timer register is an error.
  function Read(s: TimerState, addr: bv16): (r: Result<bv8>)
    ensures r.Ok? <==> IsTimerAddr(addr)
  {
    if addr == DIV then Ok(HighByte(s.div))
    else if addr == TIMA then Ok(s.tima)
    else if addr == TMA then Ok(s.tma)
    else if addr == TAC then Ok(s.tac)
    else Err("Trying to read a non-timer register")
  }

  /// `write_timer` as a function of the state: any write to DIV clears the
  /// whole divider, a write to TIMA also cancels a pending reload; an
  /// address that is not a timer register is an error.
  function Write(s: TimerState, addr: bv16, val: bv8): (r: Result<TimerState>)
    ensures r.Ok? <==> IsTimerAddr(addr)
  {
    if addr == DIV then Ok(s.(div := 0))
    else if addr == TIMA then Ok(s.(tima := val, cooldown := 0))
    else if addr == TMA then Ok(s.(tma := val))
    else if addr == TAC then Ok(s.(tac := val))
    else Err("Trying to write to non-timer register")
  }

  // ---------------------------------------------------------------------
  // Properties of read and write

  /// A value written to TIMA, TMA or TAC reads back; DIV reads 0 after any
  /// write; and a write to one register leaves the others' reads alone.
  lemma WriteThenRead(s: TimerState, addr: bv16, val: bv8, other: bv16)
    requires IsTimerAddr(addr)
    ensures var t := Write(s, addr, val).value;
      && Read(t, addr) == Ok(if addr == DIV then 0 else val)
      && (IsTimerAddr(other) && other != addr ==> Read(t, other) == Read(s, other))
  {
  }

  /// Writing TIMA cancels a pending reload: the next T-cycle raises no
  /// interrupt and does not overwrite the written value with TMA.
  lemma WriteTimaCancelsReload(s: TimerState, val: bv8)
    ensures var t := Write(s, TIMA, val).value;
      && t.cooldown == 0
      && !Step(t).1
      && (Step(t).0.tima == val || Step(t).0.tima == val + 1)
  {
  }

  // ---------------------------------------------------------------------
  // Properties of one T-cycle

  /// The divider advances by exactly one, wrapping at 2^16, and TMA and TAC
  /// are never changed.
  lemma StepDiv(s: TimerState)
    ensures Step(s).0.div == s.div + 1
    ensures Step(s).0.tma == s.tma && Step(s).0.tac == s.tac
  {
  }

  /// One more T-cycle is one more step.
  lemma RunStep(s: TimerState, n: nat, cur: TimerState, irq: bool, next: TimerState, r: bool)
    requires (cur, irq) == Run(s, n)
    requires (next, r) == Step(cur)
    ensures (next, irq || r) == Run(s, n + 1)
  {
  }

  /// The cooldown never exceeds 4.
  predicate Inv(s: TimerState)
  {
    s.cooldown <= TIMA_COOLDOWN_OVERFLOW
  }

  lemma StepInv(s: TimerState)
    requires Inv(s)
    ensures Inv(Step(s).0)
  {
  }

  /// A T-cycle raises the interrupt exactly when it ends a cooldown.
  lemma StepInterrupt(s: TimerState)
    ensures Step(s).1 <==> s.cooldown == 1
  {
  }

  /// TIMA changes only in two ways: the last cooldown cycle copies TMA into
  /// it, or, with no cooldown pending and counting enabled, the watched bit
  /// falls and TIMA goes up by one (to 0 on overflow, starting the
  /// cooldown).  The four lemmas below take the cases in turn.
  lemma StepReload(s: TimerState)
    requires s.cooldown == 1
    ensures Step(s).0.tima == s.tma && Step(s).0.cooldown == 0
  {
  }

  lemma StepCooldown(s: TimerState)
    requires s.cooldown > 1
    ensures Step(s).0.tima == s.tima && Step(s).0.cooldown == s.cooldown - 1
  {
  }

  lemma StepCount(s: TimerState)
    requires s.cooldown == 0
    requires GetBit(s.tac, TAC_ENABLE_BIT) && TimaTick(s.div, s.tac) && !TimaTick(s.div + 1, s.tac)
    ensures Step(s).0.tima == s.tima + 1
    ensures Step(s).0.cooldown == if s.tima == 0xFF then TIMA_COOLDOWN_OVERFLOW else 0
  {
  }

  lemma StepHold(s: TimerState)
    requires s.cooldown == 0
    requires !(GetBit(s.tac, TAC_ENABLE_BIT) && TimaTick(s.div, s.tac) && !TimaTick(s.div + 1, s.tac))
    ensures Step(s).0.tima == s.tima && Step(s).0.cooldown == 0
  {
  }

  // ---------------------------------------------------------------------
  // Properties of several T-cycles

  /// The divider after `n` increments, each wrapping at 2^16.
  function Advance(d: bv16, n: nat): bv16
  {
    if n == 0 then d else Advance(d, n - 1) + 1
  }

  /// `n` T-cycles advance the divider `n` times.
  lemma {:induction false} RunDiv(s: TimerState, n: nat)
    ensures Run(s, n).0.div == Advance(s.div, n)
  {
    if n != 0 {
      RunDiv(s, n - 1);
      StepDiv(Run(s, n - 1).0);
    }
  }

  /// A byte's worth of increments adds that byte to the divider, modulo
  /// 2^16.
  lemma AdvanceByte(d: bv16, n: bv8)
    ensures Advance(d, n as int) == d + n as bv16
  {
    AdvanceByteAt(d, n as int, n);
    AdvanceBy8Sum(d, n);
  }

  /// `Advance` counted by a byte instead of a natural number.
  function AdvanceBy8(d: bv16, n: bv8): bv16
  {
    if n == 0 then d else AdvanceBy8(d, n - 1) + 1
  }

  lemma {:induction false} AdvanceBy8Sum(d: bv16, n: bv8)
    ensures AdvanceBy8(d, n) == d + n as bv16
  {
    if n != 0 {
      AdvanceBy8Sum(d, n - 1);
    }
  }

  lemma {:induction false} AdvanceByteAt(d: bv16, m: nat, n: bv8)
    requires m == n as int
    ensures Advance(d, m) == AdvanceBy8(d, n)
  {
    if n != 0 {
      PredecessorAsInt(n);
      AdvanceByteAt(d, m - 1, n - 1);
      AdvanceBoth(d, m, n);
    } else {
      assert m == 0;
    }
  }

  lemma AdvanceBoth(d: bv16, m: nat, n: bv8)
    requires m == n as int && n != 0
    requires n as int >= 1 && (n - 1) as int == n as int - 1
    requires Advance(d, m - 1) == AdvanceBy8(d, n - 1)
    ensures Advance(d, m) == AdvanceBy8(d, n)
  {
  }

  lemma PredecessorAsInt(n: bv8)
    requires n != 0
    ensures n as int >= 1 && (n - 1) as int == n as int - 1
  {
  }

  /// The cooldown bound holds through any number of T-cycles.
  lemma {:induction false} RunInv(s: TimerState, n: nat)
    requires Inv(s)
    ensures Inv(Run(s, n).0)
    decreases n
  {
    if n != 0 {
      RunInv(s, n - 1);
      StepInv(Run(s, n - 1).0);
    }
  }

  /// With counting disabled and no reload pending, TIMA stays put, no
  /// reload starts and no interrupt is raised.
  lemma {:induction false} DisabledNeverCounts(s: TimerState, n: nat)
    requires !GetBit(s.tac, TAC_ENABLE_BIT) && s.cooldown == 0
    ensures var r := Run(s, n);
      r.0.tima == s.tima && r.0.cooldown == 0 && r.0.tac == s.tac && !r.1
    decreases n
  {
    if n != 0 {
      DisabledNeverCounts(s, n - 1);
    }
  }

  /// A call raises the interrupt exactly when one of its T-cycles ends a
  /// cooldown, that is, starts with the cooldown at 1.
  lemma {:induction false} RunInterrupt(s: TimerState, n: nat)
    ensures Run(s, n).1 <==> exists i: nat :: i < n && Run(s, i).0.cooldown == 1
    decreases n
  {
    if n != 0 {
      RunInterrupt(s, n - 1);
      StepInterrupt(Run(s, n - 1).0);
      if Run(s, n).1 && !Run(s, n - 1).1 {
        assert n - 1 < n && Run(s, n - 1).0.cooldown == 1;
      }
      if exists i: nat :: i < n && Run(s, i).0.cooldown == 1 {
        var i: nat :| i < n && Run(s, i).0.cooldown == 1;
        if i != n - 1 {
          assert i < n - 1;
        }
      }
    }
  }

  /// Once TIMA has overflowed, it reads 0 and no interrupt is raised for
  /// three T-cycles; the fourth copies TMA (as it stands then) into TIMA,
  /// ends the cooldown and raises the interrupt.
  lemma {:induction false} CooldownThenReload(s: TimerState)
    requires s.cooldown == TIMA_COOLDOWN_OVERFLOW && s.tima == 0
    ensures forall k: nat :: 0 < k < 4 ==> Run(s, k).0.tima == 0 && !Run(s, k).1
    ensures Run(s, 4).0.tima == s.tma && Run(s, 4).0.cooldown == 0 && Run(s, 4).1
  {
    var s1 := Step(s).0;
    var s2 := Step(s1).0;
    var s3 := Step(s2).0;
    assert Run(s, 1) == Step(s);
    assert Run(s, 2).0 == s2;
    assert Run(s, 3).0 == s3;
    assert Run(s, 4).0 == Step(s3).0;
  }

  /// An overflow followed by a write to TMA within the cooldown: the reload
  /// uses the newly written value.
  lemma WriteTmaDuringCooldown(s: TimerState, val: bv8)
    requires s.cooldown == TIMA_COOLDOWN_OVERFLOW && s.tima == 0
    ensures Run(Write(s, TMA, val).value, 4).0.tima == val
  {
    CooldownThenReload(Write(s, TMA, val).value);
  }

  /// The overflowing increment: TIMA at 0xFF with counting enabled and the
  /// watched bit falling goes to 0 and starts the 4-cycle cooldown without
  /// raising the interrupt.
  lemma OverflowStartsCooldown(s: TimerState)
    requires s.cooldown == 0 && s.tima == 0xFF && GetBit(s.tac, TAC_ENABLE_BIT)
    requires TimaTick(s.div, s.tac) && !TimaTick(s.div + 1, s.tac)
    ensures Step(s).0.tima == 0 && Step(s).0.cooldown == TIMA_COOLDOWN_OVERFLOW && !Step(s).1
  {
  }

  /// The timer itself.
  class Timer {
    var div: bv16
    var tima: bv8
    var tma: bv8
    var tac: bv8
    var tima_cooldown: bv8

    function State(): TimerState
      reads this
    {
      TimerState(div, tima, tma, tac, tima_cooldown)
    }

    /// `Timer::new`: every register and the cooldown are 0.
    constructor ()
      ensures State() == Initial && Inv(State())
    {
      div, tima, tma, tac, tima_cooldown := 0, 0, 0, 0, 0;
    }

    /// `tick`: runs 4 T-cycles per M-cycle (the product is a byte, so at
    /// most 63 M-cycles) and returns whether a reload happened.
    method Tick(m_cycles: bv8) returns (interrupt: bool)
      requires m_cycles <= 63
      modifies this
      ensures (State(), interrupt) == Run(old(State()), (4 * m_cycles) as int)
    {
      interrupt := false;
      var t_cycles := 4 * m_cycles;
      var i: nat := 0;
      while i < t_cycles as int
        invariant i <= t_cycles as int
        invariant (State(), interrupt) == Run(old(State()), i)
      {
        ghost var before := State();
        var reloaded := TCycle();
        RunStep(old(State()), i, before, interrupt, State(), reloaded);
        interrupt := interrupt || reloaded;
        i := i + 1;
      }
    }

    /// The body of the loop of `tick`: one T-cycle.
    method TCycle() returns (reloaded: bool)
      modifies this
      ensures (State(), reloaded) == Step(old(State()))
    {
      var oldBit := TimaTick(div, tac);
      div := div + 1;
      reloaded := CountEdge(oldBit);
    }

    /// The rest of a T-cycle of `tick`, after the divider's increment: the
    /// watched bit is read again and the cooldown or TIMA updated.
    method CountEdge(oldBit: bool) returns (reloaded: bool)
      modifies this
      ensures (State(), reloaded) == AfterIncrement(old(State()), oldBit)
    {
      var newBit := TimaTick(div, tac);
      var enabled := GetBit(tac, TAC_ENABLE_BIT);
      reloaded := false;
      if tima_cooldown != 0 {
        tima_cooldown := tima_cooldown - 1;
        if tima_cooldown == 0 {
          tima := tma;
          reloaded := true;
        }
      } else if (oldBit && enabled) && !(newBit && enabled) {
        var sum := OverflowingAdd8(tima, 1);
        tima := sum.0;
        if sum.1 {
          tima := 0;
          tima_cooldown := TIMA_COOLDOWN_OVERFLOW;
        }
      }
    }

    /// `write_timer`.
    method WriteTimer(addr: bv16, val: bv8) returns (r: Result<()>)
      modifies this
      ensures r.Ok? <==> IsTimerAddr(addr)
      ensures State() == (if r.Ok? then Write(old(State()), addr, val).value else old(State()))
    {
      if addr == DIV {
        div := 0;
        r := Ok(());
      } else if addr == TIMA {
        tima := val;
        tima_cooldown := 0;
        r := Ok(());
      } else if addr == TMA {
        tma := val;
        r := Ok(());
      } else if addr == TAC {
        tac := val;
        r := Ok(());
      } else {
        r := Err("Trying to write to non-timer register");
      }
    }
  }

  /// A tick of `m` M-cycles advances the divider by 4m modulo 2^16.
  lemma TickAdvancesDiv(s: TimerState, m: bv8)
    requires m <= 63
    ensures Run(s, (4 * m) as int).0.div == s.div + 4 * (m as bv16)
  {
    RunDiv(s, (4 * m) as int);
    AdvanceByte(s.div, 4 * m);
    WidenQuadruple(m);
  }

  lemma WidenQuadruple(m: bv8)
    requires m <= 63
    ensures (4 * m) as bv16 == 4 * (m as bv16)
  {
  }
}
