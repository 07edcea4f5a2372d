// The joypad register (0xFF00).
//
// Eight buttons form two groups of four: A, B, Select and Start, and the
// d-pad Right, Left, Up and Down.  The CPU selects a group by clearing bit 5
// (buttons) or bit 4 (d-pad) of the register and reads the group back in
// the low nibble, where a pressed button reads as 0.

module Joypad {
  import opened Utils

  datatype Button = A | B | Select | Start | Right | Left | Up | Down

  const BUTTON_COUNT: int := 8
  const GROUP_SIZE: int := 4

  /// `Buttons::get_index`: A, B, Select, Start take slots 0-3 and Right,
  /// Left, Up, Down slots 4-7.
  function Index(b: Button): (i: int)
    ensures 0 <= i < BUTTON_COUNT
    ensures i < GROUP_SIZE <==> b in {A, B, Select, Start}
  {
    match b
    case A => 0
    case B => 1
    case Select => 2
    case Start => 3
    case Right => 4
    case Left => 5
    case Up => 6
    case Down => 7
  }

  /// The button that sits in slot `i`.
  function ButtonAt(i: int): (b: Button)
    requires 0 <= i < BUTTON_COUNT
  {
    if i == 0 then A
    else if i == 1 then B
    else if i == 2 then Select
    else if i == 3 then Start
    else if i == 4 then Right
    else if i == 5 then Left
    else if i == 6 then Up
    else Down
  }

  /// The slot numbering is a bijection between the buttons and 0-7.
  lemma IndexRoundTrip(b: Button, i: int)
    requires 0 <= i < BUTTON_COUNT
    ensures ButtonAt(Index(b)) == b
    ensures Index(ButtonAt(i)) == i
  {
  }

  /// Two buttons never share a slot.
  lemma IndexInjective(b: Button, c: Button)
    requires Index(b) == Index(c)
    ensures b == c
  {
    IndexRoundTrip(b, 0);
    IndexRoundTrip(c, 0);
  }

  /// The state of `IO`: which buttons are pressed and which groups the CPU
  /// has selected.
  datatype JoypadState = JoypadState(btns: seq<bool>, getBtnKeys: bool, getDirKeys: bool)

  predicate WellFormed(s: JoypadState)
  {
    |s.btns| == BUTTON_COUNT
  }

  /// `IO::new`: nothing pressed and nothing selected.
  const Initial := JoypadState(seq(BUTTON_COUNT, _ => false), false, false)

  /// Bit `i` of a packed group: 0 if the button is pressed, 1 if not.
  function Released(pressed: bool, i: int): (bit: bv8)
    requires 0 <= i < GROUP_SIZE
  {
    (if pressed then 0 else 1) << i as bv8
  }

  /// The first `n` buttons of the group starting at slot `base`, packed one
  /// per bit as the loops of `pack_btn_keys` and `pack_dir_keys` do.
  function PackPrefix(btns: seq<bool>, base: int, n: int): (packed: bv8)
    requires 0 <= n <= GROUP_SIZE && 0 <= base && base + GROUP_SIZE <= |btns|
    decreases n
  {
    if n == 0 then 0 else PackPrefix(btns, base, n - 1) | Released(btns[base + n - 1], n - 1)
  }

  /// The whole group starting at slot `base`.
  function Pack(btns: seq<bool>, base: int): (packed: bv8)
    requires 0 <= base && base + GROUP_SIZE <= |btns|
  {
    PackPrefix(btns, base, GROUP_SIZE)
  }

  /// A packed group fits in the low nibble, and its bit `i` is clear exactly
  /// when button `base + i` is pressed.
  lemma PackBits(btns: seq<bool>, base: int, i: int)
    requires 0 <= base && base + GROUP_SIZE <= |btns| && 0 <= i < GROUP_SIZE
    ensures Pack(btns, base) <= 0x0F
    ensures GetBit(Pack(btns, base), i as bv8) <==> !btns[base + i]
  {
    var b0, b1, b2, b3 := btns[base], btns[base + 1], btns[base + 2], btns[base + 3];
    assert Pack(btns, base) == Released(b0, 0) | Released(b1, 1) | Released(b2, 2) | Released(b3, 3);
  }

  /// `read_btns`: the button group when it is selected, otherwise the d-pad
  /// group when that is selected, otherwise 0.
  function ReadBtnsOf(s: JoypadState): (r: bv8)
    requires WellFormed(s)
  {
    if s.getBtnKeys then Pack(s.btns, 0)
    else if s.getDirKeys then Pack(s.btns, GROUP_SIZE)
    else 0
  }

  /// The upper nibble of the register always reads 0.
  lemma ReadFitsNibble(s: JoypadState)
    requires WellFormed(s)
    ensures ReadBtnsOf(s) <= 0x0F
  {
    PackBits(s.btns, 0, 0);
    PackBits(s.btns, GROUP_SIZE, 0);
  }

  /// With the button group selected, bit `i` reads 0 exactly when button
  /// slot `i` is pressed, whether or not the d-pad is selected too.
  lemma ReadButtonGroup(s: JoypadState, i: int)
    requires WellFormed(s) && s.getBtnKeys && 0 <= i < GROUP_SIZE
    ensures !GetBit(ReadBtnsOf(s), i as bv8) <==> s.btns[i]
  {
    PackBits(s.btns, 0, i);
  }

  /// With only the d-pad selected, bit `i` reads 0 exactly when slot
  /// `i + 4` is pressed.
  lemma ReadDirGroup(s: JoypadState, i: int)
    requires WellFormed(s) && !s.getBtnKeys && s.getDirKeys && 0 <= i < GROUP_SIZE
    ensures !GetBit(ReadBtnsOf(s), i as bv8) <==> s.btns[GROUP_SIZE + i]
  {
    PackBits(s.btns, GROUP_SIZE, i);
  }

  /// `poll_btns(val)`: a group is selected when its bit of `val` is clear.
  function PollOn(s: JoypadState, val: bv8): (t: JoypadState)
  {
    s.(getBtnKeys := GetBit(val, 5) == false, getDirKeys := GetBit(val, 4) == false)
  }

  /// Polling decides the read alone: bit 5 clear gives the buttons, bit 5
  /// set and bit 4 clear the d-pad, both set nothing.
  lemma PollThenRead(s: JoypadState, val: bv8)
    requires WellFormed(s)
    ensures WellFormed(PollOn(s, val))
    ensures val & 0x20 == 0 ==> ReadBtnsOf(PollOn(s, val)) == Pack(s.btns, 0)
    ensures val & 0x20 != 0 && val & 0x10 == 0 ==> ReadBtnsOf(PollOn(s, val)) == Pack(s.btns, GROUP_SIZE)
    ensures val & 0x30 == 0x30 ==> ReadBtnsOf(PollOn(s, val)) == 0
  {
    assert GetBit(val, 5) <==> val & 0x20 != 0;
    assert GetBit(val, 4) <==> val & 0x10 != 0;
  }

  /// `btn_toggle(btn, pressed)`: only that button's slot changes.
  function ToggleOn(s: JoypadState, btn: Button, pressed: bool): (t: JoypadState)
    requires WellFormed(s)
    ensures WellFormed(t)
    ensures t.btns[Index(btn)] == pressed
    ensures forall i :: 0 <= i < BUTTON_COUNT && i != Index(btn) ==> t.btns[i] == s.btns[i]
    ensures t.getBtnKeys == s.getBtnKeys && t.getDirKeys == s.getDirKeys
  {
    s.(btns := s.btns[Index(btn) := pressed])
  }

  /// Pressing a button of the selected group clears its bit on the next
  /// read; releasing it sets the bit.
  lemma ToggleThenRead(s: JoypadState, btn: Button, pressed: bool)
    requires WellFormed(s)
    requires s.getBtnKeys ==> Index(btn) < GROUP_SIZE
    requires !s.getBtnKeys ==> s.getDirKeys && Index(btn) >= GROUP_SIZE
    ensures !GetBit(ReadBtnsOf(ToggleOn(s, btn, pressed)), (Index(btn) % GROUP_SIZE) as bv8) <==> pressed
  {
    var t := ToggleOn(s, btn, pressed);
    if s.getBtnKeys {
      ReadButtonGroup(t, Index(btn));
    } else {
      ReadDirGroup(t, Index(btn) - GROUP_SIZE);
    }
  }

  /// A fresh joypad reads 0.
  lemma InitialReadsZero()
    ensures WellFormed(Initial) && ReadBtnsOf(Initial) == 0
  {
  }

  /// `IO`: the pressed state of the eight buttons and the two group
  /// selections.
  class IO {
    var btns: array<bool>
    var getBtnKeys: bool
    var getDirKeys: bool

    function State(): JoypadState
      reads this, btns
    {
      JoypadState(btns[..], getBtnKeys, getDirKeys)
    }

    predicate Valid()
      reads this
    {
      btns.Length == BUTTON_COUNT
    }

    /// `IO::new`.
    constructor ()
      ensures Valid() && fresh(btns) && State() == Initial
    {
      btns := new bool[BUTTON_COUNT](_ => false);
      getBtnKeys := false;
      getDirKeys := false;
      new;
      assert btns[..] == Initial.btns;
    }

    /// `btn_toggle`.
    method BtnToggle(btn: Button, pressed: bool)
      requires Valid()
      modifies btns
      ensures Valid() && State() == ToggleOn(old(State()), btn, pressed)
    {
      var i := Index(btn);
      btns[i] := pressed;
    }

    /// `poll_btns`.
    method PollBtns(val: bv8)
      requires Valid()
      modifies this
      ensures btns == old(btns) && Valid() && State() == PollOn(old(State()), val)
    {
      getBtnKeys := (val & 0x20) == 0;
      getDirKeys := (val & 0x10) == 0;
    }

    /// `read_btns`.
    method ReadBtns() returns (r: bv8)
      requires Valid()
      ensures r == ReadBtnsOf(State())
    {
      if getBtnKeys {
        r := PackBtnKeys();
      } else if getDirKeys {
        r := PackDirKeys();
      } else {
        r := 0;
      }
    }

    /// `pack_btn_keys`: A, B, Select and Start, active low, in bits 0-3.
    method PackBtnKeys() returns (output: bv8)
      requires Valid()
      ensures output == Pack(btns[..], 0)
    {
      output := PackGroup(0);
    }

    /// `pack_dir_keys`: Right, Left, Up and Down, active low, in bits 0-3.
    method PackDirKeys() returns (output: bv8)
      requires Valid()
      ensures output == Pack(btns[..], GROUP_SIZE)
    {
      output := PackGroup(GROUP_SIZE);
    }

    /// The loop both packing functions share, over the group at `base`.
    method PackGroup(base: int) returns (output: bv8)
      requires Valid() && (base == 0 || base == GROUP_SIZE)
      ensures output == Pack(btns[..], base)
    {
      ghost var bs := btns[..];
      output := 0;
      var i := 0;
      while i < GROUP_SIZE
        invariant 0 <= i <= GROUP_SIZE
        invariant output == PackPrefix(bs, base, i)
      {
        var pressed: bv8 := if btns[base + i] then 0 else 1;
        output := output | (pressed << i as bv8);
        i := i + 1;
      }
    }
  }
}
