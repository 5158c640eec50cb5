/**
 * Hardware PWM on a BCM2711: the PWM block's two channels and the clock
 * manager that feeds them a 1 MHz clock.
 *
 * Both register blocks are 4 KiB windows of 32-bit words. hpwm_init programs
 * the PWM clock (divisor 54 from the 54 MHz oscillator), hpwm_set picks the
 * pin's channel, computes the range and data words from the frequency and
 * the per-mille duty, and enables the channel in mark-space mode, and
 * hpwm_stop clears the control word. Register offsets and control bits are
 * those of the PWM and clock-manager chapters of the BCM2711 ARM
 * Peripherals datasheet.
 *
 * The effect of hpwm_set is first written as a function on a sequence of
 * words (SetPwmRegs); the class HwPwm performs the same steps on arrays
 * and is proved to agree with it.
 */
module RpiHwPwm {
  import opened RpiGpio

  // Word offsets in the PWM block.
  const PWM_CTL: nat := 0
  const PWM_STA: nat := 1
  const PWM_DMAC: nat := 2
  const PWM_RNG1: nat := 4
  const PWM_DAT1: nat := 5
  const PWM_FIF1: nat := 6
  const PWM_RNG2: nat := 8
  const PWM_DAT2: nat := 9

  // Word offsets of the PWM clock in the clock-manager block.
  const CM_PWMCTL: nat := 40
  const CM_PWMDIV: nat := 41

  /** The password every clock-manager write carries in its top byte. */
  const CM_PASSWD: bv32 := 0x5A << 24

  /** The PWM clock after hpwm_init, in Hz: a range of r counts lasts r us. */
  const PWM_CLOCK_HZ: int := 1000000

  // ---------------------------------------------------------------------
  // Clock-manager words written by hpwm_init.

  /** Stop the PWM clock: password, source 1, ENAB (bit 4) clear. */
  const CLK_KILL: bv32 := CM_PASSWD | 1

  /** Divisor: DIVI = 54 in bits 12..23, DIVF = 0. */
  const CLK_DIV: bv32 := CM_PASSWD | (54 << 12) | 0

  /** Run the PWM clock: password, ENAB (bit 4), source 1 (oscillator). */
  const CLK_ENABLE: bv32 := CM_PASSWD | 16 | 1

  /** The three clock words carry the password, the divisor word holds
      integer divisor 54 and no fraction (54 MHz / 54 = 1 MHz), the enable
      word sets ENAB with source 1, and the kill word has ENAB clear. */
  lemma ClockWords()
    ensures CLK_KILL >> 24 == 0x5A && CLK_DIV >> 24 == 0x5A && CLK_ENABLE >> 24 == 0x5A
    ensures (CLK_DIV >> 12) & 0xFFF == 54 && CLK_DIV & 0xFFF == 0
    ensures CLK_ENABLE & 0xF == 1 && BitSet(CLK_ENABLE, 4)
    ensures CLK_KILL & 0xF == 1 && !BitSet(CLK_KILL, 4)
    ensures CLK_KILL == 0x5A00_0001 && CLK_DIV == 0x5A03_6000 && CLK_ENABLE == 0x5A00_0011
  {
  }

  // ---------------------------------------------------------------------
  // What hpwm_set computes.

  /** The duty in per mille, clamped to 0..1000. */
  function ClampPerMille(duty: int): (d: int)
    ensures 0 <= d <= 1000
    ensures 0 <= duty <= 1000 ==> d == duty
    ensures duty < 0 ==> d == 0
    ensures duty > 1000 ==> d == 1000
  {
    if duty < 0 then 0 else if duty > 1000 then 1000 else duty
  }

  /** PWM channel 1 serves pins 13 and 19; every other pin is sent to
      channel 0. */
  function Channel(pin: int): (c: int)
    ensures c == 0 || c == 1
    ensures c == 1 <==> pin == 13 || pin == 19
  {
    if pin == 13 || pin == 19 then 1 else 0
  }

  /** range = 1000000 / freq: the whole number of 1 MHz clock counts in one
      period, the largest r with r * freq <= 1000000. */
  function Range(freq: int): (r: nat)
    requires freq > 0
    ensures r <= PWM_CLOCK_HZ
    ensures r * freq <= PWM_CLOCK_HZ < (r + 1) * freq
  {
    PWM_CLOCK_HZ / freq
  }

  /** data = range * duty / 1000 (computed in 64 bits, so it does not
      overflow): the counts of the period the output stays high. */
  function Data(range: nat, duty: int): (data: nat)
    requires 0 <= duty <= 1000
    ensures data <= range
    ensures data * 1000 <= range * duty < (data + 1) * 1000
  {
    MulLe(range, duty, 1000);
    range * duty / 1000
  }

  /** range * duty <= range * 1000 for duty <= 1000. */
  lemma MulLe(range: nat, duty: nat, bound: nat)
    requires duty <= bound
    ensures range * duty <= range * bound
  {
  }

  /** The range and data words of a valid call fit a register. */
  lemma {:induction false} RangeDataBounds(freq: int, duty: int)
    requires freq > 0
    ensures 0 <= Data(Range(freq), ClampPerMille(duty)) <= Range(freq) <= PWM_CLOCK_HZ
    ensures Range(freq) < 0x1_0000_0000
  {
    var r := Range(freq);
    var d := Data(r, ClampPerMille(duty));
    assert d <= r;
  }

  // ---------------------------------------------------------------------
  // The control word.

  /** Channel 0's control update: clear PWEN1 (bit 0), then set MSEN1 (bit
      7) and PWEN1. */
  function Ch0Ctl(ctl: bv32): bv32 {
    (ctl & !Bit(0)) | (Bit(7) | Bit(0))
  }

  /** Channel 1's control update: clear PWEN2 (bit 8), then set MSEN2 (bit
      15) and PWEN2. */
  function Ch1Ctl(ctl: bv32): bv32 {
    (ctl & !Bit(8)) | (Bit(15) | Bit(8))
  }

  /** Channel 0 ends enabled in mark-space mode, and no other control bit
      changes (in particular channel 1's bits 8..15 are kept). */
  lemma Ch0CtlBits(ctl: bv32)
    ensures BitSet(Ch0Ctl(ctl), 0) && BitSet(Ch0Ctl(ctl), 7)
    ensures Ch0Ctl(ctl) & !0x81 == ctl & !0x81
  {
  }

  /** Channel 1 ends enabled in mark-space mode, and no other control bit
      changes (in particular channel 0's bits 0..7 are kept). */
  lemma Ch1CtlBits(ctl: bv32)
    ensures BitSet(Ch1Ctl(ctl), 8) && BitSet(Ch1Ctl(ctl), 15)
    ensures Ch1Ctl(ctl) & !0x8100 == ctl & !0x8100
  {
  }

  // ---------------------------------------------------------------------
  // hpwm_set on the PWM block.

  /** The PWM block after hpwm_set(pin, freq, duty) with freq > 0 and both
      blocks mapped: the channel's control update, then its range and data
      words. */
  function SetPwmRegs(regs: seq<bv32>, pin: int, freq: int, duty: int): (r: seq<bv32>)
    requires |regs| == BLOCK_WORDS && freq > 0
    ensures |r| == |regs|
  {
    RangeDataBounds(freq, duty);
    var range := Range(freq);
    var data := Data(range, ClampPerMille(duty));
    if Channel(pin) == 0 then
      regs[PWM_CTL := Ch0Ctl(regs[PWM_CTL])][PWM_RNG1 := WordOf(range)][PWM_DAT1 := WordOf(data)]
    else
      regs[PWM_CTL := Ch1Ctl(regs[PWM_CTL])][PWM_RNG2 := WordOf(range)][PWM_DAT2 := WordOf(data)]
  }

  /** On channel 0, hpwm_set writes RNG1 and DAT1, updates the control word
      so that channel 0 is enabled in mark-space mode with every other control
      bit kept, and leaves every other word (RNG2 and DAT2 among them)
      as it was. */
  lemma SetChannel0Regs(regs: seq<bv32>, pin: int, freq: int, duty: int)
    requires |regs| == BLOCK_WORDS && freq > 0 && Channel(pin) == 0
    ensures Range(freq) < 0x1_0000_0000
    ensures var r := SetPwmRegs(regs, pin, freq, duty);
      && r[PWM_CTL] == Ch0Ctl(regs[PWM_CTL])
      && BitSet(r[PWM_CTL], 0) && BitSet(r[PWM_CTL], 7)
      && r[PWM_CTL] & !0x81 == regs[PWM_CTL] & !0x81
      && r[PWM_RNG1] == WordOf(Range(freq))
      && r[PWM_DAT1] == WordOf(Data(Range(freq), ClampPerMille(duty)))
      && (forall j :: 0 <= j < |regs| && j != PWM_CTL && j != PWM_RNG1 && j != PWM_DAT1 ==> r[j] == regs[j])
  {
    RangeDataBounds(freq, duty);
    Ch0CtlBits(regs[PWM_CTL]);
  }

  /** On channel 1, hpwm_set writes RNG2 and DAT2, updates the control word
      so that channel 1 is enabled in mark-space mode with every other control
      bit kept, and leaves every other word (RNG1 and DAT1 among them)
      as it was. */
  lemma SetChannel1Regs(regs: seq<bv32>, pin: int, freq: int, duty: int)
    requires |regs| == BLOCK_WORDS && freq > 0 && Channel(pin) == 1
    ensures Range(freq) < 0x1_0000_0000
    ensures var r := SetPwmRegs(regs, pin, freq, duty);
      && r[PWM_CTL] == Ch1Ctl(regs[PWM_CTL])
      && BitSet(r[PWM_CTL], 8) && BitSet(r[PWM_CTL], 15)
      && r[PWM_CTL] & !0x8100 == regs[PWM_CTL] & !0x8100
      && r[PWM_RNG2] == WordOf(Range(freq))
      && r[PWM_DAT2] == WordOf(Data(Range(freq), ClampPerMille(duty)))
      && (forall j :: 0 <= j < |regs| && j != PWM_CTL && j != PWM_RNG2 && j != PWM_DAT2 ==> r[j] == regs[j])
  {
    RangeDataBounds(freq, duty);
    Ch1CtlBits(regs[PWM_CTL]);
  }

  // ---------------------------------------------------------------------
  // The map pointers.

  /** A map pointer: NULL, pointing at a live mapping, or non-NULL without a
      live mapping behind it (MAP_FAILED, or a mapping already unmapped). */
  datatype Ptr = Null | Live | Dangling

  /** hpwm_set's guard `!pwm_map || !clk_map`: it goes on to write the
      registers when neither pointer is NULL. */
  predicate SetGuard(pwm: Ptr, clk: Ptr) {
    pwm != Null && clk != Null
  }

  /** Every non-NULL pointer has a live mapping behind it. */
  predicate PtrsSound(pwm: Ptr, clk: Ptr) {
    pwm != Dangling && clk != Dangling
  }

  /** hpwm_init's pointer bookkeeping as written: the new PWM pointer, the
      new clock pointer and the status, for the outcomes of open() and the
      two mmap() calls. A failed PWM mmap leaves MAP_FAILED in pwm_map; a
      failed clock mmap unmaps the PWM block without clearing pwm_map and
      leaves MAP_FAILED in clk_map. */
  function InitPtrsAsWritten(openOk: bool, pwmMapOk: bool, clkMapOk: bool, pwm: Ptr, clk: Ptr): (r: (Ptr, Ptr, int))
    ensures r.2 == 0 || r.2 == -1
    ensures r.2 == 0 <==> openOk && pwmMapOk && clkMapOk
    ensures r.2 == 0 ==> r.0 == Live && r.1 == Live
  {
    if !openOk then (pwm, clk, -1)
    else if !pwmMapOk then (Dangling, clk, -1)
    else if !clkMapOk then (Dangling, Dangling, -1)
    else (Live, Live, 0)
  }

  /** With the clock mapping failing, hpwm_init as written returns -1 yet
      leaves both pointers non-NULL, so a following hpwm_set passes its
      guard and writes through two pointers with no mapping behind them. */
  lemma InitClockFailureLeavesGuardOpen(pwm: Ptr, clk: Ptr)
    ensures InitPtrsAsWritten(true, true, false, pwm, clk) == (Dangling, Dangling, -1)
    ensures SetGuard(Dangling, Dangling) && !PtrsSound(Dangling, Dangling)
  {
  }

  /** hpwm_init's pointer bookkeeping with every failure path leaving the
      pointer it could not map NULL (and the PWM pointer NULL once its block
      is unmapped). */
  function InitPtrs(openOk: bool, pwmMapOk: bool, clkMapOk: bool, pwm: Ptr, clk: Ptr): (r: (Ptr, Ptr, int))
    ensures r.2 == 0 || r.2 == -1
    ensures r.2 == 0 <==> openOk && pwmMapOk && clkMapOk
    ensures openOk && !(pwmMapOk && clkMapOk) ==> r.0 == Null
  {
    if !openOk then (pwm, clk, -1)
    else if !pwmMapOk then (Null, clk, -1)
    else if !clkMapOk then (Null, Null, -1)
    else (Live, Live, 0)
  }

  /** The corrected hpwm_init keeps every non-NULL pointer live, succeeds
      exactly when open and both mappings do, and then leaves both blocks
      mapped; so hpwm_set's guard passes only with both blocks mapped. */
  lemma InitPtrsSound(openOk: bool, pwmMapOk: bool, clkMapOk: bool, pwm: Ptr, clk: Ptr)
    requires PtrsSound(pwm, clk)
    ensures var (p, c, status) := InitPtrs(openOk, pwmMapOk, clkMapOk, pwm, clk);
      && PtrsSound(p, c)
      && (status == 0 <==> openOk && pwmMapOk && clkMapOk)
      && (status == 0 || status == -1)
      && (status == 0 ==> p == Live && c == Live)
      && (SetGuard(p, c) ==> p == Live && c == Live)
  {
  }

  // ---------------------------------------------------------------------

  /**
   * The PWM block, the clock-manager block and their map pointers, with
   * the GPIO block hpwm_set routes the pin through.
   */
  class HwPwm {
    var pwmPtr: Ptr
    var clkPtr: Ptr
    const pwmRegs: array<bv32>
    const clkRegs: array<bv32>
    const gpio: GpioMap

    ghost predicate Valid()
      reads this
    {
      && pwmRegs.Length == BLOCK_WORDS && clkRegs.Length == BLOCK_WORDS
      && pwmRegs != clkRegs && gpio.regs != pwmRegs && gpio.regs != clkRegs
      && gpio.Valid()
      && PtrsSound(pwmPtr, clkPtr)
    }

    /** Both blocks unmapped (pwm_map = clk_map = NULL). */
    constructor (gpio: GpioMap, pwmContents: seq<bv32>, clkContents: seq<bv32>)
      requires gpio.Valid()
      requires |pwmContents| == BLOCK_WORDS && |clkContents| == BLOCK_WORDS
      ensures Valid() && fresh(pwmRegs) && fresh(clkRegs) && this.gpio == gpio
      ensures pwmPtr == Null && clkPtr == Null
      ensures pwmRegs[..] == pwmContents && clkRegs[..] == clkContents
    {
      this.gpio := gpio;
      pwmPtr := Null;
      clkPtr := Null;
      pwmRegs := new bv32[BLOCK_WORDS](i requires 0 <= i < BLOCK_WORDS => pwmContents[i]);
      clkRegs := new bv32[BLOCK_WORDS](i requires 0 <= i < BLOCK_WORDS => clkContents[i]);
    }

    /** hpwm_init, with the outcomes of open() and of the two mmap() calls
        as parameters and the failure paths clearing the pointers (see
        InitPtrs). On success the PWM clock is stopped, given divisor 54
        and started from the oscillator. */
    method Init(openOk: bool, pwmMapOk: bool, clkMapOk: bool) returns (status: int)
      requires Valid()
      modifies this, clkRegs
      ensures Valid()
      ensures (pwmPtr, clkPtr, status) == InitPtrs(openOk, pwmMapOk, clkMapOk, old(pwmPtr), old(clkPtr))
      ensures status == 0 ==> clkRegs[..] == old(clkRegs[..])[CM_PWMCTL := CLK_ENABLE][CM_PWMDIV := CLK_DIV]
      ensures status != 0 ==> clkRegs[..] == old(clkRegs[..])
    {
      if !openOk {
        return -1;
      }
      if !pwmMapOk {
        pwmPtr := Null;
        return -1;
      }
      pwmPtr := Live;
      if !clkMapOk {
        pwmPtr := Null;
        clkPtr := Null;
        return -1;
      }
      clkPtr := Live;

      clkRegs[CM_PWMCTL] := CM_PASSWD | 1;
      clkRegs[CM_PWMDIV] := CM_PASSWD | (54 << 12) | 0;
      clkRegs[CM_PWMCTL] := CM_PASSWD | 16 | 1;
      return 0;
    }

    /** hpwm_set(pin, freqHz, dutyPerMille). A frequency of zero or less, or
        a block not mapped, leaves every register alone; otherwise the pin
        is switched to ALT5 and its channel programmed. */
    method Set(pin: int, freqHz: int, dutyPerMille: int)
      requires Valid()
      modifies pwmRegs, gpio.regs
      ensures Valid()
      ensures freqHz <= 0 || !SetGuard(pwmPtr, clkPtr) ==>
                pwmRegs[..] == old(pwmRegs[..]) && gpio.regs[..] == old(gpio.regs[..])
      ensures freqHz > 0 && SetGuard(pwmPtr, clkPtr) ==>
                && pwmRegs[..] == SetPwmRegs(old(pwmRegs[..]), pin, freqHz, dutyPerMille)
                && gpio.regs[..] == SetFunctionRegs(old(gpio.regs[..]), gpio.mapped, pin, ALT5)
    {
      if freqHz <= 0 { return; }
      var duty := dutyPerMille;
      if duty < 0 { duty := 0; }
      if duty > 1000 { duty := 1000; }

      if pwmPtr == Null || clkPtr == Null { return; }

      gpio.SetFunction(pin, ALT5);
      ProgramPwm(pwmRegs, pin, freqHz, duty);
    }

    /** hpwm_stop: writes 0 to the control word if the PWM block is mapped,
        and clears both pointers. */
    method Stop()
      requires Valid()
      modifies this, pwmRegs
      ensures Valid()
      ensures pwmPtr == Null && clkPtr == Null
      ensures old(pwmPtr) != Null ==> pwmRegs[..] == old(pwmRegs[..])[PWM_CTL := 0]
      ensures old(pwmPtr) == Null ==> pwmRegs[..] == old(pwmRegs[..])
      ensures old(pwmPtr) != Null ==> !BitSet(pwmRegs[PWM_CTL], 0) && !BitSet(pwmRegs[PWM_CTL], 8)
    {
      if pwmPtr != Null {
        pwmRegs[PWM_CTL] := 0;
        pwmPtr := Null;
      }
      if clkPtr != Null {
        clkPtr := Null;
      }
    }
  }

  /** hpwm_set after its guards, on the PWM block: choose the channel,
      compute range and data, and program the channel. */
  method ProgramPwm(regs: array<bv32>, pin: int, freqHz: int, duty: int)
    requires regs.Length == BLOCK_WORDS && freqHz > 0 && 0 <= duty <= 1000
    modifies regs
    ensures regs[..] == SetPwmRegs(old(regs[..]), pin, freqHz, duty)
  {
    var channel := 0;
    if pin == 13 || pin == 19 { channel := 1; }

    RangeDataBounds(freqHz, duty);
    var range := 1000000 / freqHz;
    var data := range * duty / 1000;
    assert range == Range(freqHz) && data == Data(range, ClampPerMille(duty));

    if channel == 0 {
      ProgramChannel(regs, Bit(0), Bit(7) | Bit(0), PWM_RNG1, PWM_DAT1, WordOf(range), WordOf(data));
    } else {
      ProgramChannel(regs, Bit(8), Bit(15) | Bit(8), PWM_RNG2, PWM_DAT2, WordOf(range), WordOf(data));
    }
  }

  /** One channel's register sequence in hpwm_set: clear the enable bit,
      store range and data, then set the mode and enable bits. */
  method ProgramChannel(regs: array<bv32>, enable: bv32, modeEnable: bv32,
                        rng: nat, dat: nat, rangeWord: bv32, dataWord: bv32)
    requires regs.Length == BLOCK_WORDS && PWM_CTL != rng && PWM_CTL != dat && rng != dat
    requires rng < BLOCK_WORDS && dat < BLOCK_WORDS
    modifies regs
    ensures regs[..] == old(regs[..])[PWM_CTL := (old(regs[PWM_CTL]) & !enable) | modeEnable]
                                     [rng := rangeWord][dat := dataWord]
  {
    regs[PWM_CTL] := regs[PWM_CTL] & !enable;
    regs[rng] := rangeWord;
    regs[dat] := dataWord;
    regs[PWM_CTL] := regs[PWM_CTL] | modeEnable;
  }
}
