/**
 * GPIO register access on a BCM2711 (Raspberry Pi 4B).
 *
 * The memory-mapped GPIO block is a 4 KiB window of 32-bit words. Pin
 * direction lives in the GPFSELn words (ten pins per word, three bits per
 * pin), output levels are driven through the write-only GPSETn / GPCLRn
 * words, and input levels are sampled from the GPLEVn words (register
 * offsets as in the GPIO chapter of the BCM2711 ARM Peripherals datasheet).
 *
 * The register effects are first written as functions on a sequence of
 * words; the class GpioMap then performs the same read-modify-write steps on
 * an array and is proved to agree with those functions.
 */
module RpiGpio {

  // Pin modes and alternate-function codes written into a GPFSEL field.
  const INPUT: int := 0
  const OUTPUT: int := 1
  const ALT0: int := 4
  const ALT1: int := 5
  const ALT2: int := 6
  const ALT3: int := 7
  const ALT4: int := 3
  const ALT5: int := 2

  // Logic levels.
  const LOW: int := 0
  const HIGH: int := 1

  // The legal pin range, inclusive at both ends.
  const GPIO_PIN_MIN: int := 0
  const GPIO_PIN_MAX: int := 53

  // Word offsets from the start of the GPIO block.
  const GPSET0: nat := 7
  const GPSET1: nat := 8
  const GPCLR0: nat := 10
  const GPCLR1: nat := 11
  const GPLEV0: nat := 13
  const GPLEV1: nat := 14

  /** The mapped window is BLOCK_SIZE = 4096 bytes, that is 1024 words. */
  const BLOCK_WORDS: nat := 1024

  /** A bit position inside a 32-bit word. */
  type BitPos = b: bv32 | b < 32

  /** The lowest bit of a 3-bit function field; the last field of a GPFSEL
      word starts at bit 27. */
  type FieldPos = b: bv32 | b <= 27

  predicate ValidPin(pin: int) {
    GPIO_PIN_MIN <= pin <= GPIO_PIN_MAX
  }

  /** A small bit position survives the round trip through bv32. */
  lemma SmallToBv(x: int)
    requires 0 <= x < 32
    ensures (x as bv32) as int == x
    ensures x as bv32 < 32
    ensures x <= 27 ==> x as bv32 <= 27
  {
  }

  // ---------------------------------------------------------------------
  // Addressing of a pin's function-select field and of its level bit.

  /** The GPFSELn word holding the pin's 3-bit function field. */
  function FselIndex(pin: int): nat
    requires ValidPin(pin)
  {
    pin / 10
  }

  /** The position of the pin's function field inside its GPFSELn word. */
  function FselShift(pin: int): FieldPos
    requires ValidPin(pin)
  {
    SmallToBv((pin % 10) * 3);
    ((pin % 10) * 3) as bv32
  }

  /** 0 for pins 0..31 (bank 0), 1 for pins 32..53 (bank 1). */
  function Bank(pin: int): nat
    requires ValidPin(pin)
  {
    if pin < 32 then 0 else 1
  }

  /** The position of the pin's bit in its bank's SET/CLR/LEV word. */
  function BankShift(pin: int): BitPos
    requires ValidPin(pin)
  {
    var b := if pin < 32 then pin else pin - 32;
    SmallToBv(b);
    b as bv32
  }

  /** The function field of every legal pin lies in one of the six GPFSEL
      words, at bit (pin mod 10) * 3, and ends at or below bit 30, so no
      shift leaves the 32-bit word. */
  lemma FselBounds(pin: int)
    requires ValidPin(pin)
    ensures FselIndex(pin) <= 5
    ensures FselShift(pin) as int == (pin % 10) * 3
    ensures FselShift(pin) as int + 3 <= 30
  {
    SmallToBv((pin % 10) * 3);
  }

  /** Bank selection is "pin >= 32" and the bit is the pin number mod 32. */
  lemma BankBounds(pin: int)
    requires ValidPin(pin)
    ensures Bank(pin) == pin / 32
    ensures BankShift(pin) as int == pin % 32
  {
    if pin < 32 { SmallToBv(pin); } else { SmallToBv(pin - 32); }
  }

  // ---------------------------------------------------------------------
  // Bit-field helpers on one 32-bit word.

  /** Truncation of a C int to the 32 bits that reach a uint32_t register. */
  function WordOf(x: int): bv32 {
    (x % 0x1_0000_0000) as bv32
  }

  /** A 3-bit code is its own 32-bit truncation. */
  lemma WordOfSmall(x: int)
    requires 0 <= x < 8
    ensures WordOf(x) == x as bv32
    ensures WordOf(x) < 8
  {
  }

  /** The one-bit mask 1 << b. */
  function Bit(b: BitPos): bv32 {
    1 << b
  }

  /** Bit `b` of word `w`. */
  predicate BitSet(w: bv32, b: BitPos) {
    (w >> b) & 1 == 1
  }

  /** The three bits starting at `shift`. */
  function FieldMask(shift: FieldPos): bv32 {
    7 << shift
  }

  /** The value of the 3-bit field starting at `shift`. */
  function Field(w: bv32, shift: FieldPos): bv32 {
    (w >> shift) & 7
  }

  /** The word with its 3-bit field at `shift` cleared. */
  function ClearField(w: bv32, shift: FieldPos): bv32 {
    w & !FieldMask(shift)
  }

  /** The level a one-bit mask test gives, as digital_read does: HIGH
      exactly when that bit of the word is set. */
  function LevelOf(w: bv32, b: BitPos): (v: int)
    ensures v == LOW || v == HIGH
    ensures v == HIGH <==> BitSet(w, b)
  {
    if w & Bit(b) != 0 then HIGH else LOW
  }

  // ---------------------------------------------------------------------
  // Register effects of the four operations, on a sequence of words.

  /** pin_mode on one GPFSEL word: clear the field, then set its low bit
      for OUTPUT. */
  function PinModeWord(w: bv32, shift: FieldPos, mode: int): bv32 {
    if mode == OUTPUT then ClearField(w, shift) | Bit(shift) else ClearField(w, shift)
  }

  /** gpio_set_function on one GPFSEL word: clear the field, then OR in the
      code shifted to it. */
  function SetFunctionWord(w: bv32, shift: FieldPos, f: bv32): bv32 {
    ClearField(w, shift) | (f << shift)
  }

  /** pin_mode(pin, mode) on the whole block. */
  function PinModeRegs(regs: seq<bv32>, mapped: bool, pin: int, mode: int): (r: seq<bv32>)
    requires |regs| == BLOCK_WORDS
    ensures |r| == |regs|
  {
    if !ValidPin(pin) || !mapped then regs
    else
      var i := FselIndex(pin);
      regs[i := PinModeWord(regs[i], FselShift(pin), mode)]
  }

  /** gpio_set_function(pin, code) on the whole block; the code reaches the
      register as its low 32 bits. */
  function SetFunctionRegs(regs: seq<bv32>, mapped: bool, pin: int, code: int): (r: seq<bv32>)
    requires |regs| == BLOCK_WORDS
    ensures |r| == |regs|
  {
    if !ValidPin(pin) || !mapped then regs
    else
      var i := FselIndex(pin);
      regs[i := SetFunctionWord(regs[i], FselShift(pin), WordOf(code))]
  }

  /** digital_write(pin, value): a one-bit mask is stored into GPSETn for
      HIGH and into GPCLRn for any other value. */
  function WriteRegs(regs: seq<bv32>, mapped: bool, pin: int, value: int): (r: seq<bv32>)
    requires |regs| == BLOCK_WORDS
    ensures |r| == |regs|
  {
    if !ValidPin(pin) || !mapped then regs
    else
      var base := if value == HIGH then GPSET0 else GPCLR0;
      regs[base + Bank(pin) := Bit(BankShift(pin))]
  }

  /** digital_read(pin): HIGH when the pin's bit of GPLEVn is set. */
  function ReadLevel(regs: seq<bv32>, mapped: bool, pin: int): (v: int)
    requires |regs| == BLOCK_WORDS
    ensures v == LOW || v == HIGH
  {
    if !ValidPin(pin) || !mapped then LOW
    else LevelOf(regs[GPLEV0 + Bank(pin)], BankShift(pin))
  }

  // ---------------------------------------------------------------------
  // What the register effects amount to.

  /** An operation on an illegal pin, or with the block unmapped, leaves
      every word as it was, and a read then gives LOW. */
  lemma GuardsIgnore(regs: seq<bv32>, mapped: bool, pin: int, arg: int)
    requires |regs| == BLOCK_WORDS
    requires !ValidPin(pin) || !mapped
    ensures PinModeRegs(regs, mapped, pin, arg) == regs
    ensures SetFunctionRegs(regs, mapped, pin, arg) == regs
    ensures WriteRegs(regs, mapped, pin, arg) == regs
    ensures ReadLevel(regs, mapped, pin) == LOW
  {
  }

  /** pin_mode on a legal pin rewrites only word pin/10, and there only as
      PinModeWord says (see PinModeWordField) ... */
  lemma PinModeOneWord(regs: seq<bv32>, pin: int, mode: int)
    requires |regs| == BLOCK_WORDS && ValidPin(pin)
    ensures PinModeRegs(regs, true, pin, mode)[pin / 10] == PinModeWord(regs[pin / 10], FselShift(pin), mode)
    ensures forall j :: 0 <= j < |regs| && j != pin / 10 ==> PinModeRegs(regs, true, pin, mode)[j] == regs[j]
  {
  }

  /** ... which makes the field 001 for OUTPUT and 000 for any other mode,
      and keeps every bit outside the field. */
  lemma PinModeWordField(w: bv32, shift: FieldPos, mode: int)
    ensures Field(PinModeWord(w, shift, mode), shift) == (if mode == OUTPUT then 1 else 0)
    ensures PinModeWord(w, shift, mode) & !FieldMask(shift) == w & !FieldMask(shift)
  {
    if mode == OUTPUT {
      assert Field(ClearField(w, shift) | Bit(shift), shift) == 1;
    } else {
      assert Field(ClearField(w, shift), shift) == 0;
    }
  }

  /** gpio_set_function on a legal pin rewrites only word pin/10, and there
      only as SetFunctionWord says (see SetFunctionWordField) ... */
  lemma SetFunctionOneWord(regs: seq<bv32>, pin: int, code: int)
    requires |regs| == BLOCK_WORDS && ValidPin(pin)
    ensures SetFunctionRegs(regs, true, pin, code)[pin / 10]
         == SetFunctionWord(regs[pin / 10], FselShift(pin), WordOf(code))
    ensures forall j :: 0 <= j < |regs| && j != pin / 10 ==> SetFunctionRegs(regs, true, pin, code)[j] == regs[j]
  {
  }

  /** ... which, for a code 0..7 (its own 32-bit truncation, WordOfSmall),
      makes the field equal the code and keeps every bit outside it. */
  lemma SetFunctionWordField(w: bv32, shift: FieldPos, f: bv32)
    requires f < 8
    ensures Field(SetFunctionWord(w, shift, f), shift) == f
    ensures SetFunctionWord(w, shift, f) & !FieldMask(shift) == w & !FieldMask(shift)
  {
  }

  /** Every alternate-function code (and both plain modes) is a 3-bit field
      value, and the six ALT codes are the six values other than 0 and 1. */
  lemma AltCodesFitField()
    ensures forall f :: f in [INPUT, OUTPUT, ALT0, ALT1, ALT2, ALT3, ALT4, ALT5] ==> 0 <= f < 8
    ensures {ALT0, ALT1, ALT2, ALT3, ALT4, ALT5} == {2, 3, 4, 5, 6, 7}
  {
  }

  /** Whatever code is passed, unchecked, the pin's own field ends holding
      the code's low three bits. */
  lemma FieldIsLow3(w: bv32, shift: FieldPos, f: bv32)
    ensures Field(SetFunctionWord(w, shift, f), shift) == f & 7
  {
  }

  /** Nothing checks the function code: a code of 8 or more spills into the
      neighbouring pin's field. Code 8 on pin 0 leaves pin 0's field 000 and
      sets the low bit of pin 1's field (bit 3 of GPFSEL0). */
  lemma WideCodeSpills(w: bv32)
    ensures Field(SetFunctionWord(w, 0, 8), 0) == 0
    ensures Field(SetFunctionWord(w, 0, 8), 3) == Field(w, 3) | 1
  {
  }

  /** digital_write on a legal pin stores exactly 1 << (pin mod 32) into one
      word: GPSET0/GPSET1 (7/8) for HIGH, GPCLR0/GPCLR1 (10/11) otherwise,
      with bank 1 exactly for pins 32 and above; no other word changes. */
  lemma WriteOneWord(regs: seq<bv32>, pin: int, value: int)
    requires |regs| == BLOCK_WORDS && ValidPin(pin)
    ensures var r := WriteRegs(regs, true, pin, value);
      var w := if value == HIGH then (if pin >= 32 then GPSET1 else GPSET0)
               else (if pin >= 32 then GPCLR1 else GPCLR0);
      && r[w] == Bit(BankShift(pin))
      && (forall j :: 0 <= j < |regs| && j != w ==> r[j] == regs[j])
  {
  }

  /** digital_read on a legal pin is HIGH exactly when bit pin mod 32 of
      GPLEV0 (pins below 32) or GPLEV1 (the rest) is set, and LOW otherwise. */
  lemma ReadLevelBit(regs: seq<bv32>, mapped: bool, pin: int)
    requires |regs| == BLOCK_WORDS
    ensures ReadLevel(regs, mapped, pin) == LOW || ReadLevel(regs, mapped, pin) == HIGH
    ensures ReadLevel(regs, mapped, pin) == HIGH <==>
              ValidPin(pin) && mapped &&
              BitSet(regs[if pin >= 32 then GPLEV1 else GPLEV0], BankShift(pin))
  {
  }

  // ---------------------------------------------------------------------
  // The read-modify-write of one GPFSEL word, step by step.

  /** pin_mode's update of the word it read: clear the field, then set its
      low bit for OUTPUT. */
  method ModeFieldUpdate(w: bv32, shift: FieldPos, mode: int) returns (val: bv32)
    ensures val == PinModeWord(w, shift, mode)
    ensures Field(val, shift) == (if mode == OUTPUT then 1 else 0)
  {
    PinModeWordField(w, shift, mode);
    val := w & !FieldMask(shift);
    if mode == OUTPUT {
      val := val | Bit(shift);
    }
  }

  /** gpio_set_function's update of the word it read: clear the field, then
      OR in the code shifted to it. */
  method FunctionFieldUpdate(w: bv32, shift: FieldPos, f: bv32) returns (val: bv32)
    ensures val == SetFunctionWord(w, shift, f)
    ensures f < 8 ==> Field(val, shift) == f
  {
    if f < 8 { SetFunctionWordField(w, shift, f); }
    val := w & !FieldMask(shift);
    val := val | (f << shift);
  }

  // ---------------------------------------------------------------------

  /**
   * The mapped GPIO block: `regs` is the 1024-word window and `mapped`
   * says whether the pointer to it is set (a successful gpio_init).
   */
  class GpioMap {
    const mapped: bool
    const regs: array<bv32>

    ghost predicate Valid() {
      regs.Length == BLOCK_WORDS
    }

    constructor (mapped: bool, contents: seq<bv32>)
      requires |contents| == BLOCK_WORDS
      ensures Valid() && fresh(regs)
      ensures this.mapped == mapped && regs[..] == contents
    {
      this.mapped := mapped;
      regs := new bv32[BLOCK_WORDS](i requires 0 <= i < BLOCK_WORDS => contents[i]);
    }

    /** pin_mode(pin, mode). */
    method PinMode(pin: int, mode: int)
      requires Valid()
      modifies regs
      ensures regs[..] == PinModeRegs(old(regs[..]), mapped, pin, mode)
    {
      if pin < GPIO_PIN_MIN || pin > GPIO_PIN_MAX { return; }
      if !mapped { return; }
      var regIndex := pin / 10;
      var bitOffset := FselShift(pin);
      var val := regs[regIndex];
      val := ModeFieldUpdate(val, bitOffset, mode);
      regs[regIndex] := val;
    }

    /** gpio_set_function(pin, code). */
    method SetFunction(pin: int, code: int)
      requires Valid()
      modifies regs
      ensures regs[..] == SetFunctionRegs(old(regs[..]), mapped, pin, code)
    {
      if pin < GPIO_PIN_MIN || pin > GPIO_PIN_MAX { return; }
      if !mapped { return; }
      var regIndex := pin / 10;
      var bitOffset := FselShift(pin);
      var val := regs[regIndex];
      val := FunctionFieldUpdate(val, bitOffset, WordOf(code));
      regs[regIndex] := val;
    }

    /** digital_write(pin, value). */
    method DigitalWrite(pin: int, value: int)
      requires Valid()
      modifies regs
      ensures regs[..] == WriteRegs(old(regs[..]), mapped, pin, value)
    {
      if pin < GPIO_PIN_MIN || pin > GPIO_PIN_MAX { return; }
      if !mapped { return; }
      var regOffset := if pin < 32 then 0 else 1;
      var shift := BankShift(pin);
      if value == HIGH {
        regs[GPSET0 + regOffset] := Bit(shift);
      } else {
        regs[GPCLR0 + regOffset] := Bit(shift);
      }
    }

    /** digital_read(pin): reads one GPLEV word and changes nothing. */
    method DigitalRead(pin: int) returns (v: int)
      requires Valid()
      ensures v == ReadLevel(regs[..], mapped, pin)
      ensures v == HIGH <==>
        ValidPin(pin) && mapped && BitSet(regs[if pin >= 32 then GPLEV1 else GPLEV0], BankShift(pin))
    {
      ReadLevelBit(regs[..], mapped, pin);
      if pin < GPIO_PIN_MIN || pin > GPIO_PIN_MAX { return LOW; }
      if !mapped { return LOW; }
      var regOffset := if pin < 32 then 0 else 1;
      var shift := BankShift(pin);
      v := LevelOf(regs[GPLEV0 + regOffset], shift);
    }
  }
}
