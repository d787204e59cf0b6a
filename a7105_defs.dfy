/**
 * Constants and bit helpers of the A7105 driver: the address-framing and
 * bit macros, the TX/RX state enumeration, the strobe opcodes, the register
 * map and the calibration failure masks.
 */
module A7105Defs {

  import opened Wrappers

  // ---------------------------------------------------------------------
  // Address framing: bit 6 of the address byte selects read (1) or write (0)
  // ---------------------------------------------------------------------

  /** A7105_WRITE: the address byte of a register write (bit 6 clear). */
  function WriteAddress(a: bv8): (r: bv8)
    ensures r & 0x40 == 0
    ensures r & 0xBF == a & 0xBF
  {
    a & !0x40
  }

  /** A7105_READ: the address byte of a register read (bit 6 set). */
  function ReadAddress(a: bv8): (r: bv8)
    ensures r & 0x40 == 0x40
    ensures r & 0xBF == a & 0xBF
  {
    a | 0x40
  }

  /** Framing twice is framing once, and a write address forgets a read bit. */
  lemma AddressFramingIdempotent(a: bv8)
    ensures ReadAddress(ReadAddress(a)) == ReadAddress(a)
    ensures WriteAddress(WriteAddress(a)) == WriteAddress(a)
    ensures WriteAddress(ReadAddress(a)) == WriteAddress(a)
    ensures ReadAddress(WriteAddress(a)) == ReadAddress(a)
  {
  }

  // ---------------------------------------------------------------------
  // Bit macros. C promotes the byte to int and shifts the int constant 1,
  // so each macro is computed here at 32 bits and, where it stores, truncated
  // back to the uint8_t. A bit index of 31 or more is undefined behaviour;
  // indices 8..30 leave a byte unchanged, and TEST_BIT of such an index is 0.
  // ---------------------------------------------------------------------

  /** A7105_TEST_BIT: 1 when bit `bit` of `byte` is set, else 0. */
  function TestBit(byte: bv8, bit: bv8): (r: bv8)
    requires bit < 32
    ensures r == 0 || r == 1
    ensures r == 1 <==> bit < 8 && byte & (1 << bit) != 0
  {
    (((byte as bv32) >> bit) & 1) as bv8
  }

  /** A7105_SET_BIT, as the byte it stores. */
  function SetBit(byte: bv8, bit: bv8): (r: bv8)
    requires bit < 31
    ensures r | byte == r
    ensures bit >= 8 ==> r == byte
  {
    (((byte as bv32) | ((1 as bv32) << bit)) & 0xFF) as bv8
  }

  /** A7105_CLEAR_BIT, as the byte it stores. */
  function ClearBit(byte: bv8, bit: bv8): (r: bv8)
    requires bit < 31
    ensures r & byte == r
    ensures bit >= 8 ==> r == byte
  {
    (((byte as bv32) & !((1 as bv32) << bit)) & 0xFF) as bv8
  }

  /** A7105_TOGGLE_BIT, as the byte it stores. */
  function ToggleBit(byte: bv8, bit: bv8): (r: bv8)
    requires bit < 31
    ensures bit < 8 <==> r != byte
  {
    (((byte as bv32) ^ ((1 as bv32) << bit)) & 0xFF) as bv8
  }

  /** Read back with TEST_BIT, SET_BIT sets bit `bit` and keeps every other bit. */
  lemma SetBitAt(byte: bv8, bit: bv8, j: bv8)
    requires bit < 31 && j < 8
    ensures TestBit(SetBit(byte, bit), j) == if j == bit then 1 else TestBit(byte, j)
  {
  }

  /** Read back with TEST_BIT, CLEAR_BIT clears bit `bit` and keeps every other bit. */
  lemma ClearBitAt(byte: bv8, bit: bv8, j: bv8)
    requires bit < 31 && j < 8
    ensures TestBit(ClearBit(byte, bit), j) == if j == bit then 0 else TestBit(byte, j)
  {
  }

  /** Read back with TEST_BIT, TOGGLE_BIT flips bit `bit` and keeps every other bit. */
  lemma ToggleBitAt(byte: bv8, bit: bv8, j: bv8)
    requires bit < 31 && j < 8
    ensures TestBit(ToggleBit(byte, bit), j) == if j == bit then 1 - TestBit(byte, j) else TestBit(byte, j)
  {
  }

  /** Toggling the same bit twice restores the byte. */
  lemma ToggleTwice(byte: bv8, bit: bv8)
    requires bit < 31
    ensures ToggleBit(ToggleBit(byte, bit), bit) == byte
  {
  }

  /** A byte is determined by its eight TEST_BIT values. */
  lemma BitsDetermineByte(a: bv8, b: bv8)
    requires forall j: bv8 :: j < 8 ==> TestBit(a, j) == TestBit(b, j)
    ensures a == b
  {
    assert TestBit(a, 0) == TestBit(b, 0) && TestBit(a, 1) == TestBit(b, 1);
    assert TestBit(a, 2) == TestBit(b, 2) && TestBit(a, 3) == TestBit(b, 3);
    assert TestBit(a, 4) == TestBit(b, 4) && TestBit(a, 5) == TestBit(b, 5);
    assert TestBit(a, 6) == TestBit(b, 6) && TestBit(a, 7) == TestBit(b, 7);
  }

  // ---------------------------------------------------------------------
  // TX/RX state of the external power amplifier switch
  // ---------------------------------------------------------------------

  datatype TxRxState = TxRxOff | TxEnabled | RxEnabled

  // ---------------------------------------------------------------------
  // Strobe commands: the whole wire byte is the opcode
  // ---------------------------------------------------------------------

  datatype Strobe =
    | Sleep
    | Idle
    | Standby
    | Pll
    | Receive
    | Transmit
    | ResetWritePointer
    | ResetReadPointer

  /** The opcode of a strobe: upper nibble 8..F, lower nibble zero. */
  function Opcode(s: Strobe): (r: bv8)
    ensures r >= 0x80 && r & 0x0F == 0
  {
    match s
    case Sleep => 0x80
    case Idle => 0x90
    case Standby => 0xA0
    case Pll => 0xB0
    case Receive => 0xC0
    case Transmit => 0xD0
    case ResetWritePointer => 0xE0
    case ResetReadPointer => 0xF0
  }

  /** Decodes a wire byte as a strobe: defined exactly on the eight opcodes. */
  function StrobeOf(b: bv8): (r: Option<Strobe>)
    ensures r.Some? <==> b >= 0x80 && b & 0x0F == 0
  {
    if b & 0x0F != 0 || b < 0x80 then None
    else match b >> 4
      case 8 => Some(Sleep)
      case 9 => Some(Idle)
      case 10 => Some(Standby)
      case 11 => Some(Pll)
      case 12 => Some(Receive)
      case 13 => Some(Transmit)
      case 14 => Some(ResetWritePointer)
      case _ => Some(ResetReadPointer)
  }

  /**
   * Every opcode has bit 7 set and a zero low nibble, so masking it to six
   * bits changes it, and StrobeOf decodes it back to its strobe.
   */
  lemma OpcodeRoundTrip(s: Strobe)
    ensures Opcode(s) >= 0x80 && Opcode(s) & 0x0F == 0
    ensures Opcode(s) & 0x3F != Opcode(s)
    ensures StrobeOf(Opcode(s)) == Some(s)
  {
  }

  /** The eight opcodes are pairwise distinct. */
  lemma OpcodesDistinct(s: Strobe, t: Strobe)
    requires s != t
    ensures Opcode(s) != Opcode(t)
  {
    OpcodeRoundTrip(s);
    OpcodeRoundTrip(t);
  }

  /** Every byte StrobeOf accepts is the opcode of what it decodes to. */
  lemma StrobeOfOpcode(b: bv8)
    requires StrobeOf(b).Some?
    ensures Opcode(StrobeOf(b).value) == b
  {
  }

  // ---------------------------------------------------------------------
  // Register map (6-bit addresses)
  // ---------------------------------------------------------------------

  const Mode: bv8 := 0x00
  const ModeControl: bv8 := 0x01
  const Calc: bv8 := 0x02
  const FifoI: bv8 := 0x03
  const FifoII: bv8 := 0x04
  const FifoData: bv8 := 0x05
  const IdData: bv8 := 0x06
  const RcOscI: bv8 := 0x07
  const RcOscII: bv8 := 0x08
  const RcOscIII: bv8 := 0x09
  const Ck0Pin: bv8 := 0x0A
  const Gpio1PinI: bv8 := 0x0B
  const Gpio2PinII: bv8 := 0x0C
  const Clock: bv8 := 0x0D
  const DataRate: bv8 := 0x0E
  const PllI: bv8 := 0x0F
  const PllII: bv8 := 0x10
  const PllIII: bv8 := 0x11
  const PllIV: bv8 := 0x12
  const PllV: bv8 := 0x13
  const TxI: bv8 := 0x14
  const TxII: bv8 := 0x15
  const DelayI: bv8 := 0x16
  const DelayII: bv8 := 0x17
  const RxReg: bv8 := 0x18
  const RxGainI: bv8 := 0x19
  const RxGainII: bv8 := 0x1A
  const RxGainIII: bv8 := 0x1B
  const RxGainIV: bv8 := 0x1C
  const RssiThreshold: bv8 := 0x1D
  const Adc: bv8 := 0x1E
  const CodeI: bv8 := 0x1F
  const CodeII: bv8 := 0x20
  const CodeIII: bv8 := 0x21
  const IfCalibI: bv8 := 0x22
  const IfCalibII: bv8 := 0x23
  const VcoCurrentCal: bv8 := 0x24
  const VcoBandCalI: bv8 := 0x25
  const VcoBandCalII: bv8 := 0x26
  const BatteryDetect: bv8 := 0x27
  const TxTest: bv8 := 0x28
  const RxDemTestI: bv8 := 0x29
  const RxDemTestII: bv8 := 0x2A
  const Cpc: bv8 := 0x2B
  const XtalTest: bv8 := 0x2C
  const PllTest: bv8 := 0x2D
  const VcoTestI: bv8 := 0x2E
  const VcoTestII: bv8 := 0x2F
  const Ifat: bv8 := 0x30
  const Rscale: bv8 := 0x31
  const FilterTest: bv8 := 0x32

  /** A7105_0F_CHANNEL: the channel register is PLL register I. */
  const Channel: bv8 := PllI

  /** The named registers in declaration order, in three blocks of 17. */
  const Registers: seq<bv8> := RegistersLow + RegistersMid + RegistersHigh

  const RegistersLow: seq<bv8> := [
    Mode, ModeControl, Calc, FifoI, FifoII, FifoData, IdData, RcOscI, RcOscII,
    RcOscIII, Ck0Pin, Gpio1PinI, Gpio2PinII, Clock, DataRate, PllI, PllII]

  const RegistersMid: seq<bv8> := [
    PllIII, PllIV, PllV, TxI, TxII, DelayI, DelayII, RxReg, RxGainI,
    RxGainII, RxGainIII, RxGainIV, RssiThreshold, Adc, CodeI, CodeII, CodeIII]

  const RegistersHigh: seq<bv8> := [
    IfCalibI, IfCalibII, VcoCurrentCal, VcoBandCalI, VcoBandCalII, BatteryDetect, TxTest, RxDemTestI, RxDemTestII,
    Cpc, XtalTest, PllTest, VcoTestI, VcoTestII, Ifat, Rscale, FilterTest]

  lemma RegistersLowAt()
    ensures |RegistersLow| == 17 && forall i :: 0 <= i < 17 ==> RegistersLow[i] as int == i
  {
  }

  lemma RegistersMidAt()
    ensures |RegistersMid| == 17 && forall i :: 0 <= i < 17 ==> RegistersMid[i] as int == i + 17
  {
  }

  lemma RegistersHighAt()
    ensures |RegistersHigh| == 17 && forall i :: 0 <= i < 17 ==> RegistersHigh[i] as int == i + 34
  {
  }

  /**
   * The map holds 51 registers at consecutive addresses 0x00..0x32, so each
   * address fits in 6 bits and `& 0x3F` leaves it unchanged.
   */
  lemma RegisterMapIsSixBit()
    ensures |Registers| == 51
    ensures forall i :: 0 <= i < |Registers| ==> Registers[i] as int == i
    ensures forall i :: 0 <= i < |Registers| ==> Registers[i] <= 0x32 && Registers[i] & 0x3F == Registers[i]
  {
    RegistersLowAt();
    RegistersMidAt();
    RegistersHighAt();
  }

  // ---------------------------------------------------------------------
  // Calibration failure masks
  // ---------------------------------------------------------------------

  /** A7105_MASK_FBCF: IF filter bank calibration failure bit of register 0x22. */
  const MaskFbcf: bv8 := 1 << 4
  /** A7105_MASK_VBCF: VCO bank calibration failure bit of register 0x25. */
  const MaskVbcf: bv8 := 1 << 3

  /** The masks select the same bits that calibration tests with TEST_BIT. */
  lemma MasksMatchTestedBits(b: bv8)
    ensures MaskFbcf == 0x10 && MaskVbcf == 0x08
    ensures TestBit(b, 4) == 1 <==> b & MaskFbcf != 0
    ensures TestBit(b, 3) == 1 <==> b & MaskVbcf != 0
  {
  }
}
