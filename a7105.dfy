/**
 * The device control layer of the A7105 driver: the reset sequence and its
 * health check, the TX/RX/off switching of the external power amplifier
 * through the two GPIO pin registers, the three on-chip calibrations and
 * their 6-bit result, and the packing of the TX power setting.
 */
module A7105 {

  import opened Wrappers
  import opened A7105Defs
  import opened SpiBus
  import opened A7105Spi

  /** PLL register II holds this value right after a reset. */
  const PllIIAfterReset: bv8 := 0x9E

  /** The fixed waits after the reset command and after starting calibration. */
  const ResetDelayMs: nat := 1000
  const CalibDelayMs: nat := 1000

  // ---------------------------------------------------------------------
  // TX/RX switching
  // ---------------------------------------------------------------------

  /**
   * The values of GPIO1 pin register I (0x0B) and GPIO2 pin register II
   * (0x0C) for each mode. The amplifier's select lines are cross-wired, so
   * "off" drives both pins, and TX and RX are mirror images.
   */
  function GpioSetting(mode: TxRxState): (g: (bv8, bv8))
    ensures ModeOf(g.0, g.1) == Some(mode)
  {
    match mode
    case TxEnabled => (0x33, 0x31)
    case RxEnabled => (0x31, 0x33)
    case TxRxOff => (0x33, 0x33)
  }

  /** Which mode a pair of GPIO pin register values selects, if any. */
  function ModeOf(gpio1: bv8, gpio2: bv8): Option<TxRxState>
  {
    if gpio1 == 0x33 && gpio2 == 0x33 then Some(TxRxOff)
    else if gpio1 == 0x33 && gpio2 == 0x31 then Some(TxEnabled)
    else if gpio1 == 0x31 && gpio2 == 0x33 then Some(RxEnabled)
    else None
  }

  /** Each pair ModeOf accepts is the setting of the mode it names. */
  lemma ModeOfGpioSetting(gpio1: bv8, gpio2: bv8)
    requires ModeOf(gpio1, gpio2).Some?
    ensures GpioSetting(ModeOf(gpio1, gpio2).value) == (gpio1, gpio2)
  {
  }

  /** The three modes are three distinct electrical configurations; TX mirrors RX. */
  lemma GpioSettingsDistinct(m: TxRxState, n: TxRxState)
    ensures GpioSetting(m) == GpioSetting(n) ==> m == n
    ensures GpioSetting(TxEnabled) == (GpioSetting(RxEnabled).1, GpioSetting(RxEnabled).0)
    ensures GpioSetting(TxRxOff).0 == GpioSetting(TxRxOff).1
  {
    assert ModeOf(GpioSetting(m).0, GpioSetting(m).1) == Some(m);
    assert ModeOf(GpioSetting(n).0, GpioSetting(n).1) == Some(n);
  }

  /** The history after setting a mode: GPIO1 pin register I, then GPIO2 pin register II. */
  function ModeLog(before: Log, mode: TxRxState): Log
  {
    Then(Then(before, WriteStep(Gpio1PinI, GpioSetting(mode).0)), WriteStep(Gpio2PinII, GpioSetting(mode).1))
  }

  /** Setting a mode is exactly two register writes, 0x0B then 0x0C. */
  lemma ModeLogWire(before: Log, mode: TxRxState)
    ensures Steps(ModeLog(before, mode))
      == Steps(before) + [Xfer([0x0B, GpioSetting(mode).0], []), Xfer([0x0C, GpioSetting(mode).1], [])]
    ensures Got(ModeLog(before, mode)) == Got(before)
  {
  }

  /** A7105SetTxRxMode. */
  method SetTxRxMode(bus: Bus, mode: TxRxState)
    requires !bus.selected
    modifies bus
    ensures !bus.selected
    ensures bus.log == ModeLog(old(bus.log), mode)
    ensures bus.received == old(bus.received)
  {
    if mode == TxEnabled {
      RegWrite(bus, Gpio1PinI, 0x33);
      RegWrite(bus, Gpio2PinII, 0x31);
    } else if mode == RxEnabled {
      RegWrite(bus, Gpio1PinI, 0x31);
      RegWrite(bus, Gpio2PinII, 0x33);
    } else {
      RegWrite(bus, Gpio1PinI, 0x33);
      RegWrite(bus, Gpio2PinII, 0x33);
    }
  }

  // ---------------------------------------------------------------------
  // Reset
  // ---------------------------------------------------------------------

  /** The history after the reset sequence, when PLL register II reads back `pll`. */
  function ResetLog(before: Log, pll: bv8): Log
  {
    var off := ModeLog(Then(Then(before, WriteStep(Mode, 0x00)), Pause(ResetDelayMs)), TxRxOff);
    Then(Then(off, ReadStep(PllII, pll)), StrobeStep(Standby))
  }

  /**
   * Reset writes 0x00 to the mode register, waits 1000 ms, switches the
   * amplifier off, reads PLL register II and strobes standby, each in its
   * own chip-select window; the read-back is the only byte clocked in.
   */
  lemma ResetLogWire(before: Log, pll: bv8)
    ensures Steps(ResetLog(before, pll))
      == Steps(before) + [Xfer([0x00, 0x00], []), Pause(1000), Xfer([0x0B, 0x33], []),
                          Xfer([0x0C, 0x33], []), Xfer([0x50], [pll]), Xfer([0xA0], [])]
    ensures Got(ResetLog(before, pll)) == Got(before) + [pll]
  {
    var waited := Then(Then(before, WriteStep(Mode, 0x00)), Pause(ResetDelayMs));
    ModeLogWire(waited, TxRxOff);
  }

  /**
   * A7105Reset: returns 1 exactly when PLL register II reads back 0x9E,
   * and 0 otherwise.
   */
  method Reset(bus: Bus) returns (result: bv8)
    requires !bus.selected
    modifies bus
    ensures !bus.selected
    ensures var pll := Chip(bus.script, old(bus.received));
      (result == 1 <==> pll == PllIIAfterReset) && (result == 0 || result == 1)
      && bus.log == ResetLog(old(bus.log), pll)
    ensures bus.received == old(bus.received) + 1
  {
    RegWrite(bus, Mode, 0x00);
    bus.Wait(ResetDelayMs);
    SetTxRxMode(bus, TxRxOff);
    var pll := RegRead(bus, PllII);
    result := if pll == PllIIAfterReset then 1 else 0;
    SendStrobe(bus, Standby);
  }

  // ---------------------------------------------------------------------
  // Calibration
  // ---------------------------------------------------------------------

  /** One step of the calibration result: `if (raised) acc |= mask;`. */
  function Flag(acc: bv8, raised: bool, mask: bv8): bv8
  {
    if raised then acc | mask else acc
  }

  /**
   * The calibration result from the read-back of the calibration control
   * register and the three status registers. Bits 0x10, 0x01 and 0x04 are
   * the IF filter bank, VCO bank and VCO current calibrations still running
   * (bits 0, 1 and 2 of register 0x02); 0x20, 0x02 and 0x08 are their
   * failure flags (bit 4 of 0x22, bit 3 of 0x25, bit 4 of 0x24).
   */
  function CalibFlags(control: bv8, ifCalib: bv8, vcoBand: bv8, vcoCurrent: bv8): (r: bv8)
    ensures r <= 0x3F
  {
    var r0 := Flag(0, TestBit(control, 0) == 1, 0x10);
    var r1 := Flag(r0, TestBit(control, 1) == 1, 0x01);
    var r2 := Flag(r1, TestBit(control, 2) == 1, 0x04);
    var r3 := Flag(r2, TestBit(ifCalib, 4) == 1, 0x20);
    var r4 := Flag(r3, TestBit(vcoBand, 3) == 1, 0x02);
    Flag(r4, TestBit(vcoCurrent, 4) == 1, 0x08)
  }

  /**
   * Each result bit reports one tested status bit: 0x10, 0x01 and 0x04 are
   * bits 0, 1 and 2 of register 0x02 (a calibration still running), 0x20,
   * 0x02 and 0x08 are the failure bits of registers 0x22, 0x25 and 0x24;
   * bits 7 and 6 are never set.
   */
  lemma CalibFlagsBits(control: bv8, ifCalib: bv8, vcoBand: bv8, vcoCurrent: bv8)
    ensures CalibFlags(control, ifCalib, vcoBand, vcoCurrent) & 0xC0 == 0
    ensures CalibFlags(control, ifCalib, vcoBand, vcoCurrent) & 0x10 != 0 <==> TestBit(control, 0) == 1
    ensures CalibFlags(control, ifCalib, vcoBand, vcoCurrent) & 0x01 != 0 <==> TestBit(control, 1) == 1
    ensures CalibFlags(control, ifCalib, vcoBand, vcoCurrent) & 0x04 != 0 <==> TestBit(control, 2) == 1
    ensures CalibFlags(control, ifCalib, vcoBand, vcoCurrent) & 0x20 != 0 <==> ifCalib & MaskFbcf != 0
    ensures CalibFlags(control, ifCalib, vcoBand, vcoCurrent) & 0x02 != 0 <==> vcoBand & MaskVbcf != 0
    ensures CalibFlags(control, ifCalib, vcoBand, vcoCurrent) & 0x08 != 0 <==> TestBit(vcoCurrent, 4) == 1
  {
  }

  /** Calibration succeeded (result 0) exactly when none of the six tested bits is set. */
  lemma CalibSuccessIff(control: bv8, ifCalib: bv8, vcoBand: bv8, vcoCurrent: bv8)
    ensures CalibFlags(control, ifCalib, vcoBand, vcoCurrent) == 0 <==>
      control & 0x07 == 0 && ifCalib & 0x10 == 0 && vcoBand & 0x08 == 0 && vcoCurrent & 0x10 == 0
  {
    var r := CalibFlags(control, ifCalib, vcoBand, vcoCurrent);
    assert r == 0 <==> r & 0x3F == 0;
  }

  /** All three calibrations still running, none failed: 0x15. All three failed, none running: 0x2A. */
  lemma CalibExtremes(control: bv8, ifCalib: bv8, vcoBand: bv8, vcoCurrent: bv8)
    ensures control & 0x07 == 0x07 && ifCalib & 0x10 == 0 && vcoBand & 0x08 == 0 && vcoCurrent & 0x10 == 0
      ==> CalibFlags(control, ifCalib, vcoBand, vcoCurrent) == 0x15
    ensures control & 0x07 == 0 && ifCalib & 0x10 != 0 && vcoBand & 0x08 != 0 && vcoCurrent & 0x10 != 0
      ==> CalibFlags(control, ifCalib, vcoBand, vcoCurrent) == 0x2A
  {
  }

  /** The history after calibration, when the four reads return the given bytes. */
  function CalibLog(before: Log, control: bv8, ifCalib: bv8, vcoBand: bv8, vcoCurrent: bv8): Log
  {
    var started := Then(Then(Then(before, StrobeStep(Pll)), WriteStep(Calc, 0x07)), Pause(CalibDelayMs));
    var checked := Then(Then(Then(Then(started, ReadStep(Calc, control)), ReadStep(IfCalibI, ifCalib)),
                                ReadStep(VcoBandCalI, vcoBand)), ReadStep(VcoCurrentCal, vcoCurrent));
    Then(checked, StrobeStep(Standby))
  }

  /**
   * Calibration strobes PLL, writes 0x07 to register 0x02, waits 1000 ms,
   * reads 0x02, 0x22, 0x25 and 0x24 and always ends with the standby strobe,
   * each in its own chip-select window.
   */
  lemma CalibLogSteps(before: Log, control: bv8, ifCalib: bv8, vcoBand: bv8, vcoCurrent: bv8)
    ensures Steps(CalibLog(before, control, ifCalib, vcoBand, vcoCurrent))
      == Steps(before) + [Xfer([0xB0], []), Xfer([0x02, 0x07], []), Pause(1000), Xfer([0x42], [control]),
                          Xfer([0x62], [ifCalib]), Xfer([0x65], [vcoBand]), Xfer([0x64], [vcoCurrent]), Xfer([0xA0], [])]
  {
    var started := Then(Then(Then(before, StrobeStep(Pll)), WriteStep(Calc, 0x07)), Pause(CalibDelayMs));
    assert Steps(Then(before, StrobeStep(Pll))) == Steps(before) + [Xfer([0xB0], [])];
    assert Steps(started) == Steps(before) + [Xfer([0xB0], []), Xfer([0x02, 0x07], []), Pause(1000)];
    var read2 := Then(Then(started, ReadStep(Calc, control)), ReadStep(IfCalibI, ifCalib));
    assert Steps(read2) == Steps(started) + [Xfer([0x42], [control]), Xfer([0x62], [ifCalib])];
    var read4 := Then(Then(read2, ReadStep(VcoBandCalI, vcoBand)), ReadStep(VcoCurrentCal, vcoCurrent));
    assert Steps(read4) == Steps(read2) + [Xfer([0x65], [vcoBand]), Xfer([0x64], [vcoCurrent])];
  }

  /** The four read-backs, in the order the source tests them, are all calibration clocks in. */
  lemma CalibLogGot(before: Log, control: bv8, ifCalib: bv8, vcoBand: bv8, vcoCurrent: bv8)
    ensures Got(CalibLog(before, control, ifCalib, vcoBand, vcoCurrent)) == Got(before) + [control, ifCalib, vcoBand, vcoCurrent]
  {
    var started := Then(Then(Then(before, StrobeStep(Pll)), WriteStep(Calc, 0x07)), Pause(CalibDelayMs));
    assert Got(Then(before, StrobeStep(Pll))) == Got(before);
    assert Got(started) == Got(before);
    var read2 := Then(Then(started, ReadStep(Calc, control)), ReadStep(IfCalibI, ifCalib));
    assert Got(read2) == Got(started) + [control, ifCalib];
    var read4 := Then(Then(read2, ReadStep(VcoBandCalI, vcoBand)), ReadStep(VcoCurrentCal, vcoCurrent));
    assert Got(read4) == Got(read2) + [vcoBand, vcoCurrent];
  }

  /** A7105Calib: the result accumulated flag by flag from the four reads. */
  method Calib(bus: Bus) returns (result: bv8)
    requires !bus.selected
    modifies bus
    ensures !bus.selected
    ensures var k := old(bus.received);
      var control, ifCalib, vcoBand, vcoCurrent := Chip(bus.script, k), Chip(bus.script, k + 1), Chip(bus.script, k + 2), Chip(bus.script, k + 3);
      result == CalibFlags(control, ifCalib, vcoBand, vcoCurrent)
      && bus.log == CalibLog(old(bus.log), control, ifCalib, vcoBand, vcoCurrent)
    ensures bus.received == old(bus.received) + 4
  {
    var retVal: bv8 := 0;
    ghost var k := bus.received;
    SendStrobe(bus, Pll);
    RegWrite(bus, Calc, 0x07);
    bus.Wait(CalibDelayMs);

    var calibReg := RegRead(bus, Calc);
    assert calibReg == Chip(bus.script, k) && bus.received == k + 1;
    retVal := Flag(retVal, TestBit(calibReg, 0) == 1, 0x10);
    retVal := Flag(retVal, TestBit(calibReg, 1) == 1, 0x01);
    retVal := Flag(retVal, TestBit(calibReg, 2) == 1, 0x04);

    var ifCalib := RegRead(bus, IfCalibI);
    assert ifCalib == Chip(bus.script, k + 1) && bus.received == k + 2;
    retVal := Flag(retVal, TestBit(ifCalib, 4) == 1, 0x20);
    var vcoBand := RegRead(bus, VcoBandCalI);
    assert vcoBand == Chip(bus.script, k + 2) && bus.received == k + 3;
    retVal := Flag(retVal, TestBit(vcoBand, 3) == 1, 0x02);
    var vcoCurrent := RegRead(bus, VcoCurrentCal);
    assert vcoCurrent == Chip(bus.script, k + 3) && bus.received == k + 4;
    retVal := Flag(retVal, TestBit(vcoCurrent, 4) == 1, 0x08);

    SendStrobe(bus, Standby);
    result := retVal;
  }

  // ---------------------------------------------------------------------
  // TX power
  // ---------------------------------------------------------------------

  /**
   * The byte written to the TX test register: (PAC << 3) | TBG computed in
   * int and truncated to 8 bits. Its low three bits are always TBG's; for
   * PAC <= 3 and TBG <= 7 it holds PAC in bits 4..3, TBG in bits 2..0 and
   * leaves TXCS (bit 5) and bits 7..6 clear.
   */
  function PowerByte(pac: bv8, tbg: bv8): (r: bv8)
    ensures r & 0x07 == tbg & 0x07
    ensures pac <= 3 && tbg <= 7 ==> r < 0x20 && r >> 3 == pac && r & 0x07 == tbg
  {
    ((((pac as bv16) << 3) | (tbg as bv16)) & 0xFF) as bv8
  }

  /** Every value of PAC[1:0] and TBG[2:0] together is the packing of its two fields. */
  lemma PowerByteFields(b: bv8)
    requires b < 0x20
    ensures PowerByte(b >> 3, b & 0x07) == b
  {
  }

  /** setPower: one write of the packed byte to register 0x28. */
  method SetPower(bus: Bus, pac: bv8, tbg: bv8)
    requires !bus.selected
    modifies bus
    ensures !bus.selected
    ensures bus.log == Then(old(bus.log), WriteStep(TxTest, PowerByte(pac, tbg)))
    ensures bus.received == old(bus.received)
  {
    RegWrite(bus, TxTest, PowerByte(pac, tbg));
  }
}
