/**
 * The transport layer of the A7105 driver: how register writes, register
 * reads, strobes, the 32-bit ID and FIFO bursts are framed on the
 * chip-select-gated SPI bus. Each operation is a method that appends its
 * chip-select windows to the bus log; the windows are functions, and the
 * lemmas state which bytes they put on the wire.
 */
module A7105Spi {

  import opened Wrappers
  import opened A7105Defs
  import opened SpiBus

  // ---------------------------------------------------------------------
  // Address bytes
  // ---------------------------------------------------------------------

  /** The address byte of a register write: the register masked to 6 bits. */
  function RegisterAddress(address: bv8): (r: bv8)
    ensures r < 0x40
  {
    address & 0x3F
  }

  /** The address byte of a register read: masked to 6 bits, then bit 6 set. */
  function ReadCommand(reg: bv8): (r: bv8)
    ensures 0x40 <= r < 0x80
  {
    (reg & 0x3F) | 0x40
  }

  /**
   * A write address has bits 7 and 6 clear and keeps the register's low six
   * bits; a read command has bit 7 clear, bit 6 set and the same six bits.
   */
  lemma AddressBits(reg: bv8)
    ensures RegisterAddress(reg) & 0xC0 == 0 && RegisterAddress(reg) & 0x3F == reg & 0x3F
    ensures ReadCommand(reg) & 0xC0 == 0x40 && ReadCommand(reg) & 0x3F == reg & 0x3F
    ensures WriteAddress(RegisterAddress(reg)) == RegisterAddress(reg)
    ensures ReadCommand(reg) == ReadAddress(RegisterAddress(reg))
  {
  }

  /** An address byte never collides with a strobe opcode: bit 7 tells them apart. */
  lemma AddressNeverStrobe(address: bv8, s: Strobe)
    ensures RegisterAddress(address) != Opcode(s)
    ensures ReadCommand(address) != Opcode(s)
    ensures StrobeOf(RegisterAddress(address)) == None
    ensures StrobeOf(ReadCommand(address)) == None
  {
  }

  /** A named register is framed as its own address. */
  lemma NamedRegisterFraming(i: nat)
    requires i < |Registers|
    ensures RegisterAddress(Registers[i]) == Registers[i]
    ensures ReadCommand(Registers[i]) == Registers[i] | 0x40
  {
    RegisterMapIsSixBit();
  }

  // ---------------------------------------------------------------------
  // The 32-bit ID, most significant byte first
  // ---------------------------------------------------------------------

  /** Splits an ID into 4 bytes, most significant first. */
  function IdBytes(id: bv32): (bytes: seq<bv8>)
    ensures |bytes| == 4
    ensures bytes[0] as bv32 == id >> 24
    ensures bytes[1] as bv32 == (id >> 16) & 0xFF
    ensures bytes[2] as bv32 == (id >> 8) & 0xFF
    ensures bytes[3] as bv32 == id & 0xFF
  {
    [((id >> 24) & 0xFF) as bv8, ((id >> 16) & 0xFF) as bv8,
     ((id >> 8) & 0xFF) as bv8, (id & 0xFF) as bv8]
  }

  /** Assembles 4 bytes, most significant first, into an ID. */
  function IdFromBytes(bytes: seq<bv8>): (id: bv32)
    requires |bytes| == 4
    ensures IdBytes(id) == bytes
  {
    (bytes[0] as bv32 << 24) | (bytes[1] as bv32 << 16) |
    (bytes[2] as bv32 << 8) | (bytes[3] as bv32)
  }

  /** Decoding an encoded ID gives the ID back. */
  lemma IdRoundTrip(id: bv32)
    ensures IdFromBytes(IdBytes(id)) == id
  {
  }

  // ---------------------------------------------------------------------
  // Chip-select windows: what each operation puts on the bus
  // ---------------------------------------------------------------------

  /** A strobe: the opcode alone. */
  function StrobeStep(s: Strobe): Step
  {
    Xfer([Opcode(s)], [])
  }

  /** A register write: the 6-bit address, then the value. */
  function WriteStep(address: bv8, data: bv8): Step
  {
    Xfer([RegisterAddress(address), data], [])
  }

  /** A register read: the read command out, then `data` in. */
  function ReadStep(reg: bv8, data: bv8): Step
  {
    Xfer([ReadCommand(reg)], [data])
  }

  /** Setting the ID: register 0x06, then the ID most significant byte first. */
  function IdWriteStep(id: bv32): Step
  {
    Xfer([IdData] + IdBytes(id), [])
  }

  /** Reading the ID: `command` out, then the four ID bytes in. */
  function IdReadStep(command: bv8, bytes: seq<bv8>): Step
  {
    Xfer([command], bytes)
  }

  /** The history after a packet write: the FIFO burst, the channel write, the TX strobe. */
  function WriteDataLog(before: Log, data: seq<bv8>, channel: bv8): Log
  {
    var burst := Xfer([Opcode(ResetWritePointer), FifoData] + data, []);
    Then(Then(Then(before, burst), WriteStep(PllI, channel)), StrobeStep(Transmit))
  }

  /** The history after one read of the FIFO data register per byte, in order. */
  function FifoReads(before: Log, bytes: seq<bv8>): Log
  {
    if bytes == [] then before
    else Then(FifoReads(before, bytes[..|bytes| - 1]), ReadStep(FifoData, bytes[|bytes| - 1]))
  }

  /** The history after a packet read: the read-pointer reset strobe, then the per-byte reads. */
  function ReadDataLog(before: Log, bytes: seq<bv8>): Log
  {
    FifoReads(Then(before, StrobeStep(ResetReadPointer)), bytes)
  }

  /** `n` copies of `b`. */
  function Repeat(b: bv8, n: nat): (s: seq<bv8>)
    ensures |s| == n && forall i :: 0 <= i < n ==> s[i] == b
  {
    seq(n, _ => b)
  }

  // ---------------------------------------------------------------------
  // How the chip reads a window: bit 7 of a command byte selects a strobe
  // (1) or a control register (0); for a register, bit 6 selects read (1)
  // or write (0) and bits 5..0 name it. A strobe is one byte, and the next
  // byte of the window starts a new command; a register write takes every
  // remaining byte of the window as data.
  // ---------------------------------------------------------------------

  datatype Command =
    | Strobed(s: Strobe)
    | Unknown(b: bv8)                      // bit 7 set, but no strobe opcode
    | WriteReg(reg: bv8, data: seq<bv8>)
    | ReadReg(reg: bv8)

  /** The commands the chip decodes from the bytes of one window. */
  function Commands(out: seq<bv8>): seq<Command>
  {
    if out == [] then []
    else if out[0] & 0x80 != 0 then
      (match StrobeOf(out[0]) case Some(s) => [Strobed(s)] case None => [Unknown(out[0])]) + Commands(out[1..])
    else if out[0] & 0x40 != 0 then [ReadReg(out[0] & 0x3F)]
    else [WriteReg(out[0] & 0x3F, out[1..])]
  }

  /**
   * Each single-register window decodes as the command it is meant to be,
   * whatever the address argument: masking keeps an address with bit 6 or 7
   * set from turning a write into a read or a strobe.
   */
  lemma RegisterWindowsDecode(address: bv8, data: bv8, got: bv8)
    ensures Commands(WriteStep(address, data).out) == [WriteReg(address & 0x3F, [data])]
    ensures Commands(ReadStep(address, got).out) == [ReadReg(address & 0x3F)]
  {
    assert [RegisterAddress(address), data][1..] == [data];
  }

  /** A strobe window decodes as that strobe and nothing else. */
  lemma StrobeWindowDecodes(s: Strobe)
    ensures Commands(StrobeStep(s).out) == [Strobed(s)]
  {
    OpcodeRoundTrip(s);
    assert [Opcode(s)][1..] == [];
  }

  /** Setting the ID decodes as one write of the four ID bytes to register 0x06. */
  lemma IdWriteWindowDecodes(id: bv32)
    ensures Commands(IdWriteStep(id).out) == [WriteReg(IdData, IdBytes(id))]
  {
    assert ([IdData] + IdBytes(id))[1..] == IdBytes(id);
  }

  /**
   * The FIFO burst decodes as the write-pointer reset strobe followed by one
   * write of the whole payload to the FIFO data register.
   */
  lemma FifoBurstDecodes(data: seq<bv8>)
    ensures Commands([Opcode(ResetWritePointer), FifoData] + data)
      == [Strobed(ResetWritePointer), WriteReg(FifoData, data)]
  {
    var out := [Opcode(ResetWritePointer), FifoData] + data;
    assert out[1..] == [FifoData] + data;
    assert out[1..][1..] == data;
  }

  // ---------------------------------------------------------------------
  // What the composite operations put on the wire
  // ---------------------------------------------------------------------

  /**
   * A packet write is three windows: 0xE0, 0x05 and the payload in one,
   * then [0x0F, channel], then 0xD0; nothing is clocked in.
   */
  lemma WriteDataLogWire(before: Log, data: seq<bv8>, channel: bv8)
    ensures Steps(WriteDataLog(before, data, channel))
      == Steps(before) + [Xfer([0xE0, 0x05] + data, []), Xfer([0x0F, channel], []), Xfer([0xD0], [])]
    ensures Sent(WriteDataLog(before, data, channel)) == Sent(before) + [0xE0, 0x05] + data + [0x0F, channel, 0xD0]
    ensures Got(WriteDataLog(before, data, channel)) == Got(before)
  {
    var burst, write, strobe := Xfer([0xE0, 0x05] + data, []), Xfer([0x0F, channel], []), Xfer([0xD0], []);
    assert [Opcode(ResetWritePointer), FifoData] + data == [0xE0, 0x05] + data;
    var log1 := Then(before, burst);
    var log2 := Then(log1, write);
    assert WriteDataLog(before, data, channel) == Then(log2, strobe);
    assert Steps(log2) == Steps(before) + [burst, write];
    assert Sent(log2) == Sent(before) + [0xE0, 0x05] + data + [0x0F, channel];
    assert Got(log2) == Got(before);
  }

  /**
   * The per-byte FIFO reads are one window each, sending the read command
   * of register 0x05 and clocking in one byte of `bytes`, in order.
   */
  lemma {:induction false} FifoReadsSteps(before: Log, bytes: seq<bv8>)
    ensures |Steps(FifoReads(before, bytes))| == |Steps(before)| + |bytes|
    ensures Steps(FifoReads(before, bytes))[..|Steps(before)|] == Steps(before)
    ensures forall i :: 0 <= i < |bytes| ==>
      Steps(FifoReads(before, bytes))[|Steps(before)| + i] == Xfer([0x45], [bytes[i]])
  {
    if bytes != [] {
      var init, last := bytes[..|bytes| - 1], bytes[|bytes| - 1];
      FifoReadsSteps(before, init);
      var prior := FifoReads(before, init);
      assert FifoReads(before, bytes) == Then(prior, Xfer([0x45], [last]));
      assert Steps(FifoReads(before, bytes)) == Steps(prior) + [Xfer([0x45], [last])];
    }
  }

  /** Over the per-byte FIFO reads, the chip sees 0x45 once per byte and the host clocks in `bytes`. */
  lemma {:induction false} FifoReadsWire(before: Log, bytes: seq<bv8>)
    ensures Sent(FifoReads(before, bytes)) == Sent(before) + Repeat(0x45, |bytes|)
    ensures Got(FifoReads(before, bytes)) == Got(before) + bytes
  {
    if bytes != [] {
      var init, last := bytes[..|bytes| - 1], bytes[|bytes| - 1];
      FifoReadsWire(before, init);
      assert FifoReads(before, bytes) == Then(FifoReads(before, init), Xfer([0x45], [last]));
      assert Repeat(0x45, |bytes|) == Repeat(0x45, |init|) + [0x45];
      assert bytes == init + [last];
    }
  }

  /** A packet read sends 0xF0 and then 0x45 once per byte, and clocks in exactly `bytes`. */
  lemma ReadDataLogWire(before: Log, bytes: seq<bv8>)
    ensures Sent(ReadDataLog(before, bytes)) == Sent(before) + [0xF0] + Repeat(0x45, |bytes|)
    ensures Got(ReadDataLog(before, bytes)) == Got(before) + bytes
  {
    FifoReadsWire(Then(before, StrobeStep(ResetReadPointer)), bytes);
  }

  /**
   * As written, reading the ID sends 0x06: bit 6 is clear, so the chip sees
   * the start of the very window that setting the ID sends, a write.
   */
  lemma GetIdAsWrittenSendsWriteCommand(id: bv32, bytes: seq<bv8>)
    ensures IdReadStep(IdData, bytes).out == [WriteAddress(IdData)]
    ensures IdWriteStep(id).out == IdReadStep(IdData, bytes).out + IdBytes(id)
    ensures Commands(IdReadStep(IdData, bytes).out) == [WriteReg(IdData, [])]
  {
    assert [IdData][1..] == [];
  }

  /** Corrected, reading the ID sends 0x46, which the chip decodes as a read of register 0x06. */
  lemma GetIdSendsReadCommand(bytes: seq<bv8>)
    ensures IdReadStep(ReadCommand(IdData), bytes).out == [0x46]
    ensures Commands(IdReadStep(ReadCommand(IdData), bytes).out) == [ReadReg(IdData)]
  {
  }

  // ---------------------------------------------------------------------
  // The operations. Each starts and ends with chip-select released.
  // ---------------------------------------------------------------------

  /** a7105SpiStrobe: the opcode alone under one chip-select. */
  method SendStrobe(bus: Bus, s: Strobe)
    requires !bus.selected
    modifies bus
    ensures !bus.selected
    ensures bus.log == Then(old(bus.log), StrobeStep(s))
    ensures bus.received == old(bus.received)
  {
    bus.Select();
    bus.Transmit([Opcode(s)]);
    assert bus.out == [Opcode(s)] && bus.got == [];
    bus.Deselect();
  }

  /** a7105SpiRegWrite: [address & 0x3F, data] under one chip-select. */
  method RegWrite(bus: Bus, address: bv8, data: bv8)
    requires !bus.selected
    modifies bus
    ensures !bus.selected
    ensures bus.log == Then(old(bus.log), WriteStep(address, data))
    ensures bus.received == old(bus.received)
  {
    var a := address & 0x3F;
    bus.Select();
    bus.Transmit([a, data]);
    assert bus.out == [RegisterAddress(address), data] && bus.got == [];
    bus.Deselect();
  }

  /** a7105SpiRegRead: the read command out, one byte in, under one chip-select. */
  method RegRead(bus: Bus, reg: bv8) returns (data: bv8)
    requires !bus.selected
    modifies bus
    ensures !bus.selected
    ensures data == Chip(bus.script, old(bus.received))
    ensures bus.log == Then(old(bus.log), ReadStep(reg, data))
    ensures bus.received == old(bus.received) + 1
  {
    var command := (reg & 0x3F) | 0x40;
    bus.Select();
    bus.Transmit([command]);
    var bytes := bus.Receive(1);
    data := bytes[0];
    assert bus.out == [ReadCommand(reg)] && bus.got == [data];
    bus.Deselect();
  }

  /** a7105SpiSetId: 0x06 and the ID, most significant byte first, under one chip-select. */
  method SetId(bus: Bus, id: bv32)
    requires !bus.selected
    modifies bus
    ensures !bus.selected
    ensures bus.log == Then(old(bus.log), IdWriteStep(id))
    ensures bus.received == old(bus.received)
  {
    bus.Select();
    bus.Transmit([IdData]);
    var data := IdBytes(id);
    bus.Transmit(data);
    assert bus.out == [IdData] + IdBytes(id) && bus.got == [];
    bus.Deselect();
  }

  /** a7105SpiGetId as written: sends 0x06, clocks in 4 bytes, assembles them. */
  method GetIdAsWritten(bus: Bus) returns (id: bv32)
    requires !bus.selected
    modifies bus
    ensures !bus.selected
    ensures var bytes := Stream(bus.script, old(bus.received), 4);
      id == IdFromBytes(bytes) && bus.log == Then(old(bus.log), IdReadStep(IdData, bytes))
    ensures bus.received == old(bus.received) + 4
  {
    bus.Select();
    bus.Transmit([IdData]);
    var idBytes := bus.Receive(4);
    assert bus.out == [IdData] && bus.got == idBytes;
    bus.Deselect();
    id := IdFromBytes(idBytes);
  }

  /** a7105SpiGetId corrected: sends the read command 0x46 for register 0x06. */
  method GetId(bus: Bus) returns (id: bv32)
    requires !bus.selected
    modifies bus
    ensures !bus.selected
    ensures var bytes := Stream(bus.script, old(bus.received), 4);
      id == IdFromBytes(bytes) && bus.log == Then(old(bus.log), IdReadStep(ReadCommand(IdData), bytes))
    ensures bus.received == old(bus.received) + 4
  {
    bus.Select();
    bus.Transmit([ReadCommand(IdData)]);
    var idBytes := bus.Receive(4);
    assert bus.out == [ReadCommand(IdData)] && bus.got == idBytes;
    bus.Deselect();
    id := IdFromBytes(idBytes);
  }

  /** A7105SpiWriteData: the FIFO burst of data[..len], the channel, the TX strobe. */
  method WriteData(bus: Bus, data: array<bv8>, len: nat, channel: bv8)
    requires !bus.selected
    requires len <= data.Length
    modifies bus
    ensures !bus.selected
    ensures bus.log == WriteDataLog(old(bus.log), data[..len], channel)
    ensures bus.received == old(bus.received)
  {
    bus.Select();
    bus.Transmit([Opcode(ResetWritePointer)]);
    bus.Transmit([FifoData]);
    bus.Transmit(data[..len]);
    assert bus.out == [Opcode(ResetWritePointer), FifoData] + data[..len] && bus.got == [];
    bus.Deselect();
    RegWrite(bus, PllI, channel);
    SendStrobe(bus, Transmit);
  }

  /**
   * A7105SpiReadData: one read-pointer reset, then one register read of the
   * FIFO per byte into buffer[0..len); the rest of the buffer is untouched.
   */
  method ReadData(bus: Bus, buffer: array<bv8>, len: nat)
    requires !bus.selected
    requires len <= buffer.Length
    modifies bus, buffer
    ensures !bus.selected
    ensures buffer[..len] == Stream(bus.script, old(bus.received), len)
    ensures buffer[len..] == old(buffer[len..])
    ensures bus.log == ReadDataLog(old(bus.log), buffer[..len])
    ensures bus.received == old(bus.received) + len
  {
    SendStrobe(bus, ResetReadPointer);
    var i := 0;
    ghost var got: seq<bv8> := [];
    while i < len
      invariant 0 <= i <= len && |got| == i
      invariant !bus.selected
      invariant bus.received == old(bus.received) + i
      invariant got == Stream(bus.script, old(bus.received), i)
      invariant buffer[..i] == got
      invariant forall k :: i <= k < buffer.Length ==> buffer[k] == old(buffer[k])
      invariant bus.log == ReadDataLog(old(bus.log), got)
    {
      var b := RegRead(bus, FifoData);
      buffer[i] := b;
      assert (got + [b])[..|got|] == got;
      got := got + [b];
      i := i + 1;
    }
  }
}
