/**
 * The host side of the wire: a chip-select line, a byte-wide SPI peripheral
 * and a millisecond delay. The bus keeps a log of what reached the chip:
 * one entry per chip-select window, holding the bytes shifted out and then
 * the bytes clocked in, and one entry per blocking wait. Bytes clocked in
 * come from a script fixed at construction, which plays the part of the
 * radio chip.
 */
module SpiBus {

  /** One entry of the bus log. */
  datatype Step =
    | Xfer(out: seq<bv8>, got: seq<bv8>)  // one chip-select window: bytes sent, then bytes received
    | Pause(ms: nat)                      // a blocking wait with the chip released

  /** The bytes a log entry shifts out. */
  function StepOut(s: Step): seq<bv8>
  {
    if s.Xfer? then s.out else []
  }

  /** The bytes a log entry clocks in. */
  function StepIn(s: Step): seq<bv8>
  {
    if s.Xfer? then s.got else []
  }

  /**
   * The bus history, oldest entry deepest: `Then(before, last)` is the
   * history `before` followed by the entry `last`.
   */
  datatype Log = Start | Then(before: Log, last: Step)

  /** The entries of a history, oldest first. */
  function Steps(log: Log): seq<Step>
  {
    match log
    case Start => []
    case Then(before, s) => Steps(before) + [s]
  }

  /** Everything the chip saw on its data-in line, in order. */
  function Sent(log: Log): seq<bv8>
  {
    match log
    case Start => []
    case Then(before, s) => Sent(before) + StepOut(s)
  }

  /** Everything the host clocked in, in order. */
  function Got(log: Log): seq<bv8>
  {
    match log
    case Start => []
    case Then(before, s) => Got(before) + StepIn(s)
  }

  /**
   * The byte the chip drives back as the k-th byte clocked in: the script's
   * k-th entry, or 0xFF (the level of an undriven, pulled-up data line)
   * once the script is used up.
   */
  function Chip(script: seq<bv8>, k: nat): bv8
  {
    if k < |script| then script[k] else 0xFF
  }

  /** The n bytes the chip drives back from position `from` on. */
  function Stream(script: seq<bv8>, from: nat, n: nat): (s: seq<bv8>)
    ensures |s| == n
    ensures forall i :: 0 <= i < n ==> s[i] == Chip(script, from + i)
  {
    seq(n, i requires 0 <= i < n => Chip(script, from + i))
  }

  /**
   * The serial peripheral, the chip-select pin and the delay primitive.
   * `Chip(script, k)` is the k-th byte the chip drives back; `received` counts
   * the bytes clocked in so far. While `selected`, `out` and `got` collect
   * the bytes of the open window; releasing chip-select logs them.
   *
   * The preconditions are the chip-select protocol: a window is opened only
   * when none is open, bytes move only inside a window (all bytes out before
   * any byte in), and waits happen with the chip released.
   */
  class Bus {
    const script: seq<bv8>
    var selected: bool
    var out: seq<bv8>
    var got: seq<bv8>
    var log: Log
    var received: nat

    constructor (script: seq<bv8>)
      ensures this.script == script
      ensures !selected && log == Start && received == 0
    {
      this.script := script;
      selected := false;
      out, got := [], [];
      log := Start;
      received := 0;
    }

    /** Drive chip-select low: a window opens. */
    method Select()
      requires !selected
      modifies this
      ensures selected && out == [] && got == []
      ensures log == old(log) && received == old(received)
    {
      selected := true;
      out, got := [], [];
    }

    /** Shift `bytes` out, first byte first. */
    method Transmit(bytes: seq<bv8>)
      requires selected && got == []
      modifies this
      ensures selected && out == old(out) + bytes && got == []
      ensures log == old(log) && received == old(received)
    {
      out := out + bytes;
    }

    /** Clock in `n` bytes from the chip. */
    method Receive(n: nat) returns (bytes: seq<bv8>)
      requires selected
      modifies this
      ensures bytes == Stream(script, old(received), n)
      ensures selected && out == old(out) && got == old(got) + bytes
      ensures log == old(log) && received == old(received) + n
    {
      bytes := Stream(script, received, n);
      got := got + bytes;
      received := received + n;
    }

    /** Drive chip-select high: the window closes and is logged. */
    method Deselect()
      requires selected
      modifies this
      ensures !selected
      ensures log == Then(old(log), Xfer(old(out), old(got))) && received == old(received)
    {
      selected := false;
      log := Then(log, Xfer(out, got));
    }

    /** Block for `ms` milliseconds. */
    method Wait(ms: nat)
      requires !selected
      modifies this
      ensures !selected
      ensures log == Then(old(log), Pause(ms)) && received == old(received)
    {
      log := Then(log, Pause(ms));
    }
  }
}
