/**
 * Driver for the TCA9554 8-bit I2C I/O expander that switches the relays.
 *
 * The driver keeps a shadow copy of the output-port register and rewrites the
 * whole register (a two-byte bus write `[register, value]`) whenever one pin
 * changes. The I2C bus is modelled by a log of every attempted write and an
 * oracle saying which transactions the bus rejects: the k-th write on the log
 * (counting from 0) fails exactly when k is in `failing`.
 */
module Tca9554 {

  /** Default 7-bit bus address of the expander. */
  const TCA9554_ADDRESS: bv8 := 0x20

  // Register codes (the input-port and polarity registers are never written).
  const OUTPUT_PORT: bv8 := 0x01
  const CONFIGURATION: bv8 := 0x03

  /** One bus transaction: `address` received the bytes `[register, value]`. */
  datatype Write = Write(address: bv8, register: bv8, value: bv8)

  /** Outcome of a bus operation; the bus error carries nothing the firmware inspects. */
  datatype BusResult = Ok | Err

  /** Level of pin `pin` (0..7) in a register value. */
  predicate Bit(s: bv8, pin: bv8)
    requires pin < 8
  {
    s & (1 << pin) != 0
  }

  /** A register value is determined by its eight pin levels. */
  lemma BitsDetermine(a: bv8, b: bv8)
    requires forall pin: bv8 | pin < 8 :: Bit(a, pin) == Bit(b, pin)
    ensures a == b
  {
    assert Bit(a, 0) == Bit(b, 0) && Bit(a, 1) == Bit(b, 1);
    assert Bit(a, 2) == Bit(b, 2) && Bit(a, 3) == Bit(b, 3);
    assert Bit(a, 4) == Bit(b, 4) && Bit(a, 5) == Bit(b, 5);
    assert Bit(a, 6) == Bit(b, 6) && Bit(a, 7) == Bit(b, 7);
  }

  /** `s | (1 << pin)`: the register with pin `pin` switched on. */
  function SetBit(s: bv8, pin: bv8): bv8
    requires pin < 8
  {
    s | (1 << pin)
  }

  /** `s & !(1 << pin)`: the register with pin `pin` switched off. */
  function ClearBit(s: bv8, pin: bv8): bv8
    requires pin < 8
  {
    s & !(1 << pin)
  }

  /** SetBit switches pin `pin` on and leaves every other pin as it was. */
  lemma SetBitLevels(s: bv8, pin: bv8)
    requires pin < 8
    ensures forall q: bv8 | q < 8 :: Bit(SetBit(s, pin), q) == (q == pin || Bit(s, q))
  {
  }

  /** ClearBit switches pin `pin` off and leaves every other pin as it was. */
  lemma ClearBitLevels(s: bv8, pin: bv8)
    requires pin < 8
    ensures forall q: bv8 | q < 8 :: Bit(ClearBit(s, pin), q) == (q != pin && Bit(s, q))
  {
  }

  /** Switching the same pin on twice leaves the register as switching it on once. */
  lemma SetBitIdempotent(s: bv8, pin: bv8)
    requires pin < 8
    ensures SetBit(SetBit(s, pin), pin) == SetBit(s, pin)
  {
    SetBitLevels(s, pin);
    SetBitLevels(SetBit(s, pin), pin);
    BitsDetermine(SetBit(SetBit(s, pin), pin), SetBit(s, pin));
  }

  /** Switching the same pin off twice leaves the register as switching it off once. */
  lemma ClearBitIdempotent(s: bv8, pin: bv8)
    requires pin < 8
    ensures ClearBit(ClearBit(s, pin), pin) == ClearBit(s, pin)
  {
    ClearBitLevels(s, pin);
    ClearBitLevels(ClearBit(s, pin), pin);
    BitsDetermine(ClearBit(ClearBit(s, pin), pin), ClearBit(s, pin));
  }

  /**
   * Everything a caller can observe of a driver at one instant: the shadow,
   * the bus log, the issue time of each logged write and the clock.
   */
  datatype ExpanderState = ExpanderState(shadow: bv8, writes: seq<Write>, times: seq<nat>, clock: nat)

  class Tca9554 {
    const address: bv8
    /** Bus oracle: indices (into `writes`) of the transactions the bus rejects. */
    const failing: set<nat>
    /** Shadow of the output-port register. */
    var outputState: bv8
    /** Every write attempted on the bus, in order, whether or not it succeeded. */
    var writes: seq<Write>
    /** Monotonic time in milliseconds, advanced by the callers' timed holds. */
    ghost var clock: nat
    /** `times[k]` is the clock reading at which `writes[k]` was issued. */
    ghost var times: seq<nat>

    /** The driver's observable state as a value. */
    ghost function State(): ExpanderState
      reads this
    {
      ExpanderState(outputState, writes, times, clock)
    }

    /** `Tca9554::new`: nothing written yet and every output assumed low. */
    constructor (failing: set<nat>, address: bv8)
      ensures this.address == address && this.failing == failing
      ensures outputState == 0 && writes == [] && times == [] && clock == 0
    {
      this.address := address;
      this.failing := failing;
      outputState := 0;
      writes := [];
      clock := 0;
      times := [];
    }

    /** One bus transaction `[register, value]` to the device address. */
    method WriteRegister(register: bv8, value: bv8) returns (r: BusResult)
      modifies this`writes, this`times
      ensures writes == old(writes) + [Write(address, register, value)]
      ensures times == old(times) + [clock]
      ensures r == Ok <==> |old(writes)| !in failing
    {
      r := if |writes| in failing then Err else Ok;
      writes := writes + [Write(address, register, value)];
      times := times + [clock];
    }

    /**
     * Configures all pins as outputs, then drives them all low; stops at the
     * first failed write. The shadow is reset only when both writes succeed.
     */
    method Init() returns (r: BusResult)
      modifies this`outputState, this`writes, this`times
      ensures |old(writes)| in failing ==>
        r == Err && writes == old(writes) + [Write(address, CONFIGURATION, 0)]
        && times == old(times) + [clock] && outputState == old(outputState)
      ensures |old(writes)| !in failing ==>
        writes == old(writes) + [Write(address, CONFIGURATION, 0), Write(address, OUTPUT_PORT, 0)]
        && times == old(times) + [clock, clock]
        && (r == Ok <==> |old(writes)| + 1 !in failing)
        && outputState == (if r == Ok then 0 else old(outputState))
    {
      r := WriteRegister(CONFIGURATION, 0x00);
      if r == Err {
        return;
      }
      r := WriteRegister(OUTPUT_PORT, 0x00);
      if r == Err {
        return;
      }
      outputState := 0x00;
    }

    /**
     * Switches pin `pin` on. Pins 8 and above are ignored without a bus write;
     * otherwise the new shadow is stored first and then written out, so a
     * failed write still leaves the attempted value in the shadow.
     */
    method SetPinHigh(pin: bv8) returns (r: BusResult)
      modifies this`outputState, this`writes, this`times
      ensures pin >= 8 ==>
        r == Ok && outputState == old(outputState) && writes == old(writes) && times == old(times)
      ensures pin < 8 ==>
        outputState == SetBit(old(outputState), pin)
        && writes == old(writes) + [Write(address, OUTPUT_PORT, outputState)]
        && times == old(times) + [clock]
        && (r == Ok <==> |old(writes)| !in failing)
    {
      if pin >= 8 {
        return Ok;
      }
      outputState := outputState | (1 << pin);
      r := WriteRegister(OUTPUT_PORT, outputState);
    }

    /** Switches pin `pin` off; same shape as SetPinHigh. */
    method SetPinLow(pin: bv8) returns (r: BusResult)
      modifies this`outputState, this`writes, this`times
      ensures pin >= 8 ==>
        r == Ok && outputState == old(outputState) && writes == old(writes) && times == old(times)
      ensures pin < 8 ==>
        outputState == ClearBit(old(outputState), pin)
        && writes == old(writes) + [Write(address, OUTPUT_PORT, outputState)]
        && times == old(times) + [clock]
        && (r == Ok <==> |old(writes)| !in failing)
    {
      if pin >= 8 {
        return Ok;
      }
      outputState := outputState & !(1 << pin);
      r := WriteRegister(OUTPUT_PORT, outputState);
    }

    /** Clears the shadow, then writes zero to the output port in one transaction. */
    method AllOff() returns (r: BusResult)
      modifies this`outputState, this`writes, this`times
      ensures outputState == 0
      ensures writes == old(writes) + [Write(address, OUTPUT_PORT, 0)]
      ensures times == old(times) + [clock]
      ensures r == Ok <==> |old(writes)| !in failing
    {
      outputState := 0x00;
      r := WriteRegister(OUTPUT_PORT, 0x00);
    }

    /** Reads the shadow; no bus traffic (the method has no modifies clause). */
    method GetOutputState() returns (s: bv8)
      ensures s == outputState
    {
      s := outputState;
    }
  }
}
