/**
 * Hardware identities of the ESP32-S3 relay board: the eight digital inputs,
 * the eight relay outputs and the two relay levels, with the fixed `repr(u8)`
 * ordinals that the rest of the firmware uses as array indices and pin numbers.
 */
module Hardware {

  // GPIO numbers of the digital inputs IN1..IN8.
  const DI1_PIN: nat := 4
  const DI2_PIN: nat := 5
  const DI3_PIN: nat := 6
  const DI4_PIN: nat := 7
  const DI5_PIN: nat := 8
  const DI6_PIN: nat := 9
  const DI7_PIN: nat := 10
  const DI8_PIN: nat := 11

  datatype DigitalInput = DI1 | DI2 | DI3 | DI4 | DI5 | DI6 | DI7 | DI8

  datatype RelayOutput = Relay1 | Relay2 | Relay3 | Relay4 | Relay5 | Relay6 | Relay7 | Relay8

  datatype RelayState = High | Low

  /** `input as usize`: the ordinal of an input, always a valid index of an 8-slot array. */
  function InputOrdinal(d: DigitalInput): (i: nat)
    ensures i < 8
  {
    match d
    case DI1 => 0
    case DI2 => 1
    case DI3 => 2
    case DI4 => 3
    case DI5 => 4
    case DI6 => 5
    case DI7 => 6
    case DI8 => 7
  }

  /** The input whose ordinal is `i`: the inverse of InputOrdinal. */
  function InputAt(i: nat): (d: DigitalInput)
    requires i < 8
    ensures InputOrdinal(d) == i
  {
    if i == 0 then DI1
    else if i == 1 then DI2
    else if i == 2 then DI3
    else if i == 3 then DI4
    else if i == 4 then DI5
    else if i == 5 then DI6
    else if i == 6 then DI7
    else DI8
  }

  /** Distinct inputs have distinct ordinals, so they never share a cooldown slot. */
  lemma InputOrdinalInjective(a: DigitalInput, b: DigitalInput)
    ensures InputOrdinal(a) == InputOrdinal(b) ==> a == b
    ensures InputAt(InputOrdinal(a)) == a
  {
    match a
    case DI1 =>
    case DI2 =>
    case DI3 =>
    case DI4 =>
    case DI5 =>
    case DI6 =>
    case DI7 =>
    case DI8 =>
  }

  /** `relay as u8`: the expander pin of a relay, always below 8. */
  function RelayOrdinal(r: RelayOutput): (p: bv8)
    ensures p < 8
  {
    match r
    case Relay1 => 0
    case Relay2 => 1
    case Relay3 => 2
    case Relay4 => 3
    case Relay5 => 4
    case Relay6 => 5
    case Relay7 => 6
    case Relay8 => 7
  }

  /** The relay driven by expander pin `p`: the inverse of RelayOrdinal. */
  function RelayAt(p: bv8): (r: RelayOutput)
    requires p < 8
    ensures RelayOrdinal(r) == p
  {
    if p == 0 then Relay1
    else if p == 1 then Relay2
    else if p == 2 then Relay3
    else if p == 3 then Relay4
    else if p == 4 then Relay5
    else if p == 5 then Relay6
    else if p == 6 then Relay7
    else Relay8
  }

  /** Distinct relays drive distinct expander pins. */
  lemma RelayOrdinalInjective(a: RelayOutput, b: RelayOutput)
    ensures RelayOrdinal(a) == RelayOrdinal(b) ==> a == b
    ensures RelayAt(RelayOrdinal(a)) == a
  {
    match a
    case Relay1 =>
    case Relay2 =>
    case Relay3 =>
    case Relay4 =>
    case Relay5 =>
    case Relay6 =>
    case Relay7 =>
    case Relay8 =>
  }

  /** A relay level is either High or Low; there is no third value. */
  lemma RelayStateTwoValued(s: RelayState)
    ensures s == High || s == Low
    ensures s == High <==> s != Low
  {
  }

  /** The GPIO line of each input: the inputs sit on consecutive GPIOs 4..11. */
  function InputPin(d: DigitalInput): (gpio: nat)
    ensures gpio == InputOrdinal(d) + DI1_PIN
    ensures DI1_PIN <= gpio <= DI8_PIN
  {
    match d
    case DI1 => DI1_PIN
    case DI2 => DI2_PIN
    case DI3 => DI3_PIN
    case DI4 => DI4_PIN
    case DI5 => DI5_PIN
    case DI6 => DI6_PIN
    case DI7 => DI7_PIN
    case DI8 => DI8_PIN
  }
}
