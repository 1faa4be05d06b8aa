/**
 * Fixed-width integer types and small LoRaWAN value types shared by the
 * regional parameters, the forwarder and the simulator.
 */
module LoRaWAN {

  /** Go's `uint8`: data-rate indices and RX1 offsets. */
  newtype uint8 = x: int | 0 <= x < 0x100

  /** Go's `uint32`: carrier frequencies in Hz. */
  newtype uint32 = x: int | 0 <= x < 0x1_0000_0000

  const Uint32Modulus: int := 0x1_0000_0000

  /** An 8-byte EUI (device EUI or gateway MAC address). */
  type EUI64 = s: seq<uint8> | |s| == 8 witness [0, 0, 0, 0, 0, 0, 0, 0]

  /** The all-zero address, which the simulator refuses for a gateway. */
  const ZeroEUI: EUI64 := [0, 0, 0, 0, 0, 0, 0, 0]

  /** The dwell-time flag passed to payload-size and RX1 lookups. */
  datatype DwellTime = DwellTimeNoLimit | DwellTime400ms

  datatype Option<T> = None | Some(value: T)

  /** Go's `error` result of a check: `nil` or an error with a message. */
  datatype Outcome = Pass | Fail(message: string)
}
