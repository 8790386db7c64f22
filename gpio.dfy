/** The parts of RPi.GPIO's interface that both sensor modules share. */
module Gpio {
  /** A BCM pin number. */
  type Pin = int

  /** The logic level GPIO.input returns. */
  type Bit = b: int | 0 <= b <= 1
}
