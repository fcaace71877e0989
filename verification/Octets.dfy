/** Octets as integers. */
module Octets {
  newtype Octet = x: int | 0 <= x < 256
}
