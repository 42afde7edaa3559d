// Octets, as the network and UUIDs have them.
module Bytes {
  type byte = b: int | 0 <= b < 256
}
