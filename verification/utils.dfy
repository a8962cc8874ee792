/** The shape of gardener's utils.ComputeSHA256Hex: 64 lower-case hexadecimal characters. */
module Utils {

  predicate IsLowerHexChar(c: char) {
    '0' <= c <= '9' || 'a' <= c <= 'f'
  }

  predicate IsLowerHex(s: string) {
    forall i :: 0 <= i < |s| ==> IsLowerHexChar(s[i])
  }

  /** A hex-encoded SHA-256 digest. */
  type HexDigest = s: string | |s| == 64 && IsLowerHex(s)
    witness seq(64, _ => '0')

  /** utils.ComputeSHA256Hex: the hash itself is not modelled, only the shape of its result. */
  type Sha256Hex = string -> HexDigest
}
