/** The text of a SHA-256 identity: a prefix and 64 lower-case hexadecimal digits. */
module Digests {

  const PREFIX := "sha256:"

  predicate IsHex(c: char) {
    '0' <= c <= '9' || 'a' <= c <= 'f'
  }

  predicate IsDigest(d: string) {
    |d| == 71 && d[..7] == PREFIX && forall k :: 7 <= k < 71 ==> IsHex(d[k])
  }
}
