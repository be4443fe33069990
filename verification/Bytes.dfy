// Bytes, byte strings and little-endian words.
module Bytes {
  newtype byte = x: int | 0 <= x < 256

  type bytes = seq<byte>

  const WORD := 0x1_0000_0000

  function U32(s: bytes, offset: nat): (n: nat)
    requires offset + 4 <= |s|
    ensures n < WORD
  {
    s[offset] as nat + 0x100 * s[offset + 1] as nat + 0x1_0000 * s[offset + 2] as nat + 0x100_0000 * s[offset + 3] as nat
  }

  function Le32(n: nat): (s: bytes)
    requires n < WORD
    ensures |s| == 4
  {
    [(n % 0x100) as byte, (n / 0x100 % 0x100) as byte, (n / 0x1_0000 % 0x100) as byte, (n / 0x100_0000) as byte]
  }

  function Le16(n: nat): (s: bytes)
    requires n < 0x1_0000
    ensures |s| == 2
  {
    [(n % 0x100) as byte, (n / 0x100) as byte]
  }

  lemma DigitsOf(n: nat)
    ensures n == n % 0x100 + 0x100 * (n / 0x100 % 0x100) + 0x1_0000 * (n / 0x1_0000 % 0x100) + 0x100_0000 * (n / 0x100_0000)
  {
    var a := n / 0x100;
    var b := a / 0x100;
    var c := b / 0x100;
    assert n == 0x1_0000 * b + 0x100 * (a % 0x100) + n % 0x100;
    assert n / 0x1_0000 == b;
    assert n == 0x100_0000 * c + 0x1_0000 * (b % 0x100) + 0x100 * (a % 0x100) + n % 0x100;
    assert n / 0x100_0000 == c;
  }

  lemma WordRoundTrip(before: bytes, n: nat, after: bytes)
    requires n < WORD
    ensures U32(before + Le32(n) + after, |before|) == n
  {
    DigitsOf(n);
    var s := before + Le32(n) + after;
    assert s[|before|] == Le32(n)[0] && s[|before| + 1] == Le32(n)[1];
    assert s[|before| + 2] == Le32(n)[2] && s[|before| + 3] == Le32(n)[3];
  }
}
