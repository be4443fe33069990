/** The printed form of an identity and the pairing of app/scripts/windows-symbol-pair.py. */
module PairValidation {
  import opened Bytes
  import opened Options
  import PeImage
  import SymbolPair

  // ---- printing ----

  function Digit(n: int): (c: char)
    requires 0 <= n < 16
  {
    "0123456789ABCDEF"[n]
  }

  function Hex(s: bytes): (r: string)
    ensures |r| == 2 * |s|
  {
    if s == [] then "" else Hex(s[..|s| - 1]) + [Digit(s[|s| - 1] as int / 16), Digit(s[|s| - 1] as int % 16)]
  }

  // The first three fields of a GUID are little-endian.
  function GuidText(g: bytes): string
    requires |g| == 16
  {
    Hex([g[3], g[2], g[1], g[0]]) + "-" + Hex([g[5], g[4]]) + "-" + Hex([g[7], g[6]]) + "-"
    + Hex(g[8..10]) + "-" + Hex(g[10..])
  }

  datatype Printed = Printed(guid: string, age: nat)

  lemma GuidTextParts(g: bytes)
    requires |g| == 16
    ensures |GuidText(g)| == 36
    ensures GuidText(g)[..8] == Hex([g[3], g[2], g[1], g[0]]) && GuidText(g)[9..13] == Hex([g[5], g[4]])
    ensures GuidText(g)[14..18] == Hex([g[7], g[6]]) && GuidText(g)[19..23] == Hex(g[8..10]) && GuidText(g)[24..] == Hex(g[10..])
  {
    hide Hex;
  }

  // ---- a reader of the printed form ----

  // The value of an upper-case hexadecimal digit.
  function DigitValue(c: char): Option<nat> {
    if '0' <= c <= '9' then Some(c as nat - '0' as nat)
    else if 'A' <= c <= 'F' then Some(c as nat - 'A' as nat + 10)
    else None
  }

  // The number that the digits stand for.
  function Number(t: string): Option<nat> {
    if t == "" then Some(0)
    else
      var front, last := Number(t[..|t| - 1]), DigitValue(t[|t| - 1]);
      if front.None? || last.None? then None else Some(16 * front.value + last.value)
  }

  // A byte for each two digits.
  function Pairs(t: string): Option<bytes>
    decreases |t|
  {
    if t == "" then Some([])
    else if |t| == 1 then None
    else
      var front, last := Pairs(t[..|t| - 2]), Number(t[|t| - 2..]);
      if front.None? || last.None? || last.value > 0xFF then None else Some(front.value + [last.value as byte])
  }

  // Section 3 of RFC 4122: a 32-bit and two 16-bit numbers and eight bytes, most significant digit first, in
  // groups of 8, 4, 4, 4 and 12 digits. In memory the three numbers are little-endian.
  function ReadGuid(t: string): Option<bytes> {
    if |t| != 36 || t[8] != '-' || t[13] != '-' || t[18] != '-' || t[23] != '-' then None
    else
      var a, b, c := Number(t[..8]), Number(t[9..13]), Number(t[14..18]);
      var d, e := Pairs(t[19..23]), Pairs(t[24..]);
      if a.None? || b.None? || c.None? || d.None? || e.None? then None
      else if a.value >= WORD || b.value >= 0x1_0000 || c.value >= 0x1_0000 then None
      else Some(Le32(a.value) + Le16(b.value) + Le16(c.value) + d.value + e.value)
  }

  function BigEndian(s: bytes): nat {
    if s == [] then 0 else 0x100 * BigEndian(s[..|s| - 1]) + s[|s| - 1] as nat
  }

  lemma DigitReads(n: int)
    requires 0 <= n < 16
    ensures DigitValue(Digit(n)) == Some(n)
  {}

  lemma TwoDigits(t: string, x: char, y: char)
    ensures Number(t + [x, y]) == (
              var n, m, k := Number(t), DigitValue(x), DigitValue(y);
              if n.None? || m.None? || k.None? then None else Some(16 * (16 * n.value + m.value) + k.value))
  {
    var u := t + [x, y];
    assert u[..|u| - 1] == t + [x] && (t + [x])[..|t|] == t;
  }

  lemma {:induction false} HexReads(s: bytes)
    ensures Number(Hex(s)) == Some(BigEndian(s))
  {
    if s != [] {
      var front, last := s[..|s| - 1], s[|s| - 1] as int;
      HexReads(front);
      DigitReads(last / 16);
      DigitReads(last % 16);
      hide DigitValue, Digit;
      TwoDigits(Hex(front), Digit(last / 16), Digit(last % 16));
    }
  }

  lemma HexOfOne(x: byte)
    ensures Hex([x]) == [Digit(x as int / 16), Digit(x as int % 16)] && BigEndian([x]) == x as nat
  {
    hide Digit;
    assert [x][..0] == [];
  }

  lemma HexSplits(s: bytes)
    requires s != []
    ensures |Hex(s)| >= 2 && Hex(s)[..|Hex(s)| - 2] == Hex(s[..|s| - 1]) && Hex(s)[|Hex(s)| - 2..] == Hex([s[|s| - 1]])
  {
    HexOfOne(s[|s| - 1]);
    hide Digit;
  }

  lemma PairsGrow(t: string, front: bytes, last: byte)
    requires |t| >= 2 && Pairs(t[..|t| - 2]) == Some(front) && Number(t[|t| - 2..]) == Some(last as nat)
    ensures Pairs(t) == Some(front + [last])
  {
    hide Number;
  }

  lemma PairsReadNothing()
    ensures Hex([]) == "" && Pairs("") == Some([])
  {}

  lemma {:induction false} PairsRead(s: bytes)
    ensures Pairs(Hex(s)) == Some(s)
  {
    hide *;
    if s == [] {
      PairsReadNothing();
    } else {
      var front, last := s[..|s| - 1], s[|s| - 1];
      PairsRead(front);
      HexSplits(s);
      HexOfOne(last);
      HexReads([last]);
      PairsGrow(Hex(s), front, last);
      assert front + [last] == s;
    }
  }

  lemma FourReadBack(a: byte, b: byte, c: byte, d: byte)
    ensures BigEndian([a, b, c, d]) < WORD && Le32(BigEndian([a, b, c, d])) == [d, c, b, a]
  {
    assert [a, b, c, d][..3] == [a, b, c] && [a, b, c][..2] == [a, b] && [a, b][..1] == [a] && [a][..0] == [];
    var n := BigEndian([a, b, c, d]);
    assert BigEndian([a]) == a as nat && BigEndian([a, b]) == 0x100 * BigEndian([a]) + b as nat;
    assert BigEndian([a, b, c]) == 0x100 * BigEndian([a, b]) + c as nat && n == 0x100 * BigEndian([a, b, c]) + d as nat;
    FourDigits(n, a as nat, b as nat, c as nat, d as nat);
  }

  lemma FourDigits(n: nat, a: nat, b: nat, c: nat, d: nat)
    requires a < 0x100 && b < 0x100 && c < 0x100 && d < 0x100
    requires n == 0x100 * (0x100 * (0x100 * a + b) + c) + d
    ensures n < WORD && n % 0x100 == d && n / 0x100 % 0x100 == c && n / 0x1_0000 % 0x100 == b && n / 0x100_0000 == a
  {}

  lemma TwoReadBack(a: byte, b: byte)
    ensures BigEndian([a, b]) < 0x1_0000 && Le16(BigEndian([a, b])) == [b, a]
  {
    assert [a, b][..1] == [a] && [a][..0] == [];
    assert BigEndian([a]) == a as nat;
  }

  lemma Reassembled(g: bytes)
    requires |g| == 16
    ensures g == [g[0], g[1], g[2], g[3]] + [g[4], g[5]] + [g[6], g[7]] + g[8..10] + g[10..]
  {}

  lemma Assembled(t: string, a: nat, b: nat, c: nat, d: bytes, e: bytes)
    requires |t| == 36 && t[8] == t[13] == t[18] == t[23] == '-'
    requires Number(t[..8]) == Some(a) && Number(t[9..13]) == Some(b) && Number(t[14..18]) == Some(c)
    requires Pairs(t[19..23]) == Some(d) && Pairs(t[24..]) == Some(e)
    requires a < WORD && b < 0x1_0000 && c < 0x1_0000
    ensures ReadGuid(t) == Some(Le32(a) + Le16(b) + Le16(c) + d + e)
  {
    hide Number, Pairs, Le32, Le16;
  }

  /** The printed form of a GUID is the one of RFC 4122: reading it back gives the sixteen bytes. */
  lemma GuidTextIsRead(g: bytes)
    requires |g| == 16
    ensures ReadGuid(GuidText(g)) == Some(g)
  {
    hide *;
    GuidTextParts(g);
    GuidTextDashes(g);
    HexReads([g[3], g[2], g[1], g[0]]);
    HexReads([g[5], g[4]]);
    HexReads([g[7], g[6]]);
    PairsRead(g[8..10]);
    PairsRead(g[10..]);
    FourReadBack(g[3], g[2], g[1], g[0]);
    TwoReadBack(g[5], g[4]);
    TwoReadBack(g[7], g[6]);
    Reassembled(g);
    Assembled(GuidText(g), BigEndian([g[3], g[2], g[1], g[0]]), BigEndian([g[5], g[4]]), BigEndian([g[7], g[6]]),
              g[8..10], g[10..]);
  }

  lemma GuidTextDashes(g: bytes)
    requires |g| == 16
    ensures |GuidText(g)| == 36
    ensures GuidText(g)[8] == GuidText(g)[13] == GuidText(g)[18] == GuidText(g)[23] == '-'
  {
    hide Hex;
  }

  /** So two GUIDs print alike only if their sixteen bytes are the same. */
  lemma GuidTextIsInjective(a: bytes, b: bytes)
    requires |a| == |b| == 16 && GuidText(a) == GuidText(b)
    ensures a == b
  {
    hide GuidText, ReadGuid;
    GuidTextIsRead(a);
    GuidTextIsRead(b);
  }

  // ---- pairing ----

  datatype PairError = BadImage(image: PeImage.Error) | BadSymbols(symbols: SymbolPair.Error) | Mismatch

  // The printed identity is this one.
  predicate Prints(p: Printed, identity: SymbolPair.Identity) {
    ReadGuid(p.guid) == Some(identity.guid) && p.age == identity.age
  }

  /** A pair is accepted exactly when both files can be read and their sixteen GUID bytes and their ages are
      the same, though the source compares printed forms; what is returned prints that identity. A file that
      cannot be read is reported with its own error, the image first. */
  method ValidatePair(exe: bytes, pdb: bytes) returns (r: Result<Printed, PairError>)
    ensures var image, symbols := PeImage.Parse(exe), SymbolPair.Parse(pdb);
            match r
            case Ok(printed) => image.Ok? && symbols.Ok? && image.value == symbols.value && Prints(printed, image.value)
            case Err(BadImage(e)) => image == Err(e)
            case Err(BadSymbols(e)) => image.Ok? && symbols == Err(e)
            case Err(Mismatch) => image.Ok? && symbols.Ok? && image.value != symbols.value
  {
    hide PeImage.Parse, SymbolPair.Parse, GuidText, ReadGuid;
    var image := PeImage.PeIdentity(exe);
    if image.Err? { return Err(BadImage(image.error)); }
    var symbols := SymbolPair.PdbIdentity(pdb);
    if symbols.Err? { return Err(BadSymbols(symbols.error)); }
    var pe := Printed(GuidText(image.value.guid), image.value.age);
    var info := Printed(GuidText(symbols.value.guid), symbols.value.age);
    if pe != info { return Err(Mismatch); }
    GuidTextIsInjective(image.value.guid, symbols.value.guid);
    GuidTextIsRead(image.value.guid);
    r := Ok(pe);
  }
}
