/** The JSON printing of app/mobile-ime/rime_engine.cpp over byte strings, read back by section 7 of RFC 8259. */
module JsonText {
  import opened Bytes
  import opened Options

  const QUOTE: byte := 34
  const BACKSLASH: byte := 92
  const COMMA: byte := 44
  const CLOSE: byte := 93

  // ---- the printer ----

  function HexDigit(n: int): byte
    requires 0 <= n < 16
  {
    (if n < 10 then 48 + n else 87 + n) as byte
  }

  // What stands for one byte between the quotes.
  function Escaped(c: byte): bytes {
    if c == QUOTE || c == BACKSLASH then [BACKSLASH, c]
    else if c < 32 then [BACKSLASH, 117, 48, 48, HexDigit(c as int / 16), HexDigit(c as int % 16)]
    else [c]
  }

  function Inner(value: bytes): bytes {
    if value == [] then [] else Escaped(value[0]) + Inner(value[1..])
  }

  function Quoted(value: bytes): (r: bytes)
    ensures |r| >= 2
  {
    [QUOTE] + Inner(value) + [QUOTE]
  }

  lemma {:induction false} InnerAppends(value: bytes, c: byte)
    ensures Inner(value + [c]) == Inner(value) + Escaped(c)
  {
    if value == [] {
      assert [c][1..] == [];
    } else {
      hide Escaped;
      InnerAppends(value[1..], c);
      assert (value + [c])[1..] == value[1..] + [c];
      assert Escaped(value[0]) + (Inner(value[1..]) + Escaped(c)) == Inner(value) + Escaped(c);
    }
  }

  method Quote(value: bytes) returns (out: bytes)
    ensures out == Quoted(value)
  {
    out := [QUOTE];
    assert value[..0] == [] && Inner([]) == [];
    hide Inner;
    for i := 0 to |value|
      invariant out == [QUOTE] + Inner(value[..i])
    {
      var c := value[i];
      if c == QUOTE || c == BACKSLASH {
        out := out + [BACKSLASH];
        out := out + [c];
      } else if c < 32 {
        out := out + [BACKSLASH, 117, 48, 48];
        out := out + [HexDigit(c as int / 16)];
        out := out + [HexDigit(c as int % 16)];
      } else {
        out := out + [c];
      }
      InnerAppends(value[..i], c);
      assert value[..i] + [c] == value[..i + 1];
    }
    assert value[..|value|] == value;
    out := out + [QUOTE];
  }

  // ---- the reader ----

  function HexValue(c: byte): (r: Option<nat>)
    ensures r.Some? ==> r.value < 16
  {
    if 48 <= c <= 57 then Some(c as nat - 48)
    else if 65 <= c <= 70 then Some(c as nat - 55)
    else if 97 <= c <= 102 then Some(c as nat - 87)
    else None
  }

  // The code unit of four hexadecimal digits.
  function CodeUnit(s: bytes): (r: Option<nat>)
    ensures r.Some? ==> |s| >= 4 && r.value < 0x10000
  {
    if |s| < 4 then None
    else
      match (HexValue(s[0]), HexValue(s[1]), HexValue(s[2]), HexValue(s[3]))
      case (Some(a), Some(b), Some(c), Some(d)) => Some(4096 * a + 256 * b + 16 * c + d)
      case _ => None
  }

  function Utf8(code: nat): bytes
    requires code < 0x110000
  {
    if code < 0x80 then [code as byte]
    else if code < 0x800 then [(0xC0 + code / 64) as byte, (0x80 + code % 64) as byte]
    else if code < 0x10000 then [(0xE0 + code / 4096) as byte, (0x80 + code / 64 % 64) as byte, (0x80 + code % 64) as byte]
    else [(0xF0 + code / 262144) as byte, (0x80 + code / 4096 % 64) as byte, (0x80 + code / 64 % 64) as byte,
          (0x80 + code % 64) as byte]
  }

  // One character after the opening quote: the bytes it stands for and how many bytes it takes.
  function ReadChar(s: bytes): (r: Option<(bytes, nat)>)
    ensures r.Some? ==> 0 < r.value.1 <= |s|
  {
    if s == [] || s[0] == QUOTE || s[0] < 32 then None
    else if s[0] != BACKSLASH then Some(([s[0]], 1))
    else if |s| < 2 then None
    else
      match s[1]
      case 34 => Some(([34], 2))
      case 92 => Some(([92], 2))
      case 47 => Some(([47], 2))
      case 98 => Some(([8], 2))
      case 102 => Some(([12], 2))
      case 110 => Some(([10], 2))
      case 114 => Some(([13], 2))
      case 116 => Some(([9], 2))
      case 117 => ReadUnicode(s)
      case _ => None
  }

  // A code point of the basic plane is one escape, any other a pair of surrogates.
  function ReadUnicode(s: bytes): (r: Option<(bytes, nat)>)
    requires |s| >= 2
    ensures r.Some? ==> 0 < r.value.1 <= |s|
  {
    var unit := CodeUnit(s[2..]);
    if unit.None? || 0xDC00 <= unit.value < 0xE000 then None
    else if unit.value < 0xD800 || 0xE000 <= unit.value then Some((Utf8(unit.value), 6))
    else if |s| < 12 || s[6] != BACKSLASH || s[7] != 117 then None
    else
      var low := CodeUnit(s[8..]);
      if low.None? || low.value < 0xDC00 || 0xE000 <= low.value then None
      else Some((Utf8(0x10000 + (unit.value - 0xD800) * 1024 + (low.value - 0xDC00)), 12))
  }

  // The text up to the closing quote, and what follows it.
  function ReadChars(s: bytes): Option<(bytes, bytes)>
    decreases |s|
  {
    if s != [] && s[0] == QUOTE then Some(([], s[1..]))
    else
      match ReadChar(s)
      case None => None
      case Some((text, length)) =>
        match ReadChars(s[length..])
        case None => None
        case Some((more, rest)) => Some((text + more, rest))
  }

  function ReadString(s: bytes): Option<(bytes, bytes)> {
    if s == [] || s[0] != QUOTE then None else ReadChars(s[1..])
  }

  // ---- printing then reading ----

  lemma HexRoundTrip(n: int)
    requires 0 <= n < 16
    ensures HexValue(HexDigit(n)) == Some(n)
  {}

  lemma ReadEscaped(c: byte, rest: bytes)
    ensures ReadChar(Escaped(c) + rest) == Some(([c], |Escaped(c)|))
    ensures (Escaped(c) + rest)[|Escaped(c)|..] == rest && Escaped(c)[0] != QUOTE
  {
    if c < 32 {
      var s := Escaped(c) + rest;
      HexRoundTrip(c as int / 16);
      HexRoundTrip(c as int % 16);
      assert s[2..][0] == 48 && s[2..][1] == 48;
      assert s[2..][2] == HexDigit(c as int / 16) && s[2..][3] == HexDigit(c as int % 16);
      assert CodeUnit(s[2..]) == Some(c as nat);
    }
  }

  lemma {:induction false} ReadInner(value: bytes, rest: bytes)
    ensures ReadChars(Inner(value) + [QUOTE] + rest) == Some((value, rest))
  {
    if value == [] {
      assert (Inner(value) + [QUOTE] + rest)[1..] == rest;
    } else {
      var s := Inner(value) + [QUOTE] + rest;
      var tail := Inner(value[1..]) + [QUOTE] + rest;
      assert s == Escaped(value[0]) + tail;
      ReadEscaped(value[0], tail);
      ReadInner(value[1..], rest);
      assert [value[0]] + value[1..] == value;
    }
  }

  /** Whatever bytes are printed and whatever follows, a reader of section 7 of RFC 8259 stops at the
      printer's closing quote and has read the very same bytes. */
  lemma QuoteRoundTrip(value: bytes, rest: bytes)
    ensures ReadString(Quoted(value) + rest) == Some((value, rest))
  {
    ReadInner(value, rest);
    assert (Quoted(value) + rest)[1..] == Inner(value) + [QUOTE] + rest;
  }

  /** No two byte strings print alike, and no printed string is the beginning of another. */
  lemma QuoteIsPrefixFree(a: bytes, b: bytes, rest: bytes)
    requires Quoted(a) + rest == Quoted(b)
    ensures a == b && rest == []
  {
    QuoteRoundTrip(a, rest);
    QuoteRoundTrip(b, []);
    assert Quoted(b) + [] == Quoted(b);
  }

  // Every quote and every backslash is part of an escape, and no byte is a control byte.
  predicate Clean(s: bytes)
    decreases |s|
  {
    s == []
    || (s[0] == BACKSLASH && |s| >= 2 && (s[1] == QUOTE || s[1] == BACKSLASH) && Clean(s[2..]))
    || (s[0] == BACKSLASH && |s| >= 6 && s[1] == 117 && CodeUnit(s[2..]).Some? && Clean(s[6..]))
    || (s[0] != BACKSLASH && s[0] != QUOTE && s[0] >= 32 && Clean(s[1..]))
  }

  /** Between the outer quotes there is no bare quote, no bare backslash and no control byte. */
  lemma {:induction false} InnerIsClean(value: bytes)
    ensures Clean(Inner(value))
    ensures forall c | c in Inner(value) :: c >= 32
  {
    if value != [] {
      InnerIsClean(value[1..]);
      var c := value[0];
      var s := Inner(value);
      ReadEscaped(c, Inner(value[1..]));
      assert s == Escaped(c) + Inner(value[1..]);
      if c < 32 {
        HexRoundTrip(c as int / 16);
        HexRoundTrip(c as int % 16);
        assert s[2..][0] == 48 && s[2..][1] == 48;
        assert s[2..][2] == HexDigit(c as int / 16) && s[2..][3] == HexDigit(c as int % 16);
      }
    }
  }

  // ---- lists of candidates ----

  function Listed(texts: seq<bytes>): bytes {
    if texts == [] then [] else if |texts| == 1 then Quoted(texts[0])
    else Quoted(texts[0]) + [COMMA] + Listed(texts[1..])
  }

  // Reads strings separated by commas up to the closing bracket.
  function ReadList(s: bytes): Option<(seq<bytes>, bytes)>
    decreases |s|
  {
    if s != [] && s[0] == CLOSE then Some(([], s[1..])) else ReadItems(s)
  }

  function ReadItems(s: bytes): Option<(seq<bytes>, bytes)>
    decreases |s|
  {
    match ReadString(s)
    case None => None
    case Some((text, rest)) =>
      if |rest| >= |s| || rest == [] then None
      else if rest[0] == CLOSE then Some(([text], rest[1..]))
      else if rest[0] != COMMA then None
      else
        match ReadItems(rest[1..])
        case None => None
        case Some((more, after)) => Some(([text] + more, after))
  }

  lemma {:induction false} ReadListed(texts: seq<bytes>, rest: bytes)
    requires texts != []
    ensures ReadItems(Listed(texts) + [CLOSE] + rest) == Some((texts, rest))
  {
    hide Quoted, ReadString;
    var s := Listed(texts) + [CLOSE] + rest;
    if |texts| == 1 {
      assert s == Quoted(texts[0]) + ([CLOSE] + rest);
      QuoteRoundTrip(texts[0], [CLOSE] + rest);
      assert ([CLOSE] + rest)[1..] == rest && texts == [texts[0]];
    } else {
      var tail := [COMMA] + Listed(texts[1..]) + [CLOSE] + rest;
      assert s == Quoted(texts[0]) + tail;
      QuoteRoundTrip(texts[0], tail);
      ReadListed(texts[1..], rest);
      assert tail[1..] == Listed(texts[1..]) + [CLOSE] + rest;
      assert [texts[0]] + texts[1..] == texts;
    }
  }

  /** A printed candidate list reads back as the list, whatever bytes the candidates hold. */
  lemma ListRoundTrip(texts: seq<bytes>, rest: bytes)
    ensures ReadList(Listed(texts) + [CLOSE] + rest) == Some((texts, rest))
  {
    if texts == [] {
      assert Listed(texts) + [CLOSE] + rest == [CLOSE] + rest;
      assert ([CLOSE] + rest)[1..] == rest;
    } else {
      ReadListed(texts, rest);
    }
  }

  lemma {:induction false} ListedAppends(texts: seq<bytes>, text: bytes)
    ensures Listed(texts + [text]) == if texts == [] then Quoted(text) else Listed(texts) + [COMMA] + Quoted(text)
  {
    if |texts| == 1 {
      assert (texts + [text])[1..] == [text];
    } else if |texts| > 1 {
      ListedAppends(texts[1..], text);
      assert (texts + [text])[1..] == texts[1..] + [text];
    }
  }

  // One more candidate, after a comma if it is not the first.
  method AppendCandidate(out: bytes, text: bytes, count: nat, ghost before: seq<bytes>) returns (longer: bytes)
    requires out == Listed(before) && count == |before|
    ensures longer == Listed(before + [text])
  {
    longer := out;
    if count != 0 { longer := longer + [COMMA]; }
    var quoted := Quote(text);
    longer := longer + quoted;
    ListedAppends(before, text);
    assert before == [] ==> [] + quoted == quoted;
  }

  /** The bounded candidate list of an expanded snapshot: from `offset`, at most `limit` candidates in the
      engine's order, and `more` exactly when the engine has further ones. `all` is what the engine's
      iterator would yield from the start. */
  method ExpandedCandidates(all: seq<bytes>, offset: nat, limit: nat) returns (out: bytes, more: bool)
    ensures offset >= |all| ==> out == [] && !more
    ensures offset < |all| ==>
              && out == Listed(if limit <= |all| - offset then all[offset..offset + limit] else all[offset..])
              && (more <==> limit < |all| - offset)
  {
    out := [];
    more := false;
    if offset >= |all| { return; }
    var count, at := 0, offset;
    ghost var shown: seq<bytes> := [];
    assert Listed(shown) == [];
    hide Listed, Quoted;
    // `candidate_list_next` is asked only while the limit is not reached.
    while count < limit && at < |all|
      invariant 0 <= count <= limit && at == offset + count <= |all|
      invariant shown == all[offset..at] && |shown| == count && out == Listed(shown)
    {
      out := AppendCandidate(out, all[at], count, shown);
      shown := shown + [all[at]];
      count, at := count + 1, at + 1;
    }
    more := count == limit && at < |all|;
    assert all[offset..|all|] == all[offset..];
  }
}
