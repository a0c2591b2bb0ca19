/**
 * String helpers shared by the model: Python's `str.replace(pattern, "")`,
 * `str(n)` for integers, `"sep".join(...)` / `split`, and hexadecimal rendering
 * of bytes as `secrets.token_hex` produces it. Strings are `seq<char>`.
 */
module Text {

  newtype byte = b: int | 0 <= b < 256

  // ---------------------------------------------------------------------------
  // Removing every occurrence of a pattern (Python `s.replace(pattern, "")`)
  // ---------------------------------------------------------------------------

  /** Scans left to right and drops each non-overlapping occurrence of `pattern`. */
  function RemoveAll(s: string, pattern: string): (r: string)
    requires |pattern| > 0
    ensures |r| <= |s|
    decreases |s|
  {
    if |s| < |pattern| then s
    else if s[..|pattern|] == pattern then RemoveAll(s[|pattern|..], pattern)
    else [s[0]] + RemoveAll(s[1..], pattern)
  }

  /** A string that never contains the first character of the pattern is left unchanged. */
  lemma {:induction false} RemoveAllWithoutLead(s: string, pattern: string)
    requires |pattern| > 0
    requires pattern[0] !in s
    ensures RemoveAll(s, pattern) == s
    decreases |s|
  {
    if |s| >= |pattern| {
      assert s[..|pattern|][0] == s[0];
      assert s[..|pattern|] != pattern;
      RemoveAllWithoutLead(s[1..], pattern);
      assert [s[0]] + s[1..] == s;
    }
  }

  /** A leading occurrence of the pattern is removed and the scan goes on after it. */
  lemma RemoveAllLeading(pattern: string, s: string)
    requires |pattern| > 0
    ensures RemoveAll(pattern + s, pattern) == RemoveAll(s, pattern)
  {
    assert (pattern + s)[..|pattern|] == pattern;
    assert (pattern + s)[|pattern|..] == s;
  }

  // ---------------------------------------------------------------------------
  // Decimal rendering (Python `str(n)` / an f-string of an int)
  // ---------------------------------------------------------------------------

  function DigitChar(d: nat): (c: char)
    requires d < 10
    ensures '0' <= c <= '9'
  {
    ['0', '1', '2', '3', '4', '5', '6', '7', '8', '9'][d]
  }

  function DigitValue(c: char): (d: nat)
    ensures d < 10
  {
    if '0' <= c <= '9' then (c as int - '0' as int) else 0
  }

  lemma DigitRoundTrip(d: nat)
    requires d < 10
    ensures DigitValue(DigitChar(d)) == d
  {
  }

  /** Decimal digits of `n`, most significant first, without leading zeros. */
  function NatToString(n: nat): (s: string)
    ensures |s| > 0
    ensures forall i :: 0 <= i < |s| ==> '0' <= s[i] <= '9'
    decreases n
  {
    if n < 10 then [DigitChar(n)] else NatToString(n / 10) + [DigitChar(n % 10)]
  }

  /** `str(i)` for a Python int: a minus sign before the digits of a negative number. */
  function IntToString(i: int): (s: string)
    ensures |s| > 0
    ensures (s[0] == '-') <==> i < 0
  {
    if i < 0 then "-" + NatToString(-i) else NatToString(i)
  }

  /** Reads a string of decimal digits back as a number. */
  function ParseNat(s: string): nat
    decreases |s|
  {
    if s == [] then 0 else ParseNat(s[..|s| - 1]) * 10 + DigitValue(s[|s| - 1])
  }

  /** Reads back what `IntToString` writes. */
  function ParseInt(s: string): int
  {
    if |s| > 0 && s[0] == '-' then -(ParseNat(s[1..]) as int) else ParseNat(s)
  }

  lemma {:induction false} NatToStringRoundTrip(n: nat)
    ensures ParseNat(NatToString(n)) == n
    decreases n
  {
    if n >= 10 {
      var s := NatToString(n);
      NatToStringRoundTrip(n / 10);
      assert s[..|s| - 1] == NatToString(n / 10);
      DigitRoundTrip(n % 10);
    } else {
      DigitRoundTrip(n);
    }
  }

  /** Reading a sign and then digits: a leading minus negates the number the digits spell. */
  lemma ParseSigned(negative: bool, digits: string)
    requires |digits| > 0 && '0' <= digits[0] <= '9'
    ensures ParseInt(if negative then "-" + digits else digits)
            == if negative then -(ParseNat(digits) as int) else ParseNat(digits) as int
  {
    if negative {
      var s := "-" + digits;
      assert s[1..] == digits;
    }
  }

  lemma IntToStringRoundTrip(i: int)
    ensures ParseInt(IntToString(i)) == i
  {
    var n: nat := if i < 0 then -i else i;
    NatToStringRoundTrip(n);
    ParseSigned(i < 0, NatToString(n));
  }

  /** Putting the same text in front of two different strings keeps them different. */
  lemma PrefixKeepsDifference(p: string, a: string, b: string)
    requires a != b
    ensures p + a != p + b
  {
    if |a| == |b| {
      var k :| 0 <= k < |a| && a[k] != b[k];
      assert (p + a)[|p| + k] == a[k];
      assert (p + b)[|p| + k] == b[k];
    }
  }

  // ---------------------------------------------------------------------------
  // Joining and splitting on a one-character separator
  // ---------------------------------------------------------------------------

  /** `sep.join(parts)`: `sep` between consecutive parts, none after the last. */
  function Join(parts: seq<string>, sep: char): (s: string)
    ensures parts == [] ==> s == ""
    ensures |parts| == 1 ==> s == parts[0]
    decreases |parts|
  {
    if parts == [] then ""
    else if |parts| == 1 then parts[0]
    else parts[0] + [sep] + Join(parts[1..], sep)
  }

  /** `s.split(sep)`: the pieces between separators; one piece when `sep` is absent. */
  function Split(s: string, sep: char): (parts: seq<string>)
    ensures |parts| > 0
    decreases |s|
  {
    if s == [] then [""]
    else if s[0] == sep then [""] + Split(s[1..], sep)
    else var rest := Split(s[1..], sep); [[s[0]] + rest[0]] + rest[1..]
  }

  /** Splitting a piece that holds no separator, followed by more text. */
  lemma {:induction false} SplitPrefix(a: string, sep: char, rest: string)
    requires sep !in a
    ensures Split(a + rest, sep) == [a + Split(rest, sep)[0]] + Split(rest, sep)[1..]
    decreases |a|
  {
    if a != [] {
      SplitPrefix(a[1..], sep, rest);
      assert (a + rest)[0] == a[0];
      assert (a + rest)[1..] == a[1..] + rest;
      assert [a[0]] + (a[1..] + Split(rest, sep)[0]) == a + Split(rest, sep)[0];
    } else {
      var parts := Split(rest, sep);
      assert a + rest == rest;
      assert a + parts[0] == parts[0];
      assert parts == [parts[0]] + parts[1..];
    }
  }

  /** Splitting what `Join` wrote gives the parts back, when no part holds the separator. */
  lemma {:induction false} SplitJoin(parts: seq<string>, sep: char)
    requires |parts| > 0
    requires forall i :: 0 <= i < |parts| ==> sep !in parts[i]
    ensures Split(Join(parts, sep), sep) == parts
    decreases |parts|
  {
    if |parts| == 1 {
      SplitPrefix(parts[0], sep, "");
      assert parts[0] + "" == parts[0];
      assert parts[0] + [] == parts[0];
    } else {
      var tail := Join(parts[1..], sep);
      SplitJoin(parts[1..], sep);
      SplitPrefix(parts[0], sep, [sep] + tail);
      assert parts[0] + [sep] + tail == parts[0] + ([sep] + tail);
      assert ([sep] + tail)[0] == sep && ([sep] + tail)[1..] == tail;
      assert parts[0] + "" == parts[0];
      assert parts == [parts[0]] + parts[1..];
    }
  }

  // ---------------------------------------------------------------------------
  // Hexadecimal (Python `secrets.token_hex`, `bytes.hex()`)
  // ---------------------------------------------------------------------------

  const HexDigits: string := "0123456789abcdef"

  /** The two lowercase hexadecimal digits of a byte, high nibble first. */
  function ByteDigits(b: byte): (s: string)
    ensures |s| == 2 && s[0] in HexDigits && s[1] in HexDigits
  {
    [HexDigits[b as int / 16], HexDigits[b as int % 16]]
  }

  /** Two digits per byte. */
  function ToHex(bytes: seq<byte>): (s: string)
    ensures |s| == 2 * |bytes|
    ensures forall i :: 0 <= i < |s| ==> s[i] in HexDigits
    decreases |bytes|
  {
    if bytes == [] then ""
    else
      var rest := ToHex(bytes[1..]);
      var s := ByteDigits(bytes[0]) + rest;
      assert forall i :: 2 <= i < |s| ==> s[i] == rest[i - 2];
      s
  }

  function HexValue(c: char): (d: nat)
    ensures d < 16
  {
    if '0' <= c <= '9' then c as int - '0' as int
    else if 'a' <= c <= 'f' then c as int - 'a' as int + 10
    else 0
  }

  /** The byte a high and a low hexadecimal digit stand for. */
  function PairByte(hi: char, lo: char): byte {
    (HexValue(hi) * 16 + HexValue(lo)) as byte
  }

  /** Reads pairs of hexadecimal digits back as bytes. */
  function FromHex(s: string): seq<byte>
    decreases |s|
  {
    if |s| < 2 then [] else [PairByte(s[0], s[1])] + FromHex(s[2..])
  }

  lemma HexDigitValue(d: nat)
    requires d < 16
    ensures HexValue(HexDigits[d]) == d
  {
  }

  /** The two digits written for a byte read back as that byte. */
  lemma NibblesRoundTrip(b: byte)
    ensures PairByte(ByteDigits(b)[0], ByteDigits(b)[1]) == b
  {
    var hi, lo := b as int / 16, b as int % 16;
    HexDigitValue(hi);
    HexDigitValue(lo);
    assert hi * 16 + lo == b as int;
  }

  /** One step of reading: the first two digits make the first byte. */
  lemma FromHexPair(d: string, rest: string)
    requires |d| == 2
    ensures FromHex(d + rest) == [PairByte(d[0], d[1])] + FromHex(rest)
  {
    var s := d + rest;
    assert s[0] == d[0] && s[1] == d[1] && s[2..] == rest;
  }

  lemma ByteDigitsRoundTrip(b: byte, rest: string)
    ensures FromHex(ByteDigits(b) + rest) == [b] + FromHex(rest)
  {
    NibblesRoundTrip(b);
    FromHexPair(ByteDigits(b), rest);
  }

  lemma {:induction false} HexRoundTrip(bytes: seq<byte>)
    ensures FromHex(ToHex(bytes)) == bytes
    decreases |bytes|
  {
    if bytes != [] {
      ByteDigitsRoundTrip(bytes[0], ToHex(bytes[1..]));
      HexRoundTrip(bytes[1..]);
      assert bytes == [bytes[0]] + bytes[1..];
    }
  }
}
