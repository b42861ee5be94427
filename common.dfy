/** Shared vocabulary: an Option type and the few string and integer
    conversions of the Go standard library that the provider relies on
    (strconv.Atoi, the int32 conversion, hex.EncodeToString of a string's
    UTF-8 bytes, and ASCII lower-casing). */
module Common {

  datatype Option<+T> = None | Some(value: T)

  datatype Result<+T, +E> = Ok(value: T) | Err(error: E)

  /** A byte as Go's `[]byte(s)` produces it. */
  type Byte = b: int | 0 <= b < 256

  const Int64Min: int := -0x8000_0000_0000_0000
  const Int64Max: int := 0x7fff_ffff_ffff_ffff

  predicate IsDigit(c: char) { '0' <= c <= '9' }

  predicate AllDigits(s: string) { forall i :: 0 <= i < |s| ==> IsDigit(s[i]) }

  /** Value of a non-empty run of decimal digits. */
  function DigitsValue(s: string): (n: nat)
    requires AllDigits(s)
  {
    if s == [] then 0
    else DigitsValue(s[..|s| - 1]) * 10 + (s[|s| - 1] as int - '0' as int)
  }

  /** strconv.Atoi on a 64-bit platform: an optional sign followed by at least one
      decimal digit, whose value fits in an int; anything else is an error (None). */
  function Atoi(s: string): (r: Option<int>)
    ensures r.Some? ==> Int64Min <= r.value <= Int64Max
    ensures r.Some? ==> |s| > 0 && (IsDigit(s[0]) || s[0] == '+' || s[0] == '-')
  {
    var neg := |s| > 0 && s[0] == '-';
    var body := if |s| > 0 && (s[0] == '+' || s[0] == '-') then s[1..] else s;
    if body == [] || !AllDigits(body) then None
    else
      var v := if neg then 0 - DigitsValue(body) as int else DigitsValue(body) as int;
      if Int64Min <= v <= Int64Max then Some(v) else None
  }

  /** Go's `int32(n)` conversion: keep the low 32 bits, read them as two's complement. */
  function Int32(n: int): (r: int)
    ensures -0x8000_0000 <= r < 0x8000_0000
    ensures (r - n) % 0x1_0000_0000 == 0
    ensures -0x8000_0000 <= n < 0x8000_0000 ==> r == n
  {
    (n + 0x8000_0000) % 0x1_0000_0000 - 0x8000_0000
  }

  /** The UTF-8 bytes of one character. */
  function Utf8Char(c: char): (bs: seq<Byte>)
    ensures 1 <= |bs| <= 4
  {
    var n := c as int;
    if n < 0x80 then [n]
    else if n < 0x800 then [0xC0 + n / 0x40, 0x80 + n % 0x40]
    else if n < 0x1_0000 then [0xE0 + n / 0x1000, 0x80 + (n / 0x40) % 0x40, 0x80 + n % 0x40]
    else [0xF0 + n / 0x4_0000, 0x80 + (n / 0x1000) % 0x40, 0x80 + (n / 0x40) % 0x40, 0x80 + n % 0x40]
  }

  /** `[]byte(s)` for a Go string holding the UTF-8 encoding of `s`. */
  function Utf8(s: string): seq<Byte>
  {
    if s == [] then [] else Utf8(s[..|s| - 1]) + Utf8Char(s[|s| - 1])
  }

  function HexDigit(d: int): (c: char)
    requires 0 <= d < 16
  {
    if d < 10 then ('0' as int + d) as char else ('a' as int + d - 10) as char
  }

  predicate IsLowerHex(c: char) { '0' <= c <= '9' || 'a' <= c <= 'f' }

  /** hex.EncodeToString: two lower-case hex digits per byte, high nibble first. */
  function HexBytes(bs: seq<Byte>): (r: string)
    ensures |r| == 2 * |bs|
    ensures forall i :: 0 <= i < |r| ==> IsLowerHex(r[i])
  {
    if bs == [] then ""
    else HexBytes(bs[..|bs| - 1]) + [HexDigit(bs[|bs| - 1] / 16), HexDigit(bs[|bs| - 1] % 16)]
  }

  lemma HexDigitInjective(d: int, e: int)
    requires 0 <= d < 16 && 0 <= e < 16 && HexDigit(d) == HexDigit(e)
    ensures d == e
  {
  }

  lemma NibblesDetermine(x: Byte, y: Byte)
    requires x / 16 == y / 16 && x % 16 == y % 16
    ensures x == y
  {
  }

  /** Distinct byte strings have distinct hex encodings. */
  lemma {:induction false} HexBytesInjective(a: seq<Byte>, b: seq<Byte>)
    requires HexBytes(a) == HexBytes(b)
    ensures a == b
  {
    if a != [] {
      var n := |a|;
      assert |b| == n;
      var a', b' := a[..n - 1], b[..n - 1];
      var x, y := a[n - 1], b[n - 1];
      var ha, hb := HexBytes(a'), HexBytes(b');
      assert HexBytes(a) == ha + [HexDigit(x / 16), HexDigit(x % 16)];
      assert HexBytes(b) == hb + [HexDigit(y / 16), HexDigit(y % 16)];
      assert |ha| == |hb| == 2 * n - 2;
      assert ha == HexBytes(a)[..2 * n - 2] == hb;
      HexDigitInjective(x / 16, y / 16);
      HexDigitInjective(x % 16, y % 16);
      NibblesDetermine(x, y);
      HexBytesInjective(a', b');
      assert a == a' + [x] && b == b' + [y];
    }
  }

  /** `hex.EncodeToString([]byte(s))`, the encoding used for label values. */
  function Hex(s: string): string
  {
    HexBytes(Utf8(s))
  }

  const Base64Alphabet: string := "ABCDEFGHIJKLMNOPQRSTUVWXYZabcdefghijklmnopqrstuvwxyz0123456789+/"

  function Sextet(d: int): char
    requires 0 <= d < 64
  {
    Base64Alphabet[d]
  }

  /** The four characters of a full three-byte group. */
  function Group(b0: Byte, b1: Byte, b2: Byte): (r: string)
    ensures |r| == 4
  {
    [Sextet(b0 / 4), Sextet(b0 % 4 * 16 + b1 / 16), Sextet(b1 % 16 * 4 + b2 / 64), Sextet(b2 % 64)]
  }

  /** The padded group of a trailing one or two bytes. */
  function Tail(bs: seq<Byte>): (r: string)
    requires 1 <= |bs| <= 2
    ensures |r| == 4
  {
    if |bs| == 1 then [Sextet(bs[0] / 4), Sextet(bs[0] % 4 * 16), '=', '=']
    else [Sextet(bs[0] / 4), Sextet(bs[0] % 4 * 16 + bs[1] / 16), Sextet(bs[1] % 16 * 4), '=']
  }

  /** base64.StdEncoding.EncodeToString: four characters for every three bytes, the
      last group padded with '='. */
  function Base64(bs: seq<Byte>): (r: string)
    ensures |r| == 4 * ((|bs| + 2) / 3)
    decreases |bs|
  {
    if |bs| == 0 then ""
    else if |bs| < 3 then Tail(bs)
    else
      var rest := Base64(bs[3..]);
      assert (|bs| - 3 + 2) / 3 + 1 == (|bs| + 2) / 3;
      Group(bs[0], bs[1], bs[2]) + rest
  }

  /** Index of the first occurrence of `c` in `s`, or |s| when there is none. */
  function IndexOf(s: string, c: char): (i: nat)
    ensures i <= |s|
    ensures i < |s| ==> s[i] == c
    ensures forall j :: 0 <= j < i ==> s[j] != c
  {
    if s == [] then 0 else if s[0] == c then 0 else 1 + IndexOf(s[1..], c)
  }

  /** strings.Cut(s, c): the part of `s` before the first `c` (all of `s` if there is none). */
  function Before(s: string, c: char): (r: string)
    ensures c !in r
    ensures r <= s
    ensures c !in s ==> r == s
  {
    s[..IndexOf(s, c)]
  }

  /** strings.ToLower restricted to ASCII, which is all a URL scheme can hold. */
  function AsciiLower(s: string): (r: string)
    ensures |r| == |s|
  {
    if s == [] then ""
    else
      var c := s[0];
      [if 'A' <= c <= 'Z' then (c as int + 32) as char else c] + AsciiLower(s[1..])
  }
}
