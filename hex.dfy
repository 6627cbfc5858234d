/** Text forms used by the node: the hex form of a 256-bit hash (uint256::GetHex, most
    significant byte first, i.e. the stored bytes reversed), and decimal integers as
    written by i64tostr and read back by atoi64. */
module Hex {

  /** A byte of a hash or of push data. */
  newtype byte = x: int | 0 <= x < 256

  predicate IsHexDigit(c: char)
  {
    '0' <= c <= '9' || 'a' <= c <= 'f'
  }

  /** Lower-case hex digit of a value below 16. */
  function HexDigit(n: int): (c: char)
    requires 0 <= n < 16
    ensures IsHexDigit(c)
  {
    if n < 10 then ('0' as int + n) as char else ('a' as int + n - 10) as char
  }

  /** Value of a lower-case hex digit, or -1 for any other character. */
  function HexValue(c: char): (v: int)
    ensures -1 <= v < 16
    ensures v >= 0 ==> HexDigit(v) == c
    ensures v < 0 <==> !IsHexDigit(c)
  {
    if '0' <= c <= '9' then c as int - '0' as int
    else if 'a' <= c <= 'f' then c as int - 'a' as int + 10
    else -1
  }

  /** Two lower-case hex characters of one byte. */
  function ByteHex(b: byte): (s: string)
    ensures |s| == 2
  {
    [HexDigit(b as int / 16), HexDigit(b as int % 16)]
  }

  /** uint256::GetHex: the bytes are stored little-endian and printed most significant first. */
  function HashHex(bytes: seq<byte>): (s: string)
    ensures |s| == 2 * |bytes|
  {
    if bytes == [] then "" else ByteHex(bytes[|bytes| - 1]) + HashHex(bytes[..|bytes| - 1])
  }

  /** Reads a byte from two hex characters, if both are hex digits. */
  function ParseByte(hi: char, lo: char): (r: int)
    ensures -1 <= r < 256
  {
    var h := HexValue(hi);
    var l := HexValue(lo);
    if h < 0 || l < 0 then -1 else h * 16 + l
  }

  /** Reads the bytes back from an even-length hex text (the inverse of HashHex). */
  function ParseHashHex(s: string): (r: seq<byte>)
    requires |s| % 2 == 0
    ensures |r| <= |s| / 2
    decreases |s|
  {
    if s == [] then []
    else
      var v := ParseByte(s[0], s[1]);
      if v < 0 then [] else ParseHashHex(s[2..]) + [v as byte]
  }

  lemma ByteHexRoundTrip(b: byte)
    ensures ParseByte(ByteHex(b)[0], ByteHex(b)[1]) == b as int
  {
  }

  /** uint256::SetHex reads back exactly what GetHex printed. */
  lemma {:induction false} HashHexRoundTrip(bytes: seq<byte>)
    ensures ParseHashHex(HashHex(bytes)) == bytes
  {
    if bytes != [] {
      var last := bytes[|bytes| - 1];
      var init := bytes[..|bytes| - 1];
      var s := HashHex(bytes);
      assert s == ByteHex(last) + HashHex(init);
      ByteHexRoundTrip(last);
      assert s[2..] == HashHex(init);
      HashHexRoundTrip(init);
      assert init + [last] == bytes;
    }
  }

  /** Distinct hashes have distinct hex texts. */
  lemma HashHexInjective(a: seq<byte>, b: seq<byte>)
    requires HashHex(a) == HashHex(b)
    ensures a == b
  {
    HashHexRoundTrip(a);
    HashHexRoundTrip(b);
  }

  /** Every character of a hash's hex form is a hex digit. */
  lemma {:induction false} HashHexDigits(bytes: seq<byte>)
    ensures forall k :: 0 <= k < |HashHex(bytes)| ==> IsHexDigit(HashHex(bytes)[k])
  {
    if bytes != [] {
      HashHexDigits(bytes[..|bytes| - 1]);
    }
  }

  // ---- decimal text: i64tostr and atoi64 ----

  function DecDigit(n: int): (c: char)
    requires 0 <= n < 10
    ensures '0' <= c <= '9'
  {
    "0123456789"[n]
  }

  /** Decimal digits of a natural number, no leading zeros (but "0" for zero). */
  function NatDigits(n: nat): (s: string)
    ensures |s| >= 1
    ensures forall k :: 0 <= k < |s| ==> '0' <= s[k] <= '9'
  {
    if n < 10 then [DecDigit(n)] else NatDigits(n / 10) + [DecDigit(n % 10)]
  }

  /** i64tostr: an optional minus sign followed by the digits. */
  function DecimalString(n: int): (s: string)
    ensures |s| >= 1
  {
    if n < 0 then "-" + NatDigits(-n) else NatDigits(n)
  }

  function DigitValue(c: char): nat
  {
    if '0' <= c <= '9' then c as int - '0' as int else 0
  }

  /** Value of the run of leading decimal digits, and its length (strtoll's digit scan). */
  function DigitRun(s: string, acc: nat): (r: (nat, nat))
    ensures r.1 <= |s|
    decreases |s|
  {
    if s != [] && '0' <= s[0] <= '9' then
      var d := DigitRun(s[1..], acc * 10 + DigitValue(s[0]));
      (d.0, d.1 + 1)
    else (acc, 0)
  }

  /** atoi64: optional sign, then leading digits; anything after them is ignored, no digits gives 0. */
  function Atoi64(s: string): (n: int)
  {
    if s != [] && s[0] == '-' then 0 - DigitRun(s[1..], 0).0
    else if s != [] && s[0] == '+' then DigitRun(s[1..], 0).0
    else DigitRun(s, 0).0
  }

  predicate AllDigits(s: string)
  {
    forall k :: 0 <= k < |s| ==> '0' <= s[k] <= '9'
  }

  /** Scanning a text made of digits only reads all of it. */
  lemma {:induction false} DigitRunAll(s: string, acc: nat)
    requires AllDigits(s)
    ensures DigitRun(s, acc).1 == |s|
    decreases |s|
  {
    if s != [] {
      DigitRunAll(s[1..], acc * 10 + DigitValue(s[0]));
    }
  }

  /** Appending one digit multiplies what was read so far by ten and adds the digit. */
  lemma {:induction false} DigitRunSnoc(s: string, c: char, acc: nat)
    requires AllDigits(s) && '0' <= c <= '9'
    ensures DigitRun(s + [c], acc).0 == DigitRun(s, acc).0 * 10 + DigitValue(c)
    decreases |s|
  {
    if s == [] {
      assert ([c])[1..] == [];
    } else {
      assert (s + [c])[1..] == s[1..] + [c];
      DigitRunSnoc(s[1..], c, acc * 10 + DigitValue(s[0]));
    }
  }

  /** The digits of n are read back as n. */
  lemma {:induction false} NatDigitsValue(n: nat)
    ensures DigitRun(NatDigits(n), 0).0 == n
    decreases n
  {
    if n < 10 {
      assert NatDigits(n)[1..] == [];
    } else {
      NatDigitsValue(n / 10);
      DigitRunSnoc(NatDigits(n / 10), DecDigit(n % 10), 0);
    }
  }

  /** atoi64 reads back what i64tostr wrote, for every integer. */
  lemma DecimalRoundTrip(n: int)
    ensures Atoi64(DecimalString(n)) == n
  {
    var m: nat := if n < 0 then -n else n;
    NatDigitsValue(m);
    if n < 0 {
      assert DecimalString(n)[1..] == NatDigits(m);
    } else {
      assert '0' <= NatDigits(m)[0] <= '9';
    }
  }

  /** Reading leading digits stops at the first character that is not a digit. */
  lemma {:induction false} DigitRunStops(digits: string, rest: string, acc: nat)
    requires AllDigits(digits)
    requires rest == [] || !('0' <= rest[0] <= '9')
    ensures DigitRun(digits + rest, acc) == DigitRun(digits, acc)
    decreases |digits|
  {
    if digits == [] {
      assert digits + rest == rest;
    } else {
      assert (digits + rest)[1..] == digits[1..] + rest;
      DigitRunStops(digits[1..], rest, acc * 10 + DigitValue(digits[0]));
    }
  }
}
