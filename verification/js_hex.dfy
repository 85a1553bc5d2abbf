/** Base-16 text as JavaScript writes and reads it: `n.toString(16)` on a number or
    a BigInt (lower-case digits, no prefix, a leading '-' for negatives) and
    `parseInt(s, 16)` (optional sign, optional "0x"/"0X", then the longest run of
    hex digits; NaN when that run is empty). The compatibility layer uses the first
    to encode a transaction value and the second to decode `eth_chainId`; the
    fallback MAC address uses the first to print each group. */
module JsHex {
  import opened Js

  predicate IsHexDigit(c: char)
  {
    ('0' <= c <= '9') || ('a' <= c <= 'f') || ('A' <= c <= 'F')
  }

  predicate IsLowerHexDigit(c: char)
  {
    ('0' <= c <= '9') || ('a' <= c <= 'f')
  }

  predicate AllHex(s: string)
  {
    forall k :: 0 <= k < |s| ==> IsHexDigit(s[k])
  }

  function DigitValue(c: char): (d: int)
    requires IsHexDigit(c)
    ensures 0 <= d < 16
  {
    if '0' <= c <= '9' then c as int - '0' as int
    else if 'a' <= c <= 'f' then c as int - 'a' as int + 10
    else c as int - 'A' as int + 10
  }

  /** The lower-case digit for a value below 16. */
  function HexChar(d: int): (c: char)
    requires 0 <= d < 16
    ensures IsLowerHexDigit(c) && IsHexDigit(c) && DigitValue(c) == d
  {
    "0123456789abcdef"[d]
  }

  /** `n.toString(16)` for n >= 0: no leading zero unless n is 0. */
  function ToString16Nat(n: nat): (s: string)
    ensures |s| >= 1 && AllHex(s)
    ensures forall k :: 0 <= k < |s| ==> IsLowerHexDigit(s[k])
    ensures |s| > 1 ==> s[0] != '0'
  {
    if n < 16 then [HexChar(n)] else ToString16Nat(n / 16) + [HexChar(n % 16)]
  }

  /** `n.toString(16)` for any integer `n`. */
  function ToString16(n: int): (s: string)
    ensures n >= 0 ==> s == ToString16Nat(n)
    ensures n < 0 ==> s == "-" + ToString16Nat(-n)
  {
    if n < 0 then "-" + ToString16Nat(-n) else ToString16Nat(n)
  }

  /** The value of a run of hex digits, most significant first. */
  function DigitsValue(s: string): (v: nat)
    requires AllHex(s)
  {
    if s == [] then 0 else DigitsValue(s[..|s| - 1]) * 16 + DigitValue(s[|s| - 1])
  }

  /** The longest prefix of `s` made of hex digits. */
  function HexRun(s: string): (r: string)
    ensures r <= s && AllHex(r)
    ensures |r| < |s| ==> !IsHexDigit(s[|r|])
  {
    if s == [] || !IsHexDigit(s[0]) then [] else [s[0]] + HexRun(s[1..])
  }

  /** `parseInt(s, 16)`, leading white space aside. */
  function ParseInt16(s: string): (r: JsInt)
  {
    var negative := |s| > 0 && s[0] == '-';
    var unsigned := if |s| > 0 && (s[0] == '-' || s[0] == '+') then s[1..] else s;
    var body := if |unsigned| >= 2 && unsigned[0] == '0' && (unsigned[1] == 'x' || unsigned[1] == 'X')
                then unsigned[2..] else unsigned;
    var digits := HexRun(body);
    var magnitude: int := if digits == [] then 0 else DigitsValue(digits);
    if digits == [] then NaN
    else Int(if negative then -magnitude else magnitude)
  }

  lemma {:induction false} DigitsOfToString16(n: nat)
    ensures DigitsValue(ToString16Nat(n)) == n
  {
    var s := ToString16Nat(n);
    if n >= 16 {
      DigitsOfToString16(n / 16);
      assert s[..|s| - 1] == ToString16Nat(n / 16);
    }
  }

  lemma {:induction false} HexRunOfAllHex(s: string)
    requires AllHex(s)
    ensures HexRun(s) == s
    decreases |s|
  {
    if s != [] {
      HexRunOfAllHex(s[1..]);
    }
  }

  /** An unsigned run of digits with no "0x" in front reads back as its value. */
  lemma ParseDigits(n: nat)
    ensures ParseInt16(ToString16Nat(n)) == Int(n)
  {
    var digits := ToString16Nat(n);
    HexRunOfAllHex(digits);
    DigitsOfToString16(n);
    assert digits[0] != '-' && digits[0] != '+';
    if |digits| >= 2 {
      assert digits[0] != '0';
    }
  }

  /** parseInt reads back what toString(16) wrote, for every integer. */
  lemma ParseToString16(n: int)
    ensures ParseInt16(ToString16(n)) == Int(n)
  {
    if n >= 0 {
      ParseDigits(n);
    } else {
      var digits := ToString16Nat(-n);
      var s := "-" + digits;
      assert s[0] == '-' && s[1..] == digits;
      HexRunOfAllHex(digits);
      DigitsOfToString16(-n);
      if |digits| >= 2 {
        assert digits[0] != '0';
      }
    }
  }

  /** With a "0x" prefix, a non-negative value reads back unchanged; a negative one
      gives "0x-…", where parseInt finds no digit after the prefix. */
  lemma ParsePrefixedToString16(n: int)
    ensures ParseInt16("0x" + ToString16(n)) == if n >= 0 then Int(n) else NaN
  {
    var s := "0x" + ToString16(n);
    assert s[0] == '0' && s[1] == 'x' && s[2..] == ToString16(n);
    if n >= 0 {
      var digits := ToString16Nat(n);
      HexRunOfAllHex(digits);
      DigitsOfToString16(n);
    } else {
      assert ToString16(n)[0] == '-';
    }
  }
}
