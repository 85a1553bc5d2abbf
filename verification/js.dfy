/** Values of the JavaScript runtime that the modelled code inspects: optional values,
    thrown errors with their `name`, `code` and `message`, the outcome of an awaited
    call, numbers that may be NaN, and the few string operations the code relies on. */
module Js {

  datatype Option<+T> = None | Some(value: T)

  datatype Result<+T, +E> = Success(value: T) | Failure(error: E)

  /** The `code` property of a thrown error: absent, a number (4001, 4902) or a
      string ('INSUFFICIENT_FUNDS', 'ECONNABORTED'). JavaScript's `===` never
      equates a number with a string, and neither does this datatype. */
  datatype ErrorCode = NoCode | NumCode(n: int) | StrCode(s: string)

  /** A thrown value with the properties the code reads. An empty message stands
      for a missing or empty one: both are falsy. */
  datatype JsError = JsError(name: string, code: ErrorCode, message: string)

  /** The outcome of an awaited call into the wallet, the network or a library:
      the promise resolves with a value or rejects with an error. */
  datatype Reply<+T> = Ok(value: T) | Rejected(error: JsError)

  /** A JavaScript number restricted to the values the code produces: an integer,
      or NaN (what `parseInt` returns when no digit can be read). */
  datatype JsInt = Int(value: int) | NaN

  /** A plain `Error` thrown by the code itself. */
  function Thrown(message: string): JsError
  {
    JsError("Error", NoCode, message)
  }

  /** `s || fallback` for a string `s`: the empty string is falsy. */
  function OrElse(s: string, fallback: string): (r: string)
    ensures s != "" ==> r == s
    ensures s == "" ==> r == fallback
  {
    if s != "" then s else fallback
  }

  /** `s.includes(sub)`. */
  predicate Contains(s: string, sub: string)
    decreases |s|
  {
    sub <= s || (s != [] && Contains(s[1..], sub))
  }

  /** `sub` occurs in `s` at index `i`. */
  predicate OccursAt(s: string, sub: string, i: int)
  {
    0 <= i && i + |sub| <= |s| && s[i..i + |sub|] == sub
  }

  /** `includes` holds exactly when the text occurs at some index. */
  lemma {:induction false} ContainsIffOccurs(s: string, sub: string)
    ensures Contains(s, sub) <==> exists i :: OccursAt(s, sub, i)
    decreases |s|
  {
    assert OccursAt(s, sub, 0) <==> sub <= s;
    if s != [] {
      ContainsIffOccurs(s[1..], sub);
      forall i | 0 <= i
        ensures OccursAt(s, sub, i + 1) <==> OccursAt(s[1..], sub, i)
      {
        if i + 1 + |sub| <= |s| {
          var t, u := s[1..][i..i + |sub|], s[i + 1..i + 1 + |sub|];
          assert forall k :: 0 <= k < |sub| ==> t[k] == u[k];
          assert t == u;
        }
      }
      if exists i :: OccursAt(s, sub, i) {
        var i :| OccursAt(s, sub, i);
        if i > 0 {
          assert OccursAt(s[1..], sub, i - 1);
        }
      }
    }
  }

  predicate IsDigitString(s: string)
  {
    forall k :: 0 <= k < |s| ==> '0' <= s[k] <= '9'
  }

  function DecimalDigit(d: int): (c: char)
    requires 0 <= d < 10
    ensures '0' <= c <= '9' && c as int - '0' as int == d
  {
    "0123456789"[d]
  }

  /** The decimal text of a natural number, as a template literal prints it. */
  function DecimalNat(n: nat): (s: string)
    ensures |s| >= 1 && IsDigitString(s)
    ensures |s| > 1 ==> s[0] != '0'
  {
    if n < 10 then [DecimalDigit(n)] else DecimalNat(n / 10) + [DecimalDigit(n % 10)]
  }

  /** `${n}` for an integer `n`. */
  function Decimal(n: int): (s: string)
    ensures |s| >= 1
    ensures n >= 0 ==> IsDigitString(s)
    ensures n < 0 ==> s[0] == '-' && IsDigitString(s[1..])
    ensures n >= 0 ==> s == DecimalNat(n)
    ensures n < 0 ==> s == "-" + DecimalNat(-n)
  {
    if n < 0 then "-" + DecimalNat(-n) else DecimalNat(n)
  }

  /** The number a string of decimal digits denotes, most significant digit first. */
  function DecimalValue(s: string): (v: nat)
    requires IsDigitString(s)
  {
    if s == [] then 0 else DecimalValue(s[..|s| - 1]) * 10 + (s[|s| - 1] as int - '0' as int)
  }

  /** The decimal text of a natural number reads back as that number. */
  lemma {:induction false} DecimalOfDecimalNat(n: nat)
    ensures DecimalValue(DecimalNat(n)) == n
  {
    var s := DecimalNat(n);
    if n >= 10 {
      DecimalOfDecimalNat(n / 10);
      assert s[..|s| - 1] == DecimalNat(n / 10);
    }
  }

  /** The text of an integer: its digits read back as its magnitude, after a '-'
      exactly when it is negative. */
  lemma DecimalReadsBack(n: int)
    ensures n >= 0 ==> DecimalValue(Decimal(n)) == n
    ensures n < 0 ==> Decimal(n)[0] == '-' && DecimalValue(Decimal(n)[1..]) == -n
  {
    if n < 0 {
      DecimalOfDecimalNat(-n);
      assert Decimal(n)[1..] == DecimalNat(-n);
    } else {
      DecimalOfDecimalNat(n);
    }
  }
}
