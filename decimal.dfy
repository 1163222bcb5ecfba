/**
 * Decimal text of integers: what Rust's `Debug` for `i32` and Python's `str`
 * of an `int` print (an optional `-`, then the digits without leading zeros),
 * with the reading back that shows no two integers print alike.
 */
module Decimal {
  import opened Wrappers

  predicate IsDigit(c: char) {
    '0' <= c <= '9'
  }

  predicate AllDigits(s: string) {
    forall k :: 0 <= k < |s| ==> IsDigit(s[k])
  }

  function DigitChar(d: nat): (c: char)
    requires d < 10
    ensures IsDigit(c) && (c as int) - ('0' as int) == d
  {
    (('0' as int) + d) as char
  }

  function DigitValue(c: char): nat
    requires IsDigit(c)
  {
    (c as int) - ('0' as int)
  }

  /** The decimal digits of `n`, most significant first, with no leading zero. */
  function Digits(n: nat): (s: string)
    ensures |s| >= 1 && AllDigits(s)
    ensures s[0] == '0' ==> n == 0
    decreases n
  {
    if n < 10 then [DigitChar(n)]
    else Digits(n / 10) + [DigitChar(n % 10)]
  }

  /** The decimal text of `i`. */
  function ShowInt(i: int): (s: string)
    ensures |s| >= 1
  {
    if i < 0 then "-" + Digits(-i) else Digits(i)
  }

  /** The value of a string of digits. */
  function ReadNat(s: string): nat
    requires AllDigits(s)
  {
    if |s| == 0 then 0
    else ReadNat(s[..|s| - 1]) * 10 + DigitValue(s[|s| - 1])
  }

  /** Reads the text `ShowInt` prints; `None` for anything else that is not a signed digit string. */
  function ReadInt(s: string): Option<int> {
    if |s| > 1 && s[0] == '-' && AllDigits(s[1..]) then Some(-(ReadNat(s[1..]) as int))
    else if |s| > 0 && AllDigits(s) then Some(ReadNat(s))
    else None
  }

  lemma {:induction false} ReadDigits(n: nat)
    ensures ReadNat(Digits(n)) == n
    decreases n
  {
    var s := Digits(n);
    if n >= 10 {
      ReadDigits(n / 10);
      assert s[..|s| - 1] == Digits(n / 10);
      assert DigitValue(s[|s| - 1]) == n % 10;
    }
  }

  /** `ShowInt` is undone by `ReadInt`, so distinct integers print differently. */
  lemma ReadShowInt(i: int)
    ensures ReadInt(ShowInt(i)) == Some(i)
  {
    var s := ShowInt(i);
    if i < 0 {
      assert s[1..] == Digits(-i);
      ReadDigits(-i);
    } else {
      ReadDigits(i);
    }
  }
}
