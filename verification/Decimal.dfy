/**
 Base-10 rendering of integers, as Rust's `to_string` on `i64` produces it.
 Layer-1 fingerprints are compared as such strings.
 */
module Decimal {
  import opened Common

  function DigitChar(d: nat): char
    requires d < 10
  {
    "0123456789"[d]
  }

  function DigitValue(c: char): int { c as int - '0' as int }

  function NatToString(n: nat): (s: string)
    ensures s != [] && s[0] != '-'
  {
    if n < 10 then [DigitChar(n)] else NatToString(n / 10) + [DigitChar(n % 10)]
  }

  function Value(s: string): int {
    if s == [] then 0 else 10 * Value(s[..|s| - 1]) + DigitValue(s[|s| - 1])
  }

  lemma {:induction false} ValueOfNat(n: nat)
    ensures Value(NatToString(n)) == n
  {
    var s := NatToString(n);
    if n < 10 {
      assert s[..|s| - 1] == [];
    } else {
      ValueOfNat(n / 10);
      assert s[..|s| - 1] == NatToString(n / 10);
    }
  }

  function Pow10(k: nat): (p: nat)
    ensures p > 0
  {
    if k == 0 then 1 else 10 * Pow10(k - 1)
  }

  /** Digit by digit, the last one least significant, and no leading zero. */
  lemma {:induction false} NatDigits(n: nat, k: nat)
    requires k < |NatToString(n)|
    ensures var s := NatToString(n);
            && '0' <= s[|s| - 1 - k] <= '9' && s[|s| - 1 - k] as int == '0' as int + n / Pow10(k) % 10
            && (n > 0 ==> s[0] != '0')
  {
    var s := NatToString(n);
    if n >= 10 {
      var rest := NatToString(n / 10);
      assert s == rest + [DigitChar(n % 10)];
      NatDigits(n / 10, if k > 0 then k - 1 else 0);
      if k > 0 {
        assert s[|s| - 1 - k] == rest[|rest| - 1 - (k - 1)];
        DivTwice(n, 10, Pow10(k - 1));
      }
    }
  }

  function ToString(n: int): string {
    if n < 0 then "-" + NatToString(-n) else NatToString(n)
  }

  function Parse(s: string): int {
    if s != [] && s[0] == '-' then -Value(s[1..]) else Value(s)
  }

  lemma ParseToString(n: int)
    ensures Parse(ToString(n)) == n
  {
    hide NatToString, Value;
    if n < 0 {
      assert ToString(n)[1..] == NatToString(-n);
      ValueOfNat(-n);
    } else {
      ValueOfNat(n);
    }
  }

  /** Comparing fingerprints as strings is comparing checksums. */
  lemma SameStringIffSame(a: int, b: int)
    ensures ToString(a) == ToString(b) <==> a == b
  {
    ParseToString(a);
    ParseToString(b);
  }
}
