/**
 * Text as the firmware handles it: a `&str` or `heapless::String` is modelled
 * by its UTF-8 bytes. Also the decimal rendering done by the `itoa` crate and
 * the fallible append of `heapless::String::push_str`.
 */
module Text {
  import opened Wrappers

  predicate IsDigit(c: bv8)
  {
    0x30 <= c <= 0x39
  }

  function Digit(d: nat): (c: bv8)
    requires d < 10
    ensures IsDigit(c)
  {
    (0x30 + d) as bv8
  }

  function DigitValue(c: bv8): int
  {
    c as int - 0x30
  }

  lemma DigitRoundTrip(d: nat)
    requires d < 10
    ensures DigitValue(Digit(d)) == d
  {
  }

  /** The number a string of decimal digits denotes (most significant first). */
  function Value(s: seq<bv8>): int
    decreases |s|
  {
    if s == [] then 0 else Value(s[..|s| - 1]) * 10 + DigitValue(s[|s| - 1])
  }

  /**
   * What `itoa::Buffer::format` produces for an unsigned integer: decimal
   * digits only, no sign, and no leading zero except for 0 itself.
   */
  function Decimal(n: nat): (r: seq<bv8>)
    ensures 1 <= |r|
    ensures forall i :: 0 <= i < |r| ==> IsDigit(r[i])
    ensures r[0] == Digit(0) ==> n == 0 && |r| == 1
    decreases n
  {
    if n < 10 then [Digit(n)] else Decimal(n / 10) + [Digit(n % 10)]
  }

  /** Rendering loses nothing: reading the digits back gives the number. */
  lemma {:induction false} ValueOfDecimal(n: nat)
    ensures Value(Decimal(n)) == n
    decreases n
  {
    if n < 10 {
      DigitRoundTrip(n);
      assert Decimal(n)[..0] == [];
    } else {
      ValueOfDecimal(n / 10);
      DigitRoundTrip(n % 10);
      var r := Decimal(n);
      assert r[..|r| - 1] == Decimal(n / 10);
    }
  }

  function Pow10(k: nat): (p: nat)
    ensures p >= 1
  {
    if k == 0 then 1 else 10 * Pow10(k - 1)
  }

  /** A number below 10^k takes at most k digits. */
  lemma {:induction false} DecimalWidth(n: nat, k: nat)
    requires 1 <= k && n < Pow10(k)
    ensures |Decimal(n)| <= k
    decreases k
  {
    if n >= 10 {
      assert n / 10 < Pow10(k - 1);
      DecimalWidth(n / 10, k - 1);
    }
  }

  /** `u8` values take at most 3 digits, `u16` values at most 5. */
  lemma DecimalWidthOfIntegers(n: nat)
    ensures n < 0x100 ==> |Decimal(n)| <= 3
    ensures n < 0x1_0000 ==> |Decimal(n)| <= 5
  {
    assert Pow10(3) == 1000 && Pow10(5) == 100000;
    if n < 0x100 { DecimalWidth(n, 3); }
    if n < 0x1_0000 { DecimalWidth(n, 5); }
  }

  /**
   * `heapless::String::<N>::push_str`: appends when the result fits the
   * capacity, and otherwise fails leaving the string unchanged.
   */
  function PushStr(buf: seq<bv8>, capacity: nat, s: seq<bv8>): (r: Option<seq<bv8>>)
    ensures r.Some? <==> |buf| + |s| <= capacity
    ensures r.Some? ==> r.value == buf + s
  {
    if |buf| + |s| <= capacity then Some(buf + s) else None
  }
}
