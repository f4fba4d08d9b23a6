/**
 * The decimal conversions of `java.lang.Long` that the token code relies on:
 * `Long.parseLong` (reading a user id out of the `sub` claim) and the decimal
 * spelling of a long, which is how a numeric user id becomes the `userId`
 * string a token is issued for (`UserPrincipal.getName()`, which is not part
 * of this model).
 */
module JavaLong {
  import opened Results

  const MinLong: int := -0x8000_0000_0000_0000
  const MaxLong: int := 0x7FFF_FFFF_FFFF_FFFF

  predicate IsDigit(c: char) { '0' <= c <= '9' }

  predicate AllDigits(s: string) { forall i :: 0 <= i < |s| ==> IsDigit(s[i]) }

  /** The value of a string of decimal digits, most significant first. */
  function DigitsValue(s: string): nat
    requires AllDigits(s)
  {
    if s == [] then 0 else DigitsValue(s[..|s| - 1]) * 10 + (s[|s| - 1] as int - '0' as int)
  }

  /**
   * `Long.parseLong(s)`: an optional `-` or `+`, then at least one digit, and a
   * value that fits in 64 bits. Anything else throws NumberFormatException,
   * written `None` here.
   */
  function ParseLong(s: string): (r: Option<int>)
    ensures r.Some? ==> MinLong <= r.value <= MaxLong
    ensures r.Some? ==> |s| > 0 && forall i :: 1 <= i < |s| ==> IsDigit(s[i])
    ensures r.Some? ==> IsDigit(s[0]) || ((s[0] == '-' || s[0] == '+') && |s| > 1)
    ensures r.Some? ==> (r.value < 0 <==> s[0] == '-' && r.value != 0)
  {
    if s == [] then None
    else
      var digits := if s[0] == '-' || s[0] == '+' then s[1..] else s;
      if digits == [] || !AllDigits(digits) then None
      else
        var magnitude: int := DigitsValue(digits);
        var v := if s[0] == '-' then -magnitude else magnitude;
        if MinLong <= v <= MaxLong then Some(v) else None
  }

  function DigitChar(d: nat): char
    requires d < 10
  {
    ('0' as int + d) as char
  }

  /** The shortest decimal spelling of a natural number. */
  function ShowNat(n: nat): string
  {
    if n < 10 then [DigitChar(n)] else ShowNat(n / 10) + [DigitChar(n % 10)]
  }

  /** The decimal spelling of a long (`Long.toString`): a minus sign for negative values, then the digits. */
  function ShowInt(n: int): string
  {
    if n < 0 then "-" + ShowNat(-n) else ShowNat(n)
  }

  lemma {:induction false} ShowNatDigits(n: nat)
    ensures ShowNat(n) != [] && AllDigits(ShowNat(n)) && DigitsValue(ShowNat(n)) == n
  {
    if n >= 10 {
      ShowNatDigits(n / 10);
      var s := ShowNat(n / 10);
      var t := s + [DigitChar(n % 10)];
      assert t[..|t| - 1] == s;
    }
  }

  /** Parsing the decimal spelling (`ShowInt`) gives back the number, for every 64-bit value. */
  lemma {:induction false} ParseShowInt(n: int)
    requires MinLong <= n <= MaxLong
    ensures ParseLong(ShowInt(n)) == Some(n)
  {
    if n < 0 {
      ShowNatDigits(-n);
      var s := ShowInt(n);
      assert s[0] == '-' && s[1..] == ShowNat(-n);
    } else {
      ShowNatDigits(n);
      assert IsDigit(ShowInt(n)[0]);
    }
  }
}
