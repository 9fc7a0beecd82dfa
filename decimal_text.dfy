/** Decimal text of integers: `long.ToString()` and `long.TryParse`, in the invariant culture. */
module DecimalText {
  import opened Errors
  import opened Integers

  predicate IsDigit(c: char)
  {
    '0' <= c <= '9'
  }

  /** A non-empty run of decimal digits. */
  predicate IsDigits(s: string)
  {
    |s| > 0 && forall i :: 0 <= i < |s| ==> IsDigit(s[i])
  }

  function DigitChar(d: nat): (c: char)
    requires d < 10
    ensures IsDigit(c)
  {
    ('0' as int + d) as char
  }

  /** The value of a run of digits, most significant first; leading zeros are allowed. */
  function DigitsValue(s: string): nat
    requires forall i :: 0 <= i < |s| ==> IsDigit(s[i])
  {
    if s == [] then 0
    else
      assert IsDigit(s[|s| - 1]);
      DigitsValue(s[..|s| - 1]) * 10 + (s[|s| - 1] as int - '0' as int)
  }

  /** The shortest decimal digits of `n`. */
  function NatToDecimal(n: nat): (s: string)
    ensures IsDigits(s)
    ensures |s| > 1 ==> s[0] != '0'
  {
    if n < 10 then [DigitChar(n)] else NatToDecimal(n / 10) + [DigitChar(n % 10)]
  }

  /** `ToString()` of an integer: a minus sign for negative values, then the digits. */
  function ToDecimal(x: int): (s: string)
    ensures |s| > 0
    ensures forall i :: 0 <= i < |s| ==> IsDigit(s[i]) || (i == 0 && s[i] == '-')
  {
    if x < 0 then "-" + NatToDecimal(-x) else NatToDecimal(x)
  }

  /** `long.TryParse`: an optional sign and at least one digit, whose value fits in a `long`;
      `None` where the source's call returns false. */
  function ParseInt64(s: string): (r: Option<Int64>)
    ensures r.Some? ==> |s| > 0 && (IsDigit(s[0]) || s[0] == '-' || s[0] == '+')
    ensures r.Some? ==> forall i :: 1 <= i < |s| ==> IsDigit(s[i])
  {
    if |s| > 0 && (s[0] == '-' || s[0] == '+') then
      if !IsDigits(s[1..]) then None
      else
        var magnitude: int := DigitsValue(s[1..]);
        var v: int := if s[0] == '-' then -magnitude else magnitude;
        if -TWO_63 <= v < TWO_63 then Some(v) else None
    else if IsDigits(s) then
      var v := DigitsValue(s);
      if v < TWO_63 then Some(v) else None
    else None
  }

  lemma {:induction false} DigitsValueOfNatToDecimal(n: nat)
    ensures DigitsValue(NatToDecimal(n)) == n
    decreases n
  {
    if n >= 10 {
      var s := NatToDecimal(n);
      DigitsValueOfNatToDecimal(n / 10);
      assert s[..|s| - 1] == NatToDecimal(n / 10);
    }
  }

  /** Printing a `long` and parsing it back gives the same `long`. */
  lemma ParseOfToDecimal(x: Int64)
    ensures ParseInt64(ToDecimal(x)) == Some(x)
  {
    if x < 0 {
      DigitsValueOfNatToDecimal(-(x as int));
      assert ToDecimal(x)[1..] == NatToDecimal(-(x as int));
    } else {
      DigitsValueOfNatToDecimal(x);
    }
  }

  /** Decimal text never contains the policy-name separator. */
  lemma NoUnderscoreInDecimal(x: int)
    ensures '_' !in ToDecimal(x)
  {
    var s := ToDecimal(x);
    forall i | 0 <= i < |s| ensures s[i] != '_' {
      assert IsDigit(s[i]) || s[i] == '-';
    }
  }
}
