/** Decimal numbers: the text of a number, and the parsers that read one back. */
module Numbers {
  import opened Types

  const INT64_MAX: int := 0x7fff_ffff_ffff_ffff
  const INT64_MIN: int := -0x8000_0000_0000_0000

  /** `std::to_string` of a number that is not negative. */
  function Text(n: nat): (s: string)
    ensures Digits(s)
  {
    var digit := ['0' + (n % 10) as char];
    if n < 10 then digit else Text(n / 10) + digit
  }

  function SignedText(n: int): string {
    if n < 0 then "-" + Text(-n) else Text(n)
  }

  lemma {:induction false} TextIsDecimal(n: nat)
    ensures Decimal(Text(n)) == n
  {
    var s := Text(n);
    var digit := ['0' + (n % 10) as char];
    if n < 10 {
      assert s == digit && s[..0] == "";
    } else {
      TextIsDecimal(n / 10);
      assert s[..|s| - 1] == Text(n / 10) && s[|s| - 1] == digit[0];
    }
  }

  /** A number below ten to the `n` has at most `n` digits. */
  lemma {:induction false} TextIsShort(n: nat, size: nat)
    requires 1 <= size && n < Power(size)
    ensures 1 <= |Text(n)| <= size
  {
    if n >= 10 {
      assert size > 1;
      TextIsShort(n / 10, size - 1);
    }
  }

  function Power(n: nat): nat {
    if n == 0 then 1 else 10 * Power(n - 1)
  }

  lemma {:induction false} DecimalGrows(s: string, i: nat)
    requires i <= |s|
    ensures Decimal(s[..i]) <= Decimal(s)
  {
    if i < |s| {
      DecimalGrows(s[..|s| - 1], i);
      assert s[..|s| - 1][..i] == s[..i];
    } else {
      assert s[..i] == s;
    }
  }

  /** The strings `ParseNumber` reads: an optional minus sign and digits. */
  predicate Numeral(s: string) {
    if s != "" && s[0] == '-' then Digits(s[1..]) else Digits(s)
  }

  /** The number such a string denotes. */
  function Value(s: string): int {
    if s != "" && s[0] == '-' then 0 - Decimal(s[1..]) else Decimal(s)
  }

  /** The numbers of 64-bit integers, and nothing else, are read. */
  function Parsed(s: string): Option<int> {
    if Numeral(s) && INT64_MIN <= Value(s) <= INT64_MAX then Some(Value(s)) else None
  }

  lemma DecimalStep(s: string, i: nat)
    requires i < |s| && Digit(s[i])
    ensures Decimal(s[..i + 1]) == 10 * Decimal(s[..i]) + (s[i] - '0') as nat
  {
    var t := s[..i + 1];
    assert t[..|t| - 1] == s[..i] && t[|t| - 1] == s[i];
  }

  /** `ParseNumber`, whose intermediate values all fit 64 bits. */
  method ParseNumber(value: string) returns (r: Option<int>)
    ensures r == Parsed(value)
  {
    if value == "" { return None; }
    var negative := value[0] == '-';
    var start := if negative then 1 else 0;
    if start == |value| { return None; }
    ghost var digits := value[start..];
    assert digits == value[1..] || digits == value;
    var maximum := if negative then INT64_MAX + 1 else INT64_MAX;
    var number: int := 0;
    var pos := start;
    assert digits[..0] == "";
    while pos < |value|
      invariant start <= pos <= |value|
      invariant forall i :: 0 <= i < pos - start ==> Digit(digits[i])
      invariant number == Decimal(digits[..pos - start]) && 0 <= number <= maximum
    {
      var c := value[pos];
      assert c == digits[pos - start];
      if c < '0' || c > '9' {
        assert !Digit(digits[pos - start]);
        return None;
      }
      var digit := (c - '0') as int;
      DecimalStep(digits, pos - start);
      if number > (maximum - digit) / 10 {
        DecimalGrows(digits, pos - start + 1);
        assert Decimal(digits) > maximum;
        return None;
      }
      number := number * 10 + digit;
      pos := pos + 1;
    }
    assert digits[..pos - start] == digits;
    assert Digits(digits);
    return Some(if negative then (if number == maximum then INT64_MIN else -number) else number);
  }

  /** What `std::to_string` writes is read back, for every 64-bit number. */
  lemma ParsedText(n: int)
    requires INT64_MIN <= n <= INT64_MAX
    ensures Parsed(SignedText(n)) == Some(n)
  {
    var s := SignedText(n);
    if n < 0 {
      TextIsDecimal(-n);
      assert s[1..] == Text(-n);
    } else {
      TextIsDecimal(n);
      assert s[0] != '-' by { assert Digit(s[0]); }
    }
  }

  /** `Integer`: digits only, within bounds. */
  function Integer(s: string, minimum: int, maximum: int): Result<int> {
    var _ :- Need(s != "" && |s| <= 20 && Digits(s), EINVAL);
    var _ :- Need(minimum <= Decimal(s) <= maximum && Decimal(s) <= INT64_MAX, EINVAL);
    Ok(Decimal(s))
  }

  /** Two numbers with the same text are the same. */
  lemma TextIsInjective(a: nat, b: nat)
    requires Text(a) == Text(b)
    ensures a == b
  {
    TextIsDecimal(a);
    TextIsDecimal(b);
  }
}
