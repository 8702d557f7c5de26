/** Swift's `Int(String)` as the lossy `Season`/`Episode` fields use it: an
    optional sign followed by decimal digits, whose value must fit a 64-bit
    `Int`; anything else is `nil`. */
module IntParse {
  import opened Results

  const IntMin: int := -0x8000_0000_0000_0000
  const IntMax: int := 0x7fff_ffff_ffff_ffff

  predicate IsDigit(c: char)
  {
    '0' <= c <= '9'
  }

  predicate AllDigits(s: string)
  {
    forall i :: 0 <= i < |s| ==> IsDigit(s[i])
  }

  /** The value of a run of decimal digits, most significant first. */
  function DigitsValue(digits: string): nat
    requires AllDigits(digits)
    decreases |digits|
  {
    if digits == [] then 0
    else DigitsValue(digits[..|digits| - 1]) * 10 + (digits[|digits| - 1] as int - '0' as int)
  }

  /** `Int(text)`. */
  function ParseInt(text: string): (n: Option<int>)
    ensures n.Some? ==> IntMin <= n.value <= IntMax
  {
    if text == [] then None
    else
      var digits := if text[0] == '+' || text[0] == '-' then text[1..] else text;
      if digits == [] || !AllDigits(digits) then None
      else
        var magnitude: int := DigitsValue(digits);
        var value := if text[0] == '-' then -magnitude else magnitude;
        if IntMin <= value <= IntMax then Some(value) else None
  }

  function Digit(d: nat): (c: char)
    requires d < 10
    ensures IsDigit(c) && c as int - '0' as int == d
  {
    (d + '0' as int) as char
  }

  /** The decimal digits of `n`, without leading zeros. */
  function NatDigits(n: nat): (digits: string)
    ensures digits != [] && AllDigits(digits)
    ensures DigitsValue(digits) == n
    decreases n
  {
    if n < 10 then [Digit(n)]
    else
      var prefix := NatDigits(n / 10);
      var digits := prefix + [Digit(n % 10)];
      assert digits[..|digits| - 1] == prefix;
      digits
  }

  /** `String(n)`: the decimal text of `n`, with a leading '-' when negative. */
  function IntText(n: int): string
  {
    if n < 0 then "-" + NatDigits(-n) else NatDigits(n)
  }

  /** Every 64-bit value reads back from its own decimal text. */
  lemma ParseIntText(n: int)
    requires IntMin <= n <= IntMax
    ensures ParseInt(IntText(n)) == Some(n)
  {
    var text := IntText(n);
    if n < 0 {
      assert text[1..] == NatDigits(-n);
    } else {
      assert IsDigit(text[0]);
    }
  }

  /** The text of a value outside the 64-bit range does not parse: overflow is `nil`. */
  lemma ParseIntTextOverflow(n: int)
    requires n < IntMin || IntMax < n
    ensures ParseInt(IntText(n)) == None
  {
    var text := IntText(n);
    if n < 0 {
      assert text[1..] == NatDigits(-n);
    } else {
      assert IsDigit(text[0]);
    }
  }

  /** A character that is neither a digit nor a leading sign makes the parse fail. */
  lemma ParseIntRejects(text: string, i: nat)
    requires i < |text| && !IsDigit(text[i])
    requires i == 0 ==> text[0] != '+' && text[0] != '-'
    ensures ParseInt(text) == None
  {
    if text[0] == '+' || text[0] == '-' {
      assert text[1..][i - 1] == text[i];
    }
  }

  /** The parse results the fixtures' lossy integer fields meet in practice. */
  lemma ParseIntExamples()
    ensures ParseInt("7") == Some(7)
    ensures ParseInt("-12") == Some(-12)
    ensures ParseInt("+3") == Some(3)
    ensures ParseInt("") == None
    ensures ParseInt("abc") == None
    ensures ParseInt("7a") == None
    ensures ParseInt("-") == None
  {
    assert "-12"[1..] == "12" && "12"[..1] == "1";
    assert "+3"[1..] == "3";
    ParseIntRejects("abc", 0);
    ParseIntRejects("7a", 1);
    assert "-"[1..] == [];
  }
}
