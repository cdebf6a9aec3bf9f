/** The text `name|decimal` that is digested to recognise a repeated request body. */
module Body {

  const SEPARATOR: char := '|'

  function Digit(d: nat): (r: char)
    requires d < 10
    ensures r != SEPARATOR && r != '-'
    ensures r as int - '0' as int == d
  {
    ('0' as int + d) as char
  }

  function Digits(n: nat): (r: string)
    ensures r != "" && SEPARATOR !in r && '-' !in r
  {
    if n < 10 then [Digit(n)] else Digits(n / 10) + [Digit(n % 10)]
  }

  /** What `%d` prints. */
  function Decimal(n: int): (r: string)
    ensures SEPARATOR !in r
  {
    if n < 0 then ['-'] + Digits(-n) else Digits(n)
  }

  function Encode(name: string, amount: int): (r: string) {
    name + [SEPARATOR] + Decimal(amount)
  }

  /** The number a string of digits denotes. */
  function ValueOf(s: string): int {
    if s == "" then 0 else 10 * ValueOf(s[..|s| - 1]) + (s[|s| - 1] as int - '0' as int)
  }

  lemma {:induction false} ValueOfDigits(n: nat)
    ensures ValueOf(Digits(n)) == n
  {
    if n < 10 {
      assert Digits(n)[..0] == "";
    } else {
      ValueOfDigits(n / 10);
      assert Digits(n)[..|Digits(n)| - 1] == Digits(n / 10);
    }
  }

  /** A decimal starts with a minus sign exactly when the number is negative. */
  lemma SignOfDecimal(a: int)
    ensures |Decimal(a)| > 0 && (Decimal(a)[0] == '-' <==> a < 0)
  {
    assert a >= 0 ==> Digits(a)[0] in Digits(a);
  }

  lemma DecimalInjective(a: int, b: int)
    requires Decimal(a) == Decimal(b)
    ensures a == b
  {
    SignOfDecimal(a);
    SignOfDecimal(b);
    if a < 0 {
      assert Decimal(a)[1..] == Digits(-a) && Decimal(b)[1..] == Digits(-b);
      ValueOfDigits(-a);
      ValueOfDigits(-b);
    } else {
      ValueOfDigits(a);
      ValueOfDigits(b);
    }
  }

  /** Nothing after the separator that precedes the decimal is a separator. */
  lemma LastSeparator(name: string, x: string, j: nat)
    requires SEPARATOR !in x
    requires j < |name + [SEPARATOR] + x| && (name + [SEPARATOR] + x)[j] == SEPARATOR
    ensures j <= |name|
  {
    assert forall i :: |name| < i < |name| + 1 + |x| ==> (name + [SEPARATOR] + x)[i] == x[i - |name| - 1];
  }

  /**
   * Equal encodings come from equal bodies, whatever characters the name holds
   * (even the separator) and whatever the sign of the amount.
   */
  lemma EncodeInjective(name: string, amount: int, name': string, amount': int)
    ensures Encode(name, amount) == Encode(name', amount') <==> name == name' && amount == amount'
  {
    if Encode(name, amount) == Encode(name', amount') {
      var e := Encode(name, amount);
      var e' := Encode(name', amount');
      assert e[|name|] == SEPARATOR && e'[|name'|] == SEPARATOR;
      LastSeparator(name, Decimal(amount), |name'|);
      LastSeparator(name', Decimal(amount'), |name|);
      assert e[..|name|] == name && e'[..|name'|] == name';
      assert e[|name| + 1..] == Decimal(amount) && e'[|name'| + 1..] == Decimal(amount');
      DecimalInjective(amount, amount');
    }
  }
}
