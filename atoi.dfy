/** The C library's `atoi`, as `str2bsport` uses it to read a process id:
    leading white space is skipped, one optional sign is read, then the
    longest run of decimal digits; anything else yields 0. Overflow, which
    is undefined behaviour in C, is not modelled: the value is unbounded. */
module CLib {

  /** `isspace` in the C locale. */
  predicate IsSpace(c: char) {
    c == ' ' || c == '\t' || c == '\n' || c == '\r' || c == '\U{0B}' || c == '\U{0C}'
  }

  predicate IsDigit(c: char) {
    '0' <= c <= '9'
  }

  predicate AllDigits(s: string) {
    forall i :: 0 <= i < |s| ==> IsDigit(s[i])
  }

  function DigitValue(c: char): (d: nat)
    requires IsDigit(c)
    ensures d < 10
  {
    c as int - '0' as int
  }

  function DigitChar(d: nat): (c: char)
    requires d < 10
    ensures IsDigit(c) && DigitValue(c) == d
  {
    ('0' as int + d) as char
  }

  /** Drops the leading white space. */
  function SkipSpace(s: string): (t: string)
    ensures |t| <= |s| && t == s[|s| - |t|..]
    ensures t == [] || !IsSpace(t[0])
    ensures forall i :: 0 <= i < |s| - |t| ==> IsSpace(s[i])
  {
    if s != [] && IsSpace(s[0]) then SkipSpace(s[1..]) else s
  }

  /** The longest prefix of `s` made of digits. */
  function DigitPrefix(s: string): (d: string)
    ensures d <= s && AllDigits(d)
    ensures |d| < |s| ==> !IsDigit(s[|d|])
  {
    if s != [] && IsDigit(s[0]) then [s[0]] + DigitPrefix(s[1..]) else []
  }

  /** The value of a run of digits, most significant first. It is zero
      exactly when every digit is `0`. */
  function DigitsValue(d: string): (v: nat)
    requires AllDigits(d)
    ensures v == 0 <==> forall i :: 0 <= i < |d| ==> d[i] == '0'
  {
    if d == [] then 0 else DigitsValue(d[..|d| - 1]) * 10 + DigitValue(d[|d| - 1])
  }

  /** `atoi(s)`: the number at the start of `s` after white space. Only a
      minus sign gives a negative number, and a string whose first
      non-space character is not a sign or a digit reads as 0. */
  function Atoi(s: string): (n: int)
    ensures n < 0 ==> SkipSpace(s) != [] && SkipSpace(s)[0] == '-'
    ensures var t := SkipSpace(s);
      t == [] || (t[0] != '-' && t[0] != '+' && !IsDigit(t[0])) ==> n == 0
  {
    var t := SkipSpace(s);
    if t != [] && t[0] == '-' then -(DigitsValue(DigitPrefix(t[1..])) as int)
    else if t != [] && t[0] == '+' then DigitsValue(DigitPrefix(t[1..]))
    else DigitsValue(DigitPrefix(t))
  }

  /** The decimal numeral of `n`, without leading zeros: what `%d` prints. */
  function Decimal(n: nat): (s: string)
    ensures s != [] && AllDigits(s)
    ensures n > 0 ==> s[0] != '0'
    ensures n == 0 ==> s == "0"
  {
    if n < 10 then [DigitChar(n)] else Decimal(n / 10) + [DigitChar(n % 10)]
  }

  /** A run of digits is its own digit prefix. */
  lemma DigitPrefixOfDigits(s: string)
    requires AllDigits(s)
    ensures DigitPrefix(s) == s
  {
  }

  lemma {:induction false} DigitsValueOfDecimal(n: nat)
    ensures DigitsValue(Decimal(n)) == n
  {
    if n >= 10 {
      DigitsValueOfDecimal(n / 10);
      var s := Decimal(n);
      assert s[..|s| - 1] == Decimal(n / 10);
    }
  }

  /** `atoi` reads back every numeral it could be given for a process id. */
  lemma AtoiDecimal(n: nat)
    ensures Atoi(Decimal(n)) == n
  {
    var s := Decimal(n);
    assert SkipSpace(s) == s;
    DigitPrefixOfDigits(s);
    DigitsValueOfDecimal(n);
  }

  /** A negative numeral reads back as the negative number. */
  lemma AtoiNegativeDecimal(n: nat)
    ensures Atoi("-" + Decimal(n)) == -(n as int)
  {
    var s := "-" + Decimal(n);
    assert SkipSpace(s) == s;
    assert s[1..] == Decimal(n);
    DigitPrefixOfDigits(Decimal(n));
    DigitsValueOfDecimal(n);
  }

  /** A token that does not start like a number reads as process id 0. */
  lemma AtoiNonNumeric(s: string)
    requires s != [] ==> !IsSpace(s[0]) && !IsDigit(s[0]) && s[0] != '-' && s[0] != '+'
    ensures Atoi(s) == 0
  {
  }
}
