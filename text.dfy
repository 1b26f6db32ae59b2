/** Character classes and number text used by the form validator and the dashboard. */
module Text {

  predicate IsDigit(c: char) { '0' <= c <= '9' }

  predicate IsLetter(c: char) { 'a' <= c <= 'z' || 'A' <= c <= 'Z' }

  /** arktype's `string.digits`: decimal digits only (the empty string included). */
  predicate AllDigits(s: string)
  {
    forall i :: 0 <= i < |s| ==> IsDigit(s[i])
  }

  /** arktype's `string.alphanumeric`: ASCII letters and digits only (the empty string included). */
  predicate IsAlphanumeric(s: string)
  {
    forall i :: 0 <= i < |s| ==> IsDigit(s[i]) || IsLetter(s[i])
  }

  /** An unsigned decimal: digits with at most one inner decimal point. */
  predicate IsUnsignedDecimal(s: string)
  {
    && |s| > 0
    && IsDigit(s[0])
    && IsDigit(s[|s| - 1])
    && (forall i :: 0 <= i < |s| ==> IsDigit(s[i]) || s[i] == '.')
    && (forall i, j :: 0 <= i < j < |s| && s[i] == '.' ==> s[j] != '.')
  }

  /** arktype's `string.numeric`, as a character-class approximation: an optional minus sign and an unsigned decimal. */
  predicate IsNumeric(s: string)
  {
    if |s| > 0 && s[0] == '-' then IsUnsignedDecimal(s[1..]) else IsUnsignedDecimal(s)
  }

  /** arktype's `string.email`, approximated: exactly one '@', neither first nor last. */
  predicate IsEmail(s: string)
  {
    exists i :: 0 < i < |s| - 1 && s[i] == '@' && '@' !in s[..i] && '@' !in s[i + 1..]
  }

  /** A non-empty digit string is numeric. */
  lemma DigitsAreNumeric(s: string)
    requires AllDigits(s) && |s| > 0
    ensures IsNumeric(s)
  {
    assert s[0] != '-';
  }

  function DigitChar(d: nat): (c: char)
    requires d < 10
    ensures IsDigit(c) && (c as int) - ('0' as int) == d
  {
    ('0' as int + d) as char
  }

  /** The value of a decimal digit string, as JavaScript's `Number(s)` gives it (the empty string is 0). */
  function DigitsValue(s: string): nat
    requires AllDigits(s)
  {
    if s == [] then 0
    else 10 * DigitsValue(s[..|s| - 1]) + ((s[|s| - 1] as int) - ('0' as int))
  }

  /** The canonical decimal text of a natural number (no leading zeros). */
  function NatToString(n: nat): (s: string)
    ensures |s| > 0 && AllDigits(s)
    ensures s[0] == '0' ==> n == 0
  {
    if n < 10 then [DigitChar(n)] else NatToString(n / 10) + [DigitChar(n % 10)]
  }

  /** The decimal text of an integer, as a JavaScript template literal renders an integral number. */
  function IntToString(n: int): (s: string)
    ensures |s| > 0
    ensures n >= 0 ==> AllDigits(s)
    ensures n < 0 ==> s[0] == '-' && AllDigits(s[1..])
  {
    if n < 0 then "-" + NatToString(-n) else NatToString(n)
  }

  /** Reading back the canonical text of `n` gives `n`. */
  lemma {:induction false} DigitsValueOfNatToString(n: nat)
    ensures DigitsValue(NatToString(n)) == n
  {
    var s := NatToString(n);
    if n >= 10 {
      DigitsValueOfNatToString(n / 10);
      assert s[..|s| - 1] == NatToString(n / 10);
    }
  }

  /** The text of an integer spells its value: the digits alone for a non-negative
      number, a minus sign followed by the digits of its magnitude otherwise. */
  lemma IntToStringValue(n: int)
    ensures n >= 0 ==> DigitsValue(IntToString(n)) == n
    ensures n < 0 ==> AllDigits(IntToString(n)[1..]) && DigitsValue(IntToString(n)[1..]) == -n
  {
    if n >= 0 {
      DigitsValueOfNatToString(n);
    } else {
      assert IntToString(n)[1..] == NatToString(-n);
      DigitsValueOfNatToString(-n);
    }
  }

  /** A digit string without a leading zero is the canonical text of its own value. */
  lemma {:induction false} NatToStringOfDigitsValue(s: string)
    requires AllDigits(s) && |s| > 0
    requires s[0] != '0' || |s| == 1
    ensures NatToString(DigitsValue(s)) == s
  {
    var init := s[..|s| - 1];
    var d := (s[|s| - 1] as int) - ('0' as int);
    if |s| == 1 {
      assert DigitsValue(s) == d;
      assert [DigitChar(d)] == s;
    } else {
      assert init[0] == s[0];
      NatToStringOfDigitsValue(init);
      var v := DigitsValue(init);
      assert NatToString(0) == "0";
      assert v != 0;
      assert DigitsValue(s) == 10 * v + d;
      assert (10 * v + d) / 10 == v && (10 * v + d) % 10 == d;
      assert init + [DigitChar(d)] == s;
    }
  }

  /** JavaScript's `Array.prototype.join`: the items separated by `sep`. */
  function Join(items: seq<string>, sep: string): string
  {
    if |items| == 0 then ""
    else if |items| == 1 then items[0]
    else items[0] + sep + Join(items[1..], sep)
  }

  /** A joined text ends with its last item. */
  lemma {:induction false} JoinEndsWithLast(items: seq<string>, sep: string)
    requires |items| > 0
    ensures var j := Join(items, sep); var last := items[|items| - 1];
      |last| <= |j| && j[|j| - |last|..] == last
  {
    if |items| > 1 {
      JoinEndsWithLast(items[1..], sep);
      var rest := Join(items[1..], sep);
      var last := items[|items| - 1];
      var front := items[0] + sep;
      assert Join(items, sep) == front + rest;
      assert (front + rest)[|front + rest| - |last|..] == rest[|rest| - |last|..];
    }
  }
}
