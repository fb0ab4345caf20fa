/**
 * Phone-number normalisation of `CollectionsAPI._format_phone_number`:
 * keep only the decimal digits, then make sure the number carries the
 * Ugandan country code 256, replacing one local leading zero by it.
 */
module Phone {
  import opened Strings

  /** The international dialling prefix every normalised number starts with. */
  const CountryCode: string := "256"

  /** The decimal digits of `s` in their original order: `s` with every character outside 0-9 deleted. */
  function Digits(s: string): (d: string)
    ensures AllDigits(d)
    ensures |d| <= |s|
  {
    if s == [] then []
    else if IsDigit(s[0]) then [s[0]] + Digits(s[1..])
    else Digits(s[1..])
  }

  /** The number in the form the remote API expects: only digits, and the prefix 256. */
  function FormatPhoneNumber(phone: string): (r: string)
    ensures AllDigits(r)
    ensures HasPrefix(r, CountryCode)
  {
    var d := Digits(phone);
    if HasPrefix(d, CountryCode) then d
    else if HasPrefix(d, "0") then CountryCode + d[1..]
    else CountryCode + d
  }

  /** A string that is already all digits is left as it is by the digit filter. */
  lemma {:induction false} DigitsOfDigits(s: string)
    requires AllDigits(s)
    ensures Digits(s) == s
  {
    if s != [] {
      DigitsOfDigits(s[1..]);
      assert [s[0]] + s[1..] == s;
    }
  }

  /** The digit filter works piece by piece: it keeps the order of the digits and loses none. */
  lemma {:induction false} DigitsAppend(a: string, b: string)
    ensures Digits(a + b) == Digits(a) + Digits(b)
  {
    if a == [] {
      assert a + b == b;
    } else {
      assert (a + b)[0] == a[0];
      assert (a + b)[1..] == a[1..] + b;
      DigitsAppend(a[1..], b);
    }
  }

  /** Each digit occurs in the filtered string exactly as often as in the input; nothing else occurs. */
  lemma {:induction false} DigitsCount(s: string)
    ensures forall c :: multiset(Digits(s))[c] == if IsDigit(c) then multiset(s)[c] else 0
  {
    if s != [] {
      DigitsCount(s[1..]);
      assert s == [s[0]] + s[1..];
      assert multiset(s) == multiset([s[0]]) + multiset(s[1..]);
    }
  }

  /** Normalising twice gives the same number as normalising once. */
  lemma FormatPhoneNumberIdempotent(phone: string)
    ensures FormatPhoneNumber(FormatPhoneNumber(phone)) == FormatPhoneNumber(phone)
  {
    var r := FormatPhoneNumber(phone);
    DigitsOfDigits(r);
  }

  /** A digit string that already starts with 256 is returned unchanged. */
  lemma FormatPhoneNumberKeepsInternational(phone: string)
    requires AllDigits(phone) && HasPrefix(phone, CountryCode)
    ensures FormatPhoneNumber(phone) == phone
  {
    DigitsOfDigits(phone);
  }

  /**
   * With `d` the digits of the input: the result is `d` when `d` starts
   * with 256; otherwise 256 followed by `d` without its first character when
   * `d` starts with 0 (so exactly one leading zero is dropped); otherwise 256
   * followed by all of `d`.
   */
  lemma FormatPhoneNumberCases(phone: string)
    ensures var d, r := Digits(phone), FormatPhoneNumber(phone);
      && (HasPrefix(d, "256") ==> r == d)
      && (HasPrefix(d, "0") ==> r == "256" + d[1..] && |r| == |d| + 2)
      && (!HasPrefix(d, "256") && !HasPrefix(d, "0") ==> r == "256" + d && |r| == |d| + 3)
  {
  }

  /** Everything after the first digit of the input survives, in order, at the end of the result. */
  lemma FormatPhoneNumberKeepsSubscriber(phone: string)
    ensures var d, r := Digits(phone), FormatPhoneNumber(phone);
      && |d| <= |r| <= |d| + 3
      && (d != [] ==> HasSuffix(r, d[1..]))
  {
    var d, r := Digits(phone), FormatPhoneNumber(phone);
    if d != [] && !HasPrefix(d, "256") {
      assert r[|r| - |d[1..]|..] == d[1..];
    }
  }

  /** Separators (anything without a digit) may be inserted anywhere without changing the result. */
  lemma FormatPhoneNumberIgnoresSeparators(a: string, sep: string, b: string)
    requires Digits(sep) == []
    ensures FormatPhoneNumber(a + sep + b) == FormatPhoneNumber(a + b)
  {
    assert Digits(a + sep + b) == Digits(a + b) by {
      DigitsAppend(a + sep, b);
      DigitsAppend(a, sep);
      DigitsAppend(a, b);
      assert Digits(a) + Digits(sep) == Digits(a);
    }
  }

  // The examples below name their strings through parameters: stated on
  // literals directly, the digit filter is unfolded character by character.

  /** A local number: the leading zero becomes 256. */
  lemma FormatPhoneNumberLocalExample(phone: string)
    requires phone == "0759983853"
    ensures FormatPhoneNumber(phone) == "256759983853"
  {
    assert AllDigits(phone);
    DigitsOfDigits(phone);
    assert phone[..3] != CountryCode by { assert phone[0] == '0'; }
    assert phone[1..] == "759983853";
  }

  /** An international number written with '+': the '+' is dropped, nothing else changes. */
  lemma FormatPhoneNumberPlusExample(phone: string)
    requires phone == "+256759983853"
    ensures FormatPhoneNumber(phone) == "256759983853"
  {
    var d := phone[1..];
    assert phone == ['+'] + d;
    assert AllDigits(d);
    DigitsOfDigits(d);
    assert d[..3] == CountryCode;
  }

  /** A bare subscriber number: 256 is put in front. */
  lemma FormatPhoneNumberBareExample(phone: string)
    requires phone == "759983853"
    ensures FormatPhoneNumber(phone) == "256759983853"
  {
    assert AllDigits(phone);
    DigitsOfDigits(phone);
    assert phone[..3] != CountryCode by { assert phone[0] == '7'; }
  }

  /** Only one leading zero is replaced. */
  lemma FormatPhoneNumberDoubleZeroExample(phone: string)
    requires phone == "00759"
    ensures FormatPhoneNumber(phone) == "2560759"
  {
    assert AllDigits(phone);
    DigitsOfDigits(phone);
    assert phone[..3] != CountryCode by { assert phone[0] == '0'; }
    assert phone[1..] == "0759";
  }
}
