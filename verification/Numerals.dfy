/**
 Printing unsigned numbers in place and reading them back: the printer writes the digits lowest first and then
 turns them round; the parser reads decimal text, falling back to a default at the first character that is no
 digit.
 */
module Numerals {
  import opened Arithmetic

  const INT_MAX: nat := 0x7FFF_FFFF
  const DEFAULT_SECONDS: nat := 10

  predicate Base(base: nat) { 2 <= base <= 36 }

  function DigitChar(r: nat): char
    requires r < 36
  {
    if r < 10 then ('0' as int + r) as char else ('A' as int + (r - 10)) as char
  }

  predicate IsDigit(c: char, base: nat) {
    exists r: nat :: r < base && r < 36 && c == DigitChar(r)
  }

  function DigitValue(c: char): (r: nat) {
    if '0' <= c <= '9' then c as nat - '0' as nat
    else if 'A' <= c <= 'Z' then c as nat - 'A' as nat + 10
    else 0
  }

  lemma DigitValueOfChar(r: nat)
    requires r < 36
    ensures DigitValue(DigitChar(r)) == r
  {
  }

  // A digit is the character at its place among these numerals, and counts as that place.
  lemma DigitsByPlace(r: nat)
    requires r < 36
    ensures DigitChar(r) == "0123456789ABCDEFGHIJKLMNOPQRSTUVWXYZ"[r]
    ensures DigitValue("0123456789ABCDEFGHIJKLMNOPQRSTUVWXYZ"[r]) == r
  {
  }

  // A number without its last digit, and that digit.
  function Front(n: nat, base: nat): nat
    requires Base(base)
  {
    n / base
  }

  function Last(n: nat, base: nat): (r: nat)
    requires Base(base)
    ensures r < base
  {
    n % base
  }

  lemma FrontAndLast(n: nat, base: nat)
    requires Base(base)
    ensures n == base * Front(n, base) + Last(n, base)
    ensures n > 0 ==> Front(n, base) < n
  {
    var q := Front(n, base);
    assert base * q == 2 * q + (base - 2) * q;
  }

  lemma FrontAndLastOf(q: nat, r: nat, base: nat)
    requires Base(base) && r < base
    ensures Front(base * q + r, base) == q && Last(base * q + r, base) == r
  {
    var n := base * q + r;
    var d := Front(n, base) - q;
    assert base * d == r - Last(n, base);
    if d > 0 {
      AtLeastOnce(d, base);
    } else if d < 0 {
      AtLeastOnce(-d, base);
    }
  }

  // The digits of n without leading zeros, most significant first; nothing for zero.
  function Digits(n: nat, base: nat): string
    requires Base(base)
    decreases n
  {
    if n == 0 then []
    else
      FrontAndLast(n, base);
      Digits(Front(n, base), base) + [DigitChar(Last(n, base))]
  }

  // What the printer writes before the terminator.
  function Text(n: nat, base: nat): (text: string)
    requires Base(base)
    ensures |text| >= 1
  {
    if n == 0 then "0" else Digits(n, base)
  }

  function Value(text: string, base: nat): nat {
    if text == [] then 0 else base * Value(text[..|text| - 1], base) + DigitValue(text[|text| - 1])
  }

  function Pow(base: nat, k: nat): nat {
    if k == 0 then 1 else base * Pow(base, k - 1)
  }

  lemma {:induction false} ValueOfDigits(n: nat, base: nat)
    requires Base(base)
    ensures Value(Digits(n, base), base) == n
    decreases n
  {
    if n > 0 {
      hide Front, Last, Value;
      FrontAndLast(n, base);
      var q, r := Front(n, base), Last(n, base);
      ValueOfDigits(q, base);
      ValueOfSnoc(Digits(q, base), q, r, base);
    }
  }

  lemma ValueOfSnoc(text: string, v: nat, r: nat, base: nat)
    requires Base(base) && Value(text, base) == v && r < base
    ensures Value(text + [DigitChar(r)], base) == base * v + r
  {
    DigitValueOfChar(r);
    assert (text + [DigitChar(r)])[..|text|] == text;
  }

  lemma {:induction false} DigitsAreDigits(n: nat, base: nat)
    requires Base(base)
    ensures forall i :: 0 <= i < |Digits(n, base)| ==> IsDigit(Digits(n, base)[i], base)
    decreases n
  {
    if n > 0 {
      FrontAndLast(n, base);
      DigitsAreDigits(Front(n, base), base);
      assert IsDigit(DigitChar(Last(n, base)), base);
    }
  }

  lemma {:induction false} FirstDigitNotZero(n: nat, base: nat)
    requires Base(base) && n > 0
    ensures Digits(n, base) != [] && Digits(n, base)[0] != '0'
    decreases n
  {
    FrontAndLast(n, base);
    if Front(n, base) > 0 {
      FirstDigitNotZero(Front(n, base), base);
    } else {
    }
  }

  lemma ScaleStrictly(base: nat, a: nat, b: nat, r: nat)
    requires r < base
    ensures base * a + r < base * b <==> a < b
    ensures base * b <= base * a + r <==> b <= a
  {
    if a < b {
      assert base * b == base * a + base * (b - a);
      assert base * (b - a) >= base by { AtLeastOnce(b - a, base); }
    } else {
      assert base * a == base * b + base * (a - b);
    }
  }

  // A number takes at most k digits exactly when it is below base to the k.
  lemma {:induction false} LengthOfDigits(n: nat, base: nat, k: nat)
    requires Base(base)
    ensures |Digits(n, base)| <= k <==> n < Pow(base, k)
    decreases k
  {
    if k == 0 {
    } else if n == 0 {
      LengthOfDigits(0, base, k - 1);
      AtLeastOnce(Pow(base, k - 1), base);
    } else {
      FrontAndLast(n, base);
      LengthOfDigits(Front(n, base), base, k - 1);
      ScaleStrictly(base, Front(n, base), Pow(base, k - 1), Last(n, base));
    }
  }

  // The printed text is canonical: it has the value, digits only, no leading zero, and the least length for it.
  lemma TextIsCanonical(n: nat, base: nat)
    requires Base(base)
    ensures
      var text := Text(n, base);
      && Value(text, base) == n
      && (forall i :: 0 <= i < |text| ==> IsDigit(text[i], base))
      && (n == 0 ==> text == "0")
      && (n > 0 ==> text[0] != '0' && Pow(base, |text| - 1) <= n < Pow(base, |text|))
  {
    if n == 0 {
      assert DigitChar(0) == '0';
      assert Value("0", base) == 0;
    } else {
      ValueOfDigits(n, base);
      DigitsAreDigits(n, base);
      FirstDigitNotZero(n, base);
      LengthOfDigits(n, base, |Digits(n, base)|);
      LengthOfDigits(n, base, |Digits(n, base)| - 1);
    }
  }

  lemma ZeroDigitOnly(c: char, base: nat)
    requires Base(base) && IsDigit(c, base)
    ensures DigitValue(c) < base && c == DigitChar(DigitValue(c))
    ensures DigitValue(c) == 0 <==> c == '0'
  {
    var r: nat :| r < base && r < 36 && c == DigitChar(r);
    DigitValueOfChar(r);
  }

  // And it is the only such text: two texts of digits without leading zeros and of equal value are the same.
  lemma {:induction false} CanonicalIsUnique(text: string, base: nat)
    requires Base(base) && forall i :: 0 <= i < |text| ==> IsDigit(text[i], base)
    requires text != [] ==> text[0] != '0'
    ensures text == Digits(Value(text, base), base)
    ensures text != [] ==> Value(text, base) > 0
  {
    if text != [] {
      var init, last := text[..|text| - 1], text[|text| - 1];
      CanonicalIsUnique(init, base);
      ZeroDigitOnly(last, base);
      var v, r := Value(init, base), DigitValue(last);
      FrontAndLastOf(v, r, base);
      if init != [] {
        AtLeastOnce(v, base);
      } else {
        assert last == text[0];
      }
    }
  }

  function Reversed(s: string): (t: string)
    ensures |t| == |s|
    ensures forall i :: 0 <= i < |s| ==> t[i] == s[|s| - 1 - i]
  {
    seq(|s|, i requires 0 <= i < |s| => s[|s| - 1 - i])
  }

  lemma ReversedSnoc(s: string, c: char)
    ensures Reversed(s + [c]) == [c] + Reversed(s)
  {
  }

  // Writes the digits of n from position 0 on, lowest first, and says how many there are.
  method EmitDigits(n: nat, str: array<char>, base: nat) returns (len: nat)
    requires Base(base) && n > 0 && |Digits(n, base)| <= str.Length
    modifies str
    ensures len == |Digits(n, base)| && str[..len] == Reversed(Digits(n, base))
    ensures forall i :: len <= i < str.Length ==> str[i] == old(str[i])
  {
    hide Digits, Reversed, DigitChar;
    var m: nat := n;
    len := 0;
    NoDigits(base);
    assert Digits(m, base) + Reversed(str[..len]) == Digits(n, base);
    while m > 0
      invariant len <= |Digits(n, base)| && Digits(n, base) == Digits(m, base) + Reversed(str[..len])
      invariant forall i :: len <= i < str.Length ==> str[i] == old(str[i])
      decreases m
    {
      FrontAndLast(m, base);
      ghost var before := str[..len];
      EmitOne(n, m, base, before);
      str[len] := DigitChar(Last(m, base));
      assert str[..len + 1] == before + [DigitChar(Last(m, base))];
      len := len + 1;
      m := Front(m, base);
    }
    assert [] + Reversed(str[..len]) == Reversed(str[..len]);
    ReversedTwice(str[..len]);
  }

  lemma NoDigits(base: nat)
    requires Base(base)
    ensures Digits(0, base) == [] && Reversed([]) == []
  {
  }

  lemma ReversedTwice(s: string)
    ensures Reversed(Reversed(s)) == s
  {
  }

  // One more low digit of n goes from what is left of the number to what is written.
  lemma EmitOne(n: nat, m: nat, base: nat, written: string)
    requires Base(base) && m > 0 && Digits(n, base) == Digits(m, base) + Reversed(written)
    ensures |written| < |Digits(n, base)|
    ensures Digits(n, base) == Digits(Front(m, base), base) + Reversed(written + [DigitChar(Last(m, base))])
  {
    ReversedSnoc(written, DigitChar(Last(m, base)));
  }

  // Turns the first len characters round in place.
  method TurnRound(str: array<char>, len: nat)
    requires 1 <= len <= str.Length
    modifies str
    ensures str[..len] == Reversed(old(str[..len]))
    ensures forall i :: len <= i < str.Length ==> str[i] == old(str[i])
  {
    var low, high := 0, len - 1;
    while low < high
      invariant 0 <= low <= high + 1 && high == len - 1 - low
      invariant forall i :: 0 <= i < low || high < i < len ==> str[i] == old(str[len - 1 - i])
      invariant forall i :: low <= i <= high || len <= i < str.Length ==> str[i] == old(str[i])
    {
      var a := str[low];
      str[low] := str[high];
      str[high] := a;
      low, high := low + 1, high - 1;
    }
  }

  // Prints n in the given base: the canonical text and a terminator, and not one character more.
  method Itoa(n: nat, str: array<char>, base: nat)
    requires Base(base) && n < UINT_RANGE && |Text(n, base)| + 1 <= str.Length
    modifies str
    ensures
      var len := |Text(n, base)|;
      && str[..len] == Text(n, base)
      && str[len] == '\0'
      && (forall i :: len < i < str.Length ==> str[i] == old(str[i]))
  {
    if n == 0 {
      str[0] := '0';
      str[1] := '\0';
      return;
    }
    hide Digits, Reversed;
    var len := EmitDigits(n, str, base);
    str[len] := '\0';
    assert str[..len] == Reversed(Text(n, base));
    TurnRound(str, len);
    ReversedTwice(Text(n, base));
  }

  // Reading text: the default at the first character that is no digit, or a number, unless it grows past INT_MAX.
  datatype Parsed = Number(value: nat) | Fallback | Overflow

  function Scan(text: string, result: nat): Parsed {
    if text == [] then Number(result)
    else if text[0] < '0' || text[0] > '9' then Fallback
    else
      var next := 10 * result + DigitValue(text[0]);
      if next > INT_MAX then Overflow else Scan(text[1..], next)
  }

  predicate Decimal(text: string) {
    forall i :: 0 <= i < |text| ==> '0' <= text[i] <= '9'
  }

  function ValueFrom(result: nat, text: string): nat
    decreases |text|
  {
    if text == [] then result else ValueFrom(10 * result + DigitValue(text[0]), text[1..])
  }

  lemma {:induction false} ValueFromSnoc(result: nat, text: string, c: char)
    ensures ValueFrom(result, text + [c]) == 10 * ValueFrom(result, text) + DigitValue(c)
    decreases |text|
  {
    if text == [] {
      assert [c][1..] == [];
    } else {
      ValueFromSnoc(10 * result + DigitValue(text[0]), text[1..], c);
      assert (text + [c])[1..] == text[1..] + [c];
    }
  }

  lemma {:induction false} ValueFromFront(text: string)
    ensures ValueFrom(0, text) == Value(text, 10)
  {
    if text != [] {
      ValueFromFront(text[..|text| - 1]);
      ValueFromSnoc(0, text[..|text| - 1], text[|text| - 1]);
      assert text == text[..|text| - 1] + [text[|text| - 1]];
    }
  }

  lemma {:induction false} ValueGrows(result: nat, text: string)
    ensures ValueFrom(result, text) >= result
    decreases |text|
  {
    if text != [] {
      ValueGrows(10 * result + DigitValue(text[0]), text[1..]);
    }
  }

  lemma {:induction false} ScanDecimal(text: string, result: nat)
    requires Decimal(text) && result <= INT_MAX
    ensures Scan(text, result) ==
            if ValueFrom(result, text) <= INT_MAX then Number(ValueFrom(result, text)) else Overflow
    decreases |text|
  {
    if text != [] {
      var next := 10 * result + DigitValue(text[0]);
      ValueGrows(next, text[1..]);
      if next <= INT_MAX {
        ScanDecimal(text[1..], next);
      }
    }
  }

  lemma {:induction false} ScanStops(digits: string, c: char, rest: string, result: nat)
    requires Decimal(digits) && (c < '0' || c > '9') && result <= INT_MAX
    ensures Scan(digits + [c] + rest, result) ==
            if ValueFrom(result, digits) <= INT_MAX then Fallback else Overflow
    decreases |digits|
  {
    var text := digits + [c] + rest;
    if digits != [] {
      var next := 10 * result + DigitValue(digits[0]);
      assert text[1..] == digits[1..] + [c] + rest;
      ValueGrows(next, digits[1..]);
      if next <= INT_MAX {
        ScanStops(digits[1..], c, rest, next);
      }
    }
  }

  // What the program returns for a parse that did not overflow.
  function Seconds(parsed: Parsed): nat
    requires !parsed.Overflow?
  {
    if parsed.Number? then parsed.value else DEFAULT_SECONDS
  }

  // The parser, exactly: a text of digits gives its value if that fits an int; anything else gives the default,
  // unless the digits before the first other character already overflow.
  lemma ParserIsExact(digits: string, c: char, rest: string)
    requires Decimal(digits) && (c < '0' || c > '9')
    ensures Scan(digits, 0) == if Value(digits, 10) <= INT_MAX then Number(Value(digits, 10)) else Overflow
    ensures Value(digits, 10) > INT_MAX ==> Scan(digits + [c] + rest, 0) == Overflow
    ensures Value(digits, 10) <= INT_MAX ==>
      !Scan(digits + [c] + rest, 0).Overflow? && Seconds(Scan(digits + [c] + rest, 0)) == 10
  {
    ValueFromFront(digits);
    ScanDecimal(digits, 0);
    ScanStops(digits, c, rest, 0);
  }

  lemma TextIsDecimal(n: nat)
    ensures Decimal(Text(n, 10))
  {
    TextIsCanonical(n, 10);
    var text := Text(n, 10);
    forall i | 0 <= i < |text|
      ensures '0' <= text[i] <= '9'
    {
      var r: nat :| r < 10 && r < 36 && text[i] == DigitChar(r);
    }
  }

  // Round trip: parsing the decimal text of n gives n back exactly when n fits an int.
  lemma ParsePrinted(n: nat)
    ensures Scan(Text(n, 10), 0) == if n <= INT_MAX then Number(n) else Overflow
  {
    TextIsDecimal(n);
    TextIsCanonical(n, 10);
    ValueFromFront(Text(n, 10));
    ScanDecimal(Text(n, 10), 0);
  }

  lemma {:induction false} ValueFromSplit(result: nat, front: string, back: string)
    ensures ValueFrom(result, front + back) == ValueFrom(ValueFrom(result, front), back)
    decreases |front|
  {
    if front == [] {
      assert front + back == back;
    } else {
      ValueFromSplit(10 * result + DigitValue(front[0]), front[1..], back);
      assert (front + back)[1..] == front[1..] + back;
    }
  }

  // While it reads the text of n, the parser never holds a value above n.
  lemma NeverAbove(n: nat, k: nat)
    requires k <= |Text(n, 10)|
    ensures ValueFrom(0, Text(n, 10)[..k]) <= n
  {
    var text := Text(n, 10);
    TextIsCanonical(n, 10);
    ValueFromFront(text);
    ValueFromSplit(0, text[..k], text[k..]);
    ValueGrows(ValueFrom(0, text[..k]), text[k..]);
    assert text[..k] + text[k..] == text;
  }

  // Reads the characters of s up to the terminator. `Overflow` stands for the undefined signed overflow.
  method Atoi(s: array<char>, ghost len: nat) returns (parsed: Parsed)
    requires len < s.Length && s[len] == '\0' && forall i :: 0 <= i < len ==> s[i] != '\0'
    ensures parsed == Scan(s[..len], 0)
    ensures parsed.Number? ==> parsed.value <= INT_MAX
  {
    var result: nat := 0;
    var at := 0;
    while s[at] != '\0'
      invariant 0 <= at <= len && result <= INT_MAX
      invariant Scan(s[at..len], result) == Scan(s[..len], 0)
      decreases len - at
    {
      if s[at] < '0' || s[at] > '9' {
        return Fallback;
      }
      assert s[at..len][1..] == s[at + 1..len];
      var r := s[at] as nat - '0' as nat;
      if 10 * result + r > INT_MAX {
        return Overflow;
      }
      result := 10 * result + r;
      at := at + 1;
    }
    parsed := Number(result);
  }

  // Printing and then parsing the same buffer.
  method PrintThenParse(n: nat, str: array<char>) returns (parsed: Parsed)
    requires n < UINT_RANGE && |Text(n, 10)| + 1 <= str.Length
    modifies str
    ensures n < 0x8000_0000 ==> parsed == Number(n)
    ensures n >= 0x8000_0000 ==> parsed == Overflow
  {
    Itoa(n, str, 10);
    TextIsDecimal(n);
    ParsePrinted(n);
    parsed := Atoi(str, |Text(n, 10)|);
  }

  // The simulations print into buffers of 12 and 4 characters: every unsigned int fits the first, and exactly
  // the numbers below 1000 fit the second.
  lemma BufferSizes(n: nat)
    requires n < UINT_RANGE
    ensures |Text(n, 10)| + 1 <= 12
    ensures |Text(n, 10)| + 1 <= 4 <==> n < 1000
  {
    LengthOfDigits(n, 10, 11);
    LengthOfDigits(n, 10, 3);
    assert Pow(10, 1) == 10 && Pow(10, 2) == 100 && Pow(10, 3) == 1000;
    assert Pow(10, 5) == 100 * Pow(10, 3);
    assert Pow(10, 7) == 100 * Pow(10, 5);
    assert Pow(10, 9) == 100 * Pow(10, 7);
    assert Pow(10, 11) == 100 * Pow(10, 9);
  }
}
