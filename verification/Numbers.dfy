/** Parsing of unsigned 32-bit numbers, as Rust's `from_str_radix` does it. */
module Numbers {
  import opened Results

  const U32_LIMIT := 0x1_0000_0000

  /** The value of a digit, or 36 if it is none. */
  function Digit(c: char): nat {
    if '0' <= c <= '9' then c as int - '0' as int
    else if 'a' <= c <= 'z' then c as int - 'a' as int + 10
    else if 'A' <= c <= 'Z' then c as int - 'A' as int + 10
    else 36
  }

  function Value(s: string, radix: nat): nat {
    if s == [] then 0 else radix * Value(s[..|s| - 1], radix) + Digit(s[|s| - 1])
  }

  predicate HasOther(s: string, radix: nat) { exists i :: 0 <= i < |s| && Digit(s[i]) >= radix }

  /** Digits below the radix, with an optional plus sign, whose value fits 32 bits. */
  function ParseU32(s: string, radix: nat): Option<nat> {
    var digits := if s != [] && s[0] == '+' then s[1..] else s;
    if digits == [] || HasOther(digits, radix) then None
    else if Value(digits, radix) < U32_LIMIT then Some(Value(digits, radix))
    else None
  }

  // ---- every 32-bit number can be written and read back ----

  function DigitChar(d: nat): char
    requires d < 16
  {
    "0123456789abcdef"[d]
  }

  function Numeral(n: nat, radix: nat): (s: string)
    requires 2 <= radix <= 16
    ensures s != []
  {
    if n < radix then [DigitChar(n)] else Numeral(n / radix, radix) + [DigitChar(n % radix)]
  }

  predicate AllDigits(s: string, radix: nat) {
    forall i :: 0 <= i < |s| ==> s[i] != '+' && s[i] != 'x' && Digit(s[i]) < radix
  }

  lemma DigitReads(d: nat)
    requires d < 16
    ensures Digit(DigitChar(d)) == d && DigitChar(d) != '+' && DigitChar(d) != 'x'
  {
  }

  lemma ValueAppend(front: string, last: char, radix: nat)
    ensures Value(front + [last], radix) == radix * Value(front, radix) + Digit(last)
  {
    assert (front + [last])[..|front|] == front;
  }

  lemma AllDigitsAppend(front: string, d: nat, radix: nat)
    requires AllDigits(front, radix) && d < radix <= 16
    ensures AllDigits(front + [DigitChar(d)], radix)
  {
    DigitReads(d);
    hide Digit, DigitChar;
  }

  lemma DigitAppends(front: string, v: nat, d: nat, radix: nat)
    requires AllDigits(front, radix) && Value(front, radix) == v && d < radix <= 16
    ensures var s := front + [DigitChar(d)]; Value(s, radix) == radix * v + d && AllDigits(s, radix)
  {
    DigitReads(d);
    hide Digit, DigitChar, Value, AllDigits;
    ValueAppend(front, DigitChar(d), radix);
    AllDigitsAppend(front, d, radix);
  }

  lemma OneDigit(d: nat, radix: nat)
    requires d < radix <= 16
    ensures Value([DigitChar(d)], radix) == d && AllDigits([DigitChar(d)], radix)
  {
    assert Value([], radix) == 0;
    NoDigits(radix);
    hide Value, AllDigits, DigitChar;
    DigitAppends([], 0, d, radix);
    assert [] + [DigitChar(d)] == [DigitChar(d)];
  }

  lemma {:induction false} NumeralReads(n: nat, radix: nat)
    requires 2 <= radix <= 16
    ensures Value(Numeral(n, radix), radix) == n && AllDigits(Numeral(n, radix), radix)
  {
    hide Value, AllDigits, DigitChar;
    if n < radix {
      OneDigit(n, radix);
    } else {
      Division(n, radix);
      NumeralReads(n / radix, radix);
      DigitAppends(Numeral(n / radix, radix), n / radix, n % radix, radix);
    }
  }

  lemma NoDigits(radix: nat)
    ensures AllDigits([], radix)
  {
  }

  lemma Division(n: nat, radix: nat)
    requires radix >= 2
    ensures radix * (n / radix) + n % radix == n && n % radix < radix
    ensures n > 0 ==> n / radix < n
  {
  }

  /** A numeral is read back exactly when its number fits 32 bits. */
  lemma NumeralParses(n: nat, radix: nat)
    requires 2 <= radix <= 16
    ensures ParseU32(Numeral(n, radix), radix) == if n < 0x1_0000_0000 then Some(n) else None
  {
    NumeralReads(n, radix);
    hide Numeral, Digit, Value;
  }

  // ---- a sign, and either case ----

  /** A plus sign in front changes nothing. */
  lemma SignedParses(n: nat, radix: nat)
    requires 2 <= radix <= 16
    ensures ParseU32("+" + Numeral(n, radix), radix) == ParseU32(Numeral(n, radix), radix)
  {
    var digits := Numeral(n, radix);
    NumeralReads(n, radix);
    hide Numeral, Value, Digit;
    assert ("+" + digits)[1..] == digits;
  }

  /** The same numeral, letters in either case. */
  predicate SameDigits(s: string, t: string) {
    |s| == |t| && forall i :: 0 <= i < |s| ==> s[i] == t[i] || ('A' <= s[i] <= 'Z' && t[i] as int == s[i] as int + 32)
  }

  lemma {:induction false} SameValue(s: string, t: string, radix: nat)
    requires SameDigits(s, t)
    ensures Value(s, radix) == Value(t, radix)
  {
    if s != [] {
      SameValue(s[..|s| - 1], t[..|t| - 1], radix);
    }
  }

  lemma CaseParses(s: string, t: string, radix: nat)
    requires SameDigits(s, t)
    ensures ParseU32(s, radix) == ParseU32(t, radix)
  {
    hide Value, HasOther;
    assert s != [] ==> (s[0] == '+' <==> t[0] == '+');
    if s != [] && s[0] == '+' {
      SameParsed(s[1..], t[1..], radix);
    } else {
      SameParsed(s, t, radix);
    }
  }

  lemma SameParsed(s: string, t: string, radix: nat)
    requires SameDigits(s, t)
    ensures Value(s, radix) == Value(t, radix)
    ensures HasOther(s, radix) <==> HasOther(t, radix)
  {
    SameValue(s, t, radix);
    assert forall i :: 0 <= i < |s| ==> Digit(s[i]) == Digit(t[i]);
    hide Digit;
  }
}
