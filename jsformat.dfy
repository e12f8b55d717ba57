/**
 * The two number-to-text conversions the lighting hint uses:
 * Number.prototype.toString(radix) on non-negative integers and
 * String.prototype.padStart, each with the parser that undoes it.
 */
module JsFormat {
  /** The radices the program formats numbers in: decimal and hexadecimal. */
  predicate ValidRadix(radix: nat)
  {
    radix == 10 || radix == 16
  }

  /** The character toString uses for digit value `d`: '0'..'9', then lower-case 'a'..'f'. */
  function DigitChar(d: nat): (c: char)
    requires d < 16
    ensures IsDigitChar(c) && DigitValue(c) == d
  {
    if d < 10 then (48 + d) as char else (97 + d - 10) as char
  }

  predicate IsDigitChar(c: char)
  {
    '0' <= c <= '9' || 'a' <= c <= 'f'
  }

  /** The value of one digit character. */
  function DigitValue(c: char): (d: nat)
    requires IsDigitChar(c)
    ensures d < 16
  {
    if c <= '9' then c as int - 48 else c as int - 97 + 10
  }

  /** Every character of `s` is a digit of the given radix. */
  predicate IsDigits(s: string, radix: nat)
  {
    forall i :: 0 <= i < |s| ==> IsDigitChar(s[i]) && DigitValue(s[i]) < radix
  }

  /** `n.toString(radix)` for a non-negative integer `n`: most significant digit first, no leading zeros. */
  function ToString(n: nat, radix: nat): (s: string)
    requires ValidRadix(radix)
    ensures 1 <= |s| && IsDigits(s, radix)
    ensures n < radix <==> |s| == 1
    ensures |s| > 1 ==> s[0] != '0'
    decreases n
  {
    if n < radix then [DigitChar(n)]
    else ToString(n / radix, radix) + [DigitChar(n % radix)]
  }

  /** Reads digits left to right, starting from the value `acc` already read. */
  function ParseFrom(s: string, radix: nat, acc: nat): nat
    requires ValidRadix(radix) && IsDigits(s, radix)
  {
    if |s| == 0 then acc
    else ParseFrom(s[1..], radix, acc * radix + DigitValue(s[0]))
  }

  /** The value of a string of digits (what parseInt(s, radix) yields for such a string). */
  function Parse(s: string, radix: nat): nat
    requires ValidRadix(radix) && IsDigits(s, radix)
  {
    ParseFrom(s, radix, 0)
  }

  lemma {:induction false} ParseFromAppend(a: string, b: string, radix: nat, acc: nat)
    requires ValidRadix(radix) && IsDigits(a, radix) && IsDigits(b, radix)
    ensures IsDigits(a + b, radix)
    ensures ParseFrom(a + b, radix, acc) == ParseFrom(b, radix, ParseFrom(a, radix, acc))
    decreases |a|
  {
    assert IsDigits(a + b, radix) by {
      forall i | 0 <= i < |a + b|
        ensures IsDigitChar((a + b)[i]) && DigitValue((a + b)[i]) < radix
      {
        if i >= |a| {
          assert (a + b)[i] == b[i - |a|];
        }
      }
    }
    if |a| > 0 {
      assert (a + b)[0] == a[0] && (a + b)[1..] == a[1..] + b;
      ParseFromAppend(a[1..], b, radix, acc * radix + DigitValue(a[0]));
    } else {
      assert a + b == b;
    }
  }

  /** Parsing what toString produced gives the number back. */
  lemma {:induction false} ParseToString(n: nat, radix: nat)
    requires ValidRadix(radix)
    ensures Parse(ToString(n, radix), radix) == n
    decreases n
  {
    if n >= radix {
      var last := [DigitChar(n % radix)];
      assert last[1..] == [];
      var q := n / radix;
      DivideByRadix(n, radix);
      ParseToString(q, radix);
      ParseFromAppend(ToString(q, radix), last, radix, 0);
      assert ToString(n, radix) == ToString(q, radix) + last;
      assert ParseFrom(last, radix, q) == q * radix + n % radix;
    } else {
      var digit := [DigitChar(n)];
      assert digit[1..] == [];
      assert ToString(n, radix) == digit;
      assert Parse(digit, radix) == ParseFrom([], radix, 0 * radix + n);
    }
  }

  lemma DivideByRadix(n: nat, radix: nat)
    requires ValidRadix(radix) && radix <= n
    ensures n / radix < n && n == n / radix * radix + n % radix
  {
    if radix == 10 {
      assert n / radix == n / 10 && n % radix == n % 10;
    } else {
      assert n / radix == n / 16 && n % radix == n % 16;
    }
  }

  /** A string of `n` copies of `c`. */
  function Repeat(c: char, n: nat): (s: string)
    ensures |s| == n && forall i :: 0 <= i < n ==> s[i] == c
  {
    if n == 0 then [] else [c] + Repeat(c, n - 1)
  }

  /** `s.padStart(length, c)`: `c` is prepended until the string is `length` long; a longer string is left alone. */
  function PadStart(s: string, length: nat, c: char): (p: string)
  {
    if |s| >= length then s else Repeat(c, length - |s|) + s
  }

  lemma PadStartShape(s: string, length: nat, c: char)
    ensures |PadStart(s, length, c)| == if |s| >= length then |s| else length
    ensures var p := PadStart(s, length, c);
            p[|p| - |s|..] == s && forall i :: 0 <= i < |p| - |s| ==> p[i] == c
  {
  }

  /** Leading zeros do not change the value. */
  lemma {:induction false} ParseLeadingZeros(k: nat, s: string, radix: nat)
    requires ValidRadix(radix) && IsDigits(s, radix)
    ensures IsDigits(Repeat('0', k) + s, radix)
    ensures Parse(Repeat('0', k) + s, radix) == Parse(s, radix)
  {
    if k == 0 {
      assert Repeat('0', k) + s == s;
    } else {
      ParseLeadingZeros(k - 1, s, radix);
      var rest := Repeat('0', k - 1) + s;
      assert Repeat('0', k) + s == ['0'] + rest;
      assert (['0'] + rest)[1..] == rest;
    }
  }

  /** Zero-padding keeps the parsed value. */
  lemma ParsePadStart(s: string, length: nat, radix: nat)
    requires ValidRadix(radix) && IsDigits(s, radix)
    ensures IsDigits(PadStart(s, length, '0'), radix)
    ensures Parse(PadStart(s, length, '0'), radix) == Parse(s, radix)
  {
    if |s| < length {
      ParseLeadingZeros(length - |s|, s, radix);
    }
  }
}
