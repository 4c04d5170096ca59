/**
 Numerals as the gateway writes and reads them: strconv.Itoa / FormatUint, the zero-padding loops
 around them, and Atoi / ParseUint. Base 10 serves the LL/LLL length prefixes, STANs and cursors;
 base 16 the bitmaps and the MAC.
 */
module Numerals {

  predicate IsBase(base: nat) {
    base == 10 || base == 16
  }

  const HEX_DIGITS := "0123456789ABCDEF"

  function DigitChar(d: nat): (c: char)
    requires d < 16
    ensures c == HEX_DIGITS[d]
  {
    if d < 10 then '0' + d as char else 'A' + (d - 10) as char
  }

  predicate IsDigit(c: char, base: nat) {
    '0' <= c <= '9' || (base == 16 && 'A' <= c <= 'F')
  }

  function DigitValue(c: char): (d: nat)
    requires IsDigit(c, 16)
    ensures d < 16 && DigitChar(d) == c
    ensures '0' <= c <= '9' ==> d < 10
  {
    if c <= '9' then (c - '0') as nat else (c - 'A') as nat + 10
  }

  predicate IsNumeral(s: string, base: nat) {
    forall i :: 0 <= i < |s| ==> IsDigit(s[i], base)
  }

  /** strconv.Itoa (base 10) and the upper-cased strconv.FormatUint (base 16). */
  function Format(n: nat, base: nat): (s: string)
    requires IsBase(base)
    ensures |s| > 0 && IsNumeral(s, base)
    decreases n
  {
    if n < base then [DigitChar(n)] else
      assert n / base < n by { DivMod(n, base); }
      assert n % base < base;
      Format(n / base, base) + [DigitChar(n % base)]
  }

  /** The loops `for len(s) < width { s = "0" + s }` of pad16 and padN. */
  function PadLeft(s: string, width: nat): (r: string)
    ensures |r| == if |s| < width then width else |s|
    decreases width - |s|
  {
    if |s| >= width then s else PadLeft("0" + s, width)
  }

  /** strconv.Atoi / ParseUint on a text already checked to be a numeral. */
  function Parse(s: string, base: nat): (n: nat)
    requires IsBase(base) && IsNumeral(s, base)
  {
    if s == [] then 0 else Parse(s[..|s| - 1], base) * base + DigitValue(s[|s| - 1])
  }

  function Pow(base: nat, k: nat): (p: nat) {
    if k == 0 then 1 else base * Pow(base, k - 1)
  }

  lemma DivMod(n: nat, base: nat)
    requires IsBase(base)
    ensures n == (n / base) * base + n % base && n % base < base
    ensures n >= base ==> n / base < n
  {
    if base == 10 {
    } else {
      assert base == 16;
    }
  }

  lemma PosDivMod(q: nat, r: nat, base: nat)
    requires IsBase(base) && r < base
    ensures (q * base + r) / base == q && (q * base + r) % base == r
  {
    if base == 10 {
    } else {
      assert base == 16;
    }
  }

  /** Reading back what Format wrote. */
  lemma {:induction false} ParseFormat(n: nat, base: nat)
    requires IsBase(base)
    ensures Parse(Format(n, base), base) == n
    decreases n
  {
    if n < base {
      var s := [DigitChar(n)];
      assert s[..0] == [];
      assert Parse([], base) == 0;
      assert Format(n, base) == s;
      assert DigitValue(s[0]) == n;
    } else {
      DivMod(n, base);
      ParseFormat(n / base, base);
      var s := Format(n / base, base) + [DigitChar(n % base)];
      assert s[..|s| - 1] == Format(n / base, base);
    }
  }

  lemma {:induction false} ParsePad(s: string, width: nat, base: nat)
    requires IsBase(base) && IsNumeral(s, base)
    ensures IsNumeral(PadLeft(s, width), base)
    ensures Parse(PadLeft(s, width), base) == Parse(s, base)
    decreases width - |s|
  {
    if |s| < width {
      ParseZero(s, base);
      ParsePad("0" + s, width, base);
    }
  }

  lemma {:induction false} ParseZero(s: string, base: nat)
    requires IsBase(base) && IsNumeral(s, base)
    ensures IsNumeral("0" + s, base) && Parse("0" + s, base) == Parse(s, base)
  {
    var z := "0" + s;
    if s == [] {
      assert z[..0] == [];
      assert Parse(z[..0], base) == 0;
      assert z[0] == '0' && DigitValue('0') == 0;
    } else {
      ParseZero(s[..|s| - 1], base);
      assert z[..|z| - 1] == "0" + s[..|s| - 1];
    }
  }

  /** A number below base^width needs at most width digits. */
  lemma {:induction false} FormatWidth(n: nat, base: nat, width: nat)
    requires IsBase(base) && width >= 1 && n < Pow(base, width)
    ensures |Format(n, base)| <= width
    decreases width
  {
    if n >= base {
      DivMod(n, base);
      assert Pow(base, width) == base * Pow(base, width - 1);
      assert Pow(base, 0) == 1;
      if width == 1 {
        assert false;
      }
      QuotientBelow(n, base, Pow(base, width - 1));
      FormatWidth(n / base, base, width - 1);
    }
  }

  lemma QuotientBelow(n: nat, base: nat, bound: nat)
    requires IsBase(base) && n < base * bound
    ensures n / base < bound
  {
    if base == 10 {
    } else {
      assert base == 16;
    }
  }

  /** Padding and formatting a fixed number of digits, one digit at a time. */
  lemma {:induction false} PadStep(n: nat, base: nat, width: nat)
    requires IsBase(base) && width >= 2
    ensures PadLeft(Format(n, base), width)
         == PadLeft(Format(n / base, base), width - 1) + [DigitChar(n % base)]
  {
    DivMod(n, base);
    var c := [DigitChar(n % base)];
    if n < base {
      assert n / base == 0 && n % base == n by {
        PosDivMod(0, n, base);
      }
      assert Format(n, base) == [] + c;
      assert PadLeft("0" + c, width) == PadLeft(['0'] + c, width);
      PadAppend("0", c, width);
      assert PadLeft(c, width) == PadLeft("0" + c, width);
      assert Format(0, base) == "0";
    } else {
      PadAppend(Format(n / base, base), c, width);
    }
  }

  lemma {:induction false} PadAppend(s: string, c: string, width: nat)
    requires |c| == 1 && |s| >= 1 && width >= 1
    ensures PadLeft(s + c, width) == PadLeft(s, width - 1) + c
    decreases width - |s|
  {
    if |s| < width - 1 {
      assert "0" + (s + c) == ("0" + s) + c;
      PadAppend("0" + s, c, width);
    }
  }

  /** Every numeral of the right width is the one Format and PadLeft produce for its value. */
  lemma {:induction false} FormatParse(s: string, base: nat)
    requires IsBase(base) && IsNumeral(s, base) && |s| >= 1
    ensures PadLeft(Format(Parse(s, base), base), |s|) == s
  {
    var init, last := s[..|s| - 1], s[|s| - 1];
    var v := DigitValue(last);
    if |s| == 1 {
      assert init == [];
      assert Parse(init, base) == 0;
      assert Format(v, base) == [DigitChar(v)];
      assert s == [last];
    } else {
      FormatParse(init, base);
      var n := Parse(s, base);
      assert n / base == Parse(init, base) && n % base == v by {
        PosDivMod(Parse(init, base), v, base);
      }
      PadStep(n, base, |s|);
      assert s == init + [last];
    }
  }

  /** A numeral of width digits is below base^width. */
  lemma {:induction false} ParseBound(s: string, base: nat)
    requires IsBase(base) && IsNumeral(s, base)
    ensures Parse(s, base) < Pow(base, |s|)
  {
    if s != [] {
      ParseBound(s[..|s| - 1], base);
      var p, q := Parse(s[..|s| - 1], base), Pow(base, |s| - 1);
      assert p + 1 <= q;
      if base == 10 {
        assert Parse(s, base) < 10 * q;
      } else {
        assert base == 16 && Parse(s, base) < 16 * q;
      }
    }
  }
}
