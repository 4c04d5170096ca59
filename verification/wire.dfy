/**
 What is on the wire, character by character: the digits of a bitmap, of a length prefix and of a whole
 packed message. The round trips say that reading undoes writing; this says what was written.
 */
module Wire {
  import opened Numerals
  import opened Codec
  import opened CodecProofs

  // Hex.

  function Bit(b: bool): nat {
    if b then 1 else 0
  }

  /** The digit of four bits, most significant first. */
  function Nibble(a: bool, b: bool, c: bool, d: bool): (v: nat)
    ensures v < 16
  {
    8 * Bit(a) + 4 * Bit(b) + 2 * Bit(c) + Bit(d)
  }

  /** The bits of a page as digits, one by one. */
  function Digits(bits: seq<bool>): (s: string)
    requires |bits| % 4 == 0
    ensures |s| == |bits| / 4
  {
    seq(|bits| / 4, j requires 0 <= j < |bits| / 4 =>
      HEX_DIGITS[Nibble(bits[4 * j], bits[4 * j + 1], bits[4 * j + 2], bits[4 * j + 3])])
  }

  lemma DigitReads(v: nat)
    requires v < 16
    ensures IsDigit(HEX_DIGITS[v], 16) && DigitValue(HEX_DIGITS[v]) == v
  {
    assert HEX_DIGITS[v] == DigitChar(v);
  }

  lemma LastFour(bits: seq<bool>)
    requires |bits| >= 4
    ensures var n := |bits|;
            BitsValue(bits) == 16 * BitsValue(bits[..n - 4]) + Nibble(bits[n - 4], bits[n - 3], bits[n - 2], bits[n - 1])
  {
    var n := |bits|;
    assert bits[..n - 1][..n - 2] == bits[..n - 2];
    assert bits[..n - 2][..n - 3] == bits[..n - 3];
    assert bits[..n - 3][..n - 4] == bits[..n - 4];
    assert BitsValue(bits[..n - 3]) == 2 * BitsValue(bits[..n - 4]) + Bit(bits[n - 4]);
    assert BitsValue(bits[..n - 2]) == 2 * BitsValue(bits[..n - 3]) + Bit(bits[n - 3]);
    assert BitsValue(bits[..n - 1]) == 2 * BitsValue(bits[..n - 2]) + Bit(bits[n - 2]);
  }

  lemma DigitsStep(bits: seq<bool>, init: seq<bool>, last: nat)
    requires |bits| % 4 == 0 && bits != [] && init == bits[..|bits| - 4]
    requires last == Nibble(bits[|bits| - 4], bits[|bits| - 3], bits[|bits| - 2], bits[|bits| - 1])
    ensures Digits(bits) == Digits(init) + [HEX_DIGITS[last]]
  {
  }

  lemma ParseStep(init: string, c: char)
    requires IsNumeral(init, 16) && IsDigit(c, 16)
    ensures IsNumeral(init + [c], 16) && Parse(init + [c], 16) == 16 * Parse(init, 16) + DigitValue(c)
  {
    assert (init + [c])[..|init|] == init;
  }

  lemma {:induction false} DigitsRead(bits: seq<bool>)
    requires |bits| % 4 == 0
    ensures IsNumeral(Digits(bits), 16) && Parse(Digits(bits), 16) == BitsValue(bits)
  {
    if bits != [] {
      var n := |bits|;
      var init, last := bits[..n - 4], Nibble(bits[n - 4], bits[n - 3], bits[n - 2], bits[n - 1]);
      DigitsRead(init);
      DigitReads(last);
      LastFour(bits);
      DigitsStep(bits, init, last);
      ParseStep(Digits(init), HEX_DIGITS[last]);
    }
  }

  lemma HexOfIsDigits(bits: seq<bool>)
    requires |bits| % 4 == 0 && bits != []
    ensures HexOf(bits) == Digits(bits)
  {
    DigitsRead(bits);
    FormatParse(Digits(bits), 16);
  }

  /** A page on the wire: digit j is the bits 4j+1 to 4j+4 of the page, the first the most significant. */
  lemma PageOnWire(present: set<int>, page: nat, j: nat)
    requires j < 16
    ensures |BitmapHex(present, page)| == 16
    ensures var first := page * 64 + 4 * j + 1;
            BitmapHex(present, page)[j] ==
            HEX_DIGITS[Nibble(first in present, first + 1 in present, first + 2 in present, first + 3 in present)]
  {
    var bits := PageBits(present, page);
    HexOfIsDigits(bits);
    PageDigit(present, page, j, bits);
  }

  lemma PageDigit(present: set<int>, page: nat, j: nat, bits: seq<bool>)
    requires j < 16 && bits == PageBits(present, page)
    ensures var first := page * 64 + 4 * j + 1;
            Digits(bits)[j] == HEX_DIGITS[Nibble(first in present, first + 1 in present, first + 2 in present, first + 3 in present)]
  {
    assert forall k :: 0 <= k < 64 ==> bits[k] == (page * 64 + k + 1 in present);
  }

  // Length prefixes.

  lemma DecimalDigits(n: nat, width: nat)
    requires width >= 1 && n < Pow(10, width)
    ensures |PadLeft(Format(n, 10), width)| == width
    ensures PadLeft(Format(n, 10), width)[width - 1] == HEX_DIGITS[n % 10]
    ensures width > 1 ==> PadLeft(Format(n, 10), width)[..width - 1] == PadLeft(Format(n / 10, 10), width - 1)
  {
    FormatWidth(n, 10, width);
    if width > 1 {
      PadStep(n, 10, width);
      assert n / 10 < Pow(10, width - 1) by {
        assert Pow(10, width) == 10 * Pow(10, width - 1);
      }
      FormatWidth(n / 10, 10, width - 1);
    } else {
      assert Pow(10, 1) == 10 * Pow(10, 0);
    }
  }

  /** An LL element starts with the two decimal digits of its length, an LLL element with three. */
  lemma PrefixOnWire(t: Table, n: int, v: string)
    requires WellFormed(t) && PackField(t, n, v).Ok?
    ensures var text, size := PackField(t, n, v).value, DataLen(t[n], v);
            match t[n].prefix
            case Fixed => text == v
            case LL => text == [HEX_DIGITS[size / 10], HEX_DIGITS[size % 10]] + v
            case LLL => text == [HEX_DIGITS[size / 100], HEX_DIGITS[size / 10 % 10], HEX_DIGITS[size % 10]] + v
  {
    var size := DataLen(t[n], v);
    Hundreds();
    if t[n].prefix == LL {
      TwoDigits(size);
    } else if t[n].prefix == LLL {
      ThreeDigits(size);
    }
  }

  lemma TwoDigits(n: nat)
    requires n < 100
    ensures n / 10 < 10 && PadLeft(Format(n, 10), 2) == [HEX_DIGITS[n / 10], HEX_DIGITS[n % 10]]
  {
    Hundreds();
    var width := 2;
    DecimalDigits(n, width);
    assert Pow(10, 1) == 10 * Pow(10, 0);
    DecimalDigits(n / 10, width - 1);
  }

  lemma ThreeDigits(n: nat)
    requires n < 1000
    ensures n / 100 < 10 && PadLeft(Format(n, 10), 3) == [HEX_DIGITS[n / 100], HEX_DIGITS[n / 10 % 10], HEX_DIGITS[n % 10]]
  {
    Hundreds();
    var width := 3;
    DecimalDigits(n, width);
    DecimalDigits(n / 10, width - 1);
    assert Pow(10, 1) == 10 * Pow(10, 0);
    DecimalDigits(n / 10 / 10, width - 2);
    assert n / 10 / 10 == n / 100;
  }

  // A message.

  /** The elements in ascending order, each as it is on the wire. */
  ghost function Elements(t: Table, numbers: seq<int>, fields: Fields): string
    requires forall n :: n in numbers ==> n in fields
  {
    if numbers == [] then ""
    else
      var text := PackField(t, numbers[0], fields[numbers[0]]);
      (if text.Ok? then text.value else "") + Elements(t, numbers[1..], fields)
  }

  lemma {:induction false} ElementsPacked(t: Table, numbers: seq<int>, fields: Fields)
    requires (forall n :: n in numbers ==> n in fields) && PackAll(t, numbers, fields).Ok?
    ensures PackAll(t, numbers, fields).value == Elements(t, numbers, fields)
  {
    if numbers != [] {
      ElementsPacked(t, numbers[1..], fields);
    }
  }

  /** The numbers whose bits are set: the elements, and 1 when one of them is above 64. */
  function Marked(fields: Fields): set<int> {
    if NeedsSecondary(fields) then fields.Keys + {1} else fields.Keys
  }

  /** The MTI, the first page, the second exactly when an element above 64 is present, then the elements. */
  lemma MessageOnWire(t: Table, mti: string, fields: Fields)
    requires Pack(t, mti, fields).Ok?
    ensures Pack(t, mti, fields).value ==
            mti + BitmapHex(Marked(fields), 0)
            + (if exists n :: n in fields && n > 64 then BitmapHex(Marked(fields), 1) else "")
            + Elements(t, Sorted(fields.Keys), fields)
  {
    ElementsPacked(t, Sorted(fields.Keys), fields);
    assert PresenceOf(fields) == Marked(fields);
    Joined(mti, BitmapHex(Marked(fields), 0), if NeedsSecondary(fields) then BitmapHex(Marked(fields), 1) else "",
           Elements(t, Sorted(fields.Keys), fields));
  }

  lemma Joined(a: string, b: string, c: string, d: string)
    ensures a + (b + c) + d == a + b + c + d
  {
  }
}
