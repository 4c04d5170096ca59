/**
 The codec's two round trips. Unpack undoes Pack on every message Pack accepts, and Pack undoes
 Unpack on every wire text Unpack accepts except one that announces an empty secondary bitmap.
 */
module CodecProofs {
  import opened Numerals
  import opened Codec

  // Bit strings and their values.

  lemma {:induction false} BitsOfValue(bits: seq<bool>)
    ensures BitsValue(bits) < Pow(2, |bits|)
    ensures ValueBits(BitsValue(bits), |bits|) == bits
  {
    if bits != [] {
      var init := bits[..|bits| - 1];
      BitsOfValue(init);
      assert BitsValue(bits) / 2 == BitsValue(init);
      assert bits == init + [bits[|bits| - 1]];
    }
  }

  lemma {:induction false} ValueOfBits(value: nat, width: nat)
    requires value < Pow(2, width)
    ensures BitsValue(ValueBits(value, width)) == value
  {
    if width > 0 {
      ValueOfBits(value / 2, width - 1);
      var bits := ValueBits(value, width);
      assert bits[..|bits| - 1] == ValueBits(value / 2, width - 1);
    }
  }

  lemma {:induction false} Sixteen(k: nat)
    ensures Pow(16, k) == Pow(2, 4 * k)
  {
    if k > 0 {
      Sixteen(k - 1);
      var p := Pow(2, 4 * k - 4);
      assert Pow(2, 4 * k) == 2 * Pow(2, 4 * k - 1) == 4 * Pow(2, 4 * k - 2) == 8 * Pow(2, 4 * k - 3) == 16 * p;
    }
  }

  /** Reading a written bitmap gives back its bits. */
  lemma BitmapReadBack(present: set<int>, page: nat)
    ensures |BitmapHex(present, page)| == 16 && IsNumeral(BitmapHex(present, page), 16)
    ensures PageOf(BitmapHex(present, page)) == PageBits(present, page)
  {
    var bits := PageBits(present, page);
    var v, width := BitsValue(bits), |bits| / 4;
    BitsOfValue(bits);
    Sixteen(width);
    FormatWidth(v, 16, width);
    ParsePad(Format(v, 16), width, 16);
    ParseFormat(v, 16);
  }

  /** Writing the bits of a bitmap that was read gives back its text. */
  lemma BitmapWriteBack(text: string, present: set<int>, page: nat)
    requires |text| == 16 && IsNumeral(text, 16)
    requires PageOf(text) == PageBits(present, page)
    ensures BitmapHex(present, page) == text
  {
    ParseBound(text, 16);
    Sixteen(|text|);
    ValueOfBits(Parse(text, 16), 4 * |text|);
    FormatParse(text, 16);
  }

  // Positions: ascending, and exactly the set bits.

  lemma {:induction false} PositionsExact(bits: seq<bool>, offset: int)
    ensures Ascending(Positions(bits, offset))
    ensures forall n :: n in Positions(bits, offset) <==> 0 < n - offset <= |bits| && bits[n - offset - 1]
  {
    if bits != [] {
      var shorter, last := bits[..|bits| - 1], bits[|bits| - 1];
      var init := Positions(shorter, offset);
      PositionsExact(shorter, offset);
      if last {
        AscendingAppend(init, [offset + |bits|]);
      } else {
        assert init + [] == init;
      }
      forall n ensures n in Positions(bits, offset) <==> 0 < n - offset <= |bits| && bits[n - offset - 1] {
        assert n in Positions(bits, offset) <==> n in init || (last && n == offset + |bits|);
        assert 0 < n - offset < |bits| ==> shorter[n - offset - 1] == bits[n - offset - 1];
      }
    }
  }

  lemma AscendingAppend(a: seq<int>, b: seq<int>)
    requires Ascending(a) && Ascending(b)
    requires forall x, y :: x in a && y in b ==> x < y
    ensures Ascending(a + b)
  {
    forall i, j | 0 <= i < j < |a + b| ensures (a + b)[i] < (a + b)[j] {
      if i < |a| <= j {
        assert a[i] in a && b[j - |a|] in b;
      }
    }
  }

  /** Ascending sequences are determined by their members. */
  lemma {:induction false} AscendingUnique(a: seq<int>, b: seq<int>)
    requires Ascending(a) && Ascending(b)
    requires forall n :: n in a <==> n in b
    ensures a == b
  {
    if a == [] {
      assert forall i :: 0 <= i < |b| ==> b[i] in b;
    } else {
      assert a[0] in a && a[0] in b;
      var k :| 0 <= k < |b| && b[k] == a[0];
      assert b[0] in b && b[0] in a;
      assert a[0] == b[0];
      forall n ensures n in a[1..] <==> n in b[1..] {
        if n in a[1..] {
          assert n != a[0] && n in b;
        }
        if n in b[1..] {
          assert n != b[0] && n in a;
        }
      }
      AscendingUnique(a[1..], b[1..]);
      assert a == [a[0]] + a[1..] && b == [b[0]] + b[1..];
    }
  }

  // One field.

  /** A packed field is read back as itself, wherever it stands in the message. */
  lemma FieldReadBack(t: Table, n: int, v: string, w: string, pos: nat)
    requires WellFormed(t) && PackField(t, n, v).Ok?
    requires pos + |PackField(t, n, v).value| <= |w|
    requires w[pos..pos + |PackField(t, n, v).value|] == PackField(t, n, v).value
    ensures UnpackField(t, w, pos, n) == Ok((v, pos + |PackField(t, n, v).value|))
  {
    if t[n].prefix == Fixed {
      ValueReadBack(t, n, v, w, pos, pos);
    } else {
      PrefixedReadBack(t, n, v, PadLeft(Format(DataLen(t[n], v), 10), PrefixDigits(t[n].prefix)), w, pos);
    }
  }

  lemma PrefixedReadBack(t: Table, n: int, v: string, prefix: string, w: string, pos: nat)
    requires WellFormed(t) && n in t && t[n].prefix != Fixed && CheckValue(t[n], v).Ok?
    requires prefix == PadLeft(Format(DataLen(t[n], v), 10), PrefixDigits(t[n].prefix))
    requires pos + |prefix + v| <= |w| && w[pos..pos + |prefix + v|] == prefix + v
    ensures UnpackField(t, w, pos, n) == Ok((v, pos + |prefix + v|))
  {
    PrefixReadBack(t[n], v, prefix, w, pos);
    ValueReadBack(t, n, v, w, pos, pos + PrefixDigits(t[n].prefix));
  }

  lemma ValueReadBack(t: Table, n: int, v: string, w: string, pos: nat, start: nat)
    requires n in t && CheckValue(t[n], v).Ok? && UnpackLength(t[n], w, pos) == Ok((DataLen(t[n], v), start))
    requires start + |v| <= |w| && w[start..start + |v|] == v
    ensures UnpackField(t, w, pos, n) == Ok((v, start + |v|))
  {
  }

  /** The length prefix reads as the data length, and the value follows it. */
  lemma PrefixReadBack(f: FieldSpec, v: string, prefix: string, w: string, pos: nat)
    requires f.prefix != Fixed && f.length <= (if f.prefix == LL then 99 else 999) && DataLen(f, v) <= f.length
    requires prefix == PadLeft(Format(DataLen(f, v), 10), PrefixDigits(f.prefix))
    requires pos + |prefix + v| <= |w| && w[pos..pos + |prefix + v|] == prefix + v
    ensures var start := pos + PrefixDigits(f.prefix);
            && |prefix| == PrefixDigits(f.prefix)
            && UnpackLength(f, w, pos) == Ok((DataLen(f, v), start))
            && start + |v| <= |w| && w[start..start + |v|] == v
  {
    var size, digits := DataLen(f, v), PrefixDigits(f.prefix);
    Hundreds();
    FormatWidth(size, 10, digits);
    ParsePad(Format(size, 10), digits, 10);
    ParseFormat(size, 10);
    TwoSlices(w, pos, prefix, v);
  }

  lemma TwoSlices(w: string, pos: nat, a: string, b: string)
    requires pos + |a| + |b| <= |w| && w[pos..pos + |a + b|] == a + b
    ensures w[pos..pos + |a|] == a && w[pos + |a|..pos + |a| + |b|] == b
  {
    var p := w[pos..pos + |a| + |b|];
    assert w[pos..pos + |a|] == p[..|a|];
    assert w[pos + |a|..pos + |a| + |b|] == p[|a|..];
  }

  lemma Hundreds()
    ensures Pow(10, 2) == 100 && Pow(10, 3) == 1000
  {
    assert Pow(10, 1) == 10 * Pow(10, 0);
  }

  /** A field that was read packs to exactly the text it was read from. */
  lemma FieldWriteBack(t: Table, w: string, pos: nat, n: int)
    requires WellFormed(t) && UnpackField(t, w, pos, n).Ok?
    ensures var (v, next) := UnpackField(t, w, pos, n).value;
            PackField(t, n, v) == Ok(w[pos..next])
  {
    var f := t[n];
    var (v, next) := UnpackField(t, w, pos, n).value;
    var (size, start) := UnpackLength(f, w, pos).value;
    SizeReadBack(f, w, pos, size, start, v, next);
    if f.prefix != Fixed {
      PrefixWriteBack(f, w, pos);
      Joined(w, pos, start, next);
    }
  }

  lemma SizeReadBack(f: FieldSpec, w: string, pos: nat, size: nat, start: nat, v: string, next: nat)
    requires start <= next <= |w| && v == w[start..next]
    requires next - start == if f.kind == Binary then size * 2 else size
    ensures DataLen(f, v) == size
  {
  }

  lemma PrefixWriteBack(f: FieldSpec, w: string, pos: nat)
    requires f.prefix != Fixed && UnpackLength(f, w, pos).Ok?
    ensures var (size, start) := UnpackLength(f, w, pos).value;
            PadLeft(Format(size, 10), PrefixDigits(f.prefix)) == w[pos..start] && start == pos + PrefixDigits(f.prefix)
  {
    FormatParse(w[pos..pos + PrefixDigits(f.prefix)], 10);
  }

  // The run of fields.

  function Without1(numbers: seq<int>): seq<int> {
    if numbers != [] && numbers[0] == 1 then numbers[1..] else numbers
  }

  lemma {:induction false} FieldsReadBack(t: Table, numbers: seq<int>, fields: Fields, w: string, pos: nat, acc: Fields)
    requires WellFormed(t) && Ascending(numbers) && 1 !in numbers
    requires forall n :: n in numbers ==> n in fields
    requires pos <= |w| && PackAll(t, numbers, fields) == Ok(w[pos..])
    ensures UnpackAll(t, w, pos, numbers, acc).Ok?
    ensures var (read, end) := UnpackAll(t, w, pos, numbers, acc).value;
            end == |w| && forall n :: n in numbers ==> n in read && read[n] == fields[n]
    decreases |numbers|
  {
    if numbers != [] {
      var n := numbers[0];
      var head, tail := PackedFirst(t, numbers, fields);
      HeadAndTail(w, pos, head, tail);
      FieldReadBack(t, n, fields[n], w, pos);
      var acc' := acc[n := fields[n]];
      FieldsReadBack(t, numbers[1..], fields, w, pos + |head|, acc');
      var (read, end) := UnpackAll(t, w, pos + |head|, numbers[1..], acc').value;
      FieldsRead(t, w, pos + |head|, numbers[1..], acc', read, end);
      assert n !in numbers[1..] && read[n] == fields[n];
    }
  }

  lemma PackedFirst(t: Table, numbers: seq<int>, fields: Fields) returns (head: string, tail: string)
    requires numbers != [] && (forall n :: n in numbers ==> n in fields) && PackAll(t, numbers, fields).Ok?
    ensures PackField(t, numbers[0], fields[numbers[0]]) == Ok(head) && PackAll(t, numbers[1..], fields) == Ok(tail)
    ensures PackAll(t, numbers, fields) == Ok(head + tail)
  {
    head, tail := PackField(t, numbers[0], fields[numbers[0]]).value, PackAll(t, numbers[1..], fields).value;
  }

  lemma HeadAndTail(w: string, pos: nat, head: string, tail: string)
    requires pos <= |w| && w[pos..] == head + tail
    ensures pos + |head| <= |w| && w[pos..pos + |head|] == head && w[pos + |head|..] == tail
  {
    assert w[pos..pos + |head|] == w[pos..][..|head|];
    assert w[pos + |head|..] == w[pos..][|head|..];
  }

  lemma {:induction false} FieldsRead(t: Table, w: string, pos: nat, numbers: seq<int>, acc: Fields, fields: Fields, end: nat)
    requires 1 !in numbers && pos <= |w|
    requires UnpackAll(t, w, pos, numbers, acc) == Ok((fields, end))
    ensures fields.Keys == acc.Keys + (set n | n in numbers)
    ensures forall n :: n in acc && n !in numbers ==> fields[n] == acc[n]
    decreases |numbers|
  {
    if numbers != [] {
      var n := numbers[0];
      var (v, next) := UnpackField(t, w, pos, n).value;
      FieldsRead(t, w, next, numbers[1..], acc[n := v], fields, end);
      assert forall m :: m in numbers <==> m == n || m in numbers[1..];
    }
  }

  lemma {:induction false} FieldsWriteBack(t: Table, w: string, pos: nat, numbers: seq<int>, acc: Fields, fields: Fields, end: nat)
    requires WellFormed(t) && Ascending(numbers) && 1 !in numbers && pos <= |w|
    requires UnpackAll(t, w, pos, numbers, acc) == Ok((fields, end))
    requires forall n :: n in numbers ==> n in fields
    ensures PackAll(t, numbers, fields) == Ok(w[pos..end])
    decreases |numbers|
  {
    if numbers == [] {
      assert w[pos..pos] == "";
    } else {
      var n := numbers[0];
      var (v, next) := UnpackField(t, w, pos, n).value;
      FieldsRead(t, w, next, numbers[1..], acc[n := v], fields, end);
      assert n !in numbers[1..] && fields[n] == v;
      FieldsWriteBack(t, w, next, numbers[1..], acc[n := v], fields, end);
      FieldWriteBack(t, w, pos, n);
      Joined(w, pos, next, end);
    }
  }

  lemma Joined(w: string, a: nat, b: nat, c: nat)
    requires a <= b <= c <= |w|
    ensures w[a..b] + w[b..c] == w[a..c]
  {
  }

  lemma {:induction false} SkipOne(t: Table, w: string, pos: nat, numbers: seq<int>, acc: Fields)
    requires Ascending(numbers) && pos <= |w|
    ensures UnpackAll(t, w, pos, Without1(numbers), acc) == UnpackAll(t, w, pos, numbers, acc)
  {
  }

  lemma {:induction false} PackedKeysKnown(t: Table, numbers: seq<int>, fields: Fields)
    requires forall n :: n in numbers ==> n in fields
    requires PackAll(t, numbers, fields).Ok?
    ensures forall n :: n in numbers ==> n in t
  {
    if numbers != [] {
      PackedKeysKnown(t, numbers[1..], fields);
    }
  }

  // Bitmaps of a whole message.

  lemma FirstIsLeast(r: seq<int>, m: int)
    requires Ascending(r) && m in r
    requires forall n :: n in r ==> m <= n
    ensures r[0] == m
  {
    assert r[0] in r;
  }

  /** What UnpackBitmaps found in w: its numbers and where the elements start. */
  ghost predicate NumbersAre(w: string, low: seq<bool>, high: seq<bool>, numbers: seq<int>, start: nat) {
    && |low| == 64 && |high| == 64
    && Ascending(numbers)
    && (forall n :: n in numbers <==> (1 <= n <= 64 && low[n - 1]) || (low[0] && 65 <= n <= 128 && high[n - 65]))
    && start == (if low[0] then 36 else 20)
    && UnpackBitmaps(w, 4) == Ok((numbers, start))
  }

  /** Reading the bitmaps: bit 1 announces the second page, and the numbers are the set bits. */
  lemma BitmapsRead(w: string, high: seq<bool>) returns (numbers: seq<int>, start: nat)
    requires |w| >= 20 && IsNumeral(w[4..20], 16) && |high| == 64
    requires PageOf(w[4..20])[0] ==> |w| >= 36 && IsNumeral(w[20..36], 16) && PageOf(w[20..36]) == high
    ensures NumbersAre(w, PageOf(w[4..20]), high, numbers, start)
  {
    var low := PageOf(w[4..20]);
    numbers, start := NumbersOf(low, high), if low[0] then 36 else 20;
    NumbersOfExact(low, high);
    FirstAnnounces(low);
    BitmapsTaken(w, low, high);
  }

  /** The first number read is 1 exactly when bit 1 is set. */
  lemma FirstAnnounces(low: seq<bool>)
    requires low != []
    ensures Positions(low, 0) != [] && Positions(low, 0)[0] == 1 <==> low[0]
  {
    PositionsExact(low, 0);
    if low[0] {
      FirstIsLeast(Positions(low, 0), 1);
    } else {
      assert Positions(low, 0) != [] ==> Positions(low, 0)[0] in Positions(low, 0);
    }
  }

  lemma BitmapsTaken(w: string, low: seq<bool>, high: seq<bool>)
    requires |w| >= 20 && IsNumeral(w[4..20], 16) && low == PageOf(w[4..20]) && low != []
    requires low[0] ==> |w| >= 36 && IsNumeral(w[20..36], 16) && PageOf(w[20..36]) == high
    requires Positions(low, 0) != [] && Positions(low, 0)[0] == 1 <==> low[0]
    ensures UnpackBitmaps(w, 4) == Ok((NumbersOf(low, high), if low[0] then 36 else 20))
  {
  }

  function NumbersOf(low: seq<bool>, high: seq<bool>): seq<int>
    requires low != []
  {
    if low[0] then Positions(low, 0) + Positions(high, 64) else Positions(low, 0)
  }

  lemma NumbersOfExact(low: seq<bool>, high: seq<bool>)
    requires |low| == 64 && |high| == 64
    ensures Ascending(NumbersOf(low, high))
    ensures forall n :: n in NumbersOf(low, high) <==> (1 <= n <= 64 && low[n - 1]) || (low[0] && 65 <= n <= 128 && high[n - 65])
  {
    PositionsExact(low, 0);
    PositionsExact(high, 64);
    if low[0] {
      AscendingAppend(Positions(low, 0), Positions(high, 64));
    }
  }

  /** The numbers a packed message's bitmaps name, read back from the message. */
  lemma BitmapsReadBack(fields: Fields, w: string) returns (numbers: seq<int>)
    requires forall n :: n in fields ==> 2 <= n <= 128
    requires |w| >= 4 + |Bitmaps(fields)|
    requires w[4..4 + |Bitmaps(fields)|] == Bitmaps(fields)
    ensures UnpackBitmaps(w, 4) == Ok((numbers, 4 + |Bitmaps(fields)|))
    ensures Ascending(numbers)
    ensures forall n :: n in numbers <==> n in PresenceOf(fields)
  {
    var present := PresenceOf(fields);
    BitmapReadBack(present, 0);
    BitmapReadBack(present, 1);
    var text := Bitmaps(fields);
    if NeedsSecondary(fields) {
      TwoSlices(w, 4, BitmapHex(present, 0), BitmapHex(present, 1));
    }
    assert w[4..20] == BitmapHex(present, 0);
    var start: nat;
    numbers, start := BitmapsRead(w, PageBits(present, 1));
  }

  lemma RestMembers(numbers: seq<int>)
    requires Ascending(numbers)
    requires forall n :: n in numbers ==> n >= 1
    ensures Ascending(Without1(numbers)) && 1 !in Without1(numbers)
    ensures forall n :: n in Without1(numbers) <==> n in numbers && n != 1
  {
    if 1 in numbers {
      FirstIsLeast(numbers, 1);
      assert numbers == [1] + numbers[1..];
    }
  }

  /**
   Unpack undoes Pack: whatever Pack accepts comes back as the same MTI and the same elements,
   whatever the (well-formed) field table.
   */
  lemma UnpackUndoesPack(t: Table, mti: string, fields: Fields)
    requires WellFormed(t) && Pack(t, mti, fields).Ok?
    ensures Unpack(t, Pack(t, mti, fields).value) == Ok((mti, fields))
  {
    var w := Pack(t, mti, fields).value;
    PackedParts(t, mti, fields, w);
    PackedKeys(t, fields);
    var numbers := BitmapsReadBack(fields, w);
    BodyReadBack(t, fields, w, 4 + |Bitmaps(fields)|, numbers);
    UnpackParts(t, w, numbers, 4 + |Bitmaps(fields)|);
  }

  lemma BodyReadBack(t: Table, fields: Fields, w: string, start: nat, numbers: seq<int>)
    requires WellFormed(t) && start <= |w| && forall n :: n in fields ==> 2 <= n
    requires Ascending(numbers) && forall n :: n in numbers <==> n in PresenceOf(fields)
    requires PackAll(t, Sorted(fields.Keys), fields) == Ok(w[start..])
    ensures UnpackAll(t, w, start, numbers, map[]) == Ok((fields, |w|))
  {
    var sorted := Sorted(fields.Keys);
    RestMembers(numbers);
    AscendingUnique(Without1(numbers), sorted);
    SkipOne(t, w, start, numbers, map[]);
    FieldsReadBack(t, sorted, fields, w, start, map[]);
    var (read, end) := UnpackAll(t, w, start, sorted, map[]).value;
    FieldsRead(t, w, start, sorted, map[], read, end);
    SameFields(read, fields);
  }

  lemma SameFields(a: Fields, b: Fields)
    requires forall n :: n in a <==> n in b
    requires forall n :: n in b ==> n in a && a[n] == b[n]
    ensures a == b
  {
    assert forall n :: n in a <==> n in b;
    assert forall n :: n in b ==> n in a && a[n] == b[n];
  }

  lemma PackedKeys(t: Table, fields: Fields)
    requires WellFormed(t) && 1 !in fields && PackAll(t, Sorted(fields.Keys), fields).Ok?
    ensures forall n :: n in fields ==> n in t && 2 <= n <= 128
  {
    var sorted := Sorted(fields.Keys);
    PackedKeysKnown(t, sorted, fields);
    forall n | n in fields ensures n in t && 2 <= n <= 128 {
      assert n in sorted;
    }
  }

  /** Where the parts of a packed message stand. */
  lemma PackedParts(t: Table, mti: string, fields: Fields, w: string)
    requires WellFormed(t) && Pack(t, mti, fields) == Ok(w)
    ensures 1 !in fields && |w| >= 4 + |Bitmaps(fields)|
    ensures w[0..4] == mti && IsNumeral(w[0..4], 10)
    ensures w[4..4 + |Bitmaps(fields)|] == Bitmaps(fields)
    ensures PackAll(t, Sorted(fields.Keys), fields) == Ok(w[4 + |Bitmaps(fields)|..])
  {
    ThreeParts(mti, Bitmaps(fields), PackAll(t, Sorted(fields.Keys), fields).value, w);
  }

  /** Unpack is its three stages. */
  lemma UnpackParts(t: Table, w: string, numbers: seq<int>, start: nat)
    requires |w| >= 4 && IsNumeral(w[0..4], 10)
    requires UnpackBitmaps(w, 4) == Ok((numbers, start))
    ensures Unpack(t, w).Ok? <==>
              UnpackAll(t, w, start, numbers, map[]).Ok? && UnpackAll(t, w, start, numbers, map[]).value.1 == |w|
    ensures Unpack(t, w).Ok? ==> Unpack(t, w).value == (w[0..4], UnpackAll(t, w, start, numbers, map[]).value.0)
  {
  }

  lemma ThreeParts(a: string, b: string, c: string, w: string)
    requires w == a + b + c
    ensures w[0..|a|] == a && w[|a|..|a| + |b|] == b && w[|a| + |b|..] == c
  {
  }

  /** The wire text sets bit 1 and then carries an all-zero secondary bitmap. */
  predicate EmptySecondary(w: string) {
    && |w| >= 36
    && IsNumeral(w[4..20], 16) && IsNumeral(w[20..36], 16)
    && PageOf(w[4..20])[0]
    && Parse(w[20..36], 16) == 0
  }

  lemma {:induction false} ZeroBits(width: nat)
    ensures ValueBits(0, width) == seq(width, i => false)
  {
    if width > 0 {
      ZeroBits(width - 1);
    }
  }

  lemma {:induction false} NonZeroBits(value: nat, width: nat)
    requires 0 < value < Pow(2, width)
    ensures exists i :: 0 <= i < width && ValueBits(value, width)[i]
  {
    if width > 0 {
      var bits := ValueBits(value, width);
      if value % 2 == 1 {
        assert bits[width - 1];
      } else {
        NonZeroBits(value / 2, width - 1);
        var i :| 0 <= i < width - 1 && ValueBits(value / 2, width - 1)[i];
        assert bits[i];
      }
    }
  }

  /** A page has a set bit exactly when its value is not zero. */
  lemma PageEmpty(text: string)
    requires IsNumeral(text, 16) && |text| == 16
    ensures Parse(text, 16) == 0 <==> forall i :: 0 <= i < 64 ==> !PageOf(text)[i]
  {
    ZeroBits(4 * |text|);
    if Parse(text, 16) != 0 {
      ParseBound(text, 16);
      Sixteen(|text|);
      NonZeroBits(Parse(text, 16), 4 * |text|);
      var i :| 0 <= i < 4 * |text| && ValueBits(Parse(text, 16), 4 * |text|)[i];
      assert PageOf(text)[i];
    }
  }

  /** The elements and the body text of an accepted message, and the numbers its bitmaps name. */
  lemma AcceptedBody(t: Table, w: string, fields: Fields, numbers: seq<int>, start: nat)
    requires WellFormed(t) && start <= |w|
    requires UnpackAll(t, w, start, numbers, map[]) == Ok((fields, |w|))
    requires Ascending(numbers) && forall n :: n in numbers ==> n >= 1
    ensures forall n :: n in fields <==> n in numbers && n != 1
    ensures PackAll(t, Sorted(fields.Keys), fields) == Ok(w[start..])
  {
    RestMembers(numbers);
    SkipOne(t, w, start, numbers, map[]);
    var rest := Without1(numbers);
    FieldsRead(t, w, start, rest, map[], fields, |w|);
    FieldsWriteBack(t, w, start, rest, map[], fields, |w|);
    AscendingUnique(rest, Sorted(fields.Keys));
    DropToEnd(w, start);
  }

  lemma DropToEnd(w: string, k: nat)
    requires k <= |w|
    ensures w[k..|w|] == w[k..]
  {
  }

  /** The pages Pack writes for the elements that the pages low and high announced. */
  lemma PagesAgain(w: string, fields: Fields, low: seq<bool>, high: seq<bool>, numbers: seq<int>, start: nat)
    requires NumbersAre(w, low, high, numbers, start)
    requires forall n :: n in fields <==> n in numbers && n != 1
    ensures NeedsSecondary(fields) <==> low[0] && exists i :: 0 <= i < 64 && high[i]
    ensures NeedsSecondary(fields) == low[0] ==> PageBits(PresenceOf(fields), 0) == low
    ensures NeedsSecondary(fields) ==> PageBits(PresenceOf(fields), 1) == high
  {
    if low[0] && exists i :: 0 <= i < 64 && high[i] {
      var i :| 0 <= i < 64 && high[i];
      assert i + 65 in numbers;
    }
  }

  /**
   Pack undoes Unpack: an accepted wire text repacks to itself exactly when it does not announce an
   empty secondary bitmap. The excepted text repacks too, to a text 16 characters shorter.
   */
  lemma PackUndoesUnpack(t: Table, w: string)
    requires WellFormed(t) && Unpack(t, w).Ok?
    ensures var (mti, fields) := Unpack(t, w).value;
            && Pack(t, mti, fields).Ok?
            && (Pack(t, mti, fields).value == w <==> !EmptySecondary(w))
            && (EmptySecondary(w) ==> |Pack(t, mti, fields).value| == |w| - 16)
  {
    var (mti, fields) := Unpack(t, w).value;
    var low := PageOf(w[4..20]);
    if low[0] {
      SecondPageRead(w);
    }
    var high := if low[0] then PageOf(w[20..36]) else seq(64, i => false);
    var numbers, start := BitmapsRead(w, high);
    UnpackParts(t, w, numbers, start);
    AcceptedBody(t, w, fields, numbers, start);
    PagesAgain(w, fields, low, high, numbers, start);
    BitmapsAgain(w, fields, low, high, start);
    if !EmptySecondary(w) {
      Reassemble(w, start);
    }
  }

  /** The bitmap text Pack writes for an accepted message, next to the text that was read. */
  lemma BitmapsAgain(w: string, fields: Fields, low: seq<bool>, high: seq<bool>, start: nat)
    requires |w| >= start >= 20 && IsNumeral(w[4..20], 16) && low == PageOf(w[4..20])
    requires low[0] ==> |w| >= 36 && IsNumeral(w[20..36], 16) && high == PageOf(w[20..36])
    requires start == if low[0] then 36 else 20
    requires NeedsSecondary(fields) <==> low[0] && exists i :: 0 <= i < |high| && high[i]
    requires NeedsSecondary(fields) == low[0] ==> PageBits(PresenceOf(fields), 0) == low
    requires NeedsSecondary(fields) ==> PageBits(PresenceOf(fields), 1) == high
    ensures !EmptySecondary(w) ==> Bitmaps(fields) == w[4..start]
    ensures EmptySecondary(w) ==> start == 36 && |Bitmaps(fields)| == 16
  {
    var present := PresenceOf(fields);
    BitmapReadBack(present, 0);
    if low[0] {
      PageEmpty(w[20..36]);
    }
    if !EmptySecondary(w) {
      BitmapWriteBack(w[4..20], present, 0);
      if low[0] {
        BitmapWriteBack(w[20..36], present, 1);
        Joined(w, 4, 20, 36);
      } else {
        assert w[4..20] + "" == w[4..20];
      }
    }
  }

  lemma SecondPageRead(w: string)
    requires UnpackBitmaps(w, 4).Ok? && PageOf(w[4..20])[0]
    ensures |w| >= 36 && IsNumeral(w[20..36], 16)
  {
    var low := Positions(PageOf(w[4..20]), 0);
    PositionsExact(PageOf(w[4..20]), 0);
    FirstIsLeast(low, 1);
  }

  lemma Reassemble(w: string, start: nat)
    requires 4 <= start <= |w|
    ensures w[0..4] + w[4..start] + w[start..] == w
  {
  }

  /** Announcing an empty second page is accepted: the exception of PackUndoesUnpack is not vacuous. */
  lemma EmptySecondaryAccepted(t: Table, mti: string, first: string, second: string)
    requires |mti| == 4 && IsNumeral(mti, 10)
    requires |first| == 16 && IsNumeral(first, 16)
    requires PageOf(first)[0] && forall i :: 1 <= i < 64 ==> !PageOf(first)[i]
    requires |second| == 16 && IsNumeral(second, 16) && Parse(second, 16) == 0
    ensures Unpack(t, mti + first + second) == Ok((mti, map[])) && EmptySecondary(mti + first + second)
  {
    var w := mti + first + second;
    ThreeParts(mti, first, second, w);
    DropToEnd(w, 20);
    PageEmpty(second);
    var numbers, start := BitmapsRead(w, PageOf(second));
    assert forall n :: n in numbers <==> n == 1;
    AscendingUnique(numbers, [1]);
    assert numbers[1..] == [];
    UnpackParts(t, w, numbers, start);
  }

  lemma EmptySecondaryExists(t: Table)
    ensures exists w :: Unpack(t, w).Ok? && EmptySecondary(w)
  {
    var first, second := "8" + seq(15, i => '0'), seq(16, i => '0');
    EightFirst(first);
    ZerosParse(16);
    assert IsNumeral("0800", 10);
    EmptySecondaryAccepted(t, "0800", first, second);
  }

  lemma {:induction false} ZerosParse(k: nat)
    ensures IsNumeral(seq(k, i => '0'), 16) && Parse(seq(k, i => '0'), 16) == 0
  {
    var z := seq(k, i => '0');
    if k > 0 {
      ZerosParse(k - 1);
      assert z[..k - 1] == seq(k - 1, i => '0');
    }
  }

  lemma EightFirst(b: string)
    requires b == "8" + seq(15, i => '0')
    ensures IsNumeral(b, 16) && |b| == 16
    ensures PageOf(b)[0] && forall i :: 1 <= i < 64 ==> !PageOf(b)[i]
  {
    var k := |b| - 1;
    EightParse(k);
    var bits := [true] + seq(4 * k + 3, i => false);
    OneThenZeros(4 * k + 3);
    Sixteen(k);
    assert Pow(2, 4 * k + 3) == 2 * Pow(2, 4 * k + 2) == 4 * Pow(2, 4 * k + 1) == 8 * Pow(2, 4 * k);
    BitsOfValue(bits);
    assert |bits| == 4 * |b|;
  }

  lemma {:induction false} EightParse(k: nat)
    ensures IsNumeral("8" + seq(k, i => '0'), 16)
    ensures Parse("8" + seq(k, i => '0'), 16) == 8 * Pow(16, k)
  {
    var s := "8" + seq(k, i => '0');
    if k == 0 {
      assert s == "8" && s[..0] == [];
      assert Parse(s[..0], 16) == 0;
      assert DigitValue('8') == 8;
    } else {
      EightParse(k - 1);
      assert s[..k] == "8" + seq(k - 1, i => '0');
      assert s[k] == '0' && DigitValue('0') == 0;
    }
  }

  lemma {:induction false} OneThenZeros(k: nat)
    ensures BitsValue([true] + seq(k, i => false)) == Pow(2, k)
  {
    var b := [true] + seq(k, i => false);
    if k == 0 {
      assert b[..0] == [];
    } else {
      OneThenZeros(k - 1);
      assert b[..k] == [true] + seq(k - 1, i => false);
    }
  }
}
