/**
 The codec as the gateway runs it: a cursor over the packed text, bitmap loops, an in-place sort of
 the field numbers and accumulating loops, each proved to compute the function it stands for.
 */
module CodecMethods {
  import opened Numerals
  import opened Codec
  import opened CodecProofs

  /** taker: reads fixed-width slices off a wire message, reporting truncation. */
  class Taker {
    const packed: string
    var pos: nat

    constructor (packed: string)
      ensures this.packed == packed && pos == 0
    {
      this.packed := packed;
      pos := 0;
    }

    method Take(count: nat) returns (r: Result<string>)
      requires pos <= |packed|
      modifies this
      ensures r == Codec.Take(packed, old(pos), count)
      ensures pos == if r.Ok? then old(pos) + count else old(pos)
      ensures pos <= |packed|
    {
      if pos + count > |packed| {
        return Err(Truncated, 0);
      }
      r := Ok(packed[pos..pos + count]);
      pos := pos + count;
    }
  }

  // Sorting the field numbers.

  /** sortInts: insertion sort in place. */
  method SortInts(a: array<int>)
    modifies a
    ensures forall i, j :: 0 <= i < j < a.Length ==> a[i] <= a[j]
    ensures multiset(a[..]) == multiset(old(a[..]))
  {
    var i := 1;
    while i < a.Length
      invariant 1 <= i
      invariant forall p, q :: 0 <= p < q < i && q < a.Length ==> a[p] <= a[q]
      invariant multiset(a[..]) == multiset(old(a[..]))
    {
      var j := i;
      while j > 0 && a[j - 1] > a[j]
        invariant 0 <= j <= i
        invariant forall p, q :: 0 <= p < q <= i && q != j ==> a[p] <= a[q]
        invariant multiset(a[..]) == multiset(old(a[..]))
      {
        a[j - 1], a[j] := a[j], a[j - 1];
        j := j - 1;
      }
      i := i + 1;
    }
  }

  /** A sorted listing of distinct numbers is ascending, and a listing of the same numbers. */
  lemma SortedListing(before: seq<int>, after: seq<int>, keys: set<int>)
    requires forall n :: n in before <==> n in keys
    requires forall i, j :: 0 <= i < j < |before| ==> before[i] != before[j]
    requires forall i, j :: 0 <= i < j < |after| ==> after[i] <= after[j]
    requires multiset(after) == multiset(before)
    ensures after == Sorted(keys)
  {
    forall n ensures n in after <==> n in keys {
      assert n in after <==> n in multiset(after);
      assert n in before <==> n in multiset(before);
    }
    forall i, j | 0 <= i < j < |after| ensures after[i] < after[j] {
      if after[i] == after[j] {
        Twice(after, i, j);
        Once(before, after[i]);
        assert false;
      }
    }
    AscendingUnique(after, Sorted(keys));
  }

  lemma Twice(s: seq<int>, i: nat, j: nat)
    requires i < j < |s| && s[i] == s[j]
    ensures multiset(s)[s[i]] >= 2
  {
    assert s == s[..i] + [s[i]] + s[i + 1..j] + [s[j]] + s[j + 1..];
  }

  lemma {:induction false} Once(s: seq<int>, x: int)
    requires forall i, j :: 0 <= i < j < |s| ==> s[i] != s[j]
    ensures multiset(s)[x] <= 1
  {
    if s != [] {
      Once(s[1..], x);
      assert s == [s[0]] + s[1..];
      if s[0] == x {
        assert x !in s[1..];
      }
    }
  }

  /** The numbers of a map in no particular order, as ranging over a Go map yields them. */
  method KeysOf(fields: Fields) returns (keys: seq<int>)
    ensures forall n :: n in keys <==> n in fields.Keys
    ensures forall i, j :: 0 <= i < j < |keys| ==> keys[i] != keys[j]
  {
    keys := [];
    var left := fields.Keys;
    while left != {}
      invariant left <= fields.Keys
      invariant forall n :: n in keys <==> n in fields.Keys - left
      invariant forall i, j :: 0 <= i < j < |keys| ==> keys[i] != keys[j]
      decreases left
    {
      Inhabited(left);
      var n :| n in left;
      assert forall i :: 0 <= i < |keys| ==> keys[i] in keys;
      keys := keys + [n];
      left := left - {n};
    }
  }

  // Bitmaps.

  /** value >> k. */
  function ShiftRight(value: nat, k: nat): nat {
    if k == 0 then value else ShiftRight(value / 2, k - 1)
  }

  lemma {:induction false} BitAt(value: nat, width: nat, i: nat)
    requires i < width
    ensures ValueBits(value, width)[i] == (ShiftRight(value, width - 1 - i) % 2 == 1)
    decreases width
  {
    if i < width - 1 {
      BitAt(value / 2, width - 1, i);
    }
  }

  /** bitPositions: tests bit 63-i of the value for i from 0 to 63. */
  method BitPositions(value: nat, offset: int, width: nat) returns (numbers: seq<int>)
    ensures numbers == Positions(ValueBits(value, width), offset)
  {
    numbers := [];
    var bits := ValueBits(value, width);
    var i := 0;
    while i < width
      invariant 0 <= i <= width
      invariant numbers == Positions(bits[..i], offset)
    {
      BitAt(value, width, i);
      if ShiftRight(value, width - 1 - i) % 2 == 1 {
        numbers := numbers + [offset + i + 1];
      }
      i := i + 1;
      assert bits[..i][..i - 1] == bits[..i - 1];
    }
    assert bits[..width] == bits;
  }

  /** The bits set so far, shifted to their place. */
  lemma BitsValueStep(bits: seq<bool>, i: nat)
    requires i < |bits|
    ensures BitsValue(bits[..i + 1]) * Pow(2, |bits| - i - 1)
         == BitsValue(bits[..i]) * Pow(2, |bits| - i) + (if bits[i] then Pow(2, |bits| - i - 1) else 0)
  {
    assert bits[..i + 1][..i] == bits[..i];
    var v, p := BitsValue(bits[..i]), Pow(2, |bits| - i - 1);
    assert Pow(2, |bits| - i) == 2 * p;
    assert v * (2 * p) == 2 * v * p;
    assert (2 * v + 1) * p == 2 * v * p + p;
  }

  /** bitmapHex: sets bit 63-i of the value for each present number, then formats and pads it. */
  method WriteBitmap(present: set<int>, page: nat) returns (text: string)
    ensures text == BitmapHex(present, page)
  {
    var value := PageValue(present, page, 64);
    text := Pad(Format(value, 16), 64 / 4);
  }

  method PageValue(present: set<int>, page: nat, size: nat) returns (value: nat)
    requires size == |PageBits(present, page)|
    ensures value == BitsValue(PageBits(present, page))
  {
    ghost var bits := PageBits(present, page);
    value := 0;
    var i := 0;
    while i < size
      invariant 0 <= i <= size
      invariant value == BitsValue(bits[..i]) * Pow(2, size - i)
    {
      BitsValueStep(bits, i);
      if page * 64 + i + 1 in present {
        value := value + Pow(2, size - 1 - i);
      }
      i := i + 1;
    }
    assert bits[..size] == bits;
    assert Pow(2, 0) == 1;
  }

  /** pad16 and padN: prepends zeros until the text is wide enough. */
  method Pad(s: string, width: nat) returns (r: string)
    ensures r == PadLeft(s, width)
  {
    r := s;
    while |r| < width
      invariant PadLeft(r, width) == PadLeft(s, width)
      decreases width - |r|
    {
      r := "0" + r;
    }
  }

  // Pack.

  /** Packing one run of fields after another. */
  lemma {:induction false} PackAllAppend(t: Table, a: seq<int>, b: seq<int>, fields: Fields)
    requires forall n :: n in a || n in b ==> n in fields
    requires forall n :: n in a + b ==> n in fields
    requires PackAll(t, a, fields).Ok?
    ensures PackAll(t, a + b, fields) ==
              (if PackAll(t, b, fields).Err? then PackAll(t, b, fields)
               else Ok(PackAll(t, a, fields).value + PackAll(t, b, fields).value))
  {
    if a == [] {
      assert a + b == b;
      assert PackAll(t, b, fields).Ok? ==> "" + PackAll(t, b, fields).value == PackAll(t, b, fields).value;
    } else {
      assert (a + b)[1..] == a[1..] + b;
      PackAllAppend(t, a[1..], b, fields);
      if PackAll(t, b, fields).Ok? {
        var h, m, l := PackField(t, a[0], fields[a[0]]).value, PackAll(t, a[1..], fields).value, PackAll(t, b, fields).value;
        assert h + (m + l) == (h + m) + l;
      }
    }
  }

  /** Pack: collects and sorts the numbers, writes the bitmaps, then appends field after field. */
  method PackMessage(t: Table, mti: string, fields: Fields) returns (r: Result<string>)
    ensures r == Pack(t, mti, fields)
  {
    if |mti| != 4 || !IsNumeral(mti, 10) {
      return Err(InvalidMti, 0);
    }
    if 1 in fields {
      return Err(UnknownField, 0);
    }
    var keys := KeysOf(fields);
    var numbers := new int[|keys|](i requires 0 <= i < |keys| => keys[i]);
    assert numbers[..] == keys;
    SortInts(numbers);
    SortedListing(keys, numbers[..], fields.Keys);
    var sorted := numbers[..];

    var present := PresenceOf(fields);
    var text := WriteBitmap(present, 0);
    var maps := text;
    if NeedsSecondary(fields) {
      text := WriteBitmap(present, 1);
      maps := maps + text;
    } else {
      assert maps + "" == maps;
    }
    r := AppendFields(t, mti + maps, sorted, fields);
  }

  /** The loop that appends every packed field to the builder. */
  method AppendFields(t: Table, start: string, numbers: seq<int>, fields: Fields) returns (r: Result<string>)
    requires forall n :: n in numbers ==> n in fields
    ensures PackAll(t, numbers, fields).Err? ==> r.Err? && r == PackAll(t, numbers, fields)
    ensures PackAll(t, numbers, fields).Ok? ==> r == Ok(start + PackAll(t, numbers, fields).value)
  {
    var b := start;
    var i := 0;
    while i < |numbers|
      invariant 0 <= i <= |numbers|
      invariant forall n :: n in numbers[..i] || n in numbers[i..] ==> n in fields
      invariant PackAll(t, numbers[..i], fields).Ok?
      invariant b == start + PackAll(t, numbers[..i], fields).value
    {
      var packed := PackField(t, numbers[i], fields[numbers[i]]);
      FieldAppended(t, numbers, i, fields);
      if packed.Err? {
        return packed;
      }
      assert (start + PackAll(t, numbers[..i], fields).value) + packed.value
          == start + (PackAll(t, numbers[..i], fields).value + packed.value);
      b := b + packed.value;
      i := i + 1;
    }
    assert numbers[..|numbers|] == numbers;
    r := Ok(b);
  }

  lemma FieldAppended(t: Table, numbers: seq<int>, i: nat, fields: Fields)
    requires i < |numbers| && forall n :: n in numbers ==> n in fields
    requires forall n :: n in numbers[..i] || n in numbers[i..] ==> n in fields
    requires PackAll(t, numbers[..i], fields).Ok?
    ensures forall n :: n in numbers[..i + 1] || n in numbers[i + 1..] ==> n in fields
    ensures var packed := PackField(t, numbers[i], fields[numbers[i]]);
            if packed.Err? then PackAll(t, numbers, fields) == packed
            else PackAll(t, numbers[..i + 1], fields) == Ok(PackAll(t, numbers[..i], fields).value + packed.value)
  {
    var packed := PackField(t, numbers[i], fields[numbers[i]]);
    var one := [numbers[i]];
    assert one[1..] == [];
    assert PackAll(t, one[1..], fields) == Ok("");
    assert packed.Ok? ==> packed.value + "" == packed.value;
    assert PackAll(t, one, fields) == packed;
    if packed.Ok? {
      assert numbers[..i + 1] == numbers[..i] + one;
      PackAllAppend(t, numbers[..i], one, fields);
    } else {
      assert numbers == numbers[..i] + numbers[i..];
      PackAllAppend(t, numbers[..i], numbers[i..], fields);
      assert numbers[i..][0] == numbers[i];
    }
  }

  // Unpack, and Unpack with the consumed slices.

  /** One slice of the wire message in read order: what it is, and its exact text. */
  datatype Segment = Mti(text: string) | PrimaryBitmap(text: string) | SecondaryBitmap(text: string) | Element(de: int, text: string)

  function Concat(segments: seq<Segment>): string {
    if segments == [] then "" else Concat(segments[..|segments| - 1]) + segments[|segments| - 1].text
  }

  lemma ConcatAppend(segments: seq<Segment>, s: Segment)
    ensures Concat(segments + [s]) == Concat(segments) + s.text
  {
    assert (segments + [s])[..|segments|] == segments;
  }

  method ReadBitmaps(k: Taker) returns (r: Result<seq<int>>)
    requires k.pos == 4 && 4 <= |k.packed|
    modifies k
    ensures UnpackBitmaps(k.packed, 4) == if r.Ok? then Ok((r.value, k.pos)) else Err(r.code, r.de)
    ensures k.pos <= |k.packed|
  {
    var primary :- k.Take(16);
    if !IsNumeral(primary, 16) {
      return Err(InvalidBitmap, 0);
    }
    var numbers := BitPositions(Parse(primary, 16), 0, 4 * |primary|);
    if numbers == [] || numbers[0] != 1 {
      return Ok(numbers);
    }
    var secondary :- k.Take(16);
    if !IsNumeral(secondary, 16) {
      return Err(InvalidBitmap, 0);
    }
    var high := BitPositions(Parse(secondary, 16), 64, 4 * |secondary|);
    return Ok(numbers + high);
  }

  method ReadField(k: Taker, t: Table, n: int) returns (r: Result<string>)
    requires k.pos <= |k.packed|
    modifies k
    ensures k.pos <= |k.packed|
    ensures UnpackField(t, k.packed, old(k.pos), n) == if r.Ok? then Ok((r.value, k.pos)) else Err(r.code, r.de)
  {
    if n !in t {
      return Err(UnknownField, n);
    }
    var f := t[n];
    var size := f.length;
    if f.prefix != Fixed {
      var digits := 2;
      if f.prefix == LLL {
        digits := 3;
      }
      var raw :- k.Take(digits);
      if !IsNumeral(raw, 10) {
        return Err(InvalidLength, f.number);
      }
      size := Parse(raw, 10);
      if size > f.length {
        return Err(InvalidLength, f.number);
      }
    }
    var width := size;
    if f.kind == Binary {
      width := size * 2;
    }
    var value :- k.Take(width);
    var _ :- CheckValue(f, value);
    return Ok(value);
  }

  /**
   UnpackSegmented: accepts exactly the texts Unpack accepts, with the same result, and returns the
   consumed slices, which concatenate to the input.
   */
  method UnpackSegmented(t: Table, packed: string) returns (r: Result<(string, Fields)>, segments: seq<Segment>)
    ensures r == Unpack(t, packed)
    ensures r.Ok? ==> Concat(segments) == packed
  {
    segments := [];
    var k := new Taker(packed);
    var mti := k.Take(4);
    if mti.Err? {
      return Err(mti.code, mti.de), [];
    }
    if !IsNumeral(mti.value, 10) {
      return Err(InvalidMti, 0), [];
    }
    ConcatAppend([], Mti(mti.value));
    segments := [Mti(mti.value)];
    assert Concat(segments) == packed[..4] by {
      assert [] + [Mti(mti.value)] == segments && "" + mti.value == packed[..4];
    }
    var fields: Result<Fields>;
    fields, segments := ReadBody(k, t, segments);
    if fields.Err? {
      return Err(fields.code, fields.de), [];
    }
    return Ok((mti.value, fields.value)), segments;
  }

  /** What follows the MTI, to the end of the text. */
  function Body(t: Table, packed: string): Result<Fields>
    requires |packed| >= 4
  {
    var (numbers, start) :- UnpackBitmaps(packed, 4);
    var (fields, end) :- UnpackAll(t, packed, start, numbers, map[]);
    if end != |packed| then Err(TrailingData, 0) else Ok(fields)
  }

  method ReadBody(k: Taker, t: Table, before: seq<Segment>) returns (r: Result<Fields>, segments: seq<Segment>)
    requires k.pos == 4 <= |k.packed| && Concat(before) == k.packed[..4]
    modifies k
    ensures r == Body(t, k.packed)
    ensures r.Ok? ==> Concat(segments) == k.packed
  {
    segments := before;
    var bitmaps := ReadBitmaps(k);
    if bitmaps.Err? {
      return Err(bitmaps.code, bitmaps.de), [];
    }
    segments := BitmapSegments(k.packed, k.pos, segments);
    r, segments := ReadElements(k, t, bitmaps.value, segments);
    if r.Ok? && k.pos != |k.packed| {
      return Err(TrailingData, 0), [];
    }
    assert k.packed[..|k.packed|] == k.packed;
  }

  /** The loop over the announced numbers. */
  method ReadElements(k: Taker, t: Table, numbers: seq<int>, before: seq<Segment>) returns (r: Result<Fields>, segments: seq<Segment>)
    requires k.pos <= |k.packed| && Concat(before) == k.packed[..k.pos]
    modifies k
    ensures k.pos <= |k.packed|
    ensures UnpackAll(t, k.packed, old(k.pos), numbers, map[]) == if r.Ok? then Ok((r.value, k.pos)) else Err(r.code, r.de)
    ensures r.Ok? ==> Concat(segments) == k.packed[..k.pos]
  {
    ghost var start := k.pos;
    var packed := k.packed;
    var fields: Fields := map[];
    segments := before;
    var i := 0;
    assert numbers[0..] == numbers;
    while i < |numbers|
      invariant 0 <= i <= |numbers| && k.pos <= |packed|
      invariant UnpackAll(t, packed, start, numbers, map[]) == UnpackAll(t, packed, k.pos, numbers[i..], fields)
      invariant Concat(segments) == packed[..k.pos]
    {
      var n := numbers[i];
      assert numbers[i..][0] == n && numbers[i..][1..] == numbers[i + 1..];
      if n != 1 {
        var from := k.pos;
        var value := ReadField(k, t, n);
        if value.Err? {
          return Err(value.code, value.de), [];
        }
        fields := fields[n := value.value];
        ConcatAppend(segments, Element(n, packed[from..k.pos]));
        Joined(packed, 0, from, k.pos);
        segments := segments + [Element(n, packed[from..k.pos])];
      }
      i := i + 1;
    }
    assert numbers[|numbers|..] == [];
    r := Ok(fields);
  }

  method BitmapSegments(packed: string, end: nat, before: seq<Segment>) returns (segments: seq<Segment>)
    requires UnpackBitmaps(packed, 4).Ok? && UnpackBitmaps(packed, 4).value.1 == end
    requires Concat(before) == packed[..4]
    ensures Concat(segments) == packed[..end]
  {
    ConcatAppend(before, PrimaryBitmap(packed[4..20]));
    segments := before + [PrimaryBitmap(packed[4..20])];
    assert packed[..4] + packed[4..20] == packed[..20];
    if end == 36 {
      ConcatAppend(segments, SecondaryBitmap(packed[20..36]));
      segments := segments + [SecondaryBitmap(packed[20..36])];
      assert packed[..20] + packed[20..36] == packed[..36];
    }
  }
}
