/**
 The ISO 8583:1987 codec of the gateway as functions: one message is its MTI, a primary bitmap, a
 secondary bitmap when a data element above 64 is present, and the elements in ascending order,
 each fixed length or behind an LL or LLL length prefix.

 Every function takes the field table as a parameter; the generated table is Frames.MCN_87A.
 */
module Codec {
  import opened Numerals

  datatype Kind = Numeric | Alphanumeric | AlphanumericSpecial | Binary
  datatype Prefix = Fixed | LL | LLL
  datatype FieldSpec = FieldSpec(number: int, kind: Kind, length: nat, prefix: Prefix)
  type Table = map<int, FieldSpec>
  type Fields = map<int, string>

  datatype Code =
    | InvalidMti | InvalidBitmap | UnknownField | InvalidLength | InvalidValue | Truncated | TrailingData

  datatype Result<+T> = Ok(value: T) | Err(code: Code, de: int) {
    predicate IsFailure() { Err? }

    function PropagateFailure<U>(): Result<U>
      requires Err?
    {
      Err(code, de)
    }

    function Extract(): T
      requires Ok?
    {
      value
    }
  }

  /** What the generator guarantees of a table: numbers fit two bitmaps, lengths fit their prefix. */
  predicate WellFormed(t: Table) {
    forall n :: n in t ==>
      && 1 <= n <= 128
      && t[n].number == n
      && (t[n].prefix == LL ==> t[n].length <= 99)
      && (t[n].prefix == LLL ==> t[n].length <= 999)
  }

  function DataLen(f: FieldSpec, v: string): nat {
    if f.kind == Binary then |v| / 2 else |v|
  }

  function CheckValue(f: FieldSpec, v: string): Result<()> {
    if f.kind == Binary && (|v| % 2 != 0 || !IsNumeral(v, 16)) then Err(InvalidValue, f.number)
    else if f.kind == Numeric && !IsNumeral(v, 10) then Err(InvalidValue, f.number)
    else if f.prefix == Fixed && DataLen(f, v) != f.length then Err(InvalidLength, f.number)
    else if f.prefix != Fixed && DataLen(f, v) > f.length then Err(InvalidLength, f.number)
    else Ok(())
  }

  function PrefixDigits(p: Prefix): nat {
    match p
    case Fixed => 0
    case LL => 2
    case LLL => 3
  }

  function PackField(t: Table, n: int, v: string): Result<string> {
    if n !in t then Err(UnknownField, n)
    else
      var _ :- CheckValue(t[n], v);
      match t[n].prefix
      case Fixed => Ok(v)
      case _ => Ok(PadLeft(Format(DataLen(t[n], v), 10), PrefixDigits(t[n].prefix)) + v)
  }

  /** The elements in the order of numbers; the first one that does not pack decides the error. */
  function PackAll(t: Table, numbers: seq<int>, fields: Fields): Result<string>
    requires forall n :: n in numbers ==> n in fields
  {
    if numbers == [] then Ok("")
    else
      var head :- PackField(t, numbers[0], fields[numbers[0]]);
      var tail :- PackAll(t, numbers[1..], fields);
      Ok(head + tail)
  }

  /** The value of a bit string, most significant bit first. */
  function BitsValue(bits: seq<bool>): nat {
    if bits == [] then 0
    else 2 * BitsValue(bits[..|bits| - 1]) + (if bits[|bits| - 1] then 1 else 0)
  }

  /** The low width bits of value, most significant first. */
  function ValueBits(value: nat, width: nat): (bits: seq<bool>)
    ensures |bits| == width
  {
    if width == 0 then [] else ValueBits(value / 2, width - 1) + [value % 2 == 1]
  }

  /** The bits a bitmap's hex text stands for, four to a digit. */
  function PageOf(text: string): (bits: seq<bool>)
    requires IsNumeral(text, 16)
    ensures |bits| == 4 * |text|
  {
    ValueBits(Parse(text, 16), 4 * |text|)
  }

  /** The one-based positions of the set bits, shifted by offset, in ascending order. */
  function Positions(bits: seq<bool>, offset: int): seq<int> {
    if bits == [] then []
    else
      Positions(bits[..|bits| - 1], offset)
      + (if bits[|bits| - 1] then [offset + |bits|] else [])
  }

  function PageBits(present: set<int>, page: nat): (bits: seq<bool>)
    ensures |bits| == 64
  {
    seq(64, i requires 0 <= i < 64 => page * 64 + i + 1 in present)
  }

  /** One page as 16 hex digits: pad16 of the value's digits. */
  function BitmapHex(present: set<int>, page: nat): string {
    HexOf(PageBits(present, page))
  }

  function HexOf(bits: seq<bool>): string {
    PadLeft(Format(BitsValue(bits), 16), |bits| / 4)
  }

  /** DE 1 is derived: it is present exactly when some element is above 64. */
  predicate NeedsSecondary(fields: Fields) {
    exists n :: n in fields && n > 64
  }

  function PresenceOf(fields: Fields): set<int> {
    fields.Keys + (if NeedsSecondary(fields) then {1} else {})
  }

  lemma Inhabited(s: set<int>)
    requires s != {}
    ensures exists x :: x in s
  {
    if forall x :: x !in s {
      assert false;
    }
  }

  ghost function Least(s: set<int>): (m: int)
    requires s != {}
    ensures m in s && forall x :: x in s ==> m <= x
  {
    Inhabited(s);
    var x :| x in s;
    var rest := s - {x};
    assert s == rest + {x};
    if rest == {} then x
    else
      var y := Least(rest);
      if x < y then x else y
  }

  /** Every set of numbers can be listed in ascending order. */
  lemma {:induction false} AscendingExists(s: set<int>) returns (r: seq<int>)
    ensures Ascending(r) && forall n :: n in r <==> n in s
  {
    if s == {} {
      r := [];
    } else {
      var m := Least(s);
      var rest := AscendingExists(s - {m});
      assert forall i :: 0 <= i < |rest| ==> rest[i] in rest;
      r := [m] + rest;
    }
  }

  /** The members of s in ascending order: what sortInts leaves in the slice of field numbers. */
  ghost function Sorted(s: set<int>): (r: seq<int>)
    ensures Ascending(r) && forall n :: n in r <==> n in s
  {
    assert exists r: seq<int> :: Ascending(r) && forall n :: n in r <==> n in s by {
      var r := AscendingExists(s);
    }
    var r: seq<int> :| Ascending(r) && forall n :: n in r <==> n in s;
    r
  }

  predicate Ascending(r: seq<int>) {
    forall i, j :: 0 <= i < j < |r| ==> r[i] < r[j]
  }

  ghost function Pack(t: Table, mti: string, fields: Fields): Result<string> {
    if |mti| != 4 || !IsNumeral(mti, 10) then Err(InvalidMti, 0)
    else if 1 in fields then Err(UnknownField, 0)
    else
      var body :- PackAll(t, Sorted(fields.Keys), fields);
      Ok(mti + Bitmaps(fields) + body)
  }

  function Bitmaps(fields: Fields): string {
    BitmapHex(PresenceOf(fields), 0)
    + (if NeedsSecondary(fields) then BitmapHex(PresenceOf(fields), 1) else "")
  }

  /** taker.take: count characters at pos. */
  function Take(w: string, pos: nat, count: nat): (r: Result<string>)
    ensures r.Ok? ==> pos + count <= |w| && |r.value| == count
  {
    if pos + count > |w| then Err(Truncated, 0) else Ok(w[pos..pos + count])
  }

  function UnpackBitmaps(w: string, pos: nat): (r: Result<(seq<int>, nat)>)
    ensures r.Ok? ==> pos <= r.value.1 <= |w|
  {
    var primary :- Take(w, pos, 16);
    if !IsNumeral(primary, 16) then Err(InvalidBitmap, 0)
    else
      var numbers := Positions(PageOf(primary), 0);
      if numbers == [] || numbers[0] != 1 then Ok((numbers, pos + 16))
      else
        var secondary :- Take(w, pos + 16, 16);
        if !IsNumeral(secondary, 16) then Err(InvalidBitmap, 0)
        else Ok((numbers + Positions(PageOf(secondary), 64), pos + 32))
  }

  /** The length a field's wire form starts with, and where its data begins. */
  function UnpackLength(f: FieldSpec, w: string, pos: nat): (r: Result<(nat, nat)>)
    ensures r.Ok? ==> pos <= r.value.1
  {
    if f.prefix == Fixed then Ok((f.length, pos))
    else
      var digits := PrefixDigits(f.prefix);
      var raw :- Take(w, pos, digits);
      if !IsNumeral(raw, 10) then Err(InvalidLength, f.number)
      else if Parse(raw, 10) > f.length then Err(InvalidLength, f.number)
      else Ok((Parse(raw, 10), pos + digits))
  }

  function UnpackField(t: Table, w: string, pos: nat, n: int): (r: Result<(string, nat)>)
    ensures r.Ok? ==> pos <= r.value.1 <= |w|
  {
    if n !in t then Err(UnknownField, n)
    else
      var (size, start) :- UnpackLength(t[n], w, pos);
      var width := if t[n].kind == Binary then size * 2 else size;
      var value :- Take(w, start, width);
      var _ :- CheckValue(t[n], value);
      Ok((value, start + width))
  }

  /** The loop over the numbers the bitmaps named, skipping DE 1. */
  function UnpackAll(t: Table, w: string, pos: nat, numbers: seq<int>, acc: Fields): (r: Result<(Fields, nat)>)
    requires pos <= |w|
    ensures r.Ok? ==> pos <= r.value.1 <= |w|
    decreases |numbers|
  {
    if numbers == [] then Ok((acc, pos))
    else if numbers[0] == 1 then UnpackAll(t, w, pos, numbers[1..], acc)
    else
      var (value, next) :- UnpackField(t, w, pos, numbers[0]);
      UnpackAll(t, w, next, numbers[1..], acc[numbers[0] := value])
  }

  function Unpack(t: Table, w: string): Result<(string, Fields)> {
    var mti :- Take(w, 0, 4);
    if !IsNumeral(mti, 10) then Err(InvalidMti, 0)
    else
      var (numbers, start) :- UnpackBitmaps(w, 4);
      var (fields, end) :- UnpackAll(t, w, start, numbers, map[]);
      if end != |w| then Err(TrailingData, 0) else Ok((mti, fields))
  }
}
