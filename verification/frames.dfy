/**
 The generated field table, the size it allows a message to reach, and the two-byte length framing
 that carries messages on the issuer link. Text is bytes: one char per byte.
 */
module Frames {
  import opened Numerals
  import opened Codec
  import opened CodecProofs
  import opened Store

  datatype Entry = Unused | Used(spec: FieldSpec)

  /** The rows of the generated table. */
  function EntryOf(n: int): Entry {
    match n
    case 1 => Used(FieldSpec(1, Binary, 8, Fixed))
    case 2 => Used(FieldSpec(2, Numeric, 19, LL))
    case 3 => Used(FieldSpec(3, Numeric, 6, Fixed))
    case 4 => Used(FieldSpec(4, Numeric, 12, Fixed))
    case 7 => Used(FieldSpec(7, Numeric, 10, Fixed))
    case 11 => Used(FieldSpec(11, Numeric, 6, Fixed))
    case 12 => Used(FieldSpec(12, Numeric, 6, Fixed))
    case 13 => Used(FieldSpec(13, Numeric, 4, Fixed))
    case 14 => Used(FieldSpec(14, Numeric, 4, Fixed))
    case 15 => Used(FieldSpec(15, Numeric, 4, Fixed))
    case 18 => Used(FieldSpec(18, Numeric, 4, Fixed))
    case 22 => Used(FieldSpec(22, Numeric, 3, Fixed))
    case 25 => Used(FieldSpec(25, Numeric, 2, Fixed))
    case 32 => Used(FieldSpec(32, Numeric, 11, LL))
    case 37 => Used(FieldSpec(37, Alphanumeric, 12, Fixed))
    case 38 => Used(FieldSpec(38, Alphanumeric, 6, Fixed))
    case 39 => Used(FieldSpec(39, Alphanumeric, 2, Fixed))
    case 41 => Used(FieldSpec(41, AlphanumericSpecial, 8, Fixed))
    case 42 => Used(FieldSpec(42, AlphanumericSpecial, 15, Fixed))
    case 43 => Used(FieldSpec(43, AlphanumericSpecial, 40, Fixed))
    case 48 => Used(FieldSpec(48, AlphanumericSpecial, 999, LLL))
    case 49 => Used(FieldSpec(49, Numeric, 3, Fixed))
    case 52 => Used(FieldSpec(52, Binary, 8, Fixed))
    case 53 => Used(FieldSpec(53, Numeric, 16, Fixed))
    case 54 => Used(FieldSpec(54, Alphanumeric, 120, LLL))
    case 55 => Used(FieldSpec(55, Binary, 255, LLL))
    case 64 => Used(FieldSpec(64, Binary, 8, Fixed))
    case 70 => Used(FieldSpec(70, Numeric, 3, Fixed))
    case 74 => Used(FieldSpec(74, Numeric, 10, Fixed))
    case 75 => Used(FieldSpec(75, Numeric, 10, Fixed))
    case 76 => Used(FieldSpec(76, Numeric, 10, Fixed))
    case 77 => Used(FieldSpec(77, Numeric, 10, Fixed))
    case 86 => Used(FieldSpec(86, Numeric, 16, Fixed))
    case 87 => Used(FieldSpec(87, Numeric, 16, Fixed))
    case 88 => Used(FieldSpec(88, Numeric, 16, Fixed))
    case 89 => Used(FieldSpec(89, Numeric, 16, Fixed))
    case 90 => Used(FieldSpec(90, Numeric, 42, Fixed))
    case 97 => Used(FieldSpec(97, Alphanumeric, 17, Fixed))
    case 128 => Used(FieldSpec(128, Binary, 8, Fixed))
    case _ => Unused
  }

  function MCN_87A(): Table {
    map n | 1 <= n <= 128 && EntryOf(n).Used? :: EntryOf(n).spec
  }

  lemma TableWellFormed()
    ensures WellFormed(MCN_87A())
  {
  }

  // The size of a message.

  /** The widest wire form a field can take. */
  function MaxWidth(f: FieldSpec): nat {
    PrefixDigits(f.prefix) + (if f.kind == Binary then 2 * f.length else f.length)
  }

  function WidthAt(t: Table, n: int): nat {
    if n in t then MaxWidth(t[n]) else 0
  }

  /** The widths of the fields lo, lo+1, ..., hi-1 added up. */
  function WidthBetween(t: Table, lo: int, hi: int): nat
    decreases hi - lo
  {
    if lo >= hi then 0 else WidthAt(t, lo) + WidthBetween(t, lo + 1, hi)
  }

  lemma FieldFits(t: Table, n: int, v: string)
    requires WellFormed(t) && PackField(t, n, v).Ok?
    ensures |PackField(t, n, v).value| <= WidthAt(t, n)
  {
    if t[n].prefix != Fixed {
      Hundreds();
      FormatWidth(DataLen(t[n], v), 10, PrefixDigits(t[n].prefix));
    }
  }

  lemma {:induction false} BodyFits(t: Table, numbers: seq<int>, fields: Fields, lo: int, hi: int)
    requires WellFormed(t) && Ascending(numbers)
    requires forall n :: n in numbers ==> n in fields && lo <= n < hi
    requires PackAll(t, numbers, fields).Ok?
    ensures |PackAll(t, numbers, fields).value| <= WidthBetween(t, lo, hi)
    decreases hi - lo
  {
    if numbers != [] {
      var n := numbers[0];
      assert n in numbers;
      if n == lo {
        FieldFits(t, n, fields[n]);
        forall m | m in numbers[1..] ensures lo + 1 <= m < hi {
          assert m in numbers;
        }
        BodyFits(t, numbers[1..], fields, lo + 1, hi);
      } else {
        forall m | m in numbers ensures lo + 1 <= m < hi {
        }
        BodyFits(t, numbers, fields, lo + 1, hi);
      }
    }
  }

  /** The widths of all rows up to and including n, written out. */
  function WidthUpTo(n: int): nat {
    if n < 2 then 0
    else if n < 3 then 21
    else if n < 4 then 27
    else if n < 7 then 39
    else if n < 11 then 49
    else if n < 12 then 55
    else if n < 13 then 61
    else if n < 14 then 65
    else if n < 15 then 69
    else if n < 18 then 73
    else if n < 22 then 77
    else if n < 25 then 80
    else if n < 32 then 82
    else if n < 37 then 95
    else if n < 38 then 107
    else if n < 39 then 113
    else if n < 41 then 115
    else if n < 42 then 123
    else if n < 43 then 138
    else if n < 48 then 178
    else if n < 49 then 1180
    else if n < 52 then 1183
    else if n < 53 then 1199
    else if n < 54 then 1215
    else if n < 55 then 1338
    else if n < 64 then 1851
    else if n < 70 then 1867
    else if n < 74 then 1870
    else if n < 75 then 1880
    else if n < 76 then 1890
    else if n < 77 then 1900
    else if n < 86 then 1910
    else if n < 87 then 1926
    else if n < 88 then 1942
    else if n < 89 then 1958
    else if n < 90 then 1974
    else if n < 97 then 2016
    else if n < 128 then 2033
    else 2049
  }

  lemma WidthStepLow(n: int)
    requires 2 <= n < 44
    ensures WidthUpTo(n) == WidthUpTo(n - 1) + WidthAt(MCN_87A(), n)
  {
  }

  lemma WidthStepHigh(n: int)
    requires 44 <= n <= 128
    ensures WidthUpTo(n) == WidthUpTo(n - 1) + WidthAt(MCN_87A(), n)
  {
  }

  lemma {:induction false} WidthTotal(lo: int, hi: int)
    requires 2 <= lo <= hi <= 129
    ensures WidthUpTo(hi - 1) == WidthUpTo(lo - 1) + WidthBetween(MCN_87A(), lo, hi)
    decreases hi - lo
  {
    if lo < hi {
      if lo < 44 {
        WidthStepLow(lo);
      } else {
        WidthStepHigh(lo);
      }
      WidthTotal(lo + 1, hi);
    }
  }

  /** Every message Pack accepts over the generated table fits 2085 bytes, half of a frame. */
  lemma MessageFits(mti: string, fields: Fields)
    requires Pack(MCN_87A(), mti, fields).Ok?
    ensures |Pack(MCN_87A(), mti, fields).value| <= 2085
  {
    var t := MCN_87A();
    TableWellFormed();
    var w := Pack(t, mti, fields).value;
    PackedParts(t, mti, fields, w);
    PackedKeys(t, fields);
    var sorted := Sorted(fields.Keys);
    BodyFits(t, sorted, fields, 2, 129);
    WidthTotal(2, 129);
    BitmapReadBack(PresenceOf(fields), 0);
    BitmapReadBack(PresenceOf(fields), 1);
  }

  // Framing.

  const MAX_FRAME_SIZE := 4096

  datatype Read = Frame(payload: string, rest: string) | TooShort | TooLarge

  /** A two-byte big-endian length and the payload. */
  function Framed(payload: string): string
    requires |payload| <= MAX_FRAME_SIZE
  {
    [(|payload| / 256) as char, (|payload| % 256) as char] + payload
  }

  /** What one ReadFrame finds at the head of the stream. */
  function NextFrame(data: string): Read {
    if |data| < 2 then TooShort
    else
      var size := data[0] as int * 256 + data[1] as int;
      if size > MAX_FRAME_SIZE then TooLarge
      else if |data| < 2 + size then TooShort
      else Frame(data[2..2 + size], data[2 + size..])
  }

  /** What it leaves: the bytes after the frame, after a header that announces too much, or none. */
  function Unread(data: string): string {
    match NextFrame(data)
    case Frame(_, rest) => rest
    case TooLarge => data[2..]
    case TooShort => ""
  }

  /** The byte stream of one direction of the connection. */
  class Stream {
    var data: string

    constructor ()
      ensures data == ""
    {
      data := "";
    }

    /** A connection's Write: all of it, or as much as there is room for and a failure. */
    method Write(bytes: string, room: nat) returns (left: Option<nat>)
      modifies this
      ensures left == if |bytes| <= room then Some(room - |bytes|) else None
      ensures data == old(data) + (if |bytes| <= room then bytes else bytes[..room])
    {
      if |bytes| > room {
        data := data + bytes[..room];
        return None;
      }
      data := data + bytes;
      left := Some(room - |bytes|);
    }

    /** WriteFrame on a connection that takes room more bytes before it fails. */
    method WriteFrame(payload: string, room: nat) returns (written: bool)
      modifies this
      ensures written <==> |payload| <= MAX_FRAME_SIZE && 2 + |payload| <= room
      ensures |payload| > MAX_FRAME_SIZE ==> data == old(data)
      ensures |payload| <= MAX_FRAME_SIZE ==>
                data == old(data) + (if 2 + |payload| <= room then Framed(payload) else Framed(payload)[..room])
    {
      if |payload| > MAX_FRAME_SIZE {
        return false;
      }
      var header := [(|payload| / 256) as char, (|payload| % 256) as char];
      assert Framed(payload) == header + payload;
      var left := Write(header, room);
      if left.None? {
        assert Framed(payload)[..room] == header[..room];
        return false;
      }
      left := Write(payload, left.value);
      if left.None? {
        assert Framed(payload)[..room] == header + payload[..room - 2];
      }
      return left.Some?;
    }

    /** io.ReadFull: exactly count bytes, or everything there is and a failure. */
    method ReadFull(count: nat) returns (bytes: Option<string>)
      modifies this
      ensures bytes.Some? <==> count <= |old(data)|
      ensures bytes.Some? ==> |bytes.value| == count && bytes.value + data == old(data)
      ensures bytes.None? ==> data == ""
    {
      if |data| < count {
        data := "";
        return None;
      }
      bytes := Some(data[..count]);
      data := data[count..];
    }

    method ReadFrame() returns (r: Read)
      modifies this
      ensures r == NextFrame(old(data)) && data == Unread(old(data))
    {
      var header := ReadFull(2);
      if header.None? {
        return TooShort;
      }
      var size := header.value[0] as int * 256 + header.value[1] as int;
      assert old(data)[..2] == header.value && old(data)[2..] == data;
      if size > MAX_FRAME_SIZE {
        return TooLarge;
      }
      var payload := ReadFull(size);
      if payload.None? {
        return TooShort;
      }
      assert old(data)[2..2 + size] == payload.value && old(data)[2 + size..] == data;
      return Frame(payload.value, data);
    }
  }

  lemma FrameReadBack(payload: string, tail: string)
    requires |payload| <= MAX_FRAME_SIZE
    ensures NextFrame(Framed(payload) + tail) == Frame(payload, tail)
  {
    var data := Framed(payload) + tail;
    var size := |payload|;
    assert data[0] == (size / 256) as char && data[1] == (size % 256) as char;
    assert data[2..2 + size] == payload && data[2 + size..] == tail;
  }

  function FramedAll(payloads: seq<string>): string
    requires forall i :: 0 <= i < |payloads| ==> |payloads[i]| <= MAX_FRAME_SIZE
  {
    if payloads == [] then "" else Framed(payloads[0]) + FramedAll(payloads[1..])
  }

  /** Reading count frames off a stream, as Serve does. */
  function ReadMany(data: string, count: nat): seq<string> {
    if count == 0 || !NextFrame(data).Frame? then []
    else [NextFrame(data).payload] + ReadMany(NextFrame(data).rest, count - 1)
  }

  /** Any sequence of frames written to a stream is read back as the same sequence. */
  lemma {:induction false} FramesReadBack(payloads: seq<string>, tail: string)
    requires forall i :: 0 <= i < |payloads| ==> |payloads[i]| <= MAX_FRAME_SIZE
    ensures ReadMany(FramedAll(payloads) + tail, |payloads|) == payloads
  {
    if payloads != [] {
      var rest := FramedAll(payloads[1..]) + tail;
      Assoc(Framed(payloads[0]), FramedAll(payloads[1..]), tail);
      FrameReadBack(payloads[0], rest);
      FramesReadBack(payloads[1..], tail);
    }
  }

  lemma Assoc(a: string, b: string, c: string)
    ensures (a + b) + c == a + (b + c)
  {
  }

  /** Mux.Send's outbound half: whatever Pack accepted, only the connection can refuse it. */
  method SendPacked(s: Stream, mti: string, fields: Fields, packed: string, room: nat) returns (written: bool)
    requires Pack(MCN_87A(), mti, fields) == Ok(packed)
    modifies s
    ensures |packed| <= MAX_FRAME_SIZE && Unpack(MCN_87A(), packed) == Ok((mti, fields))
    ensures written <==> 2 + |packed| <= room
    ensures written ==> s.data == old(s.data) + Framed(packed)
  {
    MessageFits(mti, fields);
    TableWellFormed();
    UnpackUndoesPack(MCN_87A(), mti, fields);
    written := s.WriteFrame(packed, room);
  }
}
