/**
 The opaque list cursor: "nanos|id" in decimal, as unpadded base64url (section 5 of RFC 4648).
 */
module Cursor {
  import opened Numerals
  import opened Store

  // base64url without padding.

  predicate IsBytes(s: string) {
    forall i :: 0 <= i < |s| ==> s[i] as int < 256
  }

  const UPPER := "ABCDEFGHIJKLMNOPQRSTUVWXYZ"
  const LOWER := "abcdefghijklmnopqrstuvwxyz"
  const DIGITS := "0123456789"

  function Symbol(v: nat): (c: char)
    requires v < 64
    ensures v < 26 ==> c == UPPER[v]
    ensures 26 <= v < 52 ==> c == LOWER[v - 26]
    ensures 52 <= v < 62 ==> c == DIGITS[v - 52]
    ensures v == 62 ==> c == '-'
    ensures v == 63 ==> c == '_'
  {
    if v < 26 then 'A' + v as char
    else if v < 52 then 'a' + (v - 26) as char
    else if v < 62 then '0' + (v - 52) as char
    else if v == 62 then '-' else '_'
  }

  function Value(c: char): (v: Option<nat>)
    ensures v.Some? ==> v.value < 64 && Symbol(v.value) == c
  {
    if 'A' <= c <= 'Z' then Some((c - 'A') as nat)
    else if 'a' <= c <= 'z' then Some((c - 'a') as nat + 26)
    else if '0' <= c <= '9' then Some((c - '0') as nat + 52)
    else if c == '-' then Some(62)
    else if c == '_' then Some(63)
    else None
  }

  predicate Below(s: seq<nat>, bound: nat) {
    forall i :: 0 <= i < |s| ==> s[i] < bound
  }

  /** Bytes as groups of six bits: three bytes make four, a rest of one or two makes two or three. */
  function Sextets(s: seq<nat>): (r: seq<nat>)
    requires Below(s, 256)
    ensures Below(r, 64) && (s != [] ==> r != [])
  {
    if s == [] then []
    else if |s| == 1 then [s[0] / 4, s[0] % 4 * 16]
    else if |s| == 2 then [s[0] / 4, s[0] % 4 * 16 + s[1] / 16, s[1] % 16 * 4]
    else [s[0] / 4, s[0] % 4 * 16 + s[1] / 16, s[1] % 16 * 4 + s[2] / 64, s[2] % 64] + Sextets(s[3..])
  }

  /** The bytes of six-bit groups; the spare bits of a short last group are ignored, one group alone is an error. */
  function Bytes(r: seq<nat>): (s: Option<seq<nat>>)
    requires Below(r, 64)
    ensures s.Some? ==> Below(s.value, 256)
  {
    if r == [] then Some([])
    else if |r| == 1 then None
    else if |r| == 2 then Some([r[0] * 4 + r[1] / 16])
    else if |r| == 3 then Some([r[0] * 4 + r[1] / 16, r[1] % 16 * 16 + r[2] / 4])
    else
      match Bytes(r[4..])
      case None => None
      case Some(rest) => Some([r[0] * 4 + r[1] / 16, r[1] % 16 * 16 + r[2] / 4, r[2] % 4 * 64 + r[3]] + rest)
  }

  function Symbols(r: seq<nat>): string
    requires Below(r, 64)
  {
    seq(|r|, i requires 0 <= i < |r| => Symbol(r[i]))
  }

  function Values(s: string): (r: Option<seq<nat>>)
    ensures r.Some? ==> Below(r.value, 64)
  {
    if s == [] then Some([])
    else
      match (Value(s[0]), Values(s[1..]))
      case (Some(v), Some(rest)) => Some([v] + rest)
      case _ => None
  }

  /** Go's decoder skips line breaks. */
  function Unbroken(s: string): string {
    if s == [] then []
    else if s[0] == '\n' || s[0] == '\r' then Unbroken(s[1..])
    else [s[0]] + Unbroken(s[1..])
  }

  function Codes(s: string): (r: seq<nat>)
    requires IsBytes(s)
    ensures Below(r, 256) && |r| == |s|
  {
    seq(|s|, i requires 0 <= i < |s| => s[i] as nat)
  }

  function Chars(r: seq<nat>): string
    requires Below(r, 256)
  {
    seq(|r|, i requires 0 <= i < |r| => r[i] as char)
  }

  function Encode64(s: string): string
    requires IsBytes(s)
  {
    Symbols(Sextets(Codes(s)))
  }

  function Decode64(s: string): (r: Option<string>) {
    match Values(Unbroken(s))
    case None => None
    case Some(sextets) =>
      match Bytes(sextets)
      case None => None
      case Some(bytes) => Some(Chars(bytes))
  }

  lemma ValueOfSymbol(v: nat)
    requires v < 64
    ensures Value(Symbol(v)) == Some(v)
    ensures Symbol(v) != '\n' && Symbol(v) != '\r'
  {
  }

  lemma {:induction false} BytesUndoesSextets(s: seq<nat>)
    requires Below(s, 256)
    ensures Bytes(Sextets(s)) == Some(s)
  {
    if |s| == 1 {
      OneByte(s[0], s);
    } else if |s| == 2 {
      TwoBytes(s[0], s[1], s);
    } else if |s| >= 3 {
      BytesUndoesSextets(s[3..]);
      GroupUndone(s, Sextets(s));
    }
  }

  lemma GroupUndone(s: seq<nat>, r: seq<nat>)
    requires Below(s, 256) && |s| >= 3 && r == Sextets(s) && Bytes(Sextets(s[3..])) == Some(s[3..])
    ensures Bytes(r) == Some(s)
  {
    ThreeBytes(s[0], s[1], s[2]);
    assert r[4..] == Sextets(s[3..]);
    assert r[0] == s[0] / 4 && r[1] == s[0] % 4 * 16 + s[1] / 16 && r[2] == s[1] % 16 * 4 + s[2] / 64 && r[3] == s[2] % 64;
    assert s == [s[0], s[1], s[2]] + s[3..];
  }

  lemma OneByte(a: nat, s: seq<nat>)
    requires a < 256 && s == [a]
    ensures Bytes(Sextets(s)) == Some(s)
  {
    var r := Sextets(s);
    assert r == [a / 4, a % 4 * 16];
    assert a / 4 * 4 + (a % 4 * 16) / 16 == a;
    assert Bytes(r) == Some([r[0] * 4 + r[1] / 16]);
  }

  lemma TwoBytes(a: nat, b: nat, s: seq<nat>)
    requires a < 256 && b < 256 && s == [a, b]
    ensures Bytes(Sextets(s)) == Some(s)
  {
    PairJoined([a / 4, a % 4 * 16 + b / 16, b % 16 * 4], a, b);
  }

  lemma PairJoined(r: seq<nat>, a: nat, b: nat)
    requires a < 256 && b < 256 && r == [a / 4, a % 4 * 16 + b / 16, b % 16 * 4]
    ensures Below(r, 64) && Bytes(r) == Some([a, b])
  {
    ThreeBytes(a, b, 0);
    assert Bytes(r) == Some([r[0] * 4 + r[1] / 16, r[1] % 16 * 16 + r[2] / 4]);
  }

  lemma ThreeBytes(a: nat, b: nat, c: nat)
    requires a < 256 && b < 256 && c < 256
    ensures a / 4 * 4 + (a % 4 * 16 + b / 16) / 16 == a
    ensures (a % 4 * 16 + b / 16) % 16 * 16 + (b % 16 * 4 + c / 64) / 4 == b
    ensures (b % 16 * 4 + c / 64) % 4 * 64 + c % 64 == c
  {
  }

  lemma {:induction false} ValuesUndoesSymbols(r: seq<nat>)
    requires Below(r, 64)
    ensures Values(Symbols(r)) == Some(r)
  {
    if r != [] {
      ValueOfSymbol(r[0]);
      ValuesUndoesSymbols(r[1..]);
      assert Symbols(r)[1..] == Symbols(r[1..]);
      assert [r[0]] + r[1..] == r;
    }
  }

  lemma {:induction false} SymbolsAreUnbroken(r: seq<nat>)
    requires Below(r, 64)
    ensures Unbroken(Symbols(r)) == Symbols(r)
  {
    if r != [] {
      ValueOfSymbol(r[0]);
      SymbolsAreUnbroken(r[1..]);
      assert Symbols(r)[1..] == Symbols(r[1..]);
    }
  }

  lemma Decode64Undoes(s: string)
    requires IsBytes(s)
    ensures Decode64(Encode64(s)) == Some(s)
  {
    ValuesUndoesSymbols(Sextets(Codes(s)));
    SymbolsAreUnbroken(Sextets(Codes(s)));
    BytesUndoesSextets(Codes(s));
    assert Chars(Codes(s)) == s;
  }

  // Signed decimals.

  const MIN64 := -0x8000_0000_0000_0000
  const MAX64 := 0x7FFF_FFFF_FFFF_FFFF

  predicate IsInt64(n: int) {
    MIN64 <= n <= MAX64
  }

  function FormatInt(n: int): string {
    if n < 0 then "-" + Format(-n, 10) else Format(n, 10)
  }

  /** strconv.ParseInt(s, 10, 64): an optional sign, digits, and the range. */
  function ParseInt(s: string): (n: Option<int>)
    ensures n.Some? ==> IsInt64(n.value)
  {
    var signed := s != [] && (s[0] == '-' || s[0] == '+');
    var digits := if signed then s[1..] else s;
    if digits == [] || !IsNumeral(digits, 10) then None
    else
      var m: int := Parse(digits, 10);
      var n := if signed && s[0] == '-' then -m else m;
      if IsInt64(n) then Some(n) else None
  }

  lemma FormatIntDigits(n: int)
    ensures var m := if n < 0 then -n else n;
            var digits := Format(m, 10);
            && FormatInt(n) == (if n < 0 then "-" + digits else digits)
            && digits[0] != '-' && digits[0] != '+' && IsNumeral(digits, 10) && Parse(digits, 10) == m
  {
    var m := if n < 0 then -n else n;
    ParseFormat(m, 10);
    assert IsDigit(Format(m, 10)[0], 10);
  }

  lemma ParseIntUndoes(n: int)
    requires IsInt64(n)
    ensures ParseInt(FormatInt(n)) == Some(n)
    ensures forall i :: 0 <= i < |FormatInt(n)| ==> FormatInt(n)[i] != '|' && FormatInt(n)[i] as int < 256
  {
    FormatIntDigits(n);
    var digits := Format(if n < 0 then -n else n, 10);
    assert n < 0 ==> FormatInt(n)[1..] == digits;
    forall i | 0 <= i < |FormatInt(n)| ensures FormatInt(n)[i] != '|' && FormatInt(n)[i] as int < 256 {
      assert FormatInt(n)[i] == '-' || FormatInt(n)[i] in digits;
      assert forall c :: c in digits ==> IsDigit(c, 10);
    }
  }

  // The cursor.

  datatype Key = Key(at: int, id: int)

  function EncodeCursor(k: Key): string
    requires IsInt64(k.at) && IsInt64(k.id)
  {
    var raw := FormatInt(k.at) + "|" + FormatInt(k.id);
    assert IsBytes(raw) by {
      ParseIntUndoes(k.at);
      ParseIntUndoes(k.id);
    }
    Encode64(raw)
  }

  /** strings.SplitN(raw, "|", 2), when there is a "|". */
  function Split(raw: string): (r: Option<(string, string)>)
    ensures r.Some? ==> raw == r.value.0 + "|" + r.value.1
  {
    if raw == [] then None
    else if raw[0] == '|' then Some(([], raw[1..]))
    else
      match Split(raw[1..])
      case None => None
      case Some((head, tail)) => Some(([raw[0]] + head, tail))
  }

  function DecodeCursor(cursor: string): (k: Option<Key>) {
    match Decode64(cursor)
    case None => None
    case Some(raw) =>
      match Split(raw)
      case None => None
      case Some((nanos, id)) =>
        var n, i := ParseInt(nanos), ParseInt(id);
        if n.Some? && i.Some? then Some(Key(n.value, i.value)) else None
  }

  lemma {:induction false} SplitAtFirst(head: string, tail: string)
    requires forall i :: 0 <= i < |head| ==> head[i] != '|'
    ensures Split(head + "|" + tail) == Some((head, tail))
  {
    var raw := head + "|" + tail;
    if head == [] {
      assert raw[1..] == tail;
    } else {
      assert raw[1..] == head[1..] + "|" + tail;
      SplitAtFirst(head[1..], tail);
      assert [head[0]] + head[1..] == head;
    }
  }

  lemma DecodeUndoesEncode(k: Key)
    requires IsInt64(k.at) && IsInt64(k.id)
    ensures DecodeCursor(EncodeCursor(k)) == Some(k) && EncodeCursor(k) != ""
  {
    ParseIntUndoes(k.at);
    ParseIntUndoes(k.id);
    var raw := FormatInt(k.at) + "|" + FormatInt(k.id);
    assert IsBytes(raw) && raw != [];
    Decode64Undoes(raw);
    SplitAtFirst(FormatInt(k.at), FormatInt(k.id));
  }
}
