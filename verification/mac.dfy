/**
 Where the message authentication code goes and how a response's is checked. The MAC function itself
 is a parameter: nothing here depends on which one it is.
 */
module Mac {
  import opened Numerals
  import opened Codec
  import opened CodecProofs
  import opened Store
  import Frames

  type Key = string

  /** hsm.ComputeMAC: the code of a packed message under a key, or a fault of the module. */
  type MacFunction = (string, Key) -> Option<seq<nat>>

  const MAC_LENGTH := 8

  predicate IsCode(bytes: seq<nat>) {
    |bytes| == MAC_LENGTH && forall i :: 0 <= i < |bytes| ==> bytes[i] < 256
  }

  /** hex.EncodeToString, upper-cased. */
  function HexText(bytes: seq<nat>): (s: string)
    requires forall i :: 0 <= i < |bytes| ==> bytes[i] < 256
    ensures |s| == 2 * |bytes| && IsNumeral(s, 16)
  {
    if bytes == [] then ""
    else HexText(bytes[..|bytes| - 1]) + [DigitChar(bytes[|bytes| - 1] / 16), DigitChar(bytes[|bytes| - 1] % 16)]
  }

  function UpperChar(c: char): char {
    if 'a' <= c <= 'z' then c - 'a' + 'A' else c
  }

  /** strings.EqualFold on hex text. */
  predicate EqualFold(a: string, b: string) {
    |a| == |b| && forall i :: 0 <= i < |a| ==> UpperChar(a[i]) == UpperChar(b[i])
  }

  /** DE 64 and DE 128 are eight-byte binary fields of the table. */
  predicate HasMacFields(t: Table) {
    && WellFormed(t)
    && (forall n :: n in {64, 128} ==> n in t && t[n].kind == Binary && t[n].prefix == Fixed && t[n].length == MAC_LENGTH)
  }

  lemma GeneratedTableHasMacFields()
    ensures HasMacFields(Frames.MCN_87A())
  {
    Frames.TableWellFormed();
  }

  /** The worker's choice: DE 128 once a field above 64 sets the secondary bitmap, else DE 64. */
  function MacFieldFor(fields: Fields): int {
    if NeedsSecondary(fields) then 128 else 64
  }

  /** attachMAC and frame: the code over the packed message, stored in the given field. */
  ghost function WithMac(t: Table, mac: MacFunction, key: Key, mti: string, fields: Fields, field: int): Option<Fields> {
    var packed := Pack(t, mti, fields);
    if packed.Err? then None
    else
      match mac(packed.value, key)
      case None => None
      case Some(code) => if IsCode(code) then Some(fields[field := HexText(code)]) else None
  }

  /** macFieldOf: whichever of DE 64 and DE 128 is present, DE 64 first. */
  function MacFieldOf(fields: Fields): Option<int> {
    if 64 in fields then Some(64) else if 128 in fields then Some(128) else None
  }

  predicate Matches(mac: MacFunction, packed: string, text: string, key: Key) {
    match mac(packed, key)
    case None => false
    case Some(code) => (forall i :: 0 <= i < |code| ==> code[i] < 256) && EqualFold(text, HexText(code))
  }

  /** A response verifies under one of keys: it carries a code, repacks without it, and one key's code is that one. */
  ghost predicate Verifies(t: Table, mac: MacFunction, keys: seq<Key>, mti: string, resp: Fields) {
    && MacFieldOf(resp).Some?
    && var field := MacFieldOf(resp).value;
    && var packed := Pack(t, mti, resp - {field});
    && packed.Ok?
    && exists k :: k in keys && Matches(mac, packed.value, resp[field], k)
  }

  // A fallback key as the key store lists it: still wrapped, and perhaps not unwrappable.
  datatype Stored = Unusable | Usable(key: Key)

  function UsableKeys(rows: seq<Stored>): seq<Key> {
    if rows == [] then []
    else UsableKeys(rows[..|rows| - 1]) + (match rows[|rows| - 1] case Unusable => [] case Usable(k) => [k])
  }

  /**
   MACVerifier.Verify: the active key first, then every fallback key in order, skipping one that does
   not decode or unwrap.
   */
  method Verify(t: Table, mac: MacFunction, active: Key, fallback: seq<Stored>, mti: string, resp: Fields, packed: Result<string>)
    returns (ok: bool)
    requires MacFieldOf(resp).Some? ==> packed == Pack(t, mti, resp - {MacFieldOf(resp).value})
    ensures ok <==> Verifies(t, mac, [active] + UsableKeys(fallback), mti, resp)
  {
    var found := MacFieldOf(resp);
    if found.None? || packed.Err? {
      return false;
    }
    var text := resp[found.value];
    ghost var keys := [active] + UsableKeys(fallback);
    if Matches(mac, packed.value, text, active) {
      assert active in keys;
      return true;
    }
    var i := 0;
    while i < |fallback|
      invariant 0 <= i <= |fallback|
      invariant forall k :: k in UsableKeys(fallback[..i]) ==> !Matches(mac, packed.value, text, k)
    {
      assert fallback[..i + 1][..i] == fallback[..i];
      match fallback[i] {
        case Unusable =>
        case Usable(k) =>
          if Matches(mac, packed.value, text, k) {
            UsableMember(fallback, i);
            return true;
          }
      }
      i := i + 1;
    }
    assert fallback[..|fallback|] == fallback;
    return false;
  }

  lemma {:induction false} UsableMember(rows: seq<Stored>, i: nat)
    requires i < |rows| && rows[i].Usable?
    ensures rows[i].key in UsableKeys(rows)
  {
    if i < |rows| - 1 {
      UsableMember(rows[..|rows| - 1], i);
    }
  }

  lemma {:induction false} AllPack(t: Table, numbers: seq<int>, fields: Fields)
    requires forall n :: n in numbers ==> n in fields
    ensures PackAll(t, numbers, fields).Ok? <==> forall n :: n in numbers ==> PackField(t, n, fields[n]).Ok?
  {
    if numbers != [] {
      AllPack(t, numbers[1..], fields);
      assert forall n :: n in numbers <==> n == numbers[0] || n in numbers[1..];
    }
  }

  /** Whether a message packs is decided field by field. */
  lemma PacksFieldByField(t: Table, mti: string, fields: Fields)
    ensures Pack(t, mti, fields).Ok? <==>
            && |mti| == 4 && IsNumeral(mti, 10) && 1 !in fields
            && forall n :: n in fields ==> PackField(t, n, fields[n]).Ok?
  {
    var sorted := Sorted(fields.Keys);
    AllPack(t, sorted, fields);
    assert forall n :: n in sorted <==> n in fields;
  }

  lemma Removed(fields: Fields, field: int, text: string)
    requires field !in fields
    ensures fields[field := text] - {field} == fields
  {
    var back := fields[field := text] - {field};
    assert forall n :: n in back <==> n in fields;
    assert forall n :: n in fields ==> n in back && back[n] == fields[n];
  }

  /**
   For any MAC function: a message that packs, once its code is attached in DE 64 or DE 128, still
   packs, comes off the wire unchanged, and verifies under every list of keys holding the sender's.
   */
  lemma MacedMessageVerifies(t: Table, mac: MacFunction, key: Key, mti: string, fields: Fields, field: int, keys: seq<Key>)
    requires HasMacFields(t) && field in {64, 128}
    requires 64 !in fields && 128 !in fields && key in keys
    requires WithMac(t, mac, key, mti, fields, field).Some?
    ensures var sent := WithMac(t, mac, key, mti, fields, field).value;
            && Pack(t, mti, sent).Ok?
            && Unpack(t, Pack(t, mti, sent).value) == Ok((mti, sent))
            && MacFieldOf(sent) == Some(field)
            && Verifies(t, mac, keys, mti, sent)
  {
    var sent := WithMac(t, mac, key, mti, fields, field).value;
    var packed := Pack(t, mti, fields).value;
    var text := sent[field];
    PacksFieldByField(t, mti, fields);
    assert PackField(t, field, text).Ok?;
    PacksFieldByField(t, mti, sent);
    UnpackUndoesPack(t, mti, sent);
    Removed(fields, field, text);
    assert Matches(mac, packed, text, key);
  }

  /**
   The worker's field choice agrees with the wire: its code is in DE 128 exactly when the sent message
   carries a secondary bitmap, which is exactly when the message without the code needed one.
   */
  lemma MacFieldAgreesWithBitmap(t: Table, mac: MacFunction, key: Key, mti: string, fields: Fields)
    requires HasMacFields(t) && 64 !in fields && 128 !in fields
    requires WithMac(t, mac, key, mti, fields, MacFieldFor(fields)).Some?
    ensures var sent := WithMac(t, mac, key, mti, fields, MacFieldFor(fields)).value;
            && (MacFieldOf(sent) == Some(128) <==> NeedsSecondary(sent))
            && (MacFieldOf(sent) == Some(64) <==> !NeedsSecondary(sent))
            && |Bitmaps(sent)| == if MacFieldOf(sent) == Some(128) then 32 else 16
  {
    var sent := WithMac(t, mac, key, mti, fields, MacFieldFor(fields)).value;
    if NeedsSecondary(fields) {
      assert 128 in sent && 128 > 64;
    } else {
      assert forall n :: n in sent ==> n in fields || n == 64;
    }
    BitmapReadBack(PresenceOf(sent), 0);
    BitmapReadBack(PresenceOf(sent), 1);
  }

  // A verified code is the MAC.

  function Upper(s: string): string {
    seq(|s|, i requires 0 <= i < |s| => UpperChar(s[i]))
  }

  predicate IsBytes(bytes: seq<nat>) {
    forall i :: 0 <= i < |bytes| ==> bytes[i] < 256
  }

  /** Two hex digits a byte, the high one first. */
  lemma {:induction false} HexDigitAt(bytes: seq<nat>, i: nat)
    requires IsBytes(bytes) && i < |bytes|
    ensures |HexText(bytes)| == 2 * |bytes|
    ensures HexText(bytes)[2 * i] == HEX_DIGITS[bytes[i] / 16] && HexText(bytes)[2 * i + 1] == HEX_DIGITS[bytes[i] % 16]
  {
    if i < |bytes| - 1 {
      HexDigitAt(bytes[..|bytes| - 1], i);
    }
  }

  /** Different bytes have different texts. */
  lemma HexTextNames(a: seq<nat>, b: seq<nat>)
    requires IsBytes(a) && IsBytes(b)
    ensures HexText(a) == HexText(b) <==> a == b
  {
    if HexText(a) == HexText(b) {
      forall i | 0 <= i < |a| ensures a[i] == b[i] {
        HexDigitAt(a, i);
        HexDigitAt(b, i);
        ByteNamed(a[i], b[i]);
      }
    }
  }

  lemma ByteNamed(a: nat, b: nat)
    requires a < 256 && b < 256 && HEX_DIGITS[a / 16] == HEX_DIGITS[b / 16] && HEX_DIGITS[a % 16] == HEX_DIGITS[b % 16]
    ensures a == b
  {
    assert DigitChar(a / 16) == DigitChar(b / 16) && DigitChar(a % 16) == DigitChar(b % 16);
    assert a == a / 16 * 16 + a % 16 && b == b / 16 * 16 + b % 16;
  }

  lemma UpperHex(s: string)
    requires IsNumeral(s, 16)
    ensures Upper(s) == s
  {
    assert forall i :: 0 <= i < |s| ==> IsDigit(s[i], 16);
  }

  /** Folding case against a code's text leaves only its upper-cased text. */
  lemma FoldsTo(text: string, bytes: seq<nat>)
    requires IsBytes(bytes)
    ensures EqualFold(text, HexText(bytes)) <==> Upper(text) == HexText(bytes)
  {
    UpperHex(HexText(bytes));
    var hex := HexText(bytes);
    if EqualFold(text, hex) {
      assert forall i :: 0 <= i < |hex| ==> Upper(text)[i] == Upper(hex)[i];
      assert Upper(text) == Upper(hex);
    }
    if Upper(text) == hex {
      assert forall i :: 0 <= i < |hex| ==> UpperChar(text[i]) == Upper(text)[i] && UpperChar(hex[i]) == Upper(hex)[i];
    }
  }

  /** A key matches exactly when the text, upper-cased, is the hex of its MAC. */
  lemma MatchIsMac(mac: MacFunction, packed: string, text: string, key: Key, bytes: seq<nat>)
    requires IsBytes(bytes) && Upper(text) == HexText(bytes)
    ensures Matches(mac, packed, text, key) <==> mac(packed, key) == Some(bytes)
  {
    var code := mac(packed, key);
    if code.Some? && IsBytes(code.value) {
      FoldsTo(text, code.value);
      HexTextNames(code.value, bytes);
    }
  }

  /** What a key's MAC is compared with: the message without its MAC field. */
  ghost predicate Carries(t: Table, mti: string, resp: Fields, packed: string, text: string) {
    && MacFieldOf(resp).Some?
    && Pack(t, mti, resp - {MacFieldOf(resp).value}) == Ok(packed)
    && resp[MacFieldOf(resp).value] == text
  }

  /**
   A response that carries these eight bytes verifies if and only if they are the MAC of the rest of it
   under one of the keys; so a code no tried key produces is refused.
   */
  lemma VerifiedIsMac(t: Table, mac: MacFunction, keys: seq<Key>, mti: string, resp: Fields, packed: string, text: string, bytes: seq<nat>)
    requires Carries(t, mti, resp, packed, text) && IsBytes(bytes) && Upper(text) == HexText(bytes)
    ensures Verifies(t, mac, keys, mti, resp) <==> exists k :: k in keys && mac(packed, k) == Some(bytes)
  {
    forall k ensures Matches(mac, packed, text, k) <==> mac(packed, k) == Some(bytes) {
      MatchIsMac(mac, packed, text, k, bytes);
    }
  }

  /** A text that is no hex of bytes never verifies, nor does a response without a code or one that does not pack. */
  lemma GarbageIsRefused(t: Table, mac: MacFunction, keys: seq<Key>, mti: string, resp: Fields)
    requires MacFieldOf(resp).Some? ==>
               || Pack(t, mti, resp - {MacFieldOf(resp).value}).Err?
               || forall bytes :: IsBytes(bytes) ==> Upper(resp[MacFieldOf(resp).value]) != HexText(bytes)
    ensures !Verifies(t, mac, keys, mti, resp)
  {
    if Verifies(t, mac, keys, mti, resp) {
      var field := MacFieldOf(resp).value;
      var packed := Pack(t, mti, resp - {field}).value;
      var k :| k in keys && Matches(mac, packed, resp[field], k);
      FoldsTo(resp[field], mac(packed, k).value);
    }
  }

  /** The keys tried are the active one and the fallback keys that unwrap. */
  lemma {:induction false} UsableKeysAre(rows: seq<Stored>, key: Key)
    ensures key in UsableKeys(rows) <==> Usable(key) in rows
  {
    if rows != [] {
      UsableKeysAre(rows[..|rows| - 1], key);
      assert rows == rows[..|rows| - 1] + [rows[|rows| - 1]];
    }
  }
}
