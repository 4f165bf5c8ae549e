/** The sealed payload of a page token: its JSON text and its fixed-size padding (internal/center/activity/cursor.go).
    */
module CursorText {
  import opened Text
  import opened ActivityTypes
  import opened Bytes

  const BUCKET := 512

  // ----- JSON members -----

  datatype Json = Number(i: int) | Str(s: string)

  type Member = (char, Json)

  predicate PlainChar(c: char) { LowerAlnum(c) || c == '_' }

  /** Characters JSON writes as they are. */
  predicate Plain(s: string) {
    forall i :: 0 <= i < |s| ==> PlainChar(s[i])
  }

  predicate PlainJson(v: Json) {
    v.Str? ==> Plain(v.s)
  }

  function Render(v: Json): string {
    match v
    case Number(i) => FormatInt(i)
    case Str(s) => "\"" + s + "\""
  }

  function Lead(first: bool, key: char): string {
    [if first then '{' else ',', '"', key, '"', ':']
  }

  function Object(members: seq<Member>, first: bool): (r: string)
    ensures |r| >= 1 && (r[0] == '{' || r[0] == ',' || r[0] == '}')
  {
    if members == [] then "}" else Lead(first, members[0].0) + (Render(members[0].1) + Object(members[1..], false))
  }

  predicate NumberChar(c: char) { IsDigit(c) || c == '-' }

  // ----- reading it back -----

  /** How many characters at the start are of this kind. */
  function Run(text: string, kind: char -> bool): (n: nat)
    ensures n <= |text|
  {
    if text == "" || !kind(text[0]) then 0 else 1 + Run(text[1..], kind)
  }

  function DigitValue(c: char): nat
    requires IsDigit(c)
  {
    c as int - '0' as int
  }

  function FromDecimal(digits: string): nat
    requires forall i :: 0 <= i < |digits| ==> IsDigit(digits[i])
  {
    if digits == "" then 0 else 10 * FromDecimal(digits[..|digits| - 1]) + DigitValue(digits[|digits| - 1])
  }

  function ParseInt(text: string): Option<int> {
    var digits := if text != "" && text[0] == '-' then text[1..] else text;
    if digits == "" || exists i :: 0 <= i < |digits| && !IsDigit(digits[i]) then None
    else
      var n: int := FromDecimal(digits);
      Some(if digits == text then n else -n)
  }

  /** A string or a number at the start of the text, and what follows it. */
  function ReadValue(text: string, quoted: bool): Option<(Json, string)> {
    if quoted then
      if text == "" || text[0] != '"' then None
      else
        var n := Run(text[1..], PlainChar);
        if 1 + n < |text| && text[1 + n] == '"' then Some((Str(text[1..1 + n]), text[2 + n..])) else None
    else
      var n := Run(text, NumberChar);
      match ParseInt(text[..n])
      case None => None
      case Some(i) => Some((Number(i), text[n..]))
  }

  /** The rest of an object with these keys, each for a string or a number. */
  function ReadObject(text: string, keys: seq<(char, bool)>, first: bool): Option<seq<Member>>
    decreases |keys|
  {
    if keys == [] then if text == "}" then Some([]) else None
    else if |text| < 5 || text[..5] != Lead(first, keys[0].0) then None
    else
      match ReadValue(text[5..], keys[0].1)
      case None => None
      case Some((v, rest)) =>
        match ReadObject(rest, keys[1..], false)
        case None => None
        case Some(members) => Some([(keys[0].0, v)] + members)
  }

  lemma {:induction false} RunStops(a: string, x: string, kind: char -> bool)
    requires (forall i :: 0 <= i < |a| ==> kind(a[i])) && (x == "" || !kind(x[0]))
    ensures Run(a + x, kind) == |a|
    decreases |a|
  {
    if a == "" {
      assert a + x == x;
    } else {
      assert (a + x)[1..] == a[1..] + x;
      RunStops(a[1..], x, kind);
    }
  }

  lemma {:induction false} FromDecimalReads(n: nat)
    ensures FromDecimal(Decimal(n)) == n
  {
    var d := Decimal(n);
    if n < 10 {
      assert d[..0] == "";
    } else {
      FromDecimalReads(n / 10);
      assert d[..|d| - 1] == Decimal(n / 10) && d[|d| - 1] == Digit(n % 10);
    }
  }

  lemma ParseIntReads(i: int)
    ensures ParseInt(FormatInt(i)) == Some(i)
  {
    if i < 0 {
      FromDecimalReads(-i);
      assert FormatInt(i)[1..] == Decimal(-i);
    } else {
      FromDecimalReads(i);
      assert FormatInt(i)[0] != '-';
    }
  }

  lemma ReadsNumber(i: int, x: string)
    requires x != "" && !NumberChar(x[0])
    ensures ReadValue(FormatInt(i) + x, false) == Some((Number(i), x))
  {
    var digits := FormatInt(i);
    RunStops(digits, x, NumberChar);
    assert (digits + x)[..|digits|] == digits && (digits + x)[|digits|..] == x;
    ParseIntReads(i);
  }

  lemma ReadsString(s: string, x: string)
    requires Plain(s)
    ensures ReadValue("\"" + s + "\"" + x, true) == Some((Str(s), x))
  {
    var text, tail := "\"" + s + "\"" + x, "\"" + x;
    assert text[1..] == s + tail;
    RunStops(s, tail, PlainChar);
    assert text[1..1 + |s|] == s && text[2 + |s|..] == x;
  }

  lemma ReadsValue(v: Json, x: string)
    requires PlainJson(v) && x != "" && !NumberChar(x[0])
    ensures ReadValue(Render(v) + x, v.Str?) == Some((v, x))
  {
    match v
    case Number(i) => ReadsNumber(i, x);
    case Str(s) => ReadsString(s, x);
  }

  function KeysOf(members: seq<Member>): seq<(char, bool)> {
    if members == [] then [] else [(members[0].0, members[0].1.Str?)] + KeysOf(members[1..])
  }

  /** Reading undoes writing. */
  lemma {:induction false} ReadsObject(members: seq<Member>, first: bool)
    requires AllPlain(members)
    ensures ReadObject(Object(members, first), KeysOf(members), first) == Some(members)
    decreases |members|
  {
    if members != [] {
      var rest := Object(members[1..], false);
      ReadsObject(members[1..], false);
      ReadsMember(members[0].0, members[0].1, rest, KeysOf(members[1..]), first, members[1..]);
      assert members == [(members[0].0, members[0].1)] + members[1..];
    }
  }

  lemma ReadsMember(key: char, v: Json, rest: string, keys: seq<(char, bool)>, first: bool, members: seq<Member>)
    requires PlainJson(v) && rest != "" && !NumberChar(rest[0]) && ReadObject(rest, keys, false) == Some(members)
    ensures ReadObject(Lead(first, key) + (Render(v) + rest), [(key, v.Str?)] + keys, first) == Some([(key, v)] + members)
  {
    var text, all := Lead(first, key) + (Render(v) + rest), [(key, v.Str?)] + keys;
    assert text[..5] == Lead(first, key) && text[5..] == Render(v) + rest && all[1..] == keys;
    ReadsValue(v, rest);
  }

  predicate AllPlain(a: seq<Member>) {
    forall i :: 0 <= i < |a| ==> PlainJson(a[i].1)
  }

  function TextLength(members: seq<Member>): nat {
    if members == [] then 1 else 5 + |Render(members[0].1)| + TextLength(members[1..])
  }

  lemma {:induction false} ObjectLength(members: seq<Member>, first: bool)
    ensures |Object(members, first)| == TextLength(members)
    decreases |members|
  {
    if members != [] {
      ObjectLength(members[1..], false);
    }
  }

  // ----- the envelope -----

  datatype Envelope = Envelope(
    version: nat, query: string, actor: string, generation: uint64, asOf: uint64,
    expiresAt: int64, eventAt: int64, recordedAt: int64, sourceKind: string, activityId: string)

  /** The members in the order they are written. */
  function Field(e: Envelope, i: nat): Member
    requires i < 10
  {
    match i
    case 0 => ('v', Number(e.version))
    case 1 => ('q', Str(e.query))
    case 2 => ('a', Str(e.actor))
    case 3 => ('g', Number(e.generation))
    case 4 => ('w', Number(e.asOf))
    case 5 => ('e', Number(e.expiresAt))
    case 6 => ('t', Number(e.eventAt))
    case 7 => ('r', Number(e.recordedAt))
    case 8 => ('s', Str(e.sourceKind))
    case _ => ('i', Str(e.activityId))
  }

  function MembersFrom(e: Envelope, i: nat): (m: seq<Member>)
    requires i <= 10
    ensures |m| == 10 - i && forall k :: 0 <= k < |m| ==> m[k] == Field(e, i + k)
    decreases 10 - i
  {
    if i == 10 then [] else [Field(e, i)] + MembersFrom(e, i + 1)
  }

  function Marshal(e: Envelope): string {
    Object(MembersFrom(e, 0), true)
  }

  predicate PlainEnvelope(e: Envelope) {
    Plain(e.query) && Plain(e.actor) && Plain(e.sourceKind) && Plain(e.activityId)
  }

  lemma MembersPlain(e: Envelope)
    requires PlainEnvelope(e)
    ensures AllPlain(MembersFrom(e, 0))
  {
    forall i | 0 <= i < 10
      ensures PlainJson(Field(e, i).1)
    {
    }
  }

  function Payload(e: Envelope): seq<Byte> {
    Utf8(Marshal(e))
  }

  // ----- decoding -----

  /** The keys of the envelope, and which of them hold strings. */
  function Keys(i: nat): seq<(char, bool)>
    requires i <= 10
    decreases 10 - i
  {
    if i == 10 then [] else [("vqagwetrsi"[i], i in [1, 2, 8, 9])] + Keys(i + 1)
  }

  predicate Int64(v: Json) { v.Number? && MIN_INT64 <= v.i <= MAX_INT64 }

  predicate Uint64(v: Json) { v.Number? && 0 <= v.i < 0x1_0000_0000_0000_0000 }

  /** The envelope with these members, unless a number does not fit its field. */
  function FromMembers(m: seq<Member>): Option<Envelope> {
    if |m| == 10 && Uint64(m[0].1) && m[1].1.Str? && m[2].1.Str? && Uint64(m[3].1) && Uint64(m[4].1) && Int64(m[5].1)
       && Int64(m[6].1) && Int64(m[7].1) && m[8].1.Str? && m[9].1.Str?
    then Some(Envelope(m[0].1.i, m[1].1.s, m[2].1.s, m[3].1.i, m[4].1.i, m[5].1.i, m[6].1.i, m[7].1.i, m[8].1.s,
                       m[9].1.s))
    else None
  }

  predicate AllAscii(bytes: seq<Byte>) {
    forall i :: 0 <= i < |bytes| ==> bytes[i] < 128
  }

  function Chars(bytes: seq<Byte>): string
    requires AllAscii(bytes)
  {
    seq(|bytes|, i requires 0 <= i < |bytes| => bytes[i] as char)
  }

  /** The decoder, on texts in the form the encoder writes. */
  function Unmarshal(payload: seq<Byte>): Option<Envelope> {
    if !AllAscii(payload) then None
    else
      match ReadObject(Chars(payload), Keys(0), true)
      case None => None
      case Some(members) => FromMembers(members)
  }

  lemma {:induction false} KeysOfMembers(e: Envelope, i: nat)
    requires i <= 10
    ensures KeysOf(MembersFrom(e, i)) == Keys(i)
    decreases 10 - i
  {
    if i < 10 {
      KeysOfMembers(e, i + 1);
      assert MembersFrom(e, i)[1..] == MembersFrom(e, i + 1);
      KeyAt(e, i);
    }
  }

  lemma KeyAt(e: Envelope, i: nat)
    requires i < 10
    ensures Field(e, i).0 == "vqagwetrsi"[i] && (Field(e, i).1.Str? <==> i in [1, 2, 8, 9])
  {
  }

  lemma FromMembersReads(e: Envelope)
    requires e.version < 0x1_0000_0000_0000_0000
    ensures FromMembers(MembersFrom(e, 0)) == Some(e)
  {
    var m := MembersFrom(e, 0);
    assert m[0] == Field(e, 0) && m[1] == Field(e, 1) && m[2] == Field(e, 2) && m[3] == Field(e, 3);
    assert m[4] == Field(e, 4);
    assert m[5] == Field(e, 5) && m[6] == Field(e, 6) && m[7] == Field(e, 7) && m[8] == Field(e, 8);
    assert m[9] == Field(e, 9);
  }

  /** What was marshalled is read back. */
  lemma Unmarshals(e: Envelope)
    requires PlainEnvelope(e) && e.version < 0x1_0000_0000_0000_0000
    ensures Unmarshal(Payload(e)) == Some(e)
  {
    var m := MembersFrom(e, 0);
    MembersPlain(e);
    ObjectAscii(m, true);
    AsciiReads(Marshal(e));
    KeysOfMembers(e, 0);
    ReadsObject(m, true);
    FromMembersReads(e);
  }

  predicate AsciiText(s: string) {
    forall i :: 0 <= i < |s| ==> s[i] as int < 128
  }

  lemma AsciiReads(s: string)
    requires AsciiText(s)
    ensures AllAscii(Utf8(s)) && Chars(Utf8(s)) == s
  {
    AsciiBytes(s);
  }

  lemma {:induction false} AsciiBytes(s: string)
    requires AsciiText(s)
    ensures |Utf8(s)| == |s| && forall i :: 0 <= i < |s| ==> Utf8(s)[i] == s[i] as int < 128
  {
    if s != "" {
      AsciiBytes(s[1..]);
      assert Utf8Char(s[0]) == [s[0] as int];
    }
  }

  lemma {:induction false} ObjectAscii(members: seq<Member>, first: bool)
    requires AllPlain(members) && forall i :: 0 <= i < |members| ==> members[i].0 as int < 128
    ensures AsciiText(Object(members, first))
    decreases |members|
  {
    if members != [] {
      ObjectAscii(members[1..], false);
      assert AsciiText(Render(members[0].1));
    }
  }

  // ----- how long it can be -----

  lemma NumberWidth(i: int)
    requires MIN_INT64 <= i < 0x1_0000_0000_0000_0000
    ensures |FormatInt(i)| <= 20
  {
    assert Pow10(5) == 100000;
    assert Pow10(10) == 10_000_000_000;
    assert Pow10(15) == 100000 * Pow10(10) by {
      assert Pow10(12) == 100 * Pow10(10);
      assert Pow10(14) == 100 * Pow10(12);
    }
    assert Pow10(19) == 10000 * Pow10(15) by {
      assert Pow10(17) == 100 * Pow10(15);
      assert Pow10(19) == 100 * Pow10(17);
    }
    if i < 0 {
      DecimalWidth(-i, 19);
    } else {
      DecimalWidth(i, 20);
    }
  }

  predicate Bounded(e: Envelope) {
    PlainEnvelope(e) && e.version == 1 && |e.query| == 64 && |e.actor| == 64 && |e.sourceKind| <= 17 && |e.activityId| <= 68
  }

  /** A payload never needs more than 373 bytes. */
  lemma PayloadFits(e: Envelope)
    requires Bounded(e)
    ensures |Payload(e)| <= 373
  {
    var m := MembersFrom(e, 0);
    MembersPlain(e);
    ObjectAscii(m, true);
    AsciiBytes(Marshal(e));
    ObjectLength(m, true);
    NumberWidth(e.generation);
    NumberWidth(e.asOf);
    NumberWidth(e.expiresAt);
    NumberWidth(e.eventAt);
    NumberWidth(e.recordedAt);
    LengthOfTen(m);
    assert Decimal(1) == "1";
  }

  lemma LengthOfTen(m: seq<Member>)
    requires |m| == 10
    ensures TextLength(m) == 51 + |Render(m[0].1)| + |Render(m[1].1)| + |Render(m[2].1)| + |Render(m[3].1)| + |Render(m[4].1)|
                             + |Render(m[5].1)| + |Render(m[6].1)| + |Render(m[7].1)| + |Render(m[8].1)| + |Render(m[9].1)|
  {
    LengthOfTwo(m);
    LengthOfTwo(m[2..]);
    LengthOfTwo(m[4..]);
    LengthOfTwo(m[6..]);
    LengthOfTwo(m[8..]);
    assert m[2..][2..] == m[4..] && m[4..][2..] == m[6..] && m[6..][2..] == m[8..] && m[8..][2..] == [];
  }

  lemma LengthOfTwo(m: seq<Member>)
    requires |m| >= 2
    ensures TextLength(m) == 10 + |Render(m[0].1)| + |Render(m[1].1)| + TextLength(m[2..])
  {
    assert m[1..][1..] == m[2..];
  }

  // ----- padding -----

  function Pad(payload: seq<Byte>): Option<seq<Byte>> {
    if |payload| + 4 > BUCKET then None
    else Some(BigEndian(|payload|, 4) + payload + seq(BUCKET - 4 - |payload|, i => 0))
  }

  function Unpad(padded: seq<Byte>): Option<seq<Byte>> {
    if |padded| != BUCKET then None
    else
      var length := FromBigEndian(padded[..4]);
      if length + 4 > BUCKET then None else Some(padded[4..4 + length])
  }

  /** Padding can be undone, and always fills the bucket. */
  lemma UnpadPad(payload: seq<Byte>)
    requires |payload| + 4 <= BUCKET
    ensures Pad(payload).Some? && |Pad(payload).value| == BUCKET && Unpad(Pad(payload).value) == Some(payload)
  {
    var padded := Pad(payload).value;
    assert Pow256(4) == 0x1_0000_0000;
    BigEndianReads(|payload|, 4);
    assert padded[..4] == BigEndian(|payload|, 4);
    assert padded[4..4 + |payload|] == payload;
  }

  method PadCursorPlaintext(payload: seq<Byte>) returns (result: Option<seq<Byte>>)
    ensures result == Pad(payload)
  {
    if |payload| + 4 > BUCKET {
      return None;
    }
    var padded := new Byte[BUCKET](i => 0);
    var length := BigEndian(|payload|, 4);
    for i := 0 to 4
      invariant padded[..] == length[..i] + seq(BUCKET - i, j => 0)
    {
      padded[i] := length[i];
    }
    for i := 0 to |payload|
      invariant padded[..] == length + payload[..i] + seq(BUCKET - 4 - i, j => 0)
    {
      padded[4 + i] := payload[i];
    }
    assert payload[..|payload|] == payload;
    result := Some(padded[..]);
  }
}
