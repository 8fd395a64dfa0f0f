/** The compact text of a pairing invitation: fixed-width fields in base45. */
module CompactInvitation {
  import opened Common
  import opened Bytes
  import Base45

  type Text = seq<Byte>
  /** Trimming white space is a parameter. */
  type Trimmer = Text -> Text

  const ID_BYTES := 12
  const NONCE_BYTES := 16
  const KEY_BYTES := 32
  const SIGNATURE_BYTES := 64
  const MAX_U8 := 255
  const MAX_U32 := 0xffff_ffff

  datatype Invitation = Invitation(version: int, invitationId: Text, correlationId: Text, nonce: Text, deviceId: Text,
                                   displayName: Text, publicKey: Text, expiresAt: int, signature: Text)

  // ----- hexadecimal fields -----

  function HexDigit(c: Byte): Option<nat> {
    if 0x30 <= c <= 0x39 then Some(c - 0x30)
    else if 0x61 <= c <= 0x66 then Some(c - 0x61 + 10)
    else if 0x41 <= c <= 0x46 then Some(c - 0x41 + 10)
    else None
  }

  lemma HexDigitSmall(c: Byte)
    ensures HexDigit(c).Some? ==> HexDigit(c).value < 16
  {
  }

  function Unhex(s: Text): (r: Option<seq<Byte>>)
    ensures r.Some? ==> 2 * |r.value| == |s|
  {
    if s == [] then Some([])
    else if |s| == 1 then None
    else
      HexDigitSmall(s[0]);
      HexDigitSmall(s[1]);
      match (HexDigit(s[0]), HexDigit(s[1]), Unhex(s[2..]))
      case (Some(h), Some(l), Some(rest)) => Some([16 * h + l] + rest)
      case _ => None
  }

  function FixedHex(value: Text, width: nat, trim: Trimmer): (r: Option<seq<Byte>>)
    ensures r.Some? ==> |r.value| == width
  {
    var s := trim(value);
    if |s| != 2 * width then None else Unhex(s)
  }

  const DEV: Text := [0x64, 0x65, 0x76, 0x5f]           // dev_
  const PAIR: Text := [0x70, 0x61, 0x69, 0x72, 0x5f]    // pair_
  const CORR: Text := [0x63, 0x6f, 0x72, 0x72, 0x5f]    // corr_

  function OpaqueId(value: Text, prefix: Text, trim: Trimmer): (r: Option<seq<Byte>>)
    ensures r.Some? ==> |r.value| == ID_BYTES
  {
    var s := trim(value);
    if prefix <= s then FixedHex(s[|prefix|..], ID_BYTES, trim) else None
  }

  // ----- the payload -----

  /** What a reader of the compact text learns. */
  datatype Content = Content(version: nat, deviceId: seq<Byte>, invitationId: seq<Byte>, correlationId: seq<Byte>,
                             nonce: seq<Byte>, expiresAt: nat, publicKey: seq<Byte>, signature: seq<Byte>,
                             displayName: Text)

  predicate Fits(c: Content) {
    && 0 < c.version <= MAX_U8 && |c.deviceId| == |c.invitationId| == |c.correlationId| == ID_BYTES
      && |c.nonce| == NONCE_BYTES
    && 0 < c.expiresAt <= MAX_U32 && |c.publicKey| == KEY_BYTES && |c.signature| == SIGNATURE_BYTES
      && |c.displayName| <= MAX_U8
  }

  /** The decoded fields of an invitation; nothing when one is malformed or out of range. */
  function ContentOf(v: Invitation, trim: Trimmer): (r: Option<Content>)
    ensures r.Some? ==> Fits(r.value)
  {
    var dev, inv, corr :=
      OpaqueId(v.deviceId, DEV, trim), OpaqueId(v.invitationId, PAIR, trim), OpaqueId(v.correlationId, CORR, trim);
    var nonce, key, signature :=
      FixedHex(v.nonce, NONCE_BYTES, trim), FixedHex(v.publicKey, KEY_BYTES, trim),
      FixedHex(v.signature, SIGNATURE_BYTES, trim);
    if v.version <= 0 || v.version > MAX_U8 || dev.None? || inv.None? || corr.None? || nonce.None? || key.None?
      || signature.None?
       || v.expiresAt <= 0 || v.expiresAt > MAX_U32 || |trim(v.displayName)| > MAX_U8
    then None
    else Some(Content(v.version, dev.value, inv.value, corr.value, nonce.value, v.expiresAt, key.value, signature.value,
      trim(v.displayName)))
  }

  /** The layout: every field but the last has a fixed width, and the last has its length before it. */
  function Payload(c: Content): seq<Byte>
    requires Fits(c)
  {
    [c.version] + c.deviceId + c.invitationId + c.correlationId + c.nonce + BigEndian(c.expiresAt, 4) + c.publicKey
      + c.signature
    + [|c.displayName|] + c.displayName
  }

  /** Reading the layout back. */
  function Parse(p: seq<Byte>): Option<Content> {
    if |p| < 154 || |p| - 154 != p[153] then None
    else Some(Content(p[0], p[1..13], p[13..25], p[25..37], p[37..53], Value(p[53..57]), p[57..89], p[89..153],
      p[154..]))
  }

  lemma PayloadRoundTrip(c: Content)
    requires Fits(c)
    ensures Parse(Payload(c)) == Some(c)
  {
    var p := Payload(c);
    var head := [c.version] + c.deviceId + c.invitationId + c.correlationId + c.nonce;
    var time := BigEndian(c.expiresAt, 4);
    assert |head| == 53 && p[..53] == head;
    assert head[1..13] == c.deviceId && head[13..25] == c.invitationId && head[25..37] == c.correlationId
      && head[37..53] == c.nonce;
    assert p[53..57] == time && p[57..89] == c.publicKey && p[89..153] == c.signature && p[153] == |c.displayName|
      && p[154..] == c.displayName;
    assert p[1..13] == head[1..13] && p[13..25] == head[13..25] && p[25..37] == head[25..37]
      && p[37..53] == head[37..53];
    Powers();
    ValueOfBigEndian(c.expiresAt, 4);
  }

  const PREFIX: string := "TP2:"
  const SUFFIX: string := "."

  function Compact(v: Invitation, trim: Trimmer): Option<string> {
    match ContentOf(v, trim)
    case None => None
    case Some(c) => Some(PREFIX + Base45.Encode(Payload(c)) + SUFFIX)
  }

  /** A reader of the text: take the frame off, decode, and read the layout. */
  function ReadCompact(s: string): Option<Content> {
    if |s| < |PREFIX| + |SUFFIX| then None else
      match Base45.Decode(s[|PREFIX|..|s| - |SUFFIX|])
      case None => None
      case Some(p) => Parse(p)
  }

  /** Every compact text is read back as the decoded fields of its invitation. */
  lemma CompactRoundTrip(v: Invitation, trim: Trimmer)
    requires Compact(v, trim).Some?
    ensures ReadCompact(Compact(v, trim).value) == ContentOf(v, trim)
  {
    var c := ContentOf(v, trim).value;
    var body := Base45.Encode(Payload(c));
    var s := PREFIX + body + SUFFIX;
    assert s[|PREFIX|..|s| - |SUFFIX|] == body;
    Base45.RoundTrip(Payload(c));
    PayloadRoundTrip(c);
  }

  /** Two invitations with the same compact text agree on version, decoded ids, nonce, expiry, key, signature and
      trimmed name. */
  lemma CompactInjective(v: Invitation, w: Invitation, trim: Trimmer)
    requires Compact(v, trim).Some? && Compact(v, trim) == Compact(w, trim)
    ensures v.version == w.version && v.expiresAt == w.expiresAt && trim(v.displayName) == trim(w.displayName)
    ensures OpaqueId(v.deviceId, DEV, trim) == OpaqueId(w.deviceId, DEV, trim)
    ensures OpaqueId(v.invitationId, PAIR, trim) == OpaqueId(w.invitationId, PAIR, trim)
    ensures OpaqueId(v.correlationId, CORR, trim) == OpaqueId(w.correlationId, CORR, trim)
    ensures FixedHex(v.nonce, NONCE_BYTES, trim) == FixedHex(w.nonce, NONCE_BYTES, trim)
    ensures FixedHex(v.publicKey, KEY_BYTES, trim) == FixedHex(w.publicKey, KEY_BYTES, trim)
    ensures FixedHex(v.signature, SIGNATURE_BYTES, trim) == FixedHex(w.signature, SIGNATURE_BYTES, trim)
  {
    CompactRoundTrip(v, trim);
    CompactRoundTrip(w, trim);
  }

  /** The text has the length of its base45 body and a frame of five characters. */
  lemma CompactLength(v: Invitation, trim: Trimmer)
    requires Compact(v, trim).Some?
    ensures var n := 154 + |trim(v.displayName)|; |Compact(v, trim).value| == 5 + 3 * (n / 2) + 2 * (n % 2)
  {
    var c := ContentOf(v, trim).value;
    Base45.DigitCount(Payload(c));
    assert |Payload(c)| == 154 + |c.displayName|;
    assert |PREFIX| == 4 && |SUFFIX| == 1;
  }

  // ----- which invitations have a compact text -----

  predicate IsHex(c: Byte) { '0' as int <= c <= '9' as int || 'a' as int <= c <= 'f' as int
    || 'A' as int <= c <= 'F' as int }

  /** Hexadecimal text is read exactly if it is pairs of hexadecimal digits; each pair is a byte, high digit first. */
  lemma {:induction false} UnhexExactly(s: Text)
    ensures Unhex(s).Some? <==> |s| % 2 == 0 && forall i :: 0 <= i < |s| ==> IsHex(s[i])
    ensures Unhex(s).Some? ==> forall i :: 0 <= i < |Unhex(s).value| ==>
      && HexDigit(s[2 * i]).Some? && HexDigit(s[2 * i + 1]).Some?
      && Unhex(s).value[i] == 16 * HexDigit(s[2 * i]).value + HexDigit(s[2 * i + 1]).value
  {
    if |s| >= 2 {
      var rest := s[2..];
      UnhexExactly(rest);
      assert forall i :: 0 <= i < |rest| ==> rest[i] == s[i + 2];
      assert forall i :: 2 <= i < |s| ==> s[i] == rest[i - 2];
    }
  }

  /** A field of fixed width: just as many digits as it needs, once trimmed. */
  predicate HexField(value: Text, width: nat) {
    |value| == 2 * width && forall i :: 0 <= i < |value| ==> IsHex(value[i])
  }

  lemma FixedHexExactly(value: Text, width: nat, trim: Trimmer)
    ensures FixedHex(value, width, trim).Some? <==> HexField(trim(value), width)
  {
    UnhexExactly(trim(value));
  }

  lemma OpaqueIdExactly(value: Text, prefix: Text, trim: Trimmer)
    ensures OpaqueId(value, prefix, trim).Some? <==>
      prefix <= trim(value) && HexField(trim(trim(value)[|prefix|..]), 12)
  {
    if prefix <= trim(value) { FixedHexExactly(trim(value)[|prefix|..], ID_BYTES, trim); }
  }

  /** An invitation has a compact text exactly if its version is a byte above zero, its time four bytes above zero, its
      three identifiers are their prefix and twelve bytes of digits, its nonce, key and signature are sixteen,
      thirty-two and sixty-four bytes of digits, and its name is at most 255 bytes. */
  lemma CompactExactlyWhen(v: Invitation, trim: Trimmer)
    ensures Compact(v, trim).Some? <==>
      && 0 < v.version <= 255 && 0 < v.expiresAt <= 0xffff_ffff && |trim(v.displayName)| <= 255
      && OpaqueId(v.deviceId, DEV, trim).Some? && OpaqueId(v.invitationId, PAIR, trim).Some?
      && OpaqueId(v.correlationId, CORR, trim).Some?
      && HexField(trim(v.nonce), 16) && HexField(trim(v.publicKey), 32) && HexField(trim(v.signature), 64)
  {
    FixedHexExactly(v.nonce, NONCE_BYTES, trim);
    FixedHexExactly(v.publicKey, KEY_BYTES, trim);
    FixedHexExactly(v.signature, SIGNATURE_BYTES, trim);
  }
}
