/** The byte strings that are signed or hashed during pairing: a prefix and fields, each
    after its length in two bytes.  Texts are byte strings here. */
module Transcripts {
  import opened Common
  import opened Bytes
  import Decimal

  type Text = seq<Byte>
  const FIELD_LIMIT := 0xffff

  /** The bytes of a text of ASCII characters. */
  function Ascii(s: string): (r: Text)
    requires forall i :: 0 <= i < |s| ==> s[i] < '\U{80}'
    ensures |r| == |s|
  {
    seq(|s|, i requires 0 <= i < |s| => s[i] as int)
  }

  lemma AsciiInjective(s: string, t: string)
    requires (forall i :: 0 <= i < |s| ==> s[i] < '\U{80}') && (forall i :: 0 <= i < |t| ==> t[i] < '\U{80}')
    requires Ascii(s) == Ascii(t)
    ensures s == t
  {
    forall i | 0 <= i < |s| ensures s[i] == t[i] { assert Ascii(s)[i] == Ascii(t)[i]; }
  }

  lemma DecimalIsAscii(n: int)
    ensures forall i :: 0 <= i < |Decimal.Text(n)| ==> Decimal.Text(n)[i] < '\U{80}'
  {
  }

  function Number(n: int): Text {
    DecimalIsAscii(n);
    Ascii(Decimal.Text(n))
  }

  // ----- length-prefixed fields -----

  function Field(value: Text): Text {
    BigEndian(|value|, 2) + value
  }

  function Fields(fs: seq<Text>): Text {
    if fs == [] then [] else Field(fs[0]) + Fields(fs[1..])
  }

  ghost predicate Short(fs: seq<Text>) {
    forall i :: 0 <= i < |fs| ==> |fs[i]| <= FIELD_LIMIT
  }

  /** Reading fields back until nothing is left. */
  function Unfields(s: Text): Option<seq<Text>>
    decreases |s|
  {
    if s == [] then Some([])
    else if |s| < 2 then None
    else
      var n := Value(s[..2]);
      if |s| < 2 + n then None else
        match Unfields(s[2 + n..])
        case None => None
        case Some(rest) => Some([s[2..2 + n]] + rest)
  }

  /** One field is cut off exactly, whatever follows it. */
  lemma FieldCut(value: Text, tail: Text)
    requires |value| <= FIELD_LIMIT
    ensures var s := Field(value) + tail;
      |s| >= 2 && Value(s[..2]) == |value| && |s| >= 2 + |value| && s[2..2 + |value|] == value
        && s[2 + |value|..] == tail
  {
    var s := Field(value) + tail;
    Powers();
    ValueOfBigEndian(|value|, 2);
    assert s[..2] == BigEndian(|value|, 2);
  }

  /** Any list of fields is decoded uniquely. */
  lemma {:induction false} FieldsRoundTrip(fs: seq<Text>)
    requires Short(fs)
    ensures Unfields(Fields(fs)) == Some(fs)
  {
    if fs != [] {
      FieldsRoundTrip(fs[1..]);
      FieldCut(fs[0], Fields(fs[1..]));
      assert [fs[0]] + fs[1..] == fs;
    }
  }

  lemma FieldsInjective(fs: seq<Text>, gs: seq<Text>)
    requires Short(fs) && Short(gs) && Fields(fs) == Fields(gs)
    ensures fs == gs
  {
    FieldsRoundTrip(fs);
    FieldsRoundTrip(gs);
  }

  /** A prefix and fields; nothing when a field is too long. */
  function Transcript(prefix: Text, fs: seq<Text>): Option<Text> {
    if forall i :: 0 <= i < |fs| ==> |fs[i]| <= FIELD_LIMIT then Some(prefix + Fields(fs)) else None
  }

  lemma TranscriptInjective(prefix: Text, fs: seq<Text>, gs: seq<Text>)
    requires Transcript(prefix, fs).Some? && Transcript(prefix, fs) == Transcript(prefix, gs)
    ensures fs == gs
  {
    var s := Transcript(prefix, fs).value;
    assert s[|prefix|..] == Fields(fs) && s[|prefix|..] == Fields(gs);
    FieldsInjective(fs, gs);
  }

  lemma {:induction false} FieldsSnoc(fs: seq<Text>, last: Text)
    ensures Fields(fs + [last]) == Fields(fs) + Field(last)
  {
    if fs == [] {
      assert [last][1..] == [] && Fields([last]) == Field(last) + Fields([]);
    } else {
      FieldsSnoc(fs[1..], last);
      assert (fs + [last])[1..] == fs[1..] + [last];
    }
  }

  /** Appending one field, as far as its length fits in two bytes. */
  method AppendLengthPrefixed(out: Text, value: Text) returns (r: Option<Text>)
    ensures r == if |value| <= FIELD_LIMIT then Some(out + Field(value)) else None
  {
    if |value| > FIELD_LIMIT { return None; }
    r := Some(out + BigEndian(|value|, 2) + value);
    assert out + BigEndian(|value|, 2) + value == out + Field(value);
  }

  /** The loop over the fields. */
  method Canonical(prefix: Text, fields: seq<Text>) returns (r: Option<Text>)
    ensures r == Transcript(prefix, fields)
  {
    var out := prefix;
    assert prefix == prefix + Fields([]);
    for i := 0 to |fields|
      invariant out == prefix + Fields(fields[..i]) && Short(fields[..i])
    {
      var next := AppendLengthPrefixed(out, fields[i]);
      if next.None? { return None; }
      FieldsSnoc(fields[..i], fields[i]);
      assert fields[..i + 1] == fields[..i] + [fields[i]];
      assert prefix + Fields(fields[..i]) + Field(fields[i]) == prefix + (Fields(fields[..i]) + Field(fields[i]));
      out := next.value;
    }
    assert fields[..|fields|] == fields;
    r := Some(out);
  }

  // ----- what is signed -----

  datatype Invitation = Invitation(version: int, accountId: Text, daemonId: Text, displayName: Text, publicKey: Text,
                                   fingerprint: Text, invitationId: Text, correlationId: Text, nonce: Text,
                                   expiresAt: int, relayBaseUrl: Text, signature: Text)
  datatype Response = Response(version: int, accountId: Text, invitationId: Text, correlationId: Text, publicKey: Text,
                               fingerprint: Text, displayName: Text, signature: Text)

  const INVITATION_PREFIX: string := "tunnel-pairing-invitation-v1"
  const RESPONSE_PREFIX: string := "tunnel-pairing-android-response-v1"

  /** Normalising a fingerprint is a parameter. */
  type Normalizer = Text -> Text

  function InvitationFields(v: Invitation, norm: Normalizer): seq<Text> {
    [v.accountId, v.daemonId, v.displayName, norm(v.fingerprint), v.publicKey, v.invitationId, v.correlationId, v.nonce,
      v.relayBaseUrl, Number(v.expiresAt)]
  }

  function ResponseFields(r: Response, norm: Normalizer): seq<Text> {
    [r.accountId, r.invitationId, r.correlationId, norm(r.fingerprint), r.publicKey, r.displayName]
  }

  function CanonicalInvitation(v: Invitation, norm: Normalizer): Option<Text> {
    Transcript(Ascii(INVITATION_PREFIX), InvitationFields(v, norm))
  }

  function CanonicalResponse(r: Response, norm: Normalizer): Option<Text> {
    Transcript(Ascii(RESPONSE_PREFIX), ResponseFields(r, norm))
  }

  lemma NumberInjective(m: int, n: int)
    requires Number(m) == Number(n)
    ensures m == n
  {
    DecimalIsAscii(m);
    DecimalIsAscii(n);
    AsciiInjective(Decimal.Text(m), Decimal.Text(n));
    Decimal.TextInjective(m, n);
  }

  /** Equal signed bytes mean equal invitations: every signed field, the fingerprint up to normalisation. */
  lemma InvitationInjective(v: Invitation, w: Invitation, norm: Normalizer)
    requires CanonicalInvitation(v, norm).Some? && CanonicalInvitation(v, norm) == CanonicalInvitation(w, norm)
    ensures norm(v.fingerprint) == norm(w.fingerprint)
    ensures v.(version := w.version, signature := w.signature, fingerprint := w.fingerprint) == w
  {
    var f, g := InvitationFields(v, norm), InvitationFields(w, norm);
    TranscriptInjective(Ascii(INVITATION_PREFIX), f, g);
    assert f[0] == g[0] && f[1] == g[1] && f[2] == g[2] && f[3] == g[3] && f[4] == g[4] && f[5] == g[5] && f[6] == g[6]
      && f[7] == g[7] && f[8] == g[8] && f[9] == g[9];
    NumberInjective(v.expiresAt, w.expiresAt);
  }

  lemma ResponseInjective(v: Response, w: Response, norm: Normalizer)
    requires CanonicalResponse(v, norm).Some? && CanonicalResponse(v, norm) == CanonicalResponse(w, norm)
    ensures norm(v.fingerprint) == norm(w.fingerprint)
    ensures v.(version := w.version, signature := w.signature, fingerprint := w.fingerprint) == w
  {
    var f, g := ResponseFields(v, norm), ResponseFields(w, norm);
    TranscriptInjective(Ascii(RESPONSE_PREFIX), f, g);
    assert f[0] == g[0] && f[1] == g[1] && f[2] == g[2] && f[3] == g[3] && f[4] == g[4] && f[5] == g[5];
  }

  /** Neither text starts with the other. */
  ghost predicate Apart(p: Text, q: Text) {
    exists i :: 0 <= i < |p| && i < |q| && p[i] != q[i]
  }

  lemma ApartTranscripts(p: Text, fs: seq<Text>, q: Text, gs: seq<Text>)
    requires Apart(p, q) && Transcript(p, fs).Some?
    ensures Transcript(p, fs) != Transcript(q, gs)
  {
    var i :| 0 <= i < |p| && i < |q| && p[i] != q[i];
    assert (p + Fields(fs))[i] == p[i] && (q + Fields(gs))[i] == q[i];
  }

  lemma PrefixesDiffer()
    ensures Apart(Ascii(INVITATION_PREFIX), Ascii(RESPONSE_PREFIX))
  {
    var p, q := Ascii(INVITATION_PREFIX), Ascii(RESPONSE_PREFIX);
    assert INVITATION_PREFIX[15] == 'i' && RESPONSE_PREFIX[15] == 'a';
    assert p[15] != q[15];
  }

  /** No bytes are both a signed invitation and a signed response. */
  lemma NeverBoth(v: Invitation, r: Response, norm: Normalizer)
    requires CanonicalInvitation(v, norm).Some?
    ensures CanonicalInvitation(v, norm) != CanonicalResponse(r, norm)
  {
    PrefixesDiffer();
    ApartTranscripts(Ascii(INVITATION_PREFIX), InvitationFields(v, norm), Ascii(RESPONSE_PREFIX),
      ResponseFields(r, norm));
  }

  // ----- the comparison code's input -----

  function SasFields(daemonKey: Text, clientKey: Text, invitationId: Text, nonce: Text): seq<Text> {
    [daemonKey, clientKey, invitationId, nonce]
  }

  function CanonicalSasInput(daemonKey: Text, clientKey: Text, invitationId: Text, nonce: Text): (r: Option<Text>)
    ensures r == Transcript([], SasFields(daemonKey, clientKey, invitationId, nonce))
  {
    if |daemonKey| > FIELD_LIMIT || |clientKey| > FIELD_LIMIT || |invitationId| > FIELD_LIMIT
      || |nonce| > FIELD_LIMIT then
      assert exists i :: 0 <= i < 4 && |SasFields(daemonKey, clientKey, invitationId, nonce)[i]| > FIELD_LIMIT by {
        var fs := SasFields(daemonKey, clientKey, invitationId, nonce);
        assert fs[0] == daemonKey && fs[1] == clientKey && fs[2] == invitationId && fs[3] == nonce;
      }
      None
    else
      SasBytes(daemonKey, clientKey, invitationId, nonce);
      Some(Field(daemonKey) + Field(clientKey) + Field(invitationId) + Field(nonce))
  }

  lemma SasBytes(a: Text, b: Text, c: Text, d: Text)
    ensures [] + Fields(SasFields(a, b, c, d)) == Field(a) + Field(b) + Field(c) + Field(d)
  {
    var fs := SasFields(a, b, c, d);
    assert fs[1..] == [b, c, d] && fs[1..][1..] == [c, d] && [c, d][1..] == [d] && [d][1..] == [];
    assert Fields([d]) == Field(d) + Fields([]);
    assert Fields([c, d]) == Field(c) + Fields([d]);
    assert Fields([b, c, d]) == Field(b) + Fields([c, d]);
  }

  /** Equal inputs of the code mean equal keys, invitation and nonce. */
  lemma SasInjective(a: Text, b: Text, c: Text, d: Text, a': Text, b': Text, c': Text, d': Text)
    requires CanonicalSasInput(a, b, c, d).Some? && CanonicalSasInput(a, b, c, d) == CanonicalSasInput(a', b', c', d')
    ensures a == a' && b == b' && c == c' && d == d'
  {
    var f, g := SasFields(a, b, c, d), SasFields(a', b', c', d');
    TranscriptInjective([], f, g);
    assert f[0] == g[0] && f[1] == g[1] && f[2] == g[2] && f[3] == g[3];
  }

  // ----- the layout -----

  /** A transcript exists exactly if no field is longer than two bytes can tell; it is the prefix and the fields. */
  lemma TranscriptExactly(prefix: Text, fs: seq<Text>)
    ensures Transcript(prefix, fs).Some? <==> forall i :: 0 <= i < |fs| ==> |fs[i]| <= 65535
    ensures Transcript(prefix, fs).Some? ==> Transcript(prefix, fs).value == prefix + Fields(fs)
  {
  }

  /** A field in front of what follows: its length in two bytes, high byte first, and its bytes. */
  function Before(value: Text, tail: Text): Text
    requires |value| <= 65535
  {
    [|value| / 256, |value| % 256] + value + tail
  }

  lemma FieldIs(fs: seq<Text>)
    requires fs != [] && |fs[0]| <= 65535
    ensures Fields(fs) == Before(fs[0], Fields(fs[1..]))
  {
    var n := |fs[0]|;
    assert BigEndian(n / 256 / 256, 0) == [];
    assert BigEndian(n / 256, 1) == [] + [n / 256 % 256] && BigEndian(n, 2) == BigEndian(n / 256, 1) + [n % 256];
    assert n / 256 % 256 == n / 256;
  }

  /** What an invitation is signed over: its prefix, then these ten fields in this order. */
  lemma InvitationLayout(v: Invitation, norm: Normalizer)
    requires CanonicalInvitation(v, norm).Some?
    ensures CanonicalInvitation(v, norm).value == Ascii("tunnel-pairing-invitation-v1") + Fields([v.accountId,
      v.daemonId, v.displayName, norm(v.fingerprint), v.publicKey, v.invitationId, v.correlationId, v.nonce,
      v.relayBaseUrl, Number(v.expiresAt)])
  {
  }

  /** What a response is signed over: its prefix, then these six fields in this order. */
  lemma ResponseLayout(r: Response, norm: Normalizer)
    requires CanonicalResponse(r, norm).Some?
    ensures CanonicalResponse(r, norm).value == Ascii("tunnel-pairing-android-response-v1") + Fields([r.accountId,
      r.invitationId, r.correlationId, norm(r.fingerprint), r.publicKey, r.displayName])
  {
  }

  /** An invitation can be signed exactly if its nine texts are short; the time always is. */
  lemma InvitationExactlyWhen(v: Invitation, norm: Normalizer)
    ensures CanonicalInvitation(v, norm).Some? <==>
      && |v.accountId| <= 65535 && |v.daemonId| <= 65535 && |v.displayName| <= 65535 && |norm(v.fingerprint)| <= 65535
      && |v.publicKey| <= 65535 && |v.invitationId| <= 65535 && |v.correlationId| <= 65535 && |v.nonce| <= 65535
      && |v.relayBaseUrl| <= 65535 && |Number(v.expiresAt)| <= 65535
  {
    var fs := InvitationFields(v, norm);
    assert fs[0] == v.accountId && fs[1] == v.daemonId && fs[2] == v.displayName && fs[3] == norm(v.fingerprint);
    assert fs[4] == v.publicKey && fs[5] == v.invitationId && fs[6] == v.correlationId && fs[7] == v.nonce;
    assert fs[8] == v.relayBaseUrl && fs[9] == Number(v.expiresAt);
  }

  lemma ResponseExactlyWhen(r: Response, norm: Normalizer)
    ensures CanonicalResponse(r, norm).Some? <==>
      && |r.accountId| <= 65535 && |r.invitationId| <= 65535 && |r.correlationId| <= 65535
      && |norm(r.fingerprint)| <= 65535 && |r.publicKey| <= 65535 && |r.displayName| <= 65535
  {
    var fs := ResponseFields(r, norm);
    assert fs[0] == r.accountId && fs[1] == r.invitationId && fs[2] == r.correlationId;
    assert fs[3] == norm(r.fingerprint) && fs[4] == r.publicKey && fs[5] == r.displayName;
  }
}
