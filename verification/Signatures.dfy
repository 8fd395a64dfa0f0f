/** Checking a pairing: what follows from two accepted signatures because the signed
    bytes determine the signed fields.  The cryptography is a parameter. */
module Signatures {
  import opened Common
  import opened Transcripts

  const VERSION := 2
  const KEY_SIZE := 32
  const SIGNATURE_SIZE := 64

  /** Normalising fingerprints, decoding hexadecimal text, the fingerprint of a key, and checking a signature. */
  datatype Crypto = Crypto(norm: Normalizer, hex: Text -> Option<Text>, fingerprint: Text -> Text,
                           verify: (Text, Text, Text) -> bool)

  datatype Error = BadVersion | BadHex | BadKeyLength | FingerprintMismatch | BadSignature | TooLong
                 | TranscriptMismatch | Expired

  function PublicKey(raw: Text, c: Crypto): (Option<Text>, Option<Error>) {
    match c.hex(raw)
    case None => (None, Some(BadHex))
    case Some(key) => if |key| != KEY_SIZE then (None, Some(BadKeyLength)) else (Some(key), None)
  }

  /** The checks an invitation and a response share. */
  function Check(version: int, publicKey: Text, fingerprint: Text, signature: Text, canonical: Option<Text>,
                 c: Crypto): Option<Error> {
    if version != VERSION then Some(BadVersion) else
      var (key, e) := PublicKey(publicKey, c);
      if key.None? then e
      else if c.fingerprint(key.value) != c.norm(fingerprint) then Some(FingerprintMismatch)
      else
        var s := c.hex(signature);
        if s.None? then Some(BadHex)
        else if |s.value| != SIGNATURE_SIZE then Some(BadSignature)
        else if canonical.None? then Some(TooLong)
        else if !c.verify(key.value, canonical.value, s.value) then Some(BadSignature)
        else None
  }

  function VerifyInvitation(v: Invitation, c: Crypto): Option<Error> {
    Check(v.version, v.publicKey, v.fingerprint, v.signature, CanonicalInvitation(v, c.norm), c)
  }

  function VerifyResponse(r: Response, c: Crypto): Option<Error> {
    Check(r.version, r.publicKey, r.fingerprint, r.signature, CanonicalResponse(r, c.norm), c)
  }

  predicate SameTranscript(v: Invitation, r: Response) {
    v.invitationId == r.invitationId && v.correlationId == r.correlationId
      && (v.accountId != [] ==> v.accountId == r.accountId)
  }

  function VerifyPairing(v: Invitation, r: Response, now: int, c: Crypto): Option<Error> {
    if VerifyInvitation(v, c).Some? then VerifyInvitation(v, c)
    else if VerifyResponse(r, c).Some? then VerifyResponse(r, c)
    else if !SameTranscript(v, r) then Some(TranscriptMismatch)
    else if now > 0 && v.expiresAt <= now then Some(Expired)
    else
      var (a, e) := PublicKey(v.publicKey, c);
      var (b, f) := PublicKey(r.publicKey, c);
      if a.None? then e
      else if b.None? then f
      else if c.hex(v.nonce).None? then Some(BadHex)
      else if CanonicalSasInput(a.value, b.value, v.invitationId, c.hex(v.nonce).value).None? then Some(TooLong)
      else None
  }

  // ----- what an accepted pairing means -----

  /** A message and a signature that somebody presents to be checked. */
  datatype Presented = Presented(message: Text, signature: Text)

  /** Nobody forged a signature of this key among the pairs in `seen`: one that checks is of an invitation in `vs` or
      a response in `rs`, the ones the key's owner signed.  It says nothing about pairs nobody presented. */
  ghost predicate SignsOnly(c: Crypto, key: Text, seen: set<Presented>, vs: set<Invitation>, rs: set<Response>) {
    forall p :: p in seen && c.verify(key, p.message, p.signature) ==>
      (exists v :: v in vs && CanonicalInvitation(v, c.norm) == Some(p.message))
        || (exists r :: r in rs && CanonicalResponse(r, c.norm) == Some(p.message))
  }

  /** The pair that checking a signed text presents, if it gets that far. */
  ghost predicate Presents(canonical: Option<Text>, signature: Text, c: Crypto, seen: set<Presented>) {
    canonical.Some? && c.hex(signature).Some? ==> Presented(canonical.value, c.hex(signature).value) in seen
  }

  ghost predicate PresentsInvitation(v: Invitation, c: Crypto, seen: set<Presented>) {
    Presents(CanonicalInvitation(v, c.norm), v.signature, c, seen)
  }
  ghost predicate PresentsResponse(r: Response, c: Crypto, seen: set<Presented>) {
    Presents(CanonicalResponse(r, c.norm), r.signature, c, seen)
  }

  /** The same invitation in everything that is signed. */
  ghost predicate SameInvitation(v: Invitation, w: Invitation, norm: Normalizer) {
    norm(v.fingerprint) == norm(w.fingerprint)
      && v.(version := w.version, signature := w.signature, fingerprint := w.fingerprint) == w
  }
  ghost predicate SameResponse(r: Response, q: Response, norm: Normalizer) {
    norm(r.fingerprint) == norm(q.fingerprint)
      && r.(version := q.version, signature := q.signature, fingerprint := q.fingerprint) == q
  }

  /** An accepted invitation was signed by the daemon as an invitation, with exactly these fields. */
  lemma AcceptedInvitationWasSigned(v: Invitation, c: Crypto, key: Text, seen: set<Presented>, vs: set<Invitation>,
                                    rs: set<Response>)
    requires VerifyInvitation(v, c) == None && PublicKey(v.publicKey, c).0 == Some(key)
    requires PresentsInvitation(v, c, seen) && SignsOnly(c, key, seen, vs, rs)
    ensures exists w :: w in vs && SameInvitation(v, w, c.norm)
  {
    var m := CanonicalInvitation(v, c.norm).value;
    var p := Presented(m, c.hex(v.signature).value);
    assert p in seen && c.verify(key, p.message, p.signature);
    if r :| r in rs && CanonicalResponse(r, c.norm) == Some(m) { NeverBoth(v, r, c.norm); }
    var w :| w in vs && CanonicalInvitation(w, c.norm) == Some(m);
    InvitationInjective(v, w, c.norm);
  }

  lemma AcceptedResponseWasSigned(r: Response, c: Crypto, key: Text, seen: set<Presented>, vs: set<Invitation>,
                                  rs: set<Response>)
    requires VerifyResponse(r, c) == None && PublicKey(r.publicKey, c).0 == Some(key)
    requires PresentsResponse(r, c, seen) && SignsOnly(c, key, seen, vs, rs)
    ensures exists q :: q in rs && SameResponse(r, q, c.norm)
  {
    var m := CanonicalResponse(r, c.norm).value;
    var p := Presented(m, c.hex(r.signature).value);
    assert p in seen && c.verify(key, p.message, p.signature);
    if v :| v in vs && CanonicalInvitation(v, c.norm) == Some(m) { NeverBoth(v, r, c.norm); }
    var q :| q in rs && CanonicalResponse(q, c.norm) == Some(m);
    ResponseInjective(r, q, c.norm);
  }

  /** An accepted pairing: the daemon signed this invitation, the client signed this response, both name the same
      invitation and correlation, each key has the fingerprint that is shown, and the invitation has not expired. */
  lemma AcceptedPairingIsGenuine(v: Invitation, r: Response, now: int, c: Crypto, daemonKey: Text, clientKey: Text,
                                 seen: set<Presented>, vs: set<Invitation>, rs: set<Response>, vs': set<Invitation>,
                                 rs': set<Response>)
    requires VerifyPairing(v, r, now, c) == None
    requires PublicKey(v.publicKey, c).0 == Some(daemonKey) && PublicKey(r.publicKey, c).0 == Some(clientKey)
    requires PresentsInvitation(v, c, seen) && PresentsResponse(r, c, seen)
    requires SignsOnly(c, daemonKey, seen, vs, rs) && SignsOnly(c, clientKey, seen, vs', rs')
    ensures exists w, q ::
              && w in vs && q in rs' && SameInvitation(v, w, c.norm) && SameResponse(r, q, c.norm)
              && w.invitationId == q.invitationId && w.correlationId == q.correlationId
    ensures c.fingerprint(daemonKey) == c.norm(v.fingerprint) && c.fingerprint(clientKey) == c.norm(r.fingerprint)
    ensures now > 0 ==> v.expiresAt > now
  {
    AcceptedInvitationWasSigned(v, c, daemonKey, seen, vs, rs);
    AcceptedResponseWasSigned(r, c, clientKey, seen, vs', rs');
  }

  /** The keys of an accepted pairing can be read. */
  lemma AcceptedKeys(v: Invitation, r: Response, now: int, c: Crypto)
    requires VerifyPairing(v, r, now, c) == None
    ensures PublicKey(v.publicKey, c).0.Some? && PublicKey(r.publicKey, c).0.Some? && c.hex(v.nonce).Some?
  {
  }

  // ----- when a pairing is accepted -----

  /** A key, its fingerprint, and a signature of sixty-four bytes over a transcript that exists. */
  ghost predicate Signs(publicKey: Text, fingerprint: Text, signature: Text, canonical: Option<Text>, c: Crypto) {
    && c.hex(publicKey).Some? && |c.hex(publicKey).value| == 32
    && c.fingerprint(c.hex(publicKey).value) == c.norm(fingerprint)
    && c.hex(signature).Some? && |c.hex(signature).value| == 64
    && canonical.Some? && c.verify(c.hex(publicKey).value, canonical.value, c.hex(signature).value)
  }

  lemma CheckExactly(version: int, publicKey: Text, fingerprint: Text, signature: Text, canonical: Option<Text>,
                     c: Crypto)
    ensures Check(version, publicKey, fingerprint, signature, canonical, c) == None <==>
      version == 2 && Signs(publicKey, fingerprint, signature, canonical, c)
  {
  }

  /** A pairing is accepted exactly if both sides signed in this version, the response names the invitation, its
      correlation and, if it is bound to one, its account, the invitation has not expired, and the code can be
      formed. */
  lemma PairingExactlyWhen(v: Invitation, r: Response, now: int, c: Crypto)
    ensures VerifyPairing(v, r, now, c) == None <==>
      && v.version == 2 && Signs(v.publicKey, v.fingerprint, v.signature, CanonicalInvitation(v, c.norm), c)
      && r.version == 2 && Signs(r.publicKey, r.fingerprint, r.signature, CanonicalResponse(r, c.norm), c)
      && r.invitationId == v.invitationId && r.correlationId == v.correlationId
      && (v.accountId == [] || r.accountId == v.accountId)
      && (now <= 0 || v.expiresAt > now)
      && c.hex(v.nonce).Some? && |c.hex(v.nonce).value| <= 65535 && |v.invitationId| <= 65535
  {
    CheckExactly(v.version, v.publicKey, v.fingerprint, v.signature, CanonicalInvitation(v, c.norm), c);
    CheckExactly(r.version, r.publicKey, r.fingerprint, r.signature, CanonicalResponse(r, c.norm), c);
    if VerifyInvitation(v, c) == None && VerifyResponse(r, c) == None && c.hex(v.nonce).Some? {
      SasExactlyWhen(c.hex(v.publicKey).value, c.hex(r.publicKey).value, v.invitationId, c.hex(v.nonce).value);
    }
  }

  lemma SasExactlyWhen(daemonKey: Text, clientKey: Text, invitationId: Text, nonce: Text)
    requires |daemonKey| == 32 && |clientKey| == 32
    ensures CanonicalSasInput(daemonKey, clientKey, invitationId, nonce).Some? <==>
      |invitationId| <= 65535 && |nonce| <= 65535
  {
    var fs := SasFields(daemonKey, clientKey, invitationId, nonce);
    assert fs[0] == daemonKey && fs[1] == clientKey && fs[2] == invitationId && fs[3] == nonce;
  }
}
