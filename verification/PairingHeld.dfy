/** A response is checked when it arrives and again when it is confirmed; in between its fields are trimmed.
    When the second check agrees with the first. */
module PairingHeld {
  import opened Common
  import opened Texts
  import opened PairingModel
  import opened PairingGenuine
  import Signatures
  import Transcripts

  /** Hexadecimal text is read without outer white space, a normalised fingerprint is text that stays normalised, and
      texts have different bytes. */
  ghost predicate TextLaws(x: Setup) {
    && (forall t :: x.crypto.hex(x.bytes(Trim(t))) == x.crypto.hex(x.bytes(t)))
    && (forall b {:trigger x.text(x.crypto.norm(b))} ::
          x.crypto.norm(x.bytes(x.text(x.crypto.norm(b)))) == x.crypto.norm(b))
    && (forall s, t :: x.bytes(s) == x.bytes(t) ==> s == t)
  }

  /** The response that waits for confirmation. */
  function Held(r: Response, v: Verified, now: Nanos, expiresAt: int): Response {
    PendingOf(v, r, now, expiresAt).response
  }

  /** Trimming changes nothing that is signed. */
  predicate SignedTight(r: Response) {
    Trim(r.accountId) == r.accountId && Trim(r.publicKey) == r.publicKey && Trim(r.displayName) == r.displayName
  }

  /** Two responses that a check cannot tell apart: same signed fields, same signature bytes. */
  ghost predicate Alike(a: Transcripts.Response, b: Transcripts.Response, c: Signatures.Crypto) {
    && a.(fingerprint := b.fingerprint, signature := b.signature) == b
    && c.norm(a.fingerprint) == c.norm(b.fingerprint) && c.hex(a.signature) == c.hex(b.signature)
  }

  lemma AlikeSameCanonical(a: Transcripts.Response, b: Transcripts.Response, c: Signatures.Crypto)
    requires Alike(a, b, c)
    ensures Transcripts.CanonicalResponse(a, c.norm) == Transcripts.CanonicalResponse(b, c.norm)
  {
    assert Transcripts.ResponseFields(a, c.norm) == Transcripts.ResponseFields(b, c.norm);
  }

  lemma AlikeSameCheck(a: Transcripts.Response, b: Transcripts.Response, c: Signatures.Crypto)
    requires Alike(a, b, c)
    ensures Signatures.VerifyResponse(a, c) == Signatures.VerifyResponse(b, c)
  {
    AlikeSameCanonical(a, b, c);
  }

  lemma AlikeSameVerdict(v: Transcripts.Invitation, a: Transcripts.Response, b: Transcripts.Response, t1: int, t2: int,
                         c: Signatures.Crypto)
    requires Alike(a, b, c) && Signatures.VerifyPairing(v, a, t1, c) == None && (t2 > 0 ==> v.expiresAt > t2)
    ensures Signatures.VerifyPairing(v, b, t2, c) == None
  {
    AlikeSameCheck(a, b, c);
  }

  lemma TightIsAlike(x: Setup, r: Response, v: Verified, now: Nanos, expiresAt: int)
    requires TextLaws(x) && SignedTight(r) && v.fingerprint == x.text(x.crypto.norm(x.bytes(r.fingerprint)))
    ensures Alike(Wire(x, Signatures.VERSION, r), Wire(x, Signatures.VERSION, Held(r, v, now, expiresAt)), x.crypto)
  {
  }

  /** A response without outer white space in its signed fields is accepted again, with the same code and
      fingerprint. */
  lemma TightIsAcceptedAgain(x: Setup, record: Invitation, r: Response, t1: int, t2: int, now: Nanos)
    requires TextLaws(x) && SignedTight(r) && Checked(x, Signatures.VERSION, record, r, t1).Some?
    requires t2 > 0 ==> record.expiresAt > t2
    ensures var first := Checked(x, Signatures.VERSION, record, r, t1);
      Checked(x, Signatures.VERSION, record, Held(r, first.value, now, record.expiresAt), t2) == first
  {
    var first := Checked(x, Signatures.VERSION, record, r, t1).value;
    TightIsAlike(x, r, first, now, record.expiresAt);
    AlikeSameVerdict(Signed(x, record).value, Wire(x, Signatures.VERSION, r),
      Wire(x, Signatures.VERSION, Held(r, first, now, record.expiresAt)), t1, t2, x.crypto);
  }

  /** The client signed one response to the invitation, the one that was accepted. */
  ghost predicate OneAnswer(x: Setup, r: Response, rs: set<Transcripts.Response>) {
    forall q :: q in rs && q.invitationId == x.bytes(r.invitationId) ==>
      Signatures.SameResponse(q, Wire(x, Signatures.VERSION, r), x.crypto.norm)
  }

  /** A held response that checks has the signed fields of what the client signed, so they were tight. */
  lemma AcceptedAgainIsTight(x: Setup, record: Invitation, r: Response, h: Response, v: Verified, t2: int, now: Nanos,
                             seen: set<Signatures.Presented>, vs: set<Transcripts.Invitation>,
                             rs: set<Transcripts.Response>)
    requires TextLaws(x) && OneAnswer(x, r, rs) && h == Held(r, v, now, record.expiresAt)
    requires Signatures.PresentsResponse(Wire(x, Signatures.VERSION, h), x.crypto, seen)
    requires Signatures.SignsOnly(x.crypto, Key(x, x.bytes(r.publicKey)), seen, vs, rs)
    requires Checked(x, Signatures.VERSION, record, h, t2).Some?
    ensures SignedTight(r)
  {
    var a, key := Wire(x, Signatures.VERSION, h), Key(x, x.bytes(r.publicKey));
    Signatures.AcceptedKeys(Signed(x, record).value, a, t2, x.crypto);
    assert x.crypto.hex(x.bytes(Trim(r.publicKey))) == x.crypto.hex(x.bytes(r.publicKey));
    Signatures.AcceptedResponseWasSigned(a, x.crypto, key, seen, vs, rs);
    var q :| q in rs && Signatures.SameResponse(a, q, x.crypto.norm);
    assert Signatures.SameResponse(q, Wire(x, Signatures.VERSION, r), x.crypto.norm);
  }

  // ----- storing, then confirming -----

  function Checker(x: Setup): Verifier {
    (record: Invitation, r: Response, at: int) => Checked(x, Signatures.VERSION, record, r, at)
  }

  lemma {:induction false} UpsertedIsFound(records: seq<Pending>, p: Pending)
    ensures var id := p.response.invitationId;
      var i := FindPending(UpsertPending(records, p), id);
      i.Some? && UpsertPending(records, p)[i.value] == p
  {
    var id, after := p.response.invitationId, UpsertPending(records, p);
    if records != [] && records[0].response.invitationId != id {
      UpsertedIsFound(records[1..], p);
      assert after[0] == records[0] && after[1..] == UpsertPending(records[1..], p);
    } else {
      assert after[0] == p;
    }
  }

  /** A usable invitation is not expired for the check either. */
  lemma UsableIsUnexpired(expiresAt: int, now: Nanos)
    requires !IsExpired(expiresAt, now)
    ensures expiresAt > Unix(now)
  {
  }

  /** The response that `Store` leaves is the one `Confirm` finds, for the same record. */
  lemma StoredIsConfirmed(x: Setup, s: State, r: Response, id: string, now: Nanos, i: nat)
    requires Store(s, Checker(x), r, now).1 == None && Trim(id) == r.invitationId
    requires Find(s.invitations, r.invitationId) == Some(i)
    ensures var first := Checked(x, Signatures.VERSION, s.invitations[i], r, Unix(now));
      var t := Store(s, Checker(x), r, now).0;
      && first.Some? && t.invitations == s.invitations
      && Confirmed(t, id) == Some(Held(r, first.value, now, s.invitations[i].expiresAt))
  {
    var first := Checked(x, Signatures.VERSION, s.invitations[i], r, Unix(now));
    UpsertedIsFound(s.pending, PendingOf(first.value, r, now, s.invitations[i].expiresAt));
  }

  /** After a response is stored, while its invitation is usable: confirming compares its code, exactly if its account,
      key and name came without outer white space; the second check of any other one fails.  That nobody forged and
      that the client signed one response to the invitation are needed for the second half. */
  lemma ConfirmableExactlyWhen(x: Setup, s: State, r: Response, id: string, now: Nanos, later: Nanos,
                               seen: set<Signatures.Presented>, vs: set<Transcripts.Invitation>,
                               rs: set<Transcripts.Response>)
    requires TextLaws(x) && OneAnswer(x, r, rs)
    requires Signatures.SignsOnly(x.crypto, Key(x, x.bytes(r.publicKey)), seen, vs, rs)
    requires Store(s, Checker(x), r, now).1 == None && Trim(id) == r.invitationId
    requires Usable(Store(s, Checker(x), r, now).0, r.invitationId, later).0.Some?
    requires var h := Confirmed(Store(s, Checker(x), r, now).0, id);
      h.Some? ==> Signatures.PresentsResponse(Wire(x, Signatures.VERSION, h.value), x.crypto, seen)
    ensures var t := Store(s, Checker(x), r, now).0;
      Confirmed(t, id).Some? && (Compares(t, Checker(x), Confirmed(t, id).value, later) <==> SignedTight(r))
  {
    var t := Store(s, Checker(x), r, now).0;
    var i := Find(s.invitations, r.invitationId).value;
    StoredIsConfirmed(x, s, r, id, now, i);
    var record, h := s.invitations[i], Confirmed(t, id).value;
    var first := Checked(x, Signatures.VERSION, record, r, Unix(now));
    UsableIsUnexpired(record.expiresAt, later);
    if SignedTight(r) {
      TightIsAcceptedAgain(x, record, r, Unix(now), Unix(later), now);
    } else if Compares(t, Checker(x), h, later) {
      AcceptedAgainIsTight(x, record, r, h, first.value, Unix(later), now, seen, vs, rs);
    }
  }
}
