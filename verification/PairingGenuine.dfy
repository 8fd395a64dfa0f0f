/** Pairing end to end: the stored state with the signature check in place of its parameter.  The daemon signs the
    invitation of a stored record anew, checks the response against it, and derives the code from both keys. */
module PairingGenuine {
  import opened Common
  import opened PairingModel
  import opened PairingRuns
  import Signatures
  import Texts
  import Transcripts

  type Text = Transcripts.Text

  /** What a record's details hold besides its identifiers. */
  datatype Parts = Parts(accountId: Text, daemonId: Text, nonce: Text, relayBaseUrl: Text)

  /** The daemon's identity and what it computes with: text as bytes and back, signing, and the code of a transcript. */
  datatype Setup = Setup(crypto: Signatures.Crypto, publicKey: Text, fingerprint: Text, sign: Text -> Text,
                         parts: string -> Parts, bytes: string -> Text, text: Text -> string, code: Text -> string)

  function Unsigned(x: Setup, record: Invitation): Transcripts.Invitation {
    var p := x.parts(record.details);
    Transcripts.Invitation(Signatures.VERSION, p.accountId, p.daemonId, [], x.publicKey, x.fingerprint,
                           x.bytes(record.id), x.bytes(record.correlationId), p.nonce, record.expiresAt, p.relayBaseUrl,
                             [])
  }

  /** The invitation of a record, signed anew. */
  function Signed(x: Setup, record: Invitation): Option<Transcripts.Invitation> {
    match Transcripts.CanonicalInvitation(Unsigned(x, record), x.crypto.norm)
    case None => None
    case Some(m) => Some(Unsigned(x, record).(signature := x.sign(m)))
  }

  function Wire(x: Setup, version: int, r: Response): Transcripts.Response {
    Transcripts.Response(version, x.bytes(r.accountId), x.bytes(r.invitationId), x.bytes(r.correlationId),
      x.bytes(r.publicKey),
                         x.bytes(r.fingerprint), x.bytes(r.displayName), x.bytes(r.signature))
  }

  function Key(x: Setup, raw: Text): Text {
    var k := Signatures.PublicKey(raw, x.crypto).0;
    if k.Some? then k.value else []
  }

  /** The code both sides show. */
  function Code(x: Setup, v: Transcripts.Invitation, r: Transcripts.Response): string {
    var nonce := x.crypto.hex(v.nonce);
    var m :=
      Transcripts.CanonicalSasInput(Key(x, v.publicKey), Key(x, r.publicKey), v.invitationId, if nonce.Some? then
      nonce.value else []);
    x.code(if m.Some? then m.value else [])
  }

  function Checked(x: Setup, version: int, record: Invitation, r: Response, now: int): Option<Verified> {
    match Signed(x, record)
    case None => None
    case Some(v) =>
      var q := Wire(x, version, r);
      if Signatures.VerifyPairing(v, q, now, x.crypto).Some? then None
      else Some(Verified(Code(x, v, q), x.text(x.crypto.norm(q.fingerprint))))
  }

  /** The call checks signatures; `version` is the version its response carries. */
  ghost predicate ChecksAs(x: Setup, c: Call, version: int) {
    forall record, r, now :: c.verify(record, r, now) == Checked(x, version, record, r, now)
  }

  /** The signature of the response that the call compares is among those presented. */
  ghost predicate Shows(x: Setup, s: State, c: Call, version: int, seen: set<Signatures.Presented>) {
    Compared(s, c).Some? ==> Signatures.PresentsResponse(Wire(x, version, Compared(s, c).value), x.crypto, seen)
  }

  ghost predicate CallChecks(x: Setup, s: State, c: Call, seen: set<Signatures.Presented>) {
    exists version :: ChecksAs(x, c, version) && Shows(x, s, c, version, seen)
  }

  /** Every call of the run checks signatures, and `seen` holds those it looks at. */
  ghost predicate RunChecks(x: Setup, w: World, cs: seq<Call>, seen: set<Signatures.Presented>)
    decreases |cs|
  {
    cs == [] || (CallChecks(x, w.disk, cs[0], seen) && RunChecks(x, Next(w, cs[0]), cs[1..], seen))
  }

  /** What the owner of each key signed. */
  datatype Book = Book(invitations: Text -> set<Transcripts.Invitation>, responses: Text -> set<Transcripts.Response>)

  ghost predicate Unforged(x: Setup, seen: set<Signatures.Presented>, book: Book) {
    forall key :: Signatures.SignsOnly(x.crypto, key, seen, book.invitations(key), book.responses(key))
  }

  /** The owner of a key with fingerprint `fp` signed a response with that key to the invitation `id`. */
  ghost predicate Answered(x: Setup, book: Book, fp: string, id: string, key: Text, q: Transcripts.Response) {
    && q in book.responses(key) && Signatures.PublicKey(q.publicKey, x.crypto).0 == Some(key)
    && fp == x.text(x.crypto.fingerprint(key)) && q.invitationId == x.bytes(id)
  }

  ghost predicate ClientSigned(x: Setup, book: Book, created: set<string>, fp: string) {
    exists id, key, q :: id in created && Answered(x, book, fp, id, key, q)
  }

  lemma CheckedIsSigned(x: Setup, version: int, record: Invitation, r: Response, now: int,
                        seen: set<Signatures.Presented>, book: Book)
    requires Unforged(x, seen, book) && Signatures.PresentsResponse(Wire(x, version, r), x.crypto, seen)
    requires Checked(x, version, record, r, now).Some?
    ensures exists key, q :: Answered(x, book, Checked(x, version, record, r, now).value.fingerprint, record.id, key, q)
  {
    var v, a := Signed(x, record).value, Wire(x, version, r);
    Signatures.AcceptedKeys(v, a, now, x.crypto);
    var key := Signatures.PublicKey(a.publicKey, x.crypto).0.value;
    Signatures.AcceptedResponseWasSigned(a, x.crypto, key, seen, book.invitations(key), book.responses(key));
    var q :| q in book.responses(key) && Signatures.SameResponse(a, q, x.crypto.norm);
    assert Answered(x, book, Checked(x, version, record, r, now).value.fingerprint, record.id, key, q);
  }

  /** A matching code on a usable invitation is a comparison. */
  lemma MatchIsCompared(s: State, c: Call, r: Response, sas: string, fp: string, i: nat)
    requires UniqueIds(s.invitations) && i < |s.invitations| && s.invitations[i].id == r.invitationId
    requires s.invitations[i].consumedAt.None? && !IsExpired(s.invitations[i].expiresAt, c.now)
    requires c.verify(s.invitations[i], r, Unix(c.now)) == Some(Verified(sas, fp))
    ensures Compares(s, c.verify, r, c.now)
  {
    var j := Find(s.invitations, r.invitationId);
    assert j == Some(i);
  }

  lemma MatchIsSigned(x: Setup, w: World, c: Call, r: Response, sas: string, fp: string,
                      seen: set<Signatures.Presented>, book: Book)
    requires Inv(w) && Unforged(x, seen, book) && CallChecks(x, w.disk, c, seen) && MatchingCode(w.disk, c, r, sas, fp)
    requires Compares(w.disk, c.verify, r, c.now) ==> Compared(w.disk, c) == Some(r)
    ensures ClientSigned(x, book, w.created, fp)
  {
    var s := w.disk;
    var i :| 0 <= i < |s.invitations| && s.invitations[i].id == r.invitationId && s.invitations[i].consumedAt.None?
      && !IsExpired(s.invitations[i].expiresAt, c.now)
        && c.verify(s.invitations[i], r, Unix(c.now)) == Some(Verified(Texts.Trim(sas), fp));
    MatchIsCompared(s, c, r, Texts.Trim(sas), fp, i);
    var version :| ChecksAs(x, c, version) && Shows(x, s, c, version, seen);
    assert c.verify(s.invitations[i], r, Unix(c.now)) == Checked(x, version, s.invitations[i], r, Unix(c.now));
    CheckedIsSigned(x, version, s.invitations[i], r, Unix(c.now), seen, book);
    var key, q :| Answered(x, book, fp, s.invitations[i].id, key, q);
  }

  /** The device was not trusted outright. */
  ghost predicate NotUpserted(cs: seq<Call>, fp: string) {
    forall c :: c in cs && c.op.Trust? ==> c.op.fp != Some(fp)
  }

  lemma TrustIsSigned(x: Setup, w: World, c: Call, fp: string, seen: set<Signatures.Presented>, book: Book)
    requires Inv(w) && Unforged(x, seen, book) && CallChecks(x, w.disk, c, seen) && PairingRuns.Trusts(w.disk, c, fp)
    requires c.op.Trust? ==> c.op.fp != Some(fp)
    ensures ClientSigned(x, book, w.created, fp)
  {
    match c.op
    case Respond(r, sas) => MatchIsSigned(x, w, c, r, sas, fp, seen, book);
    case Accept(id, sas) => MatchIsSigned(x, w, c, Confirmed(w.disk, id).value, sas, fp, seen, book);
    case _ =>
  }

  lemma {:induction false} CreatedGrows(w: World, cs: seq<Call>)
    ensures w.created <= Run(w, cs).created
    decreases |cs|
  {
    if cs != [] { CreatedGrows(Next(w, cs[0]), cs[1..]); }
  }

  lemma {:induction false} TrustedWasSigned(x: Setup, w: World, cs: seq<Call>, fp: string,
                                            seen: set<Signatures.Presented>, book: Book)
    requires Inv(w) && AdmissibleRun(w, cs) && Unforged(x, seen, book) && RunChecks(x, w, cs, seen)
    requires TrustedDuring(w, cs, fp) && NotUpserted(cs, fp)
    ensures ClientSigned(x, book, Run(w, cs).created, fp)
    decreases |cs|
  {
    if PairingRuns.Trusts(w.disk, cs[0], fp) {
      TrustIsSigned(x, w, cs[0], fp, seen, book);
      CreatedGrows(w, cs);
    } else {
      NextInv(w, cs[0]);
      TrustedWasSigned(x, Next(w, cs[0]), cs[1..], fp, seen, book);
    }
  }

  /** Over every run that checks signatures, if none was forged: a fingerprint that is on the list and was never trusted
      outright is that of a key whose owner signed a response to an invitation made in the run. */
  lemma ListedClientSigned(x: Setup, cs: seq<Call>, fp: string, seen: set<Signatures.Presented>, book: Book)
    requires AdmissibleRun(START, cs) && RunChecks(x, START, cs, seen) && Unforged(x, seen, book)
    requires Lists(Run(START, cs).disk, fp) && NotUpserted(cs, fp)
    ensures ClientSigned(x, book, Run(START, cs).created, fp)
  {
    if !TrustedDuring(START, cs, fp) { OffTheListUntilTrusted(START, cs, fp); }
    TrustedWasSigned(x, START, cs, fp, seen, book);
  }
}
