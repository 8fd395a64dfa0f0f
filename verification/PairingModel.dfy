/** The daemon's pairing state: invitations, responses waiting for confirmation, and
    the roster of trusted devices, with one function per operation on the stored state.

    Verifying a response against an invitation is a parameter: it yields the code to
    compare and the device's fingerprint, or nothing when the response does not verify. */
module PairingModel {
  import opened Common
  import opened Texts

  type Nanos = int
  const SECOND: Nanos := 1_000_000_000
  const INVITATION_TTL: int := 300

  datatype Invitation = Invitation(id: string, correlationId: string, details: string, expiresAt: int, createdAt: int,
                                   consumedAt: Option<int>)
  datatype Response = Response(accountId: string, invitationId: string, correlationId: string, publicKey: string,
                               fingerprint: string, displayName: string, signature: string)
  datatype Pending = Pending(response: Response, sas: string, receivedAt: int, expiresAt: int)

  datatype Status = NoStatus | Trusted | Revoked
  datatype Device = Device(fingerprint: string, publicKey: string, displayName: string, accountId: string,
                           status: Status, pairedAt: int, revokedAt: Option<int>)

  datatype State = State(invitations: seq<Invitation>, pending: seq<Pending>, roster: seq<Device>)
  const EMPTY: State := State([], [], [])

  datatype Verified = Verified(sas: string, fingerprint: string)
  type Verifier = (Invitation, Response, int) -> Option<Verified>

  datatype Error = NotFound | Expired | Consumed | Mismatch | BadResponse | BadFingerprint | DeviceNotFound | SaveFailed

  function Unix(now: Nanos): int { now / SECOND }

  predicate IsExpired(expiresAt: int, now: Nanos) { !(expiresAt * SECOND > now) }

  // ----- lists searched from the front -----

  /** The first record of an invitation. */
  function Find(records: seq<Invitation>, id: string): (r: Option<nat>)
    ensures r.Some? ==> r.value < |records| && records[r.value].id == id
    ensures r.None? ==> forall i :: 0 <= i < |records| ==> records[i].id != id
  {
    if records == [] then None
    else if records[0].id == id then Some(0)
    else match Find(records[1..], id) case None => None case Some(i) => Some(i + 1)
  }

  function FindPending(records: seq<Pending>, id: string): (r: Option<nat>)
    ensures r.Some? ==> r.value < |records| && records[r.value].response.invitationId == id
    ensures r.None? ==> forall i :: 0 <= i < |records| ==> records[i].response.invitationId != id
  {
    if records == [] then None
    else if records[0].response.invitationId == id then Some(0)
    else match FindPending(records[1..], id) case None => None case Some(i) => Some(i + 1)
  }

  function FindDevice(devices: seq<Device>, fp: string): (r: Option<nat>)
    ensures r.Some? ==> r.value < |devices| && devices[r.value].fingerprint == fp
    ensures r.None? ==> forall i :: 0 <= i < |devices| ==> devices[i].fingerprint != fp
  {
    if devices == [] then None
    else if devices[0].fingerprint == fp then Some(0)
    else match FindDevice(devices[1..], fp) case None => None case Some(i) => Some(i + 1)
  }

  function Swept(records: seq<Invitation>, now: Nanos): seq<Invitation> {
    if records == [] then []
    else if IsExpired(records[0].expiresAt, now) then Swept(records[1..], now)
    else [records[0]] + Swept(records[1..], now)
  }

  function WithoutPending(records: seq<Pending>, id: string): seq<Pending> {
    if records == [] then []
    else if records[0].response.invitationId == id then WithoutPending(records[1..], id)
    else [records[0]] + WithoutPending(records[1..], id)
  }

  function UpsertDevice(devices: seq<Device>, d: Device): seq<Device> {
    match FindDevice(devices, d.fingerprint)
    case Some(i) => devices[i := d]
    case None => devices + [d]
  }

  function UpsertPending(records: seq<Pending>, p: Pending): seq<Pending> {
    match FindPending(records, p.response.invitationId)
    case Some(i) => records[i := p]
    case None => records + [p]
  }

  // ----- operations -----

  function Create(s: State, id: string, correlationId: string, details: string, now: Nanos): State {
    s.(invitations := Swept(s.invitations, now)
      + [Invitation(id, correlationId, details, Unix(now + INVITATION_TTL * SECOND), Unix(now), None)])
  }

  /** Whether an invitation may still be used. */
  function Usable(s: State, id: string, now: Nanos): (Option<nat>, Option<Error>) {
    match Find(s.invitations, id)
    case None => (None, Some(NotFound))
    case Some(i) =>
      if s.invitations[i].consumedAt.Some? then (None, Some(Consumed))
      else if IsExpired(s.invitations[i].expiresAt, now) then (None, Some(Expired))
      else (Some(i), None)
  }

  function ConsumeAt(s: State, i: nat, now: Nanos): State
    requires i < |s.invitations|
  {
    s.(invitations := s.invitations[i := s.invitations[i].(consumedAt := Some(Unix(now)))])
  }

  function Consume(s: State, id: string, now: Nanos): (State, Option<Error>) {
    match Usable(s, id, now).0
    case None => (s, Usable(s, id, now).1)
    case Some(i) => (ConsumeAt(s, i, now), None)
  }

  function TrustedDevice(v: Verified, r: Response, now: Nanos): Device {
    Device(v.fingerprint, r.publicKey, Trim(r.displayName), Trim(r.accountId), Trusted, Unix(now), None)
  }

  /** Comparing the code of a response: the invitation is used up whether or not it matches. */
  function Complete(s: State, verify: Verifier, r: Response, expectedSas: string, now: Nanos): (State, Option<Error>) {
    match Usable(s, r.invitationId, now).0
    case None => (s, Usable(s, r.invitationId, now).1)
    case Some(i) =>
      match verify(s.invitations[i], r, Unix(now))
      case None => (s, Some(BadResponse))
      case Some(v) =>
        var s1 := ConsumeAt(s, i, now).(pending := WithoutPending(s.pending, r.invitationId));
        if Trim(expectedSas) != v.sas then (s1, Some(Mismatch))
        else (s1.(roster := UpsertDevice(s.roster, TrustedDevice(v, r, now))), None)
  }

  /** A comparison takes place: the response names a usable invitation and verifies. */
  predicate Compares(s: State, verify: Verifier, r: Response, now: Nanos) {
    var (i, e) := Usable(s, r.invitationId, now);
    i.Some? && i.value < |s.invitations| && verify(s.invitations[i.value], r, Unix(now)).Some?
  }

  function PendingOf(v: Verified, r: Response, now: Nanos, expiresAt: int): Pending {
    Pending(Response(Trim(r.accountId), r.invitationId, r.correlationId, Trim(r.publicKey), v.fingerprint,
      Trim(r.displayName), Trim(r.signature)),
            v.sas, Unix(now), expiresAt)
  }

  function Store(s: State, verify: Verifier, r: Response, now: Nanos): (State, Option<Error>) {
    match Usable(s, r.invitationId, now).0
    case None => (s, Usable(s, r.invitationId, now).1)
    case Some(i) =>
      match verify(s.invitations[i], r, Unix(now))
      case None => (s, Some(BadResponse))
      case Some(v) => (s.(pending := UpsertPending(s.pending, PendingOf(v, r, now, s.invitations[i].expiresAt))), None)
  }

  /** The response a confirmation stands for. */
  function Confirmed(s: State, id: string): Option<Response> {
    match FindPending(s.pending, Trim(id))
    case None => None
    case Some(i) => Some(s.pending[i].response)
  }

  function Confirm(s: State, verify: Verifier, id: string, expectedSas: string, now: Nanos): (State, Option<Error>) {
    match Confirmed(s, id)
    case None => (s, Some(NotFound))
    case Some(r) => Complete(s, verify, r, expectedSas, now)
  }

  /** Trusting a device outright; `fp` is its normalised fingerprint, if it has a valid one. */
  function Upsert(s: State, fp: Option<string>, d: Device, now: Nanos): (State, Option<Error>) {
    match fp
    case None => (s, Some(BadFingerprint))
    case Some(f) =>
      (s.(roster :=
        UpsertDevice(s.roster,
        d.(fingerprint := f, status := Trusted, revokedAt := None, pairedAt := if d.pairedAt == 0 then Unix(now)
        else d.pairedAt))), None)
  }

  function Revoke(s: State, fp: Option<string>, now: Nanos): (State, Option<Error>) {
    match fp
    case None => (s, Some(BadFingerprint))
    case Some(f) =>
      match FindDevice(s.roster, f)
      case None => (s, Some(DeviceNotFound))
      case Some(i) =>
        (s.(roster :=
          s.roster[i :=
          s.roster[i].(status := Revoked, revokedAt := if s.roster[i].revokedAt.Some? then s.roster[i].revokedAt
          else Some(Unix(now)))]), None)
  }

  /** What a caller is told: an operation that succeeded, or found a mismatch, was to be saved. */
  function Told(e: Option<Error>, saveOk: bool): Option<Error> {
    if !saveOk && (e == None || e == Some(Mismatch)) then Some(SaveFailed) else e
  }

  // ----- the listing -----

  predicate IsListed(d: Device) { d.status != Revoked && d.revokedAt.None? }

  function Listing(devices: seq<Device>): seq<Device> {
    if devices == [] then []
    else if !IsListed(devices[0]) then Listing(devices[1..])
    else
      var shown := if devices[0].status == NoStatus then Trusted else devices[0].status;
      [devices[0].(status := shown)] + Listing(devices[1..])
  }

  /** The fingerprint is on the list of trusted devices. */
  ghost predicate Lists(s: State, fp: string) {
    exists i :: 0 <= i < |s.roster| && ListedAt(s.roster, i, fp)
  }
  ghost predicate ListedAt(roster: seq<Device>, i: int, fp: string) {
    0 <= i < |roster| && roster[i].fingerprint == fp && IsListed(roster[i])
  }
}
