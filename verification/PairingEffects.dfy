/** What every call does to every device record, invitation and waiting response, written out one by one. */
module PairingEffects {
  import opened Common
  import opened Texts
  import opened PairingModel
  import opened PairingRuns

  // ----- first records -----

  function DeviceOf(roster: seq<Device>, fp: string): Option<Device> {
    match FindDevice(roster, fp) case None => None case Some(i) => Some(roster[i])
  }
  function InvitationOf(records: seq<Invitation>, id: string): Option<Invitation> {
    match Find(records, id) case None => None case Some(i) => Some(records[i])
  }
  function PendingFor(records: seq<Pending>, id: string): Option<Pending> {
    match FindPending(records, id) case None => None case Some(i) => Some(records[i])
  }

  lemma DeviceAt(roster: seq<Device>, i: nat)
    requires UniqueDevices(roster) && i < |roster|
    ensures DeviceOf(roster, roster[i].fingerprint) == Some(roster[i])
  {
    var j := FindDevice(roster, roster[i].fingerprint);
    assert j == Some(i);
  }

  lemma InvitationAt(records: seq<Invitation>, i: nat)
    requires UniqueIds(records) && i < |records|
    ensures Find(records, records[i].id) == Some(i)
  {
  }

  /** The list shows a fingerprint exactly if its one record is not revoked. */
  lemma ListedIs(s: State, fp: string)
    requires UniqueDevices(s.roster)
    ensures Lists(s, fp) <==> DeviceOf(s.roster, fp).Some? && IsListed(DeviceOf(s.roster, fp).value)
  {
    if i :| 0 <= i < |s.roster| && ListedAt(s.roster, i, fp) { DeviceAt(s.roster, i); }
    var j := FindDevice(s.roster, fp);
    if j.Some? && IsListed(s.roster[j.value]) { assert ListedAt(s.roster, j.value, fp); }
  }

  // ----- the roster -----

  lemma UpsertExactly(roster: seq<Device>, d: Device, fp: string)
    requires UniqueDevices(roster)
    ensures DeviceOf(UpsertDevice(roster, d), fp) == if d.fingerprint == fp then Some(d) else DeviceOf(roster, fp)
  {
    var n, i := UpsertDevice(roster, d), FindDevice(roster, d.fingerprint);
    UpsertUnique(roster, d);
    if d.fingerprint == fp {
      DeviceAt(n, if i.Some? then i.value else |roster|);
    } else {
      var j := FindDevice(roster, fp);
      if j.Some? { assert n[j.value] == roster[j.value]; DeviceAt(n, j.value); }
    }
  }

  lemma ReplaceExactly(roster: seq<Device>, i: nat, d: Device, fp: string)
    requires UniqueDevices(roster) && i < |roster| && d.fingerprint == roster[i].fingerprint
    ensures DeviceOf(roster[i := d], fp) == if d.fingerprint == fp then Some(d) else DeviceOf(roster, fp)
  {
    var n := roster[i := d];
    DeviceAt(n, i);
    var j := FindDevice(roster, fp);
    if j.Some? { DeviceAt(n, j.value); DeviceAt(roster, i); }
  }

  /** The record that a matching code makes. */
  function Paired(r: Response, fp: string, now: Nanos): Device {
    Device(fp, r.publicKey, Trim(r.displayName), Trim(r.accountId), Trusted, Unix(now), None)
  }

  /** The record of a fingerprint after a call. */
  ghost function DeviceAfter(s: State, c: Call, fp: string): Option<Device> {
    var before := DeviceOf(s.roster, fp);
    if !c.saved then before else
      match c.op
      case Respond(r, sas) => if MatchingCode(s, c, r, sas, fp) then Some(Paired(r, fp, c.now)) else before
      case Accept(id, sas) =>
        (match PendingFor(s.pending, Trim(id))
         case None => before
         case Some(p) =>
           if MatchingCode(s, c, p.response, sas, fp) then Some(Paired(p.response, fp, c.now)) else before)
      case Trust(f, d) =>
        if f != Some(fp) then before
        else Some(Device(fp, d.publicKey, d.displayName, d.accountId, Trusted,
                         if d.pairedAt == 0 then Unix(c.now) else d.pairedAt, None))
      case Distrust(f) =>
        (match before
         case None => None
         case Some(d) =>
           if f != Some(fp) then before
           else Some(Device(fp, d.publicKey, d.displayName, d.accountId, Revoked, d.pairedAt,
                            if d.revokedAt.Some? then d.revokedAt else Some(Unix(c.now)))))
      case _ => before
  }

  /** Whether the code of a response matches for a fingerprint, told from the invitation that is found first. */
  lemma MatchIs(s: State, c: Call, r: Response, sas: string, fp: string)
    requires UniqueIds(s.invitations)
    ensures MatchingCode(s, c, r, sas, fp) <==>
      && Usable(s, r.invitationId, c.now).0.Some?
      && c.verify(s.invitations[Find(s.invitations, r.invitationId).value], r, Unix(c.now)) ==
        Some(Verified(Trim(sas), fp))
  {
    if MatchingCode(s, c, r, sas, fp) {
      var i :| 0 <= i < |s.invitations| && s.invitations[i].id == r.invitationId && s.invitations[i].consumedAt.None?
        && !IsExpired(s.invitations[i].expiresAt, c.now)
        && c.verify(s.invitations[i], r, Unix(c.now)) == Some(Verified(Trim(sas), fp));
      InvitationAt(s.invitations, i);
    }
    UsableIs(s, r.invitationId, c.now);
  }

  lemma CompleteExactly(s: State, c: Call, r: Response, sas: string, fp: string)
    requires UniqueIds(s.invitations) && UniqueDevices(s.roster)
    ensures DeviceOf(Complete(s, c.verify, r, sas, c.now).0.roster, fp) ==
      if MatchingCode(s, c, r, sas, fp) then Some(Paired(r, fp, c.now)) else DeviceOf(s.roster, fp)
  {
    MatchIs(s, c, r, sas, fp);
    UsableIs(s, r.invitationId, c.now);
    if Compares(s, c.verify, r, c.now) {
      var v := c.verify(s.invitations[Find(s.invitations, r.invitationId).value], r, Unix(c.now)).value;
      UpsertExactly(s.roster, TrustedDevice(v, r, c.now), fp);
    }
  }

  /** Each call does to each device record exactly this. */
  lemma DevicesExactly(w: World, c: Call, fp: string)
    requires Inv(w)
    ensures DeviceOf(Next(w, c).disk.roster, fp) == DeviceAfter(w.disk, c, fp)
  {
    var s := w.disk;
    match c.op
    case Respond(r, sas) => CompleteExactly(s, c, r, sas, fp);
    case Accept(id, sas) => if Confirmed(s, id).Some? { CompleteExactly(s, c, Confirmed(s, id).value, sas, fp); }
    case Trust(f, d) =>
      if f.Some? {
        UpsertExactly(s.roster, d.(fingerprint := f.value, status := Trusted, revokedAt := None,
          pairedAt := if d.pairedAt == 0 then Unix(c.now) else d.pairedAt), fp);
      }
    case Distrust(f) =>
      if f.Some? && FindDevice(s.roster, f.value).Some? {
        var i := FindDevice(s.roster, f.value).value;
        ReplaceExactly(s.roster, i, Revoke(s, f, c.now).0.roster[i], fp);
      }
    case _ =>
  }

  /** A fingerprint is on the list after a call exactly if the call trusts it, or it was on it and the call does not
      revoke it. */
  lemma ListedExactly(w: World, c: Call, fp: string)
    requires Inv(w) && Admissible(w, c)
    ensures Lists(Next(w, c).disk, fp) <==>
      PairingRuns.Trusts(w.disk, c, fp) || (Lists(w.disk, fp) && !(c.saved && c.op == Distrust(Some(fp))))
  {
    NextInv(w, c);
    ListedIs(w.disk, fp);
    ListedIs(Next(w, c).disk, fp);
    DevicesExactly(w, c, fp);
  }

  // ----- invitations -----

  lemma FoundIs(records: seq<Invitation>, i: nat, id: string)
    requires UniqueIds(records) && i < |records| && records[i].id == id
    ensures InvitationOf(records, id) == Some(records[i])
  {
    InvitationAt(records, i);
  }

  lemma FirstOrLater(records: seq<Invitation>, id: string)
    requires records != []
    ensures InvitationOf(records, id) ==
      if records[0].id == id then Some(records[0]) else InvitationOf(records[1..], id)
  {
  }

  lemma RestUnique(records: seq<Invitation>)
    requires UniqueIds(records) && records != []
    ensures UniqueIds(records[1..]) && InvitationOf(records[1..], records[0].id) == None
  {
    var rest := records[1..];
    assert forall i :: 0 <= i < |rest| ==> rest[i] == records[i + 1];
  }

  lemma {:induction false} SweptExactly(records: seq<Invitation>, now: Nanos, id: string)
    requires UniqueIds(records)
    ensures var before := InvitationOf(records, id);
      InvitationOf(Swept(records, now), id) ==
        if before.Some? && before.value.expiresAt * SECOND > now then before else None
  {
    if records != [] {
      FirstOrLater(records, id);
      RestUnique(records);
      SweptExactly(records[1..], now, id);
      if !IsExpired(records[0].expiresAt, now) {
        var kept := Swept(records, now);
        assert kept[0] == records[0] && kept[1..] == Swept(records[1..], now);
        FirstOrLater(kept, id);
      }
    }
  }

  lemma {:induction false} AppendedExactly(records: seq<Invitation>, x: Invitation, id: string)
    ensures InvitationOf(records + [x], id) ==
      if InvitationOf(records, id).Some? then InvitationOf(records, id) else if x.id == id then Some(x) else None
  {
    if records != [] {
      AppendedExactly(records[1..], x, id);
      assert (records + [x])[1..] == records[1..] + [x];
    }
  }

  lemma ConsumedExactly(s: State, i: nat, now: Nanos, id: string)
    requires UniqueIds(s.invitations) && i < |s.invitations|
    ensures InvitationOf(ConsumeAt(s, i, now).invitations, id) ==
      if s.invitations[i].id == id then Some(s.invitations[i].(consumedAt := Some(now / SECOND)))
      else InvitationOf(s.invitations, id)
  {
    var n := ConsumeAt(s, i, now).invitations;
    FoundIs(n, i, n[i].id);
    var j := Find(s.invitations, id);
    if j.Some? { FoundIs(n, j.value, id); }
  }

  /** An invitation that may be used: not used yet, and not expired. */
  predicate MayUse(v: Option<Invitation>, now: Nanos) {
    v.Some? && v.value.consumedAt.None? && v.value.expiresAt * SECOND > now
  }

  /** The invitation of an id after a call; it lives for five minutes. */
  function InvitationAfter(s: State, c: Call, id: string): Option<Invitation> {
    var before := InvitationOf(s.invitations, id);
    var used := Some(if before.Some? then before.value.(consumedAt := Some(c.now / SECOND))
                     else Invitation("", "", "", 0, 0, None));
    if !c.saved then before else
      match c.op
      case Invite(made, corr, details) =>
        if made == id then Some(Invitation(id, corr, details, (c.now + 300 * SECOND) / SECOND, c.now / SECOND, None))
        else if before.Some? && before.value.expiresAt * SECOND > c.now then before else None
      case Use(other) => if other == id && MayUse(before, c.now) then used else before
      case Respond(_, _) => if Compared(s, c).Some? && Compared(s, c).value.invitationId == id then used else before
      case Accept(_, _) => if Compared(s, c).Some? && Compared(s, c).value.invitationId == id then used else before
      case _ => before
  }

  lemma CreatedExactly(s: State, made: string, corr: string, details: string, now: Nanos, created: set<string>,
                       id: string)
    requires UniqueIds(s.invitations) && Known(s.invitations, created) && made !in created
    ensures var before := InvitationOf(s.invitations, id);
      InvitationOf(Create(s, made, corr, details, now).invitations, id) ==
        if made == id then Some(Invitation(id, corr, details, (now + 300 * SECOND) / SECOND, now / SECOND, None))
        else if before.Some? && before.value.expiresAt * SECOND > now then before else None
  {
    var x := Invitation(made, corr, details, Unix(now + INVITATION_TTL * SECOND), Unix(now), None);
    SweptExactly(s.invitations, now, id);
    AppendedExactly(Swept(s.invitations, now), x, id);
  }

  lemma ComparedConsumes(s: State, c: Call, r: Response, sas: string, id: string)
    requires UniqueIds(s.invitations)
    ensures InvitationOf(Complete(s, c.verify, r, sas, c.now).0.invitations, id) ==
      if Compares(s, c.verify, r, c.now) && r.invitationId == id
      then Some(InvitationOf(s.invitations, id).value.(consumedAt := Some(c.now / SECOND)))
      else InvitationOf(s.invitations, id)
  {
    if Compares(s, c.verify, r, c.now) {
      UsableIs(s, r.invitationId, c.now);
      ConsumedExactly(s, Usable(s, r.invitationId, c.now).0.value, c.now, id);
    }
  }

  /** Each call does to each invitation exactly this. */
  lemma InvitationsExactly(w: World, c: Call, id: string)
    requires Inv(w) && Admissible(w, c)
    ensures InvitationOf(Next(w, c).disk.invitations, id) == InvitationAfter(w.disk, c, id)
  {
    var s := w.disk;
    match c.op
    case Invite(made, corr, details) => CreatedExactly(s, made, corr, details, c.now, w.created, id);
    case Use(other) =>
      if Usable(s, other, c.now).0.Some? { ConsumedExactly(s, Usable(s, other, c.now).0.value, c.now, id); }
    case Respond(r, sas) => ComparedConsumes(s, c, r, sas, id);
    case Accept(key, sas) =>
      if Confirmed(s, key).Some? { ComparedConsumes(s, c, Confirmed(s, key).value, sas, id); }
    case _ =>
  }

  // ----- waiting responses -----

  lemma {:induction false} WithoutExactly(records: seq<Pending>, gone: string, id: string)
    ensures PendingFor(WithoutPending(records, gone), id) == if gone == id then None else PendingFor(records, id)
  {
    if records != [] { WithoutExactly(records[1..], gone, id); }
  }

  lemma {:induction false} HeldExactly(records: seq<Pending>, p: Pending, id: string)
    ensures PendingFor(UpsertPending(records, p), id) ==
      if p.response.invitationId == id then Some(p) else PendingFor(records, id)
  {
    var n, own := UpsertPending(records, p), p.response.invitationId;
    if records != [] {
      if records[0].response.invitationId == own {
        assert n == [p] + records[1..];
      } else {
        HeldExactly(records[1..], p, id);
        assert n == [records[0]] + UpsertPending(records[1..], p);
      }
    }
  }

  /** What waits for an invitation after a call: a response that checks is held trimmed, with its code and the
      fingerprint it was checked for; a comparison lets go of what waited. */
  function PendingAfter(s: State, c: Call, id: string): Option<Pending> {
    var before := PendingFor(s.pending, id);
    if !c.saved then before else
      match c.op
      case Hold(r) =>
        var v := InvitationOf(s.invitations, r.invitationId);
        if r.invitationId != id || !MayUse(v, c.now) then before else
          (match c.verify(v.value, r, c.now / SECOND)
           case None => before
           case Some(checked) =>
             Some(Pending(Response(Trim(r.accountId), id, r.correlationId, Trim(r.publicKey), checked.fingerprint,
                                   Trim(r.displayName), Trim(r.signature)),
                          checked.sas, c.now / SECOND, v.value.expiresAt)))
      case Respond(_, _) => if Compared(s, c).Some? && Compared(s, c).value.invitationId == id then None else before
      case Accept(_, _) => if Compared(s, c).Some? && Compared(s, c).value.invitationId == id then None else before
      case _ => before
  }

  lemma ComparedLetsGo(s: State, c: Call, r: Response, sas: string, id: string)
    ensures PendingFor(Complete(s, c.verify, r, sas, c.now).0.pending, id) ==
      if Compares(s, c.verify, r, c.now) && r.invitationId == id then None else PendingFor(s.pending, id)
  {
    WithoutExactly(s.pending, r.invitationId, id);
  }

  lemma HoldExactly(s: State, c: Call, r: Response, id: string)
    requires c.op == Hold(r) && c.saved
    ensures PendingFor(Store(s, c.verify, r, c.now).0.pending, id) == PendingAfter(s, c, id)
  {
    UsableIs(s, r.invitationId, c.now);
    if Store(s, c.verify, r, c.now).1 == None {
      var i := Find(s.invitations, r.invitationId).value;
      var checked := c.verify(s.invitations[i], r, Unix(c.now)).value;
      HeldExactly(s.pending, PendingOf(checked, r, c.now, s.invitations[i].expiresAt), id);
    }
  }

  /** Each call does to each waiting response exactly this. */
  lemma PendingExactly(w: World, c: Call, id: string)
    ensures PendingFor(Next(w, c).disk.pending, id) == PendingAfter(w.disk, c, id)
  {
    var s := w.disk;
    match c.op
    case Hold(r) => if c.saved { HoldExactly(s, c, r, id); }
    case Respond(r, sas) => ComparedLetsGo(s, c, r, sas, id);
    case Accept(key, sas) => if Confirmed(s, key).Some? { ComparedLetsGo(s, c, Confirmed(s, key).value, sas, id); }
    case _ =>
  }

  // ----- answers -----

  /** What a comparison answers, with its save in mind: success exactly for a usable invitation, a response that checks
      and its code; a code that does not match is told as such. */
  lemma CompareAnswers(s: State, c: Call, r: Response, sas: string)
    ensures var v := InvitationOf(s.invitations, r.invitationId);
      Complete(s, c.verify, r, sas, c.now).1 ==
        if v.None? then Some(NotFound)
        else if v.value.consumedAt.Some? then Some(Consumed)
        else if v.value.expiresAt * SECOND <= c.now then Some(Expired)
        else if c.verify(v.value, r, c.now / SECOND).None? then Some(BadResponse)
        else if c.verify(v.value, r, c.now / SECOND).value.sas != Trim(sas) then Some(Mismatch) else None
  {
    UsableIs(s, r.invitationId, c.now);
  }

  /** After a call that reports success, the device of a response is on the list, with the response's key, its name and
      account trimmed. */
  lemma SuccessTrusts(w: World, c: Call, r: Response, sas: string)
    requires Inv(w) && c.op == Respond(r, sas) && c.saved && Complete(w.disk, c.verify, r, sas, c.now).1 == None
    ensures InvitationOf(w.disk.invitations, r.invitationId).Some?
    ensures var v := c.verify(InvitationOf(w.disk.invitations, r.invitationId).value, r, c.now / SECOND);
      && v.Some? && Lists(Next(w, c).disk, v.value.fingerprint)
      && DeviceOf(Next(w, c).disk.roster, v.value.fingerprint) ==
           Some(Device(v.value.fingerprint, r.publicKey, Trim(r.displayName), Trim(r.accountId), Trusted,
             c.now / SECOND, None))
  {
    CompareAnswers(w.disk, c, r, sas);
    var v := c.verify(InvitationOf(w.disk.invitations, r.invitationId).value, r, c.now / SECOND);
    MatchIs(w.disk, c, r, sas, v.value.fingerprint);
    DevicesExactly(w, c, v.value.fingerprint);
    CompleteRoster(w.disk, c.verify, r, sas, c.now);
    ListedIs(Next(w, c).disk, v.value.fingerprint);
  }
}
