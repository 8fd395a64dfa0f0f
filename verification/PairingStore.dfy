/** The pairing state as the program works on it: load, change in loops, save. */
module PairingStore {
  import opened Common
  import opened Texts
  import opened PairingModel

  // ----- loops over the records -----

  lemma {:induction false} FindIs(records: seq<Invitation>, id: string, i: nat)
    requires i < |records| && records[i].id == id && forall j :: 0 <= j < i ==> records[j].id != id
    ensures Find(records, id) == Some(i)
  {
    if i > 0 { FindIs(records[1..], id, i - 1); }
  }

  lemma {:induction false} FindPendingIs(records: seq<Pending>, id: string, i: nat)
    requires i < |records| && records[i].response.invitationId == id && forall j ::
      0 <= j < i ==> records[j].response.invitationId != id
    ensures FindPending(records, id) == Some(i)
  {
    if i > 0 { FindPendingIs(records[1..], id, i - 1); }
  }

  lemma {:induction false} FindDeviceIs(devices: seq<Device>, fp: string, i: nat)
    requires i < |devices| && devices[i].fingerprint == fp && forall j :: 0 <= j < i ==> devices[j].fingerprint != fp
    ensures FindDevice(devices, fp) == Some(i)
  {
    if i > 0 { FindDeviceIs(devices[1..], fp, i - 1); }
  }

  lemma {:induction false} SweptSnoc(records: seq<Invitation>, r: Invitation, now: Nanos)
    ensures Swept(records + [r], now) == Swept(records, now) + if IsExpired(r.expiresAt, now) then [] else [r]
  {
    if records != [] {
      SweptSnoc(records[1..], r, now);
      assert (records + [r])[1..] == records[1..] + [r];
    }
  }

  lemma {:induction false} WithoutSnoc(records: seq<Pending>, p: Pending, id: string)
    ensures WithoutPending(records + [p], id) == WithoutPending(records, id) + if p.response.invitationId == id then []
      else [p]
  {
    if records != [] {
      WithoutSnoc(records[1..], p, id);
      assert (records + [p])[1..] == records[1..] + [p];
    }
  }

  /** Dropping expired invitations in place: later records move to the front of the same array. */
  method SweepInPlace(records: array<Invitation>, now: Nanos) returns (kept: nat)
    modifies records
    ensures kept <= records.Length && records[..kept] == Swept(old(records[..]), now)
  {
    kept := 0;
    for i := 0 to records.Length
      invariant kept <= i && records[..kept] == Swept(old(records[..i]), now)
      invariant forall j :: i <= j < records.Length ==> records[j] == old(records[j])
    {
      SweptSnoc(old(records[..i]), old(records[i]), now);
      assert old(records[..i + 1]) == old(records[..i]) + [old(records[i])];
      if !IsExpired(records[i].expiresAt, now) {
        records[kept] := records[i];
        kept := kept + 1;
      }
    }
    assert old(records[..]) == old(records[..records.Length]);
  }

  /** Dropping an invitation's pending responses in place. */
  method RemovePendingInPlace(records: array<Pending>, id: string) returns (kept: nat)
    modifies records
    ensures kept <= records.Length && records[..kept] == WithoutPending(old(records[..]), id)
  {
    kept := 0;
    for i := 0 to records.Length
      invariant kept <= i && records[..kept] == WithoutPending(old(records[..i]), id)
      invariant forall j :: i <= j < records.Length ==> records[j] == old(records[j])
    {
      WithoutSnoc(old(records[..i]), old(records[i]), id);
      assert old(records[..i + 1]) == old(records[..i]) + [old(records[i])];
      if records[i].response.invitationId != id {
        records[kept] := records[i];
        kept := kept + 1;
      }
    }
    assert old(records[..]) == old(records[..records.Length]);
  }

  method UpsertDeviceRecord(devices: seq<Device>, d: Device) returns (out: seq<Device>)
    ensures out == UpsertDevice(devices, d)
  {
    for i := 0 to |devices|
      invariant forall j :: 0 <= j < i ==> devices[j].fingerprint != d.fingerprint
    {
      if devices[i].fingerprint == d.fingerprint {
        FindDeviceIs(devices, d.fingerprint, i);
        return devices[i := d];
      }
    }
    out := devices + [d];
  }

  method UpsertPendingRecord(records: seq<Pending>, p: Pending) returns (out: seq<Pending>)
    ensures out == UpsertPending(records, p)
  {
    for i := 0 to |records|
      invariant forall j :: 0 <= j < i ==> records[j].response.invitationId != p.response.invitationId
    {
      if records[i].response.invitationId == p.response.invitationId {
        FindPendingIs(records, p.response.invitationId, i);
        return records[i := p];
      }
    }
    out := records + [p];
  }

  /** The loop that looks an invitation up and checks that it may be used. */
  method UsableRecord(s: State, id: string, now: Nanos) returns (i: Option<nat>, error: Option<Error>)
    ensures (i, error) == Usable(s, id, now)
    ensures i.Some? ==> i.value < |s.invitations|
  {
    for k := 0 to |s.invitations|
      invariant forall j :: 0 <= j < k ==> s.invitations[j].id != id
    {
      var record := s.invitations[k];
      if record.id == id {
        FindIs(s.invitations, id, k);
        if record.consumedAt.Some? { return None, Some(Consumed); }
        if IsExpired(record.expiresAt, now) { return None, Some(Expired); }
        return Some(k), None;
      }
    }
    i, error := None, Some(NotFound);
  }

  // ----- the stored state -----

  class Store {
    var disk: State

    constructor ()
      ensures disk == EMPTY
    {
      disk := EMPTY;
    }

    /** Writing the whole state; a failed write leaves the old one. */
    method Save(state: State, ok: bool) returns (error: Option<Error>)
      modifies this
      ensures disk == (if ok then state else old(disk)) && error == if ok then None else Some(SaveFailed)
    {
      if !ok { return Some(SaveFailed); }
      disk := state;
      error := None;
    }

    method CreateInvitation(id: string, correlationId: string, details: string, now: Nanos, saveOk: bool)
      returns (error: Option<Error>)
      modifies this
      ensures error == Told(None, saveOk)
      ensures disk == if saveOk then Create(old(disk), id, correlationId, details, now) else old(disk)
    {
      var state := disk;
      var records :=
        new Invitation[|state.invitations|](i requires 0 <= i < |state.invitations| => state.invitations[i]);
      assert records[..] == state.invitations;
      var kept := SweepInPlace(records, now);
      var record := Invitation(id, correlationId, details, Unix(now + INVITATION_TTL * SECOND), Unix(now), None);
      state := state.(invitations := records[..kept] + [record]);
      error := Save(state, saveOk);
    }

    method ConsumeInvitation(id: string, now: Nanos, saveOk: bool) returns (error: Option<Error>)
      modifies this
      ensures error == Told(Consume(old(disk), id, now).1, saveOk)
      ensures disk == if saveOk then Consume(old(disk), id, now).0 else old(disk)
    {
      var state := disk;
      var i;
      i, error := UsableRecord(state, id, now);
      if i.None? { return; }
      state :=
        state.(invitations := state.invitations[i.value := state.invitations[i.value].(consumedAt := Some(Unix(now)))]);
      error := Save(state, saveOk);
    }

    /** Comparing the code of a response, once: the record is used up before the comparison. */
    method CompleteResponse(verify: Verifier, r: Response, expectedSas: string, now: Nanos, saveOk: bool)
      returns (error: Option<Error>)
      modifies this
      ensures error == Told(Complete(old(disk), verify, r, expectedSas, now).1, saveOk)
      ensures disk == if saveOk then Complete(old(disk), verify, r, expectedSas, now).0 else old(disk)
    {
      var state := disk;
      var i;
      i, error := UsableRecord(state, r.invitationId, now);
      if i.None? { return; }
      var verified := verify(state.invitations[i.value], r, Unix(now));
      if verified.None? { return Some(BadResponse); }
      state :=
        state.(invitations := state.invitations[i.value := state.invitations[i.value].(consumedAt := Some(Unix(now)))]);
      var left := PendingWithout(state.pending, r.invitationId);
      state := state.(pending := left);
      if Trim(expectedSas) != verified.value.sas {
        error := Save(state, saveOk);
        return if error.Some? then error else Some(Mismatch);
      }
      var roster := UpsertDeviceRecord(state.roster, TrustedDevice(verified.value, r, now));
      state := state.(roster := roster);
      error := Save(state, saveOk);
    }

    method PendingWithout(pending: seq<Pending>, id: string) returns (left: seq<Pending>)
      ensures left == WithoutPending(pending, id)
    {
      var records := new Pending[|pending|](i requires 0 <= i < |pending| => pending[i]);
      assert records[..] == pending;
      var kept := RemovePendingInPlace(records, id);
      left := records[..kept];
    }

    method StoreResponse(verify: Verifier, r: Response, now: Nanos, saveOk: bool) returns (error: Option<Error>)
      modifies this
      ensures error == Told(PairingModel.Store(old(disk), verify, r, now).1, saveOk)
      ensures disk == if saveOk then PairingModel.Store(old(disk), verify, r, now).0 else old(disk)
    {
      var state := disk;
      var i;
      i, error := UsableRecord(state, r.invitationId, now);
      if i.None? { return; }
      var verified := verify(state.invitations[i.value], r, Unix(now));
      if verified.None? { return Some(BadResponse); }
      var pending :=
        UpsertPendingRecord(state.pending, PendingOf(verified.value, r, now, state.invitations[i.value].expiresAt));
      state := state.(pending := pending);
      error := Save(state, saveOk);
    }

    method ConfirmResponse(verify: Verifier, id: string, expectedSas: string, now: Nanos, saveOk: bool)
      returns (error: Option<Error>)
      modifies this
      ensures error == Told(Confirm(old(disk), verify, id, expectedSas, now).1, saveOk)
      ensures disk == if saveOk then Confirm(old(disk), verify, id, expectedSas, now).0 else old(disk)
    {
      var state := disk;
      for i := 0 to |state.pending|
        invariant disk == old(disk) && forall j :: 0 <= j < i ==> state.pending[j].response.invitationId != Trim(id)
      {
        if state.pending[i].response.invitationId == Trim(id) {
          FindPendingIs(state.pending, Trim(id), i);
          error := CompleteResponse(verify, state.pending[i].response, expectedSas, now, saveOk);
          return;
        }
      }
      error := Some(NotFound);
    }

    method UpsertTrusted(fp: Option<string>, d: Device, now: Nanos, saveOk: bool) returns (error: Option<Error>)
      modifies this
      ensures error == Told(Upsert(old(disk), fp, d, now).1, saveOk)
      ensures disk == if saveOk then Upsert(old(disk), fp, d, now).0 else old(disk)
    {
      if fp.None? { return Some(BadFingerprint); }
      var state := disk;
      var device := d.(fingerprint := fp.value, status := Trusted, revokedAt := None);
      if device.pairedAt == 0 { device := device.(pairedAt := Unix(now)); }
      var roster := UpsertDeviceRecord(state.roster, device);
      error := Save(state.(roster := roster), saveOk);
    }

    method RevokeTrusted(fp: Option<string>, now: Nanos, saveOk: bool) returns (error: Option<Error>)
      modifies this
      ensures error == Told(Revoke(old(disk), fp, now).1, saveOk)
      ensures disk == if saveOk then Revoke(old(disk), fp, now).0 else old(disk)
    {
      if fp.None? { return Some(BadFingerprint); }
      var state := disk;
      for i := 0 to |state.roster|
        invariant disk == old(disk) && forall j :: 0 <= j < i ==> state.roster[j].fingerprint != fp.value
      {
        if state.roster[i].fingerprint == fp.value {
          FindDeviceIs(state.roster, fp.value, i);
          var device := state.roster[i];
          if device.revokedAt.None? { device := device.(revokedAt := Some(Unix(now))); }
          device := device.(status := Revoked);
          error := Save(state.(roster := state.roster[i := device]), saveOk);
          return;
        }
      }
      error := Some(DeviceNotFound);
    }

    method ListTrusted() returns (devices: seq<Device>)
      ensures devices == Listing(disk.roster)
    {
      devices := [];
      for i := 0 to |disk.roster|
        invariant devices == Listing(disk.roster[..i])
      {
        var device := disk.roster[i];
        ListingSnoc(disk.roster[..i], device);
        assert disk.roster[..i + 1] == disk.roster[..i] + [device];
        if !IsListed(device) { continue; }
        if device.status == NoStatus { device := device.(status := Trusted); }
        devices := devices + [device];
      }
      assert disk.roster[..|disk.roster|] == disk.roster;
    }
  }

  lemma {:induction false} ListingSnoc(devices: seq<Device>, d: Device)
    ensures Listing(devices + [d]) == Listing(devices) + if IsListed(d) then
      [d.(status := if d.status == NoStatus then Trusted else d.status)] else []
  {
    if devices != [] {
      ListingSnoc(devices[1..], d);
      assert (devices + [d])[1..] == devices[1..] + [d];
    }
  }
}
