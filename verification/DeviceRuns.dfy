/** What every run of the device registry keeps: the busy flag, at most one pending
    launch per device, and launch results that are recorded once. */
module DeviceRuns {
  import opened Common
  import opened Texts
  import opened DeviceModel

  type Requests = map<string, Launch>
  type Devices = map<string, Device>
  type Results = map<Ticket, LaunchResult>

  // ----- the invariant -----

  /** The flag caches the query over pending launches. */
  ghost predicate Busy(devices: Devices, requests: Requests) {
    forall d :: d in devices ==> (devices[d].inFlight <==> HasPending(requests, d))
  }

  ghost predicate SameDevice(m: Requests, i: string, j: string) {
    i in m && j in m && m[i].deviceId == m[j].deviceId
  }

  ghost predicate OnePending(m: Requests) {
    forall i, j :: SameDevice(m, i, j) ==> i == j
  }

  /** The id of a pending launch determines its device: what is left of a stamp of fixed width. */
  ghost predicate OwnId(id: string, r: Launch) {
    r.id == id && |id| == |r.deviceId| + 1 + STAMP_LENGTH && id[..|r.deviceId|] == r.deviceId
  }
  ghost predicate OwnIds(m: Requests) {
    forall id :: id in m ==> OwnId(id, m[id])
  }

  /** A pending launch has not completed. */
  ghost predicate NotCompleted(m: Requests, results: Results, next: nat) {
    && (forall id :: id in m ==> m[id].serial < next && TicketOf(m[id]) !in results)
    && (forall t :: t in results ==> t.serial < next)
  }

  ghost predicate Inv(s: State) {
    && Busy(s.devices, s.requests) && OnePending(s.requests) && OwnIds(s.requests)
    && NotCompleted(s.requests, s.results, s.nextSerial)
  }

  // ----- removing pending launches -----

  lemma OneSub(m: Requests, n: Requests)
    requires OnePending(m) && Sub(n, m)
    ensures OnePending(n)
  {
    forall i, j | SameDevice(n, i, j) ensures i == j { assert SameDevice(m, i, j); }
  }

  lemma ClearInv(s: State, id: string)
    requires Inv(s)
    ensures Inv(ClearRequest(s, id))
  {
    if id in s.requests {
      var dev := s.requests[id].deviceId;
      var left := s.requests - {id};
      OneSub(s.requests, left);
      forall d | d in s.devices && d != dev ensures HasPending(left, d) <==> HasPending(s.requests, d) {
        if j :| j in s.requests && Of(s.requests[j], d) { assert j in left && Of(left[j], d); }
        if j :| j in left && Of(left[j], d) { assert Of(s.requests[j], d); }
      }
    }
  }

  lemma CompleteInv(s: State, id: string, result: LaunchResult)
    requires Inv(s)
    ensures Inv(CompleteRequest(s, id, result))
    ensures id in s.requests ==> CompleteRequest(s, id, result).results[TicketOf(s.requests[id])] == result
  {
    ClearInv(s, id);
    if id in s.requests {
      var t := CompleteRequest(s, id, result);
      forall j | j in t.requests
        ensures TicketOf(t.requests[j]) !in t.results
      {
        assert OwnId(j, s.requests[j]) && OwnId(id, s.requests[id]);
      }
    }
  }

  lemma FailInv(s: State, devices: set<string>)
    requires Inv(s) && devices !! s.devices.Keys
    ensures Inv(FailUnaccepted(s, devices))
  {
    var t := FailUnaccepted(s, devices);
    OneSub(s.requests, t.requests);
    forall d | d in s.devices ensures HasPending(t.requests, d) <==> HasPending(s.requests, d) {
      if j :| j in s.requests && Of(s.requests[j], d) { assert j in t.requests && Of(t.requests[j], d); }
      if j :| j in t.requests && Of(t.requests[j], d) { assert Of(s.requests[j], d); }
    }
    FailNotCompleted(s, devices);
  }

  lemma FailNotCompleted(s: State, devices: set<string>)
    requires OwnIds(s.requests) && NotCompleted(s.requests, s.results, s.nextSerial)
    ensures var t := FailUnaccepted(s, devices); NotCompleted(t.requests, t.results, t.nextSerial)
  {
    var t := FailUnaccepted(s, devices);
    forall j | j in t.requests ensures t.requests[j].serial < t.nextSerial && TicketOf(t.requests[j]) !in t.results {
      assert OwnId(j, s.requests[j]);
    }
  }

  /** Going offline fails exactly the launches the device has not accepted. */
  lemma OfflineFailsUnaccepted(s: State, devices: set<string>, id: string)
    requires Inv(s) && id in s.requests
    ensures var t := FailUnaccepted(s, devices); var r := s.requests[id];
      if r.deviceId in devices && !r.accepted then
        id !in t.requests && TicketOf(r) in t.results && t.results[TicketOf(r)] == Offline(id)
      else id in t.requests && t.requests[id] == r && TicketOf(r) !in t.results
  {
    var gone := Taken(s.requests, Unaccepted(devices));
    assert OwnId(id, s.requests[id]);
    if id in gone { assert Ticket(id, gone[id].serial) in OfflineResults(gone); }
    FailNotCompleted(s, devices);
  }

  // ----- devices -----

  lemma PutDevice(s: State, id: string, d: Device)
    requires OnePending(s.requests) && OwnIds(s.requests) && NotCompleted(s.requests, s.results, s.nextSerial)
    requires forall k :: k in s.devices && k != id ==> (s.devices[k].inFlight <==> HasPending(s.requests, k))
    requires d.inFlight <==> HasPending(s.requests, id)
    ensures Inv(s.(devices := s.devices[id := d]))
  {
  }

  lemma InstallInv(s: State, info: Info, owner: Owner, peer: Peer, now: Time)
    requires Inv(s)
    ensures Inv(Install(s, info, owner, peer, now))
  {
    var id := info.deviceId;
    var s0 := s.(devices := s.devices - {id});
    FailInv(s0, {id});
    var s1 := if id in s.devices && s.devices[id].peer != peer then FailUnaccepted(s, {id}) else s;
    var s2 := if id in s.devices && s.devices[id].peer != peer then FailUnaccepted(s0, {id}) else s0;
    assert s1.requests == s2.requests && s1.results == s2.results;
    forall k | k in s1.devices && k != id
      ensures s1.devices[k].inFlight <==> HasPending(s1.requests, k)
    {
      assert k in s2.devices;
    }
    PutDevice(s1, id, Device(info, owner, peer, now, HasPending(s1.requests, id)));
  }

  lemma UpdateInv(s: State, deviceId: string, peer: Peer, info: Info)
    requires Inv(s)
    ensures Inv(UpdateIfOwner(s, deviceId, peer, info).0)
  {
  }

  lemma DropDevices(s: State, devices: Devices)
    requires Inv(s) && Sub(devices, s.devices)
    ensures Inv(s.(devices := devices))
  {
  }

  lemma DisconnectInv(s: State, deviceId: string, peer: Peer)
    requires Inv(s)
    ensures Inv(DisconnectIfOwner(s, deviceId, peer).0)
  {
    DropDevices(s, s.devices - {deviceId});
    FailInv(s.(devices := s.devices - {deviceId}), {deviceId});
  }

  lemma DisconnectAgentInv(s: State, token: string)
    requires Inv(s)
    ensures Inv(DisconnectAgentTokenDevices(s, token))
  {
    var kept := Keep(s.devices, OfAgent(token));
    DropDevices(s, kept);
    FailInv(s.(devices := kept, pending := Keep(s.pending, PendingOfAgent(token))), IdsOfAgent(s.devices, token));
  }

  // ----- launches -----

  /** A launch id tells its device: equal ids come from equal device ids. */
  lemma IdTellsDevice(a: string, b: string, at: Time, bt: Time)
    requires LaunchId(a, at) == LaunchId(b, bt)
    ensures a == b
  {
    assert |LaunchId(a, at)| == |a| + 1 + STAMP_LENGTH && |LaunchId(b, bt)| == |b| + 1 + STAMP_LENGTH;
    assert LaunchId(a, at)[..|a|] == a && LaunchId(b, bt)[..|b|] == b;
  }

  lemma PendingTellsDevice(m: Requests, deviceId: string, now: Time)
    requires OwnIds(m) && LaunchId(deviceId, now) in m
    ensures HasPending(m, deviceId)
  {
    var id := LaunchId(deviceId, now);
    assert OwnId(id, m[id]);
    assert id[..|deviceId|] == deviceId;
    assert Of(m[id], deviceId);
  }

  /** A new launch takes an id no pending launch has. */
  lemma LaunchNeverOverwrites(s: State, deviceId: string, userId: int, now: Time)
    requires Inv(s) && StartLaunch(s, deviceId, userId, now).1 == None
    ensures LaunchId(deviceId, now) !in s.requests && !HasPending(s.requests, deviceId)
  {
    if LaunchId(deviceId, now) in s.requests { PendingTellsDevice(s.requests, deviceId, now); }
  }

  lemma StartInv(s: State, deviceId: string, userId: int, now: Time)
    requires Inv(s)
    ensures Inv(StartLaunch(s, deviceId, userId, now).0)
  {
    var (t, refused) := StartLaunch(s, deviceId, userId, now);
    if refused == None {
      LaunchNeverOverwrites(s, deviceId, userId, now);
      var id := LaunchId(deviceId, now);
      assert OwnId(id, t.requests[id]) by { assert id[..|deviceId|] == deviceId; }
      assert forall j :: j in s.requests ==> !Of(s.requests[j], deviceId);
      forall i, j | SameDevice(t.requests, i, j) ensures i == j {
        if i != id && j != id { assert SameDevice(s.requests, i, j); }
      }
      forall d | d in t.devices ensures t.devices[d].inFlight <==> HasPending(t.requests, d) {
        if d == deviceId { assert Of(t.requests[id], d); }
        if d != deviceId && d in s.devices {
          if j :| j in s.requests && Of(s.requests[j], d) { assert Of(t.requests[j], d); }
          if j :| j in t.requests && Of(t.requests[j], d) { assert Of(s.requests[j], d); }
        }
      }
    }
  }

  /** Marking a pending launch keeps everything. */
  lemma MarkInv(s: State, id: string, r: Launch)
    requires Inv(s) && id in s.requests
      && r == s.requests[id].(accepted := r.accepted, sessionId := r.sessionId, workspace := r.workspace)
    ensures Inv(s.(requests := s.requests[id := r]))
  {
    var m, n := s.requests, s.requests[id := r];
    forall i, j | SameDevice(n, i, j) ensures i == j { assert SameDevice(m, i, j); }
    forall d | d in s.devices ensures HasPending(n, d) <==> HasPending(m, d) {
      if j :| j in m && Of(m[j], d) { assert Of(n[j], d); }
      if j :| j in n && Of(n[j], d) { assert Of(m[j], d); }
    }
    forall j | j in n ensures OwnId(j, n[j]) { assert OwnId(j, m[j]); }
  }

  lemma CompleteReadyInv(s: State, id: string, sessionId: string)
    requires Inv(s) && id in s.requests
    ensures Inv(CompleteReady(s, id, sessionId).0)
  {
    CompleteInv(s, id, LaunchResult(id, SessionReady, sessionId, ""));
  }

  lemma AcceptInv(s: State, id: string, workspace: string)
    requires Inv(s) && id in s.requests
    ensures Inv(Accept(s, id, workspace).0)
  {
    var r := MarkAccepted(s, s.requests[id], workspace);
    MarkInv(s, id, r);
    CompleteReadyInv(s.(requests := s.requests[id := r]), id, Trim(r.sessionId));
  }

  lemma ArriveInv(s: State, id: string, sessionId: string)
    requires Inv(s) && id in s.requests
    ensures Inv(Arrive(s, id, sessionId).0)
  {
    var r := MarkReady(s, s.requests[id], sessionId);
    MarkInv(s, id, r);
    CompleteReadyInv(s.(requests := s.requests[id := r]), id, sessionId);
  }

  lemma ResolveInv(s: State, deviceId: string, peer: Peer, id: string, report: Report)
    requires Inv(s)
    ensures Inv(Resolve(s, deviceId, peer, id, report).0)
  {
    if id in s.requests {
      match report
      case ReportAccepted(workspace) => AcceptInv(s, id, workspace);
      case ReportFailed(reason) => CompleteInv(s, id, LaunchResult(id, Failed, "", FailureReason(reason)));
      case ReportOther =>
    }
  }

  lemma ReadyInv(s: State, id: string, owner: Owner, sessionId: string)
    requires Inv(s)
    ensures Inv(Ready(s, id, owner, sessionId).0)
  {
    if id in s.requests { ArriveInv(s, id, Trim(sessionId)); }
  }
}
