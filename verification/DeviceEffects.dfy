/** What every event of the device registry does to every launch, result, device and record, written out one by one. */
module DeviceEffects {
  import opened Common
  import opened Texts
  import opened DeviceModel
  import opened DeviceRuns
  import opened DeviceClaims

  /** What becomes of a pending launch: it stays, perhaps with something noted, it ends with a result, or it is
      dropped without one because its request could not be sent. */
  datatype Fate = Stays(launch: Launch) | Ends(result: LaunchResult) | Dropped

  function Fails(id: string, reason: string): Fate { Ends(LaunchResult(id, Failed, "", reason)) }

  /** The launch's device is taken from its connection before it has accepted. */
  predicate Stranded(s: State, r: Launch, e: Event) {
    && !r.accepted && r.deviceId in s.devices
    && var live := s.devices[r.deviceId];
       match e
       case Register(info, _, peer, _) => info.deviceId == r.deviceId && live.peer != peer
       case Activate(info, owner, peer, _) =>
         && info.deviceId == r.deviceId && live.peer != peer && live.owner.userId == owner.userId
         && peer in s.pending && s.pending[peer] == owner
       case Disconnect(dev, peer) => dev == r.deviceId && live.peer == peer
       case DisconnectAgent(token) => live.owner.agentTokenId == token
       case _ => false
  }

  function FateOf(s: State, e: Event, id: string): Fate
    requires id in s.requests
  {
    var r := s.requests[id];
    if Stranded(s, r, e) then Fails(id, "device_offline") else
      match e
      case Clear(other) => if other == id then Dropped else Stays(r)
      case Expire(other) => if other == id then Fails(id, "launch_timeout") else Stays(r)
      case DeviceReport(dev, peer, other, report) =>
        if other != id || r.deviceId != dev || r.peer != peer then Stays(r) else
          (match report
           case ReportAccepted(workspace) =>
             if Trim(r.sessionId) != "" then Ends(LaunchResult(id, SessionReady, Trim(r.sessionId), ""))
             else Stays(r.(accepted := true, workspace := Trim(workspace)))
           case ReportFailed(reason) => Fails(id, if Trim(reason) == "" then "unknown_reason" else Trim(reason))
           case ReportOther => Stays(r))
      case AgentReady(other, owner, sid) =>
        if other != id || r.owner != owner || Trim(sid) == "" then Stays(r)
        else if r.accepted then Ends(LaunchResult(id, SessionReady, Trim(sid), ""))
        else Stays(r.(sessionId := Trim(sid)))
      case _ => Stays(r)
  }

  /** The registry after an event agrees with the fate of the launch. */
  ghost predicate Met(t: State, r: Launch, fate: Fate) {
    match fate
    case Stays(q) => r.id in t.requests && t.requests[r.id] == q && TicketOf(r) !in t.results
    case Ends(result) => r.id !in t.requests && TicketOf(r) in t.results && t.results[TicketOf(r)] == result
    case Dropped => r.id !in t.requests && TicketOf(r) !in t.results
  }

  lemma CompleteMeets(s: State, other: string, result: LaunchResult, id: string)
    requires Inv(s) && id in s.requests
    ensures Met(CompleteRequest(s, other, result), s.requests[id], if other == id then Ends(result)
      else Stays(s.requests[id]))
  {
    assert OwnId(id, s.requests[id]);
    if other in s.requests { assert OwnId(other, s.requests[other]); }
  }

  lemma FailMeets(s: State, devices: set<string>, id: string)
    requires Inv(s) && id in s.requests
    ensures Met(FailUnaccepted(s, devices), s.requests[id],
      if s.requests[id].deviceId in devices && !s.requests[id].accepted then Fails(id, "device_offline")
      else Stays(s.requests[id]))
  {
    assert OwnId(id, s.requests[id]);
    OfflineFailsUnaccepted(s, devices, id);
  }

  lemma NothingMeets(s: State, t: State, id: string)
    requires Inv(s) && id in s.requests && t.results == s.results && id in t.requests
      && t.requests[id] == s.requests[id]
    ensures Met(t, s.requests[id], Stays(s.requests[id]))
  {
    assert OwnId(id, s.requests[id]);
  }

  lemma InstallMeets(s: State, info: Info, owner: Owner, peer: Peer, now: Time, id: string)
    requires Inv(s) && id in s.requests
    ensures var r := s.requests[id];
      Met(Install(s, info, owner, peer, now), r,
        if !r.accepted && r.deviceId == info.deviceId && r.deviceId in s.devices && s.devices[r.deviceId].peer != peer
        then Fails(id, "device_offline") else Stays(r))
  {
    FailMeets(s, {info.deviceId}, id);
    NothingMeets(s, s, id);
  }

  lemma ClearMeets(s: State, other: string, id: string)
    requires Inv(s) && id in s.requests
    ensures Met(ClearRequest(s, other), s.requests[id], if other == id then Dropped else Stays(s.requests[id]))
  {
    assert OwnId(id, s.requests[id]);
    NothingMeets(s, s, id);
  }

  lemma StartMeets(s: State, deviceId: string, userId: int, now: Time, id: string)
    requires Inv(s) && id in s.requests
    ensures Met(StartLaunch(s, deviceId, userId, now).0, s.requests[id], Stays(s.requests[id]))
  {
    if StartLaunch(s, deviceId, userId, now).1 == None { LaunchNeverOverwrites(s, deviceId, userId, now); }
    NothingMeets(s, StartLaunch(s, deviceId, userId, now).0, id);
  }

  /** Marking one launch and then completing it or not. */
  lemma MarkedMeets(s: State, other: string, q: Launch, id: string)
    requires Inv(s) && other in s.requests && id in s.requests
      && q == s.requests[other].(accepted := q.accepted, sessionId := q.sessionId, workspace := q.workspace)
    ensures var t := s.(requests := s.requests[other := q]);
      && Inv(t) && Met(t, s.requests[id], Stays(if other == id then q else s.requests[id]))
  {
    MarkInv(s, other, q);
    assert OwnId(id, s.requests[id]) && OwnId(other, s.requests[other]);
  }

  lemma ReadyMeets(s: State, other: string, sessionId: string, id: string)
    requires Inv(s) && other in s.requests && id in s.requests
    ensures Met(CompleteReady(s, other, sessionId).0, s.requests[id],
      if other == id then Ends(LaunchResult(id, SessionReady, sessionId, "")) else Stays(s.requests[id]))
  {
    CompleteMeets(s, other, LaunchResult(other, SessionReady, sessionId, ""), id);
  }

  lemma AcceptMeets(s: State, other: string, workspace: string, id: string)
    requires Inv(s) && other in s.requests && id in s.requests
    ensures var r := s.requests[id];
      Met(Accept(s, other, workspace).0, r,
        if other != id then Stays(r)
        else if Trim(r.sessionId) != "" then Ends(LaunchResult(id, SessionReady, Trim(r.sessionId), ""))
        else Stays(r.(accepted := true, workspace := Trim(workspace))))
  {
    var q := s.requests[other].(accepted := true, workspace := Trim(workspace));
    var s1 := s.(requests := s.requests[other := q]);
    MarkedMeets(s, other, q, id);
    if Trim(q.sessionId) != "" { ReadyMeets(s1, other, Trim(q.sessionId), id); }
  }

  lemma ArriveMeets(s: State, other: string, sessionId: string, id: string)
    requires Inv(s) && other in s.requests && id in s.requests && Trim(sessionId) == sessionId
    ensures var r := s.requests[id];
      Met(Arrive(s, other, sessionId).0, r,
        if other != id then Stays(r)
        else if r.accepted then Ends(LaunchResult(id, SessionReady, sessionId, ""))
        else Stays(r.(sessionId := sessionId)))
  {
    var q := s.requests[other].(sessionId := sessionId);
    var s1 := s.(requests := s.requests[other := q]);
    MarkedMeets(s, other, q, id);
    if q.accepted { ReadyMeets(s1, other, sessionId, id); }
  }

  lemma ReportMeets(s: State, e: Event, id: string)
    requires Inv(s) && id in s.requests && e.DeviceReport?
    ensures Met(Step(s, e), s.requests[id], FateOf(s, e, id))
  {
    NothingMeets(s, s, id);
    if FromDevice(s, e.deviceId, e.peer, e.id) {
      match e.report
      case ReportAccepted(workspace) => AcceptMeets(s, e.id, workspace, id);
      case ReportFailed(reason) =>
        var why := if Trim(reason) == "" then "unknown_reason" else Trim(reason);
        CompleteMeets(s, e.id, LaunchResult(e.id, Failed, "", why), id);
      case ReportOther =>
    }
  }

  lemma AgentMeets(s: State, e: Event, id: string)
    requires Inv(s) && id in s.requests && e.AgentReady?
    ensures Met(Step(s, e), s.requests[id], FateOf(s, e, id))
  {
    NothingMeets(s, s, id);
    TrimTwice(e.sessionId);
    if FromAgent(s, e.id, e.owner, e.sessionId) { ArriveMeets(s, e.id, Trim(e.sessionId), id); }
  }

  lemma RegisterMeets(s: State, e: Event, id: string)
    requires Inv(s) && id in s.requests && e.Register?
    ensures Met(Step(s, e), s.requests[id], FateOf(s, e, id))
  {
    InstallMeets(s, e.info, e.owner, e.peer, e.at, id);
  }

  lemma ActivateMeets(s: State, e: Event, id: string)
    requires Inv(s) && id in s.requests && e.Activate?
    ensures Met(Step(s, e), s.requests[id], FateOf(s, e, id))
  {
    NothingMeets(s, s, id);
    InstallMeets(s.(pending := s.pending - {e.peer}), e.info, e.owner, e.peer, e.at, id);
  }

  lemma DisconnectMeets(s: State, e: Event, id: string)
    requires Inv(s) && id in s.requests && e.Disconnect?
    ensures Met(Step(s, e), s.requests[id], FateOf(s, e, id))
  {
    NothingMeets(s, s, id);
    FailMeets(s.(devices := s.devices - {e.deviceId}), {e.deviceId}, id);
  }

  lemma AgentFails(s: State, token: string, id: string)
    requires Inv(s) && id in s.requests
    ensures var r := s.requests[id];
      Met(DisconnectAgentTokenDevices(s, token), r,
        if !r.accepted && r.deviceId in s.devices && s.devices[r.deviceId].owner.agentTokenId == token
        then Fails(id, "device_offline") else Stays(r))
  {
    FailMeets(s, IdsOfAgent(s.devices, token), id);
  }

  lemma AgentGoneMeets(s: State, e: Event, id: string)
    requires Inv(s) && id in s.requests && e.DisconnectAgent?
    ensures Met(Step(s, e), s.requests[id], FateOf(s, e, id))
  {
    AgentFails(s, e.token, id);
  }

  /** Each event does to each pending launch exactly this. */
  lemma FatesExactly(s: State, e: Event, id: string)
    requires Inv(s) && id in s.requests
    ensures Met(Step(s, e), s.requests[id], FateOf(s, e, id))
  {
    match e
    case Start(dev, user, at) => StartMeets(s, dev, user, at, id);
    case Clear(other) => ClearMeets(s, other, id);
    case Expire(other) => CompleteMeets(s, other, LaunchResult(other, Failed, "", "launch_timeout"), id);
    case DeviceReport(_, _, _, _) => ReportMeets(s, e, id);
    case AgentReady(_, _, _) => AgentMeets(s, e, id);
    case Enter(_, _) => NothingMeets(s, Step(s, e), id);
    case Leave(_) => NothingMeets(s, Step(s, e), id);
    case Update(_, _, _) => NothingMeets(s, Step(s, e), id);
    case Register(_, _, _, _) => RegisterMeets(s, e, id);
    case Activate(_, _, _, _) => ActivateMeets(s, e, id);
    case Disconnect(_, _) => DisconnectMeets(s, e, id);
    case DisconnectAgent(_) => AgentGoneMeets(s, e, id);
  }

  function At<K, V>(m: map<K, V>, k: K): Option<V> { if k in m then Some(m[k]) else None }

  // ----- launches that start -----

  ghost predicate Free(s: State, deviceId: string, userId: int) {
    && deviceId in s.devices && s.devices[deviceId].owner.userId == userId
    && forall id :: id in s.requests ==> s.requests[id].deviceId != deviceId
  }

  lemma FreeIsIdle(s: State, deviceId: string, userId: int)
    requires Busy(s.devices, s.requests) && deviceId in s.devices
    ensures Free(s, deviceId, userId) <==> s.devices[deviceId].owner.userId == userId && !s.devices[deviceId].inFlight
  {
    if HasPending(s.requests, deviceId) {
      var id :| id in s.requests && Of(s.requests[id], deviceId);
    } else {
      forall id | id in s.requests ensures s.requests[id].deviceId != deviceId { assert !Of(s.requests[id], deviceId); }
    }
  }

  /** A launch starts exactly when its device is live, belongs to the user and has no pending launch; otherwise the
      answer tells which: offline for a missing or foreign device, busy for the rest. */
  lemma StartExactly(s: State, deviceId: string, userId: int, now: Time)
    requires Inv(s)
    ensures var (t, refused) := StartLaunch(s, deviceId, userId, now); var id := LaunchId(deviceId, now);
      && (refused == None <==> Free(s, deviceId, userId))
      && (refused.Some? ==> t == s && refused.value == LaunchResult(id, Failed, "",
            if deviceId in s.devices && s.devices[deviceId].owner.userId == userId then "busy" else "device_offline"))
      && (refused == None ==>
            var live := s.devices[deviceId];
            t.requests ==
              s.requests[id := Launch(id, deviceId, live.owner, live.peer, false, "", "", s.nextSerial)])
  {
    if deviceId in s.devices { FreeIsIdle(s, deviceId, userId); }
  }

  lemma CompleteAdds(s: State, other: string, result: LaunchResult, id: string)
    ensures id !in s.requests ==> id !in CompleteRequest(s, other, result).requests
  {
  }

  lemma AcceptAdds(s: State, other: string, workspace: string, id: string)
    requires other in s.requests && id !in s.requests
    ensures id !in Accept(s, other, workspace).0.requests
  {
    var q := MarkAccepted(s, s.requests[other], workspace);
    CompleteAdds(s.(requests := s.requests[other := q]), other,
      LaunchResult(other, SessionReady, Trim(q.sessionId), ""), id);
  }

  lemma ArriveAdds(s: State, other: string, sessionId: string, id: string)
    requires other in s.requests && id !in s.requests
    ensures id !in Arrive(s, other, sessionId).0.requests
  {
    var q := MarkReady(s, s.requests[other], sessionId);
    CompleteAdds(s.(requests := s.requests[other := q]), other, LaunchResult(other, SessionReady, sessionId, ""), id);
  }

  /** No event but a start makes a launch. */
  lemma OnlyStartAdds(s: State, e: Event, id: string)
    requires id !in s.requests && !e.Start?
    ensures id !in Step(s, e).requests
  {
    match e
    case DeviceReport(dev, peer, other, report) =>
      if FromDevice(s, dev, peer, other) && report.ReportAccepted? { AcceptAdds(s, other, report.workspace, id); }
    case AgentReady(other, owner, sid) =>
      if FromAgent(s, other, owner, sid) { ArriveAdds(s, other, Trim(sid), id); }
    case _ =>
  }

  // ----- results of other launches -----

  ghost predicate Ticketed(s: State, t: Ticket) {
    exists id :: id in s.requests && TicketOf(s.requests[id]) == t
  }

  lemma CompleteRecords(s: State, other: string, result: LaunchResult, t: Ticket)
    requires !Ticketed(s, t)
    ensures At(CompleteRequest(s, other, result).results, t) == At(s.results, t)
  {
  }

  lemma FailRecords(s: State, devices: set<string>, t: Ticket)
    requires OwnIds(s.requests) && !Ticketed(s, t)
    ensures At(FailUnaccepted(s, devices).results, t) == At(s.results, t)
  {
    forall id | id in s.requests ensures s.requests[id].id == id && TicketOf(s.requests[id]) != t {
      assert OwnId(id, s.requests[id]);
    }
  }

  lemma MarkedTickets(s: State, other: string, q: Launch, t: Ticket)
    requires other in s.requests && TicketOf(q) == TicketOf(s.requests[other]) && !Ticketed(s, t)
    ensures !Ticketed(s.(requests := s.requests[other := q]), t)
  {
    var s1 := s.(requests := s.requests[other := q]);
    forall id | id in s1.requests ensures TicketOf(s1.requests[id]) != t { assert TicketOf(s.requests[id]) != t; }
  }

  /** No event records a result but for a launch that was pending. */
  lemma OnlyPendingRecord(s: State, e: Event, t: Ticket)
    requires Inv(s) && !Ticketed(s, t)
    ensures At(Step(s, e).results, t) == At(s.results, t)
  {
    match e
    case Register(info, _, _, _) => FailRecords(s, {info.deviceId}, t);
    case Activate(info, _, peer, _) => FailRecords(s.(pending := s.pending - {peer}), {info.deviceId}, t);
    case Disconnect(dev, _) => FailRecords(s.(devices := s.devices - {dev}), {dev}, t);
    case DisconnectAgent(token) => FailRecords(s, IdsOfAgent(s.devices, token), t);
    case Expire(id) => CompleteRecords(s, id, LaunchResult(id, Failed, "", "launch_timeout"), t);
    case DeviceReport(_, _, _, _) => ReportRecords(s, e, t);
    case AgentReady(_, _, _) => ReportRecords(s, e, t);
    case _ =>
  }

  lemma AcceptRecords(s: State, id: string, workspace: string, t: Ticket)
    requires id in s.requests && !Ticketed(s, t)
    ensures At(Accept(s, id, workspace).0.results, t) == At(s.results, t)
  {
    var q := MarkAccepted(s, s.requests[id], workspace);
    MarkedTickets(s, id, q, t);
    CompleteRecords(s.(requests := s.requests[id := q]), id, LaunchResult(id, SessionReady, Trim(q.sessionId), ""), t);
  }

  lemma ArriveRecords(s: State, id: string, sessionId: string, t: Ticket)
    requires id in s.requests && !Ticketed(s, t)
    ensures At(Arrive(s, id, sessionId).0.results, t) == At(s.results, t)
  {
    var q := MarkReady(s, s.requests[id], sessionId);
    MarkedTickets(s, id, q, t);
    CompleteRecords(s.(requests := s.requests[id := q]), id, LaunchResult(id, SessionReady, sessionId, ""), t);
  }

  lemma ReportRecords(s: State, e: Event, t: Ticket)
    requires !Ticketed(s, t) && (e.DeviceReport? || e.AgentReady?)
    ensures At(Step(s, e).results, t) == At(s.results, t)
  {
    if e.AgentReady? {
      if FromAgent(s, e.id, e.owner, e.sessionId) { ArriveRecords(s, e.id, Trim(e.sessionId), t); }
    } else if FromDevice(s, e.deviceId, e.peer, e.id) {
      match e.report
      case ReportAccepted(workspace) => AcceptRecords(s, e.id, workspace, t);
      case ReportFailed(reason) => CompleteRecords(s, e.id, LaunchResult(e.id, Failed, "", FailureReason(reason)), t);
      case ReportOther =>
    }
  }

  // ----- a failed report -----

  /** A failed report by the launch's own device connection ends the launch with the reason given; every other launch
      stays as it was, and the device can be asked again at once. */
  lemma FailedReportFrees(s: State, dev: string, peer: Peer, id: string, reason: string, now: Time)
    requires Inv(s) && id in s.requests && s.requests[id].deviceId == dev && s.requests[id].peer == peer
    ensures var (t, done, ok) := Resolve(s, dev, peer, id, ReportFailed(reason));
      var why := if Trim(reason) == "" then "unknown_reason" else Trim(reason);
      && ok && id !in t.requests
      && At(t.results, TicketOf(s.requests[id])) == Some(LaunchResult(id, Failed, "", why))
      && (forall other :: other in s.requests && other != id ==> At(t.requests, other) == Some(s.requests[other]))
      && (dev in t.devices ==> StartLaunch(t, dev, t.devices[dev].owner.userId, now).1 == None)
  {
    var e := DeviceReport(dev, peer, id, ReportFailed(reason));
    var t := Step(s, e);
    StepInv(s, e);
    FatesExactly(s, e, id);
    assert OwnId(id, s.requests[id]);
    forall other | other in s.requests && other != id ensures At(t.requests, other) == Some(s.requests[other]) {
      FatesExactly(s, e, other);
      assert OwnId(other, s.requests[other]);
    }
    if dev in t.devices {
      NoneLeft(s, t, dev, id, t.devices[dev].owner.userId);
      StartExactly(t, dev, t.devices[dev].owner.userId, now);
    }
  }

  lemma NoneLeft(s: State, t: State, dev: string, id: string, userId: int)
    requires OnePending(s.requests) && id in s.requests && s.requests[id].deviceId == dev && id !in t.requests
    requires forall other :: other in t.requests ==> other in s.requests && t.requests[other] == s.requests[other]
    requires dev in t.devices && t.devices[dev].owner.userId == userId
    ensures Free(t, dev, userId)
  {
    forall other | other in t.requests ensures t.requests[other].deviceId != dev {
      assert t.requests[other].deviceId == dev ==> SameDevice(s.requests, other, id);
    }
  }

  // ----- devices -----

  /** A device without its busy flag, which `DeviceClaims.BusyMeansPending` tells. */
  datatype Live = Live(info: Info, owner: Owner, peer: Peer, connectedAt: Time)

  function LiveAt(m: Devices, d: string): Option<Live> {
    if d in m then Some(Live(m[d].info, m[d].owner, m[d].peer, m[d].connectedAt)) else None
  }

  /** Which device is live under an id after an event. */
  function LiveAfter(s: State, e: Event, d: string): Option<Live> {
    var before := LiveAt(s.devices, d);
    match e
    case Register(info, owner, peer, at) => if info.deviceId == d then Some(Live(info, owner, peer, at)) else before
    case Activate(info, owner, peer, at) =>
      if info.deviceId == d && At(s.pending, peer) == Some(owner)
        && (before.None? || before.value.owner.userId == owner.userId)
      then Some(Live(info, owner, peer, at)) else before
    case Update(dev, peer, info) =>
      if dev == d && before.Some? && before.value.peer == peer then Some(before.value.(info := info)) else before
    case Disconnect(dev, peer) => if dev == d && before.Some? && before.value.peer == peer then None else before
    case DisconnectAgent(token) => if before.Some? && before.value.owner.agentTokenId == token then None else before
    case _ => before
  }

  lemma ClearLive(s: State, id: string, d: string)
    ensures LiveAt(ClearRequest(s, id).devices, d) == LiveAt(s.devices, d)
  {
  }

  /** Launch events leave the devices and the waiting connections as they are, but for busy flags. */
  ghost predicate SameLive(s: State, t: State, d: string) {
    LiveAt(t.devices, d) == LiveAt(s.devices, d) && t.pending == s.pending
  }

  lemma CompleteReadyLive(s: State, id: string, sessionId: string, d: string)
    requires id in s.requests
    ensures SameLive(s, CompleteReady(s, id, sessionId).0, d)
  {
    ClearLive(s, id, d);
  }

  lemma AcceptLive(s: State, id: string, workspace: string, d: string)
    requires id in s.requests
    ensures SameLive(s, Accept(s, id, workspace).0, d)
  {
    var q := MarkAccepted(s, s.requests[id], workspace);
    CompleteReadyLive(s.(requests := s.requests[id := q]), id, if IsCompleted(s, q) then "" else Trim(q.sessionId), d);
  }

  lemma ArriveLive(s: State, id: string, sessionId: string, d: string)
    requires id in s.requests
    ensures SameLive(s, Arrive(s, id, sessionId).0, d)
  {
    var q := MarkReady(s, s.requests[id], sessionId);
    CompleteReadyLive(s.(requests := s.requests[id := q]), id, sessionId, d);
  }

  lemma LaunchLive(s: State, e: Event, d: string)
    requires e.DeviceReport? || e.AgentReady?
    ensures SameLive(s, Step(s, e), d)
  {
    if e.AgentReady? {
      if FromAgent(s, e.id, e.owner, e.sessionId) { ArriveLive(s, e.id, Trim(e.sessionId), d); }
    } else if FromDevice(s, e.deviceId, e.peer, e.id) {
      match e.report
      case ReportAccepted(workspace) => AcceptLive(s, e.id, workspace, d);
      case _ => ClearLive(s, e.id, d);
    }
  }

  /** Each event does to each device exactly this. */
  lemma DevicesExactly(s: State, e: Event, d: string)
    ensures LiveAt(Step(s, e).devices, d) == LiveAfter(s, e, d)
  {
    match e
    case Clear(id) => ClearLive(s, id, d);
    case Expire(id) => ClearLive(s, id, d);
    case DeviceReport(_, _, _, _) => LaunchLive(s, e, d);
    case AgentReady(_, _, _) => LaunchLive(s, e, d);
    case _ =>
  }

  /** Which owner waits on a connection after an event. */
  function WaitsAfter(s: State, e: Event, peer: Peer): Option<Owner> {
    var before := At(s.pending, peer);
    match e
    case Enter(owner, p) => if p == peer then Some(owner) else before
    case Leave(p) => if p == peer then None else before
    case Activate(_, owner, p, _) => if p == peer && before == Some(owner) then None else before
    case DisconnectAgent(token) => if before.Some? && before.value.agentTokenId == token then None else before
    case _ => before
  }

  lemma WaitingExactly(s: State, e: Event, peer: Peer)
    ensures At(Step(s, e).pending, peer) == WaitsAfter(s, e, peer)
  {
    match e
    case DeviceReport(_, _, _, _) => LaunchLive(s, e, "");
    case AgentReady(_, _, _) => LaunchLive(s, e, "");
    case _ =>
  }

  // ----- completed launches -----

  /** The workspace a launch ends with when both sides have reported. */
  function WorkspaceOf(r: Launch, e: Event): string {
    if e.DeviceReport? && e.report.ReportAccepted? then Trim(e.report.workspace) else Trim(r.workspace)
  }

  /** The record of completed launches under an id after an event. */
  function CompletedAfter(s: State, e: Event, id: string): Option<Completed> {
    if id !in s.requests then At(s.completedLaunches, id) else
      var r, fate := s.requests[id], FateOf(s, e, id);
      if fate.Ends? && fate.result.status == SessionReady && Trim(r.deviceId) != "" && WorkspaceOf(r, e) != ""
      then Some(Completed(r.owner, Target(r.deviceId, WorkspaceOf(r, e))))
      else At(s.completedLaunches, id)
  }

  lemma ReadyCompletes(s: State, other: string, sessionId: string, id: string)
    requires Inv(s) && other in s.requests
    ensures var r := s.requests[other];
      At(CompleteReady(s, other, sessionId).0.completedLaunches, id) ==
        if other == id && Trim(r.deviceId) != "" && Trim(r.workspace) != ""
        then Some(Completed(r.owner, Target(r.deviceId, Trim(r.workspace)))) else At(s.completedLaunches, id)
  {
    TrimTwice(s.requests[other].workspace);
  }

  lemma AcceptCompletes(s: State, e: Event, id: string)
    requires Inv(s) && e.DeviceReport? && e.report.ReportAccepted? && FromDevice(s, e.deviceId, e.peer, e.id)
    ensures At(Step(s, e).completedLaunches, id) == CompletedAfter(s, e, id)
  {
    var q := s.requests[e.id].(accepted := true, workspace := Trim(e.report.workspace));
    TrimTwice(e.report.workspace);
    MarkedMeets(s, e.id, q, e.id);
    if Trim(q.sessionId) != "" { ReadyCompletes(s.(requests := s.requests[e.id := q]), e.id, Trim(q.sessionId), id); }
  }

  lemma ArriveCompletes(s: State, e: Event, id: string)
    requires Inv(s) && e.AgentReady? && FromAgent(s, e.id, e.owner, e.sessionId)
    ensures At(Step(s, e).completedLaunches, id) == CompletedAfter(s, e, id)
  {
    TrimTwice(e.sessionId);
    var q := s.requests[e.id].(sessionId := Trim(e.sessionId));
    MarkedMeets(s, e.id, q, e.id);
    if q.accepted { ReadyCompletes(s.(requests := s.requests[e.id := q]), e.id, Trim(e.sessionId), id); }
  }

  lemma ReportCompletes(s: State, e: Event, id: string)
    requires Inv(s) && (e.DeviceReport? || e.AgentReady?)
    ensures At(Step(s, e).completedLaunches, id) == CompletedAfter(s, e, id)
  {
    if e.DeviceReport? && e.report.ReportAccepted? && FromDevice(s, e.deviceId, e.peer, e.id) {
      AcceptCompletes(s, e, id);
    } else if e.AgentReady? && FromAgent(s, e.id, e.owner, e.sessionId) {
      ArriveCompletes(s, e, id);
    }
  }

  /** Each event records exactly the launches that end with a session, a device and a workspace. */
  lemma CompletedExactly(s: State, e: Event, id: string)
    requires Inv(s)
    ensures At(Step(s, e).completedLaunches, id) == CompletedAfter(s, e, id)
  {
    if e.DeviceReport? || e.AgentReady? { ReportCompletes(s, e, id); }
  }

  // ----- answers -----

  /** What a device's report answers: it is taken exactly from the launch's own connection, and an acceptance that ends
      the launch hands out its session and target. */
  lemma ReportAnswers(s: State, dev: string, peer: Peer, id: string, report: Report)
    requires Inv(s)
    ensures var (t, done, ok) := Resolve(s, dev, peer, id, report);
      var own := id in s.requests && s.requests[id].deviceId == dev && s.requests[id].peer == peer;
      && (ok <==> own && !report.ReportOther?)
      && done == (if own && report.ReportAccepted? && Trim(s.requests[id].sessionId) != ""
                  then Completion(Trim(s.requests[id].sessionId), Target(dev, Trim(report.workspace)))
                    else NO_COMPLETION)
  {
    if id in s.requests && report.ReportAccepted? {
      assert TicketOf(s.requests[id]) !in s.results;
      TrimTwice(report.workspace);
    }
  }

  /** What an agent's report answers: the target of the launch it completes, or again that of a launch completed before
      under its owner, when no pending launch takes the report. */
  lemma ReadyAnswers(s: State, id: string, owner: Owner, sid: string)
    requires Inv(s)
    ensures var (t, target, ok) := Ready(s, id, owner, sid);
      var own := id in s.requests && s.requests[id].owner == owner && Trim(sid) != "";
      var before := At(s.completedLaunches, id);
      && (ok <==> if own then s.requests[id].accepted else before.Some? && before.value.owner == owner)
      && (ok ==> target == if own then Target(s.requests[id].deviceId, Trim(s.requests[id].workspace))
                           else before.value.target)
  {
    if id in s.requests { assert TicketOf(s.requests[id]) !in s.results; }
  }

  /** A timeout hands out the target of the launch it fails. */
  lemma TimeoutAnswers(s: State, id: string)
    requires Inv(s) && id in s.requests
    ensures Timeout(s, id).1 == Target(s.requests[id].deviceId, Trim(s.requests[id].workspace))
  {
    assert TicketOf(s.requests[id]) !in s.results;
  }

  /** Whether a connection's own operations succeed. */
  lemma DeviceAnswers(s: State, info: Info, owner: Owner, peer: Peer, d: string, now: Time)
    ensures DisconnectPending(s, peer).1 <==> peer in s.pending
    ensures UpdateIfOwner(s, d, peer, info).1 <==> d in s.devices && s.devices[d].peer == peer
    ensures DisconnectIfOwner(s, d, peer).1 <==> d in s.devices && s.devices[d].peer == peer
    ensures ActivatePending(s, info, owner, peer, now).1 <==>
      && At(s.pending, peer) == Some(owner)
      && (info.deviceId in s.devices ==> s.devices[info.deviceId].owner.userId == owner.userId)
  {
  }
}
