/** The device registry as the program keeps it: one object whose lock-held regions
    update its maps in place, each proved to compute the function that specifies it. */
module DeviceRegistry {
  import opened Common
  import opened Passes
  import opened Texts
  import opened DeviceModel
  import opened DeviceRuns

  class Registry {
    var devices: map<string, Device>
    var requests: map<string, Launch>
    var completedLaunches: map<string, Completed>
    var pending: map<Peer, Owner>
    var results: map<Ticket, LaunchResult>
    var nextSerial: nat

    ghost function Abs(): State
      reads this
    {
      State(devices, requests, completedLaunches, pending, results, nextSerial)
    }

    ghost predicate Valid()
      reads this
    {
      Inv(Abs())
    }

    constructor ()
      ensures Valid() && Abs() == EMPTY
    {
      devices, requests, completedLaunches, pending, results, nextSerial := map[], map[], map[], map[], map[], 0;
    }

    // ----- passes over the pending launches -----

    /** Whether a launch other than `skip` is pending for a device. */
    method HasOtherPending(deviceId: string, skip: string) returns (found: bool)
      ensures found == HasPending(requests - {skip}, deviceId)
    {
      var todo := requests.Keys;
      while todo != {}
        invariant todo <= requests.Keys
        invariant forall id :: id in requests && id !in todo && id != skip ==> !Of(requests[id], deviceId)
      {
        var id :| id in todo;
        todo := todo - {id};
        if id != skip && requests[id].deviceId == deviceId {
          assert Of((requests - {skip})[id], deviceId);
          return true;
        }
      }
      found := false;
    }

    method AnyPending(deviceId: string) returns (found: bool)
      ensures found == HasPending(requests, deviceId)
    {
      var todo := requests.Keys;
      while todo != {}
        invariant todo <= requests.Keys
        invariant forall id :: id in requests && id !in todo ==> !Of(requests[id], deviceId)
      {
        var id :| id in todo;
        todo := todo - {id};
        if requests[id].deviceId == deviceId {
          assert Of(requests[id], deviceId);
          return true;
        }
      }
      found := false;
    }

    method ClearRequest(id: string)
      modifies this`devices, this`requests
      ensures Abs() == DeviceModel.ClearRequest(old(Abs()), id)
    {
      if id in requests {
        var dev := requests[id].deviceId;
        if dev in devices {
          var busy := HasOtherPending(dev, id);
          devices := devices[dev := devices[dev].(inFlight := busy)];
        }
        requests := requests - {id};
      }
    }

    /** Recording a launch's result, unless it has one. */
    method Complete(r: Launch, result: LaunchResult)
      modifies this`results
      ensures results == Recorded(old(Abs()), r, result)
    {
      if TicketOf(r) !in results { results := results[TicketOf(r) := result]; }
    }

    method CompleteRequest(id: string, result: LaunchResult)
      modifies this`devices, this`requests, this`results
      ensures Abs() == DeviceModel.CompleteRequest(old(Abs()), id, result)
    {
      if id in requests {
        var r := requests[id];
        ClearRequest(id);
        Complete(r, result);
      }
    }
  
    /** Failing one pending launch because its device went offline. */
    method FailOffline(id: string)
      requires id in requests && requests[id].id == id
      modifies this`devices, this`requests, this`results
      ensures requests == old(requests) - {id}
      ensures results == map[TicketOf(old(requests)[id]) := Offline(id)] + old(results)
      ensures SameButBusy(old(devices), devices, old(requests)[id].deviceId)
    {
      var r := requests[id];
      ClearRequest(id);
      Complete(r, Offline(r.id));
    }

    /** Failing every launch of a device that it has not accepted; an accepted one keeps the device busy. */
    method CompleteDeviceRequests(deviceId: string)
      requires OwnIds(requests)
      modifies this`devices, this`requests, this`results
      ensures requests == Keep(old(requests), Unaccepted({deviceId}))
        && results == FailedResults(old(requests), old(results), {deviceId})
      ensures SameButBusy(old(devices), devices, deviceId)
    {
      ghost var was, recorded, drop := requests, results, Unaccepted({deviceId});
      var todo := requests.Keys;
      PassStartEnd(was, drop);
      OfflineNone(PassGone(was, todo, drop), recorded);
      while todo != {}
        invariant todo <= was.Keys && requests == PassKept(was, todo, drop)
        invariant results == OfflineResults(PassGone(was, todo, drop)) + recorded
        invariant SameButBusy(old(devices), devices, deviceId)
      {
        var id :| id in todo;
        PassStep(was, todo, drop, id);
        var r := requests[id];
        if r.deviceId == deviceId {
          if r.accepted {
            if deviceId in devices { devices := devices[deviceId := devices[deviceId].(inFlight := true)]; }
          } else {
            assert OwnId(id, was[id]);
            OfflineStep(PassGone(was, todo, drop), id, r, recorded);
            ghost var before := devices;
            FailOffline(id);
            SameTwice(old(devices), before, devices, deviceId);
          }
        }
        todo := todo - {id};
      }
    }

    // ----- devices -----

    method Install(info: Info, owner: Owner, peer: Peer, now: Time)
      requires OwnIds(requests)
      modifies this`devices, this`requests, this`results
      ensures Abs() == DeviceModel.Install(old(Abs()), info, owner, peer, now)
    {
      var id := info.deviceId;
      if id in devices && devices[id].peer != peer { CompleteDeviceRequests(id); }
      var busy := AnyPending(id);
      var live := Device(info, owner, peer, now, busy);
      PutOverBusy(old(devices), devices, id, live);
      devices := devices[id := live];
    }

    method RegisterOwned(info: Info, owner: Owner, peer: Peer, now: Time)
      requires Valid()
      modifies this`devices, this`requests, this`results
      ensures Valid() && Abs() == DeviceModel.RegisterOwned(old(Abs()), info, owner, peer, now)
    {
      InstallInv(Abs(), info, owner, peer, now);
      Install(info, owner, peer, now);
    }

    method RegisterPending(owner: Owner, peer: Peer)
      requires Valid()
      modifies this`pending
      ensures Valid() && Abs() == DeviceModel.RegisterPending(old(Abs()), owner, peer)
    {
      pending := pending[peer := owner];
    }

    method DisconnectPending(peer: Peer) returns (ok: bool)
      requires Valid()
      modifies this`pending
      ensures Valid() && (Abs(), ok) == DeviceModel.DisconnectPending(old(Abs()), peer)
    {
      if peer !in pending { return false; }
      pending := pending - {peer};
      ok := true;
    }

    method ActivatePending(info: Info, owner: Owner, peer: Peer, now: Time) returns (ok: bool)
      requires Valid()
      modifies this`pending, this`devices, this`requests, this`results
      ensures Valid() && (Abs(), ok) == DeviceModel.ActivatePending(old(Abs()), info, owner, peer, now)
    {
      if peer !in pending || pending[peer] != owner { return false; }
      pending := pending - {peer};
      if info.deviceId in devices && devices[info.deviceId].owner.userId != owner.userId { return false; }
      InstallInv(Abs(), info, owner, peer, now);
      Install(info, owner, peer, now);
      ok := true;
    }

    method UpdateIfOwner(deviceId: string, peer: Peer, info: Info) returns (ok: bool)
      requires Valid()
      modifies this`devices
      ensures Valid() && (Abs(), ok) == DeviceModel.UpdateIfOwner(old(Abs()), deviceId, peer, info)
    {
      UpdateInv(Abs(), deviceId, peer, info);
      if deviceId !in devices || devices[deviceId].peer != peer { return false; }
      devices := devices[deviceId := devices[deviceId].(info := info)];
      ok := true;
    }

    method DisconnectIfOwner(deviceId: string, peer: Peer) returns (ok: bool)
      requires Valid()
      modifies this`devices, this`requests, this`results
      ensures Valid() && (Abs(), ok) == DeviceModel.DisconnectIfOwner(old(Abs()), deviceId, peer)
    {
      DisconnectInv(Abs(), deviceId, peer);
      if deviceId !in devices || devices[deviceId].peer != peer { return false; }
      devices := devices - {deviceId};
      CompleteDeviceRequests(deviceId);
      assert devices == old(devices) - {deviceId};
      ok := true;
    }

    /** Taking out the live devices of an agent token, one after the other, and its pending connections. */
    method DisconnectAgentTokenDevices(token: string)
      requires Valid()
      modifies this`devices, this`requests, this`results, this`pending
      ensures Valid() && Abs() == DeviceModel.DisconnectAgentTokenDevices(old(Abs()), token)
    {
      DropDevicesOf(token);
      var gone;
      pending, gone := Purge(pending, PendingOfAgent(token));
      DisconnectAgentInv(old(Abs()), token);
    }

    method DropDevicesOf(token: string)
      requires OwnIds(requests)
      modifies this`devices, this`requests, this`results
      ensures devices == Keep(old(devices), OfAgent(token))
      ensures FailedFor(old(requests), old(results), IdsOfAgent(old(devices), token), requests, results)
    {
      ghost var was, requests0, results0, drop := devices, requests, results, OfAgent(token);
      ghost var gone: set<string> := {};
      var todo := devices.Keys;
      PassStartEnd(was, drop);
      FailNone(requests0, results0);
      while todo != {}
        invariant todo <= was.Keys && devices == PassKept(was, todo, drop)
        invariant gone == PassDropped(was, todo, drop)
        invariant FailedFor(requests0, results0, gone, requests, results)
      {
        var id :| id in todo;
        PassStep(was, todo, drop, id);
        PassDroppedStep(was, todo, drop, id);
        if devices[id].owner.agentTokenId == token {
          FailMore(requests0, results0, gone, id, requests, results);
          DropDevice(id);
          gone := gone + {id};
        }
        todo := todo - {id};
      }
      assert gone == IdsOfAgent(was, token);
    }

    method DropDevice(id: string)
      requires OwnIds(requests)
      modifies this`devices, this`requests, this`results
      ensures devices == old(devices) - {id}
      ensures requests == Keep(old(requests), Unaccepted({id}))
        && results == FailedResults(old(requests), old(results), {id})
    {
      ghost var left := devices - {id};
      devices := devices - {id};
      CompleteDeviceRequests(id);
      SameWithout(left, devices, id);
    }

    // ----- launches -----

    /** The first region of a launch. */
    method StartLaunch(deviceId: string, userId: int, now: Time) returns (refused: Option<LaunchResult>)
      requires Valid()
      modifies this`devices, this`requests, this`nextSerial
      ensures Valid() && (Abs(), refused) == DeviceModel.StartLaunch(old(Abs()), deviceId, userId, now)
    {
      StartInv(Abs(), deviceId, userId, now);
      var id := LaunchId(deviceId, now);
      if deviceId !in devices || devices[deviceId].owner.userId != userId { return Some(Offline(id)); }
      var live := devices[deviceId];
      if live.inFlight { return Some(LaunchResult(id, Failed, "", "busy")); }
      devices := devices[deviceId := live.(inFlight := true)];
      requests := requests[id := Launch(id, deviceId, live.owner, live.peer, false, "", "", nextSerial)];
      nextSerial := nextSerial + 1;
      refused := None;
    }

    /** The region run when sending the launch request failed. */
    method AbandonLaunch(id: string)
      requires Valid()
      modifies this`devices, this`requests
      ensures Valid() && Abs() == DeviceModel.ClearRequest(old(Abs()), id)
    {
      ClearInv(Abs(), id);
      ClearRequest(id);
    }

    method TimeoutLaunch(id: string) returns (target: Target)
      requires Valid()
      modifies this`devices, this`requests, this`results
      ensures Valid() && (Abs(), target) == Timeout(old(Abs()), id)
    {
      CompleteInv(Abs(), id, LaunchResult(id, Failed, "", "launch_timeout"));
      if id !in requests { return NO_TARGET; }
      target := Target(requests[id].deviceId, WorkspaceOf(requests[id]));
      CompleteRequest(id, LaunchResult(id, Failed, "", "launch_timeout"));
    }

    function WorkspaceOf(r: Launch): string
      reads this`results
    {
      if TicketOf(r) in results then "" else Trim(r.workspace)
    }

    method CompleteReady(id: string, sessionId: string) returns (completion: Completion)
      requires id in requests
      modifies this`devices, this`requests, this`results, this`completedLaunches
      ensures (Abs(), completion) == DeviceModel.CompleteReady(old(Abs()), id, sessionId)
    {
      var r := requests[id];
      var target := Target(r.deviceId, WorkspaceOf(r));
      CompleteRequest(id, LaunchResult(id, SessionReady, sessionId, ""));
      completion := Completion(sessionId, target);
      if HasTarget(target) { completedLaunches := completedLaunches[id := Completed(r.owner, target)]; }
    }

    method AcceptLaunch(id: string, workspace: string) returns (completion: Completion)
      requires id in requests
      modifies this`devices, this`requests, this`results, this`completedLaunches
      ensures (Abs(), completion) == Accept(old(Abs()), id, workspace)
    {
      var r := requests[id];
      if TicketOf(r) !in results { r := r.(accepted := true, workspace := Trim(workspace)); }
      requests := requests[id := r];
      var sessionId := if TicketOf(r) in results then "" else Trim(r.sessionId);
      if sessionId == "" { return NO_COMPLETION; }
      completion := CompleteReady(id, sessionId);
    }

    method ResolveLaunchIfOwner(deviceId: string, peer: Peer, id: string, report: Report)
      returns (completion: Completion, ok: bool)
      requires Valid()
      modifies this`devices, this`requests, this`results, this`completedLaunches
      ensures Valid() && (Abs(), completion, ok) == Resolve(old(Abs()), deviceId, peer, id, report)
    {
      ResolveInv(Abs(), deviceId, peer, id, report);
      if id !in requests || requests[id].deviceId != deviceId || requests[id].peer != peer {
        return NO_COMPLETION, false;
      }
      match report
      case ReportAccepted(workspace) =>
        completion := AcceptLaunch(id, workspace);
        ok := true;
      case ReportFailed(reason) =>
        CompleteRequest(id, LaunchResult(id, Failed, "", FailureReason(reason)));
        completion, ok := NO_COMPLETION, true;
      case ReportOther => completion, ok := NO_COMPLETION, false;
    }

    method CompleteLaunchIfOwner(id: string, owner: Owner, rawSessionId: string) returns (target: Target, ok: bool)
      requires Valid()
      modifies this`devices, this`requests, this`results, this`completedLaunches
      ensures Valid() && (Abs(), target, ok) == Ready(old(Abs()), id, owner, rawSessionId)
    {
      ReadyInv(Abs(), id, owner, rawSessionId);
      var sessionId := Trim(rawSessionId);
      if id !in requests || requests[id].owner != owner || sessionId == "" {
        if id !in completedLaunches || completedLaunches[id].owner != owner { return NO_TARGET, false; }
        return completedLaunches[id].target, true;
      }
      target, ok := SessionArrived(id, sessionId);
    }

    method SessionArrived(id: string, sessionId: string) returns (target: Target, ok: bool)
      requires id in requests
      modifies this`devices, this`requests, this`results, this`completedLaunches
      ensures (Abs(), target, ok) == Arrive(old(Abs()), id, sessionId)
    {
      var r := requests[id];
      if TicketOf(r) !in results { r := r.(sessionId := Trim(sessionId)); }
      requests := requests[id := r];
      if !r.accepted || TicketOf(r) in results { return NO_TARGET, false; }
      var completion := CompleteReady(id, sessionId);
      target, ok := completion.target, true;
    }
  }

  /** The same devices, but for the busy flag of one. */
  ghost predicate SameButBusy(m: map<string, Device>, n: map<string, Device>, deviceId: string) {
    && n.Keys == m.Keys
    && (forall d :: d in n && d != deviceId ==> n[d] == m[d])
    && (deviceId in n ==> n[deviceId] == m[deviceId].(inFlight := n[deviceId].inFlight))
  }

  lemma SameTwice(l: map<string, Device>, m: map<string, Device>, n: map<string, Device>, deviceId: string)
    requires SameButBusy(l, m, deviceId) && SameButBusy(m, n, deviceId)
    ensures SameButBusy(l, n, deviceId)
  {
  }

  lemma PutOverBusy(m: map<string, Device>, n: map<string, Device>, deviceId: string, d: Device)
    requires m == n || SameButBusy(m, n, deviceId)
    ensures n[deviceId := d] == m[deviceId := d]
  {
  }

  lemma OfflineNone(gone: map<string, Launch>, recorded: map<Ticket, LaunchResult>)
    requires gone.Keys == {}
    ensures OfflineResults(gone) + recorded == recorded
  {
  }

  /** The launches and results after the devices `gone` went offline. */
  ghost predicate FailedFor(m: map<string, Launch>, results: map<Ticket, LaunchResult>, gone: set<string>,
                            n: map<string, Launch>, later: map<Ticket, LaunchResult>) {
    OwnIds(n) && n == Keep(m, Unaccepted(gone)) && later == FailedResults(m, results, gone)
  }

  lemma FailNone(m: map<string, Launch>, results: map<Ticket, LaunchResult>)
    requires OwnIds(m)
    ensures FailedFor(m, results, {}, m, results)
  {
    OfflineNone(Taken(m, Unaccepted({})), results);
    assert Keep(m, Unaccepted({})) == m;
  }

  lemma SameWithout(m: map<string, Device>, n: map<string, Device>, deviceId: string)
    requires SameButBusy(m, n, deviceId) && deviceId !in m
    ensures m == n
  {
  }

  lemma OfflineSplits(a: map<string, Launch>, b: map<string, Launch>, c: map<string, Launch>,
                      recorded: map<Ticket, LaunchResult>)
    requires Splits(c, a, b)
    ensures OfflineResults(b) + (OfflineResults(a) + recorded) == OfflineResults(c) + recorded
  {
    forall t ensures t in OfflineResults(c) <==> t in OfflineResults(a) || t in OfflineResults(b) {
      OfflineIs(a, t);
      OfflineIs(b, t);
      OfflineIs(c, t);
    }
  }

  lemma OfflineIs(gone: map<string, Launch>, t: Ticket)
    ensures t in OfflineResults(gone) <==> t.id in gone && gone[t.id].serial == t.serial
  {
    assert t.id in gone && gone[t.id].serial == t.serial ==> t == Ticket(t.id, gone[t.id].serial);
  }

  /** Devices that go offline one after the other fail the same launches as all together. */
  lemma FailMore(m: map<string, Launch>, results: map<Ticket, LaunchResult>, some: set<string>, one: string,
                 n: map<string, Launch>, later: map<Ticket, LaunchResult>)
    requires FailedFor(m, results, some, n, later)
    ensures FailedFor(m, results, some + {one}, Keep(n, Unaccepted({one})), FailedResults(n, later, {one}))
  {
    var p, q, both := Unaccepted(some), Unaccepted({one}), Unaccepted(some + {one});
    assert Keep(n, q) == Keep(m, both);
    OfflineSplits(Taken(m, p), Taken(n, q), Taken(m, both), results);
  }

  lemma OfflineStep(gone: map<string, Launch>, id: string, r: Launch, recorded: map<Ticket, LaunchResult>)
    requires id !in gone && r.id == id
    ensures OfflineResults(gone[id := r]) + recorded ==
      map[TicketOf(r) := Offline(id)] + (OfflineResults(gone) + recorded)
  {
    var more := gone[id := r];
    assert OfflineResults(more).Keys == OfflineResults(gone).Keys + {TicketOf(r)} by {
      assert Ticket(id, more[id].serial) in OfflineResults(more);
      forall k | k in gone ensures Ticket(k, gone[k].serial) in OfflineResults(more) { assert more[k] == gone[k]; }
    }
  }
}
