/** Runs of the device registry and what holds after every one of them. */
module DeviceClaims {
  import opened Common
  import opened Texts
  import opened DeviceModel
  import opened DeviceRuns

  datatype Event =
    | Register(info: Info, owner: Owner, peer: Peer, at: Time)
    | Enter(owner: Owner, peer: Peer)
    | Leave(peer: Peer)
    | Activate(info: Info, owner: Owner, peer: Peer, at: Time)
    | Update(deviceId: string, peer: Peer, info: Info)
    | Disconnect(deviceId: string, peer: Peer)
    | DisconnectAgent(token: string)
    | Start(deviceId: string, userId: int, at: Time)
    | Clear(id: string)
    | Expire(id: string)
    | DeviceReport(deviceId: string, peer: Peer, id: string, report: Report)
    | AgentReady(id: string, owner: Owner, sessionId: string)

  function Step(s: State, e: Event): State {
    match e
    case Register(info, owner, peer, at) => RegisterOwned(s, info, owner, peer, at)
    case Enter(owner, peer) => RegisterPending(s, owner, peer)
    case Leave(peer) => DisconnectPending(s, peer).0
    case Activate(info, owner, peer, at) => ActivatePending(s, info, owner, peer, at).0
    case Update(dev, peer, info) => UpdateIfOwner(s, dev, peer, info).0
    case Disconnect(dev, peer) => DisconnectIfOwner(s, dev, peer).0
    case DisconnectAgent(token) => DisconnectAgentTokenDevices(s, token)
    case Start(dev, user, at) => StartLaunch(s, dev, user, at).0
    case Clear(id) => ClearRequest(s, id)
    case Expire(id) => Timeout(s, id).0
    case DeviceReport(dev, peer, id, report) => Resolve(s, dev, peer, id, report).0
    case AgentReady(id, owner, sid) => Ready(s, id, owner, sid).0
  }

  lemma StepInv(s: State, e: Event)
    requires Inv(s)
    ensures Inv(Step(s, e))
  {
    match e
    case Register(info, owner, peer, at) => InstallInv(s, info, owner, peer, at);
    case Enter(owner, peer) =>
    case Leave(peer) =>
    case Activate(info, owner, peer, at) => InstallInv(s.(pending := s.pending - {peer}), info, owner, peer, at);
    case Update(dev, peer, info) => UpdateInv(s, dev, peer, info);
    case Disconnect(dev, peer) => DisconnectInv(s, dev, peer);
    case DisconnectAgent(token) => DisconnectAgentInv(s, token);
    case Start(dev, user, at) => StartInv(s, dev, user, at);
    case Clear(id) => ClearInv(s, id);
    case Expire(id) => CompleteInv(s, id, LaunchResult(id, Failed, "", "launch_timeout"));
    case DeviceReport(dev, peer, id, report) => ResolveInv(s, dev, peer, id, report);
    case AgentReady(id, owner, sid) => ReadyInv(s, id, owner, sid);
  }

  // ----- results are recorded once -----

  lemma CompleteReadyGrows(s: State, id: string, sessionId: string)
    requires id in s.requests
    ensures Sub(s.results, CompleteReady(s, id, sessionId).0.results)
  {
  }

  /** No event changes a recorded result. */
  lemma StepGrows(s: State, e: Event)
    ensures Sub(s.results, Step(s, e).results)
  {
    match e
    case DeviceReport(dev, peer, id, report) =>
      if report.ReportAccepted? && id in s.requests {
        var s1 := s.(requests := s.requests[id := MarkAccepted(s, s.requests[id], report.workspace)]);
        CompleteReadyGrows(s1, id, Trim(s1.requests[id].sessionId));
      }
    case AgentReady(id, owner, sid) =>
      if id in s.requests {
        CompleteReadyGrows(s.(requests := s.requests[id := MarkReady(s, s.requests[id], Trim(sid))]), id, Trim(sid));
      }
    case _ =>
  }

  // ----- histories -----

  /** The registry with the reports each launch received. */
  datatype World = World(reg: State, accepts: set<Ticket>, readies: set<(Ticket, string)>)

  const START: World := World(EMPTY, {}, {})

  function Next(w: World, e: Event): World {
    World(Step(w.reg, e),
      if e.DeviceReport? && e.report.ReportAccepted? && FromDevice(w.reg, e.deviceId, e.peer, e.id)
      then w.accepts + {TicketOf(w.reg.requests[e.id])} else w.accepts,
      if e.AgentReady? && FromAgent(w.reg, e.id, e.owner, e.sessionId)
      then w.readies + {(TicketOf(w.reg.requests[e.id]), Trim(e.sessionId))} else w.readies)
  }

  /** What a pending launch remembers was reported. */
  ghost predicate Heard(m: Requests, accepts: set<Ticket>, readies: set<(Ticket, string)>) {
    forall id :: id in m ==> HeardOne(m[id], accepts, readies)
  }
  ghost predicate HeardOne(r: Launch, accepts: set<Ticket>, readies: set<(Ticket, string)>) {
    && (r.accepted ==> TicketOf(r) in accepts)
    && (r.sessionId != "" ==> (TicketOf(r), r.sessionId) in readies && Trim(r.sessionId) == r.sessionId)
  }

  /** A launch is a success only when both sides reported it. */
  ghost predicate Earned(results: Results, accepts: set<Ticket>, readies: set<(Ticket, string)>) {
    forall t :: t in results ==> EarnedOne(t, results[t], accepts, readies)
  }
  ghost predicate EarnedOne(t: Ticket, result: LaunchResult, accepts: set<Ticket>, readies: set<(Ticket, string)>) {
    result.requestId == t.id && (result.status.SessionReady? ==> t in accepts && (t, result.sessionId) in readies)
  }

  ghost predicate WorldInv(w: World) {
    Inv(w.reg) && Heard(w.reg.requests, w.accepts, w.readies) && Earned(w.reg.results, w.accepts, w.readies)
  }

  lemma FailHistory(s: State, devices: set<string>, accepts: set<Ticket>, readies: set<(Ticket, string)>)
    requires Heard(s.requests, accepts, readies) && Earned(s.results, accepts, readies)
    ensures var t := FailUnaccepted(s, devices);
      Heard(t.requests, accepts, readies) && Earned(t.results, accepts, readies)
  {
  }

  lemma CompleteHistory(s: State, id: string, result: LaunchResult, accepts: set<Ticket>,
                        readies: set<(Ticket, string)>)
    requires Heard(s.requests, accepts, readies) && Earned(s.results, accepts, readies)
    requires id in s.requests ==> EarnedOne(TicketOf(s.requests[id]), result, accepts, readies)
    ensures var t := CompleteRequest(s, id, result);
      Heard(t.requests, accepts, readies) && Earned(t.results, accepts, readies)
  {
  }

  lemma MoreHeard(m: Requests, a: set<Ticket>, b: set<(Ticket, string)>, a': set<Ticket>, b': set<(Ticket, string)>)
    requires Heard(m, a, b) && a <= a' && b <= b'
    ensures Heard(m, a', b')
  {
    forall id | id in m ensures HeardOne(m[id], a', b') { assert HeardOne(m[id], a, b); }
  }

  lemma MoreEarned(m: Results, a: set<Ticket>, b: set<(Ticket, string)>, a': set<Ticket>, b': set<(Ticket, string)>)
    requires Earned(m, a, b) && a <= a' && b <= b'
    ensures Earned(m, a', b')
  {
    forall t | t in m ensures EarnedOne(t, m[t], a', b') { assert EarnedOne(t, m[t], a, b); }
  }

  lemma AcceptHistory(s: State, id: string, workspace: string, a: set<Ticket>, b: set<(Ticket, string)>)
    requires Inv(s) && id in s.requests && Heard(s.requests, a, b) && Earned(s.results, a, b)
    ensures var t := Accept(s, id, workspace).0; var a' := a + {TicketOf(s.requests[id])};
      Heard(t.requests, a', b) && Earned(t.results, a', b)
  {
    var a' := a + {TicketOf(s.requests[id])};
    var r := MarkAccepted(s, s.requests[id], workspace);
    var s1 := s.(requests := s.requests[id := r]);
    MoreHeard(s.requests, a, b, a', b);
    MoreEarned(s.results, a, b, a', b);
    assert OwnId(id, s.requests[id]) && HeardOne(s.requests[id], a', b) && HeardOne(r, a', b);
    var sid := Trim(r.sessionId);
    if sid != "" { CompleteHistory(s1, id, LaunchResult(id, SessionReady, sid, ""), a', b); }
  }

  lemma ArriveHistory(s: State, id: string, sid: string, a: set<Ticket>, b: set<(Ticket, string)>)
    requires Inv(s) && id in s.requests && Trim(sid) == sid && sid != "" && Heard(s.requests, a, b)
      && Earned(s.results, a, b)
    ensures var t := Arrive(s, id, sid).0; var b' := b + {(TicketOf(s.requests[id]), sid)};
      Heard(t.requests, a, b') && Earned(t.results, a, b')
  {
    var b' := b + {(TicketOf(s.requests[id]), sid)};
    var r := MarkReady(s, s.requests[id], sid);
    var s1 := s.(requests := s.requests[id := r]);
    MoreHeard(s.requests, a, b, a, b');
    MoreEarned(s.results, a, b, a, b');
    assert OwnId(id, s.requests[id]) && HeardOne(s.requests[id], a, b') && HeardOne(r, a, b');
    if r.accepted { CompleteHistory(s1, id, LaunchResult(id, SessionReady, sid, ""), a, b'); }
  }

  ghost predicate History(s: State, a: set<Ticket>, b: set<(Ticket, string)>) {
    Heard(s.requests, a, b) && Earned(s.results, a, b)
  }

  lemma InstallHistory(s: State, info: Info, owner: Owner, peer: Peer, at: Time, a: set<Ticket>,
                       b: set<(Ticket, string)>)
    requires History(s, a, b)
    ensures History(Install(s, info, owner, peer, at), a, b)
  {
    FailHistory(s, {info.deviceId}, a, b);
  }

  /** Devices that come and go are no reports. */
  lemma DevicesHistory(s: State, e: Event, a: set<Ticket>, b: set<(Ticket, string)>)
    requires History(s, a, b)
      && (e.Register? || e.Enter? || e.Leave? || e.Activate? || e.Update? || e.Disconnect? || e.DisconnectAgent?)
    ensures History(Step(s, e), a, b)
  {
    match e
    case Register(info, owner, peer, at) => InstallHistory(s, info, owner, peer, at, a, b);
    case Activate(info, owner, peer, at) =>
      InstallHistory(s.(pending := s.pending - {peer}), info, owner, peer, at, a, b);
    case Disconnect(dev, peer) => FailHistory(s.(devices := s.devices - {dev}), {dev}, a, b);
    case DisconnectAgent(token) =>
      FailHistory(s.(devices := Keep(s.devices, OfAgent(token)), pending := Keep(s.pending, PendingOfAgent(token))),
        IdsOfAgent(s.devices, token), a, b);
    case _ =>
  }

  lemma LaunchHistory(s: State, e: Event, a: set<Ticket>, b: set<(Ticket, string)>)
    requires Inv(s) && History(s, a, b) && (e.Start? || e.Clear? || e.Expire?)
    ensures History(Step(s, e), a, b)
  {
    if e.Expire? {
      assert e.id in s.requests ==> OwnId(e.id, s.requests[e.id]);
      CompleteHistory(s, e.id, LaunchResult(e.id, Failed, "", "launch_timeout"), a, b);
    }
  }

  lemma NextInv(w: World, e: Event)
    requires WorldInv(w)
    ensures WorldInv(Next(w, e))
  {
    StepInv(w.reg, e);
    match e
    case DeviceReport(dev, peer, id, report) => ReportHistory(w, dev, peer, id, report);
    case AgentReady(id, owner, sid) =>
      TrimTwice(sid);
      if FromAgent(w.reg, id, owner, sid) { ArriveHistory(w.reg, id, Trim(sid), w.accepts, w.readies); }
    case _ =>
      if e.Start? || e.Clear? || e.Expire? {
        LaunchHistory(w.reg, e, w.accepts, w.readies);
      } else {
        DevicesHistory(w.reg, e, w.accepts, w.readies);
      }
  }

  lemma ReportHistory(w: World, dev: string, peer: Peer, id: string, report: Report)
    requires WorldInv(w)
    ensures var v := Next(w, DeviceReport(dev, peer, id, report));
      Heard(v.reg.requests, v.accepts, v.readies) && Earned(v.reg.results, v.accepts, v.readies)
  {
    var s := w.reg;
    if FromDevice(s, dev, peer, id) {
      match report
      case ReportAccepted(ws) => AcceptHistory(s, id, ws, w.accepts, w.readies);
      case ReportFailed(reason) =>
        assert OwnId(id, s.requests[id]);
        CompleteHistory(s, id, LaunchResult(id, Failed, "", FailureReason(reason)), w.accepts, w.readies);
      case ReportOther =>
    }
  }

  // ----- runs -----

  function Run(w: World, es: seq<Event>): World
    decreases |es|
  {
    if es == [] then w else Run(Next(w, es[0]), es[1..])
  }

  lemma {:induction false} RunInv(w: World, es: seq<Event>)
    requires WorldInv(w)
    ensures WorldInv(Run(w, es)) && Sub(w.reg.results, Run(w, es).reg.results)
    decreases |es|
  {
    if es != [] {
      NextInv(w, es[0]);
      StepGrows(w.reg, es[0]);
      RunInv(Next(w, es[0]), es[1..]);
    }
  }

  ghost predicate Reachable(w: World) {
    exists es :: w == Run(START, es)
  }

  lemma ReachableInv(w: World)
    requires Reachable(w)
    ensures WorldInv(w)
  {
    var es :| w == Run(START, es);
    RunInv(START, es);
  }

  /** The busy flag of a live device tells whether a launch is pending for it, and at most one ever is. */
  lemma BusyMeansPending(w: World)
    requires Reachable(w)
    ensures forall d :: d in w.reg.devices ==> (w.reg.devices[d].inFlight <==> HasPending(w.reg.requests, d))
    ensures forall i, j :: SameDevice(w.reg.requests, i, j) ==> i == j
  {
    ReachableInv(w);
  }

  /** A launch that is started overwrites no pending one, and is refused while one is pending. */
  lemma StartedLaunchIsNew(w: World, deviceId: string, userId: int, now: Time)
    requires Reachable(w)
    ensures var (t, refused) := StartLaunch(w.reg, deviceId, userId, now);
      && (refused == None ==> LaunchId(deviceId, now) !in w.reg.requests && Sub(w.reg.requests, t.requests))
      && (HasPending(w.reg.requests, deviceId) ==> refused != None)
  {
    ReachableInv(w);
    if StartLaunch(w.reg, deviceId, userId, now).1 == None { LaunchNeverOverwrites(w.reg, deviceId, userId, now); }
  }

  /** A recorded result stays for ever, and a pending launch has none. */
  lemma ResultsAreFinal(w: World, es: seq<Event>, t: Ticket)
    requires Reachable(w)
    ensures t in w.reg.results ==> t in Run(w, es).reg.results && Run(w, es).reg.results[t] == w.reg.results[t]
    ensures forall id :: id in w.reg.requests ==> TicketOf(w.reg.requests[id]) !in w.reg.results
  {
    ReachableInv(w);
    RunInv(w, es);
  }

  /** A recorded success was accepted by the launch's own device connection and confirmed by its owner with that
      session. */
  lemma SuccessNeedsBothSides(w: World, t: Ticket)
    requires Reachable(w) && t in w.reg.results && w.reg.results[t].status.SessionReady?
    ensures t in w.accepts && (t, w.reg.results[t].sessionId) in w.readies
  {
    ReachableInv(w);
  }

  /** When a device disconnects, exactly its unaccepted launch is failed; every other pending launch stays. */
  lemma DisconnectFailsUnaccepted(w: World, deviceId: string, peer: Peer, id: string)
    requires Reachable(w) && DisconnectIfOwner(w.reg, deviceId, peer).1 && id in w.reg.requests
    ensures var t := DisconnectIfOwner(w.reg, deviceId, peer).0; var r := w.reg.requests[id];
      if r.deviceId == deviceId && !r.accepted then
        id !in t.requests && TicketOf(r) in t.results && t.results[TicketOf(r)] == Offline(id)
      else id in t.requests && t.requests[id] == r && TicketOf(r) !in t.results
  {
    ReachableInv(w);
    DropDevices(w.reg, w.reg.devices - {deviceId});
    OfflineFailsUnaccepted(w.reg.(devices := w.reg.devices - {deviceId}), {deviceId}, id);
  }

  // ----- the two reports commute -----

  /** The registry once both sides reported a launch. */
  function Correlated(s: State, id: string, workspace: string, sessionId: string): State
    requires id in s.requests
  {
    var r := s.requests[id];
    var target := Target(r.deviceId, workspace);
    var s1 := CompleteRequest(s, id, LaunchResult(id, SessionReady, sessionId, ""));
    if HasTarget(target) then s1.(completedLaunches := s1.completedLaunches[id := Completed(r.owner, target)]) else s1
  }

  lemma CompleteMarked(s: State, id: string, r: Launch, workspace: string, sessionId: string)
    requires id in s.requests && r == s.requests[id].(accepted := true, sessionId := sessionId, workspace := workspace)
    requires TicketOf(r) !in s.results && Trim(workspace) == workspace
    ensures CompleteReady(s.(requests := s.requests[id := r]), id, sessionId) ==
      (Correlated(s, id, workspace, sessionId), Completion(sessionId, Target(r.deviceId, workspace)))
  {
    var m := s.requests[id := r];
    assert m - {id} == s.requests - {id};
  }

  lemma AcceptedThenReady(s: State, id: string, workspace: string, sid: string)
    requires Inv(s) && id in s.requests && s.requests[id].sessionId == "" && Trim(sid) == sid && sid != ""
    ensures var a := Accept(s, id, workspace).0;
      && id in a.requests && a.requests[id].owner == s.requests[id].owner
      && Arrive(a, id, sid) ==
        (Correlated(s, id, Trim(workspace), sid), Target(s.requests[id].deviceId, Trim(workspace)), true)
  {
    TrimTwice(workspace);
    var r := s.requests[id];
    var a := Accept(s, id, workspace).0;
    assert Trim("") == "";
    assert a == s.(requests := s.requests[id := r.(accepted := true, workspace := Trim(workspace))]);
    var q := r.(accepted := true, workspace := Trim(workspace), sessionId := sid);
    assert a.requests[id := q] == s.requests[id := q];
    CompleteMarked(s, id, q, Trim(workspace), sid);
  }

  lemma ReadyThenAccepted(s: State, id: string, workspace: string, sid: string)
    requires Inv(s) && id in s.requests && !s.requests[id].accepted && Trim(sid) == sid && sid != ""
    ensures var b := Arrive(s, id, sid).0;
      && id in b.requests && b.requests[id].deviceId == s.requests[id].deviceId
        && b.requests[id].peer == s.requests[id].peer
      && Accept(b, id, workspace) ==
        (Correlated(s, id, Trim(workspace), sid), Completion(sid, Target(s.requests[id].deviceId, Trim(workspace))))
  {
    TrimTwice(workspace);
    var r := s.requests[id];
    var b := Arrive(s, id, sid).0;
    assert b == s.(requests := s.requests[id := r.(sessionId := sid)]);
    var q := r.(accepted := true, workspace := Trim(workspace), sessionId := sid);
    assert b.requests[id := q] == s.requests[id := q];
    CompleteMarked(s, id, q, Trim(workspace), sid);
  }

  /** "Accepted" then "ready", and "ready" then "accepted", leave the same registry: the launch
      done with that session, and the same completed-launch record. */
  lemma EitherOrder(s: State, id: string, workspace: string, sid: string)
    requires Inv(s) && id in s.requests && !s.requests[id].accepted && s.requests[id].sessionId == "" && Trim(sid) != ""
    ensures var r := s.requests[id];
      var accept := ReportAccepted(workspace);
      var done := Correlated(s, id, Trim(workspace), Trim(sid));
      && Ready(Resolve(s, r.deviceId, r.peer, id, accept).0, id, r.owner, sid).0 == done
      && Resolve(Ready(s, id, r.owner, sid).0, r.deviceId, r.peer, id, accept).0 == done
      && id !in done.requests && done.results[TicketOf(r)] == LaunchResult(id, SessionReady, Trim(sid), "")
      && (Trim(r.deviceId) != "" && Trim(workspace) != "" ==>
        id in done.completedLaunches
        && done.completedLaunches[id] == Completed(r.owner, Target(r.deviceId, Trim(workspace))))
  {
    TrimTwice(sid);
    TrimTwice(workspace);
    AcceptedThenReady(s, id, workspace, Trim(sid));
    ReadyThenAccepted(s, id, workspace, Trim(sid));
  }

  lemma ArriveUnaccepted(s: State, id: string, sid: string)
    requires id in s.requests && TicketOf(s.requests[id]) !in s.results && !s.requests[id].accepted && Trim(sid) == sid
    ensures Arrive(s, id, sid).0 == s.(requests := s.requests[id := s.requests[id].(sessionId := sid)])
  {
  }

  lemma ArriveAccepted(s: State, id: string, sid: string)
    requires id in s.requests && TicketOf(s.requests[id]) !in s.results && s.requests[id].accepted
    ensures id !in Arrive(s, id, sid).0.requests
  {
  }

  /** A "ready" changes the registry exactly when it is from the launch's owner, names a session, and either the device
      has accepted or the session is not the one already noted. */
  lemma ReadyChangesExactlyWhen(s: State, id: string, owner: Owner, sid: string)
    requires Inv(s)
    ensures Ready(s, id, owner, sid).0 != s <==>
      FromAgent(s, id, owner, sid) && (s.requests[id].accepted || s.requests[id].sessionId != Trim(sid))
  {
    TrimTwice(sid);
    if FromAgent(s, id, owner, sid) {
      if s.requests[id].accepted {
        ArriveAccepted(s, id, Trim(sid));
      } else {
        ArriveUnaccepted(s, id, Trim(sid));
        assert s.requests[id].sessionId == Trim(sid) ==> s.requests[id := s.requests[id]] == s.requests;
      }
    }
  }

  /** After a "ready" from the launch's owner, another one from anybody changes the registry exactly when the device has
      not accepted yet and the other names a different session: the later one replaces the first. */
  lemma SecondReadyExactlyWhen(s: State, id: string, owner: Owner, sid: string, other: Owner, second: string)
    requires Inv(s) && FromAgent(s, id, owner, sid)
    ensures var t := Ready(s, id, owner, sid).0;
      Ready(t, id, other, second).0 != t <==>
        !s.requests[id].accepted && other == owner && Trim(second) != "" && Trim(second) != Trim(sid)
  {
    var t := Ready(s, id, owner, sid).0;
    TrimTwice(sid);
    if s.requests[id].accepted {
      ArriveAccepted(s, id, Trim(sid));
    } else {
      ArriveUnaccepted(s, id, Trim(sid));
      ReadyInv(s, id, owner, sid);
      ReadyChangesExactlyWhen(t, id, other, second);
    }
  }

  /** The same "ready" once more changes nothing. */
  lemma ReadyTwice(s: State, id: string, owner: Owner, sid: string)
    requires Inv(s)
    ensures var t := Ready(s, id, owner, sid).0; Ready(t, id, owner, sid).0 == t
  {
    if FromAgent(s, id, owner, sid) { SecondReadyExactlyWhen(s, id, owner, sid, owner, sid); }
  }
}
