/** The relay device registry as a value: live devices, pending launches and the
    launches that completed, with one function per lock-held region. */
module DeviceModel {
  import opened Common
  import opened Texts

  type Peer = nat
  type Time = int

  datatype Owner = Owner(userId: int, agentTokenId: string)
  datatype Info = Info(deviceId: string, details: string)
  datatype Device = Device(info: Info, owner: Owner, peer: Peer, connectedAt: Time, inFlight: bool)

  datatype Status = Failed | SessionReady
  datatype LaunchResult = LaunchResult(requestId: string, status: Status, sessionId: string, reason: string)

  /** A pending launch; `serial` stands for the identity of the heap object it is. */
  datatype Launch = Launch(id: string, deviceId: string, owner: Owner, peer: Peer, accepted: bool, sessionId: string,
                           workspace: string, serial: nat)

  datatype Target = Target(deviceId: string, workspace: string)
  datatype Completed = Completed(owner: Owner, target: Target)
  datatype Completion = Completion(sessionId: string, target: Target)

  /** One launch for ever: ids may be used again, serials are not. */
  datatype Ticket = Ticket(id: string, serial: nat)

  datatype State = State(
    devices: map<string, Device>,
    requests: map<string, Launch>,
    completedLaunches: map<string, Completed>,
    pending: map<Peer, Owner>,
    results: map<Ticket, LaunchResult>,   // what each finished launch recorded
    nextSerial: nat)

  const EMPTY: State := State(map[], map[], map[], map[], map[], 0)
  const NO_TARGET: Target := Target("", "")
  const NO_COMPLETION: Completion := Completion("", NO_TARGET)

  // ----- launch identifiers -----

  const STAMP_LENGTH := 16
  const DAY: int := 86_400 * 1_000_000_000

  /** `width` decimal digits of `n`, with leading zeros. */
  function Padded(n: nat, width: nat): (s: string)
    ensures |s| == width
  {
    if width == 0 then [] else Padded(n / 10, width - 1) + ['0' + (n % 10) as char]
  }

  /** The time of day as hours, minutes, seconds, a dot, and nine digits of nanoseconds. */
  function Stamp(now: Time): (s: string)
    ensures |s| == STAMP_LENGTH
  {
    var nanos := now % DAY;
    var seconds := nanos / 1_000_000_000;
    Padded(seconds / 3600, 2) + Padded(seconds / 60 % 60, 2) + Padded(seconds % 60, 2) + "."
      + Padded(nanos % 1_000_000_000, 9)
  }

  function LaunchId(deviceId: string, now: Time): string {
    deviceId + "-" + Stamp(now)
  }

  // ----- pending launches -----

  predicate Of(r: Launch, deviceId: string) { r.deviceId == deviceId }

  predicate HasPending(requests: map<string, Launch>, deviceId: string) {
    exists id :: id in requests && Of(requests[id], deviceId)
  }

  function Unaccepted(devices: set<string>): Launch -> bool {
    (r: Launch) => r.deviceId in devices && !r.accepted
  }

  function TicketOf(r: Launch): Ticket { Ticket(r.id, r.serial) }

  predicate IsCompleted(s: State, r: Launch) { TicketOf(r) in s.results }

  /** Recording a result; a launch that already completed keeps its own. */
  function Recorded(s: State, r: Launch, result: LaunchResult): map<Ticket, LaunchResult> {
    map[TicketOf(r) := result] + s.results
  }

  function Offline(id: string): LaunchResult { LaunchResult(id, Failed, "", "device_offline") }

  function OfflineResults(gone: map<string, Launch>): map<Ticket, LaunchResult> {
    map t | t in (set id | id in gone :: Ticket(id, gone[id].serial)) :: Offline(t.id)
  }

  /** Failing the launches of some devices that the device has not accepted. */
  function FailUnaccepted(s: State, devices: set<string>): State {
    s.(requests := Keep(s.requests, Unaccepted(devices)), results := FailedResults(s.requests, s.results, devices))
  }

  function FailedResults(requests: map<string, Launch>, results: map<Ticket, LaunchResult>,
                         devices: set<string>): map<Ticket, LaunchResult> {
    OfflineResults(Taken(requests, Unaccepted(devices))) + results
  }

  /** Dropping a pending launch and refreshing the busy flag of its device. */
  function ClearRequest(s: State, id: string): State {
    if id !in s.requests then s else
      var dev := s.requests[id].deviceId;
      var left := s.requests - {id};
      s.(requests := left,
         devices :=
           if dev in s.devices then s.devices[dev := s.devices[dev].(inFlight := HasPending(left, dev))] else s.devices)
  }

  function CompleteRequest(s: State, id: string, result: LaunchResult): State {
    if id !in s.requests then s else ClearRequest(s, id).(results := Recorded(s, s.requests[id], result))
  }

  // ----- devices -----

  /** Putting a device in place of an older connection. */
  function Install(s: State, info: Info, owner: Owner, peer: Peer, now: Time): State {
    var id := info.deviceId;
    var s1 := if id in s.devices && s.devices[id].peer != peer then FailUnaccepted(s, {id}) else s;
    s1.(devices := s1.devices[id := Device(info, owner, peer, now, HasPending(s1.requests, id))])
  }

  function RegisterOwned(s: State, info: Info, owner: Owner, peer: Peer, now: Time): State {
    Install(s, info, owner, peer, now)
  }

  function RegisterPending(s: State, owner: Owner, peer: Peer): State {
    s.(pending := s.pending[peer := owner])
  }

  function DisconnectPending(s: State, peer: Peer): (State, bool) {
    if peer !in s.pending then (s, false) else (s.(pending := s.pending - {peer}), true)
  }

  function ActivatePending(s: State, info: Info, owner: Owner, peer: Peer, now: Time): (State, bool) {
    if peer !in s.pending || s.pending[peer] != owner then (s, false) else
      var s1 := s.(pending := s.pending - {peer});
      if info.deviceId in s.devices && s.devices[info.deviceId].owner.userId != owner.userId then (s1, false)
      else (Install(s1, info, owner, peer, now), true)
  }

  function UpdateIfOwner(s: State, deviceId: string, peer: Peer, info: Info): (State, bool) {
    if deviceId !in s.devices || s.devices[deviceId].peer != peer then (s, false)
    else (s.(devices := s.devices[deviceId := s.devices[deviceId].(info := info)]), true)
  }

  function DisconnectIfOwner(s: State, deviceId: string, peer: Peer): (State, bool) {
    if deviceId !in s.devices || s.devices[deviceId].peer != peer then (s, false)
    else (FailUnaccepted(s.(devices := s.devices - {deviceId}), {deviceId}), true)
  }

  function OfAgent(token: string): Device -> bool { (d: Device) => d.owner.agentTokenId == token }
  function PendingOfAgent(token: string): Owner -> bool { (o: Owner) => o.agentTokenId == token }

  function DisconnectAgentTokenDevices(s: State, token: string): State {
    FailUnaccepted(s.(devices := Keep(s.devices, OfAgent(token)), pending := Keep(s.pending, PendingOfAgent(token))),
      IdsOfAgent(s.devices, token))
  }

  function IdsOfAgent(devices: map<string, Device>, token: string): set<string> {
    set d | d in devices && OfAgent(token)(devices[d])
  }

  // ----- launches -----

  /** The first region of a launch: a failure to report at once, or a new pending launch. */
  function StartLaunch(s: State, deviceId: string, userId: int, now: Time): (State, Option<LaunchResult>) {
    var id := LaunchId(deviceId, now);
    if deviceId !in s.devices || s.devices[deviceId].owner.userId != userId then (s, Some(Offline(id)))
    else if s.devices[deviceId].inFlight then (s, Some(LaunchResult(id, Failed, "", "busy")))
    else
      var live := s.devices[deviceId];
      (s.(devices := s.devices[deviceId := live.(inFlight := true)],
          requests := s.requests[id := Launch(id, deviceId, live.owner, live.peer, false, "", "", s.nextSerial)],
          nextSerial := s.nextSerial + 1),
       None)
  }

  function Timeout(s: State, id: string): (State, Target) {
    if id !in s.requests then (s, NO_TARGET) else
      (CompleteRequest(s, id, LaunchResult(id, Failed, "", "launch_timeout")),
       Target(s.requests[id].deviceId, AcceptedWorkspace(s, s.requests[id])))
  }

  function AcceptedWorkspace(s: State, r: Launch): string {
    if IsCompleted(s, r) then "" else Trim(r.workspace)
  }

  predicate HasTarget(t: Target) { Trim(t.deviceId) != "" && Trim(t.workspace) != "" }

  /** Both sides have reported: record the result and, when there is a target, the completed launch. */
  function CompleteReady(s: State, id: string, sessionId: string): (State, Completion)
    requires id in s.requests
  {
    var r := s.requests[id];
    var target := Target(r.deviceId, AcceptedWorkspace(s, r));
    var s1 := CompleteRequest(s, id, LaunchResult(id, SessionReady, sessionId, ""));
    (if HasTarget(target) then s1.(completedLaunches := s1.completedLaunches[id := Completed(r.owner, target)]) else s1,
     Completion(sessionId, target))
  }

  function MarkAccepted(s: State, r: Launch, workspace: string): Launch {
    if IsCompleted(s, r) then r else r.(accepted := true, workspace := Trim(workspace))
  }

  function MarkReady(s: State, r: Launch, sessionId: string): Launch {
    if IsCompleted(s, r) then r else r.(sessionId := Trim(sessionId))
  }

  datatype Report = ReportAccepted(workspace: string) | ReportFailed(reason: string) | ReportOther

  function FailureReason(reason: string): string {
    if Trim(reason) == "" then "unknown_reason" else Trim(reason)
  }

  /** The device accepted a pending launch; an agent that reported before completes it. */
  function Accept(s: State, id: string, workspace: string): (State, Completion)
    requires id in s.requests
  {
    var r := MarkAccepted(s, s.requests[id], workspace);
    var s1 := s.(requests := s.requests[id := r]);
    var sessionId := if IsCompleted(s, r) then "" else Trim(r.sessionId);
    if sessionId == "" then (s1, NO_COMPLETION) else CompleteReady(s1, id, sessionId)
  }

  /** The agent's session for a pending launch is there; a device that accepted before completes it. */
  function Arrive(s: State, id: string, sessionId: string): (State, Target, bool)
    requires id in s.requests
  {
    var r := MarkReady(s, s.requests[id], sessionId);
    var s1 := s.(requests := s.requests[id := r]);
    if !r.accepted || IsCompleted(s, r) then (s1, NO_TARGET, false)
    else (CompleteReady(s1, id, sessionId).0, CompleteReady(s1, id, sessionId).1.target, true)
  }

  predicate FromDevice(s: State, deviceId: string, peer: Peer, id: string) {
    id in s.requests && s.requests[id].deviceId == deviceId && s.requests[id].peer == peer
  }

  /** The device's report about a launch. */
  function Resolve(s: State, deviceId: string, peer: Peer, id: string, report: Report): (State, Completion, bool) {
    if !FromDevice(s, deviceId, peer, id) then (s, NO_COMPLETION, false) else
      match report
      case ReportAccepted(workspace) => (Accept(s, id, workspace).0, Accept(s, id, workspace).1, true)
      case ReportFailed(reason) =>
        (CompleteRequest(s, id, LaunchResult(id, Failed, "", FailureReason(reason))), NO_COMPLETION, true)
      case ReportOther => (s, NO_COMPLETION, false)
  }

  predicate FromAgent(s: State, id: string, owner: Owner, sessionId: string) {
    id in s.requests && s.requests[id].owner == owner && Trim(sessionId) != ""
  }

  /** The agent's report that its session is there. */
  function Ready(s: State, id: string, owner: Owner, sessionId: string): (State, Target, bool) {
    if FromAgent(s, id, owner, sessionId) then Arrive(s, id, Trim(sessionId))
    else if id !in s.completedLaunches || s.completedLaunches[id].owner != owner then (s, NO_TARGET, false)
    else (s, s.completedLaunches[id].target, true)
  }
}
