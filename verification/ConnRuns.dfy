/** Runs of the connectivity registry: events, admissible histories, and the
    invariants that hold in every reachable state. */
module ConnRuns {
  import opened Common
  import opened ConnModel
  import opened ConnInv
  import opened ConnAnchors
  import opened ConnTunnels
  import opened ConnClean

  // ----- events -----

  datatype Presence =
    | AppUp(owner: AppOwner, appPeer: AppPeer, stillValid: bool, at: Time)
    | AppDown(appPeer: AppPeer)
    | DaemonUp(daemonOwner: DaemonOwner, info: DaemonInfo, listed: seq<string>, reported: seq<Report>,
               peer: DaemonPeer, stillValid: bool, at: Time, picks: seq<AttemptKey>)
    | DaemonDown(deviceId: string, peer: DaemonPeer)

  datatype Pairing =
    | Untrust(deviceId: string, peer: DaemonPeer, fp: string)
    | Trust(deviceId: string, peer: DaemonPeer, fp: string)
    | Reserve(deviceId: string, owner: DaemonOwner, peer: DaemonPeer, id: string, ttl: Time, sweptAt: Time, at: Time)
    | Lookup(user: int, appPeer: Option<AppPeer>, appOwner: AppOwner, id: string, at: Time)
    | Finish(user: int, id: string, peer: DaemonPeer)

  datatype Revoking =
    | CutSession(sid: string)
    | CutUser(user: int, at: Time)
    | CutAgent(agentToken: string)

  datatype Meeting =
    | Open(owner: AppOwner, appPeer: AppPeer, daemonId: string, attemptId: string, candidatesValid: bool, ttl: Time,
      sweptAt: Time, at: Time)
    | Abandon(key: AttemptKey, serial: nat)
    | Hint(daemonOwner: DaemonOwner, deviceId: string, peer: DaemonPeer, attemptId: string, fp: string,
      candidatesValid: bool, sweptAt: Time, at: Time, pick: AttemptKey)
    | CloseByApp(owner: AppOwner, appPeer: AppPeer, daemonId: string, attemptId: string)
    | CloseByDaemon(daemonOwner: DaemonOwner, deviceId: string, peer: DaemonPeer, attemptId: string, fp: string,
      pick: AttemptKey)
    | RvTimer(key: AttemptKey, at: Time)
    | GoDirect(daemonOwner: DaemonOwner, deviceId: string, peer: DaemonPeer, attemptId: string, fp: string,
      sweptAt: Time, pick: AttemptKey)
    | EndDirect(daemonOwner: DaemonOwner, deviceId: string, peer: DaemonPeer, attemptId: string, fp: string,
      pick: AttemptKey)

  /** A tunnel request, after the sweep that its region starts with. */
  datatype Asking = Request(owner: AppOwner, appPeer: Option<AppPeer>, daemonId: string, attemptId: string,
                            at: Time, expiresAt: Time, minted: Option<(Token, Token)>)

  /** Events that concern the tunnel maps alone.  A region that starts by sweeping
      expired attempts is `Sweep` followed by the rest. */
  datatype Relaying =
    | Unsent(key: AttemptKey, serial: nat)
    | Spend(token: Token, at: Time)
    | Activate(key: AttemptKey)
    | Shut(key: AttemptKey)
    | Sweep(at: Time)
    | AtTimer(key: AttemptKey, at: Time)
    | AddClose(key: AttemptKey, closer: Closer)
    | DropClose(key: AttemptKey, id: nat)

  datatype Event = Here(presence: Presence) | Pair(pairing: Pairing) | Cut(revoking: Revoking) | Meet(meeting: Meeting)
                 | Ask(asking: Asking) | Relay(relaying: Relaying)

  ghost function StepPresence(s: State, e: Presence): (State, Outcome) {
    match e
    case AppUp(owner, p, v, at) => RegisterApp(s, owner, p, v, at)
    case AppDown(p) => DisconnectApp(s, p)
    case DaemonUp(owner, info, listed, reported, peer, v, at, picks) =>
      if |picks| != |reported| then (s, QUIET) else RegisterDaemon(s, owner, info, listed, reported, peer, v, at, picks)
    case DaemonDown(id, peer) => DisconnectDaemon(s, id, peer)
  }

  ghost function StepPairing(s: State, e: Pairing): (State, Outcome) {
    match e
    case Untrust(id, peer, fp) => RevokeTrusted(s, id, peer, fp)
    case Trust(id, peer, fp) => CompletePairing(s, id, peer, fp)
    case Reserve(dev, owner, peer, id, ttl, sweptAt, at) => ReservePairing(s, dev, owner, peer, id, ttl, sweptAt, at)
    case Lookup(user, p, owner, id, at) => LookupPairing(s, user, p, owner, id, at)
    case Finish(user, id, peer) => FinishPairing(s, user, id, peer)
  }

  ghost function StepRevoking(s: State, e: Revoking): (State, Outcome) {
    match e
    case CutSession(sid) => DisconnectAppSession(s, sid)
    case CutUser(user, at) => DisconnectUser(s, user, at)
    case CutAgent(token) => DisconnectAgentToken(s, token)
  }

  ghost function StepMeeting(s: State, e: Meeting): (State, Outcome) {
    match e
    case Open(owner, p, dev, id, v, ttl, sweptAt, at) => OpenRendezvous(s, owner, p, dev, id, v, ttl, sweptAt, at)
    case Abandon(key, serial) => AbandonRendezvous(s, key, serial)
    case Hint(owner, dev, peer, id, fp, v, sweptAt, at, pick) =>
      ForwardHint(s, owner, dev, peer, id, fp, v, sweptAt, at, pick)
    case CloseByApp(owner, p, dev, id) => CloseRendezvousFromApp(s, owner, p, dev, id)
    case CloseByDaemon(owner, dev, peer, id, fp, pick) => CloseRendezvousFromDaemon(s, owner, dev, peer, id, fp, pick)
    case RvTimer(key, at) => RendezvousTimer(s, key, at)
    case GoDirect(owner, dev, peer, id, fp, sweptAt, pick) => OpenDirect(s, owner, dev, peer, id, fp, sweptAt, pick)
    case EndDirect(owner, dev, peer, id, fp, pick) => CloseDirect(s, owner, dev, peer, id, fp, pick)
  }

  ghost function StepAsking(s: State, e: Asking): (State, Outcome) {
    RequestSwept(s, e.owner, e.appPeer, e.daemonId, e.attemptId, e.at, e.expiresAt, e.minted)
  }

  ghost function StepRelaying(x: Tunnels, e: Relaying): (Tunnels, Outcome) {
    match e
    case Unsent(key, serial) => AbandonTunnel(x, key, serial)
    case Spend(token, at) => RedeemSwept(x, token, at)
    case Activate(key) => MarkActive(x, key)
    case Shut(key) => CloseTunnel(x, key)
    case Sweep(at) => SweepTunnels(x, at)
    case AtTimer(key, at) => TunnelTimer(x, key, at)
    case AddClose(key, closer) => AddCloser(x, key, closer)
    case DropClose(key, id) => WithdrawCloser(x, key, id)
  }

  ghost function Step(s: State, e: Event): (State, Outcome) {
    match e
    case Here(x) => StepPresence(s, x)
    case Pair(x) => StepPairing(s, x)
    case Cut(x) => StepRevoking(s, x)
    case Meet(x) => StepMeeting(s, x)
    case Ask(x) => StepAsking(s, x)
    case Relay(x) => (s.(tunnels := StepRelaying(s.tunnels, x).0), StepRelaying(s.tunnels, x).1)
  }

  // ----- what the environment promises about one event -----

  /** Connections register once, apps pass the owner they registered with, an app
      session belongs to one account, and tokens in use are not minted again. */
  ghost predicate Fair(s: State, e: Event, su: SessionUser) {
    match e
    case Here(AppUp(owner, p, _, _)) => p !in s.apps && su(owner.sessionId) == owner.userId
    case Here(DaemonUp(_, _, _, _, peer, _, _, _)) => Unbound(s.daemons, s.direct, peer)
    case Meet(Open(owner, p, _, _, _, _, _, _)) => HonestOwner(s.apps, owner, Some(p), su)
    case Ask(Request(owner, p, _, _, _, _, minted)) =>
      HonestOwner(s.apps, owner, p, su) && (minted.Some? ==> FreshTokens(s.tunnels.attempts, minted.value))
    case _ => true
  }

  // ----- shapes of the simple events -----

  ghost predicate Shrinks(s: State, t: State) {
    t == s.(rendezvous := t.rendezvous, direct := t.direct) && Sub(t.rendezvous, s.rendezvous)
      && Sub(t.direct, s.direct)
  }

  lemma DaemonMeetingShrinks(s: State, e: Meeting)
    requires e.Hint? || e.CloseByDaemon? || e.EndDirect?
    ensures Shrinks(s, StepMeeting(s, e).0)
  {
  }

  lemma AppMeetingShrinks(s: State, e: Meeting)
    requires e.Abandon? || e.CloseByApp? || e.RvTimer?
    ensures Shrinks(s, StepMeeting(s, e).0)
  {
  }

  lemma MeetingShrinks(s: State, e: Meeting)
    requires !e.Open? && !e.GoDirect?
    ensures Shrinks(s, StepMeeting(s, e).0)
  {
    if e.Hint? || e.CloseByDaemon? || e.EndDirect? { DaemonMeetingShrinks(s, e); } else { AppMeetingShrinks(s, e); }
  }

  lemma RelayingTouches(x: Tunnels, e: Relaying)
    ensures Touched(x.attempts, StepRelaying(x, e).0.attempts)
  {
    match e
    case Spend(token, at) => RedeemSweptTouches(x, token, at);
    case _ =>
  }

  // ----- anchors -----

  lemma PresenceAnchors(s: State, e: Presence, su: SessionUser)
    requires AnchorInv(s) && Fair(s, Here(e), su)
    ensures AnchorInv(StepPresence(s, e).0)
  {
    match e
    case AppUp(owner, p, v, at) => RegisterAppAnchors(s, owner, p, v, at);
    case AppDown(p) => DisconnectAppAnchors(s, p);
    case DaemonUp(owner, info, listed, reported, peer, v, at, picks) =>
      if |picks| == |reported| { RegisterDaemonAnchors(s, owner, info, listed, reported, peer, v, at, picks); }
    case DaemonDown(id, peer) => DisconnectDaemonAnchors(s, id, peer);
  }

  lemma ForwardShrinks(s: State, e: Pairing)
    requires e.Lookup? || e.Finish?
    ensures var t := StepPairing(s, e).0; t == s.(correlations := t.correlations) && Sub(t.correlations, s.correlations)
  {
  }

  lemma ForwardAnchors(s: State, e: Pairing)
    requires AnchorInv(s) && (e.Lookup? || e.Finish?)
    ensures AnchorInv(StepPairing(s, e).0)
  {
    ForwardShrinks(s, e);
    PruneAnchors(s, StepPairing(s, e).0);
  }

  lemma PairingAnchors(s: State, e: Pairing)
    requires AnchorInv(s)
    ensures AnchorInv(StepPairing(s, e).0)
  {
    match e
    case Untrust(id, peer, fp) => RevokeTrustedAnchors(s, id, peer, fp);
    case Trust(id, peer, fp) => CompletePairingAnchors(s, id, peer, fp);
    case Reserve(dev, owner, peer, id, ttl, sweptAt, at) =>
      ReservePairingAnchors(s, dev, owner, peer, id, ttl, sweptAt, at);
    case _ => ForwardAnchors(s, e);
  }

  lemma RevokingAnchors(s: State, e: Revoking)
    requires AnchorInv(s)
    ensures AnchorInv(StepRevoking(s, e).0)
  {
    match e
    case CutSession(sid) => DisconnectAppSessionAnchors(s, sid);
    case CutUser(user, at) => DisconnectUserAnchors(s, user, at);
    case CutAgent(token) => DisconnectAgentTokenAnchors(s, token);
  }

  lemma MeetingAnchors(s: State, e: Meeting, su: SessionUser)
    requires AnchorInv(s) && Fair(s, Meet(e), su)
    ensures AnchorInv(StepMeeting(s, e).0)
  {
    match e
    case Open(owner, p, dev, id, v, ttl, sweptAt, at) =>
      OpenRendezvousAnchors(s, owner, p, dev, id, v, ttl, sweptAt, at);
    case GoDirect(owner, dev, peer, id, fp, sweptAt, pick) =>
      OpenDirectAnchors(s, owner, dev, peer, id, fp, sweptAt, pick);
    case _ => MeetingShrinks(s, e); PruneAnchors(s, StepMeeting(s, e).0);
  }

  lemma AskingAnchors(s: State, e: Asking)
    requires AnchorInv(s)
    ensures AnchorInv(StepAsking(s, e).0)
  {
    RequestSweptAnchors(s, e.owner, e.appPeer, e.daemonId, e.attemptId, e.at, e.expiresAt, e.minted);
  }

  lemma RelayingAnchors(s: State, e: Relaying)
    requires AnchorInv(s)
    ensures AnchorInv(s.(tunnels := StepRelaying(s.tunnels, e).0))
  {
    RelayingTouches(s.tunnels, e);
    TouchAnchors(s, s.(tunnels := StepRelaying(s.tunnels, e).0));
  }

  /** Every event keeps every attempt anchored. */
  lemma StepAnchors(s: State, e: Event, su: SessionUser)
    requires AnchorInv(s) && Fair(s, e, su)
    ensures AnchorInv(Step(s, e).0)
  {
    match e
    case Here(x) => PresenceAnchors(s, x, su);
    case Pair(x) => PairingAnchors(s, x);
    case Cut(x) => RevokingAnchors(s, x);
    case Meet(x) => MeetingAnchors(s, x, su);
    case Ask(x) => AskingAnchors(s, x);
    case Relay(x) => RelayingAnchors(s, x);
  }

  // ----- revocation -----

  lemma PresenceClean(s: State, e: Presence, su: SessionUser)
    requires CleanInv(s, su) && Fair(s, Here(e), su)
    ensures CleanInv(StepPresence(s, e).0, su)
  {
    match e
    case AppUp(owner, p, v, at) => RegisterAppClean(s, owner, p, v, at, su);
    case AppDown(p) => PruneClean(s, StepPresence(s, e).0, su);
    case DaemonUp(owner, info, listed, reported, peer, v, at, picks) =>
      if |picks| == |reported| { RegisterDaemonClean(s, owner, info, listed, reported, peer, v, at, picks, su); }
    case DaemonDown(id, peer) => if DaemonOf(s, id, peer).Some? { SupersedeClean(s, DaemonOf(s, id, peer).value, su); }
  }

  /** Reserving and forwarding touch correlations only. */
  lemma CorrelationsOnly(s: State, e: Pairing)
    requires !e.Untrust? && !e.Trust?
    ensures var (t, out) := StepPairing(s, e); t == s.(correlations := t.correlations) && out.fx == NO_EFFECT
  {
  }

  lemma PairingClean(s: State, e: Pairing, su: SessionUser)
    requires CleanInv(s, su)
    ensures CleanInv(StepPairing(s, e).0, su)
  {
    match e
    case Untrust(id, peer, fp) => RevokeTrustedClean(s, id, peer, fp, su);
    case Trust(id, peer, fp) => CompletePairingClean(s, id, peer, fp, su);
    case _ => CorrelationsOnly(s, e);
  }

  lemma RevokingClean(s: State, e: Revoking, su: SessionUser)
    requires CleanInv(s, su)
    ensures CleanInv(StepRevoking(s, e).0, su)
  {
    match e
    case CutSession(sid) => DisconnectAppSessionClean(s, sid, su);
    case CutUser(user, at) => DisconnectUserClean(s, user, at, su);
    case CutAgent(token) => DisconnectAgentTokenClean(s, token, su);
  }

  lemma MeetingClean(s: State, e: Meeting, su: SessionUser)
    requires CleanInv(s, su) && RvInv(s.rendezvous, s.apps, s.daemons) && Fair(s, Meet(e), su)
    ensures CleanInv(StepMeeting(s, e).0, su)
  {
    match e
    case Open(owner, p, dev, id, v, ttl, sweptAt, at) =>
      OpenRendezvousClean(s, owner, p, dev, id, v, ttl, sweptAt, at, su);
    case GoDirect(owner, dev, peer, id, fp, sweptAt, pick) =>
      OpenDirectClean(s, owner, dev, peer, id, fp, sweptAt, pick, su);
    case _ => MeetingShrinks(s, e); PruneClean(s, StepMeeting(s, e).0, su);
  }

  /** No event lets a revoked app or agent token back in. */
  lemma StepClean(s: State, e: Event, su: SessionUser)
    requires CleanInv(s, su) && RvInv(s.rendezvous, s.apps, s.daemons) && Fair(s, e, su)
    ensures CleanInv(Step(s, e).0, su)
  {
    match e
    case Here(x) => PresenceClean(s, x, su);
    case Pair(x) => PairingClean(s, x, su);
    case Cut(x) => RevokingClean(s, x, su);
    case Meet(x) => MeetingClean(s, x, su);
    case Ask(x) =>
      RequestSweptClean(s, x.owner, x.appPeer, x.daemonId, x.attemptId, x.at, x.expiresAt, x.minted, su);
    case Relay(x) => RelayingTouches(s.tunnels, x); PruneClean(s, Step(s, e).0, su);
  }
}
