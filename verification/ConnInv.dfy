/** The inductive invariant of the connectivity registry, split by the maps each
    part speaks about, and the parts of its preservation that operations share. */
module ConnInv {
  import opened ConnModel

  // ----- anchoring -----

  /** The daemon side of an attempt is live: same connection and owner, same
      account as the app, and it trusts the app's fingerprint now. */
  ghost predicate Anchored(daemons: map<DaemonKey, LiveDaemon>, app: AppOwner, owner: DaemonOwner, deviceId: string,
                           fp: string, peer: DaemonPeer) {
    var k := DaemonKey(app.userId, deviceId);
    && k in daemons && daemons[k].peer == peer && daemons[k].owner == owner && daemons[k].info.fingerprint == fp
    && owner.userId == app.userId && app.fingerprint in daemons[k].trusted
  }

  ghost predicate RvOk(k: AttemptKey, a: Rendezvous, apps: map<AppPeer, LiveApp>, daemons: map<DaemonKey, LiveDaemon>) {
    && k == a.key == KeyOf(a.appOwner, a.daemonDeviceId, a.id)
    && Anchored(daemons, a.appOwner, a.daemonOwner, a.daemonDeviceId, a.daemonFingerprint, a.daemonPeer)
    && a.appPeer in apps && apps[a.appPeer].owner == a.appOwner
  }

  ghost predicate AtOk(k: AttemptKey, a: TunnelAttempt, daemons: map<DaemonKey, LiveDaemon>) {
    && k == a.key == KeyOf(a.appOwner, a.daemonDeviceId, a.id)
    && Anchored(daemons, a.appOwner, a.daemonOwner, a.daemonDeviceId, a.daemonFingerprint, a.daemonPeer)
  }

  /** A direct session is same-account always, and anchored while its connection is live. */
  ghost predicate DiOk(k: AttemptKey, d: DirectSession, daemons: map<DaemonKey, LiveDaemon>) {
    && k == d.key == KeyOf(d.appOwner, d.daemonDeviceId, d.id)
    && d.androidFingerprint == d.appOwner.fingerprint
    && d.appOwner.userId == d.daemonOwner.userId
    && forall j :: j in daemons && daemons[j].peer == d.daemonPeer
        ==> Anchored(daemons, d.appOwner, d.daemonOwner, d.daemonDeviceId, d.daemonFingerprint, d.daemonPeer)
  }

  ghost predicate CoOk(k: CorrelationKey, c: Correlation, daemons: map<DaemonKey, LiveDaemon>) {
    && k == CorrelationKey(c.owner.userId, c.id)
    && c.daemonKey in daemons && daemons[c.daemonKey].peer == c.peer && daemons[c.daemonKey].owner == c.owner
  }

  ghost predicate DmOk(k: DaemonKey, d: LiveDaemon) {
    k == DaemonKey(d.owner.userId, d.info.deviceId) && "" !in d.trusted
  }

  ghost predicate RvInv(m: map<AttemptKey, Rendezvous>, apps: map<AppPeer, LiveApp>,
                        daemons: map<DaemonKey, LiveDaemon>) {
    forall k :: k in m ==> RvOk(k, m[k], apps, daemons)
  }
  ghost predicate AtInv(m: map<AttemptKey, TunnelAttempt>, daemons: map<DaemonKey, LiveDaemon>) {
    forall k :: k in m ==> AtOk(k, m[k], daemons)
  }
  ghost predicate DiInv(m: map<AttemptKey, DirectSession>, daemons: map<DaemonKey, LiveDaemon>) {
    forall k :: k in m ==> DiOk(k, m[k], daemons)
  }
  ghost predicate CoInv(m: map<CorrelationKey, Correlation>, daemons: map<DaemonKey, LiveDaemon>) {
    forall k :: k in m ==> CoOk(k, m[k], daemons)
  }
  ghost predicate DmInv(m: map<DaemonKey, LiveDaemon>) {
    && (forall k :: k in m ==> DmOk(k, m[k]))
    && forall j, k :: SamePeer(m, j, k) ==> j == k
  }
  /** Both keys hold a daemon on the same connection. */
  ghost predicate SamePeer(m: map<DaemonKey, LiveDaemon>, j: DaemonKey, k: DaemonKey) {
    j in m && k in m && m[j].peer == m[k].peer
  }
  ghost predicate ApInv(m: map<AppPeer, LiveApp>) {
    forall p :: p in m ==> m[p].peer == p
  }

  // ----- revocation -----

  /** `su` tells the one account each app session belongs to. */
  type SessionUser = string -> int

  ghost predicate Clean(owner: AppOwner, r: Revocations, su: SessionUser) {
    !AppRevoked(r, owner) && su(owner.sessionId) == owner.userId
  }
  ghost predicate ApClean(m: map<AppPeer, LiveApp>, r: Revocations, su: SessionUser) {
    forall k :: k in m ==> Clean(m[k].owner, r, su)
  }
  ghost predicate RvClean(m: map<AttemptKey, Rendezvous>, r: Revocations, su: SessionUser) {
    forall k :: k in m ==> Clean(m[k].appOwner, r, su)
  }
  ghost predicate AtClean(m: map<AttemptKey, TunnelAttempt>, r: Revocations, su: SessionUser) {
    forall k :: k in m ==> Clean(m[k].appOwner, r, su)
  }
  ghost predicate DiClean(m: map<AttemptKey, DirectSession>, r: Revocations, su: SessionUser) {
    forall k :: k in m ==> Clean(m[k].appOwner, r, su)
  }
  ghost predicate DmClean(m: map<DaemonKey, LiveDaemon>, revokedAgents: set<string>) {
    forall k :: k in m ==> m[k].owner.agentTokenId !in revokedAgents
  }
  ghost predicate DiAgents(m: map<AttemptKey, DirectSession>, revokedAgents: set<string>) {
    forall k :: k in m ==> m[k].daemonOwner.agentTokenId !in revokedAgents
  }

  // ----- tokens -----

  ghost predicate TokenOk(token: Token, t: TunnelToken, attempts: map<AttemptKey, TunnelAttempt>) {
    && t.key in attempts
    && !Redeemed(attempts[t.key], t.actor)
    && token == TokenFor(attempts[t.key], t.actor)
  }

  function TokenFor(a: TunnelAttempt, actor: Actor): Token {
    match actor case Client => a.appToken case Daemon => a.daemonToken
  }

  ghost predicate Unspent(a: TunnelAttempt, tokens: map<Token, TunnelToken>) {
    forall actor {:trigger TokenFor(a, actor)} ::
      !Redeemed(a, actor) ==> TokenFor(a, actor) in tokens && tokens[TokenFor(a, actor)] == TunnelToken(a.key, actor)
  }

  /** The token map holds exactly the unredeemed tokens of live attempts. */
  ghost predicate TokensExact(attempts: map<AttemptKey, TunnelAttempt>, tokens: map<Token, TunnelToken>) {
    && (forall t :: t in tokens ==> TokenOk(t, tokens[t], attempts))
    && (forall k :: k in attempts ==> Unspent(attempts[k], tokens))
  }

  ghost predicate TokensDistinct(attempts: map<AttemptKey, TunnelAttempt>) {
    forall j, k, x, y :: SameToken(attempts, j, x, k, y) ==> j == k && x == y
  }

  ghost predicate SameToken(attempts: map<AttemptKey, TunnelAttempt>, j: AttemptKey, x: Actor, k: AttemptKey,
                            y: Actor) {
    j in attempts && k in attempts && TokenFor(attempts[j], x) == TokenFor(attempts[k], y)
  }

  // ----- exclusion -----

  ghost predicate NotBoth(attempts: map<AttemptKey, TunnelAttempt>, direct: map<AttemptKey, DirectSession>) {
    forall k :: k in attempts ==> k !in direct
  }

  ghost predicate OneRoute(m: map<AttemptKey, Rendezvous>) {
    forall j, k :: SameRoute(m, j, k) ==> j == k
  }

  /** Two rendezvous attempts of one app session and fingerprint with one daemon. */
  ghost predicate SameRoute(m: map<AttemptKey, Rendezvous>, j: AttemptKey, k: AttemptKey) {
    j in m && k in m && SameApp(m[j].appOwner, m[k].appOwner) && m[j].daemonDeviceId == m[k].daemonDeviceId
  }

  ghost predicate FewInFlight(attempts: map<AttemptKey, TunnelAttempt>) {
    forall owner :: |InFlight(attempts, owner)| <= IN_FLIGHT_LIMIT
  }

  // ----- closer identifiers -----

  ghost predicate CloserIds(attempts: map<AttemptKey, TunnelAttempt>, next: nat) {
    && (forall k, id: nat :: HasCloser(attempts, k, id) ==> id <= next)
    && forall j, k, id: nat :: HasCloser(attempts, j, id) && HasCloser(attempts, k, id) ==> j == k
  }

  ghost predicate HasCloser(attempts: map<AttemptKey, TunnelAttempt>, k: AttemptKey, id: nat) {
    k in attempts && id in attempts[k].closers
  }

  // ----- the invariant -----

  ghost predicate AnchorInv(s: State) {
    && DmInv(s.daemons) && ApInv(s.apps)
    && RvInv(s.rendezvous, s.apps, s.daemons) && AtInv(s.tunnels.attempts, s.daemons)
    && DiInv(s.direct, s.daemons) && CoInv(s.correlations, s.daemons)
    && OneRoute(s.rendezvous)
  }

  ghost predicate CleanInv(s: State, su: SessionUser) {
    && ApClean(s.apps, s.revoked, su) && RvClean(s.rendezvous, s.revoked, su)
    && AtClean(s.tunnels.attempts, s.revoked, su) && DiClean(s.direct, s.revoked, su)
    && DmClean(s.daemons, s.revoked.agents) && DiAgents(s.direct, s.revoked.agents)
  }

  ghost predicate OwnKeys(attempts: map<AttemptKey, TunnelAttempt>) {
    forall k :: k in attempts ==> attempts[k].key == k
  }

  ghost predicate TunnelInv(x: Tunnels) {
    && OwnKeys(x.attempts)
    && TokensExact(x.attempts, x.tokens) && TokensDistinct(x.attempts)
    && FewInFlight(x.attempts)
    && CloserIds(x.attempts, x.nextCloserId)
  }

  ghost predicate Inv(s: State, su: SessionUser) {
    AnchorInv(s) && CleanInv(s, su) && TunnelInv(s.tunnels) && NotBoth(s.tunnels.attempts, s.direct)
  }
}
