/** Every operation keeps the registry free of revoked apps and agent tokens. */
module ConnClean {
  import opened Common
  import opened ConnModel
  import opened ConnInv
  import opened ConnAnchors

  /** Removing entries keeps the rest clean. */
  lemma PruneClean(s: State, t: State, su: SessionUser)
    requires CleanInv(s, su) && t.revoked == s.revoked
    requires Sub(t.apps, s.apps) && Sub(t.rendezvous, s.rendezvous) && Touched(s.tunnels.attempts, t.tunnels.attempts)
      && Sub(t.direct, s.direct)
    requires forall k :: k in t.daemons ==> k in s.daemons && t.daemons[k].owner == s.daemons[k].owner
    ensures CleanInv(t, su)
  {
  }

  lemma RegisterAppClean(s: State, owner: AppOwner, peer: AppPeer, stillValid: bool, now: Time, su: SessionUser)
    requires CleanInv(s, su) && su(owner.sessionId) == owner.userId
    ensures CleanInv(RegisterApp(s, owner, peer, stillValid, now).0, su)
  {
  }

  // ----- registering a daemon -----

  lemma RebindClean(s: State, owner: DaemonOwner, info: DaemonInfo, trusted: set<string>, reported: seq<Report>,
                    peer: DaemonPeer, picks: seq<AttemptKey>, su: SessionUser)
    requires DiClean(s.direct, s.revoked, su) && DiAgents(s.direct, s.revoked.agents) && |picks| == |reported|
    ensures DiClean(Reconcile(s, owner, info, trusted, reported, peer, picks).direct, s.revoked, su)
    ensures DiAgents(Reconcile(s, owner, info, trusted, reported, peer, picks).direct, s.revoked.agents)
  {
    var n := Reconcile(s, owner, info, trusted, reported, peer, picks).direct;
    forall k | k in n
      ensures k in s.direct && n[k].appOwner == s.direct[k].appOwner && n[k].daemonOwner == s.direct[k].daemonOwner
    {
    }
  }

  lemma RegisterDaemonClean(s: State, owner: DaemonOwner, info: DaemonInfo, listed: seq<string>, reported: seq<Report>,
                            peer: DaemonPeer, stillValid: bool, now: Time, picks: seq<AttemptKey>, su: SessionUser)
    requires CleanInv(s, su) && |picks| == |reported| && forall k :: k in s.daemons ==> s.daemons[k].peer != peer
    ensures CleanInv(RegisterDaemon(s, owner, info, listed, reported, peer, stillValid, now, picks).0, su)
  {
    RegisterDaemonShape(s, owner, info, listed, reported, peer, stillValid, now, picks);
    if RegisterDaemon(s, owner, info, listed, reported, peer, stillValid, now, picks).1.ok {
      var s2 := WithDaemon(s, owner, info, listed, peer, now);
      WithDaemonClean(s, owner, info, listed, peer, now, su);
      RebindClean(s2, owner, info, TrustedSet(listed), reported, peer, picks, su);
    }
  }

  lemma SupersedeClean(s: State, key: DaemonKey, su: SessionUser)
    requires CleanInv(s, su) && key in s.daemons
    ensures CleanInv(Supersede(s, key), su)
  {
    PruneClean(s, Supersede(s, key), su);
  }

  lemma WithDaemonClean(s: State, owner: DaemonOwner, info: DaemonInfo, listed: seq<string>, peer: DaemonPeer,
                        now: Time, su: SessionUser)
    requires CleanInv(s, su) && owner.agentTokenId !in s.revoked.agents
    ensures CleanInv(WithDaemon(s, owner, info, listed, peer, now), su)
  {
    var key := DaemonKey(owner.userId, info.deviceId);
    if key in s.daemons { SupersedeClean(s, key, su); }
  }

  // ----- revoking -----

  lemma SessionSparesOthers(r: Revocations, sid: string, owner: AppOwner, su: SessionUser)
    requires Clean(owner, r, su) && owner.sessionId != sid
    ensures Clean(owner, r.(apps := r.apps + {sid}), su)
  {
  }

  lemma DisconnectAppSessionClean(s: State, sid: string, su: SessionUser)
    requires CleanInv(s, su)
    ensures CleanInv(DisconnectAppSession(s, sid).0, su)
  {
    var t := DisconnectAppSession(s, sid).0;
    forall k | k in t.apps ensures Clean(t.apps[k].owner, t.revoked, su) {
      SessionSparesOthers(s.revoked, sid, s.apps[k].owner, su);
    }
    forall k | k in t.rendezvous ensures Clean(t.rendezvous[k].appOwner, t.revoked, su) {
      SessionSparesOthers(s.revoked, sid, s.rendezvous[k].appOwner, su);
    }
    forall k | k in t.tunnels.attempts ensures Clean(t.tunnels.attempts[k].appOwner, t.revoked, su) {
      SessionSparesOthers(s.revoked, sid, s.tunnels.attempts[k].appOwner, su);
    }
    forall k | k in t.direct ensures Clean(t.direct[k].appOwner, t.revoked, su) {
      SessionSparesOthers(s.revoked, sid, s.direct[k].appOwner, su);
    }
  }

  /** An account's cutoff revokes no session of another account. */
  lemma CutoffSparesOthers(apps: Apps, r: Revocations, user: int, now: Time, owner: AppOwner, su: SessionUser)
    requires ApClean(apps, r, su) && Clean(owner, r, su) && owner.userId != user
    ensures Clean(owner,
      r.(cutoffs := r.cutoffs[user := now], apps := r.apps + SessionsOf(Taken(apps, ApOfUser(user)))), su)
  {
    var gone := Taken(apps, ApOfUser(user));
    forall p | p in gone ensures gone[p].owner.sessionId != owner.sessionId {
      assert Clean(apps[p].owner, r, su);
    }
  }

  lemma DisconnectUserClean(s: State, user: int, now: Time, su: SessionUser)
    requires CleanInv(s, su)
    ensures CleanInv(DisconnectUser(s, user, now).0, su)
  {
    var t := DisconnectUser(s, user, now).0;
    forall k | k in t.apps ensures Clean(t.apps[k].owner, t.revoked, su) {
      CutoffSparesOthers(s.apps, s.revoked, user, now, s.apps[k].owner, su);
    }
    forall k | k in t.rendezvous ensures Clean(t.rendezvous[k].appOwner, t.revoked, su) {
      CutoffSparesOthers(s.apps, s.revoked, user, now, s.rendezvous[k].appOwner, su);
    }
    forall k | k in t.tunnels.attempts ensures Clean(t.tunnels.attempts[k].appOwner, t.revoked, su) {
      CutoffSparesOthers(s.apps, s.revoked, user, now, s.tunnels.attempts[k].appOwner, su);
    }
    forall k | k in t.direct ensures Clean(t.direct[k].appOwner, t.revoked, su) {
      CutoffSparesOthers(s.apps, s.revoked, user, now, s.direct[k].appOwner, su);
    }
  }

  lemma DisconnectAgentTokenClean(s: State, token: string, su: SessionUser)
    requires CleanInv(s, su)
    ensures CleanInv(DisconnectAgentToken(s, token).0, su)
  {
    var t := DisconnectAgentToken(s, token).0;
    assert DmClean(t.daemons, t.revoked.agents);
    assert DiAgents(t.direct, t.revoked.agents);
    PruneClean(s, t.(revoked := s.revoked), su);
  }

  // ----- trust changes -----

  lemma RevokeTrustedClean(s: State, deviceId: string, peer: DaemonPeer, fp: string, su: SessionUser)
    requires CleanInv(s, su)
    ensures CleanInv(RevokeTrusted(s, deviceId, peer, fp).0, su)
  {
    if DaemonOf(s, deviceId, peer).Some? {
      assert AtClean(Keep(s.tunnels.attempts, AtOfPeerClient(peer, fp)), s.revoked, su);
      assert RvClean(Keep(s.rendezvous, RvOfPeerClient(peer, fp)), s.revoked, su);
      assert DiClean(Keep(s.direct, DiOfPeerClient(peer, fp)), s.revoked, su);
    }
  }

  lemma CompletePairingClean(s: State, deviceId: string, peer: DaemonPeer, fp: string, su: SessionUser)
    requires CleanInv(s, su)
    ensures CleanInv(CompletePairing(s, deviceId, peer, fp).0, su)
  {
  }

  // ----- new attempts -----

  lemma OpenRendezvousClean(s: State, owner: AppOwner, peer: AppPeer, daemonId: string, attemptId: string,
                            candidatesValid: bool, ttl: Time, sweptAt: Time, now: Time, su: SessionUser)
    requires CleanInv(s, su) && (peer in s.apps && SameApp(s.apps[peer].owner, owner) ==> s.apps[peer].owner == owner)
    ensures CleanInv(OpenRendezvous(s, owner, peer, daemonId, attemptId, candidatesValid, ttl, sweptAt, now).0, su)
  {
    var (t, out) := OpenRendezvous(s, owner, peer, daemonId, attemptId, candidatesValid, ttl, sweptAt, now);
    assert RvClean(t.rendezvous, s.revoked, su);
  }

  /** Turning an anchored rendezvous attempt into a direct session. */
  lemma PromoteClean(s: State, t: State, pick: AttemptKey, su: SessionUser)
    requires CleanInv(s, su) && pick in s.rendezvous && RvOk(pick, s.rendezvous[pick], s.apps, s.daemons)
    requires Sub(t.rendezvous, s.rendezvous)
      && t == s.(rendezvous := t.rendezvous, direct := s.direct[pick := Promote(s.rendezvous[pick])])
    ensures CleanInv(t, su)
  {
    assert DiAgents(t.direct, s.revoked.agents);
  }

  lemma OpenDirectClean(s: State, owner: DaemonOwner, deviceId: string, peer: DaemonPeer, attemptId: string, fp: string,
                        sweptAt: Time, pick: AttemptKey, su: SessionUser)
    requires CleanInv(s, su) && (pick in s.rendezvous ==> RvOk(pick, s.rendezvous[pick], s.apps, s.daemons))
    ensures CleanInv(OpenDirect(s, owner, deviceId, peer, attemptId, fp, sweptAt, pick).0, su)
  {
    var (t, out) := OpenDirect(s, owner, deviceId, peer, attemptId, fp, sweptAt, pick);
    OpenDirectShape(s, owner, deviceId, peer, attemptId, fp, sweptAt, pick);
    if out.ok { PromoteClean(s, t, pick, su); } else { PruneClean(s, t, su); }
  }

  /** The app owner of a tunnel request is the one its connection registered with. */
  ghost predicate HonestOwner(apps: Apps, owner: AppOwner, peer: Option<AppPeer>, su: SessionUser) {
    match peer
    case Some(p) => p in apps && SameApp(apps[p].owner, owner) ==> apps[p].owner == owner
    case None => su(owner.sessionId) == owner.userId
  }

  lemma AtPutClean(m: Ats, r: Revocations, a: TunnelAttempt, su: SessionUser)
    requires AtClean(m, r, su) && Clean(a.appOwner, r, su)
    ensures AtClean(Keep(m, AtKeyed(a.key))[a.key := a], r, su)
  {
  }

  lemma GrantTunnelClean(s: State, owner: AppOwner, daemonId: string, attemptId: string, now: Time, expiresAt: Time,
                         minted: (Token, Token), su: SessionUser)
    requires CleanInv(s, su) && Clean(owner, s.revoked, su) && DaemonKey(owner.userId, daemonId) in s.daemons
    ensures CleanInv(GrantTunnel(s, owner, daemonId, attemptId, now, expiresAt, minted).0, su)
  {
    var live := s.daemons[DaemonKey(owner.userId, daemonId)];
    AtPutClean(s.tunnels.attempts, s.revoked,
      NewAttempt(live, owner, daemonId, attemptId, expiresAt, minted, s.nextSerial), su);
    assert RvClean(Keep(s.rendezvous, RvOfAttempt(owner, daemonId, attemptId)), s.revoked, su);
  }

  lemma RequestSweptClean(s: State, owner: AppOwner, peer: Option<AppPeer>, daemonId: string, attemptId: string,
                          now: Time, expiresAt: Time, minted: Option<(Token, Token)>, su: SessionUser)
    requires CleanInv(s, su) && HonestOwner(s.apps, owner, peer, su)
    ensures CleanInv(RequestSwept(s, owner, peer, daemonId, attemptId, now, expiresAt, minted).0, su)
  {
    if Eligible(s, owner, peer, daemonId, attemptId) && minted.Some? {
      assert Clean(owner, s.revoked, su);
      var s1 := s.(tunnels := s.tunnels.(requests := PruneRequests(s.tunnels.requests, owner.userId, now)));
      GrantTunnelClean(s1, owner, daemonId, attemptId, now, expiresAt, minted.value, su);
    }
  }
}
