/** What each operation on connections, daemons and accounts does to the registry, written out record by record:
    who goes, who stays as it was, and what is new. */
module ConnEffects {
  import opened Common
  import opened ConnModel
  import opened ConnInv
  import opened ConnTunnels
  import opened ConnTheorems

  /** The part of the invariant that effects rest on. */
  ghost predicate Standing(s: State) {
    AnchorInv(s) && TunnelInv(s.tunnels)
  }

  lemma ReachableStands(w: World, su: SessionUser)
    requires Reachable(w, su)
    ensures Standing(w.reg)
  {
    ReachableInv(w, su);
  }

  /** `n` holds exactly the entries of `m` that stay, unchanged. */
  ghost predicate Remain<K(!new), V>(m: map<K, V>, n: map<K, V>, stays: V -> bool) {
    && (forall k :: k in n <==> k in m && stays(m[k]))
    && (forall k :: k in n ==> n[k] == m[k])
  }

  /** Exactly the attempts that stay are left, and exactly their tokens. */
  ghost predicate TunnelsRemain(x: Tunnels, y: Tunnels, stays: TunnelAttempt -> bool) {
    && Remain(x.attempts, y.attempts, stays)
    && (forall token :: token in y.tokens <==> token in x.tokens && x.tokens[token].key in y.attempts)
    && (forall token :: token in y.tokens ==> y.tokens[token] == x.tokens[token])
    && y.requests == x.requests && y.nextCloserId == x.nextCloserId
  }

  /** A token goes with its attempt, and with no other. */
  lemma TokenFollows(x: Tunnels, drop: TunnelAttempt -> bool, token: Token)
    requires TunnelInv(x) && token in x.tokens
    ensures x.tokens[token].key in x.attempts
    ensures token in DropFrom(x, drop).tokens <==> x.tokens[token].key in DropFrom(x, drop).attempts
  {
    var a, actor := x.attempts[x.tokens[token].key], x.tokens[token].actor;
    assert TokenOk(token, x.tokens[token], x.attempts);
    DropTunnels(x, drop);
    var y := DropFrom(x, drop);
    if drop(a) {
      assert token == TokenFor(a, actor);
    } else {
      assert x.tokens[token].key in y.attempts && y.attempts[x.tokens[token].key] == a;
      assert Unspent(a, y.tokens);
      assert TokenFor(a, actor) == token;
    }
  }

  lemma DropRemain(x: Tunnels, drop: TunnelAttempt -> bool, stays: TunnelAttempt -> bool)
    requires TunnelInv(x) && forall k :: k in x.attempts ==> (drop(x.attempts[k]) <==> !stays(x.attempts[k]))
    ensures TunnelsRemain(x, DropFrom(x, drop), stays)
  {
    var y := DropFrom(x, drop);
    forall token | token in x.tokens
      ensures token in y.tokens <==> x.tokens[token].key in y.attempts
    {
      TokenFollows(x, drop, token);
    }
  }

  lemma KeepRemain<K(!new), V>(m: map<K, V>, drop: V -> bool, stays: V -> bool)
    requires forall k :: k in m ==> (drop(m[k]) <==> !stays(m[k]))
    ensures Remain(m, Keep(m, drop), stays)
  {
  }

  // ----- accounts, agent tokens, sessions -----

  function NotAppOf(user: int): LiveApp -> bool { (a: LiveApp) => a.owner.userId != user }
  function NotDaemonOf(user: int): LiveDaemon -> bool { (d: LiveDaemon) => d.owner.userId != user }
  function NotPairingOf(user: int): Correlation -> bool { (c: Correlation) => c.owner.userId != user }
  function NotMeetingOf(user: int): Rendezvous -> bool { (a: Rendezvous) => a.appOwner.userId != user }
  function NotDirectOf(user: int): DirectSession -> bool { (d: DirectSession) => d.appOwner.userId != user }
  function NotTunnelOf(user: int): TunnelAttempt -> bool { (a: TunnelAttempt) => a.appOwner.userId != user }

  lemma UserDaemonsGo(s: State, user: int)
    requires Standing(s)
    ensures var gone := Taken(s.daemons, DmOfUser(user));
      && Remain(s.correlations, Keep(s.correlations, CoOfDaemons(gone)), NotPairingOf(user))
      && Remain(s.rendezvous, Keep(s.rendezvous, RvOfUser(user, Peers(gone))), NotMeetingOf(user))
      && Remain(s.direct, Keep(s.direct, DiOfUser(user, Peers(gone))), NotDirectOf(user))
  {
    var gone := Taken(s.daemons, DmOfUser(user));
    forall k | k in s.correlations
      ensures CoOfDaemons(gone)(s.correlations[k]) <==> !NotPairingOf(user)(s.correlations[k])
    {
      assert CoOk(k, s.correlations[k], s.daemons);
    }
    forall k | k in s.rendezvous
      ensures RvOfUser(user, Peers(gone))(s.rendezvous[k]) <==> !NotMeetingOf(user)(s.rendezvous[k])
    {
      MeetingDaemon(s, k);
    }
    forall k | k in s.direct
      ensures DiOfUser(user, Peers(gone))(s.direct[k]) <==> !NotDirectOf(user)(s.direct[k])
    {
      DirectDaemon(s, k);
    }
  }

  /** Whoever is live on a rendezvous attempt's daemon connection is its daemon, of the app's account. */
  lemma MeetingDaemon(s: State, k: AttemptKey)
    requires RvInv(s.rendezvous, s.apps, s.daemons) && DmInv(s.daemons) && k in s.rendezvous
    ensures var a := s.rendezvous[k];
      && a.daemonOwner.userId == a.appOwner.userId && a.appPeer in s.apps && s.apps[a.appPeer].owner == a.appOwner
      && forall j :: j in s.daemons && s.daemons[j].peer == a.daemonPeer ==> s.daemons[j].owner == a.daemonOwner
  {
    var a := s.rendezvous[k];
    assert RvOk(k, a, s.apps, s.daemons);
    var own := DaemonKey(a.appOwner.userId, a.daemonDeviceId);
    forall j | j in s.daemons && s.daemons[j].peer == a.daemonPeer ensures s.daemons[j].owner == a.daemonOwner {
      assert SamePeer(s.daemons, j, own);
    }
  }

  lemma DirectDaemon(s: State, k: AttemptKey)
    requires DiInv(s.direct, s.daemons) && DmInv(s.daemons) && k in s.direct
    ensures var d := s.direct[k];
      && d.daemonOwner.userId == d.appOwner.userId
      && forall j :: j in s.daemons && s.daemons[j].peer == d.daemonPeer ==> s.daemons[j].owner == d.daemonOwner
  {
    var d := s.direct[k];
    assert DiOk(k, d, s.daemons);
    var own := DaemonKey(d.appOwner.userId, d.daemonDeviceId);
    forall j | j in s.daemons && s.daemons[j].peer == d.daemonPeer ensures s.daemons[j].owner == d.daemonOwner {
      assert SamePeer(s.daemons, j, own);
    }
  }

  lemma PairingDaemon(s: State, k: CorrelationKey, j: DaemonKey)
    requires CoInv(s.correlations, s.daemons) && DmInv(s.daemons) && k in s.correlations && j in s.daemons
    ensures var c := s.correlations[k];
      && c.daemonKey in s.daemons && s.daemons[c.daemonKey].owner == c.owner && s.daemons[c.daemonKey].peer == c.peer
      && (s.daemons[j].peer == c.peer <==> c.daemonKey == j)
  {
    assert CoOk(k, s.correlations[k], s.daemons);
    assert s.daemons[j].peer == s.correlations[k].peer ==> SamePeer(s.daemons, j, s.correlations[k].daemonKey);
  }

  lemma TunnelDaemon(s: State, k: AttemptKey)
    requires AtInv(s.tunnels.attempts, s.daemons) && k in s.tunnels.attempts
    ensures var a := s.tunnels.attempts[k]; a.key == k && a.daemonOwner.userId == a.appOwner.userId
  {
    assert AtOk(k, s.tunnels.attempts[k], s.daemons);
  }

  /** Cutting off an account takes out its apps, its daemons with their correlations, and every attempt and session of
      either side, with the tokens; it leaves everything of other accounts, and keeps its sessions out. */
  lemma UserCutOff(s: State, user: int, at: Time)
    requires Standing(s)
    ensures var t := DisconnectUser(s, user, at).0;
      && Remain(s.apps, t.apps, NotAppOf(user))
      && Remain(s.daemons, t.daemons, NotDaemonOf(user))
      && Remain(s.correlations, t.correlations, NotPairingOf(user))
      && Remain(s.rendezvous, t.rendezvous, NotMeetingOf(user))
      && Remain(s.direct, t.direct, NotDirectOf(user))
  {
    UserDaemonsGo(s, user);
    KeepRemain(s.apps, ApOfUser(user), NotAppOf(user));
    KeepRemain(s.daemons, DmOfUser(user), NotDaemonOf(user));
  }

  lemma UserTunnelsCutOff(s: State, user: int, at: Time)
    requires Standing(s)
    ensures var t := DisconnectUser(s, user, at).0;
      && TunnelsRemain(s.tunnels, t.tunnels, NotTunnelOf(user))
      && t.rendezvousRequests == s.rendezvousRequests && t.nextSerial == s.nextSerial
      && t.revoked.agents == s.revoked.agents && t.revoked.cutoffs == s.revoked.cutoffs[user := at]
      && (forall sid :: sid in t.revoked.apps <==>
            sid in s.revoked.apps || SessionLive(s.apps, user, sid))
  {
    forall k | k in s.tunnels.attempts
      ensures AtOfUser(user)(s.tunnels.attempts[k]) <==> !NotTunnelOf(user)(s.tunnels.attempts[k])
    {
      TunnelDaemon(s, k);
    }
    DropRemain(s.tunnels, AtOfUser(user), NotTunnelOf(user));
    SessionsAre(s.apps, user);
  }

  ghost predicate SessionLive(apps: map<AppPeer, LiveApp>, user: int, sid: string) {
    exists p :: p in apps && apps[p].owner.userId == user && apps[p].owner.sessionId == sid
  }

  lemma SessionsAre(apps: map<AppPeer, LiveApp>, user: int)
    ensures forall sid :: sid in SessionsOf(Taken(apps, ApOfUser(user))) <==>
      SessionLive(apps, user, sid)
  {
    var taken := Taken(apps, ApOfUser(user));
    forall sid
      ensures sid in SessionsOf(taken) <==> SessionLive(apps, user, sid)
    {
      if p :| p in apps && apps[p].owner.userId == user && apps[p].owner.sessionId == sid { assert p in taken; }
    }
  }

  /** The whole effect of cutting an account off, in every reachable world. */
  lemma UserCutOffExactly(w: World, su: SessionUser, user: int, at: Time)
    requires Reachable(w, su)
    ensures var s := w.reg; var t := DisconnectUser(s, user, at).0;
      && Remain(s.apps, t.apps, NotAppOf(user))
      && Remain(s.daemons, t.daemons, NotDaemonOf(user))
      && Remain(s.correlations, t.correlations, NotPairingOf(user))
      && Remain(s.rendezvous, t.rendezvous, NotMeetingOf(user))
      && Remain(s.direct, t.direct, NotDirectOf(user))
      && TunnelsRemain(s.tunnels, t.tunnels, NotTunnelOf(user))
  {
    ReachableStands(w, su);
    UserCutOff(w.reg, user, at);
    UserTunnelsCutOff(w.reg, user, at);
  }

  function NotDaemonFor(token: string): LiveDaemon -> bool { (d: LiveDaemon) => d.owner.agentTokenId != token }
  function NotPairingFor(token: string): Correlation -> bool { (c: Correlation) => c.owner.agentTokenId != token }
  function NotMeetingFor(token: string): Rendezvous -> bool { (a: Rendezvous) => a.daemonOwner.agentTokenId != token }
  function NotDirectFor(token: string): DirectSession -> bool {
    (d: DirectSession) => d.daemonOwner.agentTokenId != token
  }
  function NotTunnelFor(token: string): TunnelAttempt -> bool {
    (a: TunnelAttempt) => a.daemonOwner.agentTokenId != token
  }

  lemma AgentDaemonsGo(s: State, token: string)
    requires Standing(s)
    ensures var gone := Taken(s.daemons, DmOfAgent(token));
      && Remain(s.correlations, Keep(s.correlations, CoOfDaemons(gone)), NotPairingFor(token))
      && Remain(s.rendezvous, Keep(s.rendezvous, RvOfAgent(token, Peers(gone))), NotMeetingFor(token))
      && Remain(s.direct, Keep(s.direct, DiOfAgent(token, Peers(gone))), NotDirectFor(token))
  {
    var gone := Taken(s.daemons, DmOfAgent(token));
    forall k | k in s.correlations
      ensures CoOfDaemons(gone)(s.correlations[k]) <==> !NotPairingFor(token)(s.correlations[k])
    {
      assert CoOk(k, s.correlations[k], s.daemons);
    }
    forall k | k in s.rendezvous
      ensures RvOfAgent(token, Peers(gone))(s.rendezvous[k]) <==> !NotMeetingFor(token)(s.rendezvous[k])
    {
      MeetingDaemon(s, k);
    }
    forall k | k in s.direct
      ensures DiOfAgent(token, Peers(gone))(s.direct[k]) <==> !NotDirectFor(token)(s.direct[k])
    {
      DirectDaemon(s, k);
    }
  }

  /** Revoking an agent token takes out its daemons with their correlations, and every attempt and session bound to
      them, with the tokens; apps and everything under other agent tokens stay. */
  lemma AgentCutOff(s: State, token: string)
    requires Standing(s)
    ensures var t := DisconnectAgentToken(s, token).0;
      && t.apps == s.apps
      && Remain(s.daemons, t.daemons, NotDaemonFor(token))
      && Remain(s.correlations, t.correlations, NotPairingFor(token))
      && Remain(s.rendezvous, t.rendezvous, NotMeetingFor(token))
      && Remain(s.direct, t.direct, NotDirectFor(token))
      && TunnelsRemain(s.tunnels, t.tunnels, NotTunnelFor(token))
      && t.revoked == s.revoked.(agents := s.revoked.agents + {token})
  {
    AgentDaemonsGo(s, token);
    KeepRemain(s.daemons, DmOfAgent(token), NotDaemonFor(token));
    DropRemain(s.tunnels, AtOfAgent(token), NotTunnelFor(token));
  }

  lemma AgentCutOffExactly(w: World, su: SessionUser, token: string)
    requires Reachable(w, su)
    ensures var s := w.reg; var t := DisconnectAgentToken(s, token).0;
      && t.apps == s.apps
      && Remain(s.daemons, t.daemons, NotDaemonFor(token))
      && Remain(s.correlations, t.correlations, NotPairingFor(token))
      && Remain(s.rendezvous, t.rendezvous, NotMeetingFor(token))
      && Remain(s.direct, t.direct, NotDirectFor(token))
      && TunnelsRemain(s.tunnels, t.tunnels, NotTunnelFor(token))
  {
    ReachableStands(w, su);
    AgentCutOff(w.reg, token);
  }

  function NotAppIn(sid: string): LiveApp -> bool { (a: LiveApp) => a.owner.sessionId != sid }
  function NotMeetingIn(sid: string): Rendezvous -> bool { (a: Rendezvous) => a.appOwner.sessionId != sid }
  function NotDirectIn(sid: string): DirectSession -> bool { (d: DirectSession) => d.appOwner.sessionId != sid }
  function NotTunnelIn(sid: string): TunnelAttempt -> bool { (a: TunnelAttempt) => a.appOwner.sessionId != sid }

  /** Disconnecting an app session takes out its apps, attempts, sessions and tokens, keeps it out, and leaves the
      rest. */
  lemma SessionCutOff(s: State, sid: string)
    requires Standing(s)
    ensures var t := DisconnectAppSession(s, sid).0;
      && Remain(s.apps, t.apps, NotAppIn(sid))
      && t.daemons == s.daemons && t.correlations == s.correlations
      && Remain(s.rendezvous, t.rendezvous, NotMeetingIn(sid))
      && Remain(s.direct, t.direct, NotDirectIn(sid))
      && TunnelsRemain(s.tunnels, t.tunnels, NotTunnelIn(sid))
      && t.revoked == s.revoked.(apps := s.revoked.apps + {sid})
  {
    KeepRemain(s.apps, ApOfSession(sid), NotAppIn(sid));
    KeepRemain(s.rendezvous, RvOfSession(sid), NotMeetingIn(sid));
    KeepRemain(s.direct, DiOfSession(sid), NotDirectIn(sid));
    DropRemain(s.tunnels, AtOfSession(sid), NotTunnelIn(sid));
  }

  // ----- apps -----

  /** An app comes in exactly when it is still valid and not revoked; its connection is all that is new. */
  lemma AppComesIn(s: State, owner: AppOwner, peer: AppPeer, stillValid: bool, now: Time)
    ensures var (t, out) := RegisterApp(s, owner, peer, stillValid, now);
      && (out.ok <==>
            && stillValid && owner.sessionId !in s.revoked.apps
            && !(owner.userId in s.revoked.cutoffs
                 && (owner.createdAt == 0 || owner.createdAt <= s.revoked.cutoffs[owner.userId])))
      && t == (if out.ok then s.(apps := s.apps[peer := LiveApp(owner, peer, now)]) else s)
  {
  }

  function MeetingOfOthers(o: AppOwner): Rendezvous -> bool {
    (a: Rendezvous) =>
      !(&& a.appOwner.userId == o.userId && a.appOwner.sessionId == o.sessionId
        && a.appOwner.fingerprint == o.fingerprint)
  }

  /** An app that leaves takes its own rendezvous along and nothing else. */
  lemma AppLeaves(s: State, peer: AppPeer)
    requires Standing(s) && peer in s.apps
    ensures var t := DisconnectApp(s, peer).0;
      && t == s.(apps := s.apps - {peer}, rendezvous := t.rendezvous)
      && Remain(s.rendezvous, t.rendezvous, MeetingOfOthers(s.apps[peer].owner))
  {
    var o := s.apps[peer].owner;
    forall k | k in s.rendezvous
      ensures RvOfApp(peer, o)(s.rendezvous[k]) <==> !MeetingOfOthers(o)(s.rendezvous[k])
    {
      MeetingDaemon(s, k);
    }
    KeepRemain(s.rendezvous, RvOfApp(peer, o), MeetingOfOthers(o));
  }

  // ----- daemons -----

  function DaemonElsewhere(peer: DaemonPeer): LiveDaemon -> bool { (d: LiveDaemon) => d.peer != peer }
  function PairingElsewhere(peer: DaemonPeer): Correlation -> bool { (c: Correlation) => c.peer != peer }
  function MeetingElsewhere(peer: DaemonPeer): Rendezvous -> bool { (a: Rendezvous) => a.daemonPeer != peer }
  function TunnelElsewhere(peer: DaemonPeer): TunnelAttempt -> bool { (a: TunnelAttempt) => a.daemonPeer != peer }

  /** Everything bound to a daemon connection goes but direct sessions; everything else stays. */
  ghost predicate Unbinds(s: State, t: State, peer: DaemonPeer) {
    && Remain(s.correlations, t.correlations, PairingElsewhere(peer))
    && Remain(s.rendezvous, t.rendezvous, MeetingElsewhere(peer))
    && TunnelsRemain(s.tunnels, t.tunnels, TunnelElsewhere(peer))
    && t.apps == s.apps && t.revoked == s.revoked && t.rendezvousRequests == s.rendezvousRequests
    && t.nextSerial == s.nextSerial
  }

  lemma SupersedeUnbinds(s: State, key: DaemonKey)
    requires Standing(s) && key in s.daemons
    ensures Unbinds(s, Supersede(s, key), s.daemons[key].peer)
    ensures Remain(s.daemons, Supersede(s, key).daemons, DaemonElsewhere(s.daemons[key].peer))
    ensures Supersede(s, key).direct == s.direct
  {
    var peer := s.daemons[key].peer;
    forall k | k in s.correlations
      ensures CoOfDaemon(key, peer)(s.correlations[k]) <==> !PairingElsewhere(peer)(s.correlations[k])
    {
      PairingDaemon(s, k, key);
    }
    KeepRemain(s.correlations, CoOfDaemon(key, peer), PairingElsewhere(peer));
    KeepRemain(s.rendezvous, RvOfPeers({peer}), MeetingElsewhere(peer));
    DropRemain(s.tunnels, AtOfPeers({peer}), TunnelElsewhere(peer));
    forall k | k in s.daemons
      ensures k == key <==> s.daemons[k].peer == peer
    {
      assert SamePeer(s.daemons, k, key) || s.daemons[k].peer != peer;
    }
  }

  /** A daemon leaves by its own connection: it goes with everything bound to that connection but direct sessions. */
  lemma DaemonLeaves(s: State, deviceId: string, peer: DaemonPeer)
    requires Standing(s)
    ensures var (t, out) := DisconnectDaemon(s, deviceId, peer);
      && (out.ok <==> exists k :: k in s.daemons && s.daemons[k].info.deviceId == deviceId && s.daemons[k].peer == peer)
      && (out.ok ==> Unbinds(s, t, peer) && Remain(s.daemons, t.daemons, DaemonElsewhere(peer)) && t.direct == s.direct)
      && (!out.ok ==> t == s)
  {
    var found := DaemonOf(s, deviceId, peer);
    if found.Some? { SupersedeUnbinds(s, found.value); }
    forall k | k in s.daemons && s.daemons[k].info.deviceId == deviceId && s.daemons[k].peer == peer
      ensures ServesDevice(s.daemons[k], deviceId, peer)
    {
    }
  }

  /** A daemon comes in exactly when it is still valid and its agent token is not revoked.  It trusts what it lists
      without blanks; an older connection of the device loses everything bound to it; other daemons stay. */
  lemma DaemonComesIn(s: State, owner: DaemonOwner, info: DaemonInfo, listed: seq<string>, reported: seq<Report>,
                      peer: DaemonPeer, stillValid: bool, now: Time, picks: seq<AttemptKey>)
    requires Standing(s) && |picks| == |reported|
    ensures var (t, out) := RegisterDaemon(s, owner, info, listed, reported, peer, stillValid, now, picks);
      var key := DaemonKey(owner.userId, info.deviceId);
      && (out.ok <==> stillValid && owner.agentTokenId !in s.revoked.agents)
      && (!out.ok ==> t == s)
      && (out.ok ==> key in t.daemons && t.daemons[key].(trusted := {}) == LiveDaemon(info, owner, peer, {}, now))
      && (out.ok ==> forall f :: f in t.daemons[key].trusted <==> f in listed && f != "")
      && (out.ok ==> t.daemons == s.daemons[key := t.daemons[key]])
      && (out.ok && key in s.daemons && s.daemons[key].peer != peer ==> Unbinds(s, t, s.daemons[key].peer))
      && (out.ok && (key !in s.daemons || s.daemons[key].peer == peer) ==>
            t == s.(daemons := t.daemons, direct := t.direct))
  {
    var key := DaemonKey(owner.userId, info.deviceId);
    if key in s.daemons { SupersedeUnbinds(s, key); }
  }

  function MeetingNot(peer: DaemonPeer, fp: string): Rendezvous -> bool {
    (a: Rendezvous) => a.daemonPeer != peer || a.appOwner.fingerprint != fp
  }
  function DirectNot(peer: DaemonPeer, fp: string): DirectSession -> bool {
    (d: DirectSession) => d.daemonPeer != peer || d.androidFingerprint != fp
  }
  function TunnelNot(peer: DaemonPeer, fp: string): TunnelAttempt -> bool {
    (a: TunnelAttempt) => a.daemonPeer != peer || a.appOwner.fingerprint != fp
  }

  /** A daemon that stops trusting a client loses every attempt and session of that client on its connection, and
      nothing else. */
  lemma TrustIsWithdrawn(s: State, deviceId: string, peer: DaemonPeer, fp: string, key: DaemonKey)
    requires Standing(s) && key in s.daemons && s.daemons[key].info.deviceId == deviceId && s.daemons[key].peer == peer
    ensures var (t, out) := RevokeTrusted(s, deviceId, peer, fp);
      && out.ok
      && t.daemons == s.daemons[key := s.daemons[key].(trusted := s.daemons[key].trusted - {fp})]
      && Remain(s.rendezvous, t.rendezvous, MeetingNot(peer, fp))
      && Remain(s.direct, t.direct, DirectNot(peer, fp))
      && TunnelsRemain(s.tunnels, t.tunnels, TunnelNot(peer, fp))
      && t == s.(daemons := t.daemons, rendezvous := t.rendezvous, direct := t.direct, tunnels := t.tunnels)
  {
    ServedBy(s, deviceId, peer, key);
    KeepRemain(s.rendezvous, RvOfPeerClient(peer, fp), MeetingNot(peer, fp));
    KeepRemain(s.direct, DiOfPeerClient(peer, fp), DirectNot(peer, fp));
    DropRemain(s.tunnels, AtOfPeerClient(peer, fp), TunnelNot(peer, fp));
  }

  lemma ServedBy(s: State, deviceId: string, peer: DaemonPeer, key: DaemonKey)
    requires DmInv(s.daemons) && key in s.daemons && s.daemons[key].info.deviceId == deviceId
      && s.daemons[key].peer == peer
    ensures DaemonOf(s, deviceId, peer) == Some(key)
  {
    assert ServesDevice(s.daemons[key], deviceId, peer);
    var found := DaemonOf(s, deviceId, peer);
    assert found.Some? && SamePeer(s.daemons, key, found.value);
  }

  /** A completed pairing adds one trusted fingerprint to the live daemon, and changes nothing else. */
  lemma TrustIsAdded(s: State, deviceId: string, peer: DaemonPeer, fp: string, key: DaemonKey)
    requires DmInv(s.daemons) && key in s.daemons && s.daemons[key].info.deviceId == deviceId
      && s.daemons[key].peer == peer
    ensures var (t, out) := CompletePairing(s, deviceId, peer, fp);
      && (out.ok <==> fp != "")
      && t.daemons ==
           (if fp == "" then s.daemons else s.daemons[key := s.daemons[key].(trusted := s.daemons[key].trusted + {fp})])
      && t == s.(daemons := t.daemons)
  {
    ServedBy(s, deviceId, peer, key);
  }

  /** Neither does anything for a daemon that is not there. */
  lemma NoDaemonNoTrust(s: State, deviceId: string, peer: DaemonPeer, fp: string)
    requires forall k :: k in s.daemons ==> !ServesDevice(s.daemons[k], deviceId, peer)
    ensures RevokeTrusted(s, deviceId, peer, fp) == (s, QUIET)
    ensures CompletePairing(s, deviceId, peer, fp) == (s, QUIET)
  {
  }

  // ----- who may act -----

  /** An owner is cut off: by its session, or by its account at or after its creation. */
  predicate CutOff(s: State, owner: AppOwner) {
    || owner.sessionId in s.revoked.apps
    || (&& owner.userId in s.revoked.cutoffs
        && (owner.createdAt == 0 || owner.createdAt <= s.revoked.cutoffs[owner.userId]))
  }

  predicate Alike(a: AppOwner, b: AppOwner) {
    a.userId == b.userId && a.sessionId == b.sessionId && a.fingerprint == b.fingerprint
  }

  /** An app may act through a connection exactly if it registered there and is not cut off; without one, exactly if it
      is not cut off and has some connection. */
  lemma ActiveExactly(s: State, owner: AppOwner, peer: AppPeer)
    ensures PeerActive(s, owner, peer) <==>
      peer in s.apps && Alike(s.apps[peer].owner, owner) && !CutOff(s, s.apps[peer].owner)
    ensures OwnerActive(s, owner) <==> !CutOff(s, owner) && exists p :: p in s.apps && Alike(s.apps[p].owner, owner)
  {
    if p :| p in s.apps && Alike(s.apps[p].owner, owner) { assert SameApp(s.apps[p].owner, owner); }
  }

  /** An app may ask for a tunnel exactly if it may act, the daemon is live in its account and trusts it, and it has no
      direct session under the same key. */
  lemma EligibleExactly(s: State, owner: AppOwner, peer: Option<AppPeer>, daemonId: string, attemptId: string)
    ensures Eligible(s, owner, peer, daemonId, attemptId) <==>
      && (if peer.Some? then PeerActive(s, owner, peer.value) else OwnerActive(s, owner))
      && DaemonKey(owner.userId, daemonId) in s.daemons
      && owner.fingerprint in s.daemons[DaemonKey(owner.userId, daemonId)].trusted
      && AttemptKey(owner.userId, owner.sessionId, owner.fingerprint, daemonId, attemptId) !in s.direct
  {
  }
}
