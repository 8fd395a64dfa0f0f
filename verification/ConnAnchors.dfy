/** Every operation keeps attempts anchored to live, same-account, trusting daemons.
    Each map is handled on its own; the lemmas about whole states combine them. */
module ConnAnchors {
  import opened Common
  import opened ConnModel
  import opened ConnInv

  type Apps = map<AppPeer, LiveApp>
  type Daemons = map<DaemonKey, LiveDaemon>
  type Rvs = map<AttemptKey, Rendezvous>
  type Ats = map<AttemptKey, TunnelAttempt>
  type Dis = map<AttemptKey, DirectSession>
  type Cos = map<CorrelationKey, Correlation>

  // ----- removals that leave apps and daemons alone -----

  lemma PruneAnchors(s: State, t: State)
    requires AnchorInv(s) && t.apps == s.apps && t.daemons == s.daemons
    requires Sub(t.rendezvous, s.rendezvous) && Sub(t.tunnels.attempts, s.tunnels.attempts) && Sub(t.direct, s.direct)
      && Sub(t.correlations, s.correlations)
    ensures AnchorInv(t)
  {
    RvSub(s.rendezvous, t.rendezvous, s.apps, s.daemons);
    AtSub(s.tunnels.attempts, t.tunnels.attempts, s.daemons);
    DiSub(s.direct, t.direct, s.daemons);
    CoSub(s.correlations, t.correlations, s.daemons);
  }

  lemma RvSub(m: Rvs, n: Rvs, ap: Apps, d: Daemons)
    requires RvInv(m, ap, d) && OneRoute(m) && Sub(n, m)
    ensures RvInv(n, ap, d) && OneRoute(n)
  {
    RouteSub(m, n);
  }
  lemma RouteSub(m: Rvs, n: Rvs)
    requires OneRoute(m) && Sub(n, m)
    ensures OneRoute(n)
  {
    forall j, k | SameRoute(n, j, k) ensures j == k { assert SameRoute(m, j, k); }
  }
  lemma AtSub(m: Ats, n: Ats, d: Daemons)
    requires AtInv(m, d) && Sub(n, m)
    ensures AtInv(n, d)
  {
  }
  lemma DiSub(m: Dis, n: Dis, d: Daemons)
    requires DiInv(m, d) && Sub(n, m)
    ensures DiInv(n, d)
  {
  }
  lemma CoSub(m: Cos, n: Cos, d: Daemons)
    requires CoInv(m, d) && Sub(n, m)
    ensures CoInv(n, d)
  {
  }

  // ----- apps -----

  lemma RvNewApp(rv: Rvs, ap: Apps, d: Daemons, peer: AppPeer, app: LiveApp)
    requires RvInv(rv, ap, d) && peer !in ap
    ensures RvInv(rv, ap[peer := app], d)
  {
    forall k | k in rv ensures RvOk(k, rv[k], ap[peer := app], d) { assert RvOk(k, rv[k], ap, d); }
  }

  lemma ApNewApp(ap: Apps, peer: AppPeer, app: LiveApp)
    requires ApInv(ap) && app.peer == peer
    ensures ApInv(ap[peer := app])
  {
  }

  lemma RegisterAppAnchors(s: State, owner: AppOwner, peer: AppPeer, stillValid: bool, now: Time)
    requires AnchorInv(s) && peer !in s.apps
    ensures AnchorInv(RegisterApp(s, owner, peer, stillValid, now).0)
  {
    if stillValid && !Revoked(s, owner) {
      RvNewApp(s.rendezvous, s.apps, s.daemons, peer, LiveApp(owner, peer, now));
      ApNewApp(s.apps, peer, LiveApp(owner, peer, now));
    }
  }

  lemma RvAppGone(rv: Rvs, ap: Apps, d: Daemons, peer: AppPeer)
    requires RvInv(rv, ap, d) && OneRoute(rv) && peer in ap
    ensures var n := Keep(rv, RvOfApp(peer, ap[peer].owner)); RvInv(n, ap - {peer}, d) && OneRoute(n)
  {
    var n := Keep(rv, RvOfApp(peer, ap[peer].owner));
    RouteSub(rv, n);
    forall k | k in n ensures RvOk(k, n[k], ap - {peer}, d) { assert RvOk(k, rv[k], ap, d); }
  }

  lemma DisconnectAppAnchors(s: State, peer: AppPeer)
    requires AnchorInv(s)
    ensures AnchorInv(DisconnectApp(s, peer).0)
  {
    if peer in s.apps { RvAppGone(s.rendezvous, s.apps, s.daemons, peer); }
  }

  lemma RvSessionGone(rv: Rvs, ap: Apps, d: Daemons, sid: string)
    requires RvInv(rv, ap, d) && OneRoute(rv)
    ensures var n := Keep(rv, RvOfSession(sid)); RvInv(n, Keep(ap, ApOfSession(sid)), d) && OneRoute(n)
  {
    var n := Keep(rv, RvOfSession(sid));
    RouteSub(rv, n);
    forall k | k in n ensures RvOk(k, n[k], Keep(ap, ApOfSession(sid)), d) { assert RvOk(k, rv[k], ap, d); }
  }

  lemma DisconnectAppSessionAnchors(s: State, sid: string)
    requires AnchorInv(s)
    ensures AnchorInv(DisconnectAppSession(s, sid).0)
  {
    RvSessionGone(s.rendezvous, s.apps, s.daemons, sid);
    AtSub(s.tunnels.attempts, Keep(s.tunnels.attempts, AtOfSession(sid)), s.daemons);
    DiSub(s.direct, Keep(s.direct, DiOfSession(sid)), s.daemons);
  }

  // ----- a daemon goes -----

  lemma DmSub(d: Daemons, e: Daemons)
    requires DmInv(d) && Sub(e, d)
    ensures DmInv(e)
  {
    forall j, k | SamePeer(e, j, k) ensures j == k { assert SamePeer(d, j, k); }
  }

  /** Direct sessions stay bound well when daemons go. */
  lemma DiDaemonsGone(m: Dis, n: Dis, d: Daemons, e: Daemons)
    requires DiInv(m, d) && DmInv(d) && Sub(e, d) && Sub(n, m)
    ensures DiInv(n, e)
  {
    forall k | k in n ensures DiOk(k, n[k], e) {
      assert DiOk(k, m[k], d);
      var x := n[k];
      forall j | j in e && e[j].peer == x.daemonPeer
        ensures Anchored(e, x.appOwner, x.daemonOwner, x.daemonDeviceId, x.daemonFingerprint, x.daemonPeer)
      {
        assert SamePeer(d, j, DaemonKey(x.appOwner.userId, x.daemonDeviceId));
      }
    }
  }

  lemma RvPeerGone(rv: Rvs, ap: Apps, d: Daemons, key: DaemonKey)
    requires RvInv(rv, ap, d) && OneRoute(rv) && key in d
    ensures var n := Keep(rv, RvOfPeers({d[key].peer})); RvInv(n, ap, d - {key}) && OneRoute(n)
  {
    var n := Keep(rv, RvOfPeers({d[key].peer}));
    RouteSub(rv, n);
    forall k | k in n ensures RvOk(k, n[k], ap, d - {key}) { assert RvOk(k, rv[k], ap, d); }
  }

  lemma AtPeerGone(at: Ats, d: Daemons, key: DaemonKey)
    requires AtInv(at, d) && key in d
    ensures AtInv(Keep(at, AtOfPeers({d[key].peer})), d - {key})
  {
    var n := Keep(at, AtOfPeers({d[key].peer}));
    forall k | k in n ensures AtOk(k, n[k], d - {key}) { assert AtOk(k, at[k], d); }
  }

  lemma CoPeerGone(co: Cos, d: Daemons, key: DaemonKey)
    requires CoInv(co, d) && key in d
    ensures CoInv(Keep(co, CoOfDaemon(key, d[key].peer)), d - {key})
  {
    var n := Keep(co, CoOfDaemon(key, d[key].peer));
    forall k | k in n ensures CoOk(k, n[k], d - {key}) { assert CoOk(k, co[k], d); }
  }

  lemma SupersedeAnchors(s: State, key: DaemonKey)
    requires AnchorInv(s) && key in s.daemons
    ensures AnchorInv(Supersede(s, key))
  {
    DmSub(s.daemons, s.daemons - {key});
    RvPeerGone(s.rendezvous, s.apps, s.daemons, key);
    AtPeerGone(s.tunnels.attempts, s.daemons, key);
    CoPeerGone(s.correlations, s.daemons, key);
    DiDaemonsGone(s.direct, s.direct, s.daemons, s.daemons - {key});
  }

  lemma DisconnectDaemonAnchors(s: State, deviceId: string, peer: DaemonPeer)
    requires AnchorInv(s)
    ensures AnchorInv(DisconnectDaemon(s, deviceId, peer).0)
  {
    if DaemonOf(s, deviceId, peer).Some? { SupersedeAnchors(s, DaemonOf(s, deviceId, peer).value); }
  }

  // ----- an account or agent token goes -----

  lemma RvUserGone(rv: Rvs, ap: Apps, d: Daemons, user: int, peers: set<DaemonPeer>)
    requires RvInv(rv, ap, d) && OneRoute(rv) && DmInv(d)
    ensures var n := Keep(rv, RvOfUser(user, peers));
      RvInv(n, Keep(ap, ApOfUser(user)), Keep(d, DmOfUser(user))) && OneRoute(n)
  {
    var n := Keep(rv, RvOfUser(user, peers));
    RouteSub(rv, n);
    forall k | k in n
      ensures RvOk(k, n[k], Keep(ap, ApOfUser(user)), Keep(d, DmOfUser(user)))
    {
      assert RvOk(k, rv[k], ap, d);
    }
  }

  lemma AtUserGone(at: Ats, d: Daemons, user: int)
    requires AtInv(at, d) && DmInv(d)
    ensures AtInv(Keep(at, AtOfUser(user)), Keep(d, DmOfUser(user)))
  {
    var n := Keep(at, AtOfUser(user));
    forall k | k in n ensures AtOk(k, n[k], Keep(d, DmOfUser(user))) { assert AtOk(k, at[k], d); }
  }

  lemma CoDaemonsGone(co: Cos, d: Daemons, drop: LiveDaemon -> bool)
    requires CoInv(co, d)
    ensures CoInv(Keep(co, CoOfDaemons(Taken(d, drop))), Keep(d, drop))
  {
    var n := Keep(co, CoOfDaemons(Taken(d, drop)));
    forall k | k in n ensures CoOk(k, n[k], Keep(d, drop)) { assert CoOk(k, co[k], d); }
  }

  lemma DisconnectUserAnchors(s: State, user: int, now: Time)
    requires AnchorInv(s)
    ensures AnchorInv(DisconnectUser(s, user, now).0)
  {
    var peers := Peers(Taken(s.daemons, DmOfUser(user)));
    DmSub(s.daemons, Keep(s.daemons, DmOfUser(user)));
    RvUserGone(s.rendezvous, s.apps, s.daemons, user, peers);
    AtUserGone(s.tunnels.attempts, s.daemons, user);
    CoDaemonsGone(s.correlations, s.daemons, DmOfUser(user));
    DiDaemonsGone(s.direct, Keep(s.direct, DiOfUser(user, peers)), s.daemons, Keep(s.daemons, DmOfUser(user)));
  }

  lemma RvAgentGone(rv: Rvs, ap: Apps, d: Daemons, token: string, peers: set<DaemonPeer>)
    requires RvInv(rv, ap, d) && OneRoute(rv)
    ensures var n := Keep(rv, RvOfAgent(token, peers)); RvInv(n, ap, Keep(d, DmOfAgent(token))) && OneRoute(n)
  {
    var n := Keep(rv, RvOfAgent(token, peers));
    RouteSub(rv, n);
    forall k | k in n ensures RvOk(k, n[k], ap, Keep(d, DmOfAgent(token))) { assert RvOk(k, rv[k], ap, d); }
  }

  lemma AtAgentGone(at: Ats, d: Daemons, token: string)
    requires AtInv(at, d)
    ensures AtInv(Keep(at, AtOfAgent(token)), Keep(d, DmOfAgent(token)))
  {
    var n := Keep(at, AtOfAgent(token));
    forall k | k in n ensures AtOk(k, n[k], Keep(d, DmOfAgent(token))) { assert AtOk(k, at[k], d); }
  }

  lemma DisconnectAgentTokenAnchors(s: State, token: string)
    requires AnchorInv(s)
    ensures AnchorInv(DisconnectAgentToken(s, token).0)
  {
    var peers := Peers(Taken(s.daemons, DmOfAgent(token)));
    DmSub(s.daemons, Keep(s.daemons, DmOfAgent(token)));
    RvAgentGone(s.rendezvous, s.apps, s.daemons, token, peers);
    AtAgentGone(s.tunnels.attempts, s.daemons, token);
    CoDaemonsGone(s.correlations, s.daemons, DmOfAgent(token));
    DiDaemonsGone(s.direct, Keep(s.direct, DiOfAgent(token, peers)), s.daemons, Keep(s.daemons, DmOfAgent(token)));
  }

  // ----- trust changes -----

  function Retrust(d: Daemons, key: DaemonKey, trusted: set<string>): Daemons
    requires key in d
  {
    d[key := d[key].(trusted := trusted)]
  }

  lemma DmRetrust(d: Daemons, key: DaemonKey, trusted: set<string>)
    requires DmInv(d) && key in d && "" !in trusted
    ensures DmInv(Retrust(d, key, trusted))
  {
    var e := Retrust(d, key, trusted);
    forall k | k in e ensures DmOk(k, e[k]) { assert DmOk(k, d[k]); }
    forall j, k | SamePeer(e, j, k) ensures j == k { assert SamePeer(d, j, k); }
  }

  lemma CoRetrust(co: Cos, d: Daemons, key: DaemonKey, trusted: set<string>)
    requires CoInv(co, d) && key in d
    ensures CoInv(co, Retrust(d, key, trusted))
  {
    forall k | k in co ensures CoOk(k, co[k], Retrust(d, key, trusted)) { assert CoOk(k, co[k], d); }
  }

  lemma RvRetrust(m: Rvs, n: Rvs, ap: Apps, d: Daemons, key: DaemonKey, trusted: set<string>)
    requires RvInv(m, ap, d) && OneRoute(m) && key in d && Sub(n, m)
    requires forall k ::
      k in n && n[k].daemonPeer == d[key].peer && n[k].appOwner.fingerprint in d[key].trusted ==>
      n[k].appOwner.fingerprint in trusted
    ensures RvInv(n, ap, Retrust(d, key, trusted)) && OneRoute(n)
  {
    RouteSub(m, n);
    forall k | k in n ensures RvOk(k, n[k], ap, Retrust(d, key, trusted)) { assert RvOk(k, m[k], ap, d); }
  }

  lemma AtRetrust(m: Ats, n: Ats, d: Daemons, key: DaemonKey, trusted: set<string>)
    requires AtInv(m, d) && key in d && Sub(n, m)
    requires forall k ::
      k in n && n[k].daemonPeer == d[key].peer && n[k].appOwner.fingerprint in d[key].trusted ==>
      n[k].appOwner.fingerprint in trusted
    ensures AtInv(n, Retrust(d, key, trusted))
  {
    forall k | k in n ensures AtOk(k, n[k], Retrust(d, key, trusted)) { assert AtOk(k, m[k], d); }
  }

  lemma DiRetrust(m: Dis, n: Dis, d: Daemons, key: DaemonKey, trusted: set<string>)
    requires DiInv(m, d) && key in d && Sub(n, m)
    requires forall k ::
      k in n && n[k].daemonPeer == d[key].peer && n[k].androidFingerprint in d[key].trusted ==>
      n[k].androidFingerprint in trusted
    ensures DiInv(n, Retrust(d, key, trusted))
  {
    var e := Retrust(d, key, trusted);
    forall k | k in n ensures DiOk(k, n[k], e) {
      assert DiOk(k, m[k], d);
      forall j | j in e && e[j].peer == n[k].daemonPeer
        ensures Anchored(e, n[k].appOwner, n[k].daemonOwner, n[k].daemonDeviceId, n[k].daemonFingerprint,
          n[k].daemonPeer)
      {
        assert d[j].peer == n[k].daemonPeer;
      }
    }
  }

  lemma RevokeTrustedAnchors(s: State, deviceId: string, peer: DaemonPeer, fp: string)
    requires AnchorInv(s)
    ensures AnchorInv(RevokeTrusted(s, deviceId, peer, fp).0)
  {
    if DaemonOf(s, deviceId, peer).Some? {
      var key := DaemonOf(s, deviceId, peer).value;
      var trusted := s.daemons[key].trusted - {fp};
      assert DmOk(key, s.daemons[key]);
      DmRetrust(s.daemons, key, trusted);
      CoRetrust(s.correlations, s.daemons, key, trusted);
      RvRetrust(s.rendezvous, Keep(s.rendezvous, RvOfPeerClient(peer, fp)), s.apps, s.daemons, key, trusted);
      AtRetrust(s.tunnels.attempts, Keep(s.tunnels.attempts, AtOfPeerClient(peer, fp)), s.daemons, key, trusted);
      DiRetrust(s.direct, Keep(s.direct, DiOfPeerClient(peer, fp)), s.daemons, key, trusted);
    }
  }

  lemma CompletePairingAnchors(s: State, deviceId: string, peer: DaemonPeer, fp: string)
    requires AnchorInv(s)
    ensures AnchorInv(CompletePairing(s, deviceId, peer, fp).0)
  {
    if fp != "" && DaemonOf(s, deviceId, peer).Some? {
      var key := DaemonOf(s, deviceId, peer).value;
      var trusted := s.daemons[key].trusted + {fp};
      assert DmOk(key, s.daemons[key]);
      DmRetrust(s.daemons, key, trusted);
      CoRetrust(s.correlations, s.daemons, key, trusted);
      RvRetrust(s.rendezvous, s.rendezvous, s.apps, s.daemons, key, trusted);
      AtRetrust(s.tunnels.attempts, s.tunnels.attempts, s.daemons, key, trusted);
      DiRetrust(s.direct, s.direct, s.daemons, key, trusted);
    }
  }

  // ----- registering a daemon -----

  /** A connection no live daemon and no direct session is bound to. */
  ghost predicate Unbound(daemons: Daemons, direct: Dis, peer: DaemonPeer) {
    && (forall k :: k in daemons ==> daemons[k].peer != peer)
    && (forall k :: k in direct ==> direct[k].daemonPeer != peer)
  }

  lemma RvNewDaemon(rv: Rvs, ap: Apps, d: Daemons, key: DaemonKey, x: LiveDaemon)
    requires RvInv(rv, ap, d) && key !in d
    ensures RvInv(rv, ap, d[key := x])
  {
    forall k | k in rv ensures RvOk(k, rv[k], ap, d[key := x]) { assert RvOk(k, rv[k], ap, d); }
  }

  lemma AtNewDaemon(at: Ats, d: Daemons, key: DaemonKey, x: LiveDaemon)
    requires AtInv(at, d) && key !in d
    ensures AtInv(at, d[key := x])
  {
    forall k | k in at ensures AtOk(k, at[k], d[key := x]) { assert AtOk(k, at[k], d); }
  }

  lemma CoNewDaemon(co: Cos, d: Daemons, key: DaemonKey, x: LiveDaemon)
    requires CoInv(co, d) && key !in d
    ensures CoInv(co, d[key := x])
  {
    forall k | k in co ensures CoOk(k, co[k], d[key := x]) { assert CoOk(k, co[k], d); }
  }

  lemma DiNewDaemon(di: Dis, d: Daemons, key: DaemonKey, x: LiveDaemon)
    requires DiInv(di, d) && key !in d && Unbound(d, di, x.peer)
    ensures DiInv(di, d[key := x])
  {
    forall k | k in di ensures DiOk(k, di[k], d[key := x]) { assert DiOk(k, di[k], d); }
  }

  lemma AddDaemonAnchors(s: State, key: DaemonKey, d: LiveDaemon)
    requires AnchorInv(s) && key !in s.daemons && DmOk(key, d) && Unbound(s.daemons, s.direct, d.peer)
    ensures AnchorInv(s.(daemons := s.daemons[key := d]))
  {
    RvNewDaemon(s.rendezvous, s.apps, s.daemons, key, d);
    AtNewDaemon(s.tunnels.attempts, s.daemons, key, d);
    CoNewDaemon(s.correlations, s.daemons, key, d);
    DiNewDaemon(s.direct, s.daemons, key, d);
    DmNewDaemon(s.daemons, key, d);
  }

  lemma DmNewDaemon(d: Daemons, key: DaemonKey, x: LiveDaemon)
    requires DmInv(d) && key !in d && DmOk(key, x) && forall k :: k in d ==> d[k].peer != x.peer
    ensures DmInv(d[key := x])
  {
    var e := d[key := x];
    forall j, k | SamePeer(e, j, k) ensures j == k {
      if j != key && k != key { assert SamePeer(d, j, k); }
    }
  }

  /** Rebinding reported direct sessions to the freshly registered daemon. */
  lemma ReconcileAnchors(s: State, owner: DaemonOwner, info: DaemonInfo, trusted: set<string>, reported: seq<Report>,
                         peer: DaemonPeer, picks: seq<AttemptKey>)
    requires DiInv(s.direct, s.daemons) && |picks| == |reported|
    requires var key := DaemonKey(owner.userId, info.deviceId);
      key in s.daemons && s.daemons[key].peer == peer && s.daemons[key].owner == owner && s.daemons[key].info == info
        && s.daemons[key].trusted == trusted
    ensures DiInv(Reconcile(s, owner, info, trusted, reported, peer, picks).direct, s.daemons)
  {
    var n := Reconcile(s, owner, info, trusted, reported, peer, picks).direct;
    forall k | k in n ensures DiOk(k, n[k], s.daemons) {
      assert DiOk(k, s.direct[k], s.daemons);
      if n[k] != s.direct[k] {
        assert n[k] == Rebind(s.direct[k], info, peer);
        assert Anchored(s.daemons, n[k].appOwner, owner, n[k].daemonDeviceId, info.fingerprint, peer);
      }
    }
  }

  /** What a successful registration does, as three stages. */
  lemma RegisterDaemonShape(s: State, owner: DaemonOwner, info: DaemonInfo, listed: seq<string>, reported: seq<Report>,
                            peer: DaemonPeer, stillValid: bool, now: Time, picks: seq<AttemptKey>)
    requires |picks| == |reported| && forall k :: k in s.daemons ==> s.daemons[k].peer != peer
    ensures var (t, out) := RegisterDaemon(s, owner, info, listed, reported, peer, stillValid, now, picks);
      if out.ok then
        t == Reconcile(WithDaemon(s, owner, info, listed, peer, now), owner, info, TrustedSet(listed), reported, peer,
        picks)
                      && owner.agentTokenId !in s.revoked.agents
      else t == s && out == QUIET
  {
  }

  function Vacated(s: State, key: DaemonKey): State {
    if key in s.daemons then Supersede(s, key) else s
  }

  function WithDaemon(s: State, owner: DaemonOwner, info: DaemonInfo, listed: seq<string>, peer: DaemonPeer,
                      now: Time): State {
    var key := DaemonKey(owner.userId, info.deviceId);
    var s1 := Vacated(s, key);
    s1.(daemons := s1.daemons[key := LiveDaemon(info, owner, peer, TrustedSet(listed), now)])
  }

  lemma WithDaemonAnchors(s: State, owner: DaemonOwner, info: DaemonInfo, listed: seq<string>, peer: DaemonPeer,
                          now: Time)
    requires AnchorInv(s) && Unbound(s.daemons, s.direct, peer)
    ensures AnchorInv(WithDaemon(s, owner, info, listed, peer, now))
  {
    var key := DaemonKey(owner.userId, info.deviceId);
    if key in s.daemons { SupersedeAnchors(s, key); }
    AddDaemonAnchors(Vacated(s, key), key, LiveDaemon(info, owner, peer, TrustedSet(listed), now));
  }

  lemma RegisterDaemonAnchors(s: State, owner: DaemonOwner, info: DaemonInfo, listed: seq<string>,
                              reported: seq<Report>, peer: DaemonPeer, stillValid: bool, now: Time,
                              picks: seq<AttemptKey>)
    requires AnchorInv(s) && |picks| == |reported| && Unbound(s.daemons, s.direct, peer)
    ensures AnchorInv(RegisterDaemon(s, owner, info, listed, reported, peer, stillValid, now, picks).0)
  {
    RegisterDaemonShape(s, owner, info, listed, reported, peer, stillValid, now, picks);
    var s2 := WithDaemon(s, owner, info, listed, peer, now);
    WithDaemonAnchors(s, owner, info, listed, peer, now);
    ReconcileAnchors(s2, owner, info, TrustedSet(listed), reported, peer, picks);
  }

  lemma CoReserve(co: Cos, d: Daemons, c: Correlation, now: Time)
    requires CoInv(co, d) && CoOk(CorrelationKey(c.owner.userId, c.id), c, d)
    ensures CoInv(Keep(co, CoExpired(now)), d)
      && CoInv(Keep(co, CoExpired(now))[CorrelationKey(c.owner.userId, c.id) := c], d)
  {
  }

  lemma ReservePairingAnchors(s: State, deviceId: string, owner: DaemonOwner, peer: DaemonPeer, id: string, ttl: Time,
                              sweptAt: Time, now: Time)
    requires AnchorInv(s)
    ensures AnchorInv(ReservePairing(s, deviceId, owner, peer, id, ttl, sweptAt, now).0)
  {
    var (t, out) := ReservePairing(s, deviceId, owner, peer, id, ttl, sweptAt, now);
    if out.ok {
      CoReserve(s.correlations, s.daemons, t.correlations[CorrelationKey(owner.userId, id)], sweptAt);
    } else {
      CoSub(s.correlations, t.correlations, s.daemons);
    }
  }

  // ----- rendezvous, direct sessions, tunnels -----

  lemma RvPut(rv: Rvs, ap: Apps, d: Daemons, a: Rendezvous, swept: Time)
    requires RvInv(rv, ap, d) && OneRoute(rv) && RvOk(a.key, a, ap, d)
    ensures var n := Keep(Keep(rv, RvExpired(swept)), RvOfRoute(a.appOwner, a.daemonDeviceId))[a.key := a];
      RvInv(n, ap, d) && OneRoute(n)
  {
    var n := Keep(Keep(rv, RvExpired(swept)), RvOfRoute(a.appOwner, a.daemonDeviceId))[a.key := a];
    forall j, k | SameRoute(n, j, k) ensures j == k {
      if j != a.key && k != a.key { assert SameRoute(rv, j, k); }
    }
  }

  lemma OpenRendezvousAnchors(s: State, owner: AppOwner, peer: AppPeer, daemonId: string, attemptId: string,
                              candidatesValid: bool, ttl: Time, sweptAt: Time, now: Time)
    requires AnchorInv(s) && (peer in s.apps && SameApp(s.apps[peer].owner, owner) ==> s.apps[peer].owner == owner)
    ensures AnchorInv(OpenRendezvous(s, owner, peer, daemonId, attemptId, candidatesValid, ttl, sweptAt, now).0)
  {
    var (t, out) := OpenRendezvous(s, owner, peer, daemonId, attemptId, candidatesValid, ttl, sweptAt, now);
    if out.ok {
      assert DmOk(DaemonKey(owner.userId, daemonId), s.daemons[DaemonKey(owner.userId, daemonId)]);
      RvPut(s.rendezvous, s.apps, s.daemons, t.rendezvous[KeyOf(owner, daemonId, attemptId)], sweptAt);
    } else {
      RvSub(s.rendezvous, t.rendezvous, s.apps, s.daemons);
    }
  }

  lemma DiPut(di: Dis, d: Daemons, x: DirectSession)
    requires DiInv(di, d) && DiOk(x.key, x, d)
    ensures DiInv(di[x.key := x], d)
  {
  }

  /** The direct session made of a rendezvous attempt. */
  function Promote(a: Rendezvous): DirectSession {
    DirectSession(a.key, a.id, a.appOwner, a.daemonOwner, a.daemonDeviceId, a.daemonFingerprint, a.daemonPeer,
      a.appOwner.fingerprint)
  }

  lemma OpenDirectShape(s: State, owner: DaemonOwner, deviceId: string, peer: DaemonPeer, attemptId: string, fp: string,
                        sweptAt: Time, pick: AttemptKey)
    requires pick in s.rendezvous ==>
      pick == s.rendezvous[pick].key ==
      KeyOf(s.rendezvous[pick].appOwner, s.rendezvous[pick].daemonDeviceId, s.rendezvous[pick].id)
    ensures var (t, out) := OpenDirect(s, owner, deviceId, peer, attemptId, fp, sweptAt, pick);
      Sub(t.rendezvous, s.rendezvous) &&
      if out.ok then
        pick in s.rendezvous && pick !in s.tunnels.attempts && pick !in s.direct
        && !Revoked(s, s.rendezvous[pick].appOwner)
                     && t == s.(rendezvous := t.rendezvous, direct := s.direct[pick := Promote(s.rendezvous[pick])])
                     && out == DONE
      else t == s.(rendezvous := t.rendezvous) && out == QUIET
  {
  }

  lemma OpenDirectAnchors(s: State, owner: DaemonOwner, deviceId: string, peer: DaemonPeer, attemptId: string,
                          fp: string, sweptAt: Time, pick: AttemptKey)
    requires AnchorInv(s)
    ensures AnchorInv(OpenDirect(s, owner, deviceId, peer, attemptId, fp, sweptAt, pick).0)
  {
    assert pick in s.rendezvous ==> RvOk(pick, s.rendezvous[pick], s.apps, s.daemons);
    OpenDirectShape(s, owner, deviceId, peer, attemptId, fp, sweptAt, pick);
    var (t, out) := OpenDirect(s, owner, deviceId, peer, attemptId, fp, sweptAt, pick);
    RvSub(s.rendezvous, t.rendezvous, s.apps, s.daemons);
    if out.ok { DiPut(s.direct, s.daemons, Promote(s.rendezvous[pick])); }
  }

  lemma AtPut(at: Ats, d: Daemons, a: TunnelAttempt)
    requires AtInv(at, d) && AtOk(a.key, a, d)
    ensures AtInv(Keep(at, AtKeyed(a.key))[a.key := a], d)
  {
  }

  lemma GrantTunnelAnchors(s: State, owner: AppOwner, daemonId: string, attemptId: string, now: Time, expiresAt: Time,
                           minted: (Token, Token))
    requires AnchorInv(s) && Trusts(s, DaemonKey(owner.userId, daemonId), owner.fingerprint)
    ensures AnchorInv(GrantTunnel(s, owner, daemonId, attemptId, now, expiresAt, minted).0)
  {
    var live := s.daemons[DaemonKey(owner.userId, daemonId)];
    assert DmOk(DaemonKey(owner.userId, daemonId), live);
    RvSub(s.rendezvous, Keep(s.rendezvous, RvOfAttempt(owner, daemonId, attemptId)), s.apps, s.daemons);
    AtPut(s.tunnels.attempts, s.daemons, NewAttempt(live, owner, daemonId, attemptId, expiresAt, minted, s.nextSerial));
  }

  lemma DropAnchors(s: State, drop: TunnelAttempt -> bool)
    requires AnchorInv(s)
    ensures AnchorInv(DropAttempts(s, drop))
  {
    AtSub(s.tunnels.attempts, Keep(s.tunnels.attempts, drop), s.daemons);
  }

  lemma RequestSweptAnchors(s: State, owner: AppOwner, peer: Option<AppPeer>, daemonId: string, attemptId: string,
                            now: Time, expiresAt: Time, minted: Option<(Token, Token)>)
    requires AnchorInv(s)
    ensures AnchorInv(RequestSwept(s, owner, peer, daemonId, attemptId, now, expiresAt, minted).0)
  {
    if Eligible(s, owner, peer, daemonId, attemptId) && minted.Some? {
      var s1 := s.(tunnels := s.tunnels.(requests := PruneRequests(s.tunnels.requests, owner.userId, now)));
      GrantTunnelAnchors(s1, owner, daemonId, attemptId, now, expiresAt, minted.value);
    }
  }

  lemma RequestTunnelAnchors(s: State, owner: AppOwner, peer: Option<AppPeer>, daemonId: string, attemptId: string,
                             ttl: Time, sweptAt: Time, now: Time, later: Time, minted: Option<(Token, Token)>)
    requires AnchorInv(s)
    ensures AnchorInv(RequestTunnel(s, owner, peer, daemonId, attemptId, ttl, sweptAt, now, later, minted).0)
  {
    DropAnchors(s, AtExpired(sweptAt));
    RequestSweptAnchors(DropAttempts(s, AtExpired(sweptAt)), owner, peer, daemonId, attemptId, now,
      Expiry(later, ttl, DEFAULT_ATTEMPT_TTL), minted);
  }

  /** `b` is the attempt `a` with other flags or closers. */
  ghost predicate SameAttempt(a: TunnelAttempt, b: TunnelAttempt) {
    && a.key == b.key && a.id == b.id && a.appOwner == b.appOwner && a.serial == b.serial
    && a.daemonOwner == b.daemonOwner && a.daemonDeviceId == b.daemonDeviceId
      && a.daemonFingerprint == b.daemonFingerprint && a.daemonPeer == b.daemonPeer
    && a.appToken == b.appToken && a.daemonToken == b.daemonToken && a.expiresAt == b.expiresAt
  }

  ghost predicate Touched(m: Ats, n: Ats) {
    forall k :: k in n ==> k in m && SameAttempt(m[k], n[k])
  }

  lemma AtTouched(m: Ats, n: Ats, d: Daemons)
    requires AtInv(m, d) && Touched(m, n)
    ensures AtInv(n, d)
  {
    forall k | k in n ensures AtOk(k, n[k], d) { assert AtOk(k, m[k], d); }
  }

  /** Flags and closers of attempts do not matter for anchoring. */
  lemma TouchAnchors(s: State, t: State)
    requires AnchorInv(s) && t.apps == s.apps && t.daemons == s.daemons && t.rendezvous == s.rendezvous
      && t.direct == s.direct && t.correlations == s.correlations
    requires Touched(s.tunnels.attempts, t.tunnels.attempts)
    ensures AnchorInv(t)
  {
    AtTouched(s.tunnels.attempts, t.tunnels.attempts, s.daemons);
  }

  lemma RedeemSweptTouches(x: Tunnels, token: Token, now: Time)
    ensures Touched(x.attempts, RedeemSwept(x, token, now).0.attempts)
  {
    if token in x.tokens && x.tokens[token].key in x.attempts {
      var key := x.tokens[token].key;
      var b := MarkRedeemed(x.attempts[key], x.tokens[token].actor);
      assert SameAttempt(x.attempts[key], b);
      assert Touched(x.attempts, x.attempts[key := b]);
      assert Touched(x.attempts, Keep(x.attempts, AtKeyed(x.attempts[key].key)));
    }
  }

  lemma RedeemSweptAnchors(s: State, token: Token, now: Time)
    requires AnchorInv(s)
    ensures AnchorInv(s.(tunnels := RedeemSwept(s.tunnels, token, now).0))
  {
    RedeemSweptTouches(s.tunnels, token, now);
    TouchAnchors(s, s.(tunnels := RedeemSwept(s.tunnels, token, now).0));
  }
}
