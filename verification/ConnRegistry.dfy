/** The connectivity registry as the program keeps it: one object whose lock-held
    regions update its maps in place.  Every region is proved to compute the
    function that specifies it. */
module ConnRegistry {
  import opened Common
  import opened ConnModel
  import opened ConnInv
  import opened ConnAnchors
  import opened Passes
  import opened ConnPasses

  class Registry {
    var apps: map<AppPeer, LiveApp>
    var daemons: map<DaemonKey, LiveDaemon>
    var correlations: map<CorrelationKey, Correlation>
    var activeDirect: map<AttemptKey, DirectSession>
    var rendezvous: map<AttemptKey, Rendezvous>
    var rendezvousReqs: map<int, seq<Time>>
    var attempts: map<AttemptKey, TunnelAttempt>
    var tokens: map<Token, TunnelToken>
    var tunnelRequests: map<int, seq<Time>>
    var nextCloserId: nat
    var revokedApps: set<string>
    var revokedAgents: set<string>
    var userAppCutoff: map<int, Time>
    var nextSerial: nat

    ghost function Relay(): Tunnels
      reads this
    {
      Tunnels(attempts, tokens, tunnelRequests, nextCloserId)
    }

    ghost function Cuts(): Revocations
      reads this
    {
      Revocations(revokedApps, revokedAgents, userAppCutoff)
    }

    ghost function Abs(): State
      reads this
    {
      State(apps, daemons, correlations, activeDirect, rendezvous, rendezvousReqs, Relay(),
            Cuts(), nextSerial)
    }

    ghost predicate Valid()
      reads this
    {
      AnchorInv(Abs())
    }

    constructor ()
      ensures Valid() && Abs() == EMPTY
    {
      apps, daemons, correlations, activeDirect, rendezvous, rendezvousReqs := map[], map[], map[], map[], map[], map[];
      attempts, tokens, tunnelRequests, nextCloserId := map[], map[], map[], 0;
      revokedApps, revokedAgents, userAppCutoff, nextSerial := {}, {}, map[], 0;
    }

    // ----- passes over the maps -----

    method RemoveRendezvous(drop: Rendezvous -> bool) returns (notes: set<DaemonNote>)
      modifies this`rendezvous
      ensures rendezvous == Keep(old(rendezvous), drop) && notes == RvNotes(Taken(old(rendezvous), drop))
    {
      var gone;
      rendezvous, gone := Purge(rendezvous, drop);
      notes := RvNotes(gone);
    }

    method RemoveActiveDirect(drop: DirectSession -> bool) returns (notes: set<DaemonNote>)
      modifies this`activeDirect
      ensures activeDirect == Keep(old(activeDirect), drop) && notes == DiNotes(Taken(old(activeDirect), drop))
    {
      var gone;
      activeDirect, gone := Purge(activeDirect, drop);
      notes := DiNotes(gone);
    }

    method RemoveCorrelations(drop: Correlation -> bool)
      modifies this`correlations
      ensures correlations == Keep(old(correlations), drop)
    {
      var gone;
      correlations, gone := Purge(correlations, drop);
    }

    /** Removing one attempt, its tokens, and taking its closers. */
    method RemoveAttempt(k: AttemptKey) returns (run: multiset<Closer>)
      requires k in attempts && attempts[k].key == k
      modifies this`attempts, this`tokens
      ensures attempts == old(attempts) - {k}
        && tokens == old(tokens) - {old(attempts)[k].appToken, old(attempts)[k].daemonToken}
      ensures run == ClosersOf(old(attempts)[k])
    {
      var a := attempts[k];
      attempts := attempts - {a.key};
      tokens := tokens - {a.appToken};
      tokens := tokens - {a.daemonToken};
      run := CollectClosers(a.closers);
    }

    /** The pass that removes attempts, their tokens, and takes their closers. */
    method RemoveAttempts(drop: TunnelAttempt -> bool) returns (run: multiset<Closer>)
      requires OwnKeys(attempts)
      modifies this`attempts, this`tokens
      ensures Relay() == DropFrom(old(Relay()), drop) && run == Freed(old(Relay()), drop)
    {
      run := multiset{};
      ghost var was, wasTokens := attempts, tokens;
      var todo := attempts.Keys;
      PassStartEnd(was, drop);
      NothingHeld(PassGone(was, todo, drop));
      assert wasTokens - {} == wasTokens;
      while todo != {}
        invariant todo <= was.Keys && attempts == PassKept(was, todo, drop)
        invariant tokens == wasTokens - TokensOf(PassGone(was, todo, drop))
        invariant run == Held(PassGone(was, todo, drop))
      {
        var k :| k in todo;
        PassStep(was, todo, drop, k);
        if drop(attempts[k]) {
          TokensOfPut(PassGone(was, todo, drop), k, was[k]);
          GatherPut(PassGone(was, todo, drop), ClosersOf, k, was[k]);
          MinusTwice(wasTokens, TokensOf(PassGone(was, todo, drop)), {was[k].appToken, was[k].daemonToken});
          var more := RemoveAttempt(k);
          run := more + run;
        }
        todo := todo - {k};
      }
    }
  
    // ----- apps and daemons -----

    method RegisterApp(owner: AppOwner, peer: AppPeer, stillValid: bool, now: Time)
      returns (visible: set<DaemonKey>, out: Outcome)
      requires Valid() && peer !in apps
      modifies this`apps
      ensures Valid() && (Abs(), out) == ConnModel.RegisterApp(old(Abs()), owner, peer, stillValid, now)
      ensures out.ok ==> visible == VisibleDaemons(Abs(), owner)
    {
      RegisterAppAnchors(Abs(), owner, peer, stillValid, now);
      if !stillValid || IsRevoked(owner) { return {}, QUIET; }
      apps := apps[peer := LiveApp(owner, peer, now)];
      visible :=
        set k | k in daemons && daemons[k].owner.userId == owner.userId && owner.fingerprint in daemons[k].trusted;
      out := DONE;
    }

    predicate IsRevoked(owner: AppOwner)
      reads this`revokedApps, this`userAppCutoff
    {
      || owner.sessionId in revokedApps
      || (owner.userId in userAppCutoff
        && (owner.createdAt == ZERO_TIME || owner.createdAt <= userAppCutoff[owner.userId]))
    }

    predicate IsPeerActive(owner: AppOwner, peer: AppPeer)
      reads this`apps, this`revokedApps, this`userAppCutoff
    {
      peer in apps && SameApp(apps[peer].owner, owner) && !IsRevoked(apps[peer].owner)
    }

    method DisconnectApp(peer: AppPeer) returns (out: Outcome)
      requires Valid()
      modifies this`apps, this`rendezvous
      ensures Valid() && (Abs(), out) == ConnModel.DisconnectApp(old(Abs()), peer)
    {
      DisconnectAppAnchors(Abs(), peer);
      if peer !in apps { return QUIET; }
      var app := apps[peer];
      apps := apps - {peer};
      var notes := RemoveRendezvous(RvOfApp(peer, app.owner));
      out := DONE.(toDaemons := notes);
    }

    /** The pass over live daemons for one device and connection. */
    method DaemonByDevicePeer(deviceId: string, peer: DaemonPeer) returns (found: Option<DaemonKey>)
      requires DmInv(daemons)
      ensures found == DaemonOf(Abs(), deviceId, peer)
    {
      found := Find(daemons, (d: LiveDaemon) => ServesDevice(d, deviceId, peer));
      var spec := DaemonOf(Abs(), deviceId, peer);
      assert found.Some? && spec.Some? ==> SamePeer(daemons, found.value, spec.value);
    }

    /** Taking a live daemon out with everything bound to its connection. */
    method RemoveDaemon(key: DaemonKey) returns (notes: set<DaemonNote>, run: multiset<Closer>)
      requires key in daemons && OwnKeys(attempts)
      modifies this`daemons, this`correlations, this`rendezvous, this`attempts, this`tokens
      ensures Abs() == Supersede(old(Abs()), key)
      ensures notes == RvNotes(Taken(old(rendezvous), RvOfPeers({old(daemons)[key].peer})))
      ensures run == Freed(old(Relay()), AtOfPeers({old(daemons)[key].peer}))
    {
      var peer := daemons[key].peer;
      daemons := daemons - {key};
      RemoveCorrelations(CoOfDaemon(key, peer));
      notes := RemoveRendezvous(RvOfPeers({peer}));
      run := RemoveAttempts(AtOfPeers({peer}));
    }

    method DisconnectDaemon(deviceId: string, peer: DaemonPeer) returns (out: Outcome)
      requires Valid()
      modifies this`daemons, this`correlations, this`rendezvous, this`attempts, this`tokens
      ensures Valid() && (Abs(), out) == ConnModel.DisconnectDaemon(old(Abs()), deviceId, peer)
    {
      var found := DaemonByDevicePeer(deviceId, peer);
      if found.None? { return QUIET; }
      SupersedeAnchors(Abs(), found.value);
      var live := daemons[found.value];
      var notes, run := RemoveDaemon(found.value);
      var told :=
        Tell(AppsTrusted(apps, live.owner.userId, live.trusted), live.owner.userId,
        Removed(live.info.deviceId, live.info.fingerprint));
      out := DONE.(toApps := told, toDaemons := notes, fx := Ran(run));
    }
  
    /** Handling one report: rebind the record it names, or queue a close frame; a blank report is skipped. */
    method AnswerReport(owner: DaemonOwner, info: DaemonInfo, trusted: set<string>, r: Report, peer: DaemonPeer)
      returns (notes: set<DaemonNote>, ghost found: Option<AttemptKey>)
      modifies this`activeDirect
      ensures FindsFor(old(activeDirect), owner, info.deviceId, r, found)
      ensures activeDirect == AfterReport(old(activeDirect), Cuts(), trusted, r, found, info, peer)
      ensures notes == NotesForReport(old(activeDirect), Cuts(), trusted, r, found, owner, info, peer)
    {
      var active := Find(activeDirect, DiNamed(owner, info.deviceId, r));
      found, notes := active, {};
      if r.attemptId == "" || r.fingerprint == "" { return; }
      if active.None? || IsRevoked(activeDirect[active.value].appOwner) || r.fingerprint !in trusted {
        notes := {DaemonNote(peer, owner.userId, DirectClose(r.attemptId, info.deviceId, r.fingerprint))};
      } else {
        activeDirect := activeDirect[active.value := Rebind(activeDirect[active.value], info, peer)];
      }
    }

    /** The loop over the reports: rebind or queue a close frame for each, and remember those that are not blank. */
    method RebindAll(owner: DaemonOwner, info: DaemonInfo, trusted: set<string>, reported: seq<Report>,
                     peer: DaemonPeer)
      returns (notes: set<DaemonNote>, reportedKeys: seq<Report>, ghost picks: seq<AttemptKey>)
      modifies this`activeDirect
      ensures GoodPicks(old(Abs()), owner, info, reported, picks) && reportedKeys == NonBlank(reported)
      ensures activeDirect == RebindReported(old(Abs()), owner, info, trusted, reported, peer, picks, |reported|)
      ensures notes == ReportNotes(old(Abs()), owner, info, trusted, reported, peer, picks, |reported|)
    {
      notes, reportedKeys, picks := {}, [], [];
      ghost var s := Abs();
      ghost var done: seq<Report> := [];
      RebindNone(s, owner, info, trusted, peer);
      for i := 0 to |reported|
        invariant done == reported[..i] && reportedKeys == NonBlank(done)
        invariant Answered(s, owner, info, trusted, done, peer, picks, activeDirect, notes)
      {
        var r := reported[i];
        NonBlankSnoc(done, r);
        ghost var m := activeDirect;
        var more; ghost var found;
        more, found := AnswerReport(owner, info, trusted, r, peer);
        ReportStep(s, owner, info, trusted, done, peer, picks, r, found, m, notes);
        if r.attemptId != "" && r.fingerprint != "" { reportedKeys := reportedKeys + [r]; }
        done, picks, notes := done + [r], picks + [PickOf(found)], notes + more;
      }
      assert done == reported;
    }

    /** Rebinding the reported direct sessions, then deleting those that were not reported. */
    method Reconcile(owner: DaemonOwner, info: DaemonInfo, trusted: set<string>, reported: seq<Report>,
                     peer: DaemonPeer)
      returns (notes: set<DaemonNote>, ghost picks: seq<AttemptKey>)
      modifies this`activeDirect
      ensures GoodPicks(old(Abs()), owner, info, reported, picks)
      ensures Abs() == ConnModel.Reconcile(old(Abs()), owner, info, trusted, reported, peer, picks)
      ensures notes == ReportNotes(old(Abs()), owner, info, trusted, reported, peer, picks, |reported|)
    {
      var reportedKeys;
      notes, reportedKeys, picks := RebindAll(owner, info, trusted, reported, peer);
      var gone;
      activeDirect, gone := Purge(activeDirect, DiUnreported(owner, info.deviceId, reportedKeys));
    }

    /** Registering a daemon over an older connection, with its reported direct sessions. */
    method RegisterDaemon(owner: DaemonOwner, info: DaemonInfo, listed: seq<string>, reported: seq<Report>,
                          peer: DaemonPeer, stillValid: bool, now: Time)
      returns (out: Outcome, ghost picks: seq<AttemptKey>)
      requires Valid() && Unbound(daemons, activeDirect, peer)
      modifies this`daemons, this`correlations, this`rendezvous, this`attempts, this`tokens, this`activeDirect
      ensures Valid() && |picks| == |reported| && (out.ok ==> GoodPicks(old(Abs()), owner, info, reported, picks))
      ensures (Abs(), out) ==
        ConnModel.RegisterDaemon(old(Abs()), owner, info, listed, reported, peer, stillValid, now, picks)
    {
      picks := seq(|reported|, i => NO_KEY);
      if !stillValid || owner.agentTokenId in revokedAgents { return QUIET, picks; }
      var trusted := TrustedSet(listed);
      var key := DaemonKey(owner.userId, info.deviceId);
      var prior := if key in daemons then Some(daemons[key]) else None;
      var notes, run := {}, multiset{};
      WithDaemonAnchors(Abs(), owner, info, listed, peer, now);
      if prior.Some? && prior.value.peer != peer { notes, run := RemoveDaemon(key); }
      daemons := daemons[key := LiveDaemon(info, owner, peer, trusted, now)];
      assert Abs() == WithDaemon(old(Abs()), owner, info, listed, peer, now);
      ghost var s := Abs();
      var closes;
      closes, picks := Reconcile(owner, info, trusted, reported, peer);
      ReconcileAnchors(s, owner, info, trusted, reported, peer, picks);
      var upserts := Tell(AppsTrusted(apps, owner.userId, trusted), owner.userId, Visible(info));
      if prior.Some? && prior.value.peer != peer {
        var was := prior.value;
        var lost :=
          Tell(AppsTrusted(apps, was.owner.userId, was.trusted - trusted), was.owner.userId,
          Removed(was.info.deviceId, was.info.fingerprint));
        out := DONE.(toApps := upserts + lost, toDaemons := closes + notes, fx := Ran(run));
      } else {
        out := DONE.(toApps := upserts, toDaemons := closes);
      }
    }
  
    // ----- trust and pairing -----

    /** Removing attempts of every kind. */
    method RemoveBound(rv: Rendezvous -> bool, di: DirectSession -> bool, at: TunnelAttempt -> bool)
      returns (notes: set<DaemonNote>, run: multiset<Closer>)
      requires OwnKeys(attempts)
      modifies this`rendezvous, this`attempts, this`tokens, this`activeDirect
      ensures Abs() ==
        DropAttempts(old(Abs()).(rendezvous := Keep(old(rendezvous), rv), direct := Keep(old(activeDirect), di)), at)
      ensures notes == RvNotes(Taken(old(rendezvous), rv)) + DiNotes(Taken(old(activeDirect), di))
      ensures run == Freed(old(Relay()), at)
    {
      var some := RemoveRendezvous(rv);
      var more := RemoveActiveDirect(di);
      run := RemoveAttempts(at);
      notes := some + more;
    }

    method Untrust(key: DaemonKey, fp: string) returns (notes: set<DaemonNote>, run: multiset<Closer>)
      requires key in daemons && OwnKeys(attempts)
      modifies this`daemons, this`rendezvous, this`attempts, this`tokens, this`activeDirect
      ensures var peer, live, s := old(daemons)[key].peer, old(daemons)[key], old(Abs());
        && Abs() == DropAttempts(s.(daemons := s.daemons[key := live.(trusted := live.trusted - {fp})],
             rendezvous := Keep(s.rendezvous, RvOfPeerClient(peer, fp)), direct :=
               Keep(s.direct, DiOfPeerClient(peer, fp))), AtOfPeerClient(peer, fp))
        && notes ==
          RvNotes(Taken(s.rendezvous, RvOfPeerClient(peer, fp))) + DiNotes(Taken(s.direct, DiOfPeerClient(peer, fp)))
        && run == Freed(s.tunnels, AtOfPeerClient(peer, fp))
    {
      var live := daemons[key];
      daemons := daemons[key := live.(trusted := live.trusted - {fp})];
      notes, run :=
        RemoveBound(RvOfPeerClient(live.peer, fp), DiOfPeerClient(live.peer, fp), AtOfPeerClient(live.peer, fp));
    }

    method RevokeTrusted(deviceId: string, peer: DaemonPeer, fp: string) returns (out: Outcome)
      requires Valid()
      modifies this`daemons, this`rendezvous, this`attempts, this`tokens, this`activeDirect
      ensures Valid() && (Abs(), out) == ConnModel.RevokeTrusted(old(Abs()), deviceId, peer, fp)
    {
      RevokeTrustedAnchors(Abs(), deviceId, peer, fp);
      var found := DaemonByDevicePeer(deviceId, peer);
      if found.None? { return QUIET; }
      var live := daemons[found.value];
      var notes, run := Untrust(found.value, fp);
      var told :=
        Tell(AppsTrusted(apps, live.owner.userId, {fp}), live.owner.userId,
        ClientRevoked(live.info.deviceId, live.info.fingerprint));
      out := DONE.(toApps := told, toDaemons := notes, fx := Ran(run));
    }

    method CompletePairing(deviceId: string, peer: DaemonPeer, fp: string) returns (out: Outcome)
      requires Valid()
      modifies this`daemons
      ensures Valid() && (Abs(), out) == ConnModel.CompletePairing(old(Abs()), deviceId, peer, fp)
    {
      CompletePairingAnchors(Abs(), deviceId, peer, fp);
      if fp == "" { return QUIET; }
      var found := DaemonByDevicePeer(deviceId, peer);
      if found.None? { return QUIET; }
      var live := daemons[found.value];
      daemons := daemons[found.value := live.(trusted := live.trusted + {fp})];
      out := DONE.(toApps := Tell(AppsTrusted(apps, live.owner.userId, {fp}), live.owner.userId, Visible(live.info)));
    }

    method ReservePairing(deviceId: string, owner: DaemonOwner, peer: DaemonPeer, id: string, ttl: Time, sweptAt: Time,
                          now: Time) returns (out: Outcome)
      requires Valid()
      modifies this`correlations
      ensures Valid()
        && (Abs(), out) == ConnModel.ReservePairing(old(Abs()), deviceId, owner, peer, id, ttl, sweptAt, now)
    {
      out := Reserve(deviceId, owner, peer, id, ttl, sweptAt, now);
      ReservePairingAnchors(old(Abs()), deviceId, owner, peer, id, ttl, sweptAt, now);
    }

    method Reserve(deviceId: string, owner: DaemonOwner, peer: DaemonPeer, id: string, ttl: Time, sweptAt: Time,
                   now: Time) returns (out: Outcome)
      modifies this`correlations
      ensures (Abs(), out) == ConnModel.ReservePairing(old(Abs()), deviceId, owner, peer, id, ttl, sweptAt, now)
    {
      if id == "" { return QUIET; }
      RemoveCorrelations(CoExpired(sweptAt));
      var key := DaemonKey(owner.userId, deviceId);
      if key !in daemons || daemons[key].owner != owner || daemons[key].peer != peer { return QUIET; }
      correlations :=
        correlations[CorrelationKey(owner.userId, id) :=
        Correlation(id, owner, key, peer, Expiry(now, ttl, DEFAULT_PAIRING_TTL))];
      out := DONE;
    }

    /** The first region of forwarding a pairing response. */
    method LookupPairing(user: int, appPeer: Option<AppPeer>, owner: AppOwner, id: string, now: Time)
      returns (out: Outcome)
      requires Valid()
      modifies this`correlations
      ensures Valid() && (Abs(), out) == ConnModel.LookupPairing(old(Abs()), user, appPeer, owner, id, now)
    {
      var key := CorrelationKey(user, id);
      CoSub(correlations, correlations - {key}, daemons);
      if owner.sessionId != "" && IsRevoked(owner) { return QUIET; }
      if appPeer.Some? && !IsPeerActive(owner, appPeer.value) { return QUIET; }
      if key !in correlations { return QUIET; }
      if correlations[key].expiresAt <= now {
        correlations := correlations - {key};
        return QUIET;
      }
      out := DONE.(toDaemons := {DaemonNote(correlations[key].peer, user, PairResponse)});
    }

    /** The second region, once the response was sent. */
    method FinishPairing(user: int, id: string, peer: DaemonPeer) returns (out: Outcome)
      requires Valid()
      modifies this`correlations
      ensures Valid() && (Abs(), out) == ConnModel.FinishPairing(old(Abs()), user, id, peer)
    {
      var key := CorrelationKey(user, id);
      CoSub(correlations, correlations - {key}, daemons);
      if key in correlations && correlations[key].peer == peer && correlations[key].owner.userId == user {
        correlations := correlations - {key};
        return DONE;
      }
      out := QUIET;
    }

    // ----- disconnect orders -----

    method DisconnectAppSession(sid: string) returns (out: Outcome)
      requires Valid()
      modifies this`revokedApps, this`apps, this`rendezvous, this`attempts, this`tokens, this`activeDirect
      ensures Valid() && (Abs(), out) == ConnModel.DisconnectAppSession(old(Abs()), sid)
    {
      out := CutSession(sid);
      DisconnectAppSessionAnchors(old(Abs()), sid);
    }

    method CutSession(sid: string) returns (out: Outcome)
      requires OwnKeys(attempts)
      modifies this`revokedApps, this`apps, this`rendezvous, this`attempts, this`tokens, this`activeDirect
      ensures (Abs(), out) == ConnModel.DisconnectAppSession(old(Abs()), sid)
    {
      revokedApps := revokedApps + {sid};
      var gone;
      apps, gone := Purge(apps, ApOfSession(sid));
      var notes, run := RemoveBound(RvOfSession(sid), DiOfSession(sid), AtOfSession(sid));
      out := DONE.(toDaemons := notes, fx := Ran(run));
    }

    /** Taking everything but the tunnels of one daemon connection out. */
    method Detach(k: DaemonKey, peer: DaemonPeer, closed: set<DaemonNote>, ended: set<DaemonNote>) returns (b: Bindings)
      modifies this`correlations, this`rendezvous, this`activeDirect
      ensures DetachedOne(Bindings(old(correlations), old(rendezvous), old(activeDirect), closed, ended), k, peer, b)
      ensures b.co == correlations && b.rv == rendezvous && b.di == activeDirect
    {
      RemoveCorrelations(CoOfDaemon(k, peer));
      var some := RemoveRendezvous(RvOfPeers({peer}));
      var others := RemoveActiveDirect(DiOfPeers({peer}));
      b := Bindings(correlations, rendezvous, activeDirect, closed + some, ended + others);
    }

    /** The pass over live daemons that takes some out, with everything but the tunnels bound to their connections. */
    method RemoveDaemons(drop: LiveDaemon -> bool) returns (closed: set<DaemonNote>, ended: set<DaemonNote>)
      modifies this`daemons, this`correlations, this`rendezvous, this`activeDirect
      ensures daemons == Keep(old(daemons), drop)
      ensures Detached(Bindings(old(correlations), old(rendezvous), old(activeDirect), {}, {}),
        Taken(old(daemons), drop),
                       Bindings(correlations, rendezvous, activeDirect, closed, ended))
    {
      var b := Bindings(correlations, rendezvous, activeDirect, {}, {});
      ghost var was, a := daemons, b;
      var todo := daemons.Keys;
      PassStartEnd(was, drop);
      NothingDetached(a, PassGone(was, todo, drop));
      while todo != {}
        invariant todo <= was.Keys && daemons == PassKept(was, todo, drop)
        invariant b.co == correlations && b.rv == rendezvous && b.di == activeDirect
        invariant Detached(a, PassGone(was, todo, drop), b)
      {
        var k :| k in todo;
        PassStep(was, todo, drop, k);
        var live := daemons[k];
        if drop(live) {
          daemons := daemons - {k};
          ghost var before := b;
          b := Detach(k, live.peer, b.closed, b.ended);
          DetachStep(was, todo, drop, k, a, before, b);
        }
        todo := todo - {k};
      }
      closed, ended := b.closed, b.ended;
    }
  
    /** Taking out the daemons `drop` selects and every attempt an order names. */
    method RemoveOrdered(drop: LiveDaemon -> bool, rv: Rendezvous -> bool, di: DirectSession -> bool,
                         at: TunnelAttempt -> bool, ghost allRv: Rendezvous -> bool, ghost allDi: DirectSession -> bool)
      returns (notes: set<DaemonNote>, run: multiset<Closer>)
      requires OwnKeys(attempts)
      requires forall v :: allRv(v) <==> RvOfPeers(Peers(Taken(daemons, drop)))(v) || rv(v)
      requires forall v :: allDi(v) <==> DiOfPeers(Peers(Taken(daemons, drop)))(v) || di(v)
      modifies this`daemons, this`correlations, this`rendezvous, this`attempts, this`tokens, this`activeDirect
      ensures var s := old(Abs());
        Abs() ==
          DropAttempts(s.(daemons := Keep(s.daemons, drop),
          correlations := Keep(s.correlations, CoOfDaemons(Taken(s.daemons, drop))),
                                 rendezvous := Keep(s.rendezvous, allRv), direct := Keep(s.direct, allDi)), at)
      ensures notes == RvNotes(Taken(old(rendezvous), allRv)) + DiNotes(Taken(old(activeDirect), allDi))
      ensures run == Freed(old(Relay()), at)
    {
      ghost var a, gone := Bindings(correlations, rendezvous, activeDirect, {}, {}), Taken(daemons, drop);
      var closed, ended := RemoveDaemons(drop);
      ghost var b := Bindings(correlations, rendezvous, activeDirect, closed, ended);
      DetachThen(a, gone, b, rv, allRv, di, allDi);
      var more;
      more, run := RemoveBound(rv, di, at);
      notes := closed + ended + more;
    }

    /** Cutting an account's app sessions off. */
    method CutApps(user: int, now: Time)
      modifies this`userAppCutoff, this`revokedApps, this`apps
      ensures apps == Keep(old(apps), ApOfUser(user))
      ensures Cuts() ==
        old(Cuts()).(cutoffs := old(userAppCutoff)[user := now], apps := old(revokedApps)
        + SessionsOf(Taken(old(apps), ApOfUser(user))))
    {
      userAppCutoff := userAppCutoff[user := now];
      var gone;
      apps, gone := Purge(apps, ApOfUser(user));
      revokedApps := revokedApps + SessionsOf(gone);
    }

    method DisconnectUser(user: int, now: Time) returns (out: Outcome)
      requires Valid()
      modifies this`userAppCutoff, this`revokedApps, this`apps, this`daemons, this`correlations, this`rendezvous,
        this`attempts, this`tokens, this`activeDirect
      ensures Valid() && (Abs(), out) == ConnModel.DisconnectUser(old(Abs()), user, now)
    {
      DisconnectUserAnchors(Abs(), user, now);
      ghost var peers := Peers(Taken(daemons, DmOfUser(user)));
      CutApps(user, now);
      var notes, run :=
        RemoveOrdered(DmOfUser(user), RvByUser(user), DiByUser(user), AtOfUser(user), RvOfUser(user, peers),
        DiOfUser(user, peers));
      out := DONE.(toDaemons := notes, fx := Ran(run));
    }

    method DisconnectAgentToken(token: string) returns (out: Outcome)
      requires Valid()
      modifies this`revokedAgents, this`daemons, this`correlations, this`rendezvous, this`attempts, this`tokens,
        this`activeDirect
      ensures Valid() && (Abs(), out) == ConnModel.DisconnectAgentToken(old(Abs()), token)
    {
      DisconnectAgentTokenAnchors(Abs(), token);
      ghost var peers := Peers(Taken(daemons, DmOfAgent(token)));
      revokedAgents := revokedAgents + {token};
      var notes, run :=
        RemoveOrdered(DmOfAgent(token), RvByAgent(token), DiByAgent(token), AtOfAgent(token), RvOfAgent(token, peers),
        DiOfAgent(token, peers));
      out := DONE.(toDaemons := notes, fx := Ran(run));
    }
  
    // ----- rendezvous -----

    method SweepRendezvous(now: Time)
      modifies this`rendezvous
      ensures rendezvous == Keep(old(rendezvous), RvExpired(now))
    {
      var notes := RemoveRendezvous(RvExpired(now));
    }

    method OpenRendezvous(owner: AppOwner, peer: AppPeer, daemonId: string, attemptId: string, candidatesValid: bool,
                          ttl: Time, sweptAt: Time, now: Time)
      returns (out: Outcome)
      requires Valid() && (peer in apps && SameApp(apps[peer].owner, owner) ==> apps[peer].owner == owner)
      modifies this`rendezvous, this`rendezvousReqs, this`nextSerial
      ensures Valid()
        && (Abs(), out) ==
        ConnModel.OpenRendezvous(old(Abs()), owner, peer, daemonId, attemptId, candidatesValid, ttl, sweptAt, now)
    {
      out := Meet(owner, peer, daemonId, attemptId, candidatesValid, ttl, sweptAt, now);
      OpenRendezvousAnchors(old(Abs()), owner, peer, daemonId, attemptId, candidatesValid, ttl, sweptAt, now);
    }

    method Meet(owner: AppOwner, peer: AppPeer, daemonId: string, attemptId: string, candidatesValid: bool, ttl: Time,
                sweptAt: Time, now: Time)
      returns (out: Outcome)
      modifies this`rendezvous, this`rendezvousReqs, this`nextSerial
      ensures (Abs(), out) ==
        ConnModel.OpenRendezvous(old(Abs()), owner, peer, daemonId, attemptId, candidatesValid, ttl, sweptAt, now)
    {
      if owner.fingerprint == "" || daemonId == "" || attemptId == "" || !candidatesValid { return QUIET; }
      SweepRendezvous(sweptAt);
      out := MeetSwept(owner, peer, daemonId, attemptId, now, Expiry(now, ttl, DEFAULT_ATTEMPT_TTL));
    }

    /** Opening a rendezvous once expired ones were swept. */
    method MeetSwept(owner: AppOwner, peer: AppPeer, daemonId: string, attemptId: string, now: Time, expiresAt: Time)
      returns (out: Outcome)
      modifies this`rendezvous, this`rendezvousReqs, this`nextSerial
      ensures (Abs(), out) == OpenSwept(old(Abs()), owner, peer, daemonId, attemptId, now, expiresAt)
    {
      if !IsPeerActive(owner, peer) { return QUIET; }
      var dk := DaemonKey(owner.userId, daemonId);
      if dk !in daemons || owner.fingerprint !in daemons[dk].trusted { return QUIET; }
      var allowed := AllowRendezvous(owner.userId, now);
      if !allowed { return QUIET; }
      out := GrantMeeting(owner, peer, daemonId, attemptId, now, expiresAt);
    }

    method GrantMeeting(owner: AppOwner, peer: AppPeer, daemonId: string, attemptId: string, now: Time, expiresAt: Time)
      returns (out: Outcome)
      requires DaemonKey(owner.userId, daemonId) in daemons
      modifies this`rendezvous, this`rendezvousReqs, this`nextSerial
      ensures (Abs(), out) == GrantRendezvous(old(Abs()), owner, peer, daemonId, attemptId, now, expiresAt)
    {
      var dk := DaemonKey(owner.userId, daemonId);
      rendezvousReqs := RecordedRequest(rendezvousReqs, owner.userId, now);
      var notes := PutRendezvous(owner, peer, daemonId, attemptId, daemons[dk], expiresAt);
      out := DONE.(rendezvousAt := Some((owner.userId, now)), toDaemons := notes
        + {DaemonNote(daemons[dk].peer, owner.userId, ClientHint(attemptId, owner.fingerprint))});
    }

    method AllowRendezvous(user: int, now: Time) returns (allowed: bool)
      modifies this`rendezvousReqs
      ensures rendezvousReqs == PruneRequests(old(rendezvousReqs), user, now)
        && allowed == (|Listed(rendezvousReqs, user)| < REQUEST_LIMIT)
    {
      var recent;
      rendezvousReqs, recent := RecentRequests(rendezvousReqs, user, now);
      allowed := |recent| < REQUEST_LIMIT;
    }

    /** Replacing the rendezvous of an app session with a daemon. */
    method PutRendezvous(owner: AppOwner, peer: AppPeer, daemonId: string, attemptId: string, live: LiveDaemon,
                         expiresAt: Time) returns (notes: set<DaemonNote>)
      modifies this`rendezvous, this`nextSerial
      ensures var key := KeyOf(owner, daemonId, attemptId);
        rendezvous == Keep(old(rendezvous), RvOfRoute(owner, daemonId))[key :=
          Rendezvous(key, attemptId, owner, peer, live.owner, live.info.deviceId, live.info.fingerprint, live.peer,
            expiresAt, old(nextSerial))]
      ensures nextSerial == old(nextSerial) + 1 && notes == RvNotes(Taken(old(rendezvous), RvOfRoute(owner, daemonId)))
    {
      var key := KeyOf(owner, daemonId, attemptId);
      notes := RemoveRendezvous(RvOfRoute(owner, daemonId));
      rendezvous := rendezvous[key :=
        Rendezvous(key, attemptId, owner, peer, live.owner, live.info.deviceId, live.info.fingerprint, live.peer,
          expiresAt, nextSerial)];
      nextSerial := nextSerial + 1;
    }

    /** Deleting one rendezvous attempt that is found by key. */
    method ForgetRendezvous(key: AttemptKey, ghost drop: Rendezvous -> bool)
      requires key in rendezvous && forall k :: k in rendezvous ==> (drop(rendezvous[k]) <==> k == key)
      modifies this`rendezvous
      ensures rendezvous == Keep(old(rendezvous), drop)
    {
      rendezvous := rendezvous - {key};
    }

    method AbandonRendezvous(key: AttemptKey, serial: nat) returns (out: Outcome)
      requires Valid()
      modifies this`rendezvous
      ensures Valid() && (Abs(), out) == ConnModel.AbandonRendezvous(old(Abs()), key, serial)
    {
      PruneAnchors(Abs(), ConnModel.AbandonRendezvous(Abs(), key, serial).0);
      if key in rendezvous && rendezvous[key].serial == serial {
        ForgetRendezvous(key, RvSerial(key, serial));
      } else {
        assert Keep(rendezvous, RvSerial(key, serial)) == rendezvous;
      }
      out := QUIET;
    }

    method RendezvousTimer(key: AttemptKey, now: Time) returns (out: Outcome)
      requires Valid()
      modifies this`rendezvous
      ensures Valid() && (Abs(), out) == ConnModel.RendezvousTimer(old(Abs()), key, now)
    {
      PruneAnchors(Abs(), ConnModel.RendezvousTimer(Abs(), key, now).0);
      if key in rendezvous && rendezvous[key].expiresAt <= now {
        ForgetRendezvous(key, RvTimedOut(key, now));
      } else {
        assert Keep(rendezvous, RvTimedOut(key, now)) == rendezvous;
      }
      out := QUIET;
    }

    /** Whether `owner` speaks for the live daemon on this connection. */
    method Speaks(owner: DaemonOwner, deviceId: string, peer: DaemonPeer) returns (yes: bool)
      requires DmInv(daemons)
      ensures yes == DaemonSpeaks(Abs(), owner, deviceId, peer)
    {
      var found := DaemonByDevicePeer(deviceId, peer);
      yes := found.Some? && daemons[found.value].owner == owner;
    }

    /** The pass over rendezvous attempts for the one a daemon names; any match may be found first. */
    method PickRendezvous(owner: DaemonOwner, deviceId: string, peer: DaemonPeer, attemptId: string, fp: string)
      returns (found: Option<AttemptKey>)
      ensures found.Some? ==> RvPicked(Abs(), owner, deviceId, peer, attemptId, fp, found.value)
      ensures found.None? ==> forall k :: !RvPicked(Abs(), owner, deviceId, peer, attemptId, fp, k)
    {
      found := Find(rendezvous, (a: Rendezvous) => RvCandidate(a, owner, deviceId, peer, attemptId, fp));
    }

    method ForwardHint(owner: DaemonOwner, deviceId: string, peer: DaemonPeer, attemptId: string, fp: string,
                       candidatesValid: bool, sweptAt: Time, now: Time)
      returns (out: Outcome, ghost pick: AttemptKey)
      requires Valid()
      modifies this`rendezvous
      ensures Valid()
        && (Abs(), out) ==
        ConnModel.ForwardHint(old(Abs()), owner, deviceId, peer, attemptId, fp, candidatesValid, sweptAt, now, pick)
      ensures deviceId != "" && attemptId != "" && fp != "" && candidatesValid ==>
        GoodSweptPick(old(Abs()), owner, deviceId, peer, attemptId, fp, sweptAt, pick)
    {
      pick := NO_KEY;
      RvSub(rendezvous, Keep(rendezvous, RvExpired(sweptAt)), apps, daemons);
      if deviceId == "" || attemptId == "" || fp == "" || !candidatesValid { return QUIET, pick; }
      SweepRendezvous(sweptAt);
      var speaks := Speaks(owner, deviceId, peer);
      if !speaks { return QUIET, pick; }
      var found := PickRendezvous(owner, deviceId, peer, attemptId, fp);
      pick := PickOf(found);
      if found.None? || rendezvous[found.value].expiresAt <= now { return QUIET, pick; }
      out := DONE.(toApps := {AppNote(rendezvous[found.value].appPeer, owner.userId, DaemonHint(attemptId, deviceId))});
    }

    method CloseRendezvousFromApp(owner: AppOwner, peer: AppPeer, daemonId: string, attemptId: string)
      returns (out: Outcome)
      requires Valid()
      modifies this`rendezvous
      ensures Valid() && (Abs(), out) == ConnModel.CloseRendezvousFromApp(old(Abs()), owner, peer, daemonId, attemptId)
    {
      var drop := RvClosedByApp(owner, peer, daemonId, attemptId);
      RvSub(rendezvous, Keep(rendezvous, drop), apps, daemons);
      if !IsPeerActive(owner, peer) { return QUIET; }
      NotedIfTaken(Taken(rendezvous, drop));
      var notes := RemoveRendezvous(drop);
      out := QUIET.(ok := notes != {}, toDaemons := notes);
    }

    method CloseRendezvousFromDaemon(owner: DaemonOwner, deviceId: string, peer: DaemonPeer, attemptId: string,
                                     fp: string)
      returns (out: Outcome, ghost pick: AttemptKey)
      requires Valid()
      modifies this`rendezvous
      ensures Valid()
        && (Abs(), out) == ConnModel.CloseRendezvousFromDaemon(old(Abs()), owner, deviceId, peer, attemptId, fp, pick)
      ensures DaemonSpeaks(old(Abs()), owner, deviceId, peer) ==>
        GoodRvPick(old(Abs()), owner, deviceId, peer, attemptId, fp, pick)
    {
      pick := NO_KEY;
      var speaks := Speaks(owner, deviceId, peer);
      if !speaks { return QUIET, pick; }
      var found := PickRendezvous(owner, deviceId, peer, attemptId, fp);
      pick := PickOf(found);
      if found.None? { return QUIET, pick; }
      RvSub(rendezvous, rendezvous - {pick}, apps, daemons);
      out := DONE.(toApps :=
        {AppNote(rendezvous[found.value].appPeer, owner.userId, ClosedByDaemon(attemptId, deviceId))});
      rendezvous := rendezvous - {found.value};
    }

    // ----- direct sessions -----

    method OpenDirect(owner: DaemonOwner, deviceId: string, peer: DaemonPeer, attemptId: string, fp: string,
                      sweptAt: Time)
      returns (out: Outcome, ghost pick: AttemptKey)
      requires Valid()
      modifies this`rendezvous, this`activeDirect
      ensures Valid()
        && (Abs(), out) == ConnModel.OpenDirect(old(Abs()), owner, deviceId, peer, attemptId, fp, sweptAt, pick)
      ensures deviceId != "" && attemptId != "" && fp != "" ==>
        GoodSweptPick(old(Abs()), owner, deviceId, peer, attemptId, fp, sweptAt, pick)
    {
      out, pick := Promote(owner, deviceId, peer, attemptId, fp, sweptAt);
      OpenDirectAnchors(old(Abs()), owner, deviceId, peer, attemptId, fp, sweptAt, pick);
    }

    method Promote(owner: DaemonOwner, deviceId: string, peer: DaemonPeer, attemptId: string, fp: string, sweptAt: Time)
      returns (out: Outcome, ghost pick: AttemptKey)
      requires DmInv(daemons)
      modifies this`rendezvous, this`activeDirect
      ensures (Abs(), out) == ConnModel.OpenDirect(old(Abs()), owner, deviceId, peer, attemptId, fp, sweptAt, pick)
      ensures deviceId != "" && attemptId != "" && fp != "" ==>
        GoodSweptPick(old(Abs()), owner, deviceId, peer, attemptId, fp, sweptAt, pick)
    {
      pick := NO_KEY;
      if deviceId == "" || attemptId == "" || fp == "" { return QUIET, pick; }
      SweepRendezvous(sweptAt);
      var speaks := Speaks(owner, deviceId, peer);
      if !speaks { return QUIET, pick; }
      var found := PickRendezvous(owner, deviceId, peer, attemptId, fp);
      pick := PickOf(found);
      if found.None? { return QUIET, pick; }
      var a := rendezvous[found.value];
      var key := KeyOf(a.appOwner, deviceId, attemptId);
      if key in attempts || key in activeDirect || IsRevoked(a.appOwner) { return QUIET, pick; }
      rendezvous := rendezvous - {found.value};
      activeDirect := activeDirect[key :=
        DirectSession(key, attemptId, a.appOwner, a.daemonOwner, a.daemonDeviceId, a.daemonFingerprint, peer,
          a.appOwner.fingerprint)];
      out := DONE;
    }

    method CloseDirect(owner: DaemonOwner, deviceId: string, peer: DaemonPeer, attemptId: string, fp: string)
      returns (out: Outcome, ghost pick: AttemptKey)
      requires Valid()
      modifies this`activeDirect
      ensures Valid() && (Abs(), out) == ConnModel.CloseDirect(old(Abs()), owner, deviceId, peer, attemptId, fp, pick)
      ensures GoodDiPick(old(Abs()), owner, deviceId, peer, attemptId, fp, pick)
    {
      var found :=
        Find(activeDirect, (d: DirectSession) =>
        d.daemonPeer == peer && DiCandidate(d, owner, deviceId, attemptId, fp));
      pick := PickOf(found);
      if found.None? { return QUIET, pick; }
      DiSub(activeDirect, activeDirect - {found.value}, daemons);
      activeDirect := activeDirect - {found.value};
      out := DONE;
    }
  
    // ----- relay tunnels -----

    method IsOwnerActive(owner: AppOwner) returns (yes: bool)
      ensures yes == OwnerActive(Abs(), owner)
    {
      if IsRevoked(owner) { return false; }
      var found := Find(apps, (a: LiveApp) => SameApp(a.owner, owner));
      yes := found.Some?;
    }

    method MayAsk(owner: AppOwner, peer: Option<AppPeer>) returns (yes: bool)
      ensures yes == MayRequest(Abs(), owner, peer)
    {
      if peer.Some? { return IsPeerActive(owner, peer.value); }
      yes := IsOwnerActive(owner);
    }

    /** Taking out one attempt, if it is there, given that `drop` selects that one. */
    method RemoveOne(key: AttemptKey, there: bool, ghost drop: TunnelAttempt -> bool) returns (run: multiset<Closer>)
      requires OwnKeys(attempts) && (there ==> key in attempts)
      requires forall k :: k in attempts ==> (drop(attempts[k]) <==> there && k == key)
      modifies this`attempts, this`tokens
      ensures Relay() == DropFrom(old(Relay()), drop) && run == Freed(old(Relay()), drop)
      ensures there <==> Taken(old(attempts), drop).Keys != {}
    {
      if there {
        DropOne(Relay(), drop, key);
        run := RemoveAttempt(key);
      } else {
        DropNone(Relay(), drop);
        run := multiset{};
      }
    }

    /** Granting a relay tunnel: the older attempt goes, the rendezvous it replaces is closed, two tokens are stored. */
    method Grant(owner: AppOwner, daemonId: string, attemptId: string, now: Time, expiresAt: Time,
                 minted: (Token, Token)) returns (out: Outcome)
      requires OwnKeys(attempts) && DaemonKey(owner.userId, daemonId) in daemons
      modifies this`rendezvous, this`attempts, this`tokens, this`tunnelRequests, this`nextSerial
      ensures (Abs(), out) == GrantTunnel(old(Abs()), owner, daemonId, attemptId, now, expiresAt, minted)
    {
      var live := daemons[DaemonKey(owner.userId, daemonId)];
      var a := NewAttempt(live, owner, daemonId, attemptId, expiresAt, minted, nextSerial);
      var run := PutAttempt(a, now);
      var notes := RemoveRendezvous(RvOfAttempt(owner, daemonId, attemptId));
      nextSerial := nextSerial + 1;
      out := DONE.(fx := Ran(run).(issued := Some(a), requestedAt := Some((owner.userId, now))),
                   toDaemons :=
                     notes + {DaemonNote(live.peer, owner.userId,
                     TunnelReady(attemptId, owner.fingerprint, minted.1))});
    }

    /** Recording the request and putting the new attempt in the place of an older one. */
    method PutAttempt(a: TunnelAttempt, now: Time) returns (run: multiset<Closer>)
      requires OwnKeys(attempts)
      modifies this`attempts, this`tokens, this`tunnelRequests
      ensures Relay() ==
        PutIn(DropFrom(old(Relay()), AtKeyed(a.key)),
        a).(requests := RecordRequest(old(tunnelRequests), a.appOwner.userId, now))
      ensures run == Freed(old(Relay()), AtKeyed(a.key))
    {
      run := RemoveOne(a.key, a.key in attempts, AtKeyed(a.key));
      tunnelRequests := RecordedRequest(tunnelRequests, a.appOwner.userId, now);
      attempts := attempts[a.key := a];
      tokens := tokens[a.appToken := TunnelToken(a.key, Client)][a.daemonToken := TunnelToken(a.key, Daemon)];
    }

    /** A tunnel request once expired attempts were swept. */
    method Ask(owner: AppOwner, peer: Option<AppPeer>, daemonId: string, attemptId: string, now: Time, expiresAt: Time,
               minted: Option<(Token, Token)>)
      returns (out: Outcome)
      requires OwnKeys(attempts)
      modifies this`rendezvous, this`attempts, this`tokens, this`tunnelRequests, this`nextSerial
      ensures (Abs(), out) == RequestSwept(old(Abs()), owner, peer, daemonId, attemptId, now, expiresAt, minted)
    {
      var may := MayAsk(owner, peer);
      var dk := DaemonKey(owner.userId, daemonId);
      if !may || dk !in daemons || owner.fingerprint !in daemons[dk].trusted { return QUIET; }
      var key := KeyOf(owner, daemonId, attemptId);
      if key in activeDirect { return QUIET; }
      PruneTunnelRequests(owner.userId, now);
      out := AskEligible(owner, daemonId, attemptId, now, expiresAt, minted);
    }

    method PruneTunnelRequests(user: int, now: Time)
      modifies this`tunnelRequests
      ensures Abs() == old(Abs()).(tunnels := old(Relay()).(requests := PruneRequests(old(tunnelRequests), user, now)))
    {
      var recent;
      tunnelRequests, recent := RecentRequests(tunnelRequests, user, now);
    }

    /** The limits and the grant, once the app may ask and its request list is pruned. */
    method AskEligible(owner: AppOwner, daemonId: string, attemptId: string, now: Time, expiresAt: Time,
                       minted: Option<(Token, Token)>) returns (out: Outcome)
      requires OwnKeys(attempts) && DaemonKey(owner.userId, daemonId) in daemons
      modifies this`rendezvous, this`attempts, this`tokens, this`tunnelRequests, this`nextSerial
      ensures (Abs(), out) == if !Admits(old(Relay()), owner, KeyOf(owner, daemonId, attemptId), minted) then
        (old(Abs()), QUIET)
                              else GrantTunnel(old(Abs()), owner, daemonId, attemptId, now, expiresAt, minted.value)
    {
      var requests := if owner.userId in tunnelRequests then tunnelRequests[owner.userId] else [];
      if |requests| >= REQUEST_LIMIT { return QUIET; }
      var count := CountAttempts(attempts, owner, KeyOf(owner, daemonId, attemptId));
      if count >= IN_FLIGHT_LIMIT || minted.None? { return QUIET; }
      out := Grant(owner, daemonId, attemptId, now, expiresAt, minted.value);
    }

    /** The pass over expired attempts that a request or a redemption starts with. */
    method SweepAttempts(now: Time) returns (run: multiset<Closer>)
      requires Valid()
      modifies this`attempts, this`tokens
      ensures Valid() && Abs() == DropAttempts(old(Abs()), AtExpired(now)) && run == Freed(old(Relay()), AtExpired(now))
    {
      DropAnchors(Abs(), AtExpired(now));
      run := RemoveAttempts(AtExpired(now));
    }

    method SweepAndAsk(owner: AppOwner, peer: Option<AppPeer>, daemonId: string, attemptId: string, sweptAt: Time,
                       now: Time, expiresAt: Time, minted: Option<(Token, Token)>) returns (out: Outcome)
      requires OwnKeys(attempts)
      modifies this`rendezvous, this`attempts, this`tokens, this`tunnelRequests, this`nextSerial
      ensures (Abs(), out) ==
        AlsoRan(RequestSwept(DropAttempts(old(Abs()), AtExpired(sweptAt)), owner, peer, daemonId, attemptId, now,
        expiresAt, minted),
                                      Freed(old(Relay()), AtExpired(sweptAt)))
    {
      var swept := RemoveAttempts(AtExpired(sweptAt));
      assert Abs() == DropAttempts(old(Abs()), AtExpired(sweptAt));
      out := Ask(owner, peer, daemonId, attemptId, now, expiresAt, minted);
      out := out.(fx := out.fx.(ran := swept + out.fx.ran));
    }

    method RequestRelayTunnel(owner: AppOwner, peer: Option<AppPeer>, daemonId: string, attemptId: string, ttl: Time,
                              sweptAt: Time, now: Time, later: Time,
                                minted: Option<(Token, Token)>) returns (out: Outcome)
      requires Valid()
      modifies this`rendezvous, this`attempts, this`tokens, this`tunnelRequests, this`nextSerial
      ensures Valid()
        && (Abs(), out) == RequestTunnel(old(Abs()), owner, peer, daemonId, attemptId, ttl, sweptAt, now, later, minted)
    {
      RequestTunnelAnchors(Abs(), owner, peer, daemonId, attemptId, ttl, sweptAt, now, later, minted);
      if owner.fingerprint == "" || daemonId == "" || attemptId == "" { return QUIET; }
      out := SweepAndAsk(owner, peer, daemonId, attemptId, sweptAt, now, Expiry(later, ttl, DEFAULT_ATTEMPT_TTL),
        minted);
    }

    /** Redeeming a token once expired attempts were swept. */
    method Spend(token: Token, now: Time) returns (out: Outcome)
      requires OwnKeys(attempts)
      modifies this`attempts, this`tokens
      ensures (Relay(), out) == RedeemSwept(old(Relay()), token, now)
    {
      if token !in tokens { return QUIET; }
      var stored := tokens[token];
      if stored.key !in attempts {
        tokens := tokens - {token};
        return QUIET;
      }
      var a := attempts[stored.key];
      if a.expiresAt <= now {
        var run := RemoveOne(stored.key, true, AtKeyed(a.key));
        return QUIET.(fx := Ran(run));
      }
      if Redeemed(a, stored.actor) { return QUIET; }
      attempts := attempts[stored.key := MarkRedeemed(a, stored.actor)];
      tokens := tokens - {token};
      out := DONE.(fx := NO_EFFECT.(redeemed := Some(RedemptionOf(a, stored.actor))));
    }

    method RedeemRelayTunnelToken(token: Option<Token>, sweptAt: Time, now: Time) returns (out: Outcome)
      requires Valid()
      modifies this`attempts, this`tokens
      ensures Valid() && (Abs(), out) == Redeem(old(Abs()), token, sweptAt, now)
    {
      if token.None? { return QUIET; }
      var swept := SweepAttempts(sweptAt);
      RedeemSweptAnchors(Abs(), token.value, now);
      out := Spend(token.value, now);
      out := out.(fx := out.fx.(ran := swept + out.fx.ran));
    }

    method MarkRelayTunnelActive(key: AttemptKey) returns (out: Outcome)
      requires Valid()
      modifies this`attempts
      ensures Valid() && (Relay(), out) == MarkActive(old(Relay()), key)
    {
      if key !in attempts { return QUIET; }
      ghost var s := Abs();
      attempts := attempts[key := attempts[key].(active := true)];
      TouchAnchors(s, Abs());
      out := DONE;
    }

    method CloseRelayTunnel(key: AttemptKey) returns (out: Outcome)
      requires Valid()
      modifies this`attempts, this`tokens
      ensures Valid() && (Relay(), out) == CloseTunnel(old(Relay()), key)
    {
      DropAnchors(Abs(), AtKeyed(key));
      var there := key in attempts;
      var run := RemoveOne(key, there, AtKeyed(key));
      out := QUIET.(ok := there, fx := Ran(run));
    }

    /** The clean-up when the ready frame could not be sent: only the attempt that was made goes. */
    method AbandonTunnel(key: AttemptKey, serial: nat) returns (out: Outcome)
      requires Valid()
      modifies this`attempts, this`tokens
      ensures Valid() && (Relay(), out) == ConnModel.AbandonTunnel(old(Relay()), key, serial)
    {
      DropAnchors(Abs(), AtSerial(key, serial));
      var there := key in attempts && attempts[key].serial == serial;
      var run := RemoveOne(key, there, AtSerial(key, serial));
      out := QUIET.(ok := there, fx := Ran(run));
    }

    method TunnelTimer(key: AttemptKey, now: Time) returns (out: Outcome)
      requires Valid()
      modifies this`attempts, this`tokens
      ensures Valid() && (Relay(), out) == ConnModel.TunnelTimer(old(Relay()), key, now)
    {
      DropAnchors(Abs(), AtTimedOut(key, now));
      var there := key in attempts && !attempts[key].active && attempts[key].expiresAt <= now;
      var run := RemoveOne(key, there, AtTimedOut(key, now));
      out := QUIET.(ok := there, fx := Ran(run));
    }

    method AddTunnelCloser(key: AttemptKey, closer: Closer) returns (out: Outcome, id: nat)
      requires Valid()
      modifies this`attempts, this`nextCloserId
      ensures Valid() && (Relay(), out) == AddCloser(old(Relay()), key, closer)
      ensures out.ok ==> id == nextCloserId && HasCloser(attempts, key, id) && attempts[key].closers[id] == closer
    {
      if key !in attempts { return QUIET.(fx := Ran(multiset{closer}).(given := multiset{closer})), 0; }
      ghost var s := Abs();
      id := HoldIt(key, closer);
      TouchAnchors(s, Abs());
      out := DONE.(fx := NO_EFFECT.(given := multiset{closer}));
    }

    method HoldIt(key: AttemptKey, closer: Closer) returns (id: nat)
      requires key in attempts
      modifies this`attempts, this`nextCloserId
      ensures Relay() == HoldCloser(old(Relay()), key, closer) && Touched(old(attempts), attempts)
      ensures id == nextCloserId && HasCloser(attempts, key, id) && attempts[key].closers[id] == closer
    {
      nextCloserId := nextCloserId + 1;
      id := nextCloserId;
      attempts := attempts[key := attempts[key].(closers := attempts[key].closers[id := closer])];
    }

    /** The withdrawal that AddTunnelCloser hands back. */
    method WithdrawTunnelCloser(key: AttemptKey, id: nat) returns (out: Outcome)
      requires Valid()
      modifies this`attempts
      ensures Valid() && (Relay(), out) == WithdrawCloser(old(Relay()), key, id)
    {
      if key !in attempts || id !in attempts[key].closers { return QUIET; }
      ghost var s := Abs();
      var closer := attempts[key].closers[id];
      attempts := attempts[key := attempts[key].(closers := attempts[key].closers - {id})];
      TouchAnchors(s, Abs());
      out := DONE.(fx := NO_EFFECT.(withdrawn := multiset{closer}));
    }
  }
}
