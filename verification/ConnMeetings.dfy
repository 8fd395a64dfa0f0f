/** When what a daemon says about one of its attempts takes effect.  Several app sessions may share a
    fingerprint, so several attempts may match; `pick` is the one the search over the map finds first, and each
    operation is characterised both for some order of the map and for every order. */
module ConnMeetings {
  import opened ConnModel
  import opened ConnInv
  import opened ConnTheorems

  /** How a daemon names an attempt: itself, its connection, the attempt id and the client's fingerprint. */
  datatype Naming = Naming(owner: DaemonOwner, deviceId: string, peer: DaemonPeer, attemptId: string, fp: string)

  predicate Filled(n: Naming) {
    n.deviceId != "" && n.attemptId != "" && n.fp != ""
  }

  predicate Meets(s: State, n: Naming, k: AttemptKey) {
    RvPicked(s, n.owner, n.deviceId, n.peer, n.attemptId, n.fp, k)
  }

  predicate MeetsAfter(s: State, n: Naming, sweptAt: Time, k: AttemptKey) {
    Meets(s, n, k) && s.rendezvous[k].expiresAt > sweptAt
  }

  ghost predicate Finds(s: State, n: Naming, sweptAt: Time, pick: AttemptKey) {
    GoodSweptPick(s, n.owner, n.deviceId, n.peer, n.attemptId, n.fp, sweptAt, pick)
  }

  /** The parts of the invariant that concern attempts and daemons. */
  ghost predicate Sound(s: State) {
    RvInv(s.rendezvous, s.apps, s.daemons) && DmInv(s.daemons)
  }

  lemma ReachableIsSound(w: World, su: SessionUser)
    requires Reachable(w, su)
    ensures Sound(w.reg)
  {
    ReachableInv(w, su);
  }

  ghost predicate Speaks(s: State, n: Naming) {
    DaemonSpeaks(s, n.owner, n.deviceId, n.peer)
  }

  /** An attempt that matches proves that its daemon is live on that connection under that owner. */
  lemma MatchSpeaks(s: State, n: Naming, k: AttemptKey)
    requires Sound(s) && Meets(s, n, k)
    ensures Speaks(s, n)
  {
    assert RvOk(k, s.rendezvous[k], s.apps, s.daemons);
    var j := DaemonKey(s.rendezvous[k].appOwner.userId, n.deviceId);
    assert ServesDevice(s.daemons[j], n.deviceId, n.peer);
    var found := DaemonOf(s, n.deviceId, n.peer);
    assert found.Some? && SamePeer(s.daemons, j, found.value);
  }

  /** After the sweep the daemon speaks and the attempt is there, exactly if the attempt matches and is unexpired. */
  lemma AfterTheSweep(s: State, n: Naming, sweptAt: Time, k: AttemptKey)
    requires Sound(s)
    ensures var s1 := SweptRendezvous(s, sweptAt); (Speaks(s1, n) && Meets(s1, n, k)) <==> MeetsAfter(s, n, sweptAt, k)
  {
    var s1 := SweptRendezvous(s, sweptAt);
    if Meets(s1, n, k) { MatchSpeaks(s1, n, k); }
  }

  lemma MatchIsFound(s: State, n: Naming, sweptAt: Time, k: AttemptKey)
    requires Sound(s) && MeetsAfter(s, n, sweptAt, k)
    ensures forall pick :: Finds(s, n, sweptAt, pick) ==> MeetsAfter(s, n, sweptAt, pick)
    ensures Finds(s, n, sweptAt, k)
  {
    AfterTheSweep(s, n, sweptAt, k);
    forall pick | Finds(s, n, sweptAt, pick)
      ensures MeetsAfter(s, n, sweptAt, pick)
    {
      AfterTheSweep(s, n, sweptAt, pick);
    }
  }

  lemma FindsSome(s: State, n: Naming, sweptAt: Time)
    requires Sound(s)
    ensures forall k :: MeetsAfter(s, n, sweptAt, k) ==> Finds(s, n, sweptAt, k)
    ensures forall k, pick ::
      MeetsAfter(s, n, sweptAt, k) && Finds(s, n, sweptAt, pick) ==> MeetsAfter(s, n, sweptAt, pick)
    ensures exists pick :: Finds(s, n, sweptAt, pick)
  {
    forall k | MeetsAfter(s, n, sweptAt, k)
      ensures Finds(s, n, sweptAt, k) && forall pick :: Finds(s, n, sweptAt, pick) ==> MeetsAfter(s, n, sweptAt, pick)
    {
      MatchIsFound(s, n, sweptAt, k);
    }
    var s1 := SweptRendezvous(s, sweptAt);
    if k :| RvPicked(s1, n.owner, n.deviceId, n.peer, n.attemptId, n.fp, k) {
      assert MeetsAfter(s, n, sweptAt, k);
    } else {
      assert Finds(s, n, sweptAt, AttemptKey(0, "", "", "", ""));
    }
  }

  // ----- closing by the daemon -----

  ghost predicate Closes(s: State, n: Naming, pick: AttemptKey) {
    CloseRendezvousFromDaemon(s, n.owner, n.deviceId, n.peer, n.attemptId, n.fp, pick).1.ok
  }

  ghost predicate FindsNow(s: State, n: Naming, pick: AttemptKey) {
    Speaks(s, n) ==> GoodRvPick(s, n.owner, n.deviceId, n.peer, n.attemptId, n.fp, pick)
  }

  lemma ClosesWhen(s: State, n: Naming, pick: AttemptKey)
    requires Sound(s) && FindsNow(s, n, pick)
    ensures Closes(s, n, pick) <==> exists k :: Meets(s, n, k)
  {
    if k :| Meets(s, n, k) {
      MatchSpeaks(s, n, k);
      assert GoodRvPick(s, n.owner, n.deviceId, n.peer, n.attemptId, n.fp, pick);
    }
    assert Closes(s, n, pick) ==> Meets(s, n, pick);
  }

  /** The daemon's close takes effect exactly when some attempt matches. */
  lemma DaemonClosesExactlyWhen(w: World, su: SessionUser, n: Naming, pick: AttemptKey)
    requires Reachable(w, su) && FindsNow(w.reg, n, pick)
    ensures Closes(w.reg, n, pick) <==> exists k :: Meets(w.reg, n, k)
  {
    ReachableIsSound(w, su);
    ClosesWhen(w.reg, n, pick);
  }

  // ----- forwarding a hint -----

  ghost predicate Hints(s: State, n: Naming, candidatesValid: bool, sweptAt: Time, now: Time, pick: AttemptKey) {
    ForwardHint(s, n.owner, n.deviceId, n.peer, n.attemptId, n.fp, candidatesValid, sweptAt, now, pick).1.ok
  }

  lemma HintsWhen(s: State, n: Naming, candidatesValid: bool, sweptAt: Time, now: Time, pick: AttemptKey)
    requires Sound(s)
    ensures Hints(s, n, candidatesValid, sweptAt, now, pick) <==>
      Filled(n) && candidatesValid && MeetsAfter(s, n, sweptAt, pick) && MeetsAfter(s, n, now, pick)
  {
    AfterTheSweep(s, n, sweptAt, pick);
  }

  lemma HintsForAll(s: State, n: Naming, candidatesValid: bool, sweptAt: Time, now: Time)
    requires Sound(s)
    ensures (forall pick :: Finds(s, n, sweptAt, pick) ==> Hints(s, n, candidatesValid, sweptAt, now, pick)) <==>
      && Filled(n) && candidatesValid && (exists k :: MeetsAfter(s, n, sweptAt, k))
      && forall k :: MeetsAfter(s, n, sweptAt, k) ==> MeetsAfter(s, n, now, k)
  {
    forall pick ensures Hints(s, n, candidatesValid, sweptAt, now, pick) <==>
      Filled(n) && candidatesValid && MeetsAfter(s, n, sweptAt, pick) && MeetsAfter(s, n, now, pick)
    {
      HintsWhen(s, n, candidatesValid, sweptAt, now, pick);
    }
    FindsSome(s, n, sweptAt);
  }

  lemma HintsForSome(s: State, n: Naming, candidatesValid: bool, sweptAt: Time, now: Time)
    requires Sound(s)
    ensures (exists pick :: Finds(s, n, sweptAt, pick) && Hints(s, n, candidatesValid, sweptAt, now, pick)) <==>
      Filled(n) && candidatesValid && exists k :: MeetsAfter(s, n, sweptAt, k) && MeetsAfter(s, n, now, k)
  {
    forall pick ensures Hints(s, n, candidatesValid, sweptAt, now, pick) <==>
      Filled(n) && candidatesValid && MeetsAfter(s, n, sweptAt, pick) && MeetsAfter(s, n, now, pick)
    {
      HintsWhen(s, n, candidatesValid, sweptAt, now, pick);
    }
    FindsSome(s, n, sweptAt);
  }

  /** A daemon's hint is passed on, in some order of the map, exactly when an attempt matches that is unexpired at the
      sweep and at the check after it; and in every order exactly when there is a match and no match expires in
      between. */
  lemma HintExactlyWhen(w: World, su: SessionUser, n: Naming, candidatesValid: bool, sweptAt: Time, now: Time)
    requires Reachable(w, su)
    ensures (exists pick :: Finds(w.reg, n, sweptAt, pick) && Hints(w.reg, n, candidatesValid, sweptAt, now, pick)) <==>
      Filled(n) && candidatesValid && exists k :: MeetsAfter(w.reg, n, sweptAt, k) && MeetsAfter(w.reg, n, now, k)
    ensures (forall pick ::
      Finds(w.reg, n, sweptAt, pick) ==> Hints(w.reg, n, candidatesValid, sweptAt, now, pick)) <==>
      && Filled(n) && candidatesValid && (exists k :: MeetsAfter(w.reg, n, sweptAt, k))
      && forall k :: MeetsAfter(w.reg, n, sweptAt, k) ==> MeetsAfter(w.reg, n, now, k)
  {
    ReachableIsSound(w, su);
    HintsForSome(w.reg, n, candidatesValid, sweptAt, now);
    HintsForAll(w.reg, n, candidatesValid, sweptAt, now);
  }

  // ----- becoming direct -----

  ghost predicate Promotes(s: State, n: Naming, sweptAt: Time, pick: AttemptKey) {
    OpenDirect(s, n.owner, n.deviceId, n.peer, n.attemptId, n.fp, sweptAt, pick).1.ok
  }

  /** No other route uses this key. */
  predicate Vacant(s: State, k: AttemptKey) {
    k !in s.tunnels.attempts && k !in s.direct
  }

  lemma PromotesWhen(s: State, n: Naming, sweptAt: Time, pick: AttemptKey, su: SessionUser)
    requires Sound(s) && RvClean(s.rendezvous, s.revoked, su)
    ensures Promotes(s, n, sweptAt, pick) <==> Filled(n) && MeetsAfter(s, n, sweptAt, pick) && Vacant(s, pick)
  {
    AfterTheSweep(s, n, sweptAt, pick);
    if MeetsAfter(s, n, sweptAt, pick) {
      assert RvOk(pick, s.rendezvous[pick], s.apps, s.daemons);
      assert Clean(s.rendezvous[pick].appOwner, s.revoked, su);
    }
  }

  lemma PromotesForAll(s: State, n: Naming, sweptAt: Time, su: SessionUser)
    requires Sound(s) && RvClean(s.rendezvous, s.revoked, su)
    ensures (exists pick :: Finds(s, n, sweptAt, pick) && Promotes(s, n, sweptAt, pick)) <==>
      Filled(n) && exists k :: MeetsAfter(s, n, sweptAt, k) && Vacant(s, k)
    ensures (forall pick :: Finds(s, n, sweptAt, pick) ==> Promotes(s, n, sweptAt, pick)) <==>
      && Filled(n) && (exists k :: MeetsAfter(s, n, sweptAt, k))
      && forall k :: MeetsAfter(s, n, sweptAt, k) ==> Vacant(s, k)
  {
    forall pick
      ensures Promotes(s, n, sweptAt, pick) <==> Filled(n) && MeetsAfter(s, n, sweptAt, pick) && Vacant(s, pick)
    {
      PromotesWhen(s, n, sweptAt, pick, su);
    }
    FindsSome(s, n, sweptAt);
  }

  lemma ReachableIsClean(w: World, su: SessionUser)
    requires Reachable(w, su)
    ensures RvClean(w.reg.rendezvous, w.reg.revoked, su)
  {
    ReachableInv(w, su);
  }

  /** A daemon's report makes a direct session, in some order of the map, exactly when an unexpired attempt matches
      whose key no relay tunnel and no direct session uses; and in every order exactly when there is a match and all are
      such. The refusal for a revoked app is never taken. */
  lemma DirectExactlyWhen(w: World, su: SessionUser, n: Naming, sweptAt: Time)
    requires Reachable(w, su)
    ensures (exists pick :: Finds(w.reg, n, sweptAt, pick) && Promotes(w.reg, n, sweptAt, pick)) <==>
      Filled(n) && exists k :: MeetsAfter(w.reg, n, sweptAt, k) && Vacant(w.reg, k)
    ensures (forall pick :: Finds(w.reg, n, sweptAt, pick) ==> Promotes(w.reg, n, sweptAt, pick)) <==>
      && Filled(n) && (exists k :: MeetsAfter(w.reg, n, sweptAt, k))
      && forall k :: MeetsAfter(w.reg, n, sweptAt, k) ==> Vacant(w.reg, k)
  {
    ReachableIsSound(w, su);
    ReachableIsClean(w, su);
    PromotesForAll(w.reg, n, sweptAt, su);
  }

  // ----- ending a direct session -----

  predicate Bound(s: State, n: Naming, k: AttemptKey) {
    DiPicked(s, n.owner, n.deviceId, n.peer, n.attemptId, n.fp, k)
  }

  ghost predicate FindsBound(s: State, n: Naming, pick: AttemptKey) {
    GoodDiPick(s, n.owner, n.deviceId, n.peer, n.attemptId, n.fp, pick)
  }

  function End(s: State, n: Naming, pick: AttemptKey): (State, Outcome) {
    CloseDirect(s, n.owner, n.deviceId, n.peer, n.attemptId, n.fp, pick)
  }

  /** Some daemon that is live on its connection can end the direct session at `k`. */
  ghost predicate Endable(s: State, k: AttemptKey) {
    exists n, pick :: Speaks(s, n) && FindsBound(s, n, pick) && k !in End(s, n, pick).0.direct
  }

  predicate OnLiveConnection(s: State, peer: DaemonPeer) {
    exists j :: j in s.daemons && s.daemons[j].peer == peer
  }

  lemma LiveCanEnd(s: State, k: AttemptKey)
    requires DiInv(s.direct, s.daemons) && DmInv(s.daemons) && k in s.direct
      && OnLiveConnection(s, s.direct[k].daemonPeer)
    ensures Endable(s, k)
  {
    var d := s.direct[k];
    var n := Naming(d.daemonOwner, d.daemonDeviceId, d.daemonPeer, d.id, d.androidFingerprint);
    assert DiOk(k, d, s.daemons);
    var j := DaemonKey(d.appOwner.userId, d.daemonDeviceId);
    assert ServesDevice(s.daemons[j], d.daemonDeviceId, d.daemonPeer);
    var found := DaemonOf(s, d.daemonDeviceId, d.daemonPeer);
    assert found.Some? && SamePeer(s.daemons, j, found.value);
    assert Speaks(s, n) && FindsBound(s, n, k) && k !in End(s, n, k).0.direct;
  }

  lemma EndsWhen(s: State, n: Naming, pick: AttemptKey)
    requires FindsBound(s, n, pick)
    ensures End(s, n, pick).1.ok <==> exists k :: Bound(s, n, k)
  {
    assert End(s, n, pick).1.ok ==> Bound(s, n, pick);
  }

  lemma EndableExactlyWhen(s: State, k: AttemptKey)
    requires DiInv(s.direct, s.daemons) && DmInv(s.daemons) && k in s.direct
    ensures Endable(s, k) <==> OnLiveConnection(s, s.direct[k].daemonPeer)
  {
    if OnLiveConnection(s, s.direct[k].daemonPeer) { LiveCanEnd(s, k); }
  }

  lemma ReachableDirect(w: World, su: SessionUser)
    requires Reachable(w, su)
    ensures DiInv(w.reg.direct, w.reg.daemons) && DmInv(w.reg.daemons)
  {
    ReachableInv(w, su);
  }

  /** A daemon's close ends a direct session exactly when one it names is bound to that very connection; so a direct
      session can be ended by a live daemon exactly when it is bound to a live connection. */
  lemma DirectEndsExactlyWhen(w: World, su: SessionUser, n: Naming, pick: AttemptKey)
    requires Reachable(w, su) && FindsBound(w.reg, n, pick)
    ensures End(w.reg, n, pick).1.ok <==> exists k :: Bound(w.reg, n, k)
    ensures forall k ::
      k in w.reg.direct ==> (Endable(w.reg, k) <==> OnLiveConnection(w.reg, w.reg.direct[k].daemonPeer))
  {
    ReachableDirect(w, su);
    EndsWhen(w.reg, n, pick);
    forall k | k in w.reg.direct ensures Endable(w.reg, k) <==> OnLiveConnection(w.reg, w.reg.direct[k].daemonPeer) {
      EndableExactlyWhen(w.reg, k);
    }
  }
}
