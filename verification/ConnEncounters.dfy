/** What pairing correlations, rendezvous and direct sessions come to, written out: what is stored, for how long, who is
    told, and what stays. */
module ConnEncounters {
  import opened Common
  import opened ConnModel
  import opened ConnInv
  import opened ConnMeetings
  import opened ConnEffects

  // ----- pairing correlations -----

  function PairingLater(at: Time): Correlation -> bool { (c: Correlation) => c.expiresAt > at }

  /** A pairing is reserved exactly for the live daemon of that owner and connection: the correlation lives for the
      time asked for, or five minutes; expired ones are gone, all others stay. */
  lemma PairingReserved(s: State, deviceId: string, owner: DaemonOwner, peer: DaemonPeer, id: string, ttl: Time,
                        sweptAt: Time, now: Time)
    ensures var (t, out) := ReservePairing(s, deviceId, owner, peer, id, ttl, sweptAt, now);
      var key, daemon := CorrelationKey(owner.userId, id), DaemonKey(owner.userId, deviceId);
      var until := now + (if ttl > 0 then ttl else 300 * 1_000_000_000);
      && (out.ok <==>
        id != "" && daemon in s.daemons && s.daemons[daemon].owner == owner && s.daemons[daemon].peer == peer)
      && t == s.(correlations := t.correlations)
      && (out.ok ==> key in t.correlations && t.correlations[key] == Correlation(id, owner, daemon, peer, until))
      && (id != "" ==> Remain(s.correlations - {key}, t.correlations - {key}, PairingLater(sweptAt)))
      && (id == "" ==> t == s)
  {
  }

  /** A pairing response is passed on exactly when its app session, if named, is not revoked, its connection, if named,
      is active, and the account has an unexpired correlation of that id; it goes to the correlation's daemon
      connection. An expired correlation is taken away. */
  lemma ResponsePassedOn(s: State, user: int, appPeer: Option<AppPeer>, owner: AppOwner, id: string, now: Time)
    ensures var (t, out) := LookupPairing(s, user, appPeer, owner, id, now);
      var key := CorrelationKey(user, id);
      var mayAsk := (owner.sessionId == "" || !Revoked(s, owner))
        && (appPeer.None? || PeerActive(s, owner, appPeer.value));
      && (out.ok <==> mayAsk && key in s.correlations && s.correlations[key].expiresAt > now)
      && (out.ok ==> out.toDaemons == {DaemonNote(s.correlations[key].peer, user, PairResponse)})
      && (if mayAsk && key in s.correlations && !out.ok then t == s.(correlations := s.correlations - {key})
        else t == s)
  {
  }

  /** After the response was sent the correlation goes, if it still names that connection. */
  lemma PairingFinished(s: State, user: int, id: string, peer: DaemonPeer)
    requires CoInv(s.correlations, s.daemons)
    ensures var (t, out) := FinishPairing(s, user, id, peer);
      var key := CorrelationKey(user, id);
      && (out.ok <==> key in s.correlations && s.correlations[key].peer == peer)
      && t == (if out.ok then s.(correlations := s.correlations - {key}) else s)
  {
    var key := CorrelationKey(user, id);
    if key in s.correlations { assert CoOk(key, s.correlations[key], s.daemons); }
  }

  /** From reservation to response: while the daemon stays, a response of that account reaches its connection exactly
      until the correlation ends. */
  lemma ReservedIsPassedOn(s: State, deviceId: string, owner: DaemonOwner, peer: DaemonPeer, id: string, ttl: Time,
                           sweptAt: Time, now: Time, appPeer: AppPeer, app: AppOwner, later: Time)
    requires ReservePairing(s, deviceId, owner, peer, id, ttl, sweptAt, now).1.ok && PeerActive(s, app, appPeer)
      && !Revoked(s, app)
    ensures var t := ReservePairing(s, deviceId, owner, peer, id, ttl, sweptAt, now).0;
      var out := LookupPairing(t, owner.userId, Some(appPeer), app, id, later).1;
      && (out.ok <==> later < now + (if ttl > 0 then ttl else 300 * 1_000_000_000))
      && (out.ok ==> out.toDaemons == {DaemonNote(peer, owner.userId, PairResponse)})
  {
    PairingReserved(s, deviceId, owner, peer, id, ttl, sweptAt, now);
    ResponsePassedOn(ReservePairing(s, deviceId, owner, peer, id, ttl, sweptAt, now).0, owner.userId, Some(appPeer),
      app, id, later);
  }

  // ----- rendezvous -----

  /** Rendezvous of other routes that a sweep leaves. */
  function OtherRoutes(o: AppOwner, daemonId: string, sweptAt: Time): Rendezvous -> bool {
    (a: Rendezvous) =>
      && a.expiresAt > sweptAt
      && !(&& a.appOwner.userId == o.userId && a.appOwner.sessionId == o.sessionId
           && a.appOwner.fingerprint == o.fingerprint && a.daemonDeviceId == daemonId)
  }

  /** The rendezvous that an app opens: with the daemon as it is now, for the time asked for or thirty seconds. */
  function Opens(s: State, o: AppOwner, peer: AppPeer, daemonId: string, attemptId: string, ttl: Time,
                 now: Time): Rendezvous
    requires DaemonKey(o.userId, daemonId) in s.daemons
  {
    var live := s.daemons[DaemonKey(o.userId, daemonId)];
    Rendezvous(AttemptKey(o.userId, o.sessionId, o.fingerprint, daemonId, attemptId), attemptId, o, peer,
      live.owner, daemonId, live.info.fingerprint, live.peer, now
        + (if ttl > 0 then ttl else 30 * 1_000_000_000), s.nextSerial)
  }

  type Meetings = map<AttemptKey, Rendezvous>

  lemma RouteReplaced(m: Meetings, a: Rendezvous, o: AppOwner, daemonId: string, sweptAt: Time)
    requires a.key in m ==> SameApp(m[a.key].appOwner, o) && m[a.key].daemonDeviceId == daemonId
    ensures var n := Keep(Keep(m, RvExpired(sweptAt)), RvOfRoute(o, daemonId))[a.key := a];
      Remain(m, n - {a.key}, OtherRoutes(o, daemonId, sweptAt))
  {
  }

  lemma OpeningStores(s: State, o: AppOwner, peer: AppPeer, daemonId: string, attemptId: string, valid: bool, ttl: Time,
                      sweptAt: Time, now: Time)
    requires DmInv(s.daemons) && OpenRendezvous(s, o, peer, daemonId, attemptId, valid, ttl, sweptAt, now).1.ok
    ensures DaemonKey(o.userId, daemonId) in s.daemons
    ensures var (t, out) := OpenRendezvous(s, o, peer, daemonId, attemptId, valid, ttl, sweptAt, now);
      var a := Opens(s, o, peer, daemonId, attemptId, ttl, now);
      && t.rendezvous == Keep(Keep(s.rendezvous, RvExpired(sweptAt)), RvOfRoute(o, daemonId))[a.key := a]
      && DaemonNote(a.daemonPeer, o.userId, ClientHint(attemptId, o.fingerprint)) in out.toDaemons
      && out.rendezvousAt == Some((o.userId, now))
      && t == s.(rendezvous := t.rendezvous, rendezvousRequests := t.rendezvousRequests, nextSerial := s.nextSerial + 1)
  {
    assert DmOk(DaemonKey(o.userId, daemonId), s.daemons[DaemonKey(o.userId, daemonId)]);
  }

  /** Opening stores that rendezvous under its key, takes out the app's older one with this daemon and expired ones,
      leaves all others, tells the daemon the attempt id and the client, and counts the request. */
  lemma MeetingOpened(s: State, o: AppOwner, peer: AppPeer, daemonId: string, attemptId: string, valid: bool, ttl: Time,
                      sweptAt: Time, now: Time)
    requires DmInv(s.daemons) && RvInv(s.rendezvous, s.apps, s.daemons)
    requires OpenRendezvous(s, o, peer, daemonId, attemptId, valid, ttl, sweptAt, now).1.ok
    ensures DaemonKey(o.userId, daemonId) in s.daemons
    ensures var (t, out) := OpenRendezvous(s, o, peer, daemonId, attemptId, valid, ttl, sweptAt, now);
      var a := Opens(s, o, peer, daemonId, attemptId, ttl, now);
      && a.key in t.rendezvous && t.rendezvous[a.key] == a
      && Remain(s.rendezvous, t.rendezvous - {a.key}, OtherRoutes(o, daemonId, sweptAt))
      && DaemonNote(a.daemonPeer, o.userId, ClientHint(attemptId, o.fingerprint)) in out.toDaemons
      && out.rendezvousAt == Some((o.userId, now))
      && t == s.(rendezvous := t.rendezvous, rendezvousRequests := t.rendezvousRequests, nextSerial := s.nextSerial + 1)
  {
    OpeningStores(s, o, peer, daemonId, attemptId, valid, ttl, sweptAt, now);
    var a := Opens(s, o, peer, daemonId, attemptId, ttl, now);
    assert a.key in s.rendezvous ==> RvOk(a.key, s.rendezvous[a.key], s.apps, s.daemons);
    RouteReplaced(s.rendezvous, a, o, daemonId, sweptAt);
  }

  function MeetingUnmade(key: AttemptKey, serial: nat): Rendezvous -> bool {
    (a: Rendezvous) => a.key != key || a.serial != serial
  }
  function MeetingUnexpired(key: AttemptKey, now: Time): Rendezvous -> bool {
    (a: Rendezvous) => a.key != key || a.expiresAt > now
  }
  function MeetingLater(now: Time): Rendezvous -> bool { (a: Rendezvous) => a.expiresAt > now }

  /** The clean-up of an opening takes out that very rendezvous; the timer takes out what has expired under its key. */
  lemma MeetingCleanUp(s: State, key: AttemptKey, serial: nat, now: Time)
    ensures var t := AbandonRendezvous(s, key, serial).0;
      t == s.(rendezvous := t.rendezvous) && Remain(s.rendezvous, t.rendezvous, MeetingUnmade(key, serial))
    ensures var t := RendezvousTimer(s, key, now).0;
      t == s.(rendezvous := t.rendezvous) && Remain(s.rendezvous, t.rendezvous, MeetingUnexpired(key, now))
  {
  }

  /** What is left when an app closes its attempts of one id, with one daemon or with any. */
  function NotClosedBy(peer: AppPeer, o: AppOwner, daemonId: string, attemptId: string): Rendezvous -> bool {
    (a: Rendezvous) =>
      !(&& a.appPeer == peer && a.appOwner.userId == o.userId && a.appOwner.sessionId == o.sessionId
        && a.appOwner.fingerprint == o.fingerprint && a.id == attemptId
          && (daemonId == "" || a.daemonDeviceId == daemonId))
  }

  /** An app's close takes out exactly its own attempts of that id, and each daemon is told; others do nothing. */
  lemma MeetingClosedByApp(s: State, o: AppOwner, peer: AppPeer, daemonId: string, attemptId: string)
    ensures var (t, out) := CloseRendezvousFromApp(s, o, peer, daemonId, attemptId);
      && t == s.(rendezvous := t.rendezvous)
      && (PeerActive(s, o, peer) ==> Remain(s.rendezvous, t.rendezvous, NotClosedBy(peer, o, daemonId, attemptId)))
      && (!PeerActive(s, o, peer) ==> t == s && !out.ok && out.toDaemons == {})
      && (out.ok <==> exists k :: k in s.rendezvous && k !in t.rendezvous)
      && (forall k :: k in s.rendezvous && k !in t.rendezvous ==>
            var a := s.rendezvous[k];
            DaemonNote(a.daemonPeer, a.appOwner.userId, RendezvousClose(attemptId, a.daemonDeviceId, o.fingerprint))
              in out.toDaemons)
  {
    var drop := RvClosedByApp(o, peer, daemonId, attemptId);
    KeepRemain(s.rendezvous, drop, NotClosedBy(peer, o, daemonId, attemptId));
    forall k | k in s.rendezvous && drop(s.rendezvous[k]) ensures k in Taken(s.rendezvous, drop).Keys { }
  }

  /** A daemon's close takes out the attempt found, and its app is told; without a match nothing happens. */
  lemma MeetingClosedByDaemon(s: State, n: Naming, pick: AttemptKey)
    requires Sound(s) && FindsNow(s, n, pick)
    ensures var (t, out) := CloseRendezvousFromDaemon(s, n.owner, n.deviceId, n.peer, n.attemptId, n.fp, pick);
      && (if Meets(s, n, pick) then t == s.(rendezvous := s.rendezvous - {pick}) else t == s)
      && (Meets(s, n, pick) ==>
            out.toApps ==
              {AppNote(s.rendezvous[pick].appPeer, n.owner.userId, ClosedByDaemon(n.attemptId, n.deviceId))})
  {
    ClosesWhen(s, n, pick);
  }

  /** A hint that is passed on goes to the app connection that opened the attempt found, and changes nothing but the
      sweep. */
  lemma HintPassedOn(s: State, n: Naming, valid: bool, sweptAt: Time, now: Time, pick: AttemptKey)
    requires Sound(s)
    ensures var (t, out) := ForwardHint(s, n.owner, n.deviceId, n.peer, n.attemptId, n.fp, valid, sweptAt, now, pick);
      && t == s.(rendezvous := t.rendezvous)
      && (if Filled(n) && valid then Remain(s.rendezvous, t.rendezvous, MeetingLater(sweptAt)) else t == s)
      && (out.ok ==>
            && pick in s.rendezvous
            && out.toApps == {AppNote(s.rendezvous[pick].appPeer, n.owner.userId, DaemonHint(n.attemptId, n.deviceId))})
  {
    KeepRemain(s.rendezvous, RvExpired(sweptAt), MeetingLater(sweptAt));
  }

  // ----- direct sessions -----

  /** Becoming direct: the attempt found goes, and a session with the same two sides takes its place under its key. */
  lemma SessionOpened(s: State, n: Naming, sweptAt: Time, pick: AttemptKey)
    requires Sound(s) && Promotes(s, n, sweptAt, pick)
    ensures pick in s.rendezvous
    ensures var t := OpenDirect(s, n.owner, n.deviceId, n.peer, n.attemptId, n.fp, sweptAt, pick).0;
      var a := s.rendezvous[pick];
      && t.direct == s.direct[pick :=
           DirectSession(pick, n.attemptId, a.appOwner, n.owner, n.deviceId, a.daemonFingerprint, n.peer, n.fp)]
      && pick !in t.rendezvous && Remain(s.rendezvous - {pick}, t.rendezvous, MeetingLater(sweptAt))
      && t == s.(rendezvous := t.rendezvous, direct := t.direct)
  {
    assert RvOk(pick, s.rendezvous[pick], s.apps, s.daemons);
  }

  /** Ending takes the session found out, and nothing else. */
  lemma SessionEnded(s: State, n: Naming, pick: AttemptKey)
    requires FindsBound(s, n, pick)
    ensures var t := End(s, n, pick).0;
      if exists k :: Bound(s, n, k) then Bound(s, n, pick) && t == s.(direct := s.direct - {pick}) else t == s
  {
    EndsWhen(s, n, pick);
    assert End(s, n, pick).1.ok ==> Bound(s, n, pick);
  }
}
