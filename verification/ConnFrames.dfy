/** Frames stay inside an account: every frame a region queues goes to a connection
    of the account the frame is about. */
module ConnFrames {
  import opened Common
  import opened ConnModel
  import opened ConnInv
  import opened ConnAnchors
  import opened ConnRuns
  import opened ConnReach
  import opened ConnTheorems

  ghost predicate AppNotesOk(apps: Apps, notes: set<AppNote>) {
    forall n :: n in notes ==> n.peer in apps && apps[n.peer].owner.userId == n.account
  }

  ghost predicate DaemonNotesOk(links: Links, notes: set<DaemonNote>) {
    forall n :: n in notes ==> n.peer in links && links[n.peer].userId == n.account
  }

  ghost predicate Contained(apps: Apps, links: Links, out: Outcome) {
    AppNotesOk(apps, out.toApps) && DaemonNotesOk(links, out.toDaemons)
  }

  // ----- what single notes need -----

  /** Rendezvous attempts and direct sessions are bound to connections of their own account. */
  ghost predicate Bound(rv: Rvs, di: Dis, links: Links) {
    && (forall k :: k in rv ==> rv[k].daemonPeer in links && links[rv[k].daemonPeer].userId == rv[k].appOwner.userId)
    && (forall k :: k in di ==> di[k].daemonPeer in links && links[di[k].daemonPeer].userId == di[k].appOwner.userId)
  }

  lemma AnchorsBind(s: State, links: Links)
    requires AnchorInv(s) && LinkInv(s.daemons, s.direct, links)
    ensures Bound(s.rendezvous, s.direct, links)
  {
    forall k | k in s.rendezvous
      ensures s.rendezvous[k].daemonPeer in links
        && links[s.rendezvous[k].daemonPeer].userId == s.rendezvous[k].appOwner.userId
    {
      assert RvOk(k, s.rendezvous[k], s.apps, s.daemons);
    }
    forall k | k in s.direct
      ensures s.direct[k].daemonPeer in links && links[s.direct[k].daemonPeer].userId == s.direct[k].appOwner.userId
    {
      assert DiOk(k, s.direct[k], s.daemons);
    }
  }

  lemma CloseNotes(rv: Rvs, di: Dis, links: Links, rvDrop: Rendezvous -> bool, diDrop: DirectSession -> bool)
    requires Bound(rv, di, links)
    ensures DaemonNotesOk(links, RvNotes(Taken(rv, rvDrop))) && DaemonNotesOk(links, DiNotes(Taken(di, diDrop)))
    ensures DaemonNotesOk(links, RvNotes(Taken(rv, rvDrop)) + DiNotes(Taken(di, diDrop)))
  {
  }

  lemma TellNotes(apps: Apps, user: int, fps: set<string>, frame: AppFrame)
    ensures AppNotesOk(apps, Tell(AppsTrusted(apps, user, fps), user, frame))
  {
  }

  lemma ReportNotesStay(s: State, owner: DaemonOwner, info: DaemonInfo, trusted: set<string>, reported: seq<Report>,
                        peer: DaemonPeer, picks: seq<AttemptKey>, links: Links)
    requires |picks| == |reported| && peer in links && links[peer] == owner
    ensures DaemonNotesOk(links, ReportNotes(s, owner, info, trusted, reported, peer, picks, |reported|))
  {
  }

  // ----- operations -----

  lemma DaemonUpFrames(s: State, e: Presence, links: Links)
    requires e.DaemonUp? && AnchorInv(s) && LinkInv(s.daemons, s.direct, links) && e.peer !in links
    ensures Contained(s.apps, links[e.peer := e.daemonOwner], StepPresence(s, e).1)
  {
    var q := links[e.peer := e.daemonOwner];
    var key := DaemonKey(e.daemonOwner.userId, e.info.deviceId);
    var trusted := TrustedSet(e.listed);
    AnchorsBind(s, links);
    assert Bound(s.rendezvous, s.direct, q);
    TellNotes(s.apps, e.daemonOwner.userId, trusted, Visible(e.info));
    if |e.picks| == |e.reported| {
      var s1 := Vacated(s, key);
      ReportNotesStay(s1.(daemons := s1.daemons[key := LiveDaemon(e.info, e.daemonOwner, e.peer, trusted, e.at)]),
                      e.daemonOwner, e.info, trusted, e.reported, e.peer, e.picks, q);
      if key in s.daemons {
        var prior := s.daemons[key];
        TellNotes(s.apps, prior.owner.userId, prior.trusted - trusted,
          Removed(prior.info.deviceId, prior.info.fingerprint));
        CloseNotes(s.rendezvous, s.direct, q, RvOfPeers({prior.peer}), DiOfSession(""));
      }
    }
  }

  lemma DaemonDownFrames(s: State, id: string, peer: DaemonPeer, links: Links)
    requires Bound(s.rendezvous, s.direct, links)
    ensures Contained(s.apps, links, DisconnectDaemon(s, id, peer).1)
  {
    if DaemonOf(s, id, peer).Some? {
      var live := s.daemons[DaemonOf(s, id, peer).value];
      TellNotes(s.apps, live.owner.userId, live.trusted, Removed(live.info.deviceId, live.info.fingerprint));
      CloseNotes(s.rendezvous, s.direct, links, RvOfPeers({peer}), DiOfSession(""));
    }
  }

  lemma AppDownFrames(s: State, peer: AppPeer, links: Links)
    requires Bound(s.rendezvous, s.direct, links)
    ensures Contained(s.apps, links, DisconnectApp(s, peer).1)
  {
    if peer in s.apps { CloseNotes(s.rendezvous, s.direct, links, RvOfApp(peer, s.apps[peer].owner), DiOfSession("")); }
  }

  lemma UntrustFrames(s: State, id: string, peer: DaemonPeer, fp: string, links: Links)
    requires Bound(s.rendezvous, s.direct, links)
    ensures Contained(s.apps, links, RevokeTrusted(s, id, peer, fp).1)
  {
    if DaemonOf(s, id, peer).Some? {
      var live := s.daemons[DaemonOf(s, id, peer).value];
      TellNotes(s.apps, live.owner.userId, {fp}, ClientRevoked(live.info.deviceId, live.info.fingerprint));
      CloseNotes(s.rendezvous, s.direct, links, RvOfPeerClient(peer, fp), DiOfPeerClient(peer, fp));
    }
  }

  lemma TrustFrames(s: State, id: string, peer: DaemonPeer, fp: string, links: Links)
    ensures Contained(s.apps, links, CompletePairing(s, id, peer, fp).1)
  {
    if DaemonOf(s, id, peer).Some? {
      var live := s.daemons[DaemonOf(s, id, peer).value];
      TellNotes(s.apps, live.owner.userId, {fp}, Visible(live.info));
    }
  }

  lemma LookupFrames(s: State, e: Pairing, links: Links)
    requires !e.Untrust? && !e.Trust? && CoInv(s.correlations, s.daemons) && LinkInv(s.daemons, s.direct, links)
    ensures Contained(s.apps, links, StepPairing(s, e).1)
  {
    if e.Lookup? {
      var key := CorrelationKey(e.user, e.id);
      assert key in s.correlations ==> CoOk(key, s.correlations[key], s.daemons);
    }
  }

  lemma RevokingFrames(s: State, e: Revoking, links: Links)
    requires Bound(s.rendezvous, s.direct, links)
    ensures Contained(s.apps, links, StepRevoking(s, e).1)
  {
    match e
    case CutSession(sid) => CloseNotes(s.rendezvous, s.direct, links, RvOfSession(sid), DiOfSession(sid));
    case CutUser(user, at) =>
      var peers := Peers(Taken(s.daemons, DmOfUser(user)));
      CloseNotes(s.rendezvous, s.direct, links, RvOfUser(user, peers), DiOfUser(user, peers));
    case CutAgent(token) =>
      var peers := Peers(Taken(s.daemons, DmOfAgent(token)));
      CloseNotes(s.rendezvous, s.direct, links, RvOfAgent(token, peers), DiOfAgent(token, peers));
  }

  /** The daemon a frame is addressed to by device id belongs to the app's account. */
  lemma AddressedDaemon(s: State, user: int, daemonId: string, links: Links)
    requires DmInv(s.daemons) && LinkInv(s.daemons, s.direct, links) && DaemonKey(user, daemonId) in s.daemons
    ensures var peer := s.daemons[DaemonKey(user, daemonId)].peer; peer in links && links[peer].userId == user
  {
    assert DmOk(DaemonKey(user, daemonId), s.daemons[DaemonKey(user, daemonId)]);
  }

  lemma OpenFrames(s: State, e: Meeting, links: Links)
    requires e.Open? && DmInv(s.daemons) && LinkInv(s.daemons, s.direct, links) && Bound(s.rendezvous, s.direct, links)
    ensures Contained(s.apps, links, StepMeeting(s, e).1)
  {
    var dk := DaemonKey(e.owner.userId, e.daemonId);
    var swept := Keep(s.rendezvous, RvExpired(e.sweptAt));
    if dk in s.daemons { AddressedDaemon(s, e.owner.userId, e.daemonId, links); }
    CloseNotes(swept, s.direct, links, RvOfRoute(e.owner, e.daemonId), DiOfSession(""));
  }

  /** Frames about a rendezvous reach the app that opened it, which is of the daemon's account. */
  lemma MeetingFrames(s: State, e: Meeting, links: Links)
    requires !e.Open? && RvInv(s.rendezvous, s.apps, s.daemons) && Bound(s.rendezvous, s.direct, links)
    ensures Contained(s.apps, links, StepMeeting(s, e).1)
  {
    match e
    case CloseByApp(owner, p, dev, id) =>
      CloseNotes(s.rendezvous, s.direct, links, RvClosedByApp(owner, p, dev, id), DiOfSession(""));
    case Hint(owner, dev, peer, id, fp, v, sweptAt, at, pick) =>
      assert pick in s.rendezvous ==> RvOk(pick, s.rendezvous[pick], s.apps, s.daemons);
    case CloseByDaemon(owner, dev, peer, id, fp, pick) =>
      assert pick in s.rendezvous ==> RvOk(pick, s.rendezvous[pick], s.apps, s.daemons);
    case _ =>
  }

  lemma AskingFrames(s: State, e: Asking, links: Links)
    requires DmInv(s.daemons) && LinkInv(s.daemons, s.direct, links) && Bound(s.rendezvous, s.direct, links)
    ensures Contained(s.apps, links, StepAsking(s, e).1)
  {
    var dk := DaemonKey(e.owner.userId, e.daemonId);
    if dk in s.daemons { AddressedDaemon(s, e.owner.userId, e.daemonId, links); }
    CloseNotes(s.rendezvous, s.direct, links, RvOfAttempt(e.owner, e.daemonId, e.attemptId), DiOfSession(""));
  }

  lemma RelayingFrames(x: Tunnels, e: Relaying)
    ensures StepRelaying(x, e).1.toApps == {} && StepRelaying(x, e).1.toDaemons == {}
  {
  }

  lemma StepFrames(s: State, e: Event, links: Links)
    requires AnchorInv(s) && LinkInv(s.daemons, s.direct, links)
    requires e.Here? && e.presence.DaemonUp? ==> e.presence.peer !in links
    ensures Contained(s.apps, Linked(links, e), Step(s, e).1)
  {
    AnchorsBind(s, links);
    match e
    case Here(AppUp(owner, p, v, at)) =>
    case Here(AppDown(p)) => AppDownFrames(s, p, links);
    case Here(DaemonUp(owner, info, listed, reported, peer, v, at, picks)) => DaemonUpFrames(s, e.presence, links);
    case Here(DaemonDown(id, peer)) => DaemonDownFrames(s, id, peer, links);
    case Pair(Untrust(id, peer, fp)) => UntrustFrames(s, id, peer, fp, links);
    case Pair(Trust(id, peer, fp)) => TrustFrames(s, id, peer, fp, links);
    case Pair(x) => LookupFrames(s, x, links);
    case Cut(x) => RevokingFrames(s, x, links);
    case Meet(x) => if x.Open? { OpenFrames(s, x, links); } else { MeetingFrames(s, x, links); }
    case Ask(x) => AskingFrames(s, x, links);
    case Relay(x) => RelayingFrames(s.tunnels, x);
  }

  /** In every run, every frame goes to a connection of the account it is about. */
  lemma FramesStayInAccount(w: World, e: Event, su: SessionUser)
    requires Reachable(w, su) && Admissible(w, e, su)
    ensures Contained(w.reg.apps, Next(w, e).links, Step(w.reg, e).1)
  {
    ReachableInv(w, su);
    StepFrames(w.reg, e, w.links);
  }

  // ----- who is shown a daemon -----

  /** An app is told about a daemon only while that daemon is live, of the app's account, and trusts its fingerprint. */
  ghost predicate ShownOk(apps: Apps, daemons: Daemons, notes: set<AppNote>) {
    forall n :: n in notes && n.frame.Visible? ==> n.peer in apps && MaySee(apps[n.peer].owner, daemons, n.frame.info)
  }

  ghost predicate MaySee(app: AppOwner, daemons: Daemons, info: DaemonInfo) {
    exists k ::
      k in daemons && daemons[k].info == info && daemons[k].owner.userId == app.userId
      && app.fingerprint in daemons[k].trusted
  }

  lemma TellShown(apps: Apps, daemons: Daemons, key: DaemonKey, fps: set<string>)
    requires key in daemons && fps <= daemons[key].trusted
    ensures ShownOk(apps, daemons,
      Tell(AppsTrusted(apps, daemons[key].owner.userId, fps), daemons[key].owner.userId, Visible(daemons[key].info)))
  {
    var notes :=
      Tell(AppsTrusted(apps, daemons[key].owner.userId, fps), daemons[key].owner.userId, Visible(daemons[key].info));
    forall n | n in notes ensures n.peer in apps && MaySee(apps[n.peer].owner, daemons, n.frame.info) {
      assert daemons[key].info == n.frame.info;
    }
  }

  lemma DaemonUpShown(s: State, e: Presence)
    requires e.DaemonUp? && forall k :: k in s.daemons ==> s.daemons[k].peer != e.peer
    ensures ShownOk(s.apps, StepPresence(s, e).0.daemons, StepPresence(s, e).1.toApps)
  {
    if |e.picks| == |e.reported| {
      RegisterDaemonShape(s, e.daemonOwner, e.info, e.listed, e.reported, e.peer, e.stillValid, e.at, e.picks);
      var key := DaemonKey(e.daemonOwner.userId, e.info.deviceId);
      var t := StepPresence(s, e).0;
      if StepPresence(s, e).1.ok { TellShown(s.apps, t.daemons, key, TrustedSet(e.listed)); }
    }
  }

  lemma TrustShown(s: State, id: string, peer: DaemonPeer, fp: string)
    ensures ShownOk(s.apps, CompletePairing(s, id, peer, fp).0.daemons, CompletePairing(s, id, peer, fp).1.toApps)
  {
    if fp != "" && DaemonOf(s, id, peer).Some? {
      TellShown(s.apps, CompletePairing(s, id, peer, fp).0.daemons, DaemonOf(s, id, peer).value, {fp});
    }
  }

  lemma MeetingShowsNothing(s: State, e: Meeting)
    ensures forall n :: n in StepMeeting(s, e).1.toApps ==> !n.frame.Visible?
  {
  }

  lemma AskingShowsNothing(s: State, e: Asking)
    ensures StepAsking(s, e).1.toApps == {}
  {
  }

  lemma PresenceShown(s: State, e: Presence)
    requires e.DaemonUp? ==> forall k :: k in s.daemons ==> s.daemons[k].peer != e.peer
    ensures ShownOk(s.apps, StepPresence(s, e).0.daemons, StepPresence(s, e).1.toApps)
  {
    if e.DaemonUp? { DaemonUpShown(s, e); }
  }

  lemma PairingShown(s: State, e: Pairing)
    ensures ShownOk(s.apps, StepPairing(s, e).0.daemons, StepPairing(s, e).1.toApps)
  {
    if e.Trust? { TrustShown(s, e.deviceId, e.peer, e.fp); }
  }

  lemma RevokingShowsNothing(s: State, e: Revoking)
    ensures StepRevoking(s, e).1.toApps == {}
  {
  }

  lemma StepShown(s: State, e: Event)
    requires e.Here? && e.presence.DaemonUp? ==> forall k :: k in s.daemons ==> s.daemons[k].peer != e.presence.peer
    ensures ShownOk(s.apps, Step(s, e).0.daemons, Step(s, e).1.toApps)
  {
    match e
    case Here(x) => PresenceShown(s, x);
    case Pair(x) => PairingShown(s, x);
    case Cut(x) => RevokingShowsNothing(s, x);
    case Meet(x) => MeetingShowsNothing(s, x);
    case Ask(x) => AskingShowsNothing(s, x);
    case Relay(x) => RelayingFrames(s.tunnels, x);
  }

  /** In every run, a daemon is shown only to apps of its own account that it trusts. */
  lemma ShownOnlyToTrusted(w: World, e: Event, su: SessionUser)
    requires Reachable(w, su) && Admissible(w, e, su)
    ensures ShownOk(w.reg.apps, Next(w, e).reg.daemons, Step(w.reg, e).1.toApps)
  {
    ReachableInv(w, su);
    StepShown(w.reg, e);
  }

  // ----- where tokens go -----

  /** A granted tunnel's daemon token goes to the attempt's own daemon connection, and no other frame carries a token;
      the client token stays with the caller. */
  lemma TokenGoesToItsDaemon(s: State, e: Asking)
    requires StepAsking(s, e).1.ok && e.minted.Some? && e.minted.value.0 != e.minted.value.1
    ensures StepAsking(s, e).1.fx.issued.Some?
    ensures var a := StepAsking(s, e).1.fx.issued.value; var notes := StepAsking(s, e).1.toDaemons;
      && a.appOwner == e.owner
      && (exists n :: n in notes && n.frame.TunnelReady?)
      && (forall n ::
        n in notes && n.frame.TunnelReady? ==>
        n.peer == a.daemonPeer && n.frame.token == a.daemonToken && n.frame.token != a.appToken)
  {
    var live := s.daemons[DaemonKey(e.owner.userId, e.daemonId)];
    assert DaemonNote(live.peer, e.owner.userId, TunnelReady(e.attemptId, e.owner.fingerprint, e.minted.value.1))
      in StepAsking(s, e).1.toDaemons;
  }
}
