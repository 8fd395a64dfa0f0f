/** What peers are told: an app that follows its frames knows exactly the daemons it may see,
    with one exception; and no rendezvous or direct session is ended behind its daemon's back. */
module ConnViews {
  import opened Common
  import opened ConnModel
  import opened ConnInv
  import opened ConnAnchors
  import opened ConnRuns
  import opened ConnTheorems

  // ----- an app's view -----

  /** What an app may see of a device: the live daemon of its account that trusts it. */
  function Seen(s: State, owner: AppOwner, id: string): Option<DaemonInfo> {
    var k := DaemonKey(owner.userId, id);
    if k in s.daemons && owner.fingerprint in s.daemons[k].trusted then Some(s.daemons[k].info) else None
  }

  predicate Shows(n: AppNote, p: AppPeer, id: string) {
    n.peer == p && n.frame.Visible? && n.frame.info.deviceId == id
  }

  predicate Hides(n: AppNote, p: AppPeer, id: string) {
    n.peer == p && (n.frame.Removed? || n.frame.ClientRevoked?) && n.frame.deviceId == id
  }

  /** What an app knows of a device after the frames of one region: removals are sent before additions. */
  ghost function After(b: Option<DaemonInfo>, notes: set<AppNote>, p: AppPeer, id: string): Option<DaemonInfo> {
    if n :| n in notes && Shows(n, p, id) then Some(n.frame.info)
    else if exists n :: n in notes && Hides(n, p, id) then None
    else b
  }

  /** Frames that say nothing about the device leave what is known. */
  ghost predicate Silent(notes: set<AppNote>, p: AppPeer, id: string) {
    forall n :: n in notes ==> !Shows(n, p, id) && !Hides(n, p, id)
  }

  lemma SilentKeeps(b: Option<DaemonInfo>, notes: set<AppNote>, p: AppPeer, id: string)
    requires Silent(notes, p, id)
    ensures After(b, notes, p, id) == b
  {
  }

  /** All frames about the device show the same information. */
  lemma ShownIs(b: Option<DaemonInfo>, notes: set<AppNote>, p: AppPeer, id: string, m: AppNote)
    requires m in notes && Shows(m, p, id) && forall n :: n in notes && Shows(n, p, id) ==> n.frame == m.frame
    ensures After(b, notes, p, id) == Some(m.frame.info)
  {
  }

  lemma HiddenIs(b: Option<DaemonInfo>, notes: set<AppNote>, p: AppPeer, id: string, m: AppNote)
    requires m in notes && Hides(m, p, id) && forall n :: n in notes ==> !Shows(n, p, id)
    ensures After(b, notes, p, id) == None
  {
  }

  /** A region tells the app exactly what changed about the device. */
  ghost predicate Exact(s: State, r: (State, Outcome), p: AppPeer, owner: AppOwner, id: string) {
    After(Seen(s, owner, id), r.1.toApps, p, id) == Seen(r.0, owner, id)
  }

  lemma TellIs(apps: Apps, user: int, fps: set<string>, frame: AppFrame, n: AppNote)
    ensures n in Tell(AppsTrusted(apps, user, fps), user, frame) <==>
      n.account == user && n.frame == frame && n.peer in apps && apps[n.peer].owner.userId == user
        && apps[n.peer].owner.fingerprint in fps
  {
    if n.peer in apps && n == AppNote(n.peer, user, frame) && apps[n.peer].owner.userId == user
      && apps[n.peer].owner.fingerprint in fps {
      assert n.peer in AppsTrusted(apps, user, fps);
    }
  }

  /** Frames to all apps of an account with certain fingerprints, about one device, to show it. */
  lemma ToldShown(s: State, p: AppPeer, owner: AppOwner, id: string, user: int, fps: set<string>, info: DaemonInfo)
    requires p in s.apps && s.apps[p].owner == owner
    ensures var notes := Tell(AppsTrusted(s.apps, user, fps), user, Visible(info));
      if owner.userId == user && owner.fingerprint in fps && info.deviceId == id then
        After(Seen(s, owner, id), notes, p, id) == Some(info)
      else Silent(notes, p, id)
  {
    var notes := Tell(AppsTrusted(s.apps, user, fps), user, Visible(info));
    forall n | n in notes
      ensures n.frame == Visible(info) && n.peer in s.apps && s.apps[n.peer].owner.userId == user
        && s.apps[n.peer].owner.fingerprint in fps
    {
      TellIs(s.apps, user, fps, Visible(info), n);
    }
    if owner.userId == user && owner.fingerprint in fps && info.deviceId == id {
      var m := AppNote(p, user, Visible(info));
      TellIs(s.apps, user, fps, Visible(info), m);
      ShownIs(Seen(s, owner, id), notes, p, id, m);
    }
  }

  lemma ToldHidden(s: State, p: AppPeer, owner: AppOwner, id: string, user: int, fps: set<string>, frame: AppFrame)
    requires p in s.apps && s.apps[p].owner == owner && (frame.Removed? || frame.ClientRevoked?)
    ensures var notes := Tell(AppsTrusted(s.apps, user, fps), user, frame);
      if owner.userId == user && owner.fingerprint in fps && frame.deviceId == id then
        After(Seen(s, owner, id), notes, p, id) == None
      else Silent(notes, p, id)
  {
    var notes := Tell(AppsTrusted(s.apps, user, fps), user, frame);
    forall n | n in notes
      ensures n.frame == frame && n.peer in s.apps && s.apps[n.peer].owner.userId == user
        && s.apps[n.peer].owner.fingerprint in fps
    {
      TellIs(s.apps, user, fps, frame, n);
    }
    if owner.userId == user && owner.fingerprint in fps && frame.deviceId == id {
      var m := AppNote(p, user, frame);
      TellIs(s.apps, user, fps, frame, m);
      HiddenIs(Seen(s, owner, id), notes, p, id, m);
    }
  }

  lemma DaemonDownExact(s: State, deviceId: string, peer: DaemonPeer, p: AppPeer, owner: AppOwner, id: string)
    requires DmInv(s.daemons) && p in s.apps && s.apps[p].owner == owner
    ensures Exact(s, DisconnectDaemon(s, deviceId, peer), p, owner, id)
  {
    match DaemonOf(s, deviceId, peer)
    case None => SilentKeeps(Seen(s, owner, id), {}, p, id);
    case Some(key) =>
      var live := s.daemons[key];
      assert DmOk(key, live);
      var notes :=
        Tell(AppsTrusted(s.apps, live.owner.userId, live.trusted), live.owner.userId,
        Removed(live.info.deviceId, live.info.fingerprint));
      ToldHidden(s, p, owner, id, live.owner.userId, live.trusted, Removed(live.info.deviceId, live.info.fingerprint));
      if DaemonKey(owner.userId, id) != key || owner.fingerprint !in live.trusted {
        SilentKeeps(Seen(s, owner, id), notes, p, id);
      }
  }

  lemma UntrustExact(s: State, deviceId: string, peer: DaemonPeer, fp: string, p: AppPeer, owner: AppOwner, id: string)
    requires DmInv(s.daemons) && p in s.apps && s.apps[p].owner == owner
    ensures Exact(s, RevokeTrusted(s, deviceId, peer, fp), p, owner, id)
  {
    match DaemonOf(s, deviceId, peer)
    case None => SilentKeeps(Seen(s, owner, id), {}, p, id);
    case Some(key) =>
      var live := s.daemons[key];
      assert DmOk(key, live);
      var notes :=
        Tell(AppsTrusted(s.apps, live.owner.userId, {fp}), live.owner.userId,
        ClientRevoked(live.info.deviceId, live.info.fingerprint));
      ToldHidden(s, p, owner, id, live.owner.userId, {fp}, ClientRevoked(live.info.deviceId, live.info.fingerprint));
      if DaemonKey(owner.userId, id) != key || owner.fingerprint != fp {
        SilentKeeps(Seen(s, owner, id), notes, p, id);
      }
  }

  lemma TrustExact(s: State, deviceId: string, peer: DaemonPeer, fp: string, p: AppPeer, owner: AppOwner, id: string)
    requires DmInv(s.daemons) && p in s.apps && s.apps[p].owner == owner
    ensures Exact(s, CompletePairing(s, deviceId, peer, fp), p, owner, id)
  {
    if fp == "" || DaemonOf(s, deviceId, peer).None? {
      SilentKeeps(Seen(s, owner, id), {}, p, id);
    } else {
      var key := DaemonOf(s, deviceId, peer).value;
      var live := s.daemons[key];
      assert DmOk(key, live);
      var notes := Tell(AppsTrusted(s.apps, live.owner.userId, {fp}), live.owner.userId, Visible(live.info));
      ToldShown(s, p, owner, id, live.owner.userId, {fp}, live.info);
      if DaemonKey(owner.userId, id) != key || owner.fingerprint != fp {
        SilentKeeps(Seen(s, owner, id), notes, p, id);
      }
    }
  }

  /** The frames of a registration: every app that the daemon trusts is shown it, every app that lost its trust is told
      so. */
  ghost predicate Announces(apps: Apps, notes: set<AppNote>, user: int, info: DaemonInfo, trusted: set<string>,
                            lost: set<string>, gone: AppFrame) {
    forall n :: n in notes <==>
      n.peer in apps && n.account == user && apps[n.peer].owner.userId == user &&
      ((n.frame == Visible(info) && apps[n.peer].owner.fingerprint in trusted)
        || (n.frame == gone && apps[n.peer].owner.fingerprint in lost))
  }

  lemma AnnouncementExact(apps: Apps, notes: set<AppNote>, user: int, info: DaemonInfo, trusted: set<string>,
                          lost: set<string>, gone: AppFrame, p: AppPeer, owner: AppOwner, id: string,
                          b: Option<DaemonInfo>)
    requires Announces(apps, notes, user, info, trusted, lost, gone) && p in apps && apps[p].owner == owner
    requires gone.Removed? && gone.deviceId == info.deviceId && lost !! trusted
    ensures After(b, notes, p, id) ==
      if owner.userId != user || id != info.deviceId then b
      else if owner.fingerprint in trusted then Some(info)
      else if owner.fingerprint in lost then None else b
  {
    if owner.userId == user && id == info.deviceId && owner.fingerprint in trusted {
      ShownIs(b, notes, p, id, AppNote(p, user, Visible(info)));
    } else if owner.userId == user && id == info.deviceId && owner.fingerprint in lost {
      HiddenIs(b, notes, p, id, AppNote(p, user, gone));
    } else {
      SilentKeeps(b, notes, p, id);
    }
  }

  lemma DaemonUpAnnounces(s: State, e: Presence, lost: set<string>, gone: AppFrame)
    requires e.DaemonUp? && |e.picks| == |e.reported| && DmInv(s.daemons)
      && (forall k :: k in s.daemons ==> s.daemons[k].peer != e.peer)
    requires StepPresence(s, e).1.ok
    requires var key := DaemonKey(e.daemonOwner.userId, e.info.deviceId);
      if key in s.daemons then
        lost == s.daemons[key].trusted - TrustedSet(e.listed)
        && gone == Removed(s.daemons[key].info.deviceId, s.daemons[key].info.fingerprint)
      else lost == {}
    ensures Announces(s.apps, StepPresence(s, e).1.toApps, e.daemonOwner.userId, e.info, TrustedSet(e.listed), lost,
      gone)
  {
    var key := DaemonKey(e.daemonOwner.userId, e.info.deviceId);
    var user, trusted := e.daemonOwner.userId, TrustedSet(e.listed);
    if key in s.daemons { assert DmOk(key, s.daemons[key]); }
    var notes := StepPresence(s, e).1.toApps;
    forall n ensures n in notes <==>
      n.peer in s.apps && n.account == user && s.apps[n.peer].owner.userId == user &&
      ((n.frame == Visible(e.info) && s.apps[n.peer].owner.fingerprint in trusted)
        || (n.frame == gone && s.apps[n.peer].owner.fingerprint in lost))
    {
      TellIs(s.apps, user, trusted, Visible(e.info), n);
      TellIs(s.apps, user, lost, gone, n);
    }
  }

  lemma DaemonUpExact(s: State, e: Presence, p: AppPeer, owner: AppOwner, id: string)
    requires e.DaemonUp? && DmInv(s.daemons) && (forall k :: k in s.daemons ==> s.daemons[k].peer != e.peer)
      && p in s.apps && s.apps[p].owner == owner
    ensures Exact(s, StepPresence(s, e), p, owner, id)
  {
    if |e.picks| == |e.reported| {
      RegisterDaemonShape(s, e.daemonOwner, e.info, e.listed, e.reported, e.peer, e.stillValid, e.at, e.picks);
    }
    if |e.picks| == |e.reported| && StepPresence(s, e).1.ok {
      RegisteredExact(s, e, p, owner, id);
    } else {
      SilentKeeps(Seen(s, owner, id), {}, p, id);
    }
  }

  lemma RegisteredExact(s: State, e: Presence, p: AppPeer, owner: AppOwner, id: string)
    requires e.DaemonUp? && DmInv(s.daemons) && (forall k :: k in s.daemons ==> s.daemons[k].peer != e.peer)
      && p in s.apps && s.apps[p].owner == owner
    requires |e.picks| == |e.reported| && StepPresence(s, e).1.ok
    ensures Exact(s, StepPresence(s, e), p, owner, id)
  {
    RegisterDaemonShape(s, e.daemonOwner, e.info, e.listed, e.reported, e.peer, e.stillValid, e.at, e.picks);
    var key := DaemonKey(e.daemonOwner.userId, e.info.deviceId);
    if key in s.daemons { assert DmOk(key, s.daemons[key]); }
    var lost := if key in s.daemons then s.daemons[key].trusted - TrustedSet(e.listed) else {};
    var gone := Removed(e.info.deviceId, if key in s.daemons then s.daemons[key].info.fingerprint else "");
    DaemonUpAnnounces(s, e, lost, gone);
    AnnouncementExact(s.apps, StepPresence(s, e).1.toApps, e.daemonOwner.userId, e.info, TrustedSet(e.listed), lost,
      gone, p, owner, id, Seen(s, owner, id));
  }

  // ----- every event -----

  /** The one exception: revoking an agent token takes daemons away without telling the apps. */
  predicate Unannounced(s: State, e: Event, owner: AppOwner, id: string) {
    var k := DaemonKey(owner.userId, id);
    e.Cut? && e.revoking.CutAgent? && Seen(s, owner, id).Some?
      && s.daemons[k].owner.agentTokenId == e.revoking.agentToken
  }

  lemma PresenceExact(s: State, e: Presence, p: AppPeer, owner: AppOwner, id: string)
    requires DmInv(s.daemons) && (e.DaemonUp? ==> forall k :: k in s.daemons ==> s.daemons[k].peer != e.peer)
      && p in s.apps && s.apps[p].owner == owner
    ensures Exact(s, StepPresence(s, e), p, owner, id)
  {
    match e
    case AppUp(o, q, v, at) => SilentKeeps(Seen(s, owner, id), {}, p, id);
    case AppDown(q) => SilentKeeps(Seen(s, owner, id), {}, p, id);
    case DaemonUp(o, info, listed, reported, peer, v, at, picks) => DaemonUpExact(s, e, p, owner, id);
    case DaemonDown(dev, peer) => DaemonDownExact(s, dev, peer, p, owner, id);
  }

  lemma PairingExact(s: State, e: Pairing, p: AppPeer, owner: AppOwner, id: string)
    requires DmInv(s.daemons) && p in s.apps && s.apps[p].owner == owner
    ensures Exact(s, StepPairing(s, e), p, owner, id)
  {
    match e
    case Untrust(dev, peer, fp) => UntrustExact(s, dev, peer, fp, p, owner, id);
    case Trust(dev, peer, fp) => TrustExact(s, dev, peer, fp, p, owner, id);
    case _ => CorrelationsOnly(s, e); SilentKeeps(Seen(s, owner, id), {}, p, id);
  }

  /** Disconnect orders send apps nothing; an app that is still there lost sight of nothing but an agent token's
      daemons. */
  lemma RevokingExactlyWhen(s: State, e: Revoking, p: AppPeer, owner: AppOwner, id: string)
    requires DmInv(s.daemons) && p in StepRevoking(s, e).0.apps && s.apps[p].owner == owner
    ensures Exact(s, StepRevoking(s, e), p, owner, id) <==> !Unannounced(s, Cut(e), owner, id)
  {
    var k := DaemonKey(owner.userId, id);
    if k in s.daemons { assert DmOk(k, s.daemons[k]); }
    SilentKeeps(Seen(s, owner, id), {}, p, id);
  }

  lemma MeetingSilent(s: State, e: Meeting, p: AppPeer, id: string)
    ensures Silent(StepMeeting(s, e).1.toApps, p, id) && StepMeeting(s, e).0.daemons == s.daemons
  {
  }

  lemma AskingSilent(s: State, e: Asking)
    ensures StepAsking(s, e).1.toApps == {} && StepAsking(s, e).0.daemons == s.daemons
  {
  }

  lemma RelayingSilent(x: Tunnels, e: Relaying)
    ensures StepRelaying(x, e).1.toApps == {}
  {
  }

  lemma StepExactlyWhen(s: State, e: Event, p: AppPeer, owner: AppOwner, id: string)
    requires DmInv(s.daemons)
      && (e.Here? && e.presence.DaemonUp? ==> forall k :: k in s.daemons ==> s.daemons[k].peer != e.presence.peer)
    requires p in s.apps && s.apps[p].owner == owner && p in Step(s, e).0.apps
    ensures Exact(s, Step(s, e), p, owner, id) <==> !Unannounced(s, e, owner, id)
  {
    match e
    case Here(x) => PresenceExact(s, x, p, owner, id);
    case Pair(x) => PairingExact(s, x, p, owner, id);
    case Cut(x) => RevokingExactlyWhen(s, x, p, owner, id);
    case Meet(x) => MeetingSilent(s, x, p, id); SilentKeeps(Seen(s, owner, id), StepMeeting(s, x).1.toApps, p, id);
    case Ask(x) => AskingSilent(s, x); SilentKeeps(Seen(s, owner, id), {}, p, id);
    case Relay(x) => RelayingSilent(s.tunnels, x); SilentKeeps(Seen(s, owner, id), {}, p, id);
  }

  // ----- runs -----

  /** What an app that starts with `b` and applies its frames knows of a device after a run. */
  ghost function Told(w: World, es: seq<Event>, p: AppPeer, id: string, b: Option<DaemonInfo>): Option<DaemonInfo>
    decreases |es|
  {
    if es == [] then b else Told(Next(w, es[0]), es[1..], p, id, After(b, Step(w.reg, es[0]).1.toApps, p, id))
  }

  /** The app stays connected, and no agent token of a daemon it sees is revoked. */
  ghost predicate Watching(w: World, es: seq<Event>, p: AppPeer, owner: AppOwner, id: string)
    decreases |es|
  {
    && p in w.reg.apps && w.reg.apps[p].owner == owner
    && (es == [] || (!Unannounced(w.reg, es[0], owner, id) && Watching(Next(w, es[0]), es[1..], p, owner, id)))
  }

  /** An app that stays connected and follows its frames always knows exactly the daemons it may see. */
  lemma {:induction false} ViewIsExact(w: World, es: seq<Event>, su: SessionUser, p: AppPeer, owner: AppOwner,
                                       id: string)
    requires WorldInv(w, su) && AdmissibleRun(w, es, su) && Watching(w, es, p, owner, id)
    ensures Told(w, es, p, id, Seen(w.reg, owner, id)) == Seen(Run(w, es).reg, owner, id)
    decreases |es|
  {
    if es != [] {
      StepExactlyWhen(w.reg, es[0], p, owner, id);
      NextInv(w, es[0], su);
      ViewIsExact(Next(w, es[0]), es[1..], su, p, owner, id);
    }
  }

  /** The exception is real: after its agent token is revoked an app still knows a daemon that is gone. */
  lemma RevokedAgentStaysKnown(s: State, token: string, p: AppPeer, owner: AppOwner, id: string)
    requires DmInv(s.daemons) && p in s.apps && s.apps[p].owner == owner
      && Unannounced(s, Cut(CutAgent(token)), owner, id)
    ensures After(Seen(s, owner, id), DisconnectAgentToken(s, token).1.toApps, p, id) == Seen(s, owner, id) != None
    ensures Seen(DisconnectAgentToken(s, token).0, owner, id) == None
  {
    SilentKeeps(Seen(s, owner, id), {}, p, id);
  }

  /** From every reachable world on. */
  lemma ViewsStayExact(w: World, es: seq<Event>, su: SessionUser, p: AppPeer, owner: AppOwner, id: string)
    requires Reachable(w, su) && AdmissibleRun(w, es, su) && Watching(w, es, p, owner, id)
    ensures Told(w, es, p, id, Seen(w.reg, owner, id)) == Seen(Run(w, es).reg, owner, id)
  {
    ReachableInv(w, su);
    ViewIsExact(w, es, su, p, owner, id);
  }

  // ----- nothing is ended behind a daemon's back -----

  /** The events that end a rendezvous for a reason the daemon does not know. */
  predicate EndsMeetings(e: Event) {
    match e
    case Here(x) => !x.AppUp?
    case Pair(x) => x.Untrust?
    case Cut(x) => true
    case Meet(x) => x.CloseByApp?
    case Ask(x) => true
    case Relay(x) => false
  }

  lemma TakenIsNoted(m: Rvs, drop: Rendezvous -> bool, k: AttemptKey)
    requires k in m && k !in Keep(m, drop)
    ensures RvNote(m[k]) in RvNotes(Taken(m, drop))
  {
    assert k in Taken(m, drop);
  }

  lemma DirectIsNoted(m: Dis, drop: DirectSession -> bool, k: AttemptKey)
    requires k in m && k !in Keep(m, drop)
    ensures DiNote(m[k]) in DiNotes(Taken(m, drop))
  {
    assert k in Taken(m, drop);
  }

  lemma CutIsTold(s: State, e: Revoking, k: AttemptKey)
    ensures var (t, out) := StepRevoking(s, e);
      && (k in s.rendezvous && k !in t.rendezvous ==> RvNote(s.rendezvous[k]) in out.toDaemons)
      && (k in s.direct && k !in t.direct ==> DiNote(s.direct[k]) in out.toDaemons)
  {
    var rv, di := RvSelected(s, e), DiSelected(s, e);
    if k in s.rendezvous && k !in Keep(s.rendezvous, rv) { TakenIsNoted(s.rendezvous, rv, k); }
    if k in s.direct && k !in Keep(s.direct, di) { DirectIsNoted(s.direct, di, k); }
  }

  ghost function RvSelected(s: State, e: Revoking): Rendezvous -> bool {
    match e
    case CutSession(sid) => RvOfSession(sid)
    case CutUser(user, _) => RvOfUser(user, Peers(Taken(s.daemons, DmOfUser(user))))
    case CutAgent(token) => RvOfAgent(token, Peers(Taken(s.daemons, DmOfAgent(token))))
  }
  ghost function DiSelected(s: State, e: Revoking): DirectSession -> bool {
    match e
    case CutSession(sid) => DiOfSession(sid)
    case CutUser(user, _) => DiOfUser(user, Peers(Taken(s.daemons, DmOfUser(user))))
    case CutAgent(token) => DiOfAgent(token, Peers(Taken(s.daemons, DmOfAgent(token))))
  }

  lemma DaemonUpIsTold(s: State, e: Presence, k: AttemptKey)
    requires e.DaemonUp? && k in s.rendezvous && k !in StepPresence(s, e).0.rendezvous
    ensures RvNote(s.rendezvous[k]) in StepPresence(s, e).1.toDaemons
  {
    var key := DaemonKey(e.daemonOwner.userId, e.info.deviceId);
    if key in s.daemons { TakenIsNoted(s.rendezvous, RvOfPeers({s.daemons[key].peer}), k); }
  }

  lemma AskIsTold(s: State, e: Asking, k: AttemptKey)
    requires k in s.rendezvous && k !in StepAsking(s, e).0.rendezvous
    ensures RvNote(s.rendezvous[k]) in StepAsking(s, e).1.toDaemons
  {
    TakenIsNoted(s.rendezvous, RvOfAttempt(e.owner, e.daemonId, e.attemptId), k);
  }

  /** When such an event ends a rendezvous, its daemon is sent a close frame for it. */
  lemma EndedMeetingsAreTold(s: State, e: Event, k: AttemptKey)
    requires EndsMeetings(e) && k in s.rendezvous && k !in Step(s, e).0.rendezvous
    ensures RvNote(s.rendezvous[k]) in Step(s, e).1.toDaemons
  {
    match e
    case Here(DaemonUp(o, info, listed, reported, peer, v, at, picks)) => DaemonUpIsTold(s, e.presence, k);
    case Here(AppDown(p)) => TakenIsNoted(s.rendezvous, RvOfApp(p, s.apps[p].owner), k);
    case Here(DaemonDown(dev, peer)) => TakenIsNoted(s.rendezvous, RvOfPeers({peer}), k);
    case Pair(Untrust(dev, peer, fp)) => TakenIsNoted(s.rendezvous, RvOfPeerClient(peer, fp), k);
    case Cut(x) => CutIsTold(s, x, k);
    case Meet(CloseByApp(o, p, dev, id)) => TakenIsNoted(s.rendezvous, RvClosedByApp(o, p, dev, id), k);
    case Ask(x) => AskIsTold(s, x, k);
  }

  /** A rendezvous that a newer one of the same app session and daemon replaces is closed at its daemon. */
  lemma ReplacedMeetingIsTold(s: State, e: Meeting, k: AttemptKey)
    requires e.Open? && StepMeeting(s, e).1.ok && k in s.rendezvous && s.rendezvous[k].expiresAt > e.sweptAt
    requires RvOfRoute(e.owner, e.daemonId)(s.rendezvous[k])
    ensures RvNote(s.rendezvous[k]) in StepMeeting(s, e).1.toDaemons
    ensures k in StepMeeting(s, e).0.rendezvous ==> StepMeeting(s, e).0.rendezvous[k].serial == s.nextSerial
  {
    var swept := Keep(s.rendezvous, RvExpired(e.sweptAt));
    assert k in swept && swept[k] == s.rendezvous[k];
    TakenIsNoted(swept, RvOfRoute(e.owner, e.daemonId), k);
  }

  /** A direct session that is revoked, with its session, account, agent token or fingerprint, is closed at its
      daemon. */
  lemma RevokedSessionsAreTold(s: State, e: Event, k: AttemptKey)
    requires (e.Cut? || (e.Pair? && e.pairing.Untrust?)) && k in s.direct && k !in Step(s, e).0.direct
    ensures DiNote(s.direct[k]) in Step(s, e).1.toDaemons
  {
    match e
    case Pair(Untrust(dev, peer, fp)) => DirectIsNoted(s.direct, DiOfPeerClient(peer, fp), k);
    case Cut(x) => CutIsTold(s, x, k);
  }

  // ----- a daemon reaches only the client it names -----

  /** What a live daemon sends about a rendezvous reaches exactly one app: one that opened that attempt with this very
      daemon, has the fingerprint the daemon names, and is trusted by it. */
  lemma DaemonReachesItsClient(s: State, e: Meeting)
    requires AnchorInv(s) && (e.Hint? || e.CloseByDaemon?) && StepMeeting(s, e).1.ok
    ensures e.pick in s.rendezvous && StepMeeting(s, e).1.toDaemons == {}
    ensures var a := s.rendezvous[e.pick]; var k := DaemonKey(e.daemonOwner.userId, e.deviceId);
      && a.id == e.attemptId && a.appOwner.fingerprint == e.fp && a.appPeer in s.apps
        && s.apps[a.appPeer].owner == a.appOwner
      && k in s.daemons && s.daemons[k].owner == e.daemonOwner && s.daemons[k].peer == e.peer
        && e.fp in s.daemons[k].trusted
      && (forall n :: n in StepMeeting(s, e).1.toApps ==> n.peer == a.appPeer)
      && StepMeeting(s, e).1.toApps != {}
  {
    assert e.pick in s.rendezvous ==> RvOk(e.pick, s.rendezvous[e.pick], s.apps, s.daemons);
    if e.Hint? {
      assert AppNote(s.rendezvous[e.pick].appPeer, e.daemonOwner.userId, DaemonHint(e.attemptId, e.deviceId))
        in StepMeeting(s, e).1.toApps;
    } else {
      assert AppNote(s.rendezvous[e.pick].appPeer, e.daemonOwner.userId, ClosedByDaemon(e.attemptId, e.deviceId))
        in StepMeeting(s, e).1.toApps;
    }
  }

  /** The list an app is given when it registers is the view it starts from: the daemons it may see, and no others. */
  lemma ListIsTheView(s: State, owner: AppOwner, id: string)
    requires DmInv(s.daemons)
    ensures Seen(s, owner, id).Some? <==> DaemonKey(owner.userId, id) in VisibleDaemons(s, owner)
    ensures forall k :: k in VisibleDaemons(s, owner) ==>
      k in s.daemons && k.userId == owner.userId && Seen(s, owner, k.deviceId) == Some(s.daemons[k].info)
  {
    forall k | k in VisibleDaemons(s, owner) ensures k.userId == owner.userId { assert DmOk(k, s.daemons[k]); }
    var k := DaemonKey(owner.userId, id);
    if k in s.daemons { assert DmOk(k, s.daemons[k]); }
  }
}
