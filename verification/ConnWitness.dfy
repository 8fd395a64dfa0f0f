/** Runs from the start that reach the unusual states: a direct session left on a connection that is gone, and an app
    that still knows a daemon whose agent token was revoked. */
module ConnWitness {
  import opened Common
  import opened ConnModel
  import opened ConnInv
  import opened ConnAnchors
  import opened ConnRuns
  import opened ConnReach
  import opened ConnTheorems
  import opened ConnReconcile
  import opened ConnViews
  import opened Folds

  // ----- reaching worlds step by step -----

  lemma {:induction false} RunIsFold(w: World, es: seq<Event>, su: SessionUser)
    ensures Run(w, es) == Fold(NEXT, w, es)
    ensures AdmissibleRun(w, es, su) == Allowed(NEXT, MayHappen(su), w, es)
    decreases |es|
  {
    if es != [] { RunIsFold(Next(w, es[0]), es[1..], su); }
  }

  ghost const NEXT: (World, Event) -> World := (w, e) => Next(w, e)

  ghost function MayHappen(su: SessionUser): (World, Event) -> bool {
    (w, e) => Admissible(w, e, su)
  }

  lemma ReachableNext(w: World, e: Event, su: SessionUser)
    requires Reachable(w, su) && Admissible(w, e, su)
    ensures Reachable(Next(w, e), su)
  {
    var es :| AdmissibleRun(START, es, su) && w == Run(START, es);
    RunIsFold(START, es, su);
    RunIsFold(START, es + [e], su);
    OneMore(NEXT, MayHappen(su), START, es, e);
  }

  lemma StartIsReachable(su: SessionUser)
    ensures Reachable(START, su)
  {
    assert AdmissibleRun(START, [], su) && START == Run(START, []);
  }

  /** A reachable world with this registry, clock and these connections. */
  ghost predicate At(w: World, s: State, clock: Time, links: Links) {
    Reachable(w, ONE_ACCOUNT) && w.reg == s && w.clock == clock && w.links == links
  }

  lemma Go(w: World, e: Event, s: State, clock: Time, links: Links)
    requires Reachable(w, ONE_ACCOUNT) && Admissible(w, e, ONE_ACCOUNT)
    requires Step(w.reg, e).0 == s && Tick(w.clock, e) == clock && Linked(w.links, e) == links
    ensures At(Next(w, e), s, clock, links)
  {
    ReachableNext(w, e, ONE_ACCOUNT);
  }

  // ----- two apps with one fingerprint, each with a direct session of the same attempt id -----

  const ONE_ACCOUNT: SessionUser := (sid: string) => 1

  const APP1: AppOwner := AppOwner(1, "s1", "f", 1)
  const APP2: AppOwner := AppOwner(1, "s2", "f", 1)
  const DAEMON: DaemonOwner := DaemonOwner(1, "t")
  const INFO: DaemonInfo := DaemonInfo("d", "g", "")
  const DEVICE: DaemonKey := DaemonKey(1, "d")
  const OLD: DaemonPeer := 10
  const NEW: DaemonPeer := 11
  const KEY1: AttemptKey := AttemptKey(1, "s1", "f", "d", "x")
  const KEY2: AttemptKey := AttemptKey(1, "s2", "f", "d", "x")
  const REPORT: Report := Report("x", "f")

  function Meeting(key: AttemptKey, app: AppOwner, peer: AppPeer, serial: nat): Rendezvous {
    Rendezvous(key, "x", app, peer, DAEMON, "d", "g", OLD, Expiry(1, 0, DEFAULT_ATTEMPT_TTL), serial)
  }

  function Session(key: AttemptKey, app: AppOwner): DirectSession {
    DirectSession(key, "x", app, DAEMON, "d", "g", OLD, "f")
  }

  const S1: State := EMPTY.(apps := map[1 := LiveApp(APP1, 1, 1)])
  const S2: State := S1.(apps := S1.apps[2 := LiveApp(APP2, 2, 1)])
  const S3: State := S2.(daemons := map[DEVICE := LiveDaemon(INFO, DAEMON, OLD, {"f"}, 1)])
  const S4: State :=
    S3.(rendezvous := map[KEY1 := Meeting(KEY1, APP1, 1, 0)], rendezvousRequests := map[1 := [1]], nextSerial := 1)
  const S5: State := S4.(rendezvous := map[], direct := map[KEY1 := Session(KEY1, APP1)])
  const S6: State :=
    S5.(rendezvous := map[KEY2 := Meeting(KEY2, APP2, 2, 1)], rendezvousRequests := map[1 := [1, 1]], nextSerial := 2)
  const S7: State := S6.(rendezvous := map[], direct := S5.direct[KEY2 := Session(KEY2, APP2)])

  const E1: Event := Here(AppUp(APP1, 1, true, 1))
  const E2: Event := Here(AppUp(APP2, 2, true, 1))
  const E3: Event := Here(DaemonUp(DAEMON, INFO, ["f"], [], OLD, true, 1, []))
  const E4: Event := Meet(Open(APP1, 1, "d", "x", true, 0, 1, 1))
  const E5: Event := Meet(GoDirect(DAEMON, "d", OLD, "x", "f", 1, KEY1))
  const E6: Event := Meet(Open(APP2, 2, "d", "x", true, 0, 1, 1))
  const E7: Event := Meet(GoDirect(DAEMON, "d", OLD, "x", "f", 1, KEY2))

  lemma Apps()
    ensures Step(EMPTY, E1).0 == S1 && Step(S1, E2).0 == S2
  {
  }

  lemma Registered()
    ensures Step(S2, E3).0 == S3
  {
    assert TrustedSet(["f"]) == {"f"};
    var t := Step(S2, E3).0;
    assert t.direct == map[];
  }

  /** Opening a rendezvous where there is none. */
  lemma OpenAdds(s: State, app: AppOwner, peer: AppPeer, key: AttemptKey, requests: Lists)
    requires s.rendezvous == map[] && app.fingerprint == "f" && app.userId == 1 && key == KeyOf(app, "d", "x")
      && PeerActive(s, app, peer)
    requires DEVICE in s.daemons && s.daemons[DEVICE] == LiveDaemon(INFO, DAEMON, OLD, {"f"}, 1)
    requires var pruned := PruneRequests(s.rendezvousRequests, 1, 1);
      |Listed(pruned, 1)| < REQUEST_LIMIT && RecordRequest(pruned, 1, 1) == requests
    ensures Step(s, Meet(Open(app, peer, "d", "x", true, 0, 1, 1))).0 ==
      s.(rendezvous := map[key := Meeting(key, app, peer, s.nextSerial)], rendezvousRequests := requests,
        nextSerial := s.nextSerial + 1)
  {
    assert Keep(s.rendezvous, RvExpired(1)) == map[];
    assert Keep(s.rendezvous, RvOfRoute(app, "d")) == map[];
  }

  /** Turning the only rendezvous into a direct session. */
  lemma DirectMoves(s: State, app: AppOwner, peer: AppPeer, key: AttemptKey, serial: nat)
    requires s.rendezvous == map[key := Meeting(key, app, peer, serial)] && app.fingerprint == "f"
      && key == KeyOf(app, "d", "x")
    requires s.daemons == map[DEVICE := LiveDaemon(INFO, DAEMON, OLD, {"f"}, 1)]
    requires key !in s.tunnels.attempts && key !in s.direct && !Revoked(s, app)
    ensures Step(s, Meet(GoDirect(DAEMON, "d", OLD, "x", "f", 1, key))).0 ==
      s.(rendezvous := map[], direct := s.direct[key := Session(key, app)])
  {
    var swept := Keep(s.rendezvous, RvExpired(1));
    assert swept == s.rendezvous;
    assert ServesDevice(s.daemons[DEVICE], "d", OLD);
    assert s.rendezvous - {key} == map[];
  }

  lemma FirstRequest()
    ensures PruneRequests(map[], 1, 1) == map[] && RecordRequest(map[], 1, 1) == map[1 := [1]]
  {
    var none: Lists := map[];
    assert Listed(none, 1) == [] && Recent([], 1 - REQUEST_WINDOW) + [1] == [1];
  }

  lemma SecondRequest()
    ensures PruneRequests(map[1 := [1]], 1, 1) == map[1 := [1]]
      && RecordRequest(map[1 := [1]], 1, 1) == map[1 := [1, 1]]
  {
    var one: Lists := map[1 := [1]];
    assert Listed(one, 1) == [1] && Recent([1], 1 - REQUEST_WINDOW) == [1] && [1] + [1] == [1, 1];
    assert one[1 := [1]] == one && one[1 := [1, 1]] == map[1 := [1, 1]];
  }

  lemma Opened1()
    ensures Step(S3, E4).0 == S4
  {
    FirstRequest();
    OpenAdds(S3, APP1, 1, KEY1, map[1 := [1]]);
  }

  lemma Direct1()
    ensures Step(S4, E5).0 == S5
  {
    DirectMoves(S4, APP1, 1, KEY1, 0);
  }

  lemma Opened2()
    ensures Step(S5, E6).0 == S6
  {
    SecondRequest();
    OpenAdds(S5, APP2, 2, KEY2, map[1 := [1, 1]]);
  }

  lemma Direct2()
    ensures Step(S6, E7).0 == S7
  {
    DirectMoves(S6, APP2, 2, KEY2, 1);
  }

  lemma Go1(w: World)
    requires At(w, EMPTY, ZERO_TIME, map[])
    ensures At(Next(w, E1), S1, 1, map[])
  {
    Apps();
    Go(w, E1, S1, 1, map[]);
  }

  lemma Go2(w: World)
    requires At(w, S1, 1, map[])
    ensures At(Next(w, E2), S2, 1, map[])
  {
    Apps();
    Go(w, E2, S2, 1, map[]);
  }

  lemma Go3(w: World)
    requires At(w, S2, 1, map[])
    ensures At(Next(w, E3), S3, 1, map[OLD := DAEMON])
  {
    Registered();
    Go(w, E3, S3, 1, map[OLD := DAEMON]);
  }

  lemma Go4(w: World)
    requires At(w, S3, 1, map[OLD := DAEMON])
    ensures At(Next(w, E4), S4, 1, map[OLD := DAEMON])
  {
    Opened1();
    Go(w, E4, S4, 1, map[OLD := DAEMON]);
  }

  lemma Go5(w: World)
    requires At(w, S4, 1, map[OLD := DAEMON])
    ensures At(Next(w, E5), S5, 1, map[OLD := DAEMON])
  {
    Direct1();
    Go(w, E5, S5, 1, map[OLD := DAEMON]);
  }

  lemma Go6(w: World)
    requires At(w, S5, 1, map[OLD := DAEMON])
    ensures At(Next(w, E6), S6, 1, map[OLD := DAEMON])
  {
    Opened2();
    Go(w, E6, S6, 1, map[OLD := DAEMON]);
  }

  lemma Go7(w: World)
    requires At(w, S6, 1, map[OLD := DAEMON])
    ensures At(Next(w, E7), S7, 1, map[OLD := DAEMON])
  {
    Direct2();
    Go(w, E7, S7, 1, map[OLD := DAEMON]);
  }

  /** Two apps and a daemon that trusts them. */
  lemma AllConnected() returns (w: World)
    ensures At(w, S3, 1, map[OLD := DAEMON])
  {
    StartIsReachable(ONE_ACCOUNT);
    w := START;
    Go1(w);
    w := Next(w, E1);
    Go2(w);
    w := Next(w, E2);
    Go3(w);
    w := Next(w, E3);
  }

  /** Both direct sessions are there, on the old connection. */
  lemma TwoSessions() returns (w: World)
    ensures At(w, S7, 1, map[OLD := DAEMON])
  {
    w := AllConnected();
    Go4(w);
    w := Next(w, E4);
    Go5(w);
    w := Next(w, E5);
    Go6(w);
    w := Next(w, E6);
    Go7(w);
    w := Next(w, E7);
  }

  // ----- the agent token is revoked -----

  lemma SeenByApp()
    ensures DmInv(S3.daemons) && Seen(S3, APP1, "d") == Some(INFO) && Unannounced(S3, Cut(CutAgent("t")), APP1, "d")
  {
    assert S3.daemons[DEVICE].owner.agentTokenId == "t";
  }

  /** An app with connection 1 that follows its frames still knows the daemon, and the daemon is gone. */
  ghost predicate KnowsTheGone(w: World, token: string) {
    && Reachable(w, ONE_ACCOUNT) && Admissible(w, Cut(CutAgent(token)), ONE_ACCOUNT)
    && After(Seen(w.reg, APP1, "d"), DisconnectAgentToken(w.reg, token).1.toApps, 1, "d") == Some(INFO)
    && Seen(DisconnectAgentToken(w.reg, token).0, APP1, "d") == None
  }

  /** The exception to exact views is reached from the start. */
  lemma GoneDaemonIsKnown() returns (w: World)
    ensures KnowsTheGone(w, "t")
  {
    w := AllConnected();
    SeenByApp();
    RevokedAgentStaysKnown(S3, "t", 1, APP1, "d");
  }

  // ----- the daemon comes back -----

  /** What the daemon's next registration leaves of the record at `k`. */
  ghost predicate LeftBehind(w: World, listed: seq<string>, picks: seq<AttemptKey>, k: AttemptKey) {
    var e := Return(listed, picks);
    && Reachable(w, ONE_ACCOUNT) && Admissible(w, e, ONE_ACCOUNT) && GoodPicks(w.reg, DAEMON, INFO, [REPORT], picks)
    && DEVICE in Next(w, e).reg.daemons && Next(w, e).reg.daemons[DEVICE].peer == NEW
    && k in Next(w, e).reg.direct && Next(w, e).reg.direct[k].daemonPeer == OLD
  }

  /** A record of this daemon with the reported attempt id and fingerprint. */
  ghost predicate OnOldConnection(s: State, k: AttemptKey) {
    k in s.direct && DiCandidate(s.direct[k], DAEMON, "d", "x", "f") && s.direct[k].daemonPeer == OLD
  }

  lemma BehindAfterReports(s: State, listed: seq<string>, k: AttemptKey, pick: AttemptKey)
    requires OnOldConnection(s, k) && OnOldConnection(s, pick) && (pick != k || "f" !in TrustedSet(listed))
    ensures var n := Reconcile(s, DAEMON, INFO, TrustedSet(listed), [REPORT], NEW, [pick]).direct;
      k in n && n[k].daemonPeer == OLD
  {
    StaleExactlyWhen(s, DAEMON, INFO, TrustedSet(listed), [REPORT], NEW, [pick], k);
    KeptIsOldOrRebound(s, DAEMON, INFO, TrustedSet(listed), [REPORT], NEW, [pick], k);
  }

  lemma BehindAfterStep(s: State, listed: seq<string>, k: AttemptKey, pick: AttemptKey)
    requires OnOldConnection(s, k) && OnOldConnection(s, pick) && (pick != k || "f" !in TrustedSet(listed))
    requires (forall j :: j in s.daemons ==> s.daemons[j].peer != NEW) && DAEMON.agentTokenId !in s.revoked.agents
    ensures var t := StepPresence(s, DaemonUp(DAEMON, INFO, listed, [REPORT], NEW, true, 1, [pick])).0;
      && k in t.direct && t.direct[k].daemonPeer == OLD
      && DEVICE in t.daemons && t.daemons[DEVICE].peer == NEW
  {
    RegisterDaemonShape(s, DAEMON, INFO, listed, [REPORT], NEW, true, 1, [pick]);
    BehindAfterReports(WithDaemon(s, DAEMON, INFO, listed, NEW, 1), listed, k, pick);
  }

  lemma TwoSessionsAreOld()
    ensures OnOldConnection(S7, KEY1) && OnOldConnection(S7, KEY2)
    ensures GoodPicks(S7, DAEMON, INFO, [REPORT], [KEY1])
    ensures (forall j :: j in S7.daemons ==> S7.daemons[j].peer != NEW) && DAEMON.agentTokenId !in S7.revoked.agents
  {
  }

  /** The daemon's next registration. */
  function Return(listed: seq<string>, picks: seq<AttemptKey>): Event {
    Here(DaemonUp(DAEMON, INFO, listed, [REPORT], NEW, true, 1, picks))
  }

  lemma MayReturn(w: World, listed: seq<string>, picks: seq<AttemptKey>)
    requires At(w, S7, 1, map[OLD := DAEMON])
    ensures Admissible(w, Return(listed, picks), ONE_ACCOUNT)
  {
  }

  lemma StaysBehind(w: World, listed: seq<string>, k: AttemptKey)
    requires At(w, S7, 1, map[OLD := DAEMON]) && (k == KEY2 || (k == KEY1 && "f" !in TrustedSet(listed)))
    ensures LeftBehind(w, listed, [KEY1], k)
  {
    TwoSessionsAreOld();
    BehindAfterStep(S7, listed, k, KEY1);
    MayReturn(w, listed, [KEY1]);
  }

  /** Two reachable ways to leave a reported session on a connection that is gone: its fingerprint is no longer trusted,
      or it is trusted and the session of another app with the same attempt id and fingerprint was found first. */
  lemma StaleSessionsAreReachable() returns (w: World)
    ensures LeftBehind(w, [], [KEY1], KEY1)
    ensures LeftBehind(w, ["f"], [KEY1], KEY2)
  {
    w := TwoSessions();
    StaysBehind(w, [], KEY1);
    StaysBehind(w, ["f"], KEY2);
  }
}
