/** The relay connectivity registry as a value: its linked maps, and one function
    per lock-held region that maps a state to the next state and to what the
    region hands out (frames, closers to run, tokens).

    Identifiers are taken as already trimmed and lower-cased.  A choice that the
    implementation leaves to map iteration order is an explicit argument `pick`. */
module ConnModel {
  import opened Common

  // ----- values -----

  type Time = int
  type AppPeer = nat
  type DaemonPeer = nat
  type Token = nat
  type Closer = nat

  const SECOND: Time := 1_000_000_000
  const REQUEST_LIMIT := 10
  const REQUEST_WINDOW: Time := 60 * SECOND
  const IN_FLIGHT_LIMIT := 4
  const DEFAULT_ATTEMPT_TTL: Time := 30 * SECOND
  const DEFAULT_PAIRING_TTL: Time := 300 * SECOND
  const ZERO_TIME: Time := 0

  datatype Actor = Client | Daemon

  datatype AppOwner = AppOwner(userId: int, sessionId: string, fingerprint: string, createdAt: Time)
  datatype DaemonOwner = DaemonOwner(userId: int, agentTokenId: string)
  datatype DaemonInfo = DaemonInfo(deviceId: string, fingerprint: string, profile: string)

  datatype DaemonKey = DaemonKey(userId: int, deviceId: string)
  datatype CorrelationKey = CorrelationKey(userId: int, id: string)
  datatype AttemptKey = AttemptKey(userId: int, sessionId: string, fingerprint: string, daemonId: string,
                                   attemptId: string)

  datatype LiveApp = LiveApp(owner: AppOwner, peer: AppPeer, connectedAt: Time)
  datatype LiveDaemon = LiveDaemon(info: DaemonInfo, owner: DaemonOwner, peer: DaemonPeer, trusted: set<string>,
                                   connectedAt: Time)
  datatype Correlation = Correlation(id: string, owner: DaemonOwner, daemonKey: DaemonKey, peer: DaemonPeer,
                                     expiresAt: Time)

  /** `serial` stands for the identity of the heap object the attempt is. */
  datatype Rendezvous = Rendezvous(key: AttemptKey, id: string, appOwner: AppOwner, appPeer: AppPeer,
                                   daemonOwner: DaemonOwner, daemonDeviceId: string, daemonFingerprint: string,
                                   daemonPeer: DaemonPeer, expiresAt: Time, serial: nat)

  datatype TunnelAttempt = TunnelAttempt(key: AttemptKey, id: string, appOwner: AppOwner,
                                         daemonOwner: DaemonOwner, daemonDeviceId: string, daemonFingerprint: string,
                                         daemonPeer: DaemonPeer, appToken: Token, daemonToken: Token,
                                         appRedeemed: bool, daemonRedeemed: bool, active: bool,
                                         expiresAt: Time, closers: map<nat, Closer>, serial: nat)

  datatype DirectSession = DirectSession(key: AttemptKey, id: string, appOwner: AppOwner,
                                         daemonOwner: DaemonOwner, daemonDeviceId: string, daemonFingerprint: string,
                                         daemonPeer: DaemonPeer, androidFingerprint: string)

  datatype TunnelToken = TunnelToken(key: AttemptKey, actor: Actor)
  datatype Report = Report(attemptId: string, fingerprint: string)
  datatype Redemption = Redemption(key: AttemptKey, actor: Actor, appOwner: AppOwner, daemonDeviceId: string,
                                   daemonFingerprint: string, serial: nat)

  /** The maps that only relay tunnels use. */
  datatype Tunnels = Tunnels(
    attempts: map<AttemptKey, TunnelAttempt>,
    tokens: map<Token, TunnelToken>,
    requests: map<int, seq<Time>>,
    nextCloserId: nat)

  /** The revocation sets. */
  datatype Revocations = Revocations(apps: set<string>, agents: set<string>, cutoffs: map<int, Time>)

  datatype State = State(
    apps: map<AppPeer, LiveApp>,
    daemons: map<DaemonKey, LiveDaemon>,
    correlations: map<CorrelationKey, Correlation>,
    direct: map<AttemptKey, DirectSession>,
    rendezvous: map<AttemptKey, Rendezvous>,
    rendezvousRequests: map<int, seq<Time>>,
    tunnels: Tunnels,
    revoked: Revocations,
    nextSerial: nat)

  const EMPTY: State :=
    State(map[], map[], map[], map[], map[], map[], Tunnels(map[], map[], map[], 0), Revocations({}, {}, map[]), 0)

  /** Frames queued for a connection; `account` is the account the frame is about. */
  datatype AppFrame = Visible(info: DaemonInfo) | Removed(deviceId: string, fingerprint: string)
                    | ClientRevoked(deviceId: string, fingerprint: string) | DaemonHint(attemptId: string,
                      deviceId: string)
                    | ClosedByDaemon(attemptId: string, deviceId: string)
  datatype DaemonFrame = RendezvousClose(attemptId: string, deviceId: string, fingerprint: string)
                       | DirectClose(attemptId: string, deviceId: string, fingerprint: string)
                       | ClientHint(attemptId: string, fingerprint: string)
                       | TunnelReady(attemptId: string, fingerprint: string, token: Token)
                       | PairResponse
  datatype AppNote = AppNote(peer: AppPeer, account: int, frame: AppFrame)
  datatype DaemonNote = DaemonNote(peer: DaemonPeer, account: int, frame: DaemonFrame)

  /** What a region does to relay tunnels besides changing their maps: closers to run,
      received or withdrawn, the attempt issued, the redemption granted, the request recorded. */
  datatype Effects = Effects(
    ran: multiset<Closer>,
    given: multiset<Closer>,
    withdrawn: multiset<Closer>,
    issued: Option<TunnelAttempt>,
    redeemed: Option<Redemption>,
    requestedAt: Option<(int, Time)>)

  const NO_EFFECT: Effects := Effects(multiset{}, multiset{}, multiset{}, None, None, None)

  function Ran(closers: multiset<Closer>): Effects { NO_EFFECT.(ran := closers) }

  /** What one lock-held region hands to the code that runs after it. */
  datatype Outcome = Outcome(
    ok: bool,
    toApps: set<AppNote>,
    toDaemons: set<DaemonNote>,
    fx: Effects,
    rendezvousAt: Option<(int, Time)>)

  const QUIET: Outcome := Outcome(false, {}, {}, NO_EFFECT, None)
  const DONE: Outcome := QUIET.(ok := true)

  // ----- queries -----

  function KeyOf(owner: AppOwner, daemonId: string, attemptId: string): AttemptKey {
    AttemptKey(owner.userId, owner.sessionId, owner.fingerprint, daemonId, attemptId)
  }

  predicate SameApp(a: AppOwner, b: AppOwner) {
    a.userId == b.userId && a.sessionId == b.sessionId && a.fingerprint == b.fingerprint
  }

  predicate AppRevoked(r: Revocations, owner: AppOwner) {
    || owner.sessionId in r.apps
    || (owner.userId in r.cutoffs && (owner.createdAt == ZERO_TIME || owner.createdAt <= r.cutoffs[owner.userId]))
  }

  predicate Revoked(s: State, owner: AppOwner) {
    AppRevoked(s.revoked, owner)
  }

  predicate PeerActive(s: State, owner: AppOwner, peer: AppPeer) {
    peer in s.apps && SameApp(s.apps[peer].owner, owner) && !Revoked(s, s.apps[peer].owner)
  }

  predicate OwnerActive(s: State, owner: AppOwner) {
    !Revoked(s, owner) && exists p :: p in s.apps && SameApp(s.apps[p].owner, owner)
  }

  predicate Trusts(s: State, key: DaemonKey, fingerprint: string) {
    key in s.daemons && fingerprint in s.daemons[key].trusted
  }

  predicate ServesDevice(d: LiveDaemon, deviceId: string, peer: DaemonPeer) {
    d.info.deviceId == deviceId && d.peer == peer
  }

  /** The live daemon found by device id and connection. */
  ghost function DaemonOf(s: State, deviceId: string, peer: DaemonPeer): (r: Option<DaemonKey>)
    ensures r.Some? ==> r.value in s.daemons && ServesDevice(s.daemons[r.value], deviceId, peer)
    ensures r.None? ==> forall k :: k in s.daemons ==> !ServesDevice(s.daemons[k], deviceId, peer)
  {
    if k :| k in s.daemons && ServesDevice(s.daemons[k], deviceId, peer) then Some(k) else None
  }

  /** Fingerprints a registering daemon lists, blanks skipped. */
  function TrustedSet(listed: seq<string>): set<string> {
    set f | f in listed && f != ""
  }

  /** The end of a lifetime that starts at `at`; a lifetime that is not positive falls back. */
  function Expiry(at: Time, ttl: Time, fallback: Time): (r: Time)
    ensures fallback > 0 ==> r > at
  {
    at + if ttl <= 0 then fallback else ttl
  }

  /** The request times of the last window. */
  function Recent(times: seq<Time>, cutoff: Time): seq<Time> {
    if times == [] then []
    else if times[0] > cutoff then [times[0]] + Recent(times[1..], cutoff)
    else Recent(times[1..], cutoff)
  }

  function Listed(m: map<int, seq<Time>>, user: int): seq<Time> {
    if user in m then m[user] else []
  }

  /** A request list pruned to the last window; an empty list is deleted. */
  function PruneRequests(m: map<int, seq<Time>>, user: int, now: Time): map<int, seq<Time>> {
    var kept := Recent(Listed(m, user), now - REQUEST_WINDOW);
    if Listed(m, user) == [] then m else if kept == [] then m - {user} else m[user := kept]
  }

  function RecordRequest(m: map<int, seq<Time>>, user: int, now: Time): map<int, seq<Time>> {
    m[user := Recent(Listed(m, user), now - REQUEST_WINDOW) + [now]]
  }

  function InFlight(attempts: map<AttemptKey, TunnelAttempt>, owner: AppOwner): set<AttemptKey> {
    set k | k in attempts && SameApp(attempts[k].appOwner, owner)
  }

  // ----- closers -----

  ghost function One(c: Closer): multiset<Closer> { multiset{c} }
  ghost function ClosersOf(a: TunnelAttempt): multiset<Closer> { Gather(a.closers, One) }

  /** All closers held by the attempts of `m`, with multiplicity. */
  ghost function Held(m: map<AttemptKey, TunnelAttempt>): multiset<Closer> { Gather(m, ClosersOf) }

  // ----- selecting entries -----

  function RvOfApp(peer: AppPeer, owner: AppOwner): Rendezvous -> bool {
    (a: Rendezvous) => a.appPeer == peer || SameApp(a.appOwner, owner)
  }
  function RvOfPeers(peers: set<DaemonPeer>): Rendezvous -> bool {
    (a: Rendezvous) => a.daemonPeer in peers
  }
  function RvOfPeerClient(peer: DaemonPeer, fp: string): Rendezvous -> bool {
    (a: Rendezvous) => a.daemonPeer == peer && a.appOwner.fingerprint == fp
  }
  function RvOfSession(sid: string): Rendezvous -> bool {
    (a: Rendezvous) => a.appOwner.sessionId == sid
  }
  function RvOfUser(user: int, peers: set<DaemonPeer>): Rendezvous -> bool {
    (a: Rendezvous) => a.daemonPeer in peers || a.appOwner.userId == user || a.daemonOwner.userId == user
  }
  function RvOfAgent(token: string, peers: set<DaemonPeer>): Rendezvous -> bool {
    (a: Rendezvous) => a.daemonPeer in peers || a.daemonOwner.agentTokenId == token
  }
  function RvOfRoute(owner: AppOwner, daemonId: string): Rendezvous -> bool {
    (a: Rendezvous) => SameApp(a.appOwner, owner) && a.daemonDeviceId == daemonId
  }
  function RvOfAttempt(owner: AppOwner, daemonId: string, attemptId: string): Rendezvous -> bool {
    (a: Rendezvous) => SameApp(a.appOwner, owner) && a.daemonDeviceId == daemonId && a.id == attemptId
  }
  function RvClosedByApp(owner: AppOwner, peer: AppPeer, daemonId: string, attemptId: string): Rendezvous -> bool {
    (a: Rendezvous) =>
      a.appPeer == peer && SameApp(a.appOwner, owner) && a.id == attemptId
      && (daemonId == "" || a.daemonDeviceId == daemonId)
  }
  function RvExpired(now: Time): Rendezvous -> bool {
    (a: Rendezvous) => a.expiresAt <= now
  }
  function RvSerial(key: AttemptKey, serial: nat): Rendezvous -> bool {
    (a: Rendezvous) => a.key == key && a.serial == serial
  }
  function RvTimedOut(key: AttemptKey, now: Time): Rendezvous -> bool {
    (a: Rendezvous) => a.key == key && a.expiresAt <= now
  }
  function AtOfPeers(peers: set<DaemonPeer>): TunnelAttempt -> bool {
    (a: TunnelAttempt) => a.daemonPeer in peers
  }
  function AtOfPeerClient(peer: DaemonPeer, fp: string): TunnelAttempt -> bool {
    (a: TunnelAttempt) => a.daemonPeer == peer && a.appOwner.fingerprint == fp
  }
  function AtOfSession(sid: string): TunnelAttempt -> bool {
    (a: TunnelAttempt) => a.appOwner.sessionId == sid
  }
  function AtOfUser(user: int): TunnelAttempt -> bool {
    (a: TunnelAttempt) => a.appOwner.userId == user || a.daemonOwner.userId == user
  }
  function AtOfAgent(token: string): TunnelAttempt -> bool {
    (a: TunnelAttempt) => a.daemonOwner.agentTokenId == token
  }
  function AtExpired(now: Time): TunnelAttempt -> bool {
    (a: TunnelAttempt) => !a.active && a.expiresAt <= now
  }
  function AtKeyed(key: AttemptKey): TunnelAttempt -> bool {
    (a: TunnelAttempt) => a.key == key
  }
  function AtSerial(key: AttemptKey, serial: nat): TunnelAttempt -> bool {
    (a: TunnelAttempt) => a.key == key && a.serial == serial
  }
  function AtTimedOut(key: AttemptKey, now: Time): TunnelAttempt -> bool {
    (a: TunnelAttempt) => a.key == key && !a.active && a.expiresAt <= now
  }
  function DiOfPeerClient(peer: DaemonPeer, fp: string): DirectSession -> bool {
    (d: DirectSession) => d.daemonPeer == peer && d.androidFingerprint == fp
  }
  function DiOfSession(sid: string): DirectSession -> bool {
    (d: DirectSession) => d.appOwner.sessionId == sid
  }
  function DiOfUser(user: int, peers: set<DaemonPeer>): DirectSession -> bool {
    (d: DirectSession) => d.daemonPeer in peers || d.appOwner.userId == user || d.daemonOwner.userId == user
  }
  function DiOfAgent(token: string, peers: set<DaemonPeer>): DirectSession -> bool {
    (d: DirectSession) => d.daemonPeer in peers || d.daemonOwner.agentTokenId == token
  }
  function DiUnreported(owner: DaemonOwner, deviceId: string, reported: seq<Report>): DirectSession -> bool {
    (d: DirectSession) =>
      d.daemonOwner == owner && d.daemonDeviceId == deviceId && Report(d.id, d.androidFingerprint) !in reported
  }
  function CoOfDaemon(key: DaemonKey, peer: DaemonPeer): Correlation -> bool {
    (c: Correlation) => c.daemonKey == key && c.peer == peer
  }
  function CoOfDaemons(gone: map<DaemonKey, LiveDaemon>): Correlation -> bool {
    (c: Correlation) => c.daemonKey in gone && c.peer == gone[c.daemonKey].peer
  }
  function CoExpired(now: Time): Correlation -> bool {
    (c: Correlation) => c.expiresAt <= now
  }
  function DmOfUser(user: int): LiveDaemon -> bool {
    (d: LiveDaemon) => d.owner.userId == user
  }
  function DmOfAgent(token: string): LiveDaemon -> bool {
    (d: LiveDaemon) => d.owner.agentTokenId == token
  }
  function ApOfSession(sid: string): LiveApp -> bool {
    (a: LiveApp) => a.owner.sessionId == sid
  }
  function ApOfUser(user: int): LiveApp -> bool {
    (a: LiveApp) => a.owner.userId == user
  }

  /** Rendezvous attempts a daemon may name by attempt id and client fingerprint. */
  predicate RvCandidate(a: Rendezvous, owner: DaemonOwner, deviceId: string, peer: DaemonPeer, attemptId: string,
                        fp: string) {
    a.id == attemptId && a.daemonPeer == peer && a.daemonOwner == owner && a.daemonDeviceId == deviceId
      && a.appOwner.fingerprint == fp
  }

  predicate DiCandidate(d: DirectSession, owner: DaemonOwner, deviceId: string, attemptId: string, fp: string) {
    d.id == attemptId && d.daemonOwner == owner && d.daemonDeviceId == deviceId && d.androidFingerprint == fp
  }

  // ----- removing entries -----

  function Peers(daemons: map<DaemonKey, LiveDaemon>): set<DaemonPeer> {
    set k | k in daemons :: daemons[k].peer
  }

  function TokensOf(m: map<AttemptKey, TunnelAttempt>): set<Token> {
    (set k | k in m :: m[k].appToken) + (set k | k in m :: m[k].daemonToken)
  }

  function RvNote(a: Rendezvous): DaemonNote {
    DaemonNote(a.daemonPeer, a.appOwner.userId, RendezvousClose(a.id, a.daemonDeviceId, a.appOwner.fingerprint))
  }

  function DiNote(d: DirectSession): DaemonNote {
    DaemonNote(d.daemonPeer, d.appOwner.userId, DirectClose(d.id, d.daemonDeviceId, d.androidFingerprint))
  }

  function RvNotes(m: map<AttemptKey, Rendezvous>): set<DaemonNote> {
    set k | k in m :: RvNote(m[k])
  }

  function DiNotes(m: map<AttemptKey, DirectSession>): set<DaemonNote> {
    set k | k in m :: DiNote(m[k])
  }

  /** Removing attempts with both their tokens. */
  function DropFrom(x: Tunnels, drop: TunnelAttempt -> bool): Tunnels {
    x.(attempts := Keep(x.attempts, drop), tokens := x.tokens - TokensOf(Taken(x.attempts, drop)))
  }

  function DropAttempts(s: State, drop: TunnelAttempt -> bool): State {
    s.(tunnels := DropFrom(s.tunnels, drop))
  }

  /** The closers that removing those attempts leaves to run. */
  ghost function Freed(x: Tunnels, drop: TunnelAttempt -> bool): multiset<Closer> {
    Held(Taken(x.attempts, drop))
  }

  /** App connections of an account whose fingerprint is in `fps`. */
  function AppsTrusted(apps: map<AppPeer, LiveApp>, user: int, fps: set<string>): set<AppPeer> {
    set p | p in apps && apps[p].owner.userId == user && apps[p].owner.fingerprint in fps
  }

  function Tell(peers: set<AppPeer>, account: int, frame: AppFrame): set<AppNote> {
    set p | p in peers :: AppNote(p, account, frame)
  }

  // ----- apps and daemons -----

  function RegisterApp(s: State, owner: AppOwner, peer: AppPeer, stillValid: bool, now: Time): (State, Outcome) {
    if !stillValid || Revoked(s, owner) then (s, QUIET)
    else (s.(apps := s.apps[peer := LiveApp(owner, peer, now)]), DONE)
  }

  /** The daemons an app is shown when it registers. */
  function VisibleDaemons(s: State, owner: AppOwner): set<DaemonKey> {
    set k | k in s.daemons && s.daemons[k].owner.userId == owner.userId && owner.fingerprint in s.daemons[k].trusted
  }

  function DisconnectApp(s: State, peer: AppPeer): (State, Outcome) {
    if peer !in s.apps then (s, QUIET) else
      var drop := RvOfApp(peer, s.apps[peer].owner);
      (s.(apps := s.apps - {peer}, rendezvous := Keep(s.rendezvous, drop)),
       DONE.(toDaemons := RvNotes(Taken(s.rendezvous, drop))))
  }

  /** Taking out a daemon connection that is superseded or gone, with everything bound to it. */
  function Supersede(s: State, key: DaemonKey): State
    requires key in s.daemons
  {
    var peer := s.daemons[key].peer;
    DropAttempts(
      s.(daemons := s.daemons - {key},
         correlations := Keep(s.correlations, CoOfDaemon(key, peer)),
         rendezvous := Keep(s.rendezvous, RvOfPeers({peer}))),
      AtOfPeers({peer}))
  }

  /** Whether a reported direct session is rebound (by the entry at `pick`). */
  predicate Rebinds(s: State, owner: DaemonOwner, info: DaemonInfo, trusted: set<string>, report: Report,
                    pick: AttemptKey) {
    && report.attemptId != "" && report.fingerprint != ""
    && pick in s.direct && DiCandidate(s.direct[pick], owner, info.deviceId, report.attemptId, report.fingerprint)
    && !Revoked(s, s.direct[pick].appOwner) && report.fingerprint in trusted
  }

  function Rebind(d: DirectSession, info: DaemonInfo, peer: DaemonPeer): DirectSession {
    d.(daemonPeer := peer, daemonFingerprint := info.fingerprint)
  }

  /** Direct sessions after the first `n` reports have been handled. */
  function RebindReported(s: State, owner: DaemonOwner, info: DaemonInfo, trusted: set<string>,
                          reported: seq<Report>, peer: DaemonPeer, picks: seq<AttemptKey>, n: nat)
    : map<AttemptKey, DirectSession>
    requires n <= |reported| && |picks| == |reported|
  {
    map k | k in s.direct ::
      if exists i :: 0 <= i < n && picks[i] == k && Rebinds(s, owner, info, trusted, reported[i], picks[i])
      then Rebind(s.direct[k], info, peer) else s.direct[k]
  }

  function ReportNotes(s: State, owner: DaemonOwner, info: DaemonInfo, trusted: set<string>,
                       reported: seq<Report>, peer: DaemonPeer, picks: seq<AttemptKey>, n: nat): set<DaemonNote>
    requires n <= |reported| && |picks| == |reported|
  {
    set i | 0 <= i < n && reported[i].attemptId != "" && reported[i].fingerprint != ""
            && !Rebinds(s, owner, info, trusted, reported[i], picks[i])
      :: DaemonNote(peer, owner.userId, DirectClose(reported[i].attemptId, info.deviceId, reported[i].fingerprint))
  }

  /** Reports whose blanks were skipped. */
  function NonBlank(reported: seq<Report>): seq<Report> {
    if reported == [] then []
    else if reported[0].attemptId == "" || reported[0].fingerprint == "" then NonBlank(reported[1..])
    else [reported[0]] + NonBlank(reported[1..])
  }

  function Reconcile(s: State, owner: DaemonOwner, info: DaemonInfo, trusted: set<string>,
                     reported: seq<Report>, peer: DaemonPeer, picks: seq<AttemptKey>): State
    requires |picks| == |reported|
  {
    s.(direct := Keep(RebindReported(s, owner, info, trusted, reported, peer, picks, |reported|),
                      DiUnreported(owner, info.deviceId, NonBlank(reported))))
  }

  /** A pick names a candidate whenever there is one. */
  ghost predicate GoodPicks(s: State, owner: DaemonOwner, info: DaemonInfo, reported: seq<Report>,
                            picks: seq<AttemptKey>) {
    && |picks| == |reported|
    && forall i, k ::
         (&& 0 <= i < |reported| && k in s.direct
          && DiCandidate(s.direct[k], owner, info.deviceId, reported[i].attemptId, reported[i].fingerprint)) ==>
         (&& picks[i] in s.direct
          && DiCandidate(s.direct[picks[i]], owner, info.deviceId, reported[i].attemptId, reported[i].fingerprint))
  }

  ghost function RegisterDaemon(s: State, owner: DaemonOwner, info: DaemonInfo, listed: seq<string>,
                                reported: seq<Report>, peer: DaemonPeer, stillValid: bool, now: Time,
                                picks: seq<AttemptKey>): (State, Outcome)
    requires |picks| == |reported|
  {
    if !stillValid || owner.agentTokenId in s.revoked.agents then (s, QUIET) else
      var trusted := TrustedSet(listed);
      var key := DaemonKey(owner.userId, info.deviceId);
      var superseding := key in s.daemons && s.daemons[key].peer != peer;
      var s1 := if superseding then Supersede(s, key) else s;
      var s2 := s1.(daemons := s1.daemons[key := LiveDaemon(info, owner, peer, trusted, now)]);
      var upserts := Tell(AppsTrusted(s.apps, owner.userId, trusted), owner.userId, Visible(info));
      var closes := ReportNotes(s2, owner, info, trusted, reported, peer, picks, |reported|);
      (Reconcile(s2, owner, info, trusted, reported, peer, picks),
       if superseding then
         var prior := s.daemons[key];
         DONE.(toApps := upserts
           + Tell(AppsTrusted(s.apps, prior.owner.userId, prior.trusted - trusted), prior.owner.userId,
           Removed(prior.info.deviceId, prior.info.fingerprint)),
               toDaemons := closes + RvNotes(Taken(s.rendezvous, RvOfPeers({prior.peer}))),
               fx := Ran(Freed(s.tunnels, AtOfPeers({prior.peer}))))
       else DONE.(toApps := upserts, toDaemons := closes))
  }

  ghost function DisconnectDaemon(s: State, deviceId: string, peer: DaemonPeer): (State, Outcome) {
    match DaemonOf(s, deviceId, peer)
    case None => (s, QUIET)
    case Some(key) =>
      var live := s.daemons[key];
      (Supersede(s, key),
       DONE.(toApps :=
         Tell(AppsTrusted(s.apps, live.owner.userId, live.trusted), live.owner.userId,
         Removed(live.info.deviceId, live.info.fingerprint)),
             toDaemons := RvNotes(Taken(s.rendezvous, RvOfPeers({peer}))),
             fx := Ran(Freed(s.tunnels, AtOfPeers({peer})))))
  }

  ghost function RevokeTrusted(s: State, deviceId: string, peer: DaemonPeer, fp: string): (State, Outcome) {
    match DaemonOf(s, deviceId, peer)
    case None => (s, QUIET)
    case Some(key) =>
      var live := s.daemons[key];
      (DropAttempts(
         s.(daemons := s.daemons[key := live.(trusted := live.trusted - {fp})],
            rendezvous := Keep(s.rendezvous, RvOfPeerClient(peer, fp)),
            direct := Keep(s.direct, DiOfPeerClient(peer, fp))),
         AtOfPeerClient(peer, fp)),
       DONE.(toApps :=
         Tell(AppsTrusted(s.apps, live.owner.userId, {fp}), live.owner.userId,
         ClientRevoked(live.info.deviceId, live.info.fingerprint)),
             toDaemons :=
               RvNotes(Taken(s.rendezvous, RvOfPeerClient(peer, fp)))
               + DiNotes(Taken(s.direct, DiOfPeerClient(peer, fp))),
             fx := Ran(Freed(s.tunnels, AtOfPeerClient(peer, fp)))))
  }

  ghost function CompletePairing(s: State, deviceId: string, peer: DaemonPeer, fp: string): (State, Outcome) {
    if fp == "" then (s, QUIET) else
      match DaemonOf(s, deviceId, peer)
      case None => (s, QUIET)
      case Some(key) =>
        var live := s.daemons[key];
        (s.(daemons := s.daemons[key := live.(trusted := live.trusted + {fp})]),
         DONE.(toApps := Tell(AppsTrusted(s.apps, live.owner.userId, {fp}), live.owner.userId, Visible(live.info))))
  }

  // ----- pairing correlations -----

  function ReservePairing(s: State, deviceId: string, owner: DaemonOwner, peer: DaemonPeer, id: string, ttl: Time,
                          sweptAt: Time, now: Time): (State, Outcome) {
    if id == "" then (s, QUIET) else
      var s1 := s.(correlations := Keep(s.correlations, CoExpired(sweptAt)));
      var key := DaemonKey(owner.userId, deviceId);
      if key !in s.daemons || s.daemons[key].owner != owner || s.daemons[key].peer != peer then (s1, QUIET)
      else (s1.(correlations := s1.correlations[CorrelationKey(owner.userId, id) :=
                  Correlation(id, owner, key, peer, Expiry(now, ttl, DEFAULT_PAIRING_TTL))]), DONE)
  }

  /** The lookup half of forwarding a pairing response. */
  function LookupPairing(s: State, user: int, appPeer: Option<AppPeer>, owner: AppOwner, id: string, now: Time)
    : (State, Outcome) {
    var key := CorrelationKey(user, id);
    if owner.sessionId != "" && Revoked(s, owner) then (s, QUIET)
    else if appPeer.Some? && !PeerActive(s, owner, appPeer.value) then (s, QUIET)
    else if key !in s.correlations then (s, QUIET)
    else if s.correlations[key].expiresAt <= now then (s.(correlations := s.correlations - {key}), QUIET)
    else (s, DONE.(toDaemons := {DaemonNote(s.correlations[key].peer, user, PairResponse)}))
  }

  /** The second half, after the response was sent to `peer`. */
  function FinishPairing(s: State, user: int, id: string, peer: DaemonPeer): (State, Outcome) {
    var key := CorrelationKey(user, id);
    if key in s.correlations && s.correlations[key].peer == peer && s.correlations[key].owner.userId == user
    then (s.(correlations := s.correlations - {key}), DONE) else (s, QUIET)
  }

  // ----- revocation -----

  ghost function DisconnectAppSession(s: State, sid: string): (State, Outcome) {
    (DropAttempts(
       s.(revoked := s.revoked.(apps := s.revoked.apps + {sid}),
          apps := Keep(s.apps, ApOfSession(sid)),
          rendezvous := Keep(s.rendezvous, RvOfSession(sid)),
          direct := Keep(s.direct, DiOfSession(sid))),
       AtOfSession(sid)),
     DONE.(toDaemons := RvNotes(Taken(s.rendezvous, RvOfSession(sid))) + DiNotes(Taken(s.direct, DiOfSession(sid))),
           fx := Ran(Freed(s.tunnels, AtOfSession(sid)))))
  }

  function SessionsOf(apps: map<AppPeer, LiveApp>): set<string> {
    set p | p in apps :: apps[p].owner.sessionId
  }

  ghost function DisconnectUser(s: State, user: int, now: Time): (State, Outcome) {
    var gone := Taken(s.daemons, DmOfUser(user));
    var rvDrop := RvOfUser(user, Peers(gone));
    var diDrop := DiOfUser(user, Peers(gone));
    (DropAttempts(
       s.(revoked := s.revoked.(cutoffs := s.revoked.cutoffs[user := now],
                                apps := s.revoked.apps + SessionsOf(Taken(s.apps, ApOfUser(user)))),
          apps := Keep(s.apps, ApOfUser(user)),
          daemons := Keep(s.daemons, DmOfUser(user)),
          correlations := Keep(s.correlations, CoOfDaemons(gone)),
          rendezvous := Keep(s.rendezvous, rvDrop),
          direct := Keep(s.direct, diDrop)),
       AtOfUser(user)),
     DONE.(toDaemons := RvNotes(Taken(s.rendezvous, rvDrop)) + DiNotes(Taken(s.direct, diDrop)),
           fx := Ran(Freed(s.tunnels, AtOfUser(user)))))
  }

  ghost function DisconnectAgentToken(s: State, token: string): (State, Outcome) {
    var gone := Taken(s.daemons, DmOfAgent(token));
    var rvDrop := RvOfAgent(token, Peers(gone));
    var diDrop := DiOfAgent(token, Peers(gone));
    (DropAttempts(
       s.(revoked := s.revoked.(agents := s.revoked.agents + {token}),
          daemons := Keep(s.daemons, DmOfAgent(token)),
          correlations := Keep(s.correlations, CoOfDaemons(gone)),
          rendezvous := Keep(s.rendezvous, rvDrop),
          direct := Keep(s.direct, diDrop)),
       AtOfAgent(token)),
     DONE.(toDaemons := RvNotes(Taken(s.rendezvous, rvDrop)) + DiNotes(Taken(s.direct, diDrop)),
           fx := Ran(Freed(s.tunnels, AtOfAgent(token)))))
  }

  // ----- rendezvous -----

  /** Granting a rendezvous: record the request, replace the app's rendezvous with this daemon. */
  function GrantRendezvous(s: State, owner: AppOwner, peer: AppPeer, daemonId: string, attemptId: string, now: Time,
                           expiresAt: Time): (State, Outcome)
    requires DaemonKey(owner.userId, daemonId) in s.daemons
  {
    var live := s.daemons[DaemonKey(owner.userId, daemonId)];
    var key := KeyOf(owner, daemonId, attemptId);
    var drop := RvOfRoute(owner, daemonId);
    (s.(rendezvousRequests := RecordRequest(s.rendezvousRequests, owner.userId, now),
        rendezvous := Keep(s.rendezvous, drop)[key :=
          Rendezvous(key, attemptId, owner, peer, live.owner, live.info.deviceId, live.info.fingerprint, live.peer,
            expiresAt, s.nextSerial)],
        nextSerial := s.nextSerial + 1),
     DONE.(rendezvousAt := Some((owner.userId, now)),
           toDaemons :=
             RvNotes(Taken(s.rendezvous, drop))
             + {DaemonNote(live.peer, owner.userId, ClientHint(attemptId, owner.fingerprint))}))
  }

  /** Opening a rendezvous after expired ones were swept. */
  function OpenSwept(s: State, owner: AppOwner, peer: AppPeer, daemonId: string, attemptId: string, now: Time,
                     expiresAt: Time): (State, Outcome) {
    if !PeerActive(s, owner, peer) || !Trusts(s, DaemonKey(owner.userId, daemonId), owner.fingerprint) then
      (s, QUIET) else
      var s1 := s.(rendezvousRequests := PruneRequests(s.rendezvousRequests, owner.userId, now));
      if |Listed(s1.rendezvousRequests, owner.userId)| >= REQUEST_LIMIT then (s1, QUIET)
      else GrantRendezvous(s1, owner, peer, daemonId, attemptId, now, expiresAt)
  }

  function OpenRendezvous(s: State, owner: AppOwner, peer: AppPeer, daemonId: string, attemptId: string,
                          candidatesValid: bool, ttl: Time, sweptAt: Time, now: Time): (State, Outcome) {
    if owner.fingerprint == "" || daemonId == "" || attemptId == "" || !candidatesValid then (s, QUIET)
    else OpenSwept(s.(rendezvous := Keep(s.rendezvous, RvExpired(sweptAt))), owner, peer, daemonId, attemptId, now,
      Expiry(now, ttl, DEFAULT_ATTEMPT_TTL))
  }

  /** The cleanup after the hint could not be sent; `serial` is the attempt that was opened. */
  function AbandonRendezvous(s: State, key: AttemptKey, serial: nat): (State, Outcome) {
    (s.(rendezvous := Keep(s.rendezvous, RvSerial(key, serial))), QUIET)
  }

  /** Whether the daemon may act on the rendezvous attempt at `pick`. */
  ghost predicate DaemonSpeaks(s: State, owner: DaemonOwner, deviceId: string, peer: DaemonPeer) {
    var k := DaemonOf(s, deviceId, peer);
    k.Some? && s.daemons[k.value].owner == owner
  }

  predicate RvPicked(s: State, owner: DaemonOwner, deviceId: string, peer: DaemonPeer, attemptId: string, fp: string,
                     pick: AttemptKey) {
    pick in s.rendezvous && RvCandidate(s.rendezvous[pick], owner, deviceId, peer, attemptId, fp)
  }

  ghost predicate GoodRvPick(s: State, owner: DaemonOwner, deviceId: string, peer: DaemonPeer, attemptId: string,
                             fp: string, pick: AttemptKey) {
    (exists k :: RvPicked(s, owner, deviceId, peer, attemptId, fp, k)) ==>
      RvPicked(s, owner, deviceId, peer, attemptId, fp, pick)
  }

  /** The state after a sweep of expired rendezvous attempts. */
  function SweptRendezvous(s: State, sweptAt: Time): State {
    s.(rendezvous := Keep(s.rendezvous, RvExpired(sweptAt)))
  }

  /** The search after the sweep finds a match whenever the daemon may speak and there is one. */
  ghost predicate GoodSweptPick(s: State, owner: DaemonOwner, deviceId: string, peer: DaemonPeer, attemptId: string,
                                fp: string, sweptAt: Time, pick: AttemptKey) {
    var s1 := SweptRendezvous(s, sweptAt);
    DaemonSpeaks(s1, owner, deviceId, peer) ==> GoodRvPick(s1, owner, deviceId, peer, attemptId, fp, pick)
  }

  ghost function ForwardHint(s: State, owner: DaemonOwner, deviceId: string, peer: DaemonPeer, attemptId: string,
                             fp: string, candidatesValid: bool, sweptAt: Time, now: Time, pick: AttemptKey)
    : (State, Outcome) {
    if deviceId == "" || attemptId == "" || fp == "" || !candidatesValid then (s, QUIET) else
      var s1 := s.(rendezvous := Keep(s.rendezvous, RvExpired(sweptAt)));
      if !DaemonSpeaks(s1, owner, deviceId, peer) || !RvPicked(s1, owner, deviceId, peer, attemptId, fp, pick)
        || s1.rendezvous[pick].expiresAt <= now
      then (s1, QUIET)
      else (s1, DONE.(toApps := {AppNote(s1.rendezvous[pick].appPeer, owner.userId, DaemonHint(attemptId, deviceId))}))
  }

  function CloseRendezvousFromApp(s: State, owner: AppOwner, peer: AppPeer, daemonId: string,
                                  attemptId: string): (State, Outcome) {
    if !PeerActive(s, owner, peer) then (s, QUIET) else
      var drop := RvClosedByApp(owner, peer, daemonId, attemptId);
      (s.(rendezvous := Keep(s.rendezvous, drop)),
       QUIET.(ok := Taken(s.rendezvous, drop).Keys != {}, toDaemons := RvNotes(Taken(s.rendezvous, drop))))
  }

  ghost function CloseRendezvousFromDaemon(s: State, owner: DaemonOwner, deviceId: string, peer: DaemonPeer,
                                           attemptId: string, fp: string, pick: AttemptKey): (State, Outcome) {
    if !DaemonSpeaks(s, owner, deviceId, peer) || !RvPicked(s, owner, deviceId, peer, attemptId, fp, pick) then
      (s, QUIET)
    else (s.(rendezvous := s.rendezvous - {pick}),
          DONE.(toApps := {AppNote(s.rendezvous[pick].appPeer, owner.userId, ClosedByDaemon(attemptId, deviceId))}))
  }

  function RendezvousTimer(s: State, key: AttemptKey, now: Time): (State, Outcome) {
    (s.(rendezvous := Keep(s.rendezvous, RvTimedOut(key, now))), QUIET)
  }

  // ----- direct sessions -----

  ghost function OpenDirect(s: State, owner: DaemonOwner, deviceId: string, peer: DaemonPeer, attemptId: string,
                            fp: string, sweptAt: Time, pick: AttemptKey): (State, Outcome) {
    if deviceId == "" || attemptId == "" || fp == "" then (s, QUIET) else
      var s1 := s.(rendezvous := Keep(s.rendezvous, RvExpired(sweptAt)));
      if !DaemonSpeaks(s1, owner, deviceId, peer) || !RvPicked(s1, owner, deviceId, peer, attemptId, fp, pick) then
        (s1, QUIET) else
        var a := s1.rendezvous[pick];
        var key := KeyOf(a.appOwner, deviceId, attemptId);
        if key in s1.tunnels.attempts || key in s1.direct || Revoked(s1, a.appOwner) then (s1, QUIET)
        else (s1.(rendezvous := s1.rendezvous - {pick},
                  direct :=
                    s1.direct[key :=
                    DirectSession(key, attemptId, a.appOwner, a.daemonOwner, a.daemonDeviceId, a.daemonFingerprint,
                    peer, a.appOwner.fingerprint)]),
              DONE)
  }

  predicate DiPicked(s: State, owner: DaemonOwner, deviceId: string, peer: DaemonPeer, attemptId: string, fp: string,
                     pick: AttemptKey) {
    pick in s.direct && s.direct[pick].daemonPeer == peer && DiCandidate(s.direct[pick], owner, deviceId, attemptId, fp)
  }

  ghost predicate GoodDiPick(s: State, owner: DaemonOwner, deviceId: string, peer: DaemonPeer, attemptId: string,
                             fp: string, pick: AttemptKey) {
    (exists k :: DiPicked(s, owner, deviceId, peer, attemptId, fp, k)) ==>
      DiPicked(s, owner, deviceId, peer, attemptId, fp, pick)
  }

  function CloseDirect(s: State, owner: DaemonOwner, deviceId: string, peer: DaemonPeer, attemptId: string, fp: string,
                       pick: AttemptKey): (State, Outcome) {
    if !DiPicked(s, owner, deviceId, peer, attemptId, fp, pick) then (s, QUIET)
    else (s.(direct := s.direct - {pick}), DONE)
  }

  // ----- relay tunnels -----

  /** Closers freed by a sweep at the start of the region run as well. */
  function AlsoRan(r: (State, Outcome), closers: multiset<Closer>): (State, Outcome) {
    (r.0, r.1.(fx := r.1.fx.(ran := closers + r.1.fx.ran)))
  }

  /** Whether an app may ask for a tunnel: through its own connection when it names one. */
  predicate MayRequest(s: State, owner: AppOwner, peer: Option<AppPeer>) {
    if peer.Some? then PeerActive(s, owner, peer.value) else OwnerActive(s, owner)
  }

  /** The new attempt of a granted tunnel request. */
  function NewAttempt(live: LiveDaemon, owner: AppOwner, daemonId: string, attemptId: string, expiresAt: Time,
                      tokens: (Token, Token), serial: nat): TunnelAttempt {
    TunnelAttempt(KeyOf(owner, daemonId, attemptId), attemptId, owner, live.owner, live.info.deviceId,
      live.info.fingerprint, live.peer,
                  tokens.0, tokens.1, false, false, false, expiresAt, map[], serial)
  }

  /** Putting a fresh attempt and its two tokens in place. */
  function PutIn(x: Tunnels, a: TunnelAttempt): Tunnels {
    x.(attempts := x.attempts[a.key := a],
       tokens := x.tokens[a.appToken := TunnelToken(a.key, Client)][a.daemonToken := TunnelToken(a.key, Daemon)])
  }

  /** Granting a tunnel request: record it, replace an older attempt, close the matching rendezvous. */
  ghost function GrantTunnel(s: State, owner: AppOwner, daemonId: string, attemptId: string, now: Time, expiresAt: Time,
                             minted: (Token, Token)): (State, Outcome)
    requires DaemonKey(owner.userId, daemonId) in s.daemons
  {
    var live := s.daemons[DaemonKey(owner.userId, daemonId)];
    var a := NewAttempt(live, owner, daemonId, attemptId, expiresAt, minted, s.nextSerial);
    var drop := RvOfAttempt(owner, daemonId, attemptId);
    (s.(tunnels :=
      PutIn(DropFrom(s.tunnels, AtKeyed(a.key)), a).(requests := RecordRequest(s.tunnels.requests, owner.userId, now)),
        rendezvous := Keep(s.rendezvous, drop),
        nextSerial := s.nextSerial + 1),
     DONE.(fx := Ran(Freed(s.tunnels, AtKeyed(a.key))).(issued := Some(a), requestedAt := Some((owner.userId, now))),
           toDaemons :=
             RvNotes(Taken(s.rendezvous, drop))
             + {DaemonNote(live.peer, owner.userId, TunnelReady(attemptId, owner.fingerprint, minted.1))}))
  }

  /** The app may reach the daemon and has no direct session under this attempt. */
  predicate Eligible(s: State, owner: AppOwner, peer: Option<AppPeer>, daemonId: string, attemptId: string) {
    && MayRequest(s, owner, peer)
    && Trusts(s, DaemonKey(owner.userId, daemonId), owner.fingerprint)
    && KeyOf(owner, daemonId, attemptId) !in s.direct
  }

  /** Rate limit, in-flight limit and the source of randomness all allow the request. */
  predicate Admits(x: Tunnels, owner: AppOwner, key: AttemptKey, minted: Option<(Token, Token)>) {
    && |Listed(x.requests, owner.userId)| < REQUEST_LIMIT
    && |InFlight(x.attempts, owner) - {key}| < IN_FLIGHT_LIMIT
    && minted.Some?
  }

  /** A tunnel request after expired attempts were swept; `minted` holds the two
      random tokens, or nothing when the source of randomness failed. */
  ghost function RequestSwept(s: State, owner: AppOwner, peer: Option<AppPeer>, daemonId: string, attemptId: string,
                              now: Time, expiresAt: Time, minted: Option<(Token, Token)>): (State, Outcome) {
    if !Eligible(s, owner, peer, daemonId, attemptId) then (s, QUIET) else
      var s1 := s.(tunnels := s.tunnels.(requests := PruneRequests(s.tunnels.requests, owner.userId, now)));
      if !Admits(s1.tunnels, owner, KeyOf(owner, daemonId, attemptId), minted) then (s1, QUIET)
      else GrantTunnel(s1, owner, daemonId, attemptId, now, expiresAt, minted.value)
  }

  ghost function RequestTunnel(s: State, owner: AppOwner, peer: Option<AppPeer>, daemonId: string, attemptId: string,
                               ttl: Time, sweptAt: Time, now: Time, later: Time,
                               minted: Option<(Token, Token)>): (State, Outcome) {
    if owner.fingerprint == "" || daemonId == "" || attemptId == "" then (s, QUIET) else
      AlsoRan(RequestSwept(DropAttempts(s, AtExpired(sweptAt)), owner, peer, daemonId, attemptId, now,
                           Expiry(later, ttl, DEFAULT_ATTEMPT_TTL), minted),
              Freed(s.tunnels, AtExpired(sweptAt)))
  }

  /** Removing tunnel attempts and running their closers. */
  ghost function Dropping(x: Tunnels, drop: TunnelAttempt -> bool): (Tunnels, Outcome) {
    (DropFrom(x, drop), QUIET.(ok := Taken(x.attempts, drop).Keys != {}, fx := Ran(Freed(x, drop))))
  }

  /** The cleanup after the ready frame could not be sent; `serial` is the attempt that was made. */
  ghost function AbandonTunnel(x: Tunnels, key: AttemptKey, serial: nat): (Tunnels, Outcome) {
    Dropping(x, AtSerial(key, serial))
  }

  predicate Redeemed(a: TunnelAttempt, actor: Actor) {
    match actor case Client => a.appRedeemed case Daemon => a.daemonRedeemed
  }

  function MarkRedeemed(a: TunnelAttempt, actor: Actor): TunnelAttempt {
    match actor case Client => a.(appRedeemed := true) case Daemon => a.(daemonRedeemed := true)
  }

  function RedemptionOf(a: TunnelAttempt, actor: Actor): Redemption {
    Redemption(a.key, actor, a.appOwner, a.daemonDeviceId, a.daemonFingerprint, a.serial)
  }

  function SetAttempt(x: Tunnels, key: AttemptKey, a: TunnelAttempt): Tunnels {
    x.(attempts := x.attempts[key := a])
  }

  /** Redeeming a token after expired attempts were swept. */
  ghost function RedeemSwept(x: Tunnels, token: Token, now: Time): (Tunnels, Outcome) {
    if token !in x.tokens then (x, QUIET) else
      var stored := x.tokens[token];
      if stored.key !in x.attempts then (x.(tokens := x.tokens - {token}), QUIET) else
        var a := x.attempts[stored.key];
        if a.expiresAt <= now then (DropFrom(x, AtKeyed(a.key)), QUIET.(fx := Ran(Freed(x, AtKeyed(a.key)))))
        else if Redeemed(a, stored.actor) then (x, QUIET)
        else (SetAttempt(x, stored.key, MarkRedeemed(a, stored.actor)).(tokens := x.tokens - {token}),
              DONE.(fx := NO_EFFECT.(redeemed := Some(RedemptionOf(a, stored.actor)))))
  }

  /** Redeeming a token; a blank token is `None`. */
  ghost function Redeem(s: State, token: Option<Token>, sweptAt: Time, now: Time): (State, Outcome) {
    if token.None? then (s, QUIET) else
      var r := RedeemSwept(DropFrom(s.tunnels, AtExpired(sweptAt)), token.value, now);
      AlsoRan((s.(tunnels := r.0), r.1), Freed(s.tunnels, AtExpired(sweptAt)))
  }

  function MarkActive(x: Tunnels, key: AttemptKey): (Tunnels, Outcome) {
    if key !in x.attempts then (x, QUIET) else (SetAttempt(x, key, x.attempts[key].(active := true)), DONE)
  }

  ghost function CloseTunnel(x: Tunnels, key: AttemptKey): (Tunnels, Outcome) {
    Dropping(x, AtKeyed(key))
  }

  ghost function SweepTunnels(x: Tunnels, now: Time): (Tunnels, Outcome) {
    Dropping(x, AtExpired(now))
  }

  ghost function TunnelTimer(x: Tunnels, key: AttemptKey, now: Time): (Tunnels, Outcome) {
    Dropping(x, AtTimedOut(key, now))
  }

  /** Registering a closer under the next identifier. */
  function HoldCloser(x: Tunnels, key: AttemptKey, closer: Closer): Tunnels
    requires key in x.attempts
  {
    x.(attempts :=
      x.attempts[key := x.attempts[key].(closers := x.attempts[key].closers[x.nextCloserId + 1 := closer])],
       nextCloserId := x.nextCloserId + 1)
  }

  function ReleaseCloser(x: Tunnels, key: AttemptKey, id: nat): Tunnels
    requires key in x.attempts
  {
    var a := x.attempts[key];
    SetAttempt(x, key, a.(closers := a.closers - {id}))
  }

  function AddCloser(x: Tunnels, key: AttemptKey, closer: Closer): (Tunnels, Outcome) {
    if key !in x.attempts then (x, QUIET.(fx := Ran(multiset{closer}).(given := multiset{closer})))
    else (HoldCloser(x, key, closer), DONE.(fx := NO_EFFECT.(given := multiset{closer})))
  }

  function WithdrawCloser(x: Tunnels, key: AttemptKey, id: nat): (Tunnels, Outcome) {
    if key !in x.attempts || id !in x.attempts[key].closers then (x, QUIET)
    else (ReleaseCloser(x, key, id), DONE.(fx := NO_EFFECT.(withdrawn := multiset{x.attempts[key].closers[id]})))
  }
}
