/** Admissible runs of the connectivity registry and what holds after every one of them. */
module ConnReach {
  import opened Common
  import opened ConnModel
  import opened ConnInv
  import opened ConnAnchors
  import opened ConnTunnels
  import opened ConnRates
  import opened ConnStory
  import opened ConnRuns
  import opened ConnWorld

  // ----- request histories -----

  type Lists = map<int, seq<Time>>

  ghost predicate Rates(lists: Lists, logs: Lists, clock: Time) {
    forall u :: RateOk(Listed(lists, u), Listed(logs, u), clock)
  }

  function Logged(logs: Lists, at: Option<(int, Time)>): Lists {
    match at
    case None => logs
    case Some((u, t)) => logs[u := Listed(logs, u) + [t]]
  }

  lemma RatesLater(lists: Lists, logs: Lists, clock: Time, later: Time)
    requires Rates(lists, logs, clock) && clock <= later
    ensures Rates(lists, logs, later)
  {
    forall u
      ensures RateOk(Listed(lists, u), Listed(logs, u), later)
    {
      assert RateOk(Listed(lists, u), Listed(logs, u), clock);
    }
  }

  lemma {:induction false} RecentTwice(times: seq<Time>, cutoff: Time)
    ensures Recent(Recent(times, cutoff), cutoff) == Recent(times, cutoff)
  {
    if times != [] { RecentTwice(times[1..], cutoff); }
  }

  lemma RelayingRequests(x: Tunnels, e: Relaying)
    ensures StepRelaying(x, e).0.requests == x.requests && StepRelaying(x, e).1.fx.requestedAt == None
  {
  }

  /** What a rate-limited request does to the lists: nothing, prune, or prune and record below the limit. */
  ghost predicate Limited(m: Lists, n: Lists, at: Option<(int, Time)>, user: int, now: Time) {
    var pruned := PruneRequests(m, user, now);
    || (n == m && at == None)
    || (n == pruned && at == None)
    || (|Listed(pruned, user)| < REQUEST_LIMIT && n == RecordRequest(pruned, user, now) && at == Some((user, now)))
  }

  /** The lists of other accounts stay; the account's own list is pruned, and grows by what is logged. */
  lemma LimitedLists(m: Lists, n: Lists, at: Option<(int, Time)>, user: int, now: Time, u: int)
    requires Limited(m, n, at, user, now)
    ensures u != user ==> Listed(n, u) == Listed(m, u)
    ensures var kept := Recent(Listed(m, user), now - REQUEST_WINDOW);
      match at
      case None => Listed(n, user) == Listed(m, user) || Listed(n, user) == kept
      case Some(x) => x == (user, now) && |kept| < REQUEST_LIMIT && Listed(n, user) == kept + [now]
  {
    RecentTwice(Listed(m, user), now - REQUEST_WINDOW);
  }

  lemma OwnRate(list: seq<Time>, log: seq<Time>, clock: Time, now: Time)
    requires RateOk(list, log, clock) && clock <= now
    ensures var kept := Recent(list, now - REQUEST_WINDOW);
      RateOk(list, log, now) && RateOk(kept, log, now)
        && (|kept| < REQUEST_LIMIT ==> RateOk(kept + [now], log + [now], now))
  {
    PruneKeepsRate(list, log, clock, now);
    if |Recent(list, now - REQUEST_WINDOW)| < REQUEST_LIMIT {
      RecordKeepsRate(Recent(list, now - REQUEST_WINDOW), log, now);
    }
  }

  /** What happens to one account's list and history: nothing, pruning, or pruning and one more entry below the
      limit. */
  ghost predicate Moved(list: seq<Time>, next: seq<Time>, log: seq<Time>, nextLog: seq<Time>, now: Time) {
    var kept := Recent(list, now - REQUEST_WINDOW);
    || (nextLog == log && (next == list || next == kept))
    || (|kept| < REQUEST_LIMIT && next == kept + [now] && nextLog == log + [now])
  }

  lemma LimitedMoves(m: Lists, n: Lists, at: Option<(int, Time)>, user: int, logs: Lists, now: Time, u: int)
    requires Limited(m, n, at, user, now)
    ensures Moved(Listed(m, u), Listed(n, u), Listed(logs, u), Listed(Logged(logs, at), u), now)
  {
    LimitedLists(m, n, at, user, now, u);
  }

  lemma MovedRate(list: seq<Time>, next: seq<Time>, log: seq<Time>, nextLog: seq<Time>, clock: Time, now: Time)
    requires RateOk(list, log, clock) && clock <= now && Moved(list, next, log, nextLog, now)
    ensures RateOk(next, nextLog, now)
  {
    OwnRate(list, log, clock, now);
  }

  lemma LimitedRates(m: Lists, n: Lists, at: Option<(int, Time)>, user: int, logs: Lists, clock: Time, now: Time)
    requires Rates(m, logs, clock) && clock <= now && Limited(m, n, at, user, now)
    ensures Rates(n, Logged(logs, at), now)
  {
    forall u ensures RateOk(Listed(n, u), Listed(Logged(logs, at), u), now) {
      LimitedMoves(m, n, at, user, logs, now, u);
      MovedRate(Listed(m, u), Listed(n, u), Listed(logs, u), Listed(Logged(logs, at), u), clock, now);
    }
  }

  lemma AskingLimited(s: State, e: Asking)
    ensures var (t, out) := StepAsking(s, e);
      Limited(s.tunnels.requests, t.tunnels.requests, out.fx.requestedAt, e.owner.userId, e.at)
  {
  }

  lemma OpenLimited(s: State, e: Meeting)
    requires e.Open?
    ensures var (t, out) := StepMeeting(s, e);
      Limited(s.rendezvousRequests, t.rendezvousRequests, out.rendezvousAt, e.owner.userId, e.at)
  {
  }

  /** Nothing but opening a rendezvous touches the rendezvous request lists, and
      nothing but a disconnect order touches the revocation sets. */
  ghost predicate Aside(s: State, r: (State, Outcome)) {
    r.0.rendezvousRequests == s.rendezvousRequests && r.1.rendezvousAt == None && r.0.revoked == s.revoked
  }

  lemma PresenceAside(s: State, e: Presence)
    ensures Aside(s, StepPresence(s, e))
  {
  }
  lemma PairingAside(s: State, e: Pairing)
    ensures Aside(s, StepPairing(s, e))
  {
  }
  lemma MeetingAside(s: State, e: Meeting)
    ensures StepMeeting(s, e).0.revoked == s.revoked && (e.Open? || Aside(s, StepMeeting(s, e)))
  {
  }
  lemma AskingAside(s: State, e: Asking)
    ensures Aside(s, StepAsking(s, e))
  {
  }
  lemma RelayingAside(x: Tunnels, e: Relaying)
    ensures StepRelaying(x, e).1.rendezvousAt == None
  {
  }

  lemma TickIsLater(clock: Time, e: Event)
    requires Orderly(clock, e)
    ensures clock <= Tick(clock, e)
  {
  }

  lemma OpenMeetRates(s: State, x: Meeting, logs: Lists, clock: Time)
    requires x.Open? && Rates(s.rendezvousRequests, logs, clock) && clock <= x.at
    ensures var (t, out) := StepMeeting(s, x); Rates(t.rendezvousRequests, Logged(logs, out.rendezvousAt), x.at)
  {
    var (t, out) := StepMeeting(s, x);
    OpenLimited(s, x);
    LimitedRates(s.rendezvousRequests, t.rendezvousRequests, out.rendezvousAt, x.owner.userId, logs, clock, x.at);
  }

  /** A region that leaves the lists alone only lets time pass. */
  lemma AsideRates(lists: Lists, logs: Lists, clock: Time, later: Time, r: (State, Outcome))
    requires Rates(lists, logs, clock) && clock <= later && r.0.rendezvousRequests == lists && r.1.rendezvousAt == None
    ensures Rates(r.0.rendezvousRequests, Logged(logs, r.1.rendezvousAt), later)
  {
    RatesLater(lists, logs, clock, later);
  }

  /** Rendezvous requests are logged as they are admitted. */
  lemma StepMeetRates(s: State, e: Event, logs: Lists, clock: Time)
    requires Rates(s.rendezvousRequests, logs, clock) && Orderly(clock, e)
    ensures var (t, out) := Step(s, e); Rates(t.rendezvousRequests, Logged(logs, out.rendezvousAt), Tick(clock, e))
  {
    TickIsLater(clock, e);
    if e.Meet? && e.meeting.Open? {
      OpenMeetRates(s, e.meeting, logs, clock);
    } else {
      StepAside(s, e);
      AsideRates(s.rendezvousRequests, logs, clock, Tick(clock, e), Step(s, e));
    }
  }

  lemma StepAside(s: State, e: Event)
    requires !(e.Meet? && e.meeting.Open?)
    ensures Step(s, e).0.rendezvousRequests == s.rendezvousRequests && Step(s, e).1.rendezvousAt == None
  {
    match e
    case Meet(x) => MeetingAside(s, x);
    case _ => OtherAside(s, e);
  }

  lemma OtherAside(s: State, e: Event)
    requires !e.Meet?
    ensures var (t, out) := Step(s, e);
      t.rendezvousRequests == s.rendezvousRequests && out.rendezvousAt == None && (e.Cut? || t.revoked == s.revoked)
  {
    match e
    case Here(x) => PresenceAside(s, x);
    case Pair(x) => PairingAside(s, x);
    case Cut(x) =>
    case Ask(x) => AskingAside(s, x);
    case Relay(x) => RelayingAside(s.tunnels, x);
  }

  lemma AskingRates(s: State, x: Asking, logs: Lists, clock: Time)
    requires Rates(s.tunnels.requests, logs, clock) && clock <= x.at
    ensures var (t, out) := StepAsking(s, x); Rates(t.tunnels.requests, Logged(logs, out.fx.requestedAt), x.at)
  {
    var (t, out) := StepAsking(s, x);
    AskingLimited(s, x);
    LimitedRates(s.tunnels.requests, t.tunnels.requests, out.fx.requestedAt, x.owner.userId, logs, clock, x.at);
  }

  lemma SameRequests(s: State, e: Event, su: SessionUser)
    requires !e.Ask? && Fair(s, e, su)
    ensures Step(s, e).0.tunnels.requests == s.tunnels.requests && Step(s, e).1.fx.requestedAt == None
  {
    match e
    case Relay(x) => RelayingRequests(s.tunnels, x);
    case _ => StepTidies(s, e, su);
  }

  lemma SameRates(lists: Lists, logs: Lists, clock: Time, later: Time, r: (State, Outcome))
    requires Rates(lists, logs, clock) && clock <= later && r.0.tunnels.requests == lists && r.1.fx.requestedAt == None
    ensures Rates(r.0.tunnels.requests, Logged(logs, r.1.fx.requestedAt), later)
  {
    RatesLater(lists, logs, clock, later);
  }

  /** Tunnel requests are logged as they are admitted. */
  lemma StepAskRates(s: State, e: Event, logs: Lists, clock: Time, su: SessionUser)
    requires Rates(s.tunnels.requests, logs, clock) && Orderly(clock, e) && Fair(s, e, su)
    ensures var (t, out) := Step(s, e); Rates(t.tunnels.requests, Logged(logs, out.fx.requestedAt), Tick(clock, e))
  {
    TickIsLater(clock, e);
    if e.Ask? {
      AskingRates(s, e.asking, logs, clock);
    } else {
      SameRequests(s, e, su);
      SameRates(s.tunnels.requests, logs, clock, Tick(clock, e), Step(s, e));
    }
  }

  // ----- clock readings -----

  /** The readings of the clock an event takes, in order. */
  function Reads(e: Event): seq<Time> {
    match e
    case Here(AppUp(_, _, _, at)) => [at]
    case Here(DaemonUp(_, _, _, _, _, _, at, _)) => [at]
    case Pair(Reserve(_, _, _, _, _, sweptAt, at)) => [sweptAt, at]
    case Pair(Lookup(_, _, _, _, at)) => [at]
    case Cut(CutUser(_, at)) => [at]
    case Meet(Open(_, _, _, _, _, _, sweptAt, at)) => [sweptAt, at]
    case Meet(Hint(_, _, _, _, _, _, sweptAt, at, _)) => [sweptAt, at]
    case Meet(RvTimer(_, at)) => [at]
    case Meet(GoDirect(_, _, _, _, _, sweptAt, _)) => [sweptAt]
    case Ask(Request(_, _, _, _, at, _, _)) => [at]
    case Relay(Spend(_, at)) => [at]
    case Relay(Sweep(at)) => [at]
    case Relay(AtTimer(_, at)) => [at]
    case _ => []
  }

  /** The clock after an event: its last reading. */
  function Tick(clock: Time, e: Event): Time {
    var r := Reads(e);
    if |r| == 0 then clock else r[|r| - 1]
  }

  /** The readings are taken in order, after everything before. */
  ghost predicate Orderly(clock: Time, e: Event) {
    var r := Reads(e);
    && (|r| > 0 ==> clock <= r[0])
    && (|r| > 1 ==> r[0] <= r[1])
  }

  // ----- connections -----

  type Links = map<DaemonPeer, DaemonOwner>

  /** Live daemons and direct sessions are bound to connections of their own owner. */
  ghost predicate LinkInv(daemons: Daemons, direct: Dis, links: Links) {
    && (forall k :: k in daemons ==> daemons[k].peer in links && links[daemons[k].peer] == daemons[k].owner)
    && (forall k ::
      k in direct ==> direct[k].daemonPeer in links && links[direct[k].daemonPeer] == direct[k].daemonOwner)
  }

  function Linked(links: Links, e: Event): Links {
    match e
    case Here(DaemonUp(owner, _, _, _, peer, _, _, _)) => links[peer := owner]
    case _ => links
  }

  /** Daemons and direct sessions are left, or taken out, or change trust only. */
  ghost predicate LinksKept(s: State, t: State) {
    && (forall k ::
      k in t.daemons ==>
      k in s.daemons && t.daemons[k].peer == s.daemons[k].peer && t.daemons[k].owner == s.daemons[k].owner)
    && Sub(t.direct, s.direct)
  }

  lemma PresenceLinks(s: State, e: Presence)
    requires !e.DaemonUp?
    ensures LinksKept(s, StepPresence(s, e).0)
  {
  }
  lemma UntrustLinks(s: State, deviceId: string, peer: DaemonPeer, fp: string)
    ensures LinksKept(s, RevokeTrusted(s, deviceId, peer, fp).0)
  {
    match DaemonOf(s, deviceId, peer)
    case None =>
    case Some(key) =>
      assert RevokeTrusted(s, deviceId, peer, fp).0.direct == Keep(s.direct, DiOfPeerClient(peer, fp));
  }
  lemma PairingLinks(s: State, e: Pairing)
    ensures LinksKept(s, StepPairing(s, e).0)
  {
    match e
    case Untrust(id, peer, fp) => UntrustLinks(s, id, peer, fp);
    case Trust(id, peer, fp) =>
    case _ => CorrelationsOnly(s, e);
  }
  lemma RevokingLinks(s: State, e: Revoking)
    ensures LinksKept(s, StepRevoking(s, e).0)
  {
  }
  lemma AskingLinks(s: State, e: Asking)
    ensures LinksKept(s, StepAsking(s, e).0)
  {
  }
  lemma MeetingLinks(s: State, e: Meeting)
    requires !e.GoDirect?
    ensures LinksKept(s, StepMeeting(s, e).0)
  {
    if !e.Open? { MeetingShrinks(s, e); }
  }

  lemma GoDirectLinks(s: State, e: Meeting, links: Links)
    requires e.GoDirect? && AnchorInv(s) && LinkInv(s.daemons, s.direct, links)
    ensures var t := StepMeeting(s, e).0; LinkInv(t.daemons, t.direct, links)
  {
    var pick := e.pick;
    assert pick in s.rendezvous ==> RvOk(pick, s.rendezvous[pick], s.apps, s.daemons);
    OpenDirectShape(s, e.daemonOwner, e.deviceId, e.peer, e.attemptId, e.fp, e.sweptAt, pick);
  }

  lemma DaemonUpLinks(s: State, e: Presence, links: Links)
    requires e.DaemonUp? && e.peer !in links && LinkInv(s.daemons, s.direct, links)
    ensures var t := StepPresence(s, e).0; LinkInv(t.daemons, t.direct, links[e.peer := e.daemonOwner])
  {
    if |e.picks| == |e.reported| {
      RegisterDaemonShape(s, e.daemonOwner, e.info, e.listed, e.reported, e.peer, e.stillValid, e.at, e.picks);
      ReconcileLinks(WithDaemon(s, e.daemonOwner, e.info, e.listed, e.peer, e.at), e.daemonOwner, e.info,
        TrustedSet(e.listed), e.reported, e.peer, e.picks, links[e.peer := e.daemonOwner]);
    }
  }

  lemma ReconcileLinks(s: State, owner: DaemonOwner, info: DaemonInfo, trusted: set<string>, reported: seq<Report>,
                       peer: DaemonPeer, picks: seq<AttemptKey>, links: Links)
    requires |picks| == |reported| && LinkInv(s.daemons, s.direct, links) && peer in links && links[peer] == owner
    ensures LinkInv(s.daemons, Reconcile(s, owner, info, trusted, reported, peer, picks).direct, links)
  {
    var n := Reconcile(s, owner, info, trusted, reported, peer, picks).direct;
    forall k | k in n ensures n[k].daemonPeer in links && links[n[k].daemonPeer] == n[k].daemonOwner {
      assert n[k] != s.direct[k] ==> n[k] == Rebind(s.direct[k], info, peer) && s.direct[k].daemonOwner == owner;
    }
  }

  lemma KeptLinks(s: State, t: State, links: Links)
    requires LinksKept(s, t) && LinkInv(s.daemons, s.direct, links)
    ensures LinkInv(t.daemons, t.direct, links)
  {
  }

  lemma StepLinks(s: State, e: Event, links: Links)
    requires AnchorInv(s) && LinkInv(s.daemons, s.direct, links)
    requires e.Here? && e.presence.DaemonUp? ==> e.presence.peer !in links
    ensures var t := Step(s, e).0; LinkInv(t.daemons, t.direct, Linked(links, e))
  {
    match e
    case Here(x) =>
      if x.DaemonUp? {
        DaemonUpLinks(s, x, links);
      } else {
        PresenceLinks(s, x);
        KeptLinks(s, StepPresence(s, x).0, links);
      }
    case Pair(x) => PairingLinks(s, x); KeptLinks(s, StepPairing(s, x).0, links);
    case Cut(x) => RevokingLinks(s, x); KeptLinks(s, StepRevoking(s, x).0, links);
    case Meet(x) =>
      if x.GoDirect? {
        GoDirectLinks(s, x, links);
      } else {
        MeetingLinks(s, x);
        KeptLinks(s, StepMeeting(s, x).0, links);
      }
    case Ask(x) => AskingLinks(s, x); KeptLinks(s, StepAsking(s, x).0, links);
    case Relay(x) =>
  }

  // ----- revocation sets only grow -----

  ghost predicate RevokedGrows(r: Revocations, q: Revocations) {
    && r.apps <= q.apps && r.agents <= q.agents
    && forall u :: u in r.cutoffs ==> u in q.cutoffs && r.cutoffs[u] <= q.cutoffs[u]
  }

  ghost predicate CutsBefore(r: Revocations, clock: Time) {
    forall u :: u in r.cutoffs ==> r.cutoffs[u] <= clock
  }

  lemma StepRevoked(s: State, e: Event, clock: Time)
    requires CutsBefore(s.revoked, clock) && Orderly(clock, e)
    ensures var t := Step(s, e).0; RevokedGrows(s.revoked, t.revoked) && CutsBefore(t.revoked, Tick(clock, e))
  {
    match e
    case Meet(x) => MeetingAside(s, x);
    case Cut(x) => CutRevoked(s, x, clock);
    case _ => OtherAside(s, e);
  }

  lemma CutRevoked(s: State, e: Revoking, clock: Time)
    requires CutsBefore(s.revoked, clock) && Orderly(clock, Cut(e))
    ensures var t := StepRevoking(s, e).0;
      RevokedGrows(s.revoked, t.revoked) && CutsBefore(t.revoked, Tick(clock, Cut(e)))
  {
  }

  // ----- a token that is not stored any more stays so -----

  ghost predicate OnlyNewTokens(tokens: Tokens, later: Tokens, minted: map<Token, Issue>) {
    forall t :: t in later && t in minted ==> t in tokens
  }

  lemma RelayingTokens(x: Tunnels, e: Relaying)
    ensures StepRelaying(x, e).0.tokens.Keys <= x.tokens.Keys
  {
  }

  lemma AskingTokens(s: State, e: Asking, minted: map<Token, Issue>)
    requires e.minted.Some? ==> NeverMinted(minted, e.minted.value)
    ensures OnlyNewTokens(s.tunnels.tokens, StepAsking(s, e).0.tunnels.tokens, minted)
  {
  }

  lemma StepTokens(s: State, e: Event, minted: map<Token, Issue>, su: SessionUser)
    requires Fair(s, e, su) && (e.Ask? && e.asking.minted.Some? ==> NeverMinted(minted, e.asking.minted.value))
    ensures OnlyNewTokens(s.tunnels.tokens, Step(s, e).0.tunnels.tokens, minted)
  {
    match e
    case Ask(x) => AskingTokens(s, x, minted);
    case Relay(x) => RelayingTokens(s.tunnels, x);
    case _ => StepTidies(s, e, su);
  }
}
