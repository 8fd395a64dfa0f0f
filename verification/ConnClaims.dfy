/** The guarantees of the connectivity registry, stated for every reachable world. */
module ConnClaims {
  import opened Common
  import opened ConnModel
  import opened ConnInv
  import opened ConnTunnels
  import opened ConnRates
  import opened ConnStory
  import opened ConnRuns
  import opened ConnReach
  import opened ConnTheorems

  // ----- anchoring -----

  /** Some live daemon of account `user` is connected through `peer` under `owner`, and trusts `fp`. */
  ghost predicate LiveAndTrusting(s: State, user: int, deviceId: string, owner: DaemonOwner, peer: DaemonPeer,
                                  fp: string) {
    var k := DaemonKey(user, deviceId);
    k in s.daemons && s.daemons[k].peer == peer && s.daemons[k].owner == owner && owner.userId == user
      && fp in s.daemons[k].trusted
  }

  /** Attempts live only between an app and a live daemon of one account that trusts it now. */
  lemma EverythingAnchored(w: World, su: SessionUser)
    requires Reachable(w, su)
    ensures forall a :: a in w.reg.rendezvous.Values ==>
      && LiveAndTrusting(w.reg, a.appOwner.userId, a.daemonDeviceId, a.daemonOwner, a.daemonPeer,
        a.appOwner.fingerprint)
      && a.appPeer in w.reg.apps && w.reg.apps[a.appPeer].owner == a.appOwner
    ensures forall a :: a in w.reg.tunnels.attempts.Values ==>
      LiveAndTrusting(w.reg, a.appOwner.userId, a.daemonDeviceId, a.daemonOwner, a.daemonPeer, a.appOwner.fingerprint)
    ensures forall c :: c in w.reg.correlations.Values ==>
      c.daemonKey in w.reg.daemons && w.reg.daemons[c.daemonKey].peer == c.peer
        && w.reg.daemons[c.daemonKey].owner == c.owner
  {
    ReachableInv(w, su);
  }

  /** A direct session is same-account; bound to a live connection, it is trusted there. */
  lemma DirectAnchored(w: World, su: SessionUser, k: AttemptKey)
    requires Reachable(w, su) && k in w.reg.direct
    ensures var d := w.reg.direct[k];
      && d.appOwner.userId == d.daemonOwner.userId
      && forall j :: j in w.reg.daemons && w.reg.daemons[j].peer == d.daemonPeer ==>
          LiveAndTrusting(w.reg, d.appOwner.userId, d.daemonDeviceId, d.daemonOwner, d.daemonPeer, d.androidFingerprint)
  {
    ReachableInv(w, su);
    assert DiOk(k, w.reg.direct[k], w.reg.daemons);
  }

  // ----- revocation -----

  lemma {:induction false} RunGrows(w: World, es: seq<Event>, su: SessionUser)
    requires WorldInv(w, su) && AdmissibleRun(w, es, su)
    ensures RevokedGrows(w.reg.revoked, Run(w, es).reg.revoked)
    ensures OnlyNewTokens(w.reg.tunnels.tokens, Run(w, es).reg.tunnels.tokens, w.story.minted)
    ensures w.story.minted.Keys <= Run(w, es).story.minted.Keys
    decreases |es|
  {
    if es != [] {
      var v := Next(w, es[0]);
      AdmissibleIsFair(w, es[0], su);
      StepRevoked(w.reg, es[0], w.clock);
      StepTokens(w.reg, es[0], w.story.minted, su);
      NextInv(w, es[0], su);
      RunGrows(v, es[1..], su);
    }
  }

  /** Nothing of a revoked app is left. */
  ghost predicate AppsOut(s: State, out: AppOwner -> bool) {
    && (forall a :: a in s.apps.Values ==> !out(a.owner))
    && (forall a :: a in s.rendezvous.Values ==> !out(a.appOwner))
    && (forall a :: a in s.direct.Values ==> !out(a.appOwner))
    && (forall a :: a in s.tunnels.attempts.Values ==> !out(a.appOwner))
  }

  lemma RevokedAppsOut(s: State, su: SessionUser, out: AppOwner -> bool)
    requires CleanInv(s, su) && forall o :: out(o) ==> AppRevoked(s.revoked, o)
    ensures AppsOut(s, out)
  {
  }

  /** A token handed out earlier that is not stored: every redemption of it fails. */
  ghost predicate Dead(s: State, token: Token) {
    forall sweptAt, now :: !Redeem(s, Some(token), sweptAt, now).1.ok
  }

  lemma NotStoredIsDead(s: State, token: Token)
    requires token !in s.tunnels.tokens
    ensures Dead(s, token)
  {
  }

  /** A stored token was handed out to an app that is not revoked, for a daemon whose agent token is not revoked. */
  lemma StoredTokenIsClean(w: World, su: SessionUser, token: Token)
    requires WorldInv(w, su) && token in w.reg.tunnels.tokens
    ensures token in w.story.minted
    ensures !AppRevoked(w.reg.revoked, w.story.minted[token].owner)
    ensures w.story.minted[token].daemon.agentTokenId !in w.reg.revoked.agents
    ensures exists a :: a in w.reg.tunnels.attempts.Values && a.appOwner == w.story.minted[token].owner
  {
    var x := w.reg.tunnels;
    var t := x.tokens[token];
    assert TokenOk(token, t, x.attempts);
    assert Traced(x.attempts[t.key], w.story.minted);
    assert AtOk(t.key, x.attempts[t.key], w.reg.daemons);
    assert x.attempts[t.key] in x.attempts.Values;
  }

  /** After an app session is disconnected, nothing of it ever comes back. */
  lemma SessionStaysOut(w: World, sid: string, es: seq<Event>, su: SessionUser)
    requires Reachable(w, su) && AdmissibleRun(Next(w, Cut(CutSession(sid))), es, su)
    ensures var v := Run(Next(w, Cut(CutSession(sid))), es);
      && AppsOut(v.reg, (o: AppOwner) => o.sessionId == sid)
      && forall t :: t in v.story.minted && v.story.minted[t].owner.sessionId == sid ==> Dead(v.reg, t)
  {
    ReachableInv(w, su);
    var w1 := Next(w, Cut(CutSession(sid)));
    NextInv(w, Cut(CutSession(sid)), su);
    RunInv(w1, es, su);
    RunGrows(w1, es, su);
    var v := Run(w1, es);
    assert sid in v.reg.revoked.apps;
    RevokedAppsOut(v.reg, su, (o: AppOwner) => o.sessionId == sid);
    forall t | t in v.story.minted && v.story.minted[t].owner.sessionId == sid ensures Dead(v.reg, t) {
      if t in v.reg.tunnels.tokens { StoredTokenIsClean(v, su, t); }
      NotStoredIsDead(v.reg, t);
    }
  }

  predicate CutOff(o: AppOwner, user: int, at: Time) {
    o.userId == user && (o.createdAt == ZERO_TIME || o.createdAt <= at)
  }

  /** After an account is cut off, no app session created by then comes back, and no
      token handed out to the account by then is ever redeemed. */
  lemma UserStaysOut(w: World, user: int, at: Time, es: seq<Event>, su: SessionUser)
    requires Reachable(w, su) && w.clock <= at && AdmissibleRun(Next(w, Cut(CutUser(user, at))), es, su)
    ensures var v := Run(Next(w, Cut(CutUser(user, at))), es);
      && AppsOut(v.reg, (o: AppOwner) => CutOff(o, user, at))
      && (forall t :: t in v.story.minted && CutOff(v.story.minted[t].owner, user, at) ==> Dead(v.reg, t))
      && (forall t :: t in w.story.minted && w.story.minted[t].owner.userId == user ==> Dead(v.reg, t))
  {
    ReachableInv(w, su);
    var e := Cut(CutUser(user, at));
    var w1 := Next(w, e);
    NextInv(w, e, su);
    RunInv(w1, es, su);
    RunGrows(w1, es, su);
    var v := Run(w1, es);
    assert user in w1.reg.revoked.cutoffs;
    RevokedAppsOut(v.reg, su, (o: AppOwner) => CutOff(o, user, at));
    forall t | t in v.story.minted && CutOff(v.story.minted[t].owner, user, at) ensures Dead(v.reg, t) {
      if t in v.reg.tunnels.tokens { StoredTokenIsClean(v, su, t); }
      NotStoredIsDead(v.reg, t);
    }
    forall t | t in w.story.minted && w.story.minted[t].owner.userId == user ensures Dead(v.reg, t) {
      assert w1.story.minted == w.story.minted;
      if t in w1.reg.tunnels.tokens { StoredTokenIsClean(w1, su, t); }
      NotStoredIsDead(v.reg, t);
    }
  }

  /** After an agent token is revoked, no daemon registers with it again and nothing bound to it is left. */
  lemma AgentStaysOut(w: World, agent: string, es: seq<Event>, su: SessionUser)
    requires Reachable(w, su) && AdmissibleRun(Next(w, Cut(CutAgent(agent))), es, su)
    ensures var v := Run(Next(w, Cut(CutAgent(agent))), es);
      && (forall d :: d in v.reg.daemons.Values ==> d.owner.agentTokenId != agent)
      && (forall a :: a in v.reg.rendezvous.Values ==> a.daemonOwner.agentTokenId != agent)
      && (forall a :: a in v.reg.direct.Values ==> a.daemonOwner.agentTokenId != agent)
      && (forall a :: a in v.reg.tunnels.attempts.Values ==> a.daemonOwner.agentTokenId != agent)
      && forall t :: t in v.story.minted && v.story.minted[t].daemon.agentTokenId == agent ==> Dead(v.reg, t)
  {
    ReachableInv(w, su);
    var w1 := Next(w, Cut(CutAgent(agent)));
    NextInv(w, Cut(CutAgent(agent)), su);
    RunInv(w1, es, su);
    RunGrows(w1, es, su);
    var v := Run(w1, es);
    assert agent in v.reg.revoked.agents;
    forall t | t in v.story.minted && v.story.minted[t].daemon.agentTokenId == agent ensures Dead(v.reg, t) {
      if t in v.reg.tunnels.tokens { StoredTokenIsClean(v, su, t); }
      NotStoredIsDead(v.reg, t);
    }
  }

  // ----- tokens -----

  /** The stored tokens are exactly the unredeemed tokens of live attempts, with their actor. */
  lemma TokensAreExact(w: World, su: SessionUser, token: Token, key: AttemptKey, actor: Actor)
    requires Reachable(w, su)
    ensures var x := w.reg.tunnels;
      (token in x.tokens && x.tokens[token] == TunnelToken(key, actor)) <==>
      (key in x.attempts && !Redeemed(x.attempts[key], actor) && TokenFor(x.attempts[key], actor) == token)
  {
    ReachableInv(w, su);
    var x := w.reg.tunnels;
    if token in x.tokens { assert TokenOk(token, x.tokens[token], x.attempts); }
    if key in x.attempts { assert Unspent(x.attempts[key], x.tokens); }
  }

  /** Over any run a token is redeemed at most once, and an attempt at most once by each side. */
  lemma RedeemedAtMostOnce(w: World, su: SessionUser, token: Token, use: Use)
    requires Reachable(w, su)
    ensures w.story.spent[token] <= 1 && w.story.uses[use] <= 1
  {
    ReachableInv(w, su);
  }

  lemma GenuineRedemption(x: Tunnels, next: nat, h: Story, token: Token, now: Time)
    requires TunnelInv(x) && StoryOk(x, next, h) && RedeemSwept(x, token, now).1.ok
    ensures token in h.minted && token !in h.spent
    ensures var r := RedeemSwept(x, token, now).1.fx.redeemed;
      && r.Some?
      && h.minted[token] == Issue(r.value.appOwner, h.minted[token].daemon, r.value.actor, r.value.serial)
      && Use(r.value.serial, r.value.actor) !in h.uses
  {
    var t := x.tokens[token];
    assert TokenOk(token, t, x.attempts);
    assert Traced(x.attempts[t.key], h.minted);
  }

  /** A successful redemption is for the app, the side and the attempt the token was handed
      out for; a spent token, or an attempt that side used, never succeeds again. */
  lemma RedemptionIsGenuine(w: World, su: SessionUser, token: Option<Token>, sweptAt: Time, now: Time)
    requires Reachable(w, su) && Redeem(w.reg, token, sweptAt, now).1.ok
    ensures token.Some? && token.value in w.story.minted && token.value !in w.story.spent
    ensures var r := Redeem(w.reg, token, sweptAt, now).1.fx.redeemed;
      && r.Some?
      && w.story.minted[token.value] ==
        Issue(r.value.appOwner, w.story.minted[token.value].daemon, r.value.actor, r.value.serial)
      && Use(r.value.serial, r.value.actor) !in w.story.uses
  {
    ReachableInv(w, su);
    SweptRedeemAgrees(w.reg.tunnels, token.value, sweptAt, now);
    GenuineRedemption(w.reg.tunnels, w.reg.nextSerial, w.story, token.value, now);
  }

  lemma StoredRedeems(s: State, token: Token, sweptAt: Time, now: Time)
    requires TunnelInv(s.tunnels) && token in s.tunnels.tokens
    ensures var x := s.tunnels; var t := x.tokens[token];
      && t.key in x.attempts && !Redeemed(x.attempts[t.key], t.actor)
      && (Redeem(s, Some(token), sweptAt, now).1.ok <==>
            x.attempts[t.key].expiresAt > now && (x.attempts[t.key].active || x.attempts[t.key].expiresAt > sweptAt))
  {
    StoredTokenIsLive(s.tunnels, token, now);
    SweptRedeemWhen(s.tunnels, token, sweptAt, now);
  }

  lemma ReachableTunnels(w: World, su: SessionUser)
    requires Reachable(w, su)
    ensures TunnelInv(w.reg.tunnels)
  {
    ReachableInv(w, su);
  }

  /** In every reachable world a stored token leads to a live, unredeemed attempt: redemption, its own sweep included,
      fails exactly by expiry, and the two other rejecting branches are never taken.  When the clock does not go back
      between the sweep and the check, that is: it succeeds exactly if the attempt outlives the check. */
  lemma RejectingBranchesUnreachable(w: World, su: SessionUser, token: Token, sweptAt: Time, now: Time)
    requires Reachable(w, su) && token in w.reg.tunnels.tokens
    ensures var x := w.reg.tunnels; var t := x.tokens[token];
      && t.key in x.attempts && !Redeemed(x.attempts[t.key], t.actor)
      && (Redeem(w.reg, Some(token), sweptAt, now).1.ok <==>
            x.attempts[t.key].expiresAt > now && (x.attempts[t.key].active || x.attempts[t.key].expiresAt > sweptAt))
      && (sweptAt <= now ==> (Redeem(w.reg, Some(token), sweptAt, now).1.ok <==> x.attempts[t.key].expiresAt > now))
  {
    ReachableTunnels(w, su);
    StoredRedeems(w.reg, token, sweptAt, now);
  }

  // ----- regions that sweep first -----

  /** The arguments of a tunnel request and the three clock readings it takes. */
  datatype TunnelRequest = TunnelRequest(owner: AppOwner, peer: Option<AppPeer>, daemonId: string, attemptId: string,
                                         ttl: Time, sweptAt: Time, now: Time, later: Time,
                                         minted: Option<(Token, Token)>)

  ghost function Requested(s: State, r: TunnelRequest): (State, Outcome) {
    RequestTunnel(s, r.owner, r.peer, r.daemonId, r.attemptId, r.ttl, r.sweptAt, r.now, r.later, r.minted)
  }

  /** The event of a run that is the rest of the region after its sweep. */
  function AskOf(r: TunnelRequest): Event {
    Ask(Request(r.owner, r.peer, r.daemonId, r.attemptId, r.now, Expiry(r.later, r.ttl, DEFAULT_ATTEMPT_TTL), r.minted))
  }

  /** A tunnel request is the two events `Sweep` and `Ask` of a run, one after the other: same state, same result, and
      the closers of both to run; a request with a blank field is no event at all. */
  lemma RequestIsSweepThenAsk(s: State, r: TunnelRequest)
    ensures var swept := Step(s, Relay(Sweep(r.sweptAt)));
      Requested(s, r) ==
        if r.owner.fingerprint == "" || r.daemonId == "" || r.attemptId == "" then (s, QUIET)
        else AlsoRan(Step(swept.0, AskOf(r)), swept.1.fx.ran)
  {
  }

  /** A redemption is the two events `Sweep` and `Spend` of a run, one after the other; a blank token is no event. */
  lemma RedeemIsSweepThenSpend(s: State, token: Option<Token>, sweptAt: Time, now: Time)
    ensures var swept := Step(s, Relay(Sweep(sweptAt)));
      Redeem(s, token, sweptAt, now) ==
        if token.None? then (s, QUIET) else AlsoRan(Step(swept.0, Relay(Spend(token.value, now))), swept.1.fx.ran)
  {
  }

  // ----- closers -----

  /** Every closer received was run, was withdrawn, or is held by a live attempt, as often as it was received. */
  lemma ClosersConserved(w: World, su: SessionUser)
    requires Reachable(w, su)
    ensures w.story.given == w.story.ran + w.story.withdrawn + Held(w.reg.tunnels.attempts)
  {
    ReachableInv(w, su);
  }

  /** A closer received once is in exactly one of the three places. */
  lemma CloserInOnePlace(w: World, su: SessionUser, c: Closer)
    requires Reachable(w, su) && w.story.given[c] == 1
    ensures w.story.ran[c] + w.story.withdrawn[c] + Held(w.reg.tunnels.attempts)[c] == 1
  {
    ClosersConserved(w, su);
  }

  /** A handle identifies one closer for ever: while held, it is held by the attempt key it was registered for. */
  lemma HandleIsUnique(w: World, su: SessionUser, j: AttemptKey, k: AttemptKey, id: nat)
    requires Reachable(w, su) && HasCloser(w.reg.tunnels.attempts, j, id) && HasCloser(w.reg.tunnels.attempts, k, id)
    ensures j == k && id in w.story.handles && w.story.handles[id] == Handle(k, w.reg.tunnels.attempts[k].closers[id])
  {
    ReachableInv(w, su);
  }

  // ----- rate limits -----

  /** No account gets more than ten relay tunnels, or ten rendezvous, admitted in any one minute. */
  lemma AtMostTenPerMinute(w: World, su: SessionUser, user: int, lo: Time)
    requires Reachable(w, su)
    ensures |InWindow(Listed(w.asked, user), lo)| <= 10
    ensures |InWindow(Listed(w.met, user), lo)| <= 10
  {
    ReachableInv(w, su);
    assert RateOk(Listed(w.reg.tunnels.requests, user), Listed(w.asked, user), w.clock);
    assert RateOk(Listed(w.reg.rendezvousRequests, user), Listed(w.met, user), w.clock);
    WindowBound(Listed(w.asked, user), lo);
    WindowBound(Listed(w.met, user), lo);
  }

  /** The list pruned in place is the whole history restricted to the last minute. */
  lemma PrunedListIsHistory(w: World, su: SessionUser, user: int, now: Time)
    requires Reachable(w, su) && w.clock <= now
    ensures Recent(Listed(w.reg.tunnels.requests, user), now - REQUEST_WINDOW) ==
      Recent(Listed(w.asked, user), now - REQUEST_WINDOW)
    ensures Recent(Listed(w.reg.rendezvousRequests, user), now - REQUEST_WINDOW) ==
      Recent(Listed(w.met, user), now - REQUEST_WINDOW)
  {
    ReachableInv(w, su);
    assert RateOk(Listed(w.reg.tunnels.requests, user), Listed(w.asked, user), w.clock);
    assert RateOk(Listed(w.reg.rendezvousRequests, user), Listed(w.met, user), w.clock);
    PrunedIsHistory(Listed(w.reg.tunnels.requests, user), Listed(w.asked, user), w.clock, now);
    PrunedIsHistory(Listed(w.reg.rendezvousRequests, user), Listed(w.met, user), w.clock, now);
  }

  /** The entries of a history in the minute before `now`. */
  function LastMinute(log: seq<Time>, now: Time): seq<Time> {
    Recent(log, now - 60 * 1_000_000_000)
  }

  /** It holds each entry after the start of that minute as often as the history does, and no other. */
  lemma {:induction false} LastMinuteExactly(log: seq<Time>, now: Time, at: Time)
    ensures multiset(LastMinute(log, now))[at] == if at > now - 60 * 1_000_000_000 then multiset(log)[at] else 0
  {
    if log != [] {
      LastMinuteExactly(log[1..], now, at);
      assert log == [log[0]] + log[1..];
    }
  }

  lemma PrunedToLastMinute(w: World, su: SessionUser, user: int, now: Time)
    requires Reachable(w, su) && w.clock <= now
    ensures Listed(PruneRequests(w.reg.tunnels.requests, user, now), user) == LastMinute(Listed(w.asked, user), now)
    ensures Listed(PruneRequests(w.reg.rendezvousRequests, user, now), user) == LastMinute(Listed(w.met, user), now)
  {
    PrunedListIsHistory(w, su, user, now);
  }

  /** The attempts that a sweep leaves in flight for an app, other than the one asked for. */
  function StillInFlight(x: Tunnels, owner: AppOwner, key: AttemptKey, sweptAt: Time): set<AttemptKey> {
    InFlight(Keep(x.attempts, AtExpired(sweptAt)), owner) - {key}
  }

  lemma AskedWhen(s: State, e: Asking, recent: seq<Time>)
    requires Listed(PruneRequests(s.tunnels.requests, e.owner.userId, e.at), e.owner.userId) == recent
    ensures StepAsking(s, e).1.ok <==>
      && Eligible(s, e.owner, e.appPeer, e.daemonId, e.attemptId) && |recent| < REQUEST_LIMIT
      && |InFlight(s.tunnels.attempts, e.owner) - {KeyOf(e.owner, e.daemonId, e.attemptId)}| < IN_FLIGHT_LIMIT
        && e.minted.Some?
  {
  }

  lemma StillEligible(s: State, drop: TunnelAttempt -> bool, owner: AppOwner, peer: Option<AppPeer>, daemonId: string,
                      attemptId: string)
    ensures Eligible(DropAttempts(s, drop), owner, peer, daemonId, attemptId) ==
      Eligible(s, owner, peer, daemonId, attemptId)
  {
  }

  lemma GrantedWhen(s: State, r: TunnelRequest, recent: seq<Time>)
    requires Listed(PruneRequests(s.tunnels.requests, r.owner.userId, r.now), r.owner.userId) == recent
    ensures Requested(s, r).1.ok <==>
      && r.owner.fingerprint != "" && r.daemonId != "" && r.attemptId != ""
      && Eligible(s, r.owner, r.peer, r.daemonId, r.attemptId) && |recent| < REQUEST_LIMIT
      && |StillInFlight(s.tunnels, r.owner, KeyOf(r.owner, r.daemonId, r.attemptId), r.sweptAt)| < IN_FLIGHT_LIMIT
        && r.minted.Some?
  {
    RequestIsSweepThenAsk(s, r);
    StillEligible(s, AtExpired(r.sweptAt), r.owner, r.peer, r.daemonId, r.attemptId);
    AskedWhen(DropAttempts(s, AtExpired(r.sweptAt)), AskOf(r).asking, recent);
  }

  /** A tunnel is granted exactly when nothing is blank, the app may reach the daemon, fewer than ten of its account's
      requests were admitted in the last minute, the sweep leaves fewer than four other attempts in flight, and there
      are tokens. */
  lemma GrantedExactlyWhen(w: World, su: SessionUser, r: TunnelRequest)
    requires Reachable(w, su) && w.clock <= r.now
    ensures Requested(w.reg, r).1.ok <==>
      && r.owner.fingerprint != "" && r.daemonId != "" && r.attemptId != ""
      && Eligible(w.reg, r.owner, r.peer, r.daemonId, r.attemptId)
      && |LastMinute(Listed(w.asked, r.owner.userId), r.now)| < 10
      && |StillInFlight(w.reg.tunnels, r.owner, KeyOf(r.owner, r.daemonId, r.attemptId), r.sweptAt)| < 4
      && r.minted.Some?
  {
    PrunedToLastMinute(w, su, r.owner.userId, r.now);
    GrantedWhen(w.reg, r, LastMinute(Listed(w.asked, r.owner.userId), r.now));
  }

  lemma OpenedWhen(s: State, e: Meeting, recent: seq<Time>)
    requires e.Open? && Listed(PruneRequests(s.rendezvousRequests, e.owner.userId, e.at), e.owner.userId) == recent
    ensures StepMeeting(s, e).1.ok <==>
      && e.owner.fingerprint != "" && e.daemonId != "" && e.attemptId != "" && e.candidatesValid
      && PeerActive(s, e.owner, e.appPeer) && Trusts(s, DaemonKey(e.owner.userId, e.daemonId), e.owner.fingerprint)
        && |recent| < REQUEST_LIMIT
  {
  }

  /** A rendezvous is opened exactly when nothing is blank, the app is active, the daemon trusts it, and fewer than ten
      of its account's rendezvous were admitted in the last minute. */
  lemma OpenedExactlyWhen(w: World, su: SessionUser, e: Meeting)
    requires Reachable(w, su) && e.Open? && w.clock <= e.at
    ensures StepMeeting(w.reg, e).1.ok <==>
      && e.owner.fingerprint != "" && e.daemonId != "" && e.attemptId != "" && e.candidatesValid
      && PeerActive(w.reg, e.owner, e.appPeer)
        && Trusts(w.reg, DaemonKey(e.owner.userId, e.daemonId), e.owner.fingerprint)
      && |LastMinute(Listed(w.met, e.owner.userId), e.at)| < 10
  {
    PrunedToLastMinute(w, su, e.owner.userId, e.at);
    OpenedWhen(w.reg, e, LastMinute(Listed(w.met, e.owner.userId), e.at));
  }

  // ----- exclusion and bounds -----

  /** A key is a relay attempt or a direct session, never both; one rendezvous per app
      session, fingerprint and daemon; at most four relay attempts per app session and fingerprint. */
  lemma Exclusive(w: World, su: SessionUser)
    requires Reachable(w, su)
    ensures w.reg.tunnels.attempts.Keys !! w.reg.direct.Keys
    ensures forall j, k :: SameRoute(w.reg.rendezvous, j, k) ==> j == k
    ensures forall owner :: |InFlight(w.reg.tunnels.attempts, owner)| <= 4
  {
    ReachableInv(w, su);
  }

  // ----- expiry -----

  /** A sweep, or the timer of its key, removes an attempt exactly if it is not active and its time has come; what stays
      is unchanged. */
  lemma OnlyExpiredTunnelsGo(x: Tunnels, now: Time, k: AttemptKey)
    requires OwnKeys(x.attempts) && k in x.attempts
    ensures var y := SweepTunnels(x, now).0;
      if x.attempts[k].active || x.attempts[k].expiresAt > now then k in y.attempts && y.attempts[k] == x.attempts[k]
      else k !in y.attempts
    ensures var y := TunnelTimer(x, k, now).0;
      if x.attempts[k].active || x.attempts[k].expiresAt > now then y == x else k !in y.attempts
  {
    var drop := AtTimedOut(k, now);
    if x.attempts[k].active || x.attempts[k].expiresAt > now {
      NothingTimedOut(x, drop);
    }
  }

  lemma NothingTimedOut(x: Tunnels, drop: TunnelAttempt -> bool)
    requires forall k :: k in x.attempts ==> !drop(x.attempts[k])
    ensures DropFrom(x, drop) == x
  {
    assert Keep(x.attempts, drop) == x.attempts;
    assert TokensOf(Taken(x.attempts, drop)) == {};
    assert x.tokens - {} == x.tokens;
  }
}
