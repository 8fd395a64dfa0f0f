/** What tunnel requests, redemptions and closes do, written out: the attempt that is made and how long it lives, and
    what becomes of all the others. */
module ConnGrants {
  import opened Common
  import opened ConnModel
  import opened ConnInv
  import opened ConnTunnels
  import opened ConnStory
  import opened ConnTheorems
  import opened ConnClaims
  import opened ConnEffects

  // ----- granting -----

  /** The end of a lifetime from the last clock reading of a request: thirty seconds where none was asked for. */
  function LivesUntil(r: TunnelRequest): Time {
    r.later + (if r.ttl > 0 then r.ttl else 30 * 1_000_000_000)
  }

  function Outlives(at: Time): TunnelAttempt -> bool { (a: TunnelAttempt) => a.active || a.expiresAt > at }

  /** `y` has the attempt `a` in the place of what was stored under its key. */
  ghost predicate Replaces(x: Tunnels, y: Tunnels, a: TunnelAttempt) {
    && a.key in y.attempts && y.attempts[a.key] == a
    && (forall k :: k != a.key ==> (k in y.attempts <==> k in x.attempts))
    && (forall k :: k != a.key && k in y.attempts ==> y.attempts[k] == x.attempts[k])
    && y.nextCloserId == x.nextCloserId
  }

  /** `y` has the tokens of `a` in the place of those that led to its key. */
  ghost predicate ReplacesTokens(x: Tunnels, y: Tunnels, a: TunnelAttempt) {
    && a.appToken in y.tokens && y.tokens[a.appToken] == TunnelToken(a.key, Client)
    && a.daemonToken in y.tokens && y.tokens[a.daemonToken] == TunnelToken(a.key, Daemon)
    && (forall token :: token != a.appToken && token != a.daemonToken ==>
          (token in y.tokens <==> token in x.tokens && x.tokens[token].key != a.key))
    && (forall token :: token != a.appToken && token != a.daemonToken && token in y.tokens ==>
          y.tokens[token] == x.tokens[token])
  }

  lemma KeyedTokens(x: Tunnels, key: AttemptKey)
    requires TunnelInv(x)
    ensures forall token ::
      token in DropFrom(x, AtKeyed(key)).tokens <==> token in x.tokens && x.tokens[token].key != key
  {
    var d := DropFrom(x, AtKeyed(key));
    forall token | token in x.tokens
      ensures token in d.tokens <==> x.tokens[token].key != key
    {
      TokenFollows(x, AtKeyed(key), token);
      assert TokenOk(token, x.tokens[token], x.attempts);
      assert x.attempts[x.tokens[token].key].key == x.tokens[token].key;
    }
  }

  lemma PutReplaces(x: Tunnels, a: TunnelAttempt)
    requires OwnKeys(x.attempts)
    ensures Replaces(x, PutIn(DropFrom(x, AtKeyed(a.key)), a), a)
  {
  }

  lemma PutReplacesTokens(x: Tunnels, a: TunnelAttempt)
    requires TunnelInv(x) && a.appToken != a.daemonToken
    ensures ReplacesTokens(x, PutIn(DropFrom(x, AtKeyed(a.key)), a), a)
  {
    KeyedTokens(x, a.key);
  }

  /** The attempt that a granted request makes. */
  function Made(s: State, r: TunnelRequest): TunnelAttempt
    requires DaemonKey(r.owner.userId, r.daemonId) in s.daemons && r.minted.Some?
  {
    var live := s.daemons[DaemonKey(r.owner.userId, r.daemonId)];
    var key := AttemptKey(r.owner.userId, r.owner.sessionId, r.owner.fingerprint, r.daemonId, r.attemptId);
    TunnelAttempt(key, r.attemptId, r.owner, live.owner, r.daemonId, live.info.fingerprint, live.peer,
      r.minted.value.0, r.minted.value.1, false, false, false, LivesUntil(r), map[], s.nextSerial)
  }

  /** The request after its sweep. */
  ghost function Asked(s: State, r: TunnelRequest): (State, Outcome) {
    RequestSwept(s, r.owner, r.peer, r.daemonId, r.attemptId, r.now, Expiry(r.later, r.ttl, DEFAULT_ATTEMPT_TTL),
      r.minted)
  }

  lemma AskPuts(s: State, r: TunnelRequest)
    requires DmInv(s.daemons) && Asked(s, r).1.ok
    ensures DaemonKey(r.owner.userId, r.daemonId) in s.daemons && r.minted.Some?
    ensures var (t, out) := Asked(s, r); var a := Made(s, r);
      && t.tunnels == PutIn(DropFrom(s.tunnels, AtKeyed(a.key)), a).(requests := t.tunnels.requests)
      && out.fx.issued == Some(a) && out.fx.requestedAt == Some((r.owner.userId, r.now))
  {
    assert DmOk(DaemonKey(r.owner.userId, r.daemonId), s.daemons[DaemonKey(r.owner.userId, r.daemonId)]);
  }

  lemma AskKeepsTunnels(s: State, r: TunnelRequest)
    requires TunnelInv(s.tunnels) && (r.minted.Some? ==> FreshTokens(s.tunnels.attempts, r.minted.value))
    ensures TunnelInv(Asked(s, r).0.tunnels)
  {
    RequestSweptTunnels(s, r.owner, r.peer, r.daemonId, r.attemptId, r.now,
      Expiry(r.later, r.ttl, DEFAULT_ATTEMPT_TTL), r.minted);
  }

  /** What a granted request does to the swept maps. */
  ghost predicate Grants(x: Tunnels, y: Tunnels, a: TunnelAttempt) {
    Replaces(x, y, a) && ReplacesTokens(x, y, a) && TunnelInv(y)
  }

  lemma PutGrants(x: Tunnels, y: Tunnels, a: TunnelAttempt)
    requires TunnelInv(x) && TunnelInv(y) && a.appToken != a.daemonToken
    requires y == PutIn(DropFrom(x, AtKeyed(a.key)), a).(requests := y.requests)
    ensures Grants(x, y, a)
  {
    PutReplaces(x, a);
    PutReplacesTokens(x, a);
  }

  lemma AskGrants(s: State, r: TunnelRequest)
    requires TunnelInv(s.tunnels) && DmInv(s.daemons) && Asked(s, r).1.ok
    requires r.minted.Some? ==> FreshTokens(s.tunnels.attempts, r.minted.value)
    ensures DaemonKey(r.owner.userId, r.daemonId) in s.daemons && r.minted.Some?
    ensures Grants(s.tunnels, Asked(s, r).0.tunnels, Made(s, r))
  {
    AskPuts(s, r);
    AskKeepsTunnels(s, r);
    PutGrants(s.tunnels, Asked(s, r).0.tunnels, Made(s, r));
  }

  lemma SweepLeaves(x: Tunnels, sweptAt: Time)
    requires TunnelInv(x)
    ensures TunnelsRemain(x, SweptTunnels(x, sweptAt), Outlives(sweptAt)) && TunnelInv(SweptTunnels(x, sweptAt))
  {
    DropTunnels(x, AtExpired(sweptAt));
    DropRemain(x, AtExpired(sweptAt), Outlives(sweptAt));
  }

  lemma RequestedSteps(s: State, r: TunnelRequest)
    requires Requested(s, r).1.ok
    ensures var s1 := DropAttempts(s, AtExpired(r.sweptAt)); var (t, out) := Asked(s1, r);
      && out.ok && Requested(s, r).0 == t && Requested(s, r).1.fx.issued == out.fx.issued
      && Requested(s, r).1.fx.requestedAt == out.fx.requestedAt
  {
  }

  /** After the sweep, the new attempt with its tokens replaces what was under its key; other attempts and tokens
      stay. */
  lemma GrantMakes(s: State, r: TunnelRequest)
    requires TunnelInv(s.tunnels) && DmInv(s.daemons) && Requested(s, r).1.ok
    requires r.minted.Some? ==> FreshTokens(SweptTunnels(s.tunnels, r.sweptAt).attempts, r.minted.value)
    ensures DaemonKey(r.owner.userId, r.daemonId) in s.daemons && r.minted.Some?
    ensures var x := SweptTunnels(s.tunnels, r.sweptAt); var (t, out) := Requested(s, r);
      && TunnelsRemain(s.tunnels, x, Outlives(r.sweptAt)) && Grants(x, t.tunnels, Made(s, r))
      && out.fx.issued == Some(Made(s, r)) && out.fx.requestedAt == Some((r.owner.userId, r.now))
  {
    SweepLeaves(s.tunnels, r.sweptAt);
    RequestedSteps(s, r);
    AskPuts(DropAttempts(s, AtExpired(r.sweptAt)), r);
    AskGrants(DropAttempts(s, AtExpired(r.sweptAt)), r);
  }

  // ----- redeeming -----

  function TokenOf(a: TunnelAttempt, side: Actor): Token { if side == Client then a.appToken else a.daemonToken }

  /** The token of an attempt that is not active and that this side has not used succeeds until the attempt ends. */
  lemma TokenLives(s: State, a: TunnelAttempt, side: Actor, sweptAt: Time, at: Time)
    requires TunnelInv(s.tunnels) && a.key in s.tunnels.attempts && s.tunnels.attempts[a.key] == a && !a.active
    requires TokenOf(a, side) in s.tunnels.tokens && s.tunnels.tokens[TokenOf(a, side)] == TunnelToken(a.key, side)
    requires sweptAt <= at
    ensures var out := Redeem(s, Some(TokenOf(a, side)), sweptAt, at).1;
      && (out.ok <==> at < a.expiresAt)
      && (out.ok ==>
            out.fx.redeemed ==
              Some(Redemption(a.key, side, a.appOwner, a.daemonDeviceId, a.daemonFingerprint, a.serial)))
  {
    StoredRedeems(s, TokenOf(a, side), sweptAt, at);
  }

  lemma MintedIsFresh(s: State, h: Story, sweptAt: Time, pair: (Token, Token))
    requires StoryOk(s.tunnels, s.nextSerial, h) && NeverMinted(h.minted, pair)
    ensures FreshTokens(SweptTunnels(s.tunnels, sweptAt).attempts, pair)
  {
    NeverMintedIsFresh(s.tunnels.attempts, h.minted, pair);
    forall k, x | k in SweptTunnels(s.tunnels, sweptAt).attempts
      ensures TokenFor(SweptTunnels(s.tunnels, sweptAt).attempts[k], x) != pair.0
      ensures TokenFor(SweptTunnels(s.tunnels, sweptAt).attempts[k], x) != pair.1
    {
      assert TokenFor(s.tunnels.attempts[k], x) != pair.0 && TokenFor(s.tunnels.attempts[k], x) != pair.1;
    }
  }

  lemma GrantLives(s: State, r: TunnelRequest, side: Actor, sweptAt: Time, at: Time)
    requires TunnelInv(s.tunnels) && DmInv(s.daemons) && Requested(s, r).1.ok && sweptAt <= at
    requires r.minted.Some? ==> FreshTokens(SweptTunnels(s.tunnels, r.sweptAt).attempts, r.minted.value)
    ensures DaemonKey(r.owner.userId, r.daemonId) in s.daemons && r.minted.Some?
    ensures var token := if side == Client then r.minted.value.0 else r.minted.value.1;
      var out := Redeem(Requested(s, r).0, Some(token), sweptAt, at).1;
      && (out.ok <==> at < LivesUntil(r))
      && (out.ok ==>
            var a := Made(s, r);
            out.fx.redeemed == Some(Redemption(a.key, side, r.owner, r.daemonId, a.daemonFingerprint, s.nextSerial)))
  {
    GrantMakes(s, r);
    TokenLives(Requested(s, r).0, Made(s, r), side, sweptAt, at);
  }

  lemma ReachableMints(w: World, su: SessionUser)
    requires Reachable(w, su)
    ensures TunnelInv(w.reg.tunnels) && DmInv(w.reg.daemons) && StoryOk(w.reg.tunnels, w.reg.nextSerial, w.story)
  {
    ReachableInv(w, su);
  }

  /** In every reachable world a granted tunnel can be redeemed by each side with its token exactly until the end of
      the lifetime asked for, or of thirty seconds; the redemption names the app, the daemon and the side. */
  lemma GrantedTunnelLives(w: World, su: SessionUser, r: TunnelRequest, side: Actor, sweptAt: Time, at: Time)
    requires Reachable(w, su) && Requested(w.reg, r).1.ok && sweptAt <= at
    requires r.minted.Some? ==> NeverMinted(w.story.minted, r.minted.value)
    ensures DaemonKey(r.owner.userId, r.daemonId) in w.reg.daemons && r.minted.Some?
    ensures var token := if side == Client then r.minted.value.0 else r.minted.value.1;
      var out := Redeem(Requested(w.reg, r).0, Some(token), sweptAt, at).1;
      && (out.ok <==> at < r.later + (if r.ttl > 0 then r.ttl else 30 * 1_000_000_000))
      && (out.ok ==>
            && out.fx.redeemed.Some? && out.fx.redeemed.value.appOwner == r.owner
            && out.fx.redeemed.value.daemonDeviceId == r.daemonId && out.fx.redeemed.value.actor == side
            && out.fx.redeemed.value.daemonFingerprint ==
                 w.reg.daemons[DaemonKey(r.owner.userId, r.daemonId)].info.fingerprint)
  {
    ReachableMints(w, su);
    if r.minted.Some? { MintedIsFresh(w.reg, w.story, r.sweptAt, r.minted.value); }
    GrantLives(w.reg, r, side, sweptAt, at);
  }

  /** A redemption takes its token away and marks its side, after the sweep; everything else stays. */
  lemma RedeemSpends(s: State, token: Token, sweptAt: Time, at: Time)
    requires TunnelInv(s.tunnels) && Redeem(s, Some(token), sweptAt, at).1.ok
    ensures var x := SweptTunnels(s.tunnels, sweptAt); var t := Redeem(s, Some(token), sweptAt, at).0;
      && TunnelsRemain(s.tunnels, x, Outlives(sweptAt))
      && token in x.tokens && x.tokens[token].key in x.attempts
      && t.tunnels.tokens == x.tokens - {token}
      && t.tunnels.attempts == x.attempts[x.tokens[token].key :=
           (var a := x.attempts[x.tokens[token].key];
            if x.tokens[token].actor == Client then a.(appRedeemed := true) else a.(daemonRedeemed := true))]
      && t == s.(tunnels := t.tunnels)
  {
    SweepLeaves(s.tunnels, sweptAt);
  }

  // ----- the life of an attempt -----

  /** Marking an attempt active sets that one flag, and from then on neither a sweep nor its timer takes it out. */
  lemma ActiveStays(x: Tunnels, key: AttemptKey, later: Time)
    requires OwnKeys(x.attempts)
    ensures var (y, out) := MarkActive(x, key);
      && (out.ok <==> key in x.attempts)
      && (!out.ok ==> y == x)
      && (out.ok ==> y == x.(attempts := x.attempts[key := x.attempts[key].(active := true)]))
      && (out.ok ==> key in SweepTunnels(y, later).0.attempts && key in TunnelTimer(y, key, later).0.attempts)
  {
  }

  function KeyedElse(key: AttemptKey): TunnelAttempt -> bool { (a: TunnelAttempt) => a.key != key }

  /** Closing takes the attempt out with its tokens and hands out its closers; it succeeds exactly if it was there. */
  lemma CloseTakesOut(x: Tunnels, key: AttemptKey)
    requires TunnelInv(x)
    ensures var (y, out) := CloseTunnel(x, key);
      && (out.ok <==> key in x.attempts)
      && TunnelsRemain(x, y, KeyedElse(key))
      && out.fx.ran == (if key in x.attempts then ClosersOf(x.attempts[key]) else multiset{})
  {
    DropRemain(x, AtKeyed(key), KeyedElse(key));
    OneTaken(x, key);
  }

  lemma OneTaken(x: Tunnels, key: AttemptKey)
    requires OwnKeys(x.attempts)
    ensures Taken(x.attempts, AtKeyed(key)) == if key in x.attempts then map[key := x.attempts[key]] else map[]
    ensures Taken(x.attempts, AtKeyed(key)).Keys != {} <==> key in x.attempts
    ensures Held(Taken(x.attempts, AtKeyed(key))) == if key in x.attempts then ClosersOf(x.attempts[key])
      else multiset{}
  {
    var taken := Taken(x.attempts, AtKeyed(key));
    if key in x.attempts {
      assert taken == map[key := x.attempts[key]] && key in taken.Keys;
      GatherPick(taken, ClosersOf, key);
      assert taken - {key} == map[];
    } else {
      assert taken == map[];
    }
  }

  function Unmade(key: AttemptKey, serial: nat): TunnelAttempt -> bool {
    (a: TunnelAttempt) => a.key != key || a.serial != serial
  }
  function Unexpired(key: AttemptKey, now: Time): TunnelAttempt -> bool {
    (a: TunnelAttempt) => a.key != key || a.active || a.expiresAt > now
  }

  /** The clean-up of a request takes out that very attempt; a timer takes out what has expired under its key. */
  lemma CleanUpTakesOut(x: Tunnels, key: AttemptKey, serial: nat, now: Time)
    requires TunnelInv(x)
    ensures TunnelsRemain(x, AbandonTunnel(x, key, serial).0, Unmade(key, serial))
    ensures TunnelsRemain(x, TunnelTimer(x, key, now).0, Unexpired(key, now))
    ensures TunnelsRemain(x, SweepTunnels(x, now).0, Outlives(now))
  {
    DropRemain(x, AtSerial(key, serial), Unmade(key, serial));
    DropRemain(x, AtTimedOut(key, now), Unexpired(key, now));
    DropRemain(x, AtExpired(now), Outlives(now));
  }

  /** A closer is held by its attempt under the identifier handed out, until it is taken back; without an attempt it is
      run at once. */
  lemma CloserIsHeld(x: Tunnels, key: AttemptKey, closer: Closer)
    ensures var (y, out) := AddCloser(x, key, closer);
      && out.fx.given == multiset{closer}
      && (key !in x.attempts ==> y == x && out.fx.ran == multiset{closer})
      && (key in x.attempts ==>
            var id := x.nextCloserId + 1;
            && out.fx.ran == multiset{} && y.nextCloserId == id
            && y == x.(nextCloserId := id, attempts := y.attempts)
            && y.attempts == x.attempts[key := x.attempts[key].(closers := x.attempts[key].closers[id := closer])])
  {
  }

  lemma CloserIsTakenBack(x: Tunnels, key: AttemptKey, id: nat)
    ensures var (y, out) := WithdrawCloser(x, key, id);
      if key in x.attempts && id in x.attempts[key].closers then
        && out.fx.withdrawn == multiset{x.attempts[key].closers[id]} && out.fx.ran == multiset{}
        && y == x.(attempts := x.attempts[key := x.attempts[key].(closers := x.attempts[key].closers - {id})])
      else y == x && out.fx == NO_EFFECT
  {
  }

  // ----- what a request does besides -----

  /** Rendezvous other than the one the tunnel replaces. */
  function OtherMeetings(o: AppOwner, daemonId: string, attemptId: string): Rendezvous -> bool {
    (a: Rendezvous) =>
      !(&& a.appOwner.userId == o.userId && a.appOwner.sessionId == o.sessionId
        && a.appOwner.fingerprint == o.fingerprint && a.daemonDeviceId == daemonId && a.id == attemptId)
  }

  /** A granted tunnel closes the rendezvous of the same attempt and no other, and tells the daemon, with its token. */
  lemma GrantClosesMeeting(s: State, r: TunnelRequest)
    requires Asked(s, r).1.ok
    ensures DaemonKey(r.owner.userId, r.daemonId) in s.daemons && r.minted.Some?
    ensures var (t, out) := Asked(s, r);
      && Remain(s.rendezvous, t.rendezvous, OtherMeetings(r.owner, r.daemonId, r.attemptId))
      && DaemonNote(s.daemons[DaemonKey(r.owner.userId, r.daemonId)].peer, r.owner.userId,
                    TunnelReady(r.attemptId, r.owner.fingerprint, r.minted.value.1)) in out.toDaemons
      && t == s.(tunnels := t.tunnels, rendezvous := t.rendezvous, nextSerial := s.nextSerial + 1)
  {
    KeepRemain(s.rendezvous, RvOfAttempt(r.owner, r.daemonId, r.attemptId),
      OtherMeetings(r.owner, r.daemonId, r.attemptId));
  }

  /** A refused request leaves everything as it was but for pruned request times. */
  lemma RefusedLeaves(s: State, r: TunnelRequest)
    requires !Asked(s, r).1.ok
    ensures var (t, out) := Asked(s, r);
      && t == s.(tunnels := s.tunnels.(requests := t.tunnels.requests))
      && out == QUIET
  {
  }

  /** A refused redemption, after the sweep, takes out the attempt if its token is stored, and else changes nothing. */
  lemma RefusedRedeem(x: Tunnels, token: Token, now: Time)
    requires TunnelInv(x) && !RedeemSwept(x, token, now).1.ok
    ensures var (y, out) := RedeemSwept(x, token, now);
      if token in x.tokens then
        && x.tokens[token].key in x.attempts
        && TunnelsRemain(x, y, KeyedElse(x.tokens[token].key))
        && out.fx.ran == ClosersOf(x.attempts[x.tokens[token].key])
      else y == x && out == QUIET
  {
    if token in x.tokens {
      StoredTokenIsLive(x, token, now);
      var key := x.tokens[token].key;
      assert x.attempts[key].key == key;
      CloseTakesOut(x, key);
    }
  }
}
