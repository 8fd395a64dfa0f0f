/** Every operation keeps the token map exact, the exclusion of relay and direct
    attempts, the in-flight bound and the closer identifiers. */
module ConnTunnels {
  import opened Common
  import opened ConnModel
  import opened ConnInv
  import opened ConnAnchors

  type Tokens = map<Token, TunnelToken>

  // ----- removing attempts -----

  lemma TokensOfTaken(m: Ats, drop: TunnelAttempt -> bool, t: Token)
    ensures t in TokensOf(Taken(m, drop)) <==> exists k, x :: k in m && drop(m[k]) && TokenFor(m[k], x) == t
  {
    var gone := Taken(m, drop);
    if t in TokensOf(gone) {
      if t in (set k | k in gone :: gone[k].appToken) {
        var k :| k in gone && gone[k].appToken == t;
        assert TokenFor(m[k], Client) == t;
      } else {
        var k :| k in gone && gone[k].daemonToken == t;
        assert TokenFor(m[k], Daemon) == t;
      }
    }
    if k, x :| k in m && drop(m[k]) && TokenFor(m[k], x) == t {
      assert k in gone;
      assert gone[k].appToken in (set j | j in gone :: gone[j].appToken);
      assert gone[k].daemonToken in (set j | j in gone :: gone[j].daemonToken);
    }
  }

  /** Deleting attempts together with their tokens keeps the token map exact. */
  lemma DropKeepsTokens(m: Ats, tokens: Tokens, drop: TunnelAttempt -> bool)
    requires OwnKeys(m) && TokensExact(m, tokens) && TokensDistinct(m)
    ensures TokensExact(Keep(m, drop), tokens - TokensOf(Taken(m, drop)))
  {
    var n := Keep(m, drop);
    var left := tokens - TokensOf(Taken(m, drop));
    forall t | t in left ensures TokenOk(t, left[t], n) {
      assert TokenOk(t, tokens[t], m);
      var k := tokens[t].key;
      assert TokenFor(m[k], tokens[t].actor) == t;
      TokensOfTaken(m, drop, t);
    }
    forall k | k in n ensures Unspent(n[k], left) {
      var a := n[k];
      assert Unspent(m[k], tokens);
      forall x {:trigger TokenFor(a, x)} | !Redeemed(a, x)
        ensures TokenFor(a, x) in left && left[TokenFor(a, x)] == TunnelToken(a.key, x)
      {
        var t := TokenFor(a, x);
        TokensOfTaken(m, drop, t);
        forall j, y | j in m && drop(m[j]) ensures TokenFor(m[j], y) != t { assert !SameToken(m, j, y, k, x); }
      }
    }
  }

  lemma FewerInFlight(small: Ats, big: Ats)
    requires FewInFlight(big)
    requires forall k :: k in small ==> k in big && SameApp(small[k].appOwner, big[k].appOwner)
    ensures FewInFlight(small)
  {
    forall owner ensures |InFlight(small, owner)| <= IN_FLIGHT_LIMIT {
      SubsetSize(InFlight(small, owner), InFlight(big, owner));
    }
  }

  lemma DropKeepsDistinct(m: Ats, drop: TunnelAttempt -> bool)
    requires TokensDistinct(m)
    ensures TokensDistinct(Keep(m, drop))
  {
    var n := Keep(m, drop);
    forall j, k, x, y | SameToken(n, j, x, k, y) ensures j == k && x == y { assert SameToken(m, j, x, k, y); }
  }

  lemma DropKeepsIds(m: Ats, next: nat, drop: TunnelAttempt -> bool)
    requires CloserIds(m, next)
    ensures CloserIds(Keep(m, drop), next)
  {
    var n := Keep(m, drop);
    forall k, id: nat | HasCloser(n, k, id) ensures id <= next { assert HasCloser(m, k, id); }
    forall j, k, id: nat | HasCloser(n, j, id) && HasCloser(n, k, id)
      ensures j == k
    {
      assert HasCloser(m, j, id) && HasCloser(m, k, id);
    }
  }

  /** Removing attempts with their tokens. */
  lemma DropTunnels(x: Tunnels, drop: TunnelAttempt -> bool)
    requires TunnelInv(x)
    ensures TunnelInv(DropFrom(x, drop))
  {
    DropKeepsTokens(x.attempts, x.tokens, drop);
    DropKeepsDistinct(x.attempts, drop);
    DropKeepsIds(x.attempts, x.nextCloserId, drop);
    FewerInFlight(Keep(x.attempts, drop), x.attempts);
  }

  // ----- adding an attempt -----

  /** A token pair used by no live attempt. */
  ghost predicate FreshTokens(m: Ats, minted: (Token, Token)) {
    && minted.0 != minted.1
    && forall k, x :: k in m ==> TokenFor(m[k], x) != minted.0 && TokenFor(m[k], x) != minted.1
  }

  lemma PutKeepsTokens(x: Tunnels, a: TunnelAttempt)
    requires TokensExact(x.attempts, x.tokens) && a.key !in x.attempts
    requires FreshTokens(x.attempts, (a.appToken, a.daemonToken)) && !a.appRedeemed && !a.daemonRedeemed
    ensures TokensExact(PutIn(x, a).attempts, PutIn(x, a).tokens)
  {
    var y := PutIn(x, a);
    forall k | k in y.attempts ensures Unspent(y.attempts[k], y.tokens) {
      if k != a.key { assert Unspent(x.attempts[k], x.tokens); }
    }
    forall t | t in y.tokens ensures TokenOk(t, y.tokens[t], y.attempts) {
      if t != a.appToken && t != a.daemonToken { assert TokenOk(t, x.tokens[t], x.attempts); }
    }
  }

  lemma PutKeepsDistinct(m: Ats, a: TunnelAttempt)
    requires TokensDistinct(m) && a.key !in m && FreshTokens(m, (a.appToken, a.daemonToken))
    ensures TokensDistinct(m[a.key := a])
  {
    var n := m[a.key := a];
    forall j, k, x, y | SameToken(n, j, x, k, y) ensures j == k && x == y {
      if j != a.key && k != a.key { assert SameToken(m, j, x, k, y); }
    }
  }

  lemma PutInFlight(m: Ats, a: TunnelAttempt, owner: AppOwner)
    requires a.key !in m
    ensures InFlight(m[a.key := a], owner) == if SameApp(a.appOwner, owner) then InFlight(m, owner) + {a.key}
      else InFlight(m, owner)
  {
  }

  lemma PutKeepsFew(m: Ats, a: TunnelAttempt)
    requires FewInFlight(m) && a.key !in m && |InFlight(m, a.appOwner)| < IN_FLIGHT_LIMIT
    ensures FewInFlight(m[a.key := a])
  {
    var n := m[a.key := a];
    forall owner ensures |InFlight(n, owner)| <= IN_FLIGHT_LIMIT {
      PutInFlight(m, a, owner);
      if SameApp(a.appOwner, owner) { assert InFlight(m, owner) == InFlight(m, a.appOwner); }
    }
  }

  lemma PutKeepsIds(m: Ats, next: nat, a: TunnelAttempt)
    requires CloserIds(m, next) && a.key !in m && a.closers == map[]
    ensures CloserIds(m[a.key := a], next)
  {
    var n := m[a.key := a];
    forall k, id: nat | HasCloser(n, k, id) ensures id <= next { assert HasCloser(m, k, id); }
    forall j, k, id: nat | HasCloser(n, j, id) && HasCloser(n, k, id)
      ensures j == k
    {
      assert HasCloser(m, j, id) && HasCloser(m, k, id);
    }
  }

  lemma PutTunnels(x: Tunnels, a: TunnelAttempt)
    requires TunnelInv(x) && a.key !in x.attempts
    requires FreshTokens(x.attempts, (a.appToken, a.daemonToken)) && !a.appRedeemed && !a.daemonRedeemed
      && a.closers == map[]
    requires |InFlight(x.attempts, a.appOwner)| < IN_FLIGHT_LIMIT
    ensures TunnelInv(PutIn(x, a))
  {
    PutKeepsTokens(x, a);
    PutKeepsDistinct(x.attempts, a);
    PutKeepsFew(x.attempts, a);
    PutKeepsIds(x.attempts, x.nextCloserId, a);
  }

  /** Taking a key over leaves fewer other attempts in flight. */
  lemma OthersInFlight(m: Ats, key: AttemptKey, owner: AppOwner)
    requires OwnKeys(m)
    ensures |InFlight(Keep(m, AtKeyed(key)), owner)| <= |InFlight(m, owner) - {key}|
    ensures key !in Keep(m, AtKeyed(key))
  {
    SubsetSize(InFlight(Keep(m, AtKeyed(key)), owner), InFlight(m, owner) - {key});
  }

  /** A granted attempt takes its key over. */
  lemma GrantTunnels(x: Tunnels, a: TunnelAttempt)
    requires TunnelInv(x) && FreshTokens(x.attempts, (a.appToken, a.daemonToken))
    requires !a.appRedeemed && !a.daemonRedeemed && a.closers == map[]
    requires |InFlight(x.attempts, a.appOwner) - {a.key}| < IN_FLIGHT_LIMIT
    ensures TunnelInv(PutIn(DropFrom(x, AtKeyed(a.key)), a))
  {
    DropTunnels(x, AtKeyed(a.key));
    OthersInFlight(x.attempts, a.key, a.appOwner);
    PutTunnels(DropFrom(x, AtKeyed(a.key)), a);
  }

  lemma RequestSweptTunnels(s: State, owner: AppOwner, peer: Option<AppPeer>, daemonId: string, attemptId: string,
                            now: Time, expiresAt: Time, minted: Option<(Token, Token)>)
    requires TunnelInv(s.tunnels) && (minted.Some? ==> FreshTokens(s.tunnels.attempts, minted.value))
    ensures TunnelInv(RequestSwept(s, owner, peer, daemonId, attemptId, now, expiresAt, minted).0.tunnels)
  {
    var key := KeyOf(owner, daemonId, attemptId);
    var x := s.tunnels.(requests := PruneRequests(s.tunnels.requests, owner.userId, now));
    if Eligible(s, owner, peer, daemonId, attemptId) && Admits(x, owner, key, minted) {
      GrantTunnels(x,
        NewAttempt(s.daemons[DaemonKey(owner.userId, daemonId)], owner, daemonId, attemptId, expiresAt, minted.value,
        s.nextSerial));
    }
  }

  // ----- touching an attempt -----

  lemma TouchKeepsDistinct(m: Ats, key: AttemptKey, b: TunnelAttempt)
    requires TokensDistinct(m) && key in m && SameAttempt(m[key], b)
    ensures TokensDistinct(m[key := b])
  {
    var n := m[key := b];
    forall j, k, x, y | SameToken(n, j, x, k, y) ensures j == k && x == y { assert SameToken(m, j, x, k, y); }
  }

  lemma TouchTunnels(x: Tunnels, key: AttemptKey, b: TunnelAttempt, tokens: Tokens, next: nat)
    requires TunnelInv(x) && key in x.attempts && SameAttempt(x.attempts[key], b)
    requires TokensExact(x.attempts[key := b], tokens) && CloserIds(x.attempts[key := b], next)
    ensures TunnelInv(SetAttempt(x, key, b).(tokens := tokens, nextCloserId := next))
  {
    TouchKeepsDistinct(x.attempts, key, b);
    FewerInFlight(x.attempts[key := b], x.attempts);
  }

  lemma FlagsKeepTokens(m: Ats, tokens: Tokens, key: AttemptKey, b: TunnelAttempt)
    requires TokensExact(m, tokens) && key in m && SameAttempt(m[key], b)
    requires b.appRedeemed == m[key].appRedeemed && b.daemonRedeemed == m[key].daemonRedeemed
    ensures TokensExact(m[key := b], tokens)
  {
    var n := m[key := b];
    forall t | t in tokens ensures TokenOk(t, tokens[t], n) { assert TokenOk(t, tokens[t], m); }
    forall k | k in n ensures Unspent(n[k], tokens) {
      assert Unspent(m[k], tokens);
      forall x {:trigger TokenFor(n[k], x)} | !Redeemed(n[k], x)
        ensures TokenFor(n[k], x) in tokens && tokens[TokenFor(n[k], x)] == TunnelToken(n[k].key, x)
      {
        assert TokenFor(m[k], x) in tokens;
      }
    }
  }

  lemma MarkActiveTunnels(x: Tunnels, key: AttemptKey)
    requires TunnelInv(x) && key in x.attempts
    ensures TunnelInv(SetAttempt(x, key, x.attempts[key].(active := true)))
  {
    var b := x.attempts[key].(active := true);
    FlagsKeepTokens(x.attempts, x.tokens, key, b);
    FlagsKeepIds(x.attempts, x.nextCloserId, key, b);
    TouchTunnels(x, key, b, x.tokens, x.nextCloserId);
  }

  lemma FlagsKeepIds(m: Ats, next: nat, key: AttemptKey, b: TunnelAttempt)
    requires CloserIds(m, next) && key in m && b.closers.Keys <= m[key].closers.Keys
    ensures CloserIds(m[key := b], next)
  {
    var n := m[key := b];
    forall k, id: nat | HasCloser(n, k, id) ensures id <= next { assert HasCloser(m, k, id); }
    forall j, k, id: nat | HasCloser(n, j, id) && HasCloser(n, k, id)
      ensures j == k
    {
      assert HasCloser(m, j, id) && HasCloser(m, k, id);
    }
  }

  lemma AddKeepsIds(m: Ats, next: nat, key: AttemptKey, b: TunnelAttempt)
    requires CloserIds(m, next) && key in m && b.closers.Keys == m[key].closers.Keys + {next + 1}
    ensures CloserIds(m[key := b], next + 1)
  {
    var n := m[key := b];
    forall k, id: nat | HasCloser(n, k, id) ensures id <= next + 1 { assert id != next + 1 ==> HasCloser(m, k, id); }
    forall j, k, id: nat | HasCloser(n, j, id) && HasCloser(n, k, id) ensures j == k {
      if id == next + 1 {
        assert !HasCloser(m, j, id) && !HasCloser(m, k, id);
      } else {
        assert HasCloser(m, j, id) && HasCloser(m, k, id);
      }
    }
  }

  lemma HoldCloserTunnels(x: Tunnels, key: AttemptKey, closer: Closer)
    requires TunnelInv(x) && key in x.attempts
    ensures TunnelInv(HoldCloser(x, key, closer))
  {
    var b := x.attempts[key].(closers := x.attempts[key].closers[x.nextCloserId + 1 := closer]);
    FlagsKeepTokens(x.attempts, x.tokens, key, b);
    AddKeepsIds(x.attempts, x.nextCloserId, key, b);
    TouchTunnels(x, key, b, x.tokens, x.nextCloserId + 1);
  }

  lemma ReleaseCloserTunnels(x: Tunnels, key: AttemptKey, id: nat)
    requires TunnelInv(x) && key in x.attempts
    ensures TunnelInv(ReleaseCloser(x, key, id))
  {
    var b := x.attempts[key].(closers := x.attempts[key].closers - {id});
    FlagsKeepTokens(x.attempts, x.tokens, key, b);
    FlagsKeepIds(x.attempts, x.nextCloserId, key, b);
    TouchTunnels(x, key, b, x.tokens, x.nextCloserId);
  }

  // ----- redeeming -----

  lemma SpendKeepsTokens(m: Ats, tokens: Tokens, token: Token)
    requires OwnKeys(m) && TokensExact(m, tokens) && TokensDistinct(m) && token in tokens
    ensures tokens[token].key in m
    ensures TokensExact(m[tokens[token].key := MarkRedeemed(m[tokens[token].key], tokens[token].actor)],
      tokens - {token})
  {
    var key := tokens[token].key;
    var actor := tokens[token].actor;
    assert TokenOk(token, tokens[token], m);
    var n := m[key := MarkRedeemed(m[key], actor)];
    var left := tokens - {token};
    forall t | t in left ensures TokenOk(t, left[t], n) {
      assert TokenOk(t, tokens[t], m);
    }
    forall k | k in n ensures Unspent(n[k], left) {
      assert Unspent(m[k], tokens);
      forall x {:trigger TokenFor(n[k], x)} | !Redeemed(n[k], x)
        ensures TokenFor(n[k], x) in left && left[TokenFor(n[k], x)] == TunnelToken(n[k].key, x)
      {
        assert TokenFor(m[k], x) in tokens;
        assert TokenFor(m[k], x) == token ==> SameToken(m, k, x, key, actor);
      }
    }
  }

  /** With the token map exact, a stored token always belongs to a live attempt
      and is unredeemed: the two branches that reject such a token are never taken. */
  lemma StoredTokenIsLive(x: Tunnels, token: Token, now: Time)
    requires TunnelInv(x) && token in x.tokens
    ensures x.tokens[token].key in x.attempts
    ensures !Redeemed(x.attempts[x.tokens[token].key], x.tokens[token].actor)
    ensures RedeemSwept(x, token, now).1.ok <==> x.attempts[x.tokens[token].key].expiresAt > now
  {
    assert TokenOk(token, x.tokens[token], x.attempts);
  }

  lemma SpendTunnels(x: Tunnels, token: Token)
    requires TunnelInv(x) && token in x.tokens && x.tokens[token].key in x.attempts
    ensures var key := x.tokens[token].key;
      TunnelInv(SetAttempt(x, key, MarkRedeemed(x.attempts[key], x.tokens[token].actor)).(tokens := x.tokens - {token}))
  {
    var key := x.tokens[token].key;
    var b := MarkRedeemed(x.attempts[key], x.tokens[token].actor);
    SpendKeepsTokens(x.attempts, x.tokens, token);
    FlagsKeepIds(x.attempts, x.nextCloserId, key, b);
    TouchTunnels(x, key, b, x.tokens - {token}, x.nextCloserId);
  }

  lemma RedeemSweptTunnels(x: Tunnels, token: Token, now: Time)
    requires TunnelInv(x)
    ensures TunnelInv(RedeemSwept(x, token, now).0)
  {
    if token in x.tokens {
      StoredTokenIsLive(x, token, now);
      DropTunnels(x, AtKeyed(x.attempts[x.tokens[token].key].key));
      SpendTunnels(x, token);
    }
  }

  // ----- redemption with its own sweep -----

  function SweptTunnels(x: Tunnels, sweptAt: Time): Tunnels {
    DropFrom(x, AtExpired(sweptAt))
  }

  /** A token is stored after a sweep exactly if it was stored and its attempt stays. */
  lemma StoredAfterSweep(x: Tunnels, sweptAt: Time, token: Token)
    requires TunnelInv(x) && token in x.tokens
    ensures x.tokens[token].key in x.attempts
    ensures token in SweptTunnels(x, sweptAt).tokens <==> !AtExpired(sweptAt)(x.attempts[x.tokens[token].key])
  {
    var a, actor := x.attempts[x.tokens[token].key], x.tokens[token].actor;
    assert TokenOk(token, x.tokens[token], x.attempts);
    DropTunnels(x, AtExpired(sweptAt));
    if AtExpired(sweptAt)(a) {
      assert token == TokenFor(a, actor);
    } else {
      var y := SweptTunnels(x, sweptAt);
      assert x.tokens[token].key in y.attempts && y.attempts[x.tokens[token].key] == a;
      assert Unspent(a, y.tokens);
      assert TokenFor(a, actor) == token;
    }
  }

  /** Redeeming starts with a sweep: a stored token succeeds exactly if its attempt outlives `now` and is not swept. */
  lemma SweptRedeemWhen(x: Tunnels, token: Token, sweptAt: Time, now: Time)
    requires TunnelInv(x) && token in x.tokens
    ensures x.tokens[token].key in x.attempts
    ensures var a := x.attempts[x.tokens[token].key];
      RedeemSwept(SweptTunnels(x, sweptAt), token, now).1.ok <==>
        a.expiresAt > now && (a.active || a.expiresAt > sweptAt)
  {
    StoredAfterSweep(x, sweptAt, token);
    DropTunnels(x, AtExpired(sweptAt));
    if token in SweptTunnels(x, sweptAt).tokens { StoredTokenIsLive(SweptTunnels(x, sweptAt), token, now); }
  }

  /** What the swept maps let through, the maps before the sweep let through with the same result. */
  lemma SweptRedeemAgrees(x: Tunnels, token: Token, sweptAt: Time, now: Time)
    requires RedeemSwept(SweptTunnels(x, sweptAt), token, now).1.ok
    ensures RedeemSwept(x, token, now).1 == RedeemSwept(SweptTunnels(x, sweptAt), token, now).1
  {
  }
}
