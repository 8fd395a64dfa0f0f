/** The history of relay tunnels: tokens minted and spent, closers received, run
    and withdrawn, and how the live maps relate to it. */
module ConnStory {
  import opened Common
  import opened ConnModel
  import opened ConnInv
  import opened ConnAnchors
  import opened ConnTunnels

  datatype Issue = Issue(owner: AppOwner, daemon: DaemonOwner, actor: Actor, serial: nat)
  datatype Use = Use(serial: nat, actor: Actor)
  datatype Handle = Handle(key: AttemptKey, closer: Closer)

  datatype Story = Story(
    minted: map<Token, Issue>,       // every token ever handed out, and to whom
    spent: multiset<Token>,          // tokens of successful redemptions
    uses: multiset<Use>,             // attempt and actor of successful redemptions
    given: multiset<Closer>,         // closers passed to AddTunnelCloser
    ran: multiset<Closer>,           // closers run, at once or when their attempt went
    withdrawn: multiset<Closer>,     // closers taken back
    handles: map<nat, Handle>)       // identifiers given to held closers

  const NO_STORY: Story := Story(map[], multiset{}, multiset{}, multiset{}, multiset{}, multiset{}, map[])

  // ----- how the live maps relate to the history -----

  /** Every token of a live attempt was minted for its app owner and its actor. */
  ghost predicate MintOk(m: Ats, minted: map<Token, Issue>) {
    forall k :: k in m ==> Traced(m[k], minted)
  }
  ghost predicate Traced(a: TunnelAttempt, minted: map<Token, Issue>) {
    forall x {:trigger TokenFor(a, x)} ::
      TokenFor(a, x) in minted && minted[TokenFor(a, x)] == Issue(a.appOwner, a.daemonOwner, x, a.serial)
  }

  /** A token was spent at most once, and then is no longer stored. */
  ghost predicate SpentOk(tokens: Tokens, minted: map<Token, Issue>, spent: multiset<Token>) {
    forall t :: t in spent ==> spent[t] == 1 && t in minted && t !in tokens
  }

  /** Serial numbers identify attempts; an attempt is used at most once per actor,
      and a live attempt remembers its uses. */
  ghost predicate UsesOk(m: Ats, next: nat, uses: multiset<Use>) {
    && (forall k :: k in m ==> m[k].serial < next)
    && (forall u :: u in uses ==> uses[u] == 1 && u.serial < next)
    && (forall k, u :: k in m && u in uses && m[k].serial == u.serial ==> Redeemed(m[k], u.actor))
    && (forall j, k :: SameSerial(m, j, k) ==> j == k)
  }
  ghost predicate SameSerial(m: Ats, j: AttemptKey, k: AttemptKey) {
    j in m && k in m && m[j].serial == m[k].serial
  }

  /** Conservation: a closer received is run, withdrawn or held, counted with multiplicity. */
  ghost predicate LedgerOk(m: Ats, h: Story) {
    h.given == h.ran + h.withdrawn + Held(m)
  }

  /** A held closer is the one its identifier was given for, on the attempt key it was given for. */
  ghost predicate HandlesOk(m: Ats, next: nat, handles: map<nat, Handle>) {
    && (forall id :: id in handles ==> id <= next)
    && forall k, id: nat :: HasCloser(m, k, id) ==> id in handles && handles[id] == Handle(k, m[k].closers[id])
  }

  ghost predicate StoryOk(x: Tunnels, next: nat, h: Story) {
    && MintOk(x.attempts, h.minted) && SpentOk(x.tokens, h.minted, h.spent)
    && UsesOk(x.attempts, next, h.uses) && LedgerOk(x.attempts, h)
    && HandlesOk(x.attempts, x.nextCloserId, h.handles)
  }

  // ----- removing attempts -----

  lemma DropUses(m: Ats, next: nat, uses: multiset<Use>, drop: TunnelAttempt -> bool)
    requires UsesOk(m, next, uses)
    ensures UsesOk(Keep(m, drop), next, uses)
  {
    var n := Keep(m, drop);
    forall j, k | SameSerial(n, j, k) ensures j == k { assert SameSerial(m, j, k); }
  }

  lemma DropHandles(m: Ats, next: nat, handles: map<nat, Handle>, drop: TunnelAttempt -> bool)
    requires HandlesOk(m, next, handles)
    ensures HandlesOk(Keep(m, drop), next, handles)
  {
    var n := Keep(m, drop);
    forall k, id: nat | HasCloser(n, k, id)
      ensures id in handles && handles[id] == Handle(k, n[k].closers[id])
    {
      assert HasCloser(m, k, id);
    }
  }

  /** Removing attempts and running their closers keeps the books. */
  lemma DropStory(x: Tunnels, next: nat, h: Story, drop: TunnelAttempt -> bool)
    requires StoryOk(x, next, h)
    ensures StoryOk(DropFrom(x, drop), next, h.(ran := h.ran + Freed(x, drop)))
  {
    DropUses(x.attempts, next, h.uses, drop);
    DropHandles(x.attempts, x.nextCloserId, h.handles, drop);
    GatherSplits(x.attempts, Keep(x.attempts, drop), Taken(x.attempts, drop), ClosersOf);
  }

  // ----- a new attempt -----

  function Mint(minted: map<Token, Issue>, a: TunnelAttempt): map<Token, Issue> {
    minted[a.appToken := Issue(a.appOwner, a.daemonOwner, Client, a.serial)][a.daemonToken :=
      Issue(a.appOwner, a.daemonOwner, Daemon, a.serial)]
  }

  ghost predicate NeverMinted(minted: map<Token, Issue>, pair: (Token, Token)) {
    pair.0 != pair.1 && pair.0 !in minted && pair.1 !in minted
  }

  /** Tokens that were never minted are used by no live attempt. */
  lemma NeverMintedIsFresh(m: Ats, minted: map<Token, Issue>, pair: (Token, Token))
    requires MintOk(m, minted) && NeverMinted(minted, pair)
    ensures FreshTokens(m, pair)
  {
    forall k, x | k in m ensures TokenFor(m[k], x) != pair.0 && TokenFor(m[k], x) != pair.1 {
      assert Traced(m[k], minted);
    }
  }

  lemma PutMint(m: Ats, minted: map<Token, Issue>, a: TunnelAttempt)
    requires MintOk(m, minted) && NeverMinted(minted, (a.appToken, a.daemonToken))
    ensures MintOk(m[a.key := a], Mint(minted, a))
  {
    var n := m[a.key := a];
    var q := Mint(minted, a);
    forall k | k in n ensures Traced(n[k], q) {
      if k != a.key { assert Traced(m[k], minted); }
    }
  }

  lemma PutUses(m: Ats, next: nat, uses: multiset<Use>, a: TunnelAttempt)
    requires UsesOk(m, next, uses) && a.serial == next
    ensures UsesOk(m[a.key := a], next + 1, uses)
  {
    var n := m[a.key := a];
    forall j, k | SameSerial(n, j, k) ensures j == k {
      if j != a.key && k != a.key { assert SameSerial(m, j, k); }
    }
  }

  lemma PutHandles(m: Ats, next: nat, handles: map<nat, Handle>, a: TunnelAttempt)
    requires HandlesOk(m, next, handles) && a.closers == map[]
    ensures HandlesOk(m[a.key := a], next, handles)
  {
    var n := m[a.key := a];
    forall k, id: nat | HasCloser(n, k, id)
      ensures id in handles && handles[id] == Handle(k, n[k].closers[id])
    {
      assert HasCloser(m, k, id);
    }
  }

  lemma PutHeld(m: Ats, a: TunnelAttempt)
    requires a.key !in m && a.closers == map[]
    ensures Held(m[a.key := a]) == Held(m)
  {
    GatherPut(m, ClosersOf, a.key, a);
  }

  lemma PutStory(x: Tunnels, next: nat, h: Story, a: TunnelAttempt)
    requires StoryOk(x, next, h) && a.key !in x.attempts && a.serial == next && a.closers == map[]
    requires NeverMinted(h.minted, (a.appToken, a.daemonToken))
    ensures StoryOk(PutIn(x, a), next + 1, h.(minted := Mint(h.minted, a)))
  {
    PutMint(x.attempts, h.minted, a);
    PutUses(x.attempts, next, h.uses, a);
    PutHandles(x.attempts, x.nextCloserId, h.handles, a);
    PutHeld(x.attempts, a);
  }

  lemma GrantStory(x: Tunnels, next: nat, h: Story, a: TunnelAttempt)
    requires StoryOk(x, next, h) && OwnKeys(x.attempts) && a.serial == next && a.closers == map[]
    requires NeverMinted(h.minted, (a.appToken, a.daemonToken))
    ensures StoryOk(PutIn(DropFrom(x, AtKeyed(a.key)), a), next
      + 1, h.(ran := h.ran + Freed(x, AtKeyed(a.key)), minted := Mint(h.minted, a)))
  {
    DropStory(x, next, h, AtKeyed(a.key));
    PutStory(DropFrom(x, AtKeyed(a.key)), next, h.(ran := h.ran + Freed(x, AtKeyed(a.key))), a);
  }

  // ----- changing an attempt -----

  lemma TouchMint(m: Ats, minted: map<Token, Issue>, key: AttemptKey, b: TunnelAttempt)
    requires MintOk(m, minted) && key in m && SameAttempt(m[key], b)
    ensures MintOk(m[key := b], minted)
  {
    var n := m[key := b];
    forall k | k in n ensures Traced(n[k], minted) {
      assert Traced(m[k], minted);
      forall x {:trigger TokenFor(n[k], x)}
        ensures TokenFor(n[k], x) in minted
          && minted[TokenFor(n[k], x)] == Issue(n[k].appOwner, n[k].daemonOwner, x, n[k].serial)
      {
        assert TokenFor(m[k], x) in minted;
      }
    }
  }

  lemma TouchUses(m: Ats, next: nat, uses: multiset<Use>, key: AttemptKey, b: TunnelAttempt)
    requires UsesOk(m, next, uses) && key in m && SameAttempt(m[key], b)
    requires forall x :: Redeemed(m[key], x) ==> Redeemed(b, x)
    ensures UsesOk(m[key := b], next, uses)
  {
    var n := m[key := b];
    forall j, k | SameSerial(n, j, k) ensures j == k { assert SameSerial(m, j, k); }
  }

  lemma MarkActiveStory(x: Tunnels, next: nat, h: Story, key: AttemptKey)
    requires StoryOk(x, next, h) && key in x.attempts
    ensures StoryOk(SetAttempt(x, key, x.attempts[key].(active := true)), next, h)
  {
    var b := x.attempts[key].(active := true);
    TouchMint(x.attempts, h.minted, key, b);
    TouchUses(x.attempts, next, h.uses, key, b);
    SameHandles(x.attempts, x.nextCloserId, h.handles, key, b);
    SameHeld(x.attempts, key, b);
  }

  lemma SameHeld(m: Ats, key: AttemptKey, b: TunnelAttempt)
    requires key in m && b.closers == m[key].closers
    ensures Held(m[key := b]) == Held(m)
  {
    GatherReplace(m, ClosersOf, key, b, multiset{}, multiset{});
    assert Held(m[key := b]) + multiset{} == Held(m[key := b]);
  }

  lemma SameHandles(m: Ats, next: nat, handles: map<nat, Handle>, key: AttemptKey, b: TunnelAttempt)
    requires HandlesOk(m, next, handles) && key in m && Sub(b.closers, m[key].closers)
    ensures HandlesOk(m[key := b], next, handles)
  {
    var n := m[key := b];
    forall k, id: nat | HasCloser(n, k, id)
      ensures id in handles && handles[id] == Handle(k, n[k].closers[id])
    {
      assert HasCloser(m, k, id);
    }
  }

  // ----- closers -----

  lemma NewHandle(m: Ats, next: nat, handles: map<nat, Handle>, key: AttemptKey, id: nat, b: TunnelAttempt,
                  closer: Closer)
    requires HandlesOk(m, next, handles) && key in m && id == next + 1 && b.closers == m[key].closers[id := closer]
    ensures HandlesOk(m[key := b], id, handles[id := Handle(key, closer)])
  {
    var n := m[key := b];
    var q := handles[id := Handle(key, closer)];
    forall k, i: nat | HasCloser(n, k, i) ensures i in q && q[i] == Handle(k, n[k].closers[i]) {
      if !(k == key && i == id) { assert HasCloser(m, k, i); }
    }
  }

  lemma HoldHeld(m: Ats, key: AttemptKey, id: nat, b: TunnelAttempt, closer: Closer)
    requires key in m && id !in m[key].closers && b.closers == m[key].closers[id := closer]
    ensures Held(m[key := b]) == Held(m) + multiset{closer}
  {
    GatherPut(m[key].closers, One, id, closer);
    GatherReplace(m, ClosersOf, key, b, multiset{closer}, multiset{});
  }

  lemma ReleaseHeld(m: Ats, key: AttemptKey, id: nat)
    requires key in m && id in m[key].closers
    ensures Held(m) == Held(m[key := m[key].(closers := m[key].closers - {id})]) + multiset{m[key].closers[id]}
  {
    var b := m[key].(closers := m[key].closers - {id});
    GatherPick(m[key].closers, One, id);
    GatherReplace(m, ClosersOf, key, b, multiset{}, multiset{m[key].closers[id]});
  }

  lemma NextIdUnused(x: Tunnels, key: AttemptKey)
    requires CloserIds(x.attempts, x.nextCloserId) && key in x.attempts
    ensures x.nextCloserId + 1 !in x.attempts[key].closers
  {
    assert x.nextCloserId + 1 in x.attempts[key].closers ==> HasCloser(x.attempts, key, x.nextCloserId + 1);
  }

  lemma HoldStory(x: Tunnels, next: nat, h: Story, key: AttemptKey, closer: Closer, id: nat, b: TunnelAttempt)
    requires StoryOk(x, next, h) && key in x.attempts && id !in x.attempts[key].closers
    requires id == x.nextCloserId + 1 && b == x.attempts[key].(closers := x.attempts[key].closers[id := closer])
    ensures StoryOk(x.(attempts := x.attempts[key := b], nextCloserId := id), next,
                    h.(given := h.given + multiset{closer}, handles := h.handles[id := Handle(key, closer)]))
  {
    TouchMint(x.attempts, h.minted, key, b);
    TouchUses(x.attempts, next, h.uses, key, b);
    NewHandle(x.attempts, x.nextCloserId, h.handles, key, id, b, closer);
    HoldHeld(x.attempts, key, id, b, closer);
  }

  lemma ReleaseStory(x: Tunnels, next: nat, h: Story, key: AttemptKey, id: nat)
    requires StoryOk(x, next, h) && key in x.attempts && id in x.attempts[key].closers
    ensures StoryOk(ReleaseCloser(x, key, id), next,
      h.(withdrawn := h.withdrawn + multiset{x.attempts[key].closers[id]}))
  {
    var b := x.attempts[key].(closers := x.attempts[key].closers - {id});
    TouchMint(x.attempts, h.minted, key, b);
    TouchUses(x.attempts, next, h.uses, key, b);
    SameHandles(x.attempts, x.nextCloserId, h.handles, key, b);
    ReleaseHeld(x.attempts, key, id);
  }

  // ----- redeeming -----

  lemma SpendUses(m: Ats, next: nat, uses: multiset<Use>, key: AttemptKey, actor: Actor)
    requires UsesOk(m, next, uses) && key in m && !Redeemed(m[key], actor)
    ensures UsesOk(m[key := MarkRedeemed(m[key], actor)], next, uses + multiset{Use(m[key].serial, actor)})
  {
    var n := m[key := MarkRedeemed(m[key], actor)];
    forall j, k | SameSerial(n, j, k) ensures j == k { assert SameSerial(m, j, k); }
    var more := uses + multiset{Use(m[key].serial, actor)};
    forall k, u | k in n && u in more && n[k].serial == u.serial ensures Redeemed(n[k], u.actor) {
      if u !in uses { assert SameSerial(m, k, key); }
    }
  }

  lemma SpendStory(x: Tunnels, next: nat, h: Story, token: Token)
    requires StoryOk(x, next, h) && token in x.tokens && TokenOk(token, x.tokens[token], x.attempts)
    ensures var key := x.tokens[token].key;
      var a := x.attempts[key];
      StoryOk(SetAttempt(x, key, MarkRedeemed(a, x.tokens[token].actor)).(tokens := x.tokens - {token}), next,
              h.(spent := h.spent + multiset{token}, uses := h.uses + multiset{Use(a.serial, x.tokens[token].actor)}))
  {
    var key := x.tokens[token].key;
    var actor := x.tokens[token].actor;
    var b := MarkRedeemed(x.attempts[key], actor);
    assert Traced(x.attempts[key], h.minted);
    TouchMint(x.attempts, h.minted, key, b);
    SpendUses(x.attempts, next, h.uses, key, actor);
    SameHandles(x.attempts, x.nextCloserId, h.handles, key, b);
    SameHeld(x.attempts, key, b);
  }
}
