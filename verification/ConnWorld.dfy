/** Histories of the connectivity registry: what each event does to the tunnel
    maps, to the request lists and to the books kept about them. */
module ConnWorld {
  import opened Common
  import opened ConnModel
  import opened ConnInv
  import opened ConnAnchors
  import opened ConnTunnels
  import opened ConnStory
  import opened ConnRuns

  // ----- events that at most remove relay attempts -----

  type Drop = TunnelAttempt -> bool

  /** The relay tunnels are left alone, or some attempts are removed and all their closers run. */
  ghost predicate Tidied(x: Tunnels, y: Tunnels, fx: Effects, drop: Option<Drop>) {
    match drop
    case None => y == x && fx == NO_EFFECT
    case Some(d) => y == DropFrom(x, d) && fx == Ran(Freed(x, d))
  }

  ghost predicate Tidy(e: Event) { !e.Ask? && !e.Relay? }

  /** The attempts an event removes. */
  ghost function Removes(s: State, e: Event): Option<Drop> {
    match e
    case Here(DaemonUp(owner, info, _, reported, _, v, _, picks)) =>
      var key := DaemonKey(owner.userId, info.deviceId);
      if |picks| == |reported| && v && owner.agentTokenId !in s.revoked.agents && key in s.daemons then
        Some(AtOfPeers({s.daemons[key].peer})) else None
    case Here(DaemonDown(id, peer)) => if DaemonOf(s, id, peer).Some? then Some(AtOfPeers({peer})) else None
    case Pair(Untrust(id, peer, fp)) => if DaemonOf(s, id, peer).Some? then Some(AtOfPeerClient(peer, fp)) else None
    case Cut(CutSession(sid)) => Some(AtOfSession(sid))
    case Cut(CutUser(user, _)) => Some(AtOfUser(user))
    case Cut(CutAgent(token)) => Some(AtOfAgent(token))
    case _ => None
  }

  lemma DaemonUpTidies(s: State, e: Presence)
    requires e.DaemonUp? && |e.picks| == |e.reported| && forall k :: k in s.daemons ==> s.daemons[k].peer != e.peer
    ensures var (t, out) := StepPresence(s, e);
      Tidied(s.tunnels, t.tunnels, out.fx, Removes(s, Here(e))) && t.nextSerial == s.nextSerial
      && t.direct.Keys <= s.direct.Keys
  {
    RegisterDaemonShape(s, e.daemonOwner, e.info, e.listed, e.reported, e.peer, e.stillValid, e.at, e.picks);
  }

  lemma PresenceTidies(s: State, e: Presence)
    requires e.DaemonUp? ==> forall k :: k in s.daemons ==> s.daemons[k].peer != e.peer
    ensures var (t, out) := StepPresence(s, e);
      Tidied(s.tunnels, t.tunnels, out.fx, Removes(s, Here(e))) && t.nextSerial == s.nextSerial
      && t.direct.Keys <= s.direct.Keys
  {
    match e
    case AppUp(owner, p, v, at) =>
    case AppDown(p) =>
    case DaemonUp(owner, info, listed, reported, peer, v, at, picks) =>
      if |picks| == |reported| { DaemonUpTidies(s, e); }
    case DaemonDown(id, peer) =>
  }

  lemma PairingTidies(s: State, e: Pairing)
    ensures var (t, out) := StepPairing(s, e);
      Tidied(s.tunnels, t.tunnels, out.fx, Removes(s, Pair(e))) && t.nextSerial == s.nextSerial
      && t.direct.Keys <= s.direct.Keys
  {
    match e
    case Untrust(id, peer, fp) =>
    case Trust(id, peer, fp) =>
    case _ => CorrelationsOnly(s, e);
  }

  lemma RevokingTidies(s: State, e: Revoking)
    ensures var (t, out) := StepRevoking(s, e);
      Tidied(s.tunnels, t.tunnels, out.fx, Removes(s, Cut(e))) && t.nextSerial == s.nextSerial
      && t.direct.Keys <= s.direct.Keys
  {
  }

  lemma OpenTidies(s: State, e: Meeting)
    requires e.Open? || e.GoDirect?
    ensures var (t, out) := StepMeeting(s, e);
      Tidied(s.tunnels, t.tunnels, out.fx, None) && s.nextSerial <= t.nextSerial
      && (e.GoDirect? || t.direct.Keys <= s.direct.Keys)
  {
    match e
    case Open(owner, p, dev, id, v, ttl, sweptAt, at) =>
    case GoDirect(owner, dev, peer, id, fp, sweptAt, pick) =>
  }

  lemma MeetingTidies(s: State, e: Meeting)
    ensures var (t, out) := StepMeeting(s, e);
      Tidied(s.tunnels, t.tunnels, out.fx, None) && s.nextSerial <= t.nextSerial
      && (e.GoDirect? || t.direct.Keys <= s.direct.Keys)
  {
    if e.Open? || e.GoDirect? { OpenTidies(s, e); } else { MeetingShrinks(s, e); }
  }

  lemma StepTidies(s: State, e: Event, su: SessionUser)
    requires Tidy(e) && Fair(s, e, su)
    ensures var (t, out) := Step(s, e);
      Tidied(s.tunnels, t.tunnels, out.fx, Removes(s, e)) && s.nextSerial <= t.nextSerial
    ensures (e.Meet? && e.meeting.GoDirect?) || Step(s, e).0.direct.Keys <= s.direct.Keys
  {
    match e
    case Here(x) => PresenceTidies(s, x);
    case Pair(x) => PairingTidies(s, x);
    case Cut(x) => RevokingTidies(s, x);
    case Meet(x) => MeetingTidies(s, x);
  }

  // ----- tokens, in-flight bound and closer identifiers -----

  lemma RelayingTunnels(x: Tunnels, e: Relaying)
    requires TunnelInv(x)
    ensures TunnelInv(StepRelaying(x, e).0)
  {
    match e
    case Unsent(key, serial) => DropTunnels(x, AtSerial(key, serial));
    case Spend(token, at) => RedeemSweptTunnels(x, token, at);
    case Activate(key) => if key in x.attempts { MarkActiveTunnels(x, key); }
    case Shut(key) => DropTunnels(x, AtKeyed(key));
    case Sweep(at) => DropTunnels(x, AtExpired(at));
    case AtTimer(key, at) => DropTunnels(x, AtTimedOut(key, at));
    case AddClose(key, closer) => if key in x.attempts { HoldCloserTunnels(x, key, closer); }
    case DropClose(key, id) => if key in x.attempts { ReleaseCloserTunnels(x, key, id); }
  }

  /** Every event keeps the token map exact and the in-flight bound. */
  lemma StepTunnels(s: State, e: Event, su: SessionUser)
    requires TunnelInv(s.tunnels) && Fair(s, e, su)
    ensures TunnelInv(Step(s, e).0.tunnels)
  {
    match e
    case Ask(x) => RequestSweptTunnels(s, x.owner, x.appPeer, x.daemonId, x.attemptId, x.at, x.expiresAt, x.minted);
    case Relay(x) => RelayingTunnels(s.tunnels, x);
    case _ =>
      StepTidies(s, e, su);
      if Removes(s, e).Some? { DropTunnels(s.tunnels, Removes(s, e).value); }
  }

  // ----- relay and direct attempts exclude each other -----

  lemma GrantKeys(s: State, owner: AppOwner, daemonId: string, attemptId: string, now: Time, expiresAt: Time,
                  minted: (Token, Token))
    requires DaemonKey(owner.userId, daemonId) in s.daemons
    ensures var t := GrantTunnel(s, owner, daemonId, attemptId, now, expiresAt, minted).0;
      t.direct == s.direct && t.tunnels.attempts.Keys <= s.tunnels.attempts.Keys + {KeyOf(owner, daemonId, attemptId)}
  {
  }

  /** A tunnel request leaves direct sessions alone and adds at most the attempt it asks for, for which there is
      none. */
  lemma AskKeys(s: State, e: Asking)
    ensures var t := StepAsking(s, e).0;
      t.direct == s.direct && forall k :: k in t.tunnels.attempts ==> k in s.tunnels.attempts || k !in s.direct
  {
    if Eligible(s, e.owner, e.appPeer, e.daemonId, e.attemptId) && e.minted.Some? {
      var s1 := s.(tunnels := s.tunnels.(requests := PruneRequests(s.tunnels.requests, e.owner.userId, e.at)));
      GrantKeys(s1, e.owner, e.daemonId, e.attemptId, e.at, e.expiresAt, e.minted.value);
    }
  }

  lemma AskNotBoth(s: State, e: Asking)
    requires NotBoth(s.tunnels.attempts, s.direct)
    ensures var t := StepAsking(s, e).0; NotBoth(t.tunnels.attempts, t.direct)
  {
    AskKeys(s, e);
  }

  lemma GoDirectNotBoth(s: State, e: Meeting)
    requires e.GoDirect? && NotBoth(s.tunnels.attempts, s.direct) && RvInv(s.rendezvous, s.apps, s.daemons)
    ensures var t := StepMeeting(s, e).0; NotBoth(t.tunnels.attempts, t.direct)
  {
    assert e.pick in s.rendezvous ==> RvOk(e.pick, s.rendezvous[e.pick], s.apps, s.daemons);
    OpenDirectShape(s, e.daemonOwner, e.deviceId, e.peer, e.attemptId, e.fp, e.sweptAt, e.pick);
  }

  lemma StepNotBoth(s: State, e: Event, su: SessionUser)
    requires NotBoth(s.tunnels.attempts, s.direct) && RvInv(s.rendezvous, s.apps, s.daemons) && Fair(s, e, su)
    ensures var t := Step(s, e).0; NotBoth(t.tunnels.attempts, t.direct)
  {
    match e
    case Ask(x) => AskNotBoth(s, x);
    case Relay(x) => RelayingTouches(s.tunnels, x);
    case Meet(GoDirect(owner, dev, peer, id, fp, sweptAt, pick)) => GoDirectNotBoth(s, e.meeting);
    case _ => StepTidies(s, e, su);
  }

  // ----- the books -----

  /** The history after an event with the given effects on the tunnels `x`. */
  ghost function Retold(h: Story, x: Tunnels, e: Event, fx: Effects): Story {
    Story(
      if fx.issued.Some? then Mint(h.minted, fx.issued.value) else h.minted,
      if fx.redeemed.Some? && e.Relay? && e.relaying.Spend? then h.spent + multiset{e.relaying.token} else h.spent,
      if fx.redeemed.Some? then h.uses + multiset{Use(fx.redeemed.value.serial, fx.redeemed.value.actor)} else h.uses,
      h.given + fx.given,
      h.ran + fx.ran,
      h.withdrawn + fx.withdrawn,
      if e.Relay? && e.relaying.AddClose? && e.relaying.key in x.attempts
      then h.handles[x.nextCloserId + 1 := Handle(e.relaying.key, e.relaying.closer)] else h.handles)
  }

  lemma RanOnly(h: Story, x: Tunnels, e: Event, closers: multiset<Closer>)
    requires !(e.Relay? && e.relaying.AddClose?)
    ensures Retold(h, x, e, Ran(closers)) == h.(ran := h.ran + closers)
    ensures Retold(h, x, e, NO_EFFECT) == h
  {
    assert h.given + multiset{} == h.given;
    assert h.withdrawn + multiset{} == h.withdrawn;
    assert h.ran + multiset{} == h.ran;
  }

  lemma TidyStory(s: State, e: Event, next: nat, h: Story, su: SessionUser)
    requires Tidy(e) && Fair(s, e, su) && StoryOk(s.tunnels, next, h)
    ensures StoryOk(Step(s, e).0.tunnels, next, Retold(h, s.tunnels, e, Step(s, e).1.fx))
  {
    StepTidies(s, e, su);
    match Removes(s, e)
    case None => RanOnly(h, s.tunnels, e, multiset{});
    case Some(drop) =>
      RanOnly(h, s.tunnels, e, Freed(s.tunnels, drop));
      DropStory(s.tunnels, next, h, drop);
  }

  lemma DropRelayStory(x: Tunnels, next: nat, h: Story, e: Relaying, drop: Drop)
    requires StoryOk(x, next, h) && !e.AddClose?
    ensures StoryOk(DropFrom(x, drop), next, Retold(h, x, Relay(e), Ran(Freed(x, drop))))
  {
    RanOnly(h, x, Relay(e), Freed(x, drop));
    DropStory(x, next, h, drop);
  }

  /** A closer for an attempt that is gone runs at once. */
  lemma LateCloseStory(x: Tunnels, next: nat, h: Story, closer: Closer)
    requires StoryOk(x, next, h)
    ensures StoryOk(x, next, h.(given := h.given + multiset{closer}, ran := h.ran + multiset{closer}))
  {
  }

  lemma RetoldAddClose(h: Story, x: Tunnels, key: AttemptKey, closer: Closer)
    ensures Retold(h, x, Relay(AddClose(key, closer)), AddCloser(x, key, closer).1.fx) ==
            if key in x.attempts then
              h.(given := h.given + multiset{closer}, handles := h.handles[x.nextCloserId + 1 := Handle(key, closer)])
            else h.(given := h.given + multiset{closer}, ran := h.ran + multiset{closer})
  {
    assert h.withdrawn + multiset{} == h.withdrawn && h.ran + multiset{} == h.ran;
  }

  lemma AddCloseStory(x: Tunnels, next: nat, h: Story, key: AttemptKey, closer: Closer, id: nat)
    requires StoryOk(x, next, h) && CloserIds(x.attempts, x.nextCloserId) && id == x.nextCloserId + 1
    ensures StoryOk(AddCloser(x, key, closer).0, next,
      Retold(h, x, Relay(AddClose(key, closer)), AddCloser(x, key, closer).1.fx))
  {
    RetoldAddClose(h, x, key, closer);
    if key in x.attempts {
      NextIdUnused(x, key);
      HoldStory(x, next, h, key, closer, id, x.attempts[key].(closers := x.attempts[key].closers[id := closer]));
    } else {
      LateCloseStory(x, next, h, closer);
    }
  }

  lemma DropCloseStory(x: Tunnels, next: nat, h: Story, key: AttemptKey, id: nat)
    requires StoryOk(x, next, h)
    ensures StoryOk(WithdrawCloser(x, key, id).0, next,
      Retold(h, x, Relay(DropClose(key, id)), WithdrawCloser(x, key, id).1.fx))
  {
    RanOnly(h, x, Relay(DropClose(key, id)), multiset{});
    assert h.ran + multiset{} == h.ran;
    assert h.given + multiset{} == h.given;
    if key in x.attempts && id in x.attempts[key].closers { ReleaseStory(x, next, h, key, id); }
  }

  lemma SpendTokenStory(x: Tunnels, next: nat, h: Story, token: Token, now: Time)
    requires StoryOk(x, next, h) && TunnelInv(x)
    ensures StoryOk(RedeemSwept(x, token, now).0, next,
      Retold(h, x, Relay(Spend(token, now)), RedeemSwept(x, token, now).1.fx))
  {
    var e := Spend(token, now);
    RanOnly(h, x, Relay(e), multiset{});
    if token in x.tokens {
      StoredTokenIsLive(x, token, now);
      assert h.given + multiset{} == h.given && h.ran + multiset{} == h.ran && h.withdrawn + multiset{} == h.withdrawn;
      if x.attempts[x.tokens[token].key].expiresAt <= now {
        DropRelayStory(x, next, h, e, AtKeyed(x.attempts[x.tokens[token].key].key));
      } else {
        SpendStory(x, next, h, token);
      }
    }
  }

  /** The books agree with the tunnel maps after this event. */
  ghost predicate Booked(x: Tunnels, next: nat, h: Story, e: Relaying) {
    StoryOk(StepRelaying(x, e).0, next, Retold(h, x, Relay(e), StepRelaying(x, e).1.fx))
  }

  lemma DroppingBooked(x: Tunnels, next: nat, h: Story, e: Relaying, drop: Drop)
    requires StoryOk(x, next, h) && !e.AddClose? && StepRelaying(x, e) == Dropping(x, drop)
    ensures Booked(x, next, h, e)
  {
    DropRelayStory(x, next, h, e, drop);
  }

  lemma SpendBooked(x: Tunnels, next: nat, h: Story, token: Token, at: Time)
    requires StoryOk(x, next, h) && TunnelInv(x)
    ensures Booked(x, next, h, Spend(token, at))
  {
    SpendTokenStory(x, next, h, token, at);
  }

  lemma ActivateBooked(x: Tunnels, next: nat, h: Story, key: AttemptKey)
    requires StoryOk(x, next, h)
    ensures Booked(x, next, h, Activate(key))
  {
    RanOnly(h, x, Relay(Activate(key)), multiset{});
    if key in x.attempts { MarkActiveStory(x, next, h, key); }
  }

  lemma AddCloseBooked(x: Tunnels, next: nat, h: Story, key: AttemptKey, closer: Closer)
    requires StoryOk(x, next, h) && TunnelInv(x)
    ensures Booked(x, next, h, AddClose(key, closer))
  {
    AddCloseStory(x, next, h, key, closer, x.nextCloserId + 1);
  }

  lemma DropCloseBooked(x: Tunnels, next: nat, h: Story, key: AttemptKey, id: nat)
    requires StoryOk(x, next, h)
    ensures Booked(x, next, h, DropClose(key, id))
  {
    DropCloseStory(x, next, h, key, id);
  }

  lemma RelayingBooked(x: Tunnels, next: nat, h: Story, e: Relaying)
    requires StoryOk(x, next, h) && TunnelInv(x)
    ensures Booked(x, next, h, e)
  {
    match e
    case Unsent(key, serial) => DroppingBooked(x, next, h, e, AtSerial(key, serial));
    case Spend(token, at) => SpendBooked(x, next, h, token, at);
    case Activate(key) => ActivateBooked(x, next, h, key);
    case Shut(key) => DroppingBooked(x, next, h, e, AtKeyed(key));
    case Sweep(at) => DroppingBooked(x, next, h, e, AtExpired(at));
    case AtTimer(key, at) => DroppingBooked(x, next, h, e, AtTimedOut(key, at));
    case AddClose(key, closer) => AddCloseBooked(x, next, h, key, closer);
    case DropClose(key, id) => DropCloseBooked(x, next, h, key, id);
  }

  lemma RelayingStory(x: Tunnels, next: nat, h: Story, e: Relaying)
    requires StoryOk(x, next, h) && TunnelInv(x)
    ensures StoryOk(StepRelaying(x, e).0, next, Retold(h, x, Relay(e), StepRelaying(x, e).1.fx))
  {
    RelayingBooked(x, next, h, e);
  }

  /** The request lists play no part in the history of tunnels. */
  lemma RequestsDoNotMatter(x: Tunnels, requests: map<int, seq<Time>>, next: nat, h: Story)
    requires StoryOk(x, next, h)
    ensures StoryOk(x.(requests := requests), next, h)
  {
  }

  lemma AskingStory(s: State, e: Asking, h: Story)
    requires StoryOk(s.tunnels, s.nextSerial, h) && OwnKeys(s.tunnels.attempts)
      && (e.minted.Some? ==> NeverMinted(h.minted, e.minted.value))
    ensures var (t, out) := StepAsking(s, e); StoryOk(t.tunnels, t.nextSerial, Retold(h, s.tunnels, Ask(e), out.fx))
  {
    RanOnly(h, s.tunnels, Ask(e), multiset{});
    var key := KeyOf(e.owner, e.daemonId, e.attemptId);
    if Eligible(s, e.owner, e.appPeer, e.daemonId, e.attemptId) {
      var x := s.tunnels.(requests := PruneRequests(s.tunnels.requests, e.owner.userId, e.at));
      RequestsDoNotMatter(s.tunnels, x.requests, s.nextSerial, h);
      if Admits(x, e.owner, key, e.minted) {
        var a :=
          NewAttempt(s.daemons[DaemonKey(e.owner.userId, e.daemonId)], e.owner, e.daemonId, e.attemptId, e.expiresAt,
          e.minted.value, s.nextSerial);
        GrantStory(x, s.nextSerial, h, a);
        RequestsDoNotMatter(PutIn(DropFrom(x, AtKeyed(a.key)), a), RecordRequest(x.requests, e.owner.userId, e.at),
          s.nextSerial + 1,
                            h.(ran := h.ran + Freed(x, AtKeyed(a.key)), minted := Mint(h.minted, a)));
        assert h.given + multiset{} == h.given && h.withdrawn + multiset{} == h.withdrawn;
      }
    }
  }
}
