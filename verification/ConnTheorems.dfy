/** Whole runs of the connectivity registry: the guarantees that hold after every
    admissible sequence of events, and for everything that happens later. */
module ConnTheorems {
  import opened Common
  import opened ConnModel
  import opened ConnInv
  import opened ConnClean
  import opened ConnStory
  import opened ConnRuns
  import opened ConnWorld
  import opened ConnReach

  /** The registry with the history around it. */
  datatype World = World(
    reg: State,
    clock: Time,
    links: Links,        // the owner of every daemon connection that ever registered
    story: Story,
    asked: Lists,        // times of all admitted relay-tunnel requests, by account
    met: Lists)          // times of all admitted rendezvous requests, by account

  const START: World := World(EMPTY, ZERO_TIME, map[], NO_STORY, map[], map[])

  ghost function Next(w: World, e: Event): World {
    var (t, out) := Step(w.reg, e);
    World(t, Tick(w.clock, e), Linked(w.links, e), Retold(w.story, w.reg.tunnels, e, out.fx),
          Logged(w.asked, out.fx.requestedAt), Logged(w.met, out.rendezvousAt))
  }

  /** What the environment promises: the clock does not go back, a connection registers
      once, an app passes the owner it registered with, an app session belongs to one
      account, and a random token was never handed out before. */
  ghost predicate Admissible(w: World, e: Event, su: SessionUser) {
    Orderly(w.clock, e) &&
    match e
    case Here(AppUp(owner, p, _, _)) => p !in w.reg.apps && su(owner.sessionId) == owner.userId
    case Here(DaemonUp(_, _, _, _, peer, _, _, _)) => peer !in w.links
    case Meet(Open(owner, p, _, _, _, _, _, _)) => HonestOwner(w.reg.apps, owner, Some(p), su)
    case Ask(Request(owner, p, _, _, _, _, minted)) =>
      HonestOwner(w.reg.apps, owner, p, su) && (minted.Some? ==> NeverMinted(w.story.minted, minted.value))
    case _ => true
  }

  ghost predicate WorldInv(w: World, su: SessionUser) {
    && Inv(w.reg, su)
    && StoryOk(w.reg.tunnels, w.reg.nextSerial, w.story)
    && LinkInv(w.reg.daemons, w.reg.direct, w.links)
    && Rates(w.reg.tunnels.requests, w.asked, w.clock)
    && Rates(w.reg.rendezvousRequests, w.met, w.clock)
    && CutsBefore(w.reg.revoked, w.clock)
  }

  lemma StartInv(su: SessionUser)
    ensures WorldInv(START, su)
  {
    assert forall owner :: InFlight(EMPTY.tunnels.attempts, owner) == {};
  }

  lemma AdmissibleIsFair(w: World, e: Event, su: SessionUser)
    requires LinkInv(w.reg.daemons, w.reg.direct, w.links) && MintOk(w.reg.tunnels.attempts, w.story.minted)
      && Admissible(w, e, su)
    ensures Fair(w.reg, e, su)
  {
    if e.Ask? && e.asking.minted.Some? {
      NeverMintedIsFresh(w.reg.tunnels.attempts, w.story.minted, e.asking.minted.value);
    }
  }

  lemma StepInv(s: State, e: Event, su: SessionUser)
    requires Inv(s, su) && Fair(s, e, su)
    ensures Inv(Step(s, e).0, su)
  {
    StepAnchors(s, e, su);
    StepClean(s, e, su);
    StepTunnels(s, e, su);
    StepNotBoth(s, e, su);
  }

  lemma SerialsOnlyGrow(x: Tunnels, next: nat, later: nat, h: Story)
    requires StoryOk(x, next, h) && next <= later
    ensures StoryOk(x, later, h)
  {
  }

  lemma StepStory(s: State, e: Event, h: Story, su: SessionUser)
    requires StoryOk(s.tunnels, s.nextSerial, h) && TunnelInv(s.tunnels) && Fair(s, e, su)
    requires e.Ask? && e.asking.minted.Some? ==> NeverMinted(h.minted, e.asking.minted.value)
    ensures var (t, out) := Step(s, e); StoryOk(t.tunnels, t.nextSerial, Retold(h, s.tunnels, e, out.fx))
  {
    match e
    case Ask(x) => AskingStory(s, x, h);
    case Relay(x) => RelayingStory(s.tunnels, s.nextSerial, h, x);
    case _ =>
      StepTidies(s, e, su);
      TidyStory(s, e, s.nextSerial, h, su);
      var (t, out) := Step(s, e);
      SerialsOnlyGrow(t.tunnels, s.nextSerial, t.nextSerial, Retold(h, s.tunnels, e, out.fx));
  }

  /** Every admissible event keeps every invariant. */
  lemma NextInv(w: World, e: Event, su: SessionUser)
    requires WorldInv(w, su) && Admissible(w, e, su)
    ensures WorldInv(Next(w, e), su)
  {
    AdmissibleIsFair(w, e, su);
    StepInv(w.reg, e, su);
    StepStory(w.reg, e, w.story, su);
    StepLinks(w.reg, e, w.links);
    StepAskRates(w.reg, e, w.asked, w.clock, su);
    StepMeetRates(w.reg, e, w.met, w.clock);
    StepRevoked(w.reg, e, w.clock);
  }

  // ----- runs -----

  ghost function Run(w: World, es: seq<Event>): World
    decreases |es|
  {
    if es == [] then w else Run(Next(w, es[0]), es[1..])
  }

  ghost predicate AdmissibleRun(w: World, es: seq<Event>, su: SessionUser)
    decreases |es|
  {
    es == [] || (Admissible(w, es[0], su) && AdmissibleRun(Next(w, es[0]), es[1..], su))
  }

  lemma {:induction false} RunInv(w: World, es: seq<Event>, su: SessionUser)
    requires WorldInv(w, su) && AdmissibleRun(w, es, su)
    ensures WorldInv(Run(w, es), su)
    decreases |es|
  {
    if es != [] {
      NextInv(w, es[0], su);
      RunInv(Next(w, es[0]), es[1..], su);
    }
  }

  ghost predicate Reachable(w: World, su: SessionUser) {
    exists es :: AdmissibleRun(START, es, su) && w == Run(START, es)
  }

  lemma ReachableInv(w: World, su: SessionUser)
    requires Reachable(w, su)
    ensures WorldInv(w, su)
  {
    var es :| AdmissibleRun(START, es, su) && w == Run(START, es);
    StartInv(su);
    RunInv(START, es, su);
  }
}
