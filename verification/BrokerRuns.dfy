/** Runs of the broker with any number of connections, interleaved step by step. */
module BrokerRuns {
  import opened Common
  import opened Texts
  import opened BrokerModel

  datatype World = World(broker: Broker, conns: map<Conn, Serving>)

  const START: World := World(EMPTY, map[])

  datatype Event =
    | Open(conn: Conn)
    | Read(conn: Conn, frame: Frame)
    | Proceed(conn: Conn)
    | Ask(sessionId: string, holder: Holder)
    | Give(sessionId: string, holder: Holder)
    | GiveAll(holder: Holder)

  /** A connection object is new; a frame is read only by a loop that reads. */
  predicate Admissible(w: World, e: Event) {
    match e
    case Open(c) => c !in w.conns
    case Read(c, _) => c in w.conns && w.conns[c].Reading?
    case Proceed(c) => c in w.conns
    case _ => true
  }

  function Next(w: World, e: Event): World
    requires Admissible(w, e)
  {
    match e
    case Open(c) => w.(conns := w.conns[c := Reading("")])
    case Read(c, f) => var (b, at) := Handle(w.broker, c, w.conns[c].registered, f); World(b, w.conns[c := at])
    case Proceed(c) => var (b, at) := Continue(w.broker, c, w.conns[c]); World(b, w.conns[c := at])
    case Ask(id, h) => w.(broker := Grant(w.broker, id, h).0)
    case Give(id, h) => w.(broker := Release(w.broker, id, h))
    case GiveAll(h) => w.(broker := ReleaseOwner(w.broker, h))
  }

  // ----- the invariant -----

  /** Ids are kept trimmed. */
  ghost predicate ServingOk(at: Serving) {
    && (!at.Closed? ==> Trim(at.registered) == at.registered)
    && (at.Registering? ==> at.registered == Trim(at.session.id) && at.registered != "")
  }

  /** A session's connection is being served and remembers that session. */
  ghost predicate OwnedWell(id: string, st: SessionState, conns: map<Conn, Serving>) {
    st.owner in conns && !conns[st.owner].Closed? && conns[st.owner].registered == id && id != ""
  }

  ghost predicate Inv(w: World) {
    && (forall c :: c in w.conns ==> ServingOk(w.conns[c]))
    && (forall id :: id in w.broker.sessions ==> OwnedWell(id, w.broker.sessions[id], w.conns))
    && w.broker.grants.Keys <= w.broker.sessions.Keys
  }

  /** What a step of connection `c` does to the sessions: at most, sessions that `c` owns change or go. */
  ghost predicate Local(b: Broker, b': Broker, c: Conn) {
    && (forall id :: id in b'.sessions ==> id in b.sessions && b'.sessions[id].owner == b.sessions[id].owner)
    && (forall id ::
      id in b.sessions && b.sessions[id].owner != c ==> id in b'.sessions && b'.sessions[id] == b.sessions[id])
    && (forall id :: id in b.sessions && id !in b'.sessions ==> id !in b'.grants)
    && (forall id :: id in b'.sessions ==> (id in b'.grants <==> id in b.grants))
    && (forall id :: id in b'.grants ==> id in b.grants && b'.grants[id] == b.grants[id])
  }

  lemma RemovedLocal(b: Broker, id: string, c: Conn)
    ensures Local(b, Removed(b, id, c), c)
    ensures id != "" && Trim(id) == id ==> !Owned(Removed(b, id, c), id, c)
  {
  }

  lemma UpdatedLocal(b: Broker, s: Session, c: Conn)
    ensures Local(b, Updated(b, s, c), c)
  {
  }
  lemma PreviewedLocal(b: Broker, id: string, preview: string, at: int, c: Conn)
    ensures Local(b, Previewed(b, id, preview, at, c), c)
  {
  }
  lemma SnapshottedLocal(b: Broker, id: string, snapshot: seq<int>, cols: int, rows: int, c: Conn)
    ensures Local(b, Snapshotted(b, id, snapshot, cols, rows, c), c)
  {
  }

  /** Frames of a connection touch no session of another connection. */
  lemma HandleLocal(b: Broker, c: Conn, registered: string, f: Frame)
    ensures Local(b, Handle(b, c, registered, f).0, c)
  {
    match f
    case Register(s) => if s.Some? { RemovedLocal(b, registered, c); }
    case UpdateSession(s) => if s.Some? { UpdatedLocal(b, s.value, c); }
    case UpdatePreview(id, preview, at) => PreviewedLocal(b, id, preview, at, c);
    case UpdateSnapshot(id, snapshot, cols, rows) => SnapshottedLocal(b, id, snapshot, cols, rows, c);
    case Gone(raw) => RemovedLocal(b, if Trim(raw) == "" then registered else Trim(raw), c);
    case _ =>
  }

  /** After a frame, the connection owns at most the session it remembers. */
  lemma HandleKeepsOne(b: Broker, c: Conn, registered: string, f: Frame, id: string)
    requires Trim(registered) == registered
    requires forall k :: Owned(b, k, c) ==> k == registered && k != ""
    requires Owned(Handle(b, c, registered, f).0, id, c)
    ensures ServingOk(Handle(b, c, registered, f).1) && !Handle(b, c, registered, f).1.Closed?
      && Handle(b, c, registered, f).1.registered == id
  {
    HandleLocal(b, c, registered, f);
    HandleOk(b, c, registered, f);
    assert Owned(b, id, c);
    RemovedLocal(b, registered, c);
  }

  lemma HandleOk(b: Broker, c: Conn, registered: string, f: Frame)
    requires Trim(registered) == registered
    ensures ServingOk(Handle(b, c, registered, f).1) && !Handle(b, c, registered, f).1.Closed?
  {
    match f
    case Register(s) => if s.Some? { TrimTwice(s.value.id); }
    case Gone(raw) => assert Trim("") == "";
    case _ =>
  }

  /** Putting a connection's new place in, after a step that was local to it. */
  lemma LocalInv(w: World, c: Conn, b: Broker, at: Serving)
    requires Inv(w) && c in w.conns && Local(w.broker, b, c) && ServingOk(at)
    requires forall id :: Owned(b, id, c) ==> !at.Closed? && at.registered == id
    ensures Inv(World(b, w.conns[c := at]))
  {
    var v := World(b, w.conns[c := at]);
    forall id | id in b.sessions ensures OwnedWell(id, b.sessions[id], v.conns) {
      assert OwnedWell(id, w.broker.sessions[id], w.conns);
      assert b.sessions[id].owner == c ==> Owned(b, id, c);
    }
  }

  lemma ReadInv(w: World, c: Conn, f: Frame)
    requires Inv(w) && c in w.conns && w.conns[c].Reading?
    ensures Inv(Next(w, Read(c, f)))
  {
    var reg := w.conns[c].registered;
    var (b, at) := Handle(w.broker, c, reg, f);
    HandleLocal(w.broker, c, reg, f);
    assert ServingOk(w.conns[c]);
    HandleOk(w.broker, c, reg, f);
    OwnsOnlyOne(w, c);
    forall id | Owned(b, id, c) ensures at.registered == id { HandleKeepsOne(w.broker, c, reg, f, id); }
    LocalInv(w, c, b, at);
  }

  /** A connection owns at most the session it remembers. */
  lemma OwnsOnlyOne(w: World, c: Conn)
    requires Inv(w) && c in w.conns
    ensures forall id :: Owned(w.broker, id, c) ==> !w.conns[c].Closed? && id == w.conns[c].registered && id != ""
  {
    forall id | Owned(w.broker, id, c) ensures !w.conns[c].Closed? && id == w.conns[c].registered && id != "" {
      assert OwnedWell(id, w.broker.sessions[id], w.conns);
    }
  }

  lemma RegisterInv(w: World, c: Conn, reg: string, s: Session)
    requires Inv(w) && c in w.conns && w.conns[c] == Registering(reg, s)
    ensures Inv(World(RegisterSession(w.broker, s, c), w.conns[c := Reading(reg)]))
  {
    var v := World(RegisterSession(w.broker, s, c), w.conns[c := Reading(reg)]);
    assert ServingOk(w.conns[c]);
    forall id | id in v.broker.sessions ensures OwnedWell(id, v.broker.sessions[id], v.conns) {
      if id != reg { assert OwnedWell(id, w.broker.sessions[id], w.conns); }
    }
  }

  lemma EndInv(w: World, c: Conn, reg: string)
    requires Inv(w) && c in w.conns && w.conns[c] == Ending(reg)
    ensures Inv(World(if reg != "" then Removed(w.broker, reg, c) else w.broker, w.conns[c := Closed]))
  {
    assert ServingOk(w.conns[c]);
    RemovedLocal(w.broker, reg, c);
    OwnsOnlyOne(w, c);
    LocalInv(w, c, if reg != "" then Removed(w.broker, reg, c) else w.broker, Closed);
  }

  lemma NextInv(w: World, e: Event)
    requires Inv(w) && Admissible(w, e)
    ensures Inv(Next(w, e))
  {
    match e
    case Open(c) =>
      var v := Next(w, e);
      assert Trim("") == "";
      forall id | id in v.broker.sessions
        ensures OwnedWell(id, v.broker.sessions[id], v.conns)
      {
        assert OwnedWell(id, w.broker.sessions[id], w.conns);
      }
    case Read(c, f) => ReadInv(w, c, f);
    case Proceed(c) =>
      match w.conns[c] {
        case Reading(reg) =>
          assert ServingOk(w.conns[c]);
          OwnsOnlyOne(w, c);
          LocalInv(w, c, w.broker, Ending(reg));
        case Registering(reg, s) => RegisterInv(w, c, reg, s);
        case Ending(reg) => EndInv(w, c, reg);
        case Closed => assert w.conns[c := Closed] == w.conns;
      }
    case Ask(id, h) =>
    case Give(id, h) =>
    case GiveAll(h) =>
  }

  // ----- runs -----

  ghost predicate AdmissibleRun(w: World, es: seq<Event>)
    decreases |es|
  {
    es == [] || (Admissible(w, es[0]) && AdmissibleRun(Next(w, es[0]), es[1..]))
  }

  ghost function Run(w: World, es: seq<Event>): World
    requires AdmissibleRun(w, es)
    decreases |es|
  {
    if es == [] then w else Run(Next(w, es[0]), es[1..])
  }

  lemma {:induction false} RunInv(w: World, es: seq<Event>)
    requires Inv(w) && AdmissibleRun(w, es)
    ensures Inv(Run(w, es))
    decreases |es|
  {
    if es != [] {
      NextInv(w, es[0]);
      RunInv(Next(w, es[0]), es[1..]);
    }
  }

  ghost predicate Reachable(w: World) {
    exists es :: AdmissibleRun(START, es) && w == Run(START, es)
  }

  lemma ReachableInv(w: World)
    requires Reachable(w)
    ensures Inv(w)
  {
    var es :| AdmissibleRun(START, es) && w == Run(START, es);
    RunInv(START, es);
  }

  /** In every run a connection owns at most one session, and none once it is closed; grants are for existing
      sessions. */
  lemma OneSessionPerConnection(w: World, c: Conn, i: string, j: string)
    requires Reachable(w)
    ensures Owned(w.broker, i, c) && Owned(w.broker, j, c) ==> i == j
    ensures Owned(w.broker, i, c) ==> c in w.conns && !w.conns[c].Closed? && w.conns[c].registered == i
    ensures w.broker.grants.Keys <= w.broker.sessions.Keys
  {
    ReachableInv(w);
    if Owned(w.broker, i, c) { assert OwnedWell(i, w.broker.sessions[i], w.conns); }
    if Owned(w.broker, j, c) { assert OwnedWell(j, w.broker.sessions[j], w.conns); }
  }

  /** A connection that is closed stays closed, so from then on no session is owned by it. */
  lemma {:induction false} ClosedOwnsNothing(w: World, c: Conn, es: seq<Event>, id: string)
    requires Inv(w) && c in w.conns && w.conns[c].Closed? && AdmissibleRun(w, es)
    ensures !Owned(Run(w, es).broker, id, c)
    decreases |es|
  {
    if es == [] {
      OwnsOnlyOne(w, c);
    } else {
      NextInv(w, es[0]);
      ClosedOwnsNothing(Next(w, es[0]), c, es[1..], id);
    }
  }

  /** What a connection does never changes a session another connection owns, but for
      registering that very session; and a takeover leaves its grant in place. */
  lemma SupersededIsHarmless(w: World, e: Event, id: string)
    requires Inv(w) && Admissible(w, e) && (e.Read? || e.Proceed?)
    requires id in w.broker.sessions && w.broker.sessions[id].owner != e.conn
    ensures var v := Next(w, e);
      && id in v.broker.sessions
      && (id in v.broker.grants <==> id in w.broker.grants)
        && (id in w.broker.grants ==> v.broker.grants[id] == w.broker.grants[id])
      && (v.broker.sessions[id] == w.broker.sessions[id]
          || (e.Proceed? && w.conns[e.conn].Registering? && w.conns[e.conn].registered == id
            && v.broker.sessions[id].owner == e.conn))
  {
    if e.Read? {
      HandleLocal(w.broker, e.conn, w.conns[e.conn].registered, e.frame);
    } else {
      assert ServingOk(w.conns[e.conn]);
      if w.conns[e.conn].Ending? { RemovedLocal(w.broker, w.conns[e.conn].registered, e.conn); }
    }
  }

  // ----- interactive control -----

  /** The events that end a grant: released by its holder, or the session removed by its own connection. */
  ghost predicate EndsGrant(w: World, e: Event, id: string, h: Holder)
    requires Admissible(w, e)
  {
    || (e.Give? && Trim(e.sessionId) == id && e.holder == h)
    || (e.GiveAll? && e.holder == h)
    || ((e.Read? || e.Proceed?) && Owned(w.broker, id, e.conn) && id !in Next(w, e).broker.sessions)
  }

  lemma GrantStays(w: World, e: Event, id: string, h: Holder)
    requires Inv(w) && Admissible(w, e) && id in w.broker.grants && w.broker.grants[id] == h
    ensures (id in Next(w, e).broker.grants && Next(w, e).broker.grants[id] == h) || EndsGrant(w, e, id, h)
  {
    if e.Read? || e.Proceed? { ConnGrantStays(w, e, id, h); } else { HolderGrantStays(w, e, id, h); }
  }

  lemma HolderGrantStays(w: World, e: Event, id: string, h: Holder)
    requires Admissible(w, e) && !e.Read? && !e.Proceed? && id in w.broker.grants && w.broker.grants[id] == h
    ensures (id in Next(w, e).broker.grants && Next(w, e).broker.grants[id] == h) || EndsGrant(w, e, id, h)
  {
  }

  lemma ConnGrantStays(w: World, e: Event, id: string, h: Holder)
    requires Inv(w) && Admissible(w, e) && (e.Read? || e.Proceed?) && id in w.broker.grants && w.broker.grants[id] == h
    ensures (id in Next(w, e).broker.grants && Next(w, e).broker.grants[id] == h) || EndsGrant(w, e, id, h)
  {
    if w.broker.sessions[id].owner != e.conn { SupersededIsHarmless(w, e, id); } else { OwnStep(w, e, id); }
  }

  lemma OwnStep(w: World, e: Event, id: string)
    requires Inv(w) && Admissible(w, e) && (e.Read? || e.Proceed?) && Owned(w.broker, id, e.conn)
    ensures var v := Next(w, e);
      id in v.broker.sessions ==>
        (id in v.broker.grants <==> id in w.broker.grants)
        && (id in w.broker.grants ==> v.broker.grants[id] == w.broker.grants[id])
  {
    if e.Read? {
      HandleLocal(w.broker, e.conn, w.conns[e.conn].registered, e.frame);
    } else if w.conns[e.conn].Ending? {
      RemovedLocal(w.broker, w.conns[e.conn].registered, e.conn);
    }
  }

  ghost predicate HeldThrough(w: World, es: seq<Event>, id: string, h: Holder)
    requires AdmissibleRun(w, es)
    decreases |es|
  {
    es == [] || (!EndsGrant(w, es[0], id, h) && HeldThrough(Next(w, es[0]), es[1..], id, h))
  }

  /** While one holder has the grant, nobody else is granted the session and nobody else's commands are routed;
      the holder's go to the connection that owns the session now. */
  ghost predicate ExclusiveFor(b: Broker, id: string, h: Holder) {
    && (forall raw, g :: Trim(raw) == id && g != h ==> Grant(b, raw, g) == (b, Some(Busy)))
    && (forall raw, g, cmd :: Trim(raw) == id && g != h ==> Route(b, raw, g, cmd) == (None, Some(NotGranted)))
    && (forall raw, cmd ::
      Trim(raw) == id ==> id in b.sessions && Route(b, raw, h, cmd) == (Some((b.sessions[id].owner, id, cmd)), None))
  }

  /** From a grant until its release, owner-wide release or the removal of the session, control is exclusive. */
  lemma {:induction false} ControlIsExclusive(w: World, es: seq<Event>, id: string, h: Holder)
    requires Inv(w) && AdmissibleRun(w, es) && id in w.broker.grants && w.broker.grants[id] == h
      && HeldThrough(w, es, id, h)
    ensures id in Run(w, es).broker.grants && Run(w, es).broker.grants[id] == h
      && ExclusiveFor(Run(w, es).broker, id, h)
    decreases |es|
  {
    if es == [] {
      GrantedIsExclusive(w, id, h);
    } else {
      GrantStays(w, es[0], id, h);
      NextInv(w, es[0]);
      ControlIsExclusive(Next(w, es[0]), es[1..], id, h);
    }
  }

  lemma GrantedIsExclusive(w: World, id: string, h: Holder)
    requires Inv(w) && id in w.broker.grants && w.broker.grants[id] == h
    ensures ExclusiveFor(w.broker, id, h)
  {
    assert OwnedWell(id, w.broker.sessions[id], w.conns);
  }
}
