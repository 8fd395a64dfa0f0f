/** What every event of the broker does to every session and every grant, written out one by one. */
module BrokerEffects {
  import opened Common
  import opened Texts
  import opened BrokerModel
  import opened BrokerRuns

  function At<K, V>(m: map<K, V>, k: K): Option<V> { if k in m then Some(m[k]) else None }

  // ----- sessions -----

  /** A connection takes a session over: what was shown of it stays, or nothing was yet. */
  function TakenOver(before: Option<SessionState>, s: Session, id: string, c: Conn): SessionState {
    match before
    case Some(st) => SessionState(Session(id, s.details, s.updatedAt), st.preview, st.snapshot, st.cols, st.rows, c)
    case None => SessionState(Session(id, s.details, s.updatedAt), "", [], 0, 0, c)
  }

  /** A session that its connection owns, after a frame of that connection. */
  function AfterFrame(st: SessionState, id: string, registered: string, f: Frame): Option<SessionState> {
    match f
    case Register(Some(s)) =>
      if Trim(s.id) != "" && Trim(s.id) != registered && registered == id then None else Some(st)
    case UpdateSession(Some(s)) =>
      if Trim(s.id) == id then Some(st.(session := Session(id, s.details, s.updatedAt))) else Some(st)
    case UpdatePreview(raw, preview, at) =>
      if Trim(raw) != id then Some(st)
      else Some(SessionState(Session(st.session.id, st.session.details, if at > 0 then at else st.session.updatedAt),
                             preview, st.snapshot, st.cols, st.rows, st.owner))
    case UpdateSnapshot(raw, snapshot, cols, rows) =>
      if Trim(raw) != id || cols <= 0 || rows <= 0 then Some(st)
      else Some(SessionState(st.session, st.preview, snapshot, cols, rows, st.owner))
    case Gone(raw) => if (if Trim(raw) == "" then registered else Trim(raw)) == id then None else Some(st)
    case _ => Some(st)
  }

  /** What a session is after an event. */
  function SessionAfter(w: World, e: Event, id: string): Option<SessionState>
    requires Admissible(w, e)
  {
    var before := At(w.broker.sessions, id);
    match e
    case Read(c, f) =>
      if before.Some? && before.value.owner == c then AfterFrame(before.value, id, w.conns[c].registered, f) else before
    case Proceed(c) =>
      (match w.conns[c]
       case Registering(_, s) => if Trim(s.id) == id then Some(TakenOver(before, s, id, c)) else before
       case Ending(registered) =>
         if before.Some? && before.value.owner == c && registered == id then None else before
       case _ => before)
    case _ => before
  }

  lemma RemovedExactly(b: Broker, gone: string, c: Conn, id: string)
    requires Trim(gone) == gone && (id in b.sessions ==> id != "")
    ensures At(Removed(b, gone, c).sessions, id) == if Owned(b, id, c) && gone == id then None else At(b.sessions, id)
  {
  }

  lemma FrameExactly(b: Broker, c: Conn, registered: string, f: Frame, id: string)
    requires Trim(registered) == registered
    requires id in b.sessions ==> id != "" && (b.sessions[id].owner == c ==> registered == id)
    ensures At(Handle(b, c, registered, f).0.sessions, id) ==
      if Owned(b, id, c) then AfterFrame(b.sessions[id], id, registered, f) else At(b.sessions, id)
  {
    match f
    case Register(Some(s)) => RemovedExactly(b, registered, c, id);
    case Gone(raw) =>
      TrimTwice(raw);
      RemovedExactly(b, if Trim(raw) == "" then registered else Trim(raw), c, id);
    case _ =>
  }

  /** Each event does to each session exactly this: a frame changes only sessions its own connection owns; registering
      takes a session over; the end of a connection takes its session away; holders change none. */
  lemma SessionsExactly(w: World, e: Event, id: string)
    requires Inv(w) && Admissible(w, e)
    ensures At(Next(w, e).broker.sessions, id) == SessionAfter(w, e, id)
  {
    assert id in w.broker.sessions ==> OwnedWell(id, w.broker.sessions[id], w.conns);
    match e
    case Read(c, f) =>
      assert ServingOk(w.conns[c]);
      FrameExactly(w.broker, c, w.conns[c].registered, f, id);
    case Proceed(c) => assert ServingOk(w.conns[c]);
    case _ =>
  }

  // ----- grants -----

  /** Who holds a session after an event: a grant ends with its session or by its holder, and is given when it is
      free. */
  function HolderAfter(w: World, e: Event, id: string): Option<Holder>
    requires Admissible(w, e)
  {
    var before := At(w.broker.grants, id);
    match e
    case Ask(raw, h) => if Trim(raw) == id && id in w.broker.sessions && before.None? then Some(h) else before
    case Give(raw, h) => if Trim(raw) == id && before == Some(h) then None else before
    case GiveAll(h) => if before == Some(h) then None else before
    case _ => if id in w.broker.sessions && SessionAfter(w, e, id).None? then None else before
  }

  lemma GrantsExactly(w: World, e: Event, id: string)
    requires Inv(w) && Admissible(w, e)
    ensures At(Next(w, e).broker.grants, id) == HolderAfter(w, e, id)
  {
    if e.Read? || e.Proceed? { ConnGrantsExactly(w, e, id); } else { HolderGrantsExactly(w, e, id); }
  }

  lemma HolderGrantsExactly(w: World, e: Event, id: string)
    requires Inv(w) && Admissible(w, e) && !e.Read? && !e.Proceed?
    ensures At(Next(w, e).broker.grants, id) == HolderAfter(w, e, id)
  {
    assert id in w.broker.sessions ==> OwnedWell(id, w.broker.sessions[id], w.conns);
    match e
    case Ask(raw, h) => AskExactly(w.broker, raw, h, id);
    case _ =>
  }

  lemma AskExactly(b: Broker, raw: string, h: Holder, id: string)
    requires (id in b.sessions ==> id != "") && b.grants.Keys <= b.sessions.Keys
    ensures At(Grant(b, raw, h).0.grants, id) ==
      if Trim(raw) == id && id in b.sessions && id !in b.grants then Some(h) else At(b.grants, id)
  {
  }

  lemma ConnGrantsExactly(w: World, e: Event, id: string)
    requires Inv(w) && Admissible(w, e) && (e.Read? || e.Proceed?)
    ensures At(Next(w, e).broker.grants, id) == HolderAfter(w, e, id)
  {
    SessionsExactly(w, e, id);
    if e.Read? {
      HandleLocal(w.broker, e.conn, w.conns[e.conn].registered, e.frame);
    } else if w.conns[e.conn].Ending? {
      RemovedLocal(w.broker, w.conns[e.conn].registered, e.conn);
    }
  }

  // ----- connections -----

  /** Where the loop of a connection is after an event. */
  function PlaceAfter(w: World, e: Event, c: Conn): Option<Serving>
    requires Admissible(w, e)
  {
    var before := At(w.conns, c);
    match e
    case Open(d) => if d == c then Some(Reading("")) else before
    case Read(d, f) =>
      if d != c then before else
        var registered := w.conns[c].registered;
        (match f
         case Register(Some(s)) => Some(if Trim(s.id) == "" then Reading(registered) else Registering(Trim(s.id), s))
         case Gone(raw) => Some(Ending(if Trim(raw) == "" || Trim(raw) == registered then "" else registered))
         case _ => before)
    case Proceed(d) =>
      if d != c then before else
        (match w.conns[c]
         case Reading(registered) => Some(Ending(registered))
         case Registering(registered, _) => Some(Reading(registered))
         case _ => Some(Closed))
    case _ => before
  }

  lemma PlacesExactly(w: World, e: Event, c: Conn)
    requires Inv(w) && Admissible(w, e)
    ensures At(Next(w, e).conns, c) == PlaceAfter(w, e, c)
  {
  }

  // ----- a takeover -----

  /** A newer connection takes a session over from whoever owned it: it owns the session with its own details, what was
      shown stays, other sessions and all grants stay, and the holder's commands go to it. */
  lemma NewerConnectionTakesOver(w: World, c: Conn, id: string, s: Session)
    requires Reachable(w) && c in w.conns && w.conns[c] == Registering(id, s)
    ensures var v := Next(w, Proceed(c));
      && Owned(v.broker, id, c)
      && v.broker.sessions[id] == TakenOver(At(w.broker.sessions, id), s, id, c)
      && (forall other :: other != id ==> At(v.broker.sessions, other) == At(w.broker.sessions, other))
      && v.broker.grants == w.broker.grants
      && (forall raw, h, cmd :: Trim(raw) == id && At(w.broker.grants, id) == Some(h) ==>
            Route(v.broker, raw, h, cmd) == (Some((c, id, cmd)), None))
  {
    ReachableInv(w);
    assert ServingOk(w.conns[c]);
    SessionsExactly(w, Proceed(c), id);
  }

  /** Control is given exactly for an existing session that nobody else holds; a command goes through exactly for the
      holder, to the connection that owns the session. */
  lemma ControlExactly(w: World, raw: string, h: Holder, command: Command)
    requires Reachable(w)
    ensures var id := Trim(raw); var b := w.broker;
      && Grant(b, raw, h).1 == (if id !in b.sessions then Some(Unavailable)
                                else if id in b.grants && b.grants[id] != h then Some(Busy) else None)
      && Route(b, raw, h, command) == (if id !in b.sessions then (None, Some(Unavailable))
                                       else if At(b.grants, id) != Some(h) then (None, Some(NotGranted))
                                       else (Some((b.sessions[id].owner, id, command)), None))
  {
    ReachableInv(w);
    assert Trim(raw) in w.broker.sessions ==> OwnedWell(Trim(raw), w.broker.sessions[Trim(raw)], w.conns);
  }
}
