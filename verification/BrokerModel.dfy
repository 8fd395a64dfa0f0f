/** The daemon's session broker as a value: sessions, each owned by the connection
    that registered it last, and interactive grants. */
module BrokerModel {
  import opened Common
  import opened Texts

  type Conn = nat
  type Holder = nat

  datatype Session = Session(id: string, details: string, updatedAt: int)
  datatype SessionState = SessionState(session: Session, preview: string, snapshot: seq<int>, cols: int, rows: int,
                                       owner: Conn)

  datatype Broker = Broker(sessions: map<string, SessionState>, grants: map<string, Holder>)

  const EMPTY: Broker := Broker(map[], map[])

  datatype Frame =
    | Register(session: Option<Session>)
    | UpdateSession(session: Option<Session>)
    | UpdatePreview(sessionId: string, preview: string, updatedAt: int)
    | UpdateSnapshot(sessionId: string, snapshot: seq<int>, cols: int, rows: int)
    | Output(sessionId: string, output: seq<int>)
    | Gone(sessionId: string)
    | Unknown

  /** What is sent to the connection that owns a session. */
  datatype Command = InputText(text: string, submit: bool) | InputKey(key: string) | Resize(cols: int, rows: int)

  datatype Denial = Unavailable | Busy | NotGranted

  predicate Owned(b: Broker, id: string, conn: Conn) {
    id in b.sessions && b.sessions[id].owner == conn
  }

  function Normalize(s: Session): Session { s.(id := Trim(s.id)) }

  /** Registering takes a session over from its previous connection; what was shown of it stays. */
  function RegisterSession(b: Broker, raw: Session, conn: Conn): Broker {
    var s := Normalize(raw);
    if s.id == "" then b
    else if s.id in b.sessions then b.(sessions := b.sessions[s.id := b.sessions[s.id].(session := s, owner := conn)])
    else b.(sessions := b.sessions[s.id := SessionState(s, "", [], 0, 0, conn)])
  }

  function Updated(b: Broker, raw: Session, conn: Conn): Broker {
    var s := Normalize(raw);
    if s.id == "" || !Owned(b, s.id, conn) then b
    else b.(sessions := b.sessions[s.id := b.sessions[s.id].(session := s)])
  }

  function Previewed(b: Broker, raw: string, preview: string, updatedAt: int, conn: Conn): Broker {
    var id := Trim(raw);
    if id == "" || !Owned(b, id, conn) then b else
      var st := b.sessions[id];
      b.(sessions :=
        b.sessions[id :=
        st.(preview := preview, session := if updatedAt > 0 then st.session.(updatedAt := updatedAt) else st.session)])
  }

  function Snapshotted(b: Broker, raw: string, snapshot: seq<int>, cols: int, rows: int, conn: Conn): Broker {
    var id := Trim(raw);
    if cols <= 0 || rows <= 0 || id == "" || !Owned(b, id, conn) then b
    else b.(sessions := b.sessions[id := b.sessions[id].(snapshot := snapshot, cols := cols, rows := rows)])
  }

  /** Removing a session that the connection still owns, with its grant. */
  function Removed(b: Broker, raw: string, conn: Conn): Broker {
    var id := Trim(raw);
    if id == "" || !Owned(b, id, conn) then b
    else Broker(b.sessions - {id}, b.grants - {id})
  }

  // ----- interactive control -----

  function Grant(b: Broker, raw: string, holder: Holder): (Broker, Option<Denial>) {
    var id := Trim(raw);
    if id == "" || id !in b.sessions then (b, Some(Unavailable))
    else if id in b.grants && b.grants[id] != holder then (b, Some(Busy))
    else (b.(grants := b.grants[id := holder]), None)
  }

  function Release(b: Broker, raw: string, holder: Holder): Broker {
    var id := Trim(raw);
    if id in b.grants && b.grants[id] == holder && id != "" then b.(grants := b.grants - {id}) else b
  }

  function HeldBy(holder: Holder): Holder -> bool { (h: Holder) => h == holder }

  function ReleaseOwner(b: Broker, holder: Holder): Broker {
    b.(grants := Keep(b.grants, HeldBy(holder)))
  }

  /** Routing a command: the connection it goes to, or why it does not. */
  function Route(b: Broker, raw: string, holder: Holder,
                 command: Command): (r: (Option<(Conn, string, Command)>, Option<Denial>)) {
    var id := Trim(raw);
    if id == "" || id !in b.sessions then (None, Some(Unavailable))
    else if !(id in b.grants && b.grants[id] == holder) then (None, Some(NotGranted))
    else (Some((b.sessions[id].owner, id, command)), None)
  }

  // ----- one connection -----

  /** Where the loop that serves a connection is.  `registered` is the session id it remembers. */
  datatype Serving =
    | Reading(registered: string)
    | Registering(registered: string, session: Session)   // an older session is gone, the new one not yet there
    | Ending(registered: string)                          // the loop ended, the last session is still to be removed
    | Closed

  /** One step of the loop on a frame that was read. */
  function Handle(b: Broker, conn: Conn, registered: string, f: Frame): (Broker, Serving) {
    match f
    case Register(None) => (b, Reading(registered))
    case Register(Some(s)) =>
      var id := Trim(s.id);
      if id == "" then (b, Reading(registered))
      else (if registered != "" && registered != id then Removed(b, registered, conn) else b, Registering(id, s))
    case UpdateSession(None) => (b, Reading(registered))
    case UpdateSession(Some(s)) => (Updated(b, s, conn), Reading(registered))
    case UpdatePreview(id, preview, at) => (Previewed(b, id, preview, at, conn), Reading(registered))
    case UpdateSnapshot(id, snapshot, cols, rows) =>
      (Snapshotted(b, id, snapshot, cols, rows, conn), Reading(registered))
    case Output(id, output) => (b, Reading(registered))
    case Gone(raw) =>
      var id := if Trim(raw) == "" then registered else Trim(raw);
      (Removed(b, id, conn), Ending(if id == registered then "" else registered))
    case Unknown => (b, Reading(registered))
  }

  /** The steps the loop takes on its own. */
  function Continue(b: Broker, conn: Conn, at: Serving): (Broker, Serving) {
    match at
    case Reading(registered) => (b, Ending(registered))
    case Registering(registered, s) => (RegisterSession(b, s, conn), Reading(registered))
    case Ending(registered) => (if registered != "" then Removed(b, registered, conn) else b, Closed)
    case Closed => (b, Closed)
  }
}
