/** The broker as the program keeps it, and the loop that serves one connection. */
module BrokerServer {
  import opened Common
  import opened Texts
  import opened Passes
  import opened BrokerModel
  import opened BrokerRuns

  /** The broker after a connection's loop that remembers `registered` has handled `frames` and ended. */
  function Served(b: Broker, conn: Conn, registered: string, frames: seq<Frame>): Broker
    decreases |frames|
  {
    if frames == [] then Continue(b, conn, Ending(registered)).0 else
      var (b1, at) := Handle(b, conn, registered, frames[0]);
      match at
      case Reading(r) => Served(b1, conn, r, frames[1..])
      case Registering(r, s) => Served(RegisterSession(b1, s, conn), conn, r, frames[1..])
      case Ending(r) => Continue(b1, conn, at).0
      case Closed => b1
  }

  /** A loop owns at most the session it remembers. */
  ghost predicate OwnsAtMost(b: Broker, conn: Conn, registered: string) {
    Trim(registered) == registered && forall id :: Owned(b, id, conn) ==> id == registered && id != ""
  }

  /** The sessions the frames register. */
  ghost predicate Registers(frames: seq<Frame>, id: string) {
    exists i :: 0 <= i < |frames| && RegistersOne(frames[i], id)
  }
  ghost predicate RegistersOne(f: Frame, id: string) {
    f.Register? && f.session.Some? && Trim(f.session.value.id) == id
  }

  lemma EndOwnsNothing(b: Broker, conn: Conn, registered: string)
    requires OwnsAtMost(b, conn, registered)
    ensures forall id :: !Owned(Continue(b, conn, Ending(registered)).0, id, conn)
  {
    var t := Continue(b, conn, Ending(registered)).0;
    RemovedLocal(b, registered, conn);
    forall id ensures !Owned(t, id, conn) { assert Owned(t, id, conn) ==> Owned(b, id, conn); }
  }

  lemma RegisterOwns(b: Broker, conn: Conn, registered: string, s: Session)
    requires OwnsAtMost(b, conn, registered) && registered == Trim(s.id) != ""
    ensures OwnsAtMost(RegisterSession(b, s, conn), conn, registered)
  {
    var t := RegisterSession(b, s, conn);
    forall id | Owned(t, id, conn)
      ensures id == registered && id != ""
    {
      assert id != registered ==> Owned(b, id, conn);
    }
  }

  lemma HandleOwns(b: Broker, conn: Conn, registered: string, f: Frame)
    requires OwnsAtMost(b, conn, registered)
    ensures var (b1, at) := Handle(b, conn, registered, f);
      && !at.Closed? && ServingOk(at) && OwnsAtMost(b1, conn, at.registered)
      && (at.Registering? ==> OwnsAtMost(RegisterSession(b1, at.session, conn), conn, at.registered))
  {
    var (b1, at) := Handle(b, conn, registered, f);
    HandleOk(b, conn, registered, f);
    HandleLocal(b, conn, registered, f);
    forall id | Owned(b1, id, conn) ensures id == at.registered && id != "" {
      HandleKeepsOne(b, conn, registered, f, id);
      assert Owned(b, id, conn);
    }
    if at.Registering? { RegisterOwns(b1, conn, at.registered, at.session); }
  }

  /** The session is there, exactly as in `b`. */
  ghost predicate Untouched(b: Broker, t: Broker, id: string) {
    id in b.sessions && id in t.sessions && t.sessions[id] == b.sessions[id]
  }

  lemma HandleSpares(b: Broker, conn: Conn, registered: string, f: Frame, id: string)
    requires id in b.sessions && b.sessions[id].owner != conn && !RegistersOne(f, id)
    ensures var (b1, at) := Handle(b, conn, registered, f);
      && Untouched(b, b1, id)
      && (at.Registering? ==> Untouched(b, RegisterSession(b1, at.session, conn), id))
      && (at.Ending? ==> Untouched(b, Continue(b1, conn, at).0, id))
  {
    var (b1, at) := Handle(b, conn, registered, f);
    HandleLocal(b, conn, registered, f);
    if at.Ending? { RemovedLocal(b1, at.registered, conn); }
  }

  /** However the frames go, when the connection has ended it owns no session. */
  lemma {:induction false} ServedOwnsNothing(b: Broker, conn: Conn, registered: string, frames: seq<Frame>)
    requires OwnsAtMost(b, conn, registered)
    ensures forall id :: !Owned(Served(b, conn, registered, frames), id, conn)
    decreases |frames|
  {
    if frames == [] {
      EndOwnsNothing(b, conn, registered);
    } else {
      var (b1, at) := Handle(b, conn, registered, frames[0]);
      HandleOwns(b, conn, registered, frames[0]);
      match at
      case Reading(r) => ServedOwnsNothing(b1, conn, r, frames[1..]);
      case Registering(r, s) => ServedOwnsNothing(RegisterSession(b1, s, conn), conn, r, frames[1..]);
      case Ending(r) => EndOwnsNothing(b1, conn, r);
    }
  }

  /** Sessions of other connections that the frames do not register come through unchanged. */
  lemma {:induction false} ServedSparesOthers(b: Broker, conn: Conn, registered: string, frames: seq<Frame>, id: string)
    requires OwnsAtMost(b, conn, registered) && id in b.sessions && b.sessions[id].owner != conn
      && !Registers(frames, id)
    ensures Untouched(b, Served(b, conn, registered, frames), id)
    decreases |frames|
  {
    if frames == [] {
      RemovedLocal(b, registered, conn);
    } else {
      var (b1, at) := Handle(b, conn, registered, frames[0]);
      var rest := frames[1..];
      assert !RegistersOne(frames[0], id);
      forall i | 0 <= i < |rest| ensures !RegistersOne(rest[i], id) { assert rest[i] == frames[i + 1]; }
      HandleOwns(b, conn, registered, frames[0]);
      HandleSpares(b, conn, registered, frames[0], id);
      match at
      case Reading(r) => ServedSparesOthers(b1, conn, r, rest, id);
      case Registering(r, s) => ServedSparesOthers(RegisterSession(b1, s, conn), conn, r, rest, id);
      case Ending(r) =>
    }
  }

  class SessionBroker {
    var sessions: map<string, SessionState>
    var interactiveOwners: map<string, Holder>

    ghost function Abs(): Broker
      reads this
    {
      Broker(sessions, interactiveOwners)
    }

    constructor ()
      ensures Abs() == EMPTY
    {
      sessions, interactiveOwners := map[], map[];
    }

    method Register(raw: Session, conn: Conn)
      modifies this`sessions
      ensures Abs() == RegisterSession(old(Abs()), raw, conn)
    {
      var s := Normalize(raw);
      if s.id == "" { return; }
      var state := if s.id in sessions then sessions[s.id] else SessionState(s, "", [], 0, 0, conn);
      sessions := sessions[s.id := state.(session := s, owner := conn)];
    }

    method UpdateSession(raw: Session, conn: Conn)
      modifies this`sessions
      ensures Abs() == Updated(old(Abs()), raw, conn)
    {
      var s := Normalize(raw);
      if s.id == "" || s.id !in sessions || sessions[s.id].owner != conn { return; }
      sessions := sessions[s.id := sessions[s.id].(session := s)];
    }

    method UpdatePreview(raw: string, preview: string, updatedAt: int, conn: Conn)
      modifies this`sessions
      ensures Abs() == Previewed(old(Abs()), raw, preview, updatedAt, conn)
    {
      var id := Trim(raw);
      if id == "" || id !in sessions || sessions[id].owner != conn { return; }
      var state := sessions[id];
      if updatedAt > 0 { state := state.(session := state.session.(updatedAt := updatedAt)); }
      state := state.(preview := preview);
      sessions := sessions[id := state];
    }

    method UpdateSnapshot(raw: string, snapshot: seq<int>, cols: int, rows: int, conn: Conn)
      modifies this`sessions
      ensures Abs() == Snapshotted(old(Abs()), raw, snapshot, cols, rows, conn)
    {
      if cols <= 0 || rows <= 0 { return; }
      var id := Trim(raw);
      if id == "" || id !in sessions || sessions[id].owner != conn { return; }
      sessions := sessions[id := sessions[id].(snapshot := snapshot, cols := cols, rows := rows)];
    }

    method Remove(raw: string, conn: Conn)
      modifies this`sessions, this`interactiveOwners
      ensures Abs() == Removed(old(Abs()), raw, conn)
    {
      var id := Trim(raw);
      if id == "" || id !in sessions || sessions[id].owner != conn { return; }
      sessions := sessions - {id};
      interactiveOwners := interactiveOwners - {id};
    }

    method GrantInteractive(raw: string, holder: Holder) returns (denial: Option<Denial>)
      modifies this`interactiveOwners
      ensures (Abs(), denial) == Grant(old(Abs()), raw, holder)
    {
      var id := Trim(raw);
      if id == "" || id !in sessions { return Some(Unavailable); }
      if id in interactiveOwners && interactiveOwners[id] != holder { return Some(Busy); }
      interactiveOwners := interactiveOwners[id := holder];
      denial := None;
    }

    method ReleaseInteractive(raw: string, holder: Holder)
      modifies this`interactiveOwners
      ensures Abs() == Release(old(Abs()), raw, holder)
    {
      var id := Trim(raw);
      if id == "" { return; }
      if id in interactiveOwners && interactiveOwners[id] == holder { interactiveOwners := interactiveOwners - {id}; }
    }

    method ReleaseInteractiveOwner(holder: Holder)
      modifies this`interactiveOwners
      ensures Abs() == ReleaseOwner(old(Abs()), holder)
    {
      var gone;
      interactiveOwners, gone := Purge(interactiveOwners, HeldBy(holder));
    }

    method SendToSession(raw: string, holder: Holder, command: Command)
      returns (sent: Option<(Conn, string, Command)>, denial: Option<Denial>)
      ensures (sent, denial) == Route(Abs(), raw, holder, command)
    {
      var id := Trim(raw);
      if id == "" || id !in sessions { return None, Some(Unavailable); }
      if !(id in interactiveOwners && interactiveOwners[id] == holder) { return None, Some(NotGranted); }
      sent, denial := Some((sessions[id].owner, id, command)), None;
    }

    /** The loop that serves one connection: `frames` are what it reads until it ends. */
    method ServeConn(conn: Conn, frames: seq<Frame>)
      requires forall id :: !Owned(Abs(), id, conn)
      modifies this
      ensures Abs() == Served(old(Abs()), conn, "", frames)
      ensures forall id :: !Owned(Abs(), id, conn)
    {
      assert Trim("") == "";
      ServedOwnsNothing(Abs(), conn, "", frames);
      var registered := "";
      var i := 0;
      while i < |frames|
        invariant 0 <= i <= |frames|
        invariant Served(Abs(), conn, registered, frames[i..]) == Served(old(Abs()), conn, "", frames)
      {
        var f := frames[i];
        assert frames[i..][0] == f && frames[i..][1..] == frames[i + 1..];
        i := i + 1;
        match f
        case Register(session) =>
          if session.None? || Trim(session.value.id) == "" { continue; }
          var id := Trim(session.value.id);
          if registered != "" && registered != id { Remove(registered, conn); }
          registered := id;
          Register(session.value, conn);
        case UpdateSession(session) =>
          if session.None? { continue; }
          UpdateSession(session.value, conn);
        case UpdatePreview(id, preview, at) => UpdatePreview(id, preview, at, conn);
        case UpdateSnapshot(id, snapshot, cols, rows) => UpdateSnapshot(id, snapshot, cols, rows, conn);
        case Output(id, output) =>
        case Gone(raw) =>
          var id := Trim(raw);
          if id == "" { id := registered; }
          Remove(id, conn);
          if id == registered { registered := ""; }
          if registered != "" { Remove(registered, conn); }
          return;
        case Unknown =>
      }
      if registered != "" { Remove(registered, conn); }
    }
  }
}
