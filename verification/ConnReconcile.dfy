/** What a daemon's registration with a list of reported direct sessions guarantees. */
module ConnReconcile {
  import opened ConnModel
  import opened ConnInv
  import opened ConnAnchors

  lemma {:induction false} NonBlankIs(reported: seq<Report>, r: Report)
    ensures r in NonBlank(reported) <==> r in reported && r.attemptId != "" && r.fingerprint != ""
  {
    if reported != [] {
      NonBlankIs(reported[1..], r);
      assert reported == [reported[0]] + reported[1..];
    }
  }

  ghost predicate Ours(d: DirectSession, owner: DaemonOwner, deviceId: string) {
    d.daemonOwner == owner && d.daemonDeviceId == deviceId
  }

  /** The record at `k` answers the report: bound to the new connection, its app not revoked, its fingerprint
      trusted. */
  ghost predicate Answers(s: State, direct: Dis, k: AttemptKey, owner: DaemonOwner, info: DaemonInfo,
                          trusted: set<string>, r: Report, peer: DaemonPeer) {
    && k in direct && DiCandidate(direct[k], owner, info.deviceId, r.attemptId, r.fingerprint)
    && direct[k].daemonPeer == peer && direct[k].daemonFingerprint == info.fingerprint
    && !Revoked(s, direct[k].appOwner) && r.fingerprint in trusted
  }

  lemma KeptWasReported(s: State, owner: DaemonOwner, info: DaemonInfo, trusted: set<string>, reported: seq<Report>,
                        peer: DaemonPeer, picks: seq<AttemptKey>, k: AttemptKey)
    requires |picks| == |reported|
    requires var n := Reconcile(s, owner, info, trusted, reported, peer, picks).direct;
      k in n && Ours(n[k], owner, info.deviceId)
    ensures var d := Reconcile(s, owner, info, trusted, reported, peer, picks).direct[k];
      Report(d.id, d.androidFingerprint) in reported && d.id != "" && d.androidFingerprint != ""
  {
    var d := Reconcile(s, owner, info, trusted, reported, peer, picks).direct[k];
    NonBlankIs(reported, Report(d.id, d.androidFingerprint));
  }

  /** A kept record changes at most the connection and the daemon fingerprint, and only by being rebound. */
  lemma KeptIsOldOrRebound(s: State, owner: DaemonOwner, info: DaemonInfo, trusted: set<string>, reported: seq<Report>,
                           peer: DaemonPeer, picks: seq<AttemptKey>, k: AttemptKey)
    requires |picks| == |reported| && k in Reconcile(s, owner, info, trusted, reported, peer, picks).direct
    ensures k in s.direct
    ensures var d := Reconcile(s, owner, info, trusted, reported, peer, picks).direct[k];
      d == s.direct[k]
        || (d == Rebind(s.direct[k], info, peer) && Ours(d, owner, info.deviceId) && !Revoked(s, d.appOwner)
        && d.androidFingerprint in trusted)
  {
  }

  lemma OthersUntouched(s: State, owner: DaemonOwner, info: DaemonInfo, trusted: set<string>, reported: seq<Report>,
                        peer: DaemonPeer, picks: seq<AttemptKey>, k: AttemptKey)
    requires |picks| == |reported| && k in s.direct && !Ours(s.direct[k], owner, info.deviceId)
    ensures var n := Reconcile(s, owner, info, trusted, reported, peer, picks).direct; k in n && n[k] == s.direct[k]
  {
  }

  lemma ReportIsAnswered(s: State, owner: DaemonOwner, info: DaemonInfo, trusted: set<string>, reported: seq<Report>,
                         peer: DaemonPeer, picks: seq<AttemptKey>, i: nat)
    requires |picks| == |reported| && i < |reported| && Rebinds(s, owner, info, trusted, reported[i], picks[i])
    ensures Answers(s, Reconcile(s, owner, info, trusted, reported, peer, picks).direct, picks[i], owner, info, trusted,
      reported[i], peer)
  {
    var k := picks[i];
    var all := RebindReported(s, owner, info, trusted, reported, peer, picks, |reported|);
    assert all[k] == Rebind(s.direct[k], info, peer);
    NonBlankIs(reported, reported[i]);
  }

  /** With no revoked app among the records, a non-blank report is answered exactly when its
      fingerprint is trusted and some record of this owner and device matches it. */
  lemma AnsweredExactlyWhen(s: State, su: SessionUser, owner: DaemonOwner, info: DaemonInfo, trusted: set<string>,
                            reported: seq<Report>, picks: seq<AttemptKey>, i: nat)
    requires DiClean(s.direct, s.revoked, su) && GoodPicks(s, owner, info, reported, picks)
    requires i < |reported| && reported[i].attemptId != "" && reported[i].fingerprint != ""
    ensures Rebinds(s, owner, info, trusted, reported[i], picks[i]) <==>
      && reported[i].fingerprint in trusted
      && exists k ::
        k in s.direct && DiCandidate(s.direct[k], owner, info.deviceId, reported[i].attemptId, reported[i].fingerprint)
  {
    if picks[i] in s.direct { assert Clean(s.direct[picks[i]].appOwner, s.revoked, su); }
  }

  // ----- records that stay on an old connection -----

  /** After the reconciliation the record at `k` is kept, but not on the new connection. */
  ghost predicate Stale(s: State, owner: DaemonOwner, info: DaemonInfo, trusted: set<string>, reported: seq<Report>,
                        peer: DaemonPeer, picks: seq<AttemptKey>, k: AttemptKey)
    requires |picks| == |reported|
  {
    var n := Reconcile(s, owner, info, trusted, reported, peer, picks).direct;
    k in n && n[k].daemonPeer != peer
  }

  /** A record of this owner and device, bound to another connection than the new one. */
  ghost predicate OldRecord(s: State, owner: DaemonOwner, info: DaemonInfo, peer: DaemonPeer, k: AttemptKey) {
    k in s.direct && Ours(s.direct[k], owner, info.deviceId) && s.direct[k].daemonPeer != peer
  }

  function ReportOf(d: DirectSession): Report { Report(d.id, d.androidFingerprint) }

  /** The daemon reports the record, and neither part of the report is blank. */
  predicate Reported(d: DirectSession, reported: seq<Report>) {
    ReportOf(d) in reported && d.id != "" && d.androidFingerprint != ""
  }

  /** Some report finds the record at `k` and rebinds it. */
  ghost predicate Found(s: State, owner: DaemonOwner, info: DaemonInfo, trusted: set<string>, reported: seq<Report>,
                        picks: seq<AttemptKey>, k: AttemptKey)
    requires |picks| == |reported|
  {
    exists i :: 0 <= i < |reported| && picks[i] == k && Rebinds(s, owner, info, trusted, reported[i], k)
  }

  lemma RebindReportedAt(s: State, owner: DaemonOwner, info: DaemonInfo, trusted: set<string>, reported: seq<Report>,
                         peer: DaemonPeer, picks: seq<AttemptKey>, k: AttemptKey)
    requires |picks| == |reported| && k in s.direct
    ensures RebindReported(s, owner, info, trusted, reported, peer, picks, |reported|)[k] ==
      if Found(s, owner, info, trusted, reported, picks, k) then Rebind(s.direct[k], info, peer) else s.direct[k]
  {
  }

  /** For a given order of finding records: an old record stays stale exactly when it was reported and no report
      found it in order to rebind it. */
  lemma StaleExactlyWhen(s: State, owner: DaemonOwner, info: DaemonInfo, trusted: set<string>, reported: seq<Report>,
                         peer: DaemonPeer, picks: seq<AttemptKey>, k: AttemptKey)
    requires |picks| == |reported| && OldRecord(s, owner, info, peer, k)
    ensures Stale(s, owner, info, trusted, reported, peer, picks, k) <==>
      Reported(s.direct[k], reported) && !Found(s, owner, info, trusted, reported, picks, k)
  {
    NonBlankIs(reported, ReportOf(s.direct[k]));
    RebindReportedAt(s, owner, info, trusted, reported, peer, picks, k);
  }

  /** Another record of this owner and device with the same attempt id and fingerprint, of another app session. */
  ghost predicate Twins(s: State, owner: DaemonOwner, info: DaemonInfo, j: AttemptKey, k: AttemptKey) {
    && j in s.direct && k in s.direct && j != k
    && DiCandidate(s.direct[j], owner, info.deviceId, s.direct[k].id, s.direct[k].androidFingerprint)
  }

  /** With no twin, and no revoked app among the records, a reported record goes stale exactly when its fingerprint is
      no longer trusted. */
  lemma SoleRecordStaleExactlyWhen(s: State, su: SessionUser, owner: DaemonOwner, info: DaemonInfo,
                                   trusted: set<string>, reported: seq<Report>, peer: DaemonPeer,
                                   picks: seq<AttemptKey>, k: AttemptKey)
    requires DiClean(s.direct, s.revoked, su) && GoodPicks(s, owner, info, reported, picks)
    requires OldRecord(s, owner, info, peer, k) && forall j :: !Twins(s, owner, info, j, k)
    ensures Stale(s, owner, info, trusted, reported, peer, picks, k) <==>
      Reported(s.direct[k], reported) && s.direct[k].androidFingerprint !in trusted
  {
    StaleExactlyWhen(s, owner, info, trusted, reported, peer, picks, k);
    assert Clean(s.direct[k].appOwner, s.revoked, su);
    if Reported(s.direct[k], reported) {
      var i :| 0 <= i < |reported| && reported[i] == ReportOf(s.direct[k]);
      assert DiCandidate(s.direct[k], owner, info.deviceId, reported[i].attemptId, reported[i].fingerprint);
      assert picks[i] != k ==> Twins(s, owner, info, picks[i], k);
      assert Rebinds(s, owner, info, trusted, reported[i], k) <==> s.direct[k].androidFingerprint in trusted;
    }
  }

  /** No record but the one at `k` matches the report. */
  ghost predicate NoOther(s: State, owner: DaemonOwner, info: DaemonInfo, r: Report, k: AttemptKey) {
    forall j :: j in s.direct && DiCandidate(s.direct[j], owner, info.deviceId, r.attemptId, r.fingerprint) ==> j == k
  }

  /** Some order of finding records that passes `k` over wherever another record matches. */
  lemma {:induction false} PassedOver(s: State, owner: DaemonOwner, info: DaemonInfo, reported: seq<Report>,
                                      k: AttemptKey)
    returns (picks: seq<AttemptKey>)
    ensures GoodPicks(s, owner, info, reported, picks)
    ensures forall i :: 0 <= i < |reported| && picks[i] == k ==> NoOther(s, owner, info, reported[i], k)
  {
    picks := [];
    while |picks| < |reported|
      invariant |picks| <= |reported|
      invariant GoodPicks(s, owner, info, reported[..|picks|], picks)
      invariant forall i :: 0 <= i < |picks| && picks[i] == k ==> NoOther(s, owner, info, reported[i], k)
      decreases |reported| - |picks|
    {
      var r := reported[|picks|];
      var pick := k;
      if j :| j in s.direct && j != k && DiCandidate(s.direct[j], owner, info.deviceId, r.attemptId, r.fingerprint) {
        pick := j;
      }
      assert reported[..|picks| + 1] == reported[..|picks|] + [r];
      picks := picks + [pick];
    }
    assert reported[..|picks|] == reported;
  }

  /** The exact condition, over all orders in which records may be found: a reported record can be left on its old
      connection if and only if its fingerprint is not trusted or another app session has a twin of it. */
  lemma MayGoStaleExactlyWhen(s: State, su: SessionUser, owner: DaemonOwner, info: DaemonInfo, trusted: set<string>,
                              reported: seq<Report>, peer: DaemonPeer, k: AttemptKey)
    requires DiClean(s.direct, s.revoked, su) && OldRecord(s, owner, info, peer, k)
    ensures (exists picks ::
      GoodPicks(s, owner, info, reported, picks) && Stale(s, owner, info, trusted, reported, peer, picks, k)) <==>
      && Reported(s.direct[k], reported)
      && (s.direct[k].androidFingerprint !in trusted || exists j :: Twins(s, owner, info, j, k))
  {
    if picks :| GoodPicks(s, owner, info, reported, picks) && Stale(s, owner, info, trusted, reported, peer, picks, k) {
      StaleExactlyWhen(s, owner, info, trusted, reported, peer, picks, k);
      if forall j :: !Twins(s, owner, info, j, k) {
        SoleRecordStaleExactlyWhen(s, su, owner, info, trusted, reported, peer, picks, k);
      }
    }
    if Reported(s.direct[k], reported)
      && (s.direct[k].androidFingerprint !in trusted || exists j :: Twins(s, owner, info, j, k)) {
      var picks := PassedOver(s, owner, info, reported, k);
      StaleExactlyWhen(s, owner, info, trusted, reported, peer, picks, k);
    }
  }

  /** Registration with reports: every record kept for this owner and device was reported; every
      non-blank report is answered by a rebound record or by a close frame; all other records stay. */
  lemma RegisterReconciles(s: State, owner: DaemonOwner, info: DaemonInfo, listed: seq<string>, reported: seq<Report>,
                           peer: DaemonPeer, stillValid: bool, now: Time, picks: seq<AttemptKey>)
    requires |picks| == |reported| && (forall k :: k in s.daemons ==> s.daemons[k].peer != peer)
    requires RegisterDaemon(s, owner, info, listed, reported, peer, stillValid, now, picks).1.ok
    ensures var (t, out) := RegisterDaemon(s, owner, info, listed, reported, peer, stillValid, now, picks);
      && (forall k ::
        k in t.direct && Ours(t.direct[k], owner, info.deviceId) ==>
        Report(t.direct[k].id, t.direct[k].androidFingerprint) in reported)
      && (forall i :: 0 <= i < |reported| && reported[i].attemptId != "" && reported[i].fingerprint != "" ==>
            || Answers(s, t.direct, picks[i], owner, info, TrustedSet(listed), reported[i], peer)
            || DaemonNote(peer, owner.userId,
              DirectClose(reported[i].attemptId, info.deviceId, reported[i].fingerprint)) in out.toDaemons)
      && (forall k ::
        k in s.direct && !Ours(s.direct[k], owner, info.deviceId) ==> k in t.direct && t.direct[k] == s.direct[k])
      && t.direct.Keys <= s.direct.Keys
  {
    RegisterDaemonShape(s, owner, info, listed, reported, peer, stillValid, now, picks);
    var s2 := WithDaemon(s, owner, info, listed, peer, now);
    var trusted := TrustedSet(listed);
    var (t, out) := RegisterDaemon(s, owner, info, listed, reported, peer, stillValid, now, picks);
    RegisterNotes(s, owner, info, listed, reported, peer, stillValid, now, picks);
    forall k | k in t.direct && Ours(t.direct[k], owner, info.deviceId)
      ensures Report(t.direct[k].id, t.direct[k].androidFingerprint) in reported
    {
      KeptWasReported(s2, owner, info, trusted, reported, peer, picks, k);
    }
    forall k | k in s.direct && !Ours(s.direct[k], owner, info.deviceId)
      ensures k in t.direct && t.direct[k] == s.direct[k]
    {
      OthersUntouched(s2, owner, info, trusted, reported, peer, picks, k);
    }
    forall i | 0 <= i < |reported| && reported[i].attemptId != "" && reported[i].fingerprint != ""
      ensures || Answers(s, t.direct, picks[i], owner, info, trusted, reported[i], peer)
              || DaemonNote(peer, owner.userId,
                DirectClose(reported[i].attemptId, info.deviceId, reported[i].fingerprint)) in out.toDaemons
    {
      if Rebinds(s2, owner, info, trusted, reported[i], picks[i]) {
        ReportIsAnswered(s2, owner, info, trusted, reported, peer, picks, i);
      }
    }
  }

  lemma RegisterNotes(s: State, owner: DaemonOwner, info: DaemonInfo, listed: seq<string>, reported: seq<Report>,
                      peer: DaemonPeer, stillValid: bool, now: Time, picks: seq<AttemptKey>)
    requires |picks| == |reported| && (forall k :: k in s.daemons ==> s.daemons[k].peer != peer)
    requires RegisterDaemon(s, owner, info, listed, reported, peer, stillValid, now, picks).1.ok
    ensures ReportNotes(WithDaemon(s, owner, info, listed, peer, now), owner, info, TrustedSet(listed), reported, peer,
      picks, |reported|)
      <= RegisterDaemon(s, owner, info, listed, reported, peer, stillValid, now, picks).1.toDaemons
  {
  }
}
