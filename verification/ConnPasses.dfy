/** Passes over the registry's collections, as the program runs them, and the
    lemmas that relate one step of a pass to the function it computes. */
module ConnPasses {
  import opened Common
  import opened Passes
  import opened ConnModel

  lemma SeenStep(closers: map<nat, Closer>, todo: set<nat>, k: nat)
    requires k in todo && k in closers
    ensures k !in closers - todo && closers - (todo - {k}) == (closers - todo)[k := closers[k]]
  {
  }

  method CollectClosers(closers: map<nat, Closer>) returns (run: multiset<Closer>)
    ensures run == Gather(closers, One)
  {
    run := multiset{};
    ghost var seen: map<nat, Closer> := map[];
    var todo := closers.Keys;
    while todo != {}
      invariant todo <= closers.Keys
      invariant seen == closers - todo
      invariant run == Gather(seen, One)
    {
      var k :| k in todo;
      SeenStep(closers, todo, k);
      todo := todo - {k};
      GatherPut(seen, One, k, closers[k]);
      seen := seen[k := closers[k]];
      run := multiset{closers[k]} + run;
    }
    assert seen == closers;
  }

  /** The in-place pass `kept := requests[:0]`: later entries are moved to the front of the same array. */
  method Compact(requests: array<Time>, len: nat, cutoff: Time) returns (kept: nat)
    requires len <= requests.Length
    modifies requests
    ensures kept <= len && requests[..kept] == Recent(old(requests[..len]), cutoff)
    ensures requests[len..] == old(requests[len..])
  {
    kept := 0;
    for i := 0 to len
      invariant kept <= i
      invariant requests[..kept] == Recent(old(requests[..i]), cutoff)
      invariant forall j :: i <= j < requests.Length ==> requests[j] == old(requests[j])
    {
      RecentSnoc(old(requests[..i]), old(requests[i]), cutoff);
      assert old(requests[..i + 1]) == old(requests[..i]) + [old(requests[i])];
      if requests[i] > cutoff {
        requests[kept] := requests[i];
        kept := kept + 1;
      }
    }
  }

  lemma {:induction false} RecentSnoc(times: seq<Time>, t: Time, cutoff: Time)
    ensures Recent(times + [t], cutoff) == Recent(times, cutoff) + if t > cutoff then [t] else []
  {
    if times != [] {
      RecentSnoc(times[1..], t, cutoff);
      assert (times + [t])[1..] == times[1..] + [t];
    }
  }

  /** The request times of the last minute, pruned in place and written back. */
  method RecentRequests(lists: map<int, seq<Time>>, user: int, now: Time)
    returns (pruned: map<int, seq<Time>>, kept: seq<Time>)
    ensures pruned == PruneRequests(lists, user, now)
      && kept == Listed(pruned, user) == Recent(Listed(lists, user), now - REQUEST_WINDOW)
  {
    if user !in lists || |lists[user]| == 0 { return lists, []; }
    var requests := new Time[|lists[user]|](i requires 0 <= i < |lists[user]| => lists[user][i]);
    assert requests[..requests.Length] == lists[user];
    var n := Compact(requests, requests.Length, now - REQUEST_WINDOW);
    kept := requests[..n];
    pruned := if kept == [] then lists - {user} else lists[user := kept];
  }

  method RecordedRequest(lists: map<int, seq<Time>>, user: int, now: Time) returns (logged: map<int, seq<Time>>)
    ensures logged == RecordRequest(lists, user, now)
  {
    var pruned, kept := RecentRequests(lists, user, now);
    logged := pruned[user := kept + [now]];
  }

  // ----- steps of the reconciliation pass -----

  const NO_KEY: AttemptKey := AttemptKey(0, "", "", "", "")

  function DiNamed(owner: DaemonOwner, deviceId: string, r: Report): DirectSession -> bool {
    (d: DirectSession) => DiCandidate(d, owner, deviceId, r.attemptId, r.fingerprint)
  }

  lemma RebindNone(s: State, owner: DaemonOwner, info: DaemonInfo, trusted: set<string>, peer: DaemonPeer)
    ensures RebindReported(s, owner, info, trusted, [], peer, [], 0) == s.direct
    ensures ReportNotes(s, owner, info, trusted, [], peer, [], 0) == {}
  {
  }

  lemma {:induction false} NonBlankSnoc(reported: seq<Report>, r: Report)
    ensures NonBlank(reported + [r]) == if r.attemptId == "" || r.fingerprint == "" then NonBlank(reported)
      else NonBlank(reported) + [r]
  {
    if reported != [] {
      NonBlankSnoc(reported[1..], r);
      assert (reported + [r])[1..] == reported[1..] + [r];
    }
  }

  /** A record found in the partly rebound map is a candidate in the map before, and the other way round. */
  lemma FoundIsGood(s: State, owner: DaemonOwner, info: DaemonInfo, trusted: set<string>, reported: seq<Report>,
                    peer: DaemonPeer, picks: seq<AttemptKey>, r: Report, found: Option<AttemptKey>)
    requires |picks| == |reported|
    requires var m := RebindReported(s, owner, info, trusted, reported, peer, picks, |reported|);
      && (found.Some? ==> found.value in m && DiNamed(owner, info.deviceId, r)(m[found.value]))
      && (found.None? ==> forall k :: k in m ==> !DiNamed(owner, info.deviceId, r)(m[k]))
    ensures var m := RebindReported(s, owner, info, trusted, reported, peer, picks, |reported|);
      && (found.Some? ==>
        found.value in s.direct && DiCandidate(s.direct[found.value], owner, info.deviceId, r.attemptId, r.fingerprint)
                          && m[found.value].appOwner == s.direct[found.value].appOwner
                          && Rebind(m[found.value], info, peer) == Rebind(s.direct[found.value], info, peer))
      && (found.None? ==> forall k ::
        k in s.direct ==> !DiCandidate(s.direct[k], owner, info.deviceId, r.attemptId, r.fingerprint))
  {
    var m := RebindReported(s, owner, info, trusted, reported, peer, picks, |reported|);
    forall k | k in s.direct && found.None?
      ensures !DiCandidate(s.direct[k], owner, info.deviceId, r.attemptId, r.fingerprint)
    {
      assert !DiNamed(owner, info.deviceId, r)(m[k]);
    }
  }

  function PickOf(found: Option<AttemptKey>): AttemptKey {
    if found.Some? then found.value else NO_KEY
  }

  /** Whether the record found for a report is rebound. */
  ghost predicate Rebinding(m: map<AttemptKey, DirectSession>, q: Revocations, trusted: set<string>, r: Report,
                            found: Option<AttemptKey>) {
    && r.attemptId != "" && r.fingerprint != ""
    && found.Some? && found.value in m && !AppRevoked(q, m[found.value].appOwner) && r.fingerprint in trusted
  }

  ghost function AfterReport(m: map<AttemptKey, DirectSession>, q: Revocations, trusted: set<string>, r: Report,
                             found: Option<AttemptKey>, info: DaemonInfo, peer: DaemonPeer)
    : map<AttemptKey, DirectSession> {
    if Rebinding(m, q, trusted, r, found) then m[found.value := Rebind(m[found.value], info, peer)] else m
  }

  ghost function NotesForReport(m: map<AttemptKey, DirectSession>, q: Revocations, trusted: set<string>, r: Report,
                                found: Option<AttemptKey>, owner: DaemonOwner, info: DaemonInfo,
                                peer: DaemonPeer): set<DaemonNote> {
    if r.attemptId == "" || r.fingerprint == "" || Rebinding(m, q, trusted, r, found) then {}
    else {DaemonNote(peer, owner.userId, DirectClose(r.attemptId, info.deviceId, r.fingerprint))}
  }

  /** What a pass over the records finds for a report: a candidate, or that there is none. */
  ghost predicate FindsFor(m: map<AttemptKey, DirectSession>, owner: DaemonOwner, deviceId: string, r: Report,
                           found: Option<AttemptKey>) {
    && (found.Some? ==> found.value in m && DiNamed(owner, deviceId, r)(m[found.value]))
    && (found.None? ==> forall k :: k in m ==> !DiNamed(owner, deviceId, r)(m[k]))
  }

  /** Handling one more report, with what the pass over the records found for it. */
  /** What the loop over reports has done so far: the picks are good, and the map and the frames are those of `done`. */
  ghost predicate Answered(s: State, owner: DaemonOwner, info: DaemonInfo, trusted: set<string>, done: seq<Report>,
                           peer: DaemonPeer, picks: seq<AttemptKey>, m: map<AttemptKey, DirectSession>,
                           notes: set<DaemonNote>) {
    && GoodPicks(s, owner, info, done, picks)
    && m == RebindReported(s, owner, info, trusted, done, peer, picks, |done|)
    && notes == ReportNotes(s, owner, info, trusted, done, peer, picks, |done|)
  }

  lemma ReportStep(s: State, owner: DaemonOwner, info: DaemonInfo, trusted: set<string>, done: seq<Report>,
                   peer: DaemonPeer, picks: seq<AttemptKey>, r: Report, found: Option<AttemptKey>,
                   m: map<AttemptKey, DirectSession>, notes: set<DaemonNote>)
    requires Answered(s, owner, info, trusted, done, peer, picks, m, notes)
    requires FindsFor(m, owner, info.deviceId, r, found)
    ensures Answered(s, owner, info, trusted, done + [r], peer, picks + [PickOf(found)],
      AfterReport(m, s.revoked, trusted, r, found, info, peer),
      notes + NotesForReport(m, s.revoked, trusted, r, found, owner, info, peer))
  {
    FoundIsGood(s, owner, info, trusted, done, peer, picks, r, found);
    RebindStep(s, owner, info, trusted, done, peer, picks, r, PickOf(found));
    NotesStep(s, owner, info, trusted, done, peer, picks, r, PickOf(found));
    GoodPicksStep(s, owner, info, done, picks, r, PickOf(found));
  }

  /** What one more report does to the record at `k`. */
  lemma RebindStepAt(s: State, owner: DaemonOwner, info: DaemonInfo, trusted: set<string>, reported: seq<Report>,
                     peer: DaemonPeer, picks: seq<AttemptKey>, r: Report, pick: AttemptKey, k: AttemptKey)
    requires |picks| == |reported| && k in s.direct
    ensures RebindReported(s, owner, info, trusted, reported + [r], peer, picks + [pick], |reported| + 1)[k] ==
      if k == pick && Rebinds(s, owner, info, trusted, r, pick) then Rebind(s.direct[k], info, peer)
      else RebindReported(s, owner, info, trusted, reported, peer, picks, |reported|)[k]
  {
    var more, keys, n := reported + [r], picks + [pick], |reported|;
    assert keys[n] == pick && more[n] == r;
    if i :| 0 <= i < n && picks[i] == k && Rebinds(s, owner, info, trusted, reported[i], picks[i]) {
      assert keys[i] == k && more[i] == reported[i];
    }
  }

  lemma RebindStep(s: State, owner: DaemonOwner, info: DaemonInfo, trusted: set<string>, reported: seq<Report>,
                   peer: DaemonPeer, picks: seq<AttemptKey>, r: Report, pick: AttemptKey)
    requires |picks| == |reported|
    ensures var m := RebindReported(s, owner, info, trusted, reported, peer, picks, |reported|);
      RebindReported(s, owner, info, trusted, reported + [r], peer, picks + [pick], |reported| + 1) ==
      if Rebinds(s, owner, info, trusted, r, pick) then m[pick := Rebind(s.direct[pick], info, peer)] else m
  {
    forall k | k in s.direct {
      RebindStepAt(s, owner, info, trusted, reported, peer, picks, r, pick, k);
    }
  }

  lemma NotesStep(s: State, owner: DaemonOwner, info: DaemonInfo, trusted: set<string>, reported: seq<Report>,
                  peer: DaemonPeer, picks: seq<AttemptKey>, r: Report, pick: AttemptKey)
    requires |picks| == |reported|
    ensures ReportNotes(s, owner, info, trusted, reported + [r], peer, picks + [pick], |reported| + 1) ==
      ReportNotes(s, owner, info, trusted, reported, peer, picks, |reported|) +
      if r.attemptId != "" && r.fingerprint != "" && !Rebinds(s, owner, info, trusted, r, pick)
      then {DaemonNote(peer, owner.userId, DirectClose(r.attemptId, info.deviceId, r.fingerprint))} else {}
  {
    var more, keys, n := reported + [r], picks + [pick], |reported|;
    var later := ReportNotes(s, owner, info, trusted, more, peer, keys, n + 1);
    var prior := ReportNotes(s, owner, info, trusted, reported, peer, picks, n);
    assert keys[n] == pick && more[n] == r;
    forall x | x in prior ensures x in later {
      var i :| 0 <= i < n && reported[i].attemptId != "" && reported[i].fingerprint != ""
        && !Rebinds(s, owner, info, trusted, reported[i], picks[i])
               && x == DaemonNote(peer, owner.userId,
                 DirectClose(reported[i].attemptId, info.deviceId, reported[i].fingerprint));
      assert keys[i] == picks[i] && more[i] == reported[i];
    }
  }

  lemma GoodPicksStep(s: State, owner: DaemonOwner, info: DaemonInfo, reported: seq<Report>, picks: seq<AttemptKey>,
                      r: Report, pick: AttemptKey)
    requires GoodPicks(s, owner, info, reported, picks)
    requires (pick in s.direct && DiCandidate(s.direct[pick], owner, info.deviceId, r.attemptId, r.fingerprint))
          || forall k :: k in s.direct ==> !DiCandidate(s.direct[k], owner, info.deviceId, r.attemptId, r.fingerprint)
    ensures GoodPicks(s, owner, info, reported + [r], picks + [pick])
  {
  }

  lemma MinusTwice<K, V>(m: map<K, V>, a: set<K>, b: set<K>)
    ensures (m - a) - b == m - (a + b)
  {
  }

  lemma TokensOfPut(m: map<AttemptKey, TunnelAttempt>, k: AttemptKey, a: TunnelAttempt)
    requires k !in m
    ensures TokensOf(m[k := a]) == TokensOf(m) + {a.appToken, a.daemonToken}
  {
    var n := m[k := a];
    forall t ensures t in TokensOf(n) <==> t in TokensOf(m) + {a.appToken, a.daemonToken} {
      assert n[k].appToken in TokensOf(n) && n[k].daemonToken in TokensOf(n);
      if j :| j in m && m[j].appToken == t { assert n[j].appToken == t; }
      if j :| j in m && m[j].daemonToken == t { assert n[j].daemonToken == t; }
    }
  }

  // ----- two removals in a row -----

  function DiOfPeers(peers: set<DaemonPeer>): DirectSession -> bool {
    (d: DirectSession) => d.daemonPeer in peers
  }

  function RvByUser(user: int): Rendezvous -> bool {
    (a: Rendezvous) => a.appOwner.userId == user || a.daemonOwner.userId == user
  }
  function DiByUser(user: int): DirectSession -> bool {
    (d: DirectSession) => d.appOwner.userId == user || d.daemonOwner.userId == user
  }
  function RvByAgent(token: string): Rendezvous -> bool {
    (a: Rendezvous) => a.daemonOwner.agentTokenId == token
  }
  function DiByAgent(token: string): DirectSession -> bool {
    (d: DirectSession) => d.daemonOwner.agentTokenId == token
  }

  lemma KeepTwice<K, V>(m: map<K, V>, p: V -> bool, q: V -> bool, both: V -> bool)
    requires forall v :: both(v) <==> p(v) || q(v)
    ensures Keep(Keep(m, p), q) == Keep(m, both)
  {
  }

  lemma NotedIfTaken(gone: map<AttemptKey, Rendezvous>)
    ensures RvNotes(gone) != {} <==> gone.Keys != {}
  {
    if k :| k in gone { assert RvNote(gone[k]) in RvNotes(gone); }
  }

  lemma RvNotesTwice(m: map<AttemptKey, Rendezvous>, p: Rendezvous -> bool, q: Rendezvous -> bool,
                     both: Rendezvous -> bool)
    requires forall v :: both(v) <==> p(v) || q(v)
    ensures Keep(Keep(m, p), q) == Keep(m, both)
    ensures RvNotes(Taken(m, both)) == RvNotes(Taken(m, p)) + RvNotes(Taken(Keep(m, p), q))
  {
    KeepTwice(m, p, q, both);
    var left := Keep(m, p);
    forall k | k in m && both(m[k]) ensures RvNote(m[k]) in RvNotes(Taken(m, p)) + RvNotes(Taken(left, q)) {
      if p(m[k]) { assert k in Taken(m, p); } else { assert k in Taken(left, q); }
    }
    forall k | k in Taken(left, q) ensures RvNote(left[k]) in RvNotes(Taken(m, both)) { assert k in Taken(m, both); }
    forall k | k in Taken(m, p) ensures RvNote(m[k]) in RvNotes(Taken(m, both)) { assert k in Taken(m, both); }
  }

  lemma DiNotesTwice(m: map<AttemptKey, DirectSession>, p: DirectSession -> bool, q: DirectSession -> bool,
                     both: DirectSession -> bool)
    requires forall v :: both(v) <==> p(v) || q(v)
    ensures Keep(Keep(m, p), q) == Keep(m, both)
    ensures DiNotes(Taken(m, both)) == DiNotes(Taken(m, p)) + DiNotes(Taken(Keep(m, p), q))
  {
    KeepTwice(m, p, q, both);
    var left := Keep(m, p);
    forall k | k in m && both(m[k]) ensures DiNote(m[k]) in DiNotes(Taken(m, p)) + DiNotes(Taken(left, q)) {
      if p(m[k]) { assert k in Taken(m, p); } else { assert k in Taken(left, q); }
    }
    forall k | k in Taken(left, q) ensures DiNote(left[k]) in DiNotes(Taken(m, both)) { assert k in Taken(m, both); }
    forall k | k in Taken(m, p) ensures DiNote(m[k]) in DiNotes(Taken(m, both)) { assert k in Taken(m, both); }
  }

  lemma PutDaemon(gone: map<DaemonKey, LiveDaemon>, k: DaemonKey, d: LiveDaemon)
    requires k !in gone
    ensures Peers(gone[k := d]) == Peers(gone) + {d.peer}
  {
    var more := gone[k := d];
    assert more[k].peer in Peers(more);
    forall p | p in Peers(gone) ensures p in Peers(more) {
      var j :| j in gone && gone[j].peer == p;
      assert more[j].peer == p;
    }
  }

  /** The parts of the registry a pass over live daemons changes besides the daemons, and the notes it queues. */
  datatype Bindings = Bindings(co: map<CorrelationKey, Correlation>, rv: map<AttemptKey, Rendezvous>,
                               di: map<AttemptKey, DirectSession>, closed: set<DaemonNote>, ended: set<DaemonNote>)

  /** `b` is `a` after the daemons `gone` were taken out. */
  ghost predicate Detached(a: Bindings, gone: map<DaemonKey, LiveDaemon>, b: Bindings) {
    && b.co == Keep(a.co, CoOfDaemons(gone))
    && b.rv == Keep(a.rv, RvOfPeers(Peers(gone))) && b.closed == RvNotes(Taken(a.rv, RvOfPeers(Peers(gone))))
    && b.di == Keep(a.di, DiOfPeers(Peers(gone))) && b.ended == DiNotes(Taken(a.di, DiOfPeers(Peers(gone))))
  }

  /** `c` is `b` after the daemon at `k` was taken out. */
  ghost predicate DetachedOne(b: Bindings, k: DaemonKey, peer: DaemonPeer, c: Bindings) {
    && c.co == Keep(b.co, CoOfDaemon(k, peer))
    && c.rv == Keep(b.rv, RvOfPeers({peer})) && c.closed == b.closed + RvNotes(Taken(b.rv, RvOfPeers({peer})))
    && c.di == Keep(b.di, DiOfPeers({peer})) && c.ended == b.ended + DiNotes(Taken(b.di, DiOfPeers({peer})))
  }

  lemma NothingDetached(a: Bindings, gone: map<DaemonKey, LiveDaemon>)
    requires a.closed == {} && a.ended == {} && gone.Keys == {}
    ensures Detached(a, gone, a)
  {
    assert Peers(gone) == {};
  }

  /** Taking one more daemon out in a pass over live daemons. */
  lemma DetachStep(was: map<DaemonKey, LiveDaemon>, todo: set<DaemonKey>, drop: LiveDaemon -> bool, k: DaemonKey,
                   a: Bindings, b: Bindings, c: Bindings)
    requires k in todo && k in was && drop(was[k])
    requires Detached(a, PassGone(was, todo, drop), b) && DetachedOne(b, k, was[k].peer, c)
    ensures Detached(a, PassGone(was, todo - {k}, drop), c)
  {
    var g, h, peer := PassGone(was, todo, drop), PassGone(was, todo - {k}, drop), was[k].peer;
    PassStep(was, todo, drop, k);
    PutDaemon(g, k, was[k]);
    KeepTwice(a.co, CoOfDaemons(g), CoOfDaemon(k, peer), CoOfDaemons(h));
    RvNotesTwice(a.rv, RvOfPeers(Peers(g)), RvOfPeers({peer}), RvOfPeers(Peers(h)));
    DiNotesTwice(a.di, DiOfPeers(Peers(g)), DiOfPeers({peer}), DiOfPeers(Peers(h)));
  }

  /** After a pass over live daemons, removing the remaining attempts an order names removes both kinds together. */
  lemma DetachThen(a: Bindings, gone: map<DaemonKey, LiveDaemon>, b: Bindings,
                   rv: Rendezvous -> bool, allRv: Rendezvous -> bool, di: DirectSession -> bool,
                     allDi: DirectSession -> bool)
    requires Detached(a, gone, b)
    requires forall v :: allRv(v) <==> RvOfPeers(Peers(gone))(v) || rv(v)
    requires forall v :: allDi(v) <==> DiOfPeers(Peers(gone))(v) || di(v)
    ensures Keep(b.rv, rv) == Keep(a.rv, allRv) && Keep(b.di, di) == Keep(a.di, allDi)
    ensures b.closed + b.ended + (RvNotes(Taken(b.rv, rv)) + DiNotes(Taken(b.di, di))) ==
      RvNotes(Taken(a.rv, allRv)) + DiNotes(Taken(a.di, allDi))
  {
    RvNotesTwice(a.rv, RvOfPeers(Peers(gone)), rv, allRv);
    DiNotesTwice(a.di, DiOfPeers(Peers(gone)), di, allDi);
    var x, y := RvNotes(Taken(b.rv, rv)), DiNotes(Taken(b.di, di));
    assert b.closed + b.ended + (x + y) == (b.closed + x) + (b.ended + y);
  }

  // ----- tunnel attempts -----

  /** The pass that counts an app's attempts other than the one at `key`. */
  method CountAttempts(attempts: map<AttemptKey, TunnelAttempt>, owner: AppOwner, key: AttemptKey) returns (count: nat)
    ensures count == |InFlight(attempts, owner) - {key}|
  {
    count := 0;
    ghost var counted: set<AttemptKey> := {};
    var todo := attempts.Keys;
    while todo != {}
      invariant todo <= attempts.Keys && count == |counted|
      invariant counted == set k | k in InFlight(attempts, owner) && k != key && k !in todo
    {
      var k :| k in todo;
      todo := todo - {k};
      if k != key && SameApp(attempts[k].appOwner, owner) {
        count := count + 1;
        counted := counted + {k};
      }
    }
    assert counted == InFlight(attempts, owner) - {key};
  }

  lemma NothingHeld(m: map<AttemptKey, TunnelAttempt>)
    requires m.Keys == {}
    ensures Held(m) == multiset{} && TokensOf(m) == {}
  {
  }

  /** Nothing to drop leaves everything in place. */
  lemma DropNone(x: Tunnels, drop: TunnelAttempt -> bool)
    requires forall k :: k in x.attempts ==> !drop(x.attempts[k])
    ensures DropFrom(x, drop) == x && Taken(x.attempts, drop).Keys == {} && Freed(x, drop) == multiset{}
  {
    NothingHeld(Taken(x.attempts, drop));
    assert Keep(x.attempts, drop) == x.attempts;
    assert x.tokens - {} == x.tokens;
  }

  /** Dropping a single attempt, by its key. */
  lemma DropOne(x: Tunnels, drop: TunnelAttempt -> bool, key: AttemptKey)
    requires key in x.attempts && forall k :: k in x.attempts ==> (drop(x.attempts[k]) <==> k == key)
    ensures DropFrom(x, drop) ==
      x.(attempts := x.attempts - {key}, tokens := x.tokens - {x.attempts[key].appToken, x.attempts[key].daemonToken})
    ensures Taken(x.attempts, drop).Keys == {key} && Freed(x, drop) == ClosersOf(x.attempts[key])
  {
    var a, gone := x.attempts[key], Taken(x.attempts, drop);
    assert gone.Keys == {key} && gone[key] == a;
    NothingHeld(gone - {key});
    GatherPick(gone, ClosersOf, key);
    TokensOfPut(gone - {key}, key, a);
    assert (gone - {key})[key := a] == gone;
    assert Keep(x.attempts, drop) == x.attempts - {key};
  }
}
