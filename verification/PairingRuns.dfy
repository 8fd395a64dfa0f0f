/** Runs over the stored pairing state, in which any save may fail. */
module PairingRuns {
  import opened Common
  import opened Texts
  import opened PairingModel

  datatype Op =
    | Invite(id: string, correlationId: string, details: string)
    | Use(id: string)
    | Respond(response: Response, sas: string)
    | Hold(response: Response)
    | Accept(id: string, sas: string)
    | Trust(fp: Option<string>, device: Device)
    | Distrust(fp: Option<string>)

  /** One call: what it does, the clock it reads, and whether its save succeeds. */
  datatype Call = Call(op: Op, verify: Verifier, now: Nanos, saved: bool)

  function Step(s: State, c: Call): (State, Option<Error>) {
    match c.op
    case Invite(id, corr, details) => (Create(s, id, corr, details, c.now), None)
    case Use(id) => Consume(s, id, c.now)
    case Respond(r, sas) => Complete(s, c.verify, r, sas, c.now)
    case Hold(r) => Store(s, c.verify, r, c.now)
    case Accept(id, sas) => Confirm(s, c.verify, id, sas, c.now)
    case Trust(fp, d) => Upsert(s, fp, d, c.now)
    case Distrust(fp) => Revoke(s, fp, c.now)
  }

  /** The response whose code a call may compare. */
  function Compared(s: State, c: Call): Option<Response> {
    match c.op
    case Respond(r, _) => if Compares(s, c.verify, r, c.now) then Some(r) else None
    case Accept(id, _) =>
      (match Confirmed(s, id) case None => None
        case Some(r) => if Compares(s, c.verify, r, c.now) then Some(r) else None)
    case _ => None
  }

  /** The stored state, and how often each invitation's code was compared by calls whose save succeeded or failed. */
  datatype World = World(disk: State, created: set<string>, kept: multiset<string>, lost: multiset<string>)
  const START: World := World(EMPTY, {}, multiset{}, multiset{})

  function Count(m: multiset<string>, r: Option<Response>): multiset<string> {
    if r.Some? then m + multiset{r.value.invitationId} else m
  }

  function Next(w: World, c: Call): World {
    var r := Compared(w.disk, c);
    World(if c.saved then Step(w.disk, c).0 else w.disk,
          if c.op.Invite? then w.created + {c.op.id} else w.created,
          if c.saved then Count(w.kept, r) else w.kept,
          if c.saved then w.lost else Count(w.lost, r))
  }

  /** An invitation's random identifier was never used before. */
  predicate Admissible(w: World, c: Call) {
    c.op.Invite? ==> c.op.id !in w.created
  }

  // ----- invitations -----

  ghost predicate UniqueIds(m: seq<Invitation>) {
    forall i, j :: 0 <= i < j < |m| ==> m[i].id != m[j].id
  }

  ghost predicate Known(m: seq<Invitation>, created: set<string>) {
    forall i :: 0 <= i < |m| ==> m[i].id in created
  }

  /** Every record of the invitation is used up. */
  ghost predicate Spent(m: seq<Invitation>, id: string) {
    forall i :: 0 <= i < |m| && m[i].id == id ==> m[i].consumedAt.Some?
  }

  ghost predicate Once(m: seq<Invitation>, created: set<string>, kept: multiset<string>) {
    forall id :: id in kept ==> kept[id] == 1 && id in created && Spent(m, id)
  }

  ghost predicate InvitationInv(m: seq<Invitation>, created: set<string>, kept: multiset<string>) {
    UniqueIds(m) && Known(m, created) && Once(m, created, kept)
  }

  /** `n` holds some records of `m`, in order. */
  ghost predicate Within(n: seq<Invitation>, m: seq<Invitation>) {
    && (forall i :: 0 <= i < |n| ==> n[i] in m)
    && (UniqueIds(m) ==> UniqueIds(n))
  }

  lemma {:induction false} SweptWithin(m: seq<Invitation>, now: Nanos)
    ensures Within(Swept(m, now), m)
  {
    if m != [] {
      var rest := m[1..];
      SweptWithin(rest, now);
      var n := Swept(m, now);
      if UniqueIds(m) {
        assert forall i, j :: 0 <= i < j < |rest| ==> rest[i] == m[i + 1] && rest[j] == m[j + 1];
        assert UniqueIds(rest);
        forall x | x in rest ensures x.id != m[0].id { var k :| 0 <= k < |rest| && rest[k] == x; assert m[k + 1] == x; }
      }
      forall i | 0 <= i < |n| ensures n[i] in m { assert forall x :: x in rest ==> x in m; }
    }
  }

  lemma CreateInv(s: State, id: string, corr: string, details: string, now: Nanos, created: set<string>,
                  kept: multiset<string>)
    requires InvitationInv(s.invitations, created, kept) && id !in created
    ensures InvitationInv(Create(s, id, corr, details, now).invitations, created + {id}, kept)
  {
    SweptWithin(s.invitations, now);
    var m, n, t := s.invitations, Swept(s.invitations, now), Create(s, id, corr, details, now).invitations;
    assert t == n + [t[|n|]];
    forall k | k in kept ensures Spent(t, k) {
      forall i | 0 <= i < |t| && t[i].id == k ensures t[i].consumedAt.Some? {
        assert i < |n|;
        assert n[i] in m;
      }
    }
  }

  lemma UsableIs(s: State, id: string, now: Nanos)
    ensures var i := Usable(s, id, now).0;
      i.Some? ==>
        i.value < |s.invitations| && s.invitations[i.value].id == id && s.invitations[i.value].consumedAt.None?
        && !IsExpired(s.invitations[i.value].expiresAt, now)
  {
  }

  /** Using an invitation up keeps the books, and nothing was ever compared for it before. */
  lemma ConsumeInv(s: State, id: string, now: Nanos, created: set<string>, kept: multiset<string>)
    requires InvitationInv(s.invitations, created, kept) && Usable(s, id, now).0.Some?
    ensures var t := ConsumeAt(s, Usable(s, id, now).0.value, now);
      InvitationInv(t.invitations, created, kept) && InvitationInv(t.invitations, created, kept + multiset{id})
        && id !in kept
  {
    UsableIs(s, id, now);
    var i := Usable(s, id, now).0.value;
    var m, t := s.invitations, ConsumeAt(s, i, now).invitations;
    assert !Spent(m, id);
    assert Spent(t, id);
    forall k | k in kept ensures Spent(t, k) { assert Spent(m, k); }
    assert m[i].id in created;
  }

  lemma CompleteInv(s: State, verify: Verifier, r: Response, sas: string, now: Nanos, created: set<string>,
                    kept: multiset<string>)
    requires InvitationInv(s.invitations, created, kept)
    ensures var t := Complete(s, verify, r, sas, now).0;
      InvitationInv(t.invitations, created, if Compares(s, verify, r, now) then kept + multiset{r.invitationId}
        else kept)
  {
    UsableIs(s, r.invitationId, now);
    if Compares(s, verify, r, now) { ConsumeInv(s, r.invitationId, now, created, kept); }
  }

  // ----- the roster -----

  ghost predicate UniqueDevices(roster: seq<Device>) {
    forall i, j :: 0 <= i < j < |roster| ==> roster[i].fingerprint != roster[j].fingerprint
  }

  lemma UpsertUnique(roster: seq<Device>, d: Device)
    requires UniqueDevices(roster)
    ensures UniqueDevices(UpsertDevice(roster, d))
  {
  }

  /** Upserting changes nothing about other fingerprints. */
  lemma UpsertOthers(s: State, d: Device, fp: string)
    requires fp != d.fingerprint
    ensures Lists(s.(roster := UpsertDevice(s.roster, d)), fp) <==> Lists(s, fp)
  {
    var t := s.(roster := UpsertDevice(s.roster, d));
    if i :| 0 <= i < |s.roster| && ListedAt(s.roster, i, fp) { assert ListedAt(t.roster, i, fp); }
    if i :| 0 <= i < |t.roster| && ListedAt(t.roster, i, fp) { assert ListedAt(s.roster, i, fp); }
  }

  ghost predicate Inv(w: World) {
    InvitationInv(w.disk.invitations, w.created, w.kept) && UniqueDevices(w.disk.roster)
  }

  lemma MoreCreated(m: seq<Invitation>, created: set<string>, kept: multiset<string>, id: string)
    requires InvitationInv(m, created, kept)
    ensures InvitationInv(m, created + {id}, kept)
  {
  }

  lemma StepRoster(s: State, c: Call)
    requires UniqueDevices(s.roster)
    ensures UniqueDevices(Step(s, c).0.roster)
  {
    match c.op
    case Respond(r, sas) => CompleteRoster(s, c.verify, r, sas, c.now);
    case Accept(id, sas) =>
      if Confirmed(s, id).Some? { CompleteRoster(s, c.verify, Confirmed(s, id).value, sas, c.now); }
    case Trust(fp, d) =>
      if fp.Some? {
        UpsertUnique(s.roster,
          d.(fingerprint := fp.value, status := Trusted, revokedAt := None, pairedAt := if d.pairedAt == 0 then
          Unix(c.now) else d.pairedAt));
      }
    case _ =>
  }

  lemma CompleteRoster(s: State, verify: Verifier, r: Response, sas: string, now: Nanos)
    requires UniqueDevices(s.roster)
    ensures UniqueDevices(Complete(s, verify, r, sas, now).0.roster)
  {
    if Compares(s, verify, r, now) {
      UsableIs(s, r.invitationId, now);
      UpsertUnique(s.roster,
        TrustedDevice(verify(s.invitations[Usable(s, r.invitationId, now).0.value], r, Unix(now)).value, r, now));
    }
  }

  lemma StepInvitations(w: World, c: Call)
    requires Inv(w) && Admissible(w, c)
    ensures var v := Next(w, c.(saved := true)); InvitationInv(v.disk.invitations, v.created, v.kept)
  {
    var s := w.disk;
    match c.op
    case Invite(id, corr, details) => CreateInv(s, id, corr, details, c.now, w.created, w.kept);
    case Use(id) => if Usable(s, id, c.now).0.Some? { ConsumeInv(s, id, c.now, w.created, w.kept); }
    case Respond(r, sas) => CompleteInv(s, c.verify, r, sas, c.now, w.created, w.kept);
    case Accept(id, sas) =>
      if Confirmed(s, id).Some? { CompleteInv(s, c.verify, Confirmed(s, id).value, sas, c.now, w.created, w.kept); }
    case _ =>
  }

  lemma NextInv(w: World, c: Call)
    requires Inv(w) && Admissible(w, c)
    ensures Inv(Next(w, c))
  {
    if c.saved {
      StepInvitations(w, c);
      StepRoster(w.disk, c);
    } else if c.op.Invite? {
      MoreCreated(w.disk.invitations, w.created, w.kept, c.op.id);
    }
  }

  // ----- runs -----

  ghost predicate AdmissibleRun(w: World, cs: seq<Call>)
    decreases |cs|
  {
    cs == [] || (Admissible(w, cs[0]) && AdmissibleRun(Next(w, cs[0]), cs[1..]))
  }

  function Run(w: World, cs: seq<Call>): World
    decreases |cs|
  {
    if cs == [] then w else Run(Next(w, cs[0]), cs[1..])
  }

  lemma {:induction false} RunInv(w: World, cs: seq<Call>)
    requires Inv(w) && AdmissibleRun(w, cs)
    ensures Inv(Run(w, cs))
    decreases |cs|
  {
    if cs != [] {
      NextInv(w, cs[0]);
      RunInv(Next(w, cs[0]), cs[1..]);
    }
  }

  lemma {:induction false} NothingLost(w: World, cs: seq<Call>)
    requires forall i :: 0 <= i < |cs| ==> cs[i].saved
    ensures Run(w, cs).lost == w.lost
    decreases |cs|
  {
    if cs != [] { NothingLost(Next(w, cs[0]), cs[1..]); }
  }

  /** Over every run, an invitation's code is compared at most once by calls that could save, matching or not. */
  lemma ComparedAtMostOnce(cs: seq<Call>, id: string)
    requires AdmissibleRun(START, cs)
    ensures Run(START, cs).kept[id] <= 1
  {
    RunInv(START, cs);
  }

  /** With every save successful it is compared at most once at all. */
  lemma ComparedOnceWhenSaved(cs: seq<Call>, id: string)
    requires AdmissibleRun(START, cs) && forall i :: 0 <= i < |cs| ==> cs[i].saved
    ensures (Run(START, cs).kept + Run(START, cs).lost)[id] <= 1
  {
    RunInv(START, cs);
    NothingLost(START, cs);
  }

  /** After a comparison that was saved, no later call compares that invitation's code. */
  lemma {:induction false} NoComparisonAfter(w: World, cs: seq<Call>, id: string)
    requires Inv(w) && id in w.kept && AdmissibleRun(w, cs)
    ensures Run(w, cs).kept[id] == 1 && Run(w, cs).lost[id] == w.lost[id]
    decreases |cs|
  {
    if cs != [] {
      SpentIsNotCompared(w, cs[0], id);
      NextInv(w, cs[0]);
      NoComparisonAfter(Next(w, cs[0]), cs[1..], id);
    }
  }

  lemma SpentIsNotCompared(w: World, c: Call, id: string)
    requires Inv(w) && id in w.kept
    ensures Compared(w.disk, c).Some? ==> Compared(w.disk, c).value.invitationId != id
    ensures id in Next(w, c).kept && Next(w, c).lost[id] == w.lost[id]
  {
    var r := Compared(w.disk, c);
    if r.Some? {
      UsableIs(w.disk, r.value.invitationId, c.now);
      assert Spent(w.disk.invitations, id);
    }
  }

  /** A save that fails lets the same code be compared again: the count is not bounded then. */
  lemma FailedSaveComparesAgain(w: World, c: Call)
    requires Inv(w) && Compared(w.disk, c).Some? && !c.saved
    ensures var v := Next(w, c);
      && v.disk == w.disk && Compared(v.disk, c) == Compared(w.disk, c)
      && v.lost[Compared(w.disk, c).value.invitationId] == w.lost[Compared(w.disk, c).value.invitationId] + 1
  {
  }

  predicate ComparesCode(s: State, c: Call, id: string) {
    Compared(s, c).Some? && Compared(s, c).value.invitationId == id
  }

  /** Some admissible continuation, and a call after it, compares the code of this invitation. */
  ghost predicate ComparableLater(w: World, id: string) {
    exists cs, c :: AdmissibleRun(w, cs) && ComparesCode(Run(w, cs).disk, c, id)
  }

  /** After a call that compared an invitation's code, that code can ever be compared again exactly when the call's save
      failed. */
  lemma ComparableAgainExactlyWhen(w: World, c: Call, id: string)
    requires Inv(w) && Admissible(w, c) && ComparesCode(w.disk, c, id)
    ensures ComparableLater(Next(w, c), id) <==> !c.saved
  {
    var v := Next(w, c);
    NextInv(w, c);
    if !c.saved {
      assert AdmissibleRun(v, []) && ComparesCode(Run(v, []).disk, c, id);
    } else {
      forall cs, d | AdmissibleRun(v, cs) ensures !ComparesCode(Run(v, cs).disk, d, id) {
        NoComparisonAfter(v, cs, id);
        RunInv(v, cs);
        SpentIsNotCompared(Run(v, cs), d, id);
      }
    }
  }

  // ----- without a bound -----

  const ID: string := "i"
  const ANSWER: Response := Response("", ID, "", "", "", "", "")
  const ANYTHING: Verifier := (v: Invitation, r: Response, at: int) => Some(Verified("", ""))

  /** An answer with a code, whose save fails. */
  const GUESS: Call := Call(Respond(ANSWER, "1"), ANYTHING, 0, false)

  function Guesses(n: nat): seq<Call> {
    if n == 0 then [] else [GUESS] + Guesses(n - 1)
  }

  lemma {:induction false} GuessingGoesOn(w: World, n: nat)
    requires Inv(w) && ComparesCode(w.disk, GUESS, ID)
    ensures AdmissibleRun(w, Guesses(n)) && Run(w, Guesses(n)).lost[ID] == w.lost[ID] + n
    decreases n
  {
    if n > 0 {
      FailedSaveComparesAgain(w, GUESS);
      NextInv(w, GUESS);
      GuessingGoesOn(Next(w, GUESS), n - 1);
      assert Guesses(n)[0] == GUESS && Guesses(n)[1..] == Guesses(n - 1);
    }
  }

  /** From the start, one invitation's code can be compared any number of times while saves fail. */
  lemma ComparedAnyNumber(n: nat)
    ensures exists cs :: AdmissibleRun(START, cs) && Run(START, cs).lost[ID] == n
  {
    var invite := Call(Invite(ID, "", ""), ANYTHING, 0, true);
    var w := Next(START, invite);
    assert Inv(START) && Admissible(START, invite);
    NextInv(START, invite);
    var made := w.disk.invitations;
    assert |made| == 1 && made[0].id == ID && made[0].consumedAt.None? && !IsExpired(made[0].expiresAt, 0);
    assert Usable(w.disk, ID, 0).0 == Some(0);
    GuessingGoesOn(w, n);
    var cs := [invite] + Guesses(n);
    assert cs[0] == invite && cs[1..] == Guesses(n);
    assert AdmissibleRun(START, cs) && Run(START, cs) == Run(w, Guesses(n));
  }

  // ----- trust has a cause -----

  /** The call makes `fp` trusted: outright, or by a matching code on a usable invitation. */
  ghost predicate Trusts(s: State, c: Call, fp: string) {
    c.saved && match c.op
    case Trust(f, _) => f == Some(fp)
    case Respond(r, sas) => MatchingCode(s, c, r, sas, fp)
    case Accept(id, sas) => Confirmed(s, id).Some? && MatchingCode(s, c, Confirmed(s, id).value, sas, fp)
    case _ => false
  }

  ghost predicate MatchingCode(s: State, c: Call, r: Response, sas: string, fp: string) {
    exists i :: 0 <= i < |s.invitations| && s.invitations[i].id == r.invitationId && s.invitations[i].consumedAt.None?
      && !IsExpired(s.invitations[i].expiresAt, c.now)
        && c.verify(s.invitations[i], r, Unix(c.now)) == Some(Verified(Trim(sas), fp))
  }

  lemma CompleteCause(s: State, c: Call, r: Response, sas: string, fp: string)
    requires !Lists(s, fp) && Lists(Complete(s, c.verify, r, sas, c.now).0, fp)
    ensures MatchingCode(s, c, r, sas, fp)
  {
    var t := Complete(s, c.verify, r, sas, c.now).0;
    UsableIs(s, r.invitationId, c.now);
    if Compares(s, c.verify, r, c.now) {
      var i := Usable(s, r.invitationId, c.now).0.value;
      var v := c.verify(s.invitations[i], r, Unix(c.now)).value;
      if Trim(sas) == v.sas {
        var d := TrustedDevice(v, r, c.now);
        if fp != d.fingerprint {
          UpsertOthers(s, d, fp);
          SameRoster(t, s.(roster := UpsertDevice(s.roster, d)), fp);
        }
      } else {
        SameRoster(t, s, fp);
      }
    } else {
      SameRoster(t, s, fp);
    }
  }

  lemma SameRoster(s: State, t: State, fp: string)
    requires s.roster == t.roster
    ensures Lists(s, fp) <==> Lists(t, fp)
  {
  }

  lemma RevokeLists(s: State, f: Option<string>, now: Nanos, fp: string)
    requires Lists(Revoke(s, f, now).0, fp)
    ensures Lists(s, fp)
  {
    var t := Revoke(s, f, now).0;
    var i :| 0 <= i < |t.roster| && ListedAt(t.roster, i, fp);
    assert ListedAt(s.roster, i, fp);
  }

  /** A fingerprint that a call puts on the list was trusted outright, or its code matched on a usable invitation. */
  lemma NewTrustHasCause(w: World, c: Call, fp: string)
    requires !Lists(w.disk, fp) && Lists(Next(w, c).disk, fp)
    ensures Trusts(w.disk, c, fp)
  {
    var s := w.disk;
    match c.op
    case Respond(r, sas) => CompleteCause(s, c, r, sas, fp);
    case Accept(id, sas) => if Confirmed(s, id).Some? { CompleteCause(s, c, Confirmed(s, id).value, sas, fp); }
    case Trust(f, d) =>
      if f.Some? && f.value != fp {
        UpsertOthers(s,
          d.(fingerprint := f.value, status := Trusted, revokedAt := None, pairedAt := if d.pairedAt == 0 then
          Unix(c.now) else d.pairedAt), fp);
      }
    case Distrust(f) => RevokeLists(s, f, c.now, fp);
    case Invite(id, corr, details) => SameRoster(s, Next(w, c).disk, fp);
    case Use(id) => SameRoster(s, Next(w, c).disk, fp);
    case Hold(r) => SameRoster(s, Next(w, c).disk, fp);
  }

  /** Some call of the run trusts the fingerprint. */
  ghost predicate TrustedDuring(w: World, cs: seq<Call>, fp: string)
    decreases |cs|
  {
    cs != [] && (Trusts(w.disk, cs[0], fp) || TrustedDuring(Next(w, cs[0]), cs[1..], fp))
  }

  /** A fingerprint off the list, revoked or never paired, stays off it until a call trusts it. */
  lemma {:induction false} OffTheListUntilTrusted(w: World, cs: seq<Call>, fp: string)
    requires !Lists(w.disk, fp) && !TrustedDuring(w, cs, fp)
    ensures !Lists(Run(w, cs).disk, fp)
    decreases |cs|
  {
    if cs != [] {
      if Lists(Next(w, cs[0]).disk, fp) { NewTrustHasCause(w, cs[0], fp); }
      OffTheListUntilTrusted(Next(w, cs[0]), cs[1..], fp);
    }
  }

  /** Revoking takes a fingerprint off the list at once: the roster has each fingerprint once. */
  lemma RevokedIsOff(w: World, fp: string, now: Nanos)
    requires Inv(w)
    ensures !Lists(Revoke(w.disk, Some(fp), now).0, fp)
  {
    var s := w.disk;
    var t := Revoke(s, Some(fp), now).0;
    forall j | 0 <= j < |t.roster| ensures !ListedAt(t.roster, j, fp) {
      var i := FindDevice(s.roster, fp);
      if i.Some? && j != i.value { assert s.roster[j].fingerprint != fp; }
    }
  }

  /** In every run the roster has each fingerprint once. */
  lemma RosterIsUnique(cs: seq<Call>)
    requires AdmissibleRun(START, cs)
    ensures UniqueDevices(Run(START, cs).disk.roster)
  {
    RunInv(START, cs);
  }

  /** The listing shows exactly the fingerprints that are not revoked. */
  lemma {:induction false} ListingShows(roster: seq<Device>, fp: string)
    ensures (exists i :: 0 <= i < |Listing(roster)| && Listing(roster)[i].fingerprint == fp) <==>
      (exists i :: 0 <= i < |roster| && ListedAt(roster, i, fp))
  {
    if roster != [] {
      var rest := roster[1..];
      ListingShows(rest, fp);
      var shown, less := Listing(roster), Listing(rest);
      if i :| 0 <= i < |roster| && ListedAt(roster, i, fp) {
        if i == 0 { assert shown[0].fingerprint == fp; } else {
          assert ListedAt(rest, i - 1, fp);
          var j :| 0 <= j < |less| && less[j].fingerprint == fp;
          assert shown[if IsListed(roster[0]) then j + 1 else j] == less[j];
        }
      }
      if j :| 0 <= j < |shown| && shown[j].fingerprint == fp {
        if IsListed(roster[0]) && j == 0 { assert ListedAt(roster, 0, fp); } else {
          var k := if IsListed(roster[0]) then j - 1 else j;
          assert less[k] == shown[j];
          var i :| 0 <= i < |rest| && ListedAt(rest, i, fp);
          assert ListedAt(roster, i + 1, fp);
        }
      }
    }
  }
}
