/** The registry joins its keys into strings; the model keeps them as records.
    These are the conditions under which the two agree. */
module ConnKeys {
  import Decimal
  import opened ConnModel

  function DaemonText(k: DaemonKey): string { Decimal.Text(k.userId) + [':'] + k.deviceId }

  function CorrelationText(k: CorrelationKey): string { Decimal.Text(k.userId) + [':'] + k.id }

  function AttemptText(k: AttemptKey): string {
    Decimal.Text(k.userId) + [':']
      + (k.sessionId + [':'] + (k.fingerprint + [':'] + (k.daemonId + [':'] + k.attemptId)))
  }

  function ReportText(r: Report): string { r.attemptId + ['\0'] + r.fingerprint }

  /** A text without the separator is recovered from before it. */
  lemma SplitAt(x: string, y: string, r: string, q: string, sep: char)
    requires sep !in x && sep !in y && x + [sep] + r == y + [sep] + q
    ensures x == y && r == q
  {
    var s, t := x + [sep] + r, y + [sep] + q;
    assert s[|x|] == sep && t[|y|] == sep;
    assert x == s[..|x|] && y == t[..|y|];
    assert r == s[|x| + 1..] && q == t[|y| + 1..];
  }

  lemma NumberHasNoColon(i: int)
    ensures ':' !in Decimal.Text(i)
  {
    assert i < 0 ==> Decimal.Text(i) == ['-'] + Decimal.Digits(-i);
  }

  lemma DaemonTextInjective(a: DaemonKey, b: DaemonKey)
    requires DaemonText(a) == DaemonText(b)
    ensures a == b
  {
    NumberHasNoColon(a.userId);
    NumberHasNoColon(b.userId);
    SplitAt(Decimal.Text(a.userId), Decimal.Text(b.userId), a.deviceId, b.deviceId, ':');
    Decimal.TextInjective(a.userId, b.userId);
  }

  lemma CorrelationTextInjective(a: CorrelationKey, b: CorrelationKey)
    requires CorrelationText(a) == CorrelationText(b)
    ensures a == b
  {
    NumberHasNoColon(a.userId);
    NumberHasNoColon(b.userId);
    SplitAt(Decimal.Text(a.userId), Decimal.Text(b.userId), a.id, b.id, ':');
    Decimal.TextInjective(a.userId, b.userId);
  }

  /** Session id, fingerprint and daemon id hold no colon; the attempt id may. */
  predicate Plain(k: AttemptKey) {
    ':' !in k.sessionId && ':' !in k.fingerprint && ':' !in k.daemonId
  }

  lemma AttemptTextInjective(a: AttemptKey, b: AttemptKey)
    requires Plain(a) && Plain(b) && AttemptText(a) == AttemptText(b)
    ensures a == b
  {
    NumberHasNoColon(a.userId);
    NumberHasNoColon(b.userId);
    var a3, b3 := a.daemonId + [':'] + a.attemptId, b.daemonId + [':'] + b.attemptId;
    var a2, b2 := a.fingerprint + [':'] + a3, b.fingerprint + [':'] + b3;
    var a1, b1 := a.sessionId + [':'] + a2, b.sessionId + [':'] + b2;
    SplitAt(Decimal.Text(a.userId), Decimal.Text(b.userId), a1, b1, ':');
    SplitAt(a.sessionId, b.sessionId, a2, b2, ':');
    SplitAt(a.fingerprint, b.fingerprint, a3, b3, ':');
    SplitAt(a.daemonId, b.daemonId, a.attemptId, b.attemptId, ':');
    Decimal.TextInjective(a.userId, b.userId);
  }

  // ----- keys that are not plain -----

  function Count(s: string, sep: char): nat {
    if s == [] then 0 else (if s[0] == sep then 1 else 0) + Count(s[1..], sep)
  }

  lemma {:induction false} CountOfBoth(s: string, t: string, sep: char)
    ensures Count(s + t, sep) == Count(s, sep) + Count(t, sep)
  {
    if s == [] {
      assert s + t == t;
    } else {
      CountOfBoth(s[1..], t, sep);
      assert (s + t)[1..] == s[1..] + t;
    }
  }

  lemma CountOfJoin(s: string, t: string, sep: char)
    ensures Count(s + [sep] + t, sep) == Count(s, sep) + 1 + Count(t, sep)
  {
    CountOfBoth(s + [sep], t, sep);
    CountOfBoth(s, [sep], sep);
    assert Count([sep], sep) == 1;
  }

  /** The text before the first separator and the text after it. */
  function Cut(s: string, sep: char): (r: (string, string))
    requires Count(s, sep) > 0
    ensures s == r.0 + [sep] + r.1 && sep !in r.0 && Count(r.1, sep) == Count(s, sep) - 1
  {
    if s[0] == sep then ([], s[1..]) else
      var rest := Cut(s[1..], sep);
      ([s[0]] + rest.0, rest.1)
  }

  /** The same text with the colons at the first places: the plain key it may also stand for. */
  function PlainForm(k: AttemptKey): (b: AttemptKey)
    ensures Plain(b) && AttemptText(b) == AttemptText(k)
  {
    var c := k.daemonId + [':'] + k.attemptId;
    var d := k.fingerprint + [':'] + c;
    var t := k.sessionId + [':'] + d;
    CountOfJoin(k.daemonId, k.attemptId, ':');
    CountOfJoin(k.fingerprint, c, ':');
    CountOfJoin(k.sessionId, d, ':');
    var (session, u) := Cut(t, ':');
    var (fingerprint, v) := Cut(u, ':');
    var (daemon, attempt) := Cut(v, ':');
    AttemptKey(k.userId, session, fingerprint, daemon, attempt)
  }

  /** The exact condition: a key is told by its joined text, among keys whose session id, fingerprint and daemon id
      hold no colon, if and only if its own hold none; any other key has the text of a different plain key. */
  lemma PlainExactly(k: AttemptKey)
    ensures Plain(k) <==> forall b :: Plain(b) && AttemptText(b) == AttemptText(k) ==> b == k
  {
    if Plain(k) {
      forall b | Plain(b) && AttemptText(b) == AttemptText(k) ensures b == k { AttemptTextInjective(b, k); }
    } else {
      assert Plain(PlainForm(k)) && AttemptText(PlainForm(k)) == AttemptText(k);
    }
  }

  lemma ReportTextInjective(a: Report, b: Report)
    requires '\0' !in a.attemptId && '\0' !in b.attemptId && ReportText(a) == ReportText(b)
    ensures a == b
  {
    SplitAt(a.attemptId, b.attemptId, a.fingerprint, b.fingerprint, '\0');
  }

  /** The exact condition for report keys: a NUL in the attempt id, and only that, gives the text of another report. */
  lemma NulFreeExactly(r: Report)
    ensures '\0' !in r.attemptId <==> forall q: Report ::
      '\0' !in q.attemptId && ReportText(q) == ReportText(r) ==> q == r
  {
    if '\0' !in r.attemptId {
      forall q: Report | '\0' !in q.attemptId && ReportText(q) == ReportText(r)
        ensures q == r
      {
        ReportTextInjective(q, r);
      }
    } else {
      CountOfJoin(r.attemptId, r.fingerprint, '\0');
      var (attemptId, fingerprint) := Cut(ReportText(r), '\0');
      var q := Report(attemptId, fingerprint);
      assert ReportText(q) == ReportText(r);
    }
  }
}
