/** Sliding-window rate limits: the pruned list against the full request history. */
module ConnRates {
  import opened ConnModel

  ghost predicate Sorted(log: seq<Time>) {
    forall i, j :: 0 <= i < j < |log| ==> log[i] <= log[j]
  }

  /** Any eleven consecutive requests span a whole window. */
  ghost predicate Spread(log: seq<Time>) {
    forall i, j :: 0 <= i && j == i + REQUEST_LIMIT < |log| ==> log[j] - log[i] >= REQUEST_WINDOW
  }

  /** The stored list is the end of the history, and what is missing is older than a window. */
  ghost predicate RateOk(list: seq<Time>, log: seq<Time>, clock: Time) {
    && Sorted(log) && Spread(log)
    && (forall i :: 0 <= i < |log| ==> log[i] <= clock)
    && |list| <= |log| && list == log[|log| - |list|..]
    && (forall i :: 0 <= i < |log| - |list| ==> log[i] <= clock - REQUEST_WINDOW)
  }

  /** Recorded requests in the interval from `lo` (excluded) to one window later (included). */
  ghost function InWindow(log: seq<Time>, lo: Time): set<int> {
    set i | 0 <= i < |log| && lo < log[i] <= lo + 60 * 1_000_000_000
  }

  lemma {:induction false} RecentIsSuffix(times: seq<Time>, cutoff: Time)
    requires Sorted(times)
    ensures |Recent(times, cutoff)| <= |times|
    ensures Recent(times, cutoff) == times[|times| - |Recent(times, cutoff)|..]
    ensures forall i :: 0 <= i < |times| - |Recent(times, cutoff)| ==> times[i] <= cutoff
    ensures forall i :: |times| - |Recent(times, cutoff)| <= i < |times| ==> times[i] > cutoff
  {
    if times == [] {
    } else if times[0] > cutoff {
      AllRecent(times, cutoff);
    } else {
      var rest := times[1..];
      var kept := Recent(rest, cutoff);
      RecentIsSuffix(rest, cutoff);
      assert forall i :: 0 <= i < |rest| ==> rest[i] == times[i + 1];
      assert rest[|rest| - |kept|..] == times[|times| - |kept|..];
      forall i | 0 <= i < |times| - |kept| ensures times[i] <= cutoff { assert i == 0 || times[i] == rest[i - 1]; }
      forall i | |times| - |kept| <= i < |times| ensures times[i] > cutoff { assert times[i] == rest[i - 1]; }
    }
  }

  lemma {:induction false} AllRecent(times: seq<Time>, cutoff: Time)
    requires forall i :: 0 <= i < |times| ==> times[i] > cutoff
    ensures Recent(times, cutoff) == times
  {
    if times != [] { AllRecent(times[1..], cutoff); }
  }

  /** Pruning at a later time keeps the relation to the history. */
  lemma PruneKeepsRate(list: seq<Time>, log: seq<Time>, clock: Time, now: Time)
    requires RateOk(list, log, clock) && clock <= now
    ensures RateOk(Recent(list, now - REQUEST_WINDOW), log, now)
  {
    RecentIsSuffix(list, now - REQUEST_WINDOW);
    var kept := Recent(list, now - REQUEST_WINDOW);
    assert kept == log[|log| - |kept|..];
    forall i | 0 <= i < |log| - |kept| ensures log[i] <= now - REQUEST_WINDOW {
      if i >= |log| - |list| { assert log[i] == list[i - (|log| - |list|)]; }
    }
  }

  /** The pruned list is the whole history restricted to the last window. */
  lemma PrunedIsHistory(list: seq<Time>, log: seq<Time>, clock: Time, now: Time)
    requires RateOk(list, log, clock) && clock <= now
    ensures Recent(list, now - REQUEST_WINDOW) == Recent(log, now - REQUEST_WINDOW)
  {
    PruneKeepsRate(list, log, clock, now);
    RecentIsSuffix(log, now - REQUEST_WINDOW);
    RecentIsSuffix(list, now - REQUEST_WINDOW);
    var kept, all := |Recent(list, now - REQUEST_WINDOW)|, |Recent(log, now - REQUEST_WINDOW)|;
    assert kept > 0 ==> log[|log| - kept] == list[|list| - kept] > now - REQUEST_WINDOW;
    assert all > 0 ==> log[|log| - all] > now - REQUEST_WINDOW;
    assert kept == all;
  }

  /** Recording is admitted only below the limit, and then keeps the spread. */
  lemma RecordKeepsRate(list: seq<Time>, log: seq<Time>, now: Time)
    requires RateOk(list, log, now) && |list| < REQUEST_LIMIT
    ensures RateOk(list + [now], log + [now], now)
  {
    var more := log + [now];
    assert list + [now] == more[|more| - |list| - 1..];
    forall i, j | 0 <= i && j == i + REQUEST_LIMIT < |more| ensures more[j] - more[i] >= REQUEST_WINDOW {
      if j == |log| { assert i < |log| - |list|; }
    }
  }

  lemma {:induction false} IntervalSize(s: set<int>, lo: int, hi: int)
    requires lo <= hi && forall i :: i in s ==> lo <= i < hi
    ensures |s| <= hi - lo
    decreases hi - lo
  {
    if lo == hi {
      assert s == {};
    } else {
      IntervalSize(s - {lo}, lo + 1, hi);
      assert lo !in s ==> s - {lo} == s;
    }
  }

  /** No interval of one window holds more than the limit. */
  lemma WindowBound(log: seq<Time>, lo: Time)
    requires Sorted(log) && Spread(log)
    ensures |InWindow(log, lo)| <= 10
  {
    var s := InWindow(log, lo);
    if s != {} {
      var first := FirstIn(log, lo);
      var next := first + REQUEST_LIMIT;
      assert next < |log| ==> log[next] - log[first] >= REQUEST_WINDOW;
      IntervalSize(s, first, next);
    }
  }

  lemma FirstIn(log: seq<Time>, lo: Time) returns (first: int)
    requires InWindow(log, lo) != {}
    ensures first in InWindow(log, lo) && forall i :: i in InWindow(log, lo) ==> first <= i
  {
    first := 0;
    while first !in InWindow(log, lo)
      invariant 0 <= first
      invariant forall i :: i in InWindow(log, lo) ==> first <= i
      decreases |log| - first
    {
      var any :| any in InWindow(log, lo);
      first := first + 1;
    }
  }
}
