/** Running a list of events through a step function. */
module Folds {

  ghost function Fold<W, E>(next: (W, E) -> W, w: W, es: seq<E>): W
    decreases |es|
  {
    if es == [] then w else Fold(next, next(w, es[0]), es[1..])
  }

  ghost predicate Allowed<W, E>(next: (W, E) -> W, ok: (W, E) -> bool, w: W, es: seq<E>)
    decreases |es|
  {
    es == [] || (ok(w, es[0]) && Allowed(next, ok, next(w, es[0]), es[1..]))
  }

  /** One event more at the end of a run. */
  lemma {:induction false} OneMore<W, E>(next: (W, E) -> W, ok: (W, E) -> bool, w: W, es: seq<E>, e: E)
    ensures Fold(next, w, es + [e]) == next(Fold(next, w, es), e)
    ensures Allowed(next, ok, w, es + [e]) <==> Allowed(next, ok, w, es) && ok(Fold(next, w, es), e)
    decreases |es|
  {
    var all := es + [e];
    if es == [] {
      assert all[0] == e && all[1..] == [];
    } else {
      assert all[0] == es[0] && all[1..] == es[1..] + [e];
      OneMore(next, ok, next(w, es[0]), es[1..], e);
    }
  }
}
