/** Runs of a machine that is given by its steps. */
module Machines {
  import opened Messages

  /** The state after a whole run; `None` if a step was not possible. */
  ghost function After<S, L>(step: (S, L) -> Option<S>, s: S, labels: seq<L>): Option<S> {
    if labels == [] then Some(s)
    else
      var n := |labels| - 1;
      match After(step, s, labels[..n])
      case None => None
      case Some(r) => step(r, labels[n])
  }

  lemma {:induction false} AfterSnoc<S, L>(step: (S, L) -> Option<S>, s: S, labels: seq<L>, l: L)
    ensures After(step, s, labels + [l]) == match After(step, s, labels)
                                            case None => None
                                            case Some(r) => step(r, l)
  {
    assert (labels + [l])[..|labels|] == labels;
  }

  lemma {:induction false} AfterCons<S, L>(step: (S, L) -> Option<S>, s: S, l: L, rest: seq<L>)
    requires step(s, l).Some?
    ensures After(step, s, [l] + rest) == After(step, step(s, l).value, rest)
  {
    if rest == [] {
      AfterSnoc(step, s, [], l);
      assert [l] + rest == [] + [l];
    } else {
      var n := |rest| - 1;
      AfterCons(step, s, l, rest[..n]);
      AfterSnoc(step, s, [l] + rest[..n], rest[n]);
      assert [l] + rest == ([l] + rest[..n]) + [rest[n]];
    }
  }

  lemma {:induction false} AfterConcat<S, L>(step: (S, L) -> Option<S>, s: S, first: seq<L>, rest: seq<L>)
    requires After(step, s, first).Some?
    ensures After(step, s, first + rest) == After(step, After(step, s, first).value, rest)
    decreases |rest|
  {
    if rest == [] {
      assert first + rest == first;
    } else {
      var n := |rest| - 1;
      AfterConcat(step, s, first, rest[..n]);
      AfterSnoc(step, s, first + rest[..n], rest[n]);
      assert first + rest == (first + rest[..n]) + [rest[n]];
    }
  }

  /** A run has each of its own beginnings behind it, and goes on from there. */
  lemma {:induction false} AfterGoesOn<S, L>(step: (S, L) -> Option<S>, s: S, labels: seq<L>, n: nat)
    requires After(step, s, labels).Some? && n < |labels|
    ensures After(step, s, labels[..n]).Some?
    ensures After(step, s, labels[..n + 1]) == step(After(step, s, labels[..n]).value, labels[n])
    ensures After(step, s, labels[..n + 1]).Some?
    decreases |labels|
  {
    var m := |labels| - 1;
    if n < m {
      AfterGoesOn(step, s, labels[..m], n);
      assert labels[..m][..n] == labels[..n] && labels[..m][..n + 1] == labels[..n + 1];
    } else {
      assert labels[..n + 1] == labels;
    }
  }
}
