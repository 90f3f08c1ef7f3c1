/** The conventional Some/None datatype, used wherever the backend has a nullable column or field. */
module Wrappers {
  datatype Option<+T> = None | Some(value: T)
}

/** The places of a sequence at which a test holds. */
module Places {
  /** `at` are those places, in order. */
  ghost predicate Are<T(!new)>(xs: seq<T>, test: T -> bool, at: seq<nat>) {
    && (forall i {:trigger at[i]} :: 0 <= i < |at| ==> at[i] < |xs| && test(xs[at[i]]))
    && (forall i, j :: 0 <= i < j < |at| ==> at[i] < at[j])
    && (forall k {:trigger k in at} :: 0 <= k < |xs| && test(xs[k]) ==> k in at)
  }

  lemma {:induction false} AreMore<T(!new)>(front: seq<T>, x: T, test: T -> bool, at: seq<nat>)
    requires Are(front, test, at)
    ensures Are(front + [x], test, if test(x) then at + [|front|] else at)
  {
    var xs, more := front + [x], if test(x) then at + [|front|] else at;
    forall i | 0 <= i < |more| ensures more[i] < |xs| && test(xs[more[i]]) {
      if i < |at| { assert xs[at[i]] == front[at[i]]; }
    }
    forall k | 0 <= k < |xs| && test(xs[k]) ensures k in more {
      if k < |front| { assert front[k] == xs[k] && k in at; } else { assert more[|at|] == k; }
    }
  }
}
