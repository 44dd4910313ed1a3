// What it means to filter a list.

module Filters {
  ghost predicate Increasing(at: seq<nat>) {
    forall i, j :: 0 <= i < j < |at| ==> at[i] < at[j]
  }

  /** `out` is what `s` holds at the places `at`, in order. */
  ghost predicate HeldAt<T>(s: seq<T>, at: seq<nat>, out: seq<T>) {
    Increasing(at) && |out| == |at| && forall i :: 0 <= i < |at| ==> at[i] < |s| && out[i] == s[at[i]]
  }

  lemma {:induction false} HeldAtMore<T>(s: seq<T>, at: seq<nat>, out: seq<T>, x: T)
    requires HeldAt(s, at, out)
    ensures HeldAt(s + [x], at, out) && HeldAt(s + [x], at + [|s|], out + [x])
  {
  }

  /** Filtering what has been filtered. */
  lemma {:induction false} HeldAtTwice<T>(s: seq<T>, at: seq<nat>, t: seq<T>, at': seq<nat>, out: seq<T>)
    returns (both: seq<nat>)
    requires HeldAt(s, at, t) && HeldAt(t, at', out)
    ensures HeldAt(s, both, out)
    ensures forall k :: k in both <==> exists j :: j in at' && j < |at| && at[j] == k
  {
    both := seq(|at'|, i requires 0 <= i < |at'| => at[at'[i]]);
    forall k | k in both ensures exists j :: j in at' && j < |at| && at[j] == k {
      var i :| 0 <= i < |both| && both[i] == k;
      assert at'[i] in at';
    }
    forall j | j in at' ensures j < |at| && at[j] in both {
      var i :| 0 <= i < |at'| && at'[i] == j;
      assert both[i] == at[j];
    }
  }
}
