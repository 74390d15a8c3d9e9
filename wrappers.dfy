/** Helpers shared by all modules: Rust's `Option`, and runs of one value. */
module Wrappers {

  datatype Option<+T> = None | Some(value: T)

  /** The last element of a sequence, if any. */
  function Last<T>(s: seq<T>): (r: Option<T>)
    ensures r.None? <==> s == []
    ensures r.Some? ==> r.value == s[|s| - 1]
  {
    if s == [] then None else Some(s[|s| - 1])
  }

  /** `n` copies of `t`. */
  function Repeat<T>(t: T, n: nat): (q: seq<T>)
    ensures |q| == n && forall i :: 0 <= i < n ==> q[i] == t
  {
    if n == 0 then [] else Repeat(t, n - 1) + [t]
  }

  lemma RepeatCons<T>(t: T, n: nat)
    ensures [t] + Repeat(t, n) == Repeat(t, n + 1)
  {
    assert forall i :: 0 <= i < n + 1 ==> ([t] + Repeat(t, n))[i] == t;
  }
}
