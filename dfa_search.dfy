/** The anchored, longest-match DFA walk that every generated lexer calls once per token
    (`dfa_search_next` in src/lib.rs), over an abstract dense DFA. */
module DfaSearch {

  import opened Wrappers

  /** Input is walked byte by byte; a byte is a character code below 256, so ASCII inputs
      can be written as string literals. */
  type byte = c: char | c as int < 256

  type State = nat

  /** The part of a compiled DFA the walk uses. `matchPattern(s)` is `match_pattern(s, 0)`,
      the first pattern reported by the match state `s`. */
  datatype Automaton = Automaton(
    start: State,                      // the anchored start state
    next: (State, byte) -> State,
    eoi: State -> State,               // the end-of-input transition
    isMatch: State -> bool,
    isDead: State -> bool,
    matchPattern: State -> nat)

  /** What the walk reports: a pattern id and the number of bytes matched. */
  datatype Hit = Hit(pattern: nat, len: nat)

  /** The state reached from the anchored start state after reading `w`. */
  function Run(d: Automaton, w: seq<byte>): State
    decreases |w|
  {
    if |w| == 0 then d.start else d.next(Run(d, w[..|w| - 1]), w[|w| - 1])
  }

  /** The walk leaves its loop right after reading `w`: a dead state that is no match state. */
  ghost predicate Stops(d: Automaton, w: seq<byte>)
  {
    d.isDead(Run(d, w)) && !d.isMatch(Run(d, w))
  }

  /** The walk has not stopped after any of the first `k` bytes. */
  ghost predicate Reaches(d: Automaton, input: seq<byte>, k: nat)
    requires k <= |input|
  {
    forall j :: 1 <= j <= k ==> !Stops(d, input[..j])
  }

  /** The state in which a match of length `k` is detected: matches are reported one byte
      late, so after byte `k` (0-based) for `k < |input|`, and by the end-of-input step for
      `k == |input|`. */
  function StateAt(d: Automaton, input: seq<byte>, k: nat): State
    requires k <= |input|
  {
    if k < |input| then Run(d, input[..k + 1]) else d.eoi(Run(d, input))
  }

  /** The walk records length `k`: it gets that far and the detecting state is a match state. */
  ghost predicate Recorded(d: Automaton, input: seq<byte>, k: nat)
    requires k <= |input|
  {
    Reaches(d, input, k) && d.isMatch(StateAt(d, input, k))
  }

  /** The greatest recorded length in 1..n, or 0 when there is none. */
  ghost function LastRecorded(d: Automaton, input: seq<byte>, n: nat): (k: nat)
    requires n <= |input|
    ensures k <= n
    ensures k == 0 || (1 <= k && Recorded(d, input, k))
    ensures forall j :: k < j <= n ==> !Recorded(d, input, j)
    decreases n
  {
    if n == 0 then 0 else if Recorded(d, input, n) then n else LastRecorded(d, input, n - 1)
  }

  /** The specification of the walk: the longest non-empty recorded length, reported with the
      pattern of the state that detected it; `None` when nothing non-empty was recorded. */
  ghost function Search(d: Automaton, input: seq<byte>): (r: Option<Hit>)
    ensures r.Some? ==> 1 <= r.value.len <= |input|
  {
    var k := LastRecorded(d, input, |input|);
    if k == 0 then None else Some(Hit(d.matchPattern(StateAt(d, input, k)), k))
  }

  /** `Search` reports the longest recorded non-empty length and nothing else. */
  lemma SearchMeaning(d: Automaton, input: seq<byte>)
    ensures Search(d, input).None? <==> forall k :: 1 <= k <= |input| ==> !Recorded(d, input, k)
    ensures Search(d, input).Some? ==>
              var h := Search(d, input).value;
              Recorded(d, input, h.len) && h.pattern == d.matchPattern(StateAt(d, input, h.len)) &&
              forall k :: h.len < k <= |input| ==> !Recorded(d, input, k)
  {
  }

  lemma LastRecordedIs(d: Automaton, input: seq<byte>, n: nat, k: nat)
    requires n <= |input| && k <= n
    requires k == 0 || (1 <= k && Recorded(d, input, k))
    requires forall j :: k < j <= n ==> !Recorded(d, input, j)
    ensures LastRecorded(d, input, n) == k
  {
  }

  /** What the walk reports once it stops: the last recorded length, if non-zero, with the
      pattern of the state that recorded it. */
  function Answer(d: Automaton, matched: State, len: nat): (r: Option<Hit>)
    ensures r.Some? <==> len != 0
  {
    if len != 0 then Some(Hit(d.matchPattern(matched), len)) else None
  }

  /** The walk of `dfa_search_next` from byte `i` in state `state`, having last recorded
      length `len` (0 for none) in state `matched`. A match state met after byte `i` records
      length `i`; a dead state ends the walk; past the last byte the end-of-input transition
      may record the whole input. */
  ghost function WalkFrom(d: Automaton, input: seq<byte>, i: nat, state: State, matched: State, len: nat): (r: Option<Hit>)
    requires len <= i <= |input|
    ensures r.Some? ==> 1 <= r.value.len <= |input|
    decreases |input| - i
  {
    if i < |input| then
      var s := d.next(state, input[i]);
      if d.isMatch(s) then WalkFrom(d, input, i + 1, s, s, i)
      else if d.isDead(s) then Answer(d, matched, len)
      else WalkFrom(d, input, i + 1, s, matched, len)
    else
      var s := d.eoi(state);
      if d.isMatch(s) then Answer(d, s, i) else Answer(d, matched, len)
  }

  /** The whole walk, from the anchored start state with nothing recorded. */
  ghost function Walk(d: Automaton, input: seq<byte>): (r: Option<Hit>)
    ensures r.Some? ==> 1 <= r.value.len <= |input|
  {
    WalkFrom(d, input, 0, d.start, d.start, 0)
  }

  /** A dead state that is no match state after byte `i` ends the walk: nothing later is
      recorded, so the last length recorded before it is the answer. */
  lemma DeadStateEnds(d: Automaton, input: seq<byte>, i: nat, len: nat)
    requires i < |input| && Stops(d, input[..i + 1])
    requires len == (if i == 0 then 0 else LastRecorded(d, input, i - 1))
    ensures LastRecorded(d, input, |input|) == len
  {
    assert !d.isMatch(StateAt(d, input, i));
    forall j | i < j <= |input| ensures !Recorded(d, input, j) {
      assert !Reaches(d, input, j);
    }
    LastRecordedIs(d, input, |input|, len);
  }

  /** One byte further, when the walk does not stop there: the new state is the run of the
      longer prefix and the record moves to `i` exactly when that state is a match state. */
  lemma WalkStep(d: Automaton, input: seq<byte>, i: nat, state: State, len: nat)
    requires i < |input| && state == Run(d, input[..i]) && Reaches(d, input, i)
    requires len == (if i == 0 then 0 else LastRecorded(d, input, i - 1))
    requires !Stops(d, input[..i + 1])
    ensures d.next(state, input[i]) == Run(d, input[..i + 1]) == StateAt(d, input, i)
    ensures Reaches(d, input, i + 1)
    ensures LastRecorded(d, input, i) == if d.isMatch(d.next(state, input[i])) then i else len
  {
    assert input[..i + 1][..i] == input[..i];
  }

  /** Past the last byte, the end-of-input transition decides between the whole input and
      the last length recorded before. */
  lemma WalkEndsAsSearch(d: Automaton, input: seq<byte>, state: State, matched: State, len: nat)
    requires len <= |input| && state == Run(d, input) && Reaches(d, input, |input|)
    requires len == (if |input| == 0 then 0 else LastRecorded(d, input, |input| - 1))
    requires len != 0 ==> matched == StateAt(d, input, len)
    ensures WalkFrom(d, input, |input|, state, matched, len) == Search(d, input)
  {
    if !d.isMatch(d.eoi(state)) {
      LastRecordedIs(d, input, |input|, len);
    }
  }

  /** Every suffix of the walk reports `Search`, given the state and record of the bytes
      read so far. */
  lemma {:induction false} WalkFromIsSearch(d: Automaton, input: seq<byte>, i: nat, state: State, matched: State, len: nat)
    requires len <= i <= |input|
    requires state == Run(d, input[..i]) && Reaches(d, input, i)
    requires len == (if i == 0 then 0 else LastRecorded(d, input, i - 1))
    requires len != 0 ==> matched == StateAt(d, input, len)
    ensures WalkFrom(d, input, i, state, matched, len) == Search(d, input)
    decreases |input| - i
  {
    if i < |input| {
      var s := d.next(state, input[i]);
      if Stops(d, input[..i + 1]) {
        assert input[..i + 1][..i] == input[..i];
        DeadStateEnds(d, input, i, len);
      } else {
        WalkStep(d, input, i, state, len);
        if d.isMatch(s) {
          WalkFromIsSearch(d, input, i + 1, s, s, i);
        } else {
          WalkFromIsSearch(d, input, i + 1, s, matched, len);
        }
      }
    } else {
      assert input[..|input|] == input;
      WalkEndsAsSearch(d, input, state, matched, len);
    }
  }

  /** The walk computes `Search`. */
  lemma WalkIsSearch(d: Automaton, input: seq<byte>)
    ensures Walk(d, input) == Search(d, input)
  {
    WalkFromIsSearch(d, input, 0, d.start, d.start, 0);
  }

  /** `dfa_search_next`: walk from the anchored start state, remember the last match state
      and the length it stands for, leave at the first dead state, and finish with the
      end-of-input transition unless a dead state was met. */
  method SearchNext(d: Automaton, input: seq<byte>) returns (r: Option<Hit>)
    ensures r == Search(d, input)
  {
    WalkIsSearch(d, input);
    var state := d.start;
    var matchedState, matchedLen := d.start, 0;
    var i := 0;
    while i < |input|
      invariant matchedLen <= i <= |input|
      invariant WalkFrom(d, input, i, state, matchedState, matchedLen) == Walk(d, input)
    {
      state := d.next(state, input[i]);
      if d.isMatch(state) {
        matchedState, matchedLen := state, i;
      } else if d.isDead(state) {
        break;
      }
      i := i + 1;
    }
    if i == |input| {
      state := d.eoi(state);
      if d.isMatch(state) {
        matchedState, matchedLen := state, |input|;
      }
    }
    if matchedLen != 0 {
      r := Some(Hit(d.matchPattern(matchedState), matchedLen));
    } else {
      r := None;
    }
  }

  /** Below the stopping point, recording in `w + v` and in `w` agree. */
  lemma {:induction false} RecordedPrefix(d: Automaton, w: seq<byte>, v: seq<byte>, k: nat)
    requires |w| >= 1 && Stops(d, w) && k <= |w|
    ensures Recorded(d, w + v, k) <==> Recorded(d, w, k)
    ensures k == |w| ==> !Recorded(d, w, k)
  {
    var x := w + v;
    forall j | 1 <= j <= k ensures x[..j] == w[..j] { }
    if k < |w| {
      assert x[..k + 1] == w[..k + 1];
    } else {
      assert x[..|w|] == w && w[..|w|] == w;
      assert !Reaches(d, w, k) && !Reaches(d, x, k);
    }
  }

  /** Past the stopping point, `w + v` records nothing. */
  lemma {:induction false} RecordedBeyond(d: Automaton, w: seq<byte>, v: seq<byte>, k: nat)
    requires |w| >= 1 && Stops(d, w) && |w| < k <= |w + v|
    ensures !Recorded(d, w + v, k)
  {
    var x := w + v;
    assert x[..|w|] == w;
    assert !Stops(d, x[..|w|]) ==> false;
  }

  /** Once the walk stops on a dead state, the bytes after it are never read and the
      end-of-input transition is skipped: the result is that of the prefix read so far. */
  lemma {:induction false} StopIgnoresRest(d: Automaton, w: seq<byte>, v: seq<byte>)
    requires |w| >= 1 && Stops(d, w)
    ensures Search(d, w + v) == Search(d, w)
  {
    var x := w + v;
    var k0 := LastRecorded(d, w, |w|);
    forall j | k0 < j <= |x| ensures !Recorded(d, x, j) {
      if j <= |w| { RecordedPrefix(d, w, v, j); } else { RecordedBeyond(d, w, v, j); }
    }
    if k0 != 0 {
      RecordedPrefix(d, w, v, k0);
      assert k0 < |w|;
      assert x[..k0 + 1] == w[..k0 + 1];
    }
    LastRecordedIs(d, x, |x|, k0);
  }

  // ---------------------------------------------------------------------------------------
  // What the walk computes when the DFA is a correct multi-pattern DFA for a rule list.

  /** Some of the first `count` patterns matches all of `w`; `lang(p, w)` is the language of
      pattern `p`. */
  ghost predicate Matched(lang: (nat, seq<byte>) -> bool, count: nat, w: seq<byte>)
  {
    exists p: nat :: p < count && lang(p, w)
  }

  /** `p` is the first declared pattern that matches all of `w`. */
  ghost predicate Least(lang: (nat, seq<byte>) -> bool, count: nat, w: seq<byte>, p: nat)
  {
    p < count && lang(p, w) && forall q: nat :: q < p ==> !lang(q, w)
  }

  /** The contract of an anchored DFA built with "all matches" semantics from `count`
      patterns: a match of `w` is reported by the state after one more byte or by the
      end-of-input transition, a dead state means no extension can match, and the first
      pattern a match state reports is the first declared pattern that matches. */
  ghost predicate Recognizes(d: Automaton, lang: (nat, seq<byte>) -> bool, count: nat)
  {
    && (forall w :: |w| >= 1 ==> (d.isMatch(Run(d, w)) <==> Matched(lang, count, w[..|w| - 1])))
    && (forall w :: d.isMatch(d.eoi(Run(d, w))) <==> Matched(lang, count, w))
    && (forall w, u :: w <= u && d.isDead(Run(d, w)) ==> !Matched(lang, count, u))
    && (forall w :: |w| >= 1 && d.isMatch(Run(d, w)) ==>
          Least(lang, count, w[..|w| - 1], d.matchPattern(Run(d, w))))
    && (forall w :: d.isMatch(d.eoi(Run(d, w))) ==>
          Least(lang, count, w, d.matchPattern(d.eoi(Run(d, w)))))
  }

  /** For a correct DFA, the walk records exactly the prefix lengths some pattern matches. */
  lemma {:induction false} RecordedIffMatched(
    d: Automaton, lang: (nat, seq<byte>) -> bool, count: nat, input: seq<byte>, k: nat)
    requires Recognizes(d, lang, count) && k <= |input|
    ensures Recorded(d, input, k) <==> Matched(lang, count, input[..k])
    ensures Recorded(d, input, k) ==> Least(lang, count, input[..k], d.matchPattern(StateAt(d, input, k)))
  {
    if k < |input| {
      assert input[..k + 1][..k] == input[..k];
    } else {
      assert input[..k] == input;
    }
    if Matched(lang, count, input[..k]) {
      forall j | 1 <= j <= k ensures !Stops(d, input[..j]) {
        assert input[..j] <= input[..k];
      }
    }
  }

  /** Longest match, first rule on ties: for a correct DFA the walk returns the longest
      non-empty prefix some pattern matches, with the first declared pattern matching it,
      and `None` exactly when no non-empty prefix matches. */
  lemma LongestMatch(d: Automaton, lang: (nat, seq<byte>) -> bool, count: nat, input: seq<byte>)
    requires Recognizes(d, lang, count)
    ensures Search(d, input).None? <==> forall k :: 1 <= k <= |input| ==> !Matched(lang, count, input[..k])
    ensures Search(d, input).Some? ==>
              Least(lang, count, input[..Search(d, input).value.len], Search(d, input).value.pattern)
    ensures Search(d, input).Some? ==>
              forall k :: Search(d, input).value.len < k <= |input| ==> !Matched(lang, count, input[..k])
  {
    SearchMeaning(d, input);
    forall k: nat | k <= |input| ensures Recorded(d, input, k) <==> Matched(lang, count, input[..k]) {
      RecordedIffMatched(d, lang, count, input, k);
    }
    if Search(d, input).Some? {
      RecordedIffMatched(d, lang, count, input, Search(d, input).value.len);
    }
  }

  /** The converse reading of `LongestMatch`, for computing the walk on known inputs. */
  lemma SearchFinds(
    d: Automaton, lang: (nat, seq<byte>) -> bool, count: nat, input: seq<byte>, n: nat, p: nat)
    requires Recognizes(d, lang, count)
    requires 1 <= n <= |input| && Least(lang, count, input[..n], p)
    requires forall k :: n < k <= |input| ==> !Matched(lang, count, input[..k])
    ensures Search(d, input) == Some(Hit(p, n))
  {
    LongestMatch(d, lang, count, input);
    assert Search(d, input).Some? by {
      assert Matched(lang, count, input[..n]);
    }
    var h := Search(d, input).value;
    assert h.len <= n by {
      assert Least(lang, count, input[..h.len], h.pattern);
    }
    assert n <= h.len by {
      assert Matched(lang, count, input[..n]);
    }
    LeastUnique(lang, count, input[..n], h.pattern, p);
  }

  lemma LeastUnique(lang: (nat, seq<byte>) -> bool, count: nat, w: seq<byte>, p: nat, q: nat)
    requires Least(lang, count, w, p) && Least(lang, count, w, q)
    ensures p == q
  {
  }

  /** The walk finds nothing when no non-empty prefix matches. */
  lemma SearchFails(d: Automaton, lang: (nat, seq<byte>) -> bool, count: nat, input: seq<byte>)
    requires Recognizes(d, lang, count)
    requires forall k :: 1 <= k <= |input| ==> !Matched(lang, count, input[..k])
    ensures Search(d, input) == None
  {
    LongestMatch(d, lang, count, input);
  }
}
