/** The token iterator the derive macro emits (`next` of the generated `...Iterator`,
    lexi-matic-derive/src/lib.rs:148-193), over the rule list of `Derive` and an abstract
    DFA built from it. */
module Scan {

  import opened Wrappers
  import opened DfaSearch
  import Derive

  /** A `more` continuation: from the matched bytes and the rest of the input, how many more
      bytes belong to the token, or `None` for a lexical error. */
  type Continuation = (seq<byte>, seq<byte>) -> Option<nat>

  /** A generated lexer: the DFA over all patterns, one arm per variant (pattern ids at or
      above `|arms|` are skip patterns), and the functions the `more` names refer to. */
  datatype Lexer = Lexer(dfa: Automaton, arms: seq<Derive.Arm>, resolve: string -> Continuation)

  /** The variant and, for variants with fields, the matched text. */
  datatype Token = Token(variant: nat, text: Option<seq<byte>>)

  /** `Ok((start, token, end))` or `Err(lexi_matic::Error(at))`. */
  datatype LexItem = Ok(start: nat, token: Token, end: nat) | Err(at: nat)

  /** A continuation never claims more bytes than remain; the generated code would slice out
      of bounds otherwise. */
  ghost predicate Bounded(c: Continuation)
  {
    forall m, rest :: c(m, rest).Some? ==> c(m, rest).value <= |rest|
  }

  ghost predicate ContinuationsBounded(lx: Lexer)
  {
    forall i :: 0 <= i < |lx.arms| && lx.arms[i].more.Some? ==> Bounded(lx.resolve(lx.arms[i].more.value))
  }

  /** How many bytes the arm adds to a match of `matched` followed by `rest`. */
  function Extension(lx: Lexer, arm: Derive.Arm, matched: seq<byte>, rest: seq<byte>): Option<nat>
  {
    if arm.more.None? then Some(0) else lx.resolve(arm.more.value)(matched, rest)
  }

  /** From `a`, a sequence of skip-pattern matches ends exactly at `b`. */
  ghost predicate SkipChain(lx: Lexer, input: seq<byte>, a: nat, b: nat)
    requires a <= b <= |input|
    decreases b - a
  {
    a == b ||
    match Walk(lx.dfa, input[a..])
    case None => false
    case Some(h) => h.pattern >= |lx.arms| && a + h.len <= b && SkipChain(lx, input, a + h.len, b)
  }

  /** At `s` the DFA's match belongs to a variant, its continuation (if any) accepts, and the
      token ends at `e` and carries `input[s..e]` when the variant has fields. */
  ghost predicate TokenAt(lx: Lexer, input: seq<byte>, s: nat, t: Token, e: nat)
    requires s <= e <= |input|
  {
    s < |input| &&
    match Walk(lx.dfa, input[s..])
    case None => false
    case Some(h) =>
      h.pattern < |lx.arms| && t.variant == h.pattern && s + h.len <= e &&
      Extension(lx, lx.arms[h.pattern], input[s..s + h.len], input[s + h.len..]) == Some(e - s - h.len) &&
      t.text == (if lx.arms[h.pattern].hasFields then Some(input[s..e]) else None)
  }

  /** At `a` there is no match, or the match belongs to a variant whose continuation refuses. */
  ghost predicate FailsAt(lx: Lexer, input: seq<byte>, a: nat)
    requires a <= |input|
  {
    a < |input| &&
    match Walk(lx.dfa, input[a..])
    case None => true
    case Some(h) =>
      h.pattern < |lx.arms| &&
      Extension(lx, lx.arms[h.pattern], input[a..a + h.len], input[a + h.len..]) == None
  }

  lemma ExtensionBounded(lx: Lexer, i: nat, matched: seq<byte>, rest: seq<byte>)
    requires ContinuationsBounded(lx) && i < |lx.arms|
    ensures Extension(lx, lx.arms[i], matched, rest).Some? ==>
              Extension(lx, lx.arms[i], matched, rest).value <= |rest|
  {
    if lx.arms[i].more.Some? {
      assert Bounded(lx.resolve(lx.arms[i].more.value));
    }
  }

  /** The match arm of variant `h.pattern` for a match of `h.len` bytes at `pos`: an error at
      `pos` when the continuation refuses, otherwise the token and the cursor after it. */
  ghost function ArmItem(lx: Lexer, input: seq<byte>, pos: nat, h: Hit): (res: (Option<LexItem>, nat))
    requires ContinuationsBounded(lx) && h.pattern < |lx.arms| && 1 <= h.len && pos + h.len <= |input|
    ensures pos <= res.1 <= |input| && res.0.Some?
    ensures res.0.value.Ok? ==> pos == res.0.value.start < res.0.value.end == res.1
    ensures res.0.value.Err? <==>
              Extension(lx, lx.arms[h.pattern], input[pos..pos + h.len], input[pos + h.len..]).None?
    ensures res.0.value.Err? ==> res == (Some(Err(pos)), pos)
  {
    var arm := lx.arms[h.pattern];
    ExtensionBounded(lx, h.pattern, input[pos..pos + h.len], input[pos + h.len..]);
    match Extension(lx, arm, input[pos..pos + h.len], input[pos + h.len..])
    case None => (Some(Err(pos)), pos)
    case Some(k) =>
      var end := pos + h.len + k;
      (Some(Ok(pos, Token(h.pattern, if arm.hasFields then Some(input[pos..end]) else None), end)), end)
  }

  /** The specification of one call of `next` with the cursor at `pos`: the result and the
      new cursor. Skip matches are passed over; the first token, error or end is returned. */
  ghost function NextFrom(lx: Lexer, input: seq<byte>, pos: nat): (res: (Option<LexItem>, nat))
    requires pos <= |input| && ContinuationsBounded(lx)
    ensures pos <= res.1 <= |input|
    ensures res.0.Some? && res.0.value.Ok? ==> pos <= res.0.value.start < res.0.value.end == res.1
    decreases |input| - pos
  {
    if pos == |input| then (None, pos)
    else
      match Walk(lx.dfa, input[pos..])
      case None => (Some(Err(pos)), pos)
      case Some(h) =>
        if h.pattern < |lx.arms| then ArmItem(lx, input, pos, h)
        else NextFrom(lx, input, pos + h.len)
  }

  lemma SkipChainStep(lx: Lexer, input: seq<byte>, a: nat, h: Hit, b: nat)
    requires a < |input| && Walk(lx.dfa, input[a..]) == Some(h)
    requires h.pattern >= |lx.arms| && a + h.len <= b <= |input|
    requires SkipChain(lx, input, a + h.len, b)
    ensures SkipChain(lx, input, a, b)
  {
  }

  /** When `next` returns `None`, skip matches from the cursor cover the rest of the input. */
  lemma {:induction false} NextFromEnds(lx: Lexer, input: seq<byte>, pos: nat)
    requires pos <= |input| && ContinuationsBounded(lx)
    ensures var res := NextFrom(lx, input, pos);
            res.0.None? ==> res.1 == |input| && SkipChain(lx, input, pos, |input|)
    decreases |input| - pos
  {
    if pos < |input| {
      match Walk(lx.dfa, input[pos..])
      case None =>
      case Some(h) =>
        if h.pattern >= |lx.arms| {
          assert NextFrom(lx, input, pos) == NextFrom(lx, input, pos + h.len);
          NextFromEnds(lx, input, pos + h.len);
          var r := NextFrom(lx, input, pos + h.len);
          if r.0.None? {
            SkipChainStep(lx, input, pos, h, |input|);
          }
        }
    }
  }

  /** A skip match at the cursor is passed over. */
  lemma NextFromSkip(lx: Lexer, input: seq<byte>, pos: nat, h: Hit)
    requires pos < |input| && ContinuationsBounded(lx)
    requires Walk(lx.dfa, input[pos..]) == Some(h) && h.pattern >= |lx.arms|
    ensures pos + h.len <= |input| && NextFrom(lx, input, pos) == NextFrom(lx, input, pos + h.len)
  {
  }

  /** An error at the cursor itself: nothing matches there, or the arm's continuation
      refuses. */
  lemma FailsHere(lx: Lexer, input: seq<byte>, pos: nat, a: nat)
    requires pos <= |input| && ContinuationsBounded(lx)
    requires NextFrom(lx, input, pos).0 == Some(Err(a))
    requires Walk(lx.dfa, input[pos..]).None? || Walk(lx.dfa, input[pos..]).value.pattern < |lx.arms|
    ensures a == pos && NextFrom(lx, input, pos).1 == pos && FailsAt(lx, input, pos)
  {
    assert pos < |input|;
    if Walk(lx.dfa, input[pos..]).Some? {
      var h := Walk(lx.dfa, input[pos..]).value;
      assert NextFrom(lx, input, pos) == ArmItem(lx, input, pos, h);
    }
  }

  /** When `next` returns an error at `a`, skip matches lead from the cursor to `a`, where
      nothing matches or the continuation refuses; the cursor stays at `a`. */
  lemma {:induction false} NextFromFails(lx: Lexer, input: seq<byte>, pos: nat, a: nat)
    requires pos <= |input| && ContinuationsBounded(lx)
    requires NextFrom(lx, input, pos).0 == Some(Err(a))
    ensures a <= |input| && NextFrom(lx, input, pos).1 == a
    ensures pos <= a && SkipChain(lx, input, pos, a) && FailsAt(lx, input, a)
    decreases |input| - pos
  {
    var found := Walk(lx.dfa, input[pos..]);
    if found.Some? && found.value.pattern >= |lx.arms| {
      assert pos < |input|;
      var h := found.value;
      NextFromSkip(lx, input, pos, h);
      NextFromFails(lx, input, pos + h.len, a);
      SkipChainStep(lx, input, pos, h, a);
    } else {
      FailsHere(lx, input, pos, a);
    }
  }

  /** A token that starts at the cursor itself is the one the match there and its
      continuation give. */
  lemma TokenHere(lx: Lexer, input: seq<byte>, pos: nat, s: nat, t: Token, e: nat)
    requires pos <= |input| && ContinuationsBounded(lx)
    requires NextFrom(lx, input, pos).0 == Some(Ok(s, t, e))
    requires Walk(lx.dfa, input[pos..]).None? || Walk(lx.dfa, input[pos..]).value.pattern < |lx.arms|
    ensures s == pos < e <= |input| && NextFrom(lx, input, pos).1 == e && TokenAt(lx, input, s, t, e)
  {
    assert pos < |input|;
    var h := Walk(lx.dfa, input[pos..]).value;
    assert NextFrom(lx, input, pos) == ArmItem(lx, input, pos, h);
  }

  /** When `next` returns a token from `s` to `e`, skip matches lead from the cursor to `s`,
      the token is the one the match at `s` and its continuation give, and the cursor moves
      to `e`. */
  lemma {:induction false} NextFromToken(lx: Lexer, input: seq<byte>, pos: nat, s: nat, t: Token, e: nat)
    requires pos <= |input| && ContinuationsBounded(lx)
    requires NextFrom(lx, input, pos).0 == Some(Ok(s, t, e))
    ensures pos <= s < e <= |input| && NextFrom(lx, input, pos).1 == e
    ensures SkipChain(lx, input, pos, s) && TokenAt(lx, input, s, t, e)
    decreases |input| - pos
  {
    var found := Walk(lx.dfa, input[pos..]);
    if found.Some? && found.value.pattern >= |lx.arms| {
      assert pos < |input|;
      var h := found.value;
      NextFromSkip(lx, input, pos, h);
      NextFromToken(lx, input, pos + h.len, s, t, e);
      SkipChainStep(lx, input, pos, h, s);
    } else {
      TokenHere(lx, input, pos, s, t, e);
    }
  }

  /** An error leaves the cursor where the error is, so the next call reports it again. */
  lemma ErrorRepeats(lx: Lexer, input: seq<byte>, pos: nat, a: nat)
    requires pos <= |input| && ContinuationsBounded(lx)
    requires NextFrom(lx, input, pos).0 == Some(Err(a))
    ensures a <= |input| && NextFrom(lx, input, a) == (Some(Err(a)), a)
  {
    NextFromFails(lx, input, pos, a);
    assert FailsAt(lx, input, a);
  }

  /** The items one iterator yields from `pos` until it returns `None` or its first error
      (after an error it would repeat that error forever). */
  ghost function Drain(lx: Lexer, input: seq<byte>, pos: nat): seq<LexItem>
    requires pos <= |input| && ContinuationsBounded(lx)
    decreases |input| - pos
  {
    var res := NextFrom(lx, input, pos);
    match res.0
    case None => []
    case Some(Err(a)) => [Err(a)]
    case Some(Ok(s, t, e)) => [Ok(s, t, e)] + Drain(lx, input, e)
  }

  /** `items` split the input from `pos` on: each token is preceded by skip matches, the
      list ends either with an error at a position skip matches lead to, or with skip
      matches up to the end of the input. */
  ghost predicate Tiles(lx: Lexer, input: seq<byte>, pos: nat, items: seq<LexItem>)
    requires pos <= |input|
    decreases |items|
  {
    if items == [] then SkipChain(lx, input, pos, |input|)
    else match items[0]
      case Err(a) => |items| == 1 && pos <= a <= |input| && SkipChain(lx, input, pos, a) && FailsAt(lx, input, a)
      case Ok(s, t, e) =>
        pos <= s <= e <= |input| && SkipChain(lx, input, pos, s) && TokenAt(lx, input, s, t, e) &&
        Tiles(lx, input, e, items[1..])
  }

  /** Coverage and contiguity: what the iterator yields tiles the input, with nothing but
      skip matches between consecutive tokens. */
  lemma {:induction false} DrainTiles(lx: Lexer, input: seq<byte>, pos: nat)
    requires pos <= |input| && ContinuationsBounded(lx)
    ensures Tiles(lx, input, pos, Drain(lx, input, pos))
    decreases |input| - pos
  {
    var res := NextFrom(lx, input, pos);
    match res.0
    case None =>
      NextFromEnds(lx, input, pos);
    case Some(Err(a)) =>
      NextFromFails(lx, input, pos, a);
    case Some(Ok(s, t, e)) =>
      NextFromToken(lx, input, pos, s, t, e);
      DrainTiles(lx, input, e);
      assert Drain(lx, input, pos)[1..] == Drain(lx, input, e);
  }

  /** For a DFA that recognizes the rule list, a token starts with the longest non-empty
      prefix any pattern matches at its start, its variant is the first declared pattern
      matching that prefix, and without a `more` continuation it is exactly that prefix. */
  lemma TokenIsLongestMatch(
    lx: Lexer, lang: (nat, seq<byte>) -> bool, count: nat, input: seq<byte>, s: nat, t: Token, e: nat)
    requires Recognizes(lx.dfa, lang, count)
    requires s <= e <= |input| && TokenAt(lx, input, s, t, e)
    ensures t.variant < |lx.arms|
    ensures exists n: nat :: 1 <= n <= e - s &&
              Least(lang, count, input[s..][..n], t.variant) &&
              (forall k :: n < k <= |input| - s ==> !Matched(lang, count, input[s..][..k])) &&
              (lx.arms[t.variant].more.None? ==> n == e - s)
  {
    WalkIsSearch(lx.dfa, input[s..]);
    LongestMatch(lx.dfa, lang, count, input[s..]);
    var h := Walk(lx.dfa, input[s..]).value;
    assert 1 <= h.len <= e - s && Least(lang, count, input[s..][..h.len], t.variant);
  }

  /** For a DFA that recognizes the rule list, an error at `a` where no `more` refuses means
      that no pattern matches any non-empty prefix of the input at `a`. */
  lemma FailureIsNoMatch(
    lx: Lexer, lang: (nat, seq<byte>) -> bool, count: nat, input: seq<byte>, a: nat)
    requires Recognizes(lx.dfa, lang, count)
    requires a <= |input| && FailsAt(lx, input, a)
    requires forall i :: 0 <= i < |lx.arms| ==> lx.arms[i].more.None?
    ensures a < |input|
    ensures forall k :: 1 <= k <= |input| - a ==> !Matched(lang, count, input[a..][..k])
  {
    WalkIsSearch(lx.dfa, input[a..]);
    LongestMatch(lx.dfa, lang, count, input[a..]);
  }

  /** The generated `...Iterator`: the input and how much of it has been consumed. */
  class LexIterator {
    const lx: Lexer
    const input: seq<byte>
    var consumed: nat

    ghost predicate Valid()
      reads this
    {
      consumed <= |input| && ContinuationsBounded(lx)
    }

    /** `Lexer::lex`: a fresh iterator at the start of the input. */
    constructor (lx: Lexer, input: seq<byte>)
      requires ContinuationsBounded(lx)
      ensures Valid() && this.lx == lx && this.input == input && consumed == 0
    {
      this.lx := lx;
      this.input := input;
      consumed := 0;
    }

    /** `next`: pass over skip matches, then return the end of input, an error at the
        cursor, or the next token, moving the cursor to the token's end. */
    method Next() returns (r: Option<LexItem>)
      requires Valid()
      modifies this
      ensures Valid()
      ensures (r, consumed) == NextFrom(lx, input, old(consumed))
    {
      var pos;
      r, pos := NextAt(lx, input, consumed);
      consumed := pos;
    }
  }

  /** The loop of `next`, from the cursor `pos`. */
  method NextAt(lx: Lexer, input: seq<byte>, pos: nat) returns (r: Option<LexItem>, cursor: nat)
    requires pos <= |input| && ContinuationsBounded(lx)
    ensures (r, cursor) == NextFrom(lx, input, pos)
  {
    cursor := pos;
    while true
      invariant cursor <= |input|
      invariant NextFrom(lx, input, cursor) == NextFrom(lx, input, pos)
      decreases |input| - cursor
    {
      var start := cursor;
      var remaining := input[cursor..];
      if remaining == [] {
        return None, cursor;
      }
      var found := SearchNext(lx.dfa, remaining);
      WalkIsSearch(lx.dfa, remaining);
      if found.None? {
        return Some(Err(start)), cursor;
      }
      var h := found.value;
      if h.pattern < |lx.arms| {
        r, cursor := Emit(lx, input, start, h);
        return;
      }
      cursor := cursor + h.len;
    }
  }

  /** One arm of the `match` in `next`: run the variant's `more` continuation, if any, and
      build the token from `start`; an error leaves the cursor at `start`. */
  method Emit(lx: Lexer, input: seq<byte>, start: nat, h: Hit) returns (r: Option<LexItem>, cursor: nat)
    requires start < |input| && ContinuationsBounded(lx)
    requires Walk(lx.dfa, input[start..]) == Some(h) && h.pattern < |lx.arms|
    ensures (r, cursor) == NextFrom(lx, input, start)
  {
    var remaining := input[start..];
    var arm := lx.arms[h.pattern];
    var len := h.len;
    assert remaining[..len] == input[start..start + len];
    assert remaining[len..] == input[start + len..];
    var more := Extension(lx, arm, remaining[..len], remaining[len..]);
    if more.None? {
      return Some(Err(start)), start;
    }
    ExtensionBounded(lx, h.pattern, remaining[..len], remaining[len..]);
    len := len + more.value;
    assert remaining[..len] == input[start..start + len];
    var t := Token(h.pattern, if arm.hasFields then Some(remaining[..len]) else None);
    return Some(Ok(start, t, start + len)), start + len;
  }
}
