/** The Python-style indentation post-processor of tests/indentation_sensitive.rs: it turns
    the raw tokens of a small lexer into tokens with `Indent` and `Dedent`, keeping a stack
    of indentation levels, a count of open brackets (inside which line breaks are ignored)
    and a queue of tokens still to be returned.

    The misaligned-dedent branch is modelled twice: `AsWritten` follows
    tests/indentation_sensitive.rs:116, which pops one level more than the dedents it
    emits when levels remain below the new one; `Corrected` leaves that pop out, and is
    the revision the balance theorem is about. */
module IndentationSensitive {

  import opened Wrappers
  import R = RawStream

  datatype RawToken =
    | Indent(text: string)       // "\n *"
    | Whitespace(text: string)   // " +"
    | LBracket
    | RBracket
    | Comma
    | Identifier(text: string)

  datatype Token =
    | Indent
    | Dedent
    | Identifier(text: string)
    | LBracket
    | RBracket
    | Comma

  datatype Error = MisalignedIndentation(at: nat) | LexicalError(at: nat)

  datatype Item = Ok(token: Token) | Err(error: Error)

  datatype Revision = AsWritten | Corrected

  datatype IterState = IterState(
    pos: nat,             // cursor into the raw stream
    intents: seq<nat>,    // the indentation levels of the open blocks, innermost last
    brackets: nat,        // `[` seen minus `]` seen, never below zero
    queue: seq<Token>)    // tokens to return before reading more raw tokens

  const Initial := IterState(0, [], 0, [])

  /** The raw lexer's guarantees: a well-formed stream, indentation tokens contain at
      least their line break and whitespace tokens at least one space. */
  ghost predicate ValidRaw(raw: R.Stream<RawToken>)
  {
    R.WellFormed(raw) &&
    forall i :: 0 <= i < |raw.toks| ==>
      (raw.toks[i].tok.Indent? || raw.toks[i].tok.Whitespace?) ==> |raw.toks[i].tok.text| >= 1
  }

  /** From token `i` on, the text of every `Indent` and `Whitespace` token is non-empty:
      a check that unfolds on a stream written out token by token. */
  predicate TextsNonEmpty(toks: seq<R.Spanned<RawToken>>, i: nat)
    decreases |toks| - i
  {
    i >= |toks| ||
    (((toks[i].tok.Indent? || toks[i].tok.Whitespace?) ==> |toks[i].tok.text| >= 1) && TextsNonEmpty(toks, i + 1))
  }

  lemma {:induction false} TextsOfRest(toks: seq<R.Spanned<RawToken>>, i: nat)
    requires TextsNonEmpty(toks, i)
    ensures forall j :: i <= j < |toks| ==>
      (toks[j].tok.Indent? || toks[j].tok.Whitespace?) ==> |toks[j].tok.text| >= 1
    decreases |toks| - i
  {
    if i < |toks| {
      TextsOfRest(toks, i + 1);
    }
  }

  /** A stream written out token by token that passes both checks is valid. */
  lemma ValidRawOf(toks: seq<R.Spanned<RawToken>>)
    requires R.InOrderFrom(toks, 0, 0) && TextsNonEmpty(toks, 0)
    ensures ValidRaw(R.Stream(toks, None))
  {
    R.InOrderWellFormed(toks, 0, 0);
    TextsOfRest(toks, 0);
  }

  /** `Vec::pop`, which leaves an empty stack empty. */
  function Pop(s: seq<nat>): (r: seq<nat>)
    ensures r <= s && |r| == if s == [] then 0 else |s| - 1
  {
    if s == [] then [] else s[..|s| - 1]
  }

  /** `self.intents.last().cloned().unwrap_or_default()`. */
  function Top(s: seq<nat>): (t: nat)
    ensures s != [] ==> t == s[|s| - 1]
    ensures s == [] ==> t == 0
  {
    if s == [] then 0 else s[|s| - 1]
  }

  /** The inner dedent loop, after the first pop: pop levels above `level`, queueing a
      `Dedent` each, until a level equal to `level` (return `Dedent`) or below it
      (misaligned: queue `Dedent` and `Indent`, make `level` the innermost level and
      report the error at `at`). */
  function DedentLoop(intents: seq<nat>, level: nat, q: seq<Token>, at: nat, rev: Revision)
    : (r: (seq<nat>, seq<Token>, Item))
    decreases |intents|
  {
    var last := Top(intents);
    if level > last then
      var kept := if rev == AsWritten then Pop(intents) else intents;
      (kept + [level], q + [Dedent, Token.Indent], Err(MisalignedIndentation(at)))
    else if level == last then (intents, q, Ok(Dedent))
    else DedentLoop(Pop(intents), level, q + [Dedent], at, rev)
  }

  /** The outcome of one raw token: carry on with the loop, or return from `next`. */
  datatype Step = Continue(st: IterState) | Return(r: Option<Item>, st: IterState)

  /** An indentation token of `text` at offset `at`, with the cursor already past it. */
  function OnIndentStep(raw: R.Stream<RawToken>, text: string, at: nat, st: IterState, rev: Revision): Step
    requires |text| >= 1
  {
    var peeked := R.ItemAt(raw, st.pos);
    if st.brackets > 0 then Continue(st)
    else if peeked.Some? && peeked.value.Token? &&
            (peeked.value.sp.tok.Indent? || peeked.value.sp.tok.Whitespace?) then Continue(st)
    else
      var level := |text| - 1;
      var last := Top(st.intents);
      if level > last then Return(Some(Ok(Token.Indent)), st.(intents := st.intents + [level]))
      else if level == last then Continue(st)
      else
        var d := DedentLoop(Pop(st.intents), level, st.queue, at, rev);
        Return(Some(d.2), st.(intents := d.0, queue := d.1))
  }

  /** One iteration of the loop in `next`, on the raw token under the cursor. */
  function Consume(raw: R.Stream<RawToken>, st: IterState, rev: Revision): (s: Step)
    requires ValidRaw(raw) && st.pos < |raw.toks|
    ensures s.st.pos == st.pos + 1
  {
    var sp := raw.toks[st.pos];
    var st1 := st.(pos := st.pos + 1);
    match sp.tok
    case Whitespace(w) =>
      if sp.l == 0 then Return(Some(Ok(Token.Indent)), st1.(intents := st1.intents + [|w|]))
      else Continue(st1)
    case Indent(text) => OnIndentStep(raw, text, sp.l, st1, rev)
    case LBracket => Return(Some(Ok(Token.LBracket)), st1.(brackets := st1.brackets + 1))
    case RBracket =>
      Return(Some(Ok(Token.RBracket)), st1.(brackets := if st1.brackets == 0 then 0 else st1.brackets - 1))
    case Comma => Return(Some(Ok(Token.Comma)), st1)
    case Identifier(x) => Return(Some(Ok(Token.Identifier(x))), st1)
  }

  /** The end of the raw stream: its error, or one `Dedent` per open level (the first
      returned, the others queued) and then `None`. */
  function AtEnd(raw: R.Stream<RawToken>, st: IterState): (Option<Item>, IterState)
  {
    if raw.fail.Some? then (Some(Err(LexicalError(raw.fail.value))), st)
    else if st.intents != [] then
      (Some(Ok(Dedent)), st.(intents := [], queue := st.queue + Repeat(Dedent, |st.intents| - 1)))
    else (None, st)
  }

  /** The `loop` of `next`. */
  function Loop(raw: R.Stream<RawToken>, st: IterState, rev: Revision): (res: (Option<Item>, IterState))
    requires ValidRaw(raw) && st.pos <= |raw.toks|
    ensures st.pos <= res.1.pos <= |raw.toks|
    decreases |raw.toks| - st.pos
  {
    if st.pos == |raw.toks| then AtEnd(raw, st)
    else match Consume(raw, st, rev)
      case Continue(st') => Loop(raw, st', rev)
      case Return(r, st') => (r, st')
  }

  /** `next`: a queued token first, otherwise the loop. */
  function NextSpec(raw: R.Stream<RawToken>, st: IterState, rev: Revision): (res: (Option<Item>, IterState))
    requires ValidRaw(raw) && st.pos <= |raw.toks|
    ensures st.pos <= res.1.pos <= |raw.toks|
  {
    if st.queue != [] then (Some(Ok(st.queue[0])), st.(queue := st.queue[1..]))
    else Loop(raw, st, rev)
  }

  /** The results of `n` calls of `next`. */
  function Outputs(raw: R.Stream<RawToken>, st: IterState, rev: Revision, n: nat): (out: seq<Option<Item>>)
    requires ValidRaw(raw) && st.pos <= |raw.toks|
    ensures |out| == n
    decreases n
  {
    if n == 0 then []
    else
      var res := NextSpec(raw, st, rev);
      [res.0] + Outputs(raw, res.1, rev, n - 1)
  }

  /** The state after `n` calls of `next`. */
  function After(raw: R.Stream<RawToken>, st: IterState, rev: Revision, n: nat): (st': IterState)
    requires ValidRaw(raw) && st.pos <= |raw.toks|
    ensures st'.pos <= |raw.toks|
    decreases n
  {
    if n == 0 then st else After(raw, NextSpec(raw, st, rev).1, rev, n - 1)
  }

  /** `a + b` calls are `a` calls and then `b` more from where those left off. */
  lemma {:induction false} OutputsSplit(raw: R.Stream<RawToken>, st: IterState, rev: Revision, a: nat, b: nat)
    requires ValidRaw(raw) && st.pos <= |raw.toks|
    ensures Outputs(raw, st, rev, a + b) == Outputs(raw, st, rev, a) + Outputs(raw, After(raw, st, rev, a), rev, b)
    decreases a
  {
    if a > 0 {
      var res := NextSpec(raw, st, rev);
      OutputsSplit(raw, res.1, rev, a - 1, b);
      assert a + b - 1 == (a - 1) + b;
    }
  }

  // ---------------------------------------------------------------------------------------
  // The stack of levels.

  /** The levels of the open blocks are positive and strictly increasing, and before the
      first raw token nothing is open or queued. */
  ghost predicate Inv(st: IterState)
  {
    && Levels(st.intents)
    && (st.pos == 0 ==> st.intents == [] && st.brackets == 0 && st.queue == [])
  }

  ghost predicate Levels(s: seq<nat>)
  {
    Increasing(s) && forall i :: 0 <= i < |s| ==> s[i] > 0
  }

  ghost predicate Increasing(s: seq<nat>)
  {
    forall i, j :: 0 <= i < j < |s| ==> s[i] < s[j]
  }

  /** What the inner dedent loop does, given the number `m` of levels kept. */
  ghost predicate Dedented(intents: seq<nat>, level: nat, q: seq<Token>, at: nat, rev: Revision,
                           d: (seq<nat>, seq<Token>, Item), m: nat)
  {
    && m <= |intents|
    && (forall i :: 0 <= i < m ==> intents[i] <= level)
    && (forall i :: m <= i < |intents| ==> intents[i] > level)
    && (d.2.Ok? <==> level == Top(intents[..m]))
    && (d.2.Ok? ==> d.2 == Ok(Dedent) && d.0 == intents[..m] &&
                    d.1 == q + Repeat(Dedent, |intents| - m))
    && (d.2.Err? ==> d.2 == Err(MisalignedIndentation(at)) &&
                     d.0 == (if rev == AsWritten then Pop(intents[..m]) else intents[..m]) + [level] &&
                     d.1 == q + Repeat(Dedent, |intents| - m) + [Dedent, Token.Indent])
  }

  /** The inner dedent loop on increasing levels: with `m` the number of levels at or below
      `level`, the levels above it are popped with one queued `Dedent` each; the loop
      returns `Dedent` exactly when `level` is then the innermost level (or 0 with no level
      left), and otherwise reports the misalignment, queues `Dedent` and `Indent` and makes
      `level` the innermost level, on top of the `m` levels kept (as corrected) or of all
      of them but the last (as written). */
  lemma {:induction false} DedentLoopMeaning(intents: seq<nat>, level: nat, q: seq<Token>, at: nat, rev: Revision)
    requires Increasing(intents)
    ensures exists m: nat :: Dedented(intents, level, q, at, rev, DedentLoop(intents, level, q, at, rev), m)
    decreases |intents|
  {
    var d := DedentLoop(intents, level, q, at, rev);
    if level >= Top(intents) {
      AllAtMost(intents, level);
      assert intents[..|intents|] == intents;
      assert Repeat(Dedent, 0) == [];
      assert Dedented(intents, level, q, at, rev, d, |intents|);
    } else {
      var p := Pop(intents);
      DedentLoopMeaning(p, level, q + [Dedent], at, rev);
      var m: nat :| Dedented(p, level, q + [Dedent], at, rev, d, m);
      DedentedStep(intents, level, q, at, rev, d, m);
    }
  }

  lemma AllAtMost(intents: seq<nat>, level: nat)
    requires Increasing(intents) && level >= Top(intents)
    ensures forall i :: 0 <= i < |intents| ==> intents[i] <= level
  {
    forall i | 0 <= i < |intents| ensures intents[i] <= level {
      if i < |intents| - 1 { assert intents[i] < intents[|intents| - 1]; }
    }
  }

  lemma DedentedStep(intents: seq<nat>, level: nat, q: seq<Token>, at: nat, rev: Revision,
                     d: (seq<nat>, seq<Token>, Item), m: nat)
    requires intents != [] && level < Top(intents)
    requires Dedented(Pop(intents), level, q + [Dedent], at, rev, d, m)
    ensures Dedented(intents, level, q, at, rev, d, m)
  {
    var p := Pop(intents);
    assert p == intents[..|intents| - 1];
    assert p[..m] == intents[..m];
    assert [Dedent] + Repeat(Dedent, |p| - m) == Repeat(Dedent, |intents| - m);
    assert q + [Dedent] + Repeat(Dedent, |p| - m) == q + Repeat(Dedent, |intents| - m);
  }

  /** The levels the inner dedent loop leaves are still positive and increasing. */
  lemma DedentKeepsInv(intents: seq<nat>, level: nat, q: seq<Token>, at: nat, rev: Revision)
    requires Levels(intents)
    ensures Levels(DedentLoop(intents, level, q, at, rev).0)
  {
    DedentLoopMeaning(intents, level, q, at, rev);
    var d := DedentLoop(intents, level, q, at, rev);
    var m: nat :| Dedented(intents, level, q, at, rev, d, m);
    var kept := intents[..m];
    PrefixLevels(intents, m);
    if d.2.Err? {
      assert Top(kept) < level by {
        if m > 0 {
          assert kept[m - 1] == intents[m - 1] <= level;
        }
      }
      PopLevels(kept);
      var k := if rev == AsWritten then Pop(kept) else kept;
      PushLevels(k, level);
    }
  }

  lemma PrefixLevels(s: seq<nat>, m: nat)
    requires Levels(s) && m <= |s|
    ensures Levels(s[..m])
  {
  }

  lemma PopLevels(s: seq<nat>)
    requires Levels(s)
    ensures Levels(Pop(s)) && Top(Pop(s)) <= Top(s)
  {
    if |s| >= 2 {
      assert Pop(s)[|s| - 2] == s[|s| - 2] < s[|s| - 1];
    }
  }

  lemma PushLevels(s: seq<nat>, level: nat)
    requires Levels(s) && Top(s) < level
    ensures Levels(s + [level])
  {
    forall i | 0 <= i < |s| ensures s[i] < level {
      if i < |s| - 1 { assert s[i] < s[|s| - 1]; }
    }
  }

  /** `next` keeps the levels positive and strictly increasing, on either revision. */
  lemma {:induction false} NextKeepsInv(raw: R.Stream<RawToken>, st: IterState, rev: Revision)
    requires ValidRaw(raw) && st.pos <= |raw.toks| && Inv(st)
    ensures Inv(NextSpec(raw, st, rev).1)
  {
    if st.queue == [] {
      LoopKeepsInv(raw, st, rev);
    }
  }

  lemma {:induction false} LoopKeepsInv(raw: R.Stream<RawToken>, st: IterState, rev: Revision)
    requires ValidRaw(raw) && st.pos <= |raw.toks| && Inv(st)
    ensures Inv(Loop(raw, st, rev).1)
    decreases |raw.toks| - st.pos
  {
    if st.pos < |raw.toks| {
      var c := Consume(raw, st, rev);
      ConsumeKeepsInv(raw, st, rev);
      if c.Continue? {
        LoopKeepsInv(raw, c.st, rev);
      }
    }
  }

  lemma ConsumeKeepsInv(raw: R.Stream<RawToken>, st: IterState, rev: Revision)
    requires ValidRaw(raw) && st.pos < |raw.toks| && Inv(st)
    ensures Inv(Consume(raw, st, rev).st)
  {
    var sp := raw.toks[st.pos];
    match sp.tok
    case Whitespace(w) =>
      if st.pos > 0 {
        LaterTokensStartLater(raw, st.pos);
      }
    case Indent(text) =>
      OnIndentKeepsLevels(raw, text, sp.l, st.(pos := st.pos + 1), rev);
    case _ =>
  }

  /** Only the first raw token can start at offset 0. */
  lemma LaterTokensStartLater(raw: R.Stream<RawToken>, i: nat)
    requires ValidRaw(raw) && 0 < i < |raw.toks|
    ensures raw.toks[i].l > 0
  {
    assert raw.toks[i - 1].l < raw.toks[i - 1].r <= raw.toks[i].l;
  }

  lemma OnIndentKeepsLevels(raw: R.Stream<RawToken>, text: string, at: nat, st: IterState, rev: Revision)
    requires |text| >= 1 && Levels(st.intents)
    ensures Levels(OnIndentStep(raw, text, at, st, rev).st.intents)
  {
    var level := |text| - 1;
    if level < Top(st.intents) {
      var p := Pop(st.intents);
      assert p == st.intents[..|st.intents| - 1];
      DedentKeepsInv(p, level, st.queue, at, rev);
    }
  }

  // ---------------------------------------------------------------------------------------
  // Brackets.

  /** With a bracket open, `next` never returns `Indent`, and returns `Dedent` only once
      the raw stream is used up; unless it returns `Dedent`, it leaves the levels alone. */
  lemma {:induction false} InsideBrackets(raw: R.Stream<RawToken>, st: IterState, rev: Revision)
    requires ValidRaw(raw) && st.pos <= |raw.toks| && Inv(st)
    requires st.queue == [] && st.brackets > 0
    ensures var res := Loop(raw, st, rev);
            res.0 != Some(Ok(Token.Indent)) &&
            (res.0 != Some(Ok(Dedent)) ==> res.1.intents == st.intents) &&
            (res.0 == Some(Ok(Dedent)) ==> res.1.pos == |raw.toks|)
    decreases |raw.toks| - st.pos
  {
    if st.pos < |raw.toks| {
      var c := Consume(raw, st, rev);
      var sp := raw.toks[st.pos];
      if c.Continue? {
        assert c.st == st.(pos := st.pos + 1) by {
          match sp.tok
          case Indent(_) =>
          case _ =>
        }
        ConsumeKeepsInv(raw, st, rev);
        InsideBrackets(raw, c.st, rev);
      } else {
        match sp.tok
        case Whitespace(w) =>
          LaterTokensStartLater(raw, st.pos);
        case _ =>
      }
    }
  }

  // ---------------------------------------------------------------------------------------
  // End of input.

  /** With `k` dedents queued, nothing open and the raw stream ended without error, the
      next `k` calls return those dedents and the one after returns `None`. */
  lemma {:induction false} QueuedDedents(raw: R.Stream<RawToken>, st: IterState, rev: Revision, k: nat)
    requires ValidRaw(raw) && st.pos == |raw.toks| && raw.fail.None?
    requires st.intents == [] && st.queue == Repeat(Dedent, k)
    ensures Outputs(raw, st, rev, k + 1) == Repeat(Some(Ok(Dedent)), k) + [None]
    decreases k
  {
    if k == 0 {
      assert Outputs(raw, st, rev, 1) == [None] + Outputs(raw, st, rev, 0);
    } else {
      var st' := st.(queue := st.queue[1..]);
      assert NextSpec(raw, st, rev) == (Some(Ok(Dedent)), st');
      assert st.queue[1..] == Repeat(Dedent, k - 1);
      QueuedDedents(raw, st', rev, k - 1);
      RepeatCons(Some(Ok(Dedent)), k - 1);
    }
  }

  /** At the end of the raw stream with nothing queued: the lexical error, again on every
      call; or one `Dedent` per open level and then `None`. */
  lemma EndOfInput(raw: R.Stream<RawToken>, st: IterState, rev: Revision)
    requires ValidRaw(raw) && st.pos == |raw.toks| && st.queue == []
    ensures raw.fail.Some? ==> NextSpec(raw, st, rev) == (Some(Err(LexicalError(raw.fail.value))), st)
    ensures raw.fail.None? ==>
              Outputs(raw, st, rev, |st.intents| + 1) == Repeat(Some(Ok(Dedent)), |st.intents|) + [None]
  {
    if raw.fail.None? {
      if st.intents == [] {
        assert Outputs(raw, st, rev, 1) == [None] + Outputs(raw, st, rev, 0);
      } else {
        ClosingDedents(raw, st, rev);
      }
    }
  }

  lemma CloseAll(raw: R.Stream<RawToken>, st: IterState, rev: Revision)
    requires ValidRaw(raw) && st.pos == |raw.toks| && st.queue == [] && raw.fail.None? && st.intents != []
    ensures NextSpec(raw, st, rev) == (Some(Ok(Dedent)), st.(intents := [], queue := Repeat(Dedent, |st.intents| - 1)))
  {
    assert st.queue + Repeat(Dedent, |st.intents| - 1) == Repeat(Dedent, |st.intents| - 1);
  }

  lemma ClosingDedents(raw: R.Stream<RawToken>, st: IterState, rev: Revision)
    requires ValidRaw(raw) && st.pos == |raw.toks| && st.queue == [] && raw.fail.None? && st.intents != []
    ensures Outputs(raw, st, rev, |st.intents| + 1) == Repeat(Some(Ok(Dedent)), |st.intents|) + [None]
  {
    var n := |st.intents|;
    var st' := st.(intents := [], queue := Repeat(Dedent, n - 1));
    CloseAll(raw, st, rev);
    assert Outputs(raw, st, rev, n + 1) == [Some(Ok(Dedent))] + Outputs(raw, st', rev, n);
    QueuedDedents(raw, st', rev, n - 1);
    RepeatCons(Some(Ok(Dedent)), n - 1);
  }

  // ---------------------------------------------------------------------------------------
  // Balance of indents and dedents.

  /** Dedents queued minus indents queued. */
  function Pending(q: seq<Token>): (c: int)
    ensures q == [] ==> c == 0
  {
    if q == [] then 0
    else (if q[0] == Dedent then 1 else if q[0] == Token.Indent then -1 else 0) + Pending(q[1..])
  }

  lemma {:induction false} PendingAppend(a: seq<Token>, b: seq<Token>)
    ensures Pending(a + b) == Pending(a) + Pending(b)
    decreases |a|
  {
    if a == [] {
      assert a + b == b;
    } else {
      assert (a + b)[0] == a[0];
      assert (a + b)[1..] == a[1..] + b;
      PendingAppend(a[1..], b);
    }
  }

  lemma {:induction false} PendingDedents(k: nat)
    ensures Pending(Repeat(Dedent, k)) == k
    decreases k
  {
    if k > 0 {
      PendingAppend(Repeat(Dedent, k - 1), [Dedent]);
      PendingDedents(k - 1);
      assert Pending([Dedent]) == 1 + Pending([]);
    }
  }

  /** The blocks a consumer has seen opened and not yet closed: open levels, plus dedents
      still queued, minus indents still queued. */
  function Open(st: IterState): int
  {
    |st.intents| + Pending(st.queue)
  }

  /** How a result of `next` changes the blocks the consumer has seen open. */
  function Delta(r: Option<Item>): (d: int)
    ensures -1 <= d <= 1
  {
    if r == Some(Ok(Token.Indent)) then 1 else if r == Some(Ok(Dedent)) then -1 else 0
  }

  lemma {:induction false} DedentLoopBalance(intents: seq<nat>, level: nat, q: seq<Token>, at: nat)
    ensures var d := DedentLoop(intents, level, q, at, Corrected);
            |d.0| + Pending(d.1) == |intents| + Pending(q) + (if d.2.Err? then 1 else 0)
    ensures DedentLoop(intents, level, q, at, Corrected).2 in {Ok(Dedent), Err(MisalignedIndentation(at))}
    decreases |intents|
  {
    if level > Top(intents) {
      PendingAppend(q, [Dedent, Token.Indent]);
      assert Pending([Dedent, Token.Indent]) == 1 + Pending([Token.Indent]);
      assert Pending([Token.Indent]) == -1 + Pending([]);
    } else if level < Top(intents) {
      PendingAppend(q, [Dedent]);
      assert Pending([Dedent]) == 1 + Pending([]);
      DedentLoopBalance(Pop(intents), level, q + [Dedent], at);
    }
  }

  lemma ConsumeBalance(raw: R.Stream<RawToken>, st: IterState)
    requires ValidRaw(raw) && st.pos < |raw.toks|
    ensures var c := Consume(raw, st, Corrected);
            c.Continue? ==> Open(c.st) == Open(st)
    ensures var c := Consume(raw, st, Corrected);
            c.Return? ==> Open(c.st) == Open(st) + Delta(c.r)
  {
    var sp := raw.toks[st.pos];
    var st1 := st.(pos := st.pos + 1);
    match sp.tok
    case Indent(text) =>
      var level := |text| - 1;
      var peeked := R.ItemAt(raw, st1.pos);
      if st1.brackets == 0 && !(peeked.Some? && peeked.value.Token? &&
            (peeked.value.sp.tok.Indent? || peeked.value.sp.tok.Whitespace?)) && level < Top(st.intents) {
        DedentLoopBalance(Pop(st.intents), level, st.queue, sp.l);
      }
    case _ =>
  }

  lemma {:induction false} LoopBalance(raw: R.Stream<RawToken>, st: IterState)
    requires ValidRaw(raw) && st.pos <= |raw.toks| && st.queue == []
    ensures var res := Loop(raw, st, Corrected);
            Open(res.1) == Open(st) + Delta(res.0)
    ensures Loop(raw, st, Corrected).0 == None ==> Open(Loop(raw, st, Corrected).1) == 0
    decreases |raw.toks| - st.pos
  {
    if st.pos == |raw.toks| {
      if raw.fail.None? && st.intents != [] {
        PendingDedents(|st.intents| - 1);
        PendingAppend(st.queue, Repeat(Dedent, |st.intents| - 1));
      }
    } else {
      var c := Consume(raw, st, Corrected);
      ConsumeBalance(raw, st);
      if c.Continue? {
        assert c.st.queue == st.queue by {
          var sp := raw.toks[st.pos];
          match sp.tok
          case Indent(text) =>
          case _ =>
        }
        LoopBalance(raw, c.st);
      }
    }
  }

  /** As corrected, every call of `next` changes the blocks seen open by exactly what it
      returns, and `None` comes only when no block is open or owed a dedent. */
  lemma NextBalance(raw: R.Stream<RawToken>, st: IterState)
    requires ValidRaw(raw) && st.pos <= |raw.toks|
    ensures var res := NextSpec(raw, st, Corrected);
            Open(res.1) == Open(st) + Delta(res.0)
    ensures NextSpec(raw, st, Corrected).0 == None ==> Open(NextSpec(raw, st, Corrected).1) == 0
  {
    if st.queue != [] {
      assert st.queue == [st.queue[0]] + st.queue[1..];
      PendingAppend([st.queue[0]], st.queue[1..]);
      assert Pending([st.queue[0]]) == -Delta(Some(Ok(st.queue[0]))) + Pending([]);
    } else {
      LoopBalance(raw, st);
    }
  }

  /** Indents minus dedents in a run of results. */
  function Net(out: seq<Option<Item>>): (n: int)
    ensures out == [] ==> n == 0
  {
    if out == [] then 0 else Delta(out[0]) + Net(out[1..])
  }

  lemma {:induction false} NetAppend(a: seq<Option<Item>>, b: seq<Option<Item>>)
    ensures Net(a + b) == Net(a) + Net(b)
    decreases |a|
  {
    if a == [] {
      assert a + b == b;
    } else {
      assert (a + b)[0] == a[0];
      assert (a + b)[1..] == a[1..] + b;
      NetAppend(a[1..], b);
    }
  }

  lemma {:induction false} RunBalance(raw: R.Stream<RawToken>, st: IterState, n: nat)
    requires ValidRaw(raw) && st.pos <= |raw.toks|
    ensures Open(After(raw, st, Corrected, n)) == Open(st) + Net(Outputs(raw, st, Corrected, n))
    ensures n > 0 && Outputs(raw, st, Corrected, n)[n - 1] == None ==> Open(After(raw, st, Corrected, n)) == 0
    decreases n
  {
    if n > 0 {
      var res := NextSpec(raw, st, Corrected);
      NextBalance(raw, st);
      RunBalance(raw, res.1, n - 1);
      var out := Outputs(raw, st, Corrected, n);
      assert out[1..] == Outputs(raw, res.1, Corrected, n - 1);
      if n == 1 {
        assert After(raw, st, Corrected, n) == res.1;
      }
    }
  }

  /** As corrected, a run from the start that ends with `None` has as many `Dedent`s as
      `Indent`s among its results. */
  lemma RunsAreBalanced(raw: R.Stream<RawToken>, n: nat)
    requires ValidRaw(raw)
    ensures n > 0 && Outputs(raw, Initial, Corrected, n)[n - 1] == None ==>
              Net(Outputs(raw, Initial, Corrected, n)) == 0
  {
    RunBalance(raw, Initial, n);
    assert Open(Initial) == 0;
  }

  // ---------------------------------------------------------------------------------------
  // The iterator.

  class TokenIterator {
    const raw: R.Stream<RawToken>
    const rev: Revision
    var pos: nat
    var intents: seq<nat>
    var brackets: nat
    var queue: seq<Token>

    function State(): IterState
      reads this
    {
      IterState(pos, intents, brackets, queue)
    }

    ghost predicate Valid()
      reads this
    {
      ValidRaw(raw) && pos <= |raw.toks|
    }

    /** `Token::lex`. */
    constructor (raw: R.Stream<RawToken>, rev: Revision)
      requires ValidRaw(raw)
      ensures Valid() && this.raw == raw && this.rev == rev && State() == Initial
    {
      this.raw := raw;
      this.rev := rev;
      pos := 0;
      intents := [];
      brackets := 0;
      queue := [];
    }

    method Next() returns (r: Option<Item>)
      requires Valid()
      modifies this
      ensures Valid()
      ensures (r, State()) == NextSpec(raw, old(State()), rev)
    {
      if queue != [] {
        r := Some(Ok(queue[0]));
        queue := queue[1..];
        return;
      }
      while true
        invariant Valid()
        invariant Loop(raw, State(), rev) == Loop(raw, old(State()), rev)
        decreases |raw.toks| - pos
      {
        if pos == |raw.toks| {
          r := End();
          return;
        }
        var done;
        done, r := ConsumeOne();
        if done {
          return;
        }
      }
    }

    /** The `None` branch of `next`: one `Dedent` per open level. */
    method End() returns (r: Option<Item>)
      requires Valid() && pos == |raw.toks|
      modifies this
      ensures Valid()
      ensures (r, State()) == AtEnd(raw, old(State()))
    {
      if raw.fail.Some? {
        return Some(Err(LexicalError(raw.fail.value)));
      }
      if intents == [] {
        return None;
      }
      var n := |intents|;
      intents := [];
      var k := 1;
      while k < n
        invariant 1 <= k <= n
        invariant queue == old(queue) + Repeat(Dedent, k - 1)
        invariant intents == [] && pos == old(pos) && brackets == old(brackets)
      {
        queue := queue + [Dedent];
        k := k + 1;
      }
      return Some(Ok(Dedent));
    }

    /** One iteration of the loop of `next`. */
    method ConsumeOne() returns (done: bool, r: Option<Item>)
      requires Valid() && pos < |raw.toks|
      modifies this
      ensures Valid()
      ensures StepOf(done, r, State()) == Consume(raw, old(State()), rev)
    {
      var sp := raw.toks[pos];
      pos := pos + 1;
      match sp.tok {
        case Whitespace(w) =>
          if sp.l == 0 {
            intents := intents + [|w|];
            return true, Some(Ok(Token.Indent));
          }
          return false, None;
        case Indent(text) =>
          done, r := OnIndent(text, sp.l);
        case LBracket =>
          brackets := brackets + 1;
          return true, Some(Ok(Token.LBracket));
        case RBracket =>
          brackets := if brackets == 0 then 0 else brackets - 1;
          return true, Some(Ok(Token.RBracket));
        case Comma =>
          return true, Some(Ok(Token.Comma));
        case Identifier(x) =>
          return true, Some(Ok(Token.Identifier(x)));
      }
    }

    /** The `Indent` arm of `next`. */
    method OnIndent(text: string, at: nat) returns (done: bool, r: Option<Item>)
      requires |text| >= 1
      modifies this
      ensures StepOf(done, r, State()) == OnIndentStep(raw, text, at, old(State()), rev)
    {
      if brackets > 0 {
        return false, None;
      }
      var peeked := R.ItemAt(raw, pos);
      if peeked.Some? && peeked.value.Token? && (peeked.value.sp.tok.Indent? || peeked.value.sp.tok.Whitespace?) {
        return false, None;
      }
      var level := |text| - 1;
      var last := Top(intents);
      if level > last {
        intents := intents + [level];
        return true, Some(Ok(Token.Indent));
      } else if level == last {
        return false, None;
      }
      // The first level is popped without a token: the loop returns the matching `Dedent`.
      intents := Pop(intents);
      var item := PopToLevel(level, at);
      return true, Some(item);
    }

    /** The inner dedent loop of the `Indent` arm. */
    method PopToLevel(level: nat, at: nat) returns (item: Item)
      modifies this
      ensures (intents, queue, item) == DedentLoop(old(intents), level, old(queue), at, rev)
      ensures pos == old(pos) && brackets == old(brackets)
    {
      while true
        invariant DedentLoop(intents, level, queue, at, rev) == DedentLoop(old(intents), level, old(queue), at, rev)
        invariant pos == old(pos) && brackets == old(brackets)
        decreases |intents|
      {
        var last := Top(intents);
        if level > last {
          if rev == AsWritten {
            intents := Pop(intents);
          }
          intents := intents + [level];
          queue := queue + [Dedent, Token.Indent];
          return Err(MisalignedIndentation(at));
        } else if level == last {
          return Ok(Dedent);
        }
        intents := Pop(intents);
        queue := queue + [Dedent];
      }
    }
  }

  function StepOf(done: bool, r: Option<Item>, st: IterState): Step
  {
    if done then Return(r, st) else Continue(st)
  }
}
