/** The Haskell-style layout post-processor of tests/layout_rules.rs: it turns the raw
    tokens of a small lexer into tokens with virtual braces (`VLBrace`, `VRBrace`) and
    virtual semicolons, keeping a stack of open layouts, a layout whose column is not yet
    known, the current column and a queue of tokens still to be returned. Layouts are
    closed by a smaller indentation, by `in` (up to the nearest `let`), by `)` (up to the
    nearest parenthesis) and at the end of input. */
module LayoutRules {

  import opened Wrappers
  import R = RawStream

  datatype RawToken =
    | Indent(text: string)       // "\n *": a line break and the next line's indentation
    | Whitespace(text: string)   // " +"
    | ColonEqual
    | Let
    | In
    | By
    | LParen
    | RParen
    | Identifier(text: string)

  datatype Token =
    | Identifier(text: string)
    | VLBrace
    | VRBrace
    | VSemicolon
    | ColonEqual
    | Let
    | In
    | By
    | LParen
    | RParen

  /** What `next` yields: a token, or the raw lexer's error. */
  datatype Item = Ok(token: Token) | Err(at: nat)

  /** An open layout block: opened by `let`, by `by`, or a parenthesis (which has no
      column). */
  datatype Layout = Let(col: nat) | Other(col: nat) | Paren

  // ---------------------------------------------------------------------------------------
  // The `Layout` helpers.

  function Column(l: Layout): (c: Option<nat>)
    ensures c.None? <==> l.Paren?
    ensures c.Some? ==> c.value == l.col
  {
    match l
    case Let(c) => Some(c)
    case Other(c) => Some(c)
    case Paren => None
  }

  /** The same kind of layout with column `c`; a parenthesis stays a parenthesis. */
  function WithColumn(l: Layout, c: nat): (r: Layout)
    ensures r.Let? == l.Let? && r.Other? == l.Other? && r.Paren? == l.Paren?
    ensures Column(r) == if l.Paren? then None else Some(c)
  {
    match l
    case Let(_) => Layout.Let(c)
    case Other(_) => Other(c)
    case Paren => Paren
  }

  predicate IsParen(l: Layout)
  {
    l.Paren?
  }

  predicate IsLet(l: Layout)
  {
    l.Let?
  }

  // ---------------------------------------------------------------------------------------
  // Counting.

  function Count(t: Token, q: seq<Token>): nat
  {
    if q == [] then 0 else (if q[0] == t then 1 else 0) + Count(t, q[1..])
  }

  lemma {:induction false} CountAppend(t: Token, a: seq<Token>, b: seq<Token>)
    ensures Count(t, a + b) == Count(t, a) + Count(t, b)
    decreases |a|
  {
    if a != [] {
      assert (a + b)[0] == a[0];
      assert (a + b)[1..] == a[1..] + b;
      CountAppend(t, a[1..], b);
    } else {
      assert a + b == b;
    }
  }

  lemma {:induction false} CountRepeat(t: Token, u: Token, n: nat)
    ensures Count(t, Repeat(u, n)) == if t == u then n else 0
  {
    if n > 0 {
      CountAppend(t, Repeat(u, n - 1), [u]);
      CountRepeat(t, u, n - 1);
    }
  }

  /** The number of layouts that are not parentheses. */
  function NonParen(ls: seq<Layout>): nat
  {
    if ls == [] then 0 else NonParen(ls[..|ls| - 1]) + (if ls[|ls| - 1].Paren? then 0 else 1)
  }

  function Parens(ls: seq<Layout>): nat
  {
    if ls == [] then 0 else Parens(ls[..|ls| - 1]) + (if ls[|ls| - 1].Paren? then 1 else 0)
  }

  lemma {:induction false} NonParenAndParens(ls: seq<Layout>)
    ensures NonParen(ls) + Parens(ls) == |ls|
  {
    if ls != [] {
      NonParenAndParens(ls[..|ls| - 1]);
    }
  }

  // ---------------------------------------------------------------------------------------
  // Closing layouts.

  /** `close_layouts_until`: pop layouts until one satisfying `p` is popped (`true`) or the
      stack is empty (`false`), queueing a `VRBrace` for every other popped layout that is
      not a parenthesis. The result is the flag, the stack and the queue. */
  function CloseUntil(ls: seq<Layout>, q: seq<Token>, p: Layout -> bool): (r: (bool, seq<Layout>, seq<Token>))
    ensures r.1 <= ls
    decreases |ls|
  {
    if ls == [] then (false, [], q)
    else if p(ls[|ls| - 1]) then (true, ls[..|ls| - 1], q)
    else if ls[|ls| - 1].Paren? then CloseUntil(ls[..|ls| - 1], q, p)
    else CloseUntil(ls[..|ls| - 1], q + [VRBrace], p)
  }

  /** Where `close_layouts_until` cuts the stack: just below the topmost layout satisfying
      `p`, or at the bottom when there is none. */
  function Cut(r: (bool, seq<Layout>, seq<Token>)): nat
  {
    if r.0 then |r.1| + 1 else 0
  }

  /** What `close_layouts_until` does, without the loop: the stack is cut just below the
      topmost layout satisfying `p` (or emptied when there is none), and one `VRBrace` is
      queued per closed layout above it that is not a parenthesis. */
  lemma {:induction false} CloseUntilMeaning(ls: seq<Layout>, q: seq<Token>, p: Layout -> bool)
    ensures var r := CloseUntil(ls, q, p);
            && (r.0 ==> |r.1| < |ls| && p(ls[|r.1|]))
            && (!r.0 ==> r.1 == [])
            && (forall i :: Cut(r) <= i < |ls| ==> !p(ls[i]))
            && r.2 == q + Repeat(VRBrace, NonParen(ls[Cut(r)..]))
    decreases |ls|
  {
    if ls != [] && !p(ls[|ls| - 1]) {
      var rest := ls[..|ls| - 1];
      var q1 := if ls[|ls| - 1].Paren? then q else q + [VRBrace];
      CloseUntilMeaning(rest, q1, p);
      var r := CloseUntil(rest, q1, p);
      assert CloseUntil(ls, q, p) == r;
      var cut := Cut(r);
      NonParenCut(ls, cut);
      QueueMore(q, NonParen(rest[cut..]), ls[|ls| - 1].Paren?);
    }
  }

  /** Dropping the top layout from a suffix of the stack. */
  lemma NonParenCut(ls: seq<Layout>, cut: nat)
    requires cut < |ls|
    ensures NonParen(ls[cut..]) == NonParen(ls[..|ls| - 1][cut..]) + (if ls[|ls| - 1].Paren? then 0 else 1)
  {
    assert ls[cut..][..|ls[cut..]| - 1] == ls[..|ls| - 1][cut..];
  }

  /** A `VRBrace` queued before a run of them lengthens the run. */
  lemma QueueMore(q: seq<Token>, n: nat, paren: bool)
    ensures (if paren then q else q + [VRBrace]) + Repeat(VRBrace, n)
            == q + Repeat(VRBrace, n + (if paren then 0 else 1))
  {
    if !paren {
      assert [VRBrace] + Repeat(VRBrace, n) == Repeat(VRBrace, n + 1);
      assert q + [VRBrace] + Repeat(VRBrace, n) == q + ([VRBrace] + Repeat(VRBrace, n));
    }
  }

  /** Some(col) < the column of the top layout: the top layout has a column and it is
      greater than `col` (an empty stack or a parenthesis on top compares as `None`). */
  predicate Above(ls: seq<Layout>, col: nat)
  {
    ls != [] && Column(ls[|ls| - 1]).Some? && col < Column(ls[|ls| - 1]).value
  }

  /** The dedent loop: pop layouts while the top one has a greater column, queueing one
      `VRBrace` per pop. */
  function PopAbove(ls: seq<Layout>, col: nat, q: seq<Token>): (r: (seq<Layout>, seq<Token>))
    ensures r.0 <= ls && !Above(r.0, col)
    ensures r.1 == q + Repeat(VRBrace, |ls| - |r.0|)
    ensures forall i :: |r.0| <= i < |ls| ==> !ls[i].Paren? && col < ls[i].col
    decreases |ls|
  {
    if Above(ls, col) then PopAbove(ls[..|ls| - 1], col, q + [VRBrace]) else (ls, q)
  }

  // ---------------------------------------------------------------------------------------
  // The iterator's state and one call of `next`.

  datatype IterState = IterState(
    pos: nat,                 // cursor into the raw stream
    layouts: seq<Layout>,     // the open layouts, innermost last
    pending: Option<Layout>,  // opened by `let`/`by`, column not yet known
    column: nat,              // column where the next raw token starts
    queue: seq<Token>)        // tokens to return before reading more raw tokens

  const Initial := IterState(0, [], None, 0, [])

  /** The raw lexer's guarantees: a well-formed stream whose indentation tokens contain at
      least their line break. */
  ghost predicate ValidRaw(raw: R.Stream<RawToken>)
  {
    R.WellFormed(raw) &&
    forall i :: 0 <= i < |raw.toks| && raw.toks[i].tok.Indent? ==> |raw.toks[i].tok.text| >= 1
  }

  /** From token `i` on, the text of every `Indent` token is non-empty: a check that
      unfolds on a stream written out token by token. */
  predicate TextsNonEmpty(toks: seq<R.Spanned<RawToken>>, i: nat)
    decreases |toks| - i
  {
    i >= |toks| || ((toks[i].tok.Indent? ==> |toks[i].tok.text| >= 1) && TextsNonEmpty(toks, i + 1))
  }

  lemma {:induction false} TextsOfRest(toks: seq<R.Spanned<RawToken>>, i: nat)
    requires TextsNonEmpty(toks, i)
    ensures forall j :: i <= j < |toks| && toks[j].tok.Indent? ==> |toks[j].tok.text| >= 1
    decreases |toks| - i
  {
    if i < |toks| {
      TextsOfRest(toks, i + 1);
    }
  }

  /** A stream written out token by token that passes both checks is valid. */
  lemma ValidRawOf(toks: seq<R.Spanned<RawToken>>)
    requires R.InOrderFrom(toks, 0, 0) && TextsNonEmpty(toks, 0)
    ensures ValidRaw(R.Stream(toks, None))
  {
    R.InOrderWellFormed(toks, 0, 0);
    TextsOfRest(toks, 0);
  }

  /** A raw token that fixes the column of a pending layout. */
  predicate Settles(t: RawToken)
  {
    !t.Whitespace? && !t.Indent?
  }

  /** The outcome of one raw token: carry on with the loop, or return from `next`. */
  datatype Step = Continue(st: IterState) | Return(r: Option<Item>, st: IterState)

  /** What every raw token does before it is dispatched: a token other than whitespace or
      indentation pushes the pending layout with the column where the token starts; the
      cursor and the column move past the token; `let` and `by` queue a `VLBrace` and
      open a pending layout. */
  function Advance(st: IterState, sp: R.Spanned<RawToken>): IterState
    requires sp.l <= sp.r
  {
    var t := sp.tok;
    var st1 :=
      if Settles(t) && st.pending.Some?
      then st.(layouts := st.layouts + [WithColumn(st.pending.value, st.column)], pending := None)
      else st;
    var st2 := st1.(pos := st.pos + 1, column := st.column + (sp.r - sp.l));
    if t.Let? then st2.(queue := st2.queue + [VLBrace], pending := Some(Layout.Let(0)))
    else if t.By? then st2.(queue := st2.queue + [VLBrace], pending := Some(Other(0)))
    else st2
  }

  /** An indentation to column `col`, with the cursor already past it: ignored before
      another indentation or `in` and while a layout is pending; `VSemicolon` at the
      column of the innermost layout; below it, close every layout with a greater column,
      one `VRBrace` each. */
  function OnIndentStep(raw: R.Stream<RawToken>, col: nat, st: IterState): Step
  {
    var st4 := st.(column := col);
    var peeked := R.ItemAt(raw, st4.pos);
    if peeked.Some? && peeked.value.Token? && (peeked.value.sp.tok.Indent? || peeked.value.sp.tok.In?) then
      Continue(st4)
    else if st4.pending.Some? then Continue(st4)
    else if st4.layouts != [] && Column(st4.layouts[|st4.layouts| - 1]) == Some(col) then
      Return(Some(Ok(VSemicolon)), st4)
    else if Above(st4.layouts, col) then
      var popped := PopAbove(st4.layouts[..|st4.layouts| - 1], col, st4.queue);
      Return(Some(Ok(VRBrace)), st4.(layouts := popped.0, queue := popped.1))
    else Continue(st4)
  }

  /** `)` or `in`: close layouts up to the nearest parenthesis or `let`, queue the closing
      token (after a `VRBrace` for a `let` that was found) and return the first queued
      token. */
  function CloseStep(st: IterState, paren: bool): Step
  {
    var closed := CloseUntil(st.layouts, st.queue, if paren then IsParen else IsLet);
    var q := closed.2 + (if !paren && closed.0 then [VRBrace] else []) + [if paren then Token.RParen else Token.In];
    Return(Some(Ok(q[0])), st.(layouts := closed.1, queue := q[1..]))
  }

  /** The arms of the `match` that neither look at indentation nor close layouts:
      whitespace is passed over, `(` opens a parenthesis layout, the rest are returned. */
  function Plain(t: RawToken, st: IterState): Step
    requires !t.Indent? && !t.RParen? && !t.In?
  {
    match t
    case Whitespace(_) => Continue(st)
    case ColonEqual => Return(Some(Ok(Token.ColonEqual)), st)
    case Let => Return(Some(Ok(Token.Let)), st)
    case By => Return(Some(Ok(Token.By)), st)
    case LParen => Return(Some(Ok(Token.LParen)), st.(layouts := st.layouts + [Paren]))
    case Identifier(x) => Return(Some(Ok(Token.Identifier(x))), st)
  }

  /** The `match` on the raw token, after `Advance`. */
  function Dispatch(raw: R.Stream<RawToken>, t: RawToken, st: IterState): Step
    requires t.Indent? ==> |t.text| >= 1
  {
    if t.Indent? then OnIndentStep(raw, |t.text| - 1, st)
    else if t.RParen? || t.In? then CloseStep(st, t.RParen?)
    else Plain(t, st)
  }

  /** One iteration of the loop in `next`, on the raw token under the cursor. */
  function Consume(raw: R.Stream<RawToken>, st: IterState): (s: Step)
    requires ValidRaw(raw) && st.pos < |raw.toks|
    ensures s.st.pos == st.pos + 1
  {
    var sp := raw.toks[st.pos];
    Dispatch(raw, sp.tok, Advance(st, sp))
  }

  function StepOf(done: bool, r: Option<Item>, st: IterState): Step
  {
    if done then Return(r, st) else Continue(st)
  }

  /** The end of the raw stream: its error, or one `VRBrace` per open layout (the first
      returned, the others queued) and then `None`. */
  function AtEnd(raw: R.Stream<RawToken>, st: IterState): (Option<Item>, IterState)
  {
    if raw.fail.Some? then (Some(Err(raw.fail.value)), st)
    else if st.layouts != [] then
      (Some(Ok(VRBrace)), st.(layouts := [], queue := st.queue + Repeat(VRBrace, |st.layouts| - 1)))
    else (None, st)
  }

  /** The `loop` of `next`: consume raw tokens until one makes `next` return. */
  function Loop(raw: R.Stream<RawToken>, st: IterState): (res: (Option<Item>, IterState))
    requires ValidRaw(raw) && st.pos <= |raw.toks|
    ensures st.pos <= res.1.pos <= |raw.toks|
    decreases |raw.toks| - st.pos
  {
    if st.pos == |raw.toks| then AtEnd(raw, st)
    else match Consume(raw, st)
      case Continue(st') => Loop(raw, st')
      case Return(r, st') => (r, st')
  }

  /** `next`: a queued token first, otherwise the loop. */
  function NextSpec(raw: R.Stream<RawToken>, st: IterState): (res: (Option<Item>, IterState))
    requires ValidRaw(raw) && st.pos <= |raw.toks|
    ensures st.pos <= res.1.pos <= |raw.toks|
  {
    if st.queue != [] then (Some(Ok(st.queue[0])), st.(queue := st.queue[1..]))
    else Loop(raw, st)
  }

  /** The results of `n` calls of `next`. */
  function Outputs(raw: R.Stream<RawToken>, st: IterState, n: nat): (out: seq<Option<Item>>)
    requires ValidRaw(raw) && st.pos <= |raw.toks|
    ensures |out| == n
    decreases n
  {
    if n == 0 then []
    else
      var res := NextSpec(raw, st);
      [res.0] + Outputs(raw, res.1, n - 1)
  }

  /** The state after `n` calls of `next`. */
  function After(raw: R.Stream<RawToken>, st: IterState, n: nat): (st': IterState)
    requires ValidRaw(raw) && st.pos <= |raw.toks|
    ensures st'.pos <= |raw.toks|
    decreases n
  {
    if n == 0 then st else After(raw, NextSpec(raw, st).1, n - 1)
  }

  /** A run of `n` calls starts with one call of `next`. */
  lemma OutputsStep(raw: R.Stream<RawToken>, st: IterState, n: nat, r: Option<Item>, st': IterState)
    requires ValidRaw(raw) && st.pos <= |raw.toks| && n > 0 && NextSpec(raw, st) == (r, st')
    ensures Outputs(raw, st, n) == [r] + Outputs(raw, st', n - 1)
    ensures After(raw, st, n) == After(raw, st', n - 1)
  {
  }

  /** `a + b` calls are `a` calls and then `b` more from where those left off. */
  lemma {:induction false} OutputsSplit(raw: R.Stream<RawToken>, st: IterState, a: nat, b: nat)
    requires ValidRaw(raw) && st.pos <= |raw.toks|
    ensures Outputs(raw, st, a + b) == Outputs(raw, st, a) + Outputs(raw, After(raw, st, a), b)
    decreases a
  {
    if a > 0 {
      var res := NextSpec(raw, st);
      OutputsSplit(raw, res.1, a - 1, b);
      assert a + b - 1 == (a - 1) + b;
    }
  }

  // ---------------------------------------------------------------------------------------
  // Properties of `next`.

  /** A pending layout is always a `let` or `by` layout. */
  ghost predicate Inv(st: IterState)
  {
    st.pending.Some? ==> !st.pending.value.Paren?
  }

  /** +1 for a returned `VLBrace`, -1 for a returned `VRBrace`. */
  function Delta(r: Option<Item>): int
  {
    if r == Some(Ok(VLBrace)) then 1 else if r == Some(Ok(VRBrace)) then -1 else 0
  }

  /** Braces opened but not yet closed, seen from the state: every open `let`/`by` layout
      and the pending one will get a `VRBrace`, queued braces are not yet returned. */
  function Bal(st: IterState): int
  {
    NonParen(st.layouts) + (if st.pending.Some? then 1 else 0)
      + Count(VRBrace, st.queue) - Count(VLBrace, st.queue)
  }

  /** The loop of `next` runs out of raw tokens: every raw token left is passed over. */
  ghost predicate ReachesEnd(raw: R.Stream<RawToken>, st: IterState)
    requires ValidRaw(raw) && st.pos <= |raw.toks|
    decreases |raw.toks| - st.pos
  {
    st.pos == |raw.toks| ||
    (Consume(raw, st).Continue? && ReachesEnd(raw, Consume(raw, st).st))
  }

  lemma {:induction false} NonParenSnoc(ls: seq<Layout>, l: Layout)
    ensures NonParen(ls + [l]) == NonParen(ls) + (if l.Paren? then 0 else 1)
  {
    assert (ls + [l])[..|ls + [l]| - 1] == ls;
  }

  /** Closing layouts trades each closed `let`/`by` layout for a queued `VRBrace`, except the
      layout satisfying `p` itself, which is closed without one. */
  lemma {:induction false} CloseUntilBalance(ls: seq<Layout>, q: seq<Token>, p: Layout -> bool)
    ensures var r := CloseUntil(ls, q, p);
            && (r.0 ==> |r.1| < |ls| && p(ls[|r.1|]))
            && NonParen(r.1) + Count(VRBrace, r.2) + (if r.0 && !ls[|r.1|].Paren? then 1 else 0)
               == NonParen(ls) + Count(VRBrace, q)
            && Count(VLBrace, r.2) == Count(VLBrace, q)
    decreases |ls|
  {
    if ls != [] {
      var rest := ls[..|ls| - 1];
      assert ls == rest + [ls[|ls| - 1]];
      if !p(ls[|ls| - 1]) {
        var q1 := if ls[|ls| - 1].Paren? then q else q + [VRBrace];
        CountAppend(VRBrace, q, [VRBrace]);
        CountAppend(VLBrace, q, [VRBrace]);
        CloseUntilBalance(rest, q1, p);
        assert |CloseUntil(rest, q1, p).1| < |ls|;
      }
    }
  }

  /** The dedent loop trades each popped layout for a queued `VRBrace`. */
  lemma {:induction false} PopAboveBalance(ls: seq<Layout>, col: nat, q: seq<Token>)
    ensures var r := PopAbove(ls, col, q);
            NonParen(r.0) + Count(VRBrace, r.1) == NonParen(ls) + Count(VRBrace, q) &&
            Count(VLBrace, r.1) == Count(VLBrace, q)
    decreases |ls|
  {
    if Above(ls, col) {
      CountAppend(VRBrace, q, [VRBrace]);
      CountAppend(VLBrace, q, [VRBrace]);
      PopAboveBalance(ls[..|ls| - 1], col, q + [VRBrace]);
    }
  }

  /** Queued `VRBrace`s minus queued `VLBrace`s. */
  function QueueBal(q: seq<Token>): int
  {
    Count(VRBrace, q) - Count(VLBrace, q)
  }

  lemma QueueBalAppend(a: seq<Token>, b: seq<Token>)
    ensures QueueBal(a + b) == QueueBal(a) + QueueBal(b)
  {
    CountAppend(VRBrace, a, b);
    CountAppend(VLBrace, a, b);
  }

  /** Returning the head of the queue changes the queued balance by what it returns. */
  lemma QueueBalPop(q: seq<Token>)
    requires q != []
    ensures QueueBal(q[1..]) == QueueBal(q) + Delta(Some(Ok(q[0])))
  {
  }

  /** Settling the pending layout and opening a new one keep the balance; whitespace and
      indentation change nothing but the cursor and the column. */
  lemma AdvanceBalance(st: IterState, sp: R.Spanned<RawToken>)
    requires sp.l <= sp.r && Inv(st)
    ensures Inv(Advance(st, sp)) && Bal(Advance(st, sp)) == Bal(st)
    ensures !Settles(sp.tok) ==>
              var a := Advance(st, sp);
              a.layouts == st.layouts && a.pending == st.pending && a.queue == st.queue
  {
    var t := sp.tok;
    if Settles(t) && st.pending.Some? {
      NonParenSnoc(st.layouts, WithColumn(st.pending.value, st.column));
    }
    if t.Let? || t.By? {
      var st1 :=
        if st.pending.Some?
        then st.(layouts := st.layouts + [WithColumn(st.pending.value, st.column)], pending := None)
        else st;
      QueueBalAppend(st1.queue, [VLBrace]);
      assert QueueBal([VLBrace]) == -1;
    }
  }

  /** What one step may do to the balance: a step that passes over a raw token leaves the
      layouts, the pending layout and the queue alone; a step that returns changes `Bal` by
      the brace it returns. Either way no parenthesis becomes pending. */
  ghost predicate KeepsBalance(st: IterState, c: Step)
  {
    && Inv(c.st)
    && (c.Continue? ==> c.st.layouts == st.layouts && c.st.pending == st.pending && c.st.queue == st.queue)
    && (c.Return? ==> Bal(c.st) == Bal(st) + Delta(c.r))
  }

  /** An indentation is passed over without touching the layouts, or returns a
      `VSemicolon`, or a `VRBrace` for each layout it closes. */
  lemma IndentBalance(raw: R.Stream<RawToken>, col: nat, st: IterState)
    requires Inv(st)
    ensures KeepsBalance(st, OnIndentStep(raw, col, st))
  {
    var st4 := st.(column := col);
    var c := OnIndentStep(raw, col, st);
    if c.Return? && c.r == Some(Ok(VRBrace)) {
      var ls := st4.layouts;
      assert ls == ls[..|ls| - 1] + [ls[|ls| - 1]];
      NonParenSnoc(ls[..|ls| - 1], ls[|ls| - 1]);
      PopAboveBalance(ls[..|ls| - 1], col, st4.queue);
    }
  }

  /** `)` and `in` return the first queued token; `Bal` moves by that token alone. */
  lemma CloseStepBalance(st: IterState, paren: bool)
    requires Inv(st)
    ensures KeepsBalance(st, CloseStep(st, paren))
  {
    var p := if paren then IsParen else IsLet;
    var closed := CloseUntil(st.layouts, st.queue, p);
    CloseUntilBalance(st.layouts, st.queue, p);
    var extra := if !paren && closed.0 then [VRBrace] else [];
    var last := if paren then Token.RParen else Token.In;
    var q := closed.2 + extra + [last];
    QueueBalAppend(closed.2, extra);
    QueueBalAppend(closed.2 + extra, [last]);
    QueueBalPop(q);
    assert [VRBrace][1..] == [] && [last][1..] == [];
    assert QueueBal(extra) == (if !paren && closed.0 then 1 else 0);
    assert QueueBal([last]) == 0;
  }

  /** Of the simple arms, only whitespace is passed over. */
  lemma PlainPasses(t: RawToken, st: IterState)
    requires !t.Indent? && !t.RParen? && !t.In?
    ensures Plain(t, st).Continue? <==> t.Whitespace?
  {
  }

  /** `(` opens a parenthesis layout, which counts for no brace. */
  lemma OpenParenBalance(st: IterState)
    requires Inv(st)
    ensures KeepsBalance(st, Return(Some(Ok(Token.LParen)), st.(layouts := st.layouts + [Paren])))
  {
    var withParen := st.(layouts := st.layouts + [Paren]);
    assert Bal(withParen) == Bal(st) by {
      NonParenSnoc(st.layouts, Paren);
    }
    assert Inv(withParen);
  }

  /** The simple arms keep the balance. */
  lemma PlainBalance(t: RawToken, st: IterState)
    requires !t.Indent? && !t.RParen? && !t.In? && Inv(st)
    ensures KeepsBalance(st, Plain(t, st))
  {
    match t
    case Whitespace(_) =>
      assert Plain(t, st) == Continue(st);
    case LParen =>
      OpenParenBalance(st);
      assert Plain(t, st) == Return(Some(Ok(Token.LParen)), st.(layouts := st.layouts + [Paren]));
    case ColonEqual =>
      assert Plain(t, st) == Return(Some(Ok(Token.ColonEqual)), st);
    case Let =>
      assert Plain(t, st) == Return(Some(Ok(Token.Let)), st);
    case By =>
      assert Plain(t, st) == Return(Some(Ok(Token.By)), st);
    case Identifier(x) =>
      assert Plain(t, st) == Return(Some(Ok(Token.Identifier(x))), st);
  }

  /** The `match` on a raw token passes over only whitespace and indentation, without
      touching the layouts, and otherwise changes `Bal` by the braces it returns. */
  lemma DispatchBalance(raw: R.Stream<RawToken>, t: RawToken, st: IterState)
    requires (t.Indent? ==> |t.text| >= 1) && Inv(st)
    ensures KeepsBalance(st, Dispatch(raw, t, st))
    ensures Dispatch(raw, t, st).Continue? ==> !Settles(t)
  {
    if t.Indent? {
      IndentBalance(raw, |t.text| - 1, st);
    } else if t.RParen? || t.In? {
      CloseStepBalance(st, t.RParen?);
    } else {
      PlainBalance(t, st);
      PlainPasses(t, st);
    }
  }

  /** One raw token either is passed over, changing nothing but the cursor and the column,
      or makes `next` return a token whose brace count matches the change of `Bal`. */
  lemma ConsumeBalance(raw: R.Stream<RawToken>, st: IterState)
    requires ValidRaw(raw) && st.pos < |raw.toks| && Inv(st)
    ensures Inv(Consume(raw, st).st)
    ensures Consume(raw, st).Continue? ==>
              var st' := Consume(raw, st).st;
              st'.layouts == st.layouts && st'.pending == st.pending && st'.queue == st.queue
    ensures Consume(raw, st).Return? ==>
              Bal(Consume(raw, st).st) == Bal(st) + Delta(Consume(raw, st).r)
  {
    var sp := raw.toks[st.pos];
    AdvanceBalance(st, sp);
    DispatchBalance(raw, sp.tok, Advance(st, sp));
    assert KeepsBalance(Advance(st, sp), Consume(raw, st));
  }

  /** The end of the raw stream: draining the stack returns one `VRBrace` for every open
      layout, parentheses included, so `Bal` moves by the returned brace plus one for each
      open parenthesis, which no `VLBrace` opened. */
  lemma AtEndBalance(raw: R.Stream<RawToken>, st: IterState)
    requires Inv(st)
    ensures Inv(AtEnd(raw, st).1) && AtEnd(raw, st).1.pending == st.pending
    ensures Bal(AtEnd(raw, st).1) == Bal(st) + Delta(AtEnd(raw, st).0)
              + (if raw.fail.None? then Parens(st.layouts) else 0)
  {
    if raw.fail.None? && st.layouts != [] {
      var n := |st.layouts|;
      NonParenAndParens(st.layouts);
      QueueBalAppend(st.queue, Repeat(VRBrace, n - 1));
      CountRepeat(VRBrace, VRBrace, n - 1);
      CountRepeat(VLBrace, VRBrace, n - 1);
    }
  }

  /** Every call of `next` changes `Bal` by the brace it returns, except when its loop runs
      out of raw tokens with parentheses still open: each of them is then closed by a
      `VRBrace` as well. So braces returned so far (`VLBrace` minus `VRBrace`) equal `Bal`
      of the state for as long as no parenthesis is left open at the end. Queued tokens
      come first and consume no raw token. */
  lemma {:induction false} NextBalance(raw: R.Stream<RawToken>, st: IterState)
    requires ValidRaw(raw) && st.pos <= |raw.toks| && Inv(st)
    ensures Inv(NextSpec(raw, st).1)
    ensures Bal(NextSpec(raw, st).1) == Bal(st) + Delta(NextSpec(raw, st).0)
              + (if st.queue == [] && ReachesEnd(raw, st) && raw.fail.None? then Parens(st.layouts) else 0)
    ensures st.queue != [] ==>
              NextSpec(raw, st).0 == Some(Ok(st.queue[0])) && NextSpec(raw, st).1.pos == st.pos
  {
    if st.queue == [] {
      LoopBalance(raw, st);
    } else {
      QueueBalPop(st.queue);
    }
  }

  lemma {:induction false} LoopBalance(raw: R.Stream<RawToken>, st: IterState)
    requires ValidRaw(raw) && st.pos <= |raw.toks| && Inv(st)
    ensures Inv(Loop(raw, st).1)
    ensures Bal(Loop(raw, st).1) == Bal(st) + Delta(Loop(raw, st).0)
              + (if ReachesEnd(raw, st) && raw.fail.None? then Parens(st.layouts) else 0)
    decreases |raw.toks| - st.pos
  {
    if st.pos == |raw.toks| {
      AtEndBalance(raw, st);
    } else {
      ConsumeBalance(raw, st);
      if Consume(raw, st).Continue? {
        LoopBalance(raw, Consume(raw, st).st);
      }
    }
  }

  /** When the loop runs out of raw tokens it reports the raw lexer's error, or returns
      one `VRBrace` per open layout (queueing all but the first) and empties the stack, or,
      with no layout open, returns `None` and changes nothing else. A pending layout is
      neither pushed nor closed. */
  lemma {:induction false} EndOfInput(raw: R.Stream<RawToken>, st: IterState)
    requires ValidRaw(raw) && st.pos <= |raw.toks| && Inv(st) && ReachesEnd(raw, st)
    ensures var (r, st') := Loop(raw, st);
            && st'.pos == |raw.toks| && st'.pending == st.pending
            && (raw.fail.Some? ==> r == Some(Err(raw.fail.value)) && st'.layouts == st.layouts && st'.queue == st.queue)
            && (raw.fail.None? && st.layouts == [] ==> r.None? && st'.layouts == [] && st'.queue == st.queue)
            && (raw.fail.None? && st.layouts != [] ==>
                 r == Some(Ok(VRBrace)) && st'.layouts == [] &&
                 st'.queue == st.queue + Repeat(VRBrace, |st.layouts| - 1))
    decreases |raw.toks| - st.pos
  {
    if st.pos < |raw.toks| {
      ConsumeBalance(raw, st);
      EndOfInput(raw, Consume(raw, st).st);
    }
  }

  // ---------------------------------------------------------------------------------------
  // The iterator.

  class TokenIterator {
    const raw: R.Stream<RawToken>
    var pos: nat
    var layouts: seq<Layout>
    var pending: Option<Layout>
    var column: nat
    var queue: seq<Token>

    function State(): IterState
      reads this
    {
      IterState(pos, layouts, pending, column, queue)
    }

    ghost predicate Valid()
      reads this
    {
      ValidRaw(raw) && pos <= |raw.toks|
    }

    /** `Token::lex`. */
    constructor (raw: R.Stream<RawToken>)
      requires ValidRaw(raw)
      ensures Valid() && this.raw == raw && State() == Initial
    {
      this.raw := raw;
      pos := 0;
      layouts := [];
      pending := None;
      column := 0;
      queue := [];
    }

    method Next() returns (r: Option<Item>)
      requires Valid()
      modifies this
      ensures Valid()
      ensures (r, State()) == NextSpec(raw, old(State()))
    {
      if queue != [] {
        r := Some(Ok(queue[0]));
        queue := queue[1..];
        return;
      }
      while true
        invariant Valid()
        invariant Loop(raw, State()) == Loop(raw, old(State()))
        decreases |raw.toks| - pos
      {
        if pos == |raw.toks| {
          r := End();
          return;
        }
        var done;
        done, r := ConsumeOne();
        if done {
          return;
        }
      }
    }

    /** The `None` branch of `next`: drain the stack, one `VRBrace` per layout. */
    method End() returns (r: Option<Item>)
      requires Valid() && pos == |raw.toks|
      modifies this
      ensures Valid()
      ensures (r, State()) == AtEnd(raw, old(State()))
    {
      if raw.fail.Some? {
        return Some(Err(raw.fail.value));
      }
      if layouts == [] {
        return None;
      }
      var n := |layouts|;
      layouts := [];
      var k := 1;
      while k < n
        invariant 1 <= k <= n
        invariant queue == old(queue) + Repeat(VRBrace, k - 1)
        invariant layouts == [] && pos == old(pos) && pending == old(pending) && column == old(column)
      {
        queue := queue + [VRBrace];
        k := k + 1;
      }
      return Some(Ok(VRBrace));
    }

    /** One iteration of the loop of `next`. */
    method ConsumeOne() returns (done: bool, r: Option<Item>)
      requires Valid() && pos < |raw.toks|
      modifies this
      ensures Valid()
      ensures StepOf(done, r, State()) == Consume(raw, old(State()))
    {
      var sp := raw.toks[pos];
      AdvanceOver(sp);
      done, r := DispatchOn(sp.tok);
    }

    method AdvanceOver(sp: R.Spanned<RawToken>)
      requires sp.l <= sp.r
      modifies this
      ensures State() == Advance(old(State()), sp)
    {
      var t := sp.tok;
      if Settles(t) && pending.Some? {
        layouts := layouts + [WithColumn(pending.value, column)];
        pending := None;
      }
      pos := pos + 1;
      column := column + (sp.r - sp.l);
      if t.Let? {
        queue := queue + [VLBrace];
        pending := Some(Layout.Let(0));
      } else if t.By? {
        queue := queue + [VLBrace];
        pending := Some(Other(0));
      }
    }

    method DispatchOn(t: RawToken) returns (done: bool, r: Option<Item>)
      requires t.Indent? ==> |t.text| >= 1
      modifies this
      ensures StepOf(done, r, State()) == Dispatch(raw, t, old(State()))
    {
      match t {
        case Whitespace(_) =>
          return false, None;
        case Indent(text) =>
          done, r := OnIndent(|text| - 1);
        case ColonEqual =>
          return true, Some(Ok(Token.ColonEqual));
        case Let =>
          return true, Some(Ok(Token.Let));
        case By =>
          return true, Some(Ok(Token.By));
        case LParen =>
          layouts := layouts + [Paren];
          return true, Some(Ok(Token.LParen));
        case RParen =>
          r := CloseAndReturn(true);
          return true, r;
        case In =>
          r := CloseAndReturn(false);
          return true, r;
        case Identifier(x) =>
          return true, Some(Ok(Token.Identifier(x)));
      }
    }

    /** The `)` and `in` arms. */
    method CloseAndReturn(paren: bool) returns (r: Option<Item>)
      modifies this
      ensures Return(r, State()) == CloseStep(old(State()), paren)
    {
      var found := CloseLayoutsUntil(if paren then IsParen else IsLet);
      if !paren && found {
        queue := queue + [VRBrace];
      }
      queue := queue + [if paren then Token.RParen else Token.In];
      r := Some(Ok(queue[0]));
      queue := queue[1..];
    }

    /** The `Indent` arm of `next`, after the cursor has moved past the indentation. */
    method OnIndent(col: nat) returns (done: bool, r: Option<Item>)
      modifies this
      ensures StepOf(done, r, State()) == OnIndentStep(raw, col, old(State()))
    {
      column := col;
      var peeked := R.ItemAt(raw, pos);
      if peeked.Some? && peeked.value.Token? && (peeked.value.sp.tok.Indent? || peeked.value.sp.tok.In?) {
        return false, None;
      }
      if pending.Some? {
        return false, None;
      }
      if layouts != [] && Column(layouts[|layouts| - 1]) == Some(col) {
        return true, Some(Ok(VSemicolon));
      }
      if Above(layouts, col) {
        layouts := layouts[..|layouts| - 1];
        PopWhileAbove(col);
        return true, Some(Ok(VRBrace));
      }
      return false, None;
    }

    /** The inner dedent loop: pop while the top layout's column is greater than `col`. */
    method PopWhileAbove(col: nat)
      modifies this
      ensures (layouts, queue) == PopAbove(old(layouts), col, old(queue))
      ensures pos == old(pos) && pending == old(pending) && column == old(column)
    {
      while Above(layouts, col)
        invariant PopAbove(layouts, col, queue) == PopAbove(old(layouts), col, old(queue))
        invariant pos == old(pos) && pending == old(pending) && column == old(column)
        decreases |layouts|
      {
        layouts := layouts[..|layouts| - 1];
        queue := queue + [VRBrace];
      }
    }

    /** `close_layouts_until`. */
    method CloseLayoutsUntil(p: Layout -> bool) returns (found: bool)
      modifies this
      ensures (found, layouts, queue) == CloseUntil(old(layouts), old(queue), p)
      ensures pos == old(pos) && pending == old(pending) && column == old(column)
    {
      while true
        invariant CloseUntil(layouts, queue, p) == CloseUntil(old(layouts), old(queue), p)
        invariant pos == old(pos) && pending == old(pending) && column == old(column)
        decreases |layouts|
      {
        if layouts == [] {
          return false;
        }
        var l := layouts[|layouts| - 1];
        layouts := layouts[..|layouts| - 1];
        if p(l) {
          return true;
        } else if !l.Paren? {
          queue := queue + [VRBrace];
        }
      }
    }
  }
}
