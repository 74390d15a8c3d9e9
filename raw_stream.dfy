/** The raw token stream both post-processors read through a `Peekable`: the spanned
    tokens a generated lexer yields, then either the end of input or a lexical error that
    the lexer repeats on every later call. The cursor is an index into the tokens. */
module RawStream {

  import opened Wrappers
  import Scan
  import opened DfaSearch

  datatype Spanned<T> = Spanned(l: nat, tok: T, r: nat)

  /** One item of the stream: `Ok((l, t, r))` or `Err(Error(at))`. */
  datatype Item<T> = Token(sp: Spanned<T>) | Error(at: nat)

  datatype Stream<T> = Stream(toks: seq<Spanned<T>>, fail: Option<nat>)

  /** What `next` (or `peek`) yields with the cursor at `i`. */
  function ItemAt<T>(s: Stream<T>, i: nat): (r: Option<Item<T>>)
    ensures r.None? <==> i >= |s.toks| && s.fail.None?
    ensures i < |s.toks| ==> r == Some(Token(s.toks[i]))
  {
    if i < |s.toks| then Some(Token(s.toks[i]))
    else if s.fail.Some? then Some(Error(s.fail.value))
    else None
  }

  /** Tokens are non-empty, in input order and do not overlap; an error lies after them. */
  ghost predicate WellFormed<T>(s: Stream<T>)
  {
    && (forall i :: 0 <= i < |s.toks| ==> s.toks[i].l < s.toks[i].r)
    && (forall i :: 0 < i < |s.toks| ==> s.toks[i - 1].r <= s.toks[i].l)
    && (s.fail.Some? && s.toks != [] ==> s.toks[|s.toks| - 1].r <= s.fail.value)
  }

  /** From token `i` on, each token is non-empty and starts at or after `from` and after
      the token before it: a check that unfolds on a stream written out token by token. */
  predicate InOrderFrom<T>(toks: seq<Spanned<T>>, i: nat, from: nat)
    decreases |toks| - i
  {
    i >= |toks| || (from <= toks[i].l < toks[i].r && InOrderFrom(toks, i + 1, toks[i].r))
  }

  lemma {:induction false} InOrderWellFormed<T>(toks: seq<Spanned<T>>, i: nat, from: nat)
    requires InOrderFrom(toks, i, from)
    ensures forall j :: i <= j < |toks| ==> toks[j].l < toks[j].r
    ensures forall j :: i < j < |toks| ==> toks[j - 1].r <= toks[j].l
    ensures i < |toks| ==> from <= toks[i].l
    decreases |toks| - i
  {
    if i < |toks| {
      InOrderWellFormed(toks, i + 1, toks[i].r);
    }
  }

  /** The stream of a generated lexer's items up to its first error, each token's variant
      and text turned into the post-processor's raw token type by `conv`. */
  function FromItems<T>(items: seq<Scan.LexItem>, conv: Scan.Token -> T): (s: Stream<T>)
    ensures |s.toks| <= |items|
    ensures forall i :: 0 <= i < |s.toks| ==>
              items[i].Ok? && s.toks[i] == Spanned(items[i].start, conv(items[i].token), items[i].end)
    ensures s.fail.Some? ==> |s.toks| < |items| && items[|s.toks|] == Scan.Err(s.fail.value)
    ensures s.fail.None? ==> |s.toks| == |items|
  {
    if items == [] then Stream([], None)
    else match items[0]
      case Err(a) => Stream([], Some(a))
      case Ok(l, t, r) =>
        var rest := FromItems(items[1..], conv);
        Stream([Spanned(l, conv(t), r)] + rest.toks, rest.fail)
  }

  /** Everything `Drain` yields from `pos` on lies at or after `pos`, in order and without
      overlap. */
  lemma {:induction false} DrainOrdered(lx: Scan.Lexer, input: seq<byte>, pos: nat)
    requires pos <= |input| && Scan.ContinuationsBounded(lx)
    ensures forall i :: 0 <= i < |Scan.Drain(lx, input, pos)| ==>
              match Scan.Drain(lx, input, pos)[i]
              case Ok(s, _, e) => pos <= s < e <= |input|
              case Err(a) => pos <= a && i == |Scan.Drain(lx, input, pos)| - 1
    ensures forall i :: 0 <= i < |Scan.Drain(lx, input, pos)| - 1 ==>
              Scan.Drain(lx, input, pos)[i].Ok? &&
              Scan.Drain(lx, input, pos)[i].end <= StartOf(Scan.Drain(lx, input, pos)[i + 1])
    decreases |input| - pos
  {
    var res := Scan.NextFrom(lx, input, pos);
    match res.0
    case None =>
    case Some(Err(a)) =>
      Scan.NextFromFails(lx, input, pos, a);
    case Some(Ok(s, t, e)) =>
      Scan.NextFromToken(lx, input, pos, s, t, e);
      DrainOrdered(lx, input, e);
      var d := Scan.Drain(lx, input, pos);
      assert d == [Scan.Ok(s, t, e)] + Scan.Drain(lx, input, e);
      forall i | 0 <= i < |d| - 1
        ensures d[i].Ok? && d[i].end <= StartOf(d[i + 1])
      {
        if i > 0 {
          assert d[i] == Scan.Drain(lx, input, e)[i - 1];
        }
      }
  }

  function StartOf(item: Scan.LexItem): nat
  {
    match item
    case Ok(s, _, _) => s
    case Err(a) => a
  }

  /** The raw stream a post-processor reads from a generated lexer is well formed. */
  lemma LexerStreamWellFormed<T>(lx: Scan.Lexer, input: seq<byte>, conv: Scan.Token -> T)
    requires Scan.ContinuationsBounded(lx)
    ensures WellFormed(FromItems(Scan.Drain(lx, input, 0), conv))
  {
    var d := Scan.Drain(lx, input, 0);
    DrainOrdered(lx, input, 0);
    var s := FromItems(d, conv);
    forall i | 0 < i < |s.toks| ensures s.toks[i - 1].r <= s.toks[i].l {
      assert d[i - 1].end <= StartOf(d[i - 1 + 1]);
    }
    if s.fail.Some? && s.toks != [] {
      assert d[|s.toks| - 1].end <= StartOf(d[|s.toks|]);
    }
  }
}
