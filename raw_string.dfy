/** The `more` continuation `end_raw_str` of the example lexer (tests/simple.rs): a raw
    string opened by `r`, some `#`s and `"` is closed by `"` and the same number of `#`s. */
module RawString {

  import opened Wrappers
  import opened DfaSearch
  import Scan

  /** `s` read backwards. */
  function Reverse(s: seq<byte>): (r: seq<byte>)
    ensures |r| == |s|
    ensures forall i :: 0 <= i < |s| ==> r[i] == s[|s| - 1 - i]
  {
    if s == [] then [] else [s[|s| - 1]] + Reverse(s[..|s| - 1])
  }

  /** `pat` occurs in `s` at byte offset `i`. */
  predicate OccursAt(pat: seq<byte>, s: seq<byte>, i: nat)
  {
    i + |pat| <= |s| && s[i..i + |pat|] == pat
  }

  /** `str::find` from offset `from`: the first offset at or after `from` where `pat`
      occurs. */
  function FindFrom(s: seq<byte>, pat: seq<byte>, from: nat): (r: Option<nat>)
    ensures r.Some? ==> from <= r.value && OccursAt(pat, s, r.value)
    ensures r.Some? ==> forall j: nat :: from <= j < r.value ==> !OccursAt(pat, s, j)
    ensures r.None? ==> forall j: nat :: from <= j ==> !OccursAt(pat, s, j)
    decreases |s| - from
  {
    if from + |pat| > |s| then None
    else if s[from..from + |pat|] == pat then Some(from)
    else FindFrom(s, pat, from + 1)
  }

  function Find(s: seq<byte>, pat: seq<byte>): Option<nat>
  {
    FindFrom(s, pat, 0)
  }

  /** The closing delimiter of a raw string whose opening is `matched`: the opening
      without its `r`, reversed. */
  function Closer(matched: seq<byte>): (c: seq<byte>)
    requires |matched| >= 1
    ensures |c| == |matched| - 1
    ensures forall i :: 0 <= i < |c| ==> c[i] == matched[|matched| - 1 - i]
  {
    Reverse(matched[1..])
  }

  /** `end_raw_str`: how many bytes of `remaining` belong to the raw string, up to and
      including the first closer, or `None` (a lexical error) if the closer never occurs. */
  function EndRawStr(matched: seq<byte>, remaining: seq<byte>): Option<nat>
    requires |matched| >= 1
  {
    match Find(remaining, Closer(matched))
    case None => None
    case Some(l) => Some(l + |Closer(matched)|)
  }

  /** `None` exactly when the closer does not occur; otherwise the token ends right after the
      first occurrence of the closer, which lies inside `remaining`. */
  lemma EndRawStrMeaning(matched: seq<byte>, remaining: seq<byte>)
    requires |matched| >= 1
    ensures var c := Closer(matched);
            EndRawStr(matched, remaining).None? <==> forall j: nat :: !OccursAt(c, remaining, j)
    ensures var c := Closer(matched);
            var r := EndRawStr(matched, remaining);
            r.Some? ==>
              |c| <= r.value <= |remaining| &&
              remaining[r.value - |c|..r.value] == c &&
              forall j: nat :: j < r.value - |c| ==> !OccursAt(c, remaining, j)
  {
    var c := Closer(matched);
    match Find(remaining, c)
    case None =>
    case Some(l) =>
      assert OccursAt(c, remaining, l);
  }

  /** The opening `r#"` is closed by `"#`. */
  lemma CloserOfHashQuote()
    ensures Closer("r#\"") == "\"#"
  {
    assert Closer("r#\"") == Reverse("#\"");
    assert Reverse("#\"") == ['"'] + Reverse("#");
  }

  /** `end_raw_str` applied to the raw string `r#"abc"#`: after the opening `r#"`, the token
      takes the five bytes `abc"#`. */
  lemma EndRawStrOfHashQuote()
    ensures EndRawStr("r#\"", "abc\"#") == Some(5)
  {
    CloserOfHashQuote();
    var rest: seq<byte> := "abc\"#";
    assert rest[0..2][0] == 'a' && rest[1..3][0] == 'b' && rest[2..4][1] == '"';
    assert rest[3..5] == "\"#";
    assert Find(rest, "\"#") == Some(3);
  }

  /** `end_raw_str` as the generated lexer calls it, on any matched text. The pattern `r#*"`
      never matches an empty text; on one the source would panic slicing it, and here the
      continuation reports a lexical error instead. */
  function EndRawStrMore(matched: seq<byte>, remaining: seq<byte>): Option<nat>
  {
    if |matched| == 0 then None else EndRawStr(matched, remaining)
  }

  /** The continuation never claims more bytes than remain, as the generated lexer needs. */
  lemma EndRawStrBounded()
    ensures Scan.Bounded(EndRawStrMore)
  {
    forall m: seq<byte>, rest: seq<byte> | EndRawStrMore(m, rest).Some?
      ensures EndRawStrMore(m, rest).value <= |rest|
    {
      EndRawStrMeaning(m, rest);
    }
  }
}
