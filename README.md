# lexi-matic, modelled in Dafny

lexi-matic is a lexer generator for Rust. A `#[derive(Lexer)]` on an enum collects one regex per
variant: `#[regex(...)]`, or a `#[token(...)]` literal after escaping. It also collects the
enum's `#[lexer(skip = ...)]` regexes. From these it builds one anchored multi-pattern DFA and
emits an iterator. Each call of the iterator's `next` walks the DFA over the rest of the input
and keeps the longest match; on ties the first declared pattern wins. A skip match is passed
over. A variant's `#[lexer(more = f)]` continuation may extend a token or refuse it. The
iterator yields `Ok((start, token, end))`, `Err(Error(at))` or the end of input.

The repository's tests also build two post-processors on top of generated lexers:

- a Haskell-style layout pass that inserts virtual braces and semicolons;
- a Python-style indentation pass that inserts `Indent` and `Dedent`.

Both are modelled here, together with the `end_raw_str` continuation of the simple test lexer.

The project has ten modules.

| module | models |
|---|---|
| `Wrappers` | shared helpers: `Option`, `Last` of a sequence, and `Repeat` for a run of one token |
| `DfaSearch` | `dfa_search_next`, over an abstract DFA, and what it computes for a correct DFA |
| `Derive` | the checks and the rule list of `derive_lexer_impl` |
| `Scan` | the generated iterator as a class, and its `next` |
| `RawString` | `end_raw_str` |
| `RawStream` | the raw token stream a post-processor reads |
| `LayoutRules` | the layout post-processor |
| `IndentationSensitive` | the indentation post-processor, in two revisions |
| `IndentationExamples` | concrete runs of the indentation pass |
| `LayoutExamples` | concrete runs of the layout pass |

Each imperative piece of the source is a method whose `ensures` ties its result and new state
to a specification function. The properties are proved about those functions:

- longest match, first rule on ties;
- the tokens returned tile the input;
- an error repeats on every later call;
- the post-processors keep their stacks well formed;
- the indentation pass, as corrected, emits as many `Dedent`s as `Indent`s;
- each call of the layout pass's `next` changes the braces still owed by exactly the brace it
  returns. The one exception is the end of input, where every open parenthesis is also
  closed by a `VRBrace`.

## Model

| member | source | states |
|---|---|---|
| DfaSearch.SearchNext | src/lib.rs:26-51 | the walk returns the longest non-empty length the DFA records, with the first pattern of the match state that recorded it, or `None` when nothing non-empty is recorded |
| DfaSearch.WalkIsSearch | src/lib.rs:33-50 | the byte-by-byte loop equals the declarative longest-recorded-length specification. The loop records a match one byte late, stops at the first dead state and skips the end-of-input step after it |
| DfaSearch.SearchMeaning | src/lib.rs:46-50 | the result is `None` exactly when no non-empty length is recorded; otherwise its length is recorded and no longer length is |
| DfaSearch.StopIgnoresRest | src/lib.rs:37-38 | once a dead non-match state is reached, the bytes after it never change the result |
| DfaSearch.RecordedIffMatched | src/lib.rs:34-44 | for a DFA that recognises the rule list, a length is recorded iff some pattern matches that prefix. The reported pattern is the first declared one that matches it |
| DfaSearch.LongestMatch | src/lib.rs:26-51 | for a correct DFA, the result is the longest matching non-empty prefix with the first matching pattern. It is `None` iff no non-empty prefix matches |
| DfaSearch.SearchFinds | src/lib.rs:46-47 | conversely, the longest matching prefix and its first pattern are what the walk returns |
| DfaSearch.SearchFails | src/lib.rs:48-49 | with no matching non-empty prefix the walk returns `None` |
| Derive.ParseNestedMeta | lexi-matic-derive/src/lib.rs:30-38 | succeeds iff every entry of a `lexer` attribute has the expected key; the values are then collected in order |
| Derive.ParseLexerAttrs | lexi-matic-derive/src/lib.rs:27-40 | over all `lexer` attributes: succeeds iff every entry has the key (`skip` on the enum, `more` on a variant), with all values in order |
| Derive.FindRuleRegex | lexi-matic-derive/src/lib.rs:81-100 | a second `regex`/`token` attribute is reported as duplicated. Otherwise the result is the single regex, a `token` literal escaped, or none |
| Derive.DeriveRules | lexi-matic-derive/src/lib.rs:19-111 | non-enums are rejected; an enum-level entry other than `skip` is rejected. Otherwise the first variant with an error gives that error. On success pattern `i` is variant `i`'s regex, the skip regexes follow all variants, and each arm has the variant's last `more` and whether it has fields |
| Scan.LexIterator.constructor | lexi-matic-derive/src/lib.rs:151-156 | a fresh iterator starts at offset 0 of its input |
| Scan.LexIterator.Next | lexi-matic-derive/src/lib.rs:166-190 | one call returns the item of the `next` specification and moves the cursor to where it leaves off |
| Scan.NextAt | lexi-matic-derive/src/lib.rs:169-190 | the loop of `next` from a cursor meets the specification: skip matches are passed over and the first token, error or end is returned |
| Scan.Emit | lexi-matic-derive/src/lib.rs:60-79 | a variant's match arm runs its continuation. A refusal is an error at the token start with the cursor left there; otherwise the token spans the match plus the extension and carries its text iff the variant has fields |
| Scan.ArmItem | lexi-matic-derive/src/lib.rs:60-79 | the arm yields an error exactly when the continuation refuses, and otherwise a token starting at the cursor and ending where the cursor moves |
| Scan.NextFrom | lexi-matic-derive/src/lib.rs:169-190 | the cursor never moves backwards or past the input, and a returned token lies between the old and the new cursor and is non-empty |
| Scan.NextFromSkip | lexi-matic-derive/src/lib.rs:182-186 | a skip match at the cursor is passed over and `next` continues after it |
| Scan.NextFromEnds | lexi-matic-derive/src/lib.rs:172-174 | `next` returns `None` only when skip matches cover the rest of the input from the cursor |
| Scan.NextFromFails | lexi-matic-derive/src/lib.rs:176-179 | an error at `a` means skip matches lead from the cursor to `a`. At `a` either nothing matches or the continuation refuses; the cursor stays at `a` |
| Scan.NextFromToken | lexi-matic-derive/src/lib.rs:180-189 | a token from `s` to `e` means skip matches lead from the cursor to `s`. The token is what the match at `s` and its continuation give; the cursor moves to `e` |
| Scan.ErrorRepeats | lexi-matic-derive/src/lib.rs:176-179 | after an error the cursor does not move, so every later call returns the same error |
| Scan.DrainTiles | lexi-matic-derive/src/lib.rs:169-190 | the items returned until the end or the first error tile the input, with only skip matches between consecutive tokens |
| Scan.TokenIsLongestMatch | lexi-matic-derive/src/lib.rs:176-189 | for a correct DFA, each token starts with the longest prefix any rule matches, and its variant is the first declared rule matching that prefix. Without a continuation the token is exactly that prefix |
| Scan.FailureIsNoMatch | lexi-matic-derive/src/lib.rs:176-178 | for a correct DFA without continuations, an error at `a` means no rule matches any non-empty prefix there |
| RawString.Closer | tests/simple.rs:23 | the closer is the opening without its `r`, read backwards |
| RawString.FindFrom | tests/simple.rs:24 | the search gives the first offset from `from` on where the pattern occurs, or `None` when it occurs nowhere from there |
| RawString.EndRawStrMeaning | tests/simple.rs:22-25 | `None` exactly when the closer never occurs in the rest of the input. Otherwise the raw string ends right after the first occurrence of the closer |
| RawString.CloserOfHashQuote | tests/simple.rs:12-13 | the opening `r#"` is closed by `"#` |
| RawString.EndRawStrOfHashQuote | tests/simple.rs:22-25 | after the opening `r#"`, the rest `abc"#` gives a raw string of five more bytes, up to and including `"#` |
| RawString.EndRawStrBounded | tests/simple.rs:22-25 | as a continuation, `end_raw_str` never claims more bytes than remain, so the generated lexer may use it |
| RawStream.ItemAt | tests/layout_rules.rs:107-109 | reading the raw stream gives its tokens in order and then the lexer's error, if any, or the end |
| RawStream.FromItems | tests/layout_rules.rs:91 | the raw stream a post-processor reads holds the lexer's tokens up to its first error, which becomes the stream's terminal error |
| RawStream.DrainOrdered | lexi-matic-derive/src/lib.rs:188-189 | the tokens a generated lexer returns are non-empty, in input order and non-overlapping. An error can only come last |
| RawStream.LexerStreamWellFormed | lexi-matic-derive/src/lib.rs:166-190 | the raw stream a post-processor reads from a generated lexer is well formed |
| LayoutRules.Column | tests/layout_rules.rs:65-71 | only a parenthesis has no column |
| LayoutRules.WithColumn | tests/layout_rules.rs:73-79 | the layout keeps its kind and takes the new column, except a parenthesis, which stays column-less |
| LayoutRules.CloseUntilMeaning | tests/layout_rules.rs:204-214 | the stack is cut just below the topmost layout satisfying the predicate, or emptied if there is none. One `VRBrace` is queued per closed non-parenthesis layout above the cut |
| LayoutRules.CloseUntilBalance | tests/layout_rules.rs:204-214 | closing trades every closed `let`/`by` layout for a queued `VRBrace`, except the one the predicate matched |
| LayoutRules.PopAbove | tests/layout_rules.rs:155-158 | the dedent loop leaves no layout with a greater column on top. Every popped layout had a column above the new one and got a `VRBrace` |
| LayoutRules.PopAboveBalance | tests/layout_rules.rs:152-158 | each layout popped by a dedent is traded for one queued `VRBrace` |
| LayoutRules.AdvanceBalance | tests/layout_rules.rs:110-126 | settling the pending layout and opening a new one keep the brace balance; whitespace and indentation touch no layout |
| LayoutRules.IndentBalance | tests/layout_rules.rs:129-164 | an indentation is passed over without touching the layouts, or returns a `VSemicolon`, or returns a `VRBrace` for each layout it closes |
| LayoutRules.CloseStepBalance | tests/layout_rules.rs:172-185 | `)` and `in` change the brace balance by exactly the brace of the token they return |
| LayoutRules.PlainPasses | tests/layout_rules.rs:165-171 | among the remaining arms, only whitespace is passed over |
| LayoutRules.OpenParenBalance | tests/layout_rules.rs:168-171 | `(` opens a parenthesis layout, which owes no brace |
| LayoutRules.PlainBalance | tests/layout_rules.rs:165-186 | the arms that return a token directly keep the brace balance |
| LayoutRules.DispatchBalance | tests/layout_rules.rs:127-187 | only whitespace and indentation are passed over, and without touching the stack. Every other raw token returns, changing the balance by the brace it returns |
| LayoutRules.ConsumeBalance | tests/layout_rules.rs:109-188 | one raw token is passed over with only cursor and column moving, or makes `next` return a token whose brace matches the change of balance |
| LayoutRules.AtEndBalance | tests/layout_rules.rs:189-197 | at the end of the raw stream the balance moves by the returned brace plus one per open parenthesis, since draining the stack gives each parenthesis a `VRBrace` too |
| LayoutRules.LoopBalance | tests/layout_rules.rs:105-199 | the loop changes the balance by exactly the brace it returns, plus one per open parenthesis when it runs out of raw tokens without an error |
| LayoutRules.NextBalance | tests/layout_rules.rs:100-200 | every call of `next` changes the braces owed by the brace it returns. The only exception is a call that runs out of raw tokens, which also closes each open parenthesis with a `VRBrace`. A queued token is returned without reading raw input |
| LayoutRules.EndOfInput | tests/layout_rules.rs:189-197 | at the end of the raw stream `next` reports the lexer's error. Otherwise it returns one `VRBrace` per open layout, the first directly and the rest queued, and then `None` |
| LayoutRules.TokenIterator.constructor | tests/layout_rules.rs:47-55 | a fresh iterator has no layouts, nothing pending, column 0 and an empty queue |
| LayoutRules.TokenIterator.Next | tests/layout_rules.rs:101-200 | one call returns the item and the new state of the `next` specification |
| LayoutRules.TokenIterator.End | tests/layout_rules.rs:189-197 | the `None` branch drains the stack into one `VRBrace` per layout |
| LayoutRules.TokenIterator.ConsumeOne | tests/layout_rules.rs:109-188 | one loop iteration does what the specification says for one raw token |
| LayoutRules.TokenIterator.AdvanceOver | tests/layout_rules.rs:110-126 | a settling token pushes the pending layout at the current column; the column advances; `let`/`by` queue a `VLBrace` and open a pending layout |
| LayoutRules.TokenIterator.DispatchOn | tests/layout_rules.rs:127-187 | the `match` on the raw token meets the specification's dispatch |
| LayoutRules.TokenIterator.CloseAndReturn | tests/layout_rules.rs:172-185 | `)` and `in` close layouts, queue their token and return the first queued token |
| LayoutRules.TokenIterator.OnIndent | tests/layout_rules.rs:129-164 | the indentation arm meets the specification: ignored lines, `VSemicolon` at the block's column, `VRBrace`s below it |
| LayoutRules.TokenIterator.PopWhileAbove | tests/layout_rules.rs:155-158 | the inner dedent loop meets `PopAbove` and changes nothing else |
| LayoutRules.TokenIterator.CloseLayoutsUntil | tests/layout_rules.rs:204-214 | the loop meets `CloseUntil` and changes nothing else |
| IndentationSensitive.DedentLoopMeaning | tests/indentation_sensitive.rs:107-133 | the levels above the new one are popped, each with a queued `Dedent`. The result is `Dedent` iff the new level is then the innermost; otherwise a misalignment error, with `Dedent` and `Indent` queued and the new level innermost |
| IndentationSensitive.DedentKeepsInv | tests/indentation_sensitive.rs:107-133 | the dedent loop leaves the levels positive and strictly increasing |
| IndentationSensitive.ConsumeKeepsInv | tests/indentation_sensitive.rs:78-146 | one raw token keeps the levels positive and strictly increasing |
| IndentationSensitive.LoopKeepsInv | tests/indentation_sensitive.rs:77-157 | the loop of `next` keeps the levels positive and strictly increasing |
| IndentationSensitive.NextKeepsInv | tests/indentation_sensitive.rs:72-158 | every call of `next` keeps the levels positive and strictly increasing, as written and as corrected |
| IndentationSensitive.InsideBrackets | tests/indentation_sensitive.rs:89-91 | while a bracket is open, `next` never returns `Indent`; it returns `Dedent` only after the whole raw stream is read, and otherwise leaves the levels alone, including on the call that reads the last raw token |
| IndentationSensitive.QueuedDedents | tests/indentation_sensitive.rs:73-75 | queued dedents come out one per call, then `None` |
| IndentationSensitive.EndOfInput | tests/indentation_sensitive.rs:147-155 | at the end of the raw stream `next` reports the lexer's error without moving. Otherwise it returns one `Dedent` per open level and then `None` |
| IndentationSensitive.ClosingDedents | tests/indentation_sensitive.rs:148-152 | with levels open at the end, the next calls are one `Dedent` per level and then `None` |
| IndentationSensitive.DedentLoopBalance | tests/indentation_sensitive.rs:111-132 | as corrected, the dedent loop keeps open levels plus queued dedents minus queued indents unchanged when it returns `Dedent`, and raises it by one (the newly nested block) when it reports a misalignment; it returns nothing else |
| IndentationSensitive.ConsumeBalance | tests/indentation_sensitive.rs:78-146 | as corrected, one raw token changes the blocks a consumer sees open by exactly what it returns |
| IndentationSensitive.LoopBalance | tests/indentation_sensitive.rs:77-157 | as corrected, the loop changes the blocks seen open by what it returns, and returns `None` only with no block open or owed |
| IndentationSensitive.NextBalance | tests/indentation_sensitive.rs:72-158 | as corrected, each call of `next` changes the blocks seen open by what it returns, and `None` only comes with none open or owed |
| IndentationSensitive.RunBalance | tests/indentation_sensitive.rs:72-158 | as corrected, after any number of calls the blocks seen open equal the start's plus the indents minus the dedents returned |
| IndentationSensitive.RunsAreBalanced | tests/indentation_sensitive.rs:72-158 | as corrected, a run from the start that ends with `None` returned as many `Dedent`s as `Indent`s |
| IndentationSensitive.TokenIterator.constructor | tests/indentation_sensitive.rs:59-66 | a fresh iterator has no levels, no open bracket and an empty queue |
| IndentationSensitive.TokenIterator.Next | tests/indentation_sensitive.rs:72-158 | one call returns the item and the new state of the `next` specification |
| IndentationSensitive.TokenIterator.End | tests/indentation_sensitive.rs:147-155 | the `None` branch drains the levels into one `Dedent` per level |
| IndentationSensitive.TokenIterator.ConsumeOne | tests/indentation_sensitive.rs:78-146 | one loop iteration does what the specification says for one raw token |
| IndentationSensitive.TokenIterator.OnIndent | tests/indentation_sensitive.rs:88-135 | the indentation arm meets the specification: ignored inside brackets and before blank lines, `Indent` for a deeper level, `Dedent`s or a misalignment for a shallower one |
| IndentationSensitive.TokenIterator.PopToLevel | tests/indentation_sensitive.rs:111-132 | the inner dedent loop meets `DedentLoop` and changes nothing else |
| IndentationExamples.TestExpected | tests/indentation_sensitive.rs:161-209 | on the test's input, both revisions return exactly the test's expected tokens and then `None` |
| IndentationExamples.MisalignedAsWritten | tests/indentation_sensitive.rs:114-122 | as written, input `"a\n b\n    c\n        d\n  e"` gives four `Indent`s and only three `Dedent`s before `None` |
| IndentationExamples.MisalignedCorrected | tests/indentation_sensitive.rs:114-122 | as corrected, the same input gives four `Indent`s and four `Dedent`s before `None` |
| LayoutExamples.LayoutExpected | tests/layout_rules.rs:217-250 | on the input of `test`, `next` returns exactly the test's expected tokens and then `None` |
| LayoutExamples.SameColumnExpected | tests/layout_rules.rs:252-285 | on the input of `test1`, `next` returns exactly the test's expected tokens and then `None` |
| LayoutExamples.SameLineExpected | tests/layout_rules.rs:287-313 | on the input of `test_let_in_same_line`, `next` returns exactly the test's expected tokens and then `None` |
| LayoutExamples.NestedLetExpected | tests/layout_rules.rs:315-346 | on the input of `test_nested_let`, `next` returns exactly the test's expected tokens and then `None` |
| LayoutExamples.ByLayoutExpected | tests/layout_rules.rs:348-396 | on the input of `test_by_layout`, `next` returns exactly the test's expected tokens and then `None` |
| LayoutExamples.LetByExpected | tests/layout_rules.rs:398-429 | on the input of `test_let_by_layout`, `next` returns exactly the test's expected tokens and then `None` |
| LayoutExamples.LetBySingleLineExpected | tests/layout_rules.rs:431-456 | on the input of `test_let_by_single_line`, `next` returns exactly the test's expected tokens and then `None` |
| LayoutExamples.ParensExpected | tests/layout_rules.rs:458-508 | on the input of `test_parens`, `next` returns exactly the test's expected tokens and then `None` |
| LayoutExamples.ByInParensExpected | tests/layout_rules.rs:510-539 | on the input of `test_by_in_parens`, `next` returns exactly the test's expected tokens and then `None` |
| LayoutExamples.OpenLetExpected | tests/layout_rules.rs:116-119 | on input `let`, `next` returns `Let`, `VLBrace` and then `None`: the pending layout is never closed |
| LayoutExamples.OpenParenExpected | tests/layout_rules.rs:189-194 | on input `(`, `next` returns `LParen`, a `VRBrace` that no `VLBrace` opened, and then `None` |

## Left out

- DFA construction is not modelled: the `regex_automata` builder, minimisation, and serialisation to little- and big-endian bytes behind a `OnceLock`. The DFA is an abstract `Automaton`. `Recognizes` states the properties a DFA built with "all matches" semantics and anchored starts is relied on to have.
- `regex_syntax::escape` is a parameter of `Derive`, not a definition.
- The `syn`/`quote` parsing and code generation are not modelled. Attributes arrive already parsed, and a parse failure of an attribute's literal is not modelled. The generated arms are data (`Derive.Arm`), which `Scan` interprets.
- The `Display` and `std::error::Error` implementations and the test helper `assert_tokens` are not modelled.
- Inputs are byte sequences. A Rust `&str` slice at a non-character boundary would panic, and UTF-8 is not modelled.
- Scan.LexIterator.Next requires every `more` continuation to claim no more bytes than remain (`ContinuationsBounded`). Otherwise the generated code goes wrong. A variant with fields panics at once, when it slices out its text. A variant without fields returns a token that ends past the input, and the next call panics when it slices the rest of the input. Panics are not modelled. The same requirement sits on every other `Scan` member from `Scan.ArmItem` on (`Scan.Emit`, `Scan.NextFrom` and the `NextFrom*` lemmas, `Scan.NextAt`, `Scan.DrainTiles`, `Scan.ErrorRepeats`, `Scan.TokenIsLongestMatch`, `Scan.FailureIsNoMatch`) and on `RawStream.DrainOrdered` and `RawStream.LexerStreamWellFormed`, so every `Scan` and `RawStream` result about a lexer holds only for lexers whose continuations are bounded. `RawString.EndRawStrBounded` shows that `end_raw_str` meets the requirement.
- RawString.EndRawStrMeaning requires a non-empty `matched`. The rule `r#*"` always matches at least two bytes, and `matched[1..]` would panic on an empty one.
- RawString.Closer reverses bytes where the source reverses characters. The two agree on the ASCII openings the rule `r#*"` matches.
- Machine integer widths (`usize`) are not modelled; counts and offsets are unbounded.
- The raw token stream of each post-processor is a sequence of spanned tokens followed by an optional terminal error; `peek` reads the element under the cursor. `RawStream.LexerStreamWellFormed` shows that a generated lexer's output has this shape. The post-processors themselves are stated over any well-formed stream, because the raw lexers of the tests rest on concrete DFAs that are not built here.
- The concrete run of `tests/simple.rs` is not reproduced, for the same reason: its tokens come straight from a generated lexer. The tests of both post-processors are replayed instead, from their raw tokens written out by hand.
- No brace balance is stated for a whole run of the layout pass, because it has none at the end of input. A trailing `let` or `by` gets a `VLBrace`, and its pending layout is never closed (`LayoutExamples.OpenLetExpected`). An open parenthesis gets a `VRBrace` that no `VLBrace` opened (`LayoutExamples.OpenParenExpected`). `LayoutRules.NextBalance` states each call exactly, the end step included.

## Findings

| source | as written | input that shows it | evidently intended | confidence | as-written member | corrected member |
|---|---|---|---|---|---|---|
| tests/indentation_sensitive.rs:116 | on a misaligned dedent the loop pops one more level before pushing the new one. The level popped there still has a block open, and it never gets a `Dedent` | `"a\n b\n    c\n        d\n  e"`: four `Indent`s but three `Dedent`s before `None` | the new level nests inside the remaining levels (no extra pop), so every `Indent` is matched by a `Dedent` | not executed | IndentationExamples.MisalignedAsWritten | IndentationSensitive.RunsAreBalanced |
