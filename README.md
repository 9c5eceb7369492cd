# texide front end, in Dafny

This project models the front end of texide, a TeX interpreter written in Rust, and proves
properties of the model. The front end covers how characters of a TeX file become the tokens
the interpreter executes:

- **Scoped maps.** `ScopedMap` is the map with nested scopes that holds category codes and
  primitives. Ending a scope rolls back every insert made in it, and `insert_global` writes
  through every open scope. The class keeps the Rust representation: a value stack per key and
  a stack of changed-key sets. It is proved against an abstract view, the map visible at each
  scope depth, and the two representation invariants of the source are its `Valid()`.
- **Category codes.** These are the 16 TeX category codes, their integer encodings and TeX's
  default table.
- **The lexer.** A raw lexer reads the file one line at a time and pairs characters with
  their category codes. The lexer on top of it turns those into TeX tokens one request at a
  time, using the catcode map current at that request. It reads control-sequence names,
  collapses whitespace, turns blank lines into `\par`, strips comments and trims whitespace
  after control sequences. `LexerSpec.Lex` says what one request computes, and the
  `Lexers.Lexer` class is proved to compute it. The source's unit tests are lemmas about
  `LexAll`.
- **Token streams.** `EmptyStream`, `SingletonStream` and `VecStream` are classes whose
  operations are stated against the tokens they still have to yield.
- **The input module.** It is a one-token cache in front of the lexer.
- **The execution driver.** The unexpanded stream is a stack of token streams over the
  input module. The expanded stream expands control sequences bound to primitives before it
  hands tokens out. `DriverSpec` states on values what each operation computes, and the
  `Driver` classes are proved to compute exactly that.

Modules follow the source files:

| module | source |
|---|---|
| `ScopedMaps` | src/scopedmap.rs |
| `CatCodes` | src/tex/token/catcode.rs |
| `Tokens` | the token value of src/tex/token/token.rs |
| `LexerSpec`, `Lexers` | src/tex/token/lexer.rs |
| `Streams` | src/tex/token/stream.rs |
| `Input` | src/tex/input.rs |
| `DriverSpec`, `Driver` | src/tex/driver.rs |

The unit tests and documentation examples are stated in `ScopedMapExamples`, `LexerExamples`,
`StreamExamples` and `DriverExamples`. `Wrappers` holds `Option` and `Result`.

Where the code and its surroundings differ, the model follows the code:

- `catcode.rs` imports the scoped map from `crate::datastructures::scopedmap` and calls
  `ScopedMap::extend`, which src/scopedmap.rs does not define. `extend` is modelled as
  inserting the pairs one after another, in order (`CatCodes.Extended`).
- The lexer's catcode argument is the whole `ScopedMap`, but the lexer only ever calls `get`
  on it. The model therefore passes the innermost scope's map (`ScopedMap.Current()`). A
  character absent from that map has code Other (`LexerSpec.Code`).
- The lexer's input is a `BufRead` read one line at a time with `read_line`. Here it is the
  file's text as one sequence of characters. `FillBuffer` cuts it into lines that keep their
  trailing newline (`Lexers.LineLength`).

## Model

| member | source | states |
|---|---|---|
| CatCodes.Int | src/tex/token/catcode.rs:49-63 | a regular code's number is one of 1-4, 6-8, 10-13 |
| CatCodes.FromInt | src/tex/token/catcode.rs:65-80 | decoding succeeds exactly on those numbers (None for 0, 5, 9, 14, 15 and above), and what it returns encodes back to the number |
| CatCodes.RawInt | src/tex/token/catcode.rs:95-104 | a raw code's number is at most 15, and it is a regular code's number exactly when the code is regular |
| CatCodes.RawFromInt | src/tex/token/catcode.rs:106-115 | decoding succeeds exactly on 0..15, and what it returns encodes back to the number |
| CatCodes.CatCodeRoundTrip | src/tex/token/catcode.rs:225-230 | `from_int(int(c)) == Some(c)` for each of the 11 codes |
| CatCodes.RawCatCodeRoundTrip | src/tex/token/catcode.rs:232-247 | `from_int(int(r)) == Some(r)` for each of the 16 raw codes |
| CatCodes.IntInjective | src/tex/token/catcode.rs:49-63 | distinct regular codes have distinct numbers |
| CatCodes.RawIntInjective | src/tex/token/catcode.rs:95-104 | distinct raw codes have distinct numbers |
| CatCodes.OrDefault | src/tex/token/catcode.rs:118-123 | an absent code is Other; a present one is returned as is |
| CatCodes.LetterPairs | src/tex/token/catcode.rs:148-200 | the 26 consecutive letters, each paired with Letter |
| CatCodes.DefaultPairs | src/tex/token/catcode.rs:132-202 | the 64 pairs `set_tex_defaults` inserts, in order (`DefaultPairsAgree` relates them to the table) |
| CatCodes.DefaultCatCode | src/tex/token/catcode.rs:132-202 | the TeX default table as a function of the character; it gives Letter exactly to A-Z and a-z (`DefaultPairsAgree`, `TexDefaultsTable`) |
| CatCodes.Extended | src/tex/token/catcode.rs:133-201 | inserting pairs one after another, as `extend` does: every key of the old map is still a key, every inserted character is a key, and the final pair's character maps to the final pair's code; the values of all other characters are given by `ExtendedAgrees` when the pairs agree with the default table |
| CatCodes.DefaultPairsAgree | src/tex/token/catcode.rs:132-202 | every pair the defaults insert agrees with the TeX default table, and every character of that table is inserted |
| CatCodes.ExtendedAgrees | src/tex/token/catcode.rs:133-201 | inserting pairs that agree with the table gives each inserted character its default and leaves every other character alone |
| CatCodes.TexDefaultsTable | src/tex/token/catcode.rs:126-130 | the defaults give escape to `\`, comment to `%`, end of line to newline, space to ` `, Letter to A-Z and a-z, the listed codes to `{}$&#^_~`, and nothing else |
| CatCodes.SetTexDefaults | src/tex/token/catcode.rs:132-202 | the innermost scope becomes the old one extended with the default pairs; outer scopes are unchanged |
| CatCodes.TexDefaults | src/tex/token/catcode.rs:126-130 | a fresh map with no open scope whose `get` is the default table for every character |
| ScopedMaps.InsertKeepsInv | src/scopedmap.rs:92-125 | `insert` keeps both representation invariants (value stacks non-empty; stack size is the count of changed-key sets holding the key, plus at most one) |
| ScopedMaps.InsertKeepsOuterLevel | src/scopedmap.rs:100-124 | `insert` leaves the map seen at every outer scope depth unchanged |
| ScopedMaps.InsertUpdatesInnermostLevel | src/scopedmap.rs:100-124 | `insert` sets the key in the innermost map, and only that key |
| ScopedMaps.InsertKeepsOuterScopes | src/scopedmap.rs:92-125 | the whole view after `insert` is the old view with only its innermost map updated |
| ScopedMaps.InsertGlobalWritesAllScopes | src/scopedmap.rs:128-135 | `insert_global` keeps the invariants and sets the key in the map of every scope depth |
| ScopedMaps.BeginScopeRepeatsInnermost | src/scopedmap.rs:146-151 | `begin_scope` keeps the invariants and adds a depth equal to the current innermost map |
| ScopedMaps.EndScopeDropsInnermost | src/scopedmap.rs:156-177 | popping one value per changed key keeps the invariants and drops exactly the innermost map |
| ScopedMaps.ScopedMap.constructor | src/scopedmap.rs:180-185 | a new map is valid, has no open scope and is empty |
| ScopedMaps.ScopedMap.Get | src/scopedmap.rs:138-143 | the top of the key's value stack is the key's value in the innermost scope's map |
| ScopedMaps.ScopedMap.Current | src/scopedmap.rs:138-143 | the map `get` sees, as a whole |
| ScopedMaps.ScopedMap.Insert | src/scopedmap.rs:92-125 | only the innermost map changes, at `key`, and `get(key)` then returns `val` |
| ScopedMaps.ScopedMap.InsertGlobal | src/scopedmap.rs:128-135 | every scope depth's map gets `key := val` |
| ScopedMaps.ScopedMap.BeginScope | src/scopedmap.rs:146-151 | the view grows by a copy of the innermost map, so `get` is unchanged |
| ScopedMaps.ScopedMap.EndScope | src/scopedmap.rs:156-177 | returns true exactly when a scope is open and then drops the innermost map; otherwise nothing changes |
| ScopedMapExamples.GetAfterInsert | src/scopedmap.rs:14-16 | `get` returns the value just inserted |
| ScopedMapExamples.EndScopeRollsBackUpdate | src/scopedmap.rs:27-32 | an update made in a scope is undone by `end_scope` |
| ScopedMapExamples.EndScopeRollsBackInsert | src/scopedmap.rs:35-39 | a key inserted in a scope is absent after `end_scope` |
| ScopedMapExamples.EndScopeWithoutScope | src/scopedmap.rs:46-47 | `end_scope` with no scope open returns false |
| ScopedMapExamples.InsertGlobalSurvivesEndScope | src/scopedmap.rs:53-58 | a global insert inside a scope is visible after `end_scope` |
| ScopedMapExamples.InsertAfterNestedInsert | src/scopedmap.rs:193-200 | after a nested insert is rolled back, a later insert is visible |
| ScopedMapExamples.InsertGlobalAfterNoInsert | src/scopedmap.rs:204-209 | a global insert of a new key inside a scope survives `end_scope` |
| ScopedMapExamples.DoubleInsertUndoneByOneEndScope | src/scopedmap.rs:100-123 | two inserts of a key in one scope overwrite each other, and one `end_scope` undoes both |
| ScopedMapExamples.ScopeIsRolledBack | src/scopedmap.rs:156-177 | for any map, `begin_scope`, `insert` and `end_scope` leave every depth as it was |
| Tokens.NewLetter | src/tex/token/token.rs:18-33 | a character token with code Letter |
| LexerSpec.Code | src/tex/token/lexer.rs:198-201 | a character's code is the map's, or Other when the map has none |
| LexerSpec.WhitespaceLength | src/tex/token/lexer.rs:104-113 | the length of the maximal prefix of spaces and ends of line |
| LexerSpec.LetterLength | src/tex/token/lexer.rs:142-150 | the length of the maximal prefix of letters |
| LexerSpec.CommentLength | src/tex/token/lexer.rs:76-81 | the distance to the next end of line, or to the end of the input |
| LexerSpec.ControlSequenceAfter | src/tex/token/lexer.rs:117-156 | a name is the maximal run of letters after the escape, else the single next character; at the end of input it is the malformed-control-sequence error |
| LexerSpec.LexStep | src/tex/token/lexer.rs:54-95 | one raw token either consumes input and goes on, or ends the request; a token ends trimming unless it is a control sequence |
| LexerSpec.Lex | src/tex/token/lexer.rs:50-97 | a request consumes input unless it reports the end; after a token, whitespace is trimmed exactly when the token is a control sequence |
| LexerSpec.LexAll | src/tex/token/lexer.rs:484-487 | requesting until the end yields at most one token per character |
| LexerSpec.LexSkipsIgnored | src/tex/token/lexer.rs:85-87 | ignored characters make no difference to the next request |
| LexerSpec.TrimmedWhitespaceIsNoToken | src/tex/token/lexer.rs:63-66 | while trimming, no space token is produced |
| LexerSpec.WhitespaceRun | src/tex/token/lexer.rs:57-73 | a whitespace run is consumed whole: two or more ends of line give `\par`; fewer give a space token with the run's first character, or nothing while trimming |
| LexerSpec.CommentSkipsToEndOfLine | src/tex/token/lexer.rs:75-84 | a comment skips to the next end of line, which it keeps, and sets trimming |
| LexerSpec.EscapeAtEndIsError | src/tex/token/lexer.rs:122-134 | an escape at the end of input is a malformed control sequence |
| LexerSpec.RegularCharacter | src/tex/token/lexer.rs:74 | a regular non-space character is its own token and clears trimming |
| LexerSpec.InvalidIsError | src/tex/token/lexer.rs:88 | an invalid character is the invalid-token error |
| Lexers.LineLength | src/tex/token/lexer.rs:210-223 | a line runs up to and including the first newline, or to the end of the file |
| Lexers.RawLexer.constructor | src/tex/token/lexer.rs:225-236 | a new raw lexer has the whole file to read and an empty line buffer |
| Lexers.RawLexer.FillBuffer | src/tex/token/lexer.rs:210-223 | the next line is read only when the buffer is used up; the characters left to read are unchanged |
| Lexers.RawLexer.Peek | src/tex/token/lexer.rs:191-208 | the next character with its code under the map, or None at the end; nothing is consumed |
| Lexers.RawLexer.Advance | src/tex/token/lexer.rs:187-189 | moves past the peeked character |
| Lexers.RawLexer.Next | src/tex/token/lexer.rs:181-185 | `peek` then `advance`: the next character is returned and consumed |
| Lexers.Lexer.constructor | src/tex/token/lexer.rs:158-164 | a new lexer reads the whole file and is not trimming |
| Lexers.Lexer.Next | src/tex/token/lexer.rs:50-97 | the token, or error, and the new state are exactly `Lex` for the map given |
| Lexers.Lexer.Step | src/tex/token/lexer.rs:54-95 | one pass of the loop is exactly `LexStep` |
| Lexers.Lexer.WhitespaceStep | src/tex/token/lexer.rs:57-73 | the whitespace branch of the loop is exactly `LexStep`'s |
| Lexers.Lexer.SkipComment | src/tex/token/lexer.rs:76-81 | consumes up to, not including, the next end of line |
| Lexers.Lexer.ConsumeWhitespace | src/tex/token/lexer.rs:99-115 | consumes the maximal whitespace run and returns the number of ends of line in it |
| Lexers.Lexer.ReadControlSequence | src/tex/token/lexer.rs:117-156 | reads exactly the name `ControlSequenceAfter` describes |
| LexerExamples.TestCodeIsDefault | src/tex/token/lexer.rs:480-483 | apart from X, Y and Z, the tests' map gives every character its TeX default |
| LexerExamples.TestCatCodesAreTestMap | src/tex/token/lexer.rs:480-483 | the tests' map gives each character of the tests the code the examples require |
| LexerExamples.ControlSequenceThenGroup | src/tex/token/lexer.rs:252-262 | `\a{b}` lexes to `\a`, `{`, `b`, `}` |
| LexerExamples.SpaceAfterControlSequenceTrimmed | src/tex/token/lexer.rs:265-273 | `\a b` lexes to `\a`, `b` |
| LexerExamples.SpacesAfterControlSequenceTrimmed | src/tex/token/lexer.rs:275-283 | `\a  b` lexes to `\a`, `b` |
| LexerExamples.NewlineAfterControlSequenceTrimmed | src/tex/token/lexer.rs:285-293 | `\a`, newline, space, `b` lexes to `\a`, `b` |
| LexerExamples.MultiLetterControlSequence | src/tex/token/lexer.rs:295-305 | `\ABC{D}` lexes to `\ABC`, `{`, `D`, `}` |
| LexerExamples.ControlSequenceAtEnd | src/tex/token/lexer.rs:307-312 | `\ABC` lexes to `\ABC` |
| LexerExamples.SingleNonLetterControlSequence | src/tex/token/lexer.rs:314-322 | `\{{` lexes to `\{`, `{` |
| LexerExamples.SingleNonLetterControlSequenceThenLetter | src/tex/token/lexer.rs:325-333 | `\{A` lexes to `\{`, `A` |
| LexerExamples.CommentSkipped | src/tex/token/lexer.rs:336-344 | `A%` + any comment text + newline + `C` lexes to `A`, `C` |
| LexerExamples.TwoCommentsSkipped | src/tex/token/lexer.rs:346-354 | two comment lines between `A` and `C`, whatever their text, leave `A`, `C` |
| LexerExamples.CommentAtEnd | src/tex/token/lexer.rs:356-361 | `A%` + any comment text lexes to `A` |
| LexerExamples.WhitespaceAfterCommentTrimmed | src/tex/token/lexer.rs:363-371 | `A%`, newline, space, `B` lexes to `A`, `B` |
| LexerExamples.BlankLineAfterCommentIsPar | src/tex/token/lexer.rs:373-382 | `A%`, two newlines, space, `B` lexes to `A`, `\par`, `B` |
| LexerExamples.ControlSequenceSpaceComment | src/tex/token/lexer.rs:384-392 | `\A %`, newline, `B` lexes to `\A`, `B` |
| LexerExamples.DoubleSpaceIsOneSpace | src/tex/token/lexer.rs:394-403 | `A  B` lexes to `A`, one space token, `B` |
| LexerExamples.NewlineIsSpace | src/tex/token/lexer.rs:405-414 | `A`, newline, `B` lexes to `A`, a space token carrying the newline, `B` |
| LexerExamples.SpaceAndNewlineIsSpace | src/tex/token/lexer.rs:416-425 | `A`, space, newline, `B` lexes to `A`, a space token, `B` |
| LexerExamples.DoubleNewlineIsPar | src/tex/token/lexer.rs:427-436 | `A`, two newlines, `B` lexes to `A`, `\par`, `B` |
| LexerExamples.NewlineSpaceNewlineIsPar | src/tex/token/lexer.rs:438-447 | `A`, newline, space, newline, `B` lexes to `A`, `\par`, `B` |
| LexerExamples.NonStandardSpace | src/tex/token/lexer.rs:450-459 | with Y as a space, `AYB` lexes to `A`, space token `Y`, `B` |
| LexerExamples.NonStandardNewline | src/tex/token/lexer.rs:462-471 | with X as an end of line, `AXB` lexes to `A`, space token `X`, `B` |
| LexerExamples.IgnoredCharacter | src/tex/token/lexer.rs:474-476 | with Z ignored, `Z` lexes to nothing |
| Streams.First | src/tex/token/stream.rs:273-275 | the next token is absent exactly when nothing is left, and otherwise is the first one left |
| Streams.Rest | src/tex/token/stream.rs:269-271 | taking a token leaves the tokens after it; at the end nothing changes |
| Streams.Reverse | src/tex/token/stream.rs:248-251 | the reversed list has the same length, with element `i` taken from the other end |
| Streams.ReverseReverse | src/tex/token/stream.rs:248-251 | reversing twice restores the order the tokens were given in |
| Streams.ReverseDropLast | src/tex/token/stream.rs:269-271 | popping the end of the reversed list takes the first token in order |
| Streams.EmptyStream.Next | src/tex/token/stream.rs:191-193 | yields nothing |
| Streams.EmptyStream.ImutPeek | src/tex/token/stream.rs:195-197 | shows nothing |
| Streams.EmptyStream.Peek | src/tex/token/stream.rs:148-151 | `peek` is `imut_peek`: nothing |
| Streams.SingletonStream.constructor | src/tex/token/stream.rs:224-226 | the stream holds exactly the token |
| Streams.SingletonStream.Next | src/tex/token/stream.rs:230-232 | yields the token once, leaving the stream empty |
| Streams.SingletonStream.ImutPeek | src/tex/token/stream.rs:234-236 | shows the token `next` would yield |
| Streams.SingletonStream.Peek | src/tex/token/stream.rs:148-151 | shows the token `next` would yield and changes nothing |
| Streams.SingletonStream.Consume | src/tex/token/stream.rs:171-173 | has the effect of `next` |
| Streams.VecStream.constructor | src/tex/token/stream.rs:248-251 | the stream yields the given tokens in their given order |
| Streams.VecStream.Next | src/tex/token/stream.rs:269-271 | yields the first token left and leaves the rest |
| Streams.VecStream.ImutPeek | src/tex/token/stream.rs:273-275 | shows the token `next` would yield |
| Streams.VecStream.Peek | src/tex/token/stream.rs:148-151 | shows the token `next` would yield and changes nothing |
| Streams.VecStream.Consume | src/tex/token/stream.rs:171-173 | has the effect of `next` |
| Streams.TryFrom | src/tex/token/stream.rs:259-265 | the new stream holds the source's tokens in order, and the source is drained |
| StreamExamples.VecStreamYieldsInOrder | src/tex/token/stream.rs:28-37 | a, b, c, then None |
| StreamExamples.VecStreamPeekThenNext | src/tex/token/stream.rs:52-61 | peek twice gives a, next takes a, then peek gives b |
| StreamExamples.EmptyStreamPeek | src/tex/token/stream.rs:185-186 | peeking at the empty stream gives None |
| StreamExamples.SingletonStreamYieldsOnce | src/tex/token/stream.rs:212-217 | the token is shown and taken once, then None from both |
| StreamExamples.TryFromKeepsOrder | src/tex/token/stream.rs:259-265 | a copied stream yields the same tokens in the same order |
| Input.Prepare | src/tex/input.rs:41-48 | with a token cached or no file open nothing changes; otherwise the lexer is asked once, its token (or None at the end) becomes the cached token, its error is passed on with the cache left empty, and the lexer moves to where `Lex` leaves it |
| Input.Take | src/tex/input.rs:36-39 | `next` returns the cached token if there is one; otherwise the token the lexer produces (or its error), with the lexer moved on; with no file open it returns None; the cache is always left empty |
| Input.PeekAt | src/tex/token/stream.rs:148-151 | `peek` on the input module: returns the cached token and keeps it; otherwise asks the lexer once and keeps its token cached; `PeekIsIdempotent` and `PeekAgreesWithTake` relate it to itself and to `Take` |
| Input.PrepareIsIdempotent | src/tex/input.rs:41-48 | after a successful prepare, preparing again changes nothing |
| Input.PeekIsIdempotent | src/tex/token/stream.rs:66-67 | peeking twice gives the same answer and state as peeking once |
| Input.PeekAgreesWithTake | src/tex/input.rs:36-52 | a successful peek returns what the next `next` returns, and does not change what it returns |
| Input.NoFileIsEmpty | src/tex/input.rs:20-26 | with no file open and nothing cached, the module is an empty stream |
| Input.InputModule.constructor | src/tex/input.rs:20-26 | no file is open and nothing is cached |
| Input.InputModule.OpenFile | src/tex/input.rs:28-32 | a fresh lexer reads the file from its start; the cache is kept |
| Input.InputModule.PrepareImutPeek | src/tex/input.rs:41-48 | is exactly `Prepare` with the module's own catcode map |
| Input.InputModule.Next | src/tex/input.rs:36-39 | is exactly `Take` with the module's own catcode map |
| Input.InputModule.ImutPeek | src/tex/input.rs:50-52 | `imut_peek` shows the module's cached token, the `cached` field of its state |
| Input.InputModule.Peek | src/tex/token/stream.rs:148-151 | `prepare_imut_peek` then `imut_peek` |
| DriverSpec.Pending | src/tex/driver.rs:41-44 | the tokens the stack holds, topmost stream first |
| DriverSpec.PopExhausted | src/tex/driver.rs:47-60 | popping leaves a prefix of the stack whose top, if any, has a token |
| DriverSpec.Prepare | src/tex/driver.rs:47-60 | `prepare_imut_peek` on values: afterwards the top stream, if any, has a token; while a stream remains it succeeds and leaves the input module alone, keeping a prefix of the stack; with none left it is the input module's prepare (`PrepareKeepsPending`, `PrepareIsIdempotent`) |
| DriverSpec.ImutPeek | src/tex/driver.rs:62-67 | `imut_peek` on values: with no stream it is the input module's cached token; otherwise it shows a token exactly when the top stream has one (`PeekAgreesWithNext`) |
| DriverSpec.Next | src/tex/driver.rs:39-45 | `next` on values: a failing prepare's error is passed on; after a successful prepare it returns the token `imut_peek` shows; it never grows the stack (`NextTakesPending`, `NextDelegatesToInput`) |
| DriverSpec.PopExhaustedKeepsPending | src/tex/driver.rs:47-60 | popping loses no pending token, and empties the stack only when nothing is pending |
| DriverSpec.PendingPush | src/tex/driver.rs:132 | a pushed stream's tokens come before those already pending |
| DriverSpec.TakeTopTakesPending | src/tex/driver.rs:41-44 | taking from the top stream takes the first pending token |
| DriverSpec.PrepareKeepsPending | src/tex/driver.rs:47-60 | preparing pops every exhausted stream, keeps what is pending, and with nothing pending prepares the input module |
| DriverSpec.PrepareIsIdempotent | src/tex/driver.rs:47-60 | after a successful prepare, preparing again changes nothing |
| DriverSpec.NextTakesPending | src/tex/driver.rs:39-45 | with a token pending on the stack, `next` takes it and does not touch the input module |
| DriverSpec.NextDelegatesToInput | src/tex/driver.rs:39-45 | with nothing pending, `next` is the input module's `next` |
| DriverSpec.PeekAgreesWithNext | src/tex/driver.rs:62-67 | after a successful prepare, `imut_peek` shows what `next` returns, and `next` is unaffected |
| DriverSpec.Command | src/tex/driver.rs:116-129 | a token calls for expansion exactly when it is a control sequence whose name is bound, and then yields that primitive's output |
| DriverSpec.ExpandNext | src/tex/driver.rs:114-134 | `expand_next` on values: false means only a prepare happened and the next token is not bound; true means the prepared next token was bound (`NoExpansionConsumesNothing`, `ExpansionReplacesToken`) |
| DriverSpec.NoExpansionConsumesNothing | src/tex/driver.rs:114-129 | when `expand_next` is false, it only prepared the stream, the next token is not bound, and `next` is unaffected |
| DriverSpec.ExpansionReplacesToken | src/tex/driver.rs:126-133 | when `expand_next` is true, it consumed exactly the bound control sequence `next` would return and put the primitive's output in front of what was pending |
| DriverSpec.Expand | src/tex/driver.rs:83 | the `while expand_next()` loop with at most `fuel` expansions: when it stops, the next token is not bound (`ExpandStep`, `ExpandReachesFixpoint`, `MoreFuelChangesNothing`) |
| DriverSpec.ExpandFrom | src/tex/driver.rs:83 | one turn of that loop after `expand_next` answered: a lexer error stops it, false ends it where it is, true goes round again if fuel is left |
| DriverSpec.ExpandStep | src/tex/driver.rs:83 | one expansion with fuel to spare leaves the rest of the loop to do |
| DriverSpec.ExpandReachesFixpoint | src/tex/driver.rs:83 | once the loop stops, `expand_next` is false and changes nothing |
| DriverSpec.MoreFuelChangesNothing | src/tex/driver.rs:83 | if the loop stops within the fuel, more fuel gives the same result |
| DriverSpec.ExpandedNext | src/tex/driver.rs:82-85 | the expanded stream's `next`: it runs out of fuel exactly when the loop does; once the loop has stopped it returns the token and state of the unexpanded `next`, or that `next`'s lexer error as `Lexing` (`ExpandedNextIsNeverBound`, `ExpandedPeekAgreesWithNext`) |
| DriverSpec.ExpandedPrepare | src/tex/driver.rs:87-90 | the expanded stream's `prepare_imut_peek`: it runs out of fuel exactly when the loop does, and on success is the unexpanded prepare of where the loop stopped; the token it then shows is the one `next` returns (`ExpandedPeekAgreesWithNext`) |
| DriverSpec.ExpandedPeekAgreesWithNext | src/tex/token/stream.rs:144-161 | on the expanded stream, after a successful `prepare_imut_peek`, `imut_peek` shows the token `next` returns, and `next` from the prepared state returns the same token and state |
| DriverSpec.ExpandedNextIsNeverBound | src/tex/driver.rs:82-85 | the expanded stream never returns a control sequence bound to a primitive |
| Driver.UnexpandedStream.constructor | src/tex/driver.rs:14-19 | an empty stack over the input module |
| Driver.UnexpandedStream.PopExhaustedStreams | src/tex/driver.rs:48-59 | the loop leaves the stack popped of exhausted streams |
| Driver.UnexpandedStream.PrepareImutPeek | src/tex/driver.rs:47-60 | is exactly `DriverSpec.Prepare` with the current catcode map |
| Driver.UnexpandedStream.ImutPeek | src/tex/driver.rs:62-67 | is `DriverSpec.ImutPeek` of the current state |
| Driver.UnexpandedStream.Next | src/tex/driver.rs:39-45 | is exactly `DriverSpec.Next` with the current catcode map |
| Driver.UnexpandedStream.Consume | src/tex/token/stream.rs:171-173 | has the effect of `next` and fails exactly when it does |
| Driver.ExpandedStream.constructor | src/tex/driver.rs:14-19 | wraps the unexpanded stream |
| Driver.ExpandedStream.PeekCommand | src/tex/driver.rs:116-125 | the primitive output the peeked token is bound to, if any |
| Driver.ExpandedStream.ExpandNext | src/tex/driver.rs:114-134 | is exactly `DriverSpec.ExpandNext` with the current primitives and catcode map |
| Driver.ExpandedStream.ExpandAll | src/tex/driver.rs:83 | the `while expand_next()` loop is exactly `DriverSpec.Expand` with the given fuel |
| Driver.ExpandedStream.Next | src/tex/driver.rs:82-85 | is exactly `DriverSpec.ExpandedNext` |
| Driver.ExpandedStream.PrepareImutPeek | src/tex/driver.rs:87-90 | is exactly `DriverSpec.ExpandedPrepare` |
| Driver.ExpandedStream.ImutPeek | src/tex/driver.rs:92-94 | is the unexpanded stream's `imut_peek` |
| DriverExamples.TexideOutput | src/tex/primitive/library/texide.rs:32-39 | six letter tokens spelling Texide |
| DriverExamples.TexideExpandsToItsFirstLetter | src/tex/driver.rs:114-134 | with `\texide` next, the expanded stream returns `T` and leaves `exide` on the stack |
| DriverExamples.TexideNeedsFuel | src/tex/driver.rs:83 | each expansion takes one unit of fuel |
| DriverExamples.SelfExpansionRunsOutOfFuel | src/tex/driver.rs:83 | a primitive that expands to itself never stops expanding, whatever the fuel |

## Left out

- File I/O: `open_file` takes the file's contents instead of a file name. Read errors (`LexerError::IO`) do not occur.
- Token source metadata (`Source`, `Line`, positions, line numbers) is not modelled. A token is its value, and `Tokens.Token` is the source's `Value`.
- Error messages and their formatting are not modelled. `MalformedControlSequence` keeps only the escape character.
- `driver::run` and its printing loop are not modelled, and neither are `main.rs`, conditionals and the state traits.
- Primitives: a primitive is modelled by its output. `primitives` is a `ScopedMap` from names to fixed token lists, so primitives that read their input are not covered. The output is pushed as a list of tokens rather than a boxed stream.
- Driver.UnexpandedStream: each stacked stream is held as the tokens it has still to yield, not as a stream object. The stack owns its streams, so nothing else can observe them.
- Driver.ExpandedStream.Next: the `while expand_next()` loop of the source need not terminate with a self-referential primitive. The model bounds it with a fuel parameter and reports `OutOfFuel` when that bound is reached. The source would loop forever there.
- Driver.ExpandedStream.PrepareImutPeek: bounded by fuel in the same way.
- Streams.TryFrom: converts a `VecStream` only, not any boxed stream. The stream classes never fail, so no error is propagated.
- Streams.EmptyStream: has no `Consume`. Its `next` changes nothing, so the default `consume` would do nothing either.
- The catcode map is read once per lexer request. No code can change it during a request here, which matches the source, where the map is borrowed for the whole request.
- LexerExamples.CommentSkipped: states case 8 for any comment text without an end of line, rather than only for "a comment here". Cases 9 and 10 are generalized the same way.
- LexerExamples: each example requires only the codes of the characters it uses. `TestCatCodesAreTestMap` shows that the map the tests build gives exactly those codes. The tests themselves run with that one map.
