# pg_icu_parser in Dafny

A model of the core of pg_icu_parser, a PostgreSQL text-search parser. It splits
a text into tokens at the word boundaries found by ICU's word break iterator. Each
token gets one of five categories: word, number, blank, kana or ideo.

The model has four modules:

- `WordBreak` (`word_break.dfy`) models the slice of ICU's `ubrk.h` that the parser uses.
  - It holds the rule-status constants and the `UBRK_DONE` sentinel.
  - A `Segmentation` records what the word break engine computes for one buffer: the boundary offsets, and one rule status per boundary. ICU's rules (Unicode Standard Annex #29, section 4) are not reimplemented; a segmentation is an input.
  - `WordBreakIterator` is a class that walks a segmentation the way `ubrk_first`, `ubrk_next`, `ubrk_getRuleStatus` and `ubrk_close` walk ICU's internal state.
- `TokenCategory` (`token_category.dfy`) holds the five category ids and `convert_token_type`.
  - The classification policy is also written as a table of half-open status ranges. A lemma shows the classifier agrees with a first-match lookup in that table.
  - It also holds `icuparser_lextype`, which fills the lexeme-type array.
- `Tokenization` (`tokenization.dfy`) holds the pure specification of one full pass.
  - The token stream of a segmentation is one token per pair of neighbouring boundaries. Each token carries the category of the status of the boundary that closes it.
  - The stream's spans are contiguous and non-empty. They cover the buffer exactly, their lengths add up to its length, and their text put back together rebuilds it.
- `IcuParser` (`icu_parser.dfy`) holds the parser session.
  - `ParserState` is a class with the source's fields: `utext`, `iter`, `token_start_pos`, `token_end_pos` and `curr_token`.
  - `Start`, `NextToken` and `End` model `icuparser_start`, `icuparser_nexttoken` and `icuparser_end`.
  - The invariant `Valid()` ties the one-token look-ahead to the iterator's position. It also ties the tokens handed out so far to a prefix of the specified stream, and says that at most one materialised token is alive.

## Model

| member | source | states |
|---|---|---|
| `WordBreak.WordBreakIterator.constructor` | pg_icu_parser.c:124 | a successfully opened iterator over a well-formed segmentation starts on its first boundary |
| `WordBreak.WordBreakIterator.First` | pg_icu_parser.c:131 | `ubrk_first` rewinds to the first boundary and returns it, which is offset 0 |
| `WordBreak.WordBreakIterator.Next` | pg_icu_parser.c:132 | `ubrk_next` returns the next boundary; at the last boundary it returns `UBRK_DONE` and stays there |
| `WordBreak.WordBreakIterator.RuleStatus` | pg_icu_parser.c:180 | `ubrk_getRuleStatus` returns the status of the current boundary, which classifies the segment ending there |
| `WordBreak.WordBreakIterator.Close` | pg_icu_parser.c:197 | `ubrk_close` closes the iterator without moving it |
| `WordBreak.BoundaryInBuffer` | pg_icu_parser.c:174-177 | every boundary lies in [0, length of the buffer], so every span handed to the conversion is inside `utext` |
| `WordBreak.EmptyTextSingleBoundary` | pg_icu_parser.c:131-132 | for an empty buffer the only boundary is 0, so the `ubrk_next` at start returns `UBRK_DONE` |
| `TokenCategory.ConvertTokenType` | pg_icu_parser.c:138-154 | total; always an id in 1..5, never 0; WORD iff the status is in [LETTER, LETTER_LIMIT), NUMBER iff in [NUMBER, NUMBER_LIMIT), KANA iff in [KANA, KANA_LIMIT), IDEO iff in [IDEO, IDEO_LIMIT), BLANK iff outside all four (negatives and the NONE range included) |
| `TokenCategory.Lookup` | pg_icu_parser.c:141-153 | a first-match lookup in a range table gives either the default or the category of a range that holds the status |
| `TokenCategory.ConvertMatchesRangeTable` | pg_icu_parser.c:141-153 | the classifier equals a first-match lookup in the table of the four status ranges, with BLANK as the default |
| `TokenCategory.RangesDisjoint` | pg_icu_parser.c:141-153 | no status lies in two of the four ranges, so the order of the tests does not change the result |
| `TokenCategory.Descriptions` | pg_icu_parser.c:78-96 | the five described categories, in order, have ids 1..5 |
| `TokenCategory.EveryCategoryDescribed` | pg_icu_parser.c:27-31 | every id the classifier returns has its own entry in the lexeme-type table, and no entry uses the terminator id 0 |
| `TokenCategory.LexType` | pg_icu_parser.c:73-101 | a fresh array of 6 slots: ids 1..5 in order with aliases word, number, blank, kana, ideo, then a terminator with id 0 |
| `Tokenization.TokensFrom` | pg_icu_parser.c:165-185 | the tokens still to come when the look-ahead boundary has index k: exactly one per remaining segment |
| `Tokenization.TokensFromAt` | pg_icu_parser.c:174-185 | the i-th token to come spans the i-th remaining segment, and its category is the classification of that segment's own rule status |
| `Tokenization.TokensContiguous` | pg_icu_parser.c:174-183 | the stream is contiguous and non-overlapping from 0 to the buffer's length, with non-empty spans and categories in 1..5 |
| `Tokenization.EmptyTextNoTokens` | pg_icu_parser.c:165-167 | an empty buffer yields no token |
| `Tokenization.ContiguousTail` | pg_icu_parser.c:182-183 | after one token is handed out, the rest of a contiguous stream is contiguous from that token's end |
| `Tokenization.ContiguousLengths` | pg_icu_parser.c:174-177 | the span lengths of a contiguous stream over [from, to) add up to to - from |
| `Tokenization.ContiguousWithin` | pg_icu_parser.c:174-177 | every span of a contiguous stream over [from, to) lies inside [from, to) |
| `Tokenization.ContiguousConcat` | pg_icu_parser.c:174-177 | the materialised spans of a contiguous stream over [from, to), concatenated, are exactly that part of the buffer |
| `Tokenization.FullPassCoversText` | pg_icu_parser.c:174-183 | over a full pass the span lengths add up to the buffer's length, and the tokens' text concatenated is the buffer |
| `Tokenization.HelloWorldStream` | pg_icu_parser.c:138-154 | for the text "hello world 123" and its word segmentation, the stream is word, blank, word, blank, number, and the spans spell "hello", " ", "world", " ", "123" |
| `IcuParser.ResolveLocale` | pg_icu_parser.c:116-119 | the locale handed to ICU is never empty: it is the setting, or "en" when the setting is empty |
| `IcuParser.Start` | pg_icu_parser.c:103-136 | if ICU refuses the resolved locale, start fails with that locale and ICU's error code; otherwise it gives a fresh valid session with start position 0 that holds no token and has the whole stream still to hand out; for an empty buffer the end position is `UBRK_DONE` |
| `IcuParser.ParserState.constructor` | pg_icu_parser.c:131-133 | the start position is the first boundary, the end position is the next boundary or `UBRK_DONE`, and `curr_token` is empty |
| `IcuParser.ParserState.ReleaseToken` | pg_icu_parser.c:169-172 | the held token, if there is one, is released and the slot is left empty |
| `IcuParser.ParserState.NextToken` | pg_icu_parser.c:156-186 | returns 0 exactly when the end position is `UBRK_DONE`, and then changes nothing (exhaustion is sticky); otherwise it hands out the old span, whose category is that of the status read before advancing, moves the start to the old end, makes the new token only once the previous one is released, and keeps the session invariant |
| `IcuParser.ParserState.Advance` | pg_icu_parser.c:169-185 | releases the previous token before making the new one: at the moment the new token is made no other token is alive; the token is the text of [old start, old end) and its length is old end - old start; the category comes from the status of that span and lies in 1..5; the handed-out stream grows by exactly that token |
| `IcuParser.ParserState.End` | pg_icu_parser.c:188-202 | releases the held token if there is one, closes the iterator and ends the session; afterwards every token made has been released |
| `IcuParser.ParserState.ExhaustedCoversText` | pg_icu_parser.c:165-183 | once the session reports exhaustion, the tokens handed out are the whole stream: contiguous from 0 to the buffer's length, their lengths add up to it, and their text rebuilds it |

Two points of the code that the model keeps as they are:
- `icuparser_end` (pg_icu_parser.c:188-202) frees the session itself and has no guard against a second call. So `End` requires a live session, and a second `end` on the same session is not modelled.
- `icuparser_lextype` (pg_icu_parser.c:73-101) allocates six slots but writes only the id of the sixth, the terminator. So `LexType` states only that the terminator's id is 0, and nothing about its alias or description.

## Left out

- ICU's word segmentation itself (`ubrk_open` with its rules): a `Segmentation` stands for its result. `Start` receives `ubrk_open` as a function parameter from a locale and a buffer to an outcome, and requires only that a successful outcome is well formed. Whether ICU fails for a given locale is part of that parameter.
- The error message text built with `u_errorName`: a failed start carries the locale and ICU's numeric error code only.
- Encoding conversion (`icu_to_uchar`, `icu_from_uchar`): it is taken to be the identity on UTF-16 code units. `Start` receives the already converted buffer, a materialised token is the span of code units, and its length is the span's length. Byte lengths in the server encoding are not modelled.
- `WordBreak.WordBreakIterator.RuleStatus`: the status ICU reports after `ubrk_next` has returned `UBRK_DONE` is not modelled. The parser never reads it there.
- `palloc`/`pfree`/`pstrdup`: token ownership is an `Option` slot plus ghost counts of tokens made and released. Releasing the buffer and the session is the `ended` flag.
- 32-bit width of `token_start_pos`, `token_end_pos` and the rule status: offsets and statuses are unbounded integers. Buffers of 2^31 code units or more are not considered.
- `_PG_init` and the `pg_icu_parser.locale` configuration variable: the setting's value is a parameter of `Start`, read once per start.
- `icuparser_headline`: it only raises "feature not supported" and has no logic.
- The fmgr argument and return macros: methods take and return values directly.
