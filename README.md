# sql_tracker: the query handler, in Dafny

`SqlTracker::Handler` is the part of sql_tracker that watches executed SQL
statements. It does two things:

- `clean_sql_query` turns a statement into a fingerprint. It collapses
  whitespace and replaces literal values by the placeholder `???`. Keywords
  and identifiers stay as written, in their own case.
- `call` counts statements. A statement is counted when its SQL command is in
  `tracked_sql_command` (compared case-insensitively). Each count goes in
  `data`, a table keyed by the lower-cased fingerprint, whose rows hold a
  `count`.

The handler's implementation (lib/sql_tracker/handler.rb) is not part of this
model. The behaviour modelled is the behaviour test/handler_test.rb pins down.
The model keeps the names of the tests.

## Layout

- `text.dfy` (`SqlText`) covers character classes, `Lower`/`Upper`, and
  `Squish`. `Squish` models ActiveSupport's `String#squish` on ASCII
  whitespace: it trims the text and collapses every run of ASCII whitespace
  into one space. Case folding here is ASCII only too (see "Left out").
- `pass.dfy` (`Passes`) is a generic left-to-right rewriting pass. Each step
  emits some output and skips what it consumed, so rewritten text is never
  looked at again. It also has the lemma that splits a pass at a stable
  boundary.
- `lexer.dfy` (`SqlLexer`) cuts squished text into tokens and renders them
  back:
  - a token is a word, a number, a quoted string, a symbol or the
    placeholder;
  - each token records whether one space stood before it.
- `masker.dfy` (`SqlMasker`) holds the masking rules, tried in order at each
  token. `CleanSqlQuery` is `Render(Mask(Lex(Squish(sql))))`. The rules are:
  - a parenthesised list of literals becomes `(???)`;
  - the operand of a comparison operator, `LIMIT`, `OFFSET` or `LIKE` becomes
    `???`;
  - `BETWEEN x AND y` becomes `BETWEEN ??? AND ???`;
  - `SIMILAR TO 'p'` becomes `SIMILAR TO ???`;
  - after `VALUES`, each literal tuple element becomes `???`.
- `masksplit.dfy` (`SqlMaskSplit`) shows that masking splits after an
  ordinary word, so the two halves of a statement are masked independently.
- `maskshape.dfy` (`SqlMaskShape`) shows what masking keeps. The cleaned
  statement is squished text again. Every token other than a literal, a
  sign, `,`, `)` or a placeholder comes through masking unchanged and in
  order; in particular the keywords and identifiers do, and a statement
  without literals is not changed at all.
- `casefold.dfy` (`SqlCaseFold`) shows that lexing, masking and rendering
  all commute with lower-casing. So the key of a statement depends only on
  its lower-cased text.
- `pieces.dfy` (`SqlPieces`) computes `CleanSqlQuery` on a statement that is
  given as a list of pieces. Each piece is some whitespace plus one token.
- `handler.dfy` (`SqlHandler`) holds the configuration, the payload, the
  table row and the filter (`Command`, `Accepts`). It also holds the key
  (`Key`), the table update as a function (`Track`), and the `Handler` class
  whose `Call` updates `data` in place.
- The `example_*.dfy` files hold the statements of test/handler_test.rb and
  the lemmas that prove the expected results. The statements are written as
  lists of pieces; `Join` concatenates them.

## Model

| member | source | states |
|---|---|---|
| SqlText.SquishIsSquished | test/handler_test.rb:54-60 | The squished text has no leading or trailing space. Every whitespace character becomes a plain space, and no two spaces are adjacent. |
| SqlText.SquishKeepsVisible | test/handler_test.rb:54-60 | Squishing keeps every non-whitespace character, in order. |
| SqlText.SquishSquished | test/handler_test.rb:54-60 | Squishing text that is already squished gives the same text back. |
| SqlText.SquishLower | test/handler_test.rb:67-85 | Squishing and lower-casing commute. |
| SqlText.LowerAt | test/handler_test.rb:67-85 | Lower-casing keeps the length and maps each character on its own. |
| SqlText.LowerLower | test/handler_test.rb:67-85 | Lower-casing a key a second time changes nothing. |
| SqlText.UpperLower | test/handler_test.rb:67-75 | Upper-casing ignores the case of the input, so `select` and `SELECT` give the same command. |
| SqlText.EqualsUpperIsUpper | test/handler_test.rb:146-165 | The keyword test holds exactly when the word, upper-cased, is the keyword. So `where`, `between` and `and` are recognised in any case. |
| SqlText.CollapseLower | test/handler_test.rb:67-85 | Collapsing whitespace commutes with lower-casing, from any state of the scan. |
| SqlLexer.Run | test/handler_test.rb:129-133 | The run of characters matching a class is as long as possible: every character in it matches, and the next one does not. |
| SqlLexer.Find | test/handler_test.rb:109-113 | The position of the closing quote is the first occurrence of the quote character. |
| SqlLexer.Scan | test/handler_test.rb:109-114 | A token is a non-empty prefix of the text, and its text is exactly that prefix. |
| SqlLexer.LexRender | test/handler_test.rb:54-60 | Lexing squished text and rendering the tokens gives back the same text, so nothing is lost or reordered. |
| SqlLexer.LexAppend | test/handler_test.rb:47-53 | At a boundary where the token kinds cannot merge, the tokens of a concatenation are the tokens of each part. |
| SqlLexer.LexFinal | test/handler_test.rb:54-60 | Lexing squished text never ends on a pending space. |
| SqlLexer.RenderAppend | test/handler_test.rb:54-60 | Rendering distributes over concatenation of token lists. |
| SqlMasker.OperandLen | test/handler_test.rb:129-133 | A literal operand is one quoted string or number, or a sign glued to a number. A literal in front is taken as one token, and a sign glued to a number is always taken with it. So `-70.487` is taken whole. |
| SqlMasker.Rewrite | test/handler_test.rb:108-121 | Each masking step consumes at least one token and re-emits the token it started on. So operators, `BETWEEN`, `LIMIT`, `OFFSET`, `LIKE` and `SIMILAR` stay verbatim. |
| SqlMaskShape.LexTidy | test/handler_test.rb:54-60 | The tokens of squished text each have non-empty squished text, and the first token has no space before it. |
| SqlMaskShape.MaskTidy | test/handler_test.rb:54-60 | Masking such tokens gives such tokens again and keeps the first token. |
| SqlMaskShape.RenderSquished | test/handler_test.rb:54-60 | Rendering such tokens, the first one unspaced, gives squished text. |
| SqlMaskShape.CleanIsSquished | test/handler_test.rb:54-60 | The cleaned statement is squished: no whitespace at either end, and its only whitespace is single spaces. So it has the same form as any text passed through `squish`. |
| SqlMaskShape.RewriteKeeps | test/handler_test.rb:108-121 | A masking step emits exactly the plain tokens it consumed, in order and with their spacing. Plain means anything but a literal, a sign, `,`, `)` or a placeholder, so operators, `(`, `.`, `*`, `;`, keywords and identifiers are never changed or dropped. |
| SqlMaskShape.MaskKeepsPlain | test/handler_test.rb:108-121 | Masking a whole statement keeps its plain tokens unchanged and in order, and adds none. The tokens `,`, `)` and signs are outside this lemma. |
| SqlMaskShape.MaskNoLiteral | test/handler_test.rb:15-19 | A statement with no literal value comes out of masking unchanged, so `IN (test1, test2, test3)` keeps its identifiers. |
| SqlMaskShape.MaskKeepsWords | test/handler_test.rb:46-65 | Masking keeps every keyword and identifier of the statement, in order and in its own case. |
| SqlCaseFold.LexLower | test/handler_test.rb:67-85 | Lexing lower-cased text gives the lower-cased tokens of the original text. Token boundaries do not depend on case. |
| SqlCaseFold.MaskLower | test/handler_test.rb:146-165 | Masking lower-cased tokens gives the lower-cased result of masking the original tokens. Every rule fires on a lower-case keyword exactly when it fires on the upper-case one. |
| SqlCaseFold.RenderLower | test/handler_test.rb:67-85 | Rendering lower-cased tokens gives the lower-cased text. |
| SqlCaseFold.CleanLower | test/handler_test.rb:67-85 | Cleaning commutes with lower-casing. |
| SqlHandler.KeyIsCleanedLower | test/handler_test.rb:67-85 | The key of a statement is the cleaned form of its lower-cased text. |
| SqlHandler.KeyCaseInsensitive | test/handler_test.rb:67-85 | Two statements that differ only in the case of their letters have the same key, so they are counted in one row. |
| SqlHandler.KeySameLetters | test/handler_test.rb:73-84 | Statements of the same length whose characters are equal up to case have the same key. |
| Passes.PassMap | test/handler_test.rb:67-85 | Two passes whose steps agree up to a map of the output emit the mapped output and end in the same state. |
| Passes.PassWithin | test/handler_test.rb:54-60 | A pass emits only items that its steps can emit. |
| SqlMaskSplit.MaskAppend | test/handler_test.rb:46-65 | After an ordinary word, masking the rest is independent of what came before, apart from the VALUES mode. So each literal list is masked on its own. |
| SqlMaskSplit.RewriteStable | test/handler_test.rb:46-65 | The rule chosen at a window that ends in an ordinary word does not depend on what follows it. |
| Passes.PassAppend | test/handler_test.rb:46-65 | A left-to-right pass over a concatenation is the pass over each part, the second part starting in the state the first ended in. |
| SqlPieces.BetweenAt | test/handler_test.rb:114-121 | `BETWEEN x AND y` with literal bounds becomes `BETWEEN ??? AND ???` and keeps `AND`. |
| SqlPieces.ListTailOf | test/handler_test.rb:50-52 | A list of unsigned literals separated by commas and closed by `)` is recognised to its closing parenthesis. Lists with a signed element such as `(-1, 2)` are accepted by `ListTail` but are outside this lemma. |
| SqlPieces.QuotedShaped | test/handler_test.rb:111-113 | A quoted string with no quote inside and single spaces lexes as one token. |
| SqlPieces.LexSingle | test/handler_test.rb:109-114 | A single word, number, quoted string or symbol lexes as exactly one token. |
| SqlPieces.PiecesEnd | test/handler_test.rb:47-60 | A statement built from pieces squishes to the rendering of its tokens, and those tokens lex back. |
| SqlPieces.CleanByPieces | test/handler_test.rb:62-64 | When squish, lex, mask and render agree piece by piece, the cleaned statement is the join of the expected pieces. |
| SqlHandler.FirstWord | test/handler_test.rb:9-43 | The first word is a space-free prefix, ended by a space or by the end of the text. |
| SqlHandler.FirstWordOf | test/handler_test.rb:9-43 | The first word of a word followed by a space is that word. |
| SqlHandler.CommandOf | test/handler_test.rb:15-19 | The command skips leading whitespace and is the first word upper-cased, whatever its case. |
| SqlHandler.Handler.constructor | test/handler_test.rb:13 | A new handler keeps its configuration and starts with an empty table. |
| SqlHandler.Handler.Call | test/handler_test.rb:21-24 | One call replaces `data` by `Track` of the old table: the statement is counted under its key when it is accepted, and the table is unchanged otherwise. |
| SqlHandler.CountEffect | test/handler_test.rb:83-84 | Counting adds the key, raises its count by one (from 0 when new), and leaves every other row unchanged. |
| SqlHandler.TrackCounted | test/handler_test.rb:84 | Every row of the table keeps a count of at least 1. |
| SqlHandler.TrackRejected | test/handler_test.rb:39-43 | An event with no statement, or one that is not accepted, leaves the table unchanged. |
| SqlHandler.TrackKeys | test/handler_test.rb:21-25 | An accepted statement adds exactly its key: the table grows by one when the key is new and keeps its size otherwise. |
| InListsExample.CleanInParameters | test/handler_test.rb:87-106 | The statement of test_clean_values_from_where_in_clause, and of the identical test_should_concatenate_in_parameters (lines 46-65), cleans to the expected text. Each literal list becomes `(???)`, including the one inside the subquery. |
| ComparisonExample.CleanComparisonOperators | test/handler_test.rb:108-127 | The comparison, BETWEEN, LIMIT and OFFSET operands each become `???`. |
| FloatingExample.CleanFloatingNumbers | test/handler_test.rb:129-144 | Decimal and negative decimal bounds are masked whole. |
| LowerCaseExample.CleanCaseInsensitive | test/handler_test.rb:146-165 | Lower-case keywords are recognised and keep their case in the output. |
| ValuesExample.CleanValues | test/handler_test.rb:167-180 | The `nextval` argument and the literal tuple elements become `???`. `DEFAULT`, commas, parentheses and `;` stay. |
| PatternsExample.CleanPatternMatching | test/handler_test.rb:182-195 | The `LIKE` and `SIMILAR TO` patterns are masked whole, wildcards included, and `NOT` stays. |
| TrackingExample.CleanUsers | test/handler_test.rb:16 | `SELECT * FROM users` cleans to itself. |
| TrackingExample.CleanUsersMixed | test/handler_test.rb:75 | `select * from Users` cleans to itself. |
| TrackingExample.CleanProducts | test/handler_test.rb:17 | `select id from products` cleans to itself. |
| TrackingExample.CleanTypes | test/handler_test.rb:18 | The `pg_type` statement cleans to itself squished. Its identifier list is not masked. |
| TrackingExample.SelectCommands | test/handler_test.rb:15-19 | Every statement of the tracking tests has the command `SELECT`. |
| TrackingExample.ListedStatements | test/handler_test.rb:15-19 | The three statements of test_should_track_sql_command_in_the_list have three different keys. |
| TrackingExample.SpelledStatements | test/handler_test.rb:73-76 | The two spellings of test_query_count_should_be_case_insensitive have the same key. |
| TrackingExample.TrackListedCommand | test/handler_test.rb:9-25 | With SELECT tracked, three SELECT statements with different keys give a table of 1, then 2, then 3 keys. |
| TrackingExample.TrackInTheList | test/handler_test.rb:9-25 | The same holds for the test's own three statements. |
| TrackingExample.KeysOfThree | test/handler_test.rb:21-24 | Three handler calls leave the table sizes that `Track` gives. |
| TrackingExample.KeysInTheList | test/handler_test.rb:21-24 | A handler that tracks SELECT has 1, 2 and 3 keys after the test's three calls. |
| TrackingExample.IgnoreUnlistedCommand | test/handler_test.rb:28-43 | With only INSERT tracked, SELECT statements leave the table empty. |
| TrackingExample.IgnoreOutsideTheList | test/handler_test.rb:28-43 | The same holds for the test's own two statements. |
| TrackingExample.KeysOutsideTheList | test/handler_test.rb:39-43 | A handler that tracks INSERT has 0 keys after each of the test's calls. |
| TrackingExample.CountCaseInsensitively | test/handler_test.rb:67-85 | With INSERT and SELECT tracked, two SELECT statements with one key leave one row, with count 2. |
| TrackingExample.CountBothSpellings | test/handler_test.rb:67-85 | The same holds for `SELECT * FROM users` and `select * from Users`. |
| TrackingExample.KeysOfBothSpellings | test/handler_test.rb:78-84 | After the test's two calls, the handler has 1 key and that key's count is 2. |

## Left out

- The handler's source file is not part of this model. The masking rules
  reproduce every behaviour the tests assert, as a token rewrite rather than
  the original sequence of regular expressions. Statements outside the
  tested shapes may be masked differently from the original.
- Lists of identifiers such as `IN (test1, test2, test3)` are left unmasked.
  The tests only count keys for such a statement, so its masked form is
  unspecified.
- Durations and timestamps are left out. The start and finish times, the
  event name and the event id passed to `call` are not modelled, and a row
  holds only its `count`. No duration is asserted anywhere.
- `tracked_paths` and call-site filtering are left out. Most tests set
  `tracked_paths` to `nil`, which accepts every path.
  test_query_count_should_be_case_insensitive (test/handler_test.rb:67-71)
  does not set it, and relies on the default from `Config.apply_defaults`
  accepting its call site.
- Building the configuration (`Config.apply_defaults`, the test helper) is
  left out. The configuration is a plain value holding `enabled` and
  `tracked_sql_command`. A handler built with no configuration
  (`Handler.new(nil)`) accepts nothing; the tests only use it to clean text.
- Event subscription, reporting, flushing of `data`, and thread safety are
  left out. They are I/O and concurrency.
- The tracking tests are proved over `Track`, the function form of one call.
  `Handler.Call` is proved to update `data` to exactly `Track` of the old
  table. The `Keys...` methods run the tests' calls on a real `Handler`.
- Whitespace and case folding are ASCII only. `Squish` treats only space,
  tab, line feed, carriage return, vertical tab and form feed as
  whitespace. So U+00A0 and U+3000 are not squished, unlike Ruby's
  `String#squish`. `Lower` and `Upper` fold only `A`-`Z`, so `É` and `é`
  give different keys. The tests use only ASCII text.
- The example proofs evaluate long literal statements. Each statement is
  split into a list of pieces (constants of a few tokens each). The
  cleaned text is proved piece by piece and then joined, because one
  evaluation of a whole statement needs more of the solver than one proof
  is given.
- SqlMaskShape.MaskKeepsPlain: it does not state which `,`, `)` and sign
  tokens survive masking. A rule may consume these together with a
  literal, so they are left out of `Plain`. That a `)` or `,` outside a
  literal list is kept is shown only for the test statements.
- SqlHandler.Command: the command is the first space-delimited word of the
  squished statement, upper-cased, not the first keyword token. A command
  glued to what follows, as in `SELECT(1)` or `SELECT*FROM t`, gives the
  command `SELECT(1)` or `SELECT*FROM`, so such a statement is not tracked
  under `SELECT`. The tests only use statements whose command is followed
  by a space.
- Idempotence of cleaning is not claimed. The tests do not assert it.
