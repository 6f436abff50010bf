# crane: the cursor context, the class-name finder and uri resolution

This project models the part of the crane PHP language server that works out what
lies under the editor's cursor, and one completion finder that uses it.

- **Lexer** holds the character classes (`isIdentifier`, `isSpace`, `isSymbol`), the
  symbol set, the keyword list and `TokenType`. It also holds two specification
  functions: `ScanSpec`, for what `Token.parse` returns (a token's kind and its range
  `[start, end)`), and `FindStartSpec`, for what `Token.findStart` returns (the start
  of the token at or before an offset). Each recursive helper (`RunEnd`, `BlockEnd`,
  `LastNonSpace`, `BackScan`) states what it finds.
- **ScanProperties** proves what scanned tokens look like. It covers identifiers and
  keywords, variables, comments, strings, operators and the limits of a token. For
  `findStart` it covers bounds, the boundary character and idempotence. A few concrete
  inputs show the code's quirks.
- **Tokens** models the two classes of `server/src/util/Context.ts`:
  - `Token` keeps its `prevToken`/`nextToken` links as mutable fields. `parse` and
    `findStart` are methods with the source's loops, proved equal to the
    specification functions. `next()` and `previous()` fill a link once and cache it.
  - `Context` anchors the current token and answers `inNamespace`, `inClassOrTrait`
    and `inMethod`. It keeps a ghost set of the tokens made from it. `Valid()` says
    that every token in that set is a non-empty slice of the context text, and that
    every cached link has a partner link pointing back.
- **Classes** models `matches` and `find` of the class-name finder. The reflection
  library and the settings come in as a `Workspace` of functions and a
  `maxSuggestionSize`.
- **App** models `resolveUri`.

The model follows the code, quirks included:

- **Whitespace before a token.** `parse` skips whitespace *backward*: its loop says
  `i--` under the condition `i < max`. So the token built from a whitespace offset
  starts at the nearest non-whitespace character before it, and the EOF token after
  the loop is never built. That token may end before the offset:
  `NextCanLandInsideTheToken` shows `next()` of `ab` in `ab  cd` landing on `b`. It
  may also run past the offset: `WhitespaceOffsetMayBeInsideToken` shows the scan from
  index 3 of `a # b` giving the comment `# b`.
- **Backslashes.** A backslash inside a string protects nothing, because the
  `continue` only moves on to the next character. `"a\"b"` ends at the escaped quote
  (`BackslashDoesNotProtectQuote`).
- **Block comments.** The `end` of a block comment is the index of the closing `/`,
  not one past it. The character after a `*` is skipped when it is not `/`, so
  `/** foo **/` never closes (`DoubleStarDoesNotClose`).
- **`next()`.** It rescans from `end + 1`, so the character at `end`, just after
  the token, is skipped (`NextSkipsOneCharacter`). The exception is whitespace at
  `end + 1`: the backward walk then lands on `end` itself, or further back
  (`NextMayStartAtEnd`, `NextCanLandInsideTheToken`).

JavaScript reads `undefined` out of range, and `isSpace` and `isSymbol` answer false
for it. `findStart` is therefore total over every integer offset.

`parse` ends in a TypeError (`isIdentifier(undefined)`) in two cases: the offset lies
outside the text, or only whitespace comes at or before it. The predicate
`ParseDefined` is the precondition that excludes both. `LeadingWhitespaceDefeatsParse`
shows that `new Context(" ab", 1)` takes this path.

## Model

| member | source | states |
|---|---|---|
| Lexer.IsIdentifier | server/src/util/Context.ts:10-19 | below code 127 exactly the ASCII letters, the digits and `_` are identifier characters |
| Lexer.IsSpace | server/src/util/Context.ts:21-23 | space, tab, line feed and carriage return are the whitespace characters |
| Lexer.IsSymbol | server/src/util/Context.ts:25-39 | a symbol is a member of the 24-character symbols string |
| ScanProperties.ClassesAreDisjoint | server/src/util/Context.ts:10-39 | the three classes of `isIdentifier`, `isSpace` and `isSymbol` are pairwise disjoint |
| Lexer.ToLowerAscii | server/src/util/Context.ts:207 | lower-casing keeps the length, maps every character through ASCII lower-casing, and leaves no upper-case ASCII letter |
| Lexer.IsKeyword | server/src/util/Context.ts:207-208 | a keyword is a word of three to ten identifier characters, whatever its case |
| Lexer.Substring | server/src/util/Context.ts:82 | `substring` never yields more than the string; for in-range bounds it is the slice between them in either order, and a `to` past the end is clamped to the end |
| Lexer.RunEnd | server/src/util/Context.ts:136-206 | the forward runs of `parse` end at the first character that stops them (line end, the same quote, a non-identifier character) or at the end of the text, and nothing before that stops them |
| Lexer.BlockEnd | server/src/util/Context.ts:143-151 | a block comment ends at the `/` of a `*/` pair, and every earlier `*/` pair is one whose `*` the loop skipped as the character after another `*`; past the end it stops at the length, or one beyond it after a final `*` |
| Lexer.LastNonSpace | server/src/util/Context.ts:116-124 | the backward whitespace walk stops at the greatest non-whitespace index at or below `i`, or at -1, and everything it passed is whitespace |
| Lexer.ScanAt | server/src/util/Context.ts:130-224 | the token starts at the given index, is non-empty and never EOF, and ends within the text except after an unterminated block comment ending in `*` |
| Lexer.ScanSpec | server/src/util/Context.ts:114-225 | the token `parse` builds starts at the last non-whitespace index at or before the offset, is non-empty, and is never EOF |
| Lexer.FindStartSpec | server/src/util/Context.ts:232-257 | `findStart` gives a value between 0 and the offset, and 0 for a negative offset |
| Lexer.BackScan | server/src/util/Context.ts:247-256 | the backward boundary loop returns one past the first index (at or above 1) that breaks the run, or 0; every index it passed continues the run |
| ScanProperties.KeywordTestIgnoresCase | server/src/util/Context.ts:207-208 | two spellings that lower-case alike are both keywords or neither |
| ScanProperties.ScanStartsAtOrBeforeOffset | server/src/util/Context.ts:116-128 | a token starts at the offset when it holds a non-whitespace character, else at the nearest non-whitespace character before it, with only whitespace in between |
| ScanProperties.ScanExtent | server/src/util/Context.ts:114-225 | every token is non-empty, is never EOF, and ends within the text, except an unterminated block comment ending in `*` |
| ScanProperties.ScanOperators | server/src/util/Context.ts:180-224 | `->` and `::` are ObjectOperators of two characters; `=>` is an Assign of two characters; `=` not followed by `>` or `=` is an Assign of one character |
| ScanProperties.ScanIdentifier | server/src/util/Context.ts:199-212 | an identifier character starts a maximal run of identifier characters, and the token is a Keyword or an Identifier |
| ScanProperties.ScanVariable | server/src/util/Context.ts:190-198 | `$` starts a Variable made of the maximal run of identifier characters after it |
| ScanProperties.ScanLineComment | server/src/util/Context.ts:132-163 | `//` and `#` comments run up to the first carriage return or line feed, or to the end of the text |
| ScanProperties.ScanString | server/src/util/Context.ts:164-179 | a string runs up to the first quote of its own kind after the opening one, or to the end of the text |
| ScanProperties.ScanBlockComment | server/src/util/Context.ts:143-151 | a `/*` comment's end is the index of a `/` preceded by `*`, or lies at or one past the end of the text; every `*/` pair before the end had its `*` skipped after another `*` |
| ScanProperties.DoubleStarDoesNotClose | server/src/util/Context.ts:144-150 | `/** foo **/` scans to a Comment reaching the end of the text |
| ScanProperties.BackslashDoesNotProtectQuote | server/src/util/Context.ts:164-171 | `"a\"b"` scans to a Text token of three characters |
| ScanProperties.MixedCaseKeyword | server/src/util/Context.ts:207-212 | `ClAsS` is one Keyword token |
| ScanProperties.ArrowIsOneToken | server/src/util/Context.ts:180-183 | `->` is one ObjectOperator token |
| ScanProperties.NextSkipsOneCharacter | server/src/util/Context.ts:93-96 | in `ab+c` the scan from `end + 1` of `ab` yields `c`, stepping over `+` |
| ScanProperties.NextMayStartAtEnd | server/src/util/Context.ts:93-96 | in `ab+ c` the scan from `end + 1` of `ab` walks back over the space and yields the `+` at 2..3, starting at `ab`'s `end` |
| ScanProperties.NextCanLandInsideTheToken | server/src/util/Context.ts:116-124 | in `ab  cd` the scan from index 3 yields the Identifier `b` at 1..2 |
| ScanProperties.WhitespaceOffsetMayBeInsideToken | server/src/util/Context.ts:116-128 | in `a # b` the scan from the whitespace at index 3 yields the Comment at 2..5 |
| ScanProperties.FindStartBoundary | server/src/util/Context.ts:232-257 | the anchor is the offset or the nearest non-whitespace character before it; a result above 0 sits just after a character that breaks the run, and every character from there to the anchor continues it |
| ScanProperties.FindStartIdempotent | server/src/util/Context.ts:232-257 | searching again from a start that was found returns that start |
| ScanProperties.LeadingWhitespaceDefeatsParse | server/src/util/Context.ts:274-278 | for ` ab` at offset 1, `findStart` gives 0, and `parse(0)` is outside the offsets it accepts |
| Tokens.Token.constructor | server/src/util/Context.ts:74-84 | stores the kind, range and links, with the text `substring(start, end)` when `start < end` |
| Tokens.Token.Scan | server/src/util/Context.ts:114-225 | the loops of `parse` compute exactly `ScanSpec` |
| Tokens.Token.ScanToken | server/src/util/Context.ts:130-224 | the branches of `parse` after the whitespace walk compute exactly `ScanAt` |
| Tokens.Token.ScanRun | server/src/util/Context.ts:157-162 | the `while (++i < length)` loop stops where `RunEnd` says |
| Tokens.Token.ScanBlockComment | server/src/util/Context.ts:144-150 | the block comment loop stops where `BlockEnd` says |
| Tokens.Token.Parse | server/src/util/Context.ts:114-225 | a fresh token of this context with the kind and range of `ScanSpec`, a non-empty text that is a slice of the context text, and the given links |
| Tokens.Token.FindStart | server/src/util/Context.ts:232-257 | the loops of `findStart` compute exactly `FindStartSpec`, for every integer offset |
| Tokens.Token.Next | server/src/util/Context.ts:89-99 | EOF is its own successor; otherwise the successor is cached and links back to this token, and a new one is the scan from `end + 1`, with its text sliced from that range and no successor of its own; the context stays valid |
| Tokens.Token.Previous | server/src/util/Context.ts:104-112 | the predecessor is cached and links forward to this token, and a new one is the scan from `findStart(start - 1)`, with its text sliced from that range and no predecessor of its own; the context stays valid |
| Tokens.Context.constructor | server/src/util/Context.ts:274-279 | records text, offset and the character at the offset; the current token is `parse(findStart(offset))`, its text is the slice of that range, it has no links, and it is the only token of a valid context |
| Tokens.Context.InNamespace | server/src/util/Context.ts:284-286 | a namespace handle is present |
| Tokens.Context.InClassOrTrait | server/src/util/Context.ts:291-293 | a class handle or a trait handle is present |
| Tokens.Context.InMethod | server/src/util/Context.ts:298-300 | being in a method implies being in a class or trait |
| Tokens.NextThenPrevious | server/src/util/Context.ts:89-112 | `next()` followed by `previous()` returns the same token object, unless it is EOF |
| Tokens.PreviousThenNext | server/src/util/Context.ts:89-112 | `previous()` followed by `next()` returns the same token object, unless the predecessor is EOF |
| Classes.SearchPattern | server/src/suggestion/Classes.ts:51-56 | the search pattern ends with `~`, and outside a namespace it is the identifier's text followed by `~` |
| Classes.DataSource | server/src/suggestion/Classes.ts:49-60 | there is no data source exactly when the token is not an identifier and there is no namespace; a non-identifier in a namespace gets the namespace's classes |
| Classes.ItemFor | server/src/suggestion/Classes.ts:79-85 | an item is labelled by the short name, detailed by the full name, documented by the doc's summary, or undocumented without a doc, and inserts the short name, the full name or the namespace's alias |
| Classes.InsertText | server/src/suggestion/Classes.ts:66-78 | the full name outside a namespace; the short name for a class of the current namespace; otherwise a non-empty `use` alias, else the full name |
| Classes.Matches | server/src/suggestion/Classes.ts:31-43 | true exactly for the keywords `extends` and `new` (exact case), or for an identifier whose previous token reads `new`; that previous token is the cached one, or a new one scanned from `findStart(start - 1)`; only the identifier case may create and cache it |
| Classes.StartOfExtends | server/src/util/Context.ts:232-257 | in `extends`, `findStart(3)` is 0 |
| Classes.KeywordOfExtends | server/src/util/Context.ts:199-212 | the scan of `extends` from 0 is the Keyword `extends` at 0..7 |
| Classes.ExtendsTriggers | server/src/suggestion/Classes.ts:31-35 | a context in `extends` at offset 3 makes the finder trigger |
| Classes.StartOfFoo | server/src/util/Context.ts:232-257 | in `new Foo`, `findStart(5)` is 4 |
| Classes.IdentifierOfFoo | server/src/util/Context.ts:199-212 | in `new Foo`, the scan from 4 is the Identifier `Foo` at 4..7 |
| Classes.StartBeforeFoo | server/src/util/Context.ts:232-257 | in `new Foo`, `findStart(3)`, the search `previous()` makes from `Foo`, is 0 |
| Classes.KeywordOfNew | server/src/util/Context.ts:199-212 | in `new Foo`, the scan from 0 is the Keyword `new` at 0..3 |
| Classes.NewIdentifierTriggers | server/src/suggestion/Classes.ts:36-41 | a context in `Foo` of `new Foo` makes the finder trigger through the previous token |
| Classes.Find | server/src/suggestion/Classes.ts:48-94 | null exactly when the token is not an identifier and there is no namespace; otherwise one item per candidate in order, as many as the candidates, or `maxSuggestionSize` when that lies between 1 and their number |
| App.DropScheme | server/src/app.ts:64-66 | a leading `file://` is removed, and anything else is left alone |
| App.DropRoot | server/src/app.ts:67-72 | the result is a suffix of the filename |
| App.ResolveUri | server/src/app.ts:62-74 | the result is always a suffix of the uri |
| App.PlainUriUnchanged | server/src/app.ts:62-74 | a uri with neither the scheme nor the root path in front is returned unchanged |
| App.SchemeOnlyDropped | server/src/app.ts:62-74 | `file://` followed by a name outside the root loses only the scheme |
| App.SchemeDropped | server/src/app.ts:64-66 | `file://` in front of a name is dropped |
| App.DropRootJoined | server/src/app.ts:67-72 | a name under the root path loses the root path and exactly one separating `/`, whatever follows it; without the separator the name must not start with `/` |
| App.ResolveJoined | server/src/app.ts:62-74 | root path plus relative name, with or without `file://` and the separating `/`, resolves back to the relative name |

## Left out

- `Context.resolve` is not part of this model: it is asynchronous, traces a message, and fetches or syncs the file through the workspace. `scope` is an input field, and the `file` field is not modelled.
- `isNumber` is not modelled, because nothing in the modelled code calls it.
- server/src/hvy/Parser.ts, server/src/util/Cache.ts, and the parts of server/src/app.ts other than `resolveUri` are not part of this model.
- The reflection library is reached only through the `Workspace` functions, whose answers are taken as given: `searchByName`'s ranking, `getFQN`, `getClasses` and `findAlias`. Its handles are modelled by identity (`NamespaceRef`, `Handle`).
- Tokens.Context.InNamespace, Tokens.Context.InClassOrTrait, Tokens.Context.InMethod: a null handle and an `undefined` one are both `None`. The source's `!== null` tests on `namespace`, `class`, `trait` and `method` would count an `undefined` handle as present.
- Lexer.ToLowerAscii: lowers ASCII letters only, where JavaScript's `toLowerCase` lowers all of Unicode. The one non-ASCII character that lowers to an ASCII letter is the Kelvin sign, which becomes `k`. No keyword contains `k`, so the keyword test agrees.
- Characters are Dafny `char`s, not UTF-16 code units. `charCodeAt(0)` on a surrogate pair reads the high surrogate, which is above 126 like the character it begins.
- Tokens.Token.Parse: requires `ParseDefined`. The source throws a TypeError where the model has that precondition, so the error path is not modelled.
- Tokens.Token.Next: an EOF token is its own successor, but `parse` never builds an EOF token, so that case never arises from modelled code.
- Tokens.Token.constructor: the text of a token with `start >= end` is `undefined` in the source and `""` here. Every token `parse` builds is non-empty.
- Classes.Find: `maxSuggestionSize` is an integer here. A fractional setting never equals the length of the list, so it would behave like a limit below 1.
- Classes.Find: the settings object is read once, as the `App` value, where the source reads `this.app.settings` at every use.
