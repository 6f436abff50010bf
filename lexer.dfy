/**
 * The character-level part of server/src/util/Context.ts: the classifiers, the
 * token kinds, and the specification functions of the two scanners.
 *
 * `ScanSpec` is what `Token.parse` computes (the kind and the half-open range of
 * one token) and `FindStartSpec` is what `Token.findStart` computes.  Both are
 * written the way the loops of the source walk the text, and each helper carries
 * the contract that says what it finds; the imperative scanners in module Tokens
 * are proved equal to these functions, and module ScanProperties proves what the
 * resulting tokens look like.
 *
 * Reading a string out of range yields `undefined` in JavaScript; `isSpace` and
 * `isSymbol` answer false for it.  `CharAt`, `IsSpaceAt` and `IsSymbolAt` model
 * exactly that.
 */
module Lexer {
  import opened Wrappers

  /** The token kinds, with the source's own names. */
  datatype TokenType =
    | Identifier
    | Text
    | Keyword
    | Symbol
    | Variable
    | Comment
    | ObjectOperator
    | Assign
    | EOF

  /** The kind and the range `[start, end)` of a scanned token. */
  datatype Lexeme = Lexeme(kind: TokenType, start: int, end: int)

  // ---------------------------------------------------------------------------
  // Character classes
  // ---------------------------------------------------------------------------

  /** ASCII letters, digits, underscore, and every code point above 126. */
  predicate IsIdentifier(c: char)
    ensures c as int <= 126 ==>
              (IsIdentifier(c) <==> 'a' <= c <= 'z' || 'A' <= c <= 'Z' || '0' <= c <= '9' || c == '_')
  {
    var n := c as int;
    (96 < n < 123) || (64 < n < 91) || n == 95 || (47 < n < 58) || n > 126
  }

  predicate IsSpace(c: char)
  {
    c == ' ' || c == '\t' || c == '\n' || c == '\r'
  }

  const Symbols: string := ";:,.\\[]()|^&+-/*=%!~<>?@"

  /** The characters that end an identifier run on their own; see `ClassesAreDisjoint`. */
  predicate IsSymbol(c: char)
  {
    c in Symbols
  }

  /** The (non exhaustive) keyword list; the test is made on the lower-cased text. */
  const Keywords: seq<string> := [
    "class", "extends", "implements",
    "function", "new", "trait", "interface",
    "static", "public", "protected", "private", "abstract",
    "const", "use", "namespace", "instanceof"
  ]

  function LowerAscii(c: char): char {
    if 'A' <= c <= 'Z' then (c as int + 32) as char else c
  }

  /** `toLowerCase`, restricted to ASCII letters (every keyword is ASCII). */
  function ToLowerAscii(s: string): (r: string)
    ensures |r| == |s|
    ensures forall i :: 0 <= i < |s| ==> r[i] == LowerAscii(s[i])
    ensures forall i :: 0 <= i < |r| ==> !('A' <= r[i] <= 'Z')
  {
    seq(|s|, i requires 0 <= i < |s| => LowerAscii(s[i]))
  }

  /** Every keyword is a word of three to ten identifier characters. */
  predicate IsKeyword(id: string)
    ensures IsKeyword(id) ==> 3 <= |id| <= 10 && forall i :: 0 <= i < |id| ==> IsIdentifier(id[i])
  {
    ToLowerAscii(id) in Keywords
  }

  /** `text[i]`: a character, or `undefined` out of range. */
  function CharAt(text: string, i: int): Option<char> {
    if 0 <= i < |text| then Some(text[i]) else None
  }

  predicate IsSpaceAt(text: string, i: int) {
    0 <= i < |text| && IsSpace(text[i])
  }

  predicate IsSymbolAt(text: string, i: int) {
    0 <= i < |text| && IsSymbol(text[i])
  }

  /** JavaScript's `substring(from, to)`: both ends clamped into the string, then ordered. */
  function Substring(s: string, from: int, to: int): (r: string)
    ensures |r| <= |s|
    ensures 0 <= from <= to <= |s| ==> r == s[from..to]
    ensures 0 <= to <= from <= |s| ==> r == s[to..from]
    ensures 0 <= from <= |s| <= to ==> r == s[from..]
  {
    var a := if from < 0 then 0 else if from > |s| then |s| else from;
    var b := if to < 0 then 0 else if to > |s| then |s| else to;
    if a <= b then s[a..b] else s[b..a]
  }

  // ---------------------------------------------------------------------------
  // Forward scanning (Token.parse)
  // ---------------------------------------------------------------------------

  /** The three forward runs of `parse`, by the character that ends them. */
  datatype Run =
    | LineComment          // ends at a carriage return or a line feed
    | Quoted(quote: char)  // ends at the same quote; a backslash protects nothing
    | IdentifierChars      // ends at the first non-identifier character

  predicate Stops(run: Run, c: char) {
    match run
    case LineComment => c == '\r' || c == '\n'
    case Quoted(q) => c == q
    case IdentifierChars => !IsIdentifier(c)
  }

  /**
   * The end of a run that examines the text from index `j` on: the first index at
   * or after `j` whose character stops the run, or the length of the text.
   */
  function RunEnd(text: string, j: int, run: Run): (e: int)
    requires 0 <= j <= |text|
    decreases |text| - j
    ensures j <= e <= |text|
    ensures forall k :: j <= k < e ==> !Stops(run, text[k])
    ensures e < |text| ==> Stops(run, text[e])
  {
    if j == |text| || Stops(run, text[j]) then j else RunEnd(text, j + 1, run)
  }

  /** Whether a `*` at index `k` is followed by a `/`. */
  predicate ClosesAt(text: string, k: int) {
    0 <= k && k + 1 < |text| && text[k] == '*' && text[k + 1] == '/'
  }

  /**
   * The end of a block comment whose body is examined from index `j` on.  A `*`
   * makes the scan look at the next character: a `/` there ends the comment at
   * the index of that `/`; anything else is skipped without being examined, so
   * `**` followed by `/` does not close.  A `*` as the last character pushes the
   * end one past the length of the text.
   */
  function BlockEnd(text: string, j: int): (e: int)
    requires 0 <= j <= |text| + 1
    decreases |text| + 1 - j
    ensures j <= e <= |text| + 1
    ensures e < |text| ==> j < e && text[e - 1] == '*' && text[e] == '/'
    ensures e == |text| + 1 ==> j == |text| + 1 || (0 < |text| && text[|text| - 1] == '*')
    // every `*/` pair before the end was passed over because its `*` was skipped as
    // the character after another `*`
    ensures forall k :: j <= k && k + 1 < e && ClosesAt(text, k) ==> j < k && text[k - 1] == '*'
  {
    if j >= |text| then j
    else if text[j] == '*' then
      if j + 1 < |text| && text[j + 1] == '/' then j + 1 else BlockEnd(text, j + 2)
    else BlockEnd(text, j + 1)
  }

  /**
   * Where the whitespace walk of `parse` lands: the greatest index at or below
   * `i` holding a non-whitespace character, or -1 (the walk reads `text[-1]`,
   * which is `undefined` and so not whitespace).
   */
  function LastNonSpace(text: string, i: int): (r: int)
    requires i < |text|
    decreases i + 1
    ensures r == -1 || (0 <= r <= i && !IsSpace(text[r]))
    ensures forall k :: r < k <= i ==> IsSpace(text[k])
  {
    if i < 0 then -1
    else if !IsSpace(text[i]) then i
    else LastNonSpace(text, i - 1)
  }

  /**
   * The offsets `parse` accepts without a TypeError: inside the text, and with a
   * non-whitespace character at or before the offset.  Otherwise the scan reads
   * an `undefined` character and ends in `isIdentifier(undefined)`.
   */
  predicate ParseDefined(text: string, offset: int) {
    0 <= offset < |text| && LastNonSpace(text, offset) >= 0
  }

  /** Whether the character after index `o` is `d` (false past the end). */
  predicate Follows(text: string, o: int, d: char) {
    0 <= o + 1 < |text| && text[o + 1] == d
  }

  /** The token that starts at the non-whitespace index `o`, branch by branch as in the source. */
  function ScanAt(text: string, o: int): (r: Lexeme)
    requires 0 <= o < |text|
    ensures r.start == o < r.end && r.kind != EOF
    ensures r.end <= |text| || (r.kind == Comment && r.end == |text| + 1 && text[|text| - 1] == '*')
  {
    var c := text[o];
    if c == '/' then
      if Follows(text, o, '/') then Lexeme(Comment, o, RunEnd(text, o + 2, LineComment))
      else if Follows(text, o, '*') then Lexeme(Comment, o, BlockEnd(text, o + 2))
      else Lexeme(Symbol, o, o + 1)
    else if c == '#' then Lexeme(Comment, o, RunEnd(text, o + 1, LineComment))
    else if c == '"' || c == '\'' then Lexeme(Text, o, RunEnd(text, o + 1, Quoted(c)))
    else if c == '-' then
      if Follows(text, o, '>') then Lexeme(ObjectOperator, o, o + 2) else Lexeme(Symbol, o, o + 1)
    else if c == ':' then
      if Follows(text, o, ':') then Lexeme(ObjectOperator, o, o + 2) else Lexeme(Symbol, o, o + 1)
    else if c == '$' then Lexeme(Variable, o, RunEnd(text, o + 1, IdentifierChars))
    else if IsIdentifier(c) then
      var e := RunEnd(text, o + 1, IdentifierChars);
      Lexeme(if IsKeyword(text[o..e]) then Keyword else Identifier, o, e)
    else if c == '=' && Follows(text, o, '>') then Lexeme(Assign, o, o + 2)
    else if c == '=' && !Follows(text, o, '=') then Lexeme(Assign, o, o + 1)
    else Lexeme(Symbol, o, o + 1)
  }

  /** What `Token.parse(ctx, offset)` yields: whitespace is skipped backward first. */
  function ScanSpec(text: string, offset: int): (r: Lexeme)
    requires ParseDefined(text, offset)
    ensures r.start == LastNonSpace(text, offset) && 0 <= r.start <= offset && r.start < r.end
    ensures r.kind != EOF
  {
    ScanAt(text, LastNonSpace(text, offset))
  }

  // ---------------------------------------------------------------------------
  // Backward boundary search (Token.findStart)
  // ---------------------------------------------------------------------------

  /**
   * Whether index `i` ends the backward run: a run of symbols ends at a
   * non-symbol, any other run at whitespace or a symbol.
   */
  predicate Breaks(text: string, i: int, waitSymbol: bool) {
    if waitSymbol then !IsSymbolAt(text, i) else IsSpaceAt(text, i) || IsSymbolAt(text, i)
  }

  /**
   * The backward loop of `findStart` from index `i` down to index 1 (index 0 is
   * never examined): one past the first index that breaks the run, or 0.
   */
  function BackScan(text: string, i: int, waitSymbol: bool): (r: int)
    decreases i
    ensures 0 <= r && (i < 0 ==> r == 0) && (0 <= i ==> r <= i + 1)
    ensures r > 0 ==> 2 <= r && Breaks(text, r - 1, waitSymbol)
    ensures forall k :: r <= k <= i && 1 <= k ==> !Breaks(text, k, waitSymbol)
  {
    if i <= 0 then 0
    else if Breaks(text, i, waitSymbol) then i + 1
    else BackScan(text, i - 1, waitSymbol)
  }

  /**
   * The index the backward run starts from: the offset itself, or, when the
   * offset holds whitespace, the nearest non-whitespace index below it (a value
   * of 0 or less means that none was found at index 1 or above).
   */
  function Anchor(text: string, offset: int): int {
    if IsSpaceAt(text, offset) then LastNonSpace(text, offset - 1) else offset
  }

  /** What `Token.findStart(ctx, offset)` yields; defined for every offset. */
  function FindStartSpec(text: string, offset: int): (r: int)
    ensures 0 <= r && (0 <= offset ==> r <= offset) && (offset < 0 ==> r == 0)
  {
    var a := Anchor(text, offset);
    if a <= 0 then 0 else BackScan(text, a - 1, IsSymbolAt(text, a))
  }
}
