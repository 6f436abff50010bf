/**
 * What the two scanners of server/src/util/Context.ts produce, proved about
 * `Lexer.ScanSpec` (Token.parse) and `Lexer.FindStartSpec` (Token.findStart).
 */
module ScanProperties {
  import opened Lexer

  // ---------------------------------------------------------------------------
  // Character classes
  // ---------------------------------------------------------------------------

  /** The three classes never overlap: a symbol is neither whitespace nor part of an identifier. */
  lemma ClassesAreDisjoint(c: char)
    ensures IsSymbol(c) ==> !IsSpace(c) && !IsIdentifier(c)
    ensures IsSpace(c) ==> !IsIdentifier(c)
  {
    if IsSymbol(c) {
      var k :| 0 <= k < |Symbols| && Symbols[k] == c;
      assert k < 24;
    }
  }

  /** The keyword test ignores ASCII case: two spellings that lower-case alike are both keywords or neither. */
  lemma KeywordTestIgnoresCase(a: string, b: string)
    requires |a| == |b|
    requires forall i :: 0 <= i < |a| ==> LowerAscii(a[i]) == LowerAscii(b[i])
    ensures IsKeyword(a) <==> IsKeyword(b)
  {
    assert ToLowerAscii(a) == ToLowerAscii(b);
  }

  // ---------------------------------------------------------------------------
  // Token.parse
  // ---------------------------------------------------------------------------

  /**
   * The token starts at the offset when the offset holds a non-whitespace
   * character, and otherwise at the nearest non-whitespace character BEFORE it.
   */
  lemma ScanStartsAtOrBeforeOffset(text: string, offset: int)
    requires ParseDefined(text, offset)
    ensures var s := ScanSpec(text, offset);
      && 0 <= s.start <= offset
      && !IsSpace(text[s.start])
      && (!IsSpace(text[offset]) ==> s.start == offset)
      && (forall k :: s.start < k <= offset ==> IsSpace(text[k]))
  {
  }

  /**
   * Every token is non-empty and never EOF; it ends inside the text or at its
   * end, except an unterminated block comment whose last character is `*`,
   * which ends one past the end.  These facts are the contracts of `ScanSpec`
   * and `ScanAt` put together, gathered here for `Token.parse`.
   */
  lemma ScanExtent(text: string, offset: int)
    requires ParseDefined(text, offset)
    ensures var s := ScanSpec(text, offset);
      && 0 <= s.start < s.end
      && s.kind != EOF
      && (s.end <= |text| || (s.kind == Comment && s.end == |text| + 1 && text[|text| - 1] == '*'))
  {
    var o := LastNonSpace(text, offset);
    if text[o] == '/' && Follows(text, o, '*') {
      var e := BlockEnd(text, o + 2);
      assert e == |text| + 1 ==> text[|text| - 1] == '*';
    }
  }

  /** Two-character operators, one-character assignments and one-character symbols. */
  lemma ScanOperators(text: string, o: int)
    requires 0 <= o < |text| && !IsSpace(text[o])
    ensures var s := ScanSpec(text, o);
      && (text[o] == '-' && Follows(text, o, '>') ==> s == Lexeme(ObjectOperator, o, o + 2))
      && (text[o] == ':' && Follows(text, o, ':') ==> s == Lexeme(ObjectOperator, o, o + 2))
      && (text[o] == '=' && Follows(text, o, '>') ==> s == Lexeme(Assign, o, o + 2))
      && (text[o] == '=' && !Follows(text, o, '>') && !Follows(text, o, '=') ==> s == Lexeme(Assign, o, o + 1))
      && (text[o] == '=' && Follows(text, o, '=') ==> s == Lexeme(Symbol, o, o + 1))
      && (text[o] == '-' && !Follows(text, o, '>') ==> s == Lexeme(Symbol, o, o + 1))
      && (text[o] == ':' && !Follows(text, o, ':') ==> s == Lexeme(Symbol, o, o + 1))
      && (text[o] == '/' && !Follows(text, o, '/') && !Follows(text, o, '*') ==> s == Lexeme(Symbol, o, o + 1))
      && (text[o] !in "/#\"'-:$=" && !IsIdentifier(text[o]) ==> s == Lexeme(Symbol, o, o + 1))
  {
  }

  /**
   * An identifier character starts a maximal run of identifier characters,
   * which is a Keyword exactly when its lower-cased text is in the keyword list.
   */
  lemma ScanIdentifier(text: string, o: int)
    requires 0 <= o < |text| && IsIdentifier(text[o])
    ensures var s := ScanSpec(text, o);
      && s.start == o < s.end <= |text|
      && (s.kind == Keyword || s.kind == Identifier)
      && (forall k :: o <= k < s.end ==> IsIdentifier(text[k]))
      && (s.end == |text| || !IsIdentifier(text[s.end]))
      && (s.kind == Keyword <==> ToLowerAscii(text[o..s.end]) in Keywords)
  {
    assert !IsSpace(text[o]);
  }

  /** `$` followed by the (possibly empty) maximal run of identifier characters. */
  lemma ScanVariable(text: string, o: int)
    requires 0 <= o < |text| && text[o] == '$'
    ensures var s := ScanSpec(text, o);
      && s.kind == Variable && s.start == o < s.end <= |text|
      && (forall k :: o < k < s.end ==> IsIdentifier(text[k]))
      && (s.end == |text| || !IsIdentifier(text[s.end]))
  {
  }

  /** A `//` or `#` comment ends before the first carriage return or line feed, or at the end of the text. */
  lemma ScanLineComment(text: string, o: int)
    requires 0 <= o < |text|
    requires text[o] == '#' || (text[o] == '/' && Follows(text, o, '/'))
    ensures var s := ScanSpec(text, o);
      && s.kind == Comment && s.start == o < s.end <= |text|
      && (forall k :: o < k < s.end ==> text[k] != '\r' && text[k] != '\n')
      && (s.end == |text| || text[s.end] == '\r' || text[s.end] == '\n')
  {
  }

  /**
   * A string ends before the first quote of its own kind after the opening one,
   * or at the end of the text; a backslash does not protect a quote.
   */
  lemma ScanString(text: string, o: int)
    requires 0 <= o < |text| && (text[o] == '"' || text[o] == '\'')
    ensures var s := ScanSpec(text, o);
      && s.kind == Text && s.start == o < s.end <= |text|
      && (forall k :: o < k < s.end ==> text[k] != text[o])
      && (s.end == |text| || text[s.end] == text[o])
  {
  }

  /**
   * A block comment's end is the index of the `/` of a `*` `/` pair (so the
   * closing `/` is not part of the token), or lies at or one past the end of
   * the text when no such pair is seen.  Every `*` `/` pair before the end is
   * one whose `*` the loop skipped as the character after another `*`.
   */
  lemma ScanBlockComment(text: string, o: int)
    requires 0 <= o < |text| && text[o] == '/' && Follows(text, o, '*')
    ensures var s := ScanSpec(text, o);
      && s.kind == Comment && s.start == o
      && (s.end < |text| ==> o + 2 < s.end && text[s.end - 1] == '*' && text[s.end] == '/')
      && (s.end >= |text| ==> s.end == |text| || (s.end == |text| + 1 && text[|text| - 1] == '*'))
      && (forall k :: o + 2 <= k && k + 1 < s.end && ClosesAt(text, k) ==> o + 2 < k && text[k - 1] == '*')
  {
  }

  /** `/** foo **/` never closes: the second `*` of `**` is skipped, so the final `/` is never examined. */
  lemma DoubleStarDoesNotClose()
    ensures ScanSpec("/** foo **/", 0) == Lexeme(Comment, 0, 11)
  {
    var t := "/** foo **/";
    assert |t| == 11 && t[0] == '/' && t[1] == '*' && t[2] == '*' && t[3] == ' ';
    assert t[8] == '*' && t[9] == '*' && t[10] == '/';
    assert BlockEnd(t, 10) == 11;
    assert BlockEnd(t, 8) == 11;
    assert BlockEnd(t, 7) == 11 && BlockEnd(t, 6) == 11 && BlockEnd(t, 5) == 11;
    assert BlockEnd(t, 4) == 11;
    assert BlockEnd(t, 2) == 11;
    assert LastNonSpace(t, 0) == 0;
    assert ScanAt(t, 0) == Lexeme(Comment, 0, BlockEnd(t, 2));
  }

  /**
   * From a whitespace offset the token starts at the nearest non-whitespace
   * character before it and may run past the offset: in `a # b` the scan from
   * index 3 is the comment `# b`.
   */
  lemma WhitespaceOffsetMayBeInsideToken()
    ensures ScanSpec("a # b", 3) == Lexeme(Comment, 2, 5)
  {
    var t := "a # b";
    assert LastNonSpace(t, 3) == 2;
  }

  /** `"a\"b"`: the string stops at the escaped quote, three characters in. */
  lemma BackslashDoesNotProtectQuote()
    ensures ScanSpec("\"a\\\"b\"", 0) == Lexeme(Text, 0, 3)
  {
    var t := "\"a\\\"b\"";
    assert RunEnd(t, 3, Quoted('"')) == 3;
    assert RunEnd(t, 1, Quoted('"')) == 3;
  }

  /** `ClAsS` is one Keyword token covering the five characters. */
  lemma MixedCaseKeyword()
    ensures ScanSpec("ClAsS", 0) == Lexeme(Keyword, 0, 5)
  {
    var t := "ClAsS";
    assert RunEnd(t, 1, IdentifierChars) == 5;
    assert t[0..5] == t;
    assert ToLowerAscii(t) == "class" == Keywords[0];
  }

  /** `->` is one ObjectOperator token, not two symbols. */
  lemma ArrowIsOneToken()
    ensures ScanSpec("->", 0) == Lexeme(ObjectOperator, 0, 2)
  {
  }

  /**
   * `next()` rescans from `end + 1`: in `ab+c` the token after `ab` is `c`, and
   * the `+` at index 2 is stepped over.
   */
  lemma NextSkipsOneCharacter()
    ensures ScanSpec("ab+c", 0) == Lexeme(Identifier, 0, 2)
    ensures ScanSpec("ab+c", 3) == Lexeme(Identifier, 3, 4)
  {
    var t := "ab+c";
    assert RunEnd(t, 1, IdentifierChars) == 2;
    assert RunEnd(t, 4, IdentifierChars) == 4;
    assert ToLowerAscii(t[0..2]) == "ab";
    assert ToLowerAscii(t[3..4]) == "c";
  }

  /**
   * The rescan from `end + 1` reaches `text[end]` after all when whitespace
   * sits at `end + 1`: in `ab+ c` the scan from index 3 walks back onto the
   * `+` at index 2, the `end` of `ab`.
   */
  lemma NextMayStartAtEnd()
    ensures ScanSpec("ab+ c", 0) == Lexeme(Identifier, 0, 2)
    ensures ScanSpec("ab+ c", 3) == Lexeme(Symbol, 2, 3)
  {
    var t := "ab+ c";
    assert RunEnd(t, 1, IdentifierChars) == 2;
    assert ToLowerAscii(t[0..2]) == "ab";
    assert LastNonSpace(t, 3) == 2;
  }

  /**
   * From a whitespace offset the scan walks backward: in `ab  cd`, `next()` of
   * `ab` scans from index 3 and lands on the `b` at index 1.
   */
  lemma NextCanLandInsideTheToken()
    ensures ScanSpec("ab  cd", 3) == Lexeme(Identifier, 1, 2)
  {
    var t := "ab  cd";
    assert LastNonSpace(t, 3) == 1;
    assert RunEnd(t, 2, IdentifierChars) == 2;
    assert ToLowerAscii(t[1..2]) == "b";
  }

  // ---------------------------------------------------------------------------
  // Token.findStart
  // ---------------------------------------------------------------------------

  /**
   * Inside the text: from a whitespace offset the scan first moves to the
   * nearest non-whitespace index of 1 or more (0 when there is none); from
   * that anchor it runs back over symbols when the anchor is a symbol, and over
   * non-whitespace non-symbols otherwise.  A result above 0 sits just after the
   * character that stopped the run; index 0 is never examined.
   */
  lemma FindStartBoundary(text: string, offset: int)
    requires 0 <= offset < |text|
    ensures var a := Anchor(text, offset); var r := FindStartSpec(text, offset);
      && (!IsSpace(text[offset]) ==> a == offset)
      && (IsSpace(text[offset]) ==> a < offset && forall k :: a < k <= offset && 0 <= k ==> IsSpace(text[k]))
      && (a > 0 ==> !IsSpace(text[a]))
      && (a <= 0 ==> r == 0)
      && (r > 0 ==> 1 <= r - 1 < a)
      && (r > 0 && IsSymbol(text[a]) ==> !IsSymbol(text[r - 1]))
      && (r > 0 && !IsSymbol(text[a]) ==> IsSpace(text[r - 1]) || IsSymbol(text[r - 1]))
      && (forall k :: 1 <= k && r <= k < a && IsSymbol(text[a]) ==> IsSymbol(text[k]))
      && (forall k :: 1 <= k && r <= k < a && !IsSymbol(text[a]) ==> !IsSpace(text[k]) && !IsSymbol(text[k]))
  {
    var a := Anchor(text, offset);
    if a > 0 {
      var w := IsSymbolAt(text, a);
      var r := BackScan(text, a - 1, w);
      assert FindStartSpec(text, offset) == r;
      forall k | 1 <= k && r <= k < a
        ensures w ==> IsSymbol(text[k])
        ensures !w ==> !IsSpace(text[k]) && !IsSymbol(text[k])
      {
        assert !Breaks(text, k, w);
      }
    }
  }

  /**
   * The boundary is stable: searching again from the start that was found
   * returns the same start.
   */
  lemma FindStartIdempotent(text: string, offset: int)
    requires 0 <= offset < |text|
    ensures FindStartSpec(text, FindStartSpec(text, offset)) == FindStartSpec(text, offset)
  {
    var r := FindStartSpec(text, offset);
    var a := Anchor(text, offset);
    if r > 0 {
      FindStartBoundary(text, offset);
      var w := IsSymbolAt(text, a);
      // r - 1 breaks the run and r does not, so r is itself a non-whitespace anchor
      if r < a {
        assert !Breaks(text, r, w);
      }
      assert !IsSpace(text[r]) by { ClassesAreDisjoint(text[r]); }
      assert IsSymbolAt(text, r) == w;
      assert Anchor(text, r) == r;
      assert Breaks(text, r - 1, w);
    }
  }

  /**
   * A file that starts with whitespace cannot anchor a Context on its first
   * token: `findStart(1)` in ` ab` is 0 without looking at index 0, and
   * `parse(0)` then walks back to index -1.
   */
  lemma LeadingWhitespaceDefeatsParse()
    ensures FindStartSpec(" ab", 1) == 0
    ensures !ParseDefined(" ab", FindStartSpec(" ab", 1))
  {
    assert LastNonSpace(" ab", 0) == -1;
  }
}
