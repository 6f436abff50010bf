/**
 * The objects of server/src/util/Context.ts: `Token`, whose neighbour links are
 * filled in lazily, and `Context`, which anchors the token at the cursor and
 * answers the scope predicates.
 *
 * The two scanners are methods with the loops of the source, proved equal to
 * `Lexer.ScanSpec` and `Lexer.FindStartSpec`.  A Context keeps the ghost set of
 * the tokens created from it; `Valid()` says that every token in that set is a
 * non-empty slice of the context text and that every cached link has its
 * partner link pointing back.
 */
module Tokens {
  import opened Wrappers
  import opened Lexer
  import opened ScanProperties

  /** Object identity of a namespace handle of the reflection library. */
  datatype NamespaceRef = NamespaceRef(id: nat)

  /** Object identity of a class, trait or method handle; only its presence matters here. */
  datatype Handle = Handle(id: nat)

  /** The lexical scope at the cursor: nullable handles, as the reflection library gives them. */
  datatype Scope = Scope(
    namespace: Option<NamespaceRef>,
    classHandle: Option<Handle>,
    traitHandle: Option<Handle>,
    methodHandle: Option<Handle>)

  function Min(a: int, b: int): int { if a <= b then a else b }

  class Token {
    const parent: Context
    const kind: TokenType
    const start: int
    const end: int
    /** `text.substring(start, end)`; the source leaves it undefined when `start >= end`, here "". */
    const text: string
    var prevToken: Token?
    var nextToken: Token?

    /** The token is non-empty, starts inside the text, and its text is that slice of the context text. */
    predicate Sliced() {
      0 <= start < end && start < |parent.text| && text == parent.text[start..Min(end, |parent.text|)]
    }

    /** `n` has the kind and range of the token `next()` scans from `end + 1`. */
    predicate ScansAsNext(n: Token) {
      && ParseDefined(parent.text, end + 1)
      && var s := ScanSpec(parent.text, end + 1);
         n.kind == s.kind && n.start == s.start && n.end == s.end
    }

    /** `p` has the kind and range of the token `previous()` scans from `findStart(start - 1)`. */
    predicate ScansAsPrevious(p: Token) {
      && ParseDefined(parent.text, FindStartSpec(parent.text, start - 1))
      && var s := ScanSpec(parent.text, FindStartSpec(parent.text, start - 1));
         p.kind == s.kind && p.start == s.start && p.end == s.end
    }

    constructor (parent: Context, kind: TokenType, start: int, end: int, previous: Token?, next: Token?)
      ensures this.parent == parent && this.kind == kind && this.start == start && this.end == end
      ensures text == if start < end then Substring(parent.text, start, end) else ""
      ensures prevToken == previous && nextToken == next
    {
      this.parent := parent;
      this.kind := kind;
      this.start := start;
      this.end := end;
      this.text := if start < end then Substring(parent.text, start, end) else "";
      this.prevToken := previous;
      this.nextToken := next;
    }

    /**
     * The kind and range of the token `Token.parse` builds at `offset`.  The
     * whitespace loop steps `i` downward under the condition `i < max`, so it only
     * ever stops at its `break`, and the EOF token after it is never built.
     */
    static method Scan(text: string, offset: int) returns (s: Lexeme)
      requires ParseDefined(text, offset)
      ensures s == ScanSpec(text, offset)
    {
      var max := |text|;
      var o := offset;
      if IsSpace(text[offset]) {
        var i := offset;
        while i < max
          invariant -1 <= i <= offset
          invariant LastNonSpace(text, i) == LastNonSpace(text, offset)
          decreases i + 1
        {
          // text[-1] is undefined, which is not whitespace
          if i < 0 || !IsSpace(text[i]) {
            o := i;
            break;
          }
          i := i - 1;
        }
      }
      assert o == LastNonSpace(text, offset);
      s := ScanToken(text, o);
    }

    /**
     * The branches of `Token.parse` after the whitespace walk has settled on
     * the index `o`, tested in the source's order.
     */
    static method ScanToken(text: string, o: int) returns (s: Lexeme)
      requires 0 <= o < |text|
      ensures s == ScanAt(text, o)
    {
      var max := |text|;
      var ch := text[o];
      if ch == '/' {
        if o + 1 < max && text[o + 1] == '/' {
          var i := ScanRun(text, o + 1, LineComment);
          s := Lexeme(Comment, o, i);
        } else if o + 1 < max && text[o + 1] == '*' {
          var i := ScanBlockComment(text, o + 1);
          s := Lexeme(Comment, o, i);
        } else {
          s := Lexeme(Symbol, o, o + 1);
        }
      } else if ch == '#' {
        var i := ScanRun(text, o, LineComment);
        s := Lexeme(Comment, o, i);
      } else if ch == '"' {
        var i := ScanRun(text, o, Quoted('"'));
        s := Lexeme(Text, o, i);
      } else if ch == '\'' {
        var i := ScanRun(text, o, Quoted('\''));
        s := Lexeme(Text, o, i);
      } else if ch == '-' {
        if o + 1 < max && text[o + 1] == '>' {
          s := Lexeme(ObjectOperator, o, o + 2);
        } else {
          s := Lexeme(Symbol, o, o + 1);
        }
      } else if ch == ':' {
        if o + 1 < max && text[o + 1] == ':' {
          s := Lexeme(ObjectOperator, o, o + 2);
        } else {
          s := Lexeme(Symbol, o, o + 1);
        }
      } else if ch == '$' {
        var i := ScanRun(text, o, IdentifierChars);
        s := Lexeme(Variable, o, i);
      } else if IsIdentifier(ch) {
        var i := ScanRun(text, o, IdentifierChars);
        var id := ToLowerAscii(text[o..i]);
        if id in Keywords {
          s := Lexeme(Keyword, o, i);
        } else {
          s := Lexeme(Identifier, o, i);
        }
      } else if ch == '=' && o + 1 < max && text[o + 1] == '>' {
        s := Lexeme(Assign, o, o + 2);
      } else if ch == '=' && !(o + 1 < max && text[o + 1] == '=') {
        s := Lexeme(Assign, o, o + 1);
      } else {
        s := Lexeme(Symbol, o, o + 1);
      }
    }

    /**
     * The loop `while (++i < length) { if (stops(text[i])) break; }` started at
     * `i = from`.  In a string the source also says `if (ch === '\\') continue;`,
     * which only moves on to the next character, as the loop does anyway.
     */
    static method ScanRun(text: string, from: int, run: Run) returns (i: int)
      requires 0 <= from < |text|
      ensures i == RunEnd(text, from + 1, run)
    {
      i := from + 1;
      while i < |text| && !Stops(run, text[i])
        invariant from + 1 <= i <= |text|
        invariant RunEnd(text, i, run) == RunEnd(text, from + 1, run)
      {
        i := i + 1;
      }
    }

    /**
     * The block comment loop started at `i = from` (the index of the `*` after the
     * opening `/`): `while (++i < length) { if (text[i] === '*') { if (text[++i] === '/') break; } }`.
     */
    static method ScanBlockComment(text: string, from: int) returns (i: int)
      requires 0 <= from < |text|
      ensures i == BlockEnd(text, from + 1)
    {
      i := from;
      while i + 1 < |text|
        invariant from <= i <= |text|
        invariant BlockEnd(text, i + 1) == BlockEnd(text, from + 1)
        decreases |text| - i
      {
        i := i + 1;
        if text[i] == '*' {
          i := i + 1;
          if i < |text| && text[i] == '/' {
            return;
          }
        }
      }
      i := i + 1;
    }

    /** `Token.parse`: scans one token at `offset` and links it to the given neighbours. */
    static method Parse(ctx: Context, offset: int, previous: Token?, next: Token?) returns (t: Token)
      requires ParseDefined(ctx.text, offset)
      ensures fresh(t) && t.parent == ctx
      ensures t.kind == ScanSpec(ctx.text, offset).kind
      ensures t.start == ScanSpec(ctx.text, offset).start
      ensures t.end == ScanSpec(ctx.text, offset).end
      ensures 0 <= t.start < t.end && t.start < |ctx.text| && t.text == ctx.text[t.start..Min(t.end, |ctx.text|)]
      ensures t.prevToken == previous && t.nextToken == next
    {
      var s := Scan(ctx.text, offset);
      ScanExtent(ctx.text, offset);
      t := new Token(ctx, s.kind, s.start, s.end, previous, next);
    }

    /** `Token.findStart`: the start of the token at or before `offset`. */
    static method FindStart(ctx: Context, offset: int) returns (r: int)
      ensures r == FindStartSpec(ctx.text, offset)
    {
      var text := ctx.text;
      var o := offset;
      if IsSpaceAt(text, offset) {
        var i := offset - 1;
        while i > 0
          invariant 0 <= i <= offset - 1 || i == offset - 1 == -1
          invariant o == offset
          invariant LastNonSpace(text, i) == LastNonSpace(text, offset - 1)
          decreases i
        {
          if !IsSpace(text[i]) {
            o := i;
            break;
          }
          i := i - 1;
        }
        if i == 0 {
          return 0;
        }
      }
      var waitSymbol := IsSymbolAt(text, o);
      assert o == Anchor(text, offset) || (o <= 0 && Anchor(text, offset) <= 0);
      var i := o - 1;
      while i > 0
        invariant i <= o - 1
        invariant BackScan(text, i, waitSymbol) == FindStartSpec(text, offset)
        decreases i
      {
        if waitSymbol {
          if !IsSymbolAt(text, i) {
            return i + 1;
          }
        } else {
          if IsSpaceAt(text, i) {
            return i + 1;
          }
          if IsSymbolAt(text, i) {
            return i + 1;
          }
        }
        i := i - 1;
      }
      return 0;
    }

    /**
     * `next()`: an EOF token is its own successor; otherwise the successor is
     * scanned once, from `end + 1`, and cached.
     */
    method Next() returns (r: Token)
      requires parent.Valid() && this in parent.tokens
      requires kind == EOF || nextToken != null || ParseDefined(parent.text, end + 1)
      modifies this`nextToken, parent`tokens
      ensures parent.Valid() && r in parent.tokens
      ensures kind == EOF ==> r == this && nextToken == old(nextToken) && parent.tokens == old(parent.tokens)
      ensures kind != EOF ==> nextToken == r && r.prevToken == this
      ensures kind != EOF && old(nextToken) != null ==> r == old(nextToken) && parent.tokens == old(parent.tokens)
      ensures kind != EOF && old(nextToken) == null ==>
                fresh(r) && parent.tokens == old(parent.tokens) + {r} &&
                ScansAsNext(r) && r.Sliced() && r.nextToken == null
    {
      if kind == EOF {
        return this;
      }
      if nextToken == null {
        var n := Parse(parent, end + 1, this, null);
        nextToken := n;
        parent.tokens := parent.tokens + {n};
        forall u | u in old(parent.tokens) && u != this
          ensures u.nextToken != null ==> u.nextToken in parent.tokens && u.nextToken.prevToken == u
          ensures u.prevToken != null ==> u.prevToken in parent.tokens && u.prevToken.nextToken == u
        {
          // a token linking back to this one would have made `nextToken` non-null
          assert old(u.prevToken) != this;
        }
        assert n.Sliced() && ScansAsNext(n);
        assert parent.Valid();
      }
      r := nextToken;
    }

    /**
     * `previous()`: scanned once, from `findStart(start - 1)`, with this token as
     * its successor, and cached.
     */
    method Previous() returns (r: Token)
      requires parent.Valid() && this in parent.tokens
      requires prevToken != null || ParseDefined(parent.text, FindStartSpec(parent.text, start - 1))
      modifies this`prevToken, parent`tokens
      ensures parent.Valid() && r in parent.tokens
      ensures prevToken == r && r.nextToken == this
      ensures old(prevToken) != null ==> r == old(prevToken) && parent.tokens == old(parent.tokens)
      ensures old(prevToken) == null ==>
                fresh(r) && parent.tokens == old(parent.tokens) + {r} &&
                ScansAsPrevious(r) && r.Sliced() && r.prevToken == null
    {
      if prevToken == null {
        var nextStart := FindStart(parent, start - 1);
        var p := Parse(parent, nextStart, null, this);
        prevToken := p;
        parent.tokens := parent.tokens + {p};
        forall u | u in old(parent.tokens) && u != this
          ensures u.nextToken != null ==> u.nextToken in parent.tokens && u.nextToken.prevToken == u
          ensures u.prevToken != null ==> u.prevToken in parent.tokens && u.prevToken.nextToken == u
        {
          // a token linking forward to this one would have made `prevToken` non-null
          assert old(u.nextToken) != this;
        }
        assert p.Sliced() && ScansAsPrevious(p);
        assert parent.Valid();
      }
      r := prevToken;
    }
  }

  class Context {
    const text: string
    const offset: int
    /** `text[offset]`, undefined when the offset is outside the text. */
    const character: Option<char>
    var current: Token?
    /** Filled in by `resolve`, which is not part of this model; undefined until then. */
    var scope: Option<Scope>
    /** The tokens created from this context. */
    ghost var tokens: set<Token>

    ghost predicate Valid()
      reads this, tokens
    {
      && current != null && current in tokens
      && forall t :: t in tokens ==>
           && t.parent == this
           && t.Sliced()
           && (t.nextToken != null ==> t.nextToken in tokens && t.nextToken.prevToken == t)
           && (t.prevToken != null ==> t.prevToken in tokens && t.prevToken.nextToken == t)
    }

    /** Records the character at the cursor and anchors `current = parse(findStart(offset))`. */
    constructor (text: string, offset: int)
      requires ParseDefined(text, FindStartSpec(text, offset))
      ensures this.text == text && this.offset == offset && character == CharAt(text, offset)
      ensures Valid() && fresh(tokens) && tokens == {current}
      ensures current.kind == ScanSpec(text, FindStartSpec(text, offset)).kind
      ensures current.start == ScanSpec(text, FindStartSpec(text, offset)).start
      ensures current.end == ScanSpec(text, FindStartSpec(text, offset)).end
      ensures current.text == text[current.start..Min(current.end, |text|)]
      ensures current.prevToken == null && current.nextToken == null
      ensures scope == None
    {
      this.text := text;
      this.offset := offset;
      this.character := CharAt(text, offset);
      current := null;
      scope := None;
      tokens := {};
      new;
      var start := Token.FindStart(this, offset);
      current := Token.Parse(this, start, null, null);
      tokens := {current};
    }

    predicate InNamespace()
      reads this
      requires scope.Some?
    {
      scope.value.namespace.Some?
    }

    predicate InClassOrTrait()
      reads this
      requires scope.Some?
    {
      scope.value.classHandle.Some? || scope.value.traitHandle.Some?
    }

    /** A method scope is always inside a class or a trait. */
    predicate InMethod()
      reads this
      requires scope.Some?
      ensures InMethod() ==> InClassOrTrait()
    {
      InClassOrTrait() && scope.value.methodHandle.Some?
    }
  }

  /** Going forward and then back returns to the same token object (unless it is EOF). */
  method NextThenPrevious(t: Token) returns (back: Token)
    requires t.parent.Valid() && t in t.parent.tokens
    requires t.kind == EOF || t.nextToken != null || ParseDefined(t.parent.text, t.end + 1)
    requires t.kind == EOF ==> t.prevToken != null || ParseDefined(t.parent.text, FindStartSpec(t.parent.text, t.start - 1))
    modifies t.parent.tokens, t.parent`tokens
    ensures t.kind != EOF ==> back == t
    ensures t.kind == EOF ==> back == t.prevToken
  {
    var n := t.Next();
    if t.kind == EOF {
      assert n == t && t.prevToken == old(t.prevToken);
      back := t.Previous();
    } else {
      back := n.Previous();
    }
  }

  /** Going back and then forward returns to the same token object (unless the previous token is EOF). */
  method PreviousThenNext(t: Token) returns (p: Token, forth: Token)
    requires t.parent.Valid() && t in t.parent.tokens
    requires t.prevToken != null || ParseDefined(t.parent.text, FindStartSpec(t.parent.text, t.start - 1))
    modifies t.parent.tokens, t.parent`tokens
    ensures p.kind != EOF ==> forth == t
  {
    p := t.Previous();
    assert p.parent == t.parent && p.nextToken == t;
    forth := p.Next();
  }
}
