/**
 * The class-name finder of server/src/suggestion/Classes.ts: when it triggers
 * (`matches`) and which completion items it offers (`find`).
 *
 * The reflection library is reached only through the functions of
 * `Workspace`; their answers are taken as given.
 */
module Classes {
  import opened Wrappers
  import opened Lexer
  import opened ScanProperties
  import opened Tokens

  datatype Doc = Doc(summary: Option<string>)

  /** A class handle of the reflection library, as the finder reads it. */
  datatype ClassInfo = ClassInfo(
    name: string,
    fullName: string,
    doc: Option<Doc>,
    /** `getNamespace()`, compared by identity with the scope's namespace */
    namespace: Option<NamespaceRef>)

  datatype CompletionItemKind = Class

  datatype CompletionItem = CompletionItem(
    itemLabel: string,  // `label`, a reserved word in Dafny
    kind: CompletionItemKind,
    detail: string,
    documentation: Option<string>,
    insertText: string)

  /** The collaborators the finder calls. */
  datatype Workspace = Workspace(
    /** `workspace.searchByName(kind, pattern, limit)` */
    searchByName: (string, string, int) -> seq<ClassInfo>,
    /** `namespace.getFQN(name)` */
    getFQN: (NamespaceRef, string) -> string,
    /** `namespace.getClasses()` */
    getClasses: NamespaceRef -> seq<ClassInfo>,
    /** `namespace.findAlias(fullName)`; None stands for null or undefined */
    findAlias: (NamespaceRef, string) -> Option<string>)

  /** What the finder reads from the application: the workspace and `settings.maxSuggestionSize`. */
  datatype App = App(workspace: Workspace, maxSuggestionSize: int)

  /** The two keywords that open a class-name completion; compared case-sensitively. */
  predicate IsTriggerKeyword(text: string) {
    text == "extends" || text == "new"
  }

  /** A JavaScript truthiness test on an optional string: null, undefined and "" are false. */
  predicate Truthy(s: Option<string>) {
    s.Some? && s.value != ""
  }

  /**
   * The text inserted for a candidate: its full name outside a namespace; its
   * short name when it lives in the current namespace; otherwise its `use`
   * alias if there is one, else its full name.
   */
  function InsertText(ws: Workspace, scope: Scope, c: ClassInfo): (t: string)
    ensures scope.namespace.None? ==> t == c.fullName
    ensures scope.namespace.Some? && c.namespace == scope.namespace ==> t == c.name
    ensures scope.namespace.Some? && c.namespace != scope.namespace ==>
              var alias := ws.findAlias(scope.namespace.value, c.fullName);
              t == if Truthy(alias) then alias.value else c.fullName
  {
    if scope.namespace.None? then c.fullName
    else if c.namespace == scope.namespace then c.name
    else
      var alias := ws.findAlias(scope.namespace.value, c.fullName);
      if Truthy(alias) then alias.value else c.fullName
  }

  /**
   * The completion item built for one candidate: labelled by its short name,
   * detailed by its full name, documented by its summary when it has a doc.
   */
  function ItemFor(ws: Workspace, scope: Scope, c: ClassInfo): (item: CompletionItem)
    ensures item.itemLabel == c.name && item.detail == c.fullName && item.kind == Class
    ensures c.doc.None? ==> item.documentation.None?
    ensures c.doc.Some? ==> item.documentation == c.doc.value.summary
    ensures item.insertText == c.name || item.insertText == c.fullName ||
            (scope.namespace.Some? &&
             var alias := ws.findAlias(scope.namespace.value, c.fullName);
             alias.Some? && item.insertText == alias.value)
  {
    CompletionItem(
      c.name,
      Class,
      c.fullName,
      if c.doc.Some? then c.doc.value.summary else None,
      InsertText(ws, scope, c))
  }

  /** The search pattern for an identifier: qualified in a namespace, then `~`. */
  function SearchPattern(ws: Workspace, scope: Scope, text: string): (p: string)
    ensures |p| > 0 && p[|p| - 1] == '~'
    ensures scope.namespace.None? ==> p == text + "~"
  {
    (if scope.namespace.Some? then ws.getFQN(scope.namespace.value, text) else text) + "~"
  }

  /**
   * The candidates: a name search for an identifier, the classes of the current
   * namespace otherwise, and nothing outside a namespace.
   */
  function DataSource(app: App, scope: Scope, kind: TokenType, text: string): (ds: Option<seq<ClassInfo>>)
    ensures ds.None? <==> kind != Identifier && scope.namespace.None?
    ensures kind != Identifier && scope.namespace.Some? ==> ds == Some(app.workspace.getClasses(scope.namespace.value))
  {
    if kind == Identifier then
      Some(app.workspace.searchByName("class", SearchPattern(app.workspace, scope, text), app.maxSuggestionSize))
    else if scope.namespace.Some? then
      Some(app.workspace.getClasses(scope.namespace.value))
    else
      None
  }

  /**
   * `matches`: the current token is the keyword `extends` or `new` (spelled in
   * lower case), or an identifier whose previous token's text is `new`.  Asking
   * for the previous token may scan it and cache it.
   */
  method Matches(ctx: Context) returns (b: bool)
    requires ctx.Valid()
    requires ctx.current.kind == Identifier ==>
               ctx.current.prevToken != null ||
               ParseDefined(ctx.text, FindStartSpec(ctx.text, ctx.current.start - 1))
    modifies ctx.current`prevToken, ctx`tokens
    ensures ctx.Valid() && ctx.current == old(ctx.current)
    ensures ctx.current.kind == Keyword ==> (b <==> IsTriggerKeyword(ctx.current.text))
    ensures ctx.current.kind == Identifier ==>
              ctx.current.prevToken != null && (b <==> ctx.current.prevToken.text == "new")
    ensures ctx.current.kind == Identifier && old(ctx.current.prevToken) != null ==>
              ctx.current.prevToken == old(ctx.current.prevToken)
    ensures ctx.current.kind == Identifier && old(ctx.current.prevToken) == null ==>
              ctx.current.ScansAsPrevious(ctx.current.prevToken)
    ensures ctx.current.kind != Keyword && ctx.current.kind != Identifier ==> !b
    ensures ctx.current.kind != Identifier ==>
              ctx.current.prevToken == old(ctx.current.prevToken) && ctx.tokens == old(ctx.tokens)
  {
    var current := ctx.current;
    if current.kind == Keyword {
      var keyword := current.text;
      return keyword == "extends" || keyword == "new";
    }
    if current.kind == Identifier {
      assert current in ctx.tokens && current.parent == ctx;
      var prev := current.Previous();
      if prev.text == "new" {
        return true;
      }
      return false;
    }
    return false;
  }

  /**
   * `find`: no list (null) without a data source; otherwise one item per
   * candidate, in the data source's order, stopping as soon as the list has
   * `maxSuggestionSize` items.  The test comes after each push, so a limit below
   * 1 never stops the loop.
   */
  method Find(app: App, ctx: Context) returns (r: Option<seq<CompletionItem>>)
    requires ctx.current != null && ctx.scope.Some?
    ensures r.None? <==> ctx.current.kind != Identifier && ctx.scope.value.namespace.None?
    ensures r.Some? ==>
              var ds := DataSource(app, ctx.scope.value, ctx.current.kind, ctx.current.text).value;
              var limit := app.maxSuggestionSize;
              && |r.value| == (if 1 <= limit <= |ds| then limit else |ds|)
              && forall i :: 0 <= i < |r.value| ==> r.value[i] == ItemFor(app.workspace, ctx.scope.value, ds[i])
  {
    var dataSource: Option<seq<ClassInfo>> := None;
    if ctx.current.kind == Identifier {
      var classFQN := ctx.current.text;
      if ctx.InNamespace() {
        classFQN := app.workspace.getFQN(ctx.scope.value.namespace.value, classFQN);
      }
      dataSource := Some(app.workspace.searchByName("class", classFQN + "~", app.maxSuggestionSize));
    } else if ctx.InNamespace() {
      dataSource := Some(app.workspace.getClasses(ctx.scope.value.namespace.value));
    }

    if dataSource.Some? {
      var ds := dataSource.value;
      var result: seq<CompletionItem> := [];
      var i := 0;
      while i < |ds|
        invariant 0 <= i <= |ds| && |result| == i
        invariant 1 <= app.maxSuggestionSize ==> i < app.maxSuggestionSize
        invariant forall k :: 0 <= k < i ==> result[k] == ItemFor(app.workspace, ctx.scope.value, ds[k])
      {
        var insertText := ds[i].fullName;
        if ctx.InNamespace() {
          if ds[i].namespace == ctx.scope.value.namespace {
            insertText := ds[i].name;
          } else {
            var alias := app.workspace.findAlias(ctx.scope.value.namespace.value, ds[i].fullName);
            if Truthy(alias) {
              insertText := alias.value;
            }
          }
        }
        var item := CompletionItem(
          ds[i].name,
          Class,
          ds[i].fullName,
          if ds[i].doc.Some? then ds[i].doc.value.summary else None,
          insertText);
        result := result + [item];
        if |result| == app.maxSuggestionSize {
          break;
        }
        i := i + 1;
      }
      return Some(result);
    }
    return None;
  }

  /** With the cursor at offset 3 of `extends`, the token starts at 0. */
  lemma StartOfExtends()
    ensures FindStartSpec("extends", 3) == 0
  {
    var text := "extends";
    assert !IsSymbol(text[3]) && !IsSymbol(text[2]) && !IsSpace(text[2]) && !IsSymbol(text[1]) && !IsSpace(text[1]);
    assert BackScan(text, 2, false) == 0;
  }

  /** `extends` is one Keyword token covering the word. */
  lemma KeywordOfExtends()
    ensures ScanSpec("extends", 0) == Lexeme(Keyword, 0, 7)
  {
    var text := "extends";
    assert RunEnd(text, 1, IdentifierChars) == 7;
    assert IsKeyword(text) by {
      assert ToLowerAscii(text) == text;
    }
    assert IsIdentifier(text[0]);
    ScanIdentifier(text, 0);
    assert text[0..7] == text;
  }

  /** With the cursor inside `extends`, the finder triggers. */
  method ExtendsTriggers() returns (b: bool)
    ensures b
  {
    StartOfExtends();
    KeywordOfExtends();
    var ctx := new Context("extends", 3);
    b := Matches(ctx);
  }

  /** With the cursor at offset 5 of `new Foo`, the token starts at 4. */
  lemma StartOfFoo()
    ensures FindStartSpec("new Foo", 5) == 4
  {
    var text := "new Foo";
    assert !IsSymbol(text[5]) && !IsSymbol(text[4]) && !IsSpace(text[4]) && IsSpace(text[3]);
    assert BackScan(text, 4, false) == 4;
  }

  /** In `new Foo`, `Foo` is an Identifier token at 4..7. */
  lemma IdentifierOfFoo()
    ensures ScanSpec("new Foo", 4) == Lexeme(Identifier, 4, 7)
  {
    var text := "new Foo";
    assert RunEnd(text, 5, IdentifierChars) == 7;
    assert !IsKeyword(text[4..7]) by {
      assert ToLowerAscii(text[4..7]) == "foo";
    }
    assert IsIdentifier(text[4]);
    ScanIdentifier(text, 4);
  }

  /** In `new Foo`, the search for the token before `Foo` (from offset 3) finds 0. */
  lemma StartBeforeFoo()
    ensures FindStartSpec("new Foo", 3) == 0
  {
    var text := "new Foo";
    assert IsSpace(text[3]) && !IsSpace(text[2]);
    assert LastNonSpace(text, 2) == 2;
    assert !IsSymbol(text[2]) && !IsSymbol(text[1]) && !IsSpace(text[1]);
    assert BackScan(text, 1, false) == 0;
  }

  /** In `new Foo`, `new` is a Keyword token at 0..3. */
  lemma KeywordOfNew()
    ensures ScanSpec("new Foo", 0) == Lexeme(Keyword, 0, 3)
  {
    var text := "new Foo";
    assert RunEnd(text, 1, IdentifierChars) == 3;
    assert IsKeyword(text[0..3]) by {
      assert ToLowerAscii(text[0..3]) == "new";
    }
    assert IsIdentifier(text[0]);
    ScanIdentifier(text, 0);
  }

  /** With the cursor inside `Foo` of `new Foo`, the finder triggers through the previous token. */
  method NewIdentifierTriggers() returns (b: bool)
    ensures b
  {
    var text := "new Foo";
    StartOfFoo();
    IdentifierOfFoo();
    StartBeforeFoo();
    KeywordOfNew();
    var ctx := new Context(text, 5);
    b := Matches(ctx);
    assert ctx.current.prevToken.text == text[0..3];
  }
}
