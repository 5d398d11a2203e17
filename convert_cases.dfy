/**
 * The expected outputs of `convertNodeToRegExp` for concrete patterns. Each
 * pattern is written as the tree it denotes; a pattern of one item is that
 * item's node, a longer one a Sequence.
 */
module ConvertCases {
  import opened Wrappers
  import opened PatternAst
  import opened Compiler

  /** Compiling two nodes joins their sources with the separator. */
  lemma CompileTwo(a: Node, b: Node, cfg: Config, separator: string)
    ensures CompileFrom([a, b], 0, cfg, separator)
      == Compiled(CompileNode(a, cfg).source + separator + CompileNode(b, cfg).source,
                  CompileNode(a, cfg).groups + CompileNode(b, cfg).groups)
  {}

  /** Compiling three nodes joins their sources with the separator. */
  lemma CompileThree(a: Node, b: Node, c: Node, cfg: Config, separator: string)
    ensures CompileFrom([a, b, c], 0, cfg, separator)
      == Compiled(CompileNode(a, cfg).source + separator + (CompileNode(b, cfg).source + separator + CompileNode(c, cfg).source),
                  CompileNode(a, cfg).groups + (CompileNode(b, cfg).groups + CompileNode(c, cfg).groups))
  {
    var ns := [a, b, c];
    assert CompileFrom(ns, 2, cfg, separator) == CompileNode(c, cfg);
    assert CompileFrom(ns, 1, cfg, separator).source == CompileNode(b, cfg).source + separator + CompileNode(c, cfg).source;
  }

  /** `:foo` compiles to `^([^/]*)`, case-insensitive, with one param slot. */
  lemma ConvertsParam()
    ensures ConvertNodeToRegExp(Param("foo", None), NoOptions) == RegExpSpec("^([^/]*)", true, [ParamSlot("foo")])
  {}

  /** `:foo` with `unconstrainedParamPattern: 'abc'` compiles to `^(abc)`. */
  lemma ConvertsParamWithCustomPattern()
    ensures ConvertNodeToRegExp(Param("foo", None), Options(Some("abc"), None, None, None, None)).source == "^(abc)"
  {}

  /** `:foo *` compiles to `^([^/]*)`. */
  lemma ConvertsParamWithWildcard()
    ensures ConvertNodeToRegExp(Param("foo", Some(Wildcard(false))), NoOptions).source == "^([^/]*)"
  {}

  /** `:foo **` compiles to `^(.*)`. */
  lemma ConvertsParamWithGreedyWildcard()
    ensures ConvertNodeToRegExp(Param("foo", Some(Wildcard(true))), NoOptions).source == "^(.*)"
  {}

  /** `:foo"bar"` compiles to `^(bar)`. */
  lemma ConvertsParamWithText()
    ensures ConvertNodeToRegExp(Param("foo", Some(Text("bar"))), NoOptions).source == "^(bar)"
  {}

  /** `:foo(\d+)` compiles to `^((?:\d+))`. */
  lemma ConvertsParamWithRegExp()
    ensures ConvertNodeToRegExp(Param("foo", Some(RegExp(@"\d+"))), NoOptions).source == @"^((?:\d+))"
  {}

  /** `:foo { foo, bar }` compiles to `^((?:foo|bar))`. */
  lemma ConvertsParamWithAlternation()
    ensures ConvertNodeToRegExp(Param("foo", Some(Alternation([Text("foo"), Text("bar")]))), NoOptions).source
      == "^((?:foo|bar))"
  {
    EscapePlainText("foo", @"\/");
    EscapePlainText("bar", @"\/");
  }

  /** `:foo{}` compiles to `^((?:))`. */
  lemma ConvertsParamWithEmptyAlternation()
    ensures ConvertNodeToRegExp(Param("foo", Some(Alternation([]))), NoOptions).source == "^((?:))"
  {}

  /**
   * `(([abc]))/:foo(\d+)` compiles to `^(?:([abc]))\/((?:\d+))`: the raw
   * group's inner capture takes slot 1, so the param takes slot 2.
   */
  lemma ConvertsParamsAfterRawGroup()
    ensures var r := ConvertNodeToRegExp(Sequence([RegExp("([abc])"), Text("/"), Param("foo", Some(RegExp(@"\d+")))]), NoOptions);
      r.source == @"^(?:([abc]))\/((?:\d+))" && r.groups == [NativeSlot, ParamSlot("foo")]
  {
    CompilesRawGroupThenParam();
    RawGroupThenParamText();
  }

  /** The three joined pieces of `(([abc]))/:foo(\d+)`, as the compiler assembles them. */
  const RawGroupThenParamSource := @"(?:([abc]))" + "" + (@"\/" + "" + @"((?:\d+))")

  /** The assembled pieces, anchored, written out. */
  lemma RawGroupThenParamText()
    ensures "^" + RawGroupThenParamSource == @"^(?:([abc]))\/((?:\d+))"
  {}

  /** `(([abc]))/:foo(\d+)` before the anchor: the three pieces joined in order, the native slot first. */
  lemma CompilesRawGroupThenParam()
    ensures CompileNode(Sequence([RegExp("([abc])"), Text("/"), Param("foo", Some(RegExp(@"\d+")))]), Resolve(NoOptions))
      == Compiled(RawGroupThenParamSource, [NativeSlot, ParamSlot("foo")])
  {
    CompilesCapturingRawGroup();
    CompilesDigitsParam();
    EscapeSingle('/', @"\/");
    CompileThree(RegExp("([abc])"), Text("/"), Param("foo", Some(RegExp(@"\d+"))), Resolve(NoOptions), "");
  }

  /** The raw group `([abc])` is wrapped without a capture of its own and opens one native slot. */
  lemma CompilesCapturingRawGroup()
    ensures CompileNode(RegExp("([abc])"), Resolve(NoOptions)) == Compiled(@"(?:([abc]))", [NativeSlot])
  {}

  /** `:foo(\d+)` captures its constraint in one param slot. */
  lemma CompilesDigitsParam()
    ensures CompileNode(Param("foo", Some(RegExp(@"\d+"))), Resolve(NoOptions)) == Compiled(@"((?:\d+))", [ParamSlot("foo")])
  {}

  /** `foo` compiles to `^foo`. */
  lemma ConvertsText()
    ensures ConvertNodeToRegExp(Text("foo"), NoOptions).source == "^foo"
  {}

  /** `$fo[o]` compiles to `^\$fo\[o\]`: metacharacters are escaped. */
  lemma ConvertsTextWithMetacharacters()
    ensures ConvertNodeToRegExp(Text("$fo[o]"), NoOptions).source == @"^\$fo\[o\]"
  {}

  /** `*` compiles to `^[^/]*` and opens no group. */
  lemma ConvertsWildcard()
    ensures ConvertNodeToRegExp(Wildcard(false), NoOptions) == RegExpSpec("^[^/]*", true, [])
  {}

  /** `**` compiles to `^.*` and opens no group. */
  lemma ConvertsGreedyWildcard()
    ensures ConvertNodeToRegExp(Wildcard(true), NoOptions) == RegExpSpec("^.*", true, [])
  {}

  /** `{**}` compiles to `^(?:.*)`. */
  lemma ConvertsGreedyWildcardInAlternation()
    ensures ConvertNodeToRegExp(Alternation([Wildcard(true)]), NoOptions) == RegExpSpec("^(?:.*)", true, [])
  {}

  /** `{foo,bar}` compiles to `^(?:foo|bar)`. */
  lemma ConvertsAlternation()
    ensures ConvertNodeToRegExp(Alternation([Text("foo"), Text("bar")]), NoOptions).source == "^(?:foo|bar)"
  {}

  /** `/{foo,bar}` compiles to `^\/(?:foo|bar)`. */
  lemma ConvertsAlternationAfterSeparator()
    ensures ConvertNodeToRegExp(Sequence([Text("/"), Alternation([Text("foo"), Text("bar")])]), NoOptions).source
      == @"^\/(?:foo|bar)"
  {
    EscapeSingle('/', @"\/");
    EscapePlainText("foo", @"\/");
    EscapePlainText("bar", @"\/");
  }

  /** `{ /foo, bar }` compiles to `^(?:\/foo|bar)`: a branch may hold a separator. */
  lemma ConvertsAlternationWithSeparatorInBranch()
    ensures ConvertNodeToRegExp(Alternation([Text("/foo"), Text("bar")]), NoOptions).source == @"^(?:\/foo|bar)"
  {
    assert "/foo" == "/" + "foo";
    EscapeSeparatorThenPlain("foo", @"\/");
    EscapePlainText("bar", @"\/");
  }

  // The complex pattern `/aaa{ :foo{ /bbb, :bar(ccc|ddd) }/**}`, compiled one
  // level at a time. The sources of the pieces are written in the shape the
  // compiler assembles them, so each level follows from the one below it:
  // a sequence joins its children with the empty separator, which is why the
  // constants keep the `+ ""` the join puts between two children. Only at the
  // end do FooSourceText, ComplexSourceRegrouped and ComplexTextJoined show,
  // by comparing strings character by character, that these assembled shapes
  // spell the written-out source the pattern is expected to compile to.

  const BarSource := "(" + ("(?:" + "ccc|ddd" + ")") + ")"
  const BarAlternationSource := "(?:" + (@"\/bbb" + "|" + BarSource) + ")"
  const FooSource := "(" + BarAlternationSource + ")"
  const BranchSource := FooSource + "" + (@"\/" + "" + ".*")
  const ComplexSource := @"\/aaa" + "" + ("(?:" + BranchSource + ")")

  /** `:bar(ccc|ddd)`: one param slot; the raw pattern opens no group. */
  lemma CompilesBarParam(bar: string)
    ensures CompileNode(Param(bar, Some(RegExp("ccc|ddd"))), Resolve(NoOptions)) == Compiled(BarSource, [ParamSlot(bar)])
  {}

  /** `{ /bbb, :bar(ccc|ddd) }`. */
  lemma CompilesBarAlternation(bar: string)
    ensures CompileNode(Alternation([Text("/bbb"), Param(bar, Some(RegExp("ccc|ddd")))]), Resolve(NoOptions))
      == Compiled(BarAlternationSource, [ParamSlot(bar)])
  {
    CompilesBarParam(bar);
    CompileTwo(Text("/bbb"), Param(bar, Some(RegExp("ccc|ddd"))), Resolve(NoOptions), "|");
  }

  /** `:foo{ /bbb, :bar(ccc|ddd) }`: foo's slot comes before bar's. */
  lemma CompilesFooParam(foo: string, bar: string)
    ensures CompileNode(Param(foo, Some(Alternation([Text("/bbb"), Param(bar, Some(RegExp("ccc|ddd")))]))), Resolve(NoOptions))
      == Compiled(FooSource, [ParamSlot(foo), ParamSlot(bar)])
  {
    CompilesBarAlternation(bar);
  }

  // `:foo{ /bbb, :bar(ccc|ddd) }/**`.
  lemma CompilesComplexBranch(foo: string, bar: string)
    ensures CompileNode(
      Sequence([Param(foo, Some(Alternation([Text("/bbb"), Param(bar, Some(RegExp("ccc|ddd")))]))), Text("/"), Wildcard(true)]),
      Resolve(NoOptions))
      == Compiled(BranchSource, [ParamSlot(foo), ParamSlot(bar)])
  {
    CompilesFooParam(foo, bar);
    CompileThree(
      Param(foo, Some(Alternation([Text("/bbb"), Param(bar, Some(RegExp("ccc|ddd")))]))), Text("/"), Wildcard(true),
      Resolve(NoOptions), "");
  }

  /** The whole complex pattern, before the leading `^`. */
  lemma CompilesComplexPattern(foo: string, bar: string)
    ensures CompileNode(
      Sequence([
        Text("/aaa"),
        Alternation([
          Sequence([Param(foo, Some(Alternation([Text("/bbb"), Param(bar, Some(RegExp("ccc|ddd")))]))), Text("/"), Wildcard(true)])])]),
      Resolve(NoOptions))
      == Compiled(ComplexSource, [ParamSlot(foo), ParamSlot(bar)])
  {
    CompilesComplexBranch(foo, bar);
    CompileTwo(
      Text("/aaa"),
      Alternation([Sequence([Param(foo, Some(Alternation([Text("/bbb"), Param(bar, Some(RegExp("ccc|ddd")))]))), Text("/"), Wildcard(true)])]),
      Resolve(NoOptions), "");
  }

  /** The param `foo` of the complex pattern, written out. */
  const FooText := @"((?:\/bbb|((?:ccc|ddd))))"

  lemma FooSourceText()
    ensures FooSource == FooText
  {}

  /** The anchored complex source, regrouped around `FooText`. */
  lemma ComplexSourceRegrouped()
    ensures "^" + ComplexSource == @"^\/aaa(?:" + FooText + @"\/.*)"
  {
    FooSourceText();
    assert ComplexSource == @"\/aaa" + "" + ("(?:" + (FooText + "" + (@"\/" + "" + ".*")) + ")");
  }

  /** The regrouped source, written out. */
  lemma ComplexTextJoined()
    ensures @"^\/aaa(?:" + FooText + @"\/.*)" == @"^\/aaa(?:((?:\/bbb|((?:ccc|ddd))))\/.*)"
  {}

  // `/aaa{ :foo{ /bbb, :bar(ccc|ddd) }/**}` compiles to
  // `^\/aaa(?:((?:\/bbb|((?:ccc|ddd))))\/.*)`, with foo in slot 1 and bar in
  // slot 2, whatever the two params are called.
  lemma ConvertsComplexPattern(foo: string, bar: string)
    ensures ConvertNodeToRegExp(
      Sequence([
        Text("/aaa"),
        Alternation([
          Sequence([
            Param(foo, Some(Alternation([Text("/bbb"), Param(bar, Some(RegExp("ccc|ddd")))]))),
            Text("/"),
            Wildcard(true)])])]),
      NoOptions)
      == RegExpSpec(@"^\/aaa(?:((?:\/bbb|((?:ccc|ddd))))\/.*)", true, [ParamSlot(foo), ParamSlot(bar)])
  {
    CompilesComplexPattern(foo, bar);
    ComplexSourceRegrouped();
    ComplexTextJoined();
  }

  /** `/ABC` is case-insensitive by default. */
  lemma ConvertsCaseInsensitiveByDefault()
    ensures ConvertNodeToRegExp(Text("/ABC"), NoOptions).ignoreCase
  {}

  /** `/ABC` with `caseSensitive: true` is case-sensitive. */
  lemma ConvertsCaseSensitive()
    ensures !ConvertNodeToRegExp(Text("/ABC"), Options(None, None, None, None, Some(true))).ignoreCase
  {}

  /** `/foo/bar` with `pathSeparatorPattern: '\\'` compiles to `^\\foo\\bar`. */
  lemma ConvertsCustomSeparator()
    ensures ConvertNodeToRegExp(Text("/foo/bar"), Options(None, None, None, Some(@"\\"), None)).source
      == @"^\\foo\\bar"
  {
    EscapesTwoSegments(@"\\");
  }

  /** `/foo/bar` escapes to the separator pattern, `foo`, the separator pattern again, and `bar`. */
  lemma EscapesTwoSegments(separator: string)
    ensures EscapeText("/foo/bar", separator) == separator + "foo" + (separator + "bar")
  {
    assert "/foo/bar" == "/foo" + "/bar";
    assert "/foo" == "/" + "foo";
    assert "/bar" == "/" + "bar";
    EscapeTextAppend("/foo", "/bar", separator);
    EscapeSeparatorThenPlain("foo", separator);
    EscapeSeparatorThenPlain("bar", separator);
  }

  /** `*` with `wildcardPattern: 'abc'` compiles to `^abc`. */
  lemma ConvertsCustomWildcard()
    ensures ConvertNodeToRegExp(Wildcard(false), Options(None, Some("abc"), None, None, None)).source == "^abc"
  {}

  /** `**` with `greedyWildcardPattern: 'abc'` compiles to `^abc`. */
  lemma ConvertsCustomGreedyWildcard()
    ensures ConvertNodeToRegExp(Wildcard(true), Options(None, None, Some("abc"), None, None)).source == "^abc"
  {}
}
