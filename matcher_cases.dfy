/**
 * The groups the patched `exec` reports for concrete patterns. The engine's
 * captures are given as the regex engine produces them for the subject in
 * question (index 0 is the whole match); the group table is the one the
 * compiler builds for the pattern's tree.
 */
module MatcherCases {
  import opened Wrappers
  import opened PatternAst
  import opened Compiler
  import opened Matcher

  /** `/:foo{:bar,aaa}` on `/abc`: the param and the param nested in its constraint both get `abc`. */
  lemma MergesNestedParams()
    ensures var re := ConvertNodeToRegExp(
      Sequence([Text("/"), Param("foo", Some(Alternation([Param("bar", None), Text("aaa")])))]), NoOptions);
      && re.groups == [ParamSlot("foo"), ParamSlot("bar")]
      && MergedGroups(re.groups, [Some("/abc"), Some("abc"), Some("abc")], map[])
         == map["foo" := Some("abc"), "bar" := Some("abc")]
  {}

  /** `/:foo/((?<bar>\w+))` on `/abc/123`: the native group `bar` and the param `foo` sit side by side. */
  lemma MergesNativeGroupsAndParams()
    ensures var re := ConvertNodeToRegExp(
      Sequence([Text("/"), Param("foo", None), Text("/"), RegExp(@"(?<bar>\w+)")]), NoOptions);
      && re.groups == [ParamSlot("foo"), NativeSlot]
      && MergedGroups(re.groups, [Some("/abc/123"), Some("abc"), Some("123")], map["bar" := Some("123")])
         == map["foo" := Some("abc"), "bar" := Some("123")]
  {
    CompilesParamThenNamedGroup();
    var table, captures: seq<Option<string>> := [ParamSlot("foo"), NativeSlot], [Some("/abc/123"), Some("abc"), Some("123")];
    assert MergeUpTo(table, captures, map["bar" := Some("123")], 1) == map["bar" := Some("123"), "foo" := Some("abc")];
  }

  /** `/:foo/((?<bar>\w+))` opens a param slot for `foo`, then one native slot for `bar`. */
  lemma CompilesParamThenNamedGroup()
    ensures ConvertNodeToRegExp(Sequence([Text("/"), Param("foo", None), Text("/"), RegExp(@"(?<bar>\w+)")]), NoOptions).groups
      == [ParamSlot("foo"), NativeSlot]
  {
    assert RegexSyntax.CaptureCount(@"(?<bar>\w+)") == 1;
  }

  /** `/:foo/((?<foo>\w+))` on `/abc/123`: the native group `foo` keeps `123`. */
  lemma NativeGroupNotOverwritten()
    ensures var re := ConvertNodeToRegExp(
      Sequence([Text("/"), Param("foo", None), Text("/"), RegExp(@"(?<foo>\w+)")]), NoOptions);
      && re.groups == [ParamSlot("foo"), NativeSlot]
      && MergedGroups(re.groups, [Some("/abc/123"), Some("abc"), Some("123")], map["foo" := Some("123")])
         == map["foo" := Some("123")]
  {
    assert RegexSyntax.CaptureCount(@"(?<foo>\w+)") == 1;
    var table, captures: seq<Option<string>> := [ParamSlot("foo"), NativeSlot], [Some("/abc/123"), Some("abc"), Some("123")];
    assert MergeUpTo(table, captures, map["foo" := Some("123")], 1) == map["foo" := Some("123")];
  }

  /** `/:__proto__` on `/abc`: any name is an ordinary key. */
  lemma MergesProtoParam()
    ensures var re := ConvertNodeToRegExp(Sequence([Text("/"), Param("__proto__", None)]), NoOptions);
      && re.groups == [ParamSlot("__proto__")]
      && MergedGroups(re.groups, [Some("/abc"), Some("abc")], map[]) == map["__proto__" := Some("abc")]
  {
    var table, captures: seq<Option<string>> := [ParamSlot("__proto__")], [Some("/abc"), Some("abc")];
    assert MergeUpTo(table, captures, map[], 0) == map[];
  }

  /** `/:foo:bar` on `/123abc`: the first param takes everything and the second captures the empty string, which still counts. */
  lemma MergesEmptyCapture()
    ensures var re := ConvertNodeToRegExp(Sequence([Text("/"), Param("foo", None), Param("bar", None)]), NoOptions);
      && re.groups == [ParamSlot("foo"), ParamSlot("bar")]
      && MergedGroups(re.groups, [Some("/123abc"), Some("123abc"), Some("")], map[])
         == map["foo" := Some("123abc"), "bar" := Some("")]
  {
    var table, captures: seq<Option<string>> := [ParamSlot("foo"), ParamSlot("bar")], [Some("/123abc"), Some("123abc"), Some("")];
    assert MergeUpTo(table, captures, map[], 1) == map["foo" := Some("123abc")];
  }

  /** `/:foo/:foo` on `/123/abc`: the first `foo` wins. */
  lemma FirstDuplicateWins()
    ensures var re := ConvertNodeToRegExp(Sequence([Text("/"), Param("foo", None), Text("/"), Param("foo", None)]), NoOptions);
      && re.groups == [ParamSlot("foo"), ParamSlot("foo")]
      && MergedGroups(re.groups, [Some("/123/abc"), Some("123"), Some("abc")], map[]) == map["foo" := Some("123")]
  {}
}
