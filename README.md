# convertNodeToRegExp, modelled in Dafny

This project models `convertNodeToRegExp` from the pattern-parser package of
async-router. A route pattern such as `/aaa{ :foo{ /bbb, :bar(ccc|ddd) }/**}`
is parsed into a tree of nodes:

- sequence;
- text;
- wildcard `*` or greedy wildcard `**`;
- param `:name`, with an optional constraint;
- alternation `{ … }`;
- raw regex group `( … )`.

`convertNodeToRegExp` turns that tree into three things:

- a regular expression anchored with `^`;
- its case flag;
- a table saying which param, if any, owns each capture slot.

The expression's patched `exec` then merges the engine's positional captures and
native named groups into one name-to-value map.

The project is split by concern:

- `pattern_ast.dfy` (module `PatternAst`): the tree, the param names of a tree
  in document order, and well-formedness of raw regex content.
- `regex_syntax.dfy` (module `RegexSyntax`): a lexical scanner for regex
  source. It counts capturing groups the way an ECMAScript engine numbers them.
  It ignores escaped `(` and `(` inside character classes, skips `(?:` and the
  lookarounds, and counts `(?<name>`. The scanner is a finite-state transducer,
  so counting distributes over concatenation. It also records the offset at
  which each capturing group opens, and reads escaped source back as a plain
  literal.
- `compiler.dfy` (module `Compiler`): the options and their defaults, text
  escaping, and the recursive compiler. It proves that the group table lines
  up with the engine's capture numbering slot by slot: table index k is the
  slot of the param `name` exactly when capture k + 1 opens at the `(` written
  for that param, and a native slot exactly when it opens inside raw regex
  content. It also
  proves that the table lists the params in document order, and that escaped
  text reads back as the original literal.
- `matcher.dfy` (module `Matcher`): the group merge, as a loop over the table
  (`MergeGroups`) proved against a fold (`MergeUpTo`), and the patched `exec`
  over a given engine result. It proves the precedence laws: native names win,
  and among params of the same name the earliest defined capture wins.
- `convert_cases.dfy` and `matcher_cases.dfy`: each documented input/output
  pair of the package's test suite, stated as a lemma about the model.
- `wrappers.dfy`: the `Option` datatype.

The compile rules, as fixed by the expected outputs:

- A param becomes `(` + body + `)`. The body is the unconstrained pattern or
  the compiled constraint. The param's slot comes before the slots of its
  constraint.
- A text is escaped character by character. A metacharacter becomes `\c`, and
  `/` becomes the path-separator pattern.
- A wildcard becomes the wildcard pattern, and a greedy wildcard the greedy
  one.
- An alternation becomes `(?:b1|b2|…)`.
- A raw group's content is wrapped in `(?:` … `)`. Each capturing group inside
  it opens a native slot.
- A sequence joins its children.

The defaults are:

| option | default |
|---|---|
| unconstrained param pattern | `[^/]*` |
| wildcard pattern | `[^/]*` |
| greedy wildcard pattern | `.*` |
| path separator pattern | `\/` |
| case | case-insensitive |

## Model

| member | source | states |
|---|---|---|
| Compiler.ConvertNodeToRegExp | packages/pattern-parser/src/test/convertNodeToRegExp.test.ts:92-105 | the source always starts with `^`; the expression ignores case exactly when `caseSensitive` is not set to true |
| Compiler.ResolveValid | packages/pattern-parser/src/test/convertNodeToRegExp.test.ts:5-7 | the default patterns are closed, group-free pieces of regex, so options that supply only such patterns give a valid configuration |
| Compiler.CompiledGroupsAlign | packages/pattern-parser/src/test/convertNodeToRegExp.test.ts:37-39 | for every well-formed tree, the compiled source opens exactly as many capturing groups as the table has slots (a count), ends with nothing pending and does not begin with `?` |
| Compiler.AllCompiledGroupsAlign | packages/pattern-parser/src/test/convertNodeToRegExp.test.ts:37-39 | the same count for a list of nodes joined by a group-free separator (sequence children, alternation branches) |
| Compiler.ConvertedGroupsAlign | packages/pattern-parser/src/test/convertNodeToRegExp.test.ts:37-39 | the anchored expression's capturing-group count equals its table length, for every well-formed tree and valid options |
| Compiler.CompiledSlotsMatch | packages/pattern-parser/src/test/convertNodeToRegExp.test.ts:37-39 | for every well-formed tree, the k-th capturing group of the compiled source opens at the `(` written for the param `name` when slot k is `name`'s param slot, and inside the content of a raw regex group when slot k is native; the origins are read off the tree independently of the compiler's output |
| Compiler.AllCompiledSlotsMatch | packages/pattern-parser/src/test/convertNodeToRegExp.test.ts:37-39 | the same slot-by-slot agreement for a list of nodes joined by a group-free separator |
| Compiler.ConvertedSlotsMatch | packages/pattern-parser/src/test/convertNodeToRegExp.test.ts:119-129 | in the anchored expression, table index k is the param slot of `name` exactly when the engine's capture k + 1 opens at the `(` written for the param `name`, and a native slot exactly when it opens inside raw regex content; the anchor is written by the compiler |
| Compiler.SlotsMatchAppend | packages/pattern-parser/src/test/convertNodeToRegExp.test.ts:37-39 | after a closed piece, the slots and character origins of two joined pieces line up side by side |
| Compiler.SlotsMatchCapturing | packages/pattern-parser/src/test/convertNodeToRegExp.test.ts:5-7 | wrapping a matched body in a param's `(` … `)` puts the param's slot, opened at the new `(` whose origin names the param, before the body's slots |
| Compiler.SlotsMatchRaw | packages/pattern-parser/src/test/convertNodeToRegExp.test.ts:37-39 | the raw content of a `( … )` group, wrapped in `(?:` … `)`, has only native slots, one per capturing group it opens, each opening inside the raw content |
| Compiler.CompiledParamOrder | packages/pattern-parser/src/test/convertNodeToRegExp.test.ts:77-83 | each param contributes exactly one slot, and the param slots list the params in document order, nested constraints included |
| Compiler.AllCompiledParamOrder | packages/pattern-parser/src/test/convertNodeToRegExp.test.ts:77-83 | the same for a list of nodes: the slots follow the nodes left to right |
| Compiler.ConvertedParamOrder | packages/pattern-parser/src/test/convertNodeToRegExp.test.ts:161-165 | the converted expression's param slots are the tree's params in document order |
| Compiler.EscapeRoundTrip | packages/pattern-parser/src/test/convertNodeToRegExp.test.ts:45-47 | with the default separator, the escaped source reads back, under the ECMAScript syntax characters and with no unescaped syntax character allowed, as exactly the original text |
| Compiler.EscapeCharReads | packages/pattern-parser/src/test/convertNodeToRegExp.test.ts:45-47 | every character other than `/` escapes to source that reads back as that one character |
| Compiler.MetaIsSyntax | packages/pattern-parser/src/test/convertNodeToRegExp.test.ts:45-47 | the escape set is exactly the ECMAScript syntax-character set `^ $ \ . * + ? ( ) [ ] { } \|` |
| Compiler.EscapeTextAppend | packages/pattern-parser/src/test/convertNodeToRegExp.test.ts:41-47 | escaping works character by character, so escaping a concatenation is concatenating the escapes |
| Compiler.EscapePlainText | packages/pattern-parser/src/test/convertNodeToRegExp.test.ts:41-43 | text with no metacharacter and no `/` is emitted unchanged |
| Compiler.EscapeSeparatorThenPlain | packages/pattern-parser/src/test/convertNodeToRegExp.test.ts:65-67 | `/` followed by plain text becomes the separator pattern followed by that text |
| Compiler.EscapeSingle | packages/pattern-parser/src/test/convertNodeToRegExp.test.ts:45-47 | a one-character text escapes to that character's escape |
| Compiler.EscapeIsFragment | packages/pattern-parser/src/test/convertNodeToRegExp.test.ts:45-47 | escaped text opens no capturing group, leaves nothing pending and does not begin with `?`, whatever characters it holds |
| RegexSyntax.Step | packages/pattern-parser/src/test/convertNodeToRegExp.test.ts:37-39 | a character confirms a capturing group exactly when it follows an unescaped `(` and is not `?`, or follows `(?<` and is not `=` or `!` |
| RegexSyntax.ParenInClassOpensNothing | packages/pattern-parser/src/test/convertNodeToRegExp.test.ts:37-39 | `[(]` holds no capturing group: a `(` inside a character class is an ordinary character |
| RegexSyntax.EscapedParenOpensNothing | packages/pattern-parser/src/test/convertNodeToRegExp.test.ts:37-39 | `\(` holds no capturing group |
| RegexSyntax.LookaheadOpensNothing | packages/pattern-parser/src/test/convertNodeToRegExp.test.ts:37-39 | the lookahead `(?=b)` holds no capturing group |
| RegexSyntax.LookbehindOpensNothing | packages/pattern-parser/src/test/convertNodeToRegExp.test.ts:37-39 | the negative lookbehind `(?<!c)` holds no capturing group |
| RegexSyntax.NamedAndPlainGroupsCapture | packages/pattern-parser/src/test/convertNodeToRegExp.test.ts:119-123 | `(?<n>d)(e)` holds two capturing groups: a named group is numbered like a plain one |
| RegexSyntax.ScanAppend | packages/pattern-parser/src/test/convertNodeToRegExp.test.ts:37-39 | scanning a concatenation is scanning the left part and then the right part from where the left ended |
| RegexSyntax.ClosedAppend | packages/pattern-parser/src/test/convertNodeToRegExp.test.ts:37-39 | joining two closed pieces adds their group counts and stays closed |
| RegexSyntax.CapturingWrap | packages/pattern-parser/src/test/convertNodeToRegExp.test.ts:25-27 | wrapping a closed piece that does not begin with `?` in `(` … `)` adds exactly one capturing group |
| RegexSyntax.CaptureOpensParens | packages/pattern-parser/src/test/convertNodeToRegExp.test.ts:37-39 | every recorded group offset lies inside the source and holds `(` |
| RegexSyntax.OpensAppend | packages/pattern-parser/src/test/convertNodeToRegExp.test.ts:37-39 | after a closed piece, the group offsets of a concatenation are the left piece's followed by the right piece's shifted by its length |
| RegexSyntax.OpensCapturingWrap | packages/pattern-parser/src/test/convertNodeToRegExp.test.ts:25-27 | wrapping a closed piece that does not begin with `?` in `(` … `)` opens a group at offset 0 and shifts the piece's groups by one |
| RegexSyntax.OpensNonCapturingWrap | packages/pattern-parser/src/test/convertNodeToRegExp.test.ts:37-39 | wrapping a piece in `(?:` … `)` opens no new group and shifts the piece's groups by three |
| RegexSyntax.NonCapturingWrap | packages/pattern-parser/src/test/convertNodeToRegExp.test.ts:37-39 | wrapping a closed piece in `(?:` … `)` adds no capturing group |
| Matcher.MergeUpTo | packages/pattern-parser/src/test/convertNodeToRegExp.test.ts:119-135 | folding the first slots over the native groups keeps every native group as it is, and every other name it adds carries a defined capture |
| Matcher.MergeGroups | packages/pattern-parser/src/test/convertNodeToRegExp.test.ts:119-129 | walking the table in ascending order from the native groups and adding each defined param capture whose name is not yet present yields the merged map |
| Matcher.MergeKeys | packages/pattern-parser/src/test/convertNodeToRegExp.test.ts:119-123 | a name is in the merged map exactly when it is a native group or names a param with a defined capture |
| Matcher.NativeGroupsWin | packages/pattern-parser/src/test/convertNodeToRegExp.test.ts:125-129 | a native named group keeps its own value whatever params share its name |
| Matcher.EarliestParamWins | packages/pattern-parser/src/test/convertNodeToRegExp.test.ts:161-165 | with no native group of that name, a name maps to the capture of the leftmost param of that name whose capture is defined |
| Matcher.EarliestExists | packages/pattern-parser/src/test/convertNodeToRegExp.test.ts:161-165 | every name with a defined param capture has a leftmost such param |
| Matcher.LaterDuplicateLoses | packages/pattern-parser/src/test/convertNodeToRegExp.test.ts:161-165 | when two params of one name both capture, the merged value is the capture of a param no later than the first of them |
| Matcher.Exec | packages/pattern-parser/src/test/convertNodeToRegExp.test.ts:77-83 | no match stays no match; a match keeps the engine's captures and carries the merged groups |
| ConvertCases.ConvertsParam | packages/pattern-parser/src/test/convertNodeToRegExp.test.ts:5-7 | `:foo` gives `^([^/]*)`, case-insensitive, with one slot for `foo` |
| ConvertCases.ConvertsParamWithCustomPattern | packages/pattern-parser/src/test/convertNodeToRegExp.test.ts:9-11 | `:foo` with unconstrained pattern `abc` gives `^(abc)` |
| ConvertCases.ConvertsParamWithWildcard | packages/pattern-parser/src/test/convertNodeToRegExp.test.ts:13-15 | `:foo *` gives `^([^/]*)` |
| ConvertCases.ConvertsParamWithGreedyWildcard | packages/pattern-parser/src/test/convertNodeToRegExp.test.ts:17-19 | `:foo **` gives `^(.*)` |
| ConvertCases.ConvertsParamWithText | packages/pattern-parser/src/test/convertNodeToRegExp.test.ts:21-23 | `:foo"bar"` gives `^(bar)` |
| ConvertCases.ConvertsParamWithRegExp | packages/pattern-parser/src/test/convertNodeToRegExp.test.ts:25-27 | `:foo(\d+)` gives `^((?:\d+))` |
| ConvertCases.ConvertsParamWithAlternation | packages/pattern-parser/src/test/convertNodeToRegExp.test.ts:29-31 | `:foo { foo, bar }` gives `^((?:foo|bar))` |
| ConvertCases.ConvertsParamWithEmptyAlternation | packages/pattern-parser/src/test/convertNodeToRegExp.test.ts:33-35 | `:foo{}` gives `^((?:))` |
| ConvertCases.ConvertsParamsAfterRawGroup | packages/pattern-parser/src/test/convertNodeToRegExp.test.ts:37-39 | `(([abc]))/:foo(\d+)` gives `^(?:([abc]))\/((?:\d+))`, where the raw group's inner capture takes slot 1 and `foo` takes slot 2 |
| ConvertCases.CompilesRawGroupThenParam | packages/pattern-parser/src/test/convertNodeToRegExp.test.ts:37-39 | `(([abc]))/:foo(\d+)` before the anchor joins the raw group, the separator and the param in order, with the native slot before `foo`'s |
| ConvertCases.CompilesCapturingRawGroup | packages/pattern-parser/src/test/convertNodeToRegExp.test.ts:37-39 | the raw group `([abc])` becomes `(?:([abc]))` with one native slot |
| ConvertCases.CompilesDigitsParam | packages/pattern-parser/src/test/convertNodeToRegExp.test.ts:37-39 | `:foo(\d+)` becomes `((?:\d+))` with one slot for `foo` |
| ConvertCases.ConvertsText | packages/pattern-parser/src/test/convertNodeToRegExp.test.ts:41-43 | `foo` gives `^foo` |
| ConvertCases.ConvertsTextWithMetacharacters | packages/pattern-parser/src/test/convertNodeToRegExp.test.ts:45-47 | `$fo[o]` gives `^\$fo\[o\]` |
| ConvertCases.ConvertsWildcard | packages/pattern-parser/src/test/convertNodeToRegExp.test.ts:49-51 | `*` gives `^[^/]*` with no slot |
| ConvertCases.ConvertsGreedyWildcard | packages/pattern-parser/src/test/convertNodeToRegExp.test.ts:53-55 | `**` gives `^.*` with no slot |
| ConvertCases.ConvertsGreedyWildcardInAlternation | packages/pattern-parser/src/test/convertNodeToRegExp.test.ts:57-59 | `{**}` gives `^(?:.*)` |
| ConvertCases.ConvertsAlternation | packages/pattern-parser/src/test/convertNodeToRegExp.test.ts:61-63 | `{foo,bar}` gives `^(?:foo|bar)` |
| ConvertCases.ConvertsAlternationAfterSeparator | packages/pattern-parser/src/test/convertNodeToRegExp.test.ts:65-67 | `/{foo,bar}` gives `^\/(?:foo|bar)` |
| ConvertCases.ConvertsAlternationWithSeparatorInBranch | packages/pattern-parser/src/test/convertNodeToRegExp.test.ts:69-71 | `{ /foo, bar }` gives `^(?:\/foo|bar)` |
| ConvertCases.ConvertsComplexPattern | packages/pattern-parser/src/test/convertNodeToRegExp.test.ts:73-75 | `/aaa{ :foo{ /bbb, :bar(ccc|ddd) }/**}` gives `^\/aaa(?:((?:\/bbb|((?:ccc|ddd))))\/.*)`, case-insensitive, with `foo` in slot 1 and `bar` in slot 2, for any two param names |
| ConvertCases.CompilesBarParam | packages/pattern-parser/src/test/convertNodeToRegExp.test.ts:73-75 | `:bar(ccc|ddd)` becomes `((?:ccc|ddd))` with one slot |
| ConvertCases.CompilesBarAlternation | packages/pattern-parser/src/test/convertNodeToRegExp.test.ts:73-75 | `{ /bbb, :bar(ccc|ddd) }` becomes `(?:\/bbb|((?:ccc|ddd)))` with `bar`'s slot |
| ConvertCases.CompilesFooParam | packages/pattern-parser/src/test/convertNodeToRegExp.test.ts:73-75 | `:foo{ /bbb, :bar(ccc|ddd) }` puts `foo`'s slot before `bar`'s |
| ConvertCases.CompilesComplexBranch | packages/pattern-parser/src/test/convertNodeToRegExp.test.ts:73-75 | the branch `:foo{…}/**` appends `\/.*` and adds no slot |
| ConvertCases.CompilesComplexPattern | packages/pattern-parser/src/test/convertNodeToRegExp.test.ts:73-75 | the whole pattern before the anchor: `\/aaa` followed by the branch wrapped in `(?:` … `)` |
| ConvertCases.ConvertsCaseInsensitiveByDefault | packages/pattern-parser/src/test/convertNodeToRegExp.test.ts:92-95 | with no options the expression ignores case |
| ConvertCases.ConvertsCaseSensitive | packages/pattern-parser/src/test/convertNodeToRegExp.test.ts:100-101 | with `caseSensitive: true` the expression does not ignore case |
| ConvertCases.ConvertsCustomSeparator | packages/pattern-parser/src/test/convertNodeToRegExp.test.ts:107-109 | `/foo/bar` with separator pattern `\\` gives `^\\foo\\bar` |
| ConvertCases.EscapesTwoSegments | packages/pattern-parser/src/test/convertNodeToRegExp.test.ts:107-109 | `/foo/bar` escapes to separator, `foo`, separator, `bar`, for any separator pattern |
| ConvertCases.ConvertsCustomWildcard | packages/pattern-parser/src/test/convertNodeToRegExp.test.ts:111-113 | `*` with wildcard pattern `abc` gives `^abc` |
| ConvertCases.ConvertsCustomGreedyWildcard | packages/pattern-parser/src/test/convertNodeToRegExp.test.ts:115-117 | `**` with greedy wildcard pattern `abc` gives `^abc` |
| MatcherCases.MergesNestedParams | packages/pattern-parser/src/test/convertNodeToRegExp.test.ts:77-83 | `/:foo{:bar,aaa}` has slots `foo`, `bar`, and on `/abc` both names map to `abc` |
| MatcherCases.MergesNativeGroupsAndParams | packages/pattern-parser/src/test/convertNodeToRegExp.test.ts:119-123 | `/:foo/((?<bar>\w+))` on `/abc/123` merges to `{foo: abc, bar: 123}` |
| MatcherCases.CompilesParamThenNamedGroup | packages/pattern-parser/src/test/convertNodeToRegExp.test.ts:119-121 | `/:foo/((?<bar>\w+))` has a slot for `foo` and then one native slot |
| MatcherCases.NativeGroupNotOverwritten | packages/pattern-parser/src/test/convertNodeToRegExp.test.ts:125-129 | `/:foo/((?<foo>\w+))` has a slot for `foo` and then a native slot; with the native group `foo` of `123`, the param `foo` capturing `abc` leaves `{foo: 123}` |
| MatcherCases.MergesProtoParam | packages/pattern-parser/src/test/convertNodeToRegExp.test.ts:131-135 | `/:__proto__` has one slot named `__proto__`, which merges as an ordinary key |
| MatcherCases.MergesEmptyCapture | packages/pattern-parser/src/test/convertNodeToRegExp.test.ts:149-153 | `/:foo:bar` has slots `foo`, `bar`; an empty capture is defined and is kept: `{foo: 123abc, bar: ''}` |
| MatcherCases.FirstDuplicateWins | packages/pattern-parser/src/test/convertNodeToRegExp.test.ts:161-165 | `/:foo/:foo` has two slots named `foo`, and on `/123/abc` merges to `{foo: 123}` |

## Left out

- The implementation file (`packages/pattern-parser/src/main`) is not part of
  this model. The compile rules are the ones fixed by the test suite's
  expected outputs, so a behaviour the suite does not pin down is a modelling
  choice. The main such choice is the escape set:
  `\ ^ $ . * + ? ( ) [ ] { } |`.
- `parsePattern`, the text parser, is not part of this model. Each case lemma
  states the tree its pattern denotes, so whitespace trimming of alternation
  branches and the parser's errors are not modelled.
- Matching by the regular-expression engine is left out. That covers
  backtracking, case folding, `String.match`, and how adjacent params split
  the input (test lines 85-90, 96-97, 103-104, 137-159). The merge and `exec`
  take the engine's positional captures and native named groups as inputs.
- The RegExp object is reduced to its source, its case flag and the group
  table. Equality of RegExp instances and the mechanics of replacing `exec` on
  the object are not modelled.
- Compiler.ConvertNodeToRegExp: `caseSensitive` is an optional boolean, so
  JavaScript truthiness of other values is not modelled.
- RegexSyntax.Step: the scanner knows escapes, character classes, `(?:`, the
  lookarounds and named groups. It does not validate the expression, so
  well-formedness is stated as "closed" (nothing pending at the end). It is
  not the engine's full syntax check.
- Compiler.ConvertedGroupsAlign and Compiler.ConvertedSlotsMatch: hold only
  for option patterns that are closed and group-free. The source's behaviour
  with a custom pattern that contains capturing groups is not stated.
- Compiler.EscapeRoundTrip: stated for the default separator `\/` only; a
  custom separator pattern is a piece of regex, not a literal, so it does not
  read back as `/`.
- `Resolve`, `CompileNode`, `CompileFrom` and `EscapeText` are functions
  without postconditions of their own. What they promise for all inputs is
  stated by lemmas: Compiler.ResolveValid for `Resolve`;
  Compiler.CompiledSlotsMatch, Compiler.AllCompiledSlotsMatch,
  Compiler.CompiledParamOrder and Compiler.AllCompiledParamOrder for
  `CompileNode` and `CompileFrom`; Compiler.EscapeRoundTrip for `EscapeText`.
- The Jest test scaffolding (`describe`, `test`, `expect`) is not modelled.
