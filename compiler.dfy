/**
 * `convertNodeToRegExp`: turns a pattern tree into the source of a regular
 * expression anchored with `^`, its case flag, and the group table that says,
 * for capture slot i + 1 of the engine, which param (if any) opened it.
 */
module Compiler {
  import opened Wrappers
  import opened RegexSyntax
  import opened PatternAst

  /** One capturing group of the compiled expression: a param's own group, or a group written in raw regex content. */
  datatype Slot = ParamSlot(name: string) | NativeSlot

  /** The caller's options; an absent one takes its default. */
  datatype Options = Options(
    unconstrainedParamPattern: Option<string>,
    wildcardPattern: Option<string>,
    greedyWildcardPattern: Option<string>,
    pathSeparatorPattern: Option<string>,
    caseSensitive: Option<bool>)

  const NoOptions := Options(None, None, None, None, None)

  const DefaultParamPattern := "[^/]*"
  const DefaultWildcardPattern := "[^/]*"
  const DefaultGreedyWildcardPattern := ".*"
  const DefaultPathSeparatorPattern := @"\/"

  /** The options with every default filled in. */
  datatype Config = Config(
    unconstrainedParamPattern: string,
    wildcardPattern: string,
    greedyWildcardPattern: string,
    pathSeparatorPattern: string,
    caseSensitive: bool)

  function Resolve(options: Options): Config {
    Config(
      GetOr(options.unconstrainedParamPattern, DefaultParamPattern),
      GetOr(options.wildcardPattern, DefaultWildcardPattern),
      GetOr(options.greedyWildcardPattern, DefaultGreedyWildcardPattern),
      GetOr(options.pathSeparatorPattern, DefaultPathSeparatorPattern),
      GetOr(options.caseSensitive, false))
  }

  function GetOr<T>(o: Option<T>, default: T): T {
    match o case Some(v) => v case None => default
  }

  /** Every pattern in the configuration is a group-free, closed piece of regex. */
  predicate ValidConfig(cfg: Config) {
    && Fragment(cfg.unconstrainedParamPattern)
    && Fragment(cfg.wildcardPattern)
    && Fragment(cfg.greedyWildcardPattern)
    && Fragment(cfg.pathSeparatorPattern)
  }

  predicate ValidOptions(options: Options) {
    && (options.unconstrainedParamPattern.Some? ==> Fragment(options.unconstrainedParamPattern.value))
    && (options.wildcardPattern.Some? ==> Fragment(options.wildcardPattern.value))
    && (options.greedyWildcardPattern.Some? ==> Fragment(options.greedyWildcardPattern.value))
    && (options.pathSeparatorPattern.Some? ==> Fragment(options.pathSeparatorPattern.value))
  }

  /** The default patterns are valid, so options that set no pattern resolve to a valid configuration. */
  lemma ResolveValid(options: Options)
    requires ValidOptions(options)
    ensures ValidConfig(Resolve(options))
  {
    assert Fragment(DefaultParamPattern) by {
      assert DefaultParamPattern == ['['] + ['^'] + ['/'] + [']'] + ['*'];
    }
    assert Fragment(DefaultGreedyWildcardPattern);
    assert Fragment(DefaultPathSeparatorPattern);
  }

  // ---------------------------------------------------------------------
  // Text escaping

  /** The regular-expression metacharacters that a literal must escape. */
  predicate IsMeta(c: char) {
    || c == '\\' || c == '^' || c == '$' || c == '.' || c == '*' || c == '+' || c == '?'
    || c == '(' || c == ')' || c == '[' || c == ']' || c == '{' || c == '}' || c == '|'
  }

  /** One literal character as regex source: the separator pattern for `/`, `\c` for a metacharacter, `c` otherwise. */
  function EscapeChar(c: char, separator: string): (r: string)
  {
    if c == '/' then separator
    else if IsMeta(c) then ['\\', c]
    else [c]
  }

  /** Escapes the characters of `text` from position `i` on. */
  function EscapeFrom(text: string, i: nat, separator: string): string
    requires i <= |text|
    decreases |text| - i
  {
    if i == |text| then [] else EscapeChar(text[i], separator) + EscapeFrom(text, i + 1, separator)
  }

  /** A literal text as regex source: each character escaped in turn. */
  function EscapeText(text: string, separator: string): string {
    EscapeFrom(text, 0, separator)
  }

  /** Escaping the part of `p + s` that lies in `s` is escaping `s` itself. */
  lemma {:induction false} EscapeFromShift(p: string, s: string, j: nat, separator: string)
    requires j <= |s|
    ensures EscapeFrom(p + s, |p| + j, separator) == EscapeFrom(s, j, separator)
    decreases |s| - j
  {
    if j < |s| {
      assert (p + s)[|p| + j] == s[j];
      EscapeFromShift(p, s, j + 1, separator);
    }
  }

  /** A non-empty text escapes to its first character's escape followed by the rest's. */
  lemma EscapeFirst(text: string, separator: string)
    requires text != []
    ensures EscapeText(text, separator) == EscapeChar(text[0], separator) + EscapeText(text[1..], separator)
  {
    assert text == [text[0]] + text[1..];
    EscapeFromShift([text[0]], text[1..], 0, separator);
  }

  /** A character other than `/` escapes to source that reads back as exactly that character. */
  lemma EscapeCharReads(c: char, separator: string)
    requires c != '/'
    ensures ReadLiteral(EscapeChar(c, separator)) == Some([c])
  {
    MetaIsSyntax(c);
    var s := EscapeChar(c, separator);
    assert [c] + [] == [c];
    if IsMeta(c) {
      assert s[0] == '\\' && s[1] == c && s[2..] == [];
      assert ReadLiteral(s[2..]) == Some([]);
    } else {
      assert s[0] == c && s[1..] == [];
      assert ReadLiteral(s[1..]) == Some([]);
    }
  }

  /** The characters the escaper treats as metacharacters are exactly ECMAScript's syntax characters. */
  lemma MetaIsSyntax(c: char)
    ensures IsMeta(c) <==> IsSyntaxChar(c)
  {}

  /**
   * With the default separator, escaping loses nothing and leaves nothing
   * active: the escaped source is a plain literal that matches exactly the text.
   */
  lemma {:induction false} EscapeRoundTrip(text: string)
    ensures ReadLiteral(EscapeText(text, DefaultPathSeparatorPattern)) == Some(text)
  {
    if text != [] {
      var c := text[0];
      var rest := EscapeText(text[1..], DefaultPathSeparatorPattern);
      var e := EscapeChar(c, DefaultPathSeparatorPattern);
      EscapeFirst(text, DefaultPathSeparatorPattern);
      EscapeRoundTrip(text[1..]);
      MetaIsSyntax(c);
      if c == '/' || IsMeta(c) {
        assert (e + rest)[0] == '\\' && (e + rest)[1] == c;
        assert (e + rest)[2..] == rest;
      } else {
        assert (e + rest)[0] == c && (e + rest)[1..] == rest;
      }
      assert text == [c] + text[1..];
    }
  }

  /** Escaping works character by character, so it distributes over concatenation. */
  lemma {:induction false} EscapeTextAppend(a: string, b: string, separator: string)
    ensures EscapeText(a + b, separator) == EscapeText(a, separator) + EscapeText(b, separator)
  {
    if a == [] {
      assert a + b == b;
    } else {
      EscapeFirst(a + b, separator);
      EscapeFirst(a, separator);
      assert (a + b)[0] == a[0];
      assert (a + b)[1..] == a[1..] + b;
      EscapeTextAppend(a[1..], b, separator);
    }
  }

  lemma EscapeSingle(c: char, separator: string)
    ensures EscapeText([c], separator) == EscapeChar(c, separator)
  {
    EscapeFirst([c], separator);
    assert [c][1..] == [];
  }

  /** Text with no metacharacter and no `/` is its own regex source. */
  lemma {:induction false} EscapePlainText(text: string, separator: string)
    requires forall k :: 0 <= k < |text| ==> !IsMeta(text[k]) && text[k] != '/'
    ensures EscapeText(text, separator) == text
  {
    if text != [] {
      EscapeFirst(text, separator);
      EscapePlainText(text[1..], separator);
      assert text == [text[0]] + text[1..];
    }
  }

  /** `/` followed by plain text escapes to the separator pattern followed by that text. */
  lemma EscapeSeparatorThenPlain(text: string, separator: string)
    requires forall k :: 0 <= k < |text| ==> !IsMeta(text[k]) && text[k] != '/'
    ensures EscapeText("/" + text, separator) == separator + text
  {
    EscapeSingle('/', separator);
    EscapePlainText(text, separator);
    EscapeTextAppend("/", text, separator);
  }

  /** An escaped literal opens no group, leaves nothing pending and does not begin with `?`. */
  lemma {:induction false} EscapeIsFragment(text: string, separator: string)
    requires Fragment(separator)
    ensures Fragment(EscapeText(text, separator))
  {
    if text != [] {
      var e := EscapeChar(text[0], separator);
      EscapeFirst(text, separator);
      EscapeIsFragment(text[1..], separator);
      assert Fragment(e) by {
        if text[0] != '/' {
          ScanFirst(e, Normal);
          if IsMeta(text[0]) {
            ScanFirst(e[1..], Escaped);
          }
        }
      }
      ClosedAppend(e, EscapeText(text[1..], separator));
    }
  }

  // ---------------------------------------------------------------------
  // Compilation

  /** A compiled node: its regex source and the slots of the groups it opens, left to right. */
  datatype Compiled = Compiled(source: string, groups: seq<Slot>)

  /** The names of the param slots of a group table, in table order. */
  function SlotNames(groups: seq<Slot>): seq<string> {
    if groups == [] then []
    else (if groups[0].ParamSlot? then [groups[0].name] else []) + SlotNames(groups[1..])
  }

  lemma {:induction false} SlotNamesAppend(a: seq<Slot>, b: seq<Slot>)
    ensures SlotNames(a + b) == SlotNames(a) + SlotNames(b)
  {
    if a != [] {
      assert (a + b)[1..] == a[1..] + b;
      SlotNamesAppend(a[1..], b);
    } else {
      assert a + b == b;
    }
  }

  lemma {:induction false} NativeSlotNames(k: nat)
    ensures SlotNames(seq(k, _ => NativeSlot)) == []
  {
    if k > 0 {
      assert seq(k, _ => NativeSlot)[1..] == seq(k - 1, _ => NativeSlot);
      NativeSlotNames(k - 1);
    }
  }

  /**
   * Compiles one node. A param wraps its body in a capturing group and puts
   * its own slot before the slots of its constraint; an alternation and a raw
   * group are wrapped non-capturing, and a raw group's inner captures become
   * native slots.
   */
  function CompileNode(n: Node, cfg: Config): Compiled
    decreases n
  {
    match n
    case Sequence(children) => CompileFrom(children, 0, cfg, "")
    case Text(value) => Compiled(EscapeText(value, cfg.pathSeparatorPattern), [])
    case Wildcard(greedy) =>
      Compiled(if greedy then cfg.greedyWildcardPattern else cfg.wildcardPattern, [])
    case Param(name, constraint) =>
      var body := match constraint
        case None => Compiled(cfg.unconstrainedParamPattern, [])
        case Some(c) => CompileNode(c, cfg);
      Compiled("(" + body.source + ")", [ParamSlot(name)] + body.groups)
    case Alternation(branches) =>
      var inner := CompileFrom(branches, 0, cfg, "|");
      Compiled("(?:" + inner.source + ")", inner.groups)
    case RegExp(pattern) =>
      Compiled("(?:" + pattern + ")", seq(CaptureCount(pattern), _ => NativeSlot))
  }

  /** Compiles `ns[i..]` in order and joins the sources with `separator`; the slots follow the same order. */
  function CompileFrom(ns: seq<Node>, i: nat, cfg: Config, separator: string): Compiled
    requires i <= |ns|
    decreases ns, |ns| - i
  {
    if i == |ns| then Compiled("", [])
    else if i == |ns| - 1 then
      CompileNode(ns[i], cfg)
    else
      var head := CompileNode(ns[i], cfg);
      var tail := CompileFrom(ns, i + 1, cfg, separator);
      Compiled(head.source + separator + tail.source, head.groups + tail.groups)
  }

  /**
   * Every param contributes exactly one slot, and the param slots list the
   * params in document order (nested constraints included).
   */
  lemma {:induction false} CompiledParamOrder(n: Node, cfg: Config)
    ensures SlotNames(CompileNode(n, cfg).groups) == ParamNames(n)
    decreases n
  {
    match n
    case Sequence(children) =>
      AllCompiledParamOrder(children, 0, cfg, "");
    case Param(name, constraint) =>
      match constraint {
        case None =>
          SlotNamesAppend([ParamSlot(name)], []);
        case Some(c) =>
          CompiledParamOrder(c, cfg);
          SlotNamesAppend([ParamSlot(name)], CompileNode(c, cfg).groups);
      }
    case Alternation(branches) =>
      AllCompiledParamOrder(branches, 0, cfg, "|");
    case RegExp(pattern) =>
      NativeSlotNames(CaptureCount(pattern));
    case _ =>
  }

  lemma {:induction false} AllCompiledParamOrder(ns: seq<Node>, i: nat, cfg: Config, separator: string)
    requires i <= |ns|
    ensures SlotNames(CompileFrom(ns, i, cfg, separator).groups) == ParamNamesFrom(ns, i)
    decreases ns, |ns| - i
  {
    if i == |ns| - 1 {
      CompiledParamOrder(ns[i], cfg);
    } else if i < |ns| - 1 {
      CompiledParamOrder(ns[i], cfg);
      AllCompiledParamOrder(ns, i + 1, cfg, separator);
      SlotNamesAppend(CompileNode(ns[i], cfg).groups, CompileFrom(ns, i + 1, cfg, separator).groups);
    }
  }

  /**
   * The group table lines up with the engine's numbering: the compiled source
   * opens exactly as many capturing groups as the table has slots, so table
   * index i is capture slot i + 1. Its source also leaves nothing pending and
   * does not begin with `?`.
   */
  lemma {:induction false} CompiledGroupsAlign(n: Node, cfg: Config)
    requires WellFormed(n) && ValidConfig(cfg)
    ensures Closed(CompileNode(n, cfg).source) && NoLeadingQuery(CompileNode(n, cfg).source)
    ensures CaptureCount(CompileNode(n, cfg).source) == |CompileNode(n, cfg).groups|
    decreases n
  {
    match n
    case Sequence(children) =>
      AllCompiledGroupsAlign(children, 0, cfg, "");
    case Text(value) =>
      EscapeIsFragment(value, cfg.pathSeparatorPattern);
    case Wildcard(greedy) =>
    case Param(name, constraint) =>
      match constraint {
        case None =>
          CapturingWrap(cfg.unconstrainedParamPattern);
        case Some(c) =>
          CompiledGroupsAlign(c, cfg);
          CapturingWrap(CompileNode(c, cfg).source);
      }
    case Alternation(branches) =>
      AllCompiledGroupsAlign(branches, 0, cfg, "|");
      NonCapturingWrap(CompileFrom(branches, 0, cfg, "|").source);
    case RegExp(pattern) =>
      NonCapturingWrap(pattern);
  }

  lemma {:induction false} AllCompiledGroupsAlign(ns: seq<Node>, i: nat, cfg: Config, separator: string)
    requires i <= |ns| && WellFormedFrom(ns, i) && ValidConfig(cfg) && Fragment(separator)
    ensures Closed(CompileFrom(ns, i, cfg, separator).source)
    ensures NoLeadingQuery(CompileFrom(ns, i, cfg, separator).source)
    ensures CaptureCount(CompileFrom(ns, i, cfg, separator).source) == |CompileFrom(ns, i, cfg, separator).groups|
    decreases ns, |ns| - i
  {
    if i == |ns| - 1 {
      CompiledGroupsAlign(ns[i], cfg);
    } else if i < |ns| - 1 {
      var head := CompileNode(ns[i], cfg);
      var tail := CompileFrom(ns, i + 1, cfg, separator);
      CompiledGroupsAlign(ns[i], cfg);
      AllCompiledGroupsAlign(ns, i + 1, cfg, separator);
      ClosedAppend(head.source, separator);
      ClosedAppend(head.source + separator, tail.source);
    }
  }

  // ---------------------------------------------------------------------
  // Slot by slot

  /**
   * Where a character of the compiled source comes from: written by the
   * compiler itself (escaped text, a configured pattern, a separator, a
   * wrapper), the `(` that opens the group of the param `name`, or the
   * content of a raw regex group.
   */
  datatype Origin = Written | ParamOpen(name: string) | RawContent

  /** A capture that opens at a character of origin `o` belongs in `slot`. */
  predicate OpensSlot(o: Origin, slot: Slot) {
    || (o.ParamOpen? && slot == ParamSlot(o.name))
    || (o.RawContent? && slot == NativeSlot)
  }

  function WrittenRun(k: nat): seq<Origin> {
    seq(k, _ => Written)
  }

  function RawRun(k: nat): seq<Origin> {
    seq(k, _ => RawContent)
  }

  /** The origin of every character of `CompileNode(n, cfg).source`, read off the tree. */
  function Origins(n: Node, cfg: Config): seq<Origin>
    decreases n
  {
    match n
    case Sequence(children) => OriginsFrom(children, 0, cfg, "")
    case Text(value) => WrittenRun(|EscapeText(value, cfg.pathSeparatorPattern)|)
    case Wildcard(greedy) => WrittenRun(|if greedy then cfg.greedyWildcardPattern else cfg.wildcardPattern|)
    case Param(name, constraint) =>
      var body := match constraint
        case None => WrittenRun(|cfg.unconstrainedParamPattern|)
        case Some(c) => Origins(c, cfg);
      [ParamOpen(name)] + body + [Written]
    case Alternation(branches) => WrittenRun(3) + OriginsFrom(branches, 0, cfg, "|") + [Written]
    case RegExp(pattern) => WrittenRun(3) + RawRun(|pattern|) + [Written]
  }

  function OriginsFrom(ns: seq<Node>, i: nat, cfg: Config, separator: string): seq<Origin>
    requires i <= |ns|
    decreases ns, |ns| - i
  {
    if i == |ns| then []
    else if i == |ns| - 1 then Origins(ns[i], cfg)
    else Origins(ns[i], cfg) + WrittenRun(|separator|) + OriginsFrom(ns, i + 1, cfg, separator)
  }

  /**
   * The group table agrees with the engine's numbering slot by slot: every
   * param origin sits on a `(` of `source`, and the character that opens
   * capture k + 1 is the `(` of the param named in slot k when that slot is a
   * param slot, and lies inside raw regex content when it is a native slot.
   */
  ghost predicate SlotsMatchGroups(source: string, groups: seq<Slot>, origins: seq<Origin>) {
    && |origins| == |source|
    && (forall p :: 0 <= p < |origins| && origins[p].ParamOpen? ==> source[p] == '(')
    && |CaptureOpens(source)| == |groups|
    && forall k :: 0 <= k < |groups| ==>
         CaptureOpens(source)[k] < |source| && OpensSlot(origins[CaptureOpens(source)[k]], groups[k])
  }

  /** A piece with no group, all written by the compiler, matches the empty table. */
  lemma SlotsMatchFragment(s: string)
    requires Fragment(s)
    ensures SlotsMatchGroups(s, [], WrittenRun(|s|))
  {}

  /** After a closed piece, the slots and origins of two pieces line up side by side. */
  lemma SlotsMatchAppend(a: string, ga: seq<Slot>, oa: seq<Origin>, b: string, gb: seq<Slot>, ob: seq<Origin>)
    requires Closed(a) && SlotsMatchGroups(a, ga, oa) && SlotsMatchGroups(b, gb, ob)
    ensures SlotsMatchGroups(a + b, ga + gb, oa + ob)
  {
    OpensAppend(a, b);
    var opens := CaptureOpens(a + b);
    forall p | 0 <= p < |oa + ob| && (oa + ob)[p].ParamOpen?
      ensures (a + b)[p] == '('
    {
      if p >= |a| {
        assert ob[p - |a|].ParamOpen?;
      }
    }
    forall k | 0 <= k < |ga + gb|
      ensures opens[k] < |a + b| && OpensSlot((oa + ob)[opens[k]], (ga + gb)[k])
    {
      if k >= |ga| {
        assert opens[k] == CaptureOpens(b)[k - |ga|] + |a|;
      }
    }
  }

  /** A param's parentheses open the first capture of its piece, at its own `(`; its body's slots follow. */
  lemma SlotsMatchCapturing(name: string, body: string, g: seq<Slot>, o: seq<Origin>)
    requires Closed(body) && NoLeadingQuery(body) && SlotsMatchGroups(body, g, o)
    ensures SlotsMatchGroups("(" + body + ")", [ParamSlot(name)] + g, [ParamOpen(name)] + o + [Written])
  {
    var s := "(" + body + ")";
    var g' := [ParamSlot(name)] + g;
    var o' := [ParamOpen(name)] + o + [Written];
    OpensCapturingWrap(body);
    var opens := CaptureOpens(s);
    forall p | 0 <= p < |o'| && o'[p].ParamOpen?
      ensures s[p] == '('
    {
      if 0 < p {
        assert o[p - 1].ParamOpen?;
      }
    }
    forall k | 0 <= k < |g'|
      ensures opens[k] < |s| && OpensSlot(o'[opens[k]], g'[k])
    {
      if k > 0 {
        assert opens[k] == CaptureOpens(body)[k - 1] + 1;
      }
    }
  }

  /** `(?:` … `)` moves every capture and origin of its body by three characters. */
  lemma SlotsMatchNonCapturing(body: string, g: seq<Slot>, o: seq<Origin>)
    requires Closed(body) && SlotsMatchGroups(body, g, o)
    ensures SlotsMatchGroups("(?:" + body + ")", g, WrittenRun(3) + o + [Written])
  {
    var s := "(?:" + body + ")";
    var o' := WrittenRun(3) + o + [Written];
    OpensNonCapturingWrap(body);
    var opens := CaptureOpens(s);
    forall p | 0 <= p < |o'| && o'[p].ParamOpen?
      ensures s[p] == '('
    {
      assert o[p - 3].ParamOpen?;
    }
    forall k | 0 <= k < |g|
      ensures opens[k] < |s| && OpensSlot(o'[opens[k]], g[k])
    {
      assert opens[k] == CaptureOpens(body)[k] + 3;
    }
  }

  /** Every capture of a raw group opens inside its content and takes a native slot. */
  lemma SlotsMatchRaw(pattern: string)
    requires Closed(pattern)
    ensures SlotsMatchGroups("(?:" + pattern + ")", seq(CaptureCount(pattern), _ => NativeSlot),
      WrittenRun(3) + RawRun(|pattern|) + [Written])
  {
    var s := "(?:" + pattern + ")";
    var o := WrittenRun(3) + RawRun(|pattern|) + [Written];
    var g := seq(CaptureCount(pattern), _ => NativeSlot);
    OpensNonCapturingWrap(pattern);
    CaptureOpensParens(pattern);
    var opens := CaptureOpens(s);
    forall k | 0 <= k < |g|
      ensures opens[k] < |s| && OpensSlot(o[opens[k]], g[k])
    {
      assert opens[k] == CaptureOpens(pattern)[k] + 3;
      assert o[opens[k]] == RawContent;
    }
  }

  /**
   * Slot k of the table is the param slot of `name` exactly when the engine's
   * capture k + 1 opens at the `(` the compiler wrote for the param `name`,
   * and a native slot exactly when it opens inside raw regex content.
   */
  lemma {:induction false} CompiledSlotsMatch(n: Node, cfg: Config)
    requires WellFormed(n) && ValidConfig(cfg)
    ensures SlotsMatchGroups(CompileNode(n, cfg).source, CompileNode(n, cfg).groups, Origins(n, cfg))
    decreases n
  {
    match n
    case Sequence(children) =>
      AllCompiledSlotsMatch(children, 0, cfg, "");
    case Text(value) =>
      EscapeIsFragment(value, cfg.pathSeparatorPattern);
      SlotsMatchFragment(EscapeText(value, cfg.pathSeparatorPattern));
    case Wildcard(greedy) =>
      SlotsMatchFragment(if greedy then cfg.greedyWildcardPattern else cfg.wildcardPattern);
    case Param(name, constraint) =>
      match constraint {
        case None =>
          SlotsMatchFragment(cfg.unconstrainedParamPattern);
          SlotsMatchCapturing(name, cfg.unconstrainedParamPattern, [], WrittenRun(|cfg.unconstrainedParamPattern|));
        case Some(c) =>
          CompiledGroupsAlign(c, cfg);
          CompiledSlotsMatch(c, cfg);
          SlotsMatchCapturing(name, CompileNode(c, cfg).source, CompileNode(c, cfg).groups, Origins(c, cfg));
      }
    case Alternation(branches) =>
      AllCompiledGroupsAlign(branches, 0, cfg, "|");
      AllCompiledSlotsMatch(branches, 0, cfg, "|");
      SlotsMatchNonCapturing(CompileFrom(branches, 0, cfg, "|").source, CompileFrom(branches, 0, cfg, "|").groups,
        OriginsFrom(branches, 0, cfg, "|"));
    case RegExp(pattern) =>
      SlotsMatchRaw(pattern);
  }

  lemma {:induction false} AllCompiledSlotsMatch(ns: seq<Node>, i: nat, cfg: Config, separator: string)
    requires i <= |ns| && WellFormedFrom(ns, i) && ValidConfig(cfg) && Fragment(separator)
    ensures SlotsMatchGroups(CompileFrom(ns, i, cfg, separator).source, CompileFrom(ns, i, cfg, separator).groups,
      OriginsFrom(ns, i, cfg, separator))
    decreases ns, |ns| - i
  {
    if i == |ns| {
      SlotsMatchFragment("");
    } else if i == |ns| - 1 {
      CompiledSlotsMatch(ns[i], cfg);
    } else {
      var head := CompileNode(ns[i], cfg);
      var tail := CompileFrom(ns, i + 1, cfg, separator);
      CompiledGroupsAlign(ns[i], cfg);
      CompiledSlotsMatch(ns[i], cfg);
      SlotsMatchFragment(separator);
      SlotsMatchAppend(head.source, head.groups, Origins(ns[i], cfg), separator, [], WrittenRun(|separator|));
      ClosedAppend(head.source, separator);
      AllCompiledSlotsMatch(ns, i + 1, cfg, separator);
      SlotsMatchAppend(head.source + separator, head.groups + [], Origins(ns[i], cfg) + WrittenRun(|separator|),
        tail.source, tail.groups, OriginsFrom(ns, i + 1, cfg, separator));
      assert head.groups + [] == head.groups;
    }
  }

  // ---------------------------------------------------------------------
  // The regular expression

  /** What the RegExp object carries: its source, its `i` flag, and the group table. */
  datatype RegExpSpec = RegExpSpec(source: string, ignoreCase: bool, groups: seq<Slot>)

  /**
   * The compiled expression is anchored at the start and is case-insensitive
   * unless `caseSensitive` is set.
   */
  function ConvertNodeToRegExp(n: Node, options: Options): (r: RegExpSpec)
    ensures |r.source| >= 1 && r.source[0] == '^'
    ensures r.ignoreCase <==> options.caseSensitive != Some(true)
  {
    var cfg := Resolve(options);
    var body := CompileNode(n, cfg);
    RegExpSpec("^" + body.source, !cfg.caseSensitive, body.groups)
  }

  /** The table of the converted expression has one slot per param, in document order. */
  lemma ConvertedParamOrder(n: Node, options: Options)
    ensures SlotNames(ConvertNodeToRegExp(n, options).groups) == ParamNames(n)
  {
    CompiledParamOrder(n, Resolve(options));
  }

  /**
   * For a well-formed tree and valid options, the number of capturing groups
   * in the compiled source equals the length of the group table.
   */
  lemma ConvertedGroupsAlign(n: Node, options: Options)
    requires WellFormed(n) && ValidOptions(options)
    ensures Closed(ConvertNodeToRegExp(n, options).source)
    ensures CaptureCount(ConvertNodeToRegExp(n, options).source) == |ConvertNodeToRegExp(n, options).groups|
  {
    var cfg := Resolve(options);
    ResolveValid(options);
    CompiledGroupsAlign(n, cfg);
    ClosedAppend("^", CompileNode(n, cfg).source);
  }

  /**
   * Table index k is the engine's capture k + 1: slot k is the param slot of
   * `name` exactly when that capture opens at the `(` of the param `name`, and
   * a native slot exactly when it opens inside raw regex content. The anchor
   * `^` is written by the compiler.
   */
  lemma ConvertedSlotsMatch(n: Node, options: Options)
    requires WellFormed(n) && ValidOptions(options)
    ensures SlotsMatchGroups(ConvertNodeToRegExp(n, options).source, ConvertNodeToRegExp(n, options).groups,
      [Written] + Origins(n, Resolve(options)))
  {
    var cfg := Resolve(options);
    var body := CompileNode(n, cfg);
    ResolveValid(options);
    CompiledSlotsMatch(n, cfg);
    SlotsMatchFragment("^");
    assert WrittenRun(|"^"|) == [Written];
    SlotsMatchAppend("^", [], [Written], body.source, body.groups, Origins(n, cfg));
    assert [] + body.groups == body.groups;
  }
}
