/**
 * A lexical view of regular-expression source text, just detailed enough to
 * count capturing groups the way an ECMAScript engine numbers them: a `(` that
 * is neither escaped nor inside a character class opens a capturing group
 * unless it is followed by `?`; of the `(?` forms only the named group
 * `(?<name>…)` captures (`(?:`, `(?=`, `(?!`, `(?<=`, `(?<!` do not).
 *
 * The scanner is a finite-state transducer, so scanning a concatenation is
 * scanning its parts one after the other (ScanAppend).
 */
module RegexSyntax {
  import opened Wrappers

  datatype ScanState =
    | Normal          // outside any escape, class or pending `(`
    | Escaped         // just read `\` outside a class
    | InClass         // inside `[ … ]`
    | InClassEscaped  // just read `\` inside a class
    | AfterOpen       // just read an unescaped `(`
    | AfterOpenQuery  // just read `(?`
    | AfterOpenLt     // just read `(?<`

  datatype ScanResult = ScanResult(groups: nat, state: ScanState)

  /** The state after reading `c` in state Normal (reading in Normal never opens a group by itself). */
  function NormalNext(c: char): ScanState {
    if c == '\\' then Escaped
    else if c == '[' then InClass
    else if c == '(' then AfterOpen
    else Normal
  }

  /** One transition: the next state and how many capturing groups `c` confirms (0 or 1). */
  function Step(st: ScanState, c: char): (r: ScanResult)
    ensures r.groups <= 1
    ensures r.groups == 1 <==> (st == AfterOpen && c != '?') || (st == AfterOpenLt && c != '=' && c != '!')
  {
    match st
    case Normal => ScanResult(0, NormalNext(c))
    case Escaped => ScanResult(0, Normal)
    case InClass =>
      if c == '\\' then ScanResult(0, InClassEscaped)
      else if c == ']' then ScanResult(0, Normal)
      else ScanResult(0, InClass)
    case InClassEscaped => ScanResult(0, InClass)
    case AfterOpen =>
      if c == '?' then ScanResult(0, AfterOpenQuery) else ScanResult(1, NormalNext(c))
    case AfterOpenQuery =>
      if c == '<' then ScanResult(0, AfterOpenLt) else ScanResult(0, Normal)
    case AfterOpenLt =>
      if c == '=' || c == '!' then ScanResult(0, Normal) else ScanResult(1, Normal)
  }

  /** Reads `s` from position `i` on, starting in state `st`: the capturing groups confirmed and the final state. */
  function ScanFrom(s: string, i: nat, st: ScanState): (r: ScanResult)
    requires i <= |s|
    ensures r.groups <= |s| - i
    decreases |s| - i
  {
    if i == |s| then ScanResult(0, st)
    else
      var first := Step(st, s[i]);
      var rest := ScanFrom(s, i + 1, first.state);
      ScanResult(first.groups + rest.groups, rest.state)
  }

  /** Reads all of `s` starting in state `st`. */
  function Scan(s: string, st: ScanState): (r: ScanResult)
    ensures r.groups <= |s|
  {
    ScanFrom(s, 0, st)
  }

  /** Scanning the suffix of `p + s` that lies in `s` is scanning `s` itself. */
  lemma {:induction false} ScanFromShift(p: string, s: string, j: nat, st: ScanState)
    requires j <= |s|
    ensures ScanFrom(p + s, |p| + j, st) == ScanFrom(s, j, st)
    decreases |s| - j
  {
    if j < |s| {
      assert (p + s)[|p| + j] == s[j];
      ScanFromShift(p, s, j + 1, Step(st, s[j]).state);
    }
  }

  /** A non-empty text is scanned by one step on its first character and then the rest. */
  lemma ScanFirst(s: string, st: ScanState)
    requires s != []
    ensures Scan(s, st).groups == Step(st, s[0]).groups + Scan(s[1..], Step(st, s[0]).state).groups
    ensures Scan(s, st).state == Scan(s[1..], Step(st, s[0]).state).state
  {
    assert s == [s[0]] + s[1..];
    ScanFromShift([s[0]], s[1..], 0, Step(st, s[0]).state);
  }

  /** The number of capturing groups in the regular-expression source `s`. */
  function CaptureCount(s: string): nat {
    Scan(s, Normal).groups
  }

  /** A `(` inside a character class is an ordinary character. */
  lemma ParenInClassOpensNothing()
    ensures CaptureCount(@"[(]") == 0
  {}

  /** An escaped `(` is an ordinary character. */
  lemma EscapedParenOpensNothing()
    ensures CaptureCount(@"\(") == 0
  {}

  /** A lookahead opens no capturing group. */
  lemma LookaheadOpensNothing()
    ensures CaptureCount(@"(?=b)") == 0
  {}

  /** A negative lookbehind opens no capturing group. */
  lemma LookbehindOpensNothing()
    ensures CaptureCount(@"(?<!c)") == 0
  {}

  /** A named group and a plain group are both capturing. */
  lemma NamedAndPlainGroupsCapture()
    ensures CaptureCount(@"(?<n>d)(e)") == 2
  {}

  /** `s` leaves no escape, class or group opener pending at its end. */
  predicate Closed(s: string) {
    Scan(s, Normal).state == Normal
  }

  /**
   * `s` does not begin with `?`, so placing it right after `(` keeps that
   * parenthesis an ordinary capturing group.
   */
  predicate NoLeadingQuery(s: string) {
    s == [] || s[0] != '?'
  }

  /** A closed piece of regular expression with no capturing group, usable anywhere. */
  predicate Fragment(s: string) {
    Scan(s, Normal) == ScanResult(0, Normal) && NoLeadingQuery(s)
  }

  /** Scanning a concatenation is scanning the left part, then the right part from where it ended. */
  lemma {:induction false} ScanAppend(a: string, b: string, st: ScanState)
    ensures Scan(a + b, st).groups == Scan(a, st).groups + Scan(b, Scan(a, st).state).groups
    ensures Scan(a + b, st).state == Scan(b, Scan(a, st).state).state
    decreases |a|
  {
    if a != [] {
      ScanFirst(a + b, st);
      ScanFirst(a, st);
      assert (a + b)[0] == a[0];
      assert (a + b)[1..] == a[1..] + b;
      ScanAppend(a[1..], b, Step(st, a[0]).state);
    } else {
      assert a + b == b;
    }
  }

  /** Two closed pieces with `x` and `y` groups make a closed piece with `x + y` groups. */
  lemma ClosedAppend(a: string, b: string)
    requires Closed(a) && Closed(b)
    ensures Closed(a + b)
    ensures CaptureCount(a + b) == CaptureCount(a) + CaptureCount(b)
    ensures NoLeadingQuery(a) && NoLeadingQuery(b) ==> NoLeadingQuery(a + b)
  {
    ScanAppend(a, b, Normal);
    if a == [] {
      assert a + b == b;
    }
  }

  /**
   * Wrapping a closed piece that does not begin with `?` in parentheses adds
   * exactly one capturing group, the one the `(` opens.
   */
  lemma {:induction false} CapturingWrap(body: string)
    requires Closed(body) && NoLeadingQuery(body)
    ensures Closed("(" + body + ")")
    ensures CaptureCount("(" + body + ")") == CaptureCount(body) + 1
  {
    var s := "(" + body + ")";
    ScanAppend("(", body + ")", Normal);
    assert s == "(" + (body + ")");
    ScanAppend(body, ")", AfterOpen);
    if body == [] {
      assert body + ")" == ")";
    } else {
      assert (body + ")")[0] == body[0];
      ScanAppend([body[0]], body[1..], AfterOpen);
      ScanAppend([body[0]], body[1..], Normal);
      assert [body[0]] + body[1..] == body;
    }
  }

  /** Wrapping a closed piece in `(?:` … `)` adds no capturing group. */
  lemma NonCapturingWrap(body: string)
    requires Closed(body)
    ensures Closed("(?:" + body + ")")
    ensures CaptureCount("(?:" + body + ")") == CaptureCount(body)
  {
    ScanAppend("(?:", body + ")", Normal);
    assert "(?:" + body + ")" == "(?:" + (body + ")");
    ScanAppend(body, ")", Normal);
  }

  // ---------------------------------------------------------------------
  // Where each capturing group opens

  /** The states in which an unescaped `(` has been read and its group is not yet known to capture or not. */
  predicate Pending(st: ScanState) {
    st == AfterOpen || st == AfterOpenQuery || st == AfterOpenLt
  }

  /** `xs` with `d` added to every offset. */
  function Shift(xs: seq<nat>, d: nat): seq<nat> {
    seq(|xs|, k requires 0 <= k < |xs| => xs[k] + d)
  }

  lemma ShiftAppend(a: seq<nat>, b: seq<nat>, d: nat)
    ensures Shift(a + b, d) == Shift(a, d) + Shift(b, d)
  {
    assert forall k :: 0 <= k < |a| + |b| ==> Shift(a + b, d)[k] == (Shift(a, d) + Shift(b, d))[k];
  }

  /**
   * Reads `s` from position `i` on in state `st`, where `last` is the offset
   * of the most recent unescaped `(`: the offsets of the `(` of the capturing
   * groups confirmed on the way, in the order the engine numbers them.
   */
  function OpensFrom(s: string, i: nat, st: ScanState, last: nat): seq<nat>
    requires i <= |s|
    decreases |s| - i
  {
    if i == |s| then []
    else
      var step := Step(st, s[i]);
      (if step.groups == 1 then [last] else [])
        + OpensFrom(s, i + 1, step.state, if step.state == AfterOpen then i else last)
  }

  /** Entry k is the offset of the `(` that opens capturing group k + 1 of `s`. */
  function CaptureOpens(s: string): (r: seq<nat>)
    ensures |r| == CaptureCount(s)
  {
    OpensFromLength(s, 0, Normal, 0);
    OpensFrom(s, 0, Normal, 0)
  }

  /** One offset per capturing group the scanner confirms. */
  lemma {:induction false} OpensFromLength(s: string, i: nat, st: ScanState, last: nat)
    requires i <= |s|
    ensures |OpensFrom(s, i, st, last)| == ScanFrom(s, i, st).groups
    decreases |s| - i
  {
    if i < |s| {
      var step := Step(st, s[i]);
      OpensFromLength(s, i + 1, step.state, if step.state == AfterOpen then i else last);
    }
  }

  lemma {:induction false} OpensFromParens(s: string, i: nat, st: ScanState, last: nat)
    requires i <= |s|
    requires Pending(st) ==> last < i && s[last] == '('
    ensures forall k :: 0 <= k < |OpensFrom(s, i, st, last)| ==>
      OpensFrom(s, i, st, last)[k] < |s| && s[OpensFrom(s, i, st, last)[k]] == '('
    decreases |s| - i
  {
    if i < |s| {
      var step := Step(st, s[i]);
      OpensFromParens(s, i + 1, step.state, if step.state == AfterOpen then i else last);
    }
  }

  /** Every recorded offset holds an unescaped `(` of `s`. */
  lemma CaptureOpensParens(s: string)
    ensures forall k :: 0 <= k < |CaptureOpens(s)| ==> CaptureOpens(s)[k] < |s| && s[CaptureOpens(s)[k]] == '('
  {
    OpensFromParens(s, 0, Normal, 0);
  }

  /** Outside a pending `(`, the offset of the last `(` is never read. */
  lemma {:induction false} OpensFromLastUnused(s: string, i: nat, st: ScanState, x: nat, y: nat)
    requires i <= |s| && !Pending(st)
    ensures OpensFrom(s, i, st, x) == OpensFrom(s, i, st, y)
    decreases |s| - i
  {
    if i < |s| {
      var step := Step(st, s[i]);
      if !Pending(step.state) {
        OpensFromLastUnused(s, i + 1, step.state, x, y);
      }
    }
  }

  /** Reading the part of `p + s` that lies in `s` finds the offsets in `s`, moved by `|p|`. */
  lemma {:induction false} OpensFromShift(p: string, s: string, j: nat, st: ScanState, last: nat)
    requires j <= |s|
    ensures OpensFrom(p + s, |p| + j, st, |p| + last) == Shift(OpensFrom(s, j, st, last), |p|)
    decreases |s| - j
  {
    if j < |s| {
      assert (p + s)[|p| + j] == s[j];
      var step := Step(st, s[j]);
      var next := if step.state == AfterOpen then j else last;
      var head: seq<nat> := if step.groups == 1 then [last] else [];
      var tail := OpensFrom(s, j + 1, step.state, next);
      OpensFromShift(p, s, j + 1, step.state, next);
      assert OpensFrom(p + s, |p| + j + 1, step.state, |p| + next) == Shift(tail, |p|);
      assert Shift(head, |p|) == if step.groups == 1 then [|p| + last] else [];
      ShiftAppend(head, tail, |p|);
    }
  }

  /** Once `a` is read and the state is Normal, the rest of `a + b` yields the offsets of `b`, moved by `|a|`. */
  lemma OpensFromBoundary(a: string, b: string, last: nat)
    ensures OpensFrom(a + b, |a|, Normal, last) == Shift(CaptureOpens(b), |a|)
  {
    OpensFromLastUnused(a + b, |a|, Normal, last, |a| + 0);
    OpensFromShift(a, b, 0, Normal, 0);
  }

  lemma {:induction false} OpensFromAppend(a: string, b: string, i: nat, st: ScanState, last: nat)
    requires i <= |a| && ScanFrom(a, i, st).state == Normal
    ensures OpensFrom(a + b, i, st, last) == OpensFrom(a, i, st, last) + Shift(CaptureOpens(b), |a|)
    decreases |a| - i
  {
    if i == |a| {
      OpensFromBoundary(a, b, last);
    } else {
      assert (a + b)[i] == a[i];
      var step := Step(st, a[i]);
      var next := if step.state == AfterOpen then i else last;
      var head: seq<nat> := if step.groups == 1 then [last] else [];
      assert ScanFrom(a, i + 1, step.state).state == Normal;
      OpensFromAppend(a, b, i + 1, step.state, next);
      assert head + (OpensFrom(a, i + 1, step.state, next) + Shift(CaptureOpens(b), |a|))
        == (head + OpensFrom(a, i + 1, step.state, next)) + Shift(CaptureOpens(b), |a|);
    }
  }

  /** After a closed piece, the groups of the rest open where they open in the rest, moved by the piece's length. */
  lemma OpensAppend(a: string, b: string)
    requires Closed(a)
    ensures CaptureOpens(a + b) == CaptureOpens(a) + Shift(CaptureOpens(b), |a|)
  {
    OpensFromAppend(a, b, 0, Normal, 0);
  }

  /** A `(` followed by anything but `?` opens group 1 at offset 0; the groups of the rest follow it. */
  lemma OpensAfterParen(t: string)
    requires t != [] && t[0] != '?'
    ensures CaptureOpens("(" + t) == [0] + Shift(CaptureOpens(t), 1)
  {
    var s := "(" + t;
    var st := NormalNext(t[0]);
    assert s[0] == '(' && s[1] == t[0];
    assert OpensFrom(s, 0, Normal, 0) == OpensFrom(s, 1, AfterOpen, 0);
    assert OpensFrom(s, 1, AfterOpen, 0) == [0] + OpensFrom(s, 2, st, if st == AfterOpen then 1 else 0);
    assert OpensFrom(t, 0, Normal, 0) == OpensFrom(t, 1, st, 0);
    OpensFromShift("(", t, 1, st, 0);
    if st != AfterOpen {
      OpensFromLastUnused(s, 2, st, 0, 1);
    }
  }

  /** Capturing parentheses around a closed piece open group 1 at offset 0, before every group of the piece. */
  lemma OpensCapturingWrap(body: string)
    requires Closed(body) && NoLeadingQuery(body)
    ensures CaptureOpens("(" + body + ")") == [0] + Shift(CaptureOpens(body), 1)
  {
    OpensCloseParen(body);
    assert "(" + body + ")" == "(" + (body + ")");
    OpensAfterParen(body + ")");
  }

  /** `(?:` … `)` around a closed piece opens no group of its own. */
  lemma OpensNonCapturingWrap(body: string)
    requires Closed(body)
    ensures CaptureOpens("(?:" + body + ")") == Shift(CaptureOpens(body), 3)
  {
    OpensCloseParen(body);
    assert "(?:" + body + ")" == "(?:" + (body + ")");
    OpensAfterNonCapturing(body + ")");
  }

  /** A `)` after a closed piece opens no group. */
  lemma OpensCloseParen(body: string)
    requires Closed(body)
    ensures CaptureOpens(body + ")") == CaptureOpens(body)
  {
    OpensAppend(body, ")");
    assert CaptureOpens(")") == [];
    assert Shift([], |body|) == [];
  }

  /** `(?:` opens no group and moves every group after it by three characters. */
  lemma OpensAfterNonCapturing(t: string)
    ensures CaptureOpens("(?:" + t) == Shift(CaptureOpens(t), 3)
  {
    assert Closed("(?:") && CaptureOpens("(?:") == [];
    OpensAppend("(?:", t);
  }

  // ---------------------------------------------------------------------
  // Reading source back as a literal

  /** ECMAScript's syntax characters: each means something in a pattern unless it is escaped. */
  predicate IsSyntaxChar(c: char) {
    c in @"^$\.*+?()[]{}|"
  }

  /**
   * Reads regular-expression source as a plain literal: the text it matches,
   * or None when it holds anything but ordinary characters and identity
   * escapes (`\` followed by a syntax character or by `/`).
   */
  function ReadLiteral(s: string): Option<string> {
    if s == [] then Some([])
    else if s[0] == '\\' then
      if |s| >= 2 && (IsSyntaxChar(s[1]) || s[1] == '/') then
        match ReadLiteral(s[2..])
        case Some(rest) => Some([s[1]] + rest)
        case None => None
      else None
    else if IsSyntaxChar(s[0]) then None
    else
      match ReadLiteral(s[1..])
      case Some(rest) => Some([s[0]] + rest)
      case None => None
  }
}
