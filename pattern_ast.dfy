// The tree a route pattern parses into. A pattern such as
// `/aaa{ :foo{ /bbb, :bar(ccc|ddd) }/**}` is a Sequence of a Text, and an
// Alternation whose one branch is a Sequence of a constrained Param, a Text
// and a greedy Wildcard.
module PatternAst {
  import opened Wrappers
  import RegexSyntax

  datatype Node =
    | Sequence(children: seq<Node>)                // children in document order
    | Text(value: string)                          // literal characters, `/` included
    | Wildcard(greedy: bool)                       // `*` (greedy == false) or `**`
    | Param(name: string, constraint: Option<Node>) // `:name`, optionally constrained
    | Alternation(branches: seq<Node>)             // `{ b1, b2, … }`, branches trimmed
    | RegExp(pattern: string)                      // the content of a raw `( … )` group

  /** The names of the params of `n`, in document order (nested constraints included). */
  function ParamNames(n: Node): seq<string>
    decreases n
  {
    match n
    case Sequence(children) => ParamNamesFrom(children, 0)
    case Param(name, constraint) =>
      [name] + (match constraint case None => [] case Some(c) => ParamNames(c))
    case Alternation(branches) => ParamNamesFrom(branches, 0)
    case _ => []
  }

  /** The names of the params of `ns[i..]`, in document order. */
  function ParamNamesFrom(ns: seq<Node>, i: nat): seq<string>
    requires i <= |ns|
    decreases ns, |ns| - i
  {
    if i == |ns| then [] else ParamNames(ns[i]) + ParamNamesFrom(ns, i + 1)
  }

  /**
   * Every raw regular-expression group ends its content with nothing pending
   * (no dangling `\`, unterminated `[` or trailing `(`), as a group the regex
   * engine accepts does.
   */
  predicate WellFormed(n: Node)
    decreases n
  {
    match n
    case Sequence(children) => WellFormedFrom(children, 0)
    case Param(_, constraint) =>
      (match constraint case None => true case Some(c) => WellFormed(c))
    case Alternation(branches) => WellFormedFrom(branches, 0)
    case RegExp(pattern) => RegexSyntax.Closed(pattern)
    case _ => true
  }

  /** Every node of `ns[i..]` is well formed. */
  predicate WellFormedFrom(ns: seq<Node>, i: nat)
    requires i <= |ns|
    decreases ns, |ns| - i
  {
    i == |ns| || (WellFormed(ns[i]) && WellFormedFrom(ns, i + 1))
  }
}
