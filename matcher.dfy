/**
 * The patched `exec`: after the engine matches, its positional captures and
 * its own named groups are merged into one name-to-value map. Native named
 * groups are taken first and never overwritten; then the group table is
 * walked in ascending order and each param whose capture is defined is added
 * under its name unless that name is already present.
 */
module Matcher {
  import opened Wrappers
  import opened Compiler

  /** Values of the merged map; `None` is a native named group that did not participate (`undefined`). */
  type Groups = map<string, Option<string>>

  /** The engine's capture for slot `i`: index 0 is the whole match, and a missing index reads as `undefined`. */
  function Captured(captures: seq<Option<string>>, i: nat): Option<string> {
    if i < |captures| then captures[i] else None
  }

  /** The merged map after the first `n` slots of the table have been walked. */
  function MergeUpTo(table: seq<Slot>, captures: seq<Option<string>>, native: Groups, n: nat): (r: Groups)
    requires n <= |table|
    ensures forall name :: name in native ==> name in r && r[name] == native[name]
    ensures forall name :: name in r && name !in native ==> r[name].Some?
  {
    if n == 0 then native
    else
      var groups := MergeUpTo(table, captures, native, n - 1);
      var slot := table[n - 1];
      var value := Captured(captures, n);
      if slot.ParamSlot? && value.Some? && slot.name !in groups then groups[slot.name := value]
      else groups
  }

  function MergedGroups(table: seq<Slot>, captures: seq<Option<string>>, native: Groups): Groups {
    MergeUpTo(table, captures, native, |table|)
  }

  /** Slot `i` is a param named `name` whose capture is defined. */
  ghost predicate DefinedParam(table: seq<Slot>, captures: seq<Option<string>>, name: string, i: nat) {
    i < |table| && table[i] == ParamSlot(name) && Captured(captures, i + 1).Some?
  }

  /** Slot `i` is the leftmost param named `name` with a defined capture. */
  ghost predicate EarliestDefinedParam(table: seq<Slot>, captures: seq<Option<string>>, name: string, i: nat) {
    DefinedParam(table, captures, name, i) && forall j: nat :: j < i ==> !DefinedParam(table, captures, name, j)
  }

  /** The merge keeps native names and adds exactly the names of params with a defined capture. */
  lemma {:induction false} MergeKeys(table: seq<Slot>, captures: seq<Option<string>>, native: Groups, n: nat, name: string)
    requires n <= |table|
    ensures name in MergeUpTo(table, captures, native, n) <==>
      name in native || exists i: nat :: i < n && DefinedParam(table, captures, name, i)
  {
    if n > 0 {
      MergeKeys(table, captures, native, n - 1, name);
      if name in MergeUpTo(table, captures, native, n) && name !in native {
        if name !in MergeUpTo(table, captures, native, n - 1) {
          assert DefinedParam(table, captures, name, n - 1);
        }
      }
    }
  }

  /** Precedence law: a native named group keeps its own value, whatever params share its name. */
  lemma {:induction false} NativeGroupsWin(table: seq<Slot>, captures: seq<Option<string>>, native: Groups, n: nat, name: string)
    requires n <= |table| && name in native
    ensures name in MergeUpTo(table, captures, native, n)
    ensures MergeUpTo(table, captures, native, n)[name] == native[name]
  {
    if n > 0 {
      NativeGroupsWin(table, captures, native, n - 1, name);
    }
  }

  /**
   * Earliest-wins law: when no native group has the name, the value is the
   * capture of the leftmost param of that name whose capture is defined.
   */
  lemma {:induction false} EarliestParamWins(table: seq<Slot>, captures: seq<Option<string>>, native: Groups, n: nat, name: string, i: nat)
    requires n <= |table| && i < n
    requires name !in native && EarliestDefinedParam(table, captures, name, i)
    ensures name in MergeUpTo(table, captures, native, n)
    ensures MergeUpTo(table, captures, native, n)[name] == Captured(captures, i + 1)
  {
    if n - 1 == i {
      MergeKeys(table, captures, native, i, name);
    } else {
      EarliestParamWins(table, captures, native, n - 1, name, i);
    }
  }

  /** Every param name with a defined capture has a leftmost such param, so the earliest-wins law always applies. */
  lemma {:induction false} EarliestExists(table: seq<Slot>, captures: seq<Option<string>>, name: string, i: nat)
    requires DefinedParam(table, captures, name, i)
    ensures exists k: nat :: k <= i && EarliestDefinedParam(table, captures, name, k)
    decreases i
  {
    if EarliestDefinedParam(table, captures, name, i) {
    } else {
      var j: nat :| j < i && DefinedParam(table, captures, name, j);
      EarliestExists(table, captures, name, j);
    }
  }

  /** Two params share a name and both captured: the later one's capture is never preferred over the earlier one's. */
  lemma LaterDuplicateLoses(table: seq<Slot>, captures: seq<Option<string>>, native: Groups, name: string, i: nat, j: nat)
    requires i < j && name !in native
    requires DefinedParam(table, captures, name, i) && DefinedParam(table, captures, name, j)
    ensures name in MergedGroups(table, captures, native)
    ensures exists k: nat ::
              && k <= i
              && EarliestDefinedParam(table, captures, name, k)
              && MergedGroups(table, captures, native)[name] == Captured(captures, k + 1)
  {
    EarliestExists(table, captures, name, i);
    var k: nat :| k <= i && EarliestDefinedParam(table, captures, name, k);
    EarliestParamWins(table, captures, native, |table|, name, k);
  }

  /** Merges the engine's captures into one map by walking the group table in ascending order. */
  method MergeGroups(table: seq<Slot>, captures: seq<Option<string>>, native: Groups) returns (groups: Groups)
    ensures groups == MergedGroups(table, captures, native)
  {
    groups := native;
    var i := 0;
    while i < |table|
      invariant i <= |table|
      invariant groups == MergeUpTo(table, captures, native, i)
    {
      var slot := table[i];
      var value := if i + 1 < |captures| then captures[i + 1] else None;
      if slot.ParamSlot? && value.Some? && slot.name !in groups {
        groups := groups[slot.name := value];
      }
      i := i + 1;
    }
  }

  /** What the engine reports for a successful match: positional captures (0 is the whole match) and its own named groups. */
  datatype EngineMatch = EngineMatch(captures: seq<Option<string>>, namedGroups: Groups)

  /** The array the patched `exec` returns: the engine's captures and the merged groups. */
  datatype MatchResult = MatchResult(captures: seq<Option<string>>, groups: Groups)

  /** `exec` over the engine's result: no match stays no match; a match gets the merged groups. */
  method Exec(re: RegExpSpec, engine: Option<EngineMatch>) returns (r: Option<MatchResult>)
    ensures r.None? <==> engine.None?
    ensures r.Some? ==> r.value.captures == engine.value.captures
    ensures r.Some? ==> r.value.groups == MergedGroups(re.groups, engine.value.captures, engine.value.namedGroups)
  {
    match engine
    case None =>
      r := None;
    case Some(m) =>
      var groups := MergeGroups(re.groups, m.captures, m.namedGroups);
      r := Some(MatchResult(m.captures, groups));
  }
}
