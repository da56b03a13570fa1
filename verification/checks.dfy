/** A declared check: the arguments of one `getAppModel` call in the status tables. The
    command is generic so that a table can be declared before its commands are rendered. */
module Checks {
  import opened Wrappers
  import opened Lists

  /** `getAppModel(id, label, checkCommand, isLinuxCommand?, _, _, _, rippleStackOnly?)`;
      an optional argument left out is `None`. `caption` is the source's `label`. */
  datatype CheckDecl<C> = CheckDecl(
    id: string, caption: string, command: C,
    isLinuxCommand: Option<bool>, rippleStackOnly: Option<bool>)

  /** A check declared with only its first three arguments. */
  function Plain<C>(id: string, caption: string, command: C): CheckDecl<C>
  {
    CheckDecl(id, caption, command, None, None)
  }

  /** A check of the ripple stack: a Linux command that only runs with the stack enabled. */
  function Ripple<C>(id: string, caption: string, command: C): CheckDecl<C>
  {
    CheckDecl(id, caption, command, Some(true), Some(true))
  }

  /** The key of a check. */
  function IdOf<C>(d: CheckDecl<C>): string
  {
    d.id
  }

  /** The ids of a table, in order. */
  function IdsOf<C>(table: seq<CheckDecl<C>>): (r: seq<string>)
    ensures |r| == |table|
    ensures forall k :: 0 <= k < |table| ==> r[k] == table[k].id
  {
    Keys(table, IdOf)
  }

  /** No two checks of a table share an id. */
  predicate DistinctIds<C>(table: seq<CheckDecl<C>>)
  {
    forall i, j :: 0 <= i < j < |table| ==> table[i].id != table[j].id
  }

  /** No check of one table shares an id with a check of the other. */
  predicate DisjointIds<C, D>(a: seq<CheckDecl<C>>, b: seq<CheckDecl<D>>)
  {
    forall i, j :: 0 <= i < |a| && 0 <= j < |b| ==> a[i].id != b[j].id
  }

  /** Distinct ids in the id list make a table with distinct ids. */
  lemma DistinctByIds<C>(table: seq<CheckDecl<C>>, ids: seq<string>)
    requires IdsOf(table) == ids
    requires forall i, j :: 0 <= i < j < |ids| ==> ids[i] != ids[j]
    ensures DistinctIds(table)
  {
  }

  /** Id lists with no common element make disjoint tables. */
  lemma DisjointByIds<C, D>(a: seq<CheckDecl<C>>, b: seq<CheckDecl<D>>, aIds: seq<string>, bIds: seq<string>)
    requires IdsOf(a) == aIds && IdsOf(b) == bIds
    requires forall i, j :: 0 <= i < |aIds| && 0 <= j < |bIds| ==> aIds[i] != bIds[j]
    ensures DisjointIds(a, b)
  {
  }
}
