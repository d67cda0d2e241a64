/** What a caller of the concurrent map may rely on: a plain table and one atomic effect per call.

    A stored value is a heap cell, as in the source (`&value`, `&ic`, `&nc`, `&i`); pointer comparison is
    cell identity.  A call stores at most one cell, so a cell is named by the call that made it. */
module MapSpec {
  import opened Basics

  type Key(==, !new)
  type Val(==, !new)
  type CallId = nat

  datatype Cell = Cell(maker: CallId, val: Val)
  type Table = map<Key, Cell>

  datatype Kind = Load | Swap | LoadOrStore | LoadAndDelete | CompareAndSwap | CompareAndDelete | Range

  function Get(t: Table, k: Key): Option<Cell> {
    if k in t then Some(t[k]) else None
  }

  /** Does a call of this kind change the table when it finds `prev` under its key?  CompareAndSwap and
      CompareAndDelete ignore their `old` argument, so for them presence alone decides. */
  predicate Writes(kind: Kind, prev: Option<Cell>) {
    match kind
    case Load => false
    case Range => false
    case Swap => true
    case LoadOrStore => prev.None?
    case LoadAndDelete => prev.Some?
    case CompareAndSwap => prev.Some?
    case CompareAndDelete => prev.Some?
  }

  predicate Deletes(kind: Kind) {
    kind.LoadAndDelete? || kind.CompareAndDelete?
  }

  /** The table after call `c` has taken effect on `t`. */
  function Apply(kind: Kind, k: Key, v: Val, c: CallId, t: Table): Table {
    if !Writes(kind, Get(t, k)) then t
    else if Deletes(kind) then t - {k}
    else t[k := Cell(c, v)]
  }
}
