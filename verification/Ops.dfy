/** The statements the simulation sends: sim/workload.hpp's Op and the two
    clauses the oracle needs from it. */
module Ops {
  import opened Text

  datatype Kind =
    | CreateTable | Insert | SelectPk | SelectRange | FilterScan | Sync
    | Update | Delete | Begin | Commit | Rollback | CreateCabin | CreatePattern

  /** One operation: its text and the fields the oracle reads. */
  datatype Op = Op(
    kind: Kind, table: string, sql: string,
    key: U64, lo: U64, hi: U64, v: I64, name: string, btree: bool,
    byPk: bool, predV: I64, setName: bool)

  /** `id = key` when byPk, else `v = v`. */
  datatype Where = Where(byPk: bool, key: U64, v: int)

  /** What an UPDATE's SET assigns. */
  datatype Assignment = Assignment(setName: bool, v: int, name: string)

  datatype Row = Row(v: int, name: string)

  type Rows = map<U64, Row>
  type Tables = map<string, Rows>
  type IdSets = map<string, set<U64>>

  /** Reads and writes of rows. */
  predicate IsData(k: Kind) {
    k.Insert? || k.Update? || k.Delete? || k.SelectPk? || k.SelectRange? || k.FilterScan?
  }

  predicate IsEnd(k: Kind) {
    k.Commit? || k.Rollback?
  }

  predicate IsDecl(k: Kind) {
    k.CreateCabin? || k.CreatePattern?
  }

  /** What a declaration declares: a Cabin by its table, a pattern by its body, the text from
      the end of its parameter list on. */
  datatype Declaration = CabinOn(table: string) | PatternOf(body: string)

  function DeclOf(op: Op): Declaration {
    if op.kind.CreateCabin? then CabinOn(op.table) else PatternOf(op.sql[Find(op.sql, ')', 0)..])
  }

  function PredicateOf(op: Op): Where {
    Where(op.byPk, op.key, op.predV)
  }

  predicate Matches(where: Where, id: U64, row: Row) {
    if where.byPk then id == where.key else row.v == where.v
  }

  function Assigned(row: Row, set_: Assignment): Row {
    if set_.setName then row.(name := set_.name) else row.(v := set_.v)
  }

  function MatchingIds(rows: Rows, where: Where): set<U64> {
    set id | id in rows && Matches(where, id, rows[id])
  }

  function UpdatedRows(rows: Rows, where: Where, set_: Assignment): Rows {
    map id | id in rows :: if Matches(where, id, rows[id]) then Assigned(rows[id], set_) else rows[id]
  }

  function DeletedRows(rows: Rows, where: Where): Rows {
    map id | id in rows && !Matches(where, id, rows[id]) :: rows[id]
  }

  /** The rows of a relation; a relation nobody created reads as empty. */
  function RowsIn(tables: Tables, table: string): Rows {
    if table in tables then tables[table] else map[]
  }

  function IdsIn(ids: IdSets, table: string): set<U64> {
    if table in ids then ids[table] else {}
  }

  function AddId(ids: IdSets, table: string, id: U64): IdSets {
    ids[table := IdsIn(ids, table) + {id}]
  }

  function AddIds(ids: IdSets, table: string, more: set<U64>): IdSets {
    if more == {} then ids else ids[table := IdsIn(ids, table) + more]
  }
}
