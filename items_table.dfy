/**
 * The `items` relation that both item routers query: rows keyed by a serial id,
 * each holding its owner (`user_id`), `title` and `description`.
 */
module ItemsTable {
  import opened Wrappers
  import opened Json
  import opened Schema

  datatype Row = Row(owner: int, title: Value, description: Value)

  /** A row as `RETURNING *` and `SELECT *` hand it back. */
  datatype Item = Item(id: int, owner: int, title: Value, description: Value)

  /** The table's value: its rows and the next value of the serial id sequence. */
  datatype Table = Table(rows: map<int, Row>, nextId: int)

  /** Serial ids start at 1 and every stored id was drawn before `nextId`. */
  ghost predicate Valid(t: Table) {
    t.nextId >= 1 && forall id :: id in t.rows ==> 1 <= id < t.nextId
  }

  function ItemOf(id: int, row: Row): Item {
    Item(id, row.owner, row.title, row.description)
  }

  function RowOf(item: Item): Row {
    Row(item.owner, item.title, item.description)
  }

  /** A handler parameter as node-postgres binds it: `undefined` becomes SQL NULL. */
  function Cell(f: Option<Value>): Value {
    if f.Some? then f.value else Null
  }

  /** The WHERE clause of a SELECT: every row, or `user_id = $1`. */
  datatype Filter = Everyone | OwnedBy(user: int)

  predicate Selects(f: Filter, row: Row) {
    f.Everyone? || row.owner == f.user
  }

  /** `r` lists exactly the rows of `rows` that `f` selects, each once, in ascending id order. */
  ghost predicate Lists(r: seq<Item>, rows: map<int, Row>, f: Filter) {
    && (forall k :: 0 <= k < |r| ==> r[k].id in rows && Selects(f, rows[r[k].id]) && r[k] == ItemOf(r[k].id, rows[r[k].id]))
    && (forall j, k :: 0 <= j < k < |r| ==> r[j].id < r[k].id)
    && (forall id :: id in rows && Selects(f, rows[id]) ==> ItemOf(id, rows[id]) in r)
  }

  /** The selected rows with ids in [lo, hi), in ascending id order. */
  function Select(rows: map<int, Row>, f: Filter, lo: int, hi: int): (r: seq<Item>)
    ensures forall k :: 0 <= k < |r| ==>
      lo <= r[k].id < hi && r[k].id in rows && Selects(f, rows[r[k].id]) && r[k] == ItemOf(r[k].id, rows[r[k].id])
    ensures forall j, k :: 0 <= j < k < |r| ==> r[j].id < r[k].id
    ensures forall id :: lo <= id < hi && id in rows && Selects(f, rows[id]) ==> ItemOf(id, rows[id]) in r
    decreases hi - lo
  {
    if hi <= lo then []
    else
      var rest := Select(rows, f, lo + 1, hi);
      if lo in rows && Selects(f, rows[lo]) then
        [ItemOf(lo, rows[lo])] + rest
      else rest
  }

  /** `SELECT * FROM items [WHERE ...] ORDER BY id ASC`. */
  function Query(t: Table, f: Filter): (r: seq<Item>)
    ensures Valid(t) ==> Lists(r, t.rows, f)
  {
    Select(t.rows, f, 1, t.nextId)
  }

  /** A row that the filter does not select leaves the query result as if the row were absent. */
  lemma {:induction false} SelectSkipsUnselected(rows: map<int, Row>, f: Filter, lo: int, hi: int, id: int)
    requires id in rows && !Selects(f, rows[id])
    ensures Select(rows, f, lo, hi) == Select(rows - {id}, f, lo, hi)
    decreases hi - lo
  {
    if lo < hi {
      SelectSkipsUnselected(rows, f, lo + 1, hi, id);
    }
  }

  /** What a handler sends back: the JSON payload it passes to `res.json`. */
  datatype Payload =
    | RowList(rows: seq<Item>)   // result.rows
    | OneRow(row: Item)          // result.rows[0]
    | Message(message: string)   // { message: ... }
    | Error(error: string)       // { error: ... }
    | Rejected(reason: SchemaError)  // { error: error.details[0].message }
    | StoreFailure               // { error: err.message } from the driver

  datatype Response = Response(status: int, payload: Payload)

  const ServerError := Response(500, StoreFailure)

  /** The table after a request, and the response sent. */
  datatype Step = Step(table: Table, response: Response)

  /** The live table, shared by both routers; each request is one atomic statement on it. */
  class ItemsDb {
    var rows: map<int, Row>
    var nextId: int

    constructor ()
      ensures State() == Table(map[], 1) && Valid(State())
    {
      rows := map[];
      nextId := 1;
    }

    function State(): Table
      reads this
    {
      Table(rows, nextId)
    }
  }
}
