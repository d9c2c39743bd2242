/**
 * The owner-scoped item router (`src/routes/items.js`). Every request arrives with
 * the caller's verified user id (the token middleware is not part of this model),
 * and every statement filters on it: `WHERE user_id = $1`, `WHERE id = $3 AND
 * user_id = $4`. The body is read for `title` and `description` only, and neither
 * declared Joi schema is ever applied. `fault` stands for a driver error, which
 * the handlers turn into a 500 with the table untouched.
 */
module ScopedItems {
  import opened Wrappers
  import opened Json
  import opened Schema
  import opened ItemsTable

  const NotYours := "Item not found or not yours"
  const Deleted := "Item deleted"

  /** The row `id` exists and belongs to `user`: the only row an UPDATE or DELETE may touch. */
  predicate Owns(t: Table, user: int, id: int) {
    id in t.rows && t.rows[id].owner == user
  }

  /** The table with row `id` dropped: what the caller would see if the row did not exist. */
  function Without(t: Table, id: int): Table {
    t.(rows := t.rows - {id})
  }

  /** GET /items */
  function List(t: Table, user: int, fault: bool): (r: Response)
    ensures fault ==> r == ServerError
    ensures !fault ==> r.status == 200 && r.payload.RowList?
    ensures !fault && Valid(t) ==> Lists(r.payload.rows, t.rows, OwnedBy(user))
  {
    if fault then ServerError else Response(200, RowList(Query(t, OwnedBy(user))))
  }

  /** POST /items: the owner is the caller; only `title` and `description` are read from the body. */
  function Create(t: Table, user: int, body: Body, fault: bool): (s: Step)
    ensures fault ==> s == Step(t, ServerError)
    ensures !fault ==>
      && s.response.status == 201
      && s.response.payload.OneRow?
      && s.response.payload.row.owner == user
      && s.response.payload.row.title == Cell(Field(body, "title"))
      && s.response.payload.row.description == Cell(Field(body, "description"))
      && s.table.rows == t.rows[s.response.payload.row.id := RowOf(s.response.payload.row)]
    ensures !fault && Valid(t) ==>
      && s.response.payload.OneRow?
      && s.response.payload.row.id !in t.rows
      && (forall id :: id in t.rows ==> id < s.response.payload.row.id)
    ensures Valid(t) ==> Valid(s.table)
  {
    if fault then Step(t, ServerError)
    else
      var row := Row(user, Cell(Field(body, "title")), Cell(Field(body, "description")));
      Step(Table(t.rows[t.nextId := row], t.nextId + 1), Response(201, OneRow(ItemOf(t.nextId, row))))
  }

  /** PUT /items/:id: sets title and description of the caller's own row only. */
  function Update(t: Table, user: int, id: int, body: Body, fault: bool): (s: Step)
    ensures fault ==> s == Step(t, ServerError)
    ensures !fault && !Owns(t, user, id) ==> s == Step(t, Response(404, Error(NotYours)))
    ensures !fault && Owns(t, user, id) ==>
      && s.table.nextId == t.nextId
      && s.table.rows.Keys == t.rows.Keys
      && s.table.rows[id] == Row(user, Cell(Field(body, "title")), Cell(Field(body, "description")))
      && (forall k :: k in t.rows && k != id ==> s.table.rows[k] == t.rows[k])
      && s.response == Response(200, OneRow(ItemOf(id, s.table.rows[id])))
    ensures forall k :: k in s.table.rows <==> k in t.rows
    ensures forall k :: k in t.rows ==> s.table.rows[k].owner == t.rows[k].owner
    ensures Valid(t) ==> Valid(s.table)
  {
    if fault then Step(t, ServerError)
    else if Owns(t, user, id) then
      var row := Row(user, Cell(Field(body, "title")), Cell(Field(body, "description")));
      Step(t.(rows := t.rows[id := row]), Response(200, OneRow(ItemOf(id, row))))
    else Step(t, Response(404, Error(NotYours)))
  }

  /** DELETE /items/:id: removes the caller's own row only. */
  function Remove(t: Table, user: int, id: int, fault: bool): (s: Step)
    ensures fault ==> s == Step(t, ServerError)
    ensures !fault && !Owns(t, user, id) ==> s == Step(t, Response(404, Error(NotYours)))
    ensures !fault && Owns(t, user, id) ==>
      && s.table == Without(t, id)
      && s.response == Response(200, Message(Deleted))
    ensures s.table.rows.Keys <= t.rows.Keys
    ensures forall k :: k in s.table.rows ==> s.table.rows[k] == t.rows[k]
    ensures Valid(t) ==> Valid(s.table)
  {
    if fault then Step(t, ServerError)
    else if Owns(t, user, id) then Step(Without(t, id), Response(200, Message(Deleted)))
    else Step(t, Response(404, Error(NotYours)))
  }

  /**
   * Ownership isolation: a row that belongs to someone else behaves, for every
   * operation of the caller, exactly as a row that does not exist, and the
   * caller's requests leave it as it was.
   */
  lemma ForeignRowIsInvisible(t: Table, user: int, id: int, body: Body, fault: bool)
    requires id in t.rows && t.rows[id].owner != user
    ensures List(t, user, fault) == List(Without(t, id), user, fault)
    ensures Update(t, user, id, body, fault).response == Update(Without(t, id), user, id, body, fault).response
    ensures Remove(t, user, id, fault).response == Remove(Without(t, id), user, id, fault).response
    ensures Update(t, user, id, body, fault).table == t
    ensures Remove(t, user, id, fault).table == t
  {
    SelectSkipsUnselected(t.rows, OwnedBy(user), 1, t.nextId, id);
  }

  /** A caller's requests never change a row that another user owns. */
  lemma OthersRowsUntouched(t: Table, user: int, id: int, body: Body, fault: bool, k: int)
    requires Valid(t)
    requires k in t.rows && t.rows[k].owner != user
    ensures Update(t, user, id, body, fault).table.rows[k] == t.rows[k]
    ensures k in Remove(t, user, id, fault).table.rows && Remove(t, user, id, fault).table.rows[k] == t.rows[k]
    ensures k in Create(t, user, body, fault).table.rows && Create(t, user, body, fault).table.rows[k] == t.rows[k]
  {
  }

  /** Deleting twice: the second DELETE of the same id finds nothing. */
  lemma SecondDeleteNotFound(t: Table, user: int, id: int)
    ensures Remove(Remove(t, user, id, false).table, user, id, false).response == Response(404, Error(NotYours))
  {
  }

  /** A member such as `user_id` in the body has no effect: only title and description are read. */
  lemma OwnerNotFromBody(t: Table, user: int, b1: Body, b2: Body, fault: bool)
    requires Field(b1, "title") == Field(b2, "title")
    requires Field(b1, "description") == Field(b2, "description")
    ensures Create(t, user, b1, fault) == Create(t, user, b2, fault)
  {
  }

  /** No handler has a 400 path: neither declared schema is ever consulted. */
  lemma NoValidationPath(t: Table, user: int, id: int, body: Body, fault: bool)
    ensures Create(t, user, body, fault).response.status in {201, 500}
    ensures Update(t, user, id, body, fault).response.status in {200, 404, 500}
    ensures Remove(t, user, id, fault).response.status in {200, 404, 500}
  {
  }

  /** A body that both declared schemas reject (an empty title) is still stored. */
  lemma UnvalidatedBodyStored(t: Table, user: int)
    ensures ValidateItem([("title", Str(""))]) == Some(Required("user_id"))
    ensures ValidateUpdate([("title", Str(""))]) == Some(Empty("title"))
    ensures Create(t, user, [("title", Str(""))], false).response.status == 201
    ensures Create(t, user, [("title", Str(""))], false).response.payload.row.title == Str("")
  {
  }

  method HandleGet(db: ItemsDb, user: int, fault: bool) returns (resp: Response)
    ensures resp == List(db.State(), user, fault)
  {
    if fault {
      resp := ServerError;
    } else {
      resp := Response(200, RowList(Query(db.State(), OwnedBy(user))));
    }
  }

  method HandlePost(db: ItemsDb, user: int, body: Body, fault: bool) returns (resp: Response)
    modifies db
    ensures Step(db.State(), resp) == Create(old(db.State()), user, body, fault)
  {
    if fault {
      resp := ServerError;
      return;
    }
    var row := Row(user, Cell(Field(body, "title")), Cell(Field(body, "description")));
    var id := db.nextId;
    db.rows := db.rows[id := row];
    db.nextId := id + 1;
    resp := Response(201, OneRow(ItemOf(id, row)));
  }

  method HandlePut(db: ItemsDb, user: int, id: int, body: Body, fault: bool) returns (resp: Response)
    modifies db
    ensures Step(db.State(), resp) == Update(old(db.State()), user, id, body, fault)
  {
    if fault {
      resp := ServerError;
    } else if id in db.rows && db.rows[id].owner == user {
      var row := Row(user, Cell(Field(body, "title")), Cell(Field(body, "description")));
      db.rows := db.rows[id := row];
      resp := Response(200, OneRow(ItemOf(id, row)));
    } else {
      resp := Response(404, Error(NotYours));
    }
  }

  method HandleDelete(db: ItemsDb, user: int, id: int, fault: bool) returns (resp: Response)
    modifies db
    ensures Step(db.State(), resp) == Remove(old(db.State()), user, id, fault)
  {
    if fault {
      resp := ServerError;
    } else if id in db.rows && db.rows[id].owner == user {
      db.rows := db.rows - {id};
      resp := Response(200, Message(Deleted));
    } else {
      resp := Response(404, Error(NotYours));
    }
  }
}
