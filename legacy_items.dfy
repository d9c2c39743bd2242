/**
 * The earlier, unscoped item router (`items.js`). There is no caller identity:
 * the owner of a new row is the `user_id` member of the body, and UPDATE and
 * DELETE match on the id alone. Unlike the scoped router it applies the Joi
 * schemas, before any statement runs (outside the try block, so a 400 is
 * answered even when the store would have failed).
 */
module LegacyItems {
  import opened Wrappers
  import opened Json
  import opened Schema
  import opened ItemsTable
  import ScopedItems

  const NotFound := "Item not found"
  const Deleted := "Item deleted"

  /** The integer `user_id` of a body that `itemSchema` accepted. */
  function OwnerOf(body: Body): (owner: int)
    requires UserIdOk(Field(body, "user_id"))
    ensures owner as real == Field(body, "user_id").value.n
  {
    Field(body, "user_id").value.n.Floor
  }

  /** GET /items: every row, whoever owns it. */
  function List(t: Table, fault: bool): (r: Response)
    ensures fault ==> r == ServerError
    ensures !fault ==> r.status == 200 && r.payload.RowList?
    ensures !fault && Valid(t) ==> Lists(r.payload.rows, t.rows, Everyone)
  {
    if fault then ServerError else Response(200, RowList(Query(t, Everyone)))
  }

  /** POST /items: validate with `itemSchema`, then insert with the owner the body names. */
  function Create(t: Table, body: Body, fault: bool): (s: Step)
    ensures ValidateItem(body).Some? ==> s == Step(t, Response(400, Rejected(ValidateItem(body).value)))
    ensures ValidateItem(body).None? && fault ==> s == Step(t, ServerError)
    ensures ValidateItem(body).None? && !fault ==>
      && s.response.status == 201
      && s.response.payload.OneRow?
      && s.response.payload.row.owner as real == Field(body, "user_id").value.n
      && s.response.payload.row.title == Field(body, "title").value
      && s.response.payload.row.description == Cell(Field(body, "description"))
      && s.table.rows == t.rows[s.response.payload.row.id := RowOf(s.response.payload.row)]
    ensures ValidateItem(body).None? && !fault && Valid(t) ==>
      && s.response.payload.OneRow?
      && s.response.payload.row.id !in t.rows
      && (forall id :: id in t.rows ==> id < s.response.payload.row.id)
    ensures Valid(t) ==> Valid(s.table)
  {
    match ValidateItem(body)
    case Some(e) => Step(t, Response(400, Rejected(e)))
    case None =>
      if fault then Step(t, ServerError)
      else
        var row := Row(OwnerOf(body), Field(body, "title").value, Cell(Field(body, "description")));
        Step(Table(t.rows[t.nextId := row], t.nextId + 1), Response(201, OneRow(ItemOf(t.nextId, row))))
  }

  /** PUT /items/:id: validate with `updateItemSchema`, then update the row with that id, whoever owns it. */
  function Update(t: Table, id: int, body: Body, fault: bool): (s: Step)
    ensures ValidateUpdate(body).Some? ==> s == Step(t, Response(400, Rejected(ValidateUpdate(body).value)))
    ensures ValidateUpdate(body).None? && fault ==> s == Step(t, ServerError)
    ensures ValidateUpdate(body).None? && !fault && id !in t.rows ==> s == Step(t, Response(404, Error(NotFound)))
    ensures ValidateUpdate(body).None? && !fault && id in t.rows ==>
      && s.table.nextId == t.nextId
      && s.table.rows.Keys == t.rows.Keys
      && s.table.rows[id] == Row(t.rows[id].owner, Field(body, "title").value, Cell(Field(body, "description")))
      && (forall k :: k in t.rows && k != id ==> s.table.rows[k] == t.rows[k])
      && s.response == Response(200, OneRow(ItemOf(id, s.table.rows[id])))
    ensures forall k :: k in s.table.rows <==> k in t.rows
    ensures forall k :: k in t.rows ==> s.table.rows[k].owner == t.rows[k].owner
    ensures Valid(t) ==> Valid(s.table)
  {
    match ValidateUpdate(body)
    case Some(e) => Step(t, Response(400, Rejected(e)))
    case None =>
      if fault then Step(t, ServerError)
      else if id in t.rows then
        var row := t.rows[id].(title := Field(body, "title").value, description := Cell(Field(body, "description")));
        Step(t.(rows := t.rows[id := row]), Response(200, OneRow(ItemOf(id, row))))
      else Step(t, Response(404, Error(NotFound)))
  }

  /** DELETE /items/:id: removes the row with that id, whoever owns it. */
  function Remove(t: Table, id: int, fault: bool): (s: Step)
    ensures fault ==> s == Step(t, ServerError)
    ensures !fault && id !in t.rows ==> s == Step(t, Response(404, Error(NotFound)))
    ensures !fault && id in t.rows ==>
      && s.table.rows == t.rows - {id}
      && s.table.nextId == t.nextId
      && s.response == Response(200, Message(Deleted))
    ensures Valid(t) ==> Valid(s.table)
  {
    if fault then Step(t, ServerError)
    else if id in t.rows then Step(t.(rows := t.rows - {id}), Response(200, Message(Deleted)))
    else Step(t, Response(404, Error(NotFound)))
  }

  /** An update body can never move a row to another owner: `user_id` is not a declared key. */
  lemma UpdateCannotReassign(t: Table, id: int, body: Body, fault: bool)
    requires Field(body, "user_id").Some?
    ensures Update(t, id, body, fault) == Step(t, Response(400, Rejected(ValidateUpdate(body).value)))
  {
  }

  /**
   * Isolation fails here. For a row that `user` does not own, the scoped router
   * answers 404 and keeps it, while this router lists it, overwrites it and
   * deletes it; and any body may create a row in `user`'s name.
   */
  lemma OwnershipNotEnforced(t: Table, user: int, id: int, body: Body)
    requires Valid(t)
    requires id in t.rows && t.rows[id].owner != user
    requires ValidateUpdate(body).None?
    ensures ScopedItems.Remove(t, user, id, false).table == t
    ensures ScopedItems.Update(t, user, id, body, false).table == t
    ensures ItemOf(id, t.rows[id]) in List(t, false).payload.rows
    ensures ItemOf(id, t.rows[id]) !in ScopedItems.List(t, user, false).payload.rows
    ensures Remove(t, id, false).table.rows == t.rows - {id}
    ensures Update(t, id, body, false).table.rows[id].title == Field(body, "title").value
    ensures var b := [("user_id", Num(user as real)), ("title", Str("x"))];
      && ValidateItem(b).None?
      && Create(t, b, false).response.payload.OneRow?
      && Create(t, b, false).response.payload.row.owner == user
  {
    var b := [("user_id", Num(user as real)), ("title", Str("x"))];
    assert Field(b, "user_id") == Some(Num(user as real));
    assert Field(b, "title") == Some(Str("x"));
    assert Field(b, "description") == None;
    assert OnlyKeys(b, ItemKeys);
  }

  method HandleGet(db: ItemsDb, fault: bool) returns (resp: Response)
    ensures resp == List(db.State(), fault)
  {
    if fault {
      resp := ServerError;
    } else {
      resp := Response(200, RowList(Query(db.State(), Everyone)));
    }
  }

  method HandlePost(db: ItemsDb, body: Body, fault: bool) returns (resp: Response)
    modifies db
    ensures Step(db.State(), resp) == Create(old(db.State()), body, fault)
  {
    var error := ValidateItem(body);
    if error.Some? {
      resp := Response(400, Rejected(error.value));
      return;
    }
    if fault {
      resp := ServerError;
      return;
    }
    var row := Row(OwnerOf(body), Field(body, "title").value, Cell(Field(body, "description")));
    var id := db.nextId;
    db.rows := db.rows[id := row];
    db.nextId := id + 1;
    resp := Response(201, OneRow(ItemOf(id, row)));
  }

  method HandlePut(db: ItemsDb, id: int, body: Body, fault: bool) returns (resp: Response)
    modifies db
    ensures Step(db.State(), resp) == Update(old(db.State()), id, body, fault)
  {
    var error := ValidateUpdate(body);
    if error.Some? {
      resp := Response(400, Rejected(error.value));
    } else if fault {
      resp := ServerError;
    } else if id in db.rows {
      var row := db.rows[id].(title := Field(body, "title").value, description := Cell(Field(body, "description")));
      db.rows := db.rows[id := row];
      resp := Response(200, OneRow(ItemOf(id, row)));
    } else {
      resp := Response(404, Error(NotFound));
    }
  }

  method HandleDelete(db: ItemsDb, id: int, fault: bool) returns (resp: Response)
    modifies db
    ensures Step(db.State(), resp) == Remove(old(db.State()), id, fault)
  {
    if fault {
      resp := ServerError;
    } else if id in db.rows {
      db.rows := db.rows - {id};
      resp := Response(200, Message(Deleted));
    } else {
      resp := Response(404, Error(NotFound));
    }
  }
}
