/**
 * The two Joi schemas declared in both item routers: `itemSchema` (create) and
 * `updateItemSchema` (update). Joi validates the schema's keys in declaration
 * order, stops at the first failing rule (abortEarly), and only then rejects
 * members the schema does not declare.
 */
module Schema {
  import opened Wrappers
  import opened Json

  /** `Joi.string().max(255)` on `title`. */
  const MaxTitleLength := 255

  const ItemKeys: set<string> := {"user_id", "title", "description"}
  const UpdateKeys: set<string> := {"title", "description"}

  /** The first failing Joi rule; `key` is the label Joi puts at the head of the message. */
  datatype SchemaError =
    | Required(key: string)    // any.required:   "<key>" is required
    | NotNumber(key: string)   // number.base:    "<key>" must be a number
    | NotInteger(key: string)  // number.integer: "<key>" must be an integer
    | NotString(key: string)   // string.base:    "<key>" must be a string
    | Empty(key: string)       // string.empty:   "<key>" is not allowed to be empty
    | TooLong(key: string)     // string.max:     "<key>" length must be less than or equal to 255 characters long
    | NotAllowed(key: string)  // object.unknown: "<key>" is not allowed

  /** `Joi.number().integer().required()` holds of the field. */
  predicate UserIdOk(f: Option<Value>) {
    f.Some? && f.value.Num? && f.value.n.Floor as real == f.value.n
  }

  /** `Joi.string().min(1).max(255).required()` holds of the field. */
  predicate TitleOk(f: Option<Value>) {
    f.Some? && f.value.Str? && 1 <= |f.value.s| <= MaxTitleLength
  }

  /** `Joi.string().allow('').optional()` holds of the field. */
  predicate DescriptionOk(f: Option<Value>) {
    f.None? || f.value.Str?
  }

  /** Every member of the body is declared by the schema. */
  predicate OnlyKeys(body: Body, keys: set<string>) {
    forall i :: 0 <= i < |body| ==> body[i].0 in keys
  }

  function CheckUserId(f: Option<Value>): (r: Option<SchemaError>)
    ensures r.None? <==> UserIdOk(f)
    ensures r.Some? ==> r.value.key == "user_id"
    ensures f.None? ==> r == Some(Required("user_id"))
    ensures f.Some? && !f.value.Num? ==> r == Some(NotNumber("user_id"))
    ensures f.Some? && f.value.Num? && f.value.n.Floor as real != f.value.n ==> r == Some(NotInteger("user_id"))
  {
    match f
    case None => Some(Required("user_id"))
    case Some(v) =>
      if !v.Num? then Some(NotNumber("user_id"))
      else if v.n.Floor as real != v.n then Some(NotInteger("user_id"))
      else None
  }

  /** The string rules in Joi's order: type, then the empty string, then the length rules
      (`min(1)` can never be the one that fails, since the empty string is caught first). */
  function CheckTitle(f: Option<Value>): (r: Option<SchemaError>)
    ensures r.None? <==> TitleOk(f)
    ensures r.Some? ==> r.value.key == "title"
    ensures f.None? ==> r == Some(Required("title"))
    ensures f.Some? && !f.value.Str? ==> r == Some(NotString("title"))
    ensures f == Some(Str("")) ==> r == Some(Empty("title"))
    ensures f.Some? && f.value.Str? && |f.value.s| > MaxTitleLength ==> r == Some(TooLong("title"))
  {
    match f
    case None => Some(Required("title"))
    case Some(v) =>
      if !v.Str? then Some(NotString("title"))
      else if v.s == "" then Some(Empty("title"))
      else if |v.s| > MaxTitleLength then Some(TooLong("title"))
      else None
  }

  function CheckDescription(f: Option<Value>): (r: Option<SchemaError>)
    ensures r.None? <==> DescriptionOk(f)
    ensures r.Some? ==> r == Some(NotString("description"))
    ensures f == Some(Str("")) ==> r.None?
  {
    match f
    case None => None
    case Some(v) => if v.Str? then None else Some(NotString("description"))
  }

  function CheckKeys(body: Body, keys: set<string>): (r: Option<SchemaError>)
    ensures r.None? <==> OnlyKeys(body, keys)
    ensures r.Some? ==> r.value.NotAllowed? && r.value.key !in keys
    ensures r.Some? ==> exists i :: 0 <= i < |body| && body[i].0 == r.value.key && forall j :: 0 <= j < i ==> body[j].0 in keys
  {
    match FirstUnknown(body, keys)
    case None => None
    case Some(k) => Some(NotAllowed(k))
  }

  /** `itemSchema.validate(body).error`, reduced to its first detail. */
  function ValidateItem(body: Body): (r: Option<SchemaError>)
    ensures r.None? <==>
      && UserIdOk(Field(body, "user_id"))
      && TitleOk(Field(body, "title"))
      && DescriptionOk(Field(body, "description"))
      && OnlyKeys(body, ItemKeys)
    ensures r.Some? && r.value.key == "title" ==> UserIdOk(Field(body, "user_id"))
    ensures r.Some? && r.value.key == "description" ==>
      UserIdOk(Field(body, "user_id")) && TitleOk(Field(body, "title"))
    ensures r.Some? && r.value.NotAllowed? ==>
      && UserIdOk(Field(body, "user_id"))
      && TitleOk(Field(body, "title"))
      && DescriptionOk(Field(body, "description"))
    ensures !UserIdOk(Field(body, "user_id")) ==> r == CheckUserId(Field(body, "user_id"))
    ensures UserIdOk(Field(body, "user_id")) && !TitleOk(Field(body, "title")) ==>
      r == CheckTitle(Field(body, "title"))
    ensures UserIdOk(Field(body, "user_id")) && TitleOk(Field(body, "title")) && !DescriptionOk(Field(body, "description")) ==>
      r == CheckDescription(Field(body, "description"))
    ensures UserIdOk(Field(body, "user_id")) && TitleOk(Field(body, "title")) && DescriptionOk(Field(body, "description")) ==>
      r == CheckKeys(body, ItemKeys)
  {
    var u := CheckUserId(Field(body, "user_id"));
    var t := CheckTitle(Field(body, "title"));
    var d := CheckDescription(Field(body, "description"));
    if u.Some? then u
    else if t.Some? then t
    else if d.Some? then d
    else CheckKeys(body, ItemKeys)
  }

  /** `updateItemSchema.validate(body).error`, reduced to its first detail. */
  function ValidateUpdate(body: Body): (r: Option<SchemaError>)
    ensures r.None? <==>
      && TitleOk(Field(body, "title"))
      && DescriptionOk(Field(body, "description"))
      && OnlyKeys(body, UpdateKeys)
    ensures r.Some? && r.value.key == "description" ==> TitleOk(Field(body, "title"))
    ensures r.Some? && r.value.NotAllowed? ==>
      TitleOk(Field(body, "title")) && DescriptionOk(Field(body, "description"))
    ensures Field(body, "user_id").Some? ==> r.Some?
    ensures !TitleOk(Field(body, "title")) ==> r == CheckTitle(Field(body, "title"))
    ensures TitleOk(Field(body, "title")) && !DescriptionOk(Field(body, "description")) ==>
      r == CheckDescription(Field(body, "description"))
    ensures TitleOk(Field(body, "title")) && DescriptionOk(Field(body, "description")) ==>
      r == CheckKeys(body, UpdateKeys)
  {
    var t := CheckTitle(Field(body, "title"));
    var d := CheckDescription(Field(body, "description"));
    if t.Some? then t
    else if d.Some? then d
    else CheckKeys(body, UpdateKeys)
  }

  /** The length boundary of `title`: 255 characters pass, 256 do not, and the empty string fails as empty. */
  lemma TitleLengthBoundary(s: string)
    ensures |s| == MaxTitleLength ==> CheckTitle(Some(Str(s))).None?
    ensures |s| == MaxTitleLength + 1 ==> CheckTitle(Some(Str(s))) == Some(TooLong("title"))
    ensures |s| == 0 ==> CheckTitle(Some(Str(s))) == Some(Empty("title"))
  {
  }
}
