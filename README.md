# Todo app core: owner-scoped items, legacy items, auth and the item form

This Dafny project models the logic of a multi-user to-do list: an Express backend
over two PostgreSQL relations (`users`, `items`), and the React form that adds and
edits items. Each HTTP request is modelled as one atomic step on a table value.

- `wrappers.dfy`, `json.dfy`: JSON request bodies. A body is its members in written
  order, and a repeated key keeps its last value.
- `schema.dfy`: the two Joi schemas (`itemSchema`, `updateItemSchema`) as fail-fast
  check functions. Whether each accepts a body is proved equal to a declarative
  predicate, and separate postconditions pin which error is reported.
- `items_table.dfy`: the `items` relation, its `SELECT ... ORDER BY id ASC` query,
  and the live table object `ItemsDb` that both routers mutate.
- `scoped_items.dfy`: the router in `src/routes/items.js`. Every statement is
  filtered by the authenticated caller's id, which the model takes as a parameter.
- `legacy_items.dfy`: the router in `items.js`. It has no caller identity. It takes
  the owner from the body and matches update and delete on the id alone. It
  validates bodies with Joi first.
- `auth.dfy`: signup and login. bcrypt and jsonwebtoken are uninterpreted functions,
  carried as fields of a `Crypto` value. The only assumption about them is that a
  digest made from a password verifies against it (`Sound`).
- `form.dfy`: `handleSubmit`, `handleEdit` and `handleCancel` of `App.js`, as a class
  with the three state fields.

Each handler that can change a table is a pure function returning the new table and
the response (`Step`); the read-only ones (`List` and `Auth.Login`) return only the
response. A module-level method taking the live table object (`HandlePut` etc.)
performs the same request in place, and its postcondition ties the new state and
the response to that function.
A driver error is the parameter `fault`: the handler answers 500 and the table is
left as it was.

The model follows the code in these points:
- The scoped router never applies its declared schemas, so it has no 400 path.
- A missing `description` is stored as SQL NULL, not as the empty string.
- No server-side rule limits `description` to 1000 characters. Only the client form does.
- The scoped 404 message is "Item not found or not yours"; the legacy one is "Item not found".
- Signup and login check only that their members are truthy (present and non-empty).

## Model

| member | source | states |
|---|---|---|
| Json.Field | todo_backend/src/routes/items.js:36 | a body member is present iff some member has that key, and its value is the last one written for that key, as JSON.parse keeps |
| Json.FirstUnknown | todo_backend/items.js:7-11 | reports the key of the first member, in written order, that the schema does not declare, and reports none iff every member's key is declared |
| Schema.CheckUserId | todo_backend/items.js:8 | passes iff `user_id` is present and an integral number; a missing one fails as Required, a non-number as NotNumber ("must be a number") and a fractional number as NotInteger ("must be an integer") |
| Schema.CheckTitle | todo_backend/items.js:9 | passes iff `title` is a string of 1 to 255 characters; a missing one fails as Required, a non-string as NotString, "" as Empty, and over 255 as TooLong |
| Schema.CheckDescription | todo_backend/items.js:10 | passes iff `description` is absent or a string, "" included; anything else fails as NotString |
| Schema.CheckKeys | todo_backend/items.js:7-11 | passes iff every member is a declared key; otherwise names the first undeclared member of the body |
| Schema.ValidateItem | todo_backend/items.js:7-11 | no error iff user_id is integral, title is 1..255 chars, description is absent or a string, and no other key is present; the error reported is exactly the failing check of the first invalid key in the order user_id, title, description, then the first unknown key |
| Schema.ValidateUpdate | todo_backend/items.js:14-17 | no error iff title is 1..255 chars, description is absent or a string, and no other key is present; the error reported is that of title, else description, else the first unknown key; any body carrying `user_id` is rejected |
| Schema.TitleLengthBoundary | todo_backend/items.js:9 | a 255-character title passes; 256 fails as TooLong; the empty string fails as Empty |
| ItemsTable.Select | todo_backend/src/routes/items.js:24-27 | returns exactly the selected rows with ids in range, each as stored, in strictly ascending id order |
| ItemsTable.Query | todo_backend/items.js:22 | on a valid table, lists every selected row exactly once, in ascending id order |
| ItemsTable.SelectSkipsUnselected | todo_backend/src/routes/items.js:25 | a row the WHERE clause does not select leaves the result as if the row were absent |
| ScopedItems.List | todo_backend/src/routes/items.js:22-32 | 200 with exactly the caller's rows in ascending id order; 500 on a store error |
| ScopedItems.Create | todo_backend/src/routes/items.js:35-46 | 201 with a row owned by the caller, whose title and description come from the body (absent means NULL); exactly one row is added, under a fresh id above every existing id; the invariant is kept |
| ScopedItems.Update | todo_backend/src/routes/items.js:49-64 | on the caller's own row, sets title and description only and returns it with 200; otherwise 404 "Item not found or not yours" with the table unchanged; ids, owners and every other row never change |
| ScopedItems.Remove | todo_backend/src/routes/items.js:66-80 | removes only the caller's own row and answers `{message: 'Item deleted'}`; otherwise 404 with the table unchanged; remaining rows are unchanged |
| ScopedItems.ForeignRowIsInvisible | todo_backend/src/routes/items.js:53-59 | another user's row gives the same list, update response and delete response as a missing row, and update and delete leave it in place |
| ScopedItems.OthersRowsUntouched | todo_backend/src/routes/items.js:53-76 | on a valid table, no create, update or delete by the caller changes a row that another user owns |
| ScopedItems.SecondDeleteNotFound | todo_backend/src/routes/items.js:69-76 | deleting the same id a second time answers 404 |
| ScopedItems.OwnerNotFromBody | todo_backend/src/routes/items.js:36-40 | two bodies with the same title and description create the same row, whatever else they hold (such as `user_id`) |
| ScopedItems.NoValidationPath | todo_backend/src/routes/items.js:35-64 | create answers only 201 or 500, and update and delete answer only 200, 404 or 500: there is never a 400 |
| ScopedItems.UnvalidatedBodyStored | todo_backend/src/routes/items.js:10-20 | a body that both declared schemas reject (an empty title) is still stored with 201 |
| ScopedItems.HandleGet | todo_backend/src/routes/items.js:22-32 | reads the live table and answers as List |
| ScopedItems.HandlePost | todo_backend/src/routes/items.js:35-46 | the live table and response afterwards are those Create gives for the table before |
| ScopedItems.HandlePut | todo_backend/src/routes/items.js:49-64 | the live table and response afterwards are those Update gives for the table before |
| ScopedItems.HandleDelete | todo_backend/src/routes/items.js:66-80 | the live table and response afterwards are those Remove gives for the table before |
| LegacyItems.OwnerOf | todo_backend/items.js:36-40 | the stored owner equals the body's `user_id` number |
| LegacyItems.List | todo_backend/items.js:20-27 | 200 with every row, whoever owns it, in ascending id order; 500 on a store error |
| LegacyItems.Create | todo_backend/items.js:30-46 | an invalid body answers 400 with the first schema error and no change, even if the store would fail; otherwise 201 with one new row under a fresh id, owned by the body's `user_id` |
| LegacyItems.Update | todo_backend/items.js:49-70 | an invalid body answers 400 with the first error and no change; a missing id answers 404 "Item not found" with no change; otherwise sets title and description of the row with that id, whoever owns it; owner and other rows unchanged |
| LegacyItems.Remove | todo_backend/items.js:73-84 | removes the row with that id, whoever owns it, with 200 `{message: 'Item deleted'}`; a missing id answers 404 with no change |
| LegacyItems.UpdateCannotReassign | todo_backend/items.js:14-17 | an update body naming `user_id` is always refused with 400 and changes nothing |
| LegacyItems.OwnershipNotEnforced | todo_backend/items.js:59-80 | for a row that another user owns, the scoped router keeps it and hides it, while this router lists it, overwrites it, deletes it, and creates rows in any user's name |
| LegacyItems.HandleGet | todo_backend/items.js:20-27 | reads the live table and answers as List |
| LegacyItems.HandlePost | todo_backend/items.js:30-46 | the live table and response afterwards are those Create gives |
| LegacyItems.HandlePut | todo_backend/items.js:49-70 | the live table and response afterwards are those Update gives |
| LegacyItems.HandleDelete | todo_backend/items.js:73-84 | the live table and response afterwards are those Remove gives |
| Auth.FindFrom | todo_backend/auth.js:42-44 | returns the lowest id in the range whose row has that email, or none iff no row in the range has it |
| Auth.Find | todo_backend/auth.js:42-46 | on a valid table, finds the row with that email iff one exists, and that row is the only one |
| Auth.Signup | todo_backend/auth.js:10-33 | a falsy field answers 400 "All fields required"; an exact-match email already present answers 400 "Email already registered"; either way the table is unchanged; otherwise exactly one user is added with the bcrypt digest as password, and the 201 reply holds only id, name and email; the table changes iff the status is 201; email uniqueness is kept |
| Auth.Login | todo_backend/auth.js:36-57 | a falsy field answers 400 "Email and password required"; a 200 reply names a user with that email whose digest verifies; any other answer with both fields truthy and no store error (an unknown email or a failed compare) is 400 "Invalid credentials"; the 200 reply carries a token signed over {userId, email} expiring 7200 s after issue, and that user's public fields; the table is only read |
| Auth.LoginSucceedsIff | todo_backend/auth.js:42-53 | on a valid table, login answers 200 iff both fields are truthy, the store is up, and some user has that email and a digest the password verifies |
| Auth.UnknownEmailLooksLikeWrongPassword | todo_backend/auth.js:42-49 | an unknown email and a wrong password for a known email give the identical 400 "Invalid credentials" |
| Auth.SignupThenLogin | todo_backend/auth.js:22-53 | after a successful signup, logging in with the same email and password answers 200 with a token and profile for the new user |
| Auth.SecondSignupRejected | todo_backend/auth.js:17-19 | after a successful signup, another signup with that email answers 400 "Email already registered" and changes nothing |
| Auth.HandleSignup | todo_backend/auth.js:10-33 | the live users table and response afterwards are those Signup gives |
| Form.Trim | todo-frontend/src/App.js:26 | the result is a slice of the input with only whitespace outside it, starting and ending with non-whitespace, and it is empty iff the input is blank |
| Form.Validate | todo-frontend/src/App.js:26-37 | passes iff title and description are non-null, the title is not blank and has at most 255 chars, and the description has at most 1000; a blank title, a title over 255 chars and a description over 1000 chars each get their own alert, in source order, stopping at the first failure; reading a null field throws |
| Form.BodyOf | todo-frontend/src/App.js:40-44 | the JSON sent carries the form's title and description; the add body carries `user_id`, the update body none |
| Form.FormState.constructor | todo-frontend/src/App.js:18-20 | the form starts with `editId` null and title and description "" |
| Form.FormState.Submit | todo-frontend/src/App.js:23-51 | a failed check alerts or throws and changes nothing; otherwise it sends an update for a truthy `editId`, or an add with `user_id` 1; on success the form resets to null/""/"", and on error it is unchanged |
| Form.FormState.Edit | todo-frontend/src/App.js:54-58 | copies the item's id, title and description into the form |
| Form.FormState.Cancel | todo-frontend/src/App.js:61-65 | resets `editId` to null and both fields to "" |
| Form.TitleBoundary | todo-frontend/src/App.js:30-33 | a non-blank 255-character title is accepted, despite the "less than 255" message; 256 is refused |
| Form.SentRequestsPassSchema | todo-frontend/src/App.js:40-44 | every add or update body the form sends passes the legacy server's Joi schema |
| Form.ClientStricterThanSchema | todo-frontend/src/App.js:26-37 | for every title and description: a non-empty blank title of at most 255 chars, and a description over 1000 chars under a valid title, are refused by the form, yet `updateItemSchema` accepts the body sent for them |

## Left out

- The token middleware (`authenticateToken`) and the auth router it is mounted with are not part of this model. The scoped handlers take the verified user id as a parameter, and token verification and expiry checks are not modelled.
- Express routing, CORS, port listening, the pg pool configuration, and the JSX rendering of `App.js` are not modelled. This includes the `maxLength` input limits of the text fields.
- Driver errors are the `fault` parameter, answered with 500 and no change. The error text (`err.message`) is abstract.
- The `:id` path segment is modelled as an integer. A segment that does not parse as one makes PostgreSQL raise an error, which is not modelled.
- Column types and constraints of the two relations are unknown. A stored title or description is the JSON value the handler passed. The model does not cover node-postgres's text rendering of numbers, booleans and objects, or a NOT NULL or foreign-key violation, beyond what `fault` covers.
- Serial values used up by failed inserts are not modelled. The next id is always one above the last one handed out.
- Schema.CheckUserId: Joi's conversion of numeric strings (such as "7") to numbers, and its safe-integer range check, are not modelled. The model rejects such a string and accepts every integral number.
- Schema.CheckKeys: when several undeclared keys are present, the model names the first in written order. JavaScript lists integer-like keys first.
- Json.Value: a JSON number is kept as the exact decimal written. JSON.parse rounds it to a double first, so `1.0000000000000001` becomes `1`, which Joi's `integer()` accepts and the legacy router stores as owner 1; the model rejects it as NotInteger. Rounding at parse time is not modelled.
- Bodies that are JSON arrays rather than objects are not modelled.
- Schema.CheckTitle: lengths count Unicode characters. JavaScript counts UTF-16 code units, so the two differ for characters outside the Basic Multilingual Plane.
- Form.Validate: the title limit (255) and the description limit (1000) are checked on Unicode characters. JavaScript's `length` counts UTF-16 code units, so a title of 128 characters outside the Basic Multilingual Plane (such as U+1F600) is 256 units long and gets "Title must be less than 255 characters" in the browser, while the model passes it; the same gap applies to a description near 1000.
- Auth bodies are modelled with string or missing members only. The behaviour of bcrypt and jsonwebtoken on numbers, booleans or objects is not modelled.
- bcrypt and jsonwebtoken internals are not modelled. The salt and the clock (`iat`, whole seconds) are parameters. The signing key is the constant `TARUN_SECRET`.
- The signup race between the duplicate check and the insert is not modelled, and neither are pooled connections: each request is one atomic step.
- Auth.Login: when several rows share an email (impossible in a valid table), the model picks the lowest id. SQL without ORDER BY picks any of them.
- Form.FormState.Submit: the text of the alert after a failed request, and the list refresh that the items context performs after a call, are not modelled.
