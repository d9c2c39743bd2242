/**
 * The item form of the client (`App.js`): three pieces of state, `editId`,
 * `title` and `description`, changed by `handleSubmit`, `handleEdit` and
 * `handleCancel`. `title` and `description` hold whatever `handleEdit` copied
 * from a listed item, which may be null (`None`) for a NULL column; reading
 * `.trim()` or `.length` of null throws a TypeError, and the submit stops there.
 */
module Form {
  import opened Wrappers
  import Json
  import Schema

  const MaxTitleLength := 255
  const MaxDescriptionLength := 1000

  const TitleRequired := "Title is required"
  const TitleTooLong := "Title must be less than 255 characters"
  const DescriptionTooLong := "Description is too long"

  /** The characters String.prototype.trim strips: ECMAScript WhiteSpace and LineTerminator. */
  predicate IsWhitespace(c: char) {
    || c == '\t' || c == '\n' || c == '\U{B}' || c == '\U{C}' || c == '\r' || c == ' '
    || c == '\U{A0}' || c == '\U{1680}' || ('\U{2000}' <= c <= '\U{200A}')
    || c == '\U{2028}' || c == '\U{2029}' || c == '\U{202F}' || c == '\U{205F}'
    || c == '\U{3000}' || c == '\U{FEFF}'
  }

  predicate Blank(s: string) {
    forall i :: 0 <= i < |s| ==> IsWhitespace(s[i])
  }

  /** Index of the first character at or after `i` that is not whitespace (or `|s|`). */
  function SkipLeading(s: string, i: nat): (k: nat)
    requires i <= |s|
    ensures i <= k <= |s|
    ensures forall m :: i <= m < k ==> IsWhitespace(s[m])
    ensures k == |s| || !IsWhitespace(s[k])
    decreases |s| - i
  {
    if i < |s| && IsWhitespace(s[i]) then SkipLeading(s, i + 1) else i
  }

  /** End of `s[lo..j]` once its trailing whitespace is dropped. */
  function SkipTrailing(s: string, lo: nat, j: nat): (k: nat)
    requires lo <= j <= |s|
    ensures lo <= k <= j
    ensures forall m :: k <= m < j ==> IsWhitespace(s[m])
    ensures k == lo || !IsWhitespace(s[k - 1])
    decreases j
  {
    if lo < j && IsWhitespace(s[j - 1]) then SkipTrailing(s, lo, j - 1) else j
  }

  /** `s.trim()`: the slice of `s` left once the whitespace at both ends is removed; empty exactly when `s` is blank. */
  function Trim(s: string): (r: string)
    ensures exists i, j :: 0 <= i <= j <= |s| && r == s[i..j] && forall m :: 0 <= m < |s| && !(i <= m < j) ==> IsWhitespace(s[m])
    ensures r != "" ==> !IsWhitespace(r[0]) && !IsWhitespace(r[|r| - 1])
    ensures r == "" <==> Blank(s)
  {
    var i := SkipLeading(s, 0);
    var j := SkipTrailing(s, i, |s|);
    assert i < j ==> s[i..j][0] == s[i] && s[i..j][j - i - 1] == s[j - 1];
    s[i..j]
  }

  /** Result of the validation chain at the head of `handleSubmit`. */
  datatype Check = Pass | Alert(message: string) | Crash

  /** The checks in source order, stopping at the first that fails. */
  function Validate(title: Option<string>, description: Option<string>): (r: Check)
    ensures r == Pass <==>
      && title.Some? && description.Some?
      && !Blank(title.value) && |title.value| <= MaxTitleLength
      && |description.value| <= MaxDescriptionLength
    ensures title.Some? && Blank(title.value) ==> r == Alert(TitleRequired)
    ensures title.Some? && !Blank(title.value) && |title.value| > MaxTitleLength ==> r == Alert(TitleTooLong)
    ensures (title.Some? && !Blank(title.value) && |title.value| <= MaxTitleLength
             && description.Some? && |description.value| > MaxDescriptionLength) ==> r == Alert(DescriptionTooLong)
    ensures r == Alert(DescriptionTooLong) ==>
      title.Some? && !Blank(title.value) && |title.value| <= MaxTitleLength && description.Some?
    ensures r == Crash <==>
      title.None? || (!Blank(title.value) && |title.value| <= MaxTitleLength && description.None?)
  {
    if title.None? then Crash
    else if Trim(title.value) == "" then Alert(TitleRequired)
    else if |title.value| > MaxTitleLength then Alert(TitleTooLong)
    else if description.None? then Crash
    else if |description.value| > MaxDescriptionLength then Alert(DescriptionTooLong)
    else Pass
  }

  /** The call `handleSubmit` makes through the items context. */
  datatype Request =
    | UpdateItem(id: int, title: string, description: string)    // updateItem(editId, { title, description })
    | AddItem(userId: int, title: string, description: string)   // addItem({ user_id: 1, title, description })

  /** The JSON body each call sends. */
  function BodyOf(req: Request): (b: Json.Body)
    ensures Json.Field(b, "title") == Some(Json.Str(req.title))
    ensures Json.Field(b, "description") == Some(Json.Str(req.description))
    ensures req.AddItem? ==> Json.Field(b, "user_id") == Some(Json.Num(req.userId as real))
    ensures req.UpdateItem? ==> Json.Field(b, "user_id").None?
  {
    match req
    case UpdateItem(_, t, d) => [("title", Json.Str(t)), ("description", Json.Str(d))]
    case AddItem(u, t, d) =>
      var b := [("user_id", Json.Num(u as real)), ("title", Json.Str(t)), ("description", Json.Str(d))];
      assert b[..2][..1] == [("user_id", Json.Num(u as real))];
      assert Json.Field(b[..2], "user_id") == Json.Field(b[..2][..1], "user_id");
      b
  }

  /** `if (editId)`: null and 0 are falsy. */
  predicate Truthy(editId: Option<int>) {
    editId.Some? && editId.value != 0
  }

  /** What one submit did: stopped by a check, threw, or sent a request that succeeded or failed. */
  datatype Outcome = Rejected(alert: string) | Crashed | Saved(request: Request) | Failed(request: Request)

  class FormState {
    var editId: Option<int>
    var title: Option<string>
    var description: Option<string>

    constructor ()
      ensures editId == None && title == Some("") && description == Some("")
    {
      editId, title, description := None, Some(""), Some("");
    }

    /** `handleSubmit`; `succeeds` is whether the awaited add or update call resolved. */
    method Submit(succeeds: bool) returns (out: Outcome)
      modifies this
      ensures Validate(old(title), old(description)) == Crash ==> out == Crashed && unchanged(this)
      ensures Validate(old(title), old(description)).Alert? ==>
        out == Rejected(Validate(old(title), old(description)).message) && unchanged(this)
      ensures Validate(old(title), old(description)) == Pass ==>
        && (out.Saved? || out.Failed?)
        && out.request == (if Truthy(old(editId)) then UpdateItem(old(editId).value, old(title).value, old(description).value)
                           else AddItem(1, old(title).value, old(description).value))
      ensures out.Saved? <==> Validate(old(title), old(description)) == Pass && succeeds
      ensures out.Saved? ==> editId == None && title == Some("") && description == Some("")
      ensures !out.Saved? ==> unchanged(this)
    {
      if title.None? {
        return Crashed;
      }
      if Trim(title.value) == "" {
        return Rejected(TitleRequired);
      }
      if |title.value| > MaxTitleLength {
        return Rejected(TitleTooLong);
      }
      if description.None? {
        return Crashed;
      }
      if |description.value| > MaxDescriptionLength {
        return Rejected(DescriptionTooLong);
      }
      var request;
      if Truthy(editId) {
        request := UpdateItem(editId.value, title.value, description.value);
      } else {
        request := AddItem(1, title.value, description.value);
      }
      if !succeeds {
        return Failed(request);
      }
      title := Some("");
      description := Some("");
      editId := None;
      out := Saved(request);
    }

    /** `handleEdit(item)`: load a listed item into the form. */
    method Edit(id: int, itemTitle: Option<string>, itemDescription: Option<string>)
      modifies this
      ensures editId == Some(id) && title == itemTitle && description == itemDescription
    {
      editId := Some(id);
      title := itemTitle;
      description := itemDescription;
    }

    /** `handleCancel`: back to an empty add form. */
    method Cancel()
      modifies this
      ensures editId == None && title == Some("") && description == Some("")
    {
      editId := None;
      title := Some("");
      description := Some("");
    }
  }

  /** A title of exactly 255 characters is accepted, despite the "less than 255" message; 256 is not. */
  lemma TitleBoundary(s: string)
    requires !Blank(s)
    ensures |s| == MaxTitleLength ==> Validate(Some(s), Some("")) == Pass
    ensures |s| == MaxTitleLength + 1 ==> Validate(Some(s), Some("")) == Alert(TitleTooLong)
  {
  }

  /** Every request the form sends passes the server's Joi schema for it. */
  lemma SentRequestsPassSchema(req: Request)
    requires Validate(Some(req.title), Some(req.description)) == Pass
    ensures req.AddItem? && req.userId == 1 ==> Schema.ValidateItem(BodyOf(req)).None?
    ensures req.UpdateItem? ==> Schema.ValidateUpdate(BodyOf(req)).None?
  {
  }

  /**
   * The client is stricter than the server: a blank title that Joi's `min(1)`
   * accepts is refused here, and so is a description over 1000 characters, for
   * which neither schema has a limit.
   */
  lemma ClientStricterThanSchema(id: int, t: string, d: string)
    ensures (t != "" && Blank(t) && |t| <= MaxTitleLength) ==>
      && Validate(Some(t), Some(d)) == Alert(TitleRequired)
      && Schema.ValidateUpdate(BodyOf(UpdateItem(id, t, d))).None?
    ensures (!Blank(t) && |t| <= MaxTitleLength && |d| > MaxDescriptionLength) ==>
      && Validate(Some(t), Some(d)) == Alert(DescriptionTooLong)
      && Schema.ValidateUpdate(BodyOf(UpdateItem(id, t, d))).None?
  {
  }
}
