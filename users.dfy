/**
 * The values the users page works with and the pure rules of `UserForm.submit` and
 * `handleCreateOrUpdate`: the required-field check, the trimmed payload, the choice
 * between create and update, and the error messages shown to the user.
 */
module Users {
  import opened Wrappers
  import opened JsText

  /** A user record as the REST API returns it. */
  datatype User = User(id: int, name: string, email: string)

  /** The `{ name, email }` body sent on create and update. */
  datatype Payload = Payload(name: string, email: string)

  /** The parsed body of `GET /api/v1/users`: normally an array of users, but any JSON
      value the server sends (an error object on a non-2xx status, `null`) is stored as is. */
  datatype Listing = Array(items: seq<User>) | NonArray

  /** How a refresh ends: the response body parsed, or `fetch`/`json()` threw. */
  datatype RefreshOutcome = Loaded(body: Listing) | RefreshThrows(message: string)

  /** The `errors` member of a non-2xx create/update body, as `err?.errors?.join?.(', ')` sees it:
      missing (or the whole body `null`), present without a `join` method (a string, a number,
      an object), or an array whose items are given already converted to strings. */
  datatype ErrorsField = Missing | NotJoinable | Items(items: seq<string>)

  /** How a create/update request ends: a 2xx status, a non-2xx status with a JSON body,
      or an exception from `fetch` or from parsing the body. */
  datatype SaveOutcome = Saved | Rejected(errors: ErrorsField) | SaveThrows(message: string)

  /** How a delete request ends: a 2xx status, another status, or an exception from `fetch`. */
  datatype DeleteOutcome = Deleted | NotDeleted | DeleteThrows(message: string)

  /** Which request a save issues. */
  datatype Route = Create | Update(id: int)

  /** The HTTP requests the page issues. */
  datatype Request = GetUsers | PostUser(payload: Payload) | PutUser(id: int, payload: Payload) | DeleteUser(id: int)

  const RequiredMessage := "Name and email are required."
  const SubmissionFailed := "Submission failed"
  const ErrorSeparator := ", "

  /** `!name.trim() || !email.trim()`: a field is missing when it is empty or only whitespace. */
  predicate MissingField(name: string, email: string) {
    Trim(name) == "" || Trim(email) == ""
  }

  /** The pre-network check of `submit`: no payload when a field is blank, otherwise
      both fields trimmed. */
  function Validate(name: string, email: string): (r: Option<Payload>)
    ensures r.None? <==> AllSpace(name) || AllSpace(email)
    ensures r.Some? ==> r.value == Payload(Trim(name), Trim(email))
    ensures r.Some? ==> r.value.name != "" && r.value.email != "" && Trimmed(r.value.name) && Trimmed(r.value.email)
  {
    if MissingField(name, email) then None else Some(Payload(Trim(name), Trim(email)))
  }

  /** A payload that passed validation passes it again unchanged. */
  lemma ValidateStable(name: string, email: string, p: Payload)
    requires Validate(name, email) == Some(p)
    ensures Validate(p.name, p.email) == Some(p)
  {
    TrimIdempotent(name);
    TrimIdempotent(email);
  }

  /** `if (id)`: a number is truthy unless it is 0 (ids are integers, so never NaN);
      only a truthy id is updated, anything else is created. */
  function RouteFor(id: Option<int>): (r: Route)
    ensures r.Update? <==> id.Some? && id.value != 0
    ensures r.Update? ==> id == Some(r.id)
  {
    if id.Some? && id.value != 0 then Update(id.value) else Create
  }

  /** The request a save sends along `route`. */
  function SaveRequest(route: Route, payload: Payload): (q: Request)
    ensures q.PutUser? <==> route.Update?
    ensures (q.PostUser? || q.PutUser?) && q.payload == payload
    ensures q.PutUser? ==> route == Update(q.id)
  {
    match route
    case Create => PostUser(payload)
    case Update(id) => PutUser(id, payload)
  }

  function DefaultMessage(route: Route): string {
    if route.Update? then "Update failed" else "Create failed"
  }

  /** The server's errors give a message exactly when `errors` is an array that joins
      to a non-empty string: at least two items, or one non-empty item. */
  predicate HasServerMessage(errors: ErrorsField) {
    errors.Items? && (|errors.items| >= 2 || (|errors.items| == 1 && errors.items[0] != ""))
  }

  /** `err?.errors?.join?.(', ') || 'Update failed'` (or `'Create failed'`): the message of
      the error a rejected save throws. */
  function FailureMessage(route: Route, errors: ErrorsField): (r: string)
    ensures r != ""
    ensures HasServerMessage(errors) ==> r == Join(errors.items, ErrorSeparator)
    ensures !HasServerMessage(errors) ==> r == DefaultMessage(route)
  {
    var joined := if errors.Items? then JoinEmptyIff(errors.items, ErrorSeparator); Join(errors.items, ErrorSeparator) else "";
    if joined != "" then joined else DefaultMessage(route)
  }

  /** `err?.message || 'Submission failed'`: the text the form shows for a thrown error. */
  function FormMessage(thrown: string): (r: string)
    ensures r != ""
    ensures thrown != "" ==> r == thrown
    ensures thrown == "" ==> r == SubmissionFailed
  {
    if thrown != "" then thrown else SubmissionFailed
  }

  /** The message of the error `handleCreateOrUpdate` throws for a save that did not succeed. */
  function ThrownBy(route: Route, outcome: SaveOutcome): (m: string)
    requires !outcome.Saved?
  {
    if outcome.Rejected? then FailureMessage(route, outcome.errors) else outcome.message
  }
}
