# Users page of Next_Rails_Hands-on, modelled in Dafny

The frontend's user-management screen (`frontend/app/users/page.tsx`) lists the users
of a REST API and lets the user create, edit and delete them. Its behaviour lives in the
`UsersPage` component and the `UserForm` it shows. This project models that behaviour
as follows:

- `JsText`: the two JavaScript string operations the page relies on. `trim` strips the
  ECMAScript WhiteSpace and LineTerminator code points, listed exactly. `join` concatenates
  the items with a separator between neighbours.
- `Users`: the page's values and its pure rules. These are the required-field check, the
  trimmed payload, the create/update choice on the truthiness of the id, the message of a
  rejected save (server `errors` joined with ", ", else "Update failed" / "Create failed"),
  and the form's fallback "Submission failed".
- `UsersPage.Page`: one object whose fields are the state variables of both components.
  From `UsersPage` these are `users`, `loading`, `editing` and `showForm`; from `UserForm`
  they are `name`, `email` and `formError`. Each handler is a method that runs to completion.
  The network and the browser dialogs are parameters: how a list request ends, how a
  save ends, how a delete ends, and the user's answer to `confirm`. A ghost log `Sent`
  records every request issued. The object invariant is "an edit target implies an
  open form", and every method keeps it.
- `Scenarios`: client runs proved from the contracts alone.

Behaviour of the code that the model keeps on purpose:

- `fetchUsers` stores whatever JSON body it parsed. It does not check the status, so an
  error object from a non-2xx list response replaces the list. The list is kept only when
  `fetch` or `json()` throws. `Listing.NonArray` stands for such a body. The next render
  then calls `users.map` on that non-array and throws, which breaks the page; rendering is
  outside the model, so the model's handlers carry on after such a refresh.
- `UserForm` reads `initial` into its `useState` fields only when it mounts, that is when
  `showForm` turns true. Pressing "new" or "edit" while the form is already open keeps the
  typed fields and the error message, but changes the id passed to `onSave`. So saving after
  "edit" on user B while the form is open for user A sends A's fields to B's id
  (`Scenarios.EditWhileEditing`).
- After a successful save the form is unmounted. If the refresh that follows throws, the
  form's `setError` has no effect, so `formError` stays empty.
- An id of 0 is falsy, so saving with it creates a new user instead of updating.

A failed list request keeps the previous list only when `fetch` or `json()` throws; a
non-2xx JSON body replaces it. A delete raises the alert only for a non-2xx status; an
exception from `fetch` escapes the handler and changes nothing.

## Model

| member | source | states |
|---|---|---|
| `JsText.Trim` | frontend/app/users/page.tsx:21 | `trim` returns a slice of its input surrounded only by whitespace, starts and ends with a non-space, and is empty exactly when the input is all whitespace |
| `JsText.TrimUnique` | frontend/app/users/page.tsx:26 | any trimmed core surrounded by whitespace trims to exactly that core (the reference definition of `trim`) |
| `JsText.TrimIdempotent` | frontend/app/users/page.tsx:26 | trimming an already trimmed string changes nothing |
| `JsText.Join` | frontend/app/users/page.tsx:81 | a single item joins to itself; the joined length is the items' total length plus one separator between each pair of neighbours |
| `JsText.JoinEmptyIff` | frontend/app/users/page.tsx:81 | with a non-empty separator, a join is empty exactly for no items or one empty item |
| `Users.Validate` | frontend/app/users/page.tsx:20-26 | no payload exactly when name or email is empty or whitespace-only; otherwise the payload is both fields trimmed, each non-empty and without surrounding whitespace |
| `Users.ValidateStable` | frontend/app/users/page.tsx:26 | a payload that passed validation passes it again unchanged |
| `Users.RouteFor` | frontend/app/users/page.tsx:73-83 | the update path is taken exactly for a present, non-zero (truthy) id and targets that id; an absent id or 0 creates |
| `Users.SaveRequest` | frontend/app/users/page.tsx:74-88 | update sends PUT to the target id, create sends POST, both carry exactly the payload |
| `Users.FailureMessage` | frontend/app/users/page.tsx:79-91 | the message is never empty; it is the server's `errors` joined with ", " when they form an array of two or more items or one non-empty item, and otherwise "Update failed" or "Create failed" by path |
| `Users.FormMessage` | frontend/app/users/page.tsx:27-28 | the form shows the thrown message when it is non-empty and "Submission failed" otherwise |
| `UsersPage.Page.TargetId` | frontend/app/users/page.tsx:26 | the id passed to `onSave` is present exactly when there is an edit target, and is that target's id |
| `UsersPage.Page.SubmitRequest` | frontend/app/users/page.tsx:26 | for fields that pass validation, a submit sends the trimmed fields, by PUT to the target's id exactly when the target's id is truthy |
| `UsersPage.Page.constructor` | frontend/app/users/page.tsx:52-55 | the page starts with an empty list, not loading, no edit target, the form closed and no request sent |
| `UsersPage.Page.Refresh` | frontend/app/users/page.tsx:57-66 | `loading` ends false; a parsed body replaces the list whatever it is; an exception keeps the list and is passed on; one GET is sent; the form state is untouched |
| `UsersPage.Page.New` | frontend/app/users/page.tsx:115 | the form is open with no edit target; a form that was closed mounts with empty fields and no error, an open one keeps its fields; the invariant holds |
| `UsersPage.Page.Edit` | frontend/app/users/page.tsx:135 | the form is open with `u` as its target; a form that was closed mounts with `u`'s name and email, an open one keeps its fields; the invariant holds |
| `UsersPage.Page.Cancel` | frontend/app/users/page.tsx:120 | the form is closed with no edit target, the list and requests untouched; the invariant holds |
| `UsersPage.Page.Type` | frontend/app/users/page.tsx:37-41 | typing sets the form's name and email and nothing else |
| `UsersPage.Page.HandleCreateOrUpdate` | frontend/app/users/page.tsx:72-98 | exactly one save request goes out on the route the id selects; on success the form closes, the edit target is cleared and a refresh follows; on failure the page is unchanged and the thrown message is the server's joined errors, the default by path, or the exception's own message |
| `UsersPage.Page.Submit` | frontend/app/users/page.tsx:18-30 | fields that fail `Validate` set "Name and email are required." and send nothing; otherwise the validated payload is saved for the target; success closes the form with no error and refreshes; failure keeps the form open with its fields and shows the failure message or "Submission failed" |
| `UsersPage.Page.Delete` | frontend/app/users/page.tsx:100-108 | without confirmation nothing is sent or changed; with it one DELETE is sent; a 2xx status refreshes the list; another status alerts and keeps the list; an exception changes nothing; the form state is untouched |
| `Scenarios.CreateAnn` | frontend/app/users/page.tsx:18-30 | saving the padded fields "  Ann " and "ann@x.com" plus a newline POSTs "Ann" and "ann@x.com", and a 2xx status closes the form and shows the refreshed list |
| `Scenarios.RejectedEmail` | frontend/app/users/page.tsx:79-97 | a rejection with errors `["Email is invalid"]` shows exactly "Email is invalid" and keeps the form open with the typed email |
| `Scenarios.BlankName` | frontend/app/users/page.tsx:21-23 | a whitespace-only name shows the required-fields message and sends no request |
| `Scenarios.EditWhileEditing` | frontend/app/users/page.tsx:14-15 | "edit" on B while the form is open for A keeps A's fields, and saving PUTs them to B's id |
| `Scenarios.RefreshWithoutStatusCheck` | frontend/app/users/page.tsx:60-62 | a non-array body from the list request replaces the users shown before, and loading ends false |
| `Scenarios.DeclinedDelete` | frontend/app/users/page.tsx:101 | declining the confirmation keeps the list and sends nothing |

## Left out

- `frontend/app/page.tsx` (the greeting fetch) is not part of this model. It only performs I/O.
- HTTP, `fetch`, JSON encoding and the `API_BASE` URLs are abstracted. Each request is an
  entry in the ghost log `Sent`, and its outcome is a method parameter.
- The `confirm` and `alert` dialogs: the confirmation is a boolean parameter of `Delete`,
  and the alert is its `alerted` result.
- React rendering, JSX and styling are not modelled. The mount effect that refreshes the
  list is not modelled as such: a client calls `Refresh`, as the scenarios do.
- `Refresh`: `loading` is true only while the request is pending. Handlers run to
  completion here, so only its final value, false, is stated.
- Overlapping handlers (two refreshes or deletes in flight) and unmounting during a
  request are concurrency, and are not modelled.
- `Delete` ignores an exception from its refresh. In the code that exception is an
  unhandled promise rejection, which changes no state.
- Converting array items to strings inside `join` is not modelled: `Items` holds the
  items already converted. `null` and `undefined` items become "".
- A list body is modelled as an array of users or as something else. The shape of
  individual array elements is not checked, and neither does the code check it.
- A thrown value that is not an `Error`, or has no `message`, is modelled as an exception
  with an empty message. The form then shows "Submission failed", as `err?.message ||` does.
