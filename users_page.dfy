/**
 * The `UsersPage` component and the `UserForm` it shows, as one object whose fields are
 * the components' state variables. Each method is one handler run to completion; the
 * outcomes of the network calls and of the `confirm` dialog are its parameters.
 */
module UsersPage {
  import opened Wrappers
  import opened JsText
  import opened Users

  class Page {
    // UsersPage state
    var users: Listing
    var loading: bool
    var editing: Option<User>
    var showForm: bool
    // UserForm state; the form exists only while showForm holds
    var name: string
    var email: string
    var formError: Option<string>
    /** The requests issued so far, oldest first: the model's view of the network. */
    ghost var Sent: seq<Request>

    /** An edit target is only ever set together with an open form. */
    ghost predicate Valid()
      reads this
    {
      editing.Some? ==> showForm
    }

    /** The id `UserForm` passes to `onSave`: that of its `initial` user, if any. */
    function TargetId(): (id: Option<int>)
      reads this
      ensures id.Some? <==> editing.Some?
      ensures id.Some? ==> id.value == editing.value.id
    {
      if editing.Some? then Some(editing.value.id) else None
    }

    /** The request a submit of the form's current fields sends, once they pass validation. */
    function SubmitRequest(): (q: Request)
      reads this
      requires Validate(name, email).Some?
      ensures (q.PostUser? || q.PutUser?) && q.payload == Payload(Trim(name), Trim(email))
      ensures q.PutUser? <==> editing.Some? && editing.value.id != 0
      ensures q.PutUser? ==> q.id == editing.value.id
    {
      SaveRequest(RouteFor(TargetId()), Validate(name, email).value)
    }

    /** The page as first rendered, before its mount effect refreshes the list. */
    constructor ()
      ensures Valid()
      ensures users == Array([]) && !loading && editing == None && !showForm
      ensures formError == None && Sent == []
    {
      users := Array([]);
      loading := false;
      editing := None;
      showForm := false;
      name, email := "", "";
      formError := None;
      Sent := [];
    }

    /** `fetchUsers`: the list is replaced by whatever body was parsed, with no status
        check; if `fetch` or `json()` throws, the list is kept and the exception is passed
        on after `loading` is reset. */
    method Refresh(outcome: RefreshOutcome) returns (thrown: Option<string>)
      modifies this
      ensures !loading
      ensures Sent == old(Sent) + [GetUsers]
      ensures outcome.Loaded? ==> users == outcome.body && thrown == None
      ensures outcome.RefreshThrows? ==> users == old(users) && thrown == Some(outcome.message)
      ensures editing == old(editing) && showForm == old(showForm)
      ensures name == old(name) && email == old(email) && formError == old(formError)
    {
      loading := true;
      Sent := Sent + [GetUsers];
      match outcome {
        case Loaded(body) =>
          users := body;
          thrown := None;
        case RefreshThrows(message) =>
          thrown := Some(message);
      }
      loading := false;
    }

    /** The "new" button: the form opens with no edit target. A form that was closed
        mounts with empty fields; one already open keeps its fields and message. */
    method New()
      requires Valid()
      modifies this
      ensures Valid()
      ensures editing == None && showForm
      ensures !old(showForm) ==> name == "" && email == "" && formError == None
      ensures old(showForm) ==> name == old(name) && email == old(email) && formError == old(formError)
      ensures users == old(users) && loading == old(loading) && Sent == old(Sent)
    {
      if !showForm {
        name, email, formError := "", "", None;
      }
      editing := None;
      showForm := true;
    }

    /** The "edit" button of user `u`: the form opens with `u` as its target. A form that
        was closed mounts with `u`'s name and email; one already open keeps its fields. */
    method Edit(u: User)
      requires Valid()
      modifies this
      ensures Valid()
      ensures editing == Some(u) && showForm
      ensures !old(showForm) ==> name == u.name && email == u.email && formError == None
      ensures old(showForm) ==> name == old(name) && email == old(email) && formError == old(formError)
      ensures users == old(users) && loading == old(loading) && Sent == old(Sent)
    {
      if !showForm {
        name, email, formError := u.name, u.email, None;
      }
      editing := Some(u);
      showForm := true;
    }

    /** The form's "cancel" button: the form closes and the edit target is dropped. */
    method Cancel()
      requires Valid()
      modifies this
      ensures Valid()
      ensures !showForm && editing == None
      ensures users == old(users) && loading == old(loading) && Sent == old(Sent)
    {
      showForm := false;
      editing := None;
    }

    /** Typing into the form's inputs. */
    method Type(newName: string, newEmail: string)
      requires Valid() && showForm
      modifies this
      ensures Valid()
      ensures name == newName && email == newEmail
      ensures users == old(users) && loading == old(loading) && editing == old(editing) && showForm == old(showForm)
      ensures formError == old(formError) && Sent == old(Sent)
    {
      name, email := newName, newEmail;
    }

    /** `handleCreateOrUpdate`: PUT for a truthy id, POST otherwise. A 2xx status closes the
        form and refreshes (an exception of the refresh is passed on); any other ending throws
        with the server's joined errors, a default message, or the exception's own message,
        and leaves the page as it was. */
    method HandleCreateOrUpdate(payload: Payload, id: Option<int>, outcome: SaveOutcome, refresh: RefreshOutcome)
      returns (thrown: Option<string>)
      requires Valid()
      modifies this
      ensures Valid()
      ensures |Sent| > |old(Sent)| && Sent[|old(Sent)|] == SaveRequest(RouteFor(id), payload)
      ensures outcome.Saved? ==>
        && !showForm && editing == None && !loading
        && Sent == old(Sent) + [SaveRequest(RouteFor(id), payload), GetUsers]
        && (refresh.Loaded? ==> users == refresh.body && thrown == None)
        && (refresh.RefreshThrows? ==> users == old(users) && thrown == Some(refresh.message))
      ensures !outcome.Saved? ==>
        && showForm == old(showForm) && editing == old(editing)
        && users == old(users) && loading == old(loading)
        && Sent == old(Sent) + [SaveRequest(RouteFor(id), payload)]
        && thrown == Some(ThrownBy(RouteFor(id), outcome))
      ensures name == old(name) && email == old(email) && formError == old(formError)
    {
      var route := RouteFor(id);
      Sent := Sent + [SaveRequest(route, payload)];
      match outcome
      case Saved =>
        showForm := false;
        editing := None;
        thrown := Refresh(refresh);
      case Rejected(errors) =>
        thrown := Some(FailureMessage(route, errors));
      case SaveThrows(message) =>
        thrown := Some(message);
    }

    /** `UserForm.submit`: a blank field is reported without any request; otherwise the
        trimmed fields are saved for the form's target. A save that throws leaves the form
        open with its fields and shows the error; after a successful save the form is gone,
        so an exception of the following refresh is shown nowhere. */
    method Submit(outcome: SaveOutcome, refresh: RefreshOutcome)
      requires Valid() && showForm
      modifies this
      ensures Valid()
      ensures name == old(name) && email == old(email)
      ensures old(Validate(name, email)).None? ==>
        && formError == Some(RequiredMessage) && Sent == old(Sent)
        && users == old(users) && loading == old(loading) && editing == old(editing) && showForm
      ensures old(Validate(name, email)).Some? && outcome.Saved? ==>
        && !showForm && editing == None && !loading && formError == None
        && Sent == old(Sent) + [old(SubmitRequest()), GetUsers]
        && (refresh.Loaded? ==> users == refresh.body)
        && (refresh.RefreshThrows? ==> users == old(users))
      ensures old(Validate(name, email)).Some? && !outcome.Saved? ==>
        && showForm && editing == old(editing) && users == old(users) && loading == old(loading)
        && Sent == old(Sent) + [old(SubmitRequest())]
        && formError == Some(FormMessage(ThrownBy(RouteFor(old(TargetId())), outcome)))
    {
      formError := None;
      match Validate(name, email) {
        case None =>
          formError := Some(RequiredMessage);
        case Some(payload) =>
          var thrown := HandleCreateOrUpdate(payload, TargetId(), outcome, refresh);
          if thrown.Some? && showForm {
            formError := Some(FormMessage(thrown.value));
          }
      }
    }

    /** `handleDelete`: nothing happens unless the user confirms. A 2xx status refreshes the
        list; another status raises the alert and keeps the list; an exception from `fetch`
        escapes the handler and changes nothing. */
    method Delete(id: int, confirmed: bool, outcome: DeleteOutcome, refresh: RefreshOutcome)
      returns (alerted: bool)
      requires Valid()
      modifies this
      ensures Valid()
      ensures editing == old(editing) && showForm == old(showForm)
      ensures name == old(name) && email == old(email) && formError == old(formError)
      ensures alerted <==> confirmed && outcome.NotDeleted?
      ensures !confirmed ==> Sent == old(Sent) && users == old(users) && loading == old(loading)
      ensures confirmed && outcome.Deleted? ==>
        && Sent == old(Sent) + [DeleteUser(id), GetUsers] && !loading
        && (refresh.Loaded? ==> users == refresh.body)
        && (refresh.RefreshThrows? ==> users == old(users))
      ensures confirmed && !outcome.Deleted? ==>
        Sent == old(Sent) + [DeleteUser(id)] && users == old(users) && loading == old(loading)
    {
      alerted := false;
      if !confirmed {
        return;
      }
      Sent := Sent + [DeleteUser(id)];
      match outcome
      case Deleted =>
        var _ := Refresh(refresh);
      case NotDeleted =>
        alerted := true;
      case DeleteThrows(_) =>
    }
  }
}
