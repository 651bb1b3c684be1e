/**
 * Client runs of the users page, proved from the contracts of `Page` alone.
 */
module Scenarios {
  import opened Wrappers
  import opened JsText
  import opened Users
  import opened UsersPage

  /** Creating "Ann": the typed fields are trimmed, POSTed, the form closes and the list
      is the refreshed body. */
  method CreateAnn() returns (listed: Listing, open: bool)
    ensures listed == Array([User(1, "Ann", "ann@x.com")]) && !open
  {
    var p := new Page();
    var _ := p.Refresh(Loaded(Array([])));
    p.New();
    p.Type("  Ann ", "ann@x.com\n");
    AnnNameTrims();
    AnnEmailTrims();
    p.Submit(Saved, Loaded(Array([User(1, "Ann", "ann@x.com")])));
    assert p.Sent == [GetUsers, PostUser(Payload("Ann", "ann@x.com")), GetUsers];
    listed, open := p.users, p.showForm;
  }

  /** The typed name of `CreateAnn` trims to the stored one. */
  lemma AnnNameTrims()
    ensures Trim("  Ann ") == "Ann"
  {
    assert "  Ann " == "  " + "Ann" + " ";
    TrimUnique("  ", "Ann", " ");
  }

  /** The typed email of `CreateAnn` trims to the stored one. */
  lemma AnnEmailTrims()
    ensures Trim("ann@x.com\n") == "ann@x.com"
  {
    assert "ann@x.com\n" == "" + "ann@x.com" + "\n";
    TrimUnique("", "ann@x.com", "\n");
  }

  /** A server rejection `{errors: ["Email is invalid"]}` is shown verbatim and the form
      stays open with what was typed. */
  method RejectedEmail() returns (shown: Option<string>, open: bool, keptEmail: string)
    ensures shown == Some("Email is invalid") && open && keptEmail == "ann@"
  {
    var p := new Page();
    p.New();
    p.Type("Ann", "ann@");
    p.Submit(Rejected(Items(["Email is invalid"])), Loaded(NonArray));
    shown, open, keptEmail := p.formError, p.showForm, p.email;
  }

  /** A whitespace-only name is refused before any request is made. */
  method BlankName() returns (shown: Option<string>)
    ensures shown == Some("Name and email are required.")
  {
    var p := new Page();
    p.New();
    p.Type(" \t", "ann@x.com");
    assert AllSpace(" \t");
    p.Submit(Saved, Loaded(NonArray));
    assert p.Sent == [];
    shown := p.formError;
  }

  /** Pressing "edit" on `b` while the form is open for `a` keeps `a`'s typed fields but
      retargets the form, so saving sends `a`'s name and email to `b`'s id. */
  method EditWhileEditing(a: User, b: User) returns (formName: string, formEmail: string)
    requires !AllSpace(a.name) && !AllSpace(a.email) && b.id != 0
    ensures formName == a.name && formEmail == a.email
  {
    var p := new Page();
    p.Edit(a);
    p.Edit(b);
    formName, formEmail := p.name, p.email;
    p.Submit(Saved, Loaded(NonArray));
    assert p.Sent[0] == PutUser(b.id, Payload(Trim(a.name), Trim(a.email)));
  }

  /** A non-2xx list response is stored as the list, replacing the users shown before. */
  method RefreshWithoutStatusCheck(before: seq<User>) returns (listed: Listing, busy: bool)
    ensures listed == NonArray && !busy
  {
    var p := new Page();
    var _ := p.Refresh(Loaded(Array(before)));
    var _ := p.Refresh(Loaded(NonArray));
    listed, busy := p.users, p.loading;
  }

  /** A declined confirmation leaves the list as it was and sends nothing. */
  method DeclinedDelete(us: seq<User>, id: int) returns (listed: Listing, alerted: bool)
    ensures listed == Array(us) && !alerted
  {
    var p := new Page();
    var _ := p.Refresh(Loaded(Array(us)));
    alerted := p.Delete(id, false, Deleted, Loaded(Array([])));
    assert p.Sent == [GetUsers];
    listed := p.users;
  }
}
