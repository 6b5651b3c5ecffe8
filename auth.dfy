/** The credential decision of the login endpoint. The password hash check is
    the parameter `check(hash, password)`, and the e-mail syntax check of the
    form is the parameter `isEmail`. */
module Auth {
  import opened Wrappers
  import opened Records
  import opened Forms
  import opened Http

  /** The first user registered with `email` (`filter_by(email=...).first()`). */
  function FindByEmail(users: seq<User>, email: string): (r: Option<User>)
    ensures r.Some? ==> r.value in users && r.value.email == email
    ensures r.None? <==> forall u :: u in users ==> u.email != email
  {
    if users == [] then None
    else if users[0].email == email then Some(users[0])
    else
      assert forall u :: u in users ==> u == users[0] || u in users[1..];
      FindByEmail(users[1..], email)
  }

  /** The user found is the earliest one with that e-mail. */
  lemma {:induction false} FindByEmailIsFirst(users: seq<User>, email: string, k: nat)
    requires k < |users| && users[k].email == email
    ensures FindByEmail(users, email).Some?
    ensures exists j :: 0 <= j <= k && users[j] == FindByEmail(users, email).value &&
                        forall m :: 0 <= m < j ==> users[m].email != email
  {
    assert users[k] in users;
    if users[0].email != email {
      FindByEmailIsFirst(users[1..], email, k - 1);
      var j :| 0 <= j <= k - 1 && users[1..][j] == FindByEmail(users[1..], email).value &&
               forall m :: 0 <= m < j ==> users[1..][m].email != email;
      assert users[j + 1] == users[1..][j];
      forall m | 0 <= m < j + 1 ensures users[m].email != email {
        if m > 0 { assert users[m] == users[1..][m - 1]; }
      }
    }
  }

  /** The outcome of a login request: the session is started for a user, the
      single generic failure, or the form is shown again with its errors. */
  datatype LoginOutcome = LoggedIn(userId: nat) | InvalidCredentials | ShowForm(errors: seq<LoginField>)

  /** The login endpoint. */
  function Login(users: seq<User>, req: Request<LoginForm>, isEmail: string -> bool,
                 check: (string, string) -> bool): (o: LoginOutcome)
    ensures o.LoggedIn? ==>
              && req.Post? && LoginValid(req.form, isEmail)
              && exists u :: u in users && u.id == o.userId && u.email == req.form.email &&
                             check(u.passwordHash, req.form.password)
    ensures req.Get? ==> o == ShowForm([])
    ensures req.Post? && !LoginValid(req.form, isEmail) ==> o == ShowForm(LoginErrors(req.form, isEmail))
  {
    match req
    case Get => ShowForm([])
    case Post(f) =>
      if !LoginValid(f, isEmail) then ShowForm(LoginErrors(f, isEmail))
      else
        var user := FindByEmail(users, f.email);
        if user.Some? && check(user.value.passwordHash, f.password) then LoggedIn(user.value.id)
        else InvalidCredentials
  }

  /** The user table's unique constraint on `email`. */
  predicate UniqueEmails(users: seq<User>) {
    forall i, j :: 0 <= i < j < |users| ==> users[i].email != users[j].email
  }

  /** With unique e-mails, a valid login succeeds exactly when some user has the
      submitted e-mail and the submitted password checks against that user's
      hash, and it logs that user in. */
  lemma LoginSucceedsIff(users: seq<User>, f: LoginForm, isEmail: string -> bool,
                         check: (string, string) -> bool, u: User)
    requires UniqueEmails(users) && LoginValid(f, isEmail)
    requires u in users && u.email == f.email
    ensures Login(users, Post(f), isEmail, check) ==
              if check(u.passwordHash, f.password) then LoggedIn(u.id) else InvalidCredentials
  {
  }

  /** An unknown e-mail and a wrong password end in the same outcome, so the
      response does not reveal which one happened. */
  lemma FailureIsGeneric(users: seq<User>, f: LoginForm, isEmail: string -> bool,
                         check: (string, string) -> bool)
    requires LoginValid(f, isEmail)
    ensures (forall u :: u in users ==> u.email != f.email) ==>
              Login(users, Post(f), isEmail, check) == InvalidCredentials
    ensures (forall u :: u in users && u.email == f.email ==> !check(u.passwordHash, f.password)) ==>
              Login(users, Post(f), isEmail, check) == InvalidCredentials
  {
  }
}
