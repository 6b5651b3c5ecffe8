/** The three submission forms and the validators declared on their fields.
    A field is valid when every validator in its chain passes; a form is valid
    when no field reports an error. Each `...Errors` function lists the fields
    that fail, in declaration order, which is what the handler re-renders. */
module Forms {
  import opened Wrappers
  import opened Records

  // ---------------------------------------------------------------------------
  // Validators shared by the forms

  /** The ASCII characters that `str.strip()` removes: tab, line feed, the
      vertical tab, form feed, carriage return, the separators U+001C to
      U+001F, and space. */
  predicate IsSpace(c: char) {
    || c == ' ' || c == '\t' || c == '\n' || c == '\r' || c == '\U{0B}' || c == '\U{0C}'
    || ('\U{1C}' <= c <= '\U{1F}')
  }

  /** `DataRequired` on a text field: something is left after stripping
      surrounding whitespace. */
  predicate TextRequired(s: string) {
    exists i :: 0 <= i < |s| && !IsSpace(s[i])
  }

  /** `DataRequired` on a number field: a number was parsed and it is truthy,
      so an amount of 0 is refused just like a missing one. */
  predicate AmountRequired(a: Option<real>) {
    a.Some? && a.value != 0.0
  }

  /** `DataRequired` on a date field: a date was parsed. */
  predicate DateRequired(d: Option<Date>) {
    d.Some?
  }

  // ---------------------------------------------------------------------------
  // Registration

  datatype RegisterForm = RegisterForm(username: string, email: string, password: string, confirmPassword: string)

  datatype RegisterField = UsernameField | EmailField | PasswordField | ConfirmPasswordField

  /** `DataRequired(), Length(min=3, max=150)` */
  predicate UsernameOk(u: string) {
    TextRequired(u) && 3 <= |u| <= 150
  }

  /** `DataRequired(), Email()`; the e-mail syntax check is the parameter `isEmail`. */
  predicate EmailOk(e: string, isEmail: string -> bool) {
    TextRequired(e) && isEmail(e)
  }

  /** `DataRequired(), Length(min=6)` */
  predicate PasswordOk(p: string) {
    TextRequired(p) && 6 <= |p|
  }

  /** `DataRequired(), EqualTo('password')` */
  predicate ConfirmOk(c: string, p: string) {
    TextRequired(c) && c == p
  }

  function RegisterErrors(f: RegisterForm, isEmail: string -> bool): (errs: seq<RegisterField>)
    ensures UsernameField in errs <==> !TextRequired(f.username) || |f.username| < 3 || 150 < |f.username|
    ensures EmailField in errs <==> !TextRequired(f.email) || !isEmail(f.email)
    ensures PasswordField in errs <==> !TextRequired(f.password) || |f.password| < 6
    ensures ConfirmPasswordField in errs <==> !TextRequired(f.confirmPassword) || f.confirmPassword != f.password
    ensures |errs| <= 4
  {
    (if UsernameOk(f.username) then [] else [UsernameField]) +
    (if EmailOk(f.email, isEmail) then [] else [EmailField]) +
    (if PasswordOk(f.password) then [] else [PasswordField]) +
    (if ConfirmOk(f.confirmPassword, f.password) then [] else [ConfirmPasswordField])
  }

  predicate RegisterValid(f: RegisterForm, isEmail: string -> bool) {
    RegisterErrors(f, isEmail) == []
  }

  /** A valid registration has a 3..150 character username, a password of at
      least six characters and a confirmation equal to it. */
  lemma RegisterValidBounds(f: RegisterForm, isEmail: string -> bool)
    requires RegisterValid(f, isEmail)
    ensures 3 <= |f.username| <= 150 && TextRequired(f.username)
    ensures 6 <= |f.password| && TextRequired(f.password)
    ensures f.confirmPassword == f.password && f.confirmPassword != []
    ensures isEmail(f.email) && TextRequired(f.email)
  {
  }

  /** Conversely, meeting every rule makes the registration form valid. */
  lemma RegisterRulesSuffice(f: RegisterForm, isEmail: string -> bool)
    requires UsernameOk(f.username) && EmailOk(f.email, isEmail)
    requires PasswordOk(f.password) && f.confirmPassword == f.password
    ensures RegisterValid(f, isEmail)
  {
  }

  /** The username length bound is inclusive at both ends: 2 and 151 characters
      are refused, 3 and 150 accepted (for names without blanks). */
  lemma UsernameLengthBoundary(u: string)
    requires forall i :: 0 <= i < |u| ==> !IsSpace(u[i])
    ensures |u| == 2 || |u| == 151 ==> !UsernameOk(u)
    ensures |u| == 3 || |u| == 150 ==> UsernameOk(u)
  {
    if |u| > 0 {
      assert !IsSpace(u[0]);
    }
  }

  /** A username of three blanks, or of three separator characters, is long
      enough but carries no data. */
  lemma BlankUsernameRefused()
    ensures !UsernameOk("   ")
    ensures !UsernameOk("\U{1C}\U{1D}\U{1F}")
  {
  }

  // ---------------------------------------------------------------------------
  // Login

  datatype LoginForm = LoginForm(email: string, password: string)

  datatype LoginField = LoginEmailField | LoginPasswordField

  function LoginErrors(f: LoginForm, isEmail: string -> bool): (errs: seq<LoginField>)
    ensures LoginEmailField in errs <==> !TextRequired(f.email) || !isEmail(f.email)
    ensures LoginPasswordField in errs <==> !TextRequired(f.password)
  {
    (if EmailOk(f.email, isEmail) then [] else [LoginEmailField]) +
    (if TextRequired(f.password) then [] else [LoginPasswordField])
  }

  predicate LoginValid(f: LoginForm, isEmail: string -> bool) {
    LoginErrors(f, isEmail) == []
  }

  /** The login form demands both fields and nothing about the password's
      length: a one-character password passes validation. */
  lemma LoginHasNoLengthRule(email: string, isEmail: string -> bool)
    requires EmailOk(email, isEmail)
    ensures LoginValid(LoginForm(email, "x"), isEmail)
    ensures !LoginValid(LoginForm(email, ""), isEmail)
    ensures !LoginValid(LoginForm("", "secret"), isEmail)
  {
    assert !IsSpace("x"[0]);
  }

  // ---------------------------------------------------------------------------
  // Expense entry

  /** The choices of the category select field, in display order. */
  const CategoryChoices: seq<string> := ["Food", "Travel", "Shopping", "Bills", "Other"]

  /** The submitted expense. `amount` and `date` are `None` when the field was
      missing or could not be parsed as a number or a date. */
  datatype ExpenseForm = ExpenseForm(title: string, amount: Option<real>, category: string, date: Option<Date>, notes: string)

  datatype ExpenseField = TitleField | AmountField | CategoryField | DateField

  function ExpenseErrors(f: ExpenseForm): (errs: seq<ExpenseField>)
    ensures TitleField in errs <==> !TextRequired(f.title)
    ensures AmountField in errs <==> f.amount.None? || f.amount.value == 0.0
    ensures CategoryField in errs <==> f.category !in {"Food", "Travel", "Shopping", "Bills", "Other"}
    ensures DateField in errs <==> f.date.None?
  {
    (if TextRequired(f.title) then [] else [TitleField]) +
    (if AmountRequired(f.amount) then [] else [AmountField]) +
    (if f.category in CategoryChoices then [] else [CategoryField]) +
    (if DateRequired(f.date) then [] else [DateField])
  }

  predicate ExpenseValid(f: ExpenseForm) {
    ExpenseErrors(f) == []
  }

  /** The notes field carries no validator: changing it never changes the verdict. */
  lemma NotesUnconstrained(f: ExpenseForm, notes: string)
    ensures ExpenseValid(f.(notes := notes)) == ExpenseValid(f)
  {
  }

  /** No sign rule on the amount: a negative amount is accepted, while 0 is
      refused because the required check tests truthiness. */
  lemma AmountSign(f: ExpenseForm)
    requires TextRequired(f.title) && f.category == "Food" && f.date.Some?
    ensures ExpenseValid(f.(amount := Some(-5.0)))
    ensures !ExpenseValid(f.(amount := Some(0.0)))
    ensures !ExpenseValid(f.(amount := None))
  {
  }

  /** Categories are compared literally: a lower-case spelling is refused. */
  lemma CategoryIsLiteral(f: ExpenseForm)
    ensures !ExpenseValid(f.(category := "food"))
  {
  }
}
