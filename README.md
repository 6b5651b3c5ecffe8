# Expense tracker: a Dafny model of the dashboard, login decision and form rules

The expense tracker is a small web application. Users register and log in,
file expenses (title, amount, category, date, notes), and see a dashboard.
The dashboard lists their own expenses and charts the total spent per
category. This project models the parts of the application that compute
something:

- **Category aggregation** (`aggregation.dfy`, module `Aggregation`). The
  dashboard folds the user's expenses into an insertion-ordered dictionary
  from category to running sum. It then splits that dictionary into the
  parallel `labels` and `values` lists that feed the chart. The fold is the
  method `Tally`, a `while` loop over a `seq<string>` of keys and a
  `map<string, real>` of entries, as the source mutates its dictionary. The
  split is the second loop in `Aggregate`. Both are proved equal to pure
  functions (`Labels`, `TotalsFor`), and the lemmas prove what the chart
  relies on. The labels are distinct, in first-seen order and cover every
  expense. Each value is the sum of its category. The values add up to the
  total of all amounts.
- **Expense store and dashboard endpoint** (`store.dfy`, module `Store`). The
  expense table is a class whose `rows` sequence grows by one record per
  valid submission. Listing is the owner filter `OwnedBy`. `Dashboard` is the
  whole endpoint. A valid POST appends a record owned by the current user and
  redirects. Any other request renders the page with the form's errors, the
  user's expenses and the chart data. As in the source, the record built from
  the form does not carry the form's notes.
- **Login decision** (`auth.dfy`, module `Auth`). A valid login form leads to
  a lookup of the first user with the submitted e-mail, then to the password
  hash check. Success logs that user in. Every other case gives the one
  generic "invalid credentials" outcome.
- **Form rules** (`forms.py` → `forms.dfy`, module `Forms`). These are the
  validator chains of the registration, login and expense forms, as pure
  predicates. Each `...Errors` function lists the failing fields. `Required`
  follows the library's truthiness test: text must contain a non-blank
  character, a number must be present and non-zero, and a date must have
  parsed.

Two foreign checks are parameters of the functions that use them: the e-mail
syntax validator (`isEmail`) and the password hash check
(`check(hash, password)`). Amounts are exact `real` numbers, so the sums are
exact.

The model follows the code where it differs from what a reader might expect:

- The stored expense has no notes, because `app.py:92-98` does not pass them
  on.
- An amount of 0 is refused, because the required check on a number field
  tests truthiness.
- The category field has no required validator; only the select field's
  choice check applies.

## Model

| member | source | states |
|---|---|---|
| `Aggregation.Tally` | app.py:107-109 | the grouping loop leaves exactly the first-seen categories as keys, and each key maps to the sum of the amounts filed under it |
| `Aggregation.TallyStep` | app.py:109 | one iteration (`get(c, 0) + amount`, which inserts a new key at the end) keeps the dictionary equal to the specification of the one-longer prefix |
| `Aggregation.Aggregate` | app.py:106-112 | `labels` are the dictionary keys in insertion order and `values` the matching per-category totals, so the two lists have equal length |
| `Aggregation.LabelsDistinct` | app.py:107-111 | no category appears twice among the labels |
| `Aggregation.LabelsInFirstSeenOrder` | app.py:108-111 | every label occurs among the expenses, and labels are ordered by the index of their first occurrence |
| `Aggregation.LabelsCover` | app.py:108-111 | a category is a label iff some expense is filed under it, iff it has a first occurrence |
| `Aggregation.EveryCategoryLabelled` | app.py:108-111 | the category of every expense is among the labels |
| `Aggregation.CategoryTotalAbsent` | app.py:109 | a category with no expense totals 0 (the `get` default) |
| `Aggregation.ValuesPreserveTotal` | app.py:108-112 | the chart values sum to the total of all expense amounts |
| `Aggregation.EmptyAggregation` | app.py:107-112 | no expenses give empty labels and empty values |
| `Aggregation.ThreeExpenseExample` | app.py:107-112 | (Food 10, Food 5, Travel 20) gives labels [Food, Travel] and values [15, 20] |
| `Store.OwnedBy` | app.py:104 | the listing holds exactly the rows whose owner is the current user, and no more rows than the table |
| `Store.OwnedByAppend` | app.py:99-104 | appending a row extends its owner's listing by that row at the end and leaves any other user's listing unchanged |
| `Store.NewExpense` | app.py:92-98 | the record built from a valid form is owned by the current user, copies title, amount, category and date, has a category from the fixed choices and a non-zero amount, and drops the notes |
| `Store.View` | app.py:104-112 | the page shows only the user's rows; labels and values are that listing's aggregation, and the values sum to the listing's total |
| `Store.ExpenseStore.Add` | app.py:92-100 | the table grows by exactly one record for the current user, existing rows are unchanged, and identifiers stay unique |
| `Store.ExpenseStore.Dashboard` | app.py:87-121 | a valid POST appends one record, advances the identifier counter and redirects; any other request changes nothing and renders the form errors, the user's rows and their aggregation |
| `Store.AddIsolated` | app.py:92-104 | after a user adds an expense, their listing is the old one plus that record, and every other user's listing is unchanged |
| `Auth.FindByEmail` | app.py:47 | the lookup returns a stored user with the submitted e-mail, and returns nothing exactly when no user has it |
| `Auth.FindByEmailIsFirst` | app.py:47 | when some user has the e-mail, the lookup returns the earliest such user |
| `Auth.Login` | app.py:43-54 | a session starts only on a valid POST for a stored user with the submitted e-mail whose hash accepts the password; a GET or an invalid form re-renders the form with its errors |
| `Auth.LoginSucceedsIff` | app.py:47-53 | when e-mails are unique and a user has the submitted e-mail, login logs that user in if the password checks, and otherwise gives the generic failure |
| `Auth.FailureIsGeneric` | app.py:48-53 | an unknown e-mail and a wrong password give the same outcome, `InvalidCredentials` |
| `Forms.RegisterErrors` | forms.py:6-11 | username fails iff blank or outside 3..150 characters; e-mail iff blank or not an address; password iff blank or shorter than 6; confirmation iff blank or different from the password |
| `Forms.RegisterValidBounds` | forms.py:7-10 | an accepted registration has a 3..150 character username, a password of at least 6 characters and an equal, non-empty confirmation |
| `Forms.RegisterRulesSuffice` | forms.py:7-10 | meeting every field rule makes the registration form valid |
| `Forms.UsernameLengthBoundary` | forms.py:7 | both username bounds are inclusive: 2 and 151 characters are refused, 3 and 150 accepted |
| `Forms.BlankUsernameRefused` | forms.py:7 | a username of three blanks, or of three separator characters U+001C..U+001F, is refused by the required check |
| `Forms.LoginErrors` | forms.py:14-16 | the e-mail fails iff blank or not an address; the password fails iff blank |
| `Forms.LoginHasNoLengthRule` | forms.py:15-16 | a one-character password passes login validation; an empty password or e-mail does not |
| `Forms.ExpenseErrors` | forms.py:21-32 | title fails iff blank; amount iff missing or zero; category iff not one of Food, Travel, Shopping, Bills, Other; date iff missing |
| `Forms.NotesUnconstrained` | forms.py:32 | the notes field never affects validity |
| `Forms.AmountSign` | forms.py:23 | a negative amount is accepted; a zero or missing amount is refused |
| `Forms.CategoryIsLiteral` | forms.py:24-30 | categories are compared literally: "food" is refused |

## Left out

- Routing, redirects to other routes, `flash` messages and template rendering (app.py:1-29, 114-129). They are web plumbing. A response is modelled only as `Redirect` or the data handed to the template.
- The `name=current_user.username` argument of the dashboard template (app.py:118). It is presentation only.
- Session state, `login_user`, `logout_user`, `login_required` and `load_user` (app.py:18-24, 49, 56-61). These are framework machinery. The dashboard takes the logged-in user's id as a parameter.
- The registration endpoint's persistence (app.py:31-41). The uniqueness of username and e-mail is a database constraint that is not part of this model. Its form rules are modelled in `Forms`.
- The database session (`add`, `commit`, queries). The tables are sequences. `ExpenseStore.nextId` stands for the database's primary key sequence.
- Password hashing and `check_password_hash`. These are foreign cryptographic calls, modelled as the parameter `check`.
- The `Email()` syntax validator. It is library logic, modelled as the parameter `isEmail`.
- CSRF protection of the forms. It is library behaviour.
- Parsing of the amount and date fields. A field that is missing or cannot be parsed is `None`.
- Floating-point rounding of amounts. Amounts are exact reals.
- Non-ASCII whitespace in the required check. `IsSpace` covers the ASCII characters that `str.strip()` removes: tab, line feed, vertical tab, form feed, carriage return, U+001C to U+001F and space.
- The commented-out dashboard handler (app.py:67-85). It is dead code.
- Order of the dashboard listing: the owner query at app.py:104 has no `ORDER BY`, so the database chooses the row order. `Store.OwnedBy` takes the rows in table order, and the first-seen order of the chart labels follows that choice. The aggregation lemmas hold for any order.
- Order of `first()`: the SQL query has no `ORDER BY`, so which user `first()` returns when e-mails repeat is the database's choice. The model takes the earliest in table order. `Auth.LoginSucceedsIff` assumes the unique-e-mail constraint, under which this choice does not matter.
