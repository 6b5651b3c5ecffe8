/** The expense table and the dashboard handler that writes to it and reads it.
    Every query goes through the owner filter, so a user sees only the rows
    whose `userId` is theirs. */
module Store {
  import opened Wrappers
  import opened Records
  import opened Forms
  import opened Http
  import opened Aggregation

  /** The rows owned by `uid` (`filter_by(user_id=uid)`), taken in the order
      of `rows`. */
  function OwnedBy(rows: seq<Expense>, uid: nat): (r: seq<Expense>)
    ensures |r| <= |rows|
    ensures forall e :: e in r <==> e in rows && e.userId == uid
  {
    if rows == [] then []
    else (if rows[0].userId == uid then [rows[0]] else []) + OwnedBy(rows[1..], uid)
  }

  /** Appending a row extends its owner's listing by that row and leaves every
      other user's listing as it was. */
  lemma {:induction false} OwnedByAppend(rows: seq<Expense>, e: Expense, uid: nat)
    ensures OwnedBy(rows + [e], uid) == OwnedBy(rows, uid) + (if e.userId == uid then [e] else [])
  {
    if rows != [] {
      assert (rows + [e])[1..] == rows[1..] + [e];
      OwnedByAppend(rows[1..], e, uid);
    }
  }

  /** The record the handler builds from a valid form: the owner is the current
      user, and the notes field of the form is not passed on. */
  function NewExpense(id: nat, f: ExpenseForm, uid: nat): (e: Expense)
    requires ExpenseValid(f)
    ensures e.id == id && e.userId == uid
    ensures e.title == f.title && f.amount == Some(e.amount) && f.date == Some(e.date)
    ensures e.category in CategoryChoices && e.amount != 0.0
    ensures e.notes == None
  {
    assert AmountField !in ExpenseErrors(f) && DateField !in ExpenseErrors(f);
    assert CategoryField !in ExpenseErrors(f);
    Expense(id, f.title, f.amount.value, f.category, f.date.value, None, uid)
  }

  /** What the dashboard page shows. */
  datatype Page = Page(errors: seq<ExpenseField>, expenses: seq<Expense>, labels: seq<string>, values: seq<real>)

  datatype Response = Redirect | Render(page: Page)

  /** The read side of the dashboard: the user's expenses and their category
      totals for the chart. */
  method View(rows: seq<Expense>, uid: nat) returns (expenses: seq<Expense>, labels: seq<string>, values: seq<real>)
    ensures expenses == OwnedBy(rows, uid)
    ensures forall e :: e in expenses ==> e.userId == uid
    ensures labels == Labels(expenses, |expenses|) && |values| == |labels|
    ensures forall i :: 0 <= i < |labels| ==> values[i] == CategoryTotal(expenses, labels[i], |expenses|)
    ensures Sum(values, |values|) == Total(expenses, |expenses|)
  {
    expenses := OwnedBy(rows, uid);
    labels, values := Aggregate(expenses);
    ValuesPreserveTotal(expenses, |expenses|);
  }

  /** The expense table. Identifiers are handed out in increasing order. */
  class ExpenseStore {
    var rows: seq<Expense>
    var nextId: nat

    /** Every row has an identifier below `nextId`, and no two rows share one. */
    ghost predicate Valid()
      reads this
    {
      && (forall i :: 0 <= i < |rows| ==> rows[i].id < nextId)
      && (forall i, j :: 0 <= i < j < |rows| ==> rows[i].id != rows[j].id)
    }

    constructor ()
      ensures Valid() && rows == []
    {
      rows := [];
      nextId := 1;
    }

    /** Inserts one expense built from `f` for user `uid` (`db.session.add`
        followed by `commit`). */
    method Add(f: ExpenseForm, uid: nat) returns (e: Expense)
      requires Valid() && ExpenseValid(f)
      modifies this
      ensures Valid()
      ensures e == NewExpense(old(nextId), f, uid)
      ensures rows == old(rows) + [e] && nextId == old(nextId) + 1
    {
      e := NewExpense(nextId, f, uid);
      rows := rows + [e];
      nextId := nextId + 1;
    }

    /** The dashboard endpoint for the logged-in user `uid`: a valid submission
        is stored and answered with a redirect; anything else renders the page
        with the form's errors, the user's expenses and the chart data. */
    method Dashboard(req: Request<ExpenseForm>, uid: nat) returns (resp: Response)
      requires Valid()
      modifies this
      ensures Valid()
      ensures req.Post? && ExpenseValid(req.form) ==>
                resp == Redirect && rows == old(rows) + [NewExpense(old(nextId), req.form, uid)] &&
                nextId == old(nextId) + 1
      ensures !(req.Post? && ExpenseValid(req.form)) ==>
                rows == old(rows) && nextId == old(nextId) && resp.Render? &&
                resp.page.errors == (if req.Post? then ExpenseErrors(req.form) else []) &&
                resp.page.expenses == OwnedBy(rows, uid) &&
                resp.page.labels == Labels(resp.page.expenses, |resp.page.expenses|) &&
                resp.page.values == TotalsFor(resp.page.expenses, |resp.page.expenses|, resp.page.labels)
    {
      if req.Post? && ExpenseValid(req.form) {
        var _ := Add(req.form, uid);
        return Redirect;
      }
      var expenses, labels, values := View(rows, uid);
      var errors := if req.Post? then ExpenseErrors(req.form) else [];
      resp := Render(Page(errors, expenses, labels, values));
    }
  }

  /** After a user adds an expense, their listing gains exactly that record at
      the end and every other user's listing is unchanged. */
  lemma AddIsolated(rows: seq<Expense>, id: nat, f: ExpenseForm, uid: nat, other: nat)
    requires ExpenseValid(f)
    ensures OwnedBy(rows + [NewExpense(id, f, uid)], uid) == OwnedBy(rows, uid) + [NewExpense(id, f, uid)]
    ensures other != uid ==> OwnedBy(rows + [NewExpense(id, f, uid)], other) == OwnedBy(rows, other)
  {
    OwnedByAppend(rows, NewExpense(id, f, uid), uid);
    OwnedByAppend(rows, NewExpense(id, f, uid), other);
  }
}
