/** The expense half of the financial management screen: expenses with their
    hostel, a search box, a dialog form, add / update / delete, the colour of
    the status badges, and the summary cards over the rent invoices. */
module Finance {
  import opened Records
  import opened JsText
  import opened Lookups

  /** `hostelId` is the Select value (`None` for ''), `hostelName` the
      looked-up name (`None` for undefined), `receipt` the attached file's
      name (`None` for null). Amounts are whole currency units. */
  datatype Expense = Expense(
    id: int, hostelId: Option<int>, hostelName: Option<string>, category: string,
    amount: int, date: string, description: string, receipt: Option<string>, status: string)

  /** The dialog's form; the amount is a required number input. */
  datatype ExpenseForm = ExpenseForm(
    hostelId: Option<int>, category: string, amount: Option<int>, date: string,
    description: string, receipt: Option<string>)

  const EmptyForm := ExpenseForm(None, "", None, "", "", None)

  predicate Submittable(f: ExpenseForm)
  {
    f.amount.Some?
  }

  const InitialExpenses: seq<Expense> := [
    Expense(1, Some(1), Some("Downtown Hostel"), "Maintenance", 336000, "2024-06-15",
            "Plumbing repairs in Room 205", Some("receipt_001.pdf"), "approved"),
    Expense(2, Some(2), Some("University Campus"), "Utilities", 238000, "2024-06-10",
            "Monthly electricity bill", Some("receipt_002.pdf"), "approved"),
    Expense(3, Some(1), Some("Downtown Hostel"), "Supplies", 126000, "2024-06-08",
            "Cleaning supplies and toiletries", None, "pending"),
    Expense(4, Some(3), Some("City Center"), "Salaries", 700000, "2024-06-01",
            "Monthly staff salaries", Some("receipt_004.pdf"), "approved")
  ]

  // ----- search -----

  /** The intended row filter: description, hostel name or category contains
      the term, ignoring case; an undefined hostel name matches nothing. */
  predicate Matches(e: Expense, term: string)
  {
    || ContainsIgnoringCase(e.description, term)
    || (e.hostelName.Some? && ContainsIgnoringCase(e.hostelName.value, term))
    || ContainsIgnoringCase(e.category, term)
  }

  /** filteredExpenses, null-safe on the hostel name. */
  function Search(es: seq<Expense>, term: string): (r: seq<Expense>)
    ensures IsSubsequence(r, es)
    ensures forall x :: x in r ==> x in es && Matches(x, term)
    ensures forall x :: x in es && Matches(x, term) ==> x in r
    ensures term == "" ==> r == es
  {
    FilterIsSubsequence(es, (x: Expense) => Matches(x, term));
    EmptyTermMatchesAll();
    Filter(es, (x: Expense) => Matches(x, term))
  }

  /** The filter callback as written: `expense.hostelName.toLowerCase()`
      throws (`None`) when the name is undefined and the description did not
      match. */
  function MatchesAsWritten(e: Expense, term: string): Option<bool>
  {
    if ContainsIgnoringCase(e.description, term) then Some(true)
    else if e.hostelName.None? then None
    else Some(ContainsIgnoringCase(e.hostelName.value, term) || ContainsIgnoringCase(e.category, term))
  }

  /** filteredExpenses as written: `None` when rendering throws. Where it
      does not throw it is the null-safe Search. */
  function SearchAsWritten(es: seq<Expense>, term: string): (r: Option<seq<Expense>>)
    ensures r.None? || r == Some(Search(es, term))
    ensures (forall x :: x in es ==> x.hostelName.Some?) ==> r == Some(Search(es, term))
  {
    FilterOrThrowAgrees(es, (x: Expense) => MatchesAsWritten(x, term), (x: Expense) => Matches(x, term));
    FilterOrThrow(es, (x: Expense) => MatchesAsWritten(x, term))
  }

  /** Adding an expense with no hostel picked (the Select is not required)
      and then typing a term its description does not contain makes the
      as-written filter throw, while the null-safe search just leaves that
      expense out. */
  lemma AddWithoutHostelBreaksSearch(es: seq<Expense>, f: ExpenseForm, now: int, term: string)
    requires Submittable(f) && f.hostelId.None?
    requires !ContainsIgnoringCase(f.description, term)
    ensures SearchAsWritten(Add(es, f, now), term).None?
    ensures NewExpense(now, f) !in Search(Add(es, f, now), term) <==> !ContainsIgnoringCase(f.category, term)
  {
    var x := NewExpense(now, f);
    var p := (y: Expense) => MatchesAsWritten(y, term);
    assert x in Add(es, f, now) && p(x).None?;
  }

  // ----- submit, edit, delete -----

  /** The update branch: `{ ...exp, ...expenseFormData, hostelName, amount }`;
      id and status stay. */
  function Merge(e: Expense, f: ExpenseForm): (m: Expense)
    requires Submittable(f)
    ensures m.id == e.id && m.status == e.status
    ensures m.hostelId == f.hostelId && m.category == f.category && m.amount == f.amount.value
    ensures m.date == f.date && m.description == f.description && m.receipt == f.receipt
  {
    e.(hostelId := f.hostelId, hostelName := HostelNameOf(HostelChoices, f.hostelId),
       category := f.category, amount := f.amount.value, date := f.date,
       description := f.description, receipt := f.receipt)
  }

  function Update(es: seq<Expense>, id: int, f: ExpenseForm): (r: seq<Expense>)
    requires Submittable(f)
    ensures |r| == |es|
    ensures forall i :: 0 <= i < |es| ==> r[i].id == es[i].id
    ensures forall i :: 0 <= i < |es| && es[i].id != id ==> r[i] == es[i]
    ensures forall i :: 0 <= i < |es| && es[i].id == id ==> r[i] == Merge(es[i], f)
    ensures (forall x :: x in es ==> x.id != id) ==> r == es
  {
    UpdateWhere(es, (x: Expense) => x.id == id, (x: Expense) => Merge(x, f))
  }

  /** The add branch's new expense: pending approval. */
  function NewExpense(id: int, f: ExpenseForm): (e: Expense)
    requires Submittable(f)
    ensures e.id == id && e.status == "pending"
    ensures e.hostelId == f.hostelId && e.category == f.category && e.amount == f.amount.value
    ensures e.date == f.date && e.description == f.description && e.receipt == f.receipt
  {
    Expense(id, f.hostelId, HostelNameOf(HostelChoices, f.hostelId), f.category, f.amount.value,
            f.date, f.description, f.receipt, "pending")
  }

  /** The hostel name is resolved from the form's hostel id: defined exactly
      when one of the five hostels was picked. */
  lemma SubmittedHostelName(e: Expense, id: int, f: ExpenseForm)
    requires Submittable(f)
    ensures NewExpense(id, f).hostelName.Some? <==> f.hostelId.Some? && 1 <= f.hostelId.value <= 5
    ensures f.hostelId.Some? && 1 <= f.hostelId.value <= 5 ==>
      NewExpense(id, f).hostelName == Some(HostelChoices[f.hostelId.value - 1].name)
    ensures Merge(e, f).hostelName == NewExpense(id, f).hostelName
  {
    if f.hostelId.Some? {
      HostelChoicesResolve(f.hostelId.value);
      if 1 <= f.hostelId.value <= 5 {
        HostelNameById(f.hostelId.value);
      }
    }
  }

  function Add(es: seq<Expense>, f: ExpenseForm, id: int): (r: seq<Expense>)
    requires Submittable(f)
    ensures |r| == |es| + 1 && r[..|es|] == es && r[|es|] == NewExpense(id, f)
  {
    es + [NewExpense(id, f)]
  }

  function Delete(es: seq<Expense>, id: int): (r: seq<Expense>)
    ensures IsSubsequence(r, es)
    ensures forall x :: x in r ==> x in es && x.id != id
    ensures forall x :: x in es && x.id != id ==> x in r
  {
    FilterIsSubsequence(es, (x: Expense) => x.id != id);
    Filter(es, (x: Expense) => x.id != id)
  }

  lemma AddThenDelete(es: seq<Expense>, f: ExpenseForm, id: int)
    requires Submittable(f)
    requires forall x :: x in es ==> x.id != id
    ensures Delete(Add(es, f, id), id) == es
  {
    FilterAppend(es, NewExpense(id, f), (x: Expense) => x.id != id);
  }

  lemma UpdateKeepsIdsDistinct(es: seq<Expense>, id: int, f: ExpenseForm)
    requires Submittable(f) && UniqueBy(es, (x: Expense) => x.id)
    ensures UniqueBy(Update(es, id, f), (x: Expense) => x.id)
  {
    UpdateKeepsKeys(es, (x: Expense) => x.id == id, (x: Expense) requires Submittable(f) => Merge(x, f),
                    (x: Expense) => x.id);
  }

  lemma AddKeepsIdsDistinct(es: seq<Expense>, f: ExpenseForm, id: int)
    requires Submittable(f) && UniqueBy(es, (x: Expense) => x.id)
    requires forall x :: x in es ==> x.id != id
    ensures UniqueBy(Add(es, f, id), (x: Expense) => x.id)
  {
    AppendFreshKeepsUnique(es, NewExpense(id, f), (x: Expense) => x.id);
  }

  lemma DeleteKeepsIdsDistinct(es: seq<Expense>, id: int)
    requires UniqueBy(es, (x: Expense) => x.id)
    ensures UniqueBy(Delete(es, id), (x: Expense) => x.id)
  {
    FilterKeepsUnique(es, (x: Expense) => x.id != id, (x: Expense) => x.id);
  }

  /** handleEditExpense's form: the record's category, date, description
      and receipt, and its hostel id and amount as the strings the inputs
      hold (`toString()`). */
  function FormOf(e: Expense): (f: ExpenseForm)
    ensures Submittable(f)
    ensures f.category == e.category && f.date == e.date
    ensures f.description == e.description && f.receipt == e.receipt
    ensures f.hostelId == e.hostelId && f.amount == Some(e.amount)
  {
    ExpenseForm(e.hostelId, e.category, Some(e.amount), e.date, e.description, e.receipt)
  }

  /** An expense whose stored hostel name agrees with the lookup. */
  predicate Consistent(e: Expense)
  {
    e.hostelName == HostelNameOf(HostelChoices, e.hostelId)
  }

  lemma InitialExpensesIdsDistinct()
    ensures UniqueBy(InitialExpenses, (x: Expense) => x.id)
  {
  }

  lemma InitialExpensesConsistent()
    ensures forall i :: 0 <= i < |InitialExpenses| ==> Consistent(InitialExpenses[i])
  {
    forall i | 0 <= i < |InitialExpenses| ensures Consistent(InitialExpenses[i]) {
      HostelNameById(InitialExpenses[i].hostelId.value);
    }
  }

  /** Loading an expense into the form and submitting it unchanged leaves
      the list as it was, the expense's status included. */
  lemma EditThenSubmitUnchanged(es: seq<Expense>, k: int)
    requires UniqueBy(es, (x: Expense) => x.id) && 0 <= k < |es| && Consistent(es[k])
    ensures Update(es, es[k].id, FormOf(es[k])) == es
  {
    var r := Update(es, es[k].id, FormOf(es[k]));
    assert forall i :: 0 <= i < |es| ==> r[i] == es[i];
  }

  /** The table the submit handler leaves: the update branch when an expense is
      selected, the add branch otherwise; either keeps ids distinct. */
  function Submit(xs: seq<Expense>, selected: Option<Expense>, f: ExpenseForm, now: int): (r: seq<Expense>)
    requires Submittable(f) && UniqueBy(xs, (x: Expense) => x.id)
    requires selected.None? ==> forall x :: x in xs ==> x.id != now
    ensures UniqueBy(r, (x: Expense) => x.id)
  {
    if selected.Some? then
      UpdateKeepsIdsDistinct(xs, selected.value.id, f);
      Update(xs, selected.value.id, f)
    else
      AddKeepsIdsDistinct(xs, f, now);
      Add(xs, f, now)
  }

  // ----- badges -----

  const GreenBadge := "bg-green-100 text-green-800"
  const YellowBadge := "bg-yellow-100 text-yellow-800"
  const RedBadge := "bg-red-100 text-red-800"
  const GrayBadge := "bg-gray-100 text-gray-800"

  /** getStatusColor */
  function StatusColor(status: string): string
  {
    if status == "approved" then GreenBadge
    else if status == "pending" then YellowBadge
    else if status == "rejected" then RedBadge
    else if status == "paid" then GreenBadge
    else if status == "overdue" then RedBadge
    else GrayBadge
  }

  /** Approved and paid are green, pending yellow, rejected and overdue red,
      and every other status gray. */
  lemma StatusColors(status: string)
    ensures StatusColor(status) == GreenBadge <==> status == "approved" || status == "paid"
    ensures StatusColor(status) == YellowBadge <==> status == "pending"
    ensures StatusColor(status) == RedBadge <==> status == "rejected" || status == "overdue"
    ensures StatusColor(status) == GrayBadge <==>
      status !in ["approved", "pending", "rejected", "paid", "overdue"]
  {
    assert GreenBadge != YellowBadge && GreenBadge != RedBadge && GreenBadge != GrayBadge;
    assert YellowBadge != RedBadge && YellowBadge != GrayBadge && RedBadge != GrayBadge;
  }

  // ----- invoices and the summary cards -----

  /** A rent invoice; `paidDate` is `None` for null. */
  datatype Invoice = Invoice(
    id: int, tenantName: string, hostelName: string, roomNumber: string, amount: int,
    dueDate: string, issueDate: string, status: string, paidDate: Option<string>)

  const InitialInvoices := [
    Invoice(1, "John Smith", "Downtown Hostel", "101", 210000, "2024-07-01", "2024-06-01", "paid", Some("2024-06-28")),
    Invoice(2, "Alice Johnson", "University Campus", "201", 252000, "2024-07-01", "2024-06-01", "pending", None),
    Invoice(3, "Bob Wilson", "City Center", "301", 266000, "2024-07-01", "2024-06-01", "overdue", None)
  ]

  predicate Unpaid(x: Invoice) { x.status != "paid" }
  predicate Overdue(x: Invoice) { x.status == "overdue" }
  function InvoiceAmount(x: Invoice): int { x.amount }

  /** One bar of the income / expenses chart. */
  datatype MonthRow = MonthRow(month: string, income: int, expenses: int)

  const MonthlyData := [
    MonthRow("Jan", 9800000, 7840000), MonthRow("Feb", 10640000, 8400000),
    MonthRow("Mar", 11760000, 8960000), MonthRow("Apr", 12600000, 9800000),
    MonthRow("May", 13440000, 10080000), MonthRow("Jun", 12664400, 9520000)
  ]

  /** The five summary cards. */
  datatype MonthSummary = MonthSummary(
    totalIncome: int, totalExpenses: int, netProfit: int, pendingPayments: int, overduePayments: int)

  const CurrentMonth := MonthSummary(12664400, 9520000, 3144400, 518000, 266000)

  /** Which invoices the two payment cards select. */
  lemma {:induction false} InvoiceSelections()
    ensures Filter(InitialInvoices, Unpaid) == InitialInvoices[1..]
    ensures Filter(InitialInvoices, Overdue) == InitialInvoices[2..]
  {
    var a, b, c := InitialInvoices[0], InitialInvoices[1], InitialInvoices[2];
    assert InitialInvoices == [a, b] + [c];
    assert [a, b] == [a] + [b];
    FilterAppend([a], b, Unpaid);
    FilterAppend([a], b, Overdue);
    FilterAppend([a, b], c, Unpaid);
    FilterAppend([a, b], c, Overdue);
  }

  /** The payment cards agree with the invoice list: "pending" sums the two
      unpaid invoices (the pending one and the overdue one), and "overdue"
      sums the overdue one alone. */
  lemma PaymentCardsConsistent()
    ensures CurrentMonth.pendingPayments == SumOf(Filter(InitialInvoices, Unpaid), InvoiceAmount)
    ensures Count(InitialInvoices, Unpaid) == 2
    ensures CurrentMonth.overduePayments == SumOf(Filter(InitialInvoices, Overdue), InvoiceAmount)
    ensures Count(InitialInvoices, Overdue) == 1
  {
    InvoiceSelections();
    var b, c := InitialInvoices[1], InitialInvoices[2];
    assert InitialInvoices[1..] == [b] + [c];
    SumOfAppend([b], c, InvoiceAmount);
    assert InitialInvoices[2..] == [] + [c];
    SumOfAppend([], c, InvoiceAmount);
  }

  /** The income, expense and profit cards show the chart's last month, with
      profit equal to income less expenses; every month of the chart is
      profitable. */
  lemma MonthCardsConsistent()
    ensures CurrentMonth.netProfit == CurrentMonth.totalIncome - CurrentMonth.totalExpenses
    ensures MonthlyData[|MonthlyData| - 1] ==
              MonthRow("Jun", CurrentMonth.totalIncome, CurrentMonth.totalExpenses)
    ensures forall i :: 0 <= i < |MonthlyData| ==> MonthlyData[i].income > MonthlyData[i].expenses
  {
  }

  class FinanceScreen {
    var searchTerm: string
    var isExpenseDialogOpen: bool
    var selectedExpense: Option<Expense>
    var expenseFormData: ExpenseForm
    var expenses: seq<Expense>

    predicate Valid()
      reads this
    {
      UniqueBy(expenses, (x: Expense) => x.id)
    }

    constructor ()
      ensures Valid()
      ensures expenses == InitialExpenses && expenseFormData == EmptyForm
      ensures searchTerm == "" && !isExpenseDialogOpen && selectedExpense.None?
    {
      InitialExpensesIdsDistinct();
      searchTerm := "";
      isExpenseDialogOpen := false;
      selectedExpense := None;
      expenseFormData := EmptyForm;
      expenses := InitialExpenses;
    }

    function FilteredExpenses(): seq<Expense>
      reads this
    {
      Search(expenses, searchTerm)
    }

    method SetSearchTerm(term: string)
      modifies this
      ensures searchTerm == term
      ensures expenses == old(expenses) && expenseFormData == old(expenseFormData)
      ensures selectedExpense == old(selectedExpense) && isExpenseDialogOpen == old(isExpenseDialogOpen)
    {
      searchTerm := term;
    }

    /** handleExpenseSubmit, then resetExpenseForm. */
    method HandleExpenseSubmit(now: int)
      requires Valid() && Submittable(expenseFormData)
      requires selectedExpense.None? ==> forall x :: x in expenses ==> x.id != now
      modifies this
      ensures Valid()
      ensures old(selectedExpense).Some? ==>
        expenses == Update(old(expenses), old(selectedExpense).value.id, old(expenseFormData))
      ensures old(selectedExpense).None? ==> expenses == Add(old(expenses), old(expenseFormData), now)
      ensures !isExpenseDialogOpen && selectedExpense.None? && expenseFormData == EmptyForm
      ensures searchTerm == old(searchTerm)
    {
      expenses := Submit(expenses, selectedExpense, expenseFormData, now);
      isExpenseDialogOpen := false;
      selectedExpense := None;
      expenseFormData := EmptyForm;
    }

    method HandleEditExpense(e: Expense)
      modifies this
      ensures selectedExpense == Some(e) && expenseFormData == FormOf(e) && isExpenseDialogOpen
      ensures expenses == old(expenses) && searchTerm == old(searchTerm)
    {
      selectedExpense := Some(e);
      expenseFormData := FormOf(e);
      isExpenseDialogOpen := true;
    }

    method HandleDeleteExpense(id: int)
      requires Valid()
      modifies this
      ensures Valid()
      ensures expenses == Delete(old(expenses), id)
      ensures expenseFormData == old(expenseFormData) && selectedExpense == old(selectedExpense)
      ensures isExpenseDialogOpen == old(isExpenseDialogOpen) && searchTerm == old(searchTerm)
    {
      DeleteKeepsIdsDistinct(expenses, id);
      expenses := Delete(expenses, id);
    }
  }
}
